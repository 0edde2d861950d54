/**
 * The resume being edited: its record and the selected template, with the
 * field update for personal information and append / patch-by-id /
 * remove-by-id over the four ordered collections.
 */
module ResumeStore {
  import opened Wrappers
  import opened Schema
  import ById

  /** The template a fresh store shows. */
  const DefaultTemplate: string := "classic"

  function ExperienceId(e: Experience): string { e.id }
  function EducationId(e: Education): string { e.id }
  function SkillId(s: Skill): string { s.id }
  function ProjectId(p: Project): string { p.id }

  /** A field present in a patch wins over the stored one (`{ ...old, ...patch }`). */
  function Overlay<T>(patch: Option<T>, current: T): T
  {
    if patch.Some? then patch.value else current
  }

  /** The same for a field that is itself optional: a present patch value makes it present. */
  function OverlayOptional<T>(patch: Option<T>, current: Option<T>): Option<T>
  {
    if patch.Some? then patch else current
  }

  /** `Partial<Experience>`: every field may be absent. */
  datatype ExperiencePatch = ExperiencePatch(
    id: Option<string>,
    title: Option<string>,
    company: Option<string>,
    location: Option<string>,
    startDate: Option<string>,
    endDate: Option<string>,
    highlights: Option<seq<string>>)

  datatype EducationPatch = EducationPatch(
    id: Option<string>,
    degree: Option<string>,
    school: Option<string>,
    location: Option<string>,
    startDate: Option<string>,
    endDate: Option<string>,
    gpa: Option<string>,
    highlights: Option<seq<string>>)

  datatype SkillPatch = SkillPatch(id: Option<string>, name: Option<string>, level: Option<string>)

  datatype ProjectPatch = ProjectPatch(
    id: Option<string>,
    name: Option<string>,
    description: Option<string>,
    url: Option<string>,
    technologies: Option<seq<string>>,
    highlights: Option<seq<string>>)

  function MergeExperience(e: Experience, p: ExperiencePatch): Experience
  {
    Experience(
      Overlay(p.id, e.id), Overlay(p.title, e.title), Overlay(p.company, e.company),
      OverlayOptional(p.location, e.location), Overlay(p.startDate, e.startDate),
      OverlayOptional(p.endDate, e.endDate), Overlay(p.highlights, e.highlights))
  }

  function MergeEducation(e: Education, p: EducationPatch): Education
  {
    Education(
      Overlay(p.id, e.id), Overlay(p.degree, e.degree), Overlay(p.school, e.school),
      OverlayOptional(p.location, e.location), OverlayOptional(p.startDate, e.startDate),
      OverlayOptional(p.endDate, e.endDate), OverlayOptional(p.gpa, e.gpa),
      OverlayOptional(p.highlights, e.highlights))
  }

  function MergeSkill(s: Skill, p: SkillPatch): Skill
  {
    Skill(Overlay(p.id, s.id), Overlay(p.name, s.name), OverlayOptional(p.level, s.level))
  }

  function MergeProject(x: Project, p: ProjectPatch): Project
  {
    Project(
      Overlay(p.id, x.id), Overlay(p.name, x.name),
      OverlayOptional(p.description, x.description), OverlayOptional(p.url, x.url),
      OverlayOptional(p.technologies, x.technologies), OverlayOptional(p.highlights, x.highlights))
  }

  /** The patch that sets only the highlights of an experience. */
  function HighlightsPatch(highlights: seq<string>): ExperiencePatch
  {
    ExperiencePatch(None, None, None, None, None, None, Some(highlights))
  }

  /** `{ ...personalInfo, [field]: value }` for one of the nine known fields. */
  function SetInfoField(p: PersonalInfo, f: InfoField, v: string): (r: PersonalInfo)
    ensures InfoValue(r, f) == Some(v)
    ensures forall g :: g != f ==> InfoValue(r, g) == InfoValue(p, g)
  {
    match f
    case FullName => p.(fullName := v)
    case Email => p.(email := v)
    case Phone => p.(phone := Some(v))
    case Location => p.(location := Some(v))
    case LinkedIn => p.(linkedin := Some(v))
    case GitHub => p.(github := Some(v))
    case Portfolio => p.(portfolio := Some(v))
    case Website => p.(website := Some(v))
    case Summary => p.(summary := Some(v))
  }

  /** Setting a field and reading it back gives the value; setting it again keeps only the last. */
  lemma SetInfoFieldOverwrites(p: PersonalInfo, f: InfoField, v: string, w: string)
    ensures SetInfoField(SetInfoField(p, f, v), f, w) == SetInfoField(p, f, w)
  {
  }

  /** Setting two different fields commutes. */
  lemma SetInfoFieldCommutes(p: PersonalInfo, f: InfoField, v: string, g: InfoField, w: string)
    requires f != g
    ensures SetInfoField(SetInfoField(p, f, v), g, w) == SetInfoField(SetInfoField(p, g, w), f, v)
  {
  }

  /** A patch with no fields leaves an experience as it was; applying a patch twice is applying it once. */
  lemma MergeExperienceLaws(e: Experience, p: ExperiencePatch)
    ensures MergeExperience(e, ExperiencePatch(None, None, None, None, None, None, None)) == e
    ensures MergeExperience(MergeExperience(e, p), p) == MergeExperience(e, p)
  {
  }

  /** The same laws for the education, skill and project partials. */
  lemma MergeSectionLaws(ed: Education, pe: EducationPatch, sk: Skill, ps: SkillPatch, pr: Project, pp: ProjectPatch)
    ensures MergeEducation(ed, EducationPatch(None, None, None, None, None, None, None, None)) == ed
    ensures MergeEducation(MergeEducation(ed, pe), pe) == MergeEducation(ed, pe)
    ensures MergeSkill(sk, SkillPatch(None, None, None)) == sk
    ensures MergeSkill(MergeSkill(sk, ps), ps) == MergeSkill(sk, ps)
    ensures MergeProject(pr, ProjectPatch(None, None, None, None, None, None)) == pr
    ensures MergeProject(MergeProject(pr, pp), pp) == MergeProject(pr, pp)
  {
  }

  /** A highlights-only patch changes the highlights and no other field. */
  lemma HighlightsPatchOnlyHighlights(e: Experience, hs: seq<string>)
    ensures MergeExperience(e, HighlightsPatch(hs)) == e.(highlights := hs)
  {
  }

  /**
   * Adding a valid entry, removing any entry, or patching with a patch that
   * cannot make a valid entry invalid keeps a valid resume valid.
   */
  lemma ExperienceEditsKeepValidity(d: ResumeData, formats: Formats, e: Experience, id: string, p: ExperiencePatch)
    requires ValidResume(d, formats)
    requires ValidExperience(e)
    requires p.title.Some? ==> NonEmpty(p.title.value)
    requires p.company.Some? ==> NonEmpty(p.company.value)
    requires p.startDate.Some? ==> NonEmpty(p.startDate.value)
    ensures ValidResume(d.(experience := d.experience + [e]), formats)
    ensures ValidResume(d.(experience := ById.RemoveById(d.experience, id, ExperienceId)), formats)
    ensures ValidResume(d.(experience := ById.UpdateById(d.experience, id, ExperienceId, MergeExperience, p)), formats)
  {
    var u := ById.UpdateById(d.experience, id, ExperienceId, MergeExperience, p);
    forall x | x in u ensures ValidExperience(x) {
      var i :| 0 <= i < |u| && u[i] == x;
      assert d.experience[i] in d.experience;
    }
  }

  class Store {
    var resumeData: ResumeData
    var activeTemplate: string

    /** The store starts from a fixture resume and the classic template. */
    constructor (initial: ResumeData)
      ensures resumeData == initial && activeTemplate == DefaultTemplate
    {
      resumeData := initial;
      activeTemplate := DefaultTemplate;
    }

    /** Replaces the whole record; the template is kept. */
    method SetResumeData(data: ResumeData)
      modifies this
      ensures resumeData == data && activeTemplate == old(activeTemplate)
    {
      resumeData := data;
    }

    /** Sets one personal-information field; every other field and every collection is kept. */
    method UpdatePersonalInfo(field: InfoField, value: string)
      modifies this
      ensures resumeData == old(resumeData).(personalInfo := SetInfoField(old(resumeData.personalInfo), field, value))
      ensures InfoValue(resumeData.personalInfo, field) == Some(value)
      ensures forall g :: g != field ==> InfoValue(resumeData.personalInfo, g) == InfoValue(old(resumeData.personalInfo), g)
      ensures activeTemplate == old(activeTemplate)
    {
      resumeData := resumeData.(personalInfo := SetInfoField(resumeData.personalInfo, field, value));
    }

    method AddExperience(e: Experience)
      modifies this
      ensures resumeData == old(resumeData).(experience := old(resumeData.experience) + [e])
      ensures activeTemplate == old(activeTemplate)
    {
      resumeData := resumeData.(experience := resumeData.experience + [e]);
    }

    method UpdateExperience(id: string, patch: ExperiencePatch)
      modifies this
      ensures resumeData == old(resumeData).(experience :=
                ById.UpdateById(old(resumeData.experience), id, ExperienceId, MergeExperience, patch))
      ensures !ById.HasId(old(resumeData.experience), id, ExperienceId) ==> resumeData == old(resumeData)
      ensures activeTemplate == old(activeTemplate)
    {
      ghost var before := resumeData;
      resumeData := resumeData.(experience :=
        ById.UpdateById(resumeData.experience, id, ExperienceId, MergeExperience, patch));
      if !ById.HasId(before.experience, id, ExperienceId) {
        ById.UpdateByIdAbsent(before.experience, id, ExperienceId, MergeExperience, patch);
      }
    }

    method RemoveExperience(id: string)
      modifies this
      ensures resumeData == old(resumeData).(experience := ById.RemoveById(old(resumeData.experience), id, ExperienceId))
      ensures !ById.HasId(resumeData.experience, id, ExperienceId)
      ensures activeTemplate == old(activeTemplate)
    {
      resumeData := resumeData.(experience := ById.RemoveById(resumeData.experience, id, ExperienceId));
    }

    method AddEducation(e: Education)
      modifies this
      ensures resumeData == old(resumeData).(education := old(resumeData.education) + [e])
      ensures activeTemplate == old(activeTemplate)
    {
      resumeData := resumeData.(education := resumeData.education + [e]);
    }

    method UpdateEducation(id: string, patch: EducationPatch)
      modifies this
      ensures resumeData == old(resumeData).(education :=
                ById.UpdateById(old(resumeData.education), id, EducationId, MergeEducation, patch))
      ensures !ById.HasId(old(resumeData.education), id, EducationId) ==> resumeData == old(resumeData)
      ensures activeTemplate == old(activeTemplate)
    {
      ghost var before := resumeData;
      resumeData := resumeData.(education :=
        ById.UpdateById(resumeData.education, id, EducationId, MergeEducation, patch));
      if !ById.HasId(before.education, id, EducationId) {
        ById.UpdateByIdAbsent(before.education, id, EducationId, MergeEducation, patch);
      }
    }

    method RemoveEducation(id: string)
      modifies this
      ensures resumeData == old(resumeData).(education := ById.RemoveById(old(resumeData.education), id, EducationId))
      ensures !ById.HasId(resumeData.education, id, EducationId)
      ensures activeTemplate == old(activeTemplate)
    {
      resumeData := resumeData.(education := ById.RemoveById(resumeData.education, id, EducationId));
    }

    method AddSkill(s: Skill)
      modifies this
      ensures resumeData == old(resumeData).(skills := old(resumeData.skills) + [s])
      ensures activeTemplate == old(activeTemplate)
    {
      resumeData := resumeData.(skills := resumeData.skills + [s]);
    }

    method UpdateSkill(id: string, patch: SkillPatch)
      modifies this
      ensures resumeData == old(resumeData).(skills :=
                ById.UpdateById(old(resumeData.skills), id, SkillId, MergeSkill, patch))
      ensures !ById.HasId(old(resumeData.skills), id, SkillId) ==> resumeData == old(resumeData)
      ensures activeTemplate == old(activeTemplate)
    {
      ghost var before := resumeData;
      resumeData := resumeData.(skills := ById.UpdateById(resumeData.skills, id, SkillId, MergeSkill, patch));
      if !ById.HasId(before.skills, id, SkillId) {
        ById.UpdateByIdAbsent(before.skills, id, SkillId, MergeSkill, patch);
      }
    }

    method RemoveSkill(id: string)
      modifies this
      ensures resumeData == old(resumeData).(skills := ById.RemoveById(old(resumeData.skills), id, SkillId))
      ensures !ById.HasId(resumeData.skills, id, SkillId)
      ensures activeTemplate == old(activeTemplate)
    {
      resumeData := resumeData.(skills := ById.RemoveById(resumeData.skills, id, SkillId));
    }

    method AddProject(p: Project)
      modifies this
      ensures resumeData == old(resumeData).(projects := old(resumeData.projects) + [p])
      ensures activeTemplate == old(activeTemplate)
    {
      resumeData := resumeData.(projects := resumeData.projects + [p]);
    }

    method UpdateProject(id: string, patch: ProjectPatch)
      modifies this
      ensures resumeData == old(resumeData).(projects :=
                ById.UpdateById(old(resumeData.projects), id, ProjectId, MergeProject, patch))
      ensures !ById.HasId(old(resumeData.projects), id, ProjectId) ==> resumeData == old(resumeData)
      ensures activeTemplate == old(activeTemplate)
    {
      ghost var before := resumeData;
      resumeData := resumeData.(projects := ById.UpdateById(resumeData.projects, id, ProjectId, MergeProject, patch));
      if !ById.HasId(before.projects, id, ProjectId) {
        ById.UpdateByIdAbsent(before.projects, id, ProjectId, MergeProject, patch);
      }
    }

    method RemoveProject(id: string)
      modifies this
      ensures resumeData == old(resumeData).(projects := ById.RemoveById(old(resumeData.projects), id, ProjectId))
      ensures !ById.HasId(resumeData.projects, id, ProjectId)
      ensures activeTemplate == old(activeTemplate)
    {
      resumeData := resumeData.(projects := ById.RemoveById(resumeData.projects, id, ProjectId));
    }

    /** Selects a template; the resume record is untouched. */
    method SetActiveTemplate(template: string)
      modifies this
      ensures activeTemplate == template && resumeData == old(resumeData)
    {
      activeTemplate := template;
    }
  }
}
