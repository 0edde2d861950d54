/**
 * The resume records and their validation rules (the zod object schemas).
 * Optional schema fields are `Option` values; a required array is a plain `seq`.
 */
module Schema {
  import opened Wrappers

  datatype PersonalInfo = PersonalInfo(
    fullName: string,
    email: string,
    phone: Option<string>,
    location: Option<string>,
    linkedin: Option<string>,
    github: Option<string>,
    portfolio: Option<string>,
    website: Option<string>,
    summary: Option<string>)

  datatype Experience = Experience(
    id: string,
    title: string,
    company: string,
    location: Option<string>,
    startDate: string,
    endDate: Option<string>,   // empty or absent reads as "Present"
    highlights: seq<string>)

  datatype Education = Education(
    id: string,
    degree: string,
    school: string,
    location: Option<string>,
    startDate: Option<string>,
    endDate: Option<string>,
    gpa: Option<string>,
    highlights: Option<seq<string>>)

  datatype Skill = Skill(id: string, name: string, level: Option<string>)

  datatype Project = Project(
    id: string,
    name: string,
    description: Option<string>,
    url: Option<string>,
    technologies: Option<seq<string>>,
    highlights: Option<seq<string>>)

  datatype ResumeData = ResumeData(
    personalInfo: PersonalInfo,
    experience: seq<Experience>,
    education: seq<Education>,
    skills: seq<Skill>,
    projects: seq<Project>)

  /** The e-mail and URL string formats, which the validation library defines. */
  datatype Formats = Formats(isEmail: string -> bool, isUrl: string -> bool)

  /** The nine personal-information fields, addressable by name. */
  datatype InfoField = FullName | Email | Phone | Location | LinkedIn | GitHub | Portfolio | Website | Summary

  /** The value stored under a personal-information field (the two required ones are always present). */
  function InfoValue(p: PersonalInfo, f: InfoField): Option<string>
  {
    match f
    case FullName => Some(p.fullName)
    case Email => Some(p.email)
    case Phone => p.phone
    case Location => p.location
    case LinkedIn => p.linkedin
    case GitHub => p.github
    case Portfolio => p.portfolio
    case Website => p.website
    case Summary => p.summary
  }

  /** A string that passes `z.string().min(1)`. */
  predicate NonEmpty(s: string)
  {
    |s| >= 1
  }

  /** An optional field that passes `format.optional()`. */
  predicate OptionalFormat(o: Option<string>, format: string -> bool)
  {
    o.Some? ==> format(o.value)
  }

  predicate ValidPersonalInfo(p: PersonalInfo, formats: Formats)
  {
    && NonEmpty(p.fullName)
    && formats.isEmail(p.email)
    && OptionalFormat(p.website, formats.isUrl)
  }

  predicate ValidExperience(e: Experience)
  {
    NonEmpty(e.title) && NonEmpty(e.company) && NonEmpty(e.startDate)
  }

  predicate ValidEducation(e: Education)
  {
    NonEmpty(e.degree) && NonEmpty(e.school)
  }

  /** The four proficiency levels a skill may name. */
  const SkillLevels: set<string> := {"beginner", "intermediate", "advanced", "expert"}

  predicate ValidSkill(s: Skill)
  {
    NonEmpty(s.name) && OptionalFormat(s.level, l => l in SkillLevels)
  }

  predicate ValidProject(p: Project, formats: Formats)
  {
    NonEmpty(p.name) && OptionalFormat(p.url, formats.isUrl)
  }

  /** Every part is valid; nothing is required of the ids (not even uniqueness). */
  predicate ValidResume(d: ResumeData, formats: Formats)
  {
    && ValidPersonalInfo(d.personalInfo, formats)
    && (forall e :: e in d.experience ==> ValidExperience(e))
    && (forall e :: e in d.education ==> ValidEducation(e))
    && (forall s :: s in d.skills ==> ValidSkill(s))
    && (forall p :: p in d.projects ==> ValidProject(p, formats))
  }

  /** A skill level is accepted exactly when it is one of the four listed words. */
  lemma SkillLevelEnumeration(s: Skill, level: string)
    requires NonEmpty(s.name)
    ensures ValidSkill(s.(level := Some(level))) <==>
              level == "beginner" || level == "intermediate" || level == "advanced" || level == "expert"
    ensures ValidSkill(s.(level := None))
  {
  }

  /** Ids play no part in validity: two entries may share one and the resume stays valid. */
  lemma DuplicateIdsAllowed(d: ResumeData, formats: Formats, e: Experience)
    requires ValidResume(d, formats) && ValidExperience(e)
    ensures ValidResume(d.(experience := d.experience + [e, e]), formats)
  {
  }
}
