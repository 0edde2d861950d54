/**
 * The collection of saved resumes and the pointer to the one being edited.
 * Fresh ids and ISO timestamps are inputs (the store draws them from the
 * clock and a random source).
 */
module DashboardStore {
  import opened Wrappers
  import opened Schema
  import ById

  datatype SavedResume = SavedResume(
    id: string,
    name: string,
    data: ResumeData,
    createdAt: string,
    updatedAt: string)

  function ResumeId(r: SavedResume): string { r.id }

  /** Appended to the name of a duplicate. */
  const CopySuffix: string := " (Copy)"

  /** The blank resume a new record starts from. */
  function EmptyResume(): (r: ResumeData)
    ensures forall f :: InfoValue(r.personalInfo, f) == Some("")
    ensures r.experience == [] && r.education == [] && r.skills == [] && r.projects == []
  {
    ResumeData(
      PersonalInfo("", "", Some(""), Some(""), Some(""), Some(""), Some(""), Some(""), Some("")),
      [], [], [], [])
  }

  /** The blank resume does not pass validation, whatever the formats: its full name is empty. */
  lemma EmptyResumeIsInvalid(formats: Formats)
    ensures !ValidResume(EmptyResume(), formats)
  {
    assert InfoValue(EmptyResume().personalInfo, FullName) == Some("");
  }

  /** `{ ...r, data, updatedAt }` */
  datatype DataPatch = DataPatch(data: ResumeData, updatedAt: string)
  /** `{ ...r, name, updatedAt }` */
  datatype NamePatch = NamePatch(name: string, updatedAt: string)

  function ApplyData(r: SavedResume, p: DataPatch): SavedResume
  {
    r.(data := p.data, updatedAt := p.updatedAt)
  }

  function ApplyName(r: SavedResume, p: NamePatch): SavedResume
  {
    r.(name := p.name, updatedAt := p.updatedAt)
  }

  /** Replacing the data keeps every record's id, name and creation time, and the order. */
  lemma UpdateKeepsIdentity(rs: seq<SavedResume>, id: string, p: DataPatch)
    ensures var r := ById.UpdateById(rs, id, ResumeId, ApplyData, p);
      && |r| == |rs|
      && (forall i :: 0 <= i < |rs| ==> r[i].id == rs[i].id && r[i].name == rs[i].name && r[i].createdAt == rs[i].createdAt)
      && (forall i :: 0 <= i < |rs| && rs[i].id == id ==> r[i].data == p.data && r[i].updatedAt == p.updatedAt)
  {
    var r := ById.UpdateById(rs, id, ResumeId, ApplyData, p);
    forall i | 0 <= i < |rs|
      ensures r[i].id == rs[i].id && r[i].name == rs[i].name && r[i].createdAt == rs[i].createdAt
    {
      if ResumeId(rs[i]) == id {
        assert r[i] == ApplyData(rs[i], p);
      } else {
        assert r[i] == rs[i];
      }
    }
  }

  /** Renaming keeps every record's id, data and creation time, and the order. */
  lemma RenameKeepsIdentity(rs: seq<SavedResume>, id: string, p: NamePatch)
    ensures var r := ById.UpdateById(rs, id, ResumeId, ApplyName, p);
      && |r| == |rs|
      && (forall i :: 0 <= i < |rs| ==> r[i].id == rs[i].id && r[i].data == rs[i].data && r[i].createdAt == rs[i].createdAt)
      && (forall i :: 0 <= i < |rs| && rs[i].id == id ==> r[i].name == p.name && r[i].updatedAt == p.updatedAt)
  {
    var r := ById.UpdateById(rs, id, ResumeId, ApplyName, p);
    forall i | 0 <= i < |rs|
      ensures r[i].id == rs[i].id && r[i].data == rs[i].data && r[i].createdAt == rs[i].createdAt
    {
      if ResumeId(rs[i]) == id {
        assert r[i] == ApplyName(rs[i], p);
      } else {
        assert r[i] == rs[i];
      }
    }
  }

  /** The record `find` returns for an optional id (a null id matches nothing). */
  function FindActive(rs: seq<SavedResume>, active: Option<string>): (r: Option<SavedResume>)
    ensures active.None? ==> r.None?
    ensures active.Some? ==> (r.None? <==> !ById.HasId(rs, active.value, ResumeId))
    ensures r.Some? ==> r.value in rs && active == Some(r.value.id)
    ensures r.Some? ==> exists i :: 0 <= i < |rs| && rs[i] == r.value
                                    && forall j :: 0 <= j < i ==> rs[j].id != r.value.id
  {
    if active.None? then None else ById.FindById(rs, active.value, ResumeId)
  }

  class Store {
    var resumes: seq<SavedResume>
    var activeResumeId: Option<string>

    constructor ()
      ensures resumes == [] && activeResumeId == None
    {
      resumes := [];
      activeResumeId := None;
    }

    /** The first record whose id is the active one, or none. */
    function GetActiveResume(): (r: Option<SavedResume>)
      reads this
      ensures r.Some? ==> r.value in resumes && activeResumeId == Some(r.value.id)
      ensures r.None? <==> activeResumeId.None? || !ById.HasId(resumes, activeResumeId.value, ResumeId)
      ensures r.Some? ==> exists i :: 0 <= i < |resumes| && resumes[i] == r.value
                                      && forall j :: 0 <= j < i ==> resumes[j].id != r.value.id
    {
      FindActive(resumes, activeResumeId)
    }

    /** Appends a blank record under `id` and makes it active; returns the id. */
    method CreateResume(name: string, id: string, now: string) returns (newId: string)
      modifies this
      ensures newId == id
      ensures resumes == old(resumes) + [SavedResume(id, name, EmptyResume(), now, now)]
      ensures activeResumeId == Some(id)
      ensures !ById.HasId(old(resumes), id, ResumeId) ==>
                GetActiveResume() == Some(SavedResume(id, name, EmptyResume(), now, now))
    {
      var record := SavedResume(id, name, EmptyResume(), now, now);
      ghost var before := resumes;
      resumes := resumes + [record];
      activeResumeId := Some(id);
      newId := id;
      if !ById.HasId(before, id, ResumeId) {
        var k := ById.IndexOfId(resumes, id, ResumeId);
        assert resumes[|before|] == record;
        assert forall j :: 0 <= j < |before| ==> resumes[j] == before[j];
        assert k == Some(|before|);
      }
    }

    /** Drops every record with `id`; clears the active pointer exactly when it pointed at `id`. */
    method DeleteResume(id: string)
      modifies this
      ensures resumes == ById.RemoveById(old(resumes), id, ResumeId)
      ensures activeResumeId == if old(activeResumeId) == Some(id) then None else old(activeResumeId)
    {
      resumes := ById.RemoveById(resumes, id, ResumeId);
      if activeResumeId == Some(id) {
        activeResumeId := None;
      }
    }

    /** Gives every record with `id` the new data and update time. */
    method UpdateResume(id: string, data: ResumeData, now: string)
      modifies this
      ensures resumes == ById.UpdateById(old(resumes), id, ResumeId, ApplyData, DataPatch(data, now))
      ensures !ById.HasId(old(resumes), id, ResumeId) ==> resumes == old(resumes)
      ensures activeResumeId == old(activeResumeId)
    {
      ghost var before := resumes;
      resumes := ById.UpdateById(resumes, id, ResumeId, ApplyData, DataPatch(data, now));
      if !ById.HasId(before, id, ResumeId) {
        ById.UpdateByIdAbsent(before, id, ResumeId, ApplyData, DataPatch(data, now));
      }
    }

    /** Gives every record with `id` the new name and update time. */
    method RenameResume(id: string, name: string, now: string)
      modifies this
      ensures resumes == ById.UpdateById(old(resumes), id, ResumeId, ApplyName, NamePatch(name, now))
      ensures !ById.HasId(old(resumes), id, ResumeId) ==> resumes == old(resumes)
      ensures activeResumeId == old(activeResumeId)
    {
      ghost var before := resumes;
      resumes := ById.UpdateById(resumes, id, ResumeId, ApplyName, NamePatch(name, now));
      if !ById.HasId(before, id, ResumeId) {
        ById.UpdateByIdAbsent(before, id, ResumeId, ApplyName, NamePatch(name, now));
      }
    }

    method SetActiveResume(id: Option<string>)
      modifies this
      ensures activeResumeId == id && resumes == old(resumes)
    {
      activeResumeId := id;
    }

    /**
     * Copies the first record with `id` under `newId` (same data, name with the
     * copy suffix) and returns `newId`; returns "" and changes nothing when no
     * record has `id`. The active pointer never moves.
     */
    method DuplicateResume(id: string, newId: string, now: string) returns (r: string)
      modifies this
      ensures !ById.HasId(old(resumes), id, ResumeId) ==> r == "" && resumes == old(resumes)
      ensures ById.HasId(old(resumes), id, ResumeId) ==>
                var original := ById.FindById(old(resumes), id, ResumeId).value;
                && r == newId
                && resumes == old(resumes) + [SavedResume(newId, original.name + CopySuffix, original.data, now, now)]
      ensures activeResumeId == old(activeResumeId)
    {
      var found := ById.FindById(resumes, id, ResumeId);
      if found.None? {
        return "";
      }
      var original := found.value;
      var duplicate := SavedResume(newId, original.name + CopySuffix, original.data, now, now);
      resumes := resumes + [duplicate];
      r := newId;
    }
  }
}
