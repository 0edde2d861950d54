/**
 * The list edits behind the work-experience form: a blank entry is appended,
 * and a highlight is appended, overwritten or dropped through a partial update
 * of the entry that carries the highlights.  Each highlight edit looks up the
 * first entry with the id and does nothing when there is none.
 */
module ExperienceEditor {
  import opened Wrappers
  import opened Schema
  import ById
  import ResumeStore

  /** The entry the Add button appends: empty strings and no highlights. */
  function BlankExperience(id: string): (e: Experience)
    ensures e.id == id && e.highlights == []
    ensures e.title == "" && e.company == "" && e.startDate == ""
    ensures e.location == Some("") && e.endDate == Some("")
    ensures !ValidExperience(e)
  {
    Experience(id, "", "", Some(""), "", Some(""), [])
  }

  /** `list[i] = v` on a copy: overwrite inside the list, append just past its end, and no list change for a negative index. */
  function SetSlot(hs: seq<string>, i: int, v: string): (r: seq<string>)
    requires i <= |hs|
    ensures 0 <= i < |hs| ==> |r| == |hs| && r[i] == v
    ensures 0 <= i < |hs| ==> forall j :: 0 <= j < |hs| && j != i ==> r[j] == hs[j]
    ensures i == |hs| ==> |r| == |hs| + 1 && r[..|hs|] == hs && r[|hs|] == v
    ensures i < 0 ==> r == hs
  {
    if 0 <= i < |hs| then hs[i := v]
    else if i == |hs| then hs + [v]
    else hs
  }

  /** `list.filter((_, j) => j !== i)` */
  function DropIndex(hs: seq<string>, i: int): (r: seq<string>)
    ensures 0 <= i < |hs| ==> r == hs[..i] + hs[i + 1..]
    ensures !(0 <= i < |hs|) ==> r == hs
  {
    if hs == [] then []
    else if i == 0 then DropIndex(hs[1..], i - 1)
    else [hs[0]] + DropIndex(hs[1..], i - 1)
  }

  /** Every entry with `expId` gets the highlights `hs`; nothing else changes. */
  function WithHighlights(exps: seq<Experience>, expId: string, hs: seq<string>): (r: seq<Experience>)
    ensures |r| == |exps|
    ensures forall k :: 0 <= k < |exps| ==>
              r[k] == if exps[k].id == expId then exps[k].(highlights := hs) else exps[k]
  {
    var r := ById.UpdateById(exps, expId, ResumeStore.ExperienceId, ResumeStore.MergeExperience, ResumeStore.HighlightsPatch(hs));
    assert forall k :: 0 <= k < |exps| && exps[k].id == expId ==>
             r[k] == ResumeStore.MergeExperience(exps[k], ResumeStore.HighlightsPatch(hs));
    r
  }

  /** The highlights of the first entry with `expId`, if any entry has it. */
  function HighlightsOf(exps: seq<Experience>, expId: string): Option<seq<string>>
  {
    match ById.FindById(exps, expId, ResumeStore.ExperienceId)
    case None => None
    case Some(e) => Some(e.highlights)
  }

  method HandleAddExperience(store: ResumeStore.Store, id: string)
    modifies store
    ensures store.resumeData == old(store.resumeData).(experience := old(store.resumeData.experience) + [BlankExperience(id)])
    ensures store.activeTemplate == old(store.activeTemplate)
  {
    store.AddExperience(BlankExperience(id));
  }

  method HandleUpdateHighlight(store: ResumeStore.Store, expId: string, i: int, value: string)
    requires HighlightsOf(store.resumeData.experience, expId).Some? ==>
               i <= |HighlightsOf(store.resumeData.experience, expId).value|
    modifies store
    ensures HighlightsOf(old(store.resumeData.experience), expId).None? ==> store.resumeData == old(store.resumeData)
    ensures HighlightsOf(old(store.resumeData.experience), expId).Some? ==>
              store.resumeData == old(store.resumeData).(experience :=
                WithHighlights(old(store.resumeData.experience), expId,
                               SetSlot(HighlightsOf(old(store.resumeData.experience), expId).value, i, value)))
    ensures store.activeTemplate == old(store.activeTemplate)
  {
    var exp := ById.FindById(store.resumeData.experience, expId, ResumeStore.ExperienceId);
    if exp.None? {
      return;
    }
    var newHighlights := exp.value.highlights;
    if 0 <= i < |newHighlights| {
      newHighlights := newHighlights[i := value];
    } else if i == |newHighlights| {
      newHighlights := newHighlights + [value];
    }
    store.UpdateExperience(expId, ResumeStore.HighlightsPatch(newHighlights));
  }

  method HandleAddHighlight(store: ResumeStore.Store, expId: string)
    modifies store
    ensures HighlightsOf(old(store.resumeData.experience), expId).None? ==> store.resumeData == old(store.resumeData)
    ensures HighlightsOf(old(store.resumeData.experience), expId).Some? ==>
              store.resumeData == old(store.resumeData).(experience :=
                WithHighlights(old(store.resumeData.experience), expId,
                               HighlightsOf(old(store.resumeData.experience), expId).value + [""]))
    ensures store.activeTemplate == old(store.activeTemplate)
  {
    var exp := ById.FindById(store.resumeData.experience, expId, ResumeStore.ExperienceId);
    if exp.None? {
      return;
    }
    store.UpdateExperience(expId, ResumeStore.HighlightsPatch(exp.value.highlights + [""]));
  }

  method HandleRemoveHighlight(store: ResumeStore.Store, expId: string, i: int)
    modifies store
    ensures HighlightsOf(old(store.resumeData.experience), expId).None? ==> store.resumeData == old(store.resumeData)
    ensures HighlightsOf(old(store.resumeData.experience), expId).Some? ==>
              store.resumeData == old(store.resumeData).(experience :=
                WithHighlights(old(store.resumeData.experience), expId,
                               DropIndex(HighlightsOf(old(store.resumeData.experience), expId).value, i)))
    ensures store.activeTemplate == old(store.activeTemplate)
  {
    var exp := ById.FindById(store.resumeData.experience, expId, ResumeStore.ExperienceId);
    if exp.None? {
      return;
    }
    store.UpdateExperience(expId, ResumeStore.HighlightsPatch(DropIndex(exp.value.highlights, i)));
  }

  /**
   * After a highlight edit, the first entry with `expId` sits where it was and
   * holds the edited list, so one more Add shows one more (empty) highlight.
   */
  lemma {:induction false} FirstEntryGetsEditedHighlights(exps: seq<Experience>, expId: string, hs: seq<string>)
    requires HighlightsOf(exps, expId).Some?
    ensures HighlightsOf(WithHighlights(exps, expId, hs), expId) == Some(hs)
  {
    var r := WithHighlights(exps, expId, hs);
    assert forall k :: 0 <= k < |exps| ==> ResumeStore.ExperienceId(r[k]) == ResumeStore.ExperienceId(exps[k]);
    ById.IndexOfIdSameIds(exps, r, expId, ResumeStore.ExperienceId);
  }

  /** On a one-entry list the handlers act on that entry. */
  lemma SingleEntry(e: Experience, hs: seq<string>)
    ensures HighlightsOf([e], e.id) == Some(e.highlights)
    ensures WithHighlights([e], e.id, hs) == [e.(highlights := hs)]
  {
    assert ById.IndexOfId([e], e.id, ResumeStore.ExperienceId) == Some(0);
  }
}
