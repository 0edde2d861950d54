/**
 * The builder flow across stores: create a resume, load it into the editor,
 * add an experience with two highlights, save it back, then duplicate it.
 */
module Scenario {
  import opened Wrappers
  import opened Schema
  import ById
  import ResumeStore
  import DashboardStore
  import ExperienceEditor

  method CreateEditDuplicate(now: string) returns (original: DashboardStore.SavedResume, copy: DashboardStore.SavedResume)
    ensures copy.id != original.id
    ensures original.name == "Backend Dev" && copy.name == "Backend Dev (Copy)"
    ensures copy.data == original.data
    ensures |copy.data.experience| == 1 && copy.data.experience[0].highlights == ["Built APIs", "Cut latency"]
  {
    var dashboard := new DashboardStore.Store();
    var id := dashboard.CreateResume("Backend Dev", "resume-1", now);

    var editor := new ResumeStore.Store(DashboardStore.EmptyResume());
    editor.SetResumeData(dashboard.resumes[0].data);
    WriteOneExperience(editor);
    SaveAndDuplicate(dashboard, id, editor.resumeData, now);
    original, copy := dashboard.resumes[0], dashboard.resumes[1];
  }

  /** Saving edited data into the only record and duplicating it leaves the record and its copy side by side. */
  method SaveAndDuplicate(dashboard: DashboardStore.Store, id: string, edited: ResumeData, now: string)
    requires dashboard.resumes == [DashboardStore.SavedResume(id, "Backend Dev", DashboardStore.EmptyResume(), now, now)]
    requires id != "resume-2"
    modifies dashboard
    ensures dashboard.resumes == [DashboardStore.SavedResume(id, "Backend Dev", edited, now, now),
                                  DashboardStore.SavedResume("resume-2", "Backend Dev (Copy)", edited, now, now)]
  {
    dashboard.UpdateResume(id, edited, now);
    assert dashboard.resumes == [DashboardStore.SavedResume(id, "Backend Dev", edited, now, now)] by {
      DashboardStore.UpdateKeepsIdentity([DashboardStore.SavedResume(id, "Backend Dev", DashboardStore.EmptyResume(), now, now)],
                                         id, DashboardStore.DataPatch(edited, now));
    }
    assert ById.HasId(dashboard.resumes, id, DashboardStore.ResumeId) by {
      assert DashboardStore.ResumeId(dashboard.resumes[0]) == id;
    }
    ghost var saved := dashboard.resumes;
    assert ById.FindById(saved, id, DashboardStore.ResumeId).value == saved[0];
    assert "Backend Dev" + DashboardStore.CopySuffix == "Backend Dev (Copy)";
    var copyId := dashboard.DuplicateResume(id, "resume-2", now);
  }

  /** The editor steps: add an entry, add two highlights, fill them in. */
  method WriteOneExperience(editor: ResumeStore.Store)
    requires editor.resumeData.experience == []
    modifies editor
    ensures editor.resumeData.experience
            == [ExperienceEditor.BlankExperience("exp-1").(highlights := ["Built APIs", "Cut latency"])]
  {
    AddEntryWithTwoHighlights(editor);
    FillTwoHighlights(editor);
  }

  method AddEntryWithTwoHighlights(editor: ResumeStore.Store)
    requires editor.resumeData.experience == []
    modifies editor
    ensures editor.resumeData.experience == [ExperienceEditor.BlankExperience("exp-1").(highlights := ["", ""])]
  {
    ExperienceEditor.HandleAddExperience(editor, "exp-1");
    var blank := ExperienceEditor.BlankExperience("exp-1");
    assert editor.resumeData.experience == [blank];

    ExperienceEditor.SingleEntry(blank, [""]);
    assert blank.highlights + [""] == [""];
    ExperienceEditor.HandleAddHighlight(editor, "exp-1");
    assert editor.resumeData.experience == [blank.(highlights := [""])];

    ExperienceEditor.SingleEntry(blank.(highlights := [""]), ["", ""]);
    assert [""] + [""] == ["", ""];
    ExperienceEditor.HandleAddHighlight(editor, "exp-1");
  }

  method FillTwoHighlights(editor: ResumeStore.Store)
    requires editor.resumeData.experience == [ExperienceEditor.BlankExperience("exp-1").(highlights := ["", ""])]
    modifies editor
    ensures editor.resumeData.experience
            == [ExperienceEditor.BlankExperience("exp-1").(highlights := ["Built APIs", "Cut latency"])]
  {
    var blank := ExperienceEditor.BlankExperience("exp-1");
    ExperienceEditor.SingleEntry(blank.(highlights := ["", ""]), ["Built APIs", ""]);
    assert ExperienceEditor.SetSlot(["", ""], 0, "Built APIs") == ["Built APIs", ""];
    ExperienceEditor.HandleUpdateHighlight(editor, "exp-1", 0, "Built APIs");
    assert editor.resumeData.experience == [blank.(highlights := ["Built APIs", ""])];

    ExperienceEditor.SingleEntry(blank.(highlights := ["Built APIs", ""]), ["Built APIs", "Cut latency"]);
    assert ExperienceEditor.SetSlot(["Built APIs", ""], 1, "Cut latency") == ["Built APIs", "Cut latency"];
    ExperienceEditor.HandleUpdateHighlight(editor, "exp-1", 1, "Cut latency");
  }
}
