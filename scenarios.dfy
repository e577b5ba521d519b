/**
 * Request sequences on a freshly seeded document, written as client code:
 * each assertion follows from the handlers' and queries' contracts alone.
 */
module Scenarios {
  import opened Wrappers
  import opened Records
  import opened Lists
  import opened Queries
  import opened Handlers

  /** One study session on a new document gets id 1 and shows up on its own day only. */
  method SessionScenario() {
    var data := new Data.Load(InitData(None));
    data.AddStudySession(3, "2024-01-01", 1.5, "trees", None);
    assert |data.sessions| == 1;
    var s := data.sessions[0];
    assert s.id == 1 && s.subjectId == 3 && s.duration == 1.5 && s.notes == "";
    assert |data.subjects| == 12 && data.problems == [] && data.projects == [];
    SeedSubjectNames(3);
    assert GetSubjectName(s.subjectId, data.subjects) == "Data Structure";
    var today := TodaySessions(data.sessions, "2024-01-01");
    assert multiset(today)[s] == 1;
    var tomorrow := TodaySessions(data.sessions, "2024-01-02");
    assert multiset(tomorrow)[s] == 0;
  }

  /** Two new problems, the first toggled twice: both present and both still pending. */
  method ToggleScenario() {
    var data := new Data.Load(InitData(None));
    data.AddCodingProblem("2024-01-01", "LeetCode", "Two Sum", "Easy", None);
    data.AddCodingProblem("2024-01-01", "LeetCode", "LRU Cache", "Medium", None);
    var before := data.problems;
    assert before[0].id == 1 && before[1].id == 2;
    data.ToggleProblemStatus(1);
    assert IsCompleted(data.problems[0]) && !IsCompleted(data.problems[1]);
    data.ToggleProblemStatus(1);
    ToggleTwice(before, 1);
    assert data.problems == before;
    assert !IsCompleted(data.problems[0]) && !IsCompleted(data.problems[1]);
    data.ToggleProblemStatus(7);
    ToggleMissingId(before, 7);
    assert data.problems == before;
  }

  /** A project moved from "Not Started" to "In Progress" is counted in the middle bucket. */
  method ProjectScenario() {
    var data := new Data.Load(InitData(None));
    data.AddProject("Tracker", None, "Not Started", None, None, None);
    data.UpdateProjectStatus(1, "In Progress");
    assert data.projects[0].status == "In Progress";
    var stats := ProjectStats(data.projects);
    assert data.projects == [] + [data.projects[0]];
    OccurrencesAppendOther([], data.projects[0], Status, "Not Started");
    OccurrencesAppendOther([], data.projects[0], Status, "Completed");
    assert stats["Not Started"] == 0 && stats["Completed"] == 0;
    assert stats["In Progress"] == 1;
  }
}
