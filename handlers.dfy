/**
 * The mutating request handlers. Each one loads the document, changes one
 * collection in place and saves the whole document again; `Data` is the
 * loaded document and its methods are the in-place changes.
 */
module Handlers {
  import opened Wrappers
  import opened Records
  import opened Lists

  /** `toggle_problem_status` on a list of problems. */
  function Toggled(problems: seq<CodingProblem>, problemId: int): (r: seq<CodingProblem>)
    ensures |r| == |problems|
    ensures forall i :: 0 <= i < |problems| ==>
      r[i] == if IsFirstMatch(problems, ProblemId, problemId, i) then Flip(problems[i]) else problems[i]
  {
    UpdateFirst(problems, ProblemId, problemId, Flip)
  }

  function SetStatus(status: string): Project -> Project {
    (p: Project) => p.(status := status)
  }

  /** `update_project_status` on a list of projects. */
  function StatusUpdated(projects: seq<Project>, projectId: int, status: string): (r: seq<Project>)
    ensures |r| == |projects|
    ensures forall i :: 0 <= i < |projects| ==>
      r[i] == if IsFirstMatch(projects, ProjectId, projectId, i)
              then projects[i].(status := status) else projects[i]
  {
    UpdateFirst(projects, ProjectId, projectId, SetStatus(status))
  }

  /** Toggling an id no problem has changes nothing. */
  lemma ToggleMissingId(problems: seq<CodingProblem>, problemId: int)
    requires forall i :: 0 <= i < |problems| ==> problems[i].id != problemId
    ensures Toggled(problems, problemId) == problems
  {
  }

  /** Updating an id no project has changes nothing. */
  lemma UpdateMissingId(projects: seq<Project>, projectId: int, status: string)
    requires forall i :: 0 <= i < |projects| ==> projects[i].id != projectId
    ensures StatusUpdated(projects, projectId, status) == projects
  {
  }

  /**
   * Toggling the same id twice restores every completion flag. A record whose
   * flag was missing comes back with an explicit `false`; every other record
   * comes back exactly as it was.
   */
  lemma ToggleTwice(problems: seq<CodingProblem>, problemId: int)
    ensures var twice := Toggled(Toggled(problems, problemId), problemId);
      && |twice| == |problems|
      && (forall i :: 0 <= i < |problems| ==> IsCompleted(twice[i]) == IsCompleted(problems[i]))
      && (forall i :: 0 <= i < |problems| ==>
            twice[i] == if IsFirstMatch(problems, ProblemId, problemId, i)
                        then problems[i].(completed := Some(IsCompleted(problems[i])))
                        else problems[i])
      && ((forall i :: 0 <= i < |problems| ==> problems[i].completed.Some?) ==> twice == problems)
  {
    var once := Toggled(problems, problemId);
    var twice := Toggled(once, problemId);
    forall i | 0 <= i < |problems|
      ensures IsFirstMatch(once, ProblemId, problemId, i) == IsFirstMatch(problems, ProblemId, problemId, i)
    {
      assert forall j :: 0 <= j < |problems| ==> once[j].id == problems[j].id;
    }
  }

  /** In a numbered list, toggling an existing id flips the problem at position id - 1. */
  lemma NumberedToggle(problems: seq<CodingProblem>, problemId: int)
    requires Numbered(problems, ProblemId) && 1 <= problemId <= |problems|
    ensures Toggled(problems, problemId) == problems[problemId - 1 := Flip(problems[problemId - 1])]
  {
    NumberedFirstIndex(problems, ProblemId, problemId);
  }

  /** In a numbered list, updating an existing id sets the status of the project at position id - 1. */
  lemma NumberedStatusUpdate(projects: seq<Project>, projectId: int, status: string)
    requires Numbered(projects, ProjectId) && 1 <= projectId <= |projects|
    ensures StatusUpdated(projects, projectId, status)
         == projects[projectId - 1 := projects[projectId - 1].(status := status)]
  {
    NumberedFirstIndex(projects, ProjectId, projectId);
  }

  /** The document as loaded by one request: four collections updated in place. */
  class Data {
    var subjects: seq<Subject>
    var sessions: seq<StudySession>
    var problems: seq<CodingProblem>
    var projects: seq<Project>

    /** `load_data`: the document read from the data file. */
    constructor Load(d: Document)
      ensures Saved() == d
    {
      subjects := d.subjects;
      sessions := d.studySessions;
      problems := d.codingProblems;
      projects := d.projects;
    }

    /** What `save_data` writes. */
    function Saved(): Document
      reads this
    {
      Document(subjects, sessions, problems, projects)
    }

    /** Every collection's ids are position + 1. */
    ghost predicate Valid()
      reads this
    {
      WellNumbered(Saved())
    }

    /** `add_study_session`: append a session numbered one past the current count. */
    method AddStudySession(subjectId: int, date: string, duration: real, topics: string,
                           notes: Option<string>)
      modifies this`sessions
      ensures sessions == old(sessions) + [NewSession(|old(sessions)| + 1, subjectId, date, duration, topics, notes)]
      ensures sessions[|old(sessions)|].id == |old(sessions)| + 1
      ensures sessions[|old(sessions)|].notes == notes.GetOr("")
      ensures old(Valid()) ==> Valid()
    {
      var s := NewSession(|sessions| + 1, subjectId, date, duration, topics, notes);
      if Valid() {
        AppendNumbered(sessions, s, SessionId);
      }
      sessions := sessions + [s];
    }

    /** `add_coding_problem`: append a problem, not completed, numbered one past the current count. */
    method AddCodingProblem(date: string, platform: string, problem: string, difficulty: string,
                            solutionLink: Option<string>)
      modifies this`problems
      ensures problems == old(problems) + [NewProblem(|old(problems)| + 1, date, platform, problem, difficulty, solutionLink)]
      ensures problems[|old(problems)|].id == |old(problems)| + 1
      ensures problems[|old(problems)|].completed == Some(false)
      ensures problems[|old(problems)|].solutionLink == solutionLink.GetOr("")
      ensures old(Valid()) ==> Valid()
    {
      var p := NewProblem(|problems| + 1, date, platform, problem, difficulty, solutionLink);
      if Valid() {
        AppendNumbered(problems, p, ProblemId);
      }
      problems := problems + [p];
    }

    /** `add_project`: append a project numbered one past the current count. */
    method AddProject(name: string, description: Option<string>, status: string,
                      startDate: Option<string>, dueDate: Option<string>, notes: Option<string>)
      modifies this`projects
      ensures projects == old(projects) + [NewProject(|old(projects)| + 1, name, description, status, startDate, dueDate, notes)]
      ensures projects[|old(projects)|].id == |old(projects)| + 1
      ensures projects[|old(projects)|].status == status
      ensures var p := projects[|old(projects)|];
        p.description == description.GetOr("") && p.startDate == startDate.GetOr("")
        && p.dueDate == dueDate.GetOr("") && p.notes == notes.GetOr("")
      ensures old(Valid()) ==> Valid()
    {
      var p := NewProject(|projects| + 1, name, description, status, startDate, dueDate, notes);
      if Valid() {
        AppendNumbered(projects, p, ProjectId);
      }
      projects := projects + [p];
    }

    /** `toggle_problem_status`: flip the flag of the first problem with this id, if any. */
    method ToggleProblemStatus(problemId: int)
      modifies this`problems
      ensures problems == Toggled(old(problems), problemId)
      ensures old(Valid()) ==> Valid()
    {
      if Valid() {
        UpdateFirstNumbered(problems, ProblemId, problemId, Flip);
      }
      var i := 0;
      while i < |problems|
        invariant 0 <= i <= |problems|
        invariant problems == old(problems)
        invariant forall j :: 0 <= j < i ==> problems[j].id != problemId
      {
        if problems[i].id == problemId {
          assert IsFirstMatch(problems, ProblemId, problemId, i);
          problems := problems[i := Flip(problems[i])];
          break;
        }
        i := i + 1;
      }
    }

    /** `update_project_status`: overwrite the status of the first project with this id, if any. */
    method UpdateProjectStatus(projectId: int, status: string)
      modifies this`projects
      ensures projects == StatusUpdated(old(projects), projectId, status)
      ensures old(Valid()) ==> Valid()
    {
      if Valid() {
        UpdateFirstNumbered(projects, ProjectId, projectId, SetStatus(status));
      }
      var i := 0;
      while i < |projects|
        invariant 0 <= i <= |projects|
        invariant projects == old(projects)
        invariant forall j :: 0 <= j < i ==> projects[j].id != projectId
      {
        if projects[i].id == projectId {
          assert IsFirstMatch(projects, ProjectId, projectId, i);
          projects := projects[i := projects[i].(status := status)];
          break;
        }
        i := i + 1;
      }
    }
  }
}
