/**
 * The read-only side of the tracker: the subject-name lookup, the three
 * dashboard filters of the index page and the two report counters.
 */
module Queries {
  import opened Wrappers
  import opened Records
  import opened Lists

  /** The name of the first subject whose id is `id`, or `fallback` when none has it. */
  function LookupName(subjects: seq<Subject>, id: int, fallback: string): (name: string)
    ensures (forall i :: 0 <= i < |subjects| ==> subjects[i].id != id) ==> name == fallback
    ensures forall i :: IsFirstMatch(subjects, SubjectId, id, i) ==> name == subjects[i].name
  {
    match FirstIndex(subjects, SubjectId, id)
    case None => fallback
    case Some(i) =>
      forall j | IsFirstMatch(subjects, SubjectId, id, j) ensures j == i {
        FirstMatchUnique(subjects, SubjectId, id, i, j);
      }
      subjects[i].name
  }

  /** The `get_subject_name` template filter. */
  function GetSubjectName(subjectId: int, subjects: seq<Subject>): (name: string)
    ensures (forall i :: 0 <= i < |subjects| ==> subjects[i].id != subjectId) ==>
      name == "Unknown Subject"
    ensures forall i :: IsFirstMatch(subjects, SubjectId, subjectId, i) ==>
      name == subjects[i].name
  {
    LookupName(subjects, subjectId, "Unknown Subject")
  }

  /** The key a session's duration is summed under on the reports page. */
  function StudyTimeKey(session: StudySession, subjects: seq<Subject>): (key: string)
    ensures (forall i :: 0 <= i < |subjects| ==> subjects[i].id != session.subjectId) ==>
      key == "Unknown"
    ensures forall i :: IsFirstMatch(subjects, SubjectId, session.subjectId, i) ==>
      key == subjects[i].name
  {
    LookupName(subjects, session.subjectId, "Unknown")
  }

  /** With the seed subjects, ids 1 to 12 name their subject and every other id is unknown. */
  lemma SeedSubjectNames(subjectId: int)
    ensures 1 <= subjectId <= 12 ==>
      GetSubjectName(subjectId, Seed().subjects) == Seed().subjects[subjectId - 1].name
    ensures !(1 <= subjectId <= 12) ==>
      GetSubjectName(subjectId, Seed().subjects) == "Unknown Subject"
  {
    NumberedFirstIndex(Seed().subjects, SubjectId, subjectId);
  }

  predicate OnDate(today: string, s: StudySession) { s.date == today }
  predicate Pending(p: CodingProblem) { !IsCompleted(p) }
  predicate Active(p: Project) { p.status != "Completed" }

  /** `today_sessions`: the sessions dated exactly `today`, in order. */
  function TodaySessions(sessions: seq<StudySession>, today: string): (r: seq<StudySession>)
    ensures forall i :: 0 <= i < |r| ==> r[i].date == today
    ensures forall s :: multiset(r)[s] == if s.date == today then multiset(sessions)[s] else 0
    ensures Subsequence(r, sessions)
  {
    FilterIsSubsequence(sessions, s => OnDate(today, s));
    Filter(sessions, s => OnDate(today, s))
  }

  /** `pending_problems`: the problems not marked completed (missing flag included), in order. */
  function PendingProblems(problems: seq<CodingProblem>): (r: seq<CodingProblem>)
    ensures forall i :: 0 <= i < |r| ==> !IsCompleted(r[i])
    ensures forall p :: multiset(r)[p] == if !IsCompleted(p) then multiset(problems)[p] else 0
    ensures Subsequence(r, problems)
  {
    FilterIsSubsequence(problems, Pending);
    Filter(problems, Pending)
  }

  /** `active_projects`: the projects whose status is anything but "Completed", in order. */
  function ActiveProjects(projects: seq<Project>): (r: seq<Project>)
    ensures forall i :: 0 <= i < |r| ==> r[i].status != "Completed"
    ensures forall p :: multiset(r)[p] == if p.status != "Completed" then multiset(projects)[p] else 0
    ensures Subsequence(r, projects)
  {
    FilterIsSubsequence(projects, Active);
    Filter(projects, Active)
  }

  /**
   * A report counter: one bucket per key, each counting the records whose
   * `field` equals the key exactly; other values are skipped.
   */
  method Tally<T>(records: seq<T>, field: T -> string, keys: set<string>)
    returns (stats: map<string, nat>)
    ensures stats.Keys == keys
    ensures forall k :: k in keys ==> stats[k] == Occurrences(records, field, k)
  {
    stats := map k | k in keys :: 0;
    for i := 0 to |records|
      invariant stats.Keys == keys
      invariant forall k :: k in keys ==> stats[k] == Occurrences(records[..i], field, k)
    {
      var value := field(records[i]);
      assert records[..i + 1][..i] == records[..i];
      if value in stats {
        stats := stats[value := stats[value] + 1];
      }
    }
    assert records[..|records|] == records;
  }

  const DifficultyLevels: set<string> := {"Easy", "Medium", "Hard"}
  const ProjectStatuses: set<string> := {"Not Started", "In Progress", "Completed"}

  /** `problem_stats` on the reports page. */
  method ProblemStats(problems: seq<CodingProblem>) returns (stats: map<string, nat>)
    ensures stats.Keys == DifficultyLevels
    ensures forall k :: k in stats ==> stats[k] == Occurrences(problems, Difficulty, k)
    ensures stats["Easy"] + stats["Medium"] + stats["Hard"]
         == CountIn(problems, Difficulty, DifficultyLevels) <= |problems|
  {
    stats := Tally(problems, Difficulty, DifficultyLevels);
    BucketTotal(problems, Difficulty, "Easy", "Medium", "Hard");
  }

  /** `project_stats` on the reports page. */
  method ProjectStats(projects: seq<Project>) returns (stats: map<string, nat>)
    ensures stats.Keys == ProjectStatuses
    ensures forall k :: k in stats ==> stats[k] == Occurrences(projects, Status, k)
    ensures stats["Not Started"] + stats["In Progress"] + stats["Completed"]
         == CountIn(projects, Status, ProjectStatuses) <= |projects|
  {
    stats := Tally(projects, Status, ProjectStatuses);
    BucketTotal(projects, Status, "Not Started", "In Progress", "Completed");
  }

  /** A problem whose difficulty is outside the three levels changes no bucket. */
  lemma UnrecognizedDifficultyIgnored(problems: seq<CodingProblem>, p: CodingProblem)
    requires p.difficulty !in DifficultyLevels
    ensures forall k :: k in DifficultyLevels ==>
      Occurrences(problems + [p], Difficulty, k) == Occurrences(problems, Difficulty, k)
  {
    forall k | k in DifficultyLevels {
      OccurrencesAppendOther(problems, p, Difficulty, k);
    }
  }

  /** A project whose status is outside the three recognized values changes no bucket. */
  lemma UnrecognizedStatusIgnored(projects: seq<Project>, p: Project)
    requires p.status !in ProjectStatuses
    ensures forall k :: k in ProjectStatuses ==>
      Occurrences(projects + [p], Status, k) == Occurrences(projects, Status, k)
  {
    forall k | k in ProjectStatuses {
      OccurrencesAppendOther(projects, p, Status, k);
    }
  }
}
