/**
 * The records of the tracker's JSON document, the document itself, the seed
 * document written on first run and `init_data`.
 */
module Records {
  import opened Wrappers
  import opened Lists

  /** One entry of the fixed subject list. */
  datatype Subject = Subject(id: int, name: string)

  /** A study session; `duration` is the float parsed from the form. */
  datatype StudySession = StudySession(
    id: int, subjectId: int, date: string, duration: real, topics: string, notes: string)

  /** A coding-practice problem; `completed` may be missing from a stored record. */
  datatype CodingProblem = CodingProblem(
    id: int, date: string, platform: string, problem: string, difficulty: string,
    solutionLink: string, completed: Option<bool>)

  /** A project with a free-form status string. */
  datatype Project = Project(
    id: int, name: string, description: string, status: string,
    startDate: string, dueDate: string, notes: string)

  /** The whole persisted document: four ordered collections. */
  datatype Document = Document(
    subjects: seq<Subject>, studySessions: seq<StudySession>,
    codingProblems: seq<CodingProblem>, projects: seq<Project>)

  // Field selectors passed to the generic list operations.
  function SubjectId(s: Subject): int { s.id }
  function SessionId(s: StudySession): int { s.id }
  function ProblemId(p: CodingProblem): int { p.id }
  function ProjectId(p: Project): int { p.id }
  function Difficulty(p: CodingProblem): string { p.difficulty }
  function Status(p: Project): string { p.status }

  /** `p.get('completed', False)`: a missing flag reads as false. */
  predicate IsCompleted(p: CodingProblem) {
    p.completed.GetOr(false)
  }

  /** The record after `problem['completed'] = not problem.get('completed', False)`. */
  function Flip(p: CodingProblem): (q: CodingProblem)
    ensures IsCompleted(q) == !IsCompleted(p) && q.completed.Some?
    ensures q.(completed := p.completed) == p
  {
    p.(completed := Some(!IsCompleted(p)))
  }

  /** The record built by `add_study_session`; a missing `notes` field becomes "". */
  function NewSession(id: int, subjectId: int, date: string, duration: real, topics: string,
                      notes: Option<string>): StudySession
  {
    StudySession(id, subjectId, date, duration, topics, notes.GetOr(""))
  }

  /** The record built by `add_coding_problem`: never completed, missing link becomes "". */
  function NewProblem(id: int, date: string, platform: string, problem: string,
                      difficulty: string, solutionLink: Option<string>): CodingProblem
  {
    CodingProblem(id, date, platform, problem, difficulty, solutionLink.GetOr(""), Some(false))
  }

  /** The record built by `add_project`; every optional field defaults to "". */
  function NewProject(id: int, name: string, description: Option<string>, status: string,
                      startDate: Option<string>, dueDate: Option<string>,
                      notes: Option<string>): Project
  {
    Project(id, name, description.GetOr(""), status, startDate.GetOr(""), dueDate.GetOr(""),
            notes.GetOr(""))
  }

  /** Every collection of `d` is numbered. */
  ghost predicate WellNumbered(d: Document) {
    && Numbered(d.subjects, SubjectId)
    && Numbered(d.studySessions, SessionId)
    && Numbered(d.codingProblems, ProblemId)
    && Numbered(d.projects, ProjectId)
  }

  /** The default document written when no data file exists. */
  function Seed(): (d: Document)
    ensures |d.subjects| == 12 && Numbered(d.subjects, SubjectId)
    ensures d.studySessions == [] && d.codingProblems == [] && d.projects == []
    ensures WellNumbered(d)
  {
    Document(
      [ Subject(1, "Software Engineering"),
        Subject(2, "Mobile Applications"),
        Subject(3, "Data Structure"),
        Subject(4, "Mathematics"),
        Subject(5, "Information Security"),
        Subject(6, "Frontend Development"),
        Subject(7, "Basic Indian Language"),
        Subject(8, "Information Security lab"),
        Subject(9, "Frontend Development lab"),
        Subject(10, "Mobile Applications lab"),
        Subject(11, "Data Structure lab"),
        Subject(12, "Integral Yoga") ],
      [], [], [])
  }

  /**
   * `init_data`: the stored document after the call. `stored` is the data
   * file's content, `None` when the file does not exist.
   */
  function InitData(stored: Option<Document>): (d: Document)
    ensures stored.Some? ==> d == stored.value
    ensures stored.None? ==> d == Seed() && |d.subjects| == 12
  {
    match stored
    case Some(existing) => existing
    case None => Seed()
  }

  /** Running `init_data` on the file it has just written changes nothing. */
  lemma InitDataIdempotent(stored: Option<Document>)
    ensures InitData(Some(InitData(stored))) == InitData(stored)
  {
  }
}
