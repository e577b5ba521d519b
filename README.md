# Study tracker domain layer, modelled in Dafny

This project models the in-memory logic of a single-file Flask study tracker
(`personal/app.py`). The tracker keeps one JSON document with four ordered
collections: subjects, study sessions, coding problems and projects. Each
request loads that document; each mutating request changes one collection
in place and writes the whole document back, and the read-only pages write
nothing. The model covers:

- the seed document and `init_data` (module `Records`);
- the three "append a record with id = current length + 1" handlers, the
  coding-problem completion toggle and the project status update. These are
  methods of the class `Handlers.Data`, whose fields are the four
  collections. Each method's `modifies` clause names only the one field it
  changes, so the other collections are untouched by construction;
- the read-only queries (module `Queries`): the `get_subject_name` lookup with
  its `"Unknown Subject"` fallback, the dashboard filters of the index page,
  and the two fixed three-bucket report counters.

The generic sequence operations behind these live in `Lists`:
- `Filter` for the list comprehensions;
- `FirstIndex` and `UpdateFirst` for the "scan, change the first match,
  `break`" loops;
- `Occurrences` and `CountIn` for the bucket counts.

`Scenarios` holds three request sequences on a freshly seeded document,
written as client code. They check that the contracts are strong enough to
derive the expected end states.

Modelling choices:
- The current date and the form fields are parameters.
- A form field read with `request.form.get(key, '')` is an `Option<string>`
  that defaults to `""`.
- `completed` is an `Option<bool>`; a missing flag reads as false.
- `status` and `difficulty` are plain strings.
- `duration` is a `real`.
- Record ids are `int`.
- The data file's content, as seen by `init_data`, is an
  `Option<Document>`; `None` means the file does not exist.

## Model

| member | source | states |
|---|---|---|
| Records.Seed | personal/app.py:20-38 | the default document has exactly 12 subjects with ids 1..12 (position + 1, hence distinct) and empty session, problem and project lists |
| Records.InitData | personal/app.py:18-39 | `init_data` keeps an existing document as it is and writes the seed document only when none exists |
| Records.InitDataIdempotent | personal/app.py:18-19 | a second `init_data` changes nothing |
| Records.Flip | personal/app.py:132 | a toggle negates the effective completion flag (missing reads as false), always writes an explicit flag and changes no other field |
| Lists.Filter | personal/app.py:68-70 | a comprehension keeps exactly the elements satisfying the condition, each as often as in the input, and nothing else |
| Lists.FilterIsSubsequence | personal/app.py:68-70 | a comprehension keeps the input order of the elements it keeps |
| Lists.FirstIndex | personal/app.py:59-61 | the search finds nothing exactly when no element has the id, and otherwise the first element that has it |
| Lists.UpdateFirst | personal/app.py:130-133 | the scan-and-break update changes only the first element with the id, keeps the length, and changes nothing when no element has the id |
| Lists.NumberedFirstIndex | personal/app.py:83 | in a collection whose ids are position + 1, the search for id k finds position k - 1 when 1 <= k <= length, and nothing otherwise |
| Lists.AppendNumbered | personal/app.py:83-90 | appending a record with id = length + 1 keeps ids equal to position + 1 |
| Lists.UpdateFirstNumbered | personal/app.py:130-133 | an update that keeps the record's id keeps ids equal to position + 1 |
| Lists.BucketTotal | personal/app.py:180-191 | three buckets with distinct keys together count exactly the records whose value is one of the keys |
| Lists.OccurrencesAppendOther | personal/app.py:183-184 | a record whose value differs from a key does not change that key's count |
| Queries.LookupName | personal/app.py:58-62 | the lookup returns the name of the first subject with the id, and the fallback when no subject has it |
| Queries.GetSubjectName | personal/app.py:57-62 | `get_subject_name` returns the first matching subject's name, and "Unknown Subject" when none matches |
| Queries.StudyTimeKey | personal/app.py:175-176 | the reports page groups a session under the first matching subject's name, and under "Unknown" when none matches |
| Queries.SeedSubjectNames | personal/app.py:58-62 | with the seed subjects, ids 1..12 resolve to the subject at position id - 1 and every other id to "Unknown Subject" |
| Queries.TodaySessions | personal/app.py:68 | `today_sessions` holds exactly the sessions whose date equals `today`, with their multiplicity, in their stored order |
| Queries.PendingProblems | personal/app.py:69 | `pending_problems` holds exactly the problems whose flag is false or missing, with their multiplicity, in their stored order |
| Queries.ActiveProjects | personal/app.py:70 | `active_projects` holds exactly the projects whose status is not "Completed", with their multiplicity, in their stored order |
| Queries.Tally | personal/app.py:180-191 | the counting loop yields one bucket per key, each equal to the number of records whose value is exactly that key |
| Queries.ProblemStats | personal/app.py:180-184 | `problem_stats` has exactly the buckets Easy, Medium and Hard with their exact-match counts; their total is the number of problems with a recognized difficulty, at most the number of problems |
| Queries.ProjectStats | personal/app.py:187-191 | `project_stats` has exactly the buckets Not Started, In Progress and Completed with their exact-match counts; their total is the number of projects with a recognized status, at most the number of projects |
| Queries.UnrecognizedDifficultyIgnored | personal/app.py:182-184 | a problem with a difficulty outside the three levels changes no bucket |
| Queries.UnrecognizedStatusIgnored | personal/app.py:189-191 | a project with a status outside the three values changes no bucket |
| Handlers.Toggled | personal/app.py:130-133 | toggling flips the flag of the first problem with the id only and leaves every other problem and the length unchanged |
| Handlers.StatusUpdated | personal/app.py:161-164 | the update overwrites the status of the first project with the id only; all other fields and projects and the length are unchanged |
| Handlers.ToggleMissingId | personal/app.py:130-133 | toggling an id no problem has leaves the problems unchanged |
| Handlers.UpdateMissingId | personal/app.py:161-164 | updating an id no project has leaves the projects unchanged |
| Handlers.ToggleTwice | personal/app.py:130-133 | toggling the same id twice restores every effective flag; every record whose flag was stored comes back exactly as it was |
| Handlers.NumberedToggle | personal/app.py:130-133 | in a collection whose ids are position + 1, toggling an existing id k flips exactly the problem at position k - 1 |
| Handlers.NumberedStatusUpdate | personal/app.py:161-164 | in a collection whose ids are position + 1, updating an existing id k sets the status of exactly the project at position k - 1 |
| Handlers.Data.Load | personal/app.py:41-44 | the loaded document holds the stored collections as they are |
| Handlers.Data.AddStudySession | personal/app.py:82-90 | appends exactly one session with id = previous count + 1 and notes defaulting to ""; earlier sessions are unchanged and in order; numbering is preserved |
| Handlers.Data.AddCodingProblem | personal/app.py:106-115 | appends exactly one problem with id = previous count + 1, `completed` false and solution link defaulting to ""; earlier problems are unchanged and in order; numbering is preserved |
| Handlers.Data.AddProject | personal/app.py:140-149 | appends exactly one project with id = previous count + 1, the given status, and description, start date, due date and notes defaulting to ""; earlier projects are unchanged and in order; numbering is preserved |
| Handlers.Data.ToggleProblemStatus | personal/app.py:129-134 | the scan-and-break loop leaves the problems equal to `Toggled` of the old ones; numbering is preserved |
| Handlers.Data.UpdateProjectStatus | personal/app.py:160-165 | the scan-and-break loop leaves the projects equal to `StatusUpdated` of the old ones; numbering is preserved |

## Left out

- Flask routing, templates, redirects and the `inject_profile` context processor: these are presentation plumbing.
- `load_data` and `save_data`: JSON file I/O. A missing file is seeded by `init_data` and read again, which `Records.InitData` covers. A file that exists but does not parse is not re-seeded, because `init_data` writes only when no file exists (personal/app.py:19); `load_data` then calls itself until Python's recursion limit aborts the request, and nothing is written. That failure path is not modelled. `Handlers.Data.Load` and `Handlers.Data.Saved` stand for the document as it is read and written.
- `date.today().isoformat()`: `today` is a parameter of `Queries.TodaySessions`.
- `int(...)` and `float(...)` on form fields: the parsed values are parameters, and the conversion failure path is not modelled.
- A missing required form field (`request.form['date']`, `['status']` and the like) aborts the request with a 400 before anything is appended or saved; the handlers take every required field as a parameter, so that path is not modelled. In `update_project_status` the field is read only inside the matching branch (personal/app.py:163), so there it aborts only when some project has the id.
- `duration` is a `real`: IEEE rounding is not modelled.
- The per-subject float summation of `study_time` is floating-point accumulation and is not modelled. Only its grouping key is modelled (`Queries.StudyTimeKey`). Two ids that resolve to the same name, or two unresolved ids, share one key.
- Lost updates between concurrent requests: the source has no locking, and the model has one request at a time.
- Stored records that lack `status` or `difficulty`: every record the handlers create has both fields. For such records, a missing status would count as active on the dashboard and in no report bucket.
- A non-boolean `completed` value in a hand-edited file, which Python would judge by truthiness, is not modelled.
- Handlers.ToggleTwice: two toggles restore the effective flag only. A record stored without the flag comes back with an explicit `false`, which is what personal/app.py:132 writes.
