# Resume matcher: the analysis workspace and its login gate

This project is a Dafny model of the browser client of a resume screening
dashboard. It covers three parts.

- **The analysis workspace** (module `ResumeATS`, class `ResumeATS.Workspace`).
  It holds five job-criteria fields (skills, experience, education, tools,
  description). It holds a batch of selected resume files, which each pick
  replaces. It has an upload status: `Idle` (the initial empty string),
  `Analyzing`, `Complete` or `Error`. It holds the ranked results the scoring
  service returned and a map from result index to "detail panel open".
- **The login form** (module `Login`). A credentials record is edited field by
  field. Pressing the button checks it against one hard-coded account. On a
  match the form's callback is invoked; otherwise an alert is raised.
- **The application root** (module `App`). One `isAuthenticated` flag decides
  whether the login form or the workspace is rendered. The form's callback sets
  the flag, and nothing clears it.

The asynchronous upload handler is split in two. `BeginUpload` is the
synchronous part: it refuses an empty batch, builds the multipart body and
sets the status to `Analyzing`. The two completions are `CompleteSuccess(body)`
and `CompleteFailure()`. A ghost counter `inFlight` stands for the requests
whose completion has not yet run, so a completion can only follow a dispatch.
Completions may arrive in any order. As in the source, nothing prevents a
second dispatch while one is in flight.

The service's ranking sort is `Array.prototype.sort` with comparator
`b.match_percentage - a.match_percentage`. Since ECMAScript 2019 (section
23.1.3.30 of ECMA-262, 2023 edition) that sort must be stable. The model's
`Rank` is a stable insertion sort. Its results are proved sorted by descending
score and a permutation of the input. They are also proved to keep the
service's order among equal scores: for every score `k`, the results with
score `k` appear in the same order as in the input (`WithScore`).
`RankIsTheStableSort` proves that only one sequence has all these properties.
So every sort the platform may run yields `Rank`'s order, whatever algorithm
it uses.

Modules: `Wrappers` (an `Option` type), `ResumeATS`, `Login`, `App`, and
`Scenarios`. `Scenarios` drives the components through concrete runs
(two resumes scored 72 and 95, a failed re-analysis, an empty batch, a double
submit, a wrong and a right password). Those runs are proved from the
components' contracts alone.

## Model

| member | source | states |
|---|---|---|
| `ResumeATS.StatusMessage` | ResumeATS.jsx:147-149 | the status line's text is empty exactly when the status is Idle, so the line is hidden exactly while the status is Idle |
| `ResumeATS.JobFields.With` | ResumeATS.jsx:25-27 | editing a criterion sets that field to the given value, an empty string included, and leaves the other four unchanged |
| `ResumeATS.JobFields.Entries` | ResumeATS.jsx:13-19 | the criteria record yields exactly five (key, value) pairs, in the declared key order, each key paired with its field's current value |
| `ResumeATS.FileParts` | ResumeATS.jsx:36 | one file part per selected file, at the same position as the file in the batch |
| `ResumeATS.BuildPayload` | ResumeATS.jsx:35-37 | the handler's two append loops produce the files' parts in selection order followed by the five criteria parts |
| `ResumeATS.PayloadParts` | ResumeATS.jsx:35-37 | in the body, the parts named "resumes" are exactly the selected files in order, and each criterion's key names exactly one part, which carries its value |
| `ResumeATS.Insert` | ResumeATS.jsx:45 | inserting one result adds exactly that element, one length more, a permutation |
| `ResumeATS.InsertSorted` | ResumeATS.jsx:45 | inserting into a descending sequence keeps it descending by match percentage |
| `ResumeATS.InsertGroups` | ResumeATS.jsx:45 | the inserted result comes first among those with its score; no other result moves relative to its equal-score peers |
| `ResumeATS.Rank` | ResumeATS.jsx:45 | the ranked response has the service's length, is non-increasing by match percentage and is a permutation of the service's data |
| `ResumeATS.RankGroups` | ResumeATS.jsx:45 | stability: for every score, the results with that score keep the order in which the service returned them |
| `ResumeATS.SortedGroupsDetermine` | ResumeATS.jsx:45 | two descending sequences that agree score by score on the order of their results are equal |
| `ResumeATS.RankIsTheStableSort` | ResumeATS.jsx:45 | any descending arrangement that keeps the service's order among ties is exactly Rank's output |
| `ResumeATS.Toggled` | ResumeATS.jsx:60-62 | flipping entry i negates whether panel i is open; a missing entry reads as closed and so becomes open; every other entry is unchanged and no other key appears |
| `ResumeATS.ToggleTwice` | ResumeATS.jsx:60-62 | flipping an existing entry twice restores the map |
| `ResumeATS.BuildVisibility` | ResumeATS.jsx:49-52 | the rebuilt map has exactly the keys 0 to N-1 for N results, every one closed |
| `ResumeATS.Label` | ResumeATS.jsx:65 | a name of at most 15 characters is kept; a longer one becomes its first 15 characters followed by "...", 18 characters in all |
| `ResumeATS.LabelIdempotent` | ResumeATS.jsx:65 | labelling a label changes nothing |
| `ResumeATS.ChartData` | ResumeATS.jsx:64-67 | one bar per result in the results' order, named by the result's label and valued by its match percentage; bars of a ranked response descend |
| `ResumeATS.MissingSkillsShown` | ResumeATS.jsx:207 | the skills listed are the service's list when it sent an array, and empty otherwise |
| `ResumeATS.CardOf` | ResumeATS.jsx:179-212 | a card shows the file name and score; its button reads "Hide Details" exactly when the panel is open; the panel's summary and missing-skills list appear exactly then |
| `ResumeATS.ToggleChangesOneCard` | ResumeATS.jsx:186-202 | flipping panel i leaves the card at every other index as it was |
| `ResumeATS.Workspace.constructor` | ResumeATS.jsx:8-19 | no files, Idle, no results, an empty visibility map, five empty criteria |
| `ResumeATS.Workspace.HandleFileChange` | ResumeATS.jsx:21-23 | the batch becomes exactly the picked files, in order; earlier picks are not kept; nothing else changes |
| `ResumeATS.Workspace.HandleChange` | ResumeATS.jsx:25-27 | only the named criterion changes |
| `ResumeATS.Workspace.BeginUpload` | ResumeATS.jsx:29-40 | an empty batch is refused and nothing changes, with no request; otherwise the request carries exactly the batch and the criteria, the status becomes Analyzing and one more request is in flight, even if one already is |
| `ResumeATS.Workspace.CompleteSuccess` | ResumeATS.jsx:41-57 | an array body becomes the response ranked by Rank, the status becomes Complete and the map is rebuilt with exactly the new indices, all closed; a non-array body makes the sort throw, so the status becomes Error and the previous results and map stay |
| `ResumeATS.Workspace.CompleteFailure` | ResumeATS.jsx:54-57 | a failed request sets the status to Error and keeps the previous results, map, files and criteria |
| `ResumeATS.Workspace.ToggleDetails` | ResumeATS.jsx:60-62 | the map becomes Toggled(old map, i); nothing else changes; when i is a current result index the map keeps exactly one key per result |
| `ResumeATS.Workspace.Cards` | ResumeATS.jsx:168-214 | one card per ranked result, in rank order, open exactly where the map says so |
| `Login.Credentials.With` | Login.jsx:14-16 | editing one credential field sets it and leaves the other unchanged |
| `Login.Decide` | Login.jsx:18-24 | the callback is chosen exactly for the pair ("admin", "admin123"); every other pair gets the alert |
| `Login.LoginForm.constructor` | Login.jsx:5 | both credentials start empty |
| `Login.LoginForm.HandleChange` | Login.jsx:14-16 | only the named credential field changes |
| `Login.LoginForm.HandleLogin` | Login.jsx:18-24 | one outcome per press: the callback iff username is "admin" and password is "admin123", otherwise the alert; the credentials are not modified |
| `App.Application.constructor` | App.js:7 | the flag starts false |
| `App.Application.HandleLoginSuccess` | App.js:9-11 | the flag is true afterwards whatever it was, so a second call changes nothing |
| `App.Application.Render` | App.js:15 | the workspace is rendered iff the flag is set, the login form otherwise |
| `App.Application.ClickLogin` | App.js:9-15 | the button exists only while the login form is shown, that is while the flag is clear; pressing it runs the form's check, and the flag becomes true exactly when the check chose the callback |
| `Scenarios.TwoResumesRanked` | ResumeATS.jsx:45-67 | results scored 72 then 95 are ranked 95 first, and the chart lists B.pdf 95 then A.pdf 72 |
| `Scenarios.SixteenCharacterLabel` | ResumeATS.jsx:65 | a 15-character name is kept; a 16-character name becomes its first 15 characters and "...", 18 characters in all |
| `Scenarios.SuccessThenFailure` | ResumeATS.jsx:29-57 | after a good analysis, a failed re-analysis sets Error and keeps the two ranked results with their panels closed |
| `Scenarios.EmptyBatchRejected` | ResumeATS.jsx:29-33 | with no file selected, pressing upload dispatches nothing and the status stays Idle |
| `Scenarios.ReselectionReplaces` | ResumeATS.jsx:21-23 | a second pick replaces the first |
| `Scenarios.DoubleSubmit` | ResumeATS.jsx:29-43 | two presses in a row both dispatch the same request |
| `Scenarios.OpenAndCloseDetails` | ResumeATS.jsx:199-211 | opening a panel whose result has no skills list shows its summary and an empty list and leaves the other panel closed; closing it restores the map |
| `Scenarios.LoginFlow` | App.js:7-15 | a wrong password keeps the login form; the right pair shows the workspace |
| `Scenarios.ToggleDetailsTwiceRestores` | ResumeATS.jsx:60-62 | on a workspace whose map has one key per result, two presses of the same result's button restore the map |

## Left out

- The request itself: the POST, its fixed URL and its headers are not modelled. The service is an opaque reply. A transport failure or a non-success status becomes `CompleteFailure`; a success status with a body becomes `CompleteSuccess`.
- The scoring service, the user store and the training and registration code are not part of this model. That is app.py, login.py, train_model.py and auth.jsx. They use PDF extraction, sentence embeddings, floating-point scores, a database and password hashing.
- app.jsx is not part of this model. It duplicates App.js and renders a lowercase `auth` tag, which React treats as an HTML element, so that gate never fires.
- Alerts and `console.error` are not modelled as effects. The empty-batch alert is the `Rejected` outcome; the login alert is the `AlertInvalid` outcome; the error log is dropped.
- Styling, markup, the chart library and the font stylesheet injected on mount are left out. So is the per-file size display, which uses floating-point `toFixed`.
- The file contents are opaque: `ResumeFile` keeps a name and a byte size only.
- `ResumeATS.Workspace.HandleChange` takes one of the five criteria. The source takes any input name, but the page renders only those five inputs. An unknown name would add a sixth key. `Login.LoginForm.HandleChange` is restricted to the two credential fields in the same way.
- Result records are assumed well-formed apart from `missing_skills`: a string `filename` and an integer `match_percentage`. The source accepts any JSON number, including fractions and negative values. Scores are not bounded to [0, 100], because nothing in the client enforces that. Elements without a numeric score would make the comparator return NaN, which gives an implementation-defined order; this is not modelled.
- `ResumeATS.Label` counts characters as Dafny sequence elements (Unicode scalar values). The source counts UTF-16 code units, so a name with characters outside the Basic Multilingual Plane is cut at a different place.
- In-place sorting: the source sorts the response array in place. The model returns a new sequence. Nothing else holds the array, so the difference is not observable.
- `ResumeATS.Workspace.BeginUpload` has no guard against a second upload while one is in flight: handleUpload (ResumeATS.jsx:29-40) never reads uploadStatus. The model follows the code, and `Scenarios.DoubleSubmit` shows two dispatches.
- React's batching of state updates and re-rendering are not modelled. Each handler's updates are applied together as one step.
