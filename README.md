# DevOps Escape Room: Dafny model of the game logic

The DevOps Escape Room is a two-level browser game with a small backend.

- **Level 1** is a simulated Docker terminal. The player pulls `nginx`, runs the container `web` on ports `8080:80` and reads its logs.
- **Level 2** is a Kubernetes manifest editor. The backend grades the manifest against a seven-item rubric and saves a pass in Redis.

This project models the logic of both pages and of the backend endpoints they call, and proves properties of that model.

The modules are:

- `Common`: `Option`, `Min`, and insertion-ordered key lists (`AddKey`, `Distinct`).
- `JsText`: the JavaScript semantics the terminal relies on:
  - `trim` and `split(/\s+/)`;
  - the two `docker run` regular expressions, with leftmost-match search;
  - `Array.prototype.join`;
  - the order of `Object.keys` (array-index keys first, ascending, then insertion order).
- `OnceGuard`: the `firedRef` one-shot celebration guard, which both pages share.
- `Yaml`: the JSON-like values a safe YAML load can return (null, booleans, integers, floats, strings, lists and string-keyed mappings), with Python truthiness, `or`, `and` and `dict.get`.
- `Rubric`: `level2_validate`.
  - It evaluates seven predicates over the parsed document, without short-circuiting, and records them step by step.
  - A `.get` on a value that is not a dict becomes an HTTP 500 (`ServerError`).
- `ProgressStore`: `get_progress`, `update_progress` and the save step of `level2_validate`.
  - The Redis store is modelled as a map from `(playerId, level)` to string hashes.
  - It is held by the class `Store`.
- `Level1`: the terminal.
  - The session is a datatype. `Exec` and `Next` are the transition functions of `handleSubmit`.
  - `ApplyTask` is the local half of `updateTask`, and `Reconstruct` is the load effect.
  - The class `Terminal` keeps the page state in fields. Its methods are proved equal to those functions.
  - The printed history is a sequence of symbolic entries. `Render` gives the exact text each entry prints, and `Screen` gives the joined terminal.
- `Level2`: the editor page.
  - The class `Page` holds `playerId`, `yamlText`, `validating`, `result`, `serverDone` and `fired`.
  - `Passed` and `DisplayedChecks` are its derived values.
  - `StarterTree` and `PassingTree` are the two shipped manifests, as parsed trees.

## Model

| member | source | states |
|---|---|---|
| Common.AddKey | frontend/src/pages/Level1.jsx:217-221 | `{...obj, [k]: v}` on the key order: the key is present afterwards, no other key is added, repeats are never created, and an existing key keeps its place |
| JsText.Trim | frontend/src/pages/Level1.jsx:191 | the trimmed line is a slice `s[i..j]` with only whitespace before `i` and after `j`; it is empty exactly when every character is whitespace, and otherwise starts and ends with a non-space |
| JsText.TrimKeeps | frontend/src/pages/Level1.jsx:191 | a line that starts and ends with a non-space is its own trim |
| JsText.Split | frontend/src/pages/Level1.jsx:213 | `split(/\s+/)` yields at least one piece, and no piece contains whitespace |
| JsText.SplitRebuilds | frontend/src/pages/Level1.jsx:213 | the pieces interleaved with the whitespace runs cut out between them rebuild the line exactly, with one run fewer than pieces |
| JsText.GapsAreWhitespace | frontend/src/pages/Level1.jsx:213 | every run cut out between two pieces is a non-empty run of whitespace |
| JsText.InnerPiecesNonEmpty | frontend/src/pages/Level1.jsx:213 | only the first and the last piece can be empty |
| JsText.FirstPieceNonEmpty | frontend/src/pages/Level1.jsx:213 | a line that starts with a non-space has a non-empty first piece |
| JsText.SplitSingle | frontend/src/pages/Level1.jsx:213 | a line without whitespace splits into itself alone |
| JsText.SplitWord | frontend/src/pages/Level1.jsx:213 | a word, one space and a line that starts with a non-space split into the word followed by that line's pieces |
| JsText.Last | frontend/src/pages/Level1.jsx:244 | `parts.pop()` on the pieces of a line, which are never empty (its partner is `Level1.RunImageLast`) |
| JsText.Arg | frontend/src/pages/Level1.jsx:213-215 | `parts[2]` tested with `!`: present exactly when the piece exists and is non-empty |
| JsText.MatchAt | frontend/src/pages/Level1.jsx:242-243 | a match at a position has the capture shape of its pattern |
| JsText.NameGroupAt | frontend/src/pages/Level1.jsx:242 | the group `([a-zA-Z0-9-_]+)` read at `w` is the text of the line from `w` to the end of its run of name characters; there is none exactly when the line has no name character at `w` |
| JsText.PortGroupAt | frontend/src/pages/Level1.jsx:243 | the group `([0-9]+:[0-9]+)` read at `w` is digits, `:` and digits taken from the line at `w`, up to the end of the second run of digits |
| JsText.MatchAtText | frontend/src/pages/Level1.jsx:242-243 | a match at `i` has the flag text at `i`, then a non-empty whitespace run, and its capture is the group read right after that run |
| JsText.MismatchNoMatch | frontend/src/pages/Level1.jsx:242-243 | a position whose text differs from the flag does not match |
| JsText.NoGapNoMatch | frontend/src/pages/Level1.jsx:242-243 | no match starts where the flag is not followed by whitespace |
| JsText.PortNeedsDigit | frontend/src/pages/Level1.jsx:243 | no `-p` match starts where the whitespace after the flag runs into a non-digit |
| JsText.NameGroupReads | frontend/src/pages/Level1.jsx:242 | a name-shaped text at `w` that no name character follows is what the name group reads at `w` |
| JsText.PortGroupReads | frontend/src/pages/Level1.jsx:243 | a port-shaped text at `w` that no digit follows is what the port group reads at `w` |
| JsText.MatchAtReads | frontend/src/pages/Level1.jsx:242-243 | with the flag at `i` and only whitespace up to `w`, the match at `i` is the group read at `w` |
| JsText.Capture | frontend/src/pages/Level1.jsx:242-243 | `line.match(re)[1]` is the capture of the match at some position `k` where no earlier position matches; it has the pattern's shape (`[a-zA-Z0-9-_]+`, or digits `:` digits); none exactly when no position matches |
| JsText.CaptureAt | frontend/src/pages/Level1.jsx:242-243 | when the pattern matches at `k` and at no earlier position, the capture is the match at `k` |
| JsText.Search | frontend/src/pages/Level1.jsx:242-243 | the match found is the leftmost: no earlier position matches |
| JsText.IsArrayIndex | frontend/src/pages/Level1.jsx:206 | the keys `Object.keys` lists first: canonical decimal numerals below 2^32 - 1 (its partner is `ObjectKeysOrder`) |
| JsText.InsertIndexKey | frontend/src/pages/Level1.jsx:206 | placing an array-index key among the index keys adds exactly that key |
| JsText.InsertKeepsAscending | frontend/src/pages/Level1.jsx:206 | placing an array-index key into an ascending list of index keys keeps it ascending by numeric value |
| JsText.ObjectKeys | frontend/src/pages/Level1.jsx:206 | `Object.keys` lists every inserted key, each as often as inserted |
| JsText.ObjectKeysOrder | frontend/src/pages/Level1.jsx:206 | `Object.keys` lists the array-index keys first, in ascending numeric order, then every other key in insertion order |
| JsText.ObjectKeysPlain | frontend/src/pages/Level1.jsx:206 | without array-index keys, `Object.keys` is the insertion order |
| JsText.Join | frontend/src/pages/Level1.jsx:208 | `Array.prototype.join` (its partners are `Level1.WebTableRow` and the rendering rows) |
| OnceGuard.Check | frontend/src/pages/Level1.jsx:113-115 | the guard fires exactly when `done` holds and it has not fired; the flag is then set |
| OnceGuard.FiresAtMostOnce | frontend/src/pages/Level2.jsx:124-126 | over any sequence of evaluations the celebration fires at most once, exactly once if it had not fired and the condition held at some point, and the flag stays set |
| Yaml.Truthy | backend/main.py:122 | Python `bool(v)`: None, False, zero, and empty strings, lists and dicts are falsy (its partners are `Or`, `And` and `FalsyDocumentFailsEveryCheck`) |
| Yaml.Or | backend/main.py:139 | Python `a or b` is truthy exactly when either operand is |
| Yaml.And | backend/main.py:154 | Python `a and b` is truthy exactly when both are |
| Yaml.Get | backend/main.py:133 | `dict.get` fails exactly on a non-dict, yields the field when present and `None` otherwise |
| Yaml.Field | backend/main.py:139 | `dict.get(key)` on a dict: the lookup succeeds and yields this value |
| Yaml.AndThenOrCollapses | backend/main.py:154 | `a and b or b` is `b` whatever `a` is |
| Rubric.PodSpecIgnoresTemplateMetadata | backend/main.py:153-154 | the pod spec is `tpl.get("spec") or {}` whatever the template metadata is |
| Rubric.Document | backend/main.py:122 | `yaml.safe_load(...) or {}`: a falsy document becomes the empty mapping (its partner is `FalsyDocumentFailsEveryCheck`) |
| Rubric.Spec | backend/main.py:146 | `doc.get("spec") or {}` |
| Rubric.Template | backend/main.py:153 | the pod template, `spec.get("template") or {}` |
| Rubric.PodSpec | backend/main.py:154 | `tpl.get("metadata") and tpl.get("spec") or tpl.get("spec") or {}` (its partner is `PodSpecIgnoresTemplateMetadata`) |
| Rubric.Containers | backend/main.py:155 | `podspec.get("containers") or []` (its partner is `MissingContainersFailContainerChecks`) |
| Rubric.FirstContainer | backend/main.py:155-156 | `containers[0]` for a non-empty list, else `{}` (its partner is `MissingContainersFailContainerChecks`) |
| Rubric.Raises | backend/main.py:133-155 | an unguarded `.get` meets a non-dict: the document, `spec`, the template or the pod spec (its partners are `EvaluateDocument` and `NonMappingDocumentRaises`) |
| Rubric.ApiVersionOk | backend/main.py:126-129 | `doc.get("apiVersion") == "apps/v1"` |
| Rubric.KindOk | backend/main.py:133-136 | `doc.get("kind") == "Deployment"` |
| Rubric.MetadataNameOk | backend/main.py:139-143 | `metadata` is a dict with a truthy `name` |
| Rubric.ReplicasOk | backend/main.py:146-150 | an integer `replicas` of at least 2 (its partner is `ReplicasRule`) |
| Rubric.ImageOk | backend/main.py:157-160 | the first container is a dict with a truthy `image` |
| Rubric.HasImage | backend/main.py:157 | `isinstance(c0, dict) and c0.get("image")` |
| Rubric.ProbesOk | backend/main.py:163-167 | the first container has truthy readiness and liveness probes |
| Rubric.HasProbes | backend/main.py:163 | `isinstance(c0, dict)` with truthy readiness and liveness probes |
| Rubric.Has | backend/main.py:171-172 | `_has(obj, k1, k2)`: a dict whose `k1` is a dict with a truthy `k2` (its partner is `ResourcesRule`) |
| Rubric.HasResources | backend/main.py:170-179 | the four `_has` tests on `c0.get("resources")`, or on `None` when `c0` is not a dict (its partner is `ResourcesRule`) |
| Rubric.ResourcesOk | backend/main.py:170-183 | the first container requests and limits cpu and memory (its partner is `ResourcesRule`) |
| Rubric.Outcomes | backend/main.py:126-183 | exactly seven outcomes, one per check |
| Rubric.LabelledValues | backend/main.py:110-118 | the `checks` dict has the seven names in declaration order, each with its outcome |
| Rubric.Labelled | backend/main.py:110-118 | the `checks` dict built from seven outcomes (its partner is `LabelledValues`) |
| Rubric.Record | backend/main.py:126-183 | recording check `n` sets it true on a pass and appends its message on a failure, extending the state recorded for the first `n` checks |
| Rubric.AllValues | backend/main.py:185 | the loop computes `all(checks.values())` |
| Rubric.RecordDocumentChecks | backend/main.py:110-150 | starting from the all-false `checks` and no errors, recording checks 1 to 4 in order leaves the checks and messages of the first four outcomes |
| Rubric.RecordContainerChecks | backend/main.py:152-183 | recording checks 5 to 7 after them leaves the checks and messages of all seven |
| Rubric.Respond | backend/main.py:185-196 | the response is the grade of the seven outcomes |
| Rubric.FailureMessages | backend/main.py:126-183 | the `errors` list after the first `n` checks (its partners are `FailureMessagesListed`, `FailureMessagesCount` and `FailureMessagesOrdered`) |
| Rubric.RecordedAfter | backend/main.py:110-183 | the `checks` values after the first `n` checks: seven entries, later checks still false (its partner is `Record`) |
| Rubric.Grade | backend/main.py:185-196 | the verdict of seven outcomes: `ok`, the messages and the labelled checks (its partner is `GradeOk`) |
| Rubric.Judge | backend/main.py:107-196 | the response for a parse outcome: a parse error, an HTTP 500 when `Raises`, else the grade (its partner is `Evaluate`) |
| Rubric.Tally | backend/main.py:126-185 | recording all seven outcomes in order yields their grade |
| Rubric.EvaluateDocument | backend/main.py:126-196 | the handler on a document answers HTTP 500 exactly when a `.get` meets a non-dict, and otherwise the grade of the seven predicates |
| Rubric.Evaluate | backend/main.py:108-196 | the handler's response equals `Judge` for every parse outcome |
| Rubric.MessagesDistinct | backend/main.py:130-183 | the seven failure messages are pairwise different |
| Rubric.FailureMessagesListed | backend/main.py:126-183 | a check's message is reported exactly when the check failed |
| Rubric.FailureMessagesCount | backend/main.py:126-183 | the number of messages equals the number of failed checks; none when all passed |
| Rubric.FailureMessagesOrdered | backend/main.py:126-183 | messages appear in declaration order without repeats |
| Rubric.GradeOk | backend/main.py:185 | `ok` holds exactly when there are no errors, and exactly when every check is true |
| Rubric.ParseErrorVerdict | backend/main.py:121-124 | a parse failure gives `ok=false`, the one message `YAML parse error: ...` and all seven checks false |
| Rubric.ParseFailure | backend/main.py:123-124 | the answer to a parse error (its partner is `ParseErrorVerdict`) |
| Rubric.FalsyDocumentFailsEveryCheck | backend/main.py:122 | an empty or falsy document is `{}`: no crash, every check fails, all seven messages in order |
| Rubric.NonMappingDocumentRaises | backend/main.py:133 | a truthy non-dict document makes `doc.get("kind")` raise |
| Rubric.ReplicasRule | backend/main.py:146-150 | replicas passes exactly when `spec.replicas` is present and an integer of at least 2 |
| Rubric.MissingContainersFailContainerChecks | backend/main.py:153-167 | without a non-empty containers list, `c0 = {}` and image, probes and resources fail |
| Rubric.ResourcesRule | backend/main.py:170-183 | resources passes exactly when `requests` and `limits` are dicts, each with truthy `cpu` and `memory` |
| ProgressStore.Stored | backend/main.py:71-73 | `hgetall(key)`, empty for a key that does not exist (its partner is `UpdateThenProgress`) |
| ProgressStore.Normalise | backend/main.py:74 | normalisation keeps exactly the keys of the hash |
| ProgressStore.LevelDone | backend/main.py:77 | level 1 is done when every task is, other levels when `validYaml` is (stated through `Progress`) |
| ProgressStore.Progress | backend/main.py:64-82 | the reported keys are the four defaults plus the stored ones; a task is true iff stored as "1"; level 1 is done iff every reported task is, other levels iff `validYaml` is; the manifest is reported iff saved |
| ProgressStore.Updated | backend/main.py:87 | `hset` of one field to "1" or "0" (its partners are `UpdateThenProgress`, `UpdatesCommute` and `UpdateIdempotent`) |
| ProgressStore.UpdateReply | backend/main.py:84-92 | the update reply covers only the stored keys, with `done` over them and no manifest |
| ProgressStore.Persisted | backend/main.py:188-191 | the saved pass: `validYaml` set to "1" and the text saved (its partner is `PersistedThenProgress`) |
| ProgressStore.ResponsePassed | backend/main.py:190 | the response reports a passing manifest (its partner is `Store.Validate`) |
| ProgressStore.Store.GetProgress | backend/main.py:64-82 | the read changes nothing and returns `Progress`; a done level 1 implies `validYaml` was stored |
| ProgressStore.Store.UpdateProgress | backend/main.py:84-92 | writes one field, "1" iff completed, and the reply reports it |
| ProgressStore.Store.Validate | backend/main.py:185-196 | the response is the rubric's; the store changes exactly when the manifest passed and the player id is non-empty, by setting `validYaml` and saving the text |
| ProgressStore.UpdateThenProgress | backend/main.py:84-87 | an update is read back; other players and levels read as before |
| ProgressStore.UpdatesCommute | backend/main.py:87 | updates of different fields commute |
| ProgressStore.UpdateIdempotent | backend/main.py:87-92 | repeating an update changes neither the store nor the reply |
| ProgressStore.FirstLevel1UpdateReportsDone | backend/main.py:88-91 | the reply to a player's first completed level-1 update counts only that task, so it reports the level done |
| ProgressStore.Level1ProgressNeedsValidYaml | backend/main.py:66-77 | a read of level 1 is done only if `validYaml` is also stored as "1" for level 1 |
| ProgressStore.PersistedThenProgress | backend/main.py:188-191 | after a saved pass, level 2 reads as done with the saved text; nothing else changes |
| ProgressStore.Level2DoneSurvivesOtherUpdates | backend/main.py:77 | later updates of other tasks keep level 2 done |
| Level1.Initial | frontend/src/pages/Level1.jsx:37-52 | the session on first render: the banner, no images, no containers, no flags, hint cursor 0 (its partners are `CanonicalPlaythrough` and `Terminal.constructor`) |
| Level1.Done | frontend/src/pages/Level1.jsx:54-57 | `pulled && ran && sawLogs` (its partners are `CanonicalPlaythrough` and `ReconstructMatchesServer`) |
| Level1.Print | frontend/src/pages/Level1.jsx:138 | `print`: one entry appended to the history (its partners are `PrintWellFormed` and `ExecPrintsOnce`) |
| Level1.StartLogs | frontend/src/pages/Level1.jsx:264-268 | the three log lines of a container started at `now` (its partner is `RunOutcome`) |
| Level1.Canonical | frontend/src/pages/Level1.jsx:271-273 | the run of `web` on `8080:80` from `nginx` (its partners are `ExecRanOnlyByCanonicalRun` and `OnlyCanonicalRunSetsRan`) |
| Level1.WebContainer | frontend/src/pages/Level1.jsx:93-102 | the container `web` that the load and `updateTask("run")` create (its partners are `RunOutcome` and `PsAfterCanonicalRun`) |
| Level1.Parse | frontend/src/pages/Level1.jsx:205-238 | `docker images` and `docker ps` dispatch to the listings |
| Level1.DispatchPull | frontend/src/pages/Level1.jsx:212-215 | a line starting with `docker pull` parses to a pull of its third piece |
| Level1.DispatchRun | frontend/src/pages/Level1.jsx:240-244 | a line starting with `docker run` parses to a run of the two captures and the last piece |
| Level1.DispatchLogs | frontend/src/pages/Level1.jsx:283-285 | a line starting with `docker logs` parses to logs of its third piece |
| Level1.ParsePull | frontend/src/pages/Level1.jsx:212-215 | `docker pull <word>` is its own trim and parses to a pull of that word |
| Level1.ParseLogs | frontend/src/pages/Level1.jsx:283-285 | `docker logs <word>` is its own trim and parses to logs of that word |
| Level1.RunNameCapture | frontend/src/pages/Level1.jsx:242 | in `docker run --name <name> -p <ports> <image>`, for any name of name characters (hyphens included), the name regex captures exactly the name |
| Level1.NoPortsInName | frontend/src/pages/Level1.jsx:243 | no `-p` match starts inside the name, even when the name contains or ends in `-p` |
| Level1.RunNoEarlyPorts | frontend/src/pages/Level1.jsx:243 | in that line no `-p` match starts before the one after the name |
| Level1.RunPortsCapture | frontend/src/pages/Level1.jsx:243 | in that line the port regex captures exactly the ports |
| Level1.RunImageLast | frontend/src/pages/Level1.jsx:244 | the last piece of that line is the image |
| Level1.ParseRun | frontend/src/pages/Level1.jsx:240-250 | `docker run --name <name> -p <ports> <image>`, with any name of name characters, a port mapping and a one-word image, is its own trim and parses to a run of exactly those three |
| Level1.DispatchOrder | frontend/src/pages/Level1.jsx:197-296 | each docker prefix reaches its command; a line is unknown exactly when it is no exact command and has no docker prefix |
| Level1.BlankInputIsIgnored | frontend/src/pages/Level1.jsx:191-192 | a blank line changes nothing and prints nothing |
| Level1.NonBlankInputIsEchoed | frontend/src/pages/Level1.jsx:194-296 | any other line is echoed as `$ line` and followed by exactly one entry, except `clear`, which empties the history |
| Level1.ExecPrintsOnce | frontend/src/pages/Level1.jsx:197-296 | every branch except `clear` prints exactly one entry and keeps the earlier history |
| Level1.UnknownCommandChangesNothing | frontend/src/pages/Level1.jsx:296 | an unknown line prints the echo and "Command not found" and changes nothing else |
| Level1.HintSaturates | frontend/src/pages/Level1.jsx:199-203 | `hint` prints the hint at the cursor; the cursor becomes `min(step+1, 2)` and never leaves range |
| Level1.PullOutcome | frontend/src/pages/Level1.jsx:212-226 | without an image, pull prints the error and changes nothing. Otherwise the outcome is given whole: the image joins the key list (no repeat created), `pulled` becomes `pulled or image == nginx`, `Pulling <image>... done` is printed, everything else stays, and `pull` is reported exactly for nginx |
| Level1.RunOutcome | frontend/src/pages/Level1.jsx:240-281 | without both captures the usage is printed, and an unpulled image prints "Unable to find image"; neither changes anything else. Otherwise exactly the named container is (re)started with three log lines and its name joins the key list; the others, the images, `pulled`, `sawLogs` and the cursor stay; `Started ...` is printed; and `ran` is set and `run` reported only for the canonical triple |
| Level1.LogsOutcome | frontend/src/pages/Level1.jsx:283-294 | logs prints the usage without a name and "No such container" for an unknown one, both changing nothing else; otherwise it prints the log lines and sets `sawLogs` |
| Level1.LogsNeedContainer | frontend/src/pages/Level1.jsx:287-291 | `sawLogs` is set and `logs` reported only for an existing container |
| Level1.RunNeedsPulledImage | frontend/src/pages/Level1.jsx:252-274 | every container runs an image present in `images` |
| Level1.PrintWellFormed | frontend/src/pages/Level1.jsx:138 | printing keeps the session well formed |
| Level1.PullWellFormed | frontend/src/pages/Level1.jsx:217-221 | pull keeps the session well formed |
| Level1.RunWellFormed | frontend/src/pages/Level1.jsx:256-274 | run keeps the session well formed |
| Level1.LogsWellFormed | frontend/src/pages/Level1.jsx:290 | logs keeps the session well formed |
| Level1.ExecWellFormed | frontend/src/pages/Level1.jsx:197-296 | every command keeps the key lists distinct and matching the objects, containers on pulled images, flags backed by state, and the cursor in range |
| Level1.NextWellFormed | frontend/src/pages/Level1.jsx:189-297 | every submitted line keeps the session well formed |
| Level1.ExecFlagsMonotone | frontend/src/pages/Level1.jsx:217-290 | no command lowers `pulled`, `ran` or `sawLogs` |
| Level1.FlagsMonotone | frontend/src/pages/Level1.jsx:189-297 | no submitted line lowers a task flag |
| Level1.ExecRanOnlyByCanonicalRun | frontend/src/pages/Level1.jsx:271-278 | only `Run(web, 8080:80, nginx)` sets `ran` or reports `run` |
| Level1.OnlyCanonicalRunSetsRan | frontend/src/pages/Level1.jsx:240-281 | only a line parsed as the canonical run sets `ran` or reports `run` |
| Level1.ApplyTaskMonotone | frontend/src/pages/Level1.jsx:150-182 | the local update only raises flags and does nothing when `completed` is false |
| Level1.ApplyTaskWellFormed | frontend/src/pages/Level1.jsx:150-182 | the local update keeps the session well formed |
| Level1.ReportedTaskIsAlreadyApplied | frontend/src/pages/Level1.jsx:150-182 | the task a command reports is already applied locally. The `updateTask` that follows reads the clock again: for `pull` and `logs` it changes nothing; for `run` it only restamps the first log line of `web`, and so leaves the session unchanged exactly when the clock reading is the same |
| Level1.ReapplyRun | frontend/src/pages/Level1.jsx:158-175 | on a session already running `web` from `nginx`, `updateTask("run")` rebuilds only `web`'s logs from its own clock reading, a change exactly when that reading differs |
| Level1.StampInjective | frontend/src/pages/Level1.jsx:169 | the first log line of `web` determines the clock reading it was stamped with |
| Level1.ReconstructMatchesServer | frontend/src/pages/Level1.jsx:77-105 | the state rebuilt on load has each flag iff the server stored it as "1", is well formed, and keeps history and cursor |
| Level1.RunAsWrittenStartsUnpulledImage | frontend/src/pages/Level1.jsx:252 | as written, `docker run ... toString` starts a container from an image never pulled |
| Level1.RunStepAsWritten | frontend/src/pages/Level1.jsx:252 | the run branch with the image lookup as written, which also finds inherited members (its partner is `RunAsWrittenStartsUnpulledImage`) |
| Level1.LogsAsWrittenSeesNoContainer | frontend/src/pages/Level1.jsx:287-291 | as written, `docker logs constructor` sets `sawLogs` and reports `logs` without a container |
| Level1.LogsStepAsWritten | frontend/src/pages/Level1.jsx:287-293 | the logs branch with the container lookup as written (its partner is `LogsAsWrittenSeesNoContainer`) |
| Level1.HintStep | frontend/src/pages/Level1.jsx:199-203 | `hint`: prints the hint at the cursor and advances it, stopping at the last hint (its partner is `HintSaturates`) |
| Level1.PullStep | frontend/src/pages/Level1.jsx:212-226 | the pull branch (its partners are `PullOutcome` and `PullWellFormed`) |
| Level1.StartContainer | frontend/src/pages/Level1.jsx:252-280 | the run branch once both captures are found: the image check, then the new container (its partner is `RunOutcome`) |
| Level1.RunStep | frontend/src/pages/Level1.jsx:240-281 | the run branch, with the usage message when a capture is missing (its partners are `RunOutcome` and `RunWellFormed`) |
| Level1.LogsStep | frontend/src/pages/Level1.jsx:283-294 | the logs branch (its partners are `LogsOutcome` and `LogsWellFormed`) |
| Level1.Exec | frontend/src/pages/Level1.jsx:197-296 | the transition of one parsed command (its partners are `ExecPrintsOnce`, `ExecWellFormed` and `ExecFlagsMonotone`) |
| Level1.Next | frontend/src/pages/Level1.jsx:189-297 | `handleSubmit` on one typed line (its partners are `NextWellFormed`, `FlagsMonotone` and `TypedLine`) |
| Level1.ApplyTask | frontend/src/pages/Level1.jsx:150-182 | the local half of `updateTask` (its partners are `ApplyTaskMonotone`, `ApplyTaskWellFormed` and `ReportedTaskIsAlreadyApplied`) |
| Level1.Reconstruct | frontend/src/pages/Level1.jsx:77-105 | the load as written: it replaces images, containers and flags with those the server's tasks imply (its partners are `ReconstructMatchesServer`, `ReconstructWellFormed` and `LoadAsWrittenLowersPulled`) |
| Level1.ServerSet | frontend/src/pages/Level1.jsx:80-82 | `!!data?.tasks?.[task]` (its partner is `MergedKeepsFlags`) |
| Level1.Merged | frontend/src/pages/Level1.jsx:77-105 | the load merged with OR semantics: each task the server set is applied as `updateTask` applies it (its partners are `MergedKeepsFlags`, `MergedWellFormed` and `MergedOnFreshSession`) |
| Level1.MergedKeepsFlags | frontend/src/pages/Level1.jsx:77-105 | the merged load sets each flag exactly when it was set locally or by the server; pulled images, containers other than `web`, the history and the cursor stay |
| Level1.MergedWellFormed | frontend/src/pages/Level1.jsx:77-105 | the merged load keeps the session well formed |
| Level1.MergedOnFreshSession | frontend/src/pages/Level1.jsx:77-105 | on a session with nothing pulled, run or read, the merged load equals the load as written |
| Level1.LoadAsWrittenLowersPulled | frontend/src/pages/Level1.jsx:77-105 | as written, a load answered after `docker pull nginx` from a server without `pull` clears `pulled` again; it stays cleared when the GET is answered after the pending `updateTask("pull")` has applied its update, or when that POST fails |
| Level1.LoadAsWrittenDropsOtherImages | frontend/src/pages/Level1.jsx:77-105 | as written, an image other than `nginx` pulled before the load answers is gone after it, whatever the server answers, and no later `updateTask` restores it |
| Level1.ReconstructWellFormed | frontend/src/pages/Level1.jsx:77-105 | whatever tasks the server returns, the rebuilt state is well formed when the hint cursor is in range |
| Level1.ImageRows | frontend/src/pages/Level1.jsx:206-208 | one row `key<TAB>latest` per image key, in key order |
| Level1.ContainerRows | frontend/src/pages/Level1.jsx:231-236 | when every key has a container: one row per key, in order, reading the first 12 characters of the name, three spaces, the image, three spaces and `Up` or `Exited` |
| Level1.Render | frontend/src/pages/Level1.jsx:194-296 | the exact text each kind of history entry prints |
| Level1.Screen | frontend/src/pages/Level1.jsx:315 | the terminal shows the rendered entries joined by newlines |
| Level1.TypedLine | frontend/src/pages/Level1.jsx:189-197 | a non-empty line that is its own trim is echoed and then runs the command it parses to |
| Level1.PullLineParses | frontend/src/pages/Level1.jsx:212-215 | `docker pull nginx` parses to a pull of `nginx` |
| Level1.RunLineParses | frontend/src/pages/Level1.jsx:240-250 | `docker run --name web -p 8080:80 nginx` parses to the run of `web`, `8080:80` and `nginx` |
| Level1.LogsLineParses | frontend/src/pages/Level1.jsx:283-285 | `docker logs web` parses to logs of `web` |
| Level1.TypedPull | frontend/src/pages/Level1.jsx:189-226 | typing `docker pull nginx` echoes the line and takes the pull branch with `nginx` |
| Level1.TypedRun | frontend/src/pages/Level1.jsx:189-281 | typing the canonical run line echoes it and takes the run branch with `web`, `8080:80` and `nginx` |
| Level1.TypedLogs | frontend/src/pages/Level1.jsx:189-294 | typing `docker logs web` echoes it and takes the logs branch with `web` |
| Level1.CanonicalPlaythrough | frontend/src/pages/Level1.jsx:189-294 | typing `docker pull nginx`, `docker run --name web -p 8080:80 nginx` and `docker logs web` into a fresh terminal reports pull, run and logs in that order, and only the third line completes the level |
| Level1.PsLineParses | frontend/src/pages/Level1.jsx:228 | `docker ps` is its own trim and lists the containers |
| Level1.TypedPs | frontend/src/pages/Level1.jsx:228-238 | typing `docker ps` echoes it and prints the table of the current containers, changing nothing else |
| Level1.WebKeys | frontend/src/pages/Level1.jsx:229 | `Object.keys` of an object holding only `web` is `["web"]` |
| Level1.WebRows | frontend/src/pages/Level1.jsx:231-236 | the row of the container `web` is `web   nginx   Up` |
| Level1.WebTableRow | frontend/src/pages/Level1.jsx:228-238 | the table of `web` alone renders as the one line `web   nginx   Up` |
| Level1.PsAfterCanonicalRun | frontend/src/pages/Level1.jsx:189-238 | after `docker pull nginx` and the canonical run, typing `docker ps` prints the table of exactly one container, `web`, running `nginx` |
| Level1.Terminal.constructor | frontend/src/pages/Level1.jsx:37-52 | the page starts with the banner, nothing pulled, nothing celebrated, and a well-formed session |
| Level1.Terminal.Submit | frontend/src/pages/Level1.jsx:189-297 | the fields after `handleSubmit` are `Next` of the fields before, the reported task is `Next`'s, and well-formedness is kept |
| Level1.Terminal.Execute | frontend/src/pages/Level1.jsx:197-296 | each branch updates the fields as `Exec` does |
| Level1.Terminal.DockerPull | frontend/src/pages/Level1.jsx:212-226 | the pull branch updates the fields as `PullStep` does |
| Level1.Terminal.DockerRun | frontend/src/pages/Level1.jsx:240-281 | the run branch updates the fields as `RunStep` does |
| Level1.Terminal.DockerLogs | frontend/src/pages/Level1.jsx:283-294 | the logs branch updates the fields as `LogsStep` does |
| Level1.Terminal.UpdateTask | frontend/src/pages/Level1.jsx:140-186 | after a sent request the fields are `ApplyTask` of the old ones; a failed request changes nothing; well-formedness is kept |
| Level1.Terminal.EnsureWeb | frontend/src/pages/Level1.jsx:158-175 | the `run` update adds `nginx` and the canonical `web` container and sets `ran` |
| Level1.Terminal.LoadProgress | frontend/src/pages/Level1.jsx:77-108 | after a successful load the fields are `Merged` of the old fields and the server's tasks, so no flag is cleared; a failed load changes nothing; well-formedness is kept |
| Level1.Terminal.Celebrate | frontend/src/pages/Level1.jsx:113-115 | fires exactly when done and not yet fired, and leaves the state alone |
| Level1.Terminal.ClearHistory | frontend/src/pages/Level1.jsx:331 | the Clear button empties the history only |
| Level1.Terminal.ShowHelp | frontend/src/pages/Level1.jsx:332 | the Help button prints the help only |
| Level2.StarterTree | frontend/src/pages/Level2.jsx:12-31 | `STARTER_YAML` as parsed (its partner is `StarterManifestFails`) |
| Level2.PassingTree | frontend/src/pages/Level2.jsx:34-72 | `PASSING_YAML` as parsed (its partner is `PassingManifestPasses`) |
| Level2.Received | frontend/src/pages/Level2.jsx:158-165 | a stored verdict reports a pass only if it is the server's answer |
| Level2.Passed | frontend/src/pages/Level2.jsx:106 | `passed`: `serverDone`, or a stored verdict that is `ok` (its partners are `ValidationOutcome` and `FallbackChecklist`) |
| Level2.DisplayedChecks | frontend/src/pages/Level2.jsx:109-121 | the verdict's checks, else all true when `serverDone`, else none (its partners are `ValidationOutcome` and `FallbackChecklist`) |
| Level2.SavedAsDone | frontend/src/pages/Level2.jsx:93 | `data?.tasks?.validYaml` (its partner is `ReloadAfterPass`) |
| Level2.RestoredText | frontend/src/pages/Level2.jsx:93-98 | the text after the load (its partner is `ReloadAfterPass`) |
| Level2.PassingVerdictIsAllGreen | backend/main.py:185 | a verdict that passed has no messages and all seven checks true |
| Level2.ValidationOutcome | frontend/src/pages/Level2.jsx:106-166 | after a validation the page is passed iff it was or the server passed the manifest; it shows the verdict's checks, all true on a pass |
| Level2.NetworkFailureShowsNothing | frontend/src/pages/Level2.jsx:163-165 | a failed request or an HTTP 500 stores the network-error verdict, shows no checks and leaves `passed` to `serverDone` |
| Level2.FallbackChecklist | frontend/src/pages/Level2.jsx:106-121 | without a verdict the checklist is all true iff `serverDone`, else empty; `serverDone` alone makes the page passed |
| Level2.ManifestWalk | backend/main.py:146-156 | on the shipped skeleton the handler's walk reaches the pod spec and the single container |
| Level2.SkeletonDocumentChecks | backend/main.py:126-150 | the skeleton passes apiVersion, kind and name, and replicas iff it has at least 2 |
| Level2.ManifestOutcomes | backend/main.py:126-183 | the skeleton raises nothing and its outcome depends only on replicas and the container |
| Level2.StarterContainerChecks | frontend/src/pages/Level2.jsx:26-30 | the starter container has an image but neither probes nor resources |
| Level2.StarterOutcomes | frontend/src/pages/Level2.jsx:12-31 | the starter manifest passes all but replicas, probes and resources |
| Level2.StarterGrade | backend/main.py:145-185 | those outcomes grade as a failure with the replicas, probes and resources messages, in that order |
| Level2.StarterManifestFails | frontend/src/pages/Level2.jsx:12-31 | the starter manifest is answered with exactly those three failures |
| Level2.JudgedByOutcomes | backend/main.py:126-196 | a document that raises nothing is answered with the grade of its outcomes |
| Level2.PassingContainerProbes | frontend/src/pages/Level2.jsx:49-64 | the pasted container has an image and both probes |
| Level2.PassingContainerResources | frontend/src/pages/Level2.jsx:65-71 | the pasted container requests and limits cpu and memory |
| Level2.PassingOutcomes | frontend/src/pages/Level2.jsx:34-72 | the pasted manifest passes all seven checks |
| Level2.PassingGrade | backend/main.py:185 | seven passes grade as `ok` with no messages and every check true |
| Level2.PassingManifestPasses | frontend/src/pages/Level2.jsx:195 | the "Paste Solution" manifest is answered with a full pass |
| Level2.ReloadAfterPass | frontend/src/pages/Level2.jsx:93-98 | reloading after a saved pass sets `serverDone` and restores the validated text unless it is blank |
| Level2.Page.constructor | frontend/src/pages/Level2.jsx:75-82 | the page starts with the starter text, no player, no verdict, not done |
| Level2.Page.Load | frontend/src/pages/Level2.jsx:85-104 | `validYaml` sets `serverDone`; a saved non-blank manifest then replaces the text; a failed request changes only the player id |
| Level2.Page.Edit | frontend/src/pages/Level2.jsx:189-197 | editing or pasting replaces the text only |
| Level2.Page.StartValidation | frontend/src/pages/Level2.jsx:149-151 | nothing happens without a player id; otherwise validation starts and the old verdict is cleared |
| Level2.Page.FinishValidation | frontend/src/pages/Level2.jsx:158-166 | the verdict is stored, `serverDone` becomes true on a pass and is never cleared, and validation ends |
| Level2.Page.Celebrate | frontend/src/pages/Level2.jsx:124-126 | fires exactly when passed and not yet fired; sets the flag |

## Left out

- Network and storage I/O are not modelled as I/O:
  - Every `fetch` becomes a parameter holding its outcome, with `None` for a failed request.
  - Redis `exists`/`hgetall`/`hget`/`hset` are reads and writes of the map field `Store.hashes`.
- `yaml.safe_load` is a foreign library. The rubric takes its outcome as `Parsed` (a tree, or the exception text).
- The YAML keys are modelled as strings only. A document with non-string keys is not representable.
- `Yaml.Value` has no timestamps, `!!binary`, `!!set`, `.inf` or `.nan`. In the rubric none of them is a dict: a timestamp behaves like a non-empty `Str`, binary data and a set like a `Str` or `List` of the same emptiness, and `.inf` or `.nan` like a non-zero `Float`.
- The two shipped manifests are given as the trees `safe_load` produces. Their text is not parsed.
- `new Date().toLocaleTimeString()` in the log lines is the parameter `now`.
- The confetti animation, `requestAnimationFrame`, `setTimeout`, focus handling and all JSX rendering are left out. The routing in `App.jsx` and `Landing.jsx`, and `api.js`, are left out too.
- React's asynchronous `setState` batching is left out. Each handler is one sequential transition.
  - The `updateTask` that follows a reported task is a separate call, `Terminal.UpdateTask`.
- `Level2.Page.StartValidation` and `Level2.Page.FinishValidation` split `validateYaml` at its `await`. The request body is not modelled.
- The Validate button being disabled while `validating` is left out. `Level2.Page.StartValidation` does not require it to be off.
- `getOrCreatePlayerId` (frontend/src/utils/playerId) is not part of this model. The player id is a parameter.
  - The `playerId` sent by the Level 1 `updateTask` is not modelled.
- `player_init`, `/health`, `/api/welcome` and the CORS setup are left out.
- FastAPI's HTTP 422 answer to a body missing a field is left out.
- An HTTP 500 from the validate endpoint is not JSON. The page's `res.json()` then throws, so the model treats it like a failed request.
- `ProgressStore.Progress` and `ProgressStore.UpdateReply` return `tasks` as a map. The order of the keys in the JSON dict is not modelled.
- `Rubric.EvaluateDocument` computes the seven outcomes first and records them afterwards, through `Tally`. The handler instead records each outcome as it computes it.
  - The predicates have no side effects, and the exits that raise happen before any response is produced. The response is therefore the same.
- The timing of the load effects relative to submitted commands is not modelled. Each load is one call whenever it happens, and `Terminal.LoadProgress` merges it (see Findings).
- Level1.Terminal.LoadProgress: keeps well-formedness only from a well-formed session, not from any session with the cursor in range. The merged load keeps the old history and containers, while the load as written discarded them.
- `Level1.Exec` uses the corrected lookups, and `Level1.Terminal.LoadProgress` the merged load. The code as written is listed under Findings.

## Findings

| source | as written | input that shows it | evidently intended | confidence | as-written member | corrected member |
|---|---|---|---|---|---|---|
| frontend/src/pages/Level1.jsx:252 | `!state.images[image]` also finds the members every object inherits from `Object.prototype` | `docker run --name web -p 8080:80 toString` on a fresh terminal starts `web` from an image that was never pulled | start a container only from a pulled image (an own key of `images`) | not executed; follows from JavaScript property lookup | Level1.RunAsWrittenStartsUnpulledImage | Level1.RunNeedsPulledImage |
| frontend/src/pages/Level1.jsx:287-293 | `state.containers[name]` also finds inherited members, so `sawLogs` is set and `logs` reported before `c.logs.join` throws | `docker logs constructor` on a fresh terminal | "No such container" for any name that is not an own key of `containers` | not executed; follows from JavaScript property lookup | Level1.LogsAsWrittenSeesNoContainer | Level1.LogsNeedContainer |
| frontend/src/pages/Level1.jsx:77-105 | the load effect replaces images, containers and flags with what the server's tasks imply | (1) `docker pull alpine`, or a run of a non-canonical container, before the load answers: the image or container is lost whatever the order of the requests. (2) `docker pull nginx` before the load answers, when the GET is answered after the POST of `updateTask("pull")` and its update (Level1.jsx:150-156), or when that POST fails: `pulled` is cleared again | task flags and local objects never revert within a session: a late response is merged with OR semantics | not executed; (2) needs the GET to answer after the POST | Level1.LoadAsWrittenLowersPulled | Level1.MergedKeepsFlags |
