# codebase-api bookkeeping core, in Dafny

This project models the four pieces of sequential logic of the codebase-api
developer tooling and proves what they promise:

- **Function inventory** (`src/generateAndTrackFunctionList.ts`). It walks the
  codebase tree and reads every `.js`/`.ts` file. It collects the names of
  named `function` declarations and of variables bound to arrow functions into
  one set. It compares that set with the previous `currentFunctionsList.json`
  and appends a timestamped `{added, removed}` record to
  `functionsListHistory.json` only when something changed. Then it
  overwrites the current list.
- **Test history and tracker** (`src/runTestsAndUpdate.ts`). For each
  assertion result of a test run, it derives the functionality ID from the
  test name and merges five status fields into that ID's entry of
  `functionalityTracker.json`. It also prepends a result line to the ID's list
  in `testHistory.json`, flagging a regression when the previous newest line
  was a pass and this result is a failure.
- **Post-script completeness check** (`src/postScriptChecks.ts`,
  `ensureFunctionTestsAndIDs`). It regenerates the inventory, reads it back
  with the tracker, and sorts each entry into "missing functionality ID" or
  "missing tests". Success means both lists are empty. The model assumes the
  inventory function is exported to this script, which it is not (see
  "## Left out").
- **Tracker initialisation** (`src/testInitAndSetup.ts`). `initTest` merges a
  details record into one tracker entry, with the details winning.
  `initTestFromCLI` does this for each `(id, details path)` pair of its
  arguments.

Modules:
- `Wrappers`: `Option` and `Result`.
- `Text`: substring and suffix tests, and decimal rendering of integers.
- `Json`: JSON values with JavaScript truthiness, property access, `String()`
  keys and object spread.
- `InsertionSet`: a JavaScript `Set<string>` as a duplicate-free sequence in
  insertion order.
- `FileWalk`: the directory walk.
- `Extract`: the syntax tree and the two visitors.
- `FunctionList`: the inventory, the diff, the history and the orchestration.
- `TestHistory`, `PostScriptChecks` and `TestInit`: the other three source files.

Each JSON file a module reads and writes is a field of a class
(`InventoryFiles`, `TestRunFiles`, `TrackerFile`). A field is `None` when
the file is absent or does not parse. The methods change those fields and
are proved against specification functions; the properties are lemmas about
those functions. The file system, file contents and the clock are parameters:
- the directory tree is a `FsEntry` value;
- each source file is either a parsed program or a syntax error, and a path
  missing from that map cannot be read;
- the modules `require` can load are a map;
- the ISO timestamp is a string `now`.

## Model

| member | source | states |
|---|---|---|
| FileWalk.GetAllFiles | src/generateAndTrackFunctionList.ts:6-20 | the result is the accumulator followed by the files of the walk, in depth-first listing order |
| FileWalk.FilesInExactlyReachable | src/generateAndTrackFunctionList.ts:10-18 | a path is in the walk's result exactly when it names a file (never a directory) reachable under the root |
| FileWalk.EntryFilesExactlyReachable | src/generateAndTrackFunctionList.ts:12-17 | the same for one directory entry: a file gives its own path, a directory the files below it |
| FileWalk.FilesInCount | src/generateAndTrackFunctionList.ts:10-18 | the walk yields one path per file in the tree, so none is lost or repeated |
| FileWalk.EntryFilesCount | src/generateAndTrackFunctionList.ts:12-17 | one entry yields one path per file below it |
| Extract.ArrowBindingNamesExact | src/generateAndTrackFunctionList.ts:37-46 | a declarator contributes its name exactly when its id is an identifier and its initialiser an arrow function; function expressions, missing initialisers and destructuring targets contribute nothing |
| Extract.NamesInNodesExact | src/generateAndTrackFunctionList.ts:31-48 | a name is collected from a sequence of nodes exactly when some node at any depth defines it |
| Extract.NamesInNodeExact | src/generateAndTrackFunctionList.ts:31-48 | a name is collected from a node exactly when the node or a descendant defines it; an anonymous function declaration defines nothing |
| Extract.NamesInDeclaratorsExact | src/generateAndTrackFunctionList.ts:31-48 | names inside the declarators are collected exactly when a node inside a destructuring pattern or an initialiser defines them |
| Extract.NamesInDeclaratorExact | src/generateAndTrackFunctionList.ts:31-48 | the same for one declarator: the nodes of its pattern, then of its initialiser |
| Extract.FileFunctionNames | src/generateAndTrackFunctionList.ts:22-51 | the file's name set has no duplicates and holds exactly the names some node of the program defines |
| Extract.VisitVariableDeclaration | src/generateAndTrackFunctionList.ts:37-46 | the visitor adds the arrow-bound names of the declarators, in order, to the set |
| Extract.TraverseNodes | src/generateAndTrackFunctionList.ts:31-48 | traversing a node sequence adds exactly its collected names, in visiting order |
| Extract.TraverseNode | src/generateAndTrackFunctionList.ts:31-48 | traversing one node runs its own visitor before its children and adds exactly its collected names |
| Extract.TraverseDeclarators | src/generateAndTrackFunctionList.ts:31-48 | traversing the declarators in order adds exactly the names collected inside them |
| Extract.TraverseDeclarator | src/generateAndTrackFunctionList.ts:31-48 | traversing one declarator enters its pattern before its initialiser and adds exactly the names collected inside them |
| Extract.ExtractNamedFunctionsFromSource | src/generateAndTrackFunctionList.ts:22-51 | returns the program's name set |
| InsertionSet.Add | src/generateAndTrackFunctionList.ts:65 | `Set.add`: membership gains exactly the new name, the old elements stay a prefix, and there are still no duplicates |
| InsertionSet.AddAll | src/generateAndTrackFunctionList.ts:65 | adding many names: membership is the union, the old set is a prefix, and there are no duplicates |
| InsertionSet.AddAllConcat | src/generateAndTrackFunctionList.ts:59-66 | adding two batches one after the other is adding them together |
| InsertionSet.AddAllPresent | src/generateAndTrackFunctionList.ts:65 | adding names that are already members changes nothing |
| FunctionList.BuildCorrect | src/generateAndTrackFunctionList.ts:53-70 | the build fails exactly when some `.js`/`.ts` file cannot be read or parsed, with the first such file's error; otherwise the list has no duplicates and holds exactly the names defined in some source file |
| FunctionList.GenerateFunctionListForCodebase | src/generateAndTrackFunctionList.ts:53-70 | the loop computes the build of the walked file list, stopping at the first failure |
| FunctionList.LoadFileFunctions | src/generateAndTrackFunctionList.ts:60-66 | one iteration: skip a non-source file, fail on an unreadable or unparsable one, else add its names |
| FunctionList.Without | src/generateAndTrackFunctionList.ts:87-90 | the filter's elements are exactly those of the list not dropped, in the list's order, and a duplicate-free list stays duplicate-free |
| FunctionList.WithoutCounts | src/generateAndTrackFunctionList.ts:87-90 | every copy of an element not dropped stays and every copy of a dropped one goes, so a repeated name in the parsed previous list is removed as often as it occurs |
| FunctionList.Diff | src/generateAndTrackFunctionList.ts:87-90 | `added` is the new names not previously listed and `removed` the listed names no longer present; each is ordered like its source and the two are disjoint |
| FunctionList.NoChangeIffSameNames | src/generateAndTrackFunctionList.ts:87-95 | both diff lists are empty exactly when the new set and the previous list have the same elements |
| FunctionList.HistoryAfter | src/generateAndTrackFunctionList.ts:72-112 | the history is untouched exactly when the names are unchanged; otherwise it gains one record `{now, added, removed}` at the end, with earlier records kept and a missing history treated as empty |
| FunctionList.FirstRunRecordsEverything | src/generateAndTrackFunctionList.ts:77-111 | with no previous list and no history, a non-empty inventory records one entry listing every name as added and none as removed |
| FunctionList.WithoutNothing | src/generateAndTrackFunctionList.ts:87-90 | filtering by a list that shares no element with the input keeps the input unchanged, repeats and order included |
| FunctionList.RerunRecordsNothing | src/generateAndTrackFunctionList.ts:92-95 | comparing the list just written with itself leaves the history untouched |
| FunctionList.InventoryFiles.UpdateFunctionsListHistory | src/generateAndTrackFunctionList.ts:72-112 | the history file becomes the history after this inventory, and the current list is not touched |
| FunctionList.InventoryFiles.WriteFunctionsListToFile | src/generateAndTrackFunctionList.ts:114-123 | the current list file becomes exactly the set's elements in insertion order |
| FunctionList.InventoryFiles.GenerateAndTrackFunctionList | src/generateAndTrackFunctionList.ts:126-146 | a failed build writes nothing and returns its error; otherwise the history is updated against the old list first, then the list is overwritten |
| FunctionList.RunTwice | src/tests/generateAndTrackFunctionList.test.ts:37-61 | two runs over an unchanged tree leave the list and history as the first run made them: the second run records nothing |
| TestHistory.RegressionFlag | src/runTestsAndUpdate.ts:71-87 | the flag is always "Yes" or "No" |
| TestHistory.RegressionAfterPass | src/runTestsAndUpdate.ts:75-87 | a failure recorded right after a passed result of the same ID is flagged "Yes" |
| TestHistory.RegressionNeedsEarlierResult | src/runTestsAndUpdate.ts:71-87 | a result that is not a failure, or the first result of an ID, is flagged "No" |
| TestHistory.FailedLineCanReadAsPassed | src/runTestsAndUpdate.ts:79-86 | the pass test is a substring match over the whole line: for any history and any result whose test name contains "Status: passed", whatever its status, the next failure of that ID is flagged as a regression |
| TestHistory.ResultStringShows | src/runTestsAndUpdate.ts:90-96 | the stored line contains "Status: " followed by the status, so a pass is detectable later, and it ends with "Regression detected: " and the flag |
| TestHistory.ResultStringEndsWithFlag | src/runTestsAndUpdate.ts:90-96 | the stored line ends with "Regression detected: " and the flag |
| TestHistory.AppendEntryMeaning | src/runTestsAndUpdate.ts:98-103 | the ID's list becomes the new line followed by the old list (a one-element list for a new ID), one longer; every other ID keeps its list |
| TestHistory.FirstWord | src/runTestsAndUpdate.ts:161 | the ID is the longest space-free prefix of the test's full name |
| TestHistory.ToTestResult | src/runTestsAndUpdate.ts:161-167 | the result carries the ID, the full name as message, and the duration or 0 when it is missing |
| TestHistory.DynamicUpdate | src/runTestsAndUpdate.ts:169-177 | the update sets exactly the five status fields |
| TestHistory.UpdatedEntryMeaning | src/runTestsAndUpdate.ts:169-182 | the merged entry keeps every other field; "Passed"/"Yes" exactly for a passed status and "Failed"/"No" otherwise; the output is the test name and both times are `now` |
| TestHistory.UpdateTrackerMeaning | src/runTestsAndUpdate.ts:179-182 | only the result's ID entry changes, becoming the merged object; all other IDs are untouched |
| TestHistory.FoldConcat | src/runTestsAndUpdate.ts:157-186 | processing the assertions of one suite after those of the earlier suites is processing them all in order |
| TestHistory.TrackerAfterAllTouchesOnlyTested | src/runTestsAndUpdate.ts:157-186 | after a run every ID with a result has a tracker entry, and the entries of all other IDs are as before |
| TestHistory.TrackerAfterAllConcat | src/runTestsAndUpdate.ts:157-186 | tracker updates of two batches compose into those of the concatenation |
| TestHistory.HistoryAfterAllConcat | src/runTestsAndUpdate.ts:157-186 | history appends of two batches compose into those of the concatenation |
| TestHistory.HistoryAfterAllGrowth | src/runTestsAndUpdate.ts:157-186 | after a run an ID has history exactly when it had some or got a result, and its list grew by exactly its number of results |
| TestHistory.TestRunFiles.ReadTrackerFile | src/runTestsAndUpdate.ts:24-32 | an unreadable or unparsable tracker reads as `{}`, otherwise as its content |
| TestHistory.TestRunFiles.WriteTrackerFile | src/runTestsAndUpdate.ts:34-40 | the tracker file becomes the given data |
| TestHistory.TestRunFiles.EnsureHistoryFile | src/runTestsAndUpdate.ts:42-57 | a missing or unparsable history file is created as `{}` and returned; an existing one is returned unchanged |
| TestHistory.TestRunFiles.AppendTestHistory | src/runTestsAndUpdate.ts:59-111 | the history file becomes the old map (or `{}` when unreadable) with the flagged result line prepended for the ID |
| TestHistory.TestRunFiles.ProcessAssertion | src/runTestsAndUpdate.ts:158-185 | one assertion updates the in-memory tracker and appends its line to the history file |
| TestHistory.TestRunFiles.ProcessSuite | src/runTestsAndUpdate.ts:158-185 | one suite's assertions are processed in order |
| TestHistory.TestRunFiles.RunJestTests | src/runTestsAndUpdate.ts:150-188 | without test results nothing is written; otherwise the history has one appended line per assertion and the tracker is written once, with every assertion applied in order |
| Text.NatToString | src/runTestsAndUpdate.ts:94-95 | a duration renders as decimal digits with no leading zero whose value is the number |
| Text.IntToString | src/runTestsAndUpdate.ts:94-95 | a negative number renders with a leading minus sign, any other without; the rest is decimal digits whose value is the magnitude |
| PostScriptChecks.ReadJsonFile | src/postScriptChecks.ts:10-18 | an absent or unparsable file is an error naming its path, never a fallback value |
| PostScriptChecks.KindOfMeaning | src/postScriptChecks.ts:63-78 | a `null` entry throws; an entry without a truthy ID lacks an ID; an entry whose tracker entry is missing or falsy, or has missing, falsy or zero-length `tests`, lacks tests |
| PostScriptChecks.ClassifyFailsOnNull | src/postScriptChecks.ts:63-65 | the check throws exactly when some entry is `null` |
| PostScriptChecks.ClassifyKeepsOrder | src/postScriptChecks.ts:59-79 | both lists are subsequences of the keys in visiting order |
| PostScriptChecks.ClassifyCollects | src/postScriptChecks.ts:63-78 | a key is in the missing-ID list exactly when its entry lacks an ID, and in the missing-tests list exactly when its entry has an ID but no tests; a complete entry is in neither |
| PostScriptChecks.ClassifyDisjoint | src/postScriptChecks.ts:63-79 | with distinct keys, no key lands in both lists |
| PostScriptChecks.CheckFunctionEntries | src/postScriptChecks.ts:58-89 | the loop computes the classification, and `success` holds exactly when both lists are empty |
| PostScriptChecks.NameListEntries | src/postScriptChecks.ts:63-64 | iterating the written array of names visits the index keys "0", "1", … with the names as entries |
| PostScriptChecks.IndexKeys | src/postScriptChecks.ts:63 | the keys `for…in` visits on an array of length n are the decimal indices below n |
| PostScriptChecks.NameListLacksIds | src/postScriptChecks.ts:55-79 | on the name array the inventory writes, every index lands in the missing-ID list and none in the missing-tests list |
| PostScriptChecks.EnsureFunctionTestsAndIDs | src/postScriptChecks.ts:40-90 | a build failure propagates and writes nothing; otherwise the list and history are updated, an unreadable tracker is an error, and the result lists every index as missing its ID, succeeding only for an empty inventory |
| TestInit.Loaded | src/testInitAndSetup.ts:27-33 | an unreadable or unparsable tracker counts as `{}` |
| TestInit.InitEntryMeaning | src/testInitAndSetup.ts:35-39 | only the ID's entry changes; it becomes an object with every detail, keeping the old fields the details do not override; a new entry has exactly the details' keys and `FunctionalityID` |
| TestInit.InitEntryIdempotent | src/testInitAndSetup.ts:36-39 | applying the same details twice gives the same tracker as applying them once |
| TestInit.InitEntryCommutes | src/testInitAndSetup.ts:39 | initialising two different IDs gives the same tracker in either order; a property of the model that the source does not rely on |
| TestInit.RunSucceedsIff | src/testInitAndSetup.ts:58-65 | the CLI loop completes exactly when the arguments come in pairs and every details path names a loadable module |
| TestInit.RunFromTouchesOnlyIds | src/testInitAndSetup.ts:59-65 | a tracker key that is not an ID argument keeps its value, whatever the outcome |
| TestInit.RunFromCreatesIds | src/testInitAndSetup.ts:59-65 | after a completed run every ID argument has an entry |
| TestInit.RunFromKeepsKeys | src/testInitAndSetup.ts:59-65 | no run removes an entry |
| TestInit.TrackerFile.InitTest | src/testInitAndSetup.ts:21-47 | the tracker file becomes the merge of the details into the ID's entry of the tracker read (or `{}`) |
| TestInit.InitTestFromCLI | src/testInitAndSetup.ts:49-66 | the pairs are processed in order from index 0 by steps of two; the first odd leftover ID or unloadable path stops the run and earlier writes stay |

## Left out

- File I/O, `JSON.parse`/`JSON.stringify` text and console logging are not modelled. Files are values; an absent or unparsable file is `None`.
- `fs.readdir`/`fs.stat` failures in the walk are not modelled: the tree is given. `path.join` is plain `dir + "/" + name`, without normalisation.
- Babel's `parser.parse` and `traverse` are foreign code. The program is an abstract tree that keeps only function declarations, variable declarations (with destructuring patterns holding their inner nodes), arrow and function expressions and opaque other nodes. A parse failure is an error value that propagates.
- `new Date().toISOString()` is one parameter `now` per call. The source reads the clock separately for `LastTestTime`, `LastUpdated` and the history line; the model gives all three the same value.
- The Jest shell-out, test server start and stop, `testResults.json` cleanup and `process.exit` in `runJestTests` are not modelled. The parsed results come in as a parameter, `None` when missing.
- TestHistory.TestRunFiles.RunJestTests: processes any results it is given. In the source, `exec` rejects when Jest exits non-zero, which it does whenever a test fails, and the outer catch then ends the run before any result is processed. So runs with failed results, as covered by `RunJestTests` and `RegressionAfterPass`, are reached in the source only when `appendTestHistory` is called on its own.
- `performPostScriptChecks`, `runNewTests` and `validateExistingFunctionalityTests` only call other code and are not modelled. `src/server.ts`, the compiled `src/generateAndTrackFunctionList.js` and the commented-out `src/unimplementedRepoDiffUtil.ts` are not part of this model.
- Json.Spread: spreading a truthy non-object (an array or a string gives index keys) is modelled as spreading `{}`.
- Json.KeyOf: only integer numbers are rendered; JSON numbers are integers in this model.
- Tracker and history files whose top-level JSON is not an object (for example `null`, where indexing throws) are not modelled.
- FunctionList.InventoryFiles.GenerateAndTrackFunctionList: persisted files that parse but have the wrong shape are not modelled. The run succeeds whenever the build does. In the source, a `currentFunctionsList.json` holding `{}` or `null` makes `previousList.filter` throw, and a `functionsListHistory.json` holding `{}` makes `history.push` throw. In both cases the run rejects before the list is overwritten.
- TestHistory.TestRunFiles.AppendTestHistory: a `testHistory.json` entry that is not an array (for example a string, where `unshift` throws) is not modelled; every entry is a list of lines.
- TestHistory.AppendEntryMeaning, TestHistory.UpdateTrackerMeaning, TestInit.ExistingDetails, TestInit.InitEntryMeaning: IDs are ordinary map keys. In JavaScript, IDs that name members inherited from `Object.prototype` (`toString`, `constructor`, `hasOwnProperty`, `__proto__`, …) read the inherited value. For the history this makes `.includes` or `.unshift` throw, which ends the test run before the tracker is written. For `initTest` the inherited `constructor` function is spread in place of `{FunctionalityID: id}`, so the new entry has no `FunctionalityID`. The model does not capture these failures or lost keys.
- The details module that `require` loads is spread as a JSON value; JavaScript modules with non-JSON exports are not modelled.
- `for…in` over a parsed object visits integer-like keys first in JavaScript. The model takes the entries in the order they are visited.
- PostScriptChecks.EnsureFunctionTestsAndIDs: assumes that `generateAndTrackFunctionList` is exported to the check. It is not: `src/generateAndTrackFunctionList.ts` has no `export`, so the binding imported at `src/postScriptChecks.ts:5` is `undefined` under the repository's Babel setup, and the call at `src/postScriptChecks.ts:42` rejects with a TypeError on every input before any file is read (under `tsc` the import does not compile). Importing that file also runs its top-level call at line 151 on a hard-coded path. The model instead runs the intended inventory update and then classifies the entries.
- The post-script check reads back the inventory it has just written. Reading that file cannot fail in the model, so only the tracker read can raise the read error.
- The asynchronous scheduling of `initTestFromCLI`, and the unhandled promise rejection that ends it on an error, are modelled as a run that stops with an error result.
