/**
 * `generateAndTrackFunctionList`: build the inventory of named functions
 * of a codebase, diff it against the previous inventory, append a change
 * record to the history when something changed, and overwrite the current
 * inventory. The two JSON files are the fields of `InventoryFiles`.
 */
module FunctionList {
  import opened Wrappers
  import opened Text
  import opened InsertionSet
  import opened FileWalk
  import opened Extract

  /** What reading and parsing a file yields: its syntax tree, or the parser's error. */
  datatype Source = Parsed(program: seq<Node>) | SyntaxError(message: string)

  /** Why building the inventory rejects: a file could not be read, or did not parse. */
  datatype BuildError = ReadFailed(path: string) | ParseFailed(path: string, message: string)

  /** One record of `functionsListHistory.json`. */
  datatype ChangeRecord = ChangeRecord(timestamp: string, added: seq<string>, removed: seq<string>)

  /** Only files ending in `.js` or `.ts` are read. */
  predicate IsSourcePath(path: string) {
    EndsWith(path, ".js") || EndsWith(path, ".ts")
  }

  /**
   * The files' contents, by path: `Parsed`/`SyntaxError` is the parser's
   * verdict on the text, and a path without an entry cannot be read.
   */
  type Sources = map<string, Source>

  /** Reading or parsing the source file `path` fails. */
  predicate FailsToLoad(path: string, sources: Sources) {
    path !in sources || sources[path].SyntaxError?
  }

  function LoadError(path: string, sources: Sources): (e: BuildError)
    requires FailsToLoad(path, sources)
  {
    if path !in sources then ReadFailed(path) else ParseFailed(path, sources[path].message)
  }

  /**
   * The loop of `generateFunctionListForCodebase` over `files`: the union of
   * the name sets of the source files, in insertion order, or the error of
   * the first source file that cannot be read or parsed.
   */
  function Build(files: seq<string>, sources: Sources): (r: Result<seq<string>, BuildError>)
  {
    if files == [] then Success([])
    else
      match Build(files[..|files| - 1], sources)
      case Failure(e) => Failure(e)
      case Success(names) => AddFile(names, files[|files| - 1], sources)
  }

  /** One iteration of that loop: skip a non-source file, else add its names. */
  function AddFile(names: seq<string>, file: string, sources: Sources): (r: Result<seq<string>, BuildError>)
  {
    if !IsSourcePath(file) then Success(names)
    else if FailsToLoad(file, sources) then Failure(LoadError(file, sources))
    else Success(AddAll(names, FileFunctionNames(sources[file].program)))
  }

  /** `name` is defined in a source file among `files` that parses. */
  ghost predicate DefinedInSome(files: seq<string>, sources: Sources, name: string) {
    exists i :: 0 <= i < |files| && IsSourcePath(files[i]) && files[i] in sources &&
      sources[files[i]].Parsed? && name in NamesInNodes(sources[files[i]].program)
  }

  /**
   * The build fails exactly when some source file fails to load, and then
   * with the first such file's error; otherwise the inventory holds each
   * name found in any source file exactly once. Files that are not `.js`
   * or `.ts` play no part.
   */
  lemma {:induction false} BuildCorrect(files: seq<string>, sources: Sources)
    ensures Build(files, sources).Failure? <==>
      exists i :: 0 <= i < |files| && IsSourcePath(files[i]) && FailsToLoad(files[i], sources)
    ensures Build(files, sources).Failure? ==>
      exists i :: 0 <= i < |files| && IsSourcePath(files[i]) && FailsToLoad(files[i], sources) &&
        Build(files, sources).error == LoadError(files[i], sources) &&
        forall j :: 0 <= j < i ==> !(IsSourcePath(files[j]) && FailsToLoad(files[j], sources))
    ensures Build(files, sources).Success? ==>
      Distinct(Build(files, sources).value) &&
      forall name :: name in Build(files, sources).value <==> DefinedInSome(files, sources, name)
  {
    if files != [] {
      var init, file := files[..|files| - 1], files[|files| - 1];
      BuildCorrect(init, sources);
      assert forall i :: 0 <= i < |init| ==> init[i] == files[i];
      var r := Build(files, sources);
      if Build(init, sources).Success? && r.Success? {
        forall name
          ensures name in r.value <==> DefinedInSome(files, sources, name)
        {
          if DefinedInSome(files, sources, name) {
            var i :| 0 <= i < |files| && IsSourcePath(files[i]) && files[i] in sources &&
              sources[files[i]].Parsed? && name in NamesInNodes(sources[files[i]].program);
            if i < |init| {
              assert DefinedInSome(init, sources, name);
            }
          }
          if DefinedInSome(init, sources, name) {
            var i :| 0 <= i < |init| && IsSourcePath(init[i]) && init[i] in sources &&
              sources[init[i]].Parsed? && name in NamesInNodes(sources[init[i]].program);
            assert files[i] == init[i];
          }
          if IsSourcePath(file) && name in NamesInNodes(sources[file].program) {
            assert files[|files| - 1] == file;
          }
        }
      }
      if r.Failure? && Build(init, sources).Success? {
        assert IsSourcePath(files[|init|]) && FailsToLoad(files[|init|], sources);
      }
    }
  }

  /**
   * `generateFunctionListForCodebase(directoryPath)` over the tree listed by
   * `entries`: the walk, then the loop over the source files.
   */
  method GenerateFunctionListForCodebase(directoryPath: string, entries: seq<FsEntry>, sources: Sources)
    returns (r: Result<seq<string>, BuildError>)
    ensures r == Build(FilesIn(directoryPath, entries), sources)
  {
    var allFiles := GetAllFiles(directoryPath, entries, []);
    assert allFiles == FilesIn(directoryPath, entries);
    var allNamedFunctions := [];
    for i := 0 to |allFiles|
      invariant Build(allFiles[..i], sources) == Success(allNamedFunctions)
    {
      BuildStep(allFiles, i, sources);
      var step := LoadFileFunctions(allNamedFunctions, allFiles[i], sources);
      if step.Failure? {
        r := step;
        BuildStopsAtFailure(allFiles, i + 1, sources);
        return;
      }
      allNamedFunctions := step.value;
    }
    assert allFiles[..|allFiles|] == allFiles;
    r := Success(allNamedFunctions);
  }

  /** The body of that loop for one file: read it, parse it, add its names. */
  method LoadFileFunctions(allNamedFunctions: seq<string>, file: string, sources: Sources)
    returns (r: Result<seq<string>, BuildError>)
    ensures r == AddFile(allNamedFunctions, file, sources)
  {
    if !IsSourcePath(file) {
      return Success(allNamedFunctions);
    }
    if file !in sources {
      return Failure(ReadFailed(file));
    }
    match sources[file]
    case SyntaxError(message) =>
      r := Failure(ParseFailed(file, message));
    case Parsed(program) =>
      var fileFunctions := ExtractNamedFunctionsFromSource(program);
      r := Success(AddAll(allNamedFunctions, fileFunctions));
  }

  /** Building one more file of `files` is one more `AddFile` step. */
  lemma BuildStep(files: seq<string>, i: nat, sources: Sources)
    requires i < |files| && Build(files[..i], sources).Success?
    ensures Build(files[..i + 1], sources) == AddFile(Build(files[..i], sources).value, files[i], sources)
  {
    assert files[..i + 1][..i] == files[..i];
  }

  /** Once a prefix of the files fails, the whole build fails with the same error. */
  lemma {:induction false} BuildStopsAtFailure(files: seq<string>, k: nat, sources: Sources)
    requires k <= |files| && Build(files[..k], sources).Failure?
    ensures Build(files, sources) == Build(files[..k], sources)
    decreases |files| - k
  {
    if k < |files| {
      assert files[..k + 1][..k] == files[..k];
      BuildStopsAtFailure(files, k + 1, sources);
    } else {
      assert files[..k] == files;
    }
  }

  /** The inventory of the codebase rooted at `root`. */
  function Inventory(root: string, entries: seq<FsEntry>, sources: Sources): (r: Result<seq<string>, BuildError>)
  {
    Build(FilesIn(root, entries), sources)
  }

  /** `s.filter(x => !drop.includes(x))` */
  function Without(s: seq<string>, drop: seq<string>): (r: seq<string>)
    ensures forall x :: x in r <==> x in s && x !in drop
    ensures IsSubsequence(r, s)
    ensures Distinct(s) ==> Distinct(r)
  {
    if s == [] then []
    else
      var init, x := s[..|s| - 1], s[|s| - 1];
      var r' := Without(init, drop);
      assert s == init + [x];
      if x in drop then
        SubsequenceExtend(r', init, x);
        r'
      else
        assert (r' + [x])[..|r'|] == r';
        assert Distinct(s) ==> x !in init && x !in r';
        r' + [x]
  }

  /** The filter keeps every copy of a kept element and no copy of a dropped one. */
  lemma {:induction false} WithoutCounts(s: seq<string>, drop: seq<string>, x: string)
    ensures multiset(Without(s, drop))[x] == if x in drop then 0 else multiset(s)[x]
  {
    if s != [] {
      var init, y := s[..|s| - 1], s[|s| - 1];
      WithoutCounts(init, drop, x);
      assert s == init + [y];
      assert multiset(s) == multiset(init) + multiset{y};
      if y !in drop {
        assert multiset(Without(init, drop) + [y]) == multiset(Without(init, drop)) + multiset{y};
      }
    }
  }

  /**
   * `added` and `removed` of a run: names of the new inventory absent from
   * the previous list, and entries of the previous list absent from the
   * new inventory, each in its list's order.
   */
  function Diff(newList: seq<string>, previous: seq<string>): (d: (seq<string>, seq<string>))
    ensures forall x :: x in d.0 <==> x in newList && x !in previous
    ensures forall x :: x in d.1 <==> x in previous && x !in newList
    ensures IsSubsequence(d.0, newList) && IsSubsequence(d.1, previous)
    ensures forall x :: !(x in d.0 && x in d.1)
  {
    (Without(newList, previous), Without(previous, newList))
  }

  /** A run records nothing exactly when the two lists hold the same names. */
  lemma NoChangeIffSameNames(newList: seq<string>, previous: seq<string>)
    ensures Diff(newList, previous) == ([], []) <==> (forall x :: x in newList <==> x in previous)
  {
    var d := Diff(newList, previous);
    if d.0 != [] {
      assert d.0[0] in d.0;
    }
    if d.1 != [] {
      assert d.1[0] in d.1;
    }
  }

  /** The previous list: an absent or unparsable `currentFunctionsList.json` counts as empty. */
  function PreviousList(current: Option<seq<string>>): (prev: seq<string>) {
    current.GetOr([])
  }

  /**
   * `functionsListHistory.json` after `updateFunctionsListHistory`: left
   * alone when nothing changed, otherwise the old history (empty when
   * absent or unparsable) with one record appended.
   */
  function HistoryAfter(newList: seq<string>, current: Option<seq<string>>,
                        history: Option<seq<ChangeRecord>>, now: string): (r: Option<seq<ChangeRecord>>)
    ensures r == history <==> forall x :: x in newList <==> x in PreviousList(current)
    ensures r != history ==>
      r.Some? && |r.value| == |history.GetOr([])| + 1 &&
      r.value[..|r.value| - 1] == history.GetOr([]) &&
      r.value[|r.value| - 1] == ChangeRecord(now, Diff(newList, PreviousList(current)).0,
                                                  Diff(newList, PreviousList(current)).1)
  {
    var (added, removed) := Diff(newList, PreviousList(current));
    NoChangeIffSameNames(newList, PreviousList(current));
    if added == [] && removed == [] then history
    else
      var h := history.GetOr([]) + [ChangeRecord(now, added, removed)];
      assert h[..|h| - 1] == history.GetOr([]);
      Some(h)
  }

  /**
   * First run: with no previous list and no history, the history becomes
   * one record that adds the whole inventory and removes nothing.
   */
  lemma FirstRunRecordsEverything(newList: seq<string>, now: string)
    requires newList != []
    ensures HistoryAfter(newList, None, None, now) == Some([ChangeRecord(now, newList, [])])
  {
    WithoutNothing(newList, []);
    assert newList[0] in newList;
  }

  lemma {:induction false} WithoutNothing(s: seq<string>, drop: seq<string>)
    requires forall x :: x in s ==> x !in drop
    ensures Without(s, drop) == s
  {
    if s != [] {
      WithoutNothing(s[..|s| - 1], drop);
      assert s == s[..|s| - 1] + [s[|s| - 1]];
    }
  }

  /** A run over an unchanged tree, after the list was written, appends no record. */
  lemma RerunRecordsNothing(newList: seq<string>, history: Option<seq<ChangeRecord>>, now: string)
    ensures HistoryAfter(newList, Some(newList), history, now) == history
  {
  }

  /** The inventory's two JSON files in the codebase root; `None` when absent or unparsable. */
  class InventoryFiles {
    /** `currentFunctionsList.json` */
    var currentList: Option<seq<string>>
    /** `functionsListHistory.json` */
    var history: Option<seq<ChangeRecord>>

    constructor (currentList: Option<seq<string>>, history: Option<seq<ChangeRecord>>)
      ensures this.currentList == currentList && this.history == history
    {
      this.currentList := currentList;
      this.history := history;
    }

    /** `updateFunctionsListHistory`: read the previous list, diff, and append a record if anything changed. */
    method UpdateFunctionsListHistory(newFunctionsList: seq<string>, now: string)
      modifies this`history
      ensures history == HistoryAfter(newFunctionsList, currentList, old(history), now)
    {
      var previousList := if currentList.Some? then currentList.value else [];
      var added := Without(newFunctionsList, previousList);
      var removed := Without(previousList, newFunctionsList);
      if added == [] && removed == [] {
        return;
      }
      var changes := ChangeRecord(now, added, removed);
      var h := if history.Some? then history.value else [];
      h := h + [changes];
      history := Some(h);
    }

    /** `writeFunctionsListToFile`: the list replaces the file's content, in insertion order. */
    method WriteFunctionsListToFile(functionsList: seq<string>)
      modifies this`currentList
      ensures currentList == Some(functionsList)
    {
      currentList := Some(functionsList);
    }

    /**
     * `generateAndTrackFunctionList(codebasePath)`: build; on success update
     * the history, then overwrite the current list. A failed build writes
     * nothing.
     */
    method GenerateAndTrackFunctionList(codebasePath: string, entries: seq<FsEntry>, sources: Sources, now: string)
      returns (r: Result<seq<string>, BuildError>)
      modifies this
      ensures r == Inventory(codebasePath, entries, sources)
      ensures r.Failure? ==> currentList == old(currentList) && history == old(history)
      ensures r.Success? ==>
        history == HistoryAfter(r.value, old(currentList), old(history), now) &&
        currentList == Some(r.value)
    {
      r := GenerateFunctionListForCodebase(codebasePath, entries, sources);
      if r.Failure? {
        return;
      }
      UpdateFunctionsListHistory(r.value, now);
      WriteFunctionsListToFile(r.value);
    }
  }

  /**
   * Running twice over an unchanged tree: the second run leaves both files
   * as the first run left them.
   */
  method RunTwice(files: InventoryFiles, root: string, entries: seq<FsEntry>, sources: Sources, now1: string, now2: string)
    modifies files
    ensures Inventory(root, entries, sources).Success? ==>
      files.currentList == Some(Inventory(root, entries, sources).value) &&
      files.history == HistoryAfter(Inventory(root, entries, sources).value, old(files.currentList), old(files.history), now1)
  {
    var first := files.GenerateAndTrackFunctionList(root, entries, sources, now1);
    var second := files.GenerateAndTrackFunctionList(root, entries, sources, now2);
    if first.Success? {
      RerunRecordsNothing(first.value, files.history, now2);
    }
  }
}
