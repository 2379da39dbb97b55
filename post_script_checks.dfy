/**
 * `ensureFunctionTestsAndIDs`: after regenerating the function list, sort
 * each entry of it into "missing functionality ID" or "missing tests" by
 * looking its ID up in the functionality tracker.
 */
module PostScriptChecks {
  import opened Wrappers
  import opened Text
  import opened Json
  import opened InsertionSet
  import opened FileWalk
  import opened FunctionList

  datatype CheckResults = CheckResults(success: bool, missingFunctionalityIDs: seq<string>, missingTests: seq<string>)

  /** Why the check rejects. */
  datatype CheckError =
    | BuildFailed(cause: BuildError)
    | ReadJsonFailed(message: string)
      /** Reading `functionalityID` of a `null` entry throws a `TypeError`. */
    | NullEntry(key: string)

  /**
   * `readJsonFile`: the parsed content, or an error naming the path when the
   * file is absent or does not parse; there is no fallback value.
   */
  function ReadJsonFile<T>(content: Option<T>, filePath: string): (r: Result<T, string>)
    ensures r.Failure? <==> content.None?
    ensures r.Success? ==> r.value == content.value
    ensures r.Failure? ==> r.error == "Failed to read JSON file at " + filePath
  {
    match content
    case Some(v) => Success(v)
    case None => Failure("Failed to read JSON file at " + filePath)
  }

  /** `!functionEntry.functionalityID` for an entry that is not `null`. */
  predicate LacksId(entry: Json) {
    var id := Property(entry, "functionalityID");
    id.None? || !Truthy(id.value)
  }

  /**
   * `tests.length === 0`: an empty array or string, or an object whose own
   * `length` property is the number 0; other values have no `length`.
   */
  predicate LengthIsZero(v: Json) {
    || (v.JArr? && v.items == [])
    || (v.JStr? && v.s == "")
    || (v.JObj? && "length" in v.fields && v.fields["length"] == JNum(0))
  }

  /** The tracker entry for `functionalityID` exists and has a non-empty `tests`. */
  predicate HasTests(tracker: map<string, Json>, functionalityID: Json) {
    var entry := Lookup(tracker, KeyOf(functionalityID));
    entry.Some? && Truthy(entry.value) &&
    var tests := Property(entry.value, "tests");
    tests.Some? && Truthy(tests.value) && !LengthIsZero(tests.value)
  }

  /** The keys the `for…in` loop visits, in order. */
  function Keys(entries: seq<(string, Json)>): (keys: seq<string>)
    ensures |keys| == |entries|
    ensures forall i :: 0 <= i < |entries| ==> keys[i] == entries[i].0
  {
    if entries == [] then [] else Keys(entries[..|entries| - 1]) + [entries[|entries| - 1].0]
  }

  /** How the loop treats one entry of the function list. */
  datatype EntryKind = NullEntryKind | NoId | NoTests | Complete

  function KindOf(entry: Json, tracker: map<string, Json>): (kind: EntryKind) {
    if entry.JNull? then NullEntryKind
    else if LacksId(entry) then NoId
    else if !HasTests(tracker, Property(entry, "functionalityID").value) then NoTests
    else Complete
  }

  /**
   * A `null` entry throws; an entry without a truthy `functionalityID` lacks
   * an ID; an entry whose ID has no tracker entry, or one without non-empty
   * `tests`, lacks tests.
   */
  lemma KindOfMeaning(entry: Json, tracker: map<string, Json>)
    ensures KindOf(entry, tracker) == NullEntryKind <==> entry.JNull?
    ensures KindOf(entry, tracker) == NoId <==> !entry.JNull? && LacksId(entry)
    ensures KindOf(entry, tracker) == NoTests <==>
      !entry.JNull? && !LacksId(entry) && !HasTests(tracker, Property(entry, "functionalityID").value)
  {
  }

  /** The verdict on each entry, in loop order. */
  function KindsOf(entries: seq<(string, Json)>, tracker: map<string, Json>): (kinds: seq<EntryKind>)
    ensures |kinds| == |entries|
    ensures forall i :: 0 <= i < |entries| ==> kinds[i] == KindOf(entries[i].1, tracker)
  {
    seq(|entries|, i requires 0 <= i < |entries| => KindOf(entries[i].1, tracker))
  }

  /**
   * Sorting `keys` into the two lists by their entries' verdicts, in order;
   * the first key with a `null` entry stops the loop.
   */
  function Sort(keys: seq<string>, kinds: seq<EntryKind>): (r: Result<(seq<string>, seq<string>), CheckError>)
    requires |keys| == |kinds|
  {
    if keys == [] then Success(([], []))
    else
      match Sort(keys[..|keys| - 1], kinds[..|kinds| - 1])
      case Failure(e) => Failure(e)
      case Success(lists) => SortOne(lists, keys[|keys| - 1], kinds[|kinds| - 1])
  }

  /** One iteration of the loop. */
  function SortOne(lists: (seq<string>, seq<string>), key: string, kind: EntryKind)
    : (r: Result<(seq<string>, seq<string>), CheckError>)
  {
    var (missingIds, missingTests) := lists;
    match kind
    case NullEntryKind => Failure(NullEntry(key))
    case NoId => Success((missingIds + [key], missingTests))
    case NoTests => Success((missingIds, missingTests + [key]))
    case Complete => Success((missingIds, missingTests))
  }

  /**
   * The loop of `ensureFunctionTestsAndIDs` over the (key, entry) pairs of
   * the function list: the two lists it fills, or the first `null` entry.
   */
  function Classify(entries: seq<(string, Json)>, tracker: map<string, Json>)
    : (r: Result<(seq<string>, seq<string>), CheckError>)
  {
    Sort(Keys(entries), KindsOf(entries, tracker))
  }

  lemma SortStep(keys: seq<string>, kinds: seq<EntryKind>, i: nat)
    requires |keys| == |kinds| && i < |keys| && Sort(keys[..i], kinds[..i]).Success?
    ensures Sort(keys[..i + 1], kinds[..i + 1]) == SortOne(Sort(keys[..i], kinds[..i]).value, keys[i], kinds[i])
  {
    assert keys[..i + 1][..i] == keys[..i];
    assert kinds[..i + 1][..i] == kinds[..i];
  }

  lemma {:induction false} SortStopsAtFailure(keys: seq<string>, kinds: seq<EntryKind>, k: nat)
    requires |keys| == |kinds| && k <= |keys| && Sort(keys[..k], kinds[..k]).Failure?
    ensures Sort(keys, kinds) == Sort(keys[..k], kinds[..k])
    decreases |keys| - k
  {
    if k < |keys| {
      assert keys[..k + 1][..k] == keys[..k];
      assert kinds[..k + 1][..k] == kinds[..k];
      SortStopsAtFailure(keys, kinds, k + 1);
    } else {
      assert keys[..k] == keys && kinds[..k] == kinds;
    }
  }

  lemma {:induction false} SortFailsOnNull(keys: seq<string>, kinds: seq<EntryKind>)
    requires |keys| == |kinds|
    ensures Sort(keys, kinds).Failure? <==> NullEntryKind in kinds
  {
    if keys != [] {
      var n := |keys| - 1;
      SortFailsOnNull(keys[..n], kinds[..n]);
      assert kinds == kinds[..n] + [kinds[n]];
    }
  }

  lemma {:induction false} SortKeepsOrder(keys: seq<string>, kinds: seq<EntryKind>)
    requires |keys| == |kinds| && Sort(keys, kinds).Success?
    ensures IsSubsequence(Sort(keys, kinds).value.0, keys)
    ensures IsSubsequence(Sort(keys, kinds).value.1, keys)
  {
    if keys != [] {
      var n := |keys| - 1;
      SortKeepsOrder(keys[..n], kinds[..n]);
      assert keys == keys[..n] + [keys[n]];
      var (m, t) := Sort(keys[..n], kinds[..n]).value;
      var (m', t') := Sort(keys, kinds).value;
      SubsequenceStep(m, m', keys[..n], keys[n]);
      SubsequenceStep(t, t', keys[..n], keys[n]);
    }
  }

  /** A key lands in the list for `kind` exactly when its verdict is `kind`. */
  lemma {:induction false} SortCollects(keys: seq<string>, kinds: seq<EntryKind>)
    requires |keys| == |kinds| && Sort(keys, kinds).Success?
    ensures forall k :: k in Sort(keys, kinds).value.0 <==> exists i :: 0 <= i < |keys| && keys[i] == k && kinds[i] == NoId
    ensures forall k :: k in Sort(keys, kinds).value.1 <==> exists i :: 0 <= i < |keys| && keys[i] == k && kinds[i] == NoTests
  {
    if keys != [] {
      var n := |keys| - 1;
      var keys0, kinds0 := keys[..n], kinds[..n];
      SortCollects(keys0, kinds0);
      assert forall i :: 0 <= i < n ==> keys0[i] == keys[i] && kinds0[i] == kinds[i];
      var (m, t) := Sort(keys0, kinds0).value;
      var (m', t') := Sort(keys, kinds).value;
      forall k | k in m' ensures exists i :: 0 <= i < |keys| && keys[i] == k && kinds[i] == NoId {
        if k !in m {
          assert keys[n] == k && kinds[n] == NoId;
        }
      }
      forall k | k in t' ensures exists i :: 0 <= i < |keys| && keys[i] == k && kinds[i] == NoTests {
        if k !in t {
          assert keys[n] == k && kinds[n] == NoTests;
        }
      }
    }
  }

  lemma SortAllNoId(keys: seq<string>, kinds: seq<EntryKind>)
    requires |keys| == |kinds|
    requires forall i :: 0 <= i < |kinds| ==> kinds[i] == NoId
    ensures Sort(keys, kinds) == Success((keys, []))
  {
    for k := 0 to |keys|
      invariant Sort(keys[..k], kinds[..k]) == Success((keys[..k], []))
    {
      SortStep(keys, kinds, k);
      assert keys[..k + 1] == keys[..k] + [keys[k]];
    }
    assert keys[..|keys|] == keys && kinds[..|kinds|] == kinds;
  }

  /** The check fails exactly when some entry is `null`. */
  lemma ClassifyFailsOnNull(entries: seq<(string, Json)>, tracker: map<string, Json>)
    ensures Classify(entries, tracker).Failure? <==> exists i :: 0 <= i < |entries| && entries[i].1.JNull?
  {
    var kinds := KindsOf(entries, tracker);
    SortFailsOnNull(Keys(entries), kinds);
    if NullEntryKind in kinds {
      var i :| 0 <= i < |kinds| && kinds[i] == NullEntryKind;
      assert entries[i].1.JNull?;
    }
    if exists i :: 0 <= i < |entries| && entries[i].1.JNull? {
      var i :| 0 <= i < |entries| && entries[i].1.JNull?;
      assert kinds[i] == NullEntryKind;
    }
  }

  /** Both lists keep the order in which the loop visits the keys. */
  lemma ClassifyKeepsOrder(entries: seq<(string, Json)>, tracker: map<string, Json>)
    requires Classify(entries, tracker).Success?
    ensures IsSubsequence(Classify(entries, tracker).value.0, Keys(entries))
    ensures IsSubsequence(Classify(entries, tracker).value.1, Keys(entries))
  {
    SortKeepsOrder(Keys(entries), KindsOf(entries, tracker));
  }

  /**
   * Exactly the entries without a truthy `functionalityID` land in the first
   * list, exactly those with an ID but no tests in the tracker in the second.
   */
  lemma ClassifyCollects(entries: seq<(string, Json)>, tracker: map<string, Json>)
    requires Classify(entries, tracker).Success?
    ensures forall k :: k in Classify(entries, tracker).value.0 <==>
      exists i :: 0 <= i < |entries| && entries[i].0 == k && KindOf(entries[i].1, tracker) == NoId
    ensures forall k :: k in Classify(entries, tracker).value.1 <==>
      exists i :: 0 <= i < |entries| && entries[i].0 == k && KindOf(entries[i].1, tracker) == NoTests
  {
    SortCollects(Keys(entries), KindsOf(entries, tracker));
  }

  /** With distinct keys (as for…in visits them), no key lands in both lists. */
  lemma ClassifyDisjoint(entries: seq<(string, Json)>, tracker: map<string, Json>, k: string)
    requires Distinct(Keys(entries))
    requires Classify(entries, tracker).Success?
    ensures !(k in Classify(entries, tracker).value.0 && k in Classify(entries, tracker).value.1)
  {
    SortDisjoint(Keys(entries), KindsOf(entries, tracker), k);
  }

  lemma SortDisjoint(keys: seq<string>, kinds: seq<EntryKind>, k: string)
    requires |keys| == |kinds| && Distinct(keys) && Sort(keys, kinds).Success?
    ensures !(k in Sort(keys, kinds).value.0 && k in Sort(keys, kinds).value.1)
  {
    SortCollects(keys, kinds);
  }

  /** The loop of `ensureFunctionTestsAndIDs` and the result object it builds. */
  method CheckFunctionEntries(currentFunctions: seq<(string, Json)>, functionalityTracker: map<string, Json>)
    returns (r: Result<CheckResults, CheckError>)
    ensures Classify(currentFunctions, functionalityTracker).Failure? ==>
      r == Failure(Classify(currentFunctions, functionalityTracker).error)
    ensures Classify(currentFunctions, functionalityTracker).Success? ==>
      var (missingIds, missingTests) := Classify(currentFunctions, functionalityTracker).value;
      r == Success(CheckResults(missingIds == [] && missingTests == [], missingIds, missingTests))
  {
    ghost var keys, kinds := Keys(currentFunctions), KindsOf(currentFunctions, functionalityTracker);
    var missingFunctionalityIDs := [];
    var missingTests := [];
    for i := 0 to |currentFunctions|
      invariant Sort(keys[..i], kinds[..i]) == Success((missingFunctionalityIDs, missingTests))
    {
      var (functionName, functionEntry) := currentFunctions[i];
      SortStep(keys, kinds, i);
      if functionEntry.JNull? {
        r := Failure(NullEntry(functionName));
        SortStopsAtFailure(keys, kinds, i + 1);
        return;
      }
      var id := Property(functionEntry, "functionalityID");
      if id.None? || !Truthy(id.value) {
        missingFunctionalityIDs := missingFunctionalityIDs + [functionName];
        continue;
      }
      var functionalityEntry := Lookup(functionalityTracker, KeyOf(id.value));
      if functionalityEntry.None? || !Truthy(functionalityEntry.value) {
        missingTests := missingTests + [functionName];
      } else {
        var tests := Property(functionalityEntry.value, "tests");
        if tests.None? || !Truthy(tests.value) || LengthIsZero(tests.value) {
          missingTests := missingTests + [functionName];
        }
      }
    }
    assert keys[..|keys|] == keys && kinds[..|kinds|] == kinds;
    r := Success(CheckResults(
      |missingFunctionalityIDs| == 0 && |missingTests| == 0,
      missingFunctionalityIDs,
      missingTests));
  }

  /**
   * What `for…in` visits in the list `writeFunctionsListToFile` writes: an
   * array of name strings, keyed by index.
   */
  function NameListEntries(names: seq<string>): (entries: seq<(string, Json)>)
    ensures |entries| == |names|
    ensures forall i :: 0 <= i < |names| ==> entries[i] == (NatToString(i), JStr(names[i]))
  {
    seq(|names|, i requires 0 <= i < |names| => (NatToString(i), JStr(names[i])))
  }

  /** The index keys `"0"`, `"1"`, … of an array of length `n`. */
  function IndexKeys(n: nat): (keys: seq<string>)
    ensures |keys| == n
    ensures forall i :: 0 <= i < n ==> keys[i] == NatToString(i)
  {
    if n == 0 then [] else IndexKeys(n - 1) + [NatToString(n - 1)]
  }

  /**
   * On the list of names the inventory writes, every entry is a string with
   * no `functionalityID`: each index lands in the missing-ID list, none in
   * the missing-tests list, and the check succeeds only for an empty list.
   */
  lemma NameListLacksIds(names: seq<string>, tracker: map<string, Json>)
    ensures Classify(NameListEntries(names), tracker) == Success((IndexKeys(|names|), []))
  {
    var entries := NameListEntries(names);
    NameListKeys(names);
    NameListKinds(names, tracker);
    SortAllNoId(Keys(entries), KindsOf(entries, tracker));
  }

  lemma NameListKeys(names: seq<string>)
    ensures Keys(NameListEntries(names)) == IndexKeys(|names|)
  {
  }

  /** A string entry has no properties, so in particular no `functionalityID`. */
  lemma NameListKinds(names: seq<string>, tracker: map<string, Json>)
    ensures forall i :: 0 <= i < |names| ==> KindsOf(NameListEntries(names), tracker)[i] == NoId
  {
    var entries := NameListEntries(names);
    forall i | 0 <= i < |names| ensures KindsOf(entries, tracker)[i] == NoId {
      StringLacksId(names[i], tracker);
    }
  }

  lemma StringLacksId(s: string, tracker: map<string, Json>)
    ensures KindOf(JStr(s), tracker) == NoId
  {
    assert Property(JStr(s), "functionalityID").None?;
  }

  /**
   * `ensureFunctionTestsAndIDs(basePath)`: regenerate and track the function
   * list, read it back with the tracker, and classify its entries.
   */
  method EnsureFunctionTestsAndIDs(files: InventoryFiles, basePath: string, tree: seq<FsEntry>, sources: Sources,
                                   now: string, trackerFile: Option<map<string, Json>>)
    returns (r: Result<CheckResults, CheckError>)
    modifies files
    ensures Inventory(basePath, tree, sources).Failure? ==>
      r == Failure(BuildFailed(Inventory(basePath, tree, sources).error)) &&
      files.currentList == old(files.currentList) && files.history == old(files.history)
    ensures Inventory(basePath, tree, sources).Success? ==>
      var names := Inventory(basePath, tree, sources).value;
      && files.currentList == Some(names)
      && files.history == HistoryAfter(names, old(files.currentList), old(files.history), now)
      && (trackerFile.None? ==>
            r == Failure(ReadJsonFailed("Failed to read JSON file at " + Join(basePath, "functionalityTracker.json"))))
      && (trackerFile.Some? ==> r == Success(CheckResults(names == [], IndexKeys(|names|), [])))
  {
    var generated := files.GenerateAndTrackFunctionList(basePath, tree, sources, now);
    if generated.Failure? {
      r := Failure(BuildFailed(generated.error));
      return;
    }
    // The list was written just above; it reads back as the same array.
    var currentFunctions := NameListEntries(files.currentList.value);
    var trackerRead := ReadJsonFile(trackerFile, Join(basePath, "functionalityTracker.json"));
    if trackerRead.Failure? {
      r := Failure(ReadJsonFailed(trackerRead.error));
      return;
    }
    NameListLacksIds(generated.value, trackerRead.value);
    r := CheckFunctionEntries(currentFunctions, trackerRead.value);
  }
}
