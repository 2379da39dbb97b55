/**
 * `runTestsAndUpdate`: fold the test runner's per-assertion results into the
 * functionality tracker (five status fields per functionality) and into the
 * test history (one line per result, newest first, with a regression flag).
 * The two JSON files are the fields of `TestRunFiles`.
 */
module TestHistory {
  import opened Wrappers
  import opened Text
  import opened Json

  /** The `TestResult` record built for one assertion. */
  datatype TestResult = TestResult(functionalityID: string, status: string, message: string, duration: int)

  /** `testHistory.json`: result lines per functionality ID, newest first. */
  type History = map<string, seq<string>>

  /** `functionalityTracker.json`: one entry per functionality ID. */
  type Tracker = map<string, Json>

  /** One element of a suite's `assertionResults`; `duration` may be missing. */
  datatype AssertionResult = AssertionResult(fullName: string, status: string, duration: Option<int>)

  /** One element of the runner's `testResults`. */
  datatype TestSuite = TestSuite(assertionResults: seq<AssertionResult>)

  /** The regression flag of `appendTestHistory`. */
  function RegressionFlag(history: History, functionalityID: string, status: string): (flag: string)
    ensures flag == "Yes" || flag == "No"
  {
    if functionalityID in history && |history[functionalityID]| > 0 &&
       Contains(history[functionalityID][0], "Status: passed") && status == "failed"
    then "Yes"
    else "No"
  }

  /**
   * The history line `appendTestHistory` stores for a result:
   * `<now>: Test '<id>' - Status: <status>, Message: '<message>', Duration: <duration>ms, Regression detected: <flag>`.
   */
  function ResultString(now: string, r: TestResult, regressionDetected: string): (line: string)
  {
    LineHead(now, r) + ("Status: " + r.status) + LineTail(r, regressionDetected)
  }

  function LineHead(now: string, r: TestResult): (head: string) {
    now + ": Test '" + r.functionalityID + "' - "
  }

  function LineTail(r: TestResult, regressionDetected: string): (tail: string) {
    ", Message: '" + r.message + "', Duration: " + IntToString(r.duration) + "ms, " +
    ("Regression detected: " + regressionDetected)
  }

  /** A line shows its result's status and ends with its regression flag. */
  lemma ResultStringShows(now: string, r: TestResult, flag: string)
    ensures Contains(ResultString(now, r, flag), "Status: " + r.status)
    ensures EndsWith(ResultString(now, r, flag), "Regression detected: " + flag)
  {
    ContainsMiddle(LineHead(now, r), "Status: " + r.status, LineTail(r, flag));
    ResultStringEndsWithFlag(now, r, flag);
  }

  lemma ResultStringEndsWithFlag(now: string, r: TestResult, flag: string)
    ensures EndsWith(ResultString(now, r, flag), "Regression detected: " + flag)
  {
    var tail := "Regression detected: " + flag;
    var front := LineHead(now, r) + ("Status: " + r.status) +
      (", Message: '" + r.message + "', Duration: " + IntToString(r.duration) + "ms, ");
    EndsWithAppended(front, tail);
    assert ResultString(now, r, flag) == front + tail;
  }

  /**
   * `appendTestHistory` on the history map: the new line goes in front of
   * the ID's list (an absent ID starts an empty one); nothing else changes.
   */
  function AppendEntry(history: History, functionalityID: string, r: TestResult, now: string): (h: History)
  {
    var lines := if functionalityID in history then history[functionalityID] else [];
    history[functionalityID := [ResultString(now, r, RegressionFlag(history, functionalityID, r.status))] + lines]
  }

  /**
   * After `appendTestHistory` the ID has a list whose first line is the new
   * result's (flagged against the old newest line) followed by its old list;
   * every other ID keeps its list.
   */
  lemma AppendEntryMeaning(history: History, functionalityID: string, r: TestResult, now: string)
    ensures var h := AppendEntry(history, functionalityID, r, now);
      && h.Keys == history.Keys + {functionalityID}
      && (forall k :: k in history && k != functionalityID ==> h[k] == history[k])
      && (functionalityID in history ==> |h[functionalityID]| == |history[functionalityID]| + 1)
      && (functionalityID !in history ==> |h[functionalityID]| == 1)
      && h[functionalityID][0] == ResultString(now, r, RegressionFlag(history, functionalityID, r.status))
      && h[functionalityID][1..] == if functionalityID in history then history[functionalityID] else []
  {
  }

  /** A failure recorded right after a pass of the same ID is flagged as a regression. */
  lemma RegressionAfterPass(history: History, functionalityID: string, passed: TestResult, now: string)
    requires passed.status == "passed"
    ensures RegressionFlag(AppendEntry(history, functionalityID, passed, now), functionalityID, "failed") == "Yes"
  {
    AppendEntryMeaning(history, functionalityID, passed, now);
    ResultStringShows(now, passed, RegressionFlag(history, functionalityID, passed.status));
    assert "Status: " + passed.status == "Status: passed";
  }

  /** Only a failure can be a regression, and never the first result of an ID. */
  lemma RegressionNeedsEarlierResult(history: History, functionalityID: string, status: string)
    requires status != "failed" || functionalityID !in history || history[functionalityID] == []
    ensures RegressionFlag(history, functionalityID, status) == "No"
  {
  }

  /**
   * The pass marker is a substring test over the whole previous line, so a
   * failed result whose test name contains it reads as a pass: a second
   * failure of that test is flagged as a regression.
   */
  lemma FailedLineCanReadAsPassed(history: History, functionalityID: string, r: TestResult, now: string)
    requires Contains(r.message, "Status: passed")
    ensures RegressionFlag(AppendEntry(history, functionalityID, r, now), functionalityID, "failed") == "Yes"
  {
    var flag := RegressionFlag(history, functionalityID, r.status);
    AppendEntryMeaning(history, functionalityID, r, now);
    var marker := "Status: passed";
    // LineTail(r, flag) is ", Message: '" + message, extended on the right four times.
    var part := ", Message: '" + r.message;
    ContainsExtendLeft(", Message: '", r.message, marker);
    ContainsExtendRight(part, "', Duration: ", marker);
    part := part + "', Duration: ";
    ContainsExtendRight(part, IntToString(r.duration), marker);
    part := part + IntToString(r.duration);
    ContainsExtendRight(part, "ms, ", marker);
    part := part + "ms, ";
    ContainsExtendRight(part, "Regression detected: " + flag, marker);
    part := part + ("Regression detected: " + flag);
    assert part == LineTail(r, flag);
    ContainsExtendLeft(LineHead(now, r) + ("Status: " + r.status), LineTail(r, flag), marker);
  }

  /** `result.fullName.split(" ")[0]`: the text before the first space. */
  function FirstWord(s: string): (w: string)
    ensures w <= s && ' ' !in w
    ensures |w| == |s| || s[|w|] == ' '
  {
    if s == [] || s[0] == ' ' then [] else [s[0]] + FirstWord(s[1..])
  }

  /** The `TestResult` built for one assertion: a missing duration becomes 0. */
  function ToTestResult(a: AssertionResult): (r: TestResult)
    ensures r.functionalityID == FirstWord(a.fullName) && r.message == a.fullName
    ensures r.duration == if a.duration.Some? then a.duration.value else 0
  {
    TestResult(FirstWord(a.fullName), a.status, a.fullName, a.duration.GetOr(0))
  }

  /** The five fields each result overwrites in its tracker entry. */
  const DynamicKeys: set<string> :=
    {"LastTestResult", "LastTestTime", "LastTestOutput", "LastOutputMatchesExpected", "LastUpdated"}

  function DynamicUpdate(r: TestResult, now: string): (u: map<string, Json>)
    ensures u.Keys == DynamicKeys
  {
    map[
      "LastTestResult" := JStr(if r.status == "passed" then "Passed" else "Failed"),
      "LastTestTime" := JStr(now),
      "LastTestOutput" := JStr(r.message),
      "LastOutputMatchesExpected" := JStr(if r.status == "passed" then "Yes" else "No"),
      "LastUpdated" := JStr(now)
    ]
  }

  /**
   * `{...entry, ...dynamicUpdate}`: the entry keeps its other fields and
   * gets the five status fields of the result.
   */
  function UpdatedEntry(entry: Option<Json>, r: TestResult, now: string): (fields: map<string, Json>)
  {
    Spread(entry) + DynamicUpdate(r, now)
  }

  /**
   * The merged entry keeps every field outside the five status fields and
   * sets those from the result: `Passed`/`Failed` and `Yes`/`No` by its
   * status, its output, and the time of the run.
   */
  lemma UpdatedEntryMeaning(entry: Option<Json>, r: TestResult, now: string)
    ensures var e := UpdatedEntry(entry, r, now);
      && e.Keys == Spread(entry).Keys + DynamicKeys
      && (forall k :: k in Spread(entry) && k !in DynamicKeys ==> e[k] == Spread(entry)[k])
      && (e["LastTestResult"] == JStr("Passed") <==> r.status == "passed")
      && (e["LastTestResult"] == JStr("Failed") <==> r.status != "passed")
      && (e["LastOutputMatchesExpected"] == JStr("Yes") <==> r.status == "passed")
      && (e["LastOutputMatchesExpected"] == JStr("No") <==> r.status != "passed")
      && e["LastTestOutput"] == JStr(r.message)
      && e["LastTestTime"] == JStr(now) && e["LastUpdated"] == JStr(now)
  {
  }

  /**
   * `trackerData[functionalityID] = {...}` for one assertion: only the entry
   * of the assertion's ID changes, and it becomes an object.
   */
  function UpdateTracker(tracker: Tracker, a: AssertionResult, now: string): (t: Tracker)
  {
    var r := ToTestResult(a);
    tracker[r.functionalityID := JObj(UpdatedEntry(Lookup(tracker, r.functionalityID), r, now))]
  }

  lemma UpdateTrackerMeaning(tracker: Tracker, a: AssertionResult, now: string)
    ensures var t := UpdateTracker(tracker, a, now);
      && t.Keys == tracker.Keys + {FirstWord(a.fullName)}
      && (forall k :: k in tracker && k != FirstWord(a.fullName) ==> t[k] == tracker[k])
      && t[FirstWord(a.fullName)] == JObj(UpdatedEntry(Lookup(tracker, FirstWord(a.fullName)), ToTestResult(a), now))
  {
  }

  /** All assertions of all suites, in the order the nested loops visit them. */
  function Flatten(suites: seq<TestSuite>): (results: seq<AssertionResult>)
  {
    if suites == [] then []
    else Flatten(suites[..|suites| - 1]) + suites[|suites| - 1].assertionResults
  }

  /** Applying `step` to `s` and each element of `xs` in turn. */
  function Fold<S, T>(step: (S, T) -> S, s: S, xs: seq<T>): (acc: S)
  {
    if xs == [] then s else step(Fold(step, s, xs[..|xs| - 1]), xs[|xs| - 1])
  }

  /** Folding two batches one after the other is folding them together. */
  lemma {:induction false} FoldConcat<S, T>(step: (S, T) -> S, s: S, xs: seq<T>, ys: seq<T>)
    ensures Fold(step, Fold(step, s, xs), ys) == Fold(step, s, xs + ys)
    decreases |ys|
  {
    if ys == [] {
      assert xs + ys == xs;
    } else {
      var ys', y := ys[..|ys| - 1], ys[|ys| - 1];
      FoldConcat(step, s, xs, ys');
      assert (xs + ys)[..|xs + ys| - 1] == xs + ys';
    }
  }

  lemma FoldStep<S, T>(step: (S, T) -> S, s: S, xs: seq<T>, j: nat)
    requires j < |xs|
    ensures Fold(step, s, xs[..j + 1]) == step(Fold(step, s, xs[..j]), xs[j])
  {
    assert xs[..j + 1][..j] == xs[..j];
  }

  function TrackerStep(now: string): (Tracker, AssertionResult) -> Tracker {
    (t: Tracker, a: AssertionResult) => UpdateTracker(t, a, now)
  }

  function HistoryStep(now: string): (Option<History>, AssertionResult) -> Option<History> {
    (h: Option<History>, a: AssertionResult) =>
      Some(AppendEntry(h.GetOr(map[]), ToTestResult(a).functionalityID, ToTestResult(a), now))
  }

  /** The tracker after the loop has processed `results`. */
  function TrackerAfterAll(tracker: Tracker, results: seq<AssertionResult>, now: string): (t: Tracker)
  {
    Fold(TrackerStep(now), tracker, results)
  }

  /**
   * `testHistory.json` after one `appendTestHistory` per result; it is not
   * touched when there are no results, and read as `{}` when absent or unparsable.
   */
  function HistoryAfterAll(history: Option<History>, results: seq<AssertionResult>, now: string): (h: Option<History>)
  {
    Fold(HistoryStep(now), history, results)
  }

  /**
   * The tracker after a run has an entry for every ID that had a result and
   * leaves the entries of all other IDs as they were.
   */
  lemma {:induction false} TrackerAfterAllTouchesOnlyTested(tracker: Tracker, results: seq<AssertionResult>,
                                                          now: string, id: string)
    ensures ResultCount(results, id) > 0 ==> id in TrackerAfterAll(tracker, results, now)
    ensures ResultCount(results, id) == 0 ==>
      (id in TrackerAfterAll(tracker, results, now) <==> id in tracker) &&
      (id in tracker ==> TrackerAfterAll(tracker, results, now)[id] == tracker[id])
  {
    if results != [] {
      var init := results[..|results| - 1];
      TrackerAfterAllTouchesOnlyTested(tracker, init, now, id);
      UpdateTrackerMeaning(TrackerAfterAll(tracker, init, now), results[|results| - 1], now);
    }
  }

  /** Processing two batches of results one after the other is processing them together. */
  lemma TrackerAfterAllConcat(tracker: Tracker, xs: seq<AssertionResult>, ys: seq<AssertionResult>, now: string)
    ensures TrackerAfterAll(TrackerAfterAll(tracker, xs, now), ys, now) == TrackerAfterAll(tracker, xs + ys, now)
  {
    FoldConcat(TrackerStep(now), tracker, xs, ys);
  }

  lemma HistoryAfterAllConcat(history: Option<History>, xs: seq<AssertionResult>, ys: seq<AssertionResult>, now: string)
    ensures HistoryAfterAll(HistoryAfterAll(history, xs, now), ys, now) == HistoryAfterAll(history, xs + ys, now)
  {
    FoldConcat(HistoryStep(now), history, xs, ys);
  }

  /** The number of results among `results` that belong to `id`. */
  function ResultCount(results: seq<AssertionResult>, id: string): (n: nat)
  {
    if results == [] then 0
    else ResultCount(results[..|results| - 1], id) + if FirstWord(results[|results| - 1].fullName) == id then 1 else 0
  }

  /**
   * After a run an ID has history lines exactly when it had some before or
   * had a result, and its list grew by exactly its number of results.
   */
  lemma {:induction false} HistoryAfterAllGrowth(history: Option<History>, results: seq<AssertionResult>,
                                               now: string, id: string)
    ensures var h := HistoryAfterAll(history, results, now);
      (h.Some? && id in h.value) <==> (ResultCount(results, id) > 0 || (history.Some? && id in history.value))
    ensures var h := HistoryAfterAll(history, results, now);
      h.Some? && id in h.value ==>
        |h.value[id]| == (if history.Some? && id in history.value then |history.value[id]| else 0) +
                         ResultCount(results, id)
  {
    if results != [] {
      var init, a := results[..|results| - 1], results[|results| - 1];
      HistoryAfterAllGrowth(history, init, now, id);
      AppendEntryMeaning(HistoryAfterAll(history, init, now).GetOr(map[]), ToTestResult(a).functionalityID, ToTestResult(a), now);
    }
  }

  /** The tracker and history files; `None` when absent or unparsable. */
  class TestRunFiles {
    /** `functionalityTracker.json` */
    var tracker: Option<Tracker>
    /** `testHistory.json` */
    var history: Option<History>

    constructor (tracker: Option<Tracker>, history: Option<History>)
      ensures this.tracker == tracker && this.history == history
    {
      this.tracker := tracker;
      this.history := history;
    }

    /** `readTrackerFile`: an unreadable or unparsable tracker reads as `{}`. */
    method ReadTrackerFile() returns (trackerData: Tracker)
      ensures tracker.None? ==> trackerData == map[]
      ensures tracker.Some? ==> trackerData == tracker.value
    {
      trackerData := if tracker.Some? then tracker.value else map[];
    }

    /** `writeTrackerFile` */
    method WriteTrackerFile(trackerData: Tracker)
      modifies this`tracker
      ensures tracker == Some(trackerData)
    {
      tracker := Some(trackerData);
    }

    /** `ensureHistoryFile`: a missing or unparsable history file is created as `{}`. */
    method EnsureHistoryFile() returns (historyData: History)
      modifies this`history
      ensures old(history).None? ==> historyData == map[] && history == Some(map[])
      ensures old(history).Some? ==> historyData == old(history).value && history == old(history)
    {
      if history.Some? {
        historyData := history.value;
      } else {
        historyData := map[];
        history := Some(historyData);
      }
    }

    /** `appendTestHistory`: read (as `{}` on failure), prepend the result line, write back. */
    method AppendTestHistory(functionalityID: string, testResult: TestResult, now: string)
      modifies this`history
      ensures history == Some(AppendEntry(old(history).GetOr(map[]), functionalityID, testResult, now))
    {
      var historyData: History := if history.Some? then history.value else map[];
      ghost var before := historyData;
      var regressionDetected := "No";
      if functionalityID in historyData && |historyData[functionalityID]| > 0 {
        var lastResultString := historyData[functionalityID][0];
        if Contains(lastResultString, "Status: passed") && testResult.status == "failed" {
          regressionDetected := "Yes";
        }
      }
      var resultString := ResultString(now, testResult, regressionDetected);
      if functionalityID !in historyData {
        historyData := historyData[functionalityID := []];
      }
      assert resultString == ResultString(now, testResult, RegressionFlag(before, functionalityID, testResult.status));
      historyData := historyData[functionalityID := [resultString] + historyData[functionalityID]];
      assert historyData == AppendEntry(before, functionalityID, testResult, now);
      history := Some(historyData);
    }

    /** The body of the inner loop of `runJestTests`, for one assertion. */
    method ProcessAssertion(result: AssertionResult, trackerData: Tracker, now: string) returns (updated: Tracker)
      modifies this`history
      ensures updated == UpdateTracker(trackerData, result, now)
      ensures history == Some(AppendEntry(old(history).GetOr(map[]), FirstWord(result.fullName), ToTestResult(result), now))
    {
      var functionalityID := FirstWord(result.fullName);
      var testResult := TestResult(functionalityID, result.status, result.fullName,
                                   if result.duration.Some? then result.duration.value else 0);
      var dynamicUpdate := DynamicUpdate(testResult, now);
      updated := trackerData[functionalityID := JObj(Spread(Lookup(trackerData, functionalityID)) + dynamicUpdate)];
      AppendTestHistory(functionalityID, testResult, now);
    }

    /** The inner loop of `runJestTests`, over one suite's assertions. */
    method ProcessSuite(results: seq<AssertionResult>, trackerData: Tracker, now: string) returns (updated: Tracker)
      modifies this`history
      ensures updated == TrackerAfterAll(trackerData, results, now)
      ensures history == HistoryAfterAll(old(history), results, now)
    {
      updated := trackerData;
      for j := 0 to |results|
        invariant updated == TrackerAfterAll(trackerData, results[..j], now)
        invariant history == HistoryAfterAll(old(history), results[..j], now)
      {
        FoldStep(TrackerStep(now), trackerData, results, j);
        FoldStep(HistoryStep(now), old(history), results, j);
        updated := ProcessAssertion(results[j], updated, now);
      }
      assert results[..|results|] == results;
    }

    /**
     * The result-processing part of `runJestTests`, given the runner's
     * parsed `testResults` (`None` when missing): without results nothing
     * is written; otherwise each assertion updates the tracker and appends
     * to the history, and the tracker is written once at the end.
     */
    method RunJestTests(testResults: Option<seq<TestSuite>>, now: string)
      modifies this
      ensures testResults.None? ==> tracker == old(tracker) && history == old(history)
      ensures testResults.Some? ==>
        tracker == Some(TrackerAfterAll(old(tracker).GetOr(map[]), Flatten(testResults.value), now)) &&
        history == HistoryAfterAll(old(history), Flatten(testResults.value), now)
    {
      var trackerData := ReadTrackerFile();
      if testResults.None? {
        return;
      }
      var suites := testResults.value;
      ghost var tracker0 := trackerData;
      for i := 0 to |suites|
        invariant tracker == old(tracker)
        invariant trackerData == TrackerAfterAll(tracker0, Flatten(suites[..i]), now)
        invariant history == HistoryAfterAll(old(history), Flatten(suites[..i]), now)
      {
        ghost var done := Flatten(suites[..i]);
        assert suites[..i + 1][..i] == suites[..i];
        assert Flatten(suites[..i + 1]) == done + suites[i].assertionResults;
        TrackerAfterAllConcat(tracker0, done, suites[i].assertionResults, now);
        HistoryAfterAllConcat(old(history), done, suites[i].assertionResults, now);
        trackerData := ProcessSuite(suites[i].assertionResults, trackerData, now);
      }
      assert suites[..|suites|] == suites;
      WriteTrackerFile(trackerData);
    }
  }
}
