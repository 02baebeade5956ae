/**
 * Walkplay bulk pull: one long-lived report listener accumulates filters,
 * the global gain and the current slot; after a sweep of eight read
 * requests the missing indices are asked for once more; then a poller
 * tags the result as complete or timed out.
 *
 * Time is not modelled. The reports that arrive during the sweep, during
 * the retry round, and between two polls of the final wait are given as
 * sequences; the 15-second deadline is the end of the last batch.
 */
module WalkplayPull {
  import opened PeqTypes
  import opened WalkplayFrames

  /** The variables pullFromDevice's listener closes over; filters is a sparse array. */
  datatype PullState = PullState(filters: map<nat, ParsedFilter>, globalGain: real, currentSlot: int)

  const Initial: PullState := PullState(map[], 0.0, -1)

  /**
   * The listener on one inbound report: a report of 32 bytes or more is a
   * filter stored at its index, one of 40 or more also carries the global
   * gain, and one of 37 or more the current slot at byte 36.
   */
  function Absorb(s: PullState, data: seq<Byte>): PullState
  {
    var filters := if |data| >= 32 then s.filters[data[4] := ParseFilterPacket(data).value] else s.filters;
    var globalGain := if |data| >= 40 then ParseGlobalGain(data) else s.globalGain;
    var currentSlot := if |data| >= 37 then data[36] as int else s.currentSlot;
    PullState(filters, globalGain, currentSlot)
  }

  function AbsorbAll(s: PullState, reports: seq<seq<Byte>>): PullState
    decreases |reports|
  {
    if reports == [] then s else AbsorbAll(Absorb(s, reports[0]), reports[1..])
  }

  lemma {:induction false} AbsorbAllAppend(s: PullState, a: seq<seq<Byte>>, b: seq<seq<Byte>>)
    ensures AbsorbAll(s, a + b) == AbsorbAll(AbsorbAll(s, a), b)
    decreases |a|
  {
    if a == [] {
      assert a + b == b;
    } else {
      assert (a + b)[0] == a[0] && (a + b)[1..] == a[1..] + b;
      AbsorbAllAppend(Absorb(s, a[0]), a[1..], b);
    }
  }

  /** Every stored filter sits at the index its own report names. */
  ghost predicate IndexedByOwnIndex(s: PullState)
  {
    forall k :: k in s.filters ==> s.filters[k].filterIndex == k
  }

  /**
   * The listener keeps filters at their own index, never forgets an index,
   * and a later report for an index replaces the earlier one.
   */
  lemma {:induction false} AbsorbAllKeepsIndexing(s: PullState, reports: seq<seq<Byte>>)
    requires IndexedByOwnIndex(s)
    ensures IndexedByOwnIndex(AbsorbAll(s, reports))
    ensures s.filters.Keys <= AbsorbAll(s, reports).filters.Keys
    ensures forall k :: k in AbsorbAll(s, reports).filters ==>
              (k < 256 || (k in s.filters && AbsorbAll(s, reports).filters[k] == s.filters[k]))
    decreases |reports|
  {
    if reports != [] {
      AbsorbAllKeepsIndexing(Absorb(s, reports[0]), reports[1..]);
    }
  }

  /** A later filter report for the same index overwrites the earlier one. */
  lemma LaterReportWins(s: PullState, older: seq<Byte>, newer: seq<Byte>)
    requires |older| >= 32 && |newer| >= 32 && older[4] == newer[4]
    ensures Absorb(Absorb(s, older), newer).filters[newer[4]] == ParseFilterPacket(newer).value
    ensures Absorb(Absorb(s, older), newer).filters.Keys == s.filters.Keys + {newer[4] as nat}
  {
  }

  /** The closure state as an object whose fields the listener updates in place. */
  class PullListener {
    var filters: map<nat, ParsedFilter>
    var globalGain: real
    var currentSlot: int

    function State(): PullState
      reads this
    {
      PullState(filters, globalGain, currentSlot)
    }

    constructor ()
      ensures State() == Initial
    {
      filters := map[];
      globalGain := 0.0;
      currentSlot := -1;
    }

    /** device.oninputreport during a pull. */
    method OnInputReport(data: seq<Byte>)
      modifies this
      ensures State() == Absorb(old(State()), data)
    {
      if |data| >= 32 {
        var filter := ParseFilterPacket(data).value;
        filters := filters[filter.filterIndex := filter];
      }
      if |data| >= 40 {
        globalGain := ParseGlobalGain(data);
      }
      if |data| >= 37 {
        currentSlot := data[36];
      }
    }

    /** Reports arriving one after the other. */
    method Deliver(reports: seq<seq<Byte>>)
      modifies this
      ensures State() == AbsorbAll(old(State()), reports)
    {
      var i := 0;
      while i < |reports|
        invariant 0 <= i <= |reports|
        invariant State() == AbsorbAll(old(State()), reports[..i])
      {
        AbsorbAllAppend(old(State()), reports[..i], [reports[i]]);
        assert reports[..i + 1] == reports[..i] + [reports[i]];
        OnInputReport(reports[i]);
        i := i + 1;
      }
      assert reports[..i] == reports;
    }
  }

  /** The read request for filter i. */
  function ReadFrame(i: nat): seq<Byte>
  {
    [READ, PEQ_VALUES, 0x00, 0x00, (i % 256) as Byte, END]
  }

  /** The first sweep: one read request per filter index, in order. */
  function SweepFrames(): (frames: seq<Report>)
    ensures |frames| == DEFAULT_FILTER_COUNT
  {
    seq(DEFAULT_FILTER_COUNT, i requires 0 <= i < DEFAULT_FILTER_COUNT => Report(REPORT_ID, ReadFrame(i)))
  }

  /** The retry round: one read request per missing index and nothing else. */
  function RetryFrames(missing: seq<nat>): (frames: seq<Report>)
    ensures |frames| == |missing|
  {
    seq(|missing|, j requires 0 <= j < |missing| => Report(REPORT_ID, ReadFrame(missing[j])))
  }

  /** m lists, in ascending order, exactly the indices below 8 with no stored filter. */
  ghost predicate IsMissingList(m: seq<nat>, filters: map<nat, ParsedFilter>)
  {
    && (forall j :: 0 <= j < |m| ==> m[j] < DEFAULT_FILTER_COUNT && m[j] !in filters)
    && (forall i: nat :: i < DEFAULT_FILTER_COUNT && i !in filters ==> i in m)
    && (forall j, k :: 0 <= j < k < |m| ==> m[j] < m[k])
  }

  /** The missingIndices loop of pullFromDevice. */
  method MissingIndices(filters: map<nat, ParsedFilter>) returns (missing: seq<nat>)
    ensures IsMissingList(missing, filters)
  {
    missing := [];
    var i := 0;
    while i < DEFAULT_FILTER_COUNT
      invariant 0 <= i <= DEFAULT_FILTER_COUNT
      invariant forall j :: 0 <= j < |missing| ==> missing[j] < i && missing[j] !in filters
      invariant forall k: nat :: k < i && k !in filters ==> k in missing
      invariant forall j, k :: 0 <= j < k < |missing| ==> missing[j] < missing[k]
    {
      if i !in filters {
        missing := missing + [i];
      }
      i := i + 1;
    }
  }

  /** waitForFilters' condition: the number of defined entries is exactly 8. */
  predicate Full(s: PullState)
  {
    |s.filters| == DEFAULT_FILTER_COUNT
  }

  /** The object waitForFilters resolves with, including the fields it adds. */
  datatype PullResult = PullResult(
    filters: map<nat, ParsedFilter>,
    globalGain: real,
    currentSlot: int,
    complete: bool,
    timedOut: bool,
    receivedCount: Option<nat>,
    expectedCount: Option<nat>)

  function Tag(s: PullState, complete: bool): PullResult
  {
    if complete then PullResult(s.filters, s.globalGain, s.currentSlot, true, false, None, None)
    else PullResult(s.filters, s.globalGain, s.currentSlot, false, true,
                    Some(|s.filters|), Some(DEFAULT_FILTER_COUNT))
  }

  /**
   * waitForFilters: after each batch of reports the poller checks the
   * condition and resolves complete when it holds; when the batches run out
   * the deadline fires and checks it one last time.
   */
  function Await(s: PullState, batches: seq<seq<seq<Byte>>>): PullResult
    decreases |batches|
  {
    if batches == [] then Tag(s, Full(s))
    else
      var t := AbsorbAll(s, batches[0]);
      if Full(t) then Tag(t, true) else Await(t, batches[1..])
  }

  /** All reports of the batches, in arrival order. */
  function Flatten(batches: seq<seq<seq<Byte>>>): seq<seq<Byte>>
    decreases |batches|
  {
    if batches == [] then [] else batches[0] + Flatten(batches[1..])
  }

  /**
   * The tagging: complete is the negation of timedOut; a complete result
   * holds exactly 8 entries; a timed-out one holds some other number, and
   * carries that number as receivedCount with expectedCount 8.
   */
  lemma {:induction false} AwaitTagging(s: PullState, batches: seq<seq<seq<Byte>>>)
    ensures var r := Await(s, batches);
      && r.complete == !r.timedOut
      && (r.complete ==> |r.filters| == DEFAULT_FILTER_COUNT && r.receivedCount.None?)
      && (r.timedOut ==> |r.filters| != DEFAULT_FILTER_COUNT
                         && r.receivedCount == Some(|r.filters|)
                         && r.expectedCount == Some(DEFAULT_FILTER_COUNT))
    decreases |batches|
  {
    if batches != [] {
      var t := AbsorbAll(s, batches[0]);
      if !Full(t) {
        AwaitTagging(t, batches[1..]);
      }
    }
  }

  /**
   * A pull that times out has taken in every report of every batch, so its
   * receivedCount is the number of distinct indices those reports filled:
   * six reports for six indices give receivedCount 6, never an error.
   */
  lemma {:induction false} TimedOutSeesEverything(s: PullState, batches: seq<seq<seq<Byte>>>)
    ensures var r := Await(s, batches);
      r.timedOut ==> r.filters == AbsorbAll(s, Flatten(batches)).filters
                     && r.receivedCount == Some(|AbsorbAll(s, Flatten(batches)).filters|)
    decreases |batches|
  {
    if batches != [] {
      var t := AbsorbAll(s, batches[0]);
      AbsorbAllAppend(s, batches[0], Flatten(batches[1..]));
      if !Full(t) {
        TimedOutSeesEverything(t, batches[1..]);
      }
    }
  }

  /** The stray-index scenario: replies for indices 0..6, then one for index 9. */
  function StrayIndex(i: nat): nat
  {
    if i < 7 then i else 9
  }

  /**
   * Completion is judged by count, not by index: eight filter replies for
   * indices 0..6 and a stray index 9 make the pull complete although
   * filter 7 never arrived.
   */
  lemma StrayIndexCompletes(reports: seq<seq<Byte>>)
    requires |reports| == DEFAULT_FILTER_COUNT
    requires forall i :: 0 <= i < |reports| ==> |reports[i]| >= 32 && reports[i][4] == StrayIndex(i)
    ensures var r := Await(Initial, [reports]); r.complete && 7 !in r.filters
  {
    var s := Initial;
    var i := 0;
    while i < DEFAULT_FILTER_COUNT
      invariant 0 <= i <= DEFAULT_FILTER_COUNT
      invariant AbsorbAll(s, reports[i..]) == AbsorbAll(Initial, reports)
      invariant |s.filters| == i
      invariant forall k: nat :: k in s.filters <==> ((k < i && k < 7) || (k == 9 && i == 8))
    {
      assert reports[i..][0] == reports[i] && reports[i..][1..] == reports[i + 1..];
      s := Absorb(s, reports[i]);
      i := i + 1;
    }
    assert reports[i..] == [];
    assert [reports][1..] == [];
  }

  /** waitForFilters over the listener's live state. */
  method WaitForFilters(listener: PullListener, batches: seq<seq<seq<Byte>>>) returns (result: PullResult)
    modifies listener
    ensures result == Await(old(listener.State()), batches)
    ensures result == Tag(listener.State(), result.complete)
  {
    var b := 0;
    while b < |batches|
      invariant 0 <= b <= |batches|
      invariant Await(old(listener.State()), batches) == Await(listener.State(), batches[b..])
    {
      listener.Deliver(batches[b]);
      assert batches[b..][1..] == batches[b + 1..];
      if Full(listener.State()) {
        return Tag(listener.State(), true);
      }
      b := b + 1;
    }
    result := Tag(listener.State(), Full(listener.State()));
  }

  /**
   * pullFromDevice: the sweep of eight read requests, the retry round for
   * the indices still missing after the sweep, then the tagged wait.
   * early holds the reports that arrive before the missing check,
   * duringRetry those that arrive while the retries go out.
   */
  method PullFromDevice(early: seq<seq<Byte>>, duringRetry: seq<seq<Byte>>, batches: seq<seq<seq<Byte>>>)
    returns (sent: seq<Report>, retried: seq<nat>, result: PullResult)
    ensures sent == SweepFrames() + RetryFrames(retried)
    ensures IsMissingList(retried, AbsorbAll(Initial, early).filters)
    ensures result == Await(AbsorbAll(AbsorbAll(Initial, early), duringRetry), batches)
  {
    var listener := new PullListener();
    sent := [];
    var i := 0;
    while i < DEFAULT_FILTER_COUNT
      invariant 0 <= i <= DEFAULT_FILTER_COUNT
      invariant sent == SweepFrames()[..i]
    {
      sent := sent + [Report(REPORT_ID, ReadFrame(i))];
      i := i + 1;
    }
    listener.Deliver(early);
    retried := MissingIndices(listener.filters);
    var j := 0;
    while j < |retried|
      invariant 0 <= j <= |retried|
      invariant sent == SweepFrames() + RetryFrames(retried)[..j]
    {
      sent := sent + [Report(REPORT_ID, ReadFrame(retried[j]))];
      j := j + 1;
    }
    listener.Deliver(duringRetry);
    result := WaitForFilters(listener, batches);
  }
}
