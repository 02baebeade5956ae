/**
 * KTMicro (Tanchjim) USB HID frames. Each filter is two device fields:
 * gain and frequency at id 0x26 + 2i, q at the next id. A read asks for
 * both fields and merges the replies as they come; a push writes both
 * fields of every filter and then commits.
 */
module KtmicroFrames {
  import opened PeqTypes
  import opened ByteCodec

  const REPORT_ID: Byte := 0x4B
  const COMMAND_READ: Byte := 0x52
  const COMMAND_WRITE: Byte := 0x57
  const COMMAND_COMMIT: Byte := 0x53

  /** The slot every KTMicro device reports: it has a single one. */
  const SINGLE_SLOT: int := 101

  /** A JavaScript number that may be NaN: what `undefined + x` yields. */
  datatype Num = Finite(v: real) | NaN

  /** The field id of filter i's gain and frequency. */
  function GainFreqId(filterIndex: nat): nat
  {
    0x26 + 2 * filterIndex
  }

  /** The field id of filter i's q. */
  function QId(filterIndex: nat): nat
  {
    GainFreqId(filterIndex) + 1
  }

  /** Every field id belongs to exactly one filter and one kind. */
  lemma FieldIdsDistinct(i: nat, j: nat)
    ensures GainFreqId(i) != QId(j)
    ensures GainFreqId(i) == GainFreqId(j) <==> i == j
    ensures QId(i) == QId(j) <==> i == j
  {
  }

  /** buildReadPacket: the field id (stored mod 256), then READ at byte 4. */
  function ReadPacket(fieldId: nat): (p: seq<Byte>)
    ensures |p| == 9 && p[0] == fieldId % 256 && p[4] == COMMAND_READ
    ensures forall j :: 0 < j < 9 && j != 4 ==> p[j] == 0
  {
    [(fieldId % 256) as Byte, 0, 0, 0, COMMAND_READ, 0, 0, 0, 0]
  }

  /**
   * The gain of a gain/frequency reply: bytes 6-7 as a signed 16-bit
   * value, in tenths of a dB. `|` and `<<` read a missing byte as 0.
   */
  function DecodeGain(data: seq<Byte>): (gain: real)
    ensures gain * 10.0 == S16(ByteOr0(data, 6), ByteOr0(data, 7)) as real
    ensures -3276.8 <= gain < 3276.8
  {
    S16(ByteOr0(data, 6), ByteOr0(data, 7)) as real / 10.0
  }

  /** The frequency of a gain/frequency reply: byte 8 is added, so a reply without it has NaN. */
  function DecodeFreq(data: seq<Byte>): (freq: Num)
    ensures freq.NaN? <==> |data| <= 8
    ensures freq.Finite? ==> freq.v == U16(data[8], ByteOr0(data, 9)) as real
  {
    if |data| > 8 then Finite(U16(data[8], ByteOr0(data, 9)) as real) else NaN
  }

  /** decodeQResponse: bytes 6-7 unsigned, in thousandths; NaN when byte 6 is missing. */
  function DecodeQ(data: seq<Byte>): (q: Num)
    ensures q.NaN? <==> |data| <= 6
    ensures q.Finite? ==> q.v == U16(data[6], ByteOr0(data, 7)) as real / 1000.0
  {
    if |data| > 6 then Finite(U16(data[6], ByteOr0(data, 7)) as real / 1000.0) else NaN
  }

  /** A filter read back: always typed PK. */
  datatype KtFilter = KtFilter(filterType: FilterType, freq: Num, gain: real, q: Num)

  /**
   * The `result` object readFullFilter fills: a key is present once a
   * reply for it has been merged in.
   */
  datatype Pending = Pending(gain: Option<real>, freq: Option<Num>, q: Option<Num>)

  const Nothing: Pending := Pending(None, None, None)

  /** A read reply (byte 4 is READ) for the gain/frequency field of filter i. */
  predicate IsGainFreqReply(filterIndex: nat, data: seq<Byte>)
  {
    |data| > 4 && data[4] == COMMAND_READ && data[0] == GainFreqId(filterIndex)
  }

  /** A read reply for the q field of filter i. */
  predicate IsQReply(filterIndex: nat, data: seq<Byte>)
  {
    |data| > 4 && data[4] == COMMAND_READ && data[0] == QId(filterIndex)
  }

  /** The listener's Object.assign of one report into the pending result. */
  function Merge(filterIndex: nat, s: Pending, data: seq<Byte>): Pending
  {
    if IsGainFreqReply(filterIndex, data) then s.(gain := Some(DecodeGain(data)), freq := Some(DecodeFreq(data)))
    else if IsQReply(filterIndex, data) then s.(q := Some(DecodeQ(data)))
    else s
  }

  /** `'gain' in result && 'freq' in result && 'q' in result`. */
  predicate Complete(s: Pending)
  {
    s.gain.Some? && s.freq.Some? && s.q.Some?
  }

  function Finish(s: Pending): KtFilter
    requires Complete(s)
  {
    KtFilter(PK, s.freq.value, s.gain.value, s.q.value)
  }

  /**
   * The read of filter i over its window of inbound reports: the first
   * report after which the pending result is complete resolves the read;
   * a window that ends first is a timeout.
   */
  function ReadSpec(filterIndex: nat, s: Pending, window: seq<seq<Byte>>): Result<KtFilter>
    decreases |window|
  {
    if window == [] then Err(Timeout)
    else
      var t := Merge(filterIndex, s, window[0]);
      if Complete(t) then Ok(Finish(t)) else ReadSpec(filterIndex, t, window[1..])
  }

  /** A report that is not a read reply for one of filter i's two ids changes nothing. */
  lemma MergeIgnoresOthers(filterIndex: nat, s: Pending, data: seq<Byte>)
    requires !IsGainFreqReply(filterIndex, data) && !IsQReply(filterIndex, data)
    ensures Merge(filterIndex, s, data) == s
  {
  }

  /** A later reply for the same field overwrites the earlier one and leaves the other field alone. */
  lemma LaterReplyOverwrites(filterIndex: nat, s: Pending, earlier: seq<Byte>, later: seq<Byte>)
    requires IsGainFreqReply(filterIndex, earlier) && IsGainFreqReply(filterIndex, later)
    ensures var t := Merge(filterIndex, Merge(filterIndex, s, earlier), later);
      t.gain == Some(DecodeGain(later)) && t.freq == Some(DecodeFreq(later)) && t.q == s.q
  {
  }

  /**
   * A reply's id byte is compared with the unwrapped id 0x26 + 2i, so a
   * filter whose gain/frequency id passes 255 never gets a matching reply
   * and its read always times out.
   */
  lemma {:induction false} HighIdsNeverRead(filterIndex: nat, window: seq<seq<Byte>>)
    requires GainFreqId(filterIndex) >= 256
    ensures ReadSpec(filterIndex, Nothing, window) == Err(Timeout)
    decreases |window|
  {
    if window != [] {
      assert Merge(filterIndex, Nothing, window[0]) == Nothing;
      HighIdsNeverRead(filterIndex, window[1..]);
    }
  }

  /** gain and freq are always merged together. */
  ghost predicate GainWithFreq(s: Pending)
  {
    s.gain.Some? <==> s.freq.Some?
  }

  /**
   * A read completes exactly when its window holds a gain/frequency reply
   * and a q reply for the filter (or the pending result already has them).
   */
  lemma {:induction false} ReadCompletesIffBothSeen(filterIndex: nat, s: Pending, window: seq<seq<Byte>>)
    requires GainWithFreq(s) && !Complete(s)
    ensures ReadSpec(filterIndex, s, window).Ok? <==>
      (s.gain.Some? || exists j :: 0 <= j < |window| && IsGainFreqReply(filterIndex, window[j]))
      && (s.q.Some? || exists j :: 0 <= j < |window| && IsQReply(filterIndex, window[j]))
    decreases |window|
  {
    if window != [] {
      var t := Merge(filterIndex, s, window[0]);
      if !Complete(t) {
        ReadCompletesIffBothSeen(filterIndex, t, window[1..]);
        if exists j :: 0 <= j < |window| && IsGainFreqReply(filterIndex, window[j]) {
          var j :| 0 <= j < |window| && IsGainFreqReply(filterIndex, window[j]);
          if j > 0 { assert window[1..][j - 1] == window[j]; }
        }
        if exists j :: 0 <= j < |window| && IsQReply(filterIndex, window[j]) {
          var j :| 0 <= j < |window| && IsQReply(filterIndex, window[j]);
          if j > 0 { assert window[1..][j - 1] == window[j]; }
        }
        assert forall j :: 0 <= j < |window[1..]| ==> window[1..][j] == window[j + 1];
      }
    }
  }

  /**
   * A completed read is typed PK and carries the gain and frequency of a
   * gain/frequency reply of its window and the q of a q reply.
   */
  lemma {:induction false} ReadValueFromReplies(filterIndex: nat, window: seq<seq<Byte>>)
    ensures var r := ReadSpec(filterIndex, Nothing, window);
      r.Ok? ==>
        && r.value.filterType == PK
        && (exists j :: 0 <= j < |window| && IsGainFreqReply(filterIndex, window[j])
                        && r.value.gain == DecodeGain(window[j]) && r.value.freq == DecodeFreq(window[j]))
        && (exists j :: 0 <= j < |window| && IsQReply(filterIndex, window[j]) && r.value.q == DecodeQ(window[j]))
  {
    ReadValueFrom(filterIndex, Nothing, window);
  }

  /** Each present key of the pending result was decoded from some report merged so far. */
  ghost predicate FromReports(filterIndex: nat, s: Pending, seen: seq<seq<Byte>>)
  {
    && (s.gain.Some? ==> exists j :: 0 <= j < |seen| && IsGainFreqReply(filterIndex, seen[j])
                          && s.gain.value == DecodeGain(seen[j]) && s.freq == Some(DecodeFreq(seen[j])))
    && (s.q.Some? ==> exists j :: 0 <= j < |seen| && IsQReply(filterIndex, seen[j]) && s.q.value == DecodeQ(seen[j]))
  }

  lemma {:induction false} MergeFromReports(filterIndex: nat, s: Pending, seen: seq<seq<Byte>>, data: seq<Byte>)
    requires FromReports(filterIndex, s, seen)
    ensures FromReports(filterIndex, Merge(filterIndex, s, data), seen + [data])
  {
    var t := Merge(filterIndex, s, data);
    var all := seen + [data];
    assert all[|seen|] == data;
    if t.gain.Some? {
      if IsGainFreqReply(filterIndex, data) {
        assert IsGainFreqReply(filterIndex, all[|seen|]);
      } else {
        var j :| 0 <= j < |seen| && IsGainFreqReply(filterIndex, seen[j])
                 && s.gain.value == DecodeGain(seen[j]) && s.freq == Some(DecodeFreq(seen[j]));
        assert all[j] == seen[j];
      }
    }
    if t.q.Some? {
      if IsQReply(filterIndex, data) && !IsGainFreqReply(filterIndex, data) {
        assert IsQReply(filterIndex, all[|seen|]);
      } else {
        var j :| 0 <= j < |seen| && IsQReply(filterIndex, seen[j]) && s.q.value == DecodeQ(seen[j]);
        assert all[j] == seen[j];
      }
    }
  }

  lemma {:induction false} ReadValueFromAfter(filterIndex: nat, s: Pending, seen: seq<seq<Byte>>, window: seq<seq<Byte>>)
    requires FromReports(filterIndex, s, seen)
    ensures var r := ReadSpec(filterIndex, s, window);
      r.Ok? ==> exists t :: Complete(t) && r.value == Finish(t) && FromReports(filterIndex, t, seen + window)
    decreases |window|
  {
    if window != [] {
      var t := Merge(filterIndex, s, window[0]);
      MergeFromReports(filterIndex, s, seen, window[0]);
      assert seen + window == (seen + [window[0]]) + window[1..];
      if Complete(t) {
        FromReportsGrow(filterIndex, t, seen + [window[0]], window[1..]);
      } else {
        ReadValueFromAfter(filterIndex, t, seen + [window[0]], window[1..]);
      }
    }
  }

  lemma FromReportsGrow(filterIndex: nat, s: Pending, seen: seq<seq<Byte>>, more: seq<seq<Byte>>)
    requires FromReports(filterIndex, s, seen)
    ensures FromReports(filterIndex, s, seen + more)
  {
    var all := seen + more;
    if s.gain.Some? {
      var j :| 0 <= j < |seen| && IsGainFreqReply(filterIndex, seen[j])
               && s.gain.value == DecodeGain(seen[j]) && s.freq == Some(DecodeFreq(seen[j]));
      assert all[j] == seen[j];
    }
    if s.q.Some? {
      var j :| 0 <= j < |seen| && IsQReply(filterIndex, seen[j]) && s.q.value == DecodeQ(seen[j]);
      assert all[j] == seen[j];
    }
  }

  lemma ReadValueFrom(filterIndex: nat, s: Pending, window: seq<seq<Byte>>)
    requires s == Nothing
    ensures var r := ReadSpec(filterIndex, s, window);
      r.Ok? ==>
        && r.value.filterType == PK
        && (exists j :: 0 <= j < |window| && IsGainFreqReply(filterIndex, window[j])
                        && r.value.gain == DecodeGain(window[j]) && r.value.freq == DecodeFreq(window[j]))
        && (exists j :: 0 <= j < |window| && IsQReply(filterIndex, window[j]) && r.value.q == DecodeQ(window[j]))
  {
    ReadValueFromAfter(filterIndex, s, [], window);
    assert [] + window == window;
  }

  /** The pending result as an object whose keys the listener assigns in place. */
  class PendingFilter {
    const filterIndex: nat
    var gain: Option<real>
    var freq: Option<Num>
    var q: Option<Num>

    function State(): Pending
      reads this
    {
      Pending(gain, freq, q)
    }

    constructor (filterIndex: nat)
      ensures this.filterIndex == filterIndex && State() == Nothing
    {
      this.filterIndex := filterIndex;
      gain := None;
      freq := None;
      q := None;
    }

    /** The readFullFilter listener on one inbound report. */
    method OnInputReport(data: seq<Byte>)
      modifies this
      ensures State() == Merge(filterIndex, old(State()), data)
    {
      if |data| <= 4 || data[4] != COMMAND_READ {
        return;
      }
      if data[0] == GainFreqId(filterIndex) {
        gain := Some(DecodeGain(data));
        freq := Some(DecodeFreq(data));
      } else if data[0] == QId(filterIndex) {
        q := Some(DecodeQ(data));
      }
    }
  }

  /**
   * readFullFilter: requests both fields of filter i, then feeds the
   * window's reports to the listener until the result is complete.
   */
  method ReadFullFilter(filterIndex: nat, window: seq<seq<Byte>>) returns (sent: seq<Report>, result: Result<KtFilter>)
    ensures sent == [Report(REPORT_ID, ReadPacket(GainFreqId(filterIndex))), Report(REPORT_ID, ReadPacket(QId(filterIndex)))]
    ensures result == ReadSpec(filterIndex, Nothing, window)
  {
    var pending := new PendingFilter(filterIndex);
    sent := [Report(REPORT_ID, ReadPacket(GainFreqId(filterIndex))), Report(REPORT_ID, ReadPacket(QId(filterIndex)))];
    var j := 0;
    while j < |window|
      invariant 0 <= j <= |window|
      invariant ReadSpec(filterIndex, Nothing, window) == ReadSpec(filterIndex, pending.State(), window[j..])
    {
      assert window[j..][0] == window[j] && window[j..][1..] == window[j + 1..];
      pending.OnInputReport(window[j]);
      if Complete(pending.State()) {
        return sent, Ok(Finish(pending.State()));
      }
      j := j + 1;
    }
    result := Err(Timeout);
  }

  datatype PullOutcome = PullOutcome(filters: seq<KtFilter>, globalGain: real)

  /** The window of read i; a read with no window of its own sees no reply. */
  function Window(windows: seq<seq<seq<Byte>>>, i: nat): seq<seq<Byte>>
  {
    if i < |windows| then windows[i] else []
  }

  /** The two read requests of filters 0..n-1, in order: gain/frequency then q of each. */
  function ReadRequests(n: nat): (frames: seq<Report>)
    ensures |frames| == 2 * n
  {
    seq(2 * n, j requires 0 <= j < 2 * n => Report(REPORT_ID, ReadPacket(if j % 2 == 0 then GainFreqId(j / 2) else QId(j / 2))))
  }

  /**
   * pullFromDevice: reads filters 0..maxFilters-1 in turn and succeeds,
   * with global gain 0, exactly when every read completes; the first read
   * that does not ends the pull with Timeout.
   */
  method PullFromDevice(maxFilters: int, windows: seq<seq<seq<Byte>>>)
    returns (sent: seq<Report>, result: Result<PullOutcome>)
    ensures result.Ok? <==> forall i :: 0 <= i < maxFilters ==> ReadSpec(i, Nothing, Window(windows, i)).Ok?
    ensures result.Ok? ==>
              (&& sent == ReadRequests(if maxFilters < 0 then 0 else maxFilters)
               && result.value.globalGain == 0.0
               && |result.value.filters| == |sent| / 2
               && forall i :: 0 <= i < |result.value.filters| ==>
                    Ok(result.value.filters[i]) == ReadSpec(i, Nothing, Window(windows, i)))
    ensures result.Err? ==>
              (exists n :: 0 <= n < maxFilters && sent == ReadRequests(n + 1)
                           && ReadSpec(n, Nothing, Window(windows, n)).Err?
                           && forall k :: 0 <= k < n ==> ReadSpec(k, Nothing, Window(windows, k)).Ok?)
  {
    var filters: seq<KtFilter> := [];
    sent := [];
    var i := 0;
    while i < maxFilters
      invariant 0 <= i <= (if maxFilters < 0 then 0 else maxFilters)
      invariant sent == ReadRequests(i) && |filters| == i
      invariant forall k :: 0 <= k < i ==> Ok(filters[k]) == ReadSpec(k, Nothing, Window(windows, k))
    {
      var requests, filter := ReadFullFilter(i, Window(windows, i));
      sent := sent + requests;
      assert sent == ReadRequests(i + 1);
      if filter.Err? {
        return sent, Err(Timeout);
      }
      filters := filters + [filter.value];
      i := i + 1;
    }
    result := Ok(PullOutcome(filters, 0.0));
  }

  /** buildWritePacket: gain in tenths (signed) at bytes 6-7, rounded frequency at 8-9. */
  function WritePacket(fieldId: nat, freq: real, gain: real): (p: seq<Byte>)
    ensures |p| == 10 && p[0] == fieldId % 256 && p[4] == COMMAND_WRITE
    ensures p[1] == 0 && p[2] == 0 && p[3] == 0 && p[5] == 0
    ensures U16(p[6], p[7]) == Round(gain * 10.0) % 0x10000
    ensures U16(p[8], p[9]) == Round(freq) % 0x10000
  {
    var freqBytes := ToLittleEndianBytes(freq, 1.0);
    var gainBytes := ToSignedLittleEndianBytes(gain, 10.0);
    SignedBytesEqualUnsigned(gain, 10.0);
    assert freq * 1.0 == freq;
    [(fieldId % 256) as Byte, 0, 0, 0, COMMAND_WRITE, 0, gainBytes[0], gainBytes[1], freqBytes[0], freqBytes[1]]
  }

  /** buildQPacket: q in thousandths at bytes 6-7, bytes 8-9 zero. */
  function QPacket(fieldId: nat, q: real): (p: seq<Byte>)
    ensures |p| == 10 && p[0] == fieldId % 256 && p[4] == COMMAND_WRITE
    ensures p[1] == 0 && p[2] == 0 && p[3] == 0 && p[5] == 0 && p[8] == 0 && p[9] == 0
    ensures U16(p[6], p[7]) == Round(q * 1000.0) % 0x10000
  {
    var qBytes := ToLittleEndianBytes(q, 1000.0);
    [(fieldId % 256) as Byte, 0, 0, 0, COMMAND_WRITE, 0, qBytes[0], qBytes[1], 0, 0]
  }

  /** buildCommit: ten bytes, all zero except COMMIT at byte 4. */
  const CommitPacket: seq<Byte> := [0, 0, 0, 0, COMMAND_COMMIT, 0, 0, 0, 0, 0]

  /** The bytes 1.41 becomes in a q frame: 1410 is 0x0582. */
  lemma QBytesOf141()
    ensures QPacket(0x27, 1.41)[6] == 0x82 && QPacket(0x27, 1.41)[7] == 0x05
  {
    assert Round(1.41 * 1000.0) == 1410;
  }

  /** The bytes a gain of 3 dB (anything that rounds to 30 tenths) becomes in a gain/frequency frame. */
  lemma GainBytesOf3dB(fieldId: nat, freq: real, gain: real)
    requires Round(gain * 10.0) == 30
    ensures WritePacket(fieldId, freq, gain)[6] == 0x1E && WritePacket(fieldId, freq, gain)[7] == 0x00
  {
    var p := WritePacket(fieldId, freq, gain);
    assert U16(p[6], p[7]) == 30;
  }

  /** A device's read reply: the stored frame with READ at byte 4. */
  function Echo(frame: seq<Byte>): seq<Byte>
    requires |frame| > 4
  {
    frame[4 := COMMAND_READ]
  }

  /** Two bytes holding g mod 2^16 decode, signed, to g when g fits 16 signed bits. */
  lemma SignedFieldRoundTrip(lo: Byte, hi: Byte, g: int)
    requires -0x8000 <= g < 0x8000 && U16(lo, hi) == g % 0x10000
    ensures S16(lo, hi) == g
  {
    if g < 0 {
      DivModUnique(g, 0x10000, -1, g + 0x10000);
    } else {
      DivModUnique(g, 0x10000, 0, g);
    }
  }

  /** A frame holding g mod 2^16 at bytes 6-7 and n mod 2^16 at bytes 8-9 echoes back g tenths and n. */
  lemma GainFreqEcho(p: seq<Byte>, g: int, n: int)
    requires |p| == 10 && U16(p[6], p[7]) == g % 0x10000 && U16(p[8], p[9]) == n % 0x10000
    requires -0x8000 <= g < 0x8000 && 0 <= n < 0x10000
    ensures DecodeGain(Echo(p)) == g as real / 10.0
    ensures DecodeFreq(Echo(p)) == Finite(n as real)
  {
    SignedFieldRoundTrip(p[6], p[7], g);
    DivModUnique(n, 0x10000, 0, n);
    assert Echo(p)[6] == p[6] && Echo(p)[7] == p[7] && Echo(p)[8] == p[8] && Echo(p)[9] == p[9];
  }

  /** A frame holding n mod 2^16 at bytes 6-7 echoes back n thousandths as q. */
  lemma QEcho(p: seq<Byte>, n: int)
    requires |p| == 10 && U16(p[6], p[7]) == n % 0x10000 && 0 <= n < 0x10000
    ensures DecodeQ(Echo(p)) == Finite(n as real / 1000.0)
  {
    DivModUnique(n, 0x10000, 0, n);
    assert Echo(p)[6] == p[6] && Echo(p)[7] == p[7];
  }

  /**
   * Write then read: when the device answers filter i's two reads with the
   * two frames its push wrote, the read completes with the frequency
   * rounded, the gain rounded to a tenth and q rounded to a thousandth,
   * provided they fit the 16-bit fields and the ids fit a byte.
   */
  lemma WriteThenRead(filterIndex: nat, f: Filter)
    requires QId(filterIndex) < 256
    requires 0 <= Round(f.freq) < 0x10000
    requires -0x8000 <= Round(f.gain * 10.0) < 0x8000
    requires 0 <= Round(f.q * 1000.0) < 0x10000
    ensures ReadSpec(filterIndex, Nothing,
                     [Echo(WritePacket(GainFreqId(filterIndex), f.freq, f.gain)),
                      Echo(QPacket(QId(filterIndex), f.q))])
         == Ok(KtFilter(PK, Finite(Round(f.freq) as real), Round(f.gain * 10.0) as real / 10.0,
                        Finite(Round(f.q * 1000.0) as real / 1000.0)))
  {
    var p := WritePacket(GainFreqId(filterIndex), f.freq, f.gain);
    var qp := QPacket(QId(filterIndex), f.q);
    var g, n, qn := Round(f.gain * 10.0), Round(f.freq), Round(f.q * 1000.0);
    GainFreqEcho(p, g, n);
    QEcho(qp, qn);
    var gid, qid := GainFreqId(filterIndex), QId(filterIndex);
    DivModUnique(gid, 256, 0, gid);
    DivModUnique(qid, 256, 0, qid);
    var w, qw := Echo(p), Echo(qp);
    assert w[0] == gid && w[4] == COMMAND_READ;
    assert qw[0] == qid && qw[4] == COMMAND_READ;
    ReadOfTwoReplies(filterIndex, w, qw);
  }

  /** A gain/frequency reply followed by a q reply completes the read with their decodings. */
  lemma ReadOfTwoReplies(filterIndex: nat, w: seq<Byte>, qw: seq<Byte>)
    requires IsGainFreqReply(filterIndex, w) && IsQReply(filterIndex, qw)
    ensures ReadSpec(filterIndex, Nothing, [w, qw]) == Ok(KtFilter(PK, DecodeFreq(w), DecodeGain(w), DecodeQ(qw)))
  {
    assert !IsQReply(filterIndex, w) && !IsGainFreqReply(filterIndex, qw);
    assert [w, qw][1..] == [qw];
  }

  /** Frame j of a push: filter j/2's gain/frequency write when j is even, its q write when j is odd. */
  function PushFrame(filters: seq<Filter>, j: nat): Report
    requires j / 2 < |filters|
  {
    if j % 2 == 0 then Report(REPORT_ID, WritePacket(GainFreqId(j / 2), filters[j / 2].freq, filters[j / 2].gain))
    else Report(REPORT_ID, QPacket(QId(j / 2), filters[j / 2].q))
  }

  /** The frames of a push of the first n filters. */
  function PushFrames(filters: seq<Filter>, n: nat): (frames: seq<Report>)
    requires n <= |filters|
    ensures |frames| == 2 * n
  {
    seq(2 * n, j requires 0 <= j < 2 * n => PushFrame(filters, j))
  }

  /** Frame 2i of a push writes filter i's gain/frequency field and frame 2i+1 its q field. */
  lemma PushFramesAt(filters: seq<Filter>, n: nat, i: nat)
    requires n <= |filters| && i < n
    ensures PushFrames(filters, n)[2 * i]
            == Report(REPORT_ID, WritePacket(GainFreqId(i), filters[i].freq, filters[i].gain))
    ensures PushFrames(filters, n)[2 * i + 1] == Report(REPORT_ID, QPacket(QId(i), filters[i].q))
  {
    assert (2 * i) / 2 == i && (2 * i + 1) / 2 == i;
  }

  /**
   * pushToDevice: min(|filters|, maxFilters) pairs of field writes in
   * filter order, then the commit; the result asks for a disconnect
   * exactly when the model is configured to disconnect on save.
   */
  method PushToDevice(filters: seq<Filter>, maxFilters: int, disconnectOnSave: bool)
    returns (sent: seq<Report>, disconnect: bool)
    ensures var n := if |filters| < maxFilters then |filters| else if maxFilters < 0 then 0 else maxFilters;
      sent == PushFrames(filters, n) + [Report(REPORT_ID, CommitPacket)]
    ensures disconnect == disconnectOnSave
  {
    sent := [];
    var i := 0;
    while i < |filters|
      invariant 0 <= i <= |filters| && i <= (if maxFilters < 0 then 0 else maxFilters)
      invariant sent == PushFrames(filters, i)
    {
      if i >= maxFilters {
        break;
      }
      var filterId := GainFreqId(i);
      var writeGainFreq := WritePacket(filterId, filters[i].freq, filters[i].gain);
      var writeQ := QPacket(filterId + 1, filters[i].q);
      sent := sent + [Report(REPORT_ID, writeGainFreq), Report(REPORT_ID, writeQ)];
      i := i + 1;
    }
    assert i == if |filters| < maxFilters then |filters| else if maxFilters < 0 then 0 else maxFilters;
    sent := sent + [Report(REPORT_ID, CommitPacket)];
    disconnect := disconnectOnSave;
  }

  /** getCurrentSlot: a fixed slot, whatever the device. */
  function GetCurrentSlot(): (slot: int)
    ensures slot == SINGLE_SLOT
  {
    SINGLE_SLOT
  }
}
