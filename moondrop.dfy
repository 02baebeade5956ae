/**
 * Moondrop USB HID frames: the 5-byte read request, the 63-byte write and
 * enable frames, the 3-byte save frame, the decoder of a filter reply, and
 * the request/reply sequencing of a pull and a push.
 */
module MoondropFrames {
  import opened PeqTypes
  import opened ByteCodec

  const REPORT_ID: Byte := 0x4B
  const COMMAND_WRITE: Byte := 1
  const COMMAND_READ: Byte := 0x80
  const COMMAND_UPDATE_EQ: Byte := 9
  const COMMAND_UPDATE_EQ_COEFF_TO_REG: Byte := 10
  const COMMAND_SAVE_EQ_TO_FLASH: Byte := 1
  const SET_ACTIVE_EQ: Byte := 0x0F
  const FRAME_LENGTH: nat := 63
  const PEAKING: Byte := 2
  const PEQ_INDEX: Byte := 7

  /** 2^30, the fixed-point scale of a coefficient. */
  const Q30_ONE: real := 1073741824.0

  /** A filter as the handler decodes it. */
  datatype PeqFilter = PeqFilter(filterType: FilterType, freq: real, q: real, gain: real, disabled: bool)

  /** What a reply outside the sanity window decodes to. */
  const Sentinel: PeqFilter := PeqFilter(PK, 0.0, 1.0, 0.0, true)

  /** buildReadPacket: READ, UPDATE_EQ, two zero bytes and the filter index. */
  function ReadPacket(filterIndex: nat): (p: seq<Byte>)
    ensures |p| == 5 && p[..4] == [COMMAND_READ, COMMAND_UPDATE_EQ, 0, 0] && p[4] == filterIndex % 256
  {
    [COMMAND_READ, COMMAND_UPDATE_EQ, 0, 0, (filterIndex % 256) as Byte]
  }

  /** An Int8Array view of a byte. */
  function Int8(b: Byte): (v: int)
    ensures -128 <= v < 128 && (v == b || v == b - 256)
  {
    if b >= 128 then b - 256 else b
  }

  /** The frequency field, bytes 27-28 (a byte past the end reads as 0). */
  function RawFreq(data: seq<Byte>): nat
  {
    U16(ByteOr0(data, 27), ByteOr0(data, 28))
  }

  /** The q field: integer byte 30 plus fraction byte 29 over 256. */
  function RawQ(data: seq<Byte>): real
  {
    ByteOr0(data, 30) as real + ByteOr0(data, 29) as real / 256.0
  }

  /**
   * The gain field: signed integer byte 32 plus fraction byte 31 over 256.
   * Byte 32 is added, not masked, so a reply of 32 bytes or fewer has no
   * gain at all (NaN).
   */
  function RawGain(data: seq<Byte>): real
    requires |data| > 32
  {
    Int8(data[32]) as real + data[31] as real / 256.0
  }

  /** Math.floor(x * 10) / 10. */
  function FloorTenth(x: real): (r: real)
    ensures r <= x < r + 0.1
    ensures (r * 10.0).Floor as real == r * 10.0
  {
    (x * 10.0).Floor as real / 10.0
  }

  /**
   * decodeFilterResponse: a reply is valid exactly when its frequency is
   * strictly between 10 and 24000 and it carries a gain; a valid reply
   * gives its frequency and q and its gain floored to a tenth, anything
   * else gives the disabled sentinel.
   */
  function DecodeFilterResponse(data: seq<Byte>): (f: PeqFilter)
    ensures f.filterType == PK
    ensures !f.disabled <==> 10 < RawFreq(data) < 24000 && |data| > 32
    ensures f.disabled ==> f == Sentinel
    ensures !f.disabled ==> f.freq == RawFreq(data) as real && f.q == RawQ(data)
                            && f.gain == FloorTenth(RawGain(data))
                            && f.gain <= RawGain(data) < f.gain + 0.1
  {
    var freq := RawFreq(data);
    if 10 < freq < 24000 && |data| > 32 then
      PeqFilter(PK, freq as real, RawQ(data), FloorTenth(RawGain(data)), false)
    else
      Sentinel
  }

  /**
   * The biquad design (sin, cos and pow of the filter parameters): the
   * normalised b0, b1, b2 and a2 of a peaking filter.
   */
  datatype Biquad = Biquad(b0: real, b1: real, b2: real, a2: real)
  type Design = (real, real, real) -> Biquad

  /** encodeBiquad: [b0, b1, b2, a1, -a2] with a1 = -b1, each rounded at scale 2^30. */
  function EncodeBiquad(f: Filter, design: Design): (coeffs: seq<int>)
    ensures |coeffs| == 5
    ensures var c := design(f.freq, f.gain, f.q);
      forall k :: 0 <= k < 5 ==>
        -0.5 < coeffs[k] as real - [c.b0, c.b1, c.b2, -c.b1, -c.a2][k] * Q30_ONE <= 0.5
  {
    var c := design(f.freq, f.gain, f.q);
    [Round(c.b0 * Q30_ONE), Round(c.b1 * Q30_ONE), Round(c.b2 * Q30_ONE),
     Round(-c.b1 * Q30_ONE), Round(-c.a2 * Q30_ONE)]
  }

  /**
   * encodeToByteArray: coefficient i little-endian at bytes 4i..4i+3 of a
   * 20-byte array; writes past the end of the array are dropped.
   */
  method EncodeToByteArray(coeffs: seq<int>) returns (block: seq<Byte>)
    ensures block == CoefficientBlock(coeffs)
  {
    var arr := new Byte[20](_ => 0);
    for i := 0 to |coeffs|
      invariant forall j :: 0 <= j < 20 ==>
        arr[j] == if j / 4 < i then ByteAt(coeffs[j / 4], j % 4) else 0
    {
      var val := coeffs[i];
      if i * 4 < 20 { arr[i * 4] := ByteAt(val, 0); }
      if i * 4 + 1 < 20 { arr[i * 4 + 1] := ByteAt(val, 1); }
      if i * 4 + 2 < 20 { arr[i * 4 + 2] := ByteAt(val, 2); }
      if i * 4 + 3 < 20 { arr[i * 4 + 3] := ByteAt(val, 3); }
    }
    block := arr[..];
  }

  /** `Math.floor(x)` stored into a Uint8Array. */
  function IntByte(x: real): Byte
  {
    x.Floor % 256
  }

  /** `Math.round(x % 1 * 256)` stored into a Uint8Array. */
  function FracByte(x: real): Byte
  {
    Round(FracPart(x) * 256.0) % 256
  }

  /** The six bytes of a write frame that carry frequency, q and gain. */
  datatype FieldBytes = FieldBytes(freqLo: Byte, freqHi: Byte, qFrac: Byte, qInt: Byte, gainFrac: Byte, gainInt: Byte)

  /**
   * Bytes 27-32: the frequency truncated to an integer, little-endian;
   * q and gain each as a fraction byte and an integer byte.
   */
  function Fields(f: Filter): FieldBytes
  {
    FieldBytes(ByteAt(Trunc(f.freq), 0), ByteAt(Trunc(f.freq), 1),
               FracByte(f.q), IntByte(f.q), FracByte(f.gain), IntByte(f.gain))
  }

  /** The 63-byte write frame, given its coefficient block and field bytes. */
  function Frame(filterIndex: nat, block: seq<Byte>, fb: FieldBytes): (p: seq<Byte>)
    requires |block| == 20
    ensures |p| == FRAME_LENGTH
  {
    [COMMAND_WRITE, COMMAND_UPDATE_EQ, 0, 0, (filterIndex % 256) as Byte, 0, 0]
      + block
      + [fb.freqLo, fb.freqHi, fb.qFrac, fb.qInt, fb.gainFrac, fb.gainInt, PEAKING, 0, PEQ_INDEX]
      + seq(FRAME_LENGTH - 36, _ => 0)
  }

  /** The write frame of filter filterIndex. */
  function WritePacket(filterIndex: nat, f: Filter, design: Design): (p: seq<Byte>)
    ensures |p| == FRAME_LENGTH
  {
    Frame(filterIndex, CoefficientBlock(EncodeBiquad(f, design)), Fields(f))
  }

  /** buildWritePacket, filling a zeroed Uint8Array(63) by index. */
  method BuildWritePacket(filterIndex: nat, f: Filter, design: Design) returns (packet: seq<Byte>)
    ensures packet == WritePacket(filterIndex, f, design)
  {
    var coeffs := EncodeToByteArray(EncodeBiquad(f, design));
    var fb := Fields(f);
    packet := FillWritePacket(filterIndex, coeffs, fb);
  }

  /** Frame, byte by byte. */
  lemma FrameBytes(filterIndex: nat, block: seq<Byte>, fb: FieldBytes)
    requires |block| == 20
    ensures var p := Frame(filterIndex, block, fb);
      && p[0] == COMMAND_WRITE && p[1] == COMMAND_UPDATE_EQ && p[2] == 0 && p[3] == 0
      && p[4] == filterIndex % 256 && p[5] == 0 && p[6] == 0
      && (forall j :: 7 <= j < 27 ==> p[j] == block[j - 7])
      && p[27] == fb.freqLo && p[28] == fb.freqHi && p[29] == fb.qFrac && p[30] == fb.qInt
      && p[31] == fb.gainFrac && p[32] == fb.gainInt && p[33] == PEAKING && p[34] == 0
      && p[35] == PEQ_INDEX
      && (forall j :: 36 <= j < FRAME_LENGTH ==> p[j] == 0)
  {
  }

  /**
   * Stores src into a from offset on: `TypedArray.prototype.set(src, offset)`,
   * and equally a run of single-byte stores to consecutive indices.
   */
  method SetAt(a: array<Byte>, src: seq<Byte>, offset: nat)
    requires offset + |src| <= a.Length
    modifies a
    ensures forall j :: 0 <= j < a.Length ==>
      a[j] == if offset <= j < offset + |src| then src[j - offset] else old(a[j])
  {
    forall j | offset <= j < offset + |src| {
      a[j] := src[j - offset];
    }
  }

  /** The index-by-index fill of the frame. */
  method FillWritePacket(filterIndex: nat, coeffs: seq<Byte>, fb: FieldBytes) returns (packet: seq<Byte>)
    requires |coeffs| == 20
    ensures packet == Frame(filterIndex, coeffs, fb)
  {
    var a := new Byte[FRAME_LENGTH](_ => 0);
    // packet[0] .. packet[4], one store each
    SetAt(a, [COMMAND_WRITE, COMMAND_UPDATE_EQ, 0, 0, filterIndex % 256], 0);
    SetAt(a, coeffs, 7);
    // packet[27] .. packet[35], one store each
    SetAt(a, [fb.freqLo, fb.freqHi, fb.qFrac, fb.qInt, fb.gainFrac, fb.gainInt, PEAKING, 0, PEQ_INDEX], 27);
    packet := a[..];
    FrameBytes(filterIndex, coeffs, fb);
    ghost var p := Frame(filterIndex, coeffs, fb);
    assert forall j :: 0 <= j < FRAME_LENGTH ==> packet[j] == p[j];
  }

  /** The fixed layout of every write frame. */
  lemma WritePacketLayout(filterIndex: nat, f: Filter, design: Design)
    ensures var p := WritePacket(filterIndex, f, design);
      && p[..5] == [COMMAND_WRITE, COMMAND_UPDATE_EQ, 0, 0, filterIndex % 256]
      && p[7..27] == CoefficientBlock(EncodeBiquad(f, design))
      && p[33] == PEAKING && p[34] == 0 && p[35] == PEQ_INDEX
      && p[5] == 0 && p[6] == 0 && (forall j :: 36 <= j < FRAME_LENGTH ==> p[j] == 0)
  {
    var p := WritePacket(filterIndex, f, design);
    assert p[..5] == [COMMAND_WRITE, COMMAND_UPDATE_EQ, 0, 0, filterIndex % 256];
  }

  /** Floor and the fraction byte of m/256 are m div 256 and m mod 256. */
  lemma {:induction false} SplitMultipleOf256(m: int)
    ensures (m as real / 256.0).Floor == m / 256
    ensures FracByte(m as real / 256.0) == m % 256
  {
    var x := m as real / 256.0;
    var q, r := m / 256, m % 256;
    assert x == q as real + r as real / 256.0;
    if x >= 0.0 || r == 0 {
      assert Trunc(x) == q;
      assert FracPart(x) * 256.0 == r as real;
    } else {
      assert Trunc(x) == q + 1;
      assert FracPart(x) * 256.0 == (r - 256) as real;
      assert Round((r - 256) as real) == r - 256;
    }
  }

  /**
   * A q in [0, 256) that is a multiple of 1/256 is read back exactly from
   * bytes 29-30 of its write frame.
   */
  lemma QBytesRoundTrip(n: int)
    requires 0 <= n < 0x10000
    ensures IntByte(n as real / 256.0) as real + FracByte(n as real / 256.0) as real / 256.0
            == n as real / 256.0
  {
    SplitMultipleOf256(n);
  }

  /**
   * A gain that is a multiple of 1/256, with floor in [-128, 127], is read
   * back exactly from bytes 31-32 of its write frame, negative gains
   * included.
   */
  lemma GainBytesRoundTrip(m: int)
    requires -0x8000 <= m < 0x8000
    ensures Int8(IntByte(m as real / 256.0)) as real + FracByte(m as real / 256.0) as real / 256.0
            == m as real / 256.0
  {
    SplitMultipleOf256(m);
    assert -128 <= m / 256 < 128;
    DivModUnique(m / 256, 256, if m < 0 then -1 else 0, if m < 0 then m / 256 + 256 else m / 256);
  }

  /**
   * Write then read: a reply carrying bytes 27-32 of a write frame decodes
   * to the filter written, with its gain floored to a tenth.
   */
  lemma WriteThenDecode(freq: int, n: int, m: int, filterIndex: nat, design: Design, reply: seq<Byte>)
    requires 10 < freq < 24000 && 0 <= n < 0x10000 && -0x8000 <= m < 0x8000
    requires |reply| > 32
    requires reply[27..33] == WritePacket(filterIndex, Filter(freq as real, m as real / 256.0, n as real / 256.0), design)[27..33]
    ensures DecodeFilterResponse(reply)
            == PeqFilter(PK, freq as real, n as real / 256.0, FloorTenth(m as real / 256.0), false)
  {
    var f := Filter(freq as real, m as real / 256.0, n as real / 256.0);
    var fb := Fields(f);
    assert WritePacket(filterIndex, f, design)[27..33]
        == [fb.freqLo, fb.freqHi, fb.qFrac, fb.qInt, fb.gainFrac, fb.gainInt];
    assert reply[27] == fb.freqLo && reply[28] == fb.freqHi && reply[29] == fb.qFrac
        && reply[30] == fb.qInt && reply[31] == fb.gainFrac && reply[32] == fb.gainInt;
    assert Trunc(freq as real) == freq;
    UnsignedRoundTrip(freq);
    QBytesRoundTrip(n);
    GainBytesRoundTrip(m);
  }

  /**
   * The fraction byte wraps: q = 0.999 has a fraction that rounds to 256,
   * stored as 0 with no carry into the integer byte, so it reads back as 0.
   */
  lemma FractionWrapsToZero()
    ensures FracByte(0.999) == 0 && IntByte(0.999) == 0
    ensures IntByte(0.999) as real + FracByte(0.999) as real / 256.0 == 0.0
  {
    assert Trunc(0.999) == 0;
    assert Round(0.999 * 256.0) == 256;
  }

  /** The enable frame of filter filterIndex: `[1, 10, idx, 0, 255, 255, 255]`, then zeros up to 63 bytes. */
  function EnablePacket(filterIndex: nat): (p: seq<Byte>)
    ensures |p| == FRAME_LENGTH
    ensures p[..7] == [COMMAND_WRITE, COMMAND_UPDATE_EQ_COEFF_TO_REG, filterIndex % 256, 0, 255, 255, 255]
    ensures forall j :: 7 <= j < FRAME_LENGTH ==> p[j] == 0
  {
    [COMMAND_WRITE, COMMAND_UPDATE_EQ_COEFF_TO_REG, (filterIndex % 256) as Byte, 0, 255, 255, 255]
      + seq(FRAME_LENGTH - 7, _ => 0)
  }

  /** buildEnablePacket, filling a zeroed Uint8Array(63) by index. */
  method BuildEnablePacket(filterIndex: nat) returns (packet: seq<Byte>)
    ensures packet == EnablePacket(filterIndex)
  {
    var a := new Byte[FRAME_LENGTH](_ => 0);
    a[0] := COMMAND_WRITE;
    a[1] := COMMAND_UPDATE_EQ_COEFF_TO_REG;
    a[2] := filterIndex % 256;
    a[3] := 0;
    a[4] := 255;
    a[5] := 255;
    a[6] := 255;
    assert a[..7] == EnablePacket(filterIndex)[..7];
    assert a[7..] == seq(FRAME_LENGTH - 7, _ => 0);
    packet := a[..];
    assert packet == a[..7] + a[7..];
  }

  /** buildSavePacket. */
  const SavePacket: seq<Byte> := [COMMAND_WRITE, COMMAND_SAVE_EQ_TO_FLASH, 0]

  /** The slot read request. */
  const SlotRequest: seq<Byte> := [COMMAND_READ, SET_ACTIVE_EQ, 0]

  /** The slot listener's filter: only a report starting 0x80, 0x0F is its reply. */
  predicate IsSlotReply(data: seq<Byte>)
  {
    |data| >= 2 && data[0] == COMMAND_READ && data[1] == SET_ACTIVE_EQ
  }

  /** The filter listener's filter: any report starting 0x80, 0x09, whatever its index byte. */
  predicate IsFilterReply(data: seq<Byte>)
  {
    |data| >= 2 && data[0] == COMMAND_READ && data[1] == COMMAND_UPDATE_EQ
  }

  /**
   * getCurrentSlot: sends the slot request, then resolves with byte 3 of
   * the first slot reply (undefined when that reply is shorter), or times
   * out when no report in the window is a slot reply.
   */
  function GetCurrentSlot(window: seq<seq<Byte>>): (r: (Report, Result<Option<Byte>>))
    ensures r.0 == Report(REPORT_ID, SlotRequest)
    ensures r.1.Err? <==> forall j :: 0 <= j < |window| ==> !IsSlotReply(window[j])
    ensures r.1.Err? ==> r.1.error == Timeout
    ensures r.1.Ok? ==>
              exists j :: (0 <= j < |window| && IsSlotReply(window[j])
                           && (forall i :: 0 <= i < j ==> !IsSlotReply(window[i]))
                           && r.1.value == (if |window[j]| > 3 then Some(window[j][3]) else None))
  {
    var sent := Report(REPORT_ID, SlotRequest);
    match FirstMatch(window, IsSlotReply)
    case None => (sent, Err(Timeout))
    case Some(j) => (sent, Ok(if |window[j]| > 3 then Some(window[j][3]) else None))
  }

  /** The reply to read request i: the first filter reply of its window. */
  function Reply(windows: seq<seq<seq<Byte>>>, i: nat): Option<seq<Byte>>
  {
    var w := if i < |windows| then windows[i] else [];
    match FirstMatch(w, IsFilterReply)
    case None => None
    case Some(j) => Some(w[j])
  }

  /** The read requests for filters 0..n-1, in order. */
  function ReadRequests(n: nat): (frames: seq<Report>)
    ensures |frames| == n
  {
    seq(n, i requires 0 <= i < n => Report(REPORT_ID, ReadPacket(i)))
  }

  datatype PullOutcome = PullOutcome(filters: seq<PeqFilter>, globalGain: real)

  /**
   * pullFromDevice: reads filters 0..maxFilters-1 one at a time; read i
   * takes the first filter reply of windows[i]. The pull succeeds with
   * maxFilters decoded filters and global gain 0 exactly when every read is
   * answered; otherwise it stops at the first unanswered read with Timeout.
   */
  method PullFromDevice(maxFilters: int, windows: seq<seq<seq<Byte>>>)
    returns (sent: seq<Report>, result: Result<PullOutcome>)
    ensures result.Ok? <==> forall i :: 0 <= i < maxFilters ==> Reply(windows, i).Some?
    ensures result.Ok? ==> sent == ReadRequests(if maxFilters < 0 then 0 else maxFilters)
    ensures result.Ok? ==>
              (&& result.value.globalGain == 0.0
               && |result.value.filters| == |sent|
               && forall i :: 0 <= i < |sent| ==>
                    result.value.filters[i] == DecodeFilterResponse(Reply(windows, i).value))
    ensures result.Err? ==>
              (&& result.error == Timeout && 1 <= |sent| <= maxFilters
               && sent == ReadRequests(|sent|) && Reply(windows, |sent| - 1).None?
               && forall k :: 0 <= k < |sent| - 1 ==> Reply(windows, k).Some?)
  {
    var filters: seq<PeqFilter> := [];
    sent := [];
    var i := 0;
    while i < maxFilters
      invariant 0 <= i <= (if maxFilters < 0 then 0 else maxFilters)
      invariant sent == ReadRequests(i) && |filters| == i
      invariant forall k :: 0 <= k < i ==>
                  (Reply(windows, k).Some? && filters[k] == DecodeFilterResponse(Reply(windows, k).value))
    {
      sent := sent + [Report(REPORT_ID, ReadPacket(i))];
      var reply := Reply(windows, i);
      if reply.None? {
        assert sent == ReadRequests(i + 1);
        return sent, Err(Timeout);
      }
      filters := filters + [DecodeFilterResponse(reply.value)];
      i := i + 1;
    }
    result := Ok(PullOutcome(filters, 0.0));
  }

  /** Frame j of a push: the write of filter j/2 when j is even, its enable when j is odd. */
  function PushFrame(filters: seq<Filter>, j: nat, design: Design): Report
    requires j / 2 < |filters|
  {
    if j % 2 == 0 then Report(REPORT_ID, WritePacket(j / 2, filters[j / 2], design))
    else Report(REPORT_ID, EnablePacket(j / 2))
  }

  /** The frames of a push of the first n filters: write_i then enable_i for each. */
  function PushFrames(filters: seq<Filter>, n: nat, design: Design): (frames: seq<Report>)
    requires n <= |filters|
    ensures |frames| == 2 * n
  {
    seq(2 * n, j requires 0 <= j < 2 * n => PushFrame(filters, j, design))
  }

  /** Frame 2i of a push writes filter i and frame 2i+1 enables it. */
  lemma PushFramesAt(filters: seq<Filter>, n: nat, design: Design, i: nat)
    requires n <= |filters| && i < n
    ensures PushFrames(filters, n, design)[2 * i] == Report(REPORT_ID, WritePacket(i, filters[i], design))
    ensures PushFrames(filters, n, design)[2 * i + 1] == Report(REPORT_ID, EnablePacket(i))
  {
    assert (2 * i) / 2 == i && (2 * i + 1) / 2 == i;
  }

  /**
   * pushToDevice: min(|filters|, maxFilters) write/enable pairs in filter
   * order, then the save frame; the result is always false (no reboot).
   */
  method PushToDevice(filters: seq<Filter>, maxFilters: int, design: Design)
    returns (sent: seq<Report>, needsReboot: bool)
    ensures var n := if |filters| < maxFilters then |filters| else if maxFilters < 0 then 0 else maxFilters;
      sent == PushFrames(filters, n, design) + [Report(REPORT_ID, SavePacket)]
    ensures !needsReboot
  {
    sent := [];
    var i := 0;
    while i < |filters| && i < maxFilters
      invariant 0 <= i <= |filters| && i <= (if maxFilters < 0 then 0 else maxFilters)
      invariant sent == PushFrames(filters, i, design)
    {
      var writeFilter := BuildWritePacket(i, filters[i], design);
      var enable := BuildEnablePacket(i);
      sent := sent + [Report(REPORT_ID, writeFilter), Report(REPORT_ID, enable)];
      i := i + 1;
    }
    assert i == if |filters| < maxFilters then |filters| else if maxFilters < 0 then 0 else maxFilters;
    sent := sent + [Report(REPORT_ID, SavePacket)];
    needsReboot := false;
  }
}
