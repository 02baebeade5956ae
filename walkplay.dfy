/**
 * Walkplay HID frames: the 37-byte filter write frame with its biquad
 * coefficient block, the trailer frames of a push, the enable frame, the
 * current-slot exchange, and the parsers for the filter and global-gain
 * fields of inbound reports.
 */
module WalkplayFrames {
  import opened PeqTypes
  import opened ByteCodec

  const REPORT_ID: Byte := 0x4B
  const READ: Byte := 0x80
  const WRITE: Byte := 0x01
  const END: Byte := 0x00
  const PEQ_VALUES: Byte := 0x09
  const VERSION: Byte := 0x0C
  const TEMP_WRITE: Byte := 0x0A
  const FLASH_EQ: Byte := 0x01

  /** Number of filters a pull asks for. */
  const DEFAULT_FILTER_COUNT: nat := 8

  /** 2^30: the coefficients travel as Q30 fixed point. */
  const Q30_ONE: real := 1073741824.0

  datatype Triple = Triple(x0: real, x1: real, x2: real)

  /**
   * The normalised biquad of one filter: denominator [1, a1, a2] and
   * numerator [b0, b1, b2], as computeIIRFilter hands them to quantizer.
   */
  datatype Sections = Sections(den: Triple, num: Triple)

  /**
   * The floating-point design (sin, cos and pow of freq, gain and q) is not
   * part of this model: every operation that needs it takes it as this
   * parameter, applied to (freq, gain, q).
   */
  type Design = (real, real, real) -> Sections

  /** A filter as parseFilterPacket reads it from an inbound report. */
  datatype ParsedFilter = ParsedFilter(
    filterIndex: Byte,
    freq: int,
    q: real,
    gain: real,
    filterType: FilterType,
    disabled: bool)

  /** One coefficient in Q30: Math.round(d * 2^30). */
  function Q30(d: real): int
  {
    Round(d * Q30_ONE)
  }

  /** quantizer: Q30 values ordered [b0, b1, b2, -a1, -a2]. */
  function Quantizer(dArr: Triple, dArr2: Triple): seq<int>
  {
    [Q30(dArr2.x0), Q30(dArr2.x1), Q30(dArr2.x2), -Q30(dArr.x1), -Q30(dArr.x2)]
  }

  /** The 20-byte coefficient block computeIIRFilter produces for a filter. */
  function IirBlock(f: Filter, design: Design): (block: seq<Byte>)
    ensures |block| == 20
  {
    var s := design(f.freq, f.gain, f.q);
    CoefficientBlock(Quantizer(s.den, s.num))
  }

  /**
   * The words of the block are [b0, b1, b2, -a1, -a2] in Q30, each modulo
   * 2^32.
   */
  lemma IirBlockWords(f: Filter, design: Design)
    ensures var s := design(f.freq, f.gain, f.q);
      var block := IirBlock(f, design);
      && Word(block, 0) == Q30(s.num.x0) % 0x1_0000_0000
      && Word(block, 1) == Q30(s.num.x1) % 0x1_0000_0000
      && Word(block, 2) == Q30(s.num.x2) % 0x1_0000_0000
      && Word(block, 3) == (-Q30(s.den.x1)) % 0x1_0000_0000
      && Word(block, 4) == (-Q30(s.den.x2)) % 0x1_0000_0000
  {
    var s := design(f.freq, f.gain, f.q);
    var coeffs := Quantizer(s.den, s.num);
    var block := CoefficientBlock(coeffs);
    assert block == IirBlock(f, design);
    FiveWords(coeffs);
    assert Word(block, 3) == coeffs[3] % 0x1_0000_0000 && Word(block, 4) == coeffs[4] % 0x1_0000_0000;
  }

  /** The five words of a block of five coefficients. */
  lemma FiveWords(coeffs: seq<int>)
    requires |coeffs| == 5
    ensures forall k :: 0 <= k < 5 ==> Word(CoefficientBlock(coeffs), k) == coeffs[k] % 0x1_0000_0000
  {
    forall k | 0 <= k < 5
      ensures Word(CoefficientBlock(coeffs), k) == coeffs[k] % 0x1_0000_0000
    {
      CoefficientBlockWords(coeffs, k);
    }
  }

  /** Quantisation to Q30 is off by at most half a unit of 2^-30. */
  lemma Q30Error(d: real)
    ensures -0.5 <= Q30(d) as real - d * Q30_ONE <= 0.5
  {
  }

  /** The four stores `a[index + b] = (value >> 8b) & 0xFF`, b = 0..3. */
  method StoreWord(a: array<Byte>, index: nat, value: int)
    requires index + 4 <= a.Length
    modifies a
    ensures forall j :: 0 <= j < a.Length ==>
      a[j] == if index <= j < index + 4 then ByteAt(value, j - index) else old(a[j])
  {
    a[index] := ByteAt(value, 0);
    a[index + 1] := ByteAt(value, 1);
    a[index + 2] := ByteAt(value, 2);
    a[index + 3] := ByteAt(value, 3);
  }

  /**
   * computeIIRFilter's packing loop: a zero-filled 20-byte array into which
   * each quantised value is written, four little-endian bytes at a time.
   */
  method ComputeIirFilter(freq: real, gain: real, q: real, design: Design) returns (block: seq<Byte>)
    ensures block == IirBlock(Filter(freq, gain, q), design)
  {
    var s := design(freq, gain, q);
    var quantizerData := Quantizer(s.den, s.num);
    var bArr := new Byte[20](_ => 0);
    var index := 0;
    var k := 0;
    while k < |quantizerData|
      invariant 0 <= k <= 5 && index == 4 * k
      invariant forall j :: 0 <= j < index ==> bArr[j] == ByteAt(quantizerData[j / 4], j % 4)
      invariant forall j :: index <= j < 20 ==> bArr[j] == 0
    {
      var value := quantizerData[k];
      StoreWord(bArr, index, value);
      assert forall j :: index <= j < index + 4 ==> j / 4 == k && j % 4 == j - index;
      index := index + 4;
      k := k + 1;
    }
    block := bArr[..];
  }

  /**
   * convertToByteArray: byte i is `(value >> 8i) & 0xFF`. JavaScript masks
   * the shift count to five bits, so past the fourth byte the pattern repeats.
   */
  method ConvertToByteArray(value: int, length: nat) returns (arr: seq<Byte>)
    ensures |arr| == length
    ensures forall i :: 0 <= i < length ==> arr[i] == ByteAt(value, i % 4)
  {
    arr := [];
    var i := 0;
    while i < length
      invariant 0 <= i <= length && |arr| == i
      invariant forall j :: 0 <= j < i ==> arr[j] == ByteAt(value, j % 4)
    {
      arr := arr + [ByteAt(value, i % 4)];
      i := i + 1;
    }
  }

  /** Two little-endian bytes of v. */
  function Le16(v: int): seq<Byte>
  {
    [ByteAt(v, 0), ByteAt(v, 1)]
  }

  /**
   * The write frame of filter i: header, coefficient block, freq, q and
   * gain (the last two in 8.8 fixed point), filter-type marker, slot, END.
   */
  function WriteFrame(i: nat, block: seq<Byte>, freq: int, q88: int, gain88: int, slot: int): seq<Byte>
    requires |block| == 20
  {
    [WRITE, PEQ_VALUES, 0x18, 0x00, (i % 256) as Byte, 0x00, 0x00]
    + block + Le16(freq) + Le16(q88) + Le16(gain88)
    + [0x02, 0x00, (slot % 256) as Byte, END]
  }

  /**
   * The frame pushToDevice sends for filter i. The frequency goes through
   * ToInt32, that is, it is truncated; q and gain are rounded to 8.8.
   */
  function FilterFrame(i: nat, f: Filter, slot: int, design: Design): seq<Byte>
  {
    WriteFrame(i, IirBlock(f, design), Trunc(f.freq), Round(f.q * 256.0), Round(f.gain * 256.0), slot)
  }

  /** TEMP_WRITE trailer: apply the written filters. */
  function TempWriteFrame(): seq<Byte>
  {
    [WRITE, TEMP_WRITE, 0x04, 0x00, 0x00, 0xFF, 0xFF, END]
  }

  /** FLASH_EQ trailer: store them. */
  function FlashFrame(): seq<Byte>
  {
    [WRITE, FLASH_EQ, 0x01, END]
  }

  /** Layout of a write frame, field by field, read back with the decoders. */
  lemma WriteFrameLayout(i: nat, f: Filter, slot: int, design: Design)
    ensures var r := FilterFrame(i, f, slot, design);
      && |r| == 37
      && r[..7] == [0x01, 0x09, 0x18, 0x00, i % 256, 0x00, 0x00]
      && r[7..27] == IirBlock(f, design)
      && U16(r[27], r[28]) == Trunc(f.freq) % 0x10000
      && U16(r[29], r[30]) == Round(f.q * 256.0) % 0x10000
      && U16(r[31], r[32]) == Round(f.gain * 256.0) % 0x10000
      && r[33..] == [0x02, 0x00, slot % 256, 0x00]
  {
    var r := FilterFrame(i, f, slot, design);
    Le16RoundTrip(Trunc(f.freq));
    Le16RoundTrip(Round(f.q * 256.0));
    Le16RoundTrip(Round(f.gain * 256.0));
    assert r[27] == ByteAt(Trunc(f.freq), 0) && r[28] == ByteAt(Trunc(f.freq), 1);
  }

  /** The packet literal of pushToDevice's loop body, for filter i. */
  method BuildFilterFrame(i: nat, filter: Filter, slot: int, design: Design) returns (packet: seq<Byte>)
    ensures packet == FilterFrame(i, filter, slot, design)
  {
    var bArr := ComputeIirFilter(filter.freq, filter.gain, filter.q, design);
    var freqBytes := ConvertToByteArray(Trunc(filter.freq), 2);
    var qBytes := ConvertToByteArray(Round(filter.q * 256.0), 2);
    var gainBytes := ConvertToByteArray(Round(filter.gain * 256.0), 2);
    var header: seq<Byte> := [WRITE, PEQ_VALUES, 0x18, 0x00, (i % 256) as Byte, 0x00, 0x00];
    var trailer: seq<Byte> := [0x02, 0x00, (slot % 256) as Byte, END];
    assert freqBytes == Le16(Trunc(filter.freq));
    assert qBytes == Le16(Round(filter.q * 256.0));
    assert gainBytes == Le16(Round(filter.gain * 256.0));
    assert filter == Filter(filter.freq, filter.gain, filter.q);
    packet := header + bArr + freqBytes + qBytes + gainBytes + trailer;
  }

  /**
   * pushToDevice: one write frame per filter, in index order, with no cap
   * at the device's filter count, then the TEMP_WRITE and FLASH_EQ frames.
   */
  method PushToDevice(slot: int, filters: seq<Filter>, design: Design) returns (sent: seq<Report>)
    ensures |sent| == |filters| + 2
    ensures forall i :: 0 <= i < |filters| ==> sent[i] == Report(REPORT_ID, FilterFrame(i, filters[i], slot, design))
    ensures sent[|filters|] == Report(REPORT_ID, TempWriteFrame())
    ensures sent[|filters| + 1] == Report(REPORT_ID, FlashFrame())
  {
    sent := [];
    var i := 0;
    while i < |filters|
      invariant 0 <= i <= |filters| && |sent| == i
      invariant forall j :: 0 <= j < i ==> sent[j] == Report(REPORT_ID, FilterFrame(j, filters[j], slot, design))
    {
      var packet := BuildFilterFrame(i, filters[i], slot, design);
      sent := sent + [Report(REPORT_ID, packet)];
      i := i + 1;
    }
    sent := sent + [Report(REPORT_ID, TempWriteFrame()), Report(REPORT_ID, FlashFrame())];
  }

  /** convertToFilterType: 1 is a low shelf, 3 a high shelf, anything else peaking. */
  function ConvertToFilterType(b: Byte): (t: FilterType)
    ensures t == LSQ <==> b == 1
    ensures t == HSQ <==> b == 3
    ensures t == PK <==> b != 1 && b != 3
  {
    match b
    case 0 => PK
    case 1 => LSQ
    case 3 => HSQ
    case _ => PK
  }

  /** Math.round(x * 10) / 10: x to the nearest tenth. */
  function Tenths(x: real): real
  {
    Round(x * 10.0) as real / 10.0
  }

  /**
   * parseFilterPacket. The length guard is 32 bytes, yet the gain's high
   * byte is byte 32: in a 32-byte report it is undefined and reads as 0.
   */
  function ParseFilterPacket(packet: seq<Byte>): (r: Result<ParsedFilter>)
    ensures r.Err? <==> |packet| < 32
    ensures r.Err? ==> r.error == PacketTooShort
    ensures r.Ok? ==> r.value.filterIndex == packet[4] && 0 <= r.value.freq < 0x10000
    ensures r.Ok? ==> (r.value.disabled <==> r.value.freq == 0 && r.value.q == 0.0 && r.value.gain == 0.0)
    ensures r.Ok? ==>
              && r.value.freq == U16(packet[27], packet[28])
              && r.value.q == Tenths(U16(packet[29], packet[30]) as real / 256.0)
              && r.value.gain == Tenths(S16(packet[31], ByteOr0(packet, 32)) as real / 256.0)
              && r.value.filterType == ConvertToFilterType(packet[26])
  {
    if |packet| < 32 then Err(PacketTooShort)
    else
      var freq := U16(packet[27], packet[28]);
      var qRaw := U16(packet[29], packet[30]);
      var q := Tenths(qRaw as real / 256.0);
      var gainRaw := S16(packet[31], ByteOr0(packet, 32));
      var gain := Tenths(gainRaw as real / 256.0);
      Ok(ParsedFilter(packet[4], freq, q, gain, ConvertToFilterType(packet[26]),
                      !(freq != 0 || q != 0.0 || gain != 0.0)))
  }

  /**
   * A write frame read back by parseFilterPacket gives the index, the
   * truncated frequency, and q and gain as their 8.8 values to the tenth,
   * whenever those fit the 16-bit fields.
   */
  lemma ParseWriteFrame(i: nat, f: Filter, slot: int, design: Design)
    requires 0 <= Trunc(f.freq) < 0x10000
    requires 0 <= Round(f.q * 256.0) < 0x10000
    requires -0x8000 <= Round(f.gain * 256.0) < 0x8000
    ensures var r := ParseFilterPacket(FilterFrame(i, f, slot, design));
      && r.Ok?
      && r.value.filterIndex == i % 256
      && r.value.freq == Trunc(f.freq)
      && r.value.q == Tenths(Round(f.q * 256.0) as real / 256.0)
      && r.value.gain == Tenths(Round(f.gain * 256.0) as real / 256.0)
  {
    var freq, q88, gain88 := Trunc(f.freq), Round(f.q * 256.0), Round(f.gain * 256.0);
    var frame := FilterFrame(i, f, slot, design);
    assert frame == WriteFrame(i, IirBlock(f, design), freq, q88, gain88, slot);
    ParseWriteFrameFields(i, IirBlock(f, design), freq, q88, gain88, slot);
    var r := ParseFilterPacket(frame);
    assert r.value.q == Tenths(q88 as real / 256.0) && r.value.gain == Tenths(gain88 as real / 256.0);
  }

  lemma ParseWriteFrameFields(i: nat, block: seq<Byte>, freq: int, q88: int, gain88: int, slot: int)
    requires |block| == 20
    requires 0 <= freq < 0x10000 && 0 <= q88 < 0x10000 && -0x8000 <= gain88 < 0x8000
    ensures var r := ParseFilterPacket(WriteFrame(i, block, freq, q88, gain88, slot));
      && r.Ok?
      && r.value.filterIndex == i % 256
      && r.value.freq == freq
      && r.value.q == Tenths(q88 as real / 256.0)
      && r.value.gain == Tenths(gain88 as real / 256.0)
  {
    var r := WriteFrame(i, block, freq, q88, gain88, slot);
    assert |r| == 37 && r[4] == i % 256;
    assert r[27] == ByteAt(freq, 0) && r[28] == ByteAt(freq, 1);
    assert r[29] == ByteAt(q88, 0) && r[30] == ByteAt(q88, 1);
    assert r[31] == ByteAt(gain88, 0) && r[32] == ByteAt(gain88, 1);
    UnsignedRoundTrip(freq);
    UnsignedRoundTrip(q88);
    SignedRoundTrip(gain88);
    ParseFields(r);
  }

  lemma ParseFields(p: seq<Byte>)
    requires |p| >= 33
    ensures var r := ParseFilterPacket(p);
      && r.Ok?
      && r.value.freq == U16(p[27], p[28])
      && r.value.q == Tenths(U16(p[29], p[30]) as real / 256.0)
      && r.value.gain == Tenths(S16(p[31], p[32]) as real / 256.0)
  {
  }

  /**
   * A report of exactly 32 bytes passes the length guard; its gain is
   * taken from byte 31 alone, the missing byte 32 counting as 0.
   */
  lemma ShortPacketGain(packet: seq<Byte>)
    requires |packet| == 32
    ensures ParseFilterPacket(packet).Ok?
    ensures ParseFilterPacket(packet).value.gain == Tenths(packet[31] as real / 256.0)
  {
  }

  /** parseGlobalGain: 0 for reports under 40 bytes, else signed LE16 at 38-39 over 256. */
  function ParseGlobalGain(data: seq<Byte>): (g: real)
    ensures |data| < 40 ==> g == 0.0
    ensures |data| >= 40 ==> g * 256.0 == S16(data[38], data[39]) as real
    ensures -128.0 <= g < 128.0
  {
    if |data| < 40 then 0.0
    else S16(data[38], data[39]) as real / 256.0
  }

  /** enablePEQ: a FLASH_EQ frame naming the slot, or slot 0 when disabling. */
  function EnableFrame(enable: bool, slotId: int): (r: seq<Byte>)
    ensures |r| == 5 && r[..3] == [WRITE, FLASH_EQ, 0x00] && r[4] == END
    ensures !enable ==> r[3] == 0
    ensures enable ==> r[3] == slotId % 256
  {
    var slot := if enable then slotId else 0x00;
    [WRITE, FLASH_EQ, 0x00, (slot % 256) as Byte, END]
  }

  /** What getCurrentSlot resolves to when no request times out. */
  datatype SlotAnswer =
    | VersionUnreadable        // the firmware version did not parse: resolves to undefined
    | SlotAt(slot: Option<Byte>) // byte 35 of the reply; None when the reply is shorter

  datatype SlotCall = SlotCall(sent: seq<Report>, outcome: Result<SlotAnswer>)

  /** response.slice(3, 6): the version characters, clamped to the reply. */
  function VersionBytes(reply: seq<Byte>): seq<Byte>
  {
    if |reply| <= 3 then [] else reply[3..if |reply| < 6 then |reply| else 6]
  }

  /**
   * getCurrentSlot: a VERSION request, then, only if the version parses,
   * a PEQ_VALUES request whose reply carries the slot at byte 35. Each
   * reply is the first inbound report after the request, None when the
   * 5-second wait ends first. parseFloat is taken as the parameter
   * versionParses.
   */
  function GetCurrentSlot(versionReply: Option<seq<Byte>>, versionParses: seq<Byte> -> bool,
                          slotReply: Option<seq<Byte>>): (c: SlotCall)
    ensures 1 <= |c.sent| <= 2 && c.sent[0] == Report(REPORT_ID, [READ, VERSION, END])
    ensures |c.sent| == 2 <==> versionReply.Some? && versionParses(VersionBytes(versionReply.value))
    ensures |c.sent| == 2 ==> c.sent[1] == Report(REPORT_ID, [READ, PEQ_VALUES, END])
    ensures c.outcome.Err? <==> versionReply.None? || (|c.sent| == 2 && slotReply.None?)
    ensures c.outcome.Err? ==> c.outcome.error == Timeout
    ensures c.outcome == Ok(VersionUnreadable) <==> |c.sent| == 1 && versionReply.Some?
    ensures c.outcome.Ok? && c.outcome.value.SlotAt? && c.outcome.value.slot.Some? ==>
              |slotReply.value| > 35 && c.outcome.value.slot.value == slotReply.value[35]
    ensures c.outcome.Ok? && c.outcome.value.SlotAt? ==>
              slotReply.Some? && (c.outcome.value.slot.Some? <==> |slotReply.value| > 35)
  {
    var versionRequest := Report(REPORT_ID, [READ, VERSION, END]);
    match versionReply
    case None => SlotCall([versionRequest], Err(Timeout))
    case Some(v) =>
      if !versionParses(VersionBytes(v)) then SlotCall([versionRequest], Ok(VersionUnreadable))
      else
        var sent := [versionRequest, Report(REPORT_ID, [READ, PEQ_VALUES, END])];
        match slotReply
        case None => SlotCall(sent, Err(Timeout))
        case Some(r) => SlotCall(sent, Ok(SlotAt(if |r| > 35 then Some(r[35]) else None)))
  }

  /**
   * In the write-frame layout the slot is byte 35, where getCurrentSlot
   * reads it; byte 36, where the pull listener reads its currentSlot, is END.
   */
  lemma SlotOffsets(i: nat, f: Filter, slot: int, design: Design)
    ensures FilterFrame(i, f, slot, design)[35] == slot % 256
    ensures FilterFrame(i, f, slot, design)[36] == END
  {
    WriteFrameLayout(i, f, slot, design);
    var r := FilterFrame(i, f, slot, design);
    assert r[35] == r[33..][2] && r[36] == r[33..][3];
  }
}
