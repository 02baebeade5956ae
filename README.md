# PEQ device handlers: a verified model of the frame codecs

This project models the protocol core of four device handlers in a browser
tool that reads and writes parametric-EQ (PEQ) filters:

- **Walkplay** over USB HID (`walkplayHidHandler.js`). It has:
  - a 37-byte write frame carrying a Q30 biquad coefficient block and
    8.8 fixed-point q and gain;
  - the TEMP_WRITE and FLASH_EQ trailer frames and the enable frame;
  - parsers for the filter, global-gain and slot fields of inbound reports;
  - the bulk pull, made of a report listener, a retry for missing indices,
    and a poller that tags the result complete or timed out.
- **Moondrop** over USB HID (`moondropUsbHidHandler.js`). It has:
  - 63-byte write and enable frames and a 3-byte save frame;
  - q and gain split into an integer byte and a fraction byte;
  - a decoder with a sanity window;
  - the report filters of the slot and filter reads.
- **KTMicro** over USB HID (`ktmicroUsbHidHandler.js`):
  - each filter is two device fields, 0x26+2i (gain and frequency) and
    0x27+2i (q);
  - a read merges the two replies until both are in;
  - a push writes both fields of every filter, then commits.
- **JDS Labs Element IV** over USB serial (`jdsLabsUsbSerialHandler.js`):
  - JSON commands framed by a NUL;
  - the slot inferred from the input mode;
  - filters read and written under ten fixed names;
  - a push accepted only when the reply's `Status` is `true`.

## How the model is built

JavaScript numbers are exact reals. The integer conversions the handlers
rely on are written out in `common.dfy` and `bytecodec.dfy`:

- `Math.round` is `Round`.
- The ToInt32 truncation behind `>>` and `&` is `Trunc`.
- Byte k of `(v >> 8k) & 0xFF` is `ByteAt(v, k)`, which is
  `(v div 256^k) mod 256`.
- A store into a `Uint8Array` is taken modulo 256.
- A report byte past the end is `undefined`. Under `|`, `&` and `<<` it
  counts as 0 (`ByteOr0`). Under `+` it gives NaN: the KTMicro `Num` type,
  and the Moondrop validity test.

A device is seen through the reports it sends back:

- Every single-shot request is matched with the first inbound report its
  listener accepts (`FirstMatch`). A stream that ends first is a timeout.
- The Walkplay pull listener and the KTMicro merge listener are classes
  whose fields the listener updates. Each is proved against a fold over the
  reports that arrive.

Where the handler loops or fills an array, the model does too. Each such
method is proved equal to a specification function, and the properties are
proved about that function.

For q = 1.41 the KTMicro q frame carries 1410 = 0x0582, so its q bytes are
`[0x82, 0x05]` (`KtmicroFrames.QBytesOf141`).

Behaviour of the code as written that the model reproduces and proves:

- Walkplay's pull judges completion by the number of stored filters, not by
  which indices are stored. A reply with a stray index makes a pull
  complete without filter 7 (`WalkplayPull.StrayIndexCompletes`).
- Walkplay's `getCurrentSlot` reads the slot at byte 35, where the write
  frame puts it. The pull listener reads byte 36, which is the frame's
  END byte (`WalkplayFrames.SlotOffsets`).
- Walkplay's push has no cap at the device's filter count. Moondrop's and
  KTMicro's pushes stop at `maxFilters`.
- Moondrop stores the fraction byte modulo 256. A fraction that rounds to
  256 becomes 0 with no carry (`MoondropFrames.FractionWrapsToZero`).
- KTMicro compares a reply's id byte with the unwrapped id 0x26+2i, while
  the request stores the id modulo 256. So a filter whose ids pass 255 can
  never be read (`KtmicroFrames.HighIdsNeverRead`), and
  `KtmicroFrames.WriteThenRead` requires the ids to fit a byte.
- JDS Labs sends bare numbers for Frequency, Gain and Q in an update, but
  reads `.Current` of each when pulling. A pull of an update's own payload
  therefore yields ten filters with no frequency, gain or q, and a preamp
  gain of 0, whatever was pushed (`JdsLabsSerial.PullOfUpdate`).

## Model

| member | source | states |
|---|---|---|
| PeqTypes.Round | assets/js/devicePEQ/walkplayHidHandler.js:325-326 | Math.round yields the integer r with r - 1/2 <= x < r + 1/2 (halves round up) |
| PeqTypes.Trunc | assets/js/devicePEQ/walkplayHidHandler.js:315-321 | ToInt32's truncation toward zero: for x >= 0, r <= x < r+1 with r >= 0; for x < 0, r-1 < x <= r with r <= 0 |
| PeqTypes.FirstMatch | assets/js/devicePEQ/moondropUsbHidHandler.js:46-55 | a listener that returns on reports it rejects resolves with the first accepted report: none exactly when no report is accepted, otherwise an accepted one with no accepted report before it |
| ByteCodec.S16 | assets/js/devicePEQ/walkplayHidHandler.js:173-174 | the signed decode lies in [-32768, 32767] and is the unsigned value or that value minus 65536 |
| ByteCodec.Le16RoundTrip | assets/js/devicePEQ/walkplayHidHandler.js:315-321 | the two low bytes of any integer, read back little-endian, give it modulo 2^16 |
| ByteCodec.UnsignedRoundTrip | assets/js/devicePEQ/walkplayHidHandler.js:166-169 | every value in [0, 65535] is recovered exactly from its two bytes by the unsigned decode |
| ByteCodec.SignedRoundTrip | assets/js/devicePEQ/walkplayHidHandler.js:173-174 | every value in [-32768, 32767] is recovered exactly from its two bytes by the signed decode |
| ByteCodec.Le32RoundTrip | assets/js/devicePEQ/walkplayHidHandler.js:303-308 | the four bytes `(v >> 8k) & 0xFF` for k < 4, read back little-endian, give v modulo 2^32 |
| ByteCodec.ByteAtWrap32 | assets/js/devicePEQ/walkplayHidHandler.js:304-307 | ToInt32's wrap by multiples of 2^32 leaves each of the four low bytes unchanged |
| ByteCodec.CoefficientBlockWords | assets/js/devicePEQ/moondropUsbHidHandler.js:132-142 | word k of the 20-byte block is coefficient k modulo 2^32; a word no coefficient reaches is 0 |
| ByteCodec.ToLittleEndianBytes | assets/js/devicePEQ/ktmicroUsbHidHandler.js:87-90 | two bytes whose unsigned little-endian value is round(value*scale) modulo 2^16 |
| ByteCodec.SignedBytesEqualUnsigned | assets/js/devicePEQ/ktmicroUsbHidHandler.js:87-96 | the signed helper produces the same two bytes as the unsigned one for every input |
| WalkplayFrames.IirBlockWords | assets/js/devicePEQ/walkplayHidHandler.js:297-309 | the block's five words are b0, b1, b2, -a1, -a2 in Q30, each modulo 2^32 |
| WalkplayFrames.Q30Error | assets/js/devicePEQ/walkplayHidHandler.js:324-328 | each quantised coefficient is within half a unit of d*2^30 |
| WalkplayFrames.ComputeIirFilter | assets/js/devicePEQ/walkplayHidHandler.js:289-312 | the in-place fill of the 20-byte array yields the coefficient block of the quantised biquad |
| WalkplayFrames.StoreWord | assets/js/devicePEQ/walkplayHidHandler.js:304-307 | the four stores put bytes 0-3 of the value at index..index+3 and change no other element |
| WalkplayFrames.ConvertToByteArray | assets/js/devicePEQ/walkplayHidHandler.js:315-321 | length bytes, byte i being byte i mod 4 of the value (the shift count is masked to five bits) |
| WalkplayFrames.WriteFrameLayout | assets/js/devicePEQ/walkplayHidHandler.js:70-79 | 37 bytes: header [1,9,0x18,0,i,0,0], the coefficient block at 7-26, truncated freq, round(q*256) and round(gain*256) as LE16 at 27-32, then [2,0,slot,0] |
| WalkplayFrames.BuildFilterFrame | assets/js/devicePEQ/walkplayHidHandler.js:68-79 | the packet literal of the push loop is the write frame of filter i |
| WalkplayFrames.PushToDevice | assets/js/devicePEQ/walkplayHidHandler.js:66-85 | one write frame per input filter in index order, with no cap, then the TEMP_WRITE and FLASH_EQ frames, and nothing else |
| WalkplayFrames.ConvertToFilterType | assets/js/devicePEQ/walkplayHidHandler.js:190-197 | byte 1 iff LSQ, byte 3 iff HSQ, every other byte PK |
| WalkplayFrames.ParseFilterPacket | assets/js/devicePEQ/walkplayHidHandler.js:158-188 | an error exactly for packets under 32 bytes; otherwise index byte 4, freq the unsigned LE16 at bytes 27-28, q and gain the 8.8 values at 29-30 and 31-32 to the tenth (byte 32 read as 0 when absent), the type from byte 26, and disabled exactly when freq, q and gain are all zero |
| WalkplayFrames.ParseWriteFrame | assets/js/devicePEQ/walkplayHidHandler.js:163-175 | a write frame parses back to its index mod 256, its truncated freq, and q and gain as their 8.8 values to the tenth, whenever they fit 16 bits |
| WalkplayFrames.ShortPacketGain | assets/js/devicePEQ/walkplayHidHandler.js:159-175 | a 32-byte packet passes the length guard and its gain comes from byte 31 alone, the missing byte 32 counting as 0 |
| WalkplayFrames.ParseGlobalGain | assets/js/devicePEQ/walkplayHidHandler.js:280-286 | 0 under 40 bytes, else the signed LE16 at bytes 38-39 over 256, always within [-128, 128) |
| WalkplayFrames.EnableFrame | assets/js/devicePEQ/walkplayHidHandler.js:198-203 | [1, 1, 0, slot, 0] when enabling, slot 0 when disabling |
| WalkplayFrames.GetCurrentSlot | assets/js/devicePEQ/walkplayHidHandler.js:24-54 | the VERSION request always goes out; the PEQ_VALUES request goes out iff the version reply parses; a missing reply is a timeout; an unparsable version resolves empty; otherwise the slot is byte 35 of the reply, present exactly when the reply is longer than 35 bytes |
| WalkplayFrames.SlotOffsets | assets/js/devicePEQ/walkplayHidHandler.js:113-116 | in a write frame the slot is byte 35 and byte 36, which the pull listener takes as the slot, is END |
| WalkplayPull.AbsorbAllKeepsIndexing | assets/js/devicePEQ/walkplayHidHandler.js:98-117 | the listener stores every filter at the index its report names, never drops an index, and only touches indices below 256 |
| WalkplayPull.LaterReportWins | assets/js/devicePEQ/walkplayHidHandler.js:102-106 | a later filter report for an index replaces the earlier one and adds exactly that index |
| WalkplayPull.PullListener.constructor | assets/js/devicePEQ/walkplayHidHandler.js:94-96 | no filters, global gain 0, current slot -1 |
| WalkplayPull.PullListener.OnInputReport | assets/js/devicePEQ/walkplayHidHandler.js:98-117 | the new state is the old one with the filter (>= 32 bytes), global gain (>= 40) and slot at byte 36 (>= 37) taken from the report |
| WalkplayPull.PullListener.Deliver | assets/js/devicePEQ/walkplayHidHandler.js:98-117 | reports arriving in order update the state as the fold of the listener over them |
| WalkplayPull.SweepFrames | assets/js/devicePEQ/walkplayHidHandler.js:120-123 | the sweep sends eight read requests |
| WalkplayPull.RetryFrames | assets/js/devicePEQ/walkplayHidHandler.js:136-142 | the retry sends one read request per missing index and nothing else |
| WalkplayPull.MissingIndices | assets/js/devicePEQ/walkplayHidHandler.js:129-134 | the ascending list of exactly the indices below 8 with no stored filter |
| WalkplayPull.AwaitTagging | assets/js/devicePEQ/walkplayHidHandler.js:244-277 | complete is the negation of timedOut; a complete result holds 8 entries; a timed-out one holds another number, with receivedCount that number and expectedCount 8 |
| WalkplayPull.TimedOutSeesEverything | assets/js/devicePEQ/walkplayHidHandler.js:246-257 | a timed-out pull has taken in every report, and receivedCount counts the distinct indices they filled |
| WalkplayPull.StrayIndexCompletes | assets/js/devicePEQ/walkplayHidHandler.js:145-146 | replies for indices 0..6 plus a stray index 9 make the pull complete with filter 7 absent |
| WalkplayPull.WaitForFilters | assets/js/devicePEQ/walkplayHidHandler.js:244-277 | the poller over the live listener state gives the tagged result of the batches, and that result is the listener's state when it resolves |
| WalkplayPull.PullFromDevice | assets/js/devicePEQ/walkplayHidHandler.js:90-156 | the frames sent are the sweep then one retry per missing index; the retry list is the missing list after the sweep; the result is the tagged wait over all later reports |
| MoondropFrames.ReadPacket | assets/js/devicePEQ/moondropUsbHidHandler.js:11-13 | exactly [0x80, 9, 0, 0, index mod 256] |
| MoondropFrames.Int8 | assets/js/devicePEQ/moondropUsbHidHandler.js:16-22 | the Int8Array view of a byte lies in [-128, 128) and is the byte or the byte minus 256 |
| MoondropFrames.FloorTenth | assets/js/devicePEQ/moondropUsbHidHandler.js:23 | the gain floored to a tenth: a whole number of tenths, at most the gain and within 0.1 of it |
| MoondropFrames.DecodeFilterResponse | assets/js/devicePEQ/moondropUsbHidHandler.js:15-34 | valid iff 10 < freq < 24000 and the gain byte exists (gain not NaN); invalid gives exactly the disabled sentinel; valid gives freq, q and the gain floored to a tenth, typed PK |
| MoondropFrames.EncodeBiquad | assets/js/devicePEQ/moondropUsbHidHandler.js:116-130 | five coefficients [b0, b1, b2, -b1, -a2], each within half a unit of its real value times 2^30 |
| MoondropFrames.EncodeToByteArray | assets/js/devicePEQ/moondropUsbHidHandler.js:132-142 | the in-place fill yields the 20-byte block with coefficient i little-endian at 4i..4i+3 |
| MoondropFrames.BuildWritePacket | assets/js/devicePEQ/moondropUsbHidHandler.js:144-166 | the index-by-index fill of the 63-byte array yields the write frame of the filter |
| MoondropFrames.SetAt | assets/js/devicePEQ/moondropUsbHidHandler.js:153 | copying into the array from an offset changes exactly the elements it covers |
| MoondropFrames.WritePacketLayout | assets/js/devicePEQ/moondropUsbHidHandler.js:144-166 | bytes 0-4 are [1, 9, 0, 0, index], 7-26 the coefficient block, 33-35 are [2, 0, 7], and bytes 5, 6 and 36-62 are zero |
| MoondropFrames.QBytesRoundTrip | assets/js/devicePEQ/moondropUsbHidHandler.js:157-158 | a q in [0, 256) that is a multiple of 1/256 is recovered exactly from its integer and fraction bytes |
| MoondropFrames.GainBytesRoundTrip | assets/js/devicePEQ/moondropUsbHidHandler.js:159-160 | a gain with floor in [-128, 127] that is a multiple of 1/256 is recovered exactly, negative gains included, by the Int8 decode |
| MoondropFrames.WriteThenDecode | assets/js/devicePEQ/moondropUsbHidHandler.js:155-160 | a reply carrying bytes 27-32 of a write frame decodes to the written freq and q and the gain floored to a tenth |
| MoondropFrames.FractionWrapsToZero | assets/js/devicePEQ/moondropUsbHidHandler.js:157-158 | q = 0.999 has a fraction byte that rounds to 256 and is stored as 0, so it is sent as 0 |
| MoondropFrames.EnablePacket | assets/js/devicePEQ/moondropUsbHidHandler.js:168-178 | 63 bytes: [1, 10, index, 0, 255, 255, 255] then zeros |
| MoondropFrames.BuildEnablePacket | assets/js/devicePEQ/moondropUsbHidHandler.js:168-178 | the index-by-index fill yields the enable frame |
| MoondropFrames.GetCurrentSlot | assets/js/devicePEQ/moondropUsbHidHandler.js:36-61 | sends [0x80, 0x0F, 0]; times out iff no report starts 0x80 0x0F; else resolves with byte 3 of the first such report |
| MoondropFrames.PullFromDevice | assets/js/devicePEQ/moondropUsbHidHandler.js:63-103 | succeeds iff every read 0..maxFilters-1 gets a report starting 0x80 0x09, whatever its index byte, giving their decodings in order and global gain 0; otherwise a timeout right after the first unanswered read, every earlier read having been answered |
| MoondropFrames.PushFramesAt | assets/js/devicePEQ/moondropUsbHidHandler.js:187-195 | frame 2i writes filter i and frame 2i+1 enables it |
| MoondropFrames.PushToDevice | assets/js/devicePEQ/moondropUsbHidHandler.js:184-203 | min(count, maxFilters) write/enable pairs in order, then the save frame [1, 1, 0]; the result is false |
| KtmicroFrames.FieldIdsDistinct | assets/js/devicePEQ/ktmicroUsbHidHandler.js:29-30 | no gain/freq id is a q id, and each id belongs to one filter |
| KtmicroFrames.ReadPacket | assets/js/devicePEQ/ktmicroUsbHidHandler.js:8-10 | nine bytes: the id, READ (0x52) at byte 4, zeros elsewhere |
| KtmicroFrames.DecodeGain | assets/js/devicePEQ/ktmicroUsbHidHandler.js:12-16 | ten times the gain is the signed LE16 at bytes 6-7 (a missing byte read as 0), so it lies within [-3276.8, 3276.8) |
| KtmicroFrames.DecodeFreq | assets/js/devicePEQ/ktmicroUsbHidHandler.js:15 | NaN iff byte 8 is missing; else the LE16 at bytes 8-9 |
| KtmicroFrames.DecodeQ | assets/js/devicePEQ/ktmicroUsbHidHandler.js:19-22 | NaN iff byte 6 is missing; else the LE16 at bytes 6-7 in thousandths |
| KtmicroFrames.MergeIgnoresOthers | assets/js/devicePEQ/ktmicroUsbHidHandler.js:45-55 | a report that is not a read reply for one of the filter's two ids changes nothing |
| KtmicroFrames.LaterReplyOverwrites | assets/js/devicePEQ/ktmicroUsbHidHandler.js:47-50 | a later gain/freq reply overwrites the earlier one and leaves q alone |
| KtmicroFrames.ReadCompletesIffBothSeen | assets/js/devicePEQ/ktmicroUsbHidHandler.js:42-63 | a read completes iff its window holds both a gain/freq reply and a q reply for the filter (or the pending result has them) |
| KtmicroFrames.ReadValueFromReplies | assets/js/devicePEQ/ktmicroUsbHidHandler.js:42-63 | a completed read is typed PK with gain and freq decoded from a gain/freq reply and q from a q reply of its window |
| KtmicroFrames.PendingFilter.constructor | assets/js/devicePEQ/ktmicroUsbHidHandler.js:36 | the pending result starts empty |
| KtmicroFrames.PendingFilter.OnInputReport | assets/js/devicePEQ/ktmicroUsbHidHandler.js:42-55 | the listener's Object.assign updates the pending result as Merge does |
| KtmicroFrames.ReadFullFilter | assets/js/devicePEQ/ktmicroUsbHidHandler.js:28-75 | sends the gain/freq and then the q request, and resolves as the fold of the merge over the window |
| KtmicroFrames.PullFromDevice | assets/js/devicePEQ/ktmicroUsbHidHandler.js:77-85 | succeeds iff every read 0..maxFilters-1 completes, giving their filters in order and global gain 0; otherwise a timeout right after the first read that does not complete, every earlier read having completed |
| KtmicroFrames.WritePacket | assets/js/devicePEQ/ktmicroUsbHidHandler.js:98-104 | ten bytes: the id, WRITE (0x57) at byte 4, round(gain*10) and round(freq) as LE16 at 6-7 and 8-9 |
| KtmicroFrames.QPacket | assets/js/devicePEQ/ktmicroUsbHidHandler.js:106-111 | ten bytes: the id, WRITE at byte 4, round(q*1000) as LE16 at 6-7, zeros at 8-9 |
| KtmicroFrames.QBytesOf141 | assets/js/devicePEQ/ktmicroUsbHidHandler.js:106-111 | q = 1.41 is sent as bytes [0x82, 0x05] |
| KtmicroFrames.GainBytesOf3dB | assets/js/devicePEQ/ktmicroUsbHidHandler.js:98-104 | a gain that rounds to 30 tenths is sent as bytes [0x1E, 0x00] |
| KtmicroFrames.HighIdsNeverRead | assets/js/devicePEQ/ktmicroUsbHidHandler.js:29-51 | a filter whose gain/frequency id 0x26+2i is 256 or more never matches a reply's id byte, so its read times out whatever arrives |
| KtmicroFrames.WriteThenRead | assets/js/devicePEQ/ktmicroUsbHidHandler.js:98-111 | answering a read with the two frames a push wrote gives round(freq), round(gain*10)/10 and round(q*1000)/1000 when they fit 16 bits and the ids fit a byte |
| KtmicroFrames.ReadOfTwoReplies | assets/js/devicePEQ/ktmicroUsbHidHandler.js:42-63 | a gain/freq reply followed by a q reply completes the read with their decodings |
| KtmicroFrames.PushFramesAt | assets/js/devicePEQ/ktmicroUsbHidHandler.js:121-136 | frame 2i writes filter i's gain/freq at id 0x26+2i and frame 2i+1 its q at 0x27+2i |
| KtmicroFrames.PushToDevice | assets/js/devicePEQ/ktmicroUsbHidHandler.js:119-148 | min(count, maxFilters) field-write pairs in order, then the commit; the result is disconnectOnSave |
| KtmicroFrames.GetCurrentSlot | assets/js/devicePEQ/ktmicroUsbHidHandler.js:24-26 | always 101 |
| JdsLabsSerial.Frame | assets/js/devicePEQ/jdsLabsUsbSerialHandler.js:9-15 | the payload is the JSON text followed by exactly one NUL |
| JdsLabsSerial.BeforeNul | assets/js/devicePEQ/jdsLabsUsbSerialHandler.js:25 | `split("\0")[0]` is a prefix with no NUL, ended by a NUL unless it is the whole text |
| JdsLabsSerial.ReadJsonResponse | assets/js/devicePEQ/jdsLabsUsbSerialHandler.js:17-33 | reads until the buffer first holds a NUL and returns the text before it, later chunks unread; returns nothing after reading a stream with no NUL |
| JdsLabsSerial.FramedReplyRoundTrip | assets/js/devicePEQ/jdsLabsUsbSerialHandler.js:9-33 | a reply framed like a command is read back as exactly its text, however it is chunked and whatever follows |
| JdsLabsSerial.GetCurrentSlot | assets/js/devicePEQ/jdsLabsUsbSerialHandler.js:35-43 | sends the Describe command {Product, Action: "Describe"}; fails iff the reply, Configuration or General is falsy; else 0 iff `Input Mode.Current` is "USB", 1 otherwise |
| JdsLabsSerial.NoInputModeIsSlot1 | assets/js/devicePEQ/jdsLabsUsbSerialHandler.js:41-42 | a reply without an input mode gives slot 1 |
| JdsLabsSerial.PullFromDevice | assets/js/devicePEQ/jdsLabsUsbSerialHandler.js:45-73 | sends the Describe command; an invalid Describe reply fails, a missing Headphone object is a TypeError, otherwise the collected filters with the preamp gain |
| JdsLabsSerial.CollectFilters | assets/js/devicePEQ/jdsLabsUsbSerialHandler.js:61-69 | the loop over the names, skipping falsy entries and failing on one without its fields, yields the collection of all ten names |
| JdsLabsSerial.CollectFailsIff | assets/js/devicePEQ/jdsLabsUsbSerialHandler.js:61-69 | collecting fails, with a TypeError, iff some truthy entry lacks Frequency, Gain or Q |
| JdsLabsSerial.CollectErrorSticks | assets/js/devicePEQ/jdsLabsUsbSerialHandler.js:61-69 | once a name fails the pull fails with that error whatever the later names hold |
| JdsLabsSerial.PresentAscending | assets/js/devicePEQ/jdsLabsUsbSerialHandler.js:61-63 | the names taken are in fixed-name order, at most one per name |
| JdsLabsSerial.PresentExactly | assets/js/devicePEQ/jdsLabsUsbSerialHandler.js:61-63 | a name is taken iff its entry is truthy |
| JdsLabsSerial.CollectFollowsPresent | assets/js/devicePEQ/jdsLabsUsbSerialHandler.js:61-69 | filter j is made from the `.Current` values of the j-th taken name's entry |
| JdsLabsSerial.PullYieldsAtMostTen | assets/js/devicePEQ/jdsLabsUsbSerialHandler.js:54-69 | a pull yields at most ten filters |
| JdsLabsSerial.UpdatePayload | assets/js/devicePEQ/jdsLabsUsbSerialHandler.js:76-103 | a TypeError iff fewer than ten filters are given |
| JdsLabsSerial.UpdatePayloadLayout | assets/js/devicePEQ/jdsLabsUsbSerialHandler.js:82-103 | Product and Action "Update", and the Headphone object under Configuration.DSP |
| JdsLabsSerial.UpdatePayloadIgnoresExtra | assets/js/devicePEQ/jdsLabsUsbSerialHandler.js:90-99 | filters past the tenth do not change the payload |
| JdsLabsSerial.HeadphoneKeysDistinct | assets/js/devicePEQ/jdsLabsUsbSerialHandler.js:88-100 | the Headphone object's keys are pairwise distinct |
| JdsLabsSerial.HeadphoneObjNames | assets/js/devicePEQ/jdsLabsUsbSerialHandler.js:88-100 | Preamp is {Gain: globalGain, Mode: "AUTO"} and the k-th name holds filters[k] |
| JdsLabsSerial.PullOfUpdate | assets/js/devicePEQ/jdsLabsUsbSerialHandler.js:61-99 | pulling the payload of an update gives ten filters with no frequency, gain or q and a preamp gain of 0, since the update holds bare numbers where the pull reads `.Current` |
| JdsLabsSerial.PushToDevice | assets/js/devicePEQ/jdsLabsUsbSerialHandler.js:75-111 | the payload is sent iff it can be built; the push succeeds iff it was sent and the reply's Status is exactly true, otherwise it fails as not confirmed |

## Left out

- `usbHidConnector.js` is not part of this model. It covers device discovery, opening and closing devices, and dispatch to the handlers.
- The floating-point biquad design (sin, cos, pow of frequency, gain and q) in `computeIIRFilter` and `encodeBiquad` is a function-typed parameter `Design`. Only the quantisation, the ordering and the byte packing of its output are modelled.
- Numbers are exact reals, not IEEE doubles. Rounding error in products such as `q * 256` is not modelled.
- Timers, promises and pacing delays are left out. These are `setTimeout`, `setInterval`, `delay`, and the 1 s, 5 s and 15 s deadlines. A deadline is the end of the finite sequence of reports given to a read; for the Walkplay poller it is the end of the last batch.
- `device.sendReport`, the serial reader and writer, `TextEncoder` and `TextDecoder` are left out. Sending is an emitted frame log, and the serial stream is a sequence of already-decoded strings.
- `JSON.stringify` and `JSON.parse` are left out: commands and replies are values of the `Json` datatype. A parse error of the reply text is not modelled.
- Console output and the `deviceDetails.version` side effect are left out.
- The "Device not connected" guards are left out: every operation works on a connected device.
- `enablePEQ` of Moondrop, KTMicro and JDS Labs is a no-op and has no model.
- Moondrop's `toLittleEndianBytes` and `toSignedLittleEndianBytes` are defined but unused. They are the same code as KTMicro's, modelled once in `ByteCodec`.
- WalkplayFrames.GetCurrentSlot: `parseFloat` of the firmware version is the parameter `versionParses`. The stored version number is not modelled.
- WalkplayFrames.PushToDevice: the slot is an integer. The string slot that the handler converts with `parseInt` is not modelled.
- WalkplayPull.PullFromDevice: the reports that arrive during the sweep, during the retries and between polls are parameters. Interleavings inside a sweep are not distinguished, since the listener state does not depend on them.
- JdsLabsSerial.PushToDevice: the handler resolves with `undefined` on success, modelled as `false` (no reboot needed).
- JdsLabsSerial.GetCurrentSlot: the handler's error is an exception with a message, modelled as `InvalidResponse`.
- WalkplayPull.WaitForFilters: the handler's result shares the array of the listener, which stays installed after the wait, so later stray reports still change it. The model returns the listener's state at resolution as a value.
