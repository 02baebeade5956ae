/**
 * JDS Labs Element IV over USB serial: JSON commands framed by a NUL, the
 * Describe reply read for the current slot and the filters, and the Update
 * command of a push.
 *
 * JSON text is not parsed or printed here: a command is the JSON value the
 * handler would stringify, and a reply is the value JSON.parse returned
 * (JNull when the stream ended without a reply, which behaves like the
 * handler's `null`).
 */
module JdsLabsSerial {
  import opened PeqTypes

  datatype Json =
    | JNull
    | JBool(b: bool)
    | JNum(n: real)
    | JStr(s: string)
    | JArr(items: seq<Json>)
    | JObj(members: seq<Member>)

  datatype Member = Member(key: string, value: Json)

  const NUL: char := '\0'

  /** `member` lookup in an object: the last member with the key wins, as in JSON.parse. */
  function Lookup(members: seq<Member>, key: string): (r: Option<Json>)
    ensures r.None? <==> forall i :: 0 <= i < |members| ==> members[i].key != key
    ensures r.Some? ==> exists i :: 0 <= i < |members| && members[i].key == key && members[i].value == r.value
                                    && forall j :: i < j < |members| ==> members[j].key != key
  {
    if members == [] then None
    else if members[|members| - 1].key == key then Some(members[|members| - 1].value)
    else Lookup(members[..|members| - 1], key)
  }

  /**
   * `v.key` on a value that is not null or undefined: an object's member,
   * or undefined (None) for any other value, none of which has the
   * property names the handler reads.
   */
  function Get(v: Json, key: string): Option<Json>
  {
    if v.JObj? then Lookup(v.members, key) else None
  }

  /** null or undefined: reading a property of it throws a TypeError. */
  predicate Nullish(v: Option<Json>)
  {
    v.None? || v.value.JNull?
  }

  /** `v?.key`. */
  function OptGet(v: Option<Json>, key: string): Option<Json>
  {
    if Nullish(v) then None else Get(v.value, key)
  }

  /** JavaScript truthiness of a value (undefined is None). */
  predicate Truthy(v: Option<Json>)
  {
    match v
    case None => false
    case Some(JNull) => false
    case Some(JBool(b)) => b
    case Some(JNum(n)) => n != 0.0
    case Some(JStr(s)) => s != ""
    case Some(JArr(_)) => true
    case Some(JObj(_)) => true
  }

  // ---------------------------------------------------------------------
  // Framing

  /** sendJsonCommand's payload: the JSON text followed by one NUL. */
  function Frame(text: string): (p: string)
    ensures |p| == |text| + 1 && p[..|text|] == text && p[|text|] == NUL
  {
    text + [NUL]
  }

  /** `s.split("\0")[0]`: the text before the first NUL, or all of s. */
  function BeforeNul(s: string): (r: string)
    ensures r <= s && NUL !in r
    ensures |r| < |s| ==> s[|r|] == NUL
  {
    if s == [] then []
    else if s[0] == NUL then []
    else [s[0]] + BeforeNul(s[1..])
  }

  /** The text of the chunks read so far, in order. */
  function Concat(chunks: seq<string>): string
  {
    if chunks == [] then [] else Concat(chunks[..|chunks| - 1]) + chunks[|chunks| - 1]
  }

  /**
   * What readJsonResponse does with a stream of decoded chunks: it reads
   * until the accumulated text first holds a NUL and returns the text
   * before that NUL, leaving later chunks unread; if the stream ends
   * first it has read everything and returns no reply.
   */
  ghost predicate ReadOutcome(chunks: seq<string>, read: nat, text: Option<string>)
  {
    && read <= |chunks|
    && (text.None? ==> read == |chunks| && NUL !in Concat(chunks))
    && (text.Some? ==>
          && 1 <= read
          && NUL in Concat(chunks[..read])
          && NUL !in Concat(chunks[..read - 1])
          && text.value == BeforeNul(Concat(chunks[..read])))
  }

  /** readJsonResponse's loop, appending each chunk to the buffer. */
  method ReadJsonResponse(chunks: seq<string>) returns (read: nat, text: Option<string>)
    ensures ReadOutcome(chunks, read, text)
  {
    var buffer := "";
    read := 0;
    while read < |chunks|
      invariant 0 <= read <= |chunks|
      invariant buffer == Concat(chunks[..read])
      invariant NUL !in buffer
    {
      buffer := buffer + chunks[read];
      read := read + 1;
      assert chunks[..read][..read - 1] == chunks[..read - 1];
      if NUL in buffer {
        return read, Some(BeforeNul(buffer));
      }
    }
    assert chunks[..read] == chunks;
    text := None;
  }

  /** The text of the first k chunks is a prefix of the text of all of them. */
  lemma {:induction false} ConcatPrefix(chunks: seq<string>, k: nat)
    requires k <= |chunks|
    ensures Concat(chunks[..k]) <= Concat(chunks)
    decreases |chunks|
  {
    if k < |chunks| {
      var init := chunks[..|chunks| - 1];
      assert init[..k] == chunks[..k];
      ConcatPrefix(init, k);
    } else {
      assert chunks[..k] == chunks;
    }
  }

  /** A string that starts with `text` and a NUL, text holding none, splits back to text. */
  lemma BeforeFramedNul(text: string, s: string)
    requires NUL !in text && Frame(text) <= s
    ensures BeforeNul(s) == text
  {
    var r := BeforeNul(s);
    assert r == s[..|r|] && text == s[..|text|];
  }

  /**
   * Framing round trip: a reply framed like an outgoing command (a JSON
   * text without raw NULs, then a NUL), however the stream chunks it and
   * whatever follows it, is read back as exactly that text.
   */
  lemma FramedReplyRoundTrip(text: string, chunks: seq<string>, read: nat, r: Option<string>)
    requires NUL !in text && Frame(text) <= Concat(chunks)
    requires ReadOutcome(chunks, read, r)
    ensures r == Some(text)
  {
    assert Concat(chunks)[|text|] == NUL;
    var s := Concat(chunks[..read]);
    ConcatPrefix(chunks, read);
    var m :| 0 <= m < |s| && s[m] == NUL;
    assert Concat(chunks)[m] == NUL;
    assert Frame(text) <= s;
    BeforeFramedNul(text, s);
  }

  // ---------------------------------------------------------------------
  // Describe: current slot and filters

  const PRODUCT: string := "JDS Labs Element IV"

  /** The Describe command sent before reading the slot or the filters. */
  const DescribeCommand: Json := JObj([Member("Product", JStr(PRODUCT)), Member("Action", JStr("Describe"))])

  /**
   * getCurrentSlot: sends the Describe command; the reply, its
   * Configuration and its General must all be truthy; the slot is 0 when
   * the input mode is "USB" and 1 otherwise, also when no input mode is
   * reported.
   */
  function GetCurrentSlot(response: Json): (r: (Json, Result<int>))
    ensures r.0 == DescribeCommand
    ensures r.1.Err? <==> !Truthy(Some(response))
                          || !Truthy(Get(response, "Configuration"))
                          || !Truthy(Get(Get(response, "Configuration").value, "General"))
    ensures r.1.Err? ==> r.1.error == InvalidResponse
    ensures r.1.Ok? ==> (r.1.value == 0 || r.1.value == 1)
    ensures r.1.Ok? ==>
      var general := Get(Get(response, "Configuration").value, "General").value;
      (r.1.value == 0 <==> OptGet(Get(general, "Input Mode"), "Current") == Some(JStr("USB")))
  {
    (DescribeCommand,
     if !Truthy(Some(response)) then Err(InvalidResponse)
     else
       var configuration := Get(response, "Configuration");
       if !Truthy(configuration) then Err(InvalidResponse)
       else
         var general := Get(configuration.value, "General");
         if !Truthy(general) then Err(InvalidResponse)
         else
           var currentInput := OptGet(Get(general.value, "Input Mode"), "Current");
           Ok(if currentInput == Some(JStr("USB")) then 0 else 1))
  }

  /** A reply without an input mode reads as slot 1. */
  lemma NoInputModeIsSlot1(response: Json)
    requires GetCurrentSlot(response).1.Ok?
    requires Get(Get(Get(response, "Configuration").value, "General").value, "Input Mode").None?
    ensures GetCurrentSlot(response).1 == Ok(1)
  {
  }

  /** The named filters of the headphone output, in the order they are read and written. */
  const FilterNames: seq<string> :=
    ["Lowshelf", "Peaking 1", "Peaking 2", "Peaking 3", "Peaking 4",
     "Peaking 5", "Peaking 6", "Peaking 7", "Peaking 8", "Highshelf"]

  /** A filter as pulled: each field is whatever `.Current` held, possibly undefined. */
  datatype JdsFilter = JdsFilter(freq: Option<Json>, gain: Option<Json>, q: Option<Json>)

  datatype PullOutcome = PullOutcome(filters: seq<JdsFilter>, globalGain: Json)

  /** The reply passes the first check of pullFromDevice: reply, Configuration and DSP truthy. */
  predicate HasDsp(response: Json)
  {
    Truthy(Some(response)) && Truthy(Get(response, "Configuration"))
    && Truthy(Get(Get(response, "Configuration").value, "DSP"))
  }

  /** `response.Configuration.DSP.Headphone`, possibly undefined. */
  function Headphone(response: Json): Option<Json>
    requires HasDsp(response)
  {
    Get(Get(Get(response, "Configuration").value, "DSP").value, "Headphone")
  }

  /** The entry of the i-th filter name. */
  function Entry(headphone: Json, i: nat): Option<Json>
    requires i < |FilterNames|
  {
    Get(headphone, FilterNames[i])
  }

  /** A taken entry has Frequency, Gain and Q that are not null or undefined. */
  predicate HasFields(entry: Json)
  {
    !Nullish(Get(entry, "Frequency")) && !Nullish(Get(entry, "Gain")) && !Nullish(Get(entry, "Q"))
  }

  /** The pulled filter of an entry. */
  function MakeFilter(entry: Json): JdsFilter
    requires HasFields(entry)
  {
    JdsFilter(Get(Get(entry, "Frequency").value, "Current"),
              Get(Get(entry, "Gain").value, "Current"),
              Get(Get(entry, "Q").value, "Current"))
  }

  /** The entries of the ten names, in order. */
  function Entries(headphone: Json): (entries: seq<Option<Json>>)
    ensures |entries| == |FilterNames|
  {
    seq(|FilterNames|, k requires 0 <= k < |FilterNames| => Entry(headphone, k))
  }

  /** The first n entries processed: falsy ones skipped, one without its fields a TypeError. */
  function Collect(entries: seq<Option<Json>>, n: nat): Result<seq<JdsFilter>>
    requires n <= |entries|
  {
    if n == 0 then Ok([])
    else
      match Collect(entries, n - 1)
      case Err(e) => Err(e)
      case Ok(filters) =>
        var entry := entries[n - 1];
        if !Truthy(entry) then Ok(filters)
        else if !HasFields(entry.value) then Err(TypeError)
        else Ok(filters + [MakeFilter(entry.value)])
  }

  /** `headphoneConfig.Preamp?.Gain?.Current || 0`. */
  function PreampGain(headphone: Json): Json
  {
    var current := OptGet(OptGet(Get(headphone, "Preamp"), "Gain"), "Current");
    if Truthy(current) then current.value else JNum(0.0)
  }

  /** pullFromDevice's result for a Describe reply. */
  function PullResult(response: Json): Result<PullOutcome>
  {
    if !HasDsp(response) then Err(InvalidResponse)
    else
      var headphone := Headphone(response);
      if Nullish(headphone) then Err(TypeError)
      else
        match Collect(Entries(headphone.value), |FilterNames|)
        case Err(e) => Err(e)
        case Ok(filters) => Ok(PullOutcome(filters, PreampGain(headphone.value)))
  }

  /** pullFromDevice: the Describe command, the guards on its reply, the loop over the names, then the preamp gain. */
  method PullFromDevice(response: Json) returns (sent: Json, result: Result<PullOutcome>)
    ensures sent == DescribeCommand
    ensures result == PullResult(response)
  {
    sent := DescribeCommand;
    if !HasDsp(response) {
      return sent, Err(InvalidResponse);
    }
    var headphone := Headphone(response);
    if Nullish(headphone) {
      return sent, Err(TypeError);
    }
    var collected := CollectFilters(headphone.value);
    if collected.Err? {
      return sent, Err(collected.error);
    }
    result := Ok(PullOutcome(collected.value, PreampGain(headphone.value)));
  }

  /** The `for…of` over the filter names, pushing the filter of each truthy entry. */
  method CollectFilters(headphone: Json) returns (result: Result<seq<JdsFilter>>)
    ensures result == Collect(Entries(headphone), |FilterNames|)
  {
    var filters: seq<JdsFilter> := [];
    for i := 0 to |FilterNames|
      invariant Collect(Entries(headphone), i) == Ok(filters)
    {
      var filter := Entry(headphone, i);
      if !Truthy(filter) {
        continue;
      }
      if !HasFields(filter.value) {
        CollectErrorSticks(Entries(headphone), i + 1, |FilterNames|);
        return Err(TypeError);
      }
      filters := filters + [MakeFilter(filter.value)];
    }
    result := Ok(filters);
  }

  /** The indices below n whose entry is truthy, ascending. */
  function Present(entries: seq<Option<Json>>, n: nat): seq<nat>
    requires n <= |entries|
  {
    if n == 0 then []
    else Present(entries, n - 1) + (if Truthy(entries[n - 1]) then [n - 1] else [])
  }

  /** Once an entry fails, the collection fails with that error whatever the later entries hold. */
  lemma {:induction false} CollectErrorSticks(entries: seq<Option<Json>>, i: nat, n: nat)
    requires i <= n <= |entries| && Collect(entries, i).Err?
    ensures Collect(entries, n) == Collect(entries, i)
    decreases n
  {
    if n > i {
      CollectErrorSticks(entries, i, n - 1);
    }
  }

  /**
   * Collecting the first n entries fails, with a TypeError, exactly when a
   * truthy one among them lacks its fields.
   */
  lemma {:induction false} CollectFailsIff(entries: seq<Option<Json>>, n: nat)
    requires n <= |entries|
    ensures Collect(entries, n).Ok? <==>
              forall i :: 0 <= i < n && Truthy(entries[i]) ==> HasFields(entries[i].value)
    ensures Collect(entries, n).Err? ==> Collect(entries, n).error == TypeError
  {
    if n > 0 {
      CollectFailsIff(entries, n - 1);
    }
  }

  /** The present indices below n are ascending and below n. */
  lemma {:induction false} PresentAscending(entries: seq<Option<Json>>, n: nat)
    requires n <= |entries|
    ensures var p := Present(entries, n);
      && |p| <= n
      && (forall j :: 0 <= j < |p| ==> p[j] < n)
      && (forall j, k :: 0 <= j < k < |p| ==> p[j] < p[k])
  {
    if n > 0 {
      PresentAscending(entries, n - 1);
    }
  }

  /** The present indices below n are exactly those whose entry is truthy. */
  lemma {:induction false} PresentExactly(entries: seq<Option<Json>>, n: nat)
    requires n <= |entries|
    ensures forall i :: 0 <= i < n ==> (i in Present(entries, n) <==> Truthy(entries[i]))
  {
    if n > 0 {
      PresentExactly(entries, n - 1);
      PresentAscending(entries, n - 1);
    }
  }

  /**
   * A successful collection holds one filter per truthy entry, in order:
   * filter j is made from the j-th present entry.
   */
  lemma {:induction false} CollectFollowsPresent(entries: seq<Option<Json>>, n: nat)
    requires n <= |entries| && Collect(entries, n).Ok?
    ensures var p := Present(entries, n);
      && |Collect(entries, n).value| == |p|
      && (forall j :: 0 <= j < |p| ==>
            (&& p[j] < n && Truthy(entries[p[j]]) && HasFields(entries[p[j]].value)
             && Collect(entries, n).value[j] == MakeFilter(entries[p[j]].value)))
  {
    if n > 0 {
      assert Collect(entries, n - 1).Ok?;
      CollectFollowsPresent(entries, n - 1);
      var prev, p := Collect(entries, n - 1).value, Present(entries, n - 1);
      var c, q := Collect(entries, n).value, Present(entries, n);
      if Truthy(entries[n - 1]) {
        assert c == prev + [MakeFilter(entries[n - 1].value)] && q == p + [n - 1];
      } else {
        assert c == prev && q == p;
      }
    }
  }

  /** A pull yields at most one filter per name. */
  lemma PullYieldsAtMostTen(response: Json)
    requires PullResult(response).Ok?
    ensures |PullResult(response).value.filters| <= |FilterNames|
  {
    var entries := Entries(Headphone(response).value);
    CollectFollowsPresent(entries, |FilterNames|);
    PresentAscending(entries, |FilterNames|);
  }

  // ---------------------------------------------------------------------
  // Update

  /** makeFilterObj. */
  function FilterObj(f: Filter): Json
  {
    JObj([Member("Gain", JNum(f.gain)), Member("Frequency", JNum(f.freq)), Member("Q", JNum(f.q))])
  }

  function PreampObj(globalGain: real): Json
  {
    JObj([Member("Gain", JNum(globalGain)), Member("Mode", JStr("AUTO"))])
  }

  /** The Headphone object of an update: the preamp, then filters[k] under name k. */
  function HeadphoneObj(globalGain: real, filters: seq<Filter>): Json
    requires |filters| >= |FilterNames|
  {
    JObj([Member("Preamp", PreampObj(globalGain))]
         + seq(|FilterNames|, k requires 0 <= k < |FilterNames| => Member(FilterNames[k], FilterObj(filters[k]))))
  }

  /**
   * pushToDevice's payload. A list of fewer than ten filters makes
   * makeFilterObj read a property of undefined.
   */
  function UpdatePayload(globalGain: real, filters: seq<Filter>): (r: Result<Json>)
    ensures r.Err? <==> |filters| < |FilterNames|
    ensures r.Err? ==> r.error == TypeError
  {
    if |filters| < |FilterNames| then Err(TypeError)
    else Ok(JObj([
      Member("Product", JStr(PRODUCT)),
      Member("FormatOutput", JBool(true)),
      Member("Action", JStr("Update")),
      Member("Configuration", JObj([Member("DSP", JObj([Member("Headphone", HeadphoneObj(globalGain, filters))]))]))]))
  }

  /** The update is confirmed only by a reply whose Status is exactly true. */
  predicate Confirmed(response: Json)
  {
    OptGet(Some(response), "Status") == Some(JBool(true))
  }

  /**
   * pushToDevice: the payload sent (none when it cannot be built), then
   * success exactly when the payload was sent and the reply confirms it.
   */
  function PushToDevice(globalGain: real, filters: seq<Filter>, response: Json): (r: (Option<Json>, Result<bool>))
    ensures r.0.Some? <==> |filters| >= |FilterNames|
    ensures r.1.Ok? <==> |filters| >= |FilterNames| && Confirmed(response)
    ensures r.1.Err? && |filters| >= |FilterNames| ==> r.1.error == NotConfirmed
  {
    match UpdatePayload(globalGain, filters)
    case Err(e) => (None, Err(e))
    case Ok(payload) => (Some(payload), if Confirmed(response) then Ok(false) else Err(NotConfirmed))
  }

  /** The member keys of an update's Headphone object are pairwise distinct. */
  lemma HeadphoneKeysDistinct(globalGain: real, filters: seq<Filter>)
    requires |filters| >= |FilterNames|
    ensures var ms := HeadphoneObj(globalGain, filters).members;
      forall i, j :: 0 <= i < j < |ms| ==> ms[i].key != ms[j].key
  {
    var ms := HeadphoneObj(globalGain, filters).members;
    assert forall i :: 1 <= i < |ms| ==> ms[i].key == FilterNames[i - 1];
    assert forall i, j :: 0 <= i < j < |FilterNames| ==> FilterNames[i] != FilterNames[j] by {
      forall i, j | 0 <= i < j < |FilterNames|
        ensures FilterNames[i] != FilterNames[j]
      {
        NamesDiffer(i, j);
      }
    }
    assert forall i :: 0 <= i < |FilterNames| ==> FilterNames[i] != "Preamp" by {
      forall i | 0 <= i < |FilterNames|
        ensures FilterNames[i] != "Preamp"
      {
        assert FilterNames[i][0] != 'P' || |FilterNames[i]| != 6;
      }
    }
  }

  /** Two different filter names differ, by length or by their first or last character. */
  lemma NamesDiffer(i: nat, j: nat)
    requires i < j < |FilterNames|
    ensures FilterNames[i] != FilterNames[j]
  {
    var a, b := FilterNames[i], FilterNames[j];
    assert |a| != |b| || a[0] != b[0] || a[|a| - 1] != b[|b| - 1];
  }

  /** Lookup of a key that occurs once finds that member. */
  lemma LookupUnique(members: seq<Member>, i: nat)
    requires i < |members|
    requires forall a, b :: 0 <= a < b < |members| ==> members[a].key != members[b].key
    ensures Lookup(members, members[i].key) == Some(members[i].value)
  {
  }

  /**
   * The update payload: action Update, and the Headphone object of the
   * DSP configuration; filters past the tenth are not sent.
   */
  lemma UpdatePayloadLayout(globalGain: real, filters: seq<Filter>)
    requires |filters| >= |FilterNames|
    ensures var payload := UpdatePayload(globalGain, filters).value;
      && Get(payload, "Product") == Some(JStr(PRODUCT))
      && Get(payload, "Action") == Some(JStr("Update"))
      && HasDsp(payload) && Headphone(payload) == Some(HeadphoneObj(globalGain, filters))
  {
    var payload := UpdatePayload(globalGain, filters).value;
    var ms := payload.members;
    var dsp := JObj([Member("Headphone", HeadphoneObj(globalGain, filters))]);
    var conf := JObj([Member("DSP", dsp)]);
    assert ms[3] == Member("Configuration", conf);
    assert Get(payload, "Configuration") == Some(conf);
    assert Get(conf, "DSP") == Some(dsp);
    assert forall i :: 0 <= i < |ms| ==> |ms[i].key| == [7, 12, 6, 13][i];
    LookupUnique(ms, 0);
    LookupUnique(ms, 2);
  }

  /** Filters past the tenth do not reach the payload. */
  lemma UpdatePayloadIgnoresExtra(globalGain: real, filters: seq<Filter>)
    requires |filters| >= |FilterNames|
    ensures UpdatePayload(globalGain, filters) == UpdatePayload(globalGain, filters[..|FilterNames|])
  {
    var short := filters[..|FilterNames|];
    assert HeadphoneObj(globalGain, filters).members == HeadphoneObj(globalGain, short).members;
  }


  /**
   * The Headphone object of an update: filters[k] under the k-th name, and
   * the preamp with the global gain in AUTO mode.
   */
  lemma HeadphoneObjNames(globalGain: real, filters: seq<Filter>)
    requires |filters| >= |FilterNames|
    ensures Get(HeadphoneObj(globalGain, filters), "Preamp") == Some(PreampObj(globalGain))
    ensures forall k :: 0 <= k < |FilterNames| ==> Entry(HeadphoneObj(globalGain, filters), k) == Some(FilterObj(filters[k]))
  {
    var headphone := HeadphoneObj(globalGain, filters);
    var ms := headphone.members;
    HeadphoneKeysDistinct(globalGain, filters);
    forall k | 0 <= k < |FilterNames|
      ensures Entry(headphone, k) == Some(FilterObj(filters[k]))
    {
      assert ms[k + 1] == Member(FilterNames[k], FilterObj(filters[k]));
      LookupUnique(ms, k + 1);
    }
    LookupUnique(ms, 0);
  }

  /** The filter a pull makes of an entry whose fields have no `Current`. */
  const Unread: JdsFilter := JdsFilter(None, None, None)

  /**
   * An update carries bare numbers where a pull reads `.Current`: pulling
   * the payload of an update yields ten filters with no frequency, gain or
   * q, and a preamp gain of 0, whatever was pushed.
   */
  lemma PullOfUpdate(globalGain: real, filters: seq<Filter>)
    requires |filters| >= |FilterNames|
    ensures var r := PullResult(UpdatePayload(globalGain, filters).value);
      && r.Ok? && r.value.globalGain == JNum(0.0) && |r.value.filters| == |FilterNames|
      && forall k :: 0 <= k < |FilterNames| ==> r.value.filters[k] == Unread
  {
    var headphone := HeadphoneObj(globalGain, filters);
    UpdatePayloadLayout(globalGain, filters);
    EntriesOfUpdate(globalGain, filters);
    CollectUnread(Entries(headphone), |FilterNames|);
    PreampGainOfUpdate(globalGain, filters);
  }

  /** Every named entry of an update's Headphone object is a filter object without `Current`s. */
  lemma EntriesOfUpdate(globalGain: real, filters: seq<Filter>)
    requires |filters| >= |FilterNames|
    ensures var entries := Entries(HeadphoneObj(globalGain, filters));
      forall k :: 0 <= k < |entries| ==>
        Truthy(entries[k]) && HasFields(entries[k].value) && MakeFilter(entries[k].value) == Unread
  {
    var entries := Entries(HeadphoneObj(globalGain, filters));
    HeadphoneObjNames(globalGain, filters);
    forall k | 0 <= k < |entries|
      ensures Truthy(entries[k]) && HasFields(entries[k].value) && MakeFilter(entries[k].value) == Unread
    {
      assert entries[k] == Some(FilterObj(filters[k]));
      FilterObjUnread(filters[k]);
    }
  }

  /** The preamp of an update holds its gain as a bare number, so a pull reads its gain as 0. */
  lemma PreampGainOfUpdate(globalGain: real, filters: seq<Filter>)
    requires |filters| >= |FilterNames|
    ensures PreampGain(HeadphoneObj(globalGain, filters)) == JNum(0.0)
  {
    HeadphoneObjNames(globalGain, filters);
    var ms := PreampObj(globalGain).members;
    assert ms[1].key[0] != "Gain"[0];
    assert ms[..|ms| - 1] == [Member("Gain", JNum(globalGain))];
    assert Lookup(ms[..|ms| - 1], "Gain") == Some(JNum(globalGain));
    assert Lookup(ms, "Gain") == Lookup(ms[..|ms| - 1], "Gain");
    assert Get(PreampObj(globalGain), "Gain") == Some(JNum(globalGain));
  }

  /** A filter object of an update has its three fields, none of which has a `Current`. */
  lemma FilterObjUnread(f: Filter)
    ensures Truthy(Some(FilterObj(f))) && HasFields(FilterObj(f)) && MakeFilter(FilterObj(f)) == Unread
  {
    var ms := FilterObj(f).members;
    assert Lookup(ms, "Q") == Some(JNum(f.q));
    assert Lookup(ms, "Frequency") == Some(JNum(f.freq));
    assert ms[..2][..1] == [Member("Gain", JNum(f.gain))];
    assert Lookup(ms[..2], "Gain") == Some(JNum(f.gain));
    assert Lookup(ms, "Gain") == Some(JNum(f.gain));
  }

  /** Entries that all have fields without `Current` collect to that many unread filters. */
  lemma {:induction false} CollectUnread(entries: seq<Option<Json>>, n: nat)
    requires n <= |entries|
    requires forall k :: 0 <= k < |entries| ==>
               Truthy(entries[k]) && HasFields(entries[k].value) && MakeFilter(entries[k].value) == Unread
    ensures var r := Collect(entries, n);
      r.Ok? && |r.value| == n && forall k :: 0 <= k < n ==> r.value[k] == Unread
  {
    if n > 0 {
      CollectUnread(entries, n - 1);
      assert Truthy(entries[n - 1]) && HasFields(entries[n - 1].value);
    }
  }
}
