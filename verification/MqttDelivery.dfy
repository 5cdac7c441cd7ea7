/** From MQTT_EVENT_DATA to the callbacks: esp-mqtt hands over a message whole or in fragments. */
module MqttDelivery {
  import opened Bytes
  import opened MqttTable
  import Topics = MqttTopics

  /** A callback invocation. */
  datatype Call = Call(cb: int, priv: int, topic: bytes, data: bytes)

  /** MQTT_EVENT_DATA; only the first fragment of a message carries the topic. */
  datatype DataEvent = DataEvent(topic: Option<bytes>, data: bytes, offset: nat, total: nat)

  /** What strndup() copies: up to the first NUL. */
  function Cut(s: bytes): (r: bytes)
    ensures r <= s && 0 !in r && (|r| < |s| ==> s[|r|] == 0)
  {
    if s == [] || s[0] == 0 then [] else [s[0]] + Cut(s[1..])
  }

  lemma CutWhole(s: bytes)
    requires 0 !in s
    ensures Cut(s) == s
  {
  }

  // ---------------------------------------------------------------- subscribe_callback()

  predicate Matches(e: Option<Sub>, topic: bytes) { e.Some? && Topics.Scan(e.value.topic, topic) }

  /** The indices of the matching entries among the first k, in table order, each once. */
  function Matching(t: Table, topic: bytes, k: nat): (m: seq<nat>)
    requires k <= |t|
    ensures forall j :: 0 <= j < |m| ==> m[j] < k
    ensures forall i, j :: 0 <= i < j < |m| ==> m[i] < m[j]
    ensures forall i :: i in m <==> 0 <= i < k && Matches(t[i], topic)
  {
    if k == 0 then []
    else if Matches(t[k - 1], topic) then Matching(t, topic, k - 1) + [k - 1]
    else Matching(t, topic, k - 1)
  }

  /** The calls are one for each entry whose filter matches, in table order, with that entry's callback and
      private data, the topic and the data. */
  ghost predicate CallsEach(calls: seq<Call>, t: Table, topic: bytes, name: bytes, data: bytes) {
    var m := Matching(t, topic, |t|);
    && |calls| == |m|
    && forall j :: 0 <= j < |m| ==>
         && calls[j].cb == t[m[j]].value.cb && calls[j].priv == t[m[j]].value.priv
         && calls[j].topic == name && calls[j].data == data
  }

  /** One call per matching entry, in table order. */
  function Deliveries(t: Table, topic: bytes, data: bytes): seq<Call> {
    var m := Matching(t, topic, |t|);
    seq(|m|, j requires 0 <= j < |m| => Call(t[m[j]].value.cb, t[m[j]].value.priv, Cut(topic), data))
  }

  method SubscribeCallback(subscriptions: array<Option<Sub>>, topic: bytes, data: bytes) returns (calls: seq<Call>)
    ensures CallsEach(calls, subscriptions[..], topic, Cut(topic), data)
    ensures calls == Deliveries(subscriptions[..], topic, data)
  {
    var matches := CollectMatches(subscriptions, topic);
    ghost var t := subscriptions[..];
    calls := [];
    for j := 0 to |matches|
      invariant calls == Deliveries(t, topic, data)[..j]
    {
      calls := calls + [Call(matches[j].0, matches[j].1, Cut(topic), data)];
    }
  }

  /** The part under the lock: callback and priv of every matching entry. */
  method CollectMatches(subscriptions: array<Option<Sub>>, topic: bytes) returns (matches: seq<(int, int)>)
    ensures var m := Matching(subscriptions[..], topic, subscriptions.Length);
      |matches| == |m| && forall j :: 0 <= j < |m| ==>
        var e := subscriptions[..][m[j]].value; matches[j] == (e.cb, e.priv)
  {
    ghost var t := subscriptions[..];
    matches := [];
    for i := 0 to subscriptions.Length
      invariant |matches| == |Matching(t, topic, i)|
      invariant forall j :: 0 <= j < |matches| ==>
                  var e := t[Matching(t, topic, i)[j]].value; matches[j] == (e.cb, e.priv)
    {
      var e := subscriptions[i];
      assert e == t[i];
      if e.Some? {
        var hit := Topics.TopicMatches(e.value.topic, topic);
        if hit {
          matches := matches + [(e.value.cb, e.value.priv)];
        }
      }
    }
  }

  // ---------------------------------------------------------------- reassembly

  /** The message being put together: its topic and a buffer of its full length. */
  datatype Partial = Partial(topic: bytes, data: bytes)

  function Zeros(n: nat): (z: bytes)
    ensures |z| == n
  {
    seq(n, i => 0)
  }

  /** memcpy(buf + offset, data, |data|). */
  function Copied(buf: bytes, offset: nat, data: bytes): (r: bytes)
    requires offset + |data| <= |buf|
    ensures |r| == |buf|
  {
    buf[..offset] + data + buf[offset + |data|..]
  }

  /** The buffer a fragment goes to. */
  function Target(p: Option<Partial>, ev: DataEvent): Option<Partial> {
    if ev.topic.Some? then Some(Partial(Cut(ev.topic.value), Zeros(ev.total))) else p
  }

  /** What esp-mqtt guarantees: a whole message has its topic, a fragment lies within its message and
      carries the same total as the first. */
  predicate InBounds(p: Option<Partial>, ev: DataEvent) {
    && (|ev.data| == ev.total ==> ev.topic.Some?)
    && (|ev.data| != ev.total && Target(p, ev).Some? ==>
          ev.offset + |ev.data| <= ev.total && ev.total == |Target(p, ev).value.data|)
  }

  /** The MQTT_EVENT_DATA branch of the handler. */
  function OnData(t: Table, p: Option<Partial>, ev: DataEvent): (Option<Partial>, seq<Call>)
    requires InBounds(p, ev)
  {
    if |ev.data| == ev.total then (None, Deliveries(t, ev.topic.value, ev.data))
    else
      var q := Target(p, ev);
      if q.None? then (None, [])
      else
        var buf := Copied(q.value.data, ev.offset, ev.data);
        if ev.offset + |ev.data| == ev.total then (None, Deliveries(t, q.value.topic, buf))
        else (Some(Partial(q.value.topic, buf)), [])
  }

  class LongData {
    const data: array<byte>
    const topic: bytes

    constructor (topic: bytes, total: nat)
      ensures this.topic == topic && fresh(data) && data[..] == Zeros(total)
    {
      data := new byte[total](i => 0);
      this.topic := topic;
      new;
      assert data[..] == Zeros(total);
    }
  }

  /** The handler's static long_data pointer. */
  class Receiver {
    const subscriptions: array<Option<Sub>>
    var longData: LongData?

    constructor (subscriptions: array<Option<Sub>>)
      ensures this.subscriptions == subscriptions && longData == null
    {
      this.subscriptions, longData := subscriptions, null;
    }

    ghost function Value(): Option<Partial>
      reads this, longData, if longData != null then {longData.data} else {}
    {
      if longData == null then None else Some(Partial(longData.topic, longData.data[..]))
    }

    /** esp_mqtt_glue_manage_long_data(). */
    method ManageLongData(ev: DataEvent) returns (calls: seq<Call>)
      requires InBounds(Value(), ev) && |ev.data| != ev.total
      modifies this, if longData != null then {longData.data} else {}
      ensures (Value(), calls) == OnData(subscriptions[..], old(Value()), ev)
      ensures longData != null && longData != old(longData) ==> fresh(longData) && fresh(longData.data)
    {
      ghost var p, table := Value(), subscriptions[..];
      if ev.topic.Some? {
        longData := new LongData(Cut(ev.topic.value), ev.total);
      }
      if longData == null {
        return [];
      }
      assert Value() == Target(p, ev);
      CopyIn(longData.data, ev.offset, ev.data);
      calls := [];
      if ev.offset + |ev.data| == ev.total {
        calls := SubscribeCallback(subscriptions, longData.topic, longData.data[..]);
        longData := null;
      }
    }

    static method CopyIn(buf: array<byte>, offset: nat, data: bytes)
      requires offset + |data| <= buf.Length
      modifies buf
      ensures buf[..] == Copied(old(buf[..]), offset, data)
    {
      ghost var was := buf[..];
      for i := 0 to |data|
        invariant forall k :: 0 <= k < buf.Length ==> buf[k] == if offset <= k < offset + i then data[k - offset] else was[k]
      {
        buf[offset + i] := data[i];
      }
    }

    /** The MQTT_EVENT_DATA branch. */
    method OnEvent(ev: DataEvent) returns (calls: seq<Call>)
      requires InBounds(Value(), ev)
      modifies this, if longData != null then {longData.data} else {}
      ensures (Value(), calls) == OnData(subscriptions[..], old(Value()), ev)
    {
      if |ev.data| == ev.total {
        longData := null;
        calls := SubscribeCallback(subscriptions, ev.topic.value, ev.data);
      } else {
        calls := ManageLongData(ev);
      }
    }
  }

  // ---------------------------------------------------------------- whole or in fragments

  /** The events esp-mqtt reports for a message cut into fragments, from some fragment on. */
  function EventsFrom(topic: bytes, frags: seq<bytes>, offset: nat, total: nat): seq<DataEvent> {
    if frags == [] then []
    else [DataEvent(if offset == 0 then Some(topic) else None, frags[0], offset, total)]
         + EventsFrom(topic, frags[1..], offset + |frags[0]|, total)
  }

  datatype Outcome = Outcome(inBounds: bool, pending: Option<Partial>, calls: seq<Call>)

  /** A series of events, each seeing the subscription table of its own time. */
  function Run(tables: seq<Table>, p: Option<Partial>, evs: seq<DataEvent>): Outcome
    requires |tables| == |evs|
  {
    if evs == [] then Outcome(true, p, [])
    else if !InBounds(p, evs[0]) then Outcome(false, p, [])
    else
      var (q, calls) := OnData(tables[0], p, evs[0]);
      var rest := Run(tables[1..], q, evs[1..]);
      rest.(calls := calls + rest.calls)
  }

  lemma EventCount(topic: bytes, frags: seq<bytes>, offset: nat, total: nat)
    ensures |EventsFrom(topic, frags, offset, total)| == |frags|
  {
  }

  predicate NonEmpty(frags: seq<bytes>) { forall i :: 0 <= i < |frags| ==> frags[i] != [] }

  lemma ConcatLength(frags: seq<bytes>)
    requires frags != [] && NonEmpty(frags)
    ensures |Concat(frags)| >= |frags[0]| && (|Concat(frags)| == |frags[0]| <==> |frags| == 1)
  {
    if |frags| > 1 {
      assert Concat(frags[1..]) == frags[1] + Concat(frags[1..][1..]);
    }
  }

  lemma CopiedAt(done: bytes, junk: bytes, data: bytes)
    requires |data| <= |junk|
    ensures Copied(done + junk, |done|, data) == (done + data) + junk[|data|..]
  {
  }

  /** One fragment after the first: the buffer holds done in front. */
  lemma Piece(t: Table, topic: bytes, done: bytes, junk: bytes, frag: bytes)
    requires done != [] && 0 < |frag| <= |junk|
    ensures var p := Some(Partial(topic, done + junk)); var ev := DataEvent(None, frag, |done|, |done| + |junk|);
      && InBounds(p, ev)
      && OnData(t, p, ev) == if |frag| == |junk| then (None, Deliveries(t, topic, done + frag))
                             else (Some(Partial(topic, done + frag + junk[|frag|..])), [])
  {
    CopiedAt(done, junk, frag);
    if |frag| == |junk| {
      assert junk[|frag|..] == [] && done + frag + [] == done + frag;
    }
  }

  /** The first event of a series, whatever it leads to. */
  lemma Unrolled(tables: seq<Table>, p: Option<Partial>, evs: seq<DataEvent>)
    requires |tables| == |evs| > 0 && InBounds(p, evs[0])
    ensures var (q, calls) := OnData(tables[0], p, evs[0]); var rest := Run(tables[1..], q, evs[1..]);
      Run(tables, p, evs) == rest.(calls := calls + rest.calls)
  {
  }

  /** The events of the fragments after the first, taken apart. */
  lemma EventsUnrolled(topic: bytes, frags: seq<bytes>, offset: nat, total: nat)
    requires frags != [] && offset > 0
    ensures var evs := EventsFrom(topic, frags, offset, total);
      && |evs| == |frags| && evs[0] == DataEvent(None, frags[0], offset, total)
      && evs[1..] == EventsFrom(topic, frags[1..], offset + |frags[0]|, total)
  {
    EventCount(topic, frags, offset, total);
  }

  /** The fragments after the first: the buffer holds what came before. */
  lemma {:induction false} Continued(tables: seq<Table>, topic: bytes, done: bytes, junk: bytes, frags: seq<bytes>)
    requires frags != [] && NonEmpty(frags) && |tables| == |frags| && done != [] && |junk| == |Concat(frags)|
    ensures |EventsFrom(topic, frags, |done|, |done| + |junk|)| == |frags|
    ensures Run(tables, Some(Partial(topic, done + junk)), EventsFrom(topic, frags, |done|, |done| + |junk|))
         == Outcome(true, None, Deliveries(tables[|tables| - 1], topic, done + Concat(frags)))
    decreases |frags|
  {
    EventCount(topic, frags, |done|, |done| + |junk|);
    if |frags| == 1 {
      LastPiece(tables[0], topic, done, junk, frags[0]);
      assert Concat(frags) == frags[0] && frags == [frags[0]] && tables == [tables[0]];
    } else {
      NextPieces(done, junk, frags);
      EventCount(topic, frags[1..], |done + frags[0]|, |done| + |junk|);
      Continued(tables[1..], topic, done + frags[0], junk[|frags[0]|..], frags[1..]);
      OnePiece(tables, topic, done, junk, frags);
    }
  }

  lemma LastPiece(t: Table, topic: bytes, done: bytes, junk: bytes, frag: bytes)
    requires done != [] && 0 < |frag| == |junk|
    ensures |EventsFrom(topic, [frag], |done|, |done| + |junk|)| == 1
    ensures Run([t], Some(Partial(topic, done + junk)), EventsFrom(topic, [frag], |done|, |done| + |junk|))
         == Outcome(true, None, Deliveries(t, topic, done + frag))
  {
    EventsUnrolled(topic, [frag], |done|, |done| + |junk|);
    Piece(t, topic, done, junk, frag);
    Unrolled([t], Some(Partial(topic, done + junk)), EventsFrom(topic, [frag], |done|, |done| + |junk|));
  }

  /** A fragment with more to come only extends the buffer. */
  lemma OnePiece(tables: seq<Table>, topic: bytes, done: bytes, junk: bytes, frags: seq<bytes>)
    requires |frags| > 1 && |tables| == |frags| && done != [] && 0 < |frags[0]| < |junk|
    ensures |EventsFrom(topic, frags, |done|, |done| + |junk|)| == |frags|
    ensures |EventsFrom(topic, frags[1..], |done + frags[0]|, |done| + |junk|)| == |frags[1..]|
    ensures Run(tables, Some(Partial(topic, done + junk)), EventsFrom(topic, frags, |done|, |done| + |junk|))
         == Run(tables[1..], Some(Partial(topic, done + frags[0] + junk[|frags[0]|..])),
                EventsFrom(topic, frags[1..], |done + frags[0]|, |done| + |junk|))
  {
    EventsUnrolled(topic, frags, |done|, |done| + |junk|);
    Piece(tables[0], topic, done, junk, frags[0]);
    Unrolled(tables, Some(Partial(topic, done + junk)), EventsFrom(topic, frags, |done|, |done| + |junk|));
  }

  lemma NextPieces(done: bytes, junk: bytes, frags: seq<bytes>)
    requires |frags| > 1 && NonEmpty(frags) && |junk| == |Concat(frags)|
    ensures 0 < |frags[0]| < |junk|
    ensures |junk[|frags[0]|..]| == |Concat(frags[1..])| && |done + frags[0]| + |junk[|frags[0]|..]| == |done| + |junk|
    ensures done + frags[0] + Concat(frags[1..]) == done + Concat(frags)
  {
    ConcatLength(frags);
    Regroup(done, frags[0], Concat(frags[1..]));
  }

  /** A message that arrives whole or in contiguous non-empty fragments, whatever was left over from an
      interrupted one, ends in exactly one call for every entry that matches its topic when the last
      fragment comes, each with the full payload; nothing is called before and nothing is left over. */
  lemma DeliveredOnce(tables: seq<Table>, p: Option<Partial>, topic: bytes, frags: seq<bytes>)
    requires frags != [] && (|frags| == 1 || NonEmpty(frags)) && |tables| == |frags| && 0 !in topic
    ensures |EventsFrom(topic, frags, 0, |Concat(frags)|)| == |frags|
    ensures var o := Run(tables, p, EventsFrom(topic, frags, 0, |Concat(frags)|));
      && o.inBounds && o.pending == None
      && CallsEach(o.calls, tables[|tables| - 1], topic, topic, Concat(frags))
  {
    DeliveredAs(tables, p, topic, frags);
    CutWhole(topic);
  }

  lemma DeliveredAs(tables: seq<Table>, p: Option<Partial>, topic: bytes, frags: seq<bytes>)
    requires frags != [] && (|frags| == 1 || NonEmpty(frags)) && |tables| == |frags| && 0 !in topic
    ensures |EventsFrom(topic, frags, 0, |Concat(frags)|)| == |frags|
    ensures Run(tables, p, EventsFrom(topic, frags, 0, |Concat(frags)|))
         == Outcome(true, None, Deliveries(tables[|tables| - 1], topic, Concat(frags)))
  {
    var total := |Concat(frags)|;
    EventCount(topic, frags, 0, total);
    CutWhole(topic);
    var evs := EventsFrom(topic, frags, 0, total);
    assert evs[0] == DataEvent(Some(topic), frags[0], 0, total);
    assert evs[1..] == EventsFrom(topic, frags[1..], |frags[0]|, total);
    if |frags| == 1 {
      assert Concat(frags) == frags[0];
      assert Run(tables[1..], None, evs[1..]) == Outcome(true, None, []);
    } else {
      ConcatLength(frags);
      First(tables, p, topic, frags);
    }
  }

  lemma First(tables: seq<Table>, p: Option<Partial>, topic: bytes, frags: seq<bytes>)
    requires |frags| > 1 && NonEmpty(frags) && |tables| == |frags| && 0 !in topic
    requires |EventsFrom(topic, frags, 0, |Concat(frags)|)| == |frags|
    ensures Run(tables, p, EventsFrom(topic, frags, 0, |Concat(frags)|))
         == Outcome(true, None, Deliveries(tables[|tables| - 1], topic, Concat(frags)))
  {
    var total := |Concat(frags)|;
    var evs := EventsFrom(topic, frags, 0, total);
    ConcatLength(frags);
    CutWhole(topic);
    var junk := Zeros(total)[|frags[0]|..];
    assert [] + Zeros(total) == Zeros(total);
    CopiedAt([], Zeros(total), frags[0]);
    assert [] + frags[0] == frags[0];
    assert evs[1..] == EventsFrom(topic, frags[1..], |frags[0]|, total);
    assert OnData(tables[0], p, evs[0]) == (Some(Partial(topic, frags[0] + junk)), []);
    Continued(tables[1..], topic, frags[0], junk, frags[1..]);
    assert |frags[0]| + |junk| == total;
    var d := Deliveries(tables[|tables| - 1], topic, Concat(frags));
    assert [] + d == d;
  }

  /** Who is called, by the rule of section 4.7.1.3 of MQTT 3.1.1: entry i is called once, in table order,
      exactly when its filter matches the topic level by level. */
  lemma CalledByRule(t: Table, topic: bytes, i: nat)
    requires i < |t| && t[i].Some? && Topics.WildcardsFillLevels(Split(SLASH, t[i].value.topic))
    requires Topics.Last(Split(SLASH, topic)) != []
    ensures i in Matching(t, topic, |t|) <==> Topics.LevelsMatch(Split(SLASH, t[i].value.topic), Split(SLASH, topic))
  {
    Topics.ScanIsRule(t[i].value.topic, topic);
  }
}
