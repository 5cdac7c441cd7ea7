/** The subscription table of esp-mqtt-glue.c and what each region under s_glue_lock does to it. Ticks
    are milliseconds on a clock that only moves forward. */
module MqttTable {
  import opened Bytes

  const RETRY_BASE_MS: nat := 5000
  const RETRY_MAX_MS: nat := 60000
  const REQUEST_EXPIRY_MS: nat := 30000
  const EARLY_ACK_TTL_MS: nat := 5000
  const EARLY_ACK_SLOTS: nat := 4

  datatype SubState = NotSubscribed | Requested | Acknowledged | Failed

  datatype Sub = Sub(topic: bytes, cb: int, priv: int, state: SubState, msgId: int, qos: nat, requestTick: int)

  type Table = seq<Option<Sub>>

  /** A SUBACK that came before its request was recorded; msgId 0 marks a free slot. */
  datatype EarlyAck = EarlyAck(msgId: int, rejected: bool, tick: int)

  datatype Glue = Glue(connected: bool, connecting: bool, retryDelayMs: nat, timerArmPending: bool, subs: Table,
                       acks: seq<EarlyAck>, deleting: bool, busy: int)

  predicate OnTopic(e: Option<Sub>, topic: bytes) { e.Some? && e.value.topic == topic }

  function Verdict(rejected: bool): SubState { if rejected then Failed else Acknowledged }

  // ---------------------------------------------------------------- one entry

  function ReserveOne(e: Option<Sub>, topic: bytes, now: int): Option<Sub> {
    if OnTopic(e, topic) then Some(e.value.(msgId := -1, state := Requested, requestTick := now)) else e
  }

  /** Only an entry still holding this reservation is touched. */
  function RecordOne(e: Option<Sub>, topic: bytes, ret: int, ack: Option<bool>): Option<Sub> {
    if !OnTopic(e, topic) || e.value.state != Requested || e.value.msgId != -1 then e
    else if ret < 0 then Some(e.value.(state := Failed))
    else if ack.Some? then Some(e.value.(msgId := ret, state := Verdict(ack.value)))
    else Some(e.value.(msgId := ret))
  }

  function AckOne(e: Option<Sub>, msgId: int, rejected: bool): Option<Sub> {
    if e.Some? && e.value.state == Requested && e.value.msgId == msgId then Some(e.value.(state := Verdict(rejected))) else e
  }

  function ResetOne(e: Option<Sub>): Option<Sub> {
    if e.Some? then Some(e.value.(state := NotSubscribed)) else e
  }

  predicate Awaits(e: Option<Sub>, msgId: int) { e.Some? && e.value.state == Requested && e.value.msgId == msgId }

  /** esp_mqtt_glue_sub_needs_send_locked(). */
  predicate NeedsSend(s: Sub, now: int) {
    match s.state
    case Acknowledged => false
    case Requested => now - s.requestTick > REQUEST_EXPIRY_MS
    case _ => true
  }

  // ---------------------------------------------------------------- the whole table

  function ReserveAll(t: Table, topic: bytes, now: int): Table {
    seq(|t|, i requires 0 <= i < |t| => ReserveOne(t[i], topic, now))
  }

  function RecordAll(t: Table, topic: bytes, ret: int, ack: Option<bool>): Table {
    seq(|t|, i requires 0 <= i < |t| => RecordOne(t[i], topic, ret, ack))
  }

  function AckAll(t: Table, msgId: int, rejected: bool): Table {
    seq(|t|, i requires 0 <= i < |t| => AckOne(t[i], msgId, rejected))
  }

  function ResetAll(t: Table): Table {
    seq(|t|, i requires 0 <= i < |t| => ResetOne(t[i]))
  }

  /** The first entry waiting for this SUBACK. */
  function FirstAwaiting(t: Table, msgId: int): (i: nat)
    ensures i <= |t| && (i < |t| ==> Awaits(t[i], msgId)) && forall k :: 0 <= k < i ==> !Awaits(t[k], msgId)
  {
    if t == [] then 0 else if Awaits(t[0], msgId) then 0
    else
      var i := FirstAwaiting(t[1..], msgId);
      assert forall k :: 0 < k < i + 1 ==> t[k] == t[1..][k - 1];
      i + 1
  }

  // ---------------------------------------------------------------- early acks

  predicate Expired(e: EarlyAck, now: int) { now - e.tick > EARLY_ACK_TTL_MS }

  /** park's choice from slot i on, best being the oldest live one so far. */
  function ParkSlotFrom(acks: seq<EarlyAck>, now: int, i: nat, best: nat): (r: nat)
    requires i <= |acks| && best < |acks|
    ensures r < |acks|
    decreases |acks| - i
  {
    if i == |acks| then best
    else if acks[i].msgId == 0 || Expired(acks[i], now) then i
    else ParkSlotFrom(acks, now, i + 1, if now - acks[i].tick > now - acks[best].tick then i else best)
  }

  function Park(acks: seq<EarlyAck>, msgId: int, rejected: bool, now: int): seq<EarlyAck>
    requires acks != []
  {
    acks[ParkSlotFrom(acks, now, 0, 0) := EarlyAck(msgId, rejected, now)]
  }

  predicate ParkedAt(acks: seq<EarlyAck>, i: nat, msgId: int, now: int) {
    i < |acks| && acks[i].msgId == msgId && !Expired(acks[i], now)
  }

  /** The first live slot for msgId, |acks| if there is none. */
  function TakeSlot(acks: seq<EarlyAck>, msgId: int, now: int): (i: nat)
    ensures i <= |acks| && (i < |acks| ==> ParkedAt(acks, i, msgId, now))
    ensures forall k :: 0 <= k < i ==> !ParkedAt(acks, k, msgId, now)
  {
    if acks == [] then 0 else if ParkedAt(acks, 0, msgId, now) then 0
    else
      var i := TakeSlot(acks[1..], msgId, now);
      assert forall k :: 0 < k < i + 1 ==> (ParkedAt(acks, k, msgId, now) <==> ParkedAt(acks[1..], k - 1, msgId, now));
      i + 1
  }

  /** take: the parked verdict, and the slot freed. */
  function Take(acks: seq<EarlyAck>, msgId: int, now: int): (Option<bool>, seq<EarlyAck>) {
    var i := TakeSlot(acks, msgId, now);
    if i == |acks| then (None, acks) else (Some(acks[i].rejected), acks[i := acks[i].(msgId := 0)])
  }

  // ---------------------------------------------------------------- collecting what to send

  datatype Pending = Pending(topic: bytes, qos: nat, noSuback: bool)

  function FindPending(ps: seq<Pending>, topic: bytes): (j: nat)
    ensures j <= |ps| && (j < |ps| ==> ps[j].topic == topic) && forall k :: 0 <= k < j ==> ps[k].topic != topic
  {
    if ps == [] then 0 else if ps[0].topic == topic then 0
    else
      var j := FindPending(ps[1..], topic);
      assert forall k :: 0 < k < j + 1 ==> ps[k] == ps[1..][k - 1];
      j + 1
  }

  function CollectStep(ps: seq<Pending>, e: Option<Sub>, now: int): seq<Pending> {
    if e.None? || !NeedsSend(e.value, now) then ps
    else
      var s := e.value;
      var j := FindPending(ps, s.topic);
      if j == |ps| then ps + [Pending(s.topic, s.qos, s.state == Requested)]
      else if s.qos > ps[j].qos then ps[j := ps[j].(qos := s.qos)]
      else ps
  }

  /** resubscribe_pending()'s pass over the first k entries. */
  function Collect(t: Table, now: int, k: nat): seq<Pending>
    requires k <= |t|
  {
    if k == 0 then [] else CollectStep(Collect(t, now, k - 1), t[k - 1], now)
  }

  /** The entry's topic has yet to be subscribed to: it was never requested or failed, or the request has
      gone unanswered for more than 30 seconds. */
  predicate Due(e: Option<Sub>, topic: bytes, now: int) {
    && e.Some? && e.value.topic == topic
    && (e.value.state == NotSubscribed || e.value.state == Failed
        || (e.value.state == Requested && now > e.value.requestTick + 30000))
  }

  predicate Needing(t: Table, now: int, i: nat, topic: bytes) { i < |t| && Due(t[i], topic, now) }

  /** The highest QoS among the first k entries of a topic that need a send; -1 if none does. */
  function TopQos(t: Table, now: int, topic: bytes, k: nat): (q: int)
    requires k <= |t|
    ensures forall i :: 0 <= i < k && Needing(t, now, i, topic) ==> t[i].value.qos <= q
    ensures q == -1 || exists i :: 0 <= i < k && Needing(t, now, i, topic) && t[i].value.qos == q
  {
    if k == 0 then -1
    else
      var q := TopQos(t, now, topic, k - 1);
      if Needing(t, now, k - 1, topic) && t[k - 1].value.qos > q then t[k - 1].value.qos else q
  }

  /** The first entry of a topic that needs a send, k if none of the first k does. */
  function FirstNeeding(t: Table, now: int, topic: bytes, k: nat): (i: nat)
    requires k <= |t|
    ensures i <= k && (i < k ==> Needing(t, now, i, topic)) && forall l :: 0 <= l < i ==> !Needing(t, now, l, topic)
  {
    if k == 0 then 0
    else
      var i := FirstNeeding(t, now, topic, k - 1);
      if i < k - 1 || Needing(t, now, k - 1, topic) then i else k
  }

  /** A request expires 30 seconds after it was reserved: until then its entries are not sent again, from
      then on they are, whether or not the id has been recorded. */
  lemma ReservedUntilExpiry(t: Table, topic: bytes, now: int, ret: nat, later: int, i: nat)
    requires i < |t| && OnTopic(t[i], topic)
    ensures Due(ReserveAll(t, topic, now)[i], topic, later) <==> later - now > 30000
    ensures Due(RecordAll(ReserveAll(t, topic, now), topic, ret, None)[i], topic, later) <==> later - now > 30000
  {
    assert OnTopic(ReserveAll(t, topic, now)[i], topic);
  }

  ghost predicate DistinctTopics(ps: seq<Pending>) {
    forall i, j :: 0 <= i < j < |ps| ==> ps[i].topic != ps[j].topic
  }

  lemma {:induction false} CollectDistinct(t: Table, now: int, k: nat)
    requires k <= |t|
    ensures DistinctTopics(Collect(t, now, k))
  {
    if k > 0 {
      CollectDistinct(t, now, k - 1);
    }
  }

  /** One request per topic that needs one and none for any other, at the highest QoS among the entries
      that need it; it counts as unanswered exactly when the first of those awaits a SUBACK. */
  lemma {:induction false} CollectIs(t: Table, now: int, topic: bytes, k: nat)
    requires k <= |t|
    ensures var ps := Collect(t, now, k); var j := FindPending(ps, topic); var i := FirstNeeding(t, now, topic, k);
      && (j < |ps| <==> i < k)
      && (j < |ps| ==> ps[j].qos == TopQos(t, now, topic, k) && (ps[j].noSuback <==> t[i].value.state == Requested))
      && (j == |ps| ==> TopQos(t, now, topic, k) == -1)
  {
    if k > 0 {
      CollectIs(t, now, topic, k - 1);
      var was, e := Collect(t, now, k - 1), t[k - 1];
      assert e.Some? ==> (NeedsSend(e.value, now) <==> Due(e, e.value.topic, now));
      if e.Some? && NeedsSend(e.value, now) {
        CollectDistinct(t, now, k - 1);
        FoundAfter(was, e, now, topic);
      }
    }
  }

  /** Where a topic is found after one more entry was collected. */
  lemma FoundAfter(was: seq<Pending>, e: Option<Sub>, now: int, topic: bytes)
    requires e.Some? && NeedsSend(e.value, now) && DistinctTopics(was)
    ensures var ps := CollectStep(was, e, now); var f := FindPending(was, topic); var g := FindPending(ps, topic);
      && (e.value.topic != topic ==> (g < |ps| <==> f < |was|) && (f < |was| ==> ps[g] == was[f]))
      && (e.value.topic == topic && f < |was| ==>
            g < |ps| && ps[g] == was[f].(qos := if e.value.qos > was[f].qos then e.value.qos else was[f].qos))
      && (e.value.topic == topic && f == |was| ==> g < |ps| && ps[g] == Pending(topic, e.value.qos, e.value.state == Requested))
  {
    var ps, s := CollectStep(was, e, now), e.value;
    var f, g := FindPending(was, topic), FindPending(ps, topic);
    assert forall k :: 0 <= k < |was| ==> ps[k].topic == was[k].topic;
    if f < |was| {
      assert ps[f].topic == topic;
    }
    if f == |was| && s.topic == topic {
      assert ps[f].topic == topic;
    }
  }
}
