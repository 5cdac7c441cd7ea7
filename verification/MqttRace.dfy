/** The SUBACK race: a SUBACK may be handled before or after the sender records its packet id; either way
    the entries of the topic end as the broker decided. */
module MqttRace {
  import opened Bytes
  import opened MqttTable
  import opened MqttRegions
  import opened MqttProtocol
  import Acks = MqttAcks
  import Life = MqttLifecycle

  // ---------------------------------------------------------------- the entries of a topic

  predicate Reserved(t: Table, topic: bytes, msgId: int) {
    forall i :: 0 <= i < |t| && OnTopic(t[i], topic) ==> t[i].value.state == Requested && t[i].value.msgId == msgId
  }

  predicate Settled(t: Table, topic: bytes, rejected: bool) {
    forall i :: 0 <= i < |t| && OnTopic(t[i], topic) ==> t[i].value.state == Verdict(rejected)
  }

  predicate SameRequest(e: Option<Sub>, d: Option<Sub>, topic: bytes) {
    OnTopic(e, topic) && OnTopic(d, topic) && d.value.state == e.value.state && d.value.msgId == e.value.msgId
  }

  /** Every entry of the topic in u was there in t with the same request, or joined an active topic. */
  predicate Carries(t: Table, u: Table, topic: bytes) {
    && |u| == |t|
    && forall i :: 0 <= i < |u| && OnTopic(u[i], topic) ==>
         SameRequest(t[i], u[i], topic) || (u[i].value.state == Acknowledged && Active(t, topic, |t|))
  }

  lemma CarriesReserved(t: Table, u: Table, topic: bytes, msgId: int)
    requires Carries(t, u, topic) && Reserved(t, topic, msgId)
    ensures Reserved(u, topic, msgId)
  {
  }

  lemma CarriesSettled(t: Table, u: Table, topic: bytes, rejected: bool)
    requires Carries(t, u, topic) && Settled(t, topic, rejected)
    ensures Settled(u, topic, rejected)
  {
  }

  // ---------------------------------------------------------------- steps that compete

  /** Another send for the topic, a reset of the states, or the end of the instance. A subscribe call that
      needs no SUBSCRIBE and any unsubscribe do not compete. */
  predicate Competes(w: World, x: Task, topic: bytes) {
    match x
    case ReserveTopic(other, _) => other == topic
    case RecordRet(other, _) => other == topic
    case SubscribeEntry(other, cb, priv, qos) =>
      other == topic && w.glue.Some? && Subscribe(w.glue.value, other, cb, priv, qos).1.send.Some?
    case Handle(e) => e.Connected? || e.Disconnected?
    case Disconnect => true
    case Free => true
    case _ => false
  }

  /** The packet id whose waiting entries a task settles. */
  function Settles(x: Task): Option<int> {
    match x
    case Handle(SubackEvent(id, _)) => Some(id)
    case Handle(DeletedEvent(id)) => Some(id)
    case _ => None
  }

  predicate AwaitedOn(t: Table, topic: bytes, msgId: int) {
    exists i :: 0 <= i < |t| && OnTopic(t[i], topic) && Awaits(t[i], msgId)
  }

  lemma SubscribeCarries(g: Glue, other: bytes, cb: int, priv: int, qos: nat, topic: bytes)
    requires other == topic ==> Subscribe(g, other, cb, priv, qos).1.send.None?
    ensures Carries(g.subs, Subscribe(g, other, cb, priv, qos).0.subs, topic)
  {
  }

  lemma TableCarries(w: World, x: Task, topic: bytes)
    requires w.glue.Some? && IsTable(x) && !Competes(w, x, topic)
    ensures Carries(w.glue.value.subs, ExecTable(w, x).0.glue.value.subs, topic)
  {
    if x.SubscribeEntry? {
      SubscribeCarries(w.glue.value, x.topic, x.cb, x.priv, x.qos, topic);
    }
  }

  lemma SendCarries(w: World, x: Task, c: Choice, topic: bytes)
    requires w.glue.Some? && IsSend(x) && !Competes(w, x, topic)
    ensures ExecSend(w, x, c).0.glue.Some? && Carries(w.glue.value.subs, ExecSend(w, x, c).0.glue.value.subs, topic)
  {
  }

  lemma AckCarries(t: Table, msgId: int, rejected: bool, topic: bytes)
    requires !AwaitedOn(t, topic, msgId)
    ensures Carries(t, AckAll(t, msgId, rejected), topic)
  {
  }

  lemma EventCarries(w: World, e: Event, topic: bytes)
    requires w.glue.Some? && Sound(w.glue.value) && !e.Connected? && !e.Disconnected?
    requires Settles(Handle(e)).Some? ==> !AwaitedOn(w.glue.value.subs, topic, Settles(Handle(e)).value)
    ensures ExecEvent(w, e).0.glue.Some? && Carries(w.glue.value.subs, ExecEvent(w, e).0.glue.value.subs, topic)
  {
    match e
    case SubackEvent(id, rejected) => AckCarries(w.glue.value.subs, id, rejected, topic);
    case DeletedEvent(id) => AckCarries(w.glue.value.subs, id, true, topic);
    case _ =>
  }

  lemma ExecCarries(w: World, x: Task, c: Choice, topic: bytes)
    requires w.glue.Some? && Sound(w.glue.value) && !Competes(w, x, topic)
    requires Settles(x).Some? ==> !AwaitedOn(w.glue.value.subs, topic, Settles(x).value)
    ensures Exec(w, x, c).0.glue.Some? && Carries(w.glue.value.subs, Exec(w, x, c).0.glue.value.subs, topic)
  {
    if IsTable(x) {
      TableCarries(w, x, topic);
    } else if IsSend(x) {
      SendCarries(w, x, c, topic);
    } else if x.Handle? {
      EventCarries(w, x.event, topic);
    } else if IsRetry(x) {
      RetryCarries(w, x, c, topic);
    } else {
      OtherCarries(w, x, c, topic);
    }
  }

  lemma RetryCarries(w: World, x: Task, c: Choice, topic: bytes)
    requires w.glue.Some? && IsRetry(x)
    ensures ExecRetry(w, x, c).0.glue.Some? && Carries(w.glue.value.subs, ExecRetry(w, x, c).0.glue.value.subs, topic)
  {
  }

  lemma OtherCarries(w: World, x: Task, c: Choice, topic: bytes)
    requires w.glue.Some? && IsOther(x) && !Competes(w, x, topic)
    ensures ExecOther(w, x, c).0.glue.Some? && Carries(w.glue.value.subs, ExecOther(w, x, c).0.glue.value.subs, topic)
  {
  }

  // ---------------------------------------------------------------- the early-ack slots

  predicate Live(a: EarlyAck, now: int) { a.msgId != 0 && !Expired(a, now) }

  /** All four slots hold unexpired SUBACKs: parking one more would evict one of them. */
  predicate Crowded(acks: seq<EarlyAck>, now: int) { forall k :: 0 <= k < |acks| ==> Live(acks[k], now) }

  lemma {:induction false} ParkPicksFree(acks: seq<EarlyAck>, now: int, i: nat, best: nat, free: nat)
    requires i <= free < |acks| && best < |acks| && !Live(acks[free], now)
    ensures !Live(acks[ParkSlotFrom(acks, now, i, best)], now)
    decreases |acks| - i
  {
    if Live(acks[i], now) {
      ParkPicksFree(acks, now, i + 1, if now - acks[i].tick > now - acks[best].tick then i else best, free);
    }
  }

  predicate NotParked(acks: seq<EarlyAck>, id: int) { forall k :: 0 <= k < |acks| ==> acks[k].msgId != id }

  /** Only this SUBACK is parked for id, and it is there unless it has expired. */
  predicate ParkedAs(acks: seq<EarlyAck>, a: EarlyAck, now: int) {
    && (forall k :: 0 <= k < |acks| && acks[k].msgId == a.msgId ==> acks[k] == a)
    && (Expired(a, now) || a in acks)
  }

  lemma ParkOther(acks: seq<EarlyAck>, a: EarlyAck, now: int, msgId: int, rejected: bool)
    requires acks != [] && a.msgId > 0 && msgId != a.msgId && ParkedAs(acks, a, now)
    requires Expired(a, now) || !Crowded(acks, now)
    ensures ParkedAs(Park(acks, msgId, rejected, now), a, now)
  {
    var next := Park(acks, msgId, rejected, now);
    if !Expired(a, now) {
      var free :| 0 <= free < |acks| && !Live(acks[free], now);
      ParkPicksFree(acks, now, 0, 0, free);
      var k :| 0 <= k < |acks| && acks[k] == a;
      assert next[k] == a;
    }
  }

  lemma ParkOwn(acks: seq<EarlyAck>, id: int, rejected: bool, now: int)
    requires acks != [] && NotParked(acks, id)
    ensures ParkedAs(Park(acks, id, rejected, now), EarlyAck(id, rejected, now), now)
  {
    var r := ParkSlotFrom(acks, now, 0, 0);
    assert Park(acks, id, rejected, now)[r] == EarlyAck(id, rejected, now);
  }

  lemma TakeOther(acks: seq<EarlyAck>, a: EarlyAck, msgId: int, now: int)
    requires a.msgId > 0 && msgId != a.msgId && ParkedAs(acks, a, now)
    ensures ParkedAs(Take(acks, msgId, now).1, a, now)
  {
    var next := Take(acks, msgId, now).1;
    if !Expired(a, now) {
      var k :| 0 <= k < |acks| && acks[k] == a;
      assert next[k] == a;
    }
  }

  lemma TakeOwn(acks: seq<EarlyAck>, a: EarlyAck, now: int)
    requires ParkedAs(acks, a, now) && !Expired(a, now)
    ensures Take(acks, a.msgId, now).0 == Some(a.rejected)
  {
    var k :| 0 <= k < |acks| && acks[k] == a;
    assert ParkedAt(acks, k, a.msgId, now);
  }

  lemma TakeNone(acks: seq<EarlyAck>, id: int, now: int)
    requires NotParked(acks, id)
    ensures Take(acks, id, now) == (None, acks)
  {
  }

  // ---------------------------------------------------------------- the window of one send, world side

  function Ours(b: Broker, id: int): EarlyAck
    requires id in b.verdicts && id in b.answered
  {
    EarlyAck(id, b.verdicts[id], b.answered[id])
  }

  predicate Heard(b: Broker, id: int) { id in b.answered && id in b.verdicts }

  /** Where a send stands: the sender has or has not recorded its id, the SUBACK is or is not handled. */
  predicate Stage(w: World, recording: bool, topic: bytes, id: int) {
    && w.glue.Some? && id > 0 && Acks.SentFor(w.broker, id, topic)
    && (id in w.broker.answered ==> id in w.broker.verdicts)
    && (recording ==> Reserved(w.glue.value.subs, topic, -1))
    && (recording && !Heard(w.broker, id) ==> NotParked(w.glue.value.acks, id))
    && (recording && Heard(w.broker, id) ==> ParkedAs(w.glue.value.acks, Ours(w.broker, id), w.now))
    && (!recording && !Heard(w.broker, id) ==> Reserved(w.glue.value.subs, topic, id))
    && (!recording && Heard(w.broker, id) ==> Settled(w.glue.value.subs, topic, w.broker.verdicts[id]))
  }

  lemma NotAwaited(w: World, x: Task, recording: bool, topic: bytes, id: int)
    requires Acks.WorldOk(w) && Acks.TaskOk(w.broker, x) && Stage(w, recording, topic, id)
    requires Settles(x).Some? && !About(w, x, recording, id)
    ensures !AwaitedOn(w.glue.value.subs, topic, Settles(x).value)
  {
    assert Settles(x).value > 0;
  }

  /** A SUBACK that no recorded request waits for: it is parked. */
  predicate Parks(w: World, x: Task) {
    && x.Handle? && x.event.SubackEvent? && w.glue.Some?
    && FirstAwaiting(w.glue.value.subs, x.event.msgId) == |w.glue.value.subs|
  }

  /** The SUBACK for id, or its deletion, is being handled and matters to the send. */
  predicate About(w: World, x: Task, recording: bool, id: int) {
    Settles(x) == Some(id) && !(x == Handle(DeletedEvent(id)) && (recording || Heard(w.broker, id)))
  }

  /** What a step of the window does to the slots, when it is not about id itself. */
  lemma SlotsKept(w: World, x: Task, c: Choice, topic: bytes, id: int)
    requires Stage(w, true, topic, id) && Sound(w.glue.value) && !About(w, x, true, id) && !Competes(w, x, topic)
    requires Acks.TaskOk(w.broker, x) && (x.RecordRet? ==> x.ret != id)
    requires Heard(w.broker, id) && Parks(w, x) ==> !Crowded(w.glue.value.acks, w.now)
    ensures var v := Exec(w, x, c).0;
      && v.glue.Some? && v.now == w.now
      && (!Heard(w.broker, id) ==> NotParked(v.glue.value.acks, id))
      && (Heard(w.broker, id) ==> ParkedAs(v.glue.value.acks, Ours(w.broker, id), w.now))
  {
    var acks := w.glue.value.acks;
    if x.RecordRet? {
      RecordSlots(w, x, c, topic, id);
    } else if x.Handle? && x.event.SubackEvent? {
      if Heard(w.broker, id) && Parks(w, x) {
        ParkOther(acks, Ours(w.broker, id), w.now, x.event.msgId, x.event.rejected);
      }
    } else {
      SameSlots(w, x, c);
    }
  }

  lemma RecordSlots(w: World, x: Task, c: Choice, topic: bytes, id: int)
    requires Stage(w, true, topic, id) && x.RecordRet? && x.ret != id
    ensures var v := ExecSend(w, x, c).0;
      && v.glue.Some? && v.now == w.now
      && (!Heard(w.broker, id) ==> NotParked(v.glue.value.acks, id))
      && (Heard(w.broker, id) ==> ParkedAs(v.glue.value.acks, Ours(w.broker, id), w.now))
  {
    if Heard(w.broker, id) {
      TakeOther(w.glue.value.acks, Ours(w.broker, id), x.ret, w.now);
    }
  }

  lemma SameSlots(w: World, x: Task, c: Choice)
    requires w.glue.Some? && Sound(w.glue.value) && !x.RecordRet? && !x.Free? && (x.Handle? ==> !x.event.SubackEvent?)
    ensures var v := Exec(w, x, c).0; v.glue.Some? && v.glue.value.acks == w.glue.value.acks && v.now == w.now
  {
    if x.Handle? {
      SameSlotsEvent(w, x.event);
    } else {
      SameSlotsAside(w, x, c);
    }
  }

  lemma SameSlotsAside(w: World, x: Task, c: Choice)
    requires w.glue.Some? && Sound(w.glue.value) && !x.RecordRet? && !x.Free? && !x.Handle?
    ensures var v := Exec(w, x, c).0; v.glue.Some? && v.glue.value.acks == w.glue.value.acks && v.now == w.now
  {
    if IsRetry(x) {
      SameSlotsRetry(w, x, c);
    } else if IsOther(x) {
      SameSlotsOther(w, x, c);
    } else if IsSend(x) {
      SameSlotsSend(w, x, c);
    } else {
      SameSlotsTable(w, x);
    }
  }

  lemma SameSlotsSend(w: World, x: Task, c: Choice)
    requires w.glue.Some? && IsSend(x) && !x.RecordRet?
    ensures var v := ExecSend(w, x, c).0; v.glue.Some? && v.glue.value.acks == w.glue.value.acks && v.now == w.now
  {
  }

  lemma SameSlotsTable(w: World, x: Task)
    requires w.glue.Some? && IsTable(x)
    ensures var v := ExecTable(w, x).0; v.glue.Some? && v.glue.value.acks == w.glue.value.acks && v.now == w.now
  {
  }

  lemma SameSlotsOther(w: World, x: Task, c: Choice)
    requires w.glue.Some? && IsOther(x) && !x.Free?
    ensures var v := ExecOther(w, x, c).0; v.glue.Some? && v.glue.value.acks == w.glue.value.acks && v.now == w.now
  {
  }

  lemma SameSlotsEvent(w: World, e: Event)
    requires w.glue.Some? && Sound(w.glue.value) && !e.SubackEvent?
    ensures var v := ExecEvent(w, e).0; v.glue.Some? && v.glue.value.acks == w.glue.value.acks && v.now == w.now
  {
  }

  lemma SameSlotsRetry(w: World, x: Task, c: Choice)
    requires w.glue.Some? && IsRetry(x)
    ensures var v := ExecRetry(w, x, c).0; v.glue.Some? && v.glue.value.acks == w.glue.value.acks && v.now == w.now
  {
  }

  /** What the ghost broker knows about id changes only through id's own steps. */
  predicate SameAbout(b: Broker, d: Broker, id: int) {
    && (id in d.answered <==> id in b.answered) && (id in b.answered ==> d.answered[id] == b.answered[id])
    && (id in d.verdicts <==> id in b.verdicts) && (id in b.verdicts ==> d.verdicts[id] == b.verdicts[id])
    && (id in b.sent ==> id in d.sent && d.sent[id] == b.sent[id])
  }

  lemma AboutKept(w: World, x: Task, c: Choice, id: int)
    requires w.glue.Some? && Sound(w.glue.value) && (Settles(x) == Some(id) ==> x.event.DeletedEvent?)
    requires x.Transmit? ==> c.ret < 0 || c.ret !in w.broker.sent
    ensures SameAbout(w.broker, Exec(w, x, c).0.broker, id)
  {
    if x.Handle? {
      AboutKeptEvent(w, x.event, id);
    } else if IsSend(x) {
      AboutKeptSend(w, x, c, id);
    } else {
      BrokerKept(w, x, c);
    }
  }

  lemma BrokerKept(w: World, x: Task, c: Choice)
    requires w.glue.Some? && Sound(w.glue.value) && !x.Handle? && !IsSend(x)
    ensures Exec(w, x, c).0.broker == w.broker
  {
    if IsRetry(x) {
      AboutKeptRetry(w, x, c);
    } else if IsOther(x) {
      AboutKeptOther(w, x, c);
    }
  }

  lemma AboutKeptSend(w: World, x: Task, c: Choice, id: int)
    requires w.glue.Some? && IsSend(x) && (x.Transmit? ==> c.ret < 0 || c.ret !in w.broker.sent)
    ensures SameAbout(w.broker, ExecSend(w, x, c).0.broker, id)
  {
  }

  lemma AboutKeptOther(w: World, x: Task, c: Choice)
    requires w.glue.Some? && IsOther(x)
    ensures ExecOther(w, x, c).0.broker == w.broker
  {
  }

  lemma AboutKeptEvent(w: World, e: Event, id: int)
    requires w.glue.Some? && Sound(w.glue.value) && (Settles(Handle(e)) == Some(id) ==> e.DeletedEvent?)
    ensures SameAbout(w.broker, ExecEvent(w, e).0.broker, id)
  {
  }

  lemma AboutKeptRetry(w: World, x: Task, c: Choice)
    requires w.glue.Some? && IsRetry(x)
    ensures ExecRetry(w, x, c).0.broker == w.broker
  {
  }

  /** A step that neither competes nor is about id leaves the send where it stands. */
  lemma StageKept(w: World, x: Task, c: Choice, recording: bool, topic: bytes, id: int)
    requires Acks.WorldOk(w) && Acks.TaskOk(w.broker, x) && Stage(w, recording, topic, id) && Sound(w.glue.value)
    requires !Competes(w, x, topic) && !About(w, x, recording, id) && (x.RecordRet? ==> x.ret != id)
    requires x.Transmit? ==> c.ret < 0 || c.ret !in w.broker.sent
    requires recording && Heard(w.broker, id) && Parks(w, x) ==> !Crowded(w.glue.value.acks, w.now)
    ensures Stage(Exec(w, x, c).0, recording, topic, id)
  {
    var v, t := Exec(w, x, c).0, w.glue.value.subs;
    if Settles(x).Some? {
      NotAwaited(w, x, recording, topic, id);
    }
    ExecCarries(w, x, c, topic);
    AboutKept(w, x, c, id);
    if recording {
      SlotsKept(w, x, c, topic, id);
      CarriesReserved(t, v.glue.value.subs, topic, -1);
    } else if Heard(w.broker, id) {
      CarriesSettled(t, v.glue.value.subs, topic, w.broker.verdicts[id]);
    } else {
      CarriesReserved(t, v.glue.value.subs, topic, id);
    }
  }

  lemma NoneAwaits(b: Broker, t: Table, topic: bytes, id: int)
    requires Acks.TableOk(b, t) && Reserved(t, topic, -1) && id > 0 && Acks.SentFor(b, id, topic)
    ensures FirstAwaiting(t, id) == |t|
  {
    forall k | 0 <= k < |t|
      ensures !Awaits(t[k], id)
    {
      assert Acks.EntryOk(b, t[k]);
    }
  }

  /** The SUBACK for id is handled: parked if the sender has not recorded id, else settled at once. */
  lemma StageHears(w: World, rejected: bool, recording: bool, topic: bytes, id: int)
    requires Acks.WorldOk(w) && Acks.Verdicted(w.broker, id, rejected) && Stage(w, recording, topic, id) && Sound(w.glue.value)
    requires id !in w.broker.answered
    ensures Stage(ExecEvent(w, SubackEvent(id, rejected)).0, recording, topic, id)
  {
    var g := w.glue.value;
    if recording {
      NoneAwaits(w.broker, g.subs, topic, id);
      ParkOwn(g.acks, id, rejected, w.now);
    } else {
      var u := Suback(g, id, rejected, w.now).0.subs;
      forall k | 0 <= k < |u| && OnTopic(u[k], topic)
        ensures u[k].value.state == Verdict(rejected)
      {
        assert OnTopic(g.subs[k], topic) && Awaits(g.subs[k], id);
      }
    }
  }

  /** The sender records id, and takes the parked SUBACK if it came first. */
  lemma StageRecords(w: World, c: Choice, topic: bytes, id: int)
    requires Stage(w, true, topic, id) && Sound(w.glue.value)
    requires Heard(w.broker, id) ==> w.now - w.broker.answered[id] <= EARLY_ACK_TTL_MS
    ensures Stage(ExecSend(w, RecordRet(topic, id), c).0, false, topic, id)
  {
    var g := w.glue.value;
    if Heard(w.broker, id) {
      TakeOwn(g.acks, Ours(w.broker, id), w.now);
    } else {
      TakeNone(g.acks, id, w.now);
    }
  }

  /** A SUBACK parked for longer than its five seconds is lost: the entries stay REQUESTED under the id,
      until the request itself expires. So picking it up in time is exactly what settles them. */
  lemma RecordSettlesInTime(w: World, c: Choice, topic: bytes, id: int)
    requires Stage(w, true, topic, id) && Sound(w.glue.value) && Heard(w.broker, id)
    requires Uses(w.glue.value.subs, topic, |w.glue.value.subs|)
    ensures var u := ExecSend(w, RecordRet(topic, id), c).0.glue.value.subs;
      && (Settled(u, topic, w.broker.verdicts[id]) <==> w.now - w.broker.answered[id] <= 5000)
      && (Reserved(u, topic, id) <==> w.now - w.broker.answered[id] > 5000)
  {
    var g := w.glue.value;
    var a := Ours(w.broker, id);
    var u := ExecSend(w, RecordRet(topic, id), c).0.glue.value.subs;
    var i :| 0 <= i < |g.subs| && OnTopic(g.subs[i], topic);
    assert OnTopic(u[i], topic);
    if Expired(a, w.now) {
      TakeExpired(g.acks, a, w.now);
    } else {
      StageRecords(w, c, topic, id);
    }
  }

  lemma TakeExpired(acks: seq<EarlyAck>, a: EarlyAck, now: int)
    requires ParkedAs(acks, a, now) && Expired(a, now)
    ensures Take(acks, a.msgId, now) == (None, acks)
  {
    forall k | 0 <= k < |acks|
      ensures !ParkedAt(acks, k, a.msgId, now)
    {
    }
  }

  // ---------------------------------------------------------------- the window of one send, thread side

  predicate Recording(s: State, t: Thread, topic: bytes, id: int) {
    Todo(s, t) != [] && Todo(s, t)[0] == RecordRet(topic, id)
  }

  predicate NoRecord(todo: seq<Task>, id: int) { forall i :: 0 <= i < |todo| && todo[i].RecordRet? ==> todo[i].ret != id }

  predicate Reports(x: Task, id: int) { Life.IsEvent(x) && x.event.SubackEvent? && x.event.msgId == id }

  predicate Unreported(todo: seq<Task>, id: int) { forall i :: 0 <= i < |todo| ==> !Reports(todo[i], id) }

  /** What a thread's list looks like during the window; from skips the sender's own record. */
  predicate ListOk(b: Broker, todo: seq<Task>, from: nat, id: int) {
    && (id in b.answered ==> Unreported(todo, id))
    && from <= |todo| && NoRecord(todo[from..], id)
  }

  function Skip(s: State, t: Thread, topic: bytes, id: int, u: Thread): nat {
    if u == t && Recording(s, t, topic, id) then 1 else 0
  }

  predicate Window(s: State, t: Thread, topic: bytes, id: int) {
    && Stage(s.w, Recording(s, t, topic, id), topic, id)
    && forall u :: u in s.threads ==> ListOk(s.w.broker, s.threads[u], Skip(s, t, topic, id, u), id)
  }

  /** The steps the promise allows: nothing competes, id is not reported deleted while it awaits its SUBACK,
      a SUBACK is parked only while at most three others are then live beside ours, and ours has not expired
      when it is picked up. */
  predicate Allows(s: State, t: Thread, topic: bytes, id: int, l: Label) {
    l.Run? && Todo(s, l.t) != [] ==>
      var x := Todo(s, l.t)[0];
      if l.t == t && Recording(s, t, topic, id) then
        Heard(s.w.broker, id) ==> s.w.now - s.w.broker.answered[id] <= EARLY_ACK_TTL_MS
      else
        && !Competes(s.w, x, topic)
        && (x == Handle(DeletedEvent(id)) ==> Recording(s, t, topic, id) || Heard(s.w.broker, id))
        && (Recording(s, t, topic, id) && Heard(s.w.broker, id) && Parks(s.w, x) ==> !Crowded(s.w.glue.value.acks, s.w.now))
  }

  /** What a task adds: nothing recorded without a fresh id, no event that was not there. */
  lemma MoreList(w: World, x: Task, c: Choice, id: int)
    requires w.glue.Some? && Sound(w.glue.value) && id in w.broker.sent && id > 0
    requires x.Transmit? ==> c.ret < 0 || c.ret !in w.broker.sent
    ensures var more := Exec(w, x, c).1; NoRecord(more, id)
    ensures !Reports(x, id) || x.Handle? ==> Unreported(Exec(w, x, c).1, id)
  {
    if IsTable(x) {
      MoreTable(w, x, id);
    } else if IsRetry(x) {
      MoreRetry(w, x, c);
    } else if x.Handle? {
      MoreEvent(w, x.event);
    } else if IsOther(x) {
      MoreOther(w, x, c, id);
    }
  }

  lemma MoreOther(w: World, x: Task, c: Choice, id: int)
    requires w.glue.Some? && IsOther(x)
    ensures NoRecord(ExecOther(w, x, c).1, id) && (!Reports(x, id) ==> Unreported(ExecOther(w, x, c).1, id))
  {
  }

  predicate Plain(todo: seq<Task>) { forall i :: 0 <= i < |todo| ==> !Life.IsEvent(todo[i]) && !todo[i].RecordRet? }

  lemma MoreTable(w: World, x: Task, id: int)
    requires w.glue.Some? && IsTable(x)
    ensures Plain(ExecTable(w, x).1)
  {
    if x.DetachAll? {
      ReleasesPlain(UnsubscribeAll(w.glue.value).1);
    }
  }

  lemma ReleasesPlain(out: seq<Release>)
    ensures Plain(Releases(out))
  {
  }

  lemma MoreRetry(w: World, x: Task, c: Choice)
    requires w.glue.Some? && IsRetry(x)
    ensures Plain(ExecRetry(w, x, c).1)
  {
  }

  lemma MoreEvent(w: World, e: Event)
    requires w.glue.Some? && Sound(w.glue.value)
    ensures Plain(ExecEvent(w, e).1)
  {
  }

  // ---------------------------------------------------------------- steps of the window

  lemma ListAfter(b: Broker, d: Broker, todo: seq<Task>, more: seq<Task>, from: nat, id: int)
    requires todo != [] && from <= 1 && ListOk(b, todo, from, id)
    requires NoRecord(more, id)
    requires id in d.answered ==> Unreported(more, id) && Unreported(todo[1..], id)
    ensures ListOk(d, more + todo[1..], 0, id)
  {
    var rest := todo[1..];
    assert forall i :: 0 <= i < |rest| ==> rest[i] == todo[i + 1] && (from == 0 || rest[i] == todo[from..][i]);
    assert from == 0 ==> todo[from..] == todo;
    var next := more + rest;
    assert next[0..] == next;
  }

  /** A thread ran its next task and the window stays open. */
  lemma WindowAfter(s: State, t: Thread, topic: bytes, id: int, u: Thread, w: World, more: seq<Task>)
    requires Window(s, t, topic, id) && Todo(s, u) != []
    requires Stage(w, Recording(s, t, topic, id) && u != t, topic, id)
    requires ListOk(w.broker, more + Todo(s, u)[1..], 0, id)
    requires forall v :: v in s.threads && v != u && id in w.broker.answered ==> Unreported(s.threads[v], id)
    ensures Window(Push(s, w, u, more + Todo(s, u)[1..]), t, topic, id)
  {
    var next := more + Todo(s, u)[1..];
    var r := Push(s, w, u, next);
    assert next[0..] == next;
    assert u == t ==> !Recording(r, t, topic, id);
    assert u != t ==> (Recording(r, t, topic, id) <==> Recording(s, t, topic, id));
    forall v | v in r.threads
      ensures ListOk(w.broker, r.threads[v], Skip(r, t, topic, id, v), id)
    {
      if v != u {
        assert ListOk(s.w.broker, s.threads[v], Skip(s, t, topic, id, v), id);
      }
    }
  }

  predicate Inv(s: State) { Ready(s.w) && Acks.Inv(s) && Life.Inv(s) }

  lemma RunOther(s: State, t: Thread, topic: bytes, id: int, u: Thread, c: Choice)
    requires Ready(s.w) && Acks.Inv(s) && Window(s, t, topic, id) && Enabled(s, Run(u, c)) && Allows(s, t, topic, id, Run(u, c))
    requires !(u == t && Recording(s, t, topic, id)) && !About(s.w, Todo(s, u)[0], Recording(s, t, topic, id), id)
    ensures Window(Apply(s, Run(u, c)), t, topic, id)
  {
    var todo := Todo(s, u);
    var x := todo[0];
    var (w, more) := Exec(s.w, x, c);
    assert ListOk(s.w.broker, s.threads[u], 0, id) && todo[0..] == todo;
    assert Acks.TaskOk(s.w.broker, x);
    StageKept(s.w, x, c, Recording(s, t, topic, id), topic, id);
    AboutKept(s.w, x, c, id);
    MoreList(s.w, x, c, id);
    ListAfter(s.w.broker, w.broker, todo, more, 0, id);
    forall v | v in s.threads && id in w.broker.answered
      ensures Unreported(s.threads[v], id)
    {
      assert ListOk(s.w.broker, s.threads[v], Skip(s, t, topic, id, v), id);
    }
    WindowAfter(s, t, topic, id, u, w, more);
  }

  lemma RunHears(s: State, t: Thread, topic: bytes, id: int, u: Thread, c: Choice)
    requires Inv(s) && Window(s, t, topic, id) && Enabled(s, Run(u, c))
    requires Todo(s, u)[0].Handle? && Todo(s, u)[0].event.SubackEvent? && Todo(s, u)[0].event.msgId == id
    ensures Window(Apply(s, Run(u, c)), t, topic, id)
  {
    var todo := Todo(s, u);
    var x := todo[0];
    var (w, more) := Exec(s.w, x, c);
    assert Life.ThreadOk(u, s.threads[u]) && u == Handler;
    assert ListOk(s.w.broker, s.threads[u], Skip(s, t, topic, id, u), id);
    assert Reports(x, id) && Acks.TaskOk(s.w.broker, x);
    StageHears(s.w, x.event.rejected, Recording(s, t, topic, id), topic, id);
    MoreList(s.w, x, c, id);
    assert |todo| == 1;
    ListAfter(s.w.broker, w.broker, todo, more, 0, id);
    forall v | v in s.threads && v != u
      ensures Unreported(s.threads[v], id)
    {
      NotInHandler(v, s.threads[v], id);
    }
    WindowAfter(s, t, topic, id, u, w, more);
  }

  lemma NotInHandler(v: Thread, todo: seq<Task>, id: int)
    requires Life.ThreadOk(v, todo) && v != Handler
    ensures Unreported(todo, id)
  {
  }

  lemma RunRecords(s: State, t: Thread, topic: bytes, id: int, c: Choice)
    requires Ready(s.w) && Window(s, t, topic, id) && Recording(s, t, topic, id)
    requires Allows(s, t, topic, id, Run(t, c)) && Enabled(s, Run(t, c))
    ensures Window(Apply(s, Run(t, c)), t, topic, id)
  {
    var todo := Todo(s, t);
    var x := todo[0];
    var (w, more) := Exec(s.w, x, c);
    StageRecords(s.w, c, topic, id);
    MoreList(s.w, x, c, id);
    assert w.broker == s.w.broker;
    assert ListOk(s.w.broker, s.threads[t], 1, id);
    ListAfter(s.w.broker, w.broker, todo, more, 1, id);
    forall v | v in s.threads && id in w.broker.answered
      ensures Unreported(s.threads[v], id)
    {
      assert ListOk(s.w.broker, s.threads[v], Skip(s, t, topic, id, v), id);
    }
    WindowAfter(s, t, topic, id, t, w, more);
  }

  lemma WindowRun(s: State, t: Thread, topic: bytes, id: int, u: Thread, c: Choice)
    requires Inv(s) && Window(s, t, topic, id) && Enabled(s, Run(u, c)) && Allows(s, t, topic, id, Run(u, c))
    ensures Window(Apply(s, Run(u, c)), t, topic, id)
  {
    var x := Todo(s, u)[0];
    if u == t && Recording(s, t, topic, id) {
      RunRecords(s, t, topic, id, c);
    } else if About(s.w, x, Recording(s, t, topic, id), id) {
      RunHears(s, t, topic, id, u, c);
    } else {
      RunOther(s, t, topic, id, u, c);
    }
  }

  // ---------------------------------------------------------------- the other labels

  lemma IdlePush(s: State, t: Thread, topic: bytes, id: int, w: World, u: Thread, todo: seq<Task>)
    requires Window(s, t, topic, id) && Todo(s, u) == []
    requires Stage(w, Recording(s, t, topic, id), topic, id) && w.broker == s.w.broker && ListOk(w.broker, todo, 0, id)
    ensures Window(Push(s, w, u, todo), t, topic, id)
  {
    var r := Push(s, w, u, todo);
    assert todo[0..] == todo;
    assert u == t ==> !Recording(r, t, topic, id);
    assert u != t ==> (Recording(r, t, topic, id) <==> Recording(s, t, topic, id));
    forall v | v in r.threads
      ensures ListOk(w.broker, r.threads[v], Skip(r, t, topic, id, v), id)
    {
      if v != u {
        assert ListOk(s.w.broker, s.threads[v], Skip(s, t, topic, id, v), id);
      }
    }
  }

  /** A list without events or records can be taken up at any time. */
  lemma PlainList(b: Broker, todo: seq<Task>, id: int)
    requires Plain(todo)
    ensures ListOk(b, todo, 0, id)
  {
    assert todo[0..] == todo;
  }

  lemma Stays(s: State, t: Thread, topic: bytes, id: int, w: World)
    requires Window(s, t, topic, id) && Stage(w, Recording(s, t, topic, id), topic, id)
    requires id in w.broker.answered ==> id in s.w.broker.answered
    ensures Window(s.(w := w), t, topic, id)
  {
    var r := s.(w := w);
    forall v | v in r.threads
      ensures ListOk(w.broker, r.threads[v], Skip(r, t, topic, id, v), id)
    {
      assert ListOk(s.w.broker, s.threads[v], Skip(s, t, topic, id, v), id);
    }
  }

  lemma WindowBegin(s: State, t: Thread, topic: bytes, id: int, u: Thread, op: Op)
    requires Inv(s) && Window(s, t, topic, id) && Enabled(s, Begin(u, op))
    ensures Window(Apply(s, Begin(u, op)), t, topic, id)
  {
    if s.w.glue.value.deleting {
      Stays(s, t, topic, id, Apply(s, Begin(u, op)).w);
    } else {
      PlainList(s.w.broker, OpTasks(op), id);
      IdlePush(s, t, topic, id, Apply(s, Begin(u, op)).w, u, OpTasks(op));
    }
  }

  lemma WindowDeliver(s: State, t: Thread, topic: bytes, id: int, e: Event)
    requires Inv(s) && Window(s, t, topic, id) && Enabled(s, Deliver(e))
    ensures Window(Apply(s, Deliver(e)), t, topic, id)
  {
    assert [Head(e)][0..] == [Head(e)];
    IdlePush(s, t, topic, id, s.w, Handler, [Head(e)]);
  }

  lemma WindowDeinit(s: State, t: Thread, topic: bytes, id: int, u: Thread)
    requires Inv(s) && Window(s, t, topic, id) && Enabled(s, Deinit(u))
    ensures Window(Apply(s, Deinit(u)), t, topic, id)
  {
    if !s.w.glue.value.deleting {
      PlainList(s.w.broker, DEINIT_TASKS, id);
      IdlePush(s, t, topic, id, Apply(s, Deinit(u)).w, u, DEINIT_TASKS);
    }
  }

  lemma WindowCall(s: State, t: Thread, topic: bytes, id: int, call: AdminCall)
    requires Inv(s) && Window(s, t, topic, id) && Enabled(s, Call(call))
    ensures Window(Apply(s, Call(call)), t, topic, id)
  {
    PlainList(s.w.broker, CallTasks(call), id);
    IdlePush(s, t, topic, id, s.w, Admin, CallTasks(call));
  }

  lemma WindowStep(s: State, t: Thread, topic: bytes, id: int, l: Label)
    requires Inv(s) && Window(s, t, topic, id) && Enabled(s, l) && Allows(s, t, topic, id, l)
    ensures Window(Apply(s, l), t, topic, id)
  {
    match l
    case Run(u, c) => WindowRun(s, t, topic, id, u, c);
    case Begin(u, op) => WindowBegin(s, t, topic, id, u, op);
    case Deliver(e) => WindowDeliver(s, t, topic, id, e);
    case Deinit(u) => WindowDeinit(s, t, topic, id, u);
    case Call(call) => WindowCall(s, t, topic, id, call);
    case Answer(_, _) => Stays(s, t, topic, id, Apply(s, l).w);
    case Fire => Stays(s, t, topic, id, Apply(s, l).w);
    case Tick(_) => Stays(s, t, topic, id, Apply(s, l).w);
    case Init(_) => assert false;
  }

  // ---------------------------------------------------------------- before and without a packet id

  /** The entries are reserved and the thread is about to do x. */
  predicate Holding(s: State, t: Thread, topic: bytes, x: Task) {
    s.w.glue.Some? && Reserved(s.w.glue.value.subs, topic, -1) && Todo(s, t) != [] && Todo(s, t)[0] == x
  }

  /** The step is another thread's and does not compete. */
  predicate Quiet(s: State, t: Thread, topic: bytes, l: Label) {
    l.Run? && Todo(s, l.t) != [] ==> l.t != t && !Competes(s.w, Todo(s, l.t)[0], topic)
  }

  lemma HoldingRun(s: State, t: Thread, topic: bytes, x: Task, u: Thread, c: Choice)
    requires Inv(s) && Holding(s, t, topic, x) && Enabled(s, Run(u, c)) && Quiet(s, t, topic, Run(u, c))
    ensures Holding(Apply(s, Run(u, c)), t, topic, x)
  {
    var y := Todo(s, u)[0];
    assert Acks.TodoOk(s.w.broker, s.threads[u]) && Acks.TaskOk(s.w.broker, y);
    assert Settles(y).Some? ==> Settles(y).value > 0;
    ExecCarries(s.w, y, c, topic);
    CarriesReserved(s.w.glue.value.subs, Exec(s.w, y, c).0.glue.value.subs, topic, -1);
  }

  lemma HoldingStep(s: State, t: Thread, topic: bytes, x: Task, l: Label)
    requires Inv(s) && Holding(s, t, topic, x) && Enabled(s, l) && Quiet(s, t, topic, l)
    ensures Holding(Apply(s, l), t, topic, x)
  {
    match l
    case Run(u, c) => HoldingRun(s, t, topic, x, u, c);
    case _ => HoldingAside(s, t, topic, x, l);
  }

  lemma HoldingAside(s: State, t: Thread, topic: bytes, x: Task, l: Label)
    requires Ready(s.w) && Holding(s, t, topic, x) && Enabled(s, l) && !l.Run?
    ensures Holding(Apply(s, l), t, topic, x)
  {
    assert Apply(s, l).w.glue.Some? && Apply(s, l).w.glue.value.subs == s.w.glue.value.subs;
    assert Todo(Apply(s, l), t) == Todo(s, t);
  }

  lemma InvStep(s: State, l: Label)
    requires Inv(s) && Enabled(s, l)
    ensures Inv(Apply(s, l))
  {
    Acks.StepOk(s, l);
    Life.StepKeeps(s, l);
  }

  lemma Reached(ls: seq<Label>)
    requires IsRun(Start(), ls)
    ensures Inv(After(Start(), ls))
  {
    Acks.RunKeeps(Start(), ls);
    Life.Reached(Start(), ls);
  }

  predicate QuietRun(s: State, t: Thread, topic: bytes, ls: seq<Label>)
    requires Ready(s.w) && IsRun(s, ls)
    decreases |ls|
  {
    ls == [] || (Quiet(s, t, topic, ls[0]) && QuietRun(Apply(s, ls[0]), t, topic, ls[1..]))
  }

  lemma {:induction false} HoldingThroughout(s: State, t: Thread, topic: bytes, x: Task, ls: seq<Label>)
    requires Inv(s) && Holding(s, t, topic, x) && IsRun(s, ls) && QuietRun(s, t, topic, ls)
    ensures Inv(After(s, ls)) && Holding(After(s, ls), t, topic, x)
    decreases |ls|
  {
    if ls != [] {
      HoldingStep(s, t, topic, x, ls[0]);
      InvStep(s, ls[0]);
      HoldingThroughout(Apply(s, ls[0]), t, topic, x, ls[1..]);
    }
  }

  /** esp-mqtt returned a fresh packet id: the window opens. */
  lemma TransmitOpens(s: State, t: Thread, topic: bytes, x: Task, id: int, ok: bool)
    requires Inv(s) && Holding(s, t, topic, x) && x.Transmit? && x.topic == topic && x.connected
    requires id > 0 && Enabled(s, Run(t, Choice(id, ok)))
    ensures Window(Apply(s, Run(t, Choice(id, ok))), t, topic, id)
  {
    var r := Apply(s, Run(t, Choice(id, ok)));
    var b := s.w.broker;
    forall k | 0 <= k < |s.w.glue.value.acks|
      ensures s.w.glue.value.acks[k].msgId != id
    {
      assert Acks.SlotOk(b, s.w.glue.value.acks[k]);
    }
    assert Recording(r, t, topic, id);
    forall u | u in r.threads
      ensures ListOk(r.w.broker, r.threads[u], Skip(r, t, topic, id, u), id)
    {
      NotRecorded(b, s.threads[u], id);
      assert u == t ==> r.threads[u][1..] == s.threads[u][1..];
      assert u != t ==> r.threads[u][0..] == s.threads[u];
    }
  }

  lemma NotRecorded(b: Broker, todo: seq<Task>, id: int)
    requires Acks.TodoOk(b, todo) && id !in b.sent && id > 0
    ensures NoRecord(todo, id) && (todo != [] ==> NoRecord(todo[1..], id))
  {
    forall i | 0 <= i < |todo| && todo[i].RecordRet?
      ensures todo[i].ret != id
    {
      assert Acks.TaskOk(b, todo[i]);
    }
  }

  predicate AllowedRun(s: State, t: Thread, topic: bytes, id: int, ls: seq<Label>)
    requires Ready(s.w) && IsRun(s, ls)
    decreases |ls|
  {
    ls == [] || (Allows(s, t, topic, id, ls[0]) && AllowedRun(Apply(s, ls[0]), t, topic, id, ls[1..]))
  }

  lemma {:induction false} WindowThroughout(s: State, t: Thread, topic: bytes, id: int, ls: seq<Label>)
    requires Inv(s) && Window(s, t, topic, id) && IsRun(s, ls) && AllowedRun(s, t, topic, id, ls)
    ensures Inv(After(s, ls)) && Window(After(s, ls), t, topic, id)
    decreases |ls|
  {
    if ls != [] {
      WindowStep(s, t, topic, id, ls[0]);
      InvStep(s, ls[0]);
      WindowThroughout(Apply(s, ls[0]), t, topic, id, ls[1..]);
    }
  }

  // ---------------------------------------------------------------- what the sender can rely on

  /** From any reachable state, a thread reserves the topic while connected, esp-mqtt sends the SUBSCRIBE
      with a fresh id, and nothing competes. Once both the record and the SUBACK have happened, in either
      order, every entry of the topic is ACKNOWLEDGED or FAILED as the broker decided; until the SUBACK it
      is REQUESTED under this very id. */
  lemma SettledEitherWay(ls: seq<Label>, t: Thread, topic: bytes, c: Choice, before: seq<Label>,
                         id: int, ok: bool, later: seq<Label>)
    requires IsRun(Start(), ls) && Enabled(After(Start(), ls), Run(t, c))
    requires var s := After(Start(), ls); var x := Todo(s, t)[0];
      x.ReserveTopic? && x.topic == topic && s.w.glue.Some? && s.w.glue.value.connected
    requires var s1 := Apply(After(Start(), ls), Run(t, c)); IsRun(s1, before) && QuietRun(s1, t, topic, before)
    requires var s2 := After(Apply(After(Start(), ls), Run(t, c)), before); id > 0 && Enabled(s2, Run(t, Choice(id, ok)))
    requires var s3 := Apply(After(Apply(After(Start(), ls), Run(t, c)), before), Run(t, Choice(id, ok)));
      IsRun(s3, later) && AllowedRun(s3, t, topic, id, later)
    ensures var s4 := After(Apply(After(Apply(After(Start(), ls), Run(t, c)), before), Run(t, Choice(id, ok))), later);
      && s4.w.glue.Some?
      && (!Recording(s4, t, topic, id) && Heard(s4.w.broker, id) ==>
            Settled(s4.w.glue.value.subs, topic, s4.w.broker.verdicts[id]))
      && (!Recording(s4, t, topic, id) && !Heard(s4.w.broker, id) ==> Reserved(s4.w.glue.value.subs, topic, id))
  {
    Reached(ls);
    SendOpens(After(Start(), ls), t, topic, c, before, id, ok);
    var s2 := After(Apply(After(Start(), ls), Run(t, c)), before);
    WindowThroughout(Apply(s2, Run(t, Choice(id, ok))), t, topic, id, later);
  }

  /** From the reservation to the packet id. */
  lemma SendOpens(s: State, t: Thread, topic: bytes, c: Choice, before: seq<Label>, id: int, ok: bool)
    requires Inv(s) && Enabled(s, Run(t, c)) && s.w.glue.Some? && s.w.glue.value.connected
    requires Todo(s, t)[0].ReserveTopic? && Todo(s, t)[0].topic == topic
    requires var s1 := Apply(s, Run(t, c)); IsRun(s1, before) && QuietRun(s1, t, topic, before)
    requires var s2 := After(Apply(s, Run(t, c)), before); id > 0 && Enabled(s2, Run(t, Choice(id, ok)))
    ensures var s3 := Apply(After(Apply(s, Run(t, c)), before), Run(t, Choice(id, ok))); Inv(s3) && Window(s3, t, topic, id)
  {
    var y := Transmit(topic, Todo(s, t)[0].qos, true);
    var s1 := Apply(s, Run(t, c));
    InvStep(s, Run(t, c));
    ReserveHolds(s, t, topic, c);
    HoldingThroughout(s1, t, topic, y, before);
    var s2 := After(s1, before);
    InvStep(s2, Run(t, Choice(id, ok)));
    TransmitOpens(s2, t, topic, y, id, ok);
  }

  lemma ReserveHolds(s: State, t: Thread, topic: bytes, c: Choice)
    requires Ready(s.w) && Enabled(s, Run(t, c)) && s.w.glue.Some? && s.w.glue.value.connected
    requires Todo(s, t)[0].ReserveTopic? && Todo(s, t)[0].topic == topic
    ensures Holding(Apply(s, Run(t, c)), t, topic, Transmit(topic, Todo(s, t)[0].qos, true))
  {
  }

  /** What is reserved while disconnected is never handed to esp-mqtt, whatever happens before the thread goes
      on: it records a failure. What is reserved while connected is handed over, and its id recorded. */
  lemma SentOnlyWhileConnected(w: World, u: World, topic: bytes, qos: nat, c: Choice, d: Choice)
    requires w.glue.Some? && u.glue.Some?
    ensures var more := ExecSend(w, ReserveTopic(topic, qos), c).1;
      && |more| == 1 && more[0].Transmit?
      && var (v, next) := ExecSend(u, more[0], d);
         && |next| == 1 && next[0].RecordRet? && next[0].topic == topic
         && (!w.glue.value.connected || d.ret < 0 ==> v == u && next[0].ret == -1)
         && (w.glue.value.connected && d.ret >= 0 ==> next[0].ret == d.ret && v.broker.sent == u.broker.sent[d.ret := topic])
  {
  }

  /** A send that esp-mqtt refused, or that was not tried because the connection was down, leaves every
      entry of the topic FAILED once recorded, unless something competes in between. */
  lemma RefusedSendFails(s: State, t: Thread, topic: bytes, ls: seq<Label>, c: Choice)
    requires Inv(s) && Holding(s, t, topic, RecordRet(topic, -1)) && IsRun(s, ls) && QuietRun(s, t, topic, ls)
    requires Enabled(After(s, ls), Run(t, c))
    ensures var g := Apply(After(s, ls), Run(t, c)).w.glue; g.Some? && Settled(g.value.subs, topic, true)
  {
    HoldingThroughout(s, t, topic, RecordRet(topic, -1), ls);
  }
}
