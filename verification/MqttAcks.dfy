/** In every run of the protocol the table and the parked SUBACKs are true to what the broker was sent and
    decided; MqttSessions says what that makes of an ACKNOWLEDGED entry. */
module MqttAcks {
  import opened Bytes
  import opened MqttTable
  import opened MqttRegions
  import opened MqttProtocol

  predicate SentFor(b: Broker, id: int, topic: bytes) { id in b.sent && b.sent[id] == topic }

  /** The broker accepted a SUBSCRIBE for this topic. */
  predicate Accepted(b: Broker, topic: bytes) {
    exists id :: id in b.verdicts && !b.verdicts[id] && SentFor(b, id, topic)
  }

  predicate EntryOk(b: Broker, e: Option<Sub>) {
    && (e.Some? && e.value.state == Requested ==> e.value.msgId == -1 || SentFor(b, e.value.msgId, e.value.topic))
    && (e.Some? && e.value.state == Acknowledged ==> Accepted(b, e.value.topic))
  }

  predicate Verdicted(b: Broker, id: int, rejected: bool) { id in b.verdicts && b.verdicts[id] == rejected }

  predicate SlotOk(b: Broker, a: EarlyAck) { a.msgId != 0 ==> Verdicted(b, a.msgId, a.rejected) }

  predicate TableOk(b: Broker, t: Table) { forall i :: 0 <= i < |t| ==> EntryOk(b, t[i]) }

  predicate SlotsOk(b: Broker, acks: seq<EarlyAck>) { forall i :: 0 <= i < |acks| ==> SlotOk(b, acks[i]) }

  predicate BrokerOk(b: Broker) {
    && (forall id :: id in b.sent ==> id > 0)
    && (forall id :: id in b.verdicts ==> id in b.sent)
    && (forall id :: id in b.answered ==> id in b.verdicts)
  }

  predicate WorldOk(w: World) {
    BrokerOk(w.broker) && (w.glue.Some? ==> TableOk(w.broker, w.glue.value.subs) && SlotsOk(w.broker, w.glue.value.acks))
  }

  predicate EventOk(b: Broker, e: Event) {
    (e.SubackEvent? ==> Verdicted(b, e.msgId, e.rejected)) && (e.DeletedEvent? ==> e.msgId > 0)
  }

  predicate TaskOk(b: Broker, x: Task) {
    match x
    case RecordRet(topic, ret) => ret >= 0 ==> SentFor(b, ret, topic)
    case Head(e) => EventOk(b, e)
    case Handle(e) => EventOk(b, e)
    case _ => true
  }

  predicate TodoOk(b: Broker, todo: seq<Task>) { forall i :: 0 <= i < |todo| ==> TaskOk(b, todo[i]) }

  predicate Inv(s: State) { WorldOk(s.w) && forall t :: t in s.threads ==> TodoOk(s.w.broker, s.threads[t]) }

  // ---------------------------------------------------------------- the broker only learns more

  predicate Grows(b: Broker, d: Broker) {
    && (forall id :: id in b.sent ==> SentFor(d, id, b.sent[id]))
    && (forall id :: id in b.verdicts ==> Verdicted(d, id, b.verdicts[id]))
  }

  lemma AcceptedGrows(b: Broker, d: Broker, topic: bytes)
    requires Grows(b, d) && Accepted(b, topic)
    ensures Accepted(d, topic)
  {
    var id :| id in b.verdicts && !b.verdicts[id] && SentFor(b, id, topic);
    assert Verdicted(d, id, false);
  }

  lemma TableGrows(b: Broker, d: Broker, t: Table)
    requires Grows(b, d) && TableOk(b, t)
    ensures TableOk(d, t)
  {
    forall i | 0 <= i < |t|
      ensures EntryOk(d, t[i])
    {
      assert EntryOk(b, t[i]);
      if t[i].Some? && t[i].value.state == Acknowledged {
        AcceptedGrows(b, d, t[i].value.topic);
      }
    }
  }

  lemma SlotsGrow(b: Broker, d: Broker, acks: seq<EarlyAck>)
    requires Grows(b, d) && SlotsOk(b, acks)
    ensures SlotsOk(d, acks)
  {
    forall i | 0 <= i < |acks|
      ensures SlotOk(d, acks[i])
    {
      assert SlotOk(b, acks[i]);
    }
  }

  lemma TodoGrows(b: Broker, d: Broker, todo: seq<Task>)
    requires Grows(b, d) && TodoOk(b, todo)
    ensures TodoOk(d, todo)
  {
    forall i | 0 <= i < |todo|
      ensures TaskOk(d, todo[i])
    {
      assert TaskOk(b, todo[i]);
    }
  }

  // ---------------------------------------------------------------- regions

  lemma ReserveOk(b: Broker, t: Table, topic: bytes, now: int)
    requires TableOk(b, t)
    ensures TableOk(b, ReserveAll(t, topic, now))
  {
    forall i | 0 <= i < |t|
      ensures EntryOk(b, ReserveOne(t[i], topic, now))
    {
      assert EntryOk(b, t[i]);
    }
  }

  lemma ResetOk(b: Broker, t: Table)
    requires TableOk(b, t)
    ensures TableOk(b, ResetAll(t))
  {
    forall i | 0 <= i < |t|
      ensures EntryOk(b, ResetOne(t[i]))
    {
      assert EntryOk(b, t[i]);
    }
  }

  lemma RecordAllOk(b: Broker, t: Table, topic: bytes, ret: int, ack: Option<bool>)
    requires TableOk(b, t) && (ret >= 0 ==> SentFor(b, ret, topic))
    requires ret >= 0 && ack.Some? ==> Verdicted(b, ret, ack.value)
    ensures TableOk(b, RecordAll(t, topic, ret, ack))
  {
    forall i | 0 <= i < |t|
      ensures EntryOk(b, RecordOne(t[i], topic, ret, ack))
    {
      assert EntryOk(b, t[i]);
    }
  }

  lemma TakeOk(b: Broker, acks: seq<EarlyAck>, msgId: int, now: int)
    requires SlotsOk(b, acks) && msgId != 0
    ensures var (ack, rest) := Take(acks, msgId, now);
      SlotsOk(b, rest) && (ack.Some? ==> Verdicted(b, msgId, ack.value))
  {
    var i := TakeSlot(acks, msgId, now);
    if i < |acks| {
      assert ParkedAt(acks, i, msgId, now) && SlotOk(b, acks[i]);
    }
  }

  lemma RecordOk(b: Broker, g: Glue, topic: bytes, ret: int, now: int)
    requires BrokerOk(b) && TableOk(b, g.subs) && SlotsOk(b, g.acks) && (ret >= 0 ==> SentFor(b, ret, topic))
    ensures var h := Record(g, topic, ret, now).0; TableOk(b, h.subs) && SlotsOk(b, h.acks)
  {
    if ret >= 0 {
      assert ret > 0;
      TakeOk(b, g.acks, ret, now);
      RecordAllOk(b, g.subs, topic, ret, Take(g.acks, ret, now).0);
    } else {
      RecordAllOk(b, g.subs, topic, ret, None);
    }
  }

  /** Also right for a dropped request, which counts as rejected. */
  lemma AckAllOk(b: Broker, t: Table, msgId: int, rejected: bool)
    requires TableOk(b, t) && msgId != -1 && (!rejected ==> Verdicted(b, msgId, false))
    ensures TableOk(b, AckAll(t, msgId, rejected))
  {
    forall i | 0 <= i < |t|
      ensures EntryOk(b, AckOne(t[i], msgId, rejected))
    {
      assert EntryOk(b, t[i]);
    }
  }

  lemma SubackOk(b: Broker, g: Glue, msgId: int, rejected: bool, now: int)
    requires Sound(g) && BrokerOk(b) && TableOk(b, g.subs) && SlotsOk(b, g.acks) && Verdicted(b, msgId, rejected)
    ensures var h := Suback(g, msgId, rejected, now).0; TableOk(b, h.subs) && SlotsOk(b, h.acks)
  {
    assert msgId > 0;
    AckAllOk(b, g.subs, msgId, rejected);
  }

  /** A new entry starts out acknowledged only beside an acknowledged one on the same topic. */
  lemma SubscribeOk(b: Broker, g: Glue, topic: bytes, cb: int, priv: int, qos: nat)
    requires TableOk(b, g.subs)
    ensures TableOk(b, Subscribe(g, topic, cb, priv, qos).0.subs)
  {
    var n := |g.subs|;
    var i := LastEntry(g.subs, topic, cb, n);
    if i >= 0 {
      assert EntryOk(b, g.subs[i]);
    } else if Active(g.subs, topic, n) {
      var k :| 0 <= k < n && OnTopic(g.subs[k], topic) && g.subs[k].value.state == Acknowledged;
      assert EntryOk(b, g.subs[k]);
    }
  }

  lemma TableStepOk(w: World, x: Task)
    requires WorldOk(w) && w.glue.Some? && IsTable(x)
    ensures WorldOk(ExecTable(w, x).0) && ExecTable(w, x).0.broker == w.broker
  {
    if x.SubscribeEntry? {
      SubscribeOk(w.broker, w.glue.value, x.topic, x.cb, x.priv, x.qos);
    }
  }

  lemma ReleasesOk(b: Broker, out: seq<Release>)
    ensures TodoOk(b, Releases(out))
  {
  }

  lemma TableTasksOk(w: World, x: Task)
    requires w.glue.Some? && IsTable(x)
    ensures TodoOk(w.broker, ExecTable(w, x).1)
  {
    if x.DetachAll? {
      ReleasesOk(w.broker, UnsubscribeAll(w.glue.value).1);
    }
  }

  lemma SendStepOk(w: World, x: Task, c: Choice)
    requires WorldOk(w) && w.glue.Some? && (x.ReserveTopic? || x.RecordRet?) && TaskOk(w.broker, x)
    ensures WorldOk(ExecSend(w, x, c).0) && ExecSend(w, x, c).0.broker == w.broker && TodoOk(w.broker, ExecSend(w, x, c).1)
  {
    if x.ReserveTopic? {
      ReserveOk(w.broker, w.glue.value.subs, x.topic, w.now);
    } else {
      RecordOk(w.broker, w.glue.value, x.topic, x.ret, w.now);
    }
  }

  lemma TransmitOk(w: World, x: Task, c: Choice)
    requires WorldOk(w) && w.glue.Some? && x.Transmit? && (c.ret < 0 || (c.ret > 0 && c.ret !in w.broker.sent))
    ensures var (v, more) := ExecSend(w, x, c); WorldOk(v) && Grows(w.broker, v.broker) && TodoOk(v.broker, more)
  {
    var v := ExecSend(w, x, c).0;
    assert Grows(w.broker, v.broker);
    TableGrows(w.broker, v.broker, w.glue.value.subs);
    SlotsGrow(w.broker, v.broker, w.glue.value.acks);
  }

  lemma EventStepOk(w: World, e: Event)
    requires WorldOk(w) && w.glue.Some? && Sound(w.glue.value) && EventOk(w.broker, e)
    ensures var (v, more) := ExecEvent(w, e); WorldOk(v) && Grows(w.broker, v.broker) && TodoOk(v.broker, more)
  {
    var b, v := w.broker, ExecEvent(w, e).0;
    assert Grows(b, v.broker);
    match e
    case Connected => ResetOk(b, w.glue.value.subs);
    case Disconnected => ResetOk(b, w.glue.value.subs);
    case SubackEvent(id, rejected) =>
      SubackOk(b, w.glue.value, id, rejected, w.now);
      TableGrows(b, v.broker, v.glue.value.subs);
      SlotsGrow(b, v.broker, v.glue.value.acks);
    case DeletedEvent(id) => AckAllOk(b, w.glue.value.subs, id, true);
    case _ =>
  }

  // ---------------------------------------------------------------- steps

  lemma ExecOk(w: World, x: Task, c: Choice)
    requires WorldOk(w) && w.glue.Some? && Sound(w.glue.value) && TaskOk(w.broker, x)
    requires x.Transmit? ==> c.ret < 0 || (c.ret > 0 && c.ret !in w.broker.sent)
    ensures var (v, more) := Exec(w, x, c); WorldOk(v) && Grows(w.broker, v.broker) && TodoOk(v.broker, more)
  {
    if IsTable(x) {
      TableStepOk(w, x);
      TableTasksOk(w, x);
    } else if x.Transmit? {
      TransmitOk(w, x, c);
    } else if x.ReserveTopic? || x.RecordRet? {
      SendStepOk(w, x, c);
    } else if x.Handle? {
      EventStepOk(w, x.event);
    } else if IsRetry(x) {
      RetryStepOk(w, x, c);
    } else {
      OtherStepOk(w, x, c);
    }
  }

  lemma RetryStepOk(w: World, x: Task, c: Choice)
    requires WorldOk(w) && w.glue.Some? && IsRetry(x)
    ensures var (v, more) := ExecRetry(w, x, c); WorldOk(v) && v.broker == w.broker && TodoOk(w.broker, more)
  {
  }

  lemma OtherStepOk(w: World, x: Task, c: Choice)
    requires WorldOk(w) && w.glue.Some? && Sound(w.glue.value) && TaskOk(w.broker, x)
    requires IsOther(x)
    ensures var (v, more) := Exec(w, x, c); WorldOk(v) && v.broker == w.broker && TodoOk(w.broker, more)
  {
    if x.Disconnect? {
      ResetOk(w.broker, w.glue.value.subs);
    }
  }

  lemma AttemptOk(w: World, x: Task, c: Choice)
    requires Ready(w) && WorldOk(w) && TaskOk(w.broker, x)
    requires x.Transmit? ==> c.ret < 0 || (c.ret > 0 && c.ret !in w.broker.sent)
    ensures var (v, more) := Attempt(w, x, c); WorldOk(v) && Grows(w.broker, v.broker) && TodoOk(v.broker, more)
  {
    if w.glue.Some? {
      ExecOk(w, x, c);
    }
  }

  /** A thread's list is replaced while the broker learns more. */
  lemma PushOk(s: State, w: World, t: Thread, todo: seq<Task>)
    requires Inv(s) && WorldOk(w) && Grows(s.w.broker, w.broker) && TodoOk(w.broker, todo)
    ensures Inv(Push(s, w, t, todo))
  {
    forall u | u in s.threads
      ensures TodoOk(w.broker, s.threads[u])
    {
      TodoGrows(s.w.broker, w.broker, s.threads[u]);
    }
  }

  lemma RunOk(s: State, t: Thread, c: Choice)
    requires Ready(s.w) && Enabled(s, Run(t, c)) && Inv(s)
    ensures Inv(Apply(s, Run(t, c)))
  {
    var todo := Todo(s, t);
    assert TaskOk(s.w.broker, todo[0]);
    AttemptOk(s.w, todo[0], c);
    var (w, more) := Attempt(s.w, todo[0], c);
    TodoGrows(s.w.broker, w.broker, todo);
    PushOk(s, w, t, more + todo[1..]);
  }

  lemma AnswerOk(s: State, id: int, rejected: bool)
    requires Ready(s.w) && Enabled(s, Answer(id, rejected)) && Inv(s)
    ensures Inv(Apply(s, Answer(id, rejected)))
  {
    var b := s.w.broker;
    var d := b.(verdicts := b.verdicts[id := rejected]);
    assert Grows(b, d);
    if s.w.glue.Some? {
      TableGrows(b, d, s.w.glue.value.subs);
      SlotsGrow(b, d, s.w.glue.value.acks);
    }
    forall t | t in s.threads
      ensures TodoOk(d, s.threads[t])
    {
      TodoGrows(b, d, s.threads[t]);
    }
  }

  lemma StepOk(s: State, l: Label)
    requires Ready(s.w) && Enabled(s, l) && Inv(s)
    ensures Inv(Apply(s, l))
  {
    match l
    case Run(t, c) => RunOk(s, t, c);
    case Answer(id, rejected) => AnswerOk(s, id, rejected);
    case Begin(t, op) =>
      var w := Apply(s, l).w;
      assert WorldOk(w) && w.broker == s.w.broker;
      PushOk(s, w, t, OpTasks(op));
    case Deinit(t) =>
      PushOk(s, Apply(s, l).w, t, DEINIT_TASKS);
    case Call(call) =>
      PushOk(s, s.w, Admin, CallTasks(call));
    case Deliver(e) =>
      PushOk(s, s.w, Handler, [Head(e)]);
    case _ =>
  }

  lemma {:induction false} RunKeeps(s: State, ls: seq<Label>)
    requires Ready(s.w) && Inv(s) && IsRun(s, ls)
    ensures Inv(After(s, ls))
    decreases |ls|
  {
    if ls != [] {
      StepOk(s, ls[0]);
      RunKeeps(Apply(s, ls[0]), ls[1..]);
    }
  }
}
