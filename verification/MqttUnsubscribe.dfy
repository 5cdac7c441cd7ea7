/** When an acknowledged subscription is still in force at the broker. UNSUBSCRIBE is sent after the table lock
    was released, so it may follow a SUBSCRIBE that some entry relies on or is about to rely on. */
module MqttUnsubscribe {
  import opened Bytes
  import opened MqttTable
  import opened MqttRegions
  import opened MqttProtocol
  import opened MqttSessions
  import Acks = MqttAcks

  // ---------------------------------------------------------------- what an UNSUBSCRIBE cuts off

  /** The step sends an UNSUBSCRIBE for the topic. */
  predicate Unsubscribes(s: State, l: Label, topic: bytes) {
    s.w.glue.Some? && l.Run? && l.c.ok && Todo(s, l.t) != [] && Todo(s, l.t)[0] == SendUnsubscribe(topic)
  }

  /** In the course of the run an UNSUBSCRIBE for its topic follows the SUBSCRIBE with this id. */
  predicate CutOff(s: State, ls: seq<Label>, id: int)
    requires Ready(s.w) && IsRun(s, ls)
    decreases |ls|
  {
    ls != [] && ((id in s.w.broker.sent && Unsubscribes(s, ls[0], s.w.broker.sent[id]))
                 || CutOff(Apply(s, ls[0]), ls[1..], id))
  }

  lemma ExecCuts(w: World, x: Task, c: Choice)
    requires w.glue.Some? && Sound(w.glue.value)
    ensures Exec(w, x, c).0.session.cut
         == w.session.cut + (if x.SendUnsubscribe? && c.ok then SentOn(w.broker, x.topic) else {})
  {
    if x.Handle? || IsRetry(x) || IsTable(x) {
      SessionKept(w, x, c);
    } else if IsSend(x) {
      SendCuts(w, x, c);
    } else {
      OtherCuts(w, x, c);
    }
  }

  lemma SendCuts(w: World, x: Task, c: Choice)
    requires w.glue.Some? && IsSend(x)
    ensures ExecSend(w, x, c).0.session.cut == w.session.cut
  {
  }

  lemma OtherCuts(w: World, x: Task, c: Choice)
    requires w.glue.Some? && IsOther(x)
    ensures ExecOther(w, x, c).0.session.cut
         == w.session.cut + (if x.SendUnsubscribe? && c.ok then SentOn(w.broker, x.topic) else {})
  {
  }

  lemma StepCuts(s: State, l: Label, id: int)
    requires Inv(s) && Enabled(s, l)
    ensures id in Apply(s, l).w.session.cut
       <==> id in s.w.session.cut || (id in s.w.broker.sent && Unsubscribes(s, l, s.w.broker.sent[id]))
  {
    if l.Run? && s.w.glue.Some? {
      ExecCuts(s.w, Todo(s, l.t)[0], l.c);
    }
  }

  lemma {:induction false} CutIs(s: State, ls: seq<Label>, id: int)
    requires Inv(s) && IsRun(s, ls)
    ensures id in After(s, ls).w.session.cut <==> id in s.w.session.cut || CutOff(s, ls, id)
    decreases |ls|
  {
    if ls != [] {
      StepOk(s, ls[0]);
      StepCuts(s, ls[0], id);
      CutIs(Apply(s, ls[0]), ls[1..], id);
    }
  }

  /** The SUBSCRIBE an ACKNOWLEDGED entry relies on is in force if and only if its send did not span a connect
      or disconnect and no step of the run sent an UNSUBSCRIBE for the topic after it. */
  lemma ActiveUnlessCutOff(ls: seq<Label>, i: nat, id: int)
    requires IsRun(Start(), ls)
    requires var g := After(Start(), ls).w.glue; g.Some? && i < |g.value.subs| && g.value.subs[i].Some?
    requires var w := After(Start(), ls).w; AckedBy(w, w.glue.value.subs[i].value, id)
    ensures var w := After(Start(), ls).w;
      ActiveBy(w, w.glue.value.subs[i].value.topic, id) <==> !Spans(w.session, id) && !CutOff(Start(), ls, id)
  {
    Reached(Start(), ls);
    CutIs(Start(), ls, id);
  }

  // ---------------------------------------------------------------- steps that cut off nothing in use

  /** The entry relies on a SUBSCRIBE for the topic: it is acknowledged, or its request is recorded. */
  predicate Relies(e: Option<Sub>, topic: bytes) {
    OnTopic(e, topic) && (e.value.state == Acknowledged || (e.value.state == Requested && e.value.msgId != -1))
  }

  /** Some thread has sent a SUBSCRIBE for the topic and is about to record its id. */
  predicate Sending(s: State, topic: bytes) {
    exists t :: t in s.threads && Recorder(s.threads[t]) && s.threads[t][0].topic == topic
  }

  /** An UNSUBSCRIBE is sent only when no entry relies on its topic and no sender is about to record. */
  predicate Clear(s: State, l: Label) {
    l.Run? && Todo(s, l.t) != [] && Todo(s, l.t)[0].SendUnsubscribe? && Unsubscribes(s, l, Todo(s, l.t)[0].topic) ==>
      var topic := Todo(s, l.t)[0].topic; var subs := s.w.glue.value.subs;
      (forall i :: 0 <= i < |subs| ==> !Relies(subs[i], topic)) && !Sending(s, topic)
  }

  predicate ClearRun(s: State, ls: seq<Label>)
    requires Ready(s.w) && IsRun(s, ls)
    decreases |ls|
  {
    ls == [] || (Clear(s, ls[0]) && ClearRun(Apply(s, ls[0]), ls[1..]))
  }

  predicate SendersOk(s: State) {
    forall t :: t in s.threads && Recorder(s.threads[t]) ==> s.threads[t][0].ret !in s.w.session.cut
  }

  /** No entry relies, and no sender will, on a SUBSCRIBE that an UNSUBSCRIBE has cut off. */
  ghost predicate InForce(s: State) { WorldOk(s.w, s.w.session.cut) && SendersOk(s) }

  ghost predicate AlwaysInForce(s: State, ls: seq<Label>)
    requires Ready(s.w) && IsRun(s, ls)
    decreases |ls|
  {
    InForce(s) && (ls == [] || AlwaysInForce(Apply(s, ls[0]), ls[1..]))
  }

  /** Only ids that were sent are cut off. */
  predicate CutSent(w: World) { forall id :: id in w.session.cut ==> id in w.broker.sent }

  ghost predicate Base(s: State) { Inv(s) && RecordersOk(s) && CutSent(s.w) }

  lemma StepBase(s: State, l: Label)
    requires Base(s) && Enabled(s, l)
    ensures Base(Apply(s, l))
  {
    StepOk(s, l);
    StepRecorders(s, l);
    if l.Run? && s.w.glue.Some? {
      assert Acks.TodoOk(s.w.broker, s.threads[l.t]);
      ExecIds(s.w, Todo(s, l.t)[0], l.c);
    }
    forall id | id in Apply(s, l).w.session.cut
      ensures id in Apply(s, l).w.broker.sent
    {
      StepCuts(s, l, id);
    }
  }

  // ---------------------------------------------------------------- clear steps keep everything in force

  /** Widening the ids cut off by those of a topic nobody relies on changes nothing. */
  lemma TableWidens(w: World, t: Table, topic: bytes, gone: set<int>)
    requires TableOk(w, t, gone) && Acks.TableOk(w.broker, t) && forall i :: 0 <= i < |t| ==> !Relies(t[i], topic)
    ensures TableOk(w, t, gone + SentOn(w.broker, topic))
  {
    var more := gone + SentOn(w.broker, topic);
    forall i | 0 <= i < |t|
      ensures EntryOk(w, t[i], more)
    {
      assert EntryOk(w, t[i], gone) && Acks.EntryOk(w.broker, t[i]) && !Relies(t[i], topic);
      if t[i].Some? && t[i].value.state == Acknowledged {
        var id :| AckedBy(w, t[i].value, id) && id !in gone;
        assert id !in more;
      }
    }
  }

  lemma ClearWorld(s: State, l: Label)
    requires Base(s) && Enabled(s, l) && InForce(s) && Clear(s, l)
    ensures WorldOk(Apply(s, l).w, Apply(s, l).w.session.cut)
  {
    var v, gone := Apply(s, l).w, s.w.session.cut;
    StepGone(s, l, gone);
    if l.Run? && Todo(s, l.t)[0].SendUnsubscribe? && Unsubscribes(s, l, Todo(s, l.t)[0].topic) {
      var topic := Todo(s, l.t)[0].topic;
      TableWidens(v, v.glue.value.subs, topic, gone);
      ExecCuts(s.w, Todo(s, l.t)[0], l.c);
    } else {
      assert v.session.cut == gone by { SameCut(s, l); }
    }
  }

  lemma SameCut(s: State, l: Label)
    requires Inv(s) && Enabled(s, l)
    requires !(l.Run? && Todo(s, l.t)[0].SendUnsubscribe? && Unsubscribes(s, l, Todo(s, l.t)[0].topic))
    ensures Apply(s, l).w.session.cut == s.w.session.cut
  {
    if l.Run? && s.w.glue.Some? {
      ExecCuts(s.w, Todo(s, l.t)[0], l.c);
    }
  }

  /** A sender after the step was one before it, or has just sent. */
  lemma SenderBefore(s: State, l: Label, u: Thread)
    requires Base(s) && Enabled(s, l) && u in Apply(s, l).threads && Recorder(Apply(s, l).threads[u])
    ensures (u in s.threads && s.threads[u] == Apply(s, l).threads[u])
         || (l.Run? && u == l.t && s.w.glue.Some? && Todo(s, u)[0].Transmit?
             && Apply(s, l).threads[u][0].topic == Todo(s, u)[0].topic && Apply(s, l).threads[u][0].ret == l.c.ret)
  {
    match l
    case Run(t, c) =>
      if u == t {
        assert RecordFirst(s.threads[t]);
        RanSender(s, t, c);
      }
    case Begin(t, op) => NoneToRecord(op, ConnectCall);
    case Deinit(t) => NoneToRecord(PublishOp, ConnectCall);
    case Call(call) => NoneToRecord(PublishOp, call);
    case _ =>
  }

  lemma RanSender(s: State, t: Thread, c: Choice)
    requires Base(s) && Enabled(s, Run(t, c)) && RecordFirst(Todo(s, t)) && Recorder(Apply(s, Run(t, c)).threads[t])
    ensures s.w.glue.Some? && Todo(s, t)[0].Transmit?
    ensures var y := Apply(s, Run(t, c)).threads[t][0]; y.topic == Todo(s, t)[0].topic && y.ret == c.ret
  {
    var todo := Todo(s, t);
    var more := Attempt(s.w, todo[0], c).1;
    assert todo[1..] != [] ==> todo[1..][0] == todo[1];
    if s.w.glue.Some? && !todo[0].Transmit? {
      MoreRecords(s.w, todo[0], c);
    }
  }

  lemma ClearSenders(s: State, l: Label)
    requires Base(s) && Enabled(s, l) && InForce(s) && Clear(s, l)
    ensures SendersOk(Apply(s, l))
  {
    var r := Apply(s, l);
    forall u | u in r.threads && Recorder(r.threads[u])
      ensures r.threads[u][0].ret !in r.w.session.cut
    {
      SenderBefore(s, l, u);
      StepCuts(s, l, r.threads[u][0].ret);
      if u in s.threads && s.threads[u] == r.threads[u] {
        assert Acks.TodoOk(s.w.broker, s.threads[u]) && Acks.TaskOk(s.w.broker, s.threads[u][0]);
      }
    }
  }

  // ---------------------------------------------------------------- any other step cuts off something in use

  lemma OthersStay(s: State, l: Label, topic: bytes)
    requires Base(s) && Enabled(s, l) && Unsubscribes(s, l, topic)
    ensures var r := Apply(s, l); r.w.glue == s.w.glue && r.w.broker == s.w.broker
    ensures forall u :: u in s.threads && Recorder(s.threads[u]) ==>
              u in Apply(s, l).threads && Apply(s, l).threads[u] == s.threads[u]
  {
  }

  lemma UnclearCuts(s: State, l: Label)
    requires Base(s) && Enabled(s, l) && !Clear(s, l)
    ensures !InForce(Apply(s, l))
  {
    var topic, r := Todo(s, l.t)[0].topic, Apply(s, l);
    OthersStay(s, l, topic);
    if Sending(s, topic) {
      var u :| u in s.threads && Recorder(s.threads[u]) && s.threads[u][0].topic == topic;
      assert Acks.TodoOk(s.w.broker, s.threads[u]) && Acks.TaskOk(s.w.broker, s.threads[u][0]);
      StepCuts(s, l, s.threads[u][0].ret);
      assert u in r.threads && Recorder(r.threads[u]);
    } else {
      var i :| 0 <= i < |s.w.glue.value.subs| && Relies(s.w.glue.value.subs[i], topic);
      UnclearEntry(s, l, topic, i);
    }
  }

  lemma UnclearEntry(s: State, l: Label, topic: bytes, i: nat)
    requires Base(s) && Enabled(s, l) && Unsubscribes(s, l, topic)
    requires i < |s.w.glue.value.subs| && Relies(s.w.glue.value.subs[i], topic)
    ensures !InForce(Apply(s, l))
  {
    var r, e := Apply(s, l), s.w.glue.value.subs[i];
    OthersStay(s, l, topic);
    ExecCuts(s.w, Todo(s, l.t)[0], l.c);
    assert Acks.EntryOk(s.w.broker, e) && r.w.glue.value.subs[i] == e;
    assert forall id :: AckedBy(r.w, e.value, id) ==> id in SentOn(s.w.broker, topic);
    assert !EntryOk(r.w, e, r.w.session.cut);
  }

  // ---------------------------------------------------------------- over a run

  lemma {:induction false} InForceThroughout(s: State, ls: seq<Label>)
    requires Base(s) && InForce(s) && IsRun(s, ls)
    ensures AlwaysInForce(s, ls) <==> ClearRun(s, ls)
    ensures ClearRun(s, ls) ==> InForce(After(s, ls))
    decreases |ls|
  {
    if ls != [] {
      StepBase(s, ls[0]);
      if Clear(s, ls[0]) {
        ClearWorld(s, ls[0]);
        ClearSenders(s, ls[0]);
        InForceThroughout(Apply(s, ls[0]), ls[1..]);
      } else {
        UnclearCuts(s, ls[0]);
      }
    }
  }

  /** In every state of a run, whatever an entry relies on or a sender is about to record is not cut off, if
      and only if every UNSUBSCRIBE of the run is sent while no entry relies on its topic and no sender is
      about to record an id for it. */
  lemma InForceIffClear(ls: seq<Label>)
    requires IsRun(Start(), ls)
    ensures AlwaysInForce(Start(), ls) <==> ClearRun(Start(), ls)
  {
    InForceThroughout(Start(), ls);
  }

  /** If, besides, no send spans a connect or disconnect, ACKNOWLEDGED means that the broker holds a
      subscription to the topic on the present connection. */
  lemma AcknowledgedMeansActive(ls: seq<Label>, i: nat)
    requires IsRun(Start(), ls) && PromptRun(Start(), ls) && ClearRun(Start(), ls)
    requires var g := After(Start(), ls).w.glue; g.Some? && i < |g.value.subs| && g.value.subs[i].Some?
    requires After(Start(), ls).w.glue.value.subs[i].value.state == Acknowledged
    ensures var w := After(Start(), ls).w; MqttSessions.Active(w, w.glue.value.subs[i].value.topic)
  {
    Reached(Start(), ls);
    InForceThroughout(Start(), ls);
    PromptKeeps(Start(), ls);
    var w := After(Start(), ls).w;
    var e := w.glue.value.subs[i];
    assert EntryOk(w, e, w.session.cut);
    var id :| AckedBy(w, e.value, id) && id !in w.session.cut;
    assert !Spans(w.session, id) && ActiveBy(w, e.value.topic, id);
  }

  // ---------------------------------------------------------------- keeping subscribe and unsubscribe apart

  /** Some thread has detached the topic's last entry and is still to send the UNSUBSCRIBE. */
  predicate Owed(s: State, topic: bytes) { exists t :: t in s.threads && SendUnsubscribe(topic) in s.threads[t] }

  /** While an UNSUBSCRIBE for the topic is owed, no subscribe for it enters the table and none is sent; and
      unsubscribe and unsubscribe_all take no topic out while a SUBSCRIBE for it is sent and not yet recorded. */
  predicate Separate(s: State, l: Label) {
    l.Run? && Todo(s, l.t) != [] ==>
      var x := Todo(s, l.t)[0];
      && (x.SubscribeEntry? || x.Transmit? ==> !Owed(s, x.topic))
      && (x.UnsubscribeEntry? || x.DetachAll? ==>
            forall u :: u in s.threads && Recorder(s.threads[u]) ==>
              x.UnsubscribeEntry? && !(x.topic <= s.threads[u][0].topic))
  }

  predicate SeparateRun(s: State, ls: seq<Label>)
    requires Ready(s.w) && IsRun(s, ls)
    decreases |ls|
  {
    ls == [] || (Separate(s, ls[0]) && SeparateRun(Apply(s, ls[0]), ls[1..]))
  }

  predicate Absent(w: World, topic: bytes) {
    w.glue.Some? ==> forall i :: 0 <= i < |w.glue.value.subs| ==> !OnTopic(w.glue.value.subs[i], topic)
  }

  /** What is to be unsubscribed is out of the table and not on its way in. */
  ghost predicate Apart(s: State) { forall topic :: Owed(s, topic) ==> Absent(s.w, topic) && !Sending(s, topic) }

  /** No topic enters the table but by a subscribe. */
  predicate Kin(t: Table, u: Table, x: Task) {
    forall j :: 0 <= j < |u| && u[j].Some? ==>
      (j < |t| && t[j].Some? && t[j].value.topic == u[j].value.topic) || (x.SubscribeEntry? && u[j].value.topic == x.topic)
  }

  lemma ExecKin(w: World, x: Task, c: Choice)
    requires w.glue.Some? && Sound(w.glue.value)
    ensures Exec(w, x, c).0.glue.Some? ==> Kin(w.glue.value.subs, Exec(w, x, c).0.glue.value.subs, x)
  {
    if IsTable(x) {
      TableKin(w, x);
    } else if IsSend(x) {
      SendKin(w, x, c);
    } else if x.Handle? {
      EventKin(w, x.event);
    } else if IsOther(x) {
      OtherKin(w, x, c);
    }
  }

  lemma TableKin(w: World, x: Task)
    requires w.glue.Some? && IsTable(x)
    ensures Kin(w.glue.value.subs, ExecTable(w, x).0.glue.value.subs, x)
  {
    match x
    case SubscribeEntry(topic, cb, priv, qos) => SubscribeKin(w.glue.value, x);
    case UnsubscribeEntry(_) =>
    case DetachAll => assert ExecTable(w, x).0.glue.value == UnsubscribeAll(w.glue.value).0;
  }

  lemma SubscribeKin(g: Glue, x: Task)
    requires x.SubscribeEntry?
    ensures Kin(g.subs, Subscribe(g, x.topic, x.cb, x.priv, x.qos).0.subs, x)
  {
  }

  lemma SendKin(w: World, x: Task, c: Choice)
    requires w.glue.Some? && IsSend(x)
    ensures Kin(w.glue.value.subs, ExecSend(w, x, c).0.glue.value.subs, x)
  {
    if x.RecordRet? {
      var ack := if x.ret >= 0 then Take(w.glue.value.acks, x.ret, w.now).0 else None;
      assert ExecSend(w, x, c).0.glue.value.subs == RecordAll(w.glue.value.subs, x.topic, x.ret, ack);
      RecordKin(w.glue.value.subs, x.topic, x.ret, ack, x);
    }
  }

  lemma RecordKin(t: Table, topic: bytes, ret: int, ack: Option<bool>, x: Task)
    ensures Kin(t, RecordAll(t, topic, ret, ack), x)
  {
  }

  lemma EventKin(w: World, e: Event)
    requires w.glue.Some? && Sound(w.glue.value)
    ensures Kin(w.glue.value.subs, ExecEvent(w, e).0.glue.value.subs, Handle(e))
  {
    var t, u := w.glue.value.subs, ExecEvent(w, e).0.glue.value.subs;
    match e
    case Connected => ResetKin(t, Handle(e));
    case Disconnected => ResetKin(t, Handle(e));
    case SubackEvent(id, rejected) =>
      AckKin(t, id, rejected, Handle(e));
      assert u == t || u == AckAll(t, id, rejected);
      SameKin(t, Handle(e));
    case DeletedEvent(id) => AckKin(t, id, true, Handle(e));
    case _ => SameKin(t, Handle(e));
  }

  lemma SameKin(t: Table, x: Task)
    ensures Kin(t, t, x)
  {
  }

  lemma ResetKin(t: Table, x: Task)
    ensures Kin(t, ResetAll(t), x)
  {
  }

  lemma AckKin(t: Table, msgId: int, rejected: bool, x: Task)
    ensures Kin(t, AckAll(t, msgId, rejected), x)
  {
  }

  lemma OtherKin(w: World, x: Task, c: Choice)
    requires w.glue.Some? && IsOther(x)
    ensures ExecOther(w, x, c).0.glue.Some? ==> Kin(w.glue.value.subs, ExecOther(w, x, c).0.glue.value.subs, x)
  {
    var v := ExecOther(w, x, c).0;
    ResetKin(w.glue.value.subs, x);
    SameKin(w.glue.value.subs, x);
    assert v.glue.Some? ==> v.glue.value.subs in {w.glue.value.subs, ResetAll(w.glue.value.subs)};
  }

  /** Only a detached topic that is left in no entry is owed an UNSUBSCRIBE. */
  lemma ExecOwes(w: World, x: Task, c: Choice, topic: bytes)
    requires w.glue.Some? && Sound(w.glue.value) && SendUnsubscribe(topic) in Exec(w, x, c).1
    ensures x.DetachAll? || (x.UnsubscribeEntry? && x.topic <= topic)
    ensures Absent(Exec(w, x, c).0, topic)
  {
    if IsTable(x) {
      TableOwes(w, x, topic);
    } else if IsRetry(x) {
      RetryOwes(w, x, c);
    } else if x.Handle? {
      EventOwes(w, x.event);
    }
  }

  lemma TableOwes(w: World, x: Task, topic: bytes)
    requires w.glue.Some? && IsTable(x) && SendUnsubscribe(topic) in ExecTable(w, x).1
    ensures x.DetachAll? || (x.UnsubscribeEntry? && x.topic <= topic)
    ensures Absent(ExecTable(w, x).0, topic)
  {
  }

  lemma RetryOwes(w: World, x: Task, c: Choice)
    requires w.glue.Some? && IsRetry(x)
    ensures forall y :: y in ExecRetry(w, x, c).1 ==> !y.SendUnsubscribe?
  {
  }

  lemma EventOwes(w: World, e: Event)
    requires w.glue.Some? && Sound(w.glue.value)
    ensures forall y :: y in ExecEvent(w, e).1 ==> !y.SendUnsubscribe?
  {
  }

  /** An UNSUBSCRIBE owed after the step was owed before, or has just become due. */
  lemma OwedBefore(s: State, l: Label, topic: bytes)
    requires Base(s) && Enabled(s, l) && Owed(Apply(s, l), topic)
    ensures Owed(s, topic)
         || (l.Run? && s.w.glue.Some? && SendUnsubscribe(topic) in Exec(s.w, Todo(s, l.t)[0], l.c).1)
  {
    var r := Apply(s, l);
    var u :| u in r.threads && SendUnsubscribe(topic) in r.threads[u];
    match l
    case Run(t, c) =>
      if u == t {
        var todo := Todo(s, t);
        assert r.threads[t] == Attempt(s.w, todo[0], c).1 + todo[1..];
        assert forall y :: y in todo[1..] ==> y in todo;
      }
    case _ =>
  }

  lemma ApartTable(s: State, l: Label, topic: bytes)
    requires Base(s) && Enabled(s, l) && Apart(s) && Separate(s, l) && Owed(Apply(s, l), topic)
    ensures Absent(Apply(s, l).w, topic)
  {
    OwedBefore(s, l, topic);
    if l.Run? && s.w.glue.Some? {
      var x := Todo(s, l.t)[0];
      if Owed(s, topic) {
        ExecKin(s.w, x, l.c);
      } else {
        ExecOwes(s.w, x, l.c, topic);
      }
    }
  }

  lemma ApartSenders(s: State, l: Label, topic: bytes)
    requires Base(s) && Enabled(s, l) && Apart(s) && Separate(s, l) && Owed(Apply(s, l), topic)
    ensures !Sending(Apply(s, l), topic)
  {
    OwedBefore(s, l, topic);
    var r := Apply(s, l);
    if Sending(r, topic) {
      var u :| u in r.threads && Recorder(r.threads[u]) && r.threads[u][0].topic == topic;
      SenderBefore(s, l, u);
      if u in s.threads && s.threads[u] == r.threads[u] {
        assert Sending(s, topic) && !Owed(s, topic);
        ExecOwes(s.w, Todo(s, l.t)[0], l.c, topic);
        assert false;
      } else {
        assert !Owed(s, topic);
        ExecOwes(s.w, Todo(s, l.t)[0], l.c, topic);
        assert false;
      }
    }
  }

  lemma ApartStep(s: State, l: Label)
    requires Base(s) && Enabled(s, l) && Apart(s) && Separate(s, l)
    ensures Apart(Apply(s, l)) && Clear(s, l)
  {
    forall topic | Owed(Apply(s, l), topic)
      ensures Absent(Apply(s, l).w, topic) && !Sending(Apply(s, l), topic)
    {
      ApartTable(s, l, topic);
      ApartSenders(s, l, topic);
    }
    if l.Run? && Todo(s, l.t)[0].SendUnsubscribe? {
      assert Owed(s, Todo(s, l.t)[0].topic);
    }
  }

  lemma {:induction false} ApartThroughout(s: State, ls: seq<Label>)
    requires Base(s) && Apart(s) && IsRun(s, ls) && SeparateRun(s, ls)
    ensures ClearRun(s, ls)
    decreases |ls|
  {
    if ls != [] {
      StepBase(s, ls[0]);
      ApartStep(s, ls[0]);
      ApartThroughout(Apply(s, ls[0]), ls[1..]);
    }
  }

  /** Callers that keep subscribe and unsubscribe of a topic apart, retry rounds included, make every
      UNSUBSCRIBE a clear one. */
  lemma SeparateIsClear(ls: seq<Label>)
    requires IsRun(Start(), ls) && SeparateRun(Start(), ls)
    ensures ClearRun(Start(), ls)
  {
    ApartThroughout(Start(), ls);
  }
}
