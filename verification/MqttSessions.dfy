/** Which connection an acknowledgement belongs to. A send that is under way while the glue sees a connect or
    disconnect may record its packet id afterwards; everything else an entry is told stems from the present
    connection. */
module MqttSessions {
  import opened Bytes
  import opened MqttTable
  import opened MqttRegions
  import opened MqttProtocol
  import Acks = MqttAcks

  /** The sender learned the id before, and recorded it after, a connect or disconnect. */
  predicate Spans(z: Session, id: int) { id in z.sentIn && id in z.recordedIn && z.recordedIn[id] != z.sentIn[id] }

  predicate SentNow(z: Session, id: int) { id in z.sentIn && z.sentIn[id] == z.epoch }

  predicate RecordedNow(z: Session, id: int) { id in z.recordedIn && z.recordedIn[id] == z.epoch }

  predicate AcceptedAs(b: Broker, topic: bytes, id: int) { Acks.Verdicted(b, id, false) && Acks.SentFor(b, id, topic) }

  /** The SUBSCRIBE an entry owes its acknowledgement to; an entry that joined an acknowledged one has no id
      of its own. */
  predicate AckedBy(w: World, e: Sub, id: int) {
    AcceptedAs(w.broker, e.topic, id) && RecordedNow(w.session, id) && (e.msgId != 0 ==> e.msgId == id)
  }

  /** The broker holds a subscription to the topic on the present connection: it accepted this SUBSCRIBE,
      sent on this connection, and no UNSUBSCRIBE for the topic was sent after it. */
  predicate ActiveBy(w: World, topic: bytes, id: int) {
    AcceptedAs(w.broker, topic, id) && SentNow(w.session, id) && id !in w.session.cut
  }

  ghost predicate Active(w: World, topic: bytes) { exists id :: ActiveBy(w, topic, id) }

  // ---------------------------------------------------------------- the invariant

  /** gone stands for ids that no entry may rely on: none of them here, those cut off by an UNSUBSCRIBE in
      MqttUnsubscribe. */
  ghost predicate EntryOk(w: World, e: Option<Sub>, gone: set<int>) {
    && (e.Some? && e.value.state == Requested ==>
          e.value.msgId == -1 || (RecordedNow(w.session, e.value.msgId) && e.value.msgId !in gone))
    && (e.Some? && e.value.state == Acknowledged ==> exists id :: AckedBy(w, e.value, id) && id !in gone)
  }

  ghost predicate TableOk(w: World, t: Table, gone: set<int>) { forall i :: 0 <= i < |t| ==> EntryOk(w, t[i], gone) }

  ghost predicate SessionOk(w: World) {
    && (forall id :: id in w.session.sentIn <==> id in w.broker.sent)
    && (forall id :: id in w.session.recordedIn ==> id in w.session.sentIn)
    && (forall id :: id in w.session.sentIn ==> w.session.sentIn[id] <= w.session.epoch)
  }

  ghost predicate WorldOk(w: World, gone: set<int>) {
    SessionOk(w) && (w.glue.Some? ==> TableOk(w, w.glue.value.subs, gone))
  }

  ghost predicate Inv(s: State) { Ready(s.w) && Acks.Inv(s) && WorldOk(s.w, {}) }

  // ---------------------------------------------------------------- what stays true while the epoch lasts

  ghost predicate Extends(w: World, v: World) {
    && v.session.epoch == w.session.epoch && Acks.Grows(w.broker, v.broker)
    && forall id :: RecordedNow(w.session, id) ==> RecordedNow(v.session, id)
  }

  lemma EntryExtends(w: World, v: World, e: Option<Sub>, gone: set<int>)
    requires Extends(w, v) && EntryOk(w, e, gone)
    ensures EntryOk(v, e, gone)
  {
    if e.Some? && e.value.state == Acknowledged {
      var id :| AckedBy(w, e.value, id) && id !in gone;
      assert Acks.Verdicted(v.broker, id, w.broker.verdicts[id]);
      assert AckedBy(v, e.value, id);
    }
  }

  lemma TableExtends(w: World, v: World, t: Table, gone: set<int>)
    requires Extends(w, v) && TableOk(w, t, gone)
    ensures TableOk(v, t, gone)
  {
    forall i | 0 <= i < |t|
      ensures EntryOk(v, t[i], gone)
    {
      EntryExtends(w, v, t[i], gone);
    }
  }

  // ---------------------------------------------------------------- regions

  lemma ReserveOk(w: World, t: Table, topic: bytes, now: int, gone: set<int>)
    requires TableOk(w, t, gone)
    ensures TableOk(w, ReserveAll(t, topic, now), gone)
  {
    forall i | 0 <= i < |t|
      ensures EntryOk(w, ReserveOne(t[i], topic, now), gone)
    {
      assert EntryOk(w, t[i], gone);
    }
  }

  lemma ResetOk(w: World, t: Table, gone: set<int>)
    ensures TableOk(w, ResetAll(t), gone)
  {
  }

  /** v is the world in which the id is already recorded. */
  lemma RecordAllOk(v: World, t: Table, topic: bytes, ret: int, ack: Option<bool>, gone: set<int>)
    requires TableOk(v, t, gone)
    requires ret >= 0 ==> ret > 0 && ret !in gone && RecordedNow(v.session, ret) && Acks.SentFor(v.broker, ret, topic)
    requires ret >= 0 && ack.Some? ==> Acks.Verdicted(v.broker, ret, ack.value)
    ensures TableOk(v, RecordAll(t, topic, ret, ack), gone)
  {
    forall i | 0 <= i < |t|
      ensures EntryOk(v, RecordOne(t[i], topic, ret, ack), gone)
    {
      assert EntryOk(v, t[i], gone);
      var e := RecordOne(t[i], topic, ret, ack);
      if e != t[i] && e.value.state == Acknowledged {
        assert AckedBy(v, e.value, ret);
      }
    }
  }

  lemma AckAllOk(w: World, t: Table, msgId: int, rejected: bool, gone: set<int>)
    requires TableOk(w, t, gone) && Acks.TableOk(w.broker, t)
    requires msgId > 0 && (!rejected ==> Acks.Verdicted(w.broker, msgId, false))
    ensures TableOk(w, AckAll(t, msgId, rejected), gone)
  {
    forall i | 0 <= i < |t|
      ensures EntryOk(w, AckOne(t[i], msgId, rejected), gone)
    {
      assert EntryOk(w, t[i], gone) && Acks.EntryOk(w.broker, t[i]);
      var e := AckOne(t[i], msgId, rejected);
      if e != t[i] && e.value.state == Acknowledged {
        assert AckedBy(w, e.value, msgId);
      }
    }
  }

  lemma SubscribeOk(w: World, g: Glue, topic: bytes, cb: int, priv: int, qos: nat, gone: set<int>)
    requires TableOk(w, g.subs, gone)
    ensures TableOk(w, Subscribe(g, topic, cb, priv, qos).0.subs, gone)
  {
    var n := |g.subs|;
    var i := LastEntry(g.subs, topic, cb, n);
    if i >= 0 {
      UpdatedOk(w, g.subs[i], Subscribe(g, topic, cb, priv, qos).0.subs[i], gone);
    } else if MqttRegions.Active(g.subs, topic, n) {
      var k :| 0 <= k < n && OnTopic(g.subs[k], topic) && g.subs[k].value.state == Acknowledged;
      JoinedOk(w, g.subs[k], Some(Sub(topic, cb, priv, Acknowledged, 0, qos, 0)), gone);
    }
  }

  lemma UpdatedOk(w: World, e: Option<Sub>, d: Option<Sub>, gone: set<int>)
    requires EntryOk(w, e, gone) && e.Some? && d.Some? && d == Some(e.value.(priv := d.value.priv, qos := d.value.qos))
    ensures EntryOk(w, d, gone)
  {
    if e.value.state == Acknowledged {
      var id :| AckedBy(w, e.value, id) && id !in gone;
      assert AckedBy(w, d.value, id);
    }
  }

  lemma JoinedOk(w: World, e: Option<Sub>, d: Option<Sub>, gone: set<int>)
    requires EntryOk(w, e, gone) && e.Some? && e.value.state == Acknowledged
    requires d.Some? && d.value.topic == e.value.topic && d.value.state == Acknowledged && d.value.msgId == 0
    ensures EntryOk(w, d, gone)
  {
    var id :| AckedBy(w, e.value, id) && id !in gone;
    assert AckedBy(w, d.value, id);
  }

  // ---------------------------------------------------------------- tasks

  lemma TableStepOk(w: World, x: Task, gone: set<int>)
    requires WorldOk(w, gone) && w.glue.Some? && IsTable(x)
    ensures WorldOk(ExecTable(w, x).0, gone)
  {
    var v := ExecTable(w, x).0;
    if x.SubscribeEntry? {
      SubscribeOk(w, w.glue.value, x.topic, x.cb, x.priv, x.qos, gone);
    }
    TableExtends(w, v, v.glue.value.subs, gone);
  }

  lemma TransmitOk(w: World, x: Task, c: Choice, gone: set<int>)
    requires WorldOk(w, gone) && w.glue.Some? && x.Transmit? && (c.ret < 0 || (c.ret > 0 && c.ret !in w.broker.sent))
    ensures WorldOk(ExecSend(w, x, c).0, gone)
  {
    TableExtends(w, ExecSend(w, x, c).0, w.glue.value.subs, gone);
  }

  lemma ReserveStepOk(w: World, x: Task, c: Choice, gone: set<int>)
    requires WorldOk(w, gone) && w.glue.Some? && x.ReserveTopic?
    ensures WorldOk(ExecSend(w, x, c).0, gone)
  {
    var v := ExecSend(w, x, c).0;
    ReserveOk(w, w.glue.value.subs, x.topic, w.now, gone);
    TableExtends(w, v, v.glue.value.subs, gone);
  }

  lemma RecordStepOk(w: World, x: Task, c: Choice, gone: set<int>)
    requires Acks.WorldOk(w) && Acks.TaskOk(w.broker, x) && WorldOk(w, gone) && w.glue.Some?
    requires x.RecordRet? && (x.ret >= 0 ==> x.ret !in gone)
    ensures WorldOk(ExecSend(w, x, c).0, gone)
  {
    var v, g := ExecSend(w, x, c).0, w.glue.value;
    TableExtends(w, v, g.subs, gone);
    if x.ret >= 0 {
      assert x.ret in w.broker.sent;
      Acks.TakeOk(w.broker, g.acks, x.ret, w.now);
      RecordAllOk(v, g.subs, x.topic, x.ret, Take(g.acks, x.ret, w.now).0, gone);
    } else {
      RecordAllOk(v, g.subs, x.topic, x.ret, None, gone);
    }
  }

  lemma EventStepOk(w: World, e: Event, gone: set<int>)
    requires Acks.WorldOk(w) && Acks.EventOk(w.broker, e) && WorldOk(w, gone) && w.glue.Some? && Sound(w.glue.value)
    ensures WorldOk(ExecEvent(w, e).0, gone)
  {
    match e
    case Connected => ResetOk(ExecEvent(w, e).0, w.glue.value.subs, gone);
    case Disconnected => ResetOk(ExecEvent(w, e).0, w.glue.value.subs, gone);
    case SubackEvent(id, rejected) => SettleOk(w, e, id, rejected, gone);
    case DeletedEvent(id) => SettleOk(w, e, id, true, gone);
    case _ => TableExtends(w, ExecEvent(w, e).0, w.glue.value.subs, gone);
  }

  lemma SettleOk(w: World, e: Event, id: int, rejected: bool, gone: set<int>)
    requires Acks.WorldOk(w) && Acks.EventOk(w.broker, e) && WorldOk(w, gone) && w.glue.Some? && Sound(w.glue.value)
    requires e == SubackEvent(id, rejected) || (e == DeletedEvent(id) && rejected)
    ensures WorldOk(ExecEvent(w, e).0, gone)
  {
    var t := ExecEvent(w, e).0.glue.value.subs;
    AckAllOk(w, w.glue.value.subs, id, rejected, gone);
    if t != AckAll(w.glue.value.subs, id, rejected) {
      assert t == w.glue.value.subs;
    }
    TableExtends(w, ExecEvent(w, e).0, t, gone);
  }

  lemma RetryStepOk(w: World, x: Task, c: Choice, gone: set<int>)
    requires WorldOk(w, gone) && w.glue.Some? && IsRetry(x)
    ensures WorldOk(ExecRetry(w, x, c).0, gone)
  {
    TableExtends(w, ExecRetry(w, x, c).0, w.glue.value.subs, gone);
  }

  lemma OtherStepOk(w: World, x: Task, c: Choice, gone: set<int>)
    requires WorldOk(w, gone) && w.glue.Some? && Sound(w.glue.value)
    requires IsOther(x)
    ensures WorldOk(Exec(w, x, c).0, gone)
  {
    var v := Exec(w, x, c).0;
    if x.Disconnect? {
      ResetOk(v, w.glue.value.subs, gone);
    } else if !x.Free? {
      TableExtends(w, v, w.glue.value.subs, gone);
    }
  }

  lemma ExecOk(w: World, x: Task, c: Choice, gone: set<int>)
    requires Acks.WorldOk(w) && Acks.TaskOk(w.broker, x) && WorldOk(w, gone) && w.glue.Some? && Sound(w.glue.value)
    requires x.Transmit? ==> c.ret < 0 || (c.ret > 0 && c.ret !in w.broker.sent)
    requires x.RecordRet? && x.ret >= 0 ==> x.ret !in gone
    ensures WorldOk(Exec(w, x, c).0, gone)
  {
    if IsTable(x) {
      TableStepOk(w, x, gone);
    } else if x.Transmit? {
      TransmitOk(w, x, c, gone);
    } else if x.ReserveTopic? {
      ReserveStepOk(w, x, c, gone);
    } else if x.RecordRet? {
      RecordStepOk(w, x, c, gone);
    } else if x.Handle? {
      EventStepOk(w, x.event, gone);
    } else if IsRetry(x) {
      RetryStepOk(w, x, c, gone);
    } else {
      OtherStepOk(w, x, c, gone);
    }
  }

  // ---------------------------------------------------------------- steps

  lemma AnswerOk(s: State, id: int, rejected: bool, gone: set<int>)
    requires Inv(s) && WorldOk(s.w, gone) && Enabled(s, Answer(id, rejected))
    ensures WorldOk(Apply(s, Answer(id, rejected)).w, gone)
  {
    var v := Apply(s, Answer(id, rejected)).w;
    if s.w.glue.Some? {
      TableExtends(s.w, v, s.w.glue.value.subs, gone);
    }
  }

  /** Steps that touch neither the table nor what is known about packet ids. */
  lemma AsideOk(s: State, l: Label, gone: set<int>)
    requires Inv(s) && WorldOk(s.w, gone) && Enabled(s, l) && !l.Run? && !l.Answer? && !l.Init?
    ensures WorldOk(Apply(s, l).w, gone)
  {
    var v := Apply(s, l).w;
    assert v.broker == s.w.broker && v.session == s.w.session && v.glue.Some? == s.w.glue.Some?;
    if s.w.glue.Some? {
      assert v.glue.value.subs == s.w.glue.value.subs;
      TableExtends(s.w, v, s.w.glue.value.subs, gone);
    }
  }

  lemma StepGone(s: State, l: Label, gone: set<int>)
    requires Inv(s) && Enabled(s, l) && WorldOk(s.w, gone)
    requires l.Run? && Recorder(Todo(s, l.t)) ==> Todo(s, l.t)[0].ret !in gone
    ensures WorldOk(Apply(s, l).w, gone)
  {
    match l
    case Run(t, c) =>
      assert Acks.TodoOk(s.w.broker, s.threads[t]) && Acks.TaskOk(s.w.broker, Todo(s, t)[0]);
      if s.w.glue.Some? {
        ExecOk(s.w, Todo(s, t)[0], c, gone);
      }
    case Answer(id, rejected) => AnswerOk(s, id, rejected, gone);
    case Init(_) =>
    case _ => AsideOk(s, l, gone);
  }

  lemma StepOk(s: State, l: Label)
    requires Inv(s) && Enabled(s, l)
    ensures Inv(Apply(s, l))
  {
    Acks.StepOk(s, l);
    StepGone(s, l, {});
  }

  lemma {:induction false} Reached(s: State, ls: seq<Label>)
    requires Inv(s) && IsRun(s, ls)
    ensures Inv(After(s, ls))
    decreases |ls|
  {
    if ls != [] {
      StepOk(s, ls[0]);
      Reached(Apply(s, ls[0]), ls[1..]);
    }
  }

  // ---------------------------------------------------------------- what an acknowledgement means

  /** In every reachable state an ACKNOWLEDGED entry owes its state to a SUBSCRIBE for its very topic that
      the broker accepted and whose sender recorded it on the present connection: the one whose id it holds,
      if it holds one. That SUBSCRIBE was sent on the present connection if and only if the send did not
      span a connect or disconnect; MqttUnsubscribe says when it is still in force. A REQUESTED entry is
      reserved, or holds the id of a SUBSCRIBE for its topic recorded on the present connection. */
  lemma AcknowledgedMeansAccepted(ls: seq<Label>, i: nat)
    requires IsRun(Start(), ls)
    requires var g := After(Start(), ls).w.glue; g.Some? && i < |g.value.subs| && g.value.subs[i].Some?
    ensures var w := After(Start(), ls).w; var e := w.glue.value.subs[i].value;
      && (e.state == Acknowledged ==> exists id :: AckedBy(w, e, id))
      && (forall id :: e.state == Acknowledged && AckedBy(w, e, id) ==> (SentNow(w.session, id) <==> !Spans(w.session, id)))
      && (e.state == Requested ==>
            e.msgId == -1 || (Acks.SentFor(w.broker, e.msgId, e.topic) && RecordedNow(w.session, e.msgId)))
  {
    Reached(Start(), ls);
    var w := After(Start(), ls).w;
    assert EntryOk(w, w.glue.value.subs[i], {}) && Acks.EntryOk(w.broker, w.glue.value.subs[i]);
  }

  // ---------------------------------------------------------------- runs in which no send spans a reconnect

  /** A sender records its id in the epoch in which esp-mqtt sent the SUBSCRIBE. */
  predicate Prompt(s: State, l: Label) {
    s.w.glue.Some? && l.Run? && Todo(s, l.t) != [] && Todo(s, l.t)[0].RecordRet?
    && Todo(s, l.t)[0].ret in s.w.session.sentIn ==>
      SentNow(s.w.session, Todo(s, l.t)[0].ret)
  }

  predicate PromptRun(s: State, ls: seq<Label>)
    requires Ready(s.w) && IsRun(s, ls)
    decreases |ls|
  {
    ls == [] || (Prompt(s, ls[0]) && PromptRun(Apply(s, ls[0]), ls[1..]))
  }

  ghost predicate NoneSpans(z: Session) { forall id :: !Spans(z, id) }

  lemma ExecPrompt(w: World, x: Task, c: Choice)
    requires w.glue.Some? && Sound(w.glue.value) && SessionOk(w) && NoneSpans(w.session)
    requires x.Transmit? ==> c.ret < 0 || (c.ret > 0 && c.ret !in w.broker.sent)
    requires x.RecordRet? && x.ret in w.session.sentIn ==> SentNow(w.session, x.ret)
    ensures NoneSpans(Exec(w, x, c).0.session)
  {
    if x.Handle? || IsRetry(x) || IsTable(x) {
      SessionKept(w, x, c);
      assert forall id :: Spans(Exec(w, x, c).0.session, id) ==> Spans(w.session, id);
    } else if IsSend(x) {
      SendPrompt(w, x, c);
    } else {
      OtherIds(w, x, c);
      assert forall id :: Spans(ExecOther(w, x, c).0.session, id) ==> Spans(w.session, id);
    }
  }

  /** Only a connect or disconnect, a send and an UNSUBSCRIBE tell the session anything. */
  lemma SessionKept(w: World, x: Task, c: Choice)
    requires w.glue.Some? && Sound(w.glue.value) && (x.Handle? || IsRetry(x) || IsTable(x))
    ensures Exec(w, x, c).0.session == w.session || (x.Handle? && Exec(w, x, c).0.session == Reset(w.session))
  {
    if x.Handle? {
      assert ExecEvent(w, x.event).0.session in {w.session, Reset(w.session)};
    } else if IsRetry(x) {
      assert ExecRetry(w, x, c).0.session == w.session;
    } else {
      assert ExecTable(w, x).0.session == w.session;
    }
  }

  lemma SendPrompt(w: World, x: Task, c: Choice)
    requires w.glue.Some? && SessionOk(w) && NoneSpans(w.session) && IsSend(x)
    requires x.Transmit? ==> c.ret < 0 || (c.ret > 0 && c.ret !in w.broker.sent)
    requires x.RecordRet? && x.ret in w.session.sentIn ==> SentNow(w.session, x.ret)
    ensures NoneSpans(ExecSend(w, x, c).0.session)
  {
    forall id
      ensures !Spans(ExecSend(w, x, c).0.session, id)
    {
      assert !Spans(w.session, id);
    }
  }

  lemma StepPrompt(s: State, l: Label)
    requires Inv(s) && Enabled(s, l) && Prompt(s, l) && NoneSpans(s.w.session)
    ensures NoneSpans(Apply(s, l).w.session)
  {
    if l.Run? && s.w.glue.Some? {
      ExecPrompt(s.w, Todo(s, l.t)[0], l.c);
    }
  }

  lemma {:induction false} PromptKeeps(s: State, ls: seq<Label>)
    requires Inv(s) && IsRun(s, ls) && PromptRun(s, ls) && NoneSpans(s.w.session)
    ensures NoneSpans(After(s, ls).w.session)
    decreases |ls|
  {
    if ls != [] {
      StepOk(s, ls[0]);
      StepPrompt(s, ls[0]);
      PromptKeeps(Apply(s, ls[0]), ls[1..]);
    }
  }

  /** If no send spans a connect or disconnect, every ACKNOWLEDGED entry was accepted on the present
      connection. */
  lemma PromptMeansPresent(ls: seq<Label>, i: nat)
    requires IsRun(Start(), ls) && PromptRun(Start(), ls)
    requires var g := After(Start(), ls).w.glue; g.Some? && i < |g.value.subs| && g.value.subs[i].Some?
    requires After(Start(), ls).w.glue.value.subs[i].value.state == Acknowledged
    ensures var w := After(Start(), ls).w; var e := w.glue.value.subs[i].value;
      exists id :: AckedBy(w, e, id) && SentNow(w.session, id)
  {
    AcknowledgedMeansAccepted(ls, i);
    PromptKeeps(Start(), ls);
    var w := After(Start(), ls).w;
    var id :| AckedBy(w, w.glue.value.subs[i].value, id);
    assert !Spans(w.session, id);
  }

  // ---------------------------------------------------------------- an id is recorded at most once

  predicate Recorder(todo: seq<Task>) { todo != [] && todo[0].RecordRet? && todo[0].ret >= 0 }

  predicate RecordFirst(todo: seq<Task>) { forall i :: 0 < i < |todo| ==> !todo[i].RecordRet? }

  predicate MayRecord(w: World, todo: seq<Task>) {
    Recorder(todo) ==> todo[0].ret in w.broker.sent && todo[0].ret !in w.session.recordedIn
  }

  /** No two threads are about to record one id, and none is about to record one again. */
  ghost predicate RecordersOk(s: State) {
    && (forall t :: t in s.threads ==> RecordFirst(s.threads[t]) && MayRecord(s.w, s.threads[t]))
    && (forall t, u :: t in s.threads && u in s.threads && t != u && Recorder(s.threads[t]) && Recorder(s.threads[u]) ==>
          s.threads[t][0].ret != s.threads[u][0].ret)
  }

  predicate NoRecorder(more: seq<Task>) { forall i :: 0 <= i < |more| ==> !more[i].RecordRet? }

  lemma ReleasesRecordNothing(out: seq<Release>)
    ensures NoRecorder(Releases(out))
  {
  }

  lemma MoreRecords(w: World, x: Task, c: Choice)
    requires w.glue.Some? && Sound(w.glue.value) && !x.Transmit?
    ensures NoRecorder(Exec(w, x, c).1)
  {
    if x.DetachAll? {
      ReleasesRecordNothing(UnsubscribeAll(w.glue.value).1);
    } else if IsRetry(x) {
      RetryRecordsNothing(w, x, c);
    } else if x.Handle? {
      EventRecordsNothing(w, x.event);
    }
  }

  lemma RetryRecordsNothing(w: World, x: Task, c: Choice)
    requires w.glue.Some? && IsRetry(x)
    ensures NoRecorder(ExecRetry(w, x, c).1)
  {
  }

  lemma EventRecordsNothing(w: World, e: Event)
    requires w.glue.Some? && Sound(w.glue.value)
    ensures NoRecorder(ExecEvent(w, e).1)
  {
  }

  /** Ids sent stay sent and keep their epoch; only a sender records. */
  predicate IdsKept(w: World, x: Task, v: World) {
    && (forall id :: id in w.broker.sent ==> id in v.broker.sent)
    && (forall id :: id in w.session.sentIn ==> id in v.session.sentIn && v.session.sentIn[id] == w.session.sentIn[id])
    && v.session.recordedIn == if x.RecordRet? then Recorded(w.session, x.ret).recordedIn else w.session.recordedIn
  }

  /** What a task does to the ids sent and recorded. */
  lemma ExecIds(w: World, x: Task, c: Choice)
    requires w.glue.Some? && Sound(w.glue.value) && SessionOk(w)
    requires x.Transmit? ==> c.ret < 0 || (c.ret > 0 && c.ret !in w.broker.sent)
    ensures IdsKept(w, x, Exec(w, x, c).0)
  {
    if x.Handle? {
      EventIds(w, x.event);
    } else if IsSend(x) {
      SendIds(w, x, c);
    } else {
      AsideIds(w, x, c);
    }
  }

  lemma AsideIds(w: World, x: Task, c: Choice)
    requires w.glue.Some? && Sound(w.glue.value) && !x.Handle? && !IsSend(x)
    ensures IdsKept(w, x, Exec(w, x, c).0)
  {
    if IsRetry(x) {
      RetryIds(w, x, c);
    } else if IsOther(x) {
      OtherIds(w, x, c);
    } else {
      assert ExecTable(w, x).0 == With(w, w.glue.value.(subs := ExecTable(w, x).0.glue.value.subs));
    }
  }

  lemma SendIds(w: World, x: Task, c: Choice)
    requires w.glue.Some? && IsSend(x) && SessionOk(w) && (x.Transmit? ==> c.ret < 0 || (c.ret > 0 && c.ret !in w.broker.sent))
    ensures IdsKept(w, x, ExecSend(w, x, c).0)
  {
  }

  lemma OtherIds(w: World, x: Task, c: Choice)
    requires w.glue.Some? && IsOther(x)
    ensures var v := ExecOther(w, x, c).0;
      v.broker == w.broker && v.session.sentIn == w.session.sentIn && v.session.recordedIn == w.session.recordedIn
  {
  }

  lemma EventIds(w: World, e: Event)
    requires w.glue.Some? && Sound(w.glue.value)
    ensures var v := ExecEvent(w, e).0;
      v.broker.sent == w.broker.sent && v.session.sentIn == w.session.sentIn && v.session.recordedIn == w.session.recordedIn
  {
  }

  lemma RetryIds(w: World, x: Task, c: Choice)
    requires w.glue.Some? && IsRetry(x)
    ensures ExecRetry(w, x, c).0.broker == w.broker && ExecRetry(w, x, c).0.session == w.session
  {
  }

  lemma RunRecorders(s: State, t: Thread, c: Choice)
    requires Inv(s) && RecordersOk(s) && Enabled(s, Run(t, c)) && s.w.glue.Some?
    ensures RecordersOk(Apply(s, Run(t, c)))
  {
    var todo := Todo(s, t);
    var x := todo[0];
    var (w, more) := Exec(s.w, x, c);
    assert RecordFirst(s.threads[t]) && MayRecord(s.w, s.threads[t]);
    ExecIds(s.w, x, c);
    if x.Transmit? {
      TransmitRecorder(s, t, c);
    } else {
      MoreRecords(s.w, x, c);
      Unchanged(s, w, t, more + todo[1..]);
    }
  }

  /** A thread goes on without an id of its own to record. */
  lemma Unchanged(s: State, w: World, t: Thread, next: seq<Task>)
    requires RecordersOk(s) && NoRecorder(next) && forall id :: id in s.w.broker.sent ==> id in w.broker.sent
    requires forall id :: id in w.session.recordedIn ==>
               id in s.w.session.recordedIn || (t in s.threads && Recorder(s.threads[t]) && id == s.threads[t][0].ret)
    ensures RecordersOk(Push(s, w, t, next))
  {
    forall u | u in s.threads && u != t
      ensures RecordFirst(s.threads[u]) && MayRecord(w, s.threads[u])
    {
      assert RecordFirst(s.threads[u]) && MayRecord(s.w, s.threads[u]);
    }
  }

  lemma TransmitRecorder(s: State, t: Thread, c: Choice)
    requires Inv(s) && RecordersOk(s) && Enabled(s, Run(t, c)) && s.w.glue.Some? && Todo(s, t)[0].Transmit?
    ensures RecordersOk(Apply(s, Run(t, c)))
  {
    var r, todo := Apply(s, Run(t, c)), Todo(s, t);
    var next := ExecSend(s.w, todo[0], c).1 + todo[1..];
    assert r.threads[t] == next && RecordFirst(s.threads[t]);
    assert forall i :: 0 < i < |next| ==> next[i] == todo[i];
    forall u | u in s.threads && u != t
      ensures RecordFirst(s.threads[u]) && MayRecord(r.w, s.threads[u])
      ensures Recorder(s.threads[u]) ==> s.threads[u][0].ret in s.w.broker.sent
    {
      assert RecordFirst(s.threads[u]) && MayRecord(s.w, s.threads[u]);
    }
  }

  lemma NoneToRecord(op: Op, call: AdminCall)
    ensures NoRecorder(OpTasks(op)) && NoRecorder(CallTasks(call)) && NoRecorder(DEINIT_TASKS)
  {
  }

  lemma StepRecorders(s: State, l: Label)
    requires Inv(s) && RecordersOk(s) && Enabled(s, l)
    ensures RecordersOk(Apply(s, l))
  {
    match l
    case Run(t, c) =>
      if s.w.glue.Some? {
        RunRecorders(s, t, c);
      } else {
        GoneRecorders(s, t, c);
      }
    case Begin(t, op) =>
      if s.w.glue.Some? && !s.w.glue.value.deleting {
        NoneToRecord(op, ConnectCall);
        Unchanged(s, Apply(s, l).w, t, OpTasks(op));
      }
    case Deliver(e) => Unchanged(s, s.w, Handler, [Head(e)]);
    case Deinit(t) =>
      if s.w.glue.Some? && !s.w.glue.value.deleting {
        NoneToRecord(PublishOp, ConnectCall);
        Unchanged(s, Apply(s, l).w, t, DEINIT_TASKS);
      }
    case Call(call) =>
      NoneToRecord(PublishOp, call);
      Unchanged(s, s.w, Admin, CallTasks(call));
    case _ =>
  }

  lemma GoneRecorders(s: State, t: Thread, c: Choice)
    requires Inv(s) && RecordersOk(s) && Enabled(s, Run(t, c)) && s.w.glue.None?
    ensures RecordersOk(Apply(s, Run(t, c)))
  {
    assert RecordFirst(s.threads[t]);
    Unchanged(s, Apply(s, Run(t, c)).w, t, Apply(s, Run(t, c)).threads[t]);
  }

  /** A send that has spanned a connect or disconnect is never recorded again. */
  lemma SpansStep(s: State, l: Label, id: int)
    requires Inv(s) && RecordersOk(s) && Enabled(s, l) && Spans(s.w.session, id)
    ensures Spans(Apply(s, l).w.session, id)
  {
    if l.Run? && s.w.glue.Some? {
      assert MayRecord(s.w, s.threads[l.t]);
      ExecIds(s.w, Todo(s, l.t)[0], l.c);
    }
  }

  lemma {:induction false} SpansForGood(s: State, ls: seq<Label>, id: int)
    requires Inv(s) && RecordersOk(s) && IsRun(s, ls) && Spans(s.w.session, id)
    ensures Spans(After(s, ls).w.session, id)
    decreases |ls|
  {
    if ls != [] {
      SpansStep(s, ls[0], id);
      StepOk(s, ls[0]);
      StepRecorders(s, ls[0]);
      SpansForGood(Apply(s, ls[0]), ls[1..], id);
    }
  }

  lemma LateRecordSpans(s: State, l: Label) returns (id: int)
    requires Inv(s) && Enabled(s, l) && !Prompt(s, l)
    ensures Spans(Apply(s, l).w.session, id)
  {
    id := Todo(s, l.t)[0].ret;
    assert Acks.TodoOk(s.w.broker, s.threads[l.t]) && Acks.TaskOk(s.w.broker, Todo(s, l.t)[0]);
    assert id in s.w.broker.sent;
  }

  lemma {:induction false} LateRunSpans(s: State, ls: seq<Label>)
    requires Inv(s) && RecordersOk(s) && IsRun(s, ls) && !PromptRun(s, ls)
    ensures !NoneSpans(After(s, ls).w.session)
    decreases |ls|
  {
    StepOk(s, ls[0]);
    StepRecorders(s, ls[0]);
    if Prompt(s, ls[0]) {
      LateRunSpans(Apply(s, ls[0]), ls[1..]);
    } else {
      var id := LateRecordSpans(s, ls[0]);
      SpansForGood(Apply(s, ls[0]), ls[1..], id);
    }
  }

  /** Some send spanned a connect or disconnect exactly when, in the run, some sender recorded its id in a
      later epoch than the one it was sent in. */
  lemma SpansIffRecordedLate(ls: seq<Label>)
    requires IsRun(Start(), ls)
    ensures NoneSpans(After(Start(), ls).w.session) <==> PromptRun(Start(), ls)
  {
    if PromptRun(Start(), ls) {
      PromptKeeps(Start(), ls);
    } else {
      LateRunSpans(Start(), ls);
    }
  }
}
