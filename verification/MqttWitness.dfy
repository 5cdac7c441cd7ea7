/** Runs from the initial state that show why the conditions in MqttRace, MqttSessions and MqttUnsubscribe
    are there. */
module MqttWitness {
  import opened Bytes
  import opened MqttTable
  import opened MqttRegions
  import opened MqttProtocol
  import opened MqttSessions
  import Acks = MqttAcks

  ghost predicate Reachable(s: State) { exists ls: seq<Label> :: IsRun(Start(), ls) && After(Start(), ls) == s }

  lemma {:induction false} RunSnoc(s: State, ls: seq<Label>, l: Label)
    requires Ready(s.w) && IsRun(s, ls) && Enabled(After(s, ls), l)
    ensures IsRun(s, ls + [l]) && After(s, ls + [l]) == Apply(After(s, ls), l)
    decreases |ls|
  {
    if ls == [] {
      assert ls + [l] == [l];
    } else {
      assert (ls + [l])[1..] == ls[1..] + [l];
      RunSnoc(Apply(s, ls[0]), ls[1..], l);
    }
  }

  /** The label's step, from a reachable state. */
  lemma Step(s: State, l: Label) returns (r: State)
    requires Reachable(s) && Ready(s.w) && Enabled(s, l)
    ensures Reachable(r) && Ready(r.w) && r == Apply(s, l)
  {
    var ls: seq<Label> :| IsRun(Start(), ls) && After(Start(), ls) == s;
    RunSnoc(Start(), ls, l);
    r := Apply(s, l);
  }

  /** A thread does its next task. */
  lemma Go(s: State, t: Thread, c: Choice) returns (r: State)
    requires Reachable(s) && Ready(s.w) && s.w.glue.Some? && Todo(s, t) != [] && MayRun(s, Todo(s, t)[0], c)
    ensures Reachable(r) && Ready(r.w) && r.w == Exec(s.w, Todo(s, t)[0], c).0
    ensures Todo(r, t) == Exec(s.w, Todo(s, t)[0], c).1 + Todo(s, t)[1..]
    ensures forall u :: u != t ==> Todo(r, u) == Todo(s, u)
  {
    r := Step(s, Run(t, c));
  }

  /** An event reaches the handler and its first region is done. */
  lemma Event(s: State, e: Event) returns (r: State)
    requires Reachable(s) && Ready(s.w) && s.w.running && Todo(s, Handler) == [] && MayDeliver(s.w.broker, e)
    requires s.w.glue.Some? && !s.w.glue.value.timerArmPending && !s.w.glue.value.connecting && !e.BeforeConnect?
    ensures Reachable(r) && Ready(r.w) && r.w == s.w && Todo(r, Handler) == [Handle(e)]
    ensures forall u :: u != Handler ==> Todo(r, u) == Todo(s, u)
  {
    r := Step(s, Deliver(e));
    r := Go(r, Handler, Choice(0, true));
  }

  const OK: Choice := Choice(0, true)
  const TOPIC: bytes := [116]

  // ---------------------------------------------------------------- a table of one slot

  lemma Single(e: Option<Sub>, now: int, ret: int, ack: Option<bool>, rejected: bool)
    ensures ReserveAll([e], TOPIC, now) == [ReserveOne(e, TOPIC, now)]
    ensures RecordAll([e], TOPIC, ret, ack) == [RecordOne(e, TOPIC, ret, ack)]
    ensures AckAll([e], ret, rejected) == [AckOne(e, ret, rejected)]
    ensures ResetAll([e]) == [ResetOne(e)]
  {
  }

  /** The one entry, the slots and the flags that matter to the runs below. */
  predicate Looks(w: World, e: Option<Sub>, acks: seq<EarlyAck>) {
    && w.glue.Some? && w.glue.value.subs == [e] && w.glue.value.acks == acks && |acks| == EARLY_ACK_SLOTS
    && w.glue.value.connected && !w.glue.value.deleting && !w.glue.value.timerArmPending && !w.glue.value.connecting
    && w.running
  }

  const FREE: seq<EarlyAck> := [EarlyAck(0, false, 0), EarlyAck(0, false, 0), EarlyAck(0, false, 0), EarlyAck(0, false, 0)]

  predicate AllIdle(s: State) {
    && Todo(s, Handler) == [] && Todo(s, Admin) == []
    && Todo(s, App(1)) == [] && Todo(s, App(2)) == [] && Todo(s, App(3)) == []
  }

  /** Nothing but the table, the slots and the timer differs. */
  predicate SameGhosts(w: World, v: World) { v.broker == w.broker && v.session == w.session && v.now == w.now }

  // ---------------------------------------------------------------- single tasks

  lemma ExecConnected(w: World, e: Option<Sub>)
    requires w.glue.Some? && w.glue.value.subs == [e] && Sound(w.glue.value) && w.running
    requires !w.glue.value.deleting && !w.glue.value.timerArmPending && !w.glue.value.connecting
    ensures var (v, more) := Exec(w, Handle(Connected), OK);
      && Looks(v, ResetOne(e), w.glue.value.acks) && more == [CollectPending(false), ScheduleRetry]
      && v.broker == w.broker && v.session == Reset(w.session) && v.now == w.now
  {
    Single(e, 0, 0, None, false);
  }

  lemma ExecDisconnected(w: World, e: Option<Sub>, acks: seq<EarlyAck>)
    requires Looks(w, e, acks)
    ensures var (v, more) := Exec(w, Handle(Disconnected), OK);
      && v.glue.Some? && v.glue.value.subs == [ResetOne(e)] && v.glue.value.acks == acks && more == [StopTimer] && v.running
      && !v.glue.value.deleting && !v.glue.value.timerArmPending && !v.glue.value.connecting
      && v.broker == w.broker && v.session == Reset(w.session) && v.now == w.now
  {
    Single(e, 0, 0, None, false);
  }

  lemma ExecSchedule(w: World, e: Option<Sub>, acks: seq<EarlyAck>)
    requires Looks(w, e, acks)
    ensures var (v, more) := Exec(w, ScheduleRetry, OK); Looks(v, e, acks) && more == [] && SameGhosts(w, v)
  {
  }

  lemma ExecCollect(w: World, e: Option<Sub>, acks: seq<EarlyAck>)
    requires Looks(w, e, acks) && (e.Some? ==> e.value.topic == TOPIC && e.value.state == NotSubscribed)
    ensures var (v, more) := Exec(w, CollectPending(false), OK);
      v == w && more == if e.Some? then [ReserveTopic(TOPIC, e.value.qos)] else []
  {
    var t := w.glue.value.subs;
    assert Collect(t, w.now, 1) == CollectStep(Collect(t, w.now, 0), t[0], w.now);
    assert Collect(t, w.now, 0) == [];
    if e.Some? {
      var ps := [Pending(TOPIC, e.value.qos, false)];
      assert Collect(t, w.now, 1) == ps && SendTasks(ps) == [ReserveTopic(TOPIC, e.value.qos)];
    } else {
      assert SendTasks([]) == [];
    }
  }

  /** The entry a first subscribe inserts. */
  const NEW: Sub := Sub(TOPIC, 1, 0, NotSubscribed, 0, 0, 0)

  lemma ExecSubscribe(w: World, acks: seq<EarlyAck>)
    requires Looks(w, None, acks)
    ensures var (v, more) := Exec(w, SubscribeEntry(TOPIC, 1, 0, 0), OK);
      && Looks(v, Some(NEW), acks) && more == [ReserveTopic(TOPIC, 0), ScheduleRetry] && SameGhosts(w, v)
  {
    var t := w.glue.value.subs;
    assert LastEntry(t, TOPIC, 1, 1) == -1 && FirstFree(t, 1) == 0 && !MqttRegions.Active(t, TOPIC, 1);
    assert t[0 := Some(NEW)] == [Some(NEW)];
  }

  lemma ExecUnsubscribe(w: World, e: Sub, acks: seq<EarlyAck>)
    requires Looks(w, Some(e), acks) && e.topic == TOPIC
    ensures var (v, more) := Exec(w, UnsubscribeEntry(TOPIC), OK);
      && Looks(v, None, acks) && more == [SendUnsubscribe(TOPIC)] && SameGhosts(w, v)
  {
    var t := w.glue.value.subs;
    assert StartsWith(t[0], TOPIC) && FirstStarting(t, TOPIC) == 0;
    assert t[0 := None] == [None] && !Uses([None], TOPIC, 1);
  }

  lemma ExecReserve(w: World, e: Sub, acks: seq<EarlyAck>)
    requires Looks(w, Some(e), acks) && e.topic == TOPIC
    ensures var (v, more) := Exec(w, ReserveTopic(TOPIC, 0), OK);
      && Looks(v, Some(e.(msgId := -1, state := Requested, requestTick := w.now)), acks) && more == [Transmit(TOPIC, 0, true)]
      && SameGhosts(w, v)
  {
    Single(Some(e), w.now, 0, None, false);
  }

  lemma ExecTransmit(w: World, e: Option<Sub>, acks: seq<EarlyAck>, id: nat)
    requires Looks(w, e, acks) && id > 0
    ensures var (v, more) := Exec(w, Transmit(TOPIC, 0, true), Choice(id, true));
      && Looks(v, e, acks) && more == [RecordRet(TOPIC, id)] && v.now == w.now
      && v.broker == w.broker.(sent := w.broker.sent[id := TOPIC]) && v.session == Sent(w.session, id)
  {
  }

  lemma ExecSuback(w: World, e: Option<Sub>, acks: seq<EarlyAck>, id: nat)
    requires Looks(w, e, acks) && id > 0 && acks[0].msgId == 0
    ensures var (v, more) := Exec(w, Handle(SubackEvent(id, false)), OK);
      && (if Awaits(e, id) then Looks(v, AckOne(e, id, false), acks) && more == [ScheduleRetry]
          else Looks(v, e, acks[0 := EarlyAck(id, false, w.now)]) && more == [])
      && v.broker == w.broker.(answered := w.broker.answered[id := w.now]) && v.session == w.session && v.now == w.now
  {
    Single(e, 0, id, None, false);
    var t := w.glue.value.subs;
    assert t[1..] == [];
    assert FirstAwaiting(t, id) == if Awaits(e, id) then 0 else 1;
    assert ParkSlotFrom(acks, w.now, 0, 0) == 0;
  }

  lemma ExecRecord(w: World, e: Option<Sub>, acks: seq<EarlyAck>, id: nat)
    requires Looks(w, e, acks) && id > 0 && forall k :: 0 < k < |acks| ==> acks[k].msgId == 0
    ensures var (v, more) := Exec(w, RecordRet(TOPIC, id), OK); var taken := ParkedAt(acks, 0, id, w.now);
      && Looks(v, RecordOne(e, TOPIC, id, if taken then Some(acks[0].rejected) else None),
               if taken then acks[0 := acks[0].(msgId := 0)] else acks)
      && more == (if taken then [ScheduleRetry] else [])
      && v.broker == w.broker && v.session == Recorded(w.session, id) && v.now == w.now
  {
    var taken := ParkedAt(acks, 0, id, w.now);
    Single(e, 0, id, if taken then Some(acks[0].rejected) else None, false);
    if taken {
      assert TakeSlot(acks, id, w.now) == 0;
    } else {
      assert forall k :: 0 <= k < |acks| ==> !ParkedAt(acks, k, id, w.now);
      assert TakeSlot(acks, id, w.now) == |acks|;
    }
  }

  // ---------------------------------------------------------------- the connection comes up

  lemma Born() returns (s: State)
    ensures Reachable(s) && Ready(s.w) && s == Apply(Start(), Init(1))
  {
    var s0 := Start();
    assert IsRun(s0, []) && After(s0, []) == s0;
    s := Step(s0, Init(1));
  }

  lemma Called() returns (s: State)
    ensures Reachable(s) && Ready(s.w) && s.w.glue == Some(Initial(1)) && SameGhosts(Start().w, s.w)
    ensures s.threads == map[Admin := [ClientStart]]
  {
    var s1 := Born();
    s := Step(s1, Call(ConnectCall));
  }

  lemma Started() returns (s: State)
    ensures Reachable(s) && Ready(s.w) && AllIdle(s) && s.w.running && s.w.glue == Some(Initial(1))
    ensures SameGhosts(Start().w, s.w)
  {
    var s1 := Called();
    assert ExecOther(s1.w, ClientStart, OK) == (s1.w.(running := true), []);
    s := Go(s1, Admin, OK);
  }

  lemma Connects() returns (s: State)
    ensures Reachable(s) && Ready(s.w) && AllIdle(s) && Looks(s.w, None, FREE)
    ensures s.w.broker == Start().w.broker && s.w.session == Session(1, map[], map[], {}) && s.w.now == 0
  {
    var s1 := Started();
    assert Initial(1).subs == [None] && Initial(1).acks == FREE;
    s := Resumes(s1, FREE);
  }

  /** A connect with an empty table, schedule call included. */
  lemma Resumes(s: State, acks: seq<EarlyAck>) returns (r: State)
    requires Reachable(s) && Ready(s.w) && Todo(s, Handler) == [] && s.w.running && s.w.glue.Some?
    requires s.w.glue.value.subs == [None] && s.w.glue.value.acks == acks && |acks| == EARLY_ACK_SLOTS
    requires !s.w.glue.value.deleting && !s.w.glue.value.timerArmPending && !s.w.glue.value.connecting
    ensures Reachable(r) && Ready(r.w) && Looks(r.w, None, acks) && Todo(r, Handler) == []
    ensures r.w.broker == s.w.broker && r.w.session == Reset(s.w.session) && r.w.now == s.w.now
    ensures forall u :: u != Handler ==> Todo(r, u) == Todo(s, u)
  {
    var s1 := Reconnects(s, None, acks);
    ExecCollect(s1.w, None, acks);
    var s2 := Go(s1, Handler, OK);
    assert Todo(s2, Handler) == [ScheduleRetry];
    ExecSchedule(s2.w, None, acks);
    r := Go(s2, Handler, OK);
  }

  lemma Reconnects(s: State, e: Option<Sub>, acks: seq<EarlyAck>) returns (r: State)
    requires Reachable(s) && Ready(s.w) && Todo(s, Handler) == [] && s.w.running && s.w.glue.Some?
    requires s.w.glue.value.subs == [e] && s.w.glue.value.acks == acks && |acks| == EARLY_ACK_SLOTS
    requires !s.w.glue.value.deleting && !s.w.glue.value.timerArmPending && !s.w.glue.value.connecting
    ensures Reachable(r) && Ready(r.w) && Looks(r.w, ResetOne(e), acks) && Todo(r, Handler) == [CollectPending(false), ScheduleRetry]
    ensures r.w.broker == s.w.broker && r.w.session == Reset(s.w.session) && r.w.now == s.w.now
    ensures forall u :: u != Handler ==> Todo(r, u) == Todo(s, u)
  {
    var s1 := Event(s, Connected);
    ExecConnected(s1.w, e);
    r := Go(s1, Handler, OK);
    assert Todo(r, Handler) == [CollectPending(false), ScheduleRetry];
  }

  lemma Disconnects(s: State, e: Option<Sub>, acks: seq<EarlyAck>) returns (r: State)
    requires Reachable(s) && Ready(s.w) && Todo(s, Handler) == [] && Looks(s.w, e, acks)
    ensures Reachable(r) && Ready(r.w) && Todo(r, Handler) == [] && r.w.running && r.w.glue.Some?
    ensures r.w.glue.value.subs == [ResetOne(e)] && r.w.glue.value.acks == acks
    ensures !r.w.glue.value.deleting && !r.w.glue.value.timerArmPending && !r.w.glue.value.connecting
    ensures r.w.broker == s.w.broker && r.w.session == Reset(s.w.session) && r.w.now == s.w.now
    ensures forall u :: u != Handler ==> Todo(r, u) == Todo(s, u)
  {
    var s1 := Event(s, Disconnected);
    ExecDisconnected(s1.w, e, acks);
    var s2 := Go(s1, Handler, OK);
    assert Todo(s2, Handler) == [StopTimer];
    r := Go(s2, Handler, OK);
  }

  // ---------------------------------------------------------------- a send, up to the packet id

  /** Application thread n subscribes to the topic and has learned id. */
  lemma Sends(s: State, n: nat, acks: seq<EarlyAck>, id: nat) returns (r: State)
    requires Reachable(s) && Ready(s.w) && Looks(s.w, None, acks) && Todo(s, App(n)) == [] && id > 0 && id !in s.w.broker.sent
    ensures Reachable(r) && Ready(r.w) && Todo(r, App(n)) == [RecordRet(TOPIC, id), ScheduleRetry, EndOp]
    ensures Looks(r.w, Some(NEW.(msgId := -1, state := Requested, requestTick := s.w.now)), acks) && r.w.now == s.w.now
    ensures r.w.broker == s.w.broker.(sent := s.w.broker.sent[id := TOPIC]) && r.w.session == Sent(s.w.session, id)
    ensures forall u :: u != App(n) ==> Todo(r, u) == Todo(s, u)
  {
    var s1 := Reserves(s, n, acks);
    var e := NEW.(msgId := -1, state := Requested, requestTick := s.w.now);
    ExecTransmit(s1.w, Some(e), acks, id);
    r := Go(s1, App(n), Choice(id, true));
    assert Todo(r, App(n)) == [RecordRet(TOPIC, id), ScheduleRetry, EndOp];
  }

  lemma Reserves(s: State, n: nat, acks: seq<EarlyAck>) returns (r: State)
    requires Reachable(s) && Ready(s.w) && Looks(s.w, None, acks) && Todo(s, App(n)) == []
    ensures Reachable(r) && Ready(r.w) && Todo(r, App(n)) == [Transmit(TOPIC, 0, true), ScheduleRetry, EndOp]
    ensures Looks(r.w, Some(NEW.(msgId := -1, state := Requested, requestTick := s.w.now)), acks) && SameGhosts(s.w, r.w)
    ensures forall u :: u != App(n) ==> Todo(r, u) == Todo(s, u)
  {
    var s1 := Step(s, Begin(App(n), SubscribeOp(TOPIC, 1, 0, 0)));
    assert Todo(s1, App(n)) == [SubscribeEntry(TOPIC, 1, 0, 0), EndOp];
    ExecSubscribe(s1.w, acks);
    var s2 := Go(s1, App(n), OK);
    assert Todo(s2, App(n)) == [ReserveTopic(TOPIC, 0), ScheduleRetry, EndOp];
    ExecReserve(s2.w, NEW, acks);
    r := Go(s2, App(n), OK);
    assert Todo(r, App(n)) == [Transmit(TOPIC, 0, true), ScheduleRetry, EndOp];
  }

  /** The broker accepts id, and the handler is about to process the SUBACK. */
  lemma Accepts(s: State, e: Option<Sub>, acks: seq<EarlyAck>, id: nat) returns (r: State)
    requires Reachable(s) && Ready(s.w) && Looks(s.w, e, acks) && Todo(s, Handler) == []
    requires id in s.w.broker.sent && id !in s.w.broker.verdicts && id !in s.w.broker.answered
    ensures Reachable(r) && Ready(r.w) && Looks(r.w, e, acks) && Todo(r, Handler) == [Handle(SubackEvent(id, false))]
    ensures r.w.broker == s.w.broker.(verdicts := s.w.broker.verdicts[id := false]) && r.w.session == s.w.session && r.w.now == s.w.now
    ensures forall u :: u != Handler ==> Todo(r, u) == Todo(s, u)
  {
    var s1 := Step(s, Answer(id, false));
    r := Event(s1, SubackEvent(id, false));
  }

  /** The SUBACK for 1 was handled before thread 1 could record it. */
  lemma Parked() returns (s: State)
    ensures Reachable(s) && Ready(s.w) && Todo(s, Handler) == [] && Todo(s, App(1)) == [RecordRet(TOPIC, 1), ScheduleRetry, EndOp]
    ensures Looks(s.w, Some(NEW.(msgId := -1, state := Requested)), FREE[0 := EarlyAck(1, false, 0)]) && s.w.now == 0
    ensures s.w.broker == Broker(map[1 := TOPIC], map[1 := false], map[1 := 0]) && s.w.session == Session(1, map[1 := 1], map[], {})
  {
    var s0 := Connects();
    var s1 := Sends(s0, 1, FREE, 1);
    var e := NEW.(msgId := -1, state := Requested);
    var s2 := Accepts(s1, Some(e), FREE, 1);
    ExecSuback(s2.w, Some(e), FREE, 1);
    s := Go(s2, Handler, OK);
  }

  // ---------------------------------------------------------------- what can go wrong

  /** A SUBACK parked for more than 5000 ms is lost: the broker accepted the SUBSCRIBE, its SUBACK was
      handled, the sender has recorded the id, nothing competed, and the entry is still REQUESTED. */
  lemma LateRecordStaysRequested()
    ensures exists s :: Reachable(s) && s.w.glue.Some? && |s.w.glue.value.subs| == 1 && s.w.glue.value.subs[0].Some?
              && var e := s.w.glue.value.subs[0].value;
              e.state == Requested && AcceptedAs(s.w.broker, e.topic, e.msgId) && e.msgId in s.w.broker.answered
  {
    var s0 := Parked();
    var s1 := Step(s0, Tick(5001));
    var e, acks := NEW.(msgId := -1, state := Requested), FREE[0 := EarlyAck(1, false, 0)];
    ExecRecord(s1.w, Some(e), acks, 1);
    var s2 := Go(s1, App(1), OK);
    assert s2.w.glue.value.subs[0] == Some(e.(msgId := 1));
  }

  /** A send that spans a reconnect: SUBSCRIBE 1 is accepted on the first connection, the event thread
      reserves the topic again after the second connect, thread 1 records 1 on that reservation, and the
      entry is ACKNOWLEDGED although nothing was accepted on the present connection. */
  lemma StaleAcknowledged()
    ensures exists s :: Reachable(s) && s.w.glue.Some? && |s.w.glue.value.subs| == 1 && s.w.glue.value.subs[0].Some?
              && var e := s.w.glue.value.subs[0].value;
              && e.state == Acknowledged && AckedBy(s.w, e, 1) && Spans(s.w.session, 1) && s.w.glue.value.connected
              && !MqttSessions.Active(s.w, e.topic)
  {
    var s0 := Parked();
    var e, acks := NEW.(msgId := -1, state := Requested), FREE[0 := EarlyAck(1, false, 0)];
    var s1 := Disconnects(s0, Some(e), acks);
    var d := ResetOne(Some(e));
    var s2 := Reconnects(s1, d, acks);
    ExecCollect(s2.w, d, acks);
    var s3 := Go(s2, Handler, OK);
    assert Todo(s3, Handler) == [ReserveTopic(TOPIC, 0), ScheduleRetry];
    ExecReserve(s3.w, d.value, acks);
    var s4 := Go(s3, Handler, OK);
    RecordsStale(s4);
  }

  lemma RecordsStale(s: State)
    requires Reachable(s) && Ready(s.w) && Todo(s, App(1)) == [RecordRet(TOPIC, 1), ScheduleRetry, EndOp] && s.w.now == 0
    requires Looks(s.w, Some(NEW.(msgId := -1, state := Requested)), FREE[0 := EarlyAck(1, false, 0)])
    requires s.w.broker == Broker(map[1 := TOPIC], map[1 := false], map[1 := 0]) && s.w.session == Session(3, map[1 := 1], map[], {})
    ensures exists r :: Reachable(r) && r.w.glue.Some? && |r.w.glue.value.subs| == 1 && r.w.glue.value.subs[0].Some?
              && var e := r.w.glue.value.subs[0].value;
              && e.state == Acknowledged && AckedBy(r.w, e, 1) && Spans(r.w.session, 1) && r.w.glue.value.connected
              && !MqttSessions.Active(r.w, e.topic)
  {
    var e, acks := NEW.(msgId := -1, state := Requested), FREE[0 := EarlyAck(1, false, 0)];
    ExecRecord(s.w, Some(e), acks, 1);
    var r := Go(s, App(1), OK);
    assert r.w.glue.value.subs[0] == Some(e.(msgId := 1, state := Acknowledged));
  }

  /** Thread 2 takes the entry of thread 1 out of the table and is about to send the UNSUBSCRIBE. */
  lemma Detached() returns (s: State)
    ensures Reachable(s) && Ready(s.w) && Looks(s.w, None, FREE) && Todo(s, Handler) == [] && Todo(s, App(3)) == []
    ensures Todo(s, App(2)) == [SendUnsubscribe(TOPIC), EndOp] && s.w.now == 0
    ensures s.w.broker == Broker(map[1 := TOPIC], map[], map[]) && s.w.session == Session(1, map[1 := 1], map[], {})
  {
    var s0 := Connects();
    var s1 := Sends(s0, 1, FREE, 1);
    var s2 := Step(s1, Begin(App(2), UnsubscribeOp(TOPIC)));
    assert Todo(s2, App(2)) == [UnsubscribeEntry(TOPIC), EndOp];
    ExecUnsubscribe(s2.w, NEW.(msgId := -1, state := Requested), FREE);
    s := Go(s2, App(2), OK);
    assert Todo(s, App(2)) == [SendUnsubscribe(TOPIC), EndOp];
  }

  /** Meanwhile thread 3 subscribes again and is acknowledged. */
  lemma Resubscribed() returns (s: State)
    ensures Reachable(s) && Ready(s.w) && Todo(s, App(2)) == [SendUnsubscribe(TOPIC), EndOp]
    ensures Looks(s.w, Some(NEW.(msgId := 2, state := Acknowledged)), FREE)
    ensures s.w.broker.sent == map[1 := TOPIC, 2 := TOPIC] && s.w.broker.verdicts == map[2 := false]
    ensures s.w.session == Session(1, map[1 := 1, 2 := 1], map[2 := 1], {})
  {
    var s0 := Detached();
    var s1 := Sends(s0, 3, FREE, 2);
    var e := NEW.(msgId := -1, state := Requested);
    ExecRecord(s1.w, Some(e), FREE, 2);
    var s2 := Go(s1, App(3), OK);
    var s3 := Accepts(s2, Some(e.(msgId := 2)), FREE, 2);
    ExecSuback(s3.w, Some(e.(msgId := 2)), FREE, 2);
    s := Go(s3, Handler, OK);
  }

  /** UNSUBSCRIBE is sent after the lock is released: when another thread has subscribed to the topic and
      been acknowledged in between, the entry is ACKNOWLEDGED, its send spanned nothing, and the broker
      holds no subscription to the topic. */
  lemma UnsubscribeOvertaken()
    ensures exists s :: Reachable(s) && s.w.glue.Some? && |s.w.glue.value.subs| == 1 && s.w.glue.value.subs[0].Some?
              && var e := s.w.glue.value.subs[0].value;
              && e.state == Acknowledged && AckedBy(s.w, e, 2) && !Spans(s.w.session, 2) && s.w.glue.value.connected
              && !MqttSessions.Active(s.w, e.topic)
  {
    var s0 := Resubscribed();
    assert SentOn(s0.w.broker, TOPIC) == {1, 2};
    var s := Go(s0, App(2), OK);
    assert s.w.glue.value.subs[0] == Some(NEW.(msgId := 2, state := Acknowledged));
  }
}
