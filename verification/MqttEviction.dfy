/** What happens when a SUBACK has to be parked and all four slots hold live ones: the oldest is lost, and
    with it the verdict on a request that its sender has yet to record. */
module MqttEviction {
  import opened Bytes
  import opened MqttTable
  import opened MqttRegions
  import opened MqttProtocol
  import Race = MqttRace
  import Sessions = MqttSessions
  import opened Witness = MqttWitness

  // ---------------------------------------------------------------- which SUBACK is lost

  /** No SUBACK is older, and those in front are younger. */
  predicate FirstOldest(acks: seq<EarlyAck>, r: nat) {
    && r < |acks| && (forall k :: 0 <= k < |acks| ==> acks[r].tick <= acks[k].tick)
    && (forall k :: 0 <= k < r ==> acks[r].tick < acks[k].tick)
  }

  lemma {:induction false} PicksOldest(acks: seq<EarlyAck>, now: int, i: nat, best: nat)
    requires Race.Crowded(acks, now) && i <= |acks| && best < |acks| && (best < i || i == best == 0)
    requires forall k :: 0 <= k < i ==> acks[best].tick <= acks[k].tick
    requires forall k :: 0 <= k < best ==> acks[best].tick < acks[k].tick
    ensures FirstOldest(acks, ParkSlotFrom(acks, now, i, best))
    decreases |acks| - i
  {
    if i < |acks| {
      assert Race.Live(acks[i], now);
      PicksOldest(acks, now, i + 1, if now - acks[i].tick > now - acks[best].tick then i else best);
    }
  }

  /** Parking a fifth live SUBACK overwrites the oldest one, the first of them if several are equally old. */
  lemma LostIffOldest(acks: seq<EarlyAck>, r: nat, msgId: int, rejected: bool, now: int)
    requires Race.Crowded(acks, now) && r < |acks| && msgId != acks[r].msgId
    requires forall k :: 0 <= k < |acks| && k != r ==> acks[k].msgId != acks[r].msgId
    ensures Race.NotParked(Park(acks, msgId, rejected, now), acks[r].msgId) <==> FirstOldest(acks, r)
  {
    var p, next := ParkSlotFrom(acks, now, 0, 0), Park(acks, msgId, rejected, now);
    PicksOldest(acks, now, 0, 0);
    if p != r {
      assert next[r] == acks[r];
    }
  }

  /** Ours is parked in slot r among four live ones, and a further SUBACK is parked. If ours was the oldest,
      its sender's recording leaves the entries REQUESTED although the broker has answered; otherwise it
      settles them as the broker decided. */
  lemma EvictedStaysRequested(w: World, r: nat, topic: bytes, id: int, other: int, rejected: bool, later: nat)
    requires Race.Stage(w, true, topic, id) && Race.Heard(w.broker, id) && Sound(w.glue.value)
    requires var g := w.glue.value;
      && r < |g.acks| && g.acks[r] == Race.Ours(w.broker, id) && Race.Crowded(g.acks, w.now)
      && (forall k :: 0 <= k < |g.acks| && k != r ==> g.acks[k].msgId != id)
      && other != id && FirstAwaiting(g.subs, other) == |g.subs| && Uses(g.subs, topic, |g.subs|)
    requires w.now <= later && later - w.broker.answered[id] <= EARLY_ACK_TTL_MS
    ensures var g := w.glue.value; var u := Record(Suback(g, other, rejected, w.now).0, topic, id, later).0.subs;
      && (Race.Reserved(u, topic, id) <==> FirstOldest(g.acks, r))
      && (Race.Settled(u, topic, w.broker.verdicts[id]) <==> !FirstOldest(g.acks, r))
  {
    Recorded(w.glue.value.subs, topic, id, w.broker.verdicts[id]);
    TakenUnlessOldest(w.glue.value.acks, r, other, rejected, w.now, later);
  }

  lemma TakenUnlessOldest(acks: seq<EarlyAck>, r: nat, msgId: int, rejected: bool, now: int, later: int)
    requires r < |acks| && Race.Crowded(acks, now) && msgId != acks[r].msgId && !Expired(acks[r], later)
    requires forall k :: 0 <= k < |acks| && k != r ==> acks[k].msgId != acks[r].msgId
    ensures Take(Park(acks, msgId, rejected, now), acks[r].msgId, later).0
         == if FirstOldest(acks, r) then None else Some(acks[r].rejected)
  {
    LostIffOldest(acks, r, msgId, rejected, now);
    if FirstOldest(acks, r) {
      Race.TakeNone(Park(acks, msgId, rejected, now), acks[r].msgId, later);
    } else {
      OthersParked(acks, r, msgId, rejected, now);
      Race.TakeOwn(Park(acks, msgId, rejected, now), acks[r], later);
    }
  }

  lemma OthersParked(acks: seq<EarlyAck>, r: nat, msgId: int, rejected: bool, now: int)
    requires r < |acks| && msgId != acks[r].msgId && forall k :: 0 <= k < |acks| && k != r ==> acks[k].msgId != acks[r].msgId
    requires !Race.NotParked(Park(acks, msgId, rejected, now), acks[r].msgId)
    ensures Race.ParkedAs(Park(acks, msgId, rejected, now), acks[r], now)
  {
    var next := Park(acks, msgId, rejected, now);
    var k :| 0 <= k < |next| && next[k].msgId == acks[r].msgId;
    assert k == r && next[r] == acks[r];
  }

  /** Recording without a parked SUBACK leaves the topic's entries REQUESTED, with one settles them. */
  lemma Recorded(t: Table, topic: bytes, id: int, rejected: bool)
    requires Race.Reserved(t, topic, -1) && id >= 0 && Uses(t, topic, |t|)
    ensures var u := RecordAll(t, topic, id, None); Race.Reserved(u, topic, id) && !Race.Settled(u, topic, rejected)
    ensures var u := RecordAll(t, topic, id, Some(rejected)); !Race.Reserved(u, topic, id) && Race.Settled(u, topic, rejected)
  {
    var i :| 0 <= i < |t| && OnTopic(t[i], topic);
    assert OnTopic(RecordAll(t, topic, id, None)[i], topic);
    assert OnTopic(RecordAll(t, topic, id, Some(rejected))[i], topic);
  }

  // ---------------------------------------------------------------- a run in which it happens

  const TOPICS: nat := 5

  function Name(n: nat): bytes requires n < TOPICS { [97 + n] }

  /** A table whose first k entries are reserved, each on a topic of its own. */
  function Filled(k: nat): Table {
    seq(TOPICS, i requires 0 <= i < TOPICS => if i < k then Some(Sub(Name(i), 1, 0, Requested, -1, 0, 0)) else None)
  }

  /** k senders have reached esp-mqtt, the broker has accepted each SUBSCRIBE, and no sender has recorded. */
  ghost predicate Burst(s: State, k: nat, acks: seq<EarlyAck>) {
    && s.w.glue.Some? && s.w.glue.value.subs == Filled(k) && s.w.glue.value.acks == acks && |acks| == EARLY_ACK_SLOTS
    && Up(s.w) && s.w.now == 0 && k <= TOPICS && Todo(s, Handler) == []
    && AllAccepted(s.w.broker, k)
    && (forall n: nat :: n < k ==> Todo(s, App(n)) == [RecordRet(Name(n), n + 1), ScheduleRetry, EndOp])
    && (forall n: nat :: n >= k ==> Todo(s, App(n)) == [])
  }

  ghost predicate AllAccepted(b: Broker, k: nat)
    requires k <= TOPICS
  {
    && (forall id :: id in b.sent <==> 1 <= id <= k)
    && (forall id :: id in b.sent ==> Sessions.AcceptedAs(b, Name(id - 1), id))
    && (forall id :: id in b.verdicts ==> id in b.sent)
    && (forall id :: id in b.answered <==> id in b.sent)
  }

  predicate Up(w: World) {
    && w.glue.Some? && w.running && w.glue.value.connected && !w.glue.value.deleting && !w.glue.value.timerArmPending
    && !w.glue.value.connecting
  }

  /** Only the table or the slots differ. */
  predicate Else(w: World, v: World) {
    && v.broker == w.broker && v.now == w.now && (Up(w) ==> Up(v)) && v.glue.Some?
  }

  lemma SubscribeNext(w: World, k: nat)
    requires Up(w) && Sound(w.glue.value) && k < TOPICS && w.glue.value.subs == Filled(k)
    ensures var (v, more) := Exec(w, SubscribeEntry(Name(k), 1, 0, 0), OK);
      && Else(w, v) && v.glue.value.acks == w.glue.value.acks && more == [ReserveTopic(Name(k), 0), ScheduleRetry]
      && v.glue.value.subs == Filled(k)[k := Some(Sub(Name(k), 1, 0, NotSubscribed, 0, 0, 0))]
  {
    var t := Filled(k);
    assert LastEntry(t, Name(k), 1, TOPICS) == -1;
    assert t[k].None? && FirstFree(t, TOPICS) == k;
    assert !MqttRegions.Active(t, Name(k), TOPICS);
  }

  lemma ReserveNext(w: World, k: nat)
    requires Up(w) && Sound(w.glue.value) && k < TOPICS && w.now == 0
    requires w.glue.value.subs == Filled(k)[k := Some(Sub(Name(k), 1, 0, NotSubscribed, 0, 0, 0))]
    ensures var (v, more) := Exec(w, ReserveTopic(Name(k), 0), OK);
      && Else(w, v) && v.glue.value.acks == w.glue.value.acks && v.glue.value.subs == Filled(k + 1)
      && more == [Transmit(Name(k), 0, true)]
  {
    var t := w.glue.value.subs;
    forall i | 0 <= i < TOPICS
      ensures ReserveAll(t, Name(k), 0)[i] == Filled(k + 1)[i]
    {
    }
  }

  lemma ParkNext(w: World, k: nat, id: nat)
    requires Up(w) && Sound(w.glue.value) && k <= TOPICS && id > 0 && w.glue.value.subs == Filled(k)
    ensures var (v, more) := Exec(w, Handle(SubackEvent(id, false)), OK);
      && v.now == w.now && Up(v) && v.glue.value.subs == Filled(k) && more == []
      && v.glue.value.acks == Park(w.glue.value.acks, id, false, w.now)
      && v.broker == w.broker.(answered := w.broker.answered[id := w.now])
  {
    forall i | 0 <= i < TOPICS
      ensures !Awaits(Filled(k)[i], id)
    {
    }
    assert FirstAwaiting(Filled(k), id) == TOPICS;
  }

  /** Thread k subscribes up to the reservation. */
  lemma ReservesNext(s: State, k: nat, acks: seq<EarlyAck>) returns (r: State)
    requires Reachable(s) && Ready(s.w) && Burst(s, k, acks) && k < TOPICS
    ensures Reachable(r) && Ready(r.w) && Todo(r, App(k)) == [Transmit(Name(k), 0, true), ScheduleRetry, EndOp]
    ensures Up(r.w) && r.w.glue.value.subs == Filled(k + 1) && r.w.glue.value.acks == acks && r.w.now == 0
    ensures r.w.broker == s.w.broker && forall u :: u != App(k) ==> Todo(r, u) == Todo(s, u)
  {
    var s1 := Step(s, Begin(App(k), SubscribeOp(Name(k), 1, 0, 0)));
    assert Todo(s1, App(k)) == [SubscribeEntry(Name(k), 1, 0, 0), EndOp];
    SubscribeNext(s1.w, k);
    var s2 := Go(s1, App(k), OK);
    assert Todo(s2, App(k)) == [ReserveTopic(Name(k), 0), ScheduleRetry, EndOp];
    ReserveNext(s2.w, k);
    r := Go(s2, App(k), OK);
    assert Todo(r, App(k)) == [Transmit(Name(k), 0, true), ScheduleRetry, EndOp];
  }

  lemma TransmitNext(w: World, k: nat, id: nat)
    requires Up(w) && Sound(w.glue.value) && k < TOPICS && id > 0
    ensures var (v, more) := Exec(w, Transmit(Name(k), 0, true), Choice(id, true));
      && v.glue == w.glue && Up(v) && v.now == w.now && more == [RecordRet(Name(k), id)]
      && v.broker == w.broker.(sent := w.broker.sent[id := Name(k)])
  {
  }

  /** It sends, and the broker accepts. */
  lemma SendsNext(s: State, k: nat, acks: seq<EarlyAck>) returns (r: State)
    requires Reachable(s) && Ready(s.w) && Burst(s, k, acks) && k < TOPICS
    ensures Reachable(r) && Ready(r.w) && Todo(r, App(k)) == [RecordRet(Name(k), k + 1), ScheduleRetry, EndOp]
    ensures Up(r.w) && r.w.glue.value.subs == Filled(k + 1) && r.w.glue.value.acks == acks && r.w.now == 0
    ensures MayDeliver(r.w.broker, SubackEvent(k + 1, false))
    ensures var b := s.w.broker; r.w.broker == Broker(b.sent[k + 1 := Name(k)], b.verdicts[k + 1 := false], b.answered)
    ensures forall u :: u != App(k) ==> Todo(r, u) == Todo(s, u)
  {
    var s1 := ReservesNext(s, k, acks);
    TransmitNext(s1.w, k, k + 1);
    assert k + 1 !in s1.w.broker.sent;
    var s2 := Go(s1, App(k), Choice(k + 1, true));
    assert Todo(s2, App(k)) == [RecordRet(Name(k), k + 1), ScheduleRetry, EndOp];
    assert k + 1 !in s2.w.broker.verdicts && k + 1 !in s2.w.broker.answered;
    r := Step(s2, Answer(k + 1, false));
  }

  /** The SUBACK is handled before the sender records. */
  lemma Parks(s: State, k: nat, acks: seq<EarlyAck>, id: nat) returns (r: State)
    requires Reachable(s) && Ready(s.w) && Todo(s, Handler) == [] && Up(s.w) && k <= TOPICS && id > 0
    requires s.w.glue.value.subs == Filled(k) && s.w.glue.value.acks == acks && |acks| == EARLY_ACK_SLOTS && s.w.now == 0
    requires MayDeliver(s.w.broker, SubackEvent(id, false))
    ensures Reachable(r) && Ready(r.w) && Todo(r, Handler) == [] && Up(r.w) && r.w.now == 0
    ensures r.w.glue.value.subs == Filled(k) && r.w.glue.value.acks == Park(acks, id, false, 0)
    ensures r.w.broker == s.w.broker.(answered := s.w.broker.answered[id := 0])
    ensures forall u :: u != Handler ==> Todo(r, u) == Todo(s, u)
  {
    var s1 := Witness.Event(s, SubackEvent(id, false));
    ParkNext(s1.w, k, id);
    r := Go(s1, Handler, OK);
  }

  lemma BurstNext(s: State, k: nat, acks: seq<EarlyAck>) returns (r: State)
    requires Reachable(s) && Ready(s.w) && Burst(s, k, acks) && k < TOPICS
    ensures Reachable(r) && Ready(r.w) && Burst(r, k + 1, Park(acks, k + 1, false, 0))
  {
    var s1 := SendsNext(s, k, acks);
    r := Parks(s1, k + 1, acks, k + 1);
    BurstGrows(s, r, k, acks);
  }

  lemma BurstGrows(s: State, r: State, k: nat, acks: seq<EarlyAck>)
    requires Burst(s, k, acks) && k < TOPICS && Up(r.w) && r.w.now == 0 && Todo(r, Handler) == []
    requires r.w.glue.value.subs == Filled(k + 1) && r.w.glue.value.acks == Park(acks, k + 1, false, 0)
    requires Todo(r, App(k)) == [RecordRet(Name(k), k + 1), ScheduleRetry, EndOp]
    requires var b := s.w.broker;
      r.w.broker == Broker(b.sent[k + 1 := Name(k)], b.verdicts[k + 1 := false], b.answered[k + 1 := 0])
    requires forall u :: u != App(k) && u != Handler ==> Todo(r, u) == Todo(s, u)
    ensures Burst(r, k + 1, Park(acks, k + 1, false, 0))
  {
    AcceptedGrows(s.w.broker, k);
  }

  lemma AcceptedGrows(b: Broker, k: nat)
    requires k < TOPICS && AllAccepted(b, k)
    ensures AllAccepted(Broker(b.sent[k + 1 := Name(k)], b.verdicts[k + 1 := false], b.answered[k + 1 := 0]), k + 1)
  {
    var d := Broker(b.sent[k + 1 := Name(k)], b.verdicts[k + 1 := false], b.answered[k + 1 := 0]);
    forall id | id in d.sent
      ensures Sessions.AcceptedAs(d, Name(id - 1), id)
    {
      assert id != k + 1 ==> Sessions.AcceptedAs(b, Name(id - 1), id);
    }
  }

  // ---------------------------------------------------------------- how it starts

  lemma Called() returns (s: State)
    ensures Reachable(s) && Ready(s.w) && s.w.glue == Some(Initial(TOPICS)) && SameGhosts(Start().w, s.w)
    ensures s.threads == map[Admin := [ClientStart]]
  {
    var s0 := Start();
    assert IsRun(s0, []) && After(s0, []) == s0;
    var s1 := Step(s0, Init(TOPICS));
    s := Step(s1, Call(ConnectCall));
  }

  lemma Started() returns (s: State)
    ensures Reachable(s) && Ready(s.w) && s.w.glue == Some(Initial(TOPICS)) && SameGhosts(Start().w, s.w) && s.w.running
    ensures forall u :: Todo(s, u) == []
  {
    var s1 := Called();
    assert ExecOther(s1.w, ClientStart, OK) == (s1.w.(running := true), []);
    s := Go(s1, Admin, OK);
  }

  /** No entry and no parked SUBACK. */
  predicate Empty(w: World) { Up(w) && w.glue.value.subs == Filled(0) && w.glue.value.acks == FREE }

  lemma ConnectEmpty(w: World)
    requires w.glue == Some(Initial(TOPICS)) && w.running
    ensures var (v, more) := Exec(w, Handle(Connected), OK);
      Empty(v) && v.broker == w.broker && v.now == w.now && more == [CollectPending(false), ScheduleRetry]
  {
    assert Initial(TOPICS).acks == FREE;
    assert ResetAll(Initial(TOPICS).subs) == Filled(0);
  }

  lemma CollectEmpty(w: World)
    requires Empty(w) && w.now == 0
    ensures Exec(w, CollectPending(false), OK) == (w, [])
  {
    NothingToCollect(TOPICS);
    assert Collect(w.glue.value.subs, w.now, |w.glue.value.subs|) == [];
    assert ExecRetry(w, CollectPending(false), OK) == (w, SendTasks([]) + []);
  }

  lemma ScheduleEmpty(w: World)
    requires Empty(w)
    ensures var (v, more) := Exec(w, ScheduleRetry, OK); Empty(v) && v.broker == w.broker && v.now == w.now && more == []
  {
  }

  lemma BurstStarts() returns (s: State)
    ensures Reachable(s) && Ready(s.w) && Burst(s, 0, FREE)
  {
    var s1 := Started();
    var s2 := Witness.Event(s1, Connected);
    ConnectEmpty(s2.w);
    var s3 := Go(s2, Handler, OK);
    assert Todo(s3, Handler) == [CollectPending(false), ScheduleRetry];
    CollectEmpty(s3.w);
    var s4 := Go(s3, Handler, OK);
    assert Todo(s4, Handler) == [ScheduleRetry];
    ScheduleEmpty(s4.w);
    s := Go(s4, Handler, OK);
  }

  lemma {:induction false} NothingToCollect(k: nat)
    requires k <= TOPICS
    ensures Collect(Filled(0), 0, k) == [] && SendTasks([]) == []
  {
    if k > 0 {
      NothingToCollect(k - 1);
    }
  }

  /** Five threads send at once and five SUBACKs come before anyone records. The first one is lost: when its
      sender records in time, the entry stays REQUESTED under an id that the broker accepted and answered. */
  lemma FifthSubackEvicts()
    ensures exists s :: Reachable(s) && s.w.glue.Some? && |s.w.glue.value.subs| == TOPICS && s.w.glue.value.subs[0].Some?
              && var e := s.w.glue.value.subs[0].value;
              && e.state == Requested && Sessions.AcceptedAs(s.w.broker, e.topic, e.msgId) && e.msgId in s.w.broker.answered
              && s.w.now == 0
  {
    var s0 := BurstStarts();
    assert FREE == Taken(0);
    var s4 := FourParked(s0);
    var s5 := BurstNext(s4, 4, Taken(4));
    FirstLost();
    RecordsNothing(s5, Park(Taken(4), 5, false, 0));
  }

  lemma FirstLost()
    ensures Race.NotParked(Park(Taken(4), 5, false, 0), 1)
  {
    LostIffOldest(Taken(4), 0, 5, false, 0);
  }

  lemma FourParked(s: State) returns (r: State)
    requires Reachable(s) && Ready(s.w) && Burst(s, 0, Taken(0))
    ensures Reachable(r) && Ready(r.w) && Burst(r, 4, Taken(4))
  {
    r := s;
    for n := 0 to EARLY_ACK_SLOTS
      invariant Reachable(r) && Ready(r.w) && Burst(r, n, Taken(n))
    {
      r := BurstNext(r, n, Taken(n));
      TakesNext(n);
    }
  }

  lemma {:induction false} PicksFirstFree(acks: seq<EarlyAck>, now: int, i: nat, best: nat, free: nat)
    requires i <= free < |acks| && best < |acks| && acks[free].msgId == 0
    requires forall k :: i <= k < free ==> Race.Live(acks[k], now)
    ensures ParkSlotFrom(acks, now, i, best) == free
    decreases |acks| - i
  {
    if i < free {
      assert Race.Live(acks[i], now);
      PicksFirstFree(acks, now, i + 1, if now - acks[i].tick > now - acks[best].tick then i else best, free);
    }
  }

  /** The first n of the four slots taken. */
  function Taken(n: nat): seq<EarlyAck> {
    seq(EARLY_ACK_SLOTS, i requires 0 <= i < EARLY_ACK_SLOTS => EarlyAck(if i < n then i + 1 else 0, false, 0))
  }

  lemma TakesNext(n: nat)
    requires n < EARLY_ACK_SLOTS
    ensures Park(Taken(n), n + 1, false, 0) == Taken(n + 1)
  {
    PicksFirstFree(Taken(n), 0, 0, 0, n);
  }

  lemma RecordsNothing(s: State, acks: seq<EarlyAck>)
    requires Reachable(s) && Ready(s.w) && Burst(s, TOPICS, acks) && Race.NotParked(acks, 1)
    ensures exists r :: Reachable(r) && r.w.glue.Some? && |r.w.glue.value.subs| == TOPICS && r.w.glue.value.subs[0].Some?
              && var e := r.w.glue.value.subs[0].value;
              && e.state == Requested && Sessions.AcceptedAs(r.w.broker, e.topic, e.msgId) && e.msgId in r.w.broker.answered
              && r.w.now == 0
  {
    Race.TakeNone(acks, 1, 0);
    assert Todo(s, App(0)) == [RecordRet(Name(0), 1), ScheduleRetry, EndOp];
    var r := Go(s, App(0), OK);
    assert OnTopic(s.w.glue.value.subs[0], Name(0));
    assert r.w.glue.value.subs[0] == Some(Filled(TOPICS)[0].value.(msgId := 1));
  }
}
