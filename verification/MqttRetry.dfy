/** No pending subscription is forgotten, and the retry delay backs off as documented, in every run. */
module MqttRetry {
  import opened Bytes
  import opened MqttTable
  import opened MqttRegions
  import opened MqttProtocol
  import Life = MqttLifecycle

  /** A live connection with a subscription the broker has not acknowledged. */
  predicate Pending(w: World) {
    w.glue.Some? && w.glue.value.connected && !w.glue.value.deleting && !AllAcknowledged(w.glue.value.subs)
  }

  /** The timer will fire, a dropped timer command will be picked up, or a round is queued. */
  predicate Watched(w: World) {
    w.armed || w.rounds > 0 || (w.glue.Some? && w.glue.value.timerArmPending)
  }

  /** The thread has yet to reach its schedule call, or to note that the timer refused it. */
  predicate Duty(todo: seq<Task>) { ScheduleRetry in todo || ArmFlag in todo }

  predicate SomeDuty(s: State) { exists t :: t in s.threads && Duty(s.threads[t]) }

  predicate Sending(x: Task) { IsSend(x) || x.CollectPending? }

  /** Whoever is about to send will schedule afterwards. */
  predicate Orderly(todo: seq<Task>) {
    todo == [] || ((Sending(todo[0]) ==> ScheduleRetry in todo[1..]) && Orderly(todo[1..]))
  }

  lemma {:induction false} OrderlyAppend(more: seq<Task>, rest: seq<Task>)
    requires Orderly(rest) && (Orderly(more) || ScheduleRetry in rest)
    ensures Orderly(more + rest)
    decreases |more|
  {
    if more == [] {
      assert more + rest == rest;
    } else {
      OrderlyAppend(more[1..], rest);
      assert (more + rest)[1..] == more[1..] + rest;
    }
  }

  /** What a task puts before the rest is orderly by itself, unless the rest has a schedule call. */
  lemma MoreOrderly(w: World, x: Task, c: Choice)
    requires w.glue.Some? && Sound(w.glue.value) && !Sending(x)
    ensures Orderly(Exec(w, x, c).1)
  {
    if x.DetachAll? {
      Life.ReleasesShape(UnsubscribeAll(w.glue.value).1);
      NothingSent(Releases(UnsubscribeAll(w.glue.value).1));
    } else if x.Handle? {
      EventOrderly(w, x.event);
    } else if x.SubscribeEntry? || x.UnsubscribeEntry? {
      TableOrderly(w, x);
    }
  }

  lemma EventOrderly(w: World, e: Event)
    requires w.glue.Some? && Sound(w.glue.value)
    ensures Orderly(ExecEvent(w, e).1)
  {
    var more := ExecEvent(w, e).1;
    assert e.Connected? ==> more[1..] == [ScheduleRetry];
  }

  lemma TableOrderly(w: World, x: Task)
    requires w.glue.Some? && (x.SubscribeEntry? || x.UnsubscribeEntry?)
    ensures Orderly(ExecTable(w, x).1)
  {
    var more := ExecTable(w, x).1;
    assert |more| == 2 ==> more[1..] == [ScheduleRetry];
  }

  // ---------------------------------------------------------------- the invariant

  predicate Up(w: World) { w.glue.Some? && w.glue.value.connected && !w.glue.value.deleting }

  predicate StopOk(s: State, t: Thread) {
    Todo(s, t) != [] && Todo(s, t)[0].StopTimer? ==> !Up(s.w)
  }

  predicate DelayOk(w: World) { w.glue.Some? ==> w.glue.value.retryDelayMs == DelayAfter(w.backoffs) }

  predicate Own(s: State) {
    && (forall t :: t in s.threads ==> Orderly(s.threads[t]) && StopOk(s, t))
    && (Pending(s.w) ==> Watched(s.w) || SomeDuty(s))
    && DelayOk(s.w)
  }

  predicate Inv(s: State) { Life.Inv(s) && Own(s) }

  // ---------------------------------------------------------------- what a task does to the watch

  /** The step leaves pending subscriptions watched, or owes a schedule call itself. */
  predicate Handed(w: World, v: World, x: Task, more: seq<Task>) {
    Pending(v) ==>
      || Watched(v) || Duty(more) || Sending(x)
      || (Pending(w) && !Watched(w) && !x.ScheduleRetry? && !x.ArmFlag?)
  }

  lemma SubscribeKeepsSettled(g: Glue, topic: bytes, cb: int, priv: int, qos: nat)
    requires AllAcknowledged(g.subs) && Subscribe(g, topic, cb, priv, qos).1.send.None?
    ensures AllAcknowledged(Subscribe(g, topic, cb, priv, qos).0.subs)
  {
  }

  lemma TableHanded(w: World, x: Task)
    requires w.glue.Some? && IsTable(x)
    ensures var (v, more) := ExecTable(w, x); Handed(w, v, x, more)
  {
    if AllAcknowledged(w.glue.value.subs) && x.SubscribeEntry? {
      var r := Subscribe(w.glue.value, x.topic, x.cb, x.priv, x.qos);
      if r.1.send.None? {
        SubscribeKeepsSettled(w.glue.value, x.topic, x.cb, x.priv, x.qos);
      } else {
        assert ExecTable(w, x).1[1] == ScheduleRetry;
      }
    } else if x.SubscribeEntry? {
      SubscribeKeepsUp(w, x);
    }
  }

  lemma SubscribeKeepsUp(w: World, x: Task)
    requires w.glue.Some? && x.SubscribeEntry? && !AllAcknowledged(w.glue.value.subs)
    ensures var (v, more) := ExecTable(w, x); Handed(w, v, x, more)
  {
  }

  lemma RetryHanded(w: World, x: Task, c: Choice)
    requires w.glue.Some? && IsRetry(x) && DelayOk(w)
    ensures var (v, more) := ExecRetry(w, x, c); Handed(w, v, x, more)
  {
    if x.ScheduleRetry? {
      StopsWhenSettled(w.glue.value, w.now);
      assert !c.ok ==> ExecRetry(w, x, c).1[0] == ArmFlag;
    }
  }

  lemma EventHanded(w: World, e: Event)
    requires w.glue.Some? && Sound(w.glue.value)
    ensures var (v, more) := ExecEvent(w, e); Handed(w, v, Handle(e), more)
  {
    var g, more := w.glue.value, ExecEvent(w, e).1;
    match e
    case SubackEvent(id, rejected) => assert more != [] ==> more[0] == ScheduleRetry;
    case DeletedEvent(id) =>
      assert more != [] ==> more[0] == ScheduleRetry;
      if more == [] {
        NoneSettled(g.subs, id, true);
      }
    case Connected => assert more[1] == ScheduleRetry;
    case _ =>
  }

  lemma ExecHanded(w: World, x: Task, c: Choice)
    requires w.glue.Some? && Sound(w.glue.value) && DelayOk(w) && (x.StopTimer? ==> !Up(w))
    ensures var (v, more) := Exec(w, x, c); Handed(w, v, x, more)
  {
    if IsTable(x) {
      TableHanded(w, x);
    } else if IsRetry(x) {
      RetryHanded(w, x, c);
    } else if x.Handle? {
      EventHanded(w, x.event);
    } else if IsOther(x) {
      OtherHanded(w, x, c);
    }
  }

  lemma OtherHanded(w: World, x: Task, c: Choice)
    requires w.glue.Some? && IsOther(x) && (x.StopTimer? ==> !Up(w))
    ensures var (v, more) := ExecOther(w, x, c); Handed(w, v, x, more)
  {
    if x.Head? {
      assert w.glue.value.timerArmPending ==> ExecOther(w, x, c).1[0] == ScheduleRetry;
    }
  }

  /** A schedule call whose timer command gets through leaves the timer armed exactly while connected with
      something not acknowledged; otherwise a command is noted for the next event. */
  lemma ScheduleArms(w: World, c: Choice)
    requires w.glue.Some? && w.glue.value.retryDelayMs > 0
    ensures var (v, more) := ExecRetry(w, ScheduleRetry, c); var g := w.glue.value;
      && (c.ok ==> more == [] && (v.armed <==> g.connected && !AllAcknowledged(g.subs)))
      && (!c.ok ==> more == [ArmFlag] && v.armed == w.armed && ExecRetry(v, ArmFlag, c).0.glue.value.timerArmPending)
  {
    StopsWhenSettled(w.glue.value, w.now);
  }

  lemma RetryDelay(w: World, x: Task, c: Choice)
    requires w.glue.Some? && IsRetry(x) && DelayOk(w)
    ensures DelayOk(ExecRetry(w, x, c).0)
  {
    StopsWhenSettled(w.glue.value, w.now);
  }

  lemma EventDelay(w: World, e: Event)
    requires w.glue.Some? && Sound(w.glue.value) && DelayOk(w)
    ensures DelayOk(ExecEvent(w, e).0)
  {
  }

  lemma ExecDelay(w: World, x: Task, c: Choice)
    requires w.glue.Some? && Sound(w.glue.value) && DelayOk(w)
    ensures DelayOk(Exec(w, x, c).0)
  {
    if IsRetry(x) {
      RetryDelay(w, x, c);
    } else if x.Handle? {
      EventDelay(w, x.event);
    } else if IsOther(x) {
      OtherDelay(w, x, c);
    }
  }

  lemma OtherDelay(w: World, x: Task, c: Choice)
    requires w.glue.Some? && IsOther(x) && DelayOk(w)
    ensures DelayOk(ExecOther(w, x, c).0)
  {
  }

  /** Only MQTT_EVENT_CONNECTED brings the connection up. */
  lemma ExecUp(w: World, x: Task, c: Choice)
    requires w.glue.Some? && Sound(w.glue.value) && !Up(w)
    ensures Up(Exec(w, x, c).0) ==> x == Handle(Connected) && !w.glue.value.deleting
  {
    if x.Handle? {
      EventUp(w, x.event);
    } else {
      AsideUp(w, x, c);
    }
  }

  lemma AsideUp(w: World, x: Task, c: Choice)
    requires w.glue.Some? && Sound(w.glue.value) && !Up(w) && !x.Handle?
    ensures !Up(Exec(w, x, c).0)
  {
    if IsTable(x) {
      assert ExecTable(w, x).0.glue.value.connected == w.glue.value.connected;
    } else if IsRetry(x) {
      RetryUp(w, x, c);
    } else if IsOther(x) {
      OtherUp(w, x, c);
    } else {
      SendUp(w, x, c);
    }
  }

  lemma SendUp(w: World, x: Task, c: Choice)
    requires w.glue.Some? && IsSend(x) && !Up(w)
    ensures !Up(ExecSend(w, x, c).0)
  {
  }

  lemma RetryUp(w: World, x: Task, c: Choice)
    requires w.glue.Some? && IsRetry(x) && !Up(w)
    ensures !Up(ExecRetry(w, x, c).0)
  {
  }

  lemma OtherUp(w: World, x: Task, c: Choice)
    requires w.glue.Some? && IsOther(x) && !Up(w)
    ensures !Up(ExecOther(w, x, c).0)
  {
  }

  lemma EventUp(w: World, e: Event)
    requires w.glue.Some? && Sound(w.glue.value) && !Up(w)
    ensures Up(ExecEvent(w, e).0) ==> e.Connected? && !w.glue.value.deleting
  {
  }

  /** The timer is stopped only after the connection was marked as gone. */
  lemma StopPushed(w: World, t: Thread, x: Task, c: Choice)
    requires w.glue.Some? && Sound(w.glue.value) && Life.Belongs(t, x)
    ensures var (v, more) := Exec(w, x, c); more != [] && more[0].StopTimer? ==> !Up(v)
  {
    if x.DetachAll? {
      Life.ReleasesShape(UnsubscribeAll(w.glue.value).1);
    } else if IsRetry(x) {
      Life.RetryMore(w, x, c);
    }
  }

  // ---------------------------------------------------------------- steps

  lemma RunOrderly(s: State, t: Thread, c: Choice)
    requires Ready(s.w) && Enabled(s, Run(t, c)) && Inv(s)
    ensures forall u :: u in Apply(s, Run(t, c)).threads ==> Orderly(Apply(s, Run(t, c)).threads[u])
  {
    Life.RunLive(s, t);
    var todo := Todo(s, t);
    assert Orderly(s.threads[t]);
    if !Sending(todo[0]) {
      MoreOrderly(s.w, todo[0], c);
    }
    OrderlyAppend(Exec(s.w, todo[0], c).1, todo[1..]);
  }

  lemma RunStops(s: State, t: Thread, c: Choice, u: Thread)
    requires Ready(s.w) && Enabled(s, Run(t, c)) && Inv(s) && u in Apply(s, Run(t, c)).threads
    ensures StopOk(Apply(s, Run(t, c)), u)
  {
    Life.RunLive(s, t);
    var todo := Todo(s, t);
    assert Life.ThreadOk(t, s.threads[t]);
    if u == t {
      StopPushed(s.w, t, todo[0], c);
    } else {
      assert StopOk(s, u) && Life.ThreadOk(u, s.threads[u]) && Life.DeinitOk(s, u);
      if Todo(s, u) != [] && Todo(s, u)[0].StopTimer? {
        ExecUp(s.w, todo[0], c);
      }
    }
  }

  lemma RunWatched(s: State, t: Thread, c: Choice)
    requires Ready(s.w) && Enabled(s, Run(t, c)) && Inv(s) && Pending(Apply(s, Run(t, c)).w)
    ensures Watched(Apply(s, Run(t, c)).w) || SomeDuty(Apply(s, Run(t, c)))
  {
    Life.RunLive(s, t);
    var todo, r := Todo(s, t), Apply(s, Run(t, c));
    var (v, more) := Exec(s.w, todo[0], c);
    assert Orderly(s.threads[t]) && StopOk(s, t);
    ExecHanded(s.w, todo[0], c);
    var next := more + todo[1..];
    assert r.threads[t] == next;
    assert forall x :: x in more || x in todo[1..] ==> x in next;
    if !Watched(v) && !Duty(next) {
      var u :| u in s.threads && Duty(s.threads[u]);
      assert u != t;
      assert r.threads[u] == s.threads[u];
    }
  }

  lemma RunKeeps(s: State, t: Thread, c: Choice)
    requires Ready(s.w) && Enabled(s, Run(t, c)) && Inv(s)
    ensures Own(Apply(s, Run(t, c)))
  {
    var r := Apply(s, Run(t, c));
    Life.RunLive(s, t);
    RunOrderly(s, t, c);
    ExecDelay(s.w, Todo(s, t)[0], c);
    forall u | u in r.threads
      ensures StopOk(r, u)
    {
      RunStops(s, t, c, u);
    }
    if Pending(r.w) {
      RunWatched(s, t, c);
    }
  }

  lemma OpTasksOrderly(op: Op)
    ensures Orderly(OpTasks(op)) && !OpTasks(op)[0].StopTimer? && (op.RoundOp? ==> Duty(OpTasks(op)))
  {
    if op.RoundOp? {
      var todo := OpTasks(op);
      assert todo[1..] == [ScheduleRetry, EndOp] && todo[1] == ScheduleRetry;
      assert Orderly(todo[1..]) by {
        assert todo[1..][1..] == [EndOp] && Orderly([EndOp]);
      }
    }
  }

  /** An idle thread takes up tasks and the connection does not come up. */
  lemma TakeUp(s: State, w: World, t: Thread, todo: seq<Task>)
    requires Own(s) && Todo(s, t) == [] && Orderly(todo) && DelayOk(w)
    requires (Up(w) ==> Up(s.w)) && (Pending(w) ==> Pending(s.w))
    requires todo != [] && todo[0].StopTimer? ==> !Up(w)
    requires Pending(w) ==> (Watched(s.w) ==> Watched(w)) || Duty(todo)
    ensures Own(Push(s, w, t, todo))
  {
    var r := Push(s, w, t, todo);
    forall u | u in r.threads
      ensures Orderly(r.threads[u]) && StopOk(r, u)
    {
      if u != t {
        assert Orderly(s.threads[u]) && StopOk(s, u);
      }
    }
    if Pending(w) && !Watched(w) {
      assert r.threads[t] == todo;
      if !Duty(todo) {
        var u :| u in s.threads && Duty(s.threads[u]);
        assert r.threads[u] == s.threads[u];
      }
    }
  }

  /** The threads stay as they are. */
  lemma Stay(s: State, r: State)
    requires Own(s) && r.threads == s.threads && DelayOk(r.w)
    requires (Up(r.w) ==> Up(s.w)) && (Pending(r.w) ==> Pending(s.w))
    requires Pending(r.w) ==> (Watched(s.w) ==> Watched(r.w))
    ensures Own(r)
  {
    forall u | u in r.threads
      ensures Orderly(r.threads[u]) && StopOk(r, u)
    {
      assert Orderly(s.threads[u]) && StopOk(s, u);
    }
    if Pending(r.w) && !Watched(r.w) {
      var u :| u in s.threads && Duty(s.threads[u]);
      assert Duty(r.threads[u]);
    }
  }

  lemma BeginKeeps(s: State, t: Thread, op: Op)
    requires Ready(s.w) && Enabled(s, Begin(t, op)) && Own(s)
    ensures Own(Apply(s, Begin(t, op)))
  {
    var r := Apply(s, Begin(t, op));
    OpTasksOrderly(op);
    if s.w.glue.Some? && !s.w.glue.value.deleting {
      TakeUp(s, r.w, t, OpTasks(op));
    } else {
      Stay(s, r);
    }
  }

  lemma DeinitKeeps(s: State, t: Thread)
    requires Ready(s.w) && Enabled(s, Deinit(t)) && Own(s)
    ensures Own(Apply(s, Deinit(t)))
  {
    if s.w.glue.Some? && !s.w.glue.value.deleting {
      NothingSent(DEINIT_TASKS);
      TakeUp(s, Apply(s, Deinit(t)).w, t, DEINIT_TASKS);
    }
  }

  lemma {:induction false} NothingSent(todo: seq<Task>)
    requires forall i :: 0 <= i < |todo| ==> !Sending(todo[i])
    ensures Orderly(todo)
  {
    if todo != [] {
      NothingSent(todo[1..]);
    }
  }

  lemma CallKeeps(s: State, call: AdminCall)
    requires Ready(s.w) && Enabled(s, Call(call)) && Own(s)
    ensures Own(Apply(s, Call(call)))
  {
    if s.w.glue.Some? {
      NothingSent(CallTasks(call));
      TakeUp(s, s.w, Admin, CallTasks(call));
    }
  }

  lemma StepKeeps(s: State, l: Label)
    requires Ready(s.w) && Enabled(s, l) && Inv(s)
    ensures Own(Apply(s, l))
  {
    match l
    case Run(t, c) => RunKeeps(s, t, c);
    case Begin(t, op) => BeginKeeps(s, t, op);
    case Deliver(e) => TakeUp(s, s.w, Handler, [Head(e)]);
    case Deinit(t) => DeinitKeeps(s, t);
    case Call(call) => CallKeeps(s, call);
    case _ => Stay(s, Apply(s, l));
  }

  lemma {:induction false} Reached(s: State, ls: seq<Label>)
    requires Ready(s.w) && Inv(s) && IsRun(s, ls)
    ensures Inv(After(s, ls))
    decreases |ls|
  {
    if ls != [] {
      Life.StepKeeps(s, ls[0]);
      StepKeeps(s, ls[0]);
      Reached(Apply(s, ls[0]), ls[1..]);
    }
  }

  /** In every reachable state that is connected and not deleting, a subscription that is not acknowledged
      implies that the retry timer is armed, or a timer command is noted for the next event, or a retry
      round is queued, or some thread has yet to reach its schedule call. */
  lemma NoPendingForgotten(ls: seq<Label>, i: nat)
    requires IsRun(Start(), ls)
    requires Up(After(Start(), ls).w)
    requires var g := After(Start(), ls).w.glue.value;
      i < |g.subs| && g.subs[i].Some? && g.subs[i].value.state != Acknowledged
    ensures Watched(After(Start(), ls).w) || SomeDuty(After(Start(), ls))
  {
    Reached(Start(), ls);
  }

  /** The retry delay is always min(5000 * 2^k, 60000) after k rounds that re-sent a failed entry since it
      was last reset. */
  lemma BackoffIs(ls: seq<Label>)
    requires IsRun(Start(), ls) && After(Start(), ls).w.glue.Some?
    ensures var w := After(Start(), ls).w; var d := 5000 * Pow2(w.backoffs);
      w.glue.value.retryDelayMs == if d > 60000 then 60000 else d
  {
    Reached(Start(), ls);
  }

  // ---------------------------------------------------------------- what a round sends

  predicate Sends(more: seq<Task>, topic: bytes) { exists j :: 0 <= j < |more| && more[j].ReserveTopic? && more[j].topic == topic }

  /** A pass over the table sends one SUBSCRIBE for a topic exactly when some entry of it was never requested
      or failed, or waits for a SUBACK for more than 30 seconds; at the highest QoS among those entries. */
  lemma RoundSendsOnce(w: World, round: bool, c: Choice, topic: bytes)
    requires w.glue.Some?
    ensures var t := w.glue.value.subs; var more := ExecRetry(w, CollectPending(round), c).1;
      && (Sends(more, topic) <==> exists i :: 0 <= i < |t| && Due(t[i], topic, w.now))
      && (forall j :: 0 <= j < |more| && more[j].ReserveTopic? && more[j].topic == topic ==>
            && (forall i :: 0 <= i < |t| && Due(t[i], topic, w.now) ==> t[i].value.qos <= more[j].qos)
            && (exists i :: 0 <= i < |t| && Due(t[i], topic, w.now) && t[i].value.qos == more[j].qos))
      && (forall i, j :: 0 <= i < j < |more| && more[i].ReserveTopic? && more[j].ReserveTopic? ==> more[i].topic != more[j].topic)
  {
    var t := w.glue.value.subs;
    CollectIs(t, w.now, topic, |t|);
    CollectDistinct(t, w.now, |t|);
    SendsCollected(Collect(t, w.now, |t|), ExecRetry(w, CollectPending(round), c).1, topic);
    assert forall i :: 0 <= i < |t| ==> (Needing(t, w.now, i, topic) <==> Due(t[i], topic, w.now));
  }

  lemma SendsCollected(ps: seq<Pending>, more: seq<Task>, topic: bytes)
    requires DistinctTopics(ps) && |more| >= |ps|
    requires forall j :: 0 <= j < |more| ==> if j < |ps| then more[j] == ReserveTopic(ps[j].topic, ps[j].qos) else more[j] == BackOff
    ensures var f := FindPending(ps, topic);
      && (Sends(more, topic) <==> f < |ps|)
      && (forall j :: 0 <= j < |more| && more[j].ReserveTopic? && more[j].topic == topic ==> f < |ps| && more[j].qos == ps[f].qos)
    ensures forall i, j :: 0 <= i < j < |more| && more[i].ReserveTopic? && more[j].ReserveTopic? ==> more[i].topic != more[j].topic
  {
    var f := FindPending(ps, topic);
    if f < |ps| {
      assert more[f].topic == topic;
    }
  }

  /** The first entry of its topic that needs a send does not merely await a SUBACK. */
  predicate Refused(t: Table, now: int, i: nat) {
    && i < |t| && t[i].Some? && (t[i].value.state == NotSubscribed || t[i].value.state == Failed)
    && forall k :: 0 <= k < i ==> !Due(t[k], t[i].value.topic, now)
  }

  lemma RefusedIsFirst(t: Table, now: int, topic: bytes, i: nat)
    requires i < |t| && OnTopic(t[i], topic)
    ensures Refused(t, now, i) <==> FirstNeeding(t, now, topic, |t|) == i && t[i].value.state != Requested
  {
    assert t[i].value.topic == topic;
    assert forall k :: 0 <= k < |t| ==> (Needing(t, now, k, topic) <==> Due(t[k], topic, now));
  }

  /** A round backs off exactly when it re-sends a topic that failed or was never requested; a round that
      only re-sends expired requests, and the pass after a connect, do not. */
  lemma RoundBacksOff(w: World, round: bool, c: Choice)
    requires w.glue.Some?
    ensures var t := w.glue.value.subs;
      BackOff in ExecRetry(w, CollectPending(round), c).1 <==> round && exists i :: 0 <= i < |t| && Refused(t, w.now, i)
  {
    var t, n := w.glue.value.subs, |w.glue.value.subs|;
    var ps := Collect(t, w.now, n);
    assert forall j :: 0 <= j < |ps| ==> SendTasks(ps)[j].ReserveTopic?;
    CollectDistinct(t, w.now, n);
    if Failing(ps) {
      var j :| 0 <= j < |ps| && !ps[j].noSuback;
      CollectIs(t, w.now, ps[j].topic, n);
      assert FindPending(ps, ps[j].topic) == j;
      RefusedIsFirst(t, w.now, ps[j].topic, FirstNeeding(t, w.now, ps[j].topic, n));
    }
    if i :| 0 <= i < n && Refused(t, w.now, i) {
      CollectIs(t, w.now, t[i].value.topic, n);
      RefusedIsFirst(t, w.now, t[i].value.topic, i);
      assert !ps[FindPending(ps, t[i].value.topic)].noSuback;
    }
  }
}
