/** Deinit quiescence: who is inside the instance, who frees it and when, in every run of the protocol. */
module MqttLifecycle {
  import opened Bytes
  import opened MqttTable
  import opened MqttRegions
  import opened MqttProtocol

  // ---------------------------------------------------------------- the shape of a todo list

  /** Which threads may have a task. */
  predicate Belongs(t: Thread, x: Task) {
    match x
    case Head(_) => t.Handler?
    case Handle(_) => t.Handler?
    case Callbacks => t.Handler?
    case ClientStop => t.Admin?
    case Disconnect => t.Admin?
    case ClientStart => t.Admin?
    case EndOp => t.App?
    case WaitBusy => t.App?
    case Destroy => t.App?
    case Free => t.App?
    case _ => true
  }

  predicate Closing(x: Task) { x.EndOp? || x.Free? }

  predicate IsEvent(x: Task) { x.Head? || x.Handle? }

  predicate DeinitOnly(x: Task) { x.StopTimer? || x.WaitBusy? || x.Destroy? }

  /** Between glue_begin_op() and glue_end_op(). */
  predicate IsOp(todo: seq<Task>) { todo != [] && todo[|todo| - 1].EndOp? }

  /** A deinit that set deleting and has not freed yet. */
  predicate IsDeinit(todo: seq<Task>) { todo != [] && todo[|todo| - 1].Free? }

  predicate ThreadOk(t: Thread, todo: seq<Task>) {
    && (forall i :: 0 <= i < |todo| ==> Belongs(t, todo[i]))
    && (forall i :: 0 < i < |todo| ==> !todo[i].StopTimer? && !todo[i].Disconnect?)
    && (forall i :: 0 <= i < |todo| - 1 ==> !Closing(todo[i]) && !IsEvent(todo[i]))
    && (t.App? && todo != [] ==> Closing(todo[|todo| - 1]))
    && (forall i :: 0 <= i < |todo| && t.App? && DeinitOnly(todo[i]) ==> IsDeinit(todo))
  }

  /** What a task may put in front of the rest of its thread's list. */
  predicate MoreOk(t: Thread, x: Task, more: seq<Task>) {
    && (forall i :: 0 <= i < |more| ==> Belongs(t, more[i]) && !Closing(more[i]))
    && (forall i :: 0 < i < |more| ==> !more[i].StopTimer? && !more[i].Disconnect?)
    && (forall i :: 0 <= i < |more| && t.App? ==> !DeinitOnly(more[i]))
    && (forall i :: 0 <= i < |more| && IsEvent(more[i]) ==> IsEvent(x) && i == |more| - 1)
    && (Closing(x) ==> more == [])
  }

  lemma ReleasesShape(out: seq<Release>)
    ensures forall i :: 0 <= i < |Releases(out)| ==> Releases(out)[i].SendUnsubscribe?
  {
  }

  lemma ExecMore(w: World, t: Thread, x: Task, c: Choice)
    requires w.glue.Some? && Sound(w.glue.value) && Belongs(t, x)
    ensures MoreOk(t, x, Exec(w, x, c).1)
  {
    if IsTable(x) {
      TableMore(w, t, x);
    } else if IsSend(x) {
      SendMore(w, t, x, c);
    } else if x.Handle? {
      EventMore(w, x.event);
    } else if IsRetry(x) {
      RetryMore(w, x, c);
    } else {
      OtherMore(w, t, x, c);
    }
  }

  lemma TableMore(w: World, t: Thread, x: Task)
    requires w.glue.Some? && IsTable(x)
    ensures MoreOk(t, x, ExecTable(w, x).1)
  {
    match x
    case SubscribeEntry(topic, cb, priv, qos) =>
      var out := Subscribe(w.glue.value, topic, cb, priv, qos).1;
      assert ExecTable(w, x).1 == if out.send.Some? then [ReserveTopic(topic, out.send.value), ScheduleRetry] else [];
    case UnsubscribeEntry(_) => PlainMore(t, x, ExecTable(w, x).1);
    case DetachAll =>
      ReleasesShape(UnsubscribeAll(w.glue.value).1);
      PlainMore(t, x, ExecTable(w, x).1);
  }

  lemma PlainMore(t: Thread, x: Task, more: seq<Task>)
    requires !Closing(x) && forall i :: 0 <= i < |more| ==> more[i].SendUnsubscribe?
    ensures MoreOk(t, x, more)
  {
  }

  lemma SendMore(w: World, t: Thread, x: Task, c: Choice)
    requires w.glue.Some? && IsSend(x)
    ensures MoreOk(t, x, ExecSend(w, x, c).1)
  {
  }

  lemma OtherMore(w: World, t: Thread, x: Task, c: Choice)
    requires w.glue.Some? && Sound(w.glue.value) && Belongs(t, x)
    requires IsOther(x)
    ensures MoreOk(t, x, ExecOther(w, x, c).1)
  {
  }

  lemma EventMore(w: World, e: Event)
    requires w.glue.Some? && Sound(w.glue.value)
    ensures MoreOk(Handler, Handle(e), ExecEvent(w, e).1)
  {
  }

  lemma RetryMore(w: World, x: Task, c: Choice)
    requires w.glue.Some? && IsRetry(x)
    ensures var more := ExecRetry(w, x, c).1;
      forall i :: 0 <= i < |more| ==> more[i].ReserveTopic? || more[i].BackOff? || more[i].ArmFlag?
  {
  }

  lemma RestOk(t: Thread, todo: seq<Task>, more: seq<Task>)
    requires todo != [] && ThreadOk(t, todo) && MoreOk(t, todo[0], more)
    ensures ThreadOk(t, more + todo[1..])
    ensures IsOp(more + todo[1..]) <==> IsOp(todo) && !todo[0].EndOp?
    ensures IsDeinit(more + todo[1..]) <==> IsDeinit(todo) && !todo[0].Free?
  {
    var next := more + todo[1..];
    assert forall i :: |more| <= i < |next| ==> next[i] == todo[i - |more| + 1];
    if |todo| == 1 {
      assert next == more;
    } else {
      assert next[|next| - 1] == todo[|todo| - 1];
    }
  }

  // ---------------------------------------------------------------- what a task does to the world

  predicate SameLedger(w: World, v: World) {
    v.deleter == w.deleter && v.inits == w.inits && v.deinits == w.deinits
  }

  predicate Keeps(w: World, v: World) {
    && SameLedger(w, v) && v.crashed == w.crashed && v.frees == w.frees && w.glue.Some? && v.glue.Some?
    && v.glue.value.deleting == w.glue.value.deleting && v.glue.value.busy == w.glue.value.busy
    && v.running == w.running
  }

  /** Apart from Free, a task keeps the instance and its deleting flag, and only EndOp changes busy; the
      client runs on unless stopped, and is started only by connect() and update_config(). */
  predicate Moves(w: World, x: Task, v: World) {
    && w.glue.Some? && SameLedger(w, v) && v.crashed == w.crashed
    && v.frees == w.frees + (if x.Free? then 1 else 0)
    && (x.Free? <==> v.glue.None?)
    && (!x.Free? ==> v.glue.value.deleting == w.glue.value.deleting)
    && (!x.Free? ==> v.glue.value.busy == w.glue.value.busy - (if x.EndOp? then 1 else 0))
    && (v.running && !w.running ==> x.ClientStart?)
    && (x.ClientStop? || x.Destroy? ==> !v.running)
  }

  lemma ExecMoves(w: World, x: Task, c: Choice)
    requires w.glue.Some? && Sound(w.glue.value)
    ensures Moves(w, x, Exec(w, x, c).0)
  {
    if x.Handle? {
      EventMoves(w, x.event, c);
    } else if IsRetry(x) {
      RetryMoves(w, x, c);
    } else if IsSend(x) {
      SendMoves(w, x, c);
    } else if IsTable(x) {
      TableMoves(w, x, c);
    } else {
      OtherMoves(w, x, c);
    }
  }

  lemma KeepsMoves(w: World, x: Task, v: World)
    requires Keeps(w, v) && !x.Free? && !x.EndOp? && !x.ClientStop? && !x.Destroy?
    ensures Moves(w, x, v)
  {
  }

  lemma EventMoves(w: World, e: Event, c: Choice)
    requires w.glue.Some? && Sound(w.glue.value)
    ensures Moves(w, Handle(e), Exec(w, Handle(e), c).0)
  {
    EventKeeps(w, e);
    KeepsMoves(w, Handle(e), ExecEvent(w, e).0);
  }

  lemma RetryMoves(w: World, x: Task, c: Choice)
    requires w.glue.Some? && Sound(w.glue.value) && IsRetry(x)
    ensures Moves(w, x, Exec(w, x, c).0)
  {
    RetryKeeps(w, x, c);
    KeepsMoves(w, x, ExecRetry(w, x, c).0);
  }

  lemma SendMoves(w: World, x: Task, c: Choice)
    requires w.glue.Some? && Sound(w.glue.value) && IsSend(x)
    ensures Moves(w, x, Exec(w, x, c).0)
  {
    SendKeeps(w, x, c);
    KeepsMoves(w, x, ExecSend(w, x, c).0);
  }

  lemma TableMoves(w: World, x: Task, c: Choice)
    requires w.glue.Some? && Sound(w.glue.value) && IsTable(x)
    ensures Moves(w, x, Exec(w, x, c).0)
  {
    TableKeeps(w, x);
    KeepsMoves(w, x, ExecTable(w, x).0);
  }

  lemma TableKeeps(w: World, x: Task)
    requires w.glue.Some? && IsTable(x)
    ensures Keeps(w, ExecTable(w, x).0)
  {
  }

  lemma SendKeeps(w: World, x: Task, c: Choice)
    requires w.glue.Some? && IsSend(x)
    ensures Keeps(w, ExecSend(w, x, c).0)
  {
  }

  lemma EventKeeps(w: World, e: Event)
    requires w.glue.Some? && Sound(w.glue.value)
    ensures Keeps(w, ExecEvent(w, e).0)
  {
  }

  lemma RetryKeeps(w: World, x: Task, c: Choice)
    requires w.glue.Some? && IsRetry(x)
    ensures Keeps(w, ExecRetry(w, x, c).0)
  {
  }

  lemma OtherMoves(w: World, x: Task, c: Choice)
    requires w.glue.Some? && Sound(w.glue.value) && IsOther(x)
    ensures Moves(w, x, Exec(w, x, c).0)
  {
  }

  // ---------------------------------------------------------------- counting

  function Inside(threads: map<Thread, seq<Task>>): set<Thread> {
    set t | t in threads && IsOp(threads[t])
  }

  lemma InsideAfter(threads: map<Thread, seq<Task>>, t: Thread, todo: seq<Task>)
    ensures |Inside(threads[t := todo])|
         == |Inside(threads)| - (if t in threads && IsOp(threads[t]) then 1 else 0) + (if IsOp(todo) then 1 else 0)
  {
    var was, now := Inside(threads), Inside(threads[t := todo]);
    InsideElsewhere(threads, t, todo);
    Removed(was, t);
    Removed(now, t);
    assert t in was <==> t in threads && IsOp(threads[t]);
    assert t in now <==> IsOp(todo);
  }

  lemma InsideElsewhere(threads: map<Thread, seq<Task>>, t: Thread, todo: seq<Task>)
    ensures Inside(threads) - {t} == Inside(threads[t := todo]) - {t}
  {
    forall u | u != t
      ensures u in Inside(threads) <==> u in Inside(threads[t := todo])
    {
    }
  }

  lemma Removed(s: set<Thread>, t: Thread)
    ensures |s - {t}| == |s| - (if t in s then 1 else 0)
  {
    if t !in s {
      assert s - {t} == s;
    }
  }

  // ---------------------------------------------------------------- the invariant

  predicate DeinitOk(s: State, t: Thread) {
    IsDeinit(Todo(s, t)) ==>
      && t.App? && s.w.glue.Some? && s.w.glue.value.deleting && s.w.deleter == Some(t)
      && (WaitBusy in Todo(s, t) || s.w.glue.value.busy == 0)
      && (Destroy in Todo(s, t) || (!s.w.running && Todo(s, Handler) == []))
  }

  /** A deinit under way is in the hands of exactly the thread that began it. */
  predicate DeleterOk(s: State) {
    s.w.glue.Some? && s.w.glue.value.deleting ==> s.w.deleter.Some? && IsDeinit(Todo(s, s.w.deleter.value))
  }

  /** connect(), disconnect() and update_config() run on a live instance; once they have stopped the client
      nothing is in the event handler. */
  predicate AdminOk(s: State) {
    var todo := Todo(s, Admin);
    && (todo != [] ==> s.w.glue.Some? && !s.w.glue.value.deleting)
    && (todo != [] && (todo[0].Disconnect? || todo[0].StopTimer?) ==> !s.w.running && Todo(s, Handler) == [])
  }

  /** Nobody is anywhere near a NULL instance. */
  predicate GoneOk(s: State) {
    s.w.glue.None? ==> !s.w.running && forall t :: t in s.threads ==> s.threads[t] == []
  }

  predicate BusyOk(s: State) {
    s.w.glue.Some? ==> s.w.glue.value.busy == |Inside(s.threads)|
  }

  predicate LedgerOk(w: World) {
    && w.inits == w.frees + (if w.glue.Some? then 1 else 0)
    && w.deinits == w.frees + (if w.glue.Some? && w.glue.value.deleting then 1 else 0)
    && !w.crashed
  }

  predicate Inv(s: State) {
    && (forall t :: t in s.threads ==> ThreadOk(t, s.threads[t]))
    && (forall t :: t in s.threads ==> DeinitOk(s, t))
    && DeleterOk(s) && AdminOk(s) && GoneOk(s) && BusyOk(s) && LedgerOk(s.w)
  }

  lemma NobodyInside(s: State, t: Thread)
    requires BusyOk(s) && s.w.glue.Some? && s.w.glue.value.busy == 0
    ensures !IsOp(Todo(s, t))
  {
    assert IsOp(Todo(s, t)) ==> t in Inside(s.threads);
  }

  /** When deinit frees the instance no other thread has anything left to do. */
  lemma AloneAtFree(s: State, t: Thread, u: Thread)
    requires Inv(s) && Todo(s, t) != [] && Todo(s, t)[0].Free? && u != t
    ensures Todo(s, u) == [] && Todo(s, t) == [Free] && !s.w.running
  {
    assert ThreadOk(t, s.threads[t]) && DeinitOk(s, t);
    assert |Todo(s, t)| == 1;
    if Todo(s, u) != [] {
      assert ThreadOk(u, s.threads[u]) && DeinitOk(s, u);
      NobodyInside(s, u);
    }
  }

  // ---------------------------------------------------------------- a thread runs its next task

  /** What an admin thread goes on to do is no timer stop unless the client was stopped just before. */
  lemma AdminMore(w: World, x: Task, c: Choice)
    requires w.glue.Some? && Sound(w.glue.value) && Belongs(Admin, x)
    ensures var (v, more) := Exec(w, x, c); more != [] && (more[0].Disconnect? || more[0].StopTimer?) ==>
      (x.ClientStop? && !v.running) || (x.Disconnect? && v.running == w.running)
  {
    if x.DetachAll? {
      ReleasesShape(UnsubscribeAll(w.glue.value).1);
    } else if IsRetry(x) {
      RetryMore(w, x, c);
    }
  }

  /** A thread did its next task: the world is v now, and more goes in front of its list. */
  predicate Goes(s: State, t: Thread, v: World, more: seq<Task>) {
    && Todo(s, t) != [] && s.w.glue.Some?
    && var x := Todo(s, t)[0];
      && MayRun(s, x, Choice(-1, true)) && Belongs(t, x) && MoreOk(t, x, more) && Moves(s.w, x, v)
      && (t.Admin? && more != [] && (more[0].Disconnect? || more[0].StopTimer?) ==>
            (x.ClientStop? && !v.running) || (x.Disconnect? && v.running == s.w.running))
  }

  function Gone(s: State, t: Thread, v: World, more: seq<Task>): State
    requires Todo(s, t) != []
  {
    Push(s, v, t, more + Todo(s, t)[1..])
  }

  lemma RunLive(s: State, t: Thread)
    requires GoneOk(s) && Todo(s, t) != []
    ensures s.w.glue.Some?
  {
  }

  lemma RunGoes(s: State, t: Thread, c: Choice)
    requires Ready(s.w) && Enabled(s, Run(t, c)) && Inv(s)
    ensures s.w.glue.Some?
    ensures var (v, more) := Exec(s.w, Todo(s, t)[0], c); Goes(s, t, v, more) && Apply(s, Run(t, c)) == Gone(s, t, v, more)
  {
    assert ThreadOk(t, s.threads[t]);
    ExecMore(s.w, t, Todo(s, t)[0], c);
    ExecMoves(s.w, Todo(s, t)[0], c);
    if t.Admin? {
      AdminMore(s.w, Todo(s, t)[0], c);
    }
  }

  lemma RunBusy(s: State, t: Thread, v: World, more: seq<Task>)
    requires Inv(s) && Goes(s, t, v, more)
    ensures var r := Gone(s, t, v, more); ThreadOk(t, r.threads[t]) && BusyOk(r) && LedgerOk(r.w)
  {
    var todo := Todo(s, t);
    assert ThreadOk(t, s.threads[t]) && DeinitOk(s, t);
    RestOk(t, todo, more);
    InsideAfter(s.threads, t, more + todo[1..]);
    assert Closing(todo[0]) ==> |todo| == 1;
  }

  lemma RunGone(s: State, t: Thread, v: World, more: seq<Task>)
    requires Inv(s) && Goes(s, t, v, more)
    ensures GoneOk(Gone(s, t, v, more)) && DeleterOk(Gone(s, t, v, more))
  {
    var todo := Todo(s, t);
    assert ThreadOk(t, s.threads[t]) && DeinitOk(s, t);
    RestOk(t, todo, more);
    if todo[0].Free? {
      forall u | u in s.threads && u != t
        ensures s.threads[u] == []
      {
        AloneAtFree(s, t, u);
      }
      assert |todo| == 1 && !s.w.running;
    }
  }

  /** The thread that runs is itself the deinit. */
  lemma RunDeinitOwn(s: State, t: Thread, v: World, more: seq<Task>)
    requires Inv(s) && Goes(s, t, v, more)
    ensures DeinitOk(Gone(s, t, v, more), t)
  {
    if IsDeinit(more + Todo(s, t)[1..]) {
      StillDeinit(s, t, v, more);
      StillThere(Todo(s, t), more, WaitBusy);
      StillThere(Todo(s, t), more, Destroy);
    }
  }

  lemma StillDeinit(s: State, t: Thread, v: World, more: seq<Task>)
    requires Inv(s) && Goes(s, t, v, more) && IsDeinit(more + Todo(s, t)[1..])
    ensures var todo := Todo(s, t);
      && t.App? && v.glue.Some? && v.glue.value.deleting && v.deleter == Some(t)
      && ((WaitBusy in todo && todo[0] != WaitBusy) || v.glue.value.busy == 0)
      && ((Destroy in todo && todo[0] != Destroy) || (!v.running && Todo(s, Handler) == []))
  {
    WasDeinit(s, t, v, more);
    assert DeinitOk(s, t);
  }

  lemma WasDeinit(s: State, t: Thread, v: World, more: seq<Task>)
    requires Inv(s) && Goes(s, t, v, more) && IsDeinit(more + Todo(s, t)[1..])
    ensures IsDeinit(Todo(s, t)) && !Todo(s, t)[0].Free? && !Todo(s, t)[0].EndOp? && !Todo(s, t)[0].ClientStart?
  {
    assert ThreadOk(t, s.threads[t]) && DeinitOk(s, t);
    RestOk(t, Todo(s, t), more);
  }

  lemma StillThere(todo: seq<Task>, more: seq<Task>, y: Task)
    requires todo != []
    ensures y in todo ==> y == todo[0] || y in more + todo[1..]
  {
  }

  /** The thread that runs is not the deinit. */
  lemma RunDeinitOther(s: State, t: Thread, v: World, more: seq<Task>, u: Thread)
    requires Inv(s) && Goes(s, t, v, more) && u != t && u in s.threads
    ensures DeinitOk(Gone(s, t, v, more), u)
  {
    assert DeinitOk(s, u);
    if IsDeinit(Todo(s, u)) {
      NotClosing(s, t, u);
    }
  }

  /** Beside a deinit nobody frees, nothing is inside once it stopped waiting, no administrative call runs. */
  lemma NotClosing(s: State, t: Thread, u: Thread)
    requires Inv(s) && Todo(s, t) != [] && u != t && u in s.threads && IsDeinit(Todo(s, u))
    ensures var x := Todo(s, t)[0];
      && !x.Free? && !x.ClientStart?
      && (WaitBusy in Todo(s, u) || !x.EndOp?)
      && (Destroy in Todo(s, u) || t != Handler)
  {
    assert ThreadOk(t, s.threads[t]) && DeinitOk(s, t) && DeinitOk(s, u);
    var todo := Todo(s, t);
    assert Closing(todo[0]) ==> |todo| == 1;
    if s.w.glue.value.busy == 0 {
      NobodyInside(s, t);
    }
  }

  lemma RunAdmin(s: State, t: Thread, v: World, more: seq<Task>)
    requires Inv(s) && Goes(s, t, v, more)
    ensures AdminOk(Gone(s, t, v, more))
  {
    var todo := Todo(s, t);
    assert ThreadOk(t, s.threads[t]) && DeinitOk(s, t);
    if todo[0].Free? {
      AloneAtFree(s, t, Admin);
    } else if t == Admin {
      AdminNext(todo, more);
    }
  }

  /** An admin thread's next task is what it has just been given or no timer stop. */
  lemma AdminNext(todo: seq<Task>, more: seq<Task>)
    requires todo != [] && ThreadOk(Admin, todo)
    ensures var next := more + todo[1..];
      next != [] && (next[0].Disconnect? || next[0].StopTimer?) ==> more != [] && next[0] == more[0]
  {
  }

  lemma RunKeeps(s: State, t: Thread, c: Choice)
    requires Ready(s.w) && Enabled(s, Run(t, c)) && Inv(s)
    ensures Inv(Apply(s, Run(t, c)))
  {
    RunGoes(s, t, c);
    var (v, more) := Exec(s.w, Todo(s, t)[0], c);
    GoesKeeps(s, t, v, more);
  }

  lemma GoesKeeps(s: State, t: Thread, v: World, more: seq<Task>)
    requires Inv(s) && Goes(s, t, v, more)
    ensures Inv(Gone(s, t, v, more))
  {
    var r := Gone(s, t, v, more);
    RunBusy(s, t, v, more);
    RunGone(s, t, v, more);
    RunAdmin(s, t, v, more);
    RunDeinitOwn(s, t, v, more);
    forall u | u in r.threads && u != t
      ensures ThreadOk(u, r.threads[u]) && DeinitOk(r, u)
    {
      RunDeinitOther(s, t, v, more, u);
    }
  }

  // ---------------------------------------------------------------- the other steps

  /** An idle thread takes up a list of tasks. */
  lemma IdlePush(s: State, w: World, t: Thread, todo: seq<Task>, u: Thread)
    requires Inv(s) && Todo(s, t) == [] && ThreadOk(t, todo) && u in Push(s, w, t, todo).threads
    requires w.glue.Some? && s.w.glue.Some? && w.running == s.w.running && t != Handler
    requires w.glue.value.deleting == s.w.glue.value.deleting && w.deleter == s.w.deleter
    requires w.glue.value.deleting ==> w.glue.value.busy == s.w.glue.value.busy
    requires !IsDeinit(todo)
    ensures ThreadOk(u, Push(s, w, t, todo).threads[u]) && DeinitOk(Push(s, w, t, todo), u)
  {
    if u != t {
      assert u in s.threads && ThreadOk(u, s.threads[u]) && DeinitOk(s, u);
    }
  }

  lemma BeginKeeps(s: State, t: Thread, op: Op)
    requires Ready(s.w) && Enabled(s, Begin(t, op)) && Inv(s)
    ensures Inv(Apply(s, Begin(t, op)))
  {
    if s.w.glue.Some? && !s.w.glue.value.deleting {
      BeginEnters(s, t, op);
    } else {
      BeginRefused(s, t, op);
    }
  }

  lemma OpTasksOk(t: Thread, op: Op)
    requires t.App?
    ensures ThreadOk(t, OpTasks(op)) && !IsDeinit(OpTasks(op)) && IsOp(OpTasks(op))
  {
  }

  lemma BeginEnters(s: State, t: Thread, op: Op)
    requires Ready(s.w) && Enabled(s, Begin(t, op)) && Inv(s) && s.w.glue.Some? && !s.w.glue.value.deleting
    ensures Inv(Apply(s, Begin(t, op)))
  {
    var r := Apply(s, Begin(t, op));
    OpTasksOk(t, op);
    InsideAfter(s.threads, t, OpTasks(op));
    forall u | u in r.threads
      ensures ThreadOk(u, r.threads[u]) && DeinitOk(r, u)
    {
      IdlePush(s, r.w, t, OpTasks(op), u);
    }
  }

  lemma BeginRefused(s: State, t: Thread, op: Op)
    requires Ready(s.w) && Enabled(s, Begin(t, op)) && Inv(s) && (s.w.glue.Some? ==> s.w.glue.value.deleting)
    ensures Inv(Apply(s, Begin(t, op)))
  {
    var r := Apply(s, Begin(t, op));
    forall u | u in r.threads
      ensures DeinitOk(r, u)
    {
      assert DeinitOk(s, u);
    }
  }

  lemma DeliverKeeps(s: State, e: Event)
    requires Ready(s.w) && Enabled(s, Deliver(e)) && Inv(s)
    ensures Inv(Apply(s, Deliver(e)))
  {
    var r := Apply(s, Deliver(e));
    InsideAfter(s.threads, Handler, [Head(e)]);
    forall u | u in r.threads
      ensures ThreadOk(u, r.threads[u]) && DeinitOk(r, u)
    {
      if u != Handler {
        assert ThreadOk(u, s.threads[u]) && DeinitOk(s, u);
      }
    }
  }

  lemma CallKeeps(s: State, call: AdminCall)
    requires Ready(s.w) && Enabled(s, Call(call)) && Inv(s)
    ensures Inv(Apply(s, Call(call)))
  {
    var r := Apply(s, Call(call));
    InsideAfter(s.threads, Admin, CallTasks(call));
    if s.w.glue.Some? {
      forall u | u in r.threads
        ensures ThreadOk(u, r.threads[u]) && DeinitOk(r, u)
      {
        IdlePush(s, s.w, Admin, CallTasks(call), u);
      }
    }
  }

  lemma DeinitTasksOk(t: Thread)
    requires t.App?
    ensures ThreadOk(t, DEINIT_TASKS) && IsDeinit(DEINIT_TASKS) && !IsOp(DEINIT_TASKS)
    ensures WaitBusy in DEINIT_TASKS && Destroy in DEINIT_TASKS
  {
    assert WaitBusy == DEINIT_TASKS[1] && Destroy == DEINIT_TASKS[3];
  }

  /** The deleting flag lets exactly one deinit through. */
  lemma DeinitKeeps(s: State, t: Thread)
    requires Ready(s.w) && Enabled(s, Deinit(t)) && Inv(s)
    ensures Inv(Apply(s, Deinit(t)))
  {
    var r := Apply(s, Deinit(t));
    if s.w.glue.Some? && !s.w.glue.value.deleting {
      InsideAfter(s.threads, t, DEINIT_TASKS);
      DeinitTasksOk(t);
      forall u | u in r.threads && u != t
        ensures ThreadOk(u, r.threads[u]) && DeinitOk(r, u)
      {
        assert ThreadOk(u, s.threads[u]) && DeinitOk(s, u);
      }
    }
  }

  lemma InitKeeps(s: State, slots: nat)
    requires Ready(s.w) && Enabled(s, Init(slots)) && Inv(s)
    ensures Inv(Apply(s, Init(slots)))
  {
    assert Inside(s.threads) == {};
  }

  lemma QuietKeeps(s: State, l: Label)
    requires Ready(s.w) && Enabled(s, l) && Inv(s) && (l.Answer? || l.Fire? || l.Tick?)
    ensures Inv(Apply(s, l))
  {
    var r := Apply(s, l);
    forall u | u in r.threads
      ensures DeinitOk(r, u)
    {
      assert DeinitOk(s, u);
    }
  }

  lemma StepKeeps(s: State, l: Label)
    requires Ready(s.w) && Enabled(s, l) && Inv(s)
    ensures Inv(Apply(s, l))
  {
    match l
    case Begin(t, op) => BeginKeeps(s, t, op);
    case Run(t, c) => RunKeeps(s, t, c);
    case Deliver(e) => DeliverKeeps(s, e);
    case Init(slots) => InitKeeps(s, slots);
    case Deinit(t) => DeinitKeeps(s, t);
    case Call(call) => CallKeeps(s, call);
    case _ => QuietKeeps(s, l);
  }

  lemma {:induction false} Reached(s: State, ls: seq<Label>)
    requires Ready(s.w) && Inv(s) && IsRun(s, ls)
    ensures Inv(After(s, ls))
    decreases |ls|
  {
    if ls != [] {
      StepKeeps(s, ls[0]);
      Reached(Apply(s, ls[0]), ls[1..]);
    }
  }

  // ---------------------------------------------------------------- what follows for every run

  /** busy counts the operations between begin and end, mqtt_data is never used while NULL, and every
      instance ever made is live or was freed once, by one of as many deinits that got past the flag. */
  lemma Quiescence(ls: seq<Label>)
    requires IsRun(Start(), ls)
    ensures var s := After(Start(), ls);
      && (s.w.glue.Some? ==> s.w.glue.value.busy == |Inside(s.threads)|)
      && !s.w.crashed
      && s.w.inits == s.w.frees + (if s.w.glue.Some? then 1 else 0)
      && s.w.deinits == s.w.frees + (if s.w.glue.Some? && s.w.glue.value.deleting then 1 else 0)
  {
    Reached(Start(), ls);
  }

  /** The instance is freed only by the deinit that set deleting, when no operation is inside, no event is
      being handled, no other thread has anything left to do and the client is down. */
  lemma FreedAlone(ls: seq<Label>, t: Thread, c: Choice, u: Thread)
    requires IsRun(Start(), ls) && Enabled(After(Start(), ls), Run(t, c)) && Todo(After(Start(), ls), t)[0].Free?
    requires u != t
    ensures var s := After(Start(), ls);
      && s.w.deleter == Some(t) && s.w.glue.Some? && s.w.glue.value.deleting && s.w.glue.value.busy == 0
      && Todo(s, u) == [] && Inside(s.threads) == {} && !s.w.running
      && Apply(s, Run(t, c)).w.glue == None
  {
    Reached(Start(), ls);
    var s := After(Start(), ls);
    assert ThreadOk(t, s.threads[t]) && DeinitOk(s, t);
    AloneAtFree(s, t, u);
  }

  // ---------------------------------------------------------------- once deleting is set, until the next init

  predicate NoInit(ls: seq<Label>) { forall i :: 0 <= i < |ls| ==> !ls[i].Init? }

  lemma RunInside(s: State, t: Thread, c: Choice)
    requires Ready(s.w) && Enabled(s, Run(t, c)) && Inv(s)
    ensures Inside(Apply(s, Run(t, c)).threads) <= Inside(s.threads)
    ensures Apply(s, Run(t, c)).w.glue.Some? ==> Apply(s, Run(t, c)).w.glue.value.deleting == s.w.glue.value.deleting
  {
    RunGoes(s, t, c);
    assert ThreadOk(t, s.threads[t]);
    RestOk(t, Todo(s, t), Exec(s.w, Todo(s, t)[0], c).1);
  }

  predicate Down(s: State) { s.w.glue.Some? ==> s.w.glue.value.deleting }

  lemma DownStep(s: State, l: Label)
    requires Ready(s.w) && Enabled(s, l) && Inv(s) && Down(s) && !l.Init?
    ensures Down(Apply(s, l)) && Inside(Apply(s, l).threads) <= Inside(s.threads)
    ensures s.w.glue.None? ==> Apply(s, l).w.glue.None? && Apply(s, l).threads == s.threads
  {
    match l
    case Run(t, c) => RunInside(s, t, c);
    case _ =>
  }

  /** Once deleting is set no operation begins: until the next init, whatever runs, only threads that were
      inside then are inside later. */
  lemma {:induction false} NoneBeginsWhileDeleting(s: State, ls: seq<Label>)
    requires Ready(s.w) && Inv(s) && Down(s) && IsRun(s, ls) && NoInit(ls)
    ensures Down(After(s, ls)) && Inside(After(s, ls).threads) <= Inside(s.threads)
    decreases |ls|
  {
    if ls != [] {
      DownStep(s, ls[0]);
      StepKeeps(s, ls[0]);
      NoneBeginsWhileDeleting(Apply(s, ls[0]), ls[1..]);
    }
  }

  /** After the free, retry rounds that the timer and the work queue still run, and whatever else is called
      before the next init, touch nothing: there is no instance and no thread ever gets a task. */
  lemma {:induction false} LateRoundTouchesNothing(s: State, ls: seq<Label>)
    requires Ready(s.w) && Inv(s) && s.w.glue.None? && IsRun(s, ls) && NoInit(ls)
    ensures var r := After(s, ls); r.w.glue.None? && r.threads == s.threads && !r.w.crashed
    decreases |ls|
  {
    if ls != [] {
      DownStep(s, ls[0]);
      StepKeeps(s, ls[0]);
      LateRoundTouchesNothing(Apply(s, ls[0]), ls[1..]);
    }
  }
}
