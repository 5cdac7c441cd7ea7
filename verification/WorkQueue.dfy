/** work_queue.c: a worker task, producers, and the control calls start, stop and deinit. Every step is one
    access to the shared state, so the tasks interleave freely between them. External control calls are
    serialised by their caller; a work item may make control calls of its own from inside the worker. */
module WorkQueue {

  datatype QueueState = InitDone | Running | StopRequested

  /** A work function with its argument, or the entry stop posts to wake the worker. */
  datatype Entry = Wake | Work(item: int)

  /** Where the worker is: its state check, the blocking and the non-blocking receive, a work function, the
      INIT_DONE write, the suspend call; Parked is suspended. */
  datatype Worker = NoTask | CheckState | Receive | RunItem(item: int) | Drain | WriteInit | Suspending | Parked

  datatype Api = Start | Stop | Deinit

  /** Where a control call is. */
  datatype Call =
    | NoCall
    | StartRead                   // state == RUNNING?
    | StartTask                   // handles.task? own worker?
    | Create | SetRunningNew      // first start
    | StopRead(deinit: bool) | StopWrite(deinit: bool) | StopWake(deinit: bool)
    | DeinitCheck                 // own worker?
    | WaitState(deinit: bool) | WaitParked(deinit: bool)
    | SetRunning | Resume         // start's ending
    | DeleteTask | FreeQueue      // deinit's ending

  /** accepted, ran and lastEmpty are history: what was enqueued, what finished, and how much had been
      accepted when the worker last found the queue empty. created counts worker tasks. */
  datatype State = State(size: nat, state: QueueState, queue: seq<Entry>, worker: Worker, outside: Call, inside: Call,
                         freed: bool, created: nat, accepted: seq<int>, ran: seq<int>, lastEmpty: nat)

  datatype Label =
    | Add(item: int)
    | Proceed                     // the worker's next step
    | Control(own: bool)          // the next step of the external call, or of the work item's own
    | Begin(own: bool, api: Api)

  function Init(size: nat): State { State(size, InitDone, [], NoTask, NoCall, NoCall, false, 0, [], [], 0) }

  // ---------------------------------------------------------------- the worker

  /** After a receive: the entry taken. */
  function Taken(s: State): State
    requires s.queue != []
  {
    var e := s.queue[0];
    s.(queue := s.queue[1..], worker := if e.Work? then RunItem(e.item) else Drain)
  }

  predicate WorkerReady(s: State) {
    match s.worker
    case NoTask => false
    case Parked => false
    case RunItem(_) => s.inside == NoCall
    case _ => true
  }

  function WorkerStep(s: State): State
    requires WorkerReady(s)
  {
    match s.worker
    case CheckState => s.(worker := if s.state == StopRequested then WriteInit else Receive)
    case Receive => if s.queue == [] then s.(worker := CheckState, lastEmpty := |s.accepted|) else Taken(s)
    case RunItem(item) => s.(worker := Drain, ran := s.ran + [item])
    case Drain => if s.queue == [] then s.(worker := CheckState, lastEmpty := |s.accepted|) else Taken(s)
    case WriteInit => s.(state := InitDone, worker := Suspending)
    case Suspending => s.(worker := Parked)
  }

  // ---------------------------------------------------------------- control calls

  function CallOf(s: State, own: bool): Call { if own then s.inside else s.outside }

  function At(s: State, own: bool, c: Call): State { if own then s.(inside := c) else s.(outside := c) }

  /** xQueueSend(..., 0). */
  function Posted(s: State, e: Entry): State {
    if |s.queue| < s.size then s.(queue := s.queue + [e]) else s
  }

  function AfterStop(deinit: bool): Call { if deinit then WaitState(true) else NoCall }

  /** One step of a control call; the two waits spin. */
  function CallStep(s: State, own: bool): State {
    match CallOf(s, own)
    case NoCall => s
    case StartRead => At(s, own, if s.state == Running then NoCall else StartTask)
    case StartTask =>
      if s.worker != NoTask then At(s, own, if own then NoCall else WaitState(false))
      else At(s, own, if s.state != InitDone then NoCall else Create)
    case Create => At(s, own, SetRunningNew).(worker := CheckState, created := s.created + 1)
    case SetRunningNew => At(s, own, NoCall).(state := Running)
    case StopRead(deinit) => At(s, own, if s.state == Running then StopWrite(deinit) else AfterStop(deinit))
    case StopWrite(deinit) => At(s, own, StopWake(deinit)).(state := StopRequested)
    case StopWake(deinit) => Posted(At(s, own, AfterStop(deinit)), Wake)
    case DeinitCheck => At(s, own, if own then NoCall else StopRead(true))
    case WaitState(deinit) =>
      if s.state == StopRequested then s
      else At(s, own, if s.worker != NoTask then WaitParked(deinit) else if deinit then DeleteTask else SetRunning)
    case WaitParked(deinit) => if s.worker != Parked then s else At(s, own, if deinit then DeleteTask else SetRunning)
    case SetRunning => At(s, own, Resume).(state := Running)
    case Resume => At(s, own, NoCall).(worker := if s.worker == Parked then CheckState else s.worker)
    case DeleteTask => At(s, own, FreeQueue).(worker := NoTask)
    case FreeQueue => At(s, own, NoCall).(freed := true)
  }

  function FirstStep(api: Api): Call {
    match api
    case Start => StartRead
    case Stop => StopRead(false)
    case Deinit => DeinitCheck
  }

  // ---------------------------------------------------------------- runs

  predicate Enabled(s: State, l: Label) {
    match l
    case Add(_) => !s.freed && s.outside != FreeQueue
    case Proceed => WorkerReady(s)
    case Control(own) => CallOf(s, own) != NoCall
    case Begin(own, _) => !s.freed && CallOf(s, own) == NoCall && (own ==> s.worker.RunItem?)
  }

  function Apply(s: State, l: Label): State
    requires Enabled(s, l)
  {
    match l
    case Add(item) =>
      if |s.queue| < s.size then s.(queue := s.queue + [Work(item)], accepted := s.accepted + [item]) else s
    case Proceed => WorkerStep(s)
    case Control(own) => CallStep(s, own)
    case Begin(own, api) => At(s, own, FirstStep(api))
  }

  predicate IsRun(s: State, ls: seq<Label>)
    decreases |ls|
  {
    ls == [] || (Enabled(s, ls[0]) && IsRun(Apply(s, ls[0]), ls[1..]))
  }

  function After(s: State, ls: seq<Label>): State
    requires IsRun(s, ls)
    decreases |ls|
  {
    if ls == [] then s else After(Apply(s, ls[0]), ls[1..])
  }

  // ---------------------------------------------------------------- conservation

  /** The work items among the entries. */
  function Items(q: seq<Entry>): seq<int> {
    if q == [] then [] else (if q[0].Work? then [q[0].item] else []) + Items(q[1..])
  }

  lemma ItemsSnoc(q: seq<Entry>, e: Entry)
    ensures Items(q + [e]) == Items(q) + (if e.Work? then [e.item] else [])
  {
    if q == [] {
      assert q + [e] == [e];
    } else {
      assert (q + [e])[1..] == q[1..] + [e];
      ItemsSnoc(q[1..], e);
    }
  }

  function Current(w: Worker): seq<int> { if w.RunItem? then [w.item] else [] }

  predicate Idle(w: Worker) { w.NoTask? || w.CheckState? || w.WriteInit? || w.Suspending? || w.Parked? }

  predicate Conserved(s: State) {
    && s.accepted == s.ran + Current(s.worker) + Items(s.queue)
    && |s.queue| <= s.size
    && s.lastEmpty <= |s.accepted|
    && (Idle(s.worker) ==> s.ran == s.accepted[..s.lastEmpty])
  }

  // ---------------------------------------------------------------- what every run keeps

  /** A work item's own calls never wait, create, resume or delete. */
  predicate NeverWaits(c: Call) {
    c.NoCall? || c.StartRead? || c.StartTask? || c == StopRead(false) || c == StopWrite(false) || c == StopWake(false) || c.DeinitCheck?
  }

  predicate Base(s: State) {
    && (s.inside != NoCall ==> s.worker.RunItem?) && NeverWaits(s.inside)
    && (s.outside.Create? ==> s.worker.NoTask?)
    && (s.outside.SetRunning? || s.outside.Resume? ==> s.worker.Parked?)
    && (s.outside.DeleteTask? ==> s.worker.Parked? || s.worker.NoTask?)
    && (s.outside.SetRunningNew? || s.outside.StopWrite? || s.outside.WaitParked? || s.outside == WaitState(false) ==>
          !s.worker.NoTask?)
    && (s.outside.FreeQueue? ==> s.worker.NoTask?)
    && (s.freed ==> s.outside.NoCall? && s.worker.NoTask?)
    && s.created <= 1 && (s.worker.NoTask? && !s.outside.FreeQueue? && !s.freed ==> s.created == 0)
    && (!s.worker.NoTask? ==> s.created == 1) && (s.created == 0 ==> s.state == InitDone)
  }

  lemma TakenConserved(s: State)
    requires Conserved(s) && s.queue != [] && Current(s.worker) == []
    ensures Conserved(Taken(s))
  {
    var e := s.queue[0];
    assert Items(s.queue) == (if e.Work? then [e.item] else []) + Items(s.queue[1..]);
  }

  lemma WorkerConserved(s: State)
    requires Conserved(s) && WorkerReady(s)
    ensures Conserved(WorkerStep(s))
  {
    if (s.worker.Receive? || s.worker.Drain?) && s.queue != [] {
      TakenConserved(s);
    }
  }

  lemma CallConserved(s: State, own: bool)
    requires Conserved(s) && Base(s)
    ensures Conserved(CallStep(s, own))
  {
    if CallOf(s, own).StopWake? {
      ItemsSnoc(s.queue, Wake);
    } else {
      CallKeepsWork(s, own);
    }
  }

  /** Apart from posting the wake entry, a control call only moves a worker that has no item in hand. */
  lemma CallKeepsWork(s: State, own: bool)
    requires Base(s) && !CallOf(s, own).StopWake?
    ensures var r := CallStep(s, own);
      && r.queue == s.queue && r.accepted == s.accepted && r.ran == s.ran && r.size == s.size && r.lastEmpty == s.lastEmpty
      && (r.worker == s.worker || (Idle(r.worker) && Idle(s.worker)))
  {
  }

  lemma StepConserved(s: State, l: Label)
    requires Enabled(s, l) && Conserved(s) && Base(s)
    ensures Conserved(Apply(s, l))
  {
    match l
    case Proceed => WorkerConserved(s);
    case Control(own) => CallConserved(s, own);
    case Add(item) => ItemsSnoc(s.queue, Entry.Work(item));
    case Begin(_, _) =>
  }

  lemma StepBase(s: State, l: Label)
    requires Enabled(s, l) && Base(s)
    ensures Base(Apply(s, l))
  {
    match l
    case Control(own) => CallBase(s, own);
    case _ =>
  }

  lemma CallBase(s: State, own: bool)
    requires Base(s) && CallOf(s, own) != NoCall
    ensures Base(CallStep(s, own))
  {
    if own {
      OwnCallBase(s);
    }
  }

  lemma OwnCallBase(s: State)
    requires Base(s) && s.inside != NoCall
    ensures Base(CallStep(s, true))
  {
  }

  lemma {:induction false} Reached(s: State, ls: seq<Label>)
    requires Conserved(s) && Base(s) && IsRun(s, ls)
    ensures Conserved(After(s, ls)) && Base(After(s, ls))
    decreases |ls|
  {
    if ls != [] {
      StepConserved(s, ls[0]);
      StepBase(s, ls[0]);
      Reached(Apply(s, ls[0]), ls[1..]);
    }
  }

  /** In every reachable state the accepted items, in order, are those that ran, then the one running, then
      those queued; wake entries count against the size but are no work. */
  lemma Conservation(size: nat, ls: seq<Label>)
    requires IsRun(Init(size), ls)
    ensures var s := After(Init(size), ls);
      && s.accepted == s.ran + Current(s.worker) + Items(s.queue)
      && |s.queue| <= size
  {
    Reached(Init(size), ls);
    SizeFixed(Init(size), ls);
  }

  lemma {:induction false} SizeFixed(s: State, ls: seq<Label>)
    requires IsRun(s, ls)
    ensures After(s, ls).size == s.size
    decreases |ls|
  {
    if ls != [] {
      SizeFixed(Apply(s, ls[0]), ls[1..]);
    }
  }

  /** A stop does not drain the queue: whenever the worker is parked, exactly the items accepted before it
      last found the queue empty have run. */
  lemma ParkedAfterDrain(size: nat, ls: seq<Label>)
    requires IsRun(Init(size), ls) && After(Init(size), ls).worker.Parked?
    ensures var s := After(Init(size), ls);
      s.lastEmpty <= |s.accepted| && s.ran == s.accepted[..s.lastEmpty] && Items(s.queue) == s.accepted[s.lastEmpty..]
  {
    Reached(Init(size), ls);
  }

  /** One worker task serves the queue for its life; it is resumed or deleted only while suspended; a work
      item's own start, stop or deinit never waits for the worker it runs in. */
  lemma OneWorker(size: nat, ls: seq<Label>)
    requires IsRun(Init(size), ls)
    ensures var s := After(Init(size), ls);
      && s.created <= 1
      && (s.outside.SetRunning? || s.outside.Resume? ==> s.worker.Parked?)
      && (s.outside.DeleteTask? && !s.worker.NoTask? ==> s.worker.Parked?)
      && NeverWaits(s.inside)
  {
    Reached(Init(size), ls);
  }

  // ---------------------------------------------------------------- start and stop

  predicate Active(w: Worker) { w.CheckState? || w.Receive? || w.RunItem? || w.Drain? }

  /** How the state field follows the worker and the control calls. */
  predicate Orderly(s: State) {
    && (s.worker.WriteInit? ==> s.state == StopRequested)
    && (s.worker.Suspending? ==> s.state == InitDone)
    && (s.worker.Parked? ==> s.state == (if s.outside.Resume? then Running else InitDone))
    && (Active(s.worker) ==> (s.state == InitDone <==> s.outside.SetRunningNew?))
    && (s.outside.SetRunningNew? ==> Active(s.worker))
    && (s.outside.StartTask? || s.outside.WaitState? || s.outside.WaitParked? || s.outside.StopWake? ==> s.state != Running)
    && (s.outside.WaitParked? || s.outside.SetRunning? || s.outside.DeleteTask? || s.outside.Create? ==> s.state == InitDone)
    && (s.inside.StopWrite? ==> s.state != InitDone)
    && (s.outside.FreeQueue? || s.freed ==> s.state == InitDone)
  }

  /** The one thing that goes wrong: an outside stop writes STOP_REQUESTED over the worker's INIT_DONE. */
  predicate Timely(s: State, l: Label) {
    l == Control(false) && s.outside.StopWrite? ==> s.state != InitDone
  }

  /** A worker parked for good: start and deinit wait for a state that nothing will write. */
  predicate Stuck(s: State) {
    && s.state == StopRequested && (s.worker.Suspending? || s.worker.Parked?) && s.inside.NoCall? && !s.freed
    && (s.outside.NoCall? || s.outside.StartRead? || s.outside.StartTask? || s.outside.StopRead? || s.outside.StopWake?
        || s.outside.DeinitCheck? || s.outside.WaitState?)
  }

  lemma OrderlyWorker(s: State)
    requires Base(s) && Orderly(s) && WorkerReady(s)
    ensures Orderly(WorkerStep(s))
  {
  }

  lemma OrderlyInside(s: State)
    requires Base(s) && Orderly(s) && s.inside != NoCall
    ensures Orderly(CallStep(s, true))
  {
  }

  lemma OrderlyOutside(s: State)
    requires Base(s) && Orderly(s) && s.outside != NoCall && Timely(s, Control(false))
    ensures Orderly(CallStep(s, false))
  {
  }

  lemma StepOrderly(s: State, l: Label)
    requires Enabled(s, l) && Base(s) && Orderly(s) && Timely(s, l)
    ensures Orderly(Apply(s, l))
  {
    match l
    case Proceed => OrderlyWorker(s);
    case Control(own) =>
      if own {
        OrderlyInside(s);
      } else {
        OrderlyOutside(s);
      }
    case _ =>
  }

  lemma LateStopSticks(s: State)
    requires Base(s) && Orderly(s) && s.outside.StopWrite? && s.state == InitDone
    ensures Stuck(CallStep(s, false))
  {
  }

  lemma StuckStep(s: State, l: Label)
    requires Enabled(s, l) && Base(s) && Stuck(s)
    ensures Stuck(Apply(s, l)) && Apply(s, l).ran == s.ran
  {
  }

  predicate TimelyRun(s: State, ls: seq<Label>)
    requires IsRun(s, ls)
    decreases |ls|
  {
    ls == [] || (Timely(s, ls[0]) && TimelyRun(Apply(s, ls[0]), ls[1..]))
  }

  /** An outside start or deinit that has not returned, short of its last steps. */
  predicate Waiting(c: Call) {
    c.StartRead? || c.StartTask? || c.DeinitCheck? || c == StopRead(true) || c == StopWake(true) || c.WaitState?
  }

  lemma WaitsOn(s: State, l: Label)
    requires Enabled(s, l) && Base(s) && Stuck(s)
    ensures Waiting(s.outside) || l == Begin(false, Start) || l == Begin(false, Deinit) ==> Waiting(Apply(s, l).outside)
  {
  }

  /** Once stuck, always stuck: no further item ever runs, and an outside start or deinit, whether already
      under way or begun later, never returns nor gets to resume, delete or free anything. */
  lemma {:induction false} StuckForGood(s: State, ls: seq<Label>)
    requires Base(s) && Stuck(s) && IsRun(s, ls)
    ensures Stuck(After(s, ls)) && After(s, ls).ran == s.ran
    ensures Waiting(s.outside) ==> Waiting(After(s, ls).outside)
    ensures ls != [] && (ls[0] == Begin(false, Start) || ls[0] == Begin(false, Deinit)) ==> Waiting(After(s, ls).outside)
    decreases |ls|
  {
    if ls != [] {
      StuckStep(s, ls[0]);
      WaitsOn(s, ls[0]);
      StepBase(s, ls[0]);
      StuckForGood(Apply(s, ls[0]), ls[1..]);
    }
  }

  lemma {:induction false} OrderlyUnless(s: State, ls: seq<Label>)
    requires Base(s) && Orderly(s) && IsRun(s, ls)
    ensures if TimelyRun(s, ls) then Orderly(After(s, ls)) && Base(After(s, ls)) else Stuck(After(s, ls))
    decreases |ls|
  {
    if ls != [] {
      StepBase(s, ls[0]);
      if Timely(s, ls[0]) {
        StepOrderly(s, ls[0]);
        OrderlyUnless(Apply(s, ls[0]), ls[1..]);
      } else {
        LateStopSticks(s);
        StuckForGood(Apply(s, ls[0]), ls[1..]);
      }
    }
  }

  /** A run ends with the queue stuck exactly when some outside stop wrote STOP_REQUESTED after the worker
      had already written INIT_DONE. */
  lemma StuckIffLateStop(size: nat, ls: seq<Label>)
    requires IsRun(Init(size), ls)
    ensures Stuck(After(Init(size), ls)) <==> !TimelyRun(Init(size), ls)
  {
    OrderlyUnless(Init(size), ls);
  }

  /** In every run start writes RUNNING on resume only after the worker wrote INIT_DONE and was suspended,
      and deinit deletes the worker and frees the queue only in that same state. */
  lemma ResumesParkedWorker(size: nat, ls: seq<Label>)
    requires IsRun(Init(size), ls)
    ensures var s := After(Init(size), ls);
      && (s.outside.SetRunning? ==> s.worker.Parked? && s.state == InitDone)
      && (s.outside.DeleteTask? ==> s.state == InitDone && (s.worker.Parked? || s.created == 0))
  {
    OrderlyUnless(Init(size), ls);
  }

  /** A parked worker is found under STOP_REQUESTED exactly when a stop came late. */
  lemma ParkedUnderStop(size: nat, ls: seq<Label>)
    requires IsRun(Init(size), ls) && After(Init(size), ls).worker.Parked?
    ensures After(Init(size), ls).state == StopRequested <==> !TimelyRun(Init(size), ls)
  {
    OrderlyUnless(Init(size), ls);
  }

  // ---------------------------------------------------------------- when no stop comes late

  predicate Stopping(c: Call) { c.StopRead? || c.StopWrite? }

  /** A work item does not stop the queue while an outside stop or deinit is about to, or the reverse. */
  predicate Apart(s: State, l: Label) {
    && (l == Begin(true, Stop) ==> !Stopping(s.outside) && !s.outside.DeinitCheck?)
    && (l == Begin(false, Stop) || l == Begin(false, Deinit) ==> !Stopping(s.inside))
  }

  predicate ApartRun(s: State, ls: seq<Label>)
    requires IsRun(s, ls)
    decreases |ls|
  {
    ls == [] || (Apart(s, ls[0]) && ApartRun(Apply(s, ls[0]), ls[1..]))
  }

  /** An outside stop between its check and its write still finds RUNNING. */
  predicate OneStopper(s: State) {
    && !((Stopping(s.outside) || s.outside.DeinitCheck?) && Stopping(s.inside))
    && (s.outside.StopWrite? ==> s.state == Running)
  }

  lemma OneStopperStep(s: State, l: Label)
    requires Enabled(s, l) && Base(s) && Orderly(s) && OneStopper(s) && Apart(s, l)
    ensures Timely(s, l) && OneStopper(Apply(s, l))
  {
  }

  lemma {:induction false} ApartKeeps(s: State, ls: seq<Label>)
    requires Base(s) && Orderly(s) && OneStopper(s) && IsRun(s, ls) && ApartRun(s, ls)
    ensures TimelyRun(s, ls)
    decreases |ls|
  {
    if ls != [] {
      OneStopperStep(s, ls[0]);
      StepBase(s, ls[0]);
      StepOrderly(s, ls[0]);
      ApartKeeps(Apply(s, ls[0]), ls[1..]);
    }
  }

  /** If work items do not call stop while an outside stop or deinit is on its way, no stop comes late. */
  lemma ApartIsTimely(size: nat, ls: seq<Label>)
    requires IsRun(Init(size), ls) && ApartRun(Init(size), ls)
    ensures TimelyRun(Init(size), ls)
  {
    ApartKeeps(Init(size), ls);
  }

  // ---------------------------------------------------------------- a requested stop reaches suspension

  function Rank(w: Worker): nat {
    match w
    case RunItem(_) => 5
    case Drain => 4
    case Receive => 4
    case CheckState => 3
    case WriteInit => 2
    case Suspending => 1
    case _ => 0
  }

  /** Wake entries a stop under way may still post. */
  function ToPost(c: Call): nat { if c.StopRead? || c.StopWrite? || c.StopWake? || c.DeinitCheck? then 1 else 0 }

  function Measure(s: State): nat { 2 * (|s.queue| + ToPost(s.outside) + ToPost(s.inside)) + Rank(s.worker) }

  /** From STOP_REQUESTED to suspension. */
  predicate Halting(s: State) {
    Base(s) && Orderly(s) && (s.state == StopRequested || s.worker.Suspending?) && !s.worker.Parked? && !s.worker.NoTask?
  }

  /** No new item is added and no new control call begins. */
  predicate NothingNew(l: Label) { l.Proceed? || l.Control? }

  lemma MeasureInside(s: State)
    requires Halting(s) && s.inside != NoCall
    ensures var r := CallStep(s, true); Halting(r) && Measure(r) <= Measure(s)
  {
    OrderlyInside(s);
    OwnCallBase(s);
  }

  lemma MeasureOutside(s: State)
    requires Halting(s) && s.outside != NoCall && Timely(s, Control(false))
    ensures var r := CallStep(s, false); Halting(r) && Measure(r) <= Measure(s)
  {
    OrderlyOutside(s);
    CallBase(s, false);
  }

  lemma MeasureWorker(s: State)
    requires Halting(s) && WorkerReady(s)
    ensures var r := WorkerStep(s); Measure(r) < Measure(s) && (r.worker.Parked? || Halting(r))
  {
    OrderlyWorker(s);
    StepBase(s, Proceed);
  }

  function Count(ls: seq<Label>): nat {
    if ls == [] then 0 else (if ls[0].Proceed? then 1 else 0) + Count(ls[1..])
  }

  predicate EverParked(s: State, ls: seq<Label>)
    requires IsRun(s, ls)
    decreases |ls|
  {
    s.worker.Parked? || (ls != [] && EverParked(Apply(s, ls[0]), ls[1..]))
  }

  lemma HaltingStep(s: State, l: Label)
    requires Halting(s) && Enabled(s, l) && NothingNew(l) && Timely(s, l)
    ensures var r := Apply(s, l);
      && Measure(r) + (if l.Proceed? then 1 else 0) <= Measure(s) && (r.worker.Parked? || Halting(r))
  {
    match l
    case Proceed => MeasureWorker(s);
    case Control(own) =>
      if own {
        MeasureInside(s);
      } else {
        MeasureOutside(s);
      }
  }

  /** On the way to suspension, a late stop included. */
  predicate Coming(s: State) { Halting(s) || (Base(s) && Stuck(s) && s.worker.Suspending?) }

  lemma ComingStep(s: State, l: Label)
    requires Coming(s) && Enabled(s, l) && NothingNew(l)
    ensures var r := Apply(s, l);
      && Measure(r) + (if l.Proceed? then 1 else 0) <= Measure(s) && (r.worker.Parked? || Coming(r))
  {
    StepBase(s, l);
    if Stuck(s) {
      StuckStep(s, l);
    } else if Timely(s, l) {
      HaltingStep(s, l);
    } else {
      LateStopSticks(s);
    }
  }

  lemma {:induction false} ComingParks(s: State, ls: seq<Label>)
    requires Coming(s) && IsRun(s, ls) && forall i :: 0 <= i < |ls| ==> NothingNew(ls[i])
    ensures EverParked(s, ls) || (Coming(After(s, ls)) && Count(ls) + Measure(After(s, ls)) <= Measure(s))
    decreases |ls|
  {
    if ls != [] {
      ComingStep(s, ls[0]);
      var r := Apply(s, ls[0]);
      if r.worker.Parked? {
        assert EverParked(r, ls[1..]);
      } else {
        ComingParks(r, ls[1..]);
      }
    }
  }

  /** From any reachable state with a stop requested, as long as no item is added and no control call
      begins, every worker step brings suspension nearer and no other step sets it back. So a run with more
      worker steps than the measure parks the worker; and until it is parked it can always step once its
      work function is out of its own calls. */
  lemma StopReachesSuspension(size: nat, before: seq<Label>, ls: seq<Label>)
    requires IsRun(Init(size), before) && After(Init(size), before).state == StopRequested
    requires IsRun(After(Init(size), before), ls) && forall i :: 0 <= i < |ls| ==> NothingNew(ls[i])
    ensures var s := After(Init(size), before); var r := After(s, ls);
      EverParked(s, ls) || (Count(ls) + Measure(r) <= Measure(s) && (r.inside == NoCall ==> Enabled(r, Proceed)))
  {
    OrderlyUnless(Init(size), before);
    Reached(Init(size), before);
    var s := After(Init(size), before);
    if !s.worker.Parked? {
      ComingParks(s, ls);
    }
  }

  // ---------------------------------------------------------------- a late stop exists

  ghost predicate Reaches(s: State, r: State) { exists ls: seq<Label> :: IsRun(s, ls) && After(s, ls) == r }

  lemma {:induction false} RunSnoc(s: State, ls: seq<Label>, l: Label)
    requires IsRun(s, ls) && Enabled(After(s, ls), l)
    ensures IsRun(s, ls + [l]) && After(s, ls + [l]) == Apply(After(s, ls), l)
    decreases |ls|
  {
    if ls == [] {
      assert ls + [l] == [l];
    } else {
      assert (ls + [l])[1..] == ls[1..] + [l];
      RunSnoc(Apply(s, ls[0]), ls[1..], l);
    }
  }

  lemma Extend(s: State, r: State, l: Label)
    requires Reaches(s, r) && Enabled(r, l)
    ensures Reaches(s, Apply(r, l))
  {
    var ls: seq<Label> :| IsRun(s, ls) && After(s, ls) == r;
    RunSnoc(s, ls, l);
  }

  /** Item 1 is running and an outside stop has passed its check but not written yet. */
  const PREEMPTED: State := State(2, Running, [], RunItem(1), StopWrite(false), NoCall, false, 1, [1], [], 0)

  /** The queue is started and item 1 is enqueued. */
  const STARTED: State := State(2, Running, [Entry.Work(1)], CheckState, NoCall, NoCall, false, 1, [1], [], 0)

  /** The first start has created the worker and is about to write RUNNING. */
  const CREATED: State := Init(2).(outside := SetRunningNew, worker := CheckState, created := 1)

  lemma ReachesCreated()
    ensures Reaches(Init(2), CREATED)
  {
    var s0 := Init(2);
    assert IsRun(s0, []) && After(s0, []) == s0;
    Extend(s0, s0, Begin(false, Start));
    var s1 := s0.(outside := StartRead);
    Extend(s0, s1, Control(false));
    Extend(s0, s1.(outside := StartTask), Control(false));
    Extend(s0, s1.(outside := Create), Control(false));
    assert CREATED == Apply(s1.(outside := Create), Control(false));
  }

  lemma ReachesStarted()
    ensures Reaches(Init(2), STARTED)
  {
    ReachesCreated();
    var s0, s2 := Init(2), CREATED;
    Extend(s0, s2, Control(false));
    var s3 := s2.(outside := NoCall, state := Running);
    Extend(s0, s3, Add(1));
    assert STARTED == Apply(s3, Add(1));
  }

  /** The worker has run item 1 and found the queue empty; item 2 comes in before it looks at the state. */
  const REFILLED: State := State(2, Running, [Entry.Work(2)], CheckState, NoCall, NoCall, false, 1, [1, 2], [1], 1)

  lemma ReachesRefilled()
    ensures Reaches(Init(2), REFILLED)
  {
    ReachesStarted();
    var s0, s1 := Init(2), STARTED;
    Extend(s0, s1, Proceed);
    Extend(s0, s1.(worker := Receive), Proceed);
    var s2 := s1.(worker := RunItem(1), queue := []);
    Extend(s0, s2, Proceed);
    Extend(s0, s2.(worker := Drain, ran := [1]), Proceed);
    var s3 := s2.(worker := CheckState, ran := [1], lastEmpty := 1);
    Extend(s0, s3, Add(2));
    assert REFILLED == Apply(s3, Add(2));
  }

  /** The stop has returned; its wake entry lies behind item 2. */
  const STOPPED: State := REFILLED.(state := StopRequested, queue := [Entry.Work(2), Wake])

  lemma ReachesStopped()
    ensures Reaches(Init(2), STOPPED)
  {
    ReachesRefilled();
    var s0, s1 := Init(2), REFILLED;
    Extend(s0, s1, Begin(false, Stop));
    Extend(s0, s1.(outside := StopRead(false)), Control(false));
    Extend(s0, s1.(outside := StopWrite(false)), Control(false));
    Extend(s0, s1.(outside := StopWake(false), state := StopRequested), Control(false));
    assert STOPPED == Apply(s1.(outside := StopWake(false), state := StopRequested), Control(false));
  }

  /** A stop does not drain the queue: item 2 was accepted before stop was even called, the stop has
      returned, the worker is parked, and item 2 has not run. */
  lemma StopLeavesItem()
    ensures exists s :: Reaches(Init(2), s) && s.worker.Parked? && s.outside == NoCall
                     && s.accepted == [1, 2] && s.ran == [1] && Items(s.queue) == [2]
  {
    ReachesStopped();
    var s0, s2 := Init(2), STOPPED;
    Extend(s0, s2, Proceed);
    Extend(s0, s2.(worker := WriteInit), Proceed);
    Extend(s0, s2.(worker := Suspending, state := InitDone), Proceed);
    assert Items([Entry.Work(2), Wake]) == [2];
  }

  lemma ReachesPreempted()
    ensures Reaches(Init(2), PREEMPTED)
  {
    ReachesStarted();
    var s0, s4 := Init(2), STARTED;
    Extend(s0, s4, Proceed);
    Extend(s0, s4.(worker := Receive), Proceed);
    var s5 := s4.(worker := RunItem(1), queue := []);
    Extend(s0, s5, Begin(false, Stop));
    Extend(s0, s5.(outside := StopRead(false)), Control(false));
  }

  /** Item 1 has stopped the queue itself and is about to return. */
  const OWN_STOP: State := PREEMPTED.(state := StopRequested, queue := [Wake])

  lemma ReachesOwnStop()
    ensures Reaches(Init(2), OWN_STOP)
  {
    ReachesPreempted();
    var s0, p := Init(2), PREEMPTED;
    Extend(s0, p, Begin(true, Stop));
    Extend(s0, p.(inside := StopRead(false)), Control(true));
    Extend(s0, p.(inside := StopWrite(false)), Control(true));
    Extend(s0, p.(inside := StopWake(false), state := StopRequested), Control(true));
    assert OWN_STOP == Apply(p.(inside := StopWake(false), state := StopRequested), Control(true));
  }

  /** The item stops the queue itself and returns; the worker parks; only then does the outside stop write. */
  lemma LateStopExists()
    ensures exists s :: Reaches(Init(2), s) && Stuck(s)
  {
    ReachesOwnStop();
    var s0, q := Init(2), OWN_STOP;
    Extend(s0, q, Proceed);
    Extend(s0, q.(worker := Drain, ran := [1]), Proceed);
    var r := q.(worker := Drain, ran := [1], queue := []);
    Extend(s0, r, Proceed);
    Extend(s0, r.(worker := CheckState, lastEmpty := 1), Proceed);
    Extend(s0, r.(worker := WriteInit, lastEmpty := 1), Proceed);
    var t := r.(worker := Suspending, lastEmpty := 1, state := InitDone);
    Extend(s0, t, Control(false));
    assert Stuck(Apply(t, Control(false)));
  }
}
