/** esp-mqtt-glue.c as a concurrent protocol. Every task below is one region under s_glue_lock or one call
    made outside it; the tasks a thread has yet to do are its todo list, and tasks of different threads
    interleave freely. esp-mqtt, the broker, the timer and the work queue are the environment. */
module MqttProtocol {
  import opened Bytes
  import opened MqttTable
  import opened MqttRegions

  datatype Event = Connected | Disconnected | BeforeConnect | SubackEvent(msgId: int, rejected: bool)
                 | DeletedEvent(msgId: int) | Data | OtherEvent

  datatype Task =
    // operations between glue_begin_op() and glue_end_op()
    | SubscribeEntry(topic: bytes, cb: int, priv: int, qos: nat)
    | UnsubscribeEntry(topic: bytes)
    | CheckConnecting
    | UseClient
    | SendUnsubscribe(topic: bytes)
    | EndOp
    // send_subscribe(), resubscribe_pending() and the retry round
    | ReserveTopic(topic: bytes, qos: nat)
    | Transmit(topic: bytes, qos: nat, connected: bool)
    | RecordRet(topic: bytes, ret: int)
    | CollectPending(round: bool)
    | BackOff
    | ScheduleRetry
    | ArmFlag
    // the event handler
    | Head(event: Event)
    | Handle(event: Event)
    | Callbacks
    // disconnect(), update_config(), connect() and deinit()
    | DetachAll
    | ClientStop
    | Disconnect
    | StopTimer
    | ClientStart
    | WaitBusy
    | Destroy
    | Free

  /** A callback's own subscribe or unsubscribe is an application thread's. */
  datatype Thread = Handler | Admin | App(n: nat)

  /** What the broker saw and decided: the topic of every SUBSCRIBE by packet id, the verdicts, and when
      the handler processed each SUBACK. */
  datatype Broker = Broker(sent: map<int, bytes>, verdicts: map<int, bool>, answered: map<int, nat>)

  /** epoch counts the connects and disconnects the glue has seen; sentIn and recordedIn hold, for each packet
      id, the epoch in which its SUBSCRIBE was sent and the one in which its sender recorded it; cut holds
      the ids after whose SUBSCRIBE an UNSUBSCRIBE for the topic was sent. */
  datatype Session = Session(epoch: nat, sentIn: map<int, nat>, recordedIn: map<int, nat>, cut: set<int>)

  /** Everything but the threads. crashed records a use of mqtt_data while it is NULL; backoffs counts the
      rounds since the retry delay was last reset; the last three count init, deinit and free. */
  datatype World = World(glue: Option<Glue>, running: bool, armed: bool, rounds: nat, now: nat, broker: Broker,
                         session: Session, crashed: bool, backoffs: nat, deleter: Option<Thread>,
                         inits: nat, deinits: nat, frees: nat)

  datatype State = State(w: World, threads: map<Thread, seq<Task>>)

  /** What the environment decides in a step: the packet id or error of a SUBSCRIBE, the success of a call. */
  datatype Choice = Choice(ret: int, ok: bool)

  datatype Op = SubscribeOp(topic: bytes, cb: int, priv: int, qos: nat) | UnsubscribeOp(topic: bytes) | PublishOp | RoundOp

  datatype AdminCall = ConnectCall | DisconnectCall | UpdateConfigCall

  datatype Label =
    | Begin(t: Thread, op: Op)
    | Run(t: Thread, c: Choice)
    | Deliver(event: Event)
    | Answer(msgId: int, rejected: bool)
    | Fire
    | Tick(ms: nat)
    | Init(slots: nat)
    | Deinit(t: Thread)
    | Call(call: AdminCall)

  function Todo(s: State, t: Thread): seq<Task> { if t in s.threads then s.threads[t] else [] }

  function Start(): State {
    State(World(None, false, false, 0, 0, Broker(map[], map[], map[]), Session(0, map[], map[], {}), false, 0, None, 0, 0, 0),
          map[])
  }

  predicate Ready(w: World) { w.glue.Some? ==> Sound(w.glue.value) }

  // ---------------------------------------------------------------- one task

  function With(w: World, g: Glue): World { w.(glue := Some(g)) }

  /** The SUBSCRIBEs sent for a topic so far. */
  function SentOn(b: Broker, topic: bytes): set<int> { set id | id in b.sent && b.sent[id] == topic }

  function Sent(z: Session, id: int): Session { z.(sentIn := z.sentIn[id := z.epoch]) }

  function Recorded(z: Session, ret: int): Session {
    if ret >= 0 then z.(recordedIn := z.recordedIn[ret := z.epoch]) else z
  }

  function Reset(z: Session): Session { z.(epoch := z.epoch + 1) }

  function Cut(z: Session, b: Broker, topic: bytes): Session { z.(cut := z.cut + SentOn(b, topic)) }

  function SendTasks(ps: seq<Pending>): seq<Task> {
    seq(|ps|, i requires 0 <= i < |ps| => ReserveTopic(ps[i].topic, ps[i].qos))
  }

  /** resent_failed: something not merely expired was collected. */
  predicate Failing(ps: seq<Pending>) { exists i :: 0 <= i < |ps| && !ps[i].noSuback }

  function Releases(out: seq<Release>): seq<Task> {
    if out == [] then [] else Releases(out[..|out| - 1]) + (if out[|out| - 1].send then [SendUnsubscribe(out[|out| - 1].topic)] else [])
  }

  /** subscribe(), unsubscribe() and unsubscribe_all(). */
  function ExecTable(w: World, x: Task): (r: (World, seq<Task>))
    requires w.glue.Some? && (x.SubscribeEntry? || x.UnsubscribeEntry? || x.DetachAll?)
    ensures r.0.glue.Some? && r.0 == With(w, w.glue.value.(subs := r.0.glue.value.subs))
  {
    var g := w.glue.value;
    match x
    case SubscribeEntry(topic, cb, priv, qos) =>
      var (h, out) := Subscribe(g, topic, cb, priv, qos);
      (With(w, h), if out.send.Some? then [ReserveTopic(topic, out.send.value), ScheduleRetry] else [])
    case UnsubscribeEntry(topic) =>
      var (h, send) := Unsubscribe(g, topic);
      (With(w, h), if send == Some(true) then [SendUnsubscribe(g.subs[FirstStarting(g.subs, topic)].value.topic)] else [])
    case DetachAll =>
      var (h, out) := UnsubscribeAll(g);
      (With(w, h), Releases(out))
  }

  /** send_subscribe(), with the call to esp-mqtt between its two regions. */
  function ExecSend(w: World, x: Task, c: Choice): (r: (World, seq<Task>))
    requires w.glue.Some? && (x.ReserveTopic? || x.Transmit? || x.RecordRet?)
  {
    var g := w.glue.value;
    match x
    case ReserveTopic(topic, qos) => (With(w, Reserve(g, topic, w.now)), [Transmit(topic, qos, g.connected)])
    case Transmit(topic, _, connected) =>
      if connected && c.ret >= 0 then
        (w.(broker := w.broker.(sent := w.broker.sent[c.ret := topic]), session := Sent(w.session, c.ret)), [RecordRet(topic, c.ret)])
      else (w, [RecordRet(topic, -1)])
    case RecordRet(topic, ret) =>
      var (h, ack) := Record(g, topic, ret, w.now);
      (With(w, h).(session := Recorded(w.session, ret)), if ack.Some? then [ScheduleRetry] else [])
  }

  /** resubscribe_pending()'s pass, the retry delay and the timer. */
  function ExecRetry(w: World, x: Task, c: Choice): (r: (World, seq<Task>))
    requires w.glue.Some? && (x.CollectPending? || x.BackOff? || x.ScheduleRetry? || x.ArmFlag?)
  {
    var g := w.glue.value;
    match x
    case CollectPending(round) =>
      var ps := Collect(g.subs, w.now, |g.subs|);
      (w, SendTasks(ps) + (if round && Failing(ps) then [BackOff] else []))
    case BackOff => (With(w, Backoff(g)).(backoffs := w.backoffs + 1), [])
    case ScheduleRetry =>
      var (h, delay) := Schedule(g, w.now);
      var w' := With(w, h).(backoffs := if delay == 0 then 0 else w.backoffs);
      if c.ok then (w'.(armed := delay > 0), []) else (w', [ArmFlag])
    case ArmFlag => (With(w, g.(timerArmPending := true)), [])
  }

  predicate IsTable(x: Task) { x.SubscribeEntry? || x.UnsubscribeEntry? || x.DetachAll? }

  predicate IsSend(x: Task) { x.ReserveTopic? || x.Transmit? || x.RecordRet? }

  predicate IsRetry(x: Task) { x.CollectPending? || x.BackOff? || x.ScheduleRetry? || x.ArmFlag? }

  predicate IsOther(x: Task) { !IsTable(x) && !IsSend(x) && !IsRetry(x) && !x.Handle? }

  function ExecOther(w: World, x: Task, c: Choice): (r: (World, seq<Task>))
    requires w.glue.Some? && IsOther(x)
  {
    var g := w.glue.value;
    match x
    case SendUnsubscribe(topic) => (w.(session := if c.ok then Cut(w.session, w.broker, topic) else w.session), [])
    case CheckConnecting => (w, if g.connecting then [] else [UseClient])
    case EndOp => (With(w, g.(busy := g.busy - 1)), [])
    case Head(e) =>
      var (h, rearm) := EventHead(g, e.BeforeConnect?);
      (With(w, h), if rearm then [ScheduleRetry, Handle(e)] else [Handle(e)])
    case ClientStop => (w.(running := false), [Disconnect])
    case Disconnect => (With(w, MarkDisconnected(g)).(backoffs := 0, session := Reset(w.session)), [StopTimer])
    case StopTimer => (w.(armed := w.armed && !c.ok), [])
    case ClientStart => (w.(running := w.running || c.ok), [])
    case Destroy => (w.(running := false), [])
    case Free => (w.(glue := None, frees := w.frees + 1), [])
    case _ => (w, [])
  }

  /** A region or call on a live instance: the world after it and what the thread does before going on. */
  function Exec(w: World, x: Task, c: Choice): (r: (World, seq<Task>))
    requires w.glue.Some? && Sound(w.glue.value)
  {
    if IsTable(x) then ExecTable(w, x)
    else if IsSend(x) then ExecSend(w, x, c)
    else if IsRetry(x) then ExecRetry(w, x, c)
    else if x.Handle? then ExecEvent(w, x.event)
    else ExecOther(w, x, c)
  }

  function ExecEvent(w: World, e: Event): (r: (World, seq<Task>))
    requires w.glue.Some? && Sound(w.glue.value)
  {
    var g := w.glue.value;
    match e
    case Connected => (With(w, Connect(g)).(backoffs := 0, session := Reset(w.session)), [CollectPending(false), ScheduleRetry])
    case Disconnected => (With(w, MarkDisconnected(g)).(backoffs := 0, session := Reset(w.session)), [StopTimer])
    case BeforeConnect => (With(w, g.(connecting := true)), [])
    case SubackEvent(id, rejected) =>
      var (h, topic) := Suback(g, id, rejected, w.now);
      (With(w, h).(broker := w.broker.(answered := w.broker.answered[id := w.now])), if topic.Some? then [ScheduleRetry] else [])
    case DeletedEvent(id) =>
      var (h, topic) := Deleted(g, id);
      (With(w, h), if topic.Some? then [ScheduleRetry] else [])
    case Data => (w, [Callbacks])
    case OtherEvent => (w, [])
  }

  lemma SendReady(w: World, x: Task, c: Choice)
    requires w.glue.Some? && Sound(w.glue.value) && IsSend(x)
    ensures Ready(ExecSend(w, x, c).0)
  {
  }

  lemma RetryReady(w: World, x: Task, c: Choice)
    requires w.glue.Some? && Sound(w.glue.value) && IsRetry(x)
    ensures Ready(ExecRetry(w, x, c).0)
  {
  }

  lemma EventReady(w: World, e: Event)
    requires w.glue.Some? && Sound(w.glue.value)
    ensures Ready(ExecEvent(w, e).0)
  {
  }

  lemma ExecReady(w: World, x: Task, c: Choice)
    requires w.glue.Some? && Sound(w.glue.value)
    ensures Ready(Exec(w, x, c).0)
  {
    if IsSend(x) {
      SendReady(w, x, c);
    } else if IsRetry(x) {
      RetryReady(w, x, c);
    } else if x.Handle? {
      EventReady(w, x.event);
    }
  }

  /** The same with mqtt_data possibly NULL: three tasks check for it or do not use it, the rest crash. */
  function Attempt(w: World, x: Task, c: Choice): (r: (World, seq<Task>))
    requires Ready(w)
    ensures Ready(r.0)
  {
    if w.glue.Some? then
      ExecReady(w, x, c);
      Exec(w, x, c)
    else match x
      case ArmFlag => (w, [])
      case Head(e) => (w, [Handle(e)])
      case StopTimer => (w.(armed := w.armed && !c.ok), [])
      case _ => (w.(crashed := true), [])
  }

  // ---------------------------------------------------------------- steps

  function OpTasks(op: Op): seq<Task> {
    match op
    case SubscribeOp(topic, cb, priv, qos) => [SubscribeEntry(topic, cb, priv, qos), EndOp]
    case UnsubscribeOp(topic) => [UnsubscribeEntry(topic), EndOp]
    case PublishOp => [CheckConnecting, EndOp]
    case RoundOp => [CollectPending(true), ScheduleRetry, EndOp]
  }

  function CallTasks(call: AdminCall): seq<Task> {
    match call
    case ConnectCall => [ClientStart]
    case DisconnectCall => [DetachAll, ClientStop]
    case UpdateConfigCall => [ClientStop, ClientStart]
  }

  const DEINIT_TASKS: seq<Task> := [StopTimer, WaitBusy, DetachAll, Destroy, Free]

  /** What esp-mqtt may report. It never has two events in the handler at once, reports a SUBACK once, and
      its packet ids are positive. */
  predicate MayDeliver(b: Broker, e: Event) {
    match e
    case SubackEvent(id, rejected) => id in b.verdicts && b.verdicts[id] == rejected && id !in b.answered
    case DeletedEvent(id) => id > 0
    case _ => true
  }

  /** Packet ids are positive and never reused; stopping or destroying the client waits for the handler. */
  predicate MayRun(s: State, x: Task, c: Choice) {
    match x
    case Transmit(_, _, _) => c.ret < 0 || (c.ret > 0 && c.ret !in s.w.broker.sent)
    case ClientStop => Todo(s, Handler) == []
    case Destroy => Todo(s, Handler) == []
    case WaitBusy => s.w.glue.Some? ==> s.w.glue.value.busy == 0
    case _ => true
  }

  predicate Enabled(s: State, l: Label) {
    match l
    case Begin(t, op) => t.App? && Todo(s, t) == [] && (op.RoundOp? ==> s.w.rounds > 0)
    case Run(t, c) => Todo(s, t) != [] && MayRun(s, Todo(s, t)[0], c)
    case Deliver(e) => s.w.running && Todo(s, Handler) == [] && MayDeliver(s.w.broker, e)
    case Answer(id, _) => id in s.w.broker.sent && id !in s.w.broker.verdicts
    case Fire => s.w.armed
    case Tick(_) => true
    // init, deinit and the three calls below are serialised by their caller
    case Init(_) => s.w.glue.None?
    case Deinit(t) => t.App? && Todo(s, t) == [] && Todo(s, Admin) == []
    case Call(_) => Todo(s, Admin) == [] && (s.w.glue.Some? ==> !s.w.glue.value.deleting)
  }

  function Push(s: State, w: World, t: Thread, todo: seq<Task>): State { State(w, s.threads[t := todo]) }

  function Apply(s: State, l: Label): (r: State)
    requires Ready(s.w) && Enabled(s, l)
    ensures Ready(r.w)
  {
    match l
    case Begin(t, op) =>
      // the timer callback hands a round over or runs it itself
      var w := if op.RoundOp? then s.w.(rounds := s.w.rounds - 1) else s.w;
      if w.glue.None? || w.glue.value.deleting then s.(w := w)
      else Push(s, With(w, w.glue.value.(busy := w.glue.value.busy + 1)), t, OpTasks(op))
    case Run(t, c) =>
      var todo := Todo(s, t);
      var (w, more) := Attempt(s.w, todo[0], c);
      Push(s, w, t, more + todo[1..])
    case Deliver(e) => Push(s, s.w, Handler, [Head(e)])
    case Answer(id, rejected) => s.(w := s.w.(broker := s.w.broker.(verdicts := s.w.broker.verdicts[id := rejected])))
    case Fire => s.(w := s.w.(armed := false, rounds := s.w.rounds + 1))
    case Tick(ms) => s.(w := s.w.(now := s.w.now + ms))
    case Init(slots) => s.(w := s.w.(glue := Some(Initial(slots)), backoffs := 0, deleter := None, inits := s.w.inits + 1))
    case Deinit(t) =>
      if s.w.glue.None? || s.w.glue.value.deleting then s
      else Push(s, With(s.w, s.w.glue.value.(deleting := true)).(deleter := Some(t), deinits := s.w.deinits + 1), t, DEINIT_TASKS)
    case Call(call) => if s.w.glue.None? then s else Push(s, s.w, Admin, CallTasks(call))
  }

  /** Whether every step of a run is enabled when its turn comes. */
  predicate IsRun(s: State, ls: seq<Label>)
    requires Ready(s.w)
    decreases |ls|
  {
    ls == [] || (Enabled(s, ls[0]) && IsRun(Apply(s, ls[0]), ls[1..]))
  }

  function After(s: State, ls: seq<Label>): (r: State)
    requires Ready(s.w) && IsRun(s, ls)
    ensures Ready(r.w)
    decreases |ls|
  {
    if ls == [] then s else After(Apply(s, ls[0]), ls[1..])
  }
}
