/** The parts of work_queue.c that run to their end by themselves, in the C code's own form: adding, the
    stop request, and the receive loop. Each leaves what its steps in WorkQueue leave when nothing else
    interferes. */
module WorkQueueTask {
  import opened WorkQueue

  /** What a pass of the receive loop comes to. */
  function Drained(s: State): State {
    s.(queue := [], worker := CheckState, ran := s.ran + Current(s.worker) + Items(s.queue), lastEmpty := |s.accepted|)
  }

  /** The worker steps of such a pass: take each entry and run it if it is work, then find the queue empty. */
  function Pass(q: seq<Entry>): seq<Label> {
    if q == [] then [Proceed] else [Proceed] + (if q[0].Work? then [Proceed] else []) + Pass(q[1..])
  }

  lemma Cons(s: State, l: Label, ls: seq<Label>)
    requires Enabled(s, l) && IsRun(Apply(s, l), ls)
    ensures IsRun(s, [l] + ls) && After(s, [l] + ls) == After(Apply(s, l), ls)
  {
    assert ([l] + ls)[1..] == ls;
  }

  lemma {:induction false} PassDrains(s: State)
    requires s.worker.Receive? || s.worker.Drain?
    requires s.inside == NoCall
    ensures IsRun(s, Pass(s.queue)) && After(s, Pass(s.queue)) == Drained(s)
    decreases |s.queue|
  {
    var q := s.queue;
    if q == [] {
      Cons(s, Proceed, []);
      assert [Proceed] + [] == [Proceed];
    } else {
      var t := Taken(s);
      if q[0].Work? {
        var u := WorkerStep(t);
        PassDrains(u);
        Cons(t, Proceed, Pass(q[1..]));
        Cons(s, Proceed, [Proceed] + Pass(q[1..]));
        assert Pass(q) == [Proceed] + ([Proceed] + Pass(q[1..]));
        assert Drained(u).ran == s.ran + [q[0].item] + Items(q[1..]);
        assert Items(q) == [q[0].item] + Items(q[1..]);
      } else {
        PassDrains(t);
        Cons(s, Proceed, Pass(q[1..]));
        assert Pass(q) == [Proceed] + Pass(q[1..]);
        assert Items(q) == [] + Items(q[1..]);
      }
      assert Drained(s) == if q[0].Work? then Drained(WorkerStep(t)) else Drained(t);
    }
  }

  class Queue {
    const size: nat
    var state: QueueState
    var queue: seq<Entry>          // the FreeRTOS queue
    var worker: Worker
    var outside: Call
    ghost var created: nat
    ghost var accepted: seq<int>
    var ran: seq<int>              // the work functions called, in order
    ghost var lastEmpty: nat

    constructor (size: nat)
      ensures Value() == Init(size)
    {
      this.size, state, queue, worker, outside := size, InitDone, [], NoTask, NoCall;
      created, accepted, ran, lastEmpty := 0, [], [], 0;
    }

    ghost function Value(): State
      reads this
    {
      State(size, state, queue, worker, outside, NoCall, false, created, accepted, ran, lastEmpty)
    }

    /** xQueueSend(..., 0). */
    method Send(e: Entry) returns (ok: bool)
      modifies this`queue
      ensures ok == (|old(queue)| < size) && Value() == Posted(old(Value()), e)
    {
      ok := |queue| < size;
      if ok {
        queue := queue + [e];
      }
    }

    method AddTask(item: int) returns (ok: bool)
      requires outside != FreeQueue
      modifies this
      ensures ok == (|old(queue)| < size) && Value() == Apply(old(Value()), Add(item))
    {
      ok := Send(Entry.Work(item));
      if ok {
        accepted := accepted + [item];
      }
    }

    /** stop_internal() from outside the worker. */
    method StopInternal()
      requires outside == NoCall
      modifies this
      ensures Value() == if old(state) == Running then Posted(old(Value()).(state := StopRequested), Wake) else old(Value())
    {
      if state == Running {
        state := StopRequested;
        var _ := Send(Wake);
      }
    }

    /** xQueueReceive() on a queue with entries. */
    method Take() returns (e: Entry)
      requires queue != []
      modifies this`queue
      ensures e == old(queue)[0] && queue == old(queue)[1..]
    {
      e := queue[0];
      queue := queue[1..];
    }

    /** esp_rmaker_handle_work_queue(), with work functions that leave the queue alone. */
    method HandleWorkQueue()
      requires worker == Receive
      modifies this
      ensures Value() == Drained(old(Value()))
    {
      ghost var all := Items(queue);
      while queue != []
        invariant ran + Items(queue) == old(ran) + all
        invariant state == old(state) && accepted == old(accepted) && created == old(created) && outside == old(outside)
        decreases |queue|
      {
        ghost var q := queue;
        var e := Take();
        assert Items(q) == (if e.Work? then [e.item] else []) + Items(queue);
        if e.Work? {
          ran := ran + [e.item];
        }
      }
      assert ran == ran + Items(queue) == old(ran) + all == old(ran) + [] + all;
      worker := CheckState;
      lastEmpty := |accepted|;
    }
  }

  /** An outside stop that nothing disturbs takes these steps and leaves what StopInternal() leaves. */
  function StopSteps(s: State): seq<Label> {
    [Begin(false, Stop)] + ([Control(false)] + (if s.state == Running then [Control(false)] + ([Control(false)] + []) else []))
  }

  lemma StopAlone(s: State)
    requires s.outside == NoCall && s.inside == NoCall && !s.freed
    ensures IsRun(s, StopSteps(s))
    ensures After(s, StopSteps(s)) == if s.state == Running then Posted(s.(state := StopRequested), Wake) else s
  {
    var a := Apply(s, Begin(false, Stop));
    var b := Apply(a, Control(false));
    if s.state == Running {
      var c := Apply(b, Control(false));
      Cons(c, Control(false), []);
      Cons(b, Control(false), [Control(false)] + []);
      Cons(a, Control(false), [Control(false)] + ([Control(false)] + []));
      Cons(s, Begin(false, Stop), [Control(false)] + ([Control(false)] + ([Control(false)] + [])));
    } else {
      Cons(a, Control(false), []);
      Cons(s, Begin(false, Stop), [Control(false)] + []);
    }
  }
}
