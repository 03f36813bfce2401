/**
 The event thread's op queue and wakeup as an interleaved protocol. Any number
 of threads post, any number call Stop, and the loop takes one small step at a
 time; every lock section and every eventfd call is one atomic step.
 */
module EventLoop {
  import opened Octets

  type ThreadId = nat

  /** An eventfd saturates here: a further write would block, so it is dropped. */
  const COUNTER_MAX: nat := 0xFFFF_FFFF_FFFF_FFFE

  /** Where the loop is. */
  datatype Pc<Op> =
    | Top                                      // about to take the queue
    | Running(batch: seq<Op>, stopping: bool)  // running the ops it took
    | Preparing                                // timers, then the poll set
    | Polling                                  // blocked in poll
    | Woken(readable: bool)                    // poll returned
    | Exited

  datatype State<Op> = State(
    ops: seq<Op>,
    stopRequested: bool,
    joined: bool,
    joiner: Option<ThreadId>,
    counter: nat,
    owing: set<ThreadId>,     // inside Post or Stop, between the lock and Notify
    returned: set<ThreadId>,  // joiners whose Stop has returned
    pc: Pc<Op>,
    accepted: seq<Op>,        // every op Post took, in order
    executed: seq<Op>)        // every op the loop ran, in order

  function Init<Op>(): State<Op> {
    State([], false, false, None, 0, {}, {}, Top, [], [])
  }

  datatype Step<Op> =
    | Post(t: ThreadId, op: Op)
    | RequestStop(t: ThreadId)
    | Notify(t: ThreadId)
    | Join(t: ThreadId)
    | TakeQueue | RunOp | BatchDone | Prepare
    | PollReturns           // readable eventfd, ready socket or timeout
    | PollInterrupted       // EINTR
    | Drain | Dispatch
  {
    predicate OfLoop() {
      TakeQueue? || RunOp? || BatchDone? || Prepare? || PollReturns? || PollInterrupted? || Drain? || Dispatch?
    }
  }

  function Notified(counter: nat): (c: nat)
    ensures c > 0
    ensures counter <= COUNTER_MAX ==> c <= COUNTER_MAX
  {
    if counter >= COUNTER_MAX then counter else counter + 1
  }

  predicate Enabled<Op>(s: State<Op>, step: Step<Op>) {
    match step
    case Post(t, op) => t !in s.owing
    case RequestStop(t) => t !in s.owing
    case Notify(t) => t in s.owing
    case Join(t) => s.joiner == Some(t) && t !in s.owing && s.pc.Exited?
    case TakeQueue => s.pc.Top?
    case RunOp => s.pc.Running? && s.pc.batch != []
    case BatchDone => s.pc.Running? && s.pc.batch == []
    case Prepare => s.pc.Preparing?
    case PollReturns => s.pc.Polling?
    case PollInterrupted => s.pc.Polling?
    case Drain => s.pc.Woken? && s.pc.readable
    case Dispatch => s.pc.Woken? && !s.pc.readable
  }

  function Do<Op>(s: State<Op>, step: Step<Op>): (r: State<Op>)
    requires Enabled(s, step)
  {
    match step
    case Post(t, op) =>
      if s.stopRequested then s
      else s.(ops := s.ops + [op], accepted := s.accepted + [op], owing := s.owing + {t})
    case RequestStop(t) =>
      s.(stopRequested := true, owing := s.owing + {t},
         joined := true, joiner := if s.joined then s.joiner else Some(t))
    case Notify(t) => s.(counter := Notified(s.counter), owing := s.owing - {t})
    case Join(t) => s.(returned := s.returned + {t})
    case TakeQueue => s.(pc := Running(s.ops, s.stopRequested), ops := [])
    case RunOp => s.(pc := s.pc.(batch := s.pc.batch[1..]), executed := s.executed + [s.pc.batch[0]])
    case BatchDone => s.(pc := if s.pc.stopping then Exited else Preparing)
    case Prepare => s.(pc := Polling)
    case PollReturns => s.(pc := Woken(s.counter > 0))
    case PollInterrupted => s.(pc := Top)
    case Drain => s.(counter := 0, pc := Woken(false))
    case Dispatch => s.(pc := Top)
  }

  /** The state after a run, if every step of it was enabled. */
  function Run<Op>(s: State<Op>, steps: seq<Step<Op>>): (r: Option<State<Op>>) {
    if steps == [] then Some(s)
    else
      var m := Run(s, steps[..|steps| - 1]);
      if m.Some? && Enabled(m.value, steps[|steps| - 1]) then Some(Do(m.value, steps[|steps| - 1])) else None
  }

  function Batch<Op>(s: State<Op>): seq<Op> { if s.pc.Running? then s.pc.batch else [] }

  /** The loop has looked at the queue and will look again only after poll. */
  predicate Committed<Op>(s: State<Op>) {
    (s.pc.Running? && !s.pc.stopping) || s.pc.Preparing? || s.pc.Polling?
  }

  /** Something the loop has to wake up for. */
  predicate Work<Op>(s: State<Op>) { s.ops != [] || s.stopRequested }

  ghost predicate Inv<Op>(s: State<Op>) {
    && s.accepted == s.executed + (Batch(s) + s.ops)
    && (Committed(s) && Work(s) ==> s.counter > 0 || s.owing != {})
    && ((s.pc.Running? && s.pc.stopping) || s.pc.Exited? ==> s.stopRequested && s.ops == [])
    && (s.joiner.Some? ==> s.joined) && (s.joined ==> s.stopRequested)
    && (s.returned != {} ==> s.pc.Exited?)
    && (s.pc.Woken? && s.pc.readable ==> s.counter > 0)
    && s.counter <= COUNTER_MAX
  }

  lemma StepKeepsInv<Op>(s: State<Op>, step: Step<Op>)
    requires Inv(s) && Enabled(s, step)
    ensures Inv(Do(s, step))
  {
    match step
    case Post(t, op) =>
      if !s.stopRequested { Assoc(s.executed, Batch(s) + s.ops, [op]); Assoc(Batch(s), s.ops, [op]); }
    case RunOp =>
      var b := s.pc.batch;
      assert b + s.ops == [b[0]] + (b[1..] + s.ops);
      Assoc(s.executed, [b[0]], b[1..] + s.ops);
    case TakeQueue =>
      assert [] + s.ops == s.ops && s.ops + [] == s.ops;
    case _ =>
  }

  /** The invariant holds in every reachable state. */
  lemma {:induction false} Reachable<Op>(steps: seq<Step<Op>>, r: State<Op>)
    requires Run(Init(), steps) == Some(r)
    ensures Inv(r)
    decreases |steps|
  {
    if steps != [] {
      var m := Run(Init(), steps[..|steps| - 1]).value;
      Reachable(steps[..|steps| - 1], m);
      StepKeepsInv(m, steps[|steps| - 1]);
    }
  }

  /** No wakeup is lost: a loop blocked with work to do has a readable eventfd, or a thread is about to make it so. */
  lemma NoLostWakeup<Op>(steps: seq<Step<Op>>, r: State<Op>)
    requires Run(Init(), steps) == Some(r) && r.pc.Polling? && Work(r)
    ensures r.counter > 0 || exists t :: t in r.owing && Enabled(r, Notify(t)) && Do(r, Notify(t)).counter > 0
  {
    Reachable(steps, r);
    if r.counter == 0 {
      var t :| t in r.owing;
      assert Enabled(r, Notify(t));
    }
  }

  /** Ops run in acceptance order, none twice; when the thread has exited, all of them ran. */
  lemma RunOnceInOrder<Op>(steps: seq<Step<Op>>, r: State<Op>)
    requires Run(Init(), steps) == Some(r)
    ensures r.executed <= r.accepted
    ensures r.pc.Exited? ==> r.executed == r.accepted
    ensures r.returned != {} ==> r.pc.Exited? && r.executed == r.accepted
  {
    Reachable(steps, r);
    if r.pc.Exited? {
      assert r.executed + ([] + []) == r.executed;
    }
  }

  function Drains<Op>(steps: seq<Step<Op>>): (n: nat) {
    if steps == [] then 0 else Drains(steps[..|steps| - 1]) + if steps[|steps| - 1].Drain? then 1 else 0
  }

  function Notifies<Op>(steps: seq<Step<Op>>): (n: nat) {
    if steps == [] then 0 else Notifies(steps[..|steps| - 1]) + if steps[|steps| - 1].Notify? then 1 else 0
  }

  /**
   The loop does not spin: every time it wakes to a readable eventfd, a Notify paid
   for it, and one Notify pays for one such wakeup only.
   */
  lemma {:induction false} WakeupsArePaid<Op>(steps: seq<Step<Op>>, r: State<Op>)
    requires Run(Init(), steps) == Some(r)
    ensures Drains(steps) + (if r.counter > 0 then 1 else 0) <= Notifies(steps)
    decreases |steps|
  {
    if steps != [] {
      var front := steps[..|steps| - 1];
      var m := Run(Init(), front).value;
      Reachable(front, m);
      WakeupsArePaid(front, m);
    }
  }

  // ------------------------------------------------------------ the loop ends

  /** How many steps of its own the loop can still take once stop was requested. */
  function Remaining<Op>(s: State<Op>): (n: nat) {
    match s.pc
    case Exited => 0
    case Running(batch, true) => |batch| + 1
    case Top => |s.ops| + 2
    case Woken(false) => |s.ops| + 3
    case Woken(true) => |s.ops| + 4
    case Polling => |s.ops| + 5
    case Preparing => |s.ops| + 6
    case Running(batch, false) => |batch| + |s.ops| + 7
  }

  function LoopSteps<Op>(steps: seq<Step<Op>>): (n: nat) {
    if steps == [] then 0
    else LoopSteps(steps[..|steps| - 1]) + if steps[|steps| - 1].OfLoop() then 1 else 0
  }

  lemma StopCountsDown<Op>(s: State<Op>, step: Step<Op>)
    requires s.stopRequested && Enabled(s, step)
    ensures var r := Do(s, step);
            && r.stopRequested && r.accepted == s.accepted
            && (step.OfLoop() ==> Remaining(r) < Remaining(s))
            && (!step.OfLoop() ==> Remaining(r) == Remaining(s))
  {
  }

  /** After a stop request no op is accepted, and in any continuation the loop takes boundedly many steps. */
  lemma {:induction false} StopIsBounded<Op>(s: State<Op>, steps: seq<Step<Op>>, r: State<Op>)
    requires s.stopRequested && Run(s, steps) == Some(r)
    ensures r.stopRequested && r.accepted == s.accepted
    ensures LoopSteps(steps) + Remaining(r) <= Remaining(s)
    decreases |steps|
  {
    hide Remaining, Do, Enabled;
    if steps != [] {
      var front, last := steps[..|steps| - 1], steps[|steps| - 1];
      var m := Run(s, front).value;
      StopIsBounded(s, front, m);
      StopCountsDown(m, last);
    }
  }

  /** And it is never stuck on the way: the loop can step, or some thread still owes a Notify. */
  lemma StopMakesProgress<Op>(s: State<Op>)
    requires Inv(s) && s.stopRequested && !s.pc.Exited?
    ensures (exists step: Step<Op> :: step.OfLoop() && Enabled(s, step) && !(step.PollInterrupted?)
                                      && (step.PollReturns? ==> s.counter > 0))
            || (exists t :: t in s.owing && Enabled(s, Notify(t)))
  {
    var step: Step<Op> := match s.pc
      case Top => TakeQueue
      case Running(batch, _) => if batch == [] then BatchDone else RunOp
      case Preparing => Prepare
      case Polling => PollReturns
      case Woken(readable) => if readable then Drain else Dispatch
      case Exited => TakeQueue;
    assert Enabled(s, step) && step.OfLoop();
    if s.pc.Polling? && s.counter == 0 {
      var t :| t in s.owing;
      assert Enabled(s, Notify(t));
    }
  }
}
