/**
 The whole system: caller threads inside UnaryCall, threads inside Shutdown, the
 op queue with its wakeup, and the channel on the event thread, interleaved in
 any order. The loop protocol and the channel are used as already proved.
 */
module ChannelSystem {
  import opened Octets
  import Status
  import L = EventLoop
  import opened SessionModel
  import opened ChannelModel
  import S = ChannelSafety
  import R = ChannelRuns

  /** What is posted to the loop. */
  datatype Job = RunCall(call: CallId) | RunShutdown

  datatype Caller =
    | Posted                // op queued, Notify still owed
    | Waiting               // blocked until the call has a result
    | Returned              // UnaryCall has returned the call's result
    | Oversize(size: nat)   // rejected before anything was queued

  /** Where the thread that holds the shutdown mutex is. */
  datatype Shutter = Free | Entered(t: nat) | PostedOp(t: nat) | AwaitsDone(t: nat) | MustStop(t: nat)
                   | Stopping(t: nat) | Joining(t: nat) | Leaving(t: nat)

  datatype System = System(
    loop: L.State<Job>,
    ch: Channel,
    callers: map<CallId, Caller>,
    refused: map<CallId, Completion>,  // calls whose Post was refused: failed by their own thread
    shutdownDone: bool,
    shutter: Shutter,
    shutdowns: nat)                    // how many Shutdown calls have returned

  const START_SYSTEM := System(L.Init(), START, map[], map[], false, Free, 0)

  function CallThread(c: CallId): L.ThreadId { 2 * c }
  function ShutThread(t: nat): L.ThreadId { 2 * t + 1 }

  predicate HasResult(sys: System, c: CallId) { c in sys.refused || c in sys.ch.results }

  /** What UnaryCall returns for a call, once it can return. */
  function ResultOf(o: Config, sys: System, c: CallId): (how: Option<Completion>) {
    if c in sys.callers && sys.callers[c].Oversize? then Some(TooLarge(sys.callers[c].size, o.maxSend))
    else if c in sys.refused then Some(sys.refused[c])
    else if c in sys.ch.results then Some(sys.ch.results[c])
    else None
  }

  datatype Step =
    | MakeCall(call: CallId, size: nat)   // UnaryCall with a request of that many bytes, up to and including Post
    | NotifyCall(call: CallId)
    | ReturnCall(call: CallId)
    | EnterShutdown(t: nat) | PostShutdown | NotifyShutdown | SeeDone
    | RequestStop | NotifyStop | JoinLoop | LeaveShutdown
    | LoopStep(step: L.Step<Job>)     // queue, poll and wakeup steps of the event thread
    | LoopRunsOp(event: Event)        // the next op of the batch, and what its handler meets
    | LoopRunsTimer(event: Event)     // while preparing to poll
    | LoopRunsSocket(event: Event)    // after poll

  predicate LoopOnly(step: L.Step<Job>) { step.OfLoop() && !step.RunOp? }

  ghost predicate Enabled(sys: System, step: Step, maxSkew: nat) {
    match step
    case MakeCall(c, _) => c !in sys.callers && CallThread(c) !in sys.loop.owing
    case NotifyCall(c) => c in sys.callers && sys.callers[c].Posted? && CallThread(c) in sys.loop.owing
    case ReturnCall(c) => c in sys.callers && sys.callers[c].Waiting? && HasResult(sys, c)
    case EnterShutdown(t) => sys.shutter.Free?
    case PostShutdown => sys.shutter.Entered? && ShutThread(sys.shutter.t) !in sys.loop.owing
    case NotifyShutdown => sys.shutter.PostedOp? && ShutThread(sys.shutter.t) in sys.loop.owing
    case SeeDone => sys.shutter.AwaitsDone? && RunShutdown in sys.loop.executed
    case RequestStop => sys.shutter.MustStop? && ShutThread(sys.shutter.t) !in sys.loop.owing
    case NotifyStop => sys.shutter.Stopping? && ShutThread(sys.shutter.t) in sys.loop.owing
    case JoinLoop => sys.shutter.Joining? && L.Enabled(sys.loop, L.Join(ShutThread(sys.shutter.t)))
    case LeaveShutdown => sys.shutter.Leaving?
    case LoopStep(s) => LoopOnly(s) && L.Enabled(sys.loop, s)
    case LoopRunsOp(e) =>
      && L.Enabled(sys.loop, L.RunOp)
      && (match sys.loop.pc.batch[0]
          case RunCall(c) => e.NewCall? && e.call == c && S.FreshId(sys.ch, e.id)
          case RunShutdown => e.ShutdownOp?)
    case LoopRunsTimer(e) => sys.loop.pc.Preparing? && e.TimerFires? && R.Enabled(sys.ch, e, maxSkew)
    case LoopRunsSocket(e) =>
      sys.loop.pc.Woken? && !sys.loop.pc.readable && (e.Connect? || e.Traffic?) && R.Enabled(sys.ch, e, maxSkew)
  }

  ghost function Do(o: Config, sys: System, step: Step, maxSkew: nat): (r: System)
    requires Enabled(sys, step, maxSkew)
  {
    match step
    case MakeCall(c, size) =>
      if size > o.maxSend then sys.(callers := sys.callers[c := Oversize(size)])
      else if sys.loop.stopRequested
      then sys.(callers := sys.callers[c := Waiting], refused := sys.refused[c := FailedWith(ChannelShutDown)])
      else sys.(callers := sys.callers[c := Posted], loop := L.Do(sys.loop, L.Post(CallThread(c), RunCall(c))))
    case NotifyCall(c) => sys.(callers := sys.callers[c := Waiting], loop := L.Do(sys.loop, L.Notify(CallThread(c))))
    case ReturnCall(c) => sys.(callers := sys.callers[c := Returned])
    case EnterShutdown(t) => sys.(shutdownDone := true, shutter := if sys.shutdownDone then Leaving(t) else Entered(t))
    case PostShutdown =>
      var t := sys.shutter.t;
      if sys.loop.stopRequested then sys.(shutter := MustStop(t))
      else sys.(loop := L.Do(sys.loop, L.Post(ShutThread(t), RunShutdown)), shutter := PostedOp(t))
    case NotifyShutdown =>
      sys.(loop := L.Do(sys.loop, L.Notify(ShutThread(sys.shutter.t))), shutter := AwaitsDone(sys.shutter.t))
    case SeeDone => sys.(shutter := MustStop(sys.shutter.t))
    case RequestStop =>
      sys.(loop := L.Do(sys.loop, L.RequestStop(ShutThread(sys.shutter.t))), shutter := Stopping(sys.shutter.t))
    case NotifyStop =>
      sys.(loop := L.Do(sys.loop, L.Notify(ShutThread(sys.shutter.t))), shutter := Joining(sys.shutter.t))
    case JoinLoop => sys.(loop := L.Do(sys.loop, L.Join(ShutThread(sys.shutter.t))), shutter := Leaving(sys.shutter.t))
    case LeaveShutdown => sys.(shutter := Free, shutdowns := sys.shutdowns + 1)
    case LoopStep(s) => sys.(loop := L.Do(sys.loop, s))
    case LoopRunsOp(e) => sys.(loop := L.Do(sys.loop, L.RunOp), ch := Handle(o, sys.ch, e))
    case LoopRunsTimer(e) => sys.(ch := Handle(o, sys.ch, e))
    case LoopRunsSocket(e) => sys.(ch := Handle(o, sys.ch, e))
  }

  // ------------------------------------------------------------ invariants

  ghost function CallsIn(jobs: seq<Job>): (cs: set<CallId>) { set j | j in jobs && j.RunCall? :: j.call }

  /** No call is posted twice. */
  ghost predicate OnceEach(jobs: seq<Job>) {
    forall i, j :: 0 <= i < j < |jobs| && jobs[i].RunCall? && jobs[j].RunCall? ==> jobs[i].call != jobs[j].call
  }

  /** Calls: the channel knows exactly the ones whose op has run; every caller was accepted, refused or too big. */
  ghost predicate CallsRight(sys: System) {
    && S.Known(sys.ch) == CallsIn(sys.loop.executed)
    && OnceEach(sys.loop.accepted)
    && CallsIn(sys.loop.accepted) !! sys.refused.Keys
    && (forall c :: c in sys.refused ==> sys.refused[c] == FailedWith(ChannelShutDown))
    && (forall c :: c in CallsIn(sys.loop.accepted) || c in sys.refused ==> c in sys.callers)
    && (forall c :: c in sys.callers ==>
          sys.callers[c].Oversize? || c in CallsIn(sys.loop.accepted) || c in sys.refused)
  }

  /** Shutdown: only a thread past the done signal can ask the loop to stop, and only after a join does it leave. */
  ghost predicate ShutdownRight(sys: System) {
    && (RunShutdown in sys.loop.executed ==> sys.ch.phase.ShutDown?)
    && (sys.loop.stopRequested ==> RunShutdown in sys.loop.executed)
    && (sys.shutter.Entered? || sys.shutter.PostedOp? || sys.shutter.AwaitsDone? || sys.shutter.MustStop? ==>
          sys.shutdownDone && !sys.loop.stopRequested)
    && (sys.shutter.MustStop? ==> RunShutdown in sys.loop.executed)
    && (sys.shutter.Stopping? || sys.shutter.Joining? ==> sys.loop.stopRequested)
    && (sys.shutter.Leaving? ==> sys.loop.pc.Exited?)
    && (sys.shutter.Free? && sys.shutdownDone ==> sys.loop.pc.Exited?)
    && (sys.shutdowns > 0 ==> sys.loop.pc.Exited?)
    && (!sys.shutdownDone ==> sys.shutter.Free? && !sys.loop.stopRequested)
  }

  /** Who still owes a Notify: a caller that has posted, or the thread inside Shutdown. */
  ghost predicate Owes(sys: System, t: L.ThreadId) {
    if t % 2 == 0 then t / 2 in sys.callers && sys.callers[t / 2].Posted?
    else (sys.shutter.PostedOp? || sys.shutter.Stopping?) && t == ShutThread(sys.shutter.t)
  }

  /** A Notify is owed exactly by the threads that are between lock and Notify. */
  ghost predicate OwedRight(sys: System) {
    && (forall t :: t in sys.loop.owing <==> Owes(sys, t))
    && (sys.shutter.Stopping? || sys.shutter.Joining? ==> sys.loop.joiner == Some(ShutThread(sys.shutter.t)))
    && (sys.shutter.PostedOp? || sys.shutter.AwaitsDone? ==> RunShutdown in sys.loop.accepted)
  }

  ghost predicate Inv(o: Config, sys: System, maxSkew: nat) {
    && L.Inv(sys.loop) && S.Inv(o, sys.ch, maxSkew)
    && CallsRight(sys) && ShutdownRight(sys) && OwedRight(sys)
  }

  lemma OneMoreCall(jobs: seq<Job>, job: Job)
    ensures CallsIn(jobs + [job]) == CallsIn(jobs) + if job.RunCall? then {job.call} else {}
    ensures OnceEach(jobs) && (job.RunCall? ==> job.call !in CallsIn(jobs)) ==> OnceEach(jobs + [job])
    ensures forall j :: j in jobs + [job] <==> j in jobs || j == job
  {
    var more := jobs + [job];
    assert forall j :: j in more <==> j in jobs || j == job;
    if job.RunCall? && job.call !in CallsIn(jobs) {
      assert forall i :: 0 <= i < |jobs| && jobs[i].RunCall? ==> jobs[i] in jobs;
    }
  }

  /** The next op of the batch is a call the channel has not seen. */
  lemma NextIsNew(sys: System)
    requires L.Inv(sys.loop) && OnceEach(sys.loop.accepted) && L.Enabled(sys.loop, L.RunOp)
    ensures var job := sys.loop.pc.batch[0];
            job.RunCall? ==> job.call !in CallsIn(sys.loop.executed)
  {
    var s := sys.loop;
    var n := |s.executed|;
    assert s.accepted[n] == s.pc.batch[0];
    forall j | j in s.executed && j.RunCall? && s.pc.batch[0].RunCall?
      ensures j.call != s.pc.batch[0].call
    {
      var i :| 0 <= i < n && s.executed[i] == j;
      assert s.accepted[i] == j;
    }
  }

  predicate OfShutdown(step: Step) {
    || step.EnterShutdown? || step.PostShutdown? || step.NotifyShutdown? || step.SeeDone?
    || step.RequestStop? || step.NotifyStop? || step.JoinLoop? || step.LeaveShutdown?
  }

  /** A caller that was not there before is accepted, refused or too big. */
  lemma CallerAdded(sys: System, r: System, c: CallId, accepted: bool)
    requires CallsRight(sys) && c !in sys.callers && r.ch == sys.ch && r.loop.executed == sys.loop.executed
    requires c in r.callers && r.callers == sys.callers[c := r.callers[c]]
    requires accepted ==> r.loop.accepted == sys.loop.accepted + [RunCall(c)] && r.refused == sys.refused
    requires !accepted ==> r.loop.accepted == sys.loop.accepted
    requires !accepted ==>
               || (r.callers[c].Oversize? && r.refused == sys.refused)
               || r.refused == sys.refused[c := FailedWith(ChannelShutDown)]
    ensures CallsRight(r)
  {
    hide CallsIn, OnceEach, S.Known;
    OneMoreCall(sys.loop.accepted, RunCall(c));
  }

  lemma MakeCallKeeps(o: Config, sys: System, c: CallId, size: nat, maxSkew: nat)
    requires Inv(o, sys, maxSkew) && Enabled(sys, MakeCall(c, size), maxSkew)
    ensures Inv(o, Do(o, sys, MakeCall(c, size), maxSkew), maxSkew)
  {
    hide S.Inv, L.Inv, OwedRight, CallsRight;
    MakeCallOwes(o, sys, c, size, maxSkew);
    var accepted := size <= o.maxSend && !sys.loop.stopRequested;
    CallerAdded(sys, Do(o, sys, MakeCall(c, size), maxSkew), c, accepted);
    if accepted { L.StepKeepsInv(sys.loop, L.Post(CallThread(c), RunCall(c))); }
  }

  lemma MakeCallOwes(o: Config, sys: System, c: CallId, size: nat, maxSkew: nat)
    requires Inv(o, sys, maxSkew) && Enabled(sys, MakeCall(c, size), maxSkew)
    ensures OwedRight(Do(o, sys, MakeCall(c, size), maxSkew))
  {
    hide S.Inv, L.Inv, CallsRight;
  }

  lemma CallerStepKeeps(o: Config, sys: System, step: Step, maxSkew: nat)
    requires Inv(o, sys, maxSkew) && Enabled(sys, step, maxSkew) && (step.NotifyCall? || step.ReturnCall?)
    ensures Inv(o, Do(o, sys, step, maxSkew), maxSkew)
  {
    hide S.Inv, L.Inv, CallsIn, OnceEach, S.Known;
    if step.NotifyCall? { L.StepKeepsInv(sys.loop, L.Notify(CallThread(step.call))); }
  }

  lemma ShutdownPosts(o: Config, sys: System, maxSkew: nat)
    requires Inv(o, sys, maxSkew) && Enabled(sys, PostShutdown, maxSkew)
    ensures Inv(o, Do(o, sys, PostShutdown, maxSkew), maxSkew)
  {
    hide S.Inv, L.Inv, CallsIn, OnceEach;
    L.StepKeepsInv(sys.loop, L.Post(ShutThread(sys.shutter.t), RunShutdown));
    OneMoreCall(sys.loop.accepted, RunShutdown);
  }

  lemma ShutdownStops(o: Config, sys: System, maxSkew: nat)
    requires Inv(o, sys, maxSkew) && Enabled(sys, RequestStop, maxSkew)
    ensures Inv(o, Do(o, sys, RequestStop, maxSkew), maxSkew)
  {
    hide S.Inv, CallsRight;
    L.StepKeepsInv(sys.loop, L.RequestStop(ShutThread(sys.shutter.t)));
    assert !sys.loop.joined;
    CallsStay(sys, Do(o, sys, RequestStop, maxSkew));
  }

  /** The calls' bookkeeping looks at the two histories, the channel and the callers only. */
  lemma CallsStay(sys: System, r: System)
    requires CallsRight(sys) && r.ch == sys.ch && r.callers == sys.callers && r.refused == sys.refused
    requires r.loop.accepted == sys.loop.accepted && r.loop.executed == sys.loop.executed
    ensures CallsRight(r)
  {
    hide CallsIn, OnceEach, S.Known;
  }

  lemma ShutdownStepKeeps(o: Config, sys: System, step: Step, maxSkew: nat)
    requires Inv(o, sys, maxSkew) && Enabled(sys, step, maxSkew)
    requires OfShutdown(step) && !step.PostShutdown? && !step.RequestStop?
    ensures Inv(o, Do(o, sys, step, maxSkew), maxSkew)
  {
    hide S.Inv, L.Inv, CallsRight;
    CallsStay(sys, Do(o, sys, step, maxSkew));
    match step
    case NotifyShutdown => L.StepKeepsInv(sys.loop, L.Notify(ShutThread(sys.shutter.t)));
    case NotifyStop => L.StepKeepsInv(sys.loop, L.Notify(ShutThread(sys.shutter.t)));
    case JoinLoop => L.StepKeepsInv(sys.loop, L.Join(ShutThread(sys.shutter.t)));
    case EnterShutdown(t) =>
    case SeeDone =>
    case LeaveShutdown =>
  }

  /** Steps of the loop itself touch neither the histories nor what other threads see. */
  lemma LoopLeaves(s: L.State<Job>, step: L.Step<Job>)
    requires LoopOnly(step) && L.Enabled(s, step)
    ensures var r := L.Do(s, step);
            && r.owing == s.owing && r.joiner == s.joiner && r.stopRequested == s.stopRequested
            && r.accepted == s.accepted && r.executed == s.executed && (s.pc.Exited? ==> r.pc.Exited?)
  {
  }

  lemma LoopStepKeeps(o: Config, sys: System, step: Step, maxSkew: nat)
    requires Inv(o, sys, maxSkew) && Enabled(sys, step, maxSkew) && step.LoopStep?
    ensures Inv(o, Do(o, sys, step, maxSkew), maxSkew)
  {
    hide S.Inv, L.Inv, L.Do, L.Enabled, CallsRight;
    L.StepKeepsInv(sys.loop, step.step);
    LoopLeaves(sys.loop, step.step);
    CallsStay(sys, Do(o, sys, step, maxSkew));
  }

  /** A channel event that is not a new call: the calls stay the same ones, and a shut-down channel stays shut down. */
  lemma EventKeeps(o: Config, sys: System, e: Event, maxSkew: nat)
    requires Inv(o, sys, maxSkew) && !e.NewCall? && R.Enabled(sys.ch, e, maxSkew)
    ensures Inv(o, sys.(ch := Handle(o, sys.ch, e)), maxSkew)
  {
    hide S.Inv, L.Inv, Handle;
    R.HandleKeeps(o, sys.ch, e, maxSkew);
    MovedFacts(sys.ch, Handle(o, sys.ch, e), {});
  }

  lemma MovedFacts(ch: Channel, r: Channel, x: set<CallId>)
    requires S.Moves(ch, r, x)
    ensures S.Known(r) == S.Known(ch) + x
    ensures ch.phase.ShutDown? ==> r.phase.ShutDown?
  {
    hide S.Core;
  }

  /** The op that ran is the next accepted one, and the channel knows its call from then on. */
  lemma OpCounted(sys: System, r: System, job: Job)
    requires CallsRight(sys) && r.callers == sys.callers && r.refused == sys.refused
    requires r.loop.accepted == sys.loop.accepted && r.loop.executed == sys.loop.executed + [job]
    requires S.Known(r.ch) == S.Known(sys.ch) + if job.RunCall? then {job.call} else {}
    ensures CallsRight(r)
  {
    hide CallsIn, OnceEach, S.Known;
    OneMoreCall(sys.loop.executed, job);
  }

  lemma OpRuns(s: L.State<Job>)
    requires L.Enabled(s, L.RunOp)
    ensures var r := L.Do(s, L.RunOp);
            && r.owing == s.owing && r.joiner == s.joiner && r.stopRequested == s.stopRequested && r.pc.Running?
            && r.accepted == s.accepted && r.executed == s.executed + [s.pc.batch[0]]
            && forall j :: j in r.executed <==> j in s.executed || j == s.pc.batch[0]
  {
    OneMoreCall(s.executed, s.pc.batch[0]);
  }

  lemma OpKeeps(o: Config, sys: System, step: Step, maxSkew: nat)
    requires Inv(o, sys, maxSkew) && Enabled(sys, step, maxSkew) && step.LoopRunsOp?
    ensures Inv(o, Do(o, sys, step, maxSkew), maxSkew)
  {
    var e, job := step.event, sys.loop.pc.batch[0];
    OpEnabled(o, sys, e, maxSkew);
    hide S.Inv, S.Moves, S.Known, Handle, L.Inv, L.Do, CallsRight, R.Enabled, OwedRight, ShutdownRight;
    L.StepKeepsInv(sys.loop, L.RunOp);
    OpRuns(sys.loop);
    R.HandleKeeps(o, sys.ch, e, maxSkew);
    MovedFacts(sys.ch, Handle(o, sys.ch, e), R.CallsOf(e));
    OpCounted(sys, Do(o, sys, step, maxSkew), job);
    if job.RunShutdown? { ShutdownShuts(o, sys.ch, e, maxSkew); }
    OpRest(sys, Do(o, sys, step, maxSkew), job);
  }

  /** Running an op touches neither the threads inside Shutdown nor what they wait for, except by being theirs. */
  lemma OpRest(sys: System, r: System, job: Job)
    requires ShutdownRight(sys) && OwedRight(sys)
    requires r.callers == sys.callers && r.shutter == sys.shutter && r.shutdownDone == sys.shutdownDone
    requires r.shutdowns == sys.shutdowns && sys.loop.pc.Running? && r.loop.pc.Running?
    requires r.loop.owing == sys.loop.owing && r.loop.joiner == sys.loop.joiner
    requires r.loop.stopRequested == sys.loop.stopRequested && r.loop.accepted == sys.loop.accepted
    requires forall j :: j in r.loop.executed <==> j in sys.loop.executed || j == job
    requires sys.ch.phase.ShutDown? || job.RunShutdown? ==> r.ch.phase.ShutDown?
    ensures ShutdownRight(r) && OwedRight(r)
  {
  }

  lemma OpEnabled(o: Config, sys: System, e: Event, maxSkew: nat)
    requires Inv(o, sys, maxSkew) && Enabled(sys, LoopRunsOp(e), maxSkew)
    ensures R.Enabled(sys.ch, e, maxSkew)
  {
    hide S.Inv, ShutdownRight, OwedRight;
    NextIsNew(sys);
  }

  lemma ShutdownShuts(o: Config, ch: Channel, e: Event, maxSkew: nat)
    requires S.Inv(o, ch, maxSkew) && e.ShutdownOp?
    ensures Handle(o, ch, e).phase.ShutDown?
  {
    hide S.Inv;
    R.ShutdownKeeps(o, ch, e, maxSkew);
  }

  lemma StepKeeps(o: Config, sys: System, step: Step, maxSkew: nat)
    requires Inv(o, sys, maxSkew) && Enabled(sys, step, maxSkew)
    ensures Inv(o, Do(o, sys, step, maxSkew), maxSkew)
  {
    hide S.Inv, L.Inv, CallsRight, ShutdownRight, Handle;
    match step
    case LoopStep(_) => LoopStepKeeps(o, sys, step, maxSkew);
    case LoopRunsOp(_) => OpKeeps(o, sys, step, maxSkew);
    case LoopRunsTimer(e) => EventKeeps(o, sys, e, maxSkew);
    case LoopRunsSocket(e) => EventKeeps(o, sys, e, maxSkew);
    case MakeCall(c, size) => MakeCallKeeps(o, sys, c, size, maxSkew);
    case NotifyCall(_) => CallerStepKeeps(o, sys, step, maxSkew);
    case ReturnCall(_) => CallerStepKeeps(o, sys, step, maxSkew);
    case PostShutdown => ShutdownPosts(o, sys, maxSkew);
    case RequestStop => ShutdownStops(o, sys, maxSkew);
    case _ => ShutdownStepKeeps(o, sys, step, maxSkew);
  }

  // ------------------------------------------------------------ every interleaving

  ghost function Run(o: Config, steps: seq<Step>, maxSkew: nat): (r: Option<System>) {
    if steps == [] then Some(START_SYSTEM)
    else
      var m := Run(o, steps[..|steps| - 1], maxSkew);
      if m.Some? && Enabled(m.value, steps[|steps| - 1], maxSkew)
      then Some(Do(o, m.value, steps[|steps| - 1], maxSkew)) else None
  }

  lemma {:induction false} Reachable(o: Config, steps: seq<Step>, sys: System, maxSkew: nat)
    requires Run(o, steps, maxSkew) == Some(sys)
    ensures Inv(o, sys, maxSkew)
    decreases |steps|
  {
    hide Inv, Do, Enabled;
    if steps == [] {
      StartKeeps(o, maxSkew);
    } else {
      var m := Run(o, steps[..|steps| - 1], maxSkew).value;
      Reachable(o, steps[..|steps| - 1], m, maxSkew);
      StepKeeps(o, m, steps[|steps| - 1], maxSkew);
    }
  }

  lemma StartKeeps(o: Config, maxSkew: nat)
    ensures Inv(o, START_SYSTEM, maxSkew)
  {
    R.StartIsSound(o, maxSkew);
  }

  /**
   Where a call is, at any moment of any interleaving: refused, still in the op
   queue or the batch, queued in the channel, in flight, or finished; never in two places.
   */
  lemma OnePlacePerCall(o: Config, steps: seq<Step>, sys: System, maxSkew: nat, c: CallId)
    requires Run(o, steps, maxSkew) == Some(sys)
    requires c in sys.callers && !sys.callers[c].Oversize?
    ensures var queued := c in CallsIn(L.Batch(sys.loop) + sys.loop.ops);
            var ch := sys.ch;
            && (c in sys.refused || queued || c in ch.pending || c in ch.active || c in ch.results)
            && (c in sys.refused ==> !queued && c !in ch.pending && c !in ch.active && c !in ch.results)
            && (queued ==> c !in ch.pending && c !in ch.active && c !in ch.results)
            && !(c in ch.pending && c in ch.active) && !(c in ch.pending && c in ch.results)
            && !(c in ch.active && c in ch.results)
  {
    Reachable(o, steps, sys, maxSkew);
    hide Run, S.Timed, S.Linked, S.Armed, S.Settled, ShutdownRight;
    QueueIsNew(sys, c);
    assert c in sys.ch.pending <==> c in Elements(sys.ch.pending);
  }

  lemma QueueIsNew(sys: System, c: CallId)
    requires L.Inv(sys.loop) && OnceEach(sys.loop.accepted)
    ensures var queue := L.Batch(sys.loop) + sys.loop.ops;
            && (c in CallsIn(sys.loop.accepted) <==> c in CallsIn(sys.loop.executed) || c in CallsIn(queue))
            && !(c in CallsIn(sys.loop.executed) && c in CallsIn(queue))
  {
    var s := sys.loop;
    var queue := L.Batch(s) + s.ops;
    assert forall j :: j in s.accepted <==> j in s.executed || j in queue;
    NotInBoth(s.executed, queue, c);
    InCalls(s.accepted, c);
    InCalls(s.executed, c);
    InCalls(queue, c);
  }

  lemma NotInBoth(a: seq<Job>, b: seq<Job>, c: CallId)
    requires OnceEach(a + b)
    ensures !(RunCall(c) in a && RunCall(c) in b)
  {
    var all := a + b;
    forall i, k | 0 <= i < |a| && 0 <= k < |b| && a[i].RunCall? && b[k].RunCall?
      ensures a[i].call != b[k].call
    {
      assert all[i] == a[i] && all[|a| + k] == b[k];
    }
  }

  lemma InCalls(jobs: seq<Job>, c: CallId)
    ensures c in CallsIn(jobs) <==> RunCall(c) in jobs
  {
    if c in CallsIn(jobs) {
      var j :| j in jobs && j.RunCall? && j.call == c;
      assert j == RunCall(c);
    }
    if RunCall(c) in jobs {
      assert RunCall(c).call == c;
    }
  }

  /** How a call can end as far as its caller sees: by its stream, or unavailable, or too large to send. */
  predicate Answered(o: Config, sys: System, c: CallId) {
    var how := ResultOf(o, sys, c);
    && c in sys.callers && how.Some?
    && if sys.callers[c].Oversize? then how.value.FailedLocally? && how.value.code == Status.ResourceExhausted
       else how.value.Finished? || how.value.IsUnavailable()
  }

  /**
   Once any Shutdown has returned: the event thread is gone, everything accepted
   ran, the channel is shut down and holds nothing, and every call ever made has a
   result, so no waiter stays blocked.
   */
  lemma ShutdownUnblocksEveryone(o: Config, steps: seq<Step>, sys: System, maxSkew: nat)
    requires Run(o, steps, maxSkew) == Some(sys) && sys.shutdowns > 0
    ensures sys.loop.pc.Exited? && sys.loop.executed == sys.loop.accepted
    ensures sys.ch.phase.ShutDown? && S.Released(sys.ch)
    ensures forall c :: c in sys.callers ==> Answered(o, sys, c)
    ensures forall c :: c in sys.callers && sys.callers[c].Waiting? ==> Enabled(sys, ReturnCall(c), maxSkew)
  {
    Reachable(o, steps, sys, maxSkew);
    hide Run, S.Timed, S.Linked, S.Armed, S.Settled, S.OnePlace, OwedRight;
    var s := sys.loop;
    assert s.executed + ([] + []) == s.executed;
    assert Elements([]) == {};
  }

  /**
   A call made after that returns unavailable, the channel is shut down, and nothing
   but its own thread is involved; a request too large to send is rejected as such.
   */
  lemma CallsAfterShutdownFail(o: Config, steps: seq<Step>, sys: System, maxSkew: nat, c: CallId, size: nat)
    requires Run(o, steps, maxSkew) == Some(sys) && sys.shutdowns > 0
    requires Enabled(sys, MakeCall(c, size), maxSkew)
    ensures var r := Do(o, sys, MakeCall(c, size), maxSkew);
            && r.loop == sys.loop && r.ch == sys.ch
            && (size <= o.maxSend ==>
                  && ResultOf(o, r, c) == Some(FailedLocally(Status.Unavailable, Some(ChannelShutDown)))
                  && Enabled(r, ReturnCall(c), maxSkew))
            && (size > o.maxSend ==>
                  && ResultOf(o, r, c) ==
                     Some(FailedLocally(Status.ResourceExhausted, Some(SentTooLarge(size, o.maxSend))))
                  && r.refused == sys.refused)
  {
    hide Run;
    Reachable(o, steps, sys, maxSkew);
  }

  // ------------------------------------------------------------ Shutdown goes on

  /**
   A step that takes a Shutdown in progress further: one of its own, one of the loop
   that does not wait, or the Notify a sleeping loop waits for.
   */
  predicate Advances(sys: System, step: Step) {
    || OfShutdown(step)
    || step.LoopRunsOp?
    || (step.LoopStep? && !step.step.PollInterrupted? && (step.step.PollReturns? ==> sys.loop.counter > 0))
    || (step.NotifyCall? && sys.loop.pc.Polling? && sys.loop.counter == 0)
  }

  ghost predicate CanAdvance(sys: System, maxSkew: nat) {
    exists step :: Enabled(sys, step, maxSkew) && Advances(sys, step)
  }

  /** What the next op of the batch can meet at the least: no stream id, an idle socket. */
  function PlainEvent(job: Job): Event {
    match job
    case RunCall(c) => NewCall(c, 0, None, -1, [])
    case RunShutdown => ShutdownOp([])
  }

  /** A loop with work to do, while nobody inside Shutdown owes it a Notify, can go on. */
  lemma LoopCanGoOn(sys: System, maxSkew: nat)
    requires L.Inv(sys.loop) && OwedRight(sys) && !sys.loop.pc.Exited?
    requires sys.shutter.AwaitsDone? || sys.shutter.Joining?
    requires sys.loop.pc.Polling? ==> L.Work(sys.loop)
    ensures CanAdvance(sys, maxSkew)
  {
    var s := sys.loop;
    if s.pc.Polling? && s.counter == 0 {
      var t :| t in s.owing;
      assert Owes(sys, t);
      assert CallThread(t / 2) == t;
      assert Enabled(sys, NotifyCall(t / 2), maxSkew) && Advances(sys, NotifyCall(t / 2));
    } else if s.pc.Running? && s.pc.batch != [] {
      var step := LoopRunsOp(PlainEvent(s.pc.batch[0]));
      assert Enabled(sys, step, maxSkew) && Advances(sys, step);
    } else {
      var step: L.Step<Job> := match s.pc
        case Top => L.TakeQueue
        case Running(_, _) => L.BatchDone
        case Preparing => L.Prepare
        case Polling => L.PollReturns
        case Woken(readable) => if readable then L.Drain else L.Dispatch
        case Exited => L.TakeQueue;
      assert Enabled(sys, LoopStep(step), maxSkew) && Advances(sys, LoopStep(step));
    }
  }

  /** What the thread inside Shutdown does next, when it is not waiting. */
  function OwnStep(shutter: Shutter): Step
    requires !shutter.Free?
  {
    match shutter
    case Entered(_) => PostShutdown
    case PostedOp(_) => NotifyShutdown
    case AwaitsDone(_) => SeeDone
    case MustStop(_) => RequestStop
    case Stopping(_) => NotifyStop
    case Joining(_) => JoinLoop
    case Leaving(_) => LeaveShutdown
  }

  /**
   A Shutdown in progress is never stuck, in any interleaving: its thread can go on,
   or the loop it waits for can, or a caller still has to make the Notify that wakes it.
   */
  lemma ShutdownGoesOn(o: Config, steps: seq<Step>, sys: System, maxSkew: nat)
    requires Run(o, steps, maxSkew) == Some(sys) && !sys.shutter.Free?
    ensures CanAdvance(sys, maxSkew)
  {
    Reachable(o, steps, sys, maxSkew);
    hide Run, S.Inv, CallsRight;
    var own := OwnStep(sys.shutter);
    if sys.shutter.AwaitsDone? && RunShutdown !in sys.loop.executed {
      StillQueued(sys);
      LoopCanGoOn(sys, maxSkew);
    } else if sys.shutter.Joining? && !sys.loop.pc.Exited? {
      LoopCanGoOn(sys, maxSkew);
    } else {
      assert Enabled(sys, own, maxSkew) && Advances(sys, own) by { OwnStepEnabled(sys, maxSkew); }
    }
  }

  lemma StillQueued(sys: System)
    requires L.Inv(sys.loop) && RunShutdown in sys.loop.accepted && RunShutdown !in sys.loop.executed
    ensures !sys.loop.pc.Exited? && (sys.loop.pc.Polling? ==> sys.loop.ops != [])
  {
    var s := sys.loop;
    assert RunShutdown in L.Batch(s) + s.ops;
  }

  lemma OwnStepEnabled(sys: System, maxSkew: nat)
    requires OwedRight(sys) && !sys.shutter.Free?
    requires sys.shutter.AwaitsDone? ==> RunShutdown in sys.loop.executed
    requires sys.shutter.Joining? ==> sys.loop.pc.Exited?
    ensures Enabled(sys, OwnStep(sys.shutter), maxSkew)
  {
    var t := ShutThread(sys.shutter.t);
    assert t in sys.loop.owing <==> Owes(sys, t);
  }

  /**
   A call waiting in the queue never waits for a sleeping loop: the eventfd is readable, or a
   Notify is on its way.
   */
  lemma QueuedCallWakesLoop(o: Config, steps: seq<Step>, sys: System, maxSkew: nat, c: CallId)
    requires Run(o, steps, maxSkew) == Some(sys)
    requires sys.loop.pc.Polling? && RunCall(c) in sys.loop.ops
    ensures sys.loop.counter > 0 || sys.loop.owing != {}
    ensures !HasResult(sys, c)
  {
    Reachable(o, steps, sys, maxSkew);
    hide Run, S.Inv, CallsRight;
    QueuedHasNone(o, sys, maxSkew, c);
  }

  lemma QueuedHasNone(o: Config, sys: System, maxSkew: nat, c: CallId)
    requires Inv(o, sys, maxSkew) && RunCall(c) in sys.loop.ops
    ensures !HasResult(sys, c)
  {
    hide S.Inv, ShutdownRight;
    QueueIsNew(sys, c);
    InCalls(L.Batch(sys.loop) + sys.loop.ops, c);
  }
}
