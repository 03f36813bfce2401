/** The session object: the same operations on fields, each proved against `SessionModel`. */
module Http2Sessions {
  import opened Octets
  import opened SessionModel

  class Http2Session {
    const options: Options
    var live: bool
    var error: Error
    var out: seq<byte>
    var outConsumed: nat
    var lastRead: int
    var pingSent: int
    var pingOutstanding: bool
    var pingCounter: nat
    var pingsAcked: nat
    var activeStreams: int
    var streams: map<int, CallId>
    var draining: bool
    var tooManyPings: bool

    ghost function Model(): Session
      reads this
    {
      Session(live, error, out, outConsumed, lastRead, pingSent, pingOutstanding, pingCounter, pingsAcked,
              activeStreams, streams, draining, tooManyPings)
    }

    /** A session whose library setup failed is not live and carries the reason. */
    constructor (options: Options, now: int, failure: Option<string>)
      ensures this.options == options
      ensures Model() == if failure.None? then Init(now) else Init(now).(live := false, error := Library(failure.value))
    {
      this.options := options;
      live, error := failure.None?, if failure.None? then NoError else Library(failure.value);
      out, outConsumed := [], 0;
      lastRead, pingSent, pingOutstanding, pingCounter, pingsAcked := now, 0, false, 0, 0;
      activeStreams, streams, draining, tooManyPings := 0, map[], false, false;
    }

    /** OnFrameRecv and OnStreamClose for one signal. */
    method ListenOne(signal: Signal) returns (hook: seq<(CallId, nat)>)
      modifies this
      ensures Model() == Hear(old(Model()), signal) && hook == HookOf(old(Model()), signal)
    {
      hook := [];
      match signal
      case PingAck =>
        pingOutstanding, pingsAcked := false, pingsAcked + 1;
      case GoAway(tooMany) =>
        draining, tooManyPings := true, tooMany;
      case StreamDelivers(id, event) =>
      case StreamClosed(id, code) =>
        if id in streams {
          hook := [(streams[id], code)];
          streams, activeStreams := streams - {id}, activeStreams - 1;
        }
    }

    method Listen(signals: seq<Signal>) returns (hooks: seq<(CallId, nat)>)
      modifies this
      ensures Model() == HearAll(old(Model()), signals)
      ensures hooks == HooksRun(old(Model()), signals)
    {
      hide Hear, HookOf;
      hooks := [];
      for i := 0 to |signals|
        invariant Model() == HearAll(old(Model()), signals[..i])
        invariant hooks == HooksRun(old(Model()), signals[..i])
      {
        assert signals[..i + 1][..i] == signals[..i];
        var hook := ListenOne(signals[i]);
        hooks := hooks + hook;
      }
      assert signals[..|signals|] == signals;
    }

    method ReceiveBytes(now: int, len: nat, signals: seq<Signal>, failure: Option<string>)
      returns (ok: bool, hooks: seq<(CallId, nat)>)
      modifies this
      ensures Model() == Receive(old(Model()), now, len, signals, failure)
      ensures ok == (old(live) && failure.None?)
      ensures hooks ==
              if old(live) then HooksRun(if len > 0 then old(Model()).(lastRead := now) else old(Model()), signals)
                       else []
    {
      hide HearAll, HooksRun;
      if !live { return false, []; }
      if len > 0 { lastRead := now; }
      hooks := Listen(signals);
      if failure.Some? {
        error := Library(failure.value);
        return false, hooks;
      }
      ok := true;
    }

    method SubmitUnaryRequest(call: CallId, id: int) returns (streamId: int)
      modifies this
      ensures Model() == Submit(old(Model()), call, id)
      ensures streamId == if Accepts(old(Model()), id) then id else -1
    {
      if !live {
        error := NotInitialized;
        return -1;
      }
      if draining {
        error := Draining;
        return -1;
      }
      if id < 0 {
        error := SubmitRefused(id);
        return -1;
      }
      if id !in streams { streams := streams[id := call]; }
      activeStreams := activeStreams + 1;
      streamId := id;
    }

    method PendingOutput(script: seq<Production>) returns (view: seq<byte>, hooks: seq<(CallId, nat)>)
      modifies this
      ensures Model() == Refill(old(Model()), script)
      ensures view == Offered(old(Model()), script)
      ensures hooks == RefillHooks(old(Model()), script)
    {
      hide HearAll, HooksRun, Collect, CollectHooks;
      if !live { return [], []; }
      hooks := [];
      if outConsumed >= |out| {
        out, outConsumed := [], 0;
        var failed;
        failed, hooks := CollectOutput(script);
        if failed { return [], hooks; }
      }
      if outConsumed >= |out| { return [], hooks; }
      view := out[outConsumed..];
    }

    /** The refill loop: appends chunks until the library has no more, or fails. */
    method CollectOutput(script: seq<Production>) returns (failed: bool, hooks: seq<(CallId, nat)>)
      modifies this
      ensures Model() == Collect(old(Model()), script)
      ensures failed == Fails(script)
      ensures hooks == CollectHooks(old(Model()), script)
    {
      hide HearAll, HooksRun;
      hooks := [];
      var i := 0;
      while i < |script|
        invariant i <= |script| && forall k :: 0 <= k < i ==> script[k].Chunk?
        invariant Collect(old(Model()), script) == Collect(Model(), script[i..])
        invariant CollectHooks(old(Model()), script) == hooks + CollectHooks(Model(), script[i..])
      {
        assert script[i..][0] == script[i] && script[i..][1..] == script[i + 1..];
        match script[i]
        case SendError(text) =>
          error := Library(text);
          assert hooks + [] == hooks;
          return true, hooks;
        case Chunk(bytes, signals) =>
          ghost var before := Model();
          var ran := Listen(signals);
          SignalsTouch(before, signals);
          out := out + bytes;
          Assoc(hooks, ran, CollectHooks(Model(), script[i + 1..]));
          hooks := hooks + ran;
          i := i + 1;
      }
      assert script[i..] == [];
      assert hooks + [] == hooks;
      failed := false;
    }

    /** Exactly the bytes the socket did not take are still unsent. */
    method ConsumeOutput(n: nat)
      modifies this
      ensures Model() == Consume(old(Model()), n)
      ensures Unsent(Model()) == old(Unsent(Model()))[Taken(old(Unsent(Model())), n)..]
    {
      outConsumed := outConsumed + n;
      if outConsumed > |out| { outConsumed := |out|; }
    }

    /** The bytes not written yet. */
    method Waiting() returns (bytes: seq<byte>)
      ensures bytes == Unsent(Model())
    {
      bytes := if outConsumed <= |out| then out[outConsumed..] else [];
    }

    method NextKeepaliveDeadline() returns (deadline: Option<int>)
      ensures deadline == Deadline(options, Model())
    {
      if !live { return None; }
      if !options.permitWithoutCalls && activeStreams == 0 { return None; }
      if pingOutstanding { return Some(pingSent + options.keepaliveTimeout); }
      deadline := Some(lastRead + options.keepaliveTime);
    }

    method CheckKeepalive(now: int, refusal: Option<string>) returns (action: Action)
      modifies this
      ensures (Model(), action) == Check(options, old(Model()), now, refusal)
    {
      if !live { return Nothing; }
      if pingOutstanding && lastRead >= pingSent { pingOutstanding := false; }
      if pingOutstanding {
        if now - pingSent >= options.keepaliveTimeout { return Dead; }
        return Nothing;
      }
      if !options.permitWithoutCalls && activeStreams == 0 { return Nothing; }
      if now - lastRead >= options.keepaliveTime {
        pingCounter := pingCounter + 1;
        if refusal.Some? {
          error := Library(refusal.value);
          return Nothing;
        }
        pingSent, pingOutstanding := now, true;
        return PingSent;
      }
      action := Nothing;
    }

    method TerminateSession()
      modifies this
      ensures Model() == Terminate(old(Model()))
    {
      if !live { return; }
      draining := true;
    }
  }

  /**
   Drives a session through any list of operations; the library's answers are in the
   operations. What the socket took of the bytes offered, and what is still waiting,
   are the pipe's, and together they are what the library made.
   */
  method RunSession(options: Options, start: int, ops: seq<Op>) returns (waiting: seq<byte>, wire: seq<byte>)
    ensures waiting == Piped(ops).waiting && wire == Piped(ops).wire
    ensures wire + waiting == Piped(ops).made
  {
    hide Do, Pour, Unsent;
    var session := new Http2Session(options, start, None);
    wire := [];
    for i := 0 to |ops|
      invariant fresh(session) && session.options == options
      invariant session.Model() == Run(options, start, ops[..i]) && wire == Piped(ops[..i]).wire
    {
      assert ops[..i + 1][..i] == ops[..i];
      OutputConserved(options, start, ops[..i]);
      PouredOut(Piped(ops[..i]), ops[i]);
      var took := Drive(session, ops[i]);
      wire := wire + took;
    }
    assert ops[..|ops|] == ops;
    OutputConserved(options, start, ops);
    waiting := session.Waiting();
  }

  lemma PouredOut(p: Pipe, op: Op)
    ensures Pour(p, op).wire == p.wire + if op.Consumed? then p.waiting[..Taken(p.waiting, op.n)] else []
  {
  }

  /** One operation; what a socket takes comes off the bytes offered. */
  method Drive(session: Http2Session, op: Op) returns (took: seq<byte>)
    modifies session
    ensures session.Model() == Do(session.options, old(session.Model()), op)
    ensures took == if op.Consumed? then var view := Unsent(old(session.Model())); view[..Taken(view, op.n)] else []
  {
    took := [];
    match op
    case Received(now, len, signals, failure) => var ok, hooks := session.ReceiveBytes(now, len, signals, failure);
    case Submitted(call, id) => var streamId := session.SubmitUnaryRequest(call, id);
    case Refilled(script) => var view, hooks := session.PendingOutput(script);
    case Consumed(n) =>
      var view := session.Waiting();
      took := view[..Taken(view, n)];
      session.ConsumeOutput(n);
    case Checked(now, refusal) => var action := session.CheckKeepalive(now, refusal);
    case Terminated => session.TerminateSession();
  }
}
