/**
 The HTTP/2 session's own bookkeeping: keepalive with injected time, the
 outbound buffer, the stream table and the sticky error. The HTTP/2 library is
 an oracle: it reports signals and output chunks and picks stream ids.
 */
module SessionModel {
  import opened Octets
  import CallOutcome

  type CallId = nat

  datatype Options = Options(keepaliveTime: int, keepaliveTimeout: int, permitWithoutCalls: bool)

  datatype Error = NoError | NotInitialized | Draining | SubmitRefused(rc: int) | Library(text: string) {
    function Wording(): string {
      match this
      case NoError => ""
      case NotInitialized => "session not initialized"
      case Draining => "session is draining (GOAWAY received); no new streams"
      case SubmitRefused(rc) => "nghttp2_submit_request failed"
      case Library(text) => text
    }
  }

  /** What a stream delivers to its call before it closes. */
  type StreamEvent = e: CallOutcome.Event | e.Headers() || e.Data? witness CallOutcome.Data([])

  /** What the library reports while it is fed or asked for output. */
  datatype Signal =
    | PingAck
    | GoAway(tooManyPings: bool)
    | StreamDelivers(id: int, event: StreamEvent)
    | StreamClosed(id: int, code: nat)

  /** While producing output the library reports closed streams only: everything else arrives with bytes. */
  type Closes = signals: seq<Signal> | forall i :: 0 <= i < |signals| ==> signals[i].StreamClosed?

  /** One answer of the library when asked for output; after the last answer it has no more. */
  datatype Production = Chunk(bytes: seq<byte>, signals: Closes) | SendError(text: string)

  datatype Session = Session(
    live: bool,
    error: Error,
    out: seq<byte>, consumed: nat,
    lastRead: int, pingSent: int, pingOutstanding: bool, pingCounter: nat, pingsAcked: nat,
    activeStreams: int, streams: map<int, CallId>,
    draining: bool, tooManyPings: bool)

  function Init(now: int): Session {
    Session(true, NoError, [], 0, now, 0, false, 0, 0, 0, map[], false, false)
  }

  function Unsent(s: Session): seq<byte> {
    if s.consumed <= |s.out| then s.out[s.consumed..] else []
  }

  // ------------------------------------------------------------ signals

  function Hear(s: Session, signal: Signal): (r: Session) {
    match signal
    case PingAck => s.(pingOutstanding := false, pingsAcked := s.pingsAcked + 1)
    case GoAway(tooMany) => s.(draining := true, tooManyPings := tooMany)
    case StreamDelivers(id, event) => s
    case StreamClosed(id, code) =>
      if id in s.streams then s.(streams := s.streams - {id}, activeStreams := s.activeStreams - 1) else s
  }

  function HearAll(s: Session, signals: seq<Signal>): (r: Session) {
    if signals == [] then s else Hear(HearAll(s, signals[..|signals| - 1]), signals[|signals| - 1])
  }

  /** The hook one signal runs, if any. */
  function HookOf(s: Session, signal: Signal): (hook: seq<(CallId, nat)>) {
    if signal.StreamClosed? && signal.id in s.streams then [(s.streams[signal.id], signal.code)] else []
  }

  /** The on_close hooks a list of signals runs, in order: which call, with which code. */
  function HooksRun(s: Session, signals: seq<Signal>): (hooks: seq<(CallId, nat)>) {
    if signals == [] then []
    else HooksRun(s, signals[..|signals| - 1])
         + HookOf(HearAll(s, signals[..|signals| - 1]), signals[|signals| - 1])
  }

  // ------------------------------------------------------------ operations

  function Receive(s: Session, now: int, len: nat, signals: seq<Signal>, failure: Option<string>): (r: Session) {
    if !s.live then s
    else
      var read := if len > 0 then s.(lastRead := now) else s;
      var heard := HearAll(read, signals);
      if failure.Some? then heard.(error := Library(failure.value)) else heard
  }

  /** A submit the library answers with `id`; a negative answer is a refusal. */
  function Submit(s: Session, call: CallId, id: int): (r: Session) {
    if !s.live then s.(error := NotInitialized)
    else if s.draining then s.(error := Draining)
    else if id < 0 then s.(error := SubmitRefused(id))
    else s.(streams := if id in s.streams then s.streams else s.streams[id := call],
            activeStreams := s.activeStreams + 1)
  }

  predicate Accepts(s: Session, id: int) { s.live && !s.draining && id >= 0 }

  /** The library's answers collected into the buffer, up to the first error. */
  function Collect(s: Session, script: seq<Production>): (r: Session)
    decreases |script|
  {
    if script == [] then s
    else match script[0]
         case SendError(text) => s.(error := Library(text))
         case Chunk(bytes, signals) =>
           Collect(HearAll(s, signals).(out := s.out + bytes), script[1..])
  }

  function CollectHooks(s: Session, script: seq<Production>): (hooks: seq<(CallId, nat)>)
    decreases |script|
  {
    if script == [] || script[0].SendError? then []
    else HooksRun(s, script[0].signals)
         + CollectHooks(HearAll(s, script[0].signals).(out := s.out + script[0].bytes), script[1..])
  }

  predicate Fails(script: seq<Production>) { exists i :: 0 <= i < |script| && script[i].SendError? }

  /** The buffer is refilled only once everything in it was consumed. */
  predicate NeedsRefill(s: Session) { s.live && s.consumed >= |s.out| }

  function Refill(s: Session, script: seq<Production>): (r: Session) {
    if NeedsRefill(s) then Collect(s.(out := [], consumed := 0), script) else s
  }

  function RefillHooks(s: Session, script: seq<Production>): (hooks: seq<(CallId, nat)>) {
    if NeedsRefill(s) then CollectHooks(s.(out := [], consumed := 0), script) else []
  }

  /** What PendingOutput hands out after the refill. */
  function Offered(s: Session, script: seq<Production>): (view: seq<byte>) {
    if !s.live || (NeedsRefill(s) && Fails(script)) then [] else Unsent(Refill(s, script))
  }

  function Consume(s: Session, n: nat): (r: Session) {
    var end := if s.consumed + n > |s.out| then |s.out| else s.consumed + n;
    s.(consumed := end)
  }

  datatype Action = Nothing | PingSent | Dead

  /** When the keepalive machine next has something to do, if it is not gated off. */
  function Clock(o: Options, s: Session): (time: int) {
    if s.pingOutstanding then s.pingSent + o.keepaliveTimeout else s.lastRead + o.keepaliveTime
  }

  function Deadline(o: Options, s: Session): (d: Option<int>) {
    if !s.live || (!o.permitWithoutCalls && s.activeStreams == 0) then None else Some(Clock(o, s))
  }

  /** One evaluation of the keepalive machine; `refusal` is the library's error if it rejects the PING. */
  function Check(o: Options, s: Session, now: int, refusal: Option<string>): (r: (Session, Action)) {
    var s1 := if s.pingOutstanding && s.lastRead >= s.pingSent then s.(pingOutstanding := false) else s;
    if !s.live then (s, Nothing)
    else if s1.pingOutstanding then (s1, if now - s1.pingSent >= o.keepaliveTimeout then Dead else Nothing)
    else if !o.permitWithoutCalls && s1.activeStreams == 0 then (s1, Nothing)
    else if now - s1.lastRead < o.keepaliveTime then (s1, Nothing)
    else
      var s2 := s1.(pingCounter := s1.pingCounter + 1);
      if refusal.Some? then (s2.(error := Library(refusal.value)), Nothing)
      else (s2.(pingSent := now, pingOutstanding := true), PingSent)
  }

  /** After Terminate no call is accepted any more. */
  lemma TerminateRefuses(s: Session, id: int)
    ensures !Accepts(Terminate(s), id)
  {
  }

  function Terminate(s: Session): (r: Session) { if s.live then s.(draining := true) else s }

  // ------------------------------------------------------------ runs

  datatype Op =
    | Received(now: int, len: nat, signals: seq<Signal>, failure: Option<string>)
    | Submitted(call: CallId, id: int)
    | Refilled(script: seq<Production>)
    | Consumed(n: nat)
    | Checked(now: int, refusal: Option<string>)
    | Terminated

  function Do(o: Options, s: Session, op: Op): (r: Session) {
    match op
    case Received(now, len, signals, failure) => Receive(s, now, len, signals, failure)
    case Submitted(call, id) => Submit(s, call, id)
    case Refilled(script) => Refill(s, script)
    case Consumed(n) => Consume(s, n)
    case Checked(now, refusal) => Check(o, s, now, refusal).0
    case Terminated => Terminate(s)
  }

  function Run(o: Options, start: int, ops: seq<Op>): (s: Session) {
    if ops == [] then Init(start) else Do(o, Run(o, start, ops[..|ops| - 1]), ops[|ops| - 1])
  }

  /** Signals change neither the read clock nor the output. */
  lemma {:induction false} SignalsTouch(s: Session, signals: seq<Signal>)
    ensures var r := HearAll(s, signals);
            && r == s.(pingOutstanding := r.pingOutstanding, pingsAcked := r.pingsAcked, draining := r.draining,
                       tooManyPings := r.tooManyPings, streams := r.streams, activeStreams := r.activeStreams)
            && (r.pingOutstanding ==> s.pingOutstanding) && (s.draining ==> r.draining)
  {
    hide Hear;
    if signals != [] {
      SignalsTouch(s, signals[..|signals| - 1]);
      SignalTouches(HearAll(s, signals[..|signals| - 1]), signals[|signals| - 1]);
    }
  }

  /** How many PINGs a list of signals acknowledges. */
  function Acks(signals: seq<Signal>): (n: nat) {
    if signals == [] then 0 else Acks(signals[..|signals| - 1]) + if signals[|signals| - 1].PingAck? then 1 else 0
  }

  /** What the last GOAWAY of a list says about too many PINGs, or else what was known before. */
  function TooMany(signals: seq<Signal>, before: bool): (b: bool) {
    if signals == [] then before
    else if signals[|signals| - 1].GoAway? then signals[|signals| - 1].tooManyPings
    else TooMany(signals[..|signals| - 1], before)
  }

  /** What signals mean: any ack ends the wait for it, and any GOAWAY starts draining. */
  lemma {:induction false} SignalsMean(s: Session, signals: seq<Signal>)
    ensures var r := HearAll(s, signals);
            && (r.pingOutstanding <==> s.pingOutstanding && Acks(signals) == 0)
            && r.pingsAcked == s.pingsAcked + Acks(signals)
            && (r.draining <==> s.draining || exists i :: 0 <= i < |signals| && signals[i].GoAway?)
            && r.tooManyPings == TooMany(signals, s.tooManyPings)
  {
    if signals != [] {
      var front, last := signals[..|signals| - 1], signals[|signals| - 1];
      SignalsMean(s, front);
      assert forall i :: 0 <= i < |front| ==> front[i] == signals[i];
      assert signals[|front|] == last;
      if i :| 0 <= i < |signals| && signals[i].GoAway? {
        if i < |front| { assert front[i].GoAway?; }
      }
    }
  }

  /** And a stream goes exactly when it is reported closed. */
  lemma {:induction false} StreamsGo(s: Session, signals: seq<Signal>, id: int)
    ensures var r := HearAll(s, signals);
            && (id in r.streams <==>
                  id in s.streams && !exists i :: 0 <= i < |signals| && signals[i].StreamClosed? && signals[i].id == id)
            && (id in r.streams ==> r.streams[id] == s.streams[id])
  {
    if signals != [] {
      var front, last := signals[..|signals| - 1], signals[|signals| - 1];
      StreamsGo(s, front, id);
      assert forall i :: 0 <= i < |front| ==> front[i] == signals[i];
      assert signals[|front|] == last;
      if i :| 0 <= i < |signals| && signals[i].StreamClosed? && signals[i].id == id {
        if i < |front| { assert front[i].StreamClosed? && front[i].id == id; }
      }
    }
  }

  lemma SignalTouches(s: Session, signal: Signal)
    ensures var r := Hear(s, signal);
            && r == s.(pingOutstanding := r.pingOutstanding, pingsAcked := r.pingsAcked, draining := r.draining,
                       tooManyPings := r.tooManyPings, streams := r.streams, activeStreams := r.activeStreams)
            && (r.pingOutstanding ==> s.pingOutstanding) && (s.draining ==> r.draining)
  {
  }

  lemma {:induction false} CollectTouches(s: Session, script: seq<Production>)
    ensures var r := Collect(s, script);
            && r.lastRead == s.lastRead && r.pingSent == s.pingSent && r.live == s.live
            && r.consumed == s.consumed && r.pingCounter == s.pingCounter
            && (r.pingOutstanding ==> s.pingOutstanding)
            && r.out == s.out + ChunksOf(script)
    decreases |script|
  {
    hide HearAll;
    if script == [] || script[0].SendError? {
      assert s.out + [] == s.out;
    } else {
      var c := script[0];
      SignalsTouch(s, c.signals);
      CollectTouches(HearAll(s, c.signals).(out := s.out + c.bytes), script[1..]);
      Assoc(s.out, c.bytes, ChunksOf(script[1..]));
    }
  }

  // ------------------------------------------------------------ output

  /** The bytes of the library's answers, up to the first error. */
  function ChunksOf(script: seq<Production>): (bytes: seq<byte>)
    decreases |script|
  {
    if script == [] || script[0].SendError? then [] else script[0].bytes + ChunksOf(script[1..])
  }

  /** How many of the offered bytes a socket takes that reports n of them written. */
  function Taken(view: seq<byte>, n: nat): (k: nat)
    ensures k <= |view|
  {
    if n < |view| then n else |view|
  }

  /**
   The output path as a plain pipe, without session or buffer: what is waiting, what
   went to the socket, and what the library made. The library is asked only when
   nothing is waiting.
   */
  datatype Pipe = Pipe(waiting: seq<byte>, wire: seq<byte>, made: seq<byte>)

  function Pour(p: Pipe, op: Op): (r: Pipe) {
    match op
    case Refilled(script) =>
      if p.waiting == [] then Pipe(ChunksOf(script), p.wire, p.made + ChunksOf(script)) else p
    case Consumed(n) =>
      var k := Taken(p.waiting, n);
      Pipe(p.waiting[k..], p.wire + p.waiting[..k], p.made)
    case _ => p
  }

  function Piped(ops: seq<Op>): (p: Pipe) {
    if ops == [] then Pipe([], [], []) else Pour(Piped(ops[..|ops| - 1]), ops[|ops| - 1])
  }

  /** A pipe loses, repeats and reorders nothing. */
  lemma {:induction false} PipeIsTight(ops: seq<Op>)
    ensures Piped(ops).made == Piped(ops).wire + Piped(ops).waiting
  {
    if ops != [] {
      PipeIsTight(ops[..|ops| - 1]);
      var p, op := Piped(ops[..|ops| - 1]), ops[|ops| - 1];
      if op.Consumed? {
        var k := Taken(p.waiting, op.n);
        assert p.waiting == p.waiting[..k] + p.waiting[k..];
        Assoc(p.wire, p.waiting[..k], p.waiting[k..]);
      } else if op.Refilled? && p.waiting == [] {
        assert p.wire + [] == p.wire;
      }
    }
  }

  /** After a socket took n of the offered bytes, exactly the others are offered next. */
  lemma ConsumeLeaves(s: Session, n: nat)
    ensures Unsent(Consume(s, n)) == Unsent(s)[Taken(Unsent(s), n)..]
  {
  }

  /** What is offered: what was waiting, or else what the library makes now, and nothing if it fails. */
  lemma RefillOffers(s: Session, script: seq<Production>)
    requires s.live
    ensures Unsent(Refill(s, script)) == if Unsent(s) == [] then ChunksOf(script) else Unsent(s)
    ensures Offered(s, script) ==
            if Unsent(s) != [] then Unsent(s) else if Fails(script) then [] else ChunksOf(script)
    ensures NeedsRefill(s) <==> Unsent(s) == []
  {
    hide Collect;
    CollectTouches(s.(out := [], consumed := 0), script);
    assert [] + ChunksOf(script) == ChunksOf(script);
  }

  /**
   Over every run of a session the bytes it holds back are the ones waiting in the
   pipe. So what the socket took, followed by what is still waiting, is what the
   library made: no outbound byte is lost, repeated or reordered.
   */
  lemma {:induction false} OutputConserved(o: Options, start: int, ops: seq<Op>)
    ensures var s, p := Run(o, start, ops), Piped(ops);
            s.live && Unsent(s) == p.waiting && p.made == p.wire + Unsent(s)
    decreases |ops|
  {
    PipeIsTight(ops);
    hide Do, Pour, Unsent;
    if ops == [] {
      NothingWaits(start);
    } else {
      OutputConserved(o, start, ops[..|ops| - 1]);
      StepPours(o, Run(o, start, ops[..|ops| - 1]), Piped(ops[..|ops| - 1]), ops[|ops| - 1]);
    }
  }

  lemma NothingWaits(start: int)
    ensures Unsent(Init(start)) == []
  {
  }

  lemma StepPours(o: Options, s: Session, p: Pipe, op: Op)
    requires s.live && Unsent(s) == p.waiting
    ensures Do(o, s, op).live && Unsent(Do(o, s, op)) == Pour(p, op).waiting
  {
    hide HearAll, Collect, Refill, Consume;
    match op
    case Received(now, len, signals, failure) =>
      SignalsTouch(if len > 0 then s.(lastRead := now) else s, signals);
    case Refilled(script) =>
      RefillOffers(s, script);
      RefillLive(s, script);
    case Consumed(n) =>
      ConsumeLeaves(s, n);
      assert Consume(s, n).live by { ConsumeLive(s, n); }
    case Submitted(_, _) =>
    case Checked(_, _) =>
    case Terminated =>
  }

  lemma RefillLive(s: Session, script: seq<Production>)
    ensures Refill(s, script).live == s.live
  {
    hide Collect;
    CollectTouches(s.(out := [], consumed := 0), script);
  }

  lemma ConsumeLive(s: Session, n: nat)
    ensures Consume(s, n).live == s.live
  {
  }

  /** The mark never passes the end of the buffer. */
  ghost predicate Bounded(s: Session) { s.consumed <= |s.out| }

  lemma StepBounded(o: Options, s: Session, op: Op)
    requires Bounded(s)
    ensures Bounded(Do(o, s, op))
  {
    hide HearAll, Collect;
    match op
    case Received(now, len, signals, failure) =>
      SignalsTouch(if len > 0 then s.(lastRead := now) else s, signals);
    case Refilled(script) => CollectTouches(s.(out := [], consumed := 0), script);
    case Consumed(_) =>
    case Submitted(_, _) =>
    case Checked(_, _) =>
    case Terminated =>
  }

  // ------------------------------------------------------------ keepalive

  /** Time stamps of a run never go back. */
  ghost predicate InOrder(start: int, ops: seq<Op>) {
    forall i :: 0 <= i < |ops| && Stamped(ops[i]) ==>
      && start <= ops[i].now
      && forall j :: 0 <= j < i && Stamped(ops[j]) ==> ops[j].now <= ops[i].now
  }

  predicate Stamped(op: Op) { op.Received? || op.Checked? }

  /** Bytes were read by this operation. */
  predicate Reads(op: Op) { op.Received? && op.len > 0 }

  /** A PING that no read has answered was sent after a full idle period. */
  ghost predicate PingWasDue(o: Options, s: Session) {
    s.pingOutstanding && s.lastRead < s.pingSent ==> s.pingSent - s.lastRead >= o.keepaliveTime
  }

  lemma StepKeepsPing(o: Options, s: Session, op: Op)
    requires PingWasDue(o, s) && s.live
    requires Stamped(op) && s.pingOutstanding ==> s.pingSent <= op.now
    ensures var r := Do(o, s, op);
            && PingWasDue(o, r) && r.live
            && r.lastRead == (if Reads(op) then op.now else s.lastRead)
            && (r.pingOutstanding ==> if op.Checked? && Check(o, s, op.now, op.refusal).1.PingSent?
                                      then r.pingSent == op.now else s.pingOutstanding && r.pingSent == s.pingSent)
  {
    hide HearAll, Collect;
    match op
    case Received(now, len, signals, failure) =>
      SignalsTouch(if len > 0 then s.(lastRead := now) else s, signals);
    case Refilled(script) =>
      CollectTouches(s.(out := [], consumed := 0), script);
    case _ =>
  }

  /** The clocks of a run: the last read is the latest read, and a PING was sent at some stamp of the run. */
  ghost predicate Clocks(o: Options, start: int, ops: seq<Op>) {
    var s := Run(o, start, ops);
    && s.live && PingWasDue(o, s) && start <= s.lastRead
    && (forall i :: 0 <= i < |ops| && Reads(ops[i]) ==> ops[i].now <= s.lastRead)
    && (s.lastRead == start || exists i :: 0 <= i < |ops| && Stamped(ops[i]) && ops[i].now == s.lastRead)
    && (s.pingOutstanding ==> exists i :: 0 <= i < |ops| && Stamped(ops[i]) && ops[i].now == s.pingSent)
  }

  lemma {:induction false} ClocksHold(o: Options, start: int, ops: seq<Op>)
    requires InOrder(start, ops)
    ensures Clocks(o, start, ops)
  {
    hide Do;
    if ops != [] {
      var last := |ops| - 1;
      var front, op := ops[..last], ops[last];
      assert forall i :: 0 <= i < |front| ==> front[i] == ops[i];
      ClocksHold(o, start, front);
      var s := Run(o, start, front);
      if s.pingOutstanding {
        var i :| 0 <= i < |front| && Stamped(front[i]) && front[i].now == s.pingSent;
        assert ops[i] == front[i];
      }
      if s.lastRead != start {
        var i :| 0 <= i < |front| && Stamped(front[i]) && front[i].now == s.lastRead;
        assert ops[i] == front[i];
      }
      StepKeepsPing(o, s, op);
    }
  }

  /**
   Declared dead means silent: if an evaluation at `now` says Dead, then nothing
   was read, and the session was not even created, in the keepalive_time +
   keepalive_timeout before it.
   */
  lemma DeadMeansSilent(o: Options, start: int, ops: seq<Op>, now: int, refusal: Option<string>)
    requires InOrder(start, ops + [Checked(now, refusal)])
    requires Check(o, Run(o, start, ops), now, refusal).1.Dead?
    ensures start <= now - (o.keepaliveTime + o.keepaliveTimeout)
    ensures forall i :: 0 <= i < |ops| && Reads(ops[i]) ==> ops[i].now <= now - (o.keepaliveTime + o.keepaliveTimeout)
  {
    var all := ops + [Checked(now, refusal)];
    forall i | 0 <= i < |ops| && Stamped(ops[i])
      ensures start <= ops[i].now && forall j :: 0 <= j < i && Stamped(ops[j]) ==> ops[j].now <= ops[i].now
    {
      assert all[i] == ops[i];
      assert forall j :: 0 <= j < i ==> all[j] == ops[j];
    }
    ClocksHold(o, start, ops);
  }

  /** A PING is due: none is outstanding that no read has answered, and a full idle period has passed. */
  predicate PingDue(o: Options, s: Session, now: int) {
    && s.live && (o.permitWithoutCalls || s.activeStreams != 0)
    && !(s.pingOutstanding && s.lastRead < s.pingSent)
    && now - s.lastRead >= o.keepaliveTime
  }

  /** The peer counts as dead: a PING that no read has answered was sent a full timeout ago. */
  predicate PeerDead(o: Options, s: Session, now: int) {
    s.live && s.pingOutstanding && s.lastRead < s.pingSent && now - s.pingSent >= o.keepaliveTimeout
  }

  /** What one evaluation of the keepalive machine decides, in all cases. */
  lemma CheckDecides(o: Options, s: Session, now: int, refusal: Option<string>)
    ensures var (r, action) := Check(o, s, now, refusal);
            && (action.Dead? <==> PeerDead(o, s, now))
            && (action.PingSent? <==> PingDue(o, s, now) && refusal.None?)
            && (action.PingSent? ==> r.pingOutstanding && r.pingSent == now)
            && (!action.PingSent? ==> r.pingSent == s.pingSent && (r.pingOutstanding ==> s.pingOutstanding))
            && r.lastRead == s.lastRead && r.draining == s.draining && Unsent(r) == Unsent(s)
            && r.error == (if PingDue(o, s, now) && refusal.Some? then Library(refusal.value) else s.error)
            && r.pingCounter == s.pingCounter + if PingDue(o, s, now) then 1 else 0
    ensures PeerDead(o, s, now) ==> !PingDue(o, s, now)
  {
  }

  /**
   A firing at or after the deadline kills, or moves the deadline past now, unless a
   PING is due and the library refuses it, or the timeout for its answer is not positive.
   */
  lemma FiringMovesOn(o: Options, s: Session, now: int, refusal: Option<string>)
    requires Deadline(o, s).Some? && now >= Deadline(o, s).value
    ensures var (r, action) := Check(o, s, now, refusal);
            action.Dead? || (Deadline(o, r).Some? && Deadline(o, r).value > now)
            <==> (PingDue(o, s, now) ==> refusal.None? && o.keepaliveTimeout > 0)
  {
  }

  predicate Quiet(op: Op) { op.Submitted? || op.Refilled? || op.Consumed? }

  function DoAll(o: Options, s: Session, ops: seq<Op>): (r: Session) {
    if ops == [] then s else Do(o, DoAll(o, s, ops[..|ops| - 1]), ops[|ops| - 1])
  }

  lemma {:induction false} HearNoAck(s: Session, signals: Closes)
    ensures HearAll(s, signals).pingOutstanding == s.pingOutstanding
    ensures HearAll(s, signals).draining == s.draining
    decreases |signals|
  {
    if signals != [] {
      HearNoAck(s, signals[..|signals| - 1]);
    }
  }

  /** Producing output leaves the keepalive machine alone. */
  lemma {:induction false} CollectNoAck(s: Session, script: seq<Production>)
    ensures Collect(s, script).pingOutstanding == s.pingOutstanding
    ensures Collect(s, script).draining == s.draining
    decreases |script|
  {
    hide HearAll;
    if script != [] && script[0].Chunk? {
      HearNoAck(s, script[0].signals);
      CollectNoAck(HearAll(s, script[0].signals).(out := s.out + script[0].bytes), script[1..]);
    }
  }

  lemma {:induction false} QuietKeepsPing(o: Options, s: Session, ops: seq<Op>)
    requires s.live && forall i :: 0 <= i < |ops| ==> Quiet(ops[i])
    ensures var r := DoAll(o, s, ops);
            r.live && r.lastRead == s.lastRead && r.pingSent == s.pingSent && r.pingOutstanding == s.pingOutstanding
    decreases |ops|
  {
    hide Collect;
    if ops != [] {
      var front, op := ops[..|ops| - 1], ops[|ops| - 1];
      assert forall i :: 0 <= i < |front| ==> front[i] == ops[i];
      QuietKeepsPing(o, s, front);
      if op.Refilled? {
        var m := DoAll(o, s, front).(out := [], consumed := 0);
        CollectTouches(m, op.script);
        CollectNoAck(m, op.script);
      }
    }
  }

  /** A silent peer: the firing after the one that pinged, if nothing was received between them, says Dead. */
  lemma SilentPeerDies(o: Options, s: Session, first: int, ops: seq<Op>, second: int, refusal: Option<string>)
    requires o.keepaliveTime > 0
    requires Check(o, s, first, None).1.PingSent?
    requires forall i :: 0 <= i < |ops| ==> Quiet(ops[i])
    requires second >= first + o.keepaliveTimeout
    ensures var r := DoAll(o, Check(o, s, first, None).0, ops);
            Check(o, r, second, refusal).1.Dead?
  {
    hide DoAll;
    QuietKeepsPing(o, Check(o, s, first, None).0, ops);
  }

  // ------------------------------------------------------------ streams

  /** The counter is the table's size and no two streams serve the same call. */
  ghost predicate Agrees(s: Session) {
    && s.activeStreams == |s.streams|
    && forall i, j :: i in s.streams && j in s.streams && i != j ==> s.streams[i] != s.streams[j]
  }

  ghost function Calls(s: Session): set<CallId> { set id | id in s.streams :: s.streams[id] }

  ghost predicate Fresh(s: Session, call: CallId, id: int) { id !in s.streams && call !in Calls(s) }

  lemma SubmitAgrees(s: Session, call: CallId, id: int)
    requires Agrees(s) && Accepts(s, id)
    ensures Fresh(s, call, id) ==> Agrees(Submit(s, call, id)) && Calls(Submit(s, call, id)) == Calls(s) + {call}
    ensures id in s.streams ==> !Agrees(Submit(s, call, id))
  {
    var r := Submit(s, call, id);
    if Fresh(s, call, id) {
      assert r.streams.Keys == s.streams.Keys + {id};
      assert forall i :: i in s.streams ==> s.streams[i] in Calls(s) && r.streams[i] == s.streams[i];
      forall c
        ensures c in Calls(r) <==> c in Calls(s) + {call}
      {
        if c in Calls(s) {
          var i :| i in s.streams && s.streams[i] == c;
          assert r.streams[i] == c;
        }
        if c == call { assert r.streams[id] == c; }
      }
    }
  }

  lemma CloseAgrees(s: Session, id: int, code: nat)
    requires Agrees(s)
    ensures var r := Hear(s, StreamClosed(id, code));
            Agrees(r) && Calls(r) == Calls(s) - (if id in s.streams then {s.streams[id]} else {})
  {
    var r := Hear(s, StreamClosed(id, code));
    if id in s.streams {
      assert r.streams.Keys == s.streams.Keys - {id};
      forall c
        ensures c in Calls(r) <==> c in Calls(s) - {s.streams[id]}
      {
        if c in Calls(s) - {s.streams[id]} {
          var i :| i in s.streams && s.streams[i] == c;
          assert i in r.streams && r.streams[i] == c;
        }
      }
    }
  }

  /** Hooks that ran, as calls. */
  function Closed(hooks: seq<(CallId, nat)>): (cs: set<CallId>) { set h | h in hooks :: h.0 }

  ghost predicate OncePerCall(hooks: seq<(CallId, nat)>) {
    forall i, j :: 0 <= i < j < |hooks| ==> hooks[i].0 != hooks[j].0
  }

  /** A hook runs once, for a call that had a stream, and that call then has none. */
  lemma {:induction false} HooksAgree(s: Session, signals: seq<Signal>)
    requires Agrees(s)
    ensures var r := HearAll(s, signals); var hooks := HooksRun(s, signals);
            && Agrees(r) && OncePerCall(hooks)
            && Closed(hooks) <= Calls(s) && Calls(r) == Calls(s) - Closed(hooks)
  {
    hide Agrees, Calls, Closed, OncePerCall, Hear, HookOf;
    if signals == [] {
      NoHooksRan();
    } else {
      var front, last := signals[..|signals| - 1], signals[|signals| - 1];
      HooksAgree(s, front);
      var m, hooks := HearAll(s, front), HooksRun(s, front);
      OneSignal(m, last);
      ClosedBoth(hooks, HookOf(m, last));
    }
  }

  /** One signal: its hook, if it runs one, is for a call that had a stream and then has none. */
  lemma OneSignal(s: Session, signal: Signal)
    requires Agrees(s)
    ensures var r := Hear(s, signal); var hook := HookOf(s, signal);
            && Agrees(r) && OncePerCall(hook)
            && Closed(hook) <= Calls(s) && Calls(r) == Calls(s) - Closed(hook)
  {
    hide Agrees, Calls;
    NoHooksRan();
    if signal.StreamClosed? {
      CloseAgrees(s, signal.id, signal.code);
      if signal.id in s.streams {
        InTable(s, signal.id);
        assert HookOf(s, signal) == [(s.streams[signal.id], signal.code)];
        assert Closed(HookOf(s, signal)) == {s.streams[signal.id]};
      }
    } else {
      SameTable(s, Hear(s, signal));
    }
  }

  lemma InTable(s: Session, id: int)
    requires id in s.streams
    ensures s.streams[id] in Calls(s)
  {
  }

  lemma HookAdded(hooks: seq<(CallId, nat)>, h: (CallId, nat))
    ensures Closed(hooks + [h]) == Closed(hooks) + {h.0}
    ensures OncePerCall(hooks) && h.0 !in Closed(hooks) ==> OncePerCall(hooks + [h])
  {
    assert forall x :: x in hooks + [h] <==> x in hooks || x == h;
    if h.0 !in Closed(hooks) {
      assert forall i :: 0 <= i < |hooks| ==> hooks[i] in hooks;
    }
  }

  lemma ClosedBoth(a: seq<(CallId, nat)>, b: seq<(CallId, nat)>)
    ensures Closed(a + b) == Closed(a) + Closed(b)
    ensures OncePerCall(a) && OncePerCall(b) && Closed(a) !! Closed(b) ==> OncePerCall(a + b)
  {
    assert forall h :: h in a + b <==> h in a || h in b;
    if OncePerCall(a) && OncePerCall(b) && Closed(a) !! Closed(b) {
      var all := a + b;
      forall i, j | 0 <= i < j < |all|
        ensures all[i].0 != all[j].0
      {
        assert all[i] == if i < |a| then a[i] else b[i - |a|];
        assert all[j] == if j < |a| then a[j] else b[j - |a|];
        assert i < |a| ==> a[i].0 in Closed(a);
        assert j >= |a| ==> b[j - |a|].0 in Closed(b);
      }
    }
  }

  lemma {:induction false} CollectAgrees(s: Session, script: seq<Production>)
    requires Agrees(s)
    ensures var r := Collect(s, script); var hooks := CollectHooks(s, script);
            && Agrees(r) && Closed(hooks) <= Calls(s) && Calls(r) == Calls(s) - Closed(hooks) && OncePerCall(hooks)
    decreases |script|
  {
    hide HearAll, HooksRun, OncePerCall;
    if script == [] || script[0].SendError? {
      NoHooksRan();
      assert Calls(Collect(s, script)) == Calls(s);
    } else {
      HooksAgree(s, script[0].signals);
      var h := HearAll(s, script[0].signals);
      var m := h.(out := s.out + script[0].bytes);
      assert Agrees(m) && Calls(m) == Calls(h);
      CollectAgrees(m, script[1..]);
      ClosedBoth(HooksRun(s, script[0].signals), CollectHooks(m, script[1..]));
    }
  }

  lemma NoHooksRan()
    ensures Closed([]) == {} && OncePerCall([])
  {
  }

  /** The hooks an operation of a run executes. */
  function HooksDone(s: Session, op: Op): (hooks: seq<(CallId, nat)>) {
    match op
    case Received(now, len, signals, _) =>
      if s.live then HooksRun(if len > 0 then s.(lastRead := now) else s, signals) else []
    case Refilled(script) => RefillHooks(s, script)
    case _ => []
  }

  /** All hooks of a run, in order. */
  function AllHooks(o: Options, start: int, ops: seq<Op>): (hooks: seq<(CallId, nat)>) {
    if ops == [] then []
    else AllHooks(o, start, ops[..|ops| - 1]) + HooksDone(Run(o, start, ops[..|ops| - 1]), ops[|ops| - 1])
  }

  function CallsSubmitted(ops: seq<Op>): (cs: set<CallId>) {
    if ops == [] then {}
    else CallsSubmitted(ops[..|ops| - 1]) + if ops[|ops| - 1].Submitted? then {ops[|ops| - 1].call} else {}
  }

  /** The library never reuses an id that is in the table, and a call is submitted once. */
  ghost predicate FreshRun(o: Options, start: int, ops: seq<Op>)
    decreases |ops|
  {
    ops == [] ||
    var front, op := ops[..|ops| - 1], ops[|ops| - 1];
    && FreshRun(o, start, front)
    && (op.Submitted? ==> op.id !in Run(o, start, front).streams && op.call !in CallsSubmitted(front))
  }

  /** One operation: the tables go on agreeing, and hooks run for calls that had a stream and then have none. */
  lemma StepAgrees(o: Options, s: Session, op: Op)
    requires Agrees(s) && (op.Submitted? ==> Fresh(s, op.call, op.id))
    ensures var r := Do(o, s, op); var hooks := HooksDone(s, op);
            && Agrees(r) && OncePerCall(hooks) && Closed(hooks) <= Calls(s)
            && Calls(r) <= (Calls(s) - Closed(hooks)) + if op.Submitted? then {op.call} else {}
  {
    hide HearAll, HooksRun, Collect, CollectHooks, OncePerCall, Agrees, Calls, Closed;
    NoHooksRan();
    match op
    case Received(now, len, signals, failure) =>
      var read := if len > 0 then s.(lastRead := now) else s;
      SameTable(s, read);
      HooksAgree(read, signals);
      SameTable(HearAll(read, signals), Do(o, s, op));
    case Submitted(call, id) =>
      if Accepts(s, id) { SubmitAgrees(s, call, id); } else { SameTable(s, Submit(s, call, id)); }
    case Refilled(script) =>
      var e := s.(out := [], consumed := 0);
      SameTable(s, e);
      CollectAgrees(e, script);
    case Consumed(n) => SameTable(s, Consume(s, n));
    case Checked(now, refusal) => SameTable(s, Check(o, s, now, refusal).0);
    case Terminated => SameTable(s, Terminate(s));
  }

  lemma SameTable(s: Session, r: Session)
    ensures r.streams == s.streams && r.activeStreams == s.activeStreams ==>
              Calls(r) == Calls(s) && (Agrees(s) ==> Agrees(r))
  {
  }

  /**
   Over every run: table and counter agree, no hook runs twice for a call, and none runs for a
   call that still has a stream.
   */
  lemma {:induction false} StreamsAgree(o: Options, start: int, ops: seq<Op>)
    requires FreshRun(o, start, ops)
    ensures var s := Run(o, start, ops); var hooks := AllHooks(o, start, ops);
            && Agrees(s) && OncePerCall(hooks)
            && Closed(hooks) !! Calls(s) && Closed(hooks) + Calls(s) <= CallsSubmitted(ops)
    decreases |ops|
  {
    hide Do, HooksDone, OncePerCall, Agrees;
    if ops == [] {
      NoHooksRan();
      NoStreamsYet(start);
    } else {
      var front, op := ops[..|ops| - 1], ops[|ops| - 1];
      StreamsAgree(o, start, front);
      var s := Run(o, start, front);
      StepAgrees(o, s, op);
      ClosedBoth(AllHooks(o, start, front), HooksDone(s, op));
    }
  }

  /** How many PINGs a run has tried to send. */
  function PingsTried(o: Options, start: int, ops: seq<Op>): (n: nat) {
    if ops == [] then 0
    else
      var front, op := ops[..|ops| - 1], ops[|ops| - 1];
      PingsTried(o, start, front) + if op.Checked? && PingDue(o, Run(o, start, front), op.now) then 1 else 0
  }

  /** The counter that goes into each PING counts the attempts, so no two PINGs carry the same number. */
  lemma {:induction false} PingsCounted(o: Options, start: int, ops: seq<Op>)
    ensures Run(o, start, ops).pingCounter == PingsTried(o, start, ops)
    decreases |ops|
  {
    hide HearAll, Collect;
    if ops != [] {
      var front, op := ops[..|ops| - 1], ops[|ops| - 1];
      PingsCounted(o, start, front);
      var s := Run(o, start, front);
      match op
      case Received(now, len, signals, failure) =>
        SignalsTouch(if len > 0 then s.(lastRead := now) else s, signals);
      case Refilled(script) => CollectTouches(s.(out := [], consumed := 0), script);
      case Checked(now, refusal) => CheckDecides(o, s, now, refusal);
      case Submitted(_, _) =>
      case Consumed(_) =>
      case Terminated =>
    }
  }

  /** The words of the session's own errors. */
  lemma ErrorTexts(rc: int, text: string)
    ensures NotInitialized.Wording() == "session not initialized"
    ensures Draining.Wording() == "session is draining (GOAWAY received); no new streams"
    ensures Library(text).Wording() == text && NoError.Wording() == ""
  {
  }

  lemma NoStreamsYet(start: int)
    ensures Agrees(Init(start)) && Calls(Init(start)) == {}
  {
  }
}
