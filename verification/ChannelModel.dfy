/**
 The channel's event-thread half: an Idle / Connecting / Ready / Failed /
 ShutDown machine with two call containers, two timers, one watch and one
 session. Each handler is a function of the state and of what its environment
 answers: socket outcomes, the library's output, stream ids and clock readings.
 */
module ChannelModel {
  import opened Octets
  import opened Status
  import opened SessionModel
  import opened TimerModel

  datatype Phase = Idle | Connecting | Ready | Failed | ShutDown {
    function Rank(): nat {
      match this
      case Idle => 0 case Connecting => 1 case Ready => 2 case Failed => 3 case ShutDown => 4
    }

    predicate Over() { Failed? || ShutDown? }
  }

  datatype ChannelTimer = ConnectTimeout | KeepaliveCheck

  datatype Watch = NoWatch | WatchConnect | WatchSession

  /** Why a call or the whole channel failed. */
  datatype Reason =
    | Unspecified
    | ConnectTimedOut
    | SocketFailed(text: string)
    | SessionFailed(error: Error)
    | ClosedByServer
    | KeepaliveTimedOut
    | ChannelShutDown
    | ChannelNotReady
    | SentTooLarge(size: nat, max: nat)
  {
    function Wording(): string {
      match this
      case Unspecified => ""
      case ConnectTimedOut => "connect timeout"
      case SocketFailed(text) => text
      case SessionFailed(error) => error.Wording()
      case ClosedByServer => "connection closed by server"
      case KeepaliveTimedOut => "keepalive timeout: no reads from server within keepalive_timeout"
      case ChannelShutDown => "channel is shut down"
      case ChannelNotReady => "channel is not ready"
      case SentTooLarge(size, max) => "Sent message larger than max (" + Decimal(size) + " vs. " + Decimal(max) + ")"
    }
  }

  /** The words the caller sees. */
  lemma ReasonTexts(text: string, error: Error, size: nat, max: nat)
    ensures ConnectTimedOut.Wording() == "connect timeout"
    ensures ClosedByServer.Wording() == "connection closed by server"
    ensures KeepaliveTimedOut.Wording() == "keepalive timeout: no reads from server within keepalive_timeout"
    ensures ChannelShutDown.Wording() == "channel is shut down"
    ensures ChannelNotReady.Wording() == "channel is not ready"
    ensures SocketFailed(text).Wording() == text && SessionFailed(error).Wording() == error.Wording()
    ensures SentTooLarge(size, max).Wording() ==
            "Sent message larger than max (" + Decimal(size) + " vs. " + Decimal(max) + ")"
  {
  }

  /**
   How a call came to have a result: its stream closed, or it was failed locally.
   A text of `None` is unspecified: it was read from a string already destroyed.
   */
  datatype Completion = Finished(http2Error: nat) | FailedLocally(code: StatusCode, text: Option<Reason>) {
    predicate IsUnavailable() { FailedLocally? && code == Unavailable }
  }

  function FailedWith(reason: Reason): (how: Completion) { FailedLocally(Unavailable, Some(reason)) }

  const UNREAD := FailedLocally(Unavailable, None)

  /** A request over the send limit is rejected before anything is queued. */
  function TooLarge(size: nat, max: nat): (how: Completion) {
    FailedLocally(ResourceExhausted, Some(SentTooLarge(size, max)))
  }

  /**
   What TearDown is passed: a reference to a text, which is the caller's own or the
   socket's, or is the error member of the session that TearDown destroys.
   */
  datatype Detail = Own(reason: Reason) | OfSession(error: Error) {
    /** The text while the session still exists. */
    function Said(): (reason: Reason) { if Own? then reason else SessionFailed(error) }

    /** What a call is failed with once the session is gone. */
    function AfterReset(): (how: Completion) { if Own? then FailedWith(reason) else UNREAD }
  }

  datatype Config = Config(keepalive: Options, connectTimeout: int, maxSend: nat)

  datatype Channel = Channel(
    phase: Phase,
    detail: Reason,
    pending: seq<CallId>,
    active: set<CallId>,
    session: Option<Session>,
    connectTimer: nat, keepaliveTimer: nat,  // 0 is "none"
    timers: Timers<ChannelTimer>,
    watch: Watch,
    results: map<CallId, Completion>)        // every call that has a result

  const START := Channel(Idle, Unspecified, [], {}, None, 0, 0, Timers(map[], 1), NoWatch, map[])

  // ------------------------------------------------------------ completing calls

  /** A call completes once: a second completion is ignored. */
  function Complete(results: map<CallId, Completion>, c: CallId, how: Completion): (r: map<CallId, Completion>) {
    if c in results then results else results[c := how]
  }

  function CompleteAll(results: map<CallId, Completion>, cs: set<CallId>, how: Completion)
    : (r: map<CallId, Completion>)
  {
    (map c | c in cs :: how) + results
  }

  function FailCall(ch: Channel, c: CallId, reason: Reason): (r: Channel) {
    ch.(results := Complete(ch.results, c, FailedWith(reason)))
  }

  /** The hooks a session ran: each completes its call and drops it from the active ones. */
  function AfterHooks(ch: Channel, hooks: seq<(CallId, nat)>): (r: Channel) {
    if hooks == [] then ch
    else
      var m := AfterHooks(ch, hooks[..|hooks| - 1]);
      var h := hooks[|hooks| - 1];
      m.(results := Complete(m.results, h.0, Finished(h.1)), active := m.active - {h.0})
  }

  function Elements(cs: seq<CallId>): set<CallId> { set c | c in cs }

  // ------------------------------------------------------------ teardown

  function Cancelled(timers: Timers<ChannelTimer>, id: nat): Timers<ChannelTimer> {
    if id != 0 then Removed(timers, id) else timers
  }

  function WithoutTimers(ch: Channel): (r: Channel) {
    ch.(timers := Cancelled(Cancelled(ch.timers, ch.connectTimer), ch.keepaliveTimer),
        connectTimer := 0, keepaliveTimer := 0, watch := NoWatch)
  }

  /** The reason is recorded first, then the session goes, and only then the calls are failed. */
  function TearDown(ch: Channel, detail: Detail): (r: Channel) {
    if ch.phase.Over() then ch
    else
      WithoutTimers(ch).(phase := Failed, detail := detail.Said(), session := None, active := {}, pending := [],
                         results := CompleteAll(ch.results, ch.active + Elements(ch.pending), detail.AfterReset()))
  }

  // ------------------------------------------------------------ socket traffic

  datatype WriteOutcome = Wrote(n: nat) | WriteBlocked | WriteError(text: string)

  /** One turn of the flush loop: what the library produces if asked, then what the socket does with it. */
  datatype FlushTurn = FlushTurn(productions: seq<Production>, write: WriteOutcome)

  function Turn(script: seq<FlushTurn>): FlushTurn {
    if script == [] then FlushTurn([], WriteBlocked) else script[0]
  }

  /** PendingOutput as the channel sees it. */
  function Produced(ch: Channel, productions: seq<Production>): (r: Channel)
    requires ch.session.Some?
  {
    AfterHooks(ch.(session := Some(Refill(ch.session.value, productions))), RefillHooks(ch.session.value, productions))
  }

  function Flush(ch: Channel, script: seq<FlushTurn>): (r: Channel)
    decreases |script|
  {
    if ch.phase != Ready || ch.session.None? then ch
    else
      var turn := Turn(script);
      var view := Offered(ch.session.value, turn.productions);
      var after := Refill(ch.session.value, turn.productions);
      var m := Produced(ch, turn.productions);
      if view == [] then (if after.error != NoError then TearDown(m, OfSession(after.error)) else m)
      else match turn.write
           case WriteBlocked => m
           case WriteError(text) => TearDown(m, Own(SocketFailed(text)))
           case Wrote(n) => if script == [] then m else Flush(m.(session := Some(Consume(after, n))), script[1..])
  }

  datatype ReadOutcome =
    | ReadBytes(now: int, len: nat, signals: seq<Signal>, failure: Option<string>)
    | ReadBlocked | ReadEof | ReadError(text: string)

  function Heard(ch: Channel, r: ReadOutcome): (m: Channel)
    requires ch.session.Some? && r.ReadBytes?
  {
    var s := ch.session.value;
    var hooks := if s.live then HooksRun(if r.len > 0 then s.(lastRead := r.now) else s, r.signals) else [];
    AfterHooks(ch.(session := Some(Receive(s, r.now, r.len, r.signals, r.failure))), hooks)
  }

  function DrainSocket(ch: Channel, input: seq<ReadOutcome>): (r: Channel)
    decreases |input|
  {
    if ch.phase != Ready || ch.session.None? || input == [] then ch
    else match input[0]
         case ReadBlocked => ch
         case ReadEof => TearDown(ch, Own(ClosedByServer))
         case ReadError(text) => TearDown(ch, Own(SocketFailed(text)))
         case ReadBytes(now, len, signals, failure) =>
           var m := Heard(ch, input[0]);
           if !ch.session.value.live || failure.Some?
           then TearDown(m, OfSession(Receive(ch.session.value, now, len, signals, failure).error))
           else DrainSocket(m, input[1..])
  }

  // ------------------------------------------------------------ keepalive

  /** Re-arms at the session's deadline; the clock may advance by `skew` between its two readings. */
  function Rearm(o: Config, ch: Channel, skew: nat): (r: Channel) {
    if ch.phase != Ready || ch.session.None? then ch
    else
      var m := ch.(timers := Cancelled(ch.timers, ch.keepaliveTimer), keepaliveTimer := 0);
      var deadline := Deadline(o.keepalive, ch.session.value);
      if deadline.None? then m
      else m.(timers := Added(m.timers, deadline.value + skew, KeepaliveCheck), keepaliveTimer := m.timers.nextId)
  }

  // ------------------------------------------------------------ handlers

  function SubmitCall(ch: Channel, c: CallId, id: int): (r: Channel) {
    if ch.phase != Ready || ch.session.None?
    then FailCall(ch, c, if ch.phase == Failed then ch.detail else ChannelNotReady)
    else
      var s := ch.session.value;
      var after := Submit(s, c, id);
      if Accepts(s, id) then ch.(session := Some(after), active := ch.active + {c})
      else FailCall(ch.(session := Some(after)), c, SessionFailed(after.error))
  }

  /** Submits the calls in order, the k-th under the k-th id the library picks. */
  function SubmitAll(ch: Channel, cs: seq<CallId>, ids: seq<int>): (r: Channel) {
    if cs == [] then ch
    else
      var last := |cs| - 1;
      var m := SubmitAll(ch, cs[..last], ids);
      if m.phase != Ready then FailCall(m, cs[last], m.detail)
      else SubmitCall(m, cs[last], if last < |ids| then ids[last] else -1)
  }

  function StartConnecting(o: Config, ch: Channel, now: int, refusal: Option<string>): (r: Channel) {
    var m := ch.(phase := Connecting, connectTimer := ch.timers.nextId,
                 timers := Added(ch.timers, now + o.connectTimeout, ConnectTimeout));
    if refusal.Some? then TearDown(m, Own(SocketFailed(refusal.value))) else m.(watch := WatchConnect)
  }

  function HandleNewCall(o: Config, ch: Channel, e: Event): (r: Channel)
    requires e.NewCall?
  {
    match ch.phase
    case ShutDown => FailCall(ch, e.call, ChannelShutDown)
    case Failed => FailCall(ch, e.call, ch.detail)
    case Idle => StartConnecting(o, ch.(pending := ch.pending + [e.call]), e.now, e.refusal)
    case Connecting => ch.(pending := ch.pending + [e.call])
    case Ready => Flush(SubmitCall(ch, e.call, e.id), e.flush)
  }

  /** The session is up: preface out, keepalive armed, then the queued calls. */
  function SessionUp(o: Config, ch: Channel, e: Event): (r: Channel)
    requires e.Connect?
  {
    var x := ch.(session := Some(SessionModel.Init(e.now)), watch := WatchSession, phase := Ready);
    var up := Rearm(o, Flush(x, e.preface), e.skew);
    var m := SubmitAll(up.(pending := []), up.pending, e.ids);
    if m.phase == Ready then Flush(m, e.flush) else m
  }

  function StartSession(o: Config, ch: Channel, e: Event): (r: Channel)
    requires e.Connect?
  {
    if e.setupFailure.Some? then TearDown(ch, OfSession(Library(e.setupFailure.value)))
    else SessionUp(o, ch, e)
  }

  function OnConnectProgress(o: Config, ch: Channel, e: Event): (r: Channel)
    requires e.Connect?
  {
    var m := ch.(timers := Cancelled(ch.timers, ch.connectTimer), connectTimer := 0);
    match e.outcome
    case InProgress => ch
    case Connected => StartSession(o, m, e)
    case ConnectError(text) => TearDown(m, Own(SocketFailed(text)))
  }

  function OnSocketReady(o: Config, ch: Channel, e: Event): (r: Channel)
    requires e.Traffic?
  {
    var m := if e.readable then DrainSocket(ch, e.input) else ch;
    var n := if m.phase == Ready then Flush(m, e.flush) else m;
    if n.phase == Ready then Rearm(o, n, e.skew) else n
  }

  /** The loop takes the timer out and then runs its callback. */
  function OnTimer(o: Config, ch: Channel, e: Event): (r: Channel)
    requires e.TimerFires? && e.timer in ch.timers.pending
  {
    var fired := ch.(timers := Removed(ch.timers, e.timer));
    match ch.timers.pending[e.timer].callback
    case ConnectTimeout => TearDown(fired.(connectTimer := 0), Own(ConnectTimedOut))
    case KeepaliveCheck => OnKeepalive(o, fired.(keepaliveTimer := 0), e)
  }

  function OnKeepalive(o: Config, ch: Channel, e: Event): (r: Channel)
    requires e.TimerFires?
  {
    if ch.phase != Ready || ch.session.None? then ch
    else
      var (s, action) := Check(o.keepalive, ch.session.value, e.now, e.refusal);
      var m := ch.(session := Some(s));
      if action.Dead? then TearDown(m, Own(KeepaliveTimedOut)) else Rearm(o, Flush(m, e.flush), e.skew)
  }

  /** The farewell flush: hooks of streams the library closes meanwhile still run. */
  function Farewell(s: Session, script: seq<FlushTurn>): (hooks: seq<(CallId, nat)>)
    decreases |script|
  {
    var turn := Turn(script);
    var hooks := RefillHooks(s, turn.productions);
    if Offered(s, turn.productions) == [] || !turn.write.Wrote? || script == [] then hooks
    else hooks + Farewell(Consume(Refill(s, turn.productions), turn.write.n), script[1..])
  }

  function DoShutdown(ch: Channel, e: Event): (r: Channel)
    requires e.ShutdownOp?
  {
    if ch.phase.ShutDown? then ch
    else
      var closed := WithoutTimers(ch).(phase := ShutDown, active := {}, pending := [],
                                      results := CompleteAll(ch.results, ch.active + Elements(ch.pending),
                                                             FailedWith(ChannelShutDown)));
      var hooks := if ch.phase.Ready? && ch.session.Some? then Farewell(Terminate(ch.session.value), e.flush) else [];
      AfterHooks(closed, hooks).(session := None)
  }

  // ------------------------------------------------------------ runs

  datatype ConnectOutcome = InProgress | Connected | ConnectError(text: string)

  /** What can happen next on the event thread, with everything the environment answers while it is handled. */
  datatype Event =
    | NewCall(call: CallId, now: int, refusal: Option<string>, id: int, flush: seq<FlushTurn>)
    | ShutdownOp(flush: seq<FlushTurn>)
    | Connect(outcome: ConnectOutcome, now: int, setupFailure: Option<string>, preface: seq<FlushTurn>,
              skew: nat, ids: seq<int>, flush: seq<FlushTurn>)
    | Traffic(readable: bool, input: seq<ReadOutcome>, flush: seq<FlushTurn>, skew: nat)
    | TimerFires(timer: nat, now: int, refusal: Option<string>, flush: seq<FlushTurn>, skew: nat)

  function Handle(o: Config, ch: Channel, e: Event): (r: Channel)
    requires e.TimerFires? ==> e.timer in ch.timers.pending
  {
    match e
    case NewCall(_, _, _, _, _) => HandleNewCall(o, ch, e)
    case ShutdownOp(_) => DoShutdown(ch, e)
    case Connect(_, _, _, _, _, _, _) => OnConnectProgress(o, ch, e)
    case Traffic(_, _, _, _) => OnSocketReady(o, ch, e)
    case TimerFires(_, _, _, _, _) => OnTimer(o, ch, e)
  }
}
