/**
 Why a channel fails. Each cause is read off what the environment answered, and the
 theorems say that exactly this cause is recorded, and what every call gets of it.
 */
module ChannelCauses {
  import opened Octets
  import opened SessionModel
  import opened TimerModel
  import opened ChannelModel
  import opened ChannelSafety
  import opened ChannelRuns
  import opened ChannelOutput
  import opened ChannelStories

  // ------------------------------------------------------------ reading

  /** Why reading fails a channel: the first outcome that is neither bytes the library takes nor "would block". */
  function ReadCause(input: seq<ReadOutcome>): (cause: Option<Reason>)
    decreases |input|
  {
    if input == [] then None
    else match input[0]
         case ReadBlocked => None
         case ReadEof => Some(ClosedByServer)
         case ReadError(text) => Some(SocketFailed(text))
         case ReadBytes(_, _, _, failure) =>
           if failure.Some? then Some(SessionFailed(Library(failure.value))) else ReadCause(input[1..])
  }

  /**
   Reading fails the channel exactly when there is such an outcome, and for that
   cause. A channel that goes on has the same error and the same bytes waiting, and
   is draining if it was.
   */
  predicate ReadSays(ch: Channel, cause: Option<Reason>, r: Channel)
    requires ch.session.Some?
  {
    && (r.phase.Ready? || r.phase.Failed?)
    && (r.phase.Failed? <==> cause.Some?)
    && (r.phase.Failed? ==> r.detail == cause.value && Broke(cause.value))
    && (r.phase.Ready? ==>
          && r.session.Some? && r.session.value.error == ch.session.value.error
          && (ch.session.value.draining ==> r.session.value.draining)
          && Unsent(r.session.value) == Unsent(ch.session.value))
  }

  lemma {:induction false} ReadVerdict(ch: Channel, input: seq<ReadOutcome>)
    requires Core(ch) && ch.phase.Ready?
    ensures ch.session.Some? && ReadSays(ch, ReadCause(input), DrainSocket(ch, input))
    decreases |input|
  {
    ReadyHasSession(ch);
    hide Core, Heard, TearDown, Receive, ReadSays;
    if input != [] && input[0].ReadBytes? {
      ReadOnce(ch, input[0]);
      if input[0].failure.None? {
        var m := Heard(ch, input[0]);
        ReadVerdict(m, input[1..]);
        ReadSaysOn(ch, m, ReadCause(input[1..]), DrainSocket(m, input[1..]));
      }
    } else {
      NoReadSays(ch, input);
    }
  }

  lemma ReadSaysOn(ch: Channel, m: Channel, cause: Option<Reason>, r: Channel)
    requires ch.session.Some? && m.session.Some? && m.phase.Ready? && ReadSays(ch, None, m) && ReadSays(m, cause, r)
    ensures ReadSays(ch, cause, r)
  {
    hide Unsent;
  }

  lemma NoReadSays(ch: Channel, input: seq<ReadOutcome>)
    requires ch.phase.Ready? && ch.session.Some? && (input == [] || !input[0].ReadBytes?)
    ensures ReadSays(ch, ReadCause(input), DrainSocket(ch, input))
  {
    hide TearDown, Unsent;
    TornDown(ch, Own(ClosedByServer));
    if input != [] && input[0].ReadError? { TornDown(ch, Own(SocketFailed(input[0].text))); }
  }

  /** One read: the channel goes on as it was, or fails with the library's reason. */
  lemma ReadOnce(ch: Channel, e: ReadOutcome)
    requires Core(ch) && ch.phase.Ready? && e.ReadBytes?
    ensures ch.session.Some? && ch.session.value.live
    ensures var m := Heard(ch, e);
            var error := Receive(ch.session.value, e.now, e.len, e.signals, e.failure).error;
            && Core(m) && m.phase.Ready? && m.session.Some?
            && (e.failure.None? ==> ReadSays(ch, None, m))
            && (e.failure.Some? ==>
                  ReadSays(ch, Some(SessionFailed(Library(e.failure.value))), TearDown(m, OfSession(error))))
  {
    ReadyHasSession(ch);
    hide Core, Moves, Heard, TearDown, Receive, Unsent;
    HeardMoves(ch, e);
    CoreOf(ch, Heard(ch, e));
    ReceiveError(ch.session.value, e);
    TornDown(Heard(ch, e), OfSession(Receive(ch.session.value, e.now, e.len, e.signals, e.failure).error));
  }

  lemma ReceiveError(s: Session, r: ReadOutcome)
    requires s.live && r.ReadBytes?
    ensures var after := Receive(s, r.now, r.len, r.signals, r.failure);
            && after.error == (if r.failure.Some? then Library(r.failure.value) else s.error)
            && (s.draining ==> after.draining) && Unsent(after) == Unsent(s)
  {
    SignalsTouch(if r.len > 0 then s.(lastRead := r.now) else s, r.signals);
  }

  /** And every call in flight finished before by its own stream, or carries that cause, unless it was the session's. */
  lemma ReadFailsCalls(ch: Channel, input: seq<ReadOutcome>, c: CallId)
    requires Core(ch) && ch.phase.Ready? && c in ch.active && ReadCause(input).Some?
    ensures var r := DrainSocket(ch, input);
            && r.phase.Failed? && r.detail == ReadCause(input).value && c in r.results
            && (r.results[c].Finished? || r.results[c] == Epitaph(ReadCause(input).value))
  {
    hide Core, Moves, DrainSocket, ReadCause, Unsent;
    ReadVerdict(ch, input);
    DrainFates(ch, input);
    DrainMoves(ch, input);
    NoneActive(ch, DrainSocket(ch, input));
    assert EndsWell(DrainSocket(ch, input), c);
  }

  lemma NoneActive(ch: Channel, r: Channel)
    requires Moves(ch, r, {}) && r.phase.Failed?
    ensures r.active == {}
  {
    hide OnePlace, Timed, Linked, Coded, Known;
  }

  // ------------------------------------------------------------ one event on a Ready channel

  /** Why an event's handler fails a Ready channel before it gets to flush. */
  function StopCause(o: Config, s: Session, e: Event): (cause: Option<Reason>) {
    match e
    case Traffic(readable, input, _, _) => if readable then ReadCause(input) else None
    case TimerFires(_, now, _, _, _) => if PeerDead(o.keepalive, s, now) then Some(KeepaliveTimedOut) else None
    case _ => None
  }

  /** The event leaves an error on the session's record: a refused call or a refused PING. */
  predicate SetsError(o: Config, s: Session, e: Event) {
    || (e.NewCall? && (s.draining || e.id < 0))
    || (e.TimerFires? && PingDue(o.keepalive, s, e.now) && e.refusal.Some?)
  }

  /** The error on record when the handler flushes. */
  function ErrorAfter(o: Config, s: Session, e: Event): (error: Error) {
    if !SetsError(o, s, e) then s.error
    else if e.TimerFires? then Library(e.refusal.value)
    else if s.draining then Draining
    else SubmitRefused(e.id)
  }

  /** How the flush of an event's handler ends, if the handler gets that far. */
  function FlushEnd(o: Config, ch: Channel, e: Event): (end: Option<Ending>) {
    if ch.phase != Ready || ch.session.None? || e.ShutdownOp? || e.Connect? then None
    else if StopCause(o, ch.session.value, e).Some? then None
    else Some(Pump(Unsent(ch.session.value), e.flush).end)
  }

  /** Errors that have nothing to do with refused calls. */
  predicate Foreign(error: Error) { error.NoError? || error.Library? }

  /**
   What one event does to a Ready channel. It stays Ready exactly when its flush
   blocks, or gets everything out with no error on record, old or new. If it fails,
   the recorded detail is what stopped the handler, or what broke the flush, or the
   error on record.
   */
  predicate Verdict(o: Config, ch: Channel, e: Event, r: Channel)
    requires ch.session.Some?
  {
    var s, end := ch.session.value, FlushEnd(o, ch, e);
    var stop, error := StopCause(o, s, e), ErrorAfter(o, s, e);
    && (r.phase.Ready? || r.phase.Failed? || e.ShutdownOp?)
    && (r.phase.Ready? <==> end == Some(Blocked) || (end == Some(Drained) && error == NoError))
    && (r.phase.Ready? ==>
          && r.session.Some? && r.session.value.error == error && (s.draining ==> r.session.value.draining)
          && Unsent(r.session.value) == Pump(Unsent(s), e.flush).waiting)
    && (stop.Some? ==> r.phase.Failed? && r.detail == stop.value && Broke(stop.value))
    && (end.Some? && end.value.Broken? ==>
          r.phase.Failed? && r.detail == end.value.cause && Broke(end.value.cause))
    && (end == Some(Drained) && error != NoError ==> r.phase.Failed? && r.detail == SessionFailed(error))
    && (!r.phase.Failed? ==> r.detail == ch.detail)
  }

  /** An event that comes down to one flush of a channel whose error it may have set. */
  lemma VerdictOfFlush(o: Config, ch: Channel, e: Event, m: Channel, r: Channel)
    requires ch.phase.Ready? && ch.session.Some? && m.session.Some? && m.detail == ch.detail
    requires FlushSays(m, e.flush, r)
    requires !e.ShutdownOp? && !e.Connect? && StopCause(o, ch.session.value, e).None?
    requires var s, n := ch.session.value, m.session.value;
             n.error == ErrorAfter(o, s, e) && (s.draining ==> n.draining) && Unsent(n) == Unsent(s)
    ensures Verdict(o, ch, e, r)
  {
    hide Pump, Unsent, StopCause, ErrorAfter;
  }

  /** An event whose handler fails the channel before it gets to flush. */
  lemma VerdictOfFailure(o: Config, ch: Channel, e: Event, r: Channel)
    requires ch.phase.Ready? && ch.session.Some? && r.phase.Failed?
    requires StopCause(o, ch.session.value, e) == Some(r.detail) && Broke(r.detail)
    ensures Verdict(o, ch, e, r)
  {
    hide Pump, Unsent, StopCause, ErrorAfter;
  }

  lemma NewCallEnds(o: Config, ch: Channel, e: Event)
    requires Core(ch) && ch.phase.Ready? && e.NewCall? && e.call !in Known(ch) && FreshId(ch, e.id)
    ensures ch.session.Some? && Verdict(o, ch, e, HandleNewCall(o, ch, e))
  {
    ReadyHasSession(ch);
    SubmitView(ch, e.call, e.id);
    SubmitMoves(ch, e.call, e.id);
    SubmitSets(o, ch.session.value, e);
    SubmitKeepsDetail(ch, e.call, e.id);
    hide Core, Moves, Flush, Pump, Unsent, SubmitCall, Submit, Known, FreshId, FlushSays, Verdict, ErrorAfter;
    var m := SubmitCall(ch, e.call, e.id);
    CoreOf(ch, m);
    FlushVerdict(m, e.flush);
    VerdictOfFlush(o, ch, e, m, Flush(m, e.flush));
  }

  lemma SubmitKeepsDetail(ch: Channel, c: CallId, id: int)
    ensures SubmitCall(ch, c, id).detail == ch.detail
  {
  }

  lemma SubmitSets(o: Config, s: Session, e: Event)
    requires s.live && e.NewCall?
    ensures var r := Submit(s, e.call, e.id);
            r.error == ErrorAfter(o, s, e) && r.draining == s.draining && Unsent(r) == Unsent(s)
  {
  }

  lemma FlushAndRearm(o: Config, ch: Channel, flush: seq<FlushTurn>, skew: nat)
    requires Core(ch) && ch.phase.Ready?
    ensures ch.session.Some? && FlushSays(ch, flush, Rearm(o, Flush(ch, flush), skew))
  {
    FlushMoves(ch, flush);
    hide Core, Moves, Flush, EndOf, Pump, Unsent, Rearm, FlushKeeps, Armed, Rearmed;
    FlushVerdict(ch, flush);
    CoreOf(ch, Flush(ch, flush));
    RearmMoves(o, Flush(ch, flush), skew, skew);
  }

  lemma NoRearm(o: Config, ch: Channel, skew: nat)
    ensures !ch.phase.Ready? ==> Rearm(o, ch, skew) == ch
  {
  }

  lemma TrafficEnds(o: Config, ch: Channel, e: Event)
    requires Core(ch) && ch.phase.Ready? && e.Traffic?
    ensures ch.session.Some? && Verdict(o, ch, e, OnSocketReady(o, ch, e))
  {
    hide Core, Moves, Flush, Pump, Unsent, DrainSocket, ReadCause, Rearm, FlushSays, Verdict;
    var m := if e.readable then DrainSocket(ch, e.input) else ch;
    ReadVerdict(ch, e.input);
    if e.readable { DrainMoves(ch, e.input); } else { Stays(ch); }
    CoreOf(ch, m);
    if m.phase.Ready? {
      FlushAndRearm(o, m, e.flush, e.skew);
      NoRearm(o, Flush(m, e.flush), e.skew);
      VerdictOfFlush(o, ch, e, m, OnSocketReady(o, ch, e));
    } else {
      VerdictOfFailure(o, ch, e, m);
    }
  }

  lemma KeepaliveEnds(o: Config, ch: Channel, e: Event)
    requires Core(ch) && ch.phase.Ready? && e.TimerFires?
    ensures ch.session.Some? && Verdict(o, ch, e, OnKeepalive(o, ch, e))
  {
    KeepaliveSteps(o, ch, e);
    CheckDecides(o.keepalive, ch.session.value, e.now, e.refusal);
    hide Core, Moves, Flush, Pump, Unsent, Rearm, Check, TearDown, PingDue, PeerDead, OnKeepalive, FlushSays, Verdict;
    var m := Evaluated(o, ch, e);
    if Check(o.keepalive, ch.session.value, e.now, e.refusal).1.Dead? {
      TornDown(m, Own(KeepaliveTimedOut));
      VerdictOfFailure(o, ch, e, OnKeepalive(o, ch, e));
    } else {
      FlushAndRearm(o, m, e.flush, e.skew);
      VerdictOfFlush(o, ch, e, m, OnKeepalive(o, ch, e));
    }
  }

  /** Taking the fired timer out changes nothing the verdict looks at. */
  lemma TimerEnds(o: Config, ch: Channel, e: Event, maxSkew: nat)
    requires Inv(o, ch, maxSkew) && ch.phase.Ready? && e.TimerFires? && Enabled(ch, e, maxSkew)
    ensures ch.session.Some? && Verdict(o, ch, e, OnTimer(o, ch, e))
  {
    TimerIsKeepalive(o, ch, e.timer, maxSkew);
    TimerTaken(ch, e.timer);
    hide Inv, Core, Moves, OnKeepalive, Verdict, Enabled;
    var f := ch.(timers := Removed(ch.timers, e.timer), keepaliveTimer := 0);
    CoreOf(ch, f);
    KeepaliveEnds(o, f, e);
    VerdictAside(o, ch, f, e, OnKeepalive(o, f, e));
  }

  lemma VerdictAside(o: Config, ch: Channel, f: Channel, e: Event, r: Channel)
    requires e.TimerFires? && f.session.Some? && ch.session == f.session
    requires ch.phase == f.phase && ch.detail == f.detail && Verdict(o, f, e, r)
    ensures Verdict(o, ch, e, r)
  {
    hide Pump, Unsent, PeerDead, PingDue;
  }

  /** What any event does to a Ready channel. */
  lemma EventVerdict(o: Config, ch: Channel, e: Event, maxSkew: nat)
    requires Inv(o, ch, maxSkew) && ch.phase.Ready? && Enabled(ch, e, maxSkew)
    ensures ch.session.Some? && ch.session.value.live && Verdict(o, ch, e, Handle(o, ch, e))
  {
    CoreOfInv(o, ch, maxSkew);
    ReadyHasSession(ch);
    NoConnectWhenReady(o, ch, e, maxSkew);
    hide Inv, Core, Verdict, HandleNewCall, DoShutdown, OnConnectProgress, OnSocketReady, OnTimer;
    match e
    case NewCall(_, _, _, _, _) => NewCallEnds(o, ch, e);
    case ShutdownOp(_) => ShutdownEnds(o, ch, e, maxSkew);
    case Traffic(_, _, _, _) => TrafficEnds(o, ch, e);
    case TimerFires(_, _, _, _, _) => TimerEnds(o, ch, e, maxSkew);
    case Connect(_, _, _, _, _, _, _) =>
  }

  lemma ShutdownEnds(o: Config, ch: Channel, e: Event, maxSkew: nat)
    requires Inv(o, ch, maxSkew) && ch.phase.Ready? && ch.session.Some? && e.ShutdownOp?
    ensures Verdict(o, ch, e, DoShutdown(ch, e))
  {
    hide Inv, Moves, DoShutdown, Pump, Unsent;
    ShutdownKeeps(o, ch, e, maxSkew);
    HooksEffectOnly(ch, e);
  }

  /** An error is on record after the event if and only if it was before or the event set it. */
  lemma ErrorsAdd(o: Config, s: Session, e: Event)
    ensures ErrorAfter(o, s, e) != NoError <==> s.error != NoError || SetsError(o, s, e)
    ensures !e.NewCall? && Foreign(s.error) ==> Foreign(ErrorAfter(o, s, e))
  {
    hide PingDue;
  }

  /** Without a new call an error of the outside stays one, and a failure is the outside's. */
  lemma VerdictForeign(o: Config, ch: Channel, e: Event, r: Channel)
    requires ch.phase.Ready? && ch.session.Some? && Verdict(o, ch, e, r) && !e.Connect?
    requires !e.NewCall? && Foreign(ch.session.value.error)
    ensures r.phase.Ready? ==> r.session.Some? && Foreign(r.session.value.error)
    ensures r.phase.Failed? && !e.ShutdownOp? ==> Broke(r.detail)
  {
    hide Pump, Unsent, StopCause, ErrorAfter;
    ErrorsAdd(o, ch.session.value, e);
  }

  // ------------------------------------------------------------ connecting

  /** The id the library answers the k-th submit with; a missing answer is a refusal. */
  function IdAt(ids: seq<int>, k: nat): int { if k < |ids| then ids[k] else -1 }

  /** The error the last refused one of the first n submits leaves. */
  function LastRefusal(ids: seq<int>, n: nat): (error: Error) {
    if n == 0 then NoError
    else if IdAt(ids, n - 1) < 0 then SubmitRefused(IdAt(ids, n - 1))
    else LastRefusal(ids, n - 1)
  }

  lemma {:induction false} QueueError(ch: Channel, cs: seq<CallId>, ids: seq<int>)
    requires ch.phase.Ready? && ch.session.Some? && ch.session.value.live && !ch.session.value.draining
    requires ch.session.value.error == NoError
    ensures var r := SubmitAll(ch, cs, ids);
            && r.phase.Ready? && r.detail == ch.detail && r.session.Some?
            && r.session.value.live && !r.session.value.draining
            && r.session.value.error == LastRefusal(ids, |cs|) && Unsent(r.session.value) == Unsent(ch.session.value)
    decreases |cs|
  {
    if cs != [] { QueueError(ch, cs[..|cs| - 1], ids); }
  }

  /** What the queue gets when the channel fails before the queue is submitted. */
  predicate QueueFails(ch: Channel, r: Channel, cause: Reason) {
    && r.phase.Failed? && r.detail == cause
    && forall c :: c in ch.pending ==> c in r.results && r.results[c] == Epitaph(cause)
  }

  /**
   What a connect event does. A connect error, a failed setup or a broken preface
   fails the channel for exactly that cause, and every queued call with it. Otherwise
   the queue is submitted and its flush decides.
   */
  predicate ConnectSays(ch: Channel, e: Event, r: Channel)
    requires e.Connect?
  {
    match e.outcome
    case InProgress => r == ch
    case ConnectError(text) => QueueFails(ch, r, SocketFailed(text))
    case Connected =>
      if e.setupFailure.Some? then QueueFails(ch, r, SessionFailed(Library(e.setupFailure.value)))
      else
        var p := Pump([], e.preface);
        if p.end.Broken? then QueueFails(ch, r, p.end.cause)
        else
          var q, error := Pump(p.waiting, e.flush), LastRefusal(e.ids, |ch.pending|);
          && (r.phase.Ready? || r.phase.Failed?)
          && (r.phase.Failed? <==> q.end.Broken? || (q.end.Drained? && error != NoError))
          && (q.end.Broken? ==> r.detail == q.end.cause)
          && (q.end.Drained? && error != NoError ==> r.detail == SessionFailed(error))
          && (r.phase.Ready? ==>
                r.session.Some? && r.session.value.error == error && Unsent(r.session.value) == q.waiting)
  }

  lemma TornDownQueue(ch: Channel, m: Channel, d: Detail)
    requires Core(m) && !m.phase.Over() && m.pending == ch.pending && Telling(d)
    ensures QueueFails(ch, TearDown(m, d), d.Said())
  {
    hide Core;
    TearDownMoves(m, d);
    assert TearDown(m, d).phase.Failed?;
  }

  lemma ConnectVerdict(o: Config, ch: Channel, e: Event, maxSkew: nat)
    requires Inv(o, ch, maxSkew) && e.Connect? && Enabled(ch, e, maxSkew)
    ensures ConnectSays(ch, e, OnConnectProgress(o, ch, e))
  {
    WatchMeansConnecting(o, ch, maxSkew);
    ConnectTimerOff(ch);
    var m := ch.(timers := Cancelled(ch.timers, ch.connectTimer), connectTimer := 0);
    CoreOf(ch, m);
    hide Inv, Core, Moves, SessionUp, TearDown, Pump, LastRefusal, Enabled;
    match e.outcome
    case InProgress =>
    case ConnectError(text) => TornDownQueue(ch, m, Own(SocketFailed(text)));
    case Connected =>
      if e.setupFailure.Some? {
        TornDownQueue(ch, m, OfSession(Library(e.setupFailure.value)));
      } else {
        assert DistinctIds(e.ids) by { IdsDiffer(ch, e, maxSkew); }
        SessionUpVerdict(o, m, e);
      }
  }

  lemma IdsDiffer(ch: Channel, e: Event, maxSkew: nat)
    requires e.Connect? && Enabled(ch, e, maxSkew)
    ensures DistinctIds(e.ids)
  {
  }

  lemma WatchMeansConnecting(o: Config, ch: Channel, maxSkew: nat)
    requires Inv(o, ch, maxSkew) && ch.watch == WatchConnect
    ensures Core(ch) && ch.phase.Connecting?
  {
    hide OnePlace, Timed, Linked, Armed, Coded;
  }

  lemma SessionUpVerdict(o: Config, ch: Channel, e: Event)
    requires Core(ch) && ch.phase.Connecting? && e.Connect? && e.outcome.Connected? && e.setupFailure.None?
    requires DistinctIds(e.ids)
    ensures ConnectSays(ch, e, SessionUp(o, ch, e))
  {
    hide Core, Moves, Known, Flush, Rearm, SubmitAll, Pump, LastRefusal, FlushSays;
    var x := ch.(session := Some(SessionModel.Init(e.now)), watch := WatchSession, phase := Ready);
    assert x.active == {} by { IdleFacts(ch); }
    BringUp(ch, e.now);
    CoreOf(ch, x);
    var y := Flush(x, e.preface);
    FlushVerdict(x, e.preface);
    FlushMoves(x, e.preface);
    CoreOf(x, y);
    PrefaceFacts(x, e.preface, y);
    var up := Rearm(o, y, e.skew);
    RearmMoves(o, y, e.skew, e.skew);
    CoreOf(y, up);
    if up.phase.Ready? {
      QueueVerdict(up, e);
    } else {
      NoRearm(o, y, e.skew);
      OverFacts(up);
      assert up.(pending := []) == up;
      NothingToSubmit(up, e.ids);
      PrefaceFails(x, e.preface);
    }
  }

  /** The preface goes out on a clean session with nothing waiting. */
  lemma PrefaceFacts(x: Channel, preface: seq<FlushTurn>, y: Channel)
    requires x.session.Some? && FlushSays(x, preface, y)
    requires Unsent(x.session.value) == [] && x.session.value.error == NoError && !x.session.value.draining
    ensures var p := Pump([], preface);
            && (y.phase.Ready? || y.phase.Failed?) && (y.phase.Failed? <==> p.end.Broken?)
            && (p.end.Broken? ==> y.detail == p.end.cause)
            && (y.phase.Ready? ==> y.session.Some? && Unsent(y.session.value) == p.waiting
                                   && y.session.value.error == NoError && !y.session.value.draining)
  {
    hide Pump, Unsent;
  }

  /** A preface that breaks fails every queued call. */
  lemma PrefaceFails(ch: Channel, script: seq<FlushTurn>)
    requires Core(ch) && ch.phase.Ready? && Flush(ch, script).phase.Failed?
    ensures QueueFails(ch, Flush(ch, script), Flush(ch, script).detail)
    decreases |script|
  {
    ReadyHasSession(ch);
    hide Core, Moves, Produced, Refill, Consume, Offered, TearDown;
    var turn := Turn(script);
    var after := Refill(ch.session.value, turn.productions);
    var m := Produced(ch, turn.productions);
    ProducedMoves(ch, turn.productions);
    CoreOf(ch, m);
    if Offered(ch.session.value, turn.productions) == [] {
      if after.error != NoError { TornDownQueue(ch, m, OfSession(after.error)); }
    } else if turn.write.WriteError? {
      TornDownQueue(ch, m, Own(SocketFailed(turn.write.text)));
    } else if turn.write.Wrote? && script != [] {
      var next := m.(session := Some(Consume(after, turn.write.n)));
      ConsumedMoves(m, turn.write.n);
      CoreOf(m, next);
      PrefaceFails(next, script[1..]);
    }
  }

  lemma QueueVerdict(up: Channel, e: Event)
    requires Core(up) && up.phase.Ready? && up.active == {} && e.Connect? && DistinctIds(e.ids)
    requires up.session.Some? && up.session.value.error == NoError && !up.session.value.draining
    ensures var m := SubmitAll(up.(pending := []), up.pending, e.ids); var r := Flush(m, e.flush);
            var q, error := Pump(Unsent(up.session.value), e.flush), LastRefusal(e.ids, |up.pending|);
            && m.phase.Ready? && (r.phase.Ready? || r.phase.Failed?)
            && (r.phase.Failed? <==> q.end.Broken? || (q.end.Drained? && error != NoError))
            && (q.end.Broken? ==> r.detail == q.end.cause)
            && (q.end.Drained? && error != NoError ==> r.detail == SessionFailed(error))
            && (r.phase.Ready? ==>
                  r.session.Some? && r.session.value.error == error && Unsent(r.session.value) == q.waiting)
  {
    ReadyHasSession(up);
    hide Core, Moves, Known, Flush, SubmitAll, Pump, Unsent, LastRefusal;
    NoStreams(up);
    Unqueue(up);
    var z := up.(pending := []);
    var m := SubmitAll(z, up.pending, e.ids);
    SubmitAllMoves(z, up.pending, e.ids);
    QueueError(z, up.pending, e.ids);
    CoreOf(z, m);
    FlushVerdict(m, e.flush);
  }

  // ------------------------------------------------------------ new calls elsewhere

  /**
   What a new call meets on a channel that is not Ready: it starts connecting, or
   fails with the socket's text if that is refused; it queues behind the others; or
   it fails, unavailable, with the recorded detail or because the channel is shut down.
   */
  lemma NewCallElsewhere(o: Config, ch: Channel, e: Event, maxSkew: nat)
    requires Inv(o, ch, maxSkew) && e.NewCall? && Enabled(ch, e, maxSkew) && !ch.phase.Ready?
    ensures var r := HandleNewCall(o, ch, e);
            match ch.phase
            case Idle =>
              if e.refusal.Some?
              then r.phase.Failed? && r.detail == SocketFailed(e.refusal.value) && r.pending == []
                   && r.results == ch.results[e.call := FailedWith(SocketFailed(e.refusal.value))]
              else r.phase.Connecting? && r.pending == [e.call] && r.results == ch.results
            case Connecting => r == ch.(pending := ch.pending + [e.call])
            case Failed => r == ch.(results := ch.results[e.call := FailedWith(ch.detail)])
            case ShutDown => r == ch.(results := ch.results[e.call := FailedWith(ChannelShutDown)])
            case Ready => true
  {
    hide Linked, Timed, Coded, Armed, StartConnecting;
    assert e.call !in ch.results;
    if ch.phase.Idle? { FirstCallStarts(o, ch, e); }
  }

  lemma FirstCallStarts(o: Config, ch: Channel, e: Event)
    requires e.NewCall? && ch.phase.Idle? && ch.active == {} && ch.pending == [] && e.call !in ch.results
    ensures var r := StartConnecting(o, ch.(pending := ch.pending + [e.call]), e.now, e.refusal);
            if e.refusal.Some?
            then r.phase.Failed? && r.detail == SocketFailed(e.refusal.value) && r.pending == []
                 && r.results == ch.results[e.call := FailedWith(SocketFailed(e.refusal.value))]
            else r.phase.Connecting? && r.pending == [e.call] && r.results == ch.results
  {
    assert [] + [e.call] == [e.call] && Elements([e.call]) == {e.call};
  }
}
