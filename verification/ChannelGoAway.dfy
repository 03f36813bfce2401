/**
 GOAWAY. The documentation says calls in flight then run to completion. They do,
 until the session has refused something: from then on the error it leaves behind
 waits for the next flush that gets everything out, in whatever handler, and that
 flush brings the channel down with every call in flight.
 */
module ChannelGoAway {
  import opened Octets
  import opened SessionModel
  import opened TimerModel
  import opened ChannelModel
  import opened ChannelSafety
  import opened ChannelRuns
  import opened ChannelOutput
  import opened ChannelStories
  import opened ChannelCauses

  // ------------------------------------------------------------ every run

  /** The state before the k-th event. */
  ghost function Before(o: Config, ch: Channel, events: seq<Event>, k: nat): (m: Channel)
    requires k <= |events|
  {
    HandleAll(o, ch, events[..k])
  }

  /** The k-th event leaves an error on record. */
  ghost predicate ErrorAt(o: Config, ch: Channel, events: seq<Event>, k: nat)
    requires k < |events|
  {
    var m := Before(o, ch, events, k);
    m.session.Some? && SetsError(o, m.session.value, events[k])
  }

  lemma SomeErrorMore(o: Config, ch: Channel, events: seq<Event>)
    requires events != []
    ensures var front := events[..|events| - 1];
            (exists k :: 0 <= k < |events| && ErrorAt(o, ch, events, k))
            <==> (exists k :: 0 <= k < |front| && ErrorAt(o, ch, front, k)) || ErrorAt(o, ch, events, |front|)
  {
    hide SetsError;
    var front := events[..|events| - 1];
    assert forall k :: 0 <= k < |front| ==> front[..k] == events[..k] && front[k] == events[k];
    assert forall k :: 0 <= k < |front| ==> (ErrorAt(o, ch, front, k) <==> ErrorAt(o, ch, events, k));
  }

  lemma LastStep(o: Config, ch: Channel, events: seq<Event>, maxSkew: nat)
    requires events != [] && Inv(o, ch, maxSkew) && Possible(o, ch, events, maxSkew)
    ensures var front, e := events[..|events| - 1], events[|events| - 1];
            var m := HandleAll(o, ch, front);
            && Possible(o, ch, front, maxSkew) && Inv(o, m, maxSkew) && Enabled(m, e, maxSkew)
            && (e.TimerFires? ==> e.timer in m.timers.pending)
            && HandleAll(o, ch, events) == Handle(o, m, e)
            && (ch.phase.Ready? && HandleAll(o, ch, events).phase.Ready? ==> m.phase.Ready?)
  {
    hide Inv, Possible, Handle, Enabled;
    var front, e := events[..|events| - 1], events[|events| - 1];
    PossibleFront(o, ch, events, maxSkew);
    EventsKeep(o, ch, front, maxSkew);
    var m := HandleAll(o, ch, front);
    TimerIsThere(m, e, maxSkew);
    HandleKeeps(o, m, e, maxSkew);
    if ch.phase.Ready? { StillReady(ch, m, Handle(o, m, e), CallsIn(front), CallsOf(e)); }
  }

  /**
   Where a Ready channel's error comes from: it was there before, or some call or
   PING was refused since. Nothing ever clears it, and draining never ends.
   */
  lemma {:induction false} ErrorOrigin(o: Config, ch: Channel, events: seq<Event>, maxSkew: nat)
    requires Inv(o, ch, maxSkew) && ch.phase.Ready?
    requires Possible(o, ch, events, maxSkew) && HandleAll(o, ch, events).phase.Ready?
    ensures var r := HandleAll(o, ch, events);
            && ch.session.Some? && r.session.Some?
            && (r.session.value.error != NoError <==>
                  ch.session.value.error != NoError || exists k :: 0 <= k < |events| && ErrorAt(o, ch, events, k))
            && (ch.session.value.draining ==> r.session.value.draining)
    decreases |events|
  {
    ReadyHasLiveSession(o, ch, maxSkew);
    hide Inv, Possible, Handle, Enabled, SetsError, ErrorAfter, StopCause, FlushEnd, Pump, Unsent;
    if events != [] {
      var front, e := events[..|events| - 1], events[|events| - 1];
      LastStep(o, ch, events, maxSkew);
      ErrorOrigin(o, ch, front, maxSkew);
      var m := HandleAll(o, ch, front);
      EventVerdict(o, m, e, maxSkew);
      ErrorsAdd(o, m.session.value, e);
      SomeErrorMore(o, ch, events);
    }
  }

  /** A call made, or a due PING refused. */
  ghost predicate Provokes(o: Config, ch: Channel, events: seq<Event>, k: nat)
    requires k < |events|
  {
    var m, e := Before(o, ch, events, k), events[k];
    e.NewCall? || (m.session.Some? && e.TimerFires? && PingDue(o.keepalive, m.session.value, e.now) && e.refusal.Some?)
  }

  /** While the session is draining, every new call is refused. */
  lemma ProvokedIsError(o: Config, ch: Channel, events: seq<Event>, maxSkew: nat, k: nat)
    requires Inv(o, ch, maxSkew) && ch.phase.Ready? && k < |events|
    requires ch.session.Some? && ch.session.value.draining
    requires Possible(o, ch, events, maxSkew) && Before(o, ch, events, k).phase.Ready?
    ensures ErrorAt(o, ch, events, k) <==> Provokes(o, ch, events, k)
  {
    hide Inv, Possible, HandleAll, PingDue;
    PossiblePrefix(o, ch, events, maxSkew, k);
    ErrorOrigin(o, ch, events[..k], maxSkew);
  }

  lemma ReadyAllAlong(o: Config, ch: Channel, events: seq<Event>, maxSkew: nat, k: nat)
    requires Inv(o, ch, maxSkew) && ch.phase.Ready? && k <= |events|
    requires Possible(o, ch, events, maxSkew) && HandleAll(o, ch, events).phase.Ready?
    ensures Before(o, ch, events, k).phase.Ready?
    decreases |events|
  {
    hide Inv, Possible, Handle, Enabled;
    if k == |events| {
      assert events[..k] == events;
    } else {
      var front := events[..|events| - 1];
      LastStep(o, ch, events, maxSkew);
      ReadyAllAlong(o, ch, front, maxSkew, k);
      assert front[..k] == events[..k];
    }
  }

  /** Every call in flight is gone with the channel; the text it should have got is lost with the session. */
  ghost predicate AllLost(m: Channel, r: Channel) {
    && r.phase.Failed? && r.detail.SessionFailed? && r.active == {}
    && forall c :: c in m.active ==> c in r.results && (r.results[c].Finished? || r.results[c] == UNREAD)
  }

  lemma FailedLosesAll(o: Config, ch: Channel, r: Channel, maxSkew: nat)
    requires Fates(ch, r) && Inv(o, r, maxSkew) && r.phase.Failed? && r.detail.SessionFailed?
    ensures AllLost(ch, r)
  {
    hide OnePlace, Timed, Linked, Coded;
  }

  /** What one event does to a Ready channel, as far as GOAWAY goes. */
  ghost predicate Stepped(o: Config, m: Channel, e: Event, r: Channel)
    requires m.session.Some?
  {
    var end, error := FlushEnd(o, m, e), m.session.value.error;
    var bad := error != NoError || SetsError(o, m.session.value, e);
    && (r.phase.Ready? <==> end == Some(Blocked) || (end == Some(Drained) && !bad))
    && (r.phase.Ready? ==> r.session.Some? && (r.session.value.error != NoError <==> bad))
    && (end == Some(Drained) && bad ==> AllLost(m, r))
    && (r.phase.Failed? && end != Some(Drained) ==> Broke(r.detail))
    && (!r.phase.Failed? ==> r.detail == m.detail)
    && (!e.NewCall? && Foreign(error) ==>
          && (r.phase.Ready? ==> Foreign(r.session.value.error))
          && (r.phase.Failed? ==> Broke(r.detail)))
  }

  lemma OneStep(o: Config, m: Channel, e: Event, maxSkew: nat)
    requires Inv(o, m, maxSkew) && m.phase.Ready? && Enabled(m, e, maxSkew)
    requires e.TimerFires? ==> e.timer in m.timers.pending
    ensures m.session.Some? && Stepped(o, m, e, Handle(o, m, e))
  {
    var r := Handle(o, m, e);
    EventVerdict(o, m, e, maxSkew);
    HandleFates(o, m, e, maxSkew);
    HandleKeeps(o, m, e, maxSkew);
    NoConnectWhenReady(o, m, e, maxSkew);
    if e.ShutdownOp? { ShutdownKeeps(o, m, e, maxSkew); }
    hide *;
    ErrorsAdd(o, m.session.value, e);
    if !e.NewCall? && Foreign(m.session.value.error) { VerdictForeign(o, m, e, r); }
    if r.phase.Failed? && r.detail.SessionFailed? { FailedLosesAll(o, m, r, maxSkew); }
    SteppedIf(o, m, e, r);
  }

  lemma SteppedIf(o: Config, m: Channel, e: Event, r: Channel)
    requires m.phase.Ready? && m.session.Some? && Verdict(o, m, e, r) && !e.Connect?
    requires e.ShutdownOp? ==> r.phase.ShutDown?
    requires ErrorAfter(o, m.session.value, e) != NoError <==>
             m.session.value.error != NoError || SetsError(o, m.session.value, e)
    requires r.phase.Failed? && r.detail.SessionFailed? ==> AllLost(m, r)
    requires !e.NewCall? && Foreign(m.session.value.error) ==>
               && (r.phase.Ready? ==> r.session.Some? && Foreign(r.session.value.error))
               && (r.phase.Failed? && !e.ShutdownOp? ==> Broke(r.detail))
    ensures Stepped(o, m, e, r)
  {
    hide Pump, Unsent, StopCause, ErrorAfter, SetsError, AllLost, Foreign, Broke;
  }

  /**
   The exact condition for the claim that calls in flight run to completion after
   GOAWAY. In any run that starts draining with a clean record and is still Ready,
   let one more event come whose flush gets everything out: it fails the channel and
   every call in flight if and only if some event of the run, this one included, made
   a call or had its due PING refused. A flush that blocks fails nothing.
   */
  lemma GoAwayVerdict(o: Config, ch: Channel, events: seq<Event>, maxSkew: nat)
    requires Inv(o, ch, maxSkew) && ch.phase.Ready? && events != []
    requires ch.session.Some? && ch.session.value.draining && ch.session.value.error == NoError
    requires Possible(o, ch, events, maxSkew) && HandleAll(o, ch, events[..|events| - 1]).phase.Ready?
    ensures var m := HandleAll(o, ch, events[..|events| - 1]); var r := HandleAll(o, ch, events);
            var end := FlushEnd(o, m, events[|events| - 1]);
            && (end == Some(Drained) ==>
                  (r.phase.Failed? <==> exists k :: 0 <= k < |events| && Provokes(o, ch, events, k))
                  && (r.phase.Failed? ==> AllLost(m, r)))
            && (end == Some(Drained) && !r.phase.Failed? ==> r.phase.Ready?)
            && (end == Some(Blocked) ==> r.phase.Ready?)
            && (end != Some(Drained) && r.phase.Failed? ==> Broke(r.detail))
  {
    var front, e := events[..|events| - 1], events[|events| - 1];
    var m, r := HandleAll(o, ch, front), HandleAll(o, ch, events);
    LastStep(o, ch, events, maxSkew);
    hide Inv, Possible, HandleAll, Handle, Enabled, SetsError, ErrorAt, Provokes, AllLost, FlushEnd, Foreign;
    ErrorOrigin(o, ch, front, maxSkew);
    OneStep(o, m, e, maxSkew);
    SomeErrorMore(o, ch, events);
    LastIsError(o, ch, events);
    SomeProvocation(o, ch, events, maxSkew);
  }

  lemma SomeProvocation(o: Config, ch: Channel, events: seq<Event>, maxSkew: nat)
    requires Inv(o, ch, maxSkew) && ch.phase.Ready? && events != []
    requires ch.session.Some? && ch.session.value.draining
    requires Possible(o, ch, events, maxSkew) && HandleAll(o, ch, events[..|events| - 1]).phase.Ready?
    ensures (exists k :: 0 <= k < |events| && ErrorAt(o, ch, events, k))
            <==> (exists k :: 0 <= k < |events| && Provokes(o, ch, events, k))
  {
    hide Inv, HandleAll, Enabled, ErrorAt, Provokes, Possible;
    var front := events[..|events| - 1];
    PossibleFront(o, ch, events, maxSkew);
    forall k | 0 <= k < |events|
      ensures ErrorAt(o, ch, events, k) <==> Provokes(o, ch, events, k)
    {
      ReadyAllAlong(o, ch, front, maxSkew, k);
      assert events[..k] == front[..k];
      ProvokedIsError(o, ch, events, maxSkew, k);
    }
  }

  lemma LastIsError(o: Config, ch: Channel, events: seq<Event>)
    requires events != []
    ensures var m := HandleAll(o, ch, events[..|events| - 1]);
            ErrorAt(o, ch, events, |events| - 1) <==>
            m.session.Some? && SetsError(o, m.session.value, events[|events| - 1])
  {
  }

  predicate NoNewCall(events: seq<Event>) { forall i :: 0 <= i < |events| ==> !events[i].NewCall? }

  /**
   Without a new call, draining harms nobody: if the channel comes down, something
   else broke or it was shut down, and every call in flight stays, finishes, or ends
   with that.
   */
  lemma {:induction false} DrainingAlone(o: Config, ch: Channel, events: seq<Event>, maxSkew: nat)
    requires Inv(o, ch, maxSkew) && ch.phase.Ready? && ch.session.Some? && Foreign(ch.session.value.error)
    requires Possible(o, ch, events, maxSkew) && NoNewCall(events)
    ensures var r := HandleAll(o, ch, events);
            && Fates(ch, r)
            && (r.phase.Ready? ==> r.session.Some? && Foreign(r.session.value.error))
            && (r.phase.Failed? ==> Broke(r.detail))
            && (r.phase.ShutDown? ==> Broke(r.detail) || r.detail == ch.detail)
            && r.phase.Rank() >= 2 && (r.phase.Ready? ==> r.detail == ch.detail)
    decreases |events|
  {
    HowCallsEnd(o, ch, events, maxSkew);
    hide Inv, Possible, Handle, Enabled, Fates, FlushEnd, SetsError, AllLost, Foreign, Broke;
    if events != [] {
      var front, e := events[..|events| - 1], events[|events| - 1];
      LastStep(o, ch, events, maxSkew);
      DrainingAlone(o, ch, front, maxSkew);
      var m := HandleAll(o, ch, front);
      HandleKeeps(o, m, e, maxSkew);
      PhaseOn(m, Handle(o, m, e), CallsOf(e));
      if m.phase.Ready? {
        OneStep(o, m, e, maxSkew);
      } else {
        DetailStays(o, m, e, maxSkew);
      }
    }
  }

  lemma PhaseOn(ch: Channel, r: Channel, x: set<CallId>)
    requires Moves(ch, r, x)
    ensures ch.phase.Rank() <= r.phase.Rank()
  {
    hide Core;
  }

  /** Every event of a list had its flush blocked. */
  ghost predicate AllBlocked(o: Config, ch: Channel, events: seq<Event>) {
    forall k :: 0 <= k < |events| ==> FlushEnd(o, Before(o, ch, events, k), events[k]) == Some(Blocked)
  }

  lemma AllBlockedMore(o: Config, ch: Channel, events: seq<Event>)
    requires events != []
    ensures var front := events[..|events| - 1];
            AllBlocked(o, ch, events) <==>
            AllBlocked(o, ch, front) && FlushEnd(o, HandleAll(o, ch, front), events[|front|]) == Some(Blocked)
  {
    hide FlushEnd, HandleAll, AllBlocked;
    var front := events[..|events| - 1];
    if AllBlocked(o, ch, events) {
      BlockedAt(o, ch, events, |front|);
      forall k | 0 <= k < |front|
        ensures FlushEnd(o, Before(o, ch, front, k), front[k]) == Some(Blocked)
      {
        BlockedAt(o, ch, events, k);
        assert front[..k] == events[..k];
      }
      AllBlockedIf(o, ch, front);
    }
    if AllBlocked(o, ch, front) && FlushEnd(o, HandleAll(o, ch, front), events[|front|]) == Some(Blocked) {
      forall k | 0 <= k < |events|
        ensures FlushEnd(o, Before(o, ch, events, k), events[k]) == Some(Blocked)
      {
        if k < |front| {
          BlockedAt(o, ch, front, k);
          assert front[..k] == events[..k];
        }
      }
      AllBlockedIf(o, ch, events);
    }
  }

  lemma BlockedAt(o: Config, ch: Channel, events: seq<Event>, k: nat)
    requires AllBlocked(o, ch, events) && k < |events|
    ensures FlushEnd(o, Before(o, ch, events, k), events[k]) == Some(Blocked)
  {
    hide FlushEnd, Before;
  }

  lemma AllBlockedIf(o: Config, ch: Channel, events: seq<Event>)
    requires forall k :: 0 <= k < |events| ==> FlushEnd(o, Before(o, ch, events, k), events[k]) == Some(Blocked)
    ensures AllBlocked(o, ch, events)
  {
    hide FlushEnd, Before;
  }

  /**
   Once anything was refused the channel lives exactly as long as every flush blocks.
   The first one that gets everything out takes every call in flight with it.
   */
  lemma {:induction false} RefusalDooms(o: Config, ch: Channel, events: seq<Event>, maxSkew: nat)
    requires Inv(o, ch, maxSkew) && ch.phase.Ready? && ch.session.Some? && ch.session.value.error != NoError
    requires Possible(o, ch, events, maxSkew)
    ensures var r := HandleAll(o, ch, events);
            && (r.phase.Ready? <==> AllBlocked(o, ch, events))
            && (r.phase.Ready? ==> r.session.Some? && r.session.value.error != NoError)
    ensures events != [] ==>
              var m := HandleAll(o, ch, events[..|events| - 1]);
              m.phase.Ready? && FlushEnd(o, m, events[|events| - 1]) == Some(Drained) ==>
                AllLost(m, HandleAll(o, ch, events))
    decreases |events|
  {
    hide Inv, Possible, Handle, Enabled, SetsError, FlushEnd, AllBlocked, AllLost, Foreign;
    if events == [] {
      NoneBlocked(o, ch);
    } else {
      var front, e := events[..|events| - 1], events[|events| - 1];
      LastStep(o, ch, events, maxSkew);
      RefusalDooms(o, ch, front, maxSkew);
      AllBlockedMore(o, ch, events);
      var m := HandleAll(o, ch, front);
      if m.phase.Ready? {
        OneStep(o, m, e, maxSkew);
      } else {
        NotReadyNotBlocked(o, m, e);
        HandleKeeps(o, m, e, maxSkew);
      }
    }
  }

  lemma NotReadyNotBlocked(o: Config, ch: Channel, e: Event)
    requires !ch.phase.Ready?
    ensures FlushEnd(o, ch, e).None?
  {
  }

  lemma NoneBlocked(o: Config, ch: Channel)
    ensures AllBlocked(o, ch, [])
  {
  }

  /**
   One handler at a time: a new call brings a Ready channel down exactly when its
   flush breaks, or gets everything out while the session is draining, refused the
   call, or had an error on record. The new call itself is told of the draining.
   */
  lemma NewCallVerdict(o: Config, ch: Channel, e: Event, maxSkew: nat)
    requires Inv(o, ch, maxSkew) && ch.phase.Ready? && e.NewCall? && Enabled(ch, e, maxSkew)
    ensures var s := ch.session.value;
            var end := Pump(Unsent(s), e.flush).end;
            var r := HandleNewCall(o, ch, e);
            && (r.phase.Failed? <==>
                  end.Broken? || (end.Drained? && (s.draining || e.id < 0 || s.error != NoError)))
            && (r.phase.Failed? || r.phase.Ready?) && Fates(ch, r)
            && (end.Drained? && s.draining ==> r.detail == SessionFailed(Draining))
            && (s.draining ==> e.call in r.results && r.results[e.call] == FailedWith(SessionFailed(Draining)))
  {
    ReadyHasLiveSession(o, ch, maxSkew);
    EventVerdict(o, ch, e, maxSkew);
    HandleFates(o, ch, e, maxSkew);
    CoreOfInv(o, ch, maxSkew);
    hide Inv, Core, Fates, HandleNewCall, Pump, Unsent, ErrorAfter;
    ErrorsAdd(o, ch.session.value, e);
    RefusedIsTold(o, ch, e);
  }

  /** A call refused because of draining is told so. */
  lemma RefusedIsTold(o: Config, ch: Channel, e: Event)
    requires Core(ch) && ch.phase.Ready? && e.NewCall? && e.call !in Known(ch) && FreshId(ch, e.id)
    ensures ch.session.Some?
    ensures ch.session.value.draining ==>
              var r := HandleNewCall(o, ch, e);
              && ErrorAfter(o, ch.session.value, e) == Draining
              && e.call in r.results && r.results[e.call] == FailedWith(SessionFailed(Draining))
  {
    ReadyHasSession(ch);
    SubmitSets(o, ch.session.value, e);
    hide Core, Moves, Flush, Unsent;
    var m := SubmitCall(ch, e.call, e.id);
    SubmitMoves(ch, e.call, e.id);
    CoreOf(ch, m);
    FlushMoves(m, e.flush);
    ResultsStay(m, Flush(m, e.flush), {});
  }

  // ------------------------------------------------------------ two runs

  /** With nothing buffered and nothing produced, a flush only looks at the error. */
  lemma EmptyFlush(ch: Channel)
    requires ch.phase.Ready? && ch.session.Some?
    requires var s := ch.session.value; s.live && s.out == [] && s.consumed == 0
    ensures Flush(ch, []) == if ch.session.value.error == NoError then ch
                             else TearDown(ch, OfSession(ch.session.value.error))
  {
    var s := ch.session.value;
    assert Refill(s, []) == s && RefillHooks(s, []) == [] && Offered(s, []) == [];
    assert Produced(ch, []) == ch;
  }

  /** The first call, and the connection it makes. */
  function FirstCall(): Event { NewCall(1, 0, None, 1, []) }
  function Handshake(): Event { Connect(Connected, 0, None, [], 0, [1], []) }

  /** GOAWAY arrives; whatever the library wants to send then is up to the flush. */
  function GoAwayArrives(flush: seq<FlushTurn>): Event {
    Traffic(true, [ReadBytes(0, 17, [GoAway(false)], None)], flush, 0)
  }

  function SecondCall(): Event { NewCall(2, 0, None, 3, []) }

  /** The runs' Ready states: call 1 on stream 1, the timer under the given id, some output stuck in the buffer. */
  function InFlight(o: Config, draining: bool, timer: nat, stuck: seq<byte>): Channel {
    var s := SessionModel.Init(0).(streams := map[1 := 1], activeStreams := 1, draining := draining,
                                   out := stuck);
    Channel(Ready, Unspecified, [], {1}, Some(s), 0, timer,
            Timers(map[timer := Timer(o.keepalive.keepaliveTime, KeepaliveCheck)], timer + 1), WatchSession, map[])
  }

  lemma Connects(o: Config)
    ensures HandleNewCall(o, START, FirstCall()) ==
            Channel(Connecting, Unspecified, [1], {}, None, 1, 0,
                    Timers(map[1 := Timer(o.connectTimeout, ConnectTimeout)], 2), WatchConnect, map[])
  {
  }

  /** Connected, the preface out, keepalive armed if it may be; the queued call is not submitted yet. */
  function Up(o: Config): Channel {
    var timers := if o.keepalive.permitWithoutCalls
                  then Timers(map[2 := Timer(o.keepalive.keepaliveTime, KeepaliveCheck)], 3) else Timers(map[], 2);
    Channel(Ready, Unspecified, [], {}, Some(SessionModel.Init(0)), 0,
            if o.keepalive.permitWithoutCalls then 2 else 0, timers, WatchSession, map[])
  }

  lemma ArmsFirst(o: Config)
    ensures var a := HandleNewCall(o, START, FirstCall());
            var m := a.(timers := Cancelled(a.timers, a.connectTimer), connectTimer := 0);
            var x := m.(session := Some(SessionModel.Init(0)), watch := WatchSession, phase := Ready);
            Rearm(o, Flush(x, []), 0) == Up(o).(pending := [1])
  {
    hide Flush;
    Connects(o);
    var a := HandleNewCall(o, START, FirstCall());
    var m := a.(timers := Cancelled(a.timers, a.connectTimer), connectTimer := 0);
    assert m.timers == Timers(map[], 2);
    EmptyFlush(m.(session := Some(SessionModel.Init(0)), watch := WatchSession, phase := Ready));
  }

  /** The session arms keepalive before it submits the queue. */
  lemma ComesUp(o: Config)
    ensures OnConnectProgress(o, HandleNewCall(o, START, FirstCall()), Handshake()) == SubmitCall(Up(o), 1, 1)
  {
    hide Flush, Rearm, HandleNewCall;
    ArmsFirst(o);
    var z := Up(o);
    assert SubmitAll(z, [1][..0], [1]) == z;
    var n := SubmitAll(z, [1], [1]);
    assert n == SubmitCall(z, 1, 1);
    EmptyFlush(n);
  }

  lemma BecomesReady(o: Config)
    requires o.keepalive.permitWithoutCalls
    ensures OnConnectProgress(o, HandleNewCall(o, START, FirstCall()), Handshake()) == InFlight(o, false, 2, [])
  {
    hide OnConnectProgress, HandleNewCall;
    ComesUp(o);
  }

  lemma HearsGoAway(o: Config)
    ensures var ch := InFlight(o, false, 2, []);
            DrainSocket(ch, GoAwayArrives([]).input) == InFlight(o, true, 2, [])
  {
    var ch := InFlight(o, false, 2, []);
    var input := GoAwayArrives([]).input;
    var signals := input[0].signals;
    assert signals[..0] == [] && HearAll(ch.session.value, signals) == ch.session.value.(draining := true);
    assert HooksRun(ch.session.value, signals) == [];
    var m := Heard(ch, input[0]);
    assert m == ch.(session := Some(ch.session.value.(draining := true)));
    assert input[1..] == [] && DrainSocket(m, []) == m;
  }

  lemma Rearms(o: Config, draining: bool, timer: nat, stuck: seq<byte>)
    requires o.keepalive.permitWithoutCalls && timer > 0
    ensures Rearm(o, InFlight(o, draining, timer, stuck), 0) == InFlight(o, draining, timer + 1, stuck)
  {
    var ch := InFlight(o, draining, timer, stuck);
    assert Cancelled(ch.timers, timer) == Timers(map[], timer + 1);
  }

  lemma DrainsClean(o: Config)
    requires o.keepalive.permitWithoutCalls
    ensures OnSocketReady(o, InFlight(o, false, 2, []), GoAwayArrives([])) == InFlight(o, true, 3, [])
  {
    hide DrainSocket, Rearm, Flush;
    HearsGoAway(o);
    EmptyFlush(InFlight(o, true, 2, []));
    Rearms(o, true, 2, []);
  }

  /** The library answers with one byte, and the socket blocks on it. */
  function Stuck(): seq<FlushTurn> { [FlushTurn([Chunk([7], [])], WriteBlocked)] }

  lemma GetsStuck(o: Config)
    ensures Flush(InFlight(o, true, 2, []), Stuck()) == InFlight(o, true, 2, [7])
  {
    var ch := InFlight(o, true, 2, []);
    var s, script := ch.session.value, [Chunk([7], [])];
    assert HearAll(s, []) == s && HooksRun(s, []) == [];
    assert script[1..] == [] && [] + [7] == [7];
    assert Refill(s, script) == s.(out := [7]);
    assert RefillHooks(s, script) == [];
    assert !Fails(script) && Offered(s, script) == [7];
    assert Produced(ch, script) == InFlight(o, true, 2, [7]);
  }

  lemma DrainsStuck(o: Config)
    requires o.keepalive.permitWithoutCalls
    ensures OnSocketReady(o, InFlight(o, false, 2, []), GoAwayArrives(Stuck())) == InFlight(o, true, 3, [7])
  {
    hide DrainSocket, Rearm, Flush;
    HearsGoAway(o);
    GetsStuck(o);
    Rearms(o, true, 2, [7]);
  }

  function Refused(): map<CallId, Completion> { map[2 := FailedWith(SessionFailed(Draining))] }

  /** The second call, refused, at once takes the first one down with it. */
  lemma FailsAtOnce(o: Config)
    ensures var r := HandleNewCall(o, InFlight(o, true, 3, []), SecondCall());
            && r.phase.Failed? && r.active == {} && r.detail == SessionFailed(Draining)
            && r.results == Refused()[1 := UNREAD]
  {
    hide Flush;
    var ch := InFlight(o, true, 3, []);
    var m := SubmitCall(ch, 2, 3);
    assert m.results == Refused();
    EmptyFlush(m);
    assert Elements([]) == {};
  }

  /** With the socket blocked the second call fails alone, but its error stays. */
  function Doomed(o: Config): Channel {
    var ch := InFlight(o, true, 3, [7]);
    ch.(session := Some(ch.session.value.(error := Draining)), results := Refused())
  }

  lemma FailsAlone(o: Config)
    ensures HandleNewCall(o, InFlight(o, true, 3, [7]), SecondCall()) == Doomed(o)
  {
    var m := SubmitCall(InFlight(o, true, 3, [7]), 2, 3);
    assert m == Doomed(o);
    assert Produced(m, []) == m;
  }

  /** The socket takes the byte that was stuck. */
  function SocketFree(): Event { Traffic(false, [], [FlushTurn([], Wrote(1))], 0) }

  lemma FailsLater(o: Config)
    ensures var r := OnSocketReady(o, Doomed(o), SocketFree());
            && r.phase.Failed? && r.active == {} && r.detail == SessionFailed(Draining)
            && r.results == Refused()[1 := UNREAD]
  {
    var ch, e := Doomed(o), SocketFree();
    assert Produced(ch, []) == ch;
    var s := Consume(ch.session.value, 1);
    var next := ch.(session := Some(s));
    assert e.flush[1..] == [];
    assert Flush(ch, e.flush) == Flush(next, []);
    assert NeedsRefill(s) && Refill(s, []).error == Draining && RefillHooks(s, []) == [] && Offered(s, []) == [];
    assert Elements([]) == {};
  }

  lemma RunNext(o: Config, w: seq<Event>, k: nat)
    requires k < |w| && !w[k].TimerFires?
    ensures ChannelRuns.Run(o, w[..k + 1]) == Handle(o, ChannelRuns.Run(o, w[..k]), w[k])
  {
    assert w[..k + 1][..k] == w[..k];
  }

  /** Both runs begin alike. */
  lemma RunsBegin(o: Config, w: seq<Event>)
    requires o.keepalive.permitWithoutCalls
    requires |w| >= 3 && w[0] == FirstCall() && w[1] == Handshake() && !w[2].TimerFires?
    ensures ChannelRuns.Run(o, w[..0]) == START && ChannelRuns.Run(o, w[..2]) == InFlight(o, false, 2, [])
    ensures forall k :: 0 <= k < 2 ==> Enabled(ChannelRuns.Run(o, w[..k]), w[k], 0)
    ensures ChannelRuns.Run(o, w[..3]) == Handle(o, InFlight(o, false, 2, []), w[2])
  {
    hide HandleNewCall, OnConnectProgress, ChannelRuns.Run;
    RunNext(o, w, 0);
    RunNext(o, w, 1);
    RunNext(o, w, 2);
    NothingRun(o, w);
    Connects(o);
    BecomesReady(o);
  }

  lemma NothingRun(o: Config, w: seq<Event>)
    ensures ChannelRuns.Run(o, w[..0]) == START
  {
  }

  function GoAwayRun(): seq<Event> { [FirstCall(), Handshake(), GoAwayArrives([]), SecondCall()] }

  /**
   The claim that calls in flight run to completion after GOAWAY is false: in this
   run the second call, itself refused, takes the first one down with it. The text
   the first call gets is lost with the session.
   */
  lemma GoAwayFailsCallInFlight(o: Config)
    requires o.keepalive.permitWithoutCalls
    ensures var before := ChannelRuns.Run(o, GoAwayRun()[..3]); var r := ChannelRuns.Run(o, GoAwayRun());
            && ChannelRuns.Lawful(o, GoAwayRun(), 0)
            && before.phase.Ready? && before.active == {1} && before.session.Some?
            && before.session.value.draining && before.session.value.error == NoError
            && r.phase.Failed? && r.active == {} && r.detail == SessionFailed(Draining)
            && r.results == map[1 := UNREAD, 2 := FailedWith(SessionFailed(Draining))]
  {
    hide HandleNewCall, OnConnectProgress, OnSocketReady, HandleAll;
    var w := GoAwayRun();
    RunsBegin(o, w);
    DrainsClean(o);
    RunNext(o, w, 3);
    FailsAtOnce(o);
    assert w[..4] == w;
    assert forall k :: 0 <= k < |w| ==> Enabled(ChannelRuns.Run(o, w[..k]), w[k], 0);
  }

  function BlockedRun(): seq<Event> {
    [FirstCall(), Handshake(), GoAwayArrives(Stuck()), SecondCall(), SocketFree()]
  }

  /**
   Nor is the call in flight safe when the second call leaves it alone: here the
   socket blocks, the channel stays Ready, and a later socket event, which makes no
   call and reads nothing, fails the first call.
   */
  lemma GoAwayFailsCallLater(o: Config)
    requires o.keepalive.permitWithoutCalls
    ensures var after := ChannelRuns.Run(o, BlockedRun()[..4]); var r := ChannelRuns.Run(o, BlockedRun());
            && ChannelRuns.Lawful(o, BlockedRun(), 0)
            && after.phase.Ready? && after.active == {1}
            && after.results == map[2 := FailedWith(SessionFailed(Draining))]
            && r.phase.Failed? && r.active == {} && r.detail == SessionFailed(Draining)
            && r.results == map[1 := UNREAD, 2 := FailedWith(SessionFailed(Draining))]
  {
    hide HandleNewCall, OnConnectProgress, OnSocketReady, HandleAll;
    var w := BlockedRun();
    RunsBegin(o, w);
    DrainsStuck(o);
    RunNext(o, w, 3);
    FailsAlone(o);
    RunNext(o, w, 4);
    FailsLater(o);
    assert w[..5] == w;
    assert forall k :: 0 <= k < |w| ==> Enabled(ChannelRuns.Run(o, w[..k]), w[k], 0);
  }
}
