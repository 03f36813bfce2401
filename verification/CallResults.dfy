/**
 What UnaryCall returns: from what the library reports about a call's stream,
 through session, channel and call object, to the result the caller sees.
 */
module CallResults {
  import opened Octets
  import C = CallOutcome
  import Status
  import opened SessionModel
  import opened TimerModel
  import opened ChannelModel
  import opened ChannelSafety
  import opened ChannelRuns
  import opened ChannelStories
  import opened ChannelCauses

  // ------------------------------------------------------------ what a call object is told

  /** What one signal of the library tells a call: the session looks the stream up in its table. */
  function ToldBy(s: Session, signal: Signal, c: CallId): (told: seq<C.Event>) {
    match signal
    case StreamDelivers(id, event) => if id in s.streams && s.streams[id] == c then [event] else []
    case StreamClosed(id, code) => if id in s.streams && s.streams[id] == c then [C.Close(code)] else []
    case _ => []
  }

  function Told(s: Session, signals: seq<Signal>, c: CallId): (told: seq<C.Event>) {
    if signals == [] then []
    else Told(s, signals[..|signals| - 1], c)
         + ToldBy(HearAll(s, signals[..|signals| - 1]), signals[|signals| - 1], c)
  }

  /** What a list of on_close hooks tells a call. */
  function ToldByHooks(hooks: seq<(CallId, nat)>, c: CallId): (told: seq<C.Event>) {
    if hooks == [] then []
    else ToldByHooks(hooks[..|hooks| - 1], c)
         + if hooks[|hooks| - 1].0 == c then [C.Close(hooks[|hooks| - 1].1)] else []
  }

  function ToldByReads(ch: Channel, input: seq<ReadOutcome>, c: CallId): (told: seq<C.Event>)
    decreases |input|
  {
    if ch.phase != Ready || ch.session.None? || input == [] || !input[0].ReadBytes? || !ch.session.value.live then []
    else
      var s, e := ch.session.value, input[0];
      Told(if e.len > 0 then s.(lastRead := e.now) else s, e.signals, c)
      + if e.failure.Some? then [] else ToldByReads(Heard(ch, e), input[1..], c)
  }

  /** What a flush tells a call: while producing output the library can only close streams. */
  function ToldByFlush(ch: Channel, flush: seq<FlushTurn>, c: CallId): (told: seq<C.Event>) {
    if ch.phase != Ready || ch.session.None? then [] else ToldByHooks(Farewell(ch.session.value, flush), c)
  }

  /** What the library tells a call while an event is handled. */
  function ToldByEvent(o: Config, ch: Channel, e: Event, c: CallId): (told: seq<C.Event>) {
    match e
    case NewCall(call, _, _, id, flush) => ToldByFlush(SubmitCall(ch, call, id), flush, c)
    case Connect(_, _, _, _, _, _, flush) => ToldByFlush(BeforeFlush(o, ch, e), flush, c)
    case Traffic(readable, input, flush, _) =>
      if readable then ToldByReads(ch, input, c) + ToldByFlush(DrainSocket(ch, input), flush, c)
      else ToldByFlush(ch, flush, c)
    case TimerFires(_, now, refusal, flush, _) =>
      if ch.session.None? || Check(o.keepalive, ch.session.value, now, refusal).1.Dead? then []
      else ToldByFlush(Evaluated(o, ch, e), flush, c)
    case ShutdownOp(flush) =>
      if ch.phase.Ready? && ch.session.Some? then ToldByHooks(Farewell(Terminate(ch.session.value), flush), c) else []
  }

  /** A channel that has just come up, its queue submitted, about to flush; any other stays out of it. */
  function BeforeFlush(o: Config, ch: Channel, e: Event): (m: Channel)
    requires e.Connect?
  {
    if !e.outcome.Connected? || e.setupFailure.Some? then ch
    else
      var m := ch.(timers := Cancelled(ch.timers, ch.connectTimer), connectTimer := 0);
      var x := m.(session := Some(SessionModel.Init(e.now)), watch := WatchSession, phase := Ready);
      var up := Rearm(o, Flush(x, e.preface), e.skew);
      SubmitAll(up.(pending := []), up.pending, e.ids)
  }

  /** The words of a local failure; a text that was lost reads as whatever it reads as. */
  function Words(text: Option<Reason>, lost: string): string { if text.Some? then text.value.Wording() else lost }

  /** The event that gave a call its result. */
  function EndOfCall(how: Completion, lost: string): (e: C.Event) {
    match how
    case Finished(code) => C.Close(code)
    case FailedLocally(code, text) => C.Fail(code, Words(text, lost))
  }

  /** FailLocal, if the event made the channel fail the call. */
  function FailedNow(ch: Channel, r: Channel, c: CallId, lost: string): (told: seq<C.Event>) {
    if c !in ch.results && c in r.results && r.results[c].FailedLocally? then [EndOfCall(r.results[c], lost)] else []
  }

  /** Everything a call object is told in a run, in order; at shutdown it is failed before the farewell flush. */
  ghost function Log(o: Config, events: seq<Event>, c: CallId, lost: string): (log: seq<C.Event>) {
    if events == [] then []
    else
      var front, e := events[..|events| - 1], events[|events| - 1];
      var ch, r := ChannelRuns.Run(o, front), ChannelRuns.Run(o, events);
      var heard, failed := ToldByEvent(o, ch, e, c), FailedNow(ch, r, c, lost);
      Log(o, front, c, lost) + if e.ShutdownOp? then failed + heard else heard + failed
  }

  // ------------------------------------------------------------ one stretch

  /** The first event of the list that ends the call is this one. */
  ghost predicate EndedBy(told: seq<C.Event>, e: C.Event) {
    exists k :: 0 <= k < |told| && told[k] == e && C.Open(told[..k])
  }

  lemma EndedEarly(a: seq<C.Event>, b: seq<C.Event>, e: C.Event)
    requires EndedBy(a, e)
    ensures EndedBy(a + b, e)
  {
    var k :| 0 <= k < |a| && a[k] == e && C.Open(a[..k]);
    assert (a + b)[k] == e && (a + b)[..k] == a[..k];
  }

  lemma EndedLate(a: seq<C.Event>, b: seq<C.Event>, e: C.Event)
    requires C.Open(a) && EndedBy(b, e)
    ensures EndedBy(a + b, e)
  {
    var k :| 0 <= k < |b| && b[k] == e && C.Open(b[..k]);
    assert (a + b)[|a| + k] == e && (a + b)[..|a| + k] == a + b[..k];
  }

  predicate IsFinished(ch: Channel, c: CallId) { c in ch.results && ch.results[c].Finished? }

  /**
   From ch to r the library told the call this: its stream's close if that is how it finished,
   else nothing that ends it.
   */
  ghost predicate Heeds(ch: Channel, r: Channel, c: CallId, told: seq<C.Event>) {
    c !in ch.results ==>
      && (IsFinished(r, c) ==> EndedBy(told, C.Close(r.results[c].http2Error)))
      && (!IsFinished(r, c) ==> C.Open(told))
  }

  /** And nothing at all to a call without a stream. */
  ghost predicate Story(ch: Channel, r: Channel, c: CallId, told: seq<C.Event>) {
    Heeds(ch, r, c, told) && (c !in ch.active ==> told == [])
  }

  lemma StoryOn(ch: Channel, m: Channel, r: Channel, c: CallId, a: seq<C.Event>, b: seq<C.Event>)
    requires Story(ch, m, c, a) && Story(m, r, c, b) && Grows(m.results, r.results)
    requires m.active !! m.results.Keys && (c in m.active ==> c in ch.active)
    ensures Story(ch, r, c, a + b)
  {
    if c !in ch.results {
      if IsFinished(m, c) {
        EndedEarly(a, b, C.Close(m.results[c].http2Error));
      } else if c in m.results {
        assert b == [] && a + b == a;
      } else if IsFinished(r, c) {
        EndedLate(a, b, C.Close(r.results[c].http2Error));
      }
    }
  }

  lemma QuietStory(ch: Channel, r: Channel, c: CallId)
    requires c in r.results && c !in ch.results ==> r.results[c].FailedLocally?
    requires Grows(ch.results, r.results)
    ensures Story(ch, r, c, [])
  {
  }

  // ------------------------------------------------------------ hooks

  lemma {:induction false} HooksStory(ch: Channel, hooks: seq<(CallId, nat)>, c: CallId)
    requires OncePerCall(hooks) && Closed(hooks) <= ch.active
    ensures Story(ch, AfterHooks(ch, hooks), c, ToldByHooks(hooks, c))
    ensures c !in Closed(hooks) ==> ToldByHooks(hooks, c) == []
    ensures c in Closed(hooks) ==> |ToldByHooks(hooks, c)| == 1 && ToldByHooks(hooks, c)[0].Close?
    decreases |hooks|
  {
    hide Story, AfterHooks, ToldByHooks;
    if hooks == [] {
      NoHooks(ch);
      QuietStory(ch, ch, c);
      NothingTold(c);
    } else {
      var front, last := hooks[..|hooks| - 1], hooks[|hooks| - 1];
      assert hooks == front + [last];
      HookAdded(front, last);
      NotYet(front, last);
      HooksStory(ch, front, c);
      HooksEffect(ch, front);
      HookTells(ch, AfterHooks(ch, front), front, last, c);
    }
  }

  lemma HookTells(ch: Channel, m: Channel, front: seq<(CallId, nat)>, last: (CallId, nat), c: CallId)
    requires m == AfterHooks(ch, front) && Story(ch, m, c, ToldByHooks(front, c))
    requires last.0 in ch.active && (last.0 in m.results ==> last.0 in ch.results)
    requires last.0 == c ==> ToldByHooks(front, c) == []
    ensures Story(ch, AfterHooks(ch, front + [last]), c, ToldByHooks(front + [last], c))
    ensures ToldByHooks(front + [last], c) == if last.0 == c then [C.Close(last.1)] else ToldByHooks(front, c)
  {
    var hooks := front + [last];
    assert hooks[..|hooks| - 1] == front;
    if last.0 == c {
      var told := ToldByHooks(hooks, c);
      assert told == [C.Close(last.1)];
      assert told[0] == C.Close(last.1) && C.Open(told[..0]);
    } else {
      assert ToldByHooks(front, c) + [] == ToldByHooks(front, c);
    }
  }

  lemma NothingTold(c: CallId)
    ensures ToldByHooks([], c) == []
  {
  }

  lemma {:induction false} ToldByBoth(a: seq<(CallId, nat)>, b: seq<(CallId, nat)>, c: CallId)
    ensures ToldByHooks(a + b, c) == ToldByHooks(a, c) + ToldByHooks(b, c)
    decreases |b|
  {
    if b == [] {
      assert a + b == a;
    } else {
      assert (a + b)[..|a + b| - 1] == a + b[..|b| - 1];
      ToldByBoth(a, b[..|b| - 1], c);
    }
  }

  /** What signals tell a call is what its stream delivers, and then its close if the hook ran. */
  lemma {:induction false} SignalsTell(s: Session, signals: seq<Signal>, c: CallId) returns (heard: seq<C.Event>)
    requires Agrees(s)
    ensures C.Open(heard) && Told(s, signals, c) == heard + ToldByHooks(HooksRun(s, signals), c)
    ensures c !in Calls(s) ==> Told(s, signals, c) == []
    decreases |signals|
  {
    hide Agrees, Hear, HearAll, HookOf, ToldBy, ToldByHooks, Calls, Closed;
    if signals == [] {
      heard := [];
      NothingTold(c);
    } else {
      var front, last := signals[..|signals| - 1], signals[|signals| - 1];
      var m, hooks := HearAll(s, front), HooksRun(s, front);
      heard := SignalsTell(s, front, c);
      HooksAgree(s, front);
      ToldByBoth(hooks, HookOf(m, last), c);
      OneTells(m, last, c);
      if c in Calls(m) { NoHookYet(hooks, c); }
      assert c !in Calls(s) ==> c !in Calls(m);
      heard := TellOne(heard, ToldByHooks(hooks, c), ToldBy(m, last, c), ToldByHooks(HookOf(m, last), c),
          last.StreamDelivers?);
    }
  }

  /** A delivery comes before any close; a close is the last thing heard. */
  lemma TellOne(heard: seq<C.Event>, closed: seq<C.Event>, now: seq<C.Event>, hook: seq<C.Event>, delivers: bool)
    returns (more: seq<C.Event>)
    requires C.Open(heard) && (closed == [] || (now == [] && hook == []))
    requires delivers ==> C.Open(now) && hook == []
    requires !delivers ==> now == hook
    ensures C.Open(more) && heard + closed + now == more + (closed + hook)
  {
    if delivers && closed == [] {
      more := heard + now;
      assert heard + closed + now == more + (closed + hook);
    } else {
      more := heard;
      Assoc(heard, closed, now);
    }
  }

  /** The signals of a list that are about one stream, up to and including the first report that it closed. */
  function OnStream(signals: seq<Signal>, id: int): (told: seq<C.Event>) {
    if signals == [] then []
    else
      var front, last := signals[..|signals| - 1], signals[|signals| - 1];
      OnStream(front, id)
      + if ClosedIn(front, id) then []
        else if last.StreamDelivers? && last.id == id then [last.event]
        else if last.StreamClosed? && last.id == id then [C.Close(last.code)]
        else []
  }

  predicate ClosedIn(signals: seq<Signal>, id: int) {
    exists i :: 0 <= i < |signals| && signals[i].StreamClosed? && signals[i].id == id
  }

  /** A call is told exactly what its stream delivers, in order, until it closes. */
  lemma {:induction false} ToldIsStream(s: Session, signals: seq<Signal>, id: int)
    requires Agrees(s) && id in s.streams
    ensures Told(s, signals, s.streams[id]) == OnStream(signals, id)
    decreases |signals|
  {
    hide HearAll;
    if signals != [] {
      var front, last := signals[..|signals| - 1], signals[|signals| - 1];
      var c, m := s.streams[id], HearAll(s, front);
      ToldIsStream(s, front, id);
      StreamsGo(s, front, id);
      HooksAgree(s, front);
      if ClosedIn(front, id) {
        GoneFromTable(s, front, id);
        OneTells(m, last, c);
      } else if (last.StreamDelivers? || last.StreamClosed?) && last.id in m.streams {
        assert m.streams[last.id] == c <==> last.id == id;
      }
    }
  }

  /** A call whose stream closed has no stream any more. */
  lemma GoneFromTable(s: Session, signals: seq<Signal>, id: int)
    requires Agrees(s) && id in s.streams && ClosedIn(signals, id)
    ensures s.streams[id] !in Calls(HearAll(s, signals))
  {
    var r := HearAll(s, signals);
    StreamsGo(s, signals, id);
    forall j | j in r.streams
      ensures r.streams[j] != s.streams[id]
    {
      StreamsGo(s, signals, j);
    }
  }

  lemma OneTells(s: Session, signal: Signal, c: CallId)
    ensures c !in Calls(s) ==> ToldBy(s, signal, c) == [] && ToldByHooks(HookOf(s, signal), c) == []
    ensures !signal.StreamDelivers? ==> ToldBy(s, signal, c) == ToldByHooks(HookOf(s, signal), c)
    ensures signal.StreamDelivers? ==> C.Open(ToldBy(s, signal, c)) && ToldByHooks(HookOf(s, signal), c) == []
  {
    if signal.StreamClosed? && signal.id in s.streams {
      assert s.streams[signal.id] in Calls(s);
      assert HookOf(s, signal)[..0] == [];
    }
    if signal.StreamDelivers? && signal.id in s.streams { assert s.streams[signal.id] in Calls(s); }
  }

  lemma {:induction false} NoHookYet(hooks: seq<(CallId, nat)>, c: CallId)
    requires c !in Closed(hooks)
    ensures ToldByHooks(hooks, c) == []
    decreases |hooks|
  {
    if hooks != [] {
      var front, last := hooks[..|hooks| - 1], hooks[|hooks| - 1];
      assert hooks == front + [last];
      HookAdded(front, last);
      NoHookYet(front, c);
    }
  }

  // ------------------------------------------------------------ flushes and reads

  lemma RefillOnce(s: Session, script: seq<Production>)
    requires Agrees(s)
    ensures OncePerCall(RefillHooks(s, script))
  {
    hide Collect, CollectHooks, OncePerCall;
    var e := s.(out := [], consumed := 0);
    SameTable(s, e);
    CollectAgrees(e, script);
    NoHooksRan();
  }

  lemma ProducedStory(ch: Channel, productions: seq<Production>, c: CallId)
    requires Core(ch) && ch.phase.Ready?
    ensures ch.session.Some?
    ensures Story(ch, Produced(ch, productions), c, ToldByHooks(RefillHooks(ch.session.value, productions), c))
  {
    hide OnePlace, Timed, Coded, Refill, RefillHooks, AfterHooks, OncePerCall, Closed, ToldByHooks, Agrees, Calls;
    var s := ch.session.value;
    RefillFacts(s, productions);
    RefillOnce(s, productions);
    HooksStory(ch.(session := Some(Refill(s, productions))), RefillHooks(s, productions), c);
  }

  lemma TornDownStory(ch: Channel, m: Channel, d: Detail, c: CallId, told: seq<C.Event>)
    requires Story(ch, m, c, told) && Core(m) && m.phase.Ready? && (c in m.active ==> c in ch.active)
    ensures Story(ch, TearDown(m, d), c, told)
  {
    hide Core, Story, Moves;
    var r := TearDown(m, d);
    TearDownMoves(m, d);
    ResultsStay(m, r, {});
    ActiveHaveNoResult(m);
    QuietStory(m, r, c);
    StoryOn(ch, m, r, c, told, []);
    assert told + [] == told;
  }

  lemma SameStory(ch: Channel, m: Channel, next: Channel, c: CallId, told: seq<C.Event>)
    requires Story(ch, m, c, told) && next.results == m.results
    ensures Story(ch, next, c, told)
  {
  }

  /** The hooks a flush runs, unrolled once. */
  lemma FlushHooks(ch: Channel, script: seq<FlushTurn>, c: CallId)
    requires ch.phase.Ready? && ch.session.Some?
    ensures var s, turn := ch.session.value, Turn(script);
            var told := ToldByHooks(RefillHooks(s, turn.productions), c);
            ToldByFlush(ch, script, c) ==
            if Offered(s, turn.productions) == [] || !turn.write.Wrote? || script == [] then told
            else told + ToldByHooks(Farewell(Consume(Refill(s, turn.productions), turn.write.n), script[1..]), c)
  {
    hide RefillHooks, Refill, Offered, Consume, ToldByHooks;
    var s, turn := ch.session.value, Turn(script);
    if !(Offered(s, turn.productions) == [] || !turn.write.Wrote? || script == []) {
      ToldByBoth(RefillHooks(s, turn.productions),
          Farewell(Consume(Refill(s, turn.productions), turn.write.n), script[1..]), c);
    }
  }

  lemma {:induction false} FlushStory(ch: Channel, script: seq<FlushTurn>, c: CallId)
    requires Core(ch) && ch.phase.Ready?
    ensures Story(ch, Flush(ch, script), c, ToldByFlush(ch, script, c))
    decreases |script|
  {
    ReadyHasSession(ch);
    FlushHooks(ch, script, c);
    hide Core, Moves, Produced, Refill, RefillHooks, Consume, Offered, TearDown, Story, ToldByHooks, Farewell;
    var s, turn := ch.session.value, Turn(script);
    var after, told := Refill(s, turn.productions), ToldByHooks(RefillHooks(s, turn.productions), c);
    var m := Produced(ch, turn.productions);
    ProducedStory(ch, turn.productions, c);
    ProducedMoves(ch, turn.productions);
    CoreOf(ch, m);
    if Offered(s, turn.productions) == [] {
      if after.error != NoError { TornDownStory(ch, m, OfSession(after.error), c, told); }
    } else if turn.write.WriteError? {
      TornDownStory(ch, m, Own(SocketFailed(turn.write.text)), c, told);
    } else if turn.write.Wrote? && script != [] {
      var next := m.(session := Some(Consume(after, turn.write.n)));
      ConsumedMoves(m, turn.write.n);
      CoreOf(m, next);
      SameStory(ch, m, next, c, told);
      FlushStory(next, script[1..], c);
      StoryThroughFlush(ch, next, script[1..], c, told);
    }
  }

  lemma StoryThroughFlush(ch: Channel, m: Channel, script: seq<FlushTurn>, c: CallId, told: seq<C.Event>)
    requires Core(m) && m.phase.Ready? && (c in m.active ==> c in ch.active)
    requires Story(ch, m, c, told) && Story(m, Flush(m, script), c, ToldByFlush(m, script, c))
    ensures Story(ch, Flush(m, script), c, told + ToldByFlush(m, script, c))
  {
    hide Core, Moves, Story, Flush, ToldByFlush;
    FlushMoves(m, script);
    ResultsStay(m, Flush(m, script), {});
    ActiveHaveNoResult(m);
    StoryOn(ch, m, Flush(m, script), c, told, ToldByFlush(m, script, c));
  }

  lemma HeardStory(ch: Channel, e: ReadOutcome, c: CallId)
    requires Core(ch) && ch.phase.Ready? && e.ReadBytes?
    ensures ch.session.Some? && ch.session.value.live
    ensures var s := ch.session.value;
            Story(ch, Heard(ch, e), c, Told(if e.len > 0 then s.(lastRead := e.now) else s, e.signals, c))
  {
    hide OnePlace, Timed, Coded, HearAll, HooksRun, AfterHooks, OncePerCall, Closed, ToldByHooks, Told, Agrees, Calls;
    var s := ch.session.value;
    var read := if e.len > 0 then s.(lastRead := e.now) else s;
    SameTable(s, read);
    HooksAgree(read, e.signals);
    var hooks := HooksRun(read, e.signals);
    var heard := SignalsTell(read, e.signals, c);
    HooksStory(ch.(session := Some(Receive(s, e.now, e.len, e.signals, e.failure))), hooks, c);
    HeardFirst(ch, Heard(ch, e), c, heard, ToldByHooks(hooks, c));
  }

  lemma HeardFirst(ch: Channel, r: Channel, c: CallId, heard: seq<C.Event>, told: seq<C.Event>)
    requires Story(ch, r, c, told) && C.Open(heard)
    ensures Heeds(ch, r, c, heard + told)
  {
    if c !in ch.results && IsFinished(r, c) { EndedLate(heard, told, C.Close(r.results[c].http2Error)); }
  }

  /** What is told by the first read alone. */
  function ToldByRead(ch: Channel, e: ReadOutcome, c: CallId): (told: seq<C.Event>)
    requires ch.session.Some? && e.ReadBytes?
  {
    Told(if e.len > 0 then ch.session.value.(lastRead := e.now) else ch.session.value, e.signals, c)
  }

  lemma FirstRead(ch: Channel, e: ReadOutcome, c: CallId)
    requires Core(ch) && ch.phase.Ready? && e.ReadBytes?
    ensures ch.session.Some? && ch.session.value.live
    ensures var m := Heard(ch, e);
            Core(m) && m.phase.Ready? && m.active <= ch.active && Story(ch, m, c, ToldByRead(ch, e, c))
  {
    ReadyHasSession(ch);
    hide Core, Moves, Heard, Receive, Story, Told;
    HeardStory(ch, e, c);
    HeardMoves(ch, e);
    HeardActive(ch, e);
    CoreOf(ch, Heard(ch, e));
  }

  lemma {:induction false} ReadStory(ch: Channel, input: seq<ReadOutcome>, c: CallId)
    requires Core(ch) && ch.phase.Ready?
    ensures Story(ch, DrainSocket(ch, input), c, ToldByReads(ch, input, c))
    decreases |input|
  {
    ReadyHasSession(ch);
    hide Core, Heard, TearDown, Receive, Story, Told;
    SelfStory(ch, c);
    if input != [] && input[0].ReadBytes? {
      var e, m := input[0], Heard(ch, input[0]);
      var told := ToldByRead(ch, e, c);
      FirstRead(ch, e, c);
      if e.failure.Some? {
        assert told + [] == told;
        TornDownStory(ch, m, OfSession(Receive(ch.session.value, e.now, e.len, e.signals, e.failure).error), c, told);
      } else {
        ReadStory(m, input[1..], c);
        StoryThroughReads(ch, m, input[1..], c, told);
      }
    } else if input != [] {
      TornDownStory(ch, ch, Own(ClosedByServer), c, []);
      if input[0].ReadError? { TornDownStory(ch, ch, Own(SocketFailed(input[0].text)), c, []); }
    }
  }

  lemma SelfStory(ch: Channel, c: CallId)
    ensures Story(ch, ch, c, [])
  {
  }

  lemma HeardActive(ch: Channel, e: ReadOutcome)
    requires ch.session.Some? && e.ReadBytes?
    ensures Heard(ch, e).active <= ch.active
  {
    hide HooksRun, AfterHooks, Receive;
    var s := ch.session.value;
    var hooks := if s.live then HooksRun(if e.len > 0 then s.(lastRead := e.now) else s, e.signals) else [];
    HooksEffect(ch.(session := Some(Receive(s, e.now, e.len, e.signals, e.failure))), hooks);
  }

  lemma StoryThroughReads(ch: Channel, m: Channel, input: seq<ReadOutcome>, c: CallId, told: seq<C.Event>)
    requires Core(m) && m.phase.Ready? && (c in m.active ==> c in ch.active)
    requires Story(ch, m, c, told) && Story(m, DrainSocket(m, input), c, ToldByReads(m, input, c))
    ensures Story(ch, DrainSocket(m, input), c, told + ToldByReads(m, input, c))
  {
    hide Core, Moves, Story, DrainSocket, ToldByReads;
    DrainMoves(m, input);
    ResultsStay(m, DrainSocket(m, input), {});
    ActiveHaveNoResult(m);
    StoryOn(ch, m, DrainSocket(m, input), c, told, ToldByReads(m, input, c));
  }

  /** All signals that arrive with a list of reads, up to the read that fails or brings nothing. */
  function SignalsOf(input: seq<ReadOutcome>): (signals: seq<Signal>)
    decreases |input|
  {
    if input == [] || !input[0].ReadBytes? then []
    else input[0].signals + if input[0].failure.Some? then [] else SignalsOf(input[1..])
  }

  lemma {:induction false} ToldInTwo(s: Session, a: seq<Signal>, b: seq<Signal>, c: CallId)
    ensures HearAll(s, a + b) == HearAll(HearAll(s, a), b)
    ensures Told(s, a + b, c) == Told(s, a, c) + Told(HearAll(s, a), b, c)
    decreases |b|
  {
    if b == [] {
      assert a + b == a;
    } else {
      assert (a + b)[..|a + b| - 1] == a + b[..|b| - 1];
      ToldInTwo(s, a, b[..|b| - 1], c);
    }
  }

  /** What is told depends on the table only. */
  lemma {:induction false} ToldByTable(s: Session, t: Session, signals: seq<Signal>, c: CallId)
    requires s.streams == t.streams
    ensures HearAll(s, signals).streams == HearAll(t, signals).streams
    ensures Told(s, signals, c) == Told(t, signals, c)
    decreases |signals|
  {
    hide Hear, ToldBy;
    if signals != [] {
      var front := signals[..|signals| - 1];
      ToldByTable(s, t, front, c);
      OneByTable(HearAll(s, front), HearAll(t, front), signals[|signals| - 1], c);
    }
  }

  lemma OneByTable(s: Session, t: Session, signal: Signal, c: CallId)
    requires s.streams == t.streams
    ensures Hear(s, signal).streams == Hear(t, signal).streams && ToldBy(s, signal, c) == ToldBy(t, signal, c)
  {
    match signal
    case PingAck =>
    case GoAway(_) =>
    case StreamDelivers(_, _) =>
    case StreamClosed(_, _) =>
  }

  lemma {:induction false} ReadsTold(ch: Channel, input: seq<ReadOutcome>, c: CallId)
    requires Core(ch) && ch.phase.Ready? && ch.session.Some?
    ensures ToldByReads(ch, input, c) == Told(ch.session.value, SignalsOf(input), c)
    decreases |input|
  {
    ReadyHasSession(ch);
    hide Core, Moves, Heard, Told, HearAll;
    if input != [] && input[0].ReadBytes? {
      var s, e := ch.session.value, input[0];
      var read, m := if e.len > 0 then s.(lastRead := e.now) else s, Heard(ch, e);
      var rest := if e.failure.Some? then [] else SignalsOf(input[1..]);
      HeardMoves(ch, e);
      CoreOf(ch, m);
      ToldByTable(s, read, e.signals, c);
      ToldInTwo(s, e.signals, rest, c);
      NoSignals(HearAll(s, e.signals), c);
      if e.failure.None? {
        ReadsTold(m, input[1..], c);
        ToldByTable(m.session.value, HearAll(s, e.signals), rest, c);
      }
    } else {
      NoSignals(ch.session.value, c);
    }
  }

  lemma NoSignals(s: Session, c: CallId)
    ensures Told(s, [], c) == []
  {
  }

  /**
   What reading tells a call: the signals about its stream, from all reads together,
   in order, until the stream closes.
   */
  lemma ReadsTell(ch: Channel, input: seq<ReadOutcome>, id: int)
    requires Core(ch) && ch.phase.Ready? && ch.session.Some? && id in ch.session.value.streams
    ensures ToldByReads(ch, input, ch.session.value.streams[id]) == OnStream(SignalsOf(input), id)
  {
    LinkFacts(ch, 0);
    hide Core, Told, ToldByReads, SignalsOf, OnStream;
    ReadsTold(ch, input, ch.session.value.streams[id]);
    ToldIsStream(ch.session.value, SignalsOf(input), id);
  }

  // ------------------------------------------------------------ events

  lemma Heeded(ch: Channel, r: Channel, c: CallId, told: seq<C.Event>)
    requires Story(ch, r, c, told)
    ensures Heeds(ch, r, c, told)
  {
  }

  /** Steps before a flush that give the call no result but a local failure. */
  lemma HeedsAside(ch: Channel, m: Channel, r: Channel, c: CallId, told: seq<C.Event>)
    requires Story(m, r, c, told) && Grows(m.results, r.results) && m.active !! m.results.Keys
    requires c in m.results && c !in ch.results ==> m.results[c].FailedLocally?
    ensures Heeds(ch, r, c, told)
  {
  }

  lemma NewCallHeeds(o: Config, ch: Channel, e: Event, c: CallId)
    requires Core(ch) && e.NewCall? && e.call !in Known(ch) && FreshId(ch, e.id)
    ensures Heeds(ch, HandleNewCall(o, ch, e), c, ToldByEvent(o, ch, e, c))
  {
    var m := SubmitCall(ch, e.call, e.id);
    if ch.phase.Ready? {
      ReadyHasSession(ch);
      assert c in m.results && c !in ch.results ==> m.results[c].FailedLocally?;
      hide Core, Moves, Flush, Story, Heeds, SubmitCall, ToldByFlush;
      SubmitMoves(ch, e.call, e.id);
      CoreOf(ch, m);
      FlushMoves(m, e.flush);
      ResultsStay(m, Flush(m, e.flush), {});
      FlushStory(m, e.flush, c);
      ActiveHaveNoResult(m);
      HeedsAside(ch, m, Flush(m, e.flush), c, ToldByFlush(m, e.flush, c));
    } else {
      assert m.phase == ch.phase;
      NothingFinishes(o, ch, e, c);
    }
  }

  lemma NothingFinishes(o: Config, ch: Channel, e: Event, c: CallId)
    requires e.NewCall? && !ch.phase.Ready?
    ensures Heeds(ch, HandleNewCall(o, ch, e), c, [])
  {
  }

  lemma TrafficHeeds(o: Config, ch: Channel, e: Event, c: CallId)
    requires Core(ch) && ch.phase.Ready? && e.Traffic?
    ensures Heeds(ch, OnSocketReady(o, ch, e), c, ToldByEvent(o, ch, e, c))
  {
    hide Core, Moves, DrainSocket, Flush, Rearm, Story, Heeds, ToldByReads, ToldByFlush;
    var m := if e.readable then DrainSocket(ch, e.input) else ch;
    var told := if e.readable then ToldByReads(ch, e.input, c) else [];
    SelfStory(ch, c);
    if e.readable { DrainMoves(ch, e.input); ReadStory(ch, e.input, c); } else { Stays(ch); }
    CoreOf(ch, m);
    assert [] + ToldByFlush(ch, e.flush, c) == ToldByFlush(ch, e.flush, c);
    if m.phase.Ready? {
      if e.readable { DrainActive(ch, e.input); }
      FlushStory(m, e.flush, c);
      StoryThroughFlush(ch, m, e.flush, c, told);
      RearmedStory(o, ch, Flush(m, e.flush), e.skew, c, told + ToldByFlush(m, e.flush, c));
    } else {
      NoFlushNoWord(m, e.flush, c);
      assert told + [] == told;
      Heeded(ch, m, c, told);
    }
  }

  lemma {:induction false} DrainActive(ch: Channel, input: seq<ReadOutcome>)
    requires Core(ch) && ch.phase.Ready?
    ensures DrainSocket(ch, input).phase.Ready? ==> DrainSocket(ch, input).active <= ch.active
    decreases |input|
  {
    ReadyHasSession(ch);
    hide Core, Moves, Heard, TearDown, Receive;
    if input != [] && input[0].ReadBytes? {
      var m := Heard(ch, input[0]);
      ReadKeepsCore(ch, input[0]);
      var e := input[0];
      TornDownIsOver(m, OfSession(Receive(ch.session.value, e.now, e.len, e.signals, e.failure).error));
      DrainActive(m, input[1..]);
    } else if input != [] {
      TornDownIsOver(ch, Own(ClosedByServer));
      if input[0].ReadError? { TornDownIsOver(ch, Own(SocketFailed(input[0].text))); }
    }
  }

  lemma ReadKeepsCore(ch: Channel, e: ReadOutcome)
    requires Core(ch) && ch.phase.Ready? && ch.session.Some? && e.ReadBytes?
    ensures var m := Heard(ch, e); Core(m) && m.phase.Ready? && m.active <= ch.active
  {
    hide Core, Moves, Heard, Receive;
    HeardMoves(ch, e);
    HeardActive(ch, e);
    CoreOf(ch, Heard(ch, e));
  }

  lemma NoFlushNoWord(ch: Channel, flush: seq<FlushTurn>, c: CallId)
    requires !ch.phase.Ready?
    ensures ToldByFlush(ch, flush, c) == []
  {
  }

  lemma RearmedStory(o: Config, ch: Channel, m: Channel, skew: nat, c: CallId, told: seq<C.Event>)
    requires Story(ch, m, c, told)
    ensures Heeds(ch, Rearm(o, m, skew), c, told) && Heeds(ch, m, c, told)
  {
  }

  lemma KeepaliveHeeds(o: Config, ch: Channel, e: Event, c: CallId)
    requires Core(ch) && ch.phase.Ready? && e.TimerFires?
    ensures Heeds(ch, OnKeepalive(o, ch, e), c, ToldByEvent(o, ch, e, c))
  {
    KeepaliveSteps(o, ch, e);
    hide Core, Moves, Flush, Rearm, TearDown, Check, OnKeepalive, Story, ToldByFlush;
    var m := Evaluated(o, ch, e);
    if Check(o.keepalive, ch.session.value, e.now, e.refusal).1.Dead? {
      SelfStory(m, c);
      TornDownStory(m, m, Own(KeepaliveTimedOut), c, []);
      Heeded(m, OnKeepalive(o, ch, e), c, []);
    } else {
      FlushStory(m, e.flush, c);
      RearmedStory(o, m, Flush(m, e.flush), e.skew, c, ToldByFlush(m, e.flush, c));
    }
  }

  lemma TimerHeeds(o: Config, ch: Channel, e: Event, c: CallId, maxSkew: nat)
    requires Inv(o, ch, maxSkew) && e.TimerFires? && Enabled(ch, e, maxSkew)
    ensures Heeds(ch, OnTimer(o, ch, e), c, ToldByEvent(o, ch, e, c))
  {
    TimerTaken(ch, e.timer);
    if e.timer == ch.keepaliveTimer && ch.timers.pending[e.timer].callback == KeepaliveCheck {
      TimerMeansReady(o, ch, e.timer, maxSkew);
      ReadyHasLiveSession(o, ch, maxSkew);
      hide Inv, Core, Moves, OnKeepalive, Check, Heeds, ToldByFlush;
      var f := ch.(timers := Removed(ch.timers, e.timer), keepaliveTimer := 0);
      CoreOf(ch, f);
      KeepaliveHeeds(o, f, e, c);
      SameWords(o, ch, f, e, c);
      HeedsFrom(ch, f, OnKeepalive(o, f, e), c, ToldByEvent(o, ch, e, c));
    } else {
      ConnectingHasNoSession(o, ch, e, maxSkew);
    }
  }

  lemma SameWords(o: Config, ch: Channel, f: Channel, e: Event, c: CallId)
    requires e.TimerFires? && f.session == ch.session && f.phase == ch.phase
    ensures ToldByEvent(o, f, e, c) == ToldByEvent(o, ch, e, c)
  {
    hide Check, Farewell, ToldByHooks;
  }

  lemma HeedsFrom(ch: Channel, f: Channel, r: Channel, c: CallId, told: seq<C.Event>)
    requires Heeds(f, r, c, told) && f.results == ch.results
    ensures Heeds(ch, r, c, told)
  {
  }

  lemma ConnectingHasNoSession(o: Config, ch: Channel, e: Event, maxSkew: nat)
    requires Inv(o, ch, maxSkew) && e.TimerFires? && e.timer in ch.timers.pending
    requires ch.timers.pending[e.timer].callback == ConnectTimeout && e.timer == ch.connectTimer
    ensures ch.session.None?
  {
  }

  lemma ConnectHeeds(o: Config, ch: Channel, e: Event, c: CallId, maxSkew: nat)
    requires Inv(o, ch, maxSkew) && e.Connect? && Enabled(ch, e, maxSkew)
    ensures Heeds(ch, OnConnectProgress(o, ch, e), c, ToldByEvent(o, ch, e, c))
  {
    WatchMeansConnecting(o, ch, maxSkew);
    ConnectTimerOff(ch);
    var m := ch.(timers := Cancelled(ch.timers, ch.connectTimer), connectTimer := 0);
    CoreOf(ch, m);
    hide Inv, Core, Moves, Heeds, Flush, Rearm, SubmitAll, ToldByFlush;
    NoFlushNoWord(ch, e.flush, c);
    SelfStory(ch, c);
    Heeded(ch, ch, c, []);
    if e.outcome.Connected? && e.setupFailure.None? {
      SessionUpHeeds(o, m, e, c);
      HeedsFrom(ch, m, SessionUp(o, m, e), c, ToldByFlush(BeforeFlush(o, ch, e), e.flush, c));
    } else if !e.outcome.InProgress? {
      var d := if e.outcome.ConnectError? then Own(SocketFailed(e.outcome.text))
               else OfSession(Library(e.setupFailure.value));
      TearDownQuiet(ch, m, d, c);
    }
  }

  lemma TearDownQuiet(ch: Channel, m: Channel, d: Detail, c: CallId)
    requires m.results == ch.results
    ensures Heeds(ch, TearDown(m, d), c, [])
  {
  }

  lemma SessionUpHeeds(o: Config, ch: Channel, e: Event, c: CallId)
    requires Core(ch) && ch.phase.Connecting? && e.Connect? && DistinctIds(e.ids)
    ensures var x := ch.(session := Some(SessionModel.Init(e.now)), watch := WatchSession, phase := Ready);
            var up := Rearm(o, Flush(x, e.preface), e.skew);
            var m := SubmitAll(up.(pending := []), up.pending, e.ids);
            Heeds(ch, SessionUp(o, ch, e), c, ToldByFlush(m, e.flush, c))
  {
    hide Core, Moves, Flush, Rearm, SubmitAll, Story, Heeds, ToldByFlush;
    var x := ch.(session := Some(SessionModel.Init(e.now)), watch := WatchSession, phase := Ready);
    assert x.active == {} by { IdleFacts(ch); }
    BringUp(ch, e.now);
    CoreOf(ch, x);
    var y := Flush(x, e.preface);
    FlushMoves(x, e.preface);
    CoreOf(x, y);
    FlushStory(x, e.preface, c);
    PrefaceQuiet(x, y, c, ToldByFlush(x, e.preface, c));
    ResultsStay(x, y, {});
    var up := Rearm(o, y, e.skew);
    RearmMoves(o, y, e.skew, e.skew);
    CoreOf(y, up);
    if up.phase.Ready? {
      QueueHeeds(ch, up, e, c);
    } else {
      OverFacts(up);
      assert up.(pending := []) == up;
      NothingToSubmit(up, e.ids);
      NoFlushNoWord(up, e.flush, c);
      QuietStory(ch, up, c);
      Heeded(ch, up, c, []);
    }
  }

  /** The preface goes out before any stream exists, so nobody finishes. */
  lemma PrefaceQuiet(x: Channel, y: Channel, c: CallId, told: seq<C.Event>)
    requires Story(x, y, c, told) && x.active == {}
    ensures c in y.results && c !in x.results ==> y.results[c].FailedLocally?
  {
  }

  lemma QueueHeeds(ch: Channel, up: Channel, e: Event, c: CallId)
    requires Core(up) && up.phase.Ready? && up.active == {} && e.Connect? && DistinctIds(e.ids)
    requires c in up.results && c !in ch.results ==> up.results[c].FailedLocally?
    ensures var m := SubmitAll(up.(pending := []), up.pending, e.ids);
            Heeds(ch, if m.phase == Ready then Flush(m, e.flush) else m, c, ToldByFlush(m, e.flush, c))
  {
    hide Core, Moves, Flush, SubmitAll, Story, Heeds, ToldByFlush;
    NoStreams(up);
    Unqueue(up);
    var z := up.(pending := []);
    var m := SubmitAll(z, up.pending, e.ids);
    SubmitAllMoves(z, up.pending, e.ids);
    SubmitFinishesNone(z, up.pending, e.ids, c);
    CoreOf(z, m);
    FlushMoves(m, e.flush);
    ResultsStay(m, Flush(m, e.flush), {});
    ActiveHaveNoResult(m);
    FlushStory(m, e.flush, c);
    HeedsAside(ch, m, Flush(m, e.flush), c, ToldByFlush(m, e.flush, c));
  }

  lemma {:induction false} SubmitFinishesNone(ch: Channel, cs: seq<CallId>, ids: seq<int>, c: CallId)
    ensures var r := SubmitAll(ch, cs, ids);
            (c in ch.results ==> c in r.results && r.results[c] == ch.results[c])
            && (c in r.results && c !in ch.results ==> r.results[c].FailedLocally?)
    decreases |cs|
  {
    if cs != [] { SubmitFinishesNone(ch, cs[..|cs| - 1], ids, c); }
  }

  /** One event that is not a shutdown. */
  lemma EventHeeds(o: Config, ch: Channel, e: Event, c: CallId, maxSkew: nat)
    requires Inv(o, ch, maxSkew) && Enabled(ch, e, maxSkew) && !e.ShutdownOp?
    ensures Heeds(ch, Handle(o, ch, e), c, ToldByEvent(o, ch, e, c))
  {
    CoreOfInv(o, ch, maxSkew);
    hide Inv, Core, Heeds, HandleNewCall, OnConnectProgress, OnSocketReady, OnTimer, ToldByEvent;
    match e
    case NewCall(_, _, _, _, _) => NewCallHeeds(o, ch, e, c);
    case Connect(_, _, _, _, _, _, _) => ConnectHeeds(o, ch, e, c, maxSkew);
    case Traffic(_, _, _, _) =>
      SocketMeansReady(o, ch, maxSkew);
      TrafficHeeds(o, ch, e, c);
    case TimerFires(_, _, _, _, _) => TimerHeeds(o, ch, e, c, maxSkew);
  }

  /** At shutdown a call is failed first; the farewell flush has nothing to say to a call without a stream. */
  lemma ShutdownTells(o: Config, ch: Channel, e: Event, c: CallId, maxSkew: nat)
    requires Inv(o, ch, maxSkew) && e.ShutdownOp? && c !in ch.results
    ensures var r := DoShutdown(ch, e);
            && (c in r.results ==> r.results[c].FailedLocally?)
            && (c !in r.results ==> ToldByEvent(o, ch, e, c) == [])
  {
    ShutdownKeeps(o, ch, e, maxSkew);
    CoreOfInv(o, ch, maxSkew);
    hide Inv, Core, Moves, DoShutdown, Farewell, Closed;
    FarewellIsLate(ch, e.flush);
    ShutdownQuiet(o, ch, maxSkew);
    if ch.phase.Ready? && ch.session.Some? && c !in ch.active {
      NoHookYet(Farewell(Terminate(ch.session.value), e.flush), c);
    }
  }

  lemma ShutdownQuiet(o: Config, ch: Channel, maxSkew: nat)
    requires Inv(o, ch, maxSkew)
    ensures ch.phase.ShutDown? ==> ch.session.None?
  {
  }

  // ------------------------------------------------------------ every run

  /** One event: a call that had no result ends with exactly what the channel recorded, or not at all. */
  lemma EventTells(o: Config, ch: Channel, e: Event, c: CallId, lost: string, maxSkew: nat)
    requires Inv(o, ch, maxSkew) && Enabled(ch, e, maxSkew) && c !in ch.results
    requires e.TimerFires? ==> e.timer in ch.timers.pending
    ensures var r := Handle(o, ch, e);
            var heard, failed := ToldByEvent(o, ch, e, c), FailedNow(ch, r, c, lost);
            var told := if e.ShutdownOp? then failed + heard else heard + failed;
            && (c in r.results ==> EndedBy(told, EndOfCall(r.results[c], lost)))
            && (c !in r.results ==> C.Open(told))
  {
    var r := Handle(o, ch, e);
    var heard, failed := ToldByEvent(o, ch, e, c), FailedNow(ch, r, c, lost);
    if e.ShutdownOp? {
      ShutdownTells(o, ch, e, c, maxSkew);
    } else {
      EventHeeds(o, ch, e, c, maxSkew);
    }
    hide Inv, Enabled, Handle, ToldByEvent, Words;
    assert heard + [] == heard;
    if c in r.results && r.results[c].FailedLocally? {
      OnlyEnd(EndOfCall(r.results[c], lost));
      if e.ShutdownOp? {
        EndedEarly(failed, heard, EndOfCall(r.results[c], lost));
      } else {
        EndedLate(heard, failed, EndOfCall(r.results[c], lost));
      }
    }
  }

  lemma OnlyEnd(e: C.Event)
    ensures EndedBy([e], e)
  {
    assert [e][0] == e && C.Open([e][..0]);
  }

  /** In every run a call object's log ends it exactly when, and as, the channel has a result for it. */
  lemma {:induction false} LogTells(o: Config, events: seq<Event>, c: CallId, lost: string, maxSkew: nat)
    requires ChannelRuns.Lawful(o, events, maxSkew)
    ensures var ch, log := ChannelRuns.Run(o, events), Log(o, events, c, lost);
            && (c in ch.results ==> EndedBy(log, EndOfCall(ch.results[c], lost)))
            && (c !in ch.results ==> C.Open(log))
    decreases |events|
  {
    hide Possible, Handle, ToldByEvent, FailedNow, EndOfCall, EndedBy, C.Open, Enabled;
    if events == [] {
      NothingLogged();
    } else {
      var front, e := events[..|events| - 1], events[|events| - 1];
      PossibleFront(o, START, events, maxSkew);
      LogTells(o, front, c, lost, maxSkew);
      EveryRun(o, front, maxSkew);
      var ch := ChannelRuns.Run(o, front);
      TimerIsThere(ch, e, maxSkew);
      HandleKeeps(o, ch, e, maxSkew);
      hide Inv;
      var r := Handle(o, ch, e);
      var heard, failed := ToldByEvent(o, ch, e, c), FailedNow(ch, r, c, lost);
      var told := if e.ShutdownOp? then failed + heard else heard + failed;
      LogOn(Log(o, front, c, lost), told, ch, r, c, lost, CallsOf(e));
      if c !in ch.results { EventTells(o, ch, e, c, lost, maxSkew); }
    }
  }

  lemma NothingLogged()
    ensures C.Open([])
  {
  }

  lemma LogOn(log: seq<C.Event>, told: seq<C.Event>, ch: Channel, r: Channel, c: CallId, lost: string, x: set<CallId>)
    requires Moves(ch, r, x)
    requires c in ch.results ==> EndedBy(log, EndOfCall(ch.results[c], lost))
    requires c !in ch.results ==> C.Open(log)
    ensures c in ch.results ==> c in r.results && EndedBy(log + told, EndOfCall(r.results[c], lost))
    ensures c !in ch.results && c in r.results && EndedBy(told, EndOfCall(r.results[c], lost)) ==>
              EndedBy(log + told, EndOfCall(r.results[c], lost))
    ensures c !in ch.results && C.Open(told) ==> C.Open(log + told)
  {
    hide Core, EndOfCall, EndedBy;
    if c in ch.results {
      EndedEarly(log, told, EndOfCall(ch.results[c], lost));
    } else if c in r.results && EndedBy(told, EndOfCall(r.results[c], lost)) {
      EndedLate(log, told, EndOfCall(r.results[c], lost));
    }
  }

  /** What the result a channel recorded means for the caller, given what the call heard before it. */
  function Returned(max: nat, how: Completion, heard: seq<C.Event>, lost: string): (result: C.Result) {
    match how
    case Finished(code) => C.Final(max, C.CapturedBy(C.HeaderEvents(heard)), C.DataOf(heard), code)
    case FailedLocally(code, text) =>
      C.Result(code, C.Local(Words(text, lost)), [], C.CapturedBy(heard).initial, C.CapturedBy(heard).trailing)
  }

  lemma FirstEndDecides(max: nat, heard: seq<C.Event>, how: Completion, rest: seq<C.Event>, lost: string)
    requires C.Open(heard)
    ensures C.Outcome(max, heard + [EndOfCall(how, lost)] + rest) == Some(Returned(max, how, heard, lost))
  {
    hide C.Final, C.CapturedBy, C.DataOf, Words;
    var e := EndOfCall(how, lost);
    var all := heard + [e];
    assert all[..|all| - 1] == heard;
    C.OpenHasNoOutcome(max, heard);
    C.CapturedByHeaders(heard);
    C.OutcomeIsFinal(max, all, rest);
  }

  /**
   What UnaryCall returns, in every run and for every call. The call object, told its
   log, has a result exactly when the channel has one for it. If its stream closed,
   that is the final-status rule applied to the header blocks, the DATA and the close
   code its stream delivered; if the channel failed it, that failure, with the
   metadata heard so far.
   */
  lemma UnaryCallReturns(o: Config, events: seq<Event>, c: CallId, max: nat, lost: string, maxSkew: nat)
    returns (heard: seq<C.Event>)
    requires ChannelRuns.Lawful(o, events, maxSkew)
    ensures C.Open(heard) && heard <= Log(o, events, c, lost)
    ensures var ch, log := ChannelRuns.Run(o, events), Log(o, events, c, lost);
            if c in ch.results
            then heard + [EndOfCall(ch.results[c], lost)] <= log
                 && C.Outcome(max, log) == Some(Returned(max, ch.results[c], heard, lost))
            else C.Outcome(max, log).None?
  {
    LogTells(o, events, c, lost, maxSkew);
    var ch, log := ChannelRuns.Run(o, events), Log(o, events, c, lost);
    hide C.Outcome, Returned, ChannelRuns.Lawful, EndOfCall, Log, ChannelRuns.Run, EndedBy;
    heard := [];
    if c in ch.results {
      var rest;
      heard, rest := CutAtEnd(log, EndOfCall(ch.results[c], lost));
      FirstEndDecides(max, heard, ch.results[c], rest, lost);
    } else {
      C.OpenHasNoOutcome(max, log);
    }
  }

  lemma CutAtEnd(log: seq<C.Event>, e: C.Event) returns (heard: seq<C.Event>, rest: seq<C.Event>)
    requires EndedBy(log, e)
    ensures C.Open(heard) && log == heard + [e] + rest && heard + [e] <= log
  {
    var k :| 0 <= k < |log| && log[k] == e && C.Open(log[..k]);
    heard, rest := log[..k], log[k + 1..];
  }

  /**
   And it returns OK exactly when its stream closed, the last grpc-status it heard is
   zero, and the DATA is one frame within the limit; the response is that frame's payload.
   */
  lemma UnaryCallIsOk(o: Config, events: seq<Event>, c: CallId, max: nat, lost: string, maxSkew: nat)
    returns (heard: seq<C.Event>)
    requires ChannelRuns.Lawful(o, events, maxSkew)
    ensures C.Open(heard) && heard <= Log(o, events, c, lost)
    ensures var ch := ChannelRuns.Run(o, events);
            c in ch.results ==> heard + [EndOfCall(ch.results[c], lost)] <= Log(o, events, c, lost)
    ensures var ch, result := ChannelRuns.Run(o, events), C.Outcome(max, Log(o, events, c, lost));
            var status := C.HeardInTrailers(heard, C.STATUS);
            && (result.Some? && result.value.code == Status.Ok <==>
                  && c in ch.results && ch.results[c].Finished?
                  && status.Some? && 1 <= |status.value| <= 10 && Status.AllZeros(status.value)
                  && C.IsOneFrame(C.DataOf(heard), max))
            && (result.Some? && result.value.code == Status.Ok ==>
                  C.OneFrame(C.DataOf(heard), result.value.response, max))
  {
    heard := UnaryCallReturns(o, events, c, max, lost, maxSkew);
    EveryRun(o, events, maxSkew);
    var ch := ChannelRuns.Run(o, events);
    FailedIsNotOk(o, ch, c, maxSkew);
    hide *;
    if c in ch.results { ReturnedIsOk(max, ch.results[c], heard, lost); }
  }

  lemma ReturnedIsOk(max: nat, how: Completion, heard: seq<C.Event>, lost: string)
    requires how.FailedLocally? ==> how.code != Status.Ok
    ensures var result := Returned(max, how, heard, lost);
            var status := C.HeardInTrailers(heard, C.STATUS);
            && (result.code == Status.Ok <==>
                  && how.Finished? && status.Some? && 1 <= |status.value| <= 10 && Status.AllZeros(status.value)
                  && C.IsOneFrame(C.DataOf(heard), max))
            && (result.code == Status.Ok ==> C.OneFrame(C.DataOf(heard), result.response, max))
  {
    hide C.Final, C.CapturedBy, C.DataOf, C.HeaderEvents, C.OneFrame, C.IsOneFrame, C.HeardInTrailers, Status.StatusOf,
      Words;
    C.CapturedByHeaders(heard);
    C.CapturedMeans(heard);
    var captured := C.CapturedBy(C.HeaderEvents(heard));
    if captured.status.Some? { Status.OkStatusText(captured.status.value); }
    if how.Finished? { C.OkExactly(max, captured, C.DataOf(heard), how.http2Error); }
  }

  lemma FailedIsNotOk(o: Config, ch: Channel, c: CallId, maxSkew: nat)
    requires Inv(o, ch, maxSkew)
    ensures c in ch.results && ch.results[c].FailedLocally? ==> ch.results[c].code != Status.Ok
  {
    hide OnePlace, Timed, Linked, Armed;
  }
}
