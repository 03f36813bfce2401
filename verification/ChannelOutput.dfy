/**
 What a flush does, said without session and buffer: the bytes waiting, what the
 library makes when nothing waits, and what the socket does with the bytes offered.
 */
module ChannelOutput {
  import opened Octets
  import opened SessionModel
  import opened ChannelModel

  /** How a flush ends: nothing left to send, the socket would block, or something broke, and why. */
  datatype Ending = Drained | Blocked | Broken(cause: Reason)

  /** What went to the socket, what the library made for it, and what is still waiting. */
  datatype Outflow = Outflow(end: Ending, wire: seq<byte>, made: seq<byte>, waiting: seq<byte>)

  /** The text of the first error among the library's answers. */
  function FirstError(script: seq<Production>): (text: Option<string>)
    decreases |script|
  {
    if script == [] then None
    else if script[0].SendError? then Some(script[0].text)
    else FirstError(script[1..])
  }

  /** The flush loop on plain bytes. */
  function Pump(waiting: seq<byte>, script: seq<FlushTurn>): (p: Outflow)
    decreases |script|
  {
    var turn := Turn(script);
    var made := if waiting == [] then ChunksOf(turn.productions) else [];
    var view := waiting + made;
    if waiting == [] && FirstError(turn.productions).Some?
    then Outflow(Broken(SessionFailed(Library(FirstError(turn.productions).value))), [], made, view)
    else if view == [] then Outflow(Drained, [], made, view)
    else if turn.write.WriteError? then Outflow(Broken(SocketFailed(turn.write.text)), [], made, view)
    else if turn.write.WriteBlocked? || script == [] then Outflow(Blocked, [], made, view)
    else
      var k := Taken(view, turn.write.n);
      var p := Pump(view[k..], script[1..]);
      Outflow(p.end, view[..k] + p.wire, made + p.made, p.waiting)
  }

  /** Whatever was waiting and whatever the library made went to the socket or is waiting now, in order. */
  lemma {:induction false} PumpIsTight(waiting: seq<byte>, script: seq<FlushTurn>)
    ensures var p := Pump(waiting, script);
            waiting + p.made == p.wire + p.waiting && (p.end.Drained? ==> p.waiting == [])
    decreases |script|
  {
    var turn, p := Turn(script), Pump(waiting, script);
    var made := if waiting == [] then ChunksOf(turn.productions) else [];
    var view := waiting + made;
    assert [] + view == view;
    if !(waiting == [] && FirstError(turn.productions).Some?) && view != [] && turn.write.Wrote? && script != [] {
      var k := Taken(view, turn.write.n);
      var q := Pump(view[k..], script[1..]);
      PumpIsTight(view[k..], script[1..]);
      assert view == view[..k] + view[k..];
      Assoc(view[..k], view[k..], q.made);
      Assoc(view[..k], q.wire, q.waiting);
      Assoc(waiting, made, q.made);
    }
  }

  // ------------------------------------------------------------ the session's part

  lemma {:induction false} ErrorsAreFound(script: seq<Production>)
    ensures FirstError(script).Some? <==> Fails(script)
    decreases |script|
  {
    if script != [] {
      ErrorsAreFound(script[1..]);
      assert forall k :: 0 <= k < |script[1..]| ==> script[1..][k] == script[k + 1];
      if Fails(script) && !script[0].SendError? {
        var i :| 0 <= i < |script| && script[i].SendError?;
        assert script[1..][i - 1].SendError?;
      }
    }
  }

  lemma {:induction false} CollectError(s: Session, script: seq<Production>)
    ensures Collect(s, script).error ==
            if FirstError(script).Some? then Library(FirstError(script).value) else s.error
    decreases |script|
  {
    hide HearAll;
    if script != [] && script[0].Chunk? {
      SignalsTouch(s, script[0].signals);
      CollectError(HearAll(s, script[0].signals).(out := s.out + script[0].bytes), script[1..]);
    }
  }

  /** The first thing that went wrong while the library was asked, if it was asked, is on record. */
  lemma RefillError(s: Session, script: seq<Production>)
    requires s.live
    ensures Refill(s, script).error ==
            if Unsent(s) == [] && FirstError(script).Some? then Library(FirstError(script).value) else s.error
  {
    hide Collect;
    RefillOffers(s, script);
    CollectError(s.(out := [], consumed := 0), script);
  }

  /** PendingOutput hands out what waits, or else what the library makes, or nothing if it fails. */
  lemma ViewIs(s: Session, script: seq<Production>)
    requires s.live
    ensures var made := if Unsent(s) == [] then ChunksOf(script) else [];
            && Unsent(Refill(s, script)) == Unsent(s) + made
            && Offered(s, script) ==
               if Unsent(s) == [] && FirstError(script).Some? then [] else Unsent(s) + made
  {
    hide Refill, Unsent, Fails, NeedsRefill, ChunksOf, Offered;
    RefillOffers(s, script);
    ErrorsAreFound(script);
    assert [] + ChunksOf(script) == ChunksOf(script) && Unsent(s) + [] == Unsent(s);
  }

  /** A turn after which the loop goes on: the rest of the flush is the flush of the rest. */
  lemma PumpGoesOn(s: Session, script: seq<FlushTurn>)
    requires s.live && script != [] && script[0].write.Wrote? && Offered(s, script[0].productions) != []
    ensures var view, n := Offered(s, script[0].productions), script[0].write.n;
            var next := Consume(Refill(s, script[0].productions), n);
            var p, q := Pump(Unsent(s), script), Pump(Unsent(next), script[1..]);
            && next.live && Unsent(next) == view[Taken(view, n)..]
            && p.wire == view[..Taken(view, n)] + q.wire && p.end == q.end && p.waiting == q.waiting
  {
    hide Refill, Unsent, ChunksOf, Offered, Consume, FirstError;
    var turn := script[0];
    ViewIs(s, turn.productions);
    ConsumeLeaves(Refill(s, turn.productions), turn.write.n);
    RefillLive(s, turn.productions);
    ConsumeLive(Refill(s, turn.productions), turn.write.n);
  }

  /** A turn with which the loop ends. */
  lemma PumpStops(s: Session, script: seq<FlushTurn>)
    requires s.live
    requires Offered(s, Turn(script).productions) == [] || !Turn(script).write.Wrote? || script == []
    ensures var p, turn := Pump(Unsent(s), script), Turn(script);
            && p.wire == [] && p.waiting == Unsent(Refill(s, turn.productions))
            && (p.end.Drained? <==>
                  Offered(s, turn.productions) == [] && !(Unsent(s) == [] && FirstError(turn.productions).Some?))
            && (p.end.Blocked? <==> Offered(s, turn.productions) != [] && !turn.write.WriteError?)
            && (Unsent(s) == [] && FirstError(turn.productions).Some? ==>
                  p.end == Broken(SessionFailed(Library(FirstError(turn.productions).value))))
            && (Offered(s, turn.productions) != [] && turn.write.WriteError? ==>
                  p.end == Broken(SocketFailed(turn.write.text)))
  {
    hide Refill, Unsent, ChunksOf, Offered, FirstError;
    ViewIs(s, Turn(script).productions);
  }

  // ------------------------------------------------------------ what an event sends

  /** The bytes a flush of the channel hands to the socket. */
  function FlushSent(ch: Channel, script: seq<FlushTurn>): (wire: seq<byte>) {
    if ch.phase == Ready && ch.session.Some? && ch.session.value.live
    then Pump(Unsent(ch.session.value), script).wire else []
  }

  /** The bytes that go out when the session comes up: the preface, then the queued calls. */
  function SentUp(o: Config, ch: Channel, e: Event): (wire: seq<byte>)
    requires e.Connect?
  {
    var x := ch.(session := Some(SessionModel.Init(e.now)), watch := WatchSession, phase := Ready);
    var up := Rearm(o, Flush(x, e.preface), e.skew);
    FlushSent(x, e.preface) + FlushSent(SubmitAll(up.(pending := []), up.pending, e.ids), e.flush)
  }

  /** The bytes the keepalive callback hands to the socket. */
  function SentByKeepalive(o: Config, ch: Channel, e: Event): (wire: seq<byte>)
    requires e.TimerFires?
  {
    if ch.phase != Ready || ch.session.None? then []
    else
      var (s, action) := Check(o.keepalive, ch.session.value, e.now, e.refusal);
      if action.Dead? then [] else FlushSent(ch.(session := Some(s)), e.flush)
  }

  /** The bytes the farewell hands to the socket. */
  function SentAtShutdown(ch: Channel, e: Event): (wire: seq<byte>)
    requires e.ShutdownOp?
  {
    if ch.phase == Ready && ch.session.Some?
    then FlushSent(ch.(session := Some(Terminate(ch.session.value))), e.flush) else []
  }

  /** The bytes an event's handler hands to the socket. */
  function SentBy(o: Config, ch: Channel, e: Event): (wire: seq<byte>) {
    match e
    case NewCall(c, _, _, id, flush) => if ch.phase == Ready then FlushSent(SubmitCall(ch, c, id), flush) else []
    case ShutdownOp(_) => SentAtShutdown(ch, e)
    case Connect(outcome, _, setupFailure, _, _, _, _) =>
      if outcome != Connected || setupFailure.Some? then []
      else SentUp(o, ch.(timers := Cancelled(ch.timers, ch.connectTimer), connectTimer := 0), e)
    case Traffic(readable, input, flush, _) => FlushSent(if readable then DrainSocket(ch, input) else ch, flush)
    case TimerFires(id, _, _, _, _) =>
      if id in ch.timers.pending && ch.timers.pending[id].callback == KeepaliveCheck
      then SentByKeepalive(o, ch, e) else []
  }
}
