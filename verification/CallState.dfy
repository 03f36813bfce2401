/**
 The per-call state machine. Hooks arrive one at a time on the event thread and
 update the fields in place; `Valid` says that at every moment the fields are
 the ones `CallOutcome` assigns to the events so far.
 */
module CallStates {
  import opened Octets
  import opened Status
  import opened GrpcFrames
  import opened MessageScanner
  import opened CallOutcome

  datatype Phase = Created | HeadersSent | Opened | Closed

  /** Where a call is in its life, and under which stream. */
  datatype Life = Life(phase: Phase, streamId: int)

  function Live(life: Life, e: Event): (r: Life) {
    if life.phase.Closed? then life
    else match e
         case Submitted(id) => if life.phase.Created? then Life(HeadersSent, id) else life
         case ResponseHeaders(_, _) => life.(phase := Opened)
         case Close(_) => life.(phase := Closed)
         case Fail(_, _) => life.(phase := Closed)
         case _ => life
  }

  function LifeOf(es: seq<Event>): (life: Life) {
    if es == [] then Life(Created, -1) else Live(LifeOf(es[..|es| - 1]), es[|es| - 1])
  }

  /** The stream is the first one submitted, if that comes before any response and any end; -1 means none. */
  lemma {:induction false} StreamIs(es: seq<Event>, k: nat)
    requires k < |es| && es[k].Submitted?
    requires forall i :: 0 <= i < k ==> es[i].Data? || es[i].Trailers?
    ensures LifeOf(es).streamId == es[k].streamId && !LifeOf(es).phase.Created?
    decreases |es|
  {
    var front := es[..|es| - 1];
    if k < |front| {
      StreamIs(front, k);
    } else {
      NotSubmitted(front);
    }
  }

  lemma {:induction false} NotSubmitted(es: seq<Event>)
    requires forall i :: 0 <= i < |es| ==> es[i].Data? || es[i].Trailers?
    ensures LifeOf(es) == Life(Created, -1)
    decreases |es|
  {
    if es != [] { NotSubmitted(es[..|es| - 1]); }
  }

  /** A call is closed exactly when some event has ended it. */
  lemma {:induction false} ClosedMeans(es: seq<Event>)
    ensures LifeOf(es).phase.Closed? <==> !Open(es)
    decreases |es|
  {
    hide Live, Open;
    if es == [] {
      NothingEnds();
    } else {
      var front, last := es[..|es| - 1], es[|es| - 1];
      ClosedMeans(front);
      assert es == front + [last];
      OpenMore(front, last);
      EndsClose(LifeOf(front), last);
    }
  }

  lemma NothingEnds()
    ensures Open([])
  {
  }

  lemma OpenMore(es: seq<Event>, e: Event)
    ensures Open(es + [e]) <==> Open(es) && !e.Ends()
  {
    assert e in es + [e] && forall x :: x in es ==> x in es + [e];
    assert forall x :: x in es + [e] ==> x in es || x == e;
  }

  lemma EndsClose(life: Life, e: Event)
    ensures Live(life, e).phase.Closed? <==> life.phase.Closed? || e.Ends()
  {
  }

  lemma LifeStep(es: seq<Event>, e: Event)
    ensures LifeOf(es + [e]) == Live(LifeOf(es), e)
  {
    assert (es + [e])[..|es + [e]| - 1] == es;
  }

  class CallState {
    const scanner: GrpcMessageScanner
    var phase: Phase
    var streamId: int
    var done: bool
    var firstResponse: seq<byte>
    var responseCount: nat
    var sawInitialHeaders: bool
    var httpStatus: int
    var contentType: Text
    var statusRaw: Option<Text>
    var messageRaw: Text
    var result: Result

    ghost var events: seq<Event>

    ghost predicate Valid()
      reads this, scanner
    {
      && scanner.Valid()
      && done == phase.Closed? && Life(phase, streamId) == LifeOf(events)
      && (phase.Closed? ==> Outcome(scanner.max, events) == Some(result))
      && (!phase.Closed? ==>
            && Outcome(scanner.max, events).None?
            && Fields() == CapturedBy(events)
            && result == Result(Unknown, NoDetail, [], result.initial, result.trailing)
            && Reads(DataOf(events)))
    }

    ghost function Fields(): Captured
      reads this
    {
      Captured(sawInitialHeaders, httpStatus, contentType, statusRaw, messageRaw, result.initial, result.trailing)
    }

    /** The scanner and the response counters stand for the DATA bytes so far. */
    ghost predicate Reads(data: seq<byte>)
      requires scanner.Valid()
      reads this, scanner
    {
      var p := ParseFrames(data, scanner.max);
      && p.fault == scanner.fault
      && (p.fault.None? ==>
            && scanner.offered == data && Drained(scanner)
            && p == Parse(scanner.delivered, scanner.Unread(), None)
            && responseCount == |p.messages|
            && (p.messages != [] ==> firstResponse == p.messages[0]))
    }

    constructor (max: nat)
      ensures Valid() && fresh(scanner) && scanner.max == max
      ensures events == [] && !done
    {
      hide ParseFrames;
      scanner := new GrpcMessageScanner(max);
      phase, streamId, done := Created, -1, false;
      firstResponse, responseCount := [], 0;
      sawInitialHeaders, httpStatus, contentType := false, 0, [];
      statusRaw, messageRaw := None, [];
      result := Result(Unknown, NoDetail, [], [], []);
      events := [];
      new;
      EmptyParse(max);
    }

    method OnSubmitted(streamId: int)
      requires Valid()
      modifies this
      ensures Valid() && events == old(events) + [Submitted(streamId)]
      ensures old(done) ==> done && result == old(result)
    {
      hide ParseFrames, Final, AfterResponse, AfterTrailers, Outcome, CapturedBy, DataOf, LifeOf;
      events := events + [Submitted(streamId)];
      EventStep(scanner.max, old(events), events[|old(events)|]);
      LifeStep(old(events), events[|old(events)|]);
      if phase != Created { return; }
      this.streamId := streamId;
      phase := HeadersSent;
    }

    method OnResponseHeaders(headers: seq<Header>, endStream: bool)
      requires Valid()
      modifies this
      ensures Valid() && events == old(events) + [ResponseHeaders(headers, endStream)]
      ensures old(done) ==> done && result == old(result)
    {
      hide ParseFrames, Final, AfterResponse, AfterTrailers, Outcome, CapturedBy, DataOf, LifeOf, KindOf, Atoi;
      events := events + [ResponseHeaders(headers, endStream)];
      EventStep(scanner.max, old(events), events[|old(events)|]);
      LifeStep(old(events), events[|old(events)|]);
      if phase == Closed { return; }
      phase, sawInitialHeaders := Opened, true;
      SawIsSet(CapturedBy(old(events)), headers, endStream);
      TakeResponseHeaders(headers, endStream);
    }

    /** Sorts one response header block into the captured fields. */
    method TakeResponseHeaders(headers: seq<Header>, endStream: bool)
      requires sawInitialHeaders
      modifies `httpStatus, `contentType, `statusRaw, `messageRaw, `result
      ensures Fields() == AfterResponse(old(Fields()), headers, endStream)
      ensures result == old(result).(initial := result.initial, trailing := result.trailing)
    {
      hide AfterResponse, KindOf, Atoi;
      ghost var before := Fields();
      NoHeaders(before, endStream);
      for i := 0 to |headers|
        invariant Fields() == AfterResponse(before, headers[..i], endStream)
        invariant result == old(result).(initial := result.initial, trailing := result.trailing)
      {
        var h := headers[i];
        ResponseStep(before, headers, i, endStream);
        var kind := KindOf(h.name);
        if kind == HttpStatus {
          httpStatus := Atoi(h.value);
        } else if kind == OtherPseudo {
        } else if kind == ContentType {
          contentType := h.value;
        } else if endStream && kind == GrpcStatus {
          statusRaw := Some(h.value);
        } else if endStream && kind == GrpcMessage {
          messageRaw := h.value;
        } else if endStream {
          result := result.(trailing := result.trailing + [h]);
        } else {
          result := result.(initial := result.initial + [h]);
        }
      }
      assert headers[..|headers|] == headers;
    }

    method OnData(data: seq<byte>)
      requires Valid()
      modifies this, scanner
      ensures Valid() && events == old(events) + [Data(data)]
      ensures old(done) ==> done && result == old(result)
    {
      hide ParseFrames, Final, AfterResponse, AfterTrailers, Outcome, CapturedBy, DataOf, LifeOf;
      events := events + [Data(data)];
      EventStep(scanner.max, old(events), events[|old(events)|]);
      LifeStep(old(events), events[|old(events)|]);
      if phase == Closed { return; }
      ParseContinues(DataOf(old(events)), data, scanner.max);
      if scanner.Failed() { return; }
      var ok := scanner.Feed(data);
      if !ok { return; }
      TakeResponses();
    }

    /** The drain loop: the first message is kept, the rest are counted. */
    method TakeResponses()
      requires scanner.Valid() && !scanner.Failed()
      requires responseCount == |scanner.delivered|
      requires responseCount > 0 ==> firstResponse == scanner.delivered[0]
      modifies scanner, `responseCount, `firstResponse
      ensures scanner.Valid() && !scanner.Failed() && Drained(scanner) && scanner.offered == old(scanner.offered)
      ensures responseCount == |scanner.delivered|
      ensures responseCount > 0 ==> firstResponse == scanner.delivered[0]
      ensures ParseFrames(scanner.offered, scanner.max) == Parse(scanner.delivered, scanner.Unread(), None)
    {
      hide ParseFrames;
      var more, message := scanner.Next();
      while more
        invariant scanner.Valid() && !scanner.Failed() && scanner.offered == old(scanner.offered)
        invariant responseCount == |scanner.delivered| - if more then 1 else 0
        invariant more ==> scanner.delivered != [] && message == scanner.delivered[|scanner.delivered| - 1]
        invariant responseCount > 0 ==> firstResponse == scanner.delivered[0]
        invariant !more ==> Drained(scanner)
        decreases |scanner.Unread()| + if more then 1 else 0
      {
        responseCount := responseCount + 1;
        if responseCount == 1 { firstResponse := message; }
        more, message := scanner.Next();
      }
      DrainedMeans(scanner);
    }

    method OnTrailers(trailers: seq<Header>)
      requires Valid()
      modifies this
      ensures Valid() && events == old(events) + [Trailers(trailers)]
      ensures old(done) ==> done && result == old(result)
    {
      hide ParseFrames, Final, AfterResponse, AfterTrailers, Outcome, CapturedBy, DataOf, LifeOf, KindOf;
      events := events + [Trailers(trailers)];
      EventStep(scanner.max, old(events), events[|old(events)|]);
      LifeStep(old(events), events[|old(events)|]);
      if phase == Closed { return; }
      ghost var before := CapturedBy(old(events));
      NoHeaders(before, true);
      for i := 0 to |trailers|
        modifies `statusRaw, `messageRaw, `result
        invariant Fields() == AfterTrailers(before, trailers[..i])
        invariant result == Result(Unknown, NoDetail, [], result.initial, result.trailing)
      {
        var h := trailers[i];
        TrailerStep(before, trailers, i);
        match KindOf(h.name)
        case HttpStatus =>
        case OtherPseudo =>
        case GrpcStatus => statusRaw := Some(h.value);
        case GrpcMessage => messageRaw := h.value;
        case _ => result := result.(trailing := result.trailing + [h]);
      }
      assert trailers[..|trailers|] == trailers;
    }

    method OnClose(http2Error: nat)
      requires Valid()
      modifies this
      ensures Valid() && events == old(events) + [Close(http2Error)] && done
      ensures old(done) ==> result == old(result)
    {
      hide ParseFrames, Final, AfterResponse, AfterTrailers, Outcome, CapturedBy, DataOf, LifeOf;
      events := events + [Close(http2Error)];
      EventStep(scanner.max, old(events), events[|old(events)|]);
      LifeStep(old(events), events[|old(events)|]);
      if phase == Closed { return; }
      FinalizeLocked(http2Error, DataOf(old(events)));
      phase, done := Closed, true;
    }

    method FailLocal(code: StatusCode, reason: string)
      requires Valid()
      modifies this
      ensures Valid() && events == old(events) + [Fail(code, reason)] && done
      ensures old(done) ==> result == old(result)
    {
      hide ParseFrames, Final, AfterResponse, AfterTrailers, Outcome, CapturedBy, DataOf, LifeOf;
      events := events + [Fail(code, reason)];
      EventStep(scanner.max, old(events), events[|old(events)|]);
      LifeStep(old(events), events[|old(events)|]);
      if phase == Closed { return; }
      result := result.(code := code, detail := Local(reason));
      phase, done := Closed, true;
    }

    /** What `Wait` returns once it can return. */
    method Completed() returns (r: Option<Result>)
      requires Valid()
      ensures r == Outcome(scanner.max, events)
    {
      r := if done then Some(result) else None;
    }

    /** The precedence rule, field by field. */
    method FinalizeLocked(http2Error: nat, ghost data: seq<byte>)
      requires scanner.Valid() && Reads(data) && result.response == []
      modifies `result
      ensures result == Final(scanner.max, old(Fields()), data, http2Error)
    {
      hide ParseFrames, PercentDecoded, StatusOf, IsGrpcContentType, HttpStatusToGrpcCode;
      if scanner.Failed() {
        result := result.(code := scanner.fault.value.Code(), detail := BadFrame(scanner.fault.value));
        return;
      }
      if statusRaw.Some? {
        var code := ParseGrpcStatus(statusRaw.value);
        if code.None? {
          result := result.(code := Internal, detail := MalformedStatus(statusRaw.value));
          return;
        }
        var text := PercentDecode(messageRaw);
        result := result.(code := code.value, detail := FromServer(text));
        if code.value != Ok { return; }
        var partial := scanner.HasPartialMessage();
        if partial {
          result := result.(code := Internal, detail := TruncatedFrame);
        } else if responseCount == 0 {
          result := result.(code := Internal, detail := NoMessage);
        } else if responseCount > 1 {
          result := result.(code := Internal, detail := ExtraMessage);
        } else {
          result := result.(response := firstResponse);
        }
        return;
      }
      if sawInitialHeaders && httpStatus != 200 {
        result := result.(code := HttpStatusToGrpcCode(httpStatus), detail := BadHttpStatus(httpStatus));
        return;
      }
      if sawInitialHeaders && !IsGrpcContentType(contentType) {
        result := result.(code := Internal, detail := BadContentType(contentType));
        return;
      }
      if http2Error == 0 {
        result := result.(code := Internal, detail := NoGrpcStatus);
      } else if http2Error == REFUSED_STREAM {
        result := result.(code := Unavailable, detail := Refused);
      } else if http2Error == CANCEL {
        result := result.(code := Cancelled, detail := CancelledByServer);
      } else {
        result := result.(code := Internal, detail := Reset(http2Error));
      }
    }
  }

  /** One more event, spelled out once for all the handlers. */
  lemma EventStep(max: nat, es: seq<Event>, e: Event)
    ensures var all := es + [e]; var c := CapturedBy(es);
            && DataOf(all) == (if e.Data? then DataOf(es) + e.bytes else DataOf(es))
            && CapturedBy(all) == Capture(c, e)
            && Outcome(max, all) == if Outcome(max, es).Some? then Outcome(max, es) else EndedBy(max, c, DataOf(es), e)
  {
    hide Final, AfterResponse, AfterTrailers;
    assert (es + [e])[..|es + [e]| - 1] == es;
  }

  lemma NoHeaders(c: Captured, endStream: bool)
    ensures AfterResponse(c, [], endStream) == c.(saw := true) && AfterTrailers(c, []) == c
  {
    assert c.initial + [] == c.initial && c.trailing + [] == c.trailing;
  }

  lemma SawIsSet(c: Captured, hs: seq<Header>, endStream: bool)
    ensures AfterResponse(c.(saw := true), hs, endStream) == AfterResponse(c, hs, endStream)
  {
  }

  /** One more response header: the captured values change in the one place its kind names. */
  lemma ResponseStep(c: Captured, hs: seq<Header>, i: nat, endStream: bool)
    requires i < |hs|
    ensures var b := AfterResponse(c, hs[..i], endStream);
            AfterResponse(c, hs[..i + 1], endStream) ==
            match KindOf(hs[i].name)
            case HttpStatus => b.(httpStatus := Atoi(hs[i].value))
            case OtherPseudo => b
            case ContentType => b.(contentType := hs[i].value)
            case k =>
              if endStream && k == GrpcStatus then b.(status := Some(hs[i].value))
              else if endStream && k == GrpcMessage then b.(message := hs[i].value)
              else if endStream then b.(trailing := b.trailing + [hs[i]])
              else b.(initial := b.initial + [hs[i]])
  {
    hide KindOf, Atoi;
    assert hs[..i + 1][..i] == hs[..i];
    var keep := h => ResponseMetadata(h, endStream);
    if keep(hs[i]) {
      Assoc(c.initial, Keep(hs[..i], keep), [hs[i]]);
      Assoc(c.trailing, Keep(hs[..i], keep), [hs[i]]);
    } else {
      assert Keep(hs[..i + 1], keep) == Keep(hs[..i], keep);
    }
  }

  lemma TrailerStep(c: Captured, hs: seq<Header>, i: nat)
    requires i < |hs|
    ensures var b := AfterTrailers(c, hs[..i]);
            AfterTrailers(c, hs[..i + 1]) ==
            match KindOf(hs[i].name)
            case HttpStatus => b
            case OtherPseudo => b
            case GrpcStatus => b.(status := Some(hs[i].value))
            case GrpcMessage => b.(message := hs[i].value)
            case _ => b.(trailing := b.trailing + [hs[i]])
  {
    hide KindOf;
    assert hs[..i + 1][..i] == hs[..i];
    if TrailerMetadata(hs[i]) {
      Assoc(c.trailing, Keep(hs[..i], TrailerMetadata), [hs[i]]);
    } else {
      assert Keep(hs[..i + 1], TrailerMetadata) == Keep(hs[..i], TrailerMetadata);
    }
  }

  /**
   Every run of a call: whatever hooks arrive in whatever order, the waiter's
   result is the one `Outcome` assigns to the events, and there is one exactly
   when some event ended the call.
   */
  method RunCall(max: nat, events: seq<Event>) returns (result: Option<Result>)
    ensures result == Outcome(max, events)
  {
    hide *;
    var call := new CallState(max);
    for i := 0 to |events|
      invariant fresh(call) && fresh(call.scanner) && call.Valid() && call.scanner.max == max
      invariant call.events == events[..i]
    {
      match events[i]
      case Submitted(id) => call.OnSubmitted(id);
      case ResponseHeaders(hs, endStream) => call.OnResponseHeaders(hs, endStream);
      case Data(bytes) => call.OnData(bytes);
      case Trailers(hs) => call.OnTrailers(hs);
      case Close(code) => call.OnClose(code);
      case Fail(code, reason) => call.FailLocal(code, reason);
      assert events[..i + 1] == events[..i] + [events[i]];
    }
    assert events[..|events|] == events;
    result := call.Completed();
  }
}
