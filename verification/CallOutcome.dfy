/**
 What a unary call's result means: a function of the header blocks, the
 concatenated DATA bytes and the HTTP/2 close code, with the precedence rule
 framing fault > grpc-status > HTTP status > content type > close code.
 */
module CallOutcome {
  import opened Octets
  import opened Status
  import opened GrpcFrames

  datatype Header = Header(name: Text, value: Text)

  /** The header names the receive path tells apart. */
  datatype Kind = HttpStatus | OtherPseudo | ContentType | GrpcStatus | GrpcMessage | Plain

  function KindOf(name: Text): (k: Kind) {
    if name != [] && name[0] == ':' then (if name == ":status" then HttpStatus else OtherPseudo)
    else if name == "content-type" then ContentType
    else if name == "grpc-status" then GrpcStatus
    else if name == "grpc-message" then GrpcMessage
    else Plain
  }

  /** `IsGrpcContentType`: the first sixteen characters decide. */
  predicate IsGrpcContentType(value: Text) { |value| >= 16 && value[..16] == "application/grpc" }

  function IsSpace(c: char): bool { c == ' ' || '\t' <= c <= '\r' }

  function DigitRun(s: string): (n: nat)
    ensures n <= |s| && forall c :: c in s[..n] ==> IsDigit(c)
  {
    if s == [] || !IsDigit(s[0]) then 0
    else
      assert s[..1 + DigitRun(s[1..])] == [s[0]] + s[1..][..DigitRun(s[1..])];
      1 + DigitRun(s[1..])
  }

  /** `std::atoi`: blanks, an optional sign, then the longest run of digits. */
  function Atoi(s: string): (n: int) {
    if s == [] then 0
    else if IsSpace(s[0]) then Atoi(s[1..])
    else if s[0] == '-' then -(Value(s[1..][..DigitRun(s[1..])]) as int)
    else if s[0] == '+' then Value(s[1..][..DigitRun(s[1..])])
    else Value(s[..DigitRun(s)])
  }

  /** Why a call ended the way it did; `Wording` gives the text the caller sees. */
  datatype Detail =
    | NoDetail
    | FromServer(text: Text)
    | BadFrame(fault: Fault)
    | MalformedStatus(raw: Text)
    | TruncatedFrame | NoMessage | ExtraMessage
    | BadHttpStatus(status: int)
    | BadContentType(value: Text)
    | NoGrpcStatus | Refused | CancelledByServer
    | Reset(http2Error: nat)
    | Local(reason: string)
  {
    function Wording(): string {
      match this
      case NoDetail => ""
      case FromServer(text) => text
      case BadFrame(fault) => fault.Text()
      case MalformedStatus(raw) => "malformed grpc-status trailer: \"" + raw + "\""
      case TruncatedFrame => "stream ended mid-message (truncated gRPC frame)"
      case NoMessage => "unary call completed with OK status but no response message"
      case ExtraMessage => "unary call received more than one response message"
      case BadHttpStatus(status) => "unexpected HTTP status " + SignedDecimal(status)
      case BadContentType(value) => "unexpected content-type \"" + value + "\""
      case NoGrpcStatus => "server closed stream without grpc-status"
      case Refused => "stream refused by server (REFUSED_STREAM)"
      case CancelledByServer => "stream cancelled by server (RST_STREAM CANCEL)"
      case Reset(code) => "stream reset, HTTP/2 error code " + Decimal(code)
      case Local(reason) => reason
    }
  }

  /** The words the caller sees. */
  lemma StatusTexts(raw: Text)
    ensures MalformedStatus(raw).Wording() == "malformed grpc-status trailer: \"" + raw + "\""
    ensures NoGrpcStatus.Wording() == "server closed stream without grpc-status"
    ensures FromServer(raw).Wording() == raw
  {
    hide Decimal, SignedDecimal;
  }

  lemma MessageTexts()
    ensures TruncatedFrame.Wording() == "stream ended mid-message (truncated gRPC frame)"
    ensures NoMessage.Wording() == "unary call completed with OK status but no response message"
    ensures ExtraMessage.Wording() == "unary call received more than one response message"
  {
    hide Decimal, SignedDecimal;
  }

  lemma HttpTexts(raw: Text, status: int)
    ensures BadHttpStatus(status).Wording() == "unexpected HTTP status " + SignedDecimal(status)
    ensures BadContentType(raw).Wording() == "unexpected content-type \"" + raw + "\""
  {
    hide Decimal, SignedDecimal;
  }

  lemma CloseTexts()
    ensures Refused.Wording() == "stream refused by server (REFUSED_STREAM)"
    ensures CancelledByServer.Wording() == "stream cancelled by server (RST_STREAM CANCEL)"
  {
    hide Decimal, SignedDecimal;
  }

  lemma LocalText(reason: string)
    ensures Local(reason).Wording() == reason
  {
    hide Decimal, SignedDecimal;
  }

  lemma ResetText(code: nat)
    ensures Reset(code).Wording() == "stream reset, HTTP/2 error code " + Decimal(code)
  {
    hide Decimal, SignedDecimal;
  }

  datatype Result = Result(code: StatusCode, detail: Detail, response: seq<byte>,
                           initial: seq<Header>, trailing: seq<Header>)

  datatype Event =
    | Submitted(streamId: int)
    | ResponseHeaders(headers: seq<Header>, endStream: bool)
    | Data(bytes: seq<byte>)
    | Trailers(headers: seq<Header>)
    | Close(http2Error: nat)
    | Fail(code: StatusCode, reason: string)
  {
    predicate Ends() { Close? || Fail? }
    predicate Headers() { ResponseHeaders? || Trailers? }
  }

  /** What the header blocks seen so far amount to. */
  datatype Captured = Captured(saw: bool, httpStatus: int, contentType: Text,
                               status: Option<Text>, message: Text,
                               initial: seq<Header>, trailing: seq<Header>)

  const NOTHING := Captured(false, 0, [], None, [], [], [])

  /** The value of the last header of a kind. */
  function LastValue(hs: seq<Header>, kind: Kind): (v: Option<Text>) {
    if hs == [] then None
    else if KindOf(hs[|hs| - 1].name) == kind then Some(hs[|hs| - 1].value)
    else LastValue(hs[..|hs| - 1], kind)
  }

  function Or<T>(v: Option<T>, otherwise: T): T { if v.Some? then v.value else otherwise }

  predicate ResponseMetadata(h: Header, endStream: bool) {
    match KindOf(h.name)
    case Plain => true
    case GrpcStatus => !endStream
    case GrpcMessage => !endStream
    case _ => false
  }

  predicate TrailerMetadata(h: Header) {
    KindOf(h.name).Plain? || KindOf(h.name).ContentType?
  }

  /** The entries of a header block that are the application's, in order. */
  function Keep(hs: seq<Header>, p: Header -> bool): (kept: seq<Header>) {
    if hs == [] then []
    else Keep(hs[..|hs| - 1], p) + if p(hs[|hs| - 1]) then [hs[|hs| - 1]] else []
  }

  function AfterResponse(c: Captured, hs: seq<Header>, endStream: bool): (r: Captured) {
    var kept := Keep(hs, h => ResponseMetadata(h, endStream));
    var http := LastValue(hs, HttpStatus);
    var status := LastValue(hs, GrpcStatus);
    c.(saw := true,
       httpStatus := if http.Some? then Atoi(http.value) else c.httpStatus,
       contentType := Or(LastValue(hs, ContentType), c.contentType),
       status := if endStream && status.Some? then status else c.status,
       message := if endStream then Or(LastValue(hs, GrpcMessage), c.message) else c.message,
       initial := if endStream then c.initial else c.initial + kept,
       trailing := if endStream then c.trailing + kept else c.trailing)
  }

  function AfterTrailers(c: Captured, hs: seq<Header>): (r: Captured) {
    var status := LastValue(hs, GrpcStatus);
    c.(status := if status.Some? then status else c.status,
       message := Or(LastValue(hs, GrpcMessage), c.message),
       trailing := c.trailing + Keep(hs, TrailerMetadata))
  }

  function Capture(c: Captured, e: Event): (r: Captured) {
    match e
    case ResponseHeaders(hs, endStream) => AfterResponse(c, hs, endStream)
    case Trailers(hs) => AfterTrailers(c, hs)
    case _ => c
  }

  function CapturedBy(es: seq<Event>): (c: Captured) {
    if es == [] then NOTHING else Capture(CapturedBy(es[..|es| - 1]), es[|es| - 1])
  }

  /** All DATA bytes, concatenated. */
  function DataOf(es: seq<Event>): (s: seq<byte>) {
    if es == [] then []
    else DataOf(es[..|es| - 1]) + if es[|es| - 1].Data? then es[|es| - 1].bytes else []
  }

  const REFUSED_STREAM: nat := 7
  const CANCEL: nat := 8

  /** The status of a call whose trailers carried a grpc-status, given what the DATA parsed to. */
  function StatusVerdict(raw: Text, text: Text, p: Parse): (v: (StatusCode, Detail, seq<byte>)) {
    var code := StatusOf(raw);
    if code.None? then (Internal, MalformedStatus(raw), [])
    else if code.value != Ok then (code.value, FromServer(PercentDecoded(text)), [])
    else if p.rest != [] then (Internal, TruncatedFrame, [])
    else if p.messages == [] then (Internal, NoMessage, [])
    else if |p.messages| > 1 then (Internal, ExtraMessage, [])
    else (Ok, FromServer(PercentDecoded(text)), p.messages[0])
  }

  function FallbackVerdict(c: Captured, http2Error: nat): (v: (StatusCode, Detail, seq<byte>))
    ensures v.0 != Ok
  {
    if c.saw && c.httpStatus != 200 then (HttpStatusToGrpcCode(c.httpStatus), BadHttpStatus(c.httpStatus), [])
    else if c.saw && !IsGrpcContentType(c.contentType) then (Internal, BadContentType(c.contentType), [])
    else if http2Error == 0 then (Internal, NoGrpcStatus, [])
    else if http2Error == REFUSED_STREAM then (Unavailable, Refused, [])
    else if http2Error == CANCEL then (Cancelled, CancelledByServer, [])
    else (Internal, Reset(http2Error), [])
  }

  /** The final result of a stream that closed. */
  function Final(max: nat, c: Captured, data: seq<byte>, http2Error: nat): (r: Result) {
    var p := ParseFrames(data, max);
    var v := if p.fault.Some? then (p.fault.value.Code(), BadFrame(p.fault.value), [])
             else if c.status.Some? then StatusVerdict(c.status.value, c.message, p)
             else FallbackVerdict(c, http2Error);
    Result(v.0, v.1, v.2, c.initial, c.trailing)
  }

  /** The result an event gives a call that is still open. */
  function EndedBy(max: nat, c: Captured, data: seq<byte>, e: Event): (r: Option<Result>) {
    match e
    case Close(code) => Some(Final(max, c, data, code))
    case Fail(code, reason) => Some(Result(code, Local(reason), [], c.initial, c.trailing))
    case _ => None
  }

  /** The result of a call, once some event has ended it. */
  function Outcome(max: nat, es: seq<Event>): (r: Option<Result>) {
    if es == [] then None
    else
      var before := es[..|es| - 1];
      var earlier := Outcome(max, before);
      if earlier.Some? then earlier
      else EndedBy(max, CapturedBy(before), DataOf(before), es[|es| - 1])
  }

  // ------------------------------------------------------------ properties

  /** A call that closed is OK exactly when the status says 0 and the DATA is one frame within the limit. */
  lemma OkExactly(max: nat, c: Captured, data: seq<byte>, http2Error: nat)
    ensures var r := Final(max, c, data, http2Error);
            && (r.code == Ok <==>
                  && c.status.Some? && StatusOf(c.status.value) == Some(Ok)
                  && IsOneFrame(data, max))
            && (r.code == Ok ==> OneFrame(data, r.response, max))
            && (r.code != Ok ==> r.response == [])
  {
    hide ParseFrames, PercentDecoded, StatusOf;
    var p := ParseFrames(data, max);
    FramesOfParse(data, max);
    if p.fault.None? && p.rest == [] && |p.messages| == 1 {
      OneFrameParse(data, p.messages[0], max);
    }
    forall m | OneFrame(data, m, max)
      ensures p == Parse([m], [], None)
    {
      OneFrameParse(data, m, max);
    }
  }

  predicate OneFrame(data: seq<byte>, m: seq<byte>, max: nat) {
    data == Frame(m) && |m| <= max && |m| < LENGTH_LIMIT
  }

  /** The bytes are one whole frame within the limit, and nothing else. */
  ghost predicate IsOneFrame(data: seq<byte>, max: nat) { exists m :: OneFrame(data, m, max) }

  lemma OneFrameParse(data: seq<byte>, m: seq<byte>, max: nat)
    ensures OneFrame(data, m, max) <==> ParseFrames(data, max) == Parse([m], [], None)
  {
    hide ParseFrames;
    ParseExactly(data, max, [m], []);
    assert Frames([m]) + [] == Frame(m) by { assert Frames([m]) == Frame(m) + Frames([]); }
    assert Sendable([m], max) <==> |m| <= max && |m| < LENGTH_LIMIT by { assert m in [m]; }
  }

  /** The header events alone, DATA and submission left out. */
  function HeaderEvents(es: seq<Event>): (hs: seq<Event>) {
    if es == [] then []
    else HeaderEvents(es[..|es| - 1]) + if es[|es| - 1].Headers() then [es[|es| - 1]] else []
  }

  lemma {:induction false} CapturedByHeaders(es: seq<Event>)
    ensures CapturedBy(es) == CapturedBy(HeaderEvents(es))
  {
    hide AfterResponse, AfterTrailers;
    if es != [] {
      var before, e := es[..|es| - 1], es[|es| - 1];
      CapturedByHeaders(before);
      if e.Headers() {
        assert (HeaderEvents(before) + [e])[..|HeaderEvents(before)|] == HeaderEvents(before);
      } else {
        assert HeaderEvents(before) + [] == HeaderEvents(before);
      }
    }
  }

  predicate Open(es: seq<Event>) { forall e :: e in es ==> !e.Ends() }

  lemma {:induction false} OpenHasNoOutcome(max: nat, es: seq<Event>)
    requires Open(es)
    ensures Outcome(max, es).None?
  {
    hide Final, CapturedBy, DataOf;
    if es != [] {
      assert es[|es| - 1] in es;
      assert forall e :: e in es[..|es| - 1] ==> e in es;
      OpenHasNoOutcome(max, es[..|es| - 1]);
    }
  }

  /** The first ending event decides, from what came before it. */
  lemma EndDecides(max: nat, es: seq<Event>, http2Error: nat)
    requires Open(es)
    ensures Outcome(max, es + [Close(http2Error)]) ==
            Some(Final(max, CapturedBy(HeaderEvents(es)), DataOf(es), http2Error))
  {
    hide Final, CapturedBy, DataOf;
    var all := es + [Close(http2Error)];
    assert all[..|all| - 1] == es;
    OpenHasNoOutcome(max, es);
    CapturedByHeaders(es);
  }

  /** Re-chunking DATA, and reordering it against the header blocks, changes no field of the result. */
  lemma OnlyBytesAndHeadersMatter(max: nat, es: seq<Event>, fs: seq<Event>, http2Error: nat)
    requires Open(es) && Open(fs)
    requires HeaderEvents(es) == HeaderEvents(fs) && DataOf(es) == DataOf(fs)
    ensures Outcome(max, es + [Close(http2Error)]) == Outcome(max, fs + [Close(http2Error)])
  {
    EndDecides(max, es, http2Error);
    EndDecides(max, fs, http2Error);
  }

  /** Once a call has a result, no further events change it. */
  lemma {:induction false} OutcomeIsFinal(max: nat, es: seq<Event>, more: seq<Event>)
    requires Outcome(max, es).Some?
    ensures Outcome(max, es + more) == Outcome(max, es)
    decreases |more|
  {
    hide Final, CapturedBy, DataOf;
    if more == [] {
      assert es + more == es;
    } else {
      var all := es + more;
      assert all[..|all| - 1] == es + more[..|more| - 1];
      OutcomeIsFinal(max, es, more[..|more| - 1]);
    }
  }

  // ------------------------------------------------------------ in the headers' own names

  /** The value of the last header of this very name. */
  function LastNamed(hs: seq<Header>, name: Text): (v: Option<Text>) {
    if hs == [] then None
    else if hs[|hs| - 1].name == name then Some(hs[|hs| - 1].value)
    else LastNamed(hs[..|hs| - 1], name)
  }

  /** The entries that are neither pseudo-headers nor named so, in order. */
  function Without(hs: seq<Header>, names: seq<Text>): (kept: seq<Header>) {
    if hs == [] then []
    else
      var h := hs[|hs| - 1];
      Without(hs[..|hs| - 1], names) + if (h.name != [] && h.name[0] == ':') || h.name in names then [] else [h]
  }

  const STATUS: Text := "grpc-status"
  const MESSAGE: Text := "grpc-message"
  const CONTENT_TYPE: Text := "content-type"
  const HTTP_STATUS: Text := ":status"

  /** Which names the kinds stand for. */
  lemma KindNames(name: Text)
    ensures KindOf(name).HttpStatus? <==> name == HTTP_STATUS
    ensures KindOf(name).OtherPseudo? <==> name != [] && name[0] == ':' && name != HTTP_STATUS
    ensures KindOf(name).ContentType? <==> name == CONTENT_TYPE
    ensures KindOf(name).GrpcStatus? <==> name == STATUS
    ensures KindOf(name).GrpcMessage? <==> name == MESSAGE
    ensures name == HTTP_STATUS ==> name != [] && name[0] == ':'
  {
    assert HTTP_STATUS[0] == ':' && CONTENT_TYPE[0] == 'c' && STATUS[0] == 'g' && MESSAGE[0] == 'g';
    assert CONTENT_TYPE != STATUS && CONTENT_TYPE != MESSAGE && |STATUS| != |MESSAGE|;
  }

  lemma {:induction false} LastByName(hs: seq<Header>)
    ensures LastValue(hs, HttpStatus) == LastNamed(hs, HTTP_STATUS)
    ensures LastValue(hs, ContentType) == LastNamed(hs, CONTENT_TYPE)
    ensures LastValue(hs, GrpcStatus) == LastNamed(hs, STATUS)
    ensures LastValue(hs, GrpcMessage) == LastNamed(hs, MESSAGE)
  {
    hide KindOf;
    if hs != [] {
      KindNames(hs[|hs| - 1].name);
      LastByName(hs[..|hs| - 1]);
    }
  }

  lemma {:induction false} KeptByName(hs: seq<Header>)
    ensures Keep(hs, h => ResponseMetadata(h, false)) == Without(hs, [CONTENT_TYPE])
    ensures Keep(hs, h => ResponseMetadata(h, true)) == Without(hs, [CONTENT_TYPE, STATUS, MESSAGE])
    ensures Keep(hs, TrailerMetadata) == Without(hs, [STATUS, MESSAGE])
  {
    hide KindOf;
    if hs != [] {
      KindNames(hs[|hs| - 1].name);
      KeptByName(hs[..|hs| - 1]);
    }
  }

  /** A value a block may bring, or else what was heard before. */
  function Newer(v: Option<Text>, before: Option<Text>): Option<Text> { if v.Some? then v else before }

  /** The last value under a name in blocks that carry trailers: trailers, and responses that end the stream. */
  function HeardInTrailers(es: seq<Event>, name: Text): (v: Option<Text>) {
    if es == [] then None
    else
      var before, e := HeardInTrailers(es[..|es| - 1], name), es[|es| - 1];
      if e.Trailers? || (e.ResponseHeaders? && e.endStream) then Newer(LastNamed(e.headers, name), before) else before
  }

  /** The last value under a name in response blocks. */
  function HeardInResponses(es: seq<Event>, name: Text): (v: Option<Text>) {
    if es == [] then None
    else
      var before, e := HeardInResponses(es[..|es| - 1], name), es[|es| - 1];
      if e.ResponseHeaders? then Newer(LastNamed(e.headers, name), before) else before
  }

  /** The application's initial metadata: what responses that do not end the stream carry besides. */
  function InitialHeard(es: seq<Event>): (hs: seq<Header>) {
    if es == [] then []
    else
      var e := es[|es| - 1];
      InitialHeard(es[..|es| - 1])
      + if e.ResponseHeaders? && !e.endStream then Without(e.headers, [CONTENT_TYPE]) else []
  }

  /** The application's trailing metadata. */
  function TrailingHeard(es: seq<Event>): (hs: seq<Header>) {
    if es == [] then []
    else
      var e := es[|es| - 1];
      TrailingHeard(es[..|es| - 1])
      + if e.Trailers? then Without(e.headers, [STATUS, MESSAGE])
        else if e.ResponseHeaders? && e.endStream then Without(e.headers, [CONTENT_TYPE, STATUS, MESSAGE])
        else []
  }

  predicate SawResponse(es: seq<Event>) { exists e :: e in es && e.ResponseHeaders? }

  /** The captured fields, each in the headers' own names. */
  lemma {:induction false} CapturedMeans(es: seq<Event>)
    ensures var c := CapturedBy(es);
            && c.saw == SawResponse(es)
            && c.httpStatus == (var v := HeardInResponses(es, HTTP_STATUS); if v.Some? then Atoi(v.value) else 0)
            && c.contentType == Or(HeardInResponses(es, CONTENT_TYPE), [])
            && c.status == HeardInTrailers(es, STATUS)
            && c.message == Or(HeardInTrailers(es, MESSAGE), [])
            && c.initial == InitialHeard(es) && c.trailing == TrailingHeard(es)
  {
    hide KindOf, LastValue, LastNamed, Keep, Without, Atoi;
    if es != [] {
      var before, e := es[..|es| - 1], es[|es| - 1];
      CapturedMeans(before);
      SawMore(before, e);
      assert es == before + [e];
      assert InitialHeard(before) + [] == InitialHeard(before) && TrailingHeard(before) + [] == TrailingHeard(before);
      if e.Headers() {
        LastByName(e.headers);
        KeptByName(e.headers);
      }
    }
  }

  lemma SawMore(es: seq<Event>, e: Event)
    ensures SawResponse(es + [e]) <==> SawResponse(es) || e.ResponseHeaders?
  {
    if SawResponse(es) {
      var x :| x in es && x.ResponseHeaders?;
      assert x in es + [e];
    }
    assert e in es + [e];
  }

  /** A call ended by `Close` is OK only for a single-frame response under a zero status. */
  lemma OkRun(max: nat, es: seq<Event>, http2Error: nat)
    requires Open(es)
    ensures var r, status := Outcome(max, es + [Close(http2Error)]), HeardInTrailers(es, "grpc-status");
            && r.Some?
            && (r.value.code == Ok <==>
                  status.Some? && AllZeros(status.value) && 1 <= |status.value| <= 10
                  && IsOneFrame(DataOf(es), max))
            && (r.value.code == Ok ==> OneFrame(DataOf(es), r.value.response, max))
            && (r.value.code != Ok ==> r.value.response == [])
  {
    hide Final, CapturedBy, DataOf, StatusOf, HeardInTrailers;
    EndDecides(max, es, http2Error);
    CapturedByHeaders(es);
    CapturedMeans(es);
    var c := CapturedBy(HeaderEvents(es));
    OkExactly(max, c, DataOf(es), http2Error);
    if c.status.Some? { OkStatusText(c.status.value); }
  }

  /** An ordinary response: its status and message are the trailers', whatever the initial headers say. */
  lemma OrdinaryResponse(es: seq<Event>, initial: seq<Header>, trailers: seq<Header>)
    requires HeaderEvents(es) == [ResponseHeaders(initial, false), Trailers(trailers)]
    ensures var c := CapturedBy(es);
            && c.status == LastNamed(trailers, "grpc-status")
            && c.message == Or(LastNamed(trailers, "grpc-message"), [])
            && c.initial == Without(initial, ["content-type"])
            && c.trailing == Without(trailers, ["grpc-status", "grpc-message"])
  {
    hide KindOf, LastValue, Keep, Atoi, Without, LastNamed;
    CapturedByHeaders(es);
    LastByName(trailers);
    KeptByName(initial);
    KeptByName(trailers);
    var hs := HeaderEvents(es);
    assert hs[..1][..0] == [] && hs[..1] == [hs[0]];
    assert CapturedBy(hs[..1]) == AfterResponse(NOTHING, initial, false);
  }

  /** A Trailers-Only response: one block is both, and all of its metadata is trailing. */
  lemma TrailersOnlyResponse(es: seq<Event>, block: seq<Header>)
    requires HeaderEvents(es) == [ResponseHeaders(block, true)]
    ensures var c := CapturedBy(es);
            && c.status == LastNamed(block, "grpc-status")
            && c.message == Or(LastNamed(block, "grpc-message"), [])
            && c.initial == [] && c.trailing == Without(block, ["content-type", "grpc-status", "grpc-message"])
  {
    hide KindOf, LastValue, Keep, Atoi, Without, LastNamed;
    CapturedByHeaders(es);
    LastByName(block);
    KeptByName(block);
    var hs := HeaderEvents(es);
    assert hs[..0] == [];
  }

  // ------------------------------------------------------------ the result in numbers

  predicate AllDigits(s: string) { forall i :: 0 <= i < |s| ==> '0' <= s[i] <= '9' }

  /** A grpc-status value is one to ten digits; anything else is malformed. */
  lemma StatusReads(value: string)
    ensures StatusOf(value).Some? <==> 1 <= |value| <= 10 && AllDigits(value)
    ensures StatusOf(value).Some? ==>
              (forall c :: c in value ==> IsDigit(c))
              && Number(StatusOf(value).value) == if Value(value) <= 16 then Value(value) else 2
  {
    if 1 <= |value| <= 10 && forall c :: c in value ==> IsDigit(c) { CodeNumbers(Value(value)); }
    assert AllDigits(value) ==> forall c :: c in value ==> IsDigit(c);
    assert (forall c :: c in value ==> IsDigit(c)) ==> AllDigits(value) by {
      assert forall i :: 0 <= i < |value| ==> value[i] in value;
    }
  }

  /**
   What a status heard from the server becomes, in numbers: a framing fault wins over
   it; a malformed one is 13; a non-zero one is returned as itself, larger ones as 2,
   with the message decoded; a zero without exactly one message is 13.
   */
  lemma StatusDecides(max: nat, es: seq<Event>, http2Error: nat)
    requires Open(es) && HeardInTrailers(es, "grpc-status").Some?
    ensures var r := Outcome(max, es + [Close(http2Error)]); var p := ParseFrames(DataOf(es), max);
            var status := HeardInTrailers(es, "grpc-status").value;
            var text := PercentDecoded(Or(HeardInTrailers(es, "grpc-message"), []));
            && r.Some?
            && (p.fault.Some? ==> r.value.code == p.fault.value.Code() && r.value.detail == BadFrame(p.fault.value))
            && (p.fault.None? && !(1 <= |status| <= 10 && AllDigits(status)) ==>
                  Number(r.value.code) == 13 && r.value.detail == MalformedStatus(status))
            && (p.fault.None? && 1 <= |status| <= 10 && AllDigits(status) && Meant(status) != 0 ==>
                  Number(r.value.code) == (if Meant(status) <= 16 then Meant(status) else 2)
                  && r.value.detail == FromServer(text))
            && (p.fault.None? && 1 <= |status| <= 10 && AllDigits(status) && Meant(status) == 0 ==>
                  if p.rest != [] then Number(r.value.code) == 13 && r.value.detail == TruncatedFrame
                  else if |p.messages| == 0 then Number(r.value.code) == 13 && r.value.detail == NoMessage
                  else if |p.messages| > 1 then Number(r.value.code) == 13 && r.value.detail == ExtraMessage
                  else Number(r.value.code) == 0 && r.value.detail == FromServer(text)
                       && r.value.response == p.messages[0])
  {
    hide ParseFrames, CapturedBy, DataOf, StatusOf, HeardInTrailers, PercentDecoded, HeaderEvents, Meant, AllDigits;
    EndDecides(max, es, http2Error);
    CapturedByHeaders(es);
    CapturedMeans(es);
    var status := HeardInTrailers(es, "grpc-status").value;
    StatusReads(status);
    if 1 <= |status| <= 10 && AllDigits(status) { MeantIsValue(status); }
  }

  /** The number a string of digits denotes. */
  function Meant(s: string): (n: nat)
    requires AllDigits(s)
  {
    if s == [] then 0 else 10 * Meant(s[..|s| - 1]) + (s[|s| - 1] as int - '0' as int)
  }

  lemma {:induction false} MeantIsValue(s: string)
    requires AllDigits(s) && forall c :: c in s ==> IsDigit(c)
    ensures Meant(s) == Value(s)
  {
    if s != [] { MeantIsValue(s[..|s| - 1]); }
  }

  /**
   What happens without a status, in numbers: the HTTP status if it is not 200, then
   the content type, then the close code.
   */
  lemma FallbackDecides(max: nat, es: seq<Event>, http2Error: nat)
    requires Open(es) && HeardInTrailers(es, "grpc-status").None? && ParseFrames(DataOf(es), max).fault.None?
    ensures var r := Outcome(max, es + [Close(http2Error)]);
            var line, kind := HeardInResponses(es, ":status"), Or(HeardInResponses(es, "content-type"), []);
            var http := if line.Some? then Atoi(line.value) else 0;
            && r.Some? && r.value.response == []
            && if SawResponse(es) && http != 200
               then r.value.code == HttpStatusToGrpcCode(http) && r.value.detail == BadHttpStatus(http)
               else if SawResponse(es) && !(exists rest: Text :: kind == "application/grpc" + rest)
               then Number(r.value.code) == 13 && r.value.detail == BadContentType(kind)
               else Number(r.value.code) == (if http2Error == 7 then 14 else if http2Error == 8 then 1 else 13)
                    && r.value.detail == (if http2Error == 0 then NoGrpcStatus else if http2Error == 7 then Refused
                                          else if http2Error == 8 then CancelledByServer else Reset(http2Error))
  {
    hide ParseFrames, CapturedBy, DataOf, HeardInTrailers, HeardInResponses, HeaderEvents, Atoi, IsGrpcContentType,
      HttpStatusToGrpcCode, SawResponse;
    EndDecides(max, es, http2Error);
    CapturedByHeaders(es);
    CapturedMeans(es);
    ContentTypeMeans(Or(HeardInResponses(es, "content-type"), []));
  }

  /** A content type is gRPC's when it starts so. */
  lemma ContentTypeMeans(value: Text)
    ensures IsGrpcContentType(value) <==> exists rest: Text :: value == "application/grpc" + rest
  {
    if IsGrpcContentType(value) {
      assert value == "application/grpc" + value[16..];
    }
    if rest: Text :| value == "application/grpc" + rest {
      assert value[..16] == "application/grpc";
    }
  }

  /** `atoi` reads a decimal number back, whatever blanks precede it and whatever else follows. */
  lemma {:induction false} AtoiReads(blanks: nat, n: nat, junk: string)
    requires junk == [] || !IsDigit(junk[0])
    ensures Atoi(seq(blanks, _ => ' ') + Decimal(n) + junk) == n
    decreases blanks
  {
    hide Decimal;
    var s := seq(blanks, _ => ' ') + Decimal(n) + junk;
    if blanks > 0 {
      assert s[1..] == seq(blanks - 1, _ => ' ') + Decimal(n) + junk;
      AtoiReads(blanks - 1, n, junk);
    } else {
      assert s == Decimal(n) + junk;
      AtoiOfDigits(Decimal(n), junk);
    }
  }

  lemma AtoiOfDigits(digits: string, junk: string)
    requires digits != [] && (forall c :: c in digits ==> IsDigit(c)) && (junk == [] || !IsDigit(junk[0]))
    ensures Atoi(digits + junk) == Value(digits)
  {
    hide Value, DigitRun;
    RunOfDigits(digits, junk);
    assert digits[0] in digits;
    assert (digits + junk)[..|digits|] == digits;
  }

  lemma {:induction false} RunOfDigits(digits: string, junk: string)
    requires (forall c :: c in digits ==> IsDigit(c)) && (junk == [] || !IsDigit(junk[0]))
    ensures DigitRun(digits + junk) == |digits|
    decreases |digits|
  {
    if digits == [] {
      assert digits + junk == junk;
    } else {
      assert digits[0] in digits;
      assert (digits + junk)[1..] == digits[1..] + junk;
      RunOfDigits(digits[1..], junk);
    }
  }
}
