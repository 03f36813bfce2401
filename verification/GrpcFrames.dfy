/**
 Length-prefixed messages ("Length-Prefixed-Message" in the Requests section of
 the gRPC over HTTP2 protocol): one flag byte, a four-byte big-endian length,
 then the payload. This module is the pure meaning of a byte stream; the
 incremental scanner is proved against it.
 */
module GrpcFrames {
  import opened Octets
  import opened Status

  const LENGTH_LIMIT: nat := 0x1_0000_0000

  datatype Fault = Compressed | BadFlag(flag: byte) | TooLong(length: nat, max: nat) {
    function Code(): StatusCode {
      if TooLong? then ResourceExhausted else Internal
    }

    function Text(): string {
      match this
      case Compressed => "compressed message received but compression is not supported"
      case BadFlag(flag) => "malformed gRPC message: invalid compressed flag " + Decimal(flag)
      case TooLong(length, max) =>
        "received message of " + Decimal(length) + " bytes exceeds max_receive_message_size (" + Decimal(max) + ")"
    }
  }

  /** The big-endian length in bytes 1 to 4 of a frame header. */
  function DeclaredLength(s: seq<byte>): (n: nat)
    requires |s| >= 5
    ensures n < LENGTH_LIMIT
  {
    (s[1] as int) * 0x100_0000 + (s[2] as int) * 0x1_0000 + (s[3] as int) * 0x100 + (s[4] as int)
  }

  function HeaderFault(s: seq<byte>, max: nat): (fault: Option<Fault>)
    requires |s| >= 5
  {
    if s[0] == 1 then Some(Compressed)
    else if s[0] != 0 then Some(BadFlag(s[0]))
    else if DeclaredLength(s) > max then Some(TooLong(DeclaredLength(s), max))
    else None
  }

  /**
   What is wrong with a header, in bytes and numbers: flag 1 and any other non-zero
   flag are 13, whatever the length says; a length over the limit is 8.
   */
  lemma FaultMeans(s: seq<byte>, max: nat)
    requires |s| >= 5
    ensures var length := (s[1] as int) * 0x100_0000 + (s[2] as int) * 0x1_0000 + (s[3] as int) * 0x100 + (s[4] as int);
            var fault := HeaderFault(s, max);
            && (fault.Some? <==> s[0] != 0 || length > max)
            && (s[0] == 1 ==> fault == Some(Compressed))
            && (s[0] > 1 ==> fault == Some(BadFlag(s[0])))
            && (s[0] == 0 && length > max ==> fault == Some(TooLong(length, max)))
            && (fault.Some? ==> Number(fault.value.Code()) == if s[0] != 0 then 13 else 8)
  {
  }

  /** The caller sees why. */
  lemma FaultTexts(flag: byte, length: nat, max: nat)
    ensures Compressed.Text() == "compressed message received but compression is not supported"
    ensures BadFlag(flag).Text() == "malformed gRPC message: invalid compressed flag " + Decimal(flag)
    ensures TooLong(length, max).Text() ==
            "received message of " + Decimal(length) + " bytes exceeds max_receive_message_size (" + Decimal(max) + ")"
  {
  }

  /** The messages of a stream, the unconsumed rest, and the first bad header if there is one. */
  datatype Parse = Parse(messages: seq<seq<byte>>, rest: seq<byte>, fault: Option<Fault>)

  function ParseFrames(s: seq<byte>, max: nat): (p: Parse)
    decreases |s|
  {
    if |s| < 5 then Parse([], s, None)
    else if HeaderFault(s, max).Some? then Parse([], s, HeaderFault(s, max))
    else if |s| < 5 + DeclaredLength(s) then Parse([], s, None)
    else
      var end := 5 + DeclaredLength(s);
      var tail := ParseFrames(s[end..], max);
      Parse([s[5..end]] + tail.messages, tail.rest, tail.fault)
  }

  /** No complete frame and no bad header: what a healthy scanner keeps between messages. */
  predicate Incomplete(s: seq<byte>, max: nat) {
    |s| < 5 || (HeaderFault(s, max).None? && |s| < 5 + DeclaredLength(s))
  }

  /** The five header bytes of a frame; the length is truncated to 32 bits. */
  function FramePrefix(length: nat): (s: seq<byte>)
    ensures |s| == 5
  {
    var len := length % LENGTH_LIMIT;
    [0, len / 0x100_0000, len / 0x1_0000 % 0x100, len / 0x100 % 0x100, len % 0x100]
  }

  function Frame(m: seq<byte>): (s: seq<byte>) { FramePrefix(|m|) + m }

  function Frames(ms: seq<seq<byte>>): (s: seq<byte>) {
    if ms == [] then [] else Frame(ms[0]) + Frames(ms[1..])
  }

  lemma PrefixLength(length: nat, s: seq<byte>)
    requires FramePrefix(length) <= s
    ensures DeclaredLength(s) == length % LENGTH_LIMIT && s[0] == 0
  {
    var len := length % LENGTH_LIMIT;
    var p := FramePrefix(length);
    assert s[1] == p[1] && s[2] == p[2] && s[3] == p[3] && s[4] == p[4] && s[0] == p[0];
    assert len == len / 0x100 * 0x100 + len % 0x100;
    assert len / 0x100 == len / 0x1_0000 * 0x100 + len / 0x100 % 0x100;
    assert len / 0x1_0000 == len / 0x100_0000 * 0x100 + len / 0x1_0000 % 0x100;
  }

  /** A well-formed header determines the five bytes in front of the payload. */
  lemma HeaderBytes(s: seq<byte>)
    requires |s| >= 5 && s[0] == 0
    ensures s[..5] == FramePrefix(DeclaredLength(s))
  {
    CutLength(s[1], s[2], s[3], s[4], DeclaredLength(s));
    var p := FramePrefix(DeclaredLength(s));
    assert p[0] == s[0] && p[1] == s[1] && p[2] == s[2] && p[3] == s[3] && p[4] == s[4];
  }

  /** A number below 2^32 cut into its four bytes. */
  lemma CutLength(a: int, b: int, c: int, d: int, len: int)
    requires 0 <= a < 256 && 0 <= b < 256 && 0 <= c < 256 && 0 <= d < 256
    requires len == a * 0x100_0000 + b * 0x1_0000 + c * 0x100 + d
    ensures len % LENGTH_LIMIT == len && len / 0x100_0000 == a
    ensures len / 0x1_0000 % 0x100 == b && len / 0x100 % 0x100 == c && len % 0x100 == d
  {
    DivModIs(len, 0x100_0000, a, b * 0x1_0000 + c * 0x100 + d);
    DivModIs(len, 0x1_0000, a * 0x100 + b, c * 0x100 + d);
    DivModIs(a * 0x100 + b, 0x100, a, b);
    DivModIs(len, 0x100, a * 0x1_0000 + b * 0x100 + c, d);
    DivModIs(a * 0x1_0000 + b * 0x100 + c, 0x100, a * 0x100 + b, c);
  }

  predicate Sendable(ms: seq<seq<byte>>, max: nat) {
    forall m :: m in ms ==> |m| <= max && |m| < LENGTH_LIMIT
  }

  lemma FrameParts(m: seq<byte>, tail: seq<byte>)
    requires |m| < LENGTH_LIMIT
    ensures var s := Frame(m) + tail;
            s[0] == 0 && DeclaredLength(s) == |m| && s[5..5 + |m|] == m && s[5 + |m|..] == tail
  {
    PrefixLength(|m|, Frame(m) + tail);
  }

  /** A stream that starts with a whole frame yields that frame's payload first. */
  lemma ParseOneFrame(m: seq<byte>, tail: seq<byte>, max: nat)
    requires |m| <= max && |m| < LENGTH_LIMIT
    ensures var p := ParseFrames(tail, max);
            ParseFrames(Frame(m) + tail, max) == Parse([m] + p.messages, p.rest, p.fault)
  {
    FrameParts(m, tail);
  }

  /** Parsing undoes framing, whatever incomplete frame follows. */
  lemma {:induction false} ParseOfFrames(ms: seq<seq<byte>>, rest: seq<byte>, max: nat)
    requires Sendable(ms, max) && Incomplete(rest, max)
    ensures ParseFrames(Frames(ms) + rest, max) == Parse(ms, rest, None)
    decreases |ms|
  {
    if ms == [] {
      assert Frames(ms) + rest == rest;
    } else {
      assert ms[0] in ms;
      assert Sendable(ms[1..], max) by { assert forall m :: m in ms[1..] ==> m in ms; }
      ParseOfFrames(ms[1..], rest, max);
      ParseOneFrame(ms[0], Frames(ms[1..]) + rest, max);
      Assoc(Frame(ms[0]), Frames(ms[1..]), rest);
      assert [ms[0]] + ms[1..] == ms;
    }
  }

  /** Whether the stream starts with a whole frame that has a good header. */
  predicate StartsWhole(s: seq<byte>, max: nat) {
    |s| >= 5 && HeaderFault(s, max).None? && |s| >= 5 + DeclaredLength(s)
  }

  /** A stream that starts with a whole good frame is that frame followed by the remaining bytes. */
  lemma FirstFrame(s: seq<byte>, max: nat) returns (m: seq<byte>, tail: seq<byte>)
    requires StartsWhole(s, max)
    ensures m == s[5..5 + DeclaredLength(s)] && tail == s[5 + DeclaredLength(s)..]
    ensures s == Frame(m) + tail && |m| <= max && |m| < LENGTH_LIMIT && |tail| < |s|
  {
    var end := 5 + DeclaredLength(s);
    m, tail := s[5..end], s[end..];
    HeaderBytes(s);
    assert s == s[..5] + s[5..end] + s[end..];
  }

  /** A stream that does not start with a whole good frame is left as it is. */
  lemma ParseNoFrame(s: seq<byte>, max: nat)
    requires !StartsWhole(s, max)
    ensures ParseFrames(s, max) == Parse([], s, if |s| < 5 then None else HeaderFault(s, max))
  {
  }

  /** Framing undoes parsing: no byte of a stream is dropped, moved or invented. */
  lemma {:induction false} FramesOfParse(s: seq<byte>, max: nat)
    ensures var p := ParseFrames(s, max);
            && s == Frames(p.messages) + p.rest
            && Sendable(p.messages, max)
            && (p.fault.None? ==> Incomplete(p.rest, max))
            && (p.fault.Some? ==> |p.rest| >= 5 && HeaderFault(p.rest, max) == p.fault)
    decreases |s|
  {
    if StartsWhole(s, max) {
      var m, tail := FirstFrame(s, max);
      FramesOfParse(tail, max);
      ParseOneFrame(m, tail, max);
      var p := ParseFrames(tail, max);
      assert ([m] + p.messages)[1..] == p.messages;
      Assoc(Frame(m), Frames(p.messages), p.rest);
    } else {
      ParseNoFrame(s, max);
      assert Frames([]) + s == s;
    }
  }

  /** The whole meaning of a clean stream, in both directions. */
  lemma ParseExactly(s: seq<byte>, max: nat, ms: seq<seq<byte>>, rest: seq<byte>)
    ensures ParseFrames(s, max) == Parse(ms, rest, None)
       <==> s == Frames(ms) + rest && Sendable(ms, max) && Incomplete(rest, max)
  {
    FramesOfParse(s, max);
    if s == Frames(ms) + rest && Sendable(ms, max) && Incomplete(rest, max) {
      ParseOfFrames(ms, rest, max);
    }
  }

  /** A header is judged by its five bytes alone. */
  lemma HeaderStable(s: seq<byte>, t: seq<byte>, max: nat)
    requires |s| >= 5
    ensures DeclaredLength(s + t) == DeclaredLength(s) && HeaderFault(s + t, max) == HeaderFault(s, max)
  {
    assert forall i :: 0 <= i < 5 ==> (s + t)[i] == s[i];
  }

  /** More bytes never change what was already parsed: they only continue the rest. */
  lemma {:induction false} ParseContinues(s: seq<byte>, t: seq<byte>, max: nat)
    ensures var p := ParseFrames(s, max); var q := ParseFrames(p.rest + t, max);
            && ParseFrames(s + t, max) == Parse(p.messages + q.messages, q.rest, q.fault)
            && (p.fault.Some? ==> q.fault == p.fault && q.messages == [])
    decreases |s|
  {
    if StartsWhole(s, max) {
      var m, tail := FirstFrame(s, max);
      ParseContinues(tail, t, max);
      ParseOneFrame(m, tail, max);
      ParseOneFrame(m, tail + t, max);
      Assoc(Frame(m), tail, t);
      var p := ParseFrames(tail, max);
      var q := ParseFrames(p.rest + t, max);
      Assoc([m], p.messages, q.messages);
    } else {
      ParseNoFrame(s, max);
      var q := ParseFrames(s + t, max);
      assert [] + q.messages == q.messages;
      if |s| >= 5 && HeaderFault(s, max).Some? {
        HeaderStable(s, t, max);
        ParseNoFrame(s + t, max);
      }
    }
  }
}
