/**
 The outbound body of a unary request: framed once, then pulled piece by piece
 by the HTTP/2 library through a data provider that flags the end of the stream.
 */
module RequestBody {
  import opened Octets
  import opened GrpcFrames
  import opened MessageScanner

  class Stream {
    var body: seq<byte>
    var bodyOffset: nat

    ghost predicate Valid()
      reads this
    {
      bodyOffset <= |body|
    }

    constructor (body: seq<byte>)
      ensures Valid() && this.body == body && bodyOffset == 0
    {
      this.body, bodyOffset := body, 0;
    }

    /** Copies the next piece into a buffer of the given size; EOF once the body is exhausted. */
    method DataSourceRead(length: nat) returns (piece: seq<byte>, eof: bool)
      requires Valid()
      modifies `bodyOffset
      ensures Valid() && body[..bodyOffset] == old(body[..bodyOffset]) + piece
      ensures |piece| <= length && (|piece| < length ==> eof)
      ensures eof <==> bodyOffset == |body|
    {
      var remaining := |body| - bodyOffset;
      var n := if length < remaining then length else remaining;
      piece := body[bodyOffset..bodyOffset + n];
      bodyOffset := bodyOffset + n;
      eof := bodyOffset == |body|;
      assert body[..bodyOffset] == body[..old(bodyOffset)] + piece;
    }
  }

  function Sum(sizes: seq<nat>): (n: nat) {
    if sizes == [] then 0 else Sum(sizes[..|sizes| - 1]) + sizes[|sizes| - 1]
  }

  /** Serves a body through buffers of the given sizes. */
  method Serve(body: seq<byte>, sizes: seq<nat>) returns (pieces: seq<seq<byte>>, eof: bool)
    ensures |pieces| == |sizes|
    ensures Flatten(pieces) == body[..if Sum(sizes) < |body| then Sum(sizes) else |body|]
    ensures sizes != [] ==> (eof <==> Sum(sizes) >= |body|)
    ensures sizes == [] ==> !eof
  {
    var stream := new Stream(body);
    pieces, eof := [], false;
    for i := 0 to |sizes|
      invariant fresh(stream) && stream.Valid() && stream.body == body && |pieces| == i
      invariant stream.bodyOffset == if Sum(sizes[..i]) < |body| then Sum(sizes[..i]) else |body|
      invariant Flatten(pieces) == body[..stream.bodyOffset]
      invariant if i == 0 then !eof else eof <==> stream.bodyOffset == |body|
    {
      var piece, last := stream.DataSourceRead(sizes[i]);
      assert sizes[..i + 1][..i] == sizes[..i];
      assert (pieces + [piece])[..i] == pieces;
      pieces, eof := pieces + [piece], last;
    }
    assert sizes[..|sizes|] == sizes;
  }

  /**
   End to end: a request under 2^32 bytes and within the receiver's limit, framed,
   served through any buffers until EOF and fed piece by piece to a scanner, comes
   out as exactly that one message. Before EOF nothing at all comes out.
   */
  method SendAndReceive(request: seq<byte>, sizes: seq<nat>, max: nat)
    returns (messages: seq<seq<byte>>, rest: seq<byte>, fault: Option<Fault>, eof: bool)
    requires |request| < LENGTH_LIMIT && |request| <= max
    ensures fault.None?
    ensures eof <==> Sum(sizes) >= 5 + |request|
    ensures eof ==> messages == [request] && rest == []
    ensures !eof ==> messages == [] && rest == Frame(request)[..Sum(sizes)]
  {
    hide ParseFrames;
    var body := Frame(request);
    var pieces;
    pieces, eof := Serve(body, sizes);
    var accepted;
    messages, rest, fault, accepted := Reassemble(max, pieces);
    OneFramePrefix(request, |Flatten(pieces)|, max);
  }

  /** A proper prefix of one good frame is an incomplete frame; the whole frame is its message. */
  lemma OneFramePrefix(m: seq<byte>, n: nat, max: nat)
    requires |m| < LENGTH_LIMIT && |m| <= max && n <= 5 + |m|
    ensures ParseFrames(Frame(m)[..n], max) ==
            if n == 5 + |m| then Parse([m], [], None) else Parse([], Frame(m)[..n], None)
  {
    hide ParseFrames;
    var s := Frame(m)[..n];
    if n == 5 + |m| {
      assert s == Frames([m]) + [];
      ParseOfFrames([m], [], max);
    } else {
      if n >= 5 {
        PrefixLength(|m|, s);
      }
      assert s == Frames([]) + s;
      ParseOfFrames([], s, max);
    }
  }

  /** The frame of a payload stands for that payload exactly when its length fits 32 bits and the limit. */
  lemma FrameMeansPayload(m: seq<byte>, max: nat)
    ensures ParseFrames(Frame(m), max) == Parse([m], [], None) <==> |m| < LENGTH_LIMIT && |m| <= max
  {
    hide ParseFrames;
    FramesOfParse(Frame(m), max);
    if ParseFrames(Frame(m), max) == Parse([m], [], None) {
      assert m in [m];
    }
    if |m| < LENGTH_LIMIT && |m| <= max {
      OneFramePrefix(m, 5 + |m|, max);
      assert Frame(m)[..5 + |m|] == Frame(m);
    }
  }
}
