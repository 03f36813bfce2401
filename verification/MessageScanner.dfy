/**
 The incremental length-prefix scanner: an accumulation buffer with a read
 offset, validated on arrival and compacted lazily. Its history fields record
 what it was offered and what it handed out, and `Valid` ties both to the pure
 parse of the whole stream, so every interleaving of `Feed` and `Next` is covered.
 */
module MessageScanner {
  import opened Octets
  import opened GrpcFrames

  const COMPACT_AT: nat := 65536

  /** Not failed: what was handed out plus what the buffer still means is the whole parse. */
  ghost predicate Agrees(offered: seq<byte>, unread: seq<byte>, delivered: seq<seq<byte>>, max: nat) {
    var all := ParseFrames(offered, max);
    var now := ParseFrames(unread, max);
    && all.fault.None? && now.fault.None?
    && all.messages == delivered + now.messages
    && all.rest == now.rest
  }

  /** Failed: the verdict is that of the first bad header of everything offered. */
  ghost predicate Poisoned(offered: seq<byte>, delivered: seq<seq<byte>>, fault: Option<Fault>, max: nat) {
    var all := ParseFrames(offered, max);
    all.fault == fault && delivered <= all.messages
  }

  /** The header walk of `Feed`: the first bad header among the frames now buffered. */
  method FirstFault(buf: seq<byte>, pos: nat, max: nat) returns (fault: Option<Fault>)
    requires pos <= |buf|
    ensures fault == ParseFrames(buf[pos..], max).fault
  {
    var offset := pos;
    while |buf| - offset >= 5
      invariant pos <= offset <= |buf|
      invariant ParseFrames(buf[offset..], max).fault == ParseFrames(buf[pos..], max).fault
      decreases |buf| - offset
    {
      var here := buf[offset..];
      var flag, length := here[0], DeclaredLength(here);
      if flag == 1 { return Some(Compressed); }
      if flag != 0 { return Some(BadFlag(flag)); }
      if length > max { return Some(TooLong(length, max)); }
      if |buf| - offset < 5 + length { return None; }
      assert here[5 + length..] == buf[offset + 5 + length..];
      offset := offset + 5 + length;
    }
    fault := None;
  }

  class GrpcMessageScanner {
    const max: nat
    var buf: seq<byte>
    var pos: nat
    var fault: Option<Fault>    // failed, error_code and error: the fault gives code and wording

    ghost var offered: seq<byte>
    ghost var delivered: seq<seq<byte>>
    ghost var consumed: nat     // bytes handed out, headers included
    ghost var moved: nat        // bytes shifted down by compaction
    ghost var compactions: nat

    ghost predicate Valid()
      reads this
    {
      && pos <= |buf|
      && (Failed() ==> Poisoned(offered, delivered, fault, max))
      && (!Failed() ==> Agrees(offered, buf[pos..], delivered, max) && consumed + (|buf| - pos) == |offered|)
      && Frugal()
    }

    /** Memory and copying: dead bytes stay below the bound, and compaction is paid for by consumption. */
    ghost predicate Frugal()
      reads this
    {
      && (pos < COMPACT_AT || pos < |buf| - pos)
      && moved + pos <= consumed + compactions
    }

    predicate Failed()
      reads this
    {
      fault.Some?
    }

    ghost function Unread(): (s: seq<byte>)
      requires pos <= |buf|
      reads this
    {
      buf[pos..]
    }

    constructor (max: nat)
      ensures Valid() && this.max == max && !Failed()
      ensures offered == [] && delivered == [] && buf == [] && pos == 0
      ensures consumed == moved == compactions == 0
    {
      this.max := max;
      buf, pos, fault := [], 0, None;
      offered, delivered := [], [];
      consumed, moved, compactions := 0, 0, 0;
    }

    /** Accepts a chunk unless the scanner failed before or some header in it is bad. */
    method Feed(data: seq<byte>) returns (ok: bool)
      requires Valid()
      modifies this
      ensures Valid() && ok == !Failed()
      ensures old(Failed()) ==> unchanged(this)
      ensures delivered == old(delivered) && consumed == old(consumed)
      ensures moved == old(moved) && compactions == old(compactions)
      ensures !old(Failed()) ==> offered == old(offered) + data && Unread() == old(Unread()) + data
      ensures !old(Failed()) ==> fault == ParseFrames(offered, max).fault
    {
      hide ParseFrames;
      if Failed() { return false; }
      FedParse(offered, buf[pos..], data, delivered, max);
      assert (buf + data)[pos..] == buf[pos..] + data;
      buf := buf + data;
      offered := offered + data;
      fault := FirstFault(buf, pos, max);
      return fault.None?;
    }

    /** Hands out the next complete message; no message is ever a protocol error here. */
    method Next() returns (ok: bool, message: seq<byte>)
      requires Valid()
      modifies this
      ensures Valid() && fault == old(fault) && offered == old(offered)
      ensures !ok ==> unchanged(this)
      ensures Failed() ==> !ok
      ensures !Failed() ==> (ok <==> ParseFrames(old(Unread()), max).messages != [])
      ensures ok ==> message == ParseFrames(old(Unread()), max).messages[0]
      ensures ok ==> delivered == old(delivered) + [message]
      ensures ok ==> |Unread()| < |old(Unread())|
      ensures moved >= old(moved) && compactions >= old(compactions)
    {
      hide ParseFrames;
      if Failed() { return false, []; }
      var available := |buf| - pos;
      if available < 5 {
        ParseNoFrame(buf[pos..], max);
        return false, [];
      }
      var length := DeclaredLength(buf[pos..]);
      if available < 5 + length {
        ParseNoFrame(buf[pos..], max);
        return false, [];
      }
      message := buf[pos + 5..pos + 5 + length];
      ghost var unread := buf[pos..];
      TakenParse(unread, delivered, offered, max);
      assert unread[5..5 + length] == message && unread[5 + length..] == buf[pos + 5 + length..];
      pos := pos + 5 + length;
      delivered := delivered + [message];
      consumed := consumed + 5 + length;
      Compact();
      return true, message;
    }

    /** The tail of `Next`: drop an exhausted buffer, or shift down once the dead prefix dominates. */
    method Compact()
      requires pos <= |buf| && moved + pos <= consumed + compactions
      modifies `buf, `pos, `moved, `compactions
      ensures pos <= |buf| && buf[pos..] == old(buf[pos..]) && Frugal()
      ensures moved >= old(moved) && compactions >= old(compactions)
    {
      if pos == |buf| {
        buf, pos := [], 0;
      } else if pos >= COMPACT_AT && pos >= |buf| / 2 {
        moved, compactions := moved + (|buf| - pos), compactions + 1;
        buf, pos := buf[pos..], 0;
      }
    }

    method HasPartialMessage() returns (partial: bool)
      requires Valid()
      ensures partial <==> Unread() != []
    {
      partial := |buf| > pos;
    }
  }

  /** Accepting a chunk continues both the whole stream and the unread part in the same way. */
  lemma FedParse(offered: seq<byte>, unread: seq<byte>, data: seq<byte>, delivered: seq<seq<byte>>, max: nat)
    requires var all := ParseFrames(offered, max); var now := ParseFrames(unread, max);
             all.messages == delivered + now.messages && all.rest == now.rest
    ensures var all := ParseFrames(offered + data, max); var now := ParseFrames(unread + data, max);
            && all.fault == now.fault && all.rest == now.rest
            && all.messages == delivered + now.messages
  {
    ParseContinues(offered, data, max);
    ParseContinues(unread, data, max);
    Assoc(delivered, ParseFrames(unread, max).messages,
          ParseFrames(ParseFrames(unread, max).rest + data, max).messages);
  }

  /** Taking the first whole frame moves one message from the unread side to the delivered side. */
  lemma TakenParse(unread: seq<byte>, delivered: seq<seq<byte>>, offered: seq<byte>, max: nat)
    requires |unread| >= 5 + (if |unread| < 5 then 0 else DeclaredLength(unread))
    requires Agrees(offered, unread, delivered, max)
    ensures var end := 5 + DeclaredLength(unread);
            var now := ParseFrames(unread, max); var later := ParseFrames(unread[end..], max);
            && now.messages == [unread[5..end]] + later.messages
            && Agrees(offered, unread[end..], delivered + [unread[5..end]], max)
  {
    if !StartsWhole(unread, max) { ParseNoFrame(unread, max); }
    var m, tail := FirstFrame(unread, max);
    ParseOneFrame(m, tail, max);
    Assoc(delivered, [m], ParseFrames(tail, max).messages);
  }

  ghost predicate Drained(scanner: GrpcMessageScanner)
    requires scanner.Valid()
    reads scanner
  {
    ParseFrames(scanner.Unread(), scanner.max).messages == []
  }

  /** Calls `Next` until it refuses: everything complete is handed out, in order. */
  method Drain(scanner: GrpcMessageScanner) returns (messages: seq<seq<byte>>)
    requires scanner.Valid()
    modifies scanner
    ensures scanner.Valid() && scanner.fault == old(scanner.fault) && scanner.offered == old(scanner.offered)
    ensures scanner.Failed() ==> messages == []
    ensures !scanner.Failed() ==> Drained(scanner)
    ensures scanner.delivered == old(scanner.delivered) + messages
  {
    hide ParseFrames;
    messages := [];
    var ok, message := scanner.Next();
    while ok
      invariant scanner.Valid() && scanner.fault == old(scanner.fault) && scanner.offered == old(scanner.offered)
      invariant ok ==> !scanner.Failed() && scanner.delivered == old(scanner.delivered) + messages + [message]
      invariant !ok ==> scanner.delivered == old(scanner.delivered) + messages
      invariant !ok && !scanner.Failed() ==> Drained(scanner)
      invariant scanner.Failed() ==> messages == []
      decreases |scanner.Unread()| + if ok then 1 else 0
    {
      messages := messages + [message];
      ok, message := scanner.Next();
    }
  }

  /** A drained healthy scanner has handed out exactly the parse of all it was offered. */
  lemma DrainedMeans(scanner: GrpcMessageScanner)
    requires scanner.Valid() && !scanner.Failed() && Drained(scanner)
    ensures ParseFrames(scanner.offered, scanner.max) == Parse(scanner.delivered, scanner.Unread(), None)
  {
    hide ParseFrames;
    FramesOfParse(scanner.Unread(), scanner.max);
    assert Frames([]) + scanner.Unread() == scanner.Unread();
    assert scanner.delivered + [] == scanner.delivered;
  }

  /** Memory after a drain, and the cost of compaction over the scanner's whole life. */
  lemma DrainedBounds(scanner: GrpcMessageScanner)
    requires scanner.Valid() && !scanner.Failed() && Drained(scanner)
    ensures var r := |scanner.Unread()|;
            && r <= scanner.max + 4
            && |scanner.buf| < r + (if r < 65536 then 65536 else r)
            && scanner.moved <= scanner.consumed + scanner.compactions
  {
    hide ParseFrames;
    FramesOfParse(scanner.Unread(), scanner.max);
    assert Frames([]) + scanner.Unread() == scanner.Unread();
  }

  /**
   The receive path of one call: every chunk is fed and then drained, until a
   chunk is refused. Whatever the chunking, the outcome is that of parsing the
   concatenation; on a fault, the messages of the refused chunk are lost and
   those of the chunks before it are kept.
   */
  method Reassemble(max: nat, chunks: seq<seq<byte>>)
    returns (messages: seq<seq<byte>>, rest: seq<byte>, fault: Option<Fault>, accepted: nat)
    ensures var whole := ParseFrames(Flatten(chunks), max);
            && fault == whole.fault
            && messages <= whole.messages
            && (fault.None? ==> messages == whole.messages && rest == whole.rest && accepted == |chunks|)
    ensures accepted <= |chunks| && messages == ParseFrames(Flatten(chunks[..accepted]), max).messages
    ensures fault.Some? ==>
              && accepted < |chunks|
              && ParseFrames(Flatten(chunks[..accepted]), max).fault.None?
              && ParseFrames(Flatten(chunks[..accepted + 1]), max).fault == fault
    ensures fault.None? ==> |rest| <= max + 4
  {
    hide ParseFrames;
    var scanner := new GrpcMessageScanner(max);
    messages, accepted := [], 0;
    EmptyParse(max);
    while accepted < |chunks|
      invariant accepted <= |chunks| && fresh(scanner)
      invariant scanner.Valid() && scanner.max == max && !scanner.Failed() && Drained(scanner)
      invariant scanner.offered == Flatten(chunks[..accepted]) && scanner.delivered == messages
    {
      FlattenStep(chunks, accepted);
      DrainedMeans(scanner);
      var ok := scanner.Feed(chunks[accepted]);
      if !ok {
        rest, fault := [], scanner.fault;
        FaultStays(chunks, accepted + 1, max);
        FlattenPrefix(chunks, accepted, max);
        return;
      }
      var more := Drain(scanner);
      messages := messages + more;
      accepted := accepted + 1;
    }
    assert chunks[..accepted] == chunks;
    DrainedMeans(scanner);
    DrainedBounds(scanner);
    rest, fault := scanner.buf[scanner.pos..], None;
  }

  lemma EmptyParse(max: nat)
    ensures ParseFrames([], max) == Parse([], [], None)
  {
  }

  /** Once a prefix of the chunks is bad, all of them are, for the same reason. */
  lemma FaultStays(chunks: seq<seq<byte>>, n: nat, max: nat)
    requires n <= |chunks| && ParseFrames(Flatten(chunks[..n]), max).fault.Some?
    ensures ParseFrames(Flatten(chunks), max).fault == ParseFrames(Flatten(chunks[..n]), max).fault
  {
    hide ParseFrames;
    FlattenSplit(chunks[..n], chunks[n..]);
    assert chunks[..n] + chunks[n..] == chunks;
    ParseContinues(Flatten(chunks[..n]), Flatten(chunks[n..]), max);
  }

  lemma FlattenPrefix(chunks: seq<seq<byte>>, n: nat, max: nat)
    requires n <= |chunks|
    ensures ParseFrames(Flatten(chunks[..n]), max).messages <= ParseFrames(Flatten(chunks), max).messages
  {
    hide ParseFrames;
    FlattenSplit(chunks[..n], chunks[n..]);
    assert chunks[..n] + chunks[n..] == chunks;
    ParseContinues(Flatten(chunks[..n]), Flatten(chunks[n..]), max);
  }
}
