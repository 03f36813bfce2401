/**
 Request headers and metadata: what BuildRequestHeaders sends, and what
 DepositMetadata would make of the caller's part if it came back.
 */
module Headers {
  import opened Octets
  import opened Status
  import opened GrpcTimeout
  import opened Base64
  import opened CallOutcome

  function Lower(c: Octet): Octet { if 'A' <= c <= 'Z' then (c as int - 'A' as int + 'a' as int) as char else c }

  function AsciiLower(s: Text): (r: Text)
    ensures |r| == |s|
  {
    seq(|s|, i requires 0 <= i < |s| => Lower(s[i]))
  }

  /** Lower-casing twice is lower-casing once. */
  lemma LowerTwice(s: Text)
    ensures AsciiLower(AsciiLower(s)) == AsciiLower(s)
  {
  }

  /** Exactly the ASCII codes of the capital letters, 65 to 90, change, each by 32. */
  lemma LowerMeans(s: Text, i: nat)
    requires i < |s|
    ensures AsciiLower(s)[i] as int == if 65 <= s[i] as int <= 90 then s[i] as int + 32 else s[i] as int
  {
  }

  predicate IsBinKey(key: Text) { |key| >= 4 && key[|key| - 4..] == "-bin" }

  predicate IsPseudo(key: Text) { key != [] && key[0] == ':' }

  /** Keys the transport owns. */
  predicate IsReserved(key: Text) {
    || IsPseudo(key)
    || key == "te" || key == "host" || key == "content-type" || key == "user-agent"
    || key == "grpc-timeout" || key == "grpc-encoding" || key == "grpc-accept-encoding"
  }

  /** A binary key is one that ends so. */
  lemma BinMeans(key: Text)
    ensures IsBinKey(key) <==> exists stem: Text :: key == stem + "-bin"
  {
    if IsBinKey(key) { assert key == key[..|key| - 4] + "-bin"; }
    if stem: Text :| key == stem + "-bin" { assert key[|key| - 4..] == "-bin"; }
  }

  // ------------------------------------------------------------ building

  function PseudoPart(authority: Text, path: Text): (hs: seq<Header>)
    ensures |hs| == 4
  {
    [Header(":method", "POST"), Header(":scheme", "https"), Header(":path", path), Header(":authority", authority)]
  }

  function UserAgent(prefix: Text): Text {
    if prefix == [] then "grpc-c++-egrpc/0.1.0" else prefix + " " + "grpc-c++-egrpc/0.1.0"
  }

  function FixedPart(prefix: Text): (hs: seq<Header>)
    ensures |hs| == 4
  {
    [Header("te", "trailers"), Header("content-type", "application/grpc"),
     Header("user-agent", UserAgent(prefix)), Header("grpc-accept-encoding", "identity")]
  }

  function TimeoutPart(timeout: Option<Text>): (hs: seq<Header>) {
    if timeout.None? then [] else [Header("grpc-timeout", timeout.value)]
  }

  /** How one metadata entry goes on the wire. */
  function OnWire(h: Header): Header {
    var key := AsciiLower(h.name);
    Header(key, if IsBinKey(key) then Encoding(h.value) else h.value)
  }

  /** The caller's entries that survive, in order. */
  function CallerPart(metadata: seq<Header>): (hs: seq<Header>) {
    if metadata == [] then []
    else
      var last := metadata[|metadata| - 1];
      CallerPart(metadata[..|metadata| - 1]) + if IsReserved(AsciiLower(last.name)) then [] else [OnWire(last)]
  }

  function Built(authority: Text, path: Text, timeout: Option<Text>, metadata: seq<Header>, prefix: Text)
    : (hs: seq<Header>)
  {
    PseudoPart(authority, path) + FixedPart(prefix) + TimeoutPart(timeout) + CallerPart(metadata)
  }

  method BuildRequestHeaders(authority: Text, path: Text, timeout: Option<int>, metadata: seq<Header>, prefix: Text)
    returns (headers: seq<Header>, text: Option<Text>, ghost chosen: Timeout)
    requires timeout.Some? ==> -INT64_LIMIT <= timeout.value < INT64_LIMIT
    ensures headers == Built(authority, path, text, metadata, prefix)
    ensures text.Some? <==> timeout.Some?
    ensures timeout.Some? ==> IsEncoding(timeout.value, chosen) && chosen.unit < 6 && chosen.value >= 0
                              && text.value == Decimal(chosen.value) + [UnitAt(chosen.unit).suffix]
    ensures timeout.Some? ==> ReadsAs(text.value, timeout.value)
  {
    hide ReadsAs, PseudoPart, FixedPart, IsReserved, IsBinKey, Encoding, AsciiLower, IsEncoding, Decimal, UnitAt;
    headers := PseudoPart(authority, path) + FixedPart(prefix);
    text, chosen := None, Timeout(1, 0);
    if timeout.Some? {
      var encoded, t := EncodeGrpcTimeout(timeout.value);
      text, chosen := Some(encoded), t;
      headers := headers + [Header("grpc-timeout", encoded)];
    }
    ghost var base := headers;
    assert base == PseudoPart(authority, path) + FixedPart(prefix) + TimeoutPart(text);
    for i := 0 to |metadata|
      invariant headers == base + CallerPart(metadata[..i])
    {
      assert metadata[..i + 1][..i] == metadata[..i];
      var key := AsciiLower(metadata[i].name);
      if !IsReserved(key) {
        var value := metadata[i].value;
        if IsBinKey(key) { value := Base64Encode(value); }
        headers := headers + [Header(key, value)];
      }
    }
    assert metadata[..|metadata|] == metadata;
  }

  // ------------------------------------------------------------ depositing

  /** What the application sees of a received value: `-bin` values decoded, undecodable ones kept raw. */
  function Exposed(h: Header): Text {
    if IsBinKey(h.name) && Decoding(h.value).Some? then Decoding(h.value).value else h.value
  }

  /** A `-bin` value is exposed decoded if it decodes; every other value, an undecodable one included, as it came. */
  lemma ExposedMeans(h: Header)
    ensures (exists stem: Text :: h.name == stem + "-bin") && Decoding(h.value).Some? ==>
              Exposed(h) == Decoding(h.value).value
    ensures !(exists stem: Text :: h.name == stem + "-bin") || Decoding(h.value).None? ==> Exposed(h) == h.value
  {
    hide Decoding, IsBinKey;
    BinMeans(h.name);
  }

  /** All values under a key, in order of arrival. */
  function ValuesOf(hs: seq<Header>, key: Text): (vs: seq<Text>) {
    if hs == [] then []
    else ValuesOf(hs[..|hs| - 1], key) + if hs[|hs| - 1].name == key then [Exposed(hs[|hs| - 1])] else []
  }

  type Multimap = map<Text, seq<Text>>

  /** A multimap keeps equal keys in insertion order. */
  function Emplace(m: Multimap, key: Text, value: Text): Multimap {
    m[key := (if key in m then m[key] else []) + [value]]
  }

  ghost predicate Holds(m: Multimap, hs: seq<Header>) {
    && (forall key :: key in m ==> m[key] == ValuesOf(hs, key) && m[key] != [])
    && (forall key :: key !in m ==> ValuesOf(hs, key) == [])
  }

  /** Storage and views are cleared first, then filled entry by entry. */
  method DepositMetadata(hs: seq<Header>, oldStorage: Multimap, oldView: Multimap)
    returns (storage: Multimap, view: Multimap)
    ensures Holds(storage, hs) && view == storage
  {
    hide Exposed, IsBinKey;
    storage, view := map[], map[];
    for i := 0 to |hs|
      invariant Holds(storage, hs[..i]) && view == storage
    {
      var value := Expose(hs[i]);
      HoldsStep(storage, hs, i);
      storage := Emplace(storage, hs[i].name, value);
      view := Emplace(view, hs[i].name, value);
    }
    assert hs[..|hs|] == hs;
  }

  method Expose(h: Header) returns (value: Text)
    ensures value == Exposed(h)
  {
    hide Decoding;
    value := h.value;
    if IsBinKey(h.name) {
      var decoded := Base64Decode(h.value);
      if decoded.Some? { value := decoded.value; }
    }
  }

  lemma HoldsStep(m: Multimap, hs: seq<Header>, i: nat)
    requires i < |hs| && Holds(m, hs[..i])
    ensures Holds(Emplace(m, hs[i].name, Exposed(hs[i])), hs[..i + 1])
  {
    hide Exposed;
    assert hs[..i + 1][..i] == hs[..i];
    var r := Emplace(m, hs[i].name, Exposed(hs[i]));
    forall key
      ensures ValuesOf(hs[..i + 1], key) == ValuesOf(hs[..i], key) + if hs[i].name == key then [Exposed(hs[i])] else []
    {
    }
  }

  // ------------------------------------------------------------ properties

  /** The caller's raw values under a lower-cased key. */
  function RawValues(metadata: seq<Header>, key: Text): (vs: seq<Text>) {
    if metadata == [] then []
    else
      var last := metadata[|metadata| - 1];
      RawValues(metadata[..|metadata| - 1], key) + if AsciiLower(last.name) == key then [last.value] else []
  }

  /**
   What one entry looks like on the wire: `-bin` values in base64 that reads back as
   the value, others as they are.
   */
  lemma WireForm(h: Header)
    ensures OnWire(h).name == AsciiLower(h.name)
    ensures (exists stem: Text :: AsciiLower(h.name) == stem + "-bin") ==>
              OnWire(h).value == Encoding(h.value) && Decoding(OnWire(h).value) == Some(h.value)
    ensures !(exists stem: Text :: AsciiLower(h.name) == stem + "-bin") ==> OnWire(h).value == h.value
  {
    hide Encoding, Decoding, AsciiLower, IsBinKey;
    BinMeans(AsciiLower(h.name));
    RoundTrip(h.value, []);
    assert Encoding(h.value) + [] == Encoding(h.value);
  }

  lemma WireRoundTrip(h: Header)
    ensures Exposed(OnWire(h)) == h.value
  {
    hide Encoding, Decoding, AsciiLower;
    RoundTrip(h.value, []);
    assert Encoding(h.value) + [] == Encoding(h.value);
  }

  /** Depositing the caller's part gives back every unreserved entry, per key and in order, with its original value. */
  lemma {:induction false} MetadataRoundTrip(metadata: seq<Header>, key: Text)
    ensures ValuesOf(CallerPart(metadata), key) == if IsReserved(key) then [] else RawValues(metadata, key)
    decreases |metadata|
  {
    hide IsReserved, Exposed, OnWire, AsciiLower, ValuesOf;
    if metadata == [] {
      NoValues(key);
    } else {
      var front, last := metadata[..|metadata| - 1], metadata[|metadata| - 1];
      MetadataRoundTrip(front, key);
      WireRoundTrip(last);
      WireName(last);
      OneMoreValue(CallerPart(front), OnWire(last), key);
      assert CallerPart(front) + [] == CallerPart(front);
    }
  }

  lemma NoValues(key: Text)
    ensures ValuesOf([], key) == []
  {
  }

  lemma OneMoreValue(hs: seq<Header>, h: Header, key: Text)
    ensures ValuesOf(hs + [h], key) == ValuesOf(hs, key) + if h.name == key then [Exposed(h)] else []
  {
    hide Exposed;
    assert (hs + [h])[..|hs + [h]| - 1] == hs;
  }

  lemma WireName(h: Header)
    ensures OnWire(h).name == AsciiLower(h.name)
  {
  }

  /** Nothing the caller sends is a transport key, and every key is lower case. */
  lemma {:induction false} CallerKeys(metadata: seq<Header>, i: nat)
    requires i < |CallerPart(metadata)|
    ensures var key := CallerPart(metadata)[i].name; !IsReserved(key) && AsciiLower(key) == key
    decreases |metadata|
  {
    hide IsReserved, AsciiLower;
    var front, last := metadata[..|metadata| - 1], metadata[|metadata| - 1];
    if i < |CallerPart(front)| {
      CallerKeys(front, i);
    } else {
      WireName(last);
      LowerTwice(last.name);
    }
  }

  /** Occurrences of a name. */
  function Count(hs: seq<Header>, key: Text): (n: nat) {
    if hs == [] then 0 else Count(hs[..|hs| - 1], key) + if hs[|hs| - 1].name == key then 1 else 0
  }

  lemma {:induction false} CountConcat(a: seq<Header>, b: seq<Header>, key: Text)
    ensures Count(a + b, key) == Count(a, key) + Count(b, key)
    decreases |b|
  {
    if b == [] {
      assert a + b == a;
    } else {
      assert (a + b)[..|a + b| - 1] == a + b[..|b| - 1];
      CountConcat(a, b[..|b| - 1], key);
    }
  }

  lemma {:induction false} CallerOwnsNone(metadata: seq<Header>, key: Text)
    requires IsReserved(key)
    ensures Count(CallerPart(metadata), key) == 0
    decreases |metadata|
  {
    hide IsReserved, AsciiLower;
    if metadata != [] {
      var front, last := metadata[..|metadata| - 1], metadata[|metadata| - 1];
      CallerOwnsNone(front, key);
      WireName(last);
      if !IsReserved(AsciiLower(last.name)) {
        CountConcat(CallerPart(front), [OnWire(last)], key);
        assert [OnWire(last)][..0] == [];
      } else {
        assert CallerPart(front) + [] == CallerPart(front);
      }
    }
  }

  /** Pseudo-headers come first, exactly four of them, and nothing after them is one. */
  lemma PseudoFirst(authority: Text, path: Text, timeout: Option<Text>, metadata: seq<Header>, prefix: Text)
    ensures var hs := Built(authority, path, timeout, metadata, prefix);
            && |hs| >= 8 && hs[..4] == PseudoPart(authority, path)
            && forall i :: 0 <= i < |hs| ==> (IsPseudo(hs[i].name) <==> i < 4)
  {
    hide IsReserved, CallerPart;
    var hs := Built(authority, path, timeout, metadata, prefix);
    var own := PseudoPart(authority, path) + FixedPart(prefix) + TimeoutPart(timeout);
    forall i | 0 <= i < |hs|
      ensures IsPseudo(hs[i].name) <==> i < 4
    {
      if i >= |own| {
        var j := i - |own|;
        CallerKeys(metadata, j);
        ReservedPseudo(CallerPart(metadata)[j].name);
      }
    }
  }

  /** The transport's own headers, each with its value, in front of everything the caller adds. */
  lemma TransportHeaders(authority: Text, path: Text, timeout: Option<Text>, metadata: seq<Header>, prefix: Text)
    ensures var hs := Built(authority, path, timeout, metadata, prefix);
            && |hs| >= 8
            && hs[0] == Header(":method", "POST") && hs[1] == Header(":scheme", "https")
            && hs[2] == Header(":path", path) && hs[3] == Header(":authority", authority)
            && hs[4] == Header("te", "trailers") && hs[5] == Header("content-type", "application/grpc")
  {
    hide CallerPart, UserAgent;
  }

  lemma OptionalHeaders(authority: Text, path: Text, timeout: Option<Text>, metadata: seq<Header>, prefix: Text)
    ensures var hs := Built(authority, path, timeout, metadata, prefix);
            && |hs| >= 8 && hs[6] == Header("user-agent", UserAgent(prefix))
            && hs[7] == Header("grpc-accept-encoding", "identity")
            && (timeout.Some? ==> |hs| >= 9 && hs[8] == Header("grpc-timeout", timeout.value))
            && hs[if timeout.Some? then 9 else 8..] == CallerPart(metadata)
  {
    hide CallerPart, UserAgent;
  }

  /** The user agent is the library's, behind whatever the channel's owner puts in front of it. */
  lemma AgentMeans(prefix: Text)
    ensures UserAgent([]) == "grpc-c++-egrpc/0.1.0"
    ensures prefix != [] ==> UserAgent(prefix) == prefix + [' '] + "grpc-c++-egrpc/0.1.0"
  {
  }

  /** The keys the caller cannot set. */
  lemma ReservedKeys(key: Text)
    ensures IsReserved(key) <==>
            || (key != [] && key[0] == ':')
            || key in ["te", "host", "content-type", "user-agent", "grpc-timeout", "grpc-encoding",
                       "grpc-accept-encoding"]
  {
  }

  lemma ReservedPseudo(key: Text)
    ensures IsPseudo(key) ==> IsReserved(key)
  {
  }

  /**
   A transport key is carried at most once, whatever the caller's metadata; a reserved key the
   transport does not set, never.
   */
  lemma TransportKeysOnce(authority: Text, path: Text, timeout: Option<Text>, metadata: seq<Header>, prefix: Text,
      key: Text)
    requires IsReserved(key)
    ensures var own := PseudoPart(authority, path) + FixedPart(prefix) + TimeoutPart(timeout);
            && Count(Built(authority, path, timeout, metadata, prefix), key) == Count(own, key) <= 1
  {
    hide IsReserved, CallerPart, PseudoPart, FixedPart;
    var own := PseudoPart(authority, path) + FixedPart(prefix) + TimeoutPart(timeout);
    CountConcat(own, CallerPart(metadata), key);
    CallerOwnsNone(metadata, key);
    OwnOnce(authority, path, timeout, prefix, key);
  }

  predicate NamesDiffer(hs: seq<Header>) { forall i, j :: 0 <= i < j < |hs| ==> hs[i].name != hs[j].name }

  lemma OwnOnce(authority: Text, path: Text, timeout: Option<Text>, prefix: Text, key: Text)
    ensures Count(PseudoPart(authority, path) + FixedPart(prefix) + TimeoutPart(timeout), key) <= 1
  {
    var own := PseudoPart(authority, path) + FixedPart(prefix) + TimeoutPart(timeout);
    hide Count, UserAgent;
    OwnNames(authority, path, timeout, prefix);
    DifferentOnce(own, key);
  }

  lemma OwnNames(authority: Text, path: Text, timeout: Option<Text>, prefix: Text)
    ensures NamesDiffer(PseudoPart(authority, path) + FixedPart(prefix) + TimeoutPart(timeout))
  {
    hide UserAgent;
    var own := PseudoPart(authority, path) + FixedPart(prefix) + TimeoutPart(timeout);
    assert |own[0].name| == 7 && own[0].name[1] == 'm';
    assert |own[1].name| == 7 && own[1].name[1] == 's';
    assert |own[2].name| == 5 && |own[3].name| == 10 && own[3].name[0] == ':';
    assert |own[4].name| == 2 && |own[5].name| == 12 && own[5].name[0] == 'c';
    assert |own[6].name| == 10 && own[6].name[0] == 'u';
    assert |own[7].name| == 20;
    assert |own| > 8 ==> |own[8].name| == 12 && own[8].name[0] == 'g';
  }

  lemma {:induction false} DifferentOnce(hs: seq<Header>, key: Text)
    requires NamesDiffer(hs)
    ensures Count(hs, key) <= 1
    ensures Count(hs, key) == 0 <==> forall i :: 0 <= i < |hs| ==> hs[i].name != key
  {
    if hs != [] {
      DifferentOnce(hs[..|hs| - 1], key);
    }
  }
}
