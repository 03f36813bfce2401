/**
 Base64 for `-bin` metadata (section 4 of RFC 4648): encoding without padding,
 decoding that tolerates padding and runs on a 32-bit accumulator that wraps.
 The meaning of both is given character by character.
 */
module Base64 {
  import opened Octets

  const WORD: int := 0x1_0000_0000

  // ------------------------------------------------------------ the alphabet

  /** Entry v of the alphabet table. */
  function CharOf(v: int): (c: Octet)
    requires 0 <= v < 64
  {
    if v < 26 then 'A' + v as char
    else if v < 52 then 'a' + (v - 26) as char
    else if v < 62 then '0' + (v - 52) as char
    else if v == 62 then '+' else '/'
  }

  /** `Base64Value`: -1 outside the alphabet. */
  function ValueOf(c: char): (v: int)
    ensures -1 <= v < 64
  {
    if 'A' <= c <= 'Z' then c as int - 'A' as int
    else if 'a' <= c <= 'z' then c as int - 'a' as int + 26
    else if '0' <= c <= '9' then c as int - '0' as int + 52
    else if c == '+' then 62
    else if c == '/' then 63
    else -1
  }

  lemma AlphabetInverse(v: int)
    requires 0 <= v < 64
    ensures ValueOf(CharOf(v)) == v && CharOf(v) != '='
  {
  }

  /** The table itself (table 1 of RFC 4648), in ASCII codes: A to Z, a to z, 0 to 9, plus, slash. */
  lemma Alphabet(v: int)
    requires 0 <= v < 64
    ensures CharOf(v) as int ==
            if v < 26 then 65 + v else if v < 52 then 97 + (v - 26) else if v < 62 then 48 + (v - 52)
            else if v == 62 then 43 else 47
  {
  }

  lemma ValueInverse(c: char)
    requires ValueOf(c) >= 0
    ensures CharOf(ValueOf(c)) == c
  {
  }

  // ------------------------------------------------------------ meaning

  /** Byte i of a string, or 0 past its end. */
  function At(s: Text, i: nat): (b: byte) { if i < |s| then s[i] as int else 0 }

  /** The six bits that character j of the encoding stands for. */
  function Sextet(s: Text, j: nat): (v: int)
    ensures 0 <= v < 64
  {
    var g := j / 4 * 3;
    var a, b, c := At(s, g) as int, At(s, g + 1) as int, At(s, g + 2) as int;
    if j % 4 == 0 then a / 4
    else if j % 4 == 1 then a % 4 * 16 + b / 16
    else if j % 4 == 2 then b % 16 * 4 + c / 64
    else c % 64
  }

  /** Four thirds of the length, rounded up. */
  function EncodedLength(n: nat): nat { (4 * n + 2) / 3 }

  function Encoding(s: Text): (r: Text)
    ensures |r| == EncodedLength(|s|)
  {
    seq(EncodedLength(|s|), j requires 0 <= j => CharOf(Sextet(s, j)))
  }

  function Val(s: Text, i: nat): (v: int)
    ensures -1 <= v < 64
  {
    if i < |s| then ValueOf(s[i]) else 0
  }

  /** The byte that the characters around position 4k/3 stand for. */
  function OctetOf(s: Text, k: nat): (b: int)
  {
    var g := k / 3 * 4;
    var a, b, c, d := Val(s, g), Val(s, g + 1), Val(s, g + 2), Val(s, g + 3);
    if k % 3 == 0 then a * 4 + b / 16
    else if k % 3 == 1 then b % 16 * 16 + c / 4
    else c % 4 * 64 + d
  }

  predicate InAlphabet(s: Text) { forall i :: 0 <= i < |s| ==> ValueOf(s[i]) >= 0 }

  /** Whatever number of '=' ends the string is dropped. */
  function Strip(s: Text): (r: Text)
    ensures r <= s && (r != [] ==> r[|r| - 1] != '=')
  {
    if s != [] && s[|s| - 1] == '=' then Strip(s[..|s| - 1]) else s
  }

  function Decoding(s: Text): (r: Option<Text>)
    ensures r.Some? <==> InAlphabet(Strip(s)) && |Strip(s)| % 4 != 1
    ensures r.Some? ==> |r.value| == 3 * |Strip(s)| / 4
  {
    var t := Strip(s);
    if InAlphabet(t) && |t| % 4 != 1 then Some(BytesOf(t, 3 * |t| / 4)) else None
  }

  /** The first n bytes a string over the alphabet stands for. */
  function BytesOf(t: Text, n: nat): (r: Text)
    requires InAlphabet(t) && 4 * n <= 3 * |t|
    ensures |r| == n
    ensures forall k :: 0 <= k < n ==> 0 <= OctetOf(t, k) < 256 && r[k] == OctetOf(t, k) as char
  {
    seq(n, k requires 0 <= k < n => OctetRange(t, k); OctetOf(t, k) as char)
  }

  lemma OctetRange(t: Text, k: nat)
    requires InAlphabet(t)
    ensures 0 <= OctetOf(t, k) < 256
  {
    var g := k / 3 * 4;
    assert forall i: nat :: 0 <= Val(t, i) < 64;
  }

  // ------------------------------------------------------------ encoder

  lemma EncodingAt(s: Text, j: nat)
    requires j < EncodedLength(|s|)
    ensures Encoding(s)[j] == CharOf(Sextet(s, j))
  {
  }

  /** The characters so far are the right ones. */
  ghost predicate EncodedSoFar(s: Text, out: Text) {
    forall j :: 0 <= j < |out| ==> out[j] == CharOf(Sextet(s, j))
  }

  lemma AppendGroup(s: Text, out: Text, group: Text)
    requires EncodedSoFar(s, out)
    requires forall k :: 0 <= k < |group| ==> group[k] == CharOf(Sextet(s, |out| + k))
    ensures EncodedSoFar(s, out + group)
  {
    hide CharOf, Sextet;
  }

  /** The four characters of the 24-bit group v. */
  function GroupChars(v: int): (g: Text)
    requires v >= 0
    ensures |g| == 4
  {
    [CharOf(v / 0x4_0000 % 64), CharOf(v / 0x1000 % 64), CharOf(v / 64 % 64), CharOf(v % 64)]
  }

  /** Group g: bytes 3g to 3g + 2 become characters 4g to 4g + 3. */
  lemma GroupIsRight(s: Text, g: nat, v: int)
    requires v == At(s, 3 * g) * 0x1_0000 + At(s, 3 * g + 1) * 0x100 + At(s, 3 * g + 2)
    ensures v >= 0 && forall k :: 0 <= k < 4 ==> GroupChars(v)[k] == CharOf(Sextet(s, 4 * g + k))
  {
    hide CharOf, Sextet;
    GroupBits(s, g, v);
  }

  /** The encoder: whole groups of three bytes, then the one or two left over. */
  method Base64Encode(s: Text) returns (out: Text)
    ensures out == Encoding(s)
  {
    hide Encoding, CharOf, Sextet, GroupChars, EncodedSoFar, EncodedLength;
    out := [];
    NoneEncoded(s);
    var i := 0;
    ghost var g := 0;
    while i + 3 <= |s|
      invariant 0 <= i <= |s| && i == 3 * g
      invariant |out| == 4 * g && EncodedSoFar(s, out)
    {
      var v := (s[i] as int) * 0x1_0000 + (s[i + 1] as int) * 0x100 + (s[i + 2] as int);
      GroupIsRight(s, g, v);
      AppendGroup(s, out, GroupChars(v));
      out := out + GroupChars(v);
      i, g := i + 3, g + 1;
    }
    var rest := |s| - i;
    LengthOf(g, rest);
    if rest == 1 {
      var v := (s[i] as int) * 0x1_0000;
      GroupIsRight(s, g, v);
      AppendGroup(s, out, GroupChars(v)[..2]);
      out := out + GroupChars(v)[..2];
    } else if rest == 2 {
      var v := (s[i] as int) * 0x1_0000 + (s[i + 1] as int) * 0x100;
      GroupIsRight(s, g, v);
      AppendGroup(s, out, GroupChars(v)[..3]);
      out := out + GroupChars(v)[..3];
    }
    Whole(s, out);
  }

  lemma LengthOf(g: nat, rest: nat)
    requires rest < 3
    ensures EncodedLength(3 * g + rest) == 4 * g + if rest == 0 then 0 else rest + 1
  {
  }

  lemma NoneEncoded(s: Text)
    ensures EncodedSoFar(s, [])
  {
  }

  lemma Whole(s: Text, out: Text)
    requires |out| == EncodedLength(|s|) && EncodedSoFar(s, out)
    ensures out == Encoding(s)
  {
    hide CharOf, Sextet;
  }

  /** The 24 bits of group g, cut into its four sextets. */
  lemma GroupBits(s: Text, g: nat, v: int)
    requires v == At(s, 3 * g) * 0x1_0000 + At(s, 3 * g + 1) * 0x100 + At(s, 3 * g + 2)
    ensures && v / 0x4_0000 % 64 == Sextet(s, 4 * g) && v / 0x1000 % 64 == Sextet(s, 4 * g + 1)
            && v / 64 % 64 == Sextet(s, 4 * g + 2) && v % 64 == Sextet(s, 4 * g + 3)
  {
    DivModIs(4 * g, 4, g, 0);
    DivModIs(4 * g + 1, 4, g, 1);
    DivModIs(4 * g + 2, 4, g, 2);
    DivModIs(4 * g + 3, 4, g, 3);
    CutGroup(At(s, 3 * g), At(s, 3 * g + 1), At(s, 3 * g + 2), v);
  }

  /** Four characters carry the three bytes of their group as one 24-bit number, most significant bits first. */
  lemma GroupNumber(s: Text, g: nat)
    ensures Sextet(s, 4 * g) * 0x4_0000 + Sextet(s, 4 * g + 1) * 0x1000
            + Sextet(s, 4 * g + 2) * 64 + Sextet(s, 4 * g + 3)
            == At(s, 3 * g) * 0x1_0000 + At(s, 3 * g + 1) * 0x100 + At(s, 3 * g + 2)
  {
    var a, b, c := At(s, 3 * g) as int, At(s, 3 * g + 1) as int, At(s, 3 * g + 2) as int;
    DivModIs(4 * g, 4, g, 0);
    DivModIs(4 * g + 1, 4, g, 1);
    DivModIs(4 * g + 2, 4, g, 2);
    DivModIs(4 * g + 3, 4, g, 3);
    assert a == a / 4 * 4 + a % 4 && b == b / 16 * 16 + b % 16 && c == c / 64 * 64 + c % 64;
  }

  lemma CutGroup(a: int, b: int, c: int, v: int)
    requires 0 <= a < 256 && 0 <= b < 256 && 0 <= c < 256 && v == a * 0x1_0000 + b * 0x100 + c
    ensures v / 0x4_0000 % 64 == a / 4
    ensures v / 0x1000 % 64 == a % 4 * 16 + b / 16
    ensures v / 64 % 64 == b % 16 * 4 + c / 64
    ensures v % 64 == c % 64
  {
    var a1, a0, b1, b0, c1, c0 := a / 4, a % 4, b / 16, b % 16, c / 64, c % 64;
    DivModIs(v, 0x4_0000, a1, a0 * 0x1_0000 + b * 0x100 + c);
    DivModIs(v, 0x1000, a * 16 + b1, b0 * 0x100 + c);
    DivModIs(a * 16 + b1, 64, a1, a0 * 16 + b1);
    DivModIs(v, 64, a * 0x400 + b * 4 + c1, c0);
    DivModIs(a * 0x400 + b * 4 + c1, 64, a * 16 + b1, b0 * 4 + c1);
  }

  // ------------------------------------------------------------ decoder

  /** Shifting in six bits: only the low 32 bits of the accumulator survive. */
  function ShiftIn(acc: int, v: int): int { acc * 64 % WORD + v }

  /** The wrap never reaches the bits that are still to be read out. */
  lemma WrapIsHarmless(acc: int, v: int)
    requires 0 <= acc < WORD && 0 <= v < 64
    ensures 0 <= ShiftIn(acc, v) < WORD
    ensures ShiftIn(acc, v) % 64 == v
    ensures ShiftIn(acc, v) % 0x1000 == acc % 64 * 64 + v
  {
    var q := acc * 64 / WORD;
    assert acc * 64 % WORD == acc * 64 - q * WORD;
  }

  /** Eight bits are complete: the byte is made of what was left over and the top of what came in. */
  lemma ReadOut(acc: int, v: int, a: int)
    requires 0 <= acc < WORD && 0 <= v < 64 && 0 <= a < 64
    ensures acc % 64 == a ==> ShiftIn(acc, v) / 16 % 256 == a * 4 + v / 16
    ensures acc % 16 == a % 16 ==> ShiftIn(acc, v) / 4 % 256 == a % 16 * 16 + v / 4
    ensures acc % 4 == a % 4 ==> ShiftIn(acc, v) % 256 == a % 4 * 64 + v
  {
    hide ShiftIn;
    WrapIsHarmless(acc, v);
    var w, x := ShiftIn(acc, v), acc % 64;
    var q := w / 0x1000;
    assert w == q * 0x1000 + x * 64 + v;
    ReadSix(w, q, x, v);
    ReadFour(w, q, x, v);
    ReadTwo(w, q, x, v);
    SameLowBits(acc);
  }

  lemma SameLowBits(acc: int)
    ensures acc % 64 % 16 == acc % 16 && acc % 64 % 4 == acc % 4
  {
    var q, x := acc / 64, acc % 64;
    DivModIs(acc, 16, 4 * q + x / 16, x % 16);
    DivModIs(acc, 4, 16 * q + x / 4, x % 4);
  }

  lemma ReadSix(w: int, q: int, x: int, v: int)
    requires 0 <= x < 64 && 0 <= v < 64 && w == q * 0x1000 + x * 64 + v
    ensures w / 16 % 256 == x * 4 + v / 16
  {
    var b := x * 4 + v / 16;
    DivModIs(w, 16, q * 256 + b, v % 16);
    DivModIs(q * 256 + b, 256, q, b);
  }

  lemma ReadFour(w: int, q: int, x: int, v: int)
    requires 0 <= x < 64 && 0 <= v < 64 && w == q * 0x1000 + x * 64 + v
    ensures w / 4 % 256 == x % 16 * 16 + v / 4
  {
    var b := x % 16 * 16 + v / 4;
    DivModIs(w, 4, (q * 4 + x / 16) * 256 + b, v % 4);
    DivModIs((q * 4 + x / 16) * 256 + b, 256, q * 4 + x / 16, b);
  }

  lemma ReadTwo(w: int, q: int, x: int, v: int)
    requires 0 <= x < 64 && 0 <= v < 64 && w == q * 0x1000 + x * 64 + v
    ensures w % 256 == x % 4 * 64 + v
  {
    DivModIs(w, 256, q * 16 + x / 4, x % 4 * 64 + v);
  }

  function Pow2(bits: int): int {
    if bits == 0 then 1 else if bits == 2 then 4 else if bits == 4 then 16 else 64
  }

  /** Between characters: how many bits are left over, and that they are the last character's low bits. */
  ghost predicate Carries(t: Text, i: nat, acc: int, bits: int) {
    && 0 <= acc < WORD
    && bits == (if i % 4 == 0 then 0 else if i % 4 == 1 then 6 else if i % 4 == 2 then 4 else 2)
    && (i % 4 != 0 ==> acc % Pow2(bits) == Val(t, i - 1) % Pow2(bits))
  }

  method Base64Decode(s: Text) returns (r: Option<Text>)
    ensures r == Decoding(s)
  {
    hide OctetOf, Strip, Carries;
    var len := StripLength(s);
    if len % 4 == 1 { return None; }
    var t := s[..len];
    var out: Text := [];
    var acc, bits := 0, 0;
    NothingCarried(t);
    for i := 0 to len
      invariant forall k :: 0 <= k < i ==> ValueOf(t[k]) >= 0
      invariant Carries(t, i, acc, bits) && |out| == 3 * i / 4
      invariant forall k :: 0 <= k < |out| ==> 0 <= OctetOf(t, k) < 256 && out[k] == OctetOf(t, k) as char
    {
      var v := ValueOf(t[i]);
      if v < 0 { return None; }
      OneCharacter(t, i, acc, bits);
      acc := ShiftIn(acc, v);
      bits := bits + 6;
      if bits >= 8 {
        bits := bits - 8;
        out := out + [(acc / Pow2(bits) % 256) as char];
      }
    }
    r := Some(out);
    assert out == BytesOf(t, 3 * |t| / 4);
  }

  /** The loop that drops trailing '='. */
  method StripLength(s: Text) returns (len: nat)
    ensures len <= |s| && s[..len] == Strip(s)
  {
    len := |s|;
    assert s[..len] == s;
    while len > 0 && s[len - 1] == '='
      invariant len <= |s| && Strip(s[..len]) == Strip(s)
    {
      assert s[..len][..len - 1] == s[..len - 1];
      len := len - 1;
    }
  }

  lemma NothingCarried(t: Text)
    ensures Carries(t, 0, 0, 0)
  {
  }

  /** One turn of the decoder: what is carried on, and the byte that comes out of every turn but the first of four. */
  lemma OneCharacter(t: Text, i: nat, acc: int, bits: int)
    requires i < |t| && ValueOf(t[i]) >= 0 && Carries(t, i, acc, bits)
    requires i % 4 != 0 ==> Val(t, i - 1) >= 0
    ensures var next := ShiftIn(acc, ValueOf(t[i]));
            if i % 4 == 0 then bits == 0 && Carries(t, i + 1, next, 6) && 3 * (i + 1) / 4 == 3 * i / 4
            else && bits + 6 >= 8 && Carries(t, i + 1, next, bits - 2)
                 && 3 * (i + 1) / 4 == 3 * i / 4 + 1
                 && OctetOf(t, 3 * i / 4) == next / Pow2(bits - 2) % 256
  {
    hide ShiftIn, ValueOf, OctetOf, Carries, Pow2;
    CarriesOn(t, i, acc, bits);
    if i % 4 != 0 {
      EmitsByte(t, i, acc, bits);
    } else {
      var m := i / 4;
      DivModIs(3 * i, 4, 3 * m, 0);
      DivModIs(3 * (i + 1), 4, 3 * m, 3);
    }
  }

  lemma CarriesOn(t: Text, i: nat, acc: int, bits: int)
    requires i < |t| && ValueOf(t[i]) >= 0 && Carries(t, i, acc, bits)
    ensures Carries(t, i + 1, ShiftIn(acc, ValueOf(t[i])), if i % 4 == 0 then 6 else bits - 2)
    ensures if i % 4 == 0 then bits == 0 else bits >= 2
  {
    hide ShiftIn, ValueOf;
    var v := ValueOf(t[i]);
    WrapIsHarmless(acc, v);
    LowBits(ShiftIn(acc, v), v);
    NextOfFour(i);
  }

  lemma NextOfFour(i: nat)
    ensures (i + 1) % 4 == if i % 4 == 3 then 0 else i % 4 + 1
  {
  }

  lemma EmitsByte(t: Text, i: nat, acc: int, bits: int)
    requires i < |t| && ValueOf(t[i]) >= 0 && Carries(t, i, acc, bits) && i % 4 != 0 && Val(t, i - 1) >= 0
    ensures 3 * (i + 1) / 4 == 3 * i / 4 + 1
    ensures OctetOf(t, 3 * i / 4) == ShiftIn(acc, ValueOf(t[i])) / Pow2(bits - 2) % 256
  {
    hide ShiftIn, ValueOf, OctetOf;
    ReadOut(acc, ValueOf(t[i]), Val(t, i - 1));
    WhichOctet(t, i);
  }

  /** The byte completed by character i, in terms of the last two characters. */
  lemma WhichOctet(t: Text, i: nat)
    requires i < |t| && i % 4 != 0
    ensures 3 * (i + 1) / 4 == 3 * i / 4 + 1
    ensures var a, v := Val(t, i - 1), Val(t, i);
            OctetOf(t, 3 * i / 4) == if i % 4 == 1 then a * 4 + v / 16
                                     else if i % 4 == 2 then a % 16 * 16 + v / 4
                                     else a % 4 * 64 + v
  {
    hide ValueOf, Val;
    var m := i / 4;
    assert i == 4 * m + i % 4;
    DivModIs(3 * i, 4, 3 * m + i % 4 - 1, 4 - i % 4);
    DivModIs(3 * i / 4, 3, m, i % 4 - 1);
  }

  lemma LowBits(w: int, v: int)
    requires 0 <= v < 64 && 0 <= w && w % 64 == v
    ensures w % 16 == v % 16 && w % 4 == v % 4
  {
    SameLowBits(w);
  }

  // ------------------------------------------------------------ properties

  /** Decoding an encoding gives the bytes back, however many '=' were appended. */
  lemma RoundTrip(s: Text, pad: Text)
    requires forall i :: 0 <= i < |pad| ==> pad[i] == '='
    ensures Decoding(Encoding(s) + pad) == Some(s)
  {
    hide ValueOf, Sextet, OctetOf, CharOf;
    var t := Encoding(s);
    forall j | 0 <= j < |t|
      ensures ValueOf(t[j]) == Sextet(s, j) && t[j] != '='
    {
      EncodingAt(s, j);
      AlphabetInverse(Sextet(s, j));
    }
    StripPad(t, pad);
    var n := 3 * |t| / 4;
    assert n == |s|;
    forall k | 0 <= k < |s|
      ensures OctetOf(t, k) == s[k] as int
    {
      ByteBack(s, t, k);
    }
    assert BytesOf(t, n) == s;
  }

  lemma {:induction false} StripPad(t: Text, pad: Text)
    requires t != [] ==> t[|t| - 1] != '='
    requires forall i :: 0 <= i < |pad| ==> pad[i] == '='
    ensures Strip(t + pad) == t
    decreases |pad|
  {
    if pad == [] {
      assert t + pad == t;
    } else {
      assert (t + pad)[..|t + pad| - 1] == t + pad[..|pad| - 1];
      StripPad(t, pad[..|pad| - 1]);
    }
  }

  lemma ByteBack(s: Text, t: Text, k: nat)
    requires |t| == EncodedLength(|s|) && k < |s|
    requires forall j :: 0 <= j < |t| ==> ValueOf(t[j]) == Sextet(s, j)
    ensures OctetOf(t, k) == s[k] as int
  {
    hide ValueOf, Sextet;
    var m := k / 3;
    var g, h := 4 * m, 3 * m;
    SextetsOf(s, m);
    Rejoin(At(s, h), At(s, h + 1), At(s, h + 2));
    assert g + k % 3 + 1 < |t| by { LongEnough(|s|, k); }
  }

  lemma LongEnough(n: nat, k: nat)
    requires k < n
    ensures 4 * (k / 3) + k % 3 + 1 < EncodedLength(n)
  {
    var m, r := k / 3, k % 3;
    assert 4 * n + 2 >= 4 * (3 * m + r + 1) + 2;
  }

  lemma SextetsOf(s: Text, m: nat)
    ensures var a, b, c := At(s, 3 * m) as int, At(s, 3 * m + 1) as int, At(s, 3 * m + 2) as int;
            && Sextet(s, 4 * m) == a / 4 && Sextet(s, 4 * m + 1) == a % 4 * 16 + b / 16
            && Sextet(s, 4 * m + 2) == b % 16 * 4 + c / 64 && Sextet(s, 4 * m + 3) == c % 64
  {
    DivModIs(4 * m, 4, m, 0);
    DivModIs(4 * m + 1, 4, m, 1);
    DivModIs(4 * m + 2, 4, m, 2);
    DivModIs(4 * m + 3, 4, m, 3);
  }

  lemma Rejoin(a: int, b: int, c: int)
    requires 0 <= a < 256 && 0 <= b < 256 && 0 <= c < 256
    ensures a / 4 * 4 + (a % 4 * 16 + b / 16) / 16 == a
    ensures (a % 4 * 16 + b / 16) % 16 * 16 + (b % 16 * 4 + c / 64) / 4 == b
    ensures (b % 16 * 4 + c / 64) % 4 * 64 + c % 64 == c
  {
    DivModIs(a % 4 * 16 + b / 16, 16, a % 4, b / 16);
    DivModIs(b % 16 * 4 + c / 64, 4, b % 16, c / 64);
  }
}
