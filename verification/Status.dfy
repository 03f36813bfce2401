/** The gRPC status codes and the text conversions the final-status rule uses. */
module Status {
  import opened Octets

  datatype StatusCode =
    | Ok | Cancelled | Unknown | InvalidArgument | DeadlineExceeded | NotFound
    | AlreadyExists | PermissionDenied | ResourceExhausted | FailedPrecondition
    | Aborted | OutOfRange | Unimplemented | Internal | Unavailable | DataLoss
    | Unauthenticated

  /** Canonical code of a number in [0, 16]; every larger number is `Unknown`. */
  function CodeOf(n: nat): (code: StatusCode) {
    if n == 0 then Ok else if n == 1 then Cancelled else if n == 2 then Unknown
    else if n == 3 then InvalidArgument else if n == 4 then DeadlineExceeded
    else if n == 5 then NotFound else if n == 6 then AlreadyExists
    else if n == 7 then PermissionDenied else if n == 8 then ResourceExhausted
    else if n == 9 then FailedPrecondition else if n == 10 then Aborted
    else if n == 11 then OutOfRange else if n == 12 then Unimplemented
    else if n == 13 then Internal else if n == 14 then Unavailable
    else if n == 15 then DataLoss else if n == 16 then Unauthenticated
    else Unknown
  }

  /** The number of a code, as the gRPC status code list assigns it. */
  function Number(code: StatusCode): (n: nat) {
    match code
    case Ok => 0
    case Cancelled => 1
    case Unknown => 2
    case InvalidArgument => 3
    case DeadlineExceeded => 4
    case NotFound => 5
    case AlreadyExists => 6
    case PermissionDenied => 7
    case ResourceExhausted => 8
    case FailedPrecondition => 9
    case Aborted => 10
    case OutOfRange => 11
    case Unimplemented => 12
    case Internal => 13
    case Unavailable => 14
    case DataLoss => 15
    case Unauthenticated => 16
  }

  /** The cast in ParseGrpcStatus: a number up to 16 is its own code, a larger one is 2. */
  lemma CodeNumbers(n: nat)
    ensures Number(CodeOf(n)) == if n <= 16 then n else 2
  {
  }

  /** The fallback in numbers. */
  lemma HttpNumbers(http: int)
    ensures Number(HttpStatusToGrpcCode(http)) ==
            if http == 400 then 13 else if http == 401 then 16 else if http == 403 then 7 else if http == 404 then 12
            else if http in {429, 502, 503, 504} then 14 else 2
  {
  }

  function HttpStatusToGrpcCode(http: int): (code: StatusCode)
    ensures code in {Internal, Unauthenticated, PermissionDenied, Unimplemented, Unavailable, Unknown}
    ensures code == Unavailable <==> http == 429 || 502 <= http <= 504
    ensures code == Unknown <==> http !in {400, 401, 403, 404, 429, 502, 503, 504}
    ensures code == Internal <==> http == 400
    ensures code == Unauthenticated <==> http == 401
    ensures code == PermissionDenied <==> http == 403
    ensures code == Unimplemented <==> http == 404
  {
    if http == 400 then Internal
    else if http == 401 then Unauthenticated
    else if http == 403 then PermissionDenied
    else if http == 404 then Unimplemented
    else if http == 429 || http == 502 || http == 503 || http == 504 then Unavailable
    else Unknown
  }

  predicate IsDigit(c: char) { '0' <= c <= '9' }

  function DigitOf(c: char): (n: nat)
    requires IsDigit(c)
    ensures n < 10 && (n == 0 <==> c == '0')
  {
    c as int - '0' as int
  }

  /** The number a string of decimal digits denotes, most significant digit first. */
  function Value(s: string): (n: nat)
    requires forall c :: c in s ==> IsDigit(c)
  {
    if s == [] then 0 else Value(s[..|s| - 1]) * 10 + DigitOf(s[|s| - 1])
  }

  /** `std::to_string` on a natural number. */
  function Decimal(n: nat): (s: Text)
    ensures s != [] && forall c :: c in s ==> IsDigit(c)
    ensures Value(s) == n
  {
    var digit := ['0' + (n % 10) as char];
    if n < 10 then digit else Decimal(n / 10) + digit
  }

  /** `std::to_string` on a signed number. */
  function SignedDecimal(n: int): (s: string) {
    if n < 0 then "-" + Decimal(-n) else Decimal(n)
  }

  /** ParseGrpcStatus: 1 to 10 decimal digits and nothing else. */
  method ParseGrpcStatus(value: string) returns (code: Option<StatusCode>)
    ensures code == StatusOf(value)
  {
    if |value| == 0 || |value| > 10 { return None; }
    var n := 0;
    for i := 0 to |value|
      invariant forall c :: c in value[..i] ==> IsDigit(c)
      invariant n == Value(value[..i])
    {
      if !IsDigit(value[i]) {
        assert value[i] in value;
        return None;
      }
      assert value[..i + 1][..i] == value[..i];
      n := n * 10 + DigitOf(value[i]);
    }
    assert value[..|value|] == value;
    code := Some(CodeOf(n));
  }

  /** What a grpc-status trailer value means, if it is well formed. */
  function StatusOf(value: string): (code: Option<StatusCode>) {
    if 1 <= |value| <= 10 && forall c :: c in value ==> IsDigit(c)
    then Some(CodeOf(Value(value))) else None
  }

  predicate AllZeros(s: string) { forall i :: 0 <= i < |s| ==> s[i] == '0' }

  lemma {:induction false} ValueZero(s: string)
    requires forall c :: c in s ==> IsDigit(c)
    ensures Value(s) == 0 <==> AllZeros(s)
  {
    if s != [] {
      var s', d := s[..|s| - 1], s[|s| - 1];
      ValueZero(s');
      assert Value(s) == Value(s') * 10 + DigitOf(d);
      assert AllZeros(s) <==> AllZeros(s') && d == '0' by {
        assert forall i :: 0 <= i < |s'| ==> s'[i] == s[i];
        if AllZeros(s') && d == '0' {
          assert forall i :: 0 <= i < |s| ==> s[i] == if i < |s'| then s'[i] else d;
        }
      }
    }
  }

  /** A trailer says OK exactly when it is one to ten zeros. */
  lemma OkStatusText(value: string)
    ensures StatusOf(value) == Some(Ok) <==> 1 <= |value| <= 10 && AllZeros(value)
  {
    if 1 <= |value| <= 10 && forall c :: c in value ==> IsDigit(c) {
      ValueZero(value);
    }
  }

  function HexDigit(c: char): (n: int)
    ensures -1 <= n < 16
  {
    if '0' <= c <= '9' then c as int - '0' as int
    else if 'a' <= c <= 'f' then c as int - 'a' as int + 10
    else if 'A' <= c <= 'F' then c as int - 'A' as int + 10
    else -1
  }

  /** Decoding of grpc-message: malformed escapes pass through unchanged. */
  function PercentDecoded(s: Text): (r: Text)
    ensures |r| <= |s|
  {
    if s == [] then []
    else if s[0] == '%' && |s| > 2 && HexDigit(s[1]) >= 0 && HexDigit(s[2]) >= 0
    then [(HexDigit(s[1]) * 16 + HexDigit(s[2])) as char] + PercentDecoded(s[3..])
    else [s[0]] + PercentDecoded(s[1..])
  }

  /** Text without a percent sign is its own decoding, and a stray sign stays where it is. */
  lemma {:induction false} PlainPassesThrough(s: Text, rest: Text)
    requires forall i :: 0 <= i < |s| ==> s[i] != '%'
    ensures PercentDecoded(s + rest) == s + PercentDecoded(rest)
    decreases |s|
  {
    if s == [] {
      assert s + rest == rest;
    } else {
      assert (s + rest)[1..] == s[1..] + rest;
      PlainPassesThrough(s[1..], rest);
    }
  }

  lemma StrayPercent(rest: Text)
    requires |rest| < 2 || HexDigit(rest[0]) < 0 || HexDigit(rest[1]) < 0
    ensures PercentDecoded(['%'] + rest) == ['%'] + PercentDecoded(rest)
  {
    assert (['%'] + rest)[1..] == rest;
  }

  /** The sixteen digits and their values, upper and lower case. */
  lemma HexDigits(c: char)
    ensures var lower, upper := "0123456789abcdef", "0123456789ABCDEF";
            && (HexDigit(c) >= 0 ==> lower[HexDigit(c)] == c || upper[HexDigit(c)] == c)
            && (c in lower || c in upper ==> HexDigit(c) >= 0)
  {
  }

  /** The decoding loop. */
  method PercentDecode(s: Text) returns (out: Text)
    ensures out == PercentDecoded(s)
  {
    out := [];
    var i := 0;
    while i < |s|
      invariant 0 <= i <= |s|
      invariant out + PercentDecoded(s[i..]) == PercentDecoded(s)
    {
      ghost var before := out;
      var step := 1;
      var c: Octet := s[i];
      if s[i] == '%' && i + 2 < |s| {
        var hi, lo := HexDigit(s[i + 1]), HexDigit(s[i + 2]);
        if hi >= 0 && lo >= 0 {
          c, step := (hi * 16 + lo) as char, 3;
        }
      }
      assert s[i..][step..] == s[i + step..];
      Assoc(before, [c], PercentDecoded(s[i + step..]));
      out := out + [c];
      i := i + step;
    }
  }

  function HexChar(n: nat): (c: Octet)
    requires n < 16
    ensures HexDigit(c) == n
  {
    if n < 10 then '0' + n as char else 'A' + (n - 10) as char
  }

  /** A sender's encoding of a text: '%' is always escaped, any other byte may be. */
  function Escaped(s: Text, escape: seq<bool>): (r: Text)
    requires |escape| == |s|
  {
    if s == [] then []
    else if s[0] == '%' || escape[0]
    then ['%', HexChar(s[0] as int / 16), HexChar(s[0] as int % 16)] + Escaped(s[1..], escape[1..])
    else [s[0]] + Escaped(s[1..], escape[1..])
  }

  /** Decoding undoes every such encoding. */
  lemma {:induction false} EscapedRoundTrip(s: Text, escape: seq<bool>)
    requires |escape| == |s|
    ensures PercentDecoded(Escaped(s, escape)) == s
  {
    if s != [] {
      EscapedRoundTrip(s[1..], escape[1..]);
      var e := Escaped(s, escape);
      var rest := Escaped(s[1..], escape[1..]);
      if s[0] == '%' || escape[0] {
        assert e[3..] == rest;
        assert (s[0] as int / 16 * 16 + s[0] as int % 16) as char == s[0];
      } else {
        assert e[1..] == rest;
      }
    }
  }
}
