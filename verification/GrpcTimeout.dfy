/** The grpc-timeout header: at most eight digits and a unit, rounded up so that the deadline is never early. */
module GrpcTimeout {
  import opened Octets
  import opened Status

  const MAX_VALUE: int := 99_999_999
  const INT64_LIMIT: int := 0x8000_0000_0000_0000

  datatype Unit = Unit(suffix: Octet, nanos: int)

  /** Most precise first. */
  function UnitAt(i: nat): (u: Unit)
    requires i < 6
    ensures u.nanos > 0
  {
    if i == 0 then Unit('n', 1)
    else if i == 1 then Unit('u', 1_000)
    else if i == 2 then Unit('m', 1_000_000)
    else if i == 3 then Unit('S', 1_000_000_000)
    else if i == 4 then Unit('M', 60_000_000_000)
    else Unit('H', 3_600_000_000_000)
  }

  /** Division rounded up. */
  function CeilDiv(x: int, d: int): (q: int)
    requires x > 0 && d > 0
  {
    x / d + if x % d != 0 then 1 else 0
  }

  predicate Fits(ns: int, i: nat)
    requires ns > 0 && i < 6
  {
    CeilDiv(ns, UnitAt(i).nanos) <= MAX_VALUE
  }

  /** A value and the index of its unit. */
  datatype Timeout = Timeout(value: int, unit: nat)

  ghost predicate IsEncoding(ns: int, t: Timeout) {
    if ns <= 0 then t == Timeout(1, 0)
    else && t.unit < 6 && t.value == CeilDiv(ns, UnitAt(t.unit).nanos) && Fits(ns, t.unit)
         && forall j :: 0 <= j < t.unit ==> !Fits(ns, j)
  }

  /** How long the header says, in nanoseconds. */
  function Denoted(t: Timeout): int
    requires t.unit < 6
  {
    t.value * UnitAt(t.unit).nanos
  }

  // ------------------------------------------------------------ reading the header

  /** What the last character of the header means, in nanoseconds (TimeoutUnit of the gRPC over HTTP2 protocol). */
  function NanosOf(unit: char): (nanos: Option<int>) {
    match unit
    case 'H' => Some(60 * 60 * 1_000_000_000)
    case 'M' => Some(60 * 1_000_000_000)
    case 'S' => Some(1_000_000_000)
    case 'm' => Some(1_000_000)
    case 'u' => Some(1_000)
    case 'n' => Some(1)
    case _ => None
  }

  /** How long a header says: one to eight digits and a unit. */
  function ReadTimeout(text: Text): (nanos: Option<int>) {
    if 2 <= |text| <= 9 && (forall c :: c in text[..|text| - 1] ==> IsDigit(c)) && NanosOf(text[|text| - 1]).Some?
    then Some(Value(text[..|text| - 1]) * NanosOf(text[|text| - 1]).value) else None
  }

  lemma UnitMeans(i: nat)
    requires i < 6
    ensures NanosOf(UnitAt(i).suffix) == Some(UnitAt(i).nanos)
  {
  }

  /** Every unit there is has an index, finer ones before coarser ones. */
  lemma UnitIndex(c: char) returns (i: nat)
    requires NanosOf(c).Some?
    ensures i < 6 && UnitAt(i).nanos == NanosOf(c).value
    ensures forall j :: 0 <= j < 6 ==> (UnitAt(j).nanos < UnitAt(i).nanos <==> j < i)
  {
    i := match c case 'n' => 0 case 'u' => 1 case 'm' => 2 case 'S' => 3 case 'M' => 4 case _ => 5;
  }

  /**
   The header reads as at least the timeout and less than one unit more, and no finer
   unit could say as much in eight digits. A timeout that has passed reads as one nanosecond.
   */
  ghost predicate ReadsAs(text: Text, ns: int) {
    && text != [] && ReadTimeout(text).Some? && NanosOf(text[|text| - 1]).Some?
    && var unit := NanosOf(text[|text| - 1]).value;
       && (ns <= 0 ==> ReadTimeout(text).value == 1)
       && (ns > 0 ==> ns <= ReadTimeout(text).value < ns + unit)
       && forall c :: NanosOf(c).Some? && NanosOf(c).value < unit ==> ns > 99_999_999 * NanosOf(c).value
  }

  lemma HeaderReads(ns: int, t: Timeout)
    requires -INT64_LIMIT <= ns < INT64_LIMIT && IsEncoding(ns, t)
    ensures t.unit < 6 && t.value >= 0 && ReadsAs(Decimal(t.value) + [UnitAt(t.unit).suffix], ns)
  {
    hide Decimal;
    var unit := UnitAt(t.unit);
    UnitMeans(t.unit);
    if ns > 0 { NeverEarly(ns, t); } else { EightDigits(1); }
    var text := Decimal(t.value) + [unit.suffix];
    assert text[..|text| - 1] == Decimal(t.value);
    forall c | NanosOf(c).Some? && NanosOf(c).value < unit.nanos
      ensures ns > 99_999_999 * NanosOf(c).value
    {
      var i := UnitIndex(c);
      FinerIsEarlier(i, t.unit);
      assert !Fits(ns, i);
      TooBig(ns, UnitAt(i).nanos);
    }
  }

  lemma FinerIsEarlier(i: nat, j: nat)
    requires i < 6 && j < 6 && UnitAt(i).nanos < UnitAt(j).nanos
    ensures i < j
  {
  }

  // ------------------------------------------------------------ writing it

  /** The header text. The clamp behind the loop is never reached. */
  method EncodeGrpcTimeout(ns: int) returns (text: Text, t: Timeout)
    requires -INT64_LIMIT <= ns < INT64_LIMIT
    ensures IsEncoding(ns, t) && t.unit < 6 && t.value >= 0
    ensures text == Decimal(t.value) + [UnitAt(t.unit).suffix]
    ensures ReadsAs(text, ns)
  {
    hide Decimal, ReadsAs;
    if ns <= 0 {
      HeaderReads(ns, Timeout(1, 0));
      return Decimal(1) + ['n'], Timeout(1, 0);
    }
    var i := 0;
    while i < 6
      invariant i <= 6 && forall j :: 0 <= j < i ==> !Fits(ns, j)
    {
      var value := CeilDiv(ns, UnitAt(i).nanos);
      if value <= MAX_VALUE {
        HeaderReads(ns, Timeout(value, i));
        return Decimal(value) + [UnitAt(i).suffix], Timeout(value, i);
      }
      i := i + 1;
    }
    HoursFit(ns);
    assert false;
  }

  lemma HoursFit(ns: int)
    requires 0 < ns < INT64_LIMIT
    ensures Fits(ns, 5)
  {
  }

  // ------------------------------------------------------------ rounding

  /** The rounded-up quotient reaches x, by less than one divisor. */
  lemma CeilReaches(x: int, d: int)
    requires x > 0 && d > 0
    ensures x <= CeilDiv(x, d) * d < x + d
    ensures CeilDiv(x, d) >= 1
  {
    var q, r := x / d, x % d;
    assert x == q * d + r;
    assert (q + 1) * d == q * d + d;
    assert q >= 0;
  }

  /** It is the least multiple that does. */
  lemma CeilIsLeast(x: int, d: int, c: int)
    requires x > 0 && d > 0 && c * d >= x
    ensures CeilDiv(x, d) <= c
  {
    CeilReaches(x, d);
    hide CeilDiv;
    var q := CeilDiv(x, d);
    assert (q - 1) * d == q * d - d;
    MulCancel(q - 1, c, d);
  }

  lemma MulAssoc(a: int, b: int, c: int)
    ensures a * b * c == a * (b * c)
  {
  }

  lemma MulMono(a: int, b: int, c: int)
    requires a <= b && c > 0
    ensures a * c <= b * c
  {
  }

  lemma MulCancel(a: int, b: int, c: int)
    requires a * c < b * c && c > 0
    ensures a < b
  {
    if b <= a { MulMono(b, a, c); }
  }

  // ------------------------------------------------------------ properties

  /** Never early, less than one unit late, never more than eight digits. */
  lemma NeverEarly(ns: int, t: Timeout)
    requires 0 < ns < INT64_LIMIT && IsEncoding(ns, t)
    ensures ns <= Denoted(t) < ns + UnitAt(t.unit).nanos
    ensures 1 <= t.value <= MAX_VALUE && |Decimal(t.value)| <= 8
    ensures t.unit == 0 ==> Denoted(t) == ns
  {
    hide Decimal;
    CeilReaches(ns, UnitAt(t.unit).nanos);
    EightDigits(t.value);
  }

  lemma {:induction false} DigitCount(n: nat, digits: nat, bound: nat)
    requires digits >= 1 && n < bound && bound == Power10(digits)
    ensures |Decimal(n)| <= digits
    decreases digits
  {
    assert digits == 1 ==> bound == 10;
    if n >= 10 {
      DigitCount(n / 10, digits - 1, Power10(digits - 1));
    }
  }

  function Power10(k: nat): nat { if k == 0 then 1 else 10 * Power10(k - 1) }

  lemma EightDigits(n: nat)
    requires n <= MAX_VALUE
    ensures |Decimal(n)| <= 8
  {
    hide Decimal;
    assert Power10(8) == 10 * Power10(7) && Power10(7) == 10 * Power10(6) && Power10(6) == 10 * Power10(5)
           && Power10(5) == 10 * Power10(4) && Power10(4) == 10 * Power10(3) && Power10(3) == 10 * Power10(2)
           && Power10(2) == 10 * Power10(1) && Power10(1) == 10;
    DigitCount(n, 8, Power10(8));
  }

  /** Beyond nanoseconds the relative error is below 1000 in 99999999. */
  lemma Overshoot(ns: int, t: Timeout)
    requires 0 < ns < INT64_LIMIT && IsEncoding(ns, t) && t.unit > 0
    ensures (Denoted(t) - ns) * MAX_VALUE < 1000 * ns
  {
    NeverEarly(ns, t);
    var finer := UnitAt(t.unit - 1).nanos;
    assert !Fits(ns, t.unit - 1);
    CeilReaches(ns, finer);
    TooBig(ns, finer);
    assert UnitAt(t.unit).nanos <= 1000 * finer;
  }

  /** A value that does not fit means more than the largest fitting one. */
  lemma TooBig(ns: int, d: int)
    requires ns > 0 && d > 0 && CeilDiv(ns, d) > MAX_VALUE
    ensures ns > MAX_VALUE * d
  {
    if MAX_VALUE * d >= ns {
      CeilIsLeast(ns, d, MAX_VALUE);
    }
  }

  /** What fits a unit fits it for every shorter timeout too. */
  lemma FitsDown(a: int, b: int, i: nat)
    requires 0 < a <= b && i < 6 && Fits(b, i)
    ensures Fits(a, i)
  {
    var d := UnitAt(i).nanos;
    CeilReaches(b, d);
    CeilIsLeast(a, d, CeilDiv(b, d));
  }

  /** A multiple of a coarser unit is a multiple of every finer one. */
  lemma UnitsNest(i: nat, j: nat)
    returns (k: int)
    requires i <= j < 6
    ensures k >= 1 && UnitAt(j).nanos == k * UnitAt(i).nanos
  {
    k := UnitAt(j).nanos / UnitAt(i).nanos;
  }

  /** A longer timeout is never encoded as a shorter one, also when the unit changes. */
  lemma Monotone(a: int, b: int, s: Timeout, t: Timeout)
    requires -INT64_LIMIT <= a <= b < INT64_LIMIT && IsEncoding(a, s) && IsEncoding(b, t)
    ensures s.unit <= t.unit && Denoted(s) <= Denoted(t)
  {
    if a > 0 {
      FitsDown(a, b, t.unit);
      assert s.unit <= t.unit;
      var d, e := UnitAt(s.unit).nanos, UnitAt(t.unit).nanos;
      var k := UnitsNest(s.unit, t.unit);
      CeilReaches(b, e);
      var reach := CeilDiv(b, e) * k;
      assert reach * d == CeilDiv(b, e) * e by { MulAssoc(CeilDiv(b, e), k, d); }
      CeilIsLeast(a, d, reach);
      MulMono(CeilDiv(a, d), reach, d);
    } else if b > 0 {
      NeverEarly(b, t);
    }
  }
}
