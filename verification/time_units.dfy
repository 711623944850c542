/** Physical time quantities, their conversion to simulation ticks, and arithmetic
    on them. Integers are unbounded here. */
module TimeUnits {

  datatype Unit = Seconds | Milliseconds | Microseconds | Nanoseconds | Picoseconds

  /** A count of a unit. */
  datatype Time = Time(t: int, u: Unit)

  function Index(u: Unit): nat {
    match u
    case Seconds => 0
    case Milliseconds => 1
    case Microseconds => 2
    case Nanoseconds => 3
    case Picoseconds => 4
  }

  /** How many units `n` steps finer make up one unit. */
  function Conv(n: nat): nat
    requires n < 5
  {
    if n == 0 then 1
    else if n == 1 then 1_000
    else if n == 2 then 1_000_000
    else if n == 3 then 1_000_000_000
    else 1_000_000_000_000
  }

  function Abs(x: int): nat {
    if x < 0 then -x else x
  }

  /** Division that truncates towards zero. */
  function Quot(a: int, b: int): int
    requires b != 0
  {
    if (a < 0) == (b < 0) then Abs(a) / Abs(b) else -(Abs(a) / Abs(b))
  }

  /** Ticks of `prec` in `x`; the second branch divides twice. */
  function Count(x: Time, prec: Time): int
    requires prec.t != 0
  {
    if Index(x.u) < Index(prec.u)
    then Quot(Conv(Index(prec.u) - Index(x.u)) * x.t, prec.t)
    else Quot(Quot(x.t, prec.t), Conv(Index(x.u) - Index(prec.u)))
  }

  // ----- the exact conversion -----

  /** The quantity in picoseconds, the finest unit. */
  function Ps(x: Time): int {
    x.t * Conv(4 - Index(x.u))
  }

  /** The exact number of ticks. */
  function Exact(x: Time, prec: Time): real
    requires prec.t != 0
  {
    PsNonzero(prec);
    Ps(x) as real / Ps(prec) as real
  }

  lemma PsNonzero(x: Time)
    ensures Conv(4 - Index(x.u)) > 0
    ensures x.t > 0 <==> Ps(x) > 0
    ensures x.t < 0 <==> Ps(x) < 0
  {
    Sign(x.t, Conv(4 - Index(x.u)));
  }

  lemma Sign(a: int, c: int)
    requires c > 0
    ensures a > 0 <==> a * c > 0
    ensures a < 0 <==> a * c < 0
  {
  }

  lemma Times(a: int, b: int, c: int)
    requires a <= b && c >= 0
    ensures a * c <= b * c
  {
  }

  lemma TimesReal(a: real, b: real, c: real)
    requires c > 0.0
    ensures a <= b <==> a * c <= b * c
  {
  }

  /** `r` is `q` without its fraction. */
  predicate TruncationOf(r: int, q: real) {
    if q >= 0.0 then r as real <= q < r as real + 1.0 && r >= 0 else r as real - 1.0 < q <= r as real && r <= 0
  }

  lemma OneTruncation(r: int, s: int, q: real)
    requires TruncationOf(r, q) && TruncationOf(s, q)
    ensures r == s
  {
    assert (r - s) as real == r as real - s as real;
  }

  lemma RealQuotient(x: real, y: real, z: real)
    requires y > 0.0
    ensures z <= x / y <==> z * y <= x
    ensures x / y < z <==> x < z * y
  {
    assert x / y * y == x;
    TimesReal(z, x / y, y);
  }

  lemma NatQuotient(m: nat, n: nat)
    requires n > 0
    ensures (m / n) as real <= m as real / n as real < (m / n) as real + 1.0
    ensures 0.0 <= m as real / n as real
  {
    var q := m / n;
    assert q * n <= m < q * n + n;
    var x, y, z := m as real, n as real, q as real;
    assert z * y == (q * n) as real;
    assert (z + 1.0) * y == z * y + y;
    RealQuotient(x, y, z);
    RealQuotient(x, y, z + 1.0);
    RealQuotient(x, y, 0.0);
  }

  lemma RealSigns(x: real, y: real)
    requires y != 0.0
    ensures (-x) / y == -(x / y) && x / (-y) == -(x / y) && (-x) / (-y) == x / y
  {
    assert x / y * y == x;
    assert (-x) / y * y == -x;
    assert x / (-y) * (-y) == x;
    assert (-x) / (-y) * (-y) == -x;
  }

  lemma QuotTruncates(a: int, b: int)
    requires b != 0
    ensures TruncationOf(Quot(a, b), a as real / b as real)
  {
    var m, n := Abs(a), Abs(b);
    NatQuotient(m, n);
    RealSigns(m as real, n as real);
    assert a as real == if a < 0 then -(m as real) else m as real;
    assert b as real == if b < 0 then -(n as real) else n as real;
  }

  lemma DivIs(m: nat, d: nat, q: nat)
    requires d > 0 && q * d <= m < (q + 1) * d
    ensures m / d == q
  {
    var r := m / d;
    assert r * d <= m < r * d + d;
    assert (q + 1) * d == q * d + d;
    if r < q {
      Times(r + 1, q, d);
    } else if r > q {
      Times(q + 1, r, d);
    }
  }

  lemma Between(m: nat, n: nat)
    requires n > 0
    ensures m / n * n <= m < (m / n + 1) * n
  {
  }

  lemma Associates(a: int, b: int, c: int)
    ensures a * (b * c) == a * c * b
  {
  }

  lemma NestedDiv(m: nat, n: nat, c: nat)
    requires n > 0 && c > 0
    ensures n * c > 0 && m / n / c == m / (n * c)
  {
    var x := m / n;
    var q := x / c;
    Between(m, n);
    Between(x, c);
    Times(q * c, x, n);
    Times(x + 1, (q + 1) * c, n);
    Associates(q, n, c);
    Associates(q + 1, n, c);
    Sign(n, c);
    DivIs(m, n * c, q);
  }

  lemma AbsProduct(b: int, c: nat)
    requires b != 0 && c > 0
    ensures b * c != 0 && Abs(b * c) == Abs(b) * c && (b * c < 0 <==> b < 0)
  {
    Sign(b, c);
    assert (-b) * c == -(b * c);
  }

  lemma NestedQuotOf(a: int, b: int, c: int, d: int)
    requires b != 0 && c > 0 && d != 0 && (d < 0 <==> b < 0)
    requires Abs(a) / Abs(b) / c == Abs(a) / Abs(d)
    ensures Quot(Quot(a, b), c) == Quot(a, d)
  {
    var x := Abs(a) / Abs(b);
    assert Quot(x, c) == x / c;
    assert x > 0 ==> Quot(-x, c) == -(x / c);
  }

  /** Dividing twice truncates like dividing once. */
  lemma NestedQuot(a: int, b: int, c: int)
    requires b != 0 && c > 0
    ensures b * c != 0 && Quot(Quot(a, b), c) == Quot(a, b * c)
  {
    hide Quot;
    AbsProduct(b, c);
    NestedDiv(Abs(a), Abs(b), c);
    NestedQuotOf(a, b, c, b * c);
  }

  // ----- what the conversion computes -----

  /** Both branches of the conversion divide one product by another. */
  lemma CountIsOneQuotient(x: Time, prec: Time)
    requires prec.t != 0
    ensures Index(x.u) < Index(prec.u) ==>
      Count(x, prec) == Quot(x.t * Conv(Index(prec.u) - Index(x.u)), prec.t)
    ensures Index(x.u) >= Index(prec.u) ==>
      var d := prec.t * Conv(Index(x.u) - Index(prec.u)); d != 0 && Count(x, prec) == Quot(x.t, d)
  {
    if Index(x.u) >= Index(prec.u) {
      NestedQuot(x.t, prec.t, Conv(Index(x.u) - Index(prec.u)));
    }
  }

  lemma Cancel(a: real, b: real, c: real)
    requires b != 0.0 && c > 0.0
    ensures b * c != 0.0 && (a * c) / (b * c) == a / b
  {
    var q := a / b;
    assert q * b == a;
    assert q * (b * c) == a * c;
    assert b * c != 0.0;
  }

  lemma ConvSteps(i: nat, j: nat)
    requires i <= j <= 4
    ensures Conv(4 - i) == Conv(j - i) * Conv(4 - j) && Conv(4 - j) > 0
  {
  }

  lemma IndexRange(u: Unit)
    ensures Index(u) <= 4
  {
  }

  lemma ExpandedQuot(a: int, b: int, c: int)
    requires b != 0 && c > 0
    ensures b * c != 0 && TruncationOf(Quot(a, b), (a * c) as real / (b * c) as real)
  {
    hide Quot, TruncationOf;
    QuotTruncates(a, b);
    AbsProduct(b, c);
    Cancel(a as real, b as real, c as real);
    RealProducts(a, b, c);
    assert (a * c) as real / (b * c) as real == a as real / b as real;
  }

  lemma PsInSteps(x: Time, j: nat)
    requires Index(x.u) <= j <= 4
    ensures Ps(x) == x.t * Conv(j - Index(x.u)) * Conv(4 - j) && Conv(4 - j) > 0
  {
    ConvSteps(Index(x.u), j);
    Associates(x.t, Conv(j - Index(x.u)), Conv(4 - j));
  }

  /** The conversion truncates the exact quotient towards zero, once. */
  lemma CountTruncates(x: Time, prec: Time)
    requires prec.t != 0
    ensures TruncationOf(Count(x, prec), Exact(x, prec))
  {
    hide Conv, Quot, TruncationOf, Count, Index, Ps;
    CountIsOneQuotient(x, prec);
    IndexRange(x.u);
    IndexRange(prec.u);
    var i, j := Index(x.u), Index(prec.u);
    if i < j {
      PsInSteps(x, j);
      PsInSteps(prec, j);
      assert Ps(prec) == prec.t * Conv(4 - j) by {
        UnitConv();
      }
      ExpandedQuot(x.t * Conv(j - i), prec.t, Conv(4 - j));
    } else {
      PsInSteps(prec, i);
      PsInSteps(x, i);
      assert Ps(x) == x.t * Conv(4 - i) by {
        UnitConv();
      }
      ExpandedQuot(x.t, prec.t * Conv(i - j), Conv(4 - i));
    }
  }

  lemma UnitConv()
    ensures Conv(0) == 1
  {
  }

  lemma RealProducts(a: int, b: int, c: int)
    ensures (a * c) as real == a as real * c as real && (b * c) as real == b as real * c as real
  {
  }

  /** Equal durations convert to equal counts, in whatever units they are given. */
  lemma SameDurationSameCount(x: Time, y: Time, prec: Time)
    requires prec.t != 0 && Ps(x) == Ps(y)
    ensures Count(x, prec) == Count(y, prec)
  {
    hide Count, Ps, TruncationOf;
    CountTruncates(x, prec);
    CountTruncates(y, prec);
    OneTruncation(Count(x, prec), Count(y, prec), Exact(x, prec));
  }

  function Finer(u: Unit): Unit
    requires u != Picoseconds
  {
    match u
    case Seconds => Milliseconds
    case Milliseconds => Microseconds
    case Microseconds => Nanoseconds
    case Nanoseconds => Picoseconds
  }

  /** A thousand of the next finer unit is one of this. */
  lemma Rescaling(x: Time, prec: Time)
    requires prec.t != 0
    ensures x.u != Picoseconds ==> Count(Time(1000 * x.t, Finer(x.u)), prec) == Count(x, prec)
    ensures prec.u != Picoseconds ==> Count(x, Time(1000 * prec.t, Finer(prec.u))) == Count(x, prec)
  {
    if x.u != Picoseconds {
      SameDurationSameCount(Time(1000 * x.t, Finer(x.u)), x, prec);
    }
    if prec.u != Picoseconds {
      var fine := Time(1000 * prec.t, Finer(prec.u));
      assert Ps(fine) == Ps(prec);
      hide Count, Ps, TruncationOf;
      CountTruncates(x, prec);
      CountTruncates(x, fine);
      OneTruncation(Count(x, prec), Count(x, fine), Exact(x, prec));
    }
  }

  lemma Negated(x: Time, prec: Time)
    requires prec.t != 0
    ensures Count(Time(-x.t, x.u), prec) == -Count(x, prec)
  {
    hide Count, TruncationOf;
    var neg := Time(-x.t, x.u);
    CountTruncates(x, prec);
    CountTruncates(neg, prec);
    PsNonzero(prec);
    assert Ps(neg) == -Ps(x) by {
      assert (-x.t) * Conv(4 - Index(x.u)) == -(x.t * Conv(4 - Index(x.u)));
    }
    RealSigns(Ps(x) as real, Ps(prec) as real);
    assert (-Ps(x)) as real == -(Ps(x) as real);
    assert Exact(neg, prec) == -Exact(x, prec);
    NegatedTruncation(Count(x, prec), Exact(x, prec));
    OneTruncation(Count(neg, prec), -Count(x, prec), Exact(neg, prec));
  }

  lemma NegatedTruncation(r: int, q: real)
    requires TruncationOf(r, q)
    ensures TruncationOf(-r, -q)
  {
    assert (-r) as real == -(r as real);
  }

  /** A longer duration never has fewer ticks. */
  lemma Monotone(x: Time, y: Time, prec: Time)
    requires prec.t > 0 && Ps(x) <= Ps(y)
    ensures Count(x, prec) <= Count(y, prec)
  {
    hide Count, Conv;
    CountTruncates(x, prec);
    CountTruncates(y, prec);
    PsNonzero(prec);
    var d := Ps(prec) as real;
    assert Ps(x) as real / d * d == Ps(x) as real;
    assert Ps(y) as real / d * d == Ps(y) as real;
    TimesReal(Exact(x, prec), Exact(y, prec), d);
  }

  lemma ExactMultiple(n: int, d: int)
    requires d != 0
    ensures (n * d) as real / d as real == n as real
  {
    var x, y := n as real, d as real;
    assert (n * d) as real == x * y;
    assert x * y / y == x;
  }

  /** The environment's time as a quantity converts back to its clock. */
  lemma ClockRoundTrip(now: int, prec: Time)
    requires prec.t != 0
    ensures Count(Time(now * prec.t, prec.u), prec) == now
  {
    hide Count, Conv;
    var x := Time(now * prec.t, prec.u);
    CountTruncates(x, prec);
    PsNonzero(prec);
    Associates(now, prec.t, Conv(4 - Index(prec.u)));
    assert Ps(x) == now * Ps(prec);
    ExactMultiple(now, Ps(prec));
    OneTruncation(Count(x, prec), now, now as real);
  }

  // ----- time expressions -----

  /** Physical quantities and unitless numbers, and what is built from them. */
  datatype Expr =
    | Leaf(x: Time)
    | Unitless(n: int)
    | Neg(e: Expr)
    | Plus(l: Expr, r: Expr)
    | Minus(l: Expr, r: Expr)
    | Scale(e: Expr, n: int)
    | DivBy(e: Expr, n: int)

  /** No division by zero. */
  predicate Defined(e: Expr) {
    match e
    case Leaf(_) => true
    case Unitless(_) => true
    case Neg(a) => Defined(a)
    case Plus(a, b) => Defined(a) && Defined(b)
    case Minus(a, b) => Defined(a) && Defined(b)
    case Scale(a, _) => Defined(a)
    case DivBy(a, n) => Defined(a) && n != 0
  }

  function Product(x: real, y: real): real {
    x * y
  }

  function Multiple(x: int, n: int): int {
    x * n
  }

  /** Ticks of an expression: every part is truncated on its own. */
  function Ticks(e: Expr, prec: Time, one: Time): int
    requires prec.t != 0 && Defined(e)
  {
    match e
    case Leaf(x) => Count(x, prec)
    case Unitless(n) => Multiple(Count(one, prec), n)
    case Neg(a) => -Ticks(a, prec, one)
    case Plus(a, b) => Ticks(a, prec, one) + Ticks(b, prec, one)
    case Minus(a, b) => Ticks(a, prec, one) - Ticks(b, prec, one)
    case Scale(a, n) => Multiple(Ticks(a, prec, one), n)
    case DivBy(a, n) => Quot(Ticks(a, prec, one), n)
  }

  /** The value of the expression over the reals, in ticks. */
  function Value(e: Expr, prec: Time, one: Time): real
    requires prec.t != 0 && Defined(e)
  {
    match e
    case Leaf(x) => Exact(x, prec)
    case Unitless(n) => Product(Exact(one, prec), n as real)
    case Neg(a) => -Value(a, prec, one)
    case Plus(a, b) => Value(a, prec, one) + Value(b, prec, one)
    case Minus(a, b) => Value(a, prec, one) - Value(b, prec, one)
    case Scale(a, n) => Product(Value(a, prec, one), n as real)
    case DivBy(a, n) => Value(a, prec, one) / n as real
  }

  function AbsReal(x: real): real {
    if x < 0.0 then -x else x
  }

  /** By how many ticks the two may differ. */
  function Bound(e: Expr): real
    requires Defined(e)
  {
    match e
    case Leaf(_) => 1.0
    case Unitless(n) => AbsReal(n as real)
    case Neg(a) => Bound(a)
    case Plus(a, b) => Bound(a) + Bound(b)
    case Minus(a, b) => Bound(a) + Bound(b)
    case Scale(a, n) => Product(Bound(a), AbsReal(n as real))
    case DivBy(a, n) => Bound(a) / AbsReal(n as real) + 1.0
  }

  /** Strictly within `b`, or equal if `b` is zero. */
  predicate Within(x: real, y: real, b: real) {
    (b > 0.0 && -b < x - y < b) || (b == 0.0 && x == y)
  }

  lemma ProductOfDifference(x: real, y: real, n: real)
    ensures Product(x, n) - Product(y, n) == Product(x - y, n)
  {
  }

  lemma ProductNegated(x: real, n: real)
    ensures Product(x, -n) == -Product(x, n)
  {
  }

  lemma ProductOfZero(x: real)
    ensures Product(x, 0.0) == 0.0 == Product(0.0, x)
  {
  }

  lemma ProductGrown(d: real, b: real, n: real)
    requires b > 0.0 && -b < d < b && n > 0.0
    ensures Product(b, n) > 0.0 && -Product(b, n) < Product(d, n) < Product(b, n)
  {
    TimesReal(b, d, n);
    TimesReal(d, -b, n);
    assert (-b) * n == -(b * n);
  }

  lemma WithinScaled(x: real, y: real, b: real, n: real)
    requires Within(x, y, b)
    ensures Within(Product(x, n), Product(y, n), Product(b, AbsReal(n)))
  {
    hide Product;
    ProductOfDifference(x, y, n);
    ProductOfZero(x);
    ProductOfZero(y);
    ProductOfZero(b);
    ProductOfZero(n);
    ProductOfZero(AbsReal(n));
    if b > 0.0 && n > 0.0 {
      ProductGrown(x - y, b, n);
    } else if b > 0.0 && n < 0.0 {
      ProductGrown(x - y, b, -n);
      ProductNegated(x - y, n);
    }
  }

  lemma WithinSum(x: real, y: real, b: real, x': real, y': real, b': real)
    requires Within(x, y, b) && Within(x', y', b')
    ensures Within(x + x', y + y', b + b') && Within(x - x', y - y', b + b')
  {
  }

  lemma WithinNegated(x: real, y: real, b: real)
    requires Within(x, y, b)
    ensures Within(-x, -y, b)
  {
  }

  lemma WithinNext(x: real, y: real, z: real, b: real)
    requires Within(x, y, 1.0) && Within(y, z, b)
    ensures Within(x, z, b + 1.0)
  {
  }

  lemma TruncationWithin(r: int, q: real)
    requires TruncationOf(r, q)
    ensures Within(r as real, q, 1.0)
  {
  }

  lemma WithinQuotient(x: real, y: real, b: real, n: real)
    requires Within(x, y, b) && n != 0.0
    ensures AbsReal(n) > 0.0 && Within(x / n, y / n, b / AbsReal(n))
  {
    hide Within, AbsReal, Product;
    var k := 1.0 / n;
    WithinScaled(x, y, b, k);
    AbsReciprocal(n);
    Reciprocal(x, n);
    Reciprocal(y, n);
    Reciprocal(b, AbsReal(n));
  }

  lemma AbsReciprocal(n: real)
    requires n != 0.0
    ensures AbsReal(n) > 0.0 && AbsReal(1.0 / n) == 1.0 / AbsReal(n)
  {
    RealSigns(1.0, n);
    RealQuotient(1.0, AbsReal(n), 0.0);
    assert 1.0 / AbsReal(n) * AbsReal(n) == 1.0;
  }

  lemma WithinDivided(t: int, y: real, b: real, n: int)
    requires Within(t as real, y, b) && n != 0
    ensures AbsReal(n as real) > 0.0 && Within(Quot(t, n) as real, y / n as real, b / AbsReal(n as real) + 1.0)
  {
    hide Within, Quot, TruncationOf;
    WithinQuotient(t as real, y, b, n as real);
    QuotTruncates(t, n);
    TruncationWithin(Quot(t, n), t as real / n as real);
    WithinNext(Quot(t, n) as real, t as real / n as real, y / n as real, b / AbsReal(n as real));
  }

  lemma Reciprocal(x: real, y: real)
    requires y != 0.0
    ensures x / y == Product(x, 1.0 / y)
  {
    var k := 1.0 / y;
    assert k * y == 1.0;
    assert x * k * y == x * (k * y);
    assert x / y * y == x;
  }

  lemma MultipleAsReal(c: int, n: int)
    ensures Multiple(c, n) as real == Product(c as real, n as real)
  {
  }

  lemma ProductOfOne(x: real)
    ensures Product(1.0, x) == x
  {
  }

  /** Ticks and value of an expression differ by less than its bound, and not at all
      where that is zero. */
  lemma {:induction false} ErrorBound(e: Expr, prec: Time, one: Time)
    requires prec.t != 0 && Defined(e)
    ensures Within(Ticks(e, prec, one) as real, Value(e, prec, one), Bound(e))
  {
    hide Count, Exact, Quot, TruncationOf, Within, AbsReal, Product, Multiple;
    match e
    case Leaf(x) =>
      CountTruncates(x, prec);
      TruncationWithin(Count(x, prec), Exact(x, prec));
    case Unitless(n) =>
      CountTruncates(one, prec);
      TruncationWithin(Count(one, prec), Exact(one, prec));
      WithinScaled(Count(one, prec) as real, Exact(one, prec), 1.0, n as real);
      MultipleAsReal(Count(one, prec), n);
      ProductOfOne(AbsReal(n as real));
    case Neg(a) =>
      ErrorBound(a, prec, one);
      WithinNegated(Ticks(a, prec, one) as real, Value(a, prec, one), Bound(a));
      assert (-Ticks(a, prec, one)) as real == -(Ticks(a, prec, one) as real);
    case Plus(a, b) =>
      ErrorBound(a, prec, one);
      ErrorBound(b, prec, one);
      WithinSum(Ticks(a, prec, one) as real, Value(a, prec, one), Bound(a),
                Ticks(b, prec, one) as real, Value(b, prec, one), Bound(b));
    case Minus(a, b) =>
      ErrorBound(a, prec, one);
      ErrorBound(b, prec, one);
      WithinSum(Ticks(a, prec, one) as real, Value(a, prec, one), Bound(a),
                Ticks(b, prec, one) as real, Value(b, prec, one), Bound(b));
    case Scale(a, n) =>
      ErrorBound(a, prec, one);
      WithinScaled(Ticks(a, prec, one) as real, Value(a, prec, one), Bound(a), n as real);
      MultipleAsReal(Ticks(a, prec, one), n);
    case DivBy(a, n) =>
      ErrorBound(a, prec, one);
      WithinDivided(Ticks(a, prec, one), Value(a, prec, one), Bound(a), n);
  }
}
