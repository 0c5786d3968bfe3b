/** What the sizing figures promise across inputs, and the sum of several sizings. */
module SizingLaws {

  import opened Names
  import opened Float64
  import opened Sizing

  // ---------------------------------------------------------------- exact arithmetic

  /**
    Capacity is conserved: the requests of the n instances never add up to more than the load
    needs (25/3 millicores per unit), and one more millicore each would cover it.
  */
  lemma CapacityConserved(load: nat, n: nat)
    requires n >= 1
    ensures 3 * (n * ExactRequest(load, n)) <= 25 * load < 3 * (n * (ExactRequest(load, n) + 1))
  {
    var q := ExactRequest(load, n);
    QuotientBounds(25 * load, 3 * n);
    assert q * (3 * n) == 3 * (n * q);
    assert (q + 1) * (3 * n) == 3 * (n * (q + 1));
  }

  /** The limit is 2.5 times the request, up to the fraction that the request lost. */
  lemma LimitFollowsRequest(load: nat, n: nat)
    requires n >= 1
    ensures 5 * ExactRequest(load, n) / 2 <= ExactLimit(load, n)
    ensures 2 * ExactLimit(load, n) < 5 * (ExactRequest(load, n) + 1)
  {
    var q, p, a, b := ExactRequest(load, n), ExactLimit(load, n), 25 * load, 3 * n;
    QuotientBounds(a, b);
    QuotientBounds(5 * a, 2 * b);
    assert q * b <= a < (q + 1) * b;
    assert p * (2 * b) <= 5 * a < (p + 1) * (2 * b);
    HeadroomBounds(p, q, a, b);
  }

  lemma HeadroomBounds(p: nat, q: nat, a: nat, b: nat)
    requires b >= 1
    requires q * b <= a < (q + 1) * b
    requires p * (2 * b) <= 5 * a < (p + 1) * (2 * b)
    ensures 5 * q / 2 <= p && 2 * p < 5 * (q + 1)
  {
    assert 5 * q * b < (2 * p + 2) * b;
    Cancel(5 * q, 2 * p + 2, b);
    assert 2 * p * b < 5 * (q + 1) * b;
    Cancel(2 * p, 5 * (q + 1), b);
  }

  lemma Cancel(x: int, y: int, b: nat)
    requires x * b < y * b
    ensures x < y
  {
  }

  /** More load or fewer instances never lowers the exact figures. */
  lemma QuotientMonotone(a: nat, b: nat, c: nat, d: nat)
    requires a <= c && 1 <= d <= b
    ensures Quotient(a, b) <= Quotient(c, d)
  {
    var p, q := Quotient(a, b), Quotient(c, d);
    QuotientBounds(a, b);
    QuotientBounds(c, d);
    Ordered(d, b, p);
    assert p * d < (q + 1) * d;
    Cancel(p, q + 1, d);
  }

  lemma ExactMonotone(load: nat, n: nat, load': nat, n': nat)
    requires load <= load' && 1 <= n' <= n
    ensures ExactRequest(load, n) <= ExactRequest(load', n')
    ensures ExactLimit(load, n) <= ExactLimit(load', n')
  {
    QuotientMonotone(25 * load, 3 * n, 25 * load', 3 * n');
    QuotientMonotone(125 * load, 6 * n, 125 * load', 6 * n');
  }

  // ---------------------------------------------------------------- the float64 figures

  predicate NoHeavier(r: RealmSizing, r': RealmSizing)
  {
    r.logins <= r'.logins && r.clientGrants <= r'.clientGrants && r.refreshGrants <= r'.refreshGrants
  }

  /** Rounding included, more load or fewer instances never lowers the computed figures. */
  lemma ComputedMonotone(r: RealmSizing, n: int32, r': RealmSizing, n': int32)
    requires NoHeavier(r, r') && 1 <= n' <= n
    ensures RequestOf(Cores(r, n)) <= RequestOf(Cores(r', n'))
    ensures LimitOf(Cores(r, n)) <= LimitOf(Cores(r', n'))
  {
    CoresMonotone(r, n, r', n');
    var c, c' := Cores(r, n), Cores(r', n');
    FlMonotone(c * 1000.0, c' * 1000.0);
    FlMonotone(c * 2.5, c' * 2.5);
    FlMonotone(Mul(c, 2.5) * 1000.0, Mul(c', 2.5) * 1000.0);
  }

  lemma CoresMonotone(r: RealmSizing, n: int32, r': RealmSizing, n': int32)
    requires NoHeavier(r, r') && 1 <= n' <= n
    ensures Cores(r, n) <= Cores(r', n')
  {
    FlRepresentable(0.0);
    var c1 := if r.logins > 0 then Add(0.0, Share(r.logins, 15, n)) else 0.0;
    var d1 := if r'.logins > 0 then Add(0.0, Share(r'.logins, 15, n')) else 0.0;
    AddMonotone(0.0, 0.0, r.logins, r'.logins, 15, n, n');
    var c2 := if r.clientGrants > 0 then Add(c1, Share(r.clientGrants, 120, n)) else c1;
    var d2 := if r'.clientGrants > 0 then Add(d1, Share(r'.clientGrants, 120, n')) else d1;
    AddMonotone(c1, d1, r.clientGrants, r'.clientGrants, 120, n, n');
    AddMonotone(c2, d2, r.refreshGrants, r'.refreshGrants, 120, n, n');
  }

  lemma AddMonotone(c: real, d: real, rate: int32, rate': int32, perCore: nat, n: int32, n': int32)
    requires 0.0 <= c <= d && Representable(c) && Representable(d)
    requires rate <= rate' && 1 <= n' <= n && 1 <= perCore <= 120
    ensures var c' := if rate > 0 then Add(c, Share(rate, perCore, n)) else c;
            var d' := if rate' > 0 then Add(d, Share(rate', perCore, n')) else d;
            0.0 <= c' <= d' && Representable(c') && Representable(d')
  {
    var s, s' := Share(rate, perCore, n), Share(rate', perCore, n');
    ShareMonotone(rate, rate', perCore, n, n');
    FlRepresentable(c + s);
    FlRepresentable(d + s');
    FlMonotone(c + s, d + s');
    FlExact(c);
    FlMonotone(c, d + s');
  }

  lemma ShareMonotone(rate: int32, rate': int32, perCore: nat, n: int32, n': int32)
    requires rate <= rate' && 1 <= n' <= n && 1 <= perCore <= 120
    ensures 0.0 <= Share(rate, perCore, n) <= Share(rate', perCore, n')
  {
    if rate > 0 {
      DivisorExact(perCore, n);
      DivisorExact(perCore, n');
      IntegersExact(rate);
      IntegersExact(rate');
      Ordered(n', n, perCore);
      var a, b, c, d := rate as real, (perCore * n) as real, rate' as real, (perCore * n') as real;
      FractionMonotone(a, b, c, d);
      QuotientNonNegative(a, b);
      FlMonotone(a / b, c / d);
    }
  }

  lemma FractionMonotone(a: real, b: real, c: real, d: real)
    requires 0.0 <= a <= c && 0.0 < d <= b
    ensures a / b <= c / d
  {
    var x, y := a / b, c / d;
    assert x * b == a && y * d == c;
    QuotientNonNegative(a, b);
    ScaleUp(d, b, x);
    assert x * d <= y * d;
    CancelReal(x, y, d);
  }

  lemma CancelReal(x: real, y: real, d: real)
    requires d > 0.0 && x * d <= y * d
    ensures x <= y
  {
  }

  /** Rounding does cost a millicore: 969 logins on one instance need 64600 and are given 64599. */
  lemma OneShort()
    ensures var r := RealmSizing(969, 0, 0, 0, false);
            && ExactRequest(Load(r), 1) == 64600
            && RequestOf(Cores(r, 1)) == 64599
  {
    var r := RealmSizing(969, 0, 0, 0, false);
    DivisorExact(15, 1);
    IntegersExact(969);
    IntegersExact(15);
    IntegersExact(1);
    var c := Fl(64.6);
    FlRepresentable(64.6);
    FlExact(c);
    assert Cores(r, 1) == c;
    RoundedShare();
    RoundedProduct();
  }

  lemma RoundedShare()
    ensures Fl(64.6) == 4545820873877094.0 / 70368744177664.0
  {
    FlScaled(46, 64.6);
    ScaleValues(64.6);
    ScaleValues(Fl(64.6));
    RoundsTo(64.6 * 70368744177664.0, 4545820873877094);
  }

  lemma RoundedProduct()
    ensures Fl(4545820873877094.0 / 70368744177664.0 * 1000.0) == 8878556394291199.0 / 137438953472.0
  {
    var x := 4545820873877094.0 / 70368744177664.0 * 1000.0;
    FlScaled(37, x);
    ScaleValues(x);
    ScaleValues(Fl(x));
    RoundsTo(x * 137438953472.0, 8878556394291199);
  }

  lemma RoundsTo(x: real, m: nat)
    requires Low <= x < High && -0.5 < m as real - x < 0.5
    ensures Fl(x) == m as real
  {
    Unrounded(RoundHalfEven(x), m, x);
  }

  lemma Unrounded(r: int, m: int, x: real)
    requires -0.5 <= r as real - x <= 0.5 && -0.5 < m as real - x < 0.5
    ensures r == m
  {
  }

  lemma ScaleValues(x: real)
    requires x >= 0.0
    ensures Scale(37, x) == 137438953472.0 * x && Scale(46, x) == 70368744177664.0 * x
  {
    assert Scale(4, x) == 16.0 * x;
    assert Scale(8, x) == 256.0 * x;
    assert Scale(12, x) == 4096.0 * x;
    assert Scale(16, x) == 65536.0 * x;
    assert Scale(20, x) == 1048576.0 * x;
    assert Scale(24, x) == 16777216.0 * x;
    assert Scale(28, x) == 268435456.0 * x;
    assert Scale(32, x) == 4294967296.0 * x;
    assert Scale(36, x) == 68719476736.0 * x;
    assert Scale(40, x) == 1099511627776.0 * x;
    assert Scale(44, x) == 17592186044416.0 * x;
  }

  /** v is zero or between lo and hi. */
  ghost predicate Within(v: real, lo: real, hi: real) { v == 0.0 || 0.0 < lo <= v <= hi }

  lemma FlWithin(y: real, lo: real, hi: real)
    requires Within(y, lo, hi)
    ensures Within(Fl(y), lo / 2.0, 2.0 * hi)
  {
    if y != 0.0 { FlError(y); }
  }

  lemma ShareWithin(rate: int32, perCore: nat, n: int32)
    requires 1 <= perCore <= 120 && n >= 1
    ensures Within(Share(rate, perCore, n), 1.0 / 600000000000.0, 4294967296.0)
  {
    if rate > 0 {
      DivisorExact(perCore, n);
      IntegersExact(rate);
      var d := (perCore * n) as real;
      ProductBounds(perCore, n);
      FractionMonotone(1.0, 300000000000.0, rate as real, d);
      FractionMonotone(rate as real, d, 2147483648.0, 1.0);
      FlWithin(rate as real / d, 1.0 / 300000000000.0, 2147483648.0);
    }
  }

  lemma AddWithin(c: real, hi: real, rate: int32, perCore: nat, n: int32)
    requires 1 <= perCore <= 120 && n >= 1 && Within(c, 1.0 / 600000000000.0, hi) && hi >= 0.0 && Representable(c)
    ensures var c' := if rate > 0 then Add(c, Share(rate, perCore, n)) else c;
            Within(c', 1.0 / 600000000000.0, 2.0 * (hi + 4294967296.0)) && Representable(c')
  {
    if rate > 0 {
      ShareWithin(rate, perCore, n);
      var s := Share(rate, perCore, n);
      FlRepresentable(c + s);
      FlWithin(c + s, 1.0 / 600000000000.0, hi + 4294967296.0);
      FlMonotone(c, c + s);
      FlExact(c);
      ShareRepresentable(rate, perCore, n);
      FlExact(s);
      FlMonotone(s, c + s);
    }
  }

  lemma ShareRepresentable(rate: int32, perCore: nat, n: int32)
    requires 1 <= perCore <= 120 && n >= 1
    ensures Representable(Share(rate, perCore, n))
  {
    if rate > 0 {
      DivisorExact(perCore, n);
      var d := Mul(FromInt(perCore), FromInt(n));
      QuotientNonNegative(FromInt(rate), d);
      FlRepresentable(FromInt(rate) / d);
    }
  }

  /**
    No value on the way overflows, or is so small that float64 would lose bits: each is zero or
    lies between 10^-13 and 10^16.
  */
  lemma ValuesStayNormal(r: RealmSizing, n: int32)
    requires n >= 1
    ensures Within(Cores(r, n), 1.0 / 600000000000.0, 60129542144.0)
    ensures Within(Mul(Cores(r, n), 1000.0), 1.0 / 10000000000000.0, 10000000000000000.0)
    ensures Within(Mul(Cores(r, n), 2.5), 1.0 / 10000000000000.0, 10000000000000000.0)
    ensures Within(Mul(Mul(Cores(r, n), 2.5), 1000.0), 1.0 / 10000000000000.0, 10000000000000000.0)
  {
    var c1 := if r.logins > 0 then Add(0.0, Share(r.logins, 15, n)) else 0.0;
    AddWithin(0.0, 0.0, r.logins, 15, n);
    var c2 := if r.clientGrants > 0 then Add(c1, Share(r.clientGrants, 120, n)) else c1;
    AddWithin(c1, 8589934592.0, r.clientGrants, 120, n);
    AddWithin(c2, 25769803776.0, r.refreshGrants, 120, n);
    ProductsWithin(Cores(r, n));
  }

  lemma ProductsWithin(c: real)
    requires Within(c, 1.0 / 600000000000.0, 60129542144.0)
    ensures Within(Mul(c, 1000.0), 1.0 / 10000000000000.0, 10000000000000000.0)
    ensures Within(Mul(c, 2.5), 1.0 / 10000000000000.0, 10000000000000000.0)
    ensures Within(Mul(Mul(c, 2.5), 1000.0), 1.0 / 10000000000000.0, 10000000000000000.0)
  {
    FlWithin(c * 1000.0, 1.0 / 600000000000.0, 60129542144000.0);
    FlWithin(c * 2.5, 1.0 / 600000000000.0, 150323855360.0);
    FlWithin(Mul(c, 2.5) * 1000.0, 1.0 / 1200000000000.0, 300647710720000.0);
  }

  // ---------------------------------------------------------------- sums

  /** What 32-bit arithmetic keeps of x. */
  function Wrap(x: int): int32
    decreases if x < 0 then -x else x + 1
  {
    if x >= 0x8000_0000 then Wrap(x - 0x1_0000_0000)
    else if x < -0x8000_0000 then Wrap(x + 0x1_0000_0000)
    else x
  }

  /** It is the one 32-bit number that differs from x by a multiple of 2^32. */
  lemma {:induction false} WrapCongruent(x: int)
    ensures exists k: int {:trigger k * 0x1_0000_0000} :: Wrap(x) == x + k * 0x1_0000_0000
    decreases if x < 0 then -x else x + 1
  {
    if x >= 0x8000_0000 {
      WrapCongruent(x - 0x1_0000_0000);
      var k: int :| Wrap(x) == x - 0x1_0000_0000 + k * 0x1_0000_0000;
      assert Wrap(x) == x + (k - 1) * 0x1_0000_0000;
    } else if x < -0x8000_0000 {
      WrapCongruent(x + 0x1_0000_0000);
      var k: int :| Wrap(x) == x + 0x1_0000_0000 + k * 0x1_0000_0000;
      assert Wrap(x) == x + (k + 1) * 0x1_0000_0000;
    } else {
      assert Wrap(x) == x + 0 * 0x1_0000_0000;
    }
  }

  lemma {:induction false} WrapShift(x: int)
    ensures Wrap(x + 0x1_0000_0000) == Wrap(x)
    decreases if x < 0 then -x else x + 1
  {
    if x >= 0x8000_0000 {
      WrapShift(x - 0x1_0000_0000);
    }
  }

  const NoLoad := RealmSizing(0, 0, 0, 0, false)

  function Effective(s: Option<RealmSizing>, fallback: Option<RealmSizing>): RealmSizing
  {
    if s.Some? then s.value else if fallback.Some? then fallback.value else NoLoad
  }

  /** The mathematical sum of one field over a list, missing entries replaced by the fallback. */
  function Sum(field: RealmSizing -> int, sizings: seq<Option<RealmSizing>>, fallback: Option<RealmSizing>): int
  {
    if |sizings| == 0 then 0
    else Sum(field, sizings[..|sizings| - 1], fallback) + field(Effective(sizings[|sizings| - 1], fallback))
  }

  const Logins := (r: RealmSizing) => r.logins as int
  const ClientGrants := (r: RealmSizing) => r.clientGrants as int
  const RefreshGrants := (r: RealmSizing) => r.refreshGrants as int
  const CachedSessions := (r: RealmSizing) => r.cachedSessions as int

  function Summed(sizings: seq<Option<RealmSizing>>, fallback: Option<RealmSizing>): RealmSizing
  {
    RealmSizing(
      Wrap(Sum(Logins, sizings, fallback)),
      Wrap(Sum(ClientGrants, sizings, fallback)),
      Wrap(Sum(RefreshGrants, sizings, fallback)),
      Wrap(Sum(CachedSessions, sizings, fallback)),
      false)
  }

  function Plus(a: RealmSizing, b: RealmSizing): RealmSizing
  {
    RealmSizing(
      Wrap(a.logins + b.logins),
      Wrap(a.clientGrants + b.clientGrants),
      Wrap(a.refreshGrants + b.refreshGrants),
      Wrap(a.cachedSessions + b.cachedSessions),
      a.disableCPULimits)
  }

  lemma {:induction false} WrapAdds(x: int, y: int)
    ensures Wrap(Wrap(x) + y) == Wrap(x + y)
    decreases if x < 0 then -x else x + 1
  {
    if x >= 0x8000_0000 {
      WrapAdds(x - 0x1_0000_0000, y);
      WrapShift(x - 0x1_0000_0000 + y);
    } else if x < -0x8000_0000 {
      WrapAdds(x + 0x1_0000_0000, y);
      WrapShift(x + y);
    }
  }

  method SumSizing(sizings: seq<Option<RealmSizing>>, fallback: Option<RealmSizing>) returns (sum: RealmSizing)
    ensures sum == Summed(sizings, fallback)
    ensures forall i | 0 <= i < |sizings| && sizings[i].None? && fallback.Some? ::
      sum == Summed(sizings[i := fallback], fallback)
  {
    sum := NoLoad;
    for i := 0 to |sizings|
      invariant sum == Summed(sizings[..i], fallback)
    {
      assert sizings[..i + 1][..i] == sizings[..i];
      SummedStep(sizings[..i + 1], fallback);
      if sizings[i].None? {
        if fallback.Some? {
          sum := Plus(sum, fallback.value);
        }
      } else {
        sum := Plus(sum, sizings[i].value);
      }
    }
    assert sizings[..|sizings|] == sizings;
    forall i | 0 <= i < |sizings| && sizings[i].None? && fallback.Some?
      ensures sum == Summed(sizings[i := fallback], fallback)
    {
      MissingCountsAsDefault(sizings, i, fallback);
    }
  }

  lemma {:induction false} MissingField(
    field: RealmSizing -> int, s: seq<Option<RealmSizing>>, i: nat, fallback: Option<RealmSizing>)
    requires i < |s| && s[i].None? && fallback.Some?
    ensures Sum(field, s[i := fallback], fallback) == Sum(field, s, fallback)
  {
    var k, t := |s| - 1, s[i := fallback];
    if i < k {
      MissingField(field, s[..k], i, fallback);
      assert t[..k] == s[..k][i := fallback] && t[k] == s[k];
    } else {
      assert t[..k] == s[..k];
    }
  }

  /** A missing sizing counts as the default. */
  lemma MissingCountsAsDefault(s: seq<Option<RealmSizing>>, i: nat, fallback: Option<RealmSizing>)
    requires i < |s| && s[i].None? && fallback.Some?
    ensures Summed(s[i := fallback], fallback) == Summed(s, fallback)
  {
    MissingField(Logins, s, i, fallback);
    MissingField(ClientGrants, s, i, fallback);
    MissingField(RefreshGrants, s, i, fallback);
    MissingField(CachedSessions, s, i, fallback);
  }

  /** A single sizing is its own sum, and without a default a missing one adds nothing. */
  lemma SingleSizing(r: RealmSizing, fallback: Option<RealmSizing>)
    ensures Summed([Some(r)], fallback) == r.(disableCPULimits := false)
    ensures Summed([None], None) == RealmSizing(0, 0, 0, 0, false)
  {
    assert [Some(r)][..0] == [];
    SingleSum(Logins, Some(r), fallback);
    SingleSum(ClientGrants, Some(r), fallback);
    SingleSum(RefreshGrants, Some(r), fallback);
    SingleSum(CachedSessions, Some(r), fallback);
    SingleSum(Logins, None, None);
    SingleSum(ClientGrants, None, None);
    SingleSum(RefreshGrants, None, None);
    SingleSum(CachedSessions, None, None);
  }

  lemma SingleSum(field: RealmSizing -> int, s: Option<RealmSizing>, fallback: Option<RealmSizing>)
    ensures Sum(field, [s], fallback) == field(Effective(s, fallback))
  {
    assert [s][..0] == [];
  }

  lemma SummedStep(s: seq<Option<RealmSizing>>, fallback: Option<RealmSizing>)
    requires |s| > 0
    ensures Summed(s, fallback) == Plus(Summed(s[..|s| - 1], fallback), Effective(s[|s| - 1], fallback))
    ensures s[|s| - 1].None? && fallback.None? ==> Summed(s, fallback) == Summed(s[..|s| - 1], fallback)
  {
    var before, last := s[..|s| - 1], Effective(s[|s| - 1], fallback);
    WrapAdds(Sum(Logins, before, fallback), last.logins);
    WrapAdds(Sum(ClientGrants, before, fallback), last.clientGrants);
    WrapAdds(Sum(RefreshGrants, before, fallback), last.refreshGrants);
    WrapAdds(Sum(CachedSessions, before, fallback), last.cachedSessions);
  }

  lemma {:induction false} SumConcat(
    field: RealmSizing -> int, a: seq<Option<RealmSizing>>, b: seq<Option<RealmSizing>>, fallback: Option<RealmSizing>)
    ensures Sum(field, a + b, fallback) == Sum(field, a, fallback) + Sum(field, b, fallback)
  {
    if |b| == 0 {
      assert a + b == a;
    } else {
      var rest := b[..|b| - 1];
      SumConcat(field, a, rest, fallback);
      assert (a + b)[..|a + b| - 1] == a + rest;
    }
  }

  /** Summing distributes over concatenation, wrap-around included. */
  lemma SummedConcat(a: seq<Option<RealmSizing>>, b: seq<Option<RealmSizing>>, fallback: Option<RealmSizing>)
    ensures Summed(a + b, fallback) == Plus(Summed(a, fallback), Summed(b, fallback))
  {
    FieldConcat(Logins, a, b, fallback);
    FieldConcat(ClientGrants, a, b, fallback);
    FieldConcat(RefreshGrants, a, b, fallback);
    FieldConcat(CachedSessions, a, b, fallback);
  }

  lemma FieldConcat(
    field: RealmSizing -> int, a: seq<Option<RealmSizing>>, b: seq<Option<RealmSizing>>, fallback: Option<RealmSizing>)
    ensures Wrap(Sum(field, a + b, fallback)) == Wrap(Wrap(Sum(field, a, fallback)) + Wrap(Sum(field, b, fallback)))
  {
    var x, y := Sum(field, a, fallback), Sum(field, b, fallback);
    SumConcat(field, a, b, fallback);
    WrapAdds(x, Wrap(y));
    WrapAdds(y, x);
  }

  // ---------------------------------------------------------------- requests of sums

  ghost predicate NonNegative(r: RealmSizing)
  {
    r.logins >= 0 && r.clientGrants >= 0 && r.refreshGrants >= 0
  }

  ghost predicate AllNonNegative(sizings: seq<Option<RealmSizing>>, fallback: Option<RealmSizing>)
  {
    forall i | 0 <= i < |sizings| :: NonNegative(Effective(sizings[i], fallback))
  }

  ghost predicate Fits(sizings: seq<Option<RealmSizing>>, fallback: Option<RealmSizing>)
  {
    && Sum(Logins, sizings, fallback) < 0x8000_0000
    && Sum(ClientGrants, sizings, fallback) < 0x8000_0000
    && Sum(RefreshGrants, sizings, fallback) < 0x8000_0000
  }

  /** The loads of the separate sizings. */
  function LoadList(sizings: seq<Option<RealmSizing>>, fallback: Option<RealmSizing>): (r: seq<nat>)
    ensures |r| == |sizings|
  {
    if |sizings| == 0 then []
    else LoadList(sizings[..|sizings| - 1], fallback) + [Load(Effective(sizings[|sizings| - 1], fallback))]
  }

  function Total(xs: seq<nat>): nat
  {
    if |xs| == 0 then 0 else Total(xs[..|xs| - 1]) + xs[|xs| - 1]
  }

  lemma {:induction false} LoadsBySum(sizings: seq<Option<RealmSizing>>, fallback: Option<RealmSizing>)
    requires AllNonNegative(sizings, fallback)
    ensures var l, c, r := Sum(Logins, sizings, fallback), Sum(ClientGrants, sizings, fallback),
      Sum(RefreshGrants, sizings, fallback);
            l >= 0 && c >= 0 && r >= 0 && Total(LoadList(sizings, fallback)) == 8 * l + c + r
  {
    if |sizings| > 0 {
      var k := |sizings| - 1;
      assert NonNegative(Effective(sizings[k], fallback));
      LoadsBySum(sizings[..k], fallback);
      LoadLinear(Effective(sizings[k], fallback));
      TotalPush(LoadList(sizings[..k], fallback), Load(Effective(sizings[k], fallback)));
    }
  }

  lemma LoadLinear(r: RealmSizing)
    requires NonNegative(r)
    ensures Load(r) == 8 * r.logins + r.clientGrants + r.refreshGrants
  {
  }

  lemma TotalPush(xs: seq<nat>, x: nat)
    ensures Total(xs + [x]) == Total(xs) + x
  {
    assert (xs + [x])[..|xs|] == xs;
  }

  lemma WrapSmall(x: int)
    requires 0 <= x < 0x8000_0000
    ensures Wrap(x) == x
  {
  }

  /** Without overflow, the load of the sum is the sum of the loads. */
  lemma LoadOfSum(sizings: seq<Option<RealmSizing>>, fallback: Option<RealmSizing>)
    requires AllNonNegative(sizings, fallback) && Fits(sizings, fallback)
    ensures Load(Summed(sizings, fallback)) == Total(LoadList(sizings, fallback))
  {
    LoadsBySum(sizings, fallback);
    WrapSmall(Sum(Logins, sizings, fallback));
    WrapSmall(Sum(ClientGrants, sizings, fallback));
    WrapSmall(Sum(RefreshGrants, sizings, fallback));
  }

  lemma QuotientSum(a: nat, b: nat, d: nat)
    requires d >= 1
    ensures Quotient(a, d) + Quotient(b, d) <= Quotient(a + b, d) <= Quotient(a, d) + Quotient(b, d) + 1
  {
    var p, q, s := Quotient(a, d), Quotient(b, d), Quotient(a + b, d);
    QuotientBounds(a, d);
    QuotientBounds(b, d);
    QuotientBounds(a + b, d);
    Expanded(p, q, d);
    Expanded(p + 1, q + 1, d);
    Cancel(p + q, s + 1, d);
    Cancel(s, p + 1 + (q + 1), d);
  }

  lemma Expanded(p: int, q: int, d: int)
    ensures (p + q) * d == p * d + q * d
  {
  }

  ghost predicate AdditiveAt(f: nat -> nat, a: nat, b: nat)
  {
    f(a) + f(b) <= f(a + b) <= f(a) + f(b) + 1
  }

  /** Like a floor: additive up to one. */
  ghost predicate AlmostAdditive(f: nat -> nat)
  {
    forall a: nat, b: nat :: AdditiveAt(f, a, b)
  }

  /** The figures f of the entries, added up. */
  function TotalOf(f: nat -> nat, xs: seq<nat>): nat
  {
    if |xs| == 0 then 0 else TotalOf(f, xs[..|xs| - 1]) + f(xs[|xs| - 1])
  }

  lemma {:induction false} TotalAlmostAdditive(f: nat -> nat, xs: seq<nat>)
    requires AlmostAdditive(f) && |xs| >= 1
    ensures TotalOf(f, xs) <= f(Total(xs)) <= TotalOf(f, xs) + |xs| - 1
  {
    var k := |xs| - 1;
    if k == 0 {
      assert Total(xs) == xs[0];
    } else {
      TotalAlmostAdditive(f, xs[..k]);
      assert AdditiveAt(f, Total(xs[..k]), xs[k]);
    }
  }

  lemma RequestSum(a: nat, b: nat, n: nat)
    requires n >= 1
    ensures ExactRequest(a, n) + ExactRequest(b, n) <= ExactRequest(a + b, n) <= ExactRequest(a, n) + ExactRequest(b,
      n) + 1
  {
    QuotientSum(25 * a, 25 * b, 3 * n);
  }

  /**
    Sizing for the sum asks for at least what the separate sizings ask for together, and for at
    most one millicore more per sizing beyond the first.
  */
  lemma RequestOfSum(sizings: seq<Option<RealmSizing>>, fallback: Option<RealmSizing>, n: nat)
    requires n >= 1 && |sizings| >= 1 && AllNonNegative(sizings, fallback) && Fits(sizings, fallback)
    ensures var separate := TotalOf(load => ExactRequest(load, n), LoadList(sizings, fallback));
            separate <= ExactRequest(Load(Summed(sizings, fallback)), n) <= separate + |sizings| - 1
  {
    var f := (load: nat) => ExactRequest(load, n);
    forall a: nat, b: nat ensures AdditiveAt(f, a, b) {
      RequestSum(a, b, n);
    }
    LoadOfSum(sizings, fallback);
    TotalAlmostAdditive(f, LoadList(sizings, fallback));
  }
}
