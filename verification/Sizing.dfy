/** The CPU sizing of a Keycloak, computed in float64 by the operator. */
module Sizing {

  import opened Names
  import opened Float64

  type int32 = x: int | -0x8000_0000 <= x < 0x8000_0000

  datatype RealmSizing = RealmSizing(
    logins: int32,
    clientGrants: int32,
    refreshGrants: int32,
    cachedSessions: int32,
    disableCPULimits: bool)

  /** CPU figures in millicores; the memory figures are constants and left out. */
  datatype Requirements = Requirements(cpuRequest: int, cpuLimit: Option<int>)

  function Positive(x: int): nat { if x > 0 then x else 0 }

  /** The load in units of 1/120 core, negative rates counting as none. */
  function Load(r: RealmSizing): nat
  {
    8 * Positive(r.logins) + Positive(r.clientGrants) + Positive(r.refreshGrants)
  }

  // ---------------------------------------------------------------- exact arithmetic

  function Quotient(num: nat, den: nat): (q: nat)
    requires den >= 1
  {
    num / den
  }

  lemma QuotientBounds(num: nat, den: nat)
    requires den >= 1
    ensures Quotient(num, den) * den <= num < (Quotient(num, den) + 1) * den
  {
  }

  /** Floor of the millicores each instance needs for its share of the load. */
  function ExactRequest(load: nat, n: nat): nat
    requires n >= 1
  {
    Quotient(25 * load, 3 * n)
  }

  /** Floor of 2.5 times the millicores each instance needs. */
  function ExactLimit(load: nat, n: nat): nat
    requires n >= 1
  {
    Quotient(125 * load, 6 * n)
  }

  /** v is the floor of num/den, or one below it when num/den is a whole number. */
  predicate Truncates(v: int, num: nat, den: nat)
    requires den >= 1
  {
    var q := Quotient(num, den);
    v == q || (num == q * den && v == q - 1)
  }

  // ---------------------------------------------------------------- the computation

  /** One share of the load: rate / (perCore * instances), in float64. */
  function Share(rate: int32, perCore: nat, n: int32): (c: real)
    requires 1 <= perCore <= 120 && n >= 1
    ensures c >= 0.0
  {
    if rate > 0 then
      DivisorExact(perCore, n);
      Div(FromInt(rate), Mul(FromInt(perCore), FromInt(n)))
    else
      0.0
  }

  lemma DivisorExact(perCore: nat, n: int32)
    requires 1 <= perCore <= 120 && n >= 1
    ensures Mul(FromInt(perCore), FromInt(n)) == (perCore * n) as real >= 1.0
  {
    IntegersExact(perCore);
    IntegersExact(n);
    ProductBounds(perCore, n);
    var m: nat := perCore * n;
    IntegersExact(m);
    RealProduct(perCore, n);
    assert Mul(FromInt(perCore), FromInt(n)) == Fl(m as real) == FromInt(m);
  }

  lemma RealProduct(a: nat, b: nat)
    ensures a as real * b as real == (a * b) as real
  {
  }

  lemma ProductBounds(a: nat, n: int32)
    requires 1 <= a <= 120 && n >= 1
    ensures 1 <= a * n <= 120 * n
  {
  }

  /** The per-instance cores, added up share by share; a rate that is not positive adds nothing. */
  function Cores(r: RealmSizing, n: int32): (c: real)
    requires n >= 1
    ensures c >= 0.0
  {
    var c := if r.logins > 0 then Add(0.0, Share(r.logins, 15, n)) else 0.0;
    var c := if r.clientGrants > 0 then Add(c, Share(r.clientGrants, 120, n)) else c;
    if r.refreshGrants > 0 then Add(c, Share(r.refreshGrants, 120, n)) else c
  }

  function RequestOf(cores: real): int
    requires cores >= 0.0
  {
    Mul(cores, 1000.0).Floor
  }

  function LimitOf(cores: real): int
    requires cores >= 0.0
  {
    Mul(Mul(cores, 2.5), 1000.0).Floor
  }

  // ---------------------------------------------------------------- error analysis

  /** a is x up to k parts in 2^53. */
  ghost predicate Near(a: real, x: real, k: nat)
  {
    a >= 0.0 && x >= 0.0 && Distance(a, x) * High <= Times(k, x)
  }

  /** k * x by repeated addition, which keeps the bounds linear. */
  ghost function Times(k: nat, x: real): real
    decreases k
  {
    if k == 0 then 0.0 else Times(k - 1, x) + x
  }

  lemma {:induction false} TimesMonotone(j: nat, k: nat, x: real)
    requires j <= k && x >= 0.0
    ensures Times(j, x) <= Times(k, x)
  {
    if j < k { TimesMonotone(j, k - 1, x); }
  }

  lemma {:induction false} TimesSum(k: nat, x: real, y: real)
    ensures Times(k, x + y) == Times(k, x) + Times(k, y)
  {
    if k > 0 { TimesSum(k - 1, x, y); }
  }

  lemma {:induction false} TimesScaled(k: nat, x: real)
    ensures Times(k, x * 1000.0) == Times(k, x) * 1000.0
    ensures Times(k, x * 2.5) == Times(k, x) * 2.5
  {
    if k > 0 { TimesScaled(k - 1, x); }
  }

  lemma NearWeaken(a: real, x: real, j: nat, k: nat)
    requires Near(a, x, j) && j <= k
    ensures Near(a, x, k)
  {
    TimesMonotone(j, k, x);
  }

  /** One more rounding costs at most two more parts. */
  lemma NearFl(y: real, x: real, k: nat)
    requires Near(y, x, k) && k <= 16
    ensures Near(Fl(y), x, k + 2)
  {
    FlError(y);
    TimesMonotone(k, 16, x);
    SixteenTimes(x);
    OneMore(Fl(y), y, x, Times(k, x));
  }

  lemma OneMore(f: real, y: real, x: real, m: real)
    requires x >= 0.0 && m <= 16.0 * x
    requires Distance(f, y) <= y / High && Distance(y, x) * High <= m
    ensures Distance(f, x) * High <= m + x + x
  {
  }

  lemma SixteenTimes(x: real)
    ensures Times(16, x) == 16.0 * x
  {
    assert Times(4, x) == 4.0 * x;
    assert Times(8, x) == 8.0 * x;
    assert Times(12, x) == 12.0 * x;
  }

  lemma NearSum(a: real, x: real, b: real, y: real, k: nat)
    requires Near(a, x, k) && Near(b, y, k)
    ensures Near(a + b, x + y, k)
  {
    TimesSum(k, x, y);
  }

  lemma NearTimes(a: real, x: real, k: nat)
    requires Near(a, x, k)
    ensures Near(a * 1000.0, x * 1000.0, k) && Near(a * 2.5, x * 2.5, k)
  {
    TimesScaled(k, x);
  }

  lemma ScaleUp(a: real, b: real, s: real)
    requires a <= b && s >= 0.0
    ensures a * s <= b * s
  {
  }

  // ---------------------------------------------------------------- the error bound

  /** The share without rounding. */
  ghost function ExactShare(rate: int32, perCore: nat, n: int32): real
    requires 1 <= perCore <= 120 && n >= 1
  {
    ProductBounds(perCore, n);
    Positive(rate) as real / (perCore * n) as real
  }

  lemma ShareNear(rate: int32, perCore: nat, n: int32)
    requires 1 <= perCore <= 120 && n >= 1
    ensures Near(Share(rate, perCore, n), ExactShare(rate, perCore, n), 2)
  {
    DivisorExact(perCore, n);
    ProductBounds(perCore, n);
    var x := ExactShare(rate, perCore, n);
    QuotientNonNegative(Positive(rate) as real, (perCore * n) as real);
    assert Near(x, x, 0);
    if rate > 0 {
      IntegersExact(rate);
      NearFl(x, x, 0);
    } else {
      ZeroOver((perCore * n) as real);
    }
  }

  lemma ZeroOver(d: real)
    requires d > 0.0
    ensures 0.0 / d == 0.0
  {
  }

  /** Adding a share, or skipping it when its rate is not positive, keeps the sum near. */
  lemma AddNear(c: real, x: real, rate: int32, perCore: nat, n: int32, k: nat)
    requires 1 <= perCore <= 120 && n >= 1
    requires Near(c, x, k) && 2 <= k <= 14
    ensures Near(if rate > 0 then Add(c, Share(rate, perCore, n)) else c, x + ExactShare(rate, perCore, n), k + 2)
  {
    ShareNear(rate, perCore, n);
    var s, y := Share(rate, perCore, n), ExactShare(rate, perCore, n);
    NearWeaken(s, y, 2, k);
    NearSum(c, x, s, y, k);
    if rate > 0 {
      NearFl(c + s, x + y, k);
    } else {
      NearWeaken(c, x + y, k, k + 2);
    }
  }

  ghost function ExactCores(r: RealmSizing, n: int32): real
    requires n >= 1
  {
    ExactShare(r.logins, 15, n) + ExactShare(r.clientGrants, 120, n) + ExactShare(r.refreshGrants, 120, n)
  }

  lemma CoresNear(r: RealmSizing, n: int32)
    requires n >= 1
    ensures Near(Cores(r, n), ExactCores(r, n), 8)
  {
    assert Near(0.0, 0.0, 2);
    var l := ExactShare(r.logins, 15, n);
    AddNear(0.0, 0.0, r.logins, 15, n, 2);
    var c1 := if r.logins > 0 then Add(0.0, Share(r.logins, 15, n)) else 0.0;
    AddNear(c1, l, r.clientGrants, 120, n, 4);
    var c2 := if r.clientGrants > 0 then Add(c1, Share(r.clientGrants, 120, n)) else c1;
    AddNear(c2, l + ExactShare(r.clientGrants, 120, n), r.refreshGrants, 120, n, 6);
  }

  /** Exactly: 120 * n * cores is the load. */
  lemma ExactCoresLoad(r: RealmSizing, n: int32)
    requires n >= 1
    ensures Ratio(ExactCores(r, n), Load(r), 120 * n)
  {
    var u := n as real;
    ShareTimes(Positive(r.logins) as real, 15.0, 8.0, u);
    ShareTimes(Positive(r.clientGrants) as real, 120.0, 1.0, u);
    ShareTimes(Positive(r.refreshGrants) as real, 120.0, 1.0, u);
    RealProduct(15, n);
    RealProduct(120, n);
    Distribute(ExactShare(r.logins, 15, n), ExactShare(r.clientGrants, 120, n), ExactShare(r.refreshGrants, 120, n),
        120.0 * u);
  }

  lemma Distribute(a: real, b: real, c: real, d: real)
    ensures (a + b + c) * d == a * d + b * d + c * d
  {
  }

  lemma ShareTimes(rate: real, p: real, k: real, u: real)
    requires u > 0.0 && (p, k) in {(15.0, 8.0), (120.0, 1.0)}
    ensures p * u > 0.0
    ensures rate / (p * u) * (120.0 * u) == k * rate
  {
    var s := rate / (p * u);
    assert s * (p * u) == rate;
    assert 120.0 == k * p;
    assert s * (120.0 * u) == k * (s * (p * u));
  }

  /** A value within less than 1/den of num/den truncates as claimed. */
  lemma CloseTruncates(v: real, num: nat, den: nat)
    requires den >= 1
    requires -1.0 < v * den as real - num as real < 1.0
    ensures Truncates(v.Floor, num, den)
  {
    var f := v.Floor;
    FloorBelow(v, f, num, den);
    FloorAbove(v, f + 1, num, den);
    QuotientBounds(num, den);
    Pinned(f, Quotient(num, den), num, den);
  }

  lemma FloorBelow(v: real, f: int, num: nat, den: nat)
    requires f as real <= v && v * den as real < num as real + 1.0
    ensures f * den <= num
  {
    ScaleUp(f as real, v, den as real);
    RealProduct2(f, den);
  }

  lemma FloorAbove(v: real, f: int, num: nat, den: nat)
    requires v <= f as real && v * den as real > num as real - 1.0
    ensures f * den >= num
  {
    ScaleUp(v, f as real, den as real);
    RealProduct2(f, den);
  }

  lemma RealProduct2(a: int, b: int)
    ensures a as real * b as real == (a * b) as real
  {
  }

  lemma Pinned(f: int, q: nat, num: nat, den: nat)
    requires den >= 1 && q * den <= num < (q + 1) * den
    requires f * den <= num <= (f + 1) * den
    ensures f == q || (num == q * den && f == q - 1)
  {
    if f > q {
      Ordered(q + 1, f, den);
    } else if f < q {
      Ordered(f + 1, q, den);
      if f + 1 < q {
        Ordered(f + 2, q, den);
      }
    }
  }

  lemma Ordered(a: int, b: int, d: nat)
    requires a <= b
    ensures a * d <= b * d
  {
  }

  /** From a relative error to the truncated figure. */
  lemma NearTruncates(v: real, x: real, num: nat, den: nat)
    requires Near(v, x, 12) && Ratio(x, num, den) && num < 0x1_0000_0000_0000
    ensures Truncates(v.Floor, num, den)
  {
    TimesMonotone(12, 16, x);
    SixteenTimes(x);
    SmallGap(v, x, den as real, num as real);
    CloseTruncates(v, num, den);
  }

  lemma SmallGap(v: real, x: real, d: real, n: real)
    requires d >= 1.0 && x * d == n < 281474976710656.0
    requires Distance(v, x) * High <= 16.0 * x
    ensures -1.0 < v * d - n < 1.0
  {
    ScaleUp(9007199254740992.0 * v, 9007199254741008.0 * x, d);
    ScaleUp(9007199254740976.0 * x, 9007199254740992.0 * v, d);
    Regrouped(v, x, d);
  }

  lemma Regrouped(v: real, x: real, d: real)
    ensures 9007199254740992.0 * v * d == 9007199254740992.0 * (v * d)
    ensures 9007199254741008.0 * x * d == 9007199254741008.0 * (x * d)
    ensures 9007199254740976.0 * x * d == 9007199254740976.0 * (x * d)
  {
  }

  lemma LoadBound(r: RealmSizing)
    ensures 125 * Load(r) < 0x1_0000_0000_0000
  {
  }

  /** x is num/den. */
  ghost predicate Ratio(x: real, num: nat, den: nat)
  {
    den >= 1 && x * den as real == num as real
  }

  lemma RequestTruncates(c: real, x: real, num: nat, den: nat)
    requires Near(c, x, 8) && Ratio(x * 1000.0, num, den) && num < 0x1_0000_0000_0000
    ensures Truncates(RequestOf(c), num, den)
  {
    RequestNear(c, x);
    NearTruncates(Mul(c, 1000.0), x * 1000.0, num, den);
  }

  lemma LimitTruncates(c: real, x: real, num: nat, den: nat)
    requires Near(c, x, 8) && Ratio(x * 2.5 * 1000.0, num, den) && num < 0x1_0000_0000_0000
    ensures Truncates(LimitOf(c), num, den)
  {
    LimitNear(c, x);
    NearTruncates(Mul(Mul(c, 2.5), 1000.0), x * 2.5 * 1000.0, num, den);
  }

  lemma RequestNear(c: real, x: real)
    requires Near(c, x, 8)
    ensures Near(Mul(c, 1000.0), x * 1000.0, 12)
  {
    NearTimes(c, x, 8);
    NearFl(c * 1000.0, x * 1000.0, 8);
    NearWeaken(Mul(c, 1000.0), x * 1000.0, 10, 12);
  }

  lemma LimitNear(c: real, x: real)
    requires Near(c, x, 8)
    ensures Near(Mul(Mul(c, 2.5), 1000.0), x * 2.5 * 1000.0, 12)
  {
    NearTimes(c, x, 8);
    NearFl(c * 2.5, x * 2.5, 8);
    var d := Mul(c, 2.5);
    NearTimes(d, x * 2.5, 10);
    NearFl(d * 1000.0, x * 2.5 * 1000.0, 10);
  }

  lemma ExactRatios(r: RealmSizing, n: int32)
    requires n >= 1
    ensures Ratio(ExactCores(r, n) * 1000.0, 25 * Load(r), 3 * n)
    ensures Ratio(ExactCores(r, n) * 2.5 * 1000.0, 125 * Load(r), 6 * n)
  {
    ExactCoresLoad(r, n);
    Rescale(ExactCores(r, n), n, Load(r));
  }

  lemma Rescale(x: real, n: int32, load: nat)
    requires n >= 1 && Ratio(x, load, 120 * n)
    ensures Ratio(x * 1000.0, 25 * load, 3 * n)
    ensures Ratio(x * 2.5 * 1000.0, 125 * load, 6 * n)
  {
    var m := x * n as real;
    assert x * (120 * n) as real == 120.0 * m;
    assert x * 1000.0 * (3 * n) as real == 3000.0 * m;
    assert x * 2.5 * 1000.0 * (6 * n) as real == 15000.0 * m;
  }

  /**
    The request is the exact floor, except that it may be one millicore short when the exact
    share is a whole number of millicores; it is never above the exact floor. So is the limit.
  */
  lemma FloatError(r: RealmSizing, n: int32)
    requires n >= 1
    ensures Truncates(RequestOf(Cores(r, n)), 25 * Load(r), 3 * n)
    ensures Truncates(LimitOf(Cores(r, n)), 125 * Load(r), 6 * n)
  {
    var c, x, load, d: nat, e: nat := Cores(r, n), ExactCores(r, n), Load(r), 3 * n, 6 * n;
    CoresNear(r, n);
    ExactRatios(r, n);
    LoadBound(r);
    RequestTruncates(c, x, 25 * load, d);
    LimitTruncates(c, x, 125 * load, e);
  }

  /** The request never exceeds the limit, and both are non-negative. */
  lemma RequestWithinLimit(c: real)
    requires c >= 0.0
    ensures 0 <= RequestOf(c) <= LimitOf(c)
  {
    FlError(c * 2.5);
    assert c <= Mul(c, 2.5);
    FlMonotone(c * 1000.0, Mul(c, 2.5) * 1000.0);
  }

  lemma TruncatedBound(v: int, num: nat, den: nat)
    requires den >= 1 && Truncates(v, num, den)
    ensures v <= num
  {
    var q := Quotient(num, den);
    QuotientBounds(num, den);
    Ordered(1, den, q);
  }

  method CalculateResourceLimits(r: RealmSizing, instances: Option<int32>) returns (q: Requirements)
    ensures var n := if instances.Some? && instances.value > 0 then instances.value else 1;
            && q.cpuRequest == RequestOf(Cores(r, n))
            && Truncates(q.cpuRequest, 25 * Load(r), 3 * n)
            && 0 <= q.cpuRequest < 0x8000_0000_0000_0000
    ensures q.cpuLimit.Some? <==> !r.disableCPULimits
    ensures q.cpuLimit.Some? ==>
              var n := if instances.Some? && instances.value > 0 then instances.value else 1;
              var limit := q.cpuLimit.value;
              && limit == LimitOf(Cores(r, n))
              && Truncates(limit, 125 * Load(r), 6 * n)
              && q.cpuRequest <= limit < 0x8000_0000_0000_0000
  {
    var inst: int32 := 1;
    if instances.Some? && instances.value > 0 {
      inst := instances.value;
    }
    var cpuCores: real := 0.0;
    if r.logins > 0 {
      cpuCores := Add(cpuCores, Share(r.logins, 15, inst));
    }
    if r.clientGrants > 0 {
      cpuCores := Add(cpuCores, Share(r.clientGrants, 120, inst));
    }
    if r.refreshGrants > 0 {
      cpuCores := Add(cpuCores, Share(r.refreshGrants, 120, inst));
    }
    assert cpuCores == Cores(r, inst);
    var cpuRequest := Mul(cpuCores, 1000.0).Floor;
    var cpuLimit := Mul(Mul(cpuCores, 2.5), 1000.0).Floor;
    q := Requirements(cpuRequest, None);
    if !r.disableCPULimits {
      q := q.(cpuLimit := Some(cpuLimit));
    }
    FloatError(r, inst);
    RequestWithinLimit(cpuCores);
    LoadBound(r);
    TruncatedBound(cpuRequest, 25 * Load(r), 3 * inst);
    TruncatedBound(cpuLimit, 125 * Load(r), 6 * inst);
  }
}
