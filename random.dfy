/**
  The seeded generator of src/lib/random.ts: a linear congruential recurrence on an integer
  seed and the samplers built on it (uniform, triangular, Poisson, log-normal).

  Numbers are exact reals. `Math.exp`, `Math.log`, `Math.sqrt`, `Math.cos` and `Math.PI`
  are supplied as a `RealMath` value; `Sound` states the only facts about them that the
  proofs use.
 */
module Random {
  import opened Wrappers

  /** The modulus of the recurrence `seed = (seed * 9301 + 49297) % 233280`; the functions
      below write its constants as literals. */
  const Modulus: nat := 233280

  /** The largest value a draw can take, (Modulus - 1) / Modulus. */
  const MaxUnit: real := 233279.0 / 233280.0

  /** The floating-point library functions the samplers call. */
  datatype RealMath = RealMath(exp: real -> real, log: real -> real, sqrt: real -> real,
                               cos: real -> real, pi: real)

  /** exp is positive, sqrt is the non-negative square root, and pi is positive. */
  ghost predicate Sound(m: RealMath) {
    && (forall x :: m.exp(x) > 0.0)
    && (forall x :: 0.0 <= x ==> 0.0 <= m.sqrt(x) && m.sqrt(x) * m.sqrt(x) == x)
    && m.pi > 0.0
  }

  /** The seed after one step of the recurrence. For a non-negative seed JavaScript's `%`
      agrees with Dafny's. */
  function Next(seed: nat): (r: nat)
    ensures r < Modulus
  {
    (seed * 9301 + 49297) % 233280
  }

  /** The seed after `n` steps. */
  function Advance(seed: nat, n: nat): (r: nat)
    ensures n > 0 ==> r < Modulus
  {
    if n == 0 then seed else Next(Advance(seed, n - 1))
  }

  /** The value `random()` returns once the seed has become `s`. */
  function Unit(s: nat): (r: real)
    ensures s < Modulus ==> 0.0 <= r < 1.0 && r <= MaxUnit
  {
    s as real / 233280.0
  }

  /** `a` steps and then `b` more are `a + b` steps. */
  lemma {:induction false} AdvanceAdd(seed: nat, a: nat, b: nat)
    ensures Advance(Advance(seed, a), b) == Advance(seed, a + b)
  {
    if b > 0 {
      AdvanceAdd(seed, a, b - 1);
    }
  }

  /** The `j`-th draw (counting from 1) made from a generator whose seed is `seed`. */
  function Draw(seed: nat, j: nat): (r: real)
    requires j >= 1
    ensures 0.0 <= r <= MaxUnit
  {
    Unit(Advance(seed, j))
  }

  /** The running product of the first `n` draws, as the small-lambda Poisson loop forms it. */
  function Product(seed: nat, n: nat): real {
    if n == 0 then 1.0 else Product(seed, n - 1) * Draw(seed, n)
  }

  /** The first two seeds and draws after `seed`, unfolded. */
  lemma FirstDraws(seed: nat)
    ensures Advance(seed, 1) == Next(seed) && Advance(seed, 2) == Next(Next(seed))
    ensures Draw(seed, 1) == Unit(Next(seed)) && Draw(seed, 2) == Unit(Next(Next(seed)))
  {
  }

  /** One more draw multiplies the running product by that draw. */
  lemma ProductStep(seed: nat, k: nat, p: real, u: real)
    requires p == Product(seed, k) && u == Unit(Advance(seed, k + 1))
    ensures p * u == Product(seed, k + 1)
  {
  }

  /** `x * y` and `x * y * z` as named terms. The samplers' formulas multiply differences such
      as `max - min`; written through these functions, every such product is a single term that
      the lemmas below can state facts about. */
  function Scale(x: real, y: real): real {
    x * y
  }

  function Mul3(x: real, y: real, z: real): real {
    x * y * z
  }

  lemma MulPos(x: real, y: real)
    requires 0.0 < x && 0.0 < y
    ensures 0.0 < x * y
  {
  }

  /** The measure that the small-lambda Poisson loop decreases. */
  function InverseMeasure(p: real, bound: real): int
    requires bound > 0.0
  {
    (p * 233280.0 / bound).Floor
  }

  /** While the product is above the bound, one more factor no larger than MaxUnit lowers the
      measure by at least one. */
  lemma InverseProgress(p: real, u: real, bound: real)
    requires 0.0 < bound < p && 0.0 <= u <= MaxUnit
    ensures 0 <= InverseMeasure(p * u, bound) < InverseMeasure(p, bound)
  {
    var q := p * 233280.0 / bound;
    var m := p * u * 233280.0 / bound;
    assert m == q * u;
    assert q * u <= q * MaxUnit;
    assert q * MaxUnit == q - p / bound;
    assert p / bound > 1.0;
    assert 0.0 <= m < q - 1.0;
    assert m.Floor < q.Floor;
  }

  lemma SquareMonotone(a: real, b: real)
    requires 0.0 <= a && 0.0 <= b
    ensures a * a < b * b ==> a < b
    ensures a * a <= b * b ==> a <= b
  {
    if a > b {
      MulPos(a - b, a + b);
      assert (a - b) * (a + b) == a * a - b * b;
    }
  }

  /** A square root of something below `b * b` is below `b`. */
  lemma SqrtBelow(m: RealMath, x: real, b: real)
    requires Sound(m) && 0.0 <= x && 0.0 <= b
    ensures 0.0 <= m.sqrt(x)
    ensures x < b * b ==> m.sqrt(x) < b
    ensures x <= b * b ==> m.sqrt(x) <= b
  {
    var s := m.sqrt(x);
    assert 0.0 <= s && s * s == x;
    SquareMonotone(s, b);
  }

  /** Whether `triangular` takes its first branch for draw `u`, with JavaScript's division by
      zero when `max == min`: a positive numerator gives +Infinity, a negative one -Infinity
      and a zero one NaN, and only the first compares above `u`. */
  function TriangularLower(u: real, min: real, mode: real, max: real): bool {
    if max == min then mode - min > 0.0 else u < (mode - min) / (max - min)
  }

  /** The inverse-CDF value `triangular` returns for draw `u`. */
  function TriangularValue(u: real, min: real, mode: real, max: real, m: RealMath): real {
    if TriangularLower(u, min, mode, max) then min + m.sqrt(Mul3(u, max - min, mode - min))
    else max - m.sqrt(Mul3(1.0 - u, max - min, max - mode))
  }

  lemma BelowRatio(u: real, d: real, w: real)
    requires 0.0 < w && u < d / w
    ensures u * w < d
  {
  }

  lemma AtLeastRatio(u: real, d: real, w: real)
    requires 0.0 < w && u >= d / w
    ensures u * w >= d
  {
  }

  lemma ProductBelowSquare(t: real, e: real)
    requires 0.0 <= t <= e
    ensures 0.0 <= t * e <= e * e
    ensures t < e ==> t * e < e * e
  {
  }

  /** The square-root argument of the first branch stays below (mode - min)^2. */
  lemma LowerBranchArgument(u: real, w: real, d: real)
    requires 0.0 <= u && 0.0 < w && u < d / w
    ensures 0.0 <= Mul3(u, w, d) < d * d
  {
    BelowRatio(u, d, w);
    assert 0.0 <= u * w;
    ProductBelowSquare(u * w, d);
  }

  lemma ScaledRest(u: real, w: real, d: real, e: real)
    requires u < 1.0 && 0.0 < w && u * w >= d && d + e == w
    ensures 0.0 <= (1.0 - u) * w <= e
  {
  }

  /** The square-root argument of the second branch stays within (max - mode)^2. */
  lemma UpperBranchArgument(u: real, w: real, d: real, e: real)
    requires 0.0 <= u < 1.0 && 0.0 < w && 0.0 <= e && d + e == w && u >= d / w
    ensures 0.0 <= Mul3(1.0 - u, w, e) <= e * e
  {
    AtLeastRatio(u, d, w);
    ScaledRest(u, w, d, e);
    ProductBelowSquare((1.0 - u) * w, e);
  }

  /** On the first branch of a well-formed triangle the value lies in [min, mode). */
  lemma TriangularLowerBranch(u: real, min: real, mode: real, max: real, m: RealMath)
    requires Sound(m) && 0.0 <= u < 1.0 && min <= mode <= max && min < max
    requires u < (mode - min) / (max - min)
    ensures min <= min + m.sqrt(Mul3(u, max - min, mode - min)) < mode
  {
    LowerBranchArgument(u, max - min, mode - min);
    SqrtBelow(m, Mul3(u, max - min, mode - min), mode - min);
  }

  /** On the second branch of a well-formed triangle the value lies in [mode, max]. */
  lemma TriangularUpperBranch(u: real, min: real, mode: real, max: real, m: RealMath)
    requires Sound(m) && 0.0 <= u < 1.0 && min <= mode <= max && min < max
    requires u >= (mode - min) / (max - min)
    ensures mode <= max - m.sqrt(Mul3(1.0 - u, max - min, max - mode)) <= max
  {
    UpperBranchArgument(u, max - min, mode - min, max - mode);
    SqrtBelow(m, Mul3(1.0 - u, max - min, max - mode), max - mode);
  }

  /** The square root of zero is zero. */
  lemma SqrtZero(m: RealMath)
    requires Sound(m)
    ensures m.sqrt(0.0) == 0.0
  {
    SqrtBelow(m, 0.0, 0.0);
  }

  /** For a well-formed triangle the value lies in [min, max], below `mode` exactly when the
      first branch is taken; a triangle with min == max returns its single point whatever the
      draw, on whichever branch the division by zero sends it. */
  lemma TriangularBounds(u: real, min: real, mode: real, max: real, m: RealMath)
    requires Sound(m) && 0.0 <= u < 1.0
    ensures min <= mode <= max && min < max ==>
      var r := TriangularValue(u, min, mode, max, m);
      min <= r <= max &&
      (TriangularLower(u, min, mode, max) <==> r < mode)
    ensures min == max ==> TriangularValue(u, min, mode, max, m) == min
  {
    if min <= mode <= max && min < max {
      if TriangularLower(u, min, mode, max) {
        TriangularLowerBranch(u, min, mode, max, m);
      } else {
        TriangularUpperBranch(u, min, mode, max, m);
      }
    }
    if min == max {
      SqrtZero(m);
      assert Mul3(u, max - min, mode - min) == 0.0;
      assert Mul3(1.0 - u, max - min, max - mode) == 0.0;
    }
  }

  /** A draw scaled by a positive width stays below the width. */
  lemma ScaleBelow(w: real, u: real)
    requires 0.0 < w && 0.0 <= u < 1.0
    ensures 0.0 <= Scale(w, u) < w
  {
  }

  /** The value `uniform` returns for draw `u`: in [min, max) for a draw in [0, 1). */
  function UniformValue(u: real, min: real, max: real): (r: real)
    ensures 0.0 <= u < 1.0 && min < max ==> min <= r < max
  {
    if 0.0 <= u < 1.0 && min < max then
      ScaleBelow(max - min, u);
      min + Scale(max - min, u)
    else
      min + Scale(max - min, u)
  }

  /** The Box-Muller normal deviate sqrt(-2 log u1) cos(2 pi u2) of two draws. */
  function NormalDeviate(u1: real, u2: real, m: RealMath): real {
    m.sqrt(-2.0 * m.log(u1)) * m.cos(2.0 * m.pi * u2)
  }

  /** The value `lognormal` returns for draws `u1` (the logarithm's) and `u2` (the cosine's):
      exp(mu + sigma z) for the deviate z of the two. */
  function LognormalValue(u1: real, u2: real, mu: real, sigma: real, m: RealMath): real {
    m.exp(mu + sigma * NormalDeviate(u1, u2, m))
  }

  /** A log-normal sample is positive. */
  lemma LognormalPositive(u1: real, u2: real, mu: real, sigma: real, m: RealMath)
    requires Sound(m)
    ensures LognormalValue(u1, u2, mu, sigma, m) > 0.0
  {
  }

  /** A call of one of the generator's sampling methods, with its arguments. */
  datatype Call =
    | RandomCall
    | UniformCall(min: real, max: real)
    | TriangularCall(min: real, mode: real, max: real)
    | PoissonCall(lambda: real)
    | LognormalCall(mu: real, sigma: real)

  /** Number of rounds after which the model gives up on a loop of the large-lambda Poisson
      branch. Every round of such a loop is fixed by the seed it starts from, and there are
      only Modulus seeds, so a loop running longer than this repeats a seed and never ends. */
  const RoundLimit: nat := Modulus + 2

  /** `n` is the count the inverse-transform loop returns: `n + 1` is the first number of
      draws whose running product is at most `bound`. */
  ghost predicate IsInverseCount(seed: nat, bound: real, n: int) {
    n >= 0 && Product(seed, n + 1) <= bound &&
    forall j :: 1 <= j <= n ==> Product(seed, j) > bound
  }

  /** At most one count meets that description. */
  lemma InverseCountUnique(seed: nat, bound: real, n1: int, n2: int)
    requires IsInverseCount(seed, bound, n1) && IsInverseCount(seed, bound, n2)
    ensures n1 == n2
  {
  }

  /** The constants the rejection method derives from lambda. */
  datatype RejectionParams = RejectionParams(alpha: real, beta: real, k: real)

  /** c = 0.767 - 3.36 / lambda, beta = pi / sqrt(3 lambda), alpha = beta lambda and
      k = log c - lambda - log beta; beta is positive. */
  function Params(lambda: real, m: RealMath): (p: RejectionParams)
    requires Sound(m) && lambda >= 30.0
    ensures p.beta > 0.0
  {
    var c := 0.767 - 3.36 / lambda;
    var root := m.sqrt(3.0 * lambda);
    assert root > 0.0 by { assert root * root == 3.0 * lambda; }
    var beta := m.pi / root;
    RejectionParams(beta * lambda, beta, m.log(c) - lambda - m.log(beta))
  }

  /** The proposal `(alpha - log((1 - u) / u)) / beta` for a positive draw `u`. */
  function Proposal(u: real, p: RejectionParams, m: RealMath): real
    requires u > 0.0 && p.beta > 0.0
  {
    (p.alpha - m.log((1.0 - u) / u)) / p.beta
  }

  /** The acceptance test of the rejection method: draw `u` is below
      1 - exp(-exp(k + beta x)) for proposal `x`. */
  function Accepts(u: real, x: real, p: RejectionParams, m: RealMath): bool {
    u < 1.0 - m.exp(-m.exp(p.k + p.beta * x))
  }

  /** The inner loop of the rejection method with `fuel` draws left: the first proposal above
      -0.5 and the seed after the draw that made it, or None once the fuel is spent. A zero
      draw proposes -Infinity and is rejected. */
  function Propose(seed: nat, p: RejectionParams, m: RealMath, fuel: nat): (Option<real>, nat)
    requires p.beta > 0.0
    decreases fuel
  {
    if fuel == 0 then (None, seed)
    else
      var s := Next(seed);
      var u := Unit(s);
      if u > 0.0 && Proposal(u, p, m) > -0.5 then (Some(Proposal(u, p, m)), s)
      else Propose(s, p, m, fuel - 1)
  }

  /** The outer loop of the rejection method with `fuel` rounds left: round a proposal `x` to
      `floor(x + 0.5)` and accept it when a fresh draw is below 1 - exp(-exp(k + beta x)). */
  function Reject(seed: nat, p: RejectionParams, m: RealMath, fuel: nat): (Option<int>, nat)
    requires p.beta > 0.0
    decreases fuel
  {
    if fuel == 0 then (None, seed)
    else
      var (x, s) := Propose(seed, p, m, RoundLimit);
      if x.None? then (None, s)
      else
        var s' := Next(s);
        if Accepts(Unit(s'), x.value, p, m) then (Some((x.value + 0.5).Floor), s')
        else Reject(s', p, m, fuel - 1)
  }

  lemma {:induction false} ProposeAbove(seed: nat, p: RejectionParams, m: RealMath, fuel: nat)
    requires p.beta > 0.0
    decreases fuel
    ensures Propose(seed, p, m, fuel).0.Some? ==> Propose(seed, p, m, fuel).0.value > -0.5
  {
    if fuel > 0 {
      ProposeAbove(Next(seed), p, m, fuel - 1);
    }
  }

  /** Every count the rejection method accepts is non-negative. */
  lemma {:induction false} RejectNonNegative(seed: nat, p: RejectionParams, m: RealMath, fuel: nat)
    requires p.beta > 0.0
    decreases fuel
    ensures Reject(seed, p, m, fuel).0.Some? ==> Reject(seed, p, m, fuel).0.value >= 0
  {
    if fuel > 0 {
      ProposeAbove(seed, p, m, RoundLimit);
      var (x, s) := Propose(seed, p, m, RoundLimit);
      if x.Some? {
        RejectNonNegative(Next(s), p, m, fuel - 1);
      }
    }
  }

  class SeededRandom {
    /** The generator's only state. */
    var seed: nat

    constructor (seed: nat)
      ensures this.seed == seed
    {
      this.seed := seed;
    }

    /** One step of the recurrence; the result is the new seed over the modulus. */
    method Random() returns (r: real)
      modifies this
      ensures seed == Next(old(seed)) && r == Unit(seed)
      ensures 0.0 <= r < 1.0 && r <= MaxUnit
    {
      seed := (seed * 9301 + 49297) % 233280;
      r := seed as real / 233280.0;
    }

    /** `min + (max - min) * u` for one draw `u`; in [min, max) when min < max. */
    method Uniform(min: real, max: real) returns (r: real)
      modifies this
      ensures seed == Advance(old(seed), 1)
      ensures r == UniformValue(Draw(old(seed), 1), min, max)
      ensures min < max ==> min <= r < max
    {
      FirstDraws(seed);
      var u := Random();
      r := min + Scale(max - min, u);
      assert r == UniformValue(u, min, max);
    }

    /** One draw, mapped through the triangular inverse CDF. */
    method Triangular(min: real, mode: real, max: real, m: RealMath) returns (r: real)
      requires Sound(m)
      modifies this
      ensures seed == Advance(old(seed), 1)
      ensures r == TriangularValue(Draw(old(seed), 1), min, mode, max, m)
      ensures min <= mode <= max && min < max ==> min <= r <= max
      ensures min == max ==> r == min
    {
      FirstDraws(seed);
      var u := Random();
      if TriangularLower(u, min, mode, max) {
        r := min + m.sqrt(Mul3(u, max - min, mode - min));
      } else {
        r := max - m.sqrt(Mul3(1.0 - u, max - min, max - mode));
      }
      assert r == TriangularValue(u, min, mode, max, m);
      TriangularBounds(u, min, mode, max, m);
    }

    /** Box-Muller, cosine branch: the first draw feeds the logarithm, the second the cosine;
        the sample is positive. */
    method Lognormal(mu: real, sigma: real, m: RealMath) returns (r: real)
      requires Sound(m)
      modifies this
      ensures seed == Advance(old(seed), 2)
      ensures r == LognormalValue(Draw(old(seed), 1), Draw(old(seed), 2), mu, sigma, m)
      ensures r > 0.0
    {
      FirstDraws(seed);
      var u1 := Random();
      var u2 := Random();
      r := LognormalValue(u1, u2, mu, sigma, m);
      LognormalPositive(u1, u2, mu, sigma, m);
    }

    /** Poisson for lambda < 30 by inverse transform: the result `n` is the first count of
        draws, less one, whose running product falls to exp(-lambda) or below, and exactly
        `n + 1` draws are consumed. */
    method PoissonInverse(lambda: real, m: RealMath) returns (n: int)
      requires Sound(m)
      modifies this
      ensures IsInverseCount(old(seed), m.exp(-lambda), n) && seed == Advance(old(seed), n + 1)
    {
      ghost var s0 := seed;
      var bound := m.exp(-lambda);
      var k := 0;
      var p := 1.0;
      k := k + 1;
      FirstDraws(s0);
      var u := Random();
      ProductStep(s0, 0, p, u);
      p := p * u;
      while p > bound
        invariant k >= 1 && seed == Advance(s0, k)
        invariant p == Product(s0, k)
        invariant forall j :: 1 <= j < k ==> Product(s0, j) > bound
        decreases InverseMeasure(p, bound)
      {
        ghost var before := p;
        k := k + 1;
        u := Random();
        ProductStep(s0, k - 1, p, u);
        p := p * u;
        InverseProgress(before, u, bound);
      }
      n := k - 1;
    }

    /** Poisson for lambda >= 30 by rejection, proved against `Reject`: the result is
        `floor(x + 0.5)` for the first accepted proposal `x > -0.5`; `None` stands for a loop
        that would never end. */
    method PoissonRejection(lambda: real, m: RealMath) returns (r: Option<int>)
      requires Sound(m) && lambda >= 30.0
      modifies this
      ensures (r, seed) == Reject(old(seed), Params(lambda, m), m, RoundLimit)
    {
      ghost var s0 := seed;
      var p := Params(lambda, m);
      var rounds := 0;
      while rounds < RoundLimit
        invariant rounds <= RoundLimit
        invariant Reject(s0, p, m, RoundLimit) == Reject(seed, p, m, RoundLimit - rounds)
        decreases RoundLimit - rounds
      {
        ghost var sIn := seed;
        rounds := rounds + 1;
        var x := 0.0;
        var found := false;
        var tries := 0;
        while !found && tries < RoundLimit
          invariant tries <= RoundLimit
          invariant !found ==> Propose(sIn, p, m, RoundLimit) == Propose(seed, p, m, RoundLimit - tries)
          invariant found ==> Propose(sIn, p, m, RoundLimit) == (Some(x), seed)
          decreases RoundLimit - tries, if found then 0 else 1
        {
          tries := tries + 1;
          var u := Random();
          // For u == 0, (1 - u) / u is +Infinity, so x is -Infinity and the draw is rejected.
          if u > 0.0 {
            x := Proposal(u, p, m);
            found := x > -0.5;
          }
        }
        if !found {
          return None;
        }
        var n := (x + 0.5).Floor;
        var u := Random();
        if Accepts(u, x, p, m) {
          return Some(n);
        }
      }
      r := None;
    }

    /** The rejection branch is taken exactly when lambda >= 30; the inverse-transform branch
        never gives up. */
    method Poisson(lambda: real, m: RealMath) returns (r: Option<int>)
      requires Sound(m)
      modifies this
      ensures r.Some? ==> r.value >= 0
      ensures lambda < 30.0 ==>
        r.Some? && IsInverseCount(old(seed), m.exp(-lambda), r.value) &&
        seed == Advance(old(seed), r.value + 1)
      ensures lambda >= 30.0 ==> (r, seed) == Reject(old(seed), Params(lambda, m), m, RoundLimit)
    {
      if lambda < 30.0 {
        var n := PoissonInverse(lambda, m);
        r := Some(n);
      } else {
        r := PoissonRejection(lambda, m);
        RejectNonNegative(old(seed), Params(lambda, m), m, RoundLimit);
      }
    }

    /** Performs one call. */
    method Sample(call: Call, m: RealMath) returns (r: Sample)
      requires Sound(m)
      modifies this
      ensures Sampled(old(seed), call, m, r, seed)
    {
      match call {
        case RandomCall =>
          var v := Random();
          r := Value(v);
        case UniformCall(min, max) =>
          var v := Uniform(min, max);
          r := Value(v);
        case TriangularCall(min, mode, max) =>
          var v := Triangular(min, mode, max, m);
          r := Value(v);
        case PoissonCall(lambda) =>
          var v := Poisson(lambda, m);
          r := if v.Some? then Count(v.value) else GaveUp;
        case LognormalCall(mu, sigma) =>
          var v := Lognormal(mu, sigma, m);
          r := Value(v);
      }
    }
  }

  /** What one sampling call returns. */
  datatype Sample = Value(v: real) | Count(n: int) | GaveUp

  /** The contracts of the sampling methods, as one relation between the seed before a call,
      the call, its result and the seed after it. */
  ghost predicate Sampled(s0: nat, call: Call, m: RealMath, r: Sample, s1: nat)
    requires Sound(m)
  {
    match call
    case RandomCall => s1 == Advance(s0, 1) && r == Value(Draw(s0, 1))
    case UniformCall(min, max) =>
      s1 == Advance(s0, 1) && r == Value(UniformValue(Draw(s0, 1), min, max))
    case TriangularCall(min, mode, max) =>
      s1 == Advance(s0, 1) && r == Value(TriangularValue(Draw(s0, 1), min, mode, max, m))
    case PoissonCall(lambda) =>
      if lambda < 30.0 then
        r.Count? && IsInverseCount(s0, m.exp(-lambda), r.n) && s1 == Advance(s0, r.n + 1)
      else
        var (n, s) := Reject(s0, Params(lambda, m), m, RoundLimit);
        s1 == s && r == (if n.Some? then Count(n.value) else GaveUp)
    case LognormalCall(mu, sigma) =>
      s1 == Advance(s0, 2) && r == Value(LognormalValue(Draw(s0, 1), Draw(s0, 2), mu, sigma, m))
  }

  /** A call's result and the seed it leaves are fixed by the seed it starts from. */
  lemma SampledIsDeterministic(s0: nat, call: Call, m: RealMath, r1: Sample, s1: nat, r2: Sample, s2: nat)
    requires Sound(m)
    requires Sampled(s0, call, m, r1, s1) && Sampled(s0, call, m, r2, s2)
    ensures r1 == r2 && s1 == s2
  {
    if call.PoissonCall? && call.lambda < 30.0 {
      InverseCountUnique(s0, m.exp(-call.lambda), r1.n, r2.n);
    }
  }

  /** Determinism: two generators built with the same seed and given the same calls return
      the same results, because the seed is all the state a result depends on. */
  method SameSeedSameSamples(seed: nat, calls: seq<Call>, m: RealMath)
    returns (first: seq<Sample>, second: seq<Sample>)
    requires Sound(m)
    ensures |first| == |calls| && first == second
  {
    var g1 := new SeededRandom(seed);
    var g2 := new SeededRandom(seed);
    first, second := [], [];
    for i := 0 to |calls|
      invariant g1 != g2 && g1.seed == g2.seed
      invariant |first| == i && first == second
    {
      ghost var s := g1.seed;
      var a := g1.Sample(calls[i], m);
      var b := g2.Sample(calls[i], m);
      SampledIsDeterministic(s, calls[i], m, a, g1.seed, b, g2.seed);
      first, second := first + [a], second + [b];
    }
  }
}
