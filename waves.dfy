/** The basis functions of the wave learner: the closed enumeration of periodic
    primitives (`WaveFunction`) and one weighted, translated instance of a
    primitive (`FunctionCoefficients`).

    Floating point is modelled by the reals. `f32::sin` is not computable here,
    so every evaluation takes the sine as a parameter `sin: real -> real`;
    `f32::fract` is modelled exactly, with Rust's truncating convention.
    Float-to-decimal rendering is likewise a parameter `render: real -> string`. */
module Waves {

  /** One draw of `rand::random::<f32>()`, a value in [0, 1). */
  type UnitReal = r: real | 0.0 <= r < 1.0

  function Abs(v: real): real
  {
    if v < 0.0 then -v else v
  }

  /** `f32::trunc`: rounds toward zero. */
  function Trunc(v: real): (t: int)
    ensures 0.0 <= v ==> t as real <= v < t as real + 1.0
    ensures v < 0.0 ==> t as real - 1.0 < v <= t as real
  {
    if v >= 0.0 then v.Floor else -((-v).Floor)
  }

  /** `f32::fract`, which is `v - v.trunc()`: it keeps the sign of `v`, so it
      lies in (-1, 0] for negative `v` and in [0, 1) otherwise. */
  function Fract(v: real): (r: real)
    ensures -1.0 < r < 1.0
    ensures 0.0 <= v ==> r == v - v.Floor as real
  {
    v - Trunc(v) as real
  }

  /** `fract` lies in [0, 1) for non-negative `v` and in (-1, 0] for negative
      `v`, and what it removes is a whole number. */
  lemma FractRange(v: real)
    ensures 0.0 <= v ==> 0.0 <= Fract(v) < 1.0
    ensures v < 0.0 ==> -1.0 < Fract(v) <= 0.0
    ensures (v - Fract(v)).Floor as real == v - Fract(v)
  {
  }

  /** Rust's `fract` on -0.5 is -0.5, not the 0.5 of a floor-based
      fractional part. */
  lemma FractOfNegativeHalf()
    ensures Fract(-0.5) == -0.5
    ensures Fract(0.5) == 0.5
  {
    assert Trunc(-0.5) == 0;
    assert Trunc(0.5) == 0;
  }

  /** The closed set of primitives, in declaration order (which is also the
      order `WaveFunction::iter()` yields them in). */
  datatype WaveFunction = Sine | SawTooth
  {
    /** `WaveFunction::evaluate`: the primitive at `x + xTranslation`, times `scale`. */
    function Evaluate(sin: real -> real, x: real, scale: real, xTranslation: real): (r: real)
      ensures scale == 0.0 ==> r == 0.0
      ensures this == SawTooth && 0.0 <= x + xTranslation < 1.0 ==> r == (x + xTranslation) * scale
    {
      match this
      case Sine => sin(x + xTranslation) * scale
      case SawTooth => Fract(x + xTranslation) * scale
    }

    /** `WaveFunction::generate_string`: `{scale}*sin(x + {t})` or `{scale}*frac(x + {t})`. */
    function GenerateString(render: real -> string, scale: real, xTranslation: real): (r: string)
      ensures |r| > |render(scale)| + |render(xTranslation)|
      ensures r[..|render(scale)|] == render(scale) && r[|render(scale)|] == '*'
      ensures r[|r| - 1] == ')'
    {
      match this
      case Sine => render(scale) + "*sin(x + " + render(xTranslation) + ")"
      case SawTooth => render(scale) + "*frac(x + " + render(xTranslation) + ")"
    }
  }

  /** `WaveFunction::COUNT`. */
  const KIND_COUNT: nat := 2

  /** The position of a variant in iteration order. */
  function KindIndex(k: WaveFunction): (n: nat)
    ensures n < KIND_COUNT
  {
    match k
    case Sine => 0
    case SawTooth => 1
  }

  /** `WaveFunction::iter().nth(n)`, which is `Some` for every `n < COUNT`. */
  function KindAt(n: nat): (k: WaveFunction)
    requires n < KIND_COUNT
    ensures KindIndex(k) == n
  {
    if n == 0 then Sine else SawTooth
  }

  /** The sine is bounded by 1 in absolute value; the model's abstract sine
      is only assumed to be so where a lemma says so. */
  ghost predicate BoundedSine(sin: real -> real)
  {
    forall y :: -1.0 <= sin(y) <= 1.0
  }

  lemma ScaledBound(f: real, s: real)
    requires -1.0 <= f <= 1.0
    ensures Abs(f * s) <= Abs(s)
  {
    if s >= 0.0 {
      assert -s <= f * s <= s;
    } else {
      assert s <= f * s <= -s;
    }
  }

  /** Every primitive's value is bounded by the absolute value of its scale:
      the sawtooth because `fract` lies in (-1, 1), the sine because the sine
      does. */
  lemma EvaluateBounded(k: WaveFunction, sin: real -> real, x: real, scale: real, xTranslation: real)
    requires BoundedSine(sin)
    ensures Abs(k.Evaluate(sin, x, scale, xTranslation)) <= Abs(scale)
  {
    match k
    case Sine => ScaledBound(sin(x + xTranslation), scale);
    case SawTooth =>
      var f := Fract(x + xTranslation);
      assert -1.0 <= f <= 1.0 by {
        FractRange(x + xTranslation);
      }
      ScaledBound(f, scale);
  }

  /** On non-negative arguments `fract` has period 1, as a floor-based
      fractional part does. */
  lemma {:induction false} FractPeriodicOnNonNegative(v: real)
    requires 0.0 <= v
    ensures Fract(v + 1.0) == Fract(v)
  {
    assert (v + 1.0).Floor == v.Floor + 1;
  }

  /** Below -1 `fract` has period 1 as well: the truncation moves up by one
      with the argument. */
  lemma {:induction false} FractPeriodicBelowMinusOne(v: real)
    requires v <= -1.0
    ensures Fract(v + 1.0) == Fract(v)
  {
    assert (-(v + 1.0)).Floor == (-v).Floor - 1;
  }

  /** Between -1 and 0 the period breaks: `fract(v)` is `v` but `fract(v + 1)`
      is `v + 1`. */
  lemma FractNotPeriodicAcrossZero(v: real)
    requires -1.0 < v < 0.0
    ensures Fract(v + 1.0) == v + 1.0 && Fract(v) == v
  {
    assert Trunc(v) == 0;
    assert Trunc(v + 1.0) == 0;
  }

  /** The sawtooth is not periodic across zero: one period apart, at -0.5 and
      0.5, it gives -0.5 and 0.5. */
  lemma SawToothNotPeriodicAcrossZero(sin: real -> real)
    ensures SawTooth.Evaluate(sin, -0.5 + 1.0, 1.0, 0.0) != SawTooth.Evaluate(sin, -0.5, 1.0, 0.0)
  {
    FractOfNegativeHalf();
  }

  /** The sawtooth with unit scale and no translation, sampled at -0.5, gives
      -0.5 (Rust's truncating `fract`). */
  lemma SawToothAtNegativeHalf(sin: real -> real)
    ensures SawTooth.Evaluate(sin, -0.5, 1.0, 0.0) == -0.5
  {
    FractOfNegativeHalf();
  }

  /** The two display formats differ for every rendering of the numbers: the
      kind can be read back from the character after `{scale}*`. */
  lemma GenerateStringDistinguishesKinds(render: real -> string, scale: real, xTranslation: real)
    ensures Sine.GenerateString(render, scale, xTranslation) != SawTooth.GenerateString(render, scale, xTranslation)
  {
    var n := |render(scale)|;
    assert Sine.GenerateString(render, scale, xTranslation)[n + 1] == 's';
    assert SawTooth.GenerateString(render, scale, xTranslation)[n + 1] == 'f';
  }

  /** One weighted basis instance: a kind with its scale and translation. */
  datatype FunctionCoefficients = FunctionCoefficients(functionType: WaveFunction, scale: real, xTranslation: real)
  {
    /** `FunctionCoefficients::evaluate` delegates to the kind. */
    function Evaluate(sin: real -> real, x: real): (r: real)
      ensures scale == 0.0 ==> r == 0.0
    {
      functionType.Evaluate(sin, x, scale, xTranslation)
    }

    /** `FunctionCoefficients::to_string`. */
    function ToString(render: real -> string): (r: string)
      ensures |r| > |render(scale)| + |render(xTranslation)|
      ensures r[..|render(scale)|] == render(scale) && r[|render(scale)|] == '*'
      ensures r[|r| - 1] == ')'
    {
      functionType.GenerateString(render, scale, xTranslation)
    }
  }

  /** The random draws `FunctionCoefficients::new_rand` makes: a `usize` for
      the kind and two `f32` values in [0, 1). */
  datatype GeneDraw = GeneDraw(kindDraw: nat, scaleDraw: UnitReal, translationDraw: UnitReal)

  /** `FunctionCoefficients::new_rand`: the kind is the `kindDraw % COUNT`-th
      variant, scale and translation are `u * 2 - 1`, so both lie in [-1, 1). */
  function NewRandGene(d: GeneDraw): (g: FunctionCoefficients)
    ensures KindIndex(g.functionType) == d.kindDraw % KIND_COUNT
    ensures -1.0 <= g.scale < 1.0 && -1.0 <= g.xTranslation < 1.0
  {
    FunctionCoefficients(KindAt(d.kindDraw % KIND_COUNT), d.scaleDraw * 2.0 - 1.0, d.translationDraw * 2.0 - 1.0)
  }

  /** Every gene whose parameters lie in [-1, 1) is produced by some draw:
      the one given here. */
  lemma NewRandGeneReachesEvery(g: FunctionCoefficients)
    requires -1.0 <= g.scale < 1.0 && -1.0 <= g.xTranslation < 1.0
    ensures NewRandGene(GeneDraw(KindIndex(g.functionType), (g.scale + 1.0) / 2.0, (g.xTranslation + 1.0) / 2.0)) == g
  {
    var d := GeneDraw(KindIndex(g.functionType), (g.scale + 1.0) / 2.0, (g.xTranslation + 1.0) / 2.0);
    assert KindAt(d.kindDraw % KIND_COUNT) == g.functionType by {
      match g.functionType
      case Sine =>
      case SawTooth =>
    }
  }

  /** A gene's value is bounded by the absolute value of its scale. */
  lemma GeneEvaluateBounded(g: FunctionCoefficients, sin: real -> real, x: real)
    requires BoundedSine(sin)
    ensures Abs(g.Evaluate(sin, x)) <= Abs(g.scale)
  {
    EvaluateBounded(g.functionType, sin, x, g.scale, g.xTranslation);
  }
}
