/** A candidate solution of the wave learner: an ordered list of weighted
    basis instances plus a cached fitness.

    An `Agent` is a value here. In the source it is owned by exactly one slot of
    the trainer's array (or by a local), moved or cloned but never shared, so
    an in-place update through `&mut self` is modelled as a method from the old
    value to the new one. Every random draw is an explicit parameter. */
module Agents {
  import opened Waves

  /** Number of samples in a waveform, `WAVE_RES`. */
  const WAVE_RES: nat := 512
  const STARTING_FUNCTIONS: nat := 4
  const MAX_FUNCTIONS: nat := 12
  const MUTATION_PROBABILITY: real := 0.4
  const FUNCTION_ADDITION_PROBABILITY: real := 0.1
  const FUNCTION_SUBTRACTION_PROBABILITY: real := 0.1

  /** The target waveform, `[f32; WAVE_RES]`. */
  type Goal = g: seq<real> | |g| == WAVE_RES witness seq(WAVE_RES, _ => 0.0)

  datatype Agent = Agent(functions: seq<FunctionCoefficients>, fitness: real)

  /** The length bound `mutate` maintains: between 1 and `MAX_FUNCTIONS` genes. */
  predicate LengthInBounds(a: Agent)
  {
    1 <= |a.functions| <= MAX_FUNCTIONS
  }

  function Min(a: nat, b: nat): nat
  {
    if a <= b then a else b
  }

  // ---------------------------------------------------------------------------
  // Evaluation and fitness

  /** The sum of the genes' values at `x`, accumulated from the first gene on
      as `Iterator::sum` does. */
  function SumTerms(fs: seq<FunctionCoefficients>, sin: real -> real, x: real): real
  {
    if |fs| == 0 then 0.0 else SumTerms(fs[..|fs| - 1], sin, x) + fs[|fs| - 1].Evaluate(sin, x)
  }

  /** `Agent::evaluate`: the sum of the genes' values; an agent of one gene
      evaluates as that gene. */
  function Evaluate(a: Agent, sin: real -> real, x: real): (r: real)
    ensures |a.functions| == 1 ==> r == a.functions[0].Evaluate(sin, x)
  {
    assert |a.functions| == 1 ==> SumTerms(a.functions[..0], sin, x) == 0.0;
    SumTerms(a.functions, sin, x)
  }

  /** The sum of the absolute scales, the bound on an agent's value. */
  function ScaleMass(fs: seq<FunctionCoefficients>): real
  {
    if fs == [] then 0.0 else ScaleMass(fs[..|fs| - 1]) + Abs(fs[|fs| - 1].scale)
  }

  /** Evaluation is additive over concatenation of gene lists. */
  lemma {:induction false} SumTermsAppend(fs: seq<FunctionCoefficients>, gs: seq<FunctionCoefficients>, sin: real -> real, x: real)
    ensures SumTerms(fs + gs, sin, x) == SumTerms(fs, sin, x) + SumTerms(gs, sin, x)
    decreases |gs|
  {
    if gs == [] {
      assert fs + gs == fs;
    } else {
      var last := gs[|gs| - 1];
      assert (fs + gs)[..|fs + gs| - 1] == fs + gs[..|gs| - 1];
      SumTermsAppend(fs, gs[..|gs| - 1], sin, x);
    }
  }

  /** With a sine bounded by 1, an agent's value is bounded by the sum of the
      absolute scales of its genes. */
  lemma {:induction false} SumTermsBounded(fs: seq<FunctionCoefficients>, sin: real -> real, x: real)
    requires BoundedSine(sin)
    ensures Abs(SumTerms(fs, sin, x)) <= ScaleMass(fs)
    decreases |fs|
  {
    if fs != [] {
      SumTermsBounded(fs[..|fs| - 1], sin, x);
      GeneEvaluateBounded(fs[|fs| - 1], sin, x);
    }
  }

  /** The `i`-th sample point, `(i / WAVE_RES) * 2 - 1`. */
  function SamplePoint(i: nat): (x: real)
    ensures i < WAVE_RES ==> -1.0 <= x < 1.0
  {
    (i as real / WAVE_RES as real) * 2.0 - 1.0
  }

  /** The summand of sample `i`: minus the absolute error there. */
  function SampleScore(fs: seq<FunctionCoefficients>, sin: real -> real, goal: seq<real>, i: nat): real
    requires i < |goal|
  {
    -Abs(SumTerms(fs, sin, SamplePoint(i)) - goal[i])
  }

  /** The sum of the first `n` sample scores. */
  function ScoreSum(fs: seq<FunctionCoefficients>, sin: real -> real, goal: seq<real>, n: nat): real
    requires n <= |goal|
  {
    if n == 0 then 0.0 else ScoreSum(fs, sin, goal, n - 1) + SampleScore(fs, sin, goal, n - 1)
  }

  /** The fitness of a gene list against a goal: minus the total absolute error
      over all sample points. */
  function Fitness(fs: seq<FunctionCoefficients>, goal: Goal, sin: real -> real): (r: real)
    ensures r <= 0.0
  {
    ScoreSumZeroIffMatch(fs, sin, goal, |goal|);
    ScoreSum(fs, sin, goal, |goal|)
  }

  /** The gene list matches the goal exactly on the first `n` sample points. */
  ghost predicate MatchesUpTo(fs: seq<FunctionCoefficients>, sin: real -> real, goal: seq<real>, n: nat)
    requires n <= |goal|
  {
    forall i :: 0 <= i < n ==> SumTerms(fs, sin, SamplePoint(i)) == goal[i]
  }

  /** A partial score sum is never positive, and it is zero exactly when
      every sample point so far is matched. */
  lemma {:induction false} ScoreSumZeroIffMatch(fs: seq<FunctionCoefficients>, sin: real -> real, goal: seq<real>, n: nat)
    requires n <= |goal|
    ensures ScoreSum(fs, sin, goal, n) <= 0.0
    ensures ScoreSum(fs, sin, goal, n) == 0.0 <==> MatchesUpTo(fs, sin, goal, n)
  {
    if n > 0 {
      ScoreSumZeroIffMatch(fs, sin, goal, n - 1);
      var e := SumTerms(fs, sin, SamplePoint(n - 1)) - goal[n - 1];
      assert SampleScore(fs, sin, goal, n - 1) == -Abs(e);
      if MatchesUpTo(fs, sin, goal, n) {
        assert e == 0.0;
      }
      if ScoreSum(fs, sin, goal, n) == 0.0 {
        assert e == 0.0;
        assert MatchesUpTo(fs, sin, goal, n) by {
          forall i | 0 <= i < n ensures SumTerms(fs, sin, SamplePoint(i)) == goal[i] {
            if i < n - 1 {
              assert MatchesUpTo(fs, sin, goal, n - 1);
            }
          }
        }
      }
    }
  }

  /** Fitness is at most 0, and it is 0 exactly when the agent reproduces the
      goal at every one of the `WAVE_RES` sample points. */
  lemma FitnessZeroIffExact(fs: seq<FunctionCoefficients>, goal: Goal, sin: real -> real)
    ensures Fitness(fs, goal, sin) <= 0.0
    ensures Fitness(fs, goal, sin) == 0.0 <==>
              forall i :: 0 <= i < WAVE_RES ==> SumTerms(fs, sin, SamplePoint(i)) == goal[i]
  {
    ScoreSumZeroIffMatch(fs, sin, goal, |goal|);
  }

  /** `Agent::calculate_fitness`: the genes are kept and the cached fitness is
      set to the agent's fitness against the goal. */
  function CalculateFitness(a: Agent, goal: Goal, sin: real -> real): (r: Agent)
    ensures r.functions == a.functions
    ensures r.fitness <= 0.0
  {
    FitnessZeroIffExact(a.functions, goal, sin);
    Agent(a.functions, Fitness(a.functions, goal, sin))
  }

  /** Recalculating is a no-op: after `calculate_fitness` the cached fitness
      is current. */
  lemma CalculateFitnessIdempotent(a: Agent, goal: Goal, sin: real -> real)
    ensures FitnessCurrent(CalculateFitness(a, goal, sin), goal, sin)
    ensures CalculateFitness(CalculateFitness(a, goal, sin), goal, sin) == CalculateFitness(a, goal, sin)
  {
  }

  /** The agent's cached fitness is the one `calculate_fitness` would compute. */
  ghost predicate FitnessCurrent(a: Agent, goal: Goal, sin: real -> real)
  {
    a.fitness == Fitness(a.functions, goal, sin)
  }

  // ---------------------------------------------------------------------------
  // Creation

  /** `Agent::new_rand(n)`: `n` genes, one per draw, and the placeholder fitness 0. */
  function NewRandAgent(n: nat, draw: nat -> GeneDraw): (a: Agent)
    ensures |a.functions| == n && a.fitness == 0.0
    ensures forall i :: 0 <= i < n ==> -1.0 <= a.functions[i].scale < 1.0 && -1.0 <= a.functions[i].xTranslation < 1.0
  {
    var fs := seq(n, i requires 0 <= i => NewRandGene(draw(i)));
    assert forall i :: 0 <= i < n ==> fs[i] == NewRandGene(draw(i));
    Agent(fs, 0.0)
  }

  // ---------------------------------------------------------------------------
  // Crossover

  /** The child of a uniform crossover: gene `i` comes from `a` when coin `i`
      is heads and from `b` otherwise; only the common prefix is used. */
  function Crossed(a: Agent, b: Agent, coin: nat -> bool): (c: Agent)
    ensures |c.functions| == Min(|a.functions|, |b.functions|)
    ensures c.fitness == 0.0
  {
    var n := Min(|a.functions|, |b.functions|);
    Agent(seq(n, i requires 0 <= i < n => if coin(i) then a.functions[i] else b.functions[i]), 0.0)
  }

  /** Every gene of the child is the gene at the same index of one parent. */
  lemma CrossedGenes(a: Agent, b: Agent, coin: nat -> bool, i: nat)
    requires i < |Crossed(a, b, coin).functions|
    ensures Crossed(a, b, coin).functions[i] == a.functions[i] || Crossed(a, b, coin).functions[i] == b.functions[i]
  {
  }

  /** `Agent::crossover`: a loop pushes, for each index of the shorter
      parent, a copy of one parent's gene chosen by a coin. */
  method Crossover(a: Agent, b: Agent, coin: nat -> bool) returns (c: Agent)
    ensures c == Crossed(a, b, coin)
    ensures |c.functions| == Min(|a.functions|, |b.functions|) && c.fitness == 0.0
    ensures forall i :: 0 <= i < |c.functions| ==> c.functions[i] == if coin(i) then a.functions[i] else b.functions[i]
  {
    var min := Min(|a.functions|, |b.functions|);
    var functions: seq<FunctionCoefficients> := [];
    for i := 0 to min
      invariant |functions| == i
      invariant forall k :: 0 <= k < i ==> functions[k] == if coin(k) then a.functions[k] else b.functions[k]
    {
      var f1 := a.functions[i];
      var f2 := b.functions[i];
      functions := functions + [if coin(i) then f1 else f2];
    }
    c := Agent(functions, 0.0);
  }

  /** Two parents within the length bounds give a child within them. */
  lemma CrossedInBounds(a: Agent, b: Agent, coin: nat -> bool)
    requires LengthInBounds(a) && LengthInBounds(b)
    ensures LengthInBounds(Crossed(a, b, coin))
  {
  }

  /** Crossing an agent with itself reproduces its genes, whatever the coins. */
  lemma CrossedWithSelf(a: Agent, coin: nat -> bool)
    ensures Crossed(a, a, coin).functions == a.functions
  {
  }

  /** With every coin heads, the child is the prefix of the first parent. */
  lemma CrossedAllHeads(a: Agent, b: Agent, coin: nat -> bool)
    requires forall i :: coin(i)
    ensures Crossed(a, b, coin).functions == a.functions[..Min(|a.functions|, |b.functions|)]
  {
  }

  // ---------------------------------------------------------------------------
  // Mutation

  /** The random draws one call of `Agent::mutate` makes: the growth roll and
      the gene it would append, the shrink roll and the `usize` that picks the
      gene to remove, and per gene a roll and a Gaussian sample for the scale
      and for the translation. */
  datatype MutationDraws = MutationDraws(
    additionRoll: UnitReal, addedGene: GeneDraw,
    subtractionRoll: UnitReal, removalDraw: nat,
    scaleRolls: nat -> UnitReal, scaleNoise: nat -> real,
    translationRolls: nat -> UnitReal, translationNoise: nat -> real)

  /** `Vec::remove(j)`. */
  function RemoveAt(fs: seq<FunctionCoefficients>, j: nat): (r: seq<FunctionCoefficients>)
    requires j < |fs|
    ensures |r| == |fs| - 1
  {
    fs[..j] + fs[j + 1..]
  }

  /** The genes before `j` keep their index, the ones after it move down by one. */
  lemma RemoveAtShifts(fs: seq<FunctionCoefficients>, j: nat, i: nat)
    requires j < |fs| && i < |fs| - 1
    ensures RemoveAt(fs, j)[i] == if i < j then fs[i] else fs[i + 1]
  {
  }

  /** Removing gene `j` takes exactly one copy of it out of the multiset of genes. */
  lemma RemoveAtMultiset(fs: seq<FunctionCoefficients>, j: nat)
    requires j < |fs|
    ensures multiset(RemoveAt(fs, j)) + multiset{fs[j]} == multiset(fs)
  {
    assert fs == fs[..j] + [fs[j]] + fs[j + 1..];
  }

  /** Step 1 of `mutate`: below `MAX_FUNCTIONS` genes, a roll under the
      addition probability appends a fresh gene. */
  function Grown(fs: seq<FunctionCoefficients>, d: MutationDraws): (r: seq<FunctionCoefficients>)
    ensures |fs| <= |r| <= |fs| + 1 && r[..|fs|] == fs
    ensures |r| > |fs| <==> |fs| < MAX_FUNCTIONS && d.additionRoll < FUNCTION_ADDITION_PROBABILITY
  {
    if |fs| < MAX_FUNCTIONS && d.additionRoll < FUNCTION_ADDITION_PROBABILITY then fs + [NewRandGene(d.addedGene)] else fs
  }

  /** Step 2 of `mutate`: above one gene, a roll under the subtraction
      probability removes the gene at `removalDraw % len`. */
  function Shrunk(fs: seq<FunctionCoefficients>, d: MutationDraws): (r: seq<FunctionCoefficients>)
    ensures |fs| - 1 <= |r| <= |fs|
    ensures |r| < |fs| <==> |fs| > 1 && d.subtractionRoll < FUNCTION_SUBTRACTION_PROBABILITY
  {
    if |fs| > 1 && d.subtractionRoll < FUNCTION_SUBTRACTION_PROBABILITY then RemoveAt(fs, d.removalDraw % |fs|) else fs
  }

  /** The gene list after the structural steps of `mutate`. */
  function Restructured(fs: seq<FunctionCoefficients>, d: MutationDraws): (r: seq<FunctionCoefficients>)
    ensures |fs| - 1 <= |r| <= |fs| + 1
    ensures 1 <= |fs| ==> 1 <= |r|
    ensures |fs| <= MAX_FUNCTIONS ==> |r| <= MAX_FUNCTIONS
  {
    Shrunk(Grown(fs, d), d)
  }

  /** The structural steps only append the one fresh gene and remove genes:
      every gene left is an original gene or the fresh one. */
  lemma RestructuredGenes(fs: seq<FunctionCoefficients>, d: MutationDraws)
    ensures multiset(Restructured(fs, d)) <= multiset(fs) + multiset{NewRandGene(d.addedGene)}
  {
    var g := Grown(fs, d);
    assert multiset(g) <= multiset(fs) + multiset{NewRandGene(d.addedGene)};
    if |g| > 1 && d.subtractionRoll < FUNCTION_SUBTRACTION_PROBABILITY {
      RemoveAtMultiset(g, d.removalDraw % |g|);
    }
  }

  /** Steps 3 and 4 of `mutate`: gene `i` gets noise `noise(i)` added to the
      scale (or to the translation) when its roll is under the mutation
      probability. */
  function DriftScale(fs: seq<FunctionCoefficients>, roll: nat -> UnitReal, noise: nat -> real): (r: seq<FunctionCoefficients>)
    ensures |r| == |fs|
  {
    seq(|fs|, i requires 0 <= i < |fs| =>
      fs[i].(scale := fs[i].scale + if roll(i) < MUTATION_PROBABILITY then noise(i) else 0.0))
  }

  function DriftTranslation(fs: seq<FunctionCoefficients>, roll: nat -> UnitReal, noise: nat -> real): (r: seq<FunctionCoefficients>)
    ensures |r| == |fs|
  {
    seq(|fs|, i requires 0 <= i < |fs| =>
      fs[i].(xTranslation := fs[i].xTranslation + if roll(i) < MUTATION_PROBABILITY then noise(i) else 0.0))
  }

  /** The scale pass changes only scales, and a gene's scale only when its roll
      is under the mutation probability. */
  lemma DriftScaleGene(fs: seq<FunctionCoefficients>, roll: nat -> UnitReal, noise: nat -> real, i: nat)
    requires i < |fs|
    ensures var g := DriftScale(fs, roll, noise)[i];
            g.functionType == fs[i].functionType && g.xTranslation == fs[i].xTranslation &&
            (g.scale == fs[i].scale || roll(i) < MUTATION_PROBABILITY)
  {
  }

  /** The translation pass changes only translations, and a gene's translation
      only when its roll is under the mutation probability. */
  lemma DriftTranslationGene(fs: seq<FunctionCoefficients>, roll: nat -> UnitReal, noise: nat -> real, i: nat)
    requires i < |fs|
    ensures var g := DriftTranslation(fs, roll, noise)[i];
            g.functionType == fs[i].functionType && g.scale == fs[i].scale &&
            (g.xTranslation == fs[i].xTranslation || roll(i) < MUTATION_PROBABILITY)
  {
  }

  /** The agent after `mutate`: restructured, then drifted. The length is that
      of the restructured list, so it moves by at most one and stays within the
      bounds, and the cached fitness is left as it was (stale until
      recomputed). */
  function Mutated(a: Agent, d: MutationDraws): (m: Agent)
    ensures m.fitness == a.fitness
    ensures |m.functions| == |Restructured(a.functions, d)|
    ensures |a.functions| - 1 <= |m.functions| <= |a.functions| + 1
    ensures LengthInBounds(a) ==> LengthInBounds(m)
  {
    var r := Restructured(a.functions, d);
    Agent(DriftTranslation(DriftScale(r, d.scaleRolls, d.scaleNoise), d.translationRolls, d.translationNoise), a.fitness)
  }

  /** The first `iter_mut` pass of `Agent::mutate`, drifting the scales. */
  method DriftScales(fs: seq<FunctionCoefficients>, roll: nat -> UnitReal, noise: nat -> real) returns (r: seq<FunctionCoefficients>)
    ensures r == DriftScale(fs, roll, noise)
  {
    r := fs;
    for i := 0 to |r|
      invariant |r| == |fs|
      invariant forall k :: 0 <= k < i ==> r[k] == DriftScale(fs, roll, noise)[k]
      invariant forall k :: i <= k < |r| ==> r[k] == fs[k]
    {
      if roll(i) < MUTATION_PROBABILITY {
        r := r[i := r[i].(scale := r[i].scale + noise(i))];
      }
    }
  }

  /** The second `iter_mut` pass of `Agent::mutate`, drifting the translations. */
  method DriftTranslations(fs: seq<FunctionCoefficients>, roll: nat -> UnitReal, noise: nat -> real) returns (r: seq<FunctionCoefficients>)
    ensures r == DriftTranslation(fs, roll, noise)
  {
    r := fs;
    for i := 0 to |r|
      invariant |r| == |fs|
      invariant forall k :: 0 <= k < i ==> r[k] == DriftTranslation(fs, roll, noise)[k]
      invariant forall k :: i <= k < |r| ==> r[k] == fs[k]
    {
      if roll(i) < MUTATION_PROBABILITY {
        r := r[i := r[i].(xTranslation := r[i].xTranslation + noise(i))];
      }
    }
  }

  /** `Agent::mutate`: push, remove, then the two drift passes. */
  method Mutate(a: Agent, d: MutationDraws) returns (m: Agent)
    ensures m == Mutated(a, d)
    ensures LengthInBounds(a) ==> LengthInBounds(m)
    ensures |a.functions| - 1 <= |m.functions| <= |a.functions| + 1
    ensures m.fitness == a.fitness
  {
    var functions := a.functions;
    if |functions| < MAX_FUNCTIONS && d.additionRoll < FUNCTION_ADDITION_PROBABILITY {
      functions := functions + [NewRandGene(d.addedGene)];
    }
    if |functions| > 1 && d.subtractionRoll < FUNCTION_SUBTRACTION_PROBABILITY {
      functions := RemoveAt(functions, d.removalDraw % |functions|);
    }
    assert functions == Restructured(a.functions, d);
    functions := DriftScales(functions, d.scaleRolls, d.scaleNoise);
    functions := DriftTranslations(functions, d.translationRolls, d.translationNoise);
    m := Agent(functions, a.fitness);
  }

  /** Every gene of a mutated agent descends from a gene of the original or
      from the one fresh gene the growth step may append, and keeps that
      gene's kind. */
  lemma MutatedGenesDescend(a: Agent, d: MutationDraws, i: nat)
    requires i < |Mutated(a, d).functions|
    ensures var r := Restructured(a.functions, d);
            r[i] in a.functions + [NewRandGene(d.addedGene)] &&
            Mutated(a, d).functions[i].functionType == r[i].functionType
  {
    var r := Restructured(a.functions, d);
    RestructuredGenes(a.functions, d);
    assert r[i] in multiset(r);
    var s := DriftScale(r, d.scaleRolls, d.scaleNoise);
    DriftScaleGene(r, d.scaleRolls, d.scaleNoise, i);
    DriftTranslationGene(s, d.translationRolls, d.translationNoise, i);
  }

  // ---------------------------------------------------------------------------
  // Display

  /** `Agent::to_string`: the genes' strings joined with `" + "`. */
  function JoinTerms(fs: seq<FunctionCoefficients>, render: real -> string): (r: string)
    ensures |r| >= 3 * (|fs| - 1)
  {
    if fs == [] then ""
    else if |fs| == 1 then fs[0].ToString(render)
    else JoinTerms(fs[..|fs| - 1], render) + " + " + fs[|fs| - 1].ToString(render)
  }

  function ToString(a: Agent, render: real -> string): (r: string)
    ensures |a.functions| == 1 ==> r == a.functions[0].ToString(render)
  {
    JoinTerms(a.functions, render)
  }

  /** Regrouping a three-part join. */
  lemma SeparatorAssociates(l: string, m: string, r: string)
    ensures (l + " + " + m) + " + " + r == l + " + " + (m + " + " + r)
  {
  }

  /** Joining two non-empty gene lists is joining each and putting `" + "`
      between them. */
  lemma {:induction false} JoinTermsAppend(fs: seq<FunctionCoefficients>, gs: seq<FunctionCoefficients>, render: real -> string)
    requires fs != [] && gs != []
    ensures JoinTerms(fs + gs, render) == JoinTerms(fs, render) + " + " + JoinTerms(gs, render)
    decreases |gs|
  {
    var all := fs + gs;
    var init, last := gs[..|gs| - 1], gs[|gs| - 1].ToString(render);
    assert all[..|all| - 1] == fs + init;
    assert all[|all| - 1] == gs[|gs| - 1];
    assert JoinTerms(all, render) == JoinTerms(fs + init, render) + " + " + last;
    if |gs| == 1 {
      assert fs + init == fs;
      assert JoinTerms(gs, render) == last;
    } else {
      JoinTermsAppend(fs, init, render);
      var left, middle := JoinTerms(fs, render), JoinTerms(init, render);
      SeparatorAssociates(left, middle, last);
    }
  }
}
