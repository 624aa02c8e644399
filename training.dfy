/** The population engine of the wave learner: a fixed goal waveform and a
    fixed-size array of agents, advanced one generation at a time. */
module Training {
  import opened Waves
  import opened Agents

  const SELECTION_FRACTION: real := 0.2
  /** The population size the WebAssembly front end instantiates the trainer with. */
  const AGENT_COUNT: nat := 50

  /** The number of elites kept by `step`, `(A as f32 * SELECTION_FRACTION) as usize`,
      computed on integers (see `TopIsFloorOfFraction`). */
  function Top(size: nat): (top: nat)
    ensures top <= size
  {
    size / 5
  }

  /** `Top` is the selection fraction of the population, rounded down. */
  lemma TopIsFloorOfFraction(size: nat)
    ensures Top(size) == ((size as real) * SELECTION_FRACTION).Floor
  {
    var t := size / 5;
    assert size == 5 * t + size % 5;
    assert (size as real) * SELECTION_FRACTION == t as real + (size % 5) as real / 5.0;
  }

  /** For the front end's population of 50: ten elites and forty replaced slots. */
  lemma TopOfAgentCount()
    ensures Top(AGENT_COUNT) == 10 && AGENT_COUNT - Top(AGENT_COUNT) == 40
  {
    assert (AGENT_COUNT as real) * SELECTION_FRACTION == 10.0;
  }

  /** The random draws `step` makes for one replaced slot: two `usize` values
      that pick the parents (modulo the number of elites), the crossover coins
      and the mutation's draws. */
  datatype ChildDraws = ChildDraws(parentA: nat, parentB: nat, coins: nat -> bool, mutation: MutationDraws)

  /** An agent is healthy when its length is within bounds and its cached
      fitness is current for the goal. */
  ghost predicate Healthy(a: Agent, goal: Goal, sin: real -> real)
  {
    LengthInBounds(a) && FitnessCurrent(a, goal, sin)
  }

  /** The child `step` writes into a replaced slot: the crossover of the two
      chosen elites, mutated, with its fitness recomputed. */
  function Child(elites: seq<Agent>, d: ChildDraws, goal: Goal, sin: real -> real): (c: Agent)
    requires |elites| > 0
    ensures FitnessCurrent(c, goal, sin) && c.fitness <= 0.0
  {
    var parentA := elites[d.parentA % |elites|];
    var parentB := elites[d.parentB % |elites|];
    CalculateFitness(Mutated(Crossed(parentA, parentB, d.coins), d.mutation), goal, sin)
  }

  /** Parents within the length bounds give a child within them. */
  lemma ChildInBounds(elites: seq<Agent>, d: ChildDraws, goal: Goal, sin: real -> real)
    requires |elites| > 0
    requires LengthInBounds(elites[d.parentA % |elites|]) && LengthInBounds(elites[d.parentB % |elites|])
    ensures LengthInBounds(Child(elites, d, goal, sin))
  {
    CrossedInBounds(elites[d.parentA % |elites|], elites[d.parentB % |elites|], d.coins);
  }

  /** Children of healthy elites are healthy: both parents are within the
      length bounds, and the child's fitness is computed last. */
  lemma ChildHealthy(elites: seq<Agent>, d: ChildDraws, goal: Goal, sin: real -> real)
    requires |elites| > 0
    requires forall k :: 0 <= k < |elites| ==> Healthy(elites[k], goal, sin)
    ensures Healthy(Child(elites, d, goal, sin), goal, sin)
  {
    ChildInBounds(elites, d, goal, sin);
  }

  /** The first `n` children `step` produces from the elites, in slot order:
      the `i`-th is bred from the `i`-th draws. */
  function Children(elites: seq<Agent>, draws: nat -> ChildDraws, n: nat, goal: Goal, sin: real -> real): (cs: seq<Agent>)
    requires |elites| > 0
    ensures |cs| == n
  {
    seq(n, i requires 0 <= i < n => Child(elites, draws(i), goal, sin))
  }

  /** The population after the replacement phase of `step`: the first `top`
      slots untouched, slot `top + i` holding the `i`-th child. */
  function Replaced(agents: seq<Agent>, draws: nat -> ChildDraws, goal: Goal, sin: real -> real): (s: seq<Agent>)
    requires 0 < Top(|agents|)
    ensures |s| == |agents|
    ensures s[..Top(|agents|)] == agents[..Top(|agents|)]
  {
    var top := Top(|agents|);
    agents[..top] + Children(agents[..top], draws, |agents| - top, goal, sin)
  }

  /** Breeding one more child appends it. */
  lemma ChildrenSnoc(elites: seq<Agent>, draws: nat -> ChildDraws, n: nat, goal: Goal, sin: real -> real)
    requires |elites| > 0
    ensures Children(elites, draws, n + 1, goal, sin) == Children(elites, draws, n, goal, sin) + [Child(elites, draws(n), goal, sin)]
  {
  }

  /** Health of every agent carries over to the replaced population. */
  lemma ReplacedHealthy(agents: seq<Agent>, draws: nat -> ChildDraws, goal: Goal, sin: real -> real)
    requires 0 < Top(|agents|)
    requires forall k :: 0 <= k < |agents| ==> Healthy(agents[k], goal, sin)
    ensures forall k :: 0 <= k < |agents| ==> Healthy(Replaced(agents, draws, goal, sin)[k], goal, sin)
  {
    var top := Top(|agents|);
    var elites := agents[..top];
    var r := Replaced(agents, draws, goal, sin);
    forall k | 0 <= k < |agents| ensures Healthy(r[k], goal, sin) {
      if k < top {
        assert r[k] == agents[k];
      } else {
        assert r[k] == Child(elites, draws(k - top), goal, sin);
        ChildHealthy(elites, draws(k - top), goal, sin);
      }
    }
  }

  /** Non-increasing in fitness. */
  ghost predicate SortedByFitness(s: seq<Agent>)
  {
    forall i, j :: 0 <= i < j < |s| ==> s[i].fitness >= s[j].fitness
  }

  /** In a population sorted by fitness, the first agent is at least as fit as
      every agent in it. */
  lemma {:induction false} FirstIsFittest(s: seq<Agent>, x: Agent)
    requires SortedByFitness(s) && x in multiset(s)
    ensures s[0].fitness >= x.fitness
  {
    var k :| 0 <= k < |s| && s[k] == x;
    assert k == 0 || s[0].fitness >= s[k].fitness;
  }

  /** What a sorted permutation of the replaced population keeps: every agent
      healthy, every elite present, and the first agent at least as fit as
      every elite. */
  lemma SortedPopulation(before: seq<Agent>, draws: nat -> ChildDraws, sorted: seq<Agent>, goal: Goal, sin: real -> real)
    requires 0 < Top(|before|)
    requires forall k :: 0 <= k < |before| ==> Healthy(before[k], goal, sin)
    requires multiset(sorted) == multiset(Replaced(before, draws, goal, sin)) && SortedByFitness(sorted)
    ensures forall k :: 0 <= k < |sorted| ==> Healthy(sorted[k], goal, sin)
    ensures multiset(before[..Top(|before|)]) <= multiset(sorted)
    ensures forall k :: 0 <= k < Top(|before|) ==> sorted[0].fitness >= before[k].fitness
  {
    var top := Top(|before|);
    var replaced := Replaced(before, draws, goal, sin);
    ReplacedHealthy(before, draws, goal, sin);
    forall k | 0 <= k < |sorted| ensures Healthy(sorted[k], goal, sin) {
      assert sorted[k] in multiset(replaced);
    }
    assert replaced == before[..top] + replaced[top..];
    calc {
      multiset(before[..top]);
    <= multiset(before[..top]) + multiset(replaced[top..]);
    == multiset(replaced);
    }
    forall k | 0 <= k < top ensures sorted[0].fitness >= before[k].fitness {
      assert before[k] == replaced[k];
      assert replaced[k] in multiset(replaced);
      FirstIsFittest(sorted, replaced[k]);
    }
  }

  /** `slice::sort_by` with the comparator `b.fitness.partial_cmp(&a.fitness)`:
      sorts the agents in place into non-increasing fitness. The algorithm is
      an insertion sort that swaps only on a strict improvement; the contract is
      the library's less stability, which is not stated. */
  method SortByFitness(a: array<Agent>)
    modifies a
    ensures SortedByFitness(a[..])
    ensures multiset(a[..]) == multiset(old(a[..]))
  {
    for i := 0 to a.Length
      invariant SortedByFitness(a[..i])
      invariant multiset(a[..]) == multiset(old(a[..]))
    {
      var j := i;
      while j > 0 && a[j - 1].fitness < a[j].fitness
        invariant 0 <= j <= i
        invariant SortedExcept(a[..i + 1], j)
        invariant multiset(a[..]) == multiset(old(a[..]))
      {
        SwapDown(a, j, i);
        j := j - 1;
      }
      assert SortedByFitness(a[..i + 1]);
    }
    assert a[..a.Length] == a[..];
  }

  /** The prefix is sorted apart from the agent at `j`, which is fitter than
      every agent after it. */
  ghost predicate SortedExcept(s: seq<Agent>, j: nat)
  {
    j < |s| &&
    (forall p, q :: 0 <= p < q < |s| && p != j && q != j ==> s[p].fitness >= s[q].fitness) &&
    (forall q :: j < q < |s| ==> s[j].fitness > s[q].fitness)
  }

  /** One step of the insertion: swap the agent at `j` with its less fit
      predecessor. */
  method SwapDown(a: array<Agent>, j: nat, i: nat)
    requires 0 < j <= i < a.Length
    requires SortedExcept(a[..i + 1], j) && a[j - 1].fitness < a[j].fitness
    modifies a
    ensures SortedExcept(a[..i + 1], j - 1)
    ensures multiset(a[..]) == multiset(old(a[..]))
    ensures forall k :: 0 <= k < a.Length && k != j && k != j - 1 ==> a[k] == old(a[k])
  {
    a[j - 1], a[j] := a[j], a[j - 1];
  }

  /** `Trainer<A>`: the goal waveform and the `A` agents. The sine the agents
      are evaluated with is fixed with the trainer. */
  class Trainer {
    const A: nat
    const goal: Goal
    const sin: real -> real
    const agents: array<Agent>

    /** The array holds `A` agents, each within the length bounds and with a
        current fitness. */
    ghost predicate Valid()
      reads this, agents
    {
      agents.Length == A && forall k {:trigger Healthy(agents[k], goal, sin)} :: 0 <= k < A ==> Healthy(agents[k], goal, sin)
    }

    /** `Trainer::new_rand`: `A` random agents of `STARTING_FUNCTIONS` genes,
        each with its fitness computed. No sort is done. */
    constructor NewRand(A: nat, goal: seq<real>, sin: real -> real, draws: nat -> nat -> GeneDraw)
      requires |goal| == WAVE_RES
      ensures Valid() && fresh(agents)
      ensures this.A == A && this.goal == goal && this.sin == sin
      ensures forall k :: 0 <= k < A ==> agents[k] == CalculateFitness(NewRandAgent(STARTING_FUNCTIONS, draws(k)), goal, sin)
      ensures forall k :: 0 <= k < A ==> |agents[k].functions| == STARTING_FUNCTIONS
    {
      this.A := A;
      this.goal := goal;
      this.sin := sin;
      agents := new Agent[A](k requires 0 <= k => CalculateFitness(NewRandAgent(STARTING_FUNCTIONS, draws(k)), goal, sin));
      new;
      forall k | 0 <= k < A ensures Healthy(agents[k], goal, sin) {
        assert agents[k] == CalculateFitness(NewRandAgent(STARTING_FUNCTIONS, draws(k)), goal, sin);
      }
    }

    /** `Trainer::step`: the slots from `top` on are overwritten with children
        of elites drawn from the first `top` slots, which are left untouched;
        then the whole population is sorted by fitness. Every elite survives,
        so the best agent afterwards is at least as fit as every elite before. */
    method Step(draws: nat -> ChildDraws)
      requires Valid() && 0 < Top(A)
      modifies agents
      ensures Valid()
      ensures SortedByFitness(agents[..])
      ensures multiset(agents[..]) == multiset(Replaced(old(agents[..]), draws, goal, sin))
      ensures multiset(old(agents[..Top(A)])) <= multiset(agents[..])
      ensures forall k :: 0 <= k < Top(A) ==> agents[0].fitness >= old(agents[k].fitness)
    {
      ghost var before := agents[..];
      assert forall k :: 0 <= k < A ==> Healthy(before[k], goal, sin) by {
        forall k | 0 <= k < A ensures Healthy(before[k], goal, sin) {
          assert before[k] == agents[k];
        }
      }
      ReplaceNonElites(draws);
      SortByFitness(agents);
      SortedPopulation(before, draws, agents[..], goal, sin);
      forall k | 0 <= k < A ensures Healthy(agents[k], goal, sin) {
        assert agents[k] == agents[..][k];
      }
    }

    /** The replacement loop of `Trainer::step`: for each `i < A - top`, a
        child of two elites is written to slot `top + i`. Slots below `top`
        are never written, so every parent read is an elite. */
    method ReplaceNonElites(draws: nat -> ChildDraws)
      requires agents.Length == A && 0 < Top(A)
      modifies agents
      ensures agents[..] == Replaced(old(agents[..]), draws, goal, sin)
    {
      var top := Top(A);
      var bottom := A - top;
      ghost var elites := agents[..top];
      ghost var children: seq<Agent> := [];
      for i := 0 to bottom
        invariant agents[..top + i] == elites + children
        invariant children == Children(elites, draws, i, goal, sin)
      {
        assert agents[..top] == elites by {
          assert agents[..top] == agents[..top + i][..top];
        }
        ghost var prefix := agents[..top + i];
        var child := Breed(top, draws(i));
        agents[top + i] := child;
        assert agents[..top + i + 1] == prefix + [child];
        ChildrenSnoc(elites, draws, i, goal, sin);
        children := children + [child];
      }
      assert agents[..] == agents[..top + bottom];
    }

    /** One iteration of the replacement loop: two parents read from slots
        `r % top`, crossed, mutated and scored. */
    method Breed(top: nat, d: ChildDraws) returns (child: Agent)
      requires 0 < top <= agents.Length
      ensures child == Child(agents[..top], d, goal, sin)
    {
      var parentA := agents[d.parentA % top];
      var parentB := agents[d.parentB % top];
      assert parentA == agents[..top][d.parentA % top];
      assert parentB == agents[..top][d.parentB % top];
      child := Crossover(parentA, parentB, d.coins);
      child := Mutate(child, d.mutation);
      child := CalculateFitness(child, goal, sin);
    }

    /** `Trainer::best`: the agent in slot 0. Its fitness is current and never
        positive; once the population is sorted (after any `step`), no agent
        is fitter. */
    function Best(): (b: Agent)
      requires Valid() && 0 < A
      reads this, agents
      ensures b.fitness <= 0.0 && LengthInBounds(b)
      ensures SortedByFitness(agents[..]) ==> forall k :: 0 <= k < A ==> agents[k].fitness <= b.fitness
    {
      assert Healthy(agents[0], goal, sin);
      FitnessZeroIffExact(agents[0].functions, goal, sin);
      agents[0]
    }
  }
}
