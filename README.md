# wave-learner trainer, modelled in Dafny

The wave learner fits a target waveform of 512 samples with a sum of
weighted, translated periodic primitives (sine and sawtooth). It uses a
genetic algorithm over a fixed-size population of agents. This project models
its evolutionary engine, `src-wasm/src/trainer.rs`, in three modules:

- `Waves` (`waves.dfy`) covers the primitives:
  - `WaveFunction`, with its evaluation and display rules;
  - Rust's truncating `fract`;
  - one gene, `FunctionCoefficients`, and its random construction.
- `Agents` (`agents.dfy`) covers an agent:
  - an ordered gene list plus a cached fitness;
  - evaluation as the sum of its genes;
  - fitness as minus the total absolute error over the 512 sample points `(i / 512) * 2 - 1`;
  - random construction, uniform crossover truncated to the shorter parent, and mutation;
  - the `" + "`-joined display.
- `Training` (`training.dfy`) covers the `Trainer` class: the goal plus an array of `A` agents. Its `Step` method:
  1. keeps the first `top = A / 5` slots as elites;
  2. overwrites every other slot with a child of two elites;
  3. sorts the whole array into non-increasing fitness.

Randomness is made explicit. Every `random::<f32>()` is a `UnitReal` roll in [0, 1). Every `random::<usize>()` is a natural number that the model reduces modulo the same bound as the source. Every `random::<bool>()` is a coin `nat -> bool`. Every Gaussian sample is a value of a `noise: nat -> real` function. The draws of one child are gathered in `ChildDraws`, those of one `mutate` call in `MutationDraws`, and those of one gene in `GeneDraw`.

`f32` arithmetic is modelled by the reals. The sine is a parameter `sin: real -> real`, fixed with the trainer. Float-to-text rendering is a parameter `render: real -> string`.

An `Agent` is a value: in Rust each agent is owned by one array slot or one local and is moved, never shared. `crossover` and `mutate` are methods with the source's loops, each proved equal to a specification function (`Crossed`, `Mutated`). The trainer is a class whose `agents` field is an `array<Agent>`, updated in place. The sort is an in-place insertion sort, proved to give a sorted permutation.

Two behaviours of the code that a reader might not expect:

- Sawtooth. `f32::fract` is `v - trunc(v)`, not a floor-based fractional part. It keeps the sign of its argument, so the sawtooth gives -0.5 at -0.5, and the primitive has period 1 on each side of zero but not across it: `fract(v + 1) == fract(v)` for `v >= 0` and for `v <= -1` (`Waves.FractPeriodicOnNonNegative`, `Waves.FractPeriodicBelowMinusOne`), while for -1 < v < 0 `fract(v)` is `v` and `fract(v + 1)` is `v + 1` (`Waves.FractNotPeriodicAcrossZero`, `Waves.SawToothNotPeriodicAcrossZero`).
- Goal length. There is no recoverable length error: `try_into().unwrap()` in `Trainer::new_rand` panics on a goal that is not 512 samples long. The model makes the right length a precondition of `Training.Trainer.NewRand`.

## Model

| member | source | states |
|---|---|---|
| `Waves.Fract` | src-wasm/src/trainer.rs:190 | `fract` is `v - trunc(v)`: it lies strictly between -1 and 1, and on non-negative input it equals the floor-based fractional part `v - floor(v)` |
| `Waves.WaveFunction.Evaluate` | src-wasm/src/trainer.rs:187-192 | the kind's primitive at `x + x_translation`, times `scale`: zero scale gives 0, and on [0, 1) the sawtooth is the ramp `(x + x_translation) * scale` |
| `Waves.WaveFunction.GenerateString` | src-wasm/src/trainer.rs:194-199 | the `format!` templates: the text starts with the rendered scale followed by `*` and ends with `)` |
| `Waves.FunctionCoefficients.Evaluate` | src-wasm/src/trainer.rs:154-156 | a gene's value is its kind evaluated with its own scale and translation; a zero-scale gene contributes 0 |
| `Waves.FunctionCoefficients.ToString` | src-wasm/src/trainer.rs:167-171 | a gene prints as its kind's template: rendered scale, `*`, ..., `)` |
| `Waves.FractPeriodicOnNonNegative` | src-wasm/src/trainer.rs:190 | on non-negative arguments `fract(v + 1) == fract(v)` |
| `Waves.FractPeriodicBelowMinusOne` | src-wasm/src/trainer.rs:190 | for arguments at most -1 `fract(v + 1) == fract(v)` as well |
| `Waves.FractNotPeriodicAcrossZero` | src-wasm/src/trainer.rs:190 | for -1 < v < 0, `fract(v) == v` and `fract(v + 1) == v + 1`, so the period breaks exactly there |
| `Waves.SawToothNotPeriodicAcrossZero` | src-wasm/src/trainer.rs:187-192 | one period apart across zero, at -0.5 and 0.5, the unit sawtooth gives different values |
| `Waves.Trunc` | src-wasm/src/trainer.rs:190 | rounds toward zero: the result is within one of `v`, below it for non-negative `v` and above it for negative `v` |
| `Waves.FractRange` | src-wasm/src/trainer.rs:190 | `fract` lies in [0, 1) for non-negative input and in (-1, 0] for negative input, and what it removes is a whole number |
| `Waves.FractOfNegativeHalf` | src-wasm/src/trainer.rs:190 | `fract(-0.5) == -0.5` and `fract(0.5) == 0.5`: the sign of the argument is kept |
| `Waves.SawToothAtNegativeHalf` | src-wasm/src/trainer.rs:187-192 | the unit sawtooth with no translation at x = -0.5 evaluates to -0.5 |
| `Waves.KindIndex` | src-wasm/src/trainer.rs:173-177 | every variant has a position below `COUNT` |
| `Waves.KindAt` | src-wasm/src/trainer.rs:160 | `iter().nth(n)` for `n < COUNT` yields the variant whose position is `n` |
| `Waves.EvaluateBounded` | src-wasm/src/trainer.rs:187-192 | with a sine bounded by 1, each primitive's value is at most its scale in absolute value |
| `Waves.GenerateStringDistinguishesKinds` | src-wasm/src/trainer.rs:194-199 | the two display formats differ for every scale, translation and rendering |
| `Waves.NewRandGene` | src-wasm/src/trainer.rs:158-164 | the kind is the `draw % COUNT`-th variant; scale and translation lie in [-1, 1) |
| `Waves.NewRandGeneReachesEvery` | src-wasm/src/trainer.rs:158-164 | every gene with scale and translation in [-1, 1) is produced by some draw |
| `Waves.GeneEvaluateBounded` | src-wasm/src/trainer.rs:154-156 | a gene's value is bounded by its absolute scale |
| `Agents.Evaluate` | src-wasm/src/trainer.rs:82-87 | `Agent::evaluate` is the left-fold sum of the genes' values (`SumTerms`); a one-gene agent evaluates as its gene |
| `Agents.Fitness` | src-wasm/src/trainer.rs:139-143 | minus the sum over the 512 sample points of the absolute error against the goal; never positive |
| `Agents.SumTermsAppend` | src-wasm/src/trainer.rs:82-87 | evaluation is additive over concatenated gene lists |
| `Agents.SumTermsBounded` | src-wasm/src/trainer.rs:82-87 | with a bounded sine, an agent's value is at most the sum of its absolute scales |
| `Agents.SamplePoint` | src-wasm/src/trainer.rs:141 | each of the 512 sample points lies in [-1, 1) |
| `Agents.ScoreSumZeroIffMatch` | src-wasm/src/trainer.rs:139-143 | each partial sum of sample scores is at most 0, and is 0 exactly when every sample so far is matched |
| `Agents.FitnessZeroIffExact` | src-wasm/src/trainer.rs:139-143 | fitness is at most 0, and is 0 exactly when the genes reproduce the goal at all 512 sample points |
| `Agents.CalculateFitness` | src-wasm/src/trainer.rs:139-143 | the genes are kept and the new fitness is never positive |
| `Agents.CalculateFitnessIdempotent` | src-wasm/src/trainer.rs:139-143 | after `calculate_fitness` the cached fitness is current, so recalculating changes nothing |
| `Agents.NewRandAgent` | src-wasm/src/trainer.rs:89-94 | `new_rand(n)` has exactly `n` genes, each with parameters in [-1, 1), and the placeholder fitness 0 |
| `Agents.Crossed` | src-wasm/src/trainer.rs:96-113 | the child has `min` of the parents' lengths and fitness 0 |
| `Agents.CrossedGenes` | src-wasm/src/trainer.rs:100-108 | each child gene equals the gene at the same index of one parent |
| `Agents.Crossover` | src-wasm/src/trainer.rs:96-113 | the push loop builds exactly `Crossed`: length `min`, fitness 0, gene `i` from the parent its coin picks |
| `Agents.CrossedInBounds` | src-wasm/src/trainer.rs:96-113 | parents with 1 to 12 genes give a child with 1 to 12 genes |
| `Agents.CrossedWithSelf` | src-wasm/src/trainer.rs:100-108 | crossing an agent with itself reproduces its genes whatever the coins |
| `Agents.CrossedAllHeads` | src-wasm/src/trainer.rs:100-108 | with every coin heads the child is the first parent's prefix: the longer parent's extra genes are never inherited |
| `Agents.RemoveAt` | src-wasm/src/trainer.rs:123 | `Vec::remove` shortens the list by one |
| `Agents.RemoveAtShifts` | src-wasm/src/trainer.rs:123 | genes before the removed index stay put and later ones move down by one |
| `Agents.RemoveAtMultiset` | src-wasm/src/trainer.rs:123 | exactly one copy of the removed gene leaves the multiset |
| `Agents.Grown` | src-wasm/src/trainer.rs:118-120 | the push step keeps the old genes as a prefix and adds one gene exactly when the list is below 12 and the roll is under 0.1 |
| `Agents.Shrunk` | src-wasm/src/trainer.rs:122-124 | the remove step drops one gene exactly when the list has more than one and the roll is under 0.1 |
| `Agents.Restructured` | src-wasm/src/trainer.rs:118-124 | push and remove change the length by at most one, never below 1 from a non-empty list, never above 12 from a list of at most 12 |
| `Agents.RestructuredGenes` | src-wasm/src/trainer.rs:118-124 | every gene left is an original gene or the one fresh gene |
| `Agents.DriftScale` | src-wasm/src/trainer.rs:126-130 | the scale pass keeps the length |
| `Agents.DriftTranslation` | src-wasm/src/trainer.rs:131-135 | the translation pass keeps the length |
| `Agents.DriftScaleGene` | src-wasm/src/trainer.rs:126-130 | the scale pass keeps kind and translation, and changes a scale only when that gene's roll is under 0.4 |
| `Agents.DriftTranslationGene` | src-wasm/src/trainer.rs:131-135 | the translation pass keeps kind and scale, and changes a translation only when that gene's roll is under 0.4 |
| `Agents.DriftScales` | src-wasm/src/trainer.rs:126-130 | the in-place `iter_mut` loop computes `DriftScale` |
| `Agents.DriftTranslations` | src-wasm/src/trainer.rs:131-135 | the in-place `iter_mut` loop computes `DriftTranslation` |
| `Agents.Mutated` | src-wasm/src/trainer.rs:115-137 | a mutated agent keeps its stale fitness, its length moves by at most one, and it stays within [1, 12] |
| `Agents.Mutate` | src-wasm/src/trainer.rs:115-137 | the imperative mutate computes `Mutated`; length moves by at most one and stays within [1, 12]; the fitness is untouched |
| `Agents.MutatedGenesDescend` | src-wasm/src/trainer.rs:118-135 | every gene after mutation descends from an original gene or the fresh one, and keeps its kind |
| `Agents.JoinTerms` | src-wasm/src/trainer.rs:71-79 | the genes' strings joined with `" + "`; the joined text of `n` genes is at least `3 * (n - 1)` characters long |
| `Agents.ToString` | src-wasm/src/trainer.rs:71-79 | `Agent::to_string` is `JoinTerms` of the genes; a one-gene agent prints as its gene, with no separator |
| `Agents.JoinTermsAppend` | src-wasm/src/trainer.rs:71-79 | joining two non-empty gene lists is joining each and putting `" + "` between them |
| `Training.Top` | src-wasm/src/trainer.rs:39 | the number of elites never exceeds the population |
| `Training.TopIsFloorOfFraction` | src-wasm/src/trainer.rs:39 | `top` is the floor of the population size times 0.2 |
| `Training.TopOfAgentCount` | src-wasm/src/trainer.rs:39-40 | for a population of 50, `top` is 10 and `bottom` is 40 |
| `Training.Child` | src-wasm/src/trainer.rs:42-51 | a child's fitness is current for the goal and never positive |
| `Training.ChildInBounds` | src-wasm/src/trainer.rs:42-51 | parents within [1, 12] genes give a child within [1, 12] |
| `Training.ChildHealthy` | src-wasm/src/trainer.rs:42-51 | children of healthy elites are healthy: in bounds, with current fitness |
| `Training.Children` | src-wasm/src/trainer.rs:41-54 | the loop breeds exactly `bottom` children |
| `Training.Replaced` | src-wasm/src/trainer.rs:39-54 | the replaced population has the same size and the elite slots are untouched |
| `Training.ReplacedHealthy` | src-wasm/src/trainer.rs:41-54 | replacement keeps every agent healthy |
| `Training.FirstIsFittest` | src-wasm/src/trainer.rs:57 | in a sorted population the first agent is at least as fit as any member |
| `Training.SortedPopulation` | src-wasm/src/trainer.rs:41-57 | a sorted permutation of the replaced population is healthy, contains every pre-step elite, and starts with an agent at least as fit as each of them |
| `Training.SortByFitness` | src-wasm/src/trainer.rs:57 | the sort leaves the array in non-increasing fitness and is a permutation |
| `Training.SwapDown` | src-wasm/src/trainer.rs:57 | one insertion step moves the inserted agent one place up, is a permutation, and touches only the two swapped slots |
| `Training.Trainer.NewRand` | src-wasm/src/trainer.rs:24-35 | `A` agents of 4 random genes each, each with its fitness computed, all healthy, unsorted |
| `Training.Trainer.Step` | src-wasm/src/trainer.rs:37-58 | all agents stay healthy; the result is a sorted permutation of the replaced population; the pre-step elites survive; the new first agent is at least as fit as every pre-step elite |
| `Training.Trainer.ReplaceNonElites` | src-wasm/src/trainer.rs:39-54 | the loop leaves the elite slots untouched and writes the `i`-th child to slot `top + i` |
| `Training.Trainer.Breed` | src-wasm/src/trainer.rs:42-51 | parents are read from slots `r % top` (in bounds) and the result is `Child` of the elite prefix |
| `Training.Trainer.Best` | src-wasm/src/trainer.rs:60-62 | the best agent is within bounds with fitness at most 0; in a sorted population no agent is fitter |

## Left out

- `src-wasm/src/lib.rs` is not part of this model. It holds the WebAssembly boundary: the global trainer singleton, the exported functions, panic-hook and logging setup.
- Probability distributions are not modelled. Rolls, draws, coins and Gaussian noise are parameters.
  - The normal distribution with standard deviation `MUTATION_STRENGTH` (0.1) is replaced by an arbitrary noise function.
  - Noise is indexed by gene position. The source samples it only for genes whose roll succeeds; any such sequence of samples is one such noise function.
- `f32` rounding, overflow and NaN are not modelled: the model uses reals.
  - The summation order of `Iterator::sum` is kept, but its rounding is not.
  - The `as usize` truncation of `A as f32 * 0.2` is modelled on integers as `A / 5`. `Training.TopIsFloorOfFraction` shows that this is the real-number floor.
- The panic from `partial_cmp(...).unwrap()` on a NaN fitness is not modelled: fitness is a real, so it is totally ordered.
- `f32::sin` and float-to-decimal rendering are abstract parameters. `Waves.EvaluateBounded` assumes a sine bounded by 1 only where it says so.
- `WaveFunction::new` is not modelled. Nothing calls it, and its match arms bind every name rather than matching variants.
- Wrong goal length: the model makes the length a precondition, because `try_into().unwrap()` panics; the panic itself is not modelled.
- `Training.Trainer.Best` requires `0 < A`. For `A = 0`, `&self.agents[0]` panics in Rust; the panic is not modelled.
- Sort stability is not modelled. `Training.SortByFitness` promises a sorted permutation, not that agents of equal fitness keep their order.
- Aliasing of agents is not modelled, because agents are values. Rust's ownership rules make that exact for this code.
- `Training.Trainer.Step` requires `0 < top`. For `A` from 1 to 4, `top` is 0 and `random::<usize>() % top` panics in Rust. For `A = 0`, Rust's `step` does nothing, and the model does not cover that case.
