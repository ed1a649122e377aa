# Magic-square coupling, modelled in Dafny

This project models the core of a speculative physics toolkit. In it,
particles carry "intrinsic" magic squares, and the fundamental forces are read
as rules for coupling two such squares. The model covers five parts:

- **Magic-square primitives.** These are the Lo Shu (order 3) and order-5
  squares, the tolerance-based magic test, the imbalance measure against
  n(n²+1)/2, the approximate-square generator that renormalises rows and then
  columns, and the parity stability score (`core_math.py`). The module also
  models the exact variants of the generator, the test and the imbalance;
  there the imbalance is measured against the mean line sum
  (`MATHEMATICS/magic_square_core.py`).
- **The quantum coupling engine** (`quantum_coupling.py`). Two squares are
  placed on the diagonal of a zero matrix and perturbed. For each target
  order the force prefers, a candidate stable square is generated (a canonical
  square, or an approximate square, or the transition's SVD projection). Each
  candidate is validated and scored as 0.4·quality + 0.3·match + 0.3·parity.
  The earliest best-scoring candidate is kept if its score exceeds 0.3.
- **Square coupling** (`MATHEMATICS/magic_coupling.py`). The two squares are
  imprinted, scaled by the coupling strength, on a uniform random transition
  state. The transition then collapses through a truncated SVD, and the
  result is kept only if its normalised imbalance is below 0.1. A clamped
  stability score rates the outcome.
- **Force rules** (`PHYSICS/forces/magic_coupling_forces/force_coupling_rules.py`).
  Each force's strength is looked up, with a default of 0.01. Then:
  - the strong force adds 0.3 to the score of an order-3 or order-5 stable
    state;
  - the weak force records whether the flavour changed;
  - gravity adds its tags;
  - the binding energy is predicted;
  - the forces unify above 10^15 GeV.
- **Matrices as data.** Matrices are `seq<seq<real>>`. numpy arrays that the
  source updates in place (`+=`, `*=`, block assignment) are `array2<real>`
  updated by loops. Each such method is proved equal to a specification
  function on matrix values.

Everything numpy draws at random, and every numerical routine whose value the
model cannot compute, is a parameter: `Draws` in `QuantumEngine` and in
`MagicCouplings`. That covers normal and uniform noise, SVD reconstructions,
tanh of a norm difference and the correlation coefficient. The natural
logarithm in the binding-energy prediction is a function argument of
`ForceRules.PredictBindingEnergy`.

Two facts come out of the proofs:

- In the quantum engine, whenever the threshold is non-negative and the
  transition has order above 3, the Lo Shu candidate always clears the 0.3
  bar, so coupling always succeeds. See `QuantumEngine.QuantumCoupling.CoupleParticles`
  and `LoShuQualifies`.
- In square coupling, the rank-k SVD reconstruction still has the
  transition's order. So a stable state always has order n_a + n_b, the tanh
  energy term never affects the score (`StabilityIgnoresEnergy`), and the
  strong-force bonus applies only when n_a + n_b = 5
  (`ForceRules.ForceCouplingRules.StrongForceCoupling`).

## Model

| member | source | states |
|---|---|---|
| Matrices.AssignBlock | quantum_coupling.py:53-55 | Writes an n-by-n matrix into the block at (off, off) of an array and leaves every other entry unchanged |
| Matrices.AddScaledBlock | MATHEMATICS/magic_coupling.py:56-57 | Adds `m * k` into the block at (off, off) in place and leaves every other entry unchanged |
| Matrices.ScaleRowInPlace | core_math.py:34 | Multiplies row i of the array by k in place; other rows are unchanged |
| Matrices.ScaleColumnInPlace | core_math.py:38 | Multiplies column j of the array by k in place; other columns are unchanged |
| Matrices.BlockDiagonalBlocks | quantum_coupling.py:53-55 | The block-diagonal matrix has a and b as its diagonal blocks and zeros in both off-diagonal blocks |
| Matrices.SumScaleVector | core_math.py:33-34 | Scaling a vector by k scales its sum by k (why renormalising a line hits the target) |
| LineSums.CheckLines | core_math.py:52-62 | True exactly when every row, every column and both diagonals sum to within tol of c; it checks in the source's order and returns early |
| LineSums.LinesWithinZero | MATHEMATICS/magic_square_core.py:36-42 | Within tolerance 0 means every line sum equals c exactly |
| LineSums.LinesWithinMonotone | core_math.py:43-64 | A square within one tolerance is within every larger one |
| LineSums.MeasureDeviation | core_math.py:73-80 | The accumulation loop returns the sum of \|line sum - c\| over rows, columns and both diagonals |
| LineSums.DeviationZeroIff | core_math.py:66-82 | The deviation is zero if and only if every line sums to c |
| LineSums.TotalOfEqualRows | MATHEMATICS/magic_square_core.py:59 | If every row sums to c, the mean line sum (total / n) is c |
| Scores.Quality | quantum_coupling.py:120 | 1/(1+imbalance) lies in (0, 1] and equals 1 exactly at zero imbalance |
| Scores.QualityAntitone | MATHEMATICS/magic_coupling.py:100 | A larger imbalance never gives a higher quality |
| Scores.ParityBonus | quantum_coupling.py:126 | 1.0 exactly for odd orders and 0.3 exactly for even orders |
| Scores.Clamp01 | MATHEMATICS/magic_coupling.py:117 | The result lies in [0, 1] and is the input when the input already lies there |
| CoreMath.GenerateMagicSquare3x3 | core_math.py:8-12 | A 3-by-3 square |
| CoreMath.LoShuIsMagic | core_math.py:8-12 | Every line of the Lo Shu square sums to 15, its imbalance is 0 and it is magic at tolerance 0 |
| CoreMath.GenerateMagicSquare5x5 | core_math.py:14-20 | A 5-by-5 square |
| CoreMath.Square5IsMagic | core_math.py:14-20 | Every line of the order-5 square sums to 65, its imbalance is 0 and it is magic at tolerance 0 |
| CoreMath.IsMagicSquare | core_math.py:43-64 | False for the empty matrix; otherwise true exactly when every line sum is within the tolerance of the first row's sum |
| CoreMath.IsMagicMonotone | core_math.py:43-64 | A square magic at one tolerance is magic at every larger tolerance |
| CoreMath.CalculateImbalance | core_math.py:66-82 | Returns the summed deviation of all lines from n(n²+1)/2; the result is never negative |
| CoreMath.ZeroImbalanceIff | core_math.py:66-82 | Zero imbalance holds exactly when every line sums to n(n²+1)/2, and then the square is magic at tolerance 0 |
| CoreMath.NormaliseRows | core_math.py:32-34 | Succeeds exactly when no row sums to zero; the array then holds every row rescaled to the target sum |
| CoreMath.NormaliseColumns | core_math.py:36-38 | Succeeds exactly when no column sums to zero; the array then holds every column rescaled to the target sum |
| CoreMath.RowPassHitsTarget | core_math.py:32-34 | After the row pass, every row sums to the target |
| CoreMath.ColumnPassHitsTarget | core_math.py:36-38 | After the column pass, every column sums to the target |
| CoreMath.CreateApproximateMagicSquare | core_math.py:22-40 | Returns the mean-filled, noise-perturbed guess after row and then column renormalisation to n(n²+1)/2 when no line sum is zero; otherwise the IEEE outcome: `Undefined` (order 0, a zero row sum, or zero-sum columns that leave the first row's sum nan) or `Unbounded` (a single infinite first-row sum) |
| CoreMath.ApproximateColumnsHitTarget | core_math.py:22-40 | An approximate square has the requested order, and every column sums to n(n²+1)/2 |
| CoreMath.ParityBase | core_math.py:89-93 | The base lies in [0.8, 1) for odd orders and in [0.6, 0.7) for even ones |
| CoreMath.OddBaseBeatsEven | core_math.py:89-93 | Every odd order's base exceeds every even order's |
| CoreMath.ParityStabilityScore | core_math.py:84-98 | 0 for None; otherwise non-negative, at most the parity base, and equal to it at zero imbalance |
| MagicSquareCore.GenerateMagicSquare3x3 | MATHEMATICS/magic_square_core.py:8-18 | A 3-by-3 square |
| MagicSquareCore.IsMagicSquare | MATHEMATICS/magic_square_core.py:20-44 | True exactly when every row, column and diagonal equals the given constant, or the first row's sum when none is given |
| MagicSquareCore.CalculateImbalance | MATHEMATICS/magic_square_core.py:46-69 | Returns the summed deviation of all lines from the mean line sum; never negative |
| MagicSquareCore.MagicHasZeroImbalance | MATHEMATICS/magic_square_core.py:46-69 | A square whose lines all sum to one constant has imbalance 0 |
| MagicSquareCore.ZeroImbalanceIsMagic | MATHEMATICS/magic_square_core.py:46-69 | Imbalance 0 holds exactly when every line sums to the first row's sum |
| MagicSquareCore.LoShuIsMagic | MATHEMATICS/magic_square_core.py:71-78 | The Lo Shu square is magic with constant 15 and has imbalance 0 |
| MagicSquareCore.ChaoticMatrixImbalance | MATHEMATICS/magic_square_core.py:80-82 | The imbalance of [[1,2,3],[4,5,6],[7,8,9]] is 24 |
| QuantumEngine.PreferredOrders | quantum_coupling.py:66-73 | Each force's list starts at 3 and is strictly increasing and odd |
| QuantumEngine.FilterOrders | quantum_coupling.py:76 | Keeps exactly the orders in [3, n), and keeps strict increase |
| QuantumEngine.TargetOrders | quantum_coupling.py:66-76 | The target orders are exactly the preferred orders in [3, n), increasing, with 3 first whenever n > 3 |
| QuantumEngine.TransitionBlocks | quantum_coupling.py:48-59 | Once the fluctuation is taken away, the transition has a and b as its diagonal blocks and zero off-diagonal blocks |
| QuantumEngine.CalculateMatch | quantum_coupling.py:130-143 | 0.5 below order 2; otherwise in [0, 1] for a correlation in [-1, 1], 0 exactly at correlation -1 or below, 1 exactly at correlation 1 |
| QuantumEngine.MatchMonotone | quantum_coupling.py:141 | A higher correlation never gives a lower match |
| QuantumEngine.TracksEarliestMaxStep | quantum_coupling.py:81-87 | Seeing one more score keeps the best-so-far bookkeeping, moving it only on a strictly higher score |
| QuantumEngine.TracksEarliestMaxExceeds | quantum_coupling.py:89 | The best score exceeds the bar exactly when some score does |
| QuantumEngine.QuantumCoupling.constructor | quantum_coupling.py:11-12 | Stores the stability threshold |
| QuantumEngine.QuantumCoupling.Default | quantum_coupling.py:11-12 | Without an argument the threshold is 0.8 |
| QuantumEngine.QuantumCoupling.FormTransitionState | quantum_coupling.py:48-59 | Returns the block-diagonal placement of a and b plus the fluctuation |
| QuantumEngine.FirstAttempt | quantum_coupling.py:95-100 | The canonical square for orders 3 and 5, the approximate square otherwise; a finite result has the target order |
| QuantumEngine.QuantumCoupling.Candidate | quantum_coupling.py:91-115 | A candidate is square, magic within the engine's threshold, and of the target order or the transition's order |
| QuantumEngine.QuantumCoupling.UnboundedFallsBackToProjection | quantum_coupling.py:102-110 | An approximate square with infinite entries fails the coarse test, so the SVD projection replaces it whenever the target order fits the transition |
| QuantumEngine.QuantumCoupling.KeptWhenMagic | quantum_coupling.py:102-110 | A first attempt that is magic within 1.0 and within the threshold is itself the candidate |
| QuantumEngine.QuantumCoupling.LoShuCandidate | quantum_coupling.py:95-110 | With a non-negative threshold, order 3 yields the Lo Shu square |
| QuantumEngine.QuantumCoupling.Square5Candidate | quantum_coupling.py:97-110 | With a non-negative threshold, order 5 yields the canonical order-5 square |
| QuantumEngine.QuantumCoupling.GenerateCandidate | quantum_coupling.py:91-115 | Returns exactly `Candidate`: canonical or approximate square, SVD fallback when not magic within 1.0, kept only if magic within the threshold |
| QuantumEngine.QuantumCoupling.EvaluateCandidate | quantum_coupling.py:117-128 | The score is positive, at most 1 for a correlation in [-1, 1], and at least 0.7 for a perfect odd-order candidate |
| QuantumEngine.QuantumCoupling.EvaluateAntitoneInImbalance | quantum_coupling.py:117-128 | At equal order and correlation, the less imbalanced candidate scores at least as high |
| QuantumEngine.QuantumCoupling.ScoreOf | quantum_coupling.py:82-84 | A score exists exactly when the order yields a candidate, and it is positive |
| QuantumEngine.QuantumCoupling.CandidateScoresAt | quantum_coupling.py:81-84 | The i-th score is that of the i-th target order's candidate |
| QuantumEngine.QuantumCoupling.SelectStableState | quantum_coupling.py:78-89 | Returns a candidate exactly when some score exceeds 0.3; that candidate is the earliest maximum, magic within the threshold and scoring above 0.3 |
| QuantumEngine.QuantumCoupling.FindStableState | quantum_coupling.py:61-89 | The same selection over the force's target orders below the transition's order |
| QuantumEngine.QuantumCoupling.LoShuQualifies | quantum_coupling.py:76-89 | With a non-negative threshold and order above 3, the first candidate is Lo Shu and scores above 0.3 |
| QuantumEngine.QuantumCoupling.CoupleParticles | quantum_coupling.py:14-46 | Success exactly when a stable state is found; stability 0 without one, else the stable state's score above 0.3; always a success for order above 3 with a non-negative threshold |
| MagicCouplings.ImprintedEntries | MATHEMATICS/magic_coupling.py:53-57 | The transition is the drawn base plus strength·a and strength·b on the diagonal blocks, unchanged elsewhere |
| MagicCouplings.CollapseTarget | MATHEMATICS/magic_coupling.py:66 | The target order is odd and is n-1 or n-2 |
| MagicCouplings.CollapseTargetAtLeastThree | MATHEMATICS/magic_coupling.py:66-69 | The target order reaches 3 exactly when the transition has order at least 4 |
| MagicCouplings.IsValidMagicConfiguration | MATHEMATICS/magic_coupling.py:82-91 | Valid only at order 3 or more; a zero-imbalance square of order 3 or more is valid exactly at positive tolerance |
| MagicCouplings.MagicIsValidConfiguration | MATHEMATICS/magic_coupling.py:82-91 | An exactly magic square of order 3 or more is valid at any positive tolerance |
| MagicCouplings.ValidConfigurationMonotone | MATHEMATICS/magic_coupling.py:82-91 | A valid configuration stays valid at a larger tolerance |
| MagicCouplings.LoShuIsValidConfiguration | MATHEMATICS/magic_coupling.py:82-91 | The Lo Shu square is valid at tolerance 0.1 |
| MagicCouplings.CollapseToStable | MATHEMATICS/magic_coupling.py:61-80 | Returns the SVD reconstruction exactly when the transition has order at least 4 and the reconstruction is valid; it has the transition's order |
| MagicCouplings.CalculateStabilityScore | MATHEMATICS/magic_coupling.py:93-117 | 0 without a stable state; always in [0, 1]; above 0.2 when the stable state is at least the transition's order (energy term 0.5); exactly 0.8 when, in addition, it is odd with zero imbalance |
| MagicCouplings.StabilityIgnoresEnergy | MATHEMATICS/magic_coupling.py:103-108 | The collapse keeps the transition's order, so the tanh draw never changes the score |
| MagicCouplings.ParityStabilityScore | MATHEMATICS/magic_coupling.py:120-135 | 0 for None; otherwise non-negative, at most the parity base, and equal to it at zero imbalance |
| MagicCouplings.ParityBase | MATHEMATICS/magic_coupling.py:126-129 | The base lies in [0.8, 1) for odd orders and in [0.3, 0.5) for even ones |
| MagicCouplings.ParityBaseGrows | MATHEMATICS/magic_coupling.py:126-129 | Within one parity, a larger order has a base at least as large |
| MagicCouplings.OddOrderOutscoresEven | MATHEMATICS/magic_coupling.py:120-135 | A perfect odd square outscores every even square |
| MagicCouplings.MagicCoupling.constructor | MATHEMATICS/magic_coupling.py:10-11 | The stability threshold is 0.1 |
| MagicCouplings.MagicCoupling.FormTransitionState | MATHEMATICS/magic_coupling.py:45-59 | The in-place imprint leaves the uniform base plus the scaled block-diagonal of a and b |
| MagicCouplings.MagicCoupling.Coupled | MATHEMATICS/magic_coupling.py:13-43 | Transition order n_a+n_b; success, a stable order and a non-zero score each hold exactly when a stable state exists, which then is valid and of order n_a+n_b ≥ 4; the score lies in [0, 1] |
| MagicCouplings.MagicCoupling.CoupleSquares | MATHEMATICS/magic_coupling.py:13-43 | Returns exactly `Coupled` |
| ForceRules.Strength | PHYSICS/forces/magic_coupling_forces/force_coupling_rules.py:41 | Looks up the table's strength, or 0.01 for an unknown force; always in (0, 1] |
| ForceRules.StrongIsStrongest | PHYSICS/forces/magic_coupling_forces/force_coupling_rules.py:15-41 | Every other force, in the table or defaulted to 0.01, gets a strength below the strong force's |
| ForceRules.StrongRule | PHYSICS/forces/magic_coupling_forces/force_coupling_rules.py:64-68 | Only the score changes, only for stable orders 3 or 5; it rises by 0.3 capped at 1 and stays in [0, 1] |
| ForceRules.WeakRule | PHYSICS/forces/magic_coupling_forces/force_coupling_rules.py:87-92 | The coupling is unchanged, and flavour changed holds exactly when a stable state formed |
| ForceRules.GravityRule | PHYSICS/forces/magic_coupling_forces/force_coupling_rules.py:103-107 | The coupling is unchanged and tagged universal, always attractive, coupling even unstable states |
| ForceRules.ForceRule | PHYSICS/forces/magic_coupling_forces/force_coupling_rules.py:47-57 | Dispatches to the strong, weak or gravity rule; every other force leaves the result as is |
| ForceRules.PredictBindingEnergy | PHYSICS/forces/magic_coupling_forces/force_coupling_rules.py:111-123 | 0 without a stable state; with one, non-negative for a non-negative score and ln(order + 1), positive when both are positive |
| ForceRules.BindingEnergyMonotone | PHYSICS/forces/magic_coupling_forces/force_coupling_rules.py:116-121 | For stable states of the same order, a higher stability never predicts a lower binding energy |
| ForceRules.BindingEnergyGrowsWithOrder | PHYSICS/forces/magic_coupling_forces/force_coupling_rules.py:116-121 | At the same stability, a larger stable order never predicts a lower binding energy, for a non-decreasing logarithm |
| ForceRules.ForceCouplingRules.constructor | PHYSICS/forces/magic_coupling_forces/force_coupling_rules.py:11-12 | Creates a fresh coupler with threshold 0.1 |
| ForceRules.ForceCouplingRules.StrongForceCoupling | PHYSICS/forces/magic_coupling_forces/force_coupling_rules.py:59-70 | Returns the strong rule applied to the coupling; the score stays in [0, 1] and changes only when n_a+n_b = 5 |
| ForceRules.ForceCouplingRules.EmForceCoupling | PHYSICS/forces/magic_coupling_forces/force_coupling_rules.py:72-79 | Returns the coupling unchanged |
| ForceRules.ForceCouplingRules.WeakForceCoupling | PHYSICS/forces/magic_coupling_forces/force_coupling_rules.py:81-94 | Returns the weak rule applied to the coupling; flavour changed equals coupling success |
| ForceRules.ForceCouplingRules.GravityCoupling | PHYSICS/forces/magic_coupling_forces/force_coupling_rules.py:96-109 | Returns the gravity rule applied to the coupling |
| ForceRules.ForceCouplingRules.StrongImprintsHardest | PHYSICS/forces/magic_coupling_forces/force_coupling_rules.py:41 | On the same draws, a positive entry of the first square is imprinted more strongly under the strong force than under any other |
| ForceRules.ForceCouplingRules.ApplyForceCoupling | PHYSICS/forces/magic_coupling_forces/force_coupling_rules.py:30-57 | Returns the force's rule applied to the coupling at the force's strength; transition order n_a+n_b, success exactly with a stable state, score in [0, 1] |
| ForceRules.UnifiedForceTheory.constructor | PHYSICS/forces/magic_coupling_forces/force_coupling_rules.py:129-130 | Creates fresh force rules |
| ForceRules.UnifiedForceTheory.UnifyForcesAtHighEnergy | PHYSICS/forces/magic_coupling_forces/force_coupling_rules.py:132-153 | Unified exactly above 10^15 GeV, with strength 0.5 and orders [3, 7, 11]; otherwise the separate strength table |

## Left out

- **Parameters instead of computation.** Random draws and numerical routines
  are inputs, so the model says nothing about their distributions:
  - `np.random.normal` and `np.random.rand`;
  - `np.linalg.svd` reconstructions;
  - `np.linalg.norm` with `np.tanh`;
  - `np.corrcoef`;
  - `np.log`.
- **IEEE floating point is not modelled; arithmetic is on exact reals.**
  - A line that sums to zero in `create_approximate_magic_square` gives
    inf/nan in numpy. The model keeps the outcome that matters
    (`CoreMath.Approximation`), not the entries. A zero row sum, and zero-sum
    columns that make the first row's sum nan, give a square that passes the
    coarse test and scores nan. The model has no candidate there, which the
    source never selects either. Otherwise zero-sum columns give a single
    infinite first-row sum. That square fails every magic test, so the SVD
    fallback is taken as in the source.
  - Line sums are exact: a sum that is zero over the reals but not after
    rounding, or the reverse, is not modelled.
  - A nan correlation, which `max(0, nan)` turns into 0, corresponds to
    passing a correlation of -1 or less.
- **Unmodelled failure paths.**
  - The `except` branch of `_calculate_match` (0.5 when `corrcoef` raises)
    is not modelled.
  - An SVD failure in `_generate_candidate` is modelled as a None
    projection. In `_collapse_to_stable` the source lets an SVD failure
    propagate; the model always supplies a reconstruction.
- **Order-0 inputs, which crash or produce nan in the source, are excluded by
  preconditions:**
  - `MagicSquareCore.CalculateImbalance`: division by n in the mean.
  - `MagicSquareCore.IsMagicSquare` without a constant: indexing the first
    row.
  - Both `ParityStabilityScore` functions: 1/n.
- **Particles.** Particle objects, their catalogues and their names are not
  modelled. `couple_particles` and `apply_force_coupling` receive the squares
  (and names) directly. `particle_magic_definitions.py` is not part of this
  model.
- **Console output.** The `print` calls and the `__main__` demonstration
  blocks are not modelled. The demonstrations' facts about Lo Shu and the
  chaotic matrix are lemmas.
- **Unread configuration.** `force_ranges` and
  `MagicCoupling.stability_threshold` are stored but never read by the source.
  They are kept as constants.
- **Values instead of objects.**
  - The result dictionaries are immutable datatypes. The force rules build a
    new `ForceResult` rather than adding keys in place.
  - Returning the same `force_strengths` dictionary object (aliasing) is
    modelled as returning an equal map.
- **Default arguments.** Dafny has none, so these defaults become explicit
  arguments or constants:
  - `force_type="universal"` in `couple_particles`;
  - `coupling_strength=1.0` in `couple_squares`;
  - `tolerance=0.1` in `_is_valid_magic_configuration`: always used at
    `VALID_TOLERANCE`;
  - `tolerance=1e-10` in `is_magic_square`: every caller in the core passes
    its own tolerance.

  The default threshold 0.8 is the `QuantumCoupling.Default` constructor.
- **Integer squares.** `magic_square_core.py` builds an integer array; the
  model uses exact reals.
- QuantumEngine.QuantumCoupling.CoupleParticles: does not state that the
  stability is at most 1, because that needs the correlation to lie in
  [-1, 1], which the model does not assume. `EvaluateCandidate` states the
  bound under that condition.
