# Online optimizer driver — a Dafny model

This project models the driver of the online optimizer, `Optimizer.Start` in
`Jtc.Optimization.OnlineOptimizer/Optimizer.cs`. A run goes through four steps:

1. The ordered gene list of the configuration becomes an array of
   `MinMaxParameterSpec`s, one per gene and in the same order. Each bound is
   the decimal bound when present, else the integer bound. A gene missing
   both forms makes construction throw. A positive precision gives a
   continuous parameter and any other precision a discrete one. The
   transform is always linear.
2. The fitness section's optimizer name is compared, exactly and
   case-sensitively, against the five strategy names: `RandomSearch`,
   `ParticleSwarm`, `Bayesian`, `GlobalizedBoundedNelderMead` and
   `GridSearch`. The matching name picks an algorithm. The algorithm's knobs
   come from `Generations` and `PopulationSize`. Every seeded strategy gets
   seed 42, and every parallelism argument passed turns parallelism off. A missing fitness section or an unknown name leaves no
   algorithm, and the run then fails. There is no default strategy.
3. The algorithm runs to completion against the subclass's objective.
4. The result keeps the algorithm's parameter set. Its cost is the error,
   negated when the optimizer is maximising.

Modules:
- `Wrappers` holds `Option` (a nullable value) and `Result` (a call that
  returns or throws).
- `ParameterSpace` covers genes, specifications, the per-gene mapping
  `ToSpec` and the whole-list `BuildParameterSpace`. Its reference
  definition `DerivedFrom` states the mapping field by field.
- `Strategies` covers the strategy enumeration, the name comparison chain
  `ParseOptimizerType`, the strategy table `Construct` and `Resolve`. `Resolve`
  gives the value of `optimizerMethod` after the chain.
- `OnlineOptimizer` holds the configuration and result datatypes, the sign
  rule (`Cost`, `Normalize`) and the class `Optimizer` with its
  `isMaximizing` field and the method `Start`.

Three details of the code are easy to miss:
- `Optimizer.cs` itself never compares a minimum with its maximum. Whatever
  the library's `MinMaxParameterSpec` constructor checks about its arguments
  is not part of this model, so the model builds a specification for any
  pair of bounds.
- Precision `<= 0`, not only `== 0`, gives a discrete parameter.
- The maximise flag is not read from the configuration. It is the private
  property `IsMaximizing`, which nothing assigns. It therefore keeps its
  default `false`, so the cost `Start` reports is always the raw error. In
  the model it is a constant field that the constructor sets to `false`,
  and `Start`'s last postcondition states the consequence.

## Model

| member | source | states |
|---|---|---|
| `ParameterSpace.ResolveBound` | Jtc.Optimization.OnlineOptimizer/Optimizer.cs:24 | a bound resolves exactly when its decimal or its integer form is present; it is the decimal bound when that is present, else the integer bound |
| `ParameterSpace.ToSpec` | Jtc.Optimization.OnlineOptimizer/Optimizer.cs:23-25 | a gene yields a specification exactly when both its minimum and its maximum are present in some form, and that specification is the one `DerivedFrom` describes (decimal bound preferred, linear transform, continuous iff precision > 0) |
| `ParameterSpace.ToSpecCharacterized` | Jtc.Optimization.OnlineOptimizer/Optimizer.cs:24-25 | `ToSpec(g) == Some(p)` if and only if `p` is derived from `g` by the reference definition |
| `ParameterSpace.BuildParameterSpace` | Jtc.Optimization.OnlineOptimizer/Optimizer.cs:23-26 | construction succeeds exactly when every gene has both bounds; the result then has one specification per gene, and specification i is derived from gene i |
| `ParameterSpace.BuildCharacterized` | Jtc.Optimization.OnlineOptimizer/Optimizer.cs:23-26 | a successful construction returns exactly the one sequence of the same length whose every entry is derived from the gene at the same index |
| `ParameterSpace.BuildAppend` | Jtc.Optimization.OnlineOptimizer/Optimizer.cs:23-26 | the mapping is gene by gene: building `a + b` is the concatenation of building `a` and building `b`, and fails when either fails |
| `ParameterSpace.BuiltTypes` | Jtc.Optimization.OnlineOptimizer/Optimizer.cs:25 | in a built space every transform is linear, and a specification is discrete exactly when its gene's precision is zero or negative |
| `Strategies.ParseOptimizerType` | Jtc.Optimization.OnlineOptimizer/Optimizer.cs:31-50 | a name is recognised only if it equals a strategy's name verbatim, and a null name is never recognised |
| `Strategies.ParseName` | Jtc.Optimization.OnlineOptimizer/Optimizer.cs:31-50 | every strategy's own name is recognised as that strategy, so the chain inverts the naming and no name is shadowed by an earlier branch |
| `Strategies.Construct` | Jtc.Optimization.OnlineOptimizer/Optimizer.cs:31-53 | each strategy builds its own algorithm over the given parameter space |
| `Strategies.Resolve` | Jtc.Optimization.OnlineOptimizer/Optimizer.cs:28-54 | a resolved strategy comes from a present fitness section whose name is exactly that strategy's name, and it is built over the given parameter space |
| `Strategies.ResolveNoneIff` | Jtc.Optimization.OnlineOptimizer/Optimizer.cs:28-54 | no strategy is resolved if and only if the fitness section is null or its name is none of the five names; there is no default |
| `Strategies.ResolveKnobs` | Jtc.Optimization.OnlineOptimizer/Optimizer.cs:31-53 | each recognised name yields its algorithm with its knob mapping: iterations from Generations (random search); max iterations from Generations and particles from PopulationSize (particle swarm); iterations from Generations and random starts and evaluations per iteration from PopulationSize (Bayesian); max restarts from Generations and iterations per restart from PopulationSize (Nelder-Mead); neither knob (grid search) |
| `Strategies.ResolvedSeededAndSequential` | Jtc.Optimization.OnlineOptimizer/Optimizer.cs:33-52 | every resolved strategy that takes a seed gets 42, and every parallelism knob passed turns parallel evaluation off (`runParallel` false, degree of parallelism 1) |
| `OnlineOptimizer.Normalize` | Jtc.Optimization.OnlineOptimizer/Optimizer.cs:62 | the parameter set passes through unchanged, and the cost is the negated error when maximising and the error otherwise |
| `OnlineOptimizer.CostInvolution` | Jtc.Optimization.OnlineOptimizer/Optimizer.cs:62 | applying the sign rule twice with the same goal returns the raw error |
| `OnlineOptimizer.MinimizingCostIsError` | Jtc.Optimization.OnlineOptimizer/Optimizer.cs:62 | when not maximising, the result is the algorithm's parameter set and its raw error |
| `OnlineOptimizer.CostOrder` | Jtc.Optimization.OnlineOptimizer/Optimizer.cs:62 | costs order results the same way as errors when minimising and the reverse way when maximising |
| `OnlineOptimizer.Optimizer.constructor` | Jtc.Optimization.OnlineOptimizer/Optimizer.cs:15 | a new optimizer is not maximising, and the flag is a constant, because the private property has no assignment and keeps its default |
| `OnlineOptimizer.Optimizer.Start` | Jtc.Optimization.OnlineOptimizer/Optimizer.cs:19-63 | a missing bound fails the run, and takes precedence over an unknown strategy; an unresolved strategy fails the run instead of falling back to a default; a failing algorithm run is propagated; otherwise the result is the normalised algorithm result, and with the field as written (not maximising) its cost is the raw error |

## Left out

- The search algorithms (random search, particle swarm, Bayesian, globalized bounded Nelder-Mead, grid search) and `OptimizeBest` are library code that is not part of this model. `Start` takes the run as a function parameter `run`, which returns a parameter vector and an error or `None` when the run raises.
- `Minimize`, the abstract objective a subclass supplies, has no behaviour here. It is folded into `run`.
- `Task.Run` and `await` are modelled as one sequential call that returns or fails. There is no cancellation in the source either.
- The `ActivityLogger` property is stored at the start of `Start` and never read in `Optimizer.cs`, so the model omits it. It is protected, so a subclass may read it; subclasses are not part of this model.
- Bounds are exact rationals (`real`). The conversion of decimals and integers to `double` is not modelled. The sign rule's negation is the only arithmetic on them.
- The gene, configuration, fitness and enumeration types are not part of this model. Precision is taken as an integer, and only the five enumeration members the driver compares are modelled. Any other member's name resolves to no strategy, as in the model.
- A null gene list, which would make `Select` throw, is not modelled. The gene list is a sequence.
- The Bayesian optimizer is built without a parallelism argument, so its parallelism is whatever the library defaults to. The model records no parallelism knob for it.
- The `IterationResult` fields other than `ParameterSet` and `Cost` are not set by `Start` and are not modelled.
- Determinism of repeated runs and the quality of the best result depend on the library's algorithms. They cannot be stated from this code.
- ParameterSpace.ToSpec: the checks the library's `MinMaxParameterSpec` constructor may make on its arguments (for example on a minimum that is not below its maximum) are not modelled, because that constructor is not part of this model; a gene with inverted or equal bounds yields a specification here.
- ParameterSpace.BuildParameterSpace: for the same reason, a gene list whose bounds the library constructor would reject still builds here, and `Start` can then succeed where the library would throw.
