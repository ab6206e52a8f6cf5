/** Strategy resolution (Optimizer.cs, lines 28-54): the fitness section of
    the configuration names a search algorithm by the text of one of five
    enumeration members, and the name picks the algorithm together with the
    tuning knobs it is built with. */
module Strategies {
  import opened Wrappers
  import opened ParameterSpace

  /** The five members of the strategy enumeration the driver compares. */
  datatype OptimizerTypeOption =
    | RandomSearch
    | ParticleSwarm
    | Bayesian
    | GlobalizedBoundedNelderMead
    | GridSearch

  /** The enumeration member's `ToString()`: its own identifier. */
  function Name(k: OptimizerTypeOption): (name: string)
  {
    match k
    case RandomSearch => "RandomSearch"
    case ParticleSwarm => "ParticleSwarm"
    case Bayesian => "Bayesian"
    case GlobalizedBoundedNelderMead => "GlobalizedBoundedNelderMead"
    case GridSearch => "GridSearch"
  }

  /** The seed every seeded strategy is built with. */
  const FixedSeed: int := 42

  /** A constructed algorithm: which one, the parameter space it closes over
      and the knobs passed to its constructor. Knobs the driver does not pass
      are not recorded. */
  datatype StrategyConfig =
    | RandomSearchOptimizer(parameters: seq<ParameterSpec>, iterations: int,
                            seed: int, runParallel: bool)
    | ParticleSwarmOptimizer(parameters: seq<ParameterSpec>, maxIterations: int,
                             numberOfParticles: int, seed: int, maxDegreeOfParallelism: int)
    | BayesianOptimizer(parameters: seq<ParameterSpec>, iterations: int,
                        randomStartingPointCount: int,
                        functionEvaluationsPerIterationCount: int, seed: int)
    | GlobalizedBoundedNelderMeadOptimizer(parameters: seq<ParameterSpec>, maxRestarts: int,
                                           maxIterationsPrRestart: int, seed: int,
                                           maxDegreeOfParallelism: int)
    | GridSearchOptimizer(parameters: seq<ParameterSpec>, runParallel: bool)

  /** The fitness section of the configuration; the name may be null. */
  datatype FitnessConfiguration = FitnessConfiguration(optimizerTypeName: Option<string>)

  /** The algorithm a constructed strategy is an instance of. */
  function KindOf(c: StrategyConfig): (k: OptimizerTypeOption)
  {
    match c
    case RandomSearchOptimizer(_, _, _, _) => RandomSearch
    case ParticleSwarmOptimizer(_, _, _, _, _) => ParticleSwarm
    case BayesianOptimizer(_, _, _, _, _) => Bayesian
    case GlobalizedBoundedNelderMeadOptimizer(_, _, _, _, _) => GlobalizedBoundedNelderMead
    case GridSearchOptimizer(_, _) => GridSearch
  }

  /** The `if`/`else if` chain of string comparisons: exact, case-sensitive
      equality with one of the five names, tried in the source's order; a
      null name equals none of them. */
  function ParseOptimizerType(name: Option<string>): (r: Option<OptimizerTypeOption>)
    ensures r.Some? ==> name == Some(Name(r.value))
  {
    if name.None? then None
    else if name.value == Name(RandomSearch) then Some(RandomSearch)
    else if name.value == Name(ParticleSwarm) then Some(ParticleSwarm)
    else if name.value == Name(Bayesian) then Some(Bayesian)
    else if name.value == Name(GlobalizedBoundedNelderMead) then Some(GlobalizedBoundedNelderMead)
    else if name.value == Name(GridSearch) then Some(GridSearch)
    else None
  }

  /** Every member's name is recognised as that member: the comparison chain
      inverts `Name`, so no two members share a name. */
  lemma ParseName(k: OptimizerTypeOption)
    ensures ParseOptimizerType(Some(Name(k))) == Some(k)
  {
  }

  /** The strategy table: the constructor and knobs each name selects. */
  function Construct(k: OptimizerTypeOption, parameters: seq<ParameterSpec>,
                     generations: int, populationSize: int): (c: StrategyConfig)
    ensures KindOf(c) == k && c.parameters == parameters
  {
    match k
    case RandomSearch =>
      RandomSearchOptimizer(parameters, generations, FixedSeed, false)
    case ParticleSwarm =>
      ParticleSwarmOptimizer(parameters, generations, populationSize, FixedSeed, 1)
    case Bayesian =>
      BayesianOptimizer(parameters, generations, populationSize, populationSize, FixedSeed)
    case GlobalizedBoundedNelderMead =>
      GlobalizedBoundedNelderMeadOptimizer(parameters, generations, populationSize, FixedSeed, 1)
    case GridSearch =>
      GridSearchOptimizer(parameters, false)
  }

  /** The value of the local `optimizerMethod` after the chain: no strategy
      when the fitness section is null or its name is not recognised. */
  function Resolve(fitness: Option<FitnessConfiguration>, parameters: seq<ParameterSpec>,
                   generations: int, populationSize: int): (r: Option<StrategyConfig>)
    ensures r.Some? ==> fitness.Some? && fitness.value.optimizerTypeName == Some(Name(KindOf(r.value)))
    ensures r.Some? ==> r.value.parameters == parameters
  {
    if fitness.None? then None
    else
      match ParseOptimizerType(fitness.value.optimizerTypeName)
      case None => None
      case Some(k) => Some(Construct(k, parameters, generations, populationSize))
  }

  /** There is no default strategy: resolution fails exactly when the fitness
      section is missing or its name is not one of the five names verbatim. */
  lemma ResolveNoneIff(fitness: Option<FitnessConfiguration>, parameters: seq<ParameterSpec>,
                       generations: int, populationSize: int)
    ensures Resolve(fitness, parameters, generations, populationSize).None? <==>
            fitness.None? || forall k :: fitness.value.optimizerTypeName != Some(Name(k))
  {
  }

  /** Each recognised name yields its algorithm, built over the given
      parameter space with its fixed knob mapping. */
  lemma ResolveKnobs(k: OptimizerTypeOption, parameters: seq<ParameterSpec>,
                     generations: int, populationSize: int)
    ensures var r := Resolve(Some(FitnessConfiguration(Some(Name(k)))), parameters,
                             generations, populationSize);
            && r.Some? && KindOf(r.value) == k && r.value.parameters == parameters
            && match r.value
               case RandomSearchOptimizer(_, iterations, _, _) =>
                 iterations == generations
               case ParticleSwarmOptimizer(_, maxIterations, numberOfParticles, _, _) =>
                 maxIterations == generations && numberOfParticles == populationSize
               case BayesianOptimizer(_, iterations, randomStarts, evaluationsPerIteration, _) =>
                 iterations == generations && randomStarts == populationSize
                 && evaluationsPerIteration == populationSize
               case GlobalizedBoundedNelderMeadOptimizer(_, maxRestarts, iterationsPerRestart, _, _) =>
                 maxRestarts == generations && iterationsPerRestart == populationSize
               case GridSearchOptimizer(_, _) =>
                 true
  {
  }

  /** Whatever the configuration, a resolved strategy is seeded with 42 when
      it takes a seed at all (every algorithm but grid search), and every
      parallelism knob the driver passes turns parallel evaluation off. */
  lemma ResolvedSeededAndSequential(fitness: Option<FitnessConfiguration>,
                                    parameters: seq<ParameterSpec>,
                                    generations: int, populationSize: int)
    requires Resolve(fitness, parameters, generations, populationSize).Some?
    ensures var c := Resolve(fitness, parameters, generations, populationSize).value;
            && (!c.GridSearchOptimizer? ==> c.seed == 42)
            && (c.RandomSearchOptimizer? || c.GridSearchOptimizer? ==> !c.runParallel)
            && (c.ParticleSwarmOptimizer? || c.GlobalizedBoundedNelderMeadOptimizer? ==>
                  c.maxDegreeOfParallelism == 1)
  {
  }
}
