/** The driver (Optimizer.cs, lines 12-67): builds the parameter space,
    resolves the strategy, runs it and reports the outcome with its cost
    normalised by the optimiser's goal. */
module OnlineOptimizer {
  import opened Wrappers
  import opened ParameterSpace
  import opened Strategies

  /** The run request; the fitness section may be null. */
  datatype OptimizerConfiguration = OptimizerConfiguration(
    genes: seq<Gene>,
    fitness: Option<FitnessConfiguration>,
    generations: int,
    populationSize: int)

  /** What an algorithm's best run returns: a parameter vector and its error. */
  datatype OptimizerResult = OptimizerResult(parameterSet: seq<real>, error: real)

  /** The result handed back to the caller. */
  datatype IterationResult = IterationResult(parameterSet: seq<real>, cost: real)

  /** The ways a call of `Start` ends without a result: `.Value` on a missing
      integer bound, a call on the null `optimizerMethod`, or an exception
      raised inside the algorithm's run, which the await passes on. */
  datatype StartError = MissingBound | StrategyNotFound | RunFailed

  /** The sign rule: the error negated when maximising, unchanged otherwise. */
  function Cost(isMaximizing: bool, error: real): (c: real)
  {
    if isMaximizing then error * -1.0 else error
  }

  /** The `IterationResult` built from an algorithm's result. */
  function Normalize(isMaximizing: bool, result: OptimizerResult): (r: IterationResult)
    ensures r.parameterSet == result.parameterSet
    ensures r.cost == (if isMaximizing then -result.error else result.error)
  {
    IterationResult(result.parameterSet, Cost(isMaximizing, result.error))
  }

  /** Normalising twice with the same goal gives back the raw error: the
      rule is its own inverse. */
  lemma CostInvolution(isMaximizing: bool, error: real)
    ensures Cost(isMaximizing, Cost(isMaximizing, error)) == error
  {
  }

  /** When minimising, the cost is the raw error unchanged. */
  lemma MinimizingCostIsError(result: OptimizerResult)
    ensures Normalize(false, result) == IterationResult(result.parameterSet, result.error)
  {
  }

  /** When maximising, the cost orders results in reverse of their errors,
      and when minimising in the same order. */
  lemma CostOrder(isMaximizing: bool, e1: real, e2: real)
    ensures e1 <= e2 <==>
            if isMaximizing then Cost(isMaximizing, e1) >= Cost(isMaximizing, e2)
            else Cost(isMaximizing, e1) <= Cost(isMaximizing, e2)
  {
  }

  /** The abstract base class of the source; subclasses supply the objective,
      which is folded here into the `run` parameter of `Start`. */
  class Optimizer {
    /** Private and never assigned anywhere, so it keeps its default. */
    const isMaximizing: bool

    constructor ()
      ensures !isMaximizing
    {
      isMaximizing := false;
    }

    /** One run. `run` stands for the chosen algorithm optimising the
        subclass's objective to completion: `None` when that run raises. The
        parameter space is built in full before the strategy is looked at,
        so a missing bound wins over an unknown strategy name. */
    method Start(config: OptimizerConfiguration, run: StrategyConfig -> Option<OptimizerResult>)
      returns (r: Result<IterationResult, StartError>)
      ensures r == Failure(MissingBound) <==> BuildParameterSpace(config.genes).None?
      ensures r == Failure(StrategyNotFound) <==>
              && BuildParameterSpace(config.genes).Some?
              && Resolve(config.fitness, BuildParameterSpace(config.genes).value,
                         config.generations, config.populationSize).None?
      ensures r.Success? ==>
              var space := BuildParameterSpace(config.genes);
              && space.Some?
              && var strategy := Resolve(config.fitness, space.value,
                                         config.generations, config.populationSize);
              && strategy.Some?
              && run(strategy.value).Some?
              && r.value == Normalize(isMaximizing, run(strategy.value).value)
      ensures r == Failure(RunFailed) ==>
              var space := BuildParameterSpace(config.genes);
              && space.Some?
              && var strategy := Resolve(config.fitness, space.value,
                                         config.generations, config.populationSize);
              && strategy.Some?
              && run(strategy.value).None?
      ensures r.Success? && !isMaximizing ==>
              var strategy := Resolve(config.fitness, BuildParameterSpace(config.genes).value,
                                      config.generations, config.populationSize);
              r.value.cost == run(strategy.value).value.error
    {
      var parameters := BuildParameterSpace(config.genes);
      if parameters.None? {
        return Failure(MissingBound);
      }
      var optimizerMethod := Resolve(config.fitness, parameters.value,
                                     config.generations, config.populationSize);
      if optimizerMethod.None? {
        return Failure(StrategyNotFound);
      }
      var result := run(optimizerMethod.value);
      if result.None? {
        return Failure(RunFailed);
      }
      r := Success(Normalize(isMaximizing, result.value));
    }
  }
}
