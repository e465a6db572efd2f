/** The pooled variant of the search engine's population scoring: the population is split
    into chunks, each chunk is scored by a worker, and the workers' results are gathered
    back in chunk order. Which worker runs which chunk, and when, is not modelled; the
    chunk size is left free, since the pool picks it. */
module PooledGa {
  import opened GeneSpace

  /** One worker scoring its chunk, element by element. */
  function MapChunk<T, U>(f: T --> U, chunk: seq<T>): seq<U>
    requires forall i :: 0 <= i < |chunk| ==> f.requires(chunk[i])
  {
    seq(|chunk|, i requires 0 <= i < |chunk| => f(chunk[i]))
  }

  /** `pool.map`: score the chunks of `xs` and concatenate the results in chunk order.
      Whatever the chunk size, the i-th result is the score of the i-th input. */
  function PoolMap<T, U>(f: T --> U, xs: seq<T>, chunkSize: nat): (r: seq<U>)
    requires chunkSize > 0
    requires forall i :: 0 <= i < |xs| ==> f.requires(xs[i])
    ensures |r| == |xs|
    ensures forall i :: 0 <= i < |xs| ==> r[i] == f(xs[i])
    decreases |xs|
  {
    if |xs| <= chunkSize then MapChunk(f, xs)
    else MapChunk(f, xs[..chunkSize]) + PoolMap(f, xs[chunkSize..], chunkSize)
  }

  /** `fitness_wrapper`: the fitness callback applied to one solution with index 0. */
  function FitnessWrapper(fitnessFunc: (Gene, int) --> real): Gene --> real {
    (solution: Gene) requires fitnessFunc.requires(solution, 0) => fitnessFunc(solution, 0)
  }

  /** `cal_pop_fitness`: one fitness per member of the population, in population order;
      the i-th is the callback's value on the i-th solution with index 0. */
  function CalPopFitness(fitnessFunc: (Gene, int) --> real, population: seq<Gene>, chunkSize: nat)
    : (r: seq<real>)
    requires chunkSize > 0
    requires forall i :: 0 <= i < |population| ==> fitnessFunc.requires(population[i], 0)
    ensures |r| == |population|
    ensures forall i :: 0 <= i < |population| ==> r[i] == fitnessFunc(population[i], 0)
  {
    PoolMap(FitnessWrapper(fitnessFunc), population, chunkSize)
  }

  /** The chunk size the pool picks does not change the scores or their order. */
  lemma ChunkSizeIsInvisible(fitnessFunc: (Gene, int) --> real, population: seq<Gene>, c1: nat, c2: nat)
    requires c1 > 0 && c2 > 0
    requires forall i :: 0 <= i < |population| ==> fitnessFunc.requires(population[i], 0)
    ensures CalPopFitness(fitnessFunc, population, c1) == CalPopFitness(fitnessFunc, population, c2)
  {
  }
}
