/**
 * Benchmarking a set of workflows over a dataset: every sample the loader
 * yields gets its own aggregate, built by the factory and run on all the
 * workflows; the aggregates are collected batch by batch in sample order.
 * The worker pool of the original is modelled by its ordered map.
 */
module Benchmarking {
  import opened Wrappers
  import opened Workflows
  import opened Dataset
  import opened Aggregation

  /** A sample is either a `(feature, ground truth)` pair or a value that cannot be unpacked. */
  datatype Sample<T, D, G> = Pair(feature: FlowInput<T, D>, groundTruth: G) | Plain(x: FlowInput<T, D>)

  /** The feature `run_sample` hands to the factory: the first half of a pair, else the sample itself. */
  function Feature<T, D, G>(sample: Sample<T, D, G>): FlowInput<T, D>
  {
    match sample
    case Pair(feature, _) => feature
    case Plain(x) => x
  }

  /** `multiprocess.Pool(processes=0)` refuses to start: a `ValueError`. */
  datatype PoolError = EmptyPool

  /**
   * `a` is what `run_sample` leaves behind for `sample`: an aggregate on the
   * sample's feature with the factory's hooks, holding one drained snapshot per
   * workflow in list order, every hook having been called once per run.
   */
  ghost predicate IsSampleRun<T, D, G, H, K>(a: AggregateFlows<T, D, H, K>, factory: DefaultAggregateFlowsFactory<K>,
                                             workflows: seq<Workflow<T, H>>, sample: Sample<T, D, G>, lenOf: T -> Option<nat>)
    reads a, set w | w in workflows
  {
    && a.input == InputOf(Feature(sample))
    && a.dependencies == DependenciesOf(Feature(sample))
    && a.workflows == workflows
    && a.hooks == factory.hooks
    && |a.results| == |workflows|
    && AllDrainedFreezes(a.results, workflows, a.input, lenOf)
    && |a.runs| == |workflows|
    && a.hookLog == HookCalls(a.runs, |a.hooks|)
  }

  /** Aggregate `k` is the run of sample `k`, for every sample. */
  ghost predicate AllSampleRuns<T, D, G, H, K>(aggs: seq<AggregateFlows<T, D, H, K>>, factory: DefaultAggregateFlowsFactory<K>,
                                               workflows: seq<Workflow<T, H>>, samples: seq<Sample<T, D, G>>, lenOf: T -> Option<nat>)
    reads (set a | a in aggs), (set w | w in workflows)
  {
    && |aggs| == |samples|
    && forall k :: 0 <= k < |aggs| ==> IsSampleRun(aggs[k], factory, workflows, samples[k], lenOf)
  }

  lemma AllSampleRunsConcat<T, D, G, H, K>(a1: seq<AggregateFlows<T, D, H, K>>, a2: seq<AggregateFlows<T, D, H, K>>,
                                           factory: DefaultAggregateFlowsFactory<K>, workflows: seq<Workflow<T, H>>,
                                           s1: seq<Sample<T, D, G>>, s2: seq<Sample<T, D, G>>, lenOf: T -> Option<nat>)
    requires AllSampleRuns(a1, factory, workflows, s1, lenOf)
    requires AllSampleRuns(a2, factory, workflows, s2, lenOf)
    ensures AllSampleRuns(a1 + a2, factory, workflows, s1 + s2, lenOf)
  {
    forall k | 0 <= k < |a1 + a2|
      ensures IsSampleRun((a1 + a2)[k], factory, workflows, (s1 + s2)[k], lenOf)
    {
      if k < |a1| {
        assert (a1 + a2)[k] == a1[k] && (s1 + s2)[k] == s1[k];
      } else {
        assert (a1 + a2)[k] == a2[k - |a1|] && (s1 + s2)[k] == s2[k - |a1|];
      }
    }
  }

  lemma AllSampleRunsSnoc<T, D, G, H, K>(aggs: seq<AggregateFlows<T, D, H, K>>, a: AggregateFlows<T, D, H, K>,
                                         factory: DefaultAggregateFlowsFactory<K>, workflows: seq<Workflow<T, H>>,
                                         samples: seq<Sample<T, D, G>>, sample: Sample<T, D, G>, lenOf: T -> Option<nat>)
    requires AllSampleRuns(aggs, factory, workflows, samples, lenOf)
    requires IsSampleRun(a, factory, workflows, sample, lenOf)
    ensures AllSampleRuns(aggs + [a], factory, workflows, samples + [sample], lenOf)
  {
    assert AllSampleRuns([a], factory, workflows, [sample], lenOf);
    AllSampleRunsConcat(aggs, [a], factory, workflows, samples, [sample], lenOf);
  }

  /** `run_sample`: build the sample's aggregate with the factory and run every workflow on it. */
  method RunSample<T, D, G, H, K>(factory: DefaultAggregateFlowsFactory<K>, workflows: seq<Workflow<T, H>>,
                                  sample: Sample<T, D, G>, lenOf: T -> Option<nat>)
    returns (aggregate: AggregateFlows<T, D, H, K>)
    ensures fresh(aggregate)
    ensures IsSampleRun(aggregate, factory, workflows, sample, lenOf)
  {
    var feature := Feature(sample);
    aggregate := GetAggregateFlows(factory, feature, workflows);
    aggregate.RunWorkflows(lenOf);
    assert aggregate.results[0..] == aggregate.results;
    assert aggregate.runs[0..] == aggregate.runs;
  }

  /** The callable handed to the pool: `run_sample` with the factory and the workflows bound. */
  class Run<T, D, G, H, K> {
    const factory: DefaultAggregateFlowsFactory<K>
    const workflows: seq<Workflow<T, H>>

    constructor (factory: DefaultAggregateFlowsFactory<K>, workflows: seq<Workflow<T, H>>)
      ensures this.factory == factory && this.workflows == workflows
    {
      this.factory := factory;
      this.workflows := workflows;
    }

    /** `__call__`: exactly `run_sample` on the bound factory and workflows. */
    method Call(sample: Sample<T, D, G>, lenOf: T -> Option<nat>) returns (aggregate: AggregateFlows<T, D, H, K>)
      ensures fresh(aggregate)
      ensures IsSampleRun(aggregate, factory, workflows, sample, lenOf)
    {
      aggregate := RunSample(factory, workflows, sample, lenOf);
    }
  }

  /** How many samples a loader yields before it stops or reaches the end of its dataset. */
  function SamplesReached(n: nat, totalYield: int): (r: nat)
    ensures r <= n
    ensures totalYield <= 0 ==> r == 0
    ensures 0 <= totalYield <= n ==> r == totalYield
    ensures totalYield >= n ==> r == n
  {
    Max(0, Min(totalYield, n))
  }

  /**
   * Where a cursor stops: either the yield total is reached, which cannot
   * exceed the dataset, or the cursor ran out of data short of it.
   */
  lemma StopCount(n: nat, ty: int, ci: nat, tyd: nat, stopped: bool)
    requires CursorOk(n, ty, ci, tyd)
    requires stopped ==> tyd >= ty
    requires !stopped ==> tyd == n < ty
    ensures stopped <==> ty <= n
    ensures tyd == SamplesReached(n, ty)
  {
  }

  /** `it` is a valid cursor over `dataloader`'s samples and settings. */
  ghost predicate IsCursorOf<S>(it: DataloaderIter<S>, dataloader: Dataloader<S>)
    reads it
  {
    && it.Valid()
    && it.dataset == dataloader.dataset && it.batchSize == dataloader.batchSize
    && it.limit == dataloader.limit && it.dropLastBatch == dataloader.dropLastBatch
  }

  class Benchmark<T, D, G, H, K> {
    const dataloader: Dataloader<Sample<T, D, G>>
    const workflows: seq<Workflow<T, H>>
    const factory: DefaultAggregateFlowsFactory<K>
    var results: seq<AggregateFlows<T, D, H, K>>

    /** `__init__`: no factory means the default factory with no hooks; no results yet. */
    constructor (dataloader: Dataloader<Sample<T, D, G>>, workflows: seq<Workflow<T, H>>,
                 flowsFactory: Option<DefaultAggregateFlowsFactory<K>>)
      ensures this.dataloader == dataloader && this.workflows == workflows
      ensures flowsFactory.None? ==> factory == DefaultAggregateFlowsFactory([])
      ensures flowsFactory.Some? ==> factory == flowsFactory.value
      ensures results == []
    {
      this.dataloader := dataloader;
      this.workflows := workflows;
      factory := if flowsFactory.None? then DefaultAggregateFlowsFactory([]) else flowsFactory.value;
      results := [];
    }

    /**
     * One sample through the pool's worker, its aggregate appended to `results`.
     * One iteration of `RunBatch`'s loop, kept as its own method so that each
     * proof about the heap stays small.
     */
    method Gather(worker: Run<T, D, G, H, K>, sample: Sample<T, D, G>, lenOf: T -> Option<nat>,
                  ghost base: seq<AggregateFlows<T, D, H, K>>, ghost done: seq<AggregateFlows<T, D, H, K>>,
                  ghost prior: seq<Sample<T, D, G>>)
      returns (ghost done': seq<AggregateFlows<T, D, H, K>>)
      requires worker.factory == factory && worker.workflows == workflows
      requires results == base + done
      requires AllSampleRuns(done, factory, workflows, prior, lenOf)
      modifies this
      ensures results == base + done'
      ensures AllSampleRuns(done', factory, workflows, prior + [sample], lenOf)
    {
      var result := worker.Call(sample, lenOf);
      AllSampleRunsSnoc(done, result, factory, workflows, prior, sample, lenOf);
      AppendAssoc(base, done, [result]);
      results := results + [result];
      done' := done + [result];
    }

    /** The pool's `map` over one batch, each result appended in sample order. */
    method RunBatch(batch: seq<Sample<T, D, G>>, lenOf: T -> Option<nat>) returns (ghost done: seq<AggregateFlows<T, D, H, K>>)
      modifies this
      ensures results == old(results) + done
      ensures AllSampleRuns(done, factory, workflows, batch, lenOf)
    {
      var worker := new Run(factory, workflows);
      done := [];
      for j := 0 to |batch|
        invariant results == old(results) + done
        invariant AllSampleRuns(done, factory, workflows, batch[..j], lenOf)
      {
        done := Gather(worker, batch[j], lenOf, old(results), done, batch[..j]);
        assert batch[..j + 1] == batch[..j] + [batch[j]];
      }
      assert batch[..|batch|] == batch;
    }

    /**
     * One batch's aggregates, appended after those of the samples before it.
     * One iteration of `RunBatches`' loop, split out for the same reason as `Gather`.
     */
    method Collect(batch: seq<Sample<T, D, G>>, lenOf: T -> Option<nat>, ghost base: seq<AggregateFlows<T, D, H, K>>,
                   ghost done: seq<AggregateFlows<T, D, H, K>>, ghost prior: seq<Sample<T, D, G>>)
      returns (ghost done': seq<AggregateFlows<T, D, H, K>>)
      requires results == base + done
      requires AllSampleRuns(done, factory, workflows, prior, lenOf)
      modifies this
      ensures results == base + done'
      ensures AllSampleRuns(done', factory, workflows, prior + batch, lenOf)
    {
      var added := RunBatch(batch, lenOf);
      AppendAssoc(base, done, added);
      AllSampleRunsConcat(done, added, factory, workflows, prior, batch, lenOf);
      done' := done + added;
    }

    /** The loop of `run_tests`, from a fresh cursor until it stops or an empty batch comes. */
    method RunBatches(it: DataloaderIter<Sample<T, D, G>>, lenOf: T -> Option<nat>)
      returns (outcome: Outcome<PoolError>, ghost done: seq<AggregateFlows<T, D, H, K>>)
      requires IsCursorOf(it, dataloader) && it.totalYielded == 0
      modifies this, it
      ensures IsCursorOf(it, dataloader) && |done| == it.totalYielded
      ensures outcome.Pass? ==> it.totalYielded >= it.totalYield
      ensures outcome.Fail? ==> it.totalYielded == it.size < it.totalYield
      ensures results == old(results) + done
      ensures AllSampleRuns(done, factory, workflows, dataloader.dataset[..it.totalYielded], lenOf)
    {
      done := [];
      while true
        invariant IsCursorOf(it, dataloader)
        invariant |done| == it.totalYielded
        invariant results == old(results) + done
        invariant AllSampleRuns(done, factory, workflows, it.dataset[..|done|], lenOf)
        decreases if it.totalYield > it.totalYielded then it.totalYield - it.totalYielded else 0
      {
        var batch := it.Next();
        if batch.None? {
          return Pass, done;
        }
        if batch.value == [] {
          return Fail(EmptyPool), done;
        }
        ghost var reached := it.dataset[..it.totalYielded];
        assert it.dataset[..|done|] + batch.value == reached;
        done := Collect(batch.value, lenOf, old(results), done, it.dataset[..|done|]);
      }
    }

    /**
     * `run_tests`: one pool per batch, in loader order. A loader asked for more
     * samples than its dataset holds ends with an empty batch, for which the
     * pool cannot be started.
     */
    method RunTests(lenOf: T -> Option<nat>) returns (outcome: Outcome<PoolError>)
      requires dataloader.batchSize >= 1
      modifies this
      ensures var ty := TotalYield(|dataloader.dataset|, dataloader.batchSize, dataloader.limit, dataloader.dropLastBatch);
        && (outcome.Pass? <==> ty <= |dataloader.dataset|)
        && |results| == |old(results)| + SamplesReached(|dataloader.dataset|, ty)
        && results[..|old(results)|] == old(results)
        && AllSampleRuns(results[|old(results)|..], factory, workflows,
                         dataloader.dataset[..SamplesReached(|dataloader.dataset|, ty)], lenOf)
    {
      var it := Iterate(dataloader);
      ghost var done;
      outcome, done := RunBatches(it, lenOf);
      StopCount(it.size, it.totalYield, it.currentIndex, it.totalYielded, outcome.Pass?);
      assert results[|old(results)|..] == done;
    }
  }
}
