/**
 * Running several workflows on one input. Each workflow's run is drained,
 * frozen and appended to `results`, and then every registered hook is called
 * with the drained run, in registration order. Hooks are opaque callbacks:
 * the model records each call in a ghost log of (hook index, run) pairs.
 */
module Aggregation {
  import opened Wrappers
  import opened Results
  import opened Workflows
  import opened Dataset

  /** The calls one round of hooks makes for `run`: hook 0 first. */
  ghost function HookRound<T, H>(run: WorkflowIter<T, H>, n: nat): seq<(nat, WorkflowIter<T, H>)>
  {
    seq(n, j requires 0 <= j < n => (j, run))
  }

  /** The calls hooks make over a sequence of runs, all of one run's calls before the next run's. */
  ghost function HookCalls<T, H>(runs: seq<WorkflowIter<T, H>>, n: nat): seq<(nat, WorkflowIter<T, H>)>
    decreases |runs|
  {
    if runs == [] then [] else HookCalls(runs[..|runs| - 1], n) + HookRound(runs[|runs| - 1], n)
  }

  lemma HookCallsSnoc<T, H>(runs: seq<WorkflowIter<T, H>>, run: WorkflowIter<T, H>, n: nat)
    ensures HookCalls(runs + [run], n) == HookCalls(runs, n) + HookRound(run, n)
  {
    assert (runs + [run])[..|runs|] == runs;
  }

  lemma AppendAssoc<X>(a: seq<X>, b: seq<X>, c: seq<X>)
    ensures (a + b) + c == a + (b + c)
  {
  }

  /** There are exactly `n` calls per run, and call `i * n + j` is hook `j` on run `i`. */
  lemma {:induction false} HookCallsLayout<T, H>(runs: seq<WorkflowIter<T, H>>, n: nat)
    ensures |HookCalls(runs, n)| == |runs| * n
    ensures forall i, j :: 0 <= i < |runs| && 0 <= j < n ==> HookCalls(runs, n)[i * n + j] == (j, runs[i])
    decreases |runs|
  {
    if runs != [] {
      var pre := runs[..|runs| - 1];
      HookCallsLayout(pre, n);
      var c := HookCalls(runs, n);
      assert |c| == |pre| * n + n;
      assert |runs| * n == |pre| * n + n;
      forall i, j | 0 <= i < |runs| && 0 <= j < n
        ensures c[i * n + j] == (j, runs[i])
      {
        if i < |pre| {
          MulBelow(i, j, n, |pre|);
          assert c[i * n + j] == HookCalls(pre, n)[i * n + j];
          assert pre[i] == runs[i];
        } else {
          assert i * n == |pre| * n;
        }
      }
    }
  }

  lemma MulBelow(i: nat, j: nat, n: nat, k: nat)
    requires i < k && j < n
    ensures i * n + j < k * n
  {
    assert k * n == (k - 1 - i) * n + i * n + n;
    MulNonNegative(k - 1 - i, n);
  }

  /**
   * The `for _ in wf_iter: pass` loop of `_run`: `__iter__`, then `__next__`
   * until StopIteration, with each step timed by an abstract clock that may
   * report any non-negative duration.
   */
  method DrainRun<T, H>(run: WorkflowIter<T, H>)
    requires run.Valid() && run.outputs == []
    modifies run
    ensures run.Valid() && run.base == 0
    ensures run.currentStep == |run.workflow.processes|
    ensures run.outputs == Outputs(run.workflow.processes, run.input)
  {
    run.Reset();
    var elapsed: real :| elapsed >= 0.0;
    var out := run.Next(elapsed);
    while out.Some?
      invariant run.Valid() && run.base == 0
      invariant out.None? ==> run.currentStep == |run.workflow.processes|
      decreases |run.workflow.processes| - run.currentStep, if out.Some? then 1 else 0
    {
      elapsed :| elapsed >= 0.0;
      out := run.Next(elapsed);
    }
    assert run.workflow.processes[..run.currentStep] == run.workflow.processes;
    assert run.outputs[0..] == run.outputs;
  }

  /** The aggregate over one input; `runs` and `hookLog` are ghost records of the calls made. */
  class AggregateFlows<T, D, H, K> {
    const input: T
    const dependencies: Option<seq<D>>
    const workflows: seq<Workflow<T, H>>
    var results: seq<Results<T>>
    var hooks: seq<K>
    ghost var runs: seq<WorkflowIter<T, H>>
    ghost var hookLog: seq<(nat, WorkflowIter<T, H>)>

    /** `__init__`: stores its arguments; no results and no hooks yet. */
    constructor (input: T, workflows: seq<Workflow<T, H>>, dependencies: Option<seq<D>>)
      ensures this.input == input && this.workflows == workflows && this.dependencies == dependencies
      ensures results == [] && hooks == [] && runs == [] && hookLog == []
    {
      this.input := input;
      this.dependencies := dependencies;
      this.workflows := workflows;
      results := [];
      hooks := [];
      runs := [];
      hookLog := [];
    }

    /** `add_hook`: one more hook at the end. */
    method AddHook(hook: K)
      modifies this
      ensures hooks == old(hooks) + [hook]
      ensures results == old(results) && runs == old(runs) && hookLog == old(hookLog)
    {
      hooks := hooks + [hook];
    }

    /** `add_hooks`: `add_hook` for each of `hs`, in order. */
    method AddHooks(hs: seq<K>)
      modifies this
      ensures hooks == old(hooks) + hs
      ensures results == old(results) && runs == old(runs) && hookLog == old(hookLog)
    {
      for i := 0 to |hs|
        invariant hooks == old(hooks) + hs[..i]
        invariant results == old(results) && runs == old(runs) && hookLog == old(hookLog)
      {
        AddHook(hs[i]);
        assert hs[..i + 1] == hs[..i] + [hs[i]];
      }
    }

    /** `_run_hook`: call hook number `index` with the run. */
    method RunHook(index: nat, run: WorkflowIter<T, H>)
      modifies this
      ensures hookLog == old(hookLog) + [(index, run)]
      ensures results == old(results) && hooks == old(hooks) && runs == old(runs)
    {
      hookLog := hookLog + [(index, run)];
    }

    /** `run_hooks`: every hook, in registration order, on the same run. */
    method RunHooks(run: WorkflowIter<T, H>)
      modifies this
      ensures hookLog == old(hookLog) + HookRound(run, |hooks|)
      ensures results == old(results) && hooks == old(hooks) && runs == old(runs)
    {
      for i := 0 to |hooks|
        invariant hookLog == old(hookLog) + HookRound(run, i)
        invariant results == old(results) && hooks == old(hooks) && runs == old(runs)
      {
        RunHook(i, run);
      }
    }

    /**
     * `_run`: drain a fresh run of `workflow` on the input, freeze it, append
     * the snapshot, then run the hooks on the drained run.
     */
    method Run(workflow: Workflow<T, H>, lenOf: T -> Option<nat>) returns (result: Results<T>)
      modifies this
      ensures IsDrainedFreeze(result, workflow.name, workflow.metadata, workflow.processes, input, lenOf)
      ensures results == old(results) + [result]
      ensures hooks == old(hooks)
      ensures |runs| == |old(runs)| + 1 && runs == old(runs) + [runs[|runs| - 1]]
      ensures IsFreezeOf(result, runs[|runs| - 1], lenOf)
      ensures fresh(runs[|runs| - 1]) && IsDrainedRun(runs[|runs| - 1], workflow, input)
      ensures hookLog == old(hookLog) + HookRound(runs[|runs| - 1], |hooks|)
    {
      var run := workflow.Call(input);
      DrainRun(run);
      assert run.outputs[0..] == run.outputs;
      result := run.Freeze(lenOf);
      assert IsDrainedFreeze(result, workflow.name, workflow.metadata, workflow.processes, input, lenOf);
      results := results + [result];
      runs := runs + [run];
      RunHooks(run);
    }

    /**
     * `_run` on workflow `i`, recorded after the runs of the workflows before it.
     * One loop iteration of `RunWorkflows`, kept as its own method so that each
     * proof about the heap stays small.
     */
    method RunStep(i: nat, lenOf: T -> Option<nat>, ghost results0: seq<Results<T>>, ghost runs0: seq<WorkflowIter<T, H>>,
                   ghost hookLog0: seq<(nat, WorkflowIter<T, H>)>, ghost done: seq<Results<T>>, ghost drained: seq<WorkflowIter<T, H>>)
      returns (ghost done': seq<Results<T>>, ghost drained': seq<WorkflowIter<T, H>>)
      requires i < |workflows| && |done| == i && |drained| == i
      requires results == results0 + done && AllDrainedFreezes(done, workflows, input, lenOf)
      requires runs == runs0 + drained && AllDrainedRuns(drained, workflows, input)
      requires hookLog == hookLog0 + HookCalls(drained, |hooks|)
      modifies this
      ensures hooks == old(hooks) && |done'| == i + 1 && |drained'| == i + 1
      ensures results == results0 + done' && AllDrainedFreezes(done', workflows, input, lenOf)
      ensures runs == runs0 + drained' && AllDrainedRuns(drained', workflows, input)
      ensures done' == done + [done'[i]] && drained' == drained + [drained'[i]]
      ensures IsFreezeOf(done'[i], drained'[i], lenOf)
      ensures hookLog == hookLog0 + HookCalls(drained', |hooks|)
    {
      var result := Run(workflows[i], lenOf);
      ghost var run := runs[|runs| - 1];
      DrainedFreezesSnoc(done, result, workflows, input, lenOf);
      DrainedRunsSnoc(drained, run, workflows, input);
      HookCallsSnoc(drained, run, |hooks|);
      AppendAssoc(results0, done, [result]);
      AppendAssoc(runs0, drained, [run]);
      AppendAssoc(hookLog0, HookCalls(drained, |hooks|), HookRound(run, |hooks|));
      done' := done + [result];
      drained' := drained + [run];
    }

    /**
     * `RunStep`, also keeping every snapshot tied to the run it was frozen from.
     * Split from `RunStep` for the same reason: the two frame proofs together are
     * too costly for one method.
     */
    method RunStepTied(i: nat, lenOf: T -> Option<nat>, ghost results0: seq<Results<T>>, ghost runs0: seq<WorkflowIter<T, H>>,
                       ghost hookLog0: seq<(nat, WorkflowIter<T, H>)>, ghost done: seq<Results<T>>, ghost drained: seq<WorkflowIter<T, H>>)
      returns (ghost done': seq<Results<T>>, ghost drained': seq<WorkflowIter<T, H>>)
      requires i < |workflows| && |done| == i && |drained| == i
      requires results == results0 + done && AllDrainedFreezes(done, workflows, input, lenOf)
      requires runs == runs0 + drained && AllDrainedRuns(drained, workflows, input)
      requires FrozenFrom(done, drained, workflows, lenOf)
      requires hookLog == hookLog0 + HookCalls(drained, |hooks|)
      modifies this
      ensures hooks == old(hooks) && |done'| == i + 1 && |drained'| == i + 1
      ensures results == results0 + done' && AllDrainedFreezes(done', workflows, input, lenOf)
      ensures runs == runs0 + drained' && AllDrainedRuns(drained', workflows, input)
      ensures FrozenFrom(done', drained', workflows, lenOf)
      ensures hookLog == hookLog0 + HookCalls(drained', |hooks|)
    {
      done', drained' := RunStep(i, lenOf, results0, runs0, hookLog0, done, drained);
      assert drained'[i].workflow == workflows[i];
      FrozenFromSnoc(done, drained, workflows, done'[i], drained'[i], lenOf);
    }

    /** `run_workflows`: `_run` for each workflow, in list order. */
    method RunWorkflows(lenOf: T -> Option<nat>)
      modifies this
      ensures hooks == old(hooks)
      ensures |results| == |old(results)| + |workflows| && results[..|old(results)|] == old(results)
      ensures AllDrainedFreezes(results[|old(results)|..], workflows, input, lenOf)
      ensures |runs| == |old(runs)| + |workflows| && runs[..|old(runs)|] == old(runs)
      ensures AllDrainedRuns(runs[|old(runs)|..], workflows, input)
      ensures FrozenFrom(results[|old(results)|..], runs[|old(runs)|..], workflows, lenOf)
      ensures hookLog == old(hookLog) + HookCalls(runs[|old(runs)|..], |hooks|)
    {
      ghost var done: seq<Results<T>> := [];
      ghost var drained: seq<WorkflowIter<T, H>> := [];
      for i := 0 to |workflows|
        invariant hooks == old(hooks)
        invariant results == old(results) + done && |done| == i
        invariant AllDrainedFreezes(done, workflows, input, lenOf)
        invariant runs == old(runs) + drained && |drained| == i
        invariant AllDrainedRuns(drained, workflows, input)
        invariant FrozenFrom(done, drained, workflows, lenOf)
        invariant hookLog == old(hookLog) + HookCalls(drained, |hooks|)
      {
        done, drained := RunStepTied(i, lenOf, old(results), old(runs), old(hookLog), done, drained);
      }
      assert results[|old(results)|..] == done;
      assert runs[|old(runs)|..] == drained;
    }
  }

  /** Snapshot `k` is the drained freeze of workflow `k`, for each snapshot. */
  ghost predicate AllDrainedFreezes<T, H>(done: seq<Results<T>>, wfs: seq<Workflow<T, H>>, input: T, lenOf: T -> Option<nat>)
    reads set w | w in wfs
  {
    && |done| <= |wfs|
    && forall k :: 0 <= k < |done| ==>
         IsDrainedFreeze(done[k], wfs[k].name, wfs[k].metadata, wfs[k].processes, input, lenOf)
  }

  lemma DrainedFreezesSnoc<T, H>(done: seq<Results<T>>, result: Results<T>, wfs: seq<Workflow<T, H>>, input: T, lenOf: T -> Option<nat>)
    requires AllDrainedFreezes(done, wfs, input, lenOf) && |done| < |wfs|
    requires IsDrainedFreeze(result, wfs[|done|].name, wfs[|done|].metadata, wfs[|done|].processes, input, lenOf)
    ensures AllDrainedFreezes(done + [result], wfs, input, lenOf)
  {
    forall k | 0 <= k < |done| + 1
      ensures IsDrainedFreeze((done + [result])[k], wfs[k].name, wfs[k].metadata, wfs[k].processes, input, lenOf)
    {
      if k < |done| {
        assert (done + [result])[k] == done[k];
      }
    }
  }

  /** Run `k` is a drained run of workflow `k`, for each run. */
  ghost predicate AllDrainedRuns<T, H>(drained: seq<WorkflowIter<T, H>>, wfs: seq<Workflow<T, H>>, input: T)
    reads (set w | w in wfs), (set r | r in drained)
  {
    && |drained| <= |wfs|
    && forall k :: 0 <= k < |drained| ==> IsDrainedRun(drained[k], wfs[k], input)
  }

  lemma DrainedRunsSnoc<T, H>(drained: seq<WorkflowIter<T, H>>, run: WorkflowIter<T, H>, wfs: seq<Workflow<T, H>>, input: T)
    requires AllDrainedRuns(drained, wfs, input) && |drained| < |wfs|
    requires IsDrainedRun(run, wfs[|drained|], input)
    ensures AllDrainedRuns(drained + [run], wfs, input)
  {
    forall k | 0 <= k < |drained| + 1
      ensures IsDrainedRun((drained + [run])[k], wfs[k], input)
    {
      if k < |drained| {
        assert (drained + [run])[k] == drained[k];
      }
    }
  }

  /** Snapshot `k` is the freeze of run `k`, a run of workflow `k`: the record holds that run's own durations. */
  ghost predicate FrozenFrom<T, H>(done: seq<Results<T>>, drained: seq<WorkflowIter<T, H>>, wfs: seq<Workflow<T, H>>, lenOf: T -> Option<nat>)
    reads (set w | w in wfs), (set r | r in drained)
  {
    && |done| == |drained| <= |wfs|
    && forall k :: 0 <= k < |done| ==> drained[k].workflow == wfs[k] && IsFreezeOf(done[k], drained[k], lenOf)
  }

  /** `result` is what freezing `run` gives. */
  ghost predicate IsFreezeOf<T, H>(result: Results<T>, run: WorkflowIter<T, H>, lenOf: T -> Option<nat>)
    reads run, run.workflow
  {
    result == run.Freeze(lenOf)
  }

  lemma FrozenFromSnoc<T, H>(done: seq<Results<T>>, drained: seq<WorkflowIter<T, H>>, wfs: seq<Workflow<T, H>>,
                             result: Results<T>, run: WorkflowIter<T, H>, lenOf: T -> Option<nat>)
    requires FrozenFrom(done, drained, wfs, lenOf) && |done| < |wfs|
    requires run.workflow == wfs[|done|] && IsFreezeOf(result, run, lenOf)
    ensures FrozenFrom(done + [result], drained + [run], wfs, lenOf)
  {
    forall k | 0 <= k < |done| + 1
      ensures (drained + [run])[k].workflow == wfs[k] && IsFreezeOf((done + [result])[k], (drained + [run])[k], lenOf)
    {
      if k < |done| {
        assert (done + [result])[k] == done[k] && (drained + [run])[k] == drained[k];
      }
    }
  }

  /** A run that has executed every step of `wf` on `input` since it was created. */
  ghost predicate IsDrainedRun<T, H>(run: WorkflowIter<T, H>, wf: Workflow<T, H>, input: T)
    reads run, wf
  {
    && run.workflow == wf
    && run.input == input
    && run.currentStep == |wf.processes|
    && run.outputs == Outputs(wf.processes, input)
  }

  /** The shape of the factory's input: an `InputWithDeps` or any other value. */
  datatype FlowInput<T, D> = WithDeps(wrapped: InputWithDeps<T, D>) | Bare(value: T)

  /** The input the aggregate is built on. */
  function InputOf<T, D>(x: FlowInput<T, D>): T
  {
    match x
    case WithDeps(w) => w.input
    case Bare(v) => v
  }

  /** The dependencies the aggregate is built with. */
  function DependenciesOf<T, D>(x: FlowInput<T, D>): Option<seq<D>>
  {
    match x
    case WithDeps(w) => Some(w.dependencies)
    case Bare(_) => None
  }

  /** The default factory, holding the hooks every aggregate it builds gets. */
  datatype DefaultAggregateFlowsFactory<K> = DefaultAggregateFlowsFactory(hooks: seq<K>)

  /**
   * `get_aggregate_flows`: an `InputWithDeps` is split into its input and its
   * dependencies, any other value is the input itself with no dependencies;
   * the aggregate then gets the factory's hooks in order.
   */
  method GetAggregateFlows<T, D, H, K>(factory: DefaultAggregateFlowsFactory<K>, x: FlowInput<T, D>, workflows: seq<Workflow<T, H>>)
    returns (aggr: AggregateFlows<T, D, H, K>)
    ensures fresh(aggr)
    ensures x.WithDeps? ==> aggr.input == x.wrapped.input && aggr.dependencies == Some(x.wrapped.dependencies)
    ensures x.Bare? ==> aggr.input == x.value && aggr.dependencies == None
    ensures aggr.workflows == workflows && aggr.hooks == factory.hooks
    ensures aggr.results == [] && aggr.runs == [] && aggr.hookLog == []
  {
    if x.WithDeps? {
      aggr := new AggregateFlows(x.wrapped.input, workflows, Some(x.wrapped.dependencies));
    } else {
      aggr := new AggregateFlows(x.value, workflows, None);
    }
    aggr.AddHooks(factory.hooks);
  }
}
