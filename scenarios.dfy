/**
 * Worked examples: the repository's own usage scenarios, replayed on the
 * model with concrete workflows, datasets and boxes.
 */
module Scenarios {
  import opened Wrappers
  import opened Workflows
  import opened Dataset
  import opened Aggregation
  import opened Benchmarking
  import opened Processes
  import opened Debugging

  function Increment(): Process<int>
  {
    Process("<lambda>", x => x + 1)
  }

  function Double(): Process<int>
  {
    Process("<lambda>", x => x * 2)
  }

  function Identity(): Process<int>
  {
    Process("<lambda>", x => x)
  }

  /** A workflow with one step, built with `add`. */
  method OneStepWorkflow(name: string, step: Process<int>) returns (wf: Workflow<int, ()>)
    ensures fresh(wf) && wf.Valid()
    ensures wf.name == name && wf.metadata == [] && wf.processes == [step]
  {
    wf := new Workflow(name, [], []);
    var _ := wf.Add(step, ());
  }

  /** Two identity steps record the input twice. */
  lemma IdentityOutputs()
    ensures Outputs([Identity(), Identity()], 1) == [1, 1]
  {
    assert Apply([Identity()][..0], 1) == 1;
    assert Apply([Identity(), Identity()][..1], 1) == 1;
  }

  /** Two identity steps: two steps, and both outputs equal the input. */
  method TwoIdentitySteps() returns (nsteps: nat, outputs: seq<int>, final: Option<int>)
    ensures nsteps == 2 && outputs == [1, 1] && final == Some(1)
  {
    var wf := new Workflow<int, ()>("test_wf_1", [], []);
    var _ := wf.Add(Identity(), ());
    var _ := wf.Add(Identity(), ());
    nsteps := wf.NSteps();
    var run := wf.Call(1);
    DrainRun(run);
    IdentityOutputs();
    outputs := run.outputs;
    final := run.FinalOutput();
  }

  /** Two one-step workflows over the input 2: the outputs are 3 and 4, in workflow order. */
  method AggregateTwoWorkflows() returns (count: nat, outputs: seq<int>)
    ensures count == 2 && outputs == [3, 4]
  {
    var wf1 := OneStepWorkflow("test_wf_1", Increment());
    var wf2 := OneStepWorkflow("test_wf_2", Double());
    var flows := new AggregateFlows<int, (), (), ()>(2, [wf1, wf2], None);
    flows.RunWorkflows(x => None);
    assert flows.results[0..] == flows.results;
    assert Apply([Increment()], 2) == 3;
    assert Apply([Double()], 2) == 4;
    count := |flows.results|;
    outputs := [flows.results[0].output, flows.results[1].output];
  }

  /** The aggregate of sample `x` over the increment and double workflows holds `x + 1` and `2 * x`. */
  lemma SampleOutputs<K>(a: AggregateFlows<int, (), (), K>, factory: DefaultAggregateFlowsFactory<K>,
                         wf1: Workflow<int, ()>, wf2: Workflow<int, ()>, x: int, lenOf: int -> Option<nat>)
    requires wf1.processes == [Increment()] && wf2.processes == [Double()]
    requires IsSampleRun<int, (), (), (), K>(a, factory, [wf1, wf2], Plain(Bare(x)), lenOf)
    ensures |a.results| == 2 && a.results[0].output == x + 1 && a.results[1].output == 2 * x
  {
    assert IsDrainedFreeze(a.results[0], wf1.name, wf1.metadata, wf1.processes, x, lenOf);
    assert IsDrainedFreeze(a.results[1], wf2.name, wf2.metadata, wf2.processes, x, lenOf);
    assert [Increment()][..0] == [] && [Double()][..0] == [];
  }

  /** The aggregates of samples 1 to 4 hold `x + 1` and `2 * x` for their sample `x`. */
  lemma FourSampleOutputs<K>(rs: seq<AggregateFlows<int, (), (), K>>, factory: DefaultAggregateFlowsFactory<K>,
                             wf1: Workflow<int, ()>, wf2: Workflow<int, ()>, samples: seq<Sample<int, (), ()>>,
                             lenOf: int -> Option<nat>)
    requires wf1.processes == [Increment()] && wf2.processes == [Double()]
    requires samples == [Plain(Bare(1)), Plain(Bare(2)), Plain(Bare(3)), Plain(Bare(4))]
    requires AllSampleRuns(rs, factory, [wf1, wf2], samples, lenOf)
    ensures |rs| == 4
    ensures (rs[0].results[0].output, rs[0].results[1].output) == (2, 2)
    ensures (rs[1].results[0].output, rs[1].results[1].output) == (3, 4)
    ensures (rs[2].results[0].output, rs[2].results[1].output) == (4, 6)
    ensures (rs[3].results[0].output, rs[3].results[1].output) == (5, 8)
  {
    SampleOutputs(rs[0], factory, wf1, wf2, 1, lenOf);
    SampleOutputs(rs[1], factory, wf1, wf2, 2, lenOf);
    SampleOutputs(rs[2], factory, wf1, wf2, 3, lenOf);
    SampleOutputs(rs[3], factory, wf1, wf2, 4, lenOf);
  }

  /** Samples 1 to 5 in batches of 2 with the last batch dropped: four aggregates, each holding
      `x + 1` and `x * 2` for its sample `x`. */
  method BenchmarkFourSamples() returns (outcome: Outcome<PoolError>, count: nat, outputs: seq<(int, int)>)
    ensures outcome == Pass && count == 4
    ensures outputs == [(2, 2), (3, 4), (4, 6), (5, 8)]
  {
    var wf1 := OneStepWorkflow("test_wf_1", Increment());
    var wf2 := OneStepWorkflow("test_wf_2", Double());
    var samples: seq<Sample<int, (), ()>> := [Plain(Bare(1)), Plain(Bare(2)), Plain(Bare(3)), Plain(Bare(4)), Plain(Bare(5))];
    var loader := Dataloader(samples, 2, None, true);
    var bench := new Benchmark<int, (), (), (), ()>(loader, [wf1, wf2], None);
    assert TotalYield(5, 2, None, true) == 4;
    outcome := bench.RunTests(x => None);
    count := |bench.results|;
    assert bench.results[0..] == bench.results;
    var rs := bench.results;
    FourSampleOutputs(rs, bench.factory, wf1, wf2, samples[..4], x => None);
    outputs := [(rs[0].results[0].output, rs[0].results[1].output), (rs[1].results[0].output, rs[1].results[1].output),
                (rs[2].results[0].output, rs[2].results[1].output), (rs[3].results[0].output, rs[3].results[1].output)];
  }

  /** An empty dataset with limit 1 keeps handing out empty batches: the limit is never reached. */
  method EmptyDatasetWithLimit() returns (first: Option<seq<int>>, second: Option<seq<int>>)
    ensures first == Some([]) && second == Some([])
  {
    var it := Iterate(Dataloader([], 1, Some(1), false));
    first := it.Next();
    second := it.Next();
  }

  /** Five samples in batches of two: `[1, 2]`, `[3, 4]`, `[5]`, then StopIteration. */
  method FiveInBatchesOfTwo() returns (b1: Option<seq<int>>, b2: Option<seq<int>>, b3: Option<seq<int>>, b4: Option<seq<int>>)
    ensures b1 == Some([1, 2]) && b2 == Some([3, 4]) && b3 == Some([5]) && b4 == None
  {
    var ds := [1, 2, 3, 4, 5];
    var it := Iterate(Dataloader(ds, 2, None, false));
    assert it.totalYield == 5;
    assert Slice(ds, 0, 2) == [1, 2] && Slice(ds, 2, 4) == [3, 4] && Slice(ds, 4, 6) == [5];
    b1 := it.Next();
    b2 := it.Next();
    b3 := it.Next();
    b4 := it.Next();
  }

  /** Limits against a batch size of three: limit 3 gives one full batch, limit 2 cuts the first
      batch short, limit 4 gives a full batch and then one more sample. */
  method LimitsAgainstBatchSize() returns (equal: seq<Option<seq<int>>>, below: seq<Option<seq<int>>>, above: seq<Option<seq<int>>>)
    ensures equal == [Some([1, 2, 3]), None]
    ensures below == [Some([1, 2]), None]
    ensures above == [Some([1, 2, 3]), Some([4]), None]
  {
    var ds := [1, 2, 3, 4, 5];
    assert Slice(ds, 0, 3) == [1, 2, 3] && Slice(ds, 3, 6) == [4, 5];
    assert [1, 2, 3][..2] == [1, 2] && [4, 5][..1] == [4];
    var it := Iterate(Dataloader(ds, 3, Some(3), false));
    var x := it.Next();
    var y := it.Next();
    equal := [x, y];
    it := Iterate(Dataloader(ds, 3, Some(2), false));
    x := it.Next();
    y := it.Next();
    below := [x, y];
    it := Iterate(Dataloader(ds, 3, Some(4), false));
    x := it.Next();
    y := it.Next();
    var z := it.Next();
    above := [x, y, z];
  }

  /** Circle conversions: nothing gives nothing, and the zero circle gives the zero box. */
  lemma CircleExamples()
    ensures CirclesToBboxes([]) == []
    ensures CirclesToBboxes([(0, 0, 0)]) == [(0, 0, 0, 0)]
    ensures CirclesToBboxes([(0, 0, 0), (0, 0, 0)]) == [(0, 0, 0, 0), (0, 0, 0, 0)]
  {
  }

  /** The zero box fits a 100 × 100 frame; `(50, 50, 100, 100)` sticks out of a 50 × 50 one. */
  method OutOfBoundExamples() returns (quiet: seq<BBox>, loud: seq<BBox>, passed: seq<BBox>)
    ensures quiet == [] && loud == [(50, 50, 100, 100)] && passed == [(50, 50, 100, 100)]
  {
    var r1, log1 := CheckBboxOutOfBound(100, 100, [(0, 0, 0, 0)]);
    quiet := log1;
    var r2, log2 := CheckBboxOutOfBound(50, 50, [(50, 50, 100, 100)]);
    loud := log2;
    passed := r2;
    OutOfBoundLogSingle(100, 100, (0, 0, 0, 0));
    OutOfBoundLogSingle(50, 50, (50, 50, 100, 100));
  }
}
