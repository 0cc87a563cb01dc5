/**
 * The step engine: a workflow is a builder holding two parallel lists
 * (step functions and their output handlers); calling it on an input makes a
 * run, a small state machine that executes one step per `__next__`, records
 * every output and every step duration, and can be frozen into a `Results`
 * record at any point.
 */
module Workflows {
  import opened Wrappers
  import opened Results

  /** A step function together with the `__name__` it is reported under. */
  datatype Process<!T> = Process(name: string, fn: T -> T)

  /** The value obtained by running `procs` in order on `x`. */
  function Apply<T>(procs: seq<Process<T>>, x: T): T
    decreases |procs|
  {
    if procs == [] then x else procs[|procs| - 1].fn(Apply(procs[..|procs| - 1], x))
  }

  /** Running `p` and then `q` is running the workflow `p + q`. */
  lemma {:induction false} ApplyConcat<T>(p: seq<Process<T>>, q: seq<Process<T>>, x: T)
    ensures Apply(p + q, x) == Apply(q, Apply(p, x))
    decreases |q|
  {
    if q == [] {
      assert p + q == p;
    } else {
      var q' := q[..|q| - 1];
      ApplyConcat(p, q', x);
      assert (p + q)[..|p + q| - 1] == p + q';
    }
  }

  /** Read from the front: the first step is applied to the input first. */
  lemma ApplyFirstStep<T>(procs: seq<Process<T>>, x: T)
    requires procs != []
    ensures Apply(procs, x) == Apply(procs[1..], procs[0].fn(x))
  {
    ApplyConcat(procs[..1], procs[1..], x);
    assert procs[..1] + procs[1..] == procs;
    assert procs[..1][..0] == [];
  }

  lemma PrefixOfPrefix<S>(s: seq<S>, k: nat)
    requires k <= |s|
    ensures forall i :: 0 <= i <= k ==> s[..k][..i] == s[..i]
  {
  }

  /** The output recorded after each step of `procs`, in step order. */
  function Outputs<T>(procs: seq<Process<T>>, x: T): (r: seq<T>)
    ensures |r| == |procs|
    ensures forall i :: 0 <= i < |procs| ==> r[i] == Apply(procs[..i + 1], x)
    decreases |procs|
  {
    if procs == [] then []
    else
      var pre := procs[..|procs| - 1];
      PrefixOfPrefix(procs, |procs| - 1);
      assert procs[..|procs|] == procs;
      Outputs(pre, x) + [Apply(procs, x)]
  }

  /** One more step: its output is appended, and it is the step applied to the previous output. */
  lemma OutputsStep<T>(procs: seq<Process<T>>, k: nat, x: T)
    requires k < |procs|
    ensures Apply(procs[..k + 1], x) == procs[k].fn(Apply(procs[..k], x))
    ensures Outputs(procs[..k + 1], x) == Outputs(procs[..k], x) + [Apply(procs[..k + 1], x)]
  {
    assert procs[..k + 1][..k] == procs[..k];
  }

  /** Python's `sum` of a list of durations. */
  function Sum(ds: seq<real>): real
    decreases |ds|
  {
    if ds == [] then 0.0 else Sum(ds[..|ds| - 1]) + ds[|ds| - 1]
  }

  lemma {:induction false} SumNonNegative(ds: seq<real>)
    ensures (forall i :: 0 <= i < |ds| ==> ds[i] >= 0.0) ==> Sum(ds) >= 0.0
    decreases |ds|
  {
    if ds != [] {
      SumNonNegative(ds[..|ds| - 1]);
    }
  }

  /** The timing recap: `zip(processes, durations)`, as long as the shorter list. */
  function StepsRecap<T>(procs: seq<Process<T>>, durs: seq<real>): seq<Step>
  {
    seq(Min(|procs|, |durs|), i requires 0 <= i < Min(|procs|, |durs|) => Step(procs[i].name, durs[i]))
  }

  /** The sum of the durations a recap lists. */
  function RecapTotal(recap: seq<Step>): real
    decreases |recap|
  {
    if recap == [] then 0.0 else RecapTotal(recap[..|recap| - 1]) + recap[|recap| - 1].duration
  }

  /** When no duration lacks a step, the recap accounts for the whole total duration. */
  lemma {:induction false} RecapTotalIsSum<T>(procs: seq<Process<T>>, durs: seq<real>)
    ensures |durs| <= |procs| ==> RecapTotal(StepsRecap(procs, durs)) == Sum(durs)
    decreases |durs|
  {
    if durs != [] && |durs| <= |procs| {
      var pre := durs[..|durs| - 1];
      RecapTotalIsSum(procs, pre);
      var r := StepsRecap(procs, durs);
      assert r[..|r| - 1] == StepsRecap(procs, pre);
    }
  }

  /** The text one metadata entry contributes to the display name. */
  function Entry(key: string, value: string): string
  {
    "(" + key + ":" + value + ")"
  }

  function JoinEntries(m: Metadata): string
    decreases |m|
  {
    if m == [] then "" else Entry(m[0].0, m[0].1) + JoinEntries(m[1..])
  }

  lemma {:induction false} JoinEntriesAppend(m: Metadata, key: string, value: string)
    ensures JoinEntries(m + [(key, value)]) == JoinEntries(m) + Entry(key, value)
    decreases |m|
  {
    if m != [] {
      JoinEntriesAppend(m[1..], key, value);
      assert (m + [(key, value)])[1..] == m[1..] + [(key, value)];
    }
  }

  /**
   * The display name as evidently intended: the workflow name followed by
   * `(key:value)` for every metadata entry, in insertion order.
   */
  function MetadataName(name: string, m: Metadata): (r: string)
    ensures |name| <= |r| && r[..|name|] == name
    ensures m == [] ==> r == name
  {
    name + JoinEntries(m)
  }

  /** Each added metadata entry appends its own `(key:value)` to the display name. */
  lemma MetadataNameAppend(name: string, m: Metadata, key: string, value: string)
    ensures MetadataName(name, m + [(key, value)]) == MetadataName(name, m) + Entry(key, value)
  {
    JoinEntriesAppend(m, key, value);
  }

  /**
   * The display-name suffix as written: iterating the dict yields its keys,
   * and `key, value = <key>` unpacks the key string itself, which raises
   * unless the key has exactly two characters (`None` here).
   */
  function KeysUnpackedAsPairs(m: Metadata): (r: Option<string>)
    ensures r.Some? <==> forall i :: 0 <= i < |m| ==> |m[i].0| == 2
    decreases |m|
  {
    if m == [] then Some("")
    else if |m[0].0| != 2 then None
    else
      match KeysUnpackedAsPairs(m[1..])
      case None => None
      case Some(rest) => Some(Entry([m[0].0[0]], [m[0].0[1]]) + rest)
  }

  /** `metadata_name` exactly as written; `None` stands for the unpacking error. */
  function MetadataNameAsWritten(name: string, m: Metadata): (r: Option<string>)
    ensures r.Some? <==> forall i :: 0 <= i < |m| ==> |m[i].0| == 2
  {
    match KeysUnpackedAsPairs(m)
    case None => None
    case Some(suffix) => Some(name + suffix)
  }

  /**
   * The two definitions agree on empty metadata and differ on every other
   * kind: a key that is not two characters long raises, and a two-character
   * key is shown split into its characters instead of with its value.
   */
  lemma MetadataNameDiscrepancy()
    ensures MetadataNameAsWritten("wf", []) == Some(MetadataName("wf", []))
    ensures MetadataNameAsWritten("wf", [("model", "x")]) == None
    ensures MetadataName("wf", [("model", "x")]) == "wf(model:x)"
    ensures MetadataNameAsWritten("wf", [("lr", "0.1")]) == Some("wf(l:r)")
    ensures MetadataName("wf", [("lr", "0.1")]) == "wf(lr:0.1)"
  {
    var m: Metadata := [("lr", "0.1")];
    assert m[1..] == [] && m[0].0 == "lr";
    assert [m[0].0[0]] == "l" && [m[0].0[1]] == "r";
    assert KeysUnpackedAsPairs(m[1..]) == Some("");
    assert Entry("l", "r") + "" == "(l:r)";
    assert KeysUnpackedAsPairs(m) == Some("(l:r)");
    assert "wf" + "(l:r)" == "wf(l:r)";
  }

  /** What a fully drained fresh run freezes into, whatever the clock said. */
  ghost predicate IsDrainedFreeze<T>(r: Results<T>, name: string, metadata: Metadata, procs: seq<Process<T>>, input: T, lenOf: T -> Option<nat>)
  {
    && r.name == name
    && r.metadata == metadata
    && r.metadataName == MetadataName(name, metadata)
    && r.nsteps == |procs|
    && r.currentStep == |procs|
    && r.output == Apply(procs, input)
    && r.lenOutput == lenOf(r.output)
    && |r.outputRecap| == |procs|
    && (forall i :: 0 <= i < |procs| ==> r.outputRecap[i].step == procs[i].name && r.outputRecap[i].duration >= 0.0)
    && r.totalDuration == RecapTotal(r.outputRecap)
  }

  /** A workflow definition: name, metadata and the two parallel step lists. */
  class Workflow<T, H> {
    const name: string
    const metadata: Metadata
    var processes: seq<Process<T>>
    var handlers: seq<H>

    ghost predicate Valid()
      reads this
    {
      |processes| == |handlers|
    }

    /** `__init__`: the (process, handler) pairs are unzipped into the two lists. */
    constructor (name: string, steps: seq<(Process<T>, H)>, metadata: Metadata)
      ensures this.name == name && this.metadata == metadata
      ensures Valid() && |processes| == |steps|
      ensures forall i :: 0 <= i < |steps| ==> processes[i] == steps[i].0 && handlers[i] == steps[i].1
    {
      this.name := name;
      this.metadata := metadata;
      processes := seq(|steps|, i requires 0 <= i < |steps| => steps[i].0);
      handlers := seq(|steps|, i requires 0 <= i < |steps| => steps[i].1);
    }

    /** `nsteps` (and `__len__`). */
    function NSteps(): nat
      reads this
    {
      |processes|
    }

    /** `add`: one more step at the end; returns the workflow itself for chaining. */
    method Add(process: Process<T>, handler: H) returns (self: Workflow<T, H>)
      modifies this
      ensures self == this
      ensures processes == old(processes) + [process] && handlers == old(handlers) + [handler]
      ensures NSteps() == old(NSteps()) + 1
      ensures old(Valid()) ==> Valid()
    {
      processes := processes + [process];
      handlers := handlers + [handler];
      self := this;
    }

    /** `__call__`: a fresh run of this workflow on `input`. */
    method Call(input: T) returns (run: WorkflowIter<T, H>)
      ensures fresh(run) && run.workflow == this && run.input == input
      ensures run.outputs == [] && run.durations == [] && run.base == 0
      ensures run.currentStep == 0 && run.currentOutput == input
      ensures run.Valid()
    {
      run := new WorkflowIter(this, input);
    }
  }

  /** One run of a workflow on one input. */
  class WorkflowIter<T, H> {
    const workflow: Workflow<T, H>
    const input: T
    var outputs: seq<T>
    var durations: seq<real>
    var currentStep: nat
    var currentOutput: T
    /** The number of outputs recorded before the most recent `__iter__`. */
    ghost var base: nat

    /**
     * The run invariant: the cursor is within the workflow, there is one
     * duration per output, every duration is non-negative, and since the
     * last `__iter__` the run has recorded exactly the outputs of the steps
     * it has executed.
     */
    ghost predicate Valid()
      reads this, workflow
    {
      && currentStep <= |workflow.processes|
      && |outputs| == |durations|
      && base <= |outputs|
      && (forall i :: 0 <= i < |durations| ==> durations[i] >= 0.0)
      && outputs[base..] == Outputs(workflow.processes[..currentStep], input)
      && currentOutput == Apply(workflow.processes[..currentStep], input)
    }

    constructor (workflow: Workflow<T, H>, input: T)
      ensures this.workflow == workflow && this.input == input
      ensures outputs == [] && durations == [] && base == 0
      ensures currentStep == 0 && currentOutput == input
      ensures Valid()
    {
      this.workflow := workflow;
      this.input := input;
      outputs := [];
      durations := [];
      currentStep := 0;
      currentOutput := input;
      base := 0;
    }

    /** `__iter__`: back to the input; the recorded outputs and durations are kept. */
    method Reset()
      requires Valid()
      modifies this
      ensures Valid()
      ensures currentStep == 0 && currentOutput == input && base == |outputs|
      ensures outputs == old(outputs) && durations == old(durations)
    {
      currentStep := 0;
      currentOutput := input;
      base := |outputs|;
    }

    /**
     * `__next__`: run the next step, with `elapsed` the non-negative time the
     * clock reports for it; `None` is StopIteration.
     */
    method Next(elapsed: real) returns (r: Option<T>)
      requires Valid() && elapsed >= 0.0
      modifies this
      ensures Valid()
      ensures r.None? <==> old(currentStep) == |workflow.processes|
      ensures r.None? ==> unchanged(this)
      ensures r.Some? ==> && currentStep == old(currentStep) + 1
                          && currentOutput == workflow.processes[old(currentStep)].fn(old(currentOutput))
                          && r == Some(currentOutput)
                          && outputs == old(outputs) + [currentOutput]
                          && durations == old(durations) + [elapsed]
                          && base == old(base)
    {
      if currentStep < |workflow.processes| {
        ghost var procs := workflow.processes;
        ghost var k := currentStep;
        currentStep := currentStep + 1;
        currentOutput := workflow.processes[currentStep - 1].fn(currentOutput);
        outputs := outputs + [currentOutput];
        durations := durations + [elapsed];
        OutputsStep(procs, k, input);
        assert outputs[base..] == old(outputs)[base..] + [currentOutput];
        return Some(currentOutput);
      }
      return None;
    }

    /** `total_duration`. */
    function TotalDuration(): real
      reads this
    {
      Sum(durations)
    }

    /** `steps_recap`. */
    function StepsRecapOf(): seq<Step>
      reads this, workflow
    {
      StepsRecap(workflow.processes, durations)
    }

    /** `len_output`: the length of the current output when it has one. */
    function LenOutput(lenOf: T -> Option<nat>): Option<nat>
      reads this
    {
      lenOf(currentOutput)
    }

    /** `final_output`: the last recorded output; `None` is the IndexError of an empty list. */
    function FinalOutput(): (r: Option<T>)
      reads this, workflow
      ensures r.Some? <==> outputs != []
      ensures r.Some? ==> r.value == outputs[|outputs| - 1]
      ensures Valid() && |outputs| > base ==> r == Some(currentOutput)
    {
      if outputs == [] then None else Some(outputs[|outputs| - 1])
    }

    /**
     * `freeze`: a read-only snapshot of the run in its current state. For a
     * run that has not been restarted the recap has one entry per completed
     * step and accounts for the whole duration; a fully drained run freezes
     * into the outputs of all steps.
     */
    function Freeze(lenOf: T -> Option<nat>): (r: Results<T>)
      reads this, workflow
      ensures r.name == workflow.name && r.metadata == workflow.metadata
      ensures r.metadataName == MetadataName(workflow.name, workflow.metadata)
      ensures r.nsteps == |workflow.processes| && r.currentStep == currentStep
      ensures r.output == currentOutput && r.lenOutput == lenOf(currentOutput)
      ensures r.totalDuration == Sum(durations)
      ensures |r.outputRecap| == Min(|workflow.processes|, |durations|)
      ensures forall i :: 0 <= i < |r.outputRecap| ==> r.outputRecap[i] == Step(workflow.processes[i].name, durations[i])
      ensures Valid() ==> r.currentStep <= r.nsteps && r.totalDuration >= 0.0
      ensures Valid() && base == 0 ==> |r.outputRecap| == r.currentStep && r.totalDuration == RecapTotal(r.outputRecap)
      ensures Valid() && base == 0 && currentStep == |workflow.processes| ==>
                IsDrainedFreeze(r, workflow.name, workflow.metadata, workflow.processes, input, lenOf)
    {
      SumNonNegative(durations);
      RecapTotalIsSum(workflow.processes, durations);
      assert workflow.processes[..|workflow.processes|] == workflow.processes;
      Results(workflow.name, MetadataName(workflow.name, workflow.metadata), workflow.metadata,
              |workflow.processes|, currentStep, currentOutput, LenOutput(lenOf),
              TotalDuration(), StepsRecapOf())
    }
  }
}
