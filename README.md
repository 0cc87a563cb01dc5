# octopipes, modelled in Dafny

octopipes is a small Python library for building pipelines of image or data
processing steps. It has four layers, plus a few ready-made steps:

- A `Workflow` is a named list of steps. Each step has an output handler beside it.
- Calling a workflow on an input gives a `WorkflowIter`, a run that executes one step per `__next__`. The run records every output and every step duration. It can be frozen into an immutable `Results` record.
- An `AggregateFlows` runs several workflows on one input. For each workflow it drains a run, freezes it and appends the snapshot. Then it calls every registered hook with the drained run.
- A `Benchmark` walks a batching `Dataloader`. It builds one aggregate per sample through a factory and collects the aggregates batch by batch.
- The ready-made steps convert detected circles into bounding boxes and print the boxes that stick out of a frame.

The model has one module per core source file, plus `Wrappers` for shared helper datatypes and `Scenarios` for the repository's tests:

| module | file | models |
|---|---|---|
| `Wrappers` | wrappers.dfy | `Option`, `Outcome`, `Min`, `Max` |
| `Results` | results.dfy | the frozen `Step` and `Results` records, as datatypes |
| `Dataset` | dataset.dfy | the `Dataloader` configuration and the `DataloaderIter` cursor class, specified by pure functions of its two counters |
| `Workflows` | workflow.dfy | the `Workflow` builder and `WorkflowIter` run classes, specified by `Apply` and `Outputs`, the composition of the step functions |
| `Aggregation` | aggregate_flows.dfy | the `AggregateFlows` class, with ghost logs of the runs it drained and of the hook calls it made, and the default factory |
| `Benchmarking` | benchmark.dfy | `run_sample`, the `Run` callable and the `Benchmark` class; the worker pool becomes its ordered sequential map |
| `Processes` | process.dfy | `circles_to_bboxes` over integers, with an inverse |
| `Debugging` | process_debuging.dfy | `echo_output` and `echo_bbox_outofbound`; the printed messages become a returned log |
| `Scenarios` | scenarios.dfy | the repository's unit tests that octopipes as written passes, replayed on the model |

Step functions are total Dafny functions `T -> T` carried in a `Process` value with the `__name__` they are reported under.
Handlers are an opaque type parameter `H`, and hooks an opaque type parameter `K`.

The clock is abstract. Each step's duration is any non-negative real the clock chooses, so every proved fact holds whatever the timings are.

Python's `len_output` relies on `hasattr(x, '__len__')`. It is a parameter `lenOf: T -> Option<nat>` that callers supply.

## Model

| member | source | states |
|---|---|---|
| Dataset.Slice | octopipes/dataset.py:48 | Python's clamped slice `s[lo:hi]`: its length is cut at the end of the data, and element `k` is `s[lo + k]` |
| Dataset.TotalYield | octopipes/dataset.py:31-38 | a limit replaces the computed total outright, whatever the size; without a limit the total is the size, or the size less its remainder when the last batch is dropped |
| Dataset.NextBatch | octopipes/dataset.py:45-54 | one `__next__` on the counters: StopIteration exactly when the yield total is reached; otherwise at most `batch_size` elements, a prefix of the clamped slice, the index advanced by exactly `batch_size` even when truncated, and the yielded count capped by the total; past the end the batch is empty and the count stays |
| Dataset.NextBatchYieldsPrefix | octopipes/dataset.py:45-54 | from a reachable counter state, a batch is exactly the next slice of the dataset after the yielded prefix; it is empty exactly when the cursor is past the data, and then all the data has been yielded |
| Dataset.DrainCoversPrefix | octopipes/dataset.py:45-54 | when the yield total does not exceed the data, the batches up to exhaustion concatenate to `dataset[0..total_yield]` |
| Dataset.DrainBatchLengths | octopipes/dataset.py:47-52 | every batch up to exhaustion is non-empty and at most `batch_size` long, and every batch but the last is exactly `batch_size` long |
| Dataset.DrainCount | octopipes/dataset.py:45-54 | the number of batches up to exhaustion is the ceiling of the remaining yield over `batch_size` |
| Dataset.UnlimitedBatchCount | octopipes/dataset.py:31-36 | without a limit, the announced `batches` equals the number of batches the cursor actually yields, with or without `drop_last_batch` |
| Dataset.LimitPastEndNeverExhausts | octopipes/dataset.py:46-52 | with a yield total beyond the data, every call yields a batch, and once the data is used up each batch is empty and nothing is counted, so StopIteration never comes |
| Dataset.DataloaderIter.constructor | octopipes/dataset.py:25-38 | the configuration is copied; `batches` and `total_yield` hold the announced formulas (`Valid`), and the counters start at zero |
| Dataset.DataloaderIter.Reset | octopipes/dataset.py:40-43 | `__iter__` sets both counters back to zero and keeps the cursor invariant, so the cursor is restartable |
| Dataset.DataloaderIter.Next | octopipes/dataset.py:45-54 | the new counters and the result are those of `NextBatch`; StopIteration changes no state; a batch is `dataset[old total_yielded..total_yielded]`; it is empty exactly when the old index was past the data, and then the whole dataset has been yielded short of the total |
| Dataset.Iterate | octopipes/dataset.py:20-21 | `Dataloader.__iter__` gives a fresh cursor over the loader's settings with both counters at zero |
| Workflows.ApplyConcat | octopipes/workflow.py:61-70 | running the steps of `p + q` is running `q` on the output of `p` |
| Workflows.ApplyFirstStep | octopipes/workflow.py:66 | the first step is applied to the input first |
| Workflows.Outputs | octopipes/workflow.py:68 | the outputs a fresh run records: one per step, output `i` being the composition of the first `i + 1` steps applied to the input |
| Workflows.SumNonNegative | octopipes/workflow.py:84-86 | the total duration of non-negative durations is non-negative |
| Workflows.RecapTotalIsSum | octopipes/workflow.py:81-86 | when there are no more durations than steps, the recap's durations add up to the total duration |
| Workflows.MetadataName | octopipes/workflow.py:30-32 | the corrected display name begins with the workflow name and is just that name for empty metadata |
| Workflows.MetadataNameAppend | octopipes/workflow.py:32 | each metadata entry adds its own `(key:value)` to the corrected display name, in insertion order |
| Workflows.KeysUnpackedAsPairs | octopipes/workflow.py:32 | unpacking each key string as a `(key, value)` pair works exactly when every key has two characters |
| Workflows.MetadataNameAsWritten | octopipes/workflow.py:30-32 | the display name as written raises unless every key has exactly two characters |
| Workflows.MetadataNameDiscrepancy | octopipes/workflow.py:32 | the written and the corrected display names agree on empty metadata; with the key `model` the written one raises, and with the key `lr` it shows `(l:r)` instead of `(lr:0.1)` |
| Workflows.Workflow.constructor | octopipes/workflow.py:16-28 | the (process, handler) pairs are unzipped into two lists of equal length, in order; empty steps give two empty lists |
| Workflows.Workflow.Add | octopipes/workflow.py:34-44 | appends exactly one process and one handler, returns the workflow itself and adds one to `nsteps` |
| Workflows.Workflow.Call | octopipes/workflow.py:46-54 | a fresh run of this workflow on the input, with nothing recorded yet |
| Workflows.WorkflowIter.constructor | octopipes/workflow.py:50-54 | the run starts with empty outputs and durations and satisfies the run invariant |
| Workflows.WorkflowIter.Reset | octopipes/workflow.py:56-59 | `__iter__` puts the cursor back on the input but keeps the recorded outputs and durations |
| Workflows.WorkflowIter.Next | octopipes/workflow.py:61-71 | StopIteration exactly when every step has run, changing nothing; otherwise the step counter rises by one, the output becomes the next step applied to the previous output, and exactly one output and one duration are appended; the run invariant is kept |
| Workflows.WorkflowIter.FinalOutput | octopipes/workflow.py:88-90 | defined exactly when outputs exist, and then the last recorded output; since the last reset it is the current output |
| Workflows.WorkflowIter.Freeze | octopipes/workflow.py:81-104 | a read-only snapshot: name, metadata, step count, current step, current output and its length are copied; the total is the sum of the durations; the recap zips step names with durations (`min` of the two lengths); on a valid run the step is within bounds and the total is non-negative; a fully drained fresh run gives a recap with one entry per step adding up to the total; the display name is the corrected one (see Findings) |
| Aggregation.HookCallsLayout | octopipes/aggregate_flows.py:40-58 | over a sequence of runs, the hooks are called exactly `runs * hooks` times, and call `i * hooks + j` is hook `j` on run `i`: all calls for one run come before any call for the next |
| Aggregation.DrainRun | octopipes/aggregate_flows.py:45-47 | draining a fresh run executes every step and records exactly the outputs of all steps |
| Aggregation.AggregateFlows.constructor | octopipes/aggregate_flows.py:16-27 | input, workflows and dependencies are stored unchanged, with no results and no hooks |
| Aggregation.AggregateFlows.AddHook | octopipes/aggregate_flows.py:29-31 | exactly one hook is appended at the end |
| Aggregation.AggregateFlows.AddHooks | octopipes/aggregate_flows.py:33-35 | all the given hooks are appended, in order |
| Aggregation.AggregateFlows.RunHook | octopipes/aggregate_flows.py:37-38 | records one call of the given hook on the run |
| Aggregation.AggregateFlows.RunHooks | octopipes/aggregate_flows.py:40-42 | every hook is called once on the run, in registration order |
| Aggregation.AggregateFlows.Run | octopipes/aggregate_flows.py:44-54 | the result is the freeze of the fresh run that is recorded and handed to the hooks, and that run is fully drained; exactly that one result is appended; then every hook is called once on that run, in order |
| Aggregation.AggregateFlows.RunWorkflows | octopipes/aggregate_flows.py:56-58 | results grow by one per workflow, the old ones kept; result `old + i` is the freeze of recorded run `old + i`, a fully drained run of workflow `i`; the hooks are called run by run, in workflow order |
| Aggregation.GetAggregateFlows | octopipes/aggregate_flows.py:69-76 | an `InputWithDeps` is split into input and dependencies; any other value is the input with no dependencies; the aggregate gets the factory's hooks in order and has no results yet |
| Benchmarking.RunSample | octopipes/benchmark.py:19-28 | the feature of a pair, or else the sample itself, goes to the factory; the aggregate returned has one drained frozen result per workflow, in order, and has called each hook once per run |
| Benchmarking.Run.Call | octopipes/benchmark.py:37-43 | the bound callable does exactly what `run_sample` does with its factory and workflows |
| Benchmarking.SamplesReached | octopipes/benchmark.py:30-34 | the number of samples a loader reaches: the yield total clamped to the dataset and to zero |
| Benchmarking.StopCount | octopipes/dataset.py:45-54 | the cursor either reaches its yield total, which then cannot exceed the dataset, or runs out of data short of it; where it stops is the clamped total |
| Benchmarking.Benchmark.constructor | octopipes/benchmark.py:11-17 | no factory means the default factory with no hooks; results start empty |
| Benchmarking.Benchmark.RunBatch | octopipes/benchmark.py:32-34 | one batch through the worker: one aggregate per sample, appended in sample order, each the run of its sample |
| Benchmarking.Benchmark.RunBatches | octopipes/benchmark.py:31-34 | the batch loop stops either when the cursor stops or, with an empty batch, when the pool cannot start; the aggregates appended are the runs of the samples yielded, in order |
| Benchmarking.Benchmark.RunTests | octopipes/benchmark.py:30-34 | the run completes exactly when the yield total fits the dataset; results keep their old entries and grow by the number of samples reached; aggregate `old + k` is the run of sample `k` |
| Processes.CirclesToBboxes | octopipes/process.py:3-5 | one box per circle |
| Processes.CirclesRoundTrip | octopipes/process.py:3-5 | every circle is read back from its box: the conversion loses nothing |
| Processes.CircleBoxIsSquare | octopipes/process.py:4 | every circle's box is square with an even side |
| Processes.BoxOfCircleIff | octopipes/process.py:4 | a box comes from a circle exactly when it is square with an even side |
| Processes.BoxesRoundTrip | octopipes/process.py:3-5 | boxes survive the round trip through circles exactly when all of them are square with an even side |
| Processes.BoxesOrdered | octopipes/process.py:4 | with non-negative radii, the first coordinate is at most the third and the second at least the fourth |
| Processes.CirclesToBboxesConcat | octopipes/process.py:4-5 | the conversion works circle by circle: it distributes over concatenation |
| Debugging.EchoStep | octopipes/process_debuging.py:3-5 | `echo_output` as a step, reported under its own name |
| Debugging.EchoTransparent | octopipes/process_debuging.py:3-5 | an echo step added anywhere in a workflow does not change what the workflow computes |
| Debugging.CheckBboxOutOfBound | octopipes/process_debuging.py:9-14 | the loop hands back its input unchanged, which is what the workflow step returns, and reports exactly the out-of-bound boxes, in input order |
| Debugging.EchoBboxTransparent | octopipes/process_debuging.py:7-15 | the `echo_bbox_outofbound(width, height)` step, named after its inner function, can be inserted anywhere in a box workflow without changing what the workflow computes |
| Debugging.OutOfBoundLogMembers | octopipes/process_debuging.py:10-13 | a box is reported exactly when it is in the input and one of its coordinates is strictly beyond its bound |
| Debugging.OutOfBoundLogConcat | octopipes/process_debuging.py:10-13 | messages are made box by box: the log of a concatenation is the concatenation of the logs |
| Debugging.OutOfBoundLogExtremes | octopipes/process_debuging.py:10-13 | no box out of bound means no message; all boxes out of bound means one message per box |
| Scenarios.OneStepWorkflow | tests/test_aggregateflows.py:6-9 | a one-step workflow built with `add` |
| Scenarios.TwoIdentitySteps | tests/test_workflow.py:4-14 | two identity steps: two steps, both outputs equal the input 1, and so does the final output; the test's unpacking of each output as a pair is not replayed |
| Scenarios.AggregateTwoWorkflows | tests/test_aggregateflows.py:5-15 | `x + 1` and `x * 2` on input 2 give exactly two results, with outputs 3 and 4, in that order |
| Scenarios.SampleOutputs | tests/test_benchmark.py:8-21 | the aggregate of a sample `x` over the two workflows holds `x + 1` and `2 * x`, in that order |
| Scenarios.BenchmarkFourSamples | tests/test_benchmark.py:8-21 | five samples in batches of two with the last batch dropped give exactly four aggregates, with outputs (2, 2), (3, 4), (4, 6) and (5, 8) |
| Scenarios.EmptyDatasetWithLimit | tests/test_dataset.py:34-39 | an empty dataset with limit 1 yields an empty batch, and then another |
| Scenarios.FiveInBatchesOfTwo | tests/test_dataset.py:41-49 | five samples in batches of two give `[1, 2]`, `[3, 4]`, `[5]`, then StopIteration |
| Scenarios.LimitsAgainstBatchSize | tests/test_dataset.py:51-77 | with batch size 3, limit 3 gives one full batch, limit 2 cuts the first batch to two samples, and limit 4 gives a full batch and then one more sample |
| Scenarios.CircleExamples | tests/test_process.py:4-7 | nothing gives nothing, and the zero circle gives the zero box, once per circle |
| Scenarios.OutOfBoundExamples | tests/test_process_debuging.py:4-11 | the zero box is silent in a 100 × 100 frame; `(50, 50, 100, 100)` in a 50 × 50 frame is reported and passed through |

## Left out

- Handlers (octopipes/handlers.py): drawing, colour maps and JSON serialisation. A handler is an opaque value kept beside its step and never used.
- Logging, tqdm progress bars and `print`: display only. The messages of `check_bbox_outofbound` are kept as a returned log of boxes; the message text is not modelled.
- `WorkflowIter.recap`: string formatting and `print` of the per-step timings. The same data is in `steps_recap`, which is modelled.
- Real timing: `time.perf_counter` floats. The clock is abstract and returns any non-negative real, so floating-point rounding is not modelled.
- Parallelism in `run_tests`: `multiprocess.Pool` workers and the pickled copies of the factory and workflows they get. The model is the ordered sequential map the pool promises, applied to the shared objects.
- Exceptions raised by user steps or hooks: steps are total functions and hooks only record that they were called. Their side effects are not modelled.
- `run_sample`: only the two sample shapes are modelled, a `(feature, ground truth)` pair and a value that is not iterable. An iterable sample of any other length, which raises `ValueError`, is not modelled.
- `Pool(processes=0)`, called on an empty batch, raises `ValueError`. It is modelled as `Fail(EmptyPool)`, which ends `run_tests`.
- Custom factories (`AggregateFlowsFactory` is a Protocol): only `DefaultAggregateFlowsFactory` is modelled.
- `batch_size < 1`: the loader divides by the batch size. Zero raises and a negative size gives a batch count that makes no sense. Every member that builds or runs a loader requires `batch_size >= 1`.
- The loader and run counters exist in Python only after `__iter__`. The model gives them zero from construction, and that is also the value `__iter__` sets.
- The `requires=`/`dependencies=` injection some tests use (tests/test_workflow.py:17-61, tests/test_aggregateflows.py:18-30): `add` takes no `requires` parameter and `__call__` ignores its extra arguments, so nothing in octopipes implements it. The aggregate's dependencies are stored and never passed to a step, as in the source.
- Processes.CirclesToBboxes: `int()` truncation of float coordinates is not modelled, because circles are integer triples.
- Benchmarking.IsSampleRun: does not describe the state of the runs an aggregate drained, only their frozen snapshots and the layout of the hook calls. Adding it made the proofs too costly.
- Aggregation.AggregateFlows.RunWorkflows: does not state that the runs it records are freshly allocated (`Run` does state it for each run). Adding it made the proof too costly.
- Debugging.EchoStep: states only the step's name. That its function is the identity is shown by `EchoTransparent` on every workflow it is inserted in.
- `len_output`'s `hasattr(x, '__len__')` test is the caller-supplied `lenOf` parameter.
- Workflows.WorkflowIter.Freeze: the snapshot's display name is the corrected `MetadataName`, so it is also what `_run`, `run_workflows`, `run_sample` and `run_tests` record. The source's `freeze` reads `metadata_name` as written. That raises `ValueError` for a metadata key that is not two characters long, which aborts the whole run, and it splits a two-character key into its characters. Neither is modelled; `MetadataNameAsWritten` and `MetadataNameDiscrepancy` show both behaviours.
- tests/test_workflow.py:10 iterates the run as `(name, result)` pairs, but `__next__` returns the bare output (octopipes/workflow.py:70), so the source fails that test with a `TypeError` on the first output. `Scenarios.TwoIdentitySteps` checks the recorded outputs instead.
- Metadata is an association list that may repeat a key, which a Python `dict` cannot. `Workflows.MetadataNameAppend` matches adding an entry to a dict only when the key is new.
- Default arguments are explicit parameters: `Dataloader`'s `batch_size`, `limit` and `drop_last_batch`, `Workflow`'s `steps` and `metadata`, `add`'s `handler` (by default a `DefaultHandler`), and `AggregateFlows`'s `dependencies` (by default none, `None` in the model).

## Findings

| source | as written | input that shows it | evidently intended | confidence | as-written member | corrected member |
|---|---|---|---|---|---|---|
| octopipes/workflow.py:32 | `for key, value in self.metadata` iterates the dict's keys and unpacks each key string into two characters | metadata `{"model": "x"}` raises an unpacking error; `{"lr": "0.1"}` gives `wf(l:r)` | `self.metadata.items()`, giving `wf(model:x)` and `wf(lr:0.1)` | not executed | Workflows.MetadataNameAsWritten, Workflows.MetadataNameDiscrepancy | Workflows.MetadataName |
