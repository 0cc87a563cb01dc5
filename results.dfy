/**
 * The frozen records a finished (or partly finished) workflow run is
 * snapshotted into. Dafny datatype values are immutable, which is what the
 * frozen record promises: no field can be reassigned after construction.
 */
module Results {
  import opened Wrappers

  /** One entry of the per-step timing recap. */
  datatype Step = Step(step: string, duration: real)

  /** An insertion-ordered `dict` of string keys and string values. */
  type Metadata = seq<(string, string)>

  /** The snapshot of a run, with exactly the record's nine fields. */
  datatype Results<T> = Results(
    name: string,
    metadataName: string,
    metadata: Metadata,
    nsteps: nat,
    currentStep: nat,
    output: T,
    lenOutput: Option<nat>,
    totalDuration: real,
    outputRecap: seq<Step>)
}
