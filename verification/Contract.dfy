/** The command contract shared by the control plane and the node agent, with the small value
    types both sides use.  Fingerprints are modelled by the fingerprinted value itself: SHA-256
    over canonical JSON is taken to be injective. */
module Contract {

  datatype Option<+T> = None | Some(value: T)

  type Generation = g: int | 1 <= g witness 1

  /** A card number as it was submitted; only the validators know whether it is in range. */
  datatype Gpu = Gpu(index: int)

  datatype OwnerType = Deployment | Training | Evaluation

  /** A workload's identity.  The container name is derived from it and carries no generation. */
  datatype Owner = Owner(kind: OwnerType, id: nat)

  predicate IsJob(o: Owner) {
    o.kind != Deployment
  }

  datatype Action = Start | Stop | Status

  datatype Runner = Vllm | LlamaFactory | EvaluationRunner

  /** The execution object of a command.  `body` stands for every field the protocol does not look at. */
  datatype Execution =
    | NoExecution
    | CleanupTerminal
    | Launch(runner: Runner, wellFormed: bool, tensorParallel: nat, body: nat)
    | OtherExecution(body: nat)

  datatype Command = Command(
    requestId: nat, action: Action, owner: Owner, generation: Generation,
    gpuIds: seq<Gpu>, execution: Execution)

  datatype WorkloadState =
    | ObservedAbsent | ObservedStarting | ObservedRunning
    | ObservedStopping | ObservedSucceeded | ObservedFailed

  datatype ErrorCode =
    | NoError | StaleGeneration | RequestIdReused | GenerationReused
    | InvalidExecution | InvalidWorkload | WorkloadConflict

  datatype Response = Response(requestId: nat, accepted: bool, observed: WorkloadState, error: ErrorCode)

  /** What the caller of the agent learns: a verified answer, or nothing it may conclude from. */
  datatype Reply = Answer(response: Response) | NoAnswer

  /** The observations on which the control plane gives cards back. */
  predicate EndReport(state: WorkloadState) {
    state == ObservedAbsent || state == ObservedSucceeded || state == ObservedFailed
  }

  function GpuSet(gpuIds: seq<Gpu>): set<Gpu> {
    set i | 0 <= i < |gpuIds| :: gpuIds[i]
  }

  predicate Distinct<T(==)>(s: seq<T>) {
    forall i, j :: 0 <= i < j < |s| ==> s[i] != s[j]
  }
}
