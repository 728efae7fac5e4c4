/** The API objects the three reconcilers share: jobs, the queue ledger, pod groups and pods. */
module ClusterTypes {
  import opened Resources

  datatype Option<+T> = None | Some(value: T)

  datatype JobType = Train | Inference

  /** A job of either type, as `PreemptedByInfo` and the ledger entries name it. */
  datatype JobRef = JobRef(name: string, kind: JobType)

  // ---------------------------------------------------------------- queue

  /** One element of `Queue.Status.Used`. */
  datatype Entry = Entry(name: string, kind: JobType, res: ResourceList, requeueCount: nat)

  // ---------------------------------------------------------------- train jobs

  datatype TrainPhase =
    | NoPhase | Submitted | Queued | Starting | Running | Retrying | Succeeded | Failed | Preempted

  datatype TrainSpec = TrainSpec(
    worldSize: int, retryLimit: int, masterPort: int, requests: ResourceList, priorityClass: string)

  datatype FailureSummary = FailureSummary(attempt: int, rank: int, preemptedBy: Option<JobRef>)

  datatype TrainStatus = TrainStatus(
    phase: TrainPhase, attempt: nat, requeueCount: nat, lastFailure: Option<FailureSummary>,
    runningWorkers: int, readyWorkers: int)

  datatype TrainJob = TrainJob(name: string, created: int, spec: TrainSpec, status: TrainStatus)

  predicate TerminalTrain(p: TrainPhase) {
    p == Succeeded || p == Failed
  }

  /** The phases in which the reconciler drives worker pods. */
  predicate DrivingTrain(p: TrainPhase) {
    p == Starting || p == Running || p == Retrying
  }

  /** The phases in which a train job holds its quota charge. */
  predicate HoldingTrain(p: TrainPhase) {
    DrivingTrain(p) || p == Preempted
  }

  /** `Resources` is per worker; the whole job needs it `WorldSize` times. */
  function TrainDemand(spec: TrainSpec): ResourceList {
    Scale(spec.requests, spec.worldSize)
  }

  // ---------------------------------------------------------------- inference jobs

  datatype InferencePhase =
    | InfNoPhase | InfQueued | InfStarting | InfRunning | InfRestarting | InfFailing | InfFailed

  datatype InferenceSpec = InferenceSpec(maxRestarts: int, requests: ResourceList, priorityClass: string)

  datatype InferenceJob = InferenceJob(
    name: string, created: int, spec: InferenceSpec, phase: InferencePhase,
    finalizers: seq<string>, deleting: bool, lastExitCode: Option<int>)

  predicate ServingInference(p: InferencePhase) {
    p == InfStarting || p == InfRunning || p == InfRestarting
  }

  /** The phases in which an inference job holds its quota charge. */
  predicate HoldingInference(p: InferencePhase) {
    ServingInference(p) || p == InfFailing
  }

  // ---------------------------------------------------------------- services, pod groups and pods

  /** One port of a service: the port itself and the pod's port behind it. */
  datatype ServicePort = ServicePort(port: int, target: int)

  /** A job's master service; its name is the job's with a fixed suffix. */
  datatype MasterService = MasterService(selector: map<string, string>, ports: seq<ServicePort>)

  datatype GroupKey = GroupKey(job: string, attempt: nat)

  /** `epoch` is bookkeeping of this model: the owner's RequeueCount when the group was created. */
  datatype PodGroup = PodGroup(owner: string, minMember: int, failed: bool, detail: nat,
                               preemptedBy: Option<JobRef>, epoch: nat)

  /** Stands for the pod name, which is injective in these three parts (module Names). */
  datatype PodKey = PodKey(job: string, attempt: nat, rank: nat)

  datatype PodPhase = Pending | PodRunning | PodSucceeded | PodFailed

  datatype WorkerPod = WorkerPod(phase: PodPhase, ready: bool, requests: ResourceList)

  predicate Finished(p: WorkerPod) {
    p.phase == PodSucceeded || p.phase == PodFailed
  }

  /** A container status: waiting, exit codes of the current and of the last termination, restarts. */
  datatype Container = Container(waiting: bool, terminated: Option<int>, lastTerminated: Option<int>, restarts: int)

  datatype ServerPod = ServerPod(containers: seq<Container>, ready: bool, deleting: bool)

  /** What the API server stores for one namespace with one queue. */
  datatype Store = Store(
    quota: ResourceList, used: seq<Entry>, classes: map<string, int>,
    trains: map<string, TrainJob>, infs: map<string, InferenceJob>, services: map<string, MasterService>,
    groups: map<GroupKey, PodGroup>, workers: map<PodKey, WorkerPod>, servers: map<string, ServerPod>)
}
