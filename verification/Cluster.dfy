/**
 The transition system: the three reconcilers interleaved API call by API call, with each other and
 with users, the scheduler, the kubelet and the garbage collector.
 */
module Cluster {
  import opened Resources
  import opened ClusterTypes
  import opened Names
  import opened QueueAdmission
  import T = TrainLifecycle
  import I = InferenceLifecycle

  /**
   Beside the store: every ledger and every quota there has been (the last ones are current), the
   versions of jobs that a watch has reported, those of them that the queue reconciler's cache holds
   now, the passes in flight, the latest version of every TrainJob there has ever been, deleted ones
   included, and the names ever given to an InferenceJob.
   */
  datatype System = System(
    store: Store,
    ledgers: seq<seq<Entry>>, quotas: seq<ResourceList>,
    reportedTrains: set<TrainJob>, reportedInfs: set<InferenceJob>,
    seenTrains: Trains, seenInfs: Infs,
    queuePass: QueuePc, trainPasses: map<string, T.TrainPc>, infPasses: map<string, I.InfPc>,
    lastTrains: Trains, infNames: set<string>)

  ghost predicate Init(s: System) {
    && s.store.used == [] && s.ledgers == [[]] && s.quotas == [s.store.quota]
    && s.store.trains == map[] && s.store.infs == map[] && s.store.services == map[]
    && s.store.groups == map[] && s.store.workers == map[] && s.store.servers == map[]
    && s.reportedTrains == {} && s.reportedInfs == {}
    && s.seenTrains == map[] && s.seenInfs == map[]
    && s.queuePass == QIdle && s.trainPasses == map[] && s.infPasses == map[]
    && s.lastTrains == map[] && s.infNames == {}
  }

  predicate TrainSpecOk(spec: TrainSpec) {
    0 <= spec.worldSize && NonNegative(spec.requests)
  }

  predicate InferenceSpecOk(spec: InferenceSpec) {
    NonNegative(spec.requests)
  }

  datatype Action =
    // users and the API server
    | CreateTrain(name: string, created: int, trainSpec: TrainSpec)
    | DeleteTrain(name: string)
    | CreateInference(name: string, created: int, infSpec: InferenceSpec, finalizers: seq<string>)
    | DeleteInference(name: string)
    | EditFinalizers(name: string, finalizers: seq<string>)
    | SetQuota(quota: ResourceList)
    | SetClasses(classes: map<string, int>)
    | EditServices(services: map<string, MasterService>)
    // kubelet, scheduler, evictions and garbage collection
    | ChangeWorker(pod: PodKey, now: WorkerPod)
    | RemoveWorker(pod: PodKey)
    | MarkGroup(group: GroupKey, mark: PodGroup)
    | RemoveGroup(group: GroupKey)
    | ChangeServer(name: string, server: ServerPod)
    | RemoveServer(name: string)
    // the watches behind the caches, at any lag
    | ReportTrain(name: string)
    | ReportInference(name: string)
    | SyncTrain(trainVersion: TrainJob)
    | SyncInference(infVersion: InferenceJob)
    | ForgetTrain(name: string)
    | ForgetInference(name: string)
    // the queue reconciler
    | QueueStep(after: seq<Entry>)
    | EndQueue
    // the job reconcilers
    | BeginTrain(trainCopy: TrainJob)
    | TrainStep(name: string, items: seq<PodKey>, ledger: nat)
    | EndTrain(name: string)
    | BeginInference(infCopy: InferenceJob)
    | InferenceStep(name: string, ledger: nat)
    | EndInference(name: string)

  function TrainReads(s: System, items: seq<PodKey>, ledger: nat): T.Reads
    requires ledger < |s.ledgers|
  {
    T.Reads(items, s.ledgers[ledger])
  }

  function QueueReadsNow(s: System): QueueReads {
    QueueReads(s.store.quota, s.store.used, s.store.classes, s.seenTrains, s.seenInfs)
  }

  /** A version that a cached read may return: the stored one, or any one a watch ever reported. */
  predicate TrainVersion(s: System, v: TrainJob) {
    v in s.reportedTrains || (v.name in s.store.trains && s.store.trains[v.name] == v)
  }

  predicate InferenceVersion(s: System, v: InferenceJob) {
    v in s.reportedInfs || (v.name in s.store.infs && s.store.infs[v.name] == v)
  }

  ghost predicate Enabled(s: System, a: Action) {
    match a
    case CreateTrain(name, _, spec) => name !in s.lastTrains && TrainSpecOk(spec)
    case DeleteTrain(name) => true
    case CreateInference(name, _, spec, _) => name !in s.infNames && InferenceSpecOk(spec)
    case DeleteInference(name) => name in s.store.infs
    case EditFinalizers(name, fs) =>
      name in s.store.infs && (FINALIZER_KEY in fs <==> FINALIZER_KEY in s.store.infs[name].finalizers)
    case SetQuota(_) => true
    case SetClasses(_) => true
    case EditServices(_) => true
    case ChangeWorker(pod, now) =>
      // a pod keeps its requests, and a finished one stays as it finished
      pod in s.store.workers && now.requests == s.store.workers[pod].requests
      && (Finished(s.store.workers[pod]) ==> now.phase == s.store.workers[pod].phase)
    case RemoveWorker(_) => true
    case MarkGroup(group, mark) =>
      // the scheduler reports on a group, and never takes a PreemptedBy back
      group in s.store.groups
      && mark.owner == s.store.groups[group].owner && mark.epoch == s.store.groups[group].epoch
      && mark.minMember == s.store.groups[group].minMember
      && (s.store.groups[group].preemptedBy.Some? ==> mark.preemptedBy.Some?)
    case RemoveGroup(_) => true
    case ChangeServer(name, server) =>
      // a deletion mark stays
      name in s.store.servers && (s.store.servers[name].deleting ==> server.deleting)
    case RemoveServer(_) => true
    case ReportTrain(name) => name in s.store.trains
    case ReportInference(name) => name in s.store.infs
    // any version ever reported, in whatever order; a cache that keeps the order does less
    case SyncTrain(v) => v in s.reportedTrains
    case SyncInference(v) => v in s.reportedInfs
    // a deletion is noticed some time after it has happened
    case ForgetTrain(name) => name !in s.store.trains
    case ForgetInference(name) => name !in s.store.infs
    case QueueStep(after) => ChoiceOk(s.queuePass, QueueReadsNow(s), after)
    case EndQueue => true
    case BeginTrain(v) => TrainVersion(s, v) && v.name !in s.trainPasses
    case TrainStep(name, items, ledger) =>
      name in s.trainPasses && ledger < |s.ledgers|
      && T.ReadsOk(s.store, s.trainPasses[name], TrainReads(s, items, ledger))
    case EndTrain(name) => true
    case BeginInference(v) => InferenceVersion(s, v) && v.name !in s.infPasses
    case InferenceStep(name, ledger) => name in s.infPasses && ledger < |s.ledgers|
    case EndInference(name) => true
  }

  function NewTrain(name: string, created: int, spec: TrainSpec): TrainJob {
    TrainJob(name, created, spec, TrainStatus(NoPhase, 0, 0, None, 0, 0))
  }

  function NewInference(name: string, created: int, spec: InferenceSpec, finalizers: seq<string>): InferenceJob {
    InferenceJob(name, created, spec, InfNoPhase, finalizers, false, None)
  }

  /** The records of the latest versions take over what is stored now. */
  function Latest(lasts: Trains, trains: Trains): Trains {
    lasts + trains
  }

  ghost function Apply(s: System, a: Action): System
    requires Enabled(s, a)
  {
    var st := s.store;
    match a
    case CreateTrain(name, created, spec) =>
      s.(store := st.(trains := st.trains[name := NewTrain(name, created, spec)]),
         lastTrains := s.lastTrains[name := NewTrain(name, created, spec)])
    case DeleteTrain(name) => s.(store := st.(trains := st.trains - {name}))
    case CreateInference(name, created, spec, fs) =>
      s.(store := st.(infs := st.infs[name := NewInference(name, created, spec, fs)]), infNames := s.infNames + {name})
    case DeleteInference(name) => s.(store := st.(infs := I.Stored(st.infs, st.infs[name].(deleting := true))))
    case EditFinalizers(name, fs) => s.(store := st.(infs := I.Stored(st.infs, st.infs[name].(finalizers := fs))))
    case SetQuota(quota) => s.(store := st.(quota := quota), quotas := s.quotas + [quota])
    case SetClasses(classes) => s.(store := st.(classes := classes))
    case EditServices(services) => s.(store := st.(services := services))
    case ChangeWorker(pod, now) => s.(store := st.(workers := st.workers[pod := now]))
    case RemoveWorker(pod) => s.(store := st.(workers := st.workers - {pod}))
    case MarkGroup(group, mark) => s.(store := st.(groups := st.groups[group := mark]))
    case RemoveGroup(group) => s.(store := st.(groups := st.groups - {group}))
    case ChangeServer(name, server) => s.(store := st.(servers := st.servers[name := server]))
    case RemoveServer(name) => s.(store := st.(servers := st.servers - {name}))
    case ReportTrain(name) => s.(reportedTrains := s.reportedTrains + {st.trains[name]})
    case ReportInference(name) => s.(reportedInfs := s.reportedInfs + {st.infs[name]})
    case SyncTrain(v) => s.(seenTrains := s.seenTrains[v.name := v])
    case SyncInference(v) => s.(seenInfs := s.seenInfs[v.name := v])
    case ForgetTrain(name) => s.(seenTrains := s.seenTrains - {name})
    case ForgetInference(name) => s.(seenInfs := s.seenInfs - {name})
    case QueueStep(after) =>
      var (pc, written) := QueueCall(s.queuePass, QueueReadsNow(s), after);
      match written {
        case None => s.(queuePass := pc)
        case Some(used) => s.(queuePass := pc, store := st.(used := used), ledgers := s.ledgers + [used])
      }
    case EndQueue => s.(queuePass := QIdle)
    case BeginTrain(v) => s.(trainPasses := s.trainPasses[v.name := T.Start(v)])
    case TrainStep(name, items, ledger) =>
      var (st', pc) := T.TrainCall(st, s.trainPasses[name], TrainReads(s, items, ledger));
      s.(store := st', trainPasses := s.trainPasses[name := pc], lastTrains := Latest(s.lastTrains, st'.trains))
    case EndTrain(name) => s.(trainPasses := s.trainPasses - {name})
    case BeginInference(v) => s.(infPasses := s.infPasses[v.name := I.Start(v)])
    case InferenceStep(name, ledger) =>
      var (st', pc) := I.InfCall(st, s.infPasses[name], s.ledgers[ledger]);
      s.(store := st', infPasses := s.infPasses[name := pc])
    case EndInference(name) => s.(infPasses := s.infPasses - {name})
  }

  // ---------------------------------------------------------------- the reconcilers' steps, spelled out

  lemma TrainStepMeans(s: System, n: string, items: seq<PodKey>, ledger: nat)
    ensures Enabled(s, TrainStep(n, items, ledger)) <==>
              n in s.trainPasses && ledger < |s.ledgers|
              && T.ReadsOk(s.store, s.trainPasses[n], TrainReads(s, items, ledger))
    ensures Enabled(s, TrainStep(n, items, ledger)) ==>
              var (st, pc) := T.TrainCall(s.store, s.trainPasses[n], TrainReads(s, items, ledger));
              Apply(s, TrainStep(n, items, ledger))
              == s.(store := st, trainPasses := s.trainPasses[n := pc], lastTrains := Latest(s.lastTrains, st.trains))
  {
    hide T.TrainCall, T.ReadsOk, I.InfCall, ChoiceOk, QueueCall, T.Start, I.Start;
  }

  lemma InferenceStepMeans(s: System, n: string, ledger: nat)
    ensures Enabled(s, InferenceStep(n, ledger)) <==> n in s.infPasses && ledger < |s.ledgers|
    ensures Enabled(s, InferenceStep(n, ledger)) ==>
              var (st, pc) := I.InfCall(s.store, s.infPasses[n], s.ledgers[ledger]);
              Apply(s, InferenceStep(n, ledger)) == s.(store := st, infPasses := s.infPasses[n := pc])
  {
    hide T.TrainCall, I.InfCall, ChoiceOk, QueueCall, T.Start, I.Start;
  }

  lemma QueueStepMeans(s: System, after: seq<Entry>)
    ensures Enabled(s, QueueStep(after)) <==> ChoiceOk(s.queuePass, QueueReadsNow(s), after)
    ensures var (pc, written) := QueueCall(s.queuePass, QueueReadsNow(s), after);
            Enabled(s, QueueStep(after)) ==>
              Apply(s, QueueStep(after))
              == if written.None? then s.(queuePass := pc)
                 else s.(queuePass := pc, store := s.store.(used := written.value), ledgers := s.ledgers
                         + [written.value])
  {
    hide T.TrainCall, I.InfCall, ChoiceOk, QueueCall, T.Start, I.Start;
  }

  lemma BeginMeans(s: System, v: TrainJob, w: InferenceJob)
    ensures Enabled(s, BeginTrain(v)) <==> TrainVersion(s, v) && v.name !in s.trainPasses
    ensures Enabled(s, BeginTrain(v)) ==>
              Apply(s, BeginTrain(v)) == s.(trainPasses := s.trainPasses[v.name := T.Start(v)])
    ensures Enabled(s, BeginInference(w)) <==> InferenceVersion(s, w) && w.name !in s.infPasses
    ensures Enabled(s, BeginInference(w)) ==>
              Apply(s, BeginInference(w)) == s.(infPasses := s.infPasses[w.name := I.Start(w)])
  {
    hide T.TrainCall, I.InfCall, ChoiceOk, QueueCall, T.Start, I.Start;
  }

  // ---------------------------------------------------------------- runs

  /** A finite run: it starts empty, and every action was enabled where it was taken. */
  ghost predicate Run(ss: seq<System>, acts: seq<Action>) {
    && |ss| == |acts| + 1
    && Init(ss[0])
    && forall i :: 0 <= i < |acts| ==> Enabled(ss[i], acts[i]) && ss[i + 1] == Apply(ss[i], acts[i])
  }

  /** A pass of a job reconciler begins with the stored version of its own job, not with an older one. */
  predicate Fresh(s: System, a: Action) {
    match a
    case BeginTrain(v) => v.name in s.store.trains && s.store.trains[v.name] == v
    case BeginInference(v) => v.name in s.store.infs && s.store.infs[v.name] == v
    case _ => true
  }

  /** A run in which every pass of a job reconciler begins with the stored version of its own job. */
  ghost predicate FreshRun(ss: seq<System>, acts: seq<Action>) {
    && Run(ss, acts)
    && forall i :: 0 <= i < |acts| ==> Fresh(ss[i], acts[i])
  }

  lemma RunStep(ss: seq<System>, acts: seq<Action>, i: nat)
    requires Run(ss, acts) && i + 1 < |ss|
    ensures i < |acts| && Enabled(ss[i], acts[i]) && ss[i + 1] == Apply(ss[i], acts[i])
  {
  }

  lemma FreshRunIsRun(ss: seq<System>, acts: seq<Action>)
    requires FreshRun(ss, acts)
    ensures Run(ss, acts)
  {
  }

  lemma FreshRunStep(ss: seq<System>, acts: seq<Action>, i: nat)
    requires FreshRun(ss, acts) && i + 1 < |ss|
    ensures i < |acts| && Enabled(ss[i], acts[i]) && Fresh(ss[i], acts[i]) && ss[i + 1] == Apply(ss[i], acts[i])
  {
  }
}
