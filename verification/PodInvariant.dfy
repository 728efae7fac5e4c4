/**
 The inductive invariant of pods and pod groups. It holds in runs whose passes begin with the stored
 version of their own job.
 */
module PodInvariant {
  import opened ClusterTypes
  import opened Names
  import opened QueueAdmission
  import opened Cluster
  import opened LedgerInvariant
  import opened LedgerSteps
  import T = TrainLifecycle
  import I = InferenceLifecycle

  // ---------------------------------------------------------------- pods and pod groups

  /** Pods belong to the latest attempt of their job and to its ranks, and only a started job has pods. */
  ghost predicate WorkersOk(lasts: Trains, workers: T.Workers) {
    forall k :: k in workers ==> k.job in lasts && WorkerOk(lasts[k.job], k, workers[k])
  }

  predicate WorkerOk(j: TrainJob, k: PodKey, pod: WorkerPod) {
    && k.attempt == j.status.attempt
    && k.rank < j.spec.worldSize
    && pod.requests == j.spec.requests
    && (DrivingTrain(j.status.phase) || (j.status.phase == Succeeded && Finished(pod)))
  }

  /** A group of the latest attempt was created in the job's latest epoch, after it was started. */
  ghost predicate GroupsOk(lasts: Trains, groups: map<GroupKey, PodGroup>) {
    forall g :: g in groups ==> groups[g].owner == g.job && g.job in lasts && GroupOk(lasts[g.job], g, groups[g])
  }

  predicate GroupOk(j: TrainJob, g: GroupKey, group: PodGroup) {
    GroupFits(j, g, group)
    && (g.attempt == j.status.attempt && j.status.phase == Preempted ==> group.preemptedBy.Some?)
  }

  predicate GroupFits(j: TrainJob, g: GroupKey, group: PodGroup) {
    && g.attempt <= j.status.attempt
    && (g.attempt == j.status.attempt ==>
          group.epoch == j.status.requeueCount && (HoldingTrain(j.status.phase) || TerminalTrain(j.status.phase)))
  }

  /** An inference pod keeps its job: object, finalizer and a holding phase. */
  ghost predicate ServersOk(infs: Infs, servers: map<string, ServerPod>) {
    forall n :: n in servers ==> n in infs && FINALIZER_KEY in infs[n].finalizers && HoldingInference(infs[n].phase)
  }

  // ---------------------------------------------------------------- passes in flight

  ghost predicate TrainPassesOk(passes: map<string, T.TrainPc>, lasts: Trains, groups: map<GroupKey, PodGroup>,
                                workers: T.Workers)
  {
    forall n :: n in passes ==> TrainPassOk(n, passes[n], lasts, groups, workers)
  }

  /** A pass works on the latest version of its job, also when that has been deleted meanwhile. */
  ghost predicate TrainPassOk(n: string, pc: T.TrainPc, lasts: Trains, groups: map<GroupKey, PodGroup>,
                              workers: T.Workers)
  {
    && !pc.TPanic?
    && (!pc.TDone? ==> n in lasts && lasts[n] == pc.b && TrainPassKnows(pc, groups, workers))
  }

  predicate Marked(groups: map<GroupKey, PodGroup>, b: TrainJob) {
    T.GroupOf(b) in groups ==> groups[T.GroupOf(b)].preemptedBy.Some?
  }

  /** What a pass has learnt by its reads and nobody can undo. */
  ghost predicate TrainPassKnows(pc: T.TrainPc, groups: map<GroupKey, PodGroup>, workers: T.Workers) {
    match pc
    case TGetVictimGroup(b) => Marked(groups, b)
    case TListDrop(b, st) => st.phase == Preempted ==> Marked(groups, b)
    case TDropPod(b, doomed, rest, st) =>
      && (st.phase == Preempted ==> Marked(groups, b))
      && (forall k :: k in T.AttemptPods(workers, b.name, b.status.attempt) ==> k == doomed || k in rest)
    case TWrite(b, st) =>
      && (st.phase == Preempted ==> Marked(groups, b))
      && (T.Emptying(st.phase) ==> T.AttemptPods(workers, b.name, b.status.attempt) == {})
      && (st.phase == Succeeded ==>
            forall k :: k in T.AttemptPods(workers, b.name, b.status.attempt) ==> Finished(workers[k]))
      && (b.status.phase == Preempted ==> T.GroupOf(b) !in groups)
    case _ => true
  }

  ghost predicate InfPassesOk(passes: map<string, I.InfPc>, infs: Infs, servers: map<string, ServerPod>) {
    forall n :: n in passes ==> InfPassOk(n, passes[n], infs, servers)
  }

  ghost predicate InfPassOk(n: string, pc: I.InfPc, infs: Infs, servers: map<string, ServerPod>) {
    !pc.IDone? ==>
      && (n in infs ==> infs[n].phase == pc.b.phase && infs[n].spec == pc.b.spec)
      && (I.Kept(pc.b) ==> n in infs && FINALIZER_KEY in infs[n].finalizers)
      && InfPassKnows(n, pc, servers)
  }

  ghost predicate InfPassKnows(n: string, pc: I.InfPc, servers: map<string, ServerPod>) {
    match pc
    case IUnfinalize(_) => n !in servers
    case IWrite(b, j) => j.phase == InfFailed ==> n !in servers
    case _ => true
  }

  // ---------------------------------------------------------------- all of it

  ghost predicate PodInv(s: System) {
    && WorkersOk(s.lastTrains, s.store.workers)
    && GroupsOk(s.lastTrains, s.store.groups)
    && ServersOk(s.store.infs, s.store.servers)
    && TrainPassesOk(s.trainPasses, s.lastTrains, s.store.groups, s.store.workers)
    && InfPassesOk(s.infPasses, s.store.infs, s.store.servers)
  }

  ghost predicate Inv(s: System) {
    LedgerInv(s) && PodInv(s)
  }

  lemma InitPods(s: System)
    requires Init(s)
    ensures PodInv(s)
  {
  }

  // ---------------------------------------------------------------- users and environment

  lemma NewTrainKeepsPods(lasts: Trains, groups: map<GroupKey, PodGroup>, workers: T.Workers,
                          passes: map<string, T.TrainPc>, n: string, j: TrainJob)
    requires WorkersOk(lasts, workers) && GroupsOk(lasts, groups) && TrainPassesOk(passes, lasts, groups, workers)
    requires n !in lasts
    ensures WorkersOk(lasts[n := j], workers) && GroupsOk(lasts[n := j], groups)
    ensures TrainPassesOk(passes, lasts[n := j], groups, workers)
  {
    forall m | m in passes ensures TrainPassOk(m, passes[m], lasts[n := j], groups, workers) {
      assert TrainPassOk(m, passes[m], lasts, groups, workers);
    }
  }

  lemma NewInferenceKeepsPods(infs: Infs, servers: map<string, ServerPod>, passes: map<string, I.InfPc>,
                              names: set<string>,
                              n: string, j: InferenceJob)
    requires InfsOk(infs, names) && ServersOk(infs, servers) && InfPassesOk(passes, infs, servers)
    requires n !in names && forall m :: m in passes ==> m in names
    ensures ServersOk(infs[n := j], servers) && InfPassesOk(passes, infs[n := j], servers)
  {
    forall m | m in passes ensures InfPassOk(m, passes[m], infs[n := j], servers) {
      assert InfPassOk(m, passes[m], infs, servers);
    }
  }

  lemma PassNames(s: System)
    requires LedgerInv(s)
    ensures InfsOk(s.store.infs, s.infNames) && forall m :: m in s.infPasses ==> m in s.infNames
  {
    hide TrainLedger, LedgerOk, QuotaOk, QueuePassOk, TrainGatesOk, InfGateOk;
  }

  lemma CreateKeepsPods(s: System, a: Action)
    requires Inv(s) && (a.CreateTrain? || a.CreateInference?) && Enabled(s, a)
    ensures PodInv(Apply(s, a))
  {
    PassNames(s);
    hide LedgerInv, InfsOk, WorkersOk, GroupsOk, ServersOk, TrainPassesOk, InfPassesOk, T.TrainCall, I.InfCall,
      QueueCall, ChoiceOk, T.ReadsOk, T.Start, I.Start;
    if a.CreateTrain? {
      NewTrainKeepsPods(s.lastTrains, s.store.groups, s.store.workers, s.trainPasses, a.name,
                        NewTrain(a.name, a.created, a.trainSpec));
    } else {
      NewInferenceKeepsPods(s.store.infs, s.store.servers, s.infPasses, s.infNames, a.name,
                            NewInference(a.name, a.created, a.infSpec, a.finalizers));
    }
  }

  /**
   The API server changes an object's metadata: the job keeps phase and spec and its claim to the
   finalizer, or it disappears without carrying the finalizer.
   */
  predicate Touched(before: Infs, after: Infs, n: string) {
    && Replaced(before, after, n)
    && (n in after ==> (FINALIZER_KEY in after[n].finalizers <==> FINALIZER_KEY in before[n].finalizers))
    && (n !in after ==> FINALIZER_KEY !in before[n].finalizers)
  }

  lemma TouchedKeepsPods(infs: Infs, after: Infs, n: string, servers: map<string, ServerPod>,
                         passes: map<string, I.InfPc>)
    requires Touched(infs, after, n) && ServersOk(infs, servers) && InfPassesOk(passes, infs, servers)
    ensures ServersOk(after, servers) && InfPassesOk(passes, after, servers)
  {
    forall m | m in passes ensures InfPassOk(m, passes[m], after, servers) {
      assert InfPassOk(m, passes[m], infs, servers);
    }
  }

  lemma EditTouches(s: System, a: Action)
    requires LedgerInv(s) && (a.DeleteInference? || a.EditFinalizers?) && Enabled(s, a)
    ensures Touched(s.store.infs, Apply(s, a).store.infs, a.name)
  {
    hide LedgerInv, T.TrainCall, I.InfCall, QueueCall, ChoiceOk, T.Start, I.Start, T.ReadsOk, Latest, NewTrain,
      NewInference, TrainVersion, InferenceVersion;
    NamedInference(s, a.name);
  }

  lemma EditKeepsPods(s: System, a: Action)
    requires Inv(s) && (a.DeleteInference? || a.EditFinalizers?) && Enabled(s, a)
    ensures PodInv(Apply(s, a))
  {
    hide Enabled, Apply, LedgerInv, WorkersOk, GroupsOk, ServersOk, TrainPassesOk, InfPassesOk, Touched, Replaced;
    EditReplaces(s, a);
    EditTouches(s, a);
    TouchedKeepsPods(s.store.infs, Apply(s, a).store.infs, a.name, s.store.servers, s.infPasses);
  }

  /** Worker pods go on or go away; none is added. */
  ghost predicate Advanced(before: T.Workers, after: T.Workers) {
    forall k :: k in after ==> k in before && after[k].requests == before[k].requests
                               && (Finished(before[k]) ==> after[k].phase == before[k].phase)
  }

  lemma AdvancedKeepsTrainPass(n: string, pc: T.TrainPc, lasts: Trains, groups: map<GroupKey, PodGroup>,
                               workers: T.Workers, after: T.Workers)
    requires TrainPassOk(n, pc, lasts, groups, workers) && Advanced(workers, after)
    ensures TrainPassOk(n, pc, lasts, groups, after)
  {
    if !pc.TDone? {
      var b := pc.b;
      assert T.AttemptPods(after, b.name, b.status.attempt) <= T.AttemptPods(workers, b.name, b.status.attempt);
    }
  }

  lemma AdvancedKeepsPods(lasts: Trains, groups: map<GroupKey, PodGroup>, workers: T.Workers, after: T.Workers,
                          passes: map<string, T.TrainPc>)
    requires WorkersOk(lasts, workers) && TrainPassesOk(passes, lasts, groups, workers) && Advanced(workers, after)
    ensures WorkersOk(lasts, after) && TrainPassesOk(passes, lasts, groups, after)
  {
    forall m | m in passes ensures TrainPassOk(m, passes[m], lasts, groups, after) {
      AdvancedKeepsTrainPass(m, passes[m], lasts, groups, workers, after);
    }
  }

  lemma WorkersKeepPods(s: System, a: Action)
    requires PodInv(s) && (a.ChangeWorker? || a.RemoveWorker?) && Enabled(s, a)
    ensures PodInv(Apply(s, a))
  {
    hide WorkersOk, GroupsOk, ServersOk, TrainPassesOk, InfPassesOk, T.TrainCall, I.InfCall, QueueCall, ChoiceOk,
      T.ReadsOk, T.Start, I.Start;
    AdvancedKeepsPods(s.lastTrains, s.store.groups, s.store.workers, Apply(s, a).store.workers, s.trainPasses);
  }

  /** Groups go away, or are marked without taking a mark back. */
  ghost predicate Reported(before: map<GroupKey, PodGroup>, after: map<GroupKey, PodGroup>) {
    forall g :: g in after ==> g in before && after[g].owner == before[g].owner && after[g].epoch == before[g].epoch
                               && (before[g].preemptedBy.Some? ==> after[g].preemptedBy.Some?)
  }

  lemma ReportedKeepsPods(lasts: Trains, groups: map<GroupKey, PodGroup>, after: map<GroupKey, PodGroup>,
                          workers: T.Workers, passes: map<string, T.TrainPc>)
    requires GroupsOk(lasts, groups) && TrainPassesOk(passes, lasts, groups, workers) && Reported(groups, after)
    ensures GroupsOk(lasts, after) && TrainPassesOk(passes, lasts, after, workers)
  {
    forall m | m in passes ensures TrainPassOk(m, passes[m], lasts, after, workers) {
      assert TrainPassOk(m, passes[m], lasts, groups, workers);
    }
  }

  lemma GroupsKeepPods(s: System, a: Action)
    requires PodInv(s) && (a.MarkGroup? || a.RemoveGroup?) && Enabled(s, a)
    ensures PodInv(Apply(s, a))
  {
    hide WorkersOk, GroupsOk, ServersOk, TrainPassesOk, InfPassesOk, T.TrainCall, I.InfCall, QueueCall, ChoiceOk,
      T.ReadsOk, T.Start, I.Start;
    ReportedKeepsPods(s.lastTrains, s.store.groups, Apply(s, a).store.groups, s.store.workers, s.trainPasses);
  }

  lemma FewerServersOk(infs: Infs, servers: map<string, ServerPod>, after: map<string, ServerPod>,
                       passes: map<string, I.InfPc>)
    requires ServersOk(infs, servers) && InfPassesOk(passes, infs, servers)
    requires forall n :: n in after ==> n in servers
    ensures ServersOk(infs, after) && InfPassesOk(passes, infs, after)
  {
    forall m | m in passes ensures InfPassOk(m, passes[m], infs, after) {
      assert InfPassOk(m, passes[m], infs, servers);
    }
  }

  lemma ServersKeepPods(s: System, a: Action)
    requires PodInv(s) && (a.ChangeServer? || a.RemoveServer?) && Enabled(s, a)
    ensures PodInv(Apply(s, a))
  {
    hide WorkersOk, GroupsOk, ServersOk, TrainPassesOk, InfPassesOk, T.TrainCall, I.InfCall, QueueCall, ChoiceOk,
      T.ReadsOk, T.Start, I.Start;
    FewerServersOk(s.store.infs, s.store.servers, Apply(s, a).store.servers, s.infPasses);
  }

  /**
   Deleting a TrainJob, the quota, the classes, the services, the caches and the queue do not touch the pods'
   side.
   */
  ghost predicate SamePodSide(s: System, t: System) {
    && t.store.workers == s.store.workers && t.store.groups == s.store.groups
    && t.store.infs == s.store.infs && t.store.servers == s.store.servers
    && t.lastTrains == s.lastTrains && t.trainPasses == s.trainPasses && t.infPasses == s.infPasses
  }

  lemma OtherActionsSpareThePods(s: System, a: Action)
    requires LedgerInv(s) && Enabled(s, a)
    requires a.DeleteTrain? || a.SetQuota? || a.SetClasses? || a.EditServices? || CacheAction(a) || a.QueueStep?
             || a.EndQueue?
    ensures SamePodSide(s, Apply(s, a))
  {
    if a.QueueStep? {
      hide LedgerInv, Enabled, Apply, QueueCall, ChoiceOk;
      QueueStepMeans(s, a.after);
    } else if a.ReportTrain? || a.SyncTrain? || a.ForgetTrain? {
      hide LedgerInv, Enabled, Apply;
      TrainCacheMoves(s, a);
    } else if a.ReportInference? || a.SyncInference? || a.ForgetInference? {
      hide LedgerInv, Enabled, Apply;
      InfCacheMoves(s, a);
    } else {
      hide LedgerInv, T.TrainCall, I.InfCall, QueueCall, ChoiceOk, T.ReadsOk, T.Start, I.Start;
    }
  }

  // ---------------------------------------------------------------- passes begin and end

  lemma StartedTrainPassOk(n: string, j: TrainJob, lasts: Trains, groups: map<GroupKey, PodGroup>, workers: T.Workers)
    requires n in lasts && lasts[n] == j && j.name == n && GroupsOk(lasts, groups)
    ensures TrainPassOk(n, T.Start(j), lasts, groups, workers)
  {
    assert T.GroupOf(j) in groups ==> GroupOk(j, T.GroupOf(j), groups[T.GroupOf(j)]);
  }

  lemma BeginTrainKeepsPods(s: System, v: TrainJob)
    requires Inv(s) && Enabled(s, BeginTrain(v)) && Fresh(s, BeginTrain(v))
    ensures PodInv(Apply(s, BeginTrain(v)))
  {
    LatestIsStored(s, v.name);
    BeginMeans(s, v, NewInference("", 0, InferenceSpec(0, map[], ""), []));
    StartedTrainPassOk(v.name, v, s.lastTrains, s.store.groups, s.store.workers);
    hide Enabled, Apply, LedgerInv, WorkersOk, GroupsOk, ServersOk, InfPassesOk, TrainPassOk, T.Start;
  }

  lemma StartedInfPassOk(n: string, j: InferenceJob, infs: Infs, servers: map<string, ServerPod>)
    requires n in infs && infs[n] == j && j.name == n
    ensures InfPassOk(n, I.Start(j), infs, servers)
  {
  }

  lemma BeginInferenceKeepsPods(s: System, v: InferenceJob)
    requires PodInv(s) && Enabled(s, BeginInference(v)) && Fresh(s, BeginInference(v))
    ensures PodInv(Apply(s, BeginInference(v)))
  {
    BeginMeans(s, NewTrain("", 0, TrainSpec(0, 0, 0, map[], "")), v);
    StartedInfPassOk(v.name, v, s.store.infs, s.store.servers);
    hide Enabled, Apply, WorkersOk, GroupsOk, ServersOk, TrainPassesOk, InfPassOk, I.Start;
  }

  lemma EndKeepsPods(s: System, a: Action)
    requires PodInv(s) && (a.EndTrain? || a.EndInference?) && Enabled(s, a)
    ensures PodInv(Apply(s, a))
  {
    hide WorkersOk, GroupsOk, ServersOk, TrainPassOk, InfPassOk, T.TrainCall, I.InfCall, QueueCall, ChoiceOk,
      T.ReadsOk, T.Start, I.Start;
  }

  // ---------------------------------------------------------------- a train pass

  /** Whatever call a pass makes short of its status write, it goes on knowing what it must. */
  lemma CallTeaches(s: Store, pc: T.TrainPc, seen: T.Reads)
    requires T.ReadsOk(s, pc, seen) && T.HeadsForMove(pc) && TrainPassKnows(pc, s.groups, s.workers)
    requires !pc.TWrite? && !T.Over(pc)
    requires pc.TListPods? && T.NextPhase(pc.b.spec.worldSize, T.Aggregate(s.workers, seen.items)) == Succeeded
             ==> forall p :: p in T.AttemptPods(s.workers, pc.b.name, pc.b.status.attempt) ==> Finished(s.workers[p])
    ensures var (s', next) := T.TrainCall(s, pc, seen);
            !next.TPanic? && TrainPassKnows(next, s'.groups, s'.workers)
  {
    hide T.TrainCall, TrainPassKnows, T.HeadsForMove, T.ReadsOk, T.Aggregate, T.NextPhase, T.AttemptPods, Finished;
    if pc.TDropPod? {
      DropTeaches(s, pc, seen);
    } else if pc.TListDrop? {
      ListingTeaches(s, pc, seen);
    } else {
      PlainCallTeaches(s, pc, seen);
    }
  }

  lemma DropTeaches(s: Store, pc: T.TrainPc, seen: T.Reads)
    requires T.ReadsOk(s, pc, seen) && T.HeadsForMove(pc) && TrainPassKnows(pc, s.groups, s.workers) && pc.TDropPod?
    ensures var (s', next) := T.TrainCall(s, pc, seen);
            !next.TPanic? && TrainPassKnows(next, s'.groups, s'.workers)
  {
    FewerPods(s.workers, pc.b, pc.doomed, pc.rest);
    DroppingTeaches(pc.b, pc.rest, pc.st, s.groups, s.workers - {pc.doomed});
    hide T.Aggregate, T.Listing, T.AttemptPods, TrainPassKnows;
  }

  lemma ListingTeaches(s: Store, pc: T.TrainPc, seen: T.Reads)
    requires T.ReadsOk(s, pc, seen) && T.HeadsForMove(pc) && TrainPassKnows(pc, s.groups, s.workers) && pc.TListDrop?
    ensures var (s', next) := T.TrainCall(s, pc, seen);
            !next.TPanic? && TrainPassKnows(next, s'.groups, s'.workers)
  {
    ListedPods(s, pc.b, pc.st, seen);
    DroppingTeaches(pc.b, seen.items, pc.st, s.groups, s.workers);
    hide T.Aggregate, T.Listing, T.AttemptPods, TrainPassKnows;
  }

  lemma PlainCallTeaches(s: Store, pc: T.TrainPc, seen: T.Reads)
    requires T.ReadsOk(s, pc, seen) && T.HeadsForMove(pc) && TrainPassKnows(pc, s.groups, s.workers)
    requires !pc.TWrite? && !T.Over(pc) && !pc.TDropPod? && !pc.TListDrop?
    requires pc.TListPods? && T.NextPhase(pc.b.spec.worldSize, T.Aggregate(s.workers, seen.items)) == Succeeded
             ==> forall p :: p in T.AttemptPods(s.workers, pc.b.name, pc.b.status.attempt) ==> Finished(s.workers[p])
    ensures var (s', next) := T.TrainCall(s, pc, seen);
            !next.TPanic? && TrainPassKnows(next, s'.groups, s'.workers)
  {
    hide T.Aggregate, T.Listing, T.AttemptPods, Finished, T.Granted, T.ServiceFor, T.NewGroup, T.NewWorker, T.Moves;
  }

  lemma FewerPods(workers: T.Workers, b: TrainJob, doomed: PodKey, rest: seq<PodKey>)
    requires forall p :: p in T.AttemptPods(workers, b.name, b.status.attempt) ==> p == doomed || p in rest
    ensures forall p :: p in T.AttemptPods(workers - {doomed}, b.name, b.status.attempt) ==> p in rest
  {
    forall p | p in T.AttemptPods(workers - {doomed}, b.name, b.status.attempt) ensures p in rest {
      assert p in T.AttemptPods(workers, b.name, b.status.attempt);
    }
  }

  lemma ListedPods(s: Store, b: TrainJob, st: TrainStatus, seen: T.Reads)
    requires T.ReadsOk(s, T.TListDrop(b, st), seen)
    ensures forall p :: p in T.AttemptPods(s.workers, b.name, b.status.attempt) ==> p in seen.items
  {
  }

  lemma DroppingTeaches(b: TrainJob, items: seq<PodKey>, st: TrainStatus, groups: map<GroupKey, PodGroup>,
                        workers: T.Workers)
    requires DrivingTrain(b.status.phase) && T.Emptying(st.phase)
    requires st.phase == Preempted ==> Marked(groups, b)
    requires forall p :: p in T.AttemptPods(workers, b.name, b.status.attempt) ==> p in items
    ensures TrainPassKnows(T.Dropping(b, items, st), groups, workers)
  {
    if items == [] {
      assert T.AttemptPods(workers, b.name, b.status.attempt) == {};
    } else {
      assert forall p :: p in items ==> p == items[0] || p in items[1..];
    }
  }

  lemma SucceededGangFinished(lasts: Trains, workers: T.Workers, b: TrainJob, items: seq<PodKey>)
    requires WorkersOk(lasts, workers) && b.name in lasts && lasts[b.name] == b && 0 <= b.spec.worldSize
    requires T.Listing(items, T.AttemptPods(workers, b.name, b.status.attempt))
    requires T.NextPhase(b.spec.worldSize, T.Aggregate(workers, items)) == Succeeded
    ensures forall k :: k in T.AttemptPods(workers, b.name, b.status.attempt) ==> Finished(workers[k])
  {
    T.GangPhase(workers, b.name, b.status.attempt, b.spec.worldSize, items);
    forall k | k in T.AttemptPods(workers, b.name, b.status.attempt) ensures Finished(workers[k]) {
      assert WorkerOk(b, k, workers[k]);
      assert T.RankIs(workers, PodKey(b.name, b.status.attempt, k.rank), PodSucceeded);
    }
  }

  /** A pass short of its status write keeps what it knows, and puts pods and groups only where they belong. */
  lemma CallKeepsOwn(s: Store, n: string, pc: T.TrainPc, seen: T.Reads, lasts: Trains)
    requires T.ReadsOk(s, pc, seen) && !pc.TWrite? && !T.Over(pc)
    requires pc.b.name == n && T.HeadsForMove(pc) && TrainPassOk(n, pc, lasts, s.groups, s.workers)
    requires WorkersOk(lasts, s.workers) && GroupsOk(lasts, s.groups) && 0 <= pc.b.spec.worldSize
    ensures var (t, next) := T.TrainCall(s, pc, seen);
            TrainPassOk(n, next, lasts, t.groups, t.workers) && WorkersOk(lasts, t.workers) && GroupsOk(lasts, t.groups)
  {
    hide T.TrainCall, T.Aggregate, T.HeadsForMove, WorkersOk, GroupsOk, TrainPassKnows;
    if pc.TListPods? && T.NextPhase(pc.b.spec.worldSize, T.Aggregate(s.workers, seen.items)) == Succeeded {
      SucceededGangFinished(lasts, s.workers, pc.b, seen.items);
    }
    T.CallHeadsForMove(s, pc, seen);
    CallTeaches(s, pc, seen);
    CallPutsPodsRight(s, n, pc, seen, lasts);
  }

  /** A pass adds a group or a pod only where the invariant wants it. */
  lemma NewGroupOk(b: TrainJob, lasts: Trains, groups: map<GroupKey, PodGroup>, group: PodGroup)
    requires GroupsOk(lasts, groups) && DrivingTrain(b.status.phase) && b.name in lasts && lasts[b.name] == b
    requires group.owner == b.name && group.epoch == b.status.requeueCount
    ensures GroupsOk(lasts, groups[T.GroupOf(b) := group])
  {
  }

  lemma NewWorkerOk(b: TrainJob, lasts: Trains, workers: T.Workers, rank: nat)
    requires WorkersOk(lasts, workers) && DrivingTrain(b.status.phase) && b.name in lasts && lasts[b.name] == b
    requires rank < b.spec.worldSize
    ensures WorkersOk(lasts, workers[PodKey(b.name, b.status.attempt, rank) := T.NewWorker(b)])
  {
  }

  lemma ClearedGroupOk(b: TrainJob, lasts: Trains, groups: map<GroupKey, PodGroup>)
    requires GroupsOk(lasts, groups) && T.GroupOf(b) in groups
    ensures GroupsOk(lasts, groups[T.GroupOf(b) := groups[T.GroupOf(b)].(detail := 0)])
  {
  }

  lemma CallPutsPodsRight(s: Store, n: string, pc: T.TrainPc, seen: T.Reads, lasts: Trains)
    requires T.ReadsOk(s, pc, seen) && !pc.TWrite? && !T.Over(pc)
    requires pc.b.name == n && T.HeadsForMove(pc) && n in lasts && lasts[n] == pc.b
    requires WorkersOk(lasts, s.workers) && GroupsOk(lasts, s.groups)
    ensures var t := T.TrainCall(s, pc, seen).0; WorkersOk(lasts, t.workers) && GroupsOk(lasts, t.groups)
  {
    hide T.TrainCall, T.HeadsForMove, T.ReadsOk, WorkersOk, GroupsOk;
    CallPutsWorkersRight(s, pc, seen, lasts);
    CallPutsGroupsRight(s, pc, seen, lasts);
  }

  lemma CallPutsWorkersRight(s: Store, pc: T.TrainPc, seen: T.Reads, lasts: Trains)
    requires T.ReadsOk(s, pc, seen) && !T.Over(pc)
    requires T.HeadsForMove(pc) && pc.b.name in lasts && lasts[pc.b.name] == pc.b && WorkersOk(lasts, s.workers)
    ensures WorkersOk(lasts, T.TrainCall(s, pc, seen).0.workers)
  {
    hide T.Aggregate, T.OnGroup, T.OnSummary, T.Granted, T.Listing, T.Moves, T.AtRank, T.PreemptorGone, T.Dropping,
      T.ServiceFor, T.NewWorker, T.NewGroup, WorkerOk;
    if pc.TCreatePod? {
      NewWorkerOk(pc.b, lasts, s.workers, pc.rank);
    }
  }

  lemma CallPutsGroupsRight(s: Store, pc: T.TrainPc, seen: T.Reads, lasts: Trains)
    requires T.ReadsOk(s, pc, seen) && !T.Over(pc)
    requires T.HeadsForMove(pc) && pc.b.name in lasts && lasts[pc.b.name] == pc.b && GroupsOk(lasts, s.groups)
    ensures GroupsOk(lasts, T.TrainCall(s, pc, seen).0.groups)
  {
    hide T.Aggregate, T.OnGroup, T.OnSummary, T.Granted, T.Listing, T.Moves, T.AtRank, T.PreemptorGone, T.Dropping,
      T.ServiceFor, T.NewWorker, GroupOk;
    if pc.TCreateGroup? {
      NewGroupOk(pc.b, lasts, s.groups, T.NewGroup(pc.b));
    } else if pc.TClearDetail? && T.GroupOf(pc.b) in s.groups && s.groups[T.GroupOf(pc.b)] == pc.g {
      ClearedGroupOk(pc.b, lasts, s.groups);
    }
  }

  /** From `s` to `t` only the job `n` and its service, pods and groups change; the job neither comes nor goes. */
  ghost predicate OwnObjects(s: Store, t: Store, n: string) {
    && t == s.(trains := t.trains, services := t.services, groups := t.groups, workers := t.workers)
    && t.trains.Keys == s.trains.Keys
    && (forall m :: m in t.trains ==> m == n || t.trains[m] == s.trains[m])
    && (forall m :: m != n ==> (m in t.services <==> m in s.services)
                               && (m in t.services ==> t.services[m] == s.services[m]))
    && (forall k: PodKey :: k in t.workers ==> k.job == n || (k in s.workers && t.workers[k] == s.workers[k]))
    && (forall g: GroupKey :: g in t.groups ==> g.job == n || (g in s.groups && t.groups[g] == s.groups[g]))
    && (forall g: GroupKey :: g in s.groups ==> g.job == n || g in t.groups)
  }

  lemma CallTouchesOwnObjects(s: Store, n: string, pc: T.TrainPc, seen: T.Reads)
    requires T.ReadsOk(s, pc, seen)
    requires !T.Over(pc) ==> pc.b.name == n
    ensures OwnObjects(s, T.TrainCall(s, pc, seen).0, n)
    ensures !pc.TWrite? ==> T.TrainCall(s, pc, seen).0.trains == s.trains
  {
    hide T.TrainCall, T.ReadsOk;
    T.CallWrites(s, pc, seen);
    CallTouchesOwnJob(s, n, pc, seen);
    CallTouchesOwnService(s, n, pc, seen);
    CallTouchesOwnPods(s, n, pc, seen);
    CallTouchesOwnGroup(s, n, pc, seen);
  }

  lemma CallTouchesOwnJob(s: Store, n: string, pc: T.TrainPc, seen: T.Reads)
    requires T.ReadsOk(s, pc, seen)
    requires !T.Over(pc) ==> pc.b.name == n
    ensures var t := T.TrainCall(s, pc, seen).0;
            && (!pc.TWrite? ==> t.trains == s.trains)
            && t.trains.Keys == s.trains.Keys && (forall m :: m in t.trains ==> m == n || t.trains[m] == s.trains[m])
  {
    hide T.TrainCall, T.ReadsOk;
    CallChangesTrains(s, pc, seen);
  }

  lemma CallTouchesOwnService(s: Store, n: string, pc: T.TrainPc, seen: T.Reads)
    requires T.ReadsOk(s, pc, seen)
    requires !T.Over(pc) ==> pc.b.name == n
    ensures var t := T.TrainCall(s, pc, seen).0;
            forall m :: m != n ==> (m in t.services <==> m in s.services)
                                   && (m in t.services ==> t.services[m] == s.services[m])
  {
    hide T.Aggregate, T.Listing, T.Granted, T.AttemptPods, T.PreemptorGone, T.OnGroup, T.OnSummary, T.AtRank,
      T.Dropping, T.ServiceFor, T.NewGroup, T.NewWorker, T.Requeued;
  }

  lemma CallTouchesOwnPods(s: Store, n: string, pc: T.TrainPc, seen: T.Reads)
    requires T.ReadsOk(s, pc, seen)
    requires !T.Over(pc) ==> pc.b.name == n
    ensures var t := T.TrainCall(s, pc, seen).0;
            forall k: PodKey :: k in t.workers ==> k.job == n || (k in s.workers && t.workers[k] == s.workers[k])
  {
    hide T.Aggregate, T.Listing, T.Granted, T.AttemptPods, T.PreemptorGone, T.OnGroup, T.OnSummary, T.AtRank,
      T.Dropping, T.ServiceFor, T.NewGroup, T.NewWorker, T.Requeued;
  }

  lemma CallTouchesOwnGroup(s: Store, n: string, pc: T.TrainPc, seen: T.Reads)
    requires T.ReadsOk(s, pc, seen)
    requires !T.Over(pc) ==> pc.b.name == n
    ensures var t := T.TrainCall(s, pc, seen).0;
            && (forall g: GroupKey :: g in t.groups ==> g.job == n || (g in s.groups && t.groups[g] == s.groups[g]))
            && (forall g: GroupKey :: g in s.groups ==> g.job == n || g in t.groups)
  {
    hide T.Aggregate, T.Listing, T.Granted, T.AttemptPods, T.PreemptorGone, T.OnGroup, T.OnSummary, T.AtRank,
      T.Dropping, T.ServiceFor, T.NewGroup, T.NewWorker, T.Requeued;
  }

  /** The passes of other jobs do not notice what one pass does to its own objects. */
  lemma OthersUnaffected(passes: map<string, T.TrainPc>, s: Store, t: Store, lasts: Trains, latest: Trains, n: string,
                         pc: T.TrainPc)
    requires TrainPassesOk(passes, lasts, s.groups, s.workers) && OwnObjects(s, t, n)
    requires TrainPassOk(n, pc, latest, t.groups, t.workers)
    requires forall m :: m in passes && !T.Over(passes[m]) ==> passes[m].b.name == m
    requires forall m :: m != n && m in lasts ==> m in latest && latest[m] == lasts[m]
    ensures TrainPassesOk(passes[n := pc], latest, t.groups, t.workers)
  {
    forall m | m in passes && m != n ensures TrainPassOk(m, passes[m], latest, t.groups, t.workers) {
      assert TrainPassOk(m, passes[m], lasts, s.groups, s.workers);
    }
  }

  lemma PassesAreNamed(s: System)
    requires LedgerInv(s)
    ensures forall m :: m in s.trainPasses && !T.Over(s.trainPasses[m]) ==> s.trainPasses[m].b.name == m
    ensures forall m :: m in s.infPasses && !s.infPasses[m].IDone? ==> s.infPasses[m].b.name == m
  {
    forall m | m in s.trainPasses && !T.Over(s.trainPasses[m]) ensures s.trainPasses[m].b.name == m {
      assert TrainGateOk(m, s.trainPasses[m], s.ledgers);
    }
    forall m | m in s.infPasses && !s.infPasses[m].IDone? ensures s.infPasses[m].b.name == m {
      assert InfGateOk(m, s.infPasses[m], s.ledgers);
    }
    hide TrainLedger, InfLedger, LedgerOk, QuotaOk, QueuePassOk, T.HeadsForMove, I.HeadsForMove;
  }

  /** What a pass in flight stands on. */
  lemma PassStands(s: System, n: string)
    requires Inv(s) && n in s.trainPasses
    ensures TrainPassOk(n, s.trainPasses[n], s.lastTrains, s.store.groups, s.store.workers)
    ensures var pc := s.trainPasses[n];
            !T.Over(pc) ==> pc.b.name == n && T.HeadsForMove(pc) && n in s.lastTrains && s.lastTrains[n] == pc.b
                            && 0 <= pc.b.spec.worldSize
  {
    GateOf(s, n);
    LatestIsStored(s, n);
    hide LedgerInv, WorkersOk, GroupsOk, ServersOk, InfPassesOk, T.HeadsForMove, TrainPassKnows;
  }

  lemma CallKeepsPods(s: System, n: string, items: seq<PodKey>, ledger: nat)
    requires Inv(s) && Enabled(s, TrainStep(n, items, ledger)) && !s.trainPasses[n].TWrite?
    ensures PodInv(Apply(s, TrainStep(n, items, ledger)))
  {
    TrainStepMeans(s, n, items, ledger);
    var pc, seen := s.trainPasses[n], TrainReads(s, items, ledger);
    hide Enabled, Apply, LedgerInv, WorkersOk, GroupsOk, ServersOk, TrainPassesOk, InfPassesOk, T.TrainCall,
      T.ReadsOk, TrainPassOk, T.HeadsForMove, OwnObjects;
    PassStands(s, n);
    PassesAreNamed(s);
    TrainStepChanges(s, n, items, ledger);
    CallTouchesOwnObjects(s.store, n, pc, seen);
    var (t, next) := T.TrainCall(s.store, pc, seen);
    if T.Over(pc) {
      OverStays(s.store, n, pc, seen, s.lastTrains);
    } else {
      CallKeepsOwn(s.store, n, pc, seen, s.lastTrains);
    }
    OthersUnaffected(s.trainPasses, s.store, t, s.lastTrains, s.lastTrains, n, next);
  }

  lemma OverStays(s: Store, n: string, pc: T.TrainPc, seen: T.Reads, lasts: Trains)
    requires T.ReadsOk(s, pc, seen) && T.Over(pc) && TrainPassOk(n, pc, lasts, s.groups, s.workers)
    ensures T.TrainCall(s, pc, seen) == (s, pc)
  {
  }

  // ---------------------------------------------------------------- the status write of a train pass

  lemma WritePutsPodsRight(lasts: Trains, workers: T.Workers, groups: map<GroupKey, PodGroup>, b: TrainJob,
                           st: TrainStatus)
    requires WorkersOk(lasts, workers) && GroupsOk(lasts, groups)
    requires b.name in lasts && lasts[b.name] == b && T.Moves(b, st)
    requires TrainPassKnows(T.TWrite(b, st), groups, workers)
    ensures WorkersOk(lasts[b.name := b.(status := st)], workers)
    ensures GroupsOk(lasts[b.name := b.(status := st)], groups)
  {
    var j := b.(status := st);
    forall k | k in workers && k.job == b.name ensures WorkerOk(j, k, workers[k]) {
      assert WorkerOk(b, k, workers[k]);
      assert k in T.AttemptPods(workers, b.name, b.status.attempt);
    }
    forall g | g in groups && g.job == b.name ensures GroupOk(j, g, groups[g]) {
      assert GroupOk(b, g, groups[g]);
      assert g.attempt == b.status.attempt ==> g == T.GroupOf(b);
    }
  }

  lemma WriteCallKeepsPods(s: System, n: string, items: seq<PodKey>, ledger: nat)
    requires Inv(s) && Enabled(s, TrainStep(n, items, ledger)) && s.trainPasses[n].TWrite?
    ensures PodInv(Apply(s, TrainStep(n, items, ledger)))
  {
    hide Enabled, Apply, LedgerInv, WorkersOk, GroupsOk, ServersOk, TrainPassesOk, InfPassesOk, T.ReadsOk,
      OwnObjects, TrainPassKnows, T.HeadsForMove, T.Moves, T.TrainCall;
    TrainStepMeans(s, n, items, ledger);
    var pc, seen := s.trainPasses[n], TrainReads(s, items, ledger);
    var b, st, after := pc.b, pc.st, Apply(s, TrainStep(n, items, ledger));
    PassStands(s, n);
    PassesAreNamed(s);
    T.WriteIsMove(pc);
    TrainStepChanges(s, n, items, ledger);
    CallTouchesOwnObjects(s.store, n, pc, seen);
    WriteLeavesPods(s.store, pc, seen);
    if after.lastTrains != s.lastTrains {
      WritePutsPodsRight(s.lastTrains, s.store.workers, s.store.groups, b, st);
    }
    OthersUnaffected(s.trainPasses, s.store, after.store, s.lastTrains, after.lastTrains, n, T.TDone);
  }

  lemma TrainStepKeepsPods(s: System, n: string, items: seq<PodKey>, ledger: nat)
    requires Inv(s) && Enabled(s, TrainStep(n, items, ledger))
    ensures PodInv(Apply(s, TrainStep(n, items, ledger)))
  {
    hide Inv, PodInv, Enabled, Apply, T.ReadsOk;
    TrainStepMeans(s, n, items, ledger);
    if s.trainPasses[n].TWrite? {
      WriteCallKeepsPods(s, n, items, ledger);
    } else {
      CallKeepsPods(s, n, items, ledger);
    }
  }

  lemma WriteLeavesPods(s: Store, pc: T.TrainPc, seen: T.Reads)
    requires T.ReadsOk(s, pc, seen) && pc.TWrite?
    ensures var (t, next) := T.TrainCall(s, pc, seen); t.workers == s.workers && t.groups == s.groups && next == T.TDone
  {
  }

  // ---------------------------------------------------------------- an inference pass

  /** From `s` to `t` only the inference job and the inference pod named `n` change. */
  ghost predicate OwnServer(s: Store, t: Store, n: string) {
    && t == s.(infs := t.infs, servers := t.servers)
    && (forall m :: m != n ==> (m in t.infs <==> m in s.infs))
    && (forall m :: m != n && m in t.infs ==> t.infs[m] == s.infs[m])
    && (forall m :: m != n && m in t.servers ==> m in s.servers)
  }

  lemma OtherInfPassesUnaffected(passes: map<string, I.InfPc>, s: Store, t: Store, n: string, pc: I.InfPc)
    requires InfPassesOk(passes, s.infs, s.servers) && OwnServer(s, t, n)
    requires InfPassOk(n, pc, t.infs, t.servers)
    ensures InfPassesOk(passes[n := pc], t.infs, t.servers)
  {
    forall m | m in passes && m != n ensures InfPassOk(m, passes[m], t.infs, t.servers) {
      assert InfPassOk(m, passes[m], s.infs, s.servers);
    }
  }

  lemma InfCallTouchesOwn(s: Store, n: string, pc: I.InfPc, ledger: seq<Entry>)
    requires pc.IDone? || (pc.b.name == n && I.HeadsForMove(pc))
    ensures OwnServer(s, I.InfCall(s, pc, ledger).0, n)
  {
    hide I.Observed, I.Admitted, I.Without;
  }

  lemma InfCallKnows(s: Store, n: string, pc: I.InfPc, ledger: seq<Entry>)
    requires pc.IDone? || (pc.b.name == n && I.HeadsForMove(pc))
    requires InfPassOk(n, pc, s.infs, s.servers)
    ensures var (t, next) := I.InfCall(s, pc, ledger); InfPassOk(n, next, t.infs, t.servers)
  {
    I.CallHeadsForMove(s, pc, ledger);
    hide I.Observed, I.Without, I.Admitted;
  }

  /** Whatever an inference pass does, every pod keeps its holding job. */
  lemma InfCallKeepsServers(s: Store, n: string, pc: I.InfPc, ledger: seq<Entry>)
    requires pc.IDone? || (pc.b.name == n && I.HeadsForMove(pc))
    requires InfPassOk(n, pc, s.infs, s.servers) && ServersOk(s.infs, s.servers)
    ensures ServersOk(I.InfCall(s, pc, ledger).0.infs, I.InfCall(s, pc, ledger).0.servers)
  {
    if pc.IUnfinalize? || pc.IFinalize? {
      I.WithoutMembers(pc.b.finalizers, FINALIZER_KEY);
    }
    hide I.Observed, I.Without, I.Admitted;
  }

  lemma InfPassStands(s: System, n: string)
    requires Inv(s) && n in s.infPasses
    ensures InfPassOk(n, s.infPasses[n], s.store.infs, s.store.servers)
    ensures var pc := s.infPasses[n]; pc.IDone? || (pc.b.name == n && I.HeadsForMove(pc))
  {
    InfGateOf(s, n);
    hide LedgerInv, WorkersOk, GroupsOk, ServersOk, TrainPassesOk, I.HeadsForMove, InfPassKnows;
  }

  lemma InferenceStepKeepsPods(s: System, n: string, ledger: nat)
    requires Inv(s) && Enabled(s, InferenceStep(n, ledger))
    ensures PodInv(Apply(s, InferenceStep(n, ledger)))
  {
    InferenceStepMeans(s, n, ledger);
    var pc := s.infPasses[n];
    hide Enabled, Apply, LedgerInv, WorkersOk, GroupsOk, ServersOk, TrainPassesOk, InfPassesOk, InfPassOk, I.InfCall,
      I.HeadsForMove, OwnServer;
    InfPassStands(s, n);
    var (t, next) := I.InfCall(s.store, pc, s.ledgers[ledger]);
    I.CallWrites(s.store, pc, s.ledgers[ledger]);
    InfCallTouchesOwn(s.store, n, pc, s.ledgers[ledger]);
    InfCallKnows(s.store, n, pc, s.ledgers[ledger]);
    InfCallKeepsServers(s.store, n, pc, s.ledgers[ledger]);
    OtherInfPassesUnaffected(s.infPasses, s.store, t, n, next);
  }

  // ---------------------------------------------------------------- every step, every run

  lemma SameSideKeepsPods(s: System, t: System)
    requires PodInv(s) && SamePodSide(s, t)
    ensures PodInv(t)
  {
  }

  lemma StepKeepsPods(s: System, a: Action)
    requires Inv(s) && Enabled(s, a) && Fresh(s, a)
    ensures PodInv(Apply(s, a))
  {
    hide LedgerInv, PodInv, Enabled, Apply, Fresh;
    match a
    case CreateTrain(_, _, _) => CreateKeepsPods(s, a);
    case CreateInference(_, _, _, _) => CreateKeepsPods(s, a);
    case DeleteInference(_) => EditKeepsPods(s, a);
    case EditFinalizers(_, _) => EditKeepsPods(s, a);
    case ChangeWorker(_, _) => WorkersKeepPods(s, a);
    case RemoveWorker(_) => WorkersKeepPods(s, a);
    case MarkGroup(_, _) => GroupsKeepPods(s, a);
    case RemoveGroup(_) => GroupsKeepPods(s, a);
    case ChangeServer(_, _) => ServersKeepPods(s, a);
    case RemoveServer(_) => ServersKeepPods(s, a);
    case BeginTrain(v) => BeginTrainKeepsPods(s, v);
    case TrainStep(n, items, ledger) => TrainStepKeepsPods(s, n, items, ledger);
    case EndTrain(_) => EndKeepsPods(s, a);
    case BeginInference(v) => BeginInferenceKeepsPods(s, v);
    case InferenceStep(n, ledger) => InferenceStepKeepsPods(s, n, ledger);
    case EndInference(_) => EndKeepsPods(s, a);
    case _ =>
      OtherActionsSpareThePods(s, a);
      SameSideKeepsPods(s, Apply(s, a));
  }

  lemma StepKeepsInv(s: System, a: Action)
    requires Inv(s) && Enabled(s, a) && Fresh(s, a)
    ensures Inv(Apply(s, a))
  {
    hide LedgerInv, PodInv, Enabled, Apply, Fresh;
    StepKeepsLedger(s, a);
    StepKeepsPods(s, a);
  }

  /** The invariant holds all along every run whose passes begin with stored versions. */
  lemma {:induction false} RunInv(ss: seq<System>, acts: seq<Action>, i: nat)
    requires FreshRun(ss, acts) && i < |ss|
    ensures Inv(ss[i])
    decreases i
  {
    hide LedgerInv, PodInv, Enabled, Apply, Fresh;
    if i == 0 {
      InitLedger(ss[0]);
      InitPods(ss[0]);
    } else {
      RunInv(ss, acts, i - 1);
      FreshRunStep(ss, acts, i - 1);
      StepKeepsInv(ss[i - 1], acts[i - 1]);
    }
  }
}
