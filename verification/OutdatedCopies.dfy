/**
 What happens when a pass begins with an outdated copy of its own job: exactly which copies make pods,
 and exactly which ones panic. The copy may be any job at all, and the store may have moved on in any way.
 */
module OutdatedCopies {
  import opened ClusterTypes
  import opened QueueAdmission
  import opened Cluster
  import opened LedgerInvariant
  import opened LedgerSteps
  import opened PassEffects
  import T = TrainLifecycle
  import I = InferenceLifecycle
  import E = InferenceEffects
  import W = Wakeups

  // ---------------------------------------------------------------- train copies that make pods

  /** Some rank of the copy's attempt has no pod. */
  ghost predicate SomeRankMissing(s: T.Workers, b: TrainJob) {
    exists r: nat :: r < b.spec.worldSize && PodKey(b.name, b.status.attempt, r) !in s
  }

  /** After this many calls a pass that began with the copy `b` has made the pod `k`. */
  ghost predicate MadeBy(s: Store, b: TrainJob, order: T.Order, calls: nat, k: PodKey)
    requires T.OrderOk(order)
  {
    k !in s.workers && k in T.RunTrain(s, T.Start(b), calls, order).0.workers
  }

  ghost predicate MakesPods(s: Store, b: TrainJob, order: T.Order)
    requires T.OrderOk(order)
  {
    exists calls: nat, k :: MadeBy(s, b, order, calls, k)
  }

  /** The pass is at the service or reads the group. */
  predicate AtGate(pc: T.TrainPc) {
    pc.TGetService? || pc.TCreateService? || pc.TUpdateService? || pc.TGetGroup?
  }

  predicate AtRanks(pc: T.TrainPc) {
    pc.TCreateGroup? || pc.TClearDetail? || pc.TGetPod? || pc.TCreatePod?
  }

  /** From here on the pass makes no pod. */
  ghost predicate Barren(s: Store, pc: T.TrainPc, b: TrainJob) {
    || (!AtGate(pc) && !AtRanks(pc))
    || (AtGate(pc) && pc.b == b && !Undisturbed(s, b))
    || (pc.b == b && !SomeRankMissing(s.workers, b) && (pc.TGetPod? || pc.TCreatePod? ==> pc.rank < b.spec.worldSize))
  }

  lemma BarrenCall(s: Store, pc: T.TrainPc, seen: T.Reads, b: TrainJob)
    requires T.ReadsOk(s, pc, seen) && Barren(s, pc, b)
    ensures var (t, next) := T.TrainCall(s, pc, seen); t.workers.Keys <= s.workers.Keys && Barren(t, next, b)
  {
    hide T.TrainCall, T.ReadsOk, Barren, T.Listing;
    if AtRanks(pc) {
      RankIsThere(s, pc, b);
      BarrenAtRanks(s, pc, seen, b);
    } else {
      BarrenElsewhere(s, pc, seen, b);
    }
  }

  lemma BarrenAtRanks(s: Store, pc: T.TrainPc, seen: T.Reads, b: TrainJob)
    requires T.ReadsOk(s, pc, seen) && Barren(s, pc, b) && AtRanks(pc) && !SomeRankMissing(s.workers, b)
    requires pc.TGetPod? || pc.TCreatePod? ==> PodKey(b.name, b.status.attempt, pc.rank) in s.workers
    ensures var (t, next) := T.TrainCall(s, pc, seen); t.workers.Keys <= s.workers.Keys && Barren(t, next, b)
  {
    hide T.Aggregate, T.Listing, T.Granted, T.AttemptPods, T.PreemptorGone, T.NextPhase, T.ShouldRetry, T.ServiceFor,
      T.NewGroup, T.NewWorker, T.AfterFailedPod, T.WithWorkerStatus, SomeRankMissing, T.OnGroup, T.OnSummary;
  }

  lemma BarrenElsewhere(s: Store, pc: T.TrainPc, seen: T.Reads, b: TrainJob)
    requires T.ReadsOk(s, pc, seen) && Barren(s, pc, b) && !AtRanks(pc)
    ensures var (t, next) := T.TrainCall(s, pc, seen); t.workers.Keys <= s.workers.Keys && Barren(t, next, b)
  {
    hide T.Aggregate, T.Listing, T.Granted, T.AttemptPods, T.PreemptorGone, T.NextPhase, T.ShouldRetry, T.ServiceFor,
      T.NewGroup, T.NewWorker, T.AfterFailedPod, T.WithWorkerStatus, SomeRankMissing, T.Requeued;
  }

  lemma RankIsThere(s: Store, pc: T.TrainPc, b: TrainJob)
    requires AtRanks(pc) && Barren(s, pc, b)
    ensures !SomeRankMissing(s.workers, b)
    ensures pc.TGetPod? || pc.TCreatePod? ==> PodKey(b.name, b.status.attempt, pc.rank) in s.workers
  {
  }

  lemma {:induction false} BarrenRun(s: Store, pc: T.TrainPc, b: TrainJob, calls: nat, order: T.Order)
    requires T.OrderOk(order) && Barren(s, pc, b)
    ensures T.RunTrain(s, pc, calls, order).0.workers.Keys <= s.workers.Keys
    decreases calls
  {
    hide T.TrainCall, Barren;
    if calls > 0 && !T.Over(pc) {
      var seen := T.ReadsIn(s, pc, order);
      var (t, next) := T.TrainCall(s, pc, seen);
      BarrenCall(s, pc, seen, b);
      BarrenRun(t, next, b, calls - 1, order);
    }
  }

  lemma BarrenStart(s: Store, b: TrainJob)
    requires !(DrivingTrain(b.status.phase) && Undisturbed(s, b) && SomeRankMissing(s.workers, b))
    ensures Barren(s, T.Start(b), b)
  {
    hide Undisturbed, SomeRankMissing;
  }

  /**
   Exactly which copies make pods, whatever the stored job has become: those in a phase that drives
   pods, whose group neither failed (Starting) nor is marked (Running), and some of whose ranks has no pod.
   */
  lemma CopyMakesPodsExactly(s: Store, b: TrainJob, order: T.Order)
    requires T.OrderOk(order)
    ensures MakesPods(s, b, order)
            <==> DrivingTrain(b.status.phase) && Undisturbed(s, b) && SomeRankMissing(s.workers, b)
  {
    if DrivingTrain(b.status.phase) && Undisturbed(s, b) && SomeRankMissing(s.workers, b) {
      var r: nat :| r < b.spec.worldSize && PodKey(b.name, b.status.attempt, r) !in s.workers;
      var t, used := GangRun(s, b, order);
      GoesOn(s, T.Start(b), t, T.TListPods(b), used, used, order);
      assert MadeBy(s, b, order, used, PodKey(b.name, b.status.attempt, r));
    } else {
      BarrenStart(s, b);
      forall calls: nat, k ensures !MadeBy(s, b, order, calls, k) {
        BarrenRun(s, T.Start(b), b, calls, order);
      }
    }
    hide T.RunTrain, Reaches, Undisturbed, Barren, T.Start;
  }

  /** In every run a pod appears only by a pass whose copy drives; so for a job that does not, the copy is outdated. */
  lemma PodsAppearByDrivingCopies(s: System, a: Action, k: PodKey)
    requires LedgerInv(s) && Enabled(s, a) && k !in s.store.workers && k in Apply(s, a).store.workers
    ensures a.TrainStep? && a.name == k.job && a.name in s.trainPasses && s.trainPasses[a.name].TCreatePod?
    ensures var b := s.trainPasses[a.name].b;
            && DrivingTrain(b.status.phase) && k.attempt == b.status.attempt && k.rank < b.spec.worldSize
            && (k.job in s.store.trains && !DrivingTrain(s.store.trains[k.job].status.phase)
                ==> s.store.trains[k.job] != b)
  {
    if a.TrainStep? {
      hide LedgerInv, Enabled, Apply, T.TrainCall, T.ReadsOk, T.HeadsForMove;
      TrainStepMeans(s, a.name, a.items, a.ledger);
      GateOf(s, a.name);
      CallMakesPod(s.store, s.trainPasses[a.name], TrainReads(s, a.items, a.ledger), k);
    } else {
      hide LedgerInv, Enabled, Apply;
      OthersMakeNoPod(s, a);
      assert false;
    }
  }

  lemma CallMakesPod(s: Store, pc: T.TrainPc, seen: T.Reads, k: PodKey)
    requires T.ReadsOk(s, pc, seen) && (!T.Over(pc) ==> T.HeadsForMove(pc))
    requires k !in s.workers && k in T.TrainCall(s, pc, seen).0.workers
    ensures pc.TCreatePod? && k == PodKey(pc.b.name, pc.b.status.attempt, pc.rank)
    ensures DrivingTrain(pc.b.status.phase) && pc.rank < pc.b.spec.worldSize
  {
    hide T.Aggregate, T.Listing, T.Granted, T.AttemptPods, T.PreemptorGone, T.ServiceFor, T.NewGroup, T.OnGroup,
      T.OnSummary;
  }

  lemma OthersMakeNoPod(s: System, a: Action)
    requires Enabled(s, a) && !a.TrainStep?
    ensures Apply(s, a).store.workers.Keys <= s.store.workers.Keys
  {
    if a.InferenceStep? {
      hide Enabled, Apply, I.InfCall;
      InferenceStepMeans(s, a.name, a.ledger);
      I.CallWrites(s.store, s.infPasses[a.name], s.ledgers[a.ledger]);
    } else if a.QueueStep? {
      hide Enabled, Apply, QueueCall, ChoiceOk;
      QueueStepMeans(s, a.after);
    } else {
      hide Enabled, Apply;
      WorkersLeftAlone(s, a);
    }
  }

  lemma WorkersLeftAlone(s: System, a: Action)
    requires Enabled(s, a) && !a.InferenceStep? && !a.QueueStep? && !a.TrainStep?
    ensures Apply(s, a).store.workers == s.store.workers
            || (a.RemoveWorker? && Apply(s, a).store.workers == s.store.workers - {a.pod})
            || (a.ChangeWorker? && a.pod in s.store.workers
                && Apply(s, a).store.workers == s.store.workers[a.pod := a.now])
  {
    hide T.TrainCall, I.InfCall, QueueCall, ChoiceOk, T.ReadsOk, T.Start, I.Start, Latest, I.Stored, NewTrain,
      NewInference;
  }

  // ---------------------------------------------------------------- train copies that make a group

  /** After this many calls a pass that began with the copy `b` has made the group `g`. */
  ghost predicate GroupMadeBy(s: Store, b: TrainJob, order: T.Order, calls: nat, g: GroupKey)
    requires T.OrderOk(order)
  {
    g !in s.groups && g in T.RunTrain(s, T.Start(b), calls, order).0.groups
  }

  ghost predicate MakesGroup(s: Store, b: TrainJob, order: T.Order)
    requires T.OrderOk(order)
  {
    exists calls: nat, g :: GroupMadeBy(s, b, order, calls, g)
  }

  /** From here on the pass makes no group: it is past that step, or finds the group there. */
  predicate Groupless(s: Store, pc: T.TrainPc) {
    !pc.TCreateGroup? && (AtGate(pc) ==> T.GroupOf(pc.b) in s.groups)
  }

  lemma GrouplessCall(s: Store, pc: T.TrainPc, seen: T.Reads)
    requires T.ReadsOk(s, pc, seen) && Groupless(s, pc)
    ensures var (t, next) := T.TrainCall(s, pc, seen); t.groups.Keys <= s.groups.Keys && Groupless(t, next)
  {
    hide T.Aggregate, T.Listing, T.Granted, T.AttemptPods, T.PreemptorGone, T.ServiceFor, T.NewWorker, T.AfterFailedPod,
      T.WithWorkerStatus;
  }

  lemma {:induction false} GrouplessRun(s: Store, pc: T.TrainPc, calls: nat, order: T.Order)
    requires T.OrderOk(order) && Groupless(s, pc)
    ensures T.RunTrain(s, pc, calls, order).0.groups.Keys <= s.groups.Keys
    decreases calls
  {
    if calls > 0 && !T.Over(pc) {
      var seen := T.ReadsIn(s, pc, order);
      var (t, next) := T.TrainCall(s, pc, seen);
      GrouplessCall(s, pc, seen);
      GrouplessRun(t, next, calls - 1, order);
    }
  }

  /**
   Exactly which copies make a group, whatever the stored job has become: those in a phase that drives
   pods, while the group of the copy's attempt is not there.
   */
  lemma CopyMakesGroupExactly(s: Store, b: TrainJob, order: T.Order)
    requires T.OrderOk(order)
    ensures MakesGroup(s, b, order) <==> DrivingTrain(b.status.phase) && T.GroupOf(b) !in s.groups
  {
    if DrivingTrain(b.status.phase) && T.GroupOf(b) !in s.groups {
      var t, m := ServiceRun(s, b, order);
      var u, n := GroupRun(t, b, order);
      hide T.RunTrain, T.AtRank, Reaches;
      Chain(s, T.Start(b), t, T.TGetGroup(b), u, T.AtRank(b, 0), m, n, order);
      GoesOn(s, T.Start(b), u, T.AtRank(b, 0), m + n, m + n, order);
      assert GroupMadeBy(s, b, order, m + n, T.GroupOf(b));
    } else {
      assert Groupless(s, T.Start(b));
      forall calls: nat, g ensures !GroupMadeBy(s, b, order, calls, g) {
        GrouplessRun(s, T.Start(b), calls, order);
      }
    }
  }

  // ---------------------------------------------------------------- train copies that panic

  ghost predicate Panics(s: Store, b: TrainJob, order: T.Order)
    requires T.OrderOk(order)
  {
    exists calls: nat :: T.RunTrain(s, T.Start(b), calls, order).1.TPanic?
  }

  lemma {:induction false} CalmRun(s: Store, pc: T.TrainPc, calls: nat, order: T.Order)
    requires T.OrderOk(order) && !pc.TPanic? && !pc.TGetVictimGroup?
    ensures !T.RunTrain(s, pc, calls, order).1.TPanic?
    decreases calls
  {
    hide T.TrainCall;
    if calls > 0 && !T.Over(pc) {
      var seen := T.ReadsIn(s, pc, order);
      var (t, next) := T.TrainCall(s, pc, seen);
      CalmCall(s, pc, seen);
      CalmRun(t, next, calls - 1, order);
    }
  }

  lemma CalmCall(s: Store, pc: T.TrainPc, seen: T.Reads)
    requires T.ReadsOk(s, pc, seen) && !pc.TPanic? && !pc.TGetVictimGroup?
    ensures !T.TrainCall(s, pc, seen).1.TPanic? && !T.TrainCall(s, pc, seen).1.TGetVictimGroup?
  {
    hide T.Aggregate, T.Listing, T.Granted, T.AttemptPods, T.PreemptorGone, T.NextPhase, T.ShouldRetry, T.ServiceFor;
  }

  /**
   Exactly which copies make a pass dereference the absent PreemptedBy: preempted ones whose group is there
   unmarked.
   */
  lemma CopyPanicsExactly(s: Store, b: TrainJob, order: T.Order)
    requires T.OrderOk(order)
    ensures Panics(s, b, order)
            <==> b.status.phase == Preempted && T.GroupOf(b) in s.groups && s.groups[T.GroupOf(b)].preemptedBy.None?
  {
    if b.status.phase == Preempted && T.GroupOf(b) in s.groups && s.groups[T.GroupOf(b)].preemptedBy.None? {
      W.RunNext(s, T.TGetVictimGroup(b), 1, order);
      assert T.RunTrain(s, T.Start(b), 1, order).1.TPanic?;
    } else {
      forall calls: nat ensures !T.RunTrain(s, T.Start(b), calls, order).1.TPanic? {
        if b.status.phase != Preempted {
          CalmRun(s, T.Start(b), calls, order);
        } else if calls > 0 {
          W.RunNext(s, T.TGetVictimGroup(b), calls, order);
          var next := T.TrainCall(s, T.TGetVictimGroup(b), T.ReadsIn(s, T.TGetVictimGroup(b), order)).1;
          CalmRun(s, next, calls - 1, order);
        }
      }
    }
    hide T.RunTrain, T.PreemptorGone;
  }

  // ---------------------------------------------------------------- inference copies that make pods

  ghost predicate ServedBy(s: Store, b: InferenceJob, calls: nat, n: string) {
    n !in s.servers && n in I.RunInference(s, I.Start(b), calls).0.servers
  }

  ghost predicate MakesServer(s: Store, b: InferenceJob) {
    exists calls: nat, n :: ServedBy(s, b, calls, n)
  }

  predicate Barred(s: Store, pc: I.InfPc) {
    pc.IGetPod? || pc.IEnsurePod? || pc.ICreatePod? ==> pc.b.name in s.servers
  }

  lemma {:induction false} BarredRun(s: Store, pc: I.InfPc, calls: nat)
    requires Barred(s, pc)
    ensures I.RunInference(s, pc, calls).0.servers.Keys <= s.servers.Keys
    decreases calls
  {
    hide I.InfCall, Barred;
    if calls > 0 && !pc.IDone? {
      var (t, next) := I.InfCall(s, pc, s.used);
      BarredCall(s, pc);
      BarredRun(t, next, calls - 1);
    }
  }

  lemma BarredCall(s: Store, pc: I.InfPc)
    requires Barred(s, pc)
    ensures var (t, next) := I.InfCall(s, pc, s.used); t.servers.Keys <= s.servers.Keys && Barred(t, next)
  {
    hide I.Observed, I.Without, I.Admitted;
  }

  /**
   Exactly which copies make the inference pod, whatever the stored job has become: those not marked
   deleted that carry the finalizer and are in a serving phase, while there is no pod. So with the
   stored job as the copy a missing pod is always created again, and never for a job that is failing.
   */
  lemma InferenceCopyMakesPodExactly(s: Store, b: InferenceJob)
    ensures MakesServer(s, b) <==> I.Kept(b) && ServingInference(b.phase) && b.name !in s.servers
  {
    if I.Kept(b) && ServingInference(b.phase) && b.name !in s.servers {
      var j := I.Observed(b, None);
      E.InfNext(s, I.IGetPod(b), 3);
      E.InfNext(s, I.IEnsurePod(b, j), 2);
      E.InfNext(s, I.ICreatePod(b, j), 1);
      assert ServedBy(s, b, 3, b.name);
    } else {
      forall calls: nat, n ensures !ServedBy(s, b, calls, n) {
        BarredRun(s, I.Start(b), calls);
      }
    }
    hide I.RunInference, I.Observed;
  }
}
