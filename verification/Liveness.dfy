/** What keeps waiting jobs moving along a run: no wake-up is lost, but some victims have nobody to wake them. */
module Liveness {
  import opened ClusterTypes
  import opened QueueAdmission
  import opened Cluster
  import opened LedgerInvariant
  import opened LedgerSteps
  import opened PodInvariant
  import opened LifecycleSafety
  import opened InferenceSafety
  import T = TrainLifecycle
  import I = InferenceLifecycle
  import W = Wakeups

  // ---------------------------------------------------------------- groups are owned by the jobs they are named for

  ghost predicate OwnersNamed(s: System) {
    forall g :: g in s.store.groups ==> s.store.groups[g].owner == g.job
  }

  lemma CallKeepsOwners(s: Store, pc: T.TrainPc, seen: T.Reads)
    requires T.ReadsOk(s, pc, seen) && forall g :: g in s.groups ==> s.groups[g].owner == g.job
    ensures var t := T.TrainCall(s, pc, seen).0; forall g :: g in t.groups ==> t.groups[g].owner == g.job
  {
    hide T.TrainCall, T.ReadsOk;
    CallChangesGroups(s, pc, seen);
  }

  /** A call makes, changes or deletes at most its own group. */
  lemma CallChangesGroups(s: Store, pc: T.TrainPc, seen: T.Reads)
    requires T.ReadsOk(s, pc, seen)
    ensures var t := T.TrainCall(s, pc, seen).0.groups;
            || t == s.groups
            || (pc.TCreateGroup? && t == s.groups[T.GroupOf(pc.b) := T.NewGroup(pc.b)])
            || (pc.TClearDetail? && T.GroupOf(pc.b) in s.groups && s.groups[T.GroupOf(pc.b)] == pc.g
                && t == s.groups[T.GroupOf(pc.b) := pc.g.(detail := 0)])
            || (pc.TDeleteGroup? && t == s.groups - {T.GroupOf(pc.b)})
  {
    hide T.Aggregate, T.Listing, T.Granted, T.AttemptPods, T.PreemptorGone, T.OnGroup, T.OnSummary, T.AtRank,
      T.Dropping, T.ServiceFor, T.NewWorker, T.NewGroup;
  }

  lemma StepKeepsOwners(s: System, a: Action)
    requires Enabled(s, a) && OwnersNamed(s)
    ensures OwnersNamed(Apply(s, a))
  {
    if a.TrainStep? {
      hide Enabled, Apply, T.TrainCall, T.ReadsOk;
      TrainStepMeans(s, a.name, a.items, a.ledger);
      CallKeepsOwners(s.store, s.trainPasses[a.name], TrainReads(s, a.items, a.ledger));
    } else if a.InferenceStep? {
      hide Enabled, Apply, I.InfCall;
      InferenceStepMeans(s, a.name, a.ledger);
      I.CallWrites(s.store, s.infPasses[a.name], s.ledgers[a.ledger]);
    } else if a.QueueStep? {
      hide Enabled, Apply, QueueCall, ChoiceOk;
      QueueStepMeans(s, a.after);
    } else {
      hide Enabled, Apply;
      GroupsLeftAlone(s, a);
    }
  }

  lemma GroupsLeftAlone(s: System, a: Action)
    requires Enabled(s, a) && !a.InferenceStep? && !a.QueueStep? && !a.TrainStep?
    ensures Apply(s, a).store.groups == s.store.groups
            || (a.RemoveGroup? && Apply(s, a).store.groups == s.store.groups - {a.group})
            || (a.MarkGroup? && a.group in s.store.groups && a.mark.owner == s.store.groups[a.group].owner
                && Apply(s, a).store.groups == s.store.groups[a.group := a.mark])
  {
    hide T.TrainCall, I.InfCall, QueueCall, ChoiceOk, T.ReadsOk, T.Start, I.Start, Latest, I.Stored, NewTrain,
      NewInference;
  }

  lemma {:induction false} OwnersAlong(ss: seq<System>, acts: seq<Action>, i: nat)
    requires Run(ss, acts) && i < |ss|
    ensures OwnersNamed(ss[i])
    decreases i
  {
    if i > 0 {
      hide Run, Enabled, Apply, OwnersNamed;
      OwnersAlong(ss, acts, i - 1);
      RunStep(ss, acts, i - 1);
      StepKeepsOwners(ss[i - 1], acts[i - 1]);
    }
  }

  // ---------------------------------------------------------------- wake-ups along a run

  ghost predicate CanMoveAt(s: System, n: string) {
    n in s.store.trains && W.TrainCanMove(s.store, n)
  }

  lemma StepWakes(s: System, t: System, n: string)
    requires LedgerInv(s) && LedgerInv(t) && OwnersNamed(s) && OwnersNamed(t)
    requires n in s.store.trains && n in t.store.trains && !CanMoveAt(s, n) && CanMoveAt(t, n)
    ensures W.TrainWoken(s.store, t.store, n)
  {
    hide LedgerInv, W.TrainCanMove, W.TrainWoken;
    LatestIsStored(s, n);
    LatestIsStored(t, n);
    W.NoLostTrainWakeup(s.store, t.store, n);
  }

  /**
   No lost wake-up along a run: if a job could not move and later can, some step in between enqueued
   it, and from that step on it has been able to move; so the pass it was enqueued for finds it movable.
   */
  lemma {:induction false} WokenWhenMovable(ss: seq<System>, acts: seq<Action>, i: nat, k: nat, n: string)
    returns (m: nat)
    requires Run(ss, acts) && i < k < |ss| && n in ss[i].store.trains && n in ss[k].store.trains
    requires !CanMoveAt(ss[i], n) && CanMoveAt(ss[k], n)
    ensures i <= m < k && W.TrainWoken(ss[m].store, ss[m + 1].store, n)
    ensures forall x :: m < x <= k ==> CanMoveAt(ss[x], n)
    decreases k
  {
    hide Run, LedgerInv, CanMoveAt, W.TrainWoken, W.TrainCanMove, OwnersNamed;
    ThereBefore(ss, acts, i, k, n);
    if CanMoveAt(ss[k - 1], n) {
      m := WokenWhenMovable(ss, acts, i, k - 1, n);
    } else {
      m := k - 1;
      RunLedger(ss, acts, k - 1);
      RunLedger(ss, acts, k);
      OwnersAlong(ss, acts, k - 1);
      OwnersAlong(ss, acts, k);
      StepWakes(ss[k - 1], ss[k], n);
    }
  }

  ghost predicate InferenceCanMoveAt(s: System, n: string) {
    n in s.store.infs && s.store.infs[n].phase == InfQueued && I.Admitted(s.store.used, s.store.infs[n])
  }

  /** The same for queued inference jobs. */
  lemma {:induction false} InferenceWokenWhenMovable(ss: seq<System>, acts: seq<Action>, i: nat, k: nat, n: string)
    returns (m: nat)
    requires Run(ss, acts) && i < k < |ss| && n in ss[i].store.infs && n in ss[k].store.infs
    requires !InferenceCanMoveAt(ss[i], n) && InferenceCanMoveAt(ss[k], n)
    ensures i <= m < k && W.InferenceWoken(ss[m].store, ss[m + 1].store, n)
    ensures forall x :: m < x <= k ==> InferenceCanMoveAt(ss[x], n)
    decreases k
  {
    hide Run, InferenceCanMoveAt, W.InferenceWoken;
    InfThereBefore(ss, acts, i, k, n);
    if InferenceCanMoveAt(ss[k - 1], n) {
      m := InferenceWokenWhenMovable(ss, acts, i, k - 1, n);
    } else {
      m := k - 1;
      InferenceStepWakes(ss[k - 1], ss[k], n);
    }
  }

  lemma InferenceStepWakes(s: System, t: System, n: string)
    requires n in s.store.infs && n in t.store.infs && !InferenceCanMoveAt(s, n) && InferenceCanMoveAt(t, n)
    ensures W.InferenceWoken(s.store, t.store, n)
  {
    W.NoLostInferenceWakeup(s.store, t.store, n);
  }

  // ---------------------------------------------------------------- victims that are never released

  /** `n` was preempted by the train job `m`, which has succeeded meanwhile, and no pass is beyond the release check. */
  predicate Stranded(s: System, n: string, m: string) {
    && n in s.store.trains && m in s.store.trains
    && s.store.trains[n].status.phase == Preempted && s.store.trains[m].status.phase == Succeeded
    && MarkedBy(s.store, T.GroupOf(s.store.trains[n]), m)
    && (n in s.trainPasses ==> BeforeRelease(s.trainPasses[n], m))
  }

  predicate MarkedBy(s: Store, g: GroupKey, m: string) {
    g in s.groups && s.groups[g].preemptedBy == Some(JobRef(m, Train))
  }

  predicate BeforeRelease(pc: T.TrainPc, m: string) {
    pc.TDone? || pc.TGetVictimGroup? || (pc.TGetPreemptor? && pc.who == JobRef(m, Train))
  }

  /** Nobody deletes the two jobs or touches the group by hand. */
  predicate LeavesAlone(a: Action, n: string, m: string) {
    && !(a.DeleteTrain? && (a.name == n || a.name == m))
    && !(a.MarkGroup? && a.group.job == n) && !(a.RemoveGroup? && a.group.job == n)
  }

  lemma StrandedCall(s: Store, pc: T.TrainPc, seen: T.Reads, b: TrainJob, m: string)
    requires T.ReadsOk(s, pc, seen) && BeforeRelease(pc, m) && (!T.Over(pc) ==> pc.b == b)
    requires m in s.trains && s.trains[m].status.phase == Succeeded && MarkedBy(s, T.GroupOf(b), m)
    ensures BeforeRelease(T.TrainCall(s, pc, seen).1, m)
    ensures T.TrainCall(s, pc, seen).0 == s
  {
  }

  lemma StepStaysStranded(s: System, a: Action, n: string, m: string)
    requires Inv(s) && Enabled(s, a) && a.TrainStep? && Stranded(s, n, m)
    ensures MarkedBy(Apply(s, a).store, T.GroupOf(s.store.trains[n]), m)
    ensures Apply(s, a).store.trains.Keys == s.store.trains.Keys
    ensures n in Apply(s, a).trainPasses ==> BeforeRelease(Apply(s, a).trainPasses[n], m)
  {
    hide Enabled, Apply, T.TrainCall, BeforeRelease, T.ReadsOk, T.HeadsForMove, TrainPassOk, OwnObjects, LedgerInv,
      PodInv, MarkedBy, TrainReads;
    InvIsLedger(s);
    LatestIsStored(s, n);
    TrainStepMeans(s, a.name, a.items, a.ledger);
    var pc, seen := s.trainPasses[a.name], TrainReads(s, a.items, a.ledger);
    PassStands(s, a.name);
    CallTouchesOwnObjects(s.store, a.name, pc, seen);
    if a.name == n {
      StrandedCall(s.store, pc, seen, s.store.trains[n], m);
      KeysStay(s.store, T.TrainCall(s.store, pc, seen).0, n);
    } else {
      KeysStay(s.store, T.TrainCall(s.store, pc, seen).0, a.name);
      MarkStays(s.store, T.TrainCall(s.store, pc, seen).0, a.name, T.GroupOf(s.store.trains[n]), m);
    }
  }

  lemma KeysStay(s: Store, t: Store, n: string)
    requires OwnObjects(s, t, n)
    ensures t.trains.Keys == s.trains.Keys
  {
  }

  lemma MarkStays(s: Store, t: Store, n: string, g: GroupKey, m: string)
    requires OwnObjects(s, t, n) && MarkedBy(s, g, m) && g.job != n
    ensures MarkedBy(t, g, m)
  {
  }

  lemma OtherStepsBegin(s: System, a: Action, n: string, m: string)
    requires Enabled(s, a) && Fresh(s, a) && !a.TrainStep? && Stranded(s, n, m) && n in Apply(s, a).trainPasses
    ensures BeforeRelease(Apply(s, a).trainPasses[n], m)
  {
    hide Enabled, Apply;
    PassesElsewhere(s, a, n);
  }

  lemma OtherStepsKeepJob(s: System, a: Action, n: string)
    requires LedgerInv(s) && Enabled(s, a) && !a.TrainStep? && n in s.store.trains && !(a.DeleteTrain? && a.name == n)
    ensures n in Apply(s, a).store.trains && Apply(s, a).store.trains[n] == s.store.trains[n]
  {
    LatestIsStored(s, n);
    hide LedgerInv, Enabled, Apply;
    TrainsElsewhere(s, a);
  }

  lemma OtherStepStaysStranded(s: System, a: Action, n: string, m: string)
    requires LedgerInv(s) && Enabled(s, a) && Fresh(s, a) && !a.TrainStep? && Stranded(s, n, m) && LeavesAlone(a, n, m)
    ensures Stranded(Apply(s, a), n, m)
  {
    hide LedgerInv, Enabled, Apply, BeforeRelease, Fresh;
    OtherStepsKeepJob(s, a, n);
    OtherStepsKeepJob(s, a, m);
    GroupNamed(s, n);
    GroupsElsewhere(s, a);
    if n in Apply(s, a).trainPasses {
      OtherStepsBegin(s, a, n, m);
    }
  }

  lemma GroupNamed(s: System, n: string)
    requires LedgerInv(s) && n in s.store.trains
    ensures T.GroupOf(s.store.trains[n]).job == n
  {
    LatestIsStored(s, n);
    hide LedgerInv;
  }

  lemma GroupsElsewhere(s: System, a: Action)
    requires Enabled(s, a) && !a.TrainStep?
    ensures forall g :: g in s.store.groups && !(a.RemoveGroup? && a.group == g) && !(a.MarkGroup? && a.group == g)
              ==> g in Apply(s, a).store.groups && Apply(s, a).store.groups[g] == s.store.groups[g]
  {
    if a.InferenceStep? {
      hide Enabled, Apply, I.InfCall;
      InferenceStepMeans(s, a.name, a.ledger);
      I.CallWrites(s.store, s.infPasses[a.name], s.ledgers[a.ledger]);
    } else if a.QueueStep? {
      hide Enabled, Apply, QueueCall, ChoiceOk;
      QueueStepMeans(s, a.after);
    } else {
      hide Enabled, Apply;
      GroupsLeftAlone(s, a);
    }
  }

  lemma StrandedStays(s: System, a: Action, n: string, m: string)
    requires Inv(s) && Enabled(s, a) && Fresh(s, a) && Stranded(s, n, m) && LeavesAlone(a, n, m)
    ensures Stranded(Apply(s, a), n, m)
  {
    hide Inv, LedgerInv, Enabled, Apply, Fresh, BeforeRelease;
    if a.TrainStep? {
      StepStaysStranded(s, a, n, m);
      assert LedgerInv(s) by { InvIsLedger(s); }
      TrainStepMoves(s, a, n);
      TrainStepMoves(s, a, m);
      NotBeforeRelease(m);
    } else {
      InvIsLedger(s);
      OtherStepStaysStranded(s, a, n, m);
    }
  }

  lemma InvIsLedger(s: System)
    requires Inv(s)
    ensures LedgerInv(s)
  {
  }

  lemma NotBeforeRelease(m: string)
    ensures forall b, st :: !BeforeRelease(T.TWrite(b, st), m)
  {
  }

  /**
   The release check takes a train preemptor that runs or has failed, but not one that has succeeded.
   So a victim whose preemptor succeeded before the check saw it running stays preempted, whatever the
   controllers do, until somebody deletes a job or touches the group by hand.
   */
  lemma {:induction false} StrandedVictim(ss: seq<System>, acts: seq<Action>, i: nat, k: nat, n: string, m: string)
    requires FreshRun(ss, acts) && i <= k < |ss| && Stranded(ss[i], n, m)
    requires forall x :: i <= x < k ==> LeavesAlone(acts[x], n, m)
    ensures n in ss[k].store.trains && ss[k].store.trains[n].status.phase == Preempted && Stranded(ss[k], n, m)
    decreases k
  {
    hide FreshRun, Inv, Enabled, Apply, Fresh, LeavesAlone;
    if i < k {
      StrandedVictim(ss, acts, i, k - 1, n, m);
      RunInv(ss, acts, k - 1);
      FreshRunStep(ss, acts, k - 1);
      StrandedStays(ss[k - 1], acts[k - 1], n, m);
    }
  }
}
