/** Preemption marks are never stale, as long as no cache goes back. */
module MarkSafety {
  import opened ClusterTypes
  import opened QueueAdmission
  import opened Cluster
  import opened LedgerInvariant
  import opened LedgerSteps
  import opened LifecycleSafety
  import opened CacheOrder
  import T = TrainLifecycle

  // ---------------------------------------------------------------- no phantom preemption

  /**
   As long as no cache goes back, a job that is not started has no group for its attempt, and the group
   of a started one was created in its present epoch.
   */
  lemma GroupsOfThisEpoch(ss: seq<System>, acts: seq<Action>, i: nat, n: string)
    requires OrderedRun(ss, acts) && i < |ss| && n in ss[i].store.trains
    ensures var j, groups := ss[i].store.trains[n], ss[i].store.groups;
            var key := GroupKey(n, j.status.attempt);
            && (j.status.phase == NoPhase || j.status.phase == Submitted || j.status.phase == Queued ==> key !in groups)
            && (key in groups ==> groups[key].epoch == j.status.requeueCount && groups[key].owner == n)
            && (forall g :: g in groups && g.job == n ==> g.attempt <= j.status.attempt)
  {
    hide OrderedRun, LedgerInv, CopyInv, ReleasesOk;
    OrderedIsRun(ss, acts);
    OrderedInv(ss, acts, i);
    LatestIsStored(ss[i], n);
  }

  /**
   No phantom preemption: if a job is queued now and finds its group marked later in the same attempt,
   the scheduler wrote that mark in between; a mark of an earlier life is never seen again.
   */
  lemma NoPhantomPreemption(ss: seq<System>, acts: seq<Action>, i: nat, k: nat, n: string)
    requires OrderedRun(ss, acts) && i < k < |ss| && n in ss[i].store.trains
             && ss[i].store.trains[n].status.phase == Queued
    requires HasMark(ss[k], GroupKey(n, ss[i].store.trains[n].status.attempt))
    ensures exists m :: i <= m < k && acts[m].MarkGroup?
                        && acts[m].group == GroupKey(n, ss[i].store.trains[n].status.attempt)
                           && acts[m].mark.preemptedBy.Some?
  {
    OrderedIsRun(ss, acts);
    hide OrderedRun, Run, HasMark;
    GroupsOfThisEpoch(ss, acts, i, n);
    var g := GroupKey(n, ss[i].store.trains[n].status.attempt);
    assert !HasMark(ss[i], g) by { NoGroupNoMark(ss[i], g); }
    var m := MarkWrittenSince(ss, acts, i, k, g);
  }

  // ---------------------------------------------------------------- every preemption was the scheduler's

  /** On its way to report the preemption of the job as the pass read it. */
  predicate Preempting(pc: T.TrainPc, b: TrainJob) {
    (pc.TListDrop? || pc.TDropPod? || pc.TWrite?) && pc.st.phase == Preempted && pc.b == b
  }

  predicate HeadsForPreemption(s: System, n: string, b: TrainJob) {
    n in s.trainPasses && Preempting(s.trainPasses[n], b)
  }

  lemma CallDecidesPreemption(s: Store, pc: T.TrainPc, seen: T.Reads, b: TrainJob)
    requires T.ReadsOk(s, pc, seen) && (!T.Over(pc) ==> T.HeadsForMove(pc))
    requires !Preempting(pc, b) && Preempting(T.TrainCall(s, pc, seen).1, b)
    ensures T.GroupOf(b) in s.groups && s.groups[T.GroupOf(b)].preemptedBy.Some?
  {
    hide T.Aggregate, T.Listing, T.Granted, T.AttemptPods, T.PreemptorGone, T.Moves, T.ServiceFor, T.NewGroup,
      T.NewWorker;
  }

  lemma PreemptionDecided(s: System, a: Action, n: string, b: TrainJob)
    requires LedgerInv(s) && Enabled(s, a) && !HeadsForPreemption(s, n, b) && HeadsForPreemption(Apply(s, a), n, b)
    ensures HasMark(s, T.GroupOf(b))
  {
    hide LedgerInv, Enabled, Apply, T.HeadsForMove, T.ReadsOk, T.TrainCall, Preempting;
    if a.TrainStep? && a.name == n {
      TrainStepMeans(s, n, a.items, a.ledger);
      GateOf(s, n);
      CallDecidesPreemption(s.store, s.trainPasses[n], TrainReads(s, a.items, a.ledger), b);
    } else {
      PassesElsewhere(s, a, n);
      if a.BeginTrain? {
        StartReportsNothing(a.trainCopy, b);
      }
      assert false;
    }
  }

  lemma StartReportsNothing(v: TrainJob, b: TrainJob)
    ensures !Preempting(T.Start(v), b)
  {
  }

  /** A pass that reports a preemption began after the job was last queued. */
  lemma BegunSince(s: System, last: Trains, n: string, b: TrainJob)
    requires LedgerInv(s) && CopyInv(s, last) && n in s.store.trains && s.store.trains[n].status.phase == Queued
    requires s.store.trains[n].status.requeueCount <= b.status.requeueCount && b.status.phase == Running
    ensures !HeadsForPreemption(s, n, b)
  {
    LatestIsStored(s, n);
    hide LedgerInv, ReportsOk;
    if n in last {
      assert CopyOk(last[n], s.lastTrains[n]);
    }
  }

  lemma {:induction false} MarkWasRead(ss: seq<System>, acts: seq<Action>, i: nat, k: nat, n: string, b: TrainJob)
    returns (m: nat)
    requires OrderedRun(ss, acts) && i <= k < |ss| && n in ss[i].store.trains
             && ss[i].store.trains[n].status.phase == Queued
    requires ss[i].store.trains[n].status.requeueCount <= b.status.requeueCount && b.status.phase == Running
    requires HeadsForPreemption(ss[k], n, b)
    ensures i <= m < k && HasMark(ss[m], T.GroupOf(b))
    decreases k
  {
    hide *;
    OrderedIsRun(ss, acts);
    if i == k {
      OrderedInv(ss, acts, i);
      BegunSince(ss[i], LastCopies(acts[..i]), n, b);
    } else if HeadsForPreemption(ss[k - 1], n, b) {
      m := MarkWasRead(ss, acts, i, k - 1, n, b);
    } else {
      m := k - 1;
      RunStep(ss, acts, m);
      RunLedger(ss, acts, m);
      PreemptionDecided(ss[m], acts[m], n, b);
    }
  }

  /**
   Every preemption is the scheduler's, and a recent one: when a job goes to Preempted, the scheduler
   has marked the group of its attempt since the job was last Queued, or Queued at any time before.
   */
  lemma PreemptionWasMarked(ss: seq<System>, acts: seq<Action>, i: nat, k: nat, n: string) returns (m: nat)
    requires OrderedRun(ss, acts) && i <= k && k + 1 < |ss|
    requires n in ss[i].store.trains && n in ss[k].store.trains && n in ss[k + 1].store.trains
    requires ss[i].store.trains[n].status.phase == Queued
    requires ss[k].store.trains[n].status.phase != Preempted && ss[k + 1].store.trains[n].status.phase == Preempted
    ensures ss[k].store.trains[n].status.phase == Running
    ensures i <= m < k && acts[m].MarkGroup? && acts[m].mark.preemptedBy.Some?
    ensures acts[m].group == GroupKey(n, ss[k].store.trains[n].status.attempt)
  {
    hide OrderedRun, Run, LedgerInv, Enabled, Apply, HasMark;
    OrderedIsRun(ss, acts);
    RunLedger(ss, acts, k);
    RunStep(ss, acts, k);
    TrainStepMoves(ss[k], acts[k], n);
    TrainProgress(ss, acts, i, k, n);
    LatestIsStored(ss[k], n);
    var b := ss[k].store.trains[n];
    var g := T.GroupOf(b);
    var x := MarkWasRead(ss, acts, i, k, n, b);
    GroupsOfThisEpoch(ss, acts, i, n);
    assert !HasMark(ss[i], g) by { NoGroupNoMark(ss[i], g); }
    m := MarkWrittenSince(ss, acts, i, x, g);
  }
}
