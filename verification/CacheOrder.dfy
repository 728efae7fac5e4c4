/**
 The order in which the passes over a job read its versions: a cache may lag, but does not go back.
 What is proved of pod groups and preemption marks needs no more than that.
 */
module CacheOrder {
  import opened ClusterTypes
  import opened QueueAdmission
  import opened Cluster
  import opened LedgerInvariant
  import opened LedgerSteps
  import opened PodInvariant
  import opened LifecycleSafety
  import opened Liveness
  import T = TrainLifecycle
  import I = InferenceLifecycle

  // ---------------------------------------------------------------- ordered runs

  function AfterBegin(last: Trains, a: Action): Trains {
    if a.BeginTrain? then last[a.trainCopy.name := a.trainCopy] else last
  }

  /** The copies with which the latest pass over each TrainJob began. */
  function LastCopies(acts: seq<Action>): Trains {
    if acts == [] then map[] else AfterBegin(LastCopies(acts[..|acts| - 1]), acts[|acts| - 1])
  }

  /** A pass does not begin with a copy that is behind the one the pass before it over the job began with. */
  predicate InTurn(last: Trains, a: Action) {
    a.BeginTrain? && a.trainCopy.name in last ==> NotBehind(last[a.trainCopy.name].status, a.trainCopy.status)
  }

  /** A run in which no cache goes back: the copies may be outdated, but never more than the one before. */
  ghost predicate OrderedRun(ss: seq<System>, acts: seq<Action>) {
    && Run(ss, acts)
    && forall i :: 0 <= i < |acts| ==> InTurn(LastCopies(acts[..i]), acts[i])
  }

  // ---------------------------------------------------------------- what the copies are to the stored jobs

  predicate Precedes(a: TrainJob, b: TrainJob) {
    NotBehind(a.status, b.status) && a.status.attempt <= b.status.attempt
  }

  /** A copy from before the last release shows the job preempted, or finished. */
  predicate CopyOk(c: TrainJob, j: TrainJob) {
    && Precedes(c, j)
    && (c.status.requeueCount < j.status.requeueCount ==>
          c.status.requeueCount + 1 == j.status.requeueCount && Rank(c.status.phase) >= Rank(Preempted))
  }

  ghost predicate CopiesOk(last: Trains, lasts: Trains) {
    && (forall n :: n in last ==> n in lasts && last[n].name == n)
    && (forall n :: n in lasts ==> if n in last then CopyOk(last[n], lasts[n]) else lasts[n].status.requeueCount == 0)
  }

  ghost predicate ReportsOk(reported: set<TrainJob>, lasts: Trains) {
    forall v :: v in reported ==> v.name in lasts && Precedes(v, lasts[v.name])
  }

  ghost predicate PassesCarry(passes: map<string, T.TrainPc>, last: Trains) {
    forall n :: n in passes ==> n in last && (!T.Over(passes[n]) ==> passes[n].b == last[n])
  }

  ghost predicate CopyInv(s: System, last: Trains) {
    CopiesOk(last, s.lastTrains) && ReportsOk(s.reportedTrains, s.lastTrains) && PassesCarry(s.trainPasses, last)
  }

  lemma MoveIsProgress(b: TrainJob, st: TrainStatus)
    requires T.Moves(b, st)
    ensures CopyOk(b, b.(status := st))
  {
  }

  lemma WriteKeepsCopies(last: Trains, lasts: Trains, reported: set<TrainJob>, b: TrainJob, st: TrainStatus)
    requires CopiesOk(last, lasts) && ReportsOk(reported, lasts) && T.Moves(b, st)
    requires b.name in lasts && lasts[b.name] == b && b.name in last && last[b.name] == b
    ensures CopiesOk(last, lasts[b.name := b.(status := st)]) && ReportsOk(reported, lasts[b.name := b.(status := st)])
  {
    MoveIsProgress(b, st);
    hide T.Moves;
  }

  lemma CreationKeepsCopies(last: Trains, lasts: Trains, reported: set<TrainJob>, j: TrainJob)
    requires CopiesOk(last, lasts) && ReportsOk(reported, lasts) && j.name !in lasts && j.status.requeueCount == 0
    ensures CopiesOk(last, lasts[j.name := j]) && ReportsOk(reported, lasts[j.name := j])
  {
    hide CopyOk, Precedes;
  }

  lemma BeginKeepsCopies(last: Trains, lasts: Trains, v: TrainJob)
    requires CopiesOk(last, lasts) && v.name in lasts && Precedes(v, lasts[v.name])
    requires v.name in last ==> NotBehind(last[v.name].status, v.status)
    ensures CopiesOk(last[v.name := v], lasts)
  {
    assert CopyOk(v, lasts[v.name]) by {
      if v.name in last {
        assert CopyOk(last[v.name], lasts[v.name]);
      }
    }
    hide CopyOk, NotBehind, Precedes;
  }

  lemma VersionPrecedes(s: System, v: TrainJob)
    requires LedgerInv(s) && ReportsOk(s.reportedTrains, s.lastTrains) && TrainVersion(s, v)
    ensures v.name in s.lastTrains && Precedes(v, s.lastTrains[v.name])
  {
    hide LedgerInv;
    LatestIsStored(s, v.name);
  }

  lemma StartCarries(v: TrainJob)
    ensures !T.Over(T.Start(v)) ==> T.Start(v).b == v
    ensures !(T.Start(v).TWrite? && v.status.phase == Preempted)
    ensures T.Start(v).TWrite? ==> T.Start(v).st.phase != Preempted
    ensures !T.Start(v).TListDrop? && !T.Start(v).TDropPod?
  {
  }

  lemma ReportsElsewhere(s: System, a: Action)
    requires Enabled(s, a) && !a.TrainStep?
    ensures forall v :: v in Apply(s, a).reportedTrains
              ==> v in s.reportedTrains || (v.name in s.store.trains && s.store.trains[v.name] == v)
                  || (a.ReportTrain? && a.name in s.store.trains && s.store.trains[a.name] == v)
  {
    if a.QueueStep? {
      hide Enabled, Apply, QueueCall, ChoiceOk;
      QueueStepMeans(s, a.after);
    } else {
      hide T.TrainCall, I.InfCall, QueueCall, ChoiceOk, T.ReadsOk, T.Start, I.Start, Latest, I.Stored, NewTrain,
        NewInference;
    }
  }

  lemma OwnStepKeepsCopies(s: System, a: Action, last: Trains)
    requires LedgerInv(s) && CopyInv(s, last) && Enabled(s, a) && a.TrainStep?
    ensures CopyInv(Apply(s, a), last)
  {
    hide LedgerInv, Enabled, Apply, T.TrainCall, T.ReadsOk, T.HeadsForMove, T.Moves, CopiesOk, ReportsOk;
    var n := a.name;
    TrainStepMeans(s, n, a.items, a.ledger);
    TrainStepChanges(s, n, a.items, a.ledger);
    var pc, seen, t := s.trainPasses[n], TrainReads(s, a.items, a.ledger), Apply(s, a);
    GateOf(s, n);
    if T.Over(pc) {
      OverStaysOver(s.store, pc, seen);
    } else {
      T.CallHeadsForMove(s.store, pc, seen);
    }
    if t.lastTrains != s.lastTrains {
      WriteIsGood(s, n);
      LatestIsStored(s, n);
      WriteKeepsCopies(last, s.lastTrains, s.reportedTrains, pc.b, pc.st);
    }
  }

  lemma StepKeepsCopies(s: System, a: Action, last: Trains)
    requires LedgerInv(s) && CopyInv(s, last) && Enabled(s, a) && InTurn(last, a)
    ensures CopyInv(Apply(s, a), AfterBegin(last, a))
  {
    if a.TrainStep? {
      hide *;
      OwnStepKeepsCopies(s, a, last);
      NoBegin(last, a);
    } else {
      OtherStepKeepsCopies(s, a, last);
    }
  }

  lemma NoBegin(last: Trains, a: Action)
    requires !a.BeginTrain?
    ensures AfterBegin(last, a) == last
  {
  }

  lemma OtherStepKeepsCopies(s: System, a: Action, last: Trains)
    requires LedgerInv(s) && CopyInv(s, last) && Enabled(s, a) && InTurn(last, a) && !a.TrainStep?
    ensures CopyInv(Apply(s, a), AfterBegin(last, a))
  {
    hide LedgerInv, Enabled, Apply, T.Start, TrainVersion, CopiesOk, NotBehind, Precedes;
    var t := Apply(s, a);
    TrainsElsewhere(s, a);
    ReportsElsewhere(s, a);
    if a.BeginTrain? {
      BeginMeans(s, a.trainCopy, NewInference("", 0, InferenceSpec(0, map[], ""), []));
    }
    forall n | n in t.trainPasses
      ensures n in AfterBegin(last, a) && (!T.Over(t.trainPasses[n]) ==> t.trainPasses[n].b == AfterBegin(last, a)[n])
    {
      PassesElsewhere(s, a, n);
      if a.BeginTrain? {
        StartCarries(a.trainCopy);
      }
    }
    if a.CreateTrain? {
      CreationKeepsCopies(last, s.lastTrains, s.reportedTrains, NewTrain(a.name, a.created, a.trainSpec));
    } else if a.BeginTrain? {
      VersionPrecedes(s, a.trainCopy);
      BeginKeepsCopies(last, s.lastTrains, a.trainCopy);
    }
    StoredPrecede(s);
  }

  lemma StoredPrecede(s: System)
    requires LedgerInv(s)
    ensures forall n :: n in s.store.trains ==> s.store.trains[n].name == n && n in s.lastTrains
                                                && Precedes(s.store.trains[n], s.lastTrains[n])
  {
    hide LedgerInv;
    forall n | n in s.store.trains
      ensures s.store.trains[n].name == n && n in s.lastTrains && Precedes(s.store.trains[n], s.lastTrains[n])
    {
      LatestIsStored(s, n);
    }
  }

  // ---------------------------------------------------------------- groups

  ghost predicate GroupsFit(groups: map<GroupKey, PodGroup>, lasts: Trains) {
    forall g :: g in groups ==> groups[g].owner == g.job && g.job in lasts && GroupFits(lasts[g.job], g, groups[g])
  }

  /** About to write a release. */
  predicate Releasing(pc: T.TrainPc) {
    pc.TWrite? && pc.b.status.phase == Preempted
  }

  ghost predicate ReleasesOk(passes: map<string, T.TrainPc>, groups: map<GroupKey, PodGroup>) {
    forall n :: n in passes && Releasing(passes[n]) ==> T.GroupOf(passes[n].b) !in groups
  }

  ghost predicate GroupInv(s: System) {
    GroupsFit(s.store.groups, s.lastTrains) && ReleasesOk(s.trainPasses, s.store.groups)
  }

  lemma WriteKeepsGroups(groups: map<GroupKey, PodGroup>, lasts: Trains, b: TrainJob, st: TrainStatus)
    requires GroupsFit(groups, lasts) && b.name in lasts && lasts[b.name] == b && T.Moves(b, st)
    requires b.status.phase == Preempted ==> T.GroupOf(b) !in groups
    ensures GroupsFit(groups, lasts[b.name := b.(status := st)])
  {
  }

  /** A copy that drives is of the job's present epoch, and the job has been started in it. */
  lemma CreationFits(b: TrainJob, j: TrainJob)
    requires CopyOk(b, j) && DrivingTrain(b.status.phase) && b.name == j.name
    ensures GroupFits(j, T.GroupOf(b), T.NewGroup(b)) && T.NewGroup(b).owner == b.name
  {
  }

  lemma CallReleases(s: Store, pc: T.TrainPc, seen: T.Reads)
    requires T.ReadsOk(s, pc, seen) && (!T.Over(pc) ==> T.HeadsForMove(pc))
    requires Releasing(T.TrainCall(s, pc, seen).1)
    ensures var (t, next) := T.TrainCall(s, pc, seen); T.GroupOf(next.b) !in t.groups
  {
    hide T.Aggregate, T.Listing, T.Granted, T.AttemptPods, T.PreemptorGone, T.Moves, T.ServiceFor, T.NewGroup,
      T.NewWorker;
  }

  /** What a call other than the status write may do to the groups. */
  lemma CallKeepsGroups(s: Store, pc: T.TrainPc, seen: T.Reads, lasts: Trains, j: TrainJob)
    requires T.ReadsOk(s, pc, seen) && T.HeadsForMove(pc) && !T.Over(pc)
    requires GroupsFit(s.groups, lasts) && pc.b.name in lasts && lasts[pc.b.name] == j && j.name == pc.b.name
    requires CopyOk(pc.b, j)
    ensures var t := T.TrainCall(s, pc, seen).0.groups;
            GroupsFit(t, lasts) && forall g :: g in t && g !in s.groups ==> g.job == pc.b.name && !pc.TWrite?
  {
    hide T.TrainCall, T.ReadsOk, T.HeadsForMove, GroupFits, T.NewGroup, CopyOk;
    CallChangesGroups(s, pc, seen);
    if pc.TCreateGroup? {
      CreatorDrives(pc);
      CreationFits(pc.b, j);
    } else if pc.TClearDetail? {
      SameFit(j, T.GroupOf(pc.b), pc.g, pc.g.(detail := 0));
    }
  }

  lemma CallMovesGroups(s: Store, pc: T.TrainPc, seen: T.Reads)
    requires T.ReadsOk(s, pc, seen) && T.Over(pc)
    ensures T.TrainCall(s, pc, seen).0 == s
  {
  }

  lemma WriteLeavesGroups(s: Store, pc: T.TrainPc, seen: T.Reads)
    requires T.ReadsOk(s, pc, seen) && pc.TWrite?
    ensures T.TrainCall(s, pc, seen).0.groups == s.groups && !Releasing(T.TrainCall(s, pc, seen).1)
  {
  }

  /** The groups a pass of `n` makes are not those whose release another pass is about to write. */
  lemma OthersRelease(passes: map<string, T.TrainPc>, groups: map<GroupKey, PodGroup>, n: string, next: T.TrainPc,
                      after: map<GroupKey, PodGroup>, last: Trains)
    requires ReleasesOk(passes, groups) && PassesCarry(passes, last)
    requires forall m :: m in last ==> last[m].name == m
    requires forall g :: g in after && g !in groups ==> g.job == n
    requires Releasing(next) ==> T.GroupOf(next.b) !in after
    ensures ReleasesOk(passes[n := next], after)
  {
  }

  lemma OwnStepKeepsGroups(s: System, a: Action, last: Trains)
    requires LedgerInv(s) && CopyInv(s, last) && GroupInv(s) && Enabled(s, a) && a.TrainStep?
    ensures GroupInv(Apply(s, a))
  {
    hide LedgerInv, Enabled, Apply, T.TrainCall, T.ReadsOk, T.HeadsForMove, T.Moves, GroupsFit, ReleasesOk, CopyOk,
      ReportsOk, Releasing;
    var n := a.name;
    TrainStepMeans(s, n, a.items, a.ledger);
    TrainStepChanges(s, n, a.items, a.ledger);
    var pc, seen, t := s.trainPasses[n], TrainReads(s, a.items, a.ledger), Apply(s, a);
    var next := T.TrainCall(s.store, pc, seen).1;
    GateOf(s, n);
    LatestIsStored(s, n);
    if T.Over(pc) {
      CallMovesGroups(s.store, pc, seen);
    } else if pc.TWrite? {
      WriteLeavesGroups(s.store, pc, seen);
      if t.lastTrains != s.lastTrains {
        WriteIsGood(s, n);
        NotReleased(s.trainPasses, s.store.groups, n);
        WriteKeepsGroups(s.store.groups, s.lastTrains, pc.b, pc.st);
      }
    } else {
      CallKeepsGroups(s.store, pc, seen, s.lastTrains, s.lastTrains[n]);
    }
    if Releasing(next) {
      CallReleases(s.store, pc, seen);
    }
    OthersRelease(s.trainPasses, s.store.groups, n, next, t.store.groups, last);
  }

  lemma NotReleased(passes: map<string, T.TrainPc>, groups: map<GroupKey, PodGroup>, n: string)
    requires ReleasesOk(passes, groups) && n in passes && passes[n].TWrite?
    ensures passes[n].b.status.phase == Preempted ==> T.GroupOf(passes[n].b) !in groups
  {
  }

  lemma CreatorDrives(pc: T.TrainPc)
    requires pc.TCreateGroup? && T.HeadsForMove(pc)
    ensures DrivingTrain(pc.b.status.phase)
  {
  }

  lemma SameFit(j: TrainJob, g: GroupKey, group: PodGroup, now: PodGroup)
    requires now.epoch == group.epoch
    ensures GroupFits(j, g, group) == GroupFits(j, g, now)
  {
  }

  /** Others only take groups away or report on them. */
  lemma GroupsReportedElsewhere(s: System, a: Action)
    requires Enabled(s, a) && !a.TrainStep?
    ensures forall g :: g in Apply(s, a).store.groups
              ==> g in s.store.groups && Apply(s, a).store.groups[g].owner == s.store.groups[g].owner
                  && Apply(s, a).store.groups[g].epoch == s.store.groups[g].epoch
  {
    if a.QueueStep? {
      hide Enabled, Apply, QueueCall, ChoiceOk;
      QueueStepMeans(s, a.after);
    } else if a.InferenceStep? {
      hide Enabled, Apply, I.InfCall;
      InferenceStepMeans(s, a.name, a.ledger);
      I.CallWrites(s.store, s.infPasses[a.name], s.ledgers[a.ledger]);
    } else if a.MarkGroup? {
      hide T.TrainCall, I.InfCall, QueueCall, ChoiceOk, T.ReadsOk, T.Start, I.Start, Latest, I.Stored, NewTrain,
        NewInference;
    } else {
      hide Enabled, Apply;
      GroupsLeftAlone(s, a);
    }
  }

  lemma OtherStepKeepsGroups(s: System, a: Action)
    requires LedgerInv(s) && GroupInv(s) && Enabled(s, a) && !a.TrainStep?
    ensures GroupInv(Apply(s, a))
  {
    hide LedgerInv, Enabled, Apply, T.Start, TrainVersion, GroupFits;
    var t := Apply(s, a);
    TrainsElsewhere(s, a);
    GroupsReportedElsewhere(s, a);
    forall n | n in t.trainPasses && Releasing(t.trainPasses[n])
      ensures T.GroupOf(t.trainPasses[n].b) !in t.store.groups
    {
      PassesElsewhere(s, a, n);
      if a.BeginTrain? {
        StartCarries(a.trainCopy);
      }
    }
    forall g | g in t.store.groups
      ensures t.store.groups[g].owner == g.job && g.job in t.lastTrains
              && GroupFits(t.lastTrains[g.job], g, t.store.groups[g])
    {
      SameFit(s.lastTrains[g.job], g, s.store.groups[g], t.store.groups[g]);
    }
  }

  lemma StepKeepsGroups(s: System, a: Action, last: Trains)
    requires LedgerInv(s) && CopyInv(s, last) && GroupInv(s) && Enabled(s, a)
    ensures GroupInv(Apply(s, a))
  {
    hide *;
    if a.TrainStep? {
      OwnStepKeepsGroups(s, a, last);
    } else {
      OtherStepKeepsGroups(s, a);
    }
  }

  // ---------------------------------------------------------------- along ordered runs

  lemma OrderedStep(ss: seq<System>, acts: seq<Action>, i: nat)
    requires OrderedRun(ss, acts) && i + 1 < |ss|
    ensures Run(ss, acts) && i < |acts| && InTurn(LastCopies(acts[..i]), acts[i])
    ensures LastCopies(acts[..i + 1]) == AfterBegin(LastCopies(acts[..i]), acts[i])
  {
    assert acts[..i + 1][..i] == acts[..i];
    hide Run, InTurn, AfterBegin;
    assert Run(ss, acts);
    RunStep(ss, acts, i);
  }

  lemma {:induction false} OrderedInv(ss: seq<System>, acts: seq<Action>, i: nat)
    requires OrderedRun(ss, acts) && i < |ss| && i <= |acts|
    ensures LedgerInv(ss[i]) && CopyInv(ss[i], LastCopies(acts[..i])) && GroupInv(ss[i])
    decreases i
  {
    hide *;
    OrderedIsRun(ss, acts);
    RunLedger(ss, acts, i);
    if i == 0 {
      FirstInv(ss, acts);
    } else {
      OrderedStep(ss, acts, i - 1);
      RunStep(ss, acts, i - 1);
      OrderedInv(ss, acts, i - 1);
      StepKeepsCopies(ss[i - 1], acts[i - 1], LastCopies(acts[..i - 1]));
      StepKeepsGroups(ss[i - 1], acts[i - 1], LastCopies(acts[..i - 1]));
    }
  }

  lemma OrderedIsRun(ss: seq<System>, acts: seq<Action>)
    requires OrderedRun(ss, acts)
    ensures Run(ss, acts) && |ss| == |acts| + 1
  {
  }

  lemma FirstInv(ss: seq<System>, acts: seq<Action>)
    requires Run(ss, acts)
    ensures CopyInv(ss[0], LastCopies(acts[..0])) && GroupInv(ss[0])
  {
  }

  // ---------------------------------------------------------------- caches that have not caught up

  function AfterInfBegin(last: Infs, a: Action): Infs {
    if a.BeginInference? then last[a.infCopy.name := a.infCopy] else last
  }

  /** The copies with which the latest pass over each InferenceJob began. */
  function LastInfCopies(acts: seq<Action>): Infs {
    if acts == [] then map[] else AfterInfBegin(LastInfCopies(acts[..|acts| - 1]), acts[|acts| - 1])
  }

  /** A pass begins with the stored version, or once more with the copy that the pass before it began with. */
  predicate Timely(last: Trains, lastInfs: Infs, s: System, a: Action) {
    || Fresh(s, a)
    || (a.BeginTrain? && a.trainCopy.name in last && last[a.trainCopy.name] == a.trainCopy)
    || (a.BeginInference? && a.infCopy.name in lastInfs && lastInfs[a.infCopy.name] == a.infCopy)
  }

  /** A run in which a cache may miss the latest writes, but otherwise shows what is stored. */
  ghost predicate LaggingRun(ss: seq<System>, acts: seq<Action>) {
    && Run(ss, acts)
    && forall i :: 0 <= i < |acts| ==> Timely(LastCopies(acts[..i]), LastInfCopies(acts[..i]), ss[i], acts[i])
  }

  lemma FreshIsLagging(ss: seq<System>, acts: seq<Action>)
    requires FreshRun(ss, acts)
    ensures LaggingRun(ss, acts)
  {
    hide Run, Fresh;
  }

  lemma TimelyIsInTurn(s: System, a: Action, last: Trains, lastInfs: Infs)
    requires LedgerInv(s) && CopyInv(s, last) && Timely(last, lastInfs, s, a)
    ensures InTurn(last, a)
  {
    hide LedgerInv;
    if a.BeginTrain? && a.trainCopy.name in last {
      LatestIsStored(s, a.trainCopy.name);
      assert CopyOk(last[a.trainCopy.name], s.lastTrains[a.trainCopy.name]);
    }
  }

  lemma {:induction false} LaggingInv(ss: seq<System>, acts: seq<Action>, i: nat)
    requires LaggingRun(ss, acts) && i < |ss| && i <= |acts|
    ensures CopyInv(ss[i], LastCopies(acts[..i]))
    decreases i
  {
    hide *;
    LaggingIsRun(ss, acts);
    if i == 0 {
      FirstInv(ss, acts);
    } else {
      LaggingInv(ss, acts, i - 1);
      LaggingStep(ss, acts, i - 1);
      RunStep(ss, acts, i - 1);
      RunLedger(ss, acts, i - 1);
      TimelyIsInTurn(ss[i - 1], acts[i - 1], LastCopies(acts[..i - 1]), LastInfCopies(acts[..i - 1]));
      StepKeepsCopies(ss[i - 1], acts[i - 1], LastCopies(acts[..i - 1]));
    }
  }

  lemma LaggingIsRun(ss: seq<System>, acts: seq<Action>)
    requires LaggingRun(ss, acts)
    ensures Run(ss, acts) && |ss| == |acts| + 1
  {
  }

  lemma LaggingStep(ss: seq<System>, acts: seq<Action>, i: nat)
    requires LaggingRun(ss, acts) && i < |acts|
    ensures Timely(LastCopies(acts[..i]), LastInfCopies(acts[..i]), ss[i], acts[i])
    ensures LastCopies(acts[..i + 1]) == AfterBegin(LastCopies(acts[..i]), acts[i])
  {
    assert acts[..i + 1][..i] == acts[..i];
    hide Run, Timely, AfterBegin;
  }

  /** Such a cache never goes back. */
  lemma LaggingIsOrdered(ss: seq<System>, acts: seq<Action>)
    requires LaggingRun(ss, acts)
    ensures OrderedRun(ss, acts)
  {
    hide Run, Timely, InTurn, CopyInv, LedgerInv;
    LaggingIsRun(ss, acts);
    forall i | 0 <= i < |acts| ensures InTurn(LastCopies(acts[..i]), acts[i]) {
      LaggingInv(ss, acts, i);
      LaggingStep(ss, acts, i);
      RunLedger(ss, acts, i);
      TimelyIsInTurn(ss[i], acts[i], LastCopies(acts[..i]), LastInfCopies(acts[..i]));
    }
  }
}
