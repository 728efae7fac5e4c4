/** Runs that show the limits of the design, built from whole passes of the reconcilers. */
module Witnesses {
  import opened Resources
  import opened ClusterTypes
  import opened QueueAdmission
  import opened Cluster
  import opened LedgerInvariant
  import opened LedgerSteps
  import opened PodInvariant
  import opened Refinement
  import opened PassEffects
  import T = TrainLifecycle
  import I = InferenceLifecycle
  import L = Liveness
  import E = TrainEffects

  // ---------------------------------------------------------------- reached states

  ghost predicate RunTo(ss: seq<System>, acts: seq<Action>, s: System) {
    Run(ss, acts) && ss[|ss| - 1] == s
  }

  ghost predicate FreshRunTo(ss: seq<System>, acts: seq<Action>, s: System) {
    FreshRun(ss, acts) && ss[|ss| - 1] == s
  }

  /** Some run, in which all passes begin with stored versions, ends in this state. */
  ghost predicate Reached(s: System) {
    exists ss, acts :: FreshRunTo(ss, acts, s)
  }

  lemma StepOn(ss: seq<System>, acts: seq<Action>, s: System, a: Action)
    requires RunTo(ss, acts, s) && Enabled(s, a)
    ensures RunTo(ss + [Apply(s, a)], acts + [a], Apply(s, a))
    ensures FreshRun(ss, acts) && Fresh(s, a) ==> FreshRun(ss + [Apply(s, a)], acts + [a])
  {
    var longer, more := ss + [Apply(s, a)], acts + [a];
    forall i | 0 <= i < |more|
      ensures Enabled(longer[i], more[i]) && longer[i + 1] == Apply(longer[i], more[i])
      ensures FreshRun(ss, acts) && Fresh(s, a) ==> Fresh(longer[i], more[i])
    {
      assert i < |acts| ==> more[i] == acts[i] && longer[i] == ss[i] && longer[i + 1] == ss[i + 1];
    }
    hide Enabled, Apply, Fresh, Init;
  }

  lemma ReachStep(s: System, a: Action)
    requires Reached(s) && Enabled(s, a) && Fresh(s, a)
    ensures Reached(Apply(s, a))
  {
    hide Enabled, Apply, Fresh;
    var ss, acts :| FreshRunTo(ss, acts, s);
    FreshRunIsRun(ss, acts);
    StepOn(ss, acts, s, a);
    assert FreshRunTo(ss + [Apply(s, a)], acts + [a], Apply(s, a));
  }

  lemma ReachedInv(s: System)
    requires Reached(s)
    ensures Inv(s)
  {
    hide Inv;
    var ss, acts :| FreshRunTo(ss, acts, s);
    RunInv(ss, acts, |ss| - 1);
  }

  predicate BeginsNothing(acts: seq<Action>) {
    forall a :: a in acts ==> !a.BeginTrain? && !a.BeginInference?
  }

  lemma {:induction false} ReachLeads(s: System, acts: seq<Action>, t: System)
    requires Reached(s) && Leads(s, acts, t) && BeginsNothing(acts)
    ensures Reached(t)
    decreases |acts|
  {
    hide Reached, Enabled, Apply;
    if acts != [] {
      assert acts[0] in acts;
      ReachStep(s, acts[0]);
      ReachLeads(Apply(s, acts[0]), acts[1..], t);
    }
  }

  // ---------------------------------------------------------------- single steps, spelled out

  lemma CreateMeans(s: System, n: string, spec: TrainSpec)
    requires n !in s.lastTrains && TrainSpecOk(spec)
    ensures var a, j := CreateTrain(n, 0, spec), NewTrain(n, 0, spec);
            Enabled(s, a) && Apply(s, a)
              == s.(store := s.store.(trains := s.store.trains[n := j]), lastTrains := s.lastTrains[n := j])
  {
    hide T.TrainCall, I.InfCall, QueueCall, ChoiceOk, T.ReadsOk, T.Start, I.Start, TrainSpecOk;
  }

  lemma DeleteMeans(s: System, n: string)
    ensures Enabled(s, DeleteTrain(n))
    ensures Apply(s, DeleteTrain(n)) == s.(store := s.store.(trains := s.store.trains - {n}))
    ensures Enabled(s, EndTrain(n)) && Apply(s, EndTrain(n)) == s.(trainPasses := s.trainPasses - {n})
    ensures n !in s.store.trains ==>
              Enabled(s, ForgetTrain(n)) && Apply(s, ForgetTrain(n)) == s.(seenTrains := s.seenTrains - {n})
  {
    hide T.TrainCall, I.InfCall, QueueCall, ChoiceOk, T.ReadsOk, T.Start, I.Start;
  }

  lemma ReportMeans(s: System, n: string, v: TrainJob)
    ensures n in s.store.trains ==>
              Enabled(s, ReportTrain(n))
              && Apply(s, ReportTrain(n)) == s.(reportedTrains := s.reportedTrains + {s.store.trains[n]})
    ensures v in s.reportedTrains ==>
              Enabled(s, SyncTrain(v)) && Apply(s, SyncTrain(v)) == s.(seenTrains := s.seenTrains[v.name := v])
  {
    hide T.TrainCall, I.InfCall, QueueCall, ChoiceOk, T.ReadsOk, T.Start, I.Start;
  }

  lemma WorkerMeans(s: System, k: PodKey, now: WorkerPod)
    requires k in s.store.workers && now.requests == s.store.workers[k].requests && !Finished(s.store.workers[k])
    ensures Enabled(s, ChangeWorker(k, now))
    ensures Apply(s, ChangeWorker(k, now)) == s.(store := s.store.(workers := s.store.workers[k := now]))
  {
    hide T.TrainCall, I.InfCall, QueueCall, ChoiceOk, T.ReadsOk, T.Start, I.Start;
  }

  lemma MarkMeans(s: System, g: GroupKey, who: JobRef)
    requires g in s.store.groups
    ensures var mark := s.store.groups[g].(preemptedBy := Some(who));
            Enabled(s, MarkGroup(g, mark))
            && Apply(s, MarkGroup(g, mark)) == s.(store := s.store.(groups := s.store.groups[g := mark]))
  {
    hide T.TrainCall, I.InfCall, QueueCall, ChoiceOk, T.ReadsOk, T.Start, I.Start;
  }

  // ---------------------------------------------------------------- whole passes

  lemma Named(s: System, n: string)
    requires Reached(s) && n in s.store.trains
    ensures s.store.trains[n].name == n && 0 <= s.store.trains[n].spec.worldSize
    ensures LedgerInv(s) && n in s.lastTrains && s.lastTrains[n] == s.store.trains[n]
  {
    ReachedInv(s);
    LatestIsStored(s, n);
    hide Reached, LedgerInv, PodInv;
  }

  /** A complete pass over a stored job, from its first call to its end. */
  lemma WholePass(s: System, n: string, calls: nat, order: T.Order) returns (t: System)
    requires Reached(s) && s.trainPasses == map[] && n in s.store.trains && T.OrderOk(order)
    ensures Reached(t) && t.lastTrains.Keys == s.lastTrains.Keys
    ensures t == s.(store := T.RunTrainPass(s.store, s.store.trains, n, calls, order).0, lastTrains := t.lastTrains)
  {
    hide Reached, Enabled, Apply, Fresh, T.OrderOk, T.RunTrain, Leads, LedgerInv;
    Named(s, n);
    var acts, u := TrainPassLeads(s, s.store.trains, n, calls, order);
    if acts == [] {
      LeadsNowhere(s, u);
    } else {
      LeadsFirst(s, acts, u);
      StoredIsFresh(s, n);
      ReachStep(s, acts[0]);
      assert BeginsNothing(acts[1..]);
      ReachLeads(Apply(s, acts[0]), acts[1..], u);
    }
    DeleteMeans(u, n);
    EndIsFresh(u, n);
    ReachStep(u, EndTrain(n));
    t := Apply(u, EndTrain(n));
    assert t.trainPasses == map[] by {
      assert u.trainPasses.Keys <= {n};
    }
  }

  lemma LeadsNowhere(s: System, u: System)
    requires Leads(s, [], u)
    ensures s == u
  {
  }

  lemma LeadsFirst(s: System, acts: seq<Action>, u: System)
    requires acts != [] && Leads(s, acts, u)
    ensures Enabled(s, acts[0]) && Leads(Apply(s, acts[0]), acts[1..], u)
  {
    hide Enabled, Apply;
  }

  lemma StoredIsFresh(s: System, n: string)
    requires n in s.store.trains && s.store.trains[n].name == n
    ensures Fresh(s, BeginTrain(s.store.trains[n]))
  {
  }

  lemma EndIsFresh(s: System, n: string)
    ensures Fresh(s, EndTrain(n))
  {
  }

  /** A complete pass of the queue reconciler. */
  lemma QueuePass(s: System, after: seq<Entry>)
    requires Reached(s) && s.queuePass == QIdle
    requires QueueNext(s.store.quota, s.store.used, s.store.classes, s.seenTrains, s.seenInfs, after)
    ensures Reached(AfterQueuePass(s, after))
  {
    hide Reached, Leads, QueueNext;
    var acts := QueuePassLeads(s, after);
    ReachLeads(s, acts, AfterQueuePass(s, after));
  }

  /** The cache catches up with one job. */
  lemma CatchUp(s: System, n: string) returns (t: System)
    requires Reached(s) && n in s.store.trains
    ensures Reached(t)
    ensures t == s.(reportedTrains := s.reportedTrains + {s.store.trains[n]},
                    seenTrains := s.seenTrains[n := s.store.trains[n]])
  {
    hide Reached, Enabled, Apply, LedgerInv;
    Named(s, n);
    var v := s.store.trains[n];
    ReportMeans(s, n, v);
    ReachStep(s, ReportTrain(n));
    var u := Apply(s, ReportTrain(n));
    ReportMeans(u, n, v);
    ReachStep(u, SyncTrain(v));
    t := Apply(u, SyncTrain(v));
  }

  // ---------------------------------------------------------------- a job from its creation to its pod

  /** One worker that asks for one gpu, and one retry. */
  const UNIT := TrainSpec(1, 1, 0, map["gpu" := 1], "")

  function UnitJob(n: string, phase: TrainPhase): TrainJob {
    TrainJob(n, 0, UNIT, TrainStatus(phase, 0, 0, None, 0, 0))
  }

  function UnitEntry(n: string): Entry {
    Entry(n, Train, TrainDemand(UNIT), 0)
  }

  const UNIT_POD := WorkerPod(Pending, false, map["gpu" := 1])

  /** Nothing is under way, and the cache shows no waiting job. */
  ghost predicate Quiet(s: System) {
    Reached(s) && s.queuePass == QIdle && s.trainPasses == map[] && !SomeWaiting(s.seenTrains, s.seenInfs)
  }

  lemma Submit(s: System, n: string, order: T.Order) returns (t: System)
    requires Quiet(s) && n !in s.lastTrains && T.OrderOk(order)
    ensures Reached(t) && t == s.(store := s.store.(trains := s.store.trains[n := UnitJob(n, Queued)]),
                                  lastTrains := t.lastTrains)
    ensures t.lastTrains.Keys == s.lastTrains.Keys + {n}
  {
    hide Reached, Enabled, Apply, T.OrderOk, T.RunTrain, T.RunTrainPass, SomeWaiting;
    CreateMeans(s, n, UNIT);
    ReachStep(s, CreateTrain(n, 0, UNIT));
    var u := Apply(s, CreateTrain(n, 0, UNIT));
    E.WaitingPass(u.store, n, 3, order);
    var v := WholePass(u, n, 3, order);
    E.WaitingPass(v.store, n, 3, order);
    t := WholePass(v, n, 3, order);
    assert t.store.trains == s.store.trains[n := UnitJob(n, Queued)];
  }

  lemma AdmitsHim(s: System, n: string)
    requires Reached(s) && !SomeWaiting(s.seenTrains, s.seenInfs)
    requires n in s.store.trains && s.store.trains[n] == UnitJob(n, Queued)
    requires Clean(s.store.used, s.seenTrains[n := UnitJob(n, Queued)], s.seenInfs) == s.store.used
    requires !Listed(s.store.used, JobRef(n, Train)) && 1 <= Left(s.store.quota, s.store.used, "gpu")
    ensures QueueNext(s.store.quota, s.store.used, s.store.classes, s.seenTrains[n := UnitJob(n, Queued)], s.seenInfs,
                      s.store.used + [UnitEntry(n)])
  {
    var seen, h := s.seenTrains[n := UnitJob(n, Queued)], QueuedTrain(UnitJob(n, Queued));
    assert Waiting(seen, s.seenInfs, h);
    forall q | Waiting(seen, s.seenInfs, q) ensures q == h {
      assert q.kind == Inference || q.name != n ==> Waiting(s.seenTrains, s.seenInfs, q);
    }
    ComparatorIsStrictWeakOrder(s.store.classes, h, h, h);
    assert Head(s.store.classes, seen, s.seenInfs, h) by { hide Before; }
    assert h.res.Keys == {"gpu"} && h.res["gpu"] == 1;
    assert Admit(s.store.quota, s.store.used, h) == s.store.used + [UnitEntry(n)];
    hide Reached, Before, Clean, Total;
  }

  /** The cache sees the queued job, and a queue pass admits it. */
  lemma Admission(s: System, n: string) returns (t: System)
    requires Reached(s) && s.queuePass == QIdle && !SomeWaiting(s.seenTrains, s.seenInfs)
    requires n in s.store.trains && s.store.trains[n] == UnitJob(n, Queued)
    requires Clean(s.store.used, s.seenTrains[n := UnitJob(n, Queued)], s.seenInfs) == s.store.used
    requires !Listed(s.store.used, JobRef(n, Train)) && 1 <= Left(s.store.quota, s.store.used, "gpu")
    ensures Reached(t)
    ensures t == s.(store := s.store.(used := s.store.used + [UnitEntry(n)]), ledgers := t.ledgers,
                    reportedTrains := t.reportedTrains, seenTrains := t.seenTrains)
    ensures t.seenTrains == s.seenTrains[n := UnitJob(n, Queued)]
  {
    AdmitsHim(s, n);
    hide Reached, QueueNext, SomeWaiting, Clean, Listed, Left;
    var u := CatchUp(s, n);
    var after := s.store.used + [UnitEntry(n)];
    QueuePass(u, after);
    t := AfterQueuePass(u, after);
    assert |after| != |s.store.used|;
  }

  lemma StartPass(s: Store, n: string, order: T.Order)
    requires T.OrderOk(order) && n in s.trains && s.trains[n] == UnitJob(n, Queued) && T.Granted(s.used, s.trains[n])
    ensures T.RunTrainPass(s, s.trains, n, 3, order).0 == s.(trains := s.trains[n := UnitJob(n, Starting)])
  {
    hide T.RunTrainPass, T.Granted, T.OrderOk;
    E.GrantedMeans(s.used, s.trains[n]);
    E.WaitingPass(s, n, 3, order);
  }

  /** The job is started and its one pod is made. */
  ghost predicate PodMade(s: Store, t: Store, n: string) {
    && t == s.(trains := t.trains, services := t.services, groups := t.groups, workers := t.workers)
    && t.trains.Keys == s.trains.Keys && (forall m :: m in s.trains && m != n ==> t.trains[m] == s.trains[m])
    && n in t.trains && StartedUnit(t.trains[n], n)
    && (forall k :: k in s.workers ==> k in t.workers && t.workers[k] == s.workers[k])
    && PodKey(n, 0, 0) in t.workers && t.workers[PodKey(n, 0, 0)] == UNIT_POD
    && GroupKey(n, 0) in t.groups && t.groups[GroupKey(n, 0)] == PodGroup(n, 1, false, 0, None, 0)
    && (forall g :: g in s.groups ==> g in t.groups && t.groups[g] == s.groups[g])
  }

  predicate StartedUnit(j: TrainJob, n: string) {
    j.name == n && j.spec == UNIT && j.status.phase == Starting && j.status.attempt == 0 && j.status.requeueCount == 0
  }

  lemma PodPass(s: Store, n: string, order: T.Order)
    requires T.OrderOk(order) && n in s.trains && s.trains[n] == UnitJob(n, Starting)
    requires forall k :: k in s.workers ==> k.job != n
    requires forall g :: g in s.groups ==> g.job != n
    ensures PodMade(s, T.RunTrainPass(s, s.trains, n, 12, order).0, n)
  {
    hide T.RunTrain, T.RunTrainPass, T.OrderOk, ServiceReady, GroupReady, PhaseSaysGang, PodMade;
    var b := s.trains[n];
    assert !SomeFailed(s.workers, b);
    CompletePass(s, n, 12, order);
    PodPassMade(s, T.RunTrainPass(s, s.trains, n, 12, order).0, n);
  }

  lemma PodPassMade(s: Store, t: Store, n: string)
    requires n in s.trains && s.trains[n] == UnitJob(n, Starting)
    requires forall k :: k in s.workers ==> k.job != n
    requires forall g :: g in s.groups ==> g.job != n
    requires t == s.(trains := t.trains, services := t.services, groups := t.groups, workers := t.workers)
    requires t.trains.Keys == s.trains.Keys && (forall m :: m in s.trains && m != n ==> t.trains[m] == s.trains[m])
    requires GroupReady(s, t, s.trains[n]) && Ensured(s.workers, t.workers, s.trains[n], 0)
    requires t.trains[n] == s.trains[n].(status := t.trains[n].status)
    requires t.trains[n].status.attempt == 0 && t.trains[n].status.requeueCount == 0
    requires PhaseSaysGang(t.workers, s.trains[n], t.trains[n].status.phase)
    ensures PodMade(s, t, n)
  {
    var key := PodKey(n, 0, 0);
    assert key in t.workers && t.workers[key] == T.NewWorker(s.trains[n]);
    assert !T.RankIs(t.workers, key, PodRunning) && !T.RankIs(t.workers, key, PodSucceeded);
    assert !T.AllUp(t.workers, n, 0, 1);
  }

  /** The store with the job admitted and started. */
  function WithStarted(s: Store, n: string): Store {
    s.(trains := s.trains[n := UnitJob(n, Starting)], used := s.used + [UnitEntry(n)])
  }

  /** What bringing up the job `n` has changed. */
  ghost predicate BroughtUp(s: System, t: System, n: string) {
    && PodMade(WithStarted(s.store, n), t.store, n)
    && t.quotas == s.quotas && t.seenInfs == s.seenInfs
    && t.seenTrains == s.seenTrains[n := t.store.trains[n]] && t.store.trains[n] in t.reportedTrains
    && t.lastTrains.Keys == s.lastTrains.Keys + {n}
  }

  /** A fresh name has no pods, no groups and no entry. */
  lemma FreshName(s: System, n: string)
    requires Reached(s) && n !in s.lastTrains
    ensures forall k :: k in s.store.workers ==> k.job != n
    ensures forall g :: g in s.store.groups ==> g.job != n
    ensures !Listed(s.store.used, JobRef(n, Train))
    ensures n !in s.store.trains
  {
    ReachedInv(s);
    NamesOfEntries(s);
    LatestIsStored(s, n);
    hide Reached, LedgerInv, ServersOk, TrainPassesOk, InfPassesOk, GroupOk, WorkerOk;
  }

  lemma EntryGrants(used: seq<Entry>, n: string)
    ensures T.Granted(used + [UnitEntry(n)], UnitJob(n, Queued))
  {
    var all := used + [UnitEntry(n)];
    assert T.Matching(all[|used|], UnitJob(n, Queued));
  }

  lemma NobodyElseWaits(seen: Trains, infs: Infs, n: string, j: TrainJob)
    requires !SomeWaiting(seen, infs) && j.status.phase != Queued
    ensures !SomeWaiting(seen[n := j], infs)
  {
    var after := seen[n := j];
    if q :| Waiting(after, infs, q) {
      assert Waiting(seen, infs, q);
    }
  }

  /** From nothing to a started job, on a quota that has room for it. */
  lemma StartUp(s: System, n: string, order: T.Order) returns (t: System)
    requires Quiet(s) && n !in s.lastTrains && T.OrderOk(order)
    requires Clean(s.store.used, s.seenTrains[n := UnitJob(n, Queued)], s.seenInfs) == s.store.used
    requires 1 <= Left(s.store.quota, s.store.used, "gpu")
    ensures Reached(t)
    ensures t == s.(store := WithStarted(s.store, n),
                    ledgers := t.ledgers, reportedTrains := t.reportedTrains, lastTrains := t.lastTrains,
                    seenTrains := s.seenTrains[n := UnitJob(n, Queued)])
    ensures t.lastTrains.Keys == s.lastTrains.Keys + {n}
    ensures n in t.store.trains && t.store.trains[n] == UnitJob(n, Starting)
    ensures t.store.workers == s.store.workers && t.store.groups == s.store.groups
  {
    hide Reached, T.OrderOk, T.RunTrain, T.RunTrainPass, SomeWaiting, Clean, Listed, Left, T.Granted;
    FreshName(s, n);
    var u := Submit(s, n, order);
    var v := Admission(u, n);
    EntryGrants(s.store.used, n);
    StartPass(v.store, n, order);
    t := WholePass(v, n, 3, order);
    assert t.store.trains == s.store.trains[n := UnitJob(n, Starting)];
  }

  /** A started job gets its pod, and the cache notices. */
  lemma PodUp(s: System, n: string, order: T.Order) returns (t: System)
    requires Reached(s) && s.trainPasses == map[] && T.OrderOk(order)
    requires n in s.store.trains && s.store.trains[n] == UnitJob(n, Starting)
    requires forall k :: k in s.store.workers ==> k.job != n
    requires forall g :: g in s.store.groups ==> g.job != n
    ensures Reached(t) && PodMade(s.store, t.store, n)
    ensures n in t.store.trains && t.store.trains[n].status.phase == Starting
    ensures t == s.(store := t.store, lastTrains := t.lastTrains, reportedTrains := t.reportedTrains,
                    seenTrains := s.seenTrains[n := t.store.trains[n]])
    ensures t.lastTrains.Keys == s.lastTrains.Keys && t.store.trains[n] in t.reportedTrains
  {
    hide Reached, T.OrderOk, T.RunTrain, T.RunTrainPass, PodMade;
    PodPass(s.store, n, order);
    var x := WholePass(s, n, 12, order);
    JobIsThere(s.store, x.store, n);
    t := CatchUp(x, n);
  }

  /** From nothing to a started job with its pod, on a quota that has room for it. */
  lemma BringUp(s: System, n: string, order: T.Order) returns (t: System)
    requires Quiet(s) && n !in s.lastTrains && T.OrderOk(order)
    requires Clean(s.store.used, s.seenTrains[n := UnitJob(n, Queued)], s.seenInfs) == s.store.used
    requires 1 <= Left(s.store.quota, s.store.used, "gpu")
    ensures Quiet(t) && BroughtUp(s, t, n)
  {
    hide Reached, T.OrderOk, T.RunTrain, T.RunTrainPass, SomeWaiting, Clean, Listed, Left, T.Granted, PodMade,
      StartedUnit, WithStarted, UnitEntry;
    FreshName(s, n);
    var w := StartUp(s, n, order);
    t := PodUp(w, n, order);
    NobodyElseWaits(s.seenTrains, s.seenInfs, n, t.store.trains[n]);
    CaughtUp(s.seenTrains, n, UnitJob(n, Queued), t.store.trains[n]);
  }

  lemma CaughtUp(seen: Trains, n: string, before: TrainJob, now: TrainJob)
    ensures seen[n := before][n := now] == seen[n := now]
  {
  }

  lemma JobIsThere(s: Store, t: Store, n: string)
    requires PodMade(s, t, n)
    ensures n in t.trains && t.trains[n].status.phase == Starting
  {
  }

  /** The empty cluster with a quota of so many gpus. */
  ghost function Empty(gpus: int): System {
    var quota := map["gpu" := gpus];
    System(Store(quota, [], map[], map[], map[], map[], map[], map[], map[]), [[]], [quota], {}, {}, map[], map[],
           QIdle, map[], map[], map[], {})
  }

  lemma EmptyIsQuiet(gpus: int)
    ensures Quiet(Empty(gpus))
  {
    var s := Empty(gpus);
    assert FreshRunTo([s], [], s);
    assert forall q :: !Waiting(map[], map[], q);
  }

  /** A job with one worker, at its first attempt and in its first epoch, with its pod and its unmarked group. */
  predicate UnitAt(s: Store, n: string, phase: TrainPhase, pod: PodPhase) {
    && n in s.trains && s.trains[n].name == n && s.trains[n].spec == UNIT && s.trains[n].status.phase == phase
    && s.trains[n].status.attempt == 0 && s.trains[n].status.requeueCount == 0
    && PodKey(n, 0, 0) in s.workers && s.workers[PodKey(n, 0, 0)] == UNIT_POD.(phase := pod)
    && GroupKey(n, 0) in s.groups && s.groups[GroupKey(n, 0)] == PodGroup(n, 1, false, 0, None, 0)
  }

  /** The first job of an empty cluster. */
  lemma FirstUp(gpus: int, n: string, order: T.Order) returns (t: System)
    requires T.OrderOk(order) && 1 <= gpus
    ensures Quiet(t) && UnitAt(t.store, n, Starting, Pending)
    ensures t.store.trains.Keys == {n} && t.store.used == [UnitEntry(n)] && t.quotas == [map["gpu" := gpus]]
    ensures t.store.quota == map["gpu" := gpus] && t.store.trains[n] in t.reportedTrains && t.lastTrains.Keys == {n}
    ensures t.seenTrains == map[n := t.store.trains[n]] && t.seenInfs == map[]
  {
    EmptyIsQuiet(gpus);
    hide Reached, T.OrderOk, SomeWaiting, Quiet;
    t := BringUp(Empty(gpus), n, order);
  }

  lemma QuietMeans(s: System)
    requires Quiet(s)
    ensures Reached(s) && s.trainPasses == map[]
  {
  }

  lemma NextUp(s: System, t: System, n: string)
    requires BroughtUp(s, t, n)
    ensures UnitAt(t.store, n, Starting, Pending)
    ensures t.store.used == s.store.used + [UnitEntry(n)] && t.quotas == s.quotas
    ensures forall k :: k in s.store.workers ==> k in t.store.workers && t.store.workers[k] == s.store.workers[k]
    ensures forall m, p, q :: m != n && UnitAt(s.store, m, p, q) ==> UnitAt(t.store, m, p, q)
    ensures t.store.trains.Keys == s.store.trains.Keys + {n}
  {
  }

  // ---------------------------------------------------------------- a deleted job's pod outlives its entry

  /** What all unfinished worker pods request, of whatever jobs. */
  ghost function UnfinishedLoad(workers: T.Workers, r: string): map<PodKey, int> {
    map k | k in workers && !Finished(workers[k]) :: Amount(workers[k].requests, r)
  }

  lemma {:induction false} TwoOfThem(load: map<PodKey, int>, a: PodKey, b: PodKey)
    requires a in load && b in load && a != b && load[a] == 1 && load[b] == 1
    requires forall k :: k in load ==> 0 <= load[k]
    ensures 2 <= SumMap(load)
  {
    SumRemove(load, a);
    SumRemove(load - {a}, b);
    NonNegativeSum(load - {a} - {b});
  }

  lemma {:induction false} NonNegativeSum<K>(load: map<K, int>)
    requires forall k :: k in load ==> 0 <= load[k]
    ensures 0 <= SumMap(load)
    decreases |load|
  {
    if load != map[] {
      var k :| k in load;
      SumRemove(load, k);
      assert (load - {k}).Keys == load.Keys - {k};
      NonNegativeSum(load - {k});
    }
  }

  lemma RequestsNonNegative(s: System, r: string)
    requires Reached(s)
    ensures forall k :: k in UnfinishedLoad(s.store.workers, r) ==> 0 <= UnfinishedLoad(s.store.workers, r)[k]
  {
    ReachedInv(s);
    assert WorkersOk(s.lastTrains, s.store.workers);
    hide Reached, LedgerInv, PodInv;
    forall k | k in s.store.workers ensures 0 <= Amount(s.store.workers[k].requests, r) {
      LatestIsStored(s, k.job);
    }
  }

  /** The job is deleted, the cache notices, and a queue pass releases its entry; its pod stays. */
  lemma Deletion(s: System, n: string) returns (t: System)
    requires Quiet(s) && s.store.used == [UnitEntry(n)] && s.seenTrains.Keys == {n} && s.seenInfs == map[]
    ensures Quiet(t) && t.store == s.store.(trains := s.store.trains - {n}, used := [])
    ensures t == s.(store := t.store, seenTrains := map[], ledgers := t.ledgers)
  {
    hide Reached, Enabled, Apply;
    DeleteMeans(s, n);
    ReachStep(s, DeleteTrain(n));
    var u := Apply(s, DeleteTrain(n));
    DeleteMeans(u, n);
    ReachStep(u, ForgetTrain(n));
    var v := Apply(u, ForgetTrain(n));
    assert v.seenTrains == map[];
    assert v.store.used[..0] == [];
    assert Clean(v.store.used, v.seenTrains, v.seenInfs) == [];
    assert forall q :: !Waiting(v.seenTrains, v.seenInfs, q);
    QueuePass(v, []);
    t := AfterQueuePass(v, []);
  }

  lemma TwoPodsOnOneGpu(order: T.Order) returns (s: System)
    requires T.OrderOk(order)
    ensures Reached(s) && s.quotas == [map["gpu" := 1]]
    ensures "a" !in s.store.trains && !Listed(s.store.used, JobRef("a", Train)) && "b" in s.store.trains
    ensures PodKey("a", 0, 0) in s.store.workers && s.store.workers[PodKey("a", 0, 0)] == UNIT_POD
    ensures PodKey("b", 0, 0) in s.store.workers && s.store.workers[PodKey("b", 0, 0)] == UNIT_POD
  {
    hide Reached, T.OrderOk, SomeWaiting, BroughtUp;
    var t := FirstUp(1, "a", order);
    var u := Deletion(t, "a");
    s := BringUp(u, "b", order);
    NextUp(u, s, "b");
    assert s.store.used == [UnitEntry("b")];
  }

  /**
   The pods of deleted train jobs are outside the bound for good reason: a run in which the quota is one
   gpu all along, and in the end the unfinished pods hold two. The pod of the deleted job `a` has
   outlived its entry, and `b` has been admitted in its place.
   */
  lemma DeletedTrainReleasesBeforeItsPods() returns (ss: seq<System>, acts: seq<Action>)
    ensures FreshRun(ss, acts)
    ensures var s := ss[|ss| - 1];
            && "a" !in s.store.trains && !Listed(s.store.used, JobRef("a", Train))
            && PodKey("a", 0, 0) in s.store.workers && !Finished(s.store.workers[PodKey("a", 0, 0)])
            && Peak(s.quotas, "gpu") == 1 && 2 <= SumMap(UnfinishedLoad(s.store.workers, "gpu"))
  {
    var order := T.SomeOrder();
    var s := TwoPodsOnOneGpu(order);
    RequestsNonNegative(s, "gpu");
    TwoOfThem(UnfinishedLoad(s.store.workers, "gpu"), PodKey("a", 0, 0), PodKey("b", 0, 0));
    PeakOfConstant(s.quotas, map["gpu" := 1], "gpu");
    hide FreshRun, T.OrderOk, SumMap, Peak, Listed;
    ss, acts :| FreshRunTo(ss, acts, s);
  }

  // ---------------------------------------------------------------- a victim whose preemptor succeeded

  /** Only the job `n`, its service and its pod have changed. */
  ghost predicate OnlyUnit(s: Store, t: Store, n: string) {
    && t == s.(trains := t.trains, services := t.services, workers := t.workers)
    && t.trains.Keys == s.trains.Keys && t.workers.Keys == s.workers.Keys
    && (forall m :: m in s.trains && m != n ==> t.trains[m] == s.trains[m])
    && (forall k :: k in s.workers && k.job != n ==> t.workers[k] == s.workers[k])
  }

  lemma CountPass(s: Store, n: string, pod: PodPhase, order: T.Order)
    requires T.OrderOk(order) && UnitAt(s, n, Starting, pod) && (pod == PodRunning || pod == PodSucceeded)
    requires forall k :: k in s.workers && k.job == n ==> k == PodKey(n, 0, 0)
    ensures var t := T.RunTrainPass(s, s.trains, n, 12, order).0;
            OnlyUnit(s, t, n) && UnitAt(t, n, if pod == PodRunning then Running else Succeeded, pod)
  {
    hide T.RunTrain, T.RunTrainPass, T.OrderOk, ServiceReady, RunningPods, ReadyPods;
    var b, key := s.trains[n], PodKey(n, 0, 0);
    CompletePass(s, n, 12, order);
    var t := T.RunTrainPass(s, s.trains, n, 12, order).0;
    assert T.RankIs(s.workers, key, pod);
    assert t.workers == s.workers by {
      assert t.workers.Keys == s.workers.Keys;
    }
    assert T.AllUp(t.workers, n, 0, 1);
    assert T.AllSucceeded(t.workers, n, 0, 1) <==> pod == PodSucceeded by {
      assert !T.RankIs(t.workers, key, if pod == PodSucceeded then PodRunning else PodSucceeded);
    }
    assert t.groups == s.groups;
  }

  /** The pod comes so far, and a pass takes note. */
  lemma Become(s: System, n: string, pod: PodPhase, order: T.Order) returns (t: System)
    requires Reached(s) && s.trainPasses == map[] && T.OrderOk(order) && UnitAt(s.store, n, Starting, Pending)
    requires pod == PodRunning || pod == PodSucceeded
    ensures Reached(t) && t == s.(store := t.store, lastTrains := t.lastTrains)
            && t.lastTrains.Keys == s.lastTrains.Keys
    ensures OnlyUnit(s.store, t.store, n) && UnitAt(t.store, n, if pod == PodRunning then Running else Succeeded, pod)
  {
    hide Reached, Enabled, Apply, T.OrderOk, T.RunTrain, T.RunTrainPass;
    var key, now := PodKey(n, 0, 0), UNIT_POD.(phase := pod);
    WorkerMeans(s, key, now);
    ReachStep(s, ChangeWorker(key, now));
    var u := Apply(s, ChangeWorker(key, now));
    OnePodEach(u, n);
    CountPass(u.store, n, pod, order);
    t := WholePass(u, n, 12, order);
  }

  lemma OnePodEach(s: System, n: string)
    requires Reached(s) && n in s.store.trains && s.store.trains[n].spec == UNIT
             && s.store.trains[n].status.attempt == 0
    ensures forall k :: k in s.store.workers && k.job == n ==> k == PodKey(n, 0, 0)
  {
    Named(s, n);
    ReachedInv(s);
    forall k | k in s.store.workers && k.job == n ensures k == PodKey(n, 0, 0) {
      assert WorkerOk(s.lastTrains[n], k, s.store.workers[k]);
    }
    hide Reached, LedgerInv, GroupsOk, ServersOk, TrainPassesOk, InfPassesOk;
  }

  /** The scheduler marks the group of a running job, and a pass takes note. */
  lemma Preempt(s: System, n: string, who: JobRef, order: T.Order) returns (t: System)
    requires Reached(s) && s.trainPasses == map[] && T.OrderOk(order) && UnitAt(s.store, n, Running, PodRunning)
    ensures Reached(t) && t == s.(store := t.store, lastTrains := t.lastTrains)
            && t.lastTrains.Keys == s.lastTrains.Keys
    ensures var mark := s.store.groups[GroupKey(n, 0)].(preemptedBy := Some(who));
            && t.store == s.store.(trains := t.store.trains, services := t.store.services, workers := t.store.workers,
                                   groups := s.store.groups[GroupKey(n, 0) := mark])
    ensures t.store.trains.Keys == s.store.trains.Keys && t.store.trains[n].status.phase == Preempted
    ensures t.store.trains[n] == s.store.trains[n].(status := t.store.trains[n].status)
    ensures t.store.trains[n].status.attempt == 0 && t.store.trains[n].status.requeueCount == 0
    ensures forall m :: m in s.store.trains && m != n ==> t.store.trains[m] == s.store.trains[m]
    ensures t.store.workers == s.store.workers - {PodKey(n, 0, 0)}
  {
    hide Reached, Enabled, Apply, T.OrderOk, T.RunTrain, T.RunTrainPass;
    var g := GroupKey(n, 0);
    MarkMeans(s, g, who);
    var a := MarkGroup(g, s.store.groups[g].(preemptedBy := Some(who)));
    ReachStep(s, a);
    var u := Apply(s, a);
    OnePodEach(u, n);
    var pods := T.AttemptPods(u.store.workers, n, 0);
    assert pods == {PodKey(n, 0, 0)};
    MarkedPass(u.store, n, 7, order);
    t := WholePass(u, n, 7, order);
  }

  lemma KeepsEntryOf(used: seq<Entry>, trains: Trains, infs: Infs, n: string)
    requires used == [UnitEntry(n)] && n in trains && trains[n].status.phase == Starting
             && trains[n].status.requeueCount == 0
    ensures Clean(used, trains, infs) == used && Total(used, "gpu") == 1
  {
    assert used[..0] == [];
    assert Survives(used[0], trains, infs);
    assert UnitEntry(n).res["gpu"] == 1;
  }

  lemma TwoRunning(order: T.Order) returns (s: System)
    requires T.OrderOk(order)
    ensures Quiet(s) && UnitAt(s.store, "n", Running, PodRunning) && UnitAt(s.store, "m", Starting, Pending)
  {
    var t := FirstUp(2, "n", order);
    hide Reached, T.OrderOk, SomeWaiting, BroughtUp, Clean, Total, OnlyUnit;
    var u := Become(t, "n", PodRunning, order);
    KeepsEntryOf(u.store.used, u.seenTrains["m" := UnitJob("m", Queued)], u.seenInfs, "n");
    s := BringUp(u, "m", order);
    NextUp(u, s, "m");
  }

  /** A run into a stranded state: `n` is preempted by `m`, and `m` succeeds before the release check sees it run. */
  lemma StrandedIsReached() returns (ss: seq<System>, acts: seq<Action>)
    ensures FreshRun(ss, acts) && L.Stranded(ss[|ss| - 1], "n", "m")
  {
    hide FreshRun, Reached, T.OrderOk, SomeWaiting;
    var order := T.SomeOrder();
    var s := TwoRunning(order);
    var t := Preempt(s, "n", JobRef("m", Train), order);
    var u := Become(t, "m", PodSucceeded, order);
    assert L.Stranded(u, "n", "m");
    assert Reached(u);
    ss, acts := RunInto(u);
  }

  lemma RunInto(s: System) returns (ss: seq<System>, acts: seq<Action>)
    requires Reached(s)
    ensures FreshRun(ss, acts) && ss[|ss| - 1] == s
  {
    hide FreshRun;
    ss, acts :| FreshRunTo(ss, acts, s);
  }
}
