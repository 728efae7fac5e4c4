/**
 Runs that show what outdated copies do. In those of the first kind no cache ever goes back: a pass
 begins with the stored version of its job, or with the copy that the pass before it began with.
 */
module LagWitnesses {
  import opened Resources
  import opened ClusterTypes
  import opened Names
  import opened QueueAdmission
  import opened Cluster
  import opened LedgerInvariant
  import opened LedgerSteps
  import opened QuotaSafety
  import opened LifecycleSafety
  import opened Refinement
  import opened PassEffects
  import opened CacheOrder
  import opened Witnesses
  import T = TrainLifecycle
  import I = InferenceLifecycle
  import D = TrainEffects
  import E = InferenceEffects

  // ---------------------------------------------------------------- reached with a lagging cache

  ghost predicate LaggingRunTo(ss: seq<System>, acts: seq<Action>, s: System, last: Trains, lastInfs: Infs) {
    LaggingRun(ss, acts) && ss[|ss| - 1] == s && LastCopies(acts) == last && LastInfCopies(acts) == lastInfs
  }

  /** Some lagging run ends in this state, and these are the copies its latest passes began with. */
  ghost predicate Lagged(s: System, last: Trains, lastInfs: Infs) {
    exists ss, acts :: LaggingRunTo(ss, acts, s, last, lastInfs)
  }

  lemma LagOn(ss: seq<System>, acts: seq<Action>, s: System, last: Trains, lastInfs: Infs, a: Action)
    requires LaggingRunTo(ss, acts, s, last, lastInfs) && Enabled(s, a) && Timely(last, lastInfs, s, a)
    ensures LaggingRunTo(ss + [Apply(s, a)], acts + [a], Apply(s, a), AfterBegin(last, a), AfterInfBegin(lastInfs, a))
  {
    hide Enabled, Apply, Run, AfterBegin, AfterInfBegin, Timely;
    LaggingIsRun(ss, acts);
    StepOn(ss, acts, s, a);
    var longer, more := ss + [Apply(s, a)], acts + [a];
    assert more[..|acts|] == acts;
    forall i | 0 <= i < |more|
      ensures Timely(LastCopies(more[..i]), LastInfCopies(more[..i]), longer[i], more[i])
    {
      assert more[..i] == acts[..i];
      assert i == |acts| ==> acts[..i] == acts;
    }
  }

  lemma LagStep(s: System, last: Trains, lastInfs: Infs, a: Action)
    requires Lagged(s, last, lastInfs) && Enabled(s, a) && Timely(last, lastInfs, s, a)
    ensures Lagged(Apply(s, a), AfterBegin(last, a), AfterInfBegin(lastInfs, a))
  {
    hide Enabled, Apply, AfterBegin, AfterInfBegin, Timely, LaggingRunTo;
    var ss, acts :| LaggingRunTo(ss, acts, s, last, lastInfs);
    LagOn(ss, acts, s, last, lastInfs, a);
  }

  /** The same for a step that begins no pass. */
  lemma LagGoesOn(s: System, last: Trains, lastInfs: Infs, a: Action)
    requires Lagged(s, last, lastInfs) && Enabled(s, a) && !a.BeginTrain? && !a.BeginInference?
    ensures Lagged(Apply(s, a), last, lastInfs)
  {
    hide Enabled, Apply, Lagged;
    LagStep(s, last, lastInfs, a);
  }

  lemma ReachedIsLagged(s: System) returns (last: Trains, lastInfs: Infs)
    requires Reached(s)
    ensures Lagged(s, last, lastInfs)
  {
    hide FreshRun, LaggingRun;
    var ss, acts :| FreshRunTo(ss, acts, s);
    FreshIsLagging(ss, acts);
    last, lastInfs := LastCopies(acts), LastInfCopies(acts);
    assert LaggingRunTo(ss, acts, s, last, lastInfs);
  }

  lemma LagLedger(s: System, last: Trains, lastInfs: Infs)
    requires Lagged(s, last, lastInfs)
    ensures LedgerInv(s)
  {
    hide LedgerInv, LaggingRun, Run;
    var ss, acts :| LaggingRunTo(ss, acts, s, last, lastInfs);
    LaggingIsRun(ss, acts);
    RunLedger(ss, acts, |ss| - 1);
  }

  lemma {:induction false} LagLeads(s: System, last: Trains, lastInfs: Infs, acts: seq<Action>, t: System)
    requires Lagged(s, last, lastInfs) && Leads(s, acts, t) && BeginsNothing(acts)
    ensures Lagged(t, last, lastInfs)
    decreases |acts|
  {
    hide Lagged, Enabled, Apply;
    if acts != [] {
      assert acts[0] in acts;
      LagGoesOn(s, last, lastInfs, acts[0]);
      LagLeads(Apply(s, acts[0]), last, lastInfs, acts[1..], t);
    }
  }

  lemma RunOfLagged(s: System, last: Trains, lastInfs: Infs) returns (ss: seq<System>, acts: seq<Action>)
    requires Lagged(s, last, lastInfs)
    ensures LaggingRun(ss, acts) && ss[|ss| - 1] == s && LastCopies(acts) == last && LastInfCopies(acts) == lastInfs
  {
    hide LaggingRun;
    ss, acts :| LaggingRunTo(ss, acts, s, last, lastInfs);
  }

  // ---------------------------------------------------------------- passes with a lagging cache

  /** A pass over `n` with the copy `c`: the stored version, or the copy the pass before it began with. */
  predicate MayRead(s: System, last: Trains, n: string, c: TrainJob) {
    && c.name == n && TrainVersion(s, c)
    && ((n in s.store.trains && s.store.trains[n] == c) || (n in last && last[n] == c))
  }

  lemma BeginIsTimely(s: System, last: Trains, lastInfs: Infs, n: string, c: TrainJob)
    requires MayRead(s, last, n, c)
    ensures Timely(last, lastInfs, s, BeginTrain(c))
    ensures AfterBegin(last, BeginTrain(c)) == last[n := c] && AfterInfBegin(lastInfs, BeginTrain(c)) == lastInfs
  {
  }

  /** A pass under way, after so many calls. */
  lemma OpenPass(s: System, last: Trains, lastInfs: Infs, n: string, c: TrainJob, calls: nat, order: T.Order)
    returns (t: System)
    requires Lagged(s, last, lastInfs) && n !in s.trainPasses && MayRead(s, last, n, c) && T.OrderOk(order)
    requires 0 < calls
    ensures Lagged(t, last[n := c], lastInfs) && OnlyTrainSide(s, t)
    ensures var run := T.RunTrainPass(s.store, map[n := c], n, calls, order);
            t.store == run.0 && t.trainPasses == s.trainPasses[n := run.1]
  {
    hide Lagged, Enabled, Apply, Timely, T.OrderOk, T.RunTrain, T.RunTrainPass, Leads, LedgerInv, AfterBegin,
      AfterInfBegin, OnlyTrainSide, MayRead;
    LagLedger(s, last, lastInfs);
    assert TrainVersion(s, c) && c.name == n by { ReadMeans(s, last, n, c); }
    var acts, u := TrainPassLeads(s, map[n := c], n, calls, order);
    LeadsFirst(s, acts, u);
    BeginIsTimely(s, last, lastInfs, n, c);
    LagStep(s, last, lastInfs, acts[0]);
    assert BeginsNothing(acts[1..]);
    LagLeads(Apply(s, acts[0]), last[n := c], lastInfs, acts[1..], u);
    t := u;
    var pc := T.RunTrainPass(s.store, map[n := c], n, calls, order).1;
    assert t.trainPasses == s.trainPasses[n := pc] by {
      assert t.trainPasses.Keys == s.trainPasses.Keys + {n};
    }
  }

  lemma ReadMeans(s: System, last: Trains, n: string, c: TrainJob)
    requires MayRead(s, last, n, c)
    ensures c.name == n && TrainVersion(s, c)
  {
  }

  /** A pass from its beginning to its end. */
  lemma LaggingPass(s: System, last: Trains, lastInfs: Infs, n: string, c: TrainJob, calls: nat, order: T.Order)
    returns (t: System)
    requires Lagged(s, last, lastInfs) && s.trainPasses == map[] && MayRead(s, last, n, c) && T.OrderOk(order)
    requires 0 < calls
    ensures Lagged(t, last[n := c], lastInfs) && t.lastTrains.Keys == s.lastTrains.Keys
    ensures t == s.(store := T.RunTrainPass(s.store, map[n := c], n, calls, order).0, lastTrains := t.lastTrains)
  {
    hide Lagged, Enabled, Apply, T.OrderOk, T.RunTrainPass, LedgerInv, MayRead;
    var u := OpenPass(s, last, lastInfs, n, c, calls, order);
    DeleteMeans(u, n);
    LagGoesOn(u, last[n := c], lastInfs, EndTrain(n));
    t := Apply(u, EndTrain(n));
    assert t.trainPasses == map[];
  }

  lemma SamePass(s: Store, n: string, calls: nat, order: T.Order)
    requires T.OrderOk(order) && n in s.trains
    ensures T.RunTrainPass(s, map[n := s.trains[n]], n, calls, order) == T.RunTrainPass(s, s.trains, n, calls, order)
  {
    hide T.RunTrain, T.Start;
  }

  /** A pass with the copy `c` that brings up its gang and is then cut short. */
  lemma GangUp(s: Store, n: string, c: TrainJob, order: T.Order) returns (t: Store, calls: nat)
    requires T.OrderOk(order) && c.name == n && DrivingTrain(c.status.phase) && Undisturbed(s, c)
             && 0 <= c.spec.worldSize
    ensures 0 < calls && T.RunTrainPass(s, map[n := c], n, calls, order) == (t, T.TListPods(c))
    ensures t == s.(services := t.services, groups := t.groups, workers := t.workers)
    ensures GroupReady(s, t, c) && Ensured(s.workers, t.workers, c, 0)
  {
    hide T.RunTrain, T.Start, Reaches, GroupReady, Ensured, Undisturbed, ServiceReady;
    var used;
    t, used := GangRun(s, c, order);
    GoesOn(s, T.Start(c), t, T.TListPods(c), used, used, order);
    calls := used + 1;
  }

  // ---------------------------------------------------------------- two attempts hold the quota of one

  /** While there is only one job, of one worker, there is only its pod. */
  lemma OnlyPod(s: System, n: string)
    requires Reached(s) && UnitAt(s.store, n, Starting, Pending) && s.lastTrains.Keys == {n}
    ensures s.store.workers.Keys == {PodKey(n, 0, 0)}
  {
    OnePodEach(s, n);
    PodsAreOfKnownJobs(s);
    hide Reached;
  }

  lemma PodsAreOfKnownJobs(s: System)
    requires Reached(s)
    ensures forall k :: k in s.store.workers ==> k.job in s.lastTrains
  {
    ReachedInv(s);
    hide Reached, LedgerInv;
  }

  /** One job, started in its first epoch and first attempt, and its one pod, which has failed. */
  predicate UnitFailed(s: Store, c: TrainJob) {
    && "a" in s.trains && s.trains["a"] == c && StartedUnit(c, "a") && Undisturbed(s, c)
    && PodKey("a", 0, 0) in s.workers && s.workers[PodKey("a", 0, 0)].phase == PodFailed
    && s.workers.Keys == {PodKey("a", 0, 0)} && Listed(s.used, JobRef("a", Train))
  }

  lemma PodFails(order: T.Order) returns (s: System, c: TrainJob)
    requires T.OrderOk(order)
    ensures Reached(s) && s.trainPasses == map[] && s.quotas == [map["gpu" := 1]] && c in s.reportedTrains
    ensures UnitFailed(s.store, c)
  {
    var t := FirstUp(1, "a", order);
    hide Reached, T.OrderOk, SomeWaiting, Quiet, Enabled, Apply;
    QuietMeans(t);
    OnlyPod(t, "a");
    var key, now := PodKey("a", 0, 0), UNIT_POD.(phase := PodFailed);
    WorkerMeans(t, key, now);
    ReachStep(t, ChangeWorker(key, now));
    s, c := Apply(t, ChangeWorker(key, now)), t.store.trains["a"];
    assert Listed(s.store.used, JobRef("a", Train)) by {
      assert Ref(s.store.used[0]) == JobRef("a", Train);
    }
  }

  /** The attempt is over: its pod is gone, and the job is to be retried. */
  predicate UnitRetries(s: Store, c: TrainJob) {
    && "a" in s.trains && s.trains["a"] == c.(status := s.trains["a"].status) && StartedUnit(c, "a")
    && s.trains["a"].status.phase == Retrying && s.trains["a"].status.attempt == 1
    && s.workers == map[] && Undisturbed(s, c) && Listed(s.used, JobRef("a", Train))
  }

  lemma RetryPass(s: Store, c: TrainJob, order: T.Order)
    requires T.OrderOk(order) && UnitFailed(s, c)
    ensures UnitRetries(T.RunTrainPass(s, map["a" := c], "a", 12, order).0, c)
  {
    hide T.OrderOk, T.RunTrainPass, Listed, ServiceReady;
    assert SomeFailed(s.workers, c);
    CompletePass(s, "a", 12, order);
    SamePass(s, "a", 12, order);
    assert T.RunTrainPass(s, s.trains, "a", 12, order).0.workers == map[];
  }

  /** The pod of a job fails, and a pass over the stored job deletes it and stores the retry. */
  lemma FailedOnce(order: T.Order)
    returns (s: System, last: Trains, lastInfs: Infs, c: TrainJob)
    requires T.OrderOk(order)
    ensures Lagged(s, last, lastInfs) && s.trainPasses == map[] && s.quotas == [map["gpu" := 1]]
    ensures c in s.reportedTrains && "a" in last && last["a"] == c && UnitRetries(s.store, c)
  {
    hide Reached, T.OrderOk, T.RunTrainPass, Lagged, Listed, Undisturbed;
    var u;
    u, c := PodFails(order);
    last, lastInfs := ReachedIsLagged(u);
    RetryPass(u.store, c, order);
    s := LaggingPass(u, last, lastInfs, "a", c, 12, order);
    last := last["a" := c];
  }

  /**
   An outdated copy breaks the bound on pods, for a job that exists and is listed, in a run in which no
   cache goes back: a pass stores a retry, the next one begins with the same copy as before and makes
   the pod of the attempt that is over again, and the one after that the pod of the new attempt. The
   quota is one gpu all along; the unfinished pods of the one job ask for two.
   */
  lemma OutdatedCopyBreaksQuota() returns (ss: seq<System>, acts: seq<Action>)
    ensures LaggingRun(ss, acts)
    ensures var s := ss[|ss| - 1];
            && "a" in s.store.trains && Listed(s.store.used, JobRef("a", Train)) && s.trainPasses == map[]
            && Peak(s.quotas, "gpu") == 1
            && 2 <= SumMap(WorkerLoad(s.store.trains, s.store.workers, s.store.used, "gpu"))
  {
    var order := T.SomeOrder();
    var s, last, lastInfs := BothAttemptsUp(order);
    hide T.OrderOk, Lagged, LaggingRun, Listed, Peak, SumMap;
    var load := WorkerLoad(s.store.trains, s.store.workers, s.store.used, "gpu");
    TwoOfThem(load, PodKey("a", 0, 0), PodKey("a", 1, 0));
    PeakOfConstant(s.quotas, map["gpu" := 1], "gpu");
    ss, acts := RunOfLagged(s, last, lastInfs);
  }

  lemma BothAttemptsUp(order: T.Order) returns (s: System, last: Trains, lastInfs: Infs)
    requires T.OrderOk(order)
    ensures Lagged(s, last, lastInfs) && s.trainPasses == map[] && s.quotas == [map["gpu" := 1]]
    ensures "a" in s.store.trains && Listed(s.store.used, JobRef("a", Train))
    ensures var load := WorkerLoad(s.store.trains, s.store.workers, s.store.used, "gpu");
            && PodKey("a", 0, 0) in load && load[PodKey("a", 0, 0)] == 1
            && PodKey("a", 1, 0) in load && load[PodKey("a", 1, 0)] == 1
            && forall k :: k in load ==> 0 <= load[k]
  {
    hide T.OrderOk, T.RunTrainPass, Lagged, Listed, Undisturbed, GroupReady, Ensured, WorkerLoad;
    var r, seen, infs, c := FailedOnce(order);
    assert UnitRetries(r.store, c);
    var t, calls := GangUp(r.store, "a", c, order);
    var u := LaggingPass(r, seen, infs, "a", c, calls, order);
    var j := u.store.trains["a"];
    RetryingUndisturbed(u.store, j);
    var v, more := GangUp(u.store, "a", j, order);
    s := LaggingPass(u, seen["a" := c], infs, "a", j, more, order);
    last, lastInfs := seen["a" := c]["a" := j], infs;
    TwoAttempts(r.store, u.store, s.store, c, j);
  }

  lemma RetryingUndisturbed(s: Store, j: TrainJob)
    requires j.status.phase == Retrying
    ensures Undisturbed(s, j)
  {
  }

  lemma TwoAttempts(s: Store, u: Store, w: Store, c: TrainJob, j: TrainJob)
    requires s.workers == map[] && Ensured(s.workers, u.workers, c, 0) && Ensured(u.workers, w.workers, j, 0)
    requires c.name == "a" && c.status.attempt == 0 && c.spec == UNIT
    requires j.name == "a" && j.status.attempt == 1 && j.spec == UNIT && "a" in w.trains
    ensures var load := WorkerLoad(w.trains, w.workers, w.used, "gpu");
            && PodKey("a", 0, 0) in load && load[PodKey("a", 0, 0)] == 1
            && PodKey("a", 1, 0) in load && load[PodKey("a", 1, 0)] == 1
            && forall k :: k in load ==> 0 <= load[k]
  {
    assert forall k :: k in w.workers ==> w.workers[k] == UNIT_POD;
    assert UNIT_POD.requests["gpu"] == 1;
    assert PodKey("a", 0, 0) in u.workers && PodKey("a", 1, 0) in w.workers;
    hide Listed;
  }

  // ---------------------------------------------------------------- a nil dereference

  lemma RemoveMeans(s: System, g: GroupKey, n: string)
    ensures Enabled(s, RemoveGroup(g))
    ensures Apply(s, RemoveGroup(g)) == s.(store := s.store.(groups := s.store.groups - {g}))
    ensures Enabled(s, RemoveServer(n))
    ensures Apply(s, RemoveServer(n)) == s.(store := s.store.(servers := s.store.servers - {n}))
  {
    hide T.TrainCall, I.InfCall, QueueCall, ChoiceOk, T.ReadsOk, T.Start, I.Start;
  }

  /** A job that runs, as the cache knows, and whose group has just been marked. */
  lemma RunningMarked(order: T.Order) returns (s: System, v: TrainJob)
    requires T.OrderOk(order)
    ensures Reached(s) && s.trainPasses == map[] && v in s.reportedTrains
    ensures "a" in s.store.trains && s.store.trains["a"] == v && v.name == "a" && v.spec == UNIT
    ensures v.status.phase == Running && v.status.attempt == 0
    ensures GroupKey("a", 0) in s.store.groups && s.store.groups[GroupKey("a", 0)].preemptedBy.Some?
    ensures T.AttemptPods(s.store.workers, "a", 0) == {PodKey("a", 0, 0)}
  {
    var t := FirstUp(1, "a", order);
    hide Reached, T.OrderOk, SomeWaiting, Quiet, Enabled, Apply;
    QuietMeans(t);
    var u := Become(t, "a", PodRunning, order);
    var w := CatchUp(u, "a");
    v := w.store.trains["a"];
    MarkMeans(w, GroupKey("a", 0), JobRef("b", Train));
    var a := MarkGroup(GroupKey("a", 0), w.store.groups[GroupKey("a", 0)].(preemptedBy := Some(JobRef("b", Train))));
    ReachStep(w, a);
    s := Apply(w, a);
    OnePodEach(s, "a");
  }

  /** A pass has reported the preemption, from the copy `v`; then somebody removes the group. */
  lemma PreemptedAndBare(order: T.Order) returns (s: System, last: Trains, lastInfs: Infs, v: TrainJob)
    requires T.OrderOk(order)
    ensures Lagged(s, last, lastInfs) && s.trainPasses == map[] && MayRead(s, last, "a", v)
    ensures v.spec == UNIT && v.status.phase == Running && v.status.attempt == 0
    ensures "a" in s.store.trains && s.store.trains["a"].status.phase == Preempted && s.store.trains["a"].name == "a"
    ensures s.store.trains["a"].status.attempt == 0 && GroupKey("a", 0) !in s.store.groups
  {
    hide Reached, T.OrderOk, T.RunTrainPass, Lagged, Enabled, Apply, ServiceReady;
    var w;
    w, v := RunningMarked(order);
    MarkedPass(w.store, "a", 7, order);
    SamePass(w.store, "a", 7, order);
    last, lastInfs := ReachedIsLagged(w);
    var x := LaggingPass(w, last, lastInfs, "a", v, 7, order);
    last := last["a" := v];
    RemoveMeans(x, GroupKey("a", 0), "a");
    LagGoesOn(x, last, lastInfs, RemoveGroup(GroupKey("a", 0)));
    s := Apply(x, RemoveGroup(GroupKey("a", 0)));
  }

  lemma PanicPass(s: Store, j: TrainJob, order: T.Order)
    requires T.OrderOk(order) && j.name == "a" && j.status.phase == Preempted
    requires T.GroupOf(j) in s.groups && s.groups[T.GroupOf(j)].preemptedBy.None?
    ensures T.RunTrainPass(s, map["a" := j], "a", 2, order) == (s, T.TPanic)
  {
    OneCall(s, T.TGetVictimGroup(j), order);
    GoesOn(s, T.TGetVictimGroup(j), s, T.TPanic, 1, 1, order);
    hide T.RunTrain, Reaches;
  }

  lemma Panicked(order: T.Order) returns (s: System, last: Trains, lastInfs: Infs)
    requires T.OrderOk(order)
    ensures Lagged(s, last, lastInfs) && "a" in s.trainPasses && s.trainPasses["a"].TPanic?
    ensures "a" in s.store.trains && "a" in last && last["a"] == s.store.trains["a"]
  {
    hide T.OrderOk, T.RunTrainPass, Lagged, Ensured;
    var r, seen, infs, v := PreemptedAndBare(order);
    var t, calls := GangUp(r.store, "a", v, order);
    var u := LaggingPass(r, seen, infs, "a", v, calls, order);
    var j := u.store.trains["a"];
    PanicPass(u.store, j, order);
    s := OpenPass(u, seen["a" := v], infs, "a", j, 2, order);
    last, lastInfs := seen["a" := v]["a" := j], infs;
  }

  /**
   The release check can dereference the absent PreemptedBy, in a run in which no cache goes back: a pass
   reports a preemption, the marked group is removed, and the next pass begins with the same copy of the
   running job as before and makes the group anew, unmarked. The pass that panics then begins with the
   stored version.
   */
  lemma NilDereference() returns (ss: seq<System>, acts: seq<Action>)
    ensures LaggingRun(ss, acts)
    ensures var s := ss[|ss| - 1];
            && "a" in s.trainPasses && s.trainPasses["a"].TPanic?
            && "a" in s.store.trains && "a" in LastCopies(acts) && LastCopies(acts)["a"] == s.store.trains["a"]
  {
    var order := T.SomeOrder();
    var s, last, lastInfs := Panicked(order);
    hide LaggingRun, T.OrderOk, Lagged;
    ss, acts := RunOfLagged(s, last, lastInfs);
  }

  // ---------------------------------------------------------------- a mark out of time, from a cache that goes back

  /** A released victim is queued again, without pods; a cache may still hold it as it was when it was started. */
  lemma Released(order: T.Order) returns (s: System, copy: TrainJob)
    requires T.OrderOk(order)
    ensures Reached(s) && s.trainPasses == map[] && copy in s.reportedTrains && StartedUnit(copy, "a")
    ensures "a" in s.store.trains && s.store.trains["a"].status.phase == Queued
            && s.store.trains["a"].status.attempt == 0
    ensures PodKey("a", 0, 0) !in s.store.workers && GroupKey("a", 0) !in s.store.groups
  {
    hide Reached, T.OrderOk, T.RunTrainPass;
    var v;
    v, copy := PreemptedByNobody(order);
    D.PreemptedPass(v.store, "a", 6, order);
    s := WholePass(v, "a", 6, order);
  }

  /** The only job, started, running and preempted; its preemptor is not there. */
  lemma PreemptedByNobody(order: T.Order) returns (s: System, copy: TrainJob)
    requires T.OrderOk(order)
    ensures Reached(s) && s.trainPasses == map[] && copy in s.reportedTrains && StartedUnit(copy, "a")
    ensures s.store.trains.Keys == {"a"} && s.store.trains["a"].name == "a"
    ensures s.store.trains["a"].status.phase == Preempted && s.store.trains["a"].status.attempt == 0
    ensures PodKey("a", 0, 0) !in s.store.workers && GroupKey("a", 0) in s.store.groups
    ensures s.store.groups[GroupKey("a", 0)].preemptedBy == Some(JobRef("nobody", Train))
  {
    hide Reached, T.OrderOk, SomeWaiting, Quiet;
    var t := FirstUp(1, "a", order);
    copy := t.store.trains["a"];
    QuietMeans(t);
    var u := Become(t, "a", PodRunning, order);
    s := Preempt(u, "a", JobRef("nobody", Train), order);
  }

  lemma {:induction false} RunOn(ss: seq<System>, acts: seq<Action>, s: System, more: seq<Action>, t: System)
    returns (longer: seq<System>, all: seq<Action>)
    requires Run(ss, acts) && ss[|ss| - 1] == s && Leads(s, more, t)
    ensures Run(longer, all) && longer[|longer| - 1] == t
    decreases |more|
  {
    hide Run, Enabled, Apply;
    if more == [] {
      longer, all := ss, acts;
    } else {
      StepOn(ss, acts, s, more[0]);
      longer, all := RunOn(ss + [Apply(s, more[0])], acts + [more[0]], Apply(s, more[0]), more[1..], t);
    }
  }

  /** A pass over the queued job that begins with the old copy makes its group and its pod. */
  lemma StaleGang(order: T.Order) returns (ss: seq<System>, acts: seq<Action>, s: System)
    requires T.OrderOk(order)
    ensures RunTo(ss, acts, s) && "a" in s.store.trains && s.store.trains["a"].status.phase == Queued
    ensures s.store.trains["a"].status.attempt == 0 && GroupKey("a", 0) in s.store.groups
    ensures PodKey("a", 0, 0) in s.store.workers && !Finished(s.store.workers[PodKey("a", 0, 0)])
  {
    hide Run, FreshRun, Reached, T.OrderOk, T.RunTrainPass, Leads, LedgerInv, TrainPassOf;
    var r, copy := Released(order);
    var ss0, acts0 := RunInto(r);
    FreshRunIsRun(ss0, acts0);
    assert LedgerInv(r) by { Named(r, "a"); }
    var t, calls := GangUp(r.store, "a", copy, order);
    var more;
    more, s := TrainPassLeads(r, map["a" := copy], "a", calls, order);
    ss, acts := RunOn(ss0, acts0, r, more, s);
  }

  /** The scheduler marks that group. */
  lemma StaleMark(order: T.Order) returns (ss: seq<System>, acts: seq<Action>, s: System)
    requires T.OrderOk(order)
    ensures RunTo(ss, acts, s) && "a" in s.store.trains && s.store.trains["a"].status.phase == Queued
    ensures s.store.trains["a"].status.attempt == 0 && HasMark(s, GroupKey("a", 0))
    ensures PodKey("a", 0, 0) in s.store.workers && !Finished(s.store.workers[PodKey("a", 0, 0)])
  {
    hide Run, T.OrderOk, Enabled, Apply;
    var ss1, acts1, u := StaleGang(order);
    var g := GroupKey("a", 0);
    MarkMeans(u, g, JobRef("b", Train));
    var mark := MarkGroup(g, u.store.groups[g].(preemptedBy := Some(JobRef("b", Train))));
    StepOn(ss1, acts1, u, mark);
    ss, acts, s := ss1 + [Apply(u, mark)], acts1 + [mark], Apply(u, mark);
  }

  /**
   Why a cache must not go back: a run, with one pass that begins with a copy from before the preemption,
   into a state in which a queued job has an unfinished pod and a marked group. The mark is still there
   afterwards, without the scheduler's having written it since the job was queued.
   */
  lemma PhantomMark() returns (ss: seq<System>, acts: seq<Action>)
    ensures Run(ss, acts) && 2 <= |ss|
    ensures var s := ss[|ss| - 2];
            && "a" in s.store.trains && s.store.trains["a"].status.phase == Queued
            && s.store.trains["a"].status.attempt == 0 && !acts[|ss| - 2].MarkGroup?
            && PodKey("a", 0, 0) in s.store.workers && !Finished(s.store.workers[PodKey("a", 0, 0)])
    ensures HasMark(ss[|ss| - 1], GroupKey("a", 0))
  {
    var order := T.SomeOrder();
    var ss0, acts0, s := StaleMark(order);
    hide Run, T.OrderOk, Enabled, Apply;
    DeleteMeans(s, "a");
    StepOn(ss0, acts0, s, EndTrain("a"));
    ss, acts := ss0 + [Apply(s, EndTrain("a"))], acts0 + [EndTrain("a")];
    RunLength(ss0, acts0);
  }

  lemma RunLength(ss: seq<System>, acts: seq<Action>)
    requires Run(ss, acts)
    ensures |ss| == |acts| + 1
  {
  }

  // ---------------------------------------------------------------- inference passes with a lagging cache

  predicate MayServe(s: System, lastInfs: Infs, n: string, c: InferenceJob) {
    && c.name == n && InferenceVersion(s, c)
    && ((n in s.store.infs && s.store.infs[n] == c) || (n in lastInfs && lastInfs[n] == c))
  }

  lemma ServeMeans(s: System, last: Trains, lastInfs: Infs, n: string, c: InferenceJob)
    requires MayServe(s, lastInfs, n, c)
    ensures c.name == n && InferenceVersion(s, c) && Timely(last, lastInfs, s, BeginInference(c))
    ensures AfterBegin(last, BeginInference(c)) == last
    ensures AfterInfBegin(lastInfs, BeginInference(c)) == lastInfs[n := c]
  {
  }

  lemma InfStepsMean(s: System, n: string, spec: InferenceSpec, p: ServerPod)
    ensures n !in s.infNames && InferenceSpecOk(spec) ==>
              var a, j := CreateInference(n, 0, spec, [FINALIZER_KEY]), NewInference(n, 0, spec, [FINALIZER_KEY]);
              Enabled(s, a) && Apply(s, a)
                == s.(store := s.store.(infs := s.store.infs[n := j]), infNames := s.infNames + {n})
    ensures n in s.store.infs ==>
              Enabled(s, ReportInference(n))
              && Apply(s, ReportInference(n)) == s.(reportedInfs := s.reportedInfs + {s.store.infs[n]})
    ensures n in s.store.servers && !s.store.servers[n].deleting ==>
              Enabled(s, ChangeServer(n, p))
              && Apply(s, ChangeServer(n, p)) == s.(store := s.store.(servers := s.store.servers[n := p]))
    ensures Enabled(s, EndInference(n)) && Apply(s, EndInference(n)) == s.(infPasses := s.infPasses - {n})
  {
    hide T.TrainCall, I.InfCall, QueueCall, ChoiceOk, T.ReadsOk, T.Start, I.Start, InferenceSpecOk;
  }

  lemma SyncMeans(s: System, v: InferenceJob)
    requires v in s.reportedInfs
    ensures Enabled(s, SyncInference(v)) && Apply(s, SyncInference(v)) == s.(seenInfs := s.seenInfs[v.name := v])
  {
    hide T.TrainCall, I.InfCall, QueueCall, ChoiceOk, T.ReadsOk, T.Start, I.Start;
  }

  lemma LaggingInfPass(s: System, last: Trains, lastInfs: Infs, n: string, c: InferenceJob, calls: nat)
    returns (t: System)
    requires Lagged(s, last, lastInfs) && s.infPasses == map[] && MayServe(s, lastInfs, n, c) && 0 < calls
    ensures Lagged(t, last, lastInfs[n := c])
    ensures t == s.(store := I.RunInferencePass(s.store, map[n := c], n, calls).0)
  {
    hide Lagged, Enabled, Apply, Timely, I.RunInferencePass, Leads, LedgerInv, AfterBegin, AfterInfBegin, MayServe,
      InferenceVersion;
    LagLedger(s, last, lastInfs);
    ServeMeans(s, last, lastInfs, n, c);
    var acts, u := InferencePassLeads(s, map[n := c], n, calls);
    LeadsFirst(s, acts, u);
    LagStep(s, last, lastInfs, acts[0]);
    assert BeginsNothing(acts[1..]);
    LagLeads(Apply(s, acts[0]), last, lastInfs[n := c], acts[1..], u);
    InfStepsMean(u, n, c.spec, I.NEW_SERVER);
    LagGoesOn(u, last, lastInfs[n := c], EndInference(n));
    t := Apply(u, EndInference(n));
    assert t.infPasses == map[];
  }

  // ---------------------------------------------------------------- a server from its creation to its failure

  /** One gpu, and no restarts. */
  const SERVER := InferenceSpec(0, map["gpu" := 1], "")

  function ServerJob(phase: InferencePhase): InferenceJob {
    InferenceJob("x", 0, SERVER, phase, [FINALIZER_KEY], false, None)
  }

  const RESTARTED := ServerPod([Container(false, None, None, 1)], false, false)

  lemma SameServing(s: Store, n: string, calls: nat)
    requires n in s.infs
    ensures I.RunInferencePass(s, map[n := s.infs[n]], n, calls) == I.RunInferencePass(s, s.infs, n, calls)
  {
    hide I.RunInference, I.Start;
  }

  /** The two passes of one write each: into the queue, and past its gate. */
  lemma WritePass(s: Store, phase: InferencePhase)
    requires "x" in s.infs && s.infs["x"] == ServerJob(phase)
    requires phase == InfNoPhase || (phase == InfQueued && I.Admitted(s.used, ServerJob(phase)))
    ensures I.RunInferencePass(s, map["x" := ServerJob(phase)], "x", 3).0
            == s.(infs := s.infs["x" := ServerJob(if phase == InfNoPhase then InfQueued else InfStarting)])
  {
    hide I.RunInferencePass, I.Admitted;
    var b := ServerJob(phase);
    assert s.infs["x"].finalizers[0] == FINALIZER_KEY;
    E.AdmittedMeans(s.used, b);
    E.WaitingPass(s, "x", 3);
    SameServing(s, "x", 3);
  }

  lemma ServerCreated() returns (s: System, last: Trains, lastInfs: Infs)
    ensures Lagged(s, last, lastInfs) && s.infPasses == map[] && s.queuePass == QIdle
    ensures s.store.infs == map["x" := ServerJob(InfNoPhase)] && s.store.servers == map[] && s.store.used == []
    ensures s.store.quota == map["gpu" := 1] && s.seenTrains == map[] && s.seenInfs == map[]
  {
    hide Reached, Lagged, Enabled, Apply;
    var e := Empty(1);
    assert Reached(e) by { EmptyIsQuiet(1); }
    last, lastInfs := ReachedIsLagged(e);
    InfStepsMean(e, "x", SERVER, I.NEW_SERVER);
    LagGoesOn(e, last, lastInfs, CreateInference("x", 0, SERVER, [FINALIZER_KEY]));
    s := Apply(e, CreateInference("x", 0, SERVER, [FINALIZER_KEY]));
  }

  /** Created, and taken into the queue by a first pass; the watch has reported it, and the queue's cache holds it. */
  lemma ServerQueued() returns (s: System, last: Trains, lastInfs: Infs)
    ensures Lagged(s, last, lastInfs) && s.infPasses == map[] && s.queuePass == QIdle
    ensures s.store.infs == map["x" := ServerJob(InfQueued)] && s.store.servers == map[] && s.store.used == []
    ensures s.store.quota == map["gpu" := 1] && s.seenTrains == map[]
    ensures s.seenInfs == map["x" := ServerJob(InfQueued)]
  {
    var u;
    u, last, lastInfs := ServerCreated();
    hide Lagged, Enabled, Apply, I.RunInferencePass;
    WritePass(u.store, InfNoPhase);
    var v := LaggingInfPass(u, last, lastInfs, "x", ServerJob(InfNoPhase), 3);
    lastInfs := lastInfs["x" := ServerJob(InfNoPhase)];
    assert v.store.infs == map["x" := ServerJob(InfQueued)];
    InfStepsMean(v, "x", SERVER, I.NEW_SERVER);
    LagGoesOn(v, last, lastInfs, ReportInference("x"));
    var w := Apply(v, ReportInference("x"));
    SyncMeans(w, ServerJob(InfQueued));
    LagGoesOn(w, last, lastInfs, SyncInference(ServerJob(InfQueued)));
    s := Apply(w, SyncInference(ServerJob(InfQueued)));
  }

  lemma AdmitsServer(s: Store, infs: Infs)
    requires infs == map["x" := ServerJob(InfQueued)] && s.used == [] && s.quota == map["gpu" := 1]
    ensures QueueNext(s.quota, s.used, s.classes, map[], infs, [Entry("x", Inference, SERVER.requests, 0)])
    ensures I.Admitted([Entry("x", Inference, SERVER.requests, 0)], ServerJob(InfQueued))
  {
    var h, after := QueuedInference(ServerJob(InfQueued)), [Entry("x", Inference, SERVER.requests, 0)];
    assert Waiting(map[], infs, h);
    ComparatorIsStrictWeakOrder(s.classes, h, h, h);
    assert Head(s.classes, map[], infs, h) by { hide Before; }
    assert Clean(s.used, map[], infs) == [];
    assert h.res["gpu"] == 1 && Left(s.quota, [], "gpu") == 1;
    assert Admit(s.quota, [], h) == after;
    assert after[0].name == "x";
  }

  /** Admitted and started; the watch has reported that. */
  lemma ServerStarted() returns (s: System, last: Trains, lastInfs: Infs)
    ensures Lagged(s, last, lastInfs) && s.infPasses == map[] && ServerJob(InfStarting) in s.reportedInfs
    ensures s.store.infs == map["x" := ServerJob(InfStarting)] && s.store.servers == map[]
  {
    var u;
    u, last, lastInfs := ServerQueued();
    hide Lagged, Enabled, Apply, I.RunInferencePass, QueueNext, Leads, I.Admitted;
    AdmitsServer(u.store, u.seenInfs);
    var after := [Entry("x", Inference, SERVER.requests, 0)];
    var acts := QueuePassLeads(u, after);
    var v := AfterQueuePass(u, after);
    assert BeginsNothing(acts);
    LagLeads(u, last, lastInfs, acts, v);
    WritePass(v.store, InfQueued);
    var w := LaggingInfPass(v, last, lastInfs, "x", ServerJob(InfQueued), 3);
    lastInfs := lastInfs["x" := ServerJob(InfQueued)];
    assert w.store.infs == map["x" := ServerJob(InfStarting)];
    InfStepsMean(w, "x", SERVER, I.NEW_SERVER);
    LagGoesOn(w, last, lastInfs, ReportInference("x"));
    s := Apply(w, ReportInference("x"));
  }

  lemma FailingPass(s: Store)
    requires s.infs == map["x" := ServerJob(InfStarting)] && s.servers == map["x" := RESTARTED]
    ensures I.RunInferencePass(s, map["x" := ServerJob(InfStarting)], "x", 3).0
            == s.(infs := map["x" := ServerJob(InfFailing)])
  {
    hide I.RunInferencePass;
    assert s.infs["x"].finalizers[0] == FINALIZER_KEY;
    E.RestartsIsSum(RESTARTED.containers);
    assert RESTARTED.containers[..0] == [];
    var j := E.ServedPass(s, "x", 3);
    SameServing(s, "x", 3);
    assert s.infs["x" := j] == map["x" := ServerJob(InfFailing)];
  }

  /** The pod is made and restarts once too often, a pass stores Failing, and the pod is evicted. */
  lemma ServerFailing() returns (s: System, last: Trains, lastInfs: Infs)
    ensures Lagged(s, last, lastInfs) && s.infPasses == map[] && ServerJob(InfStarting) in s.reportedInfs
    ensures "x" in lastInfs && lastInfs["x"] == ServerJob(InfStarting)
    ensures s.store.infs == map["x" := ServerJob(InfFailing)] && s.store.servers == map[]
  {
    var u;
    u, last, lastInfs := ServerStarted();
    hide Lagged, Enabled, Apply, I.RunInferencePass;
    var c := ServerJob(InfStarting);
    assert FINALIZER_KEY in c.finalizers;
    E.MissingPodIsRecreated(u.store, "x", 5);
    assert u.store.infs == map["x" := c];
    var v := LaggingInfPass(u, last, lastInfs, "x", c, 5);
    lastInfs := lastInfs["x" := c];
    InfStepsMean(v, "x", SERVER, RESTARTED);
    LagGoesOn(v, last, lastInfs, ChangeServer("x", RESTARTED));
    var w := Apply(v, ChangeServer("x", RESTARTED));
    assert w.store.servers == map["x" := RESTARTED] && w.store.infs == map["x" := c];
    FailingPass(w.store);
    var y := LaggingInfPass(w, last, lastInfs, "x", c, 3);
    lastInfs := lastInfs["x" := c];
    RemoveMeans(y, GroupKey("x", 0), "x");
    LagGoesOn(y, last, lastInfs, RemoveServer("x"));
    s := Apply(y, RemoveServer("x"));
  }

  /** A pass with the old copy makes the pod again. */
  lemma ServePass(s: Store)
    requires "x" !in s.servers
    ensures I.RunInferencePass(s, map["x" := ServerJob(InfStarting)], "x", 4).0
            == s.(servers := s.servers["x" := I.NEW_SERVER])
  {
    var b := ServerJob(InfStarting);
    var j := I.Observed(b, None);
    assert FINALIZER_KEY in b.finalizers;
    E.InfNext(s, I.IGetPod(b), 3);
    E.InfNext(s, I.IEnsurePod(b, j), 2);
    E.InfNext(s, I.ICreatePod(b, j), 1);
    hide I.RunInference, I.Observed;
  }

  /**
   An outdated copy makes a pod for a failing job, in a run in which no cache goes back: a pass stores
   Failing, the pod is evicted, and the next pass begins with the same copy as before.
   */
  lemma PodForFailingJob() returns (ss: seq<System>, acts: seq<Action>)
    ensures LaggingRun(ss, acts)
    ensures var s := ss[|ss| - 1].store;
            "x" in s.infs && s.infs["x"].phase == InfFailing && "x" in s.servers && !s.servers["x"].deleting
  {
    var s, last, lastInfs := ServerFailing();
    hide LaggingRun, Lagged, I.RunInferencePass;
    ServePass(s.store);
    var t := LaggingInfPass(s, last, lastInfs, "x", ServerJob(InfStarting), 4);
    ss, acts := RunOfLagged(t, last, lastInfs["x" := ServerJob(InfStarting)]);
  }

  lemma FailedPass(s: Store)
    requires s.infs == map["x" := ServerJob(InfFailing)] && "x" !in s.servers
    ensures I.RunInferencePass(s, map["x" := ServerJob(InfFailing)], "x", 3).0
            == s.(infs := map["x" := ServerJob(InfFailed)])
  {
    hide I.RunInferencePass;
    assert s.infs["x"].finalizers[0] == FINALIZER_KEY;
    E.FailingPass(s, "x", 3);
    SameServing(s, "x", 3);
    assert s.infs["x" := ServerJob(InfFailed)] == map["x" := ServerJob(InfFailed)];
  }

  /** From a cache that goes back even a job that has Failed gets a pod; its entry no longer survives a queue pass. */
  lemma PodForFailedJob() returns (ss: seq<System>, acts: seq<Action>)
    ensures Run(ss, acts)
    ensures var s := ss[|ss| - 1].store;
            "x" in s.infs && s.infs["x"].phase == InfFailed && "x" in s.servers && !s.servers["x"].deleting
  {
    var s, last, lastInfs := ServerFailing();
    hide LaggingRun, Lagged, I.RunInferencePass, Run, Leads, LedgerInv;
    FailedPass(s.store);
    var t := LaggingInfPass(s, last, lastInfs, "x", ServerJob(InfFailing), 3);
    lastInfs := lastInfs["x" := ServerJob(InfFailing)];
    LagLedger(t, last, lastInfs);
    ServePass(t.store);
    var more, u := InferencePassLeads(t, map["x" := ServerJob(InfStarting)], "x", 4);
    ss, acts := RunOfLagged(t, last, lastInfs);
    LaggingIsRun(ss, acts);
    ss, acts := RunOn(ss, acts, t, more, u);
  }
}
