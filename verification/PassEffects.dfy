/** What a complete, undisturbed pass of the TrainJob reconciler over a started job comes to. */
module PassEffects {
  import opened ClusterTypes
  import opened Names
  import T = TrainLifecycle
  import W = Wakeups

  predicate Stored(s: Store, b: TrainJob) {
    b.name in s.trains && s.trains[b.name] == b
  }

  function WithStatus(s: Store, b: TrainJob, st: TrainStatus): map<string, TrainJob> {
    s.trains[b.name := b.(status := st)]
  }

  // ---------------------------------------------------------------- stretches of a pass

  /** From `pc` on `s` the pass comes to `next` on `t` by exactly `used` calls, if that many succeed. */
  ghost predicate Reaches(s: Store, pc: T.TrainPc, t: Store, next: T.TrainPc, used: nat, order: T.Order)
    requires T.OrderOk(order)
  {
    forall calls: nat :: used <= calls ==> T.RunTrain(s, pc, calls, order) == T.RunTrain(t, next, calls - used, order)
  }

  lemma OneCall(s: Store, pc: T.TrainPc, order: T.Order)
    requires T.OrderOk(order) && !T.Over(pc)
    ensures var (t, next) := T.TrainCall(s, pc, T.ReadsIn(s, pc, order)); Reaches(s, pc, t, next, 1, order)
  {
    forall calls: nat | 1 <= calls
      ensures var (t, next) := T.TrainCall(s, pc, T.ReadsIn(s, pc, order));
              T.RunTrain(s, pc, calls, order) == T.RunTrain(t, next, calls - 1, order)
    {
      W.RunNext(s, pc, calls, order);
    }
    hide T.RunTrain, T.TrainCall;
  }

  lemma Chain(s: Store, p: T.TrainPc, t: Store, q: T.TrainPc, u: Store, r: T.TrainPc, m: nat, n: nat, order: T.Order)
    requires T.OrderOk(order) && Reaches(s, p, t, q, m, order) && Reaches(t, q, u, r, n, order)
    ensures Reaches(s, p, u, r, m + n, order)
  {
    forall calls: nat | m + n <= calls
      ensures T.RunTrain(s, p, calls, order) == T.RunTrain(u, r, calls - (m + n), order)
    {
      assert T.RunTrain(s, p, calls, order) == T.RunTrain(t, q, calls - m, order);
      assert T.RunTrain(t, q, calls - m, order) == T.RunTrain(u, r, calls - m - n, order);
    }
    hide T.RunTrain;
  }

  lemma NoCall(s: Store, pc: T.TrainPc, order: T.Order)
    requires T.OrderOk(order)
    ensures Reaches(s, pc, s, pc, 0, order)
  {
    hide T.RunTrain;
  }

  /** When the calls that succeed suffice for the stretch, the pass goes on from its end. */
  lemma GoesOn(s: Store, pc: T.TrainPc, t: Store, next: T.TrainPc, used: nat, calls: nat, order: T.Order)
    requires T.OrderOk(order) && Reaches(s, pc, t, next, used, order) && used <= calls
    ensures T.RunTrain(s, pc, calls, order) == T.RunTrain(t, next, calls - used, order)
    ensures T.Over(next) || calls == used ==> T.RunTrain(s, pc, calls, order) == (t, next)
  {
  }

  // ---------------------------------------------------------------- the master service

  /** Only the job's own service changes, and it becomes what it has to be. */
  predicate ServiceReady(s: Store, t: Store, b: TrainJob) {
    var port := if b.spec.masterPort > 0 then b.spec.masterPort else 29500;
    var service := MasterService(MasterServiceSelector(b.name, b.status.attempt), [ServicePort(port, port)]);
    t.services == s.services[b.name := service]
  }

  lemma ServiceSet(s: Store, t: Store, b: TrainJob)
    requires t.services == s.services[b.name := T.ServiceFor(b)]
    ensures ServiceReady(s, t, b)
  {
  }

  /** From the start of a pass over a started job to its group: the service is there and up to date. */
  lemma ServiceRun(s: Store, b: TrainJob, order: T.Order) returns (t: Store, used: nat)
    requires T.OrderOk(order) && DrivingTrain(b.status.phase)
    ensures 1 <= used <= 2 && Reaches(s, T.Start(b), t, T.TGetGroup(b), used, order)
    ensures t == s.(services := t.services) && ServiceReady(s, t, b)
  {
    OneCall(s, T.TGetService(b), order);
    hide T.RunTrain, T.ServiceFor, ServiceReady, Reaches;
    if b.name in s.services && s.services[b.name] == T.ServiceFor(b) {
      assert s.services == s.services[b.name := T.ServiceFor(b)];
      t, used := s, 1;
    } else {
      t, used := s.(services := s.services[b.name := T.ServiceFor(b)]), 2;
      var next := if b.name !in s.services then T.TCreateService(b) else T.TUpdateService(b, s.services[b.name]);
      OneCall(s, next, order);
      Chain(s, T.TGetService(b), s, next, t, T.TGetGroup(b), 1, 1, order);
    }
    ServiceSet(s, t, b);
  }

  // ---------------------------------------------------------------- deleting an attempt's pods

  /** The store once the listed pods are gone and the status is written. */
  function Emptied(s: Store, b: TrainJob, items: seq<PodKey>, st: TrainStatus): Store {
    s.(workers := s.workers - (set k | k in items), trains := WithStatus(s, b, st))
  }

  lemma WriteRun(s: Store, b: TrainJob, st: TrainStatus, order: T.Order)
    requires T.OrderOk(order) && Stored(s, b)
    ensures Reaches(s, T.TWrite(b, st), s.(trains := WithStatus(s, b, st)), T.TDone, 1, order)
  {
    OneCall(s, T.TWrite(b, st), order);
    hide Reaches;
  }

  lemma {:induction false} DropRun(s: Store, b: TrainJob, items: seq<PodKey>, st: TrainStatus, order: T.Order)
    requires T.OrderOk(order) && Stored(s, b)
    ensures Reaches(s, T.Dropping(b, items, st), Emptied(s, b, items, st), T.TDone, |items| + 1, order)
    decreases |items|
  {
    hide T.RunTrain, Reaches;
    if items == [] {
      WriteRun(s, b, st, order);
      assert (set k | k in items) == {};
      assert s.workers - {} == s.workers;
    } else {
      var t := s.(workers := s.workers - {items[0]});
      OneCall(s, T.TDropPod(b, items[0], items[1..], st), order);
      DropRun(t, b, items[1..], st, order);
      assert (set k | k in items) == {items[0]} + (set k | k in items[1..]);
      assert t.workers - (set k | k in items[1..]) == s.workers - (set k | k in items);
      Chain(s, T.Dropping(b, items, st), t, T.Dropping(b, items[1..], st), Emptied(s, b, items, st), T.TDone,
            1, |items[1..]| + 1, order);
    }
  }

  lemma ListDropRun(s: Store, b: TrainJob, st: TrainStatus, order: T.Order)
    requires T.OrderOk(order) && Stored(s, b)
    ensures var pods := T.AttemptPods(s.workers, b.name, b.status.attempt);
            Reaches(s, T.TListDrop(b, st), s.(workers := s.workers - pods, trains := WithStatus(s, b, st)), T.TDone,
                    |pods| + 2, order)
  {
    var pods := T.AttemptPods(s.workers, b.name, b.status.attempt);
    OneCall(s, T.TListDrop(b, st), order);
    T.ListingSize(order(pods), pods);
    hide T.RunTrain, Reaches;
    DropRun(s, b, order(pods), st, order);
    assert (set k | k in order(pods)) == pods;
    Chain(s, T.TListDrop(b, st), s, T.Dropping(b, order(pods), st), Emptied(s, b, order(pods), st), T.TDone,
          1, |pods| + 1, order);
  }

  /**
   A preemption mark outranks everything else: over a running job whose group is marked a pass deletes
   the attempt's pods and reports Preempted with the attempt unchanged, also when pods have already failed.
   */
  lemma MarkedPass(s: Store, n: string, calls: nat, order: T.Order)
    requires T.OrderOk(order) && n in s.trains && s.trains[n].name == n && s.trains[n].status.phase == Running
    requires T.GroupOf(s.trains[n]) in s.groups && s.groups[T.GroupOf(s.trains[n])].preemptedBy.Some?
    requires |T.AttemptPods(s.workers, n, s.trains[n].status.attempt)| + 6 <= calls
    ensures var b, t := s.trains[n], T.RunTrainPass(s, s.trains, n, calls, order).0;
            var failure := FailureSummary(0, 0, s.groups[T.GroupOf(b)].preemptedBy);
            && t == s.(workers := t.workers, services := t.services,
                       trains := WithStatus(s, b, b.status.(phase := Preempted, lastFailure := Some(failure))))
            && t.workers == s.workers - T.AttemptPods(s.workers, n, b.status.attempt)
            && ServiceReady(s, t, b)
  {
    hide T.RunTrain, Reaches, ServiceReady, T.Start;
    var b := s.trains[n];
    var st := b.status.(phase := Preempted, lastFailure := Some(T.GroupFailure(s.groups[T.GroupOf(b)])));
    var t, used := ServiceRun(s, b, order);
    OneCall(t, T.TGetGroup(b), order);
    Chain(s, T.Start(b), t, T.TGetGroup(b), t, T.TListDrop(b, st), used, 1, order);
    ListDropRun(t, b, st, order);
    var pods := T.AttemptPods(t.workers, b.name, b.status.attempt);
    var u := t.(workers := t.workers - pods, trains := WithStatus(t, b, st));
    Chain(s, T.Start(b), t, T.TListDrop(b, st), u, T.TDone, used + 1, |pods| + 2, order);
    GoesOn(s, T.Start(b), u, T.TDone, used + |pods| + 3, calls - 1, order);
    ServicesKept(s, t, u, b);
  }

  lemma ServicesKept(s: Store, t: Store, u: Store, b: TrainJob)
    requires ServiceReady(s, t, b) && u.services == t.services
    ensures ServiceReady(s, u, b)
  {
  }

  // ---------------------------------------------------------------- ensuring the gang

  /** `t` has the pods of `s`, and fresh ones for the missing ranks of the job's attempt from `rank` on. */
  ghost predicate Ensured(s: T.Workers, t: T.Workers, b: TrainJob, rank: nat) {
    && (forall k :: k in s ==> k in t && t[k] == s[k])
    && (forall k :: k in t && k !in s ==>
          t[k] == T.NewWorker(b) && k.job == b.name && k.attempt == b.status.attempt
          && rank <= k.rank < b.spec.worldSize)
    && (forall r: nat :: rank <= r < b.spec.worldSize ==> PodKey(b.name, b.status.attempt, r) in t)
  }

  lemma OneRank(s: Store, b: TrainJob, rank: nat, order: T.Order) returns (t: Store, used: nat)
    requires T.OrderOk(order) && rank < b.spec.worldSize
    ensures 1 <= used <= 2 && Reaches(s, T.AtRank(b, rank), t, T.AtRank(b, rank + 1), used, order)
    ensures t == s.(workers := if PodKey(b.name, b.status.attempt, rank) in s.workers then s.workers
                               else s.workers[PodKey(b.name, b.status.attempt, rank) := T.NewWorker(b)])
  {
    var key := PodKey(b.name, b.status.attempt, rank);
    OneCall(s, T.TGetPod(b, rank), order);
    hide T.RunTrain, Reaches;
    if key in s.workers {
      t, used := s, 1;
    } else {
      t, used := s.(workers := s.workers[key := T.NewWorker(b)]), 2;
      OneCall(s, T.TCreatePod(b, rank), order);
      Chain(s, T.TGetPod(b, rank), s, T.TCreatePod(b, rank), t, T.AtRank(b, rank + 1), 1, 1, order);
    }
  }

  lemma {:induction false} RanksRun(s: Store, b: TrainJob, rank: nat, order: T.Order) returns (t: Store, used: nat)
    requires T.OrderOk(order) && rank <= b.spec.worldSize
    ensures used <= 2 * (b.spec.worldSize - rank) && Reaches(s, T.AtRank(b, rank), t, T.TListPods(b), used, order)
    ensures t == s.(workers := t.workers) && Ensured(s.workers, t.workers, b, rank)
    decreases b.spec.worldSize - rank
  {
    hide T.RunTrain, Reaches;
    if rank == b.spec.worldSize {
      t, used := s, 0;
      NoCall(s, T.TListPods(b), order);
    } else {
      var u, first := OneRank(s, b, rank, order);
      var rest;
      t, rest := RanksRun(u, b, rank + 1, order);
      EnsuredOneMore(s.workers, u.workers, t.workers, b, rank);
      Chain(s, T.AtRank(b, rank), u, T.AtRank(b, rank + 1), t, T.TListPods(b), first, rest, order);
      used := first + rest;
    }
  }

  lemma EnsuredOneMore(s: T.Workers, u: T.Workers, t: T.Workers, b: TrainJob, rank: nat)
    requires rank < b.spec.worldSize && Ensured(u, t, b, rank + 1)
    requires var key := PodKey(b.name, b.status.attempt, rank);
             u == if key in s then s else s[key := T.NewWorker(b)]
    ensures Ensured(s, t, b, rank)
  {
    forall r: nat | rank <= r < b.spec.worldSize ensures PodKey(b.name, b.status.attempt, r) in t {
      if r == rank {
        assert PodKey(b.name, b.status.attempt, r) in u;
      }
    }
  }

  // ---------------------------------------------------------------- the pod group

  /** The group, as read, does not end the pass early. */
  predicate Undisturbed(s: Store, b: TrainJob) {
    T.GroupOf(b) in s.groups ==>
      && !(b.status.phase == Starting && s.groups[T.GroupOf(b)].failed)
      && !(b.status.phase == Running && s.groups[T.GroupOf(b)].preemptedBy.Some?)
  }

  /**
   The gang's group: a new one asks for the whole gang and carries no report; a running one's stale report is
   cleared.
   */
  predicate GroupReady(s: Store, t: Store, b: TrainJob) {
    var key := T.GroupOf(b);
    && key in t.groups
    && (key !in s.groups ==> t.groups[key] == PodGroup(b.name, b.spec.worldSize, false, 0, None, b.status.requeueCount))
    && (key in s.groups ==>
          && t.groups[key] == s.groups[key].(detail := t.groups[key].detail)
          && (b.status.phase == Running && s.groups[key].detail > 0 ==> t.groups[key].detail == 0)
          && (b.status.phase != Running ==> t.groups[key] == s.groups[key]))
    && (forall g :: g in t.groups ==> g == key || (g in s.groups && t.groups[g] == s.groups[g]))
    && (forall g :: g in s.groups ==> g in t.groups)
  }

  lemma GetGroupRun(s: Store, b: TrainJob, order: T.Order)
    requires T.OrderOk(order)
    ensures var next := if T.GroupOf(b) in s.groups then T.OnGroup(b, s.groups[T.GroupOf(b)]) else T.TCreateGroup(b);
            Reaches(s, T.TGetGroup(b), s, next, 1, order)
  {
    OneCall(s, T.TGetGroup(b), order);
    hide Reaches, T.OnGroup;
  }

  lemma CreateGroupRun(s: Store, b: TrainJob, order: T.Order)
    requires T.OrderOk(order) && T.GroupOf(b) !in s.groups
    ensures Reaches(s, T.TCreateGroup(b), s.(groups := s.groups[T.GroupOf(b) := T.NewGroup(b)]), T.AtRank(b, 0), 1,
                    order)
  {
    OneCall(s, T.TCreateGroup(b), order);
    hide Reaches, T.AtRank;
  }

  lemma ClearDetailRun(s: Store, b: TrainJob, order: T.Order)
    requires T.OrderOk(order) && T.GroupOf(b) in s.groups
    ensures var g := s.groups[T.GroupOf(b)];
            Reaches(s, T.TClearDetail(b, g), s.(groups := s.groups[T.GroupOf(b) := g.(detail := 0)]), T.AtRank(b, 0),
                    1, order)
  {
    OneCall(s, T.TClearDetail(b, s.groups[T.GroupOf(b)]), order);
    hide Reaches, T.AtRank;
  }

  /** From the group to the ranks: the group is there, and nothing else has changed. */
  lemma GroupRun(s: Store, b: TrainJob, order: T.Order) returns (t: Store, used: nat)
    requires T.OrderOk(order) && DrivingTrain(b.status.phase) && Undisturbed(s, b)
    ensures 1 <= used <= 2 && Reaches(s, T.TGetGroup(b), t, T.AtRank(b, 0), used, order)
    ensures t == s.(groups := t.groups) && GroupReady(s, t, b)
  {
    hide Reaches, T.AtRank, T.OrderOk;
    var key := T.GroupOf(b);
    GetGroupRun(s, b, order);
    if key !in s.groups {
      CreateGroupRun(s, b, order);
      t, used := s.(groups := s.groups[key := T.NewGroup(b)]), 2;
      Chain(s, T.TGetGroup(b), s, T.TCreateGroup(b), t, T.AtRank(b, 0), 1, 1, order);
    } else if b.status.phase == Running && s.groups[key].detail > 0 {
      ClearDetailRun(s, b, order);
      t, used := s.(groups := s.groups[key := s.groups[key].(detail := 0)]), 2;
      Chain(s, T.TGetGroup(b), s, T.TClearDetail(b, s.groups[key]), t, T.AtRank(b, 0), 1, 1, order);
    } else {
      t, used := s, 1;
    }
  }

  lemma StillUndisturbed(s: Store, t: Store, b: TrainJob)
    requires Undisturbed(s, b) && t.groups == s.groups
    ensures Undisturbed(t, b)
  {
  }

  /** From the start of a pass over a started job to the listing of its pods. */
  lemma GangRun(s: Store, b: TrainJob, order: T.Order) returns (t: Store, used: nat)
    requires T.OrderOk(order) && DrivingTrain(b.status.phase) && Undisturbed(s, b) && 0 <= b.spec.worldSize
    ensures used <= 2 * b.spec.worldSize + 4 && Reaches(s, T.Start(b), t, T.TListPods(b), used, order)
    ensures t == s.(services := t.services, groups := t.groups, workers := t.workers)
    ensures ServiceReady(s, t, b) && GroupReady(s, t, b) && Ensured(s.workers, t.workers, b, 0)
  {
    hide T.AtRank, T.Start, T.RunTrain, Ensured, T.OrderOk, T.ServiceFor, T.NewGroup, ServiceReady, GroupReady, Reaches,
      Undisturbed;
    var w, m := ServiceRun(s, b, order);
    StillUndisturbed(s, w, b);
    var u, k := GroupRun(w, b, order);
    var r;
    t, r := RanksRun(u, b, 0, order);
    Chain(s, T.Start(b), w, T.TGetGroup(b), u, T.AtRank(b, 0), m, k, order);
    Chain(s, T.Start(b), u, T.AtRank(b, 0), t, T.TListPods(b), m + k, r, order);
    used := m + k + r;
    ServicesKept(s, w, t, b);
    GroupsKept(s, w, u, t, b);
  }

  lemma GroupsKept(s: Store, w: Store, u: Store, t: Store, b: TrainJob)
    requires GroupReady(w, u, b) && w.groups == s.groups && t.groups == u.groups
    ensures GroupReady(s, t, b)
  {
  }

  // ---------------------------------------------------------------- the whole pass

  ghost predicate SomeFailed(s: T.Workers, b: TrainJob) {
    exists k :: k in s && k.job == b.name && k.attempt == b.status.attempt && s[k].phase == PodFailed
  }

  /** The phase is Succeeded, Running or Starting according to what all the ranks are. */
  ghost predicate PhaseSaysGang(s: T.Workers, b: TrainJob, phase: TrainPhase) {
    var all := T.AllSucceeded(s, b.name, b.status.attempt, b.spec.worldSize);
    var up := T.AllUp(s, b.name, b.status.attempt, b.spec.worldSize);
    && (phase == Succeeded <==> all)
    && (phase == Running <==> up && !all)
    && (phase == Starting <==> !up)
  }

  ghost function RunningPods(s: T.Workers, b: TrainJob): set<PodKey> {
    set k | k in s && k.job == b.name && k.attempt == b.status.attempt && s[k].phase == PodRunning
  }

  ghost function ReadyPods(s: T.Workers, b: TrainJob): set<PodKey> {
    set k | k in s && k.job == b.name && k.attempt == b.status.attempt && s[k].ready
  }

  /** The counters are stored together with a change of the phase, and only then; nothing else changes. */
  ghost predicate Counted(s: T.Workers, b: TrainJob, st: TrainStatus) {
    st == if st.phase == b.status.phase then b.status
          else b.status.(phase := st.phase, runningWorkers := |RunningPods(s, b)|, readyWorkers := |ReadyPods(s, b)|)
  }

  lemma ListingCounts(s: T.Workers, b: TrainJob, items: seq<PodKey>)
    requires T.Listing(items, T.AttemptPods(s, b.name, b.status.attempt))
    ensures var sum := T.Aggregate(s, items);
            sum.running == |RunningPods(s, b)| && sum.ready == |ReadyPods(s, b)|
  {
    T.AggregateCounts(s, items);
    assert T.InPhase(s, items, PodRunning) == RunningPods(s, b);
    assert T.ReadyOnes(s, items) == ReadyPods(s, b);
    hide T.Aggregate;
  }

  /** A failed pod of the attempt is named; the job goes on with the next attempt while the budget lasts. */
  ghost predicate FailedStatus(s: T.Workers, b: TrainJob, st: TrainStatus) {
    exists k :: k in s && k.job == b.name && k.attempt == b.status.attempt && s[k].phase == PodFailed
                && var failed := b.status.(lastFailure := Some(FailureSummary(k.attempt, k.rank, None)));
                   st == if b.status.attempt < b.spec.retryLimit
                         then failed.(phase := Retrying, attempt := b.status.attempt + 1)
                         else failed.(phase := Failed)
  }

  /** From the listing to the end, without a failed pod. */
  lemma CountedRun(s: Store, b: TrainJob, calls: nat, order: T.Order)
    requires T.OrderOk(order) && Stored(s, b) && 0 <= b.spec.worldSize && 2 <= calls && !SomeFailed(s.workers, b)
    requires forall k :: k in T.AttemptPods(s.workers, b.name, b.status.attempt) ==> k.rank < b.spec.worldSize
    ensures var t := T.RunTrain(s, T.TListPods(b), calls, order).0;
            && t == s.(trains := t.trains) && t.trains.Keys == s.trains.Keys
            && (forall m :: m in s.trains && m != b.name ==> t.trains[m] == s.trains[m])
            && t.trains[b.name] == b.(status := t.trains[b.name].status)
            && Counted(s.workers, b, t.trains[b.name].status)
            && PhaseSaysGang(s.workers, b, t.trains[b.name].status.phase)
  {
    var pods := T.AttemptPods(s.workers, b.name, b.status.attempt);
    var seen := T.ReadsIn(s, T.TListPods(b), order);
    var sum := T.Aggregate(s.workers, seen.items);
    T.GangPhase(s.workers, b.name, b.status.attempt, b.spec.worldSize, seen.items);
    T.RetryNeedsFailedPod(s, b, seen);
    ListingCounts(s.workers, b, seen.items);
    W.RunNext(s, T.TListPods(b), calls, order);
    hide T.RunTrain, T.Aggregate, T.Listing, T.NextPhase, T.AllSucceeded, T.AllUp, RunningPods, ReadyPods;
    var st := T.WithWorkerStatus(b, sum);
    if st.phase != b.status.phase {
      WriteRun(s, b, st, order);
      GoesOn(s, T.TWrite(b, st), s.(trains := WithStatus(s, b, st)), T.TDone, 1, calls - 1, order);
    }
  }

  /** A listing that shows a failed pod leads to the deletion of the attempt's pods. */
  lemma FailedListing(s: Store, b: TrainJob, calls: nat, order: T.Order) returns (st: TrainStatus)
    requires T.OrderOk(order) && SomeFailed(s.workers, b) && 1 <= calls
    ensures FailedStatus(s.workers, b, st)
    ensures T.RunTrain(s, T.TListPods(b), calls, order) == T.RunTrain(s, T.TListDrop(b, st), calls - 1, order)
  {
    var seen := T.ReadsIn(s, T.TListPods(b), order);
    T.RetryNeedsFailedPod(s, b, seen);
    W.RunNext(s, T.TListPods(b), calls, order);
    hide T.RunTrain, T.Aggregate, T.Listing;
    st := T.AfterFailedPod(b, T.Aggregate(s.workers, seen.items));
    var k :| k in s.workers && k.job == b.name && k.attempt == b.status.attempt && s.workers[k].phase == PodFailed
             && st.lastFailure == Some(FailureSummary(k.attempt, k.rank, None));
    assert st == (var failed := b.status.(lastFailure := Some(FailureSummary(k.attempt, k.rank, None)));
                  if b.status.attempt < b.spec.retryLimit
                  then failed.(phase := Retrying, attempt := b.status.attempt + 1)
                  else failed.(phase := Failed));
  }

  /** From the listing to the end, with a failed pod. */
  lemma FailedRun(s: Store, b: TrainJob, calls: nat, order: T.Order)
    requires T.OrderOk(order) && Stored(s, b) && SomeFailed(s.workers, b)
    requires |T.AttemptPods(s.workers, b.name, b.status.attempt)| + 3 <= calls
    ensures var t := T.RunTrain(s, T.TListPods(b), calls, order).0;
            && t == s.(trains := t.trains, workers := s.workers - T.AttemptPods(s.workers, b.name, b.status.attempt))
            && t.trains.Keys == s.trains.Keys
            && (forall m :: m in s.trains && m != b.name ==> t.trains[m] == s.trains[m])
            && t.trains[b.name] == b.(status := t.trains[b.name].status)
            && FailedStatus(s.workers, b, t.trains[b.name].status)
  {
    hide T.RunTrain, T.OrderOk, SomeFailed, Reaches, FailedStatus;
    var st := FailedListing(s, b, calls, order);
    var pods := T.AttemptPods(s.workers, b.name, b.status.attempt);
    ListDropRun(s, b, st, order);
    GoesOn(s, T.TListDrop(b, st), s.(workers := s.workers - pods, trains := WithStatus(s, b, st)), T.TDone,
           |pods| + 2, calls - 1, order);
  }

  lemma GangSize(s: T.Workers, t: T.Workers, b: TrainJob)
    requires 0 <= b.spec.worldSize && Ensured(s, t, b, 0)
    requires forall k :: k in T.AttemptPods(s, b.name, b.status.attempt) ==> k.rank < b.spec.worldSize
    ensures forall k :: k in T.AttemptPods(t, b.name, b.status.attempt) ==> k.rank < b.spec.worldSize
    ensures |T.AttemptPods(t, b.name, b.status.attempt)| == b.spec.worldSize
    ensures SomeFailed(t, b) <==> SomeFailed(s, b)
  {
    var pods, all := T.AttemptPods(t, b.name, b.status.attempt), T.RankKeys(b.name, b.status.attempt, b.spec.worldSize);
    forall k | k in pods ensures k.rank < b.spec.worldSize && k in all {
      assert k in s ==> k in T.AttemptPods(s, b.name, b.status.attempt);
      assert k == PodKey(b.name, b.status.attempt, k.rank);
    }
    assert pods == all;
    T.RankKeysSize(b.name, b.status.attempt, b.spec.worldSize);
  }

  lemma EnsuredGone(s: T.Workers, t: T.Workers, b: TrainJob)
    requires Ensured(s, t, b, 0)
    ensures t - T.AttemptPods(t, b.name, b.status.attempt) == s - T.AttemptPods(s, b.name, b.status.attempt)
  {
    var a, c := t - T.AttemptPods(t, b.name, b.status.attempt), s - T.AttemptPods(s, b.name, b.status.attempt);
    assert a.Keys == c.Keys;
  }

  /** The pods that are made are not the failed ones. */
  lemma FailedBefore(s: T.Workers, t: T.Workers, b: TrainJob, st: TrainStatus)
    requires Ensured(s, t, b, 0) && FailedStatus(t, b, st)
    ensures FailedStatus(s, b, st)
  {
  }

  /**
   A complete pass over a started job that its group does not stop. First the service selects the rank-0
   pod of the current attempt and every rank gets its pod. Without a failed pod these stay, and the
   phase tells exactly what all ranks are; with one they are all deleted, and the job retries on the
   next attempt or, its budget spent, fails.
   */
  lemma CompletePass(s: Store, n: string, calls: nat, order: T.Order)
    requires T.OrderOk(order) && n in s.trains && s.trains[n].name == n && DrivingTrain(s.trains[n].status.phase)
    requires 0 <= s.trains[n].spec.worldSize && 3 * s.trains[n].spec.worldSize + 9 <= calls
    requires forall k :: k in T.AttemptPods(s.workers, n, s.trains[n].status.attempt)
                         ==> k.rank < s.trains[n].spec.worldSize
    requires Undisturbed(s, s.trains[n])
    ensures var b, t := s.trains[n], T.RunTrainPass(s, s.trains, n, calls, order).0;
            && t == s.(trains := t.trains, services := t.services, groups := t.groups, workers := t.workers)
            && t.trains.Keys == s.trains.Keys && (forall m :: m in s.trains && m != n ==> t.trains[m] == s.trains[m])
            && ServiceReady(s, t, b) && GroupReady(s, t, b)
            && var st := t.trains[n].status;
               && t.trains[n] == b.(status := st)
               && if !SomeFailed(s.workers, b) then
                    && Ensured(s.workers, t.workers, b, 0)
                    && Counted(t.workers, b, st) && PhaseSaysGang(t.workers, b, st.phase)
                  else
                    && t.workers == s.workers - T.AttemptPods(s.workers, n, b.status.attempt)
                    && FailedStatus(s.workers, b, st)
  {
    hide Counted, FailedStatus, T.RunTrain, T.AtRank, T.Start, PhaseSaysGang, Ensured, Undisturbed, ServiceReady,
      GroupReady, Reaches, SomeFailed;
    var b := s.trains[n];
    var v, used := GangRun(s, b, order);
    GoesOn(s, T.Start(b), v, T.TListPods(b), used, calls - 1, order);
    GangSize(s.workers, v.workers, b);
    if SomeFailed(s.workers, b) {
      FailedRun(v, b, calls - 1 - used, order);
      EnsuredGone(s.workers, v.workers, b);
      FailedBefore(s.workers, v.workers, b, T.RunTrain(v, T.TListPods(b), calls - 1 - used, order).0.trains[n].status);
    } else {
      CountedRun(v, b, calls - 1 - used, order);
    }
    var t := T.RunTrainPass(s, s.trains, n, calls, order).0;
    ServicesKept(s, v, t, b);
    GroupsKept(s, s, v, t, b);
  }
}
