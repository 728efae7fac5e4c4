/**
 What a complete, undisturbed pass of the TrainJob reconciler comes to in the phases that module
 PassEffects does not treat, in the terms of the stored objects.
 */
module TrainEffects {
  import opened ClusterTypes
  import opened PassEffects
  import T = TrainLifecycle

  predicate Present(s: Store, n: string) {
    n in s.trains && s.trains[n].name == n
  }

  // ---------------------------------------------------------------- before the queue, and in it

  /**
   A new job is submitted, a submitted one queued, and a queued one started exactly if the ledger lists
   it under its present RequeueCount. Nothing else changes.
   */
  lemma WaitingPass(s: Store, n: string, calls: nat, order: T.Order)
    requires T.OrderOk(order) && Present(s, n) && 3 <= calls
    requires var p := s.trains[n].status.phase; p == NoPhase || p == Submitted || p == Queued
    ensures var b := s.trains[n];
            var listed := exists e :: e in s.used && e.name == n && e.kind == Train
                                      && e.requeueCount == b.status.requeueCount;
            var phase := if b.status.phase == NoPhase then Submitted
                         else if b.status.phase == Submitted || !listed then Queued
                         else Starting;
            T.RunTrainPass(s, s.trains, n, calls, order)
            == (s.(trains := s.trains[n := b.(status := b.status.(phase := phase))]), T.TDone)
  {
    var b := s.trains[n];
    assert s.trains[n := b.(status := b.status.(phase := b.status.phase))] == s.trains;
    if b.status.phase == Queued {
      OneCall(s, T.TGetQueue(b), order);
      GrantedMeans(s.used, b);
      if T.Granted(s.used, b) {
        StatusWritten(s, n, T.Start(b), b.status.(phase := Starting), 1, calls - 1, order);
      } else {
        GoesOn(s, T.Start(b), s, T.TDone, 1, calls - 1, order);
      }
    } else {
      NoCall(s, T.Start(b), order);
      StatusWritten(s, n, T.Start(b), b.status.(phase := if b.status.phase == NoPhase then Submitted else Queued), 0,
                    calls - 1, order);
    }
    hide T.RunTrain, T.Granted, Reaches;
  }

  lemma GrantedMeans(used: seq<Entry>, b: TrainJob)
    ensures T.Granted(used, b)
            <==> exists e :: e in used && e.name == b.name && e.kind == Train && e.requeueCount == b.status.requeueCount
  {
    if e :| e in used && e.name == b.name && e.kind == Train && e.requeueCount == b.status.requeueCount {
      var i :| 0 <= i < |used| && used[i] == e;
      assert T.Matching(used[i], b);
    }
    if i :| 0 <= i < |used| && T.Matching(used[i], b) {
      assert used[i] in used;
    }
  }

  /** A stretch that ends at the status write, with a call to spare. */
  lemma StatusWritten(s: Store, n: string, pc: T.TrainPc, st: TrainStatus, used: nat, calls: nat, order: T.Order)
    requires T.OrderOk(order) && Present(s, n) && used + 1 <= calls
    requires Reaches(s, pc, s, T.TWrite(s.trains[n], st), used, order)
    ensures T.RunTrain(s, pc, calls, order)
            == (s.(trains := s.trains[n := s.trains[n].(status := st)]), T.TDone)
  {
    hide T.RunTrain, Reaches;
    var b := s.trains[n];
    var t := s.(trains := WithStatus(s, b, st));
    WriteRun(s, b, st, order);
    Chain(s, pc, s, T.TWrite(b, st), t, T.TDone, used, 1, order);
    GoesOn(s, pc, t, T.TDone, used + 1, calls, order);
  }

  /** Over a job that has succeeded or failed a pass does nothing. */
  lemma FinishedPass(s: Store, n: string, calls: nat, order: T.Order)
    requires T.OrderOk(order) && Present(s, n)
    requires s.trains[n].status.phase == Succeeded || s.trains[n].status.phase == Failed
    ensures T.RunTrainPass(s, s.trains, n, calls, order) == (s, T.TDone)
  {
  }

  // ---------------------------------------------------------------- a gang the scheduler has given up on

  /**
   Over a starting job whose group has failed a pass deletes the attempt's pods and reports the failure,
   the attempt and the retry budget notwithstanding.
   */
  lemma FailedGroupPass(s: Store, n: string, calls: nat, order: T.Order)
    requires T.OrderOk(order) && Present(s, n) && s.trains[n].status.phase == Starting
    requires var g := GroupKey(n, s.trains[n].status.attempt); g in s.groups && s.groups[g].failed
    requires |T.AttemptPods(s.workers, n, s.trains[n].status.attempt)| + 6 <= calls
    ensures var b, t := s.trains[n], T.RunTrainPass(s, s.trains, n, calls, order).0;
            var failure := FailureSummary(0, 0, s.groups[GroupKey(n, b.status.attempt)].preemptedBy);
            && t == s.(workers := t.workers, services := t.services,
                       trains := s.trains[n := b.(status := b.status.(phase := Failed, lastFailure := Some(failure)))])
            && t.workers == s.workers - T.AttemptPods(s.workers, n, b.status.attempt)
            && ServiceReady(s, t, b)
  {
    hide T.RunTrain, Reaches, ServiceReady, T.Start;
    var b := s.trains[n];
    var st := b.status.(phase := Failed, lastFailure := Some(T.GroupFailure(s.groups[T.GroupOf(b)])));
    var t, used := ServiceRun(s, b, order);
    OneCall(t, T.TGetGroup(b), order);
    Chain(s, T.Start(b), t, T.TGetGroup(b), t, T.TListDrop(b, st), used, 1, order);
    ListDropRun(t, b, st, order);
    var pods := T.AttemptPods(t.workers, b.name, b.status.attempt);
    var u := t.(workers := t.workers - pods, trains := WithStatus(t, b, st));
    Chain(s, T.Start(b), t, T.TListDrop(b, st), u, T.TDone, used + 1, |pods| + 2, order);
    GoesOn(s, T.Start(b), u, T.TDone, used + |pods| + 3, calls - 1, order);
    ServicesKept(s, t, u, b);
  }

  // ---------------------------------------------------------------- a preempted job

  /** The job is free to be queued again. */
  predicate Released(s: Store, g: GroupKey) {
    || g !in s.groups
    || (s.groups[g].preemptedBy.Some?
        && var who := s.groups[g].preemptedBy.value;
           if who.kind == Inference then who.name !in s.infs || s.infs[who.name].phase == InfFailed
           else who.name !in s.trains || s.trains[who.name].status.phase == Running
                || s.trains[who.name].status.phase == Failed)
  }

  /**
   A preempted job that is free is queued again under the next RequeueCount, with the rest of its status
   as it was, and its group is deleted; otherwise nothing changes.
   */
  lemma PreemptedPass(s: Store, n: string, calls: nat, order: T.Order)
    requires T.OrderOk(order) && Present(s, n) && s.trains[n].status.phase == Preempted && 6 <= calls
    ensures var b := s.trains[n];
            var g := GroupKey(n, b.status.attempt);
            var st := b.status.(phase := Queued, requeueCount := b.status.requeueCount + 1);
            T.RunTrainPass(s, s.trains, n, calls, order).0
            == if Released(s, g) then s.(trains := s.trains[n := b.(status := st)], groups := s.groups - {g}) else s
  {
    hide T.RunTrain, Reaches;
    var b := s.trains[n];
    var g := T.GroupOf(b);
    OneCall(s, T.TGetVictimGroup(b), order);
    if g !in s.groups {
      ReleaseRun(s, n, T.TGetVictimGroup(b), 1, calls - 1, order);
    } else if s.groups[g].preemptedBy.None? {
      GoesOn(s, T.TGetVictimGroup(b), s, T.TPanic, 1, calls - 1, order);
    } else {
      var who := s.groups[g].preemptedBy.value;
      OneCall(s, T.TGetPreemptor(b, who), order);
      var next := if Released(s, g) then T.TGetOldGroup(b) else T.TDone;
      Chain(s, T.TGetVictimGroup(b), s, T.TGetPreemptor(b, who), s, next, 1, 1, order);
      if Released(s, g) {
        ReleaseRun(s, n, T.TGetVictimGroup(b), 2, calls - 1, order);
      } else {
        GoesOn(s, T.TGetVictimGroup(b), s, T.TDone, 2, calls - 1, order);
      }
    }
  }

  /** A stretch that ends where the old group is looked up, with three calls to spare. */
  lemma ReleaseRun(s: Store, n: string, pc: T.TrainPc, used: nat, calls: nat, order: T.Order)
    requires T.OrderOk(order) && Present(s, n) && used + 3 <= calls
    requires Reaches(s, pc, s, T.TGetOldGroup(s.trains[n]), used, order)
    ensures var b := s.trains[n];
            var st := b.status.(phase := Queued, requeueCount := b.status.requeueCount + 1);
            T.RunTrain(s, pc, calls, order).0
            == s.(trains := s.trains[n := b.(status := st)], groups := s.groups - {GroupKey(n, b.status.attempt)})
  {
    hide T.RunTrain, Reaches, T.OrderOk;
    var b := s.trains[n];
    var g := T.GroupOf(b);
    OneCall(s, T.TGetOldGroup(b), order);
    var t := s.(groups := s.groups - {g});
    if g in s.groups {
      Chain(s, pc, s, T.TGetOldGroup(b), s, T.TDeleteGroup(b), used, 1, order);
      OneCall(s, T.TDeleteGroup(b), order);
      Chain(s, pc, s, T.TDeleteGroup(b), t, T.TWrite(b, T.Requeued(b.status)), used + 1, 1, order);
      GoesOn(s, pc, t, T.TWrite(b, T.Requeued(b.status)), used + 2, calls, order);
      NoCall(t, T.TWrite(b, T.Requeued(b.status)), order);
      StatusWritten(t, n, T.TWrite(b, T.Requeued(b.status)), T.Requeued(b.status), 0, calls - used - 2, order);
    } else {
      assert t == s;
      Chain(s, pc, s, T.TGetOldGroup(b), s, T.TWrite(b, T.Requeued(b.status)), used, 1, order);
      StatusWritten(s, n, pc, T.Requeued(b.status), used + 1, calls, order);
    }
  }
}
