/** The watches: which jobs a change enqueues, and why no job that can move is left asleep. */
module Wakeups {
  import opened ClusterTypes
  import T = TrainLifecycle
  import I = InferenceLifecycle

  // ---------------------------------------------------------------- the map functions

  /** A change of the queue enqueues its queued train jobs. */
  function QueuedTrains(trains: map<string, TrainJob>): set<string> {
    set n | n in trains && trains[n].status.phase == Queued
  }

  function QueuedInferences(infs: map<string, InferenceJob>): set<string> {
    set n | n in infs && infs[n].phase == InfQueued
  }

  /** A change of a job enqueues the owners of the groups marked as preempted by it (two field indexes). */
  function Victims(groups: map<GroupKey, PodGroup>, preemptor: JobRef): set<string> {
    set g | g in groups && groups[g].preemptedBy == Some(preemptor) :: groups[g].owner
  }

  /** The queue watch of the TrainJob reconciler: one request per queued job of the listing. */
  method RequestsForQueue(jobs: seq<TrainJob>) returns (reqs: seq<string>)
    ensures forall n :: n in reqs <==> exists i :: 0 <= i < |jobs| && jobs[i].name == n
                                                        && jobs[i].status.phase == Queued
  {
    reqs := [];
    for i := 0 to |jobs|
      invariant forall n :: n in reqs <==> exists k :: 0 <= k < i && jobs[k].name == n && jobs[k].status.phase == Queued
    {
      if jobs[i].status.phase != Queued {
        continue;
      }
      reqs := reqs + [jobs[i].name];
    }
  }

  /** The job watches of the TrainJob reconciler: one request per owner of an indexed group. */
  method RequestsForVictims(groups: map<GroupKey, PodGroup>, preemptor: JobRef) returns (reqs: seq<string>)
    ensures forall n :: n in reqs
                        <==> exists g :: g in groups && groups[g].preemptedBy == Some(preemptor) && groups[g].owner == n
    ensures forall n :: n in reqs <==> n in Victims(groups, preemptor)
  {
    reqs := [];
    var todo := groups.Keys;
    while todo != {}
      invariant todo <= groups.Keys
      invariant forall n :: n in reqs
                            <==> exists g :: g in groups && g !in todo && groups[g].preemptedBy == Some(preemptor)
                                             && groups[g].owner == n
    {
      var g :| g in todo;
      todo := todo - {g};
      if groups[g].preemptedBy == Some(preemptor) {
        reqs := reqs + [groups[g].owner];
      }
    }
  }

  // ---------------------------------------------------------------- what a change enqueues

  ghost predicate Differ<K, V>(a: map<K, V>, b: map<K, V>, k: K) {
    (k in a) != (k in b) || (k in a && k in b && a[k] != b[k])
  }

  /**
   Some event of the change from `s` to `t` enqueues the train job `n`: its own, one of a group it
   owns, one of the queue, or one of a job that preempted it. The map functions see the state `t`.
   */
  ghost predicate TrainWoken(s: Store, t: Store, n: string) {
    || Differ(s.trains, t.trains, n)
    || (exists g :: Differ(s.groups, t.groups, g)
                    && ((g in s.groups && s.groups[g].owner == n) || (g in t.groups && t.groups[g].owner == n)))
    || ((s.used != t.used || s.quota != t.quota) && n in QueuedTrains(t.trains))
    || (exists m :: Differ(s.trains, t.trains, m) && n in Victims(t.groups, JobRef(m, Train)))
    || (exists m :: Differ(s.infs, t.infs, m) && n in Victims(t.groups, JobRef(m, Inference)))
  }

  ghost predicate InferenceWoken(s: Store, t: Store, n: string) {
    || Differ(s.infs, t.infs, n)
    || ((s.used != t.used || s.quota != t.quota) && n in QueuedInferences(t.infs))
  }

  // ---------------------------------------------------------------- what a waiting job waits for

  /** The next pass of a queued or preempted job changes its status. */
  predicate TrainCanMove(s: Store, n: string)
    requires n in s.trains
  {
    var j := s.trains[n];
    match j.status.phase
    case Queued => T.Granted(s.used, j)
    case Preempted =>
      T.GroupOf(j) !in s.groups
      || (s.groups[T.GroupOf(j)].preemptedBy.Some? && T.PreemptorGone(s, s.groups[T.GroupOf(j)].preemptedBy.value))
    case _ => false
  }

  lemma RunNext(s: Store, pc: T.TrainPc, calls: nat, order: T.Order)
    requires T.OrderOk(order) && calls > 0 && !T.Over(pc)
    ensures var (t, next) := T.TrainCall(s, pc, T.ReadsIn(s, pc, order));
            T.RunTrain(s, pc, calls, order) == T.RunTrain(t, next, calls - 1, order)
            && (T.Over(next) ==> T.RunTrain(s, pc, calls, order) == (t, next))
  {
  }

  lemma QueuedMoves(s: Store, j: TrainJob, calls: nat, order: T.Order)
    requires T.OrderOk(order) && 2 <= calls && j.name in s.trains && s.trains[j.name] == j && j.status.phase == Queued
    ensures T.RunTrain(s, T.Start(j), calls, order).0.trains
            == if T.Granted(s.used, j) then s.trains[j.name := j.(status := j.status.(phase := Starting))] else s.trains
  {
    RunNext(s, T.Start(j), calls, order);
    RunNext(s, T.TWrite(j, j.status.(phase := Starting)), calls - 1, order);
    hide T.RunTrain, T.Granted;
  }

  /** From the end of the release check on, the group goes and the job is queued again. */
  lemma ReleaseMoves(s: Store, j: TrainJob, calls: nat, order: T.Order)
    requires T.OrderOk(order) && 3 <= calls && j.name in s.trains && s.trains[j.name] == j
    ensures T.RunTrain(s, T.TGetOldGroup(j), calls, order).0.trains
            == s.trains[j.name := j.(status := T.Requeued(j.status))]
  {
    hide T.RunTrain, T.Requeued, T.OrderOk, T.Aggregate, T.OnGroup, T.OnSummary, T.Granted, T.Listing, T.AtRank,
      T.PreemptorGone, T.Dropping, T.ServiceFor, T.NewWorker, T.NewGroup;
    RunNext(s, T.TGetOldGroup(j), calls, order);
    if T.GroupOf(j) in s.groups {
      RunNext(s, T.TDeleteGroup(j), calls - 1, order);
      WriteMoves(s.(groups := s.groups - {T.GroupOf(j)}), j, T.Requeued(j.status), calls - 2, order);
    } else {
      WriteMoves(s, j, T.Requeued(j.status), calls - 1, order);
    }
  }

  lemma WriteMoves(s: Store, j: TrainJob, st: TrainStatus, calls: nat, order: T.Order)
    requires T.OrderOk(order) && 1 <= calls && j.name in s.trains && s.trains[j.name] == j
    ensures T.RunTrain(s, T.TWrite(j, st), calls, order).0.trains == s.trains[j.name := j.(status := st)]
  {
    RunNext(s, T.TWrite(j, st), calls, order);
    hide T.RunTrain;
  }

  lemma PreemptedMoves(s: Store, j: TrainJob, calls: nat, order: T.Order)
    requires T.OrderOk(order) && 5 <= calls && j.name in s.trains && s.trains[j.name] == j
             && j.status.phase == Preempted
    ensures T.RunTrain(s, T.Start(j), calls, order).0.trains
            == if TrainCanMove(s, j.name) then s.trains[j.name := j.(status := T.Requeued(j.status))] else s.trains
  {
    hide T.RunTrain, T.PreemptorGone;
    RunNext(s, T.Start(j), calls, order);
    if T.GroupOf(j) !in s.groups {
      ReleaseMoves(s, j, calls - 1, order);
    } else if s.groups[T.GroupOf(j)].preemptedBy.Some? {
      var who := s.groups[T.GroupOf(j)].preemptedBy.value;
      RunNext(s, T.TGetPreemptor(j, who), calls - 1, order);
      if T.PreemptorGone(s, who) {
        ReleaseMoves(s, j, calls - 2, order);
      }
    }
  }

  /** The predicate says what the reconciler does: an undisturbed pass changes the phase exactly if the job can move. */
  lemma CanMoveMeansMoves(s: Store, n: string, calls: nat, order: T.Order)
    requires T.OrderOk(order) && 6 <= calls
    requires n in s.trains && s.trains[n].name == n
    requires s.trains[n].status.phase == Queued || s.trains[n].status.phase == Preempted
    ensures var t := T.RunTrainPass(s, s.trains, n, calls, order).0;
            n in t.trains && (t.trains[n] != s.trains[n] <==> TrainCanMove(s, n))
            && (TrainCanMove(s, n) ==>
                  t.trains[n].status.phase == if s.trains[n].status.phase == Queued then Starting else Queued)
  {
    var j := s.trains[n];
    if j.status.phase == Queued {
      QueuedMoves(s, j, calls - 1, order);
    } else {
      PreemptedMoves(s, j, calls - 1, order);
    }
    hide T.RunTrain, T.Granted, T.PreemptorGone, T.Start;
  }

  /**
   When a victim is released: an undisturbed pass over a preempted job queues it again exactly if its
   group is gone, or is marked by a job that is gone, or is an inference job that failed, or a train
   job that runs or failed; a train job that has succeeded releases nobody.
   */
  lemma VictimReleasedExactly(s: Store, n: string, calls: nat, order: T.Order)
    requires T.OrderOk(order) && 6 <= calls && n in s.trains && s.trains[n].name == n
    requires s.trains[n].status.phase == Preempted
    ensures var t := T.RunTrainPass(s, s.trains, n, calls, order).0;
            var g := T.GroupOf(s.trains[n]);
            n in t.trains
            && (t.trains[n].status.phase == Queued
                <==> g !in s.groups
                     || (s.groups[g].preemptedBy.Some?
                         && var who := s.groups[g].preemptedBy.value;
                            if who.kind == Inference then who.name !in s.infs || s.infs[who.name].phase == InfFailed
                            else who.name !in s.trains || s.trains[who.name].status.phase == Running
                                 || s.trains[who.name].status.phase == Failed))
  {
    CanMoveMeansMoves(s, n, calls, order);
    hide T.RunTrain, T.Start;
  }

  // ---------------------------------------------------------------- no lost wake-ups

  /**
   No lost wake-up: whenever a change of any kind turns the next pass of a queued or preempted train
   job from a no-op into a transition, some event of that change enqueues the job.
   */
  lemma NoLostTrainWakeup(s: Store, t: Store, n: string)
    requires n in s.trains && n in t.trains && s.trains[n].name == n && t.trains[n].name == n
    requires forall g :: g in t.groups ==> t.groups[g].owner == g.job
    requires forall g :: g in s.groups ==> s.groups[g].owner == g.job
    requires !TrainCanMove(s, n) && TrainCanMove(t, n)
    ensures TrainWoken(s, t, n)
  {
    if !Differ(s.trains, t.trains, n) {
      var j := t.trains[n];
      assert s.trains[n] == j;
      if j.status.phase == Preempted {
        var g := T.GroupOf(j);
        assert g.job == n;
        if !Differ(s.groups, t.groups, g) {
          var who := t.groups[g].preemptedBy.value;
          assert t.groups[g].owner in Victims(t.groups, who);
          assert who == JobRef(who.name, who.kind);
          if who.kind == Train {
            assert Differ(s.trains, t.trains, who.name);
          } else {
            assert Differ(s.infs, t.infs, who.name);
          }
        }
      }
    }
  }

  lemma NoLostInferenceWakeup(s: Store, t: Store, n: string)
    requires n in s.infs && n in t.infs && t.infs[n].phase == InfQueued
    requires !(s.infs[n].phase == InfQueued && I.Admitted(s.used, s.infs[n])) && I.Admitted(t.used, t.infs[n])
    ensures InferenceWoken(s, t, n)
  {
  }
}
