/**
 What a call does when somebody else was faster: no pass overwrites what has changed since it read it,
 a pass whose write is refused ends there, and a deletion that comes too late is none the worse.
 */
module Conflicts {
  import opened ClusterTypes
  import opened Cluster
  import opened Liveness
  import T = TrainLifecycle
  import I = InferenceLifecycle

  // ---------------------------------------------------------------- train passes

  /** Objects that are there before and after a call are the same, but for a write on the very version that was read. */
  lemma NoLostTrainUpdate(s: Store, pc: T.TrainPc, seen: T.Reads)
    requires T.ReadsOk(s, pc, seen)
    ensures var t := T.TrainCall(s, pc, seen).0;
            && (forall k :: k in s.workers && k in t.workers ==> t.workers[k] == s.workers[k])
            && (forall n :: n in s.trains ==> n in t.trains && (t.trains[n] != s.trains[n] ==>
                  pc.TWrite? && pc.b == s.trains[n] && t.trains[n] == pc.b.(status := pc.st)))
            && (forall n :: n in s.services ==> n in t.services && (t.services[n] != s.services[n] ==>
                  pc.TUpdateService? && pc.found == s.services[n]))
            && (forall g :: g in s.groups && g in t.groups && t.groups[g] != s.groups[g] ==>
                  pc.TClearDetail? && pc.g == s.groups[g] && t.groups[g] == s.groups[g].(detail := 0))
  {
    hide T.TrainCall, T.ReadsOk;
    JobsAndPods(s, pc, seen);
    ServicesAndGroups(s, pc, seen);
  }

  lemma JobsAndPods(s: Store, pc: T.TrainPc, seen: T.Reads)
    requires T.ReadsOk(s, pc, seen)
    ensures var t := T.TrainCall(s, pc, seen).0;
            && (forall k :: k in s.workers && k in t.workers ==> t.workers[k] == s.workers[k])
            && (forall n :: n in s.trains ==> n in t.trains && (t.trains[n] != s.trains[n] ==>
                  pc.TWrite? && pc.b == s.trains[n] && t.trains[n] == pc.b.(status := pc.st)))
  {
    hide T.Aggregate, T.Listing, T.Granted, T.AttemptPods, T.PreemptorGone, T.OnGroup, T.OnSummary, T.AtRank,
      T.Dropping, T.ServiceFor, T.NewGroup, T.NewWorker, T.Requeued;
  }

  lemma ServicesAndGroups(s: Store, pc: T.TrainPc, seen: T.Reads)
    requires T.ReadsOk(s, pc, seen)
    ensures var t := T.TrainCall(s, pc, seen).0;
            && (forall n :: n in s.services ==> n in t.services && (t.services[n] != s.services[n] ==>
                  pc.TUpdateService? && pc.found == s.services[n]))
            && (forall g :: g in s.groups && g in t.groups && t.groups[g] != s.groups[g] ==>
                  pc.TClearDetail? && pc.g == s.groups[g] && t.groups[g] == s.groups[g].(detail := 0))
  {
    hide T.TrainCall, T.ReadsOk, T.NewGroup;
    ServicesOnly(s, pc, seen);
    CallChangesGroups(s, pc, seen);
    if pc.TCreateGroup? {
      MadeIsNew(s, pc, seen);
    }
  }

  lemma ServicesOnly(s: Store, pc: T.TrainPc, seen: T.Reads)
    requires T.ReadsOk(s, pc, seen)
    ensures var t := T.TrainCall(s, pc, seen).0;
            forall n :: n in s.services ==> n in t.services && (t.services[n] != s.services[n] ==>
              pc.TUpdateService? && pc.found == s.services[n])
  {
    hide T.Aggregate, T.Listing, T.Granted, T.AttemptPods, T.PreemptorGone, T.OnGroup, T.OnSummary, T.AtRank,
      T.Dropping, T.ServiceFor, T.NewGroup, T.NewWorker, T.Requeued;
  }

  lemma MadeIsNew(s: Store, pc: T.TrainPc, seen: T.Reads)
    requires T.ReadsOk(s, pc, seen) && pc.TCreateGroup?
    ensures T.GroupOf(pc.b) in s.groups ==> T.TrainCall(s, pc, seen).0.groups == s.groups
  {
  }

  /** Somebody has made, changed or removed what the next call is about to make or change. */
  predicate Refused(s: Store, pc: T.TrainPc) {
    match pc
    case TCreateService(b) => b.name in s.services
    case TUpdateService(b, found) => b.name !in s.services || s.services[b.name] != found
    case TCreateGroup(b) => GroupKey(b.name, b.status.attempt) in s.groups
    case TClearDetail(b, g) =>
      var key := GroupKey(b.name, b.status.attempt); key !in s.groups || s.groups[key] != g
    case TCreatePod(b, rank) => PodKey(b.name, b.status.attempt, rank) in s.workers
    case TWrite(b, _) => b.name !in s.trains || s.trains[b.name] != b
    case _ => false
  }

  /** A pass whose write is refused leaves everything as it is, and makes no further call. */
  lemma RefusedWriteEndsPass(s: Store, pc: T.TrainPc, calls: nat, order: T.Order)
    requires T.OrderOk(order) && Refused(s, pc)
    ensures T.RunTrain(s, pc, calls, order).0 == s
    ensures 1 <= calls ==> T.RunTrain(s, pc, calls, order).1 == T.TDone
  {
    if calls > 0 {
      var (t, next) := T.TrainCall(s, pc, T.ReadsIn(s, pc, order));
      assert t == s && next == T.TDone;
      assert T.RunTrain(t, next, calls - 1, order) == (t, next);
    }
  }

  /**
   A pass that finds a pod, or its old group, gone when it comes to delete it goes on as if it had
   deleted it itself, down to the status write.
   */
  lemma LateDeletionGoesOn(s: Store, pc: T.TrainPc, seen: T.Reads)
    requires T.ReadsOk(s, pc, seen)
    requires (pc.TDropPod? && pc.doomed !in s.workers)
             || (pc.TDeleteGroup? && GroupKey(pc.b.name, pc.b.status.attempt) !in s.groups)
    ensures var (t, next) := T.TrainCall(s, pc, seen);
            && t == s
            && (pc.TDropPod? && pc.rest != [] ==> next == T.TDropPod(pc.b, pc.rest[0], pc.rest[1..], pc.st))
            && (pc.TDropPod? && pc.rest == [] ==> next == T.TWrite(pc.b, pc.st))
            && (pc.TDeleteGroup? ==> next.TWrite? && next.b == pc.b && next.st.phase == Queued)
  {
    if pc.TDropPod? {
      assert s.workers - {pc.doomed} == s.workers;
    } else {
      assert s.groups - {T.GroupOf(pc.b)} == s.groups;
    }
  }

  // ---------------------------------------------------------------- inference passes

  /** The same for an inference pass: pods are created or marked, jobs written on the version that was read. */
  lemma NoLostInferenceUpdate(s: Store, pc: I.InfPc, ledger: seq<Entry>)
    requires pc.IDone? || I.HeadsForMove(pc)
    ensures var t := I.InfCall(s, pc, ledger).0;
            && (forall n :: n in s.servers ==> n in t.servers && (t.servers[n] != s.servers[n] ==>
                  pc.IDeletePod? && t.servers[n] == s.servers[n].(deleting := true)))
            && (forall n :: n in s.infs && !(n in t.infs && t.infs[n] == s.infs[n]) ==>
                  !pc.IDone? && pc.b.name == n && pc.b == s.infs[n])
  {
    hide I.Observed, I.Without, I.Admitted, I.WriteIfMoved;
  }

  predicate RefusedServing(s: Store, pc: I.InfPc) {
    match pc
    case ICreatePod(b, _) => b.name in s.servers
    case IWrite(b, _) => b.name !in s.infs || s.infs[b.name] != b
    case IFinalize(b) => b.name !in s.infs || s.infs[b.name] != b
    case IUnfinalize(b) => b.name !in s.infs || s.infs[b.name] != b
    case _ => false
  }

  lemma RefusedServingEndsPass(s: Store, pc: I.InfPc, calls: nat)
    requires RefusedServing(s, pc)
    ensures I.RunInference(s, pc, calls).0 == s
    ensures 1 <= calls ==> I.RunInference(s, pc, calls).1 == I.IDone
  {
    if calls > 0 {
      var (t, next) := I.InfCall(s, pc, s.used);
      assert t == s && next == I.IDone;
      assert I.RunInference(t, next, calls - 1) == (t, next);
    }
  }

  /** A pass that finds the pod made by somebody else, at the second look, goes on with its verdict. */
  lemma FoundPodIsLeftAlone(s: Store, b: InferenceJob, j: InferenceJob, calls: nat)
    requires b.name in s.infs && s.infs[b.name] == b && j.name == b.name && b.name in s.servers && 2 <= calls
    ensures I.RunInference(s, I.IEnsurePod(b, j), calls)
            == (if j.phase != b.phase then s.(infs := s.infs[b.name := j]) else s, I.IDone)
  {
    var next := I.WriteIfMoved(b, j);
    assert I.RunInference(s, I.IEnsurePod(b, j), calls) == I.RunInference(s, next, calls - 1);
    if next.IWrite? {
      var t := s.(infs := s.infs[b.name := j]);
      assert I.RunInference(s, next, calls - 1) == I.RunInference(t, I.IDone, calls - 2);
    }
  }

  // ---------------------------------------------------------------- queue passes

  /** A queue pass replaces the ledger only if quota and ledger are still those it has read. */
  lemma NoLostQueueUpdate(s: System, after: seq<Entry>)
    requires Enabled(s, QueueStep(after)) && Apply(s, QueueStep(after)).store.used != s.store.used
    ensures s.queuePass.QWrite? && s.queuePass.quota == s.store.quota && s.queuePass.used == s.store.used
    ensures Apply(s, QueueStep(after)).store.used == s.queuePass.after
  {
    hide Enabled, Apply;
    QueueStepMeans(s, after);
  }
}
