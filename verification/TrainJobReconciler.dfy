/** The TrainJob reconciler as it runs, proved to be the pass of module TrainLifecycle. */
module TrainJobReconciler {
  import opened ClusterTypes
  import opened Names
  import opened Api
  import T = TrainLifecycle

  /** The working copy of a job: the version that was read, and the status the pass changes. */
  class TrainJobObject {
    const read: TrainJob
    var status: TrainStatus

    constructor (j: TrainJob)
      ensures read == j && status == j.status
    {
      read := j;
      status := j.status;
    }
  }

  class Reconciler {
    const client: ApiServer

    constructor (client: ApiServer)
      ensures this.client == client
    {
      this.client := client;
    }

    /** What the rest of the pass comes to from `pc`, given the store and the calls left now. */
    ghost function Rest(pc: T.TrainPc): (Store, T.TrainPc)
      requires T.OrderOk(client.order)
      reads client
    {
      T.RunTrain(client.store, pc, client.calls, client.order)
    }

    /** The rest of a pass is its next call, and then the rest. */
    lemma Next(pc: T.TrainPc)
      requires T.OrderOk(client.order)
      ensures client.calls == 0 || T.Over(pc) ==> Rest(pc) == (client.store, pc)
      ensures client.calls > 0 && !T.Over(pc) ==>
        var (s, next) := T.TrainCall(client.store, pc, T.ReadsIn(client.store, pc, client.order));
        Rest(pc) == T.RunTrain(s, next, client.calls - 1, client.order)
        && (T.Over(next) ==> Rest(pc) == (s, next))
    {
    }

    /** The pass that went on from `pc` in the earlier state is over, and has left this store. */
    twostate predicate EndsFrom(pc: T.TrainPc)
      requires T.OrderOk(client.order)
      reads client
    {
      client.store == old(Rest(pc)).0 && !old(Rest(pc)).1.TPanic?
    }

    method Reconcile(name: string) returns (panicked: bool)
      requires T.OrderOk(client.order)
      modifies client
      ensures var run := T.RunTrainPass(old(client.store), client.seenTrains, name, old(client.calls), client.order);
              client.store == run.0 && panicked == run.1.TPanic?
    {
      hide T.RunTrain, T.TrainCall, T.Aggregate, T.Granted, T.NextPhase, T.Dropping, T.ServiceFor, T.OnGroup, T.AtRank;
      panicked := false;
      var got := client.GetOwnTrain(name);
      if !got.Ok? {
        return;
      }
      var trainJob := new TrainJobObject(got.value);
      var needUpdate := false;
      ghost var b := got.value;
      label begun:
      match trainJob.status.phase {
        case NoPhase =>
          trainJob.status := trainJob.status.(phase := Submitted);
          needUpdate := true;
        case Submitted =>
          trainJob.status := trainJob.status.(phase := Queued);
          needUpdate := true;
        case Queued =>
          var err;
          err, needUpdate := CheckQueue(trainJob);
          if err {
            return;
          }
        case Failed =>
          Next(T.TDone);
          return;
        case Succeeded =>
          Next(T.TDone);
          return;
        case Preempted =>
          var err, requeue, nilPointer := ShouldVictimRequeue(trainJob);
          if nilPointer {
            panicked := true;
            return;
          }
          if err {
            return;
          }
          if requeue {
            var gone := DeletePodGroup(trainJob);
            if gone.Error? {
              return;
            }
            trainJob.status := trainJob.status.(phase := Queued);
            trainJob.status := trainJob.status.(requeueCount := trainJob.status.requeueCount + 1);
            needUpdate := true;
          }
        case _ =>
          DriveGang(trainJob);
          return;
      }
      if needUpdate {
        UpdateStatus(trainJob);
      }
    }

    /** A started job: its service, its group and its pods are brought up, and the phase follows the pods. */
    method DriveGang(trainJob: TrainJobObject)
      requires T.OrderOk(client.order) && trainJob.status == trainJob.read.status
      requires DrivingTrain(trainJob.read.status.phase)
      modifies client, trainJob
      ensures EndsFrom(T.TGetService(trainJob.read))
    {
      hide T.RunTrain, T.TrainCall, T.Aggregate, T.Granted, T.NextPhase, T.Dropping, T.ServiceFor, T.OnGroup, T.AtRank;
      var err := EnsureMasterService(trainJob);
      if err {
        return;
      }
      var failed;
      err, failed := EnsureWorkerPodGroup(trainJob);
      if err {
        return;
      }
      if failed {
        UpdateStatus(trainJob);
        return;
      }
      err := EnsureWorkerPods(trainJob);
      if err {
        return;
      }
      var summary;
      err, summary := AggregateWorkerStatus(trainJob);
      if err {
        return;
      }
      if summary.failedPod.Some? {
        err := HandleFailedAttempt(trainJob, summary);
        if err {
          return;
        }
        UpdateStatus(trainJob);
        return;
      }
      var needUpdate := ApplyWorkerStatus(trainJob, summary);
      Next(T.TDone);
      if needUpdate {
        UpdateStatus(trainJob);
      }
    }

    /** `Status().Update`, the last call of a pass. */
    method UpdateStatus(trainJob: TrainJobObject)
      requires T.OrderOk(client.order)
      modifies client
      ensures EndsFrom(T.TWrite(trainJob.read, trainJob.status))
    {
      Next(T.TWrite(trainJob.read, trainJob.status));
      var _ := client.UpdateTrainStatus(trainJob.read, trainJob.status);
    }

    /** The gate: a queued job starts once the ledger holds a charge for its epoch. */
    method CheckQueue(trainJob: TrainJobObject) returns (err: bool, needUpdate: bool)
      requires T.OrderOk(client.order) && trainJob.status == trainJob.read.status
      modifies client`calls, trainJob
      ensures client.store == old(client.store)
      ensures !err && needUpdate ==> trainJob.status == old(trainJob.status).(phase := Starting)
      ensures !err && needUpdate ==>
        Rest(T.TWrite(trainJob.read, trainJob.status)) == old(Rest(T.TGetQueue(trainJob.read)))
      ensures err || !needUpdate ==> EndsFrom(T.TGetQueue(trainJob.read))
      ensures !err ==> needUpdate == T.Granted(client.store.used, trainJob.read)
    {
      needUpdate := false;
      Next(T.TGetQueue(trainJob.read));
      var queue := client.GetQueue();
      if !queue.Ok? {
        return true, false;
      }
      var used := queue.value.used;
      for i := 0 to |used|
        invariant !needUpdate && trainJob.status == old(trainJob.status)
        invariant forall k :: 0 <= k < i ==> !T.Matching(used[k], trainJob.read)
      {
        if used[i].name == trainJob.read.name && used[i].kind == Train
           && used[i].requeueCount == trainJob.status.requeueCount {
          assert T.Matching(used[i], trainJob.read);
          trainJob.status := trainJob.status.(phase := Starting);
          needUpdate := true;
          break;
        }
      }
      err := false;
    }

    method ShouldVictimRequeue(victim: TrainJobObject) returns (err: bool, requeue: bool, nilPointer: bool)
      requires T.OrderOk(client.order)
      modifies client`calls
      ensures client.store == old(client.store)
      ensures nilPointer ==> old(Rest(T.TGetVictimGroup(victim.read))) == (client.store, T.TPanic)
      ensures !nilPointer && !err && requeue
              ==> Rest(T.TGetOldGroup(victim.read)) == old(Rest(T.TGetVictimGroup(victim.read)))
      ensures !nilPointer && (err || !requeue) ==> EndsFrom(T.TGetVictimGroup(victim.read))
    {
      err, requeue, nilPointer := false, false, false;
      Next(T.TGetVictimGroup(victim.read));
      var group := client.GetGroup(T.GroupOf(victim.read));
      if !group.Ok? {
        return group.Error?, group.NotFound?, false;
      }
      if group.value.preemptedBy.None? {
        return false, false, true;
      }
      var preemptedBy := group.value.preemptedBy.value;
      if preemptedBy.kind == Inference {
        Next(T.TGetPreemptor(victim.read, preemptedBy));
        var job := client.GetInference(preemptedBy.name);
        if !job.Ok? {
          return job.Error?, job.NotFound?, false;
        }
        if job.value.phase == InfFailed {
          return false, true, false;
        }
      } else if preemptedBy.kind == Train {
        Next(T.TGetPreemptor(victim.read, preemptedBy));
        var job := client.GetTrain(preemptedBy.name);
        if !job.Ok? {
          return job.Error?, job.NotFound?, false;
        }
        if job.value.status.phase == Running || job.value.status.phase == Failed {
          return false, true, false;
        }
      }
    }

    method DeletePodGroup(trainJob: TrainJobObject) returns (r: Reply<()>)
      requires T.OrderOk(client.order)
      modifies client
      ensures !r.Error? ==>
        Rest(T.TWrite(trainJob.read, T.Requeued(trainJob.read.status))) == old(Rest(T.TGetOldGroup(trainJob.read)))
      ensures r.Error? ==> EndsFrom(T.TGetOldGroup(trainJob.read))
    {
      hide T.RunTrain, T.Listing, T.Requeued, T.Aggregate, T.Granted, T.AttemptPods, T.PreemptorGone, T.OnGroup,
        T.OnSummary, T.AtRank, T.Dropping, T.ServiceFor, T.NewGroup, T.NewWorker;
      Next(T.TGetOldGroup(trainJob.read));
      var group := client.GetGroup(T.GroupOf(trainJob.read));
      if !group.Ok? {
        return if group.Error? then Error else NotFound;
      }
      Next(T.TDeleteGroup(trainJob.read));
      r := client.DeleteGroup(T.GroupOf(trainJob.read));
      if r.NotFound? {
        r := Ok(());
      }
    }

    /** Repairs what differs, field by field. */
    method BringUpToDate(found: MasterService, selector: Labels, port: int) returns (svc: MasterService, update: bool)
      ensures svc == MasterService(selector, [ServicePort(port, port)])
      ensures update == (found != svc)
    {
      svc, update := found, false;
      if svc.selector != selector {
        svc := svc.(selector := selector);
        update := true;
      }
      if |svc.ports| != 1 {
        svc := svc.(ports := [ServicePort(port, port)]);
        update := true;
      } else {
        if svc.ports[0].port != port {
          svc := svc.(ports := [svc.ports[0].(port := port)]);
          update := true;
        }
        if svc.ports[0].target != port {
          svc := svc.(ports := [svc.ports[0].(target := port)]);
          update := true;
        }
      }
      assert svc.ports == [ServicePort(port, port)];
    }

    /** The master service is created, or brought up to date. */
    method EnsureMasterService(trainJob: TrainJobObject) returns (err: bool)
      requires T.OrderOk(client.order) && trainJob.status == trainJob.read.status
      modifies client
      ensures !err ==> Rest(T.TGetGroup(trainJob.read)) == old(Rest(T.TGetService(trainJob.read)))
      ensures err ==> EndsFrom(T.TGetService(trainJob.read))
    {
      hide T.RunTrain, T.Listing, T.ShouldRetry, T.AfterFailedPod, T.Requeued, T.Aggregate, T.Granted, T.AttemptPods,
        T.PreemptorGone, T.OnGroup, T.OnSummary, T.AtRank, T.Dropping, T.NewGroup, T.NewWorker;
      var name := trainJob.read.name;
      var desiredSelector := MasterServiceSelector(name, trainJob.status.attempt);
      var desiredPort := T.MasterPort(trainJob.read.spec);
      Next(T.TGetService(trainJob.read));
      var got := client.GetService(name);
      if got.Error? {
        return true;
      }
      if got.NotFound? {
        Next(T.TCreateService(trainJob.read));
        err := client.CreateService(name, MasterService(desiredSelector, [ServicePort(desiredPort, desiredPort)]));
        return;
      }
      var svc, update := BringUpToDate(got.value, desiredSelector, desiredPort);
      err := false;
      if update {
        Next(T.TUpdateService(trainJob.read, got.value));
        err := client.UpdateService(name, got.value, svc);
      }
    }

    method EnsureWorkerPodGroup(trainJob: TrainJobObject) returns (err: bool, failed: bool)
      requires T.OrderOk(client.order) && trainJob.status == trainJob.read.status
      modifies client, trainJob
      ensures !err && !failed ==> trainJob.status == old(trainJob.status)
      ensures !err && !failed ==> Rest(T.AtRank(trainJob.read, 0)) == old(Rest(T.TGetGroup(trainJob.read)))
      ensures !err && failed ==> Rest(T.TWrite(trainJob.read, trainJob.status)) == old(Rest(T.TGetGroup(trainJob.read)))
      ensures err ==> EndsFrom(T.TGetGroup(trainJob.read))
    {
      err, failed := false, false;
      var key := T.GroupOf(trainJob.read);
      Next(T.TGetGroup(trainJob.read));
      var got := client.GetGroup(key);
      if got.Error? {
        return true, false;
      }
      if got.NotFound? {
        err := CreatePodGroup(trainJob);
        return err, false;
      }
      var group := got.value;
      if trainJob.status.phase == Starting {
        if group.failed {
          var summary := T.GroupFailure(group);
          err := DeleteWorkerPodsForAttempt(
            trainJob, trainJob.status.attempt, trainJob.status.(phase := Failed, lastFailure := Some(summary)));
          if err {
            return true, true;
          }
          trainJob.status := trainJob.status.(phase := Failed);
          trainJob.status := trainJob.status.(lastFailure := Some(summary));
          return false, true;
        }
      }
      if trainJob.status.phase == Running {
        if group.preemptedBy.Some? {
          var summary := T.GroupFailure(group);
          err := DeleteWorkerPodsForAttempt(
            trainJob, trainJob.status.attempt, trainJob.status.(phase := Preempted, lastFailure := Some(summary)));
          if err {
            return true, true;
          }
          trainJob.status := trainJob.status.(phase := Preempted);
          trainJob.status := trainJob.status.(lastFailure := Some(summary));
          return false, true;
        }
        if group.detail > 0 {
          err := ClearDetail(trainJob, group);
          if err {
            return true, true;
          }
        }
      }
    }

    method CreatePodGroup(trainJob: TrainJobObject) returns (err: bool)
      requires T.OrderOk(client.order)
      modifies client
      ensures !err ==> Rest(T.AtRank(trainJob.read, 0)) == old(Rest(T.TCreateGroup(trainJob.read)))
      ensures err ==> EndsFrom(T.TCreateGroup(trainJob.read))
    {
      Next(T.TCreateGroup(trainJob.read));
      err := client.CreateGroup(T.GroupOf(trainJob.read), T.NewGroup(trainJob.read));
    }

    /** The job runs: what the group still reports of a plan against it is cleared. */
    method ClearDetail(trainJob: TrainJobObject, group: PodGroup) returns (err: bool)
      requires T.OrderOk(client.order)
      modifies client
      ensures !err ==> Rest(T.AtRank(trainJob.read, 0)) == old(Rest(T.TClearDetail(trainJob.read, group)))
      ensures err ==> EndsFrom(T.TClearDetail(trainJob.read, group))
    {
      Next(T.TClearDetail(trainJob.read, group));
      err := client.UpdateGroupStatus(T.GroupOf(trainJob.read), group, group.(detail := 0));
    }

    method EnsureWorkerPods(trainJob: TrainJobObject) returns (err: bool)
      requires T.OrderOk(client.order)
      modifies client
      ensures !err ==> Rest(T.TListPods(trainJob.read)) == old(Rest(T.AtRank(trainJob.read, 0)))
      ensures err ==> EndsFrom(T.AtRank(trainJob.read, 0))
    {
      var rank: nat := 0;
      while rank < trainJob.read.spec.worldSize
        invariant Rest(T.AtRank(trainJob.read, rank)) == old(Rest(T.AtRank(trainJob.read, 0)))
      {
        var key := PodKey(trainJob.read.name, trainJob.read.status.attempt, rank);
        Next(T.TGetPod(trainJob.read, rank));
        var pod := client.GetWorker(key);
        if pod.Error? {
          return true;
        }
        if pod.NotFound? {
          Next(T.TCreatePod(trainJob.read, rank));
          err := client.CreateWorker(key, T.NewWorker(trainJob.read));
          if err {
            return;
          }
        }
        rank := rank + 1;
      }
      err := false;
    }

    method AggregateWorkerStatus(trainJob: TrainJobObject) returns (err: bool, summary: T.WorkerSummary)
      requires T.OrderOk(client.order)
      modifies client`calls
      ensures client.store == old(client.store)
      ensures !err ==> Rest(T.OnSummary(trainJob.read, summary)) == old(Rest(T.TListPods(trainJob.read)))
      ensures err ==> EndsFrom(T.TListPods(trainJob.read))
    {
      hide T.Aggregate, T.OnSummary, T.Listing, T.NextPhase;
      Next(T.TListPods(trainJob.read));
      ListedAreThere(T.AttemptPods(client.store.workers, trainJob.read.name, trainJob.read.status.attempt));
      var list := client.ListWorkers(trainJob.read.name, trainJob.read.status.attempt);
      if !list.Ok? {
        return true, T.EMPTY_SUMMARY;
      }
      summary := CountWorkers(list.value);
      err := false;
    }

    lemma ListedAreThere(pods: set<PodKey>)
      requires T.OrderOk(client.order)
      ensures T.Listing(client.order(pods), pods) && forall k :: k in client.order(pods) <==> k in pods
    {
    }

    /** The counting loop of the aggregation. */
    method CountWorkers(list: PodList) returns (summary: T.WorkerSummary)
      requires forall k :: k in list.items ==> k in list.pods
      ensures summary == T.Aggregate(list.pods, list.items)
    {
      var running, ready, succeeded: nat, failedPod := 0, 0, 0, None;
      var i := 0;
      while i < |list.items|
        invariant 0 <= i <= |list.items|
        invariant T.Aggregate(list.pods, list.items[..i]) == T.WorkerSummary(i, running, ready, succeeded, failedPod)
      {
        var key := list.items[i];
        var pod := list.pods[key];
        assert list.items[..i + 1][..i] == list.items[..i];
        if pod.ready {
          ready := ready + 1;
        }
        if pod.phase == PodRunning {
          running := running + 1;
        }
        if pod.phase == PodSucceeded {
          succeeded := succeeded + 1;
        }
        if pod.phase == PodFailed && failedPod == None {
          failedPod := Some(key);
        }
        i := i + 1;
      }
      assert list.items[..i] == list.items;
      summary := T.WorkerSummary(|list.items|, running, ready, succeeded, failedPod);
    }

    /** Deletes the pods of an attempt, the present one; `st` is the status to be written once they are gone. */
    method DeleteWorkerPodsForAttempt(trainJob: TrainJobObject, attempt: nat, ghost st: TrainStatus) returns (err: bool)
      requires T.OrderOk(client.order) && attempt == trainJob.read.status.attempt
      modifies client
      ensures !err ==> Rest(T.TWrite(trainJob.read, st)) == old(Rest(T.TListDrop(trainJob.read, st)))
      ensures err ==> EndsFrom(T.TListDrop(trainJob.read, st))
    {
      Next(T.TListDrop(trainJob.read, st));
      var list := client.ListWorkers(trainJob.read.name, attempt);
      if !list.Ok? {
        return true;
      }
      var items := list.value.items;
      assert T.Listing(items, T.AttemptPods(client.store.workers, trainJob.read.name, attempt));
      err := DeleteListed(trainJob, items, st);
    }

    method DeleteListed(trainJob: TrainJobObject, items: seq<PodKey>, ghost st: TrainStatus) returns (err: bool)
      requires T.OrderOk(client.order)
      modifies client
      ensures !err ==> Rest(T.TWrite(trainJob.read, st)) == old(Rest(T.Dropping(trainJob.read, items, st)))
      ensures err ==> EndsFrom(T.Dropping(trainJob.read, items, st))
    {
      hide T.RunTrain, T.TrainCall;
      var i := 0;
      while i < |items|
        invariant 0 <= i <= |items|
        invariant Rest(T.Dropping(trainJob.read, items[i..], st)) == old(Rest(T.Dropping(trainJob.read, items, st)))
      {
        assert items[i..][1..] == items[i + 1..];
        err := DeleteOne(trainJob, items[i], items[i + 1..], st);
        if err {
          return;
        }
        i := i + 1;
      }
      err := false;
    }

    /** One delete call; that the pod is gone already is no error. */
    method DeleteOne(trainJob: TrainJobObject, key: PodKey, ghost rest: seq<PodKey>, ghost st: TrainStatus)
      returns (err: bool)
      requires T.OrderOk(client.order)
      modifies client
      ensures !err ==> Rest(T.Dropping(trainJob.read, rest, st)) == old(Rest(T.TDropPod(trainJob.read, key, rest, st)))
      ensures err ==> EndsFrom(T.TDropPod(trainJob.read, key, rest, st))
    {
      Next(T.TDropPod(trainJob.read, key, rest, st));
      var gone := client.DeleteWorker(key);
      err := gone.Error?;
    }

    method HandleFailedAttempt(trainJob: TrainJobObject, summary: T.WorkerSummary) returns (err: bool)
      requires T.OrderOk(client.order) && trainJob.status == trainJob.read.status && summary.failedPod.Some?
      modifies client, trainJob
      ensures var st := T.AfterFailedPod(trainJob.read, summary);
              && (!err ==> trainJob.status == st
                           && Rest(T.TWrite(trainJob.read, st)) == old(Rest(T.TListDrop(trainJob.read, st))))
              && (err ==> EndsFrom(T.TListDrop(trainJob.read, st)))
    {
      ghost var st := T.AfterFailedPod(trainJob.read, summary);
      var labels := WorkerPodLabels(summary.failedPod.value);
      trainJob.status := trainJob.status.(lastFailure := Some(FailureSummaryFromLabels(labels)));
      var failedAttempt := trainJob.status.attempt;
      err := DeleteWorkerPodsForAttempt(trainJob, failedAttempt, st);
      if err {
        return;
      }
      if T.ShouldRetry(trainJob.read, summary) {
        trainJob.status := trainJob.status.(phase := Retrying);
        trainJob.status := trainJob.status.(attempt := failedAttempt + 1);
        return;
      }
      trainJob.status := trainJob.status.(phase := Failed);
    }

    method ApplyWorkerStatus(trainJob: TrainJobObject, summary: T.WorkerSummary) returns (changed: bool)
      requires trainJob.status == trainJob.read.status
      modifies trainJob
      ensures TerminalTrain(old(trainJob.status.phase)) ==> !changed && trainJob.status == old(trainJob.status)
      ensures !TerminalTrain(old(trainJob.status.phase)) ==>
        trainJob.status == T.WithWorkerStatus(trainJob.read, summary)
        && changed == (trainJob.status.phase != old(trainJob.status.phase))
    {
      if trainJob.status.phase == Succeeded || trainJob.status.phase == Failed {
        return false;
      }
      trainJob.status := trainJob.status.(runningWorkers := summary.running);
      trainJob.status := trainJob.status.(readyWorkers := summary.ready);
      var phase := T.NextPhase(trainJob.read.spec.worldSize, summary);
      changed := trainJob.status.phase != phase;
      trainJob.status := trainJob.status.(phase := phase);
    }
  }
}
