/** The InferenceJob reconciler as it runs, proved to be the pass of module InferenceLifecycle. */
module InferenceJobReconciler {
  import opened ClusterTypes
  import opened Names
  import opened Api
  import I = InferenceLifecycle

  /** The working copy of a job: the version that was read, and the fields the pass changes. */
  class InferenceJobObject {
    const read: InferenceJob
    var phase: InferencePhase
    var finalizers: seq<string>
    var lastExitCode: Option<int>

    constructor (j: InferenceJob)
      ensures read == j && Value() == j
    {
      read := j;
      phase := j.phase;
      finalizers := j.finalizers;
      lastExitCode := j.lastExitCode;
    }

    function Value(): InferenceJob
      reads this
    {
      read.(phase := phase, finalizers := finalizers, lastExitCode := lastExitCode)
    }
  }

  /** `getPodRestartCount`. */
  method GetPodRestartCount(containers: seq<Container>) returns (count: int)
    ensures count == I.Restarts(containers)
  {
    count := 0;
    for i := 0 to |containers|
      invariant count == I.Restarts(containers[..i])
    {
      assert containers[..i + 1][..i] == containers[..i];
      count := count + containers[i].restarts;
    }
    assert containers[..|containers|] == containers;
  }

  /** The finalizer list without the reconciler's own key, rebuilt by append. */
  method RemoveFinalizer(current: seq<string>) returns (kept: seq<string>)
    ensures kept == I.Without(current, FINALIZER_KEY)
  {
    kept := [];
    for i := 0 to |current|
      invariant kept == I.Without(current[..i], FINALIZER_KEY)
    {
      assert current[..i + 1][..i] == current[..i];
      if current[i] == FINALIZER_KEY {
        continue;
      }
      kept := kept + [current[i]];
    }
    assert current[..|current|] == current;
  }

  method HasFinalizer(current: seq<string>) returns (found: bool)
    ensures found == (FINALIZER_KEY in current)
  {
    found := false;
    for i := 0 to |current|
      invariant !found && FINALIZER_KEY !in current[..i]
    {
      if current[i] == FINALIZER_KEY {
        found := true;
        break;
      }
    }
  }

  class Reconciler {
    const client: ApiServer

    constructor (client: ApiServer)
      ensures this.client == client
    {
      this.client := client;
    }

    /** What the rest of the pass comes to from `pc`, given the store and the calls left now. */
    ghost function Rest(pc: I.InfPc): Store
      reads client
    {
      I.RunInference(client.store, pc, client.calls).0
    }

    /** The rest of a pass is its next call, and then the rest. */
    lemma Next(pc: I.InfPc)
      ensures client.calls == 0 || pc.IDone? ==> Rest(pc) == client.store
      ensures client.calls > 0 && !pc.IDone? ==>
        var (s, next) := I.InfCall(client.store, pc, client.store.used);
        Rest(pc) == I.RunInference(s, next, client.calls - 1).0
        && (next.IDone? ==> Rest(pc) == s)
    {
    }

    method Reconcile(name: string)
      modifies client
      ensures client.store == I.RunInferencePass(old(client.store), client.seenInfs, name, old(client.calls)).0
    {
      hide I.RunInference, I.InfCall, I.Observed, I.Without;
      var got := client.GetOwnInference(name);
      if !got.Ok? {
        return;
      }
      var job := new InferenceJobObject(got.value);
      if job.read.deleting {
        FinishDeletion(job);
        return;
      }
      var finalizerExists := HasFinalizer(job.finalizers);
      if !finalizerExists {
        AddFinalizer(job);
        return;
      }
      var err, needUpdate := false, false;
      match job.phase {
        case InfNoPhase =>
          job.phase := InfQueued;
          needUpdate := true;
        case InfQueued =>
          err, needUpdate := CheckQueue(job);
        case InfFailing =>
          err, needUpdate := DrainPod(job);
        case InfFailed =>
          Next(I.IDone);
          return;
        case _ =>
          err, needUpdate := ServePod(job);
      }
      if err {
        return;
      }
      if needUpdate {
        UpdateStatus(job);
      }
    }

    /** The deletion branch: wait for the pod to go, then give the object up. */
    method FinishDeletion(job: InferenceJobObject)
      requires job.Value() == job.read && job.read.deleting
      modifies client, job
      ensures client.store == old(Rest(I.IGetDeleted(job.read)))
    {
      Next(I.IGetDeleted(job.read));
      var pod := client.GetServer(job.read.name);
      if pod.Error? {
        return;
      }
      if pod.NotFound? {
        job.finalizers := RemoveFinalizer(job.finalizers);
        Next(I.IUnfinalize(job.read));
        var _ := client.UpdateInference(job.read, job.Value());
        return;
      }
      if pod.value.deleting {
        return;
      }
      Next(I.IDeletePod(job.read));
      var _ := client.DeleteServer(job.read.name);
    }

    method AddFinalizer(job: InferenceJobObject)
      requires job.Value() == job.read && !job.read.deleting
      modifies client, job
      ensures client.store == old(Rest(I.IFinalize(job.read)))
    {
      job.finalizers := job.finalizers + [FINALIZER_KEY];
      Next(I.IFinalize(job.read));
      var _ := client.UpdateInference(job.read, job.Value());
    }

    /** `Status().Update`, the last call of a pass. */
    method UpdateStatus(job: InferenceJobObject)
      requires !job.read.deleting
      modifies client
      ensures client.store == old(Rest(I.IWrite(job.read, job.Value())))
    {
      Next(I.IWrite(job.read, job.Value()));
      var _ := client.UpdateInference(job.read, job.Value());
    }

    /** The gate: a queued job starts once the ledger lists it. */
    method CheckQueue(job: InferenceJobObject) returns (err: bool, needUpdate: bool)
      requires job.Value() == job.read
      modifies client`calls, job
      ensures client.store == old(client.store)
      ensures !err ==> needUpdate == I.Admitted(client.store.used, job.read)
      ensures !err && needUpdate ==> job.Value() == job.read.(phase := InfStarting)
                                     && Rest(I.IWrite(job.read, job.Value())) == old(Rest(I.IGetQueue(job.read)))
      ensures err || !needUpdate ==> client.store == old(Rest(I.IGetQueue(job.read)))
    {
      needUpdate := false;
      Next(I.IGetQueue(job.read));
      var queue := client.GetQueue();
      if !queue.Ok? {
        return true, false;
      }
      var used := queue.value.used;
      for i := 0 to |used|
        invariant !needUpdate && job.Value() == job.read
        invariant forall k :: 0 <= k < i ==> !(used[k].name == job.read.name && used[k].kind == Inference)
      {
        if used[i].name == job.read.name && used[i].kind == Inference {
          job.phase := InfStarting;
          needUpdate := true;
          break;
        }
      }
      err := false;
    }

    /** Starting, Running, Restarting: judge the pod, and create it if it is missing. */
    method ServePod(job: InferenceJobObject) returns (err: bool, needUpdate: bool)
      requires job.Value() == job.read
      modifies client, job
      ensures !err && needUpdate ==> Rest(I.IWrite(job.read, job.Value())) == old(Rest(I.IGetPod(job.read)))
      ensures err || !needUpdate ==> client.store == old(Rest(I.IGetPod(job.read)))
    {
      hide I.Restarts, I.LastExit, I.StatusOfPod;
      err, needUpdate := false, false;
      var pod := None;
      Next(I.IGetPod(job.read));
      var got := client.GetServer(job.read.name);
      if got.Error? {
        return true, false;
      }
      if got.Ok? {
        pod := Some(got.value);
      }
      var restarts := GetPodRestartCount(I.ContainersOf(pod));
      var next := I.NextPhase(job.phase, I.StatusOfPod(pod), restarts, job.read.spec.maxRestarts);
      if next != job.phase {
        job.phase := next;
        needUpdate := true;
      }
      if next == InfFailing {
        var exit := LastFailure(I.ContainersOf(pod), job.lastExitCode);
        job.lastExitCode := exit;
      }
      assert job.Value() == I.Observed(job.read, pod);
      if got.NotFound? {
        err := EnsureWorkerPod(job);
      }
    }

    method EnsureWorkerPod(job: InferenceJobObject) returns (err: bool)
      modifies client
      ensures !err ==> Rest(I.WriteIfMoved(job.read, job.Value())) == old(Rest(I.IEnsurePod(job.read, job.Value())))
      ensures err ==> client.store == old(Rest(I.IEnsurePod(job.read, job.Value())))
    {
      Next(I.IEnsurePod(job.read, job.Value()));
      var pod := client.GetServer(job.read.name);
      if !pod.NotFound? {
        return pod.Error?;
      }
      Next(I.ICreatePod(job.read, job.Value()));
      err := client.CreateServer(job.read.name);
    }

    /** Failing: delete the pod until it is gone, and only then report Failed. */
    method DrainPod(job: InferenceJobObject) returns (err: bool, needUpdate: bool)
      requires job.Value() == job.read
      modifies client, job
      ensures !err && needUpdate ==> Rest(I.IWrite(job.read, job.Value())) == old(Rest(I.IGetFailing(job.read)))
      ensures err || !needUpdate ==> client.store == old(Rest(I.IGetFailing(job.read)))
    {
      err, needUpdate := false, false;
      Next(I.IGetFailing(job.read));
      var pod := client.GetServer(job.read.name);
      if pod.Error? {
        return true, false;
      }
      if pod.NotFound? {
        job.phase := InfFailed;
        return false, true;
      }
      Next(I.IDeletePod(job.read));
      err := client.DeleteServer(job.read.name);
    }
  }

  /** The last recorded termination among the containers wins. */
  method LastFailure(containers: seq<Container>, before: Option<int>) returns (exit: Option<int>)
    ensures exit == I.LastExit(containers, before)
  {
    exit := before;
    for i := 0 to |containers|
      invariant exit == I.LastExit(containers[..i], before)
    {
      assert containers[..i + 1][..i] == containers[..i];
      if containers[i].terminated.Some? {
        exit := containers[i].terminated;
      } else if containers[i].lastTerminated.Some? {
        exit := containers[i].lastTerminated;
      }
    }
    assert containers[..|containers|] == containers;
  }
}
