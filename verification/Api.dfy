/** The API server as the reconcilers use it: single calls on the stored objects, each of which may fail. */
module Api {
  import opened Resources
  import opened ClusterTypes
  import T = TrainLifecycle
  import I = InferenceLifecycle

  datatype Reply<+V> = Ok(value: V) | NotFound | Error

  datatype PodList = PodList(items: seq<PodKey>, pods: T.Workers)

  datatype QueueRead = QueueRead(quota: ResourceList, used: seq<Entry>)

  /**
   `calls` is the number of calls that still succeed; every later call returns an error and does
   nothing. Updates are compare-and-swap: they take the version that was read. The queue reconciler
   lists jobs from a cache, and a job reconciler finds its own job there; the cache may lag behind the store.
   */
  class ApiServer {
    var store: Store
    var calls: nat
    const order: T.Order
    const seenTrains: map<string, TrainJob>
    const seenInfs: map<string, InferenceJob>

    constructor (store: Store, calls: nat, order: T.Order,
                 seenTrains: map<string, TrainJob>, seenInfs: map<string, InferenceJob>)
      ensures this.store == store && this.calls == calls && this.order == order
      ensures this.seenTrains == seenTrains && this.seenInfs == seenInfs
    {
      this.store := store;
      this.calls := calls;
      this.order := order;
      this.seenTrains := seenTrains;
      this.seenInfs := seenInfs;
    }

    /** One more call: does it still succeed? */
    method Call() returns (ok: bool)
      modifies this`calls
      ensures ok == (old(calls) > 0) && calls == (if ok then old(calls) - 1 else 0)
    {
      ok := calls > 0;
      if ok {
        calls := calls - 1;
      }
    }

    // ---------------------------------------------------------------- train jobs

    /** The job of the request, as the cache knows it. */
    method GetOwnTrain(name: string) returns (r: Reply<TrainJob>)
      modifies this`calls
      ensures r.Error? == (old(calls) == 0) && calls == (if r.Error? then 0 else old(calls) - 1)
      ensures !r.Error? ==> r == if name in seenTrains then Ok(seenTrains[name]) else NotFound
    {
      var ok := Call();
      r := if !ok then Error else if name in seenTrains then Ok(seenTrains[name]) else NotFound;
    }

    method GetTrain(name: string) returns (r: Reply<TrainJob>)
      modifies this`calls
      ensures r.Error? == (old(calls) == 0) && calls == (if r.Error? then 0 else old(calls) - 1)
      ensures !r.Error? ==> r == if name in store.trains then Ok(store.trains[name]) else NotFound
    {
      var ok := Call();
      r := if !ok then Error else if name in store.trains then Ok(store.trains[name]) else NotFound;
    }

    method UpdateTrainStatus(read: TrainJob, status: TrainStatus) returns (err: bool)
      modifies this
      ensures old(calls) == 0 ==> err && calls == 0 && store == old(store)
      ensures old(calls) > 0 ==>
        && calls == old(calls) - 1
        && err == !(read.name in old(store.trains) && old(store.trains)[read.name] == read)
        && store == if err then old(store)
           else old(store).(trains := old(store.trains)[read.name := read.(status := status)])
    {
      var ok := Call();
      err := !(ok && read.name in store.trains && store.trains[read.name] == read);
      if !err {
        store := store.(trains := store.trains[read.name := read.(status := status)]);
      }
    }

    // ---------------------------------------------------------------- services, groups and worker pods

    method GetService(name: string) returns (r: Reply<MasterService>)
      modifies this`calls
      ensures r.Error? == (old(calls) == 0) && calls == (if r.Error? then 0 else old(calls) - 1)
      ensures !r.Error? ==> r == if name in store.services then Ok(store.services[name]) else NotFound
    {
      var ok := Call();
      r := if !ok then Error else if name in store.services then Ok(store.services[name]) else NotFound;
    }

    method CreateService(name: string, service: MasterService) returns (err: bool)
      modifies this
      ensures old(calls) == 0 ==> err && calls == 0 && store == old(store)
      ensures old(calls) > 0 ==>
        && calls == old(calls) - 1 && err == (name in old(store.services))
        && store == if err then old(store) else old(store).(services := old(store.services)[name := service])
    {
      var ok := Call();
      err := !ok || name in store.services;
      if !err {
        store := store.(services := store.services[name := service]);
      }
    }

    method UpdateService(name: string, read: MasterService, service: MasterService) returns (err: bool)
      modifies this
      ensures old(calls) == 0 ==> err && calls == 0 && store == old(store)
      ensures old(calls) > 0 ==>
        && calls == old(calls) - 1
        && err == !(name in old(store.services) && old(store.services)[name] == read)
        && store == if err then old(store) else old(store).(services := old(store.services)[name := service])
    {
      var ok := Call();
      err := !(ok && name in store.services && store.services[name] == read);
      if !err {
        store := store.(services := store.services[name := service]);
      }
    }

    method GetGroup(key: GroupKey) returns (r: Reply<PodGroup>)
      modifies this`calls
      ensures r.Error? == (old(calls) == 0) && calls == (if r.Error? then 0 else old(calls) - 1)
      ensures !r.Error? ==> r == if key in store.groups then Ok(store.groups[key]) else NotFound
    {
      var ok := Call();
      r := if !ok then Error else if key in store.groups then Ok(store.groups[key]) else NotFound;
    }

    method CreateGroup(key: GroupKey, group: PodGroup) returns (err: bool)
      modifies this
      ensures old(calls) == 0 ==> err && calls == 0 && store == old(store)
      ensures old(calls) > 0 ==>
        && calls == old(calls) - 1 && err == (key in old(store.groups))
        && store == if err then old(store) else old(store).(groups := old(store.groups)[key := group])
    {
      var ok := Call();
      err := !ok || key in store.groups;
      if !err {
        store := store.(groups := store.groups[key := group]);
      }
    }

    method UpdateGroupStatus(key: GroupKey, read: PodGroup, group: PodGroup) returns (err: bool)
      modifies this
      ensures old(calls) == 0 ==> err && calls == 0 && store == old(store)
      ensures old(calls) > 0 ==>
        && calls == old(calls) - 1
        && err == !(key in old(store.groups) && old(store.groups)[key] == read)
        && store == if err then old(store) else old(store).(groups := old(store.groups)[key := group])
    {
      var ok := Call();
      err := !(ok && key in store.groups && store.groups[key] == read);
      if !err {
        store := store.(groups := store.groups[key := group]);
      }
    }

    /** Deleting what is not there is reported as NotFound, which both callers ignore. */
    method DeleteGroup(key: GroupKey) returns (r: Reply<()>)
      modifies this
      ensures old(calls) == 0 ==> r.Error? && calls == 0 && store == old(store)
      ensures old(calls) > 0 ==>
        && calls == old(calls) - 1 && r == (if key in old(store.groups) then Ok(()) else NotFound)
        && store == old(store).(groups := old(store.groups) - {key})
    {
      var ok := Call();
      r := if !ok then Error else if key in store.groups then Ok(()) else NotFound;
      if ok {
        store := store.(groups := store.groups - {key});
      }
    }

    method GetWorker(key: PodKey) returns (r: Reply<WorkerPod>)
      modifies this`calls
      ensures r.Error? == (old(calls) == 0) && calls == (if r.Error? then 0 else old(calls) - 1)
      ensures !r.Error? ==> r == if key in store.workers then Ok(store.workers[key]) else NotFound
    {
      var ok := Call();
      r := if !ok then Error else if key in store.workers then Ok(store.workers[key]) else NotFound;
    }

    method CreateWorker(key: PodKey, pod: WorkerPod) returns (err: bool)
      modifies this
      ensures old(calls) == 0 ==> err && calls == 0 && store == old(store)
      ensures old(calls) > 0 ==>
        && calls == old(calls) - 1 && err == (key in old(store.workers))
        && store == if err then old(store) else old(store).(workers := old(store.workers)[key := pod])
    {
      var ok := Call();
      err := !ok || key in store.workers;
      if !err {
        store := store.(workers := store.workers[key := pod]);
      }
    }

    method DeleteWorker(key: PodKey) returns (r: Reply<()>)
      modifies this
      ensures old(calls) == 0 ==> r.Error? && calls == 0 && store == old(store)
      ensures old(calls) > 0 ==>
        && calls == old(calls) - 1 && r == (if key in old(store.workers) then Ok(()) else NotFound)
        && store == old(store).(workers := old(store.workers) - {key})
    {
      var ok := Call();
      r := if !ok then Error else if key in store.workers then Ok(()) else NotFound;
      if ok {
        store := store.(workers := store.workers - {key});
      }
    }

    /** The pods whose labels match the attempt selector (Names.AttemptSelectorExact), in the server's order. */
    method ListWorkers(job: string, attempt: nat) returns (r: Reply<PodList>)
      modifies this`calls
      ensures r.Error? == (old(calls) == 0) && calls == (if r.Error? then 0 else old(calls) - 1)
      ensures !r.Error? ==> r == Ok(PodList(order(T.AttemptPods(store.workers, job, attempt)), store.workers))
    {
      var ok := Call();
      r := if !ok then Error else Ok(PodList(order(T.AttemptPods(store.workers, job, attempt)), store.workers));
    }

    // ---------------------------------------------------------------- inference jobs and their pods

    /** The job of the request, as the cache knows it. */
    method GetOwnInference(name: string) returns (r: Reply<InferenceJob>)
      modifies this`calls
      ensures r.Error? == (old(calls) == 0) && calls == (if r.Error? then 0 else old(calls) - 1)
      ensures !r.Error? ==> r == if name in seenInfs then Ok(seenInfs[name]) else NotFound
    {
      var ok := Call();
      r := if !ok then Error else if name in seenInfs then Ok(seenInfs[name]) else NotFound;
    }

    method GetInference(name: string) returns (r: Reply<InferenceJob>)
      modifies this`calls
      ensures r.Error? == (old(calls) == 0) && calls == (if r.Error? then 0 else old(calls) - 1)
      ensures !r.Error? ==> r == if name in store.infs then Ok(store.infs[name]) else NotFound
    {
      var ok := Call();
      r := if !ok then Error else if name in store.infs then Ok(store.infs[name]) else NotFound;
    }

    /** `Update` and `Status().Update`: an object marked deleted goes away with its last finalizer. */
    method UpdateInference(read: InferenceJob, job: InferenceJob) returns (err: bool)
      requires job.name == read.name
      modifies this
      ensures old(calls) == 0 ==> err && calls == 0 && store == old(store)
      ensures old(calls) > 0 ==>
        && calls == old(calls) - 1
        && err == !I.Current(old(store), read)
        && store == if err then old(store) else old(store).(infs := I.Stored(old(store.infs), job))
    {
      var ok := Call();
      err := !(ok && I.Current(store, read));
      if !err {
        store := store.(infs := I.Stored(store.infs, job));
      }
    }

    method GetServer(name: string) returns (r: Reply<ServerPod>)
      modifies this`calls
      ensures r.Error? == (old(calls) == 0) && calls == (if r.Error? then 0 else old(calls) - 1)
      ensures !r.Error? ==> r == if name in store.servers then Ok(store.servers[name]) else NotFound
    {
      var ok := Call();
      r := if !ok then Error else if name in store.servers then Ok(store.servers[name]) else NotFound;
    }

    method CreateServer(name: string) returns (err: bool)
      modifies this
      ensures old(calls) == 0 ==> err && calls == 0 && store == old(store)
      ensures old(calls) > 0 ==>
        && calls == old(calls) - 1 && err == (name in old(store.servers))
        && store == if err then old(store) else old(store).(servers := old(store.servers)[name := I.NEW_SERVER])
    {
      var ok := Call();
      err := !ok || name in store.servers;
      if !err {
        store := store.(servers := store.servers[name := I.NEW_SERVER]);
      }
    }

    /** Graceful deletion only marks the pod. */
    method DeleteServer(name: string) returns (err: bool)
      modifies this
      ensures old(calls) == 0 ==> err && calls == 0 && store == old(store)
      ensures old(calls) > 0 ==>
        && calls == old(calls) - 1 && err == (name !in old(store.servers))
        && store == if err then old(store)
                    else old(store).(servers := old(store.servers)[name := old(store.servers)[name].(deleting := true)])
    {
      var ok := Call();
      err := !ok || name !in store.servers;
      if !err {
        store := store.(servers := store.servers[name := store.servers[name].(deleting := true)]);
      }
    }

    // ---------------------------------------------------------------- the queue

    method GetQueue() returns (r: Reply<QueueRead>)
      modifies this`calls
      ensures r.Error? == (old(calls) == 0) && calls == (if r.Error? then 0 else old(calls) - 1)
      ensures !r.Error? ==> r == Ok(QueueRead(store.quota, store.used))
    {
      var ok := Call();
      r := if !ok then Error else Ok(QueueRead(store.quota, store.used));
    }

    method UpdateQueueStatus(read: QueueRead, used: seq<Entry>) returns (err: bool)
      modifies this
      ensures old(calls) == 0 ==> err && calls == 0 && store == old(store)
      ensures old(calls) > 0 ==>
        && calls == old(calls) - 1
        && err == (read != QueueRead(old(store.quota), old(store.used)))
        && store == if err then old(store) else old(store).(used := used)
    {
      var ok := Call();
      err := !ok || read != QueueRead(store.quota, store.used);
      if !err {
        store := store.(used := used);
      }
    }

    method ListClasses() returns (r: Reply<map<string, int>>)
      modifies this`calls
      ensures r.Error? == (old(calls) == 0) && calls == (if r.Error? then 0 else old(calls) - 1)
      ensures !r.Error? ==> r == Ok(store.classes)
    {
      var ok := Call();
      r := if !ok then Error else Ok(store.classes);
    }

    /** The cached jobs, in any order. */
    method ListTrains() returns (r: Reply<seq<TrainJob>>)
      modifies this`calls
      ensures r.Error? == (old(calls) == 0) && calls == (if r.Error? then 0 else old(calls) - 1)
      ensures !r.Error? ==> r.Ok? && forall j :: j in r.value <==> j in seenTrains.Values
    {
      var ok := Call();
      if !ok {
        return Error;
      }
      var todo, items := seenTrains.Values, [];
      while todo != {}
        invariant todo <= seenTrains.Values
        invariant forall j :: j in items <==> j in seenTrains.Values - todo
      {
        var j :| j in todo;
        todo, items := todo - {j}, items + [j];
      }
      r := Ok(items);
    }

    method ListInferences() returns (r: Reply<seq<InferenceJob>>)
      modifies this`calls
      ensures r.Error? == (old(calls) == 0) && calls == (if r.Error? then 0 else old(calls) - 1)
      ensures !r.Error? ==> r.Ok? && forall j :: j in r.value <==> j in seenInfs.Values
    {
      var ok := Call();
      if !ok {
        return Error;
      }
      var todo, items := seenInfs.Values, [];
      while todo != {}
        invariant todo <= seenInfs.Values
        invariant forall j :: j in items <==> j in seenInfs.Values - todo
      {
        var j :| j in todo;
        todo, items := todo - {j}, items + [j];
      }
      r := Ok(items);
    }
  }
}
