/** The watches of the queue reconciler: what wakes it, and the one change that does not. */
module QueueWakeups {
  import opened Resources
  import opened ClusterTypes
  import opened QueueAdmission
  import opened Cluster
  import T = TrainLifecycle
  import I = InferenceLifecycle
  import W = Wakeups

  // ---------------------------------------------------------------- when a pass writes

  /** A pass that finds these things may write a ledger. */
  ghost predicate MayWrite(quota: ResourceList, used: seq<Entry>, classes: map<string, int>, trains: Trains, infs: Infs)
  {
    exists after :: QueueNext(quota, used, classes, trains, infs, after) && after != used
  }

  /** A head that is not listed and fits. */
  ghost predicate Admissible(quota: ResourceList, used: seq<Entry>, classes: map<string, int>, trains: Trains,
                             infs: Infs, h: QueuedJob)
  {
    Head(classes, trains, infs, h) && !Listed(used, JobRef(h.name, h.kind)) && Fits(quota, used, h.res)
  }

  /** A pass has something to write exactly if an entry is to go or some head can be admitted. */
  lemma WritesExactly(quota: ResourceList, used: seq<Entry>, classes: map<string, int>, trains: Trains, infs: Infs)
    ensures MayWrite(quota, used, classes, trains, infs)
            <==> (exists e :: e in used && !Survives(e, trains, infs))
                 || (exists h :: Admissible(quota, used, classes, trains, infs, h))
  {
    var kept := Clean(used, trains, infs);
    CleanKeepsSurvivors(used, trains, infs);
    hide Fits, Listed, Clean, Survives, Waiting, Before;
    if e :| e in used && !Survives(e, trains, infs) {
      var after := PassExists(quota, used, classes, trains, infs);
      if q :| Waiting(trains, infs, q) {
        var h :| Head(classes, trains, infs, h) && after == Admit(quota, kept, h);
        UpdateFlagIsExact(quota, used, trains, infs, h);
      }
      assert QueueNext(quota, used, classes, trains, infs, after) && after != used;
    } else {
      assert kept == used;
      if h :| Admissible(quota, used, classes, trains, infs, h) {
        var after := Admit(quota, kept, h);
        assert |after| == |used| + 1;
        assert Waiting(trains, infs, h);
        assert QueueNext(quota, used, classes, trains, infs, after);
      }
      if after :| QueueNext(quota, used, classes, trains, infs, after) && after != used {
        var h :| Head(classes, trains, infs, h) && after == Admit(quota, kept, h);
        assert Admissible(quota, used, classes, trains, infs, h);
      }
    }
  }

  // ---------------------------------------------------------------- no lost wake-up

  ghost predicate QueueCanMove(s: System) {
    MayWrite(s.store.quota, s.store.used, s.store.classes, s.seenTrains, s.seenInfs)
  }

  /** Some event of the change enqueues the queue: one of a job, as the cache learns it, or its own. */
  ghost predicate QueueWoken(s: System, t: System) {
    || (exists n :: W.Differ(s.seenTrains, t.seenTrains, n))
    || (exists n :: W.Differ(s.seenInfs, t.seenInfs, n))
    || s.store.used != t.store.used || s.store.quota != t.store.quota
  }

  /** With the priority classes unchanged, any change that gives a pass something to write enqueues the queue. */
  lemma NoLostQueueWakeup(s: System, t: System)
    requires s.store.classes == t.store.classes && !QueueCanMove(s) && QueueCanMove(t)
    ensures QueueWoken(s, t)
  {
    hide MayWrite;
    if !QueueWoken(s, t) {
      NothingDiffers(s.seenTrains, t.seenTrains);
      NothingDiffers(s.seenInfs, t.seenInfs);
      assert false;
    }
  }

  lemma NothingDiffers<K, V>(a: map<K, V>, b: map<K, V>)
    requires forall k :: !W.Differ(a, b, k)
    ensures a == b
  {
    forall k ensures k in a <==> k in b {
      assert !W.Differ(a, b, k);
    }
    forall k | k in a ensures a[k] == b[k] {
      assert !W.Differ(a, b, k);
    }
  }

  lemma ClassesLeftAlone(s: System, a: Action)
    requires Enabled(s, a) && !a.SetClasses?
    ensures Apply(s, a).store.classes == s.store.classes
  {
    hide Enabled, Apply, T.TrainCall, T.ReadsOk, I.InfCall, QueueCall, ChoiceOk;
    if a.TrainStep? {
      TrainStepMeans(s, a.name, a.items, a.ledger);
      T.CallWrites(s.store, s.trainPasses[a.name], TrainReads(s, a.items, a.ledger));
    } else if a.InferenceStep? {
      InferenceStepMeans(s, a.name, a.ledger);
      I.CallWrites(s.store, s.infPasses[a.name], s.ledgers[a.ledger]);
    } else if a.QueueStep? {
      QueueStepMeans(s, a.after);
    } else {
      ClassesElsewhere(s, a);
    }
  }

  lemma ClassesElsewhere(s: System, a: Action)
    requires Enabled(s, a) && !a.TrainStep? && !a.InferenceStep? && !a.QueueStep? && !a.SetClasses?
    ensures Apply(s, a).store.classes == s.store.classes
  {
    hide T.TrainCall, I.InfCall, QueueCall, ChoiceOk, T.ReadsOk, T.Start, I.Start, Latest, I.Stored, NewTrain,
      NewInference;
  }

  /**
   No lost wake-up of the queue along a run: if a pass had nothing to write and later has, some step in
   between enqueued the queue or changed the priority classes, and from that step on a pass has had
   something to write.
   */
  lemma {:induction false} QueueWokenWhenMovable(ss: seq<System>, acts: seq<Action>, i: nat, k: nat) returns (m: nat)
    requires Run(ss, acts) && i < k < |ss| && !QueueCanMove(ss[i]) && QueueCanMove(ss[k])
    ensures i <= m < k && m < |acts| && (QueueWoken(ss[m], ss[m + 1]) || acts[m].SetClasses?)
    ensures forall x :: m < x <= k ==> QueueCanMove(ss[x])
    decreases k
  {
    hide Run, Enabled, Apply, QueueCanMove, QueueWoken;
    RunStep(ss, acts, k - 1);
    if QueueCanMove(ss[k - 1]) {
      m := QueueWokenWhenMovable(ss, acts, i, k - 1);
    } else {
      m := k - 1;
      if !acts[m].SetClasses? {
        ClassesLeftAlone(ss[m], acts[m]);
        NoLostQueueWakeup(ss[m], ss[k]);
      }
    }
  }

  // ---------------------------------------------------------------- priority classes wake nobody

  /** A waiting job that is not listed and fits. */
  predicate Fitting(quota: ResourceList, used: seq<Entry>, trains: Trains, infs: Infs, h: QueuedJob) {
    Waiting(trains, infs, h) && !Listed(used, JobRef(h.name, h.kind)) && Fits(quota, used, h.res)
  }

  /** None of its priority class is older. */
  ghost predicate Oldest(trains: Trains, infs: Infs, h: QueuedJob) {
    forall q :: Waiting(trains, infs, q) && q.priorityClass == h.priorityClass ==> h.created <= q.created
  }

  /** Values that put one class above all others; a job without a class always counts as 0. */
  function Favouring(waiting: set<QueuedJob>, h: QueuedJob): map<string, int> {
    if h.priorityClass != "" then map[h.priorityClass := 1]
    else map q | q in waiting && q.priorityClass != "" :: q.priorityClass := -1
  }

  lemma FavouredIsHead(trains: Trains, infs: Infs, h: QueuedJob)
    requires Waiting(trains, infs, h) && Oldest(trains, infs, h)
    ensures Head(Favouring(WaitingJobs(trains, infs), h), trains, infs, h)
    ensures "" !in Favouring(WaitingJobs(trains, infs), h)
  {
    var classes := Favouring(WaitingJobs(trains, infs), h);
    forall q | Waiting(trains, infs, q) ensures !Before(classes, q, h) {
      assert q in WaitingJobs(trains, infs);
    }
  }

  /**
   When a change of the priority classes alone can give an idle pass something to write, and so leave
   the queue unwoken with an admissible job: exactly if some waiting job that is not listed and fits is
   the oldest one of its class.
   */
  lemma ClassChangeUnblocksExactly(quota: ResourceList, used: seq<Entry>, trains: Trains, infs: Infs)
    requires forall e :: e in used ==> Survives(e, trains, infs)
    ensures (exists classes :: "" !in classes && MayWrite(quota, used, classes, trains, infs))
            <==> exists h :: Fitting(quota, used, trains, infs, h) && Oldest(trains, infs, h)
  {
    hide MayWrite, Fits, Listed, Survives, WaitingJobs, Favouring;
    if classes: map<string, int> :| "" !in classes && MayWrite(quota, used, classes, trains, infs) {
      WritesExactly(quota, used, classes, trains, infs);
      var h :| Admissible(quota, used, classes, trains, infs, h);
      HeadIsOldest(classes, trains, infs, h);
      assert Fitting(quota, used, trains, infs, h) && Oldest(trains, infs, h);
    }
    if h :| Fitting(quota, used, trains, infs, h) && Oldest(trains, infs, h) {
      FavouredIsHead(trains, infs, h);
      var classes := Favouring(WaitingJobs(trains, infs), h);
      assert Admissible(quota, used, classes, trains, infs, h);
      WritesExactly(quota, used, classes, trains, infs);
    }
  }

  lemma HeadIsOldest(classes: map<string, int>, trains: Trains, infs: Infs, h: QueuedJob)
    requires Head(classes, trains, infs, h)
    ensures Waiting(trains, infs, h) && Oldest(trains, infs, h)
  {
    forall q | Waiting(trains, infs, q) && q.priorityClass == h.priorityClass ensures h.created <= q.created {
      assert !Before(classes, q, h);
    }
  }

  /** A change of the priority classes enqueues nobody. */
  lemma ClassChangeWakesNobody(s: System, classes: map<string, int>)
    ensures Enabled(s, SetClasses(classes)) && !QueueWoken(s, Apply(s, SetClasses(classes)))
  {
    hide T.TrainCall, I.InfCall, QueueCall, ChoiceOk, T.ReadsOk, T.Start, I.Start;
  }

  /**
   A case in point: one gpu is left, the head asks for two, and a job of the other class for one. A pass
   has nothing to write; once the values of the classes are swapped it has.
   */
  lemma SwappedClassesUnblock() returns (quota: ResourceList, trains: Trains, classes: map<string, int>,
                                         swapped: map<string, int>)
    ensures !MayWrite(quota, [], classes, trains, map[]) && MayWrite(quota, [], swapped, trains, map[])
  {
    var status := TrainStatus(Queued, 0, 0, None, 0, 0);
    var a := TrainJob("a", 0, TrainSpec(2, 0, 0, map["gpu" := 1], "high"), status);
    var b := TrainJob("b", 0, TrainSpec(1, 0, 0, map["gpu" := 1], "low"), status);
    quota, trains := map["gpu" := 1], map["a" := a, "b" := b];
    classes, swapped := map["high" := 1], map["low" := 1];
    assert TrainDemand(a.spec)["gpu"] == 2 && TrainDemand(b.spec)["gpu"] == 1;
    var x, y := QueuedTrain(a), QueuedTrain(b);
    forall q ensures Waiting(trains, map[], q) <==> q == x || q == y {}
    assert Before(classes, x, y) && Before(swapped, y, x);
    assert Head(swapped, trains, map[], y);
    assert Left(quota, [], "gpu") == 1;
    assert !Fits(quota, [], x.res) by { assert x.res["gpu"] == 2; }
    assert Fits(quota, [], y.res) && Admissible(quota, [], swapped, trains, map[], y);
    hide Waiting, Before, Fits;
    WritesExactly(quota, [], classes, trains, map[]);
    WritesExactly(quota, [], swapped, trains, map[]);
    assert forall h :: Head(classes, trains, map[], h) ==> h == x;
  }
}
