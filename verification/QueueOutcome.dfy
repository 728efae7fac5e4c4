/** What a queue pass leaves, in the terms of the stored jobs: who keeps a charge, who gets one, who has to wait. */
module QueueOutcome {
  import opened Resources
  import opened ClusterTypes
  import opened QueueAdmission

  // ---------------------------------------------------------------- who keeps a charge

  /**
   After a pass every listed TrainJob is there, has neither succeeded nor failed and is not ahead of its
   entry; every listed InferenceJob is there and has not failed. So the charge of a finished job is
   released by the next pass that sees it finished.
   */
  lemma FinishedJobsAreReleased(quota: ResourceList, used: seq<Entry>, classes: map<string, int>,
                                trains: Trains, infs: Infs, after: seq<Entry>, e: Entry)
    requires QueueNext(quota, used, classes, trains, infs, after) && e in after
    ensures e.kind == Train ==>
              e.name in trains && trains[e.name].status.phase != Succeeded && trains[e.name].status.phase != Failed
              && trains[e.name].status.requeueCount <= e.requeueCount
    ensures e.kind == Inference ==> e.name in infs && infs[e.name].phase != InfFailed
  {
    var kept := Clean(used, trains, infs);
    CleanKeepsSurvivors(used, trains, infs);
    if e !in kept {
      var h :| Head(classes, trains, infs, h) && after == Admit(quota, kept, h);
      assert e == EntryFor(h);
    }
  }

  /** And no other charge is: an entry of such a job is still there after the pass. */
  lemma LiveJobsKeepTheirs(quota: ResourceList, used: seq<Entry>, classes: map<string, int>,
                           trains: Trains, infs: Infs, after: seq<Entry>, e: Entry)
    requires QueueNext(quota, used, classes, trains, infs, after) && e in used
    requires e.kind == Train ==>
               e.name in trains && trains[e.name].status.phase != Succeeded && trains[e.name].status.phase != Failed
               && trains[e.name].status.requeueCount <= e.requeueCount
    requires e.kind == Inference ==> e.name in infs && infs[e.name].phase != InfFailed
    ensures e in after
  {
    CleanKeepsSurvivors(used, trains, infs);
    assert e in Clean(used, trains, infs);
  }

  // ---------------------------------------------------------------- who has to wait

  /** While a job of a higher class, or an older one of an equal class, is waiting, a job does not get a charge. */
  lemma LaterJobsWait(quota: ResourceList, used: seq<Entry>, classes: map<string, int>,
                      trains: Trains, infs: Infs, after: seq<Entry>, a: QueuedJob, b: QueuedJob)
    requires QueueNext(quota, used, classes, trains, infs, after)
    requires Waiting(trains, infs, a) && Waiting(trains, infs, b)
    requires || Amount(classes, a.priorityClass) > Amount(classes, b.priorityClass)
             || (Amount(classes, a.priorityClass) == Amount(classes, b.priorityClass) && a.created < b.created)
    requires !Listed(Clean(used, trains, infs), JobRef(b.name, b.kind))
    ensures !Listed(after, JobRef(b.name, b.kind))
  {
    var kept := Clean(used, trains, infs);
    var h :| Head(classes, trains, infs, h) && after == Admit(quota, kept, h);
    assert !Before(classes, a, h);
    assert h != b;
    ListedOneMore(kept, EntryFor(h), JobRef(b.name, b.kind));
  }

  lemma ListedOneMore(used: seq<Entry>, e: Entry, ref: JobRef)
    ensures Listed(used + [e], ref) <==> Listed(used, ref) || Ref(e) == ref
  {
    var more := used + [e];
    if Listed(used, ref) {
      var i :| 0 <= i < |used| && Ref(used[i]) == ref;
      assert Ref(more[i]) == ref;
    }
    assert more[|used|] == e;
  }

  // ---------------------------------------------------------------- who gets a charge

  /** A job of this class and age comes before one of that class and age. Unknown classes count as 0. */
  predicate Earlier(classes: map<string, int>, class1: string, created1: int, class2: string, created2: int) {
    || Amount(classes, class1) > Amount(classes, class2)
    || (Amount(classes, class1) == Amount(classes, class2) && created1 < created2)
  }

  /** Of all queued jobs the one of this name and kind comes first. */
  predicate First(classes: map<string, int>, trains: Trains, infs: Infs, ref: JobRef, priorityClass: string,
                  created: int)
  {
    && (forall m :: m in trains && trains[m].status.phase == Queued && JobRef(m, Train) != ref
          ==> Earlier(classes, priorityClass, created, trains[m].spec.priorityClass, trains[m].created))
    && (forall m :: m in infs && infs[m].phase == InfQueued && JobRef(m, Inference) != ref
          ==> Earlier(classes, priorityClass, created, infs[m].spec.priorityClass, infs[m].created))
  }

  /** What the entries of a ledger charge on `r`, one by one. */
  ghost function Charges(used: seq<Entry>, r: string): map<int, int> {
    map i | 0 <= i < |used| :: if r in used[i].res then used[i].res[r] else 0
  }

  lemma {:induction false} TotalIsSum(used: seq<Entry>, r: string)
    ensures Total(used, r) == SumMap(Charges(used, r))
    decreases |used|
  {
    if used != [] {
      var front, k := used[..|used| - 1], |used| - 1;
      TotalIsSum(front, r);
      SumRemove(Charges(used, r), k);
      assert Charges(used, r) - {k} == Charges(front, r);
    }
  }

  /**
   The first of the queued jobs, a TrainJob without a live charge, whose demand fits beside the live
   charges on every resource, gets exactly one entry: its requests times its world size, under its
   present RequeueCount. Nobody else gets one.
   */
  lemma FirstTrainIsAdmitted(quota: ResourceList, used: seq<Entry>, classes: map<string, int>,
                             trains: Trains, infs: Infs, after: seq<Entry>, n: string)
    requires QueueNext(quota, used, classes, trains, infs, after)
    requires n in trains && trains[n].name == n && trains[n].status.phase == Queued
    requires First(classes, trains, infs, JobRef(n, Train), trains[n].spec.priorityClass, trains[n].created)
    requires forall e :: e in Clean(used, trains, infs) ==> !(e.name == n && e.kind == Train)
    requires var spec := trains[n].spec;
             forall r :: r in spec.requests ==>
               SumMap(Charges(Clean(used, trains, infs), r)) + spec.requests[r] * spec.worldSize
               <= if r in quota then quota[r] else 0
    ensures var spec := trains[n].spec;
            var demand := map r | r in spec.requests :: spec.requests[r] * spec.worldSize;
            after == Clean(used, trains, infs) + [Entry(n, Train, demand, trains[n].status.requeueCount)]
  {
    var h := QueuedTrain(trains[n]);
    assert Waiting(trains, infs, h);
    forall r | r in h.res ensures h.res[r] <= Left(quota, Clean(used, trains, infs), r) {
      TotalIsSum(Clean(used, trains, infs), r);
    }
    FirstIsHead(quota, used, classes, trains, infs, after, h);
    NotListed(Clean(used, trains, infs), JobRef(n, Train));
  }

  /** The same for an InferenceJob, which is charged its requests. */
  lemma FirstInferenceIsAdmitted(quota: ResourceList, used: seq<Entry>, classes: map<string, int>,
                                 trains: Trains, infs: Infs, after: seq<Entry>, n: string)
    requires QueueNext(quota, used, classes, trains, infs, after)
    requires n in infs && infs[n].name == n && infs[n].phase == InfQueued
    requires First(classes, trains, infs, JobRef(n, Inference), infs[n].spec.priorityClass, infs[n].created)
    requires forall e :: e in Clean(used, trains, infs) ==> !(e.name == n && e.kind == Inference)
    requires forall r :: r in infs[n].spec.requests ==>
               SumMap(Charges(Clean(used, trains, infs), r)) + infs[n].spec.requests[r]
               <= if r in quota then quota[r] else 0
    ensures after == Clean(used, trains, infs) + [Entry(n, Inference, infs[n].spec.requests, 0)]
  {
    var h := QueuedInference(infs[n]);
    assert Waiting(trains, infs, h);
    forall r | r in h.res ensures h.res[r] <= Left(quota, Clean(used, trains, infs), r) {
      TotalIsSum(Clean(used, trains, infs), r);
    }
    FirstIsHead(quota, used, classes, trains, infs, after, h);
    NotListed(Clean(used, trains, infs), JobRef(n, Inference));
  }

  /**
   No bypass: when the demand of the first of the queued jobs does not fit beside the live charges, on
   whatever resource, nobody is admitted.
   */
  lemma BlockedHeadBlocksAll(quota: ResourceList, used: seq<Entry>, classes: map<string, int>,
                             trains: Trains, infs: Infs, after: seq<Entry>, h: QueuedJob, r: string)
    requires QueueNext(quota, used, classes, trains, infs, after) && Waiting(trains, infs, h)
    requires First(classes, trains, infs, JobRef(h.name, h.kind), h.priorityClass, h.created)
    requires r in h.res
             && SumMap(Charges(Clean(used, trains, infs), r)) + h.res[r] > (if r in quota then quota[r] else 0)
    ensures after == Clean(used, trains, infs)
  {
    TotalIsSum(Clean(used, trains, infs), r);
    FirstIsHead(quota, used, classes, trains, infs, after, h);
    hide Clean, Total;
  }

  lemma FirstIsHead(quota: ResourceList, used: seq<Entry>, classes: map<string, int>,
                    trains: Trains, infs: Infs, after: seq<Entry>, h: QueuedJob)
    requires QueueNext(quota, used, classes, trains, infs, after) && Waiting(trains, infs, h)
    requires First(classes, trains, infs, JobRef(h.name, h.kind), h.priorityClass, h.created)
    ensures after == Admit(quota, Clean(used, trains, infs), h)
  {
    hide Clean, Fits, Listed, Admit;
    var first :| Head(classes, trains, infs, first) && after == Admit(quota, Clean(used, trains, infs), first);
    assert !Before(classes, h, first);
    FirstIsUnbeaten(classes, trains, infs, h, first);
  }

  lemma FirstIsUnbeaten(classes: map<string, int>, trains: Trains, infs: Infs, h: QueuedJob, q: QueuedJob)
    requires Waiting(trains, infs, h) && Waiting(trains, infs, q) && !Before(classes, h, q)
    requires First(classes, trains, infs, JobRef(h.name, h.kind), h.priorityClass, h.created)
    ensures q == h
  {
  }

  lemma NotListed(used: seq<Entry>, ref: JobRef)
    requires forall e :: e in used ==> !(e.name == ref.name && e.kind == ref.kind)
    ensures !Listed(used, ref)
  {
    forall i | 0 <= i < |used| ensures Ref(used[i]) != ref {
      assert used[i] in used;
    }
  }

  /** Only queued jobs get a charge, and it is their demand. */
  lemma NewEntriesAreOfQueuedJobs(quota: ResourceList, used: seq<Entry>, classes: map<string, int>,
                                  trains: Trains, infs: Infs, after: seq<Entry>, e: Entry)
    requires QueueNext(quota, used, classes, trains, infs, after) && e in after && e !in used
    ensures e.kind == Train ==>
              e.name in trains && trains[e.name].status.phase == Queued
              && e.requeueCount == trains[e.name].status.requeueCount
              && var spec := trains[e.name].spec;
                 e.res == map r | r in spec.requests :: spec.requests[r] * spec.worldSize
    ensures e.kind == Inference ==>
              e.name in infs && infs[e.name].phase == InfQueued && e.res == infs[e.name].spec.requests
    ensures |after| <= |used| + 1
  {
    var kept := Clean(used, trains, infs);
    CleanKeepsSurvivors(used, trains, infs);
    var h :| Head(classes, trains, infs, h) && after == Admit(quota, kept, h);
    assert e == EntryFor(h);
  }
}
