/** The queue reconciler as it runs: loops over lists and maps in any order, an in-place sort, an append. */
module QueueReconciler {
  import opened Resources
  import opened ClusterTypes
  import opened QueueAdmission
  import opened QueueOutcome
  import opened Api

  /** The cache keeps every job under its name. */
  ghost predicate Keyed(trains: Trains, infs: Infs) {
    && (forall n :: n in trains ==> trains[n].name == n)
    && (forall n :: n in infs ==> infs[n].name == n)
  }

  // ---------------------------------------------------------------- the parts of a pass

  method IndexTrains(items: seq<TrainJob>, ghost trains: Trains) returns (m: Trains)
    requires forall j :: j in items <==> j in trains.Values
    requires forall n :: n in trains ==> trains[n].name == n
    ensures m == trains
  {
    m := map[];
    for i := 0 to |items|
      invariant forall n :: n in m ==> n in trains && m[n] == trains[n]
      invariant forall k :: 0 <= k < i ==> items[k].name in m
    {
      assert items[i] in items;
      m := m[items[i].name := items[i]];
    }
    forall n | n in trains ensures n in m {
      assert trains[n] in items;
    }
  }

  method IndexInferences(items: seq<InferenceJob>, ghost infs: Infs) returns (m: Infs)
    requires forall j :: j in items <==> j in infs.Values
    requires forall n :: n in infs ==> infs[n].name == n
    ensures m == infs
  {
    m := map[];
    for i := 0 to |items|
      invariant forall n :: n in m ==> n in infs && m[n] == infs[n]
      invariant forall k :: 0 <= k < i ==> items[k].name in m
    {
      assert items[i] in items;
      m := m[items[i].name := items[i]];
    }
    forall n | n in infs ensures n in m {
      assert infs[n] in items;
    }
  }

  /** Drops the entries of missing, finished and requeued jobs; `update` tells whether any was dropped. */
  method CleanUsed(used: seq<Entry>, trains: Trains, infs: Infs) returns (newUsed: seq<Entry>, update: bool)
    ensures newUsed == Clean(used, trains, infs)
    ensures forall e :: e in newUsed <==>
              && e in used
              && (e.kind == Train ==>
                    e.name in trains && trains[e.name].status.phase != Succeeded
                    && trains[e.name].status.phase != Failed && trains[e.name].status.requeueCount <= e.requeueCount)
              && (e.kind == Inference ==> e.name in infs && infs[e.name].phase != InfFailed)
    ensures update == (|newUsed| < |used|)
  {
    newUsed, update := [], false;
    for i := 0 to |used|
      invariant newUsed == Clean(used[..i], trains, infs)
      invariant |newUsed| <= i && update == (|newUsed| < i)
    {
      var e := used[i];
      assert used[..i + 1][..i] == used[..i];
      if e.kind == Train {
        if e.name !in trains {
          update := true;
          continue;
        }
        var job := trains[e.name];
        if job.status.phase == Succeeded || job.status.phase == Failed {
          update := true;
          continue;
        }
        if e.requeueCount < job.status.requeueCount {
          update := true;
          continue;
        }
        newUsed := newUsed + [e];
      }
      if e.kind == Inference {
        if e.name !in infs {
          update := true;
          continue;
        }
        if infs[e.name].phase == InfFailed {
          update := true;
          continue;
        }
        newUsed := newUsed + [e];
      }
    }
    assert used[..|used|] == used;
    CleanKeepsSurvivors(used, trains, infs);
  }

  /** Subtracts every entry, dimension by dimension in any order; absent dimensions count as zero. */
  method RemainingQuota(quota: ResourceList, used: seq<Entry>) returns (remaining: ResourceList)
    ensures forall r :: Amount(remaining, r) == Left(quota, used, r)
  {
    remaining := quota;
    for i := 0 to |used|
      invariant forall r :: Amount(remaining, r) == Left(quota, used[..i], r)
    {
      var res := used[i].res;
      remaining := SubtractEntry(remaining, res);
      assert used[..i + 1][..i] == used[..i];
    }
    assert used[..|used|] == used;
  }

  method SubtractEntry(start: ResourceList, res: ResourceList) returns (remaining: ResourceList)
    ensures forall r :: Amount(remaining, r) == Amount(start, r) - Amount(res, r)
  {
    remaining := start;
    var todo := res.Keys;
    while todo != {}
      invariant todo <= res.Keys
      invariant forall r :: Amount(remaining, r) == Amount(start, r) - (if r in todo then 0 else Amount(res, r))
    {
      var r :| r in todo;
      var curQuantity := Amount(remaining, r);
      remaining := remaining[r := curQuantity - res[r]];
      todo := todo - {r};
    }
  }

  method TotalNeeded(spec: TrainSpec) returns (total: ResourceList)
    ensures total == map r | r in spec.requests :: spec.requests[r] * spec.worldSize
    ensures total == TrainDemand(spec)
  {
    total := map[];
    var todo := spec.requests.Keys;
    while todo != {}
      invariant todo <= spec.requests.Keys
      invariant total.Keys == spec.requests.Keys - todo
      invariant forall r :: r in total ==> total[r] == spec.requests[r] * spec.worldSize
    {
      var r :| r in todo;
      total := total[r := spec.requests[r] * spec.worldSize];
      todo := todo - {r};
    }
  }

  /** The queued jobs of both kinds, in any order. */
  method CollectQueued(trains: Trains, infs: Infs) returns (queued: seq<QueuedJob>)
    requires forall n :: n in trains ==> trains[n].name == n
    requires forall n :: n in infs ==> infs[n].name == n
    ensures forall q :: q in queued <==> Waiting(trains, infs, q)
  {
    queued := [];
    var todo := trains.Keys;
    while todo != {}
      invariant todo <= trains.Keys
      invariant forall q :: q in queued <==> q.kind == Train && q.name !in todo && Waiting(trains, infs, q)
    {
      var n :| n in todo;
      todo := todo - {n};
      var job := trains[n];
      if job.status.phase == Queued {
        var totalNeeded := TotalNeeded(job.spec);
        queued := queued + [QueuedJob(job.name, Train, totalNeeded, job.spec.priorityClass, job.created,
                                      job.status.requeueCount)];
      }
    }
    var left := infs.Keys;
    while left != {}
      invariant left <= infs.Keys
      invariant forall q :: q in queued <==> (q.kind == Train || q.name !in left) && Waiting(trains, infs, q)
    {
      var n :| n in left;
      left := left - {n};
      var job := infs[n];
      if job.phase == InfQueued {
        queued := queued + [QueuedJob(job.name, Inference, job.spec.requests, job.spec.priorityClass, job.created, 0)];
      }
    }
  }

  // ---------------------------------------------------------------- the sort

  predicate Ordered(classes: map<string, int>, s: seq<QueuedJob>) {
    forall p, q :: 0 <= p < q < |s| ==> !Before(classes, s[q], s[p])
  }

  /** Sorted but for the element at `j`, which may belong further to the front. */
  predicate OrderedBut(classes: map<string, int>, s: seq<QueuedJob>, j: int) {
    forall p, q :: 0 <= p < q < |s| && q != j ==> !Before(classes, s[q], s[p])
  }

  lemma SwapMovesHole(classes: map<string, int>, s: seq<QueuedJob>, j: int)
    requires 0 < j < |s| && OrderedBut(classes, s, j) && Before(classes, s[j], s[j - 1])
    ensures OrderedBut(classes, s[j := s[j - 1]][j - 1 := s[j]], j - 1)
  {
    var t := s[j := s[j - 1]][j - 1 := s[j]];
    ComparatorIsStrictWeakOrder(classes, s[j], s[j - 1], s[j]);
    hide Before;
    forall p, q | 0 <= p < q < |t| && q != j - 1 ensures !Before(classes, t[q], t[p]) {
      var p', q' := if p == j then j - 1 else if p == j - 1 then j else p, if q == j then j - 1 else q;
      assert t[p] == s[p'] && t[q] == s[q'];
    }
  }

  lemma HoleFits(classes: map<string, int>, s: seq<QueuedJob>, j: int)
    requires 0 <= j < |s| && OrderedBut(classes, s, j) && (j == 0 || !Before(classes, s[j], s[j - 1]))
    ensures Ordered(classes, s)
  {
    forall p, q | 0 <= p < q < |s| ensures !Before(classes, s[q], s[p]) {
      if q == j && p < j - 1 {
        ComparatorIsStrictWeakOrder(classes, s[j], s[p], s[j - 1]);
      }
    }
    hide Before;
  }

  method Swap(a: array<QueuedJob>, j: int)
    requires 0 < j < a.Length
    modifies a
    ensures a[..] == old(a[..])[j := old(a[j - 1])][j - 1 := old(a[j])]
    ensures multiset(a[..]) == old(multiset(a[..]))
  {
    a[j], a[j - 1] := a[j - 1], a[j];
  }

  method SortByPriority(a: array<QueuedJob>, classes: map<string, int>)
    modifies a
    ensures multiset(a[..]) == old(multiset(a[..]))
    ensures forall p, q :: 0 <= p < q < a.Length ==>
              && Amount(classes, a[p].priorityClass) >= Amount(classes, a[q].priorityClass)
              && (Amount(classes, a[p].priorityClass) == Amount(classes, a[q].priorityClass)
                  ==> a[p].created <= a[q].created)
    ensures Ordered(classes, a[..])
  {
    var i := 0;
    while i < a.Length
      invariant 0 <= i <= a.Length
      invariant multiset(a[..]) == old(multiset(a[..]))
      invariant Ordered(classes, a[..i])
    {
      var j := i;
      assert OrderedBut(classes, a[..i + 1], j);
      while j > 0 && Before(classes, a[j], a[j - 1])
        invariant 0 <= j <= i
        invariant multiset(a[..]) == old(multiset(a[..]))
        invariant OrderedBut(classes, a[..i + 1], j)
      {
        ghost var s := a[..i + 1];
        SwapMovesHole(classes, s, j);
        Swap(a, j);
        assert a[..i + 1] == s[j := s[j - 1]][j - 1 := s[j]];
        j := j - 1;
      }
      HoleFits(classes, a[..i + 1], j);
      i := i + 1;
    }
    assert a[..i] == a[..];
    forall p, q | 0 <= p < q < a.Length ensures !Before(classes, a[q], a[p]) {
      assert a[p] == a[..][p] && a[q] == a[..][q];
    }
  }

  // ---------------------------------------------------------------- the head

  /** Does everything the job needs fit, and what would be charged for it? */
  method CheckFit(need: ResourceList, remaining: ResourceList) returns (valid: bool, charge: ResourceList)
    ensures valid == forall r :: r in need ==> need[r] <= Amount(remaining, r)
    ensures valid ==> charge == need
  {
    valid, charge := true, map[];
    var todo := need.Keys;
    while todo != {}
      invariant valid && todo <= need.Keys
      invariant charge.Keys == need.Keys - todo
      invariant forall r :: r in charge ==> charge[r] == need[r] && need[r] <= Amount(remaining, r)
    {
      var r :| r in todo;
      todo := todo - {r};
      if Amount(remaining, r) < need[r] {
        return false, charge;
      }
      charge := charge[r := need[r]];
    }
  }

  method FindEntry(used: seq<Entry>, ref: JobRef) returns (found: bool)
    ensures found == Listed(used, ref)
  {
    found := false;
    for i := 0 to |used|
      invariant !found && forall k :: 0 <= k < i ==> Ref(used[k]) != ref
    {
      if used[i].name == ref.name && used[i].kind == ref.kind {
        assert Ref(used[i]) == ref;
        return true;
      }
    }
  }

  /** Sorts the queued jobs and takes the first. */
  method PickHead(queued: seq<QueuedJob>, classes: map<string, int>) returns (head: QueuedJob)
    requires queued != []
    ensures head in queued
    ensures forall q :: q in queued ==>
              !Earlier(classes, q.priorityClass, q.created, head.priorityClass, head.created)
    ensures forall q :: q in queued ==> !Before(classes, q, head)
  {
    var a := new QueuedJob[|queued|](i requires 0 <= i < |queued| => queued[i]);
    assert a[..] == queued;
    SortByPriority(a, classes);
    head := a[0];
    SortedHead(classes, queued, a[..]);
    assert forall q :: q in queued ==> !Before(classes, q, head);
  }

  lemma SortedHead(classes: map<string, int>, queued: seq<QueuedJob>, s: seq<QueuedJob>)
    requires s != [] && multiset(s) == multiset(queued) && Ordered(classes, s)
    ensures s[0] in queued
    ensures forall q :: q in queued ==> !Before(classes, q, s[0])
  {
    assert s[0] in multiset(s);
    forall q | q in queued ensures !Before(classes, q, s[0]) {
      assert q in multiset(s);
      var k :| 0 <= k < |s| && s[k] == q;
      ComparatorIsStrictWeakOrder(classes, s[0], s[0], s[0]);
    }
    hide Before;
  }

  /** Admits the head if it fits in what remains and is not listed yet. */
  method AdmitHead(ghost quota: ResourceList, remaining: ResourceList, kept: seq<Entry>, head: QueuedJob)
    returns (used: seq<Entry>, update: bool)
    requires forall r :: Amount(remaining, r) == Left(quota, kept, r)
    ensures used == Admit(quota, kept, head)
    ensures update == (used != kept)
  {
    used, update := kept, false;
    var valid, charge := CheckFit(head.res, remaining);
    assert valid == Fits(quota, kept, head.res);
    if valid {
      var listed := FindEntry(kept, JobRef(head.name, head.kind));
      if !listed {
        used := kept + [Entry(head.name, head.kind, charge, head.requeueCount)];
        update := true;
      }
    }
  }

  // ---------------------------------------------------------------- the pass

  /** A waiting job, and no waiting job comes before it. */
  ghost predicate Chosen(classes: map<string, int>, trains: Trains, infs: Infs, h: QueuedJob) {
    && Waiting(trains, infs, h)
    && forall q :: Waiting(trains, infs, q) ==>
         !Earlier(classes, q.priorityClass, q.created, h.priorityClass, h.created)
  }

  lemma HeadIsChosen(classes: map<string, int>, trains: Trains, infs: Infs, h: QueuedJob)
    requires Head(classes, trains, infs, h)
    ensures Chosen(classes, trains, infs, h)
  {
    forall q | Waiting(trains, infs, q)
      ensures !Earlier(classes, q.priorityClass, q.created, h.priorityClass, h.created)
    {
      assert !Before(classes, q, h);
    }
  }

  lemma LedgerIsLive(quota: ResourceList, used: seq<Entry>, classes: map<string, int>, trains: Trains, infs: Infs,
                     after: seq<Entry>)
    requires QueueNext(quota, used, classes, trains, infs, after)
    ensures forall e :: e in after && e.kind == Train ==>
              e.name in trains
              && var st := trains[e.name].status;
                 st.phase != Succeeded && st.phase != Failed && st.requeueCount <= e.requeueCount
    ensures forall e :: e in after && e.kind == Inference ==> e.name in infs && infs[e.name].phase != InfFailed
  {
    hide QueueNext;
    forall e | e in after
      ensures e.kind == Train ==>
                e.name in trains
                && var st := trains[e.name].status;
                   st.phase != Succeeded && st.phase != Failed && st.requeueCount <= e.requeueCount
      ensures e.kind == Inference ==> e.name in infs && infs[e.name].phase != InfFailed
    {
      FinishedJobsAreReleased(quota, used, classes, trains, infs, after, e);
    }
  }

  class Reconciler {
    const client: ApiServer

    constructor (client: ApiServer)
      ensures this.client == client
    {
      this.client := client;
    }

    /**
     A pass writes the ledger and nothing else. Completed, it leaves one of the ledgers that
     QueueNext allows on the cached jobs, and it has made the update call exactly if that differs
     from the one it found; cut short, it leaves the store alone. Strict priority: the ledger keeps the
     survivors in order and gains at most one entry, for an unlisted job that fits and that no
     waiting job comes before. No finished job is listed.
     */
    method Reconcile() returns (err: bool)
      requires Keyed(client.seenTrains, client.seenInfs)
      modifies client
      ensures client.store == old(client.store).(used := client.store.used)
      ensures var st := old(client.store);
              !err ==> QueueNext(st.quota, st.used, st.classes, client.seenTrains, client.seenInfs, client.store.used)
      ensures var kept := Clean(old(client.store).used, client.seenTrains, client.seenInfs);
              !err ==> client.store.used == kept
                       || exists h :: Chosen(old(client.store).classes, client.seenTrains, client.seenInfs, h)
                                      && client.store.used == kept + [EntryFor(h)]
                                      && !Listed(kept, JobRef(h.name, h.kind))
                                         && Fits(old(client.store).quota, kept, h.res)
      ensures forall e :: !err && e in client.store.used && e.kind == Train ==>
                e.name in client.seenTrains
                && var st := client.seenTrains[e.name].status;
                   st.phase != Succeeded && st.phase != Failed && st.requeueCount <= e.requeueCount
      ensures forall e :: !err && e in client.store.used && e.kind == Inference ==>
                e.name in client.seenInfs && client.seenInfs[e.name].phase != InfFailed
      ensures var st := old(client.store);
              !err ==> old(client.calls) - client.calls
                       == 3 + (if exists q :: Waiting(client.seenTrains, client.seenInfs, q) then 1 else 0)
                            + (if client.store.used != st.used then 1 else 0)
      ensures err ==> client.store == old(client.store) && client.calls == 0
      ensures old(client.calls) >= 5 ==> !err
    {
      ghost var st := client.store;
      var queue := client.GetQueue();
      if !queue.Ok? {
        return true;
      }
      var trainItems := client.ListTrains();
      if !trainItems.Ok? {
        return true;
      }
      var trains := IndexTrains(trainItems.value, client.seenTrains);
      var infItems := client.ListInferences();
      if !infItems.Ok? {
        return true;
      }
      var infs := IndexInferences(infItems.value, client.seenInfs);
      var used, update := CleanUsed(queue.value.used, trains, infs);
      var remaining := RemainingQuota(queue.value.quota, used);
      var queued := CollectQueued(trains, infs);
      if |queued| > 0 {
        var classes := client.ListClasses();
        if !classes.Ok? {
          return true;
        }
        var head := PickHead(queued, classes.value);
        var appended;
        used, appended := AdmitHead(queue.value.quota, remaining, used, head);
        update := update || appended;
        assert Waiting(trains, infs, queued[0]);
        assert Head(classes.value, trains, infs, head);
        UpdateFlagIsExact(st.quota, st.used, trains, infs, head);
      } else {
        CleanKeepsSurvivors(st.used, trains, infs);
        assert forall q :: !Waiting(trains, infs, q);
      }
      assert QueueNext(st.quota, st.used, st.classes, client.seenTrains, client.seenInfs, used);
      AtMostTheHeadIsAdmitted(st.quota, st.used, st.classes, client.seenTrains, client.seenInfs, used);
      forall h | Head(st.classes, trains, infs, h) ensures Chosen(st.classes, trains, infs, h) {
        HeadIsChosen(st.classes, trains, infs, h);
      }
      LedgerIsLive(st.quota, st.used, st.classes, trains, infs, used);
      assert update == (used != st.used);
      if update {
        err := client.UpdateQueueStatus(queue.value, used);
        return;
      }
      err := false;
    }
  }
}
