/** Quota safety in every state of every run: charges, jobs and pods. */
module QuotaSafety {
  import opened Resources
  import opened ClusterTypes
  import opened QueueAdmission
  import opened Cluster
  import opened LedgerInvariant
  import opened LedgerSteps
  import opened PodInvariant
  import T = TrainLifecycle
  import I = InferenceLifecycle

  // ---------------------------------------------------------------- what jobs and pods hold

  /** What each holding train job is entitled to on dimension `r`. */
  ghost function TrainLoad(trains: Trains, r: string): map<string, int> {
    map n | n in trains && HoldingTrain(trains[n].status.phase) :: Amount(TrainDemand(trains[n].spec), r)
  }

  ghost function InfLoad(infs: Infs, r: string): map<string, int> {
    map n | n in infs && HoldingInference(infs[n].phase) :: Amount(infs[n].spec.requests, r)
  }

  /** What each unfinished worker pod requests, if its job exists or the ledger still lists it. */
  ghost function WorkerLoad(trains: Trains, workers: T.Workers, used: seq<Entry>, r: string): map<PodKey, int> {
    map k | k in workers && !Finished(workers[k]) && (k.job in trains || Listed(used, JobRef(k.job, Train)))
      :: Amount(workers[k].requests, r)
  }

  /** What each inference pod requests, deleted or not. */
  ghost function ServerLoad(infs: Infs, servers: map<string, ServerPod>, r: string): map<string, int> {
    map n | n in servers && n in infs :: Amount(infs[n].spec.requests, r)
  }

  // ---------------------------------------------------------------- distinct entries pay for distinct jobs

  predicate Pays(e: Entry, kind: JobType, n: string, amount: int, r: string) {
    e.kind == kind && e.name == n && Amount(e.res, r) == amount
  }

  ghost predicate Paid(used: seq<Entry>, kind: JobType, loads: map<string, int>, r: string) {
    forall n :: n in loads ==> exists i :: 0 <= i < |used| && Pays(used[i], kind, n, loads[n], r)
  }

  /** Jobs that each own an entry charged their load sum to at most the ledger's total. */
  lemma {:induction false} PaidSum(used: seq<Entry>, trains: map<string, int>, infs: map<string, int>, r: string)
    requires Unique(used) && NonNegativeCharges(used)
    requires Paid(used, Train, trains, r) && Paid(used, Inference, infs, r)
    ensures SumMap(trains) + SumMap(infs) <= Total(used, r)
  {
    if used == [] {
      assert trains == map[] && infs == map[];
    } else {
      var front, e := used[..|used| - 1], used[|used| - 1];
      PaidByFront(used, Train, trains, r);
      PaidByFront(used, Inference, infs, r);
      if e.kind == Train && e.name in trains {
        SumRemove(trains, e.name);
        PaidSum(front, trains - {e.name}, infs, r);
      } else if e.kind == Inference && e.name in infs {
        SumRemove(infs, e.name);
        PaidSum(front, trains, infs - {e.name}, r);
      } else {
        PaidSum(front, trains, infs, r);
      }
    }
  }

  lemma PaidByFront(used: seq<Entry>, kind: JobType, loads: map<string, int>, r: string)
    requires used != [] && Unique(used) && NonNegativeCharges(used) && Paid(used, kind, loads, r)
    ensures var front, e := used[..|used| - 1], used[|used| - 1];
            && Unique(front) && NonNegativeCharges(front) && 0 <= Amount(e.res, r)
            && (e.kind == kind && e.name in loads ==>
                  loads[e.name] == Amount(e.res, r) && Paid(front, kind, loads - {e.name}, r))
            && (e.kind != kind || e.name !in loads ==> Paid(front, kind, loads, r))
  {
    var front, e := used[..|used| - 1], used[|used| - 1];
    forall n | n in loads && (e.kind != kind || n != e.name)
      ensures exists i :: 0 <= i < |front| && Pays(front[i], kind, n, loads[n], r)
    {
      var i :| 0 <= i < |used| && Pays(used[i], kind, n, loads[n], r);
      assert front[i] == used[i];
    }
    if e.kind == kind && e.name in loads {
      LastPays(used, kind, loads, r);
    }
  }

  lemma LastPays(used: seq<Entry>, kind: JobType, loads: map<string, int>, r: string)
    requires used != [] && Unique(used) && Paid(used, kind, loads, r)
    requires used[|used| - 1].kind == kind && used[|used| - 1].name in loads
    ensures loads[used[|used| - 1].name] == Amount(used[|used| - 1].res, r)
  {
    var e := used[|used| - 1];
    var i :| 0 <= i < |used| && Pays(used[i], kind, e.name, loads[e.name], r);
    assert Ref(used[i]) == Ref(e);
  }

  lemma ChargedDemand(s: System, e: Entry, r: string)
    requires LedgerInv(s) && e in s.store.used
    ensures 0 <= Amount(e.res, r)
    ensures e.kind == Train ==> e.name in s.lastTrains && e.res == TrainDemand(s.lastTrains[e.name].spec)
    ensures e.kind == Inference && e.name in s.store.infs ==> e.res == s.store.infs[e.name].spec.requests
  {
    UsedEntryOk(s, e);
    hide LedgerInv;
  }

  lemma HoldersPaid(s: System, r: string)
    requires LedgerInv(s)
    ensures Paid(s.store.used, Train, TrainLoad(s.store.trains, r), r)
    ensures Paid(s.store.used, Inference, InfLoad(s.store.infs, r), r)
  {
    hide LedgerInv;
    var used := s.store.used;
    var trains, infs := TrainLoad(s.store.trains, r), InfLoad(s.store.infs, r);
    forall n | n in trains ensures exists i :: 0 <= i < |used| && Pays(used[i], Train, n, trains[n], r) {
      var e := TrainChargeOf(s, n);
      LatestIsStored(s, n);
      ChargedDemand(s, e, r);
      var i :| 0 <= i < |used| && used[i] == e;
      assert Pays(used[i], Train, n, trains[n], r);
    }
    forall n | n in infs ensures exists i :: 0 <= i < |used| && Pays(used[i], Inference, n, infs[n], r) {
      var e := InferenceChargeOf(s, n);
      ChargedDemand(s, e, r);
      var i :| 0 <= i < |used| && used[i] == e;
      assert Pays(used[i], Inference, n, infs[n], r);
    }
  }

  lemma LedgerBounds(s: System, r: string)
    requires LedgerInv(s)
    ensures Unique(s.store.used) && NonNegativeCharges(s.store.used) && Total(s.store.used, r) <= Peak(s.quotas, r)
  {
    hide TrainLedger, InfLedger, QueuePassOk, TrainGatesOk, InfGatesOk, Unique, NonNegativeCharges;
  }

  lemma HoldersWithinPeak(s: System, r: string)
    requires LedgerInv(s)
    ensures SumMap(TrainLoad(s.store.trains, r)) + SumMap(InfLoad(s.store.infs, r)) <= Peak(s.quotas, r)
  {
    hide LedgerInv, TrainLoad, InfLoad, SumMap, Paid, Unique, NonNegativeCharges;
    HoldersPaid(s, r);
    LedgerBounds(s, r);
    PaidSum(s.store.used, TrainLoad(s.store.trains, r), InfLoad(s.store.infs, r), r);
  }

  // ---------------------------------------------------------------- quota safety of jobs

  /**
   Quota safety under any interleaving, whatever outdated copies the queue, the gates and the passes
   read: on every dimension all holding jobs together stay within the largest quota there has been.
   */
  lemma JobsWithinQuota(ss: seq<System>, acts: seq<Action>, i: nat, r: string)
    requires Run(ss, acts) && i < |ss|
    ensures SumMap(TrainLoad(ss[i].store.trains, r)) + SumMap(InfLoad(ss[i].store.infs, r)) <= Peak(ss[i].quotas, r)
  {
    hide Run, LedgerInv, TrainLoad, InfLoad, SumMap, Peak;
    RunLedger(ss, acts, i);
    HoldersWithinPeak(ss[i], r);
  }

  ghost predicate QuotaHeldFixed(acts: seq<Action>) {
    forall i :: 0 <= i < |acts| ==> !acts[i].SetQuota?
  }

  lemma {:induction false} FixedQuotaHistory(ss: seq<System>, acts: seq<Action>, i: nat)
    requires Run(ss, acts) && i < |ss| && QuotaHeldFixed(acts)
    ensures ss[i].quotas == [ss[0].store.quota] && ss[i].store.quota == ss[0].store.quota
    decreases i
  {
    hide Enabled, Apply;
    if i > 0 {
      FixedQuotaHistory(ss, acts, i - 1);
      RunStep(ss, acts, i - 1);
      QueueFields(ss[i - 1], acts[i - 1]);
    }
  }

  /** What one step may do to the fields that belong to the queue. */
  lemma QueueFields(s: System, a: Action)
    requires Enabled(s, a)
    ensures var t := Apply(s, a);
            && (!a.SetQuota? ==> t.quotas == s.quotas && t.store.quota == s.store.quota)
            && (!a.QueueStep? ==> t.ledgers == s.ledgers && t.store.used == s.store.used)
            && ((t.ledgers == s.ledgers && t.store.used == s.store.used) || t.ledgers == s.ledgers + [t.store.used])
  {
    if a.TrainStep? {
      hide *;
      TrainStepMeans(s, a.name, a.items, a.ledger);
      T.CallWrites(s.store, s.trainPasses[a.name], TrainReads(s, a.items, a.ledger));
    } else if a.InferenceStep? {
      hide *;
      InferenceStepMeans(s, a.name, a.ledger);
      I.CallWrites(s.store, s.infPasses[a.name], s.ledgers[a.ledger]);
    } else if a.QueueStep? {
      hide *;
      QueueStepMeans(s, a.after);
    } else {
      hide *;
      QueueLeftAlone(s, a);
    }
  }

  lemma QueueLeftAlone(s: System, a: Action)
    requires Enabled(s, a) && !a.TrainStep? && !a.InferenceStep? && !a.QueueStep?
    ensures Apply(s, a).ledgers == s.ledgers && Apply(s, a).store.used == s.store.used
    ensures !a.SetQuota? ==> Apply(s, a).quotas == s.quotas && Apply(s, a).store.quota == s.store.quota
  {
    hide T.TrainCall, I.InfCall, QueueCall, ChoiceOk, T.ReadsOk, T.Start, I.Start, Latest, I.Stored, NewTrain,
      NewInference;
  }

  /** With the quota held fixed, the holding jobs never exceed it. */
  lemma JobsWithinFixedQuota(ss: seq<System>, acts: seq<Action>, i: nat, r: string)
    requires Run(ss, acts) && i < |ss| && QuotaHeldFixed(acts)
    ensures SumMap(TrainLoad(ss[i].store.trains, r)) + SumMap(InfLoad(ss[i].store.infs, r))
            <= Max(0, Amount(ss[0].store.quota, r))
  {
    JobsWithinQuota(ss, acts, i, r);
    FixedQuotaHistory(ss, acts, i);
    PeakOfConstant(ss[i].quotas, ss[0].store.quota, r);
    hide Run, TrainLoad, InfLoad, SumMap, Peak;
  }

  // ---------------------------------------------------------------- quota safety of pods

  ghost function OfJob(load: map<PodKey, int>, n: string): map<PodKey, int> {
    map k | k in load && k.job == n :: load[k]
  }

  ghost function NotOfJob(load: map<PodKey, int>, n: string): map<PodKey, int> {
    map k | k in load && k.job != n :: load[k]
  }

  lemma SplitByJob(pods: map<PodKey, int>, n: string)
    ensures SumMap(pods) == SumMap(NotOfJob(pods, n)) + SumMap(OfJob(pods, n))
    ensures forall m :: m != n ==> OfJob(NotOfJob(pods, n), m) == OfJob(pods, m)
  {
    assert pods == NotOfJob(pods, n) + OfJob(pods, n);
    SumUnion(NotOfJob(pods, n), OfJob(pods, n));
    hide SumMap;
  }

  /** Pods sum to at most what their jobs hold when each job's pods do. */
  lemma {:induction false} GroupedSum(pods: map<PodKey, int>, jobs: map<string, int>)
    requires forall k :: k in pods ==> k.job in jobs
    requires forall n :: n in jobs ==> SumMap(OfJob(pods, n)) <= jobs[n]
    ensures SumMap(pods) <= SumMap(jobs)
    decreases jobs.Keys
  {
    if jobs == map[] {
      assert pods == map[];
    } else {
      var n :| n in jobs;
      SplitByJob(pods, n);
      SumRemove(jobs, n);
      assert (jobs - {n}).Keys == jobs.Keys - {n};
      hide SumMap;
      GroupedSum(NotOfJob(pods, n), jobs - {n});
    }
  }

  lemma MulMonotone(a: nat, b: nat, v: nat)
    requires a <= b
    ensures a * v <= b * v
  {
  }

  /** Pods of one attempt with ranks below `n`, each requesting `each`, request at most `n` times that. */
  lemma GangSum(part: map<PodKey, int>, job: string, attempt: nat, n: nat, each: nat)
    requires forall k :: k in part ==> k.job == job && k.attempt == attempt && k.rank < n && part[k] == each
    ensures SumMap(part) <= n * each
  {
    var all := T.RankKeys(job, attempt, n);
    forall k | k in part.Keys ensures k in all {
      assert k == PodKey(job, attempt, k.rank);
    }
    T.RankKeysSize(job, attempt, n);
    SubsetSize(part.Keys, all);
    SumConstant(part, each);
    MulMonotone(|part|, n, each);
    hide SumMap;
  }

  /** What the ledger charges each job it lists, deleted ones included. */
  ghost function ListedLoad(lasts: Trains, used: seq<Entry>, r: string): map<string, int> {
    map n | n in lasts && Listed(used, JobRef(n, Train)) :: Amount(TrainDemand(lasts[n].spec), r)
  }

  lemma OneJobsPods(trains: Trains, lasts: Trains, workers: T.Workers, used: seq<Entry>, n: string, r: string)
    requires WorkersOk(lasts, workers) && n in lasts && TrainSpecOk(lasts[n].spec)
    ensures SumMap(OfJob(WorkerLoad(trains, workers, used, r), n)) <= Amount(TrainDemand(lasts[n].spec), r)
  {
    var j := lasts[n];
    var part := OfJob(WorkerLoad(trains, workers, used, r), n);
    forall k | k in part
      ensures k.job == n && k.attempt == j.status.attempt && k.rank < j.spec.worldSize
              && part[k] == Amount(j.spec.requests, r)
    {
      assert WorkerOk(j, k, workers[k]);
    }
    GangSum(part, n, j.status.attempt, j.spec.worldSize, Amount(j.spec.requests, r));
    hide SumMap;
  }

  /** The job of an unfinished pod, if it exists, holds a charge and so is listed. */
  lemma UnfinishedPodIsCharged(s: System, k: PodKey) returns (e: Entry)
    requires Inv(s) && k in s.store.workers && !Finished(s.store.workers[k]) && k.job in s.store.trains
    ensures e in s.store.used && T.Matching(e, s.store.trains[k.job]) && s.store.trains[k.job].name == k.job
    ensures DrivingTrain(s.store.trains[k.job].status.phase)
  {
    hide LedgerInv, GroupsOk, ServersOk, TrainPassesOk, InfPassesOk;
    LatestIsStored(s, k.job);
    assert WorkerOk(s.lastTrains[k.job], k, s.store.workers[k]);
    e := TrainChargeOf(s, k.job);
  }

  lemma ListedIfUsed(used: seq<Entry>, e: Entry)
    requires e in used
    ensures Listed(used, Ref(e))
  {
    var i :| 0 <= i < |used| && used[i] == e;
  }

  lemma WorkersWithinListed(s: System, r: string)
    requires Inv(s)
    ensures SumMap(WorkerLoad(s.store.trains, s.store.workers, s.store.used, r))
            <= SumMap(ListedLoad(s.lastTrains, s.store.used, r))
  {
    var pods, jobs := WorkerLoad(s.store.trains, s.store.workers, s.store.used, r),
      ListedLoad(s.lastTrains, s.store.used, r);
    assert WorkersOk(s.lastTrains, s.store.workers);
    hide SumMap, OfJob, Inv, Listed;
    forall k | k in pods ensures k.job in jobs {
      if k.job in s.store.trains {
        var e := UnfinishedPodIsCharged(s, k);
        ListedIfUsed(s.store.used, e);
      }
    }
    forall n | n in jobs ensures SumMap(OfJob(pods, n)) <= jobs[n] {
      LatestIsStored(s, n);
      OneJobsPods(s.store.trains, s.lastTrains, s.store.workers, s.store.used, n, r);
    }
    GroupedSum(pods, jobs);
  }

  lemma ListedArePaid(s: System, r: string)
    requires LedgerInv(s)
    ensures Paid(s.store.used, Train, ListedLoad(s.lastTrains, s.store.used, r), r)
  {
    var used, jobs := s.store.used, ListedLoad(s.lastTrains, s.store.used, r);
    forall n | n in jobs ensures exists i :: 0 <= i < |used| && Pays(used[i], Train, n, jobs[n], r) {
      var i :| 0 <= i < |used| && Ref(used[i]) == JobRef(n, Train);
      ChargedDemand(s, used[i], r);
      assert Pays(used[i], Train, n, jobs[n], r);
    }
    hide LedgerInv;
  }

  lemma {:induction false} SubmapSum(a: map<string, int>, b: map<string, int>)
    requires forall n :: n in a ==> n in b && a[n] == b[n]
    requires forall n :: n in b ==> 0 <= b[n]
    ensures SumMap(a) <= SumMap(b)
    decreases |b|
  {
    if b == map[] {
      assert a == map[];
    } else {
      var n :| n in b;
      SumRemove(b, n);
      assert (b - {n}).Keys == b.Keys - {n};
      assert |b - {n}| < |b|;
      if n in a {
        SumRemove(a, n);
        SubmapSum(a - {n}, b - {n});
      } else {
        SubmapSum(a, b - {n});
      }
    }
  }

  lemma ServersOfInv(s: System)
    requires Inv(s)
    ensures ServersOk(s.store.infs, s.store.servers)
  {
    hide LedgerInv;
  }

  lemma ServersWithinJobs(s: System, r: string)
    requires LedgerInv(s) && ServersOk(s.store.infs, s.store.servers)
    ensures SumMap(ServerLoad(s.store.infs, s.store.servers, r)) <= SumMap(InfLoad(s.store.infs, r))
  {
    hide LedgerInv, SumMap;
    forall n | n in InfLoad(s.store.infs, r) ensures 0 <= InfLoad(s.store.infs, r)[n] {
      var e := InferenceChargeOf(s, n);
      ChargedDemand(s, e, r);
    }
    SubmapSum(ServerLoad(s.store.infs, s.store.servers, r), InfLoad(s.store.infs, r));
  }

  /**
   Pod-level quota safety, also between any two API calls of any pass and after a pass was cut short:
   the unfinished worker pods of all jobs that exist or are still listed, and all inference pods,
   request at most the largest quota there has been.
   */
  lemma PodsWithinQuota(ss: seq<System>, acts: seq<Action>, i: nat, r: string)
    requires FreshRun(ss, acts) && i < |ss|
    ensures var st := ss[i].store;
            SumMap(WorkerLoad(st.trains, st.workers, st.used, r)) + SumMap(ServerLoad(st.infs, st.servers, r))
            <= Peak(ss[i].quotas, r)
  {
    hide FreshRun, LedgerInv, PodInv, ListedLoad, InfLoad, WorkerLoad, ServerLoad, SumMap, Peak, Paid, Unique,
      NonNegativeCharges;
    RunInv(ss, acts, i);
    var s := ss[i];
    assert ServersOk(s.store.infs, s.store.servers) by { ServersOfInv(s); }
    HoldersPaid(s, r);
    ListedArePaid(s, r);
    LedgerBounds(s, r);
    PaidSum(s.store.used, ListedLoad(s.lastTrains, s.store.used, r), InfLoad(s.store.infs, r), r);
    WorkersWithinListed(s, r);
    ServersWithinJobs(s, r);
  }

  // ---------------------------------------------------------------- the ledger along a run

  lemma StepKeepsHistory(s: System, a: Action)
    requires Enabled(s, a)
    ensures |s.ledgers| <= |Apply(s, a).ledgers|
    ensures forall k :: 0 <= k < |s.ledgers| ==> Apply(s, a).ledgers[k] == s.ledgers[k]
  {
    hide Enabled, Apply;
    QueueFields(s, a);
  }

  lemma {:induction false} HistoryGrows(ss: seq<System>, acts: seq<Action>, i: nat, k: nat)
    requires Run(ss, acts) && i <= k < |ss|
    ensures |ss[i].ledgers| <= |ss[k].ledgers|
    ensures forall m :: 0 <= m < |ss[i].ledgers| ==> ss[k].ledgers[m] == ss[i].ledgers[m]
    decreases k
  {
    hide Run, Enabled, Apply;
    if i < k {
      HistoryGrows(ss, acts, i, k - 1);
      RunStep(ss, acts, k - 1);
      StepKeepsHistory(ss[k - 1], acts[k - 1]);
    }
  }

  lemma HistoryEntryOk(ss: seq<System>, acts: seq<Action>, i: nat, k: nat, e: Entry)
    requires Run(ss, acts) && i <= k < |ss| && e in ss[i].store.used
    ensures var t := ss[k];
            && (e.kind == Train ==> TrainEntryOk(e, t.store.trains, t.lastTrains, t.seenTrains, t.store.used))
            && (e.kind == Inference ==> InfEntryOk(e, t.store.infs, t.seenInfs, t.infNames, t.store.used))
  {
    hide Run;
    RunLedger(ss, acts, i);
    RunLedger(ss, acts, k);
    HistoryGrows(ss, acts, i, k);
    assert LedgerOk(ss[i].store.used, ss[i].ledgers);
    var m, x := CurrentEntry(ss[i], e);
    OldEntries(ss[k]);
    assert ss[k].ledgers[m][x] == e;
    hide LedgerInv, TrainEntryOk, InfEntryOk;
  }

  /**
   No live entry is ever removed: an entry once in the ledger is still there for as long as its train
   job exists, is not finished and is in the epoch of the entry, whatever outdated copies anybody
   worked from; and it charges exactly the job's demand.
   */
  lemma LiveTrainEntryStays(ss: seq<System>, acts: seq<Action>, i: nat, k: nat, e: Entry)
    requires Run(ss, acts) && i <= k < |ss| && e in ss[i].store.used && e.kind == Train
    requires e.name in ss[k].store.trains && !TerminalTrain(ss[k].store.trains[e.name].status.phase)
    requires e.requeueCount == ss[k].store.trains[e.name].status.requeueCount
    ensures e in ss[k].store.used && e.res == TrainDemand(ss[k].store.trains[e.name].spec)
  {
    hide Run, LedgerInv;
    RunLedger(ss, acts, k);
    LatestIsStored(ss[k], e.name);
    HistoryEntryOk(ss, acts, i, k, e);
  }

  lemma LiveInferenceEntryStays(ss: seq<System>, acts: seq<Action>, i: nat, k: nat, e: Entry)
    requires Run(ss, acts) && i <= k < |ss| && e in ss[i].store.used && e.kind == Inference
    requires e.name in ss[k].store.infs && ss[k].store.infs[e.name].phase != InfFailed
    ensures e in ss[k].store.used && e.res == ss[k].store.infs[e.name].spec.requests
  {
    hide Run, LedgerInv;
    HistoryEntryOk(ss, acts, i, k, e);
  }

  ghost predicate OwnEntry(used: seq<Entry>, j: TrainJob, i: int) {
    0 <= i < |used| && used[i].name == j.name && used[i].kind == Train
  }

  /**
   RequeueCount is a sound epoch: a job has at most one entry, no entry is ahead of its job, and a
   holding job (a starting one included) has its entry, of exactly its epoch and charged exactly its demand.
   */
  lemma EpochIsSound(ss: seq<System>, acts: seq<Action>, i: nat, n: string)
    requires Run(ss, acts) && i < |ss| && n in ss[i].store.trains
    ensures var j, used := ss[i].store.trains[n], ss[i].store.used;
            && (forall x, y :: OwnEntry(used, j, x) && OwnEntry(used, j, y) ==> x == y)
            && (forall x :: OwnEntry(used, j, x) ==> used[x].requeueCount <= j.status.requeueCount
                                                     && used[x].res == TrainDemand(j.spec))
            && (HoldingTrain(j.status.phase) ==>
                  exists x :: OwnEntry(used, j, x) && used[x].requeueCount == j.status.requeueCount)
  {
    hide Run, LedgerInv;
    RunLedger(ss, acts, i);
    var s := ss[i];
    var j, used := s.store.trains[n], s.store.used;
    LatestIsStored(s, n);
    LedgerBounds(s, "");
    forall x, y | OwnEntry(used, j, x) && OwnEntry(used, j, y) ensures x == y {
      assert Ref(used[x]) == Ref(used[y]);
    }
    forall x | OwnEntry(used, j, x)
      ensures used[x].requeueCount <= j.status.requeueCount && used[x].res == TrainDemand(j.spec)
    {
      UsedTrainEntryOk(s, x);
    }
    if HoldingTrain(j.status.phase) {
      var e := TrainChargeOf(s, n);
      var x :| 0 <= x < |used| && used[x] == e;
      assert OwnEntry(used, j, x);
    }
  }

  /** No step of anybody raises a dimension above the larger of its present charge and the quota. */
  lemma StepNeverOvercommits(s: System, a: Action, r: string)
    requires LedgerInv(s) && Enabled(s, a)
    ensures Total(Apply(s, a).store.used, r) <= Max(Total(s.store.used, r), Amount(s.store.quota, r))
  {
    if a.QueueStep? {
      QueueWriteIsDue(s, a.after);
      LedgerBounds(s, r);
      hide LedgerInv, Enabled, Apply, QueueNext, NonNegativeCharges;
      var pc := s.queuePass;
      if Apply(s, a).store.used != s.store.used {
        PassNeverOvercommits(s.store.quota, s.store.used, pc.classes, pc.trains, pc.infs, pc.after, r);
      }
    } else {
      hide LedgerInv, Enabled, Apply;
      QueueFields(s, a);
    }
  }

  /** If a call of a queue pass changes the ledger, it is the write of a ledger the pass may leave. */
  lemma QueueWriteIsDue(s: System, after: seq<Entry>)
    requires LedgerInv(s) && Enabled(s, QueueStep(after))
    ensures var pc, t := s.queuePass, Apply(s, QueueStep(after));
            t.store.used != s.store.used ==>
              && pc.QWrite? && t.store.used == pc.after
              && QueueNext(s.store.quota, s.store.used, pc.classes, pc.trains, pc.infs, pc.after)
  {
    QueueStepMeans(s, after);
    hide Enabled, Apply, TrainLedger, InfLedger, LedgerOk, QuotaOk, TrainGatesOk, InfGatesOk, QueueNext, TrainViewOk,
      InfViewOk;
  }

  // ---------------------------------------------------------------- pods of deleted train jobs

  /** Every pass over what the cache holds now leaves the entry in the ledger. */
  ghost predicate EveryPassKeeps(s: System, e: Entry) {
    forall classes, after :: QueueNext(s.store.quota, s.store.used, classes, s.seenTrains, s.seenInfs, after)
      ==> e in after
  }

  /**
   A pass keeps an entry exactly if the cache holds its job, a TrainJob that has neither succeeded nor
   failed and is not ahead of the entry, or an InferenceJob that has not failed. No admission brings an
   entry back that the cleanup drops.
   */
  lemma KeptIffSurvives(s: System, e: Entry)
    requires e in s.store.used
    ensures EveryPassKeeps(s, e) <==>
              if e.kind == Train then
                e.name in s.seenTrains
                && var st := s.seenTrains[e.name].status;
                   st.phase != Succeeded && st.phase != Failed && st.requeueCount <= e.requeueCount
              else e.name in s.seenInfs && s.seenInfs[e.name].phase != InfFailed
  {
    hide QueueNext, EveryPassKeeps;
    KeptIfCleanupKeeps(s, e);
  }

  lemma KeptIfCleanupKeeps(s: System, e: Entry)
    requires e in s.store.used
    ensures EveryPassKeeps(s, e) <==> Survives(e, s.seenTrains, s.seenInfs)
  {
    hide Survives, QueueNext;
    if Survives(e, s.seenTrains, s.seenInfs) {
      forall classes, after | QueueNext(s.store.quota, s.store.used, classes, s.seenTrains, s.seenInfs, after)
        ensures e in after
      {
        PassEntries(s.store.quota, s.store.used, classes, s.seenTrains, s.seenInfs, after);
      }
    } else {
      var after := PassExists(s.store.quota, s.store.used, map[], s.seenTrains, s.seenInfs);
      PassEntries(s.store.quota, s.store.used, map[], s.seenTrains, s.seenInfs, after);
      if e in after {
        var h :| Waiting(s.seenTrains, s.seenInfs, h) && e == EntryFor(h);
        WaitingEntrySurvives(s.seenTrains, s.seenInfs, h);
      }
    }
  }

  /**
   When the quota of an unfinished worker pod is safe. In every state of every run, a pass keeps the
   entry its pod is charged to exactly if the job exists, or the cache still holds a copy of it that has
   neither succeeded nor failed and is not ahead of the entry. A TrainJob has no finalizer, so the second half ends as
   soon as the cache notices the deletion, whatever pods are left.
   */
  lemma PodChargeKeptExactly(ss: seq<System>, acts: seq<Action>, i: nat, k: PodKey, e: Entry)
    requires FreshRun(ss, acts) && i < |ss|
    requires k in ss[i].store.workers && !Finished(ss[i].store.workers[k])
    requires e in ss[i].store.used && Ref(e) == JobRef(k.job, Train)
    ensures EveryPassKeeps(ss[i], e)
            <==> k.job in ss[i].store.trains
                 || (k.job in ss[i].seenTrains
                     && var st := ss[i].seenTrains[k.job].status;
                        st.phase != Succeeded && st.phase != Failed && st.requeueCount <= e.requeueCount)
  {
    hide FreshRun, Inv, EveryPassKeeps, QueueNext;
    RunInv(ss, acts, i);
    var s := ss[i];
    KeptIfCleanupKeeps(s, e);
    if k.job in s.store.trains {
      var charge := UnfinishedPodIsCharged(s, k);
      OneEntryEach(s, e, charge);
      CacheKeepsCharge(s, e);
    }
  }

  lemma OneEntryEach(s: System, e: Entry, f: Entry)
    requires Inv(s) && e in s.store.used && f in s.store.used && Ref(e) == Ref(f)
    ensures e == f
  {
    LedgerBounds(s, "");
    hide Inv;
    var x :| 0 <= x < |s.store.used| && s.store.used[x] == e;
    var y :| 0 <= y < |s.store.used| && s.store.used[y] == f;
    assert Ref(s.store.used[x]) == Ref(s.store.used[y]);
  }

  lemma CacheKeepsCharge(s: System, e: Entry)
    requires Inv(s) && e in s.store.used && e.kind == Train && e.name in s.store.trains
    requires T.Matching(e, s.store.trains[e.name]) && DrivingTrain(s.store.trains[e.name].status.phase)
    ensures Survives(e, s.seenTrains, s.seenInfs)
  {
    hide LedgerInv, PodInv, Survives, TrainViewOk, InfViewOk;
    CacheIsView(s);
    LiveTrainEntrySurvives(s, s.seenTrains, s.seenInfs, e);
  }

  /**
   Once the cache shows that a TrainJob has succeeded or failed, every pass releases its charge. The same
   for an InferenceJob that has failed or is gone.
   */
  lemma FinishedJobIsReleased(s: System, classes: map<string, int>, ref: JobRef, after: seq<Entry>)
    requires QueueNext(s.store.quota, s.store.used, classes, s.seenTrains, s.seenInfs, after)
    requires if ref.kind == Train then
               ref.name in s.seenTrains && (s.seenTrains[ref.name].status.phase == Succeeded
                                            || s.seenTrains[ref.name].status.phase == Failed)
             else ref.name !in s.seenInfs || s.seenInfs[ref.name].phase == InfFailed
    ensures !Listed(after, ref)
  {
    PassEntries(s.store.quota, s.store.used, classes, s.seenTrains, s.seenInfs, after);
    forall i | 0 <= i < |after| ensures Ref(after[i]) != ref {
      assert after[i] in after;
      assert KeptOrNew(after[i], s.store.used, s.seenTrains, s.seenInfs);
    }
    hide QueueNext;
  }

  /** Once the cache has noticed a deletion every pass releases the job's entry, whatever pods are left. */
  lemma ForgottenTrainIsReleased(s: System, classes: map<string, int>, n: string, after: seq<Entry>)
    requires QueueNext(s.store.quota, s.store.used, classes, s.seenTrains, s.seenInfs, after) && n !in s.seenTrains
    ensures !Listed(after, JobRef(n, Train))
  {
    PassEntries(s.store.quota, s.store.used, classes, s.seenTrains, s.seenInfs, after);
    forall i | 0 <= i < |after| ensures Ref(after[i]) != JobRef(n, Train) {
      assert after[i] in after;
      assert KeptOrNew(after[i], s.store.used, s.seenTrains, s.seenInfs);
    }
    hide QueueNext;
  }
}
