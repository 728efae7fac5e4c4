/**
 What one pass of the queue reconciler may do to the ledger: drop dead and out-of-epoch entries,
 pick the head of the queued jobs, admit at most that one.
 */
module QueueAdmission {
  import opened Resources
  import opened ClusterTypes

  type Trains = map<string, TrainJob>
  type Infs = map<string, InferenceJob>

  function Ref(e: Entry): JobRef {
    JobRef(e.name, e.kind)
  }

  // ---------------------------------------------------------------- cleanup

  predicate Survives(e: Entry, trains: Trains, infs: Infs) {
    match e.kind
    case Train =>
      e.name in trains && !TerminalTrain(trains[e.name].status.phase)
      && trains[e.name].status.requeueCount <= e.requeueCount
    case Inference =>
      e.name in infs && infs[e.name].phase != InfFailed
  }

  function Clean(used: seq<Entry>, trains: Trains, infs: Infs): seq<Entry> {
    if used == [] then []
    else
      var front := Clean(used[..|used| - 1], trains, infs);
      var e := used[|used| - 1];
      if Survives(e, trains, infs) then front + [e] else front
  }

  /** What the ledger charges on dimension `r`. */
  function Total(used: seq<Entry>, r: string): int {
    if used == [] then 0 else Total(used[..|used| - 1], r) + Amount(used[|used| - 1].res, r)
  }

  predicate Unique(used: seq<Entry>) {
    forall i, j :: 0 <= i < j < |used| ==> Ref(used[i]) != Ref(used[j])
  }

  predicate NonNegativeCharges(used: seq<Entry>) {
    forall i :: 0 <= i < |used| ==> NonNegative(used[i].res)
  }

  predicate Listed(used: seq<Entry>, ref: JobRef) {
    exists i :: 0 <= i < |used| && Ref(used[i]) == ref
  }

  // ---------------------------------------------------------------- the queued jobs and their order

  datatype QueuedJob = QueuedJob(
    name: string, kind: JobType, res: ResourceList, priorityClass: string, created: int, requeueCount: nat)

  function QueuedTrain(j: TrainJob): QueuedJob {
    QueuedJob(j.name, Train, TrainDemand(j.spec), j.spec.priorityClass, j.created, j.status.requeueCount)
  }

  function QueuedInference(j: InferenceJob): QueuedJob {
    QueuedJob(j.name, Inference, j.spec.requests, j.spec.priorityClass, j.created, 0)
  }

  predicate Waiting(trains: Trains, infs: Infs, q: QueuedJob) {
    match q.kind
    case Train =>
      q.name in trains && trains[q.name].status.phase == Queued && q == QueuedTrain(trains[q.name])
    case Inference =>
      q.name in infs && infs[q.name].phase == InfQueued && q == QueuedInference(infs[q.name])
  }

  /** The value of a priority class; an unknown class counts as 0. */
  function Priority(classes: map<string, int>, q: QueuedJob): int {
    if q.priorityClass in classes then classes[q.priorityClass] else 0
  }

  /** The comparator handed to the sort: higher priority first, then the older job. */
  predicate Before(classes: map<string, int>, a: QueuedJob, b: QueuedJob) {
    if Priority(classes, a) == Priority(classes, b) then a.created < b.created
    else Priority(classes, a) > Priority(classes, b)
  }

  predicate Tied(classes: map<string, int>, a: QueuedJob, b: QueuedJob) {
    !Before(classes, a, b) && !Before(classes, b, a)
  }

  /** `h` is waiting and no waiting job beats it. */
  ghost predicate Head(classes: map<string, int>, trains: Trains, infs: Infs, h: QueuedJob) {
    && Waiting(trains, infs, h)
    && forall q :: Waiting(trains, infs, q) ==> !Before(classes, q, h)
  }

  lemma ComparatorIsStrictWeakOrder(classes: map<string, int>, a: QueuedJob, b: QueuedJob, c: QueuedJob)
    ensures !Before(classes, a, a)
    ensures Before(classes, a, b) ==> !Before(classes, b, a)
    ensures Before(classes, a, b) && Before(classes, b, c) ==> Before(classes, a, c)
    ensures Tied(classes, a, b) && Tied(classes, b, c) ==> Tied(classes, a, c)
    ensures Before(classes, a, b) ==> Before(classes, a, c) || Before(classes, c, b)
    ensures Tied(classes, a, b)
            <==> Amount(classes, a.priorityClass) == Amount(classes, b.priorityClass) && a.created == b.created
  {
  }

  // ---------------------------------------------------------------- admission

  /** What is left of the quota on dimension `r` once the ledger is charged. */
  function Left(quota: ResourceList, used: seq<Entry>, r: string): int {
    Amount(quota, r) - Total(used, r)
  }

  predicate Fits(quota: ResourceList, used: seq<Entry>, need: ResourceList) {
    forall r :: r in need ==> need[r] <= Left(quota, used, r)
  }

  function EntryFor(q: QueuedJob): Entry {
    Entry(q.name, q.kind, q.res, q.requeueCount)
  }

  function Admit(quota: ResourceList, used: seq<Entry>, h: QueuedJob): seq<Entry> {
    if Fits(quota, used, h.res) && !Listed(used, JobRef(h.name, h.kind)) then used + [EntryFor(h)] else used
  }

  /** The ledgers one pass may leave; which of several tied heads it takes is open. */
  ghost predicate QueueNext(quota: ResourceList, used: seq<Entry>, classes: map<string, int>,
                            trains: Trains, infs: Infs, after: seq<Entry>)
  {
    var kept := Clean(used, trains, infs);
    if exists q :: Waiting(trains, infs, q)
    then exists h :: Head(classes, trains, infs, h) && after == Admit(quota, kept, h)
    else after == kept
  }

  // ---------------------------------------------------------------- a pass, call by call

  /** Where a queue pass stands: what it has read so far, and at last the ledger it is going to write. */
  datatype QueuePc =
    | QIdle
    | QListTrains(quota: ResourceList, used: seq<Entry>)
    | QListInfs(quota: ResourceList, used: seq<Entry>, trains: Trains)
    | QListClasses(quota: ResourceList, used: seq<Entry>, trains: Trains, infs: Infs)
    | QWrite(quota: ResourceList, used: seq<Entry>, classes: map<string, int>, trains: Trains, infs: Infs,
             after: seq<Entry>)

  /** What a call of a queue pass may read: the stored queue and classes, and the jobs its cache holds. */
  datatype QueueReads = QueueReads(quota: ResourceList, used: seq<Entry>, classes: map<string, int>, trains: Trains,
                                   infs: Infs)

  /** A pass that has read everything goes on to write the ledger it has computed, if that is another one. */
  function Decided(quota: ResourceList, used: seq<Entry>, classes: map<string, int>, trains: Trains, infs: Infs,
                   after: seq<Entry>): QueuePc
  {
    if after == used then QIdle else QWrite(quota, used, classes, trains, infs, after)
  }

  ghost predicate SomeWaiting(trains: Trains, infs: Infs) {
    exists q :: Waiting(trains, infs, q)
  }

  /** The call that makes the pass choose: `after` is one of the ledgers it may leave. */
  ghost predicate ChoiceOk(pc: QueuePc, seen: QueueReads, after: seq<Entry>) {
    match pc
    case QListInfs(quota, used, trains) =>
      !SomeWaiting(trains, seen.infs) ==> QueueNext(quota, used, map[], trains, seen.infs, after)
    case QListClasses(quota, used, trains, infs) => QueueNext(quota, used, seen.classes, trains, infs, after)
    case _ => true
  }

  /** One call: where the pass stands then, and the ledger it has written, if it has. */
  ghost function QueueCall(pc: QueuePc, seen: QueueReads, after: seq<Entry>): (QueuePc, Option<seq<Entry>>) {
    match pc
    case QIdle => (QListTrains(seen.quota, seen.used), None)
    case QListTrains(quota, used) => (QListInfs(quota, used, seen.trains), None)
    case QListInfs(quota, used, trains) =>
      // priority classes are listed only if somebody is waiting
      (if SomeWaiting(trains, seen.infs) then QListClasses(quota, used, trains, seen.infs)
       else Decided(quota, used, map[], trains, seen.infs, after), None)
    case QListClasses(quota, used, trains, infs) => (Decided(quota, used, seen.classes, trains, infs, after), None)
    case QWrite(quota, used, _, _, _, next) =>
      // compare-and-swap on the queue as it was read
      (QIdle, if seen.quota == quota && seen.used == used then Some(next) else None)
  }

  // ---------------------------------------------------------------- there is always a head

  /** Every waiting job, listed by the objects they are made from. */
  function WaitingJobs(trains: Trains, infs: Infs): set<QueuedJob> {
    (set n | n in trains && trains[n].name == n && trains[n].status.phase == Queued :: QueuedTrain(trains[n]))
    + (set n | n in infs && infs[n].name == n && infs[n].phase == InfQueued :: QueuedInference(infs[n]))
  }

  lemma {:induction false} BestOf(classes: map<string, int>, jobs: set<QueuedJob>) returns (h: QueuedJob)
    requires jobs != {}
    ensures h in jobs && forall q :: q in jobs ==> !Before(classes, q, h)
    decreases |jobs|
  {
    h :| h in jobs;
    var rest := jobs - {h};
    if rest != {} {
      var other := BestOf(classes, rest);
      if Before(classes, other, h) {
        h := other;
      }
    }
    assert forall q :: q in jobs ==> q in rest || q in jobs - rest;
  }

  /** Whenever somebody waits a pass has a head to pick, so it can always go through. */
  lemma PassExists(quota: ResourceList, used: seq<Entry>, classes: map<string, int>, trains: Trains, infs: Infs)
    returns (after: seq<Entry>)
    ensures QueueNext(quota, used, classes, trains, infs, after)
  {
    after := Clean(used, trains, infs);
    if q :| Waiting(trains, infs, q) {
      assert q in WaitingJobs(trains, infs);
      var h := BestOf(classes, WaitingJobs(trains, infs));
      assert Head(classes, trains, infs, h) by {
        forall x | Waiting(trains, infs, x) ensures !Before(classes, x, h) {
          assert x in WaitingJobs(trains, infs);
        }
      }
      after := Admit(quota, after, h);
    }
  }

  // ---------------------------------------------------------------- facts about cleanup and totals

  lemma {:induction false} CleanKeepsSurvivors(used: seq<Entry>, trains: Trains, infs: Infs)
    ensures |Clean(used, trains, infs)| <= |used|
    ensures forall e :: e in Clean(used, trains, infs) <==> e in used && Survives(e, trains, infs)
    ensures |Clean(used, trains, infs)| == |used| <==> forall e :: e in used ==> Survives(e, trains, infs)
    ensures |Clean(used, trains, infs)| == |used| ==> Clean(used, trains, infs) == used
  {
    if used != [] {
      var front, e := used[..|used| - 1], used[|used| - 1];
      CleanKeepsSurvivors(front, trains, infs);
      assert used == front + [e];
      forall x ensures x in used <==> x in front || x == e {}
    }
  }

  lemma {:induction false} CleanKeepsUnique(used: seq<Entry>, trains: Trains, infs: Infs)
    requires Unique(used)
    ensures Unique(Clean(used, trains, infs))
  {
    if used != [] {
      var front, e := used[..|used| - 1], used[|used| - 1];
      CleanKeepsUnique(front, trains, infs);
      CleanKeepsSurvivors(front, trains, infs);
      var kept := Clean(front, trains, infs);
      forall i | 0 <= i < |kept| ensures Ref(kept[i]) != Ref(e) {
        assert kept[i] in front;
      }
    }
  }

  /** Dropping entries with non-negative charges never raises a total. */
  lemma {:induction false} CleanLowersTotal(used: seq<Entry>, trains: Trains, infs: Infs, r: string)
    requires NonNegativeCharges(used)
    ensures NonNegativeCharges(Clean(used, trains, infs))
    ensures Total(Clean(used, trains, infs), r) <= Total(used, r)
  {
    if used != [] {
      CleanLowersTotal(used[..|used| - 1], trains, infs, r);
      AppendTotal(Clean(used[..|used| - 1], trains, infs), used[|used| - 1], r);
    }
  }

  lemma AppendTotal(used: seq<Entry>, e: Entry, r: string)
    ensures Total(used + [e], r) == Total(used, r) + Amount(e.res, r)
  {
    assert (used + [e])[..|used|] == used;
  }

  lemma {:induction false} TotalNonNegative(used: seq<Entry>, r: string)
    requires NonNegativeCharges(used)
    ensures 0 <= Total(used, r)
  {
    if used != [] {
      TotalNonNegative(used[..|used| - 1], r);
    }
  }

  // ---------------------------------------------------------------- what a pass guarantees

  /**
   A pass keeps exactly the surviving entries, in order, and appends at most one entry. The appended
   job was waiting, nothing waiting beats it, it was not listed, and it fitted in what was left.
   */
  lemma AtMostTheHeadIsAdmitted(quota: ResourceList, used: seq<Entry>, classes: map<string, int>,
                                trains: Trains, infs: Infs, after: seq<Entry>)
    requires QueueNext(quota, used, classes, trains, infs, after)
    ensures var kept := Clean(used, trains, infs);
            after == kept
            || exists h :: Head(classes, trains, infs, h) && after == kept + [EntryFor(h)]
                           && !Listed(kept, JobRef(h.name, h.kind)) && Fits(quota, kept, h.res)
  {
  }

  /** What the entries with a positive charge add up to on dimension `r`. */
  function Positive(used: seq<Entry>, r: string): int {
    if used == [] then 0 else Positive(used[..|used| - 1], r) + Max(0, Amount(used[|used| - 1].res, r))
  }

  lemma {:induction false} CleanWithinPositive(used: seq<Entry>, trains: Trains, infs: Infs, r: string)
    ensures Total(Clean(used, trains, infs), r) <= Positive(used, r)
  {
    if used != [] {
      CleanWithinPositive(used[..|used| - 1], trains, infs, r);
      AppendTotal(Clean(used[..|used| - 1], trains, infs), used[|used| - 1], r);
    }
  }

  lemma {:induction false} PositiveIsTotal(used: seq<Entry>, r: string)
    requires NonNegativeCharges(used)
    ensures Positive(used, r) == Total(used, r)
  {
    if used != [] {
      PositiveIsTotal(used[..|used| - 1], r);
    }
  }

  lemma PassWithinBound(quota: ResourceList, used: seq<Entry>, classes: map<string, int>,
                        trains: Trains, infs: Infs, after: seq<Entry>, r: string)
    requires Positive(used, r) <= Max(Total(used, r), Amount(quota, r))
    requires QueueNext(quota, used, classes, trains, infs, after)
    ensures Total(after, r) <= Max(Total(used, r), Amount(quota, r))
  {
    var kept := Clean(used, trains, infs);
    CleanWithinPositive(used, trains, infs, r);
    if after != kept {
      var h :| Head(classes, trains, infs, h) && after == Admit(quota, kept, h);
      AppendTotal(kept, EntryFor(h), r);
    }
  }

  /**
   On every dimension a pass leaves at most the larger of what was charged before and the quota.
   In particular it never raises a dimension that a lowered quota has left over-committed.
   */
  lemma PassNeverOvercommits(quota: ResourceList, used: seq<Entry>, classes: map<string, int>,
                             trains: Trains, infs: Infs, after: seq<Entry>, r: string)
    requires NonNegativeCharges(used)
    requires QueueNext(quota, used, classes, trains, infs, after)
    ensures Total(after, r) <= Max(Total(used, r), Amount(quota, r))
    ensures Total(used, r) > Amount(quota, r) ==> Total(after, r) <= Total(used, r)
  {
    PositiveIsTotal(used, r);
    PassWithinBound(quota, used, classes, trains, infs, after, r);
  }

  /** Whatever the jobs and the classes are, a pass over this ledger stays within its charge and the quota. */
  ghost predicate NeverOvercommits(quota: ResourceList, used: seq<Entry>, r: string) {
    forall classes, trains, infs, after :: QueueNext(quota, used, classes, trains, infs, after)
      ==> Total(after, r) <= Max(Total(used, r), Amount(quota, r))
  }

  /**
   Charges may be negative, for nothing in the API forbids a negative worldSize or request. Exactly
   which ledgers a pass can then lift over the quota: those whose positive charges alone exceed both
   the quota and the present total.
   */
  lemma OvercommitsExactly(quota: ResourceList, used: seq<Entry>, r: string)
    requires Unique(used)
    ensures NeverOvercommits(quota, used, r) <==> Positive(used, r) <= Max(Total(used, r), Amount(quota, r))
  {
    if Positive(used, r) <= Max(Total(used, r), Amount(quota, r)) {
      forall classes, trains, infs, after | QueueNext(quota, used, classes, trains, infs, after)
        ensures Total(after, r) <= Max(Total(used, r), Amount(quota, r))
      {
        PassWithinBound(quota, used, classes, trains, infs, after, r);
      }
    } else {
      var trains, infs := RunningTrains(used, r), RunningInferences(used, r);
      NegativeEntriesGo(used, used, r);
      assert forall q :: !Waiting(trains, infs, q);
      assert QueueNext(quota, used, map[], trains, infs, Clean(used, trains, infs));
    }
  }

  function ChargedNames(used: seq<Entry>, kind: JobType, r: string): set<string> {
    set i | 0 <= i < |used| && used[i].kind == kind && 0 < Amount(used[i].res, r) :: used[i].name
  }

  /** Jobs of which just the entries with a positive charge survive. */
  function RunningTrains(used: seq<Entry>, r: string): Trains {
    map n | n in ChargedNames(used, Train, r)
      :: TrainJob(n, 0, TrainSpec(0, 0, 0, map[], ""), TrainStatus(Running, 0, 0, None, 0, 0))
  }

  function RunningInferences(used: seq<Entry>, r: string): Infs {
    map n | n in ChargedNames(used, Inference, r)
      :: InferenceJob(n, 0, InferenceSpec(0, map[], ""), InfRunning, [], false, None)
  }

  lemma {:induction false} NegativeEntriesGo(all: seq<Entry>, used: seq<Entry>, r: string)
    requires Unique(all) && used <= all
    ensures Total(Clean(used, RunningTrains(all, r), RunningInferences(all, r)), r) == Positive(used, r)
  {
    if used != [] {
      var trains, infs, front, e := RunningTrains(all, r), RunningInferences(all, r), used[..|used| - 1],
        used[|used| - 1];
      NegativeEntriesGo(all, front, r);
      assert all[|used| - 1] == e;
      assert Survives(e, trains, infs) <==> 0 < Amount(e.res, r) by {
        if e.name in ChargedNames(all, e.kind, r) {
          var i :| 0 <= i < |all| && all[i].kind == e.kind && 0 < Amount(all[i].res, r) && all[i].name == e.name;
          assert Ref(all[i]) == Ref(e);
        }
      }
      AppendTotal(Clean(front, trains, infs), e, r);
    }
  }

  /**
   Such a ledger: dropping the entry of a deleted job with worldSize -1 lifts the total over the quota.
   */
  lemma NegativeDemandOvercommits() returns (quota: ResourceList, used: seq<Entry>, trains: Trains, after: seq<Entry>)
    ensures QueueNext(quota, used, map[], trains, map[], after)
    ensures Total(used, "gpu") <= Amount(quota, "gpu") < Total(after, "gpu")
  {
    quota := map["gpu" := 1];
    var minus, two := TrainSpec(-1, 0, 0, map["gpu" := 1], ""), TrainSpec(2, 0, 0, map["gpu" := 1], "");
    var gone, stays := Entry("a", Train, TrainDemand(minus), 0), Entry("b", Train, TrainDemand(two), 0);
    trains := map["b" := TrainJob("b", 0, two, TrainStatus(Running, 0, 0, None, 0, 0))];
    used, after := [gone, stays], [stays];
    TotalsOfTwo(gone, stays, "gpu");
    CleanOfTwo(gone, stays, trains, map[]);
    assert Amount(gone.res, "gpu") == -1 && Amount(stays.res, "gpu") == 2;
    hide Total, Clean, Amount;
  }

  lemma TotalsOfTwo(a: Entry, b: Entry, r: string)
    ensures Total([b], r) == Amount(b.res, r)
    ensures Total([a, b], r) == Amount(a.res, r) + Amount(b.res, r)
  {
    AppendTotal([], a, r);
    AppendTotal([], b, r);
    AppendTotal([a], b, r);
    assert [] + [a] == [a] && [] + [b] == [b] && [a] + [b] == [a, b];
  }

  lemma CleanOfTwo(a: Entry, b: Entry, trains: Trains, infs: Infs)
    requires !Survives(a, trains, infs) && Survives(b, trains, infs)
    ensures Clean([a, b], trains, infs) == [b]
  {
    assert [a, b][..1] == [a] && [a][..0] == [];
    assert Clean([a], trains, infs) == [];
  }

  /** A waiting job's own entry survives cleanup. */
  lemma WaitingEntrySurvives(trains: Trains, infs: Infs, h: QueuedJob)
    requires Waiting(trains, infs, h)
    ensures Survives(EntryFor(h), trains, infs)
  {
  }

  /** The pass needs a write exactly when it dropped or appended an entry. */
  lemma UpdateFlagIsExact(quota: ResourceList, used: seq<Entry>, trains: Trains, infs: Infs, h: QueuedJob)
    requires Waiting(trains, infs, h)
    ensures var kept := Clean(used, trains, infs);
            Admit(quota, kept, h) != used <==> |kept| < |used| || Admit(quota, kept, h) != kept
  {
    var kept := Clean(used, trains, infs);
    var after := Admit(quota, kept, h);
    CleanKeepsSurvivors(used, trains, infs);
    if after != kept {
      var e := EntryFor(h);
      WaitingEntrySurvives(trains, infs, h);
      assert e !in kept by {
        if i :| 0 <= i < |kept| && kept[i] == e {
          assert Ref(kept[i]) == JobRef(h.name, h.kind);
        }
      }
      assert e !in used;
      assert after[|kept|] == e;
    }
  }

  /** Cleanup is idempotent, also after an admission. */
  lemma CleanAfterPass(quota: ResourceList, used: seq<Entry>, classes: map<string, int>,
                       trains: Trains, infs: Infs, after: seq<Entry>)
    requires QueueNext(quota, used, classes, trains, infs, after)
    ensures Clean(after, trains, infs) == after
  {
    var kept := Clean(used, trains, infs);
    CleanKeepsSurvivors(used, trains, infs);
    AtMostTheHeadIsAdmitted(quota, used, classes, trains, infs, after);
    forall e | e in after ensures Survives(e, trains, infs) {
      if e !in kept {
        var h :| Head(classes, trains, infs, h) && after == kept + [EntryFor(h)];
        assert e == EntryFor(h);
        WaitingEntrySurvives(trains, infs, h);
      }
    }
    CleanKeepsSurvivors(after, trains, infs);
  }

  /**
   On unchanged jobs a second pass changes nothing, whichever heads the two passes take, exactly when
   every job tied for the first place with another one is already listed or does not fit behind it.
   */
  lemma SecondPassChangesNothing(quota: ResourceList, used: seq<Entry>, classes: map<string, int>,
                                 trains: Trains, infs: Infs)
    ensures SecondPassIdle(quota, used, classes, trains, infs)
            <==> TiesAreSettled(quota, Clean(used, trains, infs), classes, trains, infs)
  {
    var kept := Clean(used, trains, infs);
    if TiesAreSettled(quota, kept, classes, trains, infs) {
      forall once, twice | TwoPasses(quota, used, classes, trains, infs, once, twice) ensures twice == once {
        SettledTiesIdle(quota, used, classes, trains, infs, once, twice);
      }
    } else {
      var a, b :| Head(classes, trains, infs, a) && Head(classes, trains, infs, b) && a != b
                  && !Listed(kept, JobRef(b.name, b.kind)) && Fits(quota, Admit(quota, kept, a), b.res);
      OpenTieMoves(quota, used, classes, trains, infs, a, b);
    }
  }

  ghost predicate TwoPasses(quota: ResourceList, used: seq<Entry>, classes: map<string, int>,
                            trains: Trains, infs: Infs, once: seq<Entry>, twice: seq<Entry>)
  {
    && QueueNext(quota, used, classes, trains, infs, once)
    && QueueNext(quota, once, classes, trains, infs, twice)
  }

  ghost predicate SecondPassIdle(quota: ResourceList, used: seq<Entry>, classes: map<string, int>,
                                 trains: Trains, infs: Infs)
  {
    forall once, twice :: TwoPasses(quota, used, classes, trains, infs, once, twice) ==> twice == once
  }

  lemma SettledTiesIdle(quota: ResourceList, used: seq<Entry>, classes: map<string, int>,
                        trains: Trains, infs: Infs, once: seq<Entry>, twice: seq<Entry>)
    requires TiesAreSettled(quota, Clean(used, trains, infs), classes, trains, infs)
    requires TwoPasses(quota, used, classes, trains, infs, once, twice)
    ensures twice == once
  {
    var kept := Clean(used, trains, infs);
    CleanAfterPass(quota, used, classes, trains, infs, once);
    if exists q :: Waiting(trains, infs, q) {
      var a :| Head(classes, trains, infs, a) && once == Admit(quota, kept, a);
      var b :| Head(classes, trains, infs, b) && twice == Admit(quota, once, b);
      AdmitLists(quota, kept, a, b);
    }
  }

  lemma OpenTieMoves(quota: ResourceList, used: seq<Entry>, classes: map<string, int>,
                     trains: Trains, infs: Infs, a: QueuedJob, b: QueuedJob)
    requires Head(classes, trains, infs, a) && Head(classes, trains, infs, b) && a != b
    requires !Listed(Clean(used, trains, infs), JobRef(b.name, b.kind))
    requires Fits(quota, Admit(quota, Clean(used, trains, infs), a), b.res)
    ensures !SecondPassIdle(quota, used, classes, trains, infs)
  {
    var kept := Clean(used, trains, infs);
    var once := Admit(quota, kept, a);
    assert QueueNext(quota, used, classes, trains, infs, once);
    CleanAfterPass(quota, used, classes, trains, infs, once);
    AdmitLists(quota, kept, a, b);
    var twice := Admit(quota, once, b);
    assert twice == once + [EntryFor(b)];
    assert QueueNext(quota, once, classes, trains, infs, twice);
    assert TwoPasses(quota, used, classes, trains, infs, once, twice);
  }

  ghost predicate TiesAreSettled(quota: ResourceList, kept: seq<Entry>, classes: map<string, int>, trains: Trains,
                                 infs: Infs)
  {
    forall a, b :: Head(classes, trains, infs, a) && Head(classes, trains, infs, b) && a != b
      ==> Listed(kept, JobRef(b.name, b.kind)) || !Fits(quota, Admit(quota, kept, a), b.res)
  }

  /** Admitting `a` lists nobody else, and keeps everybody listed. */
  lemma AdmitLists(quota: ResourceList, kept: seq<Entry>, a: QueuedJob, b: QueuedJob)
    ensures Listed(Admit(quota, kept, a), JobRef(b.name, b.kind))
            <==> Listed(kept, JobRef(b.name, b.kind))
                 || (JobRef(a.name, a.kind) == JobRef(b.name, b.kind) && Fits(quota, kept, a.res))
  {
    var after := Admit(quota, kept, a);
    forall i | 0 <= i < |kept| ensures after[i] == kept[i] {}
    if after != kept {
      assert Ref(after[|kept|]) == JobRef(a.name, a.kind);
    }
    if i :| 0 <= i < |kept| && Ref(kept[i]) == JobRef(b.name, b.kind) {
      assert Ref(after[i]) == JobRef(b.name, b.kind);
    }
  }

  /** Without ties in priority and age two passes leave what one leaves. */
  lemma WithoutTiesSecondPassIdle(quota: ResourceList, used: seq<Entry>, classes: map<string, int>,
                                  trains: Trains, infs: Infs)
    requires forall a, b :: Waiting(trains, infs, a) && Waiting(trains, infs, b) && a != b ==> !Tied(classes, a, b)
    ensures SecondPassIdle(quota, used, classes, trains, infs)
  {
    forall a, b | Head(classes, trains, infs, a) && Head(classes, trains, infs, b) ensures a == b {
      HeadsAreTied(classes, trains, infs, a, b);
    }
    hide Head, Waiting, Tied, Listed, Fits, Admit, SecondPassIdle;
    SecondPassChangesNothing(quota, used, classes, trains, infs);
  }

  lemma HeadsAreTied(classes: map<string, int>, trains: Trains, infs: Infs, a: QueuedJob, b: QueuedJob)
    requires Head(classes, trains, infs, a) && Head(classes, trains, infs, b)
    ensures Waiting(trains, infs, a) && Waiting(trains, infs, b) && Tied(classes, a, b)
  {
    hide Waiting, Before;
  }

  /** With a tie for the first place the second pass may admit the other job. */
  lemma TiedHeadsBreakTheFixedPoint() returns (trains: Trains, once: seq<Entry>, twice: seq<Entry>)
    ensures TwoPasses(map[], [], map[], trains, map[], once, twice)
    ensures twice != once
  {
    var spec := TrainSpec(1, 0, 0, map[], "");
    var status := TrainStatus(Queued, 0, 0, None, 0, 0);
    var a, b := TrainJob("a", 0, spec, status), TrainJob("b", 0, spec, status);
    trains := map["a" := a, "b" := b];
    once := [EntryFor(QueuedTrain(a))];
    twice := once + [EntryFor(QueuedTrain(b))];
    assert Head(map[], trains, map[], QueuedTrain(a)) && Head(map[], trains, map[], QueuedTrain(b));
    assert Admit(map[], [], QueuedTrain(a)) == once;
    assert once[..0] == [];
    assert Clean(once, trains, map[]) == once;
    assert !Listed(once, JobRef("b", Train));
    assert Admit(map[], once, QueuedTrain(b)) == twice;
  }
}
