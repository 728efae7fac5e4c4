/**
 The TrainJob state machine: what one reconciler pass computes, split at every API call, so that a
 pass can be interleaved with anything and can be cut short after any call.
 */
module TrainLifecycle {
  import opened Resources
  import opened ClusterTypes
  import opened Names

  type Workers = map<PodKey, WorkerPod>

  // ---------------------------------------------------------------- counting the gang

  datatype WorkerSummary = WorkerSummary(total: nat, running: nat, ready: nat, succeeded: nat,
                                         failedPod: Option<PodKey>)

  const EMPTY_SUMMARY := WorkerSummary(0, 0, 0, 0, None)

  function CountPod(sum: WorkerSummary, key: PodKey, pod: WorkerPod): WorkerSummary {
    WorkerSummary(
      sum.total + 1,
      if pod.phase == PodRunning then sum.running + 1 else sum.running,
      if pod.ready then sum.ready + 1 else sum.ready,
      if pod.phase == PodSucceeded then sum.succeeded + 1 else sum.succeeded,
      if pod.phase == PodFailed && sum.failedPod.None? then Some(key) else sum.failedPod)
  }

  function Aggregate(workers: Workers, items: seq<PodKey>): WorkerSummary
    requires forall k :: k in items ==> k in workers
  {
    if items == [] then EMPTY_SUMMARY
    else
      var last := items[|items| - 1];
      CountPod(Aggregate(workers, items[..|items| - 1]), last, workers[last])
  }

  function NextPhase(worldSize: int, sum: WorkerSummary): TrainPhase {
    if sum.succeeded == worldSize then Succeeded
    else if sum.total < worldSize then Starting
    else if sum.running + sum.succeeded < worldSize then Starting
    else Running
  }

  predicate ShouldRetry(job: TrainJob, sum: WorkerSummary) {
    sum.failedPod.Some? && job.status.attempt < job.spec.retryLimit
  }

  function AttemptPods(workers: Workers, job: string, attempt: nat): set<PodKey> {
    set k | k in workers && k.job == job && k.attempt == attempt
  }

  /** `items` lists the set `s` in some order, without repetition. */
  ghost predicate Listing(items: seq<PodKey>, s: set<PodKey>) {
    && (forall k :: k in items <==> k in s)
    && (forall i, j :: 0 <= i < j < |items| ==> items[i] != items[j])
  }

  function InPhase(workers: Workers, items: seq<PodKey>, p: PodPhase): set<PodKey> {
    set k | k in items && k in workers && workers[k].phase == p
  }

  function ReadyOnes(workers: Workers, items: seq<PodKey>): set<PodKey> {
    set k | k in items && k in workers && workers[k].ready
  }

  lemma ReadyAppend(workers: Workers, front: seq<PodKey>, last: PodKey)
    requires last in workers && last !in front
    ensures ReadyOnes(workers, front + [last])
            == ReadyOnes(workers, front) + (if workers[last].ready then {last} else {})
    ensures last !in ReadyOnes(workers, front)
  {
  }

  lemma ReadyEmpty(workers: Workers)
    ensures ReadyOnes(workers, []) == {}
  {
  }

  lemma InPhaseAppend(workers: Workers, front: seq<PodKey>, last: PodKey, p: PodPhase)
    requires last in workers && last !in front
    ensures InPhase(workers, front + [last], p)
            == InPhase(workers, front, p) + (if workers[last].phase == p then {last} else {})
  {
  }

  lemma NotInPhase(workers: Workers, items: seq<PodKey>, k: PodKey)
    requires k !in items
    ensures forall p :: k !in InPhase(workers, items, p)
  {
  }

  lemma InPhaseEmpty(workers: Workers, p: PodPhase)
    ensures InPhase(workers, [], p) == {}
  {
  }

  /** No failed pod is listed before this one. */
  ghost predicate FirstFailed(workers: Workers, items: seq<PodKey>, k: PodKey) {
    exists i :: 0 <= i < |items| && items[i] == k
                && forall j :: 0 <= j < i && items[j] in workers ==> workers[items[j]].phase != PodFailed
  }

  lemma FirstOfMore(workers: Workers, front: seq<PodKey>, last: PodKey, k: PodKey)
    ensures FirstFailed(workers, front, k) ==> FirstFailed(workers, front + [last], k)
    ensures (forall x :: x in front && x in workers ==> workers[x].phase != PodFailed)
            ==> FirstFailed(workers, front + [last], last)
  {
    var items := front + [last];
    if FirstFailed(workers, front, k) {
      var i :| 0 <= i < |front| && front[i] == k
               && forall j :: 0 <= j < i && front[j] in workers ==> workers[front[j]].phase != PodFailed;
      assert items[i] == k;
      forall j | 0 <= j < i && items[j] in workers ensures workers[items[j]].phase != PodFailed {
        assert items[j] == front[j];
      }
    }
    assert items[|front|] == last;
    if forall x :: x in front && x in workers ==> workers[x].phase != PodFailed {
      forall j | 0 <= j < |front| && items[j] in workers ensures workers[items[j]].phase != PodFailed {
        assert items[j] == front[j] && front[j] in front;
      }
    }
  }

  lemma NoneInPhase(workers: Workers, items: seq<PodKey>, p: PodPhase)
    requires InPhase(workers, items, p) == {}
    ensures forall x :: x in items && x in workers ==> workers[x].phase != p
  {
    forall x | x in items && x in workers ensures workers[x].phase != p {
      assert x in InPhase(workers, items, p) <==> workers[x].phase == p;
    }
  }

  /** The loop counters are the sizes of the sets they are meant to count; the failed pod kept is the first listed. */
  lemma {:induction false} AggregateCounts(workers: Workers, items: seq<PodKey>)
    requires forall k :: k in items ==> k in workers
    requires forall i, j :: 0 <= i < j < |items| ==> items[i] != items[j]
    ensures var sum := Aggregate(workers, items);
            && sum.total == |items|
            && sum.running == |InPhase(workers, items, PodRunning)|
            && sum.succeeded == |InPhase(workers, items, PodSucceeded)|
            && sum.ready == |ReadyOnes(workers, items)|
            && (sum.failedPod.Some? <==> InPhase(workers, items, PodFailed) != {})
            && (sum.failedPod.Some? ==> sum.failedPod.value in InPhase(workers, items, PodFailed))
            && (sum.failedPod.Some? ==> FirstFailed(workers, items, sum.failedPod.value))
  {
    hide InPhase, ReadyOnes, FirstFailed;
    ReadyEmpty(workers);
    InPhaseEmpty(workers, PodRunning);
    InPhaseEmpty(workers, PodSucceeded);
    InPhaseEmpty(workers, PodFailed);
    if items != [] {
      var front, last := items[..|items| - 1], items[|items| - 1];
      assert items == front + [last];
      assert last !in front;
      AggregateCounts(workers, front);
      NotInPhase(workers, front, last);
      ReadyAppend(workers, front, last);
      var sum := Aggregate(workers, front);
      if sum.failedPod.Some? {
        FirstOfMore(workers, front, last, sum.failedPod.value);
      } else {
        NoneInPhase(workers, front, PodFailed);
        FirstOfMore(workers, front, last, last);
      }
      InPhaseAppend(workers, front, last, PodRunning);
      InPhaseAppend(workers, front, last, PodSucceeded);
      InPhaseAppend(workers, front, last, PodFailed);
    }
  }

  function RankKeys(job: string, attempt: nat, n: nat): set<PodKey> {
    set r | 0 <= r < n :: PodKey(job, attempt, r)
  }

  lemma {:induction false} RankKeysSize(job: string, attempt: nat, n: nat)
    ensures |RankKeys(job, attempt, n)| == n
  {
    if n != 0 {
      RankKeysSize(job, attempt, n - 1);
      assert RankKeys(job, attempt, n) == RankKeys(job, attempt, n - 1) + {PodKey(job, attempt, n - 1)};
    }
  }

  lemma {:induction false} ListingSize(items: seq<PodKey>, s: set<PodKey>)
    requires Listing(items, s)
    ensures |items| == |s|
    decreases |items|
  {
    if items == [] {
      assert s == {};
    } else {
      var front, last := items[..|items| - 1], items[|items| - 1];
      assert items == front + [last];
      forall k ensures k in front <==> k in s - {last} {}
      ListingSize(front, s - {last});
    }
  }

  predicate RankIs(workers: Workers, key: PodKey, p: PodPhase) {
    key in workers && workers[key].phase == p
  }

  ghost predicate AllSucceeded(workers: Workers, job: string, attempt: nat, n: int) {
    forall r: nat :: r < n ==> RankIs(workers, PodKey(job, attempt, r), PodSucceeded)
  }

  ghost predicate AllUp(workers: Workers, job: string, attempt: nat, n: int) {
    forall r: nat :: r < n ==>
      RankIs(workers, PodKey(job, attempt, r), PodRunning) || RankIs(workers, PodKey(job, attempt, r), PodSucceeded)
  }

  /**
   The counters decide what they are meant to decide: for any listing of the attempt's pods the next
   phase is Succeeded exactly when every rank has succeeded, and Running exactly when every rank is
   running or has succeeded but not all have succeeded.
   */
  lemma GangPhase(workers: Workers, job: string, attempt: nat, worldSize: nat, items: seq<PodKey>)
    requires Listing(items, AttemptPods(workers, job, attempt))
    requires forall k :: k in AttemptPods(workers, job, attempt) ==> k.rank < worldSize
    ensures var phase := NextPhase(worldSize, Aggregate(workers, items));
            && (phase == Succeeded <==> AllSucceeded(workers, job, attempt, worldSize))
            && (phase == Running <==> AllUp(workers, job, attempt, worldSize)
                                      && !AllSucceeded(workers, job, attempt, worldSize))
            && (phase == Succeeded || phase == Running || phase == Starting)
  {
    var all := RankKeys(job, attempt, worldSize);
    var listed := AttemptPods(workers, job, attempt);
    var run, suc := InPhase(workers, items, PodRunning), InPhase(workers, items, PodSucceeded);
    AggregateCounts(workers, items);
    ListingSize(items, listed);
    RankKeysSize(job, attempt, worldSize);
    forall k | k in listed ensures k in all {
      assert k == PodKey(job, attempt, k.rank);
    }
    FullOrSmaller(suc, all);
    FullOrSmaller(listed, all);
    FullOrSmaller(run + suc, all);
    assert |run + suc| == |run| + |suc| by { assert run !! suc; }
    assert AllSucceeded(workers, job, attempt, worldSize) <==> all <= suc by {
      RanksIn(workers, job, attempt, worldSize, items, suc);
    }
    assert AllUp(workers, job, attempt, worldSize) <==> all <= run + suc by {
      RanksIn(workers, job, attempt, worldSize, items, run + suc);
    }
  }

  lemma FullOrSmaller<T>(a: set<T>, b: set<T>)
    requires a <= b
    ensures |a| <= |b|
    ensures |a| == |b| <==> b <= a
  {
    SubsetSize(a, b);
    if |a| == |b| {
      FullSubset(a, b);
    }
    if b <= a {
      assert a == b;
    }
  }

  lemma RanksIn(workers: Workers, job: string, attempt: nat, n: nat, items: seq<PodKey>, s: set<PodKey>)
    requires Listing(items, AttemptPods(workers, job, attempt))
    ensures RankKeys(job, attempt, n) <= s <==> forall r: nat :: r < n ==> PodKey(job, attempt, r) in s
    ensures forall r: nat, p :: RankIs(workers, PodKey(job, attempt, r), p)
                                <==> PodKey(job, attempt, r) in InPhase(workers, items, p)
  {
    forall r: nat, p
      ensures RankIs(workers, PodKey(job, attempt, r), p) <==> PodKey(job, attempt, r) in InPhase(workers, items, p)
    {
      var key := PodKey(job, attempt, r);
      assert key in workers <==> key in AttemptPods(workers, job, attempt);
    }
    if RankKeys(job, attempt, n) <= s {
      forall r: nat | r < n ensures PodKey(job, attempt, r) in s {
        assert PodKey(job, attempt, r) in RankKeys(job, attempt, n);
      }
    }
  }

  // ---------------------------------------------------------------- one pass, call by call

  /** Where a pass stands: the API call it makes next. `b` is the job as the pass read it. */
  datatype TrainPc =
    | TDone
    | TPanic
    | TGetQueue(b: TrainJob)
    | TGetService(b: TrainJob)
    | TCreateService(b: TrainJob)
    | TUpdateService(b: TrainJob, found: MasterService)
    | TGetGroup(b: TrainJob)
    | TCreateGroup(b: TrainJob)
    | TClearDetail(b: TrainJob, g: PodGroup)
    | TGetPod(b: TrainJob, rank: nat)
    | TCreatePod(b: TrainJob, rank: nat)
    | TListPods(b: TrainJob)
    | TListDrop(b: TrainJob, st: TrainStatus)
    | TDropPod(b: TrainJob, doomed: PodKey, rest: seq<PodKey>, st: TrainStatus)
    | TGetVictimGroup(b: TrainJob)
    | TGetPreemptor(b: TrainJob, who: JobRef)
    | TGetOldGroup(b: TrainJob)
    | TDeleteGroup(b: TrainJob)
    | TWrite(b: TrainJob, st: TrainStatus)

  predicate Over(pc: TrainPc) {
    pc.TDone? || pc.TPanic?
  }

  /** What a call may read beyond the stored objects: a pod listing and some version of the ledger. */
  datatype Reads = Reads(items: seq<PodKey>, ledger: seq<Entry>)

  ghost predicate ReadsOk(s: Store, pc: TrainPc, seen: Reads) {
    pc.TListPods? || pc.TListDrop? ==>
      Listing(seen.items, AttemptPods(s.workers, pc.b.name, pc.b.status.attempt))
  }

  function GroupOf(b: TrainJob): GroupKey {
    GroupKey(b.name, b.status.attempt)
  }

  function MasterPort(spec: TrainSpec): int {
    if spec.masterPort > 0 then spec.masterPort else 29500
  }

  /** The service a job's workers meet at: it selects the rank-0 pod of the attempt. */
  function ServiceFor(b: TrainJob): MasterService {
    MasterService(MasterServiceSelector(b.name, b.status.attempt),
                  [ServicePort(MasterPort(b.spec), MasterPort(b.spec))])
  }

  function NewWorker(b: TrainJob): WorkerPod {
    WorkerPod(Pending, false, b.spec.requests)
  }

  function NewGroup(b: TrainJob): PodGroup {
    PodGroup(b.name, b.spec.worldSize, false, 0, None, b.status.requeueCount)
  }

  function GroupFailure(g: PodGroup): FailureSummary {
    FailureSummary(0, 0, g.preemptedBy)
  }

  /** The ledger holds a charge of this job for its present requeue epoch. */
  predicate Granted(ledger: seq<Entry>, b: TrainJob) {
    exists i :: 0 <= i < |ledger| && Matching(ledger[i], b)
  }

  predicate Matching(e: Entry, b: TrainJob) {
    e.name == b.name && e.kind == Train && e.requeueCount == b.status.requeueCount
  }

  /** The first step of a pass, by phase. */
  function Start(b: TrainJob): TrainPc {
    match b.status.phase
    case NoPhase => TWrite(b, b.status.(phase := Submitted))
    case Submitted => TWrite(b, b.status.(phase := Queued))
    case Queued => TGetQueue(b)
    case Failed => TDone
    case Succeeded => TDone
    case Preempted => TGetVictimGroup(b)
    case _ => TGetService(b)
  }

  function AtRank(b: TrainJob, rank: nat): TrainPc {
    if rank < b.spec.worldSize then TGetPod(b, rank) else TListPods(b)
  }

  function Dropping(b: TrainJob, items: seq<PodKey>, st: TrainStatus): TrainPc {
    if items == [] then TWrite(b, st) else TDropPod(b, items[0], items[1..], st)
  }

  function Requeued(st: TrainStatus): TrainStatus {
    st.(phase := Queued, requeueCount := st.requeueCount + 1)
  }

  function AfterFailedPod(b: TrainJob, sum: WorkerSummary): TrainStatus
    requires sum.failedPod.Some?
  {
    var failure := FailureSummaryFromLabels(WorkerPodLabels(sum.failedPod.value));
    if ShouldRetry(b, sum)
    then b.status.(lastFailure := Some(failure), phase := Retrying, attempt := b.status.attempt + 1)
    else b.status.(lastFailure := Some(failure), phase := Failed)
  }

  function WithWorkerStatus(b: TrainJob, sum: WorkerSummary): TrainStatus {
    b.status.(runningWorkers := sum.running, readyWorkers := sum.ready, phase := NextPhase(b.spec.worldSize, sum))
  }

  /** The preemptor no longer stands in the victim's way. */
  predicate PreemptorGone(s: Store, who: JobRef) {
    match who.kind
    case Inference => who.name !in s.infs || s.infs[who.name].phase == InfFailed
    case Train => who.name !in s.trains || s.trains[who.name].status.phase == Running
                  || s.trains[who.name].status.phase == Failed
  }

  function OnGroup(b: TrainJob, g: PodGroup): TrainPc {
    if b.status.phase == Starting && g.failed then
      TListDrop(b, b.status.(phase := Failed, lastFailure := Some(GroupFailure(g))))
    else if b.status.phase == Running && g.preemptedBy.Some? then
      TListDrop(b, b.status.(phase := Preempted, lastFailure := Some(GroupFailure(g))))
    else if b.status.phase == Running && g.detail > 0 then TClearDetail(b, g)
    else AtRank(b, 0)
  }

  function OnSummary(b: TrainJob, sum: WorkerSummary): TrainPc {
    if sum.failedPod.Some? then TListDrop(b, AfterFailedPod(b, sum))
    else if WithWorkerStatus(b, sum).phase != b.status.phase then TWrite(b, WithWorkerStatus(b, sum))
    else TDone
  }

  /** One API call: the store after it, and where the pass stands then. */
  function TrainCall(s: Store, pc: TrainPc, seen: Reads): (Store, TrainPc)
    requires ReadsOk(s, pc, seen)
  {
    match pc
    case TDone => (s, TDone)
    case TPanic => (s, TPanic)
    case TGetQueue(b) =>
      (s, if Granted(seen.ledger, b) then TWrite(b, b.status.(phase := Starting)) else TDone)
    case TGetService(b) =>
      (s, if b.name !in s.services then TCreateService(b)
          else if s.services[b.name] != ServiceFor(b) then TUpdateService(b, s.services[b.name])
          else TGetGroup(b))
    case TCreateService(b) =>
      if b.name in s.services then (s, TDone)
      else (s.(services := s.services[b.name := ServiceFor(b)]), TGetGroup(b))
    case TUpdateService(b, found) =>
      // compare-and-swap: the update goes through only on the version that was read
      if b.name in s.services && s.services[b.name] == found
      then (s.(services := s.services[b.name := ServiceFor(b)]), TGetGroup(b))
      else (s, TDone)
    case TGetGroup(b) =>
      (s, if GroupOf(b) in s.groups then OnGroup(b, s.groups[GroupOf(b)]) else TCreateGroup(b))
    case TCreateGroup(b) =>
      if GroupOf(b) in s.groups then (s, TDone)
      else (s.(groups := s.groups[GroupOf(b) := NewGroup(b)]), AtRank(b, 0))
    case TClearDetail(b, g) =>
      if GroupOf(b) in s.groups && s.groups[GroupOf(b)] == g
      then (s.(groups := s.groups[GroupOf(b) := g.(detail := 0)]), AtRank(b, 0))
      else (s, TDone)
    case TGetPod(b, rank) =>
      (s, if PodKey(b.name, b.status.attempt, rank) in s.workers then AtRank(b, rank + 1) else TCreatePod(b, rank))
    case TCreatePod(b, rank) =>
      var key := PodKey(b.name, b.status.attempt, rank);
      if key in s.workers then (s, TDone)
      else (s.(workers := s.workers[key := NewWorker(b)]), AtRank(b, rank + 1))
    case TListPods(b) => (s, OnSummary(b, Aggregate(s.workers, seen.items)))
    case TListDrop(b, st) => (s, Dropping(b, seen.items, st))
    case TDropPod(b, doomed, rest, st) => (s.(workers := s.workers - {doomed}), Dropping(b, rest, st))
    case TGetVictimGroup(b) =>
      if GroupOf(b) !in s.groups then (s, TGetOldGroup(b))
      else if s.groups[GroupOf(b)].preemptedBy.None? then (s, TPanic)  // nil dereference
      else (s, TGetPreemptor(b, s.groups[GroupOf(b)].preemptedBy.value))
    case TGetPreemptor(b, who) => (s, if PreemptorGone(s, who) then TGetOldGroup(b) else TDone)
    case TGetOldGroup(b) =>
      (s, if GroupOf(b) in s.groups then TDeleteGroup(b) else TWrite(b, Requeued(b.status)))
    case TDeleteGroup(b) => (s.(groups := s.groups - {GroupOf(b)}), TWrite(b, Requeued(b.status)))
    case TWrite(b, st) =>
      // compare-and-swap on the job read at the start of the pass
      if b.name in s.trains && s.trains[b.name] == b
      then (s.(trains := s.trains[b.name := b.(status := st)]), TDone)
      else (s, TDone)
  }

  // ---------------------------------------------------------------- a pass on its own, with a fault

  /** How a listing orders its items: any fixed way to list every set. */
  type Order = set<PodKey> -> seq<PodKey>

  ghost predicate OrderOk(order: Order) {
    forall s :: Listing(order(s), s)
  }

  /** There is such a way. */
  ghost function InAnyOrder(s: set<PodKey>): seq<PodKey> {
    if s == {} then [] else
      var k :| k in s;
      [k] + InAnyOrder(s - {k})
  }

  lemma {:induction false} AnyOrderLists(s: set<PodKey>)
    ensures Listing(InAnyOrder(s), s)
    decreases |s|
  {
    if s != {} {
      var k :| k in s && InAnyOrder(s) == [k] + InAnyOrder(s - {k});
      AnyOrderLists(s - {k});
    }
  }

  lemma SomeOrder() returns (order: Order)
    ensures OrderOk(order)
  {
    order := s => InAnyOrder(s);
    forall s ensures Listing(order(s), s) {
      AnyOrderLists(s);
    }
  }

  ghost function ReadsIn(s: Store, pc: TrainPc, order: Order): Reads {
    Reads(if pc.TListPods? || pc.TListDrop? then order(AttemptPods(s.workers, pc.b.name, pc.b.status.attempt)) else [],
          s.used)
  }

  /** The pass from `pc` on, alone with the store; the call after the next `calls` ones fails. */
  ghost function RunTrain(s: Store, pc: TrainPc, calls: nat, order: Order): (Store, TrainPc)
    requires OrderOk(order)
    decreases calls
  {
    if calls == 0 || Over(pc) then (s, pc)
    else
      var (s', pc') := TrainCall(s, pc, ReadsIn(s, pc, order));
      RunTrain(s', pc', calls - 1, order)
  }

  /** A whole pass; it finds its own job in `copies`, a cache that may lag behind the store. */
  ghost function RunTrainPass(s: Store, copies: map<string, TrainJob>, name: string, calls: nat,
                              order: Order): (Store, TrainPc)
    requires OrderOk(order)
  {
    if calls == 0 || name !in copies then (s, TDone)
    else RunTrain(s, Start(copies[name]), calls - 1, order)
  }

  // ---------------------------------------------------------------- the statuses a pass may write

  /** The status changes the lifecycle allows. */
  predicate Moves(b: TrainJob, st: TrainStatus) {
    var was := b.status;
    && st.requeueCount == was.requeueCount + (if was.phase == Preempted then 1 else 0)
    && st.attempt == was.attempt + (if st.phase == Retrying then 1 else 0)
    && match was.phase
       case NoPhase => st.phase == Submitted
       case Submitted => st.phase == Queued
       case Queued => st.phase == Starting
       case Preempted => st.phase == Queued
       case Succeeded => false
       case Failed => false
       case _ =>
         || st.phase == Starting || st.phase == Running || st.phase == Succeeded || st.phase == Failed
         || (st.phase == Preempted && was.phase == Running)
         || (st.phase == Retrying && was.attempt < b.spec.retryLimit)
  }

  /** The epoch goes up exactly on release, and only a running job is preempted. */
  lemma MovesBumpOnRelease(b: TrainJob, st: TrainStatus)
    requires Moves(b, st)
    ensures b.status.phase == Preempted <==> st.requeueCount == b.status.requeueCount + 1
    ensures b.status.phase == Preempted ==> st.phase == Queued
    ensures b.status.phase != Preempted ==> st.requeueCount == b.status.requeueCount
    ensures st.phase == Preempted ==> b.status.phase == Running
  {
  }

  /** Every write a pass is heading for is an allowed move of the job it read. */
  predicate HeadsForMove(pc: TrainPc) {
    match pc
    case TDone => true
    case TPanic => true
    case TGetQueue(b) => b.status.phase == Queued
    case TGetService(b) => DrivingTrain(b.status.phase)
    case TCreateService(b) => DrivingTrain(b.status.phase)
    case TUpdateService(b, _) => DrivingTrain(b.status.phase)
    case TGetGroup(b) => DrivingTrain(b.status.phase)
    case TCreateGroup(b) => DrivingTrain(b.status.phase)
    case TClearDetail(b, _) => DrivingTrain(b.status.phase)
    case TGetPod(b, rank) => DrivingTrain(b.status.phase) && rank < b.spec.worldSize
    case TCreatePod(b, rank) => DrivingTrain(b.status.phase) && rank < b.spec.worldSize
    case TListPods(b) => DrivingTrain(b.status.phase)
    case TListDrop(b, st) => DrivingTrain(b.status.phase) && Moves(b, st) && Emptying(st.phase)
    case TDropPod(b, doomed, rest, st) =>
      DrivingTrain(b.status.phase) && Moves(b, st) && Emptying(st.phase) && OwnPods(b, [doomed] + rest)
    case TGetVictimGroup(b) => b.status.phase == Preempted
    case TGetPreemptor(b, _) => b.status.phase == Preempted
    case TGetOldGroup(b) => b.status.phase == Preempted
    case TDeleteGroup(b) => b.status.phase == Preempted
    case TWrite(b, st) => Moves(b, st)
  }

  predicate OwnPods(b: TrainJob, items: seq<PodKey>) {
    forall k :: k in items ==> k.job == b.name && k.attempt == b.status.attempt
  }

  /** The phases whose status is written only after the attempt's pods were deleted. */
  predicate Emptying(p: TrainPhase) {
    p == Failed || p == Preempted || p == Retrying
  }

  lemma WriteIsMove(pc: TrainPc)
    requires HeadsForMove(pc) && pc.TWrite?
    ensures Moves(pc.b, pc.st)
  {
  }

  lemma StartHeadsForMove(b: TrainJob)
    ensures HeadsForMove(Start(b))
  {
  }

  lemma GroupHeadsForMove(b: TrainJob, g: PodGroup)
    requires DrivingTrain(b.status.phase)
    ensures HeadsForMove(OnGroup(b, g)) && OnGroup(b, g).b == b
  {
  }

  lemma ListingHeadsForMove(s: Store, b: TrainJob, seen: Reads)
    requires DrivingTrain(b.status.phase) && ReadsOk(s, TListPods(b), seen)
    ensures var next := TrainCall(s, TListPods(b), seen).1; HeadsForMove(next) && (!Over(next) ==> next.b == b)
  {
    hide FailureSummaryFromLabels, WorkerPodLabels, Aggregate;
  }

  lemma CallHeadsForMove(s: Store, pc: TrainPc, seen: Reads)
    requires ReadsOk(s, pc, seen) && HeadsForMove(pc)
    ensures HeadsForMove(TrainCall(s, pc, seen).1)
    ensures !Over(TrainCall(s, pc, seen).1) && !Over(pc) ==> TrainCall(s, pc, seen).1.b == pc.b
  {
    if pc.TListPods? {
      hide HeadsForMove, TrainCall;
      WasListing(pc);
      ListingHeadsForMove(s, pc.b, seen);
    } else if pc.TListDrop? || pc.TDropPod? {
      hide HeadsForMove, TrainCall;
      DroppingHeadsForMove(s, pc, seen);
    } else {
      hide HeadsForMove, TrainCall;
      PlainCallHeadsForMove(s, pc, seen);
    }
  }

  lemma WasListing(pc: TrainPc)
    requires pc.TListPods? && HeadsForMove(pc)
    ensures DrivingTrain(pc.b.status.phase)
  {
  }

  lemma DroppingHeadsForMove(s: Store, pc: TrainPc, seen: Reads)
    requires ReadsOk(s, pc, seen) && HeadsForMove(pc) && (pc.TListDrop? || pc.TDropPod?)
    ensures var next := TrainCall(s, pc, seen).1; HeadsForMove(next) && (!Over(next) ==> next.b == pc.b)
  {
    hide Aggregate, Listing, AttemptPods, OwnPods, OnGroup, OnSummary;
    if pc.TListDrop? {
      ListedAreOwn(s, pc.b, seen.items);
    } else {
      RestAreOwn(pc.b, pc.doomed, pc.rest);
    }
  }

  lemma PlainCallHeadsForMove(s: Store, pc: TrainPc, seen: Reads)
    requires ReadsOk(s, pc, seen) && HeadsForMove(pc) && !pc.TListPods? && !pc.TListDrop? && !pc.TDropPod?
    ensures HeadsForMove(TrainCall(s, pc, seen).1)
    ensures !Over(TrainCall(s, pc, seen).1) && !Over(pc) ==> TrainCall(s, pc, seen).1.b == pc.b
  {
    hide Aggregate, Listing, Granted, AttemptPods, PreemptorGone, OwnPods, OnGroup, OnSummary, ServiceFor;
    if pc.TGetGroup? && GroupOf(pc.b) in s.groups {
      GroupHeadsForMove(pc.b, s.groups[GroupOf(pc.b)]);
    }
  }

  lemma ListedAreOwn(s: Store, b: TrainJob, items: seq<PodKey>)
    requires Listing(items, AttemptPods(s.workers, b.name, b.status.attempt))
    ensures OwnPods(b, items)
    ensures items != [] ==> [items[0]] + items[1..] == items
  {
  }

  lemma RestAreOwn(b: TrainJob, doomed: PodKey, rest: seq<PodKey>)
    requires OwnPods(b, [doomed] + rest)
    ensures OwnPods(b, rest)
    ensures rest != [] ==> [rest[0]] + rest[1..] == rest
  {
    forall k | k in rest ensures k in [doomed] + rest {}
  }

  /** A pass deletes pods of its own job and the attempt it read, and no others. */
  lemma CallSparesOtherPods(s: Store, pc: TrainPc, seen: Reads, k: PodKey)
    requires ReadsOk(s, pc, seen) && HeadsForMove(pc) && !Over(pc)
    requires k in s.workers && (k.job != pc.b.name || k.attempt != pc.b.status.attempt)
    ensures k in TrainCall(s, pc, seen).0.workers && TrainCall(s, pc, seen).0.workers[k] == s.workers[k]
  {
    if pc.TDropPod? {
      assert pc.doomed in [pc.doomed] + pc.rest;
    }
    hide Aggregate, Listing, Granted, AttemptPods, PreemptorGone, OnGroup, OnSummary, AtRank, Dropping, Moves;
  }

  /** A pass writes jobs, services, groups and worker pods only: never the ledger, the quota or the inference side. */
  lemma CallWrites(s: Store, pc: TrainPc, seen: Reads)
    requires ReadsOk(s, pc, seen)
    ensures var t := TrainCall(s, pc, seen).0;
            t == s.(trains := t.trains, services := t.services, groups := t.groups, workers := t.workers)
  {
    hide Aggregate, Listing, Granted, AttemptPods, PreemptorGone, OnGroup, OnSummary, AtRank, Dropping;
  }

  /**
   A retry is decided exactly when some pod of the current attempt has failed and the budget is not
   spent; the recorded failure names a pod of that very attempt.
   */
  lemma RetryNeedsFailedPod(s: Store, b: TrainJob, seen: Reads)
    requires ReadsOk(s, TListPods(b), seen)
    ensures var next := TrainCall(s, TListPods(b), seen).1;
            var failed := exists k :: k in s.workers && k.job == b.name && k.attempt == b.status.attempt
                                      && s.workers[k].phase == PodFailed;
            && (next.TListDrop? <==> failed)
            && (next.TListDrop? && next.st.phase == Retrying <==> failed && b.status.attempt < b.spec.retryLimit)
            && (next.TListDrop? ==>
                  exists k :: k in s.workers && k.job == b.name && k.attempt == b.status.attempt
                              && s.workers[k].phase == PodFailed
                              && next.st.lastFailure == Some(FailureSummary(k.attempt, k.rank, None)))
  {
    var pods := AttemptPods(s.workers, b.name, b.status.attempt);
    AggregateCounts(s.workers, seen.items);
    var sum := Aggregate(s.workers, seen.items);
    if sum.failedPod.Some? {
      var k := sum.failedPod.value;
      assert k in pods;
      FailureSummaryRoundTrip(k);
    }
    if k :| k in s.workers && k.job == b.name && k.attempt == b.status.attempt && s.workers[k].phase == PodFailed {
      assert k in pods;
      assert k in InPhase(s.workers, seen.items, PodFailed);
    }
  }
}
