/** The InferenceJob state machine: what one reconciler pass computes, split at every API call. */
module InferenceLifecycle {
  import opened ClusterTypes
  import opened Names

  // ---------------------------------------------------------------- reading the pod

  datatype PodStatus = Ready | NotExist | Crash | NotReady

  predicate Crashed(c: Container) {
    (c.waiting && c.lastTerminated.Some?) || c.terminated.Some?
  }

  function StatusOfPod(p: Option<ServerPod>): PodStatus {
    if p.None? || p.value.deleting then NotExist
    else if p.value.ready then Ready
    else if exists i :: 0 <= i < |p.value.containers| && Crashed(p.value.containers[i]) then Crash
    else NotReady
  }

  /** The summed restart count, in unbounded integers. */
  function Restarts(containers: seq<Container>): int {
    if containers == [] then 0
    else Restarts(containers[..|containers| - 1]) + containers[|containers| - 1].restarts
  }

  function ContainersOf(p: Option<ServerPod>): seq<Container> {
    if p.None? then [] else p.value.containers
  }

  function NextPhase(cur: InferencePhase, status: PodStatus, restarts: int, maxRestarts: int): InferencePhase {
    if restarts > maxRestarts then InfFailing
    else
      match status
      case NotReady => cur
      case NotExist => if cur == InfStarting then InfStarting else InfRestarting
      case Ready => InfRunning
      case Crash => if restarts >= maxRestarts then InfFailing else InfRestarting
  }

  /** The exit code kept as LastFailure: that of the last container with a termination on record. */
  function LastExit(containers: seq<Container>, before: Option<int>): Option<int> {
    if containers == [] then before
    else
      var c := containers[|containers| - 1];
      if c.terminated.Some? then c.terminated
      else if c.lastTerminated.Some? then c.lastTerminated
      else LastExit(containers[..|containers| - 1], before)
  }

  /** What a pass makes of a served job and the pod it read. */
  function Observed(b: InferenceJob, p: Option<ServerPod>): InferenceJob {
    var next := NextPhase(b.phase, StatusOfPod(p), Restarts(ContainersOf(p)), b.spec.maxRestarts);
    if next == InfFailing
    then b.(phase := next, lastExitCode := LastExit(ContainersOf(p), b.lastExitCode))
    else b.(phase := next)
  }

  // ---------------------------------------------------------------- finalizers

  function Without(fs: seq<string>, key: string): seq<string> {
    if fs == [] then []
    else
      var front := Without(fs[..|fs| - 1], key);
      if fs[|fs| - 1] == key then front else front + [fs[|fs| - 1]]
  }

  /** Removal takes out exactly the occurrences of the key, wherever they stand, and keeps the order of the rest. */
  lemma {:induction false} WithoutConcat(a: seq<string>, b: seq<string>, key: string)
    ensures Without(a + b, key) == Without(a, key) + Without(b, key)
  {
    if b == [] {
      assert a + b == a;
    } else {
      var front := b[..|b| - 1];
      assert (a + b)[..|a + b| - 1] == a + front;
      WithoutConcat(a, front, key);
    }
  }

  lemma {:induction false} WithoutForeign(fs: seq<string>, key: string)
    requires key !in fs
    ensures Without(fs, key) == fs
  {
    if fs != [] {
      WithoutForeign(fs[..|fs| - 1], key);
    }
  }

  /** The delete path removes its own finalizer and leaves the others, in their order. */
  lemma RemovesOnlyItsFinalizer(a: seq<string>, b: seq<string>, key: string)
    requires key !in a && key !in b
    ensures Without(a + [key] + b, key) == a + b
  {
    WithoutConcat(a + [key], b, key);
    WithoutConcat(a, [key], key);
    WithoutForeign(a, key);
    WithoutForeign(b, key);
    assert [key][..0] == [];
  }

  lemma {:induction false} WithoutMembers(fs: seq<string>, key: string)
    ensures forall f :: f in Without(fs, key) <==> f in fs && f != key
  {
    if fs != [] {
      WithoutMembers(fs[..|fs| - 1], key);
      assert fs == fs[..|fs| - 1] + [fs[|fs| - 1]];
    }
  }

  // ---------------------------------------------------------------- one pass, call by call

  /** Where a pass stands: the API call it makes next. `b` is the job as the pass read it. */
  datatype InfPc =
    | IDone
    | IGetDeleted(b: InferenceJob)
    | IUnfinalize(b: InferenceJob)
    | IDeletePod(b: InferenceJob)
    | IFinalize(b: InferenceJob)
    | IGetQueue(b: InferenceJob)
    | IGetPod(b: InferenceJob)
    | IEnsurePod(b: InferenceJob, j: InferenceJob)
    | ICreatePod(b: InferenceJob, j: InferenceJob)
    | IGetFailing(b: InferenceJob)
    | IWrite(b: InferenceJob, j: InferenceJob)

  function PodOf(s: Store, name: string): Option<ServerPod> {
    if name in s.servers then Some(s.servers[name]) else None
  }

  const NEW_SERVER := ServerPod([], false, false)

  predicate Admitted(ledger: seq<Entry>, b: InferenceJob) {
    exists i :: 0 <= i < |ledger| && ledger[i].name == b.name && ledger[i].kind == Inference
  }

  /** The first step of a pass, by deletion mark, finalizer and phase. */
  function Start(b: InferenceJob): InfPc {
    if b.deleting then IGetDeleted(b)
    else if FINALIZER_KEY !in b.finalizers then IFinalize(b)
    else
      match b.phase
      case InfNoPhase => IWrite(b, b.(phase := InfQueued))
      case InfQueued => IGetQueue(b)
      case InfFailing => IGetFailing(b)
      case InfFailed => IDone
      case _ => IGetPod(b)
  }

  function WriteIfMoved(b: InferenceJob, j: InferenceJob): InfPc {
    if j.phase != b.phase then IWrite(b, j) else IDone
  }

  /** `Update` of the object: once a deleted object has no finalizer left it is gone. */
  function Stored(infs: map<string, InferenceJob>, j: InferenceJob): map<string, InferenceJob> {
    if j.deleting && j.finalizers == [] then infs - {j.name} else infs[j.name := j]
  }

  /** The update goes through only on the version of the job that the pass read. */
  predicate Current(s: Store, b: InferenceJob) {
    b.name in s.infs && s.infs[b.name] == b
  }

  /** One API call: the store after it, and where the pass stands then. */
  function InfCall(s: Store, pc: InfPc, ledger: seq<Entry>): (Store, InfPc) {
    match pc
    case IDone => (s, IDone)
    case IGetDeleted(b) =>
      (s, match PodOf(s, b.name)
          case None => IUnfinalize(b)
          case Some(p) => if p.deleting then IDone else IDeletePod(b))
    case IUnfinalize(b) =>
      (if Current(s, b) then s.(infs := Stored(s.infs, b.(finalizers := Without(b.finalizers, FINALIZER_KEY))))
       else s, IDone)
    case IDeletePod(b) =>
      // deletion is graceful: the pod is only marked, and stays until the kubelet is done with it
      (if b.name in s.servers then s.(servers := s.servers[b.name := s.servers[b.name].(deleting := true)])
       else s, IDone)
    case IFinalize(b) =>
      (if Current(s, b) then s.(infs := s.infs[b.name := b.(finalizers := b.finalizers + [FINALIZER_KEY])])
       else s, IDone)
    case IGetQueue(b) => (s, if Admitted(ledger, b) then IWrite(b, b.(phase := InfStarting)) else IDone)
    case IGetPod(b) =>
      var j := Observed(b, PodOf(s, b.name));
      (s, if b.name in s.servers then WriteIfMoved(b, j) else IEnsurePod(b, j))
    case IEnsurePod(b, j) => (s, if b.name in s.servers then WriteIfMoved(b, j) else ICreatePod(b, j))
    case ICreatePod(b, j) =>
      if b.name in s.servers then (s, IDone)
      else (s.(servers := s.servers[b.name := NEW_SERVER]), WriteIfMoved(b, j))
    case IGetFailing(b) => (s, if b.name in s.servers then IDeletePod(b) else IWrite(b, b.(phase := InfFailed)))
    case IWrite(b, j) => (if Current(s, b) then s.(infs := s.infs[b.name := j]) else s, IDone)
  }

  // ---------------------------------------------------------------- a pass on its own, with a fault

  /** The pass from `pc` on, alone with the store; the call after the next `calls` ones fails. */
  function RunInference(s: Store, pc: InfPc, calls: nat): (Store, InfPc)
    decreases calls
  {
    if calls == 0 || pc.IDone? then (s, pc)
    else
      var (s', pc') := InfCall(s, pc, s.used);
      RunInference(s', pc', calls - 1)
  }

  /** A whole pass; it finds its own job in `copies`, a cache that may lag behind the store. */
  function RunInferencePass(s: Store, copies: map<string, InferenceJob>, name: string, calls: nat): (Store, InfPc) {
    if calls == 0 || name !in copies then (s, IDone)
    else RunInference(s, Start(copies[name]), calls - 1)
  }

  // ---------------------------------------------------------------- the phases a pass may write

  function Rank(p: InferencePhase): nat {
    match p
    case InfNoPhase => 0
    case InfQueued => 1
    case InfStarting => 2
    case InfRunning => 3
    case InfRestarting => 3
    case InfFailing => 4
    case InfFailed => 5
  }

  /** A status write changes phase and last failure only, and the phase never moves back. */
  predicate Moves(b: InferenceJob, j: InferenceJob) {
    && j == b.(phase := j.phase, lastExitCode := j.lastExitCode)
    && Rank(b.phase) <= Rank(j.phase)
    && (j.phase == InfStarting ==> b.phase == InfQueued || b.phase == InfStarting)
    && (HoldingInference(j.phase) ==> b.phase == InfQueued || HoldingInference(b.phase))
    && (j.phase == InfFailed ==> b.phase == InfFailing)
    && (b.phase == InfQueued ==> j.phase == InfStarting)
  }

  predicate HeadsForMove(pc: InfPc) {
    match pc
    case IDone => true
    case IGetDeleted(b) => b.deleting
    case IUnfinalize(b) => b.deleting
    case IDeletePod(b) => b.deleting || b.phase == InfFailing
    case IFinalize(b) => !b.deleting
    case IGetQueue(b) => Kept(b) && b.phase == InfQueued
    case IGetPod(b) => Kept(b) && ServingInference(b.phase)
    case IEnsurePod(b, j) => Kept(b) && ServingInference(b.phase) && Moves(b, j)
    case ICreatePod(b, j) => Kept(b) && ServingInference(b.phase) && Moves(b, j)
    case IGetFailing(b) => Kept(b) && b.phase == InfFailing
    case IWrite(b, j) => Kept(b) && Moves(b, j)
  }

  /** The pass read a job that is not being deleted and carries the finalizer. */
  predicate Kept(b: InferenceJob) {
    !b.deleting && FINALIZER_KEY in b.finalizers
  }

  lemma StartHeadsForMove(b: InferenceJob)
    ensures HeadsForMove(Start(b))
  {
  }

  lemma CallHeadsForMove(s: Store, pc: InfPc, ledger: seq<Entry>)
    requires HeadsForMove(pc)
    ensures HeadsForMove(InfCall(s, pc, ledger).1)
    ensures !pc.IDone? && !InfCall(s, pc, ledger).1.IDone? ==> InfCall(s, pc, ledger).1.b == pc.b
  {
  }

  /** A pass writes inference jobs and inference pods only. */
  lemma CallWrites(s: Store, pc: InfPc, ledger: seq<Entry>)
    ensures var t := InfCall(s, pc, ledger).0; t == s.(infs := t.infs, servers := t.servers)
  {
    hide Observed, Without, Admitted;
  }

  /**
   The restart budget: judging a pod, a served job is left in or moved to Running or Restarting only
   while the pod's restarts are within the budget, and a crashed pod only while one more is left.
   Overspending always leads to Failing.
   */
  lemma RestartBudget(b: InferenceJob, p: Option<ServerPod>)
    requires ServingInference(b.phase)
    ensures var j := Observed(b, p);
            var spent := Restarts(ContainersOf(p));
            && (j.phase != InfFailing ==> spent <= b.spec.maxRestarts)
            && (j.phase != InfFailing && StatusOfPod(p) == Crash ==> spent < b.spec.maxRestarts)
            && (j.phase == InfFailing ==> spent >= b.spec.maxRestarts)
            && (j.phase == InfFailing && spent == b.spec.maxRestarts ==> StatusOfPod(p) == Crash)
            && (j.phase == InfStarting ==> b.phase == InfStarting)
  {
  }
}
