/**
 An inference pod keeps its quota as long as no cache goes back: two-stage shutdown and the finalizer do
 not need a cache that has caught up.
 */
module ServerOrder {
  import opened Resources
  import opened ClusterTypes
  import opened Names
  import opened QueueAdmission
  import opened Cluster
  import opened LedgerInvariant
  import opened LedgerSteps
  import opened PodInvariant
  import opened InferenceSafety
  import opened QuotaSafety
  import C = CacheOrder
  import T = TrainLifecycle
  import I = InferenceLifecycle

  // ---------------------------------------------------------------- ordered runs

  /** `a` is not ahead of `b`: its phase has no higher rank, and a deletion mark stays. */
  predicate NotAhead(a: InferenceJob, b: InferenceJob) {
    I.Rank(a.phase) <= I.Rank(b.phase) && (a.deleting ==> b.deleting)
  }

  /** A pass does not begin with a copy from before the one the pass before it over the job began with. */
  predicate ServedInTurn(last: Infs, a: Action) {
    a.BeginInference? && a.infCopy.name in last ==> NotAhead(last[a.infCopy.name], a.infCopy)
  }

  /** A run in which no cache goes back on an InferenceJob; the copies may be outdated in any other way. */
  ghost predicate OrderedServing(ss: seq<System>, acts: seq<Action>) {
    && Run(ss, acts)
    && forall i :: 0 <= i < |acts| ==> ServedInTurn(C.LastInfCopies(acts[..i]), acts[i])
  }

  // ---------------------------------------------------------------- what the copies are to the stored jobs

  /** The finalizer is not, or no longer, on the object. */
  predicate KeyGone(infs: Infs, n: string) {
    n in infs ==> FINALIZER_KEY !in infs[n].finalizers
  }

  ghost predicate NeverKept(reported: set<InferenceJob>, last: Infs, n: string) {
    && (forall v :: v in reported && v.name == n ==> FINALIZER_KEY !in v.finalizers)
    && (n in last ==> FINALIZER_KEY !in last[n].finalizers)
  }

  /** Copies are not ahead of the stored job, and once it has lost the finalizer they show the deletion. */
  ghost predicate VersionsOk(infs: Infs, names: set<string>, reported: set<InferenceJob>, last: Infs, n: string) {
    && (forall v :: v in reported && v.name == n ==> n in names && (n in infs ==> NotAhead(v, infs[n])))
    && (n in last ==> n in names && last[n].name == n && (n in infs ==> NotAhead(last[n], infs[n])))
    && (KeyGone(infs, n) ==> (n in last && last[n].deleting) || NeverKept(reported, last, n))
    && (n in infs && infs[n].phase == InfFailed ==> n in last && I.Rank(last[n].phase) >= I.Rank(InfFailing))
  }

  predicate ServerOk(infs: Infs, servers: map<string, ServerPod>, n: string) {
    n in servers ==> n in infs && FINALIZER_KEY in infs[n].finalizers && HoldingInference(infs[n].phase)
  }

  /** A pass works on its copy; one that is about to let the job go has seen that there is no pod. */
  predicate CarriedOk(passes: map<string, I.InfPc>, servers: map<string, ServerPod>, last: Infs, n: string) {
    n in passes ==>
      n in last && (!passes[n].IDone? ==> passes[n].b == last[n] && (LetsGo(passes[n]) ==> n !in servers))
  }

  predicate LetsGo(pc: I.InfPc) {
    pc.IUnfinalize? || (pc.IWrite? && pc.j.phase == InfFailed)
  }

  ghost predicate JobOk(s: System, last: Infs, n: string) {
    && VersionsOk(s.store.infs, s.infNames, s.reportedInfs, last, n)
    && ServerOk(s.store.infs, s.store.servers, n)
    && CarriedOk(s.infPasses, s.store.servers, last, n)
  }

  ghost predicate ServeInv(s: System, last: Infs) {
    forall n :: JobOk(s, last, n)
  }

  // ---------------------------------------------------------------- the pass's own calls

  /** A copy that makes a pod shows a job that is still kept and holds its quota. */
  lemma KeptCopyHolds(infs: Infs, names: set<string>, reported: set<InferenceJob>, last: Infs, n: string)
    requires VersionsOk(infs, names, reported, last, n) && n in last
    requires I.Kept(last[n]) && ServingInference(last[n].phase)
    ensures n in infs && FINALIZER_KEY in infs[n].finalizers && HoldingInference(infs[n].phase)
  {
  }

  lemma OwnCallKeepsJob(s: Store, names: set<string>, reported: set<InferenceJob>, last: Infs, n: string, pc: I.InfPc,
                        ledger: seq<Entry>)
    requires VersionsOk(s.infs, names, reported, last, n) && ServerOk(s.infs, s.servers, n)
    requires !pc.IDone? && pc.b.name == n && I.HeadsForMove(pc) && n in last && pc.b == last[n]
    requires LetsGo(pc) ==> n !in s.servers
    ensures var (t, next) := I.InfCall(s, pc, ledger);
            && VersionsOk(t.infs, names, reported, last, n) && ServerOk(t.infs, t.servers, n)
            && (LetsGo(next) ==> n !in t.servers)
  {
    hide I.Observed, I.Admitted, NeverKept;
    I.WithoutMembers(pc.b.finalizers, FINALIZER_KEY);
    I.CallHeadsForMove(s, pc, ledger);
    if pc.ICreatePod? {
      KeptCopyHolds(s.infs, names, reported, last, n);
    }
  }

  /** What a pass over `n` does leaves every other job as it is. */
  lemma OtherJobUnaffected(s: System, t: System, last: Infs, n: string, m: string)
    requires JobOk(s, last, m) && m != n && OwnServer(s.store, t.store, n)
    requires t.infNames == s.infNames && t.reportedInfs == s.reportedInfs
    requires m in t.infPasses ==> m in s.infPasses && t.infPasses[m] == s.infPasses[m]
    ensures JobOk(t, last, m)
  {
    hide NeverKept;
    assert m in t.store.infs <==> m in s.store.infs;
  }

  lemma OwnStepKeepsServe(s: System, a: Action, last: Infs)
    requires LedgerInv(s) && ServeInv(s, last) && Enabled(s, a) && a.InferenceStep?
    ensures ServeInv(Apply(s, a), last)
  {
    hide LedgerInv, Enabled, Apply, I.InfCall, I.HeadsForMove, VersionsOk, ServerOk, OwnServer, LetsGo;
    var n := a.name;
    InferenceStepMeans(s, n, a.ledger);
    InfGateOf(s, n);
    var pc, t, ledger := s.infPasses[n], Apply(s, a), s.ledgers[a.ledger];
    assert JobOk(s, last, n);
    if pc.IDone? {
      DoneStays(s.store, ledger);
    } else {
      OwnCallKeepsJob(s.store, s.infNames, s.reportedInfs, last, n, pc, ledger);
      I.CallHeadsForMove(s.store, pc, ledger);
    }
    InfCallTouchesOwn(s.store, n, pc, ledger);
    assert JobOk(t, last, n);
    hide JobOk;
    forall m ensures JobOk(t, last, m) {
      if m != n {
        assert JobOk(s, last, m);
        OtherJobUnaffected(s, t, last, n, m);
      }
    }
  }

  lemma DoneStays(s: Store, ledger: seq<Entry>)
    ensures I.InfCall(s, I.IDone, ledger) == (s, I.IDone)
  {
  }

  // ---------------------------------------------------------------- everybody else's steps

  /** What others may do to one job, its pod and its reports. */
  ghost predicate OthersMay(s: System, t: System, n: string) {
    && s.infNames <= t.infNames
    && (n in t.store.servers ==> n in s.store.servers)
    && (forall v :: v in t.reportedInfs && v.name == n ==> v in s.reportedInfs || Stores(s, v))
    && (n in t.store.infs && n in s.store.infs ==> Edited(s.store.infs[n], t.store.infs[n]))
    && (n in t.store.infs && n !in s.store.infs ==>
          n !in s.infNames && n in t.infNames && t.store.infs[n].phase == InfNoPhase)
    && (n in s.store.infs && n !in t.store.infs ==> FINALIZER_KEY !in s.store.infs[n].finalizers)
  }

  predicate Stores(s: System, v: InferenceJob) {
    v.name in s.store.infs && s.store.infs[v.name] == v
  }

  predicate Edited(b: InferenceJob, j: InferenceJob) {
    && j.phase == b.phase && (b.deleting ==> j.deleting)
    && (FINALIZER_KEY in j.finalizers <==> FINALIZER_KEY in b.finalizers)
  }

  lemma OthersMayDo(s: System, a: Action, n: string)
    requires LedgerInv(s) && Enabled(s, a) && !a.InferenceStep?
    ensures OthersMay(s, Apply(s, a), n)
  {
    InfsAreNamed(s);
    hide LedgerInv, Enabled, Apply, OthersMay;
    if a.TrainStep? || a.QueueStep? {
      ReconcilersMayDo(s, a, n);
    } else if a.DeleteInference? || a.EditFinalizers? {
      EditorsMayDo(s, a, n);
    } else {
      StrangersMayDo(s, a, n);
    }
  }

  lemma ReconcilersMayDo(s: System, a: Action, n: string)
    requires Enabled(s, a) && (a.TrainStep? || a.QueueStep?)
    ensures OthersMay(s, Apply(s, a), n)
  {
    hide Enabled, Apply, T.TrainCall, T.ReadsOk, QueueCall, ChoiceOk;
    if a.TrainStep? {
      TrainStepMeans(s, a.name, a.items, a.ledger);
      T.CallWrites(s.store, s.trainPasses[a.name], TrainReads(s, a.items, a.ledger));
    } else {
      QueueStepMeans(s, a.after);
    }
  }

  lemma EditorsMayDo(s: System, a: Action, n: string)
    requires Enabled(s, a) && (a.DeleteInference? || a.EditFinalizers?)
    requires forall m :: m in s.store.infs ==> m in s.infNames && s.store.infs[m].name == m
    ensures OthersMay(s, Apply(s, a), n)
  {
    hide T.TrainCall, I.InfCall, QueueCall, ChoiceOk, T.ReadsOk, T.Start, I.Start, Latest, NewTrain, NewInference;
  }

  lemma StrangersMayDo(s: System, a: Action, n: string)
    requires Enabled(s, a) && !a.TrainStep? && !a.InferenceStep? && !a.QueueStep?
    requires !a.DeleteInference? && !a.EditFinalizers?
    requires forall m :: m in s.store.infs ==> m in s.infNames && s.store.infs[m].name == m
    ensures OthersMay(s, Apply(s, a), n)
  {
    hide T.TrainCall, I.InfCall, QueueCall, ChoiceOk, T.ReadsOk, T.Start, I.Start, Latest, NewTrain, I.Stored;
  }

  lemma InfsAreNamed(s: System)
    requires LedgerInv(s)
    ensures forall n :: n in s.store.infs ==> n in s.infNames && s.store.infs[n].name == n
  {
    hide LedgerInv;
    forall n | n in s.store.infs ensures n in s.infNames && s.store.infs[n].name == n {
      NamedInference(s, n);
    }
  }

  /** The last copies after a step of somebody else, as far as one job is concerned. */
  lemma OthersKeepVersions(s: System, t: System, last: Infs, n: string)
    requires OthersMay(s, t, n) && VersionsOk(s.store.infs, s.infNames, s.reportedInfs, last, n)
    requires n in s.store.infs ==> n in s.infNames
    ensures VersionsOk(t.store.infs, t.infNames, t.reportedInfs, last, n)
  {
  }

  lemma OthersKeepServer(s: System, t: System, n: string)
    requires OthersMay(s, t, n) && ServerOk(s.store.infs, s.store.servers, n)
    ensures ServerOk(t.store.infs, t.store.servers, n) && (n in t.store.servers ==> n in s.store.servers)
  {
  }

  lemma BeginKeepsVersions(s: System, last: Infs, v: InferenceJob)
    requires VersionsOk(s.store.infs, s.infNames, s.reportedInfs, last, v.name) && InferenceVersion(s, v)
    requires v.name in s.store.infs ==> v.name in s.infNames
    requires v.name in last ==> NotAhead(last[v.name], v)
    ensures VersionsOk(s.store.infs, s.infNames, s.reportedInfs, last[v.name := v], v.name)
  {
  }

  lemma OtherStepKeepsCarried(s: System, a: Action, last: Infs, n: string)
    requires CarriedOk(s.infPasses, s.store.servers, last, n) && Enabled(s, a) && !a.InferenceStep?
    ensures CarriedOk(Apply(s, a).infPasses, s.store.servers, C.AfterInfBegin(last, a), n)
  {
    hide Enabled, Apply, I.Start, InferenceVersion, LetsGo;
    if n in Apply(s, a).infPasses {
      InfPassElsewhere(s, a, n);
    }
    if a.BeginInference? {
      BeginMeans(s, NewTrain("", 0, TrainSpec(0, 0, 0, map[], "")), a.infCopy);
      StartLetsNobodyGo(a.infCopy);
    }
  }

  lemma OtherStepKeepsVersions(s: System, a: Action, last: Infs, n: string)
    requires LedgerInv(s) && Enabled(s, a) && ServedInTurn(last, a) && !a.InferenceStep?
    requires VersionsOk(s.store.infs, s.infNames, s.reportedInfs, last, n)
    ensures var t := Apply(s, a);
            VersionsOk(t.store.infs, t.infNames, t.reportedInfs, C.AfterInfBegin(last, a), n)
  {
    hide LedgerInv, Enabled, Apply, I.Start, InferenceVersion, VersionsOk, NotAhead, OthersMay;
    var t := Apply(s, a);
    OthersMayDo(s, a, n);
    InfsAreNamed(s);
    OthersKeepVersions(s, t, last, n);
    if a.BeginInference? {
      BeginMeans(s, NewTrain("", 0, TrainSpec(0, 0, 0, map[], "")), a.infCopy);
      if a.infCopy.name == n {
        BeginKeepsVersions(s, last, a.infCopy);
      } else {
        OthersCopy(t.store.infs, t.infNames, t.reportedInfs, last, a.infCopy, n);
      }
    }
  }

  lemma OtherStepKeepsJob(s: System, a: Action, last: Infs, n: string)
    requires LedgerInv(s) && JobOk(s, last, n) && Enabled(s, a) && ServedInTurn(last, a) && !a.InferenceStep?
    ensures JobOk(Apply(s, a), C.AfterInfBegin(last, a), n)
  {
    hide LedgerInv, Enabled, Apply, VersionsOk, ServerOk, OthersMay, ServedInTurn, C.AfterInfBegin;
    OthersMayDo(s, a, n);
    OtherStepKeepsVersions(s, a, last, n);
    OthersKeepServer(s, Apply(s, a), n);
    OtherStepKeepsCarried(s, a, last, n);
  }

  lemma StartLetsNobodyGo(v: InferenceJob)
    ensures !LetsGo(I.Start(v)) && (!I.Start(v).IDone? ==> I.Start(v).b == v)
  {
  }

  lemma OthersCopy(infs: Infs, names: set<string>, reported: set<InferenceJob>, last: Infs, v: InferenceJob, n: string)
    requires VersionsOk(infs, names, reported, last, n) && v.name != n
    ensures VersionsOk(infs, names, reported, last[v.name := v], n)
  {
  }

  lemma StepKeepsServe(s: System, a: Action, last: Infs)
    requires LedgerInv(s) && ServeInv(s, last) && Enabled(s, a) && ServedInTurn(last, a)
    ensures ServeInv(Apply(s, a), C.AfterInfBegin(last, a))
  {
    hide LedgerInv, Enabled, Apply, JobOk, ServedInTurn;
    if a.InferenceStep? {
      OwnStepKeepsServe(s, a, last);
    } else {
      forall n ensures JobOk(Apply(s, a), C.AfterInfBegin(last, a), n) {
        OtherStepKeepsJob(s, a, last, n);
      }
    }
  }

  // ---------------------------------------------------------------- along ordered runs

  lemma OrderedIsRun(ss: seq<System>, acts: seq<Action>)
    requires OrderedServing(ss, acts)
    ensures Run(ss, acts) && |ss| == |acts| + 1
  {
  }

  lemma OrderedStep(ss: seq<System>, acts: seq<Action>, i: nat)
    requires OrderedServing(ss, acts) && i < |acts|
    ensures ServedInTurn(C.LastInfCopies(acts[..i]), acts[i])
    ensures C.LastInfCopies(acts[..i + 1]) == C.AfterInfBegin(C.LastInfCopies(acts[..i]), acts[i])
  {
    LastInfCopiesStep(acts, i);
    hide Run, ServedInTurn, C.AfterInfBegin;
  }

  lemma LastInfCopiesStep(acts: seq<Action>, i: nat)
    requires i < |acts|
    ensures C.LastInfCopies(acts[..i + 1]) == C.AfterInfBegin(C.LastInfCopies(acts[..i]), acts[i])
  {
    assert acts[..i + 1][..i] == acts[..i];
    hide C.AfterInfBegin;
  }

  lemma FirstServe(ss: seq<System>, acts: seq<Action>)
    requires Run(ss, acts)
    ensures ServeInv(ss[0], C.LastInfCopies(acts[..0]))
  {
  }

  lemma {:induction false} ServeAlong(ss: seq<System>, acts: seq<Action>, i: nat)
    requires OrderedServing(ss, acts) && i < |ss| && i <= |acts|
    ensures ServeInv(ss[i], C.LastInfCopies(acts[..i]))
    decreases i
  {
    hide *;
    OrderedIsRun(ss, acts);
    if i == 0 {
      FirstServe(ss, acts);
    } else {
      ServeAlong(ss, acts, i - 1);
      OrderedStep(ss, acts, i - 1);
      RunStep(ss, acts, i - 1);
      RunLedger(ss, acts, i - 1);
      StepKeepsServe(ss[i - 1], acts[i - 1], C.LastInfCopies(acts[..i - 1]));
    }
  }

  /** A cache that has merely not caught up does not go back either. */
  lemma LaggingServesInOrder(ss: seq<System>, acts: seq<Action>)
    requires C.LaggingRun(ss, acts)
    ensures OrderedServing(ss, acts)
  {
    hide Run, C.Timely, ServedInTurn, ServeInv, LedgerInv;
    C.LaggingIsRun(ss, acts);
    forall i | 0 <= i < |acts| ensures ServedInTurn(C.LastInfCopies(acts[..i]), acts[i]) {
      LaggingServe(ss, acts, i);
      C.LaggingStep(ss, acts, i);
      RunLedger(ss, acts, i);
      TimelyIsServedInTurn(ss[i], acts[i], C.LastCopies(acts[..i]), C.LastInfCopies(acts[..i]));
    }
  }

  lemma TimelyIsServedInTurn(s: System, a: Action, last: Trains, lastInfs: Infs)
    requires ServeInv(s, lastInfs) && C.Timely(last, lastInfs, s, a)
    ensures ServedInTurn(lastInfs, a)
  {
    if a.BeginInference? {
      assert JobOk(s, lastInfs, a.infCopy.name);
    }
    hide ServeInv, NeverKept;
  }

  lemma {:induction false} LaggingServe(ss: seq<System>, acts: seq<Action>, i: nat)
    requires C.LaggingRun(ss, acts) && i < |ss| && i <= |acts|
    ensures ServeInv(ss[i], C.LastInfCopies(acts[..i]))
    decreases i
  {
    hide *;
    C.LaggingIsRun(ss, acts);
    if i == 0 {
      FirstServe(ss, acts);
    } else {
      LaggingServe(ss, acts, i - 1);
      C.LaggingStep(ss, acts, i - 1);
      LastInfCopiesStep(acts, i - 1);
      RunStep(ss, acts, i - 1);
      RunLedger(ss, acts, i - 1);
      TimelyIsServedInTurn(ss[i - 1], acts[i - 1], C.LastCopies(acts[..i - 1]), C.LastInfCopies(acts[..i - 1]));
      StepKeepsServe(ss[i - 1], acts[i - 1], C.LastInfCopies(acts[..i - 1]));
    }
  }

  lemma ServersAlong(ss: seq<System>, acts: seq<Action>, i: nat)
    requires OrderedServing(ss, acts) && i < |ss|
    ensures LedgerInv(ss[i]) && ServersOk(ss[i].store.infs, ss[i].store.servers)
  {
    hide OrderedServing, LedgerInv, VersionsOk, CarriedOk;
    OrderedIsRun(ss, acts);
    RunLedger(ss, acts, i);
    ServeAlong(ss, acts, i);
    var s := ss[i];
    forall n | n in s.store.servers ensures ServerOk(s.store.infs, s.store.servers, n) {
      assert JobOk(s, C.LastInfCopies(acts[..i]), n);
    }
  }

  /**
   An inference pod keeps its quota, as long as no cache goes back: while it exists, terminating or not,
   its job exists, carries the finalizer, has not failed, and owns an entry charged its requests. So the
   entry is released only after the pod is gone.
   */
  lemma InferencePodPinsCharge(ss: seq<System>, acts: seq<Action>, i: nat, n: string)
    requires OrderedServing(ss, acts) && i < |ss| && n in ss[i].store.servers
    ensures var st := ss[i].store;
            && n in st.infs && FINALIZER_KEY in st.infs[n].finalizers && HoldingInference(st.infs[n].phase)
            && exists e :: e in st.used && Ref(e) == JobRef(n, Inference) && e.res == st.infs[n].spec.requests
  {
    hide OrderedServing, LedgerInv;
    ServersAlong(ss, acts, i);
    var s := ss[i];
    var e := InferenceChargeOf(s, n);
    ChargedDemand(s, e, "");
    assert e in s.store.used && Ref(e) == JobRef(n, Inference);
  }

  /**
   So all inference pods, terminating ones included, and all holding TrainJobs together stay within the
   largest quota there has been.
   */
  lemma ServersWithinQuota(ss: seq<System>, acts: seq<Action>, i: nat, r: string)
    requires OrderedServing(ss, acts) && i < |ss|
    ensures var st := ss[i].store;
            SumMap(TrainLoad(st.trains, r)) + SumMap(ServerLoad(st.infs, st.servers, r)) <= Peak(ss[i].quotas, r)
  {
    hide OrderedServing, LedgerInv, TrainLoad, InfLoad, ServerLoad, SumMap, Peak;
    ServersAlong(ss, acts, i);
    HoldersWithinPeak(ss[i], r);
    ServersWithinJobs(ss[i], r);
  }
}
