/** Safety of the inference lifecycle along whole runs: progress, two-stage shutdown, the restart budget. */
module InferenceSafety {
  import opened ClusterTypes
  import opened QueueAdmission
  import opened Cluster
  import opened LedgerInvariant
  import opened LedgerSteps
  import opened PodInvariant
  import T = TrainLifecycle
  import I = InferenceLifecycle
  import L = LifecycleSafety

  // ---------------------------------------------------------------- what one step does to a job

  predicate MetadataOnly(b: InferenceJob, j: InferenceJob) {
    j.phase == b.phase && j.spec == b.spec
  }

  /** What a call of a pass may do to the inference jobs. */
  ghost predicate OwnChange(infs: Infs, t: Infs, n: string, pc: I.InfPc) {
    && t.Keys <= infs.Keys
    && (forall m :: m in t && m != n ==> t[m] == infs[m])
    && (n in t ==> MetadataOnly(infs[n], t[n]) || (pc == I.IWrite(infs[n], t[n]) && I.Moves(infs[n], t[n])))
  }

  lemma CallMakesOwnChange(s: Store, n: string, pc: I.InfPc, ledger: seq<Entry>)
    requires pc.IDone? || (pc.b.name == n && I.HeadsForMove(pc))
    ensures OwnChange(s.infs, I.InfCall(s, pc, ledger).0.infs, n, pc)
  {
    hide I.InfCall, I.Moves, I.HeadsForMove;
    CallChangesInfs(s, pc, ledger);
  }

  lemma OwnInfWrite(s: System, n: string, ledger: nat)
    requires LedgerInv(s) && n in s.infPasses && ledger < |s.ledgers|
    ensures OwnChange(s.store.infs, I.InfCall(s.store, s.infPasses[n], s.ledgers[ledger]).0.infs, n, s.infPasses[n])
  {
    InfGateOf(s, n);
    hide LedgerInv, I.InfCall, I.HeadsForMove, OwnChange, I.Admitted;
    CallMakesOwnChange(s.store, n, s.infPasses[n], s.ledgers[ledger]);
  }

  /** A step changes metadata only, or it is the job's own pass's status write, an allowed move. */
  lemma InfStepMoves(s: System, a: Action, n: string)
    requires LedgerInv(s) && Enabled(s, a) && n in s.store.infs && n in Apply(s, a).store.infs
    ensures var b, j := s.store.infs[n], Apply(s, a).store.infs[n];
            MetadataOnly(b, j) || (a.InferenceStep? && a.name == n && n in s.infPasses
                                   && s.infPasses[n] == I.IWrite(b, j) && I.Moves(b, j))
  {
    hide LedgerInv, Enabled, Apply, I.InfCall, I.Moves;
    if a.InferenceStep? {
      InferenceStepMeans(s, a.name, a.ledger);
      OwnInfWrite(s, a.name, a.ledger);
    } else {
      InfsElsewhere(s, a);
      NamedInference(s, n);
    }
  }

  /** Apart from the passes' writes, jobs only come and go, or have their metadata edited. */
  lemma InfsElsewhere(s: System, a: Action)
    requires LedgerInv(s) && Enabled(s, a) && !a.InferenceStep?
    ensures var infs, t := s.store.infs, Apply(s, a).store.infs;
            if a.CreateInference? then
              a.name !in s.infNames && t == infs[a.name := NewInference(a.name, a.created, a.infSpec, a.finalizers)]
            else
              t.Keys <= infs.Keys && forall m :: m in t ==> MetadataOnly(infs[m], t[m])
  {
    hide LedgerInv, Enabled, Apply, T.TrainCall, T.ReadsOk, QueueCall, ChoiceOk;
    if a.DeleteInference? || a.EditFinalizers? {
      EditReplaces(s, a);
    } else if a.TrainStep? {
      TrainStepMeans(s, a.name, a.items, a.ledger);
      T.CallWrites(s.store, s.trainPasses[a.name], TrainReads(s, a.items, a.ledger));
    } else if a.QueueStep? {
      QueueStepMeans(s, a.after);
    } else {
      InfsLeftAlone(s, a);
    }
  }

  lemma InfsLeftAlone(s: System, a: Action)
    requires Enabled(s, a) && !a.TrainStep? && !a.InferenceStep? && !a.QueueStep?
    requires !a.DeleteInference? && !a.EditFinalizers?
    ensures var infs, t := s.store.infs, Apply(s, a).store.infs;
            if a.CreateInference? then
              a.name !in s.infNames && t == infs[a.name := NewInference(a.name, a.created, a.infSpec, a.finalizers)]
            else t == infs
  {
    hide T.TrainCall, I.InfCall, QueueCall, ChoiceOk, T.ReadsOk, T.Start, I.Start, Latest, I.Stored, NewTrain,
      NewInference;
  }

  lemma InfStillThere(s: System, a: Action, n: string)
    requires LedgerInv(s) && Enabled(s, a) && n in s.infNames && n in Apply(s, a).store.infs
    ensures n in s.store.infs
  {
    hide LedgerInv, Enabled, Apply, I.InfCall, I.Moves, MetadataOnly;
    if a.InferenceStep? {
      InferenceStepMeans(s, a.name, a.ledger);
      OwnInfWrite(s, a.name, a.ledger);
    } else {
      InfsElsewhere(s, a);
    }
  }

  lemma InfThereBefore(ss: seq<System>, acts: seq<Action>, i: nat, k: nat, n: string)
    requires Run(ss, acts) && i < k < |ss| && n in ss[i].store.infs && n in ss[k].store.infs
    ensures n in ss[k - 1].store.infs
  {
    hide Run, LedgerInv, Enabled, Apply;
    RunLedger(ss, acts, i);
    RunLedger(ss, acts, k - 1);
    NamedInference(ss[i], n);
    L.NamesGrowAlong(ss, acts, i, k - 1);
    RunStep(ss, acts, k - 1);
    InfStillThere(ss[k - 1], acts[k - 1], n);
  }

  // ---------------------------------------------------------------- progress and shutdown

  /**
   Progress over whole runs: the phase never moves back past its rank, so Starting is never re-entered
   and Failing only leads to Failed, which stays; the spec never changes.
   */
  lemma {:induction false} InferenceProgress(ss: seq<System>, acts: seq<Action>, i: nat, k: nat, n: string)
    requires Run(ss, acts) && i <= k < |ss| && n in ss[i].store.infs && n in ss[k].store.infs
    ensures var a, b := ss[i].store.infs[n], ss[k].store.infs[n];
            && a.spec == b.spec
            && I.Rank(a.phase) <= I.Rank(b.phase)
            && (a.phase == InfFailing ==> b.phase == InfFailing || b.phase == InfFailed)
            && (a.phase == InfFailed ==> b.phase == InfFailed)
            && (b.phase == InfStarting ==> !(a.phase == InfRunning || a.phase == InfRestarting))
    decreases k
  {
    hide Run, LedgerInv, Enabled, Apply;
    if i < k {
      InfThereBefore(ss, acts, i, k, n);
      InferenceProgress(ss, acts, i, k - 1, n);
      RunLedger(ss, acts, k - 1);
      RunStep(ss, acts, k - 1);
      InfStepMoves(ss[k - 1], acts[k - 1], n);
    }
  }

  lemma PodCreated(s: Store, n: string, pc: I.InfPc, ledger: seq<Entry>, m: string)
    requires pc.IDone? || (pc.b.name == n && I.HeadsForMove(pc))
    requires InfPassOk(n, pc, s.infs, s.servers)
    requires m !in s.servers && m in I.InfCall(s, pc, ledger).0.servers
    ensures m in s.infs && ServingInference(s.infs[m].phase)
  {
    hide I.Moves, I.Observed, I.Admitted, I.Without, InfPassKnows;
  }

  lemma PodCreatedBy(s: System, a: Action, n: string)
    requires Inv(s) && Enabled(s, a) && a.InferenceStep? && n !in s.store.servers && n in Apply(s, a).store.servers
    ensures n in s.store.infs && ServingInference(s.store.infs[n].phase)
  {
    hide Inv, Enabled, Apply, I.InfCall, InfPassOk, I.HeadsForMove;
    InferenceStepMeans(s, a.name, a.ledger);
    InfPassStands(s, a.name);
    PodCreated(s.store, a.name, s.infPasses[a.name], s.ledgers[a.ledger], n);
  }

  lemma OtherStepsCreateNoPod(s: System, a: Action, n: string)
    requires Enabled(s, a) && !a.InferenceStep? && n in Apply(s, a).store.servers
    ensures n in s.store.servers
  {
    hide Enabled, Apply, T.TrainCall, T.ReadsOk, QueueCall, ChoiceOk;
    if a.TrainStep? {
      TrainStepMeans(s, a.name, a.items, a.ledger);
      T.CallWrites(s.store, s.trainPasses[a.name], TrainReads(s, a.items, a.ledger));
    } else if a.QueueStep? {
      QueueStepMeans(s, a.after);
    } else {
      PodsLeftAlone(s, a);
    }
  }

  lemma PodsLeftAlone(s: System, a: Action)
    requires Enabled(s, a) && !a.InferenceStep? && !a.QueueStep? && !a.TrainStep?
    ensures Apply(s, a).store.servers == s.store.servers
            || (a.RemoveServer? && Apply(s, a).store.servers == s.store.servers - {a.name})
            || (a.ChangeServer? && a.name in s.store.servers
                && Apply(s, a).store.servers == s.store.servers[a.name := a.server])
  {
    hide T.TrainCall, I.InfCall, QueueCall, ChoiceOk, T.ReadsOk, T.Start, I.Start, Latest, I.Stored, NewTrain,
      NewInference;
  }

  /** A pod appears only by its own pass, and only for a job that is being served. */
  lemma PodsAppearForServedJobs(s: System, a: Action, n: string)
    requires Inv(s) && Enabled(s, a) && n !in s.store.servers && n in Apply(s, a).store.servers
    ensures n in s.store.infs && ServingInference(s.store.infs[n].phase)
  {
    hide Inv, Enabled, Apply;
    if a.InferenceStep? {
      PodCreatedBy(s, a, n);
    } else {
      OtherStepsCreateNoPod(s, a, n);
    }
  }

  lemma PodsHaveJobs(s: System, n: string)
    requires Inv(s) && n in s.store.servers
    ensures n in s.store.infs && HoldingInference(s.store.infs[n].phase)
  {
    assert ServersOk(s.store.infs, s.store.servers);
    hide LedgerInv, PodInv;
  }

  /**
   Two-stage shutdown: from the moment Failing is stored no pass creates a pod again, even one that
   was in flight then; and Failed is stored only once the pod is gone.
   */
  lemma NoPodAfterFailing(ss: seq<System>, acts: seq<Action>, i: nat, k: nat, n: string)
    requires FreshRun(ss, acts) && i <= k && k + 1 < |ss| && n in ss[i].store.infs && n in ss[k].store.infs
    requires ss[i].store.infs[n].phase == InfFailing || ss[i].store.infs[n].phase == InfFailed
    ensures n !in ss[k].store.servers ==> n !in ss[k + 1].store.servers
    ensures ss[k].store.infs[n].phase == InfFailed ==> n !in ss[k].store.servers
  {
    FreshRunIsRun(ss, acts);
    hide FreshRun, Run, Inv, Enabled, Apply;
    InferenceProgress(ss, acts, i, k, n);
    RunInv(ss, acts, k);
    RunStep(ss, acts, k);
    ShutDownStep(ss[k], acts[k], n);
  }

  lemma ShutDownStep(s: System, a: Action, n: string)
    requires Inv(s) && Enabled(s, a) && n in s.store.infs
    requires s.store.infs[n].phase == InfFailing || s.store.infs[n].phase == InfFailed
    ensures n !in s.store.servers ==> n !in Apply(s, a).store.servers
    ensures s.store.infs[n].phase == InfFailed ==> n !in s.store.servers
  {
    hide Inv, Enabled, Apply;
    if n in s.store.servers {
      PodsHaveJobs(s, n);
    } else if n in Apply(s, a).store.servers {
      PodsAppearForServedJobs(s, a, n);
    }
  }

  // ---------------------------------------------------------------- one pass within a run

  /** Action `p` begins a pass over `n`, which is the one still going on at state `i`. */
  ghost predicate OnePass(acts: seq<Action>, p: nat, i: nat, n: string) {
    && p < i <= |acts|
    && acts[p].BeginInference? && acts[p].infCopy.name == n
    && forall x :: p < x < i ==> !BeginsOrEnds(acts[x], n)
  }

  predicate BeginsOrEnds(a: Action, n: string) {
    (a.BeginInference? && a.infCopy.name == n) || (a.EndInference? && a.name == n)
  }

  /** A pass moves only by its own steps; it begins at its start. */
  lemma InfPassElsewhere(s: System, a: Action, n: string)
    requires Enabled(s, a) && !(a.InferenceStep? && a.name == n) && n in Apply(s, a).infPasses
    ensures (a.BeginInference? && a.infCopy.name == n && Apply(s, a).infPasses[n] == I.Start(a.infCopy))
            || (!BeginsOrEnds(a, n) && n in s.infPasses && Apply(s, a).infPasses[n] == s.infPasses[n])
  {
    if a.QueueStep? {
      hide Enabled, Apply, QueueCall, ChoiceOk;
      QueueStepMeans(s, a.after);
    } else if a.InferenceStep? {
      hide Enabled, Apply, I.InfCall;
      InferenceStepMeans(s, a.name, a.ledger);
    } else if a.BeginInference? {
      hide Enabled, Apply, I.Start, InferenceVersion;
      BeginMeans(s, NewTrain("", 0, TrainSpec(0, 0, 0, map[], "")), a.infCopy);
    } else {
      hide Enabled, Apply;
      InfPassesLeftAlone(s, a);
    }
  }

  lemma InfPassesLeftAlone(s: System, a: Action)
    requires Enabled(s, a) && !a.InferenceStep? && !a.QueueStep? && !a.BeginInference?
    ensures Apply(s, a).infPasses == if a.EndInference? then s.infPasses - {a.name} else s.infPasses
  {
    hide T.TrainCall, I.InfCall, QueueCall, ChoiceOk, T.ReadsOk, T.Start, I.Start, Latest, I.Stored, NewTrain,
      NewInference;
  }

  lemma SameCopy(s: System, n: string, ledger: nat)
    requires LedgerInv(s) && n in s.infPasses && ledger < |s.ledgers|
    requires !I.InfCall(s.store, s.infPasses[n], s.ledgers[ledger]).1.IDone?
    ensures !s.infPasses[n].IDone?
    ensures I.InfCall(s.store, s.infPasses[n], s.ledgers[ledger]).1.b == s.infPasses[n].b
  {
    InfGateOf(s, n);
    hide LedgerInv, I.HeadsForMove, I.Observed, I.Admitted;
    if !s.infPasses[n].IDone? {
      I.CallHeadsForMove(s.store, s.infPasses[n], s.ledgers[ledger]);
    }
  }

  lemma OnePassGoesOn(acts: seq<Action>, p: nat, i: nat, n: string)
    requires OnePass(acts, p, i, n) && i < |acts| && !BeginsOrEnds(acts[i], n)
    ensures OnePass(acts, p, i + 1, n)
  {
  }

  /** A pass in flight began with the copy it carries. */
  lemma {:induction false} PassBegan(ss: seq<System>, acts: seq<Action>, i: nat, n: string) returns (p: nat)
    requires Run(ss, acts) && i < |ss| && n in ss[i].infPasses && !ss[i].infPasses[n].IDone?
    ensures OnePass(acts, p, i, n) && acts[p].infCopy == ss[i].infPasses[n].b
    decreases i
  {
    NoPassAtFirst(ss, acts, n);
    hide Run, LedgerInv, Enabled, Apply, I.InfCall;
    RunStep(ss, acts, i - 1);
    RunLedger(ss, acts, i - 1);
    var s, a := ss[i - 1], acts[i - 1];
    if a.InferenceStep? && a.name == n {
      InferenceStepMeans(s, n, a.ledger);
      SameCopy(s, n, a.ledger);
      p := PassBegan(ss, acts, i - 1, n);
      OnePassGoesOn(acts, p, i - 1, n);
    } else {
      InfPassElsewhere(s, a, n);
      if a.BeginInference? && a.infCopy.name == n {
        p := i - 1;
        StartKeepsCopy(a.infCopy);
      } else {
        p := PassBegan(ss, acts, i - 1, n);
        OnePassGoesOn(acts, p, i - 1, n);
      }
    }
  }

  lemma StartKeepsCopy(b: InferenceJob)
    ensures !I.Start(b).IDone? ==> I.Start(b).b == b
  {
  }

  lemma NoPassAtFirst(ss: seq<System>, acts: seq<Action>, n: string)
    requires Run(ss, acts)
    ensures n !in ss[0].infPasses && |acts| + 1 == |ss|
  {
  }

  // ---------------------------------------------------------------- the restart budget along a run

  /** A pass that has judged the pod of the served job `b` and carries the verdict `j`. */
  predicate Verdict(pc: I.InfPc, b: InferenceJob, j: InferenceJob) {
    ServingInference(b.phase) && (pc == I.IEnsurePod(b, j) || pc == I.ICreatePod(b, j) || pc == I.IWrite(b, j))
  }

  predicate Judged(s: System, n: string, b: InferenceJob, j: InferenceJob) {
    n in s.infPasses && Verdict(s.infPasses[n], b, j)
  }

  lemma CallJudges(s: Store, n: string, pc: I.InfPc, ledger: seq<Entry>, b: InferenceJob, j: InferenceJob)
    requires pc.IDone? || (pc.b.name == n && I.HeadsForMove(pc))
    requires !Verdict(pc, b, j) && Verdict(I.InfCall(s, pc, ledger).1, b, j)
    ensures !pc.IDone? && pc.b == b && j == I.Observed(b, I.PodOf(s, n))
  {
    hide I.Observed, I.Admitted, I.Without, I.Moves;
  }

  lemma StartJudgesNobody(b: InferenceJob, x: InferenceJob, j: InferenceJob)
    ensures !Verdict(I.Start(b), x, j)
  {
  }

  lemma JudgedNow(s: System, a: Action, n: string, b: InferenceJob, j: InferenceJob)
    requires LedgerInv(s) && Enabled(s, a) && !Judged(s, n, b, j) && Judged(Apply(s, a), n, b, j)
    ensures a.InferenceStep? && a.name == n && n in s.infPasses && !s.infPasses[n].IDone? && s.infPasses[n].b == b
    ensures j == I.Observed(b, I.PodOf(s.store, n))
  {
    hide LedgerInv, Enabled, Apply, I.InfCall, I.Start, I.Observed, I.PodOf, Verdict, I.HeadsForMove;
    if a.InferenceStep? && a.name == n {
      InferenceStepMeans(s, n, a.ledger);
      InfGateOf(s, n);
      CallJudges(s.store, n, s.infPasses[n], s.ledgers[a.ledger], b, j);
    } else {
      InfPassElsewhere(s, a, n);
      if a.BeginInference? {
        StartJudgesNobody(a.infCopy, b, j);
      }
      assert false;
    }
  }

  /** The verdict a pass carries is on the pod that some state since the beginning of this very pass shows. */
  lemma {:induction false} VerdictHasPod(ss: seq<System>, acts: seq<Action>, i: nat, n: string, b: InferenceJob,
                                         j: InferenceJob)
    returns (p: nat, m: nat)
    requires Run(ss, acts) && i < |ss| && Judged(ss[i], n, b, j)
    ensures OnePass(acts, p, i, n) && acts[p].infCopy == b && p < m < i
    ensures j == I.Observed(b, I.PodOf(ss[m].store, n))
    decreases i
  {
    hide *;
    NoPassAtFirst(ss, acts, n);
    if i == 0 {
      NobodyJudgedAtFirst(ss, acts, n, b, j);
    } else {
      RunStep(ss, acts, i - 1);
      if Judged(ss[i - 1], n, b, j) {
        p, m := VerdictHasPod(ss, acts, i - 1, n, b, j);
        JudgedGoesOn(ss[i - 1], acts[i - 1], n, b, j);
        OnePassGoesOn(acts, p, i - 1, n);
      } else {
        p := FirstJudged(ss, acts, i, n, b, j);
        m := i - 1;
      }
    }
  }

  lemma FirstJudged(ss: seq<System>, acts: seq<Action>, i: nat, n: string, b: InferenceJob, j: InferenceJob)
    returns (p: nat)
    requires Run(ss, acts) && 0 < i < |ss| && !Judged(ss[i - 1], n, b, j) && Judged(ss[i], n, b, j)
    ensures OnePass(acts, p, i, n) && acts[p].infCopy == b && p < i - 1
    ensures j == I.Observed(b, I.PodOf(ss[i - 1].store, n))
  {
    NoPassAtFirst(ss, acts, n);
    hide Run, LedgerInv, Enabled, Apply, Judged, I.Observed;
    RunStep(ss, acts, i - 1);
    RunLedger(ss, acts, i - 1);
    JudgedNow(ss[i - 1], acts[i - 1], n, b, j);
    p := PassBegan(ss, acts, i - 1, n);
    OnePassGoesOn(acts, p, i - 1, n);
  }

  lemma JudgedGoesOn(s: System, a: Action, n: string, b: InferenceJob, j: InferenceJob)
    requires Enabled(s, a) && Judged(s, n, b, j) && Judged(Apply(s, a), n, b, j)
    ensures !BeginsOrEnds(a, n)
  {
    hide Enabled, Apply, Verdict, InferenceVersion;
    if a.BeginInference? {
      BeginMeans(s, NewTrain("", 0, TrainSpec(0, 0, 0, map[], "")), a.infCopy);
    } else if !a.InferenceStep? {
      InfPassElsewhere(s, a, n);
    }
  }

  lemma NobodyJudgedAtFirst(ss: seq<System>, acts: seq<Action>, n: string, b: InferenceJob, j: InferenceJob)
    requires Run(ss, acts)
    ensures !Judged(ss[0], n, b, j)
  {
  }

  /**
   The restart budget over whole runs: whenever the phase of a served job changes, a state since the
   beginning of the pass that writes it shows the pod that was judged. Into Running or Restarting its
   restarts were within the budget; into Failing they had used it up.
   */
  lemma PhaseChangeHonoursBudget(ss: seq<System>, acts: seq<Action>, i: nat, n: string) returns (p: nat, m: nat)
    requires Run(ss, acts) && i + 1 < |ss| && n in ss[i].store.infs && n in ss[i + 1].store.infs
    requires ServingInference(ss[i].store.infs[n].phase)
    requires ss[i + 1].store.infs[n].phase != ss[i].store.infs[n].phase
    ensures OnePass(acts, p, i, n) && acts[p].infCopy == ss[i].store.infs[n] && p < m < i
    ensures var j := ss[i + 1].store.infs[n];
            var restarts := I.Restarts(I.ContainersOf(I.PodOf(ss[m].store, n)));
            && (j.phase == InfRunning || j.phase == InfRestarting || j.phase == InfFailing)
            && (j.phase != InfFailing ==> restarts <= j.spec.maxRestarts)
            && (j.phase == InfFailing ==> restarts >= j.spec.maxRestarts)
  {
    hide Run, LedgerInv, Enabled, Apply, I.Restarts, I.ContainersOf, I.PodOf, I.StatusOfPod;
    RunLedger(ss, acts, i);
    RunStep(ss, acts, i);
    InfStepMoves(ss[i], acts[i], n);
    var b, j := ss[i].store.infs[n], ss[i + 1].store.infs[n];
    p, m := VerdictHasPod(ss, acts, i, n, b, j);
    I.RestartBudget(b, I.PodOf(ss[m].store, n));
  }

  /** The next call of the pass over `n` ends it without a write, the verdict being the phase the job has. */
  predicate EndsUnmoved(pc: I.InfPc) {
    && !pc.IDone? && ServingInference(pc.b.phase)
    && (pc.IGetPod? || ((pc.IEnsurePod? || pc.ICreatePod?) && pc.j.phase == pc.b.phase))
  }

  lemma UnmovedVerdict(s: Store, n: string, pc: I.InfPc, ledger: seq<Entry>)
    requires pc.IGetPod? && pc.b.name == n && I.InfCall(s, pc, ledger).1.IDone?
    ensures I.Observed(pc.b, I.PodOf(s, n)).phase == pc.b.phase
  {
    hide I.Observed;
  }

  /**
   And whenever a pass leaves a served job in the phase it is in, Running or another, the pod it judged
   had its restarts within the budget.
   */
  lemma KeptPhaseHonoursBudget(ss: seq<System>, acts: seq<Action>, i: nat, n: string) returns (p: nat, m: nat)
    requires Run(ss, acts) && i + 1 < |ss| && acts[i].InferenceStep? && acts[i].name == n
    requires n in ss[i].infPasses && EndsUnmoved(ss[i].infPasses[n])
    requires n in ss[i + 1].infPasses && ss[i + 1].infPasses[n].IDone?
    ensures OnePass(acts, p, i, n) && acts[p].infCopy == ss[i].infPasses[n].b && p < m <= i
    ensures I.Restarts(I.ContainersOf(I.PodOf(ss[m].store, n))) <= ss[i].infPasses[n].b.spec.maxRestarts
  {
    hide Run, LedgerInv, Enabled, Apply, I.Restarts, I.ContainersOf, I.PodOf, I.StatusOfPod, I.InfCall,
      I.HeadsForMove;
    RunLedger(ss, acts, i);
    RunStep(ss, acts, i);
    InfGateOf(ss[i], n);
    var pc := ss[i].infPasses[n];
    if pc.IGetPod? {
      p := PassBegan(ss, acts, i, n);
      m := i;
      InferenceStepMeans(ss[i], n, acts[i].ledger);
      UnmovedVerdict(ss[i].store, n, pc, ss[i].ledgers[acts[i].ledger]);
    } else {
      p, m := VerdictHasPod(ss, acts, i, n, pc.b, pc.j);
    }
    I.RestartBudget(pc.b, I.PodOf(ss[m].store, n));
  }
}
