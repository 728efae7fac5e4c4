/** Along every run: a job is Running or Succeeded because its whole gang was seen to be. */
module GangSafety {
  import opened ClusterTypes
  import opened QueueAdmission
  import opened Cluster
  import opened LedgerInvariant
  import opened LedgerSteps
  import opened LifecycleSafety
  import T = TrainLifecycle
  import I = InferenceLifecycle
  import O = OutdatedCopies

  // ---------------------------------------------------------------- one pass within a run

  /** Action `p` begins a pass over `n`, which is the one still going on at state `i`. */
  ghost predicate OneTrainPass(acts: seq<Action>, p: nat, i: nat, n: string) {
    && p < i <= |acts|
    && acts[p].BeginTrain? && acts[p].trainCopy.name == n
    && forall x :: p < x < i ==> !BeginsOrEnds(acts[x], n)
  }

  predicate BeginsOrEnds(a: Action, n: string) {
    (a.BeginTrain? && a.trainCopy.name == n) || (a.EndTrain? && a.name == n)
  }

  lemma PassGoesOn(acts: seq<Action>, p: nat, i: nat, n: string)
    requires OneTrainPass(acts, p, i, n) && i < |acts| && !BeginsOrEnds(acts[i], n)
    ensures OneTrainPass(acts, p, i + 1, n)
  {
  }

  lemma NoPassAtFirst(ss: seq<System>, acts: seq<Action>, n: string)
    requires Run(ss, acts)
    ensures n !in ss[0].trainPasses && |acts| + 1 == |ss|
  {
  }

  /** A pass that is still going on was neither begun nor ended by this step. */
  lemma PassStays(s: System, a: Action, n: string)
    requires Enabled(s, a) && n in s.trainPasses && n in Apply(s, a).trainPasses
    ensures !BeginsOrEnds(a, n)
  {
    if a.BeginTrain? {
      hide Enabled, Apply, TrainVersion;
      BeginMeans(s, a.trainCopy, NewInference("", 0, InferenceSpec(0, map[], ""), []));
    } else {
      hide T.TrainCall, I.InfCall, QueueCall, ChoiceOk, T.ReadsOk, T.Start, I.Start, Latest;
    }
  }

  lemma SameCopy(s: System, a: Action, n: string)
    requires LedgerInv(s) && Enabled(s, a) && a.TrainStep? && a.name == n
    requires n in Apply(s, a).trainPasses && !T.Over(Apply(s, a).trainPasses[n])
    ensures n in s.trainPasses && !T.Over(s.trainPasses[n]) && Apply(s, a).trainPasses[n].b == s.trainPasses[n].b
  {
    hide LedgerInv, Enabled, Apply, T.TrainCall, T.ReadsOk, T.HeadsForMove;
    TrainStepMeans(s, n, a.items, a.ledger);
    GateOf(s, n);
    OverStaysOver(s.store, s.trainPasses[n], TrainReads(s, a.items, a.ledger));
    if !T.Over(s.trainPasses[n]) {
      T.CallHeadsForMove(s.store, s.trainPasses[n], TrainReads(s, a.items, a.ledger));
    }
  }

  lemma StartKeepsCopy(b: TrainJob)
    ensures !T.Over(T.Start(b)) ==> T.Start(b).b == b
  {
  }

  /** A pass in flight carries the copy it began with. */
  lemma {:induction false} TrainPassBegan(ss: seq<System>, acts: seq<Action>, i: nat, n: string) returns (p: nat)
    requires Run(ss, acts) && i < |ss| && n in ss[i].trainPasses && !T.Over(ss[i].trainPasses[n])
    ensures OneTrainPass(acts, p, i, n) && acts[p].trainCopy == ss[i].trainPasses[n].b
    decreases i
  {
    NoPassAtFirst(ss, acts, n);
    hide Run, LedgerInv, Enabled, Apply, T.Start;
    RunStep(ss, acts, i - 1);
    RunLedger(ss, acts, i - 1);
    var s, a := ss[i - 1], acts[i - 1];
    if a.TrainStep? && a.name == n {
      SameCopy(s, a, n);
      p := TrainPassBegan(ss, acts, i - 1, n);
      PassGoesOn(acts, p, i - 1, n);
    } else {
      PassesElsewhere(s, a, n);
      if a.BeginTrain? && a.trainCopy.name == n && ss[i].trainPasses[n] == T.Start(a.trainCopy) {
        p := i - 1;
        StartKeepsCopy(a.trainCopy);
      } else {
        PassStays(s, a, n);
        p := TrainPassBegan(ss, acts, i - 1, n);
        PassGoesOn(acts, p, i - 1, n);
      }
    }
  }

  // ---------------------------------------------------------------- ranks

  /** Whatever copies passes begin with, specs agree, and pods have ranks of the gang. */
  ghost predicate RanksOk(s: System) {
    && (forall k :: k in s.store.workers ==> k.job in s.lastTrains && k.rank < s.lastTrains[k.job].spec.worldSize)
    && (forall n :: n in s.trainPasses && !T.Over(s.trainPasses[n]) ==>
          n in s.lastTrains && s.trainPasses[n].b.spec == s.lastTrains[n].spec)
  }

  lemma SpecsStay(s: System, a: Action)
    requires LedgerInv(s) && Enabled(s, a)
    ensures forall n :: n in s.lastTrains ==> n in Apply(s, a).lastTrains
                                              && Apply(s, a).lastTrains[n].spec == s.lastTrains[n].spec
  {
    hide LedgerInv, Enabled, Apply, T.ReadsOk;
    if a.TrainStep? {
      TrainStepMeans(s, a.name, a.items, a.ledger);
      TrainStepChanges(s, a.name, a.items, a.ledger);
      if Apply(s, a).lastTrains != s.lastTrains {
        LatestIsStored(s, s.trainPasses[a.name].b.name);
      }
    } else {
      TrainsElsewhere(s, a);
    }
  }

  lemma VersionHasSpec(s: System, v: TrainJob)
    requires LedgerInv(s) && TrainVersion(s, v)
    ensures v.name in s.lastTrains && v.spec == s.lastTrains[v.name].spec
  {
    hide InfLedger, TrainEntriesOk, TrainsHeld, LedgerOk, QuotaOk, QueuePassOk, TrainGatesOk, InfGatesOk;
    assert v in s.reportedTrains ==> EarlierTrain(v, s.lastTrains[v.name]);
  }

  lemma StepKeepsRanks(s: System, a: Action)
    requires LedgerInv(s) && Enabled(s, a) && RanksOk(s)
    ensures RanksOk(Apply(s, a))
  {
    hide LedgerInv, Enabled, Apply, TrainVersion, T.Start;
    var t := Apply(s, a);
    SpecsStay(s, a);
    forall k | k in t.store.workers ensures k.job in t.lastTrains && k.rank < t.lastTrains[k.job].spec.worldSize {
      if k !in s.store.workers {
        O.PodsAppearByDrivingCopies(s, a, k);
        PassRunsOn(s, k.job);
      }
    }
    forall n | n in t.trainPasses && !T.Over(t.trainPasses[n])
      ensures n in t.lastTrains && t.trainPasses[n].b.spec == t.lastTrains[n].spec
    {
      if a.TrainStep? && a.name == n {
        SameCopy(s, a, n);
      } else {
        PassesElsewhere(s, a, n);
        if a.BeginTrain? {
          BeginMeans(s, a.trainCopy, NewInference("", 0, InferenceSpec(0, map[], ""), []));
          StartKeepsCopy(a.trainCopy);
          VersionHasSpec(s, a.trainCopy);
        }
      }
    }
  }

  lemma PassRunsOn(s: System, n: string)
    requires RanksOk(s) && n in s.trainPasses && s.trainPasses[n].TCreatePod?
    ensures n in s.lastTrains && s.trainPasses[n].b.spec == s.lastTrains[n].spec
  {
  }

  lemma {:induction false} RanksAlong(ss: seq<System>, acts: seq<Action>, i: nat)
    requires Run(ss, acts) && i < |ss|
    ensures RanksOk(ss[i])
    decreases i
  {
    if i == 0 {
      hide LedgerInv;
    } else {
      hide Run, LedgerInv, Enabled, Apply, RanksOk;
      RanksAlong(ss, acts, i - 1);
      RunLedger(ss, acts, i - 1);
      RunStep(ss, acts, i - 1);
      StepKeepsRanks(ss[i - 1], acts[i - 1]);
    }
  }

  // ---------------------------------------------------------------- the gang behind a phase

  /** What the pods of the job's attempt show: every rank up, or every rank done, and none failed. */
  ghost predicate GangIs(s: System, b: TrainJob, phase: TrainPhase) {
    var w, n, a, size := s.store.workers, b.name, b.status.attempt, b.spec.worldSize;
    && (phase == Succeeded <==> T.AllSucceeded(w, n, a, size))
    && (phase == Running <==> T.AllUp(w, n, a, size) && !T.AllSucceeded(w, n, a, size))
    && (forall k :: k in w && k.job == n && k.attempt == a ==> w[k].phase != PodFailed)
  }

  predicate Reporting(s: System, n: string, b: TrainJob, st: TrainStatus) {
    n in s.trainPasses && s.trainPasses[n] == T.TWrite(b, st)
  }

  lemma CallReports(s: Store, pc: T.TrainPc, seen: T.Reads, st: TrainStatus)
    requires T.ReadsOk(s, pc, seen) && !T.Over(pc) && T.HeadsForMove(pc)
    requires !pc.TWrite? && T.TrainCall(s, pc, seen).1 == T.TWrite(pc.b, st)
    requires st.phase == Running || st.phase == Succeeded
    ensures pc.TListPods? && !T.Aggregate(s.workers, seen.items).failedPod.Some?
    ensures st.phase == T.NextPhase(pc.b.spec.worldSize, T.Aggregate(s.workers, seen.items))
  {
    hide T.Aggregate, T.Listing, T.Granted, T.AttemptPods, T.PreemptorGone, T.Moves, T.ServiceFor, T.NewGroup,
      T.NewWorker, T.NextPhase;
  }

  lemma ListedGang(s: System, n: string, seen: T.Reads)
    requires LedgerInv(s) && RanksOk(s) && n in s.trainPasses && s.trainPasses[n].TListPods?
    requires T.ReadsOk(s.store, s.trainPasses[n], seen)
    requires !T.Aggregate(s.store.workers, seen.items).failedPod.Some?
    ensures var b := s.trainPasses[n].b;
            GangIs(s, b, T.NextPhase(b.spec.worldSize, T.Aggregate(s.store.workers, seen.items)))
  {
    var b, w := s.trainPasses[n].b, s.store.workers;
    GateOf(s, n);
    LatestIsStored(s, n);
    T.GangPhase(w, b.name, b.status.attempt, b.spec.worldSize, seen.items);
    T.RetryNeedsFailedPod(s.store, b, seen);
    hide LedgerInv, T.AllSucceeded, T.AllUp, T.NextPhase, T.Aggregate;
  }

  lemma ReportDecided(s: System, a: Action, n: string, b: TrainJob, st: TrainStatus)
    requires LedgerInv(s) && RanksOk(s) && Enabled(s, a) && (st.phase == Running || st.phase == Succeeded)
    requires !Reporting(s, n, b, st) && Reporting(Apply(s, a), n, b, st)
    ensures n in s.trainPasses && !T.Over(s.trainPasses[n]) && s.trainPasses[n].b == b && GangIs(s, b, st.phase)
    ensures !BeginsOrEnds(a, n)
  {
    hide LedgerInv, RanksOk, Enabled, Apply, T.TrainCall, T.ReadsOk, T.HeadsForMove, T.Start, GangIs, T.NextPhase,
      T.Aggregate;
    if a.TrainStep? && a.name == n {
      TrainStepMeans(s, n, a.items, a.ledger);
      SameCopy(s, a, n);
      GateOf(s, n);
      var pc, seen := s.trainPasses[n], TrainReads(s, a.items, a.ledger);
      if pc.TWrite? {
        WriteEnds(s.store, pc, seen);
      }
      CallReports(s.store, pc, seen, st);
      ListedGang(s, n, seen);
    } else {
      PassesElsewhere(s, a, n);
      if a.BeginTrain? {
        StartReports(a.trainCopy);
      }
      assert false;
    }
  }

  lemma WriteEnds(s: Store, pc: T.TrainPc, seen: T.Reads)
    requires T.ReadsOk(s, pc, seen) && pc.TWrite?
    ensures T.Over(T.TrainCall(s, pc, seen).1)
  {
  }

  lemma StartReports(b: TrainJob)
    ensures T.Start(b).TWrite? ==> T.Start(b).st.phase != Running && T.Start(b).st.phase != Succeeded
  {
  }

  lemma {:induction false} ReportSawGang(ss: seq<System>, acts: seq<Action>, i: nat, n: string, b: TrainJob,
                                         st: TrainStatus)
    returns (p: nat, m: nat)
    requires Run(ss, acts) && i < |ss| && Reporting(ss[i], n, b, st) && (st.phase == Running || st.phase == Succeeded)
    ensures OneTrainPass(acts, p, i, n) && acts[p].trainCopy == b && p < m < i && GangIs(ss[m], b, st.phase)
    decreases i
  {
    hide *;
    NoPassAtFirst(ss, acts, n);
    NoReportWithoutPass(ss[0], n, b, st);
    RunStep(ss, acts, i - 1);
    RunLedger(ss, acts, i - 1);
    RanksAlong(ss, acts, i - 1);
    if Reporting(ss[i - 1], n, b, st) {
      p, m := ReportSawGang(ss, acts, i - 1, n, b, st);
      ReportIsPass(ss[i - 1], n, b, st);
      ReportIsPass(ss[i], n, b, st);
      PassStays(ss[i - 1], acts[i - 1], n);
    } else {
      ReportDecided(ss[i - 1], acts[i - 1], n, b, st);
      p := TrainPassBegan(ss, acts, i - 1, n);
      m := i - 1;
      PassIsEarlier(acts, p, i - 1, n);
    }
    PassGoesOn(acts, p, i - 1, n);
  }

  lemma PassIsEarlier(acts: seq<Action>, p: nat, i: nat, n: string)
    requires OneTrainPass(acts, p, i, n)
    ensures p < i <= |acts|
  {
  }

  lemma NoReportWithoutPass(s: System, n: string, b: TrainJob, st: TrainStatus)
    ensures n !in s.trainPasses ==> !Reporting(s, n, b, st)
  {
  }

  lemma ReportIsPass(s: System, n: string, b: TrainJob, st: TrainStatus)
    requires Reporting(s, n, b, st)
    ensures n in s.trainPasses
  {
  }

  /**
   Whenever the stored phase of a job becomes Running or Succeeded, a state since the beginning of the
   pass that writes it, over that very version of the job, shows the gang: into Succeeded every rank of
   the attempt has succeeded; into Running every rank runs or has succeeded, not all have, and no pod of
   the attempt has failed. This holds whatever outdated copies other passes began with.
   */
  lemma PhaseChangeSawGang(ss: seq<System>, acts: seq<Action>, i: nat, n: string) returns (p: nat, m: nat)
    requires Run(ss, acts) && i + 1 < |ss| && n in ss[i].store.trains && n in ss[i + 1].store.trains
    requires ss[i + 1].store.trains[n].status.phase == Running || ss[i + 1].store.trains[n].status.phase == Succeeded
    requires ss[i + 1].store.trains[n].status.phase != ss[i].store.trains[n].status.phase
    ensures OneTrainPass(acts, p, i, n) && acts[p].trainCopy == ss[i].store.trains[n] && p < m < i
    ensures GangIs(ss[m], ss[i].store.trains[n], ss[i + 1].store.trains[n].status.phase)
  {
    hide Run, LedgerInv, Enabled, Apply, GangIs, OneTrainPass;
    RunLedger(ss, acts, i);
    RunStep(ss, acts, i);
    TrainStepMoves(ss[i], acts[i], n);
    p, m := ReportSawGang(ss, acts, i, n, ss[i].store.trains[n], ss[i + 1].store.trains[n].status);
  }
}
