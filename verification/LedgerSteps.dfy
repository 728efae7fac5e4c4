/** The reconcilers' own steps keep the ledger's invariant, and so does every step of every run. */
module LedgerSteps {
  import opened Resources
  import opened ClusterTypes
  import opened QueueAdmission
  import opened Cluster
  import opened LedgerInvariant
  import T = TrainLifecycle
  import I = InferenceLifecycle

  // ---------------------------------------------------------------- what a queue pass writes

  /** What a pass leaves: the survivors, and at most one entry made from a listed queued job. */
  ghost predicate KeptOrNew(e: Entry, used: seq<Entry>, trains: Trains, infs: Infs) {
    || (e in used && Survives(e, trains, infs))
    || exists h :: Waiting(trains, infs, h) && e == EntryFor(h)
  }

  lemma PassEntries(quota: ResourceList, used: seq<Entry>, classes: map<string, int>, trains: Trains, infs: Infs,
                    after: seq<Entry>)
    requires QueueNext(quota, used, classes, trains, infs, after)
    ensures forall e :: e in used && Survives(e, trains, infs) ==> e in after
    ensures forall e :: e in after ==> KeptOrNew(e, used, trains, infs)
    ensures Unique(used) ==> Unique(after)
  {
    CleanKeepsSurvivors(used, trains, infs);
    AtMostTheHeadIsAdmitted(quota, used, classes, trains, infs, after);
    if Unique(used) {
      CleanKeepsUnique(used, trains, infs);
    }
  }

  /** A pass that has listed `ts` and `vs` is about to replace the stored ledger by `after`. */
  ghost predicate Due(s: System, classes: map<string, int>, ts: Trains, vs: Infs, after: seq<Entry>) {
    && LedgerInv(s)
    && TrainViewOk(ts, s.store.used, s.store.trains, s.seenTrains, s.reportedTrains)
    && InfViewOk(vs, s.store.used, s.store.infs, s.seenInfs, s.reportedInfs)
    && QueueNext(s.store.quota, s.store.used, classes, ts, vs, after)
  }

  lemma ListedDemandNonNegative(s: System, ts: Trains, vs: Infs, h: QueuedJob)
    requires LedgerInv(s) && Waiting(ts, vs, h)
    requires h.kind == Train ==> ts[h.name] in s.reportedTrains
    requires h.kind == Inference ==> vs[h.name] in s.reportedInfs
    ensures NonNegative(h.res)
  {
    if h.kind == Train {
      var spec := ts[h.name].spec;
      assert TrainOk(ts[h.name].name, s.lastTrains[ts[h.name].name]);
      forall r | r in h.res ensures 0 <= h.res[r] {
        assert h.res[r] == spec.requests[r] * spec.worldSize;
      }
    }
  }

  /** The ledger entry of a job that is alive in the entry's epoch is never dropped. */
  lemma LiveTrainEntrySurvives(s: System, ts: Trains, vs: Infs, e: Entry)
    requires LedgerInv(s) && e in s.store.used && e.kind == Train
    requires TrainViewOk(ts, s.store.used, s.store.trains, s.seenTrains, s.reportedTrains)
    requires e.name in s.store.trains && !TerminalTrain(s.store.trains[e.name].status.phase)
    requires e.requeueCount == s.store.trains[e.name].status.requeueCount
    ensures Survives(e, ts, vs)
  {
    assert e.name in ts && ts[e.name] in s.reportedTrains && ts[e.name].name == e.name;
    hide InfLedger, TrainEntriesOk, TrainsHeld, LedgerOk, QuotaOk, QueuePassOk, TrainGatesOk, InfGatesOk;
  }

  lemma LiveInfEntrySurvives(s: System, ts: Trains, vs: Infs, e: Entry)
    requires LedgerInv(s) && e in s.store.used && e.kind == Inference
    requires InfViewOk(vs, s.store.used, s.store.infs, s.seenInfs, s.reportedInfs)
    requires e.name in s.store.infs && s.store.infs[e.name].phase != InfFailed
    ensures Survives(e, ts, vs)
  {
    assert e.name in vs && vs[e.name] in s.reportedInfs && vs[e.name].name == e.name;
    hide TrainLedger, InfEntriesOk, InfsHeld, LedgerOk, QuotaOk, QueuePassOk, TrainGatesOk, InfGatesOk;
  }

  lemma PassKeepsTrainEntry(s: System, classes: map<string, int>, ts: Trains, vs: Infs, after: seq<Entry>, e: Entry)
    requires Due(s, classes, ts, vs, after) && e.kind == Train
    requires TrainEntryOk(e, s.store.trains, s.lastTrains, s.seenTrains, s.store.used)
    ensures TrainEntryOk(e, s.store.trains, s.lastTrains, s.seenTrains, after)
  {
    hide LedgerInv, QueueNext, TrainViewOk, InfViewOk, Survives, KeptOrNew;
    PassEntries(s.store.quota, s.store.used, classes, ts, vs, after);
    LatestIsStored(s, e.name);
    if e.name in s.store.trains && !TerminalTrain(s.store.trains[e.name].status.phase)
       && e.requeueCount == s.store.trains[e.name].status.requeueCount {
      LiveTrainEntrySurvives(s, ts, vs, e);
    }
  }

  lemma LatestIsStored(s: System, n: string)
    requires LedgerInv(s)
    ensures n in s.store.trains ==> n in s.lastTrains && s.lastTrains[n] == s.store.trains[n]
    ensures n in s.lastTrains ==> TrainOk(n, s.lastTrains[n])
  {
    hide InfLedger, TrainEntriesOk, TrainsHeld, SeenTrainsOk, LedgerOk, QuotaOk, QueuePassOk, TrainGatesOk,
      InfGatesOk;
  }

  lemma PassKeepsInfEntry(s: System, classes: map<string, int>, ts: Trains, vs: Infs, after: seq<Entry>, e: Entry)
    requires Due(s, classes, ts, vs, after) && e.kind == Inference
    requires InfEntryOk(e, s.store.infs, s.seenInfs, s.infNames, s.store.used)
    ensures InfEntryOk(e, s.store.infs, s.seenInfs, s.infNames, after)
  {
    hide LedgerInv, QueueNext, TrainViewOk, InfViewOk, Survives, KeptOrNew;
    PassEntries(s.store.quota, s.store.used, classes, ts, vs, after);
    if e.name in s.store.infs && s.store.infs[e.name].phase != InfFailed {
      LiveInfEntrySurvives(s, ts, vs, e);
    }
  }

  /** An entry made from a listed job. */
  lemma NewEntryOk(s: System, ts: Trains, vs: Infs, after: seq<Entry>, h: QueuedJob)
    requires LedgerInv(s) && Waiting(ts, vs, h) && EntryFor(h) in after
    requires TrainViewOk(ts, s.store.used, s.store.trains, s.seenTrains, s.reportedTrains)
    requires InfViewOk(vs, s.store.used, s.store.infs, s.seenInfs, s.reportedInfs)
    ensures NonNegative(h.res)
    ensures h.kind == Train ==> TrainEntryOk(EntryFor(h), s.store.trains, s.lastTrains, s.seenTrains, after)
    ensures h.kind == Inference ==> InfEntryOk(EntryFor(h), s.store.infs, s.seenInfs, s.infNames, after)
  {
    ListedDemandNonNegative(s, ts, vs, h);
    hide TrainEntriesOk, InfEntriesOk, TrainsHeld, InfsHeld, LedgerOk, QuotaOk, QueuePassOk, TrainGatesOk,
      InfGatesOk, NonNegative;
  }

  lemma WrittenEntryOk(s: System, classes: map<string, int>, ts: Trains, vs: Infs, after: seq<Entry>, e: Entry)
    requires Due(s, classes, ts, vs, after) && e in after
    ensures NonNegative(e.res)
    ensures e.kind == Train ==> TrainEntryOk(e, s.store.trains, s.lastTrains, s.seenTrains, after)
    ensures e.kind == Inference ==> InfEntryOk(e, s.store.infs, s.seenInfs, s.infNames, after)
  {
    hide QueueNext, TrainViewOk, InfViewOk, Survives, TrainEntryOk, InfEntryOk, LedgerInv, NonNegative;
    PassEntries(s.store.quota, s.store.used, classes, ts, vs, after);
    if e in s.store.used {
      UsedEntryOk(s, e);
      if e.kind == Train {
        PassKeepsTrainEntry(s, classes, ts, vs, after, e);
      } else {
        PassKeepsInfEntry(s, classes, ts, vs, after, e);
      }
    } else {
      var h :| Waiting(ts, vs, h) && e == EntryFor(h);
      NewEntryOk(s, ts, vs, after, h);
    }
  }

  lemma UsedEntryOk(s: System, e: Entry)
    requires LedgerInv(s) && e in s.store.used
    ensures NonNegative(e.res)
    ensures e.kind == Train ==> TrainEntryOk(e, s.store.trains, s.lastTrains, s.seenTrains, s.store.used)
    ensures e.kind == Inference ==> InfEntryOk(e, s.store.infs, s.seenInfs, s.infNames, s.store.used)
  {
    var i: nat :| i < |s.store.used| && s.store.used[i] == e;
    if e.kind == Train {
      UsedTrainEntryOk(s, i);
    } else {
      UsedInfEntryOk(s, i);
    }
    hide TrainLedger, InfLedger, QuotaOk, QueuePassOk, TrainGatesOk, InfGatesOk, TrainEntryOk, InfEntryOk,
      NonNegative;
  }

  lemma PassKeepsEntries(s: System, classes: map<string, int>, ts: Trains, vs: Infs, after: seq<Entry>)
    requires Due(s, classes, ts, vs, after)
    ensures TrainEntriesOk(s.store.trains, s.lastTrains, s.seenTrains, after, s.ledgers + [after])
    ensures InfEntriesOk(s.store.infs, s.seenInfs, s.infNames, after, s.ledgers + [after])
    ensures LedgerOk(after, s.ledgers + [after])
  {
    var longer: seq<seq<Entry>> := s.ledgers + [after];
    OldEntries(s);
    PassEntries(s.store.quota, s.store.used, classes, ts, vs, after);
    forall k: nat, i: nat | k < |longer| && i < |longer[k]|
      ensures longer[k][i].kind == Train
              ==> TrainEntryOk(longer[k][i], s.store.trains, s.lastTrains, s.seenTrains, after)
      ensures longer[k][i].kind == Inference ==> InfEntryOk(longer[k][i], s.store.infs, s.seenInfs, s.infNames, after)
    {
      var e := longer[k][i];
      if k == |s.ledgers| {
        WrittenEntryOk(s, classes, ts, vs, after, e);
      } else if e.kind == Train {
        PassKeepsTrainEntry(s, classes, ts, vs, after, e);
      } else {
        PassKeepsInfEntry(s, classes, ts, vs, after, e);
      }
    }
    forall i | 0 <= i < |after| ensures NonNegative(after[i].res) {
      WrittenEntryOk(s, classes, ts, vs, after, after[i]);
    }
    hide LedgerInv, QueueNext, TrainEntryOk, InfEntryOk, NonNegative, TrainViewOk, InfViewOk, KeptOrNew;
  }

  lemma OldEntries(s: System)
    requires LedgerInv(s)
    ensures TrainEntriesOk(s.store.trains, s.lastTrains, s.seenTrains, s.store.used, s.ledgers)
    ensures InfEntriesOk(s.store.infs, s.seenInfs, s.infNames, s.store.used, s.ledgers)
    ensures Unique(s.store.used)
  {
  }

  /** The entry by which a job holds its charge. */
  lemma TrainChargeOf(s: System, n: string) returns (e: Entry)
    requires LedgerInv(s) && n in s.store.trains && HoldingTrain(s.store.trains[n].status.phase)
    ensures e in s.store.used && s.store.trains[n].name == n && T.Matching(e, s.store.trains[n])
  {
    LatestIsStored(s, n);
    assert T.Granted(s.store.used, s.store.trains[n]);
    var i :| 0 <= i < |s.store.used| && T.Matching(s.store.used[i], s.store.trains[n]);
    e := s.store.used[i];
    hide InfLedger, SeenTrainsOk, TrainEntriesOk, LedgerOk, QuotaOk, QueuePassOk, TrainGatesOk, InfGatesOk;
  }

  lemma InferenceChargeOf(s: System, n: string) returns (e: Entry)
    requires LedgerInv(s) && n in s.store.infs && HoldingInference(s.store.infs[n].phase)
    ensures e in s.store.used && s.store.infs[n].name == n && e.name == n && e.kind == Inference
  {
    NamedInference(s, n);
    assert I.Admitted(s.store.used, s.store.infs[n]);
    var i :| 0 <= i < |s.store.used| && s.store.used[i].name == n && s.store.used[i].kind == Inference;
    e := s.store.used[i];
    hide TrainLedger, SeenInfsOk, InfEntriesOk, LedgerOk, QuotaOk, QueuePassOk, TrainGatesOk, InfGatesOk;
  }

  lemma PassKeepsTrainHeld(s: System, classes: map<string, int>, ts: Trains, vs: Infs, after: seq<Entry>, n: string)
    requires Due(s, classes, ts, vs, after)
    requires n in s.store.trains && HoldingTrain(s.store.trains[n].status.phase)
    ensures T.Granted(after, s.store.trains[n])
  {
    hide LedgerInv, QueueNext, Survives, KeptOrNew, TrainViewOk, InfViewOk;
    var e := TrainChargeOf(s, n);
    LiveTrainEntrySurvives(s, ts, vs, e);
    PassEntries(s.store.quota, s.store.used, classes, ts, vs, after);
    var x :| 0 <= x < |after| && after[x] == e;
    assert T.Matching(after[x], s.store.trains[n]);
  }

  lemma PassKeepsInfHeld(s: System, classes: map<string, int>, ts: Trains, vs: Infs, after: seq<Entry>, n: string)
    requires Due(s, classes, ts, vs, after)
    requires n in s.store.infs && HoldingInference(s.store.infs[n].phase)
    ensures I.Admitted(after, s.store.infs[n])
  {
    hide LedgerInv, QueueNext, Survives, KeptOrNew, TrainViewOk, InfViewOk;
    var e := InferenceChargeOf(s, n);
    LiveInfEntrySurvives(s, ts, vs, e);
    PassEntries(s.store.quota, s.store.used, classes, ts, vs, after);
    var x :| 0 <= x < |after| && after[x] == e;
  }

  lemma PassKeepsHeld(s: System, classes: map<string, int>, ts: Trains, vs: Infs, after: seq<Entry>)
    requires Due(s, classes, ts, vs, after)
    ensures TrainsHeld(s.store.trains, after) && InfsHeld(s.store.infs, after)
  {
    forall n | n in s.store.trains && HoldingTrain(s.store.trains[n].status.phase)
      ensures T.Granted(after, s.store.trains[n])
    {
      PassKeepsTrainHeld(s, classes, ts, vs, after, n);
    }
    forall n | n in s.store.infs && HoldingInference(s.store.infs[n].phase) ensures I.Admitted(after, s.store.infs[n]) {
      PassKeepsInfHeld(s, classes, ts, vs, after, n);
    }
    hide Due, T.Granted, I.Admitted;
  }

  lemma PassKeepsQuota(s: System, classes: map<string, int>, ts: Trains, vs: Infs, after: seq<Entry>)
    requires Due(s, classes, ts, vs, after)
    ensures QuotaOk(after, s.store.quota, s.quotas)
  {
    assert NonNegativeCharges(s.store.used) && QuotaOk(s.store.used, s.store.quota, s.quotas);
    forall r ensures Total(after, r) <= Peak(s.quotas, r) {
      PassNeverOvercommits(s.store.quota, s.store.used, classes, ts, vs, after, r);
      PeakBounds(s.quotas, r);
    }
    hide LedgerInv, QueueNext, TrainViewOk, InfViewOk;
  }

  /** A longer history of ledgers keeps what the gates have read. */
  lemma LongerHistoryKeepsGates(trainPasses: map<string, T.TrainPc>, infPasses: map<string, I.InfPc>, lasts: Trains,
                                infNames: set<string>, ledgers: seq<seq<Entry>>, after: seq<Entry>)
    requires TrainGatesOk(trainPasses, lasts, ledgers) && InfGatesOk(infPasses, infNames, ledgers)
    ensures TrainGatesOk(trainPasses, lasts, ledgers + [after]) && InfGatesOk(infPasses, infNames, ledgers + [after])
  {
    var longer := ledgers + [after];
    forall k | 0 <= k < |ledgers| ensures longer[k] == ledgers[k] {}
    forall n | n in trainPasses ensures TrainGateOk(n, trainPasses[n], longer) {
      var pc := trainPasses[n];
      assert TrainGateOk(n, pc, ledgers);
      if pc.TWrite? && pc.b.status.phase == Queued {
        var k :| 0 <= k < |ledgers| && T.Granted(ledgers[k], pc.b);
        assert T.Granted(longer[k], pc.b);
      }
    }
    forall n | n in infPasses ensures InfGateOk(n, infPasses[n], longer) {
      var pc := infPasses[n];
      assert InfGateOk(n, pc, ledgers);
      if pc.IWrite? && pc.b.phase == InfQueued {
        var k :| 0 <= k < |ledgers| && I.Admitted(ledgers[k], pc.b);
        assert I.Admitted(longer[k], pc.b);
      }
    }
  }

  lemma WriteKeepsLedger(s: System, classes: map<string, int>, ts: Trains, vs: Infs, after: seq<Entry>)
    requires Due(s, classes, ts, vs, after)
    ensures LedgerInv(s.(queuePass := QIdle, store := s.store.(used := after), ledgers := s.ledgers + [after]))
  {
    PassKeepsHeld(s, classes, ts, vs, after);
    PassKeepsQuota(s, classes, ts, vs, after);
    PassKeepsEntries(s, classes, ts, vs, after);
    LongerHistoryKeepsGates(s.trainPasses, s.infPasses, s.lastTrains, s.infNames, s.ledgers, after);
    hide LastsOk, InfsOk, SeenTrainsOk, SeenInfsOk, TrainEntriesOk, InfEntriesOk, TrainsHeld, InfsHeld, LedgerOk,
      QuotaOk, TrainGatesOk, InfGatesOk, QueueNext, TrainViewOk, InfViewOk;
  }

  // ---------------------------------------------------------------- the calls of a queue pass

  /** The cache is a good listing of the jobs: it holds every existing job that any ledger lists. */
  lemma CacheIsView(s: System)
    requires LedgerInv(s)
    ensures TrainViewOk(s.seenTrains, s.store.used, s.store.trains, s.seenTrains, s.reportedTrains)
    ensures InfViewOk(s.seenInfs, s.store.used, s.store.infs, s.seenInfs, s.reportedInfs)
  {
    CachedAreReported(s);
    forall i | 0 <= i < |s.store.used|
      ensures s.store.used[i].kind == Train && s.store.used[i].name in s.store.trains
              ==> s.store.used[i].name in s.seenTrains
      ensures s.store.used[i].kind == Inference && s.store.used[i].name in s.store.infs
              ==> s.store.used[i].name in s.seenInfs
    {
      UsedEntryOk(s, s.store.used[i]);
    }
    hide LedgerInv;
  }

  lemma QueueStepKeepsLedger(s: System, after: seq<Entry>)
    requires LedgerInv(s) && Enabled(s, QueueStep(after))
    ensures LedgerInv(Apply(s, QueueStep(after)))
  {
    hide Enabled, Apply, TrainLedger, InfLedger, LedgerOk, QuotaOk, TrainGatesOk, InfGatesOk, QueueNext, TrainViewOk,
      InfViewOk, SomeWaiting;
    QueueStepMeans(s, after);
    CacheIsView(s);
    match s.queuePass
    case QWrite(quota, used, classes, ts, vs, next) =>
      if s.store.quota == quota && s.store.used == used {
        WriteKeepsLedger(s, classes, ts, vs, next);
      }
    case _ =>
  }

  // ---------------------------------------------------------------- a train pass

  lemma CallKeepsGate(s: Store, n: string, pc: T.TrainPc, seen: T.Reads, ledgers: seq<seq<Entry>>, k: nat)
    requires T.ReadsOk(s, pc, seen) && k < |ledgers| && seen.ledger == ledgers[k]
    requires TrainGateOk(n, pc, ledgers)
    ensures TrainGateOk(n, T.TrainCall(s, pc, seen).1, ledgers)
  {
    hide T.HeadsForMove, T.Granted, T.Aggregate, T.Listing, T.AttemptPods, T.PreemptorGone;
    if !T.Over(pc) {
      T.CallHeadsForMove(s, pc, seen);
      StartsOnlyFromGate(s, pc, seen);
    }
  }

  /** Only the gate leads to the write that starts a queued job. */
  lemma StartsOnlyFromGate(s: Store, pc: T.TrainPc, seen: T.Reads)
    requires T.ReadsOk(s, pc, seen) && T.HeadsForMove(pc) && !T.Over(pc)
    ensures var next := T.TrainCall(s, pc, seen).1;
            next.TWrite? && next.b.status.phase == Queued ==> pc.TGetQueue? && T.Granted(seen.ledger, next.b)
  {
    hide T.Granted, T.Aggregate, T.Listing, T.AttemptPods, T.PreemptorGone, T.Moves;
  }

  /** What a call of a pass from any copy does to the jobs: nothing, or the write that finds its copy stored. */
  lemma CallChangesTrains(s: Store, pc: T.TrainPc, seen: T.Reads)
    requires T.ReadsOk(s, pc, seen)
    ensures var t := T.TrainCall(s, pc, seen).0;
            || t.trains == s.trains
            || (pc.TWrite? && pc.b.name in s.trains && s.trains[pc.b.name] == pc.b
                && t.trains == s.trains[pc.b.name := pc.b.(status := pc.st)])
  {
    hide T.Aggregate, T.Listing, T.Granted, T.AttemptPods, T.PreemptorGone, T.OnGroup, T.OnSummary, T.AtRank,
      T.Dropping;
  }

  lemma LatestOfStored(trains: Trains, lasts: Trains)
    requires LastsOk(trains, lasts)
    ensures Latest(lasts, trains) == lasts
  {
    assert Latest(lasts, trains).Keys == lasts.Keys;
  }

  lemma LatestOfWritten(trains: Trains, lasts: Trains, n: string, j: TrainJob)
    requires LastsOk(trains, lasts) && n in trains
    ensures Latest(lasts, trains[n := j]) == lasts[n := j]
  {
    assert Latest(lasts, trains[n := j]).Keys == lasts[n := j].Keys;
  }

  /** A job that starts owns a charge now, whichever version of the ledger its gate read. */
  lemma GateHolds(s: System, b: TrainJob, k: nat)
    requires LedgerInv(s) && b.name in s.store.trains && s.store.trains[b.name] == b
    requires !TerminalTrain(b.status.phase)
    requires k < |s.ledgers| && T.Granted(s.ledgers[k], b)
    ensures T.Granted(s.store.used, b)
  {
    var i :| 0 <= i < |s.ledgers[k]| && T.Matching(s.ledgers[k][i], b);
    var e := s.ledgers[k][i];
    assert TrainEntryOk(e, s.store.trains, s.lastTrains, s.seenTrains, s.store.used);
    var i' :| 0 <= i' < |s.store.used| && s.store.used[i'] == e;
    assert T.Matching(s.store.used[i'], b);
    hide InfLedger, SeenTrainsOk, TrainsHeld, LedgerOk, QuotaOk, QueuePassOk, TrainGatesOk, InfGatesOk;
  }

  lemma WriteKeepsTrains(trains: Trains, lasts: Trains, seen: Trains, reported: set<TrainJob>,
                         used: seq<Entry>, ledgers: seq<seq<Entry>>, b: TrainJob, st: TrainStatus)
    requires TrainLedger(trains, lasts, seen, reported, used, ledgers)
    requires b.name in trains && trains[b.name] == b && T.Moves(b, st)
    requires b.status.phase == Queued ==> T.Granted(used, b)
    ensures TrainLedger(trains[b.name := b.(status := st)], lasts[b.name := b.(status := st)], seen, reported, used,
                        ledgers)
  {
    var after, latest := trains[b.name := b.(status := st)], lasts[b.name := b.(status := st)];
    assert TrainOk(b.name, lasts[b.name]);
    forall k, i | 0 <= k < |ledgers| && 0 <= i < |ledgers[k]| && ledgers[k][i].kind == Train
      ensures TrainEntryOk(ledgers[k][i], after, latest, seen, used)
    {
      assert TrainEntryOk(ledgers[k][i], trains, lasts, seen, used);
    }
    forall n | n in after && HoldingTrain(after[n].status.phase) ensures T.Granted(used, after[n]) {
      if n == b.name {
        assert T.Granted(used, b);
        var i :| 0 <= i < |used| && T.Matching(used[i], b);
        assert T.Matching(used[i], after[n]);
      }
    }
  }

  /** What one call of a train pass does to the system. */
  lemma TrainStepChanges(s: System, n: string, items: seq<PodKey>, ledger: nat)
    requires LedgerInv(s) && Enabled(s, TrainStep(n, items, ledger))
    ensures var pc, t := s.trainPasses[n], Apply(s, TrainStep(n, items, ledger));
            && t == s.(store := t.store, trainPasses := t.trainPasses, lastTrains := t.lastTrains)
            && t.store == s.store.(trains := t.store.trains, services := t.store.services, groups := t.store.groups,
                                   workers := t.store.workers)
            && ((t.store.trains == s.store.trains && t.lastTrains == s.lastTrains)
                || (pc.TWrite? && pc.b.name in s.store.trains && s.store.trains[pc.b.name] == pc.b
                    && t.store.trains == s.store.trains[pc.b.name := pc.b.(status := pc.st)]
                    && t.lastTrains == s.lastTrains[pc.b.name := pc.b.(status := pc.st)]))
  {
    assert LastsOk(s.store.trains, s.lastTrains);
    hide LedgerInv, Enabled, Apply, T.TrainCall, T.ReadsOk, Latest, LastsOk;
    TrainStepMeans(s, n, items, ledger);
    var pc, seen := s.trainPasses[n], TrainReads(s, items, ledger);
    T.CallWrites(s.store, pc, seen);
    CallChangesTrains(s.store, pc, seen);
    LatestOfStored(s.store.trains, s.lastTrains);
    if pc.TWrite? && pc.b.name in s.store.trains {
      LatestOfWritten(s.store.trains, s.lastTrains, pc.b.name, pc.b.(status := pc.st));
    }
  }

  lemma TrainStepKeepsGates(s: System, n: string, items: seq<PodKey>, ledger: nat)
    requires LedgerInv(s) && Enabled(s, TrainStep(n, items, ledger))
    ensures var t := Apply(s, TrainStep(n, items, ledger)); TrainGatesOk(t.trainPasses, s.lastTrains, s.ledgers)
  {
    TrainStepMeans(s, n, items, ledger);
    assert TrainGateOk(n, s.trainPasses[n], s.ledgers);
    CallKeepsGate(s.store, n, s.trainPasses[n], TrainReads(s, items, ledger), s.ledgers, ledger);
    hide Enabled, Apply, TrainLedger, InfLedger, LedgerOk, QuotaOk, QueuePassOk, InfGatesOk, T.TrainCall, T.ReadsOk,
      TrainGateOk;
  }

  lemma TrainStepKeepsLedger(s: System, n: string, items: seq<PodKey>, ledger: nat)
    requires LedgerInv(s) && Enabled(s, TrainStep(n, items, ledger))
    ensures LedgerInv(Apply(s, TrainStep(n, items, ledger)))
  {
    hide Enabled, Apply, TrainLedger, InfLedger, LedgerOk, QuotaOk, QueuePassOk, InfGatesOk, TrainGateOk, T.Granted,
      T.Moves;
    TrainStepMeans(s, n, items, ledger);
    var pc, t := s.trainPasses[n], Apply(s, TrainStep(n, items, ledger));
    TrainStepChanges(s, n, items, ledger);
    TrainStepKeepsGates(s, n, items, ledger);
    QueuePassStays(s, t);
    if t.store.trains != s.store.trains || t.lastTrains != s.lastTrains {
      WriteIsGood(s, n);
      WriteKeepsTrains(s.store.trains, s.lastTrains, s.seenTrains, s.reportedTrains, s.store.used, s.ledgers, pc.b,
                       pc.st);
    }
  }

  lemma GateOf(s: System, n: string)
    requires LedgerInv(s) && n in s.trainPasses
    ensures n in s.lastTrains && TrainGateOk(n, s.trainPasses[n], s.ledgers)
  {
    hide TrainLedger, InfLedger, LedgerOk, QuotaOk, QueuePassOk, InfGatesOk, TrainGateOk;
  }

  /** The status write of a pass, if its copy is the stored job. */
  lemma WriteIsGood(s: System, n: string)
    requires LedgerInv(s) && n in s.trainPasses && s.trainPasses[n].TWrite?
    requires var b := s.trainPasses[n].b; b.name in s.store.trains && s.store.trains[b.name] == b
    ensures var pc := s.trainPasses[n];
            pc.b.name == n && T.Moves(pc.b, pc.st) && (pc.b.status.phase == Queued ==> T.Granted(s.store.used, pc.b))
  {
    var pc := s.trainPasses[n];
    GateOf(s, n);
    hide LedgerInv, T.Moves, T.Granted, T.HeadsForMove;
    T.WriteIsMove(pc);
    if pc.b.status.phase == Queued {
      var k :| 0 <= k < |s.ledgers| && T.Granted(s.ledgers[k], pc.b);
      GateHolds(s, pc.b, k);
    }
  }

  // ---------------------------------------------------------------- an inference pass

  lemma InferenceGateHolds(s: System, b: InferenceJob, k: nat)
    requires LedgerInv(s) && b.name in s.store.infs && s.store.infs[b.name].phase != InfFailed
    requires k < |s.ledgers| && I.Admitted(s.ledgers[k], b)
    ensures I.Admitted(s.store.used, b)
  {
    var i :| 0 <= i < |s.ledgers[k]| && s.ledgers[k][i].name == b.name && s.ledgers[k][i].kind == Inference;
    assert InfEntryOk(s.ledgers[k][i], s.store.infs, s.seenInfs, s.infNames, s.store.used);
    hide TrainLedger, SeenInfsOk, InfsHeld, LedgerOk, QuotaOk, QueuePassOk, TrainGatesOk, InfGatesOk;
  }

  lemma InfCallKeepsGate(s: Store, n: string, pc: I.InfPc, ledgers: seq<seq<Entry>>, k: nat)
    requires k < |ledgers| && InfGateOk(n, pc, ledgers)
    ensures InfGateOk(n, I.InfCall(s, pc, ledgers[k]).1, ledgers)
  {
    hide I.Admitted, I.Observed, I.Moves;
    if !pc.IDone? {
      I.CallHeadsForMove(s, pc, ledgers[k]);
    }
  }

  /**
   What a call of a pass from any copy does to the jobs: nothing, metadata, or the write that finds its copy
   stored.
   */
  lemma CallChangesInfs(s: Store, pc: I.InfPc, ledger: seq<Entry>)
    requires pc.IDone? || I.HeadsForMove(pc)
    ensures var infs := I.InfCall(s, pc, ledger).0.infs;
            || infs == s.infs
            || (!pc.IWrite? && !pc.IDone? && Replaced(s.infs, infs, pc.b.name))
            || (pc.IWrite? && I.Current(s, pc.b) && I.Moves(pc.b, pc.j) && infs == s.infs[pc.b.name := pc.j])
  {
    hide I.Observed, I.Without, I.Admitted;
  }

  lemma InfWriteKeepsLedger(infs: Infs, names: set<string>, seen: Infs, reported: set<InferenceJob>,
                            used: seq<Entry>, ledgers: seq<seq<Entry>>, b: InferenceJob, j: InferenceJob)
    requires InfLedger(infs, names, seen, reported, used, ledgers)
    requires b.name in infs && infs[b.name] == b && I.Moves(b, j)
    requires b.phase == InfQueued ==> I.Admitted(used, b)
    ensures InfLedger(infs[b.name := j], names, seen, reported, used, ledgers)
  {
    var after := infs[b.name := j];
    forall k, i | 0 <= k < |ledgers| && 0 <= i < |ledgers[k]| && ledgers[k][i].kind == Inference
      ensures InfEntryOk(ledgers[k][i], after, seen, names, used)
    {
      assert InfEntryOk(ledgers[k][i], infs, seen, names, used);
    }
    forall m | m in after && HoldingInference(after[m].phase) ensures I.Admitted(used, after[m]) {
      if m == b.name {
        assert I.Admitted(used, b);
      }
    }
  }

  lemma InfGateOf(s: System, n: string)
    requires LedgerInv(s) && n in s.infPasses
    ensures n in s.infNames && InfGateOk(n, s.infPasses[n], s.ledgers)
  {
    hide TrainLedger, InfLedger, LedgerOk, QuotaOk, QueuePassOk, TrainGatesOk, InfGateOk;
  }

  lemma InfWriteIsGood(s: System, n: string)
    requires LedgerInv(s) && n in s.infPasses && s.infPasses[n].IWrite? && I.Current(s.store, s.infPasses[n].b)
    ensures s.infPasses[n].b.phase == InfQueued ==> I.Admitted(s.store.used, s.infPasses[n].b)
  {
    var pc := s.infPasses[n];
    assert InfGateOk(n, pc, s.ledgers);
    if pc.b.phase == InfQueued {
      var k :| 0 <= k < |s.ledgers| && I.Admitted(s.ledgers[k], pc.b);
      InferenceGateHolds(s, pc.b, k);
    }
    hide TrainLedger, InfLedger, LedgerOk, QuotaOk, QueuePassOk, TrainGatesOk, I.Admitted;
  }

  lemma InferenceStepKeepsLedger(s: System, n: string, ledger: nat)
    requires LedgerInv(s) && Enabled(s, InferenceStep(n, ledger))
    ensures LedgerInv(Apply(s, InferenceStep(n, ledger)))
  {
    var pc := s.infPasses[n];
    assert InfGateOk(n, pc, s.ledgers);
    hide Enabled, Apply, TrainLedger, InfLedger, LedgerOk, QuotaOk, QueuePassOk, TrainGatesOk, I.InfCall, I.Admitted,
      I.Moves, Replaced, I.HeadsForMove;
    InferenceStepMeans(s, n, ledger);
    I.CallWrites(s.store, pc, s.ledgers[ledger]);
    CallChangesInfs(s.store, pc, s.ledgers[ledger]);
    InfCallKeepsGate(s.store, n, pc, s.ledgers, ledger);
    var t := Apply(s, InferenceStep(n, ledger));
    if t.store.infs != s.store.infs {
      if pc.IWrite? {
        InfWriteIsGood(s, n);
        InfWriteKeepsLedger(s.store.infs, s.infNames, s.seenInfs, s.reportedInfs, s.store.used, s.ledgers, pc.b, pc.j);
      } else {
        ReplacedKeepsLedger(s.store.infs, s.infNames, s.seenInfs, s.reportedInfs, s.store.used, s.ledgers,
                            t.store.infs, pc.b.name);
      }
    }
    FewerInfs(s, t, pc);
    QueuePassStays(s, t);
  }

  lemma FewerInfs(s: System, t: System, pc: I.InfPc)
    requires || t.store.infs == s.store.infs
             || (!pc.IDone? && Replaced(s.store.infs, t.store.infs, pc.b.name))
             || (pc.IWrite? && I.Current(s.store, pc.b) && t.store.infs == s.store.infs[pc.b.name := pc.j])
    ensures forall n :: n in t.store.infs ==> n in s.store.infs
  {
  }

  // ---------------------------------------------------------------- every step, every run

  lemma StepKeepsLedger(s: System, a: Action)
    requires LedgerInv(s) && Enabled(s, a)
    ensures LedgerInv(Apply(s, a))
  {
    hide LedgerInv, Enabled, Apply;
    match a
    case CreateTrain(_, _, _) => CreateTrainKeepsLedger(s, a);
    case DeleteTrain(_) => DeleteTrainKeepsLedger(s, a);
    case CreateInference(_, _, _, _) => CreateInferenceKeepsLedger(s, a);
    case DeleteInference(_) => EditKeepsLedger(s, a);
    case EditFinalizers(_, _) => EditKeepsLedger(s, a);
    case SetQuota(_) => SetQuotaKeepsLedger(s, a);
    case QueueStep(after) => QueueStepKeepsLedger(s, after);
    case BeginTrain(v) => BeginTrainKeepsLedger(s, v);
    case TrainStep(n, items, ledger) => TrainStepKeepsLedger(s, n, items, ledger);
    case BeginInference(v) => BeginInferenceKeepsLedger(s, v);
    case InferenceStep(n, ledger) => InferenceStepKeepsLedger(s, n, ledger);
    case _ =>
      if a.EndTrain? || a.EndInference? || a.EndQueue? {
        EndKeepsLedger(s, a);
      } else if CacheAction(a) {
        CacheKeepsLedger(s, a);
      } else {
        OtherSideKeepsLedger(s, a);
      }
  }

  /** The ledger's invariant holds all along every run. */
  lemma {:induction false} RunLedger(ss: seq<System>, acts: seq<Action>, i: nat)
    requires Run(ss, acts) && i < |ss|
    ensures LedgerInv(ss[i])
    decreases i
  {
    hide LedgerInv, Enabled, Apply;
    if i == 0 {
      InitLedger(ss[0]);
    } else {
      RunLedger(ss, acts, i - 1);
      RunStep(ss, acts, i - 1);
      StepKeepsLedger(ss[i - 1], acts[i - 1]);
    }
  }
}
