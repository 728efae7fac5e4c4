/**
 The inductive invariant of the ledger: what holds in every run, however old the copies are that the
 job reconcilers' passes begin with.
 */
module LedgerInvariant {
  import opened Resources
  import opened ClusterTypes
  import opened QueueAdmission
  import opened Cluster
  import T = TrainLifecycle
  import I = InferenceLifecycle

  // ---------------------------------------------------------------- train jobs and their entries

  /** The latest versions are on record: those that are stored, and those of deleted jobs. */
  ghost predicate LastsOk(trains: Trains, lasts: Trains) {
    && (forall n :: n in trains ==> n in lasts && lasts[n] == trains[n])
    && (forall n :: n in lasts ==> TrainOk(n, lasts[n]))
  }

  ghost predicate TrainOk(n: string, j: TrainJob) {
    j.name == n && TrainSpecOk(j.spec) && j.status.attempt <= Max(0, j.spec.retryLimit)
  }

  /** Every version a watch reported is an earlier version of the latest one. */
  ghost predicate SeenTrainsOk(lasts: Trains, seen: Trains, reported: set<TrainJob>) {
    && (forall v :: v in reported ==> v.name in lasts && EarlierTrain(v, lasts[v.name]))
    && (forall n :: n in seen ==> seen[n].name == n && seen[n] in reported)
  }

  predicate EarlierTrain(a: TrainJob, b: TrainJob) {
    && a.spec == b.spec
    && a.status.requeueCount <= b.status.requeueCount
    && (TerminalTrain(a.status.phase) ==> TerminalTrain(b.status.phase))
  }

  /**
   Every entry that was ever in the ledger: it carries no later epoch than its job, and exactly its
   demand; and if the job still exists the cache has met it, and while the job is alive in that very
   epoch the entry is still there.
   */
  ghost predicate TrainEntriesOk(trains: Trains, lasts: Trains, seen: Trains, used: seq<Entry>,
                                 ledgers: seq<seq<Entry>>)
  {
    forall k, i :: 0 <= k < |ledgers| && 0 <= i < |ledgers[k]| && ledgers[k][i].kind == Train
      ==> TrainEntryOk(ledgers[k][i], trains, lasts, seen, used)
  }

  ghost predicate TrainEntryOk(e: Entry, trains: Trains, lasts: Trains, seen: Trains, used: seq<Entry>) {
    && e.name in lasts
    && e.requeueCount <= lasts[e.name].status.requeueCount
    && e.res == TrainDemand(lasts[e.name].spec)
    && (e.name in trains ==>
          && e.name in seen
          && (!TerminalTrain(lasts[e.name].status.phase) && e.requeueCount == lasts[e.name].status.requeueCount
              ==> e in used))
  }

  ghost predicate TrainsHeld(trains: Trains, used: seq<Entry>) {
    forall n :: n in trains && HoldingTrain(trains[n].status.phase) ==> T.Granted(used, trains[n])
  }

  ghost predicate TrainLedger(trains: Trains, lasts: Trains, seen: Trains, reported: set<TrainJob>,
                              used: seq<Entry>, ledgers: seq<seq<Entry>>)
  {
    && LastsOk(trains, lasts)
    && SeenTrainsOk(lasts, seen, reported)
    && TrainEntriesOk(trains, lasts, seen, used, ledgers)
    && TrainsHeld(trains, used)
  }

  // ---------------------------------------------------------------- inference jobs and their entries

  ghost predicate InfsOk(infs: Infs, names: set<string>) {
    forall n :: n in infs ==> n in names && infs[n].name == n && InferenceSpecOk(infs[n].spec)
  }

  ghost predicate SeenInfsOk(infs: Infs, seen: Infs, reported: set<InferenceJob>, names: set<string>) {
    && (forall v :: v in reported ==> v.name in names && InferenceSpecOk(v.spec)
                                      && (v.name in infs ==> EarlierInference(v, infs[v.name])))
    && (forall n :: n in seen ==> seen[n].name == n && seen[n] in reported)
  }

  predicate EarlierInference(a: InferenceJob, b: InferenceJob) {
    a.spec == b.spec && (a.phase == InfFailed ==> b.phase == InfFailed)
  }

  ghost predicate InfEntriesOk(infs: Infs, seen: Infs, names: set<string>, used: seq<Entry>, ledgers: seq<seq<Entry>>) {
    forall k, i :: 0 <= k < |ledgers| && 0 <= i < |ledgers[k]| && ledgers[k][i].kind == Inference
      ==> InfEntryOk(ledgers[k][i], infs, seen, names, used)
  }

  ghost predicate InfEntryOk(e: Entry, infs: Infs, seen: Infs, names: set<string>, used: seq<Entry>) {
    && e.name in names
    && (e.name in infs ==>
          && e.name in seen
          && e.res == infs[e.name].spec.requests
          && (infs[e.name].phase != InfFailed ==> e in used))
  }

  ghost predicate InfsHeld(infs: Infs, used: seq<Entry>) {
    forall n :: n in infs && HoldingInference(infs[n].phase) ==> I.Admitted(used, infs[n])
  }

  ghost predicate InfLedger(infs: Infs, names: set<string>, seen: Infs, reported: set<InferenceJob>,
                            used: seq<Entry>, ledgers: seq<seq<Entry>>)
  {
    && InfsOk(infs, names)
    && SeenInfsOk(infs, seen, reported, names)
    && InfEntriesOk(infs, seen, names, used, ledgers)
    && InfsHeld(infs, used)
  }

  // ---------------------------------------------------------------- the ledger itself

  ghost predicate LedgerOk(used: seq<Entry>, ledgers: seq<seq<Entry>>) {
    && ledgers != [] && ledgers[|ledgers| - 1] == used
    && Unique(used) && NonNegativeCharges(used)
  }

  ghost predicate QuotaOk(used: seq<Entry>, quota: ResourceList, quotas: seq<ResourceList>) {
    && quotas != [] && quotas[|quotas| - 1] == quota
    && forall r :: Total(used, r) <= Peak(quotas, r)
  }

  // ---------------------------------------------------------------- passes in flight

  /** The jobs a queue pass has listed: reported versions, and every existing job that the ledger lists. */
  ghost predicate TrainViewOk(view: Trains, used: seq<Entry>, trains: Trains, seen: Trains, reported: set<TrainJob>) {
    && (forall n :: n in view ==> view[n].name == n && view[n] in reported && (n in trains ==> n in seen))
    && (forall i :: 0 <= i < |used| && used[i].kind == Train && used[i].name in trains ==> used[i].name in view)
  }

  ghost predicate InfViewOk(view: Infs, used: seq<Entry>, infs: Infs, seen: Infs, reported: set<InferenceJob>) {
    && (forall n :: n in view ==> view[n].name == n && view[n] in reported && (n in infs ==> n in seen))
    && (forall i :: 0 <= i < |used| && used[i].kind == Inference && used[i].name in infs ==> used[i].name in view)
  }

  /** A queue pass works on the ledger that is still stored, for nobody else writes it. */
  ghost predicate QueuePassOk(pc: QueuePc, used: seq<Entry>, trains: Trains, seenT: Trains, reportedT: set<TrainJob>,
                              infs: Infs, seenI: Infs, reportedI: set<InferenceJob>)
  {
    match pc
    case QIdle => true
    case QListTrains(_, u) => u == used
    case QListInfs(_, u, ts) => u == used && TrainViewOk(ts, used, trains, seenT, reportedT)
    case QListClasses(_, u, ts, vs) =>
      u == used && TrainViewOk(ts, used, trains, seenT, reportedT) && InfViewOk(vs, used, infs, seenI, reportedI)
    case QWrite(quota, u, classes, ts, vs, after) =>
      && u == used && TrainViewOk(ts, used, trains, seenT, reportedT) && InfViewOk(vs, used, infs, seenI, reportedI)
      && QueueNext(quota, used, classes, ts, vs, after)
  }

  /** A pass heads for allowed moves of its own job, and starts a job only on a charge some ledger has shown. */
  ghost predicate TrainGateOk(n: string, pc: T.TrainPc, ledgers: seq<seq<Entry>>) {
    !T.Over(pc) ==>
      && pc.b.name == n
      && T.HeadsForMove(pc)
      && (pc.TWrite? && pc.b.status.phase == Queued ==> exists k :: 0 <= k < |ledgers| && T.Granted(ledgers[k], pc.b))
  }

  ghost predicate TrainGatesOk(passes: map<string, T.TrainPc>, lasts: Trains, ledgers: seq<seq<Entry>>) {
    forall n :: n in passes ==> n in lasts && TrainGateOk(n, passes[n], ledgers)
  }

  ghost predicate InfGateOk(n: string, pc: I.InfPc, ledgers: seq<seq<Entry>>) {
    !pc.IDone? ==>
      && pc.b.name == n
      && I.HeadsForMove(pc)
      && (pc.IWrite? && pc.b.phase == InfQueued ==> exists k :: 0 <= k < |ledgers| && I.Admitted(ledgers[k], pc.b))
  }

  ghost predicate InfGatesOk(passes: map<string, I.InfPc>, names: set<string>, ledgers: seq<seq<Entry>>) {
    forall n :: n in passes ==> n in names && InfGateOk(n, passes[n], ledgers)
  }

  // ---------------------------------------------------------------- all of it

  ghost predicate LedgerInv(s: System) {
    && TrainLedger(s.store.trains, s.lastTrains, s.seenTrains, s.reportedTrains, s.store.used, s.ledgers)
    && InfLedger(s.store.infs, s.infNames, s.seenInfs, s.reportedInfs, s.store.used, s.ledgers)
    && LedgerOk(s.store.used, s.ledgers)
    && QuotaOk(s.store.used, s.store.quota, s.quotas)
    && QueuePassOk(s.queuePass, s.store.used, s.store.trains, s.seenTrains, s.reportedTrains,
                   s.store.infs, s.seenInfs, s.reportedInfs)
    && TrainGatesOk(s.trainPasses, s.lastTrains, s.ledgers)
    && InfGatesOk(s.infPasses, s.infNames, s.ledgers)
  }

  lemma InitLedger(s: System)
    requires Init(s)
    ensures LedgerInv(s)
  {
  }

  /** Entries of the current ledger, as entries of the last recorded one. */
  lemma CurrentEntry(s: System, e: Entry) returns (k: nat, i: nat)
    requires LedgerOk(s.store.used, s.ledgers) && e in s.store.used
    ensures k < |s.ledgers| && i < |s.ledgers[k]| && s.ledgers[k][i] == e
  {
    k := |s.ledgers| - 1;
    i :| i < |s.ledgers[k]| && s.ledgers[k][i] == e;
  }

  lemma UsedTrainEntryOk(s: System, i: nat)
    requires LedgerInv(s) && i < |s.store.used| && s.store.used[i].kind == Train
    ensures TrainEntryOk(s.store.used[i], s.store.trains, s.lastTrains, s.seenTrains, s.store.used)
  {
    assert s.ledgers[|s.ledgers| - 1][i] == s.store.used[i];
    hide InfLedger, QueuePassOk, TrainGatesOk, InfGatesOk, QuotaOk, TrainEntryOk, LastsOk, SeenTrainsOk, TrainsHeld;
  }

  lemma UsedInfEntryOk(s: System, i: nat)
    requires LedgerInv(s) && i < |s.store.used| && s.store.used[i].kind == Inference
    ensures InfEntryOk(s.store.used[i], s.store.infs, s.seenInfs, s.infNames, s.store.used)
  {
    assert s.ledgers[|s.ledgers| - 1][i] == s.store.used[i];
    hide TrainLedger, QueuePassOk, TrainGatesOk, InfGatesOk, QuotaOk, InfEntryOk, InfsOk, SeenInfsOk, InfsHeld;
  }

  /** What a queue pass has listed stays good while jobs come and go and the cache moves on. */
  lemma TrainViewStays(view: Trains, used: seq<Entry>, trains: Trains, seen: Trains, reported: set<TrainJob>,
                       lasts: Trains,
                       after: Trains, seenAfter: Trains, reportedAfter: set<TrainJob>)
    requires TrainViewOk(view, used, trains, seen, reported)
    requires forall v :: v in reported ==> v.name in lasts
    requires forall i :: 0 <= i < |used| && used[i].kind == Train ==> used[i].name in lasts
    requires forall n :: n in after ==> n in trains || n !in lasts
    requires forall n :: n in after && n in seen ==> n in seenAfter
    requires reported <= reportedAfter
    ensures TrainViewOk(view, used, after, seenAfter, reportedAfter)
  {
  }

  lemma InfViewStays(view: Infs, used: seq<Entry>, infs: Infs, seen: Infs, reported: set<InferenceJob>,
                     names: set<string>,
                     after: Infs, seenAfter: Infs, reportedAfter: set<InferenceJob>)
    requires InfViewOk(view, used, infs, seen, reported)
    requires forall v :: v in reported ==> v.name in names
    requires forall i :: 0 <= i < |used| && used[i].kind == Inference ==> used[i].name in names
    requires forall n :: n in after ==> n in infs || n !in names
    requires forall n :: n in after && n in seen ==> n in seenAfter
    requires reported <= reportedAfter
    ensures InfViewOk(view, used, after, seenAfter, reportedAfter)
  {
  }

  lemma QueuePassStays(s: System, t: System)
    requires LedgerInv(s) && t.queuePass == s.queuePass && t.store.used == s.store.used
    requires forall n :: n in t.store.trains ==> n in s.store.trains || n !in s.lastTrains
    requires forall n :: n in t.store.trains && n in s.seenTrains ==> n in t.seenTrains
    requires forall n :: n in t.store.infs ==> n in s.store.infs || n !in s.infNames
    requires forall n :: n in t.store.infs && n in s.seenInfs ==> n in t.seenInfs
    requires s.reportedTrains <= t.reportedTrains && s.reportedInfs <= t.reportedInfs
    ensures QueuePassOk(t.queuePass, t.store.used, t.store.trains, t.seenTrains, t.reportedTrains,
                        t.store.infs, t.seenInfs, t.reportedInfs)
  {
    var pc, used := s.queuePass, s.store.used;
    NamesOfEntries(s);
    hide TrainLedger, InfLedger, LedgerOk, QuotaOk, TrainGatesOk, InfGatesOk, QueueNext, TrainViewOk, InfViewOk;
    if pc.QListInfs? || pc.QListClasses? || pc.QWrite? {
      TrainViewStays(pc.trains, used, s.store.trains, s.seenTrains, s.reportedTrains, s.lastTrains,
                     t.store.trains, t.seenTrains, t.reportedTrains);
    }
    if pc.QListClasses? || pc.QWrite? {
      InfViewStays(pc.infs, used, s.store.infs, s.seenInfs, s.reportedInfs, s.infNames,
                   t.store.infs, t.seenInfs, t.reportedInfs);
    }
  }

  lemma NamesOfEntries(s: System)
    requires LedgerInv(s)
    ensures forall v :: v in s.reportedTrains ==> v.name in s.lastTrains
    ensures forall v :: v in s.reportedInfs ==> v.name in s.infNames
    ensures forall i :: 0 <= i < |s.store.used| && s.store.used[i].kind == Train
                        ==> s.store.used[i].name in s.lastTrains
    ensures forall i :: 0 <= i < |s.store.used| && s.store.used[i].kind == Inference
                        ==> s.store.used[i].name in s.infNames
  {
    forall i | 0 <= i < |s.store.used|
      ensures s.store.used[i].kind == Train ==> s.store.used[i].name in s.lastTrains
      ensures s.store.used[i].kind == Inference ==> s.store.used[i].name in s.infNames
    {
      if s.store.used[i].kind == Train {
        UsedTrainEntryOk(s, i);
      } else {
        UsedInfEntryOk(s, i);
      }
    }
    hide TrainEntriesOk, InfEntriesOk, TrainsHeld, InfsHeld, LedgerOk, QuotaOk, QueuePassOk, TrainGatesOk,
      InfGatesOk;
  }

  // ---------------------------------------------------------------- users

  lemma NewTrainKeepsLedger(trains: Trains, lasts: Trains, seen: Trains, reported: set<TrainJob>,
                            used: seq<Entry>, ledgers: seq<seq<Entry>>, n: string, j: TrainJob)
    requires TrainLedger(trains, lasts, seen, reported, used, ledgers)
    requires n !in lasts && TrainOk(n, j) && j.status.phase == NoPhase
    ensures TrainLedger(trains[n := j], lasts[n := j], seen, reported, used, ledgers)
  {
    forall k, i | 0 <= k < |ledgers| && 0 <= i < |ledgers[k]| && ledgers[k][i].kind == Train
      ensures TrainEntryOk(ledgers[k][i], trains[n := j], lasts[n := j], seen, used)
    {
      assert TrainEntryOk(ledgers[k][i], trains, lasts, seen, used);
    }
  }

  lemma CreateTrainKeepsLedger(s: System, a: Action)
    requires LedgerInv(s) && a.CreateTrain? && Enabled(s, a)
    ensures LedgerInv(Apply(s, a))
  {
    var st := s.store;
    QueuePassStays(s, Apply(s, a));
    NewTrainKeepsLedger(st.trains, s.lastTrains, s.seenTrains, s.reportedTrains, st.used, s.ledgers, a.name,
                        NewTrain(a.name, a.created, a.trainSpec));
    hide TrainLedger, InfLedger, LedgerOk, QuotaOk, QueuePassOk, InfGatesOk, TrainGateOk, T.TrainCall, I.InfCall,
      QueueCall, ChoiceOk;
  }

  lemma GoneTrainKeepsLedger(trains: Trains, lasts: Trains, seen: Trains, reported: set<TrainJob>,
                             used: seq<Entry>, ledgers: seq<seq<Entry>>, n: string)
    requires TrainLedger(trains, lasts, seen, reported, used, ledgers)
    ensures TrainLedger(trains - {n}, lasts, seen, reported, used, ledgers)
  {
    forall k, i | 0 <= k < |ledgers| && 0 <= i < |ledgers[k]| && ledgers[k][i].kind == Train
      ensures TrainEntryOk(ledgers[k][i], trains - {n}, lasts, seen, used)
    {
      assert TrainEntryOk(ledgers[k][i], trains, lasts, seen, used);
    }
  }

  lemma DeleteTrainKeepsLedger(s: System, a: Action)
    requires LedgerInv(s) && a.DeleteTrain? && Enabled(s, a)
    ensures LedgerInv(Apply(s, a))
  {
    var st := s.store;
    QueuePassStays(s, Apply(s, a));
    GoneTrainKeepsLedger(st.trains, s.lastTrains, s.seenTrains, s.reportedTrains, st.used, s.ledgers, a.name);
    hide TrainLedger, InfLedger, LedgerOk, QuotaOk, QueuePassOk, TrainGatesOk, InfGatesOk, T.TrainCall, I.InfCall,
      QueueCall, ChoiceOk;
  }

  lemma NewInferenceKeepsLedger(infs: Infs, names: set<string>, seen: Infs, reported: set<InferenceJob>,
                                used: seq<Entry>, ledgers: seq<seq<Entry>>, n: string, j: InferenceJob)
    requires InfLedger(infs, names, seen, reported, used, ledgers)
    requires n !in names && j.name == n && InferenceSpecOk(j.spec) && j.phase == InfNoPhase
    ensures InfLedger(infs[n := j], names + {n}, seen, reported, used, ledgers)
  {
    forall k, i | 0 <= k < |ledgers| && 0 <= i < |ledgers[k]| && ledgers[k][i].kind == Inference
      ensures InfEntryOk(ledgers[k][i], infs[n := j], seen, names + {n}, used)
    {
      assert InfEntryOk(ledgers[k][i], infs, seen, names, used);
    }
    var after := infs[n := j];
    forall m | m in after && HoldingInference(after[m].phase) ensures I.Admitted(used, after[m]) {
      assert m != n;
    }
  }

  lemma CreateInferenceKeepsLedger(s: System, a: Action)
    requires LedgerInv(s) && a.CreateInference? && Enabled(s, a)
    ensures LedgerInv(Apply(s, a))
  {
    var st := s.store;
    QueuePassStays(s, Apply(s, a));
    NewInferenceKeepsLedger(st.infs, s.infNames, s.seenInfs, s.reportedInfs, st.used, s.ledgers, a.name,
                            NewInference(a.name, a.created, a.infSpec, a.finalizers));
    hide TrainLedger, InfLedger, LedgerOk, QuotaOk, QueuePassOk, TrainGatesOk, InfGateOk, T.TrainCall, I.InfCall,
      QueueCall, ChoiceOk;
  }

  /** One object is gone, or keeps its name, phase and spec. */
  predicate Replaced(before: Infs, after: Infs, n: string) {
    && n in before
    && (after == before - {n}
        || (n in after && after == before[n := after[n]] && after[n].name == n
            && after[n].phase == before[n].phase && after[n].spec == before[n].spec))
  }

  lemma ReplacedKeepsLedger(infs: Infs, names: set<string>, seen: Infs, reported: set<InferenceJob>,
                            used: seq<Entry>, ledgers: seq<seq<Entry>>, after: Infs, n: string)
    requires InfLedger(infs, names, seen, reported, used, ledgers) && Replaced(infs, after, n)
    ensures InfLedger(after, names, seen, reported, used, ledgers)
  {
    forall k, i | 0 <= k < |ledgers| && 0 <= i < |ledgers[k]| && ledgers[k][i].kind == Inference
      ensures InfEntryOk(ledgers[k][i], after, seen, names, used)
    {
      assert InfEntryOk(ledgers[k][i], infs, seen, names, used);
    }
    forall m | m in after && HoldingInference(after[m].phase) ensures I.Admitted(used, after[m]) {
      assert I.Admitted(used, infs[m]);
      assert infs[m].name == after[m].name;
    }
  }

  lemma NamedInference(s: System, n: string)
    requires LedgerInv(s) && n in s.store.infs
    ensures n in s.infNames && s.store.infs[n].name == n
  {
    hide TrainLedger, LedgerOk, QuotaOk, QueuePassOk, TrainGatesOk, InfGatesOk, SeenInfsOk, InfEntriesOk, InfsHeld;
  }

  lemma EditReplaces(s: System, a: Action)
    requires LedgerInv(s) && (a.DeleteInference? || a.EditFinalizers?) && Enabled(s, a)
    ensures var t := Apply(s, a);
            t == s.(store := s.store.(infs := t.store.infs)) && Replaced(s.store.infs, t.store.infs, a.name)
  {
    hide LedgerInv, T.TrainCall, I.InfCall, QueueCall, ChoiceOk, T.Start, I.Start, T.ReadsOk, Latest, NewTrain,
      NewInference, TrainVersion, InferenceVersion;
    NamedInference(s, a.name);
  }

  lemma EditKeepsLedger(s: System, a: Action)
    requires LedgerInv(s) && (a.DeleteInference? || a.EditFinalizers?) && Enabled(s, a)
    ensures LedgerInv(Apply(s, a))
  {
    hide Enabled, Apply, TrainLedger, InfLedger, LedgerOk, QuotaOk, QueuePassOk, TrainGatesOk, InfGatesOk;
    var st, t := s.store, Apply(s, a);
    EditReplaces(s, a);
    QueuePassStays(s, t);
    ReplacedKeepsLedger(st.infs, s.infNames, s.seenInfs, s.reportedInfs, st.used, s.ledgers, t.store.infs, a.name);
  }

  lemma SetQuotaKeepsLedger(s: System, a: Action)
    requires LedgerInv(s) && a.SetQuota? && Enabled(s, a)
    ensures LedgerInv(Apply(s, a))
  {
    assert (s.quotas + [a.quota])[..|s.quotas|] == s.quotas;
    hide TrainLedger, InfLedger, LedgerOk, QueuePassOk, TrainGatesOk, InfGatesOk, T.TrainCall, I.InfCall, QueueCall,
      ChoiceOk;
  }

  /** What nobody but the environment and the pods' side touches. */
  ghost predicate SameLedgerSide(s: System, t: System) {
    && t.store.trains == s.store.trains && t.store.infs == s.store.infs
    && t.store.used == s.store.used && t.store.quota == s.store.quota
    && t == s.(store := t.store)
  }

  lemma OtherSideKeepsLedger(s: System, a: Action)
    requires LedgerInv(s) && Enabled(s, a)
    requires a.SetClasses? || a.EditServices? || a.ChangeWorker? || a.RemoveWorker? || a.MarkGroup? || a.RemoveGroup?
             || a.ChangeServer? || a.RemoveServer?
    ensures LedgerInv(Apply(s, a))
  {
    hide TrainLedger, InfLedger, LedgerOk, QuotaOk, QueuePassOk, TrainGatesOk, InfGatesOk, T.TrainCall, I.InfCall,
      QueueCall, ChoiceOk;
    assert SameLedgerSide(s, Apply(s, a));
  }

  // ---------------------------------------------------------------- watches and caches

  lemma TrainCacheKeepsLedger(trains: Trains, lasts: Trains, seen: Trains, reported: set<TrainJob>,
                              used: seq<Entry>, ledgers: seq<seq<Entry>>, seenAfter: Trains,
                                reportedAfter: set<TrainJob>)
    requires TrainLedger(trains, lasts, seen, reported, used, ledgers)
    requires forall v :: v in reportedAfter ==> v in reported || (v.name in trains && trains[v.name] == v)
    requires forall n :: n in seenAfter ==> seenAfter[n].name == n && seenAfter[n] in reportedAfter
    requires forall n :: n in seen && n in trains ==> n in seenAfter
    ensures TrainLedger(trains, lasts, seenAfter, reportedAfter, used, ledgers)
  {
    forall k, i | 0 <= k < |ledgers| && 0 <= i < |ledgers[k]| && ledgers[k][i].kind == Train
      ensures TrainEntryOk(ledgers[k][i], trains, lasts, seenAfter, used)
    {
      assert TrainEntryOk(ledgers[k][i], trains, lasts, seen, used);
    }
  }

  lemma InfCacheKeepsLedger(infs: Infs, names: set<string>, seen: Infs, reported: set<InferenceJob>,
                            used: seq<Entry>, ledgers: seq<seq<Entry>>, seenAfter: Infs,
                              reportedAfter: set<InferenceJob>)
    requires InfLedger(infs, names, seen, reported, used, ledgers)
    requires forall v :: v in reportedAfter ==> v in reported || (v.name in infs && infs[v.name] == v)
    requires forall n :: n in seenAfter ==> seenAfter[n].name == n && seenAfter[n] in reportedAfter
    requires forall n :: n in seen && n in infs ==> n in seenAfter
    ensures InfLedger(infs, names, seenAfter, reportedAfter, used, ledgers)
  {
    forall k, i | 0 <= k < |ledgers| && 0 <= i < |ledgers[k]| && ledgers[k][i].kind == Inference
      ensures InfEntryOk(ledgers[k][i], infs, seenAfter, names, used)
    {
      assert InfEntryOk(ledgers[k][i], infs, seen, names, used);
    }
  }

  /** What a watch reports and a cache holds. */
  lemma CachedAreReported(s: System)
    requires LedgerInv(s)
    ensures forall n :: n in s.seenTrains ==> s.seenTrains[n].name == n && s.seenTrains[n] in s.reportedTrains
    ensures forall n :: n in s.seenInfs ==> s.seenInfs[n].name == n && s.seenInfs[n] in s.reportedInfs
    ensures forall n :: n in s.store.trains ==> s.store.trains[n].name == n
    ensures forall n :: n in s.store.infs ==> s.store.infs[n].name == n
  {
    forall n | n in s.store.trains ensures s.store.trains[n].name == n {
      assert TrainOk(n, s.lastTrains[n]);
    }
    hide TrainEntriesOk, InfEntriesOk, TrainsHeld, InfsHeld, LedgerOk, QuotaOk, QueuePassOk, TrainGatesOk,
      InfGatesOk;
  }

  predicate CacheAction(a: Action) {
    a.ReportTrain? || a.ReportInference? || a.SyncTrain? || a.SyncInference? || a.ForgetTrain? || a.ForgetInference?
  }

  /** The caches take over what was reported, and drop only what is gone. */
  lemma TrainCacheMoves(s: System, a: Action)
    requires LedgerInv(s) && (a.ReportTrain? || a.SyncTrain? || a.ForgetTrain?) && Enabled(s, a)
    ensures var t := Apply(s, a);
            && t == s.(reportedTrains := t.reportedTrains, seenTrains := t.seenTrains)
            && s.reportedTrains <= t.reportedTrains
            && (forall v :: v in t.reportedTrains ==> v in s.reportedTrains
                                                      || (v.name in s.store.trains && s.store.trains[v.name] == v))
            && (forall n :: n in t.seenTrains ==> t.seenTrains[n].name == n && t.seenTrains[n] in t.reportedTrains)
            && (forall n :: n in s.seenTrains && n in s.store.trains ==> n in t.seenTrains)
  {
    CachedAreReported(s);
    hide LedgerInv, T.TrainCall, I.InfCall, QueueCall, ChoiceOk, T.Start, I.Start, T.ReadsOk;
  }

  lemma InfCacheMoves(s: System, a: Action)
    requires LedgerInv(s) && (a.ReportInference? || a.SyncInference? || a.ForgetInference?) && Enabled(s, a)
    ensures var t := Apply(s, a);
            && t == s.(reportedInfs := t.reportedInfs, seenInfs := t.seenInfs)
            && s.reportedInfs <= t.reportedInfs
            && (forall v :: v in t.reportedInfs ==> v in s.reportedInfs
                                                    || (v.name in s.store.infs && s.store.infs[v.name] == v))
            && (forall n :: n in t.seenInfs ==> t.seenInfs[n].name == n && t.seenInfs[n] in t.reportedInfs)
            && (forall n :: n in s.seenInfs && n in s.store.infs ==> n in t.seenInfs)
  {
    CachedAreReported(s);
    hide LedgerInv, T.TrainCall, I.InfCall, QueueCall, ChoiceOk, T.Start, I.Start, T.ReadsOk;
  }

  lemma CacheKeepsLedger(s: System, a: Action)
    requires LedgerInv(s) && CacheAction(a) && Enabled(s, a)
    ensures LedgerInv(Apply(s, a))
  {
    hide Enabled, Apply, TrainLedger, InfLedger, LedgerOk, QuotaOk, QueuePassOk, TrainGatesOk, InfGatesOk;
    var st, t := s.store, Apply(s, a);
    if a.ReportTrain? || a.SyncTrain? || a.ForgetTrain? {
      TrainCacheMoves(s, a);
      TrainCacheKeepsLedger(st.trains, s.lastTrains, s.seenTrains, s.reportedTrains, st.used, s.ledgers,
                            t.seenTrains, t.reportedTrains);
    } else {
      InfCacheMoves(s, a);
      InfCacheKeepsLedger(st.infs, s.infNames, s.seenInfs, s.reportedInfs, st.used, s.ledgers, t.seenInfs,
                          t.reportedInfs);
    }
    QueuePassStays(s, t);
  }

  // ---------------------------------------------------------------- passes begin and end

  lemma VersionsAreNamed(s: System, v: TrainJob, w: InferenceJob)
    requires LedgerInv(s)
    ensures TrainVersion(s, v) ==> v.name in s.lastTrains && EarlierTrain(v, s.lastTrains[v.name])
    ensures InferenceVersion(s, w) ==> w.name in s.infNames
  {
    hide TrainEntriesOk, InfEntriesOk, TrainsHeld, InfsHeld, LedgerOk, QuotaOk, QueuePassOk, TrainGatesOk,
      InfGatesOk;
  }

  lemma BeginTrainKeepsLedger(s: System, v: TrainJob)
    requires LedgerInv(s) && Enabled(s, BeginTrain(v))
    ensures LedgerInv(Apply(s, BeginTrain(v)))
  {
    hide Enabled, Apply, TrainLedger, InfLedger, LedgerOk, QuotaOk, QueuePassOk, InfGatesOk, T.HeadsForMove,
      TrainVersion;
    BeginMeans(s, v, NewInference("", 0, InferenceSpec(0, map[], ""), []));
    VersionsAreNamed(s, v, NewInference("", 0, InferenceSpec(0, map[], ""), []));
    T.StartHeadsForMove(v);
  }

  lemma BeginInferenceKeepsLedger(s: System, v: InferenceJob)
    requires LedgerInv(s) && Enabled(s, BeginInference(v))
    ensures LedgerInv(Apply(s, BeginInference(v)))
  {
    hide Enabled, Apply, TrainLedger, InfLedger, LedgerOk, QuotaOk, QueuePassOk, TrainGatesOk, I.HeadsForMove,
      InferenceVersion;
    BeginMeans(s, NewTrain("", 0, TrainSpec(0, 0, 0, map[], "")), v);
    VersionsAreNamed(s, NewTrain("", 0, TrainSpec(0, 0, 0, map[], "")), v);
    I.StartHeadsForMove(v);
  }

  lemma EndKeepsLedger(s: System, a: Action)
    requires LedgerInv(s) && (a.EndTrain? || a.EndInference? || a.EndQueue?) && Enabled(s, a)
    ensures LedgerInv(Apply(s, a))
  {
    hide TrainLedger, InfLedger, LedgerOk, QuotaOk, TrainGateOk, InfGateOk, T.TrainCall, I.InfCall, QueueCall,
      ChoiceOk, QueueNext, TrainViewOk, InfViewOk;
  }
}
