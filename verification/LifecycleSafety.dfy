/** Safety of the two lifecycles along whole runs: epochs, preemption, retries, restarts, progress. */
module LifecycleSafety {
  import opened Resources
  import opened ClusterTypes
  import opened QueueAdmission
  import opened Cluster
  import opened LedgerInvariant
  import opened LedgerSteps
  import opened PodInvariant
  import T = TrainLifecycle
  import I = InferenceLifecycle

  // ---------------------------------------------------------------- what one step does to a job

  /** A step leaves a train job alone, or it is its own pass's status write, an allowed move. */
  lemma TrainStepMoves(s: System, a: Action, n: string)
    requires LedgerInv(s) && Enabled(s, a) && n in s.store.trains && n in Apply(s, a).store.trains
    ensures var b, j := s.store.trains[n], Apply(s, a).store.trains[n];
            j == b || (a.TrainStep? && a.name == n && n in s.trainPasses
                       && s.trainPasses[n] == T.TWrite(b, j.status) && j == b.(status := j.status)
                          && T.Moves(b, j.status))
  {
    hide LedgerInv, Enabled, Apply, T.Moves, T.ReadsOk;
    if a.TrainStep? {
      TrainStepMeans(s, a.name, a.items, a.ledger);
      TrainStepChanges(s, a.name, a.items, a.ledger);
      if Apply(s, a).store.trains != s.store.trains {
        WriteIsGood(s, a.name);
      }
    } else {
      TrainsElsewhere(s, a);
      LatestIsStored(s, n);
    }
  }

  /** Apart from the passes' writes, jobs only come and go. */
  lemma TrainsElsewhere(s: System, a: Action)
    requires Enabled(s, a) && !a.TrainStep?
    ensures var t := Apply(s, a);
            if a.CreateTrain? then
              && a.name !in s.lastTrains
                 && t.lastTrains == s.lastTrains[a.name := NewTrain(a.name, a.created, a.trainSpec)]
              && t.store.trains == s.store.trains[a.name := NewTrain(a.name, a.created, a.trainSpec)]
            else if a.DeleteTrain? then t.store.trains == s.store.trains - {a.name} && t.lastTrains == s.lastTrains
            else t.store.trains == s.store.trains && t.lastTrains == s.lastTrains
  {
    if a.InferenceStep? {
      hide Enabled, Apply, I.InfCall;
      InferenceStepMeans(s, a.name, a.ledger);
      I.CallWrites(s.store, s.infPasses[a.name], s.ledgers[a.ledger]);
    } else if a.QueueStep? {
      hide Enabled, Apply, QueueCall, ChoiceOk;
      QueueStepMeans(s, a.after);
    } else if !a.CreateTrain? && !a.DeleteTrain? {
      hide Enabled, Apply;
      TrainsLeftAlone(s, a);
    } else {
      hide T.TrainCall, I.InfCall, QueueCall, ChoiceOk, T.ReadsOk, T.Start, I.Start;
    }
  }

  lemma TrainsLeftAlone(s: System, a: Action)
    requires Enabled(s, a) && !a.TrainStep? && !a.InferenceStep? && !a.QueueStep? && !a.CreateTrain? && !a.DeleteTrain?
    ensures Apply(s, a).store.trains == s.store.trains && Apply(s, a).lastTrains == s.lastTrains
  {
    hide Enabled, Apply;
    StoredLeftAlone(s, a);
    LatestLeftAlone(s, a);
  }

  lemma StoredLeftAlone(s: System, a: Action)
    requires Enabled(s, a) && !a.TrainStep? && !a.InferenceStep? && !a.QueueStep? && !a.CreateTrain? && !a.DeleteTrain?
    ensures Apply(s, a).store.trains == s.store.trains
  {
    hide T.TrainCall, I.InfCall, QueueCall, ChoiceOk, T.ReadsOk, T.Start, I.Start, Latest, I.Stored, NewTrain,
      NewInference, TrainVersion, InferenceVersion, Finished, TrainSpecOk, InferenceSpecOk;
  }

  lemma LatestLeftAlone(s: System, a: Action)
    requires Enabled(s, a) && !a.TrainStep? && !a.InferenceStep? && !a.QueueStep? && !a.CreateTrain?
    ensures Apply(s, a).lastTrains == s.lastTrains
  {
    hide T.TrainCall, I.InfCall, QueueCall, ChoiceOk, T.ReadsOk, T.Start, I.Start, Latest, I.Stored, NewTrain,
      NewInference, TrainVersion, InferenceVersion, Finished, TrainSpecOk, InferenceSpecOk;
  }

  /** A name that is taken is never given away again: an existing job existed all the time since. */
  lemma StillThere(s: System, a: Action, n: string)
    requires LedgerInv(s) && Enabled(s, a) && n in s.lastTrains && n in Apply(s, a).store.trains
    ensures n in s.store.trains
  {
    hide LedgerInv, Enabled, Apply, T.ReadsOk;
    if a.TrainStep? {
      TrainStepMeans(s, a.name, a.items, a.ledger);
      TrainStepChanges(s, a.name, a.items, a.ledger);
    } else {
      TrainsElsewhere(s, a);
    }
  }

  lemma NamesGrow(s: System, a: Action)
    requires LedgerInv(s) && Enabled(s, a)
    ensures s.lastTrains.Keys <= Apply(s, a).lastTrains.Keys && s.infNames <= Apply(s, a).infNames
  {
    hide LedgerInv, Enabled, Apply, T.ReadsOk, QueueCall, ChoiceOk;
    if a.TrainStep? {
      TrainStepMeans(s, a.name, a.items, a.ledger);
      TrainStepChanges(s, a.name, a.items, a.ledger);
    } else if a.QueueStep? {
      QueueStepMeans(s, a.after);
    } else {
      NamesGrowElsewhere(s, a);
    }
  }

  lemma NamesGrowElsewhere(s: System, a: Action)
    requires Enabled(s, a) && !a.TrainStep? && !a.QueueStep?
    ensures s.lastTrains.Keys <= Apply(s, a).lastTrains.Keys && s.infNames <= Apply(s, a).infNames
  {
    hide T.TrainCall, I.InfCall, QueueCall, ChoiceOk, T.ReadsOk, T.Start, I.Start, I.Stored, Latest;
  }

  lemma {:induction false} NamesGrowAlong(ss: seq<System>, acts: seq<Action>, i: nat, k: nat)
    requires Run(ss, acts) && i <= k < |ss|
    ensures ss[i].lastTrains.Keys <= ss[k].lastTrains.Keys && ss[i].infNames <= ss[k].infNames
    decreases k
  {
    hide Run, LedgerInv, Enabled, Apply;
    if i < k {
      NamesGrowAlong(ss, acts, i, k - 1);
      RunStep(ss, acts, k - 1);
      RunLedger(ss, acts, k - 1);
      NamesGrow(ss[k - 1], acts[k - 1]);
    }
  }

  /** Between two states in which a train job exists it exists throughout. */
  lemma ThereBefore(ss: seq<System>, acts: seq<Action>, i: nat, k: nat, n: string)
    requires Run(ss, acts) && i < k < |ss| && n in ss[i].store.trains && n in ss[k].store.trains
    ensures n in ss[k - 1].store.trains
  {
    hide Run, LedgerInv, Enabled, Apply;
    RunLedger(ss, acts, i);
    RunLedger(ss, acts, k - 1);
    LatestIsStored(ss[i], n);
    NamesGrowAlong(ss, acts, i, k - 1);
    RunStep(ss, acts, k - 1);
    StillThere(ss[k - 1], acts[k - 1], n);
  }

  // ---------------------------------------------------------------- progress of train jobs

  function Rank(p: TrainPhase): nat {
    match p
    case NoPhase => 0
    case Submitted => 1
    case Queued => 2
    case Starting => 3
    case Running => 3
    case Retrying => 3
    case Preempted => 4
    case Succeeded => 5
    case Failed => 5
  }

  /** (RequeueCount, rank of the phase, Attempt) never decreases lexicographically. */
  predicate NotBehind(a: TrainStatus, b: TrainStatus) {
    || a.requeueCount < b.requeueCount
    || (a.requeueCount == b.requeueCount && Rank(a.phase) < Rank(b.phase))
    || (a.requeueCount == b.requeueCount && Rank(a.phase) == Rank(b.phase) && a.attempt <= b.attempt)
  }

  /**
   Progress over whole runs: the progress triple never decreases, Attempt itself never decreases, the
   spec stays, and a finished job keeps its status.
   */
  lemma {:induction false} TrainProgress(ss: seq<System>, acts: seq<Action>, i: nat, k: nat, n: string)
    requires Run(ss, acts) && i <= k < |ss| && n in ss[i].store.trains && n in ss[k].store.trains
    ensures var a, b := ss[i].store.trains[n], ss[k].store.trains[n];
            && NotBehind(a.status, b.status)
            && a.status.attempt <= b.status.attempt
            && a.spec == b.spec
            && (TerminalTrain(a.status.phase) ==> b == a)
    decreases k
  {
    hide Run, LedgerInv, Enabled, Apply;
    if i < k {
      ThereBefore(ss, acts, i, k, n);
      TrainProgress(ss, acts, i, k - 1, n);
      RunLedger(ss, acts, k - 1);
      RunStep(ss, acts, k - 1);
      TrainStepMoves(ss[k - 1], acts[k - 1], n);
    }
  }

  /** The retry budget: Attempt stays within the limit in every state (and at 0 when the limit is negative). */
  lemma RetryBudget(ss: seq<System>, acts: seq<Action>, i: nat, n: string)
    requires Run(ss, acts) && i < |ss| && n in ss[i].store.trains
    ensures 0 <= ss[i].store.trains[n].status.attempt <= Max(0, ss[i].store.trains[n].spec.retryLimit)
  {
    hide Run, LedgerInv;
    RunLedger(ss, acts, i);
    LatestIsStored(ss[i], n);
  }

  /** A preempted victim starts again only on a later epoch, that is, on a charge made after its release. */
  lemma VictimNeedsNewCharge(ss: seq<System>, acts: seq<Action>, i: nat, k: nat, n: string)
    requires Run(ss, acts) && i <= k < |ss| && n in ss[i].store.trains && n in ss[k].store.trains
    requires ss[i].store.trains[n].status.phase == Preempted && DrivingTrain(ss[k].store.trains[n].status.phase)
    ensures exists e :: e in ss[k].store.used && Ref(e) == JobRef(n, Train)
                        && ss[i].store.trains[n].status.requeueCount < e.requeueCount
  {
    hide Run, LedgerInv;
    TrainProgress(ss, acts, i, k, n);
    RunLedger(ss, acts, k);
    var e := TrainChargeOf(ss[k], n);
    assert e in ss[k].store.used && Ref(e) == JobRef(n, Train);
  }

  // ---------------------------------------------------------------- preemption episodes

  ghost predicate Requeue(ss: seq<System>, n: string, i: nat)
    requires i + 1 < |ss|
  {
    && n in ss[i].store.trains && n in ss[i + 1].store.trains
    && ss[i].store.trains[n].status.phase == Preempted && ss[i + 1].store.trains[n].status.phase == Queued
  }

  ghost predicate Preemption(ss: seq<System>, n: string, i: nat)
    requires i + 1 < |ss|
  {
    && n in ss[i].store.trains && n in ss[i + 1].store.trains
    && ss[i].store.trains[n].status.phase == Running && ss[i + 1].store.trains[n].status.phase == Preempted
  }

  ghost function Requeues(ss: seq<System>, n: string, i: nat): nat
    requires i < |ss|
  {
    if i == 0 then 0 else Requeues(ss, n, i - 1) + (if Requeue(ss, n, i - 1) then 1 else 0)
  }

  ghost function Preemptions(ss: seq<System>, n: string, i: nat): nat
    requires i < |ss|
  {
    if i == 0 then 0 else Preemptions(ss, n, i - 1) + (if Preemption(ss, n, i - 1) then 1 else 0)
  }

  lemma {:induction false} NoEpisodesBefore(ss: seq<System>, acts: seq<Action>, i: nat, n: string)
    requires Run(ss, acts) && i < |ss| && n !in ss[i].lastTrains
    ensures Requeues(ss, n, i) == 0 && Preemptions(ss, n, i) == 0
    decreases i
  {
    hide *;
    if i == 0 {
      NoEpisodesAtFirst(ss, n);
    } else {
      UnknownBefore(ss, acts, i, n);
      NoEpisodesBefore(ss, acts, i - 1, n);
      NoEpisodeAtCreation(ss, n, i);
    }
  }

  lemma NoEpisodesAtFirst(ss: seq<System>, n: string)
    requires ss != []
    ensures Requeues(ss, n, 0) == 0 && Preemptions(ss, n, 0) == 0
  {
  }

  lemma UnknownBefore(ss: seq<System>, acts: seq<Action>, i: nat, n: string)
    requires Run(ss, acts) && 0 < i < |ss| && n !in ss[i].lastTrains
    ensures n !in ss[i - 1].lastTrains && n !in ss[i - 1].store.trains
  {
    hide Run, LedgerInv;
    NamesGrowAlong(ss, acts, i - 1, i);
    RunLedger(ss, acts, i - 1);
    assert n !in ss[i - 1].lastTrains.Keys;
    UnknownTrain(ss[i - 1], n);
  }

  lemma UnknownTrain(s: System, n: string)
    requires LedgerInv(s) && n !in s.lastTrains
    ensures n !in s.store.trains
  {
    LatestIsStored(s, n);
    hide LedgerInv;
  }

  /** A job that comes to exist in a step was created by it. */
  lemma JustCreated(s: System, a: Action, n: string)
    requires LedgerInv(s) && Enabled(s, a) && n !in s.store.trains && n in Apply(s, a).store.trains
    ensures n !in s.lastTrains
    ensures Apply(s, a).store.trains[n].status.phase == NoPhase
    ensures Apply(s, a).store.trains[n].status.requeueCount == 0 && Apply(s, a).store.trains[n].status.attempt == 0
  {
    hide LedgerInv, Enabled, Apply, T.ReadsOk;
    if a.TrainStep? {
      TrainStepMeans(s, a.name, a.items, a.ledger);
      TrainStepChanges(s, a.name, a.items, a.ledger);
    } else {
      TrainsElsewhere(s, a);
    }
  }

  /** How one step of an existing job counts. */
  lemma EpisodeStep(ss: seq<System>, n: string, i: nat)
    requires 0 < i < |ss| && n in ss[i - 1].store.trains && n in ss[i].store.trains
    requires var b, j := ss[i - 1].store.trains[n], ss[i].store.trains[n];
             j == b || (j == b.(status := j.status) && T.Moves(b, j.status))
    ensures var b, j := ss[i - 1].store.trains[n].status, ss[i].store.trains[n].status;
            && j.requeueCount - b.requeueCount == Requeues(ss, n, i) - Requeues(ss, n, i - 1)
            && Preemptions(ss, n, i) - Preemptions(ss, n, i - 1) - (j.requeueCount - b.requeueCount)
               == (if j.phase == Preempted then 1 else 0) - (if b.phase == Preempted then 1 else 0)
  {
    var b, j := ss[i - 1].store.trains[n], ss[i].store.trains[n];
    if j != b {
      T.MovesBumpOnRelease(b, j.status);
    }
    hide T.Moves;
  }

  lemma NoEpisodeAtCreation(ss: seq<System>, n: string, i: nat)
    requires 0 < i < |ss| && n !in ss[i - 1].store.trains
    ensures Requeues(ss, n, i) == Requeues(ss, n, i - 1) && Preemptions(ss, n, i) == Preemptions(ss, n, i - 1)
  {
  }

  /**
   Each preemption episode bumps RequeueCount exactly once, however often passes die on the way: the
   count equals the number of releases so far, and the number of preemptions is that, plus one exactly
   while the job is preempted.
   */
  lemma {:induction false} OneBumpPerEpisode(ss: seq<System>, acts: seq<Action>, i: nat, n: string)
    requires Run(ss, acts) && i < |ss| && n in ss[i].store.trains
    ensures var st := ss[i].store.trains[n].status;
            && st.requeueCount == Requeues(ss, n, i)
            && Preemptions(ss, n, i) == st.requeueCount + (if st.phase == Preempted then 1 else 0)
    decreases i
  {
    hide Run, LedgerInv, Enabled, Apply, Requeues, Preemptions, T.Moves;
    if i == 0 {
      NoTrainAtFirst(ss, acts, n);
    } else {
      RunLedger(ss, acts, i - 1);
      RunStep(ss, acts, i - 1);
      if n in ss[i - 1].store.trains {
        OneBumpPerEpisode(ss, acts, i - 1, n);
        TrainStepMoves(ss[i - 1], acts[i - 1], n);
        EpisodeStep(ss, n, i);
      } else {
        JustCreated(ss[i - 1], acts[i - 1], n);
        NoEpisodesBefore(ss, acts, i - 1, n);
        NoEpisodeAtCreation(ss, n, i);
      }
    }
  }

  /**
   The fencing token moves on release and on nothing else: between two neighbouring states RequeueCount
   changes exactly when the job goes from Preempted to Queued, and then by one; and a job becomes
   Preempted only from Running.
   */
  lemma EpochMovesOnRelease(ss: seq<System>, acts: seq<Action>, i: nat, n: string)
    requires Run(ss, acts) && i + 1 < |ss| && n in ss[i].store.trains && n in ss[i + 1].store.trains
    ensures var b, j := ss[i].store.trains[n].status, ss[i + 1].store.trains[n].status;
            && (j.requeueCount != b.requeueCount <==> b.phase == Preempted && j.phase == Queued)
            && (j.requeueCount != b.requeueCount ==> j.requeueCount == b.requeueCount + 1)
            && (j.phase == Preempted && b.phase != Preempted ==> b.phase == Running)
  {
    hide Run, LedgerInv, Enabled, Apply;
    RunLedger(ss, acts, i);
    RunStep(ss, acts, i);
    TrainStepMoves(ss[i], acts[i], n);
  }

  // ---------------------------------------------------------------- what an attempt is spent on

  ghost predicate Retry(ss: seq<System>, n: string, i: nat)
    requires i + 1 < |ss|
  {
    && n in ss[i].store.trains && n in ss[i + 1].store.trains
    && ss[i + 1].store.trains[n].status != ss[i].store.trains[n].status
    && ss[i + 1].store.trains[n].status.phase == Retrying
  }

  /** The times a retry was stored in the states from `i` to `k`. */
  ghost function Retries(ss: seq<System>, n: string, i: nat, k: nat): nat
    requires i <= k < |ss|
    decreases k
  {
    if i == k then 0 else Retries(ss, n, i, k - 1) + (if Retry(ss, n, k - 1) then 1 else 0)
  }

  lemma RetryStep(ss: seq<System>, n: string, i: nat, k: nat)
    requires i < k < |ss| && n in ss[k - 1].store.trains && n in ss[k].store.trains
    requires var b, j := ss[k - 1].store.trains[n], ss[k].store.trains[n];
             j == b || (j == b.(status := j.status) && T.Moves(b, j.status))
    ensures ss[k].store.trains[n].status.attempt - ss[k - 1].store.trains[n].status.attempt
            == Retries(ss, n, i, k) - Retries(ss, n, i, k - 1)
  {
  }

  /**
   Attempt counts the stored retries, one by one, and nothing else: however often a job goes round
   Running, Preempted, Queued and Starting, as long as no retry is stored the attempt stays.
   */
  lemma {:induction false} AttemptCountsRetries(ss: seq<System>, acts: seq<Action>, i: nat, k: nat, n: string)
    requires Run(ss, acts) && i <= k < |ss| && n in ss[i].store.trains && n in ss[k].store.trains
    ensures ss[k].store.trains[n].status.attempt == ss[i].store.trains[n].status.attempt + Retries(ss, n, i, k)
    decreases k
  {
    hide Run, LedgerInv, Enabled, Apply, Retries, T.Moves;
    if i == k {
      NoRetriesYet(ss, n, i);
    } else {
      ThereBefore(ss, acts, i, k, n);
      AttemptCountsRetries(ss, acts, i, k - 1, n);
      RunLedger(ss, acts, k - 1);
      RunStep(ss, acts, k - 1);
      TrainStepMoves(ss[k - 1], acts[k - 1], n);
      RetryStep(ss, n, i, k);
    }
  }

  lemma NoRetriesYet(ss: seq<System>, n: string, i: nat)
    requires i < |ss|
    ensures Retries(ss, n, i, i) == 0
  {
  }

  // ---------------------------------------------------------------- no phantom preemption

  /**
   A job that is not started has no group for its attempt; the group of a started one was created in
   its present epoch; a preempted one's group, if there, is marked.
   */
  lemma GroupsAreOfThisEpoch(ss: seq<System>, acts: seq<Action>, i: nat, n: string)
    requires FreshRun(ss, acts) && i < |ss| && n in ss[i].store.trains
    ensures var j, groups := ss[i].store.trains[n], ss[i].store.groups;
            var key := GroupKey(n, j.status.attempt);
            && (j.status.phase == NoPhase || j.status.phase == Submitted || j.status.phase == Queued ==> key !in groups)
            && (key in groups ==> groups[key].epoch == j.status.requeueCount && groups[key].owner == n)
            && (key in groups && j.status.phase == Preempted ==> groups[key].preemptedBy.Some?)
  {
    hide FreshRun, LedgerInv;
    RunInv(ss, acts, i);
    LatestIsStored(ss[i], n);
    var j, groups := ss[i].store.trains[n], ss[i].store.groups;
    var key := GroupKey(n, j.status.attempt);
    if key in groups {
      assert GroupOk(j, key, groups[key]);
    }
  }

  predicate HasMark(s: System, g: GroupKey) {
    g in s.store.groups && s.store.groups[g].preemptedBy.Some?
  }

  /** Only the scheduler sets a mark: no reconciler call does. */
  lemma MarksComeFromTheScheduler(s: System, a: Action, g: GroupKey)
    requires Enabled(s, a) && !HasMark(s, g) && HasMark(Apply(s, a), g)
    ensures a.MarkGroup? && a.group == g && a.mark.preemptedBy.Some?
  {
    hide Enabled, Apply, T.TrainCall, T.ReadsOk, I.InfCall, QueueCall, ChoiceOk;
    if a.TrainStep? {
      TrainStepMeans(s, a.name, a.items, a.ledger);
      CallSetsNoMark(s.store, s.trainPasses[a.name], TrainReads(s, a.items, a.ledger), g);
    } else if a.InferenceStep? {
      InferenceStepMeans(s, a.name, a.ledger);
      I.CallWrites(s.store, s.infPasses[a.name], s.ledgers[a.ledger]);
    } else if a.QueueStep? {
      QueueStepMeans(s, a.after);
    } else {
      MarksElsewhere(s, a, g);
    }
  }

  lemma MarksElsewhere(s: System, a: Action, g: GroupKey)
    requires Enabled(s, a) && !HasMark(s, g) && HasMark(Apply(s, a), g)
    requires !a.TrainStep? && !a.InferenceStep? && !a.QueueStep?
    ensures a.MarkGroup? && a.group == g && a.mark.preemptedBy.Some?
  {
    hide T.TrainCall, I.InfCall, QueueCall, ChoiceOk, T.ReadsOk, T.Start, I.Start, Latest, I.Stored, NewTrain,
      NewInference;
  }

  lemma CallSetsNoMark(s: Store, pc: T.TrainPc, seen: T.Reads, g: GroupKey)
    requires T.ReadsOk(s, pc, seen)
    ensures var t := T.TrainCall(s, pc, seen).0;
            g in t.groups && t.groups[g].preemptedBy.Some? ==> g in s.groups && s.groups[g].preemptedBy.Some?
  {
    hide T.Aggregate, T.Listing, T.Granted, T.AttemptPods, T.PreemptorGone, T.OnGroup, T.OnSummary, T.AtRank,
      T.Dropping;
  }

  lemma {:induction false} MarkWrittenSince(ss: seq<System>, acts: seq<Action>, i: nat, k: nat, g: GroupKey)
    returns (m: nat)
    requires Run(ss, acts) && i < k < |ss| && !HasMark(ss[i], g) && HasMark(ss[k], g)
    ensures i <= m < k && acts[m].MarkGroup? && acts[m].group == g && acts[m].mark.preemptedBy.Some?
    decreases k
  {
    hide Run, Enabled, Apply;
    RunStep(ss, acts, k - 1);
    if !HasMark(ss[k - 1], g) {
      m := k - 1;
      MarksComeFromTheScheduler(ss[k - 1], acts[k - 1], g);
    } else {
      m := MarkWrittenSince(ss, acts, i, k - 1, g);
    }
  }

  lemma NoGroupNoMark(s: System, g: GroupKey)
    requires g !in s.store.groups
    ensures !HasMark(s, g)
  {
  }

  /** The release check never dereferences a missing PreemptedBy. */
  lemma NoNilDereference(ss: seq<System>, acts: seq<Action>, i: nat, n: string)
    requires FreshRun(ss, acts) && i < |ss| && n in ss[i].trainPasses
    ensures !ss[i].trainPasses[n].TPanic?
  {
    hide FreshRun, LedgerInv;
    RunInv(ss, acts, i);
    assert TrainPassOk(n, ss[i].trainPasses[n], ss[i].lastTrains, ss[i].store.groups, ss[i].store.workers);
  }

  // ---------------------------------------------------------------- pods of a train job

  /** Pods belong to the current attempt and to its ranks; waiting, preempted and failed jobs have none. */
  lemma PodsOfOneGang(ss: seq<System>, acts: seq<Action>, i: nat, k: PodKey)
    requires FreshRun(ss, acts) && i < |ss| && k in ss[i].store.workers && k.job in ss[i].store.trains
    ensures var j := ss[i].store.trains[k.job];
            && k.attempt == j.status.attempt && k.rank < j.spec.worldSize
            && (DrivingTrain(j.status.phase) || (j.status.phase == Succeeded && Finished(ss[i].store.workers[k])))
  {
    hide FreshRun, LedgerInv;
    RunInv(ss, acts, i);
    LatestIsStored(ss[i], k.job);
    assert WorkerOk(ss[i].lastTrains[k.job], k, ss[i].store.workers[k]);
  }

  /**
   The gang decision: a pass that has listed the pods without a failed one goes on to write Succeeded
   exactly when every rank of the current attempt has succeeded, and Running exactly when every rank
   is running or has succeeded and not all have succeeded, unless that already is the phase.
   */
  lemma GangDecision(ss: seq<System>, acts: seq<Action>, i: nat, n: string, items: seq<PodKey>, ledger: nat)
    requires FreshRun(ss, acts) && i < |ss| && n in ss[i].trainPasses && n in ss[i].store.trains
    requires ss[i].trainPasses[n].TListPods? && Enabled(ss[i], TrainStep(n, items, ledger))
    requires forall k :: k in ss[i].store.workers && k.job == n ==> ss[i].store.workers[k].phase != PodFailed
    ensures var j, w := ss[i].store.trains[n], ss[i].store.workers;
            var after := Apply(ss[i], TrainStep(n, items, ledger)).trainPasses[n];
            var decided := if after.TWrite? then after.st.phase else j.status.phase;
            && (after.TWrite? || after.TDone?)
            && (decided == Succeeded <==> T.AllSucceeded(w, n, j.status.attempt, j.spec.worldSize))
            && (decided == Running <==> T.AllUp(w, n, j.status.attempt, j.spec.worldSize)
                                        && !T.AllSucceeded(w, n, j.status.attempt, j.spec.worldSize))
  {
    var s := ss[i];
    TrainStepMeans(s, n, items, ledger);
    hide FreshRun, LedgerInv, Enabled, Apply, T.TrainCall, T.AllSucceeded, T.AllUp, T.HeadsForMove;
    RunInv(ss, acts, i);
    LatestIsStored(s, n);
    PassStands(s, n);
    assert WorkersOk(s.lastTrains, s.store.workers);
    hide PodInv;
    OneGangDecision(s.store, s.store.trains[n], s.lastTrains, TrainReads(s, items, ledger));
  }

  lemma OneGangDecision(s: Store, b: TrainJob, lasts: Trains, seen: T.Reads)
    requires WorkersOk(lasts, s.workers) && b.name in lasts && lasts[b.name] == b && 0 <= b.spec.worldSize
    requires T.ReadsOk(s, T.TListPods(b), seen)
    requires forall k :: k in s.workers && k.job == b.name ==> s.workers[k].phase != PodFailed
    ensures var after := T.TrainCall(s, T.TListPods(b), seen).1;
            var decided := if after.TWrite? then after.st.phase else b.status.phase;
            && (after.TWrite? || after.TDone?)
            && (decided == Succeeded <==> T.AllSucceeded(s.workers, b.name, b.status.attempt, b.spec.worldSize))
            && (decided == Running <==> T.AllUp(s.workers, b.name, b.status.attempt, b.spec.worldSize)
                                        && !T.AllSucceeded(s.workers, b.name, b.status.attempt, b.spec.worldSize))
  {
    forall k | k in T.AttemptPods(s.workers, b.name, b.status.attempt) ensures k.rank < b.spec.worldSize {
      assert WorkerOk(b, k, s.workers[k]);
    }
    T.GangPhase(s.workers, b.name, b.status.attempt, b.spec.worldSize, seen.items);
    T.RetryNeedsFailedPod(s, b, seen);
    hide T.AllSucceeded, T.AllUp, T.Aggregate, T.NextPhase, T.Listing;
  }

  // ---------------------------------------------------------------- retries come from failed pods

  /** A pass on its way to write a retry of attempt `a`. */
  predicate HeadsForRetry(s: System, n: string, a: nat) {
    n in s.trainPasses
    && (s.trainPasses[n].TListDrop? || s.trainPasses[n].TDropPod? || s.trainPasses[n].TWrite?)
    && s.trainPasses[n].st.phase == Retrying && s.trainPasses[n].b.status.attempt == a
  }

  predicate FailedPodSeen(s: System, n: string, a: nat, k: PodKey) {
    k.job == n && k.attempt == a && k in s.store.workers && s.store.workers[k].phase == PodFailed
  }

  lemma RetryDecided(s: System, act: Action, n: string, a: nat) returns (k: PodKey)
    requires LedgerInv(s) && Enabled(s, act) && !HeadsForRetry(s, n, a) && HeadsForRetry(Apply(s, act), n, a)
    ensures FailedPodSeen(s, n, a, k)
  {
    hide LedgerInv, Enabled, Apply, T.HeadsForMove, T.ReadsOk, T.TrainCall;
    if !(act.TrainStep? && act.name == n) {
      OthersHeadForNoRetry(s, act, n, a);
      assert false;
    }
    TrainStepMeans(s, n, act.items, act.ledger);
    GateOf(s, n);
    OverHeads(s.trainPasses[n]);
    T.CallHeadsForMove(s.store, s.trainPasses[n], TrainReads(s, act.items, act.ledger));
    OverStaysOver(s.store, s.trainPasses[n], TrainReads(s, act.items, act.ledger));
    k := CallDecidesRetry(s.store, s.trainPasses[n], TrainReads(s, act.items, act.ledger));
  }

  lemma OthersHeadForNoRetry(s: System, act: Action, n: string, a: nat)
    requires Enabled(s, act) && !(act.TrainStep? && act.name == n) && HeadsForRetry(Apply(s, act), n, a)
    ensures HeadsForRetry(s, n, a)
  {
    hide Enabled, Apply, T.Start;
    PassesElsewhere(s, act, n);
    if act.BeginTrain? {
      StartIsNoRetry(act.trainCopy);
    }
  }

  lemma OverStaysOver(s: Store, pc: T.TrainPc, seen: T.Reads)
    requires T.ReadsOk(s, pc, seen)
    ensures T.Over(pc) ==> T.Over(T.TrainCall(s, pc, seen).1)
  {
  }

  lemma OverHeads(pc: T.TrainPc)
    ensures T.Over(pc) ==> T.HeadsForMove(pc)
  {
  }

  /** A pass moves only by its own steps; it begins at its start. */
  lemma PassesElsewhere(s: System, a: Action, n: string)
    requires Enabled(s, a) && !(a.TrainStep? && a.name == n) && n in Apply(s, a).trainPasses
    ensures (a.BeginTrain? && a.trainCopy.name == n && Apply(s, a).trainPasses[n] == T.Start(a.trainCopy))
            || (n in s.trainPasses && Apply(s, a).trainPasses[n] == s.trainPasses[n])
  {
    if a.QueueStep? {
      hide Enabled, Apply, QueueCall, ChoiceOk;
      QueueStepMeans(s, a.after);
    } else if a.TrainStep? {
      hide Enabled, Apply, T.TrainCall, T.ReadsOk;
      TrainStepMeans(s, a.name, a.items, a.ledger);
    } else if a.BeginTrain? {
      hide Enabled, Apply, T.Start, TrainVersion;
      BeginMeans(s, a.trainCopy, NewInference("", 0, InferenceSpec(0, map[], ""), []));
    } else {
      hide Enabled, Apply;
      PassesLeftAlone(s, a);
    }
  }

  lemma PassesLeftAlone(s: System, a: Action)
    requires Enabled(s, a) && !a.TrainStep? && !a.QueueStep? && !a.BeginTrain?
    ensures Apply(s, a).trainPasses == s.trainPasses
            || exists n :: Apply(s, a).trainPasses == s.trainPasses - {n}
  {
    hide T.TrainCall, I.InfCall, QueueCall, ChoiceOk, T.ReadsOk, T.Start, I.Start, Latest, I.Stored, NewTrain,
      NewInference;
    if a.EndTrain? {
      assert Apply(s, a).trainPasses == s.trainPasses - {a.name};
    }
  }

  lemma StartIsNoRetry(b: TrainJob)
    ensures T.Start(b).TWrite? ==> T.Start(b).st.phase != Retrying
    ensures !T.Start(b).TListDrop? && !T.Start(b).TDropPod?
  {
  }

  lemma CallDecidesRetry(s: Store, pc: T.TrainPc, seen: T.Reads) returns (k: PodKey)
    requires T.ReadsOk(s, pc, seen) && T.HeadsForMove(pc)
    requires !((pc.TListDrop? || pc.TDropPod? || pc.TWrite?) && pc.st.phase == Retrying)
    requires var next := T.TrainCall(s, pc, seen).1;
             (next.TListDrop? || next.TDropPod? || next.TWrite?) && next.st.phase == Retrying
    ensures pc.TListPods? && k.job == pc.b.name && k.attempt == pc.b.status.attempt
    ensures k in s.workers && s.workers[k].phase == PodFailed
  {
    hide T.Aggregate, T.Listing, T.Granted, T.AttemptPods, T.PreemptorGone;
    assert pc.TListPods?;
    T.RetryNeedsFailedPod(s, pc.b, seen);
    k :| k in s.workers && k.job == pc.b.name && k.attempt == pc.b.status.attempt && s.workers[k].phase == PodFailed;
  }

  lemma {:induction false} RetryHeadingSawFailure(ss: seq<System>, acts: seq<Action>, i: nat, n: string, a: nat)
    returns (m: nat, k: PodKey)
    requires Run(ss, acts) && i < |ss| && HeadsForRetry(ss[i], n, a)
    ensures m < i && FailedPodSeen(ss[m], n, a, k)
    decreases i
  {
    hide Run, LedgerInv, Enabled, Apply, HeadsForRetry, FailedPodSeen;
    if i == 0 {
      NobodyHeadsAtFirst(ss, acts, n, a);
    } else {
      RunStep(ss, acts, i - 1);
      if HeadsForRetry(ss[i - 1], n, a) {
        m, k := RetryHeadingSawFailure(ss, acts, i - 1, n, a);
      } else {
        RunLedger(ss, acts, i - 1);
        m := i - 1;
        k := RetryDecided(ss[i - 1], acts[i - 1], n, a);
      }
    }
  }

  lemma NobodyHeadsAtFirst(ss: seq<System>, acts: seq<Action>, n: string, a: nat)
    requires Run(ss, acts)
    ensures !HeadsForRetry(ss[0], n, a)
  {
  }

  /**
   The retry budget is spent on failures only: for every attempt a job has left behind, some earlier
   state of the run shows a failed pod of that job and that attempt.
   */
  lemma {:induction false} SpentAttemptsHadFailedPods(ss: seq<System>, acts: seq<Action>, i: nat, n: string, a: nat)
    returns (m: nat, k: PodKey)
    requires Run(ss, acts) && i < |ss| && n in ss[i].store.trains && a < ss[i].store.trains[n].status.attempt
    ensures m < i && FailedPodSeen(ss[m], n, a, k)
    decreases i
  {
    hide Run, LedgerInv, Enabled, Apply, FailedPodSeen, HeadsForRetry;
    if i == 0 {
      NoTrainAtFirst(ss, acts, n);
    } else {
      RunLedger(ss, acts, i - 1);
      RunStep(ss, acts, i - 1);
      if n in ss[i - 1].store.trains {
        if a < ss[i - 1].store.trains[n].status.attempt {
          m, k := SpentAttemptsHadFailedPods(ss, acts, i - 1, n, a);
        } else {
          TrainStepMoves(ss[i - 1], acts[i - 1], n);
          AttemptWriteHeads(ss[i - 1], ss[i], n, a);
          m, k := RetryHeadingSawFailure(ss, acts, i - 1, n, a);
        }
      } else {
        JustCreated(ss[i - 1], acts[i - 1], n);
      }
    }
  }

  lemma NoTrainAtFirst(ss: seq<System>, acts: seq<Action>, n: string)
    requires Run(ss, acts)
    ensures n !in ss[0].store.trains
  {
  }

  lemma AttemptWriteHeads(s: System, t: System, n: string, a: nat)
    requires n in s.store.trains && n in t.store.trains
    requires s.store.trains[n].status.attempt <= a < t.store.trains[n].status.attempt
    requires n in s.trainPasses && s.trainPasses[n] == T.TWrite(s.store.trains[n], t.store.trains[n].status)
    requires T.Moves(s.store.trains[n], t.store.trains[n].status)
    ensures HeadsForRetry(s, n, a)
  {
  }
}
