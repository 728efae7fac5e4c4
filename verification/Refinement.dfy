/** The reconcilers' passes, faults included, are runs of the transition system. */
module Refinement {
  import opened ClusterTypes
  import opened QueueAdmission
  import opened Cluster
  import opened LedgerInvariant
  import opened LedgerSteps
  import T = TrainLifecycle
  import I = InferenceLifecycle
  import W = Wakeups

  /** Taking the actions one after the other from `s` is allowed and ends in `t`. */
  ghost predicate Leads(s: System, acts: seq<Action>, t: System)
    decreases |acts|
  {
    if acts == [] then s == t
    else Enabled(s, acts[0]) && Leads(Apply(s, acts[0]), acts[1..], t)
  }

  lemma Prepend(s: System, a: Action, acts: seq<Action>, t: System)
    requires Enabled(s, a) && Leads(Apply(s, a), acts, t)
    ensures Leads(s, [a] + acts, t)
  {
    assert ([a] + acts)[1..] == acts;
    hide Enabled, Apply;
  }

  lemma Nothing(s: System)
    ensures Leads(s, [], s)
  {
    hide Enabled, Apply;
  }

  lemma LastLedger(s: System)
    requires LedgerInv(s)
    ensures s.ledgers != [] && s.ledgers[|s.ledgers| - 1] == s.store.used
  {
    hide TrainLedger, InfLedger, QuotaOk, QueuePassOk, TrainGatesOk, InfGatesOk;
  }

  // ---------------------------------------------------------------- train passes

  /** Nothing but calls of one pass over `n`. */
  ghost predicate TrainCallsOf(acts: seq<Action>, n: string) {
    forall a :: a in acts ==> a.TrainStep? && a.name == n
  }

  /** A pass over `n` that begins with the copy `b`, and nothing else. */
  ghost predicate TrainPassOf(acts: seq<Action>, n: string, b: TrainJob) {
    acts == [] || (acts[0] == BeginTrain(b) && b.name == n && TrainCallsOf(acts[1..], n))
  }

  /** The next call of an undisturbed pass, as an action. */
  lemma NextTrainCall(s: System, n: string, order: T.Order) returns (a: Action)
    requires LedgerInv(s) && n in s.trainPasses && T.OrderOk(order)
    ensures Enabled(s, a) && a.TrainStep? && a.name == n && Apply(s, a).lastTrains.Keys == s.lastTrains.Keys
    ensures var (st, pc) := T.TrainCall(s.store, s.trainPasses[n], T.ReadsIn(s.store, s.trainPasses[n], order));
            Apply(s, a) == s.(store := st, trainPasses := s.trainPasses[n := pc],
                              lastTrains := Latest(s.lastTrains, st.trains))
  {
    LastLedger(s);
    hide LedgerInv, Enabled, Apply, T.TrainCall, T.Listing, Latest;
    var read := T.ReadsIn(s.store, s.trainPasses[n], order);
    a := TrainStep(n, read.items, |s.ledgers| - 1);
    assert TrainReads(s, read.items, |s.ledgers| - 1) == read;
    TrainStepMeans(s, n, read.items, |s.ledgers| - 1);
    TrainStepChanges(s, n, read.items, |s.ledgers| - 1);
    GateOf(s, n);
    GateIsOwn(n, s.trainPasses[n], s.ledgers);
    StoredAreLatest(s);
  }

  lemma GateIsOwn(n: string, pc: T.TrainPc, ledgers: seq<seq<Entry>>)
    requires TrainGateOk(n, pc, ledgers)
    ensures T.Over(pc) || pc.b.name == n
  {
  }

  lemma StoredAreLatest(s: System)
    requires LedgerInv(s)
    ensures forall n :: n in s.store.trains ==> n in s.lastTrains
  {
    forall n | n in s.store.trains ensures n in s.lastTrains {
      LatestIsStored(s, n);
    }
  }

  /** What a train pass leaves alone. */
  ghost predicate OnlyTrainSide(s: System, t: System) {
    && t == s.(store := t.store, trainPasses := t.trainPasses, lastTrains := t.lastTrains)
    && t.lastTrains.Keys == s.lastTrains.Keys
  }

  lemma {:induction false} TrainCallsLead(s: System, n: string, calls: nat, order: T.Order)
    returns (acts: seq<Action>, t: System)
    requires LedgerInv(s) && n in s.trainPasses && T.OrderOk(order)
    ensures Leads(s, acts, t) && TrainCallsOf(acts, n) && LedgerInv(t) && OnlyTrainSide(s, t)
    ensures n in t.trainPasses && t.trainPasses == s.trainPasses[n := t.trainPasses[n]]
    ensures (t.store, t.trainPasses[n]) == T.RunTrain(s.store, s.trainPasses[n], calls, order)
    decreases calls
  {
    hide LedgerInv, Enabled, Apply, Leads, T.RunTrain, T.TrainCall, T.ReadsIn, T.OrderOk, Latest;
    acts, t := [], s;
    Nothing(s);
    assert s.trainPasses == s.trainPasses[n := s.trainPasses[n]];
    if calls == 0 || T.Over(s.trainPasses[n]) {
      NoMoreCalls(s.store, s.trainPasses[n], calls, order);
    } else {
      W.RunNext(s.store, s.trainPasses[n], calls, order);
      var a := NextTrainCall(s, n, order);
      StepKeepsLedger(s, a);
      acts, t := TrainCallsLead(Apply(s, a), n, calls - 1, order);
      Prepend(s, a, acts, t);
      acts := [a] + acts;
    }
  }

  lemma NoMoreCalls(s: Store, pc: T.TrainPc, calls: nat, order: T.Order)
    requires T.OrderOk(order) && (calls == 0 || T.Over(pc))
    ensures T.RunTrain(s, pc, calls, order) == (s, pc)
  {
  }

  /**
   What the TrainJob reconciler computes is a run of the transition system, made of its own steps only:
   from every state that keeps the ledger's invariant, whatever version of its job the cache holds, a pass
   with any number of successful calls leaves the store that these actions leave.
   */
  lemma TrainPassLeads(s: System, copies: Trains, n: string, calls: nat, order: T.Order)
    returns (acts: seq<Action>, t: System)
    requires LedgerInv(s) && n !in s.trainPasses && T.OrderOk(order)
    requires n in copies ==> copies[n].name == n && TrainVersion(s, copies[n])
    ensures Leads(s, acts, t) && LedgerInv(t) && OnlyTrainSide(s, t)
    ensures t.trainPasses.Keys <= s.trainPasses.Keys + {n}
    ensures forall m :: m in s.trainPasses ==> m in t.trainPasses && t.trainPasses[m] == s.trainPasses[m]
    ensures n in copies ==> TrainPassOf(acts, n, copies[n])
    ensures n !in copies ==> acts == []
    ensures t.store == T.RunTrainPass(s.store, copies, n, calls, order).0
    ensures 0 < calls && n in copies ==>
              n in t.trainPasses && t.trainPasses[n] == T.RunTrainPass(s.store, copies, n, calls, order).1
              && acts != []
  {
    hide LedgerInv, Enabled, Apply, Leads, T.RunTrain, T.OrderOk, TrainVersion, T.Start;
    acts, t := [], s;
    Nothing(s);
    if calls > 0 && n in copies {
      var a := BeginTrain(copies[n]);
      BeginMeans(s, copies[n], NewInference("", 0, InferenceSpec(0, map[], ""), []));
      StepKeepsLedger(s, a);
      acts, t := TrainCallsLead(Apply(s, a), n, calls - 1, order);
      Prepend(s, a, acts, t);
      assert ([a] + acts)[1..] == acts;
      acts := [a] + acts;
    }
  }

  // ---------------------------------------------------------------- inference passes

  ghost predicate InferenceCallsOf(acts: seq<Action>, n: string) {
    forall a :: a in acts ==> a.InferenceStep? && a.name == n
  }

  ghost predicate InferencePassOf(acts: seq<Action>, n: string, b: InferenceJob) {
    acts == [] || (acts[0] == BeginInference(b) && b.name == n && InferenceCallsOf(acts[1..], n))
  }

  /** The next call of an undisturbed pass, as an action. */
  lemma NextInferenceCall(s: System, n: string) returns (a: Action)
    requires LedgerInv(s) && n in s.infPasses
    ensures Enabled(s, a) && a.InferenceStep? && a.name == n
    ensures var (st, pc) := I.InfCall(s.store, s.infPasses[n], s.store.used);
            Apply(s, a) == s.(store := st, infPasses := s.infPasses[n := pc])
  {
    hide Enabled, Apply, LedgerInv, I.InfCall;
    LastLedger(s);
    a := InferenceStep(n, |s.ledgers| - 1);
    InferenceStepMeans(s, n, |s.ledgers| - 1);
  }

  ghost predicate OnlyInferenceSide(s: System, t: System) {
    t == s.(store := t.store, infPasses := t.infPasses)
  }

  lemma {:induction false} InferenceCallsLead(s: System, n: string, calls: nat) returns (acts: seq<Action>, t: System)
    requires LedgerInv(s) && n in s.infPasses
    ensures Leads(s, acts, t) && InferenceCallsOf(acts, n) && LedgerInv(t) && OnlyInferenceSide(s, t)
            && n in t.infPasses && t.infPasses == s.infPasses[n := t.infPasses[n]]
    ensures (t.store, t.infPasses[n]) == I.RunInference(s.store, s.infPasses[n], calls)
    decreases calls
  {
    hide LedgerInv, Enabled, Apply, Leads, I.InfCall;
    acts, t := [], s;
    Nothing(s);
    if calls > 0 && !s.infPasses[n].IDone? {
      var a := NextInferenceCall(s, n);
      StepKeepsLedger(s, a);
      acts, t := InferenceCallsLead(Apply(s, a), n, calls - 1);
      Prepend(s, a, acts, t);
      acts := [a] + acts;
    }
  }

  /** The same for the InferenceJob reconciler. */
  lemma InferencePassLeads(s: System, copies: Infs, n: string, calls: nat) returns (acts: seq<Action>, t: System)
    requires LedgerInv(s) && n !in s.infPasses
    requires n in copies ==> copies[n].name == n && InferenceVersion(s, copies[n])
    ensures Leads(s, acts, t) && LedgerInv(t) && OnlyInferenceSide(s, t)
    ensures n in copies ==> InferencePassOf(acts, n, copies[n])
    ensures n !in copies ==> acts == []
    ensures t.store == I.RunInferencePass(s.store, copies, n, calls).0
    ensures t.infPasses.Keys <= s.infPasses.Keys + {n}
    ensures forall m :: m in s.infPasses ==> m in t.infPasses && t.infPasses[m] == s.infPasses[m]
    ensures 0 < calls && n in copies ==> acts != []
  {
    hide LedgerInv, Enabled, Apply, Leads, I.RunInference, InferenceVersion, I.Start;
    acts, t := [], s;
    Nothing(s);
    if calls > 0 && n in copies {
      var a := BeginInference(copies[n]);
      BeginMeans(s, NewTrain("", 0, TrainSpec(0, 0, 0, map[], "")), copies[n]);
      StepKeepsLedger(s, a);
      acts, t := InferenceCallsLead(Apply(s, a), n, calls - 1);
      Prepend(s, a, acts, t);
      assert ([a] + acts)[1..] == acts;
      acts := [a] + acts;
    }
  }

  // ---------------------------------------------------------------- queue passes

  ghost predicate QueueCallsOf(acts: seq<Action>) {
    forall a :: a in acts ==> a.QueueStep?
  }

  lemma OneQueueCall(s: System, after: seq<Entry>, acts: seq<Action>, t: System) returns (all: seq<Action>)
    requires ChoiceOk(s.queuePass, QueueReadsNow(s), after) && QueueCallsOf(acts)
    requires var (pc, written) := QueueCall(s.queuePass, QueueReadsNow(s), after);
             Leads(if written.None? then s.(queuePass := pc)
                   else s.(queuePass := pc, store := s.store.(used := written.value), ledgers := s.ledgers
                           + [written.value]),
                   acts, t)
    ensures Leads(s, all, t) && QueueCallsOf(all)
  {
    hide Enabled, Apply, Leads, ChoiceOk, QueueCall;
    QueueStepMeans(s, after);
    Prepend(s, QueueStep(after), acts, t);
    all := [QueueStep(after)] + acts;
  }

  /** The state that an undisturbed queue pass leaves. */
  function AfterQueuePass(s: System, after: seq<Entry>): System {
    if after == s.store.used then s.(queuePass := QIdle)
    else s.(queuePass := QIdle, store := s.store.(used := after), ledgers := s.ledgers + [after])
  }

  /** From the decision on: the write, if there is one. */
  lemma DecidedLeads(s: System, classes: map<string, int>, trains: Trains, infs: Infs, after: seq<Entry>)
    returns (acts: seq<Action>)
    requires s.queuePass == Decided(s.store.quota, s.store.used, classes, trains, infs, after)
    ensures Leads(s, acts, AfterQueuePass(s, after)) && QueueCallsOf(acts)
  {
    hide Enabled, Apply;
    if after == s.store.used {
      acts := [];
    } else {
      Nothing(AfterQueuePass(s, after));
      hide Leads;
      acts := OneQueueCall(s, after, [], AfterQueuePass(s, after));
    }
  }

  /**
   Every ledger that a pass may leave, undisturbed, is left by its calls: reading the queue, listing, deciding,
   writing.
   */
  lemma QueuePassLeads(s: System, after: seq<Entry>) returns (acts: seq<Action>)
    requires s.queuePass == QIdle
    requires QueueNext(s.store.quota, s.store.used, s.store.classes, s.seenTrains, s.seenInfs, after)
    ensures Leads(s, acts, AfterQueuePass(s, after)) && QueueCallsOf(acts)
  {
    hide Enabled, Apply, Leads;
    var quota, used := s.store.quota, s.store.used;
    var t := AfterQueuePass(s, after);
    var s1 := s.(queuePass := QListTrains(quota, used));
    var s2 := s.(queuePass := QListInfs(quota, used, s.seenTrains));
    var s3 := s.(queuePass := QListClasses(quota, used, s.seenTrains, s.seenInfs));
    if SomeWaiting(s.seenTrains, s.seenInfs) {
      var s4 := s.(queuePass := Decided(quota, used, s.store.classes, s.seenTrains, s.seenInfs, after));
      acts := DecidedLeads(s4, s.store.classes, s.seenTrains, s.seenInfs, after);
      hide QueueNext, SomeWaiting, Decided;
      acts := OneQueueCall(s3, after, acts, t);
      acts := OneQueueCall(s2, after, acts, t);
    } else {
      var s4 := s.(queuePass := Decided(quota, used, map[], s.seenTrains, s.seenInfs, after));
      acts := DecidedLeads(s4, map[], s.seenTrains, s.seenInfs, after);
      assert QueueNext(quota, used, map[], s.seenTrains, s.seenInfs, after);
      hide QueueNext, SomeWaiting, Decided;
      acts := OneQueueCall(s2, after, acts, t);
    }
    acts := OneQueueCall(s1, after, acts, t);
    acts := OneQueueCall(s, after, acts, t);
  }
}
