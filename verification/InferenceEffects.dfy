/**
 What a complete, undisturbed pass of the InferenceJob reconciler comes to, phase by phase, in the terms
 of the stored job and its pod.
 */
module InferenceEffects {
  import opened Resources
  import opened ClusterTypes
  import opened Names
  import opened InferenceLifecycle

  lemma InfNext(s: Store, pc: InfPc, calls: nat)
    requires calls > 0 && !pc.IDone?
    ensures var (t, next) := InfCall(s, pc, s.used);
            RunInference(s, pc, calls) == RunInference(t, next, calls - 1)
            && (calls == 1 || next.IDone? ==> RunInference(s, pc, calls) == (t, next))
  {
  }

  /** The job is stored under its name. */
  predicate Present(s: Store, n: string) {
    n in s.infs && s.infs[n].name == n
  }

  lemma WriteEnds(s: Store, n: string, j: InferenceJob, calls: nat)
    requires Present(s, n) && j.name == n && 1 <= calls
    ensures RunInference(s, IWrite(s.infs[n], j), calls) == (s.(infs := s.infs[n := j]), IDone)
  {
    InfNext(s, IWrite(s.infs[n], j), calls);
  }

  // ---------------------------------------------------------------- before the queue, and in it

  /** First the finalizer is put on, and nothing else is done. */
  lemma FinalizerPass(s: Store, n: string, calls: nat)
    requires Present(s, n) && !s.infs[n].deleting && FINALIZER_KEY !in s.infs[n].finalizers && 2 <= calls
    ensures var j := s.infs[n].(finalizers := s.infs[n].finalizers + [FINALIZER_KEY]);
            RunInferencePass(s, s.infs, n, calls) == (s.(infs := s.infs[n := j]), IDone)
  {
    InfNext(s, IFinalize(s.infs[n]), calls - 1);
  }

  /** A job that carries the finalizer is queued; a queued one is started exactly if the ledger lists it. */
  lemma WaitingPass(s: Store, n: string, calls: nat)
    requires Present(s, n) && !s.infs[n].deleting && FINALIZER_KEY in s.infs[n].finalizers && 3 <= calls
    requires s.infs[n].phase == InfNoPhase || s.infs[n].phase == InfQueued
    ensures var b := s.infs[n];
            var listed := exists e :: e in s.used && e.name == n && e.kind == Inference;
            var phase := if b.phase == InfNoPhase then InfQueued else if listed then InfStarting else InfQueued;
            RunInferencePass(s, s.infs, n, calls) == (s.(infs := s.infs[n := b.(phase := phase)]), IDone)
  {
    var b := s.infs[n];
    assert s.infs[n := b] == s.infs;
    if b.phase == InfNoPhase {
      WriteEnds(s, n, b.(phase := InfQueued), calls - 1);
    } else {
      InfNext(s, IGetQueue(b), calls - 1);
      AdmittedMeans(s.used, b);
      if Admitted(s.used, b) {
        WriteEnds(s, n, b.(phase := InfStarting), calls - 2);
      }
    }
    hide RunInference, Admitted;
  }

  lemma AdmittedMeans(used: seq<Entry>, b: InferenceJob)
    ensures Admitted(used, b) <==> exists e :: e in used && e.name == b.name && e.kind == Inference
  {
    if e :| e in used && e.name == b.name && e.kind == Inference {
      var i :| 0 <= i < |used| && used[i] == e;
    }
  }

  // ---------------------------------------------------------------- what the containers show

  /** The containers' restarts, one by one. */
  ghost function RestartCounts(containers: seq<Container>): map<int, int> {
    map i | 0 <= i < |containers| :: containers[i].restarts
  }

  lemma {:induction false} RestartsIsSum(containers: seq<Container>)
    ensures Restarts(containers) == SumMap(RestartCounts(containers))
    decreases |containers|
  {
    if containers != [] {
      var front, k := containers[..|containers| - 1], |containers| - 1;
      RestartsIsSum(front);
      SumRemove(RestartCounts(containers), k);
      assert RestartCounts(containers) - {k} == RestartCounts(front);
    }
  }

  /** `exit` is that of the last container with a termination on record, the current one first. */
  ghost predicate LastRecorded(containers: seq<Container>, exit: Option<int>) {
    exists i :: 0 <= i < |containers|
                && (if containers[i].terminated.Some? then exit == containers[i].terminated
                    else containers[i].lastTerminated.Some? && exit == containers[i].lastTerminated)
                && forall k :: i < k < |containers| ==>
                     containers[k].terminated.None? && containers[k].lastTerminated.None?
  }

  ghost predicate SomeRecorded(containers: seq<Container>) {
    exists i :: 0 <= i < |containers| && (containers[i].terminated.Some? || containers[i].lastTerminated.Some?)
  }

  lemma {:induction false} LastExitIsLast(containers: seq<Container>, before: Option<int>)
    ensures if SomeRecorded(containers) then LastRecorded(containers, LastExit(containers, before))
            else LastExit(containers, before) == before
    decreases |containers|
  {
    if containers != [] {
      var front, last := containers[..|containers| - 1], containers[|containers| - 1];
      if last.terminated.Some? || last.lastTerminated.Some? {
        assert containers[|containers| - 1] == last;
      } else {
        LastExitIsLast(front, before);
        if SomeRecorded(containers) {
          var i :| 0 <= i < |containers| && (containers[i].terminated.Some? || containers[i].lastTerminated.Some?);
          assert front[i] == containers[i];
          var exit := LastExit(front, before);
          var k :| 0 <= k < |front|
                   && (if front[k].terminated.Some? then exit == front[k].terminated
                       else front[k].lastTerminated.Some? && exit == front[k].lastTerminated)
                   && forall m :: k < m < |front| ==> front[m].terminated.None? && front[m].lastTerminated.None?;
          assert containers[k] == front[k];
          forall m | k < m < |containers|
            ensures containers[m].terminated.None? && containers[m].lastTerminated.None?
          {
            assert m < |front| ==> containers[m] == front[m];
          }
        }
      }
    }
  }

  // ---------------------------------------------------------------- a served job

  /** A container that has stopped, or waits to be started again. */
  ghost predicate SomeCrashed(containers: seq<Container>) {
    exists i :: 0 <= i < |containers|
                && (containers[i].terminated.Some? || (containers[i].waiting && containers[i].lastTerminated.Some?))
  }

  /**
   The phase in which a pass leaves a served job that has this pod. Too many restarts fail it, whatever
   else the pod shows; a pod on its way out counts as gone; a ready one makes the job run; a crashed one
   makes it restart, or fail when the budget is used up; otherwise it stays as it is.
   */
  ghost function ServedPhase(b: InferenceJob, p: ServerPod): InferencePhase {
    var spent := SumMap(RestartCounts(p.containers));
    if spent > b.spec.maxRestarts then InfFailing
    else if p.deleting then (if b.phase == InfStarting then InfStarting else InfRestarting)
    else if p.ready then InfRunning
    else if !SomeCrashed(p.containers) then b.phase
    else if spent == b.spec.maxRestarts then InfFailing
    else InfRestarting
  }

  /** A pass over a served job that has a pod changes the phase to that, records why it fails, and no more. */
  lemma ServedPass(s: Store, n: string, calls: nat) returns (j: InferenceJob)
    requires Present(s, n) && !s.infs[n].deleting && FINALIZER_KEY in s.infs[n].finalizers && 3 <= calls
    requires s.infs[n].phase == InfStarting || s.infs[n].phase == InfRunning || s.infs[n].phase == InfRestarting
    requires n in s.servers
    ensures RunInferencePass(s, s.infs, n, calls) == (s.(infs := s.infs[n := j]), IDone)
    ensures var b, p := s.infs[n], s.servers[n];
            && j == b.(phase := ServedPhase(b, p), lastExitCode := j.lastExitCode)
            && (j.phase == InfFailing && SomeRecorded(p.containers) ==> LastRecorded(p.containers, j.lastExitCode))
            && (j.phase != InfFailing || !SomeRecorded(p.containers) ==> j.lastExitCode == b.lastExitCode)
  {
    var b, p := s.infs[n], s.servers[n];
    j := Observed(b, Some(p));
    ObservedPod(b, p);
    LastExitIsLast(p.containers, b.lastExitCode);
    InfNext(s, IGetPod(b), calls - 1);
    if j.phase == b.phase {
      assert s.infs[n := b] == s.infs;
    } else {
      WriteEnds(s, n, j, calls - 2);
    }
    hide RunInference, Observed, LastExit, ServedPhase;
  }

  lemma ObservedPod(b: InferenceJob, p: ServerPod)
    requires b.phase == InfStarting || b.phase == InfRunning || b.phase == InfRestarting
    ensures Observed(b, Some(p)).phase == ServedPhase(b, p)
    ensures var j := Observed(b, Some(p));
            j == b.(phase := j.phase,
                    lastExitCode := if j.phase == InfFailing then LastExit(p.containers, b.lastExitCode)
                                    else b.lastExitCode)
  {
    RestartsIsSum(p.containers);
    hide Restarts, LastExit, SumMap;
  }

  /**
   A pass over a served job without a pod creates the pod, whatever the phase becomes: Starting if it
   never ran, Restarting otherwise, and Failing for a budget below zero.
   */
  lemma MissingPodIsRecreated(s: Store, n: string, calls: nat)
    requires Present(s, n) && !s.infs[n].deleting && FINALIZER_KEY in s.infs[n].finalizers && 5 <= calls
    requires s.infs[n].phase == InfStarting || s.infs[n].phase == InfRunning || s.infs[n].phase == InfRestarting
    requires n !in s.servers
    ensures var b := s.infs[n];
            var phase := if b.spec.maxRestarts < 0 then InfFailing
                         else if b.phase == InfStarting then InfStarting else InfRestarting;
            RunInferencePass(s, s.infs, n, calls)
            == (s.(infs := s.infs[n := b.(phase := phase)], servers := s.servers[n := ServerPod([], false, false)]),
                IDone)
  {
    var b := s.infs[n];
    var j := Observed(b, None);
    var made := s.(servers := s.servers[n := NEW_SERVER]);
    InfNext(s, IGetPod(b), calls - 1);
    InfNext(s, IEnsurePod(b, j), calls - 2);
    InfNext(s, ICreatePod(b, j), calls - 3);
    if j.phase == b.phase {
      assert s.infs == s.infs[n := b];
    } else {
      WriteEnds(made, n, j, calls - 4);
    }
    hide RunInference;
  }

  // ---------------------------------------------------------------- shutdown

  /** A failing job's pod is deleted; once it is gone the job has failed. */
  lemma FailingPass(s: Store, n: string, calls: nat)
    requires Present(s, n) && !s.infs[n].deleting && FINALIZER_KEY in s.infs[n].finalizers && 3 <= calls
    requires s.infs[n].phase == InfFailing
    ensures RunInferencePass(s, s.infs, n, calls)
            == (if n in s.servers then s.(servers := s.servers[n := s.servers[n].(deleting := true)])
                else s.(infs := s.infs[n := s.infs[n].(phase := InfFailed)]), IDone)
  {
    var b := s.infs[n];
    InfNext(s, IGetFailing(b), calls - 1);
    if n in s.servers {
      InfNext(s, IDeletePod(b), calls - 2);
    } else {
      WriteEnds(s, n, b.(phase := InfFailed), calls - 2);
    }
    hide RunInference;
  }

  /** Over a job that has failed a pass does nothing. */
  lemma FailedPass(s: Store, n: string, calls: nat)
    requires Present(s, n) && !s.infs[n].deleting && FINALIZER_KEY in s.infs[n].finalizers
    requires s.infs[n].phase == InfFailed
    ensures RunInferencePass(s, s.infs, n, calls) == (s, IDone)
  {
  }

  /**
   A job marked deleted first loses its pod, which is marked in turn; when the pod is gone it loses the
   finalizer, and with the last one the job itself goes.
   */
  lemma DeletedPass(s: Store, n: string, calls: nat) returns (rest: seq<string>)
    requires Present(s, n) && s.infs[n].deleting && 3 <= calls
    ensures forall f :: f in rest <==> f in s.infs[n].finalizers && f != FINALIZER_KEY
    ensures RunInferencePass(s, s.infs, n, calls)
            == (if n in s.servers then s.(servers := s.servers[n := s.servers[n].(deleting := true)])
                else if rest == [] then s.(infs := s.infs - {n})
                else s.(infs := s.infs[n := s.infs[n].(finalizers := rest)]), IDone)
  {
    var b := s.infs[n];
    rest := Without(b.finalizers, FINALIZER_KEY);
    WithoutMembers(b.finalizers, FINALIZER_KEY);
    InfNext(s, IGetDeleted(b), calls - 1);
    if n !in s.servers {
      InfNext(s, IUnfinalize(b), calls - 2);
    } else if s.servers[n].deleting {
      assert s.servers[n := s.servers[n].(deleting := true)] == s.servers;
    } else {
      InfNext(s, IDeletePod(b), calls - 2);
    }
    hide RunInference, Without;
  }
}
