/** Decimal numbers, object names and pod labels. */
module Names {
  import opened ClusterTypes

  const FINALIZER_KEY := "batch.example.com/inferenceFinalizer"

  predicate IsDigit(c: char) {
    '0' <= c <= '9'
  }

  function DigitOf(d: nat): char
    requires d < 10
  {
    ['0', '1', '2', '3', '4', '5', '6', '7', '8', '9'][d]
  }

  /** `strconv.Itoa` on the non-negative counters. */
  function Itoa(n: nat): (s: string)
    ensures s != [] && forall i :: 0 <= i < |s| ==> IsDigit(s[i])
  {
    if n < 10 then [DigitOf(n)] else Itoa(n / 10) + [DigitOf(n % 10)]
  }

  function ParseDigits(s: string): Option<nat>
  {
    if s == "" then Some(0)
    else if !IsDigit(s[|s| - 1]) then None
    else
      match ParseDigits(s[..|s| - 1])
      case None => None
      case Some(n) => Some(10 * n + (s[|s| - 1] as int - '0' as int))
  }

  /** `strconv.Atoi`: an optional sign followed by at least one digit. */
  function Atoi(s: string): Option<int> {
    if s == "" then None
    else if s[0] == '-' || s[0] == '+' then
      if |s| == 1 then None else
        match ParseDigits(s[1..])
        case None => None
        case Some(n) => Some(if s[0] == '-' then -(n as int) else n as int)
    else
      match ParseDigits(s)
      case None => None
      case Some(n) => Some(n)
  }

  lemma {:induction false} AtoiItoa(n: nat)
    ensures ParseDigits(Itoa(n)) == Some(n) && Atoi(Itoa(n)) == Some(n)
  {
    if 10 <= n {
      AtoiItoa(n / 10);
      assert Itoa(n)[..|Itoa(n)| - 1] == Itoa(n / 10);
    }
    assert IsDigit(Itoa(n)[0]);
  }

  lemma ItoaInjective(a: nat, b: nat)
    requires Itoa(a) == Itoa(b)
    ensures a == b
  {
    AtoiItoa(a);
    AtoiItoa(b);
  }

  // ---------------------------------------------------------------- names

  function WorkerPodGroupName(job: string, attempt: nat): string {
    job + "-attempt-" + Itoa(attempt)
  }

  function WorkerPodName(job: string, attempt: nat, rank: nat): string {
    job + "-attempt-" + Itoa(attempt) + "-rank-" + Itoa(rank)
  }

  function MasterServiceName(job: string): string {
    job + "-master"
  }

  lemma DashIsLast(a: string, d: string)
    requires forall i :: 0 <= i < |d| ==> IsDigit(d[i])
    ensures (a + "-" + d)[|a|] == '-'
    ensures forall i :: |a| < i < |a| + 1 + |d| ==> (a + "-" + d)[i] != '-'
  {
    forall i | |a| < i < |a| + 1 + |d| ensures (a + "-" + d)[i] != '-' {
      assert (a + "-" + d)[i] == d[i - |a| - 1];
    }
  }

  /** A name that ends in '-' and digits splits at its last dash. */
  lemma LastDashSplits(a: string, da: string, b: string, db: string)
    requires forall i :: 0 <= i < |da| ==> IsDigit(da[i])
    requires forall i :: 0 <= i < |db| ==> IsDigit(db[i])
    requires a + "-" + da == b + "-" + db
    ensures a == b && da == db
  {
    var x, y := a + "-" + da, b + "-" + db;
    DashIsLast(a, da);
    DashIsLast(b, db);
    assert |a| == |b|;
    assert a == x[..|a|] && b == y[..|b|];
    assert da == x[|a| + 1..] && db == y[|b| + 1..];
  }

  lemma SuffixCancels(a: string, b: string, suffix: string)
    requires a + suffix == b + suffix
    ensures a == b
  {
    assert |a| == |b|;
    assert a == (a + suffix)[..|a|] && b == (b + suffix)[..|b|];
  }

  lemma ServiceNameInjective(j1: string, j2: string)
    ensures MasterServiceName(j1) == MasterServiceName(j2) <==> j1 == j2
  {
    if MasterServiceName(j1) == MasterServiceName(j2) {
      SuffixCancels(j1, j2, "-master");
    }
  }

  /** (job, attempt) determines the PodGroup name and back, whatever the job name contains. */
  lemma GroupNameInjective(j1: string, a1: nat, j2: string, a2: nat)
    ensures WorkerPodGroupName(j1, a1) == WorkerPodGroupName(j2, a2) <==> j1 == j2 && a1 == a2
  {
    if WorkerPodGroupName(j1, a1) == WorkerPodGroupName(j2, a2) {
      assert WorkerPodGroupName(j1, a1) == (j1 + "-attempt") + "-" + Itoa(a1);
      assert WorkerPodGroupName(j2, a2) == (j2 + "-attempt") + "-" + Itoa(a2);
      LastDashSplits(j1 + "-attempt", Itoa(a1), j2 + "-attempt", Itoa(a2));
      SuffixCancels(j1, j2, "-attempt");
      ItoaInjective(a1, a2);
    }
  }

  /** (job, attempt, rank) determines the worker pod name and back. */
  lemma PodNameInjective(k1: PodKey, k2: PodKey)
    ensures WorkerPodName(k1.job, k1.attempt, k1.rank) == WorkerPodName(k2.job, k2.attempt, k2.rank) <==> k1 == k2
  {
    if WorkerPodName(k1.job, k1.attempt, k1.rank) == WorkerPodName(k2.job, k2.attempt, k2.rank) {
      var g1, g2 := WorkerPodGroupName(k1.job, k1.attempt), WorkerPodGroupName(k2.job, k2.attempt);
      assert WorkerPodName(k1.job, k1.attempt, k1.rank) == (g1 + "-rank") + "-" + Itoa(k1.rank);
      assert WorkerPodName(k2.job, k2.attempt, k2.rank) == (g2 + "-rank") + "-" + Itoa(k2.rank);
      LastDashSplits(g1 + "-rank", Itoa(k1.rank), g2 + "-rank", Itoa(k2.rank));
      SuffixCancels(g1, g2, "-rank");
      ItoaInjective(k1.rank, k2.rank);
      GroupNameInjective(k1.job, k1.attempt, k2.job, k2.attempt);
    }
  }

  // ---------------------------------------------------------------- labels

  type Labels = map<string, string>

  function WorkerPodLabels(k: PodKey): Labels {
    map["rank" := Itoa(k.rank), "jobName" := k.job, "jobType" := "Train",
        "attempt" := Itoa(k.attempt), "pod-group" := WorkerPodGroupName(k.job, k.attempt)]
  }

  function InferencePodLabels(job: string): Labels {
    map["jobName" := job, "jobType" := "Inference"]
  }

  function MasterServiceSelector(job: string, attempt: nat): Labels {
    map["rank" := "0", "attempt" := Itoa(attempt), "jobName" := job, "jobType" := "Train"]
  }

  /** The selector with which one attempt's pods are listed and deleted. */
  function AttemptSelector(job: string, attempt: nat): Labels {
    map["jobName" := job, "jobType" := "Train", "attempt" := Itoa(attempt)]
  }

  /** Every label the selector asks for has the value it asks for. */
  predicate Matches(selector: Labels, labels: Labels) {
    forall key :: key in selector ==> key in labels && labels[key] == selector[key]
  }

  function LabelValue(labels: Labels, key: string): string {
    if key in labels then labels[key] else ""
  }

  /** The attempt selector finds exactly that job's pods of that attempt, and no inference pod. */
  lemma AttemptSelectorExact(job: string, attempt: nat, k: PodKey, inf: string)
    ensures Matches(AttemptSelector(job, attempt), WorkerPodLabels(k)) <==> k.job == job && k.attempt == attempt
    ensures !Matches(AttemptSelector(job, attempt), InferencePodLabels(inf))
  {
    var sel, labels := AttemptSelector(job, attempt), WorkerPodLabels(k);
    if Matches(sel, labels) {
      assert "attempt" in sel && "jobName" in sel;
      ItoaInjective(attempt, k.attempt);
    }
    assert "attempt" in sel && "attempt" !in InferencePodLabels(inf);
  }

  /** The master service reaches the rank-0 worker of the current attempt and no other pod. */
  lemma MasterSelectorExact(job: string, attempt: nat, k: PodKey, inf: string)
    ensures Matches(MasterServiceSelector(job, attempt), WorkerPodLabels(k)) <==> k == PodKey(job, attempt, 0)
    ensures !Matches(MasterServiceSelector(job, attempt), InferencePodLabels(inf))
  {
    var sel, labels := MasterServiceSelector(job, attempt), WorkerPodLabels(k);
    assert Itoa(0) == "0";
    if Matches(sel, labels) {
      assert "attempt" in sel && "jobName" in sel && "rank" in sel;
      ItoaInjective(attempt, k.attempt);
      ItoaInjective(0, k.rank);
    }
    assert "rank" in sel && "rank" !in InferencePodLabels(inf);
  }

  /** `failureSummaryFromPod`: the attempt and rank are parsed back from the labels, 0 when they do not parse. */
  function FailureSummaryFromLabels(labels: Labels): FailureSummary {
    var attempt := Atoi(LabelValue(labels, "attempt"));
    var rank := Atoi(LabelValue(labels, "rank"));
    FailureSummary(if attempt.Some? then attempt.value else 0, if rank.Some? then rank.value else 0, None)
  }

  /** The failure summary recovers the attempt and the rank the pod was built with. */
  lemma FailureSummaryRoundTrip(k: PodKey)
    ensures FailureSummaryFromLabels(WorkerPodLabels(k)) == FailureSummary(k.attempt, k.rank, None)
  {
    AtoiItoa(k.attempt);
    AtoiItoa(k.rank);
  }
}
