/** Why the conditions of the delivery theorems are needed: for every queue the runs in which they fail, and the exact
    conditions that follow. */
module DeliveryLimits {
  import opened Prelude
  import opened Clustering
  import opened Delivery
  import opened Outcomes
  import opened DeliveryRuns

  lemma NothingYet(p: Policy, u: seq<Entry>, fp: string)
    requires Silent(u, fp)
    ensures Completions(u, fp) == 0 && Scan(p, u, fp) == Open([])
  {
    SilentScan(p, [], u, fp);
    assert [] + u == u;
  }

  lemma CompletionsLogged(log: seq<Entry>, e: Entry, fp: string)
    ensures Completions(log + [e], fp) == Completions(log, fp) + if Completes(e, fp) then 1 else 0
  {
    assert (log + [e])[..|log|] == log;
  }

  // ---------------------------------------------------------------- from the claim to a failing send

  /** Worker 0 alone has something in work, and what it holds is cluster `c` of message `m`. */
  ghost predicate Busy(s: State, m: nat, work: seq<Cluster>, k: nat, phase: Phase) {
    s.active == map[0 := Invocation([m], work, k, phase)] && k < |work|
  }

  lemma BusyMoves(s: State, m: nat, work: seq<Cluster>, k: nat, phase: Phase, next: Phase)
    requires Busy(s, m, work, k, phase)
    ensures At(s, 0, next) == s.(active := map[0 := Invocation([m], work, k, next)])
  {
  }

  /** The steps of worker 0 from its claim to the first send. */
  lemma BusyAnalyses(w: World, s: State, m: nat, work: seq<Cluster>, k: nat, llm: LlmAnswer)
    returns (t: seq<Event>, s': State)
    requires Busy(s, m, work, k, Deciding) && !w.policy.suppresses(work[k])
    ensures
      var (a, d) := Diagnosis(NoTriage, llm);
      Leads(w, s, t, s') && Busy(s', m, work, k, Sending(a, d, 0)) && s' == s.(active := s'.active)
  {
    var (a, d) := Diagnosis(NoTriage, llm);
    BusyMoves(s, m, work, k, Deciding, Analysing);
    var s1 := At(s, 0, Analysing);
    BusyMoves(s1, m, work, k, Analysing, Sending(a, d, 0));
    LeadsOne(w, s, Decide(0));
    LeadsStep(w, s, [Decide(0)], s1, Analyse(0, NoTriage, llm));
    t, s' := [Decide(0)] + [Analyse(0, NoTriage, llm)], At(s1, 0, Sending(a, d, 0));
  }

  /** The next send fails and the claim is given back, or `reset` fails too. */
  lemma BusyFails(w: World, s: State, m: nat, work: seq<Cluster>, k: nat, ok: bool) returns (t: seq<Event>, s': State)
    requires exists a, d, n: nat :: Busy(s, m, work, k, Sending(a, d, n)) && n < |w.policy.plan(work[k], a)|
    ensures
      var fp := work[k].fingerprint;
      var ended := s.log + [Ended(work[k], Outcome.Error, None)];
      && Leads(w, s, t, s') && s'.active == map[] && s'.settled == s.settled
      && s'.waiting == s.waiting + ({m} - s.settled)
      && s'.claims == (if ok then s.claims - {fp} else s.claims) && s'.log == if ok then ended else ended + [Left(fp)]
  {
    var a, d, n: nat :| Busy(s, m, work, k, Sending(a, d, n)) && n < |w.policy.plan(work[k], a)|;
    BusyMoves(s, m, work, k, Sending(a, d, n), Releasing);
    var s1 := At(s, 0, Releasing);
    LeadsOne(w, s, Send(0, false));
    LeadsStep(w, s, [Send(0, false)], s1, Release(0, ok));
    t, s' := [Send(0, false)] + [Release(0, ok)], Step(w, s1, Release(0, ok));
    assert Members([m]) == {m};
    assert s1.active - {0} == map[];
  }

  // ---------------------------------------------------------------- a message resurfaces

  /** Nothing of the fingerprint has been completed or its latest attempt failed, although no run left its claim and the
      store guarded it all along. */
  ghost predicate Incomplete(s: State, fp: string) {
    (Completions(s.log, fp) == 0 || Owed(s.log, fp)) && Left(fp) !in s.log && Guarded(s.log, fp)
  }

  ghost predicate OnlyResurfaced(log: seq<Entry>, messages: set<nat>) {
    forall m :: Resurfaced(m) in log ==> m in messages
  }

  lemma LogOfLost(p: Policy, u: seq<Entry>, m: nat, u': seq<Entry>, c: Cluster)
    requires Harmless(u) && Silent(u, c.fingerprint) && Harmless(u') && Silent(u', c.fingerprint)
    ensures
      var log := u + [Resurfaced(m)] + u' + [Ended(c, Outcome.Error, None)];
      && Completions(log, c.fingerprint) == 0 && Left(c.fingerprint) !in log && Guarded(log, c.fingerprint)
      && OnlyResurfaced(log, {m})
  {
    NothingYet(p, u, c.fingerprint);
    SilentScan(p, u, [Resurfaced(m)], c.fingerprint);
    SilentScan(p, u + [Resurfaced(m)], u', c.fingerprint);
    hide Completions, Scan;
    CompletionsLogged(u + [Resurfaced(m)] + u', Ended(c, Outcome.Error, None), c.fingerprint);
    MishapsOfLost(u, m, u', c);
  }

  lemma MishapsOfLost(u: seq<Entry>, m: nat, u': seq<Entry>, c: Cluster)
    requires Harmless(u) && Harmless(u')
    ensures
      var log := u + [Resurfaced(m)] + u' + [Ended(c, Outcome.Error, None)];
      Left(c.fingerprint) !in log && Guarded(log, c.fingerprint) && OnlyResurfaced(log, {m})
  {
  }

  /** A message that becomes visible while still in work can be lost, whatever else the queue holds: other workers take
      the claim for a duplicate and delete everything, then the first one fails. No claim, no message and no
      notification remain. */
  lemma ResurfacedMessageLost(w: World, m: nat, k: nat, fp: string) returns (trace: seq<Event>)
    requires First(w, m, k, fp) && !w.policy.suppresses(w.queue[m][k])
    ensures
      var s := Run(w, Initial(w), trace);
      Drained(s) && fp !in s.claims && Incomplete(s, fp) && OnlyResurfaced(s.log, {m})
  {
    var t0, s0 := ReachClaim(w, m, k, fp);
    var work := w.queue[m];
    var s1 := Logged(s0.(waiting := w.queue.Keys), Resurfaced(m));
    assert s0.waiting + {m} == w.queue.Keys;
    LeadsStep(w, Initial(w), t0, s0, Resurface(m));
    hide Run, Step;
    var t1, u, claims := DrainAll(w, s1, 1, fp);
    var s2 := State({}, s1.settled + s1.waiting, s1.active, claims, s1.log + u);
    LeadsOn(w, Initial(w), t0 + [Resurface(m)], s1, t1, s2);
    var t2, s3 := BusyAnalyses(w, s2, m, work, k, Throws);
    LeadsOn(w, Initial(w), t0 + [Resurface(m)] + t1, s2, t2, s3);
    var t3, s4 := BusyFails(w, s3, m, work, k, true);
    LeadsOn(w, Initial(w), t0 + [Resurface(m)] + t1 + t2, s3, t3, s4);
    LogOfLost(w.policy, s0.log, m, u, work[k]);
    trace := t0 + [Resurface(m)] + t1 + t2 + t3;
    assert m in s3.settled && s4.waiting == {};
  }

  /** The clusters of one message have different fingerprints, as those built from one list of alerts have. */
  ghost predicate DistinctWork(w: World) {
    forall m, i, j :: m in w.queue && 0 <= i < j < |w.queue[m]| ==>
      w.queue[m][i].fingerprint != w.queue[m][j].fingerprint
  }

  lemma FirstIfDistinct(w: World, m: nat, k: nat)
    requires DistinctWork(w) && m in w.queue && k < |w.queue[m]|
    ensures First(w, m, k, w.queue[m][k].fingerprint)
  {
    assert forall x :: 0 <= x < k ==> w.queue[m][..k][x] == w.queue[m][x];
  }

  /** In all runs in which only these messages resurface, a drained queue means a completion. */
  ghost predicate NeverLost(w: World, fp: string, messages: set<nat>) {
    forall trace :: CannotLose(w, fp, messages, trace)
  }

  ghost predicate CannotLose(w: World, fp: string, messages: set<nat>, trace: seq<Event>) {
    var s := Run(w, Initial(w), trace);
    OnlyResurfaced(s.log, messages) && Drained(s) ==> !Incomplete(s, fp)
  }

  /** Letting messages resurface is harmless for a fingerprint exactly when none of them calls for its notification. */
  lemma ResurfacingIff(w: World, fp: string, messages: set<nat>)
    requires Known(w, fp) && DistinctWork(w)
    ensures NeverLost(w, fp, messages) <==> forall m :: m in messages ==> !Risky(w, m, fp)
  {
    if forall m :: m in messages ==> !Risky(w, m, fp) {
      forall trace ensures CannotLose(w, fp, messages, trace) {
        SafeResurfacing(w, fp, messages, trace);
      }
    } else {
      var m :| m in messages && Risky(w, m, fp);
      var k :| 0 <= k < |w.queue[m]| && CallsFor(w, w.queue[m][k], fp);
      FirstIfDistinct(w, m, k);
      var trace := ResurfacedMessageLost(w, m, k, fp);
      assert !CannotLose(w, fp, messages, trace);
    }
  }

  lemma SafeResurfacing(w: World, fp: string, messages: set<nat>, trace: seq<Event>)
    requires Known(w, fp) && forall m :: m in messages ==> !Risky(w, m, fp)
    ensures CannotLose(w, fp, messages, trace)
  {
    var s := Run(w, Initial(w), trace);
    if OnlyResurfaced(s.log, messages) && Drained(s) && Incomplete(s, fp) {
      assert Undisturbed(w, s.log, fp);
      DrainedOncePerWindow(w, trace, fp);
      NoLosses(s.log, fp);
    }
  }

  // ---------------------------------------------------------------- a claim is left behind

  /** Once a claim is left behind the redelivered message is taken for a duplicate: the queue drains without a
      completion. */
  lemma LeftBehind(w: World, t: seq<Event>, s: State, fp: string) returns (trace: seq<Event>)
    requires Leads(w, Initial(w), t, s) && s.active == map[] && s.waiting == w.queue.Keys && fp in s.claims
    requires Completions(s.log, fp) == 0 && Left(fp) in s.log
    ensures var s' := Run(w, Initial(w), trace); Drained(s') && Completions(s'.log, fp) == 0 && Left(fp) in s'.log
  {
    hide Run, Step;
    var t', u, claims := DrainAll(w, s, 0, fp);
    LeadsOn(w, Initial(w), t, s, t', State({}, s.settled + s.waiting, s.active, claims, s.log + u));
    SilentScan(w.policy, s.log, u, fp);
    trace := t + t';
  }

  /** A crash between claim and outcome loses the incident. */
  lemma CrashLoses(w: World, m: nat, k: nat, fp: string) returns (trace: seq<Event>)
    requires First(w, m, k, fp)
    ensures var s := Run(w, Initial(w), trace); Drained(s) && Completions(s.log, fp) == 0 && Left(fp) in s.log
  {
    var t, s := ReachClaim(w, m, k, fp);
    LeadsStep(w, Initial(w), t, s, Crash(0));
    var s' := Step(w, s, Crash(0));
    assert Members([m]) == {m};
    assert s'.active == map[] && s'.waiting == w.queue.Keys;
    NothingYet(w.policy, s.log, fp);
    CompletionsLogged(s.log, Left(fp), fp);
    trace := LeftBehind(w, t + [Crash(0)], s', fp);
  }

  /** So does a triage port that rejects. */
  lemma RejectedTriageLoses(w: World, m: nat, k: nat, fp: string) returns (trace: seq<Event>)
    requires First(w, m, k, fp) && !w.policy.suppresses(w.queue[m][k])
    ensures var s := Run(w, Initial(w), trace); Drained(s) && Completions(s.log, fp) == 0 && Left(fp) in s.log
  {
    var t, s := ReachClaim(w, m, k, fp);
    BusyMoves(s, m, w.queue[m], k, Deciding, Analysing);
    var s1, e := At(s, 0, Analysing), Analyse(0, Rejects, Throws);
    LeadsStep(w, Initial(w), t, s, Decide(0));
    LeadsStep(w, Initial(w), t + [Decide(0)], s1, e);
    var s' := Step(w, s1, e);
    assert Members([m]) == {m};
    assert s'.active == map[] && s'.waiting == w.queue.Keys;
    NothingYet(w.policy, s.log, fp);
    CompletionsLogged(s.log, Left(fp), fp);
    trace := LeftBehind(w, t + [Decide(0)] + [e], s', fp);
  }

  /** And so does a failed send whose `reset` fails as well. */
  lemma FailedResetLoses(w: World, m: nat, k: nat, fp: string) returns (trace: seq<Event>)
    requires First(w, m, k, fp) && !w.policy.suppresses(w.queue[m][k])
    ensures var s := Run(w, Initial(w), trace); Drained(s) && Completions(s.log, fp) == 0 && Left(fp) in s.log
  {
    var t, s := ReachClaim(w, m, k, fp);
    var work := w.queue[m];
    hide Run, Step;
    var t1, s1 := BusyAnalyses(w, s, m, work, k, Throws);
    LeadsOn(w, Initial(w), t, s, t1, s1);
    var t2, s2 := BusyFails(w, s1, m, work, k, false);
    LeadsOn(w, Initial(w), t + t1, s1, t2, s2);
    NothingYet(w.policy, s.log, fp);
    CompletionsLogged(s.log, Ended(work[k], Outcome.Error, None), fp);
    CompletionsLogged(s.log + [Ended(work[k], Outcome.Error, None)], Left(fp), fp);
    assert s2.waiting == w.queue.Keys;
    trace := LeftBehind(w, t + t1 + t2, s2, fp);
  }

  // ---------------------------------------------------------------- a note goes out again

  lemma {:induction false} FailedGrows(p: Policy, log: seq<Entry>, u: seq<Entry>, fp: string, k: nat)
    ensures FailedPast(p, log + u, fp, k) >= FailedPast(p, log, fp, k)
  {
    if u == [] {
      assert log + u == log;
    } else {
      var n := |u| - 1;
      FailedGrows(p, log, u[..n], fp, k);
      assert (log + u)[..|log + u| - 1] == log + u[..n];
    }
  }

  lemma FailedAfterOne(p: Policy, u: seq<Entry>, note: Note, c: Cluster)
    requires Silent(u, c.fingerprint)
    ensures FailedPast(p, u + [Sent(c.fingerprint, note)] + [Ended(c, Outcome.Error, None)], c.fingerprint, 0) >= 1
  {
    var fp := c.fingerprint;
    NothingYet(p, u, fp);
    ScanLogged(p, u, Sent(fp, note), fp);
    FailedLogged(p, u + [Sent(fp, note)], Ended(c, Outcome.Error, None), fp, 0);
  }

  lemma FirstNoteSent(w: World, m: nat, k: nat, fp: string, a: Option<Rules.Analysis>)
    returns (t: seq<Event>, s: State, u: seq<Entry>)
    requires First(w, m, k, fp) && !w.policy.suppresses(w.queue[m][k]) && |w.policy.plan(w.queue[m][k], a)| >= 2
    ensures Leads(w, Initial(w), t, s) && Busy(s, m, w.queue[m], k, Sending(a, false, 1))
    ensures s.waiting == w.queue.Keys - {m} && s.settled == {}
    ensures s.log == u + [Sent(fp, w.policy.plan(w.queue[m][k], a)[0])] && Harmless(u) && Silent(u, fp)
  {
    var t0, s0 := ReachClaim(w, m, k, fp);
    var work := w.queue[m];
    var t1, s1 := BusyAnalyses(w, s0, m, work, k, Answers(a, false));
    LeadsOn(w, Initial(w), t0, s0, t1, s1);
    BusyMoves(s1, m, work, k, Sending(a, false, 0), Sending(a, false, 1));
    LeadsStep(w, Initial(w), t0 + t1, s1, Send(0, true));
    t, s, u := t0 + t1 + [Send(0, true)], Step(w, s1, Send(0, true)), s0.log;
  }

  /** Worker 0 gets its first note out, fails at the second one and gives everything back. */
  lemma SecondNoteFails(w: World, m: nat, k: nat, fp: string, a: Option<Rules.Analysis>)
    returns (t: seq<Event>, s: State)
    requires First(w, m, k, fp) && !w.policy.suppresses(w.queue[m][k]) && |w.policy.plan(w.queue[m][k], a)| >= 2
    ensures Leads(w, Initial(w), t, s) && s.active == map[] && s.waiting == w.queue.Keys
    ensures Harmless(s.log) && FailedPast(w.policy, s.log, fp, 0) >= 1
  {
    hide Run, Step, Scan, FailedPast, Silent;
    var work := w.queue[m];
    var t0, s0, u := FirstNoteSent(w, m, k, fp, a);
    var t1;
    t1, s := BusyFails(w, s0, m, work, k, true);
    LeadsOn(w, Initial(w), t0, s0, t1, s);
    t := t0 + t1;
    FailedAfterOne(w.policy, u, w.policy.plan(work[k], a)[0], work[k]);
  }

  /** When a notification has a second note, and that one fails, the first goes out again: the queue drains with nothing
      worse than one failed send, and the first note has been sent more often than completed. */
  lemma FirstNoteResent(w: World, m: nat, k: nat, fp: string, a: Option<Rules.Analysis>) returns (trace: seq<Event>)
    requires First(w, m, k, fp) && !w.policy.suppresses(w.queue[m][k]) && |w.policy.plan(w.queue[m][k], a)| >= 2
    ensures
      var s := Run(w, Initial(w), trace);
      && Drained(s) && Harmless(s.log)
      && SendsAt(w.policy, s.log, fp, 0) > CompletedPast(w.policy, s.log, fp, 0)
  {
    hide Step, Scan, FailedPast, SendsAt, CompletedPast;
    var t, s := SecondNoteFails(w, m, k, fp, a);
    var t', u, claims := DrainAll(w, s, 0, fp);
    var s' := State({}, s.settled + s.waiting, s.active, claims, s.log + u);
    trace := t + t';
    LeadsOn(w, Initial(w), t, s, t', s');
    FailedGrows(w.policy, s.log, u, fp, 0);
    assert Harmless(s'.log) && Guarded(s'.log, fp);
    DrainedSends(w, trace, fp, 0);
  }

  /** In the drained run every note has gone out exactly as often as a notification with it was completed. */
  ghost predicate NoResend(w: World, fp: string, trace: seq<Event>) {
    var s := Run(w, Initial(w), trace);
    Guarded(s.log, fp) && Drained(s) ==>
      forall k: nat :: SendsAt(w.policy, s.log, fp, k) == CompletedPast(w.policy, s.log, fp, k)
  }

  /** In all guarded runs that have drained every note has gone out as often as completed, exactly when no notification
      of the fingerprint has more than one note. */
  lemma NoResendIff(w: World, fp: string)
    requires DistinctWork(w)
    ensures (forall trace :: NoResend(w, fp, trace)) <==> SingleNote(w, fp)
  {
    if SingleNote(w, fp) {
      forall trace ensures NoResend(w, fp, trace) {
        var s := Run(w, Initial(w), trace);
        if Guarded(s.log, fp) && Drained(s) {
          forall k: nat ensures SendsAt(w.policy, s.log, fp, k) == CompletedPast(w.policy, s.log, fp, k) {
            WasteRun(w, trace, fp, k);
            DrainedSends(w, trace, fp, k);
          }
        }
      }
    } else {
      var m, k, a :| m in w.queue && 0 <= k < |w.queue[m]| && CallsFor(w, w.queue[m][k], fp)
        && |w.policy.plan(w.queue[m][k], a)| != 1;
      FirstIfDistinct(w, m, k);
      var trace := FirstNoteResent(w, m, k, fp, a);
      assert !NoResend(w, fp, trace);
    }
  }

  // ---------------------------------------------------------------- the store is unreachable

  /** While the store is unreachable two workers can own the same fingerprint at once. */
  lemma OutageTwoOwners(p: Policy, c: Cluster) returns (trace: seq<Event>)
    ensures
      var w := World(p, map[0 := [c], 1 := [c]]);
      var s := Run(w, Initial(w), trace);
      Owns(s, 0, c.fingerprint) && Owns(s, 1, c.fingerprint)
  {
    var w := World(p, map[0 := [c], 1 := [c]]);
    SingleMessage(w.queue, 0);
    SingleMessage(w.queue, 1);
    LeadsOne(w, Initial(w), Receive(0, [0]));
    var s1 := Step(w, Initial(w), Receive(0, [0]));
    LeadsStep(w, Initial(w), [Receive(0, [0])], s1, Claim(0, true));
    var s2 := Step(w, s1, Claim(0, true));
    LeadsStep(w, Initial(w), [Receive(0, [0])] + [Claim(0, true)], s2, Receive(1, [1]));
    var s3 := Step(w, s2, Receive(1, [1]));
    trace := [Receive(0, [0])] + [Claim(0, true)] + [Receive(1, [1])] + [Claim(1, false)];
    LeadsStep(w, Initial(w), [Receive(0, [0])] + [Claim(0, true)] + [Receive(1, [1])], s3, Claim(1, false));
  }
}
