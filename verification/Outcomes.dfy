/** What the delivery protocol amounts to: completions per window, what leaves a claim behind, how often a note goes
    out. */
module Outcomes {
  import opened Prelude
  import opened Clustering
  import opened Routing
  import opened Delivery

  // ---------------------------------------------------------------- mishaps as events

  /** The step takes away a run that is between claim and outcome, without giving the claim back. */
  predicate LeavesClaim(s: State, e: Event, fp: string) {
    match e
    case Analyse(i, triage, _) => Owns(s, i, fp) && s.active[i].phase.Analysing? && triage.Rejects?
    case Release(i, ok) => Owns(s, i, fp) && s.active[i].phase.Releasing? && !ok
    case Crash(i) => Owns(s, i, fp)
    case _ => false
  }

  /** The step lets a run go on without the store, or ends the claim of a run still at work. */
  predicate Unguards(s: State, e: Event, fp: string) {
    match e
    case Claim(i, up) =>
      !up && Working(s, i) && Current(s, i).fingerprint == fp && s.active[i].phase.Claiming?
    case Expire(f) => f == fp && fp in s.claims && Owned(s, fp)
    case _ => false
  }

  function Leaving(fp: string): (State, Event) -> bool { (s: State, e: Event) => LeavesClaim(s, e, fp) }

  function Unguarding(fp: string): (State, Event) -> bool { (s: State, e: Event) => Unguards(s, e, fp) }

  lemma StepEntries(w: World, s: State, e: Event, fp: string)
    ensures Left(fp) in Step(w, s, e).log <==> Left(fp) in s.log || LeavesClaim(s, e, fp)
    ensures Unguarded(fp) in Step(w, s, e).log <==> Unguarded(fp) in s.log || Unguards(s, e, fp)
  {
  }

  ghost predicate SomeStep(w: World, trace: seq<Event>, happens: (State, Event) -> bool) {
    exists k :: 0 <= k < |trace| && HappensAt(w, trace, happens, k)
  }

  ghost predicate HappensAt(w: World, trace: seq<Event>, happens: (State, Event) -> bool, k: nat)
    requires k < |trace|
  {
    happens(Run(w, Initial(w), trace[..k]), trace[k])
  }

  lemma SomeStepSnoc(w: World, trace: seq<Event>, happens: (State, Event) -> bool)
    requires trace != []
    ensures
      var n := |trace| - 1;
      && (SomeStep(w, trace[..n], happens) ==> SomeStep(w, trace, happens))
      && (happens(Run(w, Initial(w), trace[..n]), trace[n]) ==> SomeStep(w, trace, happens))
      && (SomeStep(w, trace, happens) ==>
            SomeStep(w, trace[..n], happens) || happens(Run(w, Initial(w), trace[..n]), trace[n]))
  {
    var n := |trace| - 1;
    if k :| 0 <= k < |trace| && HappensAt(w, trace, happens, k) {
      if k < n {
        assert trace[..n][..k] == trace[..k];
        assert HappensAt(w, trace[..n], happens, k);
      }
    }
    if k :| 0 <= k < |trace[..n]| && HappensAt(w, trace[..n], happens, k) {
      assert trace[..n][..k] == trace[..k];
      assert HappensAt(w, trace, happens, k);
    }
    if happens(Run(w, Initial(w), trace[..n]), trace[n]) {
      assert HappensAt(w, trace, happens, n);
    }
  }

  /** A claim is left behind exactly by a rejecting triage, a failing `reset` or a crash of the run that holds it. */
  lemma {:induction false} LeftIff(w: World, trace: seq<Event>, fp: string)
    ensures Left(fp) in Run(w, Initial(w), trace).log <==> SomeStep(w, trace, Leaving(fp))
  {
    if trace != [] {
      var n := |trace| - 1;
      LeftIff(w, trace[..n], fp);
      SomeStepSnoc(w, trace, Leaving(fp));
      StepEntries(w, Run(w, Initial(w), trace[..n]), trace[n], fp);
    }
  }

  /** The store fails to guard a fingerprint exactly when a claim is granted during an outage or expires under a run. */
  lemma {:induction false} UnguardedIff(w: World, trace: seq<Event>, fp: string)
    ensures !Guarded(Run(w, Initial(w), trace).log, fp) <==> SomeStep(w, trace, Unguarding(fp))
  {
    if trace != [] {
      var n := |trace| - 1;
      UnguardedIff(w, trace[..n], fp);
      SomeStepSnoc(w, trace, Unguarding(fp));
      StepEntries(w, Run(w, Initial(w), trace[..n]), trace[n], fp);
    }
  }

  // ---------------------------------------------------------------- the drained queue

  ghost predicate Drained(s: State) { s.waiting == {} && s.active == map[] }

  /** When the queue has drained, however the workers interleaved and whatever failed on the way, an undisturbed
      fingerprint has been dealt with at least once, and exactly once in each of its windows: every completion and every
      claim left behind is followed by one expiry, except that the last one still holds its claim. And in whatever
      window an attempt failed and gave its claim back, it has been made up for: no attempt is owed. */
  lemma DrainedOncePerWindow(w: World, trace: seq<Event>, fp: string)
    requires Known(w, fp) && Undisturbed(w, Run(w, Initial(w), trace).log, fp) && Drained(Run(w, Initial(w), trace))
    ensures DealtWith(Run(w, Initial(w), trace), fp)
  {
    AccountedRun(w, trace, fp);
    ClaimInvRun(w, trace, fp);
    ScanCounts(w.policy, Run(w, Initial(w), trace).log, fp);
    ScanOwed(w.policy, Run(w, Initial(w), trace).log, fp);
  }

  ghost predicate DealtWith(s: State, fp: string) {
    && Completions(s.log, fp) + Losses(s.log, fp) == Expiries(s.log, fp) + (if fp in s.claims then 1 else 0)
    && Completions(s.log, fp) + Losses(s.log, fp) >= 1 && !Owed(s.log, fp)
  }

  predicate Completes(e: Entry, fp: string) {
    e.Ended? && e.cluster.fingerprint == fp && !e.outcome.Error?
  }

  /** The attempt failed and gave its claim back. */
  predicate Fallen(e: Entry, fp: string) {
    e.Ended? && e.cluster.fingerprint == fp && e.outcome.Error?
  }

  lemma {:induction false} MadeUp(log: seq<Entry>, fp: string, j: nat) returns (k: nat)
    requires j < |log| && Fallen(log[j], fp) && !Owed(log, fp)
    ensures j < k < |log| && (Completes(log[k], fp) || log[k] == Left(fp))
  {
    var n := |log| - 1;
    if Owed(log[..n], fp) || j == n {
      k := n;
    } else {
      k := MadeUp(log[..n], fp, j);
    }
  }

  /** Every failed attempt of an undisturbed fingerprint, in whatever window, is followed by a completion or by a run
      that leaves the claim behind. */
  lemma FailureMadeUp(w: World, trace: seq<Event>, fp: string, j: nat) returns (k: nat)
    requires Known(w, fp) && Undisturbed(w, Run(w, Initial(w), trace).log, fp) && Drained(Run(w, Initial(w), trace))
    requires j < |Run(w, Initial(w), trace).log| && Fallen(Run(w, Initial(w), trace).log[j], fp)
    ensures
      var log := Run(w, Initial(w), trace).log;
      j < k < |log| && (Completes(log[k], fp) || log[k] == Left(fp))
  {
    DrainedOncePerWindow(w, trace, fp);
    k := MadeUp(Run(w, Initial(w), trace).log, fp, j);
  }

  lemma {:induction false} NoLosses(log: seq<Entry>, fp: string)
    ensures Losses(log, fp) == 0 <==> Left(fp) !in log
  {
    if log != [] {
      var n := |log| - 1;
      NoLosses(log[..n], fp);
      assert log == log[..n] + [log[n]];
    }
  }

  /** The fingerprint's latest completion, after which no attempt on it came to an end. */
  ghost predicate LastCompletion(log: seq<Entry>, fp: string, k: nat) {
    k < |log| && Completes(log[k], fp) && forall j :: k < j < |log| ==> !Completes(log[j], fp) && !Fallen(log[j], fp)
  }

  lemma {:induction false} LatestCompletes(log: seq<Entry>, fp: string) returns (k: nat)
    requires Completions(log, fp) >= 1 && Left(fp) !in log && !Owed(log, fp)
    ensures LastCompletion(log, fp, k)
  {
    var n := |log| - 1;
    if Completes(log[n], fp) {
      k := n;
    } else {
      assert log == log[..n] + [log[n]];
      k := LatestCompletes(log[..n], fp);
      forall j | k < j < |log| ensures !Completes(log[j], fp) && !Fallen(log[j], fp) {
        if j < n { assert log[j] == log[..n][j]; }
      }
    }
  }

  /** No incident is lost: if the store guarded the fingerprint, no message that calls for it resurfaced and no run left
      the claim behind, a drained queue means one completion for each window that was opened, at least one, and that the
      latest attempt is a completion. */
  lemma DrainedCompleted(w: World, trace: seq<Event>, fp: string) returns (k: nat)
    requires Known(w, fp) && Undisturbed(w, Run(w, Initial(w), trace).log, fp) && Drained(Run(w, Initial(w), trace))
    requires !SomeStep(w, trace, Leaving(fp))
    ensures
      var s := Run(w, Initial(w), trace);
      && Completions(s.log, fp) == Expiries(s.log, fp) + (if fp in s.claims then 1 else 0)
      && Completions(s.log, fp) >= 1 && LastCompletion(s.log, fp, k)
  {
    DrainedOncePerWindow(w, trace, fp);
    LeftIff(w, trace, fp);
    NoLosses(Run(w, Initial(w), trace).log, fp);
    k := LatestCompletes(Run(w, Initial(w), trace).log, fp);
  }

  lemma {:induction false} NoExpiries(log: seq<Entry>, fp: string)
    ensures Expiries(log, fp) == 0 <==> Expired(fp) !in log
  {
    if log != [] {
      var n := |log| - 1;
      NoExpiries(log[..n], fp);
      assert log == log[..n] + [log[n]];
    }
  }

  /** Within one window: exactly one completion if and only if no run left the claim behind. */
  lemma DrainedExactlyOnce(w: World, trace: seq<Event>, fp: string)
    requires Known(w, fp) && Undisturbed(w, Run(w, Initial(w), trace).log, fp) && Drained(Run(w, Initial(w), trace))
    requires Expired(fp) !in Run(w, Initial(w), trace).log
    ensures Completions(Run(w, Initial(w), trace).log, fp) == 1 <==> !SomeStep(w, trace, Leaving(fp))
  {
    DrainedOncePerWindow(w, trace, fp);
    LeftIff(w, trace, fp);
    NoLosses(Run(w, Initial(w), trace).log, fp);
    NoExpiries(Run(w, Initial(w), trace).log, fp);
  }

  lemma {:induction false} PrefixSound(p: Policy, log: seq<Entry>, fp: string, n: nat)
    requires n <= |log| && Scan(p, log, fp) != Broken
    ensures Scan(p, log[..n], fp) != Broken
  {
    if n < |log| {
      var m := |log| - 1;
      PrefixSound(p, log[..m], fp, n);
      assert log[..m][..n] == log[..n];
    } else {
      assert log[..n] == log;
    }
  }

  lemma {:induction false} StaysDone(p: Policy, log: seq<Entry>, fp: string, i: nat, j: nat)
    requires i < j <= |log| && Completes(log[i], fp) && Scan(p, log, fp) != Broken
    requires forall k :: i < k < j ==> log[k] != Expired(fp)
    ensures Scan(p, log[..j], fp) == Done
  {
    PrefixSound(p, log, fp, j);
    assert log[..j][..j - 1] == log[..j - 1];
    if i < j - 1 { StaysDone(p, log, fp, i, j - 1); }
  }

  /** Between two completions of a fingerprint its claim has expired. */
  lemma OneCompletionPerWindow(w: World, trace: seq<Event>, fp: string, i: nat, j: nat) returns (k: nat)
    requires Guarded(Run(w, Initial(w), trace).log, fp) && i < j < |Run(w, Initial(w), trace).log|
    requires Completes(Run(w, Initial(w), trace).log[i], fp) && Completes(Run(w, Initial(w), trace).log[j], fp)
    ensures i < k < j && Run(w, Initial(w), trace).log[k] == Expired(fp)
  {
    ClaimInvRun(w, trace, fp);
    var log := Run(w, Initial(w), trace).log;
    hide Run, Step, ClaimInv;
    assert log[..j + 1][..j] == log[..j];
    if forall k :: i < k < j ==> log[k] != Expired(fp) {
      StaysDone(w.policy, log, fp, i, j);
      PrefixSound(w.policy, log, fp, j + 1);
    }
    k :| i < k < j && log[k] == Expired(fp);
  }

  predicate Concerns(e: Entry, fp: string) { !Foreign(e, fp) }

  /** A completion is complete: all notes of the plan went out since the last failure, in order, and until the claim
      expires nothing follows. */
  lemma {:induction false} DoneMeaning(p: Policy, log: seq<Entry>, fp: string) returns (k: nat)
    requires Scan(p, log, fp) == Done
    ensures k < |log| && Completes(log[k], fp)
    ensures Scan(p, log[..k], fp)
         == Open(if log[k].outcome.Suppressed? then [] else p.plan(log[k].cluster, log[k].analysis))
    ensures forall j :: k < j < |log| ==> !Concerns(log[j], fp)
  {
    var n := |log| - 1;
    if Scan(p, log[..n], fp) == Done {
      k := DoneMeaning(p, log[..n], fp);
      assert log[..n][..k] == log[..k];
      forall j | k < j < |log| ensures !Concerns(log[j], fp) {
        if j < n { assert log[j] == log[..n][j]; }
      }
    } else {
      k := n;
    }
  }

  /** A message is visible, deleted, or with some invocation. */
  ghost predicate Somewhere(s: State, m: nat) {
    m in s.waiting || m in s.settled || exists i :: i in s.active && m in s.active[i].batch
  }

  lemma SomewhereMoved(s: State, s': State, i: nat, m: nat)
    requires i in s.active && Somewhere(s, m) && Moved(s, s', i) && s'.settled == s.settled
    ensures Somewhere(s', m)
  {
    if j :| j in s.active && m in s.active[j].batch {
      assert m in Members(s.active[j].batch);
      assert j in s'.active ==> s'.active[j].batch == s.active[j].batch;
    }
  }

  lemma SomewhereEnd(s: State, i: nat, e: Event, m: nat)
    requires i in s.active && Somewhere(s, m)
    ensures Somewhere(EndStep(s, i, e), m)
  {
    var s' := EndStep(s, i, e);
    if j :| j in s.active && m in s.active[j].batch {
      assert m in Members(s.active[j].batch);
      assert j in s'.active ==> s'.active[j] == s.active[j];
    }
  }

  lemma SomewhereReceive(w: World, s: State, e: Event, m: nat)
    requires e.Receive? && Somewhere(s, m)
    ensures Somewhere(Step(w, s, e), m)
  {
    var s' := Step(w, s, e);
    if j :| j in s.active && m in s.active[j].batch {
      assert j in s'.active && s'.active[j] == s.active[j];
    } else if m in s.waiting && m !in s'.waiting {
      assert m in Members(e.batch);
      assert e.i in s'.active && m in s'.active[e.i].batch;
    }
  }

  lemma SomewhereStep(w: World, s: State, e: Event, m: nat)
    requires Somewhere(s, m)
    ensures Somewhere(Step(w, s, e), m)
  {
    hide ClusterStep, EndStep;
    if e.Receive? {
      SomewhereReceive(w, s, e, m);
    } else if e.Expire? || e.Resurface? {
      assert Step(w, s, e).active == s.active;
    } else if Working(s, e.i) {
      ClusterStepMoved(w, s, e.i, e);
      SomewhereMoved(s, Step(w, s, e), e.i, m);
    } else if e.i in s.active {
      SomewhereEnd(s, e.i, e, m);
    }
  }

  lemma {:induction false} SomewhereRun(w: World, trace: seq<Event>, m: nat)
    requires m in w.queue
    ensures Somewhere(Run(w, Initial(w), trace), m)
  {
    if trace != [] {
      var n := |trace| - 1;
      SomewhereRun(w, trace[..n], m);
      SomewhereStep(w, Run(w, Initial(w), trace[..n]), trace[n], m);
    }
  }

  /** A drained queue means that every message has been deleted, malformed ones included, which nobody has handled. */
  lemma DrainedDeleted(w: World, trace: seq<Event>, m: nat)
    requires m in w.queue && Drained(Run(w, Initial(w), trace))
    ensures m in Run(w, Initial(w), trace).settled
  {
    SomewhereRun(w, trace, m);
  }

  // ---------------------------------------------------------------- how often a note goes out

  /** The attempt under way has got past its note `k`. */
  predicate Past(x: Progress, k: nat) { x.Open? && |x.sent| > k }

  /** How often note `k` of an attempt went out. */
  function SendsAt(p: Policy, log: seq<Entry>, fp: string, k: nat): nat {
    if log == [] then 0
    else
      var n := |log| - 1;
      var x := Scan(p, log[..n], fp);
      SendsAt(p, log[..n], fp, k) + if log[n].Sent? && log[n].fp == fp && x.Open? && |x.sent| == k then 1 else 0
  }

  /** Completions that had a note `k`. */
  function CompletedPast(p: Policy, log: seq<Entry>, fp: string, k: nat): nat {
    if log == [] then 0
    else
      var n := |log| - 1;
      CompletedPast(p, log[..n], fp, k) + if Completes(log[n], fp) && Past(Scan(p, log[..n], fp), k) then 1 else 0
  }

  /** Attempts that ended otherwise after their note `k` had gone out. */
  function FailedPast(p: Policy, log: seq<Entry>, fp: string, k: nat): nat {
    if log == [] then 0
    else
      var n := |log| - 1;
      FailedPast(p, log[..n], fp, k) + if Fails(log[n], fp) && Past(Scan(p, log[..n], fp), k) then 1 else 0
  }

  predicate Fails(e: Entry, fp: string) {
    e == Left(fp) || Fallen(e, fp)
  }

  /** Note `k` goes out once for each completion that has one, and once more for each failed attempt that had got past
      it: what an attempt sent before it failed is sent again. */
  lemma {:induction false} SendsLaw(p: Policy, log: seq<Entry>, fp: string, k: nat)
    requires Scan(p, log, fp) != Broken
    ensures SendsAt(p, log, fp, k)
         == CompletedPast(p, log, fp, k) + FailedPast(p, log, fp, k) + if Past(Scan(p, log, fp), k) then 1 else 0
  {
    if log != [] { SendsLaw(p, log[..|log| - 1], fp, k); }
  }

  /** In a drained run the notes beyond those of completed notifications are exactly those of failed attempts. */
  lemma DrainedSends(w: World, trace: seq<Event>, fp: string, k: nat)
    requires Guarded(Run(w, Initial(w), trace).log, fp) && Drained(Run(w, Initial(w), trace))
    ensures
      var log := Run(w, Initial(w), trace).log;
      SendsAt(w.policy, log, fp, k) == CompletedPast(w.policy, log, fp, k) + FailedPast(w.policy, log, fp, k)
  {
    ClaimInvRun(w, trace, fp);
    SendsLaw(w.policy, Run(w, Initial(w), trace).log, fp, k);
  }

  /** Whatever the queue holds for the fingerprint calls for one note at most. */
  ghost predicate SingleNote(w: World, fp: string) {
    forall m, k, a :: m in w.queue && 0 <= k < |w.queue[m]| && CallsFor(w, w.queue[m][k], fp)
      ==> |w.policy.plan(w.queue[m][k], a)| == 1
  }

  /** Nothing has been sent by an attempt that did not complete. */
  ghost predicate NothingWasted(p: Policy, log: seq<Entry>, fp: string, k: nat) {
    FailedPast(p, log, fp, k) == 0 && (Scan(p, log, fp).Open? ==> Scan(p, log, fp).sent == [])
  }

  lemma FailedLogged(p: Policy, log: seq<Entry>, e: Entry, fp: string, k: nat)
    ensures FailedPast(p, log + [e], fp, k)
         == FailedPast(p, log, fp, k) + if Fails(e, fp) && Past(Scan(p, log, fp), k) then 1 else 0
  {
    assert (log + [e])[..|log|] == log;
  }

  /** An entry that is no note for the fingerprint wastes nothing. */
  lemma WasteLogged(p: Policy, log: seq<Entry>, e: Entry, fp: string, k: nat)
    requires NothingWasted(p, log, fp, k) && !(e.Sent? && e.fp == fp)
    ensures NothingWasted(p, log + [e], fp, k)
  {
    FailedLogged(p, log, e, fp, k);
    ScanLogged(p, log, e, fp);
  }

  lemma WasteSend(p: Policy, log: seq<Entry>, note: Note, e: Entry, fp: string, k: nat)
    requires NothingWasted(p, log, fp, k) && Completes(e, fp)
    ensures NothingWasted(p, log + [Sent(fp, note)] + [e], fp, k)
  {
    hide Scan, FailedPast, Past;
    FailedLogged(p, log, Sent(fp, note), fp, k);
    ScanLogged(p, log, Sent(fp, note), fp);
    FailedLogged(p, log + [Sent(fp, note)], e, fp, k);
    ScanLogged(p, log + [Sent(fp, note)], e, fp);
  }

  /** The cluster an invocation works on comes from a message of the queue. */
  lemma WorkFromQueue(w: World, s: State, i: nat) returns (m: nat, k: nat)
    requires WorkInv(w, s) && Working(s, i)
    ensures m in w.queue && k < |w.queue[m]| && w.queue[m][k] == Current(s, i)
  {
    var v := s.active[i];
    assert Sound(w, v);
    m, k := FlattenAt(w.queue, v.batch, v.pos);
  }

  lemma WasteStep(w: World, s: State, e: Event, fp: string, k: nat)
    requires WorkInv(w, s) && Unsuppressed(w, s) && SingleNote(w, fp) && NothingWasted(w.policy, s.log, fp, k)
    ensures NothingWasted(w.policy, Step(w, s, e).log, fp, k)
  {
    var s' := Step(w, s, e);
    var n := |s.log|;
    if e.Send? && Working(s, e.i) && Current(s, e.i).fingerprint == fp {
      WasteSendStep(w, s, e, fp, k);
    } else {
      NoNoteFor(w, s, e, fp);
      hide Step, NothingWasted;
      if |s'.log| == n + 1 {
        assert s'.log == s.log + [s'.log[n]];
        WasteLogged(w.policy, s.log, s'.log[n], fp, k);
      } else if |s'.log| == n + 2 {
        assert s'.log == s.log + [s'.log[n]] + [s'.log[n + 1]];
        WasteLogged(w.policy, s.log, s'.log[n], fp, k);
        WasteLogged(w.policy, s.log + [s'.log[n]], s'.log[n + 1], fp, k);
      } else {
        assert s'.log == s.log;
      }
    }
  }

  lemma NoNoteFor(w: World, s: State, e: Event, fp: string)
    requires !(e.Send? && Working(s, e.i) && Current(s, e.i).fingerprint == fp)
    ensures
      var log, log' := s.log, Step(w, s, e).log;
      log <= log' && |log'| <= |log| + 2 && forall j :: |log| <= j < |log'| ==> !(log'[j].Sent? && log'[j].fp == fp)
  {
  }

  lemma WasteSendStep(w: World, s: State, e: Event, fp: string, k: nat)
    requires WorkInv(w, s) && Unsuppressed(w, s) && SingleNote(w, fp) && NothingWasted(w.policy, s.log, fp, k)
    requires e.Send? && Working(s, e.i) && Current(s, e.i).fingerprint == fp
    ensures NothingWasted(w.policy, Step(w, s, e).log, fp, k)
  {
    var c, phase := Current(s, e.i), s.active[e.i].phase;
    if phase.Sending? && e.ok {
      var m, j := WorkFromQueue(w, s, e.i);
      var notes := w.policy.plan(c, phase.analysis);
      assert |notes| == 1 by { assert w.queue[m][j] == c; }
      if phase.sent == 0 {
        var ended := Ended(c, if phase.degraded then Degraded else Outcome.Success, phase.analysis);
        WasteSend(w.policy, s.log, notes[0], ended, fp, k);
      }
    }
  }

  lemma {:induction false} WasteRun(w: World, trace: seq<Event>, fp: string, k: nat)
    requires SingleNote(w, fp)
    ensures NothingWasted(w.policy, Run(w, Initial(w), trace).log, fp, k)
  {
    if trace != [] {
      var n := |trace| - 1;
      WasteRun(w, trace[..n], fp, k);
      WorkInvRun(w, trace[..n]);
      UnsuppressedRun(w, trace[..n]);
      WasteStep(w, Run(w, Initial(w), trace[..n]), trace[n], fp, k);
    }
  }
}
