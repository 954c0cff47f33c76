/** The incident delivery protocol: concurrent workers, one claim store, a queue that redelivers what is not deleted.
    Every stretch of code between two awaits is one step, and steps of different invocations interleave freely. */
module Delivery {
  import opened Prelude
  import opened Clustering
  import opened Rules
  import opened Routing

  // ---------------------------------------------------------------- what a cluster calls for

  /** One notification as handed to the notifier. */
  datatype Note = Note(cluster: Cluster, analysis: Option<Analysis>, channel: Option<string>)

  const ANY_NOTE := Note(Cluster("", "", AlertType.Error, "", 0, [], Timestamp("", 0), None, None), None, None)

  type Notes = s: seq<Note> | s != [] witness [ANY_NOTE]

  /** The rule-dependent part of processing a cluster. */
  datatype Policy = Policy(suppresses: Cluster -> bool, plan: (Cluster, Option<Analysis>) -> Notes)

  function Tagged(cluster: Cluster, tags: map<string, string>): Cluster {
    if tags == map[] then cluster
    else cluster.(labels := Some((if cluster.labels.Some? then cluster.labels.value else map[]) + tags))
  }

  /** Tags override labels of the same key and leave the others; without tags nothing changes, not even an absent
      table. */
  lemma TagsApplied(c: Cluster, tags: map<string, string>, key: string)
    ensures Tagged(c, tags).(labels := c.labels) == c
    ensures tags == map[] ==> Tagged(c, tags) == c
    ensures key in tags ==>
      Tagged(c, tags).labels.Some? && key in Tagged(c, tags).labels.value
      && Tagged(c, tags).labels.value[key] == tags[key]
    ensures key !in tags && c.labels.Some? ==>
      Tagged(c, tags).labels.Some? && (key in Tagged(c, tags).labels.value <==> key in c.labels.value)
      && (key in c.labels.value ==> Tagged(c, tags).labels.value[key] == c.labels.value[key])
  {
  }

  /** The policy that a rules file stands for. */
  function PolicyOf(rules: Option<RuleConfiguration>): Policy {
    Policy((c: Cluster) => PreResult(rules, c).suppressed,
           (c: Cluster, a: Option<Analysis>) =>
             Map((ch: Option<string>) => Note(Tagged(c, PostResult(rules, c, a).tags), a, ch), Plan(rules, c, a)))
  }

  datatype Triage = NoTriage | Rejects | Low | NotLow

  datatype LlmAnswer = Throws | Answers(analysis: Option<Analysis>, degradedReason: bool)

  /** The diagnosis that goes out, and whether the outcome counts as degraded. */
  function Diagnosis(triage: Triage, llm: LlmAnswer): (Option<Analysis>, bool) {
    if triage.Low? then (None, true)
    else match llm
      case Throws => (None, true)
      case Answers(analysis, degraded) => (analysis, degraded)
  }

  // ---------------------------------------------------------------- states

  datatype Outcome = Suppressed | Success | Degraded | Error

  /** What the outside world has seen, in order, with the mishaps that bear on the guarantees.
      `Left`: a run went away without giving its claim back. `Expired`: a claim nobody was working on ran out, which
      opens the next window. `Unguarded`: a claim was granted without the store, or ran out under a run still at work.
      `Resurfaced`: a message became visible again while a worker still had it. */
  datatype Entry =
    | Sent(fp: string, note: Note)
    | Ended(cluster: Cluster, outcome: Outcome, analysis: Option<Analysis>)
    | Left(fp: string)
    | Expired(fp: string)
    | Unguarded(fp: string)
    | Resurfaced(message: nat)

  datatype Phase =
    | Claiming
    | Deciding
    | Analysing
    | Sending(analysis: Option<Analysis>, degraded: bool, sent: nat)
    | Releasing

  /** One call of the batch handler: the clusters of its messages in order, and how far it has come. */
  datatype Invocation = Invocation(batch: seq<nat>, work: seq<Cluster>, pos: nat, phase: Phase)

  datatype State = State(
    waiting: set<nat>,
    settled: set<nat>,
    active: map<nat, Invocation>,
    claims: set<string>,
    log: seq<Entry>
  )

  /** `queue` gives the clusters of each message, none for a malformed one. */
  datatype World = World(policy: Policy, queue: map<nat, seq<Cluster>>)

  function Flatten(queue: map<nat, seq<Cluster>>, batch: seq<nat>): seq<Cluster> {
    if batch == [] then []
    else Flatten(queue, batch[..|batch| - 1]) + (var m := batch[|batch| - 1]; if m in queue then queue[m] else [])
  }

  function Initial(w: World): State {
    State(w.queue.Keys, {}, map[], {}, [])
  }

  // ---------------------------------------------------------------- steps

  datatype Event =
    | Receive(i: nat, batch: seq<nat>)
    | Claim(i: nat, storeUp: bool)
    | Decide(i: nat)
    | Analyse(i: nat, triage: Triage, llm: LlmAnswer)
    | Send(i: nat, ok: bool)
    | Release(i: nat, ok: bool)
    | Return(i: nat, deleted: set<nat>)
    | Crash(i: nat)
    | Expire(fp: string)
    | Resurface(message: nat)

  function Members(batch: seq<nat>): set<nat> { set m | m in batch }

  /** The invocation stays at its cluster. */
  function At(s: State, i: nat, phase: Phase): State
    requires i in s.active
  {
    s.(active := s.active[i := s.active[i].(phase := phase)])
  }

  /** The invocation turns to its next cluster. */
  function Past(s: State, i: nat): State
    requires i in s.active
  {
    s.(active := s.active[i := s.active[i].(pos := s.active[i].pos + 1, phase := Claiming)])
  }

  /** The invocation ends in an exception: its messages become visible again unless they have been deleted. */
  function Thrown(s: State, i: nat): State
    requires i in s.active
  {
    s.(active := s.active - {i}, waiting := s.waiting + (Members(s.active[i].batch) - s.settled))
  }

  function Logged(s: State, e: Entry): State {
    s.(log := s.log + [e])
  }

  /** Invocation `i` is between claim and outcome for the fingerprint. */
  predicate Owns(s: State, i: nat, fp: string) {
    i in s.active && var v := s.active[i];
    v.pos < |v.work| && !v.phase.Claiming? && v.work[v.pos].fingerprint == fp
  }

  predicate Owned(s: State, fp: string) {
    exists i :: i in s.active && Owns(s, i, fp)
  }

  function ClusterStep(w: World, s: State, i: nat, c: Cluster, e: Event): State
    requires i in s.active
  {
    var fp := c.fingerprint;
    match (e, s.active[i].phase)
    case (Claim(_, up), Claiming) =>
      if !up then Logged(At(s, i, Deciding), Unguarded(fp))
      else if fp in s.claims then Past(s, i)
      else At(s, i, Deciding).(claims := s.claims + {fp})
    case (Decide(_), Deciding) =>
      if w.policy.suppresses(c) then Logged(Past(s, i), Ended(c, Suppressed, None)) else At(s, i, Analysing)
    case (Analyse(_, triage, llm), Analysing) =>
      if triage.Rejects? then Logged(Thrown(s, i), Left(fp))
      else var (a, d) := Diagnosis(triage, llm); At(s, i, Sending(a, d, 0))
    case (Send(_, ok), Sending(a, d, n)) =>
      var notes := w.policy.plan(c, a);
      if n >= |notes| then s
      else if !ok then At(s, i, Releasing)
      else if n + 1 < |notes| then Logged(At(s, i, Sending(a, d, n + 1)), Sent(fp, notes[n]))
      else Logged(Logged(Past(s, i), Sent(fp, notes[n])), Ended(c, if d then Degraded else Outcome.Success, a))
    case (Release(_, ok), Releasing) =>
      if ok then Logged(Thrown(s, i), Ended(c, Outcome.Error, None)).(claims := s.claims - {fp})
      else Logged(Logged(Thrown(s, i), Ended(c, Outcome.Error, None)), Left(fp))
    case (Crash(_), p) => if p.Claiming? then Thrown(s, i) else Logged(Thrown(s, i), Left(fp))
    case _ => s
  }

  /** All clusters are done: those messages of the batch that are deleted are gone, the others come back. */
  function EndStep(s: State, i: nat, e: Event): State
    requires i in s.active
  {
    match e
    case Return(_, deleted) =>
      var batch := Members(s.active[i].batch);
      var settled := s.settled + batch * deleted;
      s.(active := s.active - {i}, waiting := s.waiting - batch * deleted + (batch - settled), settled := settled)
    case Crash(_) => Thrown(s, i)
    case _ => s
  }

  /** One step of the whole system; an event that is not possible in the state changes nothing. */
  function Step(w: World, s: State, e: Event): State {
    match e
    case Receive(i, batch) =>
      if i in s.active || !(Members(batch) <= s.waiting) then s
      else s.(waiting := s.waiting - Members(batch),
              active := s.active[i := Invocation(batch, Flatten(w.queue, batch), 0, Claiming)])
    case Expire(fp) =>
      if fp !in s.claims then s
      else Logged(s.(claims := s.claims - {fp}), if Owned(s, fp) then Unguarded(fp) else Expired(fp))
    case Resurface(m) =>
      if m !in w.queue || m in s.waiting || m in s.settled then s
      else Logged(s.(waiting := s.waiting + {m}), Resurfaced(m))
    case _ =>
      if e.i !in s.active then s
      else
        var v := s.active[e.i];
        if v.pos < |v.work| then ClusterStep(w, s, e.i, v.work[v.pos], e) else EndStep(s, e.i, e)
  }

  function Run(w: World, s: State, trace: seq<Event>): State {
    if trace == [] then s else Step(w, Run(w, s, trace[..|trace| - 1]), trace[|trace| - 1])
  }

  lemma {:induction false} RunAppend(w: World, s: State, t: seq<Event>, u: seq<Event>)
    ensures Run(w, s, t + u) == Run(w, Run(w, s, t), u)
  {
    if u == [] {
      assert t + u == t;
    } else {
      assert (t + u)[..|t + u| - 1] == t + u[..|u| - 1];
      RunAppend(w, s, t, u[..|u| - 1]);
    }
  }

  /** `t` leads from `s` to `s'`. */
  ghost predicate Leads(w: World, s: State, t: seq<Event>, s': State) {
    Run(w, s, t) == s'
  }

  lemma LeadsNowhere(w: World, s: State)
    ensures Leads(w, s, [], s)
  {
  }

  lemma LeadsStep(w: World, s: State, t: seq<Event>, s': State, e: Event)
    requires Leads(w, s, t, s')
    ensures Leads(w, s, t + [e], Step(w, s', e))
  {
    assert (t + [e])[..|t|] == t;
  }

  lemma LeadsOne(w: World, s: State, e: Event)
    ensures Leads(w, s, [e], Step(w, s, e))
  {
    LeadsStep(w, s, [], s, e);
    assert [] + [e] == [e];
  }

  lemma LeadsOn(w: World, s: State, t: seq<Event>, s': State, u: seq<Event>, s'': State)
    requires Leads(w, s, t, s') && Leads(w, s', u, s'')
    ensures Leads(w, s, t + u, s'')
  {
    RunAppend(w, s, t, u);
  }

  // ---------------------------------------------------------------- reading the log

  /** How far one fingerprint has come, read off the log alone: `Open` with what was sent since the last failure,
      `Done` after one complete notification or one suppression, `Lost` when a claim was left behind, `Open` again when
      such a claim has expired, and `Broken` when the log shows anything else, such as a send after completion within
      the same window or an incomplete completion. */
  datatype Progress = Open(sent: seq<Note>) | Done | Lost | Broken

  function Advance(p: Policy, x: Progress, e: Entry, fp: string): Progress {
    match e
    case Sent(f, note) => if f != fp then x else if x.Open? then Open(x.sent + [note]) else Broken
    case Ended(c, o, a) =>
      if c.fingerprint != fp then x
      else if !x.Open? then Broken
      else if o.Error? then Open([])
      else if x.sent == (if o.Suppressed? then [] else p.plan(c, a)) then Done else Broken
    case Left(f) => if f != fp then x else if x.Open? then Lost else Broken
    case Expired(f) => if f != fp then x else if x.Done? || x.Lost? then Open([]) else Broken
    case _ => x
  }

  function Scan(p: Policy, log: seq<Entry>, fp: string): Progress {
    if log == [] then Open([]) else Advance(p, Scan(p, log[..|log| - 1], fp), log[|log| - 1], fp)
  }

  lemma ScanLogged(p: Policy, log: seq<Entry>, e: Entry, fp: string)
    ensures Scan(p, log + [e], fp) == Advance(p, Scan(p, log, fp), e, fp)
  {
    assert (log + [e])[..|log|] == log;
  }

  /** No claim of the fingerprint was granted without the store and none expired under a run still at work. */
  predicate Guarded(log: seq<Entry>, fp: string) { Unguarded(fp) !in log }

  // ---------------------------------------------------------------- claims

  /** What the log must show while `v` owns its cluster. */
  ghost predicate InStep(p: Policy, v: Invocation, x: Progress)
    requires v.pos < |v.work|
  {
    match v.phase
    case Sending(a, _, n) =>
      var notes := p.plan(v.work[v.pos], a);
      n < |notes| && x == Open(notes[..n])
    case Releasing => x.Open?
    case _ => x == Open([])
  }

  /** A claim is held exactly by a fingerprint that is finished, lost, or owned, and by one owner only. */
  ghost predicate ClaimInv(w: World, s: State, fp: string) {
    var x := Scan(w.policy, s.log, fp);
    && (forall i, j :: Owns(s, i, fp) && Owns(s, j, fp) ==> i == j)
    && (forall i :: Owns(s, i, fp) ==> fp in s.claims && InStep(w.policy, s.active[i], x))
    && (x.Open? && fp !in s.claims ==> x == Open([]))
    && (x.Open? && fp in s.claims ==> exists i :: Owns(s, i, fp))
    && (!x.Open? ==> x != Broken && fp in s.claims)
  }

  /** What a fingerprint's claim depends on: its owners, its claim, and its part of the log. */
  lemma ClaimInvFrame(w: World, s: State, s': State, fp: string)
    requires ClaimInv(w, s, fp)
    requires forall i :: Owns(s', i, fp) ==> Owns(s, i, fp)
    requires forall i :: Owns(s, i, fp) ==> Owns(s', i, fp) && s'.active[i] == s.active[i]
    requires fp in s'.claims <==> fp in s.claims
    requires Scan(w.policy, s'.log, fp) == Scan(w.policy, s.log, fp)
    ensures ClaimInv(w, s', fp)
  {
    if i :| Owns(s, i, fp) {
      assert Owns(s', i, fp);
    }
  }

  /** The cluster invocation `i` is working on. */
  function Current(s: State, i: nat): Cluster
    requires i in s.active && s.active[i].pos < |s.active[i].work|
  {
    s.active[i].work[s.active[i].pos]
  }

  predicate Working(s: State, i: nat) {
    i in s.active && s.active[i].pos < |s.active[i].work|
  }

  lemma OwnersElsewhere(w: World, s: State, i: nat, e: Event, j: nat, fp: string)
    requires Working(s, i) && (j != i || Current(s, i).fingerprint != fp)
    ensures var s' := ClusterStep(w, s, i, Current(s, i), e);
            (Owns(s', j, fp) <==> Owns(s, j, fp)) && (Owns(s, j, fp) ==> s'.active[j] == s.active[j])
  {}

  /** The entry says nothing about the fingerprint's progress. */
  predicate Foreign(e: Entry, fp: string) {
    match e
    case Sent(f, _) => f != fp
    case Ended(c, _, _) => c.fingerprint != fp
    case Left(f) => f != fp
    case Expired(f) => f != fp
    case _ => true
  }

  lemma ForeignEntries(w: World, s: State, i: nat, e: Event, fp: string)
    requires Working(s, i) && Current(s, i).fingerprint != fp
    ensures
      var s' := ClusterStep(w, s, i, Current(s, i), e);
      && s.log <= s'.log && (fp in s'.claims <==> fp in s.claims)
      && forall j :: |s.log| <= j < |s'.log| ==> Foreign(s'.log[j], fp)
  {
  }

  lemma {:induction false} ScanForeign(p: Policy, log: seq<Entry>, longer: seq<Entry>, fp: string)
    requires log <= longer && forall j :: |log| <= j < |longer| ==> Foreign(longer[j], fp)
    ensures Scan(p, longer, fp) == Scan(p, log, fp)
  {
    if |log| < |longer| {
      ScanForeign(p, log, longer[..|longer| - 1], fp);
    } else {
      assert longer == log;
    }
  }

  lemma OtherFingerprint(w: World, s: State, i: nat, e: Event, fp: string)
    requires Working(s, i) && ClaimInv(w, s, fp) && Current(s, i).fingerprint != fp
    ensures ClaimInv(w, ClusterStep(w, s, i, Current(s, i), e), fp)
  {
    var s' := ClusterStep(w, s, i, Current(s, i), e);
    ForeignEntries(w, s, i, e, fp);
    hide ClusterStep, Scan, Foreign;
    ScanForeign(w.policy, s.log, s'.log, fp);
    forall j { OwnersElsewhere(w, s, i, e, j, fp); }
    ClaimInvFrame(w, s, s', fp);
  }

  lemma ClaimStep(w: World, s: State, i: nat, e: Event, fp: string)
    requires Working(s, i) && ClaimInv(w, s, fp) && Current(s, i).fingerprint == fp
    requires s.active[i].phase.Claiming?
    requires Guarded(ClusterStep(w, s, i, Current(s, i), e).log, fp)
    ensures ClaimInv(w, ClusterStep(w, s, i, Current(s, i), e), fp)
  {
    var s' := ClusterStep(w, s, i, Current(s, i), e);
    assert e.Claim? && !e.storeUp ==> Unguarded(fp) in s'.log;
    forall j | j != i { OwnersElsewhere(w, s, i, e, j, fp); }
    if e.Claim? && e.storeUp && fp !in s.claims {
      assert Owns(s', i, fp);
    } else {
      ClaimInvFrame(w, s, s', fp);
    }
  }

  /** The owner is suppressed, or goes on to the analysis, or to the sends. */
  lemma DecideStep(w: World, s: State, i: nat, e: Event, fp: string)
    requires Working(s, i) && ClaimInv(w, s, fp) && Owns(s, i, fp)
    requires e.Decide? || (e.Analyse? && !e.triage.Rejects?)
    ensures ClaimInv(w, ClusterStep(w, s, i, Current(s, i), e), fp)
  {
    hide Scan;
    var s' := ClusterStep(w, s, i, Current(s, i), e);
    forall j | j != i { OwnersElsewhere(w, s, i, e, j, fp); }
    ScanLogged(w.policy, s.log, Ended(Current(s, i), Suppressed, None), fp);
    assert !(s.active[i].phase.Deciding? && e.Decide? && w.policy.suppresses(Current(s, i))) ==> Owns(s', i, fp);
  }

  lemma SendMiddle(w: World, s: State, i: nat, e: Event, fp: string)
    requires Working(s, i) && ClaimInv(w, s, fp) && Owns(s, i, fp)
    requires e.Send? && s.active[i].phase.Sending?
    requires !e.ok || s.active[i].phase.sent + 1 < |w.policy.plan(Current(s, i), s.active[i].phase.analysis)|
    ensures ClaimInv(w, ClusterStep(w, s, i, Current(s, i), e), fp)
  {
    hide Scan;
    var s' := ClusterStep(w, s, i, Current(s, i), e);
    var notes, n := w.policy.plan(Current(s, i), s.active[i].phase.analysis), s.active[i].phase.sent;
    forall j | j != i { OwnersElsewhere(w, s, i, e, j, fp); }
    assert notes[..n] + [notes[n]] == notes[..n + 1];
    ScanLogged(w.policy, s.log, Sent(fp, notes[n]), fp);
    assert Owns(s', i, fp);
  }

  lemma SendLast(w: World, s: State, i: nat, e: Event, fp: string)
    requires Working(s, i) && ClaimInv(w, s, fp) && Owns(s, i, fp)
    requires e.Send? && e.ok && s.active[i].phase.Sending?
    requires s.active[i].phase.sent + 1 == |w.policy.plan(Current(s, i), s.active[i].phase.analysis)|
    ensures ClaimInv(w, ClusterStep(w, s, i, Current(s, i), e), fp)
  {
    hide Scan;
    var c, a, n := Current(s, i), s.active[i].phase.analysis, s.active[i].phase.sent;
    var notes := w.policy.plan(c, a);
    var ended := Ended(c, if s.active[i].phase.degraded then Degraded else Outcome.Success, a);
    forall j | j != i { OwnersElsewhere(w, s, i, e, j, fp); }
    ScanLogged(w.policy, s.log, Sent(fp, notes[n]), fp);
    ScanLogged(w.policy, s.log + [Sent(fp, notes[n])], ended, fp);
    assert notes[..n] + [notes[n]] == notes;
    assert Scan(w.policy, s.log + [Sent(fp, notes[n])] + [ended], fp) == Done;
  }

  /** The owner goes away: it gives the claim back, or leaves it behind. */
  lemma OwnerGoes(w: World, s: State, i: nat, e: Event, fp: string)
    requires Working(s, i) && ClaimInv(w, s, fp) && Owns(s, i, fp)
    requires || (e.Analyse? && e.triage.Rejects? && s.active[i].phase.Analysing?)
             || (e.Release? && s.active[i].phase.Releasing?)
             || e.Crash?
    ensures ClaimInv(w, ClusterStep(w, s, i, Current(s, i), e), fp)
  {
    hide Scan;
    var s' := ClusterStep(w, s, i, Current(s, i), e);
    var ended := Ended(Current(s, i), Outcome.Error, None);
    forall j | j != i { OwnersElsewhere(w, s, i, e, j, fp); }
    ScanLogged(w.policy, s.log, Left(fp), fp);
    ScanLogged(w.policy, s.log, ended, fp);
    ScanLogged(w.policy, s.log + [ended], Left(fp), fp);
  }

  lemma ClaimInvClusterStep(w: World, s: State, i: nat, e: Event, fp: string)
    requires Working(s, i) && ClaimInv(w, s, fp)
    requires Guarded(ClusterStep(w, s, i, Current(s, i), e).log, fp)
    ensures ClaimInv(w, ClusterStep(w, s, i, Current(s, i), e), fp)
  {
    var phase := s.active[i].phase;
    if Current(s, i).fingerprint != fp {
      OtherFingerprint(w, s, i, e, fp);
    } else if phase.Claiming? {
      ClaimStep(w, s, i, e, fp);
    } else if e.Decide? || (e.Analyse? && !e.triage.Rejects?) {
      DecideStep(w, s, i, e, fp);
    } else if e.Send? && phase.Sending? {
      if e.ok && phase.sent + 1 == |w.policy.plan(Current(s, i), phase.analysis)| {
        SendLast(w, s, i, e, fp);
      } else {
        SendMiddle(w, s, i, e, fp);
      }
    } else if (e.Analyse? && phase.Analysing?) || (e.Release? && phase.Releasing?) || e.Crash? {
      OwnerGoes(w, s, i, e, fp);
    }
  }

  /** A claim expires: nobody is at work for it, so its window is over. */
  lemma ExpireStep(w: World, s: State, expired: string, fp: string)
    requires ClaimInv(w, s, fp) && Guarded(Step(w, s, Expire(expired)).log, fp)
    ensures ClaimInv(w, Step(w, s, Expire(expired)), fp)
  {
    hide Scan;
    var s' := Step(w, s, Expire(expired));
    ScanLogged(w.policy, s.log, Unguarded(expired), fp);
    ScanLogged(w.policy, s.log, Expired(expired), fp);
    assert expired == fp && fp in s.claims && Owned(s, fp) ==> Unguarded(fp) in s'.log;
    if expired != fp || fp !in s.claims {
      ClaimInvFrame(w, s, s', fp);
    }
  }

  lemma ClaimInvStep(w: World, s: State, e: Event, fp: string)
    requires ClaimInv(w, s, fp) && Guarded(Step(w, s, e).log, fp)
    ensures ClaimInv(w, Step(w, s, e), fp)
  {
    hide Scan, ClusterStep;
    var s' := Step(w, s, e);
    if e.Receive? {
      ClaimInvFrame(w, s, s', fp);
    } else if e.Resurface? {
      ScanLogged(w.policy, s.log, Resurfaced(e.message), fp);
      ClaimInvFrame(w, s, s', fp);
    } else if e.Expire? {
      ExpireStep(w, s, e.fp, fp);
    } else if Working(s, e.i) {
      ClaimInvClusterStep(w, s, e.i, e, fp);
    } else if e.i in s.active {
      ClaimInvFrame(w, s, s', fp);
    }
  }

  /** The log only grows. */
  lemma LogGrows(w: World, s: State, e: Event)
    ensures s.log <= Step(w, s, e).log
  {}

  /** In every interleaving, as long as the store guards the fingerprint, its claim means what it should. */
  lemma {:induction false} ClaimInvRun(w: World, trace: seq<Event>, fp: string)
    requires Guarded(Run(w, Initial(w), trace).log, fp)
    ensures ClaimInv(w, Run(w, Initial(w), trace), fp)
  {
    if trace != [] {
      var n := |trace| - 1;
      var s := Run(w, Initial(w), trace[..n]);
      LogGrows(w, s, trace[n]);
      ClaimInvRun(w, trace[..n], fp);
      ClaimInvStep(w, s, trace[n], fp);
    }
  }

  /** At every moment of every interleaving a guarded fingerprint has at most one owner, and its claim is held exactly
      when the current window is finished, lost to a run that left it behind, or being worked on. */
  lemma ClaimMeaning(w: World, trace: seq<Event>, fp: string, i: nat, j: nat)
    requires Guarded(Run(w, Initial(w), trace).log, fp)
    ensures
      var s := Run(w, Initial(w), trace);
      var x := Scan(w.policy, s.log, fp);
      && x != Broken
      && (Owns(s, i, fp) && Owns(s, j, fp) ==> i == j)
      && (fp in s.claims <==> x == Done || x == Lost || exists o :: Owns(s, o, fp))
      && (Owns(s, i, fp) ==> x.Open?)
      && (x.Open? && fp !in s.claims ==> x.sent == [])
  {
    ClaimInvRun(w, trace, fp);
  }

  // ---------------------------------------------------------------- nothing gets lost

  predicate Contains(cs: seq<Cluster>, fp: string) {
    exists k :: 0 <= k < |cs| && cs[k].fingerprint == fp
  }

  /** The cluster asks for a notification of the fingerprint. */
  predicate CallsFor(w: World, c: Cluster, fp: string) { c.fingerprint == fp && !w.policy.suppresses(c) }

  /** The message holds a cluster of the fingerprint that is to be notified. */
  ghost predicate Risky(w: World, m: nat, fp: string) {
    m in w.queue && exists k :: 0 <= k < |w.queue[m]| && CallsFor(w, w.queue[m][k], fp)
  }

  /** The invocation has yet to reach the fingerprint. */
  predicate Ahead(s: State, i: nat, fp: string) {
    i in s.active && s.active[i].pos <= |s.active[i].work| && Contains(s.active[i].work[s.active[i].pos..], fp)
  }

  /** A message that calls for a notification is visible, or with an invocation that has yet to reach the
      fingerprint. */
  ghost predicate Pending(w: World, s: State, fp: string) {
    || (exists m :: m in s.waiting && Risky(w, m, fp))
    || exists i, m :: Ahead(s, i, fp) && m in s.active[i].batch && Risky(w, m, fp)
  }

  ghost predicate InWork(s: State, m: nat) {
    exists i :: i in s.active && m in s.active[i].batch
  }

  /** Nobody has got past the fingerprint so far: each of its messages is visible, or with invocations before it. */
  ghost predicate Untouched(w: World, s: State, fp: string) {
    forall m :: m in w.queue && Contains(w.queue[m], fp) ==> UntouchedBy(s, m, fp)
  }

  ghost predicate UntouchedBy(s: State, m: nat, fp: string) {
    && m !in s.settled && (m in s.waiting || InWork(s, m))
    && forall i :: i in s.active && m in s.active[i].batch ==> Ahead(s, i, fp)
  }

  /** A message is in one place: visible, deleted, or with one invocation. */
  ghost predicate Located(s: State, m: nat) {
    && (m in s.waiting ==> m !in s.settled)
    && (forall i :: i in s.active && m in s.active[i].batch ==> m !in s.waiting && m !in s.settled)
    && (forall i, j :: i in s.active && j in s.active && m in s.active[i].batch && m in s.active[j].batch ==> i == j)
  }

  ghost predicate Sound(w: World, v: Invocation) {
    v.work == Flatten(w.queue, v.batch) && v.pos <= |v.work| && Members(v.batch) <= w.queue.Keys
  }

  ghost predicate WorkInv(w: World, s: State) {
    s.waiting <= w.queue.Keys && forall i :: i in s.active ==> Sound(w, s.active[i])
  }

  lemma {:induction false} FlattenContains(queue: map<nat, seq<Cluster>>, batch: seq<nat>, m: nat, fp: string)
    requires m in batch && m in queue && Contains(queue[m], fp)
    ensures Contains(Flatten(queue, batch), fp)
  {
    var n := |batch| - 1;
    var front := Flatten(queue, batch[..n]);
    if batch[n] == m {
      var k :| 0 <= k < |queue[m]| && queue[m][k].fingerprint == fp;
      assert Flatten(queue, batch)[|front| + k].fingerprint == fp;
    } else {
      FlattenContains(queue, batch[..n], m, fp);
      var k :| 0 <= k < |front| && front[k].fingerprint == fp;
      assert Flatten(queue, batch)[k].fingerprint == fp;
    }
  }

  /** How one step of an invocation can change where messages and clusters are: it advances, or it throws. */
  ghost predicate Moved(s: State, s': State, i: nat)
    requires i in s.active
  {
    var v := s.active[i];
    || (s'.active == Thrown(s, i).active && s'.waiting == Thrown(s, i).waiting)
    || (i in s'.active && s'.waiting == s.waiting && s'.active == s.active[i := s'.active[i]]
        && s'.active[i].work == v.work && s'.active[i].batch == v.batch && v.pos <= s'.active[i].pos <= v.pos + 1)
  }

  lemma ClusterStepMoved(w: World, s: State, i: nat, e: Event)
    requires Working(s, i)
    ensures var s' := ClusterStep(w, s, i, Current(s, i), e);
            Moved(s, s', i) && s'.settled == s.settled
            && (s'.claims == s.claims || s'.claims == s.claims + {Current(s, i).fingerprint} || i !in s'.active)
            && (forall fp :: fp in s.claims && fp != Current(s, i).fingerprint ==> fp in s'.claims)
            && (i in s'.active && s'.active[i].pos > s.active[i].pos
                ==> s'.claims == s.claims && (Current(s, i).fingerprint in s.claims || !s.active[i].phase.Claiming?))
  {}

  lemma WorkInvMoved(w: World, s: State, s': State, i: nat)
    requires WorkInv(w, s) && i in s.active && Moved(s, s', i)
    requires i in s'.active ==> s'.active[i].pos <= |s.active[i].work|
    ensures WorkInv(w, s')
  {
    assert Sound(w, s.active[i]);
    forall j | j in s'.active ensures Sound(w, s'.active[j]) {
      assert Sound(w, s.active[j]);
    }
  }

  lemma WorkInvEnd(w: World, s: State, i: nat, e: Event)
    requires WorkInv(w, s) && i in s.active
    ensures WorkInv(w, EndStep(s, i, e))
  {
    assert Sound(w, s.active[i]);
    forall j | j in EndStep(s, i, e).active ensures Sound(w, EndStep(s, i, e).active[j]) {
      assert Sound(w, s.active[j]);
    }
  }

  lemma WorkInvStep(w: World, s: State, e: Event)
    requires WorkInv(w, s)
    ensures WorkInv(w, Step(w, s, e))
  {
    hide ClusterStep;
    if !e.Receive? && !e.Expire? && !e.Resurface? {
      if Working(s, e.i) {
        ClusterStepMoved(w, s, e.i, e);
        WorkInvMoved(w, s, Step(w, s, e), e.i);
      } else if e.i in s.active {
        WorkInvEnd(w, s, e.i, e);
      }
    }
  }

  lemma LocatedMoved(s: State, s': State, i: nat, m: nat)
    requires i in s.active && Located(s, m) && Moved(s, s', i) && s'.settled == s.settled
    ensures Located(s', m)
  {
    assert m in s.active[i].batch <==> m in Members(s.active[i].batch);
  }

  lemma LocatedStep(w: World, s: State, e: Event, m: nat)
    requires Located(s, m) && Resurfaced(m) !in Step(w, s, e).log
    ensures Located(Step(w, s, e), m)
  {
    hide ClusterStep;
    if e.Receive? {
      assert m in e.batch <==> m in Members(e.batch);
    } else if e.Resurface? {
      assert e.message == m && m in w.queue && m !in s.waiting && m !in s.settled ==>
        Resurfaced(m) in Step(w, s, e).log;
    } else if e.Expire? {
    } else if Working(s, e.i) {
      ClusterStepMoved(w, s, e.i, e);
      LocatedMoved(s, Step(w, s, e), e.i, m);
    } else if e.i in s.active {
      assert m in s.active[e.i].batch <==> m in Members(s.active[e.i].batch);
    }
  }

  /** Whoever analyses or sends does so for a cluster that is not suppressed. */
  ghost predicate Unsuppressed(w: World, s: State) {
    forall i :: Working(s, i) && Deep(s.active[i].phase) ==> !w.policy.suppresses(Current(s, i))
  }

  predicate Deep(p: Phase) { p.Analysing? || p.Sending? || p.Releasing? }

  lemma UnsuppressedStep(w: World, s: State, e: Event)
    requires Unsuppressed(w, s)
    ensures Unsuppressed(w, Step(w, s, e))
  {
  }

  lemma {:induction false} UnsuppressedRun(w: World, trace: seq<Event>)
    ensures Unsuppressed(w, Run(w, Initial(w), trace))
  {
    if trace != [] {
      UnsuppressedRun(w, trace[..|trace| - 1]);
      UnsuppressedStep(w, Run(w, Initial(w), trace[..|trace| - 1]), trace[|trace| - 1]);
    }
  }

  /** The store guards the fingerprint, and no message that calls for its notification became visible while in work. */
  ghost predicate Undisturbed(w: World, log: seq<Entry>, fp: string) {
    Guarded(log, fp) && forall m :: Risky(w, m, fp) ==> Resurfaced(m) !in log
  }

  /** Deliveries and suppressions recorded for the fingerprint. */
  function Completions(log: seq<Entry>, fp: string): nat {
    if log == [] then 0
    else
      var e := log[|log| - 1];
      Completions(log[..|log| - 1], fp) + if e.Ended? && e.cluster.fingerprint == fp && !e.outcome.Error? then 1 else 0
  }

  /** How often a claim was left behind, and how often one expired that nobody was working on. */
  function Losses(log: seq<Entry>, fp: string): nat {
    if log == [] then 0 else Losses(log[..|log| - 1], fp) + if log[|log| - 1] == Left(fp) then 1 else 0
  }

  function Expiries(log: seq<Entry>, fp: string): nat {
    if log == [] then 0 else Expiries(log[..|log| - 1], fp) + if log[|log| - 1] == Expired(fp) then 1 else 0
  }

  /** Every completion and every loss takes a claim, and every claim so taken stays until it expires. */
  lemma {:induction false} ScanCounts(p: Policy, log: seq<Entry>, fp: string)
    ensures Scan(p, log, fp) != Broken ==>
              Completions(log, fp) + Losses(log, fp) == Expiries(log, fp) + if Scan(p, log, fp).Open? then 0 else 1
  {
    if log != [] { ScanCounts(p, log[..|log| - 1], fp); }
  }

  ghost predicate Handled(log: seq<Entry>, fp: string) {
    Completions(log, fp) + Losses(log, fp) > 0
  }

  lemma {:induction false} HandledGrows(log: seq<Entry>, longer: seq<Entry>, fp: string)
    requires log <= longer && Handled(log, fp)
    ensures Handled(longer, fp)
  {
    if |log| < |longer| {
      HandledGrows(log, longer[..|longer| - 1], fp);
    } else {
      assert longer == log;
    }
  }

  /** The latest attempt on the fingerprint that came to an end failed and gave its claim back. */
  predicate Owed(log: seq<Entry>, fp: string) {
    log != [] && OwedAfter(Owed(log[..|log| - 1], fp), log[|log| - 1], fp)
  }

  predicate OwedAfter(owed: bool, e: Entry, fp: string) {
    match e
    case Ended(c, o, _) => if c.fingerprint == fp then o.Error? else owed
    case Left(f) => f != fp && owed
    case _ => owed
  }

  lemma OwedLogged(log: seq<Entry>, e: Entry, fp: string)
    ensures Owed(log + [e], fp) == OwedAfter(Owed(log, fp), e, fp)
  {
    assert (log + [e])[..|log|] == log;
  }

  lemma {:induction false} OwedForeign(log: seq<Entry>, longer: seq<Entry>, fp: string)
    requires log <= longer && forall j :: |log| <= j < |longer| ==> Foreign(longer[j], fp)
    ensures Owed(longer, fp) == Owed(log, fp)
  {
    if |log| < |longer| {
      OwedForeign(log, longer[..|longer| - 1], fp);
    } else {
      assert longer == log;
    }
  }

  /** A window that is finished owes nothing. */
  lemma {:induction false} ScanOwed(p: Policy, log: seq<Entry>, fp: string)
    ensures Scan(p, log, fp) == Done || Scan(p, log, fp) == Lost ==> !Owed(log, fp)
  {
    if log != [] { ScanOwed(p, log[..|log| - 1], fp); }
  }

  /** The fingerprint is claimed, or work that will claim it is outstanding, or no attempt is owed and it has been dealt
      with or not been reached at all. */
  ghost predicate Accounted(w: World, s: State, fp: string) {
    fp in s.claims || Pending(w, s, fp) || Settled(w, s, fp)
  }

  ghost predicate Settled(w: World, s: State, fp: string) {
    !Owed(s.log, fp) && (Untouched(w, s, fp) || Handled(s.log, fp))
  }

  lemma SettledStays(w: World, s: State, s': State, fp: string)
    requires Settled(w, s, fp) && (Untouched(w, s, fp) ==> Untouched(w, s', fp))
    requires s.log <= s'.log && forall j :: |s.log| <= j < |s'.log| ==> Foreign(s'.log[j], fp)
    ensures Settled(w, s', fp)
  {
    OwedForeign(s.log, s'.log, fp);
    if Handled(s.log, fp) { HandledGrows(s.log, s'.log, fp); }
  }

  ghost predicate CaresLocated(w: World, s: State, fp: string) {
    forall m :: Risky(w, m, fp) ==> Located(s, m)
  }

  lemma AheadRest(s: State, s': State, i: nat, fp: string)
    requires Ahead(s, i, fp) && i in s'.active && s'.active[i].work == s.active[i].work
    requires s.active[i].pos <= s'.active[i].pos <= s.active[i].pos + 1 <= |s.active[i].work| + 1
    requires s'.active[i].pos > s.active[i].pos ==> Working(s, i) && Current(s, i).fingerprint != fp
    ensures Ahead(s', i, fp)
  {
    var v := s.active[i];
    if s'.active[i].pos > v.pos {
      var k :| 0 <= k < |v.work[v.pos..]| && v.work[v.pos..][k].fingerprint == fp;
      assert v.work[v.pos + 1..][k - 1] == v.work[v.pos..][k];
    }
  }

  // One step while the fingerprint is neither claimed nor dealt with: `Pending` and `Untouched` both stay.

  /** Invocation `i` throws, or advances without reaching the fingerprint. */
  ghost predicate Passing(s: State, s': State, i: nat, fp: string) {
    && i in s.active && Moved(s, s', i) && s'.settled == s.settled
    && (i in s'.active && s'.active[i].pos > s.active[i].pos ==> Working(s, i) && Current(s, i).fingerprint != fp)
  }

  lemma PendingPassing(w: World, s: State, s': State, i: nat, fp: string)
    requires CaresLocated(w, s, fp) && Pending(w, s, fp) && Passing(s, s', i, fp)
    ensures Pending(w, s', fp)
  {
    if m :| m in s.waiting && Risky(w, m, fp) {
      assert m in s'.waiting;
    } else {
      var j, m :| Ahead(s, j, fp) && m in s.active[j].batch && Risky(w, m, fp);
      assert Located(s, m);
      if j != i {
        assert Ahead(s', j, fp);
      } else if i in s'.active {
        AheadRest(s, s', i, fp);
      } else {
        assert m in Members(s.active[i].batch);
        assert m in s'.waiting;
      }
    }
  }

  lemma UntouchedPassing(w: World, s: State, s': State, i: nat, fp: string)
    requires Untouched(w, s, fp) && Passing(s, s', i, fp)
    ensures Untouched(w, s', fp)
  {
    forall m | m in w.queue && Contains(w.queue[m], fp) ensures UntouchedBy(s', m, fp) {
      assert UntouchedBy(s, m, fp);
      forall j | j in s'.active && m in s'.active[j].batch ensures Ahead(s', j, fp) {
        if j == i { AheadRest(s, s', i, fp); }
      }
      if j :| j in s.active && m in s.active[j].batch {
        assert m in Members(s.active[j].batch);
        assert j in s'.active ==> m in s'.active[j].batch;
      }
    }
  }

  lemma PendingReceive(w: World, s: State, e: Event, fp: string)
    requires e.Receive? && Pending(w, s, fp)
    ensures Pending(w, Step(w, s, e), fp)
  {
    var s' := Step(w, s, e);
    if m :| m in s.waiting && Risky(w, m, fp) {
      if m !in s'.waiting {
        ReceivedAhead(w, s, e, m, fp);
      }
    } else {
      var j, m :| Ahead(s, j, fp) && m in s.active[j].batch && Risky(w, m, fp);
      assert s'.active[j] == s.active[j];
      assert Ahead(s', j, fp);
    }
  }

  lemma ReceivedAhead(w: World, s: State, e: Event, m: nat, fp: string)
    requires e.Receive? && Step(w, s, e) != s && m in e.batch && m in w.queue && Contains(w.queue[m], fp)
    ensures Ahead(Step(w, s, e), e.i, fp) && m in Step(w, s, e).active[e.i].batch
  {
    FlattenContains(w.queue, e.batch, m, fp);
    var v := Step(w, s, e).active[e.i];
    assert v.work[v.pos..] == v.work;
  }

  lemma UntouchedReceive(w: World, s: State, e: Event, fp: string)
    requires e.Receive? && Untouched(w, s, fp)
    ensures Untouched(w, Step(w, s, e), fp)
  {
    var s' := Step(w, s, e);
    forall m | m in w.queue && Contains(w.queue[m], fp) ensures UntouchedBy(s', m, fp) {
      assert UntouchedBy(s, m, fp);
      if s' != s && m in e.batch { ReceivedAhead(w, s, e, m, fp); }
      if j :| j in s.active && m in s.active[j].batch {
        assert s'.active[j] == s.active[j];
      }
      assert m in s.waiting && m !in s'.waiting ==> m in Members(e.batch);
    }
  }

  lemma PendingEnd(w: World, s: State, i: nat, e: Event, fp: string)
    requires CaresLocated(w, s, fp) && Pending(w, s, fp) && i in s.active && s.active[i].pos == |s.active[i].work|
    ensures Pending(w, EndStep(s, i, e), fp)
  {
    var s' := EndStep(s, i, e);
    if m :| m in s.waiting && Risky(w, m, fp) {
      assert Located(s, m);
      assert m in Members(s.active[i].batch) <==> m in s.active[i].batch;
      assert m in s'.waiting;
    } else {
      var j, m :| Ahead(s, j, fp) && m in s.active[j].batch && Risky(w, m, fp);
      assert j != i && s'.active[j] == s.active[j];
      assert Ahead(s', j, fp);
    }
  }

  lemma UntouchedEnd(w: World, s: State, i: nat, e: Event, fp: string)
    requires Untouched(w, s, fp) && i in s.active && s.active[i].pos == |s.active[i].work|
    ensures Untouched(w, EndStep(s, i, e), fp)
  {
    var s' := EndStep(s, i, e);
    forall m | m in w.queue && Contains(w.queue[m], fp) ensures UntouchedBy(s', m, fp) {
      assert UntouchedBy(s, m, fp);
      assert m in s.active[i].batch ==> Ahead(s, i, fp);
      assert m in Members(s.active[i].batch) <==> m in s.active[i].batch;
      if j :| j in s.active && m in s.active[j].batch {
        assert j != i && s'.active[j] == s.active[j];
      }
    }
  }

  lemma PendingStays(w: World, s: State, s': State, fp: string)
    requires s.waiting <= s'.waiting && s'.active == s.active && s'.settled == s.settled
    ensures Pending(w, s, fp) ==> Pending(w, s', fp)
    ensures Untouched(w, s, fp) ==> Untouched(w, s', fp)
  {
    if m :| m in s.waiting && Risky(w, m, fp) {
      assert m in s'.waiting;
    }
    if i, m :| Ahead(s, i, fp) && m in s.active[i].batch && Risky(w, m, fp) {
      assert Ahead(s', i, fp);
    }
    if Untouched(w, s, fp) {
      forall m | m in w.queue && Contains(w.queue[m], fp) ensures UntouchedBy(s', m, fp) {
        assert UntouchedBy(s, m, fp);
        assert forall i :: Ahead(s', i, fp) <==> Ahead(s, i, fp);
      }
    }
  }

  /** Whoever gives a claim back hands back a message that calls for it. */
  lemma PendingReleased(w: World, s: State, s': State, i: nat, fp: string)
    requires WorkInv(w, s) && Unsuppressed(w, s) && CaresLocated(w, s, fp)
    requires Working(s, i) && Current(s, i).fingerprint == fp && Deep(s.active[i].phase)
    requires s'.waiting == Thrown(s, i).waiting
    ensures Pending(w, s', fp)
  {
    var v := s.active[i];
    assert Sound(w, v);
    var m, k := FlattenAt(w.queue, v.batch, v.pos);
    assert CallsFor(w, w.queue[m][k], fp);
    assert Risky(w, m, fp) && Located(s, m);
    assert m in Members(v.batch);
  }

  lemma {:induction false} FlattenAt(queue: map<nat, seq<Cluster>>, batch: seq<nat>, pos: nat) returns (m: nat, k: nat)
    requires pos < |Flatten(queue, batch)|
    ensures m in batch && m in queue && k < |queue[m]| && queue[m][k] == Flatten(queue, batch)[pos]
  {
    var n := |batch| - 1;
    var front := Flatten(queue, batch[..n]);
    if pos < |front| {
      m, k := FlattenAt(queue, batch[..n], pos);
    } else {
      m, k := batch[n], pos - |front|;
    }
  }

  /** What a step of a working invocation means for a fingerprint that is not claimed afterwards. */
  lemma UnclaimedStep(w: World, s: State, i: nat, e: Event, fp: string)
    requires Working(s, i) && ClaimInv(w, s, fp) && Guarded(ClusterStep(w, s, i, Current(s, i), e).log, fp)
    requires fp !in ClusterStep(w, s, i, Current(s, i), e).claims
    ensures
      var s' := ClusterStep(w, s, i, Current(s, i), e);
      if fp in s.claims
      then Current(s, i).fingerprint == fp && Deep(s.active[i].phase) && s'.waiting == Thrown(s, i).waiting
      else Passing(s, s', i, fp) && s.log <= s'.log && forall j :: |s.log| <= j < |s'.log| ==> Foreign(s'.log[j], fp)
  {
    hide Scan;
    var s' := ClusterStep(w, s, i, Current(s, i), e);
    ClusterStepMoved(w, s, i, e);
    assert Current(s, i).fingerprint == fp && !s.active[i].phase.Claiming? ==> Owns(s, i, fp);
    OutageLogged(w, s, i, e, fp);
  }

  lemma OutageLogged(w: World, s: State, i: nat, e: Event, fp: string)
    requires Working(s, i)
    ensures Current(s, i).fingerprint == fp && e.Claim? && s.active[i].phase.Claiming? && !e.storeUp ==>
              Unguarded(fp) in ClusterStep(w, s, i, Current(s, i), e).log
  {
  }

  lemma AccountedClusterStep(w: World, s: State, i: nat, e: Event, fp: string)
    requires WorkInv(w, s) && Unsuppressed(w, s) && CaresLocated(w, s, fp) && ClaimInv(w, s, fp) && Working(s, i)
    requires Accounted(w, s, fp) && Guarded(ClusterStep(w, s, i, Current(s, i), e).log, fp)
    ensures Accounted(w, ClusterStep(w, s, i, Current(s, i), e), fp)
  {
    var s' := ClusterStep(w, s, i, Current(s, i), e);
    if fp !in s'.claims {
      UnclaimedStep(w, s, i, e, fp);
      hide ClusterStep, Settled;
      if fp in s.claims {
        PendingReleased(w, s, s', i, fp);
      } else if Pending(w, s, fp) {
        PendingPassing(w, s, s', i, fp);
      } else {
        if Untouched(w, s, fp) { UntouchedPassing(w, s, s', i, fp); }
        SettledStays(w, s, s', fp);
      }
    }
  }

  /** A claim that nobody is working for stands for an outcome, after which no attempt is owed. */
  lemma UnownedHandled(w: World, s: State, fp: string)
    requires ClaimInv(w, s, fp) && fp in s.claims && !Owned(s, fp)
    ensures Handled(s.log, fp) && !Owed(s.log, fp)
  {
    ScanCounts(w.policy, s.log, fp);
    ScanOwed(w.policy, s.log, fp);
    hide Scan, Completions, Losses, Expiries, Owed;
    assert forall i :: Owns(s, i, fp) ==> i in s.active;
  }

  lemma AccountedExpire(w: World, s: State, expired: string, fp: string)
    requires ClaimInv(w, s, fp) && Accounted(w, s, fp) && Guarded(Step(w, s, Expire(expired)).log, fp)
    ensures Accounted(w, Step(w, s, Expire(expired)), fp)
  {
    var s' := Step(w, s, Expire(expired));
    assert expired == fp && fp in s.claims && Owned(s, fp) ==> Unguarded(fp) in s'.log;
    hide ClaimInv, Handled, Owed, Owned, Pending, Untouched;
    if fp in s.claims && expired == fp {
      UnownedHandled(w, s, fp);
      OwedLogged(s.log, Expired(fp), fp);
      HandledGrows(s.log, s'.log, fp);
    } else {
      PendingStays(w, s, s', fp);
      if Settled(w, s, fp) { SettledStays(w, s, s', fp); }
    }
  }

  lemma AtEnd(w: World, s: State, i: nat, e: Event)
    requires WorkInv(w, s) && i in s.active && !Working(s, i)
    ensures s.active[i].pos == |s.active[i].work|
    ensures EndStep(s, i, e).log == s.log && EndStep(s, i, e).claims == s.claims
  {
    assert Sound(w, s.active[i]);
  }

  lemma AccountedStep(w: World, s: State, e: Event, fp: string)
    requires WorkInv(w, s) && Unsuppressed(w, s) && CaresLocated(w, s, fp) && ClaimInv(w, s, fp)
    requires Accounted(w, s, fp) && Guarded(Step(w, s, e).log, fp)
    ensures Accounted(w, Step(w, s, e), fp)
  {
    var s' := Step(w, s, e);
    LogGrows(w, s, e);
    hide ClusterStep, EndStep, ClaimInv, Pending, Untouched, CaresLocated, WorkInv, Unsuppressed, Settled;
    if e.Receive? {
      if Pending(w, s, fp) { PendingReceive(w, s, e, fp); }
      if Untouched(w, s, fp) { UntouchedReceive(w, s, e, fp); }
      if Settled(w, s, fp) { SettledStays(w, s, s', fp); }
    } else if e.Expire? {
      AccountedExpire(w, s, e.fp, fp);
    } else if e.Resurface? {
      PendingStays(w, s, s', fp);
      if Settled(w, s, fp) { SettledStays(w, s, s', fp); }
    } else if Working(s, e.i) {
      AccountedClusterStep(w, s, e.i, e, fp);
    } else if e.i in s.active {
      AtEnd(w, s, e.i, e);
      if Pending(w, s, fp) { PendingEnd(w, s, e.i, e, fp); }
      if Untouched(w, s, fp) { UntouchedEnd(w, s, e.i, e, fp); }
      AccountedKept(w, s, s', fp);
    }
  }

  /** A step that writes nothing and leaves the claims alone changes nothing for the fingerprint if its messages stay
      where they count. */
  lemma AccountedKept(w: World, s: State, s': State, fp: string)
    requires Accounted(w, s, fp) && s'.log == s.log && s'.claims == s.claims
    requires (Pending(w, s, fp) ==> Pending(w, s', fp)) && (Untouched(w, s, fp) ==> Untouched(w, s', fp))
    ensures Accounted(w, s', fp)
  {
    if Settled(w, s, fp) { SettledStays(w, s, s', fp); }
  }

  predicate Known(w: World, fp: string) {
    exists m :: m in w.queue && Contains(w.queue[m], fp)
  }

  lemma {:induction false} WorkInvRun(w: World, trace: seq<Event>)
    ensures WorkInv(w, Run(w, Initial(w), trace))
  {
    if trace != [] {
      WorkInvRun(w, trace[..|trace| - 1]);
      WorkInvStep(w, Run(w, Initial(w), trace[..|trace| - 1]), trace[|trace| - 1]);
    }
  }

  lemma {:induction false} LocatedRun(w: World, trace: seq<Event>, m: nat)
    requires Resurfaced(m) !in Run(w, Initial(w), trace).log
    ensures Located(Run(w, Initial(w), trace), m)
  {
    if trace != [] {
      var n := |trace| - 1;
      var s := Run(w, Initial(w), trace[..n]);
      LogGrows(w, s, trace[n]);
      LocatedRun(w, trace[..n], m);
      LocatedStep(w, s, trace[n], m);
    }
  }

  /** At every moment an undisturbed fingerprint is claimed, or some work that will claim it is outstanding, or its
      latest attempt did not fail and it has been dealt with or not been reached at all. */
  lemma {:induction false} AccountedRun(w: World, trace: seq<Event>, fp: string)
    requires Known(w, fp) && Undisturbed(w, Run(w, Initial(w), trace).log, fp)
    ensures Accounted(w, Run(w, Initial(w), trace), fp)
  {
    if trace == [] {
      assert Untouched(w, Initial(w), fp);
    } else {
      var n := |trace| - 1;
      var s := Run(w, Initial(w), trace[..n]);
      LogGrows(w, s, trace[n]);
      AccountedRun(w, trace[..n], fp);
      WorkInvRun(w, trace[..n]);
      ClaimInvRun(w, trace[..n], fp);
      UnsuppressedRun(w, trace[..n]);
      forall m | Risky(w, m, fp) ensures Located(s, m) {
        LocatedRun(w, trace[..n], m);
      }
      AccountedStep(w, s, trace[n], fp);
    }
  }
}
