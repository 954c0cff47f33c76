/** The worker as it is written: one cluster after another, one record after another, one batch after another. Each port
    answers as it likes, and whenever the code awaits, all other workers, the queue and the store take any steps they
    like. A ghost trace records what happened, and the code is shown to take the protocol's steps. */
module UseCase {
  import opened Prelude
  import opened Clustering
  import opened Rules
  import opened Routing
  import opened Delivery
  import Outcomes
  import DeliveryLimits
  import DeliveryRuns

  /** Terminal outcome of a processed cluster. */
  function ResolveOutcome(llmError: bool, notifyError: bool, degradedReason: bool): (r: Outcome)
    ensures r.Error? <==> notifyError
    ensures r.Success? <==> !notifyError && !llmError && !degradedReason
    ensures !r.Suppressed?
  {
    if notifyError then Outcome.Error
    else if llmError then Degraded
    else if degradedReason then Degraded
    else Outcome.Success
  }

  method CollectChannels(actions: seq<Action>) returns (routes: seq<string>, escalations: seq<string>)
    ensures routes == Routes(actions) && escalations == Escalations(actions)
  {
    routes, escalations := [], [];
    for k := 0 to |actions|
      invariant routes == Routes(actions[..k]) && escalations == Escalations(actions[..k])
    {
      assert actions[..k + 1][..k] == actions[..k];
      if actions[k].Route? { routes := routes + [actions[k].channel]; }
      if actions[k].Escalate? { escalations := escalations + [actions[k].channel]; }
    }
    assert actions[..|actions|] == actions;
  }

  // ---------------------------------------------------------------- this worker and the others

  /** The event is a step of invocation `i`. */
  predicate Mine(e: Event, i: nat) {
    !e.Expire? && !e.Resurface? && e.i == i
  }

  predicate OthersOnly(t: seq<Event>, i: nat) {
    forall k :: 0 <= k < |t| ==> !Mine(t[k], i)
  }

  lemma OthersKeepStep(w: World, s: State, e: Event, i: nat)
    requires !Mine(e, i)
    ensures i in Step(w, s, e).active <==> i in s.active
    ensures i in s.active ==> Step(w, s, e).active[i] == s.active[i]
  {
  }

  /** What the others do leaves an invocation where it is. */
  lemma {:induction false} OthersKeep(w: World, s: State, t: seq<Event>, i: nat)
    requires OthersOnly(t, i)
    ensures i in Run(w, s, t).active <==> i in s.active
    ensures i in s.active ==> Run(w, s, t).active[i] == s.active[i]
  {
    if t != [] {
      var n := |t| - 1;
      OthersKeep(w, s, t[..n], i);
      OthersKeepStep(w, Run(w, s, t[..n]), t[n], i);
    }
  }

  /** An answer of the ports with which nothing but a send or a deletion fails. */
  predicate CleanEvent(e: Event) {
    !e.Crash? && (e.Claim? ==> e.storeUp) && (e.Analyse? ==> !e.triage.Rejects?) && (e.Release? ==> e.ok)
  }

  /** The ports answer invocation `i` cleanly, and nobody else takes a claim on these fingerprints away. */
  predicate SteadyStep(w: World, s: State, e: Event, i: nat, fps: set<string>) {
    if Mine(e, i) then CleanEvent(e) else fps * s.claims <= Step(w, s, e).claims
  }

  ghost predicate Steady(w: World, s: State, t: seq<Event>, i: nat, fps: set<string>) {
    t == [] || (Steady(w, s, t[..|t| - 1], i, fps) && SteadyStep(w, Run(w, s, t[..|t| - 1]), t[|t| - 1], i, fps))
  }

  lemma {:induction false} SteadyParts(w: World, s: State, t: seq<Event>, u: seq<Event>, i: nat, fps: set<string>)
    ensures Steady(w, s, t + u, i, fps) <==> Steady(w, s, t, i, fps) && Steady(w, Run(w, s, t), u, i, fps)
  {
    if u == [] {
      assert t + u == t;
    } else {
      var n := |u| - 1;
      assert (t + u)[..|t + u| - 1] == t + u[..n];
      RunAppend(w, s, t, u[..n]);
      SteadyParts(w, s, t, u[..n], i, fps);
    }
  }

  lemma SteadyOne(w: World, s: State, e: Event, i: nat, fps: set<string>)
    ensures Steady(w, s, [e], i, fps) <==> SteadyStep(w, s, e, i, fps)
  {
    assert [e][..0] == [];
  }

  lemma {:induction false} SteadyOthers(w: World, s: State, t: seq<Event>, i: nat, fps: set<string>)
    requires OthersOnly(t, i) && Steady(w, s, t, i, fps)
    ensures fps * s.claims <= Run(w, s, t).claims
  {
    if t != [] { SteadyOthers(w, s, t[..|t| - 1], i, fps); }
  }

  /** A port other than the store fails invocation `i`: a send, or the triage. */
  predicate Fault(e: Event, i: nat) {
    e == Send(i, false) || (e.Analyse? && e.i == i && e.triage.Rejects?)
  }

  predicate Faulty(t: seq<Event>, i: nat) {
    exists k :: 0 <= k < |t| && Fault(t[k], i)
  }

  lemma FaultyParts(t: seq<Event>, u: seq<Event>, i: nat)
    ensures Faulty(t + u, i) <==> Faulty(t, i) || Faulty(u, i)
  {
    if k :| 0 <= k < |t| && Fault(t[k], i) {
      assert (t + u)[k] == t[k];
    }
    if k :| 0 <= k < |u| && Fault(u[k], i) {
      assert (t + u)[|t| + k] == u[k];
    }
  }

  lemma FaultyOne(e: Event, i: nat)
    ensures Faulty([e], i) <==> Fault(e, i)
  {
    assert [e][0] == e;
  }

  /** `t` leads from `s` to `s'`; if it is steady, the claims on `fps` are kept and those of `more` are added. */
  ghost predicate Keeps(w: World, s: State, t: seq<Event>, s': State, i: nat, fps: set<string>, more: set<string>) {
    Leads(w, s, t, s') && (Steady(w, s, t, i, fps) ==> fps * s.claims + more <= s'.claims)
  }

  lemma KeepsNothing(w: World, s: State, i: nat, fps: set<string>)
    ensures Keeps(w, s, [], s, i, fps, {}) && !Faulty([], i)
  {
  }

  lemma KeepsOn(w: World, s: State, t: seq<Event>, s': State, u: seq<Event>, s'': State,
                i: nat, fps: set<string>, more: set<string>, more': set<string>, total: set<string>)
    requires Keeps(w, s, t, s', i, fps, more) && Keeps(w, s', u, s'', i, fps, more')
    requires more <= fps && total <= more + more'
    ensures Keeps(w, s, t + u, s'', i, fps, total)
    ensures Steady(w, s, t + u, i, fps) <==> Steady(w, s, t, i, fps) && Steady(w, s', u, i, fps)
    ensures Faulty(t + u, i) <==> Faulty(t, i) || Faulty(u, i)
  {
    LeadsOn(w, s, t, s', u, s'');
    SteadyParts(w, s, t, u, i, fps);
    FaultyParts(t, u, i);
  }

  lemma KeepsStep(w: World, s: State, e: Event, i: nat, fps: set<string>, more: set<string>)
    requires CleanEvent(e) ==> fps * s.claims + more <= Step(w, s, e).claims
    requires Mine(e, i)
    ensures Keeps(w, s, [e], Step(w, s, e), i, fps, more)
    ensures Steady(w, s, [e], i, fps) <==> CleanEvent(e)
    ensures Faulty([e], i) <==> Fault(e, i)
  {
    LeadsOne(w, s, e);
    SteadyOne(w, s, e, i, fps);
    FaultyOne(e, i);
  }

  lemma KeepsOthers(w: World, s: State, t: seq<Event>, s': State, i: nat, fps: set<string>)
    requires OthersOnly(t, i) && Leads(w, s, t, s')
    ensures Keeps(w, s, t, s', i, fps, {}) && !Faulty(t, i)
  {
    if Steady(w, s, t, i, fps) { SteadyOthers(w, s, t, i, fps); }
  }

  /** After an await the invocation takes one step. */
  lemma AwaitedStep(w: World, s: State, t: seq<Event>, s': State, e: Event, i: nat, fps: set<string>, more: set<string>)
    requires OthersOnly(t, i) && Leads(w, s, t, s') && Mine(e, i)
    requires CleanEvent(e) ==> fps * s'.claims + more <= Step(w, s', e).claims
    ensures Keeps(w, s, t + [e], Step(w, s', e), i, fps, more)
    ensures Steady(w, s, t + [e], i, fps) <==> Steady(w, s, t, i, fps) && CleanEvent(e)
    ensures Faulty(t + [e], i) <==> Fault(e, i)
  {
    hide Keeps, Steady, Step, Leads, Faulty, OthersOnly;
    KeepsOthers(w, s, t, s', i, fps);
    KeepsStep(w, s', e, i, fps, more);
    KeepsOn(w, s, t, s', [e], Step(w, s', e), i, fps, {}, more, more);
  }

  // ---------------------------------------------------------------- how far an invocation has come

  function Prints(cs: seq<Cluster>): set<string> { DeliveryRuns.Prints(cs) }

  /** The clusters `n` further on are the next ones of the invocation. */
  function Next(v: Invocation, n: nat): seq<Cluster>
    requires v.pos + n <= |v.work|
  {
    v.work[v.pos..v.pos + n]
  }

  /** Invocation `i` has dealt with its next `n` clusters, and no port failed it; in a steady run each of them is
      claimed now. */
  ghost predicate Passed(w: World, s: State, i: nat, t: seq<Event>, s': State, n: nat) {
    && i in s.active && s.active[i].phase == Claiming && s.active[i].pos + n <= |s.active[i].work|
    && i in s'.active && s'.active[i] == s.active[i].(pos := s.active[i].pos + n)
    && Keeps(w, s, t, s', i, Prints(s.active[i].work), Prints(Next(s.active[i], n))) && !Faulty(t, i)
  }

  /** Invocation `i` has dealt with `n` clusters and thrown at the next one because a port failed it; the claim is free
      again in a steady run. The messages are visible unless they have been deleted. */
  ghost predicate Threw(w: World, s: State, i: nat, t: seq<Event>, s': State, n: nat) {
    && i in s.active && s.active[i].phase == Claiming && s.active[i].pos + n < |s.active[i].work|
    && i !in s'.active && Members(s.active[i].batch) <= s'.waiting + s'.settled && Faulty(t, i)
    && Keeps(w, s, t, s', i, Prints(s.active[i].work), Prints(Next(s.active[i], n)))
    && (Steady(w, s, t, i, Prints(s.active[i].work)) ==>
        s.active[i].work[s.active[i].pos + n].fingerprint !in s'.claims)
  }

  lemma PrintsOfPart(work: seq<Cluster>, a: nat, b: nat)
    requires a <= b <= |work|
    ensures Prints(work[a..b]) <= Prints(work)
  {
    forall c | c in work[a..b] ensures c in work {}
  }

  lemma PrintsAppend(work: seq<Cluster>, a: nat, b: nat, c: nat)
    requires a <= b <= c <= |work|
    ensures Prints(work[a..c]) == Prints(work[a..b]) + Prints(work[b..c])
  {
    assert work[a..c] == work[a..b] + work[b..c];
  }

  lemma PassedNothing(w: World, s: State, i: nat)
    requires i in s.active && s.active[i].phase == Claiming && s.active[i].pos <= |s.active[i].work|
    ensures Passed(w, s, i, [], s, 0)
  {
    KeepsNothing(w, s, i, Prints(s.active[i].work));
    assert Prints([]) == {};
  }

  lemma NextTwice(v: Invocation, m: nat, n: nat)
    requires v.pos + m + n <= |v.work|
    ensures Prints(Next(v, m)) <= Prints(v.work)
    ensures Prints(Next(v, m + n)) == Prints(Next(v, m)) + Prints(Next(v.(pos := v.pos + m), n))
  {
    hide DeliveryRuns.Prints;
    PrintsOfPart(v.work, v.pos, v.pos + m);
    PrintsAppend(v.work, v.pos, v.pos + m, v.pos + m + n);
  }

  lemma PassedOn(w: World, s: State, i: nat, t: seq<Event>, s': State, m: nat, u: seq<Event>, s'': State, n: nat)
    requires Passed(w, s, i, t, s', m) && Passed(w, s', i, u, s'', n)
    ensures Passed(w, s, i, t + u, s'', m + n)
  {
    hide Keeps, Steady, DeliveryRuns.Prints, Next, Faulty;
    var v := s.active[i];
    NextTwice(v, m, n);
    KeepsOn(w, s, t, s', u, s'', i, Prints(v.work), Prints(Next(v, m)), Prints(Next(s'.active[i], n)),
            Prints(Next(v, m + n)));
  }

  lemma PassedThenThrew(w: World, s: State, i: nat, t: seq<Event>, s': State, m: nat, u: seq<Event>, s'': State, n: nat)
    requires Passed(w, s, i, t, s', m) && Threw(w, s', i, u, s'', n)
    ensures Threw(w, s, i, t + u, s'', m + n)
  {
    hide Keeps, Steady, DeliveryRuns.Prints, Next, Members, Faulty;
    var v := s.active[i];
    NextTwice(v, m, n);
    KeepsOn(w, s, t, s', u, s'', i, Prints(v.work), Prints(Next(v, m)), Prints(Next(s'.active[i], n)),
            Prints(Next(v, m + n)));
  }

  /** Invocation `i` has released the claim it held and thrown. */
  ghost predicate Fell(w: World, s: State, t: seq<Event>, s': State, i: nat) {
    && Working(s, i) && Leads(w, s, t, s') && i !in s'.active
    && Members(s.active[i].batch) <= s'.waiting + s'.settled
    && var fps, fp := Prints(s.active[i].work), Current(s, i).fingerprint;
       (Steady(w, s, t, i, fps) ==> fps * s.claims - {fp} <= s'.claims && fp !in s'.claims)
  }

  lemma FellAfter(w: World, s: State, t: seq<Event>, s': State, u: seq<Event>, s'': State, i: nat)
    requires Working(s, i) && Keeps(w, s, t, s', i, Prints(s.active[i].work), {}) && Fell(w, s', u, s'', i)
    requires s'.active[i].(phase := Claiming) == s.active[i].(phase := Claiming)
    ensures Fell(w, s, t + u, s'', i)
    ensures Faulty(t, i) ==> Faulty(t + u, i)
  {
    hide DeliveryRuns.Prints, Members, Faulty;
    LeadsOn(w, s, t, s', u, s'');
    SteadyParts(w, s, t, u, i, Prints(s.active[i].work));
    FaultyParts(t, u, i);
  }

  /** If the claim was not held before, giving it back takes nothing away. */
  lemma FellAfterClaim(w: World, s: State, t: seq<Event>, s': State, u: seq<Event>, s'': State,
                       i: nat, fps: set<string>, fp: string)
    requires Working(s, i) && s.active[i].phase == Claiming && Current(s, i).fingerprint == fp
    requires fps == Prints(s.active[i].work) && Keeps(w, s, t, s', i, fps, {fp}) && Fell(w, s', u, s'', i)
    requires Steady(w, s, t, i, fps) ==> fp !in s.claims
    requires s'.active[i].(phase := Claiming) == s.active[i] && Faulty(u, i)
    ensures Threw(w, s, i, t + u, s'', 0)
  {
    assert Next(s.active[i], 0) == [] && Prints([]) == {};
    hide DeliveryRuns.Prints, Members, Next, Faulty;
    LeadsOn(w, s, t, s', u, s'');
    SteadyParts(w, s, t, u, i, fps);
    FaultyParts(t, u, i);
  }

  lemma KeepsLess(w: World, s: State, t: seq<Event>, s': State, i: nat, fps: set<string>, more: set<string>)
    requires Keeps(w, s, t, s', i, fps, more)
    ensures Keeps(w, s, t, s', i, fps, {})
  {
  }

  lemma InPrints(work: seq<Cluster>, k: nat)
    requires k < |work|
    ensures work[k].fingerprint in Prints(work)
  {
  }

  lemma NextOne(v: Invocation)
    requires v.pos < |v.work|
    ensures Prints(Next(v, 1)) == {v.work[v.pos].fingerprint} <= Prints(v.work) && Prints(Next(v, 0)) == {}
  {
    assert Next(v, 1) == [v.work[v.pos]] && Next(v, 0) == [];
  }

  lemma SendStep(w: World, s: State, i: nat, c: Cluster, a: Option<Analysis>, d: bool, n: nat)
    requires Working(s, i) && Current(s, i) == c && n < |w.policy.plan(c, a)| && s.active[i].phase == Sending(a, d, n)
    ensures
      var notes := w.policy.plan(c, a);
      var sent := Logged(s, Sent(c.fingerprint, notes[n]));
      && Step(w, s, Send(i, false)) == At(s, i, Releasing)
      && Step(w, s, Send(i, true))
         == if n + 1 < |notes| then At(sent, i, Sending(a, d, n + 1))
            else Past(Logged(sent, Ended(c, if d then Degraded else Outcome.Success, a)), i)
  {
  }

  // ---------------------------------------------------------------- records and batches

  datatype Record = Malformed | Parsed(alerts: seq<Alert>)

  /** The clusters a record stands for. */
  function RecordClusters(keyOf: Alert -> string, record: Record): seq<Cluster> {
    if record.Malformed? then [] else ClustersOf(keyOf, record.alerts)
  }

  /** The clusters of one record have different fingerprints. */
  lemma RecordDistinct(keyOf: Alert -> string, record: Record, i: nat, j: nat)
    requires i < j < |RecordClusters(keyOf, record)|
    ensures RecordClusters(keyOf, record)[i].fingerprint != RecordClusters(keyOf, record)[j].fingerprint
  {
    FingerprintsDistinct(keyOf, record.alerts);
  }

  ghost predicate RestStarts(v: Invocation, clusters: seq<Cluster>) {
    v.pos <= |v.work| && clusters <= v.work[v.pos..]
  }

  /** After `n` more clusters invocation `i` has these before it. */
  ghost predicate RestFrom(s: State, i: nat, n: nat, clusters: seq<Cluster>) {
    i in s.active && var v := s.active[i]; v.pos + n <= |v.work| && clusters <= v.work[v.pos + n..]
  }

  lemma RestAfter(w: World, s: State, i: nat, t: seq<Event>, s': State, n: nat, clusters: seq<Cluster>)
    requires Passed(w, s, i, t, s', n) && RestFrom(s, i, n, clusters)
    ensures i in s'.active && s'.active[i].phase == Claiming
    ensures s'.active[i].pos <= |s'.active[i].work| && RestStarts(s'.active[i], clusters)
  {
    hide Keeps;
  }

  lemma NextCluster(w: World, s: State, i: nat, t: seq<Event>, s': State, k: nat, clusters: seq<Cluster>)
    requires Passed(w, s, i, t, s', k) && RestStarts(s.active[i], clusters) && k < |clusters|
    ensures Working(s', i) && Current(s', i) == clusters[k] && s'.active[i].phase == Claiming
  {
    hide Keeps;
    var v := s.active[i];
    assert clusters[k] == v.work[v.pos..][k];
  }

  lemma {:induction false} FlattenPrefix(queue: map<nat, seq<Cluster>>, batch: seq<nat>, b: nat)
    requires b < |batch| && batch[b] in queue
    ensures
      var before := Flatten(queue, batch[..b]);
      && Flatten(queue, batch[..b + 1]) == before + queue[batch[b]]
      && Flatten(queue, batch[..b + 1]) <= Flatten(queue, batch)
  {
    assert batch[..b + 1][..b] == batch[..b];
    if b + 1 < |batch| {
      var front := batch[..|batch| - 1];
      assert front[..b + 1] == batch[..b + 1];
      FlattenPrefix(queue, front, b);
    } else {
      assert batch[..b + 1] == batch;
    }
  }

  /** The clusters of the batch's record `b` come after those of the records before it. */
  lemma RestOfBatch(w: World, s: State, i: nat, batch: seq<nat>, b: nat)
    requires b < |batch| && batch[b] in w.queue && i in s.active
    requires s.active[i] == Invocation(batch, Flatten(w.queue, batch), 0, Claiming)
    ensures
      var n, next := |Flatten(w.queue, batch[..b])|, w.queue[batch[b]];
      RestFrom(s, i, n, next) && n + |next| == |Flatten(w.queue, batch[..b + 1])|
  {
    FlattenPrefix(w.queue, batch, b);
    hide Flatten;
    var before, whole, next := Flatten(w.queue, batch[..b]), Flatten(w.queue, batch), w.queue[batch[b]];
    var n := |before|;
    assert whole[..n + |next|] == before + next;
    assert whole[n..][..|next|] == whole[..n + |next|][n..] == next;
  }

  lemma {:induction false} MalformedOnly(queue: map<nat, seq<Cluster>>, batch: seq<nat>)
    requires forall m :: m in batch && m in queue ==> queue[m] == []
    ensures Flatten(queue, batch) == []
  {
    if batch != [] {
      MalformedOnly(queue, batch[..|batch| - 1]);
      assert batch[|batch| - 1] in batch;
    }
  }

  ghost predicate Reached(work: seq<Cluster>, n: nat, claims: set<string>) {
    n <= |work| && Prints(work[..n]) <= claims
  }

  /** Claims are kept between attempts, so an attempt that throws does so no earlier than those before it. */
  lemma NoStepBack(work: seq<Cluster>, f: nat, before: set<string>, n: nat, after: set<string>, threw: bool)
    requires Reached(work, f, before) && n <= |work| && Prints(work) * before <= after
    requires threw ==> n < |work| && work[n].fingerprint !in after
    ensures Reached(work, f, after) && (threw ==> f <= n)
  {
    PrintsOfPart(work, 0, f);
    assert work[0..f] == work[..f];
    if n < f {
      assert work[..f][n] == work[n];
      assert work[n].fingerprint in Prints(work[..f]);
    }
  }

  /** What a poll does to the claims: in a steady run those of the clusters dealt with are added, none is taken away,
      and the one at which it failed is free. */
  ghost predicate Polled(w: World, s: State, t: seq<Event>, s': State, i: nat, batch: seq<nat>, n: nat)
    requires n <= |Flatten(w.queue, batch)|
  {
    var work := Flatten(w.queue, batch);
    && Keeps(w, s, t, s', i, Prints(work), Prints(work[..n]))
    && (Steady(w, s, t, i, Prints(work)) && n < |work| ==> work[n].fingerprint !in s'.claims)
  }

  /** Where a poll stands when the handler is over. */
  lemma BatchHandled(w: World, s: State, i: nat, batch: seq<nat>, begun: State, u: seq<Event>, s': State, n: nat,
      threw: bool)
    requires i !in s.active && Members(batch) <= s.waiting && begun == Step(w, s, Receive(i, batch))
    requires if threw then Threw(w, begun, i, u, s', n)
        else n == |Flatten(w.queue, batch)| && Passed(w, begun, i, u, s', n)
    ensures
      var work, t := Flatten(w.queue, batch), [Receive(i, batch)] + u;
      && Leads(w, s, t, s') && n <= |work| && (threw ==> n < |work|) && Polled(w, s, t, s', i, batch, n)
      && (threw ==> i !in s'.active && Members(batch) <= s'.waiting + s'.settled)
      && (!threw ==> i in s'.active && s'.active[i] == Invocation(batch, work, n, Claiming))
      && (threw <==> Faulty(t, i))
  {
    var work := Flatten(w.queue, batch);
    var v := Invocation(batch, work, 0, Claiming);
    assert begun.active[i] == v && begun.claims == s.claims;
    assert Next(v, n) == work[..n];
    KeepsStep(w, s, Receive(i, batch), i, Prints(work), {});
    hide Flatten, Steady, Step, Run, DeliveryRuns.Prints, Members, Faulty;
    KeepsOn(w, s, [Receive(i, batch)], begun, u, s', i, Prints(work), {}, Prints(work[..n]), Prints(work[..n]));
  }

  /** The deletion after the handler, with the others going on in between. */
  lemma BatchEnded(w: World, s: State, i: nat, batch: seq<nat>, t: seq<Event>, s1: State, u: seq<Event>, s2: State,
                   deleted: set<nat>, s3: State)
    requires i in s1.active && i in s2.active && s2.active[i] == s1.active[i]
    requires s1.active[i] == Invocation(batch, Flatten(w.queue, batch), |Flatten(w.queue, batch)|, Claiming)
    requires Polled(w, s, t, s1, i, batch, |Flatten(w.queue, batch)|) && OthersOnly(u, i) && Leads(w, s1, u, s2)
    requires s3 == Step(w, s2, Return(i, deleted))
    ensures Leads(w, s, t + u + [Return(i, deleted)], s3)
    ensures Polled(w, s, t + u + [Return(i, deleted)], s3, i, batch, |Flatten(w.queue, batch)|)
    ensures Faulty(t + u + [Return(i, deleted)], i) <==> Faulty(t, i)
  {
    var work := Flatten(w.queue, batch);
    var fps := Prints(work);
    assert s3.claims == s2.claims;
    PrintsOfPart(work, 0, |work|);
    assert work[..|work|] == work;
    KeepsStep(w, s2, Return(i, deleted), i, fps, {});
    hide Flatten, Step, Run, Steady, DeliveryRuns.Prints, Members, Faulty;
    KeepsOthers(w, s1, u, s2, i, fps);
    KeepsOn(w, s, t, s1, u, s2, i, fps, fps, {}, fps);
    KeepsOn(w, s, t + u, s2, [Return(i, deleted)], s3, i, fps, fps, {}, fps);
  }

  /** Every known fingerprint that nothing disturbed has been dealt with, once in each of its windows, and no attempt is
      owed. */
  ghost predicate AllDealtWith(w: World, s: State) {
    forall fp :: Known(w, fp) && Undisturbed(w, s.log, fp) ==> Outcomes.DealtWith(s, fp)
  }

  lemma EndsDealtWith(w: World, t: seq<Event>)
    ensures Outcomes.Drained(Run(w, Initial(w), t)) ==> AllDealtWith(w, Run(w, Initial(w), t))
  {
    var s := Run(w, Initial(w), t);
    if Outcomes.Drained(s) {
      forall fp | Known(w, fp) && Undisturbed(w, s.log, fp)
        ensures Outcomes.DealtWith(s, fp)
      {
        Outcomes.DrainedOncePerWindow(w, t, fp);
      }
    }
  }

  /** The attempts so far failed in order, and everything before a failure is still claimed. */
  ghost predicate NeverBack(work: seq<Cluster>, failures: seq<nat>, claims: set<string>) {
    && (forall a, b :: 0 <= a < b < |failures| ==> failures[a] <= failures[b])
    && forall a :: 0 <= a < |failures| ==> Reached(work, failures[a], claims)
  }

  lemma NeverBackKept(work: seq<Cluster>, failures: seq<nat>, before: set<string>, after: set<string>)
    requires NeverBack(work, failures, before) && Prints(work) * before <= after
    ensures NeverBack(work, failures, after)
  {
    forall a | 0 <= a < |failures| ensures Reached(work, failures[a], after) {
      NoStepBack(work, failures[a], before, 0, after, false);
    }
  }

  lemma NeverBackMore(work: seq<Cluster>, failures: seq<nat>, before: set<string>, n: nat, after: set<string>)
    requires n < |work| && work[n].fingerprint !in after
    requires NeverBack(work, failures, before) && Prints(work) * before + Prints(work[..n]) <= after
    ensures NeverBack(work, failures + [n], after)
  {
    forall a | 0 <= a < |failures| ensures Reached(work, failures[a], after) && failures[a] <= n {
      NoStepBack(work, failures[a], before, n, after, true);
    }
  }

  lemma Resumed(w: World, s: State, t: seq<Event>, s': State, u: seq<Event>, s'': State, i: nat,
                work: seq<Cluster>, failures: seq<nat>)
    requires Leads(w, s, t, s') && Keeps(w, s', u, s'', i, Prints(work), {})
    requires Steady(w, s, t, i, Prints(work)) ==> NeverBack(work, failures, s'.claims)
    ensures Leads(w, s, t + u, s'')
    ensures Steady(w, s, t + u, i, Prints(work)) ==> NeverBack(work, failures, s''.claims)
  {
    hide DeliveryRuns.Prints, NeverBack;
    LeadsOn(w, s, t, s', u, s'');
    SteadyParts(w, s, t, u, i, Prints(work));
    if Steady(w, s, t + u, i, Prints(work)) { NeverBackKept(work, failures, s'.claims, s''.claims); }
  }

  lemma Attempted(w: World, s: State, t: seq<Event>, s': State, u: seq<Event>, s'': State, i: nat,
                  batch: seq<nat>, failures: seq<nat>, n: nat, threw: bool)
    requires n <= |Flatten(w.queue, batch)| && (threw ==> n < |Flatten(w.queue, batch)|)
    requires Leads(w, s, t, s') && Polled(w, s', u, s'', i, batch, n)
    requires Steady(w, s, t, i, Prints(Flatten(w.queue, batch))) ==>
        NeverBack(Flatten(w.queue, batch), failures, s'.claims)
    ensures Leads(w, s, t + u, s'')
    ensures Steady(w, s, t + u, i, Prints(Flatten(w.queue, batch))) ==>
              NeverBack(Flatten(w.queue, batch), if threw then failures + [n] else failures, s''.claims)
  {
    var work := Flatten(w.queue, batch);
    hide DeliveryRuns.Prints, NeverBack, Flatten;
    LeadsOn(w, s, t, s', u, s'');
    SteadyParts(w, s, t, u, i, Prints(work));
    if Steady(w, s, t + u, i, Prints(work)) {
      if threw {
        NeverBackMore(work, failures, s'.claims, n, s''.claims);
      } else {
        NeverBackKept(work, failures, s'.claims, s''.claims);
      }
    }
  }

  // ---------------------------------------------------------------- the worker

  /** `waiting` to `log` are the state shared with the others: the queue, who is where, the claim store, what was
      seen. */
  class Worker {
    const rules: Option<RuleConfiguration>
    const keyOf: Alert -> string
    const records: map<nat, Record>
    const w: World
    var waiting: set<nat>
    var settled: set<nat>
    var active: map<nat, Invocation>
    var claims: set<string>
    var log: seq<Entry>

    constructor (rules: Option<RuleConfiguration>, keyOf: Alert -> string, records: map<nat, Record>)
      ensures Modelled() && Now() == Initial(w)
      ensures this.rules == rules && this.keyOf == keyOf && this.records == records
    {
      this.rules, this.keyOf, this.records := rules, keyOf, records;
      w := World(PolicyOf(rules), map m | m in records :: RecordClusters(keyOf, records[m]));
      waiting, settled, active, claims, log := records.Keys, {}, map[], {}, [];
    }

    /** The world is the one that the rules and the records stand for. */
    ghost predicate Modelled() {
      && w.policy == PolicyOf(rules) && w.queue.Keys == records.Keys
      && forall m :: m in records ==> w.queue[m] == RecordClusters(keyOf, records[m])
    }

    /** The worlds of workers are those that the limits of the protocol are about. */
    lemma ModelledDistinct()
      requires Modelled()
      ensures DeliveryLimits.DistinctWork(w)
    {
      forall m, i, j | m in w.queue && 0 <= i < j < |w.queue[m]|
        ensures w.queue[m][i].fingerprint != w.queue[m][j].fingerprint
      {
        RecordDistinct(keyOf, records[m], i, j);
      }
    }

    ghost function Now(): State
      reads this
    {
      State(waiting, settled, active, claims, log)
    }

    /** Invocation `i` is at cluster `c` in the given phase. */
    ghost predicate IsAt(i: nat, c: Cluster, phase: Phase)
      reads this
    {
      Working(Now(), i) && Current(Now(), i) == c && active[i].phase == phase
    }

    /** The code is suspended: everybody else goes on. */
    method Await(i: nat) returns (ghost t: seq<Event>)
      modifies this
      ensures OthersOnly(t, i) && Leads(w, old(Now()), t, Now())
      ensures i in active <==> i in old(active)
      ensures i in active ==> active[i] == old(active)[i]
    {
      var u: seq<Event> := *;
      if OthersOnly(u, i) {
        OthersKeep(w, Now(), u, i);
        var s := Run(w, State(waiting, settled, active, claims, log), u);
        waiting, settled, active, claims, log := s.waiting, s.settled, s.active, s.claims, s.log;
        t := u;
      } else {
        LeadsNowhere(w, Now());
        t := [];
      }
    }

    method Goto(i: nat, phase: Phase)
      requires i in active
      modifies this`active
      ensures Now() == At(old(Now()), i, phase)
    {
      active := active[i := active[i].(phase := phase)];
    }

    method GoOn(i: nat)
      requires i in active
      modifies this`active
      ensures Now() == Past(old(Now()), i)
    {
      active := active[i := active[i].(pos := active[i].pos + 1, phase := Claiming)];
    }

    /** The exception leaves the handler: the messages of the batch become visible again. */
    method Throw(i: nat)
      requires i in active
      modifies this`active, this`waiting
      ensures Now() == Thrown(old(Now()), i)
    {
      waiting := waiting + (Members(active[i].batch) - settled);
      active := active - {i};
    }

    /** `isNew`: the store decides, and when it cannot be reached the cluster counts as new. */
    method IsNew(c: Cluster, i: nat) returns (isNew: bool, ghost up: bool)
      requires IsAt(i, c, Claiming)
      modifies this
      ensures Now() == Step(w, old(Now()), Claim(i, up))
      ensures up ==> (isNew <==> c.fingerprint !in old(claims))
      ensures Now() == if isNew then At(old(Now()), i, Deciding).(claims := claims, log := log) else Past(old(Now()), i)
      ensures up ==> claims == old(claims) + {c.fingerprint}
    {
      var reachable: bool := *;
      up := reachable;
      if !reachable {
        log := log + [Unguarded(c.fingerprint)];
        Goto(i, Deciding);
        return true, up;
      }
      isNew := c.fingerprint !in claims;
      if isNew {
        claims := claims + {c.fingerprint};
        Goto(i, Deciding);
      } else {
        GoOn(i);
      }
    }

    /** Gives the claim back so that the redelivery is not taken for a duplicate; a failing `reset` is only logged. */
    method ReleaseDedupClaim(c: Cluster, i: nat) returns (ghost released: bool)
      requires IsAt(i, c, Releasing)
      modifies this
      ensures Now() == Step(w, old(Now()), Release(i, released))
      ensures i !in active && Members(old(active)[i].batch) <= waiting + settled
      ensures released ==> claims == old(claims) - {c.fingerprint}
    {
      var storeUp: bool := *;
      released := storeUp;
      if storeUp { claims := claims - {c.fingerprint}; }
      log := log + [Ended(c, ResolveOutcome(false, true, false), None)];
      if !storeUp { log := log + [Left(c.fingerprint)]; }
      Throw(i);
    }

    /** The sends of one cluster, primary first; on a failure the claim is released and the error goes up. */
    method Notify(c: Cluster, analysis: Option<Analysis>, llmError: bool, degradedReason: bool,
                  channels: seq<Option<string>>, message: Cluster, i: nat)
      returns (ok: bool, ghost t: seq<Event>)
      requires IsAt(i, c, Sending(analysis, llmError || degradedReason, 0))
      requires |channels| == |w.policy.plan(c, analysis)|
      requires forall k :: 0 <= k < |channels| ==> w.policy.plan(c, analysis)[k] == Note(message, analysis, channels[k])
      modifies this
      ensures ok ==> i in active && active[i] == old(active[i]).(pos := old(active[i]).pos + 1, phase := Claiming)
      ensures ok ==> Keeps(w, old(Now()), t, Now(), i, Prints(old(active[i]).work), {})
      ensures !ok ==> Fell(w, old(Now()), t, Now(), i)
      ensures ok <==> !Faulty(t, i)
    {
      hide Run, Steady, DeliveryRuns.Prints, Keeps, Members, Faulty;
      var d := llmError || degradedReason;
      ghost var s, v, fps := Now(), active[i], Prints(active[i].work);
      ghost var s' := Now();
      KeepsNothing(w, s, i, fps);
      t := [];
      for n := 0 to |channels|
        invariant Keeps(w, s, t, s', i, fps, {}) && !Faulty(t, i) && i in active
        invariant n < |channels| ==> s' == Now() && active[i] == v.(phase := Sending(analysis, d, n))
        invariant n == |channels| ==>
          && s' == Past(Logged(Now(), Ended(c, ResolveOutcome(llmError, false, degradedReason), analysis)), i)
          && active[i].(phase := Claiming) == v.(phase := Claiming)
      {
        ghost var u := Await(i);
        KeepsOthers(w, s', u, Now(), i, fps);
        KeepsOn(w, s, t, s', u, Now(), i, fps, {}, {}, {});
        t, s' := t + u, Now();
        ghost var now := Now();
        var delivered: bool := *;
        SendStep(w, now, i, c, analysis, d, n);
        if !delivered {
          KeepsStep(w, now, Send(i, false), i, fps, {});
          KeepsOn(w, s, t, now, [Send(i, false)], At(now, i, Releasing), i, fps, {}, {}, {});
          t := t + [Send(i, false)];
          ok := false;
          Goto(i, Releasing);
          ghost var rest := Fail(c, i);
          FellAfter(w, s, t, At(now, i, Releasing), rest, Now(), i);
          t := t + rest;
          return;
        }
        log := log + [Sent(c.fingerprint, Note(message, analysis, channels[n]))];
        if n + 1 < |channels| { Goto(i, Sending(analysis, d, n + 1)); }
        s' := Step(w, now, Send(i, true));
        KeepsStep(w, now, Send(i, true), i, fps, {});
        KeepsOn(w, s, t, now, [Send(i, true)], s', i, fps, {}, {}, {});
        t := t + [Send(i, true)];
      }
      log := log + [Ended(c, ResolveOutcome(llmError, false, degradedReason), analysis)];
      GoOn(i);
      ok := true;
    }

    /** The handler of a failed send. */
    method Fail(c: Cluster, i: nat) returns (ghost t: seq<Event>)
      requires IsAt(i, c, Releasing)
      modifies this
      ensures Fell(w, old(Now()), t, Now(), i)
    {
      ghost var s, fps := Now(), Prints(active[i].work);
      ghost var u := Await(i);
      ghost var now := Now();
      ghost var released := ReleaseDedupClaim(c, i);
      KeepsOthers(w, s, u, now, i, fps);
      LeadsOne(w, now, Release(i, released));
      LeadsOn(w, s, u, now, [Release(i, released)], Now());
      SteadyParts(w, s, u, [Release(i, released)], i, fps);
      SteadyOne(w, now, Release(i, released), i, fps);
      t := u + [Release(i, released)];
    }

    /** The claim: a duplicate is skipped. */
    method ClaimCluster(c: Cluster, i: nat) returns (isNew: bool, ghost t: seq<Event>)
      requires IsAt(i, c, Claiming)
      modifies this
      ensures i in active
      ensures active[i] == if isNew then old(active[i]).(phase := Deciding)
                           else old(active[i]).(pos := old(active[i]).pos + 1)
      ensures Keeps(w, old(Now()), t, Now(), i, Prints(old(active[i]).work), {c.fingerprint}) && !Faulty(t, i)
      ensures isNew && Steady(w, old(Now()), t, i, Prints(old(active[i]).work)) ==> c.fingerprint !in old(claims)
    {
      ghost var s, fps := Now(), Prints(active[i].work);
      InPrints(active[i].work, active[i].pos);
      hide Run, Steady, DeliveryRuns.Prints, Faulty;
      ghost var u := Await(i);
      ghost var s1 := Now();
      ghost var up: bool;
      isNew, up := IsNew(c, i);
      AwaitedStep(w, s, u, s1, Claim(i, up), i, fps, {c.fingerprint});
      KeepsOthers(w, s, u, s1, i, fps);
      t := u + [Claim(i, up)];
    }

    /** The pre-LLM rules: a suppressed cluster is recorded and skipped. */
    method DecideCluster(c: Cluster, i: nat) returns (pre: RuleResult, ghost t: seq<Event>)
      requires Modelled() && IsAt(i, c, Deciding)
      modifies this
      ensures i in active && pre == PreResult(rules, c)
      ensures active[i] == if pre.suppressed then old(active[i]).(pos := old(active[i]).pos + 1, phase := Claiming)
                           else old(active[i]).(phase := Analysing)
      ensures Keeps(w, old(Now()), t, Now(), i, Prints(old(active[i]).work), {}) && !Faulty(t, i)
    {
      ghost var s, fps := Now(), Prints(active[i].work);
      hide Run, Steady, DeliveryRuns.Prints, Faulty;
      ghost var u := Await(i);
      ghost var s1 := Now();
      pre := PreResult(rules, c);
      if pre.suppressed {
        log := log + [Ended(c, Suppressed, None)];
        GoOn(i);
      } else {
        Goto(i, Analysing);
      }
      AwaitedStep(w, s, u, s1, Decide(i), i, fps, {});
      t := u + [Decide(i)];
    }

    /** Claim and pre-LLM rules: `go` means the cluster is to be analysed and notified. */
    method Begin(c: Cluster, i: nat) returns (go: bool, pre: RuleResult, ghost t: seq<Event>)
      requires Modelled() && IsAt(i, c, Claiming)
      modifies this
      ensures i in active
      ensures go ==> active[i] == old(active[i]).(phase := Analysing) && pre == PreResult(rules, c)
      ensures !go ==> active[i] == old(active[i]).(pos := old(active[i]).pos + 1)
      ensures Keeps(w, old(Now()), t, Now(), i, Prints(old(active[i]).work), {c.fingerprint}) && !Faulty(t, i)
      ensures go && Steady(w, old(Now()), t, i, Prints(old(active[i]).work)) ==> c.fingerprint !in old(claims)
    {
      ghost var s, fps := Now(), Prints(active[i].work);
      InPrints(active[i].work, active[i].pos);
      hide Run, Steady, DeliveryRuns.Prints, Keeps, Faulty;
      var isNew: bool;
      isNew, t := ClaimCluster(c, i);
      pre := PASS_THROUGH;
      if !isNew {
        return false, pre, t;
      }
      ghost var s1 := Now();
      ghost var u: seq<Event>;
      pre, u := DecideCluster(c, i);
      go := !pre.suppressed;
      KeepsOn(w, s, t, s1, u, Now(), i, fps, {c.fingerprint}, {}, {c.fingerprint});
      t := t + u;
    }

    /** Triage, then the model unless triage found the incident minor; a failing model still lets the notification
        out. */
    method Diagnose(c: Cluster, i: nat)
      returns (rejected: bool, analysis: Option<Analysis>, llmError: bool, degradedReason: bool,
               ghost triage: Triage, ghost llm: LlmAnswer, ghost t: seq<Event>)
      requires IsAt(i, c, Analysing)
      modifies this
      ensures Keeps(w, old(Now()), t, Now(), i, Prints(old(active[i]).work), {})
      ensures t != [] && t[|t| - 1] == Analyse(i, triage, llm) && OthersOnly(t[..|t| - 1], i)
      ensures rejected <==> triage.Rejects?
      ensures !rejected && triage.Low? ==> analysis.None? && !llmError && degradedReason
      ensures !rejected && !triage.Low? ==>
                match llm
                case Throws => analysis.None? && llmError && !degradedReason
                case Answers(x, reason) => analysis == x && !llmError && degradedReason == reason
      ensures rejected <==> Faulty(t, i)
      ensures rejected ==> i !in active && Members(old(active[i]).batch) <= waiting + settled
      ensures rejected ==> !Steady(w, old(Now()), t, i, Prints(old(active[i]).work)) && Left(c.fingerprint) in log
      ensures !rejected ==>
        i in active && active[i] == old(active[i]).(phase := Sending(analysis, llmError || degradedReason, 0))
    {
      ghost var s, fps := Now(), Prints(active[i].work);
      hide Run, Steady, DeliveryRuns.Prints, Faulty;
      ghost var u := Await(i);
      ghost var s1 := Now();
      var severity: Triage := *;
      var answer: LlmAnswer := *;
      triage, llm := severity, answer;
      ghost var e := Analyse(i, triage, llm);
      rejected, analysis, llmError, degradedReason := severity.Rejects?, None, false, false;
      if severity.Rejects? {
        log := log + [Left(c.fingerprint)];
        Throw(i);
      } else {
        if severity.Low? {
          degradedReason := true;
        } else {
          match answer
          case Throws => llmError := true;
          case Answers(a, reason) => analysis, degradedReason := a, reason;
        }
        Goto(i, Sending(analysis, llmError || degradedReason, 0));
      }
      AwaitedStep(w, s, u, s1, e, i, fps, {});
      t := u + [e];
      assert t[..|t| - 1] == u;
    }

    /** Post-LLM rules and notification; the sends are those of the plan. */
    method Conclude(c: Cluster, pre: RuleResult, analysis: Option<Analysis>, llmError: bool, degradedReason: bool,
        i: nat)
      returns (ok: bool, ghost t: seq<Event>)
      requires Modelled() && IsAt(i, c, Sending(analysis, llmError || degradedReason, 0)) && pre == PreResult(rules, c)
      modifies this
      ensures ok ==> i in active && active[i] == old(active[i]).(pos := old(active[i]).pos + 1, phase := Claiming)
      ensures ok ==> Keeps(w, old(Now()), t, Now(), i, Prints(old(active[i]).work), {})
      ensures !ok ==> Fell(w, old(Now()), t, Now(), i)
      ensures ok <==> !Faulty(t, i)
    {
      var preRoutes, preEscalations := CollectChannels(pre.actions);
      var post := PostResult(rules, c, analysis);
      var _, postEscalations := CollectChannels(post.actions);
      var primary := if preRoutes == [] then None else Some(preRoutes[0]);
      var channels := [primary] + Map((ch: string) => Some(ch), preEscalations + postEscalations);
      assert channels == Plan(rules, c, analysis);
      ok, t := Notify(c, analysis, llmError, degradedReason, channels, Tagged(c, post.tags), i);
    }

    /** One cluster from claim to outcome. */
    method ProcessCluster(c: Cluster, i: nat) returns (ok: bool, ghost t: seq<Event>)
      requires Modelled() && IsAt(i, c, Claiming)
      modifies this
      ensures if ok then Passed(w, old(Now()), i, t, Now(), 1) else Threw(w, old(Now()), i, t, Now(), 0)
    {
      ghost var s, v, fps, fp := Now(), active[i], Prints(active[i].work), {c.fingerprint};
      NextOne(v);
      hide Steady, DeliveryRuns.Prints, Faulty;
      var go, rejected: bool;
      var pre: RuleResult;
      go, pre, t := Begin(c, i);
      if !go {
        return true, t;
      }
      ghost var s1 := Now();
      var analysis: Option<Analysis>;
      var llmError, degradedReason: bool;
      ghost var triage: Triage, llm: LlmAnswer, u: seq<Event>;
      rejected, analysis, llmError, degradedReason, triage, llm, u := Diagnose(c, i);
      ghost var s2 := Now();
      KeepsOn(w, s, t, s1, u, s2, i, fps, fp, {}, fp);
      if rejected {
        KeepsLess(w, s, t + u, s2, i, fps, fp);
        return false, t + u;
      }
      ghost var rest: seq<Event>;
      ok, rest := Conclude(c, pre, analysis, llmError, degradedReason, i);
      if ok {
        KeepsOn(w, s, t + u, s2, rest, Now(), i, fps, fp, {}, fp);
      } else {
        FellAfterClaim(w, s, t + u, s2, rest, Now(), i, fps, c.fingerprint);
      }
      t := t + u + rest;
    }

    /** Ready to claim at its current position, which may be the end of the work. */
    ghost predicate Ready(i: nat)
      reads this
    {
      Modelled() && i in active && active[i].phase == Claiming && active[i].pos <= |active[i].work|
    }

    /** `execute`: group the alerts into clusters and process them in order; the first error goes up. */
    method Execute(alerts: seq<Alert>, i: nat) returns (threw: bool, ghost n: nat, ghost t: seq<Event>)
      requires Ready(i) && RestStarts(active[i], ClustersOf(keyOf, alerts))
      modifies this
      ensures
        if threw then Threw(w, old(Now()), i, t, Now(), n)
        else n == |ClustersOf(keyOf, alerts)| && Passed(w, old(Now()), i, t, Now(), n)
    {
      var clusters := BuildClusters(keyOf, alerts);
      threw, n, t := ProcessClusters(clusters, i);
    }

    method ProcessClusters(clusters: seq<Cluster>, i: nat) returns (threw: bool, ghost n: nat, ghost t: seq<Event>)
      requires Ready(i) && RestStarts(active[i], clusters)
      modifies this
      ensures
        if threw then Threw(w, old(Now()), i, t, Now(), n) else n == |clusters| && Passed(w, old(Now()), i, t, Now(), n)
    {
      ghost var s := Now();
      t := [];
      PassedNothing(w, s, i);
      hide Passed, Threw, RestStarts;
      for k := 0 to |clusters|
        invariant Passed(w, s, i, t, Now(), k)
      {
        NextCluster(w, s, i, t, Now(), k, clusters);
        ghost var s' := Now();
        var ok: bool;
        ghost var u: seq<Event>;
        ok, u := ProcessCluster(clusters[k], i);
        if !ok {
          PassedThenThrew(w, s, i, t, s', k, u, Now(), 0);
          return true, k, t + u;
        }
        PassedOn(w, s, i, t, s', k, u, Now(), 1);
        t := t + u;
      }
      threw, n := false, |clusters|;
    }

    /** The next record of the batch, `n0` clusters after the start `s`; a malformed one is skipped. */
    method HandleRecord(record: Record, i: nat, ghost s: State, ghost t0: seq<Event>, ghost n0: nat)
      returns (threw: bool, ghost n: nat, ghost t: seq<Event>)
      requires Modelled() && Passed(w, s, i, t0, Now(), n0) && RestFrom(s, i, n0, RecordClusters(keyOf, record))
      modifies this
      ensures if threw then Threw(w, s, i, t, Now(), n)
              else n == n0 + |RecordClusters(keyOf, record)| && Passed(w, s, i, t, Now(), n)
      ensures record.Malformed? ==> !threw && n == n0 && t == t0 && Now() == old(Now())
    {
      if record.Malformed? {
        return false, n0, t0;
      }
      hide Passed, Threw, ClustersOf, RestFrom;
      threw, n, t := HandleAlerts(record.alerts, i, s, t0, n0);
    }

    method HandleAlerts(alerts: seq<Alert>, i: nat, ghost s: State, ghost t0: seq<Event>, ghost n0: nat)
      returns (threw: bool, ghost n: nat, ghost t: seq<Event>)
      requires Modelled() && Passed(w, s, i, t0, Now(), n0) && RestFrom(s, i, n0, ClustersOf(keyOf, alerts))
      modifies this
      ensures if threw then Threw(w, s, i, t, Now(), n)
              else n == n0 + |ClustersOf(keyOf, alerts)| && Passed(w, s, i, t, Now(), n)
    {
      hide Passed, Threw, ClustersOf, RestStarts, RestFrom;
      ghost var s0 := Now();
      RestAfter(w, s, i, t0, s0, n0, ClustersOf(keyOf, alerts));
      ghost var m: nat, u: seq<Event>;
      threw, m, u := Execute(alerts, i);
      n, t := n0 + m, t0 + u;
      if threw {
        PassedThenThrew(w, s, i, t0, s0, n0, u, Now(), m);
      } else {
        PassedOn(w, s, i, t0, s0, n0, u, Now(), m);
      }
    }

    /** The batch handler: the first failing record ends the call. */
    method Handle(batch: seq<nat>, i: nat) returns (threw: bool, ghost n: nat, ghost t: seq<Event>)
      requires Ready(i) && active[i] == Invocation(batch, Flatten(w.queue, batch), 0, Claiming)
      requires forall m :: m in batch ==> m in records
      modifies this
      ensures if threw then Threw(w, old(Now()), i, t, Now(), n)
              else n == |old(active[i]).work| && Passed(w, old(Now()), i, t, Now(), n)
    {
      ghost var s := Now();
      t, n := [], 0;
      PassedNothing(w, s, i);
      assert |Flatten(w.queue, batch[..0])| == 0;
      hide Passed, Threw, Flatten, RestFrom, RecordClusters, Step, Run;
      for b := 0 to |batch|
        invariant Passed(w, s, i, t, Now(), n) && n == |Flatten(w.queue, batch[..b])|
      {
        RestOfBatch(w, s, i, batch, b);
        var record := records[batch[b]];
        assert w.queue[batch[b]] == RecordClusters(keyOf, record);
        assert n + |RecordClusters(keyOf, record)| == |Flatten(w.queue, batch[..b + 1])|;
        threw, n, t := HandleRecord(record, i, s, t, n);
        if threw {
          return;
        }
      }
      assert batch[..|batch|] == batch;
      threw := false;
    }

    /** One poll: receive the batch, handle it, and ask for its deletion only if the handler returned; the queue deletes
        what it likes of it. The handler throws exactly when a send or the triage failed it, and of the clusters of the
        batch `n` have been dealt with. A batch of malformed records cannot throw. */
    method ProcessBatch(batch: seq<nat>, i: nat)
      returns (threw: bool, deleted: set<nat>, ghost n: nat, ghost t: seq<Event>)
      requires Modelled() && i !in active && Members(batch) <= waiting && Members(batch) <= w.queue.Keys
      modifies this
      ensures Leads(w, old(Now()), t, Now()) && i !in active
      ensures threw <==> Faulty(t, i)
      ensures n <= |Flatten(w.queue, batch)| && (threw <==> n < |Flatten(w.queue, batch)|)
      ensures if threw then deleted == {} else t != [] && t[|t| - 1] == Return(i, deleted)
      ensures deleted <= Members(batch) * settled - waiting && Members(batch) <= waiting + settled
      ensures (forall m :: m in batch ==> records[m].Malformed?) ==> !threw
      ensures Polled(w, old(Now()), t, Now(), i, batch, n)
    {
      ghost var s := Now();
      waiting := waiting - Members(batch);
      active := active[i := Invocation(batch, Flatten(w.queue, batch), 0, Claiming)];
      ghost var begun := Now();
      assert Step(w, s, Receive(i, batch)) == begun;
      hide Run, Steady, DeliveryRuns.Prints, Polled, Keeps, Passed, Threw, Flatten, Faulty;
      ghost var u: seq<Event>;
      threw, n, u := Handle(batch, i);
      if forall m :: m in batch ==> records[m].Malformed? { MalformedOnly(w.queue, batch); }
      BatchHandled(w, s, i, batch, begun, u, Now(), n, threw);
      t, deleted := [Receive(i, batch)] + u, {};
      if !threw {
        ghost var s1 := Now();
        deleted, u := DeleteBatch(batch, i, s, t);
        t := t + u;
      }
    }

    /** The deletion: of the messages asked for, the queue deletes some, or none when the request fails. */
    method DeleteBatch(batch: seq<nat>, i: nat, ghost s: State, ghost t: seq<Event>)
      returns (deleted: set<nat>, ghost u: seq<Event>)
      requires i in active
      requires active[i] == Invocation(batch, Flatten(w.queue, batch), |Flatten(w.queue, batch)|, Claiming)
      requires Polled(w, s, t, Now(), i, batch, |Flatten(w.queue, batch)|)
      modifies this
      ensures Polled(w, s, t + u, Now(), i, batch, |Flatten(w.queue, batch)|) && Leads(w, s, t + u, Now())
      ensures i !in active && u != [] && u[|u| - 1] == Return(i, deleted) && (Faulty(t + u, i) <==> Faulty(t, i))
      ensures deleted <= Members(batch) * settled - waiting && Members(batch) <= waiting + settled
    {
      ghost var s1 := Now();
      ghost var others := Await(i);
      ghost var s2 := Now();
      var answered: set<nat> := *;
      deleted := answered * Members(batch);
      settled := settled + deleted;
      waiting := waiting - deleted + (Members(batch) - settled);
      active := active - {i};
      u := others + [Return(i, deleted)];
      hide Run, Steady, DeliveryRuns.Prints, Polled, Flatten, Faulty;
      assert Members(batch) * deleted == deleted;
      BatchEnded(w, s, i, batch, t, s1, others, s2, deleted, Now());
      assert t + u == t + others + [Return(i, deleted)];
    }

    /** A worker that polls again and again, taking what the queue hands out. */
    method Serve(polls: nat, i: nat) returns (ghost t: seq<Event>)
      requires Modelled() && Now() == Initial(w)
      modifies this
      ensures Leads(w, Initial(w), t, Now())
      ensures Outcomes.Drained(Now()) ==> AllDealtWith(w, Now())
    {
      t := [];
      LeadsNowhere(w, Now());
      for k := 0 to polls
        invariant Leads(w, Initial(w), t, Now()) && i !in active
      {
        ghost var s := Now();
        ghost var u := Await(i);
        LeadsOn(w, Initial(w), t, s, u, Now());
        t, s := t + u, Now();
        var batch: seq<nat> := *;
        WorkInvRun(w, t);
        if Members(batch) <= waiting {
          var threw: bool;
          var deleted: set<nat>;
          ghost var n: nat;
          threw, deleted, n, u := ProcessBatch(batch, i);
          LeadsOn(w, Initial(w), t, s, u, Now());
          t := t + u;
        }
      }
      EndsDealtWith(w, t);
    }

    /** Redelivery of a batch, whenever it is visible again, until it is deleted or the attempts run out; what comes
        back of a batch that was deleted in part is another batch. In a steady run the cluster at which an attempt fails
        never moves back. */
    method Redeliver(batch: seq<nat>, attempts: nat, i: nat)
      returns (done: bool, ghost failures: seq<nat>, ghost t: seq<Event>)
      requires Modelled() && i !in active && Members(batch) <= w.queue.Keys
      modifies this
      ensures Leads(w, old(Now()), t, Now()) && (done ==> Members(batch) <= settled)
      ensures Steady(w, old(Now()), t, i, Prints(Flatten(w.queue, batch))) ==>
                forall a, b :: 0 <= a < b < |failures| ==> failures[a] <= failures[b]
    {
      ghost var s, work, fps := Now(), Flatten(w.queue, batch), Prints(Flatten(w.queue, batch));
      t, failures, done := [], [], false;
      KeepsNothing(w, s, i, fps);
      for k := 0 to attempts
        invariant Leads(w, s, t, Now()) && i !in active && !done
        invariant Steady(w, s, t, i, fps) ==> NeverBack(work, failures, claims)
      {
        ghost var s1 := Now();
        ghost var u := Await(i);
        KeepsOthers(w, s1, u, Now(), i, fps);
        Resumed(w, s, t, s1, u, Now(), i, work, failures);
        t := t + u;
        if Members(batch) <= waiting {
          ghost var s2 := Now();
          var threw: bool;
          var deleted: set<nat>;
          ghost var n: nat, x: seq<Event>;
          threw, deleted, n, x := ProcessBatch(batch, i);
          Attempted(w, s, t, s2, x, Now(), i, batch, failures, n, threw);
          t := t + x;
          if threw {
            failures := failures + [n];
          }
          if Members(batch) <= settled {
            done := true;
            return;
          }
        }
      }
    }
  }
}
