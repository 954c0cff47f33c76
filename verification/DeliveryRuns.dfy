/** Runs of the delivery protocol that exist for every queue: a worker gets through its clusters, and the queue
    drains. */
module DeliveryRuns {
  import opened Prelude
  import opened Clustering
  import opened Delivery
  import opened Outcomes

  function Prints(cs: seq<Cluster>): set<string> {
    set c | c in cs :: c.fingerprint
  }

  /** No mishap is among the entries. */
  ghost predicate Harmless(u: seq<Entry>) {
    forall j :: 0 <= j < |u| ==> u[j].Sent? || u[j].Ended?
  }

  ghost predicate Silent(u: seq<Entry>, fp: string) {
    forall j :: 0 <= j < |u| ==> !Concerns(u[j], fp)
  }

  ghost predicate About(u: seq<Entry>, fp: string) {
    forall j :: 0 <= j < |u| ==> Concerns(u[j], fp)
  }

  lemma AboutOthers(u: seq<Entry>, f: string, fp: string)
    requires Harmless(u) && About(u, f) && f != fp
    ensures Silent(u, fp)
  {
    forall j | 0 <= j < |u| ensures !Concerns(u[j], fp) {
      assert Concerns(u[j], f);
    }
  }

  lemma {:induction false} SilentScan(p: Policy, log: seq<Entry>, u: seq<Entry>, fp: string)
    requires Silent(u, fp)
    ensures Scan(p, log + u, fp) == Scan(p, log, fp) && Completions(log + u, fp) == Completions(log, fp)
  {
    if u == [] {
      assert log + u == log;
    } else {
      var n := |u| - 1;
      SilentScan(p, log, u[..n], fp);
      assert (log + u)[..|log + u| - 1] == log + u[..n];
      assert !Concerns(u[n], fp);
    }
  }

  // ---------------------------------------------------------------- one cluster

  /** The protocol while a cluster's notes go out: `n` of them are sent and the log reads `log`. */
  function Notifying(s: State, i: nat, a: Option<Rules.Analysis>, d: bool, n: nat, log: seq<Entry>): State
    requires i in s.active
  {
    At(s, i, Sending(a, d, n)).(log := log)
  }

  lemma SendSteps(w: World, s: State, i: nat, a: Option<Rules.Analysis>, d: bool, n: nat, log: seq<Entry>)
    requires Working(s, i) && n < |w.policy.plan(Current(s, i), a)|
    ensures
      var c := Current(s, i);
      var notes := w.policy.plan(c, a);
      var sent := log + [Sent(c.fingerprint, notes[n])];
      && Step(w, Notifying(s, i, a, d, n, log), Send(i, false)) == At(s, i, Releasing).(log := log)
      && Step(w, Notifying(s, i, a, d, n, log), Send(i, true))
         == if n + 1 < |notes| then Notifying(s, i, a, d, n + 1, sent)
            else Delivery.Past(s, i).(log := sent + [Ended(c, if d then Degraded else Outcome.Success, a)])
  {}

  /** The remaining sends succeed. */
  lemma {:induction false} SendRest(w: World, s: State, i: nat, a: Option<Rules.Analysis>, d: bool, n: nat,
      log: seq<Entry>)
    returns (t: seq<Event>, u: seq<Entry>)
    requires Working(s, i) && n < |w.policy.plan(Current(s, i), a)|
    ensures Leads(w, Notifying(s, i, a, d, n, log), t, Delivery.Past(s, i).(log := log + u))
    ensures Harmless(u) && About(u, Current(s, i).fingerprint)
    decreases |w.policy.plan(Current(s, i), a)| - n
  {
    hide Step, Run;
    var c := Current(s, i);
    var notes := w.policy.plan(c, a);
    SendSteps(w, s, i, a, d, n, log);
    var one := [Sent(c.fingerprint, notes[n])];
    LeadsOne(w, Notifying(s, i, a, d, n, log), Send(i, true));
    if n + 1 < |notes| {
      var t', u' := SendRest(w, s, i, a, d, n + 1, log + one);
      LeadsOn(w, Notifying(s, i, a, d, n, log), [Send(i, true)], Notifying(s, i, a, d, n + 1, log + one), t',
              Delivery.Past(s, i).(log := log + one + u'));
      t, u := [Send(i, true)] + t', one + u';
      Associative(log, one, u');
    } else {
      var ended := [Ended(c, if d then Degraded else Outcome.Success, a)];
      t, u := [Send(i, true)], one + ended;
      Associative(log, one, ended);
    }
  }

  /** The invocation deals with its cluster without any mishap. */
  lemma PassOne(w: World, s: State, i: nat) returns (t: seq<Event>, u: seq<Entry>)
    requires Working(s, i) && s.active[i].phase == Claiming
    ensures
      var fp := Current(s, i).fingerprint;
      Leads(w, s, t, Delivery.Past(s, i).(claims := s.claims + {fp}, log := s.log + u))
      && Harmless(u) && About(u, fp) && (fp in s.claims ==> u == [])
  {
    var c := Current(s, i);
    var fp := c.fingerprint;
    LeadsOne(w, s, Claim(i, true));
    if fp in s.claims {
      t, u := [Claim(i, true)], [];
      assert s.claims + {fp} == s.claims && s.log + [] == s.log;
    } else {
      var s1 := At(s, i, Deciding).(claims := s.claims + {fp});
      LeadsStep(w, s, [Claim(i, true)], s1, Decide(i));
      t := [Claim(i, true)] + [Decide(i)];
      if w.policy.suppresses(c) {
        u := [Ended(c, Suppressed, None)];
      } else {
        var t', u' := PassUnsuppressed(w, s, i);
        assert At(s1, i, Analysing) == At(s.(claims := s.claims + {fp}), i, Analysing);
        LeadsOn(w, s, t, At(s1, i, Analysing), t', Delivery.Past(s, i).(claims := s.claims + {fp}, log := s.log + u'));
        t, u := t + t', u';
      }
    }
  }

  lemma PassUnsuppressed(w: World, s: State, i: nat) returns (t: seq<Event>, u: seq<Entry>)
    requires Working(s, i) && !w.policy.suppresses(Current(s, i))
    ensures
      var claims := s.claims + {Current(s, i).fingerprint};
      Leads(w, At(s.(claims := claims), i, Analysing), t, Delivery.Past(s, i).(claims := claims, log := s.log + u))
      && Harmless(u) && About(u, Current(s, i).fingerprint)
  {
    var claims := s.claims + {Current(s, i).fingerprint};
    var s0 := s.(claims := claims);
    var start := At(s0, i, Analysing);
    var e := Analyse(i, NoTriage, Throws);
    LeadsOne(w, start, e);
    assert Step(w, start, e) == Notifying(s0, i, None, true, 0, s.log);
    var t', u' := SendRest(w, s0, i, None, true, 0, s.log);
    LeadsOn(w, start, [e], Notifying(s0, i, None, true, 0, s.log), t', Delivery.Past(s0, i).(log := s.log + u'));
    t, u := [e] + t', u';
  }

  // ---------------------------------------------------------------- many clusters, many messages

  /** The invocations after `i` has moved on by `n` clusters. */
  function Advanced(s: State, i: nat, n: nat): map<nat, Invocation>
    requires i in s.active
  {
    s.active[i := s.active[i].(pos := s.active[i].pos + n)]
  }

  lemma PrintsSnoc(work: seq<Cluster>, a: nat, n: nat, fp: string)
    requires a + n < |work|
    ensures Prints(work[a..a + n + 1]) == Prints(work[a..a + n]) + {work[a + n].fingerprint}
    ensures Contains(work[a..a + n], fp) || work[a + n].fingerprint == fp ==> Contains(work[a..a + n + 1], fp)
  {
    var x, y := work[a..a + n + 1], work[a..a + n];
    assert x == y + [work[a + n]];
    if k :| 0 <= k < |y| && y[k].fingerprint == fp {
      assert x[k].fingerprint == fp;
    }
    assert x[n] == work[a + n];
  }

  /** The state once `i` has passed `n` more clusters, with `u` logged meanwhile. */
  function Further(s: State, i: nat, n: nat, u: seq<Entry>): State
    requires i in s.active && s.active[i].pos + n <= |s.active[i].work|
  {
    var v := s.active[i];
    s.(active := Advanced(s, i, n), claims := s.claims + Prints(v.work[v.pos..v.pos + n]), log := s.log + u)
  }

  lemma AdvancedOnce(s: State, s': State, i: nat, n: nat)
    requires i in s.active && s.active[i].phase == Claiming && s'.active == Advanced(s, i, n)
    ensures s'.active[i] == s.active[i].(pos := s.active[i].pos + n)
    ensures Delivery.Past(s', i).active == Advanced(s, i, n + 1)
  {
  }

  lemma FurtherOne(s: State, i: nat, n: nat, u: seq<Entry>, u': seq<Entry>)
    requires i in s.active && s.active[i].phase == Claiming && s.active[i].pos + n < |s.active[i].work|
    ensures
      var s' := Further(s, i, n, u);
      && Working(s', i) && s'.active[i] == s.active[i].(pos := s.active[i].pos + n)
      && Current(s', i) == s.active[i].work[s.active[i].pos + n] && s.claims <= s'.claims
      && Delivery.Past(s', i).(claims := s'.claims + {Current(s', i).fingerprint}, log := s'.log + u')
         == Further(s, i, n + 1, u + u')
  {
    var v := s.active[i];
    AdvancedOnce(s, Further(s, i, n, u), i, n);
    PrintsSnoc(v.work, v.pos, n, "");
    hide Prints, Advanced, Contains;
    Associative(s.log, u, u');
    Union(s.claims, Prints(v.work[v.pos..v.pos + n]), {v.work[v.pos + n].fingerprint});
  }

  lemma Union(a: set<string>, b: set<string>, c: set<string>)
    ensures a + b + c == a + (b + c)
  {
  }

  lemma PassNone(w: World, s: State, i: nat)
    requires i in s.active && s.active[i].pos <= |s.active[i].work|
    ensures Leads(w, s, [], Further(s, i, 0, []))
  {
    assert s.claims + Prints([]) == s.claims && s.log + [] == s.log && Advanced(s, i, 0) == s.active;
  }

  /** The fingerprint is among the next `n` clusters. */
  predicate Meets(v: Invocation, n: nat, fp: string)
    requires v.pos + n <= |v.work|
  {
    Contains(v.work[v.pos..v.pos + n], fp)
  }

  lemma HarmlessPlus(u: seq<Entry>, u': seq<Entry>)
    requires Harmless(u) && Harmless(u')
    ensures Harmless(u + u')
  {
  }

  lemma PassedSilently(s: State, i: nat, n: nat, fp: string, u: seq<Entry>, u': seq<Entry>)
    requires i in s.active && s.active[i].pos + n < |s.active[i].work| && Harmless(u) && Harmless(u')
    requires fp in s.claims || !Meets(s.active[i], n, fp) ==> Silent(u, fp)
    requires About(u', s.active[i].work[s.active[i].pos + n].fingerprint)
    requires s.active[i].work[s.active[i].pos + n].fingerprint in s.claims ==> u' == []
    ensures fp in s.claims || !Meets(s.active[i], n + 1, fp) ==> Silent(u + u', fp)
  {
    var v := s.active[i];
    var f := v.work[v.pos + n].fingerprint;
    PrintsSnoc(v.work, v.pos, n, fp);
    if f != fp { AboutOthers(u', f, fp); }
  }

  lemma PassNext(w: World, s: State, i: nat, n: nat, fp: string, t: seq<Event>, u: seq<Entry>)
    returns (t': seq<Event>, u': seq<Entry>)
    requires i in s.active && s.active[i].phase == Claiming && s.active[i].pos + n < |s.active[i].work|
    requires Leads(w, s, t, Further(s, i, n, u)) && Harmless(u)
    requires fp in s.claims || !Meets(s.active[i], n, fp) ==> Silent(u, fp)
    ensures Leads(w, s, t + t', Further(s, i, n + 1, u + u')) && Harmless(u + u')
    ensures fp in s.claims || !Meets(s.active[i], n + 1, fp) ==> Silent(u + u', fp)
  {
    hide Run, Step, Leads, Advanced, Further, Meets, Harmless, About, Silent, Delivery.Past;
    var s1 := Further(s, i, n, u);
    FurtherOne(s, i, n, u, []);
    t', u' := PassOne(w, s1, i);
    FurtherOne(s, i, n, u, u');
    LeadsOn(w, s, t, s1, t', Further(s, i, n + 1, u + u'));
    HarmlessPlus(u, u');
    PassedSilently(s, i, n, fp, u, u');
  }

  lemma {:induction false} PassMany(w: World, s: State, i: nat, n: nat, fp: string)
    returns (t: seq<Event>, u: seq<Entry>)
    requires i in s.active && s.active[i].phase == Claiming && s.active[i].pos + n <= |s.active[i].work|
    ensures Leads(w, s, t, Further(s, i, n, u)) && Harmless(u)
    ensures fp in s.claims || !Meets(s.active[i], n, fp) ==> Silent(u, fp)
  {
    hide Run, Step, Leads, Advanced, Further, Meets;
    if n == 0 {
      PassNone(w, s, i);
      t, u := [], [];
    } else {
      var t1, u1 := PassMany(w, s, i, n - 1, fp);
      var t2, u2 := PassNext(w, s, i, n - 1, fp, t1, u1);
      t, u := t1 + t2, u1 + u2;
    }
  }

  /** One worker takes one message and gets through it. */
  lemma TakeMessage(w: World, s: State, b: nat, m: nat, fp: string)
    returns (t: seq<Event>, u: seq<Entry>, claims: set<string>)
    requires b !in s.active && m in s.waiting && m in w.queue
    ensures Leads(w, s, t, State(s.waiting - {m}, s.settled + {m}, s.active, claims, s.log + u))
    ensures s.claims <= claims && Harmless(u) && (fp in s.claims ==> Silent(u, fp))
  {
    var s1 := Taken(w, s, b, m);
    TakenSteps(w, s, b, m);
    hide Run, Step, Prints;
    var n := |w.queue[m]|;
    var t1: seq<Event>;
    t1, u := PassMany(w, s1, b, n, fp);
    var s2 := Further(s1, b, n, u);
    claims := s2.claims;
    TakenEnds(w, s, b, m, u);
    LeadsOn(w, s, [Receive(b, [m])], s1, t1, s2);
    LeadsStep(w, s, [Receive(b, [m])] + t1, s2, Return(b, {m}));
    t := [Receive(b, [m])] + t1 + [Return(b, {m})];
  }

  function Taken(w: World, s: State, b: nat, m: nat): State
    requires m in w.queue
  {
    s.(waiting := s.waiting - {m}, active := s.active[b := Invocation([m], w.queue[m], 0, Claiming)])
  }

  lemma TakenSteps(w: World, s: State, b: nat, m: nat)
    requires b !in s.active && m in s.waiting && m in w.queue
    ensures Leads(w, s, [Receive(b, [m])], Taken(w, s, b, m))
  {
    SingleMessage(w.queue, m);
    LeadsOne(w, s, Receive(b, [m]));
  }

  lemma TakenEnds(w: World, s: State, b: nat, m: nat, u: seq<Entry>)
    requires b !in s.active && m in s.waiting && m in w.queue
    ensures
      var s2 := Further(Taken(w, s, b, m), b, |w.queue[m]|, u);
      Step(w, s2, Return(b, {m})) == State(s.waiting - {m}, s.settled + {m}, s.active, s2.claims, s.log + u)
  {
    hide Prints;
    SingleMessage(w.queue, m);
    var s2 := Further(Taken(w, s, b, m), b, |w.queue[m]|, u);
    assert s2.active[b].pos == |s2.active[b].work|;
    assert s2.active - {b} == s.active;
    assert s.waiting - {m} - {m} == s.waiting - {m};
  }

  lemma SingleMessage(queue: map<nat, seq<Cluster>>, m: nat)
    requires m in queue
    ensures Members([m]) == {m} && Flatten(queue, [m]) == queue[m]
  {
    assert [m][..0] == [];
    assert [] + queue[m] == queue[m];
  }

  /** Every queue can be drained by one worker, and a fingerprint that is claimed already is left alone meanwhile. */
  lemma {:induction false} DrainAll(w: World, s: State, b: nat, fp: string)
    returns (t: seq<Event>, u: seq<Entry>, claims: set<string>)
    requires b !in s.active && s.waiting <= w.queue.Keys
    ensures Leads(w, s, t, State({}, s.settled + s.waiting, s.active, claims, s.log + u))
    ensures s.claims <= claims && Harmless(u) && (fp in s.claims ==> Silent(u, fp))
    decreases |s.waiting|
  {
    if s.waiting == {} {
      t, u, claims := [], [], s.claims;
      LeadsNowhere(w, s);
      assert s.settled + s.waiting == s.settled && s.log + [] == s.log;
    } else {
      var m :| m in s.waiting;
      var t1, u1, claims1 := TakeMessage(w, s, b, m, fp);
      var s1 := State(s.waiting - {m}, s.settled + {m}, s.active, claims1, s.log + u1);
      var t2, u2;
      t2, u2, claims := DrainAll(w, s1, b, fp);
      var s2 := State({}, s.settled + s.waiting, s.active, claims, s.log + (u1 + u2));
      assert s1.settled + s1.waiting == s.settled + s.waiting;
      Associative(s.log, u1, u2);
      LeadsOn(w, s, t1, s1, t2, s2);
      t, u := t1 + t2, u1 + u2;
    }
  }

  // ---------------------------------------------------------------- a worker holds the claim

  /** Cluster `k` is the first of message `m` for the fingerprint. */
  ghost predicate First(w: World, m: nat, k: nat, fp: string) {
    m in w.queue && k < |w.queue[m]| && w.queue[m][k].fingerprint == fp && !Contains(w.queue[m][..k], fp)
  }

  /** Worker 0 has message `m` and works on cluster `k`, whose claim it holds; nothing is known of it otherwise. */
  ghost predicate Held(w: World, m: nat, k: nat, fp: string, s: State, phase: Phase) {
    && First(w, m, k, fp)
    && s.waiting == w.queue.Keys - {m} && s.settled == {}
    && s.active == map[0 := Invocation([m], w.queue[m], k, phase)]
    && fp in s.claims && Harmless(s.log) && Silent(s.log, fp)
  }

  lemma ReachCluster(w: World, m: nat, k: nat, fp: string) returns (t: seq<Event>, s: State)
    requires First(w, m, k, fp)
    ensures Leads(w, Initial(w), t, s) && s.waiting == w.queue.Keys - {m} && s.settled == {} && fp !in s.claims
    ensures s.active == map[0 := Invocation([m], w.queue[m], k, Claiming)] && Harmless(s.log) && Silent(s.log, fp)
  {
    var s0 := Initial(w);
    var s1 := Taken(w, s0, 0, m);
    TakenSteps(w, s0, 0, m);
    hide Run, Step;
    var t1, u := PassMany(w, s1, 0, k, fp);
    PrintsContains(w.queue[m][..k], fp);
    assert w.queue[m][0..0 + k] == w.queue[m][..k];
    s := Further(s1, 0, k, u);
    LeadsOn(w, s0, [Receive(0, [m])], s1, t1, s);
    t := [Receive(0, [m])] + t1;
    assert [] + u == u;
  }

  lemma ReachClaim(w: World, m: nat, k: nat, fp: string) returns (t: seq<Event>, s: State)
    requires First(w, m, k, fp)
    ensures Leads(w, Initial(w), t, s) && Held(w, m, k, fp, s, Deciding)
  {
    var t1, s1 := ReachCluster(w, m, k, fp);
    LeadsStep(w, Initial(w), t1, s1, Claim(0, true));
    t, s := t1 + [Claim(0, true)], Step(w, s1, Claim(0, true));
    hide Run, Harmless, Silent, Contains;
    assert s.log == s1.log && s.claims == s1.claims + {fp};
  }

  lemma PrintsContains(cs: seq<Cluster>, fp: string)
    ensures fp in Prints(cs) <==> Contains(cs, fp)
  {
    if fp in Prints(cs) {
      var c :| c in cs && c.fingerprint == fp;
    }
    if k :| 0 <= k < |cs| && cs[k].fingerprint == fp {
      assert cs[k] in cs;
    }
  }
}
