/** The delivery protocol over a real store: claims are entries with an expiry, and the clock runs while the workers are
    at it. The store guards a fingerprint exactly as long as every run is done before its own claim expires. */
module StoredClaims {
  import opened Delivery
  import Dedup
  import Outcomes

  /** The world, the store, and the window in seconds that every claim asks for. */
  datatype Setup = Setup(w: World, kind: Dedup.Kind, ttl: int)

  /** The configuration admits positive windows only. */
  type Windowed = u: Setup | u.ttl > 0
    witness Setup(World(Policy(_ => false, (_, _) => [ANY_NOTE]), map[]), Dedup.InMemory, 1)

  /** `began`: when an invocation made the claim it made last. */
  datatype Stored = Stored(
    waiting: set<nat>,
    settled: set<nat>,
    active: map<nat, Invocation>,
    log: seq<Entry>,
    table: map<string, int>,
    began: map<nat, int>,
    now: int
  )

  /** The protocol's view: what is claimed is what the store shows at this time. */
  ghost function View(u: Setup, x: Stored): State {
    State(x.waiting, x.settled, x.active, Dedup.Claims(u.kind, x.table, x.now), x.log)
  }

  function Start(u: Setup, now: int): Stored {
    Stored(u.w.queue.Keys, {}, map[], [], map[], map[], now)
  }

  /** A step of an invocation or of the queue, a moment that passes, or the store's own deletion of expired entries. */
  datatype Move =
    | Act(e: Event)
    | Tick(millis: nat)
    | Sweep(victims: set<string>)

  /** Invocation `i` is about to claim. */
  predicate AboutToClaim(s: State, i: nat) {
    Working(s, i) && s.active[i].phase.Claiming?
  }

  /** What the step asks of the store. */
  ghost function TableAfter(u: Setup, x: Stored, e: Event): map<string, int> {
    var s := View(u, x);
    match e
    case Claim(i, up) =>
      if !AboutToClaim(s, i) then x.table
      else
        var fp := Current(s, i).fingerprint;
        Dedup.Apply(u.kind, x.table, if up then Dedup.IsNew(fp, u.ttl, x.now) else Dedup.Outage(fp, x.now))
    case Release(i, ok) =>
      if !ok || !Working(s, i) || !s.active[i].phase.Releasing? then x.table
      else Dedup.Apply(u.kind, x.table, Dedup.Reset(Current(s, i).fingerprint, x.now))
    case _ => x.table
  }

  /** The claims that ran out, one after the other. */
  ghost function Lapse(w: World, s: State, fps: set<string>): State
    decreases |fps|
  {
    if fps == {} then s else var fp :| fp in fps; Lapse(w, Step(w, s, Expire(fp)), fps - {fp})
  }

  ghost function Next(u: Setup, x: Stored, m: Move): Stored {
    match m
    case Act(e) =>
      if e.Expire? then x
      else
        var s := Step(u.w, View(u, x), e);
        Stored(s.waiting, s.settled, s.active, s.log, TableAfter(u, x, e),
               if e.Claim? && AboutToClaim(View(u, x), e.i) then x.began[e.i := x.now] else x.began, x.now)
    case Tick(millis) =>
      var later := x.(now := x.now + millis);
      later.(log := Lapse(u.w, View(u, x), View(u, x).claims - View(u, later).claims).log)
    case Sweep(victims) => x.(table := Dedup.Apply(u.kind, x.table, Dedup.Sweep(victims, x.now)))
  }

  ghost function Reach(u: Setup, start: int, moves: seq<Move>): Stored {
    if moves == [] then Start(u, start)
    else Next(u, Reach(u, start, moves[..|moves| - 1]), moves[|moves| - 1])
  }

  // ---------------------------------------------------------------- the store refines the set of claims

  lemma ExpireEntry(w: World, s: State, fp: string)
    requires fp in s.claims
    ensures Step(w, s, Expire(fp))
         == s.(claims := s.claims - {fp}, log := s.log + [if Owned(s, fp) then Unguarded(fp) else Expired(fp)])
  {
  }

  lemma SameOwners(s: State, s': State, fp: string)
    requires s'.active == s.active
    ensures Owned(s', fp) <==> Owned(s, fp)
  {
    assert forall i :: Owns(s', i, fp) <==> Owns(s, i, fp);
  }

  lemma {:induction false} LapseShape(w: World, s: State, fps: set<string>)
    requires fps <= s.claims
    ensures var s' := Lapse(w, s, fps); s' == s.(claims := s.claims - fps, log := s'.log) && s.log <= s'.log
    decreases |fps|
  {
    if fps == {} {
      assert s.claims - fps == s.claims;
    } else {
      var fp :| fp in fps && Lapse(w, s, fps) == Lapse(w, Step(w, s, Expire(fp)), fps - {fp});
      ExpireEntry(w, s, fp);
      hide Step, Owns, Owned, Lapse;
      LapseShape(w, Step(w, s, Expire(fp)), fps - {fp});
      assert s.claims - {fp} - (fps - {fp}) == s.claims - fps;
    }
  }

  /** Claims that run out with a run still at work are not guarded. */
  lemma {:induction false} LapseUnguarded(w: World, s: State, fps: set<string>, fp: string)
    requires fps <= s.claims
    ensures Unguarded(fp) in Lapse(w, s, fps).log <==> Unguarded(fp) in s.log || (fp in fps && Owned(s, fp))
    decreases |fps|
  {
    if fps != {} {
      var f :| f in fps && Lapse(w, s, fps) == Lapse(w, Step(w, s, Expire(f)), fps - {f});
      ExpireEntry(w, s, f);
      SameOwners(s, Step(w, s, Expire(f)), fp);
      hide Step, Owns, Owned, Lapse;
      LapseUnguarded(w, Step(w, s, Expire(f)), fps - {f}, fp);
    }
  }

  /** Claims that run out are expiries of the protocol. */
  lemma {:induction false} LapseLeads(w: World, s: State, fps: set<string>) returns (t: seq<Event>)
    ensures Leads(w, s, t, Lapse(w, s, fps))
    decreases |fps|
  {
    if fps == {} {
      LeadsNowhere(w, s);
      t := [];
    } else {
      var fp :| fp in fps && Lapse(w, s, fps) == Lapse(w, Step(w, s, Expire(fp)), fps - {fp});
      hide Step, Run;
      LeadsOne(w, s, Expire(fp));
      var t' := LapseLeads(w, Step(w, s, Expire(fp)), fps - {fp});
      LeadsOn(w, s, [Expire(fp)], Step(w, s, Expire(fp)), t', Lapse(w, s, fps));
      t := [Expire(fp)] + t';
    }
  }

  /** What the store keeps after a step is what the protocol has claimed, and the run goes on exactly if the store
      answers that the claim is new. */
  lemma ActRefines(u: Windowed, x: Stored, e: Event)
    requires !e.Expire?
    ensures View(u, Next(u, x, Act(e))) == Step(u.w, View(u, x), e)
    ensures e.Claim? && e.storeUp && AboutToClaim(View(u, x), e.i) ==>
      var op := Dedup.IsNew(Current(View(u, x), e.i).fingerprint, u.ttl, x.now);
      && e.i in Next(u, x, Act(e)).active
      && Dedup.Answers(u.kind, x.table, [op])
         == if Next(u, x, Act(e)).active[e.i].phase.Deciding? then [true] else [false]
  {
    var s := View(u, x);
    if (e.Claim? && AboutToClaim(s, e.i)) || (e.Release? && Working(s, e.i)) {
      Dedup.StoreAsClaims(u.kind, x.table, Current(s, e.i).fingerprint, u.ttl, x.now, x.now);
    }
  }

  /** Every move over the real store is a run of the protocol. */
  lemma Refines(u: Windowed, x: Stored, m: Move) returns (t: seq<Event>)
    ensures Leads(u.w, View(u, x), t, View(u, Next(u, x, m)))
  {
    t := [];
    LeadsNowhere(u.w, View(u, x));
    match m
    case Act(e) =>
      if !e.Expire? {
        ActRefines(u, x, e);
        LeadsOne(u.w, View(u, x), e);
        t := [e];
      }
    case Tick(millis) =>
      var later := x.(now := x.now + millis);
      var gone := View(u, x).claims - View(u, later).claims;
      Dedup.StoreAsClaims(u.kind, x.table, "", u.ttl, x.now, later.now);
      LapseShape(u.w, View(u, x), gone);
      t := LapseLeads(u.w, View(u, x), gone);
      assert View(u, x).claims - gone == View(u, later).claims;
    case Sweep(victims) =>
      assert View(u, Next(u, x, m)).claims == View(u, x).claims;
  }

  lemma {:induction false} ReachRefines(u: Windowed, start: int, moves: seq<Move>) returns (t: seq<Event>)
    ensures Leads(u.w, Initial(u.w), t, View(u, Reach(u, start, moves)))
  {
    if moves == [] {
      t := [];
      assert View(u, Start(u, start)) == Initial(u.w);
    } else {
      var n := |moves| - 1;
      var x := Reach(u, start, moves[..n]);
      t := ReachRefines(u, start, moves[..n]);
      var t' := Refines(u, x, moves[n]);
      LeadsOn(u.w, Initial(u.w), t, View(u, x), t', View(u, Next(u, x, moves[n])));
      t := t + t';
    }
  }

  lemma ClaimInvReach(u: Windowed, start: int, moves: seq<Move>, fp: string)
    requires Guarded(Reach(u, start, moves).log, fp)
    ensures ClaimInv(u.w, View(u, Reach(u, start, moves)), fp)
  {
    var t := ReachRefines(u, start, moves);
    ClaimInvRun(u.w, t, fp);
  }

  // ---------------------------------------------------------------- when the store guards a fingerprint

  /** The entry under which a run works is the one it made. */
  ghost predicate OwnEntry(u: Setup, x: Stored, fp: string) {
    forall i :: Owns(View(u, x), i, fp) ==> HasEntry(u, x, i, fp)
  }

  ghost predicate HasEntry(u: Setup, x: Stored, i: nat, fp: string) {
    && i in x.began && x.began[i] <= x.now
    && fp in x.table && x.table[fp] == Dedup.Stamp(u.kind, x.began[i], u.ttl)
  }

  /** No run is at work for the fingerprint beyond the expiry of its claim. */
  ghost predicate Prompt(u: Setup, x: Stored, fp: string) {
    forall i :: Owns(View(u, x), i, fp) && i in x.began ==> x.now < Dedup.Release(u.kind, x.began[i], u.ttl)
  }

  /** The move is a claim of the fingerprint while the store is unreachable. */
  ghost predicate Outage(u: Setup, x: Stored, m: Move, fp: string) {
    && m.Act? && m.e.Claim? && !m.e.storeUp && AboutToClaim(View(u, x), m.e.i)
    && Current(View(u, x), m.e.i).fingerprint == fp
  }

  /** Whenever the fingerprint was claimed the store could be reached, and at every moment every run was prompt. */
  ghost predicate InTime(u: Setup, start: int, moves: seq<Move>, fp: string) {
    moves == [] ||
    var n := |moves| - 1;
    && InTime(u, start, moves[..n], fp) && !Outage(u, Reach(u, start, moves[..n]), moves[n], fp)
    && Prompt(u, Reach(u, start, moves), fp)
  }

  /** What one move writes about a fingerprint: an outage, or an expiry under a run. */
  lemma UnguardedMove(u: Windowed, x: Stored, m: Move, fp: string)
    ensures x.log <= Next(u, x, m).log
    ensures Guarded(Next(u, x, m).log, fp) <==>
      && Guarded(x.log, fp) && !Outage(u, x, m, fp)
      && !(m.Tick? && Owned(View(u, x), fp) && fp in View(u, x).claims && fp !in View(u, Next(u, x, m)).claims)
  {
    match m
    case Act(e) =>
      LogGrows(u.w, View(u, x), e);
      Outcomes.StepEntries(u.w, View(u, x), e, fp);
    case Tick(millis) =>
      var later := x.(now := x.now + millis);
      var gone := View(u, x).claims - View(u, later).claims;
      LapseShape(u.w, View(u, x), gone);
      LapseUnguarded(u.w, View(u, x), gone, fp);
    case Sweep(_) =>
  }

  lemma OwnEntryClaim(u: Windowed, x: Stored, e: Event, fp: string)
    requires e.Claim? && AboutToClaim(View(u, x), e.i) && OwnEntry(u, x, fp) && ClaimInv(u.w, View(u, x), fp)
    requires Guarded(Next(u, x, Act(e)).log, fp)
    ensures OwnEntry(u, Next(u, x, Act(e)), fp)
  {
    hide Scan;
    var s, x' := View(u, x), Next(u, x, Act(e));
    UnguardedMove(u, x, Act(e), fp);
    forall i | Owns(View(u, x'), i, fp) ensures HasEntry(u, x', i, fp) {
      if i != e.i {
        OwnersElsewhere(u.w, s, e.i, e, i, fp);
        assert Owns(s, i, fp);
      }
    }
  }

  lemma OwnEntryAct(u: Windowed, x: Stored, e: Event, fp: string)
    requires !e.Expire? && OwnEntry(u, x, fp) && ClaimInv(u.w, View(u, x), fp)
    requires Guarded(Next(u, x, Act(e)).log, fp)
    ensures OwnEntry(u, Next(u, x, Act(e)), fp)
  {
    hide Scan;
    var s, x' := View(u, x), Next(u, x, Act(e));
    if e.Claim? && AboutToClaim(s, e.i) {
      OwnEntryClaim(u, x, e, fp);
    } else if e.Release? && e.ok && Working(s, e.i) && s.active[e.i].phase.Releasing?
        && Current(s, e.i).fingerprint == fp {
      assert Owns(s, e.i, fp);
      forall i ensures !Owns(View(u, x'), i, fp) {
        if i != e.i { OwnersElsewhere(u.w, s, e.i, e, i, fp); }
      }
    } else {
      forall i | Owns(View(u, x'), i, fp) ensures HasEntry(u, x', i, fp) {
        OwnedBefore(u.w, s, e, i, fp);
      }
    }
  }

  /** Whoever owns a fingerprint and has not just claimed it owned it before. */
  lemma OwnedBefore(w: World, s: State, e: Event, i: nat, fp: string)
    requires Owns(Step(w, s, e), i, fp) && !(e.Claim? && AboutToClaim(s, e.i))
    ensures Owns(s, i, fp)
  {
  }

  /** Time and the sweeper leave the entry of a run at work alone. */
  lemma OwnEntryPassing(u: Windowed, x: Stored, m: Move, fp: string)
    requires !m.Act? || m.e.Expire?
    requires OwnEntry(u, x, fp) && ClaimInv(u.w, View(u, x), fp)
    ensures OwnEntry(u, Next(u, x, m), fp)
  {
    hide Scan, Step, Lapse;
    var x' := Next(u, x, m);
    forall i | Owns(View(u, x'), i, fp) ensures HasEntry(u, x', i, fp) {
      assert Owns(View(u, x), i, fp);
      assert fp in View(u, x).claims;
    }
  }

  lemma {:induction false} OwnEntryReach(u: Windowed, start: int, moves: seq<Move>, fp: string)
    requires Guarded(Reach(u, start, moves).log, fp)
    ensures OwnEntry(u, Reach(u, start, moves), fp)
  {
    if moves != [] {
      var n := |moves| - 1;
      var x, m := Reach(u, start, moves[..n]), moves[n];
      UnguardedMove(u, x, m, fp);
      OwnEntryReach(u, start, moves[..n], fp);
      ClaimInvReach(u, start, moves[..n], fp);
      if m.Act? && !m.e.Expire? {
        OwnEntryAct(u, x, m.e, fp);
      } else {
        OwnEntryPassing(u, x, m, fp);
      }
    }
  }

  /** In a guarded run every owner is prompt: its claim is in the store, under its own entry. */
  lemma GuardedPrompt(u: Windowed, start: int, moves: seq<Move>, fp: string)
    requires Guarded(Reach(u, start, moves).log, fp)
    ensures Prompt(u, Reach(u, start, moves), fp)
  {
    var x := Reach(u, start, moves);
    OwnEntryReach(u, start, moves, fp);
    ClaimInvReach(u, start, moves, fp);
    forall i | Owns(View(u, x), i, fp) && i in x.began ensures x.now < Dedup.Release(u.kind, x.began[i], u.ttl) {
      Dedup.SuppressionWindow(u.kind, x.began[i], u.ttl, x.now);
    }
  }

  /** A claim does not run out under a run that is prompt. */
  lemma PromptTick(u: Windowed, x: Stored, millis: nat, fp: string)
    requires OwnEntry(u, x, fp) && Prompt(u, Next(u, x, Tick(millis)), fp) && Owned(View(u, x), fp)
    ensures fp in View(u, Next(u, x, Tick(millis))).claims
  {
    var x' := Next(u, x, Tick(millis));
    var i :| i in View(u, x).active && Owns(View(u, x), i, fp);
    assert Owns(View(u, x'), i, fp);
    Dedup.SuppressionWindow(u.kind, x.began[i], u.ttl, x'.now);
  }

  /** Over a real store a fingerprint is guarded exactly when the store could be reached at each of its claims and every
      run was done with it before its own claim expired. */
  lemma {:induction false} GuardedIff(u: Windowed, start: int, moves: seq<Move>, fp: string)
    ensures Guarded(Reach(u, start, moves).log, fp) <==> InTime(u, start, moves, fp)
  {
    if moves != [] {
      var n := |moves| - 1;
      var x, m := Reach(u, start, moves[..n]), moves[n];
      GuardedIff(u, start, moves[..n], fp);
      UnguardedMove(u, x, m, fp);
      if Guarded(Reach(u, start, moves).log, fp) {
        GuardedPrompt(u, start, moves, fp);
      } else if InTime(u, start, moves, fp) {
        OwnEntryReach(u, start, moves[..n], fp);
        PromptTick(u, x, m.millis, fp);
      }
    }
  }

  /** A run that ends within the window, counted in full seconds from its claim, is prompt with either store. */
  lemma WithinWindow(u: Windowed, x: Stored, fp: string)
    requires forall i :: Owns(View(u, x), i, fp) && i in x.began ==> x.now - x.began[i] < 1000 * u.ttl
    ensures Prompt(u, x, fp)
  {
    forall i | Owns(View(u, x), i, fp) && i in x.began ensures x.now < Dedup.Release(u.kind, x.began[i], u.ttl) {
      Dedup.SuppressionWindow(u.kind, x.began[i], u.ttl, x.now);
    }
  }

  // ---------------------------------------------------------------- what follows for the real store

  /** With a store that can be reached and prompt runs there is one owner at most, and the entry is live exactly while
      the window is finished, lost or being worked on; nothing about the log is assumed. */
  lemma StoredClaimMeaning(u: Windowed, start: int, moves: seq<Move>, fp: string, i: nat, j: nat)
    requires InTime(u, start, moves, fp)
    ensures
      var x := Reach(u, start, moves);
      var progress := Scan(u.w.policy, x.log, fp);
      && progress != Broken
      && (Owns(View(u, x), i, fp) && Owns(View(u, x), j, fp) ==> i == j)
      && (Dedup.Holds(u.kind, x.table, fp, x.now) <==>
            progress == Done || progress == Lost || exists o :: Owns(View(u, x), o, fp))
      && (Owns(View(u, x), i, fp) ==>
            i in x.began && x.began[i] <= x.now < Dedup.Release(u.kind, x.began[i], u.ttl))
  {
    var x := Reach(u, start, moves);
    GuardedIff(u, start, moves, fp);
    GuardedPrompt(u, start, moves, fp);
    OwnEntryReach(u, start, moves, fp);
    var t := ReachRefines(u, start, moves);
    ClaimMeaning(u.w, t, fp, i, j);
    assert fp in View(u, x).claims <==> Dedup.Holds(u.kind, x.table, fp, x.now);
  }

  /** And when the queue has drained the incident has been dealt with, once in each window. */
  lemma StoredDrained(u: Windowed, start: int, moves: seq<Move>, fp: string)
    requires InTime(u, start, moves, fp) && Known(u.w, fp)
    requires forall m :: Risky(u.w, m, fp) ==> Resurfaced(m) !in Reach(u, start, moves).log
    requires Outcomes.Drained(View(u, Reach(u, start, moves)))
    ensures Outcomes.DealtWith(View(u, Reach(u, start, moves)), fp)
  {
    GuardedIff(u, start, moves, fp);
    var t := ReachRefines(u, start, moves);
    Outcomes.DrainedOncePerWindow(u.w, t, fp);
  }

  // ---------------------------------------------------------------- how often an incident can complete

  /** The milliseconds that so many windows of `ttl` seconds take. */
  function Span(u: Setup, windows: int): int { windows * (1000 * u.ttl) }

  lemma SpanMore(u: Windowed, a: int, b: int)
    requires a <= b
    ensures Span(u, a) <= Span(u, b) && Span(u, b + 1) == Span(u, b) + 1000 * u.ttl
  {
  }

  /** The windows that are over have taken their time, and the claim that is held was made after them. */
  ghost predicate Spaced(u: Setup, start: int, x: Stored, fp: string) {
    var from := start + Span(u, Expiries(x.log, fp));
    from <= x.now && (fp in View(u, x).claims ==> exists t :: from <= t <= x.now && EntryOf(u, x, fp, t))
  }

  ghost predicate EntryOf(u: Setup, x: Stored, fp: string, t: int) {
    fp in x.table && x.table[fp] == Dedup.Stamp(u.kind, t, u.ttl)
  }

  lemma ExpiriesLogged(log: seq<Entry>, e: Entry, fp: string)
    ensures Expiries(log + [e], fp) == Expiries(log, fp) + if e == Expired(fp) then 1 else 0
  {
    assert (log + [e])[..|log|] == log;
  }

  lemma {:induction false} LapseExpiries(w: World, s: State, fps: set<string>, fp: string)
    requires fps <= s.claims
    ensures Expiries(Lapse(w, s, fps).log, fp) <= Expiries(s.log, fp) + if fp in fps then 1 else 0
    decreases |fps|
  {
    if fps != {} {
      var f :| f in fps && Lapse(w, s, fps) == Lapse(w, Step(w, s, Expire(f)), fps - {f});
      ExpireEntry(w, s, f);
      hide Step, Expiries;
      LapseExpiries(w, Step(w, s, Expire(f)), fps - {f}, fp);
      ExpiriesLogged(s.log, Expired(f), fp);
      ExpiriesLogged(s.log, Unguarded(f), fp);
    }
  }

  lemma {:induction false} ExpiriesSame(log: seq<Entry>, longer: seq<Entry>, fp: string)
    requires log <= longer && forall j :: |log| <= j < |longer| ==> !longer[j].Expired?
    ensures Expiries(longer, fp) == Expiries(log, fp)
  {
    if |log| < |longer| {
      ExpiriesSame(log, longer[..|longer| - 1], fp);
    } else {
      assert longer == log;
    }
  }

  /** Only time ends a window. */
  lemma ActExpiries(w: World, s: State, e: Event, fp: string)
    requires !e.Expire?
    ensures Expiries(Step(w, s, e).log, fp) == Expiries(s.log, fp)
  {
    NothingExpires(w, s, e);
    hide Step, Expiries;
    ExpiriesSame(s.log, Step(w, s, e).log, fp);
  }

  lemma NothingExpires(w: World, s: State, e: Event)
    requires !e.Expire?
    ensures s.log <= Step(w, s, e).log
    ensures forall j :: |s.log| <= j < |Step(w, s, e).log| ==> !Step(w, s, e).log[j].Expired?
  {
  }

  /** What is claimed after a step was claimed before it, or has just been. */
  lemma EntryAfter(u: Windowed, x: Stored, e: Event, fp: string)
    requires !e.Expire? && fp in View(u, Next(u, x, Act(e))).claims
    ensures
      var x' := Next(u, x, Act(e));
      && x'.now == x.now && x'.log == Step(u.w, View(u, x), e).log && fp in x'.table
      && (x'.table[fp] == Dedup.Stamp(u.kind, x.now, u.ttl)
          || (fp in View(u, x).claims && x'.table[fp] == x.table[fp]))
  {
    hide Step;
  }

  lemma SpacedAct(u: Windowed, start: int, x: Stored, e: Event, fp: string)
    requires !e.Expire? && Spaced(u, start, x, fp)
    ensures Spaced(u, start, Next(u, x, Act(e)), fp)
  {
    var x' := Next(u, x, Act(e));
    ActExpiries(u.w, View(u, x), e, fp);
    if fp in View(u, x').claims {
      EntryAfter(u, x, e, fp);
      hide Next, Step, View, Expiries, Span, Dedup.Stamp;
      if x'.table[fp] == Dedup.Stamp(u.kind, x.now, u.ttl) {
        assert EntryOf(u, x', fp, x.now);
      } else {
        var t :| start + Span(u, Expiries(x.log, fp)) <= t <= x.now && EntryOf(u, x, fp, t);
        assert EntryOf(u, x', fp, t);
      }
    }
  }

  /** A claim that runs out has been held for a whole window. */
  lemma SpacedTick(u: Windowed, start: int, x: Stored, millis: nat, fp: string)
    requires Spaced(u, start, x, fp)
    ensures Spaced(u, start, Next(u, x, Tick(millis)), fp)
  {
    var x', later := Next(u, x, Tick(millis)), x.(now := x.now + millis);
    LapseExpiries(u.w, View(u, x), View(u, x).claims - View(u, later).claims, fp);
    hide Lapse, Expiries, Step, Span;
    var before, after := Expiries(x.log, fp), Expiries(x'.log, fp);
    if fp in View(u, x).claims {
      var t :| start + Span(u, before) <= t <= x.now && EntryOf(u, x, fp, t);
      Dedup.SuppressionWindow(u.kind, t, u.ttl, x'.now);
      assert EntryOf(u, x', fp, t);
      SpanMore(u, after, if fp in View(u, x').claims then before else before + 1);
      SpanMore(u, before, before);
    } else {
      SpanMore(u, after, before);
      assert fp in View(u, x').claims ==> fp in x.table && Dedup.Live(u.kind, x.table[fp], x.now);
    }
  }

  lemma {:induction false} SpacedReach(u: Windowed, start: int, moves: seq<Move>, fp: string)
    ensures Spaced(u, start, Reach(u, start, moves), fp)
  {
    if moves != [] {
      var n := |moves| - 1;
      var x := Reach(u, start, moves[..n]);
      SpacedReach(u, start, moves[..n], fp);
      match moves[n]
      case Act(e) => if !e.Expire? { SpacedAct(u, start, x, e, fp); }
      case Tick(millis) => SpacedTick(u, start, x, millis, fp);
      case Sweep(victims) =>
        hide Expiries, Span;
        var x' := Next(u, x, Sweep(victims));
        if t :| start + Span(u, Expiries(x.log, fp)) <= t <= x.now && EntryOf(u, x, fp, t) {
          assert fp in View(u, x').claims ==> EntryOf(u, x', fp, t);
        }
    }
  }

  lemma OutcomesCounted(u: Windowed, start: int, moves: seq<Move>, fp: string)
    requires InTime(u, start, moves, fp)
    ensures
      var log := Reach(u, start, moves).log;
      Completions(log, fp) + Losses(log, fp) <= Expiries(log, fp) + 1
  {
    GuardedIff(u, start, moves, fp);
    ClaimInvReach(u, start, moves, fp);
    hide Reach, InTime, Completions, Losses, Expiries, Scan;
    ScanCounts(u.w.policy, Reach(u, start, moves).log, fp);
  }

  /** One outcome for each window, by the clock: an incident is completed or lost at most once, and once more for every
      `ttl` seconds that have passed. */
  lemma CompletionRate(u: Windowed, start: int, moves: seq<Move>, fp: string)
    requires InTime(u, start, moves, fp)
    ensures
      var x := Reach(u, start, moves);
      Span(u, Completions(x.log, fp) + Losses(x.log, fp) - 1) <= x.now - start
  {
    var x := Reach(u, start, moves);
    SpacedReach(u, start, moves, fp);
    OutcomesCounted(u, start, moves, fp);
    hide Reach, InTime, View, Span, Completions, Losses, Expiries;
    SpanMore(u, Completions(x.log, fp) + Losses(x.log, fp) - 1, Expiries(x.log, fp));
  }
}
