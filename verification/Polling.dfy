/** The polling runners: ticks that skip lagging rules, completions, and a stop that drains. */
module Polling {
  import opened Prelude
  import Text

  /** For each rule the key under which a tick looks it up, and the key under which its query is tracked. */
  datatype Keys = Keys(look: seq<string>, track: seq<string>)

  predicate ValidKeys(keys: Keys) { |keys.look| == |keys.track| }

  /** `running` gives the rule of each query in flight, `inFlight` the query tracked under a key. `timers` counts the
      intervals alive, `handle` says whether the last one can still be cleared, `awaited` what a pending stop waits
      for. */
  datatype State = State(
    running: map<nat, nat>,
    inFlight: map<string, nat>,
    next: nat,
    stopped: bool,
    timers: nat,
    handle: bool,
    awaited: Option<set<nat>>
  )

  const INITIAL := State(map[], map[], 0, false, 0, false, None)

  /** `start` is not called while a `stop` is pending, nor a second `stop`. */
  datatype Event = Start | TimerFires | Settles(query: nat) | Stop | StopResolves

  /** Positions in list order, all below `n`. */
  predicate Ascending(rules: seq<nat>, n: nat) {
    rules == [] || (rules[|rules| - 1] < n && Ascending(rules[..|rules| - 1], rules[|rules| - 1]))
  }

  lemma {:induction false} AscendingWiden(rules: seq<nat>, m: nat, n: nat)
    requires Ascending(rules, m) && m <= n
    ensures Ascending(rules, n)
  {
  }

  lemma AscendingSnoc(rules: seq<nat>, n: nat)
    requires Ascending(rules, n)
    ensures Ascending(rules + [n], n + 1)
  {
    assert (rules + [n])[..|rules|] == rules;
  }

  /** The rules whose key is not tracked, looked up before any of them is launched. */
  function Idle(keys: Keys, inFlight: map<string, nat>, n: nat): (r: seq<nat>)
    requires n <= |keys.look|
    ensures Ascending(r, n)
    ensures forall a :: 0 <= a < |r| ==> r[a] < n && keys.look[r[a]] !in inFlight
  {
    if n == 0 then []
    else
      var r := Idle(keys, inFlight, n - 1);
      if keys.look[n - 1] in inFlight then AscendingWiden(r, n - 1, n); r
      else AscendingSnoc(r, n - 1); r + [n - 1]
  }

  lemma {:induction false} IdleHas(keys: Keys, inFlight: map<string, nat>, n: nat, i: nat)
    requires i < n <= |keys.look| && keys.look[i] !in inFlight
    ensures i in Idle(keys, inFlight, n)
  {
    if i < n - 1 { IdleHas(keys, inFlight, n - 1, i); }
  }

  /** The query of rule `i` starts and is tracked under the rule's key, in place of whatever was tracked there. */
  function LaunchOne(keys: Keys, s: State, i: nat): State
    requires i < |keys.track|
  {
    s.(running := s.running[s.next := i], inFlight := s.inFlight[keys.track[i] := s.next], next := s.next + 1)
  }

  function Launch(keys: Keys, s: State, rules: seq<nat>, n: nat): State
    requires n <= |keys.track| && Ascending(rules, n)
  {
    if rules == [] then s
    else
      var i := rules[|rules| - 1];
      LaunchOne(keys, Launch(keys, s, rules[..|rules| - 1], i), i)
  }

  function Tick(keys: Keys, s: State): State
    requires ValidKeys(keys)
  {
    Launch(keys, s, Idle(keys, s.inFlight, |keys.look|), |keys.look|)
  }

  predicate Enabled(s: State, e: Event) {
    match e
    case Start => s.awaited.None?
    case TimerFires => s.timers > 0
    case Settles(q) => q in s.running
    case Stop => s.awaited.None?
    case StopResolves => s.awaited.Some? && s.awaited.value !! s.running.Keys
  }

  function Step(keys: Keys, s: State, e: Event): State
    requires ValidKeys(keys)
  {
    if !Enabled(s, e) then s
    else match e
      case Start => Tick(keys, s.(stopped := false)).(timers := s.timers + 1, handle := true)
      case TimerFires => if s.stopped then s else Tick(keys, s)
      case Settles(q) =>
        s.(running := s.running - {q},
           inFlight := if s.running[q] < |keys.track| then s.inFlight - {keys.track[s.running[q]]} else s.inFlight)
      case Stop =>
        s.(stopped := true, timers := if s.handle && s.timers > 0 then s.timers - 1 else s.timers, handle := false,
           awaited := Some(s.inFlight.Values))
      case StopResolves => s.(awaited := None)
  }

  function Run(keys: Keys, trace: seq<Event>): State
    requires ValidKeys(keys)
  {
    if trace == [] then INITIAL else Step(keys, Run(keys, trace[..|trace| - 1]), trace[|trace| - 1])
  }

  // ---------------------------------------------------------------- safety

  /** No rule has two queries in flight. */
  ghost predicate OnePerRule(s: State) {
    forall p, q :: p in s.running && q in s.running && s.running[p] == s.running[q] ==> p == q
  }

  ghost predicate Safe(keys: Keys)
    requires ValidKeys(keys)
  {
    forall trace :: OnePerRule(Run(keys, trace))
  }

  /** Queries in flight and tracked queries are the same thing. */
  ghost predicate Tracked(keys: Keys, s: State) {
    && (forall q :: q in s.running ==>
          q < s.next && s.running[q] < |keys.track|
          && keys.track[s.running[q]] in s.inFlight && s.inFlight[keys.track[s.running[q]]] == q)
    && (forall k :: k in s.inFlight ==> s.inFlight[k] in s.running && keys.track[s.running[s.inFlight[k]]] == k)
  }

  ghost predicate Inv(keys: Keys, s: State) {
    Tracked(keys, s) && (s.awaited.Some? ==> s.stopped && s.running.Keys <= s.awaited.value)
  }

  lemma LaunchOneTracked(keys: Keys, s: State, i: nat)
    requires i < |keys.track| && Distinct(keys.track) && Tracked(keys, s) && keys.track[i] !in s.inFlight
    ensures Tracked(keys, LaunchOne(keys, s, i))
  {
    var t := LaunchOne(keys, s, i);
    forall k | k in t.inFlight ensures t.inFlight[k] in t.running && keys.track[t.running[t.inFlight[k]]] == k {
      if k != keys.track[i] { assert s.inFlight[k] in s.running; }
    }
  }

  predicate TrackedBy(keys: Keys, rules: seq<nat>, n: nat, k: string)
    requires n <= |keys.track| && Ascending(rules, n)
  {
    rules != [] && (keys.track[rules[|rules| - 1]] == k || TrackedBy(keys, rules[..|rules| - 1], rules[|rules| - 1], k))
  }

  lemma {:induction false} LaunchedKeys(keys: Keys, s: State, rules: seq<nat>, n: nat, k: string)
    requires n <= |keys.track| && Ascending(rules, n)
    requires k !in s.inFlight && !TrackedBy(keys, rules, n, k)
    ensures k !in Launch(keys, s, rules, n).inFlight
  {
    if rules != [] { LaunchedKeys(keys, s, rules[..|rules| - 1], rules[|rules| - 1], k); }
  }

  lemma {:induction false} NotTrackedKey(keys: Keys, rules: seq<nat>, n: nat, i: nat)
    requires n <= i < |keys.track| && Ascending(rules, n) && Distinct(keys.track)
    ensures !TrackedBy(keys, rules, n, keys.track[i])
  {
    if rules != [] { NotTrackedKey(keys, rules[..|rules| - 1], rules[|rules| - 1], i); }
  }

  lemma {:induction false} LaunchTracked(keys: Keys, s: State, rules: seq<nat>, n: nat)
    requires n <= |keys.track| && Ascending(rules, n) && Distinct(keys.track) && Tracked(keys, s)
    requires forall a :: 0 <= a < |rules| ==> rules[a] < n && keys.track[rules[a]] !in s.inFlight
    ensures Tracked(keys, Launch(keys, s, rules, n))
  {
    if rules != [] {
      var m := |rules| - 1;
      var i := rules[m];
      InOrder(rules, n);
      LaunchTracked(keys, s, rules[..m], i);
      NotTrackedKey(keys, rules[..m], i, i);
      LaunchedKeys(keys, s, rules[..m], i, keys.track[i]);
      LaunchOneTracked(keys, Launch(keys, s, rules[..m], i), i);
    }
  }

  lemma {:induction false} InOrder(rules: seq<nat>, n: nat)
    requires Ascending(rules, n)
    ensures forall a :: 0 <= a < |rules| - 1 ==> rules[a] < rules[|rules| - 1]
  {
    if |rules| > 1 {
      var m := |rules| - 1;
      InOrder(rules[..m], rules[m]);
      forall a | 0 <= a < m ensures rules[a] < rules[m] {
        if a < m - 1 { assert rules[..m][a] < rules[..m][m - 1]; }
      }
    }
  }

  lemma {:induction false} LaunchRest(keys: Keys, s: State, rules: seq<nat>, n: nat)
    requires n <= |keys.track| && Ascending(rules, n)
    ensures var t := Launch(keys, s, rules, n);
            t.stopped == s.stopped && t.timers == s.timers && t.handle == s.handle && t.awaited == s.awaited
            && t.next == s.next + |rules|
  {
    if rules != [] { LaunchRest(keys, s, rules[..|rules| - 1], rules[|rules| - 1]); }
  }

  lemma TickRest(keys: Keys, s: State)
    requires ValidKeys(keys)
    ensures
      var t := Tick(keys, s);
      t.stopped == s.stopped && t.timers == s.timers && t.handle == s.handle && t.awaited == s.awaited
  {
    LaunchRest(keys, s, Idle(keys, s.inFlight, |keys.look|), |keys.look|);
  }

  lemma TickInv(keys: Keys, s: State)
    requires ValidKeys(keys) && keys.look == keys.track && Distinct(keys.track) && Tracked(keys, s)
    ensures Tracked(keys, Tick(keys, s)) && Tick(keys, s).awaited == s.awaited && Tick(keys, s).stopped == s.stopped
  {
    var n := |keys.look|;
    var rules := Idle(keys, s.inFlight, n);
    LaunchTracked(keys, s, rules, n);
    TickRest(keys, s);
  }

  lemma InvStep(keys: Keys, s: State, e: Event)
    requires ValidKeys(keys) && keys.look == keys.track && Distinct(keys.track) && Inv(keys, s)
    ensures Inv(keys, Step(keys, s, e))
  {
    if Enabled(s, e) {
      match e
      case Start => TickInv(keys, s.(stopped := false));
      case TimerFires => if !s.stopped { TickInv(keys, s); }
      case Settles(q) =>
      case Stop => StopAwaits(keys, s);
      case StopResolves =>
    }
  }

  lemma StopAwaits(keys: Keys, s: State)
    requires Tracked(keys, s)
    ensures s.running.Keys == s.inFlight.Values
  {
    forall q | q in s.running.Keys ensures q in s.inFlight.Values {
      assert s.inFlight[keys.track[s.running[q]]] == q;
    }
    forall q | q in s.inFlight.Values ensures q in s.running.Keys {
      var k :| k in s.inFlight && s.inFlight[k] == q;
    }
  }

  lemma {:induction false} InvRun(keys: Keys, trace: seq<Event>)
    requires ValidKeys(keys) && keys.look == keys.track && Distinct(keys.track)
    ensures Inv(keys, Run(keys, trace))
  {
    if trace != [] {
      InvRun(keys, trace[..|trace| - 1]);
      InvStep(keys, Run(keys, trace[..|trace| - 1]), trace[|trace| - 1]);
    }
  }

  /** With pairwise distinct keys no run ever has two queries of one rule in flight. */
  lemma OneQueryPerRule(keys: Keys, trace: seq<Event>)
    requires ValidKeys(keys) && keys.look == keys.track && Distinct(keys.track)
    ensures OnePerRule(Run(keys, trace))
  {
    InvRun(keys, trace);
  }

  lemma EmptyValues(m: map<string, nat>)
    ensures m.Values == {} ==> m == map[]
  {
    assert forall k :: k in m ==> m[k] in m.Values;
  }

  lemma NothingLeft(keys: Keys, s: State)
    requires Inv(keys, s) && s.awaited.Some? && s.awaited.value !! s.running.Keys
    ensures s.running == map[] && s.inFlight == map[]
  {
    EmptyValues(s.inFlight);
    StopAwaits(keys, s);
    assert s.inFlight.Values == {};
  }

  /** A `stop` ends the ticking and waits for exactly the queries in flight. */
  lemma StopWaits(keys: Keys, trace: seq<Event>)
    requires ValidKeys(keys) && keys.look == keys.track && Distinct(keys.track) && Enabled(Run(keys, trace), Stop)
    ensures
      var s, s' := Run(keys, trace), Step(keys, Run(keys, trace), Stop);
      s'.stopped && s'.awaited == Some(s.running.Keys) && s'.running == s.running && s'.inFlight == s.inFlight
  {
    InvRun(keys, trace);
    StopAwaits(keys, Run(keys, trace));
  }

  predicate NoStart(trace: seq<Event>) { Start !in trace }

  /** When `stop` resolves no query runs, and none runs later until `start` is called again. */
  lemma {:induction false} StopIsFinal(keys: Keys, trace: seq<Event>, tail: seq<Event>)
    requires ValidKeys(keys) && keys.look == keys.track && Distinct(keys.track)
    requires Enabled(Run(keys, trace), StopResolves) && NoStart(tail)
    ensures
      var s := Run(keys, trace + [StopResolves] + tail);
      s.running == map[] && s.inFlight == map[] && s.stopped
  {
    var before := trace + [StopResolves];
    if tail == [] {
      assert before + tail == before && before[..|before| - 1] == trace;
      InvRun(keys, trace);
      NothingLeft(keys, Run(keys, trace));
    } else {
      var n := |tail| - 1;
      assert (before + tail)[..|before + tail| - 1] == before + tail[..n];
      StopIsFinal(keys, trace, tail[..n]);
      assert tail[n] in tail;
    }
  }

  // ---------------------------------------------------------------- ticks and intervals

  lemma {:induction false} LaunchNew(keys: Keys, s: State, rules: seq<nat>, n: nat, q: nat)
    requires n <= |keys.track| && Ascending(rules, n) && q in Launch(keys, s, rules, n).running && q !in s.running
    ensures s.next <= q < s.next + |rules| && Launch(keys, s, rules, n).running[q] == rules[q - s.next]
  {
    if rules != [] {
      var m := |rules| - 1;
      LaunchRest(keys, s, rules[..m], rules[m]);
      if q != s.next + m { LaunchNew(keys, s, rules[..m], rules[m], q); }
    }
  }

  /** A tick starts a query for every rule that is not tracked, and for no other. */
  lemma TickStarts(keys: Keys, s: State, i: nat)
    requires ValidKeys(keys) && i < |keys.look| && forall q :: q in s.running ==> q < s.next
    ensures (exists q :: q in Tick(keys, s).running && q !in s.running && Tick(keys, s).running[q] == i)
       <==> keys.look[i] !in s.inFlight
  {
    var n := |keys.look|;
    var idle := Idle(keys, s.inFlight, n);
    if keys.look[i] !in s.inFlight {
      IdleHas(keys, s.inFlight, n, i);
      var a :| 0 <= a < |idle| && idle[a] == i;
      LaunchAdds(keys, s, idle, n, a);
      assert s.next + a !in s.running;
    }
    if q :| q in Tick(keys, s).running && q !in s.running && Tick(keys, s).running[q] == i {
      LaunchNew(keys, s, idle, n, q);
    }
  }

  /** A start has happened and no stop after it. */
  predicate Started(keys: Keys, trace: seq<Event>)
    requires ValidKeys(keys)
  {
    trace != [] &&
    var n := |trace| - 1;
    if Enabled(Run(keys, trace[..n]), trace[n]) && (trace[n].Start? || trace[n].Stop?) then trace[n].Start?
    else Started(keys, trace[..n])
  }

  /** How often a start has happened while an earlier one had not been stopped. */
  function Restarts(keys: Keys, trace: seq<Event>): nat
    requires ValidKeys(keys)
  {
    if trace == [] then 0
    else
      var n := |trace| - 1;
      Restarts(keys, trace[..n])
      + if trace[n].Start? && Enabled(Run(keys, trace[..n]), Start) && Started(keys, trace[..n]) then 1 else 0
  }

  /** The intervals alive are that of the latest start, unless it was stopped, and one for each start that came on top
      of another: only those are never cleared. */
  lemma {:induction false} TimersAlive(keys: Keys, trace: seq<Event>)
    requires ValidKeys(keys)
    ensures Run(keys, trace).handle <==> Started(keys, trace)
    ensures Run(keys, trace).timers == Restarts(keys, trace) + if Started(keys, trace) then 1 else 0
  {
    if trace != [] {
      var n := |trace| - 1;
      var s := Run(keys, trace[..n]);
      TimersAlive(keys, trace[..n]);
      TickRest(keys, s.(stopped := false));
      TickRest(keys, s);
      hide Tick;
    }
  }

  /** So after a `stop` nothing is left of a runner that was started once at a time. */
  lemma StopClears(keys: Keys, trace: seq<Event>)
    requires ValidKeys(keys) && Enabled(Run(keys, trace), Stop)
    ensures Step(keys, Run(keys, trace), Stop).timers == Restarts(keys, trace)
  {
    TimersAlive(keys, trace);
  }

  // ---------------------------------------------------------------- which keys are safe

  function NameKeys(names: seq<string>): Keys { Keys(names, names) }

  lemma {:induction false} LaunchKeeps(keys: Keys, s: State, rules: seq<nat>, n: nat, q: nat)
    requires n <= |keys.track| && Ascending(rules, n) && q in s.running && q < s.next
    ensures var t := Launch(keys, s, rules, n); q in t.running && t.running[q] == s.running[q] && s.next <= t.next
  {
    if rules != [] { LaunchKeeps(keys, s, rules[..|rules| - 1], rules[|rules| - 1], q); }
  }

  /** The `a`-th rule launched runs as query `s.next + a`. */
  lemma {:induction false} LaunchAdds(keys: Keys, s: State, rules: seq<nat>, n: nat, a: nat)
    requires n <= |keys.track| && Ascending(rules, n) && a < |rules|
    ensures var t := Launch(keys, s, rules, n); s.next + a in t.running && t.running[s.next + a] == rules[a]
  {
    var m := |rules| - 1;
    LaunchRest(keys, s, rules[..m], rules[m]);
    if a < m { LaunchAdds(keys, s, rules[..m], rules[m], a); }
  }

  lemma {:induction false} IdleAll(keys: Keys, n: nat)
    requires n <= |keys.look|
    ensures |Idle(keys, map[], n)| == n && forall i :: 0 <= i < n ==> Idle(keys, map[], n)[i] == i
  {
    if n > 0 { IdleAll(keys, n - 1); }
  }

  /** The first tick launches every rule, whatever the keys. */
  lemma StartRuns(keys: Keys, i: nat)
    requires ValidKeys(keys) && i < |keys.look|
    ensures var s := Run(keys, [Start]);
            && i in s.running && s.running[i] == i && s.next == |keys.look|
            && s.timers == 1 && !s.stopped && s.awaited.None?
  {
    var n := |keys.look|;
    var all := Idle(keys, map[], n);
    IdleAll(keys, n);
    LaunchAdds(keys, INITIAL, all, n, i);
    LaunchRest(keys, INITIAL, all, n);
    assert [Start][..0] == [];
    assert Run(keys, []) == INITIAL == INITIAL.(stopped := false);
  }

  /** A rule that runs but is not found under its key is launched a second time. */
  lemma FireDoubles(keys: Keys, s: State, q: nat, j: nat)
    requires ValidKeys(keys) && s.timers > 0 && !s.stopped
    requires j < |keys.look| && keys.look[j] !in s.inFlight && q in s.running && s.running[q] == j && q < s.next
    ensures !OnePerRule(Step(keys, s, TimerFires))
  {
    var n := |keys.look|;
    var idle := Idle(keys, s.inFlight, n);
    IdleHas(keys, s.inFlight, n, j);
    var a :| 0 <= a < |idle| && idle[a] == j;
    LaunchAdds(keys, s, idle, n, a);
    LaunchKeeps(keys, s, idle, n, q);
  }

  /** Two rules of the same name: the first completion clears the name, and the next tick launches the second rule
      again. */
  lemma SharedNameDoubles(names: seq<string>, i: nat, j: nat) returns (trace: seq<Event>)
    requires i < j < |names| && names[i] == names[j]
    ensures !OnePerRule(Run(NameKeys(names), trace))
  {
    trace := [Start, Settles(i), TimerFires];
    var keys := NameKeys(names);
    StartRuns(keys, i);
    StartRuns(keys, j);
    FireDoubles(keys, Step(keys, Run(keys, [Start]), Settles(i)), j, j);
    assert trace[..2] == [Start, Settles(i)] && [Start, Settles(i)][..1] == [Start];
  }

  /** Looking rules up by name is safe exactly when the names are pairwise distinct, which is what the configuration
      check asks. */
  lemma SafeIffNamesDistinct(names: seq<string>)
    ensures Safe(NameKeys(names)) <==> Distinct(names)
  {
    if Distinct(names) {
      forall trace ensures OnePerRule(Run(NameKeys(names), trace)) { OneQueryPerRule(NameKeys(names), trace); }
    } else {
      var i, j :| 0 <= i < j < |names| && names[i] == names[j];
      var trace := SharedNameDoubles(names, i, j);
    }
  }

  /** The configuration check: the first name seen twice is an issue. */
  method EnsureUniqueRuleNames(names: seq<string>) returns (issue: Option<string>)
    ensures issue.None? <==> Distinct(names)
    ensures issue.Some? ==> exists i, j :: 0 <= i < j < |names| && names[i] == names[j] == issue.value
  {
    var seen: set<string> := {};
    for k := 0 to |names|
      invariant forall x :: x in seen <==> x in names[..k]
      invariant Distinct(names[..k])
    {
      if names[k] in seen {
        var i :| 0 <= i < k && names[..k][i] == names[k];
        assert names[i] == names[k];
        return Some(names[k]);
      }
      seen := seen + {names[k]};
      assert names[..k + 1] == names[..k] + [names[k]];
    }
    assert names[..|names|] == names;
    issue := None;
  }

  // ---------------------------------------------------------------- name and index

  /** A rule as the runner holds it: `ref` is the identity of the object. */
  datatype Rule = Rule(ref: nat, name: string)

  function IndexKey(name: string, i: nat): string { name + "-" + Text.Decimal(i) }

  function IndexOf(rules: seq<Rule>, r: Rule): nat
    requires r in rules
    ensures IndexOf(rules, r) < |rules| && rules[IndexOf(rules, r)].ref == r.ref
    ensures forall i :: 0 <= i < IndexOf(rules, r) ==> rules[i].ref != r.ref
  {
    if rules[0].ref == r.ref then 0 else 1 + IndexOf(rules[1..], r)
  }

  function LookKeys(rules: seq<Rule>): (keys: seq<string>)
    ensures |keys| == |rules| && forall i :: 0 <= i < |keys| ==> keys[i] == IndexKey(rules[i].name, i)
  {
    seq(|rules|, i requires 0 <= i < |rules| => IndexKey(rules[i].name, i))
  }

  function TrackKeys(rules: seq<Rule>): (keys: seq<string>)
    ensures |keys| == |rules| && forall i :: 0 <= i < |keys| ==>
        keys[i] == IndexKey(rules[i].name, IndexOf(rules, rules[i]))
  {
    seq(|rules|, i requires 0 <= i < |rules| => IndexKey(rules[i].name, IndexOf(rules, rules[i])))
  }

  function IndexKeys(rules: seq<Rule>): Keys {
    Keys(LookKeys(rules), TrackKeys(rules))
  }

  /** The objects of the list are different objects; their names may repeat. */
  ghost predicate DifferentObjects(rules: seq<Rule>) {
    forall i, j :: 0 <= i < j < |rules| ==> rules[i].ref != rules[j].ref
  }

  function AfterDash(s: string): nat {
    if s == [] || s[|s| - 1] == '-' then 0 else 1 + AfterDash(s[..|s| - 1])
  }

  lemma {:induction false} AfterDashLength(a: string, b: string)
    requires '-' !in b
    ensures AfterDash(a + "-" + b) == |b|
  {
    if b == [] {
      assert a + "-" + b == a + "-";
    } else {
      assert (a + "-" + b)[..|a + "-" + b| - 1] == a + "-" + b[..|b| - 1];
      AfterDashLength(a, b[..|b| - 1]);
    }
  }

  /** The last dash separates name and index, whatever the name contains. */
  lemma IndexKeyInjective(m: string, i: nat, n: string, j: nat)
    requires IndexKey(m, i) == IndexKey(n, j)
    ensures m == n && i == j
  {
    var a, b := Text.Decimal(i), Text.Decimal(j);
    var s := IndexKey(m, i);
    AfterDashLength(m, a);
    AfterDashLength(n, b);
    assert a == s[|s| - |a|..] && m == s[..|s| - |a| - 1];
    assert b == s[|s| - |b|..] && n == s[..|s| - |b| - 1];
    Text.DecimalInjective(i, j);
  }

  lemma IndexKeyDiffers(m: string, i: nat, n: string, j: nat)
    requires i != j
    ensures IndexKey(m, i) != IndexKey(n, j)
  {
    if IndexKey(m, i) == IndexKey(n, j) { IndexKeyInjective(m, i, n, j); }
  }

  /** Keys built from name and position are distinct even when names repeat, and a rule is looked up where it is
      tracked. */
  lemma IndexKeysDistinct(rules: seq<Rule>)
    requires DifferentObjects(rules)
    ensures var keys := IndexKeys(rules); ValidKeys(keys) && keys.look == keys.track && Distinct(keys.track)
  {
    var keys := IndexKeys(rules);
    forall i | 0 <= i < |rules| ensures keys.look[i] == keys.track[i] {
      assert IndexOf(rules, rules[i]) == i;
    }
    forall i, j | 0 <= i < j < |rules| ensures keys.look[i] != keys.look[j] {
      IndexKeyDiffers(rules[i].name, i, rules[j].name, j);
    }
  }

  lemma {:induction false} NeverTracked(rules: seq<Rule>, i: nat, j: nat, list: seq<nat>, n: nat)
    requires i < j < |rules| && rules[i].ref == rules[j].ref && n <= |rules| && Ascending(list, n)
    ensures !TrackedBy(IndexKeys(rules), list, n, IndexKey(rules[j].name, j))
  {
    if list != [] {
      var k := list[|list| - 1];
      NeverTracked(rules, i, j, list[..|list| - 1], k);
      assert IndexOf(rules, rules[k]) != j;
      IndexKeyDiffers(rules[k].name, IndexOf(rules, rules[k]), rules[j].name, j);
    }
  }

  /** The first tick does not track the object under its second position. */
  lemma SecondUntracked(rules: seq<Rule>, i: nat, j: nat)
    requires i < j < |rules| && rules[i].ref == rules[j].ref
    ensures IndexKeys(rules).look[j] !in Run(IndexKeys(rules), [Start]).inFlight
  {
    var keys, n := IndexKeys(rules), |rules|;
    var all := Idle(keys, map[], n);
    NeverTracked(rules, i, j, all, n);
    hide IndexKeys, Launch, Idle, TrackedBy;
    LaunchedKeys(keys, INITIAL, all, n, keys.look[j]);
    assert [Start][..0] == [] && INITIAL == INITIAL.(stopped := false);
  }

  /** An object listed twice is tracked under its first position only, so the next tick launches it again. */
  lemma SharedObjectDoubles(rules: seq<Rule>, i: nat, j: nat) returns (trace: seq<Event>)
    requires i < j < |rules| && rules[i].ref == rules[j].ref
    ensures !OnePerRule(Run(IndexKeys(rules), trace))
  {
    trace := [Start, TimerFires];
    var keys := IndexKeys(rules);
    SecondUntracked(rules, i, j);
    StartRuns(keys, j);
    hide Step, OnePerRule, IndexKey;
    FireDoubles(keys, Run(keys, [Start]), j, j);
    assert trace[..1] == [Start];
  }

  lemma OneQueryPerObject(rules: seq<Rule>, trace: seq<Event>)
    requires DifferentObjects(rules)
    ensures OnePerRule(Run(IndexKeys(rules), trace))
  {
    IndexKeysDistinct(rules);
    OneQueryPerRule(IndexKeys(rules), trace);
  }

  /** Looking rules up by name and position is safe exactly when no object is listed twice; names may repeat. */
  lemma SafeIffObjectsDiffer(rules: seq<Rule>)
    ensures Safe(IndexKeys(rules)) <==> DifferentObjects(rules)
  {
    if DifferentObjects(rules) {
      forall trace ensures OnePerRule(Run(IndexKeys(rules), trace)) { OneQueryPerObject(rules, trace); }
    } else {
      var i, j :| 0 <= i < j < |rules| && rules[i].ref == rules[j].ref;
      var trace := SharedObjectDoubles(rules, i, j);
    }
  }
}
