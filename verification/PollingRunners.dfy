/** The two runners as they are written: classes whose fields ticks, completions and stops update. */
module PollingRunners {
  import opened Prelude
  import opened Polling

  /** Tracks the query of a rule under the rule's name. A promise is the number of its query; `running`, `next` and
      `timers` belong to the runtime. */
  class IngestRunner {
    const names: seq<string>
    var inFlight: map<string, nat>
    var intervalHandle: bool
    var stopped: bool
    var stopping: Option<set<nat>>
    var running: map<nat, nat>
    var next: nat
    var timers: nat

    ghost function Now(): State reads this {
      State(running, inFlight, next, stopped, timers, intervalHandle, stopping)
    }

    ghost function AllKeys(): Keys { NameKeys(names) }

    constructor (names: seq<string>)
      ensures this.names == names && Now() == INITIAL
    {
      this.names := names;
      inFlight, running, next, timers := map[], map[], 0, 0;
      intervalHandle, stopped, stopping := false, false, None;
    }

    method OnTick()
      modifies this
      ensures Now() == Tick(AllKeys(), old(Now()))
    {
      var idle: seq<nat> := [];
      for i := 0 to |names|
        invariant Now() == old(Now()) && idle == Idle(AllKeys(), inFlight, i)
      {
        if names[i] !in inFlight { idle := idle + [i]; }
      }
      for a := 0 to |idle|
        invariant Ascending(idle[..a], |names|)
        invariant Now() == Launch(AllKeys(), old(Now()), idle[..a], |names|)
      {
        ghost var before := Now();
        var i := idle[a];
        LaunchNextOne(AllKeys(), old(Now()), idle, a, |names|);
        running := running[next := i];
        inFlight := inFlight[names[i] := next];
        next := next + 1;
        assert Now() == LaunchOne(AllKeys(), before, i);
      }
      assert idle[..|idle|] == idle;
    }

    method Start()
      requires stopping.None?
      modifies this
      ensures Now() == Step(AllKeys(), old(Now()), Polling.Start)
    {
      stopped := false;
      OnTick();
      ghost var t := Now();
      timers := timers + 1;
      intervalHandle := true;
      StartTicks(AllKeys(), old(Now()), t);
    }

    /** The interval's callback. */
    method OnTimer()
      requires timers > 0
      modifies this
      ensures Now() == Step(AllKeys(), old(Now()), TimerFires)
    {
      if !stopped { OnTick(); }
    }

    /** The `finally` of a query: it settles with or without an error and takes its rule's name out of the map. */
    method OnSettled(query: nat)
      requires query in running && running[query] < |names|
      modifies this
      ensures Now() == Step(AllKeys(), old(Now()), Settles(query))
    {
      var rule := running[query];
      running := running - {query};
      inFlight := inFlight - {names[rule]};
    }

    method Stop()
      requires stopping.None?
      modifies this
      ensures Now() == Step(AllKeys(), old(Now()), Polling.Stop)
    {
      stopped := true;
      if intervalHandle {
        if timers > 0 { timers := timers - 1; }
        intervalHandle := false;
      }
      stopping := Some(inFlight.Values);
    }

    method StopContinues()
      requires stopping.Some? && stopping.value !! running.Keys
      modifies this
      ensures Now() == Step(AllKeys(), old(Now()), StopResolves)
    {
      stopping := None;
    }
  }

  /** Tracks the query of a rule under name and position; a tick looks the position of a rule up again by identity. */
  class PrometheusIngestRunner {
    const rules: seq<Rule>
    var inFlightKeys: set<string>
    var inFlightPromises: map<string, nat>
    var intervalHandle: bool
    var stopped: bool
    var stopping: Option<set<nat>>
    var running: map<nat, nat>
    var next: nat
    var timers: nat

    ghost predicate Valid() reads this { inFlightKeys == inFlightPromises.Keys }

    ghost function Now(): State reads this {
      State(running, inFlightPromises, next, stopped, timers, intervalHandle, stopping)
    }

    ghost function AllKeys(): Keys { IndexKeys(rules) }

    constructor (rules: seq<Rule>)
      ensures Valid() && this.rules == rules && Now() == INITIAL
    {
      this.rules := rules;
      inFlightKeys, inFlightPromises, running, next, timers := {}, map[], map[], 0, 0;
      intervalHandle, stopped, stopping := false, false, None;
    }

    method IndexOfRule(i: nat) returns (first: nat)
      requires i < |rules|
      ensures first == IndexOf(rules, rules[i])
    {
      first := 0;
      while rules[first].ref != rules[i].ref
        invariant first <= i && forall b :: 0 <= b < first ==> rules[b].ref != rules[i].ref
        decreases |rules| - first
      {
        first := first + 1;
      }
    }

    method OnTick()
      requires Valid()
      modifies this
      ensures Valid() && Now() == Tick(AllKeys(), old(Now()))
    {
      var idle := FilterIdle();
      for a := 0 to |idle|
        invariant Valid() && Ascending(idle[..a], |rules|)
        invariant Now() == Launch(AllKeys(), old(Now()), idle[..a], |rules|)
      {
        LaunchNextOne(AllKeys(), old(Now()), idle, a, |rules|);
        LaunchRule(idle[a]);
      }
      assert idle[..|idle|] == idle;
    }

    method FilterIdle() returns (idle: seq<nat>)
      requires Valid()
      ensures idle == Idle(AllKeys(), inFlightPromises, |rules|)
    {
      idle := [];
      for i := 0 to |rules|
        invariant idle == Idle(AllKeys(), inFlightPromises, i)
      {
        var key := IndexKey(rules[i].name, i);
        if key !in inFlightKeys { idle := idle + [i]; }
      }
    }

    method LaunchRule(i: nat)
      requires Valid() && i < |rules|
      modifies this
      ensures Valid() && Now() == LaunchOne(AllKeys(), old(Now()), i)
    {
      var ruleIndex := IndexOfRule(i);
      var key := IndexKey(rules[i].name, ruleIndex);
      running := running[next := i];
      inFlightKeys := inFlightKeys + {key};
      inFlightPromises := inFlightPromises[key := next];
      next := next + 1;
    }

    method Start()
      requires Valid() && stopping.None?
      modifies this
      ensures Valid() && Now() == Step(AllKeys(), old(Now()), Polling.Start)
    {
      hide Tick, Step, IndexKeys;
      IndexKeysValid(rules);
      stopped := false;
      OnTick();
      ghost var t := Now();
      timers := timers + 1;
      intervalHandle := true;
      StartTicks(AllKeys(), old(Now()), t);
    }

    method OnTimer()
      requires Valid() && timers > 0
      modifies this
      ensures Valid() && Now() == Step(AllKeys(), old(Now()), TimerFires)
    {
      if !stopped { OnTick(); }
    }

    method OnSettled(query: nat)
      requires Valid() && query in running && running[query] < |rules|
      modifies this
      ensures Valid() && Now() == Step(AllKeys(), old(Now()), Settles(query))
    {
      var i := running[query];
      var ruleIndex := IndexOfRule(i);
      var key := IndexKey(rules[i].name, ruleIndex);
      running := running - {query};
      inFlightKeys := inFlightKeys - {key};
      inFlightPromises := inFlightPromises - {key};
    }

    method Stop()
      requires Valid() && stopping.None?
      modifies this
      ensures Valid() && Now() == Step(AllKeys(), old(Now()), Polling.Stop)
    {
      stopped := true;
      if intervalHandle {
        if timers > 0 { timers := timers - 1; }
        intervalHandle := false;
      }
      stopping := Some(inFlightPromises.Values);
    }

    method StopContinues()
      requires Valid() && stopping.Some? && stopping.value !! running.Keys
      modifies this
      ensures Valid() && Now() == Step(AllKeys(), old(Now()), StopResolves)
    {
      stopping := None;
    }
  }

  lemma IndexKeysValid(rules: seq<Rule>)
    ensures ValidKeys(IndexKeys(rules)) && |IndexKeys(rules).look| == |rules|
  {
  }

  lemma StartTicks(keys: Keys, s: State, t: State)
    requires ValidKeys(keys) && s.awaited.None? && t == Tick(keys, s.(stopped := false))
    ensures Step(keys, s, Start) == t.(timers := t.timers + 1, handle := true)
  {
    TickRest(keys, s.(stopped := false));
  }

  /** The launch loop extends the launched prefix by one rule. */
  lemma LaunchNextOne(keys: Keys, s: State, rules: seq<nat>, a: nat, n: nat)
    requires n <= |keys.track| && Ascending(rules, n) && a < |rules|
    ensures rules[a] < n && Ascending(rules[..a], n) && Ascending(rules[..a + 1], n)
    ensures Launch(keys, s, rules[..a + 1], n) == LaunchOne(keys, Launch(keys, s, rules[..a], n), rules[a])
  {
    AscendingPrefix(rules, n, a + 1);
    assert rules[..a + 1][..a] == rules[..a];
    AscendingWiden(rules[..a], rules[a], n);
    SameLaunch(keys, s, rules[..a], rules[a], n);
  }

  lemma {:induction false} AscendingPrefix(rules: seq<nat>, n: nat, a: nat)
    requires Ascending(rules, n) && a <= |rules|
    ensures Ascending(rules[..a], n)
  {
    if a < |rules| {
      var m := |rules| - 1;
      AscendingPrefix(rules[..m], rules[m], a);
      assert rules[..m][..a] == rules[..a];
      AscendingWiden(rules[..a], rules[m], n);
    } else {
      assert rules[..a] == rules;
    }
  }

  lemma {:induction false} SameLaunch(keys: Keys, s: State, rules: seq<nat>, m: nat, n: nat)
    requires m <= |keys.track| && n <= |keys.track| && Ascending(rules, m) && Ascending(rules, n)
    ensures Launch(keys, s, rules, m) == Launch(keys, s, rules, n)
  {
  }
}
