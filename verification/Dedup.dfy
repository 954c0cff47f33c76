/** Deduplication stores: a map and a Redis key with millisecond expiry, a conditional put with whole-second expiry. */
module Dedup {
  import opened Prelude

  datatype Kind = InMemory | DynamoDb

  /** The expiry written when a fingerprint is claimed at `now` (milliseconds) for `ttl` seconds. */
  function Stamp(k: Kind, now: int, ttl: int): int {
    if k.InMemory? then now + ttl * 1000 else now / 1000 + ttl
  }

  /** The entry still suppresses: the in-memory test is `expiry > now`, the put fails unless `expiresAt < :now`. */
  predicate Live(k: Kind, stamp: int, now: int) {
    if k.InMemory? then stamp > now else stamp >= now / 1000
  }

  predicate Holds(k: Kind, table: map<string, int>, fp: string, now: int) {
    fp in table && Live(k, table[fp], now)
  }

  /** Calls on a store, each at its own time. `Outage` is a claim while the store is unreachable, which fails open;
      `Sweep` is the background deletion of those among the victims that have expired. */
  datatype Op =
    | IsNew(fp: string, ttl: int, now: int)
    | Outage(fp: string, now: int)
    | Reset(fp: string, now: int)
    | Sweep(victims: set<string>, now: int)

  function Apply(k: Kind, table: map<string, int>, op: Op): map<string, int> {
    match op
    case IsNew(fp, ttl, now) => if Holds(k, table, fp, now) then table else table[fp := Stamp(k, now, ttl)]
    case Outage(_, _) => table
    case Reset(fp, _) => table - {fp}
    case Sweep(victims, now) => map fp | fp in table && (fp in victims ==> Live(k, table[fp], now)) :: table[fp]
  }

  /** The answers given to the claims of a run, in order. */
  function Answers(k: Kind, table: map<string, int>, ops: seq<Op>): seq<bool>
    decreases |ops|
  {
    if ops == [] then []
    else
      (match ops[0]
       case IsNew(fp, _, now) => [!Holds(k, table, fp, now)]
       case Outage(_, _) => [true]
       case _ => []) + Answers(k, Apply(k, table, ops[0]), ops[1..])
  }

  /** The clock of a run never goes back. */
  predicate Timed(ops: seq<Op>, from: int) {
    ops == [] || (from <= ops[0].now && Timed(ops[1..], ops[0].now))
  }

  // ---------------------------------------------------------------- sweeping is invisible

  ghost predicate SameEntry(k: Kind, a: map<string, int>, b: map<string, int>, fp: string, now: int) {
    (Holds(k, a, fp, now) <==> Holds(k, b, fp, now)) && (Holds(k, a, fp, now) ==> a[fp] == b[fp])
  }

  /** The tables cannot be told apart from `now` on. */
  ghost predicate Agree(k: Kind, a: map<string, int>, b: map<string, int>, now: int) {
    forall fp :: SameEntry(k, a, b, fp, now)
  }

  lemma LiveEarlier(k: Kind, stamp: int, now: int, later: int)
    requires now <= later && Live(k, stamp, later)
    ensures Live(k, stamp, now)
  {}

  lemma AgreeLater(k: Kind, a: map<string, int>, b: map<string, int>, now: int, later: int)
    requires Agree(k, a, b, now) && now <= later
    ensures Agree(k, a, b, later)
  {
    forall fp ensures SameEntry(k, a, b, fp, later) {
      assert SameEntry(k, a, b, fp, now);
      if Holds(k, a, fp, later) { LiveEarlier(k, a[fp], now, later); }
      if Holds(k, b, fp, later) { LiveEarlier(k, b[fp], now, later); }
    }
  }

  lemma AgreeApply(k: Kind, a: map<string, int>, b: map<string, int>, op: Op)
    requires Agree(k, a, b, op.now)
    ensures Agree(k, Apply(k, a, op), Apply(k, b, op), op.now)
  {
    var a', b' := Apply(k, a, op), Apply(k, b, op);
    forall fp ensures SameEntry(k, a', b', fp, op.now) {
      assert SameEntry(k, a, b, fp, op.now);
      assert op.IsNew? ==> SameEntry(k, a, b, op.fp, op.now);
    }
  }

  lemma {:induction false} AgreeAnswers(k: Kind, a: map<string, int>, b: map<string, int>, ops: seq<Op>, now: int)
    requires Agree(k, a, b, now) && Timed(ops, now)
    ensures Answers(k, a, ops) == Answers(k, b, ops)
    decreases |ops|
  {
    if ops != [] {
      AgreeLater(k, a, b, now, ops[0].now);
      AgreeApply(k, a, b, ops[0]);
      assert ops[0].IsNew? ==> SameEntry(k, a, b, ops[0].fp, ops[0].now);
      AgreeAnswers(k, Apply(k, a, ops[0]), Apply(k, b, ops[0]), ops[1..], ops[0].now);
    }
  }

  lemma SweepAgrees(k: Kind, table: map<string, int>, op: Op)
    requires op.Sweep?
    ensures Agree(k, Apply(k, table, op), table, op.now)
  {}

  /** A sweep takes away those victims that have expired, and nothing else. */
  lemma SweepMeaning(k: Kind, table: map<string, int>, victims: set<string>, now: int, fp: string)
    ensures
      var after := Apply(k, table, Sweep(victims, now));
      && (fp in after <==> fp in table && (fp in victims ==> Live(k, table[fp], now)))
      && (fp in after ==> after[fp] == table[fp])
  {
  }

  predicate Call(op: Op) { !op.Sweep? }

  lemma {:induction false} TimedLater(ops: seq<Op>, from: int, earlier: int)
    requires Timed(ops, from) && earlier <= from
    ensures Timed(ops, earlier)
  {}

  lemma {:induction false} TimedCalls(ops: seq<Op>, from: int)
    requires Timed(ops, from)
    ensures Timed(Filter(Call, ops), from)
    decreases |ops|
  {
    if ops != [] {
      TimedCalls(ops[1..], ops[0].now);
      FilterFirst(Call, ops);
      var rest := Filter(Call, ops[1..]);
      if Call(ops[0]) {
        assert ([ops[0]] + rest)[1..] == rest;
      } else {
        assert Filter(Call, ops) == rest;
        TimedLater(rest, ops[0].now, from);
      }
    }
  }

  /** Whatever the sweeper removes and whenever it runs, no claim is ever answered differently. */
  lemma {:induction false} SweepingInvisible(k: Kind, table: map<string, int>, ops: seq<Op>, from: int)
    requires Timed(ops, from)
    ensures Answers(k, table, ops) == Answers(k, table, Filter(Call, ops))
    decreases |ops|
  {
    if ops != [] {
      var op, rest := ops[0], Filter(Call, ops[1..]);
      FilterFirst(Call, ops);
      SweepingInvisible(k, Apply(k, table, op), ops[1..], op.now);
      if Call(op) {
        assert ([op] + rest)[1..] == rest;
      } else {
        assert Filter(Call, ops) == rest;
        SweepAgrees(k, table, op);
        TimedCalls(ops[1..], op.now);
        AgreeAnswers(k, Apply(k, table, op), table, rest, op.now);
      }
    }
  }

  lemma OneClaim(k: Kind, table: map<string, int>, fp: string, now: int)
    ensures
      var answers := Answers(k, table, [IsNew(fp, 1, now)]);
      |answers| == 1 && answers[0] == !Holds(k, table, fp, now)
  {
    var ops := [IsNew(fp, 1, now)];
    assert ops[1..] == [];
    assert Answers(k, Apply(k, table, ops[0]), ops[1..]) == [];
  }

  /** Deleting an entry goes unnoticed by every later run exactly when the entry no longer suppresses. For the put this
      leaves out an entry whose `expiresAt` is the current second: a sweeper that took it would reopen the window. */
  lemma DeletionInvisibleIff(k: Kind, table: map<string, int>, fp: string, now: int)
    ensures (forall ops :: Timed(ops, now) ==> Answers(k, table - {fp}, ops) == Answers(k, table, ops))
       <==> !Holds(k, table, fp, now)
  {
    if Holds(k, table, fp, now) {
      var ops := [IsNew(fp, 1, now)];
      OneClaim(k, table, fp, now);
      OneClaim(k, table - {fp}, fp, now);
      assert Timed(ops, now);
    } else {
      assert Agree(k, table - {fp}, table, now);
      forall ops | Timed(ops, now) ensures Answers(k, table - {fp}, ops) == Answers(k, table, ops) {
        AgreeAnswers(k, table - {fp}, table, ops, now);
      }
    }
  }

  // ---------------------------------------------------------------- rate

  /** The first millisecond at which a claim made at `t` no longer suppresses. */
  function Release(k: Kind, t: int, ttl: int): int {
    if k.InMemory? then t + 1000 * ttl else 1000 * (t / 1000 + ttl + 1)
  }

  /** The in-memory window is exactly `ttl` seconds; flooring makes the other one longer, by at most a second. */
  lemma SuppressionWindow(k: Kind, t: int, ttl: int, now: int)
    ensures Live(k, Stamp(k, t, ttl), now) <==> now < Release(k, t, ttl)
    ensures k.InMemory? ==> Release(k, t, ttl) - t == 1000 * ttl
    ensures k.DynamoDb? ==> 1000 * ttl < Release(k, t, ttl) - t <= 1000 * (ttl + 1)
  {}

  /** The times at which a claim of the fingerprint was accepted by the store. */
  function AcceptTimes(k: Kind, table: map<string, int>, ops: seq<Op>, fp: string): seq<int>
    decreases |ops|
  {
    if ops == [] then []
    else
      (if ops[0].IsNew? && ops[0].fp == fp && !Holds(k, table, fp, ops[0].now) then [ops[0].now] else [])
      + AcceptTimes(k, Apply(k, table, ops[0]), ops[1..], fp)
  }

  /** The entries after a run of calls. */
  function TableAfter(k: Kind, table: map<string, int>, ops: seq<Op>): map<string, int>
    decreases |ops|
  {
    if ops == [] then table else TableAfter(k, Apply(k, table, ops[0]), ops[1..])
  }

  /** Call `i` claims the fingerprint, and the store accepts. */
  predicate AcceptedAt(k: Kind, table: map<string, int>, ops: seq<Op>, fp: string, i: nat)
    requires i < |ops|
  {
    ops[i].IsNew? && ops[i].fp == fp && !Holds(k, TableAfter(k, table, ops[..i]), fp, ops[i].now)
  }

  lemma {:induction false} AcceptTimesSnoc(k: Kind, table: map<string, int>, ops: seq<Op>, op: Op, fp: string)
    ensures AcceptTimes(k, table, ops + [op], fp)
         == AcceptTimes(k, table, ops, fp)
            + if op.IsNew? && op.fp == fp && !Holds(k, TableAfter(k, table, ops), fp, op.now) then [op.now] else []
    decreases |ops|
  {
    hide Apply, Holds;
    if ops == [] {
      assert ops + [op] == [op] && [op][1..] == [];
    } else {
      var next := Apply(k, table, ops[0]);
      assert (ops + [op])[1..] == ops[1..] + [op];
      AcceptTimesSnoc(k, next, ops[1..], op, fp);
      var first := if ops[0].IsNew? && ops[0].fp == fp && !Holds(k, table, fp, ops[0].now) then [ops[0].now] else [];
      assert AcceptTimes(k, table, ops + [op], fp) == first + AcceptTimes(k, next, ops[1..] + [op], fp);
      assert AcceptTimes(k, table, ops, fp) == first + AcceptTimes(k, next, ops[1..], fp);
    }
  }

  /** The times listed are those of the accepted claims, all of them and in order. */
  lemma {:induction false} AcceptTimesAt(k: Kind, table: map<string, int>, ops: seq<Op>, fp: string)
    returns (at: seq<nat>)
    ensures Enumerates(at, set i: nat | i < |ops| && AcceptedAt(k, table, ops, fp, i))
    ensures |AcceptTimes(k, table, ops, fp)| == |at|
    ensures forall j :: 0 <= j < |at| ==> at[j] < |ops| && AcceptTimes(k, table, ops, fp)[j] == ops[at[j]].now
  {
    at := [];
    if ops != [] {
      var n := |ops| - 1;
      var front := ops[..n];
      at := AcceptTimesAt(k, table, front, fp);
      AcceptTimesSnoc(k, table, front, ops[n], fp);
      assert ops == front + [ops[n]];
      hide AcceptTimes, TableAfter;
      forall i: nat | i < n ensures AcceptedAt(k, table, front, fp, i) <==> AcceptedAt(k, table, ops, fp, i) {
        assert front[..i] == ops[..i];
      }
      var before, all := set i: nat | i < n && AcceptedAt(k, table, front, fp, i),
                         set i: nat | i < |ops| && AcceptedAt(k, table, ops, fp, i);
      if AcceptedAt(k, table, ops, fp, n) {
        EnumeratesSnoc(at, before, n);
        at := at + [n];
        assert all == before + {n};
      } else {
        assert all == before;
      }
    }
  }

  /** Nobody resets the fingerprint, and all its claims ask for the same window. */
  predicate Steady(ops: seq<Op>, fp: string, ttl: int) {
    forall i :: 0 <= i < |ops| ==>
      (ops[i].Reset? ==> ops[i].fp != fp) && (ops[i].IsNew? && ops[i].fp == fp ==> ops[i].ttl == ttl)
  }

  lemma {:induction false} NextAccept(k: Kind, table: map<string, int>, ops: seq<Op>, fp: string, ttl: int, since: int,
      from: int)
    requires Timed(ops, from) && Steady(ops, fp, ttl)
    requires (fp in table && table[fp] == Stamp(k, since, ttl)) || from >= Release(k, since, ttl)
    ensures AcceptTimes(k, table, ops, fp) != [] ==> AcceptTimes(k, table, ops, fp)[0] >= Release(k, since, ttl)
    decreases |ops|
  {
    if ops != [] {
      var op := ops[0];
      SuppressionWindow(k, since, ttl, op.now);
      if op.IsNew? && op.fp == fp && !Holds(k, table, fp, op.now) {
      } else {
        NextAccept(k, Apply(k, table, op), ops[1..], fp, ttl, since, op.now);
      }
    }
  }

  lemma {:induction false} AcceptGap(k: Kind, table: map<string, int>, ops: seq<Op>, fp: string, ttl: int, from: int,
      i: nat)
    requires Timed(ops, from) && Steady(ops, fp, ttl)
    requires i + 1 < |AcceptTimes(k, table, ops, fp)|
    ensures AcceptTimes(k, table, ops, fp)[i + 1] >= Release(k, AcceptTimes(k, table, ops, fp)[i], ttl)
    decreases |ops|
  {
    var op, table' := ops[0], Apply(k, table, ops[0]);
    if op.IsNew? && op.fp == fp && !Holds(k, table, fp, op.now) {
      if i == 0 {
        NextAccept(k, table', ops[1..], fp, ttl, op.now, op.now);
      } else {
        AcceptGap(k, table', ops[1..], fp, ttl, op.now, i - 1);
      }
    } else {
      AcceptGap(k, table', ops[1..], fp, ttl, op.now, i);
    }
  }

  /** Rate bound: `n + 1` accepted claims of a fingerprint span at least `n` windows, sweeps or not. */
  lemma {:induction false} RateBound(k: Kind, table: map<string, int>, ops: seq<Op>, fp: string, ttl: int, from: int,
      i: nat, n: nat)
    requires Timed(ops, from) && Steady(ops, fp, ttl)
    requires i + n < |AcceptTimes(k, table, ops, fp)|
    ensures AcceptTimes(k, table, ops, fp)[i + n] - AcceptTimes(k, table, ops, fp)[i] >= n * (1000 * ttl)
    decreases n
  {
    if n > 0 {
      var times := AcceptTimes(k, table, ops, fp);
      RateBound(k, table, ops, fp, ttl, from, i, n - 1);
      AcceptGap(k, table, ops, fp, ttl, from, i + n - 1);
      SuppressionWindow(k, times[i + n - 1], ttl, 0);
      assert n * (1000 * ttl) == (n - 1) * (1000 * ttl) + 1000 * ttl;
    }
  }

  // ---------------------------------------------------------------- the stores as sets of claims

  /** The claims a store shows at a given time. */
  ghost function Claims(k: Kind, table: map<string, int>, now: int): set<string> {
    set fp | fp in table.Keys && Live(k, table[fp], now)
  }

  /** A store behaves as a set of claims from which time may only remove: the abstraction the delivery protocol uses. */
  lemma StoreAsClaims(k: Kind, table: map<string, int>, fp: string, ttl: int, now: int, later: int)
    requires ttl > 0 && now <= later
    ensures Answers(k, table, [IsNew(fp, ttl, now)]) == if fp in Claims(k, table, now) then [false] else [true]
    ensures Claims(k, Apply(k, table, IsNew(fp, ttl, now)), now) == Claims(k, table, now) + {fp}
    ensures Claims(k, Apply(k, table, Reset(fp, now)), now) == Claims(k, table, now) - {fp}
    ensures Claims(k, table, later) <= Claims(k, table, now)
    ensures Answers(k, table, [Outage(fp, now)]) == [true] && Apply(k, table, Outage(fp, now)) == table
  {
    assert [IsNew(fp, ttl, now)][1..] == [] && [Outage(fp, now)][1..] == [];
    forall x | x in Claims(k, table, later) ensures x in Claims(k, table, now) {
      LiveEarlier(k, table[x], now, later);
    }
  }

  // ---------------------------------------------------------------- the adapters

  datatype DedupResult = DedupResult(isNew: bool, ttlSeconds: int, error: Option<string>)

  class InMemoryDeduplicationStore {
    var store: map<string, int>

    constructor ()
      ensures store == map[]
    {
      store := map[];
    }

    method IsNewClaim(fp: string, ttl: int, now: int) returns (r: DedupResult)
      modifies this
      ensures store == Apply(InMemory, old(store), IsNew(fp, ttl, now))
      ensures r == DedupResult(!Holds(InMemory, old(store), fp, now), ttl, None)
    {
      if fp in store && store[fp] > now {
        return DedupResult(false, ttl, None);
      }
      store := store[fp := now + ttl * 1000];
      r := DedupResult(true, ttl, None);
    }

    method ResetClaim(fp: string, ghost now: int)
      modifies this
      ensures store == Apply(InMemory, old(store), Reset(fp, now))
    {
      store := store - {fp};
    }

    method Clear()
      modifies this
      ensures store == map[]
    {
      store := map[];
    }
  }

  /** The server drops a key at its expiry, in milliseconds as the in-memory map does. */
  class RedisDeduplicationStore {
    var keys: map<string, int>

    /** `SET key 1 EX ttl NX` as the server performs it. */
    method SetIfAbsent(fp: string, ttl: int, now: int) returns (ok: bool)
      modifies this
      ensures ok <==> !Holds(InMemory, old(keys), fp, now)
      ensures keys == if ok then old(keys)[fp := now + ttl * 1000] else old(keys)
    {
      ok := fp !in keys || keys[fp] <= now;
      if ok { keys := keys[fp := now + ttl * 1000]; }
    }

    method IsNewClaim(fp: string, ttl: int, now: int, reachable: bool) returns (r: DedupResult)
      modifies this
      ensures keys == Apply(InMemory, old(keys), if reachable then IsNew(fp, ttl, now) else Outage(fp, now))
      ensures r.isNew <==> !reachable || !Holds(InMemory, old(keys), fp, now)
      ensures r.ttlSeconds == ttl && (r.error.Some? <==> !reachable)
    {
      if !reachable {
        return DedupResult(true, ttl, Some("unreachable"));
      }
      var ok := SetIfAbsent(fp, ttl, now);
      r := DedupResult(ok, ttl, None);
    }

    method ResetClaim(fp: string, ghost now: int, reachable: bool) returns (ok: bool)
      modifies this
      ensures ok == reachable
      ensures keys == if reachable then Apply(InMemory, old(keys), Reset(fp, now)) else old(keys)
    {
      if reachable { keys := keys - {fp}; }
      ok := reachable;
    }
  }

  class DynamoDBDeduplicationStore {
    var table: map<string, int>

    /** The put as the database performs it: one conditional write. */
    method PutItem(fp: string, expiresAt: int, nowSec: int) returns (conditionFailed: bool)
      modifies this
      ensures conditionFailed <==> fp in old(table) && old(table)[fp] >= nowSec
      ensures table == if conditionFailed then old(table) else old(table)[fp := expiresAt]
    {
      if fp !in table || table[fp] < nowSec {
        table := table[fp := expiresAt];
        return false;
      }
      conditionFailed := true;
    }

    method IsNewClaim(fp: string, ttl: int, now: int, reachable: bool) returns (r: DedupResult)
      modifies this
      ensures table == Apply(DynamoDb, old(table), if reachable then IsNew(fp, ttl, now) else Outage(fp, now))
      ensures r.isNew <==> !reachable || !Holds(DynamoDb, old(table), fp, now)
      ensures r.ttlSeconds == ttl && (r.error.Some? <==> !reachable)
    {
      var nowSec := now / 1000;
      if !reachable {
        return DedupResult(true, ttl, Some("unreachable"));
      }
      var failed := PutItem(fp, nowSec + ttl, nowSec);
      r := DedupResult(!failed, ttl, None);
    }

    /** An unreachable database makes `reset` throw. */
    method ResetClaim(fp: string, ghost now: int, reachable: bool) returns (ok: bool)
      modifies this
      ensures ok == reachable
      ensures table == if reachable then Apply(DynamoDb, old(table), Reset(fp, now)) else old(table)
    {
      if reachable { table := table - {fp}; }
      ok := reachable;
    }
  }
}
