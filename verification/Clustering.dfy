/** Grouping of alerts into clusters: groups, representative values. */
module Clustering {
  import opened Prelude
  import opened Sorting

  datatype AlertType = Error | Warning | Success

  function TypeName(t: AlertType): string {
    match t
    case Error => "http_500"
    case Warning => "latency_spike"
    case Success => "recovery"
  }

  /** A date string together with the instant it denotes; one instant has several spellings. */
  datatype Timestamp = Timestamp(text: string, ms: int)

  datatype Alert = Alert(
    serviceName: string,
    alertType: AlertType,
    endpointPath: string,
    traceId: Option<string>,
    startsAt: Timestamp,
    latencyMs: Option<real>
  )

  datatype Cluster = Cluster(
    fingerprint: string,
    serviceName: string,
    alertType: AlertType,
    endpointPath: string,
    alertCount: nat,
    representativeTraceIds: seq<string>,
    firstSeenAt: Timestamp,
    latencyP99Ms: Option<real>,
    labels: Option<map<string, string>>
  )

  // ---------------------------------------------------------------- one cluster

  function StartOf(a: Alert): real { a.startsAt.ms as real }

  function LatencyOf(a: Alert): real {
    if a.latencyMs.Some? then a.latencyMs.value else 0.0
  }

  predicate Traced(a: Alert) {
    a.traceId.Some? && a.traceId.value != ""
  }

  /** Walks the alerts and keeps the first one strictly slower than everything before it. */
  function Slowest(current: Alert, rest: seq<Alert>): (r: Alert)
    ensures r == current || r in rest
    ensures LatencyOf(current) <= LatencyOf(r)
    ensures forall a :: a in rest ==> LatencyOf(a) <= LatencyOf(r)
    decreases |rest|
  {
    if rest == [] then current
    else Slowest(if LatencyOf(rest[0]) > LatencyOf(current) then rest[0] else current, rest[1..])
  }

  /** The sort keeps the elements, so each alert picked from it is one of those given. */
  lemma SortedMember(alerts: seq<Alert>, a: Alert)
    ensures a in SortBy(StartOf, alerts) <==> a in alerts
  {
    SortByMultiset(StartOf, alerts);
    assert a in multiset(alerts) <==> a in multiset(SortBy(StartOf, alerts));
  }

  function SampleTraceIds(alerts: seq<Alert>): seq<string> {
    var traced := Filter(Traced, alerts);
    if traced == [] then []
    else
      var first := SortBy(StartOf, traced)[0];
      SortedMember(traced, first);
      var slowest := Slowest(first, traced);
      FilterMember(Traced, alerts, first);
      FilterMember(Traced, alerts, slowest);
      if slowest.traceId == first.traceId then [first.traceId.value] else [first.traceId.value, slowest.traceId.value]
  }

  function P99Index(n: nat): nat { 99 * n / 100 }

  function SortedLatencies(alerts: seq<Alert>): (r: seq<real>)
    ensures |r| == |alerts|
  {
    SortBy((x: real) => x, Map(LatencyOf, alerts))
  }

  /** The clamp to the last position is in the code although it never applies, see `P99IndexInRange`. */
  function P99(alerts: seq<Alert>): real
    requires alerts != []
  {
    var s := SortedLatencies(alerts);
    s[if P99Index(|s|) <= |s| - 1 then P99Index(|s|) else |s| - 1]
  }

  function BuildCluster(fp: string, alerts: seq<Alert>): Cluster
    requires alerts != []
  {
    var first := SortBy(StartOf, alerts)[0];
    Cluster(fp, first.serviceName, first.alertType, first.endpointPath, |alerts|, SampleTraceIds(alerts),
            first.startsAt, Some(P99(alerts)), None)
  }

  /** A cluster looks like its earliest alert, the first such in input order, and counts them all. */
  lemma ClusterHead(fp: string, alerts: seq<Alert>) returns (k: nat)
    requires alerts != []
    ensures FirstMinimum(StartOf, alerts, k)
    ensures
      var c := BuildCluster(fp, alerts);
      && c.fingerprint == fp && c.alertCount == |alerts| && c.firstSeenAt == alerts[k].startsAt && c.labels.None?
      && c.serviceName == alerts[k].serviceName && c.alertType == alerts[k].alertType
      && c.endpointPath == alerts[k].endpointPath
  {
    k := SortByHead(StartOf, alerts);
  }

  lemma P99IndexInRange(n: nat)
    requires n > 0
    ensures P99Index(n) <= n - 1
    ensures P99Index(n) == n - 1 <==> n <= 100
  {}

  /** Fewer than one percent lie above the result, and at least one percent reach it. */
  lemma P99Rank(alerts: seq<Alert>)
    requires alerts != []
    ensures 100 * CountAbove(Map(LatencyOf, alerts), P99(alerts)) < |alerts|
    ensures forall v :: v < P99(alerts) ==> 100 * CountAbove(Map(LatencyOf, alerts), v) >= |alerts|
    ensures |alerts| <= 100 ==> forall a :: a in alerts ==> LatencyOf(a) <= P99(alerts)
  {
    var id := (x: real) => x;
    var lat := Map(LatencyOf, alerts);
    var s := SortedLatencies(alerts);
    var k := P99Index(|s|);
    P99IndexInRange(|s|);
    SortedLatenciesShape(alerts);
    CountAboveRank(s, k);
    CountAboveSort(lat, s[k]);
    forall v | v < s[k] ensures 100 * CountAbove(lat, v) >= |alerts| {
      CountAboveSort(lat, v);
      CountAboveTail(s, k, v);
    }
    if |alerts| <= 100 {
      forall a | a in alerts ensures LatencyOf(a) <= s[k] {
        var i :| 0 <= i < |alerts| && alerts[i] == a;
        assert lat[i] in multiset(lat);
        assert lat[i] in multiset(s);
      }
    }
  }

  lemma SortedLatenciesShape(alerts: seq<Alert>)
    ensures Sorted(SortedLatencies(alerts))
    ensures multiset(SortedLatencies(alerts)) == multiset(Map(LatencyOf, alerts))
  {
    var id := (x: real) => x;
    var lat := Map(LatencyOf, alerts);
    SortBySorted(id, lat);
    SortByMultiset(id, lat);
    assert Map(id, SortBy(id, lat)) == SortBy(id, lat);
  }

  lemma {:induction false} CountAboveTail(s: seq<real>, k: nat, v: real)
    requires Sorted(s) && k < |s| && v < s[k]
    ensures CountAbove(s, v) >= |s| - k
    decreases |s|
  {
    if k > 0 {
      CountAboveTail(s[1..], k - 1, v);
    } else if |s| > 1 {
      CountAboveTail(s[1..], 0, v);
    }
  }

  /** At most two distinct traces, none exactly when no alert of the group carries one. */
  lemma SampleTraceIdsShape(alerts: seq<Alert>)
    ensures |SampleTraceIds(alerts)| <= 2 && Distinct(SampleTraceIds(alerts))
    ensures SampleTraceIds(alerts) == [] <==> forall a :: a in alerts ==> !Traced(a)
  {
    var traced := Filter(Traced, alerts);
    if traced != [] {
      var k := SortByHead(StartOf, traced);
      FilterMember(Traced, alerts, traced[k]);
      FilterMember(Traced, alerts, Slowest(traced[k], traced));
    }
    forall a { FilterMember(Traced, alerts, a); }
  }

  /** The first belongs to the earliest traced alert, ties resolved by input order; the last to a slowest one. */
  lemma SampleTraceIdsChoice(alerts: seq<Alert>) returns (k: nat, slowest: Alert)
    requires SampleTraceIds(alerts) != []
    ensures
      var ids, traced := SampleTraceIds(alerts), Filter(Traced, alerts);
      && FirstMinimum(StartOf, traced, k) && traced[k].traceId == Some(ids[0])
      && slowest in alerts && slowest.traceId == Some(ids[|ids| - 1])
      && forall b :: b in alerts && Traced(b) ==> LatencyOf(b) <= LatencyOf(slowest)
  {
    var traced := Filter(Traced, alerts);
    k := SortByHead(StartOf, traced);
    slowest := Slowest(traced[k], traced);
    FilterMember(Traced, alerts, traced[k]);
    FilterMember(Traced, alerts, slowest);
    forall b | b in alerts && Traced(b) ensures LatencyOf(b) <= LatencyOf(slowest) {
      FilterMember(Traced, alerts, b);
    }
  }

  /** With equal latencies the earliest traced alert comes first, then input order decides. */
  lemma {:induction false} SlowestFirst(current: Alert, rest: seq<Alert>) returns (k: nat)
    ensures LatencyOf(Slowest(current, rest)) == LatencyOf(current) ==> Slowest(current, rest) == current
    ensures LatencyOf(Slowest(current, rest)) != LatencyOf(current) ==>
              k < |rest| && Slowest(current, rest) == rest[k]
              && forall j :: 0 <= j < k ==> LatencyOf(rest[j]) < LatencyOf(rest[k])
    decreases |rest|
  {
    k := 0;
    if rest != [] {
      var m := SlowestFirst(if LatencyOf(rest[0]) > LatencyOf(current) then rest[0] else current, rest[1..]);
      if LatencyOf(Slowest(current, rest)) > LatencyOf(rest[0]) {
        k := m + 1;
        forall j | 0 <= j < k && LatencyOf(Slowest(current, rest)) != LatencyOf(current)
          ensures LatencyOf(rest[j]) < LatencyOf(rest[k])
        {
          assert j > 0 ==> rest[j] == rest[1..][j - 1];
        }
      }
    }
  }

  // What a cluster reports about its group, said on the alerts.

  /** The alerts slower than `v`; an alert without a latency counts as zero. */
  ghost function SlowerThan(group: seq<Alert>, v: real): set<nat> {
    set k: nat | k < |group| && (if group[k].latencyMs.Some? then group[k].latencyMs.value else 0.0) > v
  }

  /** Fewer than one percent are slower, and than anything below it at least one percent are; up to a hundred alerts
      nobody is slower. */
  ghost predicate PercentileOf(v: Option<real>, group: seq<Alert>) {
    && v.Some? && 100 * |SlowerThan(group, v.value)| < |group|
    && (forall u :: u < v.value ==> 100 * |SlowerThan(group, u)| >= |group|)
    && (|group| <= 100 ==> SlowerThan(group, v.value) == {})
  }

  ghost predicate HasTrace(group: seq<Alert>, k: int) {
    0 <= k < |group| && group[k].traceId != None && group[k].traceId != Some("")
  }

  /** The earliest alert with a trace, the first such in input order. */
  ghost predicate EarliestTraced(group: seq<Alert>, e: nat) {
    HasTrace(group, e) && forall k :: HasTrace(group, k) ==>
      group[e].startsAt.ms <= group[k].startsAt.ms && (k < e ==> group[e].startsAt.ms < group[k].startsAt.ms)
  }

  /** The slowest alert with a trace: the earliest one if no other is slower, else the first such in input order. */
  ghost predicate SlowestTraced(group: seq<Alert>, e: nat, m: nat) {
    && HasTrace(group, m) && e < |group|
    && (forall k :: HasTrace(group, k) ==> LatencyOf(group[k]) <= LatencyOf(group[m]))
    && (LatencyOf(group[e]) == LatencyOf(group[m]) ==> m == e)
    && (m != e ==> forall k :: HasTrace(group, k) && k < m ==> LatencyOf(group[k]) < LatencyOf(group[m]))
  }

  ghost predicate TracesOf(ids: seq<string>, group: seq<Alert>) {
    && |ids| <= 2 && (|ids| == 2 ==> ids[0] != ids[1])
    && (ids == [] <==> forall k :: 0 <= k < |group| ==> !HasTrace(group, k))
    && (ids != [] ==> exists e: nat, m: nat :: EarliestTraced(group, e) && SlowestTraced(group, e, m)
                        && group[e].traceId == Some(ids[0]) && group[m].traceId == Some(ids[|ids| - 1]))
  }

  /** The cluster looks like this alert, the first of the earliest ones. */
  ghost predicate LooksLike(c: Cluster, group: seq<Alert>, e: nat) {
    && e < |group|
    && (forall k :: 0 <= k < |group| ==>
          group[e].startsAt.ms <= group[k].startsAt.ms && (k < e ==> group[e].startsAt.ms < group[k].startsAt.ms))
    && c.serviceName == group[e].serviceName && c.alertType == group[e].alertType
    && c.endpointPath == group[e].endpointPath && c.firstSeenAt == group[e].startsAt
  }

  ghost predicate Reports(c: Cluster, group: seq<Alert>) {
    && (exists e: nat :: LooksLike(c, group, e)) && c.alertCount == |group| && c.labels.None?
    && PercentileOf(c.latencyP99Ms, group) && TracesOf(c.representativeTraceIds, group)
  }

  lemma SlowerCount(group: seq<Alert>, v: real)
    ensures |SlowerThan(group, v)| == CountAbove(Map(LatencyOf, group), v)
  {
    CountAbovePositions(Map(LatencyOf, group), v);
    assert SlowerThan(group, v) == PositionsAbove(Map(LatencyOf, group), v);
  }

  lemma PercentileMeaning(group: seq<Alert>)
    requires group != []
    ensures PercentileOf(Some(P99(group)), group)
  {
    P99Rank(group);
    hide P99, CountAbove;
    var v := P99(group);
    SlowerCount(group, v);
    forall u | u < v ensures 100 * |SlowerThan(group, u)| >= |group| { SlowerCount(group, u); }
    if |group| <= 100 {
      forall k: nat | k < |group| ensures k !in SlowerThan(group, v) { assert group[k] in group; }
    }
  }

  /** The traced alerts of the group, in order. */
  lemma TracedAt(group: seq<Alert>) returns (at: seq<nat>)
    ensures |Filter(Traced, group)| == |at| && forall j, k :: 0 <= j < k < |at| ==> at[j] < at[k]
    ensures forall j :: 0 <= j < |at| ==> HasTrace(group, at[j]) && Filter(Traced, group)[j] == group[at[j]]
    ensures forall k :: HasTrace(group, k) ==> k in at
  {
    at := FilterAt(Traced, group);
    forall j | 0 <= j < |at| ensures HasTrace(group, at[j]) { assert at[j] in at; }
  }

  lemma EarliestTracedAt(group: seq<Alert>, at: seq<nat>, k: nat)
    requires |Filter(Traced, group)| == |at| && forall i, j :: 0 <= i < j < |at| ==> at[i] < at[j]
    requires forall j :: 0 <= j < |at| ==> HasTrace(group, at[j]) && Filter(Traced, group)[j] == group[at[j]]
    requires forall j :: HasTrace(group, j) ==> j in at
    requires FirstMinimum(StartOf, Filter(Traced, group), k)
    ensures EarliestTraced(group, at[k])
  {
    hide Filter;
    var traced := Filter(Traced, group);
    forall j | HasTrace(group, j)
      ensures group[at[k]].startsAt.ms <= group[j].startsAt.ms
      ensures j < at[k] ==> group[at[k]].startsAt.ms < group[j].startsAt.ms
    {
      var i :| 0 <= i < |at| && at[i] == j;
      assert StartOf(traced[k]) <= StartOf(traced[i]);
    }
  }

  lemma SlowestTracedAt(group: seq<Alert>, at: seq<nat>, k: nat, slowest: Alert) returns (m: nat)
    requires |Filter(Traced, group)| == |at| && forall i, j :: 0 <= i < j < |at| ==> at[i] < at[j]
    requires forall j :: 0 <= j < |at| ==> HasTrace(group, at[j]) && Filter(Traced, group)[j] == group[at[j]]
    requires forall j :: HasTrace(group, j) ==> j in at
    requires k < |at| && HasTrace(group, at[k]) && slowest == Slowest(group[at[k]], Filter(Traced, group))
    ensures SlowestTraced(group, at[k], m) && group[m] == slowest
  {
    var traced := Filter(Traced, group);
    var n := SlowestFirst(group[at[k]], traced);
    hide Filter, Slowest, LatencyOf;
    m := if LatencyOf(slowest) == LatencyOf(group[at[k]]) then at[k] else at[n];
    forall j | HasTrace(group, j)
      ensures LatencyOf(group[j]) <= LatencyOf(slowest)
      ensures m != at[k] && j < m ==> LatencyOf(group[j]) < LatencyOf(slowest)
    {
      var i :| 0 <= i < |at| && at[i] == j;
      assert traced[i] in traced;
    }
  }

  lemma TracesMeaning(group: seq<Alert>)
    ensures TracesOf(SampleTraceIds(group), group)
  {
    SampleTraceIdsShape(group);
    var ids := SampleTraceIds(group);
    var at := TracedAt(group);
    if ids != [] {
      var traced := Filter(Traced, group);
      var k := SortByHead(StartOf, traced);
      EarliestTracedAt(group, at, k);
      var m := SlowestTracedAt(group, at, k, Slowest(traced[k], traced));
    }
  }

  lemma HeadLooks(fp: string, group: seq<Alert>) returns (e: nat)
    requires group != []
    ensures LooksLike(BuildCluster(fp, group), group, e)
  {
    e := ClusterHead(fp, group);
    hide P99, SampleTraceIds, SortBy, BuildCluster;
    forall k | 0 <= k < |group|
      ensures group[e].startsAt.ms <= group[k].startsAt.ms
      ensures k < e ==> group[e].startsAt.ms < group[k].startsAt.ms
    {
      assert StartOf(group[e]) <= StartOf(group[k]);
    }
  }

  lemma BuildReports(fp: string, group: seq<Alert>)
    requires group != []
    ensures BuildCluster(fp, group).fingerprint == fp && Reports(BuildCluster(fp, group), group)
  {
    var e := HeadLooks(fp, group);
    PercentileMeaning(group);
    TracesMeaning(group);
    hide P99, SampleTraceIds, PercentileOf, TracesOf, LooksLike, SortBy;
  }

  // ---------------------------------------------------------------- all clusters
  // `keyOf` is the fingerprint of an alert, see module Fingerprints.

  function Group(keyOf: Alert -> string, alerts: seq<Alert>, fp: string): seq<Alert> {
    Filter((a: Alert) => keyOf(a) == fp, alerts)
  }

  /** The fingerprints of the alerts, each once, in order of first appearance. */
  function Fingerprints(keyOf: Alert -> string, alerts: seq<Alert>): seq<string> {
    if alerts == [] then []
    else
      var f := keyOf(alerts[|alerts| - 1]);
      var before := Fingerprints(keyOf, alerts[..|alerts| - 1]);
      if f in before then before else before + [f]
  }

  /** The position of the first alert with the fingerprint, or the number of alerts if there is none. */
  function FirstIndex(keyOf: Alert -> string, alerts: seq<Alert>, fp: string): (k: nat)
    ensures k <= |alerts|
    ensures k < |alerts| ==> keyOf(alerts[k]) == fp
    ensures forall i :: 0 <= i < k ==> keyOf(alerts[i]) != fp
  {
    if alerts == [] then 0
    else
      var n := |alerts| - 1;
      var k := FirstIndex(keyOf, alerts[..n], fp);
      assert forall i :: 0 <= i < n ==> alerts[..n][i] == alerts[i];
      if k < n || keyOf(alerts[n]) == fp then k else n + 1
  }

  lemma {:induction false} FingerprintsFound(keyOf: Alert -> string, alerts: seq<Alert>, fp: string)
    ensures fp in Fingerprints(keyOf, alerts) <==> FirstIndex(keyOf, alerts, fp) < |alerts|
  {
    if alerts != [] { FingerprintsFound(keyOf, alerts[..|alerts| - 1], fp); }
  }

  lemma {:induction false} FingerprintsOrder(keyOf: Alert -> string, alerts: seq<Alert>, i: nat, j: nat)
    requires i < j < |Fingerprints(keyOf, alerts)|
    ensures FirstIndex(keyOf, alerts, Fingerprints(keyOf, alerts)[i])
          < FirstIndex(keyOf, alerts, Fingerprints(keyOf, alerts)[j])
  {
    var n := |alerts| - 1;
    var before := Fingerprints(keyOf, alerts[..n]);
    if j < |before| {
      FingerprintsOrder(keyOf, alerts[..n], i, j);
      FingerprintsFound(keyOf, alerts[..n], before[i]);
      FingerprintsFound(keyOf, alerts[..n], before[j]);
    } else {
      FingerprintsFound(keyOf, alerts[..n], before[i]);
      FingerprintsFound(keyOf, alerts[..n], Fingerprints(keyOf, alerts)[j]);
    }
  }

  lemma FingerprintsDistinct(keyOf: Alert -> string, alerts: seq<Alert>)
    ensures Distinct(Fingerprints(keyOf, alerts))
  {
    var fps := Fingerprints(keyOf, alerts);
    forall i, j | 0 <= i < j < |fps| ensures fps[i] != fps[j] {
      FingerprintsOrder(keyOf, alerts, i, j);
    }
  }

  lemma GroupMember(keyOf: Alert -> string, alerts: seq<Alert>, fp: string, a: Alert)
    ensures a in Group(keyOf, alerts, fp) <==> a in alerts && keyOf(a) == fp
  {
    FilterMember((x: Alert) => keyOf(x) == fp, alerts, a);
  }

  lemma GroupNonempty(keyOf: Alert -> string, alerts: seq<Alert>, fp: string)
    ensures Group(keyOf, alerts, fp) != [] <==> fp in Fingerprints(keyOf, alerts)
  {
    var group := Group(keyOf, alerts, fp);
    FingerprintsFound(keyOf, alerts, fp);
    var k := FirstIndex(keyOf, alerts, fp);
    if k < |alerts| {
      GroupMember(keyOf, alerts, fp, alerts[k]);
    }
    if group != [] {
      GroupMember(keyOf, alerts, fp, group[0]);
    }
  }

  /** The cluster of the `i`-th fingerprint. */
  function ClusterOf(keyOf: Alert -> string, alerts: seq<Alert>, i: nat): Cluster
    requires i < |Fingerprints(keyOf, alerts)|
  {
    var fp := Fingerprints(keyOf, alerts)[i];
    GroupNonempty(keyOf, alerts, fp);
    BuildCluster(fp, Group(keyOf, alerts, fp))
  }

  function ClustersOf(keyOf: Alert -> string, alerts: seq<Alert>): (r: seq<Cluster>)
    ensures |r| == |Fingerprints(keyOf, alerts)|
    ensures forall i :: 0 <= i < |r| ==> r[i] == ClusterOf(keyOf, alerts, i)
  {
    seq(|Fingerprints(keyOf, alerts)|, i requires 0 <= i < |Fingerprints(keyOf, alerts)| => ClusterOf(keyOf, alerts, i))
  }

  /** The group of a fingerprint: its alerts, in input order and each once. */
  lemma GroupAt(keyOf: Alert -> string, alerts: seq<Alert>, fp: string) returns (at: seq<nat>)
    ensures Enumerates(at, set k: nat | k < |alerts| && keyOf(alerts[k]) == fp)
    ensures |Group(keyOf, alerts, fp)| == |at|
    ensures forall j :: 0 <= j < |at| ==> at[j] < |alerts| && Group(keyOf, alerts, fp)[j] == alerts[at[j]]
  {
    var keep := (a: Alert) => keyOf(a) == fp;
    at := FilterAt(keep, alerts);
    assert (set k: nat | k < |alerts| && keep(alerts[k])) == set k: nat | k < |alerts| && keyOf(alerts[k]) == fp;
  }

  /** Every cluster reports its group: representative fields, count, percentile and traces. */
  lemma ClusterContents(keyOf: Alert -> string, alerts: seq<Alert>, i: nat)
    requires i < |ClustersOf(keyOf, alerts)|
    ensures var c := ClustersOf(keyOf, alerts)[i]; Reports(c, Group(keyOf, alerts, c.fingerprint))
  {
    var fp := Fingerprints(keyOf, alerts)[i];
    GroupNonempty(keyOf, alerts, fp);
    BuildReports(fp, Group(keyOf, alerts, fp));
  }

  function GroupSum(keyOf: Alert -> string, alerts: seq<Alert>, fps: seq<string>): nat {
    if fps == [] then 0 else GroupSum(keyOf, alerts, fps[..|fps| - 1]) + |Group(keyOf, alerts, fps[|fps| - 1])|
  }

  lemma {:induction false} GroupSumStep(keyOf: Alert -> string, alerts: seq<Alert>, x: Alert, fps: seq<string>)
    requires Distinct(fps)
    ensures GroupSum(keyOf, alerts + [x], fps)
         == GroupSum(keyOf, alerts, fps) + if keyOf(x) in fps then 1 else 0
  {
    if fps != [] {
      var m := |fps| - 1;
      GroupSumStep(keyOf, alerts, x, fps[..m]);
      assert (alerts + [x])[..|alerts|] == alerts;
      assert fps == fps[..m] + [fps[m]];
      assert Group(keyOf, alerts + [x], fps[m])
          == Group(keyOf, alerts, fps[m]) + if keyOf(x) == fps[m] then [x] else [];
    }
  }

  lemma {:induction false} GroupSumTotal(keyOf: Alert -> string, alerts: seq<Alert>)
    ensures GroupSum(keyOf, alerts, Fingerprints(keyOf, alerts)) == |alerts|
  {
    if alerts != [] {
      var n := |alerts| - 1;
      var before := Fingerprints(keyOf, alerts[..n]);
      var f := keyOf(alerts[n]);
      FingerprintsDistinct(keyOf, alerts[..n]);
      GroupSumTotal(keyOf, alerts[..n]);
      assert alerts == alerts[..n] + [alerts[n]];
      GroupSumStep(keyOf, alerts[..n], alerts[n], before);
      if f !in before {
        assert (before + [f])[..|before|] == before;
        GroupNonempty(keyOf, alerts[..n], f);
        assert Group(keyOf, alerts, f) == Group(keyOf, alerts[..n], f) + [alerts[n]];
      }
    }
  }

  function TotalCount(clusters: seq<Cluster>): nat {
    if clusters == [] then 0 else TotalCount(clusters[..|clusters| - 1]) + clusters[|clusters| - 1].alertCount
  }

  lemma {:induction false} TotalCountGroups(keyOf: Alert -> string, alerts: seq<Alert>, cs: seq<Cluster>,
      fps: seq<string>)
    requires |cs| == |fps|
    requires forall i :: 0 <= i < |cs| ==> cs[i].alertCount == |Group(keyOf, alerts, fps[i])|
    ensures TotalCount(cs) == GroupSum(keyOf, alerts, fps)
  {
    if cs != [] {
      TotalCountGroups(keyOf, alerts, cs[..|cs| - 1], fps[..|cs| - 1]);
    }
  }

  /** Clustering is a partition, its parts listed in order of first appearance. */
  lemma ClustersPartition(keyOf: Alert -> string, alerts: seq<Alert>)
    ensures
      var cs := ClustersOf(keyOf, alerts);
      && (forall i, j :: 0 <= i < j < |cs| ==>
            FirstIndex(keyOf, alerts, cs[i].fingerprint) < FirstIndex(keyOf, alerts, cs[j].fingerprint) < |alerts|)
      && (forall i :: 0 <= i < |cs| ==> cs[i].alertCount == |Group(keyOf, alerts, cs[i].fingerprint)| > 0)
      && TotalCount(cs) == |alerts|
  {
    var cs, fps := ClustersOf(keyOf, alerts), Fingerprints(keyOf, alerts);
    forall i, j | 0 <= i < j < |cs|
      ensures FirstIndex(keyOf, alerts, cs[i].fingerprint) < FirstIndex(keyOf, alerts, cs[j].fingerprint) < |alerts|
    {
      FingerprintsOrder(keyOf, alerts, i, j);
      FingerprintsFound(keyOf, alerts, fps[j]);
    }
    forall i | 0 <= i < |cs| ensures cs[i].alertCount == |Group(keyOf, alerts, cs[i].fingerprint)| > 0 {
      GroupNonempty(keyOf, alerts, fps[i]);
    }
    TotalCountGroups(keyOf, alerts, cs, fps);
    GroupSumTotal(keyOf, alerts);
  }

  /** Every alert belongs to one cluster, found under its fingerprint. */
  lemma EveryAlertClustered(keyOf: Alert -> string, alerts: seq<Alert>, a: Alert) returns (k: nat)
    requires a in alerts
    ensures k < |ClustersOf(keyOf, alerts)| && ClustersOf(keyOf, alerts)[k].fingerprint == keyOf(a)
    ensures a in Group(keyOf, alerts, keyOf(a))
    ensures forall j :: 0 <= j < |ClustersOf(keyOf, alerts)| && j != k ==>
              ClustersOf(keyOf, alerts)[j].fingerprint != keyOf(a)
  {
    var fp := keyOf(a);
    GroupMember(keyOf, alerts, fp, a);
    GroupNonempty(keyOf, alerts, fp);
    FingerprintsDistinct(keyOf, alerts);
    var fps := Fingerprints(keyOf, alerts);
    k :| 0 <= k < |fps| && fps[k] == fp;
  }

  // ---------------------------------------------------------------- input order

  lemma GroupMultiset(keyOf: Alert -> string, a: seq<Alert>, b: seq<Alert>, fp: string)
    requires multiset(a) == multiset(b)
    ensures multiset(Group(keyOf, a, fp)) == multiset(Group(keyOf, b, fp))
  {
    var keep := (x: Alert) => keyOf(x) == fp;
    forall x ensures multiset(Filter(keep, a))[x] == multiset(Filter(keep, b))[x] {
      FilterMultiset(keep, a, x);
      FilterMultiset(keep, b, x);
    }
  }

  lemma SortedLatenciesOrder(a: seq<Alert>, b: seq<Alert>)
    requires multiset(a) == multiset(b)
    ensures SortedLatencies(a) == SortedLatencies(b)
  {
    MapMultiset(LatencyOf, a, b);
    SortedLatenciesShape(a);
    SortedLatenciesShape(b);
    SortedUnique(SortedLatencies(a), SortedLatencies(b));
  }

  lemma EarliestOrder(a: seq<Alert>, b: seq<Alert>)
    requires a != [] && b != [] && multiset(a) == multiset(b)
    ensures StartOf(SortBy(StartOf, a)[0]) == StartOf(SortBy(StartOf, b)[0])
  {
    var i := SortByHead(StartOf, a);
    var j := SortByHead(StartOf, b);
    assert a[i] in multiset(b) && b[j] in multiset(a);
    var i' :| 0 <= i' < |b| && b[i'] == a[i];
    var j' :| 0 <= j' < |a| && a[j'] == b[j];
  }

  /** What a cluster reports does not depend on the order in which its alerts arrived. */
  lemma InputOrderIrrelevant(keyOf: Alert -> string, a: seq<Alert>, b: seq<Alert>, fp: string)
    requires multiset(a) == multiset(b)
    ensures fp in Fingerprints(keyOf, a) <==> fp in Fingerprints(keyOf, b)
    ensures Group(keyOf, a, fp) != [] && Group(keyOf, b, fp) != [] ==>
      var c, d := BuildCluster(fp, Group(keyOf, a, fp)), BuildCluster(fp, Group(keyOf, b, fp));
      c.alertCount == d.alertCount && c.latencyP99Ms == d.latencyP99Ms && c.firstSeenAt.ms == d.firstSeenAt.ms
  {
    var g, h := Group(keyOf, a, fp), Group(keyOf, b, fp);
    GroupMultiset(keyOf, a, b, fp);
    GroupNonempty(keyOf, a, fp);
    GroupNonempty(keyOf, b, fp);
    assert |g| == |multiset(g)| == |multiset(h)| == |h|;
    if g != [] {
      SortedLatenciesOrder(g, h);
      EarliestOrder(g, h);
    }
  }

  /** The alert is among the earliest of the group. */
  ghost predicate Earliest(alerts: seq<Alert>, a: Alert) {
    a in alerts && forall b :: b in alerts ==> a.startsAt.ms <= b.startsAt.ms
  }

  /** All alerts of the earliest instant write it in the same way. */
  ghost predicate OneSpelling(alerts: seq<Alert>) {
    forall a, b :: Earliest(alerts, a) && Earliest(alerts, b) ==> a.startsAt == b.startsAt
  }

  lemma HeadEarliest(fp: string, alerts: seq<Alert>) returns (a: Alert)
    requires alerts != []
    ensures Earliest(alerts, a) && BuildCluster(fp, alerts).firstSeenAt == a.startsAt
  {
    var k := SortByHead(StartOf, alerts);
    a := alerts[k];
    forall b | b in alerts ensures a.startsAt.ms <= b.startsAt.ms {
      var i :| 0 <= i < |alerts| && alerts[i] == b;
      assert StartOf(alerts[k]) <= StartOf(alerts[i]);
    }
  }

  lemma EarliestPermuted(alerts: seq<Alert>, other: seq<Alert>, a: Alert)
    requires multiset(alerts) == multiset(other) && Earliest(other, a)
    ensures Earliest(alerts, a)
  {
    assert a in multiset(other);
    forall b | b in alerts ensures a.startsAt.ms <= b.startsAt.ms {
      assert b in multiset(alerts);
    }
  }

  /** Some order of the group shows the spelling of a given earliest alert. */
  lemma SpellingShown(fp: string, alerts: seq<Alert>, a: Alert) returns (other: seq<Alert>)
    requires Earliest(alerts, a)
    ensures other != [] && multiset(other) == multiset(alerts) && BuildCluster(fp, other).firstSeenAt == a.startsAt
  {
    hide P99, SampleTraceIds, SortBy;
    var k :| 0 <= k < |alerts| && alerts[k] == a;
    RemoveAtMultiset(alerts, k);
    other := [a] + RemoveAt(alerts, k);
    forall j | 0 <= j < |other| ensures StartOf(other[0]) <= StartOf(other[j]) {
      assert other[j] in multiset(alerts);
    }
    var i := SortByHead(StartOf, other);
  }

  /** Of all orders of a group the first-seen date is the same. */
  ghost predicate FirstSeenFixed(fp: string, alerts: seq<Alert>)
    requires alerts != []
  {
    forall other :: other != [] && multiset(other) == multiset(alerts) ==>
      BuildCluster(fp, other).firstSeenAt == BuildCluster(fp, alerts).firstSeenAt
  }

  /** The text of the first-seen date depends on the input order exactly when the earliest instant is written in two
      ways. */
  lemma FirstSeenSpelling(fp: string, alerts: seq<Alert>)
    requires alerts != []
    ensures FirstSeenFixed(fp, alerts) <==> OneSpelling(alerts)
  {
    if OneSpelling(alerts) {
      var a := HeadEarliest(fp, alerts);
      forall other | other != [] && multiset(other) == multiset(alerts)
        ensures BuildCluster(fp, other).firstSeenAt == BuildCluster(fp, alerts).firstSeenAt
      {
        var b := HeadEarliest(fp, other);
        EarliestPermuted(alerts, other, b);
      }
    } else {
      var a, b :| Earliest(alerts, a) && Earliest(alerts, b) && a.startsAt != b.startsAt;
      var x := SpellingShown(fp, alerts, a);
      var y := SpellingShown(fp, alerts, b);
    }
  }

  // ---------------------------------------------------------------- the grouping loop

  /** The insertion-ordered table of the grouping loop: keys in order of insertion, and their groups. */
  ghost predicate Table(keyOf: Alert -> string, seen: seq<Alert>, keys: seq<string>, groups: map<string, seq<Alert>>) {
    && keys == Fingerprints(keyOf, seen)
    && (forall fp :: fp in groups <==> fp in keys)
    && forall fp :: fp in groups ==> groups[fp] == Group(keyOf, seen, fp)
  }

  lemma GroupStep(keyOf: Alert -> string, seen: seq<Alert>, x: Alert, fp: string)
    ensures Group(keyOf, seen + [x], fp) == Group(keyOf, seen, fp) + if keyOf(x) == fp then [x] else []
  {
    assert (seen + [x])[..|seen|] == seen;
  }

  lemma TableStep(keyOf: Alert -> string, seen: seq<Alert>, x: Alert, keys: seq<string>,
                  groups: map<string, seq<Alert>>)
    requires Table(keyOf, seen, keys, groups)
    ensures
      var fp := keyOf(x);
      Table(keyOf, seen + [x], if fp in groups then keys else keys + [fp],
            groups[fp := (if fp in groups then groups[fp] else []) + [x]])
  {
    var fp := keyOf(x);
    assert (seen + [x])[..|seen|] == seen;
    GroupNonempty(keyOf, seen, fp);
    forall gp { GroupStep(keyOf, seen, x, gp); }
  }

  method BuildClusters(keyOf: Alert -> string, alerts: seq<Alert>) returns (clusters: seq<Cluster>)
    ensures clusters == ClustersOf(keyOf, alerts)
    ensures forall i :: 0 <= i < |clusters| ==> Reports(clusters[i], Group(keyOf, alerts, clusters[i].fingerprint))
  {
    forall i | 0 <= i < |ClustersOf(keyOf, alerts)|
      ensures var c := ClustersOf(keyOf, alerts)[i]; Reports(c, Group(keyOf, alerts, c.fingerprint))
    {
      ClusterContents(keyOf, alerts, i);
    }
    hide Reports;
    var keys: seq<string> := [];
    var groups: map<string, seq<Alert>> := map[];
    for i := 0 to |alerts|
      invariant Table(keyOf, alerts[..i], keys, groups)
    {
      TableStep(keyOf, alerts[..i], alerts[i], keys, groups);
      assert alerts[..i + 1] == alerts[..i] + [alerts[i]];
      var fp := keyOf(alerts[i]);
      var group := (if fp in groups then groups[fp] else []) + [alerts[i]];
      keys := if fp in groups then keys else keys + [fp];
      groups := groups[fp := group];
    }
    assert alerts[..|alerts|] == alerts;
    clusters := BuildEach(keyOf, alerts, keys, groups);
  }

  method BuildEach(keyOf: Alert -> string, ghost alerts: seq<Alert>, keys: seq<string>, groups: map<string, seq<Alert>>)
    returns (clusters: seq<Cluster>)
    requires Table(keyOf, alerts, keys, groups)
    ensures clusters == ClustersOf(keyOf, alerts)
  {
    hide BuildCluster, Group, Fingerprints;
    clusters := [];
    for i := 0 to |keys|
      invariant |clusters| == i && forall j :: 0 <= j < i ==> clusters[j] == ClusterOf(keyOf, alerts, j)
    {
      GroupNonempty(keyOf, alerts, keys[i]);
      clusters := clusters + [BuildCluster(keys[i], groups[keys[i]])];
    }
  }
}
