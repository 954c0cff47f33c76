/** The rule engine: conditions compiled to predicates, actions folded ahead of time, first match wins. */
module Rules {
  import opened Prelude
  import opened Clustering
  import Text

  datatype Severity = Critical | High | Medium | Low

  datatype Analysis = Analysis(urgency: Severity, requiresRollback: bool, impactedServices: seq<string>)

  datatype Range = Range(min: Option<real>, max: Option<real>)

  datatype Condition = Condition(
    serviceName: Option<string>,
    alertType: Option<AlertType>,
    severity: Option<Severity>,
    labels: Option<map<string, string>>,
    endpointPath: Option<string>,
    alertCount: Option<Range>,
    latencyP99Ms: Option<Range>,
    urgencyLevel: Option<Severity>,
    requiresRollback: Option<bool>,
    impactedServices: Option<seq<string>>
  )

  datatype Action = Suppress | Route(channel: string) | Escalate(channel: string) | Tag(key: string, value: string)

  datatype Rule = Rule(id: string, condition: Condition, actions: seq<Action>)

  datatype RuleResult = RuleResult(suppressed: bool, actions: seq<Action>, matchedRuleId: Option<string>,
      tags: map<string, string>)

  type Predicate = (Cluster, Option<Analysis>) -> bool

  // ---------------------------------------------------------------- direct meaning of a condition

  /** The label kept for each alert type; only `critical` is also a severity a rule may ask for. */
  function SeverityLabel(t: AlertType): string {
    match t
    case Error => "critical"
    case Warning => "warning"
    case Success => "info"
  }

  function SeverityName(s: Severity): string {
    match s
    case Critical => "critical"
    case High => "high"
    case Medium => "medium"
    case Low => "low"
  }

  predicate InRange(x: real, r: Range) {
    (r.min.Some? ==> r.min.value <= x) && (r.max.Some? ==> x <= r.max.value)
  }

  predicate ClusterMatches(c: Condition, cluster: Cluster) {
    && (c.serviceName.Some? ==> Text.Lower(cluster.serviceName) == Text.Lower(c.serviceName.value))
    && (c.alertType.Some? ==> cluster.alertType == c.alertType.value)
    && (c.severity.Some? ==> SeverityLabel(cluster.alertType) == SeverityName(c.severity.value))
    && (c.endpointPath.Some? ==> cluster.endpointPath == c.endpointPath.value)
    && (c.alertCount.Some? ==> InRange(cluster.alertCount as real, c.alertCount.value))
    && (c.latencyP99Ms.Some? ==>
        cluster.latencyP99Ms.Some? && InRange(cluster.latencyP99Ms.value, c.latencyP99Ms.value))
    && (c.labels.Some? ==> cluster.labels.Some? && c.labels.value.Items <= cluster.labels.value.Items)
  }

  predicate AnalysisMatches(c: Condition, analysis: Option<Analysis>) {
    && (c.urgencyLevel.Some? ==> analysis.Some? && analysis.value.urgency == c.urgencyLevel.value)
    && (c.requiresRollback.Some? ==> analysis.Some? && analysis.value.requiresRollback == c.requiresRollback.value)
    && (c.impactedServices.Some? ==>
          analysis.Some? && exists s :: s in c.impactedServices.value && s in analysis.value.impactedServices)
  }

  /** What a rule author means: every field that is given holds of the cluster and the analysis. */
  predicate Matches(c: Condition, cluster: Cluster, analysis: Option<Analysis>) {
    ClusterMatches(c, cluster) && AnalysisMatches(c, analysis)
  }

  const ANY := Condition(None, None, None, None, None, None, None, None, None, None)

  /** A condition matches exactly when each of its fields, taken alone, does. */
  lemma MatchesEach(c: Condition, cluster: Cluster, analysis: Option<Analysis>)
    ensures Matches(c, cluster, analysis)
       <==> && Matches(ANY.(serviceName := c.serviceName), cluster, analysis)
            && Matches(ANY.(alertType := c.alertType), cluster, analysis)
            && Matches(ANY.(severity := c.severity), cluster, analysis)
            && Matches(ANY.(labels := c.labels), cluster, analysis)
            && Matches(ANY.(endpointPath := c.endpointPath), cluster, analysis)
            && Matches(ANY.(alertCount := c.alertCount), cluster, analysis)
            && Matches(ANY.(latencyP99Ms := c.latencyP99Ms), cluster, analysis)
            && Matches(ANY.(urgencyLevel := c.urgencyLevel), cluster, analysis)
            && Matches(ANY.(requiresRollback := c.requiresRollback), cluster, analysis)
            && Matches(ANY.(impactedServices := c.impactedServices), cluster, analysis)
  {
  }

  /** What a field that asks about the cluster means. Names are compared without regard to case, bounds are
      inclusive, and a missing bound does not bound. */
  lemma ClusterFieldMeaning(cluster: Cluster, analysis: Option<Analysis>, name: string, t: AlertType, path: string,
      lo: real, hi: real)
    ensures Matches(ANY, cluster, analysis)
    ensures Matches(ANY.(serviceName := Some(name)), cluster, analysis)
       <==> Text.Lower(cluster.serviceName) == Text.Lower(name)
    ensures Matches(ANY.(alertType := Some(t)), cluster, analysis) <==> cluster.alertType == t
    ensures Matches(ANY.(endpointPath := Some(path)), cluster, analysis) <==> cluster.endpointPath == path
    ensures Matches(ANY.(alertCount := Some(Range(Some(lo), Some(hi)))), cluster, analysis)
       <==> lo <= cluster.alertCount as real <= hi
    ensures Matches(ANY.(alertCount := Some(Range(Some(lo), None))), cluster, analysis)
       <==> lo <= cluster.alertCount as real
    ensures Matches(ANY.(alertCount := Some(Range(None, Some(hi)))), cluster, analysis)
       <==> cluster.alertCount as real <= hi
    ensures Matches(ANY.(latencyP99Ms := Some(Range(Some(lo), Some(hi)))), cluster, analysis)
       <==> cluster.latencyP99Ms.Some? && lo <= cluster.latencyP99Ms.value <= hi
    ensures Matches(ANY.(latencyP99Ms := Some(Range(Some(lo), None))), cluster, analysis)
       <==> cluster.latencyP99Ms.Some? && lo <= cluster.latencyP99Ms.value
    ensures Matches(ANY.(latencyP99Ms := Some(Range(None, Some(hi)))), cluster, analysis)
       <==> cluster.latencyP99Ms.Some? && cluster.latencyP99Ms.value <= hi
  {
  }

  /** A labels field asks for each of its pairs, and for a label table even if it lists none; a severity field asks for
      an error if it names `critical`, and for the impossible otherwise. */
  lemma LabelFieldMeaning(cluster: Cluster, analysis: Option<Analysis>, labels: map<string, string>, s: Severity)
    ensures Matches(ANY.(labels := Some(labels)), cluster, analysis)
       <==> cluster.labels.Some?
            && forall k :: k in labels ==> k in cluster.labels.value && cluster.labels.value[k] == labels[k]
    ensures Matches(ANY.(severity := Some(s)), cluster, analysis) <==> s == Critical && cluster.alertType == Error
  {
    SeverityMeaning(s, cluster.alertType);
    if cluster.labels.Some? { LabelsMeaning(labels, cluster.labels.value); }
  }

  /** What a field that asks about the analysis means. */
  lemma AnalysisFieldMeaning(cluster: Cluster, analysis: Option<Analysis>, u: Severity, rollback: bool,
      services: seq<string>)
    ensures Matches(ANY.(urgencyLevel := Some(u)), cluster, analysis)
       <==> analysis.Some? && analysis.value.urgency == u
    ensures Matches(ANY.(requiresRollback := Some(rollback)), cluster, analysis)
       <==> analysis.Some? && analysis.value.requiresRollback == rollback
    ensures Matches(ANY.(impactedServices := Some(services)), cluster, analysis)
       <==> analysis.Some? && exists i :: 0 <= i < |services| && services[i] in analysis.value.impactedServices
  {
    if analysis.Some? && (exists i :: 0 <= i < |services| && services[i] in analysis.value.impactedServices) {
      var i :| 0 <= i < |services| && services[i] in analysis.value.impactedServices;
      assert services[i] in services;
    }
  }

  predicate AnalysisOnly(c: Condition) {
    c.urgencyLevel.Some? || c.requiresRollback.Some? || c.impactedServices.Some?
  }

  /** Of the four severities a rule may name only `critical` ever matches, and it means an error alert. */
  lemma SeverityMeaning(s: Severity, t: AlertType)
    ensures SeverityLabel(t) == SeverityName(s) <==> s == Critical && t == Error
  {
    var l, n := SeverityLabel(t), SeverityName(s);
    assert |l| != |n| || l[0] != n[0] || (s == Critical && t == Error);
  }

  // ---------------------------------------------------------------- compilation

  /** One entry of a condition object: a field name with its value. */
  datatype Field =
    | ServiceName(name: string)
    | OfType(alertType: AlertType)
    | OfSeverity(severity: Severity)
    | Labels(labels: map<string, string>)
    | EndpointPath(path: string)
    | AlertCount(range: Range)
    | LatencyP99Ms(range: Range)
    | UrgencyLevel(urgency: Severity)
    | RequiresRollback(rollback: bool)
    | ImpactedServices(services: seq<string>)

  /** The matcher table: the predicate a factory returns for one entry. */
  function Matcher(e: Field): Predicate {
    match e
    case ServiceName(name) =>
      var target := Text.Lower(name);
      (c: Cluster, a: Option<Analysis>) => Text.Lower(c.serviceName) == target
    case OfType(t) => (c: Cluster, a: Option<Analysis>) => c.alertType == t
    case OfSeverity(s) => (c: Cluster, a: Option<Analysis>) => SeverityLabel(c.alertType) == SeverityName(s)
    case Labels(expected) =>
      (c: Cluster, a: Option<Analysis>) =>
        c.labels.Some? && forall k :: k in expected ==> k in c.labels.value && c.labels.value[k] == expected[k]
    case EndpointPath(p) => (c: Cluster, a: Option<Analysis>) => c.endpointPath == p
    case AlertCount(r) =>
      (c: Cluster, a: Option<Analysis>) => if r.min.Some? && c.alertCount as real < r.min.value then false
                else if r.max.Some? && c.alertCount as real > r.max.value then false else true
    case LatencyP99Ms(r) =>
      (c: Cluster, a: Option<Analysis>) => if c.latencyP99Ms.None? then false
                else if r.min.Some? && c.latencyP99Ms.value < r.min.value then false
                else if r.max.Some? && c.latencyP99Ms.value > r.max.value then false else true
    case UrgencyLevel(u) => (c: Cluster, a: Option<Analysis>) => a.Some? && a.value.urgency == u
    case RequiresRollback(b) => (c: Cluster, a: Option<Analysis>) => a.Some? && a.value.requiresRollback == b
    case ImpactedServices(targets) =>
      (c: Cluster, a: Option<Analysis>) => a.Some? && exists t :: t in targets && t in a.value.impactedServices
  }

  /** The entry is one of the fields the condition gives. */
  ghost predicate Gives(c: Condition, e: Field) {
    match e
    case ServiceName(name) => c.serviceName == Some(name)
    case OfType(t) => c.alertType == Some(t)
    case OfSeverity(s) => c.severity == Some(s)
    case Labels(l) => c.labels == Some(l)
    case EndpointPath(p) => c.endpointPath == Some(p)
    case AlertCount(r) => c.alertCount == Some(r)
    case LatencyP99Ms(r) => c.latencyP99Ms == Some(r)
    case UrgencyLevel(u) => c.urgencyLevel == Some(u)
    case RequiresRollback(b) => c.requiresRollback == Some(b)
    case ImpactedServices(s) => c.impactedServices == Some(s)
  }

  /** The entries list the condition, in whatever order. */
  ghost predicate Lists(entries: seq<Field>, c: Condition) {
    forall e :: e in entries <==> Gives(c, e)
  }

  function MatchersOf(entries: seq<Field>): seq<Predicate> {
    seq(|entries|, i requires 0 <= i < |entries| => Matcher(entries[i]))
  }

  function Conjunction(ps: seq<Predicate>): Predicate {
    if |ps| == 0 then (c: Cluster, a: Option<Analysis>) => true else (c, a) => forall i :: 0 <= i < |ps| ==> ps[i](c, a)
  }

  method CompileCondition(entries: seq<Field>) returns (p: Predicate)
    ensures p == Conjunction(MatchersOf(entries))
  {
    var predicates: seq<Predicate> := [];
    for i := 0 to |entries|
      invariant predicates == MatchersOf(entries)[..i]
    {
      predicates := predicates + [Matcher(entries[i])];
    }
    assert MatchersOf(entries)[..|entries|] == MatchersOf(entries);
    p := Conjunction(predicates);
  }

  lemma LabelsMeaning(expected: map<string, string>, actual: map<string, string>)
    ensures expected.Items <= actual.Items <==> forall k :: k in expected ==> k in actual && actual[k] == expected[k]
  {
    if expected.Items <= actual.Items {
      forall k | k in expected ensures k in actual && actual[k] == expected[k] {
        assert (k, expected[k]) in expected.Items;
      }
    }
  }

  lemma MatchesEntry(c: Condition, e: Field, cluster: Cluster, analysis: Option<Analysis>)
    requires Matches(c, cluster, analysis) && Gives(c, e)
    ensures Matcher(e)(cluster, analysis)
  {
    if e.Labels? {
      LabelsMeaning(e.labels, cluster.labels.value);
    }
  }

  lemma EntriesMatchCluster(c: Condition, cluster: Cluster, analysis: Option<Analysis>)
    requires forall e :: Gives(c, e) ==> Matcher(e)(cluster, analysis)
    ensures ClusterMatches(c, cluster)
  {
    assert c.serviceName.Some? ==> Gives(c, ServiceName(c.serviceName.value));
    assert c.alertType.Some? ==> Gives(c, OfType(c.alertType.value));
    assert c.severity.Some? ==> Gives(c, OfSeverity(c.severity.value));
    assert c.endpointPath.Some? ==> Gives(c, EndpointPath(c.endpointPath.value));
    assert c.alertCount.Some? ==> Gives(c, AlertCount(c.alertCount.value));
    assert c.latencyP99Ms.Some? ==> Gives(c, LatencyP99Ms(c.latencyP99Ms.value));
    if c.labels.Some? {
      assert Gives(c, Labels(c.labels.value));
      LabelsMeaning(c.labels.value, cluster.labels.value);
    }
  }

  lemma EntriesMatchAnalysis(c: Condition, cluster: Cluster, analysis: Option<Analysis>)
    requires forall e :: Gives(c, e) ==> Matcher(e)(cluster, analysis)
    ensures AnalysisMatches(c, analysis)
  {
    assert c.urgencyLevel.Some? ==> Gives(c, UrgencyLevel(c.urgencyLevel.value));
    assert c.requiresRollback.Some? ==> Gives(c, RequiresRollback(c.requiresRollback.value));
    assert c.impactedServices.Some? ==> Gives(c, ImpactedServices(c.impactedServices.value));
  }

  /** A compiled condition means what the author wrote, for every order of its fields. */
  lemma CompiledMeaning(entries: seq<Field>, c: Condition, cluster: Cluster, analysis: Option<Analysis>)
    requires Lists(entries, c)
    ensures Conjunction(MatchersOf(entries))(cluster, analysis) <==> Matches(c, cluster, analysis)
  {
    var ms := MatchersOf(entries);
    if Conjunction(ms)(cluster, analysis) {
      forall e | Gives(c, e) ensures Matcher(e)(cluster, analysis) {
        var i :| 0 <= i < |entries| && entries[i] == e;
        assert ms[i](cluster, analysis);
      }
      EntriesMatchCluster(c, cluster, analysis);
      EntriesMatchAnalysis(c, cluster, analysis);
    }
    if Matches(c, cluster, analysis) {
      forall i | 0 <= i < |ms| ensures ms[i](cluster, analysis) {
        assert entries[i] in entries;
        MatchesEntry(c, entries[i], cluster, analysis);
      }
    }
  }

  // ---------------------------------------------------------------- actions

  predicate Delivers(a: Action) {
    a.Route? || a.Escalate?
  }

  /** The tags left by the actions: the last one for a key wins. */
  function TagsOf(actions: seq<Action>): (r: map<string, string>)
    ensures forall k :: k in r <==> exists i :: 0 <= i < |actions| && actions[i].Tag? && actions[i].key == k
  {
    if actions == [] then map[]
    else
      var n := |actions| - 1;
      var before := TagsOf(actions[..n]);
      assert forall i :: 0 <= i < n ==> actions[..n][i] == actions[i];
      if actions[n].Tag? then before[actions[n].key := actions[n].value] else before
  }

  /** The value of a tag is that of the last action that sets it. */
  lemma {:induction false} TagValue(actions: seq<Action>, key: string) returns (k: nat)
    requires key in TagsOf(actions)
    ensures k < |actions| && actions[k] == Tag(key, TagsOf(actions)[key])
    ensures forall j :: k < j < |actions| ==> !(actions[j].Tag? && actions[j].key == key)
  {
    var n := |actions| - 1;
    if actions[n].Tag? && actions[n].key == key {
      k := n;
    } else {
      k := TagValue(actions[..n], key);
      forall j | k < j < |actions| ensures !(actions[j].Tag? && actions[j].key == key) {
        if j < n { assert actions[j] == actions[..n][j]; }
      }
    }
  }

  /** What a list of actions amounts to, said without the fold. */
  function Folded(actions: seq<Action>): RuleResult {
    RuleResult(Suppress in actions, Filter(Delivers, actions), None, TagsOf(actions))
  }

  /** The handler table, one action at a time. */
  function Handle(a: Action, r: RuleResult): RuleResult {
    match a
    case Suppress => r.(suppressed := true)
    case Route(_) => r.(actions := r.actions + [a])
    case Escalate(_) => r.(actions := r.actions + [a])
    case Tag(k, v) => r.(tags := r.tags[k := v])
  }

  lemma FoldedStep(actions: seq<Action>, a: Action)
    ensures Folded(actions + [a]) == Handle(a, Folded(actions))
  {
    assert (actions + [a])[..|actions|] == actions;
  }

  /** The list and the table that a result refers to; whoever holds the result holds the very same objects. */
  class ActionList {
    var items: seq<Action>

    constructor ()
      ensures items == []
    {
      items := [];
    }

    method Push(a: Action)
      modifies this
      ensures items == old(items) + [a]
    {
      items := items + [a];
    }
  }

  class TagTable {
    var entries: map<string, string>

    constructor ()
      ensures entries == map[]
    {
      entries := map[];
    }

    method Set(key: string, value: string)
      modifies this
      ensures entries == old(entries)[key := value]
    {
      entries := entries[key := value];
    }
  }

  datatype SharedResult =
    SharedResult(suppressed: bool, actions: ActionList, tags: TagTable, matchedRuleId: Option<string>)

  /** What a result says at the moment. */
  function View(r: SharedResult): RuleResult
    reads r.actions, r.tags
  {
    RuleResult(r.suppressed, r.actions.items, r.matchedRuleId, r.tags.entries)
  }

  method DispatchActions(actions: seq<Action>) returns (result: SharedResult)
    ensures fresh(result.actions) && fresh(result.tags) && View(result) == Folded(actions)
  {
    var list := new ActionList();
    var tags := new TagTable();
    var suppressed := false;
    for i := 0 to |actions|
      invariant fresh(list) && fresh(tags)
      invariant RuleResult(suppressed, list.items, None, tags.entries) == Folded(actions[..i])
    {
      FoldedStep(actions[..i], actions[i]);
      assert actions[..i + 1] == actions[..i] + [actions[i]];
      match actions[i]
      case Suppress => suppressed := true;
      case Route(_) => list.Push(actions[i]);
      case Escalate(_) => list.Push(actions[i]);
      case Tag(key, value) => tags.Set(key, value);
    }
    assert actions[..|actions|] == actions;
    result := SharedResult(suppressed, list, tags, None);
  }

  lemma {:induction false} TagsAppend(a: seq<Action>, b: seq<Action>)
    ensures TagsOf(a + b) == TagsOf(a) + TagsOf(b)
  {
    if b == [] {
      assert a + b == a;
    } else {
      var n := |b| - 1;
      assert (a + b)[..|a + b| - 1] == a + b[..n];
      TagsAppend(a, b[..n]);
      if b[n].Tag? { MergeUpdate(TagsOf(a), TagsOf(b[..n]), b[n].key, b[n].value); }
    }
  }

  lemma MergeUpdate(x: map<string, string>, y: map<string, string>, key: string, value: string)
    ensures (x + y)[key := value] == x + y[key := value]
  {
  }

  /** Folding is a homomorphism from lists of actions: or of suppressions, concatenation of deliveries, override of
      tags. */
  lemma FoldedAppend(a: seq<Action>, b: seq<Action>)
    ensures Folded(a + b) == RuleResult(Folded(a).suppressed || Folded(b).suppressed,
                                        Folded(a).actions + Folded(b).actions, None, Folded(a).tags + Folded(b).tags)
  {
    FilterAppend(Delivers, a, b);
    TagsAppend(a, b);
  }

  // ---------------------------------------------------------------- the engine

  datatype CompiledRule = CompiledRule(id: string, holds: Predicate, result: SharedResult)

  /** A rule as loaded: its condition comes as an ordered list of entries. */
  datatype LoadedRule = LoadedRule(rule: Rule, entries: seq<Field>)

  ghost predicate WellLoaded(rules: seq<LoadedRule>) {
    forall r :: r in rules ==> Lists(r.entries, r.rule.condition)
  }

  function RulesOf(rules: seq<LoadedRule>): seq<Rule> {
    Map((r: LoadedRule) => r.rule, rules)
  }

  /** The objects that the compiled rules refer to. */
  ghost function Objects(rules: seq<CompiledRule>): set<object> {
    (set r | r in rules :: r.result.actions) + (set r | r in rules :: r.result.tags)
  }

  /** The compiled rule is still what compilation made of the loaded one. */
  ghost predicate Intact(r: CompiledRule, loaded: LoadedRule)
    reads r.result.actions, r.result.tags
  {
    && r.id == loaded.rule.id && View(r.result) == Folded(loaded.rule.actions)
    && r.holds == Conjunction(MatchersOf(loaded.entries))
  }

  ghost predicate AllIntact(rules: seq<CompiledRule>, loaded: seq<LoadedRule>)
    reads Objects(rules)
  {
    |rules| == |loaded| && forall i :: 0 <= i < |rules| ==> Intact(rules[i], loaded[i])
  }

  const PASS_THROUGH := RuleResult(false, [], None, map[])

  /** The direct interpreter: the first rule whose condition matches decides. */
  function Interpret(rules: seq<Rule>, cluster: Cluster, analysis: Option<Analysis>): RuleResult {
    if rules == [] then PASS_THROUGH
    else if Matches(rules[0].condition, cluster, analysis) then
      Folded(rules[0].actions).(matchedRuleId := Some(rules[0].id))
    else Interpret(rules[1..], cluster, analysis)
  }

  /** Rule `k` is the first that matches. */
  ghost predicate Decides(rules: seq<Rule>, cluster: Cluster, analysis: Option<Analysis>, k: nat) {
    && k < |rules| && Matches(rules[k].condition, cluster, analysis)
    && forall i :: 0 <= i < k ==> !Matches(rules[i].condition, cluster, analysis)
  }

  ghost predicate NoneMatches(rules: seq<Rule>, cluster: Cluster, analysis: Option<Analysis>) {
    forall i :: 0 <= i < |rules| ==> !Matches(rules[i].condition, cluster, analysis)
  }

  /** The first rule that matches decides: it suppresses exactly if one of its actions does, and hands on its routes and
      escalations in order and its tags. */
  lemma {:induction false} InterpretDecided(rules: seq<Rule>, cluster: Cluster, analysis: Option<Analysis>, k: nat)
    requires Decides(rules, cluster, analysis, k)
    ensures
      var r := Interpret(rules, cluster, analysis);
      && (r.suppressed <==> exists i :: 0 <= i < |rules[k].actions| && rules[k].actions[i].Suppress?)
      && r.actions == Filter(Delivers, rules[k].actions) && r.tags == TagsOf(rules[k].actions)
      && r.matchedRuleId == Some(rules[k].id)
  {
    if k > 0 {
      forall i | 0 <= i < k - 1 ensures !Matches(rules[1..][i].condition, cluster, analysis) {
        assert rules[1..][i] == rules[i + 1];
      }
      assert !Matches(rules[0].condition, cluster, analysis);
      InterpretDecided(rules[1..], cluster, analysis, k - 1);
    } else if Suppress in rules[0].actions {
      var i :| 0 <= i < |rules[0].actions| && rules[0].actions[i] == Suppress;
      assert rules[0].actions[i].Suppress?;
    }
  }

  /** If no rule matches, nothing is suppressed, routed, escalated or tagged. */
  lemma {:induction false} InterpretNone(rules: seq<Rule>, cluster: Cluster, analysis: Option<Analysis>)
    requires NoneMatches(rules, cluster, analysis)
    ensures
      var r := Interpret(rules, cluster, analysis);
      !r.suppressed && r.actions == [] && r.tags == map[] && r.matchedRuleId.None?
  {
    if rules != [] {
      forall i | 0 <= i < |rules[1..]| ensures !Matches(rules[1..][i].condition, cluster, analysis) {
        assert rules[1..][i] == rules[i + 1];
      }
      InterpretNone(rules[1..], cluster, analysis);
    }
  }

  /** The result is what the actions of the first matching rule say, and says nothing without one. */
  ghost predicate FirstMatchAnswers(r: RuleResult, rules: seq<Rule>, cluster: Cluster, analysis: Option<Analysis>) {
    && (NoneMatches(rules, cluster, analysis) ==>
          !r.suppressed && r.actions == [] && r.tags == map[] && r.matchedRuleId.None?)
    && forall k: nat :: Decides(rules, cluster, analysis, k) ==>
          (r.suppressed <==> exists i :: 0 <= i < |rules[k].actions| && rules[k].actions[i].Suppress?)
          && r.actions == Filter(Delivers, rules[k].actions) && r.tags == TagsOf(rules[k].actions)
          && r.matchedRuleId == Some(rules[k].id)
  }

  lemma InterpretAnswers(rules: seq<Rule>, cluster: Cluster, analysis: Option<Analysis>)
    ensures FirstMatchAnswers(Interpret(rules, cluster, analysis), rules, cluster, analysis)
  {
    if NoneMatches(rules, cluster, analysis) { InterpretNone(rules, cluster, analysis); }
    forall k: nat | Decides(rules, cluster, analysis, k)
      ensures
        var r := Interpret(rules, cluster, analysis);
        && (r.suppressed <==> exists i :: 0 <= i < |rules[k].actions| && rules[k].actions[i].Suppress?)
        && r.actions == Filter(Delivers, rules[k].actions) && r.tags == TagsOf(rules[k].actions)
        && r.matchedRuleId == Some(rules[k].id)
    {
      InterpretDecided(rules, cluster, analysis, k);
    }
  }

  method CompileSection(rules: seq<LoadedRule>) returns (compiled: seq<CompiledRule>)
    ensures AllIntact(compiled, rules) && fresh(Objects(compiled))
  {
    compiled := [];
    for i := 0 to |rules|
      invariant AllIntact(compiled, rules[..i]) && fresh(Objects(compiled))
    {
      var holds := CompileCondition(rules[i].entries);
      var result := DispatchActions(rules[i].rule.actions);
      ghost var before := compiled;
      compiled := compiled + [CompiledRule(rules[i].rule.id, holds, result)];
      forall o | o in Objects(compiled) ensures fresh(o) {
        assert o in Objects(before) || o == result.actions || o == result.tags;
      }
      forall j | 0 <= j <= i ensures Intact(compiled[j], rules[..i + 1][j]) {
        if j < i { assert Intact(before[j], rules[..i][j]); }
      }
    }
    assert rules[..|rules|] == rules;
  }

  class RuleEngine {
    const preLlmRules: seq<CompiledRule>
    const postLlmRules: seq<CompiledRule>

    constructor (pre: seq<LoadedRule>, post: seq<LoadedRule>)
      ensures AllIntact(preLlmRules, pre) && AllIntact(postLlmRules, post)
      ensures fresh(Objects(preLlmRules)) && fresh(Objects(postLlmRules))
    {
      hide Intact, Folded, MatchersOf, Conjunction;
      var compiledPre := CompileSection(pre);
      var compiledPost := CompileSection(post);
      preLlmRules, postLlmRules := compiledPre, compiledPost;
    }

    /** The first rule that matches answers with its own list and table; nothing that exists is changed. */
    method EvaluateRules(rules: seq<CompiledRule>, ghost loaded: seq<LoadedRule>, cluster: Cluster,
                         analysis: Option<Analysis>)
      returns (result: SharedResult)
      requires WellLoaded(loaded) && AllIntact(rules, loaded)
      ensures View(result) == Interpret(RulesOf(loaded), cluster, analysis)
      ensures FirstMatchAnswers(View(result), RulesOf(loaded), cluster, analysis)
      ensures (fresh(result.actions) && fresh(result.tags))
           || exists r :: r in rules && result == r.result.(matchedRuleId := Some(r.id))
    {
      InterpretAnswers(RulesOf(loaded), cluster, analysis);
      hide FirstMatchAnswers;
      for i := 0 to |rules|
        invariant Interpret(RulesOf(loaded), cluster, analysis) == Interpret(RulesOf(loaded)[i..], cluster, analysis)
      {
        assert loaded[i] in loaded && Intact(rules[i], loaded[i]);
        CompiledMeaning(loaded[i].entries, loaded[i].rule.condition, cluster, analysis);
        assert RulesOf(loaded)[i..][1..] == RulesOf(loaded)[i + 1..];
        if rules[i].holds(cluster, analysis) {
          assert rules[i] in rules;
          return rules[i].result.(matchedRuleId := Some(rules[i].id));
        }
      }
      var list := new ActionList();
      var tags := new TagTable();
      result := SharedResult(false, list, tags, None);
    }

    method EvaluatePreLlm(ghost loaded: seq<LoadedRule>, cluster: Cluster) returns (result: SharedResult)
      requires WellLoaded(loaded) && AllIntact(preLlmRules, loaded)
      ensures View(result) == Interpret(RulesOf(loaded), cluster, None)
    {
      result := EvaluateRules(preLlmRules, loaded, cluster, None);
    }

    method EvaluatePostLlm(ghost loaded: seq<LoadedRule>, cluster: Cluster, analysis: Analysis)
      returns (result: SharedResult)
      requires WellLoaded(loaded) && AllIntact(postLlmRules, loaded)
      ensures View(result) == Interpret(RulesOf(loaded), cluster, Some(analysis))
    {
      result := EvaluateRules(postLlmRules, loaded, cluster, Some(analysis));
    }

    /** Any number of evaluations, one after the other: each gives what the interpreter gives, and none of them changes
        what the earlier results say, although results share their lists and tables. */
    method EvaluateAll(ghost loaded: seq<LoadedRule>, clusters: seq<Cluster>) returns (results: seq<SharedResult>)
      requires WellLoaded(loaded) && AllIntact(preLlmRules, loaded)
      ensures AllIntact(preLlmRules, loaded) && |results| == |clusters|
      ensures forall k :: 0 <= k < |results| ==> View(results[k]) == Interpret(RulesOf(loaded), clusters[k], None)
    {
      results := [];
      for k := 0 to |clusters|
        invariant |results| == k && AllIntact(preLlmRules, loaded)
        invariant forall j :: 0 <= j < k ==> View(results[j]) == Interpret(RulesOf(loaded), clusters[j], None)
      {
        var result := EvaluatePreLlm(loaded, clusters[k]);
        results := results + [result];
      }
    }
  }

  /** First match: everything before the deciding rule fails, and the result is that rule's own. */
  lemma {:induction false} InterpretFirst(rules: seq<Rule>, cluster: Cluster, analysis: Option<Analysis>)
    returns (k: nat)
    ensures k <= |rules| && forall i :: 0 <= i < k ==> !Matches(rules[i].condition, cluster, analysis)
    ensures k == |rules| ==> Interpret(rules, cluster, analysis) == RuleResult(false, [], None, map[])
    ensures k < |rules| ==>
      Matches(rules[k].condition, cluster, analysis)
      && Interpret(rules, cluster, analysis) == Folded(rules[k].actions).(matchedRuleId := Some(rules[k].id))
  {
    if rules == [] || Matches(rules[0].condition, cluster, analysis) {
      k := 0;
    } else {
      var m := InterpretFirst(rules[1..], cluster, analysis);
      k := m + 1;
      forall i | 0 <= i < k ensures !Matches(rules[i].condition, cluster, analysis) {
        if i > 0 { assert rules[i] == rules[1..][i - 1]; }
      }
    }
  }

  predicate UsableBefore(r: Rule) {
    !AnalysisOnly(r.condition)
  }

  /** Before the analysis exists, rules that ask about it are dead: dropping them changes nothing. */
  lemma {:induction false} DropAnalysisOnly(rules: seq<Rule>, cluster: Cluster)
    ensures Interpret(Filter(UsableBefore, rules), cluster, None) == Interpret(rules, cluster, None)
    ensures forall r :: r in rules
              && (r.condition.urgencyLevel.Some? || r.condition.requiresRollback.Some?
                  || r.condition.impactedServices.Some?)
              ==> r !in Filter(UsableBefore, rules) && !Matches(r.condition, cluster, None)
  {
    forall r ensures r in Filter(UsableBefore, rules) <==> r in rules && UsableBefore(r) {
      FilterMember(UsableBefore, rules, r);
    }
    if rules != [] {
      DropAnalysisOnly(rules[1..], cluster);
      FilterFirst(UsableBefore, rules);
      var rest := Filter(UsableBefore, rules[1..]);
      if UsableBefore(rules[0]) {
        assert ([rules[0]] + rest)[1..] == rest;
      } else {
        assert Filter(UsableBefore, rules) == rest;
        assert !AnalysisMatches(rules[0].condition, None);
      }
    }
  }

  predicate AsksNoLabels(r: Rule) {
    r.condition.labels.None?
  }

  /** A rule that asks for labels never matches a cluster that has none: dropping such rules changes nothing. */
  lemma {:induction false} DropLabelRules(rules: seq<Rule>, cluster: Cluster, analysis: Option<Analysis>)
    requires cluster.labels.None?
    ensures Interpret(Filter(AsksNoLabels, rules), cluster, analysis) == Interpret(rules, cluster, analysis)
    ensures forall r :: r in rules && r.condition.labels.Some? ==>
              r !in Filter(AsksNoLabels, rules) && !Matches(r.condition, cluster, analysis)
  {
    forall r ensures r in Filter(AsksNoLabels, rules) <==> r in rules && AsksNoLabels(r) {
      FilterMember(AsksNoLabels, rules, r);
    }
    if rules != [] {
      DropLabelRules(rules[1..], cluster, analysis);
      FilterFirst(AsksNoLabels, rules);
      var rest := Filter(AsksNoLabels, rules[1..]);
      if AsksNoLabels(rules[0]) {
        assert ([rules[0]] + rest)[1..] == rest;
      } else {
        assert Filter(AsksNoLabels, rules) == rest;
        assert !ClusterMatches(rules[0].condition, cluster);
      }
    }
  }
}
