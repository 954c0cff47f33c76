/** Where notifications go: the delivery plan of a cluster, the channel registry, and the startup check over both. */
module Routing {
  import opened Prelude
  import opened Clustering
  import opened Rules

  // ---------------------------------------------------------------- the plan

  datatype ChannelConfig = SlackChannel(channel: string) | TeamsChannel(webhookUrlEnv: string)

  /** A validated rules file; `channels` lists the entries of its `channels:` section in file order. */
  datatype RuleConfiguration =
    RuleConfiguration(pre: seq<Rule>, post: seq<Rule>, channels: seq<(string, ChannelConfig)>)

  function Routes(actions: seq<Action>): seq<string> {
    if actions == [] then []
    else
      var n := |actions| - 1;
      Routes(actions[..n]) + if actions[n].Route? then [actions[n].channel] else []
  }

  function Escalations(actions: seq<Action>): seq<string> {
    if actions == [] then []
    else
      var n := |actions| - 1;
      Escalations(actions[..n]) + if actions[n].Escalate? then [actions[n].channel] else []
  }

  function PreResult(rules: Option<RuleConfiguration>, cluster: Cluster): RuleResult {
    if rules.None? then PASS_THROUGH else Interpret(rules.value.pre, cluster, None)
  }

  function PostResult(rules: Option<RuleConfiguration>, cluster: Cluster, analysis: Option<Analysis>): RuleResult {
    if rules.None? || analysis.None? then PASS_THROUGH else Interpret(rules.value.post, cluster, analysis)
  }

  /** The sends one cluster calls for: the first route or the default channel, then every escalation. */
  function Plan(rules: Option<RuleConfiguration>, cluster: Cluster, analysis: Option<Analysis>)
    : (r: seq<Option<string>>)
    ensures r != []
  {
    var pre, post := PreResult(rules, cluster), PostResult(rules, cluster, analysis);
    var routes := Routes(pre.actions);
    [if routes == [] then None else Some(routes[0])]
      + Map((c: string) => Some(c), Escalations(pre.actions) + Escalations(post.actions))
  }

  // What the plan contains, said on the actions of the deciding rules.

  function PreRules(rules: Option<RuleConfiguration>): seq<Rule> { if rules.None? then [] else rules.value.pre }

  function PostRules(rules: Option<RuleConfiguration>): seq<Rule> { if rules.None? then [] else rules.value.post }

  /** A cluster is suppressed exactly if there is a rules file, some pre-model rule matches, and the first that does has
      a suppressing action. */
  lemma SuppressedIff(rules: Option<RuleConfiguration>, cluster: Cluster)
    ensures PreResult(rules, cluster).suppressed
       <==> rules.Some? && exists k: nat, j ::
              && Decides(rules.value.pre, cluster, None, k)
              && 0 <= j < |rules.value.pre[k].actions| && rules.value.pre[k].actions[j].Suppress?
  {
    if rules.Some? {
      var pre := rules.value.pre;
      InterpretAnswers(pre, cluster, None);
      var k := InterpretFirst(pre, cluster, None);
      assert k < |pre| ==> Decides(pre, cluster, None, k);
      forall m: nat | Decides(pre, cluster, None, m) ensures m == k {}
    }
  }

  /** The actions of the rule that decides, none if no rule matches. */
  ghost predicate DecidingActions(rules: seq<Rule>, cluster: Cluster, analysis: Option<Analysis>,
                                  actions: seq<Action>) {
    if NoneMatches(rules, cluster, analysis) then actions == []
    else exists k: nat :: Decides(rules, cluster, analysis, k) && actions == rules[k].actions
  }

  lemma InterpretActions(rules: seq<Rule>, cluster: Cluster, analysis: Option<Analysis>, actions: seq<Action>)
    requires DecidingActions(rules, cluster, analysis, actions)
    ensures Interpret(rules, cluster, analysis).actions == Filter(Delivers, actions)
    ensures Interpret(rules, cluster, analysis).tags == TagsOf(actions)
  {
    InterpretAnswers(rules, cluster, analysis);
  }

  lemma {:induction false} RoutesAppend(a: seq<Action>, b: seq<Action>)
    ensures Routes(a + b) == Routes(a) + Routes(b) && Escalations(a + b) == Escalations(a) + Escalations(b)
  {
    if b == [] {
      assert a + b == a;
    } else {
      var n := |b| - 1;
      assert (a + b)[..|a + b| - 1] == a + b[..n] && (a + b)[|a + b| - 1] == b[n];
      RoutesAppend(a, b[..n]);
      Associative(Routes(a), Routes(b[..n]), if b[n].Route? then [b[n].channel] else []);
      Associative(Escalations(a), Escalations(b[..n]), if b[n].Escalate? then [b[n].channel] else []);
    }
  }

  lemma {:induction false} RoutesFiltered(actions: seq<Action>)
    ensures Routes(Filter(Delivers, actions)) == Routes(actions)
    ensures Escalations(Filter(Delivers, actions)) == Escalations(actions)
  {
    if actions != [] {
      var n := |actions| - 1;
      var front := Filter(Delivers, actions[..n]);
      RoutesFiltered(actions[..n]);
      assert (front + [actions[n]])[..|front|] == front;
    }
  }

  ghost function RoutePositions(actions: seq<Action>): set<nat> {
    set k: nat | k < |actions| && actions[k].Route?
  }

  ghost function EscalatePositions(actions: seq<Action>): set<nat> {
    set k: nat | k < |actions| && actions[k].Escalate?
  }

  predicate IsRoute(a: Action) { a.Route? }

  predicate IsEscalation(a: Action) { a.Escalate? }

  function ChannelOf(a: Action): string { if Delivers(a) then a.channel else "" }

  lemma {:induction false} RoutesFilter(actions: seq<Action>)
    ensures Routes(actions) == Map(ChannelOf, Filter(IsRoute, actions))
    ensures Escalations(actions) == Map(ChannelOf, Filter(IsEscalation, actions))
  {
    if actions != [] { RoutesFilter(actions[..|actions| - 1]); }
  }

  /** The routes are the channels of the routing actions, in order and each once. */
  lemma RoutesAt(actions: seq<Action>) returns (at: seq<nat>)
    ensures Enumerates(at, RoutePositions(actions)) && |Routes(actions)| == |at|
    ensures forall j :: 0 <= j < |at| ==> at[j] < |actions| && actions[at[j]] == Route(Routes(actions)[j])
  {
    RoutesFilter(actions);
    at := FilterAt(IsRoute, actions);
    assert RoutePositions(actions) == set k: nat | k < |actions| && IsRoute(actions[k]);
    hide Routes, Filter, RoutePositions;
    forall j | 0 <= j < |at| ensures IsRoute(actions[at[j]]) { assert at[j] in at; }
  }

  lemma EscalationsAt(actions: seq<Action>) returns (at: seq<nat>)
    ensures Enumerates(at, EscalatePositions(actions)) && |Escalations(actions)| == |at|
    ensures forall j :: 0 <= j < |at| ==> at[j] < |actions| && actions[at[j]] == Escalate(Escalations(actions)[j])
  {
    RoutesFilter(actions);
    at := FilterAt(IsEscalation, actions);
    assert EscalatePositions(actions) == set k: nat | k < |actions| && IsEscalation(actions[k]);
    hide Escalations, Filter, EscalatePositions;
    forall j | 0 <= j < |at| ensures IsEscalation(actions[at[j]]) { assert at[j] in at; }
  }

  /** The first send names the channel of the first route, or none if nothing is routed. */
  ghost predicate FirstRoute(first: Option<string>, pre: seq<Action>) {
    if forall k :: 0 <= k < |pre| ==> !pre[k].Route? then first == None
    else exists k :: 0 <= k < |pre| && pre[k].Route? && first == Some(pre[k].channel)
                     && forall j :: 0 <= j < k ==> !pre[j].Route?
  }

  lemma FirstRouteOf(pre: seq<Action>)
    ensures FirstRoute(if Routes(pre) == [] then None else Some(Routes(pre)[0]), pre)
  {
    var at := RoutesAt(pre);
    if Routes(pre) != [] {
      forall j | 0 <= j < at[0] ensures !pre[j].Route? {
        assert forall m :: 0 <= m < |at| ==> at[0] <= at[m];
        assert j !in RoutePositions(pre);
      }
      assert pre[at[0]].Route?;
    } else {
      forall k | 0 <= k < |pre| ensures !pre[k].Route? {
        assert k !in RoutePositions(pre);
      }
    }
  }

  /** The plan, from the actions `pre` and `post` of the rules that decide before and after the model: the first send
      goes where the first route of `pre` points, or to the default, and after it comes one send for each escalation of
      `pre` and then of `post`, in order. Without an analysis the post-model rules have no say. */
  lemma PlanMeaning(rules: Option<RuleConfiguration>, cluster: Cluster, analysis: Option<Analysis>, pre: seq<Action>,
      post: seq<Action>)
    returns (at: seq<nat>)
    requires DecidingActions(PreRules(rules), cluster, None, pre)
    requires if analysis.None? then post == [] else DecidingActions(PostRules(rules), cluster, analysis, post)
    ensures
      var plan := Plan(rules, cluster, analysis);
      && FirstRoute(plan[0], pre)
      && Enumerates(at, EscalatePositions(pre + post)) && |plan| == 1 + |at|
      && forall j :: 0 <= j < |at| ==>
           at[j] < |pre + post| && (pre + post)[at[j]].Escalate?
           && plan[1 + j] == Some((pre + post)[at[j]].channel)
  {
    PlanActions(rules, cluster, analysis, pre, post);
    FirstRouteOf(pre);
    at := EscalationsAt(pre + post);
    hide Plan, Routes, Escalations, FirstRoute, DecidingActions, Enumerates, EscalatePositions;
  }

  lemma PlanActions(rules: Option<RuleConfiguration>, cluster: Cluster, analysis: Option<Analysis>, pre: seq<Action>,
      post: seq<Action>)
    requires DecidingActions(PreRules(rules), cluster, None, pre)
    requires if analysis.None? then post == [] else DecidingActions(PostRules(rules), cluster, analysis, post)
    ensures
      var plan := Plan(rules, cluster, analysis);
      && plan[0] == (if Routes(pre) == [] then None else Some(Routes(pre)[0]))
      && |plan| == 1 + |Escalations(pre + post)|
      && forall j :: 0 <= j < |Escalations(pre + post)| ==> plan[1 + j] == Some(Escalations(pre + post)[j])
  {
    PreActions(rules, cluster, pre);
    PostActions(rules, cluster, analysis, post);
    RoutesAppend(pre, post);
    hide DecidingActions, PreResult, PostResult, Routes, Escalations;
  }

  lemma PreActions(rules: Option<RuleConfiguration>, cluster: Cluster, pre: seq<Action>)
    requires DecidingActions(PreRules(rules), cluster, None, pre)
    ensures Routes(PreResult(rules, cluster).actions) == Routes(pre)
    ensures Escalations(PreResult(rules, cluster).actions) == Escalations(pre)
  {
    InterpretActions(PreRules(rules), cluster, None, pre);
    RoutesFiltered(pre);
  }

  lemma PostActions(rules: Option<RuleConfiguration>, cluster: Cluster, analysis: Option<Analysis>, post: seq<Action>)
    requires if analysis.None? then post == [] else DecidingActions(PostRules(rules), cluster, analysis, post)
    ensures Escalations(PostResult(rules, cluster, analysis).actions) == Escalations(post)
  {
    if analysis.Some? {
      InterpretActions(PostRules(rules), cluster, analysis, post);
      RoutesFiltered(post);
    }
  }

  function WithoutLabelRules(rules: Option<RuleConfiguration>): Option<RuleConfiguration> {
    if rules.None? then None
    else
      var r := rules.value;
      Some(r.(pre := Filter(AsksNoLabels, r.pre), post := Filter(AsksNoLabels, r.post)))
  }

  /** What is left are the rules that do not ask for labels, and a condition that does matches no cluster at all. */
  lemma LabelRulesDropped(rules: Option<RuleConfiguration>, r: Rule, keyOf: Alert -> string, alerts: seq<Alert>,
      i: nat, analysis: Option<Analysis>)
    requires i < |ClustersOf(keyOf, alerts)|
    ensures r in PreRules(WithoutLabelRules(rules)) <==> r in PreRules(rules) && r.condition.labels.None?
    ensures r in PostRules(WithoutLabelRules(rules)) <==> r in PostRules(rules) && r.condition.labels.None?
    ensures r.condition.labels.Some? ==> !Matches(r.condition, ClustersOf(keyOf, alerts)[i], analysis)
  {
    FilterMember(AsksNoLabels, PreRules(rules), r);
    FilterMember(AsksNoLabels, PostRules(rules), r);
    assert ClustersOf(keyOf, alerts)[i] == ClusterOf(keyOf, alerts, i);
  }

  /** Grouping gives no cluster labels, and tags come only after the last evaluation: rules that ask for labels decide
      nothing for any cluster, neither before the model nor after it. */
  lemma LabelRulesDead(rules: Option<RuleConfiguration>, keyOf: Alert -> string, alerts: seq<Alert>, i: nat,
      analysis: Option<Analysis>)
    requires i < |ClustersOf(keyOf, alerts)|
    ensures
      var c := ClustersOf(keyOf, alerts)[i];
      && PreResult(WithoutLabelRules(rules), c) == PreResult(rules, c)
      && PostResult(WithoutLabelRules(rules), c, analysis) == PostResult(rules, c, analysis)
      && Plan(WithoutLabelRules(rules), c, analysis) == Plan(rules, c, analysis)
  {
    var c := ClustersOf(keyOf, alerts)[i];
    assert c.labels.None? by { assert c == ClusterOf(keyOf, alerts, i); }
    if rules.Some? {
      DropLabelRules(rules.value.pre, c, None);
      DropLabelRules(rules.value.post, c, analysis);
    }
  }

  /** Every channel some route or escalation of the configuration names. */
  ghost function Referenced(rules: RuleConfiguration): set<string> {
    set r, a | r in rules.pre + rules.post && a in r.actions && Delivers(a) :: a.channel
  }

  lemma {:induction false} ChannelsFromActions(actions: seq<Action>, c: string)
    requires c in Routes(actions) || c in Escalations(actions)
    ensures exists a :: a in actions && Delivers(a) && a.channel == c
  {
    var n := |actions| - 1;
    if Delivers(actions[n]) && actions[n].channel == c {
      assert actions[n] in actions;
    } else {
      ChannelsFromActions(actions[..n], c);
      var a :| a in actions[..n] && Delivers(a) && a.channel == c;
      assert a in actions;
    }
  }

  lemma ResultChannels(rules: seq<Rule>, cluster: Cluster, analysis: Option<Analysis>, c: string)
    requires
      var acts := Interpret(rules, cluster, analysis).actions;
      c in Routes(acts) || c in Escalations(acts)
    ensures exists r, a :: r in rules && a in r.actions && Delivers(a) && a.channel == c
  {
    var k := InterpretFirst(rules, cluster, analysis);
    var acts := Interpret(rules, cluster, analysis).actions;
    ChannelsFromActions(acts, c);
    var a :| a in acts && Delivers(a) && a.channel == c;
    if k < |rules| {
      FilterMember(Delivers, rules[k].actions, a);
      assert rules[k] in rules;
    }
  }

  /** No cluster and no analysis can make the plan leave the channels that the rules name. */
  lemma PlanWithinReferenced(rules: RuleConfiguration, cluster: Cluster, analysis: Option<Analysis>, c: string)
    requires Some(c) in Plan(Some(rules), cluster, analysis)
    ensures c in Referenced(rules)
  {
    var pre, post := PreResult(Some(rules), cluster).actions, PostResult(Some(rules), cluster, analysis).actions;
    if c in Routes(pre) || c in Escalations(pre) {
      ResultChannels(rules.pre, cluster, None, c);
      var r, a :| r in rules.pre && a in r.actions && Delivers(a) && a.channel == c;
      assert r in rules.pre + rules.post;
    } else {
      assert c in Escalations(post);
      ResultChannels(rules.post, cluster, analysis, c);
      var r, a :| r in rules.post && a in r.actions && Delivers(a) && a.channel == c;
      assert r in rules.pre + rules.post;
    }
  }

  // ---------------------------------------------------------------- notifiers and the registry

  datatype Notifier = Slack(token: string, channel: string) | Teams(url: string)

  /** Deployment settings; an unset variable is the empty string. URL parsing is left to the two predicates. */
  datatype Environment = Environment(
    notifierType: string,
    slackBotToken: string,
    slackChannel: string,
    teamsWebhookUrl: string,
    vars: map<string, string>,
    isUrl: string -> bool,
    hasApiVersion: string -> bool
  )

  function DefaultNotifier(env: Environment): Result<Notifier> {
    if env.notifierType == "teams" then
      if env.teamsWebhookUrl == "" then Err("NOTIFIER_TYPE=teams requires TEAMS_WEBHOOK_URL to be set")
      else Ok(Teams(env.teamsWebhookUrl))
    else if env.notifierType == "slack" then
      if env.slackBotToken == "" || env.slackChannel == "" then
        Err("NOTIFIER_TYPE=slack requires SLACK_BOT_TOKEN and SLACK_CHANNEL to be set")
      else Ok(Slack(env.slackBotToken, env.slackChannel))
    else Ok(Slack("dummy-token", "#alerts"))
  }

  function BuildChannelNotifier(env: Environment, config: ChannelConfig): Result<Notifier> {
    match config
    case SlackChannel(channel) =>
      if env.slackBotToken == "" then Err("requires SLACK_BOT_TOKEN to be set")
      else Ok(Slack(env.slackBotToken, channel))
    case TeamsChannel(name) =>
      if name !in env.vars || env.vars[name] == "" then Err("references an env var which is not set")
      else if !env.isUrl(env.vars[name]) then Err("is not a valid URL")
      else if !env.hasApiVersion(env.vars[name]) then Err("must include api-version= as a query parameter")
      else Ok(Teams(env.vars[name]))
  }

  /** What an entry of the `channels:` section gives: a Slack channel speaks with the one token to the channel it names,
      a Teams channel to the address its variable holds, and neither exists without them. */
  lemma ChannelNotifierMeaning(env: Environment, channel: string, name: string)
    ensures env.slackBotToken != "" ==>
              BuildChannelNotifier(env, SlackChannel(channel)) == Ok(Slack(env.slackBotToken, channel))
    ensures env.slackBotToken == "" ==> BuildChannelNotifier(env, SlackChannel(channel)).Err?
    ensures BuildChannelNotifier(env, TeamsChannel(name)).Ok?
       <==> name in env.vars && env.vars[name] != "" && env.isUrl(env.vars[name]) && env.hasApiVersion(env.vars[name])
    ensures BuildChannelNotifier(env, TeamsChannel(name)).Ok? ==>
              BuildChannelNotifier(env, TeamsChannel(name)).value == Teams(env.vars[name])
  {
  }

  /** What the settings give as the default notifier; any type other than the two known ones gives a dummy. */
  lemma DefaultNotifierMeaning(env: Environment)
    ensures DefaultNotifier(env).Err?
       <==> || (env.notifierType == "teams" && env.teamsWebhookUrl == "")
            || (env.notifierType == "slack" && (env.slackBotToken == "" || env.slackChannel == ""))
    ensures DefaultNotifier(env).Ok? ==>
              DefaultNotifier(env).value
              == if env.notifierType == "teams" then Teams(env.teamsWebhookUrl)
                 else if env.notifierType == "slack" then Slack(env.slackBotToken, env.slackChannel)
                 else Slack("dummy-token", "#alerts")
  {
  }

  class ChannelRegistry {
    var channels: map<string, Notifier>
    var default: Option<Notifier>

    constructor ()
      ensures channels == map[] && default == None
    {
      channels, default := map[], None;
    }

    method Register(channel: string, notifier: Notifier)
      modifies this
      ensures channels == old(channels)[channel := notifier] && default == old(default)
    {
      channels := channels[channel := notifier];
    }

    method SetDefault(notifier: Notifier)
      modifies this
      ensures default == Some(notifier) && channels == old(channels)
    {
      default := Some(notifier);
    }

    method Has(channel: string) returns (r: bool)
      ensures r <==> channel in channels
    {
      r := channel in channels;
    }

    method Resolve(channel: string) returns (r: Result<Notifier>)
      ensures r.Err? <==> channel !in channels && default.None?
      ensures r.Ok? ==> r.value == if channel in channels then channels[channel] else default.value
    {
      if channel in channels { return Ok(channels[channel]); }
      if default.Some? { return Ok(default.value); }
      r := Err("Unknown channel and no default notifier configured");
    }
  }

  class RoutingNotifier {
    const registry: ChannelRegistry
    const defaultNotifier: Notifier

    constructor (registry: ChannelRegistry, defaultNotifier: Notifier)
      ensures this.registry == registry && this.defaultNotifier == defaultNotifier
    {
      this.registry, this.defaultNotifier := registry, defaultNotifier;
    }

    /** The notifier that takes the message, and whether an unknown channel forced it to the default one. */
    method Send(channel: Option<string>) returns (target: Notifier, fellBack: bool)
      ensures fellBack <==> channel.Some? && channel.value !in registry.channels
      ensures target == if channel.Some? && !fellBack then registry.channels[channel.value] else defaultNotifier
    {
      if channel.None? { return defaultNotifier, false; }
      var known := registry.Has(channel.value);
      if known {
        var r := registry.Resolve(channel.value);
        return r.value, false;
      }
      return defaultNotifier, true;
    }
  }

  // ---------------------------------------------------------------- startup

  predicate Names(actions: seq<Action>, c: string) {
    exists a :: a in actions && Delivers(a) && a.channel == c
  }

  predicate NamedBy(rules: seq<Rule>, c: string) {
    exists r :: r in rules && Names(r.actions, c)
  }

  method CollectUnresolvedChannels(rules: RuleConfiguration, registry: ChannelRegistry)
    returns (unresolved: seq<string>)
    ensures Distinct(unresolved)
    ensures forall c :: c in unresolved <==> c in Referenced(rules) && c !in registry.channels
  {
    var referenced: seq<string> := [];
    var all := rules.pre + rules.post;
    for i := 0 to |all|
      invariant Distinct(referenced)
      invariant forall c :: c in referenced <==> NamedBy(all[..i], c)
    {
      ghost var before := referenced;
      var actions := all[i].actions;
      for j := 0 to |actions|
        invariant Distinct(referenced)
        invariant forall c :: c in referenced <==> c in before || Names(actions[..j], c)
      {
        assert actions[..j + 1] == actions[..j] + [actions[j]];
        if Delivers(actions[j]) && actions[j].channel !in referenced {
          referenced := referenced + [actions[j].channel];
        }
      }
      assert actions[..|actions|] == actions;
      assert all[..i + 1] == all[..i] + [all[i]];
    }
    assert all[..|all|] == all;
    unresolved := [];
    for i := 0 to |referenced|
      invariant Distinct(unresolved)
      invariant forall c :: c in unresolved <==> c in referenced[..i] && c !in registry.channels
    {
      var known := registry.Has(referenced[i]);
      assert referenced[..i + 1] == referenced[..i] + [referenced[i]];
      if !known { unresolved := unresolved + [referenced[i]]; }
    }
    assert referenced[..|referenced|] == referenced;
  }

  /** The channel table the entries build, if each of them can be built; a later entry replaces an earlier one. */
  function ChannelTable(env: Environment, entries: seq<(string, ChannelConfig)>): Result<map<string, Notifier>> {
    if entries == [] then Ok(map[])
    else
      var before := ChannelTable(env, entries[..|entries| - 1]);
      var (name, config) := entries[|entries| - 1];
      var built := BuildChannelNotifier(env, config);
      if before.Err? then before
      else if built.Err? then Err(built.error)
      else Ok(before.value[name := built.value])
  }

  /** The settings under which the service starts. */
  ghost predicate Accepted(env: Environment, rules: Option<RuleConfiguration>) {
    DefaultNotifier(env).Ok?
    && (rules.Some? ==>
          ChannelTable(env, rules.value.channels).Ok?
          && Referenced(rules.value) <= ChannelTable(env, rules.value.channels).value.Keys)
  }

  datatype Client = Plain(notifier: Notifier) | Routed(router: RoutingNotifier)

  method CreateNotifier(env: Environment, rules: Option<RuleConfiguration>) returns (r: Result<Client>)
    ensures r.Ok? <==> Accepted(env, rules)
    ensures r.Ok? && rules.None? ==> r.value == Plain(DefaultNotifier(env).value)
    ensures r.Ok? && rules.Some? ==>
      && r.value.Routed? && fresh(r.value.router.registry)
      && r.value.router.registry.channels == ChannelTable(env, rules.value.channels).value
      && r.value.router.registry.default == Some(r.value.router.defaultNotifier) == Some(DefaultNotifier(env).value)
  {
    var base := DefaultNotifier(env);
    if base.Err? { return Err(base.error); }
    if rules.None? { return Ok(Plain(base.value)); }
    var registry := new ChannelRegistry();
    registry.SetDefault(base.value);
    var entries := rules.value.channels;
    for i := 0 to |entries|
      invariant ChannelTable(env, entries[..i]) == Ok(registry.channels) && registry.default == Some(base.value)
    {
      assert entries[..i + 1][..i] == entries[..i];
      var built := BuildChannelNotifier(env, entries[i].1);
      if built.Err? {
        ChannelTableFails(env, entries, i + 1);
        return Err(built.error);
      }
      registry.Register(entries[i].0, built.value);
    }
    assert entries[..|entries|] == entries;
    var unresolved := CollectUnresolvedChannels(rules.value, registry);
    if unresolved != [] {
      assert unresolved[0] in unresolved;
      return Err("Rules reference undefined channels");
    }
    var router := new RoutingNotifier(registry, base.value);
    r := Ok(Routed(router));
  }

  lemma {:induction false} ChannelTableFails(env: Environment, entries: seq<(string, ChannelConfig)>, k: nat)
    requires k <= |entries| && ChannelTable(env, entries[..k]).Err?
    ensures ChannelTable(env, entries).Err?
    decreases |entries|
  {
    if k < |entries| {
      assert entries[..|entries| - 1][..k] == entries[..k];
      ChannelTableFails(env, entries[..|entries| - 1], k);
    } else {
      assert entries[..k] == entries;
    }
  }

  /** The last entry for the channel gives this notifier. */
  ghost predicate Configured(env: Environment, entries: seq<(string, ChannelConfig)>, c: string, notifier: Notifier) {
    exists k :: 0 <= k < |entries| && ConfiguredBy(env, entries, c, notifier, k)
  }

  ghost predicate ConfiguredBy(env: Environment, entries: seq<(string, ChannelConfig)>, c: string, notifier: Notifier,
      k: nat)
    requires k < |entries|
  {
    && entries[k].0 == c && (forall j :: k < j < |entries| ==> entries[j].0 != c)
    && match entries[k].1
       case SlackChannel(channel) => env.slackBotToken != "" && notifier == Slack(env.slackBotToken, channel)
       case TeamsChannel(name) => name in env.vars && env.vars[name] != "" && notifier == Teams(env.vars[name])
  }

  /** The table has the channels of the entries and no others, and it can be built exactly if every entry can. */
  lemma {:induction false} ChannelTableKeys(env: Environment, entries: seq<(string, ChannelConfig)>, c: string)
    ensures ChannelTable(env, entries).Ok?
       <==> forall k :: 0 <= k < |entries| ==> BuildChannelNotifier(env, entries[k].1).Ok?
    ensures ChannelTable(env, entries).Ok? ==>
              (c in ChannelTable(env, entries).value <==> exists k :: 0 <= k < |entries| && entries[k].0 == c)
  {
    if entries != [] {
      var n := |entries| - 1;
      ChannelTableKeys(env, entries[..n], c);
      hide BuildChannelNotifier;
      assert entries == entries[..n] + [entries[n]];
      assert forall k :: 0 <= k < n ==> entries[..n][k] == entries[k];
    }
  }

  lemma {:induction false} ChannelTableEntry(env: Environment, entries: seq<(string, ChannelConfig)>, c: string)
    requires ChannelTable(env, entries).Ok? && c in ChannelTable(env, entries).value
    ensures Configured(env, entries, c, ChannelTable(env, entries).value[c])
  {
    var n := |entries| - 1;
    var notifier := ChannelTable(env, entries).value[c];
    if entries[n].0 == c {
      assert ConfiguredBy(env, entries, c, notifier, n);
    } else {
      ChannelTableEntry(env, entries[..n], c);
      var k :| 0 <= k < n && ConfiguredBy(env, entries[..n], c, notifier, k);
      assert ConfiguredBy(env, entries, c, notifier, k);
    }
  }

  /** Once the service has started, every planned send reaches the notifier configured for the very channel it names. */
  method SendPlanned(env: Environment, rules: RuleConfiguration, cluster: Cluster, analysis: Option<Analysis>,
                     router: RoutingNotifier, target: Option<string>)
    returns (notifier: Notifier, fellBack: bool)
    requires Accepted(env, Some(rules))
    requires router.registry.channels == ChannelTable(env, rules.channels).value
    requires target in Plan(Some(rules), cluster, analysis)
    ensures !fellBack
    ensures target.None? ==> notifier == router.defaultNotifier
    ensures target.Some? ==> Configured(env, rules.channels, target.value, notifier)
  {
    if target.Some? {
      PlanWithinReferenced(rules, cluster, analysis, target.value);
      ChannelTableEntry(env, rules.channels, target.value);
    }
    notifier, fellBack := router.Send(target);
  }

  /** Any planned send against any registry: it falls back exactly when the channel it names is not registered, and
      every such send is one for which the startup check would have refused the configuration. */
  method SendUnchecked(rules: RuleConfiguration, cluster: Cluster, analysis: Option<Analysis>,
                       router: RoutingNotifier, target: Option<string>)
    returns (notifier: Notifier, fellBack: bool)
    requires target in Plan(Some(rules), cluster, analysis)
    ensures fellBack <==> target.Some? && target.value !in router.registry.channels
    ensures fellBack ==> notifier == router.defaultNotifier && !(Referenced(rules) <= router.registry.channels.Keys)
  {
    notifier, fellBack := router.Send(target);
    if fellBack { UncheckedFallsBack(rules, cluster, analysis, target.value, router.registry.channels); }
  }

  /** Whatever channel some plan names, leaving it out of the registry is what the startup check looks for. */
  lemma UncheckedFallsBack(rules: RuleConfiguration, cluster: Cluster, analysis: Option<Analysis>,
                           c: string, channels: map<string, Notifier>)
    requires Some(c) in Plan(Some(rules), cluster, analysis) && c !in channels
    ensures c in Referenced(rules) && !(Referenced(rules) <= channels.Keys)
  {
    PlanWithinReferenced(rules, cluster, analysis, c);
  }
}
