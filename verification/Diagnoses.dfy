/** Where the diagnosis of a notification comes from, and what the notification carries: for every note and every
    completion of every run, the answers of the ports it rests on. */
module Diagnoses {
  import opened Prelude
  import opened Clustering
  import opened Rules
  import opened Routing
  import opened Delivery

  /** What triage and model say together: a low triage leaves no diagnosis and counts as degraded; otherwise the model's
      answer goes out as it is, and a model that throws leaves none. */
  predicate Says(triage: Triage, llm: LlmAnswer, analysis: Option<Analysis>, degraded: bool) {
    && !triage.Rejects?
    && (triage.Low? ==> analysis.None? && degraded)
    && (!triage.Low? && llm.Answers? ==> analysis == llm.analysis && degraded == llm.degradedReason)
    && (!triage.Low? && llm.Throws? ==> analysis.None? && degraded)
  }

  /** The step of run `i` that settles the diagnosis. */
  lemma AnalyseStep(w: World, s: State, i: nat, triage: Triage, llm: LlmAnswer)
    requires Working(s, i) && s.active[i].phase.Analysing? && !triage.Rejects?
    ensures
      var s' := Step(w, s, Analyse(i, triage, llm));
      && Working(s', i) && Current(s', i) == Current(s, i) && s'.active[i].phase.Sending?
      && s'.active[i].phase.sent == 0 && Says(triage, llm, s'.active[i].phase.analysis, s'.active[i].phase.degraded)
  {
  }

  /** Event `k` of the trace settled the diagnosis of this cluster. */
  ghost predicate DiagnosedAt(w: World, trace: seq<Event>, k: nat, c: Cluster, analysis: Option<Analysis>,
                              degraded: bool) {
    && k < |trace| && trace[k].Analyse?
    && var s, e := Run(w, Initial(w), trace[..k]), trace[k];
       && Working(s, e.i) && s.active[e.i].phase.Analysing? && Current(s, e.i) == c
       && Says(e.triage, e.llm, analysis, degraded)
  }

  lemma DiagnosedSnoc(w: World, trace: seq<Event>, k: nat, c: Cluster, analysis: Option<Analysis>, degraded: bool)
    requires trace != [] && DiagnosedAt(w, trace[..|trace| - 1], k, c, analysis, degraded)
    ensures DiagnosedAt(w, trace, k, c, analysis, degraded)
  {
    assert trace[..|trace| - 1][..k] == trace[..k];
  }

  predicate Sends(s: State, i: nat) { Working(s, i) && s.active[i].phase.Sending? }

  /** Whoever is sending was sending before with the same diagnosis, or has just got it. */
  lemma SendsSince(w: World, s: State, e: Event, i: nat)
    requires Sends(Step(w, s, e), i)
    ensures
      var s' := Step(w, s, e);
      var p := s'.active[i].phase;
      || (Sends(s, i) && Current(s, i) == Current(s', i) && s.active[i].phase.analysis == p.analysis
          && s.active[i].phase.degraded == p.degraded)
      || (e.Analyse? && e.i == i && Working(s, i) && s.active[i].phase.Analysing? && Current(s, i) == Current(s', i)
          && Says(e.triage, e.llm, p.analysis, p.degraded))
  {
  }

  /** Every run that is sending got its diagnosis from one step of its own. */
  lemma {:induction false} SendingDiagnosed(w: World, trace: seq<Event>, i: nat) returns (k: nat)
    requires Sends(Run(w, Initial(w), trace), i)
    ensures
      var s := Run(w, Initial(w), trace);
      DiagnosedAt(w, trace, k, Current(s, i), s.active[i].phase.analysis, s.active[i].phase.degraded)
  {
    var n := |trace| - 1;
    var s, s' := Run(w, Initial(w), trace[..n]), Run(w, Initial(w), trace);
    var p := s'.active[i].phase;
    SendsSince(w, s, trace[n], i);
    if Sends(s, i) && Current(s, i) == Current(s', i) && s.active[i].phase.analysis == p.analysis
       && s.active[i].phase.degraded == p.degraded {
      k := SendingDiagnosed(w, trace[..n], i);
      DiagnosedSnoc(w, trace, k, Current(s', i), p.analysis, p.degraded);
    } else {
      k := n;
    }
  }

  /** The entry is a note of the cluster's plan under this diagnosis. */
  predicate IsNote(p: Policy, e: Entry, c: Cluster, analysis: Option<Analysis>) {
    e.Sent? && e.fp == c.fingerprint && e.note in p.plan(c, analysis)
  }

  /** The entry is the completion of the cluster's notification under this diagnosis. */
  predicate IsCompletion(e: Entry, c: Cluster, analysis: Option<Analysis>, degraded: bool) {
    e == Ended(c, if degraded then Degraded else Outcome.Success, analysis)
  }

  /** Notes and completed notifications are written by runs that are sending. */
  lemma EntryWritten(w: World, s: State, e: Event, j: nat)
    requires |s.log| <= j < |Step(w, s, e).log|
    requires var entry := Step(w, s, e).log[j];
             entry.Sent? || (entry.Ended? && (entry.outcome.Success? || entry.outcome.Degraded?))
    ensures
      && e.Send? && Sends(s, e.i)
      && var c, p := Current(s, e.i), s.active[e.i].phase;
         IsNote(w.policy, Step(w, s, e).log[j], c, p.analysis)
         || IsCompletion(Step(w, s, e).log[j], c, p.analysis, p.degraded)
  {
  }

  /** Every note of every run rests on one answer of triage and model for its cluster. */
  lemma {:induction false} NoteDiagnosed(w: World, trace: seq<Event>, j: nat)
    returns (k: nat, c: Cluster, analysis: Option<Analysis>, degraded: bool)
    requires j < |Run(w, Initial(w), trace).log| && Run(w, Initial(w), trace).log[j].Sent?
    ensures DiagnosedAt(w, trace, k, c, analysis, degraded)
    ensures IsNote(w.policy, Run(w, Initial(w), trace).log[j], c, analysis)
  {
    var n := |trace| - 1;
    var s := Run(w, Initial(w), trace[..n]);
    LogGrows(w, s, trace[n]);
    hide Step;
    if j < |s.log| {
      k, c, analysis, degraded := NoteDiagnosed(w, trace[..n], j);
      DiagnosedSnoc(w, trace, k, c, analysis, degraded);
    } else {
      EntryWritten(w, s, trace[n], j);
      var i := trace[n].i;
      k := SendingDiagnosed(w, trace[..n], i);
      c, analysis, degraded := Current(s, i), s.active[i].phase.analysis, s.active[i].phase.degraded;
      DiagnosedSnoc(w, trace, k, c, analysis, degraded);
    }
  }

  /** Every completed notification of every run rests on such an answer, and counts as degraded exactly if that answer
      does. */
  lemma {:induction false} CompletionDiagnosed(w: World, trace: seq<Event>, j: nat)
    returns (k: nat, c: Cluster, analysis: Option<Analysis>, degraded: bool)
    requires j < |Run(w, Initial(w), trace).log| && Run(w, Initial(w), trace).log[j].Ended?
    requires Run(w, Initial(w), trace).log[j].outcome.Success? || Run(w, Initial(w), trace).log[j].outcome.Degraded?
    ensures DiagnosedAt(w, trace, k, c, analysis, degraded)
    ensures IsCompletion(Run(w, Initial(w), trace).log[j], c, analysis, degraded)
  {
    var n := |trace| - 1;
    var s := Run(w, Initial(w), trace[..n]);
    LogGrows(w, s, trace[n]);
    hide Step;
    if j < |s.log| {
      k, c, analysis, degraded := CompletionDiagnosed(w, trace[..n], j);
      DiagnosedSnoc(w, trace, k, c, analysis, degraded);
    } else {
      EntryWritten(w, s, trace[n], j);
      var i := trace[n].i;
      k := SendingDiagnosed(w, trace[..n], i);
      c, analysis, degraded := Current(s, i), s.active[i].phase.analysis, s.active[i].phase.degraded;
      DiagnosedSnoc(w, trace, k, c, analysis, degraded);
    }
  }

  // ---------------------------------------------------------------- what a note carries

  /** The labels of the cluster with these tags on top. */
  ghost predicate Overlaid(labels: Option<map<string, string>>, before: Option<map<string, string>>,
                           actions: seq<Action>) {
    && (labels.Some? <==> before.Some? || exists k :: 0 <= k < |actions| && actions[k].Tag?)
    && (labels.Some? ==> forall key :: OverlaidAt(labels.value, before, actions, key))
  }

  /** The key has the value of the last action that tags it, or the one it had before if none does. */
  ghost predicate OverlaidAt(labels: map<string, string>, before: Option<map<string, string>>, actions: seq<Action>,
                             key: string) {
    if exists k :: 0 <= k < |actions| && actions[k].Tag? && actions[k].key == key
    then key in labels && LastTag(actions, key, labels[key])
    else if before.Some? && key in before.value then key in labels && labels[key] == before.value[key]
    else key !in labels
  }

  ghost predicate LastTag(actions: seq<Action>, key: string, value: string) {
    exists k :: 0 <= k < |actions| && actions[k] == Tag(key, value)
                && forall j :: k < j < |actions| ==> !(actions[j].Tag? && actions[j].key == key)
  }

  lemma TagsOverlay(c: Cluster, actions: seq<Action>)
    ensures Overlaid(Tagged(c, TagsOf(actions)).labels, c.labels, actions)
  {
    var tags := TagsOf(actions);
    var labels := Tagged(c, tags).labels;
    if k :| 0 <= k < |actions| && actions[k].Tag? {
      assert actions[k].key in tags;
    }
    if key :| key in tags {
      var k :| 0 <= k < |actions| && actions[k].Tag? && actions[k].key == key;
    }
    if labels.Some? {
      forall key ensures OverlaidAt(labels.value, c.labels, actions, key) {
        TagsApplied(c, tags, key);
        if key in tags { var k := TagValue(actions, key); }
      }
    }
  }

  /** Send `k` of a plan: its channel is that of the plan, it carries the diagnosis as it is, and it shows the cluster
      with the tags of the post-model rule that decides, none without an analysis. */
  lemma NotesMeaning(rules: Option<RuleConfiguration>, c: Cluster, analysis: Option<Analysis>, post: seq<Action>,
                     k: nat)
    requires k < |Plan(rules, c, analysis)|
    requires if analysis.None? then post == [] else DecidingActions(PostRules(rules), c, analysis, post)
    ensures |PolicyOf(rules).plan(c, analysis)| == |Plan(rules, c, analysis)|
    ensures
      var note := PolicyOf(rules).plan(c, analysis)[k];
      && note.channel == Plan(rules, c, analysis)[k] && note.analysis == analysis
      && note.cluster.(labels := c.labels) == c && Overlaid(note.cluster.labels, c.labels, post)
  {
    if analysis.Some? {
      InterpretActions(PostRules(rules), c, analysis, post);
    }
    assert PostResult(rules, c, analysis).tags == TagsOf(post);
    TagsOverlay(c, post);
  }

  /** A note carries a diagnosis exactly when triage did not call the incident minor and the model gave that very
      diagnosis. */
  lemma NoteCarries(rules: Option<RuleConfiguration>, queue: map<nat, seq<Cluster>>, trace: seq<Event>, j: nat)
    returns (k: nat, c: Cluster, degraded: bool)
    requires var w := World(PolicyOf(rules), queue);
             j < |Run(w, Initial(w), trace).log| && Run(w, Initial(w), trace).log[j].Sent?
    ensures
      var w := World(PolicyOf(rules), queue);
      var e := Run(w, Initial(w), trace).log[j];
      && DiagnosedAt(w, trace, k, c, e.note.analysis, degraded) && c.fingerprint == e.fp
      && forall x :: e.note.analysis == Some(x)
           <==> !trace[k].triage.Low? && trace[k].llm.Answers? && trace[k].llm.analysis == Some(x)
  {
    var w := World(PolicyOf(rules), queue);
    var analysis;
    k, c, analysis, degraded := NoteDiagnosed(w, trace, j);
    hide Run, Step;
  }
}
