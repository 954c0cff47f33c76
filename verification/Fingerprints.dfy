/** Fingerprints of alerts, and when two different alerts get the same one. */
module Fingerprints {
  import opened Clustering
  import opened Prelude
  import Text

  function Normal(s: string): string {
    Text.Trim(Text.Lower(s))
  }

  function FingerprintKey(a: Alert): string {
    Normal(a.serviceName) + "|" + Normal(TypeName(a.alertType)) + "|" + Normal(a.endpointPath)
  }

  /** `hash` stands for SHA-256; nothing is assumed of it here. */
  function Fingerprint(hash: string -> string, a: Alert): string {
    hash(FingerprintKey(a))
  }

  ghost predicate SameTriple(a: Alert, b: Alert) {
    Normal(a.serviceName) == Normal(b.serviceName) && a.alertType == b.alertType
    && Normal(a.endpointPath) == Normal(b.endpointPath)
  }

  ghost predicate CollisionFree(hash: string -> string) {
    forall s, t :: hash(s) == hash(t) ==> s == t
  }

  // ---------------------------------------------------------------- normal strings

  predicate Plain(s: string) {
    forall i :: 0 <= i < |s| ==> !('A' <= s[i] <= 'Z')
  }

  lemma {:induction false} LowerPlain(s: string)
    requires Plain(s)
    ensures Text.Lower(s) == s
  {
    if s != [] {
      LowerPlain(s[1..]);
      assert s == [s[0]] + s[1..];
    }
  }

  lemma NormalPlain(s: string)
    requires Plain(s) && Text.Trimmed(s)
    ensures Normal(s) == s
  {
    LowerPlain(s);
    Text.TrimFixed(s);
  }

  lemma {:induction false} LowerIsPlain(s: string)
    ensures Plain(Text.Lower(s))
  {
    if s != [] { LowerIsPlain(s[1..]); }
  }

  lemma {:induction false} TrimStartPlain(s: string)
    requires Plain(s)
    ensures Plain(Text.TrimStart(s))
  {
    if s != [] && Text.IsSpace(s[0]) { TrimStartPlain(s[1..]); }
  }

  lemma {:induction false} TrimEndPlain(s: string)
    requires Plain(s)
    ensures Plain(Text.TrimEnd(s))
  {
    if s != [] && Text.IsSpace(s[|s| - 1]) { TrimEndPlain(s[..|s| - 1]); }
  }

  /** Normalising leaves nothing to normalise. */
  lemma NormalIsNormal(s: string)
    ensures Plain(Normal(s)) && Text.Trimmed(Normal(s))
  {
    var t := Text.Lower(s);
    LowerIsPlain(s);
    TrimStartPlain(t);
    TrimEndPlain(Text.TrimStart(t));
    Text.TrimStartShape(t);
    Text.TrimEndShape(Text.TrimStart(t));
  }

  /** Normalising cuts the white space off both ends and turns capitals into small letters; nothing else changes. */
  lemma NormalMeaning(s: string) returns (i: nat, j: nat)
    ensures i <= j <= |s| && |Normal(s)| == j - i
    ensures forall k :: i <= k < j ==>
              Normal(s)[k - i] as int == if 65 <= s[k] as int <= 90 then s[k] as int + 32 else s[k] as int
    ensures forall k :: 0 <= k < |s| && !(i <= k < j) ==> Text.IsSpace(s[k])
    ensures i < j ==> !Text.IsSpace(s[i]) && !Text.IsSpace(s[j - 1])
  {
    var t := Text.Lower(s);
    i, j := Text.TrimCut(t);
    forall k: nat | k < |s| ensures t[k] as int == if 65 <= s[k] as int <= 90 then s[k] as int + 32 else s[k] as int {
      Text.LowerAt(s, k);
    }
  }

  lemma TypeNames(t: AlertType)
    ensures TypeName(t) != [] && Plain(TypeName(t)) && '|' !in TypeName(t) && Text.Trimmed(TypeName(t))
  {
  }

  lemma TypeNamesNormal(t: AlertType)
    ensures Normal(TypeName(t)) == TypeName(t)
  {
    TypeNames(t);
    hide TypeName;
    NormalPlain(TypeName(t));
  }

  lemma TypeText(t: AlertType)
    ensures "|" + TypeName(t) + "|"
         == match t case Error => "|http_500|" case Warning => "|latency_spike|" case Success => "|recovery|"
  {
  }

  /** The key of an alert: normalised service name, type name and normalised endpoint, separated by bars. */
  lemma KeyText(a: Alert)
    ensures FingerprintKey(a)
         == Normal(a.serviceName)
            + (match a.alertType
               case Error => "|http_500|"
               case Warning => "|latency_spike|"
               case Success => "|recovery|")
            + Normal(a.endpointPath)
  {
    TypeNamesNormal(a.alertType);
    TypeText(a.alertType);
    hide Normal, TypeName;
    var s, t, e := Normal(a.serviceName), TypeName(a.alertType), Normal(a.endpointPath);
    assert s + "|" + t + "|" + e == s + ("|" + t + "|") + e;
  }

  lemma TypeNameInjective(t: AlertType, u: AlertType)
    ensures TypeName(t) == TypeName(u) <==> t == u
  {
    assert TypeName(t) == TypeName(u) ==> |TypeName(t)| == |TypeName(u)|;
  }

  // ---------------------------------------------------------------- when keys collide

  function Join(s: string, t: string, e: string): (key: string)
    ensures |key| == |s| + |t| + |e| + 2
    ensures key[..|s|] == s && key[|s|] == '|' && key[|s| + 1..|s| + 1 + |t|] == t && key[|s| + 1 + |t|] == '|'
    ensures key[|s| + |t| + 2..] == e
  {
    s + "|" + t + "|" + e
  }

  /** The service name `t` goes on where `s` ends as if a type name and an endpoint followed. */
  predicate ShadowsWith(s: string, name: string, t: string) {
    var n := |s| + 1 + |name|;
    && |t| >= n && t[..|s|] == s && t[|s|] == '|' && t[|s| + 1..n] == name
    && (|t| > n ==> t[n] == '|') && (|t| > n + 1 ==> !Text.IsSpace(t[n + 1]))
  }

  predicate Shadows(s: string, t: string) {
    ShadowsWith(s, TypeName(Error), t) || ShadowsWith(s, TypeName(Warning), t) || ShadowsWith(s, TypeName(Success), t)
  }

  lemma ShadowsOne(s: string, t: string) returns (u: AlertType)
    requires Shadows(s, t)
    ensures ShadowsWith(s, TypeName(u), t)
  {
    u := if ShadowsWith(s, TypeName(Error), t) then Error
         else if ShadowsWith(s, TypeName(Warning), t) then Warning else Success;
  }

  lemma NoBarInside(s: string, t: string, e: string)
    requires '|' !in t
    ensures forall j :: |s| < j <= |s| + |t| ==> Join(s, t, e)[j] != '|'
  {
    forall j | |s| < j <= |s| + |t| ensures Join(s, t, e)[j] != '|' {
      assert Join(s, t, e)[|s| + 1..|s| + 1 + |t|][j - |s| - 1] == Join(s, t, e)[j];
    }
  }

  lemma SamePrefix(k: string, s: string, t: string, n: nat)
    requires n <= |s| <= |k| && n <= |t| <= |k| && k[..|s|] == s && k[..|t|] == t
    ensures s[..n] == k[..n] == t[..n]
  {
    assert k[..|s|][..n] == k[..n] && k[..|t|][..n] == k[..n];
  }

  /** Of two joins that agree the shorter service name shadows the longer one. */
  lemma ShorterShadows(s: string, t: string, e: string, s': string, t': string, e': string)
    requires Join(s, t, e) == Join(s', t', e') && |s| < |s'| && '|' !in t && Text.Trimmed(e)
    ensures ShadowsWith(s, t, s')
  {
    var k := Join(s, t, e);
    var n := |s| + 1 + |t|;
    assert k[..|s'|] == s' && k[|s'|] == '|';
    NoBarInside(s, t, e);
    SamePrefix(k, s, s', |s|);
    forall j | 0 <= j < |s'| ensures s'[j] == k[j] {
      assert k[..|s'|][j] == k[j];
    }
    assert s'[|s| + 1..n] == k[|s| + 1..n];
    if |s'| > n + 1 {
      assert k[n + 1..][0] == k[n + 1];
    }
  }

  lemma EqualServices(s: string, t: string, e: string, s': string, t': string, e': string)
    requires Join(s, t, e) == Join(s', t', e') && |s| == |s'| && '|' !in t && '|' !in t'
    ensures s == s' && t == t' && e == e'
  {
    var k := Join(s, t, e);
    NoBarInside(s, t, e);
    NoBarInside(s', t', e');
    assert k[|s| + 1 + |t|] == '|' == k[|s| + 1 + |t'|];
  }

  lemma KeyIsJoin(a: Alert)
    ensures FingerprintKey(a) == Join(Normal(a.serviceName), TypeName(a.alertType), Normal(a.endpointPath))
  {
    TypeNamesNormal(a.alertType);
    hide Normal, TypeName;
  }

  /** Unless one of the service names shadows the other, two alerts share a fingerprint exactly when their normalised
      triples agree. */
  lemma SameClusterIff(hash: string -> string, a: Alert, b: Alert)
    requires CollisionFree(hash)
    requires !Shadows(Normal(a.serviceName), Normal(b.serviceName))
    requires !Shadows(Normal(b.serviceName), Normal(a.serviceName))
    ensures Fingerprint(hash, a) == Fingerprint(hash, b) <==> SameTriple(a, b)
  {
    KeyIsJoin(a);
    KeyIsJoin(b);
    TypeNames(a.alertType);
    TypeNames(b.alertType);
    NormalIsNormal(a.endpointPath);
    NormalIsNormal(b.endpointPath);
    TypeNameInjective(a.alertType, b.alertType);
    NotShadowed(Normal(a.serviceName), Normal(b.serviceName), a.alertType);
    NotShadowed(Normal(b.serviceName), Normal(a.serviceName), b.alertType);
    hide Normal, TypeName, Shadows, ShadowsWith, Join;
    if Fingerprint(hash, a) == Fingerprint(hash, b) {
      var s, t, e := Normal(a.serviceName), TypeName(a.alertType), Normal(a.endpointPath);
      var s', t', e' := Normal(b.serviceName), TypeName(b.alertType), Normal(b.endpointPath);
      if |s| < |s'| {
        ShorterShadows(s, t, e, s', t', e');
      } else if |s'| < |s| {
        ShorterShadows(s', t', e', s, t, e);
      } else {
        EqualServices(s, t, e, s', t', e');
      }
    }
  }

  lemma NotShadowed(s: string, t: string, u: AlertType)
    requires !Shadows(s, t)
    ensures !ShadowsWith(s, TypeName(u), t)
  {
  }

  lemma ShadowedHasBar(s: string, t: string)
    requires Shadows(s, t)
    ensures '|' in t
  {
    var u := ShadowsOne(s, t);
    assert t[|s|] == '|';
  }

  /** A service name without a bar is not shadowed by any other. */
  lemma NoBarNoShadow(s: string, t: string)
    requires '|' !in t
    ensures !Shadows(s, t)
  {
    if Shadows(s, t) { ShadowedHasBar(s, t); }
  }

  /** Different triples with one fingerprint. */
  ghost predicate Collide(hash: string -> string, a: Alert, b: Alert) {
    Fingerprint(hash, a) == Fingerprint(hash, b) && !SameTriple(a, b)
  }

  /** What has to follow the shorter service name and its type so that the key reads like that of the longer one. */
  function Endpoint(s: string, name: string, t: string): string
    requires ShadowsWith(s, name, t)
  {
    var n := |s| + 1 + |name|;
    (if |t| == n then "" else t[n + 1..] + "|") + TypeName(Error) + "|x"
  }

  lemma EndpointNormal(s: string, name: string, t: string)
    requires ShadowsWith(s, name, t) && Plain(t)
    ensures Normal(Endpoint(s, name, t)) == Endpoint(s, name, t)
  {
    TypeNames(Error);
    var n := |s| + 1 + |name|;
    var e := Endpoint(s, name, t);
    var head := if |t| == n then "" else t[n + 1..] + "|";
    hide TypeName;
    assert Plain(head);
    assert Plain(e);
    assert e[|e| - 1] == 'x';
    assert e[0] == if |t| == n then TypeName(Error)[0] else if |t| == n + 1 then '|' else t[n + 1];
    NormalPlain(e);
  }

  lemma EndpointJoins(s: string, name: string, t: string)
    requires ShadowsWith(s, name, t)
    ensures Join(s, name, Endpoint(s, name, t)) == Join(t, TypeName(Error), "x")
  {
    hide TypeName;
    var n := |s| + 1 + |name|;
    var x := TypeName(Error) + "|x";
    assert Join(t, TypeName(Error), "x") == t + "|" + x;
    if |t| == n {
      assert t == s + "|" + name;
      assert Endpoint(s, name, t) == x;
    } else {
      assert t == s + "|" + name + "|" + t[n + 1..];
      assert Endpoint(s, name, t) == t[n + 1..] + "|" + x;
    }
  }

  /** If one service name shadows the other, some alerts of the two services share a fingerprint, whatever the hash. */
  lemma ShadowCollides(hash: string -> string, s1: string, s2: string, at: Timestamp) returns (a: Alert, b: Alert)
    requires Shadows(Normal(s1), Normal(s2))
    ensures a.serviceName == s1 && b.serviceName == s2 && Collide(hash, a, b)
  {
    hide TypeName, Shadows, ShadowsWith, Endpoint, Join, Text.Trimmed, Plain, Normal, FingerprintKey;
    var u := ShadowsOne(Normal(s1), Normal(s2));
    var s, name, t := Normal(s1), TypeName(u), Normal(s2);
    var e := Endpoint(s, name, t);
    a := Alert(s1, u, e, None, at, None);
    b := Alert(s2, Error, "x", None, at, None);
    NormalIsNormal(s2);
    EndpointNormal(s, name, t);
    LetterNormal();
    EndpointJoins(s, name, t);
    ShadowLonger(s, name, t);
    KeyIsJoin(a);
    KeyIsJoin(b);
  }

  lemma LetterNormal()
    ensures Normal("x") == "x"
  {
    NormalPlain("x");
  }

  lemma ShadowLonger(s: string, name: string, t: string)
    requires ShadowsWith(s, name, t)
    ensures |s| < |t|
  {
  }

  /** For two service names there are alerts that collide exactly when one of the names shadows the other. */
  lemma CollisionIff(hash: string -> string, s1: string, s2: string)
    requires CollisionFree(hash)
    ensures (exists a: Alert, b: Alert :: a.serviceName == s1 && b.serviceName == s2 && Collide(hash, a, b))
       <==> Shadows(Normal(s1), Normal(s2)) || Shadows(Normal(s2), Normal(s1))
  {
    hide Normal, Shadows, Fingerprint;
    if a: Alert, b: Alert :| a.serviceName == s1 && b.serviceName == s2 && Collide(hash, a, b) {
      if !Shadows(Normal(s1), Normal(s2)) && !Shadows(Normal(s2), Normal(s1)) {
        SameClusterIff(hash, a, b);
      }
    }
    if Shadows(Normal(s1), Normal(s2)) {
      var a, b := ShadowCollides(hash, s1, s2, Timestamp("", 0));
    } else if Shadows(Normal(s2), Normal(s1)) {
      var b, a := ShadowCollides(hash, s2, s1, Timestamp("", 0));
      assert Collide(hash, a, b);
    }
  }
}
