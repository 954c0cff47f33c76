/** The log redactor: a whitelist of top-level fields, truncated strings, and an error section cut down to its
    essentials. */
module Redaction {
  import opened Prelude

  /** A JSON tree; an object lists its fields in order. */
  datatype Json =
    | Null
    | Bool(b: bool)
    | Number(n: real)
    | Str(s: string)
    | Arr(items: seq<Json>)
    | Obj(fields: seq<Field>)

  datatype Field = Field(key: string, value: Json)

  const REDACTED := "[REDACTED]"
  const MAX_STRING_CHARS := 1000
  const TRUNCATION_SUFFIX := "...[truncated]"
  const ERROR_KEY := "error"
  const MESSAGE_KEY := "message"
  const NAME_KEY := "name"
  const STACK_KEY := "stack"
  const SAFE_FIELDS: seq<string> := [
    "requestId", "correlationId", "timestamp", "component", "version", "outcome", "cluster", "dedup", "rule", "llm",
    "triage", "notify", "rollback", "durationMs", "error"]

  predicate Safe(key: string) { key in SAFE_FIELDS }

  function Truncate(s: string): string {
    if |s| > MAX_STRING_CHARS then s[..MAX_STRING_CHARS] + TRUNCATION_SUFFIX else s
  }

  /** A string of up to a thousand characters is kept, a longer one keeps its first thousand. */
  lemma TruncateMeaning(s: string)
    ensures |s| <= 1000 ==> Truncate(s) == s
    ensures |s| > 1000 ==> Truncate(s) == s[..1000] + "...[truncated]"
  {
  }

  /** The fields that may pass. */
  lemma SafeMeaning(key: string)
    ensures Safe(key)
       <==> || key == "requestId" || key == "correlationId" || key == "timestamp" || key == "component"
            || key == "version" || key == "outcome" || key == "cluster" || key == "dedup" || key == "rule"
            || key == "llm" || key == "triage" || key == "notify" || key == "rollback" || key == "durationMs"
            || key == "error"
  {
  }

  function RedactValue(v: Json): Json {
    match v
    case Str(s) => Str(Truncate(s))
    case Arr(items) => Arr(RedactItems(items))
    case Obj(fields) => Obj(RedactFields(fields))
    case _ => v
  }

  function RedactItems(items: seq<Json>): (r: seq<Json>)
    ensures |r| == |items|
  {
    if items == [] then [] else [RedactValue(items[0])] + RedactItems(items[1..])
  }

  function RedactFields(fields: seq<Field>): (r: seq<Field>)
    ensures |r| == |fields|
  {
    if fields == [] then []
    else [Field(fields[0].key, RedactValue(fields[0].value))] + RedactFields(fields[1..])
  }

  function Get(fields: seq<Field>, key: string): Option<Json> {
    if fields == [] then None
    else if fields[0].key == key then Some(fields[0].value)
    else Get(fields[1..], key)
  }

  lemma {:induction false} GetFirst(fields: seq<Field>, key: string) returns (k: nat)
    ensures k <= |fields| && forall j :: 0 <= j < k ==> fields[j].key != key
    ensures if k == |fields| then Get(fields, key) == None
            else fields[k].key == key && Get(fields, key) == Some(fields[k].value)
  {
    if fields == [] || fields[0].key == key {
      k := 0;
    } else {
      var m := GetFirst(fields[1..], key);
      k := m + 1;
      forall j | 0 <= j < k ensures fields[j].key != key {
        assert j > 0 ==> fields[j] == fields[1..][j - 1];
      }
    }
  }

  /** The text of a field, if it has one. */
  function TextOf(fields: seq<Field>, key: string): Option<string> {
    match Get(fields, key)
    case Some(Str(s)) => Some(s)
    case _ => None
  }

  function Shown(text: Option<string>, key: string): seq<Field> {
    match text
    case Some(s) => [Field(key, Str(Truncate(s)))]
    case None => []
  }

  function Essentials(error: seq<Field>, development: bool): seq<Field> {
    Shown(TextOf(error, MESSAGE_KEY), MESSAGE_KEY) + Shown(TextOf(error, NAME_KEY), NAME_KEY)
    + if development then Shown(TextOf(error, STACK_KEY), STACK_KEY) else []
  }

  method RedactError(error: seq<Field>, development: bool) returns (safe: seq<Field>)
    ensures safe == Essentials(error, development)
  {
    safe := [];
    var message := Get(error, MESSAGE_KEY);
    if message.Some? && message.value.Str? {
      safe := safe + [Field(MESSAGE_KEY, Str(Truncate(message.value.s)))];
    }
    var name := Get(error, NAME_KEY);
    if name.Some? && name.value.Str? {
      safe := safe + [Field(NAME_KEY, Str(Truncate(name.value.s)))];
    }
    var stack := Get(error, STACK_KEY);
    if development && stack.Some? && stack.value.Str? {
      safe := safe + [Field(STACK_KEY, Str(Truncate(stack.value.s)))];
    }
  }

  function RedactEntry(key: string, value: Json, development: bool): Json {
    if !Safe(key) then Str(REDACTED)
    else if key == ERROR_KEY && value.Obj? then Obj(Essentials(value.fields, development))
    else RedactValue(value)
  }

  function Redact(obj: seq<Field>, development: bool): (r: seq<Field>)
    ensures |r| == |obj|
  {
    if obj == [] then []
    else [Field(obj[0].key, RedactEntry(obj[0].key, obj[0].value, development))] + Redact(obj[1..], development)
  }

  lemma {:induction false} RedactAt(obj: seq<Field>, development: bool, i: nat)
    requires i < |obj|
    ensures Redact(obj, development)[i] == Field(obj[i].key, RedactEntry(obj[i].key, obj[i].value, development))
  {
    if i > 0 { RedactAt(obj[1..], development, i - 1); }
  }

  // ---------------------------------------------------------------- what is kept

  /** Short, or cut before. */
  predicate Settled(s: string) {
    || |s| <= MAX_STRING_CHARS
    || (|s| == MAX_STRING_CHARS + |TRUNCATION_SUFFIX| && s[MAX_STRING_CHARS..] == TRUNCATION_SUFFIX)
  }

  predicate SettledTree(v: Json) {
    match v
    case Str(s) => Settled(s)
    case Arr(items) => SettledItems(items)
    case Obj(fields) => SettledFields(fields)
    case _ => true
  }

  predicate SettledItems(items: seq<Json>) {
    items == [] || (SettledTree(items[0]) && SettledItems(items[1..]))
  }

  predicate SettledFields(fields: seq<Field>) {
    fields == [] || (SettledTree(fields[0].value) && SettledFields(fields[1..]))
  }

  lemma TruncateKeeps(s: string)
    ensures Truncate(s) == s <==> Settled(s)
  {
    if Settled(s) && |s| > MAX_STRING_CHARS {
      assert s == s[..MAX_STRING_CHARS] + s[MAX_STRING_CHARS..];
    }
    if Truncate(s) == s && |s| > MAX_STRING_CHARS {
      assert Truncate(s)[MAX_STRING_CHARS..] == TRUNCATION_SUFFIX;
    }
  }

  /** A whitelisted value passes unchanged exactly when none of its strings has to be cut. */
  lemma {:induction false} ValueKeptIff(v: Json)
    ensures RedactValue(v) == v <==> SettledTree(v)
  {
    match v
    case Str(s) => TruncateKeeps(s);
    case Arr(items) => ItemsKeptIff(items);
    case Obj(fields) => FieldsKeptIff(fields);
    case _ =>
  }

  lemma {:induction false} ItemsKeptIff(items: seq<Json>)
    ensures RedactItems(items) == items <==> SettledItems(items)
  {
    if items != [] {
      ValueKeptIff(items[0]);
      ItemsKeptIff(items[1..]);
      HeadTail(RedactItems(items), items);
      assert RedactItems(items)[1..] == RedactItems(items[1..]);
    }
  }

  lemma {:induction false} FieldsKeptIff(fields: seq<Field>)
    ensures RedactFields(fields) == fields <==> SettledFields(fields)
  {
    if fields != [] {
      ValueKeptIff(fields[0].value);
      FieldsKeptIff(fields[1..]);
      HeadTail(RedactFields(fields), fields);
      assert RedactFields(fields)[1..] == RedactFields(fields[1..]);
    }
  }

  /** Every field of the output keeps its key; outside the whitelist the value is replaced, and inside it, errors apart,
      it stays as it was exactly when nothing has to be cut. */
  lemma RedactShape(obj: seq<Field>, development: bool, i: nat)
    requires i < |obj|
    ensures
      var (before, after) := (obj[i], Redact(obj, development)[i]);
      && after.key == before.key
      && (!Safe(before.key) ==> after.value == Str("[REDACTED]"))
      && (before.key == "error" && before.value.Obj? ==>
            after.value == Obj(Essentials(before.value.fields, development)))
      && (Safe(before.key) && before.key != "error" ==> (after.value == before.value <==> SettledTree(before.value)))
  {
    RedactAt(obj, development, i);
    ValueKeptIff(obj[i].value);
  }

  // ---------------------------------------------------------------- redacting again

  lemma TruncateAgain(s: string)
    ensures Truncate(Truncate(s)) == Truncate(s)
    ensures |Truncate(s)| <= 1014
  {
  }

  lemma {:induction false} RedactValueAgain(v: Json)
    ensures RedactValue(RedactValue(v)) == RedactValue(v)
  {
    match v
    case Str(s) => TruncateAgain(s);
    case Arr(items) => RedactItemsAgain(items);
    case Obj(fields) => RedactFieldsAgain(fields);
    case _ =>
  }

  lemma {:induction false} RedactItemsAgain(items: seq<Json>)
    ensures RedactItems(RedactItems(items)) == RedactItems(items)
  {
    if items != [] {
      RedactValueAgain(items[0]);
      RedactItemsAgain(items[1..]);
    }
  }

  lemma {:induction false} RedactFieldsAgain(fields: seq<Field>)
    ensures RedactFields(RedactFields(fields)) == RedactFields(fields)
  {
    if fields != [] {
      RedactValueAgain(fields[0].value);
      RedactFieldsAgain(fields[1..]);
    }
  }

  lemma {:induction false} GetAppend(a: seq<Field>, b: seq<Field>, key: string)
    ensures Get(a + b, key) == if Get(a, key).Some? then Get(a, key) else Get(b, key)
  {
    if a == [] {
      assert a + b == b;
    } else {
      assert (a + b)[1..] == a[1..] + b;
      GetAppend(a[1..], b, key);
    }
  }

  lemma EssentialsText(error: seq<Field>, development: bool, key: string)
    requires key == "message" || key == "name" || key == "stack"
    ensures TextOf(Essentials(error, development), key)
         == if key == "stack" && !development then None
            else match TextOf(error, key) case Some(s) => Some(Truncate(s)) case None => None
  {
    var a, b := Shown(TextOf(error, MESSAGE_KEY), MESSAGE_KEY), Shown(TextOf(error, NAME_KEY), NAME_KEY);
    var c := if development then Shown(TextOf(error, STACK_KEY), STACK_KEY) else [];
    GetAppend(a + b, c, key);
    GetAppend(a, b, key);
  }

  /** Nothing else of an error object remains, and what remains comes in this order. */
  lemma EssentialsShape(error: seq<Field>, development: bool, j: nat, k: nat)
    requires j < k < |Essentials(error, development)|
    ensures
      var a, b := Essentials(error, development)[j].key, Essentials(error, development)[k].key;
      (a == "message" && b == "name") || (a == "message" && b == "stack") || (a == "name" && b == "stack")
  {
  }

  lemma EssentialsOnly(error: seq<Field>, development: bool, k: nat)
    requires k < |Essentials(error, development)|
    ensures var f := Essentials(error, development)[k];
            f.value.Str? && (f.key == "message" || f.key == "name" || (f.key == "stack" && development))
  {
  }

  lemma EssentialsAgain(error: seq<Field>, first: bool, second: bool)
    ensures Essentials(Essentials(error, first), second) == Essentials(error, first && second)
  {
    forall key | key == "message" || key == "name" || key == "stack"
      ensures Shown(TextOf(Essentials(error, first), key), key)
           == if key == STACK_KEY && !first then [] else Shown(TextOf(error, key), key)
    {
      EssentialsText(error, first, key);
      if TextOf(error, key).Some? { TruncateAgain(TextOf(error, key).value); }
    }
  }

  lemma RedactEntryAgain(key: string, v: Json, first: bool, second: bool)
    ensures RedactEntry(key, RedactEntry(key, v, first), second) == RedactEntry(key, v, first && second)
  {
    if key == ERROR_KEY && v.Obj? {
      EssentialsAgain(v.fields, first, second);
    } else {
      RedactValueAgain(v);
    }
  }

  /** Redacting twice is redacting once, under the stricter of the two environments; with equal environments this is
      idempotence, and redacting a development log for production leaves what production would have logged. */
  lemma {:induction false} RedactAgain(obj: seq<Field>, first: bool, second: bool)
    ensures Redact(Redact(obj, first), second) == Redact(obj, first && second)
  {
    if obj != [] {
      RedactEntryAgain(obj[0].key, obj[0].value, first, second);
      RedactAgain(obj[1..], first, second);
    }
  }

  // ---------------------------------------------------------------- bounds

  /** No string value of the tree is longer than `n`. */
  predicate Bounded(v: Json, n: nat) {
    match v
    case Str(s) => |s| <= n
    case Arr(items) => BoundedItems(items, n)
    case Obj(fields) => BoundedFields(fields, n)
    case _ => true
  }

  predicate BoundedItems(items: seq<Json>, n: nat) {
    items == [] || (Bounded(items[0], n) && BoundedItems(items[1..], n))
  }

  predicate BoundedFields(fields: seq<Field>, n: nat) {
    fields == [] || (Bounded(fields[0].value, n) && BoundedFields(fields[1..], n))
  }

  lemma {:induction false} RedactValueBounded(v: Json)
    ensures Bounded(RedactValue(v), 1014)
  {
    match v
    case Str(s) => TruncateAgain(s);
    case Arr(items) => RedactItemsBounded(items);
    case Obj(fields) => RedactFieldsBounded(fields);
    case _ =>
  }

  lemma {:induction false} RedactItemsBounded(items: seq<Json>)
    ensures BoundedItems(RedactItems(items), 1014)
  {
    if items != [] {
      RedactValueBounded(items[0]);
      RedactItemsBounded(items[1..]);
    }
  }

  lemma {:induction false} RedactFieldsBounded(fields: seq<Field>)
    ensures BoundedFields(RedactFields(fields), 1014)
  {
    if fields != [] {
      RedactValueBounded(fields[0].value);
      RedactFieldsBounded(fields[1..]);
    }
  }

  lemma EssentialsBounded(error: seq<Field>, development: bool)
    ensures BoundedFields(Essentials(error, development), 1014)
  {
    ShownBounded(error, MESSAGE_KEY);
    ShownBounded(error, NAME_KEY);
    ShownBounded(error, STACK_KEY);
    var a, b := Shown(TextOf(error, MESSAGE_KEY), MESSAGE_KEY), Shown(TextOf(error, NAME_KEY), NAME_KEY);
    BoundedAppend(a, b);
    BoundedAppend(a + b, if development then Shown(TextOf(error, STACK_KEY), STACK_KEY) else []);
  }

  lemma ShownBounded(error: seq<Field>, key: string)
    ensures BoundedFields(Shown(TextOf(error, key), key), 1014)
  {
    if TextOf(error, key).Some? { TruncateAgain(TextOf(error, key).value); }
  }

  lemma {:induction false} BoundedAppend(a: seq<Field>, b: seq<Field>)
    requires BoundedFields(a, 1014) && BoundedFields(b, 1014)
    ensures BoundedFields(a + b, 1014)
  {
    if a == [] {
      assert a + b == b;
    } else {
      assert (a + b)[1..] == a[1..] + b;
      BoundedAppend(a[1..], b);
    }
  }

  /** No string value of a redacted object is longer than the limit and the suffix together. */
  lemma {:induction false} RedactBounded(obj: seq<Field>, development: bool)
    ensures BoundedFields(Redact(obj, development), 1014)
  {
    if obj != [] {
      var key, v := obj[0].key, obj[0].value;
      if key == ERROR_KEY && v.Obj? {
        EssentialsBounded(v.fields, development);
      } else {
        RedactValueBounded(v);
      }
      RedactBounded(obj[1..], development);
    }
  }

  // ---------------------------------------------------------------- what the output reveals

  /** The part of a text that a log shows: all of it, or the first thousand characters and the fact that there are
      more. */
  predicate SameText(s: string, t: string) {
    if |s| <= MAX_STRING_CHARS then s == t else |t| > MAX_STRING_CHARS && s[..MAX_STRING_CHARS] == t[..MAX_STRING_CHARS]
  }

  predicate SameTree(v: Json, w: Json) {
    match (v, w)
    case (Str(s), Str(t)) => SameText(s, t)
    case (Arr(a), Arr(b)) => SameItems(a, b)
    case (Obj(a), Obj(b)) => SameFields(a, b)
    case _ => v == w
  }

  predicate SameItems(a: seq<Json>, b: seq<Json>) {
    if a == [] || b == [] then a == b else SameTree(a[0], b[0]) && SameItems(a[1..], b[1..])
  }

  predicate SameFields(a: seq<Field>, b: seq<Field>) {
    if a == [] || b == [] then a == b
    else a[0].key == b[0].key && SameTree(a[0].value, b[0].value) && SameFields(a[1..], b[1..])
  }

  predicate SameOptional(s: Option<string>, t: Option<string>) {
    if s.Some? && t.Some? then SameText(s.value, t.value) else s == t
  }

  /** Two errors look alike when their messages, their names and, in development, their stacks do. */
  predicate SameError(a: seq<Field>, b: seq<Field>, development: bool) {
    && SameOptional(TextOf(a, MESSAGE_KEY), TextOf(b, MESSAGE_KEY))
    && SameOptional(TextOf(a, NAME_KEY), TextOf(b, NAME_KEY))
    && (development ==> SameOptional(TextOf(a, STACK_KEY), TextOf(b, STACK_KEY)))
  }

  lemma SameTextIff(s: string, t: string)
    ensures Truncate(s) == Truncate(t) <==> SameText(s, t)
  {
    if |s| > MAX_STRING_CHARS && |t| > MAX_STRING_CHARS {
      assert Truncate(s)[..MAX_STRING_CHARS] == s[..MAX_STRING_CHARS];
      assert Truncate(t)[..MAX_STRING_CHARS] == t[..MAX_STRING_CHARS];
    }
  }

  lemma {:induction false} SameTreeIff(v: Json, w: Json)
    ensures RedactValue(v) == RedactValue(w) <==> SameTree(v, w)
  {
    match (v, w)
    case (Str(s), Str(t)) => SameTextIff(s, t);
    case (Arr(a), Arr(b)) => SameItemsIff(a, b);
    case (Obj(a), Obj(b)) => SameFieldsIff(a, b);
    case _ =>
  }

  lemma {:induction false} SameItemsIff(a: seq<Json>, b: seq<Json>)
    ensures RedactItems(a) == RedactItems(b) <==> SameItems(a, b)
  {
    if a != [] && b != [] {
      var r, q := RedactItems(a), RedactItems(b);
      SameTreeIff(a[0], b[0]);
      SameItemsIff(a[1..], b[1..]);
      assert r[1..] == RedactItems(a[1..]) && q[1..] == RedactItems(b[1..]);
    }
  }

  lemma {:induction false} SameFieldsIff(a: seq<Field>, b: seq<Field>)
    ensures RedactFields(a) == RedactFields(b) <==> SameFields(a, b)
  {
    if a != [] && b != [] {
      var r, q := RedactFields(a), RedactFields(b);
      SameTreeIff(a[0].value, b[0].value);
      SameFieldsIff(a[1..], b[1..]);
      assert r[1..] == RedactFields(a[1..]) && q[1..] == RedactFields(b[1..]);
    }
  }

  predicate SameEntry(key: string, v: Json, w: Json, development: bool) {
    if !Safe(key) then true
    else if key == ERROR_KEY && v.Obj? && w.Obj? then SameError(v.fields, w.fields, development)
    else SameTree(v, w)
  }

  /** The same keys in the same order, with entries that look the same. */
  predicate SameObject(a: seq<Field>, b: seq<Field>, development: bool) {
    if a == [] || b == [] then a == b
    else
      a[0].key == b[0].key && SameEntry(a[0].key, a[0].value, b[0].value, development)
      && SameObject(a[1..], b[1..], development)
  }

  lemma ShownIff(s: Option<string>, t: Option<string>, key: string)
    ensures Shown(s, key) == Shown(t, key) <==> SameOptional(s, t)
  {
    if s.Some? && t.Some? {
      SameTextIff(s.value, t.value);
      assert Shown(s, key) == Shown(t, key) ==> Shown(s, key)[0] == Shown(t, key)[0];
    }
  }

  lemma ShownOf(error: seq<Field>, development: bool, key: string)
    requires key in [MESSAGE_KEY, NAME_KEY, STACK_KEY] && (key == STACK_KEY ==> development)
    ensures Shown(TextOf(Essentials(error, development), key), key) == Shown(TextOf(error, key), key)
  {
    EssentialsText(error, development, key);
    if TextOf(error, key).Some? { TruncateAgain(TextOf(error, key).value); }
  }

  lemma SameErrorIff(a: seq<Field>, b: seq<Field>, development: bool)
    ensures Essentials(a, development) == Essentials(b, development) <==> SameError(a, b, development)
  {
    ShownIff(TextOf(a, MESSAGE_KEY), TextOf(b, MESSAGE_KEY), MESSAGE_KEY);
    ShownIff(TextOf(a, NAME_KEY), TextOf(b, NAME_KEY), NAME_KEY);
    ShownIff(TextOf(a, STACK_KEY), TextOf(b, STACK_KEY), STACK_KEY);
    if Essentials(a, development) == Essentials(b, development) {
      ShownOf(a, development, MESSAGE_KEY);
      ShownOf(b, development, MESSAGE_KEY);
      ShownOf(a, development, NAME_KEY);
      ShownOf(b, development, NAME_KEY);
      if development {
        ShownOf(a, development, STACK_KEY);
        ShownOf(b, development, STACK_KEY);
      }
    }
  }

  lemma SameEntryIff(key: string, v: Json, w: Json, development: bool)
    ensures RedactEntry(key, v, development) == RedactEntry(key, w, development) <==> SameEntry(key, v, w, development)
  {
    if key == ERROR_KEY && v.Obj? && w.Obj? {
      SameErrorIff(v.fields, w.fields, development);
    } else {
      SameTreeIff(v, w);
    }
  }

  /** Two objects are logged alike exactly when they have the same keys and look the same at the safe ones: the values
      of all other fields, and whatever an error holds besides its essentials, leave no trace. */
  lemma {:induction false} RevealsExactly(a: seq<Field>, b: seq<Field>, development: bool)
    ensures Redact(a, development) == Redact(b, development) <==> SameObject(a, b, development)
  {
    if a != [] && b != [] {
      var r, q := Redact(a, development), Redact(b, development);
      SameEntryIff(a[0].key, a[0].value, b[0].value, development);
      RevealsExactly(a[1..], b[1..], development);
      assert r[1..] == Redact(a[1..], development) && q[1..] == Redact(b[1..], development);
    }
  }

  // ---------------------------------------------------------------- the stack in production

  /** Some object of the tree has a field of this name. */
  predicate HasKey(v: Json, key: string) {
    match v
    case Arr(items) => ItemsHaveKey(items, key)
    case Obj(fields) => FieldsHaveKey(fields, key)
    case _ => false
  }

  predicate ItemsHaveKey(items: seq<Json>, key: string) {
    items != [] && (HasKey(items[0], key) || ItemsHaveKey(items[1..], key))
  }

  predicate FieldsHaveKey(fields: seq<Field>, key: string) {
    fields != [] && (fields[0].key == key || HasKey(fields[0].value, key) || FieldsHaveKey(fields[1..], key))
  }

  lemma {:induction false} ValueKeepsKeys(v: Json, key: string)
    ensures HasKey(RedactValue(v), key) <==> HasKey(v, key)
  {
    match v
    case Arr(items) => ItemsKeepKeys(items, key);
    case Obj(fields) => FieldsKeepKeys(fields, key);
    case _ =>
  }

  lemma {:induction false} ItemsKeepKeys(items: seq<Json>, key: string)
    ensures ItemsHaveKey(RedactItems(items), key) <==> ItemsHaveKey(items, key)
  {
    if items != [] {
      ValueKeepsKeys(items[0], key);
      ItemsKeepKeys(items[1..], key);
    }
  }

  lemma {:induction false} FieldsKeepKeys(fields: seq<Field>, key: string)
    ensures FieldsHaveKey(RedactFields(fields), key) <==> FieldsHaveKey(fields, key)
  {
    if fields != [] {
      ValueKeepsKeys(fields[0].value, key);
      FieldsKeepKeys(fields[1..], key);
    }
  }

  lemma {:induction false} AppendHasKey(a: seq<Field>, b: seq<Field>, key: string)
    ensures FieldsHaveKey(a + b, key) <==> FieldsHaveKey(a, key) || FieldsHaveKey(b, key)
  {
    if a == [] {
      assert a + b == b;
    } else {
      assert (a + b)[1..] == a[1..] + b;
      AppendHasKey(a[1..], b, key);
    }
  }

  /** Outside development the error section still holds a stack exactly when the error is an array with one inside. */
  lemma ProductionStack(error: Json)
    ensures HasKey(RedactEntry("error", error, false), "stack") <==> error.Arr? && HasKey(error, "stack")
  {
    if error.Obj? {
      var a := Shown(TextOf(error.fields, MESSAGE_KEY), MESSAGE_KEY);
      var b := Shown(TextOf(error.fields, NAME_KEY), NAME_KEY);
      assert a + b + [] == a + b;
      AppendHasKey(a, b, STACK_KEY);
    } else {
      ValueKeepsKeys(error, STACK_KEY);
    }
  }
}
