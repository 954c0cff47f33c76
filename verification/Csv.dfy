/** Reading one row of comma-separated values, and what a row written by the rules of RFC 4180 comes back as. */
module Csv {
  import opened Prelude
  import Text

  const QUOTE := '"'

  /** The row reader after some characters: finished fields, the field under way, and whether a quote is open. */
  datatype Scanner = Scanner(result: seq<string>, current: string, inQuotes: bool)

  function Advance(s: Scanner, c: char): Scanner {
    if c == QUOTE then s.(inQuotes := !s.inQuotes)
    else if c == ',' && !s.inQuotes then s.(result := s.result + [Text.Trim(s.current)], current := "")
    else s.(current := s.current + [c])
  }

  function ScanTo(line: string, n: nat): Scanner
    requires n <= |line|
  {
    if n == 0 then Scanner([], "", false) else Advance(ScanTo(line, n - 1), line[n - 1])
  }

  function Scan(line: string): Scanner {
    ScanTo(line, |line|)
  }

  function Row(line: string): seq<string> {
    Scan(line).result + [Text.Trim(Scan(line).current)]
  }

  /** The row reader as a loop. */
  method ParseRow(line: string) returns (result: seq<string>)
    ensures result == Row(line)
  {
    result := [];
    var current := "";
    var inQuotes := false;
    for i := 0 to |line|
      invariant Scanner(result, current, inQuotes) == ScanTo(line, i)
    {
      var c := line[i];
      if c == QUOTE {
        inQuotes := !inQuotes;
      } else if c == ',' && !inQuotes {
        result := result + [Text.Trim(current)];
        current := "";
      } else {
        current := current + [c];
      }
    }
    result := result + [Text.Trim(current)];
  }

  // ---------------------------------------------------------------- what a row means

  /** The quotes among the first `n` characters. */
  function Quotes(line: string, n: nat): nat
    requires n <= |line|
  {
    if n == 0 then 0 else Quotes(line, n - 1) + if line[n - 1] == QUOTE then 1 else 0
  }

  function Unquoted(c: char): string {
    if c == QUOTE then [] else [c]
  }

  /** The characters from `lo` up to `hi` without the quotes. */
  function Stripped(line: string, lo: nat, hi: nat): string
    requires lo <= hi <= |line|
  {
    if lo == hi then [] else Stripped(line, lo, hi - 1) + Unquoted(line[hi - 1])
  }

  function Strip(s: string): string {
    Stripped(s, 0, |s|)
  }

  /** A comma with an even number of quotes before it. */
  predicate OutsideComma(line: string, i: nat) {
    i < |line| && line[i] == ',' && Quotes(line, i) % 2 == 0
  }

  /** The commas outside quotes, in order. */
  function Cuts(line: string, n: nat): seq<nat>
    requires n <= |line|
  {
    if n == 0 then [] else Cuts(line, n - 1) + if OutsideComma(line, n - 1) then [n - 1] else []
  }

  ghost function QuotesBefore(line: string, n: nat): set<nat> {
    set k: nat | k < n && k < |line| && line[k] == '"'
  }

  lemma {:induction false} QuotesCount(line: string, n: nat)
    requires n <= |line|
    ensures Quotes(line, n) == |QuotesBefore(line, n)|
  {
    if n > 0 {
      QuotesCount(line, n - 1);
      assert QuotesBefore(line, n) == QuotesBefore(line, n - 1) + if line[n - 1] == '"' then {n - 1} else {};
    }
  }

  lemma {:induction false} CutsSound(line: string, n: nat, k: nat)
    requires n <= |line| && k < |Cuts(line, n)|
    ensures var i := Cuts(line, n)[k];
            i < n && OutsideComma(line, i) && line[i] == ',' && |QuotesBefore(line, i)| % 2 == 0
  {
    if k < |Cuts(line, n - 1)| {
      CutsSound(line, n - 1, k);
    } else {
      QuotesCount(line, n - 1);
    }
  }

  lemma {:induction false} CutsComplete(line: string, n: nat, i: nat)
    requires i < n <= |line| && line[i] == ',' && |QuotesBefore(line, i)| % 2 == 0
    ensures i in Cuts(line, n)
  {
    if i < n - 1 {
      CutsComplete(line, n - 1, i);
    } else {
      QuotesCount(line, i);
    }
  }

  lemma {:induction false} CutsAscend(line: string, n: nat, k: nat)
    requires n <= |line| && k + 1 < |Cuts(line, n)|
    ensures Cuts(line, n)[k] < Cuts(line, n)[k + 1]
  {
    if k + 1 < |Cuts(line, n - 1)| {
      CutsAscend(line, n - 1, k);
    } else {
      CutsSound(line, n - 1, k);
    }
  }

  /** Field `k` starts after the cut before it. */
  function Lo(cuts: seq<nat>, k: nat): nat
    requires k <= |cuts|
  {
    if k == 0 then 0 else cuts[k - 1] + 1
  }

  lemma {:induction false} LoBeforeCut(line: string, n: nat, k: nat)
    requires n <= |line| && k <= |Cuts(line, n)|
    ensures Lo(Cuts(line, n), k) <= if k < |Cuts(line, n)| then Cuts(line, n)[k] else n
  {
    if k > 0 { CutsSound(line, n, k - 1); }
    if 0 < k < |Cuts(line, n)| { CutsAscend(line, n, k - 1); }
  }

  lemma {:induction false} ScanQuotes(line: string, n: nat)
    requires n <= |line|
    ensures ScanTo(line, n).inQuotes <==> Quotes(line, n) % 2 == 1
  {
    if n > 0 { ScanQuotes(line, n - 1); }
  }

  lemma {:induction false} ScanCurrent(line: string, n: nat)
    requires n <= |line|
    ensures var cuts := Cuts(line, n);
            Lo(cuts, |cuts|) <= n && ScanTo(line, n).current == Stripped(line, Lo(cuts, |cuts|), n)
  {
    LoBeforeCut(line, n, |Cuts(line, n)|);
    if n > 0 {
      ScanCurrent(line, n - 1);
      ScanQuotes(line, n - 1);
    }
  }

  lemma {:induction false} ScanCount(line: string, n: nat)
    requires n <= |line|
    ensures |ScanTo(line, n).result| == |Cuts(line, n)|
  {
    if n > 0 {
      ScanCount(line, n - 1);
      ScanQuotes(line, n - 1);
    }
  }

  /** Field `k` among the finished ones is what lies between cut `k - 1` and cut `k`. */
  ghost predicate FieldBetween(line: string, n: nat, k: nat)
    requires n <= |line|
  {
    var cuts := Cuts(line, n);
    k < |cuts| && k < |ScanTo(line, n).result| && Lo(cuts, k) <= cuts[k] <= |line|
    && ScanTo(line, n).result[k] == Text.Trim(Stripped(line, Lo(cuts, k), cuts[k]))
  }

  lemma FieldStays(line: string, n: nat, k: nat)
    requires n < |line| && FieldBetween(line, n, k)
    ensures FieldBetween(line, n + 1, k)
  {
    var before, cuts := Cuts(line, n), Cuts(line, n + 1);
    assert before == cuts[..|before|];
    assert ScanTo(line, n + 1).result[k] == ScanTo(line, n).result[k];
    assert Lo(cuts, k) == Lo(before, k) && cuts[k] == before[k];
  }

  lemma FieldEnds(line: string, n: nat)
    requires n < |line| && OutsideComma(line, n)
    ensures FieldBetween(line, n + 1, |Cuts(line, n)|)
  {
    ScanCount(line, n);
    ScanQuotes(line, n);
    ScanCurrent(line, n);
  }

  lemma {:induction false} ScanResult(line: string, n: nat, k: nat)
    requires n <= |line| && k < |Cuts(line, n)|
    ensures FieldBetween(line, n, k)
  {
    if k < |Cuts(line, n - 1)| {
      ScanResult(line, n - 1, k);
      FieldStays(line, n - 1, k);
    } else {
      FieldEnds(line, n - 1);
    }
  }

  /** Cutting the line at the commas outside quotes, dropping all quotes of a piece and trimming it gives the field. */
  lemma RowField(line: string, k: nat)
    requires k <= |Cuts(line, |line|)|
    ensures
      var cuts := Cuts(line, |line|);
      var hi := if k < |cuts| then cuts[k] else |line|;
      |Row(line)| == |cuts| + 1 && Lo(cuts, k) <= hi <= |line|
          && Row(line)[k] == Text.Trim(Stripped(line, Lo(cuts, k), hi))
  {
    ScanCount(line, |line|);
    if k < |Cuts(line, |line|)| {
      ScanResult(line, |line|, k);
    } else {
      ScanCurrent(line, |line|);
    }
  }

  // ---------------------------------------------------------------- writing a row and reading it back

  function Written(c: char): string {
    if c == QUOTE then [QUOTE, QUOTE] else [c]
  }

  /** Rule 7 of RFC 4180, section 2: a quote inside a quoted field is doubled. */
  function Doubled(f: string): string {
    if f == [] then [] else Doubled(f[..|f| - 1]) + Written(f[|f| - 1])
  }

  function Quoted(f: string): string {
    [QUOTE] + Doubled(f) + [QUOTE]
  }

  function Encode(fields: seq<string>): string {
    if fields == [] then ""
    else if |fields| == 1 then Quoted(fields[0])
    else Encode(fields[..|fields| - 1]) + "," + Quoted(fields[|fields| - 1])
  }

  lemma {:induction false} ScanPrefix(s: string, t: string, n: nat)
    requires n <= |s|
    ensures ScanTo(s + t, n) == ScanTo(s, n)
  {
    if n > 0 { ScanPrefix(s, t, n - 1); }
  }

  lemma ScanSnoc(s: string, c: char)
    ensures Scan(s + [c]) == Advance(Scan(s), c)
  {
    ScanPrefix(s, [c], |s|);
  }

  lemma ScanWritten(s: string, c: char)
    requires Scan(s).inQuotes
    ensures Scan(s + Written(c)) == Scan(s).(current := Scan(s).current + Unquoted(c))
  {
    ScanSnoc(s, c);
    if c == QUOTE {
      ScanSnoc(s + [c], c);
      assert s + Written(c) == s + [c] + [c];
      assert Scan(s).current + [] == Scan(s).current;
    }
  }

  lemma {:induction false} ScanDoubled(s: string, f: string)
    requires Scan(s).inQuotes
    ensures Scan(s + Doubled(f)) == Scan(s).(current := Scan(s).current + Strip(f))
  {
    if f == [] {
      assert s + Doubled(f) == s && Scan(s).current + [] == Scan(s).current;
    } else {
      var g, c := f[..|f| - 1], f[|f| - 1];
      ScanDoubled(s, g);
      ScanWritten(s + Doubled(g), c);
      StripPrefix(g, [c], |g|);
      assert f == g + [c];
      Associative(s, Doubled(g), Written(c));
      Associative(Scan(s).current, Strip(g), Unquoted(c));
    }
  }

  lemma ScanQuoted(s: string, f: string)
    requires !Scan(s).inQuotes
    ensures Scan(s + Quoted(f)) == Scan(s).(current := Scan(s).current + Strip(f))
  {
    var before := s + [QUOTE];
    var closed := before + Doubled(f) + [QUOTE];
    assert s + Quoted(f) == closed;
    ScanSnoc(s, QUOTE);
    ScanDoubled(before, f);
    ScanSnoc(before + Doubled(f), QUOTE);
    assert Scan(closed) == Advance(Scan(before + Doubled(f)), QUOTE);
  }

  function Kept(f: string): string {
    Text.Trim(Strip(f))
  }

  lemma {:induction false} ScanEncoded(fields: seq<string>)
    requires fields != []
    ensures
      var n := |fields| - 1;
      Scan(Encode(fields)) == Scanner(Map(Kept, fields[..n]), Strip(fields[n]), false)
  {
    var n := |fields| - 1;
    if n == 0 {
      ScanQuoted("", fields[0]);
      assert "" + Quoted(fields[0]) == Quoted(fields[0]) && "" + Strip(fields[0]) == Strip(fields[0]);
    } else {
      var init := fields[..n];
      var head := Encode(init) + ",";
      ScanEncoded(init);
      ScanSnoc(Encode(init), ',');
      MapSnoc(init);
      assert Scan(head) == Scanner(Map(Kept, init), "", false);
      ScanQuoted(head, fields[n]);
      assert "" + Strip(fields[n]) == Strip(fields[n]);
    }
  }

  lemma MapSnoc(fields: seq<string>)
    requires fields != []
    ensures Map(Kept, fields) == Map(Kept, fields[..|fields| - 1]) + [Kept(fields[|fields| - 1])]
  {
  }

  /** What comes back: every field without its quotes and without surrounding white space, whatever it contains. */
  lemma RoundTripValue(fields: seq<string>)
    requires fields != []
    ensures Row(Encode(fields)) == Map(Kept, fields)
  {
    ScanEncoded(fields);
    MapSnoc(fields);
  }

  lemma {:induction false} StripLength(f: string, n: nat)
    requires n <= |f|
    ensures |Stripped(f, 0, n)| <= n && (|Stripped(f, 0, n)| == n <==> QUOTE !in f[..n])
    ensures QUOTE !in f[..n] ==> Stripped(f, 0, n) == f[..n]
  {
    if n > 0 {
      StripLength(f, n - 1);
      assert f[..n] == f[..n - 1] + [f[n - 1]];
    }
  }

  lemma {:induction false} StripPrefix(s: string, t: string, n: nat)
    requires n <= |s|
    ensures Stripped(s + t, 0, n) == Stripped(s, 0, n)
  {
    if n > 0 { StripPrefix(s, t, n - 1); }
  }

  lemma KeptWhole(f: string)
    ensures Kept(f) == f <==> QUOTE !in f && Text.Trimmed(f)
  {
    StripLength(f, |f|);
    assert f[..|f|] == f;
    Text.TrimShorter(Strip(f));
    Text.TrimFixed(f);
  }

  /** The round trip holds exactly for non-empty lists of trimmed fields without quotes: rule 7 is written but never
      undone. */
  lemma RoundTripIff(fields: seq<string>)
    ensures Row(Encode(fields)) == fields
       <==> fields != [] && forall f :: f in fields ==> '"' !in f && Text.Trim(f) == f
  {
    if fields == [] {
      assert |Row("")| == 1;
    } else {
      RoundTripValue(fields);
      forall f | f in fields ensures Kept(f) == f <==> '"' !in f && Text.Trim(f) == f {
        KeptWhole(f);
        Text.TrimFixed(f);
      }
      assert forall k :: 0 <= k < |fields| ==> Map(Kept, fields)[k] == Kept(fields[k]) && fields[k] in fields;
    }
  }
}
