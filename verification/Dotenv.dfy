/** Deterministic dotenv output for `inject_file`, and a reader for the documented quoting rules. */
module Dotenv {
  import opened Prelude
  import opened Model

  datatype Entry = Entry(key: string, value: string)
  datatype DotenvError = DuplicateKeys | InvalidKey | InvalidValue

  // ----- characters ------------------------------------------------------------------

  /** `char::is_control`: general category Cc. */
  predicate IsControl(c: char) { c as int <= 0x1F || 0x7F <= c as int <= 0x9F }

  /** `char::is_whitespace`: the Unicode White_Space property. */
  predicate IsWhitespace(c: char) {
    var n := c as int;
    0x09 <= n <= 0x0D || n == 0x20 || n == 0x85 || n == 0xA0 || n == 0x1680 || 0x2000 <= n <= 0x200A
    || n == 0x2028 || n == 0x2029 || n == 0x202F || n == 0x205F || n == 0x3000
  }

  predicate ValueOk(value: string) { forall c :: c in value ==> !IsControl(c) || c in "\n\r\t" }

  predicate Special(c: char) { IsWhitespace(c) || c in "\"'$`#=\\" || IsControl(c) }

  predicate NeedsQuotes(value: string) { value == "" || exists c :: c in value && Special(c) }

  function EscapeChar(c: char): string {
    if c == '\\' then "\\\\" else if c == '"' then "\\\"" else if c == '$' then "\\$" else [c]
  }

  function EscapeAll(value: string): string {
    if value == "" then "" else EscapeChar(value[0]) + EscapeAll(value[1..])
  }

  function Escaped(value: string): string {
    if NeedsQuotes(value) then "\"" + EscapeAll(value) + "\"" else value
  }

  method MustQuote(value: string) returns (needsQuotes: bool)
    ensures needsQuotes <==> NeedsQuotes(value)
  {
    needsQuotes := value == "";
    for i := 0 to |value|
      invariant needsQuotes <==> value == "" || exists k :: 0 <= k < i && Special(value[k])
    {
      if Special(value[i]) { needsQuotes := true; }
    }
  }

  lemma EscapeStep(value: string, i: nat, before: string)
    requires i < |value|
    ensures before + EscapeAll(value[i..]) == before + EscapeChar(value[i]) + EscapeAll(value[i + 1..])
  {
    assert value[i..][0] == value[i] && value[i..][1..] == value[i + 1..];
    assert before + (EscapeChar(value[i]) + EscapeAll(value[i + 1..])) == before + EscapeChar(value[i]) + EscapeAll(value[i + 1..]);
  }

  method EscapeValue(value: string) returns (out: string)
    ensures out == Escaped(value)
  {
    hide EscapeAll;
    var needsQuotes := MustQuote(value);
    if !needsQuotes { return value; }
    out := "\"";
    assert value[0..] == value;
    for i := 0 to |value|
      invariant out + EscapeAll(value[i..]) == "\"" + EscapeAll(value)
    {
      EscapeStep(value, i, out);
      if value[i] == '\\' { out := out + "\\\\"; }
      else if value[i] == '"' { out := out + "\\\""; }
      else if value[i] == '$' { out := out + "\\$"; }
      else { out := out + [value[i]]; }
    }
    NothingLeft(value);
    assert out + "" == out;
    out := out + "\"";
  }

  lemma NothingLeft(value: string)
    ensures EscapeAll(value[|value|..]) == ""
  {
  }

  // ----- order ---------------------------------------------------------------------------

  predicate Leq(a: string, b: string) {
    a == "" || (b != "" && (a[0] < b[0] || (a[0] == b[0] && Leq(a[1..], b[1..]))))
  }

  lemma {:induction false} LeqTotal(a: string, b: string)
    ensures Leq(a, b) || Leq(b, a)
    ensures Leq(a, b) && Leq(b, a) ==> a == b
  {
    if a != "" && b != "" {
      LeqTotal(a[1..], b[1..]);
      assert a == [a[0]] + a[1..] && b == [b[0]] + b[1..];
    }
  }

  lemma {:induction false} LeqTransitive(a: string, b: string, c: string)
    requires Leq(a, b) && Leq(b, c)
    ensures Leq(a, c)
  {
    if a != "" && a[0] == b[0] && b[0] == c[0] { LeqTransitive(a[1..], b[1..], c[1..]); }
  }

  predicate Ordered(s: seq<Entry>) { forall i, j :: 0 <= i < j < |s| ==> Leq(s[i].key, s[j].key) }

  /** After the entries with a key not above its own, so that sorting is stable. */
  function Insert(e: Entry, s: seq<Entry>): (r: seq<Entry>)
    ensures multiset(r) == multiset(s) + multiset{e}
  {
    if s == [] then [e]
    else if Leq(s[0].key, e.key) then
      assert s == [s[0]] + s[1..];
      [s[0]] + Insert(e, s[1..])
    else [e] + s
  }

  /** `sort_by(|a, b| a.key.cmp(&b.key))`. */
  function Sorted(s: seq<Entry>): (r: seq<Entry>)
    ensures multiset(r) == multiset(s)
  {
    if s == [] then []
    else
      assert s == s[..|s| - 1] + [s[|s| - 1]];
      Insert(s[|s| - 1], Sorted(s[..|s| - 1]))
  }

  lemma {:induction false} InsertKeepsOrder(e: Entry, s: seq<Entry>)
    requires Ordered(s)
    ensures Ordered(Insert(e, s))
  {
    if s == [] {
    } else {
      var r := Insert(e, s);
      if Leq(s[0].key, e.key) {
        InsertKeepsOrder(e, s[1..]);
        forall j | 1 <= j < |r| ensures Leq(r[0].key, r[j].key) {
          assert r[j] in multiset(Insert(e, s[1..]));
          assert r[j] in multiset(s[1..]) + multiset{e};
          if r[j] != e { assert r[j] in s[1..]; }
        }
      } else {
        LeqTotal(s[0].key, e.key);
        forall j | 1 <= j < |r| ensures Leq(r[0].key, r[j].key) {
          assert r[j] == s[j - 1];
          if j > 1 { LeqTransitive(e.key, s[0].key, s[j - 1].key); }
        }
      }
    }
  }

  lemma {:induction false} SortedIsOrdered(s: seq<Entry>)
    ensures Ordered(Sorted(s))
  {
    if s == [] {
    } else {
      SortedIsOrdered(s[..|s| - 1]);
      InsertKeepsOrder(s[|s| - 1], Sorted(s[..|s| - 1]));
    }
  }

  predicate KeysDistinct(s: seq<Entry>) { forall i, j :: 0 <= i < j < |s| ==> s[i].key != s[j].key }

  /** `windows(2)` finds a duplicate key exactly when there is one, because equal keys are neighbours. */
  predicate NeighboursDiffer(s: seq<Entry>) { forall i :: 0 <= i < |s| - 1 ==> s[i].key != s[i + 1].key }

  lemma NeighboursSuffice(s: seq<Entry>)
    requires Ordered(s)
    ensures NeighboursDiffer(s) <==> KeysDistinct(s)
  {
    if NeighboursDiffer(s) {
      forall i, j | 0 <= i < j < |s| ensures s[i].key != s[j].key {
        if s[i].key == s[j].key {
          assert Leq(s[i].key, s[i + 1].key);
          if i + 1 < j { assert Leq(s[i + 1].key, s[j].key); }
          LeqTotal(s[i].key, s[i + 1].key);
        }
      }
    }
  }

  lemma SmallestFirst(s: seq<Entry>, t: seq<Entry>)
    requires Ordered(s) && Ordered(t) && KeysDistinct(s) && multiset(s) == multiset(t) && s != [] && t != []
    ensures s[0] == t[0]
  {
    assert s[0] in multiset(t) && t[0] in multiset(s);
    var i :| 0 <= i < |s| && s[i] == t[0];
    var j :| 0 <= j < |t| && t[j] == s[0];
    if i == 0 || j == 0 {
    } else {
      assert Leq(s[0].key, s[i].key) && Leq(t[0].key, t[j].key);
      LeqTotal(s[0].key, t[0].key);
    }
  }

  lemma TailsMatch(s: seq<Entry>, t: seq<Entry>)
    requires s != [] && t != [] && s[0] == t[0] && multiset(s) == multiset(t)
    ensures multiset(s[1..]) == multiset(t[1..])
  {
    assert s == [s[0]] + s[1..] && t == [t[0]] + t[1..];
    assert multiset(s[1..]) == multiset(s) - multiset{s[0]};
    assert multiset(t[1..]) == multiset(t) - multiset{t[0]};
  }

  /** Distinct keys leave one ordered arrangement. */
  lemma {:induction false} OrderIsUnique(s: seq<Entry>, t: seq<Entry>)
    requires Ordered(s) && Ordered(t) && KeysDistinct(s) && multiset(s) == multiset(t)
    ensures s == t
  {
    assert |s| == |multiset(s)| && |t| == |multiset(t)|;
    if s == [] {
    } else {
      SmallestFirst(s, t);
      TailsMatch(s, t);
      OrderIsUnique(s[1..], t[1..]);
      assert s == [s[0]] + s[1..] && t == [t[0]] + t[1..];
    }
  }

  // ----- serialize ----------------------------------------------------------------------------

  function LineFor(e: Entry): string { e.key + "=" + Escaped(e.value) + "\n" }

  function Render(s: seq<Entry>): string { if s == [] then "" else LineFor(s[0]) + Render(s[1..]) }

  function FirstFault(s: seq<Entry>): Option<DotenvError> {
    if s == [] then None
    else if !ValidKey(s[0].key) then Some(InvalidKey)
    else if !ValueOk(s[0].value) then Some(InvalidValue)
    else FirstFault(s[1..])
  }

  function Serialized(entries: seq<Entry>): Result<string, DotenvError> {
    var sorted := Sorted(entries);
    if !NeighboursDiffer(sorted) then Err(DuplicateKeys)
    else if FirstFault(sorted).Some? then Err(FirstFault(sorted).value)
    else Ok(Render(sorted))
  }

  method ValidateValue(value: string) returns (ok: bool)
    ensures ok <==> ValueOk(value)
  {
    for i := 0 to |value|
      invariant forall k :: 0 <= k < i ==> !IsControl(value[k]) || value[k] in "\n\r\t"
    {
      if IsControl(value[i]) && value[i] != '\n' && value[i] != '\r' && value[i] != '\t' {
        assert value[i] in value;
        return false;
      }
    }
    return true;
  }

  method HasDuplicate(sorted: seq<Entry>) returns (found: bool)
    ensures found <==> !NeighboursDiffer(sorted)
  {
    var i := 1;
    while i < |sorted|
      invariant 1 <= i && forall k :: 0 <= k < i - 1 && k < |sorted| - 1 ==> sorted[k].key != sorted[k + 1].key
    {
      if sorted[i - 1].key == sorted[i].key { return true; }
      i := i + 1;
    }
    return false;
  }

  lemma RenderStep(sorted: seq<Entry>, i: nat, before: string)
    requires i < |sorted|
    ensures before + Render(sorted[i..]) == before + LineFor(sorted[i]) + Render(sorted[i + 1..])
    ensures FirstFault(sorted[i..]) == if !ValidKey(sorted[i].key) then Some(InvalidKey)
                                       else if !ValueOk(sorted[i].value) then Some(InvalidValue)
                                       else FirstFault(sorted[i + 1..])
  {
    hide LineFor;
    assert sorted[i..][0] == sorted[i] && sorted[i..][1..] == sorted[i + 1..];
    assert before + (LineFor(sorted[i]) + Render(sorted[i + 1..])) == before + LineFor(sorted[i]) + Render(sorted[i + 1..]);
  }

  lemma RenderEnd(sorted: seq<Entry>, out: string)
    ensures out + Render(sorted[|sorted|..]) == out && FirstFault(sorted[|sorted|..]).None?
    ensures sorted[0..] == sorted
  {
    assert out + "" == out;
  }

  lemma LineParts(before: string, e: Entry)
    ensures before + e.key + "=" + Escaped(e.value) + "\n" == before + LineFor(e)
  {
    hide Escaped;
  }

  method Serialize(entries: seq<Entry>) returns (r: Result<string, DotenvError>)
    ensures r == Serialized(entries)
  {
    hide Render;
    hide FirstFault;
    hide Sorted;
    hide NeighboursDiffer;
    hide LineFor;
    hide Escaped;
    hide ValidKey;
    hide ValueOk;
    var sorted := Sorted(entries);
    var duplicate := HasDuplicate(sorted);
    if duplicate { return Err(DuplicateKeys); }
    var out := "";
    RenderEnd(sorted, out);
    assert "" + Render(sorted) == Render(sorted);
    for i := 0 to |sorted|
      invariant FirstFault(sorted[i..]) == FirstFault(sorted)
      invariant out + Render(sorted[i..]) == Render(sorted)
    {
      var e := sorted[i];
      RenderStep(sorted, i, out);
      if !ValidKey(e.key) { return Err(InvalidKey); }
      var ok := ValidateValue(e.value);
      if !ok { return Err(InvalidValue); }
      var escaped := EscapeValue(e.value);
      LineParts(out, e);
      out := out + e.key;
      out := out + "=";
      out := out + escaped;
      out := out + "\n";
    }
    RenderEnd(sorted, out);
    return Ok(out);
  }

  // ----- a reader for the documented rules ---------------------------------------------------------

  function IndexOf(s: string, c: char): (k: nat)
    ensures k <= |s| && (k < |s| ==> s[k] == c)
  {
    if s == "" || s[0] == c then 0 else 1 + IndexOf(s[1..], c)
  }

  /** The rest of a double-quoted value: `\\`, `\"` and `\$` are the escapes, a bare `$` is an error, and newlines
      are kept. */
  function ReadQuoted(s: string): Option<(string, string)> {
    if s == "" then None
    else if s[0] == '"' then Some(("", s[1..]))
    else if s[0] == '\\' then
      if |s| < 2 || s[1] !in "\\\"$" then None
      else
        var rest := ReadQuoted(s[2..]);
        if rest.None? then None else Some(([s[1]] + rest.value.0, rest.value.1))
    else if s[0] == '$' then None
    else
      var rest := ReadQuoted(s[1..]);
      if rest.None? then None else Some(([s[0]] + rest.value.0, rest.value.1))
  }

  function ReadValue(s: string): Option<(string, string)> {
    if s != "" && s[0] == '"' then
      var quoted := ReadQuoted(s[1..]);
      if quoted.None? || quoted.value.1 == "" || quoted.value.1[0] != '\n' then None
      else Some((quoted.value.0, quoted.value.1[1..]))
    else
      var end := IndexOf(s, '\n');
      if end == |s| then None else Some((s[..end], s[end + 1..]))
  }

  function ReadFile(s: string): Option<seq<Entry>>
    decreases |s|
  {
    if s == "" then Some([])
    else
      var eq := IndexOf(s, '=');
      if eq == |s| then None
      else
        var value := ReadValue(s[eq + 1..]);
        if value.None? || |value.value.1| >= |s| then None
        else
          var rest := ReadFile(value.value.1);
          if rest.None? then None else Some([Entry(s[..eq], value.value.0)] + rest.value)
  }

  lemma {:induction false} IndexAfter(p: string, c: char, rest: string)
    requires c !in p
    ensures IndexOf(p + [c] + rest, c) == |p|
  {
    if p == "" {
      assert p + [c] + rest == [c] + rest;
    } else {
      assert (p + [c] + rest)[1..] == p[1..] + [c] + rest;
      IndexAfter(p[1..], c, rest);
    }
  }

  lemma ReadEscaped(c: char, tail: string)
    requires ReadQuoted(tail).Some?
    ensures ReadQuoted(EscapeChar(c) + tail) == Some(([c] + ReadQuoted(tail).value.0, ReadQuoted(tail).value.1))
  {
    var s := EscapeChar(c) + tail;
    if |EscapeChar(c)| == 2 { assert s[2..] == tail; } else { assert s[1..] == tail; }
  }

  lemma {:induction false} QuotedRoundTrip(value: string, rest: string)
    ensures ReadQuoted(EscapeAll(value) + "\"" + rest) == Some((value, rest))
  {
    var s := EscapeAll(value) + "\"" + rest;
    if value == "" {
      assert s == "\"" + rest && s[1..] == rest;
    } else {
      QuotedRoundTrip(value[1..], rest);
      var tail := EscapeAll(value[1..]) + "\"" + rest;
      assert value == [value[0]] + value[1..];
      assert s == EscapeChar(value[0]) + tail;
      ReadEscaped(value[0], tail);
      hide ReadQuoted;
    }
  }

  lemma BareRoundTrip(value: string, rest: string)
    requires !NeedsQuotes(value)
    ensures ReadValue(value + "\n" + rest) == Some((value, rest))
  {
    hide IndexOf;
    var s := value + "\n" + rest;
    assert value[0] in value && Special('"') && Special('\n');
    assert '\n' !in value;
    IndexAfter(value, '\n', rest);
    assert s[..|value|] == value && s[|value| + 1..] == rest;
  }

  lemma ValueRoundTrip(value: string, rest: string)
    ensures ReadValue(Escaped(value) + "\n" + rest) == Some((value, rest))
  {
    hide ReadQuoted;
    hide IndexOf;
    hide EscapeAll;
    if NeedsQuotes(value) {
      var s := Escaped(value) + "\n" + rest;
      QuotedRoundTrip(value, "\n" + rest);
      assert s[0] == '"';
      assert s[1..] == EscapeAll(value) + "\"" + ("\n" + rest);
      assert ("\n" + rest)[1..] == rest;
    } else {
      BareRoundTrip(value, rest);
    }
  }

  lemma {:induction false} EscapingGrows(value: string)
    ensures |EscapeAll(value)| >= |value|
  {
    if value != "" { EscapingGrows(value[1..]); }
  }

  /** A value is written as it is exactly when it is not empty and has no white space, control character, quote, `$`, `#`,
      `=`, backquote or backslash; otherwise it is quoted. */
  lemma BareExactlyWhenPlain(value: string)
    ensures Escaped(value) == value <==>
              value != "" && forall c :: c in value ==> !IsWhitespace(c) && !IsControl(c) && c !in ['"', '\'', '$', '`', '#', '=', '\\']
    ensures Escaped(value) != value ==>
              |Escaped(value)| >= 2 && Escaped(value)[0] == '"' && Escaped(value)[|Escaped(value)| - 1] == '"'
  {
    EscapingGrows(value);
    hide EscapeAll;
    hide IsWhitespace;
    hide IsControl;
    assert forall c :: c in "\"'$`#=\\" <==> c in ['"', '\'', '$', '`', '#', '=', '\\'];
  }

  lemma NoEqualsInKeys(key: string)
    requires ValidKey(key)
    ensures '=' !in key
  {
    forall c | c in key ensures c != '=' {
      var i :| 0 <= i < |key| && key[i] == c;
      if i > 0 { assert key[1..][i - 1] == c && c in key[1..]; }
    }
  }

  /** A rendered line reads as its entry, ahead of what follows. */
  lemma LineRoundTrip(e: Entry, rest: string)
    requires ValidKey(e.key)
    ensures ReadFile(LineFor(e) + rest) == match ReadFile(rest)
                                           case None => None
                                           case Some(more) => Some([e] + more)
  {
    hide IndexOf;
    hide ReadValue;
    hide Escaped;
    NoEqualsInKeys(e.key);
    hide ValidKey;
    var text := Escaped(e.value) + "\n" + rest;
    var s := LineFor(e) + rest;
    assert s == e.key + ['='] + text;
    IndexAfter(e.key, '=', text);
    assert s[..|e.key|] == e.key && s[|e.key| + 1..] == text;
    ValueRoundTrip(e.value, rest);
  }

  lemma {:induction false} RenderRoundTrip(s: seq<Entry>)
    requires forall e :: e in s ==> ValidKey(e.key)
    ensures ReadFile(Render(s)) == Some(s)
  {
    if s == [] {
    } else {
      assert s[0] in s;
      RenderRoundTrip(s[1..]);
      LineRoundTrip(s[0], Render(s[1..]));
      assert s == [s[0]] + s[1..];
      hide ReadFile;
    }
  }

  lemma {:induction false} FaultIff(s: seq<Entry>)
    ensures FirstFault(s).None? <==> forall e :: e in s ==> ValidKey(e.key) && ValueOk(e.value)
  {
    if s == [] {
    } else {
      FaultIff(s[1..]);
      assert s == [s[0]] + s[1..];
    }
  }

  lemma DistinctFromMultiset(s: seq<Entry>, t: seq<Entry>)
    requires multiset(s) == multiset(t) && KeysDistinct(s)
    ensures KeysDistinct(t)
  {
    forall i, j | 0 <= i < j < |t| ensures t[i].key != t[j].key {
      if t[i].key == t[j].key {
        assert t[i] in multiset(s) && t[j] in multiset(s);
        var a :| 0 <= a < |s| && s[a] == t[i];
        var b :| 0 <= b < |s| && s[b] == t[j];
        assert a == b;
        assert t == t[..i] + [t[i]] + t[i + 1..j] + [t[j]] + t[j + 1..];
        assert multiset(t)[t[i]] >= 2;
        AtMostOnce(s, a);
      }
    }
  }

  lemma AtMostOnce(s: seq<Entry>, a: nat)
    requires a < |s| && KeysDistinct(s)
    ensures multiset(s)[s[a]] == 1
  {
    assert s == s[..a] + [s[a]] + s[a + 1..];
    assert s[a] !in s[..a] && s[a] !in s[a + 1..];
  }

  /** The output exists exactly for distinct valid keys with representable values, and then a reader of the
      documented rules gets back exactly the entries, sorted by key. */
  lemma SerializeRoundTrips(entries: seq<Entry>)
    ensures Serialized(entries).Ok? <==>
              KeysDistinct(entries) && forall e :: e in entries ==> ValidKey(e.key) && ValueOk(e.value)
    ensures Serialized(entries).Ok? ==>
              && ReadFile(Serialized(entries).value) == Some(Sorted(entries))
              && multiset(Sorted(entries)) == multiset(entries) && Ordered(Sorted(entries))
  {
    var sorted := Sorted(entries);
    SortedIsOrdered(entries);
    NeighboursSuffice(sorted);
    if KeysDistinct(sorted) { DistinctFromMultiset(sorted, entries); }
    if KeysDistinct(entries) { DistinctFromMultiset(entries, sorted); }
    FaultIff(sorted);
    assert forall e :: e in sorted <==> e in entries by {
      forall e ensures e in sorted <==> e in entries { assert e in multiset(sorted) <==> e in multiset(entries); }
    }
    if Serialized(entries).Ok? { RenderRoundTrip(sorted); }
  }

  /** The result, errors included, does not depend on the order of the input. */
  lemma OrderDoesNotMatter(entries: seq<Entry>, shuffled: seq<Entry>)
    requires multiset(entries) == multiset(shuffled)
    ensures Serialized(entries).Ok? <==> Serialized(shuffled).Ok?
    ensures Serialized(entries) == Serialized(shuffled)
  {
    var s, t := Sorted(entries), Sorted(shuffled);
    SortedIsOrdered(entries);
    SortedIsOrdered(shuffled);
    NeighboursSuffice(s);
    NeighboursSuffice(t);
    if KeysDistinct(s) {
      OrderIsUnique(s, t);
    } else if KeysDistinct(t) {
      DistinctFromMultiset(t, s);
    }
  }
}
