/**
  Merging Chromium command-line flags (server/lib/chromiumflags/chromiumflags.go). Strings are
  sequences of characters.
*/
module ChromiumFlags {
  import opened Collections

  // ---- Comma-separated lists ----

  predicate IsSpace(c: char) {
    || '\t' <= c <= '\r' || c == ' ' || c == '\U{0085}' || c == '\U{00A0}' || c == '\U{1680}'
    || '\U{2000}' <= c <= '\U{200A}' || c == '\U{2028}' || c == '\U{2029}' || c == '\U{202F}' || c == '\U{205F}'
    || c == '\U{3000}'
  }

  function TrimLeft(s: string): string {
    if s != "" && IsSpace(s[0]) then TrimLeft(s[1..]) else s
  }

  function TrimRight(s: string): string {
    if s != "" && IsSpace(s[|s| - 1]) then TrimRight(s[..|s| - 1]) else s
  }

  function TrimSpace(s: string): string {
    TrimRight(TrimLeft(s))
  }

  function Split(s: string): (parts: seq<string>)
    ensures parts != []
  {
    if s == "" then [""]
    else
      var rest := Split(s[1..]);
      if s[0] == ',' then [""] + rest else [[s[0]] + rest[0]] + rest[1..]
  }

  function Join(parts: seq<string>): string {
    if parts == [] then "" else if |parts| == 1 then parts[0] else parts[0] + "," + Join(parts[1..])
  }

  function TrimmedParts(parts: seq<string>): seq<string> {
    if parts == [] then []
    else if TrimSpace(parts[0]) != "" then [TrimSpace(parts[0])] + TrimmedParts(parts[1..])
    else TrimmedParts(parts[1..])
  }

  /** The values appended for one comma-separated text. */
  function Values(csv: string): seq<string> {
    TrimmedParts(Split(csv))
  }

  method AppendCSV(dst: seq<string>, csv: string) returns (out: seq<string>)
    ensures out == dst + Values(csv)
  {
    var parts, i := Split(csv), 0;
    out := dst;
    while i < |parts|
      invariant i <= |parts| && out + TrimmedParts(parts[i..]) == dst + TrimmedParts(parts)
    {
      assert parts[i..][0] == parts[i] && parts[i..][1..] == parts[i + 1..];
      var p := TrimSpace(parts[i]);
      if p != "" { out := out + [p]; }
      i := i + 1;
    }
    assert parts[i..] == [];
  }

  /** What a list may hold: no comma, no space at either end, not empty. */
  predicate IsValue(s: string) {
    s != "" && ',' !in s && !IsSpace(s[0]) && !IsSpace(s[|s| - 1])
  }

  predicate AreValues(list: seq<string>) {
    forall i :: 0 <= i < |list| ==> IsValue(list[i])
  }

  lemma {:induction false} TrimLeftKeeps(s: string)
    ensures ',' !in s ==> ',' !in TrimLeft(s)
    ensures TrimLeft(s) != "" ==> !IsSpace(TrimLeft(s)[0])
  {
    if s != "" && IsSpace(s[0]) { TrimLeftKeeps(s[1..]); }
  }

  lemma {:induction false} TrimRightKeeps(s: string)
    ensures TrimRight(s) <= s
    ensures ',' !in s ==> ',' !in TrimRight(s)
    ensures TrimRight(s) != "" ==> !IsSpace(TrimRight(s)[|TrimRight(s)| - 1])
  {
    if s != "" && IsSpace(s[|s| - 1]) { TrimRightKeeps(s[..|s| - 1]); }
  }

  lemma TrimmedIsValue(s: string)
    requires ',' !in s
    ensures TrimSpace(s) == "" || IsValue(TrimSpace(s))
  {
    TrimLeftKeeps(s);
    TrimRightKeeps(TrimLeft(s));
  }

  lemma {:induction false} SplitHasNoComma(s: string)
    ensures forall i :: 0 <= i < |Split(s)| ==> ',' !in Split(s)[i]
  {
    if s != "" { SplitHasNoComma(s[1..]); }
  }

  lemma {:induction false} TrimmedAreValues(parts: seq<string>)
    requires forall i :: 0 <= i < |parts| ==> ',' !in parts[i]
    ensures AreValues(TrimmedParts(parts))
  {
    if parts != [] {
      TrimmedIsValue(parts[0]);
      TrimmedAreValues(parts[1..]);
    }
  }

  lemma ValuesAreValues(csv: string)
    ensures AreValues(Values(csv))
  {
    SplitHasNoComma(csv);
    TrimmedAreValues(Split(csv));
  }

  lemma {:induction false} SplitPast(a: string, s: string)
    requires ',' !in a
    ensures Split(a) == [a]
    ensures Split(a + "," + s) == [a] + Split(s)
  {
    if a == "" {
      assert a + "," + s == "," + s && ("," + s)[1..] == s;
    } else {
      SplitPast(a[1..], s);
      assert (a + "," + s)[0] == a[0] && (a + "," + s)[1..] == a[1..] + "," + s;
      assert [a[0]] + a[1..] == a;
    }
  }

  lemma {:induction false} SplitJoins(parts: seq<string>)
    requires parts != [] && forall i :: 0 <= i < |parts| ==> ',' !in parts[i]
    ensures Split(Join(parts)) == parts
  {
    if |parts| == 1 {
      SplitPast(parts[0], "");
    } else {
      SplitJoins(parts[1..]);
      SplitPast(parts[0], Join(parts[1..]));
    }
  }

  lemma {:induction false} TrimmedSame(parts: seq<string>)
    requires AreValues(parts)
    ensures TrimmedParts(parts) == parts
  {
    if parts != [] {
      assert IsValue(parts[0]);
      TrimmedSame(parts[1..]);
    }
  }

  /** Joining values and splitting them again gives them back. */
  lemma JoinSplits(list: seq<string>)
    requires AreValues(list)
    ensures Values(Join(list)) == list
  {
    if list != [] {
      forall i | 0 <= i < |list| ensures ',' !in list[i] { assert IsValue(list[i]); }
      SplitJoins(list);
      TrimmedSame(list);
    }
  }

  // ---- Lists without repetitions ----

  /** The first occurrence of every non-empty text not seen before. */
  function DedupeFrom(list: seq<string>, seen: set<string>): seq<string> {
    if list == [] then []
    else if list[0] == "" || list[0] in seen then DedupeFrom(list[1..], seen)
    else [list[0]] + DedupeFrom(list[1..], seen + {list[0]})
  }

  function Dedupe(list: seq<string>): seq<string> {
    DedupeFrom(list, {})
  }

  function Elements(list: seq<string>): set<string> {
    set i | 0 <= i < |list| :: list[i]
  }

  method Deduped(list: seq<string>) returns (out: seq<string>)
    ensures out == Dedupe(list)
  {
    var seen, i := {}, 0;
    out := [];
    while i < |list|
      invariant i <= |list| && out + DedupeFrom(list[i..], seen) == Dedupe(list)
    {
      assert list[i..][0] == list[i] && list[i..][1..] == list[i + 1..];
      if list[i] != "" && list[i] !in seen {
        seen := seen + {list[i]};
        out := out + [list[i]];
      }
      i := i + 1;
    }
    assert list[i..] == [];
  }

  /** All different, none empty. */
  predicate IsSet(list: seq<string>) {
    "" !in list && forall i, j :: 0 <= i < j < |list| ==> list[i] != list[j]
  }

  lemma {:induction false} DedupeFromIs(list: seq<string>, seen: set<string>)
    ensures IsSet(DedupeFrom(list, seen))
    ensures forall x :: x in DedupeFrom(list, seen) <==> x in list && x != "" && x !in seen
  {
    if list != [] {
      if list[0] == "" || list[0] in seen {
        DedupeFromIs(list[1..], seen);
      } else {
        DedupeFromIs(list[1..], seen + {list[0]});
      }
      assert list == [list[0]] + list[1..];
    }
  }

  /** What comes again later is left out; everything else keeps its place. */
  lemma {:induction false} DedupeLast(list: seq<string>, x: string, seen: set<string>)
    ensures DedupeFrom(list + [x], seen) ==
      DedupeFrom(list, seen) + (if x == "" || x in list || x in seen then [] else [x])
    decreases |list|
  {
    if list == [] {
      assert list + [x] == [x] && [x][1..] == [];
    } else {
      assert (list + [x])[0] == list[0] && (list + [x])[1..] == list[1..] + [x];
      assert x in list <==> x == list[0] || x in list[1..];
      DedupeLast(list[1..], x, if list[0] == "" || list[0] in seen then seen else seen + {list[0]});
    }
  }

  lemma TailIsSet(list: seq<string>)
    requires IsSet(list) && list != []
    ensures IsSet(list[1..]) && list[0] != "" && list[0] !in list[1..]
  {
    forall i, j | 0 <= i < j < |list[1..]| ensures list[1..][i] != list[1..][j] {
      assert list[1..][i] == list[i + 1] && list[1..][j] == list[j + 1];
    }
    assert list[0] in list;
    forall i | 0 <= i < |list[1..]| ensures list[1..][i] != list[0] { assert list[1..][i] == list[i + 1]; }
    assert "" in list[1..] ==> "" in list;
  }

  lemma {:induction false} DedupeNew(list: seq<string>, seen: set<string>)
    requires IsSet(list) && forall x :: x in list ==> x !in seen
    ensures DedupeFrom(list, seen) == list
  {
    if list != [] {
      TailIsSet(list);
      assert list[0] in list;
      hide IsSet;
      DedupeNew(list[1..], seen + {list[0]});
    }
  }

  lemma {:induction false} DedupeJoins(a: seq<string>, b: seq<string>, seen: set<string>)
    requires IsSet(b) && forall x :: x in b ==> x !in a && x !in seen
    ensures DedupeFrom(a + b, seen) == DedupeFrom(a, seen) + b
    decreases |a|
  {
    hide IsSet;
    if a == [] {
      assert a + b == b;
      DedupeNew(b, seen);
    } else {
      assert (a + b)[0] == a[0] && (a + b)[1..] == a[1..] + b;
      forall x | x in b ensures x !in a[1..] && x !in seen + {a[0]} { assert a[0] in a; }
      DedupeJoins(a[1..], b, if a[0] == "" || a[0] in seen then seen else seen + {a[0]});
    }
  }

  lemma DedupeSame(list: seq<string>)
    requires IsSet(list)
    ensures Dedupe(list) == list
  {
    DedupeJoins([], list, {});
    assert [] + list == list;
  }

  // ---- Feature entries ----

  function CutAtFirst(entry: string, separators: string): string {
    if entry == "" || entry[0] in separators then "" else [entry[0]] + CutAtFirst(entry[1..], separators)
  }

  function StripLeadingStar(name: string): string {
    if name != "" && name[0] == '*' then name[1..] else name
  }

  function EnableName(entry: string): string {
    StripLeadingStar(CutAtFirst(entry, ":.<"))
  }

  function DisableName(entry: string): string {
    StripLeadingStar(CutAtFirst(entry, "<"))
  }

  type Canon = string -> string

  /** An entry replaces the one of its name, or comes last. */
  function Put(out: seq<string>, v: string, canon: Canon): seq<string> {
    if out == [] then [v]
    else if canon(out[0]) == canon(v) then [v] + out[1..]
    else [out[0]] + Put(out[1..], v, canon)
  }

  function PutAll(out: seq<string>, vals: seq<string>, canon: Canon): seq<string>
    decreases vals
  {
    if vals == [] then out else PutAll(Put(out, vals[0], canon), vals[1..], canon)
  }

  function Merge(base: seq<string>, runtime: seq<string>, canon: Canon): seq<string> {
    PutAll([], base + runtime, canon)
  }

  /** What a reader that keeps the first entry of a name sees, and one that keeps the last. */
  function FirstWins(list: seq<string>, name: string, canon: Canon): Option<string> {
    if list == [] then None else if canon(list[0]) == name then Some(list[0]) else FirstWins(list[1..], name, canon)
  }

  function LastWins(list: seq<string>, name: string, canon: Canon): Option<string> {
    if list == [] then None
    else
      var last := list[|list| - 1];
      if canon(last) == name then Some(last) else LastWins(list[..|list| - 1], name, canon)
  }

  function NamesOf(list: seq<string>, canon: Canon): seq<string> {
    if list == [] then [] else [canon(list[0])] + NamesOf(list[1..], canon)
  }

  /** Names in the order in which they are first seen. */
  function FirstSeen(known: seq<string>, names: seq<string>): seq<string>
    decreases names
  {
    if names == [] then known
    else FirstSeen(if names[0] in known then known else known + [names[0]], names[1..])
  }

  predicate Different(names: seq<string>) {
    forall i, j :: 0 <= i < j < |names| ==> names[i] != names[j]
  }

  lemma {:induction false} PutReads(out: seq<string>, v: string, name: string, canon: Canon)
    ensures FirstWins(Put(out, v, canon), name, canon) ==
      if canon(v) == name then Some(v) else FirstWins(out, name, canon)
  {
    if out != [] { PutReads(out[1..], v, name, canon); }
  }

  lemma {:induction false} PutNames(out: seq<string>, v: string, canon: Canon)
    ensures NamesOf(Put(out, v, canon), canon) ==
      if canon(v) in NamesOf(out, canon) then NamesOf(out, canon) else NamesOf(out, canon) + [canon(v)]
  {
    if out != [] {
      PutNames(out[1..], v, canon);
      if canon(out[0]) == canon(v) {
        assert NamesOf(out, canon)[0] == canon(v);
      } else {
        assert NamesOf(out, canon) == [canon(out[0])] + NamesOf(out[1..], canon);
      }
    }
  }

  lemma {:induction false} LastWinsFront(v: string, vals: seq<string>, name: string, canon: Canon)
    ensures LastWins([v] + vals, name, canon) ==
      if LastWins(vals, name, canon).Some? then LastWins(vals, name, canon)
      else if canon(v) == name then Some(v) else None
    decreases |vals|
  {
    var list := [v] + vals;
    if vals == [] {
      assert list[..0] == [];
    } else {
      assert list[|list| - 1] == vals[|vals| - 1] && list[..|list| - 1] == [v] + vals[..|vals| - 1];
      LastWinsFront(v, vals[..|vals| - 1], name, canon);
    }
  }

  lemma {:induction false} PutAllReads(out: seq<string>, vals: seq<string>, name: string, canon: Canon)
    ensures FirstWins(PutAll(out, vals, canon), name, canon) ==
      if LastWins(vals, name, canon).Some? then LastWins(vals, name, canon) else FirstWins(out, name, canon)
    decreases vals
  {
    if vals != [] {
      PutReads(out, vals[0], name, canon);
      PutAllReads(Put(out, vals[0], canon), vals[1..], name, canon);
      LastWinsFront(vals[0], vals[1..], name, canon);
      assert [vals[0]] + vals[1..] == vals;
    }
  }

  lemma {:induction false} PutAllNames(out: seq<string>, vals: seq<string>, canon: Canon)
    ensures NamesOf(PutAll(out, vals, canon), canon) == FirstSeen(NamesOf(out, canon), NamesOf(vals, canon))
    decreases vals
  {
    if vals != [] {
      PutNames(out, vals[0], canon);
      PutAllNames(Put(out, vals[0], canon), vals[1..], canon);
    }
  }

  lemma {:induction false} FirstSeenDiffer(known: seq<string>, names: seq<string>)
    requires Different(known)
    ensures Different(FirstSeen(known, names))
    decreases names
  {
    if names != [] { FirstSeenDiffer(if names[0] in known then known else known + [names[0]], names[1..]); }
  }

  /** One entry a name, in first-seen order; and a first-wins reader of the merged list agrees
      with a last-wins reader of base followed by runtime. */
  lemma MergedReadsLast(base: seq<string>, runtime: seq<string>, canon: Canon)
    ensures forall name :: FirstWins(Merge(base, runtime, canon), name, canon) == LastWins(base + runtime, name, canon)
    ensures NamesOf(Merge(base, runtime, canon), canon) == FirstSeen([], NamesOf(base + runtime, canon))
    ensures Different(NamesOf(Merge(base, runtime, canon), canon))
  {
    forall name ensures FirstWins(Merge(base, runtime, canon), name, canon) == LastWins(base + runtime, name, canon) {
      PutAllReads([], base + runtime, name, canon);
    }
    PutAllNames([], base + runtime, canon);
    FirstSeenDiffer([], NamesOf(base + runtime, canon));
  }

  lemma {:induction false} NamesAt(list: seq<string>, canon: Canon, i: nat)
    requires i < |list|
    ensures |NamesOf(list, canon)| == |list| && NamesOf(list, canon)[i] == canon(list[i])
  {
    if i > 0 { NamesAt(list[1..], canon, i - 1); } else if |list| > 1 { NamesAt(list[1..], canon, 0); }
  }

  lemma {:induction false} PutNew(out: seq<string>, v: string, canon: Canon)
    requires forall i :: 0 <= i < |out| ==> canon(out[i]) != canon(v)
    ensures Put(out, v, canon) == out + [v]
  {
    if out != [] { PutNew(out[1..], v, canon); }
  }

  lemma {:induction false} PutAt(out: seq<string>, v: string, pos: nat, canon: Canon)
    requires pos < |out| && canon(out[pos]) == canon(v) && forall i :: 0 <= i < pos ==> canon(out[i]) != canon(v)
    ensures Put(out, v, canon) == out[pos := v]
  {
    if pos > 0 { PutAt(out[1..], v, pos - 1, canon); }
  }

  lemma {:induction false} PutAllSame(out: seq<string>, vals: seq<string>, canon: Canon)
    requires forall i, j :: 0 <= i < j < |out + vals| ==> canon((out + vals)[i]) != canon((out + vals)[j])
    ensures PutAll(out, vals, canon) == out + vals
    decreases vals
  {
    if vals != [] {
      forall i | 0 <= i < |out| ensures canon(out[i]) != canon(vals[0]) {
        assert (out + vals)[i] == out[i] && (out + vals)[|out|] == vals[0];
      }
      PutNew(out, vals[0], canon);
      assert out + [vals[0]] + vals[1..] == out + vals;
      PutAllSame(out + [vals[0]], vals[1..], canon);
    } else {
      assert out + vals == out;
    }
  }

  /** Merging a merged list with nothing leaves it alone. */
  lemma MergeSettles(base: seq<string>, runtime: seq<string>, canon: Canon)
    ensures Merge(Merge(base, runtime, canon), [], canon) == Merge(base, runtime, canon)
  {
    var m := Merge(base, runtime, canon);
    MergedReadsLast(base, runtime, canon);
    assert [] + (m + []) == m && m + [] == m;
    forall i, j | 0 <= i < j < |m| ensures canon(m[i]) != canon(m[j]) {
      NamesAt(m, canon, i);
      NamesAt(m, canon, j);
      assert NamesOf(m, canon)[i] != NamesOf(m, canon)[j];
    }
    PutAllSame([], m + [], canon);
  }

  lemma {:induction false} PutAllJoins(out: seq<string>, a: seq<string>, b: seq<string>, canon: Canon)
    ensures PutAll(out, a + b, canon) == PutAll(PutAll(out, a, canon), b, canon)
    decreases a
  {
    if a == [] {
      assert a + b == b;
    } else {
      assert (a + b)[0] == a[0] && (a + b)[1..] == a[1..] + b;
      PutAllJoins(Put(out, a[0], canon), a[1..], b, canon);
    }
  }

  /** index finds the only entry of each name. */
  ghost predicate Indexes(index: map<string, nat>, out: seq<string>, canon: Canon) {
    && (forall name :: name in index ==> index[name] < |out| && canon(out[index[name]]) == name)
    && (forall pos :: 0 <= pos < |out| ==> canon(out[pos]) in index && index[canon(out[pos])] == pos)
  }

  method AddEntries(before: seq<string>, known: map<string, nat>, vals: seq<string>, canon: Canon)
    returns (out: seq<string>, index: map<string, nat>)
    requires Indexes(known, before, canon)
    ensures out == PutAll(before, vals, canon) && Indexes(index, out, canon)
  {
    out, index := before, known;
    var i := 0;
    while i < |vals|
      invariant i <= |vals| && Indexes(index, out, canon)
      invariant PutAll(out, vals[i..], canon) == PutAll(before, vals, canon)
    {
      assert vals[i..][0] == vals[i] && vals[i..][1..] == vals[i + 1..];
      var v, name := vals[i], canon(vals[i]);
      if name in index {
        PutAt(out, v, index[name], canon);
        out := out[index[name] := v];
      } else {
        PutNew(out, v, canon);
        index := index[name := |out|];
        out := out + [v];
      }
      i := i + 1;
    }
    assert vals[i..] == [];
  }

  method MergeFeatureEntries(base: seq<string>, runtime: seq<string>, canon: Canon) returns (out: seq<string>)
    ensures out == Merge(base, runtime, canon)
  {
    var index: map<string, nat>;
    out, index := AddEntries([], map[], base, canon);
    out, index := AddEntries(out, index, runtime, canon);
    PutAllJoins([], base, runtime, canon);
  }

  // ---- Token streams ----

  const LOAD := "--load-extension="
  const EXCEPT := "--disable-extensions-except="
  const ENABLE := "--enable-features="
  const DISABLE := "--disable-features="
  const DISABLE_ALL := "--disable-extensions"
  const KERNEL := "--kernel-disable-features="

  /** The buckets one stream of tokens fills. */
  datatype Parsed = Parsed(
    rest: seq<string>,
    load: seq<string>,
    except: seq<string>,
    enable: seq<string>,
    disable: seq<string>,
    disableAll: bool)

  const NOTHING := Parsed([], [], [], [], [], false)

  function ParseToken(tok: string): Parsed {
    if LOAD <= tok then NOTHING.(load := Values(tok[|LOAD|..]))
    else if EXCEPT <= tok then NOTHING.(except := Values(tok[|EXCEPT|..]))
    else if ENABLE <= tok then NOTHING.(enable := Values(tok[|ENABLE|..]))
    else if DISABLE <= tok then NOTHING.(disable := Values(tok[|DISABLE|..]))
    else if tok == DISABLE_ALL then NOTHING.(disableAll := true)
    else NOTHING.(rest := [tok])
  }

  function Both(a: Parsed, b: Parsed): Parsed {
    Parsed(a.rest + b.rest, a.load + b.load, a.except + b.except, a.enable + b.enable, a.disable + b.disable,
           a.disableAll || b.disableAll)
  }

  function Parse(tokens: seq<string>): Parsed {
    if tokens == [] then NOTHING else Both(ParseToken(tokens[0]), Parse(tokens[1..]))
  }

  lemma BothAssociates(a: Parsed, b: Parsed, c: Parsed)
    ensures Both(a, Both(b, c)) == Both(Both(a, b), c)
    ensures Both(NOTHING, a) == a && Both(a, NOTHING) == a
  {}

  lemma {:induction false} ParseJoins(a: seq<string>, b: seq<string>)
    ensures Parse(a + b) == Both(Parse(a), Parse(b))
  {
    if a == [] {
      assert a + b == b;
      BothAssociates(Parse(b), NOTHING, NOTHING);
    } else {
      assert (a + b)[0] == a[0] && (a + b)[1..] == a[1..] + b;
      ParseJoins(a[1..], b);
      BothAssociates(ParseToken(a[0]), Parse(a[1..]), Parse(b));
    }
  }

  method TakeToken(p: Parsed, tok: string) returns (q: Parsed)
    ensures q == Both(p, ParseToken(tok))
  {
    hide Values;
    q := p;
    if LOAD <= tok {
      var load := AppendCSV(p.load, tok[|LOAD|..]);
      q := q.(load := load);
    } else if EXCEPT <= tok {
      var except := AppendCSV(p.except, tok[|EXCEPT|..]);
      q := q.(except := except);
    } else if ENABLE <= tok {
      var enable := AppendCSV(p.enable, tok[|ENABLE|..]);
      q := q.(enable := enable);
    } else if DISABLE <= tok {
      var disable := AppendCSV(p.disable, tok[|DISABLE|..]);
      q := q.(disable := disable);
    } else if tok == DISABLE_ALL {
      q := q.(disableAll := true);
    } else {
      q := q.(rest := p.rest + [tok]);
    }
    BothAssociates(p, NOTHING, NOTHING);
  }

  method ParseTokenStream(tokens: seq<string>) returns (parsed: Parsed)
    ensures parsed == Parse(tokens)
  {
    parsed := NOTHING;
    var i := 0;
    assert tokens[..0] == [];
    while i < |tokens|
      invariant i <= |tokens| && parsed == Parse(tokens[..i])
    {
      assert tokens[..i + 1] == tokens[..i] + [tokens[i]];
      ParseJoins(tokens[..i], [tokens[i]]);
      BothAssociates(ParseToken(tokens[i]), NOTHING, NOTHING);
      assert Parse([tokens[i]]) == ParseToken(tokens[i]);
      hide Parse, ParseToken, Both;
      parsed := TakeToken(parsed, tokens[i]);
      i := i + 1;
    }
    assert tokens[..i] == tokens;
  }

  function Union(a: seq<string>, b: seq<string>): seq<string> {
    Dedupe(a + b)
  }

  /** The one token of a feature list, if it is not empty. */
  function ListToken(flag: string, list: seq<string>): seq<string> {
    if list == [] then [] else [flag + Join(list)]
  }

  function ExtensionTokens(base: Parsed, runtime: Parsed): seq<string> {
    if runtime.disableAll || (base.disableAll && runtime.load == [] && runtime.except == []) then [DISABLE_ALL]
    else ListToken(LOAD, Union(Union(Union(base.load, runtime.load), base.except), runtime.except))
  }

  function MergedEnable(base: Parsed, runtime: Parsed): seq<string> {
    Merge(base.enable, runtime.enable, EnableName)
  }

  function MergedDisable(base: Parsed, runtime: Parsed): seq<string> {
    Merge(base.disable, runtime.disable, DisableName)
  }

  function MergeParsed(base: Parsed, runtime: Parsed): seq<string> {
    Dedupe(base.rest + runtime.rest + ListToken(ENABLE, MergedEnable(base, runtime))
           + ListToken(DISABLE, MergedDisable(base, runtime)) + ExtensionTokens(base, runtime))
  }

  function MergeFlags(base: seq<string>, runtime: seq<string>): seq<string> {
    MergeParsed(Parse(base), Parse(runtime))
  }

  method MergeFlagTokens(base: seq<string>, runtime: seq<string>) returns (out: seq<string>)
    ensures out == MergeFlags(base, runtime)
  {
    var b := ParseTokenStream(base);
    var r := ParseTokenStream(runtime);
    var load := Deduped(b.load + r.load);
    load := Deduped(load + b.except);
    load := Deduped(load + r.except);
    var enable := MergeFeatureEntries(b.enable, r.enable, EnableName);
    var disable := MergeFeatureEntries(b.disable, r.disable, DisableName);
    var features := [];
    if |enable| > 0 { features := features + [ENABLE + Join(enable)]; }
    if |disable| > 0 { features := features + [DISABLE + Join(disable)]; }
    var extensions := [];
    if r.disableAll {
      extensions := [DISABLE_ALL];
    } else if b.disableAll && |r.load| == 0 && |r.except| == 0 {
      extensions := [DISABLE_ALL];
    } else if |load| > 0 {
      extensions := [LOAD + Join(load)];
    }
    hide Dedupe, Merge, Parse, Join;
    assert features == ListToken(ENABLE, enable) + ListToken(DISABLE, disable);
    assert b.rest + r.rest + features + extensions
      == b.rest + r.rest + ListToken(ENABLE, enable) + ListToken(DISABLE, disable) + ExtensionTokens(b, r);
    out := Deduped(b.rest + r.rest + features + extensions);
  }

  // ---- What a merged command line says ----

  predicate IsPlain(tok: string) {
    ParseToken(tok) == NOTHING.(rest := [tok])
  }

  predicate ArePlain(tokens: seq<string>) {
    forall i :: 0 <= i < |tokens| ==> IsPlain(tokens[i])
  }

  predicate BucketsOk(p: Parsed) {
    ArePlain(p.rest) && AreValues(p.load) && AreValues(p.except) && AreValues(p.enable) && AreValues(p.disable)
  }

  lemma TokenBuckets(tok: string)
    ensures BucketsOk(ParseToken(tok))
  {
    if LOAD <= tok { ValuesAreValues(tok[|LOAD|..]); }
    else if EXCEPT <= tok { ValuesAreValues(tok[|EXCEPT|..]); }
    else if ENABLE <= tok { ValuesAreValues(tok[|ENABLE|..]); }
    else if DISABLE <= tok { ValuesAreValues(tok[|DISABLE|..]); }
    else if tok != DISABLE_ALL { assert IsPlain(tok); }
  }

  lemma {:induction false} ParsedBuckets(tokens: seq<string>)
    ensures BucketsOk(Parse(tokens))
  {
    if tokens != [] {
      TokenBuckets(tokens[0]);
      ParsedBuckets(tokens[1..]);
    }
  }

  lemma {:induction false} ParsePlain(tokens: seq<string>)
    requires ArePlain(tokens)
    ensures Parse(tokens) == NOTHING.(rest := tokens)
  {
    if tokens != [] {
      assert IsPlain(tokens[0]);
      ParsePlain(tokens[1..]);
      assert [tokens[0]] + tokens[1..] == tokens;
    }
  }

  lemma FlagsDiffer(v: string)
    ensures !(LOAD <= ENABLE + v) && !(EXCEPT <= ENABLE + v) && ENABLE <= ENABLE + v
    ensures !(LOAD <= DISABLE + v) && !(EXCEPT <= DISABLE + v) && !(ENABLE <= DISABLE + v) && DISABLE <= DISABLE + v
    ensures LOAD <= LOAD + v && (ENABLE + v)[|ENABLE|..] == v && (DISABLE + v)[|DISABLE|..] == v
      && (LOAD + v)[|LOAD|..] == v
    ensures !(LOAD <= DISABLE_ALL) && !(EXCEPT <= DISABLE_ALL) && !(ENABLE <= DISABLE_ALL) && !(DISABLE <= DISABLE_ALL)
  {
    assert LOAD[2] == 'l' && ENABLE[2] == 'e' && EXCEPT[2] == 'd' && DISABLE[2] == 'd' && DISABLE_ALL[2] == 'd';
    assert EXCEPT[10] == 'e' && DISABLE[10] == 'f' && DISABLE_ALL[10] == 'e';
    assert (ENABLE + v)[2] == 'e' && (DISABLE + v)[2] == 'd' && (DISABLE + v)[10] == 'f' && (LOAD + v)[2] == 'l';
  }

  /** Each emitted token parses back to the list it was made from. */
  lemma ParseEmitted(list: seq<string>)
    requires AreValues(list)
    ensures Parse(ListToken(ENABLE, list)) == NOTHING.(enable := list)
    ensures Parse(ListToken(DISABLE, list)) == NOTHING.(disable := list)
    ensures Parse(ListToken(LOAD, list)) == NOTHING.(load := list)
    ensures Parse([DISABLE_ALL]) == NOTHING.(disableAll := true)
  {
    FlagsDiffer(Join(list));
    JoinSplits(list);
    hide Values, Join;
    assert [DISABLE_ALL][1..] == [];
    if list != [] {
      var v := Join(list);
      assert [ENABLE + v][1..] == [] && [DISABLE + v][1..] == [] && [LOAD + v][1..] == [];
    }
  }

  lemma {:induction false} PutKeepsValues(out: seq<string>, v: string, canon: Canon)
    requires AreValues(out) && IsValue(v)
    ensures AreValues(Put(out, v, canon))
  {
    if out != [] {
      assert IsValue(out[0]);
      PutKeepsValues(out[1..], v, canon);
    }
  }

  lemma {:induction false} PutAllKeepsValues(out: seq<string>, vals: seq<string>, canon: Canon)
    requires AreValues(out) && AreValues(vals)
    ensures AreValues(PutAll(out, vals, canon))
    decreases vals
  {
    if vals != [] {
      PutKeepsValues(out, vals[0], canon);
      PutAllKeepsValues(Put(out, vals[0], canon), vals[1..], canon);
    }
  }

  lemma UnionKeepsValues(a: seq<string>, b: seq<string>)
    requires AreValues(a) && AreValues(b)
    ensures AreValues(Union(a, b)) && IsSet(Union(a, b))
  {
    DedupeFromIs(a + b, {});
    forall i | 0 <= i < |Union(a, b)| ensures IsValue(Union(a, b)[i]) {
      var x := Union(a, b)[i];
      assert x in a + b;
      var j :| 0 <= j < |a + b| && (a + b)[j] == x;
      if j < |a| { assert IsValue(a[j]); } else { assert IsValue(b[j - |a|]); }
    }
  }

  function MergedLoad(base: Parsed, runtime: Parsed): seq<string> {
    Union(Union(Union(base.load, runtime.load), base.except), runtime.except)
  }

  lemma MergedListsOk(base: Parsed, runtime: Parsed)
    requires BucketsOk(base) && BucketsOk(runtime)
    ensures AreValues(MergedEnable(base, runtime)) && AreValues(MergedDisable(base, runtime))
    ensures AreValues(MergedLoad(base, runtime)) && IsSet(MergedLoad(base, runtime))
  {
    PutAllKeepsValues([], base.enable + runtime.enable, EnableName);
    PutAllKeepsValues([], base.disable + runtime.disable, DisableName);
    hide Union;
    UnionKeepsValues(base.load, runtime.load);
    UnionKeepsValues(Union(base.load, runtime.load), base.except);
    UnionKeepsValues(Union(Union(base.load, runtime.load), base.except), runtime.except);
  }

  /** No emitted token reads as a plain one. */
  lemma EmittedIsNotPlain(v: string)
    ensures !IsPlain(ENABLE + v) && !IsPlain(DISABLE + v) && !IsPlain(LOAD + v) && !IsPlain(DISABLE_ALL)
    ensures (ENABLE + v)[2] == 'e' && (DISABLE + v)[2] == 'd' && (LOAD + v)[2] == 'l'
    ensures (DISABLE + v)[10] == 'f' && DISABLE_ALL[10] == 'e' && DISABLE_ALL[2] == 'd'
  {
    FlagsDiffer(v);
    hide Values;
  }

  lemma AtMostOne(list: seq<string>, flag: string)
    ensures ListToken(flag, list) == [] || ListToken(flag, list) == [flag + Join(list)]
  {}

  /** The tokens built from lists are all different, and none could be a plain one. */
  lemma EmittedDiffer(enable: seq<string>, disable: seq<string>, extensions: seq<string>, load: seq<string>)
    requires extensions == [DISABLE_ALL] || extensions == ListToken(LOAD, load)
    ensures var emitted := ListToken(ENABLE, enable) + ListToken(DISABLE, disable) + extensions;
      IsSet(emitted) && forall x :: x in emitted ==> !IsPlain(x)
  {
    EmittedIsNotPlain(Join(enable));
    EmittedIsNotPlain(Join(disable));
    EmittedIsNotPlain(Join(load));
    AtMostOne(enable, ENABLE);
    AtMostOne(disable, DISABLE);
    AtMostOne(load, LOAD);
    hide IsPlain, Join, ListToken;
    var x := if extensions == [] then "x" else extensions[0];
    assert extensions == [] || extensions == [x];
    ThreeDiffer(ENABLE + Join(enable), DISABLE + Join(disable), x, ListToken(ENABLE, enable),
      ListToken(DISABLE, disable), extensions);
  }

  lemma ThreeDiffer(e: string, d: string, x: string, es: seq<string>, ds: seq<string>, xs: seq<string>)
    requires e != "" && d != "" && x != "" && e != d
    requires xs == [] || (e != x && d != x)
    requires (es == [] || es == [e]) && (ds == [] || ds == [d]) && (xs == [] || xs == [x])
    ensures IsSet(es + ds + xs)
    ensures forall t :: t in es + ds + xs ==> (t == e && es == [e]) || (t == d && ds == [d]) || (t == x && xs == [x])
  {}

  /** A merged command line is the plain tokens once each, then one token for every list. */
  lemma MergedIs(base: Parsed, runtime: Parsed)
    requires BucketsOk(base) && BucketsOk(runtime)
    ensures MergeParsed(base, runtime) ==
      Dedupe(base.rest + runtime.rest)
      + (ListToken(ENABLE, MergedEnable(base, runtime)) + ListToken(DISABLE, MergedDisable(base, runtime))
         + ExtensionTokens(base, runtime))
  {
    var plain := base.rest + runtime.rest;
    var e, d, x := ListToken(ENABLE, MergedEnable(base, runtime)), ListToken(DISABLE, MergedDisable(base, runtime)),
      ExtensionTokens(base, runtime);
    EmittedDiffer(MergedEnable(base, runtime), MergedDisable(base, runtime), x, MergedLoad(base, runtime));
    assert forall i :: 0 <= i < |plain| ==> IsPlain(plain[i]);
    hide IsPlain, ListToken, MergedEnable, MergedDisable, ExtensionTokens, DedupeFrom;
    DedupeJoins(plain, e + d + x, {});
    assert plain + e + d + x == plain + (e + d + x);
  }

  /** What a merged command line parses to. */
  function Settled(base: Parsed, runtime: Parsed): Parsed {
    var off := ExtensionTokens(base, runtime) == [DISABLE_ALL];
    Parsed(Dedupe(base.rest + runtime.rest), if off then [] else MergedLoad(base, runtime), [],
           MergedEnable(base, runtime), MergedDisable(base, runtime), off)
  }

  lemma MergedParses(base: Parsed, runtime: Parsed)
    requires BucketsOk(base) && BucketsOk(runtime)
    ensures Parse(MergeParsed(base, runtime)) == Settled(base, runtime)
  {
    var plain := Dedupe(base.rest + runtime.rest);
    var enable, disable, load := MergedEnable(base, runtime), MergedDisable(base, runtime), MergedLoad(base, runtime);
    var e, d, x := ListToken(ENABLE, enable), ListToken(DISABLE, disable), ExtensionTokens(base, runtime);
    MergedIs(base, runtime);
    MergedListsOk(base, runtime);
    PlainStays(base.rest + runtime.rest);
    ParsePlain(plain);
    ParseEmitted(enable);
    ParseEmitted(disable);
    ParseEmitted(load);
    OffIs(base, runtime);
    hide Parse, ListToken, MergedEnable, MergedDisable, ExtensionTokens, MergeParsed, Dedupe, MergedLoad, AreValues,
      ArePlain, BucketsOk, IsSet;
    ParseJoins(plain, e + d + x);
    ParseJoins(e + d, x);
    ParseJoins(e, d);
    BothParts(plain, enable, disable, Parse(x));
  }

  lemma BothParts(plain: seq<string>, enable: seq<string>, disable: seq<string>, x: Parsed)
    ensures Both(NOTHING.(rest := plain), Both(Both(NOTHING.(enable := enable), NOTHING.(disable := disable)), x))
      == Parsed(plain + x.rest, x.load, x.except, enable + x.enable, disable + x.disable, x.disableAll)
    ensures plain + [] == plain && enable + [] == enable && disable + [] == disable
  {}

  lemma OffIs(base: Parsed, runtime: Parsed)
    ensures ExtensionTokens(base, runtime) == [DISABLE_ALL]
      || ExtensionTokens(base, runtime) == ListToken(LOAD, MergedLoad(base, runtime))
    ensures ListToken(LOAD, MergedLoad(base, runtime)) != [DISABLE_ALL]
  {
    FlagsDiffer(Join(MergedLoad(base, runtime)));
    hide Union, Join;
  }

  lemma PlainStays(tokens: seq<string>)
    requires ArePlain(tokens)
    ensures ArePlain(Dedupe(tokens)) && IsSet(Dedupe(tokens))
  {
    DedupeFromIs(tokens, {});
    hide IsPlain;
    forall i | 0 <= i < |Dedupe(tokens)| ensures IsPlain(Dedupe(tokens)[i]) {
      var x := Dedupe(tokens)[i];
      assert x in tokens;
      var j :| 0 <= j < |tokens| && tokens[j] == x;
    }
  }

  /** Merging what has been merged with nothing changes nothing. */
  lemma MergingSettles(base: seq<string>, runtime: seq<string>)
    ensures MergeFlags(MergeFlags(base, runtime), []) == MergeFlags(base, runtime)
  {
    var b, r := Parse(base), Parse(runtime);
    var s := Settled(b, r);
    ParsedBuckets(base);
    ParsedBuckets(runtime);
    MergedParses(b, r);
    MergedIs(b, r);
    MergedListsOk(b, r);
    PlainStays(b.rest + r.rest);
    assert BucketsOk(s) && Parse([]) == NOTHING && BucketsOk(NOTHING);
    MergedIs(s, NOTHING);
    MergeSettles(b.enable, r.enable, EnableName);
    MergeSettles(b.disable, r.disable, DisableName);
    assert s.rest + [] == s.rest && s.load + [] == s.load;
    DedupeSame(s.rest);
    SettledExtensions(b, r);
  }

  lemma SettledExtensions(b: Parsed, r: Parsed)
    requires IsSet(MergedLoad(b, r))
    ensures ExtensionTokens(Settled(b, r), NOTHING) == ExtensionTokens(b, r)
  {
    var s := Settled(b, r);
    OffIs(b, r);
    if !s.disableAll {
      assert s.load + [] == s.load;
      DedupeSame(s.load);
    }
  }

  /** The features a merged command line enables are, for a first-wins reader, those of base
      followed by runtime for a last-wins reader. */
  lemma MergedEnables(base: seq<string>, runtime: seq<string>, name: string)
    ensures FirstWins(Parse(MergeFlags(base, runtime)).enable, name, EnableName)
      == LastWins(Parse(base).enable + Parse(runtime).enable, name, EnableName)
  {
    ParsedBuckets(base);
    ParsedBuckets(runtime);
    MergedParses(Parse(base), Parse(runtime));
    MergedReadsLast(Parse(base).enable, Parse(runtime).enable, EnableName);
  }

  /** And so are the features it disables. */
  lemma MergedDisables(base: seq<string>, runtime: seq<string>, name: string)
    ensures FirstWins(Parse(MergeFlags(base, runtime)).disable, name, DisableName)
      == LastWins(Parse(base).disable + Parse(runtime).disable, name, DisableName)
  {
    ParsedBuckets(base);
    ParsedBuckets(runtime);
    MergedParses(Parse(base), Parse(runtime));
    MergedReadsLast(Parse(base).disable, Parse(runtime).disable, DisableName);
  }

  // ---- The same in terms of the tokens themselves ----

  predicate IsBlank(s: string) {
    forall i :: 0 <= i < |s| ==> IsSpace(s[i])
  }

  lemma {:induction false} TrimLeftTakes(s: string) returns (before: string)
    ensures s == before + TrimLeft(s) && IsBlank(before)
  {
    if s != "" && IsSpace(s[0]) {
      before := TrimLeftTakes(s[1..]);
      before := [s[0]] + before;
    } else {
      before := "";
    }
  }

  lemma {:induction false} TrimRightTakes(s: string) returns (after: string)
    ensures s == TrimRight(s) + after && IsBlank(after)
  {
    if s != "" && IsSpace(s[|s| - 1]) {
      after := TrimRightTakes(s[..|s| - 1]);
      after := after + [s[|s| - 1]];
    } else {
      after := "";
    }
  }

  /** Trimming takes exactly the spaces at both ends. */
  lemma TrimSpaceTakes(s: string) returns (before: string, after: string)
    ensures s == before + TrimSpace(s) + after && IsBlank(before) && IsBlank(after)
    ensures TrimSpace(s) != "" ==> !IsSpace(TrimSpace(s)[0]) && !IsSpace(TrimSpace(s)[|TrimSpace(s)| - 1])
  {
    before := TrimLeftTakes(s);
    after := TrimRightTakes(TrimLeft(s));
    TrimLeftKeeps(s);
    TrimRightKeeps(TrimLeft(s));
  }

  /** Splitting at commas loses nothing. */
  lemma {:induction false} SplitKeeps(s: string)
    ensures Join(Split(s)) == s && forall i :: 0 <= i < |Split(s)| ==> ',' !in Split(s)[i]
  {
    SplitHasNoComma(s);
    if s != "" {
      SplitKeeps(s[1..]);
      var rest := Split(s[1..]);
      if s[0] == ',' {
        assert ([""] + rest)[1..] == rest;
      } else {
        var parts := [[s[0]] + rest[0]] + rest[1..];
        assert parts[1..] == rest[1..];
      }
    }
  }

  /** A list holds the trimmed parts of its texts that are not blank. */
  lemma {:induction false} TrimmedHas(parts: seq<string>, x: string)
    ensures x in TrimmedParts(parts) <==> x != "" && exists i :: 0 <= i < |parts| && TrimSpace(parts[i]) == x
  {
    if parts != [] {
      TrimmedHas(parts[1..], x);
      if i :| 0 <= i < |parts[1..]| && TrimSpace(parts[1..][i]) == x { assert TrimSpace(parts[i + 1]) == x; }
      if i :| 0 < i < |parts| && TrimSpace(parts[i]) == x { assert TrimSpace(parts[1..][i - 1]) == x; }
    }
  }

  /** A value of one of the switches with this prefix. */
  ghost predicate Given(tokens: seq<string>, flag: string, x: string) {
    exists i :: 0 <= i < |tokens| && flag <= tokens[i] && x in Values(tokens[i][|flag|..])
  }

  lemma GivenFirst(tokens: seq<string>, flag: string, x: string)
    requires tokens != []
    ensures Given(tokens, flag, x) <==>
      (flag <= tokens[0] && x in Values(tokens[0][|flag|..])) || Given(tokens[1..], flag, x)
  {
    hide Values;
    if Given(tokens[1..], flag, x) {
      var i :| 0 <= i < |tokens[1..]| && flag <= tokens[1..][i] && x in Values(tokens[1..][i][|flag|..]);
      assert tokens[i + 1] == tokens[1..][i];
    }
    if Given(tokens, flag, x) {
      var i :| 0 <= i < |tokens| && flag <= tokens[i] && x in Values(tokens[i][|flag|..]);
      if i > 0 { assert tokens[1..][i - 1] == tokens[i]; }
    }
  }

  predicate IsSwitch(tok: string) {
    LOAD <= tok || EXCEPT <= tok || ENABLE <= tok || DISABLE <= tok || tok == DISABLE_ALL
  }

  /** No token is two switches. */
  lemma OneSwitch(tok: string)
    ensures LOAD <= tok ==> !(EXCEPT <= tok) && !(ENABLE <= tok) && !(DISABLE <= tok) && tok != DISABLE_ALL
    ensures EXCEPT <= tok ==> !(ENABLE <= tok) && !(DISABLE <= tok) && tok != DISABLE_ALL
    ensures ENABLE <= tok ==> !(DISABLE <= tok) && tok != DISABLE_ALL
    ensures DISABLE <= tok ==> tok != DISABLE_ALL
  {
    assert LOAD[2] == 'l' && EXCEPT[2] == 'd' && ENABLE[2] == 'e' && DISABLE[2] == 'd' && DISABLE_ALL[2] == 'd';
    assert EXCEPT[10] == 'e' && DISABLE[10] == 'f' && |EXCEPT| > |DISABLE_ALL|;
  }

  /** What is in the buckets, given what each switch and the other tokens hold. */
  predicate Holds(p: Parsed, x: string, load: bool, except: bool, enable: bool, disable: bool, off: bool, rest: bool) {
    && (x in p.load) == load && (x in p.except) == except && (x in p.enable) == enable
    && (x in p.disable) == disable && p.disableAll == off && (x in p.rest) == rest
  }

  lemma TokenHas(tok: string, x: string)
    ensures Holds(ParseToken(tok), x,
      LOAD <= tok && x in Values(tok[|LOAD|..]), EXCEPT <= tok && x in Values(tok[|EXCEPT|..]),
      ENABLE <= tok && x in Values(tok[|ENABLE|..]), DISABLE <= tok && x in Values(tok[|DISABLE|..]),
      tok == DISABLE_ALL, x == tok && !IsSwitch(tok))
  {
    OneSwitch(tok);
    hide Values;
  }

  lemma BothHas(p: Parsed, q: Parsed, x: string)
    ensures Holds(Both(p, q), x, x in p.load || x in q.load, x in p.except || x in q.except,
      x in p.enable || x in q.enable, x in p.disable || x in q.disable, p.disableAll || q.disableAll,
      x in p.rest || x in q.rest)
  {}

  /** Each bucket holds exactly the values of its own switch, and the rest every other token. */
  lemma {:induction false} ParseHas(tokens: seq<string>, x: string)
    ensures Holds(Parse(tokens), x, Given(tokens, LOAD, x), Given(tokens, EXCEPT, x), Given(tokens, ENABLE, x),
      Given(tokens, DISABLE, x), DISABLE_ALL in tokens, x in tokens && !IsSwitch(x))
  {
    if tokens != [] {
      ParseHas(tokens[1..], x);
      GivenFirst(tokens, LOAD, x);
      GivenFirst(tokens, EXCEPT, x);
      GivenFirst(tokens, ENABLE, x);
      GivenFirst(tokens, DISABLE, x);
      TokenHas(tokens[0], x);
      BothHas(ParseToken(tokens[0]), Parse(tokens[1..]), x);
      hide Given, Values, ParseToken, Both, IsSwitch;
      assert tokens == [tokens[0]] + tokens[1..];
      assert x in tokens <==> x == tokens[0] || x in tokens[1..];
      assert DISABLE_ALL in tokens <==> DISABLE_ALL == tokens[0] || DISABLE_ALL in tokens[1..];
    }
  }

  lemma UnionHas(a: seq<string>, b: seq<string>, x: string)
    ensures x in Union(a, b) <==> x != "" && (x in a || x in b)
  {
    DedupeFromIs(a + b, {});
  }

  /** The merged command line switches extensions off exactly if the runtime flags do, or the
      base flags do and the runtime flags load none; otherwise it loads every extension that
      either names to load or to except; and it keeps every other plain token. */
  lemma MergedExtensions(base: seq<string>, runtime: seq<string>, x: string)
    ensures var p := Parse(MergeFlags(base, runtime));
      && p.disableAll ==
           (DISABLE_ALL in runtime || (DISABLE_ALL in base && Parse(runtime).load + Parse(runtime).except == []))
      && p.except == []
      && (x in p.load <==>
            !p.disableAll && x != ""
            && (Given(base, LOAD, x) || Given(runtime, LOAD, x) || Given(base, EXCEPT, x) || Given(runtime, EXCEPT, x)))
      && (x in p.rest <==> x != "" && !IsSwitch(x) && (x in base || x in runtime))
  {
    var b, r := Parse(base), Parse(runtime);
    ParsedBuckets(base);
    ParsedBuckets(runtime);
    MergedParses(b, r);
    ParseHas(base, x);
    ParseHas(runtime, x);
    DedupeFromIs(b.rest + r.rest, {});
    UnionHas(b.load, r.load, x);
    UnionHas(Union(b.load, r.load), b.except, x);
    UnionHas(Union(Union(b.load, r.load), b.except), r.except, x);
    FlagsDiffer(Join(MergedLoad(b, r)));
    hide Parse, Given, Union, Dedupe, MergeParsed, BucketsOk, MergedEnable, MergedDisable, Join, IsSwitch;
  }

  /** The name of a feature entry: what precedes the first separator, without a leading star. */
  lemma {:induction false} CutIs(entry: string, separators: string)
    ensures var cut := CutAtFirst(entry, separators);
      && cut <= entry && (forall i :: 0 <= i < |cut| ==> cut[i] !in separators)
      && (cut != entry ==> entry[|cut|] in separators)
  {
    if entry != "" && entry[0] !in separators { CutIs(entry[1..], separators); }
  }

  lemma FeatureNames(entry: string, before: string, after: string)
    requires entry == before + after
    ensures (forall i :: 0 <= i < |before| ==> before[i] !in ":.<") && (after == "" || after[0] in ":.<") ==>
      EnableName(entry) == if before != "" && before[0] == '*' then before[1..] else before
    ensures (forall i :: 0 <= i < |before| ==> before[i] != '<') && (after == "" || after[0] == '<') ==>
      DisableName(entry) == if before != "" && before[0] == '*' then before[1..] else before
  {
    CutUnique(entry, before, after, ":.<");
    CutUnique(entry, before, after, "<");
  }

  lemma CutUnique(entry: string, before: string, after: string, separators: string)
    requires entry == before + after
    ensures (forall i :: 0 <= i < |before| ==> before[i] !in separators) && (after == "" || after[0] in separators) ==>
      CutAtFirst(entry, separators) == before
  {
    CutIs(entry, separators);
    var cut := CutAtFirst(entry, separators);
    assert cut == entry[..|cut|] && before == entry[..|before|];
    assert |cut| < |before| ==> entry[|cut|] == before[|cut|];
    assert |cut| > |before| ==> cut[|before|] == entry[|before|] && after != "" && entry[|before|] == after[0];
  }

  lemma JoinHasText(list: seq<string>)
    requires AreValues(list) && list != []
    ensures Join(list) != ""
  {
    assert IsValue(list[0]);
  }

  lemma ListTokenHasText(flag: string, list: seq<string>)
    requires AreValues(list)
    ensures flag !in ListToken(flag, list)
  {
    if list != [] {
      JoinHasText(list);
      assert |flag + Join(list)| > |flag|;
    }
  }

  lemma EmittedHasText(list: seq<string>, tok: string)
    requires AreValues(list)
    ensures tok in ListToken(ENABLE, list) + ListToken(DISABLE, list) + ListToken(LOAD, list) + [DISABLE_ALL] ==>
      tok != LOAD && tok != EXCEPT && tok != ENABLE && tok != DISABLE
  {
    ListTokenHasText(ENABLE, list);
    ListTokenHasText(DISABLE, list);
    ListTokenHasText(LOAD, list);
    FlagsDiffer(Join(list));
    FlagsDiffer("");
    assert ENABLE + "" == ENABLE && DISABLE + "" == DISABLE && LOAD + "" == LOAD;
    OneSwitch(EXCEPT);
    OneSwitch(LOAD);
    hide Join;
  }

  lemma PlainHasText(tok: string)
    ensures IsPlain(tok) ==> tok != LOAD && tok != EXCEPT && tok != ENABLE && tok != DISABLE
  {
    if tok == LOAD || tok == EXCEPT || tok == ENABLE || tok == DISABLE { assert ParseToken(tok).rest == []; }
  }

  /** No list switch of a merged command line is left without a value. */
  lemma NoEmptySwitch(base: seq<string>, runtime: seq<string>, tok: string)
    requires tok in MergeFlags(base, runtime)
    ensures tok != LOAD && tok != EXCEPT && tok != ENABLE && tok != DISABLE
  {
    var b, r := Parse(base), Parse(runtime);
    ParsedBuckets(base);
    ParsedBuckets(runtime);
    MergedIs(b, r);
    MergedListsOk(b, r);
    DedupeFromIs(b.rest + r.rest, {});
    ListTokenHasText(ENABLE, MergedEnable(b, r));
    ListTokenHasText(DISABLE, MergedDisable(b, r));
    ListTokenHasText(LOAD, MergedLoad(b, r));
    PlainStays(b.rest + r.rest);
    EmittedHasText(MergedEnable(b, r), tok);
    EmittedHasText(MergedDisable(b, r), tok);
    EmittedHasText(MergedLoad(b, r), tok);
    PlainHasText(tok);
    hide ListToken, IsPlain, Parse, MergedEnable, MergedDisable, MergedLoad, Join, Values, Dedupe, MergeParsed;
  }

  // ---- The kernel's own switch ----

  /** Values of the kernel switch, values of the browser's, and every other token. */
  datatype Kernel = Kernel(kernel: seq<string>, disable: seq<string>, rest: seq<string>)

  function ReadKernel(tokens: seq<string>): Kernel {
    if tokens == [] then Kernel([], [], [])
    else
      var k := ReadKernel(tokens[..|tokens| - 1]);
      var tok := tokens[|tokens| - 1];
      if KERNEL <= tok then k.(kernel := k.kernel + Values(tok[|KERNEL|..]))
      else if DISABLE <= tok then k.(disable := k.disable + Values(tok[|DISABLE|..]))
      else k.(rest := k.rest + [tok])
  }

  function Translate(tokens: seq<string>): seq<string> {
    var k := ReadKernel(tokens);
    if k.kernel == [] then tokens else k.rest + [DISABLE + Join(Merge(k.disable, k.kernel, DisableName))]
  }

  method TranslateKernelDisableFeatures(tokens: seq<string>) returns (out: seq<string>)
    ensures out == Translate(tokens)
  {
    var kernel, disable, rest := [], [], [];
    var i := 0;
    assert tokens[..0] == [];
    while i < |tokens|
      invariant i <= |tokens| && Kernel(kernel, disable, rest) == ReadKernel(tokens[..i])
    {
      var tok := tokens[i];
      assert tokens[..i + 1][..i] == tokens[..i];
      if KERNEL <= tok {
        kernel := AppendCSV(kernel, tok[|KERNEL|..]);
      } else if DISABLE <= tok {
        disable := AppendCSV(disable, tok[|DISABLE|..]);
      } else {
        rest := rest + [tok];
      }
      i := i + 1;
    }
    assert tokens[..i] == tokens;
    if |kernel| == 0 { return tokens; }
    var merged := MergeFeatureEntries(disable, kernel, DisableName);
    out := rest + [DISABLE + Join(merged)];
  }

  lemma {:induction false} RestIsOther(tokens: seq<string>)
    ensures forall i :: 0 <= i < |ReadKernel(tokens).rest| ==>
      !(KERNEL <= ReadKernel(tokens).rest[i]) && !(DISABLE <= ReadKernel(tokens).rest[i])
    ensures AreValues(ReadKernel(tokens).kernel) && AreValues(ReadKernel(tokens).disable)
  {
    if tokens != [] {
      var tok := tokens[|tokens| - 1];
      RestIsOther(tokens[..|tokens| - 1]);
      if KERNEL <= tok {
        ValuesAreValues(tok[|KERNEL|..]);
      } else if DISABLE <= tok {
        ValuesAreValues(tok[|DISABLE|..]);
      }
    }
  }

  /** What is read from a command line: the values of each of the two switches, and the rest. */
  lemma {:induction false} KernelHas(tokens: seq<string>, x: string)
    ensures var k := ReadKernel(tokens);
      && (x in k.kernel <==> Given(tokens, KERNEL, x))
      && (x in k.disable <==> exists i :: 0 <= i < |tokens| && IsDisabling(tokens[i], x))
      && (x in k.rest <==> x in tokens && !(KERNEL <= x) && !(DISABLE <= x))
  {
    if tokens != [] {
      var last := |tokens| - 1;
      var before := tokens[..last];
      KernelHas(before, x);
      GivenLast(tokens, x);
      assert tokens == before + [tokens[last]];
      hide Values, Given;
      if i :| 0 <= i < |before| && IsDisabling(before[i], x) { assert IsDisabling(tokens[i], x); }
      if i :| 0 <= i < |tokens| && IsDisabling(tokens[i], x) { assert i < last ==> IsDisabling(before[i], x); }
    }
  }

  predicate IsDisabling(tok: string, x: string) {
    !(KERNEL <= tok) && DISABLE <= tok && x in Values(tok[|DISABLE|..])
  }

  lemma GivenLast(tokens: seq<string>, x: string)
    requires tokens != []
    ensures var last := |tokens| - 1;
      Given(tokens, KERNEL, x) <==>
        Given(tokens[..last], KERNEL, x) || (KERNEL <= tokens[last] && x in Values(tokens[last][|KERNEL|..]))
  {
    var before := tokens[..|tokens| - 1];
    hide Values;
    if Given(before, KERNEL, x) {
      var i :| 0 <= i < |before| && KERNEL <= before[i] && x in Values(before[i][|KERNEL|..]);
      assert tokens[i] == before[i];
    }
    if Given(tokens, KERNEL, x) {
      var i :| 0 <= i < |tokens| && KERNEL <= tokens[i] && x in Values(tokens[i][|KERNEL|..]);
      if i < |before| { assert before[i] == tokens[i]; }
    }
  }

  /** Without a value for the kernel switch nothing changes. With one, the result has no kernel
      switch, and its last token is its only switch for disabled features. */
  lemma KernelIsTranslated(tokens: seq<string>)
    ensures (forall x :: !Given(tokens, KERNEL, x)) ==> Translate(tokens) == tokens
    ensures (exists x :: Given(tokens, KERNEL, x)) ==>
      var out := Translate(tokens);
      && (forall i :: 0 <= i < |out| ==> !(KERNEL <= out[i]))
      && out != [] && DISABLE <= out[|out| - 1] && forall i :: 0 <= i < |out| - 1 ==> !(DISABLE <= out[i])
  {
    var k := ReadKernel(tokens);
    forall x ensures x in k.kernel <==> Given(tokens, KERNEL, x) { KernelHas(tokens, x); }
    hide Given, ReadKernel;
    if k.kernel != [] {
      assert k.kernel[0] in k.kernel;
      RestIsOther(tokens);
      KernelDiffers(Join(Merge(k.disable, k.kernel, DisableName)));
      hide Merge, Join;
    }
  }

  lemma {:induction false} LastWinsHas(list: seq<string>, name: string, canon: Canon)
    ensures LastWins(list, name, canon).Some? <==> exists i :: 0 <= i < |list| && canon(list[i]) == name
  {
    if list != [] {
      var last := |list| - 1;
      LastWinsHas(list[..last], name, canon);
      if i :| 0 <= i < last && canon(list[i]) == name { assert list[..last][i] == list[i]; }
      if i :| 0 <= i < |list[..last]| && canon(list[..last][i]) == name { assert list[i] == list[..last][i]; }
    }
  }

  ghost predicate IsGiven(tokens: seq<string>, x: string) {
    Given(tokens, KERNEL, x) || exists i :: 0 <= i < |tokens| && IsDisabling(tokens[i], x)
  }

  /** A first-wins reader of the translated command line finds disabled exactly the features that
      some entry of either switch names. */
  lemma TranslatedNames(tokens: seq<string>, name: string)
    requires exists x :: Given(tokens, KERNEL, x)
    ensures FirstWins(ReadKernel(Translate(tokens)).disable, name, DisableName).Some? <==>
              exists x :: IsGiven(tokens, x) && DisableName(x) == name
  {
    var k := ReadKernel(tokens);
    var list := k.disable + k.kernel;
    forall x ensures x in list <==> IsGiven(tokens, x) { KernelHas(tokens, x); }
    var given :| Given(tokens, KERNEL, given);
    KernelHas(tokens, given);
    TranslationSettles(tokens);
    LastWinsHas(list, name, DisableName);
    hide IsGiven, Given, ReadKernel, FirstWins, LastWins, Translate;
    if i :| 0 <= i < |list| && DisableName(list[i]) == name { assert IsGiven(tokens, list[i]); }
    if x :| IsGiven(tokens, x) && DisableName(x) == name {
      var i :| 0 <= i < |list| && list[i] == x;
    }
  }

  lemma {:induction false} ReadOther(tokens: seq<string>)
    requires forall i :: 0 <= i < |tokens| ==> !(KERNEL <= tokens[i]) && !(DISABLE <= tokens[i])
    ensures ReadKernel(tokens) == Kernel([], [], tokens)
  {
    if tokens != [] {
      ReadOther(tokens[..|tokens| - 1]);
      assert tokens[..|tokens| - 1] + [tokens[|tokens| - 1]] == tokens;
    }
  }

  lemma ReadLast(tokens: seq<string>, csv: string)
    requires !(KERNEL <= DISABLE + csv) && DISABLE <= DISABLE + csv && (DISABLE + csv)[|DISABLE|..] == csv
    ensures ReadKernel(tokens + [DISABLE + csv])
      == ReadKernel(tokens).(disable := ReadKernel(tokens).disable + Values(csv))
  {
    var out := tokens + [DISABLE + csv];
    assert out[..|out| - 1] == tokens && out[|out| - 1] == DISABLE + csv;
    hide Values;
  }

  lemma KernelDiffers(v: string)
    ensures !(KERNEL <= DISABLE + v)
  {
    assert KERNEL[2] == 'k' && (DISABLE + v)[2] == 'd';
  }

  lemma ReadWithList(rest: seq<string>, list: seq<string>)
    requires forall i :: 0 <= i < |rest| ==> !(KERNEL <= rest[i]) && !(DISABLE <= rest[i])
    requires AreValues(list)
    ensures ReadKernel(rest + [DISABLE + Join(list)]) == Kernel([], list, rest)
  {
    ReadOther(rest);
    JoinSplits(list);
    hide Join, Values, AreValues, ReadKernel;
    FlagsDiffer(Join(list));
    KernelDiffers(Join(list));
    ReadLast(rest, Join(list));
    assert [] + list == list;
  }

  lemma TranslatedReads(tokens: seq<string>)
    requires ReadKernel(tokens).kernel != []
    ensures var k := ReadKernel(tokens);
      ReadKernel(Translate(tokens)) == Kernel([], Merge(k.disable, k.kernel, DisableName), k.rest)
  {
    var k := ReadKernel(tokens);
    RestIsOther(tokens);
    PutAllKeepsValues([], k.disable + k.kernel, DisableName);
    hide ReadKernel, Join;
    ReadWithList(k.rest, Merge(k.disable, k.kernel, DisableName));
  }

  /** Translating twice is translating once; the result names no kernel switch, keeps every
      other token, and disables for a first-wins reader what its input asks of a last-wins one. */
  lemma TranslationSettles(tokens: seq<string>)
    ensures Translate(Translate(tokens)) == Translate(tokens)
    ensures ReadKernel(Translate(tokens)).kernel == [] && ReadKernel(Translate(tokens)).rest == ReadKernel(tokens).rest
    ensures forall name :: ReadKernel(tokens).kernel != [] ==>
      FirstWins(ReadKernel(Translate(tokens)).disable, name, DisableName)
        == LastWins(ReadKernel(tokens).disable + ReadKernel(tokens).kernel, name, DisableName)
  {
    var k := ReadKernel(tokens);
    if k.kernel != [] {
      TranslatedReads(tokens);
      MergedReadsLast(k.disable, k.kernel, DisableName);
      hide ReadKernel, Merge, FirstWins, LastWins, Join;
    }
  }
}
