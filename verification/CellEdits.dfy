/**
  Which edits a cell gets, one by one, and what applying them means: the text that results is
  the source with each edit spliced in, the last one first.
*/
module CellEdits {
  import opened CellAnalysis

  // ---- Which edits ----

  /** Where a var declaration stands: as a statement, in the head of a for loop, or as what each
      round of a for-in or for-of loop assigns to. */
  datatype Place = AsStatement | InLoopHead | AsRoundTarget

  /** The var declaration d stands somewhere in s, however deep, in this place. */
  ghost predicate VarAt(s: Statement, d: VarDecl, place: Place)
    decreases s
  {
    d.kind == Var
    && match s
       case Declaration(e) => e == d && place.AsStatement?
       case Compound(children, _) => exists i :: 0 <= i < |children| && VarAt(children[i], d, place)
       case For(init, body, _) => (init == VarHead(d) && place.InLoopHead?) || VarAt(body, d, place)
       case ForIn(left, body, _) => (left == VarHead(d) && place.AsRoundTarget?) || VarAt(body, d, place)
       case _ => false
  }

  /** The edits of a declaration: its keyword goes, every declarator is replaced, and a semicolon
      is added if the declaration does not end with its own. */
  ghost predicate OfDeclaration(d: VarDecl, e: Edit, source: string, initialize: bool, target: string)
    requires DeclFits(d, source)
  {
    d.declarators != []
    && (|| e == Edit(d.at.start, d.declarators[0].at.start, "")
        || (exists j ::
              0 <= j < |d.declarators| && IsReplacement(d.declarators[j], d.kind, e, source, initialize, target))
        || (e == Edit(d.at.end, d.at.end, ";") && (d.at.end == 0 || source[d.at.end - 1] != ';')))
  }

  predicate IsReplacement(d: Declarator, kind: BindingKind, e: Edit, source: string, initialize: bool, target: string)
    requires DeclaratorFits(d, source)
  {
    e == Edit(d.at.start, d.at.end, DeclaratorText(d, kind, source, initialize, target))
  }

  /** e is an edit for the var declaration d in its place. */
  ghost predicate IsEditOf(d: VarDecl, place: Place, e: Edit, source: string, target: string) {
    DeclFits(d, source)
    && match place
       case AsStatement => OfDeclaration(d, e, source, false, target)
       case InLoopHead => e == Edit(d.at.start, d.at.end, HeadText(VarHead(d), false, source, target))
       case AsRoundTarget =>
         d.declarators != [] && e == Edit(d.at.start, d.at.end, HeadText(VarHead(d), true, source, target))
  }

  /** e is an edit for some var declaration in s. */
  ghost predicate EditsVar(s: Statement, e: Edit, source: string, target: string) {
    exists d, place :: VarAt(s, d, place) && IsEditOf(d, place, e, source, target)
  }

  lemma {:induction false} DeclaratorEditsAre(list: seq<Declarator>, kind: BindingKind, e: Edit, source: string,
      initialize: bool, target: string)
    requires forall i :: 0 <= i < |list| ==> DeclaratorFits(list[i], source)
    ensures e in DeclaratorEdits(list, kind, source, initialize, target) <==>
              exists j :: 0 <= j < |list| && IsReplacement(list[j], kind, e, source, initialize, target)
  {
    if list != [] {
      DeclaratorEditsAre(list[1..], kind, e, source, initialize, target);
      hide DeclaratorText;
      if j :| 0 <= j < |list[1..]| && IsReplacement(list[1..][j], kind, e, source, initialize, target) {
        assert IsReplacement(list[j + 1], kind, e, source, initialize, target);
      }
      if j :| 0 <= j < |list| && IsReplacement(list[j], kind, e, source, initialize, target) {
        if j > 0 { assert IsReplacement(list[1..][j - 1], kind, e, source, initialize, target); }
      }
    }
  }

  lemma DeclEditsAre(d: VarDecl, e: Edit, source: string, initialize: bool, target: string)
    requires DeclFits(d, source)
    ensures e in DeclEdits(d, source, initialize, target) <==> OfDeclaration(d, e, source, initialize, target)
  {
    DeclaratorEditsAre(d.declarators, d.kind, e, source, initialize, target);
    hide DeclaratorEdits, IsReplacement;
  }

  /** Below the top level a statement gets exactly the edits of the var declarations in it. */
  lemma {:induction false} StatementEditsAre(s: Statement, e: Edit, source: string, target: string)
    requires Fits(s, source)
    ensures e in StatementEdits(s, source, target) <==> EditsVar(s, e, source, target)
    decreases s
  {
    match s
    case Declaration(d) =>
      DeclEditsAre(d, e, source, false, target);
      hide DeclEdits, OfDeclaration;
      if d.kind == Var && OfDeclaration(d, e, source, false, target) {
        assert VarAt(s, d, AsStatement) && IsEditOf(d, AsStatement, e, source, target);
      }
    case Compound(children, range) => ListEditsAre(children, range.start, range.end, e, source, target);
      ChildrenEdit(s, e, source, target);
    case For(init, body, _) => LoopEditsAre(s, init, body, InLoopHead, e, source, target);
    case ForIn(left, body, _) => LoopEditsAre(s, left, body, AsRoundTarget, e, source, target);
    case _ =>
  }

  lemma ChildrenEdit(s: Statement, e: Edit, source: string, target: string)
    requires s.Compound?
    ensures EditsVar(s, e, source, target) <==>
              exists i :: 0 <= i < |s.children| && EditsVar(s.children[i], e, source, target)
  {
    hide IsEditOf;
    if i :| 0 <= i < |s.children| && EditsVar(s.children[i], e, source, target) {
      var d, place :| VarAt(s.children[i], d, place) && IsEditOf(d, place, e, source, target);
      assert VarAt(s, d, place);
    }
    if EditsVar(s, e, source, target) {
      var d, place :| VarAt(s, d, place) && IsEditOf(d, place, e, source, target);
      var i :| 0 <= i < |s.children| && VarAt(s.children[i], d, place);
      assert EditsVar(s.children[i], e, source, target);
    }
  }

  lemma {:induction false} LoopEditsAre(s: Statement, h: Head, body: Statement, place: Place, e: Edit, source: string,
      target: string)
    requires Fits(s, source) && body < s
    requires if place.InLoopHead? then s.For? && s.init == h && s.body == body
             else place.AsRoundTarget? && s.ForIn? && s.left == h && s.body == body
    ensures e in StatementEdits(s, source, target) <==> EditsVar(s, e, source, target)
    decreases s, 0
  {
    StatementEditsAre(body, e, source, target);
    hide HeadText, DeclFits, OfDeclaration;
    if EditsVar(body, e, source, target) {
      var d, p :| VarAt(body, d, p) && IsEditOf(d, p, e, source, target);
      assert VarAt(s, d, p);
    }
    if h.VarHead? && h.decl.kind == Var { assert VarAt(s, h.decl, place); }
    if EditsVar(s, e, source, target) {
      var d, p :| VarAt(s, d, p) && IsEditOf(d, p, e, source, target);
      assert (h == VarHead(d) && p == place) || VarAt(body, d, p);
    }
  }

  lemma {:induction false} ListEditsAre(list: seq<Statement>, from: nat, to: nat, e: Edit, source: string,
      target: string)
    requires AllFit(list, from, to, source)
    ensures e in ListEdits(list, from, to, source, target) <==>
              exists i :: 0 <= i < |list| && EditsVar(list[i], e, source, target)
    decreases list
  {
    if list != [] {
      StatementEditsAre(list[0], e, source, target);
      ListEditsAre(list[1..], At(list[0]).end, to, e, source, target);
      hide EditsVar, StatementEdits;
      if i :| 0 <= i < |list[1..]| && EditsVar(list[1..][i], e, source, target) {
        assert EditsVar(list[i + 1], e, source, target);
      }
      if i :| 0 < i < |list| && EditsVar(list[i], e, source, target) {
        assert EditsVar(list[1..][i - 1], e, source, target);
      }
    }
  }

  // ---- What applying means ----

  /** The text with one edit made. */
  function Spliced(text: string, e: Edit): string
    requires e.start <= e.end <= |text|
  {
    text[..e.start] + e.text + text[e.end..]
  }

  lemma {:induction false} ChainButLast(edits: seq<Edit>, from: nat, to: nat)
    requires Chain(edits, from, to) && edits != []
    ensures var last := edits[|edits| - 1];
      from <= last.start <= last.end <= to && Chain(edits[..|edits| - 1], from, last.start)
    decreases edits
  {
    if |edits| == 1 {
      assert edits[1..] == [] && edits[..0] == [];
    } else {
      ChainButLast(edits[1..], edits[0].end, to);
      assert edits[1..][..|edits| - 2] == edits[..|edits| - 1][1..];
    }
  }

  lemma {:induction false} ChainWidens(edits: seq<Edit>, from: nat, to: nat, more: nat)
    requires Chain(edits, from, to) && to <= more
    ensures Chain(edits, from, more)
    decreases edits
  {
    if edits != [] { ChainWidens(edits[1..], edits[0].end, to, more); }
  }

  lemma LastIsSpliceable(text: string, edits: seq<Edit>)
    requires Chain(edits, 0, |text|) && edits != []
    ensures var last := edits[|edits| - 1];
      last.start <= last.end <= |text| && Chain(edits[..|edits| - 1], 0, |Spliced(text, last)|)
  {
    ChainButLast(edits, 0, |text|);
    var last := edits[|edits| - 1];
    ChainWidens(edits[..|edits| - 1], 0, last.start, |Spliced(text, last)|);
  }

  /** The text with all edits made, one after the other, from the last to the first. */
  function SplicedAll(text: string, edits: seq<Edit>): string
    requires Chain(edits, 0, |text|)
    decreases |edits|
  {
    if edits == [] then text
    else
      LastIsSpliceable(text, edits);
      SplicedAll(Spliced(text, edits[|edits| - 1]), edits[..|edits| - 1])
  }

  lemma OneIsMade(e: Edit, from: nat, source: string)
    requires from <= e.start <= e.end <= |source|
    ensures var after := Spliced(source, e); Applied([e], from, |source|, source) == Applied([], from, |after|, after)
  {
    var after := Spliced(source, e);
    assert [e][1..] == [];
    assert JsSlice(source, e.end, |source|) == source[e.end..];
    assert JsSlice(after, from, |after|) == after[from..] == source[from..e.start] + e.text + source[e.end..];
  }

  lemma BeforeSplice(source: string, e: Edit, from: nat, to: nat)
    requires e.start <= e.end <= |source| && to <= e.start
    ensures JsSlice(Spliced(source, e), from, to) == JsSlice(source, from, to)
  {
    if from <= to { assert Spliced(source, e)[from..to] == source[from..to]; }
  }

  lemma {:induction false} LastIsMade(edits: seq<Edit>, from: nat, source: string)
    requires Chain(edits, from, |source|) && edits != []
    ensures var last := edits[|edits| - 1];
      && from <= last.start <= last.end <= |source|
      && var after := Spliced(source, last);
         Applied(edits, from, |source|, source) == Applied(edits[..|edits| - 1], from, |after|, after)
    decreases edits
  {
    ChainButLast(edits, from, |source|);
    var last := edits[|edits| - 1];
    if |edits| == 1 {
      assert edits == [last] && edits[..0] == [];
      OneIsMade(last, from, source);
    } else {
      LastIsMade(edits[1..], edits[0].end, source);
      assert edits[1..][..|edits| - 2] == edits[..|edits| - 1][1..];
      ChainButLast(edits[1..], edits[0].end, |source|);
      BeforeSplice(source, last, from, edits[0].start);
      hide Spliced, JsSlice, Chain;
    }
  }

  /** Applying edits in order is splicing them in from the last to the first. */
  lemma {:induction false} AppliedIsSpliced(edits: seq<Edit>, source: string)
    requires Chain(edits, 0, |source|)
    ensures Applied(edits, 0, |source|, source) == SplicedAll(source, edits)
    decreases |edits|
  {
    if edits == [] {
      assert JsSlice(source, 0, |source|) == source;
    } else {
      LastIsMade(edits, 0, source);
      LastIsSpliceable(source, edits);
      AppliedIsSpliced(edits[..|edits| - 1], Spliced(source, edits[|edits| - 1]));
    }
  }

  /** Where the text not yet written begins, before the i-th edit. */
  function CursorAt(ordered: seq<Edit>, cursor: nat, i: nat): nat
    requires i <= |ordered|
  {
    if i == 0 then cursor else ordered[i - 1].end
  }

  ghost predicate Overlaps(ordered: seq<Edit>, cursor: nat) {
    exists i: nat :: i < |ordered| && ordered[i].start < CursorAt(ordered, cursor, i)
  }

  /** Applying fails exactly when an edit starts before the one before it has ended. */
  lemma {:induction false} FailsIffOverlapping(ordered: seq<Edit>, cursor: nat, source: string)
    ensures ApplyFrom(ordered, cursor, source).Err? <==> Overlaps(ordered, cursor)
    ensures ApplyFrom(ordered, cursor, source).Err? ==> ApplyFrom(ordered, cursor, source).message == OVERLAPPING
    decreases ordered
  {
    if ordered != [] {
      FailsIffOverlapping(ordered[1..], ordered[0].end, source);
      if Overlaps(ordered[1..], ordered[0].end) {
        var i: nat :| i < |ordered| - 1 && ordered[1..][i].start < CursorAt(ordered[1..], ordered[0].end, i);
        assert ordered[i + 1].start < CursorAt(ordered, cursor, i + 1);
      }
      if Overlaps(ordered, cursor) {
        var i: nat :| i < |ordered| && ordered[i].start < CursorAt(ordered, cursor, i);
        if i > 0 {
          var k: nat := i - 1;
          assert ordered[1..][k].start < CursorAt(ordered[1..], ordered[0].end, k);
        }
      }
      hide Overlaps;
    }
  }

  // ---- A whole cell ----

  lemma {:induction false} FunctionsBefore(body: seq<Statement>, i: nat)
    requires i < |body| && body[i].FunctionDecl?
    ensures |Functions(body[..i])| < |Functions(body)|
    decreases body
  {
    if i > 0 {
      FunctionsBefore(body[1..], i - 1);
      assert body[..i][1..] == body[1..][..i - 1];
    } else {
      assert body[..0] == [];
    }
  }

  /** e is an edit for the statement at the top level: for a declaration there, a class, the name
      of a function, or a var declaration below. */
  ghost predicate EditsTop(s: Statement, alias: string, e: Edit, source: string, target: string) {
    match s
    case Declaration(d) => DeclFits(d, source) && OfDeclaration(d, e, source, d.kind != Var, target)
    case ClassDecl(name, range) =>
      InSource(range, source) && e == Edit(range.start, range.end, ClassText(name, range, source, target))
    case FunctionDecl(_, id, _) => e == Edit(id.start, id.end, alias)
    case _ => EditsVar(s, e, source, target)
  }

  /** The alias of statement i, if it is a function: there is one for each, in order. */
  function AliasAt(body: seq<Statement>, aliases: seq<string>, i: nat): string
    requires i < |body| && |Functions(body)| <= |aliases|
  {
    if body[i].FunctionDecl? then
      FunctionsBefore(body, i);
      aliases[|Functions(body[..i])|]
    else ""
  }

  lemma TopEditsAre(s: Statement, alias: string, e: Edit, source: string, target: string)
    requires Fits(s, source) && !s.FunctionDecl?
    ensures e in TopEdits(s, source, target) <==> EditsTop(s, alias, e, source, target)
  {
    if s.Declaration? {
      DeclEditsAre(s.decl, e, source, s.decl.kind != Var, target);
    } else {
      StatementEditsAre(s, e, source, target);
    }
    hide DeclEdits, OfDeclaration, EditsVar, ClassText;
  }

  /** The edits of a cell, in source order, are exactly those of its statements. */
  lemma {:induction false} CellEditsAre(body: seq<Statement>, aliases: seq<string>, from: nat, to: nat, e: Edit,
      source: string, target: string)
    requires AllFit(body, from, to, source) && |Functions(body)| <= |aliases|
    ensures e in Placed(body, aliases, from, to, source, target) <==>
              exists i: nat :: i < |body| && EditsTop(body[i], AliasAt(body, aliases, i), e, source, target)
    decreases body
  {
    if body != [] {
      var later := if body[0].FunctionDecl? then aliases[1..] else aliases;
      CellEditsAre(body[1..], later, At(body[0]).end, to, e, source, target);
      if !body[0].FunctionDecl? { TopEditsAre(body[0], AliasAt(body, aliases, 0), e, source, target); }
      assert body[..0] == [];
      FirstOrLater(body, aliases, later, from, to, e, source, target);
    }
  }

  lemma FirstOrLater(body: seq<Statement>, aliases: seq<string>, later: seq<string>, from: nat, to: nat, e: Edit,
      source: string, target: string)
    requires body != [] && |Functions(body)| <= |aliases|
    requires later == if body[0].FunctionDecl? then aliases[1..] else aliases
    ensures (exists i: nat :: i < |body| && EditsTop(body[i], AliasAt(body, aliases, i), e, source, target)) <==>
              EditsTop(body[0], AliasAt(body, aliases, 0), e, source, target) ||
              exists i: nat :: i < |body[1..]|
                && EditsTop(body[1..][i], AliasAt(body[1..], later, i), e, source, target)
  {
    assert |Functions(body[1..])| <= |later|;
    hide EditsTop, Functions;
    forall i: nat | i < |body[1..]| ensures AliasAt(body, aliases, i + 1) == AliasAt(body[1..], later, i) {
      LaterAlias(body, aliases, i);
    }
    hide AliasAt;
    if i: nat :| i < |body[1..]| && EditsTop(body[1..][i], AliasAt(body[1..], later, i), e, source, target) {
      assert EditsTop(body[i + 1], AliasAt(body, aliases, i + 1), e, source, target);
    }
    if i: nat :| i < |body| && EditsTop(body[i], AliasAt(body, aliases, i), e, source, target) {
      if i > 0 {
        var k: nat := i - 1;
        assert EditsTop(body[1..][k], AliasAt(body[1..], later, k), e, source, target);
      }
    }
  }

  lemma LaterAlias(body: seq<Statement>, aliases: seq<string>, i: nat)
    requires i + 1 < |body| && |Functions(body)| <= |aliases|
    ensures var later := if body[0].FunctionDecl? then aliases[1..] else aliases;
      |Functions(body[1..])| <= |later| && AliasAt(body, aliases, i + 1) == AliasAt(body[1..], later, i)
  {
    assert body[..i + 1][1..] == body[1..][..i];
    if body[i + 1].FunctionDecl? {
      FunctionsBefore(body, i + 1);
      FunctionsBefore(body[1..], i);
    }
  }

  /** The text of a cell is the source with the edits of its statements spliced in, from the last
      to the first; whatever no edit covers stays. */
  lemma CellIsSpliced(body: seq<Statement>, aliases: seq<string>, source: string, target: string)
    requires AllFit(body, 0, |source|, source)
    ensures var edits := Placed(body, aliases, 0, |source|, source, target);
      && Chain(edits, 0, |source|)
      && EmitCell(body, aliases, 0, |source|, source, target) == SplicedAll(source, edits)
  {
    PlacedEmits(body, aliases, 0, |source|, source, target);
    AppliedIsSpliced(Placed(body, aliases, 0, |source|, source, target), source);
    hide Placed, EmitCell, Applied;
  }
}
