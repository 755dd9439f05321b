/**
  The REPL's cell compiler: a source-to-source rewrite by text edits over an AST with ranges
  (server/runtime/cell-analysis.ts).

  The AST with its ranges is the input; expressions are opaque text. Statements the traversal
  enters alike, visiting their children in source order, are one constructor: blocks, if,
  while, do-while, with, switch, try and labelled statements.
*/
module CellAnalysis {
  import opened Collections

  /** The text from start up to end. */
  datatype Range = Range(start: nat, end: nat)

  datatype Pattern =
    | Identifier(name: string)
    | Member(at: Range)
    | Assignment(left: Pattern, right: Range)
    | Rest(argument: Pattern)
    | ArrayPattern(elements: seq<Element>)
    | ObjectPattern(properties: seq<Property>)

  datatype Element = Hole | Element(pattern: Pattern)

  datatype Property =
    | RestProperty(argument: Pattern)
    | KeyProperty(key: Range, computed: bool, value: Pattern)

  datatype BindingKind = Var | Function | Let | Const | Class

  datatype Declarator = Declarator(id: Pattern, init: Option<Range>, at: Range)

  datatype VarDecl = VarDecl(kind: BindingKind, declarators: seq<Declarator>, at: Range)

  /** A loop head that declares nothing, or a declaration in one. */
  datatype Head = OtherHead | VarHead(decl: VarDecl)

  datatype Statement =
    | Declaration(decl: VarDecl)
    | Compound(children: seq<Statement>, range: Range)
    | For(init: Head, body: Statement, range: Range)
    | ForIn(left: Head, body: Statement, range: Range)
    | FunctionDecl(name: string, id: Range, range: Range)
    | ClassDecl(name: string, range: Range)
    | Simple(range: Range)
    | ImportExport(range: Range)

  datatype Binding = Binding(name: string, kind: BindingKind)

  datatype Edit = Edit(start: nat, end: nat, text: string)

  datatype Hoisted = Hoisted(name: string, alias: string)

  datatype Analysis = Analysis(source: string, bindings: seq<Binding>, edits: seq<Edit>, hoisted: seq<Hoisted>)

  function At(s: Statement): Range {
    match s
    case Declaration(d) => d.at
    case _ => s.range
  }

  // ---- Well-ranged trees ----

  predicate InSource(r: Range, source: string) {
    r.start <= r.end <= |source|
  }

  predicate PatternFits(p: Pattern, source: string)
    decreases p
  {
    match p
    case Identifier(_) => true
    case Member(at) => InSource(at, source)
    case Assignment(left, right) => PatternFits(left, source) && InSource(right, source)
    case Rest(argument) => PatternFits(argument, source)
    case ArrayPattern(elements) =>
      forall i :: 0 <= i < |elements| ==> ElementFits(elements[i], source)
    case ObjectPattern(properties) => forall i :: 0 <= i < |properties| ==> PropertyFits(properties[i], source)
  }

  predicate ElementFits(e: Element, source: string)
    decreases e
  {
    e.Element? ==> PatternFits(e.pattern, source)
  }

  predicate PropertyFits(p: Property, source: string)
    decreases p
  {
    match p
    case RestProperty(argument) => PatternFits(argument, source)
    case KeyProperty(key, _, value) => InSource(key, source) && PatternFits(value, source)
  }

  predicate DeclaratorFits(d: Declarator, source: string) {
    InSource(d.at, source) && PatternFits(d.id, source) && (d.init.Some? ==> InSource(d.init.value, source))
  }

  /** The declarators follow one another inside the declaration. */
  predicate DeclFits(d: VarDecl, source: string) {
    && InSource(d.at, source) && !d.kind.Function? && !d.kind.Class?
    && (forall i :: 0 <= i < |d.declarators| ==>
          && DeclaratorFits(d.declarators[i], source)
          && d.at.start <= d.declarators[i].at.start && d.declarators[i].at.end <= d.at.end)
    && (forall i :: 0 < i < |d.declarators| ==> d.declarators[i - 1].at.end <= d.declarators[i].at.start)
  }

  /** A for-in or for-of head declares exactly one variable. */
  predicate HeadFits(h: Head, single: bool, outer: Range, body: Range, source: string) {
    h.VarHead? ==>
      && DeclFits(h.decl, source) && outer.start <= h.decl.at.start && h.decl.at.end <= body.start
      && h.decl.declarators != [] && (single ==> |h.decl.declarators| == 1)
  }

  predicate Fits(s: Statement, source: string)
    decreases s
  {
    && InSource(At(s), source)
    && match s
       case Declaration(d) => DeclFits(d, source)
       case Compound(children, range) => AllFit(children, range.start, range.end, source)
       case For(init, body, range) =>
         && Fits(body, source) && range.start <= At(body).start && At(body).end <= range.end
         && HeadFits(init, false, range, At(body), source)
       case ForIn(left, body, range) =>
         && Fits(body, source) && range.start <= At(body).start && At(body).end <= range.end
         && HeadFits(left, true, range, At(body), source)
       case FunctionDecl(_, id, range) => range.start < id.start < id.end <= range.end
       case _ => true
  }

  /** The statements follow one another between two positions. */
  predicate AllFit(list: seq<Statement>, from: nat, to: nat, source: string)
    decreases list
  {
    if list == [] then from <= to <= |source|
    else from <= At(list[0]).start && Fits(list[0], source) && AllFit(list[1..], At(list[0]).end, to, source)
  }

  // ---- Text of patterns and declarations ----

  function Slice(source: string, r: Range): string
    requires InSource(r, source)
  {
    source[r.start..r.end]
  }

  function Join(parts: seq<string>): string {
    if parts == [] then "" else if |parts| == 1 then parts[0] else parts[0] + ", " + Join(parts[1..])
  }

  /** An identifier as a JSON string. */
  function Quoted(name: string): string {
    "\"" + name + "\""
  }

  function GlobalPattern(p: Pattern, source: string, initialize: bool, target: string): string
    requires PatternFits(p, source)
    decreases p
  {
    match p
    case Identifier(name) => if initialize then target + "[" + Quoted(name) + "]" else name
    case Member(at) => Slice(source, at)
    case Assignment(left, right) => GlobalPattern(left, source, initialize, target) + " = " + Slice(source, right)
    case Rest(argument) => "..." + GlobalPattern(argument, source, initialize, target)
    case ArrayPattern(elements) => "[" + Join(ElementTexts(elements, source, initialize, target)) + "]"
    case ObjectPattern(properties) => "{" + Join(PropertyTexts(properties, source, initialize, target)) + "}"
  }

  function ElementText(e: Element, source: string, initialize: bool, target: string): string
    requires ElementFits(e, source)
    decreases e
  {
    if e.Element? then GlobalPattern(e.pattern, source, initialize, target) else ""
  }

  function ElementTexts(elements: seq<Element>, source: string, initialize: bool, target: string): seq<string>
    requires forall i :: 0 <= i < |elements| ==> ElementFits(elements[i], source)
    decreases elements
  {
    if elements == [] then []
    else
      [ElementText(elements[0], source, initialize, target)] + ElementTexts(elements[1..], source, initialize, target)
  }

  function PropertyText(p: Property, source: string, initialize: bool, target: string): string
    requires PropertyFits(p, source)
    decreases p
  {
    match p
    case RestProperty(argument) => "..." + GlobalPattern(argument, source, initialize, target)
    case KeyProperty(key, computed, value) =>
      (if computed then "[" + Slice(source, key) + "]" else Slice(source, key)) + ": "
      + GlobalPattern(value, source, initialize, target)
  }

  function PropertyTexts(properties: seq<Property>, source: string, initialize: bool, target: string): seq<string>
    requires forall i :: 0 <= i < |properties| ==> PropertyFits(properties[i], source)
    decreases properties
  {
    if properties == [] then []
    else
      [PropertyText(properties[0], source, initialize, target)]
      + PropertyTexts(properties[1..], source, initialize, target)
  }

  function Names(p: Pattern): seq<string>
    decreases p
  {
    match p
    case Identifier(name) => [name]
    case Member(_) => []
    case Assignment(left, _) => Names(left)
    case Rest(argument) => Names(argument)
    case ArrayPattern(elements) => ElementNames(elements)
    case ObjectPattern(properties) => PropertyNames(properties)
  }

  function ElementName(e: Element): seq<string>
    decreases e
  {
    if e.Element? then Names(e.pattern) else []
  }

  function ElementNames(elements: seq<Element>): seq<string>
    decreases elements
  {
    if elements == [] then [] else ElementName(elements[0]) + ElementNames(elements[1..])
  }

  function PropertyName(p: Property): seq<string>
    decreases p
  {
    match p
    case RestProperty(argument) => Names(argument)
    case KeyProperty(_, _, value) => Names(value)
  }

  function PropertyNames(properties: seq<Property>): seq<string>
    decreases properties
  {
    if properties == [] then [] else PropertyName(properties[0]) + PropertyNames(properties[1..])
  }

  function DeclaratorText(d: Declarator, kind: BindingKind, source: string, initialize: bool, target: string): string
    requires DeclaratorFits(d, source)
  {
    if d.init.None? && kind == Var then "(void 0)"
    else
      "(" + GlobalPattern(d.id, source, initialize, target) + " = "
      + (if d.init.Some? then Slice(source, d.init.value) else "undefined") + ")"
  }

  function DeclaratorTexts(list: seq<Declarator>, kind: BindingKind, source: string, target: string): seq<string>
    requires forall i :: 0 <= i < |list| ==> DeclaratorFits(list[i], source)
  {
    if list == [] then []
    else [DeclaratorText(list[0], kind, source, false, target)] + DeclaratorTexts(list[1..], kind, source, target)
  }

  // ---- The edits ----

  /** Meriyah counts an explicit semicolon into the declaration. */
  predicate LacksSemicolon(d: VarDecl, source: string)
    requires InSource(d.at, source)
  {
    d.at.end == 0 || source[d.at.end - 1] != ';'
  }

  function DeclaratorEdits(list: seq<Declarator>, kind: BindingKind, source: string, initialize: bool,
      target: string): seq<Edit>
    requires forall i :: 0 <= i < |list| ==> DeclaratorFits(list[i], source)
  {
    if list == [] then []
    else
      [Edit(list[0].at.start, list[0].at.end, DeclaratorText(list[0], kind, source, initialize, target))]
      + DeclaratorEdits(list[1..], kind, source, initialize, target)
  }

  function DeclEdits(d: VarDecl, source: string, initialize: bool, target: string): seq<Edit>
    requires DeclFits(d, source)
  {
    if d.declarators == [] then []
    else
      [Edit(d.at.start, d.declarators[0].at.start, "")]
      + DeclaratorEdits(d.declarators, d.kind, source, initialize, target)
      + (if LacksSemicolon(d, source) then [Edit(d.at.end, d.at.end, ";")] else [])
  }

  function HeadText(h: Head, single: bool, source: string, target: string): string
    requires h.VarHead? && DeclFits(h.decl, source) && (single ==> h.decl.declarators != [])
  {
    if single then GlobalPattern(h.decl.declarators[0].id, source, false, target)
    else Join(DeclaratorTexts(h.decl.declarators, h.decl.kind, source, target))
  }

  function HeadEdits(h: Head, single: bool, source: string, target: string): seq<Edit>
    requires h.VarHead? ==> DeclFits(h.decl, source) && (single ==> h.decl.declarators != [])
  {
    if h.VarHead? && h.decl.kind == Var then
      [Edit(h.decl.at.start, h.decl.at.end, HeadText(h, single, source, target))]
    else []
  }

  /** What the traversal pushes for a statement that is not at the top level. */
  function StatementEdits(s: Statement, source: string, target: string): seq<Edit>
    requires Fits(s, source)
    decreases s
  {
    match s
    case Declaration(d) => if d.kind == Var then DeclEdits(d, source, false, target) else []
    case Compound(children, range) => ListEdits(children, range.start, range.end, source, target)
    case For(init, body, _) => HeadEdits(init, false, source, target) + StatementEdits(body, source, target)
    case ForIn(left, body, _) => HeadEdits(left, true, source, target) + StatementEdits(body, source, target)
    case _ => []
  }

  function ListEdits(list: seq<Statement>, from: nat, to: nat, source: string, target: string): seq<Edit>
    requires AllFit(list, from, to, source)
    decreases list
  {
    if list == [] then []
    else StatementEdits(list[0], source, target) + ListEdits(list[1..], At(list[0]).end, to, source, target)
  }

  function ClassText(name: string, range: Range, source: string, target: string): string
    requires InSource(range, source)
  {
    target + "[" + Quoted(name) + "] = (" + Slice(source, range) + ");"
  }

  function TopEdits(s: Statement, source: string, target: string): seq<Edit>
    requires Fits(s, source)
  {
    match s
    case Declaration(d) => DeclEdits(d, source, d.kind != Var, target)
    case ClassDecl(name, range) => [Edit(range.start, range.end, ClassText(name, range, source, target))]
    case FunctionDecl(_, _, _) => []
    case _ => StatementEdits(s, source, target)
  }

  /** The edits of a cell in source order, with the first function declarations renamed to
      the given aliases and the others left alone. */
  function Placed(list: seq<Statement>, aliases: seq<string>, from: nat, to: nat, source: string,
      target: string): seq<Edit>
    requires AllFit(list, from, to, source)
  {
    if list == [] then []
    else if list[0].FunctionDecl? && aliases != [] then
      [Edit(list[0].id.start, list[0].id.end, aliases[0])]
      + Placed(list[1..], aliases[1..], At(list[0]).end, to, source, target)
    else TopEdits(list[0], source, target) + Placed(list[1..], aliases, At(list[0]).end, to, source, target)
  }

  function Functions(list: seq<Statement>): seq<Statement> {
    if list == [] then []
    else if list[0].FunctionDecl? then [list[0]] + Functions(list[1..])
    else Functions(list[1..])
  }

  predicate AllFunctions(list: seq<Statement>) {
    forall i :: 0 <= i < |list| ==> list[i].FunctionDecl?
  }

  function AliasEdits(functions: seq<Statement>, aliases: seq<string>): seq<Edit>
    requires |functions| == |aliases| && AllFunctions(functions)
  {
    if functions == [] then []
    else [Edit(functions[0].id.start, functions[0].id.end, aliases[0])] + AliasEdits(functions[1..], aliases[1..])
  }

  // ---- Applying edits ----

  /** A stable sort by start: each edit goes after those that start no later. */
  function Insert(sorted: seq<Edit>, e: Edit): seq<Edit> {
    if sorted == [] || sorted[0].start > e.start then [e] + sorted
    else [sorted[0]] + Insert(sorted[1..], e)
  }

  function SortInto(sorted: seq<Edit>, edits: seq<Edit>): seq<Edit>
    decreases edits
  {
    if edits == [] then sorted else SortInto(Insert(sorted, edits[0]), edits[1..])
  }

  function Sorted(edits: seq<Edit>): seq<Edit> {
    SortInto([], edits)
  }

  datatype Result<+T> = Ok(value: T) | Err(message: string)

  const OVERLAPPING := "overlapping cell source edits"

  /** JavaScript's slice, which never fails. */
  function JsSlice(source: string, from: nat, to: nat): string {
    var stop := if to < |source| then to else |source|;
    if from <= stop then source[from..stop] else ""
  }

  function After(text: string, rest: Result<string>): Result<string> {
    match rest
    case Ok(value) => Ok(text + value)
    case Err(message) => Err(message)
  }

  function ApplyFrom(ordered: seq<Edit>, cursor: nat, source: string): Result<string> {
    if ordered == [] then Ok(JsSlice(source, cursor, |source|))
    else if ordered[0].start < cursor then Err(OVERLAPPING)
    else
      After(JsSlice(source, cursor, ordered[0].start) + ordered[0].text,
        ApplyFrom(ordered[1..], ordered[0].end, source))
  }

  lemma AfterNothing(rest: Result<string>)
    ensures After("", rest) == rest
  {
    if rest.Ok? { assert "" + rest.value == rest.value; }
  }

  lemma AfterTwice(a: string, b: string, rest: Result<string>)
    ensures After(a, After(b, rest)) == After(a + b, rest)
  {
    if rest.Ok? { assert a + (b + rest.value) == a + b + rest.value; }
  }

  method ApplyEdits(source: string, edits: seq<Edit>) returns (result: Result<string>)
    ensures result == ApplyFrom(Sorted(edits), 0, source)
  {
    var ordered := Sorted(edits);
    var text, cursor, i := "", 0, 0;
    assert ordered[0..] == ordered;
    AfterNothing(ApplyFrom(ordered, 0, source));
    while i < |ordered|
      invariant i <= |ordered|
      invariant ApplyFrom(ordered, 0, source) == After(text, ApplyFrom(ordered[i..], cursor, source))
    {
      assert ordered[i..][0] == ordered[i] && ordered[i..][1..] == ordered[i + 1..];
      if ordered[i].start < cursor { return Err(OVERLAPPING); }
      ghost var rest := ApplyFrom(ordered[i + 1..], ordered[i].end, source);
      var piece := JsSlice(source, cursor, ordered[i].start) + ordered[i].text;
      AfterTwice(text, piece, rest);
      text := text + piece;
      cursor := ordered[i].end;
      i := i + 1;
    }
    result := Ok(text + JsSlice(source, cursor, |source|));
  }

  // ---- The translation, directly over the tree ----

  function EmitDeclarators(list: seq<Declarator>, cursor: nat, end: nat, kind: BindingKind, source: string,
      initialize: bool, target: string): string
    requires forall i :: 0 <= i < |list| ==> DeclaratorFits(list[i], source)
  {
    if list == [] then JsSlice(source, cursor, end)
    else
      JsSlice(source, cursor, list[0].at.start) + DeclaratorText(list[0], kind, source, initialize, target)
      + EmitDeclarators(list[1..], list[0].at.end, end, kind, source, initialize, target)
  }

  /** The keyword goes, each declarator becomes an assignment, the rest stays. */
  function EmitDecl(d: VarDecl, source: string, initialize: bool, target: string): string
    requires DeclFits(d, source)
  {
    if d.declarators == [] then Slice(source, d.at)
    else
      EmitDeclarators(d.declarators, d.declarators[0].at.start, d.at.end, d.kind, source, initialize, target)
      + (if LacksSemicolon(d, source) then ";" else "")
  }

  function EmitLoop(h: Head, single: bool, body: Statement, range: Range, source: string, target: string,
      inner: string): string
    requires InSource(range, source) && HeadFits(h, single, range, At(body), source)
  {
    (if h.VarHead? && h.decl.kind == Var then
       JsSlice(source, range.start, h.decl.at.start) + HeadText(h, single, source, target)
       + JsSlice(source, h.decl.at.end, At(body).start)
     else JsSlice(source, range.start, At(body).start))
    + inner + JsSlice(source, At(body).end, range.end)
  }

  function Emit(s: Statement, source: string, target: string): string
    requires Fits(s, source)
    decreases s
  {
    match s
    case Declaration(d) => if d.kind == Var then EmitDecl(d, source, false, target) else Slice(source, d.at)
    case Compound(children, range) => EmitList(children, range.start, range.end, source, target)
    case For(init, body, range) => EmitLoop(init, false, body, range, source, target, Emit(body, source, target))
    case ForIn(left, body, range) => EmitLoop(left, true, body, range, source, target, Emit(body, source, target))
    case _ => Slice(source, At(s))
  }

  function EmitList(list: seq<Statement>, from: nat, to: nat, source: string, target: string): string
    requires AllFit(list, from, to, source)
    decreases list
  {
    if list == [] then JsSlice(source, from, to)
    else
      JsSlice(source, from, At(list[0]).start) + Emit(list[0], source, target)
      + EmitList(list[1..], At(list[0]).end, to, source, target)
  }

  function EmitTop(s: Statement, source: string, target: string): string
    requires Fits(s, source)
  {
    match s
    case Declaration(d) => EmitDecl(d, source, d.kind != Var, target)
    case ClassDecl(name, range) => ClassText(name, range, source, target)
    case _ => Emit(s, source, target)
  }

  function EmitCell(list: seq<Statement>, aliases: seq<string>, from: nat, to: nat, source: string,
      target: string): string
    requires AllFit(list, from, to, source)
  {
    if list == [] then JsSlice(source, from, to)
    else if list[0].FunctionDecl? && aliases != [] then
      JsSlice(source, from, list[0].id.start) + aliases[0] + JsSlice(source, list[0].id.end, At(list[0]).end)
      + EmitCell(list[1..], aliases[1..], At(list[0]).end, to, source, target)
    else
      JsSlice(source, from, At(list[0]).start) + EmitTop(list[0], source, target)
      + EmitCell(list[1..], aliases, At(list[0]).end, to, source, target)
  }

  // ---- Edits in order ----

  /** In bounds, in order, and nowhere overlapping. */
  predicate Chain(edits: seq<Edit>, from: nat, to: nat) {
    if edits == [] then from <= to
    else from <= edits[0].start <= edits[0].end && Chain(edits[1..], edits[0].end, to)
  }

  function Applied(edits: seq<Edit>, from: nat, to: nat, source: string): string {
    if edits == [] then JsSlice(source, from, to)
    else JsSlice(source, from, edits[0].start) + edits[0].text + Applied(edits[1..], edits[0].end, to, source)
  }

  lemma SliceJoins(source: string, a: nat, b: nat, c: nat)
    requires a <= b <= c <= |source|
    ensures JsSlice(source, a, b) + JsSlice(source, b, c) == JsSlice(source, a, c)
  {}

  lemma {:induction false} ChainBounds(edits: seq<Edit>, from: nat, to: nat)
    requires Chain(edits, from, to)
    ensures from <= to
  {
    if edits != [] { ChainBounds(edits[1..], edits[0].end, to); }
  }

  lemma Regroup(a: string, b: string, c: string, d: string)
    ensures a + (b + c + d) == a + b + c + d
    ensures a + (b + c) == a + b + c
  {}

  lemma AppliedExtends(edits: seq<Edit>, before: nat, from: nat, to: nat, source: string)
    requires before <= from <= to <= |source| && Chain(edits, from, to)
    ensures Chain(edits, before, to)
    ensures Applied(edits, before, to, source) == JsSlice(source, before, from) + Applied(edits, from, to, source)
  {
    if edits == [] {
      SliceJoins(source, before, from, to);
    } else {
      var e := edits[0];
      ChainBounds(edits[1..], e.end, to);
      SliceJoins(source, before, from, e.start);
      hide JsSlice;
      Regroup(JsSlice(source, before, from), JsSlice(source, from, e.start), e.text,
        Applied(edits[1..], e.end, to, source));
    }
  }

  lemma {:induction false} AppliedJoins(a: seq<Edit>, b: seq<Edit>, from: nat, mid: nat, to: nat, source: string)
    requires Chain(a, from, mid) && Chain(b, mid, to) && to <= |source|
    ensures Chain(a + b, from, to)
    ensures Applied(a + b, from, to, source) == Applied(a, from, mid, source) + Applied(b, mid, to, source)
  {
    ChainBounds(b, mid, to);
    if a == [] {
      assert a + b == b;
      AppliedExtends(b, from, mid, to, source);
    } else {
      assert (a + b)[0] == a[0] && (a + b)[1..] == a[1..] + b;
      AppliedJoins(a[1..], b, a[0].end, mid, to, source);
      Regroup(JsSlice(source, from, a[0].start) + a[0].text, Applied(a[1..], a[0].end, mid, source),
              Applied(b, mid, to, source), "");
    }
  }

  /** One edit and the text around it. */
  lemma AppliedOne(e: Edit, from: nat, to: nat, source: string)
    requires from <= e.start <= e.end <= to <= |source|
    ensures Chain([e], from, to)
    ensures Applied([e], from, to, source) == JsSlice(source, from, e.start) + e.text + JsSlice(source, e.end, to)
  {
    assert [e][1..] == [];
  }

  lemma AppliedNone(from: nat, to: nat, source: string)
    requires from <= to <= |source|
    ensures Chain([], from, to) && Applied([], from, to, source) == source[from..to]
  {}

  lemma NoSlice(source: string, a: nat)
    requires a <= |source|
    ensures JsSlice(source, a, a) == ""
  {}

  lemma {:induction false} DeclaratorsEmit(list: seq<Declarator>, cursor: nat, end: nat, kind: BindingKind,
      source: string,
      initialize: bool, target: string)
    requires forall i :: 0 <= i < |list| ==> DeclaratorFits(list[i], source) && list[i].at.end <= end
    requires forall i :: 0 < i < |list| ==> list[i - 1].at.end <= list[i].at.start
    requires cursor <= end <= |source| && (list != [] ==> cursor <= list[0].at.start)
    ensures var edits := DeclaratorEdits(list, kind, source, initialize, target);
      Chain(edits, cursor, end)
      && Applied(edits, cursor, end, source) == EmitDeclarators(list, cursor, end, kind, source, initialize, target)
  {
    if list != [] {
      assert DeclaratorFits(list[0], source);
      DeclaratorsEmit(list[1..], list[0].at.end, end, kind, source, initialize, target);
      hide DeclaratorText, JsSlice, DeclaratorFits;
      assert DeclaratorEdits(list, kind, source, initialize, target)[1..]
        == DeclaratorEdits(list[1..], kind, source, initialize, target);
    }
  }

  lemma DeclEmits(d: VarDecl, source: string, initialize: bool, target: string)
    requires DeclFits(d, source)
    ensures var edits := DeclEdits(d, source, initialize, target);
      && Chain(edits, d.at.start, d.at.end)
      && Applied(edits, d.at.start, d.at.end, source) == EmitDecl(d, source, initialize, target)
  {
    if d.declarators == [] {
      AppliedNone(d.at.start, d.at.end, source);
    } else {
      var first, end := d.declarators[0].at.start, d.at.end;
      var edited := DeclaratorEdits(d.declarators, d.kind, source, initialize, target);
      assert DeclaratorFits(d.declarators[0], source) && d.at.start <= first <= end <= |source|;
      DeclaratorsEmit(d.declarators, first, end, d.kind, source, initialize, target);
      hide DeclaratorEdits, EmitDeclarators, DeclFits;
      KeywordAndTail(edited, d.at.start, first, end, source);
    }
  }

  /** Dropping the keyword before a chain, and closing it with a semicolon. */
  lemma KeywordAndTail(edits: seq<Edit>, start: nat, first: nat, end: nat, source: string)
    requires start <= first <= end <= |source| && Chain(edits, first, end)
    ensures var all := [Edit(start, first, "")] + edits;
      && Chain(all + [], start, end)
      && Applied(all + [], start, end, source) == Applied(edits, first, end, source) + ""
      && Chain(all + [Edit(end, end, ";")], start, end)
      && Applied(all + [Edit(end, end, ";")], start, end, source) == Applied(edits, first, end, source) + ";"
  {
    var keyword, tail := [Edit(start, first, "")], [Edit(end, end, ";")];
    AppliedOne(keyword[0], start, first, source);
    AppliedOne(tail[0], end, end, source);
    NoSlice(source, start);
    NoSlice(source, first);
    NoSlice(source, end);
    hide Applied, Chain, JsSlice;
    AppliedJoins(keyword, edits, start, first, end, source);
    AppliedJoins(keyword + edits, tail, start, end, end, source);
    assert keyword + edits + [] == keyword + edits;
  }

  lemma {:induction false} StatementEmits(s: Statement, source: string, target: string)
    requires Fits(s, source)
    ensures var edits := StatementEdits(s, source, target);
      && Chain(edits, At(s).start, At(s).end)
      && Applied(edits, At(s).start, At(s).end, source) == Emit(s, source, target)
    decreases s
  {
    match s
    case Declaration(d) =>
      if d.kind == Var { DeclEmits(d, source, false, target); } else { AppliedNone(d.at.start, d.at.end, source); }
    case Compound(children, range) => ListEmits(children, range.start, range.end, source, target);
    case For(init, body, range) =>
      StatementEmits(body, source, target);
      LoopEmits(init, false, body, range, source, target);
    case ForIn(left, body, range) =>
      StatementEmits(body, source, target);
      LoopEmits(left, true, body, range, source, target);
    case _ => AppliedNone(At(s).start, At(s).end, source);
  }

  lemma LoopEmits(h: Head, single: bool, body: Statement, range: Range, source: string, target: string)
    requires Fits(body, source) && InSource(range, source) && HeadFits(h, single, range, At(body), source)
    requires range.start <= At(body).start && At(body).end <= range.end
    requires var edits := StatementEdits(body, source, target);
      && Chain(edits, At(body).start, At(body).end)
      && Applied(edits, At(body).start, At(body).end, source) == Emit(body, source, target)
    ensures var edits := HeadEdits(h, single, source, target) + StatementEdits(body, source, target);
      && Chain(edits, range.start, range.end)
      && Applied(edits, range.start, range.end, source)
         == EmitLoop(h, single, body, range, source, target, Emit(body, source, target))
  {
    var head, inner := HeadEdits(h, single, source, target), StatementEdits(body, source, target);
    var b := At(body);
    assert b.start <= b.end;
    hide Fits, Emit, StatementEdits, JsSlice;
    if h.VarHead? && h.decl.kind == Var {
      AppliedOne(head[0], range.start, b.start, source);
    } else {
      AppliedNone(range.start, b.start, source);
      assert JsSlice(source, range.start, b.start) == source[range.start..b.start] by {
        Plain(source, range.start, b.start);
      }
    }
    AppliedNone(b.end, range.end, source);
    Plain(source, b.end, range.end);
    hide HeadEdits, Applied, Chain, DeclFits, HeadText;
    AppliedJoins(head, inner, range.start, b.start, b.end, source);
    AppliedJoins(head + inner, [], range.start, b.end, range.end, source);
    assert head + inner + [] == head + inner;
  }

  lemma Plain(source: string, a: nat, b: nat)
    requires a <= b <= |source|
    ensures JsSlice(source, a, b) == source[a..b]
  {}

  lemma {:induction false} ListEmits(list: seq<Statement>, from: nat, to: nat, source: string, target: string)
    requires AllFit(list, from, to, source)
    ensures var edits := ListEdits(list, from, to, source, target);
      && Chain(edits, from, to) && Applied(edits, from, to, source) == EmitList(list, from, to, source, target)
    decreases list
  {
    if list == [] {
      AppliedNone(from, to, source);
    } else {
      var r := At(list[0]);
      var mine, rest := StatementEdits(list[0], source, target), ListEdits(list[1..], r.end, to, source, target);
      StatementEmits(list[0], source, target);
      ListEmits(list[1..], r.end, to, source, target);
      assert r.start <= r.end <= |source|;
      AllFitBounds(list, from, to, source);
      hide Fits, StatementEdits, Emit, JsSlice, Applied, Chain;
      AppliedExtends(mine, from, r.start, r.end, source);
      AppliedJoins(mine, rest, from, r.end, to, source);
    }
  }

  lemma {:induction false} AllFitBounds(list: seq<Statement>, from: nat, to: nat, source: string)
    requires AllFit(list, from, to, source)
    ensures from <= to <= |source|
    decreases list
  {
    if list != [] {
      assert Fits(list[0], source);
      AllFitBounds(list[1..], At(list[0]).end, to, source);
    }
  }

  lemma TopEmits(s: Statement, source: string, target: string)
    requires Fits(s, source)
    ensures var edits := TopEdits(s, source, target);
      && Chain(edits, At(s).start, At(s).end)
      && Applied(edits, At(s).start, At(s).end, source) == EmitTop(s, source, target)
  {
    match s
    case Declaration(d) => DeclEmits(d, source, d.kind != Var, target);
    case ClassDecl(name, range) =>
      AppliedOne(TopEdits(s, source, target)[0], range.start, range.end, source);
      NoSlice(source, range.start);
      NoSlice(source, range.end);
    case FunctionDecl(_, _, range) => AppliedNone(range.start, range.end, source);
    case _ => StatementEmits(s, source, target);
  }

  /** The edits in source order are in order, and applying them is the translation. */
  lemma {:induction false} PlacedEmits(list: seq<Statement>, aliases: seq<string>, from: nat, to: nat, source: string,
      target: string)
    requires AllFit(list, from, to, source)
    ensures var edits := Placed(list, aliases, from, to, source, target);
      && Chain(edits, from, to) && Applied(edits, from, to, source) == EmitCell(list, aliases, from, to, source, target)
  {
    AllFitBounds(list, from, to, source);
    if list == [] {
      AppliedNone(from, to, source);
    } else if list[0].FunctionDecl? && aliases != [] {
      var r := At(list[0]);
      var e := Edit(list[0].id.start, list[0].id.end, aliases[0]);
      var rest := Placed(list[1..], aliases[1..], r.end, to, source, target);
      PlacedEmits(list[1..], aliases[1..], r.end, to, source, target);
      assert Fits(list[0], source);
      AllFitBounds(list[1..], r.end, to, source);
      AppliedOne(e, from, r.end, source);
      hide Fits, AllFit, JsSlice, Applied, Chain;
      AppliedJoins([e], rest, from, r.end, to, source);
    } else {
      var r := At(list[0]);
      var mine, rest := TopEdits(list[0], source, target), Placed(list[1..], aliases, r.end, to, source, target);
      TopEmits(list[0], source, target);
      PlacedEmits(list[1..], aliases, r.end, to, source, target);
      assert Fits(list[0], source);
      AllFitBounds(list[1..], r.end, to, source);
      hide Fits, TopEdits, EmitTop, JsSlice, Applied, Chain;
      AppliedExtends(mine, from, r.start, r.end, source);
      AppliedJoins(mine, rest, from, r.end, to, source);
    }
  }

  /** Edits in order are applied without complaint. */
  lemma {:induction false} ChainApplies(edits: seq<Edit>, from: nat, source: string)
    requires Chain(edits, from, |source|)
    ensures ApplyFrom(edits, from, source) == Ok(Applied(edits, from, |source|, source))
  {
    if edits != [] { ChainApplies(edits[1..], edits[0].end, source); }
  }

  // ---- Sorting ----

  lemma {:induction false} ChainStarts(edits: seq<Edit>, from: nat, to: nat)
    requires Chain(edits, from, to)
    ensures forall i :: 0 <= i < |edits| ==> from <= edits[i].start <= to
    ensures forall i, j :: 0 <= i < j < |edits| ==> edits[i].start <= edits[j].start
  {
    if edits != [] {
      ChainStarts(edits[1..], edits[0].end, to);
      ChainBounds(edits[1..], edits[0].end, to);
      forall i | 0 <= i < |edits| ensures from <= edits[i].start <= to {
        if i > 0 { assert edits[i] == edits[1..][i - 1]; }
      }
      forall i, j | 0 <= i < j < |edits| ensures edits[i].start <= edits[j].start {
        assert edits[j] == edits[1..][j - 1];
        if i > 0 { assert edits[i] == edits[1..][i - 1]; }
      }
    }
  }

  lemma {:induction false} InsertPast(a: seq<Edit>, b: seq<Edit>, e: Edit)
    requires forall i :: 0 <= i < |a| ==> a[i].start <= e.start
    ensures Insert(a + b, e) == a + Insert(b, e)
  {
    if a == [] {
      assert a + b == b;
    } else {
      assert (a + b)[0] == a[0] && (a + b)[1..] == a[1..] + b;
      InsertPast(a[1..], b, e);
    }
  }

  predicate InOrder(edits: seq<Edit>) {
    forall i, j :: 0 <= i < j < |edits| ==> edits[i].start <= edits[j].start
  }

  lemma {:induction false} SortedStays(done: seq<Edit>, edits: seq<Edit>, more: seq<Edit>)
    requires InOrder(done + edits)
    ensures SortInto(done, edits + more) == SortInto(done + edits, more)
    decreases edits
  {
    if edits == [] {
      assert edits + more == more && done + edits == done;
    } else {
      assert (edits + more)[0] == edits[0] && (edits + more)[1..] == edits[1..] + more;
      assert done + [edits[0]] + edits[1..] == done + edits;
      forall i | 0 <= i < |done| ensures done[i].start <= edits[0].start {
        assert (done + edits)[i] == done[i] && (done + edits)[|done|] == edits[0];
      }
      assert done + [] == done && Insert([], edits[0]) == [edits[0]];
      InsertPast(done, [], edits[0]);
      hide Insert, InOrder;
      SortedStays(done + [edits[0]], edits[1..], more);
    }
  }

  lemma {:induction false} FunctionsSplit(list: seq<Statement>)
    ensures AllFunctions(Functions(list))
  {
    if list != [] {
      FunctionsSplit(list[1..]);
      forall i | 0 <= i < |Functions(list)| ensures Functions(list)[i].FunctionDecl? {
        if list[0].FunctionDecl? && i > 0 { assert Functions(list)[i] == Functions(list[1..])[i - 1]; }
      }
    }
  }

  lemma {:induction false} FunctionsFit(list: seq<Statement>, from: nat, to: nat, source: string, k: nat)
    requires AllFit(list, from, to, source) && k < |Functions(list)|
    ensures Functions(list)[k].FunctionDecl? && from < Functions(list)[k].id.start < Functions(list)[k].id.end <= to
    decreases list
  {
    var r := At(list[0]);
    AllFitBounds(list[1..], r.end, to, source);
    if list[0].FunctionDecl? {
      if k == 0 { assert Fits(list[0], source); } else {
        assert Fits(list[0], source);
        FunctionsFit(list[1..], r.end, to, source, k - 1);
      }
    } else {
      assert Fits(list[0], source);
      FunctionsFit(list[1..], r.end, to, source, k);
    }
  }

  /** Sorting the next function's rename in puts it at the function. */
  lemma {:induction false} PlaceOne(list: seq<Statement>, aliases: seq<string>, alias: string, from: nat, to: nat,
      source: string, target: string)
    requires AllFit(list, from, to, source) && |aliases| < |Functions(list)| && Functions(list)[|aliases|].FunctionDecl?
    ensures var id := Functions(list)[|aliases|].id;
      Insert(Placed(list, aliases, from, to, source, target), Edit(id.start, id.end, alias))
        == Placed(list, aliases + [alias], from, to, source, target)
  {
    var id := Functions(list)[|aliases|].id;
    var e := Edit(id.start, id.end, alias);
    var r := At(list[0]);
    if list[0].FunctionDecl? && aliases == [] {
      assert aliases + [alias] == [alias] && Functions(list)[0] == list[0];
      PlaceHere(list, alias, from, to, source, target);
    } else if list[0].FunctionDecl? {
      assert Fits(list[0], source) && aliases + [alias] != [];
      assert Functions(list)[|aliases|] == Functions(list[1..])[|aliases| - 1];
      FunctionsFit(list[1..], r.end, to, source, |aliases| - 1);
      PlaceOne(list[1..], aliases[1..], alias, r.end, to, source, target);
      assert (aliases + [alias])[0] == aliases[0] && (aliases + [alias])[1..] == aliases[1..] + [alias];
      hide Fits, Insert, TopEdits;
      InsertPast([Edit(list[0].id.start, list[0].id.end, aliases[0])],
                 Placed(list[1..], aliases[1..], r.end, to, source, target), e);
    } else {
      var mine := TopEdits(list[0], source, target);
      FunctionsFit(list[1..], r.end, to, source, |aliases|);
      TopEmits(list[0], source, target);
      ChainStarts(mine, r.start, r.end);
      hide Fits, Insert, TopEdits, Chain, Applied, EmitTop;
      PlaceOne(list[1..], aliases, alias, r.end, to, source, target);
      InsertPast(mine, Placed(list[1..], aliases, r.end, to, source, target), e);
    }
  }

  lemma PlaceHere(list: seq<Statement>, alias: string, from: nat, to: nat, source: string, target: string)
    requires AllFit(list, from, to, source) && list != [] && list[0].FunctionDecl?
    ensures Insert(Placed(list, [], from, to, source, target), Edit(list[0].id.start, list[0].id.end, alias))
      == Placed(list, [alias], from, to, source, target)
  {
    var e := Edit(list[0].id.start, list[0].id.end, alias);
    var rest := Placed(list[1..], [], At(list[0]).end, to, source, target);
    assert Fits(list[0], source);
    PlacedEmits(list[1..], [], At(list[0]).end, to, source, target);
    ChainStarts(rest, At(list[0]).end, to);
    assert [alias][1..] == [] && [] + rest == rest && TopEdits(list[0], source, target) == [];
    hide Fits, TopEdits, Chain, Applied, EmitCell;
    assert Placed(list, [], from, to, source, target) == rest;
    assert Placed(list, [alias], from, to, source, target) == [e] + rest;
    hide Placed;
    assert Insert(rest, e) == [e] + rest;
  }

  /** Sorting in the renames that are left, one after another. */
  lemma {:induction false} PlaceAll(list: seq<Statement>, aliases: seq<string>, more: seq<string>, from: nat, to: nat,
      source: string, target: string)
    requires AllFit(list, from, to, source) && |aliases| + |more| == |Functions(list)|
    requires AllFunctions(Functions(list))
    ensures SortInto(Placed(list, aliases, from, to, source, target), AliasEdits(Functions(list)[|aliases|..], more))
      == Placed(list, aliases + more, from, to, source, target)
    decreases |more|
  {
    var left := Functions(list)[|aliases|..];
    if more == [] {
      assert aliases + more == aliases && left == [];
    } else {
      assert left[0] == Functions(list)[|aliases|] && left[1..] == Functions(list)[|aliases| + 1..];
      assert aliases + [more[0]] + more[1..] == aliases + more;
      hide AllFit, Functions, Placed, Insert;
      PlaceOne(list, aliases, more[0], from, to, source, target);
      PlaceAll(list, aliases + [more[0]], more[1..], from, to, source, target);
    }
  }

  /** However the edits are pushed, applying them never fails and yields the translation. */
  lemma CellTranslates(body: seq<Statement>, aliases: seq<string>, source: string, target: string)
    requires AllFit(body, 0, |source|, source) && |aliases| == |Functions(body)|
    requires AllFunctions(Functions(body))
    ensures var edits := Placed(body, [], 0, |source|, source, target) + AliasEdits(Functions(body), aliases);
      && Chain(Sorted(edits), 0, |source|)
      && ApplyFrom(Sorted(edits), 0, source) == Ok(EmitCell(body, aliases, 0, |source|, source, target))
  {
    var pushed := Placed(body, [], 0, |source|, source, target);
    PlacedEmits(body, [], 0, |source|, source, target);
    ChainStarts(pushed, 0, |source|);
    assert InOrder([] + pushed);
    assert [] + pushed == pushed && Functions(body)[0..] == Functions(body) && [] + aliases == aliases;
    SortedStays([], pushed, AliasEdits(Functions(body), aliases));
    PlaceAll(body, [], aliases, 0, |source|, source, target);
    PlacedEmits(body, aliases, 0, |source|, source, target);
    ChainApplies(Placed(body, aliases, 0, |source|, source, target), 0, source);
  }

  // ---- Aliases ----

  function Underscores(n: nat): string {
    if n == 0 then "" else Underscores(n - 1) + "_"
  }

  const ALIAS_PREFIX := "__browser_repl_function_"

  lemma {:induction false} UnderscoresDiffer(n: nat)
    ensures |Underscores(n)| == n
  {
    if n > 0 { UnderscoresDiffer(n - 1); }
  }

  /** The first name no one uses, adding underscores to the end. */
  method FindAlias(name: string, used: set<string>) returns (alias: string, ghost n: nat)
    ensures alias == ALIAS_PREFIX + name + Underscores(n) && alias !in used
    ensures forall k :: 0 <= k < n ==> ALIAS_PREFIX + name + Underscores(k) in used
  {
    ghost var base := ALIAS_PREFIX + name;
    alias, n := ALIAS_PREFIX + name, 0;
    assert base + Underscores(0) == base;
    ghost var tried: set<string> := {};
    while alias in used
      invariant alias == base + Underscores(n)
      invariant tried <= used && forall t :: t in tried ==> |t| < |base| + n
      invariant forall k :: 0 <= k < n ==> base + Underscores(k) in used
      decreases used - tried
    {
      UnderscoresDiffer(n);
      assert alias in used - tried;
      tried := tried + {alias};
      assert alias + "_" == base + Underscores(n + 1);
      alias, n := alias + "_", n + 1;
    }
  }

  function BindingNames(bindings: seq<Binding>): set<string> {
    set i | 0 <= i < |bindings| :: bindings[i].name
  }

  /** The aliases differ from one another and from every name the cell declares. */
  predicate AliasesFresh(aliases: seq<string>, names: set<string>) {
    && (forall i :: 0 <= i < |aliases| ==> aliases[i] !in names)
    && (forall i, j :: 0 <= i < j < |aliases| ==> aliases[i] != aliases[j])
  }

  // ---- Bindings ----

  function Bound(names: seq<string>, kind: BindingKind): seq<Binding> {
    if names == [] then [] else [Binding(names[0], kind)] + Bound(names[1..], kind)
  }

  function DeclBindings(list: seq<Declarator>, kind: BindingKind): seq<Binding> {
    if list == [] then [] else Bound(Names(list[0].id), kind) + DeclBindings(list[1..], kind)
  }

  function HeadBindings(h: Head): seq<Binding> {
    if h.VarHead? && h.decl.kind == Var then DeclBindings(h.decl.declarators, Var) else []
  }

  function StatementBindings(s: Statement): seq<Binding>
    decreases s
  {
    match s
    case Declaration(d) => if d.kind == Var then DeclBindings(d.declarators, Var) else []
    case Compound(children, _) => ListBindings(children)
    case For(init, body, _) => HeadBindings(init) + StatementBindings(body)
    case ForIn(left, body, _) => HeadBindings(left) + StatementBindings(body)
    case _ => []
  }

  function ListBindings(list: seq<Statement>): seq<Binding>
    decreases list
  {
    if list == [] then [] else StatementBindings(list[0]) + ListBindings(list[1..])
  }

  function TopBindings(s: Statement): seq<Binding> {
    match s
    case Declaration(d) => DeclBindings(d.declarators, d.kind)
    case FunctionDecl(name, _, _) => [Binding(name, Function)]
    case ClassDecl(name, _) => [Binding(name, Class)]
    case _ => StatementBindings(s)
  }

  function CellBindings(body: seq<Statement>): seq<Binding> {
    if body == [] then [] else TopBindings(body[0]) + CellBindings(body[1..])
  }

  // ---- The analysis as it runs ----

  const STATIC_IMPORT_ERROR :=
    "static import/export is not supported in the browser REPL; use dynamic import() instead"

  /** Which alias initializes a name: the last declaration's. */
  ghost predicate LastAlias(functions: seq<Statement>, aliases: seq<string>, h: Hoisted)
    requires |functions| == |aliases| && AllFunctions(functions)
  {
    exists i :: 0 <= i < |functions| && functions[i].name == h.name && aliases[i] == h.alias
                && forall j :: i < j < |functions| ==> functions[j].name != h.name
  }

  predicate NamesOnce(hoisted: seq<Hoisted>) {
    forall k, l :: 0 <= k < l < |hoisted| ==> hoisted[k].name != hoisted[l].name
  }

  ghost predicate AllNamed(functions: seq<Statement>, hoisted: seq<Hoisted>)
    requires AllFunctions(functions)
  {
    forall i :: 0 <= i < |functions| ==> exists k :: 0 <= k < |hoisted| && hoisted[k].name == functions[i].name
  }

  /** One entry for every function name, in order of first declaration, with its last alias. */
  ghost predicate HoistedRight(functions: seq<Statement>, aliases: seq<string>, hoisted: seq<Hoisted>)
    requires |functions| == |aliases| && AllFunctions(functions)
  {
    && (forall k :: 0 <= k < |hoisted| ==> LastAlias(functions, aliases, hoisted[k]))
    && NamesOnce(hoisted) && AllNamed(functions, hoisted)
  }

  /** Setting a map entry: an existing name keeps its place. */
  function Hoist(hoisted: seq<Hoisted>, name: string, alias: string): seq<Hoisted> {
    if hoisted == [] then [Hoisted(name, alias)]
    else if hoisted[0].name == name then [Hoisted(name, alias)] + hoisted[1..]
    else [hoisted[0]] + Hoist(hoisted[1..], name, alias)
  }

  lemma {:induction false} HoistSets(hoisted: seq<Hoisted>, name: string, alias: string) returns (at: nat)
    ensures var h := Hoist(hoisted, name, alias);
      && |hoisted| <= |h| <= |hoisted| + 1 && at < |h| && h[at] == Hoisted(name, alias)
      && (forall k :: 0 <= k < |hoisted| && k != at ==> h[k] == hoisted[k] && (k < at ==> h[k].name != name))
      && (at < |hoisted| ==> |h| == |hoisted| && hoisted[at].name == name)
      && (at == |hoisted| ==> |h| == |hoisted| + 1)
  {
    if hoisted == [] || hoisted[0].name == name {
      at := 0;
    } else {
      at := HoistSets(hoisted[1..], name, alias);
      at := at + 1;
    }
  }

  lemma HoistKeepsOnce(hoisted: seq<Hoisted>, name: string, alias: string)
    requires NamesOnce(hoisted)
    ensures NamesOnce(Hoist(hoisted, name, alias))
    ensures |hoisted| <= |Hoist(hoisted, name, alias)|
    ensures forall k :: 0 <= k < |hoisted| ==> Hoist(hoisted, name, alias)[k].name == hoisted[k].name
  {
    var h := Hoist(hoisted, name, alias);
    var at := HoistSets(hoisted, name, alias);
    hide Hoist;
    forall k, l | 0 <= k < l < |h| ensures h[k].name != h[l].name {
      if at < |hoisted| { assert hoisted[k].name != hoisted[l].name; }
    }
  }

  lemma LastAliasStays(functions: seq<Statement>, aliases: seq<string>, h: Hoisted, f: Statement, alias: string)
    requires |functions| == |aliases| && f.FunctionDecl? && f.name != h.name
    requires AllFunctions(functions)
    requires LastAlias(functions, aliases, h)
    ensures LastAlias(functions + [f], aliases + [alias], h)
  {
    var n, fs, als := |functions|, functions + [f], aliases + [alias];
    var i :| 0 <= i < n && functions[i].name == h.name && aliases[i] == h.alias
             && forall j :: i < j < n ==> functions[j].name != h.name;
    assert fs[i] == functions[i] && als[i] == aliases[i];
    forall j | i < j < |fs| ensures fs[j].name != h.name { if j < n { assert fs[j] == functions[j]; } }
  }

  lemma LastAliasNew(functions: seq<Statement>, aliases: seq<string>, f: Statement, alias: string)
    requires |functions| == |aliases| && f.FunctionDecl?
    requires AllFunctions(functions)
    ensures LastAlias(functions + [f], aliases + [alias], Hoisted(f.name, alias))
  {
    assert (functions + [f])[|functions|] == f && (aliases + [alias])[|functions|] == alias;
  }

  lemma AllNamedGrows(functions: seq<Statement>, hoisted: seq<Hoisted>, f: Statement, later: seq<Hoisted>)
    requires f.FunctionDecl? && AllFunctions(functions)
    requires AllNamed(functions, hoisted) && |hoisted| <= |later|
    requires forall k :: 0 <= k < |hoisted| ==> later[k].name == hoisted[k].name
    requires exists k :: 0 <= k < |later| && later[k].name == f.name
    ensures AllNamed(functions + [f], later)
  {
    forall i | 0 <= i < |functions + [f]|
      ensures exists k :: 0 <= k < |later| && later[k].name == (functions + [f])[i].name
    {
      if i < |functions| {
        assert (functions + [f])[i] == functions[i];
        var k :| 0 <= k < |hoisted| && hoisted[k].name == functions[i].name;
        assert later[k].name == functions[i].name;
      }
    }
  }

  lemma HoistKeeps(functions: seq<Statement>, aliases: seq<string>, hoisted: seq<Hoisted>, f: Statement, alias: string)
    requires |functions| == |aliases| && f.FunctionDecl?
    requires AllFunctions(functions)
    requires HoistedRight(functions, aliases, hoisted)
    ensures HoistedRight(functions + [f], aliases + [alias], Hoist(hoisted, f.name, alias))
  {
    var fs, als, h := functions + [f], aliases + [alias], Hoist(hoisted, f.name, alias);
    var at := HoistSets(hoisted, f.name, alias);
    HoistKeepsOnce(hoisted, f.name, alias);
    hide Hoist, LastAlias, AllNamed;
    forall k | 0 <= k < |h| ensures LastAlias(fs, als, h[k]) {
      if k == at {
        LastAliasNew(functions, aliases, f, alias);
      } else {
        assert h[k].name != h[at].name;
        LastAliasStays(functions, aliases, hoisted[k], f, alias);
      }
    }
    assert h[at].name == f.name;
    AllNamedGrows(functions, hoisted, f, h);
  }

  lemma {:induction false} AliasEditsGrow(functions: seq<Statement>, aliases: seq<string>, f: Statement, alias: string)
    requires |functions| == |aliases| && f.FunctionDecl?
    requires AllFunctions(functions)
    ensures AliasEdits(functions + [f], aliases + [alias])
      == AliasEdits(functions, aliases) + [Edit(f.id.start, f.id.end, alias)]
  {
    if functions == [] {
      assert functions + [f] == [f] && aliases + [alias] == [alias] && [f][1..] == [] && [alias][1..] == [];
    } else {
      AliasEditsGrow(functions[1..], aliases[1..], f, alias);
      assert (functions + [f])[1..] == functions[1..] + [f] && (aliases + [alias])[1..] == aliases[1..] + [alias];
    }
  }

  lemma FreshGrows(aliases: seq<string>, names: set<string>, used: set<string>, alias: string)
    requires AliasesFresh(aliases, names) && names <= used && alias !in used
    requires forall i :: 0 <= i < |aliases| ==> aliases[i] in used
    ensures AliasesFresh(aliases + [alias], names)
  {}

  /** Where the second pass stands after some of the functions. */
  ghost predicate Renamed(before: seq<Statement>, aliases: seq<string>, hoisted: seq<Hoisted>, names: set<string>,
      used: set<string>, pushed: seq<Edit>)
  {
    && AllFunctions(before) && |aliases| == |before| && AliasesFresh(aliases, names) && names <= used
    && (forall j :: 0 <= j < |aliases| ==> aliases[j] in used)
    && HoistedRight(before, aliases, hoisted) && pushed == AliasEdits(before, aliases)
  }

  lemma Concat<T>(a: seq<T>, b: seq<T>, c: seq<T>)
    ensures a + (b + c) == a + b + c
  {}

  class Analyzer {
    const source: string
    const target: string
    var bindings: seq<Binding>
    var edits: seq<Edit>

    constructor (source: string, target: string)
      ensures this.source == source && this.target == target && bindings == [] && edits == []
    {
      this.source, this.target, bindings, edits := source, target, [], [];
    }

    method AddVariableBindings(list: seq<Declarator>, kind: BindingKind)
      modifies this`bindings
      ensures bindings == old(bindings) + DeclBindings(list, kind)
    {
      var i := 0;
      while i < |list|
        invariant i <= |list|
        invariant bindings + DeclBindings(list[i..], kind) == old(bindings) + DeclBindings(list, kind)
      {
        assert list[i..][0] == list[i] && list[i..][1..] == list[i + 1..];
        bindings := bindings + Bound(Names(list[i].id), kind);
        i := i + 1;
      }
    }

    method VariableEdits(d: VarDecl, initialize: bool)
      requires DeclFits(d, source)
      modifies this`edits
      ensures edits == old(edits) + DeclEdits(d, source, initialize, target)
    {
      if d.declarators == [] { return; }
      edits := edits + [Edit(d.at.start, d.declarators[0].at.start, "")];
      ghost var all := DeclaratorEdits(d.declarators, d.kind, source, initialize, target);
      var i := 0;
      while i < |d.declarators|
        invariant i <= |d.declarators|
        invariant edits + DeclaratorEdits(d.declarators[i..], d.kind, source, initialize, target)
          == old(edits) + [Edit(d.at.start, d.declarators[0].at.start, "")] + all
      {
        var list := d.declarators[i..];
        assert list[0] == d.declarators[i] && list[1..] == d.declarators[i + 1..];
        assert DeclaratorFits(d.declarators[i], source);
        edits := edits + [Edit(list[0].at.start, list[0].at.end,
          DeclaratorText(list[0], d.kind, source, initialize, target))];
        i := i + 1;
      }
      assert d.declarators[i..] == [] && edits + [] == edits;
      Concat(old(edits), [Edit(d.at.start, d.declarators[0].at.start, "")], all);
      assert edits == old(edits) + ([Edit(d.at.start, d.declarators[0].at.start, "")] + all);
      if LacksSemicolon(d, source) { edits := edits + [Edit(d.at.end, d.at.end, ";")]; }
    }

    method AddHead(h: Head, single: bool)
      requires h.VarHead? ==> DeclFits(h.decl, source) && (single ==> h.decl.declarators != [])
      modifies this
      ensures edits == old(edits) + HeadEdits(h, single, source, target)
      ensures bindings == old(bindings) + HeadBindings(h)
    {
      if h.VarHead? && h.decl.kind == Var {
        AddVariableBindings(h.decl.declarators, Var);
        edits := edits + [Edit(h.decl.at.start, h.decl.at.end, HeadText(h, single, source, target))];
      }
    }

    method AddStatement(s: Statement)
      requires Fits(s, source)
      modifies this
      ensures edits == old(edits) + StatementEdits(s, source, target)
      ensures bindings == old(bindings) + StatementBindings(s)
      decreases s
    {
      hide DeclEdits, HeadEdits, ListEdits, DeclBindings, HeadBindings, ListBindings, DeclFits, AllFit;
      match s
      case Declaration(d) =>
        if d.kind == Var {
          AddVariableBindings(d.declarators, Var);
          VariableEdits(d, false);
        }
      case Compound(children, range) => AddStatements(children, range.start, range.end);
      case For(init, body, _) =>
        AddHead(init, false);
        AddStatement(body);
        Concat(old(edits), HeadEdits(init, false, source, target), StatementEdits(body, source, target));
        Concat(old(bindings), HeadBindings(init), StatementBindings(body));
      case ForIn(left, body, _) =>
        AddHead(left, true);
        AddStatement(body);
        Concat(old(edits), HeadEdits(left, true, source, target), StatementEdits(body, source, target));
        Concat(old(bindings), HeadBindings(left), StatementBindings(body));
      case _ =>
        assert edits + [] == edits && bindings + [] == bindings;
    }

    method AddStatements(list: seq<Statement>, from: nat, to: nat)
      requires AllFit(list, from, to, source)
      modifies this
      ensures edits == old(edits) + ListEdits(list, from, to, source, target)
      ensures bindings == old(bindings) + ListBindings(list)
      decreases list
    {
      var i, at := 0, from;
      while i < |list|
        invariant i <= |list| && AllFit(list[i..], at, to, source)
        invariant edits + ListEdits(list[i..], at, to, source, target) ==
          old(edits) + ListEdits(list, from, to, source, target)
        invariant bindings + ListBindings(list[i..]) == old(bindings) + ListBindings(list)
      {
        assert list[i..][0] == list[i] && list[i..][1..] == list[i + 1..];
        ghost var e, b := edits, bindings;
        AddStatement(list[i]);
        at := At(list[i]).end;
        i := i + 1;
        Concat(e, StatementEdits(list[i - 1], source, target), ListEdits(list[i..], at, to, source, target));
        Concat(b, StatementBindings(list[i - 1]), ListBindings(list[i..]));
      }
      assert list[i..] == [];
    }

    method AddTop(s: Statement)
      requires Fits(s, source)
      modifies this
      ensures edits == old(edits) + TopEdits(s, source, target)
      ensures bindings == old(bindings) + TopBindings(s)
    {
      match s
      case Declaration(d) =>
        AddVariableBindings(d.declarators, d.kind);
        VariableEdits(d, d.kind != Var);
      case FunctionDecl(name, _, _) =>
        bindings := bindings + [Binding(name, Function)];
        assert edits == old(edits) + [];
      case ClassDecl(name, range) =>
        bindings := bindings + [Binding(name, Class)];
        edits := edits + [Edit(range.start, range.end, ClassText(name, range, source, target))];
      case _ => AddStatement(s);
    }

    /** The first pass: everything but the renames. */
    method AddBody(body: seq<Statement>) returns (functions: seq<Statement>)
      requires AllFit(body, 0, |source|, source) && bindings == [] && edits == []
      modifies this
      ensures functions == Functions(body) && bindings == CellBindings(body)
      ensures edits == Placed(body, [], 0, |source|, source, target)
    {
      functions := [];
      var i := 0;
      ghost var at := 0;
      while i < |body|
        invariant i <= |body| && AllFit(body[i..], at, |source|, source)
        invariant edits + Placed(body[i..], [], at, |source|, source, target) ==
          Placed(body, [], 0, |source|, source, target)
        invariant bindings + CellBindings(body[i..]) == CellBindings(body)
        invariant functions + Functions(body[i..]) == Functions(body)
      {
        assert body[i..][0] == body[i] && body[i..][1..] == body[i + 1..];
        ghost var e, b, f := edits, bindings, functions;
        AddTop(body[i]);
        if body[i].FunctionDecl? { functions := functions + [body[i]]; }
        at := At(body[i]).end;
        i := i + 1;
        Concat(e, TopEdits(body[i - 1], source, target), Placed(body[i..], [], at, |source|, source, target));
        Concat(b, TopBindings(body[i - 1]), CellBindings(body[i..]));
      }
      assert body[i..] == [];
    }

    method RenameFunction(f: Statement, used: set<string>, hoisted: seq<Hoisted>, ghost names: set<string>,
        ghost before: seq<Statement>, ghost aliases: seq<string>, ghost pushed: seq<Edit>)
      returns (alias: string, later: seq<Hoisted>)
      requires f.FunctionDecl? && Renamed(before, aliases, hoisted, names, used, pushed)
      modifies this`edits
      ensures edits == old(edits) + [Edit(f.id.start, f.id.end, alias)]
      ensures Renamed(before + [f], aliases + [alias], later, names, used + {alias},
                      pushed + [Edit(f.id.start, f.id.end, alias)])
    {
      ghost var n;
      alias, n := FindAlias(f.name, used);
      hide HoistedRight, AliasEdits, AliasesFresh, Hoist;
      FreshGrows(aliases, names, used, alias);
      AliasEditsGrow(before, aliases, f, alias);
      HoistKeeps(before, aliases, hoisted, f, alias);
      edits := edits + [Edit(f.id.start, f.id.end, alias)];
      later := Hoist(hoisted, f.name, alias);
    }

    /** The second pass: every function declaration is renamed. */
    method RenameFunctions(functions: seq<Statement>, names: set<string>)
      returns (hoisted: seq<Hoisted>, ghost aliases: seq<string>)
      requires AllFunctions(functions)
      modifies this`edits
      ensures |aliases| == |functions| && AliasesFresh(aliases, names)
      ensures edits == old(edits) + AliasEdits(functions, aliases)
      ensures HoistedRight(functions, aliases, hoisted)
    {
      hoisted, aliases := [], [];
      var used, i := names, 0;
      ghost var pushed: seq<Edit> := [];
      assert functions[..0] == [] && Renamed([], [], [], names, names, []) && edits == old(edits) + pushed;
      while i < |functions|
        invariant i <= |functions| && Renamed(functions[..i], aliases, hoisted, names, used, pushed)
        invariant edits == old(edits) + pushed
      {
        hide Renamed;
        var alias;
        alias, hoisted := RenameFunction(functions[i], used, hoisted, names, functions[..i], aliases, pushed);
        assert functions[..i + 1] == functions[..i] + [functions[i]];
        ghost var e := Edit(functions[i].id.start, functions[i].id.end, alias);
        Concat(old(edits), pushed, [e]);
        used, aliases, pushed := used + {alias}, aliases + [alias], pushed + [e];
        i := i + 1;
      }
      assert functions[..i] == functions;
    }
  }

  predicate IsModuleForm(s: Statement) {
    s.ImportExport?
  }

  /** The analysis of a parsed cell. It fails only for imports and exports; otherwise its edits
      apply without overlap and give the translation of the tree, under aliases that clash with
      nothing the cell declares. */
  method AnalyzeCell(body: seq<Statement>, source: string, target: string)
    returns (result: Result<Analysis>, ghost aliases: seq<string>)
    requires AllFit(body, 0, |source|, source)
    ensures result.Err? <==> exists i :: 0 <= i < |body| && IsModuleForm(body[i])
    ensures result.Err? ==> result.message == STATIC_IMPORT_ERROR
    ensures result.Ok? ==>
      && result.value.source == source && result.value.bindings == CellBindings(body)
      && |aliases| == |Functions(body)| && AliasesFresh(aliases, BindingNames(CellBindings(body)))
      && AllFunctions(Functions(body))
      && HoistedRight(Functions(body), aliases, result.value.hoisted)
      && ApplyFrom(Sorted(result.value.edits), 0, source) == Ok(EmitCell(body, aliases, 0, |source|, source, target))
  {
    aliases := [];
    var i := 0;
    while i < |body|
      invariant i <= |body| && forall j :: 0 <= j < i ==> !IsModuleForm(body[j])
    {
      if IsModuleForm(body[i]) { return Err(STATIC_IMPORT_ERROR), []; }
      i := i + 1;
    }
    var analyzer := new Analyzer(source, target);
    var functions := analyzer.AddBody(body);
    FunctionsSplit(body);
    var hoisted;
    hoisted, aliases := analyzer.RenameFunctions(functions, BindingNames(analyzer.bindings));
    CellTranslates(body, aliases, source, target);
    result := Ok(Analysis(source, analyzer.bindings, analyzer.edits, hoisted));
  }

  // ---- Patterns that initialize ----

  /** A pattern with every name replaced by the place that initializes it. */
  function Retargeted(p: Pattern, target: string): Pattern
    decreases p
  {
    match p
    case Identifier(name) => Identifier(target + "[" + Quoted(name) + "]")
    case Member(_) => p
    case Assignment(left, right) => Assignment(Retargeted(left, target), right)
    case Rest(argument) => Rest(Retargeted(argument, target))
    case ArrayPattern(elements) => ArrayPattern(RetargetedElements(elements, target))
    case ObjectPattern(properties) => ObjectPattern(RetargetedProperties(properties, target))
  }

  function RetargetedElement(e: Element, target: string): Element
    decreases e
  {
    match e
    case Hole => Hole
    case Element(pattern) => Element(Retargeted(pattern, target))
  }

  function RetargetedElements(elements: seq<Element>, target: string): seq<Element>
    decreases elements
  {
    if elements == [] then []
    else [RetargetedElement(elements[0], target)] + RetargetedElements(elements[1..], target)
  }

  function RetargetedProperty(p: Property, target: string): Property
    decreases p
  {
    match p
    case RestProperty(argument) => RestProperty(Retargeted(argument, target))
    case KeyProperty(key, computed, value) => KeyProperty(key, computed, Retargeted(value, target))
  }

  function RetargetedProperties(properties: seq<Property>, target: string): seq<Property>
    decreases properties
  {
    if properties == [] then []
    else [RetargetedProperty(properties[0], target)] + RetargetedProperties(properties[1..], target)
  }

  /** Initializing writes to the places of the declared names, and differs in nothing else. */
  lemma {:induction false} InitializesNames(p: Pattern, source: string, target: string)
    requires PatternFits(p, source)
    ensures PatternFits(Retargeted(p, target), source)
    ensures GlobalPattern(p, source, true, target) == GlobalPattern(Retargeted(p, target), source, false, target)
    ensures |Names(Retargeted(p, target))| == |Names(p)|
    ensures forall i :: 0 <= i < |Names(p)| ==>
      Names(Retargeted(p, target))[i] == target + "[" + Quoted(Names(p)[i]) + "]"
    decreases p
  {
    match p
    case Identifier(_) =>
    case Member(_) =>
    case Assignment(left, _) => InitializesNames(left, source, target);
    case Rest(argument) => InitializesNames(argument, source, target);
    case ArrayPattern(elements) => InitializesElements(elements, source, target);
    case ObjectPattern(properties) => InitializesProperties(properties, source, target);
  }

  lemma {:induction false} InitializesElement(e: Element, source: string, target: string)
    requires ElementFits(e, source)
    ensures var r := RetargetedElement(e, target);
      && ElementFits(r, source) && ElementText(e, source, true, target) == ElementText(r, source, false, target)
      && |ElementName(r)| == |ElementName(e)|
      && forall i :: 0 <= i < |ElementName(r)| ==> ElementName(r)[i] == target + "[" + Quoted(ElementName(e)[i]) + "]"
    decreases e
  {
    if e.Element? { InitializesNames(e.pattern, source, target); }
  }

  lemma {:induction false} InitializesProperty(p: Property, source: string, target: string)
    requires PropertyFits(p, source)
    ensures var r := RetargetedProperty(p, target);
      && PropertyFits(r, source) && PropertyText(p, source, true, target) == PropertyText(r, source, false, target)
      && |PropertyName(r)| == |PropertyName(p)|
      && forall i :: 0 <= i < |PropertyName(r)| ==>
        PropertyName(r)[i] == target + "[" + Quoted(PropertyName(p)[i]) + "]"
    decreases p
  {
    match p
    case RestProperty(argument) => InitializesNames(argument, source, target);
    case KeyProperty(_, _, value) => InitializesNames(value, source, target);
  }

  lemma {:induction false} InitializesElements(elements: seq<Element>, source: string, target: string)
    requires forall i :: 0 <= i < |elements| ==> ElementFits(elements[i], source)
    ensures var r := RetargetedElements(elements, target);
      && (forall i :: 0 <= i < |r| ==> ElementFits(r[i], source))
      && ElementTexts(elements, source, true, target) == ElementTexts(r, source, false, target)
      && |ElementNames(r)| == |ElementNames(elements)|
      && forall i :: 0 <= i < |ElementNames(r)| ==>
           ElementNames(r)[i] == target + "[" + Quoted(ElementNames(elements)[i]) + "]"
    decreases elements
  {
    if elements != [] {
      assert ElementFits(elements[0], source);
      InitializesElement(elements[0], source, target);
      InitializesElements(elements[1..], source, target);
      var r := RetargetedElements(elements, target);
      assert r[0] == RetargetedElement(elements[0], target) && r[1..] == RetargetedElements(elements[1..], target);
      assert ElementFits(r[0], source);
      assert forall i :: 0 < i < |r| ==> r[i] == r[1..][i - 1];
    }
  }

  lemma {:induction false} InitializesProperties(properties: seq<Property>, source: string, target: string)
    requires forall i :: 0 <= i < |properties| ==> PropertyFits(properties[i], source)
    ensures var r := RetargetedProperties(properties, target);
      && (forall i :: 0 <= i < |r| ==> PropertyFits(r[i], source))
      && PropertyTexts(properties, source, true, target) == PropertyTexts(r, source, false, target)
      && |PropertyNames(r)| == |PropertyNames(properties)|
      && forall i :: 0 <= i < |PropertyNames(r)| ==>
           PropertyNames(r)[i] == target + "[" + Quoted(PropertyNames(properties)[i]) + "]"
    decreases properties
  {
    if properties != [] {
      assert PropertyFits(properties[0], source);
      InitializesProperty(properties[0], source, target);
      InitializesProperties(properties[1..], source, target);
      var r := RetargetedProperties(properties, target);
      assert r[0] == RetargetedProperty(properties[0], target)
        && r[1..] == RetargetedProperties(properties[1..], target);
      assert PropertyFits(r[0], source);
      assert forall i :: 0 < i < |r| ==> r[i] == r[1..][i - 1];
    }
  }
}
