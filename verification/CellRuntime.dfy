/**
  The persistent bindings of the REPL over sequences of cells (server/runtime/cell-runtime.ts).

  A cell is checked, then its bindings are prepared and registered and it gets a private
  initialization target, which is revoked when its evaluation ends, however it ends. What the
  cell's code does is a sequence of reads, writes and initializations in any order, from any
  code that still holds an accessor or a target.
*/
module CellRuntime {
  import opened Collections
  import opened CellAnalysis

  type CellId = nat

  datatype Value = Undefined | Other(id: nat)

  /** A binding's kind, whether it is initialized, and its value. */
  datatype Slot = Slot(kind: BindingKind, initialized: bool, value: Value)

  datatype Error = BuiltinError(name: string) | AlreadyDeclared(name: string)

  /** targets holds, for each cell still evaluating, the names it has yet to initialize. */
  datatype Store = Store(
    builtins: set<string>,
    declarations: map<string, BindingKind>,
    values: map<string, Slot>,
    targets: map<CellId, set<string>>,
    nextCell: CellId)

  predicate IsLexical(k: BindingKind) {
    k.Let? || k.Const? || k.Class?
  }

  predicate CanRedeclare(existing: BindingKind, incoming: BindingKind) {
    !IsLexical(existing) && !IsLexical(incoming)
  }

  function Start(builtins: set<string>): Store {
    Store(builtins, map[], map[], map[], 0)
  }

  // ---- The check ----

  /** What is known of a name when it is declared: from earlier cells, or else from this one. */
  function Existing(declarations: map<string, BindingKind>, cell: map<string, BindingKind>,
      name: string): Option<BindingKind>
  {
    if name in declarations then Some(declarations[name]) else if name in cell then Some(cell[name]) else None
  }

  function Kinds(bindings: seq<Binding>): map<string, BindingKind> {
    if bindings == [] then map[]
    else
      var last := bindings[|bindings| - 1];
      Kinds(bindings[..|bindings| - 1])[last.name := last.kind]
  }

  function CheckFrom(s: Store, bindings: seq<Binding>, i: nat): Option<Error>
    requires i <= |bindings|
    decreases |bindings| - i
  {
    if i == |bindings| then None
    else
      var b := bindings[i];
      var existing := Existing(s.declarations, Kinds(bindings[..i]), b.name);
      if b.name in s.builtins then Some(BuiltinError(b.name))
      else if existing.Some? && !CanRedeclare(existing.value, b.kind) then Some(AlreadyDeclared(b.name))
      else CheckFrom(s, bindings, i + 1)
  }

  function Check(s: Store, bindings: seq<Binding>): Option<Error> {
    CheckFrom(s, bindings, 0)
  }

  predicate FineAt(s: Store, bindings: seq<Binding>, i: nat)
    requires i < |bindings|
  {
    && bindings[i].name !in s.builtins
    && (bindings[i].name in s.declarations ==> CanRedeclare(s.declarations[bindings[i].name], bindings[i].kind))
    && forall j :: 0 <= j < i && bindings[j].name == bindings[i].name ==>
      CanRedeclare(bindings[j].kind, bindings[i].kind)
  }

  /** A cell may declare no built-in, and a name one of whose declarations is lexical only once. */
  predicate Declarable(s: Store, bindings: seq<Binding>) {
    forall i :: 0 <= i < |bindings| ==> FineAt(s, bindings, i)
  }

  // ---- What a cell does to the store ----

  /** prepareBindings for one name, whose last kind in the cell is k. */
  function Prepared(values: map<string, Slot>, name: string, k: BindingKind): map<string, Slot> {
    if name !in values then values[name := Slot(k, k.Var?, Undefined)]
    else if k.Function? || k.Class? then values[name := Slot(k, false, Undefined)]
    else values[name := values[name].(kind := k)]
  }

  function PreparedAll(values: map<string, Slot>, kinds: map<string, BindingKind>): map<string, Slot> {
    map name | name in values.Keys + kinds.Keys ::
      if name in kinds then Prepared(values, name, kinds[name])[name] else values[name]
  }

  function Registered(declarations: map<string, BindingKind>, kinds: map<string, BindingKind>): map<string, BindingKind>
  {
    declarations + kinds
  }

  function Pending(bindings: seq<Binding>): set<string> {
    set i | 0 <= i < |bindings| && !bindings[i].kind.Var? :: bindings[i].name
  }

  function Begin(s: Store, bindings: seq<Binding>): Store {
    if Check(s, bindings).Some? then s.(nextCell := s.nextCell + 1)
    else
      s.(values := PreparedAll(s.values, Kinds(bindings)), declarations := Registered(s.declarations, Kinds(bindings)),
         targets := s.targets[s.nextCell := Pending(bindings)], nextCell := s.nextCell + 1)
  }

  /** A cell that fails to parse, build or link. */
  function Failed(s: Store): Store {
    s.(nextCell := s.nextCell + 1)
  }

  /** A write through a cell's target; a revoked target, an unknown name and a second write throw. */
  function Initialize(s: Store, cell: CellId, name: string, value: Value): Store {
    if cell !in s.targets || name !in s.targets[cell] || name !in s.values then s
    else
      s.(targets := s.targets[cell := s.targets[cell] - {name}],
         values := s.values[name := s.values[name].(value := value, initialized := true)])
  }

  /** A write through the global accessor; None of it happens when the accessor throws. */
  function Assign(s: Store, name: string, value: Value): Store {
    if name !in s.values then s
    else
      var slot := s.values[name];
      if (!slot.kind.Var? && !slot.initialized) || (slot.kind.Const? && slot.initialized) then s
      else s.(values := s.values[name := slot.(value := value, initialized := true)])
  }

  /** A read through the global accessor; None when it throws. */
  function Read(s: Store, name: string): Option<Value> {
    if name in s.values && s.values[name].initialized then Some(s.values[name].value) else None
  }

  function End(s: Store, cell: CellId): Store {
    s.(targets := s.targets - {cell})
  }

  datatype Event =
    | EvFailed
    | EvBegin(bindings: seq<Binding>)
    | EvInitialize(cell: CellId, name: string, value: Value)
    | EvAssign(name: string, value: Value)
    | EvEnd(cell: CellId)

  function Step(s: Store, e: Event): Store {
    match e
    case EvFailed => Failed(s)
    case EvBegin(bindings) => Begin(s, bindings)
    case EvInitialize(cell, name, value) => Initialize(s, cell, name, value)
    case EvAssign(name, value) => Assign(s, name, value)
    case EvEnd(cell) => End(s, cell)
  }

  ghost predicate Follows(s: Store, v: Store) {
    exists e :: v == Step(s, e)
  }

  ghost predicate IsRun(run: seq<Store>) {
    && run != [] && (exists builtins :: run[0] == Start(builtins))
    && forall i :: 0 < i < |run| ==> Follows(run[i - 1], run[i])
  }

  // ---- The check accepts exactly the declarable cells ----

  predicate LastOf(bindings: seq<Binding>, i: int, name: string) {
    0 <= i < |bindings| && bindings[i].name == name && forall j :: i < j < |bindings| ==> bindings[j].name != name
  }

  /** Every name declared is listed, with the kind of its last declaration. */
  lemma {:induction false} KindOf(bindings: seq<Binding>, name: string) returns (i: int)
    ensures name in Kinds(bindings) <==> exists j :: 0 <= j < |bindings| && bindings[j].name == name
    ensures name in Kinds(bindings) ==> LastOf(bindings, i, name) && bindings[i].kind == Kinds(bindings)[name]
  {
    i := -1;
    if bindings != [] {
      var n := |bindings| - 1;
      i := KindOf(bindings[..n], name);
      if bindings[n].name == name {
        i := n;
      } else if name in Kinds(bindings) {
        assert bindings[i] == bindings[..n][i];
        forall j | i < j < |bindings| ensures bindings[j].name != name {
          if j < n { assert bindings[..n][j] == bindings[j]; }
        }
      } else {
        forall j | 0 <= j < |bindings| ensures bindings[j].name != name {
          if j < n { assert bindings[..n][j] == bindings[j]; }
        }
      }
    }
  }

  lemma FineIsChecked(s: Store, bindings: seq<Binding>, i: nat)
    requires i < |bindings| && forall j :: 0 <= j < i ==> FineAt(s, bindings, j)
    ensures var existing := Existing(s.declarations, Kinds(bindings[..i]), bindings[i].name);
      FineAt(s, bindings, i) <==>
        bindings[i].name !in s.builtins && (existing.Some? ==> CanRedeclare(existing.value, bindings[i].kind))
  {
    var b, before := bindings[i], bindings[..i];
    var k := KindOf(before, b.name);
    hide Kinds;
    if b.name in Kinds(before) {
      assert bindings[k] == before[k] && FineAt(s, bindings, k);
      forall j | k < j < i ensures bindings[j].name != b.name { assert before[j] == bindings[j]; }
    } else {
      forall j | 0 <= j < i ensures bindings[j].name != b.name { assert before[j] == bindings[j]; }
    }
  }

  lemma {:induction false} CheckFromIff(s: Store, bindings: seq<Binding>, i: nat)
    requires i <= |bindings| && forall j :: 0 <= j < i ==> FineAt(s, bindings, j)
    ensures CheckFrom(s, bindings, i).None? <==> forall j :: 0 <= j < |bindings| ==> FineAt(s, bindings, j)
    decreases |bindings| - i
  {
    if i < |bindings| {
      FineIsChecked(s, bindings, i);
      if FineAt(s, bindings, i) { CheckFromIff(s, bindings, i + 1); }
    }
  }

  /** The check accepts a cell exactly when its names may be declared. */
  lemma CheckIff(s: Store, bindings: seq<Binding>)
    ensures Check(s, bindings).None? <==> Declarable(s, bindings)
  {
    CheckFromIff(s, bindings, 0);
  }

  // ---- What every run keeps ----

  /** Both tables hold the same names with the same kinds. */
  predicate SameTables(s: Store) {
    s.declarations.Keys == s.values.Keys && forall n :: n in s.values ==> s.values[n].kind == s.declarations[n]
  }

  /** A lexical name waits for one cell only, and is not initialized while it waits. */
  predicate PendingOk(s: Store) {
    && (forall c :: c in s.targets ==> c < s.nextCell)
    && (forall c, n :: c in s.targets && n in s.targets[c] ==>
          n in s.values && (IsLexical(s.values[n].kind) ==> !s.values[n].initialized))
    && (forall c, d, n :: c in s.targets && d in s.targets && n in s.targets[c] && n in s.targets[d] ==>
          n in s.values && IsLexical(s.values[n].kind) ==> c == d)
  }

  predicate Inv(s: Store) {
    SameTables(s) && PendingOk(s)
  }

  /** Lexical bindings keep their kind, and an initialized const its value. */
  predicate Lasting(s: Store, v: Store) {
    forall n :: n in s.values && IsLexical(s.values[n].kind) ==>
      && n in v.values && v.values[n].kind == s.values[n].kind
      && (s.values[n].kind.Const? && s.values[n].initialized ==> v.values[n] == s.values[n])
  }

  /** A lexical binding whose initializer did not complete: no cell can initialize it any more. */
  predicate Dead(s: Store, n: string) {
    && n in s.values && IsLexical(s.values[n].kind) && !s.values[n].initialized
    && forall c :: c in s.targets ==> n !in s.targets[c]
  }

  /** What an accepted cell does to one name. */
  predicate Declared(s: Store, v: Store, kinds: map<string, BindingKind>, pending: set<string>, n: string) {
    && (n in v.values <==> n in s.values || n in kinds) && (n in v.declarations <==> n in s.declarations || n in kinds)
    && (n in pending ==> n in kinds)
    && (n !in kinds && n in s.values ==> v.values[n] == s.values[n])
    && (n !in kinds && n in s.declarations ==> v.declarations[n] == s.declarations[n])
    && (n in kinds ==> v.values[n].kind == v.declarations[n] == kinds[n])
    && (n in kinds && IsLexical(kinds[n]) ==> n !in s.declarations && !v.values[n].initialized)
    && (n in kinds && n in s.declarations ==> !IsLexical(s.declarations[n]))
  }

  lemma BeginDeclares(s: Store, bindings: seq<Binding>, n: string)
    requires SameTables(s) && Check(s, bindings).None?
    ensures Declared(s, Begin(s, bindings), Kinds(bindings), Pending(bindings), n)
  {
    CheckIff(s, bindings);
    var i := KindOf(bindings, n);
    hide Kinds, CheckFrom;
    if n in Kinds(bindings) { assert FineAt(s, bindings, i); }
  }

  lemma DeclaredKeeps(s: Store, v: Store, kinds: map<string, BindingKind>, pending: set<string>)
    requires Inv(s) && forall n :: Declared(s, v, kinds, pending, n)
    requires v.targets == s.targets[s.nextCell := pending] && v.nextCell == s.nextCell + 1
    ensures SameTables(v) && PendingOk(v)
  {
    assert SameTables(v) by {
      forall n ensures n in v.values <==> n in v.declarations { assert Declared(s, v, kinds, pending, n); }
      forall n | n in v.values ensures v.values[n].kind == v.declarations[n] {
        assert Declared(s, v, kinds, pending, n);
      }
    }
    forall c, n | c in v.targets && n in v.targets[c]
      ensures n in v.values && (IsLexical(v.values[n].kind) ==> !v.values[n].initialized)
    {
      assert Declared(s, v, kinds, pending, n);
    }
    forall c, d, n | c in v.targets && d in v.targets && n in v.targets[c] && n in v.targets[d]
      ensures n in v.values && IsLexical(v.values[n].kind) ==> c == d
    {
      assert Declared(s, v, kinds, pending, n);
    }
  }

  lemma DeclaredLasts(s: Store, v: Store, kinds: map<string, BindingKind>, pending: set<string>)
    requires SameTables(s) && forall n :: Declared(s, v, kinds, pending, n)
    requires v.targets == s.targets[s.nextCell := pending]
    ensures Lasting(s, v) && forall n :: Dead(s, n) ==> Dead(v, n)
  {
    forall n | n in s.values && IsLexical(s.values[n].kind)
      ensures n !in kinds && n !in pending && n in v.values && v.values[n] == s.values[n]
    {
      assert Declared(s, v, kinds, pending, n);
    }
  }

  lemma BeginKeeps(s: Store, bindings: seq<Binding>)
    requires Inv(s)
    ensures Inv(Begin(s, bindings)) && Lasting(s, Begin(s, bindings))
    ensures forall n :: Dead(s, n) ==> Dead(Begin(s, bindings), n)
  {
    if Check(s, bindings).None? {
      var v := Begin(s, bindings);
      assert v.targets == s.targets[s.nextCell := Pending(bindings)] && v.nextCell == s.nextCell + 1;
      forall n ensures Declared(s, v, Kinds(bindings), Pending(bindings), n) { BeginDeclares(s, bindings, n); }
      hide Declared, Kinds, Pending, CheckFrom, Begin;
      DeclaredKeeps(s, v, Kinds(bindings), Pending(bindings));
      DeclaredLasts(s, v, Kinds(bindings), Pending(bindings));
    }
  }

  lemma InitializeKeeps(s: Store, cell: CellId, name: string, value: Value)
    requires Inv(s)
    ensures Inv(Initialize(s, cell, name, value)) && Lasting(s, Initialize(s, cell, name, value))
    ensures forall n :: Dead(s, n) ==> Dead(Initialize(s, cell, name, value), n)
  {}

  lemma StepKeeps(s: Store, e: Event)
    requires Inv(s)
    ensures Inv(Step(s, e)) && Lasting(s, Step(s, e))
    ensures forall n :: Dead(s, n) ==> Dead(Step(s, e), n)
  {
    match e
    case EvBegin(bindings) => BeginKeeps(s, bindings);
    case EvInitialize(cell, name, value) => InitializeKeeps(s, cell, name, value);
    case _ =>
  }

  lemma {:induction false} RunKeeps(run: seq<Store>)
    requires IsRun(run)
    ensures Inv(run[|run| - 1])
  {
    var last := |run| - 1;
    if last == 0 {
    } else {
      assert IsRun(run[..last]) by {
        forall i | 0 < i < last ensures Follows(run[..last][i - 1], run[..last][i]) {
          assert Follows(run[i - 1], run[i]);
        }
      }
      RunKeeps(run[..last]);
      assert Follows(run[last - 1], run[last]);
      var e :| run[last] == Step(run[last - 1], e);
      hide Step, Inv;
      StepKeeps(run[last - 1], e);
    }
  }

  /** Over any run, an initialized const never changes, lexical names keep their kind, and a
      lexical binding whose initializer did not complete stays uninitialized. */
  lemma {:induction false} BindingsLast(run: seq<Store>, i: nat, j: nat)
    requires IsRun(run) && i <= j < |run|
    ensures Lasting(run[i], run[j])
    ensures forall n :: Dead(run[i], n) ==> Dead(run[j], n)
    decreases j - i
  {
    hide Step, Inv, Dead, Lasting;
    if i < j {
      BindingsLast(run, i, j - 1);
      PrefixIsRun(run, j);
      RunKeeps(run[..j]);
      assert Follows(run[j - 1], run[j]);
      var e :| run[j] == Step(run[j - 1], e);
      StepKeeps(run[j - 1], e);
      LastingTransitive(run[i], run[j - 1], run[j]);
    } else {
      LastingReflexive(run[i]);
    }
  }

  lemma PrefixIsRun(run: seq<Store>, n: nat)
    requires IsRun(run) && 0 < n <= |run|
    ensures IsRun(run[..n])
  {
    forall k | 0 < k < n ensures Follows(run[..n][k - 1], run[..n][k]) { assert Follows(run[k - 1], run[k]); }
  }

  lemma LastingReflexive(s: Store)
    ensures Lasting(s, s)
  {}

  lemma LastingTransitive(s: Store, v: Store, w: Store)
    requires Lasting(s, v) && Lasting(v, w)
    ensures Lasting(s, w)
  {}

  /** A rejected cell changes nothing. */
  lemma RejectedChangesNothing(s: Store, bindings: seq<Binding>)
    requires !Declarable(s, bindings)
    ensures Begin(s, bindings) == s.(nextCell := s.nextCell + 1)
  {
    CheckIff(s, bindings);
  }

  /** Once a cell has ended, what it left pending is dead. */
  lemma UnfinishedIsDead(s: Store, cell: CellId, n: string)
    requires Inv(s) && cell in s.targets && n in s.targets[cell] && IsLexical(s.values[n].kind)
    ensures Dead(End(s, cell), n)
  {}

  /** What an accepted cell finds prepared, by the last kind of each name: a var that is declared
      again keeps its value, a function or class starts over, a new var is undefined and every
      other new name uninitialized; what the cell does not name stays; and exactly the names
      declared other than as var wait for the cell. */
  lemma BeginPrepares(s: Store, bindings: seq<Binding>, name: string, i: int)
    requires Inv(s) && Check(s, bindings).None?
    requires if name in Kinds(bindings) then LastOf(bindings, i, name)
             else forall j :: 0 <= j < |bindings| ==> bindings[j].name != name
    ensures var v := Begin(s, bindings);
      && s.nextCell in v.targets && v.nextCell == s.nextCell + 1
      && (name in v.targets[s.nextCell] <==>
            exists j :: 0 <= j < |bindings| && bindings[j].name == name && !bindings[j].kind.Var?)
      && if name !in Kinds(bindings) then
           && (name in v.values <==> name in s.values)
           && (name in s.values ==> v.values[name] == s.values[name])
         else
           var k := bindings[i].kind;
           && name in v.values && v.values[name].kind == k && name in v.declarations && v.declarations[name] == k
           && (name in s.values && k.Var? ==>
                 v.values[name].value == s.values[name].value
                 && v.values[name].initialized == s.values[name].initialized)
           && (name in s.values && !k.Var? ==> v.values[name] == Slot(k, false, Undefined))
           && (name !in s.values ==> v.values[name] == Slot(k, k.Var?, Undefined))
  {
    CheckIff(s, bindings);
    var at := KindOf(bindings, name);
    hide Kinds, CheckFrom;
    if name in Kinds(bindings) {
      assert i == at && FineAt(s, bindings, i);
    }
  }

  /** A name's value, and whether it is initialized, change only by an initialization through
      the target of a cell that waits for it, by a write that its accessor allows, or by a cell
      that declares it as a function or class; the first two set exactly the value given. */
  lemma OnlyWritesChange(s: Store, e: Event, n: string)
    requires Inv(s) && n in s.values
    ensures var v := Step(s, e);
      && n in v.values
      && (e.EvInitialize? && e.name == n && e.cell in s.targets && n in s.targets[e.cell] ==>
            v.values[n].initialized && v.values[n].value == e.value && n !in v.targets[e.cell])
      && (e.EvAssign? && e.name == n
          && (s.values[n].kind.Var? || (s.values[n].initialized && !s.values[n].kind.Const?)) ==>
            v.values[n].initialized && v.values[n].value == e.value)
      && (v.values[n].value != s.values[n].value || v.values[n].initialized != s.values[n].initialized ==>
            || (e.EvInitialize? && e.name == n && e.cell in s.targets && n in s.targets[e.cell])
            || (e.EvAssign? && e.name == n
                && (s.values[n].kind.Var? || (s.values[n].initialized && !s.values[n].kind.Const?)))
            || (e.EvBegin? && exists j :: LastOf(e.bindings, j, n) && !e.bindings[j].kind.Var?))
  {
    if e.EvBegin? && Check(s, e.bindings).None? {
      var i := KindOf(e.bindings, n);
      if n !in Kinds(e.bindings) {
        assert forall j :: 0 <= j < |e.bindings| ==> e.bindings[j].name != n;
      }
      hide Kinds, CheckFrom, Begin;
      BeginPrepares(s, e.bindings, n, i);
    }
  }

  /** A name reads what was written last: a read throws until something is, a write that is not
      allowed changes no read, and neither does the end of a cell or one that fails. */
  lemma ReadsBack(s: Store, e: Event, n: string)
    requires Inv(s) && !e.EvBegin?
    ensures n !in s.values ==> Read(Step(s, e), n) == None
    ensures n in s.values ==>
      var allowed := match e
        case EvAssign(name, _) =>
          name == n && (s.values[n].kind.Var? || (s.values[n].initialized && !s.values[n].kind.Const?))
        case EvInitialize(cell, name, _) => name == n && cell in s.targets && n in s.targets[cell]
        case _ => false;
      Read(Step(s, e), n) ==
        if allowed then Some(e.value) else if s.values[n].initialized then Some(s.values[n].value) else None
  {}

  /** Cells are numbered in the order they are begun, also those that are rejected or fail. */
  lemma CellsAreNumbered(s: Store, e: Event)
    ensures Step(s, e).nextCell == s.nextCell + (if e.EvBegin? || e.EvFailed? then 1 else 0)
  {
    if e.EvBegin? { CheckIff(s, e.bindings); }
    hide Check, Kinds;
  }

  /** A lexical name whose cell ended before initializing it stays in the temporal dead zone in
      every continuation of the run: reads and writes throw, no cell initializes it, and every
      cell that declares it again is rejected. */
  lemma UnfinishedStaysUnusable(run: seq<Store>, i: nat, j: nat, cell: CellId, n: string)
    requires IsRun(run) && i < j < |run| && run[i + 1] == End(run[i], cell)
    requires cell in run[i].targets && n in run[i].targets[cell]
    requires n in run[i].values && IsLexical(run[i].values[n].kind)
    ensures Read(run[j], n).None?
    ensures forall value :: Assign(run[j], n, value) == run[j]
    ensures forall c, value :: Initialize(run[j], c, n, value) == run[j]
    ensures forall bindings: seq<Binding>, k :: 0 <= k < |bindings| && bindings[k].name == n ==>
      Check(run[j], bindings).Some?
  {
    PrefixIsRun(run, i + 1);
    RunKeeps(run[..i + 1]);
    UnfinishedIsDead(run[i], cell, n);
    BindingsLast(run, i + 1, j);
    PrefixIsRun(run, j + 1);
    RunKeeps(run[..j + 1]);
    hide IsRun;
    forall bindings: seq<Binding>, k | 0 <= k < |bindings| && bindings[k].name == n
      ensures Check(run[j], bindings).Some?
    {
      CheckIff(run[j], bindings);
      assert !FineAt(run[j], bindings, k);
    }
  }

  // ---- The runtime ----

  class CellRuntime {
    const builtinNames: set<string>
    var declarations: map<string, BindingKind>
    var values: map<string, Slot>
    var targets: map<CellId, set<string>>
    var sequence: nat

    function View(): Store
      reads this
    {
      Store(builtinNames, declarations, values, targets, sequence)
    }

    constructor (builtinNames: set<string>)
      ensures View() == Start(builtinNames)
    {
      this.builtinNames := builtinNames;
      declarations, values, targets, sequence := map[], map[], map[], 0;
    }

    method Precheck(bindings: seq<Binding>) returns (error: Option<Error>)
      ensures error == Check(View(), bindings)
    {
      var cell, i := map[], 0;
      while i < |bindings|
        invariant i <= |bindings| && cell == Kinds(bindings[..i])
        invariant Check(View(), bindings) == CheckFrom(View(), bindings, i)
      {
        var b := bindings[i];
        if b.name in builtinNames { return Some(BuiltinError(b.name)); }
        var existing := Existing(declarations, cell, b.name);
        if existing.Some? && !CanRedeclare(existing.value, b.kind) { return Some(AlreadyDeclared(b.name)); }
        assert bindings[..i + 1][..i] == bindings[..i];
        cell := cell[b.name := b.kind];
        i := i + 1;
      }
      error := None;
    }

    method Register(bindings: seq<Binding>)
      modifies this`declarations
      ensures declarations == Registered(old(declarations), Kinds(bindings))
    {
      var i := 0;
      while i < |bindings|
        invariant i <= |bindings| && declarations == old(declarations) + Kinds(bindings[..i])
      {
        assert bindings[..i + 1][..i] == bindings[..i];
        declarations := declarations[bindings[i].name := bindings[i].kind];
        i := i + 1;
      }
      assert bindings[..i] == bindings;
    }

    method PrepareBindings(bindings: seq<Binding>)
      modifies this`values
      ensures values == PreparedAll(old(values), Kinds(bindings))
    {
      var current, i := map[], 0;
      while i < |bindings|
        invariant i <= |bindings| && current == Kinds(bindings[..i])
      {
        assert bindings[..i + 1][..i] == bindings[..i];
        current := current[bindings[i].name := bindings[i].kind];
        i := i + 1;
      }
      assert bindings[..i] == bindings;
      var todo := current.Keys;
      hide Kinds;
      while todo != {}
        invariant todo <= current.Keys && values.Keys == old(values.Keys) + (current.Keys - todo)
        invariant forall n :: n in values ==>
          values[n] == if n in current && n !in todo then Prepared(old(values), n, current[n])[n] else old(values)[n]
        decreases todo
      {
        var name :| name in todo;
        todo := todo - {name};
        values := Prepared(values, name, current[name]);
      }
      assert values == PreparedAll(old(values), current);
    }

    /** A checked cell that has been built and linked starts to evaluate. */
    method StartCell(bindings: seq<Binding>) returns (cell: CellId, error: Option<Error>)
      modifies this
      ensures View() == Begin(old(View()), bindings)
      ensures cell == old(sequence) && error == Check(old(View()), bindings)
    {
      cell := sequence;
      error := Precheck(bindings);
      hide CheckFrom, Kinds;
      sequence := sequence + 1;
      if error.Some? { return; }
      PrepareBindings(bindings);
      Register(bindings);
      targets := targets[cell := set i | 0 <= i < |bindings| && !bindings[i].kind.Var? :: bindings[i].name];
    }

    /** Writing through the initialization target of a cell. */
    method SetInitial(cell: CellId, name: string, value: Value) returns (ok: bool)
      modifies this`values, this`targets
      ensures View() == Initialize(old(View()), cell, name, value)
      ensures ok == (cell in old(targets) && name in old(targets)[cell] && name in old(values))
    {
      ok := cell in targets && name in targets[cell] && name in values;
      if ok {
        targets := targets[cell := targets[cell] - {name}];
        values := values[name := values[name].(value := value, initialized := true)];
      }
    }

    method SetGlobal(name: string, value: Value) returns (ok: bool)
      modifies this`values
      ensures View() == Assign(old(View()), name, value)
      ensures ok ==> name in values && values[name].initialized && values[name].value == value
      ensures !ok ==> View() == old(View())
    {
      ok := false;
      if name !in values { return; }
      var slot := values[name];
      if !slot.kind.Var? && !slot.initialized { return; }
      if slot.kind.Const? && slot.initialized { return; }
      values := values[name := slot.(value := value, initialized := true)];
      ok := true;
    }

    method GetGlobal(name: string) returns (value: Option<Value>)
      ensures value == Read(View(), name)
    {
      value := None;
      if name in values && values[name].initialized { value := Some(values[name].value); }
    }

    method EndCell(cell: CellId)
      modifies this`targets
      ensures View() == End(old(View()), cell)
    {
      targets := targets - {cell};
    }
  }
}
