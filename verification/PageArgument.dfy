/**
  Page-function arguments: serialization of a value over a heap that may share and may loop,
  and its revival on the other side (server/runtime/page-evaluation.ts).

  The heap is finite and closed; arrays have no holes and reading a property runs no code.
  Objects list their own enumerable string keys in order. The text the payload travels as is
  not modelled.
*/
module PageArgument {
  type Ref = nat

  datatype Number = NaN | PositiveInfinity | NegativeInfinity | NegativeZero | Finite(value: real)

  datatype Value =
    | Undefined
    | Null
    | Boolean(flag: bool)
    | String(text: string)
    | Number(number: Number)
    | BigInt(integer: int)
    | Reference(ref: Ref)
    | Unsupported

  datatype Object =
    | Array(items: seq<Value>)
    | Plain(keys: seq<string>, values: seq<Value>)
    | Exotic

  type Heap = map<Ref, Object>

  datatype Encoded = Literal(value: real) | Word(word: string)

  datatype Serialized =
    | SUndefined
    | SNull
    | SBoolean(flag: bool)
    | SString(text: string)
    | SNumber(encoded: Encoded)
    | SBigInt(digits: string)
    | SArray(items: seq<Serialized>)
    | SObject(keys: seq<string>, values: seq<Serialized>)

  /** A value that shares nothing. */
  datatype Tree =
    | TUndefined
    | TNull
    | TBoolean(flag: bool)
    | TString(text: string)
    | TNumber(number: Number)
    | TBigInt(integer: int)
    | TArray(items: seq<Tree>)
    | TObject(keys: seq<string>, values: seq<Tree>)

  datatype Failure = HasUnsupported | HasCycle | NotPlain

  datatype Result<+T> = Ok(value: T) | Err(failure: Failure)

  function Members(o: Object): seq<Value> {
    match o
    case Array(items) => items
    case Plain(_, values) => values
    case Exotic => []
  }

  /** Every reference leads to an object, and every key has a value. */
  predicate Closed(heap: Heap, v: Value) {
    v.Reference? ==> v.ref in heap
  }

  predicate ClosedHeap(heap: Heap) {
    forall r :: r in heap ==>
      && (heap[r].Plain? ==> |heap[r].keys| == |heap[r].values|)
      && forall i :: 0 <= i < |Members(heap[r])| ==> Closed(heap, Members(heap[r])[i])
  }

  // ---- Big integers as decimal text ----

  function Digit(d: nat): (c: char)
    requires d < 10
    ensures '0' <= c <= '9' && DigitValue(c) == d
  {
    '0' + d as char
  }

  function DigitValue(c: char): nat
    requires '0' <= c <= '9'
  {
    c as nat - '0' as nat
  }

  function Decimal(n: nat): string {
    if n < 10 then [Digit(n)] else Decimal(n / 10) + [Digit(n % 10)]
  }

  function DecimalInt(n: int): string {
    if n < 0 then "-" + Decimal(-n) else Decimal(n)
  }

  predicate AllDigits(s: string) {
    forall i :: 0 <= i < |s| ==> '0' <= s[i] <= '9'
  }

  function ParseNat(s: string): nat
    requires AllDigits(s)
  {
    if s == "" then 0 else 10 * ParseNat(s[..|s| - 1]) + DigitValue(s[|s| - 1])
  }

  /** None when the text is not a decimal integer. */
  function ParseInt(s: string): Result<int> {
    if s != "" && AllDigits(s) then Ok(ParseNat(s))
    else if |s| > 1 && s[0] == '-' && AllDigits(s[1..]) then Ok(-(ParseNat(s[1..]) as int))
    else Err(HasUnsupported)
  }

  lemma {:induction false} DecimalParses(n: nat)
    ensures Decimal(n) != "" && AllDigits(Decimal(n)) && ParseNat(Decimal(n)) == n
  {
    if n < 10 {
      assert Decimal(n)[..0] == "";
    } else {
      DecimalParses(n / 10);
      var last := Digit(n % 10);
      assert Decimal(n)[..|Decimal(n)| - 1] == Decimal(n / 10) && n == 10 * (n / 10) + n % 10;
    }
  }

  lemma BigIntRoundTrips(n: int)
    ensures ParseInt(DecimalInt(n)) == Ok(n)
  {
    if n < 0 {
      DecimalParses(-n);
      assert DecimalInt(n)[1..] == Decimal(-n);
    } else {
      DecimalParses(n);
    }
  }

  lemma {:induction false} DecimalLeads(n: nat)
    ensures Decimal(n) != "" && Decimal(n)[0] != '-' && (n > 0 ==> Decimal(n)[0] != '0')
      && (n == 0 ==> Decimal(n) == "0")
  {
    if n >= 10 {
      DecimalLeads(n / 10);
      assert Decimal(n)[0] == Decimal(n / 10)[0];
    }
  }

  /** The text is the canonical one: no sign but that of a negative integer, and no leading zero. */
  lemma DecimalIsCanonical(n: int)
    ensures DecimalInt(n) != "" && (DecimalInt(n)[0] == '-' <==> n < 0) && (n == 0 ==> DecimalInt(n) == "0")
    ensures n > 0 ==> DecimalInt(n)[0] != '0'
    ensures n < 0 ==> |DecimalInt(n)| > 1 && DecimalInt(n)[1] != '0'
  {
    if n < 0 { DecimalLeads(-n); } else { DecimalLeads(n); }
  }

  // ---- Serialization ----

  function Encode(n: Number): Encoded {
    match n
    case NaN => Word("NaN")
    case PositiveInfinity => Word("Infinity")
    case NegativeInfinity => Word("-Infinity")
    case NegativeZero => Word("-0")
    case Finite(value) => Literal(value)
  }

  /** seen holds the objects on the way from the root to this value. */
  function Serialize(heap: Heap, v: Value, seen: set<Ref>): Result<Serialized>
    requires ClosedHeap(heap) && Closed(heap, v)
    decreases heap.Keys - seen, 0
  {
    match v
    case Undefined => Ok(SUndefined)
    case Null => Ok(SNull)
    case Boolean(flag) => Ok(SBoolean(flag))
    case String(text) => Ok(SString(text))
    case Number(number) => Ok(SNumber(Encode(number)))
    case BigInt(integer) => Ok(SBigInt(DecimalInt(integer)))
    case Unsupported => Err(HasUnsupported)
    case Reference(r) =>
      if r in seen then Err(HasCycle)
      else
        assert heap.Keys - (seen + {r}) < heap.Keys - seen by { assert r in heap.Keys - seen; }
        match heap[r]
        case Array(items) =>
          assert Members(heap[r]) == items;
          (match SerializeAll(heap, items, seen + {r}, 0)
           case Ok(list) => Ok(SArray(list))
           case Err(failure) => Err(failure))
        case Plain(keys, values) =>
          assert Members(heap[r]) == values;
          (match SerializeAll(heap, values, seen + {r}, 0)
           case Ok(list) => Ok(SObject(keys, list))
           case Err(failure) => Err(failure))
        case Exotic => Err(NotPlain)
  }

  function After(list: seq<Serialized>, rest: Result<seq<Serialized>>): Result<seq<Serialized>> {
    match rest
    case Err(failure) => Err(failure)
    case Ok(more) => Ok(list + more)
  }

  /** From the i-th on, stopping at the first failure. */
  function SerializeAll(heap: Heap, values: seq<Value>, seen: set<Ref>, i: nat): (r: Result<seq<Serialized>>)
    requires ClosedHeap(heap) && i <= |values| && forall j :: 0 <= j < |values| ==> Closed(heap, values[j])
    ensures r.Ok? ==> |r.value| == |values| - i
    decreases heap.Keys - seen, 1 + |values| - i
  {
    if i == |values| then Ok([])
    else
      match Serialize(heap, values[i], seen)
      case Err(failure) => Err(failure)
      case Ok(first) =>
        After([first], SerializeAll(heap, values, seen, i + 1))
  }

  // ---- When it succeeds ----

  predicate IsMember(heap: Heap, v: Value, w: Value) {
    v.Reference? && v.ref in heap && w in Members(heap[v.ref])
  }

  predicate IsPath(heap: Heap, path: seq<Value>) {
    path != [] && forall i :: 0 <= i < |path| - 1 ==> IsMember(heap, path[i], path[i + 1])
  }

  predicate Refused(heap: Heap, v: Value) {
    v.Unsupported? || (v.Reference? && v.ref in heap && heap[v.ref].Exotic?)
  }

  /** A path that ends in something refused, or comes back to an object on it or already seen. */
  predicate IsBad(heap: Heap, path: seq<Value>, seen: set<Ref>)
    requires path != []
  {
    var last := path[|path| - 1];
    Refused(heap, last)
    || (last.Reference? && (last.ref in seen || exists i :: 0 <= i < |path| - 1 && path[i] == last))
  }

  ghost predicate HasBad(heap: Heap, v: Value, seen: set<Ref>) {
    exists path :: IsPath(heap, path) && path[0] == v && IsBad(heap, path, seen)
  }

  lemma BadAtOnce(heap: Heap, v: Value, seen: set<Ref>)
    requires Refused(heap, v) || (v.Reference? && v.ref in seen)
    ensures HasBad(heap, v, seen)
  {
    assert IsPath(heap, [v]) && IsBad(heap, [v], seen);
  }

  /** A bad path from a member is a bad path from the object. */
  lemma BadBelow(heap: Heap, v: Value, w: Value, seen: set<Ref>)
    requires IsMember(heap, v, w) && HasBad(heap, w, seen + {v.ref})
    ensures HasBad(heap, v, seen)
  {
    var path: seq<Value> :| IsPath(heap, path) && path[0] == w && IsBad(heap, path, seen + {v.ref});
    var longer := [v] + path;
    assert IsPath(heap, longer) by {
      forall i | 0 <= i < |longer| - 1 ensures IsMember(heap, longer[i], longer[i + 1]) {
        if i > 0 { assert longer[i] == path[i - 1] && longer[i + 1] == path[i]; }
      }
    }
    var last := path[|path| - 1];
    assert longer[|longer| - 1] == last;
    if last.Reference? && last.ref == v.ref {
      assert longer[0] == last;
    } else if last.Reference? && exists i :: 0 <= i < |path| - 1 && path[i] == last {
      var i :| 0 <= i < |path| - 1 && path[i] == last;
      assert longer[i + 1] == last;
    }
  }

  /** Without a bad path from a member, a path through it is not bad either. */
  lemma GoodThrough(heap: Heap, path: seq<Value>, seen: set<Ref>)
    requires IsPath(heap, path) && |path| > 1 && path[0].Reference?
    requires !HasBad(heap, path[1], seen + {path[0].ref})
    ensures !IsBad(heap, path, seen)
  {
    var rest := path[1..];
    assert IsPath(heap, rest) by {
      forall i | 0 <= i < |rest| - 1 ensures IsMember(heap, rest[i], rest[i + 1]) {
        assert rest[i] == path[i + 1] && rest[i + 1] == path[i + 2];
      }
    }
    assert !IsBad(heap, rest, seen + {path[0].ref});
    var last := path[|path| - 1];
    assert rest[|rest| - 1] == last;
    forall i | 0 <= i < |path| - 1 && last.Reference? ensures path[i] != last {
      if i > 0 { assert rest[i - 1] == path[i]; }
    }
  }

  lemma FirstStep(heap: Heap, path: seq<Value>)
    requires IsPath(heap, path) && |path| > 1
    ensures IsMember(heap, path[0], path[1])
  {}

  lemma {:induction false} SucceedsIff(heap: Heap, v: Value, seen: set<Ref>)
    requires ClosedHeap(heap) && Closed(heap, v)
    ensures Serialize(heap, v, seen).Ok? <==> !HasBad(heap, v, seen)
    decreases heap.Keys - seen, 0
  {
    if Refused(heap, v) || (v.Reference? && v.ref in seen) {
      BadAtOnce(heap, v, seen);
    } else if v.Reference? {
      var members, inner := Members(heap[v.ref]), seen + {v.ref};
      assert heap.Keys - inner < heap.Keys - seen by { assert v.ref in heap.Keys - seen; }
      AllSucceedIff(heap, members, inner, 0);
      if SerializeAll(heap, members, inner, 0).Ok? {
        forall path: seq<Value> | IsPath(heap, path) && path[0] == v ensures !IsBad(heap, path, seen) {
          if |path| > 1 {
            assert IsMember(heap, path[0], path[1]);
            GoodThrough(heap, path, seen);
          }
        }
      } else {
        var i :| 0 <= i < |members| && HasBad(heap, members[i], inner);
        BadBelow(heap, v, members[i], seen);
      }
    } else {
      forall path: seq<Value> | IsPath(heap, path) && path[0] == v ensures !IsBad(heap, path, seen) {
        if |path| > 1 { FirstStep(heap, path); }
      }
    }
  }

  lemma {:induction false} AllSucceedIff(heap: Heap, values: seq<Value>, seen: set<Ref>, i: nat)
    requires ClosedHeap(heap) && i <= |values| && forall j :: 0 <= j < |values| ==> Closed(heap, values[j])
    ensures SerializeAll(heap, values, seen, i).Ok? <==>
      forall j :: i <= j < |values| ==> !HasBad(heap, values[j], seen)
    decreases heap.Keys - seen, 1 + |values| - i
  {
    if i < |values| {
      SucceedsIff(heap, values[i], seen);
      AllSucceedIff(heap, values, seen, i + 1);
    }
  }

  /** Serialization succeeds exactly when nothing unsupported and no cycle can be reached. */
  lemma SerializesIff(heap: Heap, root: Value)
    requires ClosedHeap(heap) && Closed(heap, root)
    ensures Serialize(heap, root, {}).Ok? <==>
      forall path: seq<Value> :: IsPath(heap, path) && path[0] == root ==>
        !Refused(heap, path[|path| - 1])
        && forall i :: 0 <= i < |path| - 1 && path[i].Reference? ==> path[i] != path[|path| - 1]
  {
    SucceedsIff(heap, root, {});
    if Serialize(heap, root, {}).Ok? {
      forall path: seq<Value> | IsPath(heap, path) && path[0] == root
        ensures !Refused(heap, path[|path| - 1])
        ensures forall i :: 0 <= i < |path| - 1 && path[i].Reference? ==> path[i] != path[|path| - 1]
      {
        assert !IsBad(heap, path, {});
      }
    } else {
      var path: seq<Value> :| IsPath(heap, path) && path[0] == root && IsBad(heap, path, {});
    }
  }

  // ---- Revival ----

  function ReviveNumber(e: Encoded): Number {
    match e
    case Literal(value) => Finite(value)
    case Word(w) =>
      if w == "NaN" then NaN
      else if w == "Infinity" then PositiveInfinity
      else if w == "-Infinity" then NegativeInfinity
      else if w == "-0" then NegativeZero
      else NaN
  }

  function Revive(s: Serialized): Result<Tree>
    decreases s
  {
    match s
    case SUndefined => Ok(TUndefined)
    case SNull => Ok(TNull)
    case SBoolean(flag) => Ok(TBoolean(flag))
    case SString(text) => Ok(TString(text))
    case SNumber(encoded) => Ok(TNumber(ReviveNumber(encoded)))
    case SBigInt(digits) =>
      (match ParseInt(digits) case Ok(integer) => Ok(TBigInt(integer)) case Err(failure) => Err(failure))
    case SArray(items) =>
      (match ReviveAll(items) case Ok(list) => Ok(TArray(list)) case Err(failure) => Err(failure))
    case SObject(keys, values) =>
      (match ReviveAll(values) case Ok(list) => Ok(TObject(keys, list)) case Err(failure) => Err(failure))
  }

  function ReviveAll(list: seq<Serialized>): (r: Result<seq<Tree>>)
    ensures r.Ok? ==> |r.value| == |list|
    decreases list
  {
    if list == [] then Ok([])
    else
      match Revive(list[0])
      case Err(failure) => Err(failure)
      case Ok(first) =>
        match ReviveAll(list[1..])
        case Err(failure) => Err(failure)
        case Ok(rest) => Ok([first] + rest)
  }

  /** t is what v looks like when everything shared is written out. */
  predicate Unfolds(heap: Heap, v: Value, t: Tree)
    decreases t
  {
    match t
    case TUndefined => v.Undefined?
    case TNull => v.Null?
    case TBoolean(flag) => v == Boolean(flag)
    case TString(text) => v == String(text)
    case TNumber(number) => v == Number(number)
    case TBigInt(integer) => v == BigInt(integer)
    case TArray(items) => v.Reference? && v.ref in heap && heap[v.ref].Array?
      && UnfoldAll(heap, heap[v.ref].items, items)
    case TObject(keys, values) =>
      && v.Reference? && v.ref in heap && heap[v.ref].Plain? && heap[v.ref].keys == keys
      && UnfoldAll(heap, heap[v.ref].values, values)
  }

  predicate UnfoldAll(heap: Heap, values: seq<Value>, trees: seq<Tree>)
    decreases trees
  {
    if trees == [] then values == []
    else values != [] && Unfolds(heap, values[0], trees[0]) && UnfoldAll(heap, values[1..], trees[1..])
  }

  lemma {:induction false} RevivesTree(heap: Heap, v: Value, seen: set<Ref>)
    requires ClosedHeap(heap) && Closed(heap, v) && Serialize(heap, v, seen).Ok?
    ensures var t := Revive(Serialize(heap, v, seen).value); t.Ok? && Unfolds(heap, v, t.value)
    decreases heap.Keys - seen, 0
  {
    match v
    case BigInt(integer) => BigIntRoundTrips(integer);
    case Number(number) => assert ReviveNumber(Encode(number)) == number;
    case Reference(r) =>
      assert heap.Keys - (seen + {r}) < heap.Keys - seen by { assert r in heap.Keys - seen; }
      ReviveTrees(heap, Members(heap[r]), seen + {r}, 0);
      assert Members(heap[r])[0..] == Members(heap[r]);
    case _ =>
  }

  lemma {:induction false} ReviveTrees(heap: Heap, values: seq<Value>, seen: set<Ref>, i: nat)
    requires ClosedHeap(heap) && i <= |values| && forall j :: 0 <= j < |values| ==> Closed(heap, values[j])
    requires SerializeAll(heap, values, seen, i).Ok?
    ensures var t := ReviveAll(SerializeAll(heap, values, seen, i).value);
      t.Ok? && UnfoldAll(heap, values[i..], t.value)
    decreases heap.Keys - seen, 1 + |values| - i
  {
    if i < |values| {
      RevivesTree(heap, values[i], seen);
      ReviveTrees(heap, values, seen, i + 1);
      var list := SerializeAll(heap, values, seen, i).value;
      assert list[1..] == SerializeAll(heap, values, seen, i + 1).value;
      assert values[i..][0] == values[i] && values[i..][1..] == values[i + 1..];
    }
  }

  lemma {:induction false} UnfoldingIsUnique(heap: Heap, v: Value, t: Tree, u: Tree)
    requires Unfolds(heap, v, t) && Unfolds(heap, v, u)
    ensures t == u
    decreases t
  {
    match t
    case TArray(items) => UnfoldingsAreUnique(heap, heap[v.ref].items, items, u.items);
    case TObject(_, values) => UnfoldingsAreUnique(heap, heap[v.ref].values, values, u.values);
    case _ =>
  }

  lemma {:induction false} UnfoldingsAreUnique(heap: Heap, values: seq<Value>, t: seq<Tree>, u: seq<Tree>)
    requires UnfoldAll(heap, values, t) && UnfoldAll(heap, values, u)
    ensures t == u
    decreases t
  {
    if t != [] {
      UnfoldingIsUnique(heap, values[0], t[0], u[0]);
      UnfoldingsAreUnique(heap, values[1..], t[1..], u[1..]);
    }
  }

  /** What arrives is the tree unfolding of what was sent. */
  lemma RoundTrips(heap: Heap, root: Value, t: Tree)
    requires ClosedHeap(heap) && Closed(heap, root) && Serialize(heap, root, {}).Ok?
    ensures Revive(Serialize(heap, root, {}).value) == Ok(t) <==> Unfolds(heap, root, t)
  {
    RevivesTree(heap, root, {});
    var u := Revive(Serialize(heap, root, {}).value).value;
    if Unfolds(heap, root, t) { UnfoldingIsUnique(heap, root, t, u); }
  }

  // ---- As it runs, with one set that grows and shrinks ----

  lemma AfterTwice(a: seq<Serialized>, b: seq<Serialized>, rest: Result<seq<Serialized>>)
    ensures After(a, After(b, rest)) == After(a + b, rest)
    ensures After([], rest) == rest
  {
    if rest.Ok? { assert a + (b + rest.value) == a + b + rest.value && [] + rest.value == rest.value; }
  }

  class Serializer {
    const heap: Heap
    var seen: set<Ref>

    constructor (heap: Heap)
      ensures this.heap == heap && seen == {}
    {
      this.heap, seen := heap, {};
    }

    method SerializeArgument(v: Value) returns (result: Result<Serialized>)
      requires ClosedHeap(heap) && Closed(heap, v)
      modifies this
      ensures seen == old(seen) && result == Serialize(heap, v, old(seen))
      decreases heap.Keys - seen, 0
    {
      match v
      case Undefined => return Ok(SUndefined);
      case Null => return Ok(SNull);
      case Boolean(flag) => return Ok(SBoolean(flag));
      case String(text) => return Ok(SString(text));
      case Number(number) => return Ok(SNumber(Encode(number)));
      case BigInt(integer) => return Ok(SBigInt(DecimalInt(integer)));
      case Unsupported => return Err(HasUnsupported);
      case Reference(r) =>
        if r in seen { return Err(HasCycle); }
        ghost var before := seen;
        seen := seen + {r};
        assert heap.Keys - seen < heap.Keys - before by { assert r in heap.Keys - before; }
        match heap[r] {
          case Array(items) =>
            assert Members(heap[r]) == items;
            var list := SerializeMembers(items);
            result := if list.Ok? then Ok(SArray(list.value)) else Err(list.failure);
          case Plain(keys, values) =>
            assert Members(heap[r]) == values;
            var list := SerializeMembers(values);
            result := if list.Ok? then Ok(SObject(keys, list.value)) else Err(list.failure);
          case Exotic => result := Err(NotPlain);
        }
        seen := seen - {r};
        assert seen == before;
    }

    method SerializeMembers(values: seq<Value>) returns (result: Result<seq<Serialized>>)
      requires ClosedHeap(heap) && forall j :: 0 <= j < |values| ==> Closed(heap, values[j])
      modifies this
      ensures seen == old(seen) && result == SerializeAll(heap, values, old(seen), 0)
      decreases heap.Keys - seen, 1
    {
      var list, i := [], 0;
      AfterTwice([], [], SerializeAll(heap, values, seen, 0));
      while i < |values|
        invariant i <= |values| && seen == old(seen)
        invariant SerializeAll(heap, values, seen, 0) == After(list, SerializeAll(heap, values, seen, i))
      {
        var item := SerializeArgument(values[i]);
        if item.Err? { return Err(item.failure); }
        AfterTwice(list, [item.value], SerializeAll(heap, values, seen, i + 1));
        list := list + [item.value];
        i := i + 1;
      }
      assert list + [] == list;
      result := Ok(list);
    }
  }
}
