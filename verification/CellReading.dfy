/**
  What the text that a declaration becomes means: read back as an assignment, with the pieces
  copied from the cell taken as whole expressions, it assigns exactly the declared pattern, with
  every name at its place, the declared value.

  One thing is lost: an array pattern that ends with a hole reads back without that hole.
*/
module CellReading {
  import opened Collections
  import opened CellAnalysis

  /** Emitted text in pieces: punctuation, a reference, or an expression copied from the cell. */
  datatype Token = Sign(text: string) | Word(text: string) | Code(text: string)

  function Text(tokens: seq<Token>): string {
    if tokens == [] then "" else tokens[0].text + Text(tokens[1..])
  }

  /** An assignment target: a reference, a target with a default, a spread, or a pattern. */
  datatype Tree =
    | Ref(text: string)
    | Default(left: Tree, value: string)
    | Spread(argument: Tree)
    | Items(items: seq<Option<Tree>>)
    | Fields(fields: seq<Field>)

  datatype Field = RestField(argument: Tree) | KeyField(key: string, computed: bool, value: Tree)

  /** What a declarator becomes: nothing to do, or an assignment. */
  datatype Effect = Nothing | Assign(target: Tree, value: string)

  // ---- Reading ----

  type Read<T> = Option<(T, seq<Token>)>

  predicate Begins(tokens: seq<Token>, sign: string) {
    tokens != [] && tokens[0] == Sign(sign)
  }

  function ReadPrimary(ts: seq<Token>): (r: Read<Tree>)
    ensures r.Some? ==> |r.value.1| < |ts|
    decreases |ts|, 0
  {
    if ts == [] then None
    else if ts[0].Word? || ts[0].Code? then Some((Ref(ts[0].text), ts[1..]))
    else if Begins(ts, "[") then
      var items := ReadItems(ts[1..]);
      if items.None? then None else Some((Items(items.value.0), items.value.1))
    else if Begins(ts, "{") then
      var fields := ReadFields(ts[1..]);
      if fields.None? then None else Some((Fields(fields.value.0), fields.value.1))
    else None
  }

  /** A target, or a spread of one, with its default if it has one. */
  function ReadElement(ts: seq<Token>): (r: Read<Tree>)
    ensures r.Some? ==> |r.value.1| < |ts|
    decreases |ts|, 1
  {
    if Begins(ts, "...") then
      var argument := ReadPrimary(ts[1..]);
      if argument.None? then None else Some((Spread(argument.value.0), argument.value.1))
    else
      var left := ReadPrimary(ts);
      if left.None? then None
      else
        var rest := left.value.1;
        if Begins(rest, " = ") && |rest| > 1 && rest[1].Code? then
          Some((Default(left.value.0, rest[1].text), rest[2..]))
        else left
  }

  /** Elements up to the closing bracket. A comma before the bracket adds no element. */
  function ReadItems(ts: seq<Token>): (r: Read<seq<Option<Tree>>>)
    ensures r.Some? ==> |r.value.1| < |ts|
    decreases |ts|, 2
  {
    if ts == [] then None
    else if Begins(ts, "]") then Some(([], ts[1..]))
    else if Begins(ts, ", ") then
      var more := ReadItems(ts[1..]);
      if more.None? then None else Some(([None] + more.value.0, more.value.1))
    else
      var first := ReadElement(ts);
      if first.None? then None
      else
        var rest := first.value.1;
        if Begins(rest, "]") then Some(([Some(first.value.0)], rest[1..]))
        else if !Begins(rest, ", ") then None
        else
          var more := ReadItems(rest[1..]);
          if more.None? then None else Some(([Some(first.value.0)] + more.value.0, more.value.1))
  }

  function ReadField(ts: seq<Token>): (r: Read<Field>)
    ensures r.Some? ==> |r.value.1| < |ts|
    decreases |ts|, 2
  {
    if Begins(ts, "...") then
      var argument := ReadPrimary(ts[1..]);
      if argument.None? then None else Some((RestField(argument.value.0), argument.value.1))
    else
      var computed := Begins(ts, "[");
      var at := if computed then 1 else 0;
      var after := if computed then 3 else 1;
      if |ts| <= after || !ts[at].Code? || (computed && ts[2] != Sign("]")) || ts[after] != Sign(": ") then None
      else
        var value := ReadElement(ts[after + 1..]);
        if value.None? then None else Some((KeyField(ts[at].text, computed, value.value.0), value.value.1))
  }

  function ReadFields(ts: seq<Token>): (r: Read<seq<Field>>)
    ensures r.Some? ==> |r.value.1| < |ts|
    decreases |ts|, 3
  {
    if Begins(ts, "}") then Some(([], ts[1..]))
    else
      var first := ReadField(ts);
      if first.None? then None
      else
        var rest := first.value.1;
        if Begins(rest, "}") then Some(([first.value.0], rest[1..]))
        else if !Begins(rest, ", ") then None
        else
          var more := ReadFields(rest[1..]);
          if more.None? then None else Some(([first.value.0] + more.value.0, more.value.1))
  }

  /** One parenthesised assignment, or void. */
  function ReadEffect(ts: seq<Token>): Read<Effect> {
    if Begins(ts, "(void 0)") then Some((Nothing, ts[1..]))
    else if !Begins(ts, "(") then None
    else
      var left := ReadPrimary(ts[1..]);
      if left.None? then None
      else
        var rest := left.value.1;
        if |rest| > 2 && rest[0] == Sign(" = ") && rest[1].Code? && rest[2] == Sign(")") then
          Some((Assign(left.value.0, rest[1].text), rest[3..]))
        else None
  }

  /** Assignments separated by commas, to the end. */
  function ReadEffects(ts: seq<Token>): Option<seq<Effect>>
    decreases |ts|
  {
    var first := ReadEffect(ts);
    if first.None? then None
    else if first.value.1 == [] then Some([first.value.0])
    else if !Begins(first.value.1, ", ") || |first.value.1| > |ts| then None
    else
      var more := ReadEffects(first.value.1[1..]);
      if more.None? then None else Some([first.value.0] + more.value)
  }

  // ---- What a pattern means ----

  /** Patterns as the parser yields them: defaults and spreads only inside other patterns. */
  predicate IsPrimary(p: Pattern)
    decreases p, 0
  {
    match p
    case Identifier(_) => true
    case Member(_) => true
    case Assignment(_, _) => false
    case Rest(_) => false
    case ArrayPattern(elements) => forall i :: 0 <= i < |elements| ==> IsElement(elements[i])
    case ObjectPattern(properties) => forall i :: 0 <= i < |properties| ==> IsProperty(properties[i])
  }

  predicate HasDefault(p: Pattern)
    decreases p, 1
  {
    match p
    case Assignment(left, _) => IsPrimary(left)
    case _ => IsPrimary(p)
  }

  predicate IsElement(e: Element)
    decreases e
  {
    e.Element? ==> match e.pattern
                   case Rest(argument) => IsPrimary(argument)
                   case _ => HasDefault(e.pattern)
  }

  predicate IsProperty(p: Property)
    decreases p
  {
    match p
    case RestProperty(argument) => IsPrimary(argument)
    case KeyProperty(_, _, value) => HasDefault(value)
  }

  /** The target a pattern stands for: names are written at their place in the initialization
      target, or where they are. */
  function TreeOf(p: Pattern, source: string, initialize: bool, target: string): Tree
    requires PatternFits(p, source)
    decreases p
  {
    match p
    case Identifier(name) => Ref(if initialize then target + "[\"" + name + "\"]" else name)
    case Member(at) => Ref(source[at.start..at.end])
    case Assignment(left, right) => Default(TreeOf(left, source, initialize, target), source[right.start..right.end])
    case Rest(argument) => Spread(TreeOf(argument, source, initialize, target))
    case ArrayPattern(elements) => Items(ItemsOf(elements, source, initialize, target))
    case ObjectPattern(properties) => Fields(FieldsOf(properties, source, initialize, target))
  }

  function ItemOf(e: Element, source: string, initialize: bool, target: string): Option<Tree>
    requires ElementFits(e, source)
    decreases e
  {
    if e.Element? then Some(TreeOf(e.pattern, source, initialize, target)) else None
  }

  /** All elements but a hole at the end. */
  function ItemsOf(elements: seq<Element>, source: string, initialize: bool, target: string): seq<Option<Tree>>
    requires forall i :: 0 <= i < |elements| ==> ElementFits(elements[i], source)
    decreases elements
  {
    if elements == [] || elements == [Hole] then []
    else [ItemOf(elements[0], source, initialize, target)] + ItemsOf(elements[1..], source, initialize, target)
  }

  function FieldOf(p: Property, source: string, initialize: bool, target: string): Field
    requires PropertyFits(p, source)
    decreases p
  {
    match p
    case RestProperty(argument) => RestField(TreeOf(argument, source, initialize, target))
    case KeyProperty(key, computed, value) =>
      KeyField(source[key.start..key.end], computed, TreeOf(value, source, initialize, target))
  }

  function FieldsOf(properties: seq<Property>, source: string, initialize: bool, target: string): seq<Field>
    requires forall i :: 0 <= i < |properties| ==> PropertyFits(properties[i], source)
    decreases properties
  {
    if properties == [] then []
    else [FieldOf(properties[0], source, initialize, target)] + FieldsOf(properties[1..], source, initialize, target)
  }

  // ---- The emitted text in pieces ----

  function PatternTokens(p: Pattern, source: string, initialize: bool, target: string): seq<Token>
    requires PatternFits(p, source)
    decreases p
  {
    match p
    case Identifier(_) => [Word(GlobalPattern(p, source, initialize, target))]
    case Member(_) => [Code(GlobalPattern(p, source, initialize, target))]
    case Assignment(left, right) =>
      PatternTokens(left, source, initialize, target) + [Sign(" = "), Code(Slice(source, right))]
    case Rest(argument) => [Sign("...")] + PatternTokens(argument, source, initialize, target)
    case ArrayPattern(elements) => [Sign("[")] + ItemTokens(elements, source, initialize, target) + [Sign("]")]
    case ObjectPattern(properties) => [Sign("{")] + FieldTokens(properties, source, initialize, target) + [Sign("}")]
  }

  function ElementTokens(e: Element, source: string, initialize: bool, target: string): seq<Token>
    requires ElementFits(e, source)
    decreases e
  {
    if e.Element? then PatternTokens(e.pattern, source, initialize, target) else []
  }

  function ItemTokens(elements: seq<Element>, source: string, initialize: bool, target: string): seq<Token>
    requires forall i :: 0 <= i < |elements| ==> ElementFits(elements[i], source)
    decreases elements
  {
    if elements == [] then []
    else if |elements| == 1 then ElementTokens(elements[0], source, initialize, target)
    else
      ElementTokens(elements[0], source, initialize, target) + [Sign(", ")]
      + ItemTokens(elements[1..], source, initialize, target)
  }

  function PropertyTokens(p: Property, source: string, initialize: bool, target: string): seq<Token>
    requires PropertyFits(p, source)
    decreases p
  {
    match p
    case RestProperty(argument) => [Sign("...")] + PatternTokens(argument, source, initialize, target)
    case KeyProperty(key, computed, value) =>
      (if computed then [Sign("["), Code(Slice(source, key)), Sign("]"), Sign(": ")]
       else [Code(Slice(source, key)), Sign(": ")])
      + PatternTokens(value, source, initialize, target)
  }

  function FieldTokens(properties: seq<Property>, source: string, initialize: bool, target: string): seq<Token>
    requires forall i :: 0 <= i < |properties| ==> PropertyFits(properties[i], source)
    decreases properties
  {
    if properties == [] then []
    else if |properties| == 1 then PropertyTokens(properties[0], source, initialize, target)
    else
      PropertyTokens(properties[0], source, initialize, target) + [Sign(", ")]
      + FieldTokens(properties[1..], source, initialize, target)
  }

  lemma {:induction false} TextJoins(a: seq<Token>, b: seq<Token>)
    ensures Text(a + b) == Text(a) + Text(b)
  {
    if a == [] {
      assert a + b == b;
    } else {
      TextJoins(a[1..], b);
      assert (a + b)[1..] == a[1..] + b;
    }
  }

  lemma TextOne(t: Token)
    ensures Text([t]) == t.text
  {
    assert [t][1..] == [];
  }

  lemma TextTwo(t: Token, u: Token)
    ensures Text([t, u]) == t.text + u.text
  {
    TextOne(u);
    assert [t, u][1..] == [u];
  }

  lemma {:induction false} PatternText(p: Pattern, source: string, initialize: bool, target: string)
    requires PatternFits(p, source)
    ensures Text(PatternTokens(p, source, initialize, target)) == GlobalPattern(p, source, initialize, target)
    decreases p
  {
    match p
    case Identifier(_) =>
    case Member(_) =>
    case Assignment(left, right) =>
      PatternText(left, source, initialize, target);
      TextTwo(Sign(" = "), Code(Slice(source, right)));
      TextJoins(PatternTokens(left, source, initialize, target), [Sign(" = "), Code(Slice(source, right))]);
    case Rest(argument) =>
      PatternText(argument, source, initialize, target);
      TextOne(Sign("..."));
      TextJoins([Sign("...")], PatternTokens(argument, source, initialize, target));
    case ArrayPattern(elements) =>
      ItemsText(elements, source, initialize, target);
      Bracketed("[", ItemTokens(elements, source, initialize, target), "]");
    case ObjectPattern(properties) =>
      FieldsText(properties, source, initialize, target);
      Bracketed("{", FieldTokens(properties, source, initialize, target), "}");
  }

  lemma Bracketed(open: string, inner: seq<Token>, close: string)
    ensures Text([Sign(open)] + inner + [Sign(close)]) == open + Text(inner) + close
  {
    TextOne(Sign(open));
    TextOne(Sign(close));
    TextJoins([Sign(open)], inner);
    TextJoins([Sign(open)] + inner, [Sign(close)]);
  }

  lemma Separated(first: seq<Token>, rest: seq<Token>)
    ensures Text(first + [Sign(", ")] + rest) == Text(first) + ", " + Text(rest)
  {
    TextOne(Sign(", "));
    TextJoins(first, [Sign(", ")]);
    TextJoins(first + [Sign(", ")], rest);
  }

  lemma {:induction false} ElementIsText(e: Element, source: string, initialize: bool, target: string)
    requires ElementFits(e, source)
    ensures Text(ElementTokens(e, source, initialize, target)) == ElementText(e, source, initialize, target)
    decreases e
  {
    if e.Element? { PatternText(e.pattern, source, initialize, target); }
  }

  lemma {:induction false} ItemsText(elements: seq<Element>, source: string, initialize: bool, target: string)
    requires forall i :: 0 <= i < |elements| ==> ElementFits(elements[i], source)
    ensures Text(ItemTokens(elements, source, initialize, target)) ==
      Join(ElementTexts(elements, source, initialize, target))
    decreases elements
  {
    if elements != [] {
      assert ElementFits(elements[0], source);
      ElementIsText(elements[0], source, initialize, target);
      ItemsText(elements[1..], source, initialize, target);
      var texts := ElementTexts(elements, source, initialize, target);
      assert texts[1..] == ElementTexts(elements[1..], source, initialize, target);
      assert |texts| == |elements| by { ElementTextsSize(elements, source, initialize, target); }
      Separated(ElementTokens(elements[0], source, initialize, target),
        ItemTokens(elements[1..], source, initialize, target));
    }
  }

  lemma {:induction false} ElementTextsSize(elements: seq<Element>, source: string, initialize: bool, target: string)
    requires forall i :: 0 <= i < |elements| ==> ElementFits(elements[i], source)
    ensures |ElementTexts(elements, source, initialize, target)| == |elements|
  {
    if elements != [] { ElementTextsSize(elements[1..], source, initialize, target); }
  }

  lemma {:induction false} PropertyIsText(p: Property, source: string, initialize: bool, target: string)
    requires PropertyFits(p, source)
    ensures Text(PropertyTokens(p, source, initialize, target)) == PropertyText(p, source, initialize, target)
    decreases p
  {
    match p
    case RestProperty(argument) =>
      PatternText(argument, source, initialize, target);
      TextOne(Sign("..."));
      TextJoins([Sign("...")], PatternTokens(argument, source, initialize, target));
    case KeyProperty(key, computed, value) =>
      PatternText(value, source, initialize, target);
      var code := Code(Slice(source, key));
      if computed {
        Bracketed("[", [code], "]");
        TextOne(code);
        TextOne(Sign(": "));
        TextJoins([Sign("[")] + [code] + [Sign("]")], [Sign(": ")]);
        assert [Sign("["), code, Sign("]"), Sign(": ")] == [Sign("[")] + [code] + [Sign("]")] + [Sign(": ")];
        TextJoins([Sign("["), code, Sign("]"), Sign(": ")], PatternTokens(value, source, initialize, target));
      } else {
        TextTwo(code, Sign(": "));
        TextJoins([code, Sign(": ")], PatternTokens(value, source, initialize, target));
      }
  }

  lemma {:induction false} FieldsText(properties: seq<Property>, source: string, initialize: bool, target: string)
    requires forall i :: 0 <= i < |properties| ==> PropertyFits(properties[i], source)
    ensures Text(FieldTokens(properties, source, initialize, target)) ==
      Join(PropertyTexts(properties, source, initialize, target))
    decreases properties
  {
    if properties != [] {
      assert PropertyFits(properties[0], source);
      PropertyIsText(properties[0], source, initialize, target);
      FieldsText(properties[1..], source, initialize, target);
      var texts := PropertyTexts(properties, source, initialize, target);
      assert texts[1..] == PropertyTexts(properties[1..], source, initialize, target);
      assert |texts| == |properties| by { PropertyTextsSize(properties, source, initialize, target); }
      Separated(PropertyTokens(properties[0], source, initialize, target),
        FieldTokens(properties[1..], source, initialize, target));
    }
  }

  lemma {:induction false} PropertyTextsSize(properties: seq<Property>, source: string, initialize: bool,
      target: string)
    requires forall i :: 0 <= i < |properties| ==> PropertyFits(properties[i], source)
    ensures |PropertyTexts(properties, source, initialize, target)| == |properties|
  {
    if properties != [] { PropertyTextsSize(properties[1..], source, initialize, target); }
  }

  // ---- The pieces read back ----

  /** What a target can begin with. */
  predicate Opens(t: Token) {
    t.Word? || t.Code? || t == Sign("[") || t == Sign("{")
  }

  lemma PrimaryOpens(p: Pattern, source: string, initialize: bool, target: string)
    requires PatternFits(p, source) && IsPrimary(p)
    ensures PatternTokens(p, source, initialize, target) != [] && Opens(PatternTokens(p, source, initialize, target)[0])
  {}

  lemma ValueOpens(p: Pattern, source: string, initialize: bool, target: string)
    requires PatternFits(p, source) && HasDefault(p)
    ensures PatternTokens(p, source, initialize, target) != [] && Opens(PatternTokens(p, source, initialize, target)[0])
  {
    if p.Assignment? { PrimaryOpens(p.left, source, initialize, target); } else {
      PrimaryOpens(p, source, initialize, target);
    }
  }

  // One step of each reader.

  function Before<A>(first: A, more: Read<seq<A>>): Read<seq<A>> {
    if more.None? then None else Some(([first] + more.value.0, more.value.1))
  }

  lemma PrimaryBegins(inner: seq<Token>)
    ensures ReadPrimary([Sign("[")] + inner) ==
      if ReadItems(inner).None? then None else Some((Items(ReadItems(inner).value.0), ReadItems(inner).value.1))
    ensures ReadPrimary([Sign("{")] + inner) ==
      if ReadFields(inner).None? then None else Some((Fields(ReadFields(inner).value.0), ReadFields(inner).value.1))
  {
    assert ([Sign("[")] + inner)[1..] == inner && ([Sign("{")] + inner)[1..] == inner;
    hide ReadItems, ReadFields;
  }

  lemma ItemsEnd(rest: seq<Token>)
    ensures ReadItems([Sign("]")] + rest) == Some(([], rest))
    ensures ReadItems([Sign(", ")] + rest) == Before(None, ReadItems(rest))
  {
    assert ([Sign("]")] + rest)[1..] == rest && ([Sign(", ")] + rest)[1..] == rest;
  }

  lemma ItemsStep(ts: seq<Token>, first: Tree, rest: seq<Token>, more: bool)
    requires ts != [] && (Opens(ts[0]) || ts[0] == Sign("..."))
    requires ReadElement(ts) == Some((first, [Sign(if more then ", " else "]")] + rest))
    ensures ReadItems(ts) == if more then Before(Some(first), ReadItems(rest)) else Some(([Some(first)], rest))
  {
    var after := [Sign(if more then ", " else "]")] + rest;
    assert after[1..] == rest && after[0] == Sign(if more then ", " else "]");
    assert !Begins(ts, "]") && !Begins(ts, ", ");
    hide ReadElement;
  }

  lemma FieldsStep(ts: seq<Token>, first: Field, rest: seq<Token>, more: bool)
    requires ts != [] && ts[0] != Sign("}")
    requires ReadField(ts) == Some((first, [Sign(if more then ", " else "}")] + rest))
    ensures ReadFields(ts) == if more then Before(first, ReadFields(rest)) else Some(([first], rest))
  {
    var after := [Sign(if more then ", " else "}")] + rest;
    assert after[1..] == rest && after[0] == Sign(if more then ", " else "}");
    hide ReadField;
  }

  lemma EffectsStep(ts: seq<Token>, first: Effect, rest: seq<Token>)
    requires ReadEffect(ts) == Some((first, [Sign(", ")] + rest)) && |rest| < |ts|
    ensures ReadEffects(ts) == if ReadEffects(rest).None? then None else Some([first] + ReadEffects(rest).value)
  {
    var after := [Sign(", ")] + rest;
    assert after[1..] == rest && after[0] == Sign(", ") && after != [];
    hide ReadEffect;
  }

  lemma {:induction false} PrimaryReads(p: Pattern, source: string, initialize: bool, target: string, rest: seq<Token>)
    requires PatternFits(p, source) && IsPrimary(p)
    ensures ReadPrimary(PatternTokens(p, source, initialize, target) + rest) ==
      Some((TreeOf(p, source, initialize, target), rest))
    decreases p, 0
  {
    var ts := PatternTokens(p, source, initialize, target) + rest;
    hide ReadItems, ReadFields, ItemTokens, FieldTokens, ItemsOf, FieldsOf;
    if p.ArrayPattern? {
      var inner := ItemTokens(p.elements, source, initialize, target) + [Sign("]")] + rest;
      assert ts == [Sign("[")] + inner;
      ItemsRead(p.elements, source, initialize, target, rest);
      hide ReadPrimary;
      PrimaryBegins(inner);
    } else if p.ObjectPattern? {
      var inner := FieldTokens(p.properties, source, initialize, target) + [Sign("}")] + rest;
      assert ts == [Sign("{")] + inner;
      FieldsRead(p.properties, source, initialize, target, rest);
      hide ReadPrimary;
      PrimaryBegins(inner);
    } else {
      assert ts[1..] == rest;
      if p.Identifier? { PlaceIs(target, p.name); }
    }
  }

  lemma PlaceIs(target: string, name: string)
    ensures target + "[" + Quoted(name) + "]" == target + "[\"" + name + "\"]"
  {
    assert "[" + "\"" == "[\"" && "\"" + "]" == "\"]";
  }

  /** A target with or without a default, followed by anything but a default. */
  lemma {:induction false} ValueReads(p: Pattern, source: string, initialize: bool, target: string, rest: seq<Token>)
    requires PatternFits(p, source) && HasDefault(p) && !Begins(rest, " = ")
    ensures ReadElement(PatternTokens(p, source, initialize, target) + rest) ==
      Some((TreeOf(p, source, initialize, target), rest))
    decreases p, 1
  {
    ValueOpens(p, source, initialize, target);
    var ts := PatternTokens(p, source, initialize, target) + rest;
    if p.Assignment? {
      var value := [Sign(" = "), Code(Slice(source, p.right))] + rest;
      PrimaryReads(p.left, source, initialize, target, value);
      assert ts == PatternTokens(p.left, source, initialize, target) + value;
      assert value[2..] == rest;
    } else {
      PrimaryReads(p, source, initialize, target, rest);
    }
  }

  lemma {:induction false} ElementReads(e: Element, source: string, initialize: bool, target: string, rest: seq<Token>)
    requires ElementFits(e, source) && IsElement(e) && e.Element? && !Begins(rest, " = ")
    ensures var ts := ElementTokens(e, source, initialize, target);
      && ts != [] && (Opens(ts[0]) || ts[0] == Sign("..."))
      && ReadElement(ts + rest) == Some((TreeOf(e.pattern, source, initialize, target), rest))
    decreases e, 0
  {
    if e.pattern.Rest? {
      var inner := PatternTokens(e.pattern.argument, source, initialize, target);
      PrimaryReads(e.pattern.argument, source, initialize, target, rest);
      assert ([Sign("...")] + inner + rest)[1..] == inner + rest;
    } else {
      ValueOpens(e.pattern, source, initialize, target);
      ValueReads(e.pattern, source, initialize, target, rest);
    }
  }

  lemma {:induction false} LastItemReads(e: Element, source: string, initialize: bool, target: string, rest: seq<Token>)
    requires ElementFits(e, source) && IsElement(e)
    ensures ReadItems(ElementTokens(e, source, initialize, target) + ([Sign("]")] + rest)) ==
      Some((if e.Element? then [ItemOf(e, source, initialize, target)] else [], rest))
    decreases e, 1
  {
    var ts := ElementTokens(e, source, initialize, target) + ([Sign("]")] + rest);
    ItemsEnd(rest);
    if e.Element? {
      ElementReads(e, source, initialize, target, [Sign("]")] + rest);
      hide PatternTokens, TreeOf, ReadElement, ReadItems, IsElement, ElementFits;
      ItemsStep(ts, ItemOf(e, source, initialize, target).value, rest, false);
    } else {
      assert ts == [Sign("]")] + rest;
    }
  }

  lemma {:induction false} NextItemReads(e: Element, source: string, initialize: bool, target: string,
      later: seq<Token>)
    requires ElementFits(e, source) && IsElement(e)
    ensures ReadItems(ElementTokens(e, source, initialize, target) + ([Sign(", ")] + later)) ==
      Before(ItemOf(e, source, initialize, target), ReadItems(later))
    decreases e, 1
  {
    var ts := ElementTokens(e, source, initialize, target) + ([Sign(", ")] + later);
    ItemsEnd(later);
    if e.Element? {
      ElementReads(e, source, initialize, target, [Sign(", ")] + later);
      hide PatternTokens, TreeOf, ReadElement, ReadItems, IsElement, ElementFits;
      ItemsStep(ts, ItemOf(e, source, initialize, target).value, later, true);
    } else {
      assert ts == [Sign(", ")] + later;
    }
  }

  lemma ItemsUnfold(elements: seq<Element>, source: string, initialize: bool, target: string)
    requires elements != [] && forall i :: 0 <= i < |elements| ==> ElementFits(elements[i], source)
    ensures var mine := ElementTokens(elements[0], source, initialize, target);
      && ItemTokens(elements, source, initialize, target) ==
           (if |elements| == 1 then mine
            else mine + [Sign(", ")] + ItemTokens(elements[1..], source, initialize, target))
      && ItemsOf(elements, source, initialize, target) ==
           (if |elements| > 1 then
              [ItemOf(elements[0], source, initialize, target)] + ItemsOf(elements[1..], source, initialize, target)
            else if elements[0].Element? then [ItemOf(elements[0], source, initialize, target)]
            else [])
  {
    hide ElementTokens, ItemOf, ElementFits;
    if |elements| == 1 {
      assert elements == [elements[0]] && elements[1..] == [];
      var item := ItemOf(elements[0], source, initialize, target);
      assert [item] + [] == [item];
    }
  }

  lemma {:induction false} ItemsRead(elements: seq<Element>, source: string, initialize: bool, target: string,
      rest: seq<Token>)
    requires forall i :: 0 <= i < |elements| ==> ElementFits(elements[i], source) && IsElement(elements[i])
    ensures ReadItems(ItemTokens(elements, source, initialize, target) + [Sign("]")] + rest) ==
      Some((ItemsOf(elements, source, initialize, target), rest))
    decreases elements
  {
    var ts := ItemTokens(elements, source, initialize, target) + [Sign("]")] + rest;
    if elements == [] {
      hide ReadItems;
      ItemsEnd(rest);
      assert ts == [Sign("]")] + rest;
    } else {
      hide ElementTokens, ItemOf, ReadItems, IsElement, ElementFits, ItemTokens, ItemsOf;
      ItemsUnfold(elements, source, initialize, target);
      var e := elements[0];
      assert ElementFits(e, source) && IsElement(e);
      var mine := ElementTokens(e, source, initialize, target);
      if |elements| == 1 {
        LastItemReads(e, source, initialize, target, rest);
        assert ts == mine + ([Sign("]")] + rest);
      } else {
        var more := ItemTokens(elements[1..], source, initialize, target);
        ItemsRead(elements[1..], source, initialize, target, rest);
        NextItemReads(e, source, initialize, target, more + [Sign("]")] + rest);
        ItemsJoin(mine, more, rest);
      }
    }
  }

  lemma ItemsJoin(mine: seq<Token>, more: seq<Token>, rest: seq<Token>)
    ensures mine + [Sign(", ")] + more + [Sign("]")] + rest == mine + ([Sign(", ")] + (more + [Sign("]")] + rest))
  {}

  lemma {:induction false} PropertyReads(p: Property, source: string, initialize: bool, target: string,
      rest: seq<Token>)
    requires PropertyFits(p, source) && IsProperty(p) && !Begins(rest, " = ")
    ensures var ts := PropertyTokens(p, source, initialize, target);
      && ts != [] && ts[0] != Sign("}")
      && ReadField(ts + rest) == Some((FieldOf(p, source, initialize, target), rest))
    decreases p
  {
    var ts := PropertyTokens(p, source, initialize, target) + rest;
    hide PatternTokens, TreeOf, ReadPrimary, ReadElement, IsPrimary, HasDefault, PatternFits;
    if p.RestProperty? {
      PrimaryReads(p.argument, source, initialize, target, rest);
      assert ts[1..] == PatternTokens(p.argument, source, initialize, target) + rest;
    } else {
      var value, code := PatternTokens(p.value, source, initialize, target) + rest, Code(Slice(source, p.key));
      ValueReads(p.value, source, initialize, target, rest);
      if p.computed {
        assert ts == [Sign("["), code, Sign("]"), Sign(": ")] + value && ts[4..] == value;
      } else {
        assert ts == [code, Sign(": ")] + value && ts[2..] == value;
      }
    }
  }

  lemma {:induction false} FieldsRead(properties: seq<Property>, source: string, initialize: bool, target: string,
      rest: seq<Token>)
    requires forall i :: 0 <= i < |properties| ==> PropertyFits(properties[i], source) && IsProperty(properties[i])
    ensures ReadFields(FieldTokens(properties, source, initialize, target) + [Sign("}")] + rest) ==
      Some((FieldsOf(properties, source, initialize, target), rest))
    decreases properties
  {
    hide PropertyTokens, FieldOf, PropertyFits, IsProperty, ReadField;
    var ts := FieldTokens(properties, source, initialize, target) + [Sign("}")] + rest;
    if properties == [] {
      assert ts[1..] == rest;
    } else {
      hide ReadFields;
      var p := properties[0];
      assert PropertyFits(p, source) && IsProperty(p);
      var mine := PropertyTokens(p, source, initialize, target);
      if |properties| == 1 {
        assert ts == mine + ([Sign("}")] + rest) && properties[1..] == [];
        PropertyReads(p, source, initialize, target, [Sign("}")] + rest);
        FieldsStep(ts, FieldOf(p, source, initialize, target), rest, false);
        assert [FieldOf(p, source, initialize, target)] + [] == [FieldOf(p, source, initialize, target)];
      } else {
        FieldsRead(properties[1..], source, initialize, target, rest);
        var more := FieldTokens(properties[1..], source, initialize, target);
        var later := more + [Sign("}")] + rest;
        assert mine + [Sign(", ")] + more + [Sign("}")] + rest == mine + ([Sign(", ")] + later);
        PropertyReads(p, source, initialize, target, [Sign(", ")] + later);
        FieldsStep(ts, FieldOf(p, source, initialize, target), later, true);
      }
    }
  }

  // ---- Declarators ----

  function DeclaratorTokens(d: Declarator, kind: BindingKind, source: string, initialize: bool,
      target: string): seq<Token>
    requires DeclaratorFits(d, source)
  {
    if d.init.None? && kind == Var then [Sign("(void 0)")]
    else
      [Sign("(")] + PatternTokens(d.id, source, initialize, target)
      + [Sign(" = "), Code(if d.init.Some? then Slice(source, d.init.value) else "undefined"), Sign(")")]
  }

  /** What a declarator is to do: assign its pattern the value of its initializer; without one,
      undefined, but a var is left alone. */
  function EffectOf(d: Declarator, kind: BindingKind, source: string, initialize: bool, target: string): Effect
    requires DeclaratorFits(d, source)
  {
    match d.init
    case Some(value) => Assign(TreeOf(d.id, source, initialize, target), source[value.start..value.end])
    case None => if kind == Var then Nothing else Assign(TreeOf(d.id, source, initialize, target), "undefined")
  }

  lemma AssignmentIsText(left: seq<Token>, value: string)
    ensures Text([Sign("(")] + left + [Sign(" = "), Code(value), Sign(")")]) == "(" + Text(left) + " = " + value + ")"
  {
    var inner := left + [Sign(" = "), Code(value)];
    TextTwo(Sign(" = "), Code(value));
    TextJoins(left, [Sign(" = "), Code(value)]);
    Bracketed("(", inner, ")");
    assert [Sign("(")] + left + [Sign(" = "), Code(value), Sign(")")] == [Sign("(")] + inner + [Sign(")")];
    hide Text;
    assert "(" + (Text(left) + (" = " + value)) + ")" == "(" + Text(left) + " = " + value + ")";
  }

  lemma DeclaratorIsText(d: Declarator, kind: BindingKind, source: string, initialize: bool, target: string)
    requires DeclaratorFits(d, source)
    ensures Text(DeclaratorTokens(d, kind, source, initialize, target)) ==
      DeclaratorText(d, kind, source, initialize, target)
  {
    PatternText(d.id, source, initialize, target);
    hide PatternTokens, GlobalPattern, Text, PatternFits;
    TextOne(Sign("(void 0)"));
    AssignmentIsText(PatternTokens(d.id, source, initialize, target),
      if d.init.Some? then Slice(source, d.init.value) else "undefined");
  }

  lemma AssignmentReads(left: seq<Token>, tree: Tree, value: string, rest: seq<Token>)
    requires ReadPrimary(left + ([Sign(" = "), Code(value), Sign(")")] + rest)) ==
      Some((tree, [Sign(" = "), Code(value), Sign(")")] + rest))
    ensures ReadEffect([Sign("(")] + left + [Sign(" = "), Code(value), Sign(")")] + rest) ==
      Some((Assign(tree, value), rest))
  {
    var after := [Sign(" = "), Code(value), Sign(")")] + rest;
    var ts := [Sign("(")] + left + [Sign(" = "), Code(value), Sign(")")] + rest;
    hide ReadPrimary;
    assert ts[1..] == left + after && after[3..] == rest;
    assert Begins(ts, "(") && !Begins(ts, "(void 0)");
  }

  lemma EffectReads(d: Declarator, kind: BindingKind, source: string, initialize: bool, target: string,
      rest: seq<Token>)
    requires DeclaratorFits(d, source) && IsPrimary(d.id)
    ensures ReadEffect(DeclaratorTokens(d, kind, source, initialize, target) + rest) ==
      Some((EffectOf(d, kind, source, initialize, target), rest))
  {
    if d.init.None? && kind == Var {
      assert ([Sign("(void 0)")] + rest)[1..] == rest;
    } else {
      var value := if d.init.Some? then Slice(source, d.init.value) else "undefined";
      PrimaryReads(d.id, source, initialize, target, [Sign(" = "), Code(value), Sign(")")] + rest);
      hide PatternTokens, TreeOf, ReadEffect, ReadPrimary, IsPrimary, PatternFits;
      AssignmentReads(PatternTokens(d.id, source, initialize, target), TreeOf(d.id, source, initialize, target), value,
        rest);
    }
  }

  /** The text of a declarator, taken in pieces, reads back as exactly what the declarator is
      to do: for every pattern, initializer and kind, in place or in the initialization target. */
  lemma DeclaratorReads(d: Declarator, kind: BindingKind, source: string, initialize: bool, target: string)
    returns (pieces: seq<Token>)
    requires DeclaratorFits(d, source) && IsPrimary(d.id)
    ensures Text(pieces) == DeclaratorText(d, kind, source, initialize, target)
    ensures ReadEffect(pieces) == Some((EffectOf(d, kind, source, initialize, target), []))
  {
    pieces := DeclaratorTokens(d, kind, source, initialize, target);
    DeclaratorIsText(d, kind, source, initialize, target);
    EffectReads(d, kind, source, initialize, target, []);
    assert pieces + [] == pieces;
  }

  function ListTokens(list: seq<Declarator>, kind: BindingKind, source: string, target: string): seq<Token>
    requires forall i :: 0 <= i < |list| ==> DeclaratorFits(list[i], source)
  {
    if list == [] then []
    else if |list| == 1 then DeclaratorTokens(list[0], kind, source, false, target)
    else
      DeclaratorTokens(list[0], kind, source, false, target) + [Sign(", ")]
        + ListTokens(list[1..], kind, source, target)
  }

  function EffectsOf(list: seq<Declarator>, kind: BindingKind, source: string, target: string): seq<Effect>
    requires forall i :: 0 <= i < |list| ==> DeclaratorFits(list[i], source)
  {
    if list == [] then []
    else [EffectOf(list[0], kind, source, false, target)] + EffectsOf(list[1..], kind, source, target)
  }

  lemma {:induction false} ListIsText(list: seq<Declarator>, kind: BindingKind, source: string, target: string)
    requires forall i :: 0 <= i < |list| ==> DeclaratorFits(list[i], source)
    ensures Text(ListTokens(list, kind, source, target)) == Join(DeclaratorTexts(list, kind, source, target))
    ensures |DeclaratorTexts(list, kind, source, target)| == |list|
  {
    hide DeclaratorTokens, DeclaratorText, DeclaratorFits;
    if list != [] {
      assert DeclaratorFits(list[0], source);
      DeclaratorIsText(list[0], kind, source, false, target);
      ListIsText(list[1..], kind, source, target);
      var texts := DeclaratorTexts(list, kind, source, target);
      assert texts[1..] == DeclaratorTexts(list[1..], kind, source, target);
      hide Text;
      Separated(DeclaratorTokens(list[0], kind, source, false, target), ListTokens(list[1..], kind, source, target));
    }
  }

  lemma {:induction false} ListReads(list: seq<Declarator>, kind: BindingKind, source: string, target: string)
    requires list != [] && forall i :: 0 <= i < |list| ==> DeclaratorFits(list[i], source) && IsPrimary(list[i].id)
    ensures ReadEffects(ListTokens(list, kind, source, target)) == Some(EffectsOf(list, kind, source, target))
  {
    hide DeclaratorTokens, DeclaratorFits, IsPrimary, EffectOf, ReadEffect;
    var d := list[0];
    assert DeclaratorFits(d, source) && IsPrimary(d.id);
    var mine := DeclaratorTokens(d, kind, source, false, target);
    var effect := EffectOf(d, kind, source, false, target);
    if |list| == 1 {
      EffectReads(d, kind, source, false, target, []);
      assert mine + [] == mine && list[1..] == [] && [effect] + [] == [effect];
    } else {
      hide ReadEffects;
      ListReads(list[1..], kind, source, target);
      var later := ListTokens(list[1..], kind, source, target);
      EffectReads(d, kind, source, false, target, [Sign(", ")] + later);
      var ts := mine + ([Sign(", ")] + later);
      assert ListTokens(list, kind, source, target) == ts;
      hide ListTokens;
      EffectsStep(ts, effect, later);
    }
  }

  /** The head of a loop reads back as the assignments of its declarators, in order, or, for
      for-in and for-of, as the target each round is assigned to. */
  lemma HeadReads(h: Head, single: bool, source: string, target: string) returns (pieces: seq<Token>)
    requires h.VarHead? && DeclFits(h.decl, source) && h.decl.declarators != []
    requires forall i :: 0 <= i < |h.decl.declarators| ==> IsPrimary(h.decl.declarators[i].id)
    ensures Text(pieces) == HeadText(h, single, source, target)
    ensures if single then
              ReadPrimary(pieces) == Some((TreeOf(h.decl.declarators[0].id, source, false, target), []))
            else ReadEffects(pieces) == Some(EffectsOf(h.decl.declarators, h.decl.kind, source, target))
  {
    var list := h.decl.declarators;
    if single {
      pieces := PatternTokens(list[0].id, source, false, target);
      PatternText(list[0].id, source, false, target);
      PrimaryReads(list[0].id, source, false, target, []);
      assert pieces + [] == pieces;
    } else {
      pieces := ListTokens(list, h.decl.kind, source, target);
      ListIsText(list, h.decl.kind, source, target);
      ListReads(list, h.decl.kind, source, target);
    }
  }

  /** A class declaration becomes the assignment of the class, as an expression, to its place. */
  lemma ClassReads(name: string, range: Range, source: string, target: string)
    requires InSource(range, source)
    ensures ClassText(name, range, source, target) ==
      target + "[\"" + name + "\"]" + " = " + "(" + source[range.start..range.end] + ")" + ";"
  {}

  // ---- Declarations as statements ----

  /** Its own semicolon is behind the last declarator. */
  predicate EndsPlainly(d: VarDecl, source: string)
    requires InSource(d.at, source) && d.declarators != []
  {
    d.at.end > 0 && source[d.at.end - 1] == ';' ==> d.declarators[|d.declarators| - 1].at.end < d.at.end
  }

  /** The keyword goes; the first declarator comes first; whatever followed the last one stays,
      and the statement ends with a semicolon, its own or one that is added. */
  lemma DeclarationReads(d: VarDecl, source: string, initialize: bool, target: string)
    requires DeclFits(d, source) && d.declarators != [] && EndsPlainly(d, source)
    ensures var text, n := EmitDecl(d, source, initialize, target), |d.declarators|;
      && DeclaratorText(d.declarators[0], d.kind, source, initialize, target) <= text
      && text != [] && text[|text| - 1] == ';'
      && EndsWith(text, source[d.declarators[n - 1].at.end..d.at.end]
                        + (if d.at.end > 0 && source[d.at.end - 1] == ';' then "" else ";"))
  {
    var list := d.declarators;
    var rest := EmitDeclarators(list, list[0].at.start, d.at.end, d.kind, source, initialize, target);
    DeclaratorsEnd(list, list[0].at.start, d.at.end, d.kind, source, initialize, target);
    FirstFirst(list, d.at.end, d.kind, source, initialize, target);
    var tail := source[list[|list| - 1].at.end..d.at.end];
    hide EmitDeclarators, DeclaratorText, JsSlice, DeclaratorFits;
    EndsLonger(rest, tail, ";");
    if !LacksSemicolon(d, source) { LastCharacter(rest, tail, source, d); }
  }

  lemma FirstFirst(list: seq<Declarator>, end: nat, kind: BindingKind, source: string, initialize: bool, target: string)
    requires list != [] && forall i :: 0 <= i < |list| ==> DeclaratorFits(list[i], source)
    ensures DeclaratorText(list[0], kind, source, initialize, target) <=
      EmitDeclarators(list, list[0].at.start, end, kind, source, initialize, target)
  {
    var first := DeclaratorText(list[0], kind, source, initialize, target);
    assert JsSlice(source, list[0].at.start, list[0].at.start) == "" && "" + first == first;
    hide DeclaratorText;
  }

  predicate EndsWith(text: string, tail: string) {
    |tail| <= |text| && text[|text| - |tail|..] == tail
  }

  lemma EndsLonger(text: string, tail: string, more: string)
    requires EndsWith(text, tail)
    ensures EndsWith(text + more, tail + more) && EndsWith(text + "", tail + "")
  {
    assert (text + more)[|text| - |tail|..] == text[|text| - |tail|..] + more;
    assert text + "" == text && tail + "" == tail;
  }

  /** The declaration's own semicolon lies behind its last declarator. */
  lemma LastCharacter(rest: string, tail: string, source: string, d: VarDecl)
    requires DeclFits(d, source) && d.declarators != [] && !LacksSemicolon(d, source) && EndsWith(rest, tail)
    requires tail == source[d.declarators[|d.declarators| - 1].at.end..d.at.end]
    requires d.declarators[|d.declarators| - 1].at.end < d.at.end
    ensures rest != "" && rest[|rest| - 1] == ';'
  {
    assert tail[|tail| - 1] == source[d.at.end - 1];
    assert rest[|rest| - |tail|..][|tail| - 1] == rest[|rest| - 1];
  }

  lemma EndsAfter(before: string, text: string, tail: string)
    requires EndsWith(text, tail)
    ensures EndsWith(before + text, tail)
  {
    assert (before + text)[|before + text| - |tail|..] == text[|text| - |tail|..];
  }

  lemma {:induction false} DeclaratorsEnd(list: seq<Declarator>, cursor: nat, end: nat, kind: BindingKind,
      source: string, initialize: bool, target: string)
    requires list != [] && forall i :: 0 <= i < |list| ==> DeclaratorFits(list[i], source) && list[i].at.end <= end
    requires end <= |source|
    ensures EndsWith(EmitDeclarators(list, cursor, end, kind, source, initialize, target),
                     source[list[|list| - 1].at.end..end])
  {
    assert DeclaratorFits(list[0], source);
    hide DeclaratorText, EndsWith;
    var before := JsSlice(source, cursor, list[0].at.start) + DeclaratorText(list[0], kind, source, initialize, target);
    var after := EmitDeclarators(list[1..], list[0].at.end, end, kind, source, initialize, target);
    var tail := source[list[|list| - 1].at.end..end];
    if |list| == 1 {
      assert list[1..] == [] && after == tail;
      EndsItself(tail);
    } else {
      assert list[1..][|list| - 2] == list[|list| - 1];
      DeclaratorsEnd(list[1..], list[0].at.end, end, kind, source, initialize, target);
    }
    hide JsSlice, DeclaratorFits;
    EndsAfter(before, after, tail);
  }

  lemma EndsItself(text: string)
    ensures EndsWith(text, text)
  {}

  // ---- Holes ----

  function PropertyPattern(p: Property): (q: Pattern)
    ensures q < p
  {
    if p.RestProperty? then p.argument else p.value
  }

  /** An array pattern is read back with as many elements as it declares exactly when it does
      not end with a hole; the names it binds are the same in either case. */
  lemma {:induction false} LastHoleIsLost(elements: seq<Element>, source: string, initialize: bool, target: string)
    requires forall i :: 0 <= i < |elements| ==> ElementFits(elements[i], source)
    ensures var items := ItemsOf(elements, source, initialize, target);
      && |items| == |elements| - (if elements != [] && elements[|elements| - 1] == Hole then 1 else 0)
      && forall i :: 0 <= i < |items| ==> items[i] == ItemOf(elements[i], source, initialize, target)
  {
    hide ElementFits;
    if elements == [] || elements == [Hole] {
    } else {
      LastHoleIsLost(elements[1..], source, initialize, target);
      assert |elements| == 1 ==> elements == [elements[0]] && elements[0] != Hole;
    }
  }

  // ---- Names ----

  /** The references a target writes, in order. */
  function Refs(t: Tree): seq<string>
    decreases t
  {
    match t
    case Ref(text) => [text]
    case Default(left, _) => Refs(left)
    case Spread(argument) => Refs(argument)
    case Items(items) => ItemRefs(items)
    case Fields(fields) => FieldRefs(fields)
  }

  function ItemRef(item: Option<Tree>): seq<string>
    decreases item
  {
    match item
    case None => []
    case Some(t) => Refs(t)
  }

  function ItemRefs(items: seq<Option<Tree>>): seq<string>
    decreases items
  {
    if items == [] then [] else ItemRef(items[0]) + ItemRefs(items[1..])
  }

  function FieldRef(field: Field): seq<string>
    decreases field
  {
    match field
    case RestField(argument) => Refs(argument)
    case KeyField(_, _, value) => Refs(value)
  }

  function FieldRefs(fields: seq<Field>): seq<string>
    decreases fields
  {
    if fields == [] then [] else FieldRef(fields[0]) + FieldRefs(fields[1..])
  }

  /** A pattern of a declaration, which has no members. */
  predicate Binds(p: Pattern)
    decreases p
  {
    match p
    case Identifier(_) => true
    case Member(_) => false
    case Assignment(left, _) => Binds(left)
    case Rest(argument) => Binds(argument)
    case ArrayPattern(elements) =>
      forall i :: 0 <= i < |elements| && elements[i].Element? ==> Binds(elements[i].pattern)
    case ObjectPattern(properties) => forall i :: 0 <= i < |properties| ==> Binds(PropertyPattern(properties[i]))
  }

  /** The names a pattern declares are exactly the references its assignment writes. */
  lemma {:induction false} NamesAreWritten(p: Pattern, source: string, target: string)
    requires PatternFits(p, source) && Binds(p)
    ensures Refs(TreeOf(p, source, false, target)) == Names(p)
    decreases p
  {
    match p
    case Identifier(_) =>
    case Assignment(left, _) => NamesAreWritten(left, source, target);
    case Rest(argument) => NamesAreWritten(argument, source, target);
    case ArrayPattern(elements) => ItemNamesWritten(elements, source, target);
    case ObjectPattern(properties) => FieldNamesWritten(properties, source, target);
  }

  lemma {:induction false} ItemNamesWritten(elements: seq<Element>, source: string, target: string)
    requires forall i :: 0 <= i < |elements| ==> ElementFits(elements[i], source)
    requires forall i :: 0 <= i < |elements| && elements[i].Element? ==> Binds(elements[i].pattern)
    ensures ItemRefs(ItemsOf(elements, source, false, target)) == ElementNames(elements)
    decreases elements
  {
    if elements == [] {
    } else if elements == [Hole] {
      assert ElementNames(elements[1..]) == [];
    } else {
      assert ElementFits(elements[0], source);
      ElementNamesWritten(elements[0], source, target);
      ItemNamesWritten(elements[1..], source, target);
      var items := ItemsOf(elements, source, false, target);
      assert items[0] == ItemOf(elements[0], source, false, target);
      assert items[1..] == ItemsOf(elements[1..], source, false, target);
    }
  }

  lemma {:induction false} ElementNamesWritten(e: Element, source: string, target: string)
    requires ElementFits(e, source) && (e.Element? ==> Binds(e.pattern))
    ensures (if e.Element? then Refs(TreeOf(e.pattern, source, false, target)) else []) == ElementName(e)
    decreases e
  {
    if e.Element? { NamesAreWritten(e.pattern, source, target); }
  }

  lemma {:induction false} FieldNamesWritten(properties: seq<Property>, source: string, target: string)
    requires forall i :: 0 <= i < |properties| ==> PropertyFits(properties[i], source)
    requires forall i :: 0 <= i < |properties| ==> Binds(PropertyPattern(properties[i]))
    ensures FieldRefs(FieldsOf(properties, source, false, target)) == PropertyNames(properties)
    decreases properties
  {
    if properties != [] {
      assert PropertyFits(properties[0], source);
      PropertyNamesWritten(properties[0], source, target);
      FieldNamesWritten(properties[1..], source, target);
      var fields := FieldsOf(properties, source, false, target);
      assert fields[0] == FieldOf(properties[0], source, false, target);
      assert fields[1..] == FieldsOf(properties[1..], source, false, target);
    }
  }

  lemma {:induction false} PropertyNamesWritten(p: Property, source: string, target: string)
    requires PropertyFits(p, source) && Binds(PropertyPattern(p))
    ensures Refs(TreeOf(PropertyPattern(p), source, false, target)) == PropertyName(p)
    decreases p
  {
    NamesAreWritten(PropertyPattern(p), source, target);
  }

  // ---- What a cell declares ----

  /** A var declaration in the statement, however deep, or in the head of a loop in it. */
  ghost predicate VarDeclIn(s: Statement, d: VarDecl)
    decreases s
  {
    d.kind == Var
    && match s
       case Declaration(e) => e == d
       case Compound(children, _) => exists i :: 0 <= i < |children| && VarDeclIn(children[i], d)
       case For(init, body, _) => init == VarHead(d) || VarDeclIn(body, d)
       case ForIn(left, body, _) => left == VarHead(d) || VarDeclIn(body, d)
       case _ => false
  }

  ghost predicate Declares(d: VarDecl, name: string) {
    exists j :: 0 <= j < |d.declarators| && name in Names(d.declarators[j].id)
  }

  ghost predicate DeclaresVar(s: Statement, name: string) {
    exists d :: VarDeclIn(s, d) && Declares(d, name)
  }

  lemma {:induction false} BoundHas(names: seq<string>, kind: BindingKind, b: Binding)
    ensures b in Bound(names, kind) <==> b.kind == kind && b.name in names
  {
    if names != [] {
      BoundHas(names[1..], kind, b);
      assert b.name in names <==> b.name == names[0] || b.name in names[1..];
    }
  }

  lemma {:induction false} DeclBindingsHas(list: seq<Declarator>, kind: BindingKind, b: Binding)
    ensures b in DeclBindings(list, kind) <==>
      b.kind == kind && exists j :: 0 <= j < |list| && b.name in Names(list[j].id)
  {
    if list != [] {
      BoundHas(Names(list[0].id), kind, b);
      DeclBindingsHas(list[1..], kind, b);
      if j :| 0 <= j < |list[1..]| && b.name in Names(list[1..][j].id) { assert b.name in Names(list[j + 1].id); }
      if j :| 0 < j < |list| && b.name in Names(list[j].id) { assert b.name in Names(list[1..][j - 1].id); }
    }
  }

  lemma HeadHas(h: Head, b: Binding)
    ensures b in HeadBindings(h) <==> b.kind == Var && h.VarHead? && h.decl.kind == Var && Declares(h.decl, b.name)
  {
    if h.VarHead? { DeclBindingsHas(h.decl.declarators, Var, b); }
  }

  /** Below the top level a statement binds exactly the names of the var declarations in it. */
  lemma {:induction false} NestedBinds(s: Statement, b: Binding)
    ensures b in StatementBindings(s) <==> b.kind == Var && DeclaresVar(s, b.name)
    decreases s
  {
    match s
    case Declaration(d) =>
      DeclBindingsHas(d.declarators, Var, b);
      assert VarDeclIn(s, d) <==> d.kind == Var;
    case Compound(children, _) =>
      ListBinds(children, b);
      forall i, d | 0 <= i < |children| && VarDeclIn(children[i], d) ensures VarDeclIn(s, d) {}
    case For(init, body, _) => LoopBinds(s, init, body, b);
    case ForIn(left, body, _) => LoopBinds(s, left, body, b);
    case _ =>
  }

  lemma {:induction false} LoopBinds(s: Statement, h: Head, body: Statement, b: Binding)
    requires body < s
    requires (s.For? && s.init == h && s.body == body) || (s.ForIn? && s.left == h && s.body == body)
    ensures b in StatementBindings(s) <==> b.kind == Var && DeclaresVar(s, b.name)
    decreases s, 0
  {
    HeadHas(h, b);
    NestedBinds(body, b);
    if DeclaresVar(body, b.name) {
      var d :| VarDeclIn(body, d) && Declares(d, b.name);
      assert VarDeclIn(s, d);
    }
    if h.VarHead? && h.decl.kind == Var { assert VarDeclIn(s, h.decl); }
    if DeclaresVar(s, b.name) {
      var d :| VarDeclIn(s, d) && Declares(d, b.name);
      assert h == VarHead(d) || VarDeclIn(body, d);
    }
  }

  lemma {:induction false} ListBinds(list: seq<Statement>, b: Binding)
    ensures b in ListBindings(list) <==>
      b.kind == Var && exists i :: 0 <= i < |list| && DeclaresVar(list[i], b.name)
    decreases list
  {
    if list != [] {
      NestedBinds(list[0], b);
      ListBinds(list[1..], b);
      if i :| 0 <= i < |list[1..]| && DeclaresVar(list[1..][i], b.name) { assert DeclaresVar(list[i + 1], b.name); }
      if i :| 0 < i < |list| && DeclaresVar(list[i], b.name) { assert DeclaresVar(list[1..][i - 1], b.name); }
    }
  }

  /** What a statement at the top level declares: everything in a declaration there, functions
      and classes, and the vars of whatever else it contains. */
  ghost predicate DeclaresAt(s: Statement, b: Binding) {
    match s
    case Declaration(d) => b.kind == d.kind && Declares(d, b.name)
    case FunctionDecl(name, _, _) => b == Binding(name, Function)
    case ClassDecl(name, _) => b == Binding(name, Class)
    case _ => b.kind == Var && DeclaresVar(s, b.name)
  }

  /** A cell binds exactly what its statements declare. */
  lemma {:induction false} CellBinds(body: seq<Statement>, b: Binding)
    ensures b in CellBindings(body) <==> exists i :: 0 <= i < |body| && DeclaresAt(body[i], b)
  {
    if body != [] {
      if body[0].Declaration? {
        DeclBindingsHas(body[0].decl.declarators, body[0].decl.kind, b);
      } else {
        NestedBinds(body[0], b);
      }
      CellBinds(body[1..], b);
      if i :| 0 <= i < |body[1..]| && DeclaresAt(body[1..][i], b) { assert DeclaresAt(body[i + 1], b); }
      if i :| 0 < i < |body| && DeclaresAt(body[i], b) { assert DeclaresAt(body[1..][i - 1], b); }
    }
  }
}
