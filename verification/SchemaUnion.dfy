/** Reading an action's input schema: nested unions flattened to branches, and parameters merged across them. */
module SchemaUnion {
  import opened Wrappers

  // A property's spec as canonical JSON; None when it is not an object.
  datatype Property = Property(name: string, spec: Option<string>)

  // A schema: true or false, or keywords. scalar says that a type keyword excludes objects, closed that no keys
  // beside the node's own properties may appear; a missing union is empty.
  datatype Node =
    | Literal(accepting: bool)
    | Node(scalar: bool, closed: bool, properties: Option<seq<Property>>, required: set<string>,
           anyOf: seq<Node>, oneOf: seq<Node>)

  datatype Variant = Variant(properties: seq<Property>, required: set<string>, closed: bool)

  type Keys = set<string>

  // ---- Flattening ----

  /** The branches of a node: itself, or those of its first union that has any. */
  function VariantsOf(node: Node): seq<Variant>
    decreases node
  {
    if node.Literal? then []
    else if node.properties.Some? then [Variant(node.properties.value, node.required, node.closed)]
    else
      var collected := Collect(node, node.anyOf);
      if collected != [] then collected else Collect(node, node.oneOf)
  }

  function Collect(parent: Node, branches: seq<Node>): seq<Variant>
    requires forall i :: 0 <= i < |branches| ==> branches[i] < parent
    decreases parent, |branches|
  {
    if branches == [] then [] else VariantsOf(branches[0]) + Collect(parent, branches[1..])
  }

  // ---- What a schema accepts: every keyword of every node counts ----

  function NamesOf(properties: seq<Property>): Keys {
    set i | 0 <= i < |properties| :: properties[i].name
  }

  function Declared(properties: Option<seq<Property>>): Keys {
    if properties.Some? then NamesOf(properties.value) else {}
  }

  /** An object with these keys passes: the node's own keywords and some branch of each union it has. */
  predicate Accepts(node: Node, keys: Keys)
    decreases node
  {
    match node
    case Literal(accepting) => accepting
    case Node(scalar, closed, properties, required, anyOf, oneOf) =>
      && !scalar && required <= keys && (closed ==> keys <= Declared(properties))
      && (anyOf == [] || exists i :: 0 <= i < |anyOf| && Accepts(anyOf[i], keys))
      && (oneOf == [] || exists i :: 0 <= i < |oneOf| && Accepts(oneOf[i], keys))
  }

  ghost predicate BranchAccepts(branches: seq<Node>, keys: Keys) {
    exists i :: 0 <= i < |branches| && Accepts(branches[i], keys)
  }

  lemma BranchAcceptsSplit(branches: seq<Node>, keys: Keys)
    requires branches != []
    ensures BranchAccepts(branches, keys) <==> Accepts(branches[0], keys) || BranchAccepts(branches[1..], keys)
  {
    var rest := branches[1..];
    forall i | 0 <= i < |rest| ensures rest[i] == branches[i + 1] {
    }
    if BranchAccepts(branches, keys) {
      var i :| 0 <= i < |branches| && Accepts(branches[i], keys);
      assert i > 0 ==> rest[i - 1] == branches[i];
    }
  }

  // ---- Boxes: all key sets between a smallest and, when there is one, a largest ----

  datatype Box = Box(least: Keys, most: Option<Keys>)

  const ANY: Box := Box({}, None)

  predicate Within(box: Box, keys: Keys) {
    box.least <= keys && (box.most.Some? ==> keys <= box.most.value)
  }

  predicate Covers(boxes: seq<Box>, keys: Keys) {
    exists i :: 0 <= i < |boxes| && Within(boxes[i], keys)
  }

  /** Some key set lies in the box; its smallest one does. */
  predicate Possible(box: Box) {
    Within(box, box.least)
  }

  lemma CoversAppend(a: seq<Box>, b: seq<Box>, keys: Keys)
    ensures Covers(a + b, keys) <==> Covers(a, keys) || Covers(b, keys)
  {
    var all := a + b;
    if Covers(a, keys) {
      var i :| 0 <= i < |a| && Within(a[i], keys);
      assert all[i] == a[i];
    }
    if Covers(b, keys) {
      var i :| 0 <= i < |b| && Within(b[i], keys);
      assert all[|a| + i] == b[i];
    }
    if Covers(all, keys) {
      var i :| 0 <= i < |all| && Within(all[i], keys);
      assert if i < |a| then all[i] == a[i] else all[i] == b[i - |a|];
    }
  }

  // ---- The flattened branches as boxes ----

  function BoxOf(variant: Variant): Box {
    Box(variant.required, if variant.closed then Some(NamesOf(variant.properties)) else None)
  }

  function BoxesOf(variants: seq<Variant>): seq<Box> {
    seq(|variants|, i requires 0 <= i < |variants| => BoxOf(variants[i]))
  }

  /** Some branch has all its required keys there and, when closed, no others than its properties. */
  predicate VariantAccepts(variants: seq<Variant>, keys: Keys) {
    Covers(BoxesOf(variants), keys)
  }

  lemma AcceptsAppend(a: seq<Variant>, b: seq<Variant>, keys: Keys)
    ensures VariantAccepts(a + b, keys) <==> VariantAccepts(a, keys) || VariantAccepts(b, keys)
  {
    assert BoxesOf(a + b) == BoxesOf(a) + BoxesOf(b);
    CoversAppend(BoxesOf(a), BoxesOf(b), keys);
  }

  /** The flattened branches accept the same key sets as the schema. */
  ghost predicate FlattensExactly(node: Node) {
    forall keys: Keys :: Accepts(node, keys) <==> VariantAccepts(VariantsOf(node), keys)
  }

  // ---- Pure schemas ----

  /** Describes no object and lets none pass. */
  predicate Dull(node: Node) {
    match node
    case Literal(accepting) => !accepting
    case Node(scalar, _, properties, _, anyOf, oneOf) => scalar && properties.None? && anyOf == [] && oneOf == []
  }

  /** One thing at a time: properties with their required names, or one union of such schemas and nothing beside it. */
  predicate Pure(node: Node)
    decreases node
  {
    && node.Node? && !node.scalar
    && if node.properties.Some? then node.anyOf == [] && node.oneOf == []
       else
         && node.required == {} && !node.closed && (node.anyOf == []) != (node.oneOf == [])
         && (forall i :: 0 <= i < |node.anyOf| ==> Dull(node.anyOf[i]) || Pure(node.anyOf[i]))
         && (forall i :: 0 <= i < |node.oneOf| ==> Dull(node.oneOf[i]) || Pure(node.oneOf[i]))
  }

  lemma {:induction false} PureBranches(parent: Node, branches: seq<Node>, keys: Keys)
    requires forall i :: 0 <= i < |branches| ==> branches[i] < parent && (Dull(branches[i]) || Pure(branches[i]))
    ensures VariantAccepts(Collect(parent, branches), keys) <==> BranchAccepts(branches, keys)
    decreases parent, |branches|
  {
    if branches != [] {
      PureKeepsAcceptance(branches[0], keys);
      PureBranches(parent, branches[1..], keys);
      AcceptsAppend(VariantsOf(branches[0]), Collect(parent, branches[1..]), keys);
      BranchAcceptsSplit(branches, keys);
      hide Accepts, VariantsOf, VariantAccepts, BranchAccepts, Pure, Dull;
    }
  }

  lemma {:induction false} PureKeepsAcceptance(node: Node, keys: Keys)
    requires Dull(node) || Pure(node)
    ensures Accepts(node, keys) <==> VariantAccepts(VariantsOf(node), keys)
    decreases node
  {
    if Pure(node) {
      if node.properties.Some? {
        assert BoxesOf(VariantsOf(node))[0] == Box(node.required, if node.closed then Some(Declared(node.properties)) else None);
      } else {
        PureBranches(node, node.anyOf, keys);
        PureBranches(node, node.oneOf, keys);
        assert BranchAccepts(node.anyOf, keys) || BranchAccepts(node.oneOf, keys) <==> Accepts(node, keys);
      }
    }
  }

  /** However the unions of a pure schema nest, and whichever of its branches are closed, flattening is exact. */
  lemma PureFlattensExactly(node: Node)
    requires Pure(node)
    ensures FlattensExactly(node)
  {
    forall keys: Keys ensures Accepts(node, keys) <==> VariantAccepts(VariantsOf(node), keys) {
      PureKeepsAcceptance(node, keys);
    }
  }

  // ---- Mixed schemas: the boxes a schema accepts ----

  function Lower(a: Option<Keys>, b: Option<Keys>): Option<Keys> {
    if a.None? then b else if b.None? then a else Some(a.value * b.value)
  }

  /** What lies in both boxes. */
  function Meet(a: Box, b: Box): Box {
    Box(a.least + b.least, Lower(a.most, b.most))
  }

  function Cross(a: seq<Box>, b: seq<Box>): seq<Box> {
    if a == [] then [] else CrossOne(a[0], b) + Cross(a[1..], b)
  }

  function CrossOne(x: Box, b: seq<Box>): seq<Box> {
    seq(|b|, i requires 0 <= i < |b| => Meet(x, b[i]))
  }

  /** One box per way of choosing a branch in every union. */
  function Boxes(node: Node): seq<Box>
    decreases node
  {
    match node
    case Literal(accepting) => if accepting then [ANY] else []
    case Node(scalar, closed, properties, required, anyOf, oneOf) =>
      if scalar then []
      else
        var own := Box(required, if closed then Some(Declared(properties)) else None);
        Cross(Cross([own], Choices(node, anyOf)), Choices(node, oneOf))
  }

  function Choices(parent: Node, branches: seq<Node>): seq<Box>
    requires forall i :: 0 <= i < |branches| ==> branches[i] < parent
    decreases parent, |branches|, 1
  {
    if branches == [] then [ANY] else AllBoxes(parent, branches)
  }

  function AllBoxes(parent: Node, branches: seq<Node>): seq<Box>
    requires forall i :: 0 <= i < |branches| ==> branches[i] < parent
    decreases parent, |branches|, 0
  {
    if branches == [] then [] else Boxes(branches[0]) + AllBoxes(parent, branches[1..])
  }

  lemma MeetIsBoth(a: Box, b: Box, keys: Keys)
    ensures Within(Meet(a, b), keys) <==> Within(a, keys) && Within(b, keys)
  {
  }

  lemma CrossOneCovers(x: Box, b: seq<Box>, keys: Keys)
    ensures Covers(CrossOne(x, b), keys) <==> Within(x, keys) && Covers(b, keys)
  {
    var all := CrossOne(x, b);
    if Covers(all, keys) {
      var i :| 0 <= i < |all| && Within(all[i], keys);
      MeetIsBoth(x, b[i], keys);
    }
    if Within(x, keys) && Covers(b, keys) {
      var i :| 0 <= i < |b| && Within(b[i], keys);
      MeetIsBoth(x, b[i], keys);
      assert all[i] == Meet(x, b[i]);
    }
  }

  lemma OneBoxCovers(box: Box, keys: Keys)
    ensures Covers([box], keys) <==> Within(box, keys)
  {
    assert [box][0] == box;
  }

  lemma {:induction false} CrossCovers(a: seq<Box>, b: seq<Box>, keys: Keys)
    ensures Covers(Cross(a, b), keys) <==> Covers(a, keys) && Covers(b, keys)
  {
    if a != [] {
      CrossOneCovers(a[0], b, keys);
      CrossCovers(a[1..], b, keys);
      CoversAppend(CrossOne(a[0], b), Cross(a[1..], b), keys);
      CoversAppend([a[0]], a[1..], keys);
      OneBoxCovers(a[0], keys);
      assert a == [a[0]] + a[1..];
    }
  }

  lemma {:induction false} ChoicesCover(parent: Node, branches: seq<Node>, keys: Keys)
    requires forall i :: 0 <= i < |branches| ==> branches[i] < parent
    ensures Covers(AllBoxes(parent, branches), keys) <==> BranchAccepts(branches, keys)
    ensures Covers(Choices(parent, branches), keys) <==> branches == [] || BranchAccepts(branches, keys)
    decreases parent, |branches|
  {
    OneBoxCovers(ANY, keys);
    if branches != [] {
      BoxesCover(branches[0], keys);
      ChoicesCover(parent, branches[1..], keys);
      CoversAppend(Boxes(branches[0]), AllBoxes(parent, branches[1..]), keys);
      BranchAcceptsSplit(branches, keys);
      hide Accepts, Boxes, Covers, BranchAccepts;
    }
  }

  /** Any schema accepts exactly the key sets that lie in one of its boxes. */
  lemma {:induction false} BoxesCover(node: Node, keys: Keys)
    ensures Accepts(node, keys) <==> Covers(Boxes(node), keys)
    decreases node
  {
    match node
    case Literal(accepting) =>
      OneBoxCovers(ANY, keys);
    case Node(scalar, closed, properties, required, anyOf, oneOf) =>
      if !scalar {
        var own := Box(required, if closed then Some(Declared(properties)) else None);
        ChoicesCover(node, anyOf, keys);
        ChoicesCover(node, oneOf, keys);
        OneBoxCovers(own, keys);
        CrossCovers([own], Choices(node, anyOf), keys);
        CrossCovers(Cross([own], Choices(node, anyOf)), Choices(node, oneOf), keys);
        assert Accepts(node, keys) <==>
          Within(own, keys) && (anyOf == [] || BranchAccepts(anyOf, keys)) && (oneOf == [] || BranchAccepts(oneOf, keys));
      }
  }

  // ---- Any schema: only the names it mentions count ----

  function Mentioned(box: Box): Keys {
    box.least + if box.most.Some? then box.most.value else {}
  }

  function Universe(boxes: seq<Box>): Keys {
    set i, name | 0 <= i < |boxes| && name in Mentioned(boxes[i]) :: name
  }

  /** The same mentioned names, and one stranger for all others. */
  function Shrunk(keys: Keys, names: Keys, stranger: string): Keys {
    keys * names + if keys <= names then {} else {stranger}
  }

  lemma ShrunkCovers(boxes: seq<Box>, keys: Keys, names: Keys, stranger: string)
    requires Universe(boxes) <= names && stranger !in names
    ensures Covers(boxes, keys) <==> Covers(boxes, Shrunk(keys, names, stranger))
  {
    forall i | 0 <= i < |boxes| ensures Within(boxes[i], keys) <==> Within(boxes[i], Shrunk(keys, names, stranger)) {
      forall name | name in Mentioned(boxes[i]) ensures name in names {
        assert name in Universe(boxes);
      }
      ShrunkWithin(boxes[i], keys, names, stranger);
    }
  }

  lemma ShrunkWithin(box: Box, keys: Keys, names: Keys, stranger: string)
    requires Mentioned(box) <= names && stranger !in names
    ensures Within(box, keys) <==> Within(box, Shrunk(keys, names, stranger))
  {
    if keys <= names {
      assert Shrunk(keys, names, stranger) == keys;
    } else {
      var other :| other in keys && other !in names;
      assert stranger in Shrunk(keys, names, stranger);
    }
  }

  function SchemaNames(node: Node): Keys {
    Universe(Boxes(node)) + Universe(BoxesOf(VariantsOf(node)))
  }

  /** Schema and branches give one answer on every set of the schema's names, with and without a stranger. */
  predicate AgreesOnNames(node: Node, stranger: string) {
    var names := SchemaNames(node) + {stranger};
    forall keys: Keys | keys <= names :: Accepts(node, keys) <==> VariantAccepts(VariantsOf(node), keys)
  }

  /** For any schema, mixed or closed anywhere: flattening is exact exactly when finitely many key sets say so. */
  lemma FlattensExactlyIff(node: Node, stranger: string)
    requires stranger !in SchemaNames(node)
    ensures FlattensExactly(node) <==> AgreesOnNames(node, stranger)
  {
    var names := SchemaNames(node);
    if AgreesOnNames(node, stranger) {
      forall keys: Keys ensures Accepts(node, keys) <==> VariantAccepts(VariantsOf(node), keys) {
        var few := Shrunk(keys, names, stranger);
        BoxesCover(node, keys);
        BoxesCover(node, few);
        ShrunkCovers(Boxes(node), keys, names, stranger);
        ShrunkCovers(BoxesOf(VariantsOf(node)), keys, names, stranger);
        assert few <= names + {stranger};
      }
    }
  }

  // ---- Open schemas: one key set per box is enough ----

  predicate Open(node: Node)
    decreases node
  {
    node.Literal? ||
    (!node.closed && (forall i :: 0 <= i < |node.anyOf| ==> Open(node.anyOf[i]))
                  && (forall i :: 0 <= i < |node.oneOf| ==> Open(node.oneOf[i])))
  }

  predicate Unbounded(boxes: seq<Box>) {
    forall box :: box in boxes ==> box.most.None?
  }

  lemma {:induction false} CrossUnbounded(a: seq<Box>, b: seq<Box>)
    requires Unbounded(a) && Unbounded(b)
    ensures Unbounded(Cross(a, b))
  {
    if a != [] {
      CrossUnbounded(a[1..], b);
      assert a[0] in a && forall i :: 0 <= i < |b| ==> b[i] in b;
    }
  }

  lemma {:induction false} OpenChoices(parent: Node, branches: seq<Node>)
    requires forall i :: 0 <= i < |branches| ==> branches[i] < parent && Open(branches[i])
    ensures Unbounded(Choices(parent, branches)) && Unbounded(AllBoxes(parent, branches))
    ensures Unbounded(BoxesOf(Collect(parent, branches)))
    decreases parent, |branches|
  {
    if branches != [] {
      OpenIsUnbounded(branches[0]);
      OpenChoices(parent, branches[1..]);
      assert BoxesOf(Collect(parent, branches)) ==
        BoxesOf(VariantsOf(branches[0])) + BoxesOf(Collect(parent, branches[1..]));
    }
  }

  lemma {:induction false} OpenIsUnbounded(node: Node)
    requires Open(node)
    ensures Unbounded(Boxes(node)) && Unbounded(BoxesOf(VariantsOf(node)))
    decreases node
  {
    if node.Node? {
      OpenChoices(node, node.anyOf);
      OpenChoices(node, node.oneOf);
      if !node.scalar {
        var own := [Box(node.required, None)];
        CrossUnbounded(own, Choices(node, node.anyOf));
        CrossUnbounded(Cross(own, Choices(node, node.anyOf)), Choices(node, node.oneOf));
      }
    }
  }

  /** The smallest key set of each box on one side passes the other side. */
  ghost predicate LeastPass(a: seq<Box>, b: seq<Box>) {
    forall box :: box in a ==> Covers(b, box.least)
  }

  lemma LeastPassDecides(a: seq<Box>, b: seq<Box>, keys: Keys)
    requires Unbounded(a) && Unbounded(b) && LeastPass(a, b) && Covers(a, keys)
    ensures Covers(b, keys)
  {
    var i :| 0 <= i < |a| && Within(a[i], keys);
    assert a[i] in a;
    var j :| 0 <= j < |b| && Within(b[j], a[i].least);
    assert b[j] in b;
    assert Within(b[j], keys);
  }

  lemma LeastIsCovered(a: seq<Box>, box: Box)
    requires Unbounded(a) && box in a
    ensures Covers(a, box.least)
  {
    var i :| 0 <= i < |a| && a[i] == box;
    assert Within(a[i], box.least);
  }

  /** For an open schema: flattening is exact exactly when each branch's required names pass the schema and back. */
  lemma OpenFlattensExactlyIff(node: Node)
    requires Open(node)
    ensures FlattensExactly(node) <==>
      LeastPass(BoxesOf(VariantsOf(node)), Boxes(node)) && LeastPass(Boxes(node), BoxesOf(VariantsOf(node)))
  {
    var flat, whole := BoxesOf(VariantsOf(node)), Boxes(node);
    OpenIsUnbounded(node);
    if FlattensExactly(node) {
      forall box | box in flat ensures Covers(whole, box.least) {
        LeastIsCovered(flat, box);
        assert VariantAccepts(VariantsOf(node), box.least);
        BoxesCover(node, box.least);
      }
      forall box | box in whole ensures Covers(flat, box.least) {
        LeastIsCovered(whole, box);
        BoxesCover(node, box.least);
        assert VariantAccepts(VariantsOf(node), box.least);
      }
    }
    if LeastPass(flat, whole) && LeastPass(whole, flat) {
      forall keys: Keys ensures Accepts(node, keys) <==> VariantAccepts(VariantsOf(node), keys) {
        BoxesCover(node, keys);
        if Covers(whole, keys) {
          LeastPassDecides(whole, flat, keys);
        }
        if Covers(flat, keys) {
          LeastPassDecides(flat, whole, keys);
        }
      }
    }
  }

  // ---- Merging parameters ----

  datatype Param = Param(name: string, specs: seq<string>, required: bool)

  const NO_SPEC: string := "{}"

  /** The spec a branch gives a name; "{}" when it gives none. */
  function SpecIn(properties: seq<Property>, name: string): Option<string> {
    if properties == [] then None
    else if properties[0].name == name then properties[0].spec
    else SpecIn(properties[1..], name)
  }

  function SpecOrEmpty(variant: Variant, name: string): string {
    var spec := SpecIn(variant.properties, name);
    if spec.Some? then spec.value else NO_SPEC
  }

  predicate RequiredBy(variant: Variant, name: string) {
    SpecIn(variant.properties, name).Some? && name in variant.required
  }

  function Added<T(==)>(items: seq<T>, item: T): seq<T> {
    if item in items then items else items + [item]
  }

  /** Repetitions dropped, the first of each kept. */
  function Distinct(items: seq<string>): seq<string> {
    if items == [] then [] else Added(Distinct(items[..|items| - 1]), items[|items| - 1])
  }

  /** Where an item appears first; the length when it does not. */
  function FirstIndex(items: seq<string>, item: string): (i: nat)
    ensures i <= |items|
  {
    if items == [] || items[0] == item then 0 else 1 + FirstIndex(items[1..], item)
  }

  /** Each once, in the order of first appearance. */
  predicate InOrder(items: seq<string>, mentions: seq<string>) {
    forall i, j :: 0 <= i < j < |items| ==> FirstIndex(mentions, items[i]) < FirstIndex(mentions, items[j])
  }

  ghost predicate ByFirstAppearance(items: seq<string>, mentions: seq<string>) {
    (forall item :: item in items <==> item in mentions) && InOrder(items, mentions)
  }

  lemma {:induction false} FirstIndexSnoc(items: seq<string>, last: string, item: string)
    ensures FirstIndex(items, item) < |items| <==> item in items
    ensures FirstIndex(items + [last], item) ==
              if item in items then FirstIndex(items, item) else if item == last then |items| else |items| + 1
  {
    if items == [] {
      assert ([last])[1..] == [];
      assert items + [last] == [last];
    } else {
      FirstIndexSnoc(items[1..], last, item);
      assert (items + [last])[0] == items[0] && (items + [last])[1..] == items[1..] + [last];
    }
  }

  lemma {:induction false} DistinctByFirstAppearance(items: seq<string>)
    ensures ByFirstAppearance(Distinct(items), items)
  {
    if items != [] {
      var before, last := items[..|items| - 1], items[|items| - 1];
      DistinctByFirstAppearance(before);
      assert items == before + [last];
      var kept := Distinct(before);
      forall item ensures FirstIndex(items, item) ==
          if item in before then FirstIndex(before, item) else if item == last then |before| else |before| + 1 {
        FirstIndexSnoc(before, last, item);
      }
      forall i | 0 <= i < |kept| ensures kept[i] in before && FirstIndex(before, kept[i]) < |before| {
        assert kept[i] in kept;
        FirstIndexSnoc(before, last, kept[i]);
      }
    }
  }

  function PropertyNames(properties: seq<Property>): seq<string> {
    seq(|properties|, i requires 0 <= i < |properties| => properties[i].name)
  }

  /** Every name as often as a branch declares it, in order. */
  function Mentions(variants: seq<Variant>): seq<string> {
    if variants == [] then []
    else Mentions(variants[..|variants| - 1]) + PropertyNames(variants[|variants| - 1].properties)
  }

  function AllNames(variants: seq<Variant>): seq<string> {
    Distinct(Mentions(variants))
  }

  function SpecsFor(variants: seq<Variant>, name: string): seq<string> {
    seq(|variants|, i requires 0 <= i < |variants| => SpecOrEmpty(variants[i], name))
  }

  predicate RequiredInAll(variants: seq<Variant>, name: string) {
    forall i :: 0 <= i < |variants| ==> RequiredBy(variants[i], name)
  }

  function Merged(variants: seq<Variant>, name: string): Param {
    Param(name, Distinct(SpecsFor(variants, name)), variants != [] && RequiredInAll(variants, name))
  }

  function MergedAll(variants: seq<Variant>, names: seq<string>): seq<Param> {
    seq(|names|, i requires 0 <= i < |names| => Merged(variants, names[i]))
  }

  method AddNames(names: seq<string>, properties: seq<Property>, ghost before: seq<string>) returns (more: seq<string>)
    requires names == Distinct(before)
    ensures more == Distinct(before + PropertyNames(properties))
  {
    more := names;
    ghost var added := PropertyNames(properties);
    assert before + added[..0] == before;
    for j := 0 to |properties|
      invariant more == Distinct(before + added[..j])
    {
      assert (before + added[..j + 1])[..|before| + j] == before + added[..j];
      if properties[j].name !in more {
        more := more + [properties[j].name];
      }
    }
    assert added[..|properties|] == added;
  }

  /** Every name of every branch once, in order of first appearance. */
  method CollectNames(variants: seq<Variant>) returns (names: seq<string>)
    ensures names == AllNames(variants) && ByFirstAppearance(names, Mentions(variants))
  {
    names := [];
    for i := 0 to |variants|
      invariant names == Distinct(Mentions(variants[..i]))
    {
      assert variants[..i + 1][..i] == variants[..i];
      names := AddNames(names, variants[i].properties, Mentions(variants[..i]));
    }
    assert variants[..|variants|] == variants;
    DistinctByFirstAppearance(Mentions(variants));
  }

  /** One name's spec and required flag per branch, merged: distinct specs in order, required only if everywhere. */
  method MergeParam(variants: seq<Variant>, name: string) returns (param: Param)
    ensures param == Merged(variants, name) && ByFirstAppearance(param.specs, SpecsFor(variants, name))
  {
    var distinct: seq<string>, required := [], variants != [];
    ghost var specs := SpecsFor(variants, name);
    for i := 0 to |variants|
      invariant distinct == Distinct(specs[..i])
      invariant required <==> variants != [] && forall j :: 0 <= j < i ==> RequiredBy(variants[j], name)
    {
      assert specs[..i + 1][..i] == specs[..i];
      var spec := SpecOrEmpty(variants[i], name);
      if spec !in distinct {
        distinct := distinct + [spec];
      }
      if !RequiredBy(variants[i], name) {
        required := false;
      }
    }
    assert specs[..|variants|] == specs;
    DistinctByFirstAppearance(specs);
    return Param(name, distinct, required);
  }

  function ParamNames(params: seq<Param>): seq<string> {
    seq(|params|, i requires 0 <= i < |params| => params[i].name)
  }

  /** One merged parameter per name, in order of first appearance. */
  method SchemaParamSpecs(schema: Node) returns (params: seq<Param>)
    ensures params == MergedAll(VariantsOf(schema), AllNames(VariantsOf(schema)))
    ensures ByFirstAppearance(ParamNames(params), Mentions(VariantsOf(schema)))
  {
    var variants := VariantsOf(schema);
    var names := CollectNames(variants);
    params := [];
    for i := 0 to |names|
      invariant params == MergedAll(variants, names)[..i]
    {
      var param := MergeParam(variants, names[i]);
      params := params + [param];
    }
    assert ParamNames(params) == names;
  }

  function RequiredOf(params: seq<Param>): seq<string> {
    if params == [] then []
    else if params[|params| - 1].required then RequiredOf(params[..|params| - 1]) + [params[|params| - 1].name]
    else RequiredOf(params[..|params| - 1])
  }

  /** The names reported as required. */
  function RequiredNames(variants: seq<Variant>): seq<string> {
    RequiredOf(MergedAll(variants, AllNames(variants)))
  }

  /** The required names, in declaration order; with branches at all, those every branch declares and requires. */
  method RequiredParamNames(schema: Node) returns (names: seq<string>)
    ensures names == RequiredNames(VariantsOf(schema)) && InOrder(names, Mentions(VariantsOf(schema)))
    ensures VariantsOf(schema) == [] ==> names == []
    ensures VariantsOf(schema) != [] ==> forall name :: name in names <==> RequiredInAll(VariantsOf(schema), name)
  {
    var params := SchemaParamSpecs(schema);
    names := [];
    for i := 0 to |params|
      invariant names == RequiredOf(params[..i])
    {
      assert params[..i + 1][..i] == params[..i];
      if params[i].required {
        names := names + [params[i].name];
      }
    }
    assert params[..|params|] == params;
    RequiredInOrder(params, Mentions(VariantsOf(schema)));
    if VariantsOf(schema) != [] {
      forall name ensures name in names <==> RequiredInAll(VariantsOf(schema), name) {
        ReportedIff(VariantsOf(schema), name);
      }
    }
  }

  lemma {:induction false} RequiredInOrder(params: seq<Param>, mentions: seq<string>)
    requires InOrder(ParamNames(params), mentions)
    ensures InOrder(RequiredOf(params), mentions)
  {
    if params != [] {
      var n := |params| - 1;
      var before, names := params[..n], ParamNames(params);
      assert ParamNames(before) == names[..n];
      RequiredInOrder(before, mentions);
      var kept := RequiredOf(before);
      forall i | 0 <= i < |kept| ensures FirstIndex(mentions, kept[i]) < FirstIndex(mentions, names[n]) {
        assert kept[i] in kept;
        RequiredOfHas(before, kept[i]);
        var k :| 0 <= k < n && before[k].name == kept[i] && before[k].required;
        assert names[k] == kept[i];
      }
    }
  }

  lemma {:induction false} RequiredOfHas(params: seq<Param>, name: string)
    ensures name in RequiredOf(params) <==> exists i :: 0 <= i < |params| && params[i].name == name && params[i].required
  {
    if params != [] {
      var n := |params| - 1;
      RequiredOfHas(params[..n], name);
      forall i | 0 <= i < n ensures params[..n][i] == params[i] {
      }
    }
  }

  lemma {:induction false} SpecHasName(properties: seq<Property>, name: string)
    requires SpecIn(properties, name).Some?
    ensures name in PropertyNames(properties) && name in NamesOf(properties)
  {
    if properties[0].name != name {
      SpecHasName(properties[1..], name);
      assert PropertyNames(properties) == [properties[0].name] + PropertyNames(properties[1..]);
      var i :| 0 <= i < |properties[1..]| && properties[1..][i].name == name;
      assert properties[i + 1].name == name;
    } else {
      assert PropertyNames(properties)[0] == name;
    }
  }

  lemma {:induction false} MentionsHave(variants: seq<Variant>, i: nat, name: string)
    requires i < |variants| && name in PropertyNames(variants[i].properties)
    ensures name in Mentions(variants)
  {
    if i < |variants| - 1 {
      MentionsHave(variants[..|variants| - 1], i, name);
    }
  }

  lemma ReportedIff(variants: seq<Variant>, name: string)
    requires variants != []
    ensures name in RequiredNames(variants) <==> RequiredInAll(variants, name)
  {
    var names := AllNames(variants);
    var params := MergedAll(variants, names);
    RequiredOfHas(params, name);
    if RequiredInAll(variants, name) {
      assert RequiredBy(variants[0], name);
      SpecHasName(variants[0].properties, name);
      MentionsHave(variants, 0, name);
      DistinctByFirstAppearance(Mentions(variants));
      var i :| 0 <= i < |names| && names[i] == name;
      assert params[i] == Merged(variants, name);
    }
  }

  // ---- What the merged parameters say about the branches ----

  /** The first property of that name is number j. */
  predicate FirstNamed(properties: seq<Property>, name: string, j: int) {
    0 <= j < |properties| && properties[j].name == name && forall l :: 0 <= l < j ==> properties[l].name != name
  }

  lemma {:induction false} SpecIsFirst(properties: seq<Property>, name: string) returns (j: int)
    ensures (exists l :: FirstNamed(properties, name, l)) ==> FirstNamed(properties, name, j)
    ensures SpecIn(properties, name) == if FirstNamed(properties, name, j) then properties[j].spec else None
    ensures !FirstNamed(properties, name, j) ==> forall l :: 0 <= l < |properties| ==> properties[l].name != name
  {
    j := 0;
    if properties != [] && properties[0].name != name {
      var k := SpecIsFirst(properties[1..], name);
      j := k + 1;
      forall l | 1 <= l < |properties| ensures properties[l] == properties[1..][l - 1] {
      }
    }
  }

  /** Branch i gives a name the spec of its property of that name; "{}" when it has none or that is no object. */
  lemma SpecOfBranch(variants: seq<Variant>, name: string, i: nat, j: nat)
    requires i < |variants| && FirstNamed(variants[i].properties, name, j)
    ensures |SpecsFor(variants, name)| == |variants|
    ensures SpecsFor(variants, name)[i] ==
      if variants[i].properties[j].spec.Some? then variants[i].properties[j].spec.value else "{}"
  {
    var k := SpecIsFirst(variants[i].properties, name);
    assert j == k;
  }

  lemma NoSpecOfBranch(variants: seq<Variant>, name: string, i: nat)
    requires i < |variants| && forall j :: 0 <= j < |variants[i].properties| ==> variants[i].properties[j].name != name
    ensures SpecsFor(variants, name)[i] == "{}"
  {
    var k := SpecIsFirst(variants[i].properties, name);
  }

  /** The branch lists the name as required and has a first property of that name with an object spec. */
  ghost predicate RequiresWithSpec(variant: Variant, name: string) {
    name in variant.required && exists j :: FirstNamed(variant.properties, name, j) && variant.properties[j].spec.Some?
  }

  lemma RequiredByReads(variant: Variant, name: string)
    ensures RequiredBy(variant, name) <==> RequiresWithSpec(variant, name)
  {
    var k := SpecIsFirst(variant.properties, name);
    if RequiresWithSpec(variant, name) {
      var j :| FirstNamed(variant.properties, name, j) && variant.properties[j].spec.Some?;
      assert FirstNamed(variant.properties, name, k) && j == k;
    }
  }

  /** A name is reported exactly when every branch requires it and declares it as an object. */
  lemma ReportedReads(variants: seq<Variant>, name: string)
    requires variants != []
    ensures name in RequiredNames(variants) <==> forall i :: 0 <= i < |variants| ==> RequiresWithSpec(variants[i], name)
  {
    ReportedIff(variants, name);
    hide RequiredBy, RequiresWithSpec, RequiredNames;
    forall i | 0 <= i < |variants| ensures RequiredBy(variants[i], name) <==> RequiresWithSpec(variants[i], name) {
      RequiredByReads(variants[i], name);
    }
  }

  /** The names of the branches are mentioned branch by branch, each branch's in its own order. */
  lemma {:induction false} MentionsAddUp(a: seq<Variant>, b: seq<Variant>)
    ensures Mentions(a + b) == Mentions(a) + Mentions(b)
    ensures forall v: Variant :: |Mentions([v])| == |v.properties|
    ensures forall v: Variant, i :: 0 <= i < |v.properties| ==> Mentions([v])[i] == v.properties[i].name
  {
    forall v: Variant ensures Mentions([v]) == PropertyNames(v.properties) {
      assert [v][..0] == [] && Mentions([]) + PropertyNames(v.properties) == PropertyNames(v.properties);
    }
    if b == [] {
      assert a + b == a;
    } else {
      var n := |b| - 1;
      MentionsAddUp(a, b[..n]);
      assert (a + b)[..|a| + n] == a + b[..n] && (a + b)[|a| + n] == b[n];
      AppendAssociates(Mentions(a), Mentions(b[..n]), PropertyNames(b[n].properties));
    }
  }

  lemma {:induction false} CollectIsFlat(parent: Node, branches: seq<Node>, flatten: Node -> seq<Variant>)
    requires forall i :: 0 <= i < |branches| ==> branches[i] < parent
    requires forall node: Node :: flatten(node) == VariantsOf(node)
    ensures Collect(parent, branches) == Flat(Mapped(branches, flatten))
    decreases |branches|
  {
    if branches != [] {
      CollectIsFlat(parent, branches[1..], flatten);
      assert Mapped(branches, flatten)[0] == VariantsOf(branches[0]);
      assert Mapped(branches, flatten)[1..] == Mapped(branches[1..], flatten);
    }
  }

  /** A node with properties is one branch; else its anyOf gives the branches, or its oneOf when that gives none. */
  lemma FirstFormWins(node: Node, flatten: Node -> seq<Variant>)
    requires forall node: Node :: flatten(node) == VariantsOf(node)
    ensures node.Literal? ==> VariantsOf(node) == []
    ensures node.Node? && node.properties.Some? ==>
      VariantsOf(node) == [Variant(node.properties.value, node.required, node.closed)]
    ensures node.Node? && node.properties.None? ==>
      VariantsOf(node) == if Flat(Mapped(node.anyOf, flatten)) != [] then Flat(Mapped(node.anyOf, flatten))
                          else Flat(Mapped(node.oneOf, flatten))
  {
    if node.Node? {
      CollectIsFlat(node, node.anyOf, flatten);
      CollectIsFlat(node, node.oneOf, flatten);
    }
  }

  // ---- Required means: in every accepted key set ----

  ghost predicate InEveryAccepted(node: Node, name: string) {
    forall keys: Keys :: Accepts(node, keys) ==> name in keys
  }

  predicate InEveryBox(boxes: seq<Box>, name: string) {
    forall box :: box in boxes ==> Possible(box) ==> name in box.least
  }

  lemma PossibleIsCovered(boxes: seq<Box>, box: Box)
    requires box in boxes && Possible(box)
    ensures Covers(boxes, box.least)
  {
    var i :| 0 <= i < |boxes| && boxes[i] == box;
    assert Within(boxes[i], box.least);
  }

  lemma InEveryBoxDecides(boxes: seq<Box>, name: string, keys: Keys)
    requires InEveryBox(boxes, name) && Covers(boxes, keys)
    ensures name in keys
  {
    var i :| 0 <= i < |boxes| && Within(boxes[i], keys);
    assert boxes[i] in boxes && Possible(boxes[i]);
  }

  /** For any schema these are the names in the smallest key set of each of its boxes that is not empty. */
  lemma UniversalIffInEveryBox(node: Node, name: string)
    ensures InEveryAccepted(node, name) <==> InEveryBox(Boxes(node), name)
  {
    if InEveryAccepted(node, name) {
      forall box | box in Boxes(node) && Possible(box) ensures name in box.least {
        PossibleIsCovered(Boxes(node), box);
        BoxesCover(node, box.least);
      }
    }
    if InEveryBox(Boxes(node), name) {
      forall keys: Keys | Accepts(node, keys) ensures name in keys {
        BoxesCover(node, keys);
        InEveryBoxDecides(Boxes(node), name, keys);
      }
    }
  }

  /** Every branch declares, as an object, each name it requires. */
  predicate WellFormed(variants: seq<Variant>) {
    forall i :: 0 <= i < |variants| ==> forall name :: name in variants[i].required ==> SpecIn(variants[i].properties, name).Some?
  }

  lemma WellFormedIsPossible(variants: seq<Variant>, i: nat)
    requires WellFormed(variants) && i < |variants|
    ensures Possible(BoxOf(variants[i])) && BoxOf(variants[i]) in BoxesOf(variants)
  {
    assert BoxesOf(variants)[i] == BoxOf(variants[i]);
    forall name | name in variants[i].required ensures name in NamesOf(variants[i].properties) {
      SpecHasName(variants[i].properties, name);
    }
  }

  lemma RequiredWhenWellFormed(variants: seq<Variant>, name: string)
    requires WellFormed(variants)
    ensures RequiredInAll(variants, name) <==> InEveryBox(BoxesOf(variants), name)
  {
    if RequiredInAll(variants, name) {
      forall box | box in BoxesOf(variants) ensures name in box.least {
        var i :| 0 <= i < |variants| && BoxesOf(variants)[i] == box;
        assert RequiredBy(variants[i], name);
      }
    }
    if InEveryBox(BoxesOf(variants), name) {
      forall i | 0 <= i < |variants| ensures RequiredBy(variants[i], name) {
        WellFormedIsPossible(variants, i);
      }
    }
  }

  /** For well-formed branches of a schema that flattens exactly, the reported names are those in every accepted key set. */
  lemma RequiredIsUniversal(node: Node, name: string)
    requires VariantsOf(node) != [] && WellFormed(VariantsOf(node)) && FlattensExactly(node)
    ensures name in RequiredNames(VariantsOf(node)) <==> InEveryAccepted(node, name)
  {
    var variants := VariantsOf(node);
    ReportedIff(variants, name);
    RequiredWhenWellFormed(variants, name);
    if InEveryAccepted(node, name) {
      forall box | box in BoxesOf(variants) && Possible(box) ensures name in box.least {
        PossibleIsCovered(BoxesOf(variants), box);
        assert VariantAccepts(variants, box.least);
      }
    }
    if InEveryBox(BoxesOf(variants), name) {
      forall keys: Keys | Accepts(node, keys) ensures name in keys {
        assert VariantAccepts(variants, keys);
        InEveryBoxDecides(BoxesOf(variants), name, keys);
      }
    }
  }

  lemma ReportedOrNot(variants: seq<Variant>, name: string)
    ensures name in RequiredNames(variants) <==> variants != [] && RequiredInAll(variants, name)
  {
    if variants != [] {
      ReportedIff(variants, name);
    }
  }

  /** For any schema: a name in every accepted key set is missed exactly when no branch is kept, or one does not require it. */
  lemma UniversalNameMissedIff(node: Node, name: string)
    ensures InEveryAccepted(node, name) && name !in RequiredNames(VariantsOf(node)) <==>
              InEveryBox(Boxes(node), name) && (VariantsOf(node) == [] || !RequiredInAll(VariantsOf(node), name))
  {
    ReportedOrNot(VariantsOf(node), name);
    UniversalIffInEveryBox(node, name);
  }

  /** For any schema: a name is reported without need exactly when all kept branches require it and some box does not. */
  lemma ReportedNameInventedIff(node: Node, name: string)
    ensures name in RequiredNames(VariantsOf(node)) && !InEveryAccepted(node, name) <==>
              && VariantsOf(node) != [] && RequiredInAll(VariantsOf(node), name)
              && exists box :: box in Boxes(node) && Possible(box) && name !in box.least
  {
    ReportedOrNot(VariantsOf(node), name);
    UniversalIffInEveryBox(node, name);
  }

  // ---- Schemas that do not flatten exactly ----

  function Leaf(names: seq<string>, required: set<string>): Node {
    Node(false, false, Some(seq(|names|, i requires 0 <= i < |names| => Property(names[i], Some("{}")))), required, [], [])
  }

  /** A name required beside a union is in every accepted key set, yet is not reported. */
  lemma RequiredBesideUnionIsDropped()
    ensures var node := Node(false, false, None, {"a"}, [Leaf(["a", "b"], {"b"}), Leaf(["a", "c"], {"c"})], []);
            && InEveryAccepted(node, "a") && VariantsOf(node) != [] && WellFormed(VariantsOf(node))
            && "a" !in RequiredNames(VariantsOf(node))
  {
    var x, y := Leaf(["a", "b"], {"b"}), Leaf(["a", "c"], {"c"});
    var node := Node(false, false, None, {"a"}, [x, y], []);
    TwoBranches(node, x, y);
    ReportedIff(VariantsOf(node), "a");
    assert !RequiredBy(VariantsOf(node)[0], "a");
    LeafDeclares("a", "b");
    LeafDeclares("a", "c");
  }

  lemma TwoBranches(node: Node, x: Node, y: Node)
    requires node.Node? && node.properties.None? && node.anyOf == [x, y] && x.Node? && y.Node?
    requires x.properties.Some? && y.properties.Some?
    ensures VariantsOf(node) ==
      [Variant(x.properties.value, x.required, x.closed), Variant(y.properties.value, y.required, y.closed)]
  {
    assert node.anyOf[0] == x && node.anyOf[1] == y;
    assert [x, y][1..] == [y] && [y][1..] == [];
    assert Collect(node, [y]) == VariantsOf(y) + Collect(node, []);
    assert Collect(node, [x, y]) == VariantsOf(x) + Collect(node, [y]);
  }

  lemma LeafDeclares(p: string, q: string)
    ensures SpecIn(Leaf([p, q], {q}).properties.value, q).Some?
  {
    var properties := Leaf([p, q], {q}).properties.value;
    assert properties[1..][0] == properties[1];
  }

  /** A branch that accepts everything is dropped, and a name it does not require is reported. */
  lemma BareBranchIsDropped()
    ensures var node := Node(false, false, None, {}, [Leaf(["a"], {"a"}), Literal(true)], []);
            "a" in RequiredNames(VariantsOf(node)) && !InEveryAccepted(node, "a")
  {
    var x := Leaf(["a"], {"a"});
    var node := Node(false, false, None, {}, [x, Literal(true)], []);
    assert node.anyOf[0] == x && node.anyOf[1] == Literal(true);
    assert [x, Literal(true)][1..] == [Literal(true)] && [Literal(true)][1..] == [];
    assert Collect(node, [Literal(true)]) == VariantsOf(Literal(true)) + Collect(node, []);
    assert Collect(node, node.anyOf) == VariantsOf(x) + Collect(node, [Literal(true)]);
    assert VariantsOf(node) == [Variant(x.properties.value, x.required, x.closed)];
    ReportedIff(VariantsOf(node), "a");
    assert Accepts(Literal(true), {});
    assert Accepts(node, {});
  }
}
