/** Rewriting nullable type unions: optional fields and arrays lose null, other unions keep it as
    an anyOf branch. */
module NullableSchema {
  import opened AnalysisModel
  import opened JsonSchema

  const NULL_KIND := "null"
  const SHORT_NAME := "shortName"

  function Others(kinds: seq<string>): seq<string> {
    if kinds == [] then [] else (if kinds[0] == NULL_KIND then [] else [kinds[0]]) + Others(kinds[1..])
  }

  function WithoutNull(values: seq<Json>): seq<Json> {
    if values == [] then [] else (if values[0].Null? then [] else [values[0]]) + WithoutNull(values[1..])
  }

  predicate ListsValues(s: Schema) {
    s.values.Some? && |s.values.value| > 0
  }

  predicate ListsNull(s: Schema) {
    s.values.Some? && Null in s.values.value
  }

  datatype Rewrite = Keep | Narrow(kind: string) | Split(kinds: seq<string>)

  /** What happens to a node: nothing, a single type, or a null branch beside the others. */
  function RewriteOf(s: Schema, optional: bool, name: string): Rewrite {
    var others := Others(s.kinds);
    var keepNull := name == SHORT_NAME || ListsNull(s);
    if NULL_KIND !in s.kinds then Keep
    else if |others| != 1 then Split(others)
    else if others[0] == "array" || (optional && !keepNull) || (ListsValues(s) && !ListsNull(s)) then Narrow(others[0])
    else Split(others)
  }

  /** The non-null branch: the node without its annotations and without null. */
  function Branch(s: Schema, concrete: seq<string>): Schema {
    var typed := if |concrete| == 1 then s.(kind := concrete[0], kinds := []) else s.(kind := "", kinds := concrete);
    typed.(meta := NO_META, values := if ListsNull(s) then Some(WithoutNull(s.values.value)) else s.values)
  }

  function Union(s: Schema, branch: Schema): Schema {
    Schema("", [], None, [], s.meta, NO_OTHER, [Child(AnyOf, branch), Child(AnyOf, NULL_SCHEMA)])
  }

  predicate IsOptional(s: Schema, slot: Slot) {
    slot.Property? && slot.name !in s.required
  }

  function NameOf(slot: Slot): string {
    if slot.Property? then slot.name else ""
  }

  function NormalizedChild(s: Schema, c: Child): Child
    requires c.schema < s
    decreases s, 0
  {
    Child(c.slot, Normalize(c.schema, IsOptional(s, c.slot), NameOf(c.slot)))
  }

  function NormalizedChildren(s: Schema): seq<Child>
    decreases s, 1
  {
    seq(|s.children|, i requires 0 <= i < |s.children| => NormalizedChild(s, s.children[i]))
  }

  function Normalize(s: Schema, optional: bool, name: string): Schema
    decreases s, 2
  {
    var children := NormalizedChildren(s);
    match RewriteOf(s, optional, name)
    case Keep => s.(children := children)
    case Narrow(kind) => s.(kind := kind, kinds := [], children := children)
    case Split(kinds) => Union(s, Branch(s, kinds).(children := children))
  }

  // ----- The program's walk

  method OtherKinds(kinds: seq<string>) returns (others: seq<string>)
    ensures others == Others(kinds)
  {
    others := [];
    assert kinds[0..] == kinds;
    for i := 0 to |kinds|
      invariant Others(kinds) == others + Others(kinds[i..])
    {
      assert kinds[i..][0] == kinds[i] && kinds[i..][1..] == kinds[i + 1..];
      if kinds[i] != NULL_KIND {
        others := others + [kinds[i]];
      }
    }
  }

  method KeptValues(values: seq<Json>) returns (kept: seq<Json>)
    ensures kept == WithoutNull(values)
  {
    kept := [];
    assert values[0..] == values;
    for i := 0 to |values|
      invariant WithoutNull(values) == kept + WithoutNull(values[i..])
    {
      assert values[i..][0] == values[i] && values[i..][1..] == values[i + 1..];
      if !values[i].Null? {
        kept := kept + [values[i]];
      }
    }
  }

  method RewriteNullableUnion(s: Schema, optional: bool, name: string) returns (r: Rewrite)
    ensures r == RewriteOf(s, optional, name)
  {
    if |s.kinds| == 0 || NULL_KIND !in s.kinds {
      return Keep;
    }
    var others := OtherKinds(s.kinds);
    if |others| != 1 {
      return Split(others);
    }
    var concrete := others[0];
    var listsNull := s.values.Some? && Null in s.values.value;
    var lists := s.values.Some? && |s.values.value| > 0;
    var keepNull := name == SHORT_NAME || (lists && listsNull);
    if concrete == "array" || (optional && !keepNull) || (lists && !listsNull) {
      return Narrow(concrete);
    }
    r := Split(others);
  }

  method WalkNullableChildren(s: Schema) returns (children: seq<Child>)
    ensures children == NormalizedChildren(s)
    decreases s, 1
  {
    children := [];
    for i := 0 to |s.children|
      invariant |children| == i && forall j :: 0 <= j < i ==> children[j] == NormalizedChild(s, s.children[j])
    {
      var c := s.children[i];
      var child := WalkNullableSchema(c.schema, IsOptional(s, c.slot), NameOf(c.slot));
      children := children + [Child(c.slot, child)];
    }
  }

  method WalkNullableSchema(s: Schema, optional: bool, name: string) returns (n: Schema)
    ensures n == Normalize(s, optional, name)
    decreases s, 2
  {
    var rewrite := RewriteNullableUnion(s, optional, name);
    var children := WalkNullableChildren(s);
    match rewrite {
      case Keep => n := s.(children := children);
      case Narrow(kind) => n := s.(kind := kind, kinds := [], children := children);
      case Split(kinds) =>
        var values := s.values;
        if s.values.Some? && Null in s.values.value {
          var kept := KeptValues(s.values.value);
          values := Some(kept);
        }
        var kind, union := "", kinds;
        if |kinds| == 1 {
          kind, union := kinds[0], [];
        }
        n := Union(s, Schema(kind, union, values, s.required, NO_META, s.other, children));
    }
  }

  // ----- No type union contains null

  predicate NoNullUnion(s: Schema) {
    NULL_KIND !in s.kinds && forall i :: 0 <= i < |s.children| ==> NoNullUnion(s.children[i].schema)
  }

  lemma {:induction false} OthersAre(kinds: seq<string>)
    ensures forall kind :: kind in Others(kinds) <==> kind in kinds && kind != NULL_KIND
  {
    if kinds != [] { OthersAre(kinds[1..]); }
  }

  /** After the rewrite no node anywhere has null in a type union. */
  lemma {:induction false} NormalizeRemovesNullUnions(s: Schema, optional: bool, name: string)
    ensures NoNullUnion(Normalize(s, optional, name))
    decreases s
  {
    OthersAre(s.kinds);
    var children := NormalizedChildren(s);
    forall i | 0 <= i < |children| ensures NoNullUnion(children[i].schema) {
      var c := s.children[i];
      assert children[i] == NormalizedChild(s, c);
      NormalizeRemovesNullUnions(c.schema, IsOptional(s, c.slot), NameOf(c.slot));
    }
    var n := Normalize(s, optional, name);
    if RewriteOf(s, optional, name).Split? {
      assert NoNullUnion(n.children[0].schema) && NoNullUnion(n.children[1].schema);
    }
  }

  lemma {:induction false} NothingToRewrite(s: Schema, optional: bool, name: string)
    requires NoNullUnion(s)
    ensures Normalize(s, optional, name) == s
    decreases s
  {
    forall i | 0 <= i < |s.children| ensures NormalizedChild(s, s.children[i]) == s.children[i] {
      var c := s.children[i];
      NothingToRewrite(c.schema, IsOptional(s, c.slot), NameOf(c.slot));
    }
    assert NormalizedChildren(s) == s.children;
  }

  /** Rewriting again changes nothing, whatever position the node is taken to be in. */
  lemma NormalizeIsIdempotent(s: Schema, optional: bool, name: string, optional': bool, name': string)
    ensures Normalize(Normalize(s, optional, name), optional', name') == Normalize(s, optional, name)
  {
    NormalizeRemovesNullUnions(s, optional, name);
    NothingToRewrite(Normalize(s, optional, name), optional', name');
  }

  // ----- Values without null

  /** A single type and a type union are not both given, and a nullable union names another type. */
  predicate HasConcrete(s: Schema) {
    NULL_KIND in s.kinds ==> s.kind == "" && "" !in s.kinds && exists i :: 0 <= i < |s.kinds| && s.kinds[i] != NULL_KIND
  }

  predicate WellTyped(s: Schema) {
    HasConcrete(s) && forall i :: 0 <= i < |s.children| ==> WellTyped(s.children[i].schema)
  }

  ghost predicate PlainOther(k: Keywords) {
    forall v :: k.other(NO_OTHER, v)
  }

  lemma {:induction false} WithoutNullAre(values: seq<Json>)
    ensures forall v :: v in WithoutNull(values) <==> v in values && !v.Null?
  {
    if values != [] { WithoutNullAre(values[1..]); }
  }

  /** The type test of the rewritten node. */
  function Typed(s: Schema, concrete: seq<string>): Schema {
    if |concrete| == 1 then s.(kind := concrete[0], kinds := []) else s.(kind := "", kinds := concrete)
  }

  /** Some type of a list is a type of `v`. */
  ghost predicate SomeKind(kinds: seq<string>, v: Json) {
    exists i :: 0 <= i < |kinds| && IsKind(kinds[i], v)
  }

  lemma SomeOtherKind(kinds: seq<string>, v: Json)
    ensures SomeKind(Others(kinds), v) ==> SomeKind(kinds, v)
    ensures !v.Null? && SomeKind(kinds, v) ==> SomeKind(Others(kinds), v)
  {
    hide Others;
    var others := Others(kinds);
    OthersAre(kinds);
    if SomeKind(others, v) {
      var i :| 0 <= i < |others| && IsKind(others[i], v);
      assert others[i] in kinds;
    }
    if !v.Null? && SomeKind(kinds, v) {
      var i :| 0 <= i < |kinds| && IsKind(kinds[i], v);
      assert kinds[i] != NULL_KIND;
      assert kinds[i] in others;
    }
  }

  lemma TypedAccepts(s: Schema, v: Json)
    requires NULL_KIND in s.kinds && HasConcrete(s)
    ensures TypesAccept(Typed(s, Others(s.kinds)), v) ==> TypesAccept(s, v)
    ensures !v.Null? ==> (TypesAccept(Typed(s, Others(s.kinds)), v) <==> TypesAccept(s, v))
  {
    hide Others, IsKind;
    var others := Others(s.kinds);
    OthersAre(s.kinds);
    SomeOtherKind(s.kinds, v);
    assert others != [] by {
      var i :| 0 <= i < |s.kinds| && s.kinds[i] != NULL_KIND;
      assert s.kinds[i] in others;
    }
    assert TypesAccept(s, v) <==> SomeKind(s.kinds, v);
    assert SomeKind(others, v) <==> TypesAccept(Typed(s, others), v) by { TypedIsSome(s, others, v); }
  }

  lemma TypedIsSome(s: Schema, concrete: seq<string>, v: Json)
    requires concrete != [] && "" !in concrete
    ensures TypesAccept(Typed(s, concrete), v) <==> SomeKind(concrete, v)
  {
    hide IsKind;
    if |concrete| == 1 {
      assert SomeKind(concrete, v) <==> IsKind(concrete[0], v);
    }
  }

  /** What the branch and the narrowed node ask of a value themselves. */
  lemma OwnOfBranch(k: Keywords, s: Schema, v: Json)
    requires NULL_KIND in s.kinds && HasConcrete(s)
    ensures var b := Branch(s, Others(s.kinds));
            (OwnAccept(k, b, v) ==> OwnAccept(k, s, v)) && (!v.Null? ==> (OwnAccept(k, b, v) <==> OwnAccept(k, s, v)))
  {
    hide IsKind, Has;
    TypedAccepts(s, v);
    if ListsNull(s) { WithoutNullAre(s.values.value); }
    assert TypesAccept(Branch(s, Others(s.kinds)), v) == TypesAccept(Typed(s, Others(s.kinds)), v);
  }

  lemma OwnOfNarrow(k: Keywords, s: Schema, v: Json)
    requires NULL_KIND in s.kinds && HasConcrete(s) && |Others(s.kinds)| == 1
    ensures var n := s.(kind := Others(s.kinds)[0], kinds := []);
            (OwnAccept(k, n, v) ==> OwnAccept(k, s, v)) && (!v.Null? ==> (OwnAccept(k, n, v) <==> OwnAccept(k, s, v)))
  {
    hide IsKind, Has;
    TypedAccepts(s, v);
  }

  lemma SlotsOfNormalized(s: Schema)
    ensures Slots(NormalizedChildren(s)) == Slots(s.children)
  {
  }

  lemma UnionAccepts(k: Keywords, s: Schema, branch: Schema, v: Json)
    requires PlainOther(k)
    ensures Accepts(k, Union(s, branch), v) <==> Accepts(k, branch, v) || v.Null?
  {
    var u := Union(s, branch);
    var f := Verdicts(k, u);
    var slots := Slots(u.children);
    assert slots == [AnyOf, AnyOf];
    assert f(0, v) == Accepts(k, branch, v) && f(1, v) == Accepts(k, NULL_SCHEMA, v);
    assert Accepts(k, NULL_SCHEMA, v) <==> v.Null? by { NullSchemaAccepts(k, v); }
    assert SlotsAccept(k, slots, NO_OTHER, v, f) <==> f(0, v) || f(1, v) by {
      assert SlotAccepts(k, slots, NO_OTHER, v, f, 0) <==> f(0, v) || f(1, v);
      assert SlotAccepts(k, slots, NO_OTHER, v, f, 1) <==> f(0, v) || f(1, v);
    }
  }

  lemma NullSchemaAccepts(k: Keywords, v: Json)
    requires PlainOther(k)
    ensures Accepts(k, NULL_SCHEMA, v) <==> v.Null?
  {
  }

  /** The node that holds the rewritten subschemas: the node itself, narrowed, or the branch. */
  function Holder(s: Schema, optional: bool, name: string): Schema {
    var children := NormalizedChildren(s);
    match RewriteOf(s, optional, name)
    case Keep => s.(children := children)
    case Narrow(kind) => s.(kind := kind, kinds := [], children := children)
    case Split(kinds) => Branch(s, kinds).(children := children)
  }

  lemma NormalizeAccepts(k: Keywords, s: Schema, optional: bool, name: string, v: Json)
    requires PlainOther(k)
    ensures Accepts(k, Normalize(s, optional, name), v)
            <==> Accepts(k, Holder(s, optional, name), v) || (RewriteOf(s, optional, name).Split? && v.Null?)
  {
    hide Accepts;
    if RewriteOf(s, optional, name).Split? { UnionAccepts(k, s, Holder(s, optional, name), v); }
  }

  lemma OwnOfHolder(k: Keywords, s: Schema, optional: bool, name: string, v: Json)
    requires HasConcrete(s)
    ensures var h := Holder(s, optional, name);
            && (OwnAccept(k, h, v) ==> OwnAccept(k, s, v))
            && (!v.Null? ==> (OwnAccept(k, h, v) <==> OwnAccept(k, s, v)))
            && h.other == s.other && h.children == NormalizedChildren(s)
  {
    hide TypesAccept, ValuesAccept, RequiredAccept, NormalizedChildren;
    if NULL_KIND in s.kinds {
      OwnOfBranch(k, s, v);
      if |Others(s.kinds)| == 1 { OwnOfNarrow(k, s, v); }
    }
    SameOwn(k, s, NormalizedChildren(s), v);
    SameOwn(k, Branch(s, Others(s.kinds)), NormalizedChildren(s), v);
    if |Others(s.kinds)| == 1 { SameOwn(k, s.(kind := Others(s.kinds)[0], kinds := []), NormalizedChildren(s), v); }
  }

  lemma SameOwn(k: Keywords, s: Schema, children: seq<Child>, v: Json)
    ensures OwnAccept(k, s.(children := children), v) <==> OwnAccept(k, s, v)
  {
  }

  /** For values without null the rewrite changes nothing, in any schema: under negation,
      conditions and counting as well. */
  lemma {:induction false} NullFreeAcceptanceIsKept(k: Keywords, s: Schema, optional: bool, name: string, v: Json)
    requires PlainOther(k) && WellTyped(s) && NullFree(v)
    ensures Accepts(k, Normalize(s, optional, name), v) <==> Accepts(k, s, v)
    decreases s
  {
    hide OwnAccept, SlotsAccept, NullFree, Normalize, RewriteOf;
    var h := Holder(s, optional, name);
    assert !v.Null? by { NullIsNotFree(v); }
    NormalizeAccepts(k, s, optional, name, v);
    OwnOfHolder(k, s, optional, name, v);
    SlotsOfNormalized(s);
    var f, g := Verdicts(k, h), Verdicts(k, s);
    forall i: nat, w | 0 <= i < |Slots(s.children)| && NullFree(w) ensures f(i, w) == g(i, w) {
      var c := s.children[i];
      assert h.children[i] == NormalizedChild(s, c);
      NullFreeAcceptanceIsKept(k, c.schema, IsOptional(s, c.slot), NameOf(c.slot), w);
    }
    SlotsAgree(k, Slots(s.children), s.other, v, f, g);
  }

  lemma NullIsNotFree(v: Json)
    requires NullFree(v)
    ensures !v.Null?
  {
  }

  // ----- The positive fragment

  /** Wherever null becomes a branch of its own, the node admitted null before. */
  ghost predicate Admissible(k: Keywords, s: Schema, optional: bool, name: string)
    decreases s, 1
  {
    (RewriteOf(s, optional, name).Split? ==> Accepts(k, s, Null)) && ChildrenAdmissible(k, s)
  }

  ghost predicate ChildrenAdmissible(k: Keywords, s: Schema)
    decreases s, 0
  {
    forall i :: 0 <= i < |s.children|
      ==> Admissible(k, s.children[i].schema, IsOptional(s, s.children[i].slot), NameOf(s.children[i].slot))
  }

  /** The rewritten node without its null branch accepts no more than the node did. */
  lemma {:induction false} HolderNarrows(k: Keywords, s: Schema, optional: bool, name: string, v: Json)
    requires PlainOther(k) && WellTyped(s) && IsPositive(s) && ChildrenAdmissible(k, s)
    ensures Accepts(k, Holder(s, optional, name), v) ==> Accepts(k, s, v)
    decreases s, 0
  {
    hide OwnAccept, SlotsAccept, Normalize, RewriteOf;
    var h := Holder(s, optional, name);
    if Accepts(k, h, v) {
      OwnOfHolder(k, s, optional, name, v);
      SlotsOfNormalized(s);
      var f, g := Verdicts(k, h), Verdicts(k, s);
      forall i: nat, w | 0 <= i < |Slots(s.children)| && f(i, w) ensures g(i, w) {
        var c := s.children[i];
        assert h.children[i] == NormalizedChild(s, c);
        NormalizeNarrows(k, c.schema, IsOptional(s, c.slot), NameOf(c.slot), w);
      }
      SlotsMonotone(k, Slots(s.children), s.other, v, f, g);
    }
  }

  /** Where subschemas are only asked to accept, the rewrite only takes acceptance away. */
  lemma {:induction false} NormalizeNarrows(k: Keywords, s: Schema, optional: bool, name: string, v: Json)
    requires PlainOther(k) && WellTyped(s) && IsPositive(s) && Admissible(k, s, optional, name)
    ensures Accepts(k, Normalize(s, optional, name), v) ==> Accepts(k, s, v)
    decreases s, 1
  {
    hide Accepts, Normalize, RewriteOf;
    NormalizeAccepts(k, s, optional, name, v);
    HolderNarrows(k, s, optional, name, v);
  }

  /** At a node whose subschemas are unproblematic, the rewrite only takes acceptance away
      exactly when the node admitted null or gets no null branch. */
  lemma NarrowsExactlyWhenNullWasAdmitted(k: Keywords, s: Schema, optional: bool, name: string)
    requires PlainOther(k) && WellTyped(s) && IsPositive(s) && ChildrenAdmissible(k, s)
    ensures (forall v :: Accepts(k, Normalize(s, optional, name), v) ==> Accepts(k, s, v))
            <==> (RewriteOf(s, optional, name).Split? ==> Accepts(k, s, Null))
  {
    hide Accepts, Normalize, RewriteOf, ChildrenAdmissible;
    forall v ensures Accepts(k, Normalize(s, optional, name), v)
                     <==> Accepts(k, Holder(s, optional, name), v) || (RewriteOf(s, optional, name).Split? && v.Null?)
    {
      NormalizeAccepts(k, s, optional, name, v);
    }
    forall v ensures Accepts(k, Holder(s, optional, name), v) ==> Accepts(k, s, v) {
      HolderNarrows(k, s, optional, name, v);
    }
  }

  // ----- Which nodes keep null

  lemma HolderRejectsNull(k: Keywords, s: Schema, optional: bool, name: string)
    requires NULL_KIND in s.kinds && HasConcrete(s)
    ensures !Accepts(k, Holder(s, optional, name), Null)
  {
    OthersAre(s.kinds);
    var others := Others(s.kinds);
    assert Typed(s, others).kind != NULL_KIND && NULL_KIND !in Typed(s, others).kinds by {
      if |others| == 1 { assert others[0] in others; }
    }
    var h := Holder(s, optional, name);
    assert h.kind == Typed(s, others).kind && h.kinds == Typed(s, others).kinds;
    assert others != [] by {
      var i :| 0 <= i < |s.kinds| && s.kinds[i] != NULL_KIND;
      assert s.kinds[i] in others;
    }
  }

  /** A union of null and one type keeps null unless it is an array, an optional field that does
      not give null a meaning of its own, or lists its values without null. */
  lemma KeepsNullExactly(k: Keywords, s: Schema, optional: bool, name: string)
    requires PlainOther(k) && HasConcrete(s) && NULL_KIND in s.kinds && |Others(s.kinds)| == 1
    ensures Accepts(k, Normalize(s, optional, name), Null)
            <==> && Others(s.kinds)[0] != "array"
                 && (optional ==> name == SHORT_NAME || ListsNull(s))
                 && (ListsValues(s) ==> ListsNull(s))
  {
    hide Accepts, Normalize, Holder;
    NormalizeAccepts(k, s, optional, name, Null);
    HolderRejectsNull(k, s, optional, name);
  }

  /** A required field that was null or one type other than an array still accepts null, in the
      object that holds it. */
  lemma RequiredFieldKeepsNull(k: Keywords, s: Schema, c: Child)
    requires PlainOther(k) && c in s.children && c.slot.Property? && c.slot.name in s.required
    requires HasConcrete(c.schema) && NULL_KIND in c.schema.kinds && |Others(c.schema.kinds)| == 1
    requires Others(c.schema.kinds)[0] != "array" && (ListsValues(c.schema) ==> ListsNull(c.schema))
    ensures Accepts(k, NormalizedChild(s, c).schema, Null)
  {
    hide Accepts, Normalize;
    KeepsNullExactly(k, c.schema, false, c.slot.name);
  }

  // ----- Where the rewrite accepts more

  /** A union of null alone becomes a branch without a type: any text is accepted then. */
  lemma NullAloneIsWidened(k: Keywords)
    requires PlainOther(k)
    ensures var s := Schema("", [NULL_KIND], None, [], NO_META, NO_OTHER, []);
            !Accepts(k, s, Text("x")) && Accepts(k, Normalize(s, false, ""), Text("x"))
  {
    var s := Schema("", [NULL_KIND], None, [], NO_META, NO_OTHER, []);
    NormalizeAccepts(k, s, false, "", Text("x"));
    assert Others(s.kinds) == [] by { assert s.kinds[1..] == []; }
    var h := Holder(s, false, "");
    assert h.kind == "" && h.kinds == [] && h.children == [];
    assert Accepts(k, h, Text("x"));
  }

  /** A union of several types whose listed values leave null out accepts null afterwards. */
  lemma ListedUnionIsWidened(k: Keywords)
    requires PlainOther(k)
    ensures var s := Schema("", [NULL_KIND, "string", "integer"], Some([Text("a")]), [], NO_META, NO_OTHER, []);
            WellTyped(s) && IsPositive(s) && !Accepts(k, s, Null) && Accepts(k, Normalize(s, false, ""), Null)
  {
    var s := Schema("", [NULL_KIND, "string", "integer"], Some([Text("a")]), [], NO_META, NO_OTHER, []);
    NormalizeAccepts(k, s, false, "", Null);
    OthersAre(s.kinds);
    assert s.kinds[1] != NULL_KIND && s.kinds[2] != NULL_KIND && |s.kinds[1]| != |s.kinds[2]|;
    assert s.kinds[1] in Others(s.kinds) && s.kinds[2] in Others(s.kinds);
  }
}
