/** JSON values and the acceptance of JSON Schema nodes, after JSON Schema 2020-12 (Validation
    section 6.1 and Core section 10). */
module JsonSchema {
  import opened AnalysisModel

  datatype Json = Null | Boolean(b: bool) | Number(n: real) | Text(s: string) | Array(items: seq<Json>)
    | Object(fields: seq<Field>)

  datatype Field = Field(name: string, value: Json)

  /** Where a subschema sits in its parent. */
  datatype Slot =
    | Property(name: string) | PatternProperty(pattern: string) | AdditionalProperties | PropertyNames
    | DependentSchema(trigger: string)
    | PrefixItem(at: nat) | ItemsBeyond | Contains
    | Not | If | Then | Else | AllOf | AnyOf | OneOf
    | Definition | ContentSchema

  datatype Child = Child(slot: Slot, schema: Schema)

  /** `kind` is a single type and `kinds` a type union; "" and [] say nothing. `meta` collects the
      annotations and `other` every keyword without subschemas that is not listed here. */
  datatype Schema = Schema(kind: string, kinds: seq<string>, values: Option<seq<Json>>, required: seq<string>,
                           meta: nat, other: nat, children: seq<Child>)

  /** The meaning of the other keywords, of patterns, and of the limits on contained items. */
  datatype Keywords = Keywords(other: (nat, Json) -> bool, matches: (string, string) -> bool,
                               contained: (nat, nat) -> bool)

  const NO_META: nat := 0
  const NO_OTHER: nat := 0
  const NULL_SCHEMA := Schema("null", [], None, [], NO_META, NO_OTHER, [])

  predicate IsKind(kind: string, v: Json) {
    match v
    case Null => kind == "null"
    case Boolean(_) => kind == "boolean"
    case Number(n) => kind == "number" || (kind == "integer" && n.Floor as real == n)
    case Text(_) => kind == "string"
    case Array(_) => kind == "array"
    case Object(_) => kind == "object"
  }

  function FieldsOf(v: Json): seq<Field> {
    if v.Object? then v.fields else []
  }

  function ItemsOf(v: Json): seq<Json> {
    if v.Array? then v.items else []
  }

  predicate Has(v: Json, name: string) {
    exists k :: 0 <= k < |FieldsOf(v)| && FieldsOf(v)[k].name == name
  }

  predicate TypesAccept(s: Schema, v: Json) {
    (s.kind == "" || IsKind(s.kind, v)) && (s.kinds == [] || exists i :: 0 <= i < |s.kinds| && IsKind(s.kinds[i], v))
  }

  predicate ValuesAccept(s: Schema, v: Json) {
    s.values.Some? ==> v in s.values.value
  }

  predicate RequiredAccept(s: Schema, v: Json) {
    v.Object? ==> forall i :: 0 <= i < |s.required| ==> Has(v, s.required[i])
  }

  function Slots(children: seq<Child>): seq<Slot> {
    seq(|children|, i requires 0 <= i < |children| => children[i].slot)
  }

  predicate Covered(k: Keywords, slots: seq<Slot>, name: string) {
    exists i :: 0 <= i < |slots| &&
      ((slots[i].Property? && slots[i].name == name)
       || (slots[i].PatternProperty? && k.matches(slots[i].pattern, name)))
  }

  function PrefixCount(slots: seq<Slot>): nat {
    if slots == [] then 0
    else (if slots[0].PrefixItem? then 1 else 0) + PrefixCount(slots[1..])
  }

  function CountAccepted(f: (nat, Json) -> bool, i: nat, items: seq<Json>): nat {
    if items == [] then 0 else (if f(i, items[0]) then 1 else 0) + CountAccepted(f, i, items[1..])
  }

  /** What a single subschema asks of `v`, given the verdicts of all subschemas. */
  predicate SlotAccepts(k: Keywords, slots: seq<Slot>, other: nat, v: Json, f: (nat, Json) -> bool, i: nat)
    requires i < |slots|
  {
    match slots[i]
    case Property(name) =>
      forall j :: 0 <= j < |FieldsOf(v)| && FieldsOf(v)[j].name == name ==> f(i, FieldsOf(v)[j].value)
    case PatternProperty(p) =>
      forall j :: 0 <= j < |FieldsOf(v)| && k.matches(p, FieldsOf(v)[j].name) ==> f(i, FieldsOf(v)[j].value)
    case AdditionalProperties =>
      forall j :: 0 <= j < |FieldsOf(v)| && !Covered(k, slots, FieldsOf(v)[j].name) ==> f(i, FieldsOf(v)[j].value)
    case PropertyNames => forall j :: 0 <= j < |FieldsOf(v)| ==> f(i, Text(FieldsOf(v)[j].name))
    case DependentSchema(t) => Has(v, t) ==> f(i, v)
    case PrefixItem(at) => at < |ItemsOf(v)| ==> f(i, ItemsOf(v)[at])
    case ItemsBeyond => forall j :: PrefixCount(slots) <= j < |ItemsOf(v)| ==> f(i, ItemsOf(v)[j])
    case Contains => v.Array? ==> k.contained(other, CountAccepted(f, i, v.items))
    case Not => !f(i, v)
    case If => true
    case Then => forall j :: 0 <= j < |slots| && slots[j].If? && f(j, v) ==> f(i, v)
    case Else => forall j :: 0 <= j < |slots| && slots[j].If? && !f(j, v) ==> f(i, v)
    case AllOf => f(i, v)
    case AnyOf => exists j :: 0 <= j < |slots| && slots[j].AnyOf? && f(j, v)
    case OneOf =>
      exists j :: 0 <= j < |slots| && slots[j].OneOf? && f(j, v)
        && forall m :: 0 <= m < |slots| && m != j && slots[m].OneOf? ==> !f(m, v)
    case Definition => true
    case ContentSchema => true
  }

  predicate SlotsAccept(k: Keywords, slots: seq<Slot>, other: nat, v: Json, f: (nat, Json) -> bool) {
    forall i :: 0 <= i < |slots| ==> SlotAccepts(k, slots, other, v, f, i)
  }

  predicate OwnAccept(k: Keywords, s: Schema, v: Json) {
    TypesAccept(s, v) && ValuesAccept(s, v) && RequiredAccept(s, v) && k.other(s.other, v)
  }

  function Verdicts(k: Keywords, s: Schema): (nat, Json) -> bool
    decreases s, 0
  {
    (i: nat, v: Json) => if i < |s.children| then Accepts(k, s.children[i].schema, v) else false
  }

  predicate Accepts(k: Keywords, s: Schema, v: Json)
    decreases s, 1
  {
    OwnAccept(k, s, v) && SlotsAccept(k, Slots(s.children), s.other, v, Verdicts(k, s))
  }

  // ----- Values without null

  predicate NullFree(v: Json) {
    match v
    case Null => false
    case Array(items) => forall i :: 0 <= i < |items| ==> NullFree(items[i])
    case Object(fields) => forall i :: 0 <= i < |fields| ==> NullFree(fields[i].value)
    case _ => true
  }

  /** Two families of verdicts that agree on values without null. */
  ghost predicate AgreeNullFree(n: nat, f: (nat, Json) -> bool, g: (nat, Json) -> bool) {
    forall i, w :: 0 <= i < n && NullFree(w) ==> f(i, w) == g(i, w)
  }

  lemma {:induction false} CountAgrees(f: (nat, Json) -> bool, g: (nat, Json) -> bool, n: nat, i: nat, items: seq<Json>)
    requires AgreeNullFree(n, f, g) && i < n && forall j :: 0 <= j < |items| ==> NullFree(items[j])
    ensures CountAccepted(f, i, items) == CountAccepted(g, i, items)
  {
    if items != [] {
      assert NullFree(items[0]);
      CountAgrees(f, g, n, i, items[1..]);
    }
  }

  lemma PartsAreNullFree(v: Json)
    requires NullFree(v)
    ensures forall j :: 0 <= j < |FieldsOf(v)| ==> NullFree(FieldsOf(v)[j].value) && NullFree(Text(FieldsOf(v)[j].name))
    ensures forall j :: 0 <= j < |ItemsOf(v)| ==> NullFree(ItemsOf(v)[j])
  {
  }

  lemma SlotAgrees(k: Keywords, slots: seq<Slot>, other: nat, v: Json, f: (nat, Json) -> bool, g: (nat, Json) -> bool,
                   i: nat)
    requires NullFree(v) && AgreeNullFree(|slots|, f, g) && i < |slots|
    ensures SlotAccepts(k, slots, other, v, f, i) ==> SlotAccepts(k, slots, other, v, g, i)
  {
    hide NullFree, Covered, Has, CountAccepted, PrefixCount;
    PartsAreNullFree(v);
    if slots[i].Contains? && v.Array? { CountAgrees(f, g, |slots|, i, ItemsOf(v)); }
  }

  /** On values without null a node depends on its subschemas through such values only. */
  lemma SlotsAgree(k: Keywords, slots: seq<Slot>, other: nat, v: Json, f: (nat, Json) -> bool, g: (nat, Json) -> bool)
    requires NullFree(v) && AgreeNullFree(|slots|, f, g)
    ensures SlotsAccept(k, slots, other, v, f) <==> SlotsAccept(k, slots, other, v, g)
  {
    hide SlotAccepts, NullFree;
    forall i | 0 <= i < |slots|
      ensures SlotAccepts(k, slots, other, v, f, i) <==> SlotAccepts(k, slots, other, v, g, i) {
      SlotAgrees(k, slots, other, v, f, g, i);
      SlotAgrees(k, slots, other, v, g, f, i);
    }
  }

  // ----- The positive fragment

  predicate IsPositiveSlot(slot: Slot) {
    !slot.Not? && !slot.If? && !slot.OneOf? && !slot.Contains?
  }

  /** Subschemas are only asked to accept: accepting more in them accepts more. */
  predicate IsPositive(s: Schema) {
    forall i :: 0 <= i < |s.children| ==> IsPositiveSlot(s.children[i].slot) && IsPositive(s.children[i].schema)
  }

  lemma SlotsMonotone(k: Keywords, slots: seq<Slot>, other: nat, v: Json, f: (nat, Json) -> bool,
                      g: (nat, Json) -> bool)
    requires forall i :: 0 <= i < |slots| ==> IsPositiveSlot(slots[i])
    requires forall i, w :: 0 <= i < |slots| && f(i, w) ==> g(i, w)
    requires SlotsAccept(k, slots, other, v, f)
    ensures SlotsAccept(k, slots, other, v, g)
  {
    hide Covered, Has, PrefixCount;
    forall i | 0 <= i < |slots| ensures SlotAccepts(k, slots, other, v, g, i) {
      assert SlotAccepts(k, slots, other, v, f, i) && IsPositiveSlot(slots[i]);
    }
  }
}
