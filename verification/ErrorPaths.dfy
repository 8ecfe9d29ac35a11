/** Flattening a tree of validation errors into entries named by dotted paths. */
module ErrorPaths {
  import opened Wrappers
  import opened Texts

  /** ErrorDetail, a list, or a dictionary in its order. */
  datatype Detail =
    | Leaf(code: string, text: string)
    | Items(items: seq<Detail>)
    | Fields(fields: seq<Field>)

  datatype Field = Field(key: string, value: Detail)

  datatype Error = Error(code: string, text: string, attr: Option<string>)

  predicate Truthy(attr: Option<string>) {
    attr.Some? && attr.value != ""
  }

  function Dotted(attr: Option<string>, key: string): string {
    if Truthy(attr) then attr.value + [SEPARATOR] + key else key
  }

  /** flatten_errors. An ErrorDetail is a string, so an empty one is falsy and yields nothing. */
  function Flatten(d: Detail, attr: Option<string>, index: Option<nat>): seq<Error>
    decreases d
  {
    match d
    case Leaf(code, text) => if text == "" then [] else [Error(code, text, attr)]
    case Items(items) => FlattenItems(items, attr, index)
    case Fields(fields) => FlattenFields(fields, attr)
  }

  function FlattenItems(items: seq<Detail>, attr: Option<string>, index: Option<nat>): seq<Error>
    decreases items
  {
    if items == [] then []
    else if !items[0].Leaf? then
      var i := Next(index);
      Flatten(items[0], Some(Dotted(attr, Decimal(i))), Some(i)) + FlattenItems(items[1..], attr, Some(i))
    else
      Flatten(items[0], attr, index) + FlattenItems(items[1..], attr, index)
  }

  function Next(index: Option<nat>): nat {
    if index.None? then 0 else index.value + 1
  }

  function FlattenFields(fields: seq<Field>, attr: Option<string>): seq<Error>
    decreases fields
  {
    if fields == [] then []
    else Flatten(fields[0].value, Some(Dotted(attr, fields[0].key)), None) + FlattenFields(fields[1..], attr)
  }

  /** Below an empty key names start anew, as it is falsy. */
  lemma {:induction false} EmptyKeyVanishes(fields: seq<Field>)
    ensures FlattenFields(fields, Some("")) == FlattenFields(fields, None)
    decreases |fields|
  {
    if fields != [] {
      assert Dotted(Some(""), fields[0].key) == Dotted(None, fields[0].key);
      EmptyKeyVanishes(fields[1..]);
    }
  }

  // ---- order ----

  /** The non-empty leaves, left to right. */
  function Leaves(d: Detail): seq<(string, string)>
    decreases d
  {
    match d
    case Leaf(code, text) => if text == "" then [] else [(code, text)]
    case Items(items) => LeavesOf(items)
    case Fields(fields) => LeavesIn(fields)
  }

  function LeavesOf(items: seq<Detail>): seq<(string, string)>
    decreases items
  {
    if items == [] then [] else Leaves(items[0]) + LeavesOf(items[1..])
  }

  function LeavesIn(fields: seq<Field>): seq<(string, string)>
    decreases fields
  {
    if fields == [] then [] else Leaves(fields[0].value) + LeavesIn(fields[1..])
  }

  function Messages(es: seq<Error>): (ms: seq<(string, string)>)
    ensures |ms| == |es| && forall i :: 0 <= i < |es| ==> ms[i] == (es[i].code, es[i].text)
  {
    seq(|es|, i requires 0 <= i < |es| => (es[i].code, es[i].text))
  }

  lemma MessagesConcat(a: seq<Error>, b: seq<Error>)
    ensures Messages(a + b) == Messages(a) + Messages(b)
  {
  }

  /** One entry per non-empty leaf, in left-to-right order, for every tree. */
  lemma {:induction false} EveryLeafOnce(d: Detail, attr: Option<string>, index: Option<nat>)
    ensures Messages(Flatten(d, attr, index)) == Leaves(d)
    decreases d
  {
    match d
    case Leaf(_, _) =>
    case Items(items) => EveryItemOnce(items, attr, index);
    case Fields(fields) => EveryFieldOnce(fields, attr);
  }

  lemma {:induction false} EveryItemOnce(items: seq<Detail>, attr: Option<string>, index: Option<nat>)
    ensures Messages(FlattenItems(items, attr, index)) == LeavesOf(items)
    decreases items
  {
    if items != [] {
      var i := if items[0].Leaf? then index else Some(Next(index));
      var a := if items[0].Leaf? then attr else Some(Dotted(attr, Decimal(Next(index))));
      EveryLeafOnce(items[0], a, i);
      EveryItemOnce(items[1..], attr, i);
      MessagesConcat(Flatten(items[0], a, i), FlattenItems(items[1..], attr, i));
    }
  }

  lemma {:induction false} EveryFieldOnce(fields: seq<Field>, attr: Option<string>)
    ensures Messages(FlattenFields(fields, attr)) == LeavesIn(fields)
    decreases fields
  {
    if fields != [] {
      var a := Some(Dotted(attr, fields[0].key));
      EveryLeafOnce(fields[0].value, a, None);
      EveryFieldOnce(fields[1..], attr);
      MessagesConcat(Flatten(fields[0].value, a, None), FlattenFields(fields[1..], attr));
    }
  }

  // ---- places ----

  /** A leaf and the way to it: keys, and numbers of the items of a list that are not leaves. */
  datatype Place = Place(path: seq<string>, code: string, text: string)

  function Under(key: string, ps: seq<Place>): (qs: seq<Place>)
    ensures |qs| == |ps| && forall i :: 0 <= i < |ps| ==> qs[i] == ps[i].(path := [key] + ps[i].path)
  {
    seq(|ps|, i requires 0 <= i < |ps| => ps[i].(path := [key] + ps[i].path))
  }

  /** How many of the first `j` items are not leaves. */
  function Slot(items: seq<Detail>, j: nat): nat
    requires j <= |items|
  {
    if j == 0 then 0 else Slot(items, j - 1) + if items[j - 1].Leaf? then 0 else 1
  }

  /** Where the non-empty leaves are, by enumeration. */
  function Places(d: Detail): seq<Place>
    decreases d
  {
    match d
    case Leaf(code, text) => if text == "" then [] else [Place([], code, text)]
    case Items(items) => ItemPlaces(items, 0)
    case Fields(fields) => FieldPlaces(fields, 0)
  }

  function ItemPlaces(items: seq<Detail>, j: nat): seq<Place>
    requires j <= |items|
    decreases items, |items| - j
  {
    if j == |items| then []
    else
      var ps := Places(items[j]);
      (if items[j].Leaf? then ps else Under(Decimal(Slot(items, j)), ps)) + ItemPlaces(items, j + 1)
  }

  function FieldPlaces(fields: seq<Field>, j: nat): seq<Place>
    requires j <= |fields|
    decreases fields, |fields| - j
  {
    if j == |fields| then []
    else Under(fields[j].key, Places(fields[j].value)) + FieldPlaces(fields, j + 1)
  }

  /** Every key is non-empty, free of the separator, and the only one of its name. */
  ghost predicate Keyed(d: Detail)
    decreases d
  {
    match d
    case Leaf(_, _) => true
    case Items(items) => forall x :: x in items ==> Keyed(x)
    case Fields(fields) =>
      && (forall f :: f in fields ==> f.key != "" && Free(f.key) && Keyed(f.value))
      && (forall i, j :: 0 <= i < j < |fields| ==> fields[i].key != fields[j].key)
  }

  /** The item that is not a leaf and has number `key` among such items from `j` on. */
  function ItemAt(items: seq<Detail>, j: nat, key: string): Option<Detail>
    requires j <= |items|
    decreases |items| - j
  {
    if j == |items| then None
    else if !items[j].Leaf? && Decimal(Slot(items, j)) == key then Some(items[j])
    else ItemAt(items, j + 1, key)
  }

  function FieldAt(fields: seq<Field>, j: nat, key: string): Option<Detail>
    requires j <= |fields|
    decreases |fields| - j
  {
    if j == |fields| then None
    else if fields[j].key == key then Some(fields[j].value)
    else FieldAt(fields, j + 1, key)
  }

  /** Following a path down the tree. */
  function Walk(d: Detail, path: seq<string>): Option<Detail>
    decreases |path|
  {
    if path == [] then Some(d)
    else
      var next := match d
        case Leaf(_, _) => None
        case Items(items) => ItemAt(items, 0, path[0])
        case Fields(fields) => FieldAt(fields, 0, path[0]);
      if next.None? then None else Walk(next.value, path[1..])
  }

  /** The path leads to the leaf itself or to the list that holds it. */
  ghost predicate LeadsToLeaf(d: Detail, p: Place) {
    var at := Walk(d, p.path);
    && at.Some?
    && (at.value == Leaf(p.code, p.text) || (at.value.Items? && Leaf(p.code, p.text) in at.value.items))
  }

  lemma {:induction false} SlotGrows(items: seq<Detail>, i: nat, j: nat)
    requires i < j <= |items| && !items[i].Leaf?
    ensures Slot(items, i) < Slot(items, j)
    decreases j
  {
    if i < j - 1 {
      SlotGrows(items, i, j - 1);
    }
  }

  lemma {:induction false} ItemFound(items: seq<Detail>, i: nat, j: nat)
    requires i <= j < |items| && !items[j].Leaf?
    ensures ItemAt(items, i, Decimal(Slot(items, j))) == Some(items[j])
    decreases j - i
  {
    if i < j {
      if !items[i].Leaf? {
        SlotGrows(items, i, j);
        if Decimal(Slot(items, i)) == Decimal(Slot(items, j)) {
          DecimalInjective(Slot(items, i), Slot(items, j));
        }
      }
      ItemFound(items, i + 1, j);
    }
  }

  lemma {:induction false} FieldFound(fields: seq<Field>, i: nat, j: nat)
    requires i <= j < |fields| && forall a, b :: 0 <= a < b < |fields| ==> fields[a].key != fields[b].key
    ensures FieldAt(fields, i, fields[j].key) == Some(fields[j].value)
    decreases j - i
  {
    if i < j {
      FieldFound(fields, i + 1, j);
    }
  }

  /** Every enumerated place leads back to its leaf. */
  lemma {:induction false} PlacesLead(d: Detail)
    requires Keyed(d)
    ensures forall p :: p in Places(d) ==> LeadsToLeaf(d, p)
    decreases d
  {
    match d
    case Leaf(_, _) =>
    case Items(items) => ItemPlacesLead(items, 0);
    case Fields(fields) => FieldPlacesLead(fields, 0);
  }

  lemma {:induction false} ItemPlacesLead(items: seq<Detail>, j: nat)
    requires j <= |items| && Keyed(Items(items))
    ensures forall p :: p in ItemPlaces(items, j) ==> LeadsToLeaf(Items(items), p)
    decreases items, |items| - j
  {
    if j < |items| {
      PlacesLead(items[j]);
      ItemPlacesLead(items, j + 1);
      var ps := Places(items[j]);
      if !items[j].Leaf? {
        ItemFound(items, 0, j);
        StepLeads(Items(items), Decimal(Slot(items, j)), items[j], ps);
      }
    }
  }

  lemma {:induction false} FieldPlacesLead(fields: seq<Field>, j: nat)
    requires j <= |fields| && Keyed(Fields(fields))
    ensures forall p :: p in FieldPlaces(fields, j) ==> LeadsToLeaf(Fields(fields), p)
    decreases fields, |fields| - j
  {
    if j < |fields| {
      PlacesLead(fields[j].value);
      FieldPlacesLead(fields, j + 1);
      FieldFound(fields, 0, j);
      StepLeads(Fields(fields), fields[j].key, fields[j].value, Places(fields[j].value));
    }
  }

  lemma StepLeads(d: Detail, key: string, x: Detail, ps: seq<Place>)
    requires Walk(d, [key]) == Some(x)
    requires forall p :: p in ps ==> LeadsToLeaf(x, p)
    ensures forall p :: p in Under(key, ps) ==> LeadsToLeaf(d, p)
  {
    assert [key][1..] == [];
    forall p | p in Under(key, ps) ensures LeadsToLeaf(d, p) {
      var i :| 0 <= i < |ps| && Under(key, ps)[i] == p;
      assert LeadsToLeaf(x, ps[i]);
      assert p.path[1..] == ps[i].path;
      assert Walk(d, [key]) == (var next := Walk(d, [key]); next);
    }
  }
}
