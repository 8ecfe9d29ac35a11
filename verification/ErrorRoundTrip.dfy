/** Which trees flatten_errors names correctly, and that on those splitting a name leads back to its leaf. */
module ErrorRoundTrip {
  import opened Wrappers
  import opened Texts
  import opened ErrorPaths

  // ---- the accumulator as a path ----

  function NextStart(x: Detail, start: nat): nat {
    if x.Leaf? then start else start + 1
  }

  function ItemPath(x: Detail, path: seq<string>, start: nat): seq<string> {
    if x.Leaf? then path else path + [Decimal(start)]
  }

  /** What the accumulators of flatten_errors amount to: a path so far, and the next number to give. */
  function Given(d: Detail, path: seq<string>, start: nat): seq<Place>
    decreases d
  {
    match d
    case Leaf(code, text) => if text == "" then [] else [Place(path, code, text)]
    case Items(items) => GivenItems(items, path, start)
    case Fields(fields) => GivenFields(fields, path)
  }

  function GivenItems(items: seq<Detail>, path: seq<string>, start: nat): seq<Place>
    decreases items
  {
    if items == [] then []
    else
      var next := NextStart(items[0], start);
      Given(items[0], ItemPath(items[0], path, start), next) + GivenItems(items[1..], path, next)
  }

  function GivenFields(fields: seq<Field>, path: seq<string>): seq<Place>
    decreases fields
  {
    if fields == [] then []
    else Given(fields[0].value, path + [fields[0].key], 0) + GivenFields(fields[1..], path)
  }

  function AttrOf(path: seq<string>): Option<string> {
    if path == [] then None else Some(Join(path))
  }

  function ToError(p: Place): Error {
    Error(p.code, p.text, AttrOf(p.path))
  }

  function ToErrors(ps: seq<Place>): (es: seq<Error>)
    ensures |es| == |ps| && forall i :: 0 <= i < |ps| ==> es[i] == ToError(ps[i])
  {
    seq(|ps|, i requires 0 <= i < |ps| => ToError(ps[i]))
  }

  ghost predicate Named(path: seq<string>) {
    forall i :: 0 <= i < |path| ==> path[i] != "" && Free(path[i])
  }

  lemma DottedPath(path: seq<string>, key: string)
    requires Named(path) && key != "" && Free(key)
    ensures Some(Dotted(AttrOf(path), key)) == AttrOf(path + [key]) && Named(path + [key])
  {
    if path != [] {
      JoinNonEmpty(path);
      JoinAppend(path, key);
    }
  }

  function StartOf(index: Option<nat>): nat {
    if index.None? then 0 else index.value + 1
  }

  lemma {:induction false} FlattenGives(d: Detail, path: seq<string>, index: Option<nat>)
    requires Keyed(d) && Named(path)
    ensures Flatten(d, AttrOf(path), index) == ToErrors(Given(d, path, StartOf(index)))
    decreases d
  {
    match d
    case Leaf(_, _) =>
    case Items(items) => FlattenItemsGives(items, path, index);
    case Fields(fields) => FlattenFieldsGives(fields, path);
  }

  lemma {:induction false} FlattenItemsGives(items: seq<Detail>, path: seq<string>, index: Option<nat>)
    requires (forall x :: x in items ==> Keyed(x)) && Named(path)
    ensures FlattenItems(items, AttrOf(path), index) == ToErrors(GivenItems(items, path, StartOf(index)))
    decreases items
  {
    hide Flatten, Given, Keyed, Named, Dotted, AttrOf, ToError, Decimal;
    if items != [] {
      var i := if items[0].Leaf? then index else Some(Next(index));
      DottedPath(path, Decimal(Next(index)));
      FlattenGives(items[0], ItemPath(items[0], path, StartOf(index)), i);
      FlattenItemsGives(items[1..], path, i);
    }
  }

  lemma {:induction false} FlattenFieldsGives(fields: seq<Field>, path: seq<string>)
    requires (forall f :: f in fields ==> f.key != "" && Free(f.key) && Keyed(f.value)) && Named(path)
    ensures FlattenFields(fields, AttrOf(path)) == ToErrors(GivenFields(fields, path))
    decreases fields
  {
    if fields != [] {
      DottedPath(path, fields[0].key);
      FlattenGives(fields[0].value, path + [fields[0].key], None);
      FlattenFieldsGives(fields[1..], path);
    }
  }

  // ---- given against enumerated ----

  function Below(path: seq<string>, ps: seq<Place>): (qs: seq<Place>)
    ensures |qs| == |ps| && forall i :: 0 <= i < |ps| ==> qs[i] == ps[i].(path := path + ps[i].path)
  {
    seq(|ps|, i requires 0 <= i < |ps| => ps[i].(path := path + ps[i].path))
  }

  lemma BelowConcat(path: seq<string>, a: seq<Place>, b: seq<Place>)
    ensures Below(path, a + b) == Below(path, a) + Below(path, b)
  {
  }

  lemma BelowUnder(path: seq<string>, key: string, ps: seq<Place>)
    ensures Below(path, Under(key, ps)) == Below(path + [key], ps)
  {
    forall i | 0 <= i < |ps| ensures Below(path, Under(key, ps))[i] == Below(path + [key], ps)[i] {
      assert path + ([key] + ps[i].path) == path + [key] + ps[i].path;
    }
  }

  lemma Pieces(a: seq<Place>, b: seq<Place>, c: seq<Place>, d: seq<Place>)
    requires |a| == |c|
    ensures a + b == c + d <==> a == c && b == d
  {
    if a + b == c + d {
      assert a == (a + b)[..|a|] && c == (c + d)[..|a|];
      assert b == (a + b)[|a|..] && d == (c + d)[|a|..];
    }
  }

  /** As many entries as places, all below the path so far. */
  lemma {:induction false} GivenBelow(d: Detail, path: seq<string>, start: nat)
    ensures |Given(d, path, start)| == |Places(d)|
    ensures forall p :: p in Given(d, path, start) ==> path <= p.path
    decreases d
  {
    match d
    case Leaf(_, _) =>
    case Items(items) => GivenItemsBelow(items, 0, path, start);
    case Fields(fields) => GivenFieldsBelow(fields, 0, path);
  }

  lemma {:induction false} GivenItemsBelow(items: seq<Detail>, j: nat, path: seq<string>, start: nat)
    requires j <= |items|
    ensures |GivenItems(items[j..], path, start)| == |ItemPlaces(items, j)|
    ensures forall p :: p in GivenItems(items[j..], path, start) ==> path <= p.path
    decreases items, |items| - j
  {
    if j < |items| {
      assert items[j..][1..] == items[j + 1..];
      GivenBelow(items[j], ItemPath(items[j], path, start), NextStart(items[j], start));
      GivenItemsBelow(items, j + 1, path, NextStart(items[j], start));
    }
  }

  lemma {:induction false} GivenFieldsBelow(fields: seq<Field>, j: nat, path: seq<string>)
    requires j <= |fields|
    ensures |GivenFields(fields[j..], path)| == |FieldPlaces(fields, j)|
    ensures forall p :: p in GivenFields(fields[j..], path) ==> path <= p.path
    decreases fields, |fields| - j
  {
    if j < |fields| {
      assert fields[j..][1..] == fields[j + 1..];
      GivenBelow(fields[j].value, path + [fields[j].key], 0);
      GivenFieldsBelow(fields, j + 1, path);
    }
  }

  /** No non-empty leaf anywhere below. */
  predicate Silent(d: Detail) {
    Leaves(d) == []
  }

  /** A list directly inside a list holds only leaves, apart from parts without any message. */
  ghost predicate Straight(d: Detail)
    decreases d
  {
    match d
    case Leaf(_, _) => true
    case Items(items) => forall x :: x in items ==> StraightItem(x)
    case Fields(fields) => forall f :: f in fields ==> Straight(f.value)
  }

  ghost predicate StraightItem(x: Detail)
    decreases x
  {
    match x
    case Leaf(_, _) => true
    case Items(inner) => forall y :: y in inner ==> y.Leaf? || Silent(y)
    case Fields(fields) => forall f :: f in fields ==> Straight(f.value)
  }

  lemma {:induction false} PlacesLeaves(d: Detail)
    ensures |Places(d)| == |Leaves(d)|
    decreases d
  {
    match d
    case Leaf(_, _) =>
    case Items(items) => ItemPlacesLeaves(items, 0);
    case Fields(fields) => FieldPlacesLeaves(fields, 0);
  }

  lemma {:induction false} ItemPlacesLeaves(items: seq<Detail>, j: nat)
    requires j <= |items|
    ensures |ItemPlaces(items, j)| == |LeavesOf(items[j..])|
    decreases items, |items| - j
  {
    if j < |items| {
      assert items[j..][1..] == items[j + 1..];
      PlacesLeaves(items[j]);
      ItemPlacesLeaves(items, j + 1);
    } else {
      assert items[j..] == [];
    }
  }

  lemma {:induction false} FieldPlacesLeaves(fields: seq<Field>, j: nat)
    requires j <= |fields|
    ensures |FieldPlaces(fields, j)| == |LeavesIn(fields[j..])|
    decreases fields, |fields| - j
  {
    if j < |fields| {
      assert fields[j..][1..] == fields[j + 1..];
      PlacesLeaves(fields[j].value);
      FieldPlacesLeaves(fields, j + 1);
    } else {
      assert fields[j..] == [];
    }
  }

  /** The numbers given are the enumeration's exactly for straight trees. */
  lemma {:induction false} GivenIffStraight(d: Detail, path: seq<string>)
    ensures Given(d, path, 0) == Below(path, Places(d)) <==> Straight(d)
    decreases d, 1
  {
    match d
    case Leaf(_, _) =>
      assert path + [] == path;
    case Items(items) =>
      AlignedItems(items, 0, path);
      assert items[0..] == items;
    case Fields(fields) =>
      FieldsIff(fields, 0, path);
      assert fields[0..] == fields;
  }

  lemma {:induction false} FieldsIff(fields: seq<Field>, j: nat, path: seq<string>)
    requires j <= |fields|
    ensures GivenFields(fields[j..], path) == Below(path, FieldPlaces(fields, j)) <==>
      forall k :: j <= k < |fields| ==> Straight(fields[k].value)
    decreases fields, 0, |fields| - j
  {
    if j < |fields| {
      assert fields[j..][1..] == fields[j + 1..];
      var key, x := fields[j].key, fields[j].value;
      var a := Given(x, path + [key], 0);
      GivenBelow(x, path + [key], 0);
      GivenIffStraight(x, path + [key]);
      BelowUnder(path, key, Places(x));
      BelowConcat(path, Under(key, Places(x)), FieldPlaces(fields, j + 1));
      Pieces(a, GivenFields(fields[j + 1..], path), Below(path, Under(key, Places(x))), Below(path, FieldPlaces(fields, j + 1)));
      FieldsIff(fields, j + 1, path);
    }
  }

  /** A list whose numbering starts where it should. */
  lemma {:induction false} AlignedItems(items: seq<Detail>, j: nat, path: seq<string>)
    requires j <= |items|
    ensures GivenItems(items[j..], path, Slot(items, j)) == Below(path, ItemPlaces(items, j)) <==>
      forall k :: j <= k < |items| ==> StraightItem(items[k])
    decreases items, 0, |items| - j
  {
    if j < |items| {
      assert items[j..][1..] == items[j + 1..];
      var x, start := items[j], Slot(items, j);
      var here := AtSlot(x, start);
      var a := Given(x, ItemPath(x, path, start), NextStart(x, start));
      GivenBelow(x, ItemPath(x, path, start), NextStart(x, start));
      AlignedItem(x, path, start);
      BelowConcat(path, here, ItemPlaces(items, j + 1));
      Pieces(a, GivenItems(items[j + 1..], path, Slot(items, j + 1)), Below(path, here), Below(path, ItemPlaces(items, j + 1)));
      AlignedItems(items, j + 1, path);
    }
  }

  /** The places of an item numbered `slot` among those that are not leaves. */
  function AtSlot(x: Detail, slot: nat): seq<Place> {
    if x.Leaf? then Places(x) else Under(Decimal(slot), Places(x))
  }

  lemma {:induction false} AlignedItem(x: Detail, path: seq<string>, start: nat)
    ensures Given(x, ItemPath(x, path, start), NextStart(x, start)) == Below(path, AtSlot(x, start)) <==> StraightItem(x)
    decreases x, 0
  {
    match x
    case Leaf(_, _) =>
      assert path + [] == path;
    case Items(inner) =>
      BelowUnder(path, Decimal(start), Places(x));
      ShiftedItems(inner, 0, path + [Decimal(start)], start + 1);
      assert inner[0..] == inner;
    case Fields(fields) =>
      BelowUnder(path, Decimal(start), Places(x));
      FieldsIff(fields, 0, path + [Decimal(start)]);
      assert fields[0..] == fields;
  }

  /** A list whose numbering starts too high is right only where it numbers nothing. */
  lemma {:induction false} ShiftedItems(items: seq<Detail>, j: nat, path: seq<string>, start: nat)
    requires j <= |items| && start > Slot(items, j)
    ensures GivenItems(items[j..], path, start) == Below(path, ItemPlaces(items, j)) <==>
      forall k :: j <= k < |items| ==> items[k].Leaf? || Silent(items[k])
    decreases items, 0, |items| - j
  {
    if j < |items| {
      assert items[j..][1..] == items[j + 1..];
      var x := items[j];
      var here := AtSlot(x, Slot(items, j));
      var a := Given(x, ItemPath(x, path, start), NextStart(x, start));
      GivenBelow(x, ItemPath(x, path, start), NextStart(x, start));
      ShiftedItem(x, path, start, Slot(items, j));
      BelowConcat(path, here, ItemPlaces(items, j + 1));
      Pieces(a, GivenItems(items[j + 1..], path, NextStart(x, start)), Below(path, here), Below(path, ItemPlaces(items, j + 1)));
      ShiftedItems(items, j + 1, path, NextStart(x, start));
    }
  }

  lemma ShiftedItem(x: Detail, path: seq<string>, start: nat, slot: nat)
    requires start != slot
    ensures Given(x, ItemPath(x, path, start), NextStart(x, start)) == Below(path, AtSlot(x, slot)) <==> x.Leaf? || Silent(x)
  {
    PlacesLeaves(x);
    if x.Leaf? {
      assert path + [] == path;
    } else {
      var to := path + [Decimal(start)];
      GivenBelow(x, to, start + 1);
      BelowUnder(path, Decimal(slot), Places(x));
      if Places(x) != [] {
        var p := Given(x, to, start + 1)[0];
        var q := Below(path + [Decimal(slot)], Places(x))[0];
        assert to <= p.path && p.path[|path|] == to[|path|] == Decimal(start);
        assert q.path[|path|] == Decimal(slot);
        if p == q {
          DecimalInjective(start, slot);
        }
      }
    }
  }

  // ---- names ----

  ghost predicate AllNamed(ps: seq<Place>) {
    forall i :: 0 <= i < |ps| ==> Named(ps[i].path)
  }

  lemma ToErrorInjective(p: Place, q: Place)
    requires Named(p.path) && Named(q.path) && ToError(p) == ToError(q)
    ensures p == q
  {
    if p.path != [] && q.path != [] {
      JoinInjective(p.path, q.path);
    }
  }

  lemma ToErrorsInjective(a: seq<Place>, b: seq<Place>)
    requires AllNamed(a) && AllNamed(b) && ToErrors(a) == ToErrors(b)
    ensures a == b
  {
    forall i | 0 <= i < |a| ensures a[i] == b[i] {
      assert ToErrors(a)[i] == ToErrors(b)[i];
      ToErrorInjective(a[i], b[i]);
    }
  }

  lemma {:induction false} PlacesNamed(d: Detail)
    requires Keyed(d)
    ensures AllNamed(Places(d))
    decreases d
  {
    match d
    case Leaf(_, _) =>
    case Items(items) => ItemPlacesNamed(items, 0);
    case Fields(fields) => FieldPlacesNamed(fields, 0);
  }

  lemma {:induction false} ItemPlacesNamed(items: seq<Detail>, j: nat)
    requires j <= |items| && Keyed(Items(items))
    ensures AllNamed(ItemPlaces(items, j))
    decreases items, |items| - j
  {
    if j < |items| {
      PlacesNamed(items[j]);
      ItemPlacesNamed(items, j + 1);
    }
  }

  lemma {:induction false} FieldPlacesNamed(fields: seq<Field>, j: nat)
    requires j <= |fields| && Keyed(Fields(fields))
    ensures AllNamed(FieldPlaces(fields, j))
    decreases fields, |fields| - j
  {
    if j < |fields| {
      PlacesNamed(fields[j].value);
      FieldPlacesNamed(fields, j + 1);
    }
  }

  lemma {:induction false} GivenNamed(d: Detail, path: seq<string>, start: nat)
    requires Keyed(d) && Named(path)
    ensures AllNamed(Given(d, path, start))
    decreases d
  {
    match d
    case Leaf(_, _) =>
    case Items(items) => GivenItemsNamed(items, path, start);
    case Fields(fields) => GivenFieldsNamed(fields, path);
  }

  lemma {:induction false} GivenItemsNamed(items: seq<Detail>, path: seq<string>, start: nat)
    requires (forall x :: x in items ==> Keyed(x)) && Named(path)
    ensures AllNamed(GivenItems(items, path, start))
    decreases items
  {
    if items != [] {
      GivenNamed(items[0], ItemPath(items[0], path, start), NextStart(items[0], start));
      GivenItemsNamed(items[1..], path, NextStart(items[0], start));
    }
  }

  lemma {:induction false} GivenFieldsNamed(fields: seq<Field>, path: seq<string>)
    requires (forall f :: f in fields ==> f.key != "" && Free(f.key) && Keyed(f.value)) && Named(path)
    ensures AllNamed(GivenFields(fields, path))
    decreases fields
  {
    if fields != [] {
      GivenNamed(fields[0].value, path + [fields[0].key], 0);
      GivenFieldsNamed(fields[1..], path);
    }
  }

  /** flatten_errors names every leaf by its place exactly when the tree is straight. */
  lemma NamesIffStraight(d: Detail)
    requires Keyed(d)
    ensures Flatten(d, None, None) == ToErrors(Places(d)) <==> Straight(d)
  {
    FlattenGives(d, [], None);
    GivenIffStraight(d, []);
    assert Below([], Places(d)) == Places(d) by {
      forall i | 0 <= i < |Places(d)| ensures Below([], Places(d))[i] == Places(d)[i] {
        assert [] + Places(d)[i].path == Places(d)[i].path;
      }
    }
    GivenNamed(d, [], 0);
    PlacesNamed(d);
    if Flatten(d, None, None) == ToErrors(Places(d)) {
      ToErrorsInjective(Given(d, [], 0), Places(d));
    }
  }

  /** On a straight tree, splitting an entry's name and walking the tree reaches the entry's leaf. */
  lemma NamesLeadBack(d: Detail, i: nat)
    requires Keyed(d) && Straight(d) && i < |Flatten(d, None, None)|
    ensures var e := Flatten(d, None, None)[i];
      LeadsToLeaf(d, Place(if e.attr.None? then [] else Split(e.attr.value), e.code, e.text))
  {
    NamesIffStraight(d);
    PlacesNamed(d);
    PlacesLead(d);
    var p := Places(d)[i];
    assert p in Places(d) && LeadsToLeaf(d, p);
    if p.path != [] {
      SplitJoin(p.path);
    }
  }
}
