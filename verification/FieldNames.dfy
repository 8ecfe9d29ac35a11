/** Naming the fields of a tree of serializers, and finding a field again from its serializer's name. */
module FieldNames {
  import opened Wrappers
  import opened Texts

  /**
   * A serializer field, with "" for a missing name. A serializer lists the field groups of its
   * unique-together validators.
   */
  datatype Node =
    | Simple(name: string)
    | Composite(name: string, list: bool, child: Node)
    | Serializer(name: string, fields: seq<Node>, together: seq<seq<string>>)
    | Many(name: string, child: Node)
    | Polymorphic(options: seq<Node>)

  /** LIST_INDEX_IN_API_SCHEMA and DICT_KEY_IN_API_SCHEMA, at their defaults. */
  const LIST_INDEX := "INDEX"
  const DICT_KEY := "KEY"

  datatype Named = Named(name: string, field: Node)

  /** get_prefix */
  function GetPrefix(prefix: string, name: string): string {
    if prefix != "" && name != "" then prefix + [SEPARATOR] + name
    else if prefix != "" then prefix
    else name
  }

  /** get_flat_serializer_fields, `key` being NON_FIELD_ERRORS_KEY. */
  function Flat(node: Node, prefix: string, key: string): seq<Named>
    decreases node
  {
    match node
    case Many(name, child) =>
      var own := GetPrefix(prefix, name);
      [Named(GetPrefix(own, key), node)] + Flat(child, GetPrefix(own, LIST_INDEX), key)
    case Polymorphic(options) => FlatAll(options, prefix, key)
    case Serializer(name, fields, _) =>
      var own := GetPrefix(prefix, name);
      [Named(GetPrefix(own, key), node)] + FlatAll(fields, own, key)
    case Composite(name, list, child) =>
      var own := GetPrefix(prefix, name);
      [Named(own, node)] + Flat(child, GetPrefix(own, if list then LIST_INDEX else DICT_KEY), key)
    case Simple(name) => [Named(GetPrefix(prefix, name), node)]
  }

  function FlatAll(nodes: seq<Node>, prefix: string, key: string): seq<Named>
    decreases nodes
  {
    if nodes == [] then [] else Flat(nodes[0], prefix, key) + FlatAll(nodes[1..], prefix, key)
  }

  /** The name add_error_code looks for: the last part of the serializer's name replaced. */
  function FullFieldName(attr: string, fieldName: string): string {
    var parts := Split(attr);
    Join(parts[|parts| - 1 := fieldName])
  }

  // ---- names as paths ----

  datatype Trail = Trail(parts: seq<string>, field: Node)

  function With(path: seq<string>, name: string): seq<string> {
    if name == "" then path else path + [name]
  }

  /** The parts of each flattened name: field names, "INDEX" below a list, "KEY" below a dictionary, the key for a serializer's own errors. */
  function Trails(node: Node, path: seq<string>, key: string): seq<Trail>
    decreases node
  {
    match node
    case Many(name, child) =>
      [Trail(With(path, name) + [key], node)] + Trails(child, With(path, name) + ["INDEX"], key)
    case Polymorphic(options) => TrailsAll(options, path, key)
    case Serializer(name, fields, _) =>
      [Trail(With(path, name) + [key], node)] + TrailsAll(fields, With(path, name), key)
    case Composite(name, list, child) =>
      [Trail(With(path, name), node)] + Trails(child, With(path, name) + [if list then "INDEX" else "KEY"], key)
    case Simple(name) => [Trail(With(path, name), node)]
  }

  function TrailsAll(nodes: seq<Node>, path: seq<string>, key: string): seq<Trail>
    decreases nodes
  {
    if nodes == [] then [] else Trails(nodes[0], path, key) + TrailsAll(nodes[1..], path, key)
  }

  /** The dotted name of a path, empty for the empty path. */
  function Dotted(path: seq<string>): string {
    if path == [] then "" else Join(path)
  }

  function NamedBy(ts: seq<Trail>): (es: seq<Named>)
    ensures |es| == |ts| && forall i :: 0 <= i < |ts| ==> es[i] == Named(Dotted(ts[i].parts), ts[i].field)
  {
    seq(|ts|, i requires 0 <= i < |ts| => Named(Dotted(ts[i].parts), ts[i].field))
  }

  ghost predicate Filled(path: seq<string>) {
    forall i :: 0 <= i < |path| ==> path[i] != ""
  }

  lemma PrefixDotted(path: seq<string>, name: string)
    requires Filled(path)
    ensures GetPrefix(Dotted(path), name) == Dotted(With(path, name)) && Filled(With(path, name))
  {
    if path != [] {
      JoinNonEmpty(path);
      if name != "" {
        JoinAppend(path, name);
      }
    }
  }

  /** The flattener's names are the dotted paths. */
  lemma {:induction false} FlatIsTrails(node: Node, path: seq<string>, key: string)
    requires Filled(path) && key != ""
    ensures Flat(node, Dotted(path), key) == NamedBy(Trails(node, path, key))
    decreases node
  {
    hide GetPrefix, Dotted;
    if !node.Polymorphic? {
      PrefixDotted(path, node.name);
      var own := With(path, node.name);
      PrefixDotted(own, key);
      PrefixDotted(own, "INDEX");
      PrefixDotted(own, "KEY");
    }
    match node
    case Many(name, child) =>
      FlatIsTrails(child, With(path, name) + ["INDEX"], key);
    case Polymorphic(options) =>
      FlatAllIsTrails(options, path, key);
    case Serializer(name, fields, _) =>
      FlatAllIsTrails(fields, With(path, name), key);
    case Composite(name, list, child) =>
      FlatIsTrails(child, With(path, name) + [if list then "INDEX" else "KEY"], key);
    case Simple(name) =>
  }

  lemma {:induction false} FlatAllIsTrails(nodes: seq<Node>, path: seq<string>, key: string)
    requires Filled(path) && key != ""
    ensures FlatAll(nodes, Dotted(path), key) == NamedBy(TrailsAll(nodes, path, key))
    decreases nodes
  {
    hide Dotted;
    if nodes != [] {
      FlatIsTrails(nodes[0], path, key);
      FlatAllIsTrails(nodes[1..], path, key);
    }
  }

  // ---- replacing the last part ----

  /** Joining undoes splitting, for every string. */
  lemma {:induction false} JoinSplit(s: string)
    ensures Join(Split(s)) == s
    decreases |s|
  {
    if s != "" {
      var k := |s| - 1;
      JoinSplit(s[..k]);
      var before := Split(s[..k]);
      var last := |before| - 1;
      if s[k] == SEPARATOR {
        assert (before + [""])[..|before|] == before;
      } else {
        var longer := before[..last] + [before[last] + [s[k]]];
        assert longer[..last] == before[..last];
        assert Join(longer) == Join(before) + [s[k]];
      }
      assert s == s[..k] + [s[k]];
    }
  }

  lemma LastReplaced(parts: seq<string>, x: string)
    requires |parts| > 0
    ensures |Join(parts[|parts| - 1 := x])| == |Join(parts)| - |parts[|parts| - 1]| + |x|
  {
    var k := |parts| - 1;
    assert parts[k := x][..k] == parts[..k];
  }

  /** After a separator, a text holding further ones loses some of its length to earlier parts. */
  lemma {:induction false} LastPartShorter(s: string, text: string)
    requires !Free(text)
    ensures var parts := Split(s + text); |parts[|parts| - 1]| < |text|
    decreases |text|
  {
    var k := |text| - 1;
    var t := s + text;
    assert t[..|t| - 1] == s + text[..k];
    if text[k] != SEPARATOR {
      assert text == text[..k] + [text[k]];
      LastPartShorter(s, text[..k]);
    }
  }

  /**
   * Replacing the last part of a serializer's name gives the flattened name of its field, whatever
   * the names are, exactly when the key for non-field errors holds no separator.
   */
  lemma FieldNameIffFreeKey(own: string, key: string, name: string)
    requires key != "" && name != ""
    ensures FullFieldName(GetPrefix(own, key), name) == GetPrefix(own, name) <==> Free(key)
  {
    var attr := GetPrefix(own, key);
    var parts := Split(attr);
    var stem := if own == "" then "" else own + [SEPARATOR];
    assert attr == stem + key && GetPrefix(own, name) == stem + name;
    if Free(key) {
      if own == "" {
        SplitFree(key);
        assert parts[0 := name] == [name];
      } else {
        SplitAppend(own, key);
        JoinSplit(own);
        assert parts[|parts| - 1 := name] == Split(own) + [name];
        JoinAppend(Split(own), name);
      }
    } else {
      LastPartShorter(stem, key);
      JoinSplit(attr);
      LastReplaced(parts, name);
    }
  }

  // ---- agreement over the whole tree ----

  /** Field names inside serializers are keys of a dictionary of attributes, never empty. */
  ghost predicate WellNamed(node: Node)
    decreases node
  {
    match node
    case Many(_, child) => WellNamed(child)
    case Polymorphic(options) => forall x :: x in options ==> WellNamed(x)
    case Serializer(_, fields, _) => forall x :: x in fields ==> WellNamed(x) && HasName(x)
    case Composite(_, _, child) => WellNamed(child)
    case Simple(_) => true
  }

  predicate HasName(node: Node) {
    node.Polymorphic? || node.name != ""
  }

  /** Entry `e` of a serializer finds each of its simple and composite fields by name among `es`. */
  ghost predicate FindsFields(e: Named, es: seq<Named>) {
    e.field.Serializer? ==>
      forall x :: x in e.field.fields && (x.Simple? || x.Composite?) ==>
        Named(FullFieldName(e.name, x.name), x) in es
  }

  ghost predicate AllFind(es: seq<Named>) {
    forall e :: e in es ==> FindsFields(e, es)
  }

  lemma AllFindConcat(a: seq<Named>, b: seq<Named>)
    requires AllFind(a) && AllFind(b)
    ensures AllFind(a + b)
  {
    forall e | e in a + b ensures FindsFields(e, a + b) {
      assert FindsFields(e, a) || FindsFields(e, b);
      assert forall x :: x in a || x in b ==> x in a + b;
    }
  }

  /** In every flattened tree, every serializer's name leads to the names of its fields. */
  lemma {:induction false} FlatAgrees(node: Node, prefix: string, key: string)
    requires WellNamed(node) && key != "" && Free(key)
    ensures AllFind(Flat(node, prefix, key))
    decreases node
  {
    hide FindsFields, FullFieldName;
    match node
    case Many(name, child) =>
      var own := GetPrefix(prefix, name);
      FlatAgrees(child, GetPrefix(own, LIST_INDEX), key);
      NoFields(Named(GetPrefix(own, key), node));
      AllFindConcat([Named(GetPrefix(own, key), node)], Flat(child, GetPrefix(own, LIST_INDEX), key));
    case Polymorphic(options) =>
      FlatAllAgrees(options, prefix, key);
    case Serializer(name, fields, _) =>
      SerializerAgrees(node, GetPrefix(prefix, name), key);
    case Composite(name, list, child) =>
      var own := GetPrefix(prefix, name);
      var below := GetPrefix(own, if list then LIST_INDEX else DICT_KEY);
      FlatAgrees(child, below, key);
      NoFields(Named(own, node));
      AllFindConcat([Named(own, node)], Flat(child, below, key));
    case Simple(name) =>
      NoFields(Named(GetPrefix(prefix, name), node));
  }

  lemma NoFields(e: Named)
    requires !e.field.Serializer?
    ensures AllFind([e])
  {
  }

  lemma {:induction false} SerializerAgrees(node: Node, own: string, key: string)
    requires node.Serializer? && WellNamed(node) && key != "" && Free(key)
    ensures AllFind([Named(GetPrefix(own, key), node)] + FlatAll(node.fields, own, key))
    decreases node, 0
  {
    hide FullFieldName, FlatAll;
    var e := Named(GetPrefix(own, key), node);
    var es := FlatAll(node.fields, own, key);
    FlatAllAgrees(node.fields, own, key);
    forall x | x in node.fields && (x.Simple? || x.Composite?) ensures Named(FullFieldName(e.name, x.name), x) in [e] + es {
      FieldNameIffFreeKey(own, key, x.name);
      FlatAllHas(node.fields, own, key, x);
    }
    forall d | d in [e] + es ensures FindsFields(d, [e] + es) {
      if d in es {
        assert FindsFields(d, es);
      }
    }
  }

  lemma {:induction false} FlatAllAgrees(nodes: seq<Node>, prefix: string, key: string)
    requires (forall x :: x in nodes ==> WellNamed(x)) && key != "" && Free(key)
    ensures AllFind(FlatAll(nodes, prefix, key))
    decreases nodes
  {
    hide FindsFields;
    if nodes != [] {
      FlatAgrees(nodes[0], prefix, key);
      FlatAllAgrees(nodes[1..], prefix, key);
      AllFindConcat(Flat(nodes[0], prefix, key), FlatAll(nodes[1..], prefix, key));
    }
  }

  /** A simple or composite field is entered under its own name. */
  lemma {:induction false} FlatAllHas(nodes: seq<Node>, prefix: string, key: string, x: Node)
    requires x in nodes && (x.Simple? || x.Composite?)
    ensures Named(GetPrefix(prefix, x.name), x) in FlatAll(nodes, prefix, key)
    decreases nodes
  {
    if nodes[0] == x {
      assert Flat(x, prefix, key)[0] == Named(GetPrefix(prefix, x.name), x);
    } else {
      FlatAllHas(nodes[1..], prefix, key, x);
    }
  }

  // ---- error codes ----

  /** InputDataField */
  class InputDataField {
    const name: string
    const field: Node
    var errorCodes: set<string>

    constructor (name: string, field: Node, errorCodes: set<string>)
      ensures this.name == name && this.field == field && this.errorCodes == errorCodes
    {
      this.name, this.field, this.errorCodes := name, field, errorCodes;
    }
  }

  /** The first of `sfields` called `name`. */
  ghost predicate IsFirst(sfields: seq<InputDataField>, name: string, o: InputDataField) {
    exists i :: 0 <= i < |sfields| && sfields[i] == o && o.name == name && forall j :: 0 <= j < i ==> sfields[j].name != name
  }

  /** add_error_code: the first field of that name gets the code, and no other changes. */
  method AddErrorCode(attr: string, fieldName: string, code: string, sfields: seq<InputDataField>)
    modifies sfields
    ensures forall o :: o in sfields ==>
      o.errorCodes == old(o.errorCodes) + if IsFirst(sfields, FullFieldName(attr, fieldName), o) then {code} else {}
  {
    var name := FullFieldName(attr, fieldName);
    var i := 0;
    while i < |sfields|
      invariant 0 <= i <= |sfields|
      invariant forall j :: 0 <= j < i ==> sfields[j].name != name
      invariant forall o :: o in sfields ==> o.errorCodes == old(o.errorCodes)
    {
      if sfields[i].name == name {
        assert IsFirst(sfields, name, sfields[i]);
        sfields[i].errorCodes := sfields[i].errorCodes + {code};
        return;
      }
      i := i + 1;
    }
  }

  /** The fields that one of the serializer's unique-together validators names. */
  ghost predicate Constrained(node: Node, fieldName: string) {
    node.Serializer? && exists group :: group in node.together && fieldName in group
  }

  /** Field `o` is the first one called like a constrained field of one of `marked[..n]`. */
  ghost predicate Implied(marked: seq<InputDataField>, n: int, sfields: seq<InputDataField>, o: InputDataField)
    requires 0 <= n <= |marked|
  {
    exists i, f :: 0 <= i < n && Constrained(marked[i].field, f) && IsFirst(sfields, FullFieldName(marked[i].name, f), o)
  }

  /** The codes field `o` gains from the validators of `marked[..n]`. */
  ghost function Gained(marked: seq<InputDataField>, n: int, sfields: seq<InputDataField>, o: InputDataField): set<string>
    requires 0 <= n <= |marked|
  {
    (if o in marked[..n] then {"unique"} else {}) + if Implied(marked, n, sfields, o) then {"required"} else {}
  }

  function FieldsOf(groups: seq<seq<string>>): (names: set<string>)
    ensures forall f :: f in names <==> exists group :: group in groups && f in group
  {
    set group, f | group in groups && f in group :: f
  }

  ghost predicate HitBy(attr: string, names: set<string>, sfields: seq<InputDataField>, o: InputDataField) {
    exists f :: f in names && IsFirst(sfields, FullFieldName(attr, f), o)
  }

  /** The fields of one serializer's validators, in whatever order. */
  method AddRequired(attr: string, names: set<string>, sfields: seq<InputDataField>)
    modifies sfields
    ensures forall o :: o in sfields ==>
      o.errorCodes == old(o.errorCodes) + if HitBy(attr, names, sfields, o) then {"required"} else {}
  {
    hide FullFieldName, IsFirst;
    var rest := names;
    while rest != {}
      invariant rest <= names
      invariant forall o :: o in sfields ==>
        o.errorCodes == old(o.errorCodes) + if HitBy(attr, names - rest, sfields, o) then {"required"} else {}
      decreases |rest|
    {
      var f :| f in rest;
      ghost var done := names - rest;
      AddErrorCode(attr, f, "required", sfields);
      rest := rest - {f};
      assert names - rest == done + {f};
    }
    assert names - rest == names;
  }

  /**
   * add_unique_together_error_codes: the marked serializers get "unique", exactly the fields found
   * by name from their validators get "required".
   */
  method AddUniqueTogetherErrorCodes(marked: seq<InputDataField>, sfields: seq<InputDataField>)
    requires forall m :: m in marked ==> m in sfields && m.field.Serializer?
    modifies sfields
    ensures forall o :: o in sfields ==> o.errorCodes == old(o.errorCodes) + Gained(marked, |marked|, sfields, o)
  {
    hide FullFieldName, IsFirst, HitBy, Gained;
    assert forall o :: o in sfields ==> Gained(marked, 0, sfields, o) == {} by { NothingGained(marked, sfields); }
    var i := 0;
    while i < |marked|
      invariant 0 <= i <= |marked|
      invariant forall o :: o in sfields ==> o.errorCodes == old(o.errorCodes) + Gained(marked, i, sfields, o)
    {
      var m := marked[i];
      assert m in sfields;
      m.errorCodes := m.errorCodes + {"unique"};
      AddRequired(m.name, FieldsOf(m.field.together), sfields);
      forall o | o in sfields ensures o.errorCodes == old(o.errorCodes) + Gained(marked, i + 1, sfields, o) {
        GainedNext(marked, i, sfields, o);
      }
      i := i + 1;
    }
  }

  lemma NothingGained(marked: seq<InputDataField>, sfields: seq<InputDataField>)
    ensures forall o :: o in sfields ==> Gained(marked, 0, sfields, o) == {}
  {
  }

  lemma GainedNext(marked: seq<InputDataField>, n: int, sfields: seq<InputDataField>, o: InputDataField)
    requires 0 <= n < |marked| && marked[n].field.Serializer?
    ensures Gained(marked, n + 1, sfields, o) ==
      Gained(marked, n, sfields, o) + (if o == marked[n] then {"unique"} else {})
        + (if HitBy(marked[n].name, FieldsOf(marked[n].field.together), sfields, o) then {"required"} else {})
  {
    hide FullFieldName, IsFirst;
    var m := marked[n];
    assert marked[..n + 1] == marked[..n] + [m];
    if HitBy(m.name, FieldsOf(m.field.together), sfields, o) {
      var f :| f in FieldsOf(m.field.together) && IsFirst(sfields, FullFieldName(m.name, f), o);
      assert Constrained(marked[n].field, f);
      assert Implied(marked, n + 1, sfields, o);
    }
    if Implied(marked, n, sfields, o) {
      var i, f :| 0 <= i < n && Constrained(marked[i].field, f) && IsFirst(sfields, FullFieldName(marked[i].name, f), o);
      assert Implied(marked, n + 1, sfields, o);
    }
    if Implied(marked, n + 1, sfields, o) {
      var i, f :| 0 <= i < n + 1 && Constrained(marked[i].field, f) && IsFirst(sfields, FullFieldName(marked[i].name, f), o);
      if i == n {
        assert f in FieldsOf(m.field.together);
        assert HitBy(m.name, FieldsOf(m.field.together), sfields, o);
      } else {
        assert Implied(marked, n, sfields, o);
      }
    }
  }

  ghost predicate DistinctNames(es: seq<Named>) {
    forall i, j :: 0 <= i < j < |es| ==> es[i].name != es[j].name
  }

  /** The entries with error codes of their own, in order. */
  function Kept(es: seq<Named>, codes: Named -> set<string>): (r: seq<Named>)
    ensures forall e :: e in r <==> e in es && codes(e) != {}
  {
    if es == [] then []
    else
      var k := |es| - 1;
      var before := Kept(es[..k], codes);
      assert es == es[..k] + [es[k]];
      if codes(es[k]) != {} then before + [es[k]] else before
  }

  /** The order of the entries is kept. */
  lemma KeptNext(es: seq<Named>, e: Named, codes: Named -> set<string>)
    ensures Kept(es + [e], codes) == Kept(es, codes) + if codes(e) != {} then [e] else []
  {
    assert (es + [e])[..|es|] == es;
  }

  lemma {:induction false} KeptDistinct(es: seq<Named>, codes: Named -> set<string>)
    requires DistinctNames(es)
    ensures DistinctNames(Kept(es, codes))
    decreases |es|
  {
    if es != [] {
      var k := |es| - 1;
      KeptDistinct(es[..k], codes);
      var before := Kept(es[..k], codes);
      forall i | 0 <= i < |before| ensures before[i].name != es[k].name {
        assert before[i] in before;
      }
    }
  }

  /** A serializer with unique-together validators. */
  predicate Marked(e: Named) {
    e.field.Serializer? && e.field.together != []
  }

  ghost predicate First(es: seq<Named>, name: string, i: nat) {
    i < |es| && es[i].name == name && forall j :: 0 <= j < i ==> es[j].name != name
  }

  /** Entry `i` is the first called like a constrained field of a marked serializer. */
  ghost predicate Requires(es: seq<Named>, i: nat) {
    exists m: nat, f :: m < |es| && Marked(es[m]) && Constrained(es[m].field, f) && First(es, FullFieldName(es[m].name, f), i)
  }

  /** The codes entry `i` ends up with. */
  ghost function FinalCodes(es: seq<Named>, codes: Named -> set<string>, i: nat): set<string>
    requires i < |es|
  {
    codes(es[i]) + (if Marked(es[i]) then {"unique"} else {}) + if Requires(es, i) then {"required"} else {}
  }

  /** "unique" is added to exactly the serializers with unique-together validators, "required" to the implied, and nothing else. */
  lemma CodesExactly(es: seq<Named>, codes: Named -> set<string>, i: nat, code: string)
    requires i < |es|
    ensures code in FinalCodes(es, codes, i) <==>
      || code in codes(es[i])
      || (code == "unique" && es[i].field.Serializer? && es[i].field.together != [])
      || (code == "required" && exists m, f ::
            0 <= m < |es| && ConstrainsField(es[m].field, f) && First(es, FullFieldName(es[m].name, f), i))
  {
    hide FullFieldName, First;
    if Requires(es, i) {
      var m: nat, f :| m < |es| && Marked(es[m]) && Constrained(es[m].field, f) && First(es, FullFieldName(es[m].name, f), i);
      assert ConstrainsField(es[m].field, f);
    }
    if m, f :| 0 <= m < |es| && ConstrainsField(es[m].field, f) && First(es, FullFieldName(es[m].name, f), i) {
      assert Marked(es[m]) && Constrained(es[m].field, f);
    }
  }

  /** A unique-together validator of serializer `node` lists `f`. */
  ghost predicate ConstrainsField(node: Node, f: string) {
    node.Serializer? && exists i :: 0 <= i < |node.together| && f in node.together[i]
  }

  /** The objects of `sfields` are distinct and stand for the entries of `es`. */
  ghost predicate Stand(sfields: seq<InputDataField>, es: seq<Named>) {
    && |sfields| == |es|
    && (forall i :: 0 <= i < |es| ==> sfields[i].name == es[i].name && sfields[i].field == es[i].field)
    && (forall i, j :: 0 <= i < j < |es| ==> sfields[i] != sfields[j])
  }

  /**
   * get_serializer_fields_with_error_codes, for unique-together validators: entries with codes of
   * their own, the marked ones with "unique", and the implied ones with "required".
   */
  method GetSerializerFieldsWithErrorCodes(es: seq<Named>, codes: Named -> set<string>) returns (sfields: seq<InputDataField>)
    ensures Stand(sfields, Kept(es, codes)) && fresh(sfields)
    ensures forall i :: 0 <= i < |sfields| ==> sfields[i].errorCodes == FinalCodes(Kept(es, codes), codes, i)
  {
    sfields := EntriesWithCodes(es, codes);
    var marked: seq<InputDataField> := [];
    var i := 0;
    while i < |sfields|
      invariant 0 <= i <= |sfields|
      invariant forall o :: o in marked <==> exists j :: 0 <= j < i && sfields[j] == o && Marked(Named(o.name, o.field))
    {
      if Marked(Named(sfields[i].name, sfields[i].field)) {
        marked := marked + [sfields[i]];
      }
      i := i + 1;
    }
    AddUniqueTogetherErrorCodes(marked, sfields);
    forall k | 0 <= k < |sfields| ensures sfields[k].errorCodes == FinalCodes(Kept(es, codes), codes, k) {
      GainedFinally(marked, sfields, Kept(es, codes), k);
    }
  }

  method EntriesWithCodes(es: seq<Named>, codes: Named -> set<string>) returns (sfields: seq<InputDataField>)
    ensures Stand(sfields, Kept(es, codes)) && fresh(sfields)
    ensures forall i :: 0 <= i < |sfields| ==> sfields[i].errorCodes == codes(Kept(es, codes)[i])
  {
    sfields := [];
    var i := 0;
    while i < |es|
      invariant 0 <= i <= |es| && fresh(sfields) && Stand(sfields, Kept(es[..i], codes))
      invariant forall k :: 0 <= k < |sfields| ==> sfields[k].errorCodes == codes(Kept(es[..i], codes)[k])
    {
      assert es[..i + 1][..i] == es[..i];
      var own := codes(es[i]);
      if own != {} {
        var o := new InputDataField(es[i].name, es[i].field, own);
        sfields := sfields + [o];
      }
      i := i + 1;
    }
    assert es[..i] == es;
  }

  lemma FirstObject(sfields: seq<InputDataField>, es: seq<Named>, name: string, k: nat)
    requires Stand(sfields, es) && k < |es|
    ensures IsFirst(sfields, name, sfields[k]) <==> First(es, name, k)
  {
  }

  lemma GainedFinally(marked: seq<InputDataField>, sfields: seq<InputDataField>, es: seq<Named>, k: nat)
    requires Stand(sfields, es) && k < |es|
    requires forall o :: o in marked <==> exists j :: 0 <= j < |sfields| && sfields[j] == o && Marked(Named(o.name, o.field))
    ensures Gained(marked, |marked|, sfields, sfields[k]) ==
      (if Marked(es[k]) then {"unique"} else {}) + if Requires(es, k) then {"required"} else {}
  {
    hide FullFieldName, IsFirst, First, Constrained;
    assert marked[..|marked|] == marked;
    var o := sfields[k];
    if Implied(marked, |marked|, sfields, o) {
      var i, f :| 0 <= i < |marked| && Constrained(marked[i].field, f) && IsFirst(sfields, FullFieldName(marked[i].name, f), o);
      assert marked[i] in marked;
      var m: nat :| m < |sfields| && sfields[m] == marked[i];
      FirstObject(sfields, es, FullFieldName(es[m].name, f), k);
      assert Requires(es, k);
    }
    if Requires(es, k) {
      var m: nat, f :| m < |es| && Marked(es[m]) && Constrained(es[m].field, f) && First(es, FullFieldName(es[m].name, f), k);
      FirstObject(sfields, es, FullFieldName(es[m].name, f), k);
      assert sfields[m] in marked;
      var i :| 0 <= i < |marked| && marked[i] == sfields[m];
      assert Implied(marked, |marked|, sfields, o);
    }
  }

  // ---- end to end ----

  /** Entry `e` is that of field `x` of the marked serializer `m`, and a validator of `m` names `x`. */
  ghost predicate OwnEntry(m: Named, x: Node, e: Named) {
    && Marked(m) && x in m.field.fields && (x.Simple? || x.Composite?) && Constrained(m.field, x.name)
    && e == Named(FullFieldName(m.name, x.name), x)
  }

  /** A validator of the marked serializer `m` names something other than a simple or composite field, and `e` is called like it. */
  ghost predicate StrayEntry(m: Named, f: string, e: Named) {
    && Marked(m) && Constrained(m.field, f) && e.name == FullFieldName(m.name, f)
    && !exists x :: x in m.field.fields && (x.Simple? || x.Composite?) && x.name == f
  }

  /**
   * On the entries of a flattened tree with distinct names, "required" goes to exactly the entries of
   * the fields that validators name, apart from validators that name no simple or composite field.
   */
  lemma RequiredExactly(tree: Node, key: string, codes: Named -> set<string>, i: nat)
    requires WellNamed(tree) && key != "" && Free(key) && DistinctNames(Flat(tree, "", key))
    requires i < |Kept(Flat(tree, "", key), codes)|
    ensures var es := Kept(Flat(tree, "", key), codes);
      Requires(es, i) <==> (exists m, x :: m in es && OwnEntry(m, x, es[i])) || (exists m, f :: m in es && StrayEntry(m, f, es[i]))
  {
    hide Flat, FullFieldName, WellNamed, Constrained;
    var all := Flat(tree, "", key);
    var es := Kept(all, codes);
    FlatAgrees(tree, "", key);
    KeptDistinct(all, codes);
    if Requires(es, i) {
      var m: nat, f :| m < |es| && Marked(es[m]) && Constrained(es[m].field, f) && First(es, FullFieldName(es[m].name, f), i);
      assert es[m] in es && es[i] in es;
      if x :| x in es[m].field.fields && (x.Simple? || x.Composite?) && x.name == f {
        assert FindsFields(es[m], all);
        SameName(all, es[i], Named(FullFieldName(es[m].name, f), x));
        assert OwnEntry(es[m], x, es[i]);
      } else {
        assert StrayEntry(es[m], f, es[i]);
      }
    }
    if m, x :| m in es && OwnEntry(m, x, es[i]) {
      NamedRequires(es, m, x.name, i);
    }
    if m, f :| m in es && StrayEntry(m, f, es[i]) {
      NamedRequires(es, m, f, i);
    }
  }

  lemma SameName(es: seq<Named>, a: Named, b: Named)
    requires DistinctNames(es) && a in es && b in es && a.name == b.name
    ensures a == b
  {
  }

  lemma NamedRequires(es: seq<Named>, m: Named, f: string, i: nat)
    requires DistinctNames(es) && m in es && Marked(m) && Constrained(m.field, f)
    requires i < |es| && es[i].name == FullFieldName(m.name, f)
    ensures Requires(es, i)
  {
    hide FullFieldName, Constrained;
    var k: nat :| k < |es| && es[k] == m;
    assert First(es, FullFieldName(es[k].name, f), i);
  }

  /** Where flattened names are distinct, the name formed for a simple or composite field is that field's alone. */
  lemma CodeLandsOnField(tree: Node, key: string, i: nat, x: Node, j: nat)
    requires WellNamed(tree) && key != "" && Free(key)
    requires var es := Flat(tree, "", key);
      && DistinctNames(es) && i < |es| && j < |es|
      && es[i].field.Serializer? && x in es[i].field.fields && (x.Simple? || x.Composite?)
    ensures var es := Flat(tree, "", key);
      es[j].name == FullFieldName(es[i].name, x.name) <==> es[j] == Named(FullFieldName(es[i].name, x.name), x)
    ensures exists k :: 0 <= k < |Flat(tree, "", key)| && Flat(tree, "", key)[k] == Named(FullFieldName(Flat(tree, "", key)[i].name, x.name), x)
  {
    hide Flat, FullFieldName, WellNamed;
    FlatAgrees(tree, "", key);
    var es := Flat(tree, "", key);
    assert FindsFields(es[i], es);
    var e := Named(FullFieldName(es[i].name, x.name), x);
    assert e in es;
    var k :| 0 <= k < |es| && es[k] == e;
  }
}
