/** The package settings object, which keeps looked-up values until it is told that the settings changed. */
module SettingsCache {
  import opened Wrappers

  /** A configured value; `Other` is any value that is not a string, a list or a dictionary of strings. */
  datatype Raw = Text(s: string) | Listed(names: seq<string>) | Table(entries: map<string, string>) | Other(id: nat)

  /** A value handed out: as configured, or with import strings replaced by what they name. */
  datatype Value = Same(raw: Raw) | Imported(id: nat) | Several(ids: seq<nat>) | Schemas(classes: map<string, nat>)

  type Options = map<string, Raw>

  const SETTING_NAME := "FINMARS_STANDARDIZED_ERRORS"

  /** What does not change: the defaults, the names to import, and what can be imported. */
  datatype Package = Package(defaults: Options, importStrings: set<string>, importable: map<string, nat>)

  /** Django's settings, by name. */
  type Settings = map<string, Options>

  function UserSettings(all: Settings): Options {
    if SETTING_NAME in all then all[SETTING_NAME] else map[]
  }

  /** perform_import and import_from_string; none when an import fails. */
  function Resolve(p: Package, attr: string, raw: Raw): Option<Value> {
    if attr !in p.importStrings then
      Some(Same(raw))
    else
      match raw
      case Text(s) => if s in p.importable then Some(Imported(p.importable[s])) else None
      case Listed(names) =>
        if forall n :: n in names ==> n in p.importable
        then Some(Several(seq(|names|, i requires 0 <= i < |names| => if names[i] in p.importable then p.importable[names[i]] else 0)))
        else None
      case Table(entries) =>
        if forall k :: k in entries ==> entries[k] in p.importable
        then Some(Schemas(map k | k in entries && entries[k] in p.importable :: p.importable[entries[k]]))
        else None
      case Other(_) => Some(Same(raw))
  }

  /** The lookup without any cache; none when it raises. */
  function Lookup(p: Package, user: Options, attr: string): Option<Value> {
    if attr !in p.defaults then None
    else Resolve(p, attr, if attr in user then user[attr] else p.defaults[attr])
  }

  // ---- what a lookup answers ----

  /** What configured value `raw` answers for `attr`: itself, or what its import strings name, one by one. */
  ghost predicate Means(p: Package, attr: string, raw: Raw, value: Option<Value>) {
    && (attr !in p.importStrings ==> value == Some(Same(raw)))
    && (attr in p.importStrings ==>
          && (raw.Text? ==> value == if raw.s in p.importable then Some(Imported(p.importable[raw.s])) else None)
          && (raw.Listed? ==> MeansList(p, raw.names, value))
          && (raw.Table? ==> MeansTable(p, raw.entries, value))
          && (raw.Other? ==> value == Some(Same(raw))))
  }

  ghost predicate MeansList(p: Package, names: seq<string>, value: Option<Value>) {
    && (value.Some? <==> forall i :: 0 <= i < |names| ==> names[i] in p.importable)
    && (value.Some? ==> value.value.Several? && |value.value.ids| == |names|)
    && forall i :: value.Some? && 0 <= i < |names| ==> value.value.ids[i] == p.importable[names[i]]
  }

  ghost predicate MeansTable(p: Package, entries: map<string, string>, value: Option<Value>) {
    && (value.Some? <==> forall k :: k in entries ==> entries[k] in p.importable)
    && (value.Some? ==> value.value.Schemas? && value.value.classes.Keys == entries.Keys)
    && forall k :: value.Some? && k in entries ==> value.value.classes[k] == p.importable[entries[k]]
  }

  /** The entry under the package's own setting, or the default when there is none; an unknown attribute raises. */
  ghost predicate Answered(p: Package, all: Settings, attr: string, value: Option<Value>) {
    && (attr !in p.defaults ==> value == None)
    && (attr in p.defaults && Configured(all, attr) ==> Means(p, attr, all["FINMARS_STANDARDIZED_ERRORS"][attr], value))
    && (attr in p.defaults && !Configured(all, attr) ==> Means(p, attr, p.defaults[attr], value))
  }

  ghost predicate Configured(all: Settings, attr: string) {
    "FINMARS_STANDARDIZED_ERRORS" in all && attr in all["FINMARS_STANDARDIZED_ERRORS"]
  }

  lemma ResolveMeans(p: Package, attr: string, raw: Raw)
    ensures Means(p, attr, raw, Resolve(p, attr, raw))
  {
    if raw.Listed? {
      assert (forall n :: n in raw.names ==> n in p.importable) <==> forall i :: 0 <= i < |raw.names| ==> raw.names[i] in p.importable;
    } else if raw.Table? && Resolve(p, attr, raw).Some? && attr in p.importStrings {
      assert Resolve(p, attr, raw).value.classes.Keys == raw.entries.Keys;
    }
  }

  lemma LookupAnswers(p: Package, all: Settings, attr: string)
    ensures Answered(p, all, attr, Lookup(p, UserSettings(all), attr))
  {
    if attr in p.defaults {
      ResolveMeans(p, attr, if Configured(all, attr) then all["FINMARS_STANDARDIZED_ERRORS"][attr] else p.defaults[attr]);
    }
  }

  class PackageSettings {
    const package: Package
    /** The settings object of Django, which others change. */
    var django: Settings
    /** Attributes set on the object, and the names recorded for removal. */
    var stored: map<string, Value>
    var cachedAttrs: set<string>
    var snapshot: Option<Options>

    /** Every stored attribute is recorded and is the lookup in the snapshot it was read from. */
    ghost predicate Consistent()
      reads this
    {
      && cachedAttrs == stored.Keys
      && (stored != map[] ==> snapshot.Some?)
      && forall a :: a in stored ==> Some(stored[a]) == Lookup(package, snapshot.value, a)
    }

    /** What the next read of an attribute looks at. */
    ghost function Seen(): Options
      reads this
    {
      if snapshot.Some? then snapshot.value else UserSettings(django)
    }

    /** No setting changed without the signal since the last snapshot. */
    ghost predicate Current()
      reads this
    {
      Consistent() && Seen() == UserSettings(django)
    }

    constructor (package: Package, django: Settings)
      ensures this.package == package && this.django == django && Current()
    {
      this.package := package;
      this.django := django;
      stored, cachedAttrs, snapshot := map[], {}, None;
    }

    /** Reading an attribute: a stored one directly, any other through __getattr__. */
    method Read(attr: string) returns (value: Option<Value>)
      requires Consistent()
      modifies this
      ensures Consistent() && django == old(django) && Seen() == old(Seen())
      ensures value == Lookup(package, old(Seen()), attr)
      ensures old(Current()) ==> Current() && Answered(package, django, attr, value)
      ensures stored == if value.Some? then old(stored)[attr := value.value] else old(stored)
      ensures snapshot == if attr in package.defaults then Some(old(Seen())) else old(snapshot)
    {
      LookupAnswers(package, django, attr);
      if attr in stored {
        return Some(stored[attr]);
      }
      if attr !in package.defaults {
        return None;
      }
      if snapshot.None? {
        snapshot := Some(UserSettings(django));
      }
      var raw := if attr in snapshot.value then snapshot.value[attr] else package.defaults[attr];
      value := Resolve(package, attr, raw);
      if value.Some? {
        cachedAttrs := cachedAttrs + {attr};
        stored := stored[attr := value.value];
      }
    }

    /** reload: delete the recorded attributes one by one, then the snapshot. */
    method Reload()
      requires Consistent()
      modifies this`stored, this`cachedAttrs, this`snapshot
      ensures Current() && stored == map[] && snapshot.None?
    {
      var rest := cachedAttrs;
      while rest != {}
        invariant rest == stored.Keys
        decreases |rest|
      {
        var attr :| attr in rest;
        stored := stored - {attr};
        rest := rest - {attr};
      }
      cachedAttrs := {};
      snapshot := None;
    }

    /** A setting changes and the signal is sent; only changes of this package's setting reload it. */
    method Change(name: string, options: Options)
      requires Consistent()
      modifies this
      ensures django == old(django)[name := options]
      ensures old(Current()) ==> Current()
      ensures name == SETTING_NAME ==> Current() && stored == map[]
      ensures name != SETTING_NAME ==> stored == old(stored) && snapshot == old(snapshot) && Consistent()
    {
      django := django[name := options];
      if name == SETTING_NAME {
        Reload();
      }
    }
  }

  // ---- sequences of operations ----

  datatype Op = Get(attr: string) | Set(name: string, options: Options)

  /** The answers of uncached lookups. */
  function Answers(p: Package, all: Settings, ops: seq<Op>): seq<Option<Value>>
    decreases |ops|
  {
    if ops == [] then []
    else
      match ops[0]
      case Get(attr) => [Lookup(p, UserSettings(all), attr)] + Answers(p, all, ops[1..])
      case Set(name, options) => Answers(p, all[name := options], ops[1..])
  }

  /** Each read is answered from the settings as they then are. */
  ghost predicate Served(p: Package, all: Settings, ops: seq<Op>, answers: seq<Option<Value>>)
    decreases |ops|
  {
    if ops == [] then answers == []
    else
      match ops[0]
      case Get(attr) => answers != [] && Answered(p, all, attr, answers[0]) && Served(p, all, ops[1..], answers[1..])
      case Set(name, options) => Served(p, all[name := options], ops[1..], answers)
  }

  lemma {:induction false} AnswersServe(p: Package, all: Settings, ops: seq<Op>)
    ensures Served(p, all, ops, Answers(p, all, ops))
    decreases |ops|
  {
    if ops != [] {
      if ops[0].Get? {
        LookupAnswers(p, all, ops[0].attr);
        AnswersServe(p, all, ops[1..]);
        assert Answers(p, all, ops)[1..] == Answers(p, all, ops[1..]);
      } else {
        AnswersServe(p, all[ops[0].name := ops[0].options], ops[1..]);
      }
    }
  }

  /** No operation sets the package's own setting. */
  ghost predicate LeavesSetting(ops: seq<Op>) {
    forall i :: 0 <= i < |ops| ==> !(ops[i].Set? && ops[i].name == "FINMARS_STANDARDIZED_ERRORS")
  }

  lemma {:induction false} LastGet(p: Package, all: Settings, mid: seq<Op>, attr: string, answers: seq<Option<Value>>)
    requires LeavesSetting(mid) && Configured(all, attr) && attr in p.defaults && attr !in p.importStrings
    requires Served(p, all, mid + [Get(attr)], answers)
    ensures answers != [] && answers[|answers| - 1] == Some(Same(all["FINMARS_STANDARDIZED_ERRORS"][attr]))
    decreases |mid|
  {
    var ops := mid + [Get(attr)];
    if mid == [] {
      assert ops[1..] == [];
    } else {
      assert ops[0] == mid[0] && ops[1..] == mid[1..] + [Get(attr)];
      if mid[0].Get? {
        LastGet(p, all, mid[1..], attr, answers[1..]);
      } else {
        LastGet(p, all[mid[0].name := mid[0].options], mid[1..], attr, answers);
      }
    }
  }

  /** After the package's setting is set, whatever came before and until it is set again, a read answers the new entry. */
  lemma {:induction false} LastSetWins(p: Package, all: Settings, before: seq<Op>, o: Options, mid: seq<Op>, attr: string,
                                       answers: seq<Option<Value>>)
    requires LeavesSetting(mid) && attr in o && attr in p.defaults && attr !in p.importStrings
    requires Served(p, all, before + [Set("FINMARS_STANDARDIZED_ERRORS", o)] + mid + [Get(attr)], answers)
    ensures answers != [] && answers[|answers| - 1] == Some(Same(o[attr]))
    decreases |before|
  {
    var ops := before + [Set("FINMARS_STANDARDIZED_ERRORS", o)] + mid + [Get(attr)];
    if before == [] {
      assert ops[1..] == mid + [Get(attr)];
      LastGet(p, all["FINMARS_STANDARDIZED_ERRORS" := o], mid, attr, answers);
    } else {
      assert ops[0] == before[0];
      assert ops[1..] == before[1..] + [Set("FINMARS_STANDARDIZED_ERRORS", o)] + mid + [Get(attr)];
      if before[0].Get? {
        LastSetWins(p, all, before[1..], o, mid, attr, answers[1..]);
      } else {
        LastSetWins(p, all[before[0].name := before[0].options], before[1..], o, mid, attr, answers);
      }
    }
  }

  /** Any sequence of reads and signalled changes answers as if nothing were cached. */
  method Serve(s: PackageSettings, ops: seq<Op>) returns (answers: seq<Option<Value>>)
    requires s.Current()
    modifies s
    ensures s.Current()
    ensures answers == Answers(s.package, old(s.django), ops)
    ensures Served(s.package, old(s.django), ops, answers)
  {
    AnswersServe(s.package, s.django, ops);
    answers := [];
    var i := 0;
    while i < |ops|
      invariant 0 <= i <= |ops| && s.Current()
      invariant answers + Answers(s.package, s.django, ops[i..]) == Answers(s.package, old(s.django), ops)
    {
      assert ops[i..][0] == ops[i] && ops[i..][1..] == ops[i + 1..];
      if ops[i].Get? {
        var value := s.Read(ops[i].attr);
        answers := answers + [value];
      } else {
        s.Change(ops[i].name, ops[i].options);
      }
      i := i + 1;
    }
    assert ops[i..] == [];
  }
}
