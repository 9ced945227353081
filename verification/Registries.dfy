/** Type specifications and the registry of kinds and types. */
module Registries {
  import opened Values
  import opened Text
  import opened ModelRefs
  import opened Entities

  const NO_OPTIONS := ClassRef("db_connection.domain.drivers", ["NoDriverOptions"])
  const ODBC_OPTIONS := ClassRef("db_connection.domain.drivers", ["ODBCDriverOptions"])

  datatype DriverSpec = DriverSpec(name: string, optionsModel: ClassRef, publicOptionsModel: ClassRef)

  datatype KindSpec = KindSpec(name: string, description: string, capabilities: set<string>)

  datatype TypeSpec = TypeSpec(
    name: string,
    kind: string,
    propertiesModel: ClassRef,
    secretsModel: Option<ClassRef>,
    publicModel: Option<ClassRef>,
    hasConnector: bool,
    defaultDriver: Option<string>,
    driverSpecs: seq<DriverSpec>,
    supportedDrivers: set<string>)

  // ---------- normalisation of a type specification ----------

  function DriverNames(specs: seq<DriverSpec>): set<string> {
    set i | 0 <= i < |specs| :: specs[i].name
  }

  function PlainDriver(name: string): DriverSpec {
    DriverSpec(name, NO_OPTIONS, NO_OPTIONS)
  }

  /** What every constructed specification satisfies. */
  predicate NormalForm(spec: TypeSpec) {
    && spec.supportedDrivers == DriverNames(spec.driverSpecs)
    && (spec.defaultDriver.Some? ==> spec.defaultDriver.value in spec.supportedDrivers)
  }

  function LegacyDrivers(spec: TypeSpec): set<string> {
    spec.supportedDrivers + if spec.defaultDriver.Some? then {spec.defaultDriver.value} else {}
  }

  ghost function EffectiveSpecs(spec: TypeSpec): seq<DriverSpec> {
    if spec.driverSpecs != [] then spec.driverSpecs
    else
      var names := Sorted(LegacyDrivers(spec));
      seq(|names|, i requires 0 <= i < |names| => PlainDriver(names[i]))
  }

  /** What a specification becomes when it is constructed; Err is the ValueError. */
  ghost function Normalised(spec: TypeSpec): Result<TypeSpec, Error> {
    var specs := EffectiveSpecs(spec);
    var s := spec.(driverSpecs := specs, supportedDrivers := DriverNames(specs));
    if s.defaultDriver.Some? && s.defaultDriver.value !in s.supportedDrivers then Err(UndeclaredDefault) else Ok(s)
  }

  /** `TypeSpec.__post_init__`. */
  method PostInit(spec: TypeSpec) returns (r: Result<TypeSpec, Error>)
    ensures r == Normalised(spec)
  {
    var self := spec;
    if self.driverSpecs == [] {
      var legacy := self.supportedDrivers;
      if self.defaultDriver.Some? {
        legacy := legacy + {self.defaultDriver.value};
      }
      assert legacy == LegacyDrivers(spec);
      var names := SortNames(legacy);
      self := self.(driverSpecs := seq(|names|, i requires 0 <= i < |names| => PlainDriver(names[i])));
    }
    self := self.(supportedDrivers := set i | 0 <= i < |self.driverSpecs| :: self.driverSpecs[i].name);
    if self.defaultDriver.Some? && self.defaultDriver.value !in self.supportedDrivers {
      return Err(UndeclaredDefault);
    }
    return Ok(self);
  }

  lemma PlainDriverNames(names: seq<string>)
    ensures DriverNames(seq(|names|, i requires 0 <= i < |names| => PlainDriver(names[i]))) == set x | x in names
  {
    var specs := seq(|names|, i requires 0 <= i < |names| => PlainDriver(names[i]));
    forall x ensures x in DriverNames(specs) <==> x in names {
      if x in names {
        var i :| 0 <= i < |names| && names[i] == x;
        assert specs[i].name == x;
      }
    }
  }

  /** Construction gives normal form, changes nothing of a specification already in it, and so is
      idempotent; it fails exactly on a default driver that explicit driver specifications lack. */
  lemma NormalisedIsNormal(spec: TypeSpec)
    ensures Normalised(spec).Ok? ==> NormalForm(Normalised(spec).value)
    ensures NormalForm(spec) ==> Normalised(spec) == Ok(spec)
    ensures Normalised(spec).Ok? ==> Normalised(Normalised(spec).value) == Normalised(spec)
    ensures Normalised(spec).Err? <==>
            spec.driverSpecs != [] && spec.defaultDriver.Some?
              && spec.defaultDriver.value !in DriverNames(spec.driverSpecs)
  {
    NormalFormIsFixed(spec);
    if spec.driverSpecs == [] {
      PlainDriverNames(Sorted(LegacyDrivers(spec)));
    }
    if Normalised(spec).Ok? {
      NormalFormIsFixed(Normalised(spec).value);
    }
  }

  lemma NormalFormIsFixed(spec: TypeSpec)
    ensures NormalForm(spec) ==> Normalised(spec) == Ok(spec)
  {
    if NormalForm(spec) && spec.driverSpecs == [] {
      assert DriverNames([]) == {};
      assert LegacyDrivers(spec) == {};
      assert EffectiveSpecs(spec) == [];
    }
  }

  // ---------- registrations ----------

  /** The two dictionaries of a registry. */
  datatype Entries = Entries(kinds: map<string, KindSpec>, types: map<string, TypeSpec>)

  const NO_ENTRIES := Entries(map[], map[])

  /** Entries are keyed by their names, every type is in normal form and its kind is registered. */
  ghost predicate Consistent(e: Entries) {
    && (forall n | n in e.kinds :: e.kinds[n].name == n)
    && (forall n | n in e.types :: e.types[n].name == n && NormalForm(e.types[n]) && e.types[n].kind in e.kinds)
  }

  function AfterKind(e: Entries, spec: KindSpec, overwrite: bool): Result<Entries, Error> {
    if spec.name in e.kinds && !overwrite then Err(AlreadyRegistered(spec.name))
    else Ok(e.(kinds := e.kinds[spec.name := spec]))
  }

  function AfterType(e: Entries, spec: TypeSpec, overwrite: bool): Result<Entries, Error> {
    if spec.kind !in e.kinds then Err(UnknownKind(spec.kind))
    else if spec.name in e.types && !overwrite then Err(AlreadyRegistered(spec.name))
    else Ok(e.(types := e.types[spec.name := spec]))
  }

  datatype Registration = RegisterKind(kind: KindSpec, overwrite: bool) | RegisterType(spec: TypeSpec, overwrite: bool)

  /** One registration: a type is constructed first, and a failure leaves the registry as it was. */
  ghost function After(e: Entries, r: Registration): Entries {
    match r
    case RegisterKind(kind, overwrite) =>
      var a := AfterKind(e, kind, overwrite);
      if a.Ok? then a.value else e
    case RegisterType(spec, overwrite) =>
      var s := Normalised(spec);
      if s.Err? then e
      else
        var a := AfterType(e, s.value, overwrite);
        if a.Ok? then a.value else e
  }

  ghost function AfterAll(e: Entries, rs: seq<Registration>): Entries {
    if rs == [] then e else After(AfterAll(e, rs[..|rs| - 1]), rs[|rs| - 1])
  }

  /** Any sequence of registrations, failing ones included, leaves a consistent registry that still
      has every name it had. */
  lemma {:induction false} RegistrationsKeepConsistent(e: Entries, rs: seq<Registration>)
    requires Consistent(e)
    ensures Consistent(AfterAll(e, rs))
    ensures e.kinds.Keys <= AfterAll(e, rs).kinds.Keys && e.types.Keys <= AfterAll(e, rs).types.Keys
  {
    if rs != [] {
      RegistrationsKeepConsistent(e, rs[..|rs| - 1]);
      var r := rs[|rs| - 1];
      if r.RegisterType? {
        NormalisedIsNormal(r.spec);
      }
    }
  }

  function KindName(k: KindSpec): string { k.name }

  function TypeName(t: TypeSpec): string { t.name }

  /** `m` after assigning each listed value under its name, in order. */
  function Enter<T>(m: map<string, T>, listed: seq<T>, nameOf: T -> string): map<string, T> {
    if listed == [] then m
    else Enter(m, listed[..|listed| - 1], nameOf)[nameOf(listed[|listed| - 1]) := listed[|listed| - 1]]
  }

  ghost predicate Named<T>(listed: seq<T>, nameOf: T -> string, n: string) {
    exists i | 0 <= i < |listed| :: nameOf(listed[i]) == n
  }

  /** `listed` holds the values of `m`, each once, under their own names. */
  ghost predicate Lists<T>(listed: seq<T>, m: map<string, T>, nameOf: T -> string) {
    && (forall i | 0 <= i < |listed| :: nameOf(listed[i]) in m && m[nameOf(listed[i])] == listed[i])
    && (forall i, j | 0 <= i < j < |listed| :: nameOf(listed[i]) != nameOf(listed[j]))
    && (forall n | n in m :: Named(listed, nameOf, n))
  }

  ghost predicate InNameOrder<T>(listed: seq<T>, nameOf: T -> string) {
    forall i, j | 0 <= i < j < |listed| :: Le(nameOf(listed[i]), nameOf(listed[j]))
  }

  function ValuesAt<T>(m: map<string, T>, names: seq<string>): (values: seq<T>)
    requires forall i | 0 <= i < |names| :: names[i] in m
    ensures |values| == |names|
    ensures forall i | 0 <= i < |names| :: values[i] == m[names[i]]
  {
    if names == [] then [] else [m[names[0]]] + ValuesAt(m, names[1..])
  }

  /** The values at the names of `m` in ascending order list `m` in name order. */
  lemma ValuesAtLists<T>(m: map<string, T>, names: seq<string>, nameOf: T -> string)
    requires forall n | n in m :: nameOf(m[n]) == n
    requires forall i | 0 <= i < |names| :: names[i] in m
    requires forall n | n in m :: n in names
    requires Ascending(names)
    ensures Lists(ValuesAt(m, names), m, nameOf)
    ensures InNameOrder(ValuesAt(m, names), nameOf)
  {
    var listed := ValuesAt(m, names);
    forall i | 0 <= i < |listed|
      ensures nameOf(listed[i]) == names[i] && m[nameOf(listed[i])] == listed[i]
    {
      assert names[i] in m;
    }
    forall i, j | 0 <= i < j < |listed|
      ensures nameOf(listed[i]) != nameOf(listed[j]) && Le(nameOf(listed[i]), nameOf(listed[j]))
    {
      assert names[i] != names[j] && Le(names[i], names[j]);
    }
    forall n | n in m ensures Named(listed, nameOf, n) {
      var i :| 0 <= i < |names| && names[i] == n;
      assert nameOf(listed[i]) == n;
    }
  }

  function OfKind(types: map<string, TypeSpec>, kind: Option<string>): map<string, TypeSpec> {
    if kind.None? then types else map n | n in types && types[n].kind == kind.value :: types[n]
  }

  /** Listed types can be registered wherever the kinds of their registry are. */
  lemma ListedTypesFit(e: Entries, listed: seq<TypeSpec>)
    requires Consistent(e) && Lists(listed, e.types, TypeName)
    ensures forall i | 0 <= i < |listed| :: NormalForm(listed[i]) && listed[i].kind in e.kinds
  {
    forall i | 0 <= i < |listed| ensures NormalForm(listed[i]) && listed[i].kind in e.kinds {
      assert TypeName(listed[i]) in e.types && e.types[TypeName(listed[i])] == listed[i];
    }
  }

  class ConnectionRegistry {
    var kinds: map<string, KindSpec>
    var types: map<string, TypeSpec>

    function Contents(): Entries
      reads this
    {
      Entries(kinds, types)
    }

    constructor ()
      ensures Contents() == NO_ENTRIES
    {
      kinds := map[];
      types := map[];
    }

    method RegisterKind(spec: KindSpec, overwrite: bool) returns (r: Result<(), Error>)
      modifies this
      ensures r.Ok? <==> AfterKind(old(Contents()), spec, overwrite).Ok?
      ensures r.Ok? ==> Contents() == AfterKind(old(Contents()), spec, overwrite).value
      ensures r.Err? ==> Contents() == old(Contents()) && r.error == AfterKind(old(Contents()), spec, overwrite).error
    {
      if spec.name in kinds && !overwrite {
        return Err(AlreadyRegistered(spec.name));
      }
      kinds := kinds[spec.name := spec];
      return Ok(());
    }

    method RegisterType(spec: TypeSpec, overwrite: bool) returns (r: Result<(), Error>)
      modifies this
      ensures r.Ok? <==> AfterType(old(Contents()), spec, overwrite).Ok?
      ensures r.Ok? ==> Contents() == AfterType(old(Contents()), spec, overwrite).value
      ensures r.Err? ==> Contents() == old(Contents()) && r.error == AfterType(old(Contents()), spec, overwrite).error
    {
      if spec.kind !in kinds {
        return Err(UnknownKind(spec.kind));
      }
      if spec.name in types && !overwrite {
        return Err(AlreadyRegistered(spec.name));
      }
      types := types[spec.name := spec];
      return Ok(());
    }

    /** `list_kinds`: every kind once, in name order. */
    method ListKinds() returns (specs: seq<KindSpec>)
      requires Consistent(Contents())
      ensures Lists(specs, kinds, KindName) && InNameOrder(specs, KindName)
    {
      var names := SortNames(kinds.Keys);
      specs := ValuesAt(kinds, names);
      ValuesAtLists(kinds, names, KindName);
    }

    /** `list_types`: every type of the asked kind, or of any, once and in name order. */
    method ListTypes(kind: Option<string>) returns (specs: seq<TypeSpec>)
      requires Consistent(Contents())
      ensures Lists(specs, OfKind(types, kind), TypeName) && InNameOrder(specs, TypeName)
    {
      var items := OfKind(types, kind);
      var names := SortNames(items.Keys);
      specs := ValuesAt(items, names);
      ValuesAtLists(items, names, TypeName);
    }

    /** Registers a sorted listing of `m`, entry by entry; no registration fails. */
    method RegisterKinds(listed: seq<KindSpec>, ghost m: map<string, KindSpec>, overwrite: bool)
      requires Lists(listed, m, KindName)
      requires overwrite || kinds == map[]
      modifies this
      ensures kinds == old(kinds) + m && types == old(types)
    {
      for i := 0 to |listed|
        invariant types == old(types)
        invariant kinds == Enter(old(kinds), listed[..i], KindName)
      {
        EnterNext(old(kinds), listed, m, KindName, i);
        var done := RegisterKind(listed[i], overwrite);
      }
      EnterAll(old(kinds), listed, m, KindName);
    }

    method RegisterTypes(listed: seq<TypeSpec>, ghost m: map<string, TypeSpec>, overwrite: bool)
      requires Lists(listed, m, TypeName)
      requires forall i | 0 <= i < |listed| :: NormalForm(listed[i]) && listed[i].kind in kinds
      requires overwrite || types == map[]
      modifies this
      ensures types == old(types) + m && kinds == old(kinds)
    {
      for i := 0 to |listed|
        invariant kinds == old(kinds)
        invariant types == Enter(old(types), listed[..i], TypeName)
      {
        EnterNext(old(types), listed, m, TypeName, i);
        NormalisedIsNormal(listed[i]);
        var rebuilt := PostInit(listed[i]);
        var done := RegisterType(rebuilt.value, overwrite);
      }
      EnterAll(old(types), listed, m, TypeName);
    }

    /** `copy`: a fresh registry with equal dictionaries. No registration on the way can fail, and
        rebuilding each specification gives it back. */
    method Copy() returns (registry: ConnectionRegistry)
      requires Consistent(Contents())
      ensures fresh(registry)
      ensures registry.Contents() == Contents()
    {
      registry := new ConnectionRegistry();
      var kindList := ListKinds();
      registry.RegisterKinds(kindList, kinds, false);
      assert registry.kinds == kinds;
      var typeList := ListTypes(None);
      ListedTypesFit(Contents(), typeList);
      registry.RegisterTypes(typeList, types, false);
      assert registry.kinds == kinds && registry.types == types;
    }

    /** `_merge_registry` of the builder: the union in which the source wins; nothing can fail. */
    method MergeFrom(source: ConnectionRegistry)
      requires source != this
      requires Consistent(Contents()) && Consistent(source.Contents())
      modifies this
      ensures kinds == old(kinds) + source.kinds
      ensures types == old(types) + source.types
      ensures Consistent(Contents())
    {
      var kindList := source.ListKinds();
      RegisterKinds(kindList, source.kinds, true);
      var typeList := source.ListTypes(None);
      ListedTypesFit(source.Contents(), typeList);
      RegisterTypes(typeList, source.types, true);
    }
  }

  lemma {:induction false} EnterAt<T>(base: map<string, T>, listed: seq<T>, m: map<string, T>, nameOf: T -> string,
                                      n: string)
    requires forall i | 0 <= i < |listed| :: nameOf(listed[i]) in m && m[nameOf(listed[i])] == listed[i]
    ensures n in Enter(base, listed, nameOf) <==> n in base || Named(listed, nameOf, n)
    ensures Named(listed, nameOf, n) ==> n in m && Enter(base, listed, nameOf)[n] == m[n]
    ensures n in base && !Named(listed, nameOf, n) ==> Enter(base, listed, nameOf)[n] == base[n]
  {
    if listed != [] {
      var init := listed[..|listed| - 1];
      EnterAt(base, init, m, nameOf, n);
      assert Named(init, nameOf, n) ==> Named(listed, nameOf, n) by {
        if Named(init, nameOf, n) {
          var i :| 0 <= i < |init| && nameOf(init[i]) == n;
          assert nameOf(listed[i]) == n;
        }
      }
      assert Named(listed, nameOf, n) ==> Named(init, nameOf, n) || nameOf(listed[|listed| - 1]) == n by {
        if Named(listed, nameOf, n) {
          var i :| 0 <= i < |listed| && nameOf(listed[i]) == n;
          if i < |init| { assert nameOf(init[i]) == n; }
        }
      }
    }
  }

  lemma EnterNext<T>(base: map<string, T>, listed: seq<T>, m: map<string, T>, nameOf: T -> string, i: nat)
    requires Lists(listed, m, nameOf) && i < |listed|
    ensures Enter(base, listed[..i + 1], nameOf) == Enter(base, listed[..i], nameOf)[nameOf(listed[i]) := listed[i]]
    ensures base == map[] ==> nameOf(listed[i]) !in Enter(base, listed[..i], nameOf)
  {
    assert listed[..i + 1][..i] == listed[..i];
    EnterAt(base, listed[..i], m, nameOf, nameOf(listed[i]));
  }

  lemma EnterAll<T>(base: map<string, T>, listed: seq<T>, m: map<string, T>, nameOf: T -> string)
    requires Lists(listed, m, nameOf)
    ensures Enter(base, listed[..|listed|], nameOf) == base + m
  {
    assert listed[..|listed|] == listed;
    forall n ensures n in Enter(base, listed, nameOf) <==> n in base + m
             ensures n in base + m ==> Enter(base, listed, nameOf)[n] == (base + m)[n]
    {
      EnterAt(base, listed, m, nameOf, n);
      if Named(listed, nameOf, n) {
        assert n in m;
      }
    }
  }
}
