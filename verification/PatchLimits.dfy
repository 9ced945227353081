/** The other half of the exact condition for composing updates: for every pair of patches that is not
    composable, an installation, a row and a successful first update after which the two ways differ. */
module PatchLimits {
  import opened Values
  import opened ModelRefs
  import opened Schemas
  import opened Entities
  import opened Registries
  import opened Validation
  import opened RecordMapper
  import opened Store
  import opened ReadBack
  import opened PatchAlgebra

  const BASE := ClassRef("app.options", ["Base"])
  const DERIVED := ClassRef("app.options", ["Derived"])
  const ANYTHING := ClassRef("app.models", ["Anything"])

  /** A library of three classes that take any input: one for properties, an options class whose
      instances come from defaults, and a subclass of it with one fixed instance. Like Pydantic,
      validating an instance of a subclass returns the instance. */
  function SampleValidate(held: Model, c: ClassRef, v: Input): Option<Model> {
    if c == ANYTHING then Some(Model(ANYTHING, Dict(map[])))
    else if c == BASE then Some(if v == FromModel(held) then held else Model(BASE, Dict(map[])))
    else if c == DERIVED then Some(held)
    else None
  }

  function SampleModules(): Modules {
    map["app.options" :=
          Namespace(map["Base" := Namespace(map[], Some(BASE)), "Derived" := Namespace(map[], Some(DERIVED))], None)]
  }

  function SamplePydantic(held: Model): Pydantic {
    Pydantic((c, v) => SampleValidate(held, c, v), m => Dict(map[]), m => PyDict(map[]), c => true, SampleModules())
  }

  /** The two drivers of the one sample type, its default, and the subclass's instance. */
  datatype Sample = Sample(first: string, second: string, default: string, held: Model)

  predicate Sensible(s: Sample) {
    s.first != s.second && s.first != "" && s.second != "" && s.default in {s.first, s.second} && s.held.cls == DERIVED
  }

  /** The second driver takes options of the class, the first one of the subclass. */
  function SampleType(s: Sample): TypeSpec {
    TypeSpec("t", "k", ANYTHING, None, None, false, Some(s.default),
             [DriverSpec(s.second, BASE, BASE), DriverSpec(s.first, DERIVED, DERIVED)], {s.first, s.second})
  }

  function SampleEnv(provider: Provider, s: Sample): Env {
    Env(SamplePydantic(s.held), provider, map["t" := SampleType(s)],
        Policy((a, d) => true, (a, r) => true, (a, r, p) => true, (a, r) => true, (a, q) => q),
        Resolver((a, d) => d, (a, u, r, p) => p),
        (name, part) => true)
  }

  lemma SampleImportable()
    ensures Importable(SampleModules(), BASE) && Importable(SampleModules(), DERIVED)
  {
    var top := SampleModules()["app.options"];
    assert Walk(top.attrs["Base"], []) == Some(top.attrs["Base"]);
    assert ["Base"][1..] == [] && ["Derived"][1..] == [];
    assert Walk(top, ["Base"]) == Some(Namespace(map[], Some(BASE)));
    assert Walk(top, ["Derived"]) == Some(Namespace(map[], Some(DERIVED)));
  }

  lemma SampleLawful(provider: Provider, s: Sample)
    requires Faithful(provider) && Sensible(s)
    ensures Lawful(SampleEnv(provider, s))
  {
    SampleImportable();
    var spec := SampleType(s);
    assert DriverNames(spec.driverSpecs) == {s.first, s.second} by {
      assert spec.driverSpecs[0].name == s.second && spec.driverSpecs[1].name == s.first;
    }
    var py := SamplePydantic(s.held);
    forall v: Input | py.validate(BASE, v).Some? ensures StorableModel(py, BASE, py.validate(BASE, v).value) {}
    forall v: Input | py.validate(DERIVED, v).Some? ensures StorableModel(py, DERIVED, py.validate(DERIVED, v).value) {}
    forall v: Input | py.validate(ANYTHING, v).Some?
      ensures StableModel(py, ANYTHING, py.validate(ANYTHING, v).value)
    {
    }
  }

  function SampleClass(s: Sample, name: string): ClassRef {
    if name == s.second then BASE else DERIVED
  }

  function Stored(m: Model): Json {
    Dict(map["model_ref" := Str(Printed(m.cls)), "data" := Dict(map[])])
  }

  function SampleOptions(s: Sample, name: string, raw: Options): Model {
    SampleValidate(s.held, SampleClass(s, name), OptionsInput(raw)).value
  }

  /** Any draft of the sample type with a declared driver is accepted, with that driver's options. */
  lemma SampleAccepts(provider: Provider, s: Sample, d: Draft, name: string)
    requires Sensible(s) && name in {s.first, s.second}
    requires d.typ == "t" && d.kind == "k" && d.labels.Some? && d.metadata.Some? && d.extra.Some?
    requires EffectiveDriver(d.driver, SampleType(s)) == Some(name)
    ensures var env := SampleEnv(provider, s);
            Validate(env.py, env.types, d) ==
              Ok(Validated(d.name, "k", "t", Some(name), Some(SampleOptions(s, name, d.options)),
                           Model(ANYTHING, Dict(map[])), None, d.labels.value, d.metadata.value, d.extra.value))
  {
    var env := SampleEnv(provider, s);
    var spec := SampleType(s);
    assert ResolveDriver(spec.driverSpecs[1..], s.first) == Some(spec.driverSpecs[1]) by {
      assert spec.driverSpecs[1..][0] == spec.driverSpecs[1];
    }
    assert ResolveDriver(spec.driverSpecs, name) ==
           Some(if name == s.second then spec.driverSpecs[0] else spec.driverSpecs[1]);
  }

  /** A readable record of the sample type, updated. */
  lemma SampleRevises(provider: Provider, s: Sample, r: Record, patch: Patch, name: string, nonce: int)
    requires Sensible(s) && name in {s.first, s.second}
    requires r.typ == "t" && r.kind == "k" && !r.Unreadable() && Applicable(patch)
    requires EffectiveDriver(Choose(patch.driver, r.driver), SampleType(s)) == Some(name)
    ensures var stored := Revise(SampleEnv(provider, s), r, patch, nonce);
            stored.Ok? && stored.value.options == Stored(SampleOptions(s, name, Choose(patch.options, r.options)))
  {
    SampleAccepts(provider, s, Merge(r, patch), name);
  }

  /** A live row of the sample type that names the first driver and stores no options. */
  function SampleRow(provider: Provider, s: Sample): Row {
    Row(Columns("n", "k", "t", Some(s.first), Null, Dict(map[]), Some(provider.encrypt(0, Dict(map[]))),
                Dict(map[]), Dict(map[]), Dict(map[])), 0, 0, None)
  }

  lemma SampleReads(provider: Provider, s: Sample, id: string)
    requires Faithful(provider)
    ensures var r := ToRecord(SamplePydantic(s.held), provider, id, SampleRow(provider, s));
            r.typ == "t" && r.kind == "k" && r.driver == Some(s.first) && r.options == NoOptions && !r.Unreadable()
  {
    assert provider.decrypt(Some(provider.encrypt(0, Dict(map[])))) == Some(Dict(map[]));
    IssueIff(SamplePydantic(s.held), provider, id, SampleRow(provider, s), Issue(SecretsPart, UnreadableSecrets));
  }

  /** The row after the first update, read back. */
  lemma SampleMiddle(provider: Provider, s: Sample, id: string, p: Patch, name: string, now: int, nonce: int)
    requires Faithful(provider) && Sensible(s) && name in {s.first, s.second} && Applicable(p)
    requires EffectiveDriver(Choose(p.driver, Some(s.first)), SampleType(s)) == Some(name)
    ensures var env := SampleEnv(provider, s);
            var first := Updated(env, id, SampleRow(provider, s), p, now, nonce);
            && first.Ok?
            && var r := ToRecord(env.py, provider, id, first.value);
            && r.typ == "t" && r.kind == "k" && r.driver == Choose(p.driver, Some(s.first)) && !r.Unreadable()
            && r.options == TypedOptions(SampleOptions(s, name, Choose(p.options, NoOptions)))
  {
    var env := SampleEnv(provider, s);
    SampleLawful(provider, s);
    SampleReads(provider, s, id);
    var d := Merge(ToRecord(env.py, provider, id, SampleRow(provider, s)), p);
    SampleAccepts(provider, s, d, name);
    SampleRevises(provider, s, ToRecord(env.py, provider, id, SampleRow(provider, s)), p, name, nonce);
    DecodesToPersisted(env, nonce, d, id, Updated(env, id, SampleRow(provider, s), p, now, nonce).value);
  }

  lemma StoredApart(held: Model)
    requires held.cls == DERIVED
    ensures Stored(held) != Stored(Model(BASE, Dict(map[])))
  {
    if Printed(BASE) == Printed(DERIVED) {
      PrintedInjective(BASE, DERIVED);
    }
    assert Stored(held).entries["model_ref"] == Str(Printed(DERIVED));
    assert Stored(Model(BASE, Dict(map[]))).entries["model_ref"] == Str(Printed(BASE));
  }

  /** The later patch switches from the first driver to the second and brings no options for it. */
  predicate Switches(s: Sample, p: Patch, q: Patch) {
    && Sensible(s) && Applicable(p) && Applicable(q)
    && EffectiveDriver(Choose(p.driver, Some(s.first)), SampleType(s)) == Some(s.first)
    && q.driver.Set? && EffectiveDriver(q.driver.value, SampleType(s)) == Some(s.second) && !q.options.Set?
    && p.options != Set(TypedOptions(s.held))
  }

  /** One update makes options of the second driver's own class ... */
  lemma SwitchAtOnce(provider: Provider, s: Sample, id: string, p: Patch, q: Patch, nonce: int)
    requires Faithful(provider) && Switches(s, p, q)
    ensures var env := SampleEnv(provider, s);
            var one := Revise(env, ToRecord(env.py, provider, id, SampleRow(provider, s)), Combine(p, q), nonce);
            one.Ok? && one.value.options == Stored(Model(BASE, Dict(map[])))
  {
    SampleReads(provider, s, id);
    SampleRevises(provider, s, ToRecord(SamplePydantic(s.held), provider, id, SampleRow(provider, s)), Combine(p, q),
                  s.second, nonce);
  }

  /** ... and two updates keep those the first one made. */
  lemma SwitchAfterwards(provider: Provider, s: Sample, id: string, p: Patch, q: Patch, now: int, nonce: int)
    requires Faithful(provider) && Switches(s, p, q)
    ensures var env := SampleEnv(provider, s);
            var first := Updated(env, id, SampleRow(provider, s), p, now, nonce);
            && first.Ok?
            && var two := Revise(env, ToRecord(env.py, provider, id, first.value), q, nonce);
            two.Ok? && two.value.options == Stored(s.held)
  {
    SampleMiddle(provider, s, id, p, s.first, now, nonce);
    var first := Updated(SampleEnv(provider, s), id, SampleRow(provider, s), p, now, nonce).value;
    SampleRevises(provider, s, ToRecord(SamplePydantic(s.held), provider, id, first), q, s.second, nonce);
  }

  lemma DriverSwitchDiffers(provider: Provider, s: Sample, id: string, p: Patch, q: Patch, now: int, nonce: int)
    requires Faithful(provider) && Switches(s, p, q)
    ensures var env := SampleEnv(provider, s);
            var first := Updated(env, id, SampleRow(provider, s), p, now, nonce);
            && first.Ok?
            && !SameOutcome(Updated(env, id, SampleRow(provider, s), Combine(p, q), now, nonce),
                            Updated(env, id, first.value, q, now, nonce))
  {
    SwitchAtOnce(provider, s, id, p, q, nonce);
    SwitchAfterwards(provider, s, id, p, q, now, nonce);
    StoredApart(s.held);
  }

  /** Labels that do not survive make the difference by themselves, whichever drivers are selected. */
  lemma LabelsDiffer(provider: Provider, s: Sample, id: string, p: Patch, q: Patch, one: string, other: string,
                     now: int, nonce: int)
    requires Faithful(provider) && Sensible(s) && Applicable(p) && Applicable(q)
    requires one in {s.first, s.second} && EffectiveDriver(Choose(p.driver, Some(s.first)), SampleType(s)) == Some(one)
    requires other in {s.first, s.second}
             && EffectiveDriver(Choose(Over(p.driver, q.driver), Some(s.first)), SampleType(s)) == Some(other)
    requires !LabelsSurvive(p, q)
    ensures var env := SampleEnv(provider, s);
            var first := Updated(env, id, SampleRow(provider, s), p, now, nonce);
            && first.Ok?
            && !SameOutcome(Updated(env, id, SampleRow(provider, s), Combine(p, q), now, nonce),
                            Updated(env, id, first.value, q, now, nonce))
  {
    var env, row := SampleEnv(provider, s), SampleRow(provider, s);
    SampleReads(provider, s, id);
    SampleMiddle(provider, s, id, p, one, now, nonce);
    SampleRevises(provider, s, ToRecord(env.py, provider, id, row), Combine(p, q), other, nonce);
    LostLabelsDiffer(env, id, row, p, q, now, nonce, now, nonce);
  }

  // ---------- a sample for every pair ----------

  /** The name a patch's driver field selects by itself. */
  function Selects(f: Field<Option<string>>): Option<string> {
    if f.Set? then NamedDriver(f.value) else None
  }

  function SampleFor(p: Patch, q: Patch): Sample {
    var second := if Selects(q.driver).Some? then Selects(q.driver).value
                  else if Selects(p.driver).Some? then Selects(p.driver).value + "x"
                  else "base";
    var first :=
      if Selects(p.driver).Some? && Selects(p.driver).value != second then Selects(p.driver).value else second + "x";
    var default := if q.driver.Set? && Selects(q.driver).None? then second
                   else if p.driver.Set? && Selects(p.driver).None? then first
                   else second;
    var plain := Model(DERIVED, Dict(map[]));
    var held := if p.options == Set(TypedOptions(plain)) then Model(DERIVED, Dict(map["x" := Null])) else plain;
    Sample(first, second, default, held)
  }

  lemma SampleForFits(p: Patch, q: Patch)
    ensures var s := SampleFor(p, q);
            && Sensible(s)
            && p.options != Set(TypedOptions(s.held))
            && var one := EffectiveDriver(Choose(p.driver, Some(s.first)), SampleType(s));
            var other := EffectiveDriver(Choose(Over(p.driver, q.driver), Some(s.first)), SampleType(s));
            && one.Some? && one.value in {s.first, s.second}
            && other.Some? && other.value in {s.first, s.second}
            && (!DriverSettled(p, q) ==> one.value == s.first && other.value == s.second)
  {
    var s := SampleFor(p, q);
    assert |s.first| != |s.second| || (Selects(p.driver) == Some(s.first) && s.first != s.second);
    assert Model(DERIVED, Dict(map["x" := Null])) != Model(DERIVED, Dict(map[])) by {
      assert "x" in map["x" := Null];
    }
  }

  /** For every other pair of applicable patches there is a lawful installation, and a row in it, on which
      the first update goes through and then the two ways come to different outcomes. */
  lemma OtherPairsDoNotCompose(p: Patch, q: Patch, provider: Provider, id: string, now: int, nonce: int)
    returns (env: Env, row: Row)
    requires Faithful(provider)
    requires Applicable(p) && Applicable(q) && !Composable(p, q)
    ensures Lawful(env)
    ensures var first := Updated(env, id, row, p, now, nonce);
            && first.Ok?
            && !SameOutcome(Updated(env, id, row, Combine(p, q), now, nonce),
                            Updated(env, id, first.value, q, now, nonce))
  {
    var s := SampleFor(p, q);
    SampleForFits(p, q);
    env, row := SampleEnv(provider, s), SampleRow(provider, s);
    if DriverSettled(p, q) {
      var one := EffectiveDriver(Choose(p.driver, Some(s.first)), SampleType(s)).value;
      var other := EffectiveDriver(Choose(Over(p.driver, q.driver), Some(s.first)), SampleType(s)).value;
      LabelsDiffer(provider, s, id, p, q, one, other, now, nonce);
    } else {
      DriverSwitchDiffers(provider, s, id, p, q, now, nonce);
    }
    SampleLawful(provider, s);
  }
}
