/** What validation answers, told relation by relation from the draft and its type's specification: an
    independent reference for `Validation.Validate`, which names none of its parts. */
module Acceptance {
  import opened Values
  import opened Schemas
  import opened Entities
  import opened Registries
  import opened Validation

  /** The values Python takes for nothing. */
  predicate Blank(v: Json) {
    v == Null || v == Bool(false) || v == Int(0) || v == Str("") || v == List([]) || v == Dict(map[])
  }

  /** No options: none given, an empty value, or an instance that dumps to nothing. */
  predicate GivesNone(py: Pydantic, raw: Options) {
    match raw
    case NoOptions => true
    case RawOptions(json) => Blank(json)
    case TypedOptions(m) =>
      var dump := py.dumpPython(m);
      dump == PyNone || dump == PyDict(map[]) || (dump.PyJson? && Blank(dump.json))
  }

  /** What options are handed to their class as: an instance as itself, anything else as JSON. */
  ghost predicate HandedAs(raw: Options, input: Input) {
    && (raw.NoOptions? ==> input == FromJson(Null))
    && (raw.RawOptions? ==> input == FromJson(raw.json))
    && (raw.TypedOptions? ==> input == FromModel(raw.model))
  }

  /** The driver a connection runs on: the one it names, where an empty name is none, or else its type's. */
  predicate RunsOn(spec: TypeSpec, named: Option<string>, driver: Option<string>) {
    if named == None || named == Some("") then driver == spec.defaultDriver else driver == named
  }

  /** Declaration `i` of the type is the first under the name. */
  predicate DeclaredAt(spec: TypeSpec, name: string, i: int) {
    0 <= i < |spec.driverSpecs| && spec.driverSpecs[i].name == name
    && forall j | 0 <= j < i :: spec.driverSpecs[j].name != name
  }

  /** The options of an accepted connection: what the class of its driver makes of those given, and none
      without a driver or with one that takes none. */
  ghost predicate Carries(py: Pydantic, spec: TypeSpec, driver: Option<string>, raw: Options, options: Option<Model>) {
    if driver.None? then options.None? && GivesNone(py, raw)
    else
      exists i, input :: DeclaredAt(spec, driver.value, i) && HandedAs(raw, input) &&
        if spec.driverSpecs[i].optionsModel == NO_OPTIONS then options.None? && GivesNone(py, raw)
        else options.Some? && options == py.validate(spec.driverSpecs[i].optionsModel, input)
  }

  /** A driver the type does not support, where it lists any. */
  predicate Unsupported(spec: TypeSpec, driver: Option<string>) {
    driver != None && driver != Some("") && spec.supportedDrivers != {} && driver.value !in spec.supportedDrivers
  }

  /** The payloads fit the type's models, which make these instances of them. */
  ghost predicate Fits(py: Pydantic, spec: TypeSpec, d: Draft, properties: Model, secrets: Option<Model>) {
    && py.validate(spec.propertiesModel, FromJson(d.properties)) == Some(properties)
    && (spec.secretsModel.None? ==> secrets.None?)
    && (spec.secretsModel.Some? ==>
          secrets.Some? && py.validate(spec.secretsModel.value, FromJson(d.secrets)) == secrets)
  }

  /** The draft is accepted as `v`. */
  ghost predicate AcceptedAs(py: Pydantic, types: Types, d: Draft, v: Validated) {
    && d.typ in types
    && var spec := types[d.typ];
    && d.kind == spec.kind
    && RunsOn(spec, d.driver, v.driver) && !Unsupported(spec, v.driver)
    && Fits(py, spec, d, v.properties, v.secrets)
    && Carries(py, spec, v.driver, d.options, v.options)
    && v.name == d.name && v.kind == d.kind && v.typ == d.typ
    && d.labels == Some(v.labels) && d.metadata == Some(v.metadata) && d.extra == Some(v.extra)
  }

  lemma {:induction false} FirstDeclared(specs: seq<DriverSpec>, name: string) returns (i: nat)
    requires Validation.ResolveDriver(specs, name).Some?
    ensures i < |specs| && specs[i] == Validation.ResolveDriver(specs, name).value && specs[i].name == name
    ensures forall j | 0 <= j < i :: specs[j].name != name
  {
    if specs[0].name == name {
      i := 0;
    } else {
      var k := FirstDeclared(specs[1..], name);
      i := k + 1;
      assert forall j | 1 <= j < i :: specs[j] == specs[1..][j - 1];
    }
  }

  lemma NothingIsBlank(py: Pydantic, raw: Options)
    ensures EmptyOptions(py, raw) <==> GivesNone(py, raw)
  {
  }

  lemma OptionsFound(py: Pydantic, spec: TypeSpec, driver: Option<string>, raw: Options)
    ensures var r := ValidateDriverOptions(py, spec, driver, raw); r.Ok? ==> Carries(py, spec, driver, raw, r.value)
  {
    NothingIsBlank(py, raw);
    if driver.Some? && Validation.ResolveDriver(spec.driverSpecs, driver.value).Some? {
      var i := FirstDeclared(spec.driverSpecs, driver.value);
      assert DeclaredAt(spec, driver.value, i) && HandedAs(raw, OptionsInput(raw));
    }
  }

  lemma OptionsDecided(py: Pydantic, spec: TypeSpec, driver: Option<string>, raw: Options, options: Option<Model>)
    requires Carries(py, spec, driver, raw, options)
    ensures ValidateDriverOptions(py, spec, driver, raw) == Ok(options)
  {
    NothingIsBlank(py, raw);
    if driver.Some? {
      var i, input :| DeclaredAt(spec, driver.value, i) && HandedAs(raw, input) &&
        if spec.driverSpecs[i].optionsModel == NO_OPTIONS then options.None? && GivesNone(py, raw)
        else options.Some? && options == py.validate(spec.driverSpecs[i].optionsModel, input);
      ResolveDriverIsFirst(spec.driverSpecs, driver.value, i);
      assert input == OptionsInput(raw);
    }
  }

  /** The options of a driver are settled, and how: the first declaration of its name decides. */
  lemma OptionsIff(py: Pydantic, spec: TypeSpec, driver: Option<string>, raw: Options, options: Option<Model>)
    ensures ValidateDriverOptions(py, spec, driver, raw) == Ok(options) <==> Carries(py, spec, driver, raw, options)
  {
    OptionsFound(py, spec, driver, raw);
    if Carries(py, spec, driver, raw, options) {
      OptionsDecided(py, spec, driver, raw, options);
    }
  }

  lemma DriverRuns(spec: TypeSpec, named: Option<string>, driver: Option<string>)
    ensures RunsOn(spec, named, driver) <==> driver == EffectiveDriver(named, spec)
  {
  }

  /** Validation accepts a draft as `v` exactly when the reference does. */
  lemma AcceptedIff(py: Pydantic, types: Types, d: Draft, v: Validated)
    ensures Validate(py, types, d) == Ok(v) <==> AcceptedAs(py, types, d, v)
  {
    if d.typ in types {
      DriverRuns(types[d.typ], d.driver, v.driver);
      OptionsIff(py, types[d.typ], v.driver, d.options, v.options);
    }
  }

  /** Which error a rejected draft gets, first failure first: the type, the kind, the driver's support, the
      payloads, the options, and last a mapping that is null. */
  lemma RejectedBecause(py: Pydantic, types: Types, d: Draft, driver: Option<string>)
    requires d.typ in types ==> RunsOn(types[d.typ], d.driver, driver)
    ensures var r := Validate(py, types, d);
            if d.typ !in types then r == Err(UnknownType(d.typ))
            else
              var spec := types[d.typ];
              if d.kind != spec.kind then r == Err(KindMismatch)
              else if Unsupported(spec, driver) then r == Err(UnsupportedDriver)
              else if !exists p, s :: Fits(py, spec, d, p, s) then r == Err(InvalidPayload)
              else if !exists o :: Carries(py, spec, driver, d.options, o) then
                r == Err(if driver.Some? && !exists i :: DeclaredAt(spec, driver.value, i) then UnsupportedDriver
                         else InvalidDriverOptions)
              else if d.labels.None? || d.metadata.None? || d.extra.None? then r == Err(NotAMapping)
              else r.Ok?
  {
    if d.typ in types {
      var spec := types[d.typ];
      DriverRuns(spec, d.driver, driver);
      PayloadsFit(py, spec, d);
      OptionsRefused(py, spec, driver, d.options);
    }
  }

  lemma PayloadsFit(py: Pydantic, spec: TypeSpec, d: Draft)
    ensures (exists p, s :: Fits(py, spec, d, p, s)) <==>
            py.validate(spec.propertiesModel, FromJson(d.properties)).Some?
            && (spec.secretsModel.Some? ==> py.validate(spec.secretsModel.value, FromJson(d.secrets)).Some?)
  {
    var p := py.validate(spec.propertiesModel, FromJson(d.properties));
    var s := if spec.secretsModel.None? then None else py.validate(spec.secretsModel.value, FromJson(d.secrets));
    if p.Some? && (spec.secretsModel.Some? ==> s.Some?) {
      assert Fits(py, spec, d, p.value, s);
    }
  }

  lemma OptionsRefused(py: Pydantic, spec: TypeSpec, driver: Option<string>, raw: Options)
    ensures var r := ValidateDriverOptions(py, spec, driver, raw);
            && (r.Ok? <==> exists o :: Carries(py, spec, driver, raw, o))
            && (r.Err? ==>
                  r.error == if driver.Some? && !exists i :: DeclaredAt(spec, driver.value, i) then UnsupportedDriver
                             else InvalidDriverOptions)
  {
    var r := ValidateDriverOptions(py, spec, driver, raw);
    if r.Ok? {
      OptionsFound(py, spec, driver, raw);
    } else {
      forall o ensures !Carries(py, spec, driver, raw, o) {
        OptionsIff(py, spec, driver, raw, o);
      }
      if driver.Some? {
        DeclaredIff(spec, driver.value);
      }
    }
  }

  lemma DeclaredIff(spec: TypeSpec, name: string)
    ensures (exists i :: DeclaredAt(spec, name, i)) <==> Validation.ResolveDriver(spec.driverSpecs, name).Some?
  {
    if Validation.ResolveDriver(spec.driverSpecs, name).Some? {
      var i := FirstDeclared(spec.driverSpecs, name);
      assert DeclaredAt(spec, name, i);
    }
    if i :| DeclaredAt(spec, name, i) {
      ResolveDriverIsFirst(spec.driverSpecs, name, i);
    }
  }
}
