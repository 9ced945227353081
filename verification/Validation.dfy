/** Payload validation: the type's own models, and the options of the effective driver. */
module Validation {
  import opened Values
  import opened Schemas
  import opened Entities
  import opened Registries

  type Types = map<string, TypeSpec>

  /** `draft.driver or spec.default_driver`: an empty driver name counts as none. */
  function EffectiveDriver(driver: Option<string>, spec: TypeSpec): Option<string> {
    if driver.Some? && driver.value != "" then driver else spec.defaultDriver
  }

  /** `resolve_driver_spec`: the first declaration with that name. */
  function ResolveDriver(specs: seq<DriverSpec>, name: string): (r: Option<DriverSpec>)
    ensures r.None? <==> name !in DriverNames(specs)
    ensures r.Some? ==> r.value in specs && r.value.name == name
  {
    if specs == [] then None
    else if specs[0].name == name then
      assert name in DriverNames(specs);
      Some(specs[0])
    else
      assert name in DriverNames(specs) <==> name in DriverNames(specs[1..]) by {
        if name in DriverNames(specs) {
          var i :| 0 <= i < |specs| && specs[i].name == name;
          assert specs[1..][i - 1].name == name;
        }
        if name in DriverNames(specs[1..]) {
          var i :| 0 <= i < |specs| - 1 && specs[1..][i].name == name;
          assert specs[i + 1].name == name;
        }
      }
      ResolveDriver(specs[1..], name)
  }

  /** The declaration found is the first of that name. */
  lemma {:induction false} ResolveDriverIsFirst(specs: seq<DriverSpec>, name: string, i: nat)
    requires i < |specs| && specs[i].name == name
    requires forall j | 0 <= j < i :: specs[j].name != name
    ensures ResolveDriver(specs, name) == Some(specs[i])
  {
    if i > 0 {
      ResolveDriverIsFirst(specs[1..], name, i - 1);
    }
  }

  /** `is_empty_driver_options`. */
  predicate EmptyOptions(py: Pydantic, raw: Options) {
    match raw
    case NoOptions => true
    case RawOptions(json) => !Truthy(json)
    case TypedOptions(model) => EmptyDump(py.dumpPython(model))
  }

  function OptionsInput(raw: Options): Input {
    match raw
    case NoOptions => FromJson(Null)
    case RawOptions(json) => FromJson(json)
    case TypedOptions(model) => FromModel(model)
  }

  function ValidateDriverOptions(py: Pydantic, spec: TypeSpec, effective: Option<string>,
                                 raw: Options): Result<Option<Model>, Error>
  {
    if effective.None? then
      if EmptyOptions(py, raw) then Ok(None) else Err(InvalidDriverOptions)
    else
      var driver := ResolveDriver(spec.driverSpecs, effective.value);
      if driver.None? then Err(UnsupportedDriver)
      else if driver.value.optionsModel == NO_OPTIONS then
        if EmptyOptions(py, raw) then Ok(None) else Err(InvalidDriverOptions)
      else
        var m := py.validate(driver.value.optionsModel, OptionsInput(raw));
        if m.None? then Err(InvalidDriverOptions) else Ok(Some(m.value))
  }

  /** The options a read view shows: validated, dumped, and accepted by the public options model. */
  function BuildPublicDriverOptions(py: Pydantic, spec: TypeSpec, effective: Option<string>,
                                    raw: Options): Result<Option<Model>, Error>
  {
    var validated :- ValidateDriverOptions(py, spec, effective, raw);
    if validated.None? then Ok(None)
    else
      var driver := if effective.None? then None else ResolveDriver(spec.driverSpecs, effective.value);
      if driver.None? then Ok(None)
      else
        var m := py.validate(driver.value.publicOptionsModel, FromPython(py.dumpPython(validated.value)));
        if m.None? then Err(InvalidDriverOptions) else Ok(Some(m.value))
  }

  /** `ValidationService.validate`. */
  function Validate(py: Pydantic, types: Types, draft: Draft): Result<Validated, Error> {
    if draft.typ !in types then Err(UnknownType(draft.typ))
    else
      var spec := types[draft.typ];
      if draft.kind != spec.kind then Err(KindMismatch)
      else
        var effective := EffectiveDriver(draft.driver, spec);
        if effective.Some? && effective.value != "" && spec.supportedDrivers != {}
          && effective.value !in spec.supportedDrivers
        then Err(UnsupportedDriver)
        else
          var properties := py.validate(spec.propertiesModel, FromJson(draft.properties));
          var secrets :=
            if spec.secretsModel.None? then None else py.validate(spec.secretsModel.value, FromJson(draft.secrets));
          if properties.None? || (spec.secretsModel.Some? && secrets.None?) then Err(InvalidPayload)
          else
            var options :- ValidateDriverOptions(py, spec, effective, draft.options);
            if draft.labels.None? || draft.metadata.None? || draft.extra.None? then Err(NotAMapping)
            else
              Ok(Validated(draft.name, draft.kind, draft.typ, effective, options, properties.value, secrets,
                           draft.labels.value, draft.metadata.value, draft.extra.value))
  }

  /** What acceptance amounts to, check by check. */
  ghost predicate Acceptable(py: Pydantic, types: Types, draft: Draft) {
    && draft.typ in types
    && var spec := types[draft.typ];
    && draft.kind == spec.kind
    && py.validate(spec.propertiesModel, FromJson(draft.properties)).Some?
    && (spec.secretsModel.Some? ==> py.validate(spec.secretsModel.value, FromJson(draft.secrets)).Some?)
    && ValidateDriverOptions(py, spec, EffectiveDriver(draft.driver, spec), draft.options).Ok?
    && draft.labels.Some? && draft.metadata.Some? && draft.extra.Some?
  }

  /** With types in normal form the separate supported-driver test never decides alone: an
      undeclared driver is also what the options check rejects. */
  lemma ValidateIff(py: Pydantic, types: Types, draft: Draft)
    requires forall n | n in types :: NormalForm(types[n])
    ensures Validate(py, types, draft).Ok? <==> Acceptable(py, types, draft)
  {
    if draft.typ in types {
      assert NormalForm(types[draft.typ]);
    }
  }
}
