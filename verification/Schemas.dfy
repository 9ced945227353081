/** Pydantic as the library sees it: classes that accept or reject an input and dump what they
    accepted. The classes themselves stay abstract; what the theorems need of them is stated as laws. */
module Schemas {
  import opened Values
  import opened ModelRefs

  /** A validated instance of a class. */
  datatype Model = Model(cls: ClassRef, state: Json)

  /** The result of `model_dump(mode="python")`, which may hold objects that are not JSON; `PyJson` is a
      dump that holds none. */
  datatype Python = PyNone | PyLeaf(token: string) | PyDict(entries: map<string, Python>) | PyJson(json: Json)

  /** What `model_validate` is handed: decoded JSON, a python-mode dump, or an instance. */
  datatype Input = FromJson(json: Json) | FromPython(py: Python) | FromModel(model: Model)

  datatype Pydantic = Pydantic(
    validate: (ClassRef, Input) -> Option<Model>,
    dumpJson: Model -> Json,
    dumpPython: Model -> Python,
    isDriverOptions: ClassRef -> bool,
    modules: Modules)

  /** `not model.model_dump(mode="python")`. */
  predicate EmptyDump(p: Python) {
    p == PyNone || p == PyDict(map[]) || (p.PyJson? && !Truthy(p.json))
  }

  // ---------- laws ----------

  /** Dumping and validating again changes nothing: `dump . validate` is idempotent, and what is
      dumped is a JSON object. */
  ghost predicate StableClass(py: Pydantic, c: ClassRef) {
    forall v: Input :: py.validate(c, v).Some? ==> StableModel(py, c, py.validate(c, v).value)
  }

  ghost predicate StableModel(py: Pydantic, c: ClassRef, m: Model) {
    && TakesOwnDump(py, c, m)
    && py.dumpJson(py.validate(c, FromJson(py.dumpJson(m))).value) == py.dumpJson(m)
  }

  /** The weaker half: what is dumped is a JSON object that the class accepts, if not as the same. */
  ghost predicate TakesOwnDump(py: Pydantic, c: ClassRef, m: Model) {
    py.dumpJson(m).Dict? && py.validate(c, FromJson(py.dumpJson(m))).Some?
  }

  ghost predicate SoundClass(py: Pydantic, c: ClassRef) {
    forall v: Input :: py.validate(c, v).Some? ==> TakesOwnDump(py, c, py.validate(c, v).value)
  }

  /** A driver-options class: an instance validates to itself, belongs to the driver-options
      hierarchy, can be imported by name, and is rebuilt by its own class from its JSON dump. */
  ghost predicate StorableClass(py: Pydantic, c: ClassRef) {
    forall v: Input :: py.validate(c, v).Some? ==> StorableModel(py, c, py.validate(c, v).value)
  }

  ghost predicate StorableModel(py: Pydantic, c: ClassRef, m: Model) {
    && py.validate(c, FromModel(m)) == Some(m)
    && py.isDriverOptions(m.cls)
    && Importable(py.modules, m.cls)
    && py.validate(m.cls, FromJson(py.dumpJson(m))) == Some(m)
  }

  /** Secrets providers: what was encrypted under any nonce decrypts to the same payload. */
  datatype Provider = Provider(
    encrypt: (int, Json) -> string,
    decrypt: Option<string> -> Option<Json>)

  ghost predicate Faithful(p: Provider) {
    forall nonce: int, payload: Json :: p.decrypt(Some(p.encrypt(nonce, payload))) == Some(payload)
  }
}
