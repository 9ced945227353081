/** Printing a Pydantic class as `module:qualname` and finding it again, as the driver-options
    column does, and the reference splitter of the configuration language. */
module ModelRefs {
  import opened Values
  import opened Text

  /** A class, named by its module and the attribute path of its `__qualname__`. */
  datatype ClassRef = ClassRef(mod: string, path: seq<string>)

  /** What `import_module` and `getattr` can reach: an object with attributes, which may be a
      Pydantic class. */
  datatype Namespace = Namespace(attrs: map<string, Namespace>, model: Option<ClassRef>)

  type Modules = map<string, Namespace>

  /** `f"{cls.__module__}:{cls.__qualname__}"`. */
  function Printed(ref: ClassRef): string {
    ref.mod + ":" + Join(ref.path, '.')
  }

  function Walk(node: Namespace, path: seq<string>): Option<Namespace> {
    if path == [] then Some(node)
    else if path[0] in node.attrs then Walk(node.attrs[path[0]], path[1..])
    else None
  }

  /** A class whose printed name can be told apart: the module has no colon, and no segment of the
      path has a dot. */
  predicate WellNamed(ref: ClassRef) {
    && ref.mod != "" && ':' !in ref.mod
    && |ref.path| >= 1 && ref.path != [""]
    && forall p | p in ref.path :: '.' !in p
  }

  /** The class is reachable by its own name, unlike a class made inside a function. */
  predicate Importable(modules: Modules, ref: ClassRef) {
    && WellNamed(ref)
    && ref.mod in modules
    && Walk(modules[ref.mod], ref.path).Some?
    && Walk(modules[ref.mod], ref.path).value.model == Some(ref)
  }

  /** The text before and after the first colon. */
  function SplitAtColon(ref: string): (string, string) {
    var i := Find(ref, ':');
    if i == |ref| then (ref, "") else (ref[..i], ref[i + 1..])
  }

  /** What a stored reference resolves to; None stands for any exception on the way. */
  function Resolved(modules: Modules, ref: string): Option<ClassRef> {
    var (modName, attributePath) := SplitAtColon(ref);
    if modName == "" || attributePath == "" || modName !in modules then None
    else
      var node := Walk(modules[modName], Split(attributePath, '.'));
      if node.None? then None else node.value.model
  }

  lemma {:induction false} WalkStep(node: Namespace, path: seq<string>, i: nat)
    requires i < |path|
    requires Walk(node, path[..i]).Some?
    ensures var here := Walk(node, path[..i]).value;
            Walk(node, path[..i + 1]) == if path[i] in here.attrs then Some(here.attrs[path[i]]) else None
    decreases i
  {
    if i > 0 {
      assert path[1..][..i - 1] == path[..i][1..];
      assert path[1..][..i] == path[..i + 1][1..];
      WalkStep(node.attrs[path[0]], path[1..], i - 1);
    } else {
      assert path[..1][1..] == [];
    }
  }

  lemma {:induction false} WalkPrefix(node: Namespace, path: seq<string>, i: nat)
    requires i <= |path|
    requires Walk(node, path[..i]).None?
    ensures Walk(node, path).None?
    decreases i
  {
    if i > 0 && path[0] in node.attrs {
      assert path[..i][1..] == path[1..][..i - 1];
      WalkPrefix(node.attrs[path[0]], path[1..], i - 1);
    }
  }

  /** The column's own loop over the attribute path. */
  method ResolveModelRef(modules: Modules, ref: string) returns (r: Option<ClassRef>)
    ensures r == Resolved(modules, ref)
  {
    var (modName, attributePath) := SplitAtColon(ref);
    if modName == "" || attributePath == "" || modName !in modules {
      return None;
    }
    var attributes := Split(attributePath, '.');
    var current := modules[modName];
    var i := 0;
    while i < |attributes|
      invariant 0 <= i <= |attributes|
      invariant Walk(modules[modName], attributes[..i]) == Some(current)
    {
      WalkStep(modules[modName], attributes, i);
      if attributes[i] !in current.attrs {
        WalkPrefix(modules[modName], attributes, i + 1);
        return None;
      }
      current := current.attrs[attributes[i]];
      i := i + 1;
    }
    assert attributes[..i] == attributes;
    return current.model;
  }

  lemma SplitAtColonUnique(head: string, tail: string)
    requires ':' !in head
    ensures Find(head + [':'] + tail, ':') == |head|
    ensures SplitAtColon(head + [':'] + tail) == (head, tail)
  {
    var s := head + [':'] + tail;
    FindUnique(head, tail, ':');
    assert s[..|head|] == head && s[|head| + 1..] == tail;
  }

  lemma JoinNotEmpty(path: seq<string>)
    requires |path| >= 1 && path != [""]
    ensures Join(path, '.') != ""
  {
    if |path| == 1 {
      assert path == [path[0]];
    }
  }

  /** Resolving a printed reference walks exactly the attribute path that was printed. */
  lemma ResolvePrinted(modules: Modules, ref: ClassRef)
    requires WellNamed(ref)
    ensures Resolved(modules, Printed(ref)) ==
            if ref.mod in modules && Walk(modules[ref.mod], ref.path).Some?
            then Walk(modules[ref.mod], ref.path).value.model else None
  {
    var tail := Join(ref.path, '.');
    SplitAtColonUnique(ref.mod, tail);
    assert Printed(ref) == ref.mod + [':'] + tail;
    JoinNotEmpty(ref.path);
    SplitJoin(ref.path, '.');
  }

  /** Distinct well-named classes are stored under distinct references. */
  lemma PrintedInjective(a: ClassRef, b: ClassRef)
    requires WellNamed(a) && WellNamed(b)
    requires Printed(a) == Printed(b)
    ensures a == b
  {
    SplitAtColonUnique(a.mod, Join(a.path, '.'));
    SplitAtColonUnique(b.mod, Join(b.path, '.'));
    assert Printed(a) == a.mod + [':'] + Join(a.path, '.');
    assert Printed(b) == b.mod + [':'] + Join(b.path, '.');
    SplitJoin(a.path, '.');
    SplitJoin(b.path, '.');
  }

  // ---------- the configuration language ----------

  /** `_split_reference`; None is the validation error. */
  function SplitReference(reference: string): Option<(string, string)> {
    var i := Find(reference, ':');
    var (modName, attributePath) :=
      if i < |reference| then (reference[..i], reference[i + 1..])
      else
        var j := AfterLast(reference, '.');
        if j == 0 then ("", reference) else (reference[..j - 1], reference[j..]);
    if modName == "" || attributePath == "" then None else Some((modName, attributePath))
  }

  lemma SplitColonForm(m: string, a: string)
    requires m != "" && ':' !in m && a != ""
    ensures SplitReference(m + ":" + a) == Some((m, a))
  {
    SplitAtColonUnique(m, a);
    assert m + ":" + a == m + [':'] + a;
  }

  /** `m:a` and `m.a` name the same thing exactly when the attribute has no dot of its own. */
  lemma DottedFormAgrees(m: string, a: string)
    requires m != "" && a != "" && ':' !in m && ':' !in a
    ensures SplitReference(m + "." + a) == SplitReference(m + ":" + a) <==> '.' !in a
  {
    SplitColonForm(m, a);
    var s := m + "." + a;
    assert s == m + ['.'] + a;
    assert ':' !in s;
    assert Find(s, ':') == |s|;
    if '.' !in a {
      AfterLastUnique(m, a, '.');
      assert s[..|m|] == m && s[|m| + 1..] == a;
    } else {
      var k :| 0 <= k < |a| && a[k] == '.';
      var j := AfterLast(s, '.');
      assert s[|m| + 1 + k] == '.';
      assert forall n | j <= n < |s| :: s[n] in s[j..];
      assert |s[..j - 1]| > |m|;
    }
  }
}
