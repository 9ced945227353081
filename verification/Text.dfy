/** String operations the library takes from Python: split and join, first and last partition,
    strip, and the code-point order in which registries list their names. */
module Text {

  // ---------- split and join ----------

  /** `s.split(sep)` for a one-character separator. */
  function Split(s: string, sep: char): (parts: seq<string>)
    ensures |parts| >= 1
    ensures forall p | p in parts :: sep !in p
  {
    if s == "" then [""]
    else
      var rest := Split(s[1..], sep);
      if s[0] == sep then [""] + rest else [[s[0]] + rest[0]] + rest[1..]
  }

  /** `sep.join(parts)`. */
  function Join(parts: seq<string>, sep: char): string {
    if parts == [] then ""
    else if |parts| == 1 then parts[0] else parts[0] + [sep] + Join(parts[1..], sep)
  }

  lemma {:induction false} SplitWord(p: string, sep: char)
    requires sep !in p
    ensures Split(p, sep) == [p]
  {
    if p != "" {
      SplitWord(p[1..], sep);
      assert [p[0]] + p[1..] == p;
    }
  }

  lemma {:induction false} SplitHead(p: string, tail: string, sep: char)
    requires sep !in p
    ensures Split(p + [sep] + tail, sep) == [p] + Split(tail, sep)
  {
    var s := p + [sep] + tail;
    if p == "" {
      assert s[1..] == tail;
    } else {
      assert s[1..] == p[1..] + [sep] + tail;
      SplitHead(p[1..], tail, sep);
      assert [p[0]] + p[1..] == p;
    }
  }

  /** Splitting undoes joining when no part holds the separator. */
  lemma {:induction false} SplitJoin(parts: seq<string>, sep: char)
    requires |parts| >= 1
    requires forall p | p in parts :: sep !in p
    ensures Split(Join(parts, sep), sep) == parts
  {
    if |parts| == 1 {
      SplitWord(parts[0], sep);
    } else {
      SplitJoin(parts[1..], sep);
      SplitHead(parts[0], Join(parts[1..], sep), sep);
    }
  }

  // ---------- partition ----------

  /** Position of the first `c`, or the length when there is none. */
  function Find(s: string, c: char): (i: nat)
    ensures i <= |s|
    ensures c !in s[..i]
    ensures i < |s| ==> s[i] == c
  {
    if s == "" || s[0] == c then 0
    else
      var i := 1 + Find(s[1..], c);
      assert s[..i] == [s[0]] + s[1..][..i - 1];
      i
  }

  /** Position just after the last `c`, or 0 when there is none. */
  function AfterLast(s: string, c: char): (i: nat)
    ensures i <= |s|
    ensures c !in s[i..]
    ensures i > 0 ==> s[i - 1] == c
  {
    if s == "" || s[|s| - 1] == c then |s|
    else
      var i := AfterLast(s[..|s| - 1], c);
      assert s[i..] == s[..|s| - 1][i..] + [s[|s| - 1]];
      i
  }

  lemma FindUnique(head: string, tail: string, c: char)
    requires c !in head
    ensures Find(head + [c] + tail, c) == |head|
  {
    var s := head + [c] + tail;
    var i := Find(s, c);
    assert forall k | 0 <= k < |head| :: s[k] == head[k];
    assert s[|head|] == c;
    assert forall k | 0 <= k < i :: s[k] in s[..i];
  }

  lemma {:induction false} AfterLastUnique(head: string, tail: string, c: char)
    requires c !in tail
    ensures AfterLast(head + [c] + tail, c) == |head| + 1
  {
    var s := head + [c] + tail;
    if tail == "" {
      assert s[|s| - 1] == c;
    } else {
      assert s[|s| - 1] == tail[|tail| - 1];
      assert s[..|s| - 1] == head + [c] + tail[..|tail| - 1];
      AfterLastUnique(head, tail[..|tail| - 1], c);
    }
  }

  // ---------- strip ----------

  /** The ASCII characters `str.strip()` removes: tab to carriage return, the four separators, space. */
  predicate IsBlank(c: char) {
    9 as char <= c <= 13 as char || 28 as char <= c <= 31 as char || c == ' '
  }

  function StripLeft(s: string): (r: string)
    ensures r == "" || !IsBlank(r[0])
    ensures forall c | c in r :: c in s
  {
    if s != "" && IsBlank(s[0]) then StripLeft(s[1..]) else s
  }

  function StripRight(s: string): (r: string)
    ensures r <= s
    ensures r == "" || !IsBlank(r[|r| - 1])
  {
    if s != "" && IsBlank(s[|s| - 1]) then StripRight(s[..|s| - 1]) else s
  }

  /** `s.strip()`: no blank at either end, and nothing new inside. */
  function Strip(s: string): (r: string)
    ensures r == "" || (!IsBlank(r[0]) && !IsBlank(r[|r| - 1]))
    ensures forall c | c in r :: c in s
  {
    StripRight(StripLeft(s))
  }

  lemma StripIdempotent(s: string)
    ensures Strip(Strip(s)) == Strip(s)
  {
  }

  lemma {:induction false} StripLeftShortens(s: string)
    ensures |StripLeft(s)| <= |s| && (|StripLeft(s)| == |s| ==> StripLeft(s) == s)
  {
    if s != "" && IsBlank(s[0]) {
      StripLeftShortens(s[1..]);
    }
  }

  /** Stripping shortens whatever it changes. */
  lemma StripShortens(s: string)
    ensures |Strip(s)| <= |s| && (|Strip(s)| == |s| ==> Strip(s) == s)
  {
    StripLeftShortens(s);
  }

  predicate AllBlank(s: string) {
    forall i | 0 <= i < |s| :: IsBlank(s[i])
  }

  lemma {:induction false} LeftBlanks(s: string) returns (l: string)
    ensures s == l + StripLeft(s) && AllBlank(l)
  {
    if s != "" && IsBlank(s[0]) {
      var rest := LeftBlanks(s[1..]);
      l := [s[0]] + rest;
    } else {
      l := "";
    }
  }

  lemma {:induction false} RightBlanks(s: string) returns (r: string)
    ensures s == StripRight(s) + r && AllBlank(r)
  {
    if s != "" && IsBlank(s[|s| - 1]) {
      var rest := RightBlanks(s[..|s| - 1]);
      r := rest + [s[|s| - 1]];
    } else {
      r := "";
    }
  }

  /** What stripping takes off is blank; what it leaves has no blank at its ends. */
  lemma StripTakesBlanks(s: string) returns (l: string, r: string)
    ensures s == l + Strip(s) + r && AllBlank(l) && AllBlank(r)
    ensures Strip(s) == "" || !(IsBlank(Strip(s)[0]) || IsBlank(Strip(s)[|Strip(s)| - 1]))
  {
    l := LeftBlanks(s);
    r := RightBlanks(StripLeft(s));
    assert s == l + (Strip(s) + r);
  }

  function TrimLeft(s: string, c: char): (r: string)
    ensures |r| <= |s|
    ensures r == "" || r[0] != c
    ensures s == "" || s[0] != c ==> r == s
  {
    if s != "" && s[0] == c then TrimLeft(s[1..], c) else s
  }

  function TrimRight(s: string, c: char): (r: string)
    ensures r <= s
    ensures r == "" || r[|r| - 1] != c
    ensures s == "" || s[|s| - 1] != c ==> r == s
  {
    if s != "" && s[|s| - 1] == c then TrimRight(s[..|s| - 1], c) else s
  }

  /** `s.strip(c)` for one character. */
  function Trim(s: string, c: char): (r: string)
    ensures |r| <= |s|
    ensures r == "" || (r[0] != c && r[|r| - 1] != c)
    ensures s == "" || (s[0] != c && s[|s| - 1] != c) ==> r == s
  {
    TrimRight(TrimLeft(s, c), c)
  }

  // ---------- order ----------

  /** Python's `<=` on strings. */
  predicate Le(a: string, b: string) {
    if a == "" then true
    else if b == "" then false
    else a[0] < b[0] || (a[0] == b[0] && Le(a[1..], b[1..]))
  }

  /** The first position at which two strings differ, or at which the shorter ends. */
  function FirstDifference(a: string, b: string): (i: nat)
    ensures i <= |a| && i <= |b| && a[..i] == b[..i]
    ensures i < |a| && i < |b| ==> a[i] != b[i]
  {
    if a == "" || b == "" || a[0] != b[0] then 0
    else
      var i := 1 + FirstDifference(a[1..], b[1..]);
      assert a[..i] == [a[0]] + a[1..][..i - 1] && b[..i] == [b[0]] + b[1..][..i - 1];
      i
  }

  /** The order is by code point at the first difference; a prefix comes first. */
  lemma {:induction false} LeIff(a: string, b: string)
    ensures var i := FirstDifference(a, b);
            Le(a, b) <==> i == |a| || (i < |b| && a[i] < b[i])
  {
    if a != "" && b != "" && a[0] == b[0] {
      LeIff(a[1..], b[1..]);
    }
  }

  lemma LeTotal(a: string, b: string)
    ensures Le(a, b) || Le(b, a)
  {
  }

  lemma {:induction false} LeAntisymmetric(a: string, b: string)
    requires Le(a, b) && Le(b, a)
    ensures a == b
  {
    if a != "" && b != "" {
      LeAntisymmetric(a[1..], b[1..]);
      assert a == [a[0]] + a[1..] && b == [b[0]] + b[1..];
    }
  }

  lemma {:induction false} LeTransitive(a: string, b: string, c: string)
    requires Le(a, b) && Le(b, c)
    ensures Le(a, c)
  {
    if a != "" && b != "" && c != "" && a[0] == b[0] == c[0] {
      LeTransitive(a[1..], b[1..], c[1..]);
    }
  }

  ghost predicate IsLeast(m: string, names: set<string>) {
    m in names && forall x | x in names :: Le(m, x)
  }

  lemma {:induction false} LeastExists(names: set<string>)
    requires names != {}
    ensures exists m :: IsLeast(m, names)
    decreases |names|
  {
    var x :| x in names;
    var rest := names - {x};
    if rest == {} {
      LeTotal(x, x);
      assert names == {x} by { assert names == rest + {x}; }
      assert IsLeast(x, names);
    } else {
      LeastExists(rest);
      var m :| IsLeast(m, rest);
      LeTotal(x, m);
      if Le(m, x) {
        assert IsLeast(m, names);
      } else {
        LeTotal(x, x);
        forall y | y in names ensures Le(x, y) {
          if y in rest { LeTransitive(x, m, y); }
        }
        assert IsLeast(x, names);
      }
    }
  }

  ghost predicate Ascending(s: seq<string>) {
    forall i, j | 0 <= i < j < |s| :: Le(s[i], s[j]) && s[i] != s[j]
  }

  lemma LeastFirst(m: string, names: set<string>, rest: seq<string>)
    requires IsLeast(m, names) && Ascending(rest)
    requires forall x :: x in rest <==> x in names - {m}
    ensures Ascending([m] + rest)
    ensures forall x :: x in [m] + rest <==> x in names
  {
    var s := [m] + rest;
    forall i, j | 0 <= i < j < |s| ensures Le(s[i], s[j]) && s[i] != s[j] {
      assert s[j] == rest[j - 1] && rest[j - 1] in rest;
      assert rest[j - 1] in names - {m};
      if i > 0 {
        assert s[i] == rest[i - 1];
      }
    }
    forall x ensures x in s <==> x in names {
      assert x in s <==> x == m || x in rest;
    }
  }

  lemma FirstIsMember<T>(s: seq<T>)
    ensures |s| > 0 ==> s[0] in s
  {
  }

  /** `sorted(names)` for a set of names. */
  ghost function Sorted(names: set<string>): (s: seq<string>)
    ensures Ascending(s)
    ensures forall x :: x in s <==> x in names
    ensures |s| == |names|
    decreases |names|
  {
    if names == {} then []
    else
      LeastExists(names);
      var m :| IsLeast(m, names);
      var rest := Sorted(names - {m});
      LeastFirst(m, names, rest);
      [m] + rest
  }

  /** The ascending listing of a set is unique, so `sorted` leaves no choice. */
  lemma {:induction false} AscendingUnique(s: seq<string>, t: seq<string>)
    requires Ascending(s) && Ascending(t)
    requires forall x :: x in s <==> x in t
    ensures s == t
  {
    if s == [] {
      FirstIsMember(t);
    } else {
      assert s[0] in t;
      assert t[0] in s;
      var i :| 0 <= i < |t| && t[i] == s[0];
      var j :| 0 <= j < |s| && s[j] == t[0];
      if i > 0 && j > 0 {
        assert Le(t[0], t[i]) && Le(s[0], s[j]);
        LeAntisymmetric(s[0], t[0]);
      }
      assert s[0] == t[0];
      forall x ensures x in s[1..] <==> x in t[1..] {
        if x in s[1..] {
          var a :| 1 <= a < |s| && s[a] == x;
          assert s[0] != s[a];
          assert x in t;
        }
        if x in t[1..] {
          var a :| 1 <= a < |t| && t[a] == x;
          assert t[0] != t[a];
          assert x in s;
        }
      }
      AscendingUnique(s[1..], t[1..]);
      assert s == [s[0]] + s[1..] && t == [t[0]] + t[1..];
    }
  }

  /** `sorted(names)` by repeated selection of the least remaining name. */
  method SortNames(names: set<string>) returns (s: seq<string>)
    ensures s == Sorted(names)
  {
    s := [];
    var rest := names;
    while rest != {}
      invariant rest <= names
      invariant Ascending(s)
      invariant forall x :: x in s <==> x in names - rest
      invariant forall x, y | x in s && y in rest :: Le(x, y)
      decreases |rest|
    {
      LeastExists(rest);
      var m :| m in rest && forall x | x in rest :: Le(m, x);
      assert m !in s;
      s := s + [m];
      rest := rest - {m};
    }
    AscendingUnique(s, Sorted(names));
  }
}
