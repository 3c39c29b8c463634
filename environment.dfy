/** The parts of the host environment the core consults: which paths exist
    and are directories, which missing directories could be created, and
    the textual path operations `Path::join`, `Path::parent` and
    `Path::file_name` on '/'-separated paths. */
module Environment {
  import opened Wrappers
  import opened Text

  datatype FileSystem = FileSystem(existing: set<string>, directories: set<string>, creatable: set<string>)
  {
    predicate Exists(p: string) { p in existing }

    /** `is_dir` is false for a path that does not exist. */
    predicate IsDir(p: string) { p in existing && p in directories }
  }

  /** How much of the path comes before its first trimmable component:
      a root '/', or a leading "." that is the whole path or is followed by
      '/' (the current-directory component `components()` keeps). */
  function BeforeBody(p: string): (n: nat)
    ensures n <= |p| && n <= 1
    ensures n == 1 <==> p != [] && (p[0] == '/' || (p[0] == '.' && (|p| == 1 || p[1] == '/')))
  {
    if p != [] && (p[0] == '/' || (p[0] == '.' && (|p| == 1 || p[1] == '/'))) then 1 else 0
  }

  /** The path ends in a "." component after a separator. */
  predicate EndsWithDotComponent(p: string) {
    |p| >= 2 && p[|p| - 1] == '.' && p[|p| - 2] == '/'
  }

  /** What `Components::as_path` keeps at the back: the path without its
      trailing separators and its trailing "." components, stopping at the
      root or the leading ".". */
  function TrimBack(p: string): (r: string)
    ensures r <= p
    ensures |r| <= BeforeBody(r) || (r[|r| - 1] != '/' && !EndsWithDotComponent(r))
    ensures forall k :: |r| <= k < |p| ==> p[k] == '/' || p[k] == '.'
    decreases |p|
  {
    if |p| <= BeforeBody(p) then p
    else if p[|p| - 1] == '/' || EndsWithDotComponent(p) then TrimBack(p[..|p| - 1])
    else p
  }

  /** The text after the last '/', or all of it. */
  function LastComponent(q: string): (c: string)
    ensures |c| <= |q| && q[|q| - |c|..] == c && '/' !in c
    ensures |c| < |q| ==> q[|q| - |c| - 1] == '/'
    ensures |q| > BeforeBody(q) && q[|q| - 1] != '/' && !EndsWithDotComponent(q) ==> c != [] && c != "."
  {
    match FindLast(q, "/")
    case None =>
      assert '/' !in q by {
        forall k | 0 <= k < |q| ensures q[k] != '/' {
          assert !OccursAt(q, "/", k);
          assert q[k..k + 1] == [q[k]];
        }
      }
      q
    case Some(i) =>
      var last := q[i + 1..];
      assert '/' !in last by {
        forall k | 0 <= k < |last| ensures last[k] != '/' {
          assert !OccursAt(q, "/", i + 1 + k);
          assert q[i + 1 + k..i + 2 + k] == [last[k]];
        }
      }
      assert q[i..i + 1] == "/";
      last
  }

  /** `Path::join` with a relative component. */
  function Join(base: string, component: string): (r: string)
    ensures |component| <= |r| && r[|r| - |component|..] == component
    ensures base != [] ==> base <= r
  {
    if base == [] then component
    else if base[|base| - 1] == '/' then base + component
    else base + "/" + component
  }

  /** `Path::file_name`: the last component of the path once trailing
      separators and "." components are trimmed, unless there is none
      (the root, a lone ".", or "") or it is "..". */
  function FileName(p: string): (r: Option<string>)
    ensures r.Some? ==> r.value != [] && '/' !in r.value && r.value != "." && r.value != ".."
    ensures r.Some? ==>
      var q := TrimBack(p);
      |r.value| <= |q| && q[|q| - |r.value|..] == r.value && (|r.value| == |q| || q[|q| - |r.value| - 1] == '/')
    ensures r.None? <==> |TrimBack(p)| <= BeforeBody(TrimBack(p)) || LastComponent(TrimBack(p)) == ".."
  {
    var q := TrimBack(p);
    if |q| <= BeforeBody(q) then None
    else
      var last := LastComponent(q);
      if last == ".." then None else Some(last)
  }

  /** `Path::parent`: None for "" and for the root; otherwise the path
      without its last component, trimmed the same way ("" for a single
      relative component or a lone "."). */
  function Parent(p: string): (r: Option<string>)
    ensures r.None? <==> TrimBack(p) == [] || TrimBack(p) == "/"
    ensures r.Some? ==> r.value <= p && |r.value| < |p|
  {
    var q := TrimBack(p);
    if |q| <= BeforeBody(q) then
      if q == "." then Some([]) else None
    else
      var rest := q[..|q| - |LastComponent(q)|];
      var r := TrimBack(rest);
      assert r <= rest <= q <= p;
      Some(r)
  }

  /** A component `file_name` can return: not empty, not "." or "..". */
  predicate NormalComponent(c: string) {
    c != [] && '/' !in c && c != "." && c != ".."
  }

  /** Trimming removes a trailing separator or "." component after a
      non-empty path. */
  lemma TrimBackTrailing(p: string)
    requires p != []
    ensures TrimBack(p + "/") == TrimBack(p) && TrimBack(p + "/.") == TrimBack(p)
  {
    var q := p + "/";
    assert |q| > BeforeBody(q) && q[|q| - 1] == '/';
    assert q[..|q| - 1] == p;
    var d := p + "/.";
    assert |d| > BeforeBody(d) && EndsWithDotComponent(d);
    assert d[..|d| - 1] == q;
  }

  /** Trailing separators and "." components change neither the file
      name nor the parent: "proj/." names "proj" and "a/b/." has parent "a". */
  lemma TrailingDotIgnored(p: string)
    requires p != []
    ensures FileName(p + "/") == FileName(p) && FileName(p + "/.") == FileName(p)
    ensures Parent(p + "/") == Parent(p) && Parent(p + "/.") == Parent(p)
  {
    TrimBackTrailing(p);
    var t := TrimBack(p);
    assert FileName(p + "/") == FileName(p) by { assert TrimBack(p + "/") == t; }
    assert FileName(p + "/.") == FileName(p) by { assert TrimBack(p + "/.") == t; }
    assert Parent(p + "/") == Parent(p) by { assert TrimBack(p + "/") == t; }
    assert Parent(p + "/.") == Parent(p) by { assert TrimBack(p + "/.") == t; }
  }

  /** A path that ends in neither a separator nor a "." component is
      left as it is. */
  lemma TrimBackKeeps(q: string)
    requires |q| > BeforeBody(q) && q[|q| - 1] != '/' && !EndsWithDotComponent(q)
    ensures TrimBack(q) == q
  {
  }

  /** The last component of text after a separator is all of that text
      when it holds no separator. */
  lemma LastComponentAfter(a: string, c: string)
    requires '/' !in c
    ensures LastComponent(a + "/" + c) == c
  {
    var q := a + "/" + c;
    var last := LastComponent(q);
    assert q[|q| - |c| - 1] == '/';
    forall k | |q| - |c| <= k < |q|
      ensures q[k] != '/'
    {
      assert q[k] == c[k - (|q| - |c|)];
      assert c[k - (|q| - |c|)] in c;
    }
    forall k | |q| - |last| <= k < |q|
      ensures q[k] != '/'
    {
      assert q[k] == last[k - (|q| - |last|)];
      assert last[k - (|q| - |last|)] in last;
    }
  }

  /** Text without a separator is its own last component. */
  lemma LastComponentWhole(c: string)
    requires '/' !in c
    ensures LastComponent(c) == c
  {
    forall k | 0 <= k < |c|
      ensures c[k] != '/'
    {
      assert c[k] in c;
    }
  }

  /** A normal component after a separator is the file name, and the
      parent is what precedes the separator. */
  lemma FileNameAfterSeparator(a: string, c: string)
    requires NormalComponent(c)
    ensures FileName(a + "/" + c) == Some(c)
    ensures Parent(a + "/" + c) == Some(TrimBack(a + "/"))
  {
    var q := a + "/" + c;
    assert q[|q| - 1] == c[|c| - 1] && q[|q| - 1] != '/';
    assert q[|q| - 2] != '/' || |c| == 1 by {
      if |c| >= 2 { assert q[|q| - 2] == c[|c| - 2]; assert c[|c| - 2] in c; }
    }
    TrimBackKeeps(q);
    LastComponentAfter(a, c);
    assert q[..|q| - |c|] == a + "/";
  }

  /** A single normal component is its own file name, and its parent is "". */
  lemma FileNameOfComponent(c: string)
    requires NormalComponent(c)
    ensures FileName(c) == Some(c) && Parent(c) == Some([])
  {
    assert c[0] != '/' by { assert c[0] in c; }
    assert |c| >= 2 ==> c[1] != '/' && c[|c| - 2] != '/' by {
      if |c| >= 2 { assert c[1] in c; assert c[|c| - 2] in c; }
    }
    assert BeforeBody(c) == 0;
    TrimBackKeeps(c);
    LastComponentWhole(c);
    assert c[..0] == [];
  }
}
