/** Absolute slash-separated paths, as path/filepath treats them. */
module Paths {
  import opened Strings

  /** What is left of `parts` behind `done` once empty parts, "." and ".." are worked off. */
  function Reduce(parts: seq<string>, done: seq<string>): (r: seq<string>)
    requires Tidy(done)
    ensures Tidy(r)
    decreases |parts|
  {
    if parts == [] then done
    else if parts[0] == "" || parts[0] == "." then Reduce(parts[1..], done)
    else if parts[0] == ".." then Reduce(parts[1..], if done == [] then [] else done[..|done| - 1])
    else Reduce(parts[1..], done + [parts[0]])
  }

  predicate CleanComponent(c: string) {
    c != "" && c != "." && c != ".." && '/' !in c
  }

  predicate Tidy(parts: seq<string>) {
    forall i | 0 <= i < |parts| :: parts[i] != "" && parts[i] != "." && parts[i] != ".."
  }

  function Components(path: string): (r: seq<string>)
    ensures Tidy(r)
  {
    Reduce(Split(path, "/"), [])
  }

  function Render(components: seq<string>): string {
    "/" + Join(components, "/")
  }

  /** filepath.Join of an absolute path and one more element. */
  function JoinPath(path: string, elem: string): string {
    Render(Components(path + "/" + elem))
  }

  /** filepath.Rel between absolute paths, component by component. */
  function Rel(base: seq<string>, full: seq<string>): seq<string> {
    if base == [] then full
    else if full != [] && base[0] == full[0] then Rel(base[1..], full[1..])
    else seq(|base|, i => "..") + full
  }

  predicate StartsWithBackstep(rel: seq<string>) {
    rel != [] && rel[0] == ".."
  }

  predicate PathWithinBase(fullPath: string, basePath: string) {
    !StartsWithBackstep(Rel(Components(basePath), Components(fullPath)))
  }

  lemma {:induction false} BackstepIsOutside(base: seq<string>, full: seq<string>)
    requires Tidy(full)
    ensures !StartsWithBackstep(Rel(base, full)) <==> base <= full
  {
    if base == [] {
    } else if full != [] && base[0] == full[0] {
      BackstepIsOutside(base[1..], full[1..]);
      assert base == [base[0]] + base[1..] && full == [full[0]] + full[1..];
    } else {
      assert full == [] || full[0] != base[0];
    }
  }

  /** A path lies within a base exactly if the base's components are the first of the path's. */
  lemma WithinIsPrefix(fullPath: string, basePath: string)
    ensures PathWithinBase(fullPath, basePath) <==> Components(basePath) <= Components(fullPath)
  {
    BackstepIsOutside(Components(basePath), Components(fullPath));
  }

  // ----- what the components of a path are

  lemma {:induction false} ReduceOn(a: seq<string>, b: seq<string>, done: seq<string>)
    requires Tidy(done)
    ensures Reduce(a + b, done) == Reduce(b, Reduce(a, done))
    decreases |a|
  {
    if a == [] {
      assert a + b == b;
    } else {
      assert (a + b)[1..] == a[1..] + b;
      var next := if a[0] == "" || a[0] == "." then done
                  else if a[0] == ".." then if done == [] then [] else done[..|done| - 1]
                  else done + [a[0]];
      ReduceOn(a[1..], b, next);
    }
  }

  lemma AtFirstSlash(s: string)
    requires Contains(s, "/")
    ensures var i := Index(s, "/"); i < |s| && '/' !in s[..i] && s == s[..i] + "/" + s[i + 1..]
  {
    var i := Index(s, "/");
    CharOccurs(s, '/', i);
    forall j: nat | j < i ensures s[..i][j] != '/' {
      CharOccurs(s, '/', j);
    }
    CutAt(s, i, '/');
  }

  lemma CutAt(s: string, i: nat, c: char)
    requires i < |s| && s[i] == c
    ensures s == s[..i] + [c] + s[i + 1..]
  {
  }

  lemma SplitFirst(first: string, rest: string, elem: string)
    requires '/' !in first
    ensures Split(first + "/" + rest, "/") == [first] + Split(rest, "/")
    ensures Split(first + "/" + rest + "/" + elem, "/") == [first] + Split(rest + "/" + elem, "/")
  {
    FirstChar(first, '/', rest);
    FirstChar(first, '/', rest + "/" + elem);
    Slashes(first, rest, elem);
  }

  lemma Slashes(a: string, b: string, c: string)
    ensures a + "/" + (b + "/" + c) == a + "/" + b + "/" + c
  {
  }

  lemma {:induction false} SplitOneMore(s: string, elem: string)
    requires '/' !in elem
    ensures Split(s + "/" + elem, "/") == Split(s, "/") + [elem]
    decreases |s|
  {
    var i := Index(s, "/");
    if i < 0 {
      ContainsChar(s, '/');
      FirstChar(s, '/', elem);
      ContainsChar(elem, '/');
      SplitFree(elem, "/");
    } else {
      AtFirstSlash(s);
      SplitFirst(s[..i], s[i + 1..], elem);
      SplitOneMore(s[i + 1..], elem);
    }
  }

  /** One more element: a name is added, an empty one and "." change nothing, ".." takes the last component off. */
  lemma ComponentsOneMore(path: string, elem: string)
    requires '/' !in elem
    ensures Components(path + "/" + elem) ==
      if elem == "" || elem == "." then Components(path)
      else if elem == ".." then if Components(path) == [] then [] else Components(path)[..|Components(path)| - 1]
      else Components(path) + [elem]
  {
    SplitOneMore(path, elem);
    ReduceOn(Split(path, "/"), [elem], []);
  }

  /** Clean components are those of the path they make. */
  lemma {:induction false} ComponentsOfRendered(components: seq<string>)
    requires forall c | c in components :: CleanComponent(c)
    ensures Components(Render(components)) == components
  {
    var n := |components|;
    if n < 2 {
      var name := Join(components, "/");
      assert n == 1 ==> name == components[0] && CleanComponent(components[0]);
      NoComponents();
      ComponentsOneMore("", name);
      assert Render(components) == "" + "/" + name;
    } else {
      var init, last := components[..n - 1], components[n - 1];
      ComponentsOfRendered(init);
      JoinLast(init, last);
      assert last in components && components == init + [last];
      ComponentsOneMore(Render(init), last);
      assert Render(components) == Render(init) + "/" + last;
    }
  }

  lemma NoComponents()
    ensures Components("") == []
  {
    ContainsChar("", '/');
    SplitFree("", "/");
  }

  lemma {:induction false} JoinLast(parts: seq<string>, last: string)
    requires parts != []
    ensures Join(parts + [last], "/") == Join(parts, "/") + "/" + last
  {
    var all := parts + [last];
    if |parts| == 1 {
      assert all[1..] == [last];
    } else {
      assert all[1..] == parts[1..] + [last];
      JoinLast(parts[1..], last);
    }
  }

  lemma SplitChild(dir: string, c: string)
    requires '/' !in dir && '/' !in c
    ensures Split("/" + dir + "/" + c, "/") == ["", dir, c]
  {
    SplitJoin(["", dir, c], '/');
    assert ["", dir, c][1..] == [dir, c] && [dir, c][1..] == [c];
    assert Join([dir, c], "/") == dir + "/" + c;
    assert Join(["", dir, c], "/") == "" + "/" + (dir + "/" + c) == "/" + dir + "/" + c;
  }

  lemma JoinChild(dir: string, c: string)
    requires CleanComponent(dir) && CleanComponent(c)
    ensures JoinPath("/" + dir, c) == "/" + dir + "/" + c
  {
    SplitChild(dir, c);
    var parts := ["", dir, c];
    assert parts[1..] == [dir, c] && [dir, c][1..] == [c] && [c][1..] == [];
    assert Reduce(parts, []) == Reduce([dir, c], []);
    assert [] + [dir] == [dir] && [dir] + [c] == [dir, c];
    assert Reduce([dir, c], []) == Reduce([c], [dir]) == Reduce([], [dir, c]);
    assert Join([dir, c], "/") == dir + "/" + c;
  }
}
