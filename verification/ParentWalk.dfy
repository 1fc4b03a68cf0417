/**
 rootfsParentMountPrivate: walking up from the root file system until a path is a
 mount point. filepath.Dir is modelled on absolute paths, cleaned or not.
 */
module ParentWalk {
  import opened Wrappers

  /** A path as it stands between two components: empty, or beginning with a slash. */
  predicate Rooted(p: string) { p == "" || p[0] == '/' }

  predicate Absolute(p: string) { p != "" && p[0] == '/' }

  function LastSlash(p: string): (i: nat)
    requires Absolute(p)
    ensures i < |p| && p[i] == '/' && forall j :: i < j < |p| ==> p[j] != '/'
  {
    if p[|p| - 1] == '/' then |p| - 1 else LastSlash(p[..|p| - 1])
  }

  /** The names that filepath.Clean leaves of a rooted path: empty names and dots go,
      and dot-dot takes the name before it. */
  function Names(p: string): seq<string>
    requires Rooted(p)
    decreases |p|
  {
    if p == "" then []
    else
      var i := LastSlash(p);
      var before := Names(p[..i]);
      var name := p[i + 1..];
      if name == "" || name == "." then before
      else if name == ".." then if before == [] then [] else before[..|before| - 1]
      else before + [name]
  }

  function Render(names: seq<string>): string {
    if names == [] then "" else Render(names[..|names| - 1]) + "/" + names[|names| - 1]
  }

  function Clean(p: string): string
    requires Absolute(p)
  {
    if Names(p) == [] then "/" else Render(Names(p))
  }

  function Dir(p: string): string
    requires Absolute(p)
  {
    Clean(p[..LastSlash(p) + 1])
  }

  lemma {:induction false} RenderIsShort(p: string)
    requires Rooted(p)
    ensures |Render(Names(p))| <= |p|
    decreases |p|
  {
    if p != "" {
      var i := LastSlash(p);
      RenderIsShort(p[..i]);
      var before := Names(p[..i]);
      if before != [] {
        assert Render(before) == Render(before[..|before| - 1]) + "/" + before[|before| - 1];
      }
      assert (before + [p[i + 1..]])[..|before|] == before;
    }
  }

  lemma RenderIsRooted(names: seq<string>)
    ensures names != [] ==> Absolute(Render(names))
  {
    if |names| > 1 {
      RenderIsRooted(names[..|names| - 1]);
    }
  }

  lemma LastSlashIs(p: string, i: nat)
    requires Absolute(p) && i < |p| && p[i] == '/' && forall j :: i < j < |p| ==> p[j] != '/'
    ensures LastSlash(p) == i
  {}

  /** A trailing slash names nothing. */
  lemma SlashAtEnd(q: string)
    requires Absolute(q) && q[|q| - 1] == '/'
    ensures Rooted(q[..|q| - 1]) && Names(q) == Names(q[..|q| - 1])
  {
    LastSlashIs(q, |q| - 1);
    hide LastSlash;
    assert q[|q| - 1 + 1..] == "";
  }

  lemma DirIs(p: string)
    requires Absolute(p)
    ensures var names := Names(p[..LastSlash(p)]);
            Dir(p) == if names == [] then "/" else Render(names)
  {
    var i := LastSlash(p);
    SlashAtEnd(p[..i + 1]);
    assert p[..i + 1][..i] == p[..i];
    hide LastSlash, Names, Render;
  }

  /** Every step up makes the path strictly shorter until it is "/". */
  lemma DirShrinks(p: string)
    requires Absolute(p)
    ensures Absolute(Dir(p))
    ensures p != "/" ==> |Dir(p)| < |p|
    ensures p == "/" ==> Dir(p) == "/"
  {
    var i := LastSlash(p);
    DirIs(p);
    RenderIsShort(p[..i]);
    RenderIsRooted(Names(p[..i]));
    hide Dir, Names, Render, LastSlash;
  }

  predicate IsName(c: string) { c != "" && c != "." && c != ".." && '/' !in c }

  predicate AreNames(names: seq<string>) { forall k :: 0 <= k < |names| ==> IsName(names[k]) }

  /** Where the last name of a rendered path begins. */
  lemma LastOfRender(names: seq<string>)
    requires names != [] && '/' !in names[|names| - 1]
    ensures var p, up := Render(names), Render(names[..|names| - 1]);
            && Absolute(p) && LastSlash(p) == |up|
            && p[..|up|] == up && p[|up| + 1..] == names[|names| - 1]
  {
    var p, up, last := Render(names), Render(names[..|names| - 1]), names[|names| - 1];
    RenderIsRooted(names);
    assert p == up + "/" + last;
    var i := LastSlash(p);
    hide Render, LastSlash;
    assert p[|up|] == '/';
    forall j | |up| < j < |p|
      ensures p[j] != '/'
    {
      assert p[j] == last[j - |up| - 1];
    }
    LastSlashIs(p, |up|);
  }

  lemma {:induction false} NamesOfRender(names: seq<string>)
    requires AreNames(names)
    ensures Rooted(Render(names)) && Names(Render(names)) == names
  {
    if names == [] {
    } else {
      NamesOfRender(names[..|names| - 1]);
      assert IsName(names[|names| - 1]);
      LastOfRender(names);
      hide Render, LastSlash;
      assert names[..|names| - 1] + [names[|names| - 1]] == names;
    }
  }

  /** On a cleaned path Dir is the parent. */
  lemma DirIsParent(names: seq<string>)
    requires names != [] && AreNames(names)
    ensures Absolute(Render(names))
    ensures Dir(Render(names)) == if |names| == 1 then "/" else Render(names[..|names| - 1])
  {
    var p, up := Render(names), names[..|names| - 1];
    assert IsName(names[|names| - 1]);
    LastOfRender(names);
    DirIs(p);
    NamesOfRender(up);
    hide Render, LastSlash, Names, Dir;
  }

  /** What one more component does to a path. */
  lemma OneMore(p: string, c: string)
    requires Rooted(p) && '/' !in c
    ensures var q := p + "/" + c;
            && Absolute(q) && LastSlash(q) == |p|
            && (c == "" || c == "." ==> Names(q) == Names(p))
            && (c == ".." ==> Names(q) == if Names(p) == [] then [] else Names(p)[..|Names(p)| - 1])
            && (IsName(c) ==> Names(q) == Names(p) + [c])
  {
    var q := p + "/" + c;
    assert q[|p|] == '/';
    forall j | |p| < j < |q|
      ensures q[j] != '/'
    {
      assert q[j] == c[j - |p| - 1];
    }
    LastSlashIs(q, |p|);
    assert q[..|p|] == p && q[|p| + 1..] == c;
    hide LastSlash;
  }

  /** The path of these names, which is "/" when there are none. */
  function PathOf(names: seq<string>): string { if names == [] then "/" else Render(names) }

  lemma DirOfOneMore(q: string, c: string, m: string)
    requires Rooted(q) && '/' !in c && '/' !in m
    ensures var p := q + "/" + c + "/" + m;
            Absolute(p) && Absolute(q + "/" + c) && Dir(p) == PathOf(Names(q + "/" + c))
    ensures c == "" || c == "." ==> Names(q + "/" + c) == Names(q)
    ensures c == ".." ==> Names(q + "/" + c) == if Names(q) == [] then [] else Names(q)[..|Names(q)| - 1]
  {
    var u := q + "/" + c;
    OneMore(q, c);
    OneMore(u, m);
    DirIs(u + "/" + m);
    assert (u + "/" + m)[..|u|] == u;
    hide Names, Dir, Render, LastSlash;
  }

  /** On a path that is not cleaned: dot-dot goes up once more, "/" being its own parent,
      and a dot or an empty component goes nowhere. */
  lemma DirOfDots(names: seq<string>, dots: string, m: string)
    requires AreNames(names) && dots in {"", ".", ".."} && '/' !in m
    ensures var p := Render(names) + "/" + dots + "/" + m;
            && Absolute(p)
            && Dir(p) == PathOf(if dots == ".." && names != [] then names[..|names| - 1] else names)
  {
    NamesOfRender(names);
    hide Render, Names, Dir, LastSlash, PathOf;
    DirOfOneMore(Render(names), dots, m);
  }

  /** All the paths of the walk, the last one being "/". */
  function Chain(p: string): (c: seq<string>)
    requires Absolute(p)
    ensures c != [] && c[0] == p && c[|c| - 1] == "/"
    decreases |p|
  {
    DirShrinks(p);
    if p == "/" then [p] else [p] + Chain(Dir(p))
  }

  /** What mount(2) answers for a path: EINVAL means that it is no mount point. */
  datatype Answer = Mounted | Invalid | OtherError

  /** The first path of the walk that does not answer EINVAL, and its place. */
  predicate Decides(chain: seq<string>, answer: string -> Answer, i: nat) {
    && i < |chain| && answer(chain[i]) != Invalid
    && forall j :: 0 <= j < i ==> answer(chain[j]) == Invalid
  }

  /** The walk step by step: each path is the Dir of the one before. */
  lemma {:induction false} ChainAt(p: string, n: nat)
    requires Absolute(p) && n < |Chain(p)|
    ensures Absolute(Chain(p)[n])
    ensures n + 1 < |Chain(p)| <==> Chain(p)[n] != "/"
    ensures n + 1 < |Chain(p)| ==> Chain(p)[n + 1] == Dir(Chain(p)[n]) && |Chain(p)[n + 1]| < |Chain(p)[n]|
    decreases n
  {
    DirShrinks(p);
    hide Dir;
    if p != "/" && n > 0 {
      ChainAt(Dir(p), n - 1);
    }
  }

  /** What a walk that stopped at place n has found out. */
  lemma WalkOutcome(chain: seq<string>, n: nat, answer: string -> Answer)
    requires n < |chain| && forall k :: 0 <= k < n ==> answer(chain[k]) == Invalid
    requires answer(chain[n]) != Invalid || n == |chain| - 1
    ensures answer(chain[n]) == Mounted <==>
            exists i: nat :: Decides(chain, answer, i) && answer(chain[i]) == Mounted
  {
    if answer(chain[n]) == Mounted {
      assert Decides(chain, answer, n);
    }
  }

  /** The walk succeeds exactly when the first path that is not EINVAL is made private,
      and then that path, the last one asked about, is the only one that is. */
  method RootfsParentMountPrivate(rootfs: string, answer: string -> Answer)
    returns (ok: bool, last: string, ghost n: nat)
    requires Absolute(rootfs)
    ensures n < |Chain(rootfs)| && last == Chain(rootfs)[n]
    ensures forall k :: 0 <= k < n ==> answer(Chain(rootfs)[k]) == Invalid
    ensures ok <==> answer(last) == Mounted
    ensures ok <==> exists i: nat :: Decides(Chain(rootfs), answer, i) && answer(Chain(rootfs)[i]) == Mounted
  {
    var path := rootfs;
    n := 0;
    hide Dir, Decides, Chain;
    while true
      invariant Absolute(path) && n < |Chain(rootfs)| && Chain(rootfs)[n] == path
      invariant forall k :: 0 <= k < n ==> answer(Chain(rootfs)[k]) == Invalid
      decreases |path|
    {
      ChainAt(rootfs, n);
      var err := answer(path);
      if err.Mounted? {
        WalkOutcome(Chain(rootfs), n, answer);
        return true, path, n;
      }
      if !err.Invalid? || path == "/" {
        WalkOutcome(Chain(rootfs), n, answer);
        return false, path, n;
      }
      DirShrinks(path);
      path := Dir(path);
      n := n + 1;
    }
  }
}
