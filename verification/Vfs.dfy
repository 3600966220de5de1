/**
 The in-memory file system: a tree changed in place, the path walker and the path printer.
 */
module Vfs {
  import opened Common
  import opened Lists
  import opened VfsTree

  /** How deep a node may be for its path to be printed. */
  const MAXDEPTH: nat := 32

  /** As much of a name as a node has room for. */
  function Stored(name: string): string {
    if |name| <= VFS_NAME_MAX then name else name[..VFS_NAME_MAX]
  }

  /** No child of `p` has that name. */
  ghost predicate Unnamed(t: Tree, p: nat, name: string)
    requires p in t
  {
    forall k :: k in t[p].kids && k in t ==> t[k].name != name
  }

  class FileSystem {
    var t: Tree
    var count: nat
    var cwd: nat
    var next: nat
    ghost var depth: map<nat, nat>

    ghost predicate Valid()
      reads this
    {
      TreeOk(t, depth) && count == |t| && forall n :: n in t ==> n < next
    }

    constructor ()
      ensures Valid() && t == map[ROOT := Node("", true, -1, [])] && cwd == ROOT
    {
      t := map[ROOT := Node("", true, -1, [])];
      count, cwd, next := 1, ROOT, 1;
      depth := map[ROOT := 0];
    }

    /** First child of that name; nothing in a file. */
    method FindChild(parent: nat, name: string) returns (r: Option<nat>)
      requires Valid() && parent in t
      ensures r.Some? ==> t[parent].dir && r.value in t[parent].kids && r.value in t && t[r.value].name == name
      ensures r.None? ==> !t[parent].dir || forall k :: k in t[parent].kids ==> k in t && t[k].name != name
      ensures t[parent].dir ==> (forall k :: k in t[parent].kids ==> k in t) && r == ChildFrom(t, t[parent].kids, name, 0)
    {
      hide TreeOk;
      KidsExist(t, depth, parent);
      if !t[parent].dir {
        return None;
      }
      var kids := t[parent].kids;
      var i := 0;
      while i < |kids|
        invariant 0 <= i <= |kids| && ChildFrom(t, kids, name, i) == ChildFrom(t, kids, name, 0)
        invariant forall j :: 0 <= j < i ==> t[kids[j]].name != name
      {
        if t[kids[i]].name == name {
          return Some(kids[i]);
        }
        i := i + 1;
      }
      return None;
    }

    /**
     A new file or directory; `room` says whether memory was found for it. The whole name is looked
     up, at most 31 characters of it are stored.
     */
    method Create(parent: nat, name: string, dir: bool, room: bool) returns (r: Option<nat>)
      requires Valid() && parent in t
      modifies this`t, this`count, this`next, this`depth
      ensures r.Some? <==> old(t)[parent].dir && room && forall k :: k in old(t)[parent].kids ==> k in old(t) && old(t)[k].name != name
      ensures r.Some? ==> r.value !in old(t) && t == Add(old(t), parent, r.value, Stored(name), dir) && count == old(count) + 1
      ensures r.Some? ==> (Valid() <==> GoodName(Stored(name)) && Unnamed(old(t), parent, Stored(name)))
      ensures r.None? ==> t == old(t) && count == old(count) && Valid()
    {
      hide TreeOk, GoodName, Stored;
      KidsExist(t, depth, parent);
      if !t[parent].dir {
        return None;
      }
      var found := FindChild(parent, name);
      if found.Some? || !room {
        return None;
      }
      RootIn(t, depth);
      AddIff(t, depth, parent, next, Stored(name), dir);
      depth := depth[next := depth[parent] + 1];
      t := Add(t, parent, next, Stored(name), dir);
      count, next := count + 1, next + 1;
      return Some(next - 1);
    }

    /** Remove a file, or an empty directory other than the root. */
    method Remove(n: nat, wantDir: bool) returns (ok: bool)
      requires Valid() && n in t
      modifies this`t, this`count, this`depth
      ensures Valid()
      ensures ok <==> old(t)[n].dir == wantDir && n != ROOT && old(t)[n].kids == []
      ensures ok ==> old(t)[n].parent >= 0 && old(t)[n].parent in old(t) && t == Drop(old(t), n) && count == old(count) - 1
      ensures !ok ==> t == old(t) && count == old(count)
      ensures cwd in t <==> cwd in old(t) && !(ok && n == cwd)
    {
      hide TreeOk, Without;
      KidsExist(t, depth, n);
      if t[n].dir != wantDir || n == ROOT || t[n].kids != [] {
        return false;
      }
      DropOk(t, depth, n);
      depth := depth - {n};
      t := Drop(t, n);
      count := count - 1;
      return true;
    }

    // ---------- paths ----------

    /** Absolute paths start at the root, others at the working directory. */
    function StartOf(path: string): nat
      reads this
    {
      if |path| > 0 && path[0] == '/' then ROOT else cwd
    }

    /** Where the slashes from `p` on end. */
    method SkipSlashes(path: string, p: nat) returns (q: nat)
      requires p <= |path|
      ensures p <= q <= |path| && (q < |path| ==> path[q] != '/')
      ensures Components(path[q..]) == Components(path[p..])
    {
      q := p;
      while q < |path| && path[q] == '/'
        invariant p <= q <= |path| && Components(path[q..]) == Components(path[p..])
      {
        assert path[q..][1..] == path[q + 1..];
        q := q + 1;
      }
    }

    /** The component that starts at `p`, at most 31 characters of it. */
    method TakeName(path: string, p: nat) returns (name: string, q: nat)
      requires p < |path| && path[p] != '/'
      ensures p < q <= |path| && name == path[p..q] && |name| <= VFS_NAME_MAX && '/' !in name
      ensures var k := Run(path[p..]); if k <= VFS_NAME_MAX then q == p + k else q < |path| && path[q] != '/'
    {
      q := p;
      while q < |path| && path[q] != '/' && q - p < VFS_NAME_MAX
        invariant p <= q <= |path| && q - p <= VFS_NAME_MAX && q - p <= Run(path[p..])
        invariant '/' !in path[p..q]
      {
        RunIs(path[p..], q - p);
        assert path[p..q + 1] == path[p..q] + [path[q]];
        q := q + 1;
      }
      RunIs(path[p..], q - p);
      name := path[p..q];
    }

    /** One component from `cur`. */
    method StepTo(cur: nat, name: string) returns (r: Option<nat>)
      requires Valid() && cur in t && |name| <= VFS_NAME_MAX
      ensures r == Step(t, cur, name) && (r.Some? ==> r.value in t)
    {
      hide TreeOk;
      KidsExist(t, depth, cur);
      if name == "." {
        return Some(cur);
      }
      if name == ".." {
        return Some(if t[cur].parent >= 0 then t[cur].parent else cur);
      }
      if !t[cur].dir {
        return None;
      }
      r := FindChild(cur, name);
    }

    /**
     The path walker. Without `wantParent` it resolves the whole path; with it, everything but the
     last component, which must be a plain name and comes back as `leaf`.
     */
    method ResolveWalk(path: string, wantParent: bool) returns (r: Option<nat>, leaf: string)
      requires Valid() && ((|path| > 0 && path[0] == '/') || cwd in t)
      ensures !wantParent ==> r == Walk(t, StartOf(path), Components(path))
      ensures wantParent ==> r == WalkParent(t, StartOf(path), Components(path))
      ensures wantParent && r.Some? ==> GoodName(leaf) && leaf == Components(path)[|Components(path)| - 1]
    {
      hide TreeOk, Run, Components, Walk, WalkParent, Step;
      var p, cur := 0, StartOf(path);
      ghost var all := Components(path);
      leaf := "";
      assert path[0..] == path;
      NoComponents();
      assert ROOT in t by { RootIn(t, depth); }
      while p < |path|
        invariant 0 <= p <= |path| && cur in t
        invariant Walk(t, cur, Components(path[p..])) == Walk(t, StartOf(path), all)
        invariant wantParent ==> WalkParent(t, cur, Components(path[p..])) == WalkParent(t, StartOf(path), all)
        invariant Components(path[p..]) != [] ==> LastOf(Components(path[p..])) == LastOf(all)
        decreases |path| - p
      {
        p := SkipSlashes(path, p);
        if p == |path| {
          break;
        }
        FirstComponent(path, p);
        ghost var comps := Components(path[p..]);
        var name, q := TakeName(path, p);
        if q < |path| && path[q] != '/' {
          WalkTooLong(t, cur, comps);
          return None, "";
        }
        var next := SkipSlashes(path, q);
        EndsHere(path, next);
        ghost var rest := Components(path[next..]);
        assert comps == [name] + rest && comps[1..] == rest;
        WalkIs(t, cur, comps);
        if wantParent && next == |path| {
          if !t[cur].dir || name == "." || name == ".." {
            return None, "";
          }
          return Some(cur), name;
        }
        var c := StepTo(cur, name);
        if c.None? {
          return None, "";
        }
        cur, p := c.value, next;
      }
      assert path[|path|..] == "";
      WalkEnds(t, cur);
      if wantParent {
        return None, "";
      }
      return Some(cur), "";
    }

    /** The ancestors of `node`, leaf first, without the root; `None` if there are more than 32. */
    method Ancestors(node: nat) returns (r: Option<seq<nat>>)
      requires Valid() && node in t
      ensures depth.Keys == t.Keys && (r.Some? <==> depth[node] <= MAXDEPTH)
      ensures r.Some? ==> (forall n :: n in r.value ==> n in t) && Printed(t, r.value) == Joined(Names(t, depth, node))
    {
      hide TreeOk, Names, Joined, Printed;
      KidsExist(t, depth, node);
      RootDepth(t, depth);
      var n: nat, stack: seq<nat> := node, [];
      NothingPrinted(t);
      assert Joined(Names(t, depth, node)) + "" == Joined(Names(t, depth, node));
      while n != ROOT
        invariant n in t && (forall m :: m in stack ==> m in t) && |stack| <= MAXDEPTH
        invariant |stack| + depth[n] == depth[node]
        invariant Joined(Names(t, depth, n)) + Printed(t, stack) == Joined(Names(t, depth, node))
        decreases depth[n]
      {
        ClimbOne(t, depth, n, Printed(t, stack));
        if |stack| >= MAXDEPTH {
          return None;
        }
        PrintedPush(t, stack, n);
        stack := stack + [n];
        n := t[n].parent;
      }
      assert "" + Printed(t, stack) == Printed(t, stack);
      return Some(stack);
    }

    /** The absolute path of `node` in at most `max - 1` characters; `None` if it does not fit. */
    method PathOf(node: nat, max: int) returns (r: Option<string>)
      requires Valid() && node in t
      ensures r.Some? ==> r.value == PathText(t, depth, node)
      ensures depth.Keys == t.Keys
      ensures r.Some? <==> max >= 2 && depth[node] <= MAXDEPTH && |PathText(t, depth, node)| <= max - 1
    {
      hide TreeOk, Names, Joined, Printed;
      KidsExist(t, depth, node);
      RootDepth(t, depth);
      if max < 2 {
        return None;
      }
      if node == ROOT {
        return Some("/");
      }
      var up := Ancestors(node);
      if up.None? {
        return None;
      }
      var stack, buf := up.value, "";
      ghost var full := Printed(t, stack);
      assert "" + full == full;
      while |stack| > 0
        invariant (forall m :: m in stack ==> m in t) && buf + Printed(t, stack) == full && |buf| <= max - 1
      {
        var n := stack[|stack| - 1];
        ghost var rest := stack[..|stack| - 1];
        assert stack == rest + [n];
        PrintedPush(t, rest, n);
        stack := stack[..|stack| - 1];
        if |buf| >= max - 1 {
          return None;
        }
        buf := buf + "/";
        var name, i := t[n].name, 0;
        while i < |name|
          invariant 0 <= i <= |name| && buf + (name[i..] + Printed(t, rest)) == full && |buf| <= max - 1
        {
          if |buf| >= max - 1 {
            return None;
          }
          buf := buf + [name[i]];
          i := i + 1;
        }
      }
      NothingPrinted(t);
      assert stack == [] && buf + "" == buf;
      return Some(buf);
    }

    /** Print a node's path and resolve what was printed: back at the node, wherever the working directory is. */
    method PathAndBack(node: nat, max: int) returns (path: Option<string>, back: Option<nat>)
      requires Valid() && node in t
      ensures depth.Keys == t.Keys && (path.Some? <==> max >= 2 && depth[node] <= MAXDEPTH && |PathText(t, depth, node)| <= max - 1)
      ensures path.Some? ==> back == Some(node)
    {
      hide TreeOk, PathText, Walk, Components;
      path := PathOf(node, max);
      if path.None? {
        return path, None;
      }
      PathIsAbsolute(t, depth, node);
      PathResolves(t, depth, node);
      var leaf;
      back, leaf := ResolveWalk(path.value, false);
    }

    /** Make a file or directory at a path; afterwards the path leads to it. */
    method MakeAt(path: string, dir: bool, room: bool) returns (r: Option<nat>)
      requires Valid() && ((|path| > 0 && path[0] == '/') || cwd in t)
      modifies this`t, this`count, this`next, this`depth
      ensures Valid()
      ensures r.Some? <==>
        var up := WalkParent(old(t), StartOf(path), Components(path));
        room && up.Some? && up.value in old(t) && Unnamed(old(t), up.value, LastOf(Components(path)))
      ensures r.Some? ==> r.value !in old(t) && count == old(count) + 1 && Walk(t, StartOf(path), Components(path)) == Some(r.value)
      ensures r.None? ==> t == old(t) && count == old(count)
    {
      hide TreeOk, Walk, WalkParent, Components, GoodName, Step, Run, ChildFrom;
      ghost var comps := Components(path);
      var up, leaf := ResolveWalk(path, true);
      if up.None? {
        return None;
      }
      ParentIsDir(t, StartOf(path), comps);
      KidsExist(t, depth, up.value);
      WholeName(leaf);
      ghost var t0, d0 := t, depth;
      r := Create(up.value, leaf, dir, room);
      if r.Some? {
        WalkAdded(t0, d0, StartOf(path), comps, up.value, r.value, dir);
      }
    }
  }

  /** Nothing stops the working directory itself from being removed; only absolute paths then resolve. */
  method WorkingDirectoryLost(name: string) returns (fs: FileSystem, ok: bool)
    requires GoodName(name)
    ensures fs.Valid() && ok && fs.cwd !in fs.t && ROOT in fs.t
  {
    hide TreeOk, Without;
    fs := new FileSystem();
    var d := fs.Create(ROOT, name, true, true);
    fs.cwd := d.value;
    ok := fs.Remove(d.value, true);
    RootIn(fs.t, fs.depth);
  }

  /** A name over 31 characters never collides with itself: it can be created twice, and the tree then has twins. */
  method Twins(name: string) returns (fs: FileSystem, a: Option<nat>, b: Option<nat>)
    requires |name| > VFS_NAME_MAX && GoodName(Stored(name))
    ensures a.Some? && b.Some? && a != b && a.value in fs.t && b.value in fs.t
    ensures fs.t[a.value] == fs.t[b.value] && !fs.Valid()
  {
    hide TreeOk, GoodName;
    fs := new FileSystem();
    a := fs.Create(ROOT, name, true, true);
    b := fs.Create(ROOT, name, true, true);
  }

  // ---------- about components ----------

  /** Resolving up to the last component, which must be a plain name in a directory. */
  function WalkParent(t: Tree, cur: nat, names: seq<string>): Option<nat>
    decreases |names|
  {
    if names == [] || cur !in t || |names[0]| > VFS_NAME_MAX then None
    else if |names| == 1 then
      if !t[cur].dir || names[0] == "." || names[0] == ".." then None else Some(cur)
    else
      var r := Step(t, cur, names[0]);
      if r.None? then None else WalkParent(t, r.value, names[1..])
  }

  function LastOf(names: seq<string>): string {
    if names == [] then "" else names[|names| - 1]
  }

  lemma RootIn(t: Tree, depth: map<nat, nat>)
    requires TreeOk(t, depth)
    ensures ROOT in t
  {
  }

  lemma RootDepth(t: Tree, depth: map<nat, nat>)
    requires TreeOk(t, depth)
    ensures depth.Keys == t.Keys && ROOT in t && depth[ROOT] == 0 && Joined(Names(t, depth, ROOT)) == ""
  {
  }

  lemma NothingPrinted(t: Tree)
    ensures Printed(t, []) == ""
  {
  }

  lemma NoComponents()
    ensures Components("") == []
  {
  }

  lemma WalkEnds(t: Tree, cur: nat)
    ensures Walk(t, cur, []) == Some(cur) && WalkParent(t, cur, []) == None
  {
  }

  lemma WalkIs(t: Tree, cur: nat, names: seq<string>)
    requires names != [] && cur in t && |names[0]| <= VFS_NAME_MAX
    ensures var r := Step(t, cur, names[0]);
            && Walk(t, cur, names) == (if r.None? then None else Walk(t, r.value, names[1..]))
            && WalkParent(t, cur, names) ==
                 if |names| == 1 then if !t[cur].dir || names[0] == "." || names[0] == ".." then None else Some(cur)
                 else if r.None? then None else WalkParent(t, r.value, names[1..])
  {
  }

  lemma WalkTooLong(t: Tree, cur: nat, names: seq<string>)
    requires names != [] && |names[0]| > VFS_NAME_MAX
    ensures Walk(t, cur, names) == None && WalkParent(t, cur, names) == None
  {
  }

  /** A stretch without slashes is no longer than the component. */
  lemma {:induction false} RunIs(s: string, k: nat)
    requires k <= |s| && '/' !in s[..k]
    ensures k <= Run(s) && (k < |s| && s[k] != '/' ==> k < Run(s)) && (k == |s| || s[k] == '/' ==> k == Run(s))
    decreases k
  {
    if k > 0 {
      assert s[0] == s[..k][0];
      assert forall c :: c in s[1..][..k - 1] ==> c in s[..k];
      RunIs(s[1..], k - 1);
    }
  }

  lemma FirstComponent(path: string, p: nat)
    requires p < |path| && path[p] != '/'
    ensures var k := Run(path[p..]);
            0 < k && p + k <= |path| && Components(path[p..]) == [path[p..p + k]] + Components(path[p + k..])
  {
    var s := path[p..];
    var k := Run(s);
    assert s[..k] == path[p..p + k] && s[k..] == path[p + k..];
  }

  /** After the slashes, no component is left exactly at the end of the path. */
  lemma EndsHere(path: string, p: nat)
    requires p <= |path| && (p < |path| ==> path[p] != '/')
    ensures Components(path[p..]) == [] <==> p == |path|
  {
    if p < |path| {
      FirstComponent(path, p);
    } else {
      assert path[p..] == "";
    }
  }

  // ---------- making a node at a path ----------

  lemma WholeName(name: string)
    requires GoodName(name)
    ensures Stored(name) == name
  {
  }

  lemma {:induction false} ParentIsDir(t: Tree, cur: nat, names: seq<string>)
    requires WalkParent(t, cur, names).Some?
    ensures var p := WalkParent(t, cur, names).value; p in t && t[p].dir && names != []
    decreases |names|
  {
    hide Step;
    if |names| > 1 {
      ParentIsDir(t, Step(t, cur, names[0]).value, names[1..]);
    }
  }

  /** A new child changes no step that could be taken without it. */
  lemma StepAdded(t: Tree, depth: map<nat, nat>, cur: nat, name: string, p: nat, n: nat, leaf: string, dir: bool)
    requires TreeOk(t, depth) && cur in t && p in t && n !in t && Step(t, cur, name).Some?
    ensures Step(Add(t, p, n, leaf, dir), cur, name) == Step(t, cur, name)
  {
    hide TreeOk, Add;
    KidsExist(t, depth, cur);
    var t' := Add(t, p, n, leaf, dir);
    AddAt(t, p, n, leaf, dir, cur);
    if name != "." && name != ".." {
      ChildAdded(t, t', t[cur].kids, t'[cur].kids, name, 0);
    }
  }

  lemma AddAt(t: Tree, p: nat, n: nat, leaf: string, dir: bool, cur: nat)
    requires p in t && n !in t && cur in t
    ensures var t' := Add(t, p, n, leaf, dir);
            && cur in t' && n in t' && t'[cur].dir == t[cur].dir && t'[cur].parent == t[cur].parent
            && t'[cur].kids == (if cur == p then t[cur].kids + [n] else t[cur].kids)
            && (forall k :: k in t ==> k in t' && t'[k].name == t[k].name) && t'[n].name == leaf
  {
  }

  lemma {:induction false} ChildAdded(t: Tree, t': Tree, kids: seq<nat>, more: seq<nat>, name: string, i: nat)
    requires i <= |kids| && kids <= more && (forall k :: k in kids ==> k in t) && (forall k :: k in more ==> k in t')
    requires forall k :: k in t ==> k in t' && t'[k].name == t[k].name
    requires ChildFrom(t, kids, name, i).Some?
    ensures ChildFrom(t', more, name, i) == ChildFrom(t, kids, name, i)
    decreases |kids| - i
  {
    assert more[i] == kids[i];
    if t[kids[i]].name != name {
      ChildAdded(t, t', kids, more, name, i + 1);
    }
  }

  /** The new child is found where no child had its name. */
  lemma {:induction false} ChildFound(t: Tree, kids: seq<nat>, n: nat, i: nat)
    requires i <= |kids| && (forall k :: k in kids ==> k in t) && n in t
    requires forall k :: k in kids ==> t[k].name != t[n].name
    ensures (forall k :: k in kids + [n] ==> k in t) && ChildFrom(t, kids + [n], t[n].name, i) == Some(n)
    decreases |kids| - i
  {
    if i < |kids| {
      assert (kids + [n])[i] == kids[i] && kids[i] in kids;
      ChildFound(t, kids, n, i + 1);
    }
  }

  /** Walking the whole path in the new tree arrives at the new node. */
  lemma {:induction false} WalkAdded(t: Tree, depth: map<nat, nat>, cur: nat, names: seq<string>, p: nat, n: nat, dir: bool)
    requires TreeOk(t, depth) && n !in t && WalkParent(t, cur, names) == Some(p) && p in t
    requires names != [] && GoodName(LastOf(names)) && Unnamed(t, p, LastOf(names))
    ensures Walk(Add(t, p, n, LastOf(names), dir), cur, names) == Some(n)
    decreases |names|
  {
    hide TreeOk, Add, Step, GoodName, Unnamed;
    var leaf := LastOf(names);
    var t' := Add(t, p, n, leaf, dir);
    AddAt(t, p, n, leaf, dir, cur);
    if |names| == 1 {
      LeafFound(t, depth, p, n, leaf, dir);
      assert names[1..] == [];
    } else {
      var next := Step(t, cur, names[0]).value;
      StepAdded(t, depth, cur, names[0], p, n, leaf, dir);
      WalkAdded(t, depth, next, names[1..], p, n, dir);
    }
  }

  lemma LeafFound(t: Tree, depth: map<nat, nat>, p: nat, n: nat, leaf: string, dir: bool)
    requires TreeOk(t, depth) && p in t && t[p].dir && n !in t && GoodName(leaf) && Unnamed(t, p, leaf)
    ensures p in Add(t, p, n, leaf, dir) && Step(Add(t, p, n, leaf, dir), p, leaf) == Some(n)
  {
    hide TreeOk, Add;
    var t' := Add(t, p, n, leaf, dir);
    KidsExist(t, depth, p);
    AddAt(t, p, n, leaf, dir, p);
    ChildFound(t', t[p].kids, n, 0);
  }
}
