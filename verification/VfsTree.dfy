/**
 The file tree as a value, paths as text, and what walking a path means.
 */
module VfsTree {
  import opened Common
  import opened Lists

  const VFS_NAME_MAX: nat := 31
  const ROOT: nat := 0

  /** `parent` is -1 for the root; `kids` are in creation order. */
  datatype Node = Node(name: string, dir: bool, parent: int, kids: seq<nat>)

  type Tree = map<nat, Node>

  /** Names a caller may give: what the path walker can hand back as one component. */
  predicate GoodName(s: string) {
    0 < |s| <= VFS_NAME_MAX && '/' !in s && s != "." && s != ".."
  }

  /** First child of that name, at or after `i`. */
  function ChildFrom(t: Tree, kids: seq<nat>, name: string, i: nat): (r: Option<nat>)
    requires i <= |kids| && forall k :: k in kids ==> k in t
    ensures r.Some? ==> r.value in kids && t[r.value].name == name
    ensures r.None? ==> forall j :: i <= j < |kids| ==> t[kids[j]].name != name
    decreases |kids| - i
  {
    if i == |kids| then None else if t[kids[i]].name == name then Some(kids[i]) else ChildFrom(t, kids, name, i + 1)
  }

  /** Links go both ways, siblings have different names, and `depth` shows there is no cycle. */
  ghost predicate TreeOk(t: Tree, depth: map<nat, nat>) {
    && ROOT in t && t[ROOT].dir && t[ROOT].parent == -1 && depth.Keys == t.Keys && depth[ROOT] == 0
    && (forall n :: n in t && n != ROOT ==> UpOk(t, depth, n))
    && (forall n :: n in t ==> DownOk(t, n))
  }

  ghost predicate UpOk(t: Tree, depth: map<nat, nat>, n: nat)
    requires n in t && depth.Keys == t.Keys
  {
    var p := t[n].parent;
    GoodName(t[n].name) && p >= 0 && p in t && t[p].dir && n in t[p].kids && depth[n] == depth[p] + 1
  }

  ghost predicate DownOk(t: Tree, n: nat)
    requires n in t
  {
    && Distinct(t[n].kids)
    && (!t[n].dir ==> t[n].kids == [])
    && (forall k :: k in t[n].kids ==> k in t && k != ROOT && t[k].parent == n)
    && (forall k, l :: k in t[n].kids && l in t[n].kids && k in t && l in t && k != l ==> t[k].name != t[l].name)
  }

  /** A node is found under its own name. */
  lemma FoundByName(t: Tree, depth: map<nat, nat>, n: nat)
    requires TreeOk(t, depth) && n in t && n != ROOT
    ensures var p := t[n].parent;
            p >= 0 && p in t && t[p].dir && (forall k :: k in t[p].kids ==> k in t) && ChildFrom(t, t[p].kids, t[n].name, 0) == Some(n)
  {
    assert UpOk(t, depth, n);
    var p := t[n].parent;
    assert DownOk(t, p);
    var r := ChildFrom(t, t[p].kids, t[n].name, 0);
    var i :| 0 <= i < |t[p].kids| && t[p].kids[i] == n;
  }

  // ---------- paths ----------

  /** Length of the first component: up to the next slash or the end. */
  function Run(s: string): (k: nat)
    ensures k <= |s| && (k < |s| ==> s[k] == '/') && '/' !in s[..k]
  {
    if s == "" || s[0] == '/' then 0 else (assert s[..Run(s[1..]) + 1] == [s[0]] + s[1..][..Run(s[1..])]; Run(s[1..]) + 1)
  }

  /** The non-empty components of a path. */
  function Components(s: string): seq<string>
    decreases |s|
  {
    if s == "" then []
    else if s[0] == '/' then Components(s[1..])
    else [s[..Run(s)]] + Components(s[Run(s)..])
  }

  /** One component from `cur`: `.`, `..` (the root is its own parent), or a child. */
  function Step(t: Tree, cur: nat, name: string): Option<nat>
    requires cur in t
  {
    if |name| > VFS_NAME_MAX then None
    else if name == "." then Some(cur)
    else if name == ".." then if t[cur].parent >= 0 then Some(t[cur].parent) else Some(cur)
    else if !t[cur].dir || !(forall k :: k in t[cur].kids ==> k in t) then None
    else ChildFrom(t, t[cur].kids, name, 0)
  }

  function Walk(t: Tree, cur: nat, names: seq<string>): Option<nat>
    decreases |names|
  {
    if names == [] then Some(cur)
    else if cur !in t then None
    else
      var r := Step(t, cur, names[0]);
      if r.None? then None else Walk(t, r.value, names[1..])
  }

  /** The names from the root down to `n`. */
  ghost function Names(t: Tree, depth: map<nat, nat>, n: nat): seq<string>
    requires TreeOk(t, depth) && n in t
    decreases depth[n]
  {
    if n == ROOT then []
    else
      assert UpOk(t, depth, n);
      Names(t, depth, t[n].parent) + [t[n].name]
  }

  function Joined(names: seq<string>): string {
    if names == [] then "" else Joined(names[..|names| - 1]) + "/" + names[|names| - 1]
  }

  /** The absolute path of `n`. */
  ghost function PathText(t: Tree, depth: map<nat, nat>, n: nat): string
    requires TreeOk(t, depth) && n in t
  {
    if n == ROOT then "/" else Joined(Names(t, depth, n))
  }

  lemma {:induction false} WalkCat(t: Tree, cur: nat, a: seq<string>, name: string)
    ensures Walk(t, cur, a + [name]) ==
      var r := Walk(t, cur, a);
      if r.None? || r.value !in t then None else Step(t, r.value, name)
    decreases |a|
  {
    if a == [] {
      assert [name][1..] == [];
      assert a + [name] == [name];
    } else if cur in t {
      var r := Step(t, cur, a[0]);
      assert (a + [name])[1..] == a[1..] + [name];
      if r.Some? {
        WalkCat(t, r.value, a[1..], name);
      }
    }
  }

  /** Walking down a node's names from the root arrives at the node. */
  lemma {:induction false} NamesLeadHome(t: Tree, depth: map<nat, nat>, n: nat)
    requires TreeOk(t, depth) && n in t
    ensures Walk(t, ROOT, Names(t, depth, n)) == Some(n)
    decreases depth[n]
  {
    if n != ROOT {
      FoundByName(t, depth, n);
      assert UpOk(t, depth, n);
      NamesLeadHome(t, depth, t[n].parent);
      WalkCat(t, ROOT, Names(t, depth, t[n].parent), t[n].name);
    }
  }

  lemma {:induction false} NamesAreGood(t: Tree, depth: map<nat, nat>, n: nat)
    requires TreeOk(t, depth) && n in t
    ensures forall i :: 0 <= i < |Names(t, depth, n)| ==> GoodName(Names(t, depth, n)[i])
    decreases depth[n]
  {
    if n != ROOT {
      assert UpOk(t, depth, n);
      NamesAreGood(t, depth, t[n].parent);
    }
  }

  lemma {:induction false} RunOfName(name: string, s: string)
    requires '/' !in name && (s == "" || s[0] == '/')
    ensures Run(name + s) == |name|
    decreases |name|
  {
    if name == "" {
      assert name + s == s;
    } else {
      assert name[0] in name;
      assert forall c :: c in name[1..] ==> c in name;
      RunOfName(name[1..], s);
      assert (name + s)[1..] == name[1..] + s;
    }
  }

  /** Splitting what was joined gives the parts back, whatever follows a slash. */
  lemma {:induction false} SplitJoined(names: seq<string>, s: string)
    requires forall i :: 0 <= i < |names| ==> GoodName(names[i])
    requires s == "" || s[0] == '/'
    ensures Components(Joined(names) + s) == names + Components(s)
    decreases |names|
  {
    hide Components, Run, GoodName;
    if names == [] {
      assert Joined(names) + s == s;
      assert names + Components(s) == Components(s);
    } else {
      var front, last := names[..|names| - 1], names[|names| - 1];
      var tail := "/" + last + s;
      SplitJoined(front, tail);
      assert Joined(names) + s == Joined(front) + tail;
      OneComponent(last, s);
      assert front + ([last] + Components(s)) == names + Components(s);
    }
  }

  lemma OneComponent(name: string, s: string)
    requires GoodName(name) && (s == "" || s[0] == '/')
    ensures Components("/" + name + s) == [name] + Components(s)
  {
    var u := name + s;
    assert ("/" + name + s)[1..] == u;
    assert u[0] == name[0] && name[0] in name;
    RunOfName(name, s);
    assert u[..|name|] == name && u[|name|..] == s;
  }

  /** The path printed for a node resolves to that node. */
  lemma PathResolves(t: Tree, depth: map<nat, nat>, n: nat)
    requires TreeOk(t, depth) && n in t
    ensures Walk(t, ROOT, Components(PathText(t, depth, n))) == Some(n)
  {
    NamesLeadHome(t, depth, n);
    if n == ROOT {
      assert "/"[1..] == "";
    } else {
      NamesAreGood(t, depth, n);
      SplitJoined(Names(t, depth, n), "");
      assert Joined(Names(t, depth, n)) + "" == Joined(Names(t, depth, n));
      assert Names(t, depth, n) + [] == Names(t, depth, n);
    }
  }

  /** A slash between two paths puts their components one after the other. */
  lemma {:induction false} ComponentsJoin(a: string, b: string)
    ensures Components(a + "/" + b) == Components(a) + Components(b)
    decreases |a|
  {
    var s := a + "/" + b;
    if a == "" {
      assert s[1..] == b;
    } else if a[0] == '/' {
      ComponentsJoin(a[1..], b);
      assert s[1..] == a[1..] + "/" + b;
    } else {
      var k := Run(a);
      var tail := a[k..] + "/" + b;
      RunOfName(a[..k], tail);
      assert s == a[..k] + tail && s[..k] == a[..k] && s[k..] == tail;
      FirstRun(a);
      ComponentsJoin(a[k..], b);
    }
  }

  lemma FirstRun(s: string)
    requires s != "" && s[0] != '/'
    ensures Run(s) > 0
  {
  }

  lemma {:induction false} WalkOn(t: Tree, cur: nat, a: seq<string>, b: seq<string>)
    ensures Walk(t, cur, a + b) == var r := Walk(t, cur, a); if r.None? then None else Walk(t, r.value, b)
    decreases |a|
  {
    hide Step;
    if |a| == 0 {
      assert a + b == b;
    } else if cur in t {
      var r := Step(t, cur, a[0]);
      assert (a + b)[1..] == a[1..] + b;
      if r.Some? {
        WalkOn(t, r.value, a[1..], b);
      }
    }
  }

  /** A relative path means the same as the working directory's path with it appended. */
  lemma RelativeIsJoined(t: Tree, depth: map<nat, nat>, cwd: nat, path: string)
    requires TreeOk(t, depth) && cwd in t
    ensures Walk(t, cwd, Components(path)) == Walk(t, ROOT, Components(PathText(t, depth, cwd) + "/" + path))
  {
    hide TreeOk, Walk, Components, PathText;
    PathResolves(t, depth, cwd);
    ComponentsJoin(PathText(t, depth, cwd), path);
    WalkOn(t, ROOT, Components(PathText(t, depth, cwd)), Components(path));
  }

  /** A node's path followed by `..` is its parent, and the root for the root; by `.` it is the node; by a child's name the child. */
  lemma UpAndDown(t: Tree, depth: map<nat, nat>, n: nat, k: nat)
    requires TreeOk(t, depth) && n in t && k in t[n].kids
    ensures k in t && Walk(t, ROOT, Components(PathText(t, depth, n) + "/" + "..")) == Some(if n == ROOT then ROOT else t[n].parent)
    ensures Walk(t, ROOT, Components(PathText(t, depth, k) + "/" + "..")) == Some(n)
    ensures Walk(t, ROOT, Components(PathText(t, depth, n) + "/" + ".")) == Some(n)
    ensures Walk(t, ROOT, Components(PathText(t, depth, n) + "/" + t[k].name)) == Some(k)
  {
    hide Walk, Components, PathText, TreeOk, UpOk, DownOk;
    KidParent(t, depth, n, k);
    KidsExist(t, depth, n);
    DotDot(t, depth, n);
    DotDot(t, depth, k);
    FoundByName(t, depth, k);
    RelativeIsJoined(t, depth, n, ".");
    RelativeIsJoined(t, depth, n, t[k].name);
    OneName(t, n, ".");
    OneName(t, n, t[k].name);
  }

  /** `..` leads from a node to its parent and from the root to itself. */
  lemma DotDot(t: Tree, depth: map<nat, nat>, n: nat)
    requires TreeOk(t, depth) && n in t
    ensures n != ROOT ==> t[n].parent >= 0
    ensures Walk(t, ROOT, Components(PathText(t, depth, n) + "/" + "..")) == Some(if n == ROOT then ROOT else t[n].parent)
  {
    hide Walk, Components, PathText, TreeOk;
    KidsExist(t, depth, n);
    RelativeIsJoined(t, depth, n, "..");
    OneName(t, n, "..");
  }

  lemma OneName(t: Tree, n: nat, name: string)
    requires n in t && 0 < |name| <= VFS_NAME_MAX && '/' !in name
    ensures Walk(t, n, Components(name)) == Step(t, n, name)
  {
    hide Step;
    RunOfName(name, "");
    assert name + "" == name;
    assert name[0] in name;
    assert name[..|name|] == name && name[|name|..] == "";
    assert Components(name) == [name];
    assert [name][1..] == [];
  }

  lemma KidParent(t: Tree, depth: map<nat, nat>, n: nat, k: nat)
    requires TreeOk(t, depth) && n in t && k in t[n].kids
    ensures k in t && k != ROOT && t[k].parent == n && GoodName(t[k].name) && t[n].dir
  {
    hide GoodName;
    assert DownOk(t, n);
    assert UpOk(t, depth, k);
  }

  /** Printed paths are absolute. */
  lemma PathIsAbsolute(t: Tree, depth: map<nat, nat>, n: nat)
    requires TreeOk(t, depth) && n in t
    ensures |PathText(t, depth, n)| > 0 && PathText(t, depth, n)[0] == '/'
  {
    if n != ROOT {
      assert UpOk(t, depth, n);
      JoinedSlash(Names(t, depth, n));
    }
  }

  lemma {:induction false} JoinedSlash(names: seq<string>)
    requires names != []
    ensures |Joined(names)| > 0 && Joined(names)[0] == '/'
    decreases |names|
  {
    var front := names[..|names| - 1];
    if front != [] {
      JoinedSlash(front);
    } else {
      assert Joined(front) == "";
    }
  }

  // ---------- changes ----------

  function Add(t: Tree, p: nat, n: nat, name: string, dir: bool): Tree
    requires p in t
  {
    t[p := t[p].(kids := t[p].kids + [n])][n := Node(name, dir, p, [])]
  }

  function Drop(t: Tree, n: nat): Tree
    requires n in t && t[n].parent >= 0 && t[n].parent in t
  {
    var p := t[n].parent;
    map m | m in t && m != n :: if m == p then t[m].(kids := Without(t[m].kids, n)) else t[m]
  }

  /** A new leaf with a name its siblings do not have. */
  lemma AddOk(t: Tree, depth: map<nat, nat>, p: nat, n: nat, name: string, dir: bool)
    requires TreeOk(t, depth) && p in t && t[p].dir && n !in t && GoodName(name)
    requires forall k :: k in t[p].kids && k in t ==> t[k].name != name
    ensures TreeOk(Add(t, p, n, name, dir), depth[n := depth[p] + 1])
    ensures |Add(t, p, n, name, dir)| == |t| + 1
    ensures var t' := Add(t, p, n, name, dir);
            && n in t' && t'[n] == Node(name, dir, p, []) && p in t' && t'[p] == t[p].(kids := t[p].kids + [n])
            && forall m :: m in t && m != p ==> m in t' && t'[m] == t[m]
  {
    hide GoodName, UpOk, DownOk;
    var t', d' := Add(t, p, n, name, dir), depth[n := depth[p] + 1];
    assert t'.Keys == t.Keys + {n};
    assert |t'| == |t'.Keys| && |t| == |t.Keys|;
    forall m | m in t' && m != ROOT ensures UpOk(t', d', m) {
      AddUp(t, depth, p, n, name, dir, m);
    }
    forall m | m in t' ensures DownOk(t', m) {
      AddDown(t, depth, p, n, name, dir, m);
    }
  }

  /** Only a proper name that no sibling has keeps the tree in shape. */
  lemma AddIff(t: Tree, depth: map<nat, nat>, p: nat, n: nat, name: string, dir: bool)
    requires TreeOk(t, depth) && p in t && t[p].dir && n !in t && n != ROOT
    ensures var t' := Add(t, p, n, name, dir);
            && |t'| == |t| + 1
            && (TreeOk(t', depth[n := depth[p] + 1]) <==> GoodName(name) && forall k :: k in t[p].kids && k in t ==> t[k].name != name)
  {
    hide GoodName, UpOk, DownOk;
    var t', d' := Add(t, p, n, name, dir), depth[n := depth[p] + 1];
    assert t'.Keys == t.Keys + {n} && |t'| == |t'.Keys| && |t| == |t.Keys|;
    if TreeOk(t', d') {
      AddOnly(t, p, n, name, dir, d');
    }
    if GoodName(name) && forall k :: k in t[p].kids && k in t ==> t[k].name != name {
      AddOk(t, depth, p, n, name, dir);
    }
  }

  lemma AddOnly(t: Tree, p: nat, n: nat, name: string, dir: bool, d': map<nat, nat>)
    requires p in t && n !in t && n != ROOT && TreeOk(Add(t, p, n, name, dir), d')
    ensures GoodName(name) && forall k :: k in t[p].kids && k in t ==> t[k].name != name
  {
    hide GoodName;
    var t' := Add(t, p, n, name, dir);
    assert UpOk(t', d', n) && DownOk(t', p);
    forall k | k in t[p].kids && k in t ensures t[k].name != name {
      assert k in t'[p].kids && n in t'[p].kids && t'[k].name == t[k].name;
    }
  }

  lemma AddUp(t: Tree, depth: map<nat, nat>, p: nat, n: nat, name: string, dir: bool, m: nat)
    requires TreeOk(t, depth) && p in t && t[p].dir && n !in t && GoodName(name) && m != ROOT && (m in t || m == n)
    ensures UpOk(Add(t, p, n, name, dir), depth[n := depth[p] + 1], m)
  {
    hide GoodName, DownOk;
    if m != n {
      assert UpOk(t, depth, m);
    }
  }

  lemma AddDown(t: Tree, depth: map<nat, nat>, p: nat, n: nat, name: string, dir: bool, m: nat)
    requires TreeOk(t, depth) && p in t && t[p].dir && n !in t && (m in t || m == n)
    requires forall k :: k in t[p].kids && k in t ==> t[k].name != name
    ensures DownOk(Add(t, p, n, name, dir), m)
  {
    hide GoodName, UpOk;
    if m != n {
      assert DownOk(t, m);
      assert n !in t[m].kids;
      if m == p {
        Snoc(t[p].kids, n);
      }
    }
  }

  lemma Snoc(kids: seq<nat>, n: nat)
    requires Distinct(kids) && n !in kids
    ensures Distinct(kids + [n]) && forall k :: k in kids + [n] <==> k in kids || k == n
  {
  }

  /** Taking away a node without children. */
  lemma DropOk(t: Tree, depth: map<nat, nat>, n: nat)
    requires TreeOk(t, depth) && n in t && n != ROOT && t[n].kids == []
    ensures t[n].parent >= 0 && t[n].parent in t
    ensures TreeOk(Drop(t, n), depth - {n})
    ensures |Drop(t, n)| == |t| - 1 && n !in Drop(t, n)
    ensures forall m :: m in t && m != n && m != t[n].parent ==> m in Drop(t, n) && Drop(t, n)[m] == t[m]
  {
    hide GoodName, DownOk;
    assert UpOk(t, depth, n);
    var t', d' := Drop(t, n), depth - {n};
    assert t'.Keys == t.Keys - {n};
    assert |t'| == |t'.Keys| && |t| == |t.Keys|;
    forall m | m in t' && m != ROOT ensures UpOk(t', d', m) {
      DropUp(t, depth, n, m);
    }
    forall m | m in t' ensures DownOk(t', m) {
      DropDown(t, depth, n, m);
    }
  }

  lemma DropUp(t: Tree, depth: map<nat, nat>, n: nat, m: nat)
    requires TreeOk(t, depth) && n in t && n != ROOT && t[n].kids == [] && m in t && m != n && m != ROOT
    requires t[n].parent >= 0 && t[n].parent in t
    ensures (depth - {n}).Keys == Drop(t, n).Keys && UpOk(Drop(t, n), depth - {n}, m)
  {
    hide GoodName, DownOk, Without;
    assert UpOk(t, depth, m);
    assert t[m].parent != n;
  }

  lemma DropDown(t: Tree, depth: map<nat, nat>, n: nat, m: nat)
    requires TreeOk(t, depth) && n in t && n != ROOT && m in t && m != n
    requires t[n].parent >= 0 && t[n].parent in t && t[t[n].parent].dir
    ensures DownOk(Drop(t, n), m)
  {
    hide GoodName, UpOk, Without;
    assert DownOk(t, m);
    assert m != t[n].parent ==> n !in t[m].kids;
  }

  lemma KidsExist(t: Tree, depth: map<nat, nat>, n: nat)
    requires TreeOk(t, depth) && n in t
    ensures (forall k :: k in t[n].kids ==> k in t) && (!t[n].dir ==> t[n].kids == []) && depth.Keys == t.Keys
    ensures n != ROOT ==> t[n].parent >= 0 && t[n].parent in t && GoodName(t[n].name) && depth[n] == depth[t[n].parent] + 1
    ensures n == ROOT <==> t[n].parent < 0
  {
    assert DownOk(t, n);
    assert n != ROOT ==> UpOk(t, depth, n);
  }

  // ---------- printing ----------

  /** What is printed for ancestors collected leaf first: the last one comes out first. */
  function Printed(t: Tree, stack: seq<nat>): string
    requires forall n :: n in stack ==> n in t
  {
    if stack == [] then ""
    else
      var n := stack[|stack| - 1];
      "/" + t[n].name + Printed(t, stack[..|stack| - 1])
  }

  lemma PrintedPush(t: Tree, stack: seq<nat>, n: nat)
    requires n in t && forall m :: m in stack ==> m in t
    ensures forall m :: m in stack + [n] ==> m in t
    ensures Printed(t, stack + [n]) == "/" + t[n].name + Printed(t, stack)
  {
    assert (stack + [n])[..|stack|] == stack;
  }

  /** One ancestor more on the stack, one name less to go. */
  lemma ClimbOne(t: Tree, depth: map<nat, nat>, n: nat, rest: string)
    requires TreeOk(t, depth) && n in t && n != ROOT
    ensures t[n].parent >= 0 && t[n].parent in t && depth[n] == depth[t[n].parent] + 1
    ensures Joined(Names(t, depth, n)) + rest == Joined(Names(t, depth, t[n].parent)) + ("/" + t[n].name + rest)
  {
    hide TreeOk, GoodName;
    KidsExist(t, depth, n);
    var up := Names(t, depth, t[n].parent);
    NamesUp(t, depth, n);
    assert (up + [t[n].name])[..|up|] == up;
  }

  lemma NamesUp(t: Tree, depth: map<nat, nat>, n: nat)
    requires TreeOk(t, depth) && n in t && n != ROOT && t[n].parent >= 0 && t[n].parent in t
    ensures Names(t, depth, n) == Names(t, depth, t[n].parent) + [t[n].name]
  {
  }
}
