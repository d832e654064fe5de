/** Small facts about sequences, kept out of larger proofs. */
module Sequences {
  lemma EmptyEnd<T>(a: seq<T>, b: seq<T>)
    requires b == []
    ensures a + b == a
  {
  }

  lemma LastOf<T>(a: seq<T>)
    requires a != []
    ensures a == a[..|a| - 1] + [a[|a| - 1]]
  {
  }

  lemma ButLast<T>(a: seq<T>, x: T)
    ensures (a + [x])[..|a + [x]| - 1] == a && (a + [x])[|a + [x]| - 1] == x
  {
  }

  lemma SnocConcat<T>(a: seq<T>, b: seq<T>, x: T)
    ensures a + (b + [x]) == (a + b) + [x]
  {
  }

  lemma Prefix<T>(a: seq<T>, n: nat)
    requires 0 < n <= |a|
    ensures a[..n][..|a[..n]| - 1] == a[..n - 1] && a[..n][|a[..n]| - 1] == a[n - 1]
    ensures a[..n] == a[..n - 1] + [a[n - 1]]
  {
  }

  lemma Whole<T>(a: seq<T>)
    ensures a[..|a|] == a
  {
  }
}

/** Root-relative paths as component sequences, and the file tree under the placement root. */
module Paths {
  type Name = string

  /** `[]` is the placement root; `p <= q` (sequence prefix) says that `q` is `p` or lies beneath it. */
  type Path = seq<Name>

  function Parent(p: Path): Path
    requires p != []
  {
    p[..|p| - 1]
  }

  /** `<p>.<suffix>`: the same parent directory, another last component. */
  function WithSuffix(p: Path, suffix: Name): (r: Path)
    requires p != []
    ensures |r| == |p| && Parent(r) == Parent(p) && r != p
  {
    var r := Parent(p) + [p[|p| - 1] + "." + suffix];
    assert |r[|p| - 1]| > |p[|p| - 1]|;
    r
  }

  lemma WithSuffixInjective(p: Path, q: Path, suffix: Name)
    requires p != [] && q != []
    requires WithSuffix(p, suffix) == WithSuffix(q, suffix)
    ensures p == q
  {
    var x, y := p[|p| - 1], q[|q| - 1];
    var s := "." + suffix;
    assert WithSuffix(p, suffix)[|p| - 1] == x + s && WithSuffix(q, suffix)[|p| - 1] == y + s;
    assert x == (x + s)[..|x + s| - |s|] && y == (y + s)[..|y + s| - |s|];
    assert p == Parent(p) + [x] && q == Parent(q) + [y];
    assert Parent(p) == Parent(WithSuffix(p, suffix)) == Parent(q);
  }

  /** Two paths above the same path lie on one line. */
  lemma Comparable(p: Path, q: Path, r: Path)
    requires p <= r && q <= r
    ensures p <= q || q <= p
  {
  }

  lemma SameOrAbove(p: Path, q: Path)
    requires p <= q
    ensures p == q || p < q
  {
  }

  lemma AboveParent(p: Path, q: Path)
    requires p < q
    ensures p <= Parent(q)
  {
  }

  /** Swapping the head `a` of `a + rest` for `b`, the path arithmetic of a rename. */
  function Rebase(p: Path, a: Path, b: Path): Path
    requires a <= p
  {
    b + p[|a|..]
  }

  lemma RebaseBack(p: Path, a: Path, b: Path)
    requires a <= p
    ensures b <= Rebase(p, a, b)
    ensures Rebase(Rebase(p, a, b), b, a) == p
    ensures |p| > |a| ==> Rebase(p, a, b) != [] && Parent(Rebase(p, a, b)) == Rebase(Parent(p), a, b)
  {
    assert p == a + p[|a|..];
    assert (b + p[|a|..])[|b|..] == p[|a|..];
    if |p| > |a| {
      assert Parent(p)[|a|..] == p[|a|..][..|p| - |a| - 1];
      assert Parent(b + p[|a|..]) == b + p[|a|..][..|p| - |a| - 1];
    }
  }
}

/** Directory listings come sorted by file name. */
module Listings {
  import opened Paths

  predicate LexLeq(a: Name, b: Name) {
    a == [] || (b != [] && (a[0] < b[0] || (a[0] == b[0] && LexLeq(a[1..], b[1..]))))
  }

  lemma LexTotal(a: Name, b: Name)
    ensures LexLeq(a, b) || LexLeq(b, a)
  {
  }

  lemma LexAntisymmetric(a: Name, b: Name)
    requires LexLeq(a, b) && LexLeq(b, a)
    ensures a == b
  {
    if a != [] {
      LexAntisymmetric(a[1..], b[1..]);
      assert a == [a[0]] + a[1..] && b == [b[0]] + b[1..];
    }
  }

  lemma LexTransitive(a: Name, b: Name, c: Name)
    requires LexLeq(a, b) && LexLeq(b, c)
    ensures LexLeq(a, c)
  {
  }

  predicate IsFirst(m: Name, s: set<Name>) {
    m in s && forall x :: x in s ==> LexLeq(m, x)
  }

  lemma FirstExists(s: set<Name>)
    requires s != {}
    ensures exists m :: IsFirst(m, s)
  {
    var x :| x in s;
    LexTotal(x, x);
    if s == {x} {
      assert IsFirst(x, s);
    } else {
      var s' := s - {x};
      assert s == s' + {x};
      FirstExists(s');
      var m :| IsFirst(m, s');
      LexTotal(m, x);
      if LexLeq(m, x) {
        assert IsFirst(m, s);
      } else {
        forall y | y in s ensures LexLeq(x, y) {
          if y != x { LexTransitive(x, m, y); }
        }
        assert IsFirst(x, s);
      }
    }
  }

  lemma FirstUnique(s: set<Name>)
    ensures forall m, n :: IsFirst(m, s) && IsFirst(n, s) ==> m == n
  {
    forall m, n | IsFirst(m, s) && IsFirst(n, s) ensures m == n {
      LexAntisymmetric(m, n);
    }
  }

  /** The names of `s` in ascending order. */
  function Sorted(s: set<Name>): (r: seq<Name>)
    ensures forall n :: n in r <==> n in s
    ensures forall i, j :: 0 <= i < j < |r| ==> r[i] != r[j] && LexLeq(r[i], r[j])
  {
    if s == {} then []
    else
      FirstExists(s);
      FirstUnique(s);
      var m :| IsFirst(m, s);
      [m] + Sorted(s - {m})
  }
}

/** The tree under the root, what lies outside it, and the lstat family. */
module Trees {
  import opened Paths
  import Listings

  /** A node as lstat sees it. A link's destination is an absolute path outside the root. */
  datatype Node = Dir | File(content: string) | Link(dest: Path)

  type Tree = map<Path, Node>

  /** The root is a directory and every other node sits in a directory. */
  ghost predicate ValidTree(t: Tree) {
    && [] in t && t[[]] == Dir
    && forall p {:trigger Parent(p)} :: p in t && p != [] ==> Parent(p) in t && t[Parent(p)] == Dir
  }

  lemma {:induction false} AncestorsAreDirs(t: Tree, p: Path, q: Path)
    requires ValidTree(t) && p in t && q < p
    ensures q in t && t[q] == Dir
    decreases |p|
  {
    AboveParent(q, p);
    if q != Parent(p) { AncestorsAreDirs(t, Parent(p), q); }
  }

  /** A link or a file has nothing beneath it, and neither has an absent path. */
  lemma NothingBeneath(t: Tree, p: Path)
    requires ValidTree(t) && (p !in t || t[p] != Dir)
    ensures forall q :: q in t ==> !(p < q)
  {
    forall q | q in t && p < q ensures false { AncestorsAreDirs(t, q, p); }
  }

  /** Of two paths above one path, an existing one lies strictly above an absent one. */
  lemma AboveAbsent(t: Tree, absent: Path, q: Path, x: Path)
    requires ValidTree(t) && absent !in t && q in t && q <= x && absent <= x
    ensures q < absent
  {
    NothingBeneath(t, absent);
    Comparable(q, absent, x);
    assert absent <= q ==> absent == q || absent < q;
  }

  predicate Vacant(t: Tree, p: Path) {
    forall q :: q in t ==> !(p < q)
  }

  function Without(t: Tree, p: Path): Tree {
    map q | q in t && q != p :: t[q]
  }

  /** `os.RemoveAll`. */
  function Pruned(t: Tree, p: Path): Tree {
    map q | q in t && !(p <= q) :: t[q]
  }

  /** The subtree written at `p` by a recursive copy of `sub` (keys relative to the copied root). */
  function Grafted(t: Tree, p: Path, sub: Tree): Tree {
    t + map q | q in (set r | r in sub :: p + r) :: sub[q[|p|..]]
  }

  /** `rename(from, to)`: the whole subtree changes its head. */
  function Moved(t: Tree, from: Path, to: Path): Tree {
    (map q | q in t && !(from <= q) :: t[q])
    + (map q | q in (set r | r in t && from <= r :: Rebase(r, from, to)) && to <= q && Rebase(q, to, from) in t ::
         t[Rebase(q, to, from)])
  }

  /** A copied subtree is closed under parents, like a tree, but its root may be a file or a link. */
  ghost predicate ValidSub(sub: Tree) {
    forall r {:trigger Parent(r)} :: r in sub && r != [] ==> Parent(r) in sub && sub[Parent(r)] == Dir
  }

  lemma GraftedAt(t: Tree, p: Path, sub: Tree)
    ensures forall q :: q in Grafted(t, p, sub) <==> q in t || (p <= q && q[|p|..] in sub)
    ensures forall q :: p <= q && q[|p|..] in sub ==> Grafted(t, p, sub)[q] == sub[q[|p|..]]
    ensures forall q :: q in t && !(p <= q && q[|p|..] in sub) ==> Grafted(t, p, sub)[q] == t[q]
  {
    forall q | p <= q && q[|p|..] in sub
      ensures q in Grafted(t, p, sub) && Grafted(t, p, sub)[q] == sub[q[|p|..]]
    {
      assert q == p + q[|p|..];
    }
    forall r | r in sub ensures p <= p + r && (p + r)[|p|..] == r {}
  }

  /** What a copied node does to a node that is there: a directory is entered, a file overwritten, and
      whatever `os.Remove` takes gives way to a link. */
  predicate GivesWay(t: Tree, q: Path, n: Node) {
    q in t ==>
      match n
      case Dir => t[q] == Dir
      case File(_) => t[q].File?
      case Link(_) => t[q] != Dir || Vacant(t, q)
  }

  /** A recursive copy of `sub` can be written at `p`. */
  predicate Fits(t: Tree, p: Path, sub: Tree) {
    && p != [] && Parent(p) in t && t[Parent(p)] == Dir
    && forall r :: r in sub ==> GivesWay(t, p + r, sub[r])
  }

  lemma FitsRoom(t: Tree, p: Path, sub: Tree)
    requires ValidTree(t) && p != [] && p !in t && Parent(p) in t && t[Parent(p)] == Dir
    ensures Fits(t, p, sub)
  {
    NothingBeneath(t, p);
    forall r | r in sub ensures p + r !in t { assert p + r == p || p < p + r; }
  }

  lemma GraftedValid(t: Tree, p: Path, sub: Tree)
    requires ValidTree(t) && ValidSub(sub) && Fits(t, p, sub)
    ensures ValidTree(Grafted(t, p, sub))
  {
    GraftedAt(t, p, sub);
    var g := Grafted(t, p, sub);
    assert [] in g && g[[]] == Dir;
    forall q | q in g && q != [] ensures Parent(q) in g && g[Parent(q)] == Dir {
      GraftedParent(t, p, sub, q);
    }
  }

  lemma GraftedParent(t: Tree, p: Path, sub: Tree, q: Path)
    requires ValidTree(t) && ValidSub(sub) && Fits(t, p, sub) && q in Grafted(t, p, sub) && q != []
    ensures Parent(q) in Grafted(t, p, sub) && Grafted(t, p, sub)[Parent(q)] == Dir
  {
    GraftedAt(t, p, sub);
    if p <= q && q[|p|..] in sub {
      if q[|p|..] != [] {
        assert Parent(q[|p|..]) in sub && sub[Parent(q[|p|..])] == Dir;
        assert Parent(q)[|p|..] == Parent(q[|p|..]) && p <= Parent(q);
      } else {
        assert q == p && !(p <= Parent(q));
      }
    } else if p <= Parent(q) && Parent(q)[|p|..] in sub {
      var s := Parent(q)[|p|..];
      assert Parent(q) == p + s && Parent(q) < q && q in t;
      assert GivesWay(t, p + s, sub[s]);
    }
  }

  lemma MovedAt(t: Tree, from: Path, to: Path)
    requires !(from <= to) && !(to <= from)
    requires forall q :: q in t ==> !(to <= q)
    ensures forall q :: !(from <= q) && !(to <= q) ==> (q in Moved(t, from, to) <==> q in t)
    ensures forall q :: !(from <= q) && !(to <= q) && q in t ==> Moved(t, from, to)[q] == t[q]
    ensures forall q :: from <= q ==> q !in Moved(t, from, to)
    ensures forall q :: to <= q ==> (q in Moved(t, from, to) <==> Rebase(q, to, from) in t)
    ensures forall q :: to <= q && q in Moved(t, from, to) ==> Moved(t, from, to)[q] == t[Rebase(q, to, from)]
  {
    var m := Moved(t, from, to);
    forall r | from <= r
      ensures to <= Rebase(r, from, to) && Rebase(Rebase(r, from, to), to, from) == r
    {
      RebaseBack(r, from, to);
    }
    forall q | to <= q
      ensures from <= Rebase(q, to, from) && Rebase(Rebase(q, to, from), from, to) == q
    {
      RebaseBack(q, to, from);
    }
    forall q | from <= q ensures !(to <= q) && q !in m {
      if to <= q { Comparable(from, to, q); }
    }
  }

  /** Away from both ends a rename changes nothing, whatever it replaced. */
  lemma MovedElsewhere(t: Tree, from: Path, to: Path)
    ensures forall q :: !(from <= q) && !(to <= q) ==> (q in Moved(t, from, to) <==> q in t)
    ensures forall q :: !(from <= q) && !(to <= q) && q in t ==> Moved(t, from, to)[q] == t[q]
  {
  }

  /** The system lets `rename(from, to)` through: a file or a link gives way to a file or a link. */
  predicate CanRename(t: Tree, from: Path, to: Path) {
    && from in t && to != [] && Parent(to) in t && t[Parent(to)] == Dir
    && (to !in t || (t[from] != Dir && t[to] != Dir))
  }

  lemma ReplacedAt(t: Tree, from: Path, to: Path)
    requires ValidTree(t) && from in t && to in t && t[from] != Dir && t[to] != Dir && to != from
    ensures Moved(t, from, to) == Without(t, from)[to := t[from]]
  {
    NothingBeneath(t, from);
    NothingBeneath(t, to);
    var m, n := Moved(t, from, to), Without(t, from)[to := t[from]];
    forall q | q in t ensures from <= q ==> q == from {}
    forall q | to <= q && Rebase(q, to, from) in t ensures q == to {
      assert from <= Rebase(q, to, from);
      assert q[|to|..] == [];
    }
    assert Rebase(to, to, from) == from && Rebase(from, from, to) == to;
    assert m.Keys == n.Keys;
  }

  lemma RenamedOnto(t: Tree, from: Path, to: Path)
    requires ValidTree(t) && from in t && to in t && t[from] != Dir && t[to] != Dir && to != from && to != []
    ensures Moved(t, from, to) == Without(t, from)[to := t[from]]
    ensures ValidTree(Moved(t, from, to))
  {
    ReplacedAt(t, from, to);
    hide Moved;
    NothingBeneath(t, from);
    NothingBeneath(t, to);
  }

  lemma MovedValid(t: Tree, from: Path, to: Path)
    requires ValidTree(t) && from in t && from != [] && to != [] && Parent(to) == Parent(from) && to != from
    requires to !in t
    ensures !(from <= to) && !(to <= from)
    ensures forall q :: q in t ==> !(to <= q)
    ensures ValidTree(Moved(t, from, to))
  {
    assert |from| == |to| && from == Parent(from) + [from[|from| - 1]] && to == Parent(to) + [to[|to| - 1]];
    NothingBeneath(t, to);
    forall q | q in t ensures !(to <= q) { assert to <= q ==> q == to || to < q; }
    MovedAt(t, from, to);
    var m := Moved(t, from, to);
    assert [] in m && m[[]] == Dir;
    forall q | q in m && q != [] ensures Parent(q) in m && m[Parent(q)] == Dir {
      if to <= q {
        if q == to {
          assert !(from <= Parent(q)) && !(to <= Parent(q));
        } else {
          RebaseBack(q, to, from);
          AboveParent(to, q);
          var r := Rebase(q, to, from);
          assert r in t && r != [] && Parent(r) == Rebase(Parent(q), to, from);
        }
      } else {
        assert q in t;
        assert !(to <= Parent(q));
        assert !(from <= Parent(q));
      }
    }
  }

  /** lstat's three answers. `Fault` is every error other than non-existence, ENOTDIR among them. */
  datatype Probe = Found(node: Node) | NotExist | Fault

  /** What lies outside the root: lstat there, and what a recursive copy of a source would write.
      Entry sources and link destinations are outside, so nothing the engine does changes it. */
  datatype World = World(probe: Path -> Probe, content: Path -> Tree)

  ghost predicate ValidWorld(w: World) {
    forall p :: w.probe(p).Found? ==>
      ValidSub(w.content(p)) && [] in w.content(p) && w.content(p)[[]] == w.probe(p).node
  }

  datatype View = View(tree: Tree, world: World)

  /** The deepest existing node on the way to `p`. */
  function Nearest(t: Tree, p: Path): (q: Path)
    ensures (q in t || q == []) && q <= p
    ensures forall k :: |q| < k <= |p| ==> p[..k] !in t
    decreases |p|
  {
    if p in t || p == [] then p else
      assert forall k :: |Parent(p)| < k <= |p| ==> p[..k] == p;
      assert forall k :: 0 <= k <= |Parent(p)| ==> Parent(p)[..k] == p[..k];
      Nearest(t, Parent(p))
  }

  lemma NearestIsLast(t: Tree, x: Path, r: Path)
    requires r in t && r <= x
    ensures r <= Nearest(t, x)
  {
    assert x[..|r|] == r;
    Comparable(r, Nearest(t, x), x);
  }

  lemma NearestIs(t: Tree, x: Path, q: Path)
    requires [] in t && q in t && q <= x && forall r :: r in t && r <= x ==> r <= q
    ensures Nearest(t, x) == q
  {
    NearestIsLast(t, x, q);
    SameOrAbove(q, Nearest(t, x));
  }

  /** lstat: a symlink on the way is followed out of the root, a file on the way is ENOTDIR. */
  function Lstat(v: View, p: Path): Probe {
    if p in v.tree then Found(v.tree[p])
    else
      var q := Nearest(v.tree, p);
      if q !in v.tree then NotExist else
      match v.tree[q]
      case Dir => NotExist
      case File(_) => Fault
      case Link(d) => v.world.probe(d + p[|q|..])
  }

  datatype Option<+T> = None | Some(value: T)

  function Readlink(v: View, p: Path): Option<Path> {
    match Lstat(v, p)
    case Found(Link(d)) => Some(d)
    case _ => None
  }

  function NamesIn(t: Tree, d: Path): set<Name> {
    set q | q in t && |q| == |d| + 1 && d < q :: q[|d|]
  }

  /** `os.ReadDir`. */
  function ReadDir(t: Tree, d: Path): (names: seq<Name>)
    ensures forall n :: n in names <==> d + [n] in t
    ensures forall i, j :: 0 <= i < j < |names| ==> names[i] != names[j]
  {
    assert forall n :: d + [n] in t ==> n in NamesIn(t, d) by {
      forall n | d + [n] in t ensures n in NamesIn(t, d) {
        var q := d + [n];
        assert q in t && |q| == |d| + 1 && d < q && q[|d|] == n;
      }
    }
    assert forall n :: n in NamesIn(t, d) ==> d + [n] in t by {
      forall n | n in NamesIn(t, d) ensures d + [n] in t {
        var q :| q in t && |q| == |d| + 1 && d < q && q[|d|] == n;
        assert q == d + [n];
      }
    }
    Listings.Sorted(NamesIn(t, d))
  }
}
