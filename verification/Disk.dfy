/** The tree under the root as the operating system serves it. */
module Disks {
  import opened Sequences
  import opened Paths
  import opened Trees
  import opened Steps
  import opened Undo
  import opened Program

  // The parents of a target, one at a time.

  lemma OneMoreMade(t: Tree, p: Path, k: nat)
    requires k < |p| && p[..k] !in t
    ensures Parents(t, p, k + 1) == Parents(t, p, k) + [MkParent(p[..k])]
    ensures WithParents(t, p, k + 1) == WithParents(t, p, k)[p[..k] := Dir]
    ensures Exec(t, Parents(t, p, k) + [MkParent(p[..k])]) == Exec(t, Parents(t, p, k))[p[..k] := Dir]
  {
    WithOneMoreParent(t, p, k + 1);
    ButLast(Parents(t, p, k), MkParent(p[..k]));
  }

  lemma OneMoreThere(t: Tree, p: Path, k: nat)
    requires k < |p| && p[..k] in t
    ensures Parents(t, p, k + 1) == Parents(t, p, k)
    ensures WithParents(t, p, k + 1) == WithParents(t, p, k)
  {
    WithOneMoreParent(t, p, k + 1);
    EmptyEnd(Parents(t, p, k), []);
  }

  lemma ThereBefore(t: Tree, p: Path, k: nat)
    requires k <= |p|
    ensures p[..k] in WithParents(t, p, k) <==> p[..k] in t
    ensures p[..k] in t ==> WithParents(t, p, k)[p[..k]] == t[p[..k]]
  {
    forall j | 0 <= j < k ensures p[..j] != p[..k] { assert |p[..j]| == j; }
  }

  lemma {:induction false} MoreParents(t: Tree, p: Path, k: nat, n: nat)
    requires k <= n <= |p|
    ensures Parents(t, p, k) <= Parents(t, p, n)
    decreases n
  {
    if k < n { MoreParents(t, p, k, n - 1); }
  }

  /** An obstacle on the way is met before anything is made. */
  lemma BlockedEarly(t: Tree, p: Path, k: nat)
    requires ValidTree(t) && k <= |p| && p[..k] in t
    ensures Parents(t, p, k) == []
  {
    forall j | 0 <= j < k ensures p[..j] in t { AncestorsAreDirs(t, p[..k], p[..j]); }
    NoParents(t, p, k);
  }

  lemma OpenFrom(t: Tree, p: Path, k: nat)
    requires ValidTree(t) && k <= |p| && p[..k] !in t
    requires forall j :: 0 <= j < k && p[..j] in t ==> t[p[..j]] == Dir
    ensures WayClear(t, p)
  {
    NothingBeneath(t, p[..k]);
    forall j | k <= j < |p| ensures p[..j] !in t { if j > k { assert p[..k] < p[..j]; } }
  }

  lemma RoomForParent(t: Tree, p: Path, k: nat)
    requires ValidTree(t) && k < |p| && p[..k] !in t && WayClear(t, p)
    ensures Room(WithParents(t, p, k), p[..k])
  {
    OneMoreParent(t, p, k + 1);
  }

  /** What a copy that stops midway has written: some of the nodes, none without its directory. */
  predicate IsPart(part: Tree, content: Tree) {
    forall r :: r in part ==>
      r in content && part[r] == content[r] && (r != [] ==> Parent(r) in part && part[Parent(r)] == Dir)
  }

  /** What a removal of everything under `p` that stops midway leaves: a tree that lacks some of it. */
  predicate IsRest(left: Tree, t: Tree, p: Path) {
    && (forall q :: q in left ==> q in t && left[q] == t[q] && (q != [] ==> Parent(q) in left && left[Parent(q)] == Dir))
    && (forall q :: q in t && !(p <= q) ==> q in left)
  }

  datatype Errno = Done | Absent | NotEmpty | OtherError

  /** Calls refused for no reason the tree shows are left to chance, and counted. */
  class Disk {
    const world: World
    var tree: Tree
    ghost var faults: nat

    constructor (world: World, tree: Tree)
      ensures this.world == world && this.tree == tree && faults == 0
    {
      this.world := world;
      this.tree := tree;
      this.faults := 0;
    }

    function Sight(): View
      reads this
    {
      View(tree, world)
    }

    // The inverses an undo runs fail only over what stands in the tree.

    method Remove(p: Path) returns (r: Errno)
      modifies `tree
      ensures r == Done ==> p != [] && p in old(tree) && Vacant(old(tree), p) && tree == Without(old(tree), p)
      ensures r != Done ==> tree == old(tree)
      ensures r == Absent <==> p != [] && p !in old(tree)
      ensures r == NotEmpty <==> p != [] && p in old(tree) && !Vacant(old(tree), p)
      ensures r == OtherError <==> p == []
    {
      if p == [] { return OtherError; }
      if p !in tree { return Absent; }
      if !Vacant(tree, p) { return NotEmpty; }
      tree := Without(tree, p);
      return Done;
    }

    predicate HasRoom(p: Path)
      reads this
    {
      p != [] && p !in tree && Parent(p) in tree && tree[Parent(p)] == Dir
    }

    method Symlink(dest: Path, p: Path) returns (ok: bool)
      modifies `tree
      ensures ok == Room(old(tree), p)
      ensures tree == if ok then old(tree)[p := Link(dest)] else old(tree)
    {
      ok := HasRoom(p);
      if ok { tree := tree[p := Link(dest)]; }
    }

    method Mkdir(p: Path) returns (ok: bool)
      modifies `tree
      ensures ok == Room(old(tree), p)
      ensures tree == if ok then old(tree)[p := Dir] else old(tree)
    {
      ok := HasRoom(p);
      if ok { tree := tree[p := Dir]; }
    }

    /** A rename onto a directory is refused; a file or a link gives way to a file or a link. */
    method Rename(from: Path, to: Path) returns (ok: bool)
      modifies `tree
      ensures ok == CanRename(old(tree), from, to)
      ensures tree == if ok then Moved(old(tree), from, to) else old(tree)
    {
      ok := CanRename(tree, from, to);
      if ok { tree := Moved(tree, from, to); }
    }

    method RemoveAll(p: Path)
      modifies `tree
      ensures tree == Pruned(old(tree), p)
    {
      tree := Pruned(tree, p);
    }

    // Forward calls.

    method Refuses() returns (refused: bool)
      modifies `faults
      ensures faults == old(faults) + if refused then 1 else 0
    {
      refused := *;
      if refused { faults := faults + 1; }
    }

    method TryRemove(p: Path) returns (r: Errno)
      modifies this
      ensures r == Done ==> p != [] && p in old(tree) && Vacant(old(tree), p) && tree == Without(old(tree), p)
      ensures r != Done ==> tree == old(tree)
      ensures r == Absent ==> p !in old(tree)
      ensures r == NotEmpty ==> p in old(tree) && !Vacant(old(tree), p)
      ensures faults >= old(faults) && (faults == old(faults) && p != [] ==> r != OtherError)
    {
      var refused := Refuses();
      if refused { return OtherError; }
      r := Remove(p);
    }

    method TrySymlink(dest: Path, p: Path) returns (ok: bool)
      modifies this
      ensures ok ==> Room(old(tree), p) && tree == old(tree)[p := Link(dest)]
      ensures !ok ==> tree == old(tree)
      ensures faults >= old(faults) && (faults == old(faults) ==> ok == Room(old(tree), p))
    {
      var refused := Refuses();
      if refused { return false; }
      ok := Symlink(dest, p);
    }

    method TryRename(from: Path, to: Path) returns (ok: bool)
      modifies this
      ensures ok ==> CanRename(old(tree), from, to) && tree == Moved(old(tree), from, to)
      ensures !ok ==> tree == old(tree)
      ensures faults >= old(faults) && (faults == old(faults) ==> ok == CanRename(old(tree), from, to))
    {
      var refused := Refuses();
      if refused { return false; }
      ok := Rename(from, to);
    }

    /** MkdirAll of everything strictly above `target`: outermost first, and it may stop on the way. */
    method TryMkdirAll(target: Path) returns (ok: bool, ghost made: seq<Event>)
      requires ValidTree(tree) && target != []
      modifies this
      ensures made <= Parents(old(tree), target, |target|) && tree == Exec(old(tree), made)
      ensures ok ==> WayClear(old(tree), target) && made == Parents(old(tree), target, |target|)
      ensures !WayClear(old(tree), target) ==> made == []
      ensures faults >= old(faults) && (faults == old(faults) ==> ok == WayClear(old(tree), target))
    {
      hide Exec, Parents, WithParents, WayClear, Room;
      ghost var t := tree;
      made := [];
      var k := 0;
      NoneMadeYet(t, target);
      while k < |target|
        invariant 0 <= k <= |target|
        invariant made == Parents(t, target, k) && tree == Exec(t, made) && tree == WithParents(t, target, k)
        invariant forall j :: 0 <= j < k && target[..j] in t ==> t[target[..j]] == Dir
        invariant faults == old(faults)
      {
        var q := target[..k];
        ThereBefore(t, target, k);
        MoreParents(t, target, k, |target|);
        if q in tree {
          if tree[q] != Dir {
            BlockedEarly(t, target, k);
            Blocked(t, target, k);
            return false, made;
          }
          OneMoreThere(t, target, k);
        } else {
          OpenFrom(t, target, k);
          var refused := Refuses();
          if refused { return false, made; }
          RoomForParent(t, target, k);
          var created := Mkdir(q);
          OneMoreMade(t, target, k);
          made := made + [MkParent(q)];
        }
        k := k + 1;
      }
      WholeWay(t, target);
      ok := true;
    }

    lemma NoneMadeYet(t: Tree, p: Path)
      ensures Parents(t, p, 0) == [] && Exec(t, []) == t && WithParents(t, p, 0) == t
    {
    }

    lemma WholeWay(t: Tree, p: Path)
      ensures (forall j :: 0 <= j < |p| && p[..j] in t ==> t[p[..j]] == Dir) ==> WayClear(t, p)
    {
    }

    lemma Blocked(t: Tree, p: Path, k: nat)
      requires k < |p| && p[..k] in t && t[p[..k]] != Dir
      ensures !WayClear(t, p)
    {
    }

    /** A recursive copy, over what gives way to it. One that fails may have written a part of the
        subtree, parents first. */
    method TryCopyTree(src: Path, dst: Path) returns (ok: bool, ghost written: Option<Tree>)
      requires ValidWorld(world)
      modifies this
      ensures ok ==> world.probe(src).Found? && written == Some(world.content(src))
      ensures written.None? ==> tree == old(tree)
      ensures written.Some? ==>
                && world.probe(src).Found? && Fits(old(tree), dst, world.content(src))
                && IsPart(written.value, world.content(src))
                && tree == Grafted(old(tree), dst, written.value)
      ensures faults >= old(faults)
      ensures faults == old(faults) ==> ok == (world.probe(src).Found? && Fits(old(tree), dst, world.content(src)))
    {
      if !world.probe(src).Found? { return false, None; }
      var content := world.content(src);
      if !Fits(tree, dst, content) { return false, None; }
      var refused := Refuses();
      if refused {
        var part: Tree := *;
        if !IsPart(part, content) { return false, None; }
        tree := Grafted(tree, dst, part);
        return false, Some(part);
      }
      tree := Grafted(tree, dst, content);
      return true, Some(content);
    }

    /** RemoveAll as a forward call: one that fails may have taken some of what is beneath `p`. */
    method TryRemoveAll(p: Path) returns (ok: bool)
      requires ValidTree(tree) && p != []
      modifies this
      ensures ok ==> tree == Pruned(old(tree), p)
      ensures forall q :: q in tree ==> q in old(tree) && tree[q] == old(tree)[q]
      ensures forall q :: q in old(tree) && q !in tree ==> p <= q
      ensures ValidTree(tree)
      ensures faults >= old(faults) && (faults == old(faults) ==> ok)
    {
      var refused := Refuses();
      if refused {
        var left: Tree := *;
        if IsRest(left, tree, p) { tree := left; }
        return false;
      }
      PrunedValid(tree, p);
      tree := Pruned(tree, p);
      return true;
    }
  }
}
