/** Removal lists that can be carried out front to back, and why the planner's are such lists. */
module Migrations {
  import opened Sequences
  import opened Paths
  import opened Trees
  import opened Manifests
  import opened Planner
  import opened Steps
  import opened Program
  import opened Runs

  function At(actions: seq<RemoveAction>): set<Path> {
    set a | a in actions :: a.At()
  }

  function AtOrBelow(t: Tree, p: Path): set<Path> {
    set q | q in t && p <= q
  }

  function StrictlyBelow(t: Tree, p: Path): set<Path> {
    set q | q in t && p < q
  }

  /** Each unlink names a link that points where its entry recorded, each rmdir a directory all of
      whose contents are removed earlier in the list, and nothing is listed twice. */
  ghost predicate Ordered(t: Tree, actions: seq<RemoveAction>) {
    actions == [] ||
    var init, a := actions[..|actions| - 1], actions[|actions| - 1];
    && Ordered(t, init)
    && a.At() != [] && a.At() in t && a.At() !in At(init)
    && match a
       case Unlink(e) => t[e.target] == Link(LinkDest(e))
       case Rmdir(dir) => t[dir] == Dir && StrictlyBelow(t, dir) <= At(init)
  }

  lemma AtSnoc(init: seq<RemoveAction>, a: RemoveAction)
    ensures At(init + [a]) == At(init) + {a.At()}
  {
  }

  lemma AtConcat(a: seq<RemoveAction>, b: seq<RemoveAction>)
    ensures At(a + b) == At(a) + At(b)
  {
  }

  lemma {:induction false} OrderedConcat(t: Tree, a: seq<RemoveAction>, b: seq<RemoveAction>)
    requires Ordered(t, a) && Ordered(t, b) && At(a) !! At(b)
    ensures Ordered(t, a + b)
    decreases |b|
  {
    if b == [] {
      assert a + b == a;
    } else {
      var init, x := b[..|b| - 1], b[|b| - 1];
      assert b == init + [x];
      AtSnoc(init, x);
      OrderedConcat(t, a, init);
      AtConcat(a, init);
      assert (a + b)[..|a + b| - 1] == a + init;
    }
  }

  lemma OrderedSnoc(t: Tree, init: seq<RemoveAction>, a: RemoveAction)
    requires Ordered(t, init) && a.At() != [] && a.At() in t && a.At() !in At(init)
    requires a.Unlink? ==> t[a.entry.target] == Link(LinkDest(a.entry))
    requires a.Rmdir? ==> t[a.dir] == Dir && StrictlyBelow(t, a.dir) <= At(init)
    ensures Ordered(t, init + [a])
  {
    assert (init + [a])[..|init + [a]| - 1] == init;
  }

  function PreAction(a: RemoveAction): Action {
    if a.Unlink? then PreDrop(a.entry) else PreRmDir(a.dir)
  }

  function PreActions(actions: seq<RemoveAction>): seq<Action> {
    if actions == [] then [] else PreActions(actions[..|actions| - 1]) + [PreAction(actions[|actions| - 1])]
  }

  function Cut(t: Tree, gone: set<Path>): Tree {
    map q | q in t && q !in gone :: t[q]
  }

  function PreEvent(a: RemoveAction): Event {
    if a.Unlink? then Drop(a.entry.target, LinkDest(a.entry)) else RmDir(a.dir)
  }

  function PreEvents(actions: seq<RemoveAction>): seq<Event> {
    if actions == [] then [] else PreEvents(actions[..|actions| - 1]) + [PreEvent(actions[|actions| - 1])]
  }

  lemma OrderedStep(w: World, t: Tree, init: seq<RemoveAction>, a: RemoveAction)
    requires ValidTree(t) && a.At() != [] && a.At() in t && a.At() !in At(init)
    requires a.Unlink? ==> t[a.entry.target] == Link(LinkDest(a.entry))
    requires a.Rmdir? ==> t[a.dir] == Dir && StrictlyBelow(t, a.dir) <= At(init)
    ensures RunOne(View(Cut(t, At(init)), w), PreAction(a)) == Outcome([PreEvent(a)], true)
    ensures Undrifted(Cut(t, At(init)), PreAction(a))
    ensures Apply(Cut(t, At(init)), PreEvent(a)) == Cut(t, At(init + [a]))
  {
    var mid := Cut(t, At(init));
    AtSnoc(init, a);
    assert a.At() in mid && mid[a.At()] == t[a.At()];
    if a.Rmdir? {
      assert forall q :: q in mid ==> q !in StrictlyBelow(t, a.dir);
    }
    assert Cut(t, At(init + [a])) == Without(mid, a.At());
  }

  /** An ordered list runs front to back without being refused: each unlink still finds its recorded
      link, each rmdir meets an empty directory, and exactly the listed paths go. */
  lemma {:induction false} OrderedRuns(w: World, t: Tree, actions: seq<RemoveAction>)
    requires ValidTree(t) && Ordered(t, actions)
    ensures RunAll(w, t, PreActions(actions)) == Outcome(PreEvents(actions), true)
    ensures End(w, t, PreActions(actions)) == Cut(t, At(actions))
    ensures NoDrift(w, t, PreActions(actions))
    decreases |actions|
  {
    if actions == [] {
      assert Cut(t, {}) == t;
    } else {
      var init, a := actions[..|actions| - 1], actions[|actions| - 1];
      OrderedRuns(w, t, init);
      LastOf(actions);
      OrderedStep(w, t, init, a);
      OneMorePre(w, t, init, a);
    }
  }

  lemma OneMorePre(w: World, t: Tree, init: seq<RemoveAction>, a: RemoveAction)
    requires RunAll(w, t, PreActions(init)) == Outcome(PreEvents(init), true)
    requires End(w, t, PreActions(init)) == Cut(t, At(init)) && NoDrift(w, t, PreActions(init))
    requires RunOne(View(Cut(t, At(init)), w), PreAction(a)) == Outcome([PreEvent(a)], true)
    requires Undrifted(Cut(t, At(init)), PreAction(a))
    requires Apply(Cut(t, At(init)), PreEvent(a)) == Cut(t, At(init + [a]))
    ensures RunAll(w, t, PreActions(init + [a])) == Outcome(PreEvents(init + [a]), true)
    ensures End(w, t, PreActions(init + [a])) == Cut(t, At(init + [a]))
    ensures NoDrift(w, t, PreActions(init + [a]))
  {
    hide RunOne, Cut, At, Apply, PreAction, PreEvent, Undrifted;
    ButLast(init, a);
    ButLast(PreActions(init), PreAction(a));
    ButLast(PreEvents(init), PreEvent(a));
    RunAllSnoc(w, t, PreActions(init), PreAction(a));
  }

  /** A leaf a migration may take: recorded, still as recorded, and dropped by next. */
  predicate Droppable(job: Job, q: Path) {
    q in job.view.tree && job.view.tree[q].Link? && q !in job.NextBy() && job.RecordedLink(q)
  }

  predicate Takeable(job: Job, q: Path) {
    q in job.view.tree && (job.view.tree[q] == Dir || Droppable(job, q))
  }

  ghost predicate Takes(job: Job, actions: seq<RemoveAction>) {
    forall a :: a in actions ==>
      && a.At() in job.view.tree
      && (a.Unlink? ==> Droppable(job, a.At()) && a.entry == job.PrevBy()[a.At()])
      && (a.Rmdir? ==> job.view.tree[a.At()] == Dir)
  }

  lemma ChildIsBelow(job: Job, dir: Path, name: Name)
    requires dir + [name] in job.view.tree
    ensures job.Below(dir + [name]) < job.Below(dir)
  {
    assert dir + [name] in job.Below(dir);
  }

  lemma DirAndBelow(t: Tree, child: Path)
    requires child in t
    ensures AtOrBelow(t, child) == StrictlyBelow(t, child) + {child}
  {
    forall q | q in t ensures child <= q <==> q == child || child < q {}
  }

  lemma LeafAlone(t: Tree, child: Path)
    requires ValidTree(t) && child in t && t[child] != Dir
    ensures AtOrBelow(t, child) == {child}
  {
    NothingBeneath(t, child);
    forall q | q in AtOrBelow(t, child) ensures q == child { assert q == child || child < q; }
  }

  /** What a migration of a child comes to: it is taken with everything beneath it, or something there is
      in the way. */
  ghost predicate TakesChild(job: Job, child: Path, r: Migration) {
    match r
    case Migratable(actions) =>
      && Ordered(job.view.tree, actions) && Takes(job, actions)
      && At(actions) == AtOrBelow(job.view.tree, child)
    case Refused => exists q :: q in AtOrBelow(job.view.tree, child) && !Takeable(job, q)
  }

  lemma DirTaken(job: Job, child: Path, actions: seq<RemoveAction>)
    requires job.Valid() && child in job.view.tree && job.view.tree[child] == Dir && child != []
    requires Ordered(job.view.tree, actions) && Takes(job, actions) && At(actions) == StrictlyBelow(job.view.tree, child)
    ensures TakesChild(job, child, Migratable(actions + [Rmdir(child)]))
  {
    hide Ordered, Droppable;
    DirAndBelow(job.view.tree, child);
    OrderedSnoc(job.view.tree, actions, Rmdir(child));
    AtSnoc(actions, Rmdir(child));
  }

  lemma DirRefused(job: Job, child: Path, q: Path)
    requires q in StrictlyBelow(job.view.tree, child) && !Takeable(job, q)
    ensures TakesChild(job, child, Refused)
  {
    hide Takeable;
    assert q in AtOrBelow(job.view.tree, child);
  }

  lemma LeafTaken(job: Job, child: Path)
    requires job.Valid() && child in job.view.tree && job.view.tree[child] != Dir && child != [] && Droppable(job, child)
    ensures child in job.PrevBy() && TakesChild(job, child, Migratable([Unlink(job.PrevBy()[child])]))
  {
    LeafAlone(job.view.tree, child);
    var a := Unlink(job.PrevBy()[child]);
    OrderedSnoc(job.view.tree, [], a);
    AtSnoc([], a);
    assert [] + [a] == [a] && At([]) == {};
  }

  lemma LeafRefused(job: Job, child: Path)
    requires child in job.view.tree && job.view.tree[child] != Dir && !Droppable(job, child)
    ensures TakesChild(job, child, Refused)
  {
    assert child in AtOrBelow(job.view.tree, child) && !Takeable(job, child);
  }

  lemma {:induction false} MigrateChildFacts(job: Job, dir: Path, name: Name)
    requires job.Valid() && dir + [name] in job.view.tree
    ensures TakesChild(job, dir + [name], job.MigrateChild(dir, name))
    decreases job.Below(dir), 0, 0
  {
    var child := dir + [name];
    ChildIsBelow(job, dir, name);
    hide TakesChild, Ordered, Takes, Takeable;
    if job.view.tree[child] == Dir {
      MigrateDirFacts(job, child);
      match job.MigrateDir(child)
      case Migratable(actions) => DirTaken(job, child, actions);
      case Refused =>
        var q :| q in StrictlyBelow(job.view.tree, child) && !Takeable(job, q);
        DirRefused(job, child, q);
    } else if Droppable(job, child) {
      LeafTaken(job, child);
    } else {
      LeafRefused(job, child);
    }
  }

  ghost function UnderNames(t: Tree, dir: Path, names: seq<Name>): set<Path> {
    set q | q in t && dir < q && q[|dir|] in names
  }

  lemma UnderOneMore(t: Tree, dir: Path, init: seq<Name>, name: Name)
    ensures UnderNames(t, dir, init + [name]) == UnderNames(t, dir, init) + AtOrBelow(t, dir + [name])
    ensures name !in init ==> UnderNames(t, dir, init) !! AtOrBelow(t, dir + [name])
  {
    forall q ensures dir + [name] <= q <==> dir < q && q[|dir|] == name {
      if dir < q && q[|dir|] == name { assert q[..|dir| + 1] == dir + [name]; }
    }
  }

  lemma {:induction false} MigrateChildrenFacts(job: Job, dir: Path, names: seq<Name>)
    requires job.Valid() && forall n :: n in names ==> dir + [n] in job.view.tree
    requires forall i, j :: 0 <= i < j < |names| ==> names[i] != names[j]
    ensures match job.MigrateChildren(dir, names)
            case Migratable(actions) =>
              && Ordered(job.view.tree, actions) && Takes(job, actions)
              && At(actions) == UnderNames(job.view.tree, dir, names)
            case Refused => exists q :: q in UnderNames(job.view.tree, dir, names) && !Takeable(job, q)
    decreases job.Below(dir), 0, |names|
  {
    var t := job.view.tree;
    if names != [] {
      var init, name := names[..|names| - 1], names[|names| - 1];
      assert names == init + [name];
      assert name !in init;
      UnderOneMore(t, dir, init, name);
      MigrateChildrenFacts(job, dir, init);
      match job.MigrateChildren(dir, init)
      case Refused =>
        var q :| q in UnderNames(t, dir, init) && !Takeable(job, q);
        assert q in UnderNames(t, dir, names);
      case Migratable(before) =>
        MigrateChildFacts(job, dir, name);
        match job.MigrateChild(dir, name)
        case Refused =>
          var q :| q in AtOrBelow(t, dir + [name]) && !Takeable(job, q);
          assert q in UnderNames(t, dir, names);
        case Migratable(actions) =>
          OrderedConcat(t, before, actions);
          AtConcat(before, actions);
    }
  }

  /** classifyDirMigration: a directory is migratable exactly when everything beneath it is a directory
      or a recorded link that next drops; the list then takes exactly what is beneath it, children
      first. */
  lemma {:induction false} MigrateDirFacts(job: Job, dir: Path)
    requires job.Valid() && dir in job.view.tree && job.view.tree[dir] == Dir
    ensures match job.MigrateDir(dir)
            case Migratable(actions) =>
              && Ordered(job.view.tree, actions) && Takes(job, actions)
              && At(actions) == StrictlyBelow(job.view.tree, dir)
            case Refused => exists q :: q in StrictlyBelow(job.view.tree, dir) && !Takeable(job, q)
    decreases job.Below(dir), 1, 0
  {
    var t, names := job.view.tree, ReadDir(job.view.tree, dir);
    MigrateChildrenFacts(job, dir, names);
    forall q | q in StrictlyBelow(t, dir) ensures q in UnderNames(t, dir, names) {
      var child := q[..|dir| + 1];
      if child != q { AncestorsAreDirs(t, q, child); }
      assert child == dir + [q[|dir|]];
    }
    assert UnderNames(t, dir, names) == StrictlyBelow(t, dir);
  }

  lemma MigratableExactly(job: Job, dir: Path)
    requires job.Valid() && dir in job.view.tree && job.view.tree[dir] == Dir
    ensures job.MigrateDir(dir).Migratable? <==>
            forall q :: q in job.view.tree && dir < q ==> Takeable(job, q)
  {
    MigrateDirFacts(job, dir);
    match job.MigrateDir(dir)
    case Refused =>
    case Migratable(actions) =>
      forall q | q in job.view.tree && dir < q ensures Takeable(job, q) {
        assert q in At(actions);
        var a :| a in actions && a.At() == q;
      }
  }
}
