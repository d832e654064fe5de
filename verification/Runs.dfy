/** Whole runs: a list of actions carried out one after the other, cut short anywhere. */
module Runs {
  import opened Paths
  import opened Trees
  import opened Manifests
  import opened Planner
  import opened Steps
  import opened Undo
  import opened Program

  /** One more action after what came before. */
  function Step(w: World, t: Tree, before: Outcome, a: Action): Outcome {
    if !before.done then before
    else
      var last := RunOne(View(Exec(t, before.events), w), a);
      Outcome(before.events + last.events, last.done)
  }

  /** The writes of a run in which no call fails. */
  function RunAll(w: World, t: Tree, actions: seq<Action>): Outcome {
    if actions == [] then Outcome([], true)
    else Step(w, t, RunAll(w, t, actions[..|actions| - 1]), actions[|actions| - 1])
  }

  /** Where a run without failures leaves the tree. */
  function End(w: World, t: Tree, actions: seq<Action>): Tree {
    Exec(t, RunAll(w, t, actions).events)
  }

  lemma RunAllSnoc(w: World, t: Tree, init: seq<Action>, a: Action)
    ensures RunAll(w, t, init + [a]) == Step(w, t, RunAll(w, t, init), a)
  {
    assert (init + [a])[..|init + [a]| - 1] == init;
  }

  function Join(first: Outcome, rest: Outcome): Outcome {
    if first.done then Outcome(first.events + rest.events, rest.done) else first
  }

  lemma StepJoin(w: World, t: Tree, first: Outcome, rest: Outcome, a: Action)
    requires first.done
    ensures Step(w, t, Join(first, rest), a) == Join(first, Step(w, Exec(t, first.events), rest, a))
  {
    if rest.done {
      ExecConcat(t, first.events, rest.events);
      var last := RunOne(View(Exec(Exec(t, first.events), rest.events), w), a);
      assert (first.events + rest.events) + last.events == first.events + (rest.events + last.events);
    }
  }

  lemma {:induction false} RunAllConcat(w: World, t: Tree, a: seq<Action>, b: seq<Action>)
    ensures RunAll(w, t, a + b) == Join(RunAll(w, t, a), RunAll(w, End(w, t, a), b))
    decreases |b|
  {
    var first := RunAll(w, t, a);
    if b == [] {
      assert a + b == a;
      assert first.events + [] == first.events;
    } else {
      var init, x := b[..|b| - 1], b[|b| - 1];
      assert a + b == (a + init) + [x];
      RunAllConcat(w, t, a, init);
      RunAllSnoc(w, t, a + init, x);
      if first.done {
        StepJoin(w, t, first, RunAll(w, End(w, t, a), init), x);
      }
    }
  }

  /** A run that went through both parts ends where the second part, begun where the first ended, ends. */
  lemma EndConcat(w: World, t: Tree, a: seq<Action>, b: seq<Action>)
    requires RunAll(w, t, a).done
    ensures End(w, t, a + b) == End(w, End(w, t, a), b)
    ensures RunAll(w, t, a + b).done == RunAll(w, End(w, t, a), b).done
    ensures RunAll(w, t, a + b).events == RunAll(w, t, a).events + RunAll(w, End(w, t, a), b).events
  {
    RunAllConcat(w, t, a, b);
    ExecConcat(t, RunAll(w, t, a).events, RunAll(w, End(w, t, a), b).events);
  }

  lemma {:induction false} RunAllLegal(w: World, t: Tree, actions: seq<Action>)
    requires ValidTree(t) && ValidWorld(w)
    ensures Legal(t, RunAll(w, t, actions).events) && ValidTree(End(w, t, actions))
    decreases |actions|
  {
    if actions != [] {
      var init, a := actions[..|actions| - 1], actions[|actions| - 1];
      RunAllLegal(w, t, init);
      var before := RunAll(w, t, init);
      if before.done {
        var v := View(Exec(t, before.events), w);
        RunOneLegal(v, a);
        LegalConcat(t, before.events, RunOne(v, a).events);
      }
    }
    LegalValid(t, RunAll(w, t, actions).events);
  }

  /** Each action, when its turn comes, meets nothing it would destroy. */
  ghost predicate NoDrift(w: World, t: Tree, actions: seq<Action>) {
    actions == [] ||
    var init, a := actions[..|actions| - 1], actions[|actions| - 1];
    NoDrift(w, t, init) && (RunAll(w, t, init).done ==> Undrifted(End(w, t, init), a))
  }

  lemma {:induction false} RunAllLossless(w: World, t: Tree, actions: seq<Action>)
    requires ValidTree(t) && ValidWorld(w) && NoDrift(w, t, actions)
    ensures Lossless(t, RunAll(w, t, actions).events)
    decreases |actions|
  {
    if actions != [] {
      var init, a := actions[..|actions| - 1], actions[|actions| - 1];
      RunAllLossless(w, t, init);
      var before := RunAll(w, t, init);
      if before.done {
        RunAllLegal(w, t, init);
        var v := View(Exec(t, before.events), w);
        RunOneLegal(v, a);
        LosslessConcat(t, before.events, RunOne(v, a).events);
      }
    }
  }

  /** What a run can have written when it stops early: a prefix of its writes, the last copy of which
      may be incomplete. */
  ghost predicate CutOf(cut: seq<Event>, full: seq<Event>) {
    || cut <= full
    || (&& 0 < |cut| <= |full|
        && var n := |cut| - 1;
           && cut[..n] == full[..n]
           && cut[n].GraftPart? && full[n].Graft? && cut[n].path == full[n].path && ValidSub(cut[n].sub)
           && (forall r :: r in cut[n].sub ==> r in full[n].sub && cut[n].sub[r] == full[n].sub[r]))
  }

  lemma {:induction false} PrefixLegal(t: Tree, full: seq<Event>, n: nat)
    requires Legal(t, full) && n <= |full|
    ensures Legal(t, full[..n])
    ensures Lossless(t, full) ==> Lossless(t, full[..n])
    decreases |full|
  {
    if n < |full| {
      var init := full[..|full| - 1];
      PrefixLegal(t, init, n);
      assert init[..n] == full[..n];
    } else {
      assert full[..n] == full;
    }
  }

  lemma PartialLegal(t: Tree, init: seq<Event>, full: Event, part: Event)
    requires Legal(t, init + [full]) && full.Graft? && part.GraftPart? && part.path == full.path && ValidSub(part.sub)
    requires forall r :: r in part.sub ==> r in full.sub && part.sub[r] == full.sub[r]
    ensures Legal(t, init + [part])
    ensures Lossless(t, init + [full]) ==> Lossless(t, init + [part])
  {
    assert (init + [full])[..|init|] == init;
    assert Enabled(Exec(t, init), full) && Covered(Journal(init), full);
    LegalSnoc(t, init, part);
  }

  lemma PartialCut(cut: seq<Event>, full: seq<Event>)
    requires CutOf(cut, full) && !(cut <= full)
    ensures 0 < |cut| <= |full|
    ensures var n := |cut| - 1;
            && cut == cut[..n] + [cut[n]] && full[..n + 1] == cut[..n] + [full[n]]
            && full[n].Graft? && cut[n].GraftPart? && cut[n].path == full[n].path && ValidSub(cut[n].sub)
            && forall r :: r in cut[n].sub ==> r in full[n].sub && cut[n].sub[r] == full[n].sub[r]
  {
  }

  lemma CutLegal(t: Tree, cut: seq<Event>, full: seq<Event>)
    requires Legal(t, full) && CutOf(cut, full)
    ensures Legal(t, cut)
    ensures Lossless(t, full) ==> Lossless(t, cut)
  {
    hide Legal, Lossless, ValidSub;
    if cut <= full {
      PrefixLegal(t, full, |cut|);
      assert full[..|cut|] == cut;
    } else {
      PartialCut(cut, full);
      var n := |cut| - 1;
      PrefixLegal(t, full, n + 1);
      PartialLegal(t, cut[..n], full[n], cut[n]);
    }
  }

  /** Which action a write comes from. */
  predicate From(e: Event, a: Action) {
    match e
    case MkParent(p) => a.MakesParents() && p < a.entry.target
    case Drop(p, d) => (a.PreDrop? || a.DoDrop?) && p == a.entry.target && d == LinkDest(a.entry)
    case RmDir(p) => (a.PreRmDir? && p == a.dir) || (a.DoDrop? && p < a.entry.target)
    case BackUp(p, q) => a.DoBackup? && p == a.entry.target && q == a.aside
    case SetAside(p, q) => a.DoRecopy? && p == a.entry.target && q == a.AsidePath()
    case LinkNew(p, d) => a.DoPlace? && a.kind == PlaceNew && p == a.entry.target && d == LinkDest(a.entry)
    case Detach(p, _) => a.DoPlace? && a.kind != PlaceNew && p == a.entry.target
    case Relink(p, d) => a.DoPlace? && a.kind != PlaceNew && p == a.entry.target && d == LinkDest(a.entry)
    case OpenCopy(p) => (a.DoCopy? || a.DoRecopy?) && p == a.entry.target
    case Graft(p, _, existed) => (a.DoCopy? || a.DoRecopy?) && p == a.entry.target && (existed ==> a.DoRecopy?)
    case GraftPart(p, _) => (a.DoCopy? || a.DoRecopy?) && p == a.entry.target
  }

  lemma {:induction false} PrunesFrom(t: Tree, dir: Path, limit: nat)
    ensures forall e :: e in Prunes(t, dir, limit) ==> e.RmDir? && e.path <= dir
    decreases |dir|
  {
    if Prunes(t, dir, limit) != [] {
      PrunesFrom(Without(t, dir), Parent(dir), limit - 1);
    }
  }

  lemma RunPlaceFrom(v: View, e: Entry, kind: PlaceKind)
    ensures forall x :: x in RunPlace(v, e, kind).events ==> From(x, DoPlace(e, kind))
  {
    ParentsMade(v.tree, e.target, |e.target|);
  }

  lemma RunCopyFrom(v: View, e: Entry)
    ensures forall x :: x in RunCopy(v, e).events ==> From(x, DoCopy(e))
  {
    ParentsMade(v.tree, e.target, |e.target|);
  }

  lemma RunRecopyFrom(v: View, e: Entry)
    ensures forall x :: x in RunRecopy(v, e).events ==> From(x, DoRecopy(e))
  {
    ParentsMade(v.tree, e.target, |e.target|);
  }

  lemma RunDropFrom(v: View, e: Entry, limit: nat)
    ensures forall x :: x in RunDrop(v, e, limit).events ==> From(x, DoDrop(e, limit))
  {
    PrunesFrom(Without(v.tree, e.target), Parent(e.target), limit);
  }

  lemma RunOneFrom(v: View, a: Action)
    ensures forall e :: e in RunOne(v, a).events ==> From(e, a)
  {
    match a
    case PreDrop(e) =>
    case PreRmDir(dir) =>
    case DoBackup(e, aside) =>
    case DoPlace(e, kind) => RunPlaceFrom(v, e, kind);
    case DoCopy(e) => RunCopyFrom(v, e);
    case DoRecopy(e) => RunRecopyFrom(v, e);
    case DoDrop(e, limit) => RunDropFrom(v, e, limit);
  }

  lemma {:induction false} RunAllFrom(w: World, t: Tree, actions: seq<Action>, e: Event) returns (a: Action)
    requires e in RunAll(w, t, actions).events
    ensures a in actions && From(e, a)
    decreases |actions|
  {
    var init, last := actions[..|actions| - 1], actions[|actions| - 1];
    var before := RunAll(w, t, init);
    if e in before.events {
      a := RunAllFrom(w, t, init, e);
    } else {
      a := last;
      RunOneFrom(View(Exec(t, before.events), w), last);
    }
  }

  lemma CutFrom(w: World, t: Tree, actions: seq<Action>, cut: seq<Event>, e: Event) returns (a: Action)
    requires CutOf(cut, RunAll(w, t, actions).events) && e in cut
    ensures a in actions && From(e, a)
  {
    var full := RunAll(w, t, actions).events;
    if e in full {
      a := RunAllFrom(w, t, actions, e);
    } else {
      var n := |cut| - 1;
      assert cut == cut[..n] + [cut[n]];
      a := RunAllFrom(w, t, actions, full[n]);
    }
  }

  /** The writes that claim a path, and the action they come from. */
  lemma ClaimOf(e: Event, a: Action)
    requires From(e, a) && !e.MkParent? && !e.Drop? && !e.RmDir?
    ensures a.Claims() && e.path == a.entry.target
    ensures e.BackUp? || e.SetAside? ==> a.RenamesAside() && e.aside == a.AsidePath()
  {
  }

  /** No action's target or aside lies above the target of an action that makes parent directories. */
  ghost predicate Spaced(actions: seq<Action>) {
    forall a, b :: a in actions && b in actions && a.Claims() && b.MakesParents() ==>
      && !(a.entry.target < b.entry.target)
      && (a.RenamesAside() ==> !(a.AsidePath() < b.entry.target))
  }

  lemma CutClear(w: World, t: Tree, actions: seq<Action>, cut: seq<Event>)
    requires CutOf(cut, RunAll(w, t, actions).events) && Spaced(actions)
    ensures AllClear(cut, Made(cut))
  {
    forall e | e in cut ensures Clear(e, Made(cut)) {
      if !(e.MkParent? || e.Drop? || e.RmDir?) {
        var a := CutFrom(w, t, actions, cut, e);
        ClaimOf(e, a);
        forall m | m in Made(cut)
          ensures !(e.path <= m) && ((e.BackUp? || e.SetAside?) ==> !(e.aside <= m))
        {
          var b := CutFrom(w, t, actions, cut, MkParent(m));
          assert m < b.entry.target;
        }
      }
    }
  }

  /** Atomicity of a failed run. Whatever the actions and wherever the run stops, so long as no action
      meets something it would destroy: unwinding puts back every node and adds nothing but directories made as parents, except that a
      removed link stays a directory exactly when a parent was made strictly beneath it. */
  lemma FailedRunIsUndone(w: World, t: Tree, actions: seq<Action>, cut: seq<Event>)
    requires ValidTree(t) && ValidWorld(w) && NoDrift(w, t, actions) && Spaced(actions)
    requires CutOf(cut, RunAll(w, t, actions).events)
    ensures Legal(t, cut) && Rooted(Journal(cut))
    ensures PutBack(t, UndoAll(Exec(t, cut), Journal(cut)), Made(cut))
  {
    RunAllLegal(w, t, actions);
    RunAllLossless(w, t, actions);
    CutLegal(t, cut, RunAll(w, t, actions).events);
    CutClear(w, t, actions, cut);
    UndoIsExact(t, cut);
  }
}
