/** How far a stage got: all of its writes, or a cut of them. */
module Progress {
  import opened Sequences
  import opened Paths
  import opened Trees
  import opened Manifests
  import opened Planner
  import opened Steps
  import opened Undo
  import opened Program
  import opened Runs
  import opened Reports
  import opened Failures
  import opened Migrations
  import opened Stages
  import opened Turns

  /** One action: all of its writes, or some of them and a failure. */
  ghost predicate Carried(v: View, a: Action, ok: bool, delta: seq<Event>) {
    if ok then RunOne(v, a) == Outcome(delta, true) else CutOf(delta, RunOne(v, a).events)
  }

  /** A list of actions likewise. */
  ghost predicate CarriedAll(w: World, t: Tree, actions: seq<Action>, ok: bool, delta: seq<Event>) {
    if ok then RunAll(w, t, actions) == Outcome(delta, true) else CutOf(delta, RunAll(w, t, actions).events)
  }

  /** A pass fails only if the system refused a call, or the action cannot be done as the tree stands. */
  ghost predicate Excused(v: View, a: Action, ok: bool, clean: bool) {
    ok || !clean || !RunOne(v, a).done
  }

  lemma ExcusedIs(v: View, a: Action)
    ensures Excused(v, a, true, true) && Excused(v, a, true, false) && Excused(v, a, false, false)
    ensures !RunOne(v, a).done ==> Excused(v, a, false, true)
  {
    hide RunOne;
  }

  ghost predicate ExcusedAll(w: World, t: Tree, actions: seq<Action>, ok: bool, clean: bool) {
    ok || !clean || !RunAll(w, t, actions).done
  }

  /** An action that cannot be done keeps the whole list from going through. */
  lemma StuckAt(w: World, t: Tree, part: seq<Action>, a: Action, all: seq<Action>, delta: seq<Event>, clean: bool)
    requires CarriedAll(w, t, part, true, delta) && part + [a] <= all
    requires Excused(View(Exec(t, delta), w), a, false, clean)
    ensures ExcusedAll(w, t, all, false, clean)
  {
    hide RunOne, RunAll, Exec;
    OneMoreRun(w, t, part, a);
    assert all == (part + [a]) + all[|part| + 1..];
    RunAllConcat(w, t, part + [a], all[|part| + 1..]);
  }

  // Where a failed list stopped.

  /** The i-th action failed: those before it went through, it may have made some of its writes, and the
      failure is put down to its target. */
  ghost predicate FailedIn(w: World, t: Tree, actions: seq<Action>, i: nat, delta: seq<Event>, failed: Option<Path>)
    requires i < |actions|
  {
    var far := RunAll(w, t, actions[..i]);
    && far.done && far.events <= delta
    && CutOf(delta[|far.events|..], RunOne(View(Exec(t, far.events), w), actions[i]).events)
    && failed == (if actions[i].PreRmDir? then None else Some(actions[i].entry.target))
  }

  ghost predicate FailedAt(w: World, t: Tree, actions: seq<Action>, delta: seq<Event>, failed: Option<Path>) {
    exists i :: 0 <= i < |actions| && FailedIn(w, t, actions, i, delta, failed)
  }

  lemma FailsNow(w: World, t: Tree, part: seq<Action>, a: Action, before: seq<Event>, d: seq<Event>, failed: Option<Path>)
    requires CarriedAll(w, t, part, true, before) && Carried(View(Exec(t, before), w), a, false, d)
    requires failed == if a.PreRmDir? then None else Some(a.entry.target)
    ensures FailedAt(w, t, part + [a], before + d, failed)
  {
    hide RunAll, RunOne, CutOf, Exec;
    assert (part + [a])[..|part|] == part && (before + d)[|before|..] == d;
    assert FailedIn(w, t, part + [a], |part|, before + d, failed);
  }

  lemma FailedLonger(w: World, t: Tree, part: seq<Action>, all: seq<Action>, delta: seq<Event>, failed: Option<Path>)
    requires FailedAt(w, t, part, delta, failed) && part <= all
    ensures FailedAt(w, t, all, delta, failed)
  {
    hide RunAll, RunOne, CutOf, Exec;
    var i :| 0 <= i < |part| && FailedIn(w, t, part, i, delta, failed);
    assert all[..i] == part[..i];
    assert FailedIn(w, t, all, i, delta, failed);
  }

  lemma Shifted<T>(a: seq<T>, b: seq<T>, i: nat)
    requires i < |b|
    ensures (a + b)[..|a| + i] == a + b[..i] && (a + b)[|a| + i] == b[i]
  {
  }

  lemma FailedAfter(w: World, t: Tree, so: seq<Action>, far: seq<Event>, stage: seq<Action>, delta: seq<Event>, failed: Option<Path>)
    requires CarriedAll(w, t, so, true, far) && FailedAt(w, Exec(t, far), stage, delta, failed)
    ensures FailedAt(w, t, so + stage, far + delta, failed)
  {
    var i :| 0 <= i < |stage| && FailedIn(w, Exec(t, far), stage, i, delta, failed);
    FailedInAfter(w, t, so, far, stage, i, delta, failed);
    hide FailedIn;
    assert FailedIn(w, t, so + stage, |so| + i, far + delta, failed);
  }

  lemma FailedInFold(w: World, t: Tree, actions: seq<Action>, i: nat, far: seq<Event>, d: seq<Event>, failed: Option<Path>)
    requires i < |actions| && RunAll(w, t, actions[..i]) == Outcome(far, true)
    requires CutOf(d, RunOne(View(Exec(t, far), w), actions[i]).events)
    requires failed == if actions[i].PreRmDir? then None else Some(actions[i].entry.target)
    ensures FailedIn(w, t, actions, i, far + d, failed)
  {
    hide RunAll, RunOne, CutOf, Exec;
    assert (far + d)[|far|..] == d;
  }

  lemma FailedInUnfold(w: World, t: Tree, actions: seq<Action>, i: nat, delta: seq<Event>, failed: Option<Path>)
    returns (far: seq<Event>, d: seq<Event>)
    requires i < |actions| && FailedIn(w, t, actions, i, delta, failed)
    ensures RunAll(w, t, actions[..i]) == Outcome(far, true) && delta == far + d
    ensures CutOf(d, RunOne(View(Exec(t, far), w), actions[i]).events)
    ensures failed == if actions[i].PreRmDir? then None else Some(actions[i].entry.target)
  {
    hide RunAll, RunOne, CutOf, Exec;
    far := RunAll(w, t, actions[..i]).events;
    d := delta[|far|..];
  }

  lemma FailedInAfter(w: World, t: Tree, so: seq<Action>, far: seq<Event>, stage: seq<Action>, i: nat, delta: seq<Event>,
                      failed: Option<Path>)
    requires CarriedAll(w, t, so, true, far) && i < |stage| && FailedIn(w, Exec(t, far), stage, i, delta, failed)
    ensures FailedIn(w, t, so + stage, |so| + i, far + delta, failed)
  {
    hide RunAll, RunOne, CutOf, Exec, FailedIn;
    var more, d := FailedInUnfold(w, Exec(t, far), stage, i, delta, failed);
    RunAllConcat(w, t, so, stage[..i]);
    ExecConcat(t, far, more);
    Shifted(so, stage, i);
    FailedInFold(w, t, so + stage, |so| + i, far + more, d, failed);
    assert (far + more) + d == far + delta;
  }

  lemma CutOfMore(cut: seq<Event>, full: seq<Event>, more: seq<Event>)
    requires CutOf(cut, full)
    ensures CutOf(cut, full + more)
  {
    if !(cut <= full) {
      var n := |cut| - 1;
      assert cut[..n] == (full + more)[..n] && (full + more)[n] == full[n];
    }
  }

  lemma CutOfLater(before: seq<Event>, cut: seq<Event>, full: seq<Event>)
    requires CutOf(cut, full)
    ensures CutOf(before + cut, before + full)
  {
    if !(cut <= full) {
      var n, k := |cut| - 1, |before| + |cut| - 1;
      assert (before + cut)[..k] == before + cut[..n] && (before + full)[..k] == before + full[..n];
      assert (before + cut)[k] == cut[n] && (before + full)[k] == full[n];
    }
  }

  lemma NothingCarried(w: World, t: Tree)
    ensures CarriedAll(w, t, [], true, [])
  {
  }

  lemma OneMoreCarried(w: World, t: Tree, init: seq<Action>, a: Action, before: seq<Event>, ok: bool, delta: seq<Event>)
    requires CarriedAll(w, t, init, true, before) && Carried(View(Exec(t, before), w), a, ok, delta)
    ensures CarriedAll(w, t, init + [a], ok, before + delta)
  {
    hide RunOne, RunAll, Exec;
    OneMoreRun(w, t, init, a);
    if !ok { CutOfLater(before, delta, RunOne(View(Exec(t, before), w), a).events); }
  }

  lemma OneMoreRun(w: World, t: Tree, init: seq<Action>, a: Action)
    requires RunAll(w, t, init).done
    ensures RunAll(w, t, init + [a])
            == Outcome(RunAll(w, t, init).events + RunOne(View(End(w, t, init), w), a).events,
                       RunOne(View(End(w, t, init), w), a).done)
  {
    hide RunOne;
    RunAllSnoc(w, t, init, a);
  }

  /** What a failed list wrote is a cut of what any longer list would write. */
  lemma CutOfLonger(w: World, t: Tree, actions: seq<Action>, more: seq<Action>, delta: seq<Event>)
    requires CarriedAll(w, t, actions, false, delta)
    ensures CarriedAll(w, t, actions + more, false, delta)
  {
    hide RunOne, Exec;
    RunAllConcat(w, t, actions, more);
    CutOfMore(delta, RunAll(w, t, actions).events, RunAll(w, End(w, t, actions), more).events);
  }

  lemma BothCarried(w: World, t: Tree, a: seq<Action>, b: seq<Action>, before: seq<Event>, ok: bool, delta: seq<Event>)
    requires CarriedAll(w, t, a, true, before) && CarriedAll(w, Exec(t, before), b, ok, delta)
    ensures CarriedAll(w, t, a + b, ok, before + delta)
  {
    hide RunOne, RunAll, Exec;
    RunAllConcat(w, t, a, b);
    if !ok { CutOfLater(before, delta, RunAll(w, Exec(t, before), b).events); }
  }

  // The journal and the report keep up with the writes.

  lemma {:induction false} UnjournaledParents(es: seq<Event>)
    requires forall e :: e in es ==> e.MkParent?
    ensures Journal(es) == [] && Reported(es) == NOTHING
  {
    if es != [] {
      var init, e := es[..|es| - 1], es[|es| - 1];
      assert e in es && forall x :: x in init ==> x in es;
      UnjournaledParents(init);
      PlusAssociates(NOTHING, NOTHING, NOTHING);
    }
  }

  /** The target a failed action is recorded under: none for a directory. */
  function Blamed(a: Action, ok: bool): set<Path> {
    if ok || a.PreRmDir? then {} else {a.Target()}
  }

  /** Everything a carried-out action attempts is its own target, and listed once it is done. */
  lemma CarriedAttempts(v: View, a: Action, ok: bool, delta: seq<Event>)
    requires Carried(v, a, ok, delta)
    ensures Attempted(delta, Blamed(a, ok))
  {
    forall e | e in delta && Attempts(e)
      ensures e.path in Reported(delta).Done() || (!ok && !a.PreRmDir? && e.path == a.Target())
    {
      CutOneFrom(v, a, delta, e);
      if ok { DoneIsReported(v, a, e); }
    }
  }

  lemma CutOneFrom(v: View, a: Action, cut: seq<Event>, e: Event)
    requires CutOf(cut, RunOne(v, a).events) && e in cut
    ensures From(e, a)
  {
    var full := RunOne(v, a).events;
    RunOneFrom(v, a);
    hide RunOne;
    if e !in full {
      var n := |cut| - 1;
      assert cut == cut[..n] + [cut[n]];
      assert full[n] in full;
    }
  }

  /** The report of a list contains what one of its writes adds. */
  lemma {:induction false} ListedOnce(es: seq<Event>, e: Event)
    requires e in es
    ensures ReportOf(e).Done() <= Reported(es).Done()
  {
    var init, last := es[..|es| - 1], es[|es| - 1];
    DoneGrows(Reported(init), ReportOf(last));
    if e != last { ListedOnce(init, e); }
  }

  lemma PlaceCompletes(v: View, a: Action)
    requires RunOne(v, a).done
    ensures a.DoPlace? && a.kind == PlaceNew ==> LinkNew(a.entry.target, LinkDest(a.entry)) in RunOne(v, a).events
    ensures a.DoPlace? && a.kind != PlaceNew ==> Relink(a.entry.target, LinkDest(a.entry)) in RunOne(v, a).events
  {
    hide WayClear, Parents, RunPreDrop, RunPreRmDir, RunBackup, RunCopy, RunRecopy, RunDrop;
  }

  lemma CopyCompletes(v: View, a: Action)
    requires RunOne(v, a).done
    ensures a.DoCopy? ==> Graft(a.entry.target, v.world.content(LinkDest(a.entry)), false) in RunOne(v, a).events
    ensures a.DoRecopy? ==>
              Graft(a.entry.target, v.world.content(LinkDest(a.entry)), a.entry.target in v.tree) in RunOne(v, a).events
  {
    hide Lstat, WayClear, Parents, Fits, CanRename, RunPreDrop, RunPreRmDir, RunBackup, RunPlace, RunDrop;
  }

  lemma Completes(v: View, a: Action) returns (e: Event)
    requires RunOne(v, a).done && RunOne(v, a).events != [] && !a.PreRmDir?
    ensures e in RunOne(v, a).events && ReportOf(e).Done() == {a.Target()}
  {
    PlaceCompletes(v, a);
    CopyCompletes(v, a);
    hide Lstat, Prunes, RunPlace, RunCopy, RunRecopy;
    match a
    case PreDrop(x) => e := Drop(x.target, LinkDest(x));
    case DoBackup(x, aside) => e := BackUp(x.target, aside);
    case DoPlace(x, kind) => e := if kind == PlaceNew then LinkNew(x.target, LinkDest(x)) else Relink(x.target, LinkDest(x));
    case DoCopy(x) => e := Graft(x.target, v.world.content(LinkDest(x)), false);
    case DoRecopy(x) => e := Graft(x.target, v.world.content(LinkDest(x)), x.target in v.tree);
    case DoDrop(x, _) => e := Drop(x.target, LinkDest(x));
  }

  lemma DoneIsReported(v: View, a: Action, e: Event)
    requires RunOne(v, a).done && e in RunOne(v, a).events && Attempts(e)
    ensures e.path in Reported(RunOne(v, a).events).Done()
  {
    RunOneFrom(v, a);
    var last := Completes(v, a);
    ListedOnce(RunOne(v, a).events, last);
  }

  /** One more action: the run so far stays legal, and the journal, the report and the attempts add up. */
  lemma RunGrows(origin: Tree, es: seq<Event>, v: View, a: Action, ok: bool, delta: seq<Event>)
    requires ValidTree(origin) && ValidWorld(v.world) && Legal(origin, es) && v.tree == Exec(origin, es)
    requires Carried(v, a, ok, delta) && Attempted(es, {})
    ensures Legal(origin, es + delta) && Exec(origin, es + delta) == Exec(v.tree, delta)
    ensures ValidTree(Exec(v.tree, delta))
    ensures Journal(es + delta) == Journal(es) + Journal(delta)
    ensures Reported(es + delta) == Reported(es).Plus(Reported(delta))
    ensures Attempted(es + delta, Blamed(a, ok))
  {
    hide RunOne, Attempted, Report.Plus, Blamed;
    LegalValid(origin, es);
    RunOneLegal(v, a);
    CutLegal(v.tree, delta, RunOne(v, a).events);
    LegalConcat(origin, es, delta);
    LegalValid(origin, es + delta);
    ExecConcat(origin, es, delta);
    JournalConcat(es, delta);
    ReportedConcat(es, delta);
    CarriedAttempts(v, a, ok, delta);
    AttemptedConcat(es, delta, Blamed(a, ok));
  }

  // Stage lists, pass by pass.

  /** A failed part of a stage is a cut of the stage. */
  lemma CutOfStage(w: World, t: Tree, part: seq<Action>, all: seq<Action>, delta: seq<Event>)
    requires part <= all && CarriedAll(w, t, part, false, delta)
    ensures CarriedAll(w, t, all, false, delta)
  {
    assert all == part + all[|part|..];
    CutOfLonger(w, t, part, all[|part|..], delta);
  }

  lemma {:induction false} PrePasses(rs: seq<RemoveAction>, i: nat)
    requires i < |rs|
    ensures PreActions(rs[..i + 1]) == PreActions(rs[..i]) + [PreAction(rs[i])]
    ensures PreActions(rs[..i + 1]) <= PreActions(rs)
    decreases |rs|
  {
    Prefix(rs, i + 1);
    if i + 1 == |rs| { Whole(rs); } else {
      var init := rs[..|rs| - 1];
      assert init[..i + 1] == rs[..i + 1] && init[..i] == rs[..i];
      PrePasses(init, i);
    }
  }

  lemma {:induction false} BackupPasses(bs: seq<BackupAction>, i: nat)
    requires i < |bs|
    ensures BackupActions(bs[..i + 1]) == BackupActions(bs[..i]) + [DoBackup(bs[i].entry, bs[i].aside)]
    ensures BackupActions(bs[..i + 1]) <= BackupActions(bs)
    decreases |bs|
  {
    Prefix(bs, i + 1);
    if i + 1 == |bs| { Whole(bs); } else {
      var init := bs[..|bs| - 1];
      assert init[..i + 1] == bs[..i + 1] && init[..i] == bs[..i];
      BackupPasses(init, i);
    }
  }

  lemma {:induction false} PlacePasses(ps: seq<PlaceAction>, i: nat)
    requires i < |ps|
    ensures PlaceActions(ps[..i + 1]) == PlaceActions(ps[..i]) + [DoPlace(ps[i].entry, ps[i].kind)]
    ensures PlaceActions(ps[..i + 1]) <= PlaceActions(ps)
    decreases |ps|
  {
    Prefix(ps, i + 1);
    if i + 1 == |ps| { Whole(ps); } else {
      var init := ps[..|ps| - 1];
      assert init[..i + 1] == ps[..i + 1] && init[..i] == ps[..i];
      PlacePasses(init, i);
    }
  }

  lemma {:induction false} CopyPasses(cs: seq<CopyAction>, i: nat)
    requires i < |cs|
    ensures CopyActions(cs[..i + 1]) == CopyActions(cs[..i]) + [DoCopy(cs[i].entry)]
    ensures CopyActions(cs[..i + 1]) <= CopyActions(cs)
    decreases |cs|
  {
    Prefix(cs, i + 1);
    if i + 1 == |cs| { Whole(cs); } else {
      var init := cs[..|cs| - 1];
      assert init[..i + 1] == cs[..i + 1] && init[..i] == cs[..i];
      CopyPasses(init, i);
    }
  }

  lemma {:induction false} RecopyPasses(m: Manifest, i: nat)
    requires i < |m|
    ensures RecopyActions(m[..i + 1]) == RecopyActions(m[..i]) + if m[i].how == Copy then [DoRecopy(m[i])] else []
    ensures RecopyActions(m[..i + 1]) <= RecopyActions(m)
    decreases |m|
  {
    Prefix(m, i + 1);
    if i + 1 == |m| { Whole(m); } else {
      var init := m[..|m| - 1];
      assert init[..i + 1] == m[..i + 1] && init[..i] == m[..i];
      RecopyPasses(init, i);
    }
  }

  lemma DropPasses(rs: seq<RemoveAction>, i: nat, limits: seq<nat>, limit: nat)
    requires i < |rs| && |limits| == i && forall r :: r in rs ==> r.Unlink?
    ensures (forall r :: r in rs[..i] ==> r.Unlink?) && (forall r :: r in rs[..i + 1] ==> r.Unlink?) && rs[i].Unlink?
    ensures DropActions(rs[..i + 1], limits + [limit]) == DropActions(rs[..i], limits) + [DoDrop(rs[i].entry, limit)]
  {
    assert rs[i] in rs;
    Prefix(rs, i + 1);
    DropActionsSnoc(rs[..i], rs[i], limits, limit);
  }

  /** Whatever limits the passes not made would have had. */
  lemma {:induction false} DropsLonger(rs: seq<RemoveAction>, n: nat, limits: seq<nat>)
    requires n <= |rs| && |limits| == |rs| && forall r :: r in rs ==> r.Unlink?
    ensures forall r :: r in rs[..n] ==> r.Unlink?
    ensures DropActions(rs[..n], limits[..n]) <= DropActions(rs, limits)
    decreases |rs|
  {
    if n == |rs| {
      Whole(rs);
      Whole(limits);
    } else {
      var init, short := rs[..|rs| - 1], limits[..|rs| - 1];
      assert init[..n] == rs[..n] && short[..n] == limits[..n];
      DropsLonger(init, n, short);
    }
  }
}
