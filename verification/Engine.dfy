/** The engine: stages that write to the disk, the journal that takes the writes back, Apply and
    Rollback. */
module Engine {
  import opened Sequences
  import opened Paths
  import opened Trees
  import opened Manifests
  import opened Planner
  import opened Steps
  import opened Undo
  import opened Program
  import opened Runs
  import opened Migrations
  import opened Stages
  import opened Turns
  import opened Atomic
  import opened Reports
  import opened Failures
  import opened Progress
  import opened Disks

  class Applier {
    const disk: Disk
    var journal: seq<UndoOp>
    var report: Report
    var failed: Option<Path>
    var unreached: seq<Path>
    var unwound: bool

    /** The tree at the start of the run, and the writes since. */
    ghost const origin: Tree
    ghost var events: seq<Event>

    constructor (disk: Disk)
      requires ValidTree(disk.tree) && ValidWorld(disk.world)
      ensures this.disk == disk && origin == disk.tree && Valid()
      ensures events == [] && failed == None && unreached == [] && !unwound
    {
      this.disk := disk;
      journal, report, failed, unreached, unwound := [], NOTHING, None, [], false;
      origin, events := disk.tree, [];
      new;
      AttemptedNone({});
    }

    ghost function Failing(): set<Path>
      reads this
    {
      if failed.Some? then {failed.value} else {}
    }

    /** The disk, the journal and the report are what the writes of this run make them. */
    ghost predicate Valid()
      reads this, disk
    {
      && ValidTree(origin) && ValidWorld(disk.world)
      && Legal(origin, events) && disk.tree == Exec(origin, events)
      && journal == Journal(events) && report == Reported(events)
      && Attempted(events, Failing())
    }

    /** What one loop pass did to the disk, the journal and the report. */
    twostate predicate Wrote(delta: seq<Event>)
      reads this, disk
    {
      && disk.tree == Exec(old(disk.tree), delta)
      && journal == old(journal) + Journal(delta)
      && report == old(report).Plus(Reported(delta))
    }

    /** Only the first failed target is recorded. */
    method EntryFailed(target: Path)
      modifies `failed
      ensures failed == if old(failed).Some? then old(failed) else Some(target)
    {
      if failed.None? { failed := Some(target); }
    }

    // The passes of the stage loops.

    lemma WroteNothing()
      ensures Exec(disk.tree, []) == disk.tree && journal + Journal([]) == journal && report.Plus(Reported([])) == report
    {
      PlusAssociates(report, NOTHING, NOTHING);
    }

    method PreRemoveLink(e: Entry) returns (ok: bool, ghost delta: seq<Event>)
      requires ValidTree(disk.tree)
      modifies disk, `journal, `report, `failed
      ensures Wrote(delta) && Carried(old(disk.Sight()), PreDrop(e), ok, delta)
      ensures disk.faults >= old(disk.faults)
      ensures Excused(old(disk.Sight()), PreDrop(e), ok, disk.faults == old(disk.faults))
      ensures failed == if ok || old(failed).Some? then old(failed) else Some(e.target)
    {
      WroteNothing();
      ghost var t := disk.tree;
      if e.target in t && t[e.target] != Dir { NothingBeneath(t, e.target); }
      if StillRecorded(disk.Sight(), e) {
        var r := disk.TryRemove(e.target);
        if r == Done {
          OneWrite(t, Drop(e.target, LinkDest(e)));
          report := report.(removed := report.removed + [e.target]);
          journal := journal + [UndoRelinkOld(e.target, LinkDest(e))];
          return true, [Drop(e.target, LinkDest(e))];
        }
      }
      EntryFailed(e.target);
      return false, [];
    }

    lemma OneWrite(t: Tree, e: Event)
      ensures Exec(t, [e]) == Apply(t, e) && Journal([e]) == JournalOf(e) && Reported([e]) == ReportOf(e)
    {
      assert [e][..0] == [];
      ReportedOne(e);
    }

    method PreRemoveDir(dir: Path) returns (ok: bool, ghost delta: seq<Event>)
      requires ValidTree(disk.tree)
      modifies disk, `journal, `report, `failed
      ensures Wrote(delta) && Carried(old(disk.Sight()), PreRmDir(dir), ok, delta)
      ensures disk.faults >= old(disk.faults)
      ensures Excused(old(disk.Sight()), PreRmDir(dir), ok, disk.faults == old(disk.faults))
      ensures failed == old(failed)
    {
      WroteNothing();
      ghost var t := disk.tree;
      var r := disk.TryRemove(dir);
      if r == Done {
        OneWrite(t, RmDir(dir));
        report := report.(pruned := report.pruned + [dir]);
        journal := journal + [UndoMkdir(dir)];
        return true, [RmDir(dir)];
      }
      if r == Absent && dir != [] && Lstat(disk.Sight(), dir).NotExist? { return true, []; }
      return false, [];
    }

    method PreRemoveOne(r: RemoveAction) returns (ok: bool, ghost delta: seq<Event>)
      requires ValidTree(disk.tree)
      modifies disk, `journal, `report, `failed
      ensures disk.tree == Exec(old(disk.tree), delta)
      ensures journal == old(journal) + Journal(delta) && report == old(report).Plus(Reported(delta))
      ensures Carried(View(old(disk.tree), disk.world), PreAction(r), ok, delta)
      ensures disk.faults >= old(disk.faults)
      ensures Excused(View(old(disk.tree), disk.world), PreAction(r), ok, disk.faults == old(disk.faults))
      ensures old(failed) == None ==> failed == Culprit(PreAction(r), ok)
    {
      if r.Unlink? { ok, delta := PreRemoveLink(r.entry); } else { ok, delta := PreRemoveDir(r.dir); }
    }

    method BackupOne(e: Entry, aside: Path) returns (ok: bool, ghost delta: seq<Event>)
      requires ValidTree(disk.tree) && aside != [] && aside != e.target && Parent(aside) == Parent(e.target)
      modifies disk, `journal, `report, `failed
      ensures disk.tree == Exec(old(disk.tree), delta)
      ensures journal == old(journal) + Journal(delta) && report == old(report).Plus(Reported(delta))
      ensures Carried(View(old(disk.tree), disk.world), DoBackup(e, aside), ok, delta)
      ensures disk.faults >= old(disk.faults)
      ensures Excused(View(old(disk.tree), disk.world), DoBackup(e, aside), ok, disk.faults == old(disk.faults))
      ensures old(failed) == None ==> failed == Culprit(DoBackup(e, aside), ok)
    {
      WroteNothing();
      ghost var t := disk.tree;
      if Lstat(disk.Sight(), aside).NotExist? {
        var renamed := disk.TryRename(e.target, aside);
        if renamed {
          OneWrite(t, BackUp(e.target, aside));
          journal := journal + [UndoRestoreBackup(e.target, aside)];
          report := report.(backedUp := report.backedUp + [e.target]);
          return true, [BackUp(e.target, aside)];
        }
      }
      EntryFailed(e.target);
      return false, [];
    }

    lemma MadeQuietly(t: Tree, p: Path, made: seq<Event>)
      requires made <= Parents(t, p, |p|)
      ensures Journal(made) == [] && Reported(made) == NOTHING
      ensures journal + [] == journal && report.Plus(NOTHING) == report
    {
      ParentsMade(t, p, |p|);
      forall e | e in made ensures e.MkParent? { assert e in Parents(t, p, |p|); }
      UnjournaledParents(made);
      PlusAssociates(report, NOTHING, NOTHING);
    }

    lemma MoreWrites(t: Tree, made: seq<Event>, more: seq<Event>)
      requires Journal(made) == [] && Reported(made) == NOTHING
      ensures Exec(t, made + more) == Exec(Exec(t, made), more)
      ensures Journal(made + more) == Journal(more) && Reported(made + more) == Reported(more)
    {
      hide Report.Plus;
      ExecConcat(t, made, more);
      JournalConcat(made, more);
      ReportedConcat(made, more);
      PlusAssociates(Reported(more), NOTHING, NOTHING);
    }

    lemma TwoWrites(t: Tree, e: Event, f: Event)
      requires ReportOf(e) == NOTHING
      ensures Exec(t, [e, f]) == Apply(Apply(t, e), f) && Journal([e, f]) == JournalOf(e) + JournalOf(f)
      ensures Reported([e, f]) == ReportOf(f)
    {
      OneWrite(t, e);
      OneWrite(Apply(t, e), f);
      ExecConcat(t, [e], [f]);
      JournalConcat([e], [f]);
      ReportedConcat([e], [f]);
      PlusAssociates(ReportOf(f), NOTHING, NOTHING);
      assert [e] + [f] == [e, f];
    }

    lemma StuckOnTheWay(v: View, e: Entry, kind: PlaceKind, made: seq<Event>)
      requires made <= Parents(v.tree, e.target, |e.target|) && (!WayClear(v.tree, e.target) ==> made == [])
      ensures made <= RunPlace(v, e, kind).events && made <= RunCopy(v, e).events
    {
      hide WayClear, Parents;
    }

    lemma LinkNewFull(v: View, e: Entry, made: seq<Event>)
      requires WayClear(v.tree, e.target) && made == Parents(v.tree, e.target, |e.target|)
      ensures RunPlace(v, e, PlaceNew)
              == if e.target in v.tree then Outcome(made, false)
                 else Outcome(made + [LinkNew(e.target, LinkDest(e))], true)
    {
      hide WayClear, Parents;
    }

    lemma LinkNewCarried(v: View, e: Entry, made: seq<Event>)
      requires ValidTree(v.tree) && WayClear(v.tree, e.target) && made == Parents(v.tree, e.target, |e.target|)
      ensures Carried(v, DoPlace(e, PlaceNew), false, made)
      ensures RunOne(v, DoPlace(e, PlaceNew)).done ==> Room(Exec(v.tree, made), e.target)
      ensures Room(Exec(v.tree, made), e.target) ==>
                Carried(v, DoPlace(e, PlaceNew), true, made + [LinkNew(e.target, LinkDest(e))])
    {
      LinkNewFull(v, e, made);
      NothingToMake(v.tree, e.target, made);
      ParentsRun(v.tree, e.target, |e.target|);
      if e.target !in v.tree { RoomAfterParents(v.tree, e.target); }
      hide WayClear, Parents, Exec, RunPlace;
    }

    lemma LinkNewFacts(v: View, e: Entry, made: seq<Event>, r: Report)
      requires ValidTree(v.tree) && WayClear(v.tree, e.target) && made == Parents(v.tree, e.target, |e.target|)
      ensures var p := e.target;
              var more := made + [LinkNew(p, LinkDest(e))];
              && Exec(v.tree, more) == Exec(v.tree, made)[p := Link(LinkDest(e))]
              && Journal(made) == [] && Reported(made) == NOTHING && r.Plus(NOTHING) == r
              && Journal(more) == [UndoUnlinkNew(p)] && r.Plus(Reported(more)) == r.(placed := r.placed + [p])
    {
      var p, l := e.target, LinkNew(e.target, LinkDest(e));
      MadeQuietly(v.tree, p, made);
      hide WayClear, Parents, Exec, Journal, Reported;
      MoreWrites(v.tree, made, [l]);
      OneWrite(Exec(v.tree, made), l);
      PlusAssociates(r, NOTHING, NOTHING);
    }

    /** A fresh link where nothing is. */
    method LinkNewOne(e: Entry, ghost t: Tree, ghost made: seq<Event>) returns (ok: bool, ghost delta: seq<Event>)
      requires ValidTree(t) && WayClear(t, e.target) && made == Parents(t, e.target, |e.target|)
      requires disk.tree == Exec(t, made)
      modifies disk, `journal, `report, `failed
      ensures disk.tree == Exec(t, delta) && journal == old(journal) + Journal(delta)
      ensures report == old(report).Plus(Reported(delta))
      ensures Carried(View(t, disk.world), DoPlace(e, PlaceNew), ok, delta)
      ensures disk.faults >= old(disk.faults)
      ensures Excused(View(t, disk.world), DoPlace(e, PlaceNew), ok, disk.faults == old(disk.faults))
      ensures failed == if ok || old(failed).Some? then old(failed) else Some(e.target)
    {
      hide *;
      LinkNewFacts(View(t, disk.world), e, made, report);
      LinkNewCarried(View(t, disk.world), e, made);
      ExcusedIs(View(t, disk.world), DoPlace(e, PlaceNew));
      EmptyEnd(journal, []);
      ok := disk.TrySymlink(LinkDest(e), e.target);
      if !ok {
        EntryFailed(e.target);
        return false, made;
      }
      journal := journal + [UndoUnlinkNew(e.target)];
      report := report.(placed := report.placed + [e.target]);
      delta := made + [LinkNew(e.target, LinkDest(e))];
    }

    lemma RelinkFacts(v: View, e: Entry, kind: PlaceKind, r: Report)
      requires ValidTree(v.tree) && e.target in v.tree && v.tree[e.target].Link? && kind != PlaceNew
      ensures var p, a := e.target, DoPlace(e, kind);
              var d, l := Detach(p, v.tree[p].dest), Relink(p, LinkDest(e));
              && Exec(v.tree, [d]) == Without(v.tree, p) && Exec(v.tree, [d, l]) == Without(v.tree, p)[p := Link(LinkDest(e))]
              && Journal([d]) == [UndoRelinkOld(p, v.tree[p].dest)] && Journal([d, l]) == Journal([d])
              && r.Plus(Reported([d])) == r && r.Plus(Reported([d, l])) == r.(replaced := r.replaced + [p])
              && Carried(v, a, false, []) && Carried(v, a, false, [d]) && Carried(v, a, true, [d, l])
              && Vacant(v.tree, p) && Room(Without(v.tree, p), p)
    {
      var p := e.target;
      var d, l := Detach(p, v.tree[p].dest), Relink(p, LinkDest(e));
      ParentsAllThere(v.tree, p);
      assert [] + [d, l] == [d, l];
      assert RunPlace(v, e, kind) == Outcome([d, l], true);
      hide RunPlace, Exec, Journal, Reported;
      NothingBeneath(v.tree, p);
      OneWrite(v.tree, d);
      TwoWrites(v.tree, d, l);
      PlusAssociates(r, NOTHING, NOTHING);
    }

    /** A re-link is unlink and symlink; the unlink is journaled before the symlink is tried. */
    method RelinkOne(e: Entry, kind: PlaceKind) returns (ok: bool, ghost delta: seq<Event>)
      requires ValidTree(disk.tree) && kind != PlaceNew
      modifies disk, `journal, `report, `failed
      ensures disk.tree == Exec(old(disk.tree), delta)
      ensures journal == old(journal) + Journal(delta) && report == old(report).Plus(Reported(delta))
      ensures ok ==> e.target in old(disk.tree) && old(disk.tree)[e.target].Link?
      ensures e.target in old(disk.tree) && old(disk.tree)[e.target].Link? ==>
                Carried(View(old(disk.tree), disk.world), DoPlace(e, kind), ok, delta)
      ensures !(e.target in old(disk.tree) && old(disk.tree)[e.target].Link?) ==> delta == []
      ensures disk.faults >= old(disk.faults)
      ensures !ok && disk.faults == old(disk.faults) ==> !(e.target in old(disk.tree) && old(disk.tree)[e.target].Link?)
      ensures failed == if ok || old(failed).Some? then old(failed) else Some(e.target)
    {
      hide *;
      WroteNothing();
      if !(e.target in disk.tree && disk.tree[e.target].Link?) {
        EntryFailed(e.target);
        return false, [];
      }
      RelinkFacts(View(disk.tree, disk.world), e, kind, report);
      var prevDest := disk.tree[e.target].dest;
      var removed := disk.TryRemove(e.target);
      if removed != Done {
        EntryFailed(e.target);
        return false, [];
      }
      journal := journal + [UndoRelinkOld(e.target, prevDest)];
      var linked := disk.TrySymlink(LinkDest(e), e.target);
      if !linked {
        EntryFailed(e.target);
        return false, [Detach(e.target, prevDest)];
      }
      report := report.(replaced := report.replaced + [e.target]);
      return true, [Detach(e.target, prevDest), Relink(e.target, LinkDest(e))];
    }

    lemma NothingToMake(t: Tree, p: Path, made: seq<Event>)
      requires ValidTree(t) && WayClear(t, p) && made == Parents(t, p, |p|)
      ensures p in Exec(t, made) <==> p in t
      ensures p in t ==> made == [] && Exec(t, made) == t
    {
      ParentsRun(t, p, |p|);
      if p in t { ParentsAllThere(t, p); }
    }

    lemma PlaceNeeds(v: View, e: Entry, kind: PlaceKind)
      ensures RunPlace(v, e, kind).done ==> WayClear(v.tree, e.target)
      ensures RunPlace(v, e, kind).done && kind != PlaceNew ==> e.target in v.tree && v.tree[e.target].Link?
      ensures RunCopy(v, e).done ==> WayClear(v.tree, e.target)
    {
      hide WayClear, Parents, Fits;
    }

    method PlaceOne(e: Entry, kind: PlaceKind) returns (ok: bool, ghost delta: seq<Event>)
      requires ValidTree(disk.tree)
      modifies disk, `journal, `report, `failed
      ensures disk.tree == Exec(old(disk.tree), delta)
      ensures journal == old(journal) + Journal(delta) && report == old(report).Plus(Reported(delta))
      ensures Carried(View(old(disk.tree), disk.world), DoPlace(e, kind), ok, delta)
      ensures disk.faults >= old(disk.faults)
      ensures Excused(View(old(disk.tree), disk.world), DoPlace(e, kind), ok, disk.faults == old(disk.faults))
      ensures old(failed) == None ==> failed == Culprit(DoPlace(e, kind), ok)
    {
      ghost var t := disk.tree;
      ghost var made;
      ok, made := disk.TryMkdirAll(e.target);
      MadeQuietly(t, e.target, made);
      StuckOnTheWay(View(t, disk.world), e, kind, made);
      PlaceNeeds(View(t, disk.world), e, kind);
      hide WayClear, RunPlace, Parents, Report.Plus;
      if !ok {
        EntryFailed(e.target);
        return false, made;
      }
      if kind == PlaceNew {
        ok, delta := LinkNewOne(e, t, made);
        return;
      }
      NothingToMake(t, e.target, made);
      ParentsRun(t, e.target, |e.target|);
      ok, delta := RelinkOne(e, kind);
      if !ok && delta == [] { delta := made; }
    }

    /** What copying an entry's source to its target wrote. */
    ghost predicate Copied(w: World, e: Entry, existed: bool, ok: bool, delta: seq<Event>) {
      var p, src := e.target, LinkDest(e);
      if ok then
        w.probe(src).Found? && delta == [Graft(p, w.content(src), existed)]
      else
        delta == [] ||
        (&& |delta| == 1 && delta[0].GraftPart? && delta[0].path == p
         && w.probe(src).Found? && IsPart(delta[0].sub, w.content(src)))
    }

    lemma CopiedWhole(t: Tree, r: Report, e: Entry, existed: bool)
      requires disk.world.probe(LinkDest(e)).Found?
      ensures var p, sub := e.target, disk.world.content(LinkDest(e));
              var delta := [Graft(p, sub, existed)];
              && Copied(disk.world, e, existed, true, delta)
              && Exec(t, delta) == Grafted(t, p, sub) && Journal(delta) == []
              && r.Plus(Reported(delta)) == if existed then r.(recopied := r.recopied + [p]) else r.(copied := r.copied + [p])
    {
      hide Grafted;
      OneWrite(t, Graft(e.target, disk.world.content(LinkDest(e)), existed));
    }

    lemma CopiedPart(t: Tree, r: Report, e: Entry, existed: bool, part: Tree)
      requires disk.world.probe(LinkDest(e)).Found? && IsPart(part, disk.world.content(LinkDest(e)))
      ensures var delta := [GraftPart(e.target, part)];
              && Copied(disk.world, e, existed, false, delta)
              && Exec(t, delta) == Grafted(t, e.target, part) && Journal(delta) == [] && r.Plus(Reported(delta)) == r
    {
      hide Grafted, IsPart;
      OneWrite(t, GraftPart(e.target, part));
    }

    method CopyInto(e: Entry, existed: bool) returns (ok: bool, ghost delta: seq<Event>)
      requires ValidWorld(disk.world)
      modifies disk, `report, `failed
      ensures disk.tree == Exec(old(disk.tree), delta)
      ensures journal == old(journal) + Journal(delta) && report == old(report).Plus(Reported(delta))
      ensures Copied(disk.world, e, existed, ok, delta)
      ensures delta != [] ==> Fits(old(disk.tree), e.target, disk.world.content(LinkDest(e)))
      ensures disk.faults >= old(disk.faults)
      ensures !ok && disk.faults == old(disk.faults) ==>
                !disk.world.probe(LinkDest(e)).Found? || !Fits(old(disk.tree), e.target, disk.world.content(LinkDest(e)))
      ensures failed == if ok || old(failed).Some? then old(failed) else Some(e.target)
    {
      ghost var t := disk.tree;
      WroteNothing();
      EmptyEnd(journal, []);
      ghost var written;
      ok, written := disk.TryCopyTree(LinkDest(e), e.target);
      delta := [];
      if ok {
        CopiedWhole(t, report, e, existed);
        hide Copied, Exec, Journal, Reported, Report.Plus, Grafted, ReportOf, IsPart, Fits;
        delta := [Graft(e.target, written.value, existed)];
        report := if existed then report.(recopied := report.recopied + [e.target])
                  else report.(copied := report.copied + [e.target]);
      } else {
        EntryFailed(e.target);
        if written.Some? {
          CopiedPart(t, report, e, existed, written.value);
          hide Copied, Exec, Journal, Reported, Report.Plus, Grafted, ReportOf, IsPart, Fits;
          delta := [GraftPart(e.target, written.value)];
        }
      }
    }

    lemma CopiedIsFound(w: World, e: Entry, existed: bool, ok: bool, delta: seq<Event>)
      requires Copied(w, e, existed, ok, delta)
      ensures delta != [] ==> w.probe(LinkDest(e)).Found?
      ensures ok ==> delta != []
    {
    }

    lemma CopiedQuietly(w: World, e: Entry, existed: bool, ok: bool, delta: seq<Event>)
      requires Copied(w, e, existed, ok, delta)
      ensures Journal(delta) == []
    {
      Unjournaled(delta);
    }

    /** The writes before the copy, then as much of the copy as was made. */
    lemma CopiedIsCut(w: World, e: Entry, existed: bool, ok: bool, before: seq<Event>, delta: seq<Event>, full: seq<Event>)
      requires Copied(w, e, existed, ok, delta)
      requires full == before + [Graft(e.target, w.content(LinkDest(e)), existed)] || (full == before && delta == [])
      ensures CutOf(before + delta, full) && (ok ==> w.probe(LinkDest(e)).Found? && before + delta == full)
    {
      if delta == [] {
        EmptyEnd(before, delta);
      } else if !ok {
        assert delta == [delta[0]];
        LastIsPart(before, Graft(e.target, w.content(LinkDest(e)), existed), delta[0]);
      }
    }

    lemma LastIsPart(init: seq<Event>, full: Event, part: Event)
      requires full.Graft? && part.GraftPart? && part.path == full.path && IsPart(part.sub, full.sub)
      ensures CutOf(init + [part], init + [full])
    {
      var cut, all := init + [part], init + [full];
      assert cut[..|cut| - 1] == init && all[..|cut| - 1] == init;
      assert ValidSub(part.sub);
    }

    lemma CopyFull(v: View, e: Entry)
      requires WayClear(v.tree, e.target)
      ensures var before := Parents(v.tree, e.target, |e.target|) + [OpenCopy(e.target)];
              RunCopy(v, e)
              == if v.world.probe(LinkDest(e)).Found?
                    && (e.target in v.tree ==> Fits(v.tree, e.target, v.world.content(LinkDest(e)))) then
                   Outcome(before + [Graft(e.target, v.world.content(LinkDest(e)), false)], true)
                 else Outcome(before, false)
    {
      hide WayClear, Parents, Fits;
      var before, o := Parents(v.tree, e.target, |e.target|), OpenCopy(e.target);
      assert forall g :: before + [o, g] == (before + [o]) + [g];
    }

    /** Opened before the copy starts, so that a copy that stops midway is cleaned up. */
    method CopyOne(e: Entry) returns (ok: bool, ghost delta: seq<Event>)
      requires ValidTree(disk.tree) && ValidWorld(disk.world)
      modifies disk, `journal, `report, `failed
      ensures disk.tree == Exec(old(disk.tree), delta)
      ensures journal == old(journal) + Journal(delta) && report == old(report).Plus(Reported(delta))
      ensures Carried(View(old(disk.tree), disk.world), DoCopy(e), ok, delta)
      ensures disk.faults >= old(disk.faults)
      ensures Excused(View(old(disk.tree), disk.world), DoCopy(e), ok, disk.faults == old(disk.faults))
      ensures old(failed) == None ==> failed == Culprit(DoCopy(e), ok)
    {
      ghost var v := disk.Sight();
      ghost var made;
      ok, made := disk.TryMkdirAll(e.target);
      MadeQuietly(v.tree, e.target, made);
      StuckOnTheWay(v, e, PlaceNew, made);
      PlaceNeeds(v, e, PlaceNew);
      hide RunCopy, Parents, WayClear, Copied, Exec, Journal, Reported, Report.Plus, Fits;
      if !ok {
        EntryFailed(e.target);
        return false, made;
      }
      NothingToMake(v.tree, e.target, made);
      CopyHasRoom(v.tree, e.target, made, disk.world.content(LinkDest(e)));
      journal := journal + [UndoRemoveCopy(e.target)];
      ghost var copied;
      ok, copied := CopyInto(e, false);
      delta := made + [OpenCopy(e.target)] + copied;
      CopiedQuietly(disk.world, e, false, ok, copied);
      CopyJoins(v.tree, e.target, made, copied);
      CopyFull(v, e);
      CopiedIsFound(disk.world, e, false, ok, copied);
      CopiedIsCut(disk.world, e, false, ok, made + [OpenCopy(e.target)], copied, RunCopy(v, e).events);
    }

    lemma CopyHasRoom(t: Tree, p: Path, made: seq<Event>, sub: Tree)
      requires ValidTree(t) && p != [] && WayClear(t, p) && made == Parents(t, p, |p|)
      ensures p !in t ==> Fits(Exec(t, made), p, sub)
    {
      ParentsRun(t, p, |p|);
      if p !in t {
        RoomAfterParents(t, p);
        FitsRoom(WithParents(t, p, |p|), p, sub);
      }
    }

    lemma CopyJoins(t: Tree, p: Path, made: seq<Event>, copied: seq<Event>)
      requires Journal(made) == [] && Reported(made) == NOTHING && Journal(copied) == []
      ensures Exec(t, made + [OpenCopy(p)] + copied) == Exec(Exec(t, made), copied)
      ensures Journal(made + [OpenCopy(p)] + copied) == [UndoRemoveCopy(p)]
      ensures Reported(made + [OpenCopy(p)] + copied) == Reported(copied)
    {
      hide Report.Plus;
      var o := OpenCopy(p);
      MoreWrites(t, made, [o]);
      OneWrite(Exec(t, made), o);
      ExecConcat(t, made + [o], copied);
      JournalConcat(made + [o], copied);
      ReportedConcat(made + [o], copied);
      PlusAssociates(Reported(copied), NOTHING, NOTHING);
    }

    lemma {:induction false} Unjournaled(es: seq<Event>)
      requires forall e :: e in es ==> JournalOf(e) == []
      ensures Journal(es) == []
    {
      if es != [] {
        var init, e := es[..|es| - 1], es[|es| - 1];
        assert e in es && forall x :: x in init ==> x in es;
        Unjournaled(init);
      }
    }

    lemma GoneFromThere(t: Tree, from: Path, to: Path)
      requires ValidTree(t) && from != to && |from| == |to|
      ensures from !in Moved(t, from, to)
    {
    }

    lemma AncestorsStay(u: Tree, p: Path)
      requires ValidTree(u) && p != [] && Parent(p) in u && u[Parent(p)] == Dir
      ensures WayClear(u, p)
    {
      var q := Parent(p);
      assert q == p[..|p| - 1];
      forall k | 0 <= k < |p| ensures p[..k] in u && u[p[..k]] == Dir {
        if k < |p| - 1 { AncestorsAreDirs(u, q, p[..k]); }
      }
    }

    lemma AsideLeavesParents(t: Tree, p: Path, aside: Path)
      requires ValidTree(t) && p != [] && Enabled(t, SetAside(p, aside))
      ensures ValidTree(Moved(t, p, aside)) && Parents(Moved(t, p, aside), p, |p|) == []
      ensures WayClear(Moved(t, p, aside), p)
      ensures forall sub :: Fits(Moved(t, p, aside), p, sub)
    {
      ApplyValid(t, SetAside(p, aside));
      MovedElsewhere(t, p, aside);
      hide Moved;
      var u := Moved(t, p, aside);
      forall k | 0 <= k < |p| ensures p[..k] in u {
        AncestorsAreDirs(t, p, p[..k]);
        assert !(p <= p[..k]) && !(aside <= p[..k]);
      }
      NoParents(u, p, |p|);
      assert p !in u by { GoneFromThere(t, p, aside); }
      assert Parent(p) == p[..|p| - 1] && u[Parent(p)] == Dir by {
        assert !(p <= Parent(p)) && !(aside <= Parent(p));
      }
      AncestorsStay(u, p);
      forall sub ensures Fits(u, p, sub) { FitsRoom(u, p, sub); }
    }

    lemma RecopyFull(v: View, e: Entry)
      ensures e.target in v.tree && CanRename(v.tree, e.target, WithSuffix(e.target, RECOPY_SUFFIX)) ==>
                var before := [SetAside(e.target, WithSuffix(e.target, RECOPY_SUFFIX))];
                RunRecopy(v, e)
                == if v.world.probe(LinkDest(e)).Found? then
                     Outcome(before + [Graft(e.target, v.world.content(LinkDest(e)), true)], true)
                   else Outcome(before, false)
      ensures e.target !in v.tree && Lstat(v, e.target).NotExist? && WayClear(v.tree, e.target) ==>
                var before := [OpenCopy(e.target)] + Parents(v.tree, e.target, |e.target|);
                RunRecopy(v, e)
                == if v.world.probe(LinkDest(e)).Found? then
                     Outcome(before + [Graft(e.target, v.world.content(LinkDest(e)), false)], true)
                   else Outcome(before, false)
      ensures e.target !in v.tree && Lstat(v, e.target).NotExist? && !WayClear(v.tree, e.target) ==>
                RunRecopy(v, e) == Outcome([OpenCopy(e.target)], false)
    {
      hide WayClear, Parents, Lstat, CanRename;
    }

    method MoveCopyAside(e: Entry, aside: Path) returns (ok: bool, ghost delta: seq<Event>)
      requires ValidTree(disk.tree) && e.target in disk.tree && aside == WithSuffix(e.target, RECOPY_SUFFIX)
      modifies disk, `journal, `failed
      ensures disk.tree == Exec(old(disk.tree), delta) && journal == old(journal) + Journal(delta)
      ensures if ok then
                && delta == [SetAside(e.target, aside)] && disk.tree == Moved(old(disk.tree), e.target, aside)
                && CanRename(old(disk.tree), e.target, aside)
                && ValidTree(disk.tree) && Parents(disk.tree, e.target, |e.target|) == []
                && WayClear(disk.tree, e.target) && (forall sub :: Fits(disk.tree, e.target, sub))
              else
                delta == []
      ensures disk.faults >= old(disk.faults)
      ensures !ok && disk.faults == old(disk.faults) ==> !CanRename(old(disk.tree), e.target, aside)
      ensures failed == if ok || old(failed).Some? then old(failed) else Some(e.target)
    {
      hide Moved, Exec, Journal, Reported, Report.Plus, WithSuffix;
      WroteNothing();
      ghost var t := disk.tree;
      ok := disk.TryRename(e.target, aside);
      if !ok {
        EntryFailed(e.target);
        return false, [];
      }
      journal := journal + [UndoRestoreRename(e.target, aside)];
      AsideLeavesParents(t, e.target, aside);
      OneWrite(t, SetAside(e.target, aside));
      return true, [SetAside(e.target, aside)];
    }

    /** The copy that is there goes aside, and the source is copied afresh. */
    method RecopyExisting(e: Entry) returns (ok: bool, ghost delta: seq<Event>)
      requires ValidTree(disk.tree) && ValidWorld(disk.world) && e.target in disk.tree
      modifies disk, `journal, `report, `failed
      ensures disk.tree == Exec(old(disk.tree), delta)
      ensures journal == old(journal) + Journal(delta) && report == old(report).Plus(Reported(delta))
      ensures Carried(View(old(disk.tree), disk.world), DoRecopy(e), ok, delta)
      ensures disk.faults >= old(disk.faults)
      ensures Excused(View(old(disk.tree), disk.world), DoRecopy(e), ok, disk.faults == old(disk.faults))
      ensures failed == if ok || old(failed).Some? then old(failed) else Some(e.target)
    {
      hide *;
      var aside := WithSuffix(e.target, RECOPY_SUFFIX);
      ghost var v := View(disk.tree, disk.world);
      WroteNothing();
      RecopyNeeds(v, e);
      ExcusedIs(v, DoRecopy(e));
      ok, delta := MoveCopyAside(e, aside);
      if !ok {
        NothingOfRecopy(v, e);
        return;
      }
      ghost var begun := delta;
      AsideWrites(v.tree, e.target, aside);
      ghost var moved, made := disk.tree, [];
      ok, made := disk.TryMkdirAll(e.target);
      NoneMade(moved, made);
      ghost var copied := [];
      if ok {
        ok, copied := CopyInto(e, true);
      } else {
        EntryFailed(e.target);
        CopiedNothing(disk.tree, e);
      }
      delta := begun + copied;
      CopiedQuietly(disk.world, e, true, ok, copied);
      AsideJoins(v.tree, SetAside(e.target, aside), copied);
      RecopiedIsCut(v, e, ok, begun, copied);
    }

    lemma RecopyNeeds(v: View, e: Entry)
      ensures RunOne(v, DoRecopy(e)).done ==> v.world.probe(LinkDest(e)).Found?
      ensures RunOne(v, DoRecopy(e)).done && e.target in v.tree ==> CanRename(v.tree, e.target, WithSuffix(e.target, RECOPY_SUFFIX))
      ensures RunOne(v, DoRecopy(e)).done && e.target !in v.tree ==> Lstat(v, e.target).NotExist? && WayClear(v.tree, e.target)
    {
      hide WayClear, Parents, Lstat, CanRename;
    }

    lemma NothingOfRecopy(v: View, e: Entry)
      ensures Carried(v, DoRecopy(e), false, [])
    {
    }

    lemma AsideWrites(t: Tree, p: Path, aside: Path)
      ensures ReportOf(SetAside(p, aside)) == NOTHING
      ensures Exec(t, [SetAside(p, aside)]) == Apply(t, SetAside(p, aside))
      ensures Journal([SetAside(p, aside)]) == JournalOf(SetAside(p, aside))
    {
      OneWrite(t, SetAside(p, aside));
    }

    lemma CopiedNothing(t: Tree, e: Entry)
      ensures Copied(disk.world, e, true, false, []) && Exec(t, []) == t && report.Plus(Reported([])) == report
    {
      NothingMore(t, []);
    }

    lemma RecopiedIsCut(v: View, e: Entry, ok: bool, begun: seq<Event>, copied: seq<Event>)
      requires e.target in v.tree && CanRename(v.tree, e.target, WithSuffix(e.target, RECOPY_SUFFIX))
      requires begun == [SetAside(e.target, WithSuffix(e.target, RECOPY_SUFFIX))]
      requires Copied(v.world, e, true, ok, copied)
      ensures Carried(v, DoRecopy(e), ok, begun + copied)
    {
      hide RunRecopy, Copied, CanRename;
      RecopyFull(v, e);
      CopiedIsFound(v.world, e, true, ok, copied);
      CopiedIsCut(v.world, e, true, ok, begun, copied, RunRecopy(v, e).events);
    }

    lemma NoneMade(t: Tree, made: seq<Event>)
      ensures made <= [] ==> made == []
      ensures Exec(t, []) == t
    {
    }

    lemma NothingMore(t: Tree, es: seq<Event>)
      ensures es + [] == es && Exec(Exec(t, es), []) == Exec(t, es)
      ensures Journal([]) == [] && Reported([]) == NOTHING && report.Plus(NOTHING) == report
    {
      PlusAssociates(report, NOTHING, NOTHING);
    }

    lemma AsideJoins(t: Tree, e: Event, copied: seq<Event>)
      requires Journal(copied) == [] && ReportOf(e) == NOTHING
      ensures Exec(t, [e] + copied) == Exec(Apply(t, e), copied)
      ensures Journal([e] + copied) == JournalOf(e) && Reported([e] + copied) == Reported(copied)
    {
      hide Report.Plus;
      OneWrite(t, e);
      ExecConcat(t, [e], copied);
      JournalConcat([e], copied);
      ReportedConcat([e], copied);
      PlusAssociates(Reported(copied), NOTHING, NOTHING);
    }

    method OpenCopyAbsent(e: Entry) returns (ok: bool, ghost begun: seq<Event>, ghost made: seq<Event>)
      requires ValidTree(disk.tree)
      requires e.target !in disk.tree && Lstat(disk.Sight(), e.target).NotExist?
      modifies disk, `journal, `failed
      ensures begun == [OpenCopy(e.target)] + made && Journal(made) == [] && Reported(made) == NOTHING
      ensures disk.tree == Exec(old(disk.tree), made) && journal == old(journal) + [UndoRemoveCopy(e.target)]
      ensures begun <= RunRecopy(old(disk.Sight()), e).events
      ensures ok ==> WayClear(old(disk.tree), e.target) && made == Parents(old(disk.tree), e.target, |e.target|)
      ensures disk.faults >= old(disk.faults)
      ensures !ok && disk.faults == old(disk.faults) ==> !WayClear(old(disk.tree), e.target)
      ensures failed == if ok || old(failed).Some? then old(failed) else Some(e.target)
    {
      ghost var v := disk.Sight();
      journal := journal + [UndoRemoveCopy(e.target)];
      ok, made := disk.TryMkdirAll(e.target);
      MadeQuietly(v.tree, e.target, made);
      OpenedIsCut(v, e, made);
      if !ok { EntryFailed(e.target); }
      begun := [OpenCopy(e.target)] + made;
    }

    method RecopyAbsent(e: Entry) returns (ok: bool, ghost delta: seq<Event>)
      requires ValidTree(disk.tree) && ValidWorld(disk.world)
      requires e.target !in disk.tree && Lstat(disk.Sight(), e.target).NotExist?
      modifies disk, `journal, `report, `failed
      ensures Wrote(delta) && Carried(old(disk.Sight()), DoRecopy(e), ok, delta)
      ensures disk.faults >= old(disk.faults)
      ensures Excused(old(disk.Sight()), DoRecopy(e), ok, disk.faults == old(disk.faults))
      ensures failed == if ok || old(failed).Some? then old(failed) else Some(e.target)
    {
      ghost var v := disk.Sight();
      RecopyFull(v, e);
      RecopyNeeds(v, e);
      hide RunRecopy, Parents, WayClear, Copied, Exec, Journal, Reported, Report.Plus, Lstat, Fits;
      ghost var begun, made;
      ok, begun, made := OpenCopyAbsent(e);
      NothingMore(v.tree, begun);
      NothingMore(v.tree, made);
      OpenedJoins(v.tree, e.target, made, []);
      if !ok { return false, begun; }
      CopyHasRoom(v.tree, e.target, made, disk.world.content(LinkDest(e)));
      ghost var copied;
      ok, copied := CopyInto(e, false);
      delta := begun + copied;
      CopiedQuietly(disk.world, e, false, ok, copied);
      CopiedIsFound(disk.world, e, false, ok, copied);
      OpenedJoins(v.tree, e.target, made, copied);
      CopiedIsCut(disk.world, e, false, ok, begun, copied, RunRecopy(v, e).events);
    }

    lemma OpenedIsCut(v: View, e: Entry, made: seq<Event>)
      requires e.target !in v.tree && Lstat(v, e.target).NotExist?
      requires made <= Parents(v.tree, e.target, |e.target|) && (!WayClear(v.tree, e.target) ==> made == [])
      ensures [OpenCopy(e.target)] + made <= RunRecopy(v, e).events
    {
      hide Parents, WayClear, RunRecopy;
      RecopyFull(v, e);
    }

    lemma OpenedJoins(t: Tree, p: Path, made: seq<Event>, copied: seq<Event>)
      requires Journal(made) == [] && Reported(made) == NOTHING && Journal(copied) == []
      ensures Exec(t, [OpenCopy(p)] + made + copied) == Exec(Exec(t, made), copied)
      ensures Journal([OpenCopy(p)] + made + copied) == [UndoRemoveCopy(p)]
      ensures Reported([OpenCopy(p)] + made + copied) == Reported(copied)
    {
      hide *;
      OpenWrites(t, p);
      AsideJoins(t, OpenCopy(p), made);
      ExecConcat(t, [OpenCopy(p)] + made, copied);
      JournalConcat([OpenCopy(p)] + made, copied);
      EmptyEnd([UndoRemoveCopy(p)], Journal(copied));
      ReportedConcat([OpenCopy(p)] + made, copied);
      PlusAssociates(Reported(copied), NOTHING, NOTHING);
    }

    lemma OpenWrites(t: Tree, p: Path)
      ensures Apply(t, OpenCopy(p)) == t && JournalOf(OpenCopy(p)) == [UndoRemoveCopy(p)]
      ensures ReportOf(OpenCopy(p)) == NOTHING
    {
    }

    method RecopyOne(e: Entry) returns (ok: bool, ghost delta: seq<Event>)
      requires ValidTree(disk.tree) && ValidWorld(disk.world)
      modifies disk, `journal, `report, `failed
      ensures disk.tree == Exec(old(disk.tree), delta)
      ensures journal == old(journal) + Journal(delta) && report == old(report).Plus(Reported(delta))
      ensures Carried(View(old(disk.tree), disk.world), DoRecopy(e), ok, delta)
      ensures disk.faults >= old(disk.faults)
      ensures Excused(View(old(disk.tree), disk.world), DoRecopy(e), ok, disk.faults == old(disk.faults))
      ensures old(failed) == None ==> failed == Culprit(DoRecopy(e), ok)
    {
      if e.target in disk.tree {
        ok, delta := RecopyExisting(e);
      } else if Lstat(disk.Sight(), e.target).NotExist? {
        ok, delta := RecopyAbsent(e);
      } else {
        WroteNothing();
        RecopyNeeds(disk.Sight(), e);
        EntryFailed(e.target);
        return false, [];
      }
    }

    // Stale removal.

    /** A symlink on the way from the root to `dir`, `dir` included. */
    method PathHasSymlinkComponent(dir: Path) returns (r: bool)
      requires ValidTree(disk.tree)
      ensures r <==> exists k :: 0 < k <= |dir| && dir[..k] in disk.tree && disk.tree[dir[..k]].Link?
    {
      var k := 1;
      while k <= |dir|
        invariant 1 <= k <= |dir| + 1
        invariant forall j :: 0 < j < k && dir[..j] in disk.tree ==> !disk.tree[dir[..j]].Link?
      {
        if dir[..k] !in disk.tree {
          NothingBeneath(disk.tree, dir[..k]);
          forall j | k < j <= |dir| ensures dir[..j] !in disk.tree { assert dir[..k] < dir[..j]; }
          return false;
        }
        if disk.tree[dir[..k]].Link? { return true; }
        k := k + 1;
      }
      r := false;
    }

    lemma NoLinkUpwards(t: Tree, dir: Path)
      requires ValidTree(t) && dir in t && t[dir] == Dir
      ensures forall k :: 0 < k <= |dir| && dir[..k] in t ==> !t[dir[..k]].Link?
    {
      forall k | 0 < k <= |dir| ensures dir[..k] in t && t[dir[..k]] == Dir {
        if k < |dir| { AncestorsAreDirs(t, dir, dir[..k]); } else { Whole(dir); }
      }
    }

    lemma UpFurther(dir: Path, n: nat)
      requires 0 < n <= |dir|
      ensures Parent(dir)[..|Parent(dir)| - (n - 1)] == dir[..|dir| - n]
    {
    }

    lemma PrunesFirst(t: Tree, dir: Path, n: nat, m: nat)
      requires n > 0 && Prunes(t, dir, n) != []
      ensures dir != [] && |Parent(dir)| == |dir| - 1
      ensures Prunes(t, dir, n + m) == [RmDir(dir)] + Prunes(Without(t, dir), Parent(dir), n - 1 + m)
      ensures Trim(t, dir, n + m) == Trim(Without(t, dir), Parent(dir), n - 1 + m)
    {
    }

    /** After `n` prunes that all happened, the rest goes on from where they ended. */
    lemma {:induction false} PrunesSplit(t: Tree, dir: Path, n: nat, m: nat)
      requires |Prunes(t, dir, n)| == n
      ensures n <= |dir|
      ensures Prunes(t, dir, n + m) == Prunes(t, dir, n) + Prunes(Trim(t, dir, n), dir[..|dir| - n], m)
      ensures Trim(t, dir, n + m) == Trim(Trim(t, dir, n), dir[..|dir| - n], m)
      decreases n
    {
      hide *;
      PrunesNone(t, dir);
      Whole(dir);
      if n == 0 {
        NothingBefore(Prunes(t, dir, m));
      } else {
        PrunesFirst(t, dir, n, 0);
        PrunesFirst(t, dir, n, m);
        var u, up := Without(t, dir), Parent(dir);
        PrunesSplit(u, up, n - 1, m);
        UpFurther(dir, n);
        Associates([RmDir(dir)], Prunes(u, up, n - 1), Prunes(Trim(u, up, n - 1), up[..|up| - (n - 1)], m));
      }
    }

    lemma NothingBefore<T>(a: seq<T>)
      ensures [] + a == a
    {
    }

    lemma Associates<T>(a: seq<T>, b: seq<T>, c: seq<T>)
      ensures (a + b) + c == a + (b + c)
    {
    }

    lemma OnePruned(t: Tree, dir: Path)
      requires dir != [] && dir in t && t[dir] == Dir && Vacant(t, dir)
      ensures Prunes(t, dir, 1) == [RmDir(dir)] && Trim(t, dir, 1) == Without(t, dir)
    {
      assert Prunes(Without(t, dir), Parent(dir), 0) == [];
    }

    lemma NonePruned(t: Tree, dir: Path, n: nat)
      requires dir == [] || !Vacant(t, dir)
      ensures Prunes(t, dir, n) == []
    {
    }

    method PruneOne(dir: Path) returns (r: Errno)
      requires ValidTree(disk.tree) && dir != [] && dir in disk.tree && disk.tree[dir] == Dir
      modifies disk, `journal, `report
      ensures r == Done ==>
                && Vacant(old(disk.tree), dir) && disk.tree == Without(old(disk.tree), dir) && ValidTree(disk.tree)
                && Parent(dir) in disk.tree && disk.tree[Parent(dir)] == Dir
                && disk.tree == Exec(old(disk.tree), [RmDir(dir)])
                && journal == old(journal) + Journal([RmDir(dir)]) && report == old(report).Plus(Reported([RmDir(dir)]))
      ensures r != Done ==> disk.tree == old(disk.tree) && journal == old(journal) && report == old(report)
      ensures r != Absent && (r == NotEmpty ==> !Vacant(old(disk.tree), dir))
      ensures disk.faults >= old(disk.faults) && (r == OtherError ==> disk.faults > old(disk.faults))
    {
      ghost var u := disk.tree;
      r := disk.TryRemove(dir);
      if r != Done { return; }
      DropLeavesParent(u, dir);
      OneWrite(u, RmDir(dir));
      report := report.(pruned := report.pruned + [dir]);
      journal := journal + [UndoMkdir(dir)];
    }

    lemma WroteMore(t: Tree, es: seq<Event>, e: Event, journal0: seq<UndoOp>, report0: Report)
      ensures Exec(t, es + [e]) == Exec(Exec(t, es), [e])
      ensures (journal0 + Journal(es)) + Journal([e]) == journal0 + Journal(es + [e])
      ensures report0.Plus(Reported(es)).Plus(Reported([e])) == report0.Plus(Reported(es + [e]))
    {
      hide Report.Plus;
      ExecConcat(t, es, [e]);
      JournalConcat(es, [e]);
      ReportedConcat(es, [e]);
      PlusAssociates(report0, Reported(es), Reported([e]));
    }

    lemma UpOnce(from: Path, n: nat)
      requires n < |from|
      ensures from[..|from| - n] != [] && Parent(from[..|from| - n]) == from[..|from| - (n + 1)]
      ensures |Parent(from[..|from| - n])| == |from| - (n + 1)
    {
    }

    /** Walks up from `dir`, removing each ancestor left empty. `stopped` says the system refused one. */
    method PruneEmptyAncestors(from: Path) returns (stopped: bool, ghost made: seq<Event>)
      requires ValidTree(disk.tree) && from in disk.tree && disk.tree[from] == Dir
      modifies disk, `journal, `report
      ensures disk.tree == Exec(old(disk.tree), made) && ValidTree(disk.tree)
      ensures journal == old(journal) + Journal(made) && report == old(report).Plus(Reported(made))
      ensures made == Prunes(old(disk.tree), from, |made|)
      ensures !stopped ==> made == Prunes(old(disk.tree), from, |from|)
      ensures disk.faults >= old(disk.faults) && (stopped ==> disk.faults > old(disk.faults))
    {
      hide *;
      ghost var t := disk.tree;
      WroteNothing();
      Whole(from);
      made := [];
      PrunesNone(t, from);
      var dir := from;
      stopped := false;
      while dir != []
        invariant ValidTree(disk.tree) && |made| <= |from| && dir == from[..|from| - |made|]
        invariant dir in disk.tree && disk.tree[dir] == Dir
        invariant disk.tree == Exec(t, made) == Trim(t, from, |made|)
        invariant journal == old(journal) + Journal(made) && report == old(report).Plus(Reported(made))
        invariant made == Prunes(t, from, |made|)
        invariant !stopped && disk.faults >= old(disk.faults)
        decreases |dir|
      {
        NoLinkUpwards(disk.tree, dir);
        var hasLink := PathHasSymlinkComponent(dir);
        if hasLink { break; }
        ghost var u := disk.tree;
        PrunesSplit(t, from, |made|, 1);
        var r := PruneOne(dir);
        if r != Done {
          stopped := r == OtherError;
          if !stopped { StopsHere(t, from, |made|); }
          return;
        }
        OnePruned(u, dir);
        WroteMore(t, made, RmDir(dir), old(journal), old(report));
        UpOnce(from, |made|);
        made := made + [RmDir(dir)];
        dir := Parent(dir);
      }
      StopsHere(t, from, |made|);
    }

    lemma PrunesNone(t: Tree, dir: Path)
      ensures Prunes(t, dir, 0) == [] && Trim(t, dir, 0) == t
    {
    }

    lemma StopsHere(t: Tree, from: Path, n: nat)
      requires |Prunes(t, from, n)| == n && n <= |from|
      requires from[..|from| - n] == [] || !Vacant(Trim(t, from, n), from[..|from| - n])
      ensures Prunes(t, from, |from|) == Prunes(t, from, n)
    {
      PrunesSplit(t, from, n, |from| - n);
      NonePruned(Trim(t, from, n), from[..|from| - n], |from| - n);
      EmptyEnd(Prunes(t, from, n), []);
    }

    /** The unlink of a stale link that is still as recorded. */
    method UnlinkStale(e: Entry) returns (ok: bool)
      requires ValidTree(disk.tree) && StillRecorded(disk.Sight(), e)
      modifies disk, `journal, `report, `failed
      ensures ok ==>
                && Wrote([Drop(e.target, LinkDest(e))]) && e.target in old(disk.tree)
                && ValidTree(disk.tree) && disk.tree == Without(old(disk.tree), e.target)
                && Parent(e.target) in disk.tree && disk.tree[Parent(e.target)] == Dir
      ensures !ok ==> disk.tree == old(disk.tree) && journal == old(journal) && report == old(report)
      ensures disk.faults >= old(disk.faults)
      ensures !ok && disk.faults == old(disk.faults) ==> e.target !in old(disk.tree)
      ensures failed == if ok || old(failed).Some? then old(failed) else Some(e.target)
    {
      ghost var t := disk.tree;
      if e.target in t { NothingBeneath(t, e.target); }
      var r := disk.TryRemove(e.target);
      if r != Done {
        EntryFailed(e.target);
        return false;
      }
      OneWrite(t, Drop(e.target, LinkDest(e)));
      DropLeavesParent(t, e.target);
      report := report.(removed := report.removed + [e.target]);
      journal := journal + [UndoRelinkOld(e.target, LinkDest(e))];
      return true;
    }

    /** A link that drifted is kept; a prune that fails is a warning. */
    method DropOne(e: Entry) returns (ok: bool, ghost delta: seq<Event>, ghost limit: nat)
      requires ValidTree(disk.tree)
      modifies disk, `journal, `report, `failed
      ensures disk.tree == Exec(old(disk.tree), delta)
      ensures journal == old(journal) + Journal(delta) && report == old(report).Plus(Reported(delta))
      ensures Carried(View(old(disk.tree), disk.world), DoDrop(e, limit), ok, delta)
      ensures disk.faults >= old(disk.faults)
      ensures Excused(View(old(disk.tree), disk.world), DoDrop(e, limit), ok, disk.faults == old(disk.faults))
      ensures disk.faults == old(disk.faults) ==> limit >= |e.target|
      ensures old(failed) == None ==> failed == Culprit(DoDrop(e, limit), ok)
    {
      WroteNothing();
      hide Exec, Journal, Reported, Lstat, Prunes, StillRecorded, Report.Plus;
      limit, delta := |e.target|, [];
      ghost var t := disk.tree;
      if !StillRecorded(disk.Sight(), e) { return true, [], limit; }
      ok := UnlinkStale(e);
      if !ok { return; }
      ghost var made;
      var stopped;
      stopped, made := PruneEmptyAncestors(Parent(e.target));
      if stopped { limit := |made|; }
      AllPruned(Without(t, e.target), Parent(e.target), |e.target|);
      delta := [Drop(e.target, LinkDest(e))] + made;
      DropChains(t, Drop(e.target, LinkDest(e)), made, old(journal), old(report));
    }

    /** There is no more to prune than the directory has ancestors. */
    lemma {:induction false} AllPruned(t: Tree, dir: Path, limit: nat)
      requires limit >= |dir|
      ensures Prunes(t, dir, limit) == Prunes(t, dir, |dir|)
      decreases |dir|
    {
      if dir != [] && dir in t && t[dir] == Dir && Vacant(t, dir) {
        AllPruned(Without(t, dir), Parent(dir), limit - 1);
      }
    }

    lemma DropChains(t: Tree, drop: Event, made: seq<Event>, journal0: seq<UndoOp>, report0: Report)
      ensures Exec(t, [drop] + made) == Exec(Exec(t, [drop]), made)
      ensures (journal0 + Journal([drop])) + Journal(made) == journal0 + Journal([drop] + made)
      ensures report0.Plus(Reported([drop])).Plus(Reported(made)) == report0.Plus(Reported([drop] + made))
    {
      hide Report.Plus, Exec, Journal, Reported;
      ExecConcat(t, [drop], made);
      JournalConcat([drop], made);
      Associates(journal0, Journal([drop]), Journal(made));
      ReportedConcat([drop], made);
      PlusAssociates(report0, Reported([drop]), Reported(made));
    }

    lemma DropLeavesParent(t: Tree, p: Path)
      requires ValidTree(t) && p != [] && p in t && Vacant(t, p)
      ensures ValidTree(Without(t, p)) && Parent(p) in Without(t, p) && Without(t, p)[Parent(p)] == Dir
    {
      RemovalValid(t, p);
    }

    // The stages.

    /** Nothing has failed so far. */
    ghost predicate Running()
      reads this, disk
    {
      Valid() && failed.None? && !unwound && unreached == []
    }

    /** A stage went through, or stopped with its target recorded. */
    ghost predicate Stands(ok: bool)
      reads this, disk
    {
      Valid() && !unwound && unreached == [] && (ok ==> failed.None?)
    }

    lemma RunningIsSound()
      requires Running()
      ensures ValidTree(disk.tree) && ValidWorld(disk.world)
    {
      LegalValid(origin, events);
    }

    /** A run on its way, as values. */
    static ghost predicate Underway(origin: Tree, before: seq<Event>, v: View, journal0: seq<UndoOp>, report0: Report) {
      && ValidTree(origin) && ValidWorld(v.world) && v.tree == Exec(origin, before)
      && Legal(origin, before) && Attempted(before, {}) && journal0 == Journal(before) && report0 == Reported(before)
    }

    /** Whom a failed action is recorded under. */
    static function Culprit(a: Action, ok: bool): Option<Path> {
      if ok || a.PreRmDir? then None else Some(a.Target())
    }

    lemma Begins()
      requires Running()
      ensures Underway(origin, events, View(disk.tree, disk.world), journal, report)
      ensures ValidTree(disk.tree) && ValidWorld(disk.world) && failed == None && !unwound && unreached == []
    {
      RunningIsSound();
    }

    /** How far a stage has come. */
    ghost predicate Reached(events0: seq<Event>, t: Tree, part: seq<Action>, ok: bool, delta: seq<Event>)
      reads this, disk
    {
      && Stands(ok) && events == events0 + delta && disk.tree == Exec(t, delta)
      && CarriedAll(disk.world, t, part, ok, delta)
    }

    lemma ReachedNothing()
      requires Running()
      ensures Reached(events, disk.tree, [], true, [])
      ensures PreActions([]) == [] && BackupActions([]) == [] && PlaceActions([]) == [] && CopyActions([]) == []
      ensures RecopyActions([]) == []
    {
      NothingCarried(disk.world, disk.tree);
    }

    lemma ReachedRuns(events0: seq<Event>, t: Tree, part: seq<Action>, delta: seq<Event>)
      requires Reached(events0, t, part, true, delta)
      ensures Running() && events == events0 + delta && disk.tree == Exec(t, delta)
      ensures CarriedAll(disk.world, t, part, true, delta)
    {
    }

    /** The pass just made joins the run. */
    lemma Joins(before: seq<Event>, v: View, journal0: seq<UndoOp>, report0: Report, a: Action, ok: bool, d: seq<Event>)
      requires Underway(origin, before, v, journal0, report0) && v.world == disk.world
      requires events == before + d && disk.tree == Exec(v.tree, d)
      requires journal == journal0 + Journal(d) && report == report0.Plus(Reported(d))
      requires Carried(v, a, ok, d) && failed == Culprit(a, ok) && !unwound && unreached == []
      ensures Stands(ok) && (ok ==> Running())
    {
      hide RunOne, Attempted, Report.Plus, Carried, Legal, Exec, Journal, Reported;
      RunGrows(origin, before, v, a, ok, d);
    }

    lemma Advances(events0: seq<Event>, t: Tree, part: seq<Action>, delta: seq<Event>,
                   v: View, journal0: seq<UndoOp>, report0: Report, a: Action, ok: bool, d: seq<Event>)
      requires Underway(origin, events0 + delta, v, journal0, report0) && v.world == disk.world
      requires CarriedAll(disk.world, t, part, true, delta) && v.tree == Exec(t, delta)
      requires events == events0 + delta + d && disk.tree == Exec(v.tree, d)
      requires journal == journal0 + Journal(d) && report == report0.Plus(Reported(d))
      requires Carried(v, a, ok, d) && failed == Culprit(a, ok) && !unwound && unreached == []
      ensures Reached(events0, t, part + [a], ok, delta + d)
    {
      Joins(events0 + delta, v, journal0, report0, a, ok, d);
      hide RunOne, RunAll, Attempted, Report.Plus, Carried, CarriedAll, Legal, Exec, Journal, Reported, Stands, Underway;
      OneMoreCarried(disk.world, t, part, a, delta, ok, d);
      Associates(events0, delta, d);
      ExecConcat(t, delta, d);
    }

    /** A stage that stopped early. */
    lemma StopsStage(events0: seq<Event>, t: Tree, part: seq<Action>, all: seq<Action>, delta: seq<Event>)
      requires Reached(events0, t, part, false, delta) && part <= all
      ensures Reached(events0, t, all, false, delta)
    {
      hide CarriedAll, Stands, Exec;
      CutOfStage(disk.world, t, part, all, delta);
    }

    /** A stage that failed without a refused call was bound to. */
    ghost predicate Within(faults0: nat, t: Tree, all: seq<Action>, ok: bool)
      reads disk
    {
      disk.faults >= faults0 && ExcusedAll(disk.world, t, all, ok, disk.faults == faults0)
    }

    lemma StopsWithin(faults0: nat, faults: nat, t: Tree, part: seq<Action>, a: Action, all: seq<Action>, delta: seq<Event>,
                      d: seq<Event>)
      requires faults0 <= faults <= disk.faults && CarriedAll(disk.world, t, part, true, delta) && part + [a] <= all
      requires Excused(View(Exec(t, delta), disk.world), a, false, disk.faults == faults)
      requires Carried(View(Exec(t, delta), disk.world), a, false, d) && failed == Culprit(a, false)
      ensures Within(faults0, t, all, false) && FailedAt(disk.world, t, all, delta + d, failed)
    {
      FailsNow(disk.world, t, part, a, delta, d, failed);
      FailedLonger(disk.world, t, part + [a], all, delta + d, failed);
      hide CarriedAll, Carried, RunOne, RunAll, Exec, FailedAt;
      if disk.faults == faults0 { StuckAt(disk.world, t, part, a, all, delta, true); }
    }

    lemma WithinGrows(faults0: nat, t: Tree, all: seq<Action>, ok: bool)
      requires Within(faults0, t, all, ok)
      ensures disk.faults >= faults0
    {
    }

    lemma AllWithin(t: Tree, all: seq<Action>, faults0: nat)
      requires disk.faults >= faults0
      ensures Within(faults0, t, all, true)
    {
    }

    /** Removes, before anything is placed, what the plan scheduled to clear a target; drift stops it. */
    method PreRemove(rs: seq<RemoveAction>) returns (ok: bool, ghost delta: seq<Event>)
      requires Running()
      modifies disk, `events, `journal, `report, `failed
      ensures Reached(old(events), old(disk.tree), PreActions(rs), ok, delta)
      ensures Within(old(disk.faults), old(disk.tree), PreActions(rs), ok)
      ensures !ok ==> FailedAt(disk.world, old(disk.tree), PreActions(rs), delta, failed)
    {
      hide *;
      ReachedNothing();
      ghost var events0, t, faults0 := events, disk.tree, disk.faults;
      delta := [];
      for i := 0 to |rs|
        invariant Reached(events0, t, PreActions(rs[..i]), true, delta) && disk.faults >= faults0
      {
        ReachedRuns(events0, t, PreActions(rs[..i]), delta);
        Begins();
        ghost var v, journal0, report0, faults, before := View(disk.tree, disk.world), journal, report, disk.faults, delta;
        PrePasses(rs, i);
        ghost var d;
        ok, d := PreRemoveOne(rs[i]);
        events := events + d;
        Advances(events0, t, PreActions(rs[..i]), delta, v, journal0, report0, PreAction(rs[i]), ok, d);
        delta := delta + d;
        if !ok {
          StopsStage(events0, t, PreActions(rs[..i + 1]), PreActions(rs), delta);
          StopsWithin(faults0, faults, t, PreActions(rs[..i]), PreAction(rs[i]), PreActions(rs), before, d);
          return;
        }
      }
      Whole(rs);
      AllWithin(t, PreActions(rs), faults0);
      ok := true;
    }

    /** Renames foreign occupants aside. */
    method Backup(bs: seq<BackupAction>) returns (ok: bool, ghost delta: seq<Event>)
      requires Running()
      requires forall b :: b in bs ==> b.aside != [] && b.aside != b.entry.target && Parent(b.aside) == Parent(b.entry.target)
      modifies disk, `events, `journal, `report, `failed
      ensures Reached(old(events), old(disk.tree), BackupActions(bs), ok, delta)
      ensures Within(old(disk.faults), old(disk.tree), BackupActions(bs), ok)
      ensures !ok ==> FailedAt(disk.world, old(disk.tree), BackupActions(bs), delta, failed)
    {
      hide *;
      ReachedNothing();
      ghost var events0, t, faults0 := events, disk.tree, disk.faults;
      delta := [];
      for i := 0 to |bs|
        invariant Reached(events0, t, BackupActions(bs[..i]), true, delta) && disk.faults >= faults0
      {
        ReachedRuns(events0, t, BackupActions(bs[..i]), delta);
        Begins();
        ghost var v, journal0, report0, faults, before := View(disk.tree, disk.world), journal, report, disk.faults, delta;
        BackupPasses(bs, i);
        ghost var d;
        ok, d := BackupOne(bs[i].entry, bs[i].aside);
        events := events + d;
        Advances(events0, t, BackupActions(bs[..i]), delta, v, journal0, report0, DoBackup(bs[i].entry, bs[i].aside), ok, d);
        delta := delta + d;
        if !ok {
          StopsStage(events0, t, BackupActions(bs[..i + 1]), BackupActions(bs), delta);
          StopsWithin(faults0, faults, t, BackupActions(bs[..i]), DoBackup(bs[i].entry, bs[i].aside), BackupActions(bs), before, d);
          return;
        }
      }
      Whole(bs);
      AllWithin(t, BackupActions(bs), faults0);
      ok := true;
    }

    /** New links and re-links. */
    method Place(ps: seq<PlaceAction>) returns (ok: bool, ghost delta: seq<Event>)
      requires Running()
      modifies disk, `events, `journal, `report, `failed
      ensures Reached(old(events), old(disk.tree), PlaceActions(ps), ok, delta)
      ensures Within(old(disk.faults), old(disk.tree), PlaceActions(ps), ok)
      ensures !ok ==> FailedAt(disk.world, old(disk.tree), PlaceActions(ps), delta, failed)
    {
      hide *;
      ReachedNothing();
      ghost var events0, t, faults0 := events, disk.tree, disk.faults;
      delta := [];
      for i := 0 to |ps|
        invariant Reached(events0, t, PlaceActions(ps[..i]), true, delta) && disk.faults >= faults0
      {
        ReachedRuns(events0, t, PlaceActions(ps[..i]), delta);
        Begins();
        ghost var v, journal0, report0, faults, before := View(disk.tree, disk.world), journal, report, disk.faults, delta;
        PlacePasses(ps, i);
        ghost var d;
        ok, d := PlaceOne(ps[i].entry, ps[i].kind);
        events := events + d;
        Advances(events0, t, PlaceActions(ps[..i]), delta, v, journal0, report0, DoPlace(ps[i].entry, ps[i].kind), ok, d);
        delta := delta + d;
        if !ok {
          StopsStage(events0, t, PlaceActions(ps[..i + 1]), PlaceActions(ps), delta);
          StopsWithin(faults0, faults, t, PlaceActions(ps[..i]), DoPlace(ps[i].entry, ps[i].kind), PlaceActions(ps), before, d);
          return;
        }
      }
      Whole(ps);
      AllWithin(t, PlaceActions(ps), faults0);
      ok := true;
    }

    /** Place-once copies. */
    method PlaceCopies(cs: seq<CopyAction>) returns (ok: bool, ghost delta: seq<Event>)
      requires Running()
      modifies disk, `events, `journal, `report, `failed
      ensures Reached(old(events), old(disk.tree), CopyActions(cs), ok, delta)
      ensures Within(old(disk.faults), old(disk.tree), CopyActions(cs), ok)
      ensures !ok ==> FailedAt(disk.world, old(disk.tree), CopyActions(cs), delta, failed)
    {
      hide *;
      ReachedNothing();
      ghost var events0, t, faults0 := events, disk.tree, disk.faults;
      delta := [];
      for i := 0 to |cs|
        invariant Reached(events0, t, CopyActions(cs[..i]), true, delta) && disk.faults >= faults0
      {
        ReachedRuns(events0, t, CopyActions(cs[..i]), delta);
        Begins();
        ghost var v, journal0, report0, faults, before := View(disk.tree, disk.world), journal, report, disk.faults, delta;
        CopyPasses(cs, i);
        ghost var d;
        ok, d := CopyOne(cs[i].entry);
        events := events + d;
        Advances(events0, t, CopyActions(cs[..i]), delta, v, journal0, report0, DoCopy(cs[i].entry), ok, d);
        delta := delta + d;
        if !ok {
          StopsStage(events0, t, CopyActions(cs[..i + 1]), CopyActions(cs), delta);
          StopsWithin(faults0, faults, t, CopyActions(cs[..i]), DoCopy(cs[i].entry), CopyActions(cs), before, d);
          return;
        }
      }
      Whole(cs);
      AllWithin(t, CopyActions(cs), faults0);
      ok := true;
    }

    /** --recopy walks the manifest: every copy target, overwritten whatever is there. */
    method RecopyAll(next: Manifest) returns (ok: bool, ghost delta: seq<Event>)
      requires Running()
      modifies disk, `events, `journal, `report, `failed
      ensures Reached(old(events), old(disk.tree), RecopyActions(next), ok, delta)
      ensures Within(old(disk.faults), old(disk.tree), RecopyActions(next), ok)
      ensures !ok ==> FailedAt(disk.world, old(disk.tree), RecopyActions(next), delta, failed)
    {
      hide *;
      ReachedNothing();
      ghost var events0, t, faults0 := events, disk.tree, disk.faults;
      delta := [];
      for i := 0 to |next|
        invariant Reached(events0, t, RecopyActions(next[..i]), true, delta) && disk.faults >= faults0
      {
        ReachedRuns(events0, t, RecopyActions(next[..i]), delta);
        Begins();
        RecopyPasses(next, i);
        EmptyEnd(RecopyActions(next[..i]), []);
        if next[i].how == Copy {
          ghost var v, journal0, report0, faults, before := View(disk.tree, disk.world), journal, report, disk.faults, delta;
          ghost var d;
          ok, d := RecopyOne(next[i]);
          events := events + d;
          Advances(events0, t, RecopyActions(next[..i]), delta, v, journal0, report0, DoRecopy(next[i]), ok, d);
          delta := delta + d;
          if !ok {
            StopsStage(events0, t, RecopyActions(next[..i + 1]), RecopyActions(next), delta);
            StopsWithin(faults0, faults, t, RecopyActions(next[..i]), DoRecopy(next[i]), RecopyActions(next), before, d);
            return;
          }
        }
      }
      Whole(next);
      AllWithin(t, RecopyActions(next), faults0);
      ok := true;
    }

    method MaterializeCopies(job: Job, plan: Plan, recopy: bool) returns (ok: bool, ghost delta: seq<Event>)
      requires Running() && plan.copies == job.Copies(job.next)
      modifies disk, `events, `journal, `report, `failed
      ensures Reached(old(events), old(disk.tree), CopyStage(job, recopy), ok, delta)
      ensures Within(old(disk.faults), old(disk.tree), CopyStage(job, recopy), ok)
      ensures !ok ==> FailedAt(disk.world, old(disk.tree), CopyStage(job, recopy), delta, failed)
    {
      if recopy { ok, delta := RecopyAll(job.next); } else { ok, delta := PlaceCopies(plan.copies); }
    }

    lemma EachUnlinks(rs: seq<RemoveAction>, i: nat)
      requires i < |rs| && forall r :: r in rs ==> r.Unlink?
      ensures rs[i].Unlink?
    {
      assert rs[i] in rs;
    }

    lemma EachUnlinked(rs: seq<RemoveAction>)
      requires forall r :: r in rs ==> r.Unlink?
      ensures forall i :: 0 <= i < |rs| ==> rs[i].Unlink?
    {
      forall i | 0 <= i < |rs| ensures rs[i].Unlink? { assert rs[i] in rs; }
    }

    /** No limit so far is in the way of a prune. */
    ghost predicate Generous(rs: seq<RemoveAction>, limits: seq<nat>) {
      |limits| <= |rs| && forall i :: 0 <= i < |limits| ==> rs[i].Unlink? && limits[i] >= |rs[i].entry.target|
    }

    lemma OneMoreGenerous(rs: seq<RemoveAction>, limits: seq<nat>, limit: nat)
      ensures Generous(rs, [])
      ensures Generous(rs, limits) && |limits| < |rs| && rs[|limits|].Unlink? && limit >= |rs[|limits|].entry.target| ==>
                Generous(rs, limits + [limit])
      ensures Generous(rs, limits) && |limits| == |rs| ==> Unlimited(rs, limits)
    {
    }

    /** Stale removals up to the passes made so far. */
    function DropsSoFar(rs: seq<RemoveAction>, limits: seq<nat>): seq<Action>
      requires |limits| <= |rs| && forall r :: r in rs ==> r.Unlink?
    {
      assert forall r :: r in rs[..|limits|] ==> r in rs;
      DropActions(rs[..|limits|], limits)
    }

    lemma OneMoreDropped(rs: seq<RemoveAction>, limits: seq<nat>, limit: nat)
      requires |limits| < |rs| && forall r :: r in rs ==> r.Unlink?
      ensures rs[|limits|].Unlink?
      ensures DropsSoFar(rs, limits + [limit]) == DropsSoFar(rs, limits) + [DoDrop(rs[|limits|].entry, limit)]
    {
      DropPasses(rs, |limits|, limits, limit);
    }

    lemma AllDropped(rs: seq<RemoveAction>, limits: seq<nat>)
      requires forall r :: r in rs ==> r.Unlink?
      ensures DropsSoFar(rs, []) == []
      ensures |limits| == |rs| ==> DropsSoFar(rs, limits) == DropActions(rs, limits)
    {
      Whole(rs);
    }

    /** The passes not made might have had any limits. */
    lemma StopsDrops(events0: seq<Event>, t: Tree, rs: seq<RemoveAction>, some: seq<nat>, delta: seq<Event>)
      returns (limits: seq<nat>)
      requires |some| <= |rs| && forall r :: r in rs ==> r.Unlink?
      requires Reached(events0, t, DropsSoFar(rs, some), false, delta)
      ensures |limits| == |rs| && Reached(events0, t, DropActions(rs, limits), false, delta)
      ensures DropsSoFar(rs, some) <= DropActions(rs, limits)
      ensures Generous(rs, some) ==> Unlimited(rs, limits)
    {
      EachUnlinked(rs);
      limits := some + seq(|rs| - |some|, i requires 0 <= i < |rs| - |some| => |rs[|some| + i].entry.target|);
      assert limits[..|some|] == some;
      DropsLonger(rs, |some|, limits);
      StopsStage(events0, t, DropsSoFar(rs, some), DropActions(rs, limits), delta);
    }

    /** Unlinks what is stale, each link only while it is as recorded. */
    method RemoveStale(rs: seq<RemoveAction>) returns (ok: bool, ghost delta: seq<Event>, ghost limits: seq<nat>)
      requires Running() && forall r :: r in rs ==> r.Unlink?
      modifies disk, `events, `journal, `report, `failed
      ensures |limits| == |rs| && Reached(old(events), old(disk.tree), DropActions(rs, limits), ok, delta)
      ensures Within(old(disk.faults), old(disk.tree), DropActions(rs, limits), ok)
      ensures !ok ==> FailedAt(disk.world, old(disk.tree), DropActions(rs, limits), delta, failed)
      ensures disk.faults == old(disk.faults) ==> Unlimited(rs, limits)
      ensures !ok ==> failed.Some?
    {
      hide *;
      ReachedNothing();
      ghost var events0, t, faults0 := events, disk.tree, disk.faults;
      delta, limits := [], [];
      AllDropped(rs, []);
      OneMoreGenerous(rs, [], 0);
      for i := 0 to |rs|
        invariant |limits| == i && Reached(events0, t, DropsSoFar(rs, limits), true, delta) && disk.faults >= faults0
        invariant disk.faults == faults0 ==> Generous(rs, limits)
      {
        ReachedRuns(events0, t, DropsSoFar(rs, limits), delta);
        Begins();
        ghost var v, journal0, report0, faults, before := View(disk.tree, disk.world), journal, report, disk.faults, delta;
        EachUnlinks(rs, i);
        ghost var d, limit;
        ok, d, limit := DropOne(rs[i].entry);
        OneMoreDropped(rs, limits, limit);
        OneMoreGenerous(rs, limits, limit);
        ghost var some := limits;
        events := events + d;
        Advances(events0, t, DropsSoFar(rs, limits), delta, v, journal0, report0, DoDrop(rs[i].entry, limit), ok, d);
        delta, limits := delta + d, limits + [limit];
        if !ok {
          DropCulprit(rs[i].entry, limit);
          limits := StopsDrops(events0, t, rs, limits, delta);
          StopsWithin(faults0, faults, t, DropsSoFar(rs, some), DoDrop(rs[i].entry, limit), DropActions(rs, limits), before, d);
          return;
        }
      }
      AllDropped(rs, limits);
      OneMoreGenerous(rs, limits, 0);
      AllWithin(t, DropActions(rs, limits), faults0);
      ok := true;
    }

    lemma DropCulprit(e: Entry, limit: nat)
      ensures Culprit(DoDrop(e, limit), false) == Some(e.target)
    {
    }

    // Taking it back.

    method UndoOne(op: UndoOp)
      requires op.path != []
      modifies disk`tree
      ensures disk.tree == Steps.UndoOne(old(disk.tree), op).tree
    {
      match op
      case UndoUnlinkNew(p) => var r := disk.Remove(p);
      case UndoRelinkOld(p, d) =>
        var r := disk.Remove(p);
        if r == Done || r == Absent { var ok := disk.Symlink(d, p); }
      case UndoRemoveCopy(p) => disk.RemoveAll(p);
      case UndoRestoreRename(p, tmp) =>
        disk.RemoveAll(p);
        var ok := disk.Rename(tmp, p);
      case UndoRestoreBackup(p, tmp) =>
        disk.RemoveAll(p);
        var ok := disk.Rename(tmp, p);
      case UndoMkdir(p) => var ok := disk.Mkdir(p);
    }

    /** Every inverse, last first, whatever the others came to. */
    method Unwind()
      requires Rooted(journal)
      modifies disk`tree, `journal
      ensures disk.tree == UndoAll(old(disk.tree), old(journal)) && journal == []
    {
      var ops := journal;
      journal := [];
      var i := |ops|;
      Whole(ops);
      while i > 0
        invariant 0 <= i <= |ops| && Rooted(ops[..i]) && journal == []
        invariant UndoAll(disk.tree, ops[..i]) == UndoAll(old(disk.tree), old(journal))
      {
        Prefix(ops, i);
        assert ops[i - 1] in ops[..i];
        UndoOne(ops[i - 1]);
        i := i - 1;
      }
    }

    /** A stage failure takes back every write of this run. */
    method RunJournaled(ok: bool)
      requires Stands(ok)
      modifies disk`tree, `journal, `unwound
      ensures ok ==> Running() && disk.tree == old(disk.tree) && journal == old(journal)
      ensures !ok ==> unwound && journal == [] && disk.tree == Unwound(origin, events)
    {
      if !ok {
        LegalValid(origin, events);
        Unwind();
        unwound := true;
      }
    }

    /** Recopy asides are dropped after a success, all but those the system refuses to let go. */
    method DiscardJournal()
      modifies disk, `journal
      ensures journal == []
      ensures (forall op :: op in old(journal) ==> !op.UndoRestoreRename?) ==> disk.tree == old(disk.tree)
      ensures forall q :: q in disk.tree ==> q in old(disk.tree) && disk.tree[q] == old(disk.tree)[q]
      ensures forall q :: q in old(disk.tree) && q !in disk.tree ==>
                exists op :: op in old(journal) && op.UndoRestoreRename? && op.tmp <= q
      ensures disk.faults >= old(disk.faults)
      ensures disk.faults == old(disk.faults) ==> AsidesGone(disk.tree, old(journal))
    {
      ghost var t := disk.tree;
      for i := 0 to |journal|
        invariant journal == old(journal)
        invariant (forall op :: op in old(journal) ==> !op.UndoRestoreRename?) ==> disk.tree == t
        invariant forall q :: q in disk.tree ==> q in t && disk.tree[q] == t[q]
        invariant forall q :: q in t && q !in disk.tree ==>
                    exists op :: op in old(journal) && op.UndoRestoreRename? && op.tmp <= q
        invariant disk.faults >= old(disk.faults)
        invariant disk.faults == old(disk.faults) ==> AsidesGone(disk.tree, old(journal)[..i])
      {
        assert journal[i] in journal;
        if journal[i].UndoRestoreRename? {
          var refused := disk.Refuses();
          if !refused { disk.RemoveAll(journal[i].tmp); }
        }
      }
      journal := [];
    }

    /** Nothing is left of what was renamed aside. */
    static ghost predicate AsidesGone(u: Tree, ops: seq<UndoOp>) {
      forall op, q :: op in ops && op.UndoRestoreRename? && op.tmp <= q ==> q !in u
    }

    // Reporting.

    method MarkUnreached(targets: seq<Path>, ghost order: seq<Path>, done: set<Path>)
      requires unreached == Unreached(order, done)
      modifies `unreached
      ensures unreached == Unreached(order + targets, done)
    {
      EmptyEnd(order, []);
      for i := 0 to |targets|
        invariant unreached == Unreached(order + targets[..i], done)
      {
        Prefix(targets, i + 1);
        SnocConcat(order, targets[..i], targets[i]);
        ButLast(order + targets[..i], targets[i]);
        if targets[i] !in done && targets[i] !in unreached { unreached := unreached + [targets[i]]; }
      }
      Whole(targets);
    }

    /** Lists the planned targets a failed run never got to. */
    method Fail(plan: Plan, next: Manifest, recopy: bool)
      requires unreached == [] && Attempted(events, Failing()) && report == Reported(events)
      modifies `unreached
      ensures unreached == Unreached(PlannedTargets(plan, next, recopy), old(report.Done() + Failing()))
      ensures forall e :: e in events && Attempts(e) ==> e.path !in unreached
    {
      hide Unreached, RemoveTargets, BackupTargets, PlaceTargets, CopyTargets, RecopyTargets, Report.Done, Reported;
      var done := report.Done() + match failed case None => {} case Some(target) => {target};
      assert done == report.Done() + Failing();
      ghost var order := [];
      NoneUnreached(done);
      MarkUnreached(RemoveTargets(plan.preRemove), order, done);
      order := order + RemoveTargets(plan.preRemove);
      MarkUnreached(BackupTargets(plan.backup), order, done);
      order := order + BackupTargets(plan.backup);
      MarkUnreached(PlaceTargets(plan.place), order, done);
      order := order + PlaceTargets(plan.place);
      MarkUnreached(CopyTargets(plan.copies), order, done);
      order := order + CopyTargets(plan.copies);
      var again := if recopy then RecopyTargets(next) else [];
      MarkUnreached(again, order, done);
      order := order + again;
      MarkUnreached(RemoveTargets(plan.remove), order, done);
      assert [] + RemoveTargets(plan.preRemove) == RemoveTargets(plan.preRemove);
      UnreachedCovers(PlannedTargets(plan, next, recopy), done);
    }
  }
}
