/** The planner as it runs: one pass over each manifest, appending to a plan under construction. */
module Builder {
  import opened Sequences
  import opened Paths
  import opened Trees
  import opened Manifests
  import opened Planner
  import opened PlanFacts

  class PlanBuilder {
    const job: Job
    const prevBy: map<Path, Entry>
    const nextBy: map<Path, Entry>

    var place: seq<PlaceAction>
    var copies: seq<CopyAction>
    var remove: seq<RemoveAction>
    var preRemove: seq<RemoveAction>
    var backup: seq<BackupAction>
    var conflicts: seq<Conflict>
    var warnings: seq<Warning>
    var preRemoved: set<Path>

    ghost predicate Ready() {
      prevBy == job.PrevBy() && nextBy == job.NextBy()
    }

    function Lists(): Plan
      reads this
    {
      Plan(place, copies, remove, preRemove, backup, conflicts, warnings)
    }

    /** The entry has been dealt with as its verdict says. */
    twostate predicate Added(e: Entry)
      reads this
    {
      && place == old(place) + job.PlaceOf(e)
      && copies == old(copies) + job.CopiesOf(e)
      && remove == old(remove)
      && preRemove == old(preRemove) + job.PreRemoveOf(e, old(preRemoved))
      && backup == old(backup) + job.BackupOf(e)
      && conflicts == old(conflicts) + job.ConflictsOf(e)
      && warnings == old(warnings) + job.WarningsOf(e)
      && preRemoved == old(preRemoved) + job.MarksOf(e)
    }

    constructor (job: Job)
      ensures this.job == job && Ready() && Lists() == Plan([], [], [], [], [], [], []) && preRemoved == {}
    {
      this.job := job;
      prevBy, nextBy := job.PrevBy(), job.NextBy();
      place, copies, remove, preRemove, backup, conflicts, warnings := [], [], [], [], [], [], [];
      preRemoved := {};
    }

    method RecordedLink(target: Path) returns (r: bool)
      requires Ready()
      ensures r == job.RecordedLink(target)
    {
      if target !in prevBy { return false; }
      match Readlink(job.view, target)
      case None => return false;
      case Some(onDisk) => return onDisk == LinkDest(prevBy[target]);
    }

    /** The first existing ancestor of `target` that is a symlink. */
    method AncestorSymlink(target: Path) returns (r: Ancestor)
      ensures r == job.AncestorSymlink(target, 1)
    {
      var k := 1;
      while k < |target|
        invariant 1 <= k
        invariant job.AncestorSymlink(target, 1) == job.AncestorSymlink(target, k)
      {
        match Lstat(job.view, target[..k]) {
          case NotExist => return NoLink;
          case Fault => return Unreadable;
          case Found(node) =>
            if node.Link? { return LinkAt(target[..k]); }
        }
        k := k + 1;
      }
      return NoLink;
    }

    lemma {:induction false} RefusedEarly(dir: Path, names: seq<Name>, n: nat)
      requires n < |names| && forall x :: x in names ==> dir + [x] in job.view.tree
      requires job.MigrateChildren(dir, names[..n]).Refused? || job.MigrateChild(dir, names[n]).Refused?
      ensures job.MigrateChildren(dir, names).Refused?
      decreases |names|
    {
      hide Job.MigrateChild;
      if n < |names| - 1 {
        var init := names[..|names| - 1];
        assert init[..n] == names[..n] && init[n] == names[n];
        RefusedEarly(dir, init, n);
      }
    }

    lemma OneMoreChild(dir: Path, names: seq<Name>, n: nat)
      requires n < |names| && forall x :: x in names ==> dir + [x] in job.view.tree
      ensures names[n] in names && (forall x :: x in names[..n] ==> x in names)
              && (forall x :: x in names[..n + 1] ==> x in names)
      ensures job.MigrateChildren(dir, names[..n]).Migratable? && job.MigrateChild(dir, names[n]).Migratable? ==>
                job.MigrateChildren(dir, names[..n + 1])
                == Migratable(job.MigrateChildren(dir, names[..n]).actions + job.MigrateChild(dir, names[n]).actions)
    {
      hide Job.MigrateChild;
      assert names[..n + 1][..n] == names[..n];
    }

    /** One child of an occupying directory: a link to be unlinked, or a directory to be emptied first. */
    method ClassifyChild(dir: Path, name: Name) returns (r: Migration)
      requires Ready() && job.Valid() && dir + [name] in job.view.tree
      ensures r == job.MigrateChild(dir, name)
      decreases job.Below(dir), 0
    {
      hide ByTarget;
      var child := dir + [name];
      match job.view.tree[child]
      case Link(_) =>
        if child in nextBy { return Refused; }
        var recorded := RecordedLink(child);
        if !recorded { return Refused; }
        return Migratable([Unlink(prevBy[child])]);
      case Dir =>
        assert child in job.Below(dir) && job.Below(child) < job.Below(dir);
        var sub := ClassifyDirMigration(child);
        match sub {
          case Refused => return Refused;
          case Migratable(more) => return Migratable(more + [Rmdir(child)]);
        }
      case File(_) => return Refused;
    }

    /** Walks an occupying directory without following symlinks, children first. */
    method ClassifyDirMigration(dir: Path) returns (r: Migration)
      requires Ready() && job.Valid() && dir in job.view.tree && job.view.tree[dir] == Dir
      ensures r == job.MigrateDir(dir)
      decreases job.Below(dir), 1
    {
      hide ByTarget, Job.MigrateChild;
      var children := ReadDir(job.view.tree, dir);
      var actions: seq<RemoveAction> := [];
      var i := 0;
      while i < |children|
        invariant 0 <= i <= |children|
        invariant forall x :: x in children[..i] ==> dir + [x] in job.view.tree
        invariant job.MigrateChildren(dir, children[..i]) == Migratable(actions)
      {
        OneMoreChild(dir, children, i);
        var sub := ClassifyChild(dir, children[i]);
        match sub {
          case Refused =>
            RefusedEarly(dir, children, i);
            return Refused;
          case Migratable(more) => actions := actions + more;
        }
        i := i + 1;
      }
      assert children[..i] == children;
      r := Migratable(actions);
    }

    /** A new symlink or copy for an entry whose target will be absent. */
    method AppendAbsentPlacement(e: Entry) returns (ok: bool)
      modifies this
      ensures ok == (e.how != OtherMethod)
      ensures place == old(place) + (if e.how == Symlink then [PlaceAction(e, PlaceNew)] else [])
      ensures copies == old(copies) + (if e.how == Copy then [CopyAction(e)] else [])
      ensures unchanged(`remove, `preRemove, `backup, `conflicts, `warnings, `preRemoved)
    {
      match e.how
      case Symlink =>
        place := place + [PlaceAction(e, PlaceNew)];
        return true;
      case Copy =>
        copies := copies + [CopyAction(e)];
        return true;
      case OtherMethod => return false;
    }

    /** Moves the occupant aside, unless the way there is taken. */
    method AppendBackup(e: Entry, ghost sweeps: bool) returns (ok: bool)
      requires e.how != OtherMethod
      modifies this
      ensures ok == !job.JudgeAside(e, sweeps).Broken?
      ensures ok && job.JudgeAside(e, sweeps).Aside? ==>
                && backup == old(backup) + [BackupAction(e, WithSuffix(e.target, job.opts.Suffix()))]
                && place == old(place) + (if e.how == Symlink then [PlaceAction(e, PlaceNew)] else [])
                && copies == old(copies) + (if e.how == Copy then [CopyAction(e)] else [])
                && unchanged(`conflicts)
      ensures ok && job.JudgeAside(e, sweeps).Clash? ==>
                && conflicts == old(conflicts) + [Conflict(e, BackupTargetExists)]
                && unchanged(`backup, `place, `copies)
      ensures unchanged(`remove, `preRemove, `warnings, `preRemoved)
    {
      var aside := WithSuffix(e.target, job.opts.Suffix());
      match Lstat(job.view, aside)
      case Found(_) =>
        conflicts := conflicts + [Conflict(e, BackupTargetExists)];
        return true;
      case Fault => return false;
      case NotExist =>
        backup := backup + [BackupAction(e, aside)];
        ok := AppendAbsentPlacement(e);
    }

    /** What an entry of a given verdict adds to the plan and to the marks. */
    ghost predicate Adds(e: Entry, marked: set<Path>, p: Plan, marks: set<Path>) {
      && job.PlaceOf(e) == p.place && job.CopiesOf(e) == p.copies && job.PreRemoveOf(e, marked) == p.preRemove
      && job.BackupOf(e) == p.backup && job.ConflictsOf(e) == p.conflicts && job.WarningsOf(e) == p.warnings
      && job.MarksOf(e) == marks
    }

    lemma AppendNothing()
      ensures place + [] == place && copies + [] == copies && preRemove + [] == preRemove && backup + [] == backup
      ensures conflicts + [] == conflicts && warnings + [] == warnings && preRemoved + {} == preRemoved
    {
    }

    static const NIL := Plan([], [], [], [], [], [], [])

    lemma CopyAdds(marked: set<Path>, e: Entry)
      requires e.how == Copy
      ensures job.Judge(e).Free? ==> Adds(e, marked, NIL.(copies := [CopyAction(e)]), {})
      ensures job.Judge(e).KeptCopy? ==> Adds(e, marked, NIL, {})
      ensures job.Judge(e).ForeignCopy? ==> Adds(e, marked, NIL.(warnings := [Warning(WarnCopyForeign, e.target)]), {})
      ensures job.Judge(e).Converted? && e.target in job.PrevBy() ==>
                Adds(e, marked,
                     NIL.(copies := [CopyAction(e)],
                          preRemove := if e.target in marked then [] else [Unlink(job.PrevBy()[e.target])]),
                     {e.target})
    {
      hide Job.Judge;
    }

    predicate Convertible(e: Entry, node: Node) {
      node.Link? && e.target in job.PrevBy() && job.PrevBy()[e.target].how == Symlink && job.RecordedLink(e.target)
    }

    /** The verdict on a copy entry whose target exists and is no recorded link. */
    function OnExisting(e: Entry, node: Node): Verdict {
      match job.view.world.probe(LinkDest(e))
      case NotExist => Broken
      case Fault => Broken
      case Found(src) =>
        if src.Dir? != node.Dir? then job.AsideOrClash(e, CopyStructureMismatch, false)
        else if e.target in job.PrevBy() && job.PrevBy()[e.target].how == Copy then KeptCopy
        else if job.opts.backup then job.JudgeAside(e, false)
        else ForeignCopy
    }

    lemma CopyVerdict(e: Entry)
      requires e.how == Copy && job.AncestorSymlink(e.target, 1) == NoLink
      ensures job.Judge(e) == match Lstat(job.view, e.target)
                              case NotExist => Free
                              case Fault => Broken
                              case Found(node) => if Convertible(e, node) then Converted else OnExisting(e, node)
    {
      hide Lstat, ByTarget, Job.RecordedLink, Job.AsideOrClash, Job.JudgeAside;
    }

    lemma ConflictAdds(marked: set<Path>, e: Entry, kind: ConflictKind)
      requires job.Judge(e) == Clash(kind, false)
      ensures Adds(e, marked, NIL.(conflicts := [Conflict(e, kind)]), {})
    {
      hide Job.Judge;
    }

    lemma AsideAdds(marked: set<Path>, e: Entry)
      requires e.how != OtherMethod && job.Judge(e) == job.JudgeAside(e, false) && !job.Judge(e).Broken?
      ensures Adds(e, marked,
                   if job.Judge(e).Aside? then
                     NIL.(place := if e.how == Symlink then [PlaceAction(e, PlaceNew)] else [],
                          copies := if e.how == Copy then [CopyAction(e)] else [],
                          backup := [BackupAction(e, WithSuffix(e.target, job.opts.Suffix()))])
                   else NIL.(conflicts := [Conflict(e, BackupTargetExists)]),
                   {})
    {
      hide Job.Judge;
    }

    /** The occupant goes aside by itself. */
    method SetAside(e: Entry) returns (ok: bool)
      requires Ready() && e.how != OtherMethod && job.Judge(e) == job.JudgeAside(e, false)
      modifies this
      ensures ok == !job.Judge(e).Broken?
      ensures ok ==> Added(e)
    {
      AppendNothing();
      ghost var marked := preRemoved;
      hide Job.Judge, Job.PlaceOf, Job.CopiesOf, Job.PreRemoveOf, Job.BackupOf, Job.ConflictsOf, Job.WarningsOf;
      hide Job.MarksOf, Lstat, ByTarget, WithSuffix;
      ok := AppendBackup(e, false);
      if ok { AsideAdds(marked, e); }
    }

    method AppendConflict(e: Entry, kind: ConflictKind)
      requires job.Judge(e) == Clash(kind, false)
      modifies this
      ensures Added(e)
    {
      AppendNothing();
      ConflictAdds(preRemoved, e, kind);
      hide Job.Judge, Job.PlaceOf, Job.CopiesOf, Job.PreRemoveOf, Job.BackupOf, Job.ConflictsOf, Job.WarningsOf;
      hide Job.MarksOf;
      conflicts := conflicts + [Conflict(e, kind)];
    }

    method AppendBackupOrConflict(e: Entry, kind: ConflictKind) returns (ok: bool)
      requires Ready() && e.how != OtherMethod && job.Judge(e) == job.AsideOrClash(e, kind, false)
      modifies this
      ensures ok == !job.Judge(e).Broken?
      ensures ok ==> Added(e)
    {
      hide Job.Judge, Job.JudgeAside;
      if !job.opts.backup {
        AppendConflict(e, kind);
        return true;
      }
      ok := SetAside(e);
    }

    /** Place-once: a copy target that exists is checked against its source's kind, then left untouched. */
    method ClassifyExisting(e: Entry, node: Node) returns (ok: bool)
      requires Ready() && e.how == Copy && job.Judge(e) == OnExisting(e, node)
      modifies this
      ensures ok == !job.Judge(e).Broken?
      ensures ok ==> Added(e)
    {
      AppendNothing();
      ghost var marked := preRemoved;
      hide Job.Judge, Job.PlaceOf, Job.CopiesOf, Job.PreRemoveOf, Job.BackupOf, Job.ConflictsOf, Job.WarningsOf;
      hide Job.MarksOf, Lstat, ByTarget, Job.JudgeAside;
      match job.view.world.probe(LinkDest(e)) {
        case NotExist => return false;
        case Fault => return false;
        case Found(src) =>
          if src.Dir? != node.Dir? {
            ok := AppendBackupOrConflict(e, CopyStructureMismatch);
            return;
          }
          if e.target in prevBy && prevBy[e.target].how == Copy {
            CopyAdds(marked, e);
            return true;
          }
          if job.opts.backup {
            ok := SetAside(e);
            return;
          }
          CopyAdds(marked, e);
          warnings := warnings + [Warning(WarnCopyForeign, e.target)];
          return true;
      }
    }

    method ClassifyCopy(e: Entry) returns (ok: bool)
      requires Ready() && e.how == Copy && job.AncestorSymlink(e.target, 1) == NoLink
      modifies this
      ensures ok == !job.Judge(e).Broken?
      ensures ok ==> Added(e)
    {
      CopyVerdict(e);
      AppendNothing();
      CopyAdds(preRemoved, e);
      hide Job.Judge, Job.PlaceOf, Job.CopiesOf, Job.PreRemoveOf, Job.BackupOf, Job.ConflictsOf, Job.WarningsOf;
      hide Job.MarksOf, Lstat, ByTarget, OnExisting;
      match Lstat(job.view, e.target)
      case NotExist =>
        copies := copies + [CopyAction(e)];
        return true;
      case Fault => return false;
      case Found(node) =>
        if node.Link? && e.target in prevBy && prevBy[e.target].how == Symlink {
          var recorded := RecordedLink(e.target);
          if recorded {
            PreRemoveOnce(e.target);
            copies := copies + [CopyAction(e)];
            return true;
          }
        }
        ok := ClassifyExisting(e, node);
    }

    static function Beneath(dir: Path, targets: set<Path>): set<Path> {
      set t | t in targets && dir <= t
    }

    static lemma OneMoreBeneath(dir: Path, all: set<Path>, rest: set<Path>, t: Path, marked: set<Path>)
      requires t in rest && rest <= all
      ensures marked + Beneath(dir, all - (rest - {t}))
              == (marked + Beneath(dir, all - rest)) + (if dir <= t then {t} else {})
    {
      assert all - (rest - {t}) == (all - rest) + {t};
    }

    static lemma NoneBeneath(dir: Path, all: set<Path>, marked: set<Path>)
      ensures marked + Beneath(dir, all - all) == marked && all - {} == all
    {
    }

    /** Entries recorded beneath a backed-up directory leave with it. */
    method MarkDirEntriesPreRemoved(dir: Path)
      requires Ready()
      modifies `preRemoved
      ensures preRemoved == old(preRemoved) + Beneath(dir, job.PrevBy().Keys)
    {
      hide Job.PrevBy, Beneath;
      var targets := prevBy.Keys;
      NoneBeneath(dir, targets, preRemoved);
      while targets != {}
        invariant targets <= prevBy.Keys
        invariant preRemoved == old(preRemoved) + Beneath(dir, prevBy.Keys - targets)
        decreases |targets|
      {
        var t :| t in targets;
        OneMoreBeneath(dir, prevBy.Keys, targets, t, old(preRemoved));
        if dir <= t { preRemoved := preRemoved + {t}; }
        targets := targets - {t};
      }
    }

    method UnlinkedTargets(actions: seq<RemoveAction>) returns (r: set<Path>)
      ensures r == set a | a in actions && a.Unlink? :: a.entry.target
    {
      r := {};
      for i := 0 to |actions|
        invariant r == set a | a in actions[..i] && a.Unlink? :: a.entry.target
      {
        assert actions[..i + 1] == actions[..i] + [actions[i]];
        if actions[i].Unlink? { r := r + {actions[i].entry.target}; }
      }
      assert actions[..|actions|] == actions;
    }

    lemma MigrationAdds(marked: set<Path>, e: Entry)
      requires e.how == Symlink && job.Judge(e).Migrate?
      ensures Adds(e, marked,
                   NIL.(place := [PlaceAction(e, PlaceNew)], preRemove := job.Judge(e).actions + [Rmdir(e.target)]),
                   set a | a in job.Judge(e).actions && a.Unlink? :: a.entry.target)
    {
      hide Job.Judge;
    }

    lemma SweepAdds(marked: set<Path>, e: Entry)
      requires e.how == Symlink && job.Judge(e) == job.JudgeAside(e, true) && !job.Judge(e).Broken?
      ensures Adds(e, marked,
                   if job.Judge(e).Aside? then
                     NIL.(place := [PlaceAction(e, PlaceNew)],
                          backup := [BackupAction(e, WithSuffix(e.target, job.opts.Suffix()))])
                   else NIL.(conflicts := [Conflict(e, BackupTargetExists)]),
                   Beneath(e.target, job.PrevBy().Keys))
    {
      hide Job.Judge;
    }

    /** What is recorded beneath the directory goes aside with it. */
    method SweepAside(e: Entry) returns (ok: bool)
      requires Ready() && e.how == Symlink && job.Judge(e) == job.JudgeAside(e, true)
      modifies this
      ensures ok == !job.Judge(e).Broken?
      ensures ok ==> Added(e)
    {
      AppendNothing();
      ghost var marked := preRemoved;
      hide Job.Judge, Job.PlaceOf, Job.CopiesOf, Job.PreRemoveOf, Job.BackupOf, Job.ConflictsOf, Job.WarningsOf;
      hide Job.MarksOf, Lstat, ByTarget, Beneath, WithSuffix;
      MarkDirEntriesPreRemoved(e.target);
      ok := AppendBackup(e, true);
      if ok { SweepAdds(marked, e); }
    }

    method SetDirAside(e: Entry) returns (ok: bool)
      requires Ready() && e.how == Symlink && job.Judge(e) == job.AsideOrClash(e, DirMigrationFailed, true)
      modifies this
      ensures ok == !job.Judge(e).Broken?
      ensures ok ==> Added(e)
    {
      if job.opts.backup { ok := SweepAside(e); } else { ok := AppendBackupOrConflict(e, DirMigrationFailed); }
    }

    method MigrateAway(e: Entry, actions: seq<RemoveAction>)
      requires Ready() && e.how == Symlink && job.Judge(e) == Migrate(actions)
      modifies this
      ensures Added(e)
    {
      AppendNothing();
      MigrationAdds(preRemoved, e);
      hide Job.Judge, Job.PlaceOf, Job.CopiesOf, Job.PreRemoveOf, Job.BackupOf, Job.ConflictsOf, Job.WarningsOf;
      hide Job.MarksOf, ByTarget;
      assert preRemove + (actions + [Rmdir(e.target)]) == preRemove + actions + [Rmdir(e.target)];
      preRemove := preRemove + actions;
      preRemove := preRemove + [Rmdir(e.target)];
      var unlinked := UnlinkedTargets(actions);
      preRemoved := preRemoved + unlinked;
      place := place + [PlaceAction(e, PlaceNew)];
    }

    method ClassifyRealDirTarget(e: Entry) returns (ok: bool)
      requires Ready() && job.Valid() && e.how == Symlink && job.Judge(e) == job.JudgeDir(e)
      requires e.target in job.view.tree && job.view.tree[e.target] == Dir
      modifies this
      ensures ok == !job.Judge(e).Broken?
      ensures ok ==> Added(e)
    {
      hide Job.Judge, Lstat, ByTarget, Job.MigrateDir;
      var r := ClassifyDirMigration(e.target);
      match r
      case Refused => ok := SetDirAside(e);
      case Migratable(actions) =>
        MigrateAway(e, actions);
        ok := true;
    }

    lemma LinkAdds(marked: set<Path>, e: Entry)
      requires e.how != OtherMethod
      ensures job.Judge(e).Free? && e.how == Symlink ==> Adds(e, marked, NIL.(place := [PlaceAction(e, PlaceNew)]), {})
      ensures job.Judge(e) == Relinked(true) && e.how == Symlink ==>
                Adds(e, marked, NIL.(place := [PlaceAction(e, PlaceReplace)]), {})
      ensures job.Judge(e) == Relinked(false) && e.how == Symlink ==>
                Adds(e, marked, NIL.(place := [PlaceAction(e, PlaceForeign)],
                                     warnings := [Warning(WarnForeignReplace, e.target)]), {})
      ensures job.Judge(e).Nested? && job.Judge(e).link in job.PrevBy() ==>
                Adds(e, marked,
                     NIL.(place := if e.how == Symlink then [PlaceAction(e, PlaceNew)] else [],
                          copies := if e.how == Copy then [CopyAction(e)] else [],
                          preRemove := if job.Judge(e).link in marked then [] else [Unlink(job.PrevBy()[job.Judge(e).link])]),
                     {job.Judge(e).link})
    {
      hide Job.Judge;
    }

    lemma LinkVerdict(e: Entry)
      requires job.Valid() && e.how == Symlink && job.AncestorSymlink(e.target, 1) == NoLink
      ensures job.Judge(e) == job.JudgeLink(e)
      ensures Lstat(job.view, e.target) == Found(Dir) ==> e.target in job.view.tree && job.view.tree[e.target] == Dir
    {
      AncestorStart(job, e.target);
      AncestorWalk(job, e.target, 1);
      LstatInside(job, e.target);
    }

    method ClassifyLink(e: Entry) returns (ok: bool)
      requires Ready() && job.Valid() && e.how == Symlink && job.AncestorSymlink(e.target, 1) == NoLink
      modifies this
      ensures ok == !job.Judge(e).Broken?
      ensures ok ==> Added(e)
    {
      LinkVerdict(e);
      AppendNothing();
      LinkAdds(preRemoved, e);
      hide Job.Judge, Job.PlaceOf, Job.CopiesOf, Job.PreRemoveOf, Job.BackupOf, Job.ConflictsOf, Job.WarningsOf;
      hide Job.MarksOf, Lstat, ByTarget, Job.JudgeDir;
      match Lstat(job.view, e.target)
      case NotExist =>
        place := place + [PlaceAction(e, PlaceNew)];
        return true;
      case Fault => return false;
      case Found(node) =>
        match node {
          case Link(_) =>
            var recorded := RecordedLink(e.target);
            if !recorded { warnings := warnings + [Warning(WarnForeignReplace, e.target)]; }
            place := place + [PlaceAction(e, if recorded then PlaceReplace else PlaceForeign)];
            return true;
          case Dir =>
            ok := ClassifyRealDirTarget(e);
            return;
          case File(_) =>
            ok := AppendBackupOrConflict(e, ForeignEntity);
            return;
        }
    }

    /** Schedules a recorded link to be unlinked, once. */
    method PreRemoveOnce(link: Path)
      requires Ready() && link in prevBy
      modifies `preRemove, `preRemoved
      ensures preRemove == old(preRemove) + if link in old(preRemoved) then [] else [Unlink(prevBy[link])]
      ensures preRemoved == old(preRemoved) + {link}
    {
      if link !in preRemoved {
        preRemoved := preRemoved + {link};
        preRemove := preRemove + [Unlink(prevBy[link])];
      }
    }

    /** The verdict on an entry beneath a symlink. */
    function OnNested(e: Entry, link: Path): Verdict {
      if link in job.NextBy() then Clash(SelfContradictoryAncestor, false)
      else if !job.RecordedLink(link) then Clash(ForeignAncestor, false)
      else if e.how == OtherMethod then Broken
      else Nested(link)
    }

    lemma NestedVerdict(e: Entry, link: Path)
      requires job.AncestorSymlink(e.target, 1) == LinkAt(link)
      ensures job.Judge(e) == OnNested(e, link)
    {
    }

    method ClassifyNested(e: Entry, link: Path) returns (ok: bool)
      requires Ready() && job.AncestorSymlink(e.target, 1) == LinkAt(link)
      modifies this
      ensures ok == !job.Judge(e).Broken?
      ensures ok ==> Added(e)
    {
      NestedVerdict(e, link);
      hide Job.Judge, Lstat, ByTarget;
      var recorded := RecordedLink(link);
      if link !in nextBy && recorded {
        ok := PlaceBeneath(e, link);
        return;
      }
      AppendConflict(e, if link in nextBy then SelfContradictoryAncestor else ForeignAncestor);
      return true;
    }

    lemma NestedAdds(marked: set<Path>, e: Entry, link: Path)
      requires Ready() && link in prevBy && e.how != OtherMethod && job.Judge(e) == Nested(link)
      ensures job.PlaceOf(e) == if e.how == Symlink then [PlaceAction(e, PlaceNew)] else []
      ensures job.CopiesOf(e) == if e.how == Copy then [CopyAction(e)] else []
      ensures job.PreRemoveOf(e, marked) == if link in marked then [] else [Unlink(prevBy[link])]
      ensures job.BackupOf(e) == [] && job.ConflictsOf(e) == [] && job.WarningsOf(e) == [] && job.MarksOf(e) == {link}
    {
      LinkAdds(marked, e);
    }

    /** The ancestor link goes first; the child is absent then. */
    method PlaceBeneath(e: Entry, link: Path) returns (ok: bool)
      requires Ready() && link in prevBy && job.Judge(e) == if e.how == OtherMethod then Broken else Nested(link)
      modifies this
      ensures ok == !job.Judge(e).Broken?
      ensures ok ==> Added(e)
    {
      AppendNothing();
      hide Job.Judge, Job.PlaceOf, Job.CopiesOf, Job.PreRemoveOf, Job.BackupOf, Job.ConflictsOf, Job.WarningsOf;
      hide Job.MarksOf, ByTarget, Ready;
      if e.how != OtherMethod { NestedAdds(preRemoved, e, link); }
      PreRemoveOnce(link);
      ok := AppendAbsentPlacement(e);
    }

    /** One entry of next. */
    method Classify(e: Entry) returns (ok: bool)
      requires Ready() && job.Valid()
      modifies this
      ensures ok == !job.Judge(e).Broken?
      ensures ok ==> Added(e)
    {
      var ancestor := AncestorSymlink(e.target);
      match ancestor
      case Unreadable => return false;
      case LinkAt(link) => ok := ClassifyNested(e, link);
      case NoLink =>
        match e.how {
          case Copy => ok := ClassifyCopy(e);
          case Symlink => ok := ClassifyLink(e);
          case OtherMethod => return false;
        }
    }

    /** The remove side: one entry of prev. */
    method ClassifyLeftover(pe: Entry) returns (ok: bool)
      requires Ready() && preRemoved == job.Marks(job.next)
      modifies `remove, `warnings
      ensures ok == !job.Leave(pe).Obscured?
      ensures ok ==> remove == old(remove) + (if job.Leave(pe).Doomed? then [Unlink(pe)] else [])
                     && warnings == old(warnings) + job.LeftoverWarningsOf(pe)
    {
      hide Job.Marks, Lstat, ByTarget;
      if pe.target in nextBy { return true; }
      if pe.target in preRemoved { return true; }
      if pe.how == Copy {
        warnings := warnings + [Warning(WarnCopyOrphan, pe.target)];
        return true;
      }
      match Lstat(job.view, pe.target)
      case NotExist => return true;
      case Fault => return false;
      case Found(node) =>
        if !node.Link? {
          warnings := warnings + [Warning(WarnStaleNonSymlink, pe.target)];
        } else if node.dest != LinkDest(pe) {
          warnings := warnings + [Warning(WarnStaleMismatch, pe.target)];
        } else {
          remove := remove + [Unlink(pe)];
        }
        return true;
    }

    /** The plan so far covers the first `n` entries of next. */
    ghost predicate Covers(n: nat)
      requires n <= |job.next|
      reads this
    {
      && place == job.Places(job.next[..n]) && copies == job.Copies(job.next[..n])
      && preRemove == job.PreRemoves(job.next[..n]) && backup == job.Backups(job.next[..n])
      && conflicts == job.Conflicts(job.next[..n]) && preRemoved == job.Marks(job.next[..n])
    }

    lemma CoversOneMore(n: nat)
      requires n < |job.next|
      ensures var m, e := job.next[..n], job.next[n];
              && job.Places(job.next[..n + 1]) == job.Places(m) + job.PlaceOf(e)
              && job.Copies(job.next[..n + 1]) == job.Copies(m) + job.CopiesOf(e)
              && job.PreRemoves(job.next[..n + 1]) == job.PreRemoves(m) + job.PreRemoveOf(e, job.Marks(m))
              && job.Backups(job.next[..n + 1]) == job.Backups(m) + job.BackupOf(e)
              && job.Conflicts(job.next[..n + 1]) == job.Conflicts(m) + job.ConflictsOf(e)
              && job.Warnings(job.next[..n + 1]) == job.Warnings(m) + job.WarningsOf(e)
              && job.Marks(job.next[..n + 1]) == job.Marks(m) + job.MarksOf(e)
    {
      hide Job.Judge, Job.PlaceOf, Job.CopiesOf, Job.PreRemoveOf, Job.BackupOf, Job.ConflictsOf, Job.WarningsOf, Job.MarksOf;
      Prefix(job.next, n + 1);
    }

    lemma LeftoversOneMore(n: nat)
      requires n < |job.prev|
      ensures var m, e := job.prev[..n], job.prev[n];
              && job.Removes(job.prev[..n + 1]) == job.Removes(m) + (if job.Leave(e).Doomed? then [Unlink(e)] else [])
              && job.LeftoverWarnings(job.prev[..n + 1]) == job.LeftoverWarnings(m) + job.LeftoverWarningsOf(e)
    {
      hide Job.Leave, Job.LeftoverWarningsOf;
      Prefix(job.prev, n + 1);
    }

    /** The place side. */
    method ClassifyAll() returns (ok: bool)
      requires Ready() && job.Valid() && Lists() == NIL && preRemoved == {}
      modifies this
      ensures ok ==> Covers(|job.next|) && remove == [] && warnings == job.Warnings(job.next)
      ensures ok <==> forall e :: e in job.next ==> !job.Judge(e).Broken?
    {
      hide Job.Judge, Job.PlaceOf, Job.CopiesOf, Job.PreRemoveOf, Job.BackupOf, Job.ConflictsOf, Job.WarningsOf;
      hide Job.MarksOf, ByTarget;
      var i := 0;
      while i < |job.next|
        invariant 0 <= i <= |job.next| && Covers(i)
        invariant remove == [] && warnings == job.Warnings(job.next[..i])
        invariant forall k :: 0 <= k < i ==> !job.Judge(job.next[k]).Broken?
      {
        CoversOneMore(i);
        ok := Classify(job.next[i]);
        if !ok {
          assert job.next[i] in job.next;
          return;
        }
        i := i + 1;
      }
      Whole(job.next);
      ok := true;
    }

    /** The remove side. */
    method ClassifyLeftovers() returns (ok: bool)
      requires Ready() && preRemoved == job.Marks(job.next) && remove == [] && warnings == job.Warnings(job.next)
      modifies `remove, `warnings
      ensures ok ==> remove == job.Removes(job.prev)
      ensures ok ==> warnings == job.Warnings(job.next) + job.LeftoverWarnings(job.prev)
      ensures ok <==> forall pe :: pe in job.prev ==> !job.Leave(pe).Obscured?
    {
      hide Job.Judge, Job.Leave, Job.LeftoverWarningsOf, Job.Warnings, Job.Marks, ByTarget;
      var j := 0;
      assert warnings + [] == warnings;
      while j < |job.prev|
        invariant 0 <= j <= |job.prev|
        invariant remove == job.Removes(job.prev[..j])
        invariant warnings == job.Warnings(job.next) + job.LeftoverWarnings(job.prev[..j])
        invariant forall k :: 0 <= k < j ==> !job.Leave(job.prev[k]).Obscured?
      {
        LeftoversOneMore(j);
        ok := ClassifyLeftover(job.prev[j]);
        if !ok {
          assert job.prev[j] in job.prev;
          return;
        }
        j := j + 1;
      }
      Whole(job.prev);
      ok := true;
    }

    /** The diff of the previous manifest against the next one and the tree. */
    method Compute() returns (r: Computed)
      requires Ready() && job.Valid() && Lists() == NIL && preRemoved == {}
      modifies this
      ensures r == job.Compute()
    {
      hide Job.Judge, Job.Leave, Job.Warnings, Job.LeftoverWarnings, Job.Places, Job.Copies, Job.PreRemoves, Job.Backups;
      hide Job.Conflicts, Job.Marks, Job.Removes;
      var ok := ClassifyAll();
      if !ok { return ProbeFailed; }
      Whole(job.next);
      ok := ClassifyLeftovers();
      if !ok { return ProbeFailed; }
      r := Planned(Lists());
    }
  }
}
