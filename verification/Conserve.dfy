/** No run without --recopy loses a regular file, wherever it stops and whether or not it is unwound. */
module Conserve {
  import opened Paths
  import opened Trees
  import opened Manifests
  import opened Planner
  import opened Steps
  import opened Undo
  import opened Program
  import opened Runs
  import opened Migrations
  import opened Stages
  import opened Converge
  import opened Turns
  import opened Atomic

  /** The file at `q` is there with its content, at its path or under the one backup rename of the
      target containing it. */
  ghost predicate FileKept(t: Tree, u: Tree, bs: seq<BackupAction>, q: Path)
    requires q in t
  {
    || (q in u && u[q] == t[q])
    || (exists b :: b in bs && b.entry.target <= q && FileMoved(t, u, b, q))
  }

  ghost predicate FileMoved(t: Tree, u: Tree, b: BackupAction, q: Path)
    requires q in t && b.entry.target <= q
  {
    Rebase(q, b.entry.target, b.aside) in u && u[Rebase(q, b.entry.target, b.aside)] == t[q]
  }

  /** Renames are planned backups; there is no recopy. */
  ghost predicate RenamesPlanned(es: seq<Event>, bs: seq<BackupAction>) {
    forall e :: e in es ==>
      !e.SetAside? && (e.BackUp? ==> exists b :: b in bs && b.entry.target == e.path && b.aside == e.aside)
  }

  ghost predicate AsidesApart(bs: seq<BackupAction>) {
    forall b, c :: b in bs && c in bs ==> Apart(b.entry.target, c.aside)
  }

  /** A write that renames nothing leaves every file in place. */
  lemma WriteKeepsFile(t: Tree, e: Event, q: Path)
    requires ValidTree(t) && Enabled(t, e) && Spares(t, e) && !e.BackUp? && !e.SetAside?
    requires q in t && t[q].File?
    ensures q in Apply(t, e) && Apply(t, e)[q] == t[q]
  {
    if e.Graft? || e.GraftPart? {
      GraftedAt(t, e.path, e.sub);
      NothingBeneath(t, e.path);
      if e.path <= q { SameOrAbove(e.path, q); }
    }
  }

  lemma RenameKeepsFile(t: Tree, p: Path, a: Path, q: Path)
    requires ValidTree(t) && Enabled(t, BackUp(p, a)) && q in t
    ensures !(p <= q) ==> q in Moved(t, p, a) && Moved(t, p, a)[q] == t[q]
    ensures p <= q ==> Rebase(q, p, a) in Moved(t, p, a) && Moved(t, p, a)[Rebase(q, p, a)] == t[q]
  {
    MovedValid(t, p, a);
    MovedAt(t, p, a);
    if p <= q { RebaseBack(q, p, a); }
  }

  lemma FileStepRename(t: Tree, u: Tree, bs: seq<BackupAction>, b: BackupAction, q: Path)
    requires ValidTree(u) && AsidesApart(bs) && b in bs && Enabled(u, BackUp(b.entry.target, b.aside))
    requires q in t && t[q].File? && FileKept(t, u, bs, q)
    ensures FileKept(t, Moved(u, b.entry.target, b.aside), bs, q)
  {
    var p, a := b.entry.target, b.aside;
    if q in u && u[q] == t[q] {
      RenameKeepsFile(u, p, a, q);
      if p <= q { assert FileMoved(t, Moved(u, p, a), b, q); }
    } else {
      var c :| c in bs && c.entry.target <= q && FileMoved(t, u, c, q);
      var r := Rebase(q, c.entry.target, c.aside);
      RebaseBack(q, c.entry.target, c.aside);
      RenameKeepsFile(u, p, a, r);
      if p <= r { Comparable(p, c.aside, r); }
      assert FileMoved(t, Moved(u, p, a), c, q);
    }
  }

  lemma FileStepWrite(t: Tree, u: Tree, bs: seq<BackupAction>, e: Event, q: Path)
    requires ValidTree(u) && Enabled(u, e) && Spares(u, e) && !e.BackUp? && !e.SetAside?
    requires q in t && t[q].File? && FileKept(t, u, bs, q)
    ensures FileKept(t, Apply(u, e), bs, q)
  {
    if q in u && u[q] == t[q] {
      WriteKeepsFile(u, e, q);
    } else {
      var c :| c in bs && c.entry.target <= q && FileMoved(t, u, c, q);
      WriteKeepsFile(u, e, Rebase(q, c.entry.target, c.aside));
      assert FileMoved(t, Apply(u, e), c, q);
    }
  }

  lemma {:induction false} FilesSurvive(t: Tree, es: seq<Event>, bs: seq<BackupAction>, q: Path)
    requires ValidTree(t) && Legal(t, es) && Lossless(t, es) && RenamesPlanned(es, bs) && AsidesApart(bs)
    requires q in t && t[q].File?
    ensures FileKept(t, Exec(t, es), bs, q)
    decreases |es|
  {
    if es != [] {
      var init, e := es[..|es| - 1], es[|es| - 1];
      assert e in es && forall x :: x in init ==> x in es;
      LegalValid(t, init);
      FilesSurvive(t, init, bs, q);
      if e.BackUp? {
        var b :| b in bs && b.entry.target == e.path && b.aside == e.aside;
        FileStepRename(t, Exec(t, init), bs, b, q);
      } else {
        FileStepWrite(t, Exec(t, init), bs, e, q);
      }
    }
  }

  lemma CutRenamesPlanned(job: Job, limits: seq<nat>, cut: seq<Event>)
    requires job.Valid() && |limits| == |job.Removes(job.prev)| && Stops(job, false, limits, cut)
    ensures RenamesPlanned(cut, job.Backups(job.next))
  {
    var actions := Schedule(job, false, limits);
    forall e | e in cut
      ensures !e.SetAside?
      ensures e.BackUp? ==> exists b :: b in job.Backups(job.next) && b.entry.target == e.path && b.aside == e.aside
    {
      var a := CutFrom(job.view.world, job.view.tree, actions, cut, e);
      ScheduleIs(job, false, limits, a);
      if a.DoBackup? {
        BackupFromSchedule(job, limits, a);
        assert BackupAction(a.entry, a.aside).entry.target == a.entry.target;
      }
    }
  }

  lemma BackupFromSchedule(job: Job, limits: seq<nat>, a: Action)
    requires job.Valid() && |limits| == |job.Removes(job.prev)| && a in Schedule(job, false, limits) && a.DoBackup?
    ensures BackupAction(a.entry, a.aside) in job.Backups(job.next)
  {
    if a in CopyStage(job, false) {
      CopyStageIs(job, false, a);
    } else if a in DropsOf(job, limits) {
      DropsAre(job, limits, a);
    } else if a in PlaceActions(job.Places(job.next)) {
      PlaceActionIs(job.Places(job.next), a);
    } else if a in PreActions(job.PreRemoves(job.next)) {
      PreActionIs(job.PreRemoves(job.next), a);
    } else {
      BackupActionIs(job.Backups(job.next), a);
    }
  }

  lemma BackupAsidesApart(job: Job)
    requires Orderly(job)
    ensures AsidesApart(job.Backups(job.next))
  {
    forall b, c | b in job.Backups(job.next) && c in job.Backups(job.next) ensures Apart(b.entry.target, c.aside) {
      BackupIs(job, b);
      BackupIs(job, c);
      if b.entry == c.entry {
        SiblingsApart(b.entry.target, c.aside);
      } else {
        EntriesApart(job.next, b.entry, c.entry);
        AsideApart(job.next, job.opts.Suffix(), c.entry, b.entry);
      }
    }
  }

  lemma SiblingsApart(p: Path, q: Path)
    requires |p| == |q| && p != q
    ensures Apart(p, q)
  {
  }

  /** Conservation: stopped after any number of writes and not unwound -- a crash, a failed commit, or
      success -- every regular file under the root is still there with its content; unwound, it is back
      at its own path. */
  lemma NoFileIsLost(job: Job, limits: seq<nat>, cut: seq<Event>, q: Path)
    requires Orderly(job) && |limits| == |job.Removes(job.prev)| && Stops(job, false, limits, cut)
    requires q in job.view.tree && job.view.tree[q].File?
    ensures FileKept(job.view.tree, Exec(job.view.tree, cut), job.Backups(job.next), q)
    ensures var r := Unwound(job.view.tree, cut); q in r && r[q] == job.view.tree[q]
  {
    var w, t, actions := job.view.world, job.view.tree, Schedule(job, false, limits);
    RunAllLegal(w, t, actions);
    ScheduleDoesNotDrift(job, false, limits);
    RunAllLossless(w, t, actions);
    CutLegal(t, cut, RunAll(w, t, actions).events);
    CutRenamesPlanned(job, limits, cut);
    BackupAsidesApart(job);
    FilesSurvive(t, cut, job.Backups(job.next), q);
    FailureUnwinds(job, false, limits, cut);
  }
}
