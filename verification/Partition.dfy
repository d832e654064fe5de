/** Every entry is accounted for in the plan exactly once. */
module Partition {
  import opened Sequences
  import opened Paths
  import opened Trees
  import opened Manifests
  import opened Planner
  import opened Migrations
  import opened PlanFacts
  import opened Converge
  import opened Settle

  // The entries of next.

  function PlaceEntries(ps: seq<PlaceAction>): seq<Entry> {
    if ps == [] then [] else PlaceEntries(ps[..|ps| - 1]) + [ps[|ps| - 1].entry]
  }

  function CopyEntries(cs: seq<CopyAction>): seq<Entry> {
    if cs == [] then [] else CopyEntries(cs[..|cs| - 1]) + [cs[|cs| - 1].entry]
  }

  function BackupEntries(bs: seq<BackupAction>): seq<Entry> {
    if bs == [] then [] else BackupEntries(bs[..|bs| - 1]) + [bs[|bs| - 1].entry]
  }

  function ConflictEntries(cs: seq<Conflict>): seq<Entry> {
    if cs == [] then [] else ConflictEntries(cs[..|cs| - 1]) + [cs[|cs| - 1].entry]
  }

  /** A copy that is there already: recorded by the previous generation, or foreign and skipped. */
  predicate LeftAlone(job: Job, e: Entry, recorded: bool) {
    && e.how == Copy && SameKind(job, e)
    && (recorded <==> e.target in job.PrevBy() && job.PrevBy()[e.target].how == Copy)
    && (recorded || !job.opts.backup)
  }

  /** The entries whose verdict leaves their copy alone. */
  function Skipped(job: Job, m: Manifest): seq<Entry> {
    if m == [] then []
    else
      var e := m[|m| - 1];
      Skipped(job, m[..|m| - 1]) + (if job.Judge(e).KeptCopy? || job.Judge(e).ForeignCopy? then [e] else [])
  }

  lemma {:induction false} SkippedAreThere(job: Job, m: Manifest, e: Entry)
    requires job.Valid() && e in Skipped(job, m)
    ensures e in m && (LeftAlone(job, e, true) || LeftAlone(job, e, false))
    ensures LeftAlone(job, e, false) ==> Warning(WarnCopyForeign, e.target) in job.WarningsOf(e)
  {
    if e in Skipped(job, m[..|m| - 1]) { SkippedAreThere(job, m[..|m| - 1], e); } else { CopyVerdict(job, e); }
  }

  lemma CopyVerdict(job: Job, e: Entry)
    requires job.Valid() && (job.Judge(e).KeptCopy? || job.Judge(e).ForeignCopy?)
    ensures LeftAlone(job, e, job.Judge(e).KeptCopy?)
    ensures job.Judge(e).ForeignCopy? ==> Warning(WarnCopyForeign, e.target) in job.WarningsOf(e)
  {
    JudgeMeans(job, e);
  }

  lemma VerdictFits(job: Job, e: Entry)
    requires job.Valid() && !job.Judge(e).Broken?
    ensures job.Judge(e).Clash? || e.how != OtherMethod
    ensures job.Judge(e).Relinked? || job.Judge(e).Migrate? ==> e.how == Symlink
    ensures job.Judge(e).Converted? || job.Judge(e).KeptCopy? || job.Judge(e).ForeignCopy? ==> e.how == Copy
  {
    JudgeMeans(job, e);
  }

  ghost predicate OnlyOne(e: Entry, a: seq<Entry>, b: seq<Entry>, c: seq<Entry>, d: seq<Entry>) {
    || (a == [e] && b == [] && c == [] && d == [])
    || (a == [] && b == [e] && c == [] && d == [])
    || (a == [] && b == [] && c == [e] && d == [])
    || (a == [] && b == [] && c == [] && d == [e])
  }

  lemma OnlyOneCounts(e: Entry, a: seq<Entry>, b: seq<Entry>, c: seq<Entry>, d: seq<Entry>)
    requires OnlyOne(e, a, b, c, d)
    ensures multiset{e} == multiset(a) + multiset(b) + multiset(c) + multiset(d)
  {
  }

  lemma OneOutcome(job: Job, e: Entry)
    requires job.Valid() && !job.Judge(e).Broken?
    ensures OnlyOne(e, PlaceEntries(job.PlaceOf(e)), CopyEntries(job.CopiesOf(e)), Skipped(job, [e]),
                    ConflictEntries(job.ConflictsOf(e)))
  {
    VerdictFits(job, e);
    OneSkipped(job, e);
    OneEntry(e);
    hide Job.Judge, Skipped, PlaceEntries, CopyEntries, ConflictEntries, Job.Valid;
  }

  /** What one entry comes to: one placement, one copy, one conflict, or nothing to do. */
  lemma OneEach(job: Job, e: Entry)
    requires job.Valid() && !job.Judge(e).Broken?
    ensures multiset{e} == multiset(PlaceEntries(job.PlaceOf(e))) + multiset(CopyEntries(job.CopiesOf(e)))
                           + multiset(Skipped(job, [e])) + multiset(ConflictEntries(job.ConflictsOf(e)))
  {
    hide *;
    OneOutcome(job, e);
    OnlyOneCounts(e, PlaceEntries(job.PlaceOf(e)), CopyEntries(job.CopiesOf(e)), Skipped(job, [e]),
                  ConflictEntries(job.ConflictsOf(e)));
  }

  lemma OneBackup(job: Job, e: Entry)
    requires job.Valid() && !job.Judge(e).Broken?
    ensures BackupEntries(job.BackupOf(e)) == [] || BackupEntries(job.BackupOf(e)) == [e]
    ensures BackupEntries(job.BackupOf(e)) != [] ==>
              job.PlaceOf(e) == [PlaceAction(e, PlaceNew)] || job.CopiesOf(e) == [CopyAction(e)]
  {
    VerdictFits(job, e);
    OneEntry(e);
    hide Job.Judge, BackupEntries;
  }

  lemma OneSkipped(job: Job, e: Entry)
    ensures Skipped(job, [e]) == if job.Judge(e).KeptCopy? || job.Judge(e).ForeignCopy? then [e] else []
  {
    hide Job.Judge;
    assert [e][..0] == [];
  }

  lemma OneEntry(e: Entry)
    ensures forall kind :: PlaceEntries([PlaceAction(e, kind)]) == [e]
    ensures CopyEntries([CopyAction(e)]) == [e]
    ensures forall aside :: BackupEntries([BackupAction(e, aside)]) == [e]
    ensures forall kind :: ConflictEntries([Conflict(e, kind)]) == [e]
    ensures PlaceEntries([]) == [] && CopyEntries([]) == [] && BackupEntries([]) == [] && ConflictEntries([]) == []
  {
  }

  lemma {:induction false} PlaceEntriesConcat(a: seq<PlaceAction>, b: seq<PlaceAction>)
    ensures PlaceEntries(a + b) == PlaceEntries(a) + PlaceEntries(b)
    decreases |b|
  {
    if b == [] { EmptyEnd(a, b); }
    else {
      LastOf(b);
      SnocConcat(a, b[..|b| - 1], b[|b| - 1]);
      ButLast(a + b[..|b| - 1], b[|b| - 1]);
      PlaceEntriesConcat(a, b[..|b| - 1]);
    }
  }

  lemma {:induction false} CopyEntriesConcat(a: seq<CopyAction>, b: seq<CopyAction>)
    ensures CopyEntries(a + b) == CopyEntries(a) + CopyEntries(b)
    decreases |b|
  {
    if b == [] { EmptyEnd(a, b); }
    else {
      LastOf(b);
      SnocConcat(a, b[..|b| - 1], b[|b| - 1]);
      ButLast(a + b[..|b| - 1], b[|b| - 1]);
      CopyEntriesConcat(a, b[..|b| - 1]);
    }
  }

  lemma {:induction false} BackupEntriesConcat(a: seq<BackupAction>, b: seq<BackupAction>)
    ensures BackupEntries(a + b) == BackupEntries(a) + BackupEntries(b)
    decreases |b|
  {
    if b == [] { EmptyEnd(a, b); }
    else {
      LastOf(b);
      SnocConcat(a, b[..|b| - 1], b[|b| - 1]);
      ButLast(a + b[..|b| - 1], b[|b| - 1]);
      BackupEntriesConcat(a, b[..|b| - 1]);
    }
  }

  lemma {:induction false} ConflictEntriesConcat(a: seq<Conflict>, b: seq<Conflict>)
    ensures ConflictEntries(a + b) == ConflictEntries(a) + ConflictEntries(b)
    decreases |b|
  {
    if b == [] { EmptyEnd(a, b); }
    else {
      LastOf(b);
      SnocConcat(a, b[..|b| - 1], b[|b| - 1]);
      ButLast(a + b[..|b| - 1], b[|b| - 1]);
      ConflictEntriesConcat(a, b[..|b| - 1]);
    }
  }

  ghost function Accounted(job: Job, m: Manifest): multiset<Entry> {
    multiset(PlaceEntries(job.Places(m))) + multiset(CopyEntries(job.Copies(m)))
    + multiset(Skipped(job, m)) + multiset(ConflictEntries(job.Conflicts(m)))
  }

  lemma OneMorePlanned(job: Job, init: Manifest, e: Entry)
    requires job.Valid() && !job.Judge(e).Broken?
    ensures Accounted(job, init + [e]) == Accounted(job, init) + multiset{e}
  {
    hide Job.Judge, Job.PlaceOf, Job.CopiesOf, Job.ConflictsOf, PlaceEntries, CopyEntries, ConflictEntries, Skipped;
    ButLast(init, e);
    OneEach(job, e);
    PlaceEntriesConcat(job.Places(init), job.PlaceOf(e));
    CopyEntriesConcat(job.Copies(init), job.CopiesOf(e));
    ConflictEntriesConcat(job.Conflicts(init), job.ConflictsOf(e));
    OneMoreSkipped(job, init, e);
  }

  lemma OneMoreSkipped(job: Job, init: Manifest, e: Entry)
    ensures Skipped(job, init + [e]) == Skipped(job, init) + Skipped(job, [e])
  {
    hide Job.Judge;
    ButLast(init, e);
    assert [e][..0] == [];
  }

  /** Every entry of next is placed, copied, left alone as a copy that is there, or in conflict: one of
      them, once. In a plan without conflicts the last does not occur. */
  lemma {:induction false} NextIsPartitioned(job: Job, m: Manifest)
    requires job.Valid() && forall e :: e in m ==> !job.Judge(e).Broken?
    ensures multiset(m) == Accounted(job, m)
    decreases |m|
  {
    hide Job.Judge;
    if m != [] {
      var init, e := m[..|m| - 1], m[|m| - 1];
      LastOf(m);
      assert forall f :: f in init ==> f in m;
      NextIsPartitioned(job, init);
      OneMorePlanned(job, init, e);
      assert multiset(m) == multiset(init) + multiset{e};
    } else {
      NothingPlanned(job);
    }
  }

  lemma NothingPlanned(job: Job)
    ensures Accounted(job, []) == multiset{}
  {
  }

  /** Every backup makes room for one placement or copy of its own entry. */
  lemma {:induction false} BackupsArePaired(job: Job, m: Manifest)
    requires job.Valid() && forall e :: e in m ==> !job.Judge(e).Broken?
    ensures multiset(BackupEntries(job.Backups(m)))
            <= multiset(PlaceEntries(job.Places(m))) + multiset(CopyEntries(job.Copies(m)))
    decreases |m|
  {
    hide Job.Judge, Job.PlaceOf, Job.CopiesOf, Job.BackupOf;
    if m != [] {
      var init, e := m[..|m| - 1], m[|m| - 1];
      LastOf(m);
      assert forall f :: f in init ==> f in m;
      BackupsArePaired(job, init);
      PairedOnce(job, e);
      PlaceEntriesConcat(job.Places(init), job.PlaceOf(e));
      CopyEntriesConcat(job.Copies(init), job.CopiesOf(e));
      BackupEntriesConcat(job.Backups(init), job.BackupOf(e));
    }
  }

  lemma PairedOnce(job: Job, e: Entry)
    requires job.Valid() && !job.Judge(e).Broken?
    ensures multiset(BackupEntries(job.BackupOf(e)))
            <= multiset(PlaceEntries(job.PlaceOf(e))) + multiset(CopyEntries(job.CopiesOf(e)))
  {
    hide Job.Judge, Job.PlaceOf, Job.CopiesOf, Job.BackupOf;
    OneBackup(job, e);
    OneEntry(e);
  }

  /** A backup never stands alone: its entry has one new placement or one copy to follow. */
  lemma BackupIsPaired(job: Job, b: BackupAction)
    requires job.Valid() && job.Readable() && b in job.Backups(job.next)
    ensures b.entry in job.next && b.aside == WithSuffix(b.entry.target, job.opts.Suffix())
    ensures PlaceAction(b.entry, PlaceNew) in job.Places(job.next) || CopyAction(b.entry) in job.Copies(job.next)
  {
    BackupIsOf(job, job.next, b);
    JudgeMeans(job, b.entry);
    if b.entry.how == Symlink {
      PlaceIsListed(job, job.next, b.entry, PlaceAction(b.entry, PlaceNew));
    } else {
      CopyIsListed(job, job.next, b.entry, CopyAction(b.entry));
    }
  }

  // The entries prev has and next drops.

  datatype Fate = InRemove | InPreRemove | Warned | AlreadyGone | CarriedOff

  /** The entry lies beneath a directory that `--backup` takes away as a whole. */
  ghost predicate SweptAway(job: Job, pe: Entry) {
    exists b :: b in job.Backups(job.next) && b.entry.how == Symlink && b.entry.target <= pe.target
                && b.entry.target in job.view.tree && job.view.tree[b.entry.target] == Dir
  }

  ghost predicate WarnedOf(job: Job, pe: Entry) {
    exists w :: w in job.LeftoverWarnings(job.prev) && w.target == pe.target
  }

  ghost predicate Meets(job: Job, pe: Entry, fate: Fate) {
    match fate
    case InRemove => Unlink(pe) in job.Removes(job.prev)
    case InPreRemove => Unlink(pe) in job.PreRemoves(job.next)
    case Warned => WarnedOf(job, pe)
    case AlreadyGone => pe.how != Copy && Lstat(job.view, pe.target).NotExist? && !SweptAway(job, pe)
    case CarriedOff => SweptAway(job, pe)
  }

  lemma {:induction false} LeftoverIsOf(job: Job, m: Manifest, w: Warning) returns (pe: Entry)
    requires w in job.LeftoverWarnings(m)
    ensures pe in m && w in job.LeftoverWarningsOf(pe)
  {
    hide Job.Judge, Job.Leave;
    pe := m[|m| - 1];
    if w in job.LeftoverWarnings(m[..|m| - 1]) { pe := LeftoverIsOf(job, m[..|m| - 1], w); }
  }

  lemma {:induction false} LeftoverIsListed(job: Job, m: Manifest, pe: Entry, w: Warning)
    requires pe in m && w in job.LeftoverWarningsOf(pe)
    ensures w in job.LeftoverWarnings(m)
  {
    hide Job.Judge, Job.Leave;
    if pe != m[|m| - 1] { LeftoverIsListed(job, m[..|m| - 1], pe, w); }
  }

  lemma SameTarget(m: Manifest, e: Entry, f: Entry)
    requires Distinct(m) && e in m && f in m && e.target == f.target
    ensures e == f
  {
    ByTargetIsExact(m, e);
    ByTargetIsExact(m, f);
  }

  predicate Complains(job: Job, pe: Entry) {
    job.Leave(pe).Orphan? || job.Leave(pe).NotLink? || job.Leave(pe).Mismatch?
  }

  lemma ComplaintIs(job: Job, pe: Entry)
    ensures Complains(job, pe) <==> job.LeftoverWarningsOf(pe) != []
    ensures forall w :: w in job.LeftoverWarningsOf(pe) ==> w.target == pe.target
  {
    hide Job.Leave;
  }

  lemma WarnedExactly(job: Job, pe: Entry)
    requires Distinct(job.prev) && pe in job.prev
    ensures WarnedOf(job, pe) <==> Complains(job, pe)
  {
    hide Job.Leave, Complains, Job.LeftoverWarningsOf, Distinct, Job.LeftoverWarnings;
    ComplaintIs(job, pe);
    if WarnedOf(job, pe) {
      var w :| w in job.LeftoverWarnings(job.prev) && w.target == pe.target;
      var f := LeftoverIsOf(job, job.prev, w);
      ComplaintIs(job, f);
      SameTarget(job.prev, pe, f);
    }
    if Complains(job, pe) {
      LeftoverIsListed(job, job.prev, pe, job.LeftoverWarningsOf(pe)[0]);
    }
  }

  lemma RemovedExactly(job: Job, pe: Entry)
    requires pe in job.prev
    ensures Unlink(pe) in job.Removes(job.prev) <==> job.Leave(pe).Doomed?
  {
    hide Job.Leave;
    if Unlink(pe) in job.Removes(job.prev) { RemoveIsOf(job, job.prev, Unlink(pe)); }
    if job.Leave(pe).Doomed? { RemoveIsListed(job, job.prev, pe); }
  }

  lemma SweptIsHandled(job: Job, pe: Entry)
    requires Orderly(job) && Distinct(job.prev) && pe in job.prev && pe.target !in job.NextBy() && SweptAway(job, pe)
    ensures pe.target in job.Marks(job.next) && Unlink(pe) !in job.PreRemoves(job.next)
  {
    var b :| b in job.Backups(job.next) && b.entry.how == Symlink && b.entry.target <= pe.target
             && b.entry.target in job.view.tree && job.view.tree[b.entry.target] == Dir;
    BackupIs(job, b);
    SweptIsMarked(job, b.entry, pe.target);
    NotPreRemovedUnder(job, b.entry, pe.target);
    assert Unlink(pe).At() == pe.target;
  }

  /** A marked target is on the disk as a link, unless it was marked by a sweep. */
  lemma MarkedIsALink(job: Job, m: Manifest, t: Path)
    requires job.Valid() && t in job.Marks(m)
    ensures (exists e :: e in m && Sweeps(job, e) && e.target <= t) || (t in job.view.tree && job.view.tree[t].Link?)
  {
    var e := MarkIsOf(job, m, t);
    JudgeMeans(job, e);
    if job.Judge(e).Migrate? {
      MigrateDirFacts(job, e.target);
      var a :| a in job.Judge(e).actions && a.Unlink? && a.entry.target == t;
      assert a.At() in At(job.Judge(e).actions);
    }
  }

  lemma SweeperIsBackedUp(job: Job, e: Entry, pe: Entry)
    requires Orderly(job) && Distinct(job.prev) && job.Accepted() && e in job.next && Sweeps(job, e) && e.target <= pe.target
    ensures SweptAway(job, pe)
  {
    JudgeMeans(job, e);
    if job.Judge(e).Clash? { ConflictIsListed(job, job.next, e); }
    var b := BackupAction(e, WithSuffix(e.target, job.opts.Suffix()));
    BackupIsListed(job, job.next, e, b);
    assert b.entry.target <= pe.target;
  }

  lemma UnsweptIsNotSwept(job: Job, m: Manifest, pe: Entry)
    requires Orderly(job) && Distinct(job.prev) && job.Accepted() && !SweptAway(job, pe) && forall e :: e in m ==> e in job.next
    ensures !exists e :: e in m && Sweeps(job, e) && e.target <= pe.target
  {
    if e :| e in m && Sweeps(job, e) && e.target <= pe.target { SweeperIsBackedUp(job, e, pe); }
  }

  lemma PreRemovedExactly(job: Job, pe: Entry)
    requires Orderly(job) && Distinct(job.prev) && job.Accepted() && pe in job.prev && pe.target !in job.NextBy()
    ensures Unlink(pe) in job.PreRemoves(job.next) <==> pe.target in job.Marks(job.next) && !SweptAway(job, pe)
    ensures Unlink(pe) in job.PreRemoves(job.next) ==> !Lstat(job.view, pe.target).NotExist?
  {
    hide Job.Judge, SweptAway;
    var t := pe.target;
    if Unlink(pe) in job.PreRemoves(job.next) {
      UnlinksAreMarked(job, job.next, Unlink(pe));
      var e := PreRemoveIsOf(job, job.next, Unlink(pe));
      AskedIsThere(job, e, Unlink(pe));
      if SweptAway(job, pe) { SweptIsHandled(job, pe); }
    }
    if t in job.Marks(job.next) && !SweptAway(job, pe) {
      UnsweptIsNotSwept(job, job.next, pe);
      MarkedIsPreRemoved(job, job.next, t);
      MarkedIsALink(job, job.next, t);
      var a :| a in job.PreRemoves(job.next) && a.At() == t;
      var e := PreRemoveIsOf(job, job.next, a);
      AskedIsThere(job, e, a);
      ByTargetIsExact(job.prev, pe);
    }
  }

  function FateOf(job: Job, pe: Entry, swept: bool): Fate {
    match job.Leave(pe)
    case Doomed => InRemove
    case Handled => if swept then CarriedOff else InPreRemove
    case Gone => AlreadyGone
    case _ => Warned
  }

  lemma LeaveMeans(job: Job, pe: Entry)
    requires job.Readable() && pe in job.prev && pe.target !in job.NextBy()
    ensures !job.Leave(pe).StillListed? && !job.Leave(pe).Obscured?
    ensures job.Leave(pe).Handled? <==> pe.target in job.Marks(job.next)
    ensures job.Leave(pe).Gone? <==>
              pe.target !in job.Marks(job.next) && pe.how != Copy && Lstat(job.view, pe.target).NotExist?
  {
    hide Job.Judge, Job.Marks, Lstat;
  }

  lemma GoneExactly(job: Job, pe: Entry)
    requires Orderly(job) && Distinct(job.prev) && job.Accepted() && pe in job.prev && pe.target !in job.NextBy()
    ensures Meets(job, pe, AlreadyGone) <==> job.Leave(pe).Gone?
  {
    hide Job.Judge, SweptAway, Job.Leave, Lstat, Orderly, Job.PreRemoves, Job.Marks;
    LeaveMeans(job, pe);
    PreRemovedExactly(job, pe);
    if SweptAway(job, pe) { SweptIsHandled(job, pe); }
  }

  /** Every entry next drops meets exactly one fate: planned for removal, pre-removed, warned about,
      gone already, or carried off inside a backed-up directory. */
  lemma DroppedMeetsOneFate(job: Job, pe: Entry)
    requires Orderly(job) && Distinct(job.prev) && job.Accepted() && pe in job.prev && pe.target !in job.NextBy()
    ensures forall fate :: Meets(job, pe, fate) <==> fate == FateOf(job, pe, SweptAway(job, pe))
  {
    forall fate ensures Meets(job, pe, fate) <==> fate == FateOf(job, pe, SweptAway(job, pe)) {
      MeetsExactly(job, pe, fate);
    }
  }

  lemma MeetsExactly(job: Job, pe: Entry, fate: Fate)
    requires Orderly(job) && Distinct(job.prev) && job.Accepted() && pe in job.prev && pe.target !in job.NextBy()
    ensures Meets(job, pe, fate) <==> fate == FateOf(job, pe, SweptAway(job, pe))
  {
    hide Job.Judge, SweptAway, WarnedOf, Job.Leave, Lstat, Job.Removes, Job.PreRemoves;
    LeaveMeans(job, pe);
    GoneExactly(job, pe);
    RemovedExactly(job, pe);
    PreRemovedExactly(job, pe);
    WarnedExactly(job, pe);
    if SweptAway(job, pe) { SweptIsHandled(job, pe); }
  }

  // The order of the plan.

  /** Some of `m`, in the same order. */
  ghost predicate Sub(a: seq<Entry>, m: Manifest) {
    a == [] ||
    (m != [] && (Sub(a, m[..|m| - 1]) || (a[|a| - 1] == m[|m| - 1] && Sub(a[..|a| - 1], m[..|m| - 1]))))
  }

  lemma SubSnoc(a: seq<Entry>, init: Manifest, e: Entry)
    requires Sub(a, init)
    ensures Sub(a, init + [e]) && Sub(a + [e], init + [e])
  {
    ButLast(init, e);
    ButLast(a, e);
  }

  function RemoveEntries(rs: seq<RemoveAction>): seq<Entry> {
    if rs == [] then []
    else RemoveEntries(rs[..|rs| - 1]) + if rs[|rs| - 1].Unlink? then [rs[|rs| - 1].entry] else []
  }

  lemma PlaceEntriesSnoc(job: Job, init: Manifest, e: Entry)
    ensures PlaceEntries(job.Places(init + [e])) == PlaceEntries(job.Places(init)) + if job.PlaceOf(e) == [] then [] else [e]
    ensures CopyEntries(job.Copies(init + [e])) == CopyEntries(job.Copies(init)) + if job.CopiesOf(e) == [] then [] else [e]
    ensures BackupEntries(job.Backups(init + [e])) == BackupEntries(job.Backups(init)) + if job.BackupOf(e) == [] then [] else [e]
  {
    hide Job.Judge;
    ButLast(init, e);
    OnlyOwn(job, e);
    hide Job.PlaceOf, Job.CopiesOf, Job.BackupOf;
    EmptyEnd(job.Places(init), []);
    EmptyEnd(job.Copies(init), []);
    EmptyEnd(job.Backups(init), []);
    if job.PlaceOf(e) != [] { ButLast(job.Places(init), job.PlaceOf(e)[0]); }
    if job.CopiesOf(e) != [] { ButLast(job.Copies(init), job.CopiesOf(e)[0]); }
    if job.BackupOf(e) != [] { ButLast(job.Backups(init), job.BackupOf(e)[0]); }
  }

  lemma OnlyOwn(job: Job, e: Entry)
    ensures job.PlaceOf(e) == [] || (job.PlaceOf(e) == [job.PlaceOf(e)[0]] && job.PlaceOf(e)[0].entry == e)
    ensures job.CopiesOf(e) == [] || (job.CopiesOf(e) == [job.CopiesOf(e)[0]] && job.CopiesOf(e)[0].entry == e)
    ensures job.BackupOf(e) == [] || (job.BackupOf(e) == [job.BackupOf(e)[0]] && job.BackupOf(e)[0].entry == e)
  {
    hide Job.Judge;
  }

  /** Placements, copies and backups come in the order of next. */
  lemma {:induction false} PlanFollowsNext(job: Job, m: Manifest)
    ensures Sub(PlaceEntries(job.Places(m)), m) && Sub(CopyEntries(job.Copies(m)), m) && Sub(BackupEntries(job.Backups(m)), m)
  {
    if m != [] {
      hide Sub, PlaceEntries, CopyEntries, BackupEntries, Job.Places, Job.Copies, Job.Backups, Job.PlaceOf, Job.CopiesOf, Job.BackupOf;
      var init, e := m[..|m| - 1], m[|m| - 1];
      LastOf(m);
      PlanFollowsNext(job, init);
      PlaceEntriesSnoc(job, init, e);
      SubSnoc(PlaceEntries(job.Places(init)), init, e);
      SubSnoc(CopyEntries(job.Copies(init)), init, e);
      SubSnoc(BackupEntries(job.Backups(init)), init, e);
      EmptyEnd(PlaceEntries(job.Places(init)), []);
      EmptyEnd(CopyEntries(job.Copies(init)), []);
      EmptyEnd(BackupEntries(job.Backups(init)), []);
    }
  }

  /** Stale removals come in the order of prev. */
  lemma {:induction false} RemovalsFollowPrev(job: Job, m: Manifest)
    ensures Sub(RemoveEntries(job.Removes(m)), m)
  {
    hide Job.Leave;
    if m != [] {
      var init, e := m[..|m| - 1], m[|m| - 1];
      LastOf(m);
      RemovalsFollowPrev(job, init);
      SubSnoc(RemoveEntries(job.Removes(init)), init, e);
      EmptyEnd(job.Removes(init), []);
      EmptyEnd(RemoveEntries(job.Removes(init)), []);
      ButLast(job.Removes(init), Unlink(e));
    }
  }
}
