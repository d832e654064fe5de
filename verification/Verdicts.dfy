/** What the plan holds, told by the two manifests and the tree alone. */
module Verdicts {
  import opened Sequences
  import opened Paths
  import opened Trees
  import opened Manifests
  import opened Planner
  import opened Program
  import opened Migrations
  import opened PlanFacts

  // What stands at and above a target.

  predicate LinkAbove(t: Tree, p: Path, link: Path) {
    link < p && link in t && t[link].Link?
  }

  ghost predicate FileAbove(t: Tree, p: Path) {
    exists q :: q < p && q in t && t[q].File?
  }

  /** Nothing stands there, and directories can be made down to it. */
  predicate Vacancy(t: Tree, p: Path) {
    p !in t && WayClear(t, p)
  }

  /** prev records a link at `q`, and it is there as recorded. */
  predicate OnRecord(job: Job, q: Path) {
    q in job.PrevBy() && q in job.view.tree && job.view.tree[q] == Link(LinkDest(job.PrevBy()[q]))
  }

  predicate Wanted(job: Job, q: Path) {
    exists e :: e in job.next && e.target == q
  }

  /** A directory with nothing in it but directories and recorded links that next drops. */
  ghost predicate StaleDir(job: Job, d: Path) {
    && d in job.view.tree && job.view.tree[d] == Dir
    && forall q :: q in job.view.tree && d < q ==> job.view.tree[q] == Dir || (OnRecord(job, q) && !Wanted(job, q))
  }

  /** The entry lies beneath a recorded link that next drops. */
  ghost predicate BeneathDropped(job: Job, e: Entry, link: Path) {
    LinkAbove(job.view.tree, e.target, link) && OnRecord(job, link) && !Wanted(job, link)
  }

  /** A recorded link whose entry becomes a copy. */
  predicate BecomesCopy(job: Job, e: Entry) {
    e.how == Copy && OnRecord(job, e.target) && job.PrevBy()[e.target].how == Symlink
  }

  /** A copy entry whose place is taken, by something other than a link to be converted. */
  predicate CopyMeets(job: Job, e: Entry) {
    e.how == Copy && e.target in job.view.tree && !BecomesCopy(job, e)
  }

  predicate SourceIs(job: Job, e: Entry, sameKind: bool) {
    && e.target in job.view.tree && job.view.world.probe(LinkDest(e)).Found?
    && (sameKind <==> (job.view.world.probe(LinkDest(e)).node == Dir <==> job.view.tree[e.target] == Dir))
  }

  predicate WasCopy(job: Job, e: Entry) {
    e.target in job.PrevBy() && job.PrevBy()[e.target].how == Copy
  }

  /** An occupant that has to go aside if anything is to be placed. */
  ghost predicate InTheWay(job: Job, e: Entry) {
    || (e.how == Symlink && e.target in job.view.tree && job.view.tree[e.target].File?)
    || (e.how == Symlink && e.target in job.view.tree && job.view.tree[e.target] == Dir && !StaleDir(job, e.target))
    || (CopyMeets(job, e) && SourceIs(job, e, false))
    || (CopyMeets(job, e) && SourceIs(job, e, true) && !WasCopy(job, e) && job.opts.backup)
  }

  /** Beside the target, under the suffix asked for or the usual one. */
  function AsideFor(job: Job, e: Entry): Path {
    WithSuffix(e.target, if job.opts.suffix == "" then "layat-backup" else job.opts.suffix)
  }

  /** It goes aside, to a name that is free. */
  ghost predicate GoesAside(job: Job, e: Entry) {
    job.opts.backup && InTheWay(job, e) && AsideFor(job, e) !in job.view.tree
  }

  // The walk down to the target, on every tree.

  lemma {:induction false} WalkFindsLink(job: Job, p: Path, link: Path, k: nat)
    requires job.Valid() && LinkAbove(job.view.tree, p, link) && k <= |link|
    ensures job.AncestorSymlink(p, k) == LinkAt(link)
    decreases |link| - k
  {
    assert p[..|link|] == link;
    if k < |link| {
      assert p[..k] == link[..k] && link[..k] < link;
      AncestorsAreDirs(job.view.tree, link, p[..k]);
      WalkFindsLink(job, p, link, k + 1);
    }
  }

  lemma {:induction false} WalkMeetsFile(job: Job, p: Path, file: Path, k: nat)
    requires job.Valid() && file < p && file in job.view.tree && job.view.tree[file].File? && k <= |file| + 1
    ensures job.AncestorSymlink(p, k) == Unreadable || (job.AncestorSymlink(p, k) == NoLink && Lstat(job.view, p) == Fault)
    decreases |file| + 1 - k
  {
    assert p[..|file|] == file;
    if k <= |file| {
      if k < |file| {
        assert p[..k] == file[..k] && file[..k] < file;
        AncestorsAreDirs(job.view.tree, file, p[..k]);
      }
      WalkMeetsFile(job, p, file, k + 1);
    } else {
      BeneathFile(job, p, file, k);
      BeneathFile(job, p, file, |p|);
      assert p[..|p|] == p;
    }
  }

  lemma BeneathFile(job: Job, p: Path, file: Path, k: nat)
    requires job.Valid() && file < p && file in job.view.tree && job.view.tree[file].File? && |file| < k <= |p|
    ensures Lstat(job.view, p[..k]) == Fault
  {
    var t, x := job.view.tree, p[..k];
    assert x[..|file|] == file == p[..|file|];
    assert file < x;
    NothingBeneath(t, file);
    forall r | r in t && r <= x ensures r <= file { Comparable(r, file, x); }
    NearestIs(t, x, file);
  }

  lemma {:induction false} WalkMeetsNothing(job: Job, p: Path, k: nat)
    requires job.Valid() && WayClear(job.view.tree, p) && k >= 1
    ensures job.AncestorSymlink(p, k) == NoLink
    decreases |p| - k
  {
    if k < |p| {
      if p[..k] in job.view.tree {
        WalkMeetsNothing(job, p, k + 1);
      } else {
        forall j | 0 <= j < |p[..k]| && p[..k][..j] in job.view.tree ensures job.view.tree[p[..k][..j]] == Dir {
          assert p[..k][..j] == p[..j];
        }
        NotThere(job.view, p[..k]);
      }
    }
  }

  lemma NotThere(v: View, p: Path)
    requires ValidTree(v.tree) && Vacancy(v.tree, p)
    ensures Lstat(v, p) == NotExist
  {
    var near := Nearest(v.tree, p);
    assert near == p[..|near|];
  }

  /** Every target lies beneath a link, beneath a file, or has directories on its way as far as it goes. */
  lemma ThreeWays(t: Tree, p: Path)
    requires ValidTree(t)
    ensures (exists link :: LinkAbove(t, p, link)) || FileAbove(t, p) || WayClear(t, p)
    ensures forall link :: LinkAbove(t, p, link) ==> p !in t && !FileAbove(t, p)
    ensures FileAbove(t, p) ==> p !in t && forall link :: !LinkAbove(t, p, link)
    ensures WayClear(t, p) ==> !FileAbove(t, p) && forall link :: !LinkAbove(t, p, link)
    ensures p in t ==> WayClear(t, p)
  {
    if k :| 0 <= k < |p| && p[..k] in t && t[p[..k]] != Dir {
      assert p[..k] < p;
      if t[p[..k]].Link? { assert LinkAbove(t, p, p[..k]); }
    }
    forall q | q < p && q in t && t[q] != Dir ensures p !in t && !WayClear(t, p) {
      NothingBeneath(t, q);
      assert p[..|q|] == q;
    }
    forall q, r | q < p && r < p && q in t && r in t && t[q] != Dir && t[r] != Dir ensures q == r {
      NothingBeneath(t, q);
      NothingBeneath(t, r);
      Comparable(q, r, p);
      if q <= r { SameOrAbove(q, r); } else { SameOrAbove(r, q); }
    }
    if p in t {
      forall k | 0 <= k < |p| && p[..k] in t ensures t[p[..k]] == Dir {
        assert p[..k] < p;
        AncestorsAreDirs(t, p, p[..k]);
      }
    }
  }

  lemma RecordIs(job: Job, q: Path)
    requires q in job.view.tree
    ensures job.RecordedLink(q) <==> OnRecord(job, q)
  {
  }

  lemma WantedIs(job: Job, q: Path)
    ensures q in job.NextBy() <==> Wanted(job, q)
  {
  }

  lemma StaleIsMigratable(job: Job, d: Path)
    requires job.Valid() && d in job.view.tree && job.view.tree[d] == Dir
    ensures job.MigrateDir(d).Migratable? <==> StaleDir(job, d)
  {
    MigratableExactly(job, d);
    forall q | q in job.view.tree ensures Takeable(job, q) <==> job.view.tree[q] == Dir || (OnRecord(job, q) && !Wanted(job, q)) {
      RecordIs(job, q);
      WantedIs(job, q);
    }
  }

  /** Beside an occupied target the aside can be looked at. */
  lemma AsideIsPlain(job: Job, e: Entry)
    requires job.Valid() && e.target in job.view.tree
    ensures if AsideFor(job, e) in job.view.tree then Lstat(job.view, AsideFor(job, e)).Found?
            else Lstat(job.view, AsideFor(job, e)) == NotExist
  {
    var t, x := job.view.tree, AsideFor(job, e);
    if x !in t {
      ThreeWays(t, e.target);
      forall k | 0 <= k < |x| && x[..k] in t ensures t[x[..k]] == Dir {
        assert Parent(x) == x[..|x| - 1] && Parent(e.target) == e.target[..|x| - 1];
        assert x[..k] == Parent(x)[..k] == e.target[..k];
      }
      NotThere(job.view, x);
    }
  }

  // The verdict on each kind of place.

  lemma JudgeBeneathLink(job: Job, e: Entry, link: Path)
    requires job.Valid() && LinkAbove(job.view.tree, e.target, link)
    ensures job.Judge(e) ==
            if Wanted(job, link) then Clash(SelfContradictoryAncestor, false)
            else if !OnRecord(job, link) then Clash(ForeignAncestor, false)
            else if e.how == OtherMethod then Broken
            else Nested(link)
  {
    hide Lstat, ByTarget;
    assert link != [];
    WalkFindsLink(job, e.target, link, 1);
    RecordIs(job, link);
    WantedIs(job, link);
  }

  lemma JudgeBeneathFile(job: Job, e: Entry)
    requires job.Valid() && FileAbove(job.view.tree, e.target)
    ensures job.Judge(e) == Broken
  {
    hide Lstat, ByTarget;
    var file :| file < e.target && file in job.view.tree && job.view.tree[file].File?;
    assert file != [];
    WalkMeetsFile(job, e.target, file, 1);
  }

  lemma JudgeVacancy(job: Job, e: Entry)
    requires job.Valid() && Vacancy(job.view.tree, e.target)
    ensures job.Judge(e) == if e.how == OtherMethod then Broken else Free
  {
    hide Lstat, ByTarget;
    WalkMeetsNothing(job, e.target, 1);
    NotThere(job.view, e.target);
  }

  /** What `--backup` makes of an occupant in the way. */
  function Shoved(job: Job, e: Entry, kind: ConflictKind, sweeps: bool): Verdict {
    if !job.opts.backup then Clash(kind, false)
    else if AsideFor(job, e) in job.view.tree then Clash(BackupTargetExists, sweeps)
    else Aside(sweeps)
  }

  lemma ShovedIs(job: Job, e: Entry, kind: ConflictKind, sweeps: bool)
    requires job.Valid() && e.target in job.view.tree
    ensures job.AsideOrClash(e, kind, sweeps) == Shoved(job, e, kind, sweeps)
    ensures job.opts.backup ==> job.JudgeAside(e, sweeps) == Shoved(job, e, kind, sweeps)
  {
    AsideIsPlain(job, e);
    hide Lstat;
  }

  lemma JudgeLinkTarget(job: Job, e: Entry)
    requires job.Valid() && e.target in job.view.tree && e.how == Symlink
    ensures match job.view.tree[e.target]
            case Link(_) => job.Judge(e) == Relinked(OnRecord(job, e.target))
            case File(_) => job.Judge(e) == Shoved(job, e, ForeignEntity, false)
            case Dir =>
              if StaleDir(job, e.target) then job.Judge(e).Migrate? && job.MigrateDir(e.target) == Migratable(job.Judge(e).actions)
              else job.Judge(e) == Shoved(job, e, DirMigrationFailed, true)
  {
    ThreeWays(job.view.tree, e.target);
    WalkMeetsNothing(job, e.target, 1);
    RecordIs(job, e.target);
    ShovedIs(job, e, ForeignEntity, false);
    ShovedIs(job, e, DirMigrationFailed, true);
    if job.view.tree[e.target] == Dir { StaleIsMigratable(job, e.target); }
    hide Shoved, StaleDir, OnRecord, Job.AsideOrClash, Job.MigrateDir, Job.AncestorSymlink, WayClear, ByTarget;
  }

  lemma JudgeCopyTarget(job: Job, e: Entry)
    requires job.Valid() && e.target in job.view.tree && e.how == Copy
    ensures BecomesCopy(job, e) ==> job.Judge(e) == Converted
    ensures CopyMeets(job, e) && !job.view.world.probe(LinkDest(e)).Found? ==> job.Judge(e) == Broken
    ensures CopyMeets(job, e) && SourceIs(job, e, false) ==> job.Judge(e) == Shoved(job, e, CopyStructureMismatch, false)
    ensures CopyMeets(job, e) && SourceIs(job, e, true) && WasCopy(job, e) ==> job.Judge(e) == KeptCopy
    ensures CopyMeets(job, e) && SourceIs(job, e, true) && !WasCopy(job, e) ==>
              job.Judge(e) == if job.opts.backup then Shoved(job, e, CopyStructureMismatch, false) else ForeignCopy
  {
    ThreeWays(job.view.tree, e.target);
    WalkMeetsNothing(job, e.target, 1);
    RecordIs(job, e.target);
    ShovedIs(job, e, CopyStructureMismatch, false);
    hide Shoved, Job.AsideOrClash, Job.JudgeAside, Job.AncestorSymlink, WayClear, ByTarget, Job.RecordedLink;
  }

  lemma JudgeOther(job: Job, e: Entry)
    requires job.Valid() && e.target in job.view.tree && e.how == OtherMethod
    ensures job.Judge(e) == Broken
  {
    ThreeWays(job.view.tree, e.target);
    WalkMeetsNothing(job, e.target, 1);
  }

  // The sections of the plan.

  /** A symlink entry gets a new link. */
  ghost predicate LinksAnew(job: Job, e: Entry) {
    && e.how == Symlink
    && (|| Vacancy(job.view.tree, e.target)
        || (exists link :: BeneathDropped(job, e, link))
        || StaleDir(job, e.target)
        || GoesAside(job, e))
  }

  /** Which link placements are planned. */
  lemma PlacesExactly(job: Job, e: Entry, kind: PlaceKind)
    requires job.Valid()
    ensures PlaceAction(e, kind) in job.Places(job.next) <==> e in job.next && PlacedAs(job, e, kind)
  {
    var a := PlaceAction(e, kind);
    EntryPlaces(job, e, kind);
    hide *;
    if a in job.Places(job.next) { PlaceIsOf(job, job.next, a); }
    if e in job.next && a in job.PlaceOf(e) { PlaceIsListed(job, job.next, e, a); }
  }

  lemma StaleIsDir(job: Job, d: Path)
    ensures StaleDir(job, d) ==> d in job.view.tree && job.view.tree[d] == Dir
  {
  }

  /** What the entry comes to among the placements. */
  ghost predicate PlacedAs(job: Job, e: Entry, kind: PlaceKind) {
    match kind
    case PlaceNew => LinksAnew(job, e)
    case PlaceReplace => e.how == Symlink && OnRecord(job, e.target)
    case PlaceForeign =>
      e.how == Symlink && e.target in job.view.tree && job.view.tree[e.target].Link? && !OnRecord(job, e.target)
  }

  lemma EntryPlaces(job: Job, e: Entry, kind: PlaceKind)
    requires job.Valid()
    ensures PlaceAction(e, kind) in job.PlaceOf(e) <==> PlacedAs(job, e, kind)
  {
    ThreeWays(job.view.tree, e.target);
    if e.target in job.view.tree {
      PlacesWhereTaken(job, e, kind);
    } else {
      PlacesWhereAbsent(job, e, kind);
    }
  }

  lemma VerdictWhereTaken(job: Job, e: Entry)
    requires job.Valid() && e.target in job.view.tree && e.how == Symlink
    ensures job.Judge(e).Aside? <==> GoesAside(job, e)
    ensures job.Judge(e).Migrate? <==> StaleDir(job, e.target)
    ensures job.Judge(e).Relinked? <==> job.view.tree[e.target].Link?
    ensures job.Judge(e).Relinked? ==> (job.Judge(e).recorded <==> OnRecord(job, e.target))
    ensures !job.Judge(e).Free? && !job.Judge(e).Nested?
  {
    EntryBackup(job, e);
    JudgeLinkTarget(job, e);
    StaleIsDir(job, e.target);
    hide Job.Judge, StaleDir, OnRecord, GoesAside, ValidTree, ValidWorld;
  }

  lemma PlacesWhereTaken(job: Job, e: Entry, kind: PlaceKind)
    requires job.Valid() && e.target in job.view.tree && forall link :: !LinkAbove(job.view.tree, e.target, link)
    ensures PlaceAction(e, kind) in job.PlaceOf(e) <==> PlacedAs(job, e, kind)
  {
    StaleIsDir(job, e.target);
    OnRecordIs(job, e.target);
    if e.how == Symlink { VerdictWhereTaken(job, e); }
    hide Job.Judge, StaleDir, LinkAbove, OnRecord, GoesAside, ValidTree, ValidWorld, WayClear;
  }

  lemma OnRecordIs(job: Job, q: Path)
    ensures OnRecord(job, q) ==> q in job.view.tree && job.view.tree[q].Link?
  {
  }

  lemma NotTaken(job: Job, e: Entry)
    requires e.target !in job.view.tree
    ensures !GoesAside(job, e) && !OnRecord(job, e.target)
  {
  }

  lemma VerdictWhereAbsent(job: Job, e: Entry)
    requires job.Valid() && e.target !in job.view.tree
    ensures job.Judge(e).Free? <==> Vacancy(job.view.tree, e.target) && e.how != OtherMethod
    ensures job.Judge(e).Nested? <==> (exists link :: BeneathDropped(job, e, link)) && e.how != OtherMethod
    ensures job.Judge(e).Free? || job.Judge(e).Nested? || job.Judge(e).Clash? || job.Judge(e).Broken?
  {
    ThreeWays(job.view.tree, e.target);
    hide Job.Judge, WayClear, FileAbove, ByTarget, Wanted, OnRecord, ValidTree, ValidWorld;
    if link :| LinkAbove(job.view.tree, e.target, link) {
      JudgeBeneathLink(job, e, link);
      OneLinkAbove(job, e, link);
    } else if FileAbove(job.view.tree, e.target) {
      JudgeBeneathFile(job, e);
    } else {
      JudgeVacancy(job, e);
    }
  }

  lemma PlacesWhereAbsent(job: Job, e: Entry, kind: PlaceKind)
    requires job.Valid() && e.target !in job.view.tree
    ensures PlaceAction(e, kind) in job.PlaceOf(e) <==> PlacedAs(job, e, kind)
  {
    StaleIsDir(job, e.target);
    NotTaken(job, e);
    VerdictWhereAbsent(job, e);
    hide Job.Judge, StaleDir, GoesAside, OnRecord, Vacancy, BeneathDropped, ValidTree, ValidWorld;
  }

  lemma OneLinkAbove(job: Job, e: Entry, link: Path)
    requires job.Valid() && LinkAbove(job.view.tree, e.target, link)
    ensures (exists l :: BeneathDropped(job, e, l)) <==> OnRecord(job, link) && !Wanted(job, link)
    ensures forall l :: LinkAbove(job.view.tree, e.target, l) ==> l == link
    ensures e.target !in job.view.tree
  {
    NothingBeneath(job.view.tree, link);
    forall l | LinkAbove(job.view.tree, e.target, l) ensures l == link {
      WalkFindsLink(job, e.target, link, 0);
      WalkFindsLink(job, e.target, l, 0);
    }
    if OnRecord(job, link) && !Wanted(job, link) { assert BeneathDropped(job, e, link); }
  }

  /** A copy entry gets its source's content. */
  ghost predicate CopiesAnew(job: Job, e: Entry) {
    && e.how == Copy
    && (|| Vacancy(job.view.tree, e.target)
        || (exists link :: BeneathDropped(job, e, link))
        || BecomesCopy(job, e)
        || GoesAside(job, e))
  }

  /** Which copies are planned. */
  lemma CopiesExactly(job: Job, e: Entry)
    requires job.Valid()
    ensures CopyAction(e) in job.Copies(job.next) <==> e in job.next && CopiesAnew(job, e)
  {
    EntryCopies(job, e);
    hide *;
    if CopyAction(e) in job.Copies(job.next) { CopyIsOf(job, job.next, CopyAction(e)); }
    if e in job.next && CopyAction(e) in job.CopiesOf(e) { CopyIsListed(job, job.next, e, CopyAction(e)); }
  }

  lemma EntryCopies(job: Job, e: Entry)
    requires job.Valid()
    ensures CopyAction(e) in job.CopiesOf(e) <==> CopiesAnew(job, e)
  {
    ThreeWays(job.view.tree, e.target);
    hide Job.Judge, WayClear, FileAbove, ByTarget, Wanted, OnRecord;
    if link :| LinkAbove(job.view.tree, e.target, link) {
      JudgeBeneathLink(job, e, link);
      OneLinkAbove(job, e, link);
    } else if FileAbove(job.view.tree, e.target) {
      JudgeBeneathFile(job, e);
    } else if e.target !in job.view.tree {
      JudgeVacancy(job, e);
    } else if e.how == Copy {
      JudgeCopyTarget(job, e);
    }
  }

  /** Which occupants go aside. */
  lemma BackupsExactly(job: Job, b: BackupAction)
    requires job.Valid()
    ensures b in job.Backups(job.next) <==> b.entry in job.next && GoesAside(job, b.entry) && b.aside == AsideFor(job, b.entry)
  {
    EntryBackup(job, b.entry);
    hide *;
    if b in job.Backups(job.next) {
      BackupIsOf(job, job.next, b);
      BackupOfIs(job, b.entry, b);
    }
    if b.entry in job.next && GoesAside(job, b.entry) && b.aside == AsideFor(job, b.entry) {
      BackupOfIs(job, b.entry, b);
      BackupIsListed(job, job.next, b.entry, b);
    }
  }

  lemma BackupOfIs(job: Job, e: Entry, b: BackupAction)
    ensures b in job.BackupOf(e) <==> job.Judge(e).Aside? && b == BackupAction(e, AsideFor(job, e))
  {
    hide Job.Judge;
  }

  lemma EntryBackup(job: Job, e: Entry)
    requires job.Valid()
    ensures job.Judge(e).Aside? <==> GoesAside(job, e)
  {
    ThreeWays(job.view.tree, e.target);
    hide Job.Judge, WayClear, FileAbove, ByTarget, Wanted, OnRecord;
    if link :| LinkAbove(job.view.tree, e.target, link) {
      JudgeBeneathLink(job, e, link);
    } else if FileAbove(job.view.tree, e.target) {
      JudgeBeneathFile(job, e);
    } else if e.target !in job.view.tree {
      JudgeVacancy(job, e);
    } else {
      match e.how
      case Copy => JudgeCopyTarget(job, e);
      case Symlink => JudgeLinkTarget(job, e);
      case OtherMethod => JudgeOther(job, e);
    }
  }

  /** Why an entry cannot be placed. */
  ghost predicate Clashes(job: Job, e: Entry, kind: ConflictKind) {
    var t, p := job.view.tree, e.target;
    match kind
    case SelfContradictoryAncestor => exists link :: LinkAbove(t, p, link) && Wanted(job, link)
    case ForeignAncestor => exists link :: LinkAbove(t, p, link) && !Wanted(job, link) && !OnRecord(job, link)
    case ForeignEntity => !job.opts.backup && e.how == Symlink && p in t && t[p].File?
    case DirMigrationFailed => !job.opts.backup && e.how == Symlink && p in t && t[p] == Dir && !StaleDir(job, p)
    case CopyStructureMismatch => !job.opts.backup && CopyMeets(job, e) && SourceIs(job, e, false)
    case BackupTargetExists => job.opts.backup && InTheWay(job, e) && AsideFor(job, e) in t
  }

  /** Which conflicts are listed, and as what. */
  lemma ConflictsExactly(job: Job, e: Entry, kind: ConflictKind)
    requires job.Valid()
    ensures Conflict(e, kind) in job.Conflicts(job.next) <==> e in job.next && Clashes(job, e, kind)
  {
    EntryClashes(job, e, kind);
    hide *;
    ConflictOfIs(job, e, kind);
    ConflictsAre(job, job.next, Conflict(e, kind));
  }

  lemma ConflictOfIs(job: Job, e: Entry, kind: ConflictKind)
    ensures Conflict(e, kind) in job.ConflictsOf(e) <==> job.Judge(e).Clash? && job.Judge(e).kind == kind
  {
    hide Job.Judge;
  }

  lemma {:induction false} ConflictsAre(job: Job, m: Manifest, c: Conflict)
    ensures c in job.Conflicts(m) <==> c.entry in m && c in job.ConflictsOf(c.entry)
  {
    hide Job.Judge;
    if m != [] {
      ConflictsAre(job, m[..|m| - 1], c);
      LastOf(m);
    }
  }

  lemma EntryClashes(job: Job, e: Entry, kind: ConflictKind)
    requires job.Valid()
    ensures job.Judge(e).Clash? && job.Judge(e).kind == kind <==> Clashes(job, e, kind)
  {
    if e.target in job.view.tree { ClashWhereTaken(job, e, kind); } else { ClashWhereAbsent(job, e, kind); }
  }

  lemma ClashWhereAbsent(job: Job, e: Entry, kind: ConflictKind)
    requires job.Valid() && e.target !in job.view.tree
    ensures job.Judge(e).Clash? && job.Judge(e).kind == kind <==> Clashes(job, e, kind)
  {
    ThreeWays(job.view.tree, e.target);
    hide Job.Judge, WayClear, FileAbove, ByTarget, Wanted, OnRecord, ValidTree, ValidWorld;
    if link :| LinkAbove(job.view.tree, e.target, link) {
      JudgeBeneathLink(job, e, link);
      OneLinkAbove(job, e, link);
    } else if FileAbove(job.view.tree, e.target) {
      JudgeBeneathFile(job, e);
    } else {
      JudgeVacancy(job, e);
    }
  }

  lemma ClashWhereTaken(job: Job, e: Entry, kind: ConflictKind)
    requires job.Valid() && e.target in job.view.tree
    ensures job.Judge(e).Clash? && job.Judge(e).kind == kind <==> Clashes(job, e, kind)
  {
    ThreeWays(job.view.tree, e.target);
    hide Job.Judge, WayClear, FileAbove, LinkAbove, ByTarget, Wanted, OnRecord, ValidTree, ValidWorld;
    match e.how
    case Copy => JudgeCopyTarget(job, e);
    case Symlink => JudgeLinkTarget(job, e);
    case OtherMethod => JudgeOther(job, e);
  }

  // What goes before anything is placed.

  /** An action PreRemove needs for the entry. */
  ghost predicate ClearsFor(job: Job, e: Entry, a: RemoveAction) {
    match a
    case Unlink(pe) =>
      && pe.target in job.PrevBy() && pe == job.PrevBy()[pe.target]
      && (|| (BeneathDropped(job, e, pe.target) && e.how != OtherMethod)
          || (pe.target == e.target && BecomesCopy(job, e))
          || (e.how == Symlink && StaleDir(job, e.target) && e.target < pe.target && pe.target in job.view.tree
              && job.view.tree[pe.target] != Dir))
    case Rmdir(d) => e.how == Symlink && StaleDir(job, e.target) && e.target <= d && d in job.view.tree && job.view.tree[d] == Dir
  }

  /** Which removals are planned to clear the way for placements. */
  lemma PreRemovesExactly(job: Job, a: RemoveAction)
    requires job.Valid() && PrefixFree(job.next)
    ensures a in job.PreRemoves(job.next) <==> exists e :: e in job.next && ClearsFor(job, e, a)
  {
    hide Job.Judge, ClearsFor, Asks, PrefixFree;
    if a in job.PreRemoves(job.next) {
      var e := PreRemoveIsOf(job, job.next, a);
      EntryAsks(job, e, a);
    }
    if e :| e in job.next && ClearsFor(job, e, a) {
      EntryAsks(job, e, a);
      Whole(job.next);
      AskedIsListed(job, |job.next|, e, a);
    }
  }

  lemma EntryAsks(job: Job, e: Entry, a: RemoveAction)
    requires job.Valid()
    ensures Asks(job, e, a) <==> ClearsFor(job, e, a)
  {
    ThreeWays(job.view.tree, e.target);
    StaleIsDir(job, e.target);
    hide Job.Judge, StaleDir, WayClear, FileAbove, ByTarget, Wanted;
    if link :| LinkAbove(job.view.tree, e.target, link) {
      JudgeBeneathLink(job, e, link);
      OneLinkAbove(job, e, link);
    } else if FileAbove(job.view.tree, e.target) {
      JudgeBeneathFile(job, e);
    } else if e.target !in job.view.tree {
      JudgeVacancy(job, e);
    } else {
      match e.how
      case Copy => JudgeCopyTarget(job, e);
      case Symlink =>
        JudgeLinkTarget(job, e);
        if StaleDir(job, e.target) { MigrationIs(job, e, a); }
      case OtherMethod => JudgeOther(job, e);
    }
  }

  /** A migration takes everything beneath the directory. */
  lemma MigrationIs(job: Job, e: Entry, a: RemoveAction)
    requires job.Valid() && StaleDir(job, e.target) && job.MigrateDir(e.target).Migratable?
    ensures (a in job.MigrateDir(e.target).actions || a == Rmdir(e.target)) <==>
            match a
            case Unlink(pe) =>
              && pe.target in job.PrevBy() && pe == job.PrevBy()[pe.target]
              && e.target < pe.target && pe.target in job.view.tree && job.view.tree[pe.target] != Dir
            case Rmdir(d) => e.target <= d && d in job.view.tree && job.view.tree[d] == Dir
  {
    MigrateDirFacts(job, e.target);
    hide Job.MigrateDir, ByTarget;
    var actions := job.MigrateDir(e.target).actions;
    if a in actions { assert a.At() in At(actions); }
    if e.target < a.At() && a.At() in job.view.tree {
      assert a.At() in At(actions);
      var b :| b in actions && b.At() == a.At();
    }
  }

  lemma PreRemoveKeeps(job: Job, e: Entry, marked: set<Path>, a: RemoveAction)
    requires Asks(job, e, a) && (a.Unlink? ==> a.At() in job.PrevBy() && a.entry == job.PrevBy()[a.At()])
    ensures a in job.PreRemoveOf(e, marked) || (a.Unlink? && a.At() in marked && !job.Judge(e).Migrate?)
  {
    hide Job.Judge, ByTarget;
  }

  /** What one entry needs is listed, if not for it then for an earlier one. */
  lemma {:induction false} AskedIsListed(job: Job, n: nat, e: Entry, a: RemoveAction)
    requires job.Valid() && PrefixFree(job.next) && n <= |job.next| && e in job.next[..n] && Asks(job, e, a)
    ensures a in job.PreRemoves(job.next[..n])
    decreases n, 0
  {
    hide Job.Judge, Asks, PrefixFree;
    var init, last := job.next[..n - 1], job.next[n - 1];
    Prefix(job.next, n);
    if e in init {
      AskedIsListed(job, n - 1, e, a);
    } else {
      AskedIsThere(job, e, a);
      PreRemoveKeeps(job, e, job.Marks(init), a);
      if a !in job.PreRemoveOf(e, job.Marks(init)) { MarkedEarlier(job, n - 1, e, a); }
    }
  }

  lemma MarkedEarlier(job: Job, n: nat, e: Entry, a: RemoveAction)
    requires job.Valid() && PrefixFree(job.next) && n < |job.next| && e == job.next[n] && Asks(job, e, a)
    requires a.Unlink? && a.At() in job.Marks(job.next[..n]) && !job.Judge(e).Migrate?
    ensures a in job.PreRemoves(job.next[..n])
    decreases n, 1
  {
    hide Job.Judge, ByTarget, Asks, Sweeps, PrefixFree, Job.MarksOf, Job.Marks, Job.PreRemoves, ValidTree, ValidWorld;
    AskedIsThere(job, e, a);
    AskedWithin(job, e, a);
    var f := MarkIsOf(job, job.next[..n], a.At());
    EarlierIsApart(job.next, n, f);
    MarkIsAsked(job, f, a.At());
    if Sweeps(job, f) && f.target <= a.At() { AboveItself(f, e, a.At()); }
    var b: RemoveAction :| b.Unlink? && Asks(job, f, b) && b.At() == a.At();
    AskedIsThere(job, f, b);
    assert b == a;
    assert f in job.next[..n];
    AskedIsListed(job, n, f, a);
  }

  lemma AskedWithin(job: Job, e: Entry, a: RemoveAction)
    requires Asks(job, e, a) && job.Valid() && !job.Judge(e).Migrate?
    ensures a.At() <= e.target
  {
    JudgeMeans(job, e);
    hide Lstat, ByTarget, Job.MigrateDir;
  }

  lemma AboveItself(f: Entry, e: Entry, link: Path)
    requires f.target <= link && link <= e.target
    ensures f.target <= e.target
  {
  }

  /** What an entry takes off the remove side, it pre-removes or sweeps away with a directory. */
  lemma MarkIsAsked(job: Job, f: Entry, x: Path)
    requires job.Valid() && x in job.MarksOf(f)
    ensures (exists b: RemoveAction :: b.Unlink? && Asks(job, f, b) && b.At() == x) || (Sweeps(job, f) && f.target <= x)
  {
    JudgeMeans(job, f);
    hide Lstat, ByTarget, Job.MigrateDir;
    match job.Judge(f)
    case Nested(link) => assert Asks(job, f, Unlink(job.PrevBy()[link]));
    case Converted => assert Asks(job, f, Unlink(job.PrevBy()[f.target]));
    case Migrate(actions) =>
      var b :| b in actions && b.Unlink? && b.entry.target == x;
      assert Asks(job, f, b);
    case _ =>
  }

  // The remove side.

  /** The dropped target is dealt with before the remove side comes to it: it is pre-removed, or leaves with
      a directory that `--backup` sets aside. */
  ghost predicate Handled(job: Job, x: Path) {
    || (exists a :: a in job.PreRemoves(job.next) && a.Unlink? && a.At() == x)
    || (x in job.PrevBy() && exists e :: e in job.next && SweptWith(job, e, x))
  }

  ghost predicate SweptWith(job: Job, e: Entry, x: Path) {
    && job.opts.backup && e.how == Symlink && e.target <= x
    && e.target in job.view.tree && job.view.tree[e.target] == Dir && !StaleDir(job, e.target)
  }

  lemma EntrySweeps(job: Job, e: Entry, x: Path)
    requires job.Valid()
    ensures Sweeps(job, e) && e.target <= x <==> SweptWith(job, e, x)
  {
    ThreeWays(job.view.tree, e.target);
    hide Job.Judge, WayClear, FileAbove, ByTarget, Wanted, OnRecord;
    if link :| LinkAbove(job.view.tree, e.target, link) {
      JudgeBeneathLink(job, e, link);
      OneLinkAbove(job, e, link);
    } else if FileAbove(job.view.tree, e.target) {
      JudgeBeneathFile(job, e);
    } else if e.target !in job.view.tree {
      JudgeVacancy(job, e);
    } else {
      match e.how
      case Copy => JudgeCopyTarget(job, e);
      case Symlink => JudgeLinkTarget(job, e);
      case OtherMethod => JudgeOther(job, e);
    }
  }

  lemma MarkedIsHandled(job: Job, x: Path)
    requires job.Valid() && PrefixFree(job.next)
    ensures x in job.Marks(job.next) <==> Handled(job, x)
  {
    hide Job.Judge, Asks, Sweeps, SweptWith, PrefixFree, Job.MarksOf, Job.Marks, Job.PreRemoves, ByTarget;
    if x in job.Marks(job.next) {
      var e := MarkIsOf(job, job.next, x);
      MarkIsAsked(job, e, x);
      if a: RemoveAction :| a.Unlink? && Asks(job, e, a) && a.At() == x {
        Whole(job.next);
        AskedIsListed(job, |job.next|, e, a);
      } else {
        EntrySweeps(job, e, x);
        SweptIsRecorded(job, e, x);
      }
    }
    if a :| a in job.PreRemoves(job.next) && a.Unlink? && a.At() == x { UnlinksAreMarked(job, job.next, a); }
    if e :| e in job.next && SweptWith(job, e, x) && x in job.PrevBy() {
      EntrySweeps(job, e, x);
      SweptIsInMarks(job, e, x);
      MarkIsListed(job, job.next, e, x);
    }
  }

  lemma SweptIsRecorded(job: Job, e: Entry, x: Path)
    requires Sweeps(job, e) && x in job.MarksOf(e)
    ensures x in job.PrevBy()
  {
    hide Job.Judge, ByTarget;
  }

  lemma SweptIsInMarks(job: Job, e: Entry, x: Path)
    requires Sweeps(job, e) && e.target <= x && x in job.PrevBy()
    ensures x in job.MarksOf(e)
  {
    hide Job.Judge, ByTarget;
  }

  /** An entry of prev that next drops and nothing has dealt with. */
  ghost predicate LeftOver(job: Job, pe: Entry) {
    pe in job.prev && !Wanted(job, pe.target) && !Handled(job, pe.target)
  }

  /** Which stale links are planned to go. */
  lemma RemovesExactly(job: Job, pe: Entry)
    requires job.Valid() && PrefixFree(job.next)
    ensures Unlink(pe) in job.Removes(job.prev) <==> LeftOver(job, pe) && pe.how != Copy && StillRecorded(job.view, pe)
  {
    EntryLeft(job, pe);
    hide *;
    if Unlink(pe) in job.Removes(job.prev) { RemoveIsOf(job, job.prev, Unlink(pe)); }
    if pe in job.prev && job.Leave(pe).Doomed? { RemoveIsListed(job, job.prev, pe); }
    InPrev(job, pe);
  }

  lemma InPrev(job: Job, pe: Entry)
    ensures LeftOver(job, pe) ==> pe in job.prev
  {
  }

  lemma EntryLeft(job: Job, pe: Entry)
    requires job.Valid() && PrefixFree(job.next)
    ensures pe in job.prev ==>
              && (job.Leave(pe).Doomed? <==> LeftOver(job, pe) && pe.how != Copy && StillRecorded(job.view, pe))
              && (job.Leave(pe).Orphan? <==> LeftOver(job, pe) && pe.how == Copy)
              && (job.Leave(pe).Obscured? <==> LeftOver(job, pe) && pe.how != Copy && Lstat(job.view, pe.target) == Fault)
              && (job.Leave(pe).NotLink? <==>
                    LeftOver(job, pe) && pe.how != Copy && Lstat(job.view, pe.target).Found? && !Lstat(job.view, pe.target).node.Link?)
              && (job.Leave(pe).Mismatch? <==>
                    LeftOver(job, pe) && pe.how != Copy && Lstat(job.view, pe.target).Found?
                    && Lstat(job.view, pe.target).node.Link? && !StillRecorded(job.view, pe))
  {
    MarkedIsHandled(job, pe.target);
    WantedIs(job, pe.target);
    hide Lstat, ByTarget, Handled, Wanted, Job.Marks, PrefixFree, ValidTree, ValidWorld;
  }

  // Warnings, and when there is no plan.

  lemma {:induction false} WarningsAre(job: Job, m: Manifest, w: Warning)
    ensures w in job.Warnings(m) <==> exists e :: e in m && w in job.WarningsOf(e)
    ensures w in job.LeftoverWarnings(m) <==> exists e :: e in m && w in job.LeftoverWarningsOf(e)
  {
    hide Job.Judge, Job.Leave, Job.WarningsOf, Job.LeftoverWarningsOf;
    if m != [] {
      WarningsAre(job, m[..|m| - 1], w);
      LastOf(m);
    }
  }

  lemma EntryWarns(job: Job, e: Entry, w: Warning)
    requires job.Valid()
    ensures w in job.WarningsOf(e) <==>
              w.target == e.target &&
              (|| (w.kind == WarnForeignReplace && e.how == Symlink && e.target in job.view.tree
                   && job.view.tree[e.target].Link? && !OnRecord(job, e.target))
               || (w.kind == WarnCopyForeign && CopyMeets(job, e) && SourceIs(job, e, true)
                   && !WasCopy(job, e) && !job.opts.backup))
  {
    ThreeWays(job.view.tree, e.target);
    hide Job.Judge, WayClear, FileAbove, ByTarget, Wanted;
    if link :| LinkAbove(job.view.tree, e.target, link) {
      JudgeBeneathLink(job, e, link);
      OneLinkAbove(job, e, link);
    } else if FileAbove(job.view.tree, e.target) {
      JudgeBeneathFile(job, e);
    } else if e.target !in job.view.tree {
      JudgeVacancy(job, e);
    } else {
      match e.how
      case Copy => JudgeCopyTarget(job, e);
      case Symlink => JudgeLinkTarget(job, e);
      case OtherMethod => JudgeOther(job, e);
    }
  }

  /** What a left-over entry is warned about as. */
  ghost predicate LeftAs(job: Job, pe: Entry, kind: WarnKind) {
    match kind
    case WarnCopyOrphan => pe.how == Copy
    case WarnStaleNonSymlink =>
      pe.how != Copy && Lstat(job.view, pe.target).Found? && !Lstat(job.view, pe.target).node.Link?
    case WarnStaleMismatch =>
      pe.how != Copy && Lstat(job.view, pe.target).Found? && Lstat(job.view, pe.target).node.Link? && !StillRecorded(job.view, pe)
    case _ => false
  }

  lemma EntryLeftWarns(job: Job, pe: Entry, w: Warning)
    requires job.Valid() && PrefixFree(job.next) && pe in job.prev
    ensures w in job.LeftoverWarningsOf(pe) <==> w.target == pe.target && LeftOver(job, pe) && LeftAs(job, pe, w.kind)
  {
    EntryLeft(job, pe);
    hide Job.Leave, LeftOver, StillRecorded, Lstat, PrefixFree, ValidTree, ValidWorld;
  }

  /** Which warnings come with the plan. */
  lemma WarningsExactly(job: Job, w: Warning)
    requires job.Valid() && PrefixFree(job.next)
    ensures w in job.Warnings(job.next) <==>
              exists e :: e in job.next && e.target == w.target &&
                match w.kind
                case WarnForeignReplace => PlaceAction(e, PlaceForeign) in job.Places(job.next)
                case WarnCopyForeign => CopyMeets(job, e) && SourceIs(job, e, true) && !WasCopy(job, e) && !job.opts.backup
                case _ => false
    ensures w in job.LeftoverWarnings(job.prev) <==>
              exists pe :: LeftOver(job, pe) && pe.target == w.target && LeftAs(job, pe, w.kind)
  {
    WarningsAre(job, job.next, w);
    WarningsAre(job, job.prev, w);
    forall e | e in job.next
      ensures w in job.WarningsOf(e) <==>
                e.target == w.target &&
                match w.kind
                case WarnForeignReplace => PlaceAction(e, PlaceForeign) in job.Places(job.next)
                case WarnCopyForeign => CopyMeets(job, e) && SourceIs(job, e, true) && !WasCopy(job, e) && !job.opts.backup
                case _ => false
    {
      EntryWarns(job, e, w);
      PlacesExactly(job, e, PlaceForeign);
    }
    forall pe | pe in job.prev
      ensures w in job.LeftoverWarningsOf(pe) <==> w.target == pe.target && LeftOver(job, pe) && LeftAs(job, pe, w.kind)
    {
      EntryLeftWarns(job, pe, w);
    }
    hide *;
    forall pe ensures LeftOver(job, pe) ==> pe in job.prev { InPrev(job, pe); }
  }

  /** An entry the planner cannot come to a verdict on: a file is on the way, the method is unknown where it
      would be placed, or the source of a copy that is there cannot be looked at. */
  ghost predicate Unjudged(job: Job, e: Entry) {
    || FileAbove(job.view.tree, e.target)
    || (e.how == OtherMethod
        && forall link :: LinkAbove(job.view.tree, e.target, link) ==> !Wanted(job, link) && OnRecord(job, link))
    || (CopyMeets(job, e) && !job.view.world.probe(LinkDest(e)).Found?)
  }

  lemma EntryUnjudged(job: Job, e: Entry)
    requires job.Valid()
    ensures job.Judge(e).Broken? <==> Unjudged(job, e)
  {
    ThreeWays(job.view.tree, e.target);
    hide Job.Judge, WayClear, FileAbove, ByTarget, Wanted, OnRecord;
    if link :| LinkAbove(job.view.tree, e.target, link) {
      JudgeBeneathLink(job, e, link);
      OneLinkAbove(job, e, link);
    } else if FileAbove(job.view.tree, e.target) {
      JudgeBeneathFile(job, e);
    } else if e.target !in job.view.tree {
      JudgeVacancy(job, e);
    } else {
      match e.how
      case Copy => JudgeCopyTarget(job, e);
      case Symlink => JudgeLinkTarget(job, e);
      case OtherMethod => JudgeOther(job, e);
    }
  }

  /** When there is a plan at all. */
  lemma ReadableExactly(job: Job)
    requires job.Valid() && PrefixFree(job.next)
    ensures job.Readable() <==>
              && (forall e :: e in job.next ==> !Unjudged(job, e))
              && (forall pe :: LeftOver(job, pe) && pe.how != Copy ==> Lstat(job.view, pe.target) != Fault)
  {
    forall e | e in job.next ensures job.Judge(e).Broken? <==> Unjudged(job, e) { EntryUnjudged(job, e); }
    forall pe | pe in job.prev
      ensures job.Leave(pe).Obscured? <==> LeftOver(job, pe) && pe.how != Copy && Lstat(job.view, pe.target) == Fault
    {
      EntryLeft(job, pe);
    }
    forall pe ensures LeftOver(job, pe) ==> pe in job.prev { InPrev(job, pe); }
    hide Unjudged, LeftOver, Lstat, Job.Judge, Job.Leave, PrefixFree, ValidTree, ValidWorld;
  }

  /** Left alone: in an accepted plan nothing happens to a copy exactly where something of its source's kind
      stands that is no recorded link to be converted, and it is recorded as a copy or --backup is off. */
  lemma LeftAloneExactly(job: Job, e: Entry)
    requires job.Valid() && job.Accepted() && e in job.next && e.how == Copy
    ensures CopyAction(e) !in job.Copies(job.next) <==>
              CopyMeets(job, e) && SourceIs(job, e, true) && (WasCopy(job, e) || !job.opts.backup)
  {
    EntryUnjudged(job, e);
    CopiesExactly(job, e);
    CopyClashes(job, e);
    ThreeWays(job.view.tree, e.target);
    hide Job.Judge, Job.Accepted, Job.Copies, Job.Valid, WayClear, ByTarget, Wanted, OnRecord;
    if link :| LinkAbove(job.view.tree, e.target, link) {
      assert !Clashes(job, e, SelfContradictoryAncestor) && !Clashes(job, e, ForeignAncestor);
      assert BeneathDropped(job, e, link);
    } else if CopyMeets(job, e) {
      CopyAloneOrNot(job, e);
    }
  }

  lemma CopyAloneOrNot(job: Job, e: Entry)
    requires CopyMeets(job, e) && !Unjudged(job, e)
    requires !Clashes(job, e, CopyStructureMismatch) && !Clashes(job, e, BackupTargetExists)
    requires WayClear(job.view.tree, e.target) && forall link :: !LinkAbove(job.view.tree, e.target, link)
    ensures CopiesAnew(job, e) <==> !(SourceIs(job, e, true) && (WasCopy(job, e) || !job.opts.backup))
  {
    hide WayClear, ByTarget, Wanted, OnRecord, LinkAbove, FileAbove;
  }

  lemma CopyClashes(job: Job, e: Entry)
    requires job.Valid() && job.Accepted() && e in job.next
    ensures !job.Judge(e).Broken? && forall kind :: !Clashes(job, e, kind)
  {
    forall kind ensures !Clashes(job, e, kind) {
      EntryClashes(job, e, kind);
      if job.Judge(e).Clash? { ConflictIsListed(job, job.next, e); }
    }
  }

  /** The whole plan, section by section: there is one if and only if nothing is unjudged, and what it holds
      is told by the manifests and the tree. */
  lemma PlanExactly(job: Job)
    requires job.Valid() && PrefixFree(job.next)
    ensures job.Compute().Planned? <==>
              && (forall e :: e in job.next ==> !Unjudged(job, e))
              && (forall pe :: LeftOver(job, pe) && pe.how != Copy ==> Lstat(job.view, pe.target) != Fault)
    ensures job.Compute().Planned? ==>
              var plan := job.Compute().plan;
              && (forall a: PlaceAction :: a in plan.place <==> a.entry in job.next && PlacedAs(job, a.entry, a.kind))
              && (forall a: CopyAction :: a in plan.copies <==> a.entry in job.next && CopiesAnew(job, a.entry))
              && (forall b: BackupAction :: b in plan.backup <==>
                    b.entry in job.next && GoesAside(job, b.entry) && b.aside == AsideFor(job, b.entry))
              && (forall c: Conflict :: c in plan.conflicts <==> c.entry in job.next && Clashes(job, c.entry, c.kind))
              && (forall a: RemoveAction :: a in plan.preRemove <==> exists e :: e in job.next && ClearsFor(job, e, a))
              && (forall pe: Entry :: Unlink(pe) in plan.remove <==>
                    LeftOver(job, pe) && pe.how != Copy && StillRecorded(job.view, pe))
              && (forall d: Path :: Rmdir(d) !in plan.remove)
  {
    ReadableExactly(job);
    PlanSections(job);
    hide *;
    forall a: PlaceAction ensures a in job.Places(job.next) <==> a.entry in job.next && PlacedAs(job, a.entry, a.kind) {
      PlacesExactly(job, a.entry, a.kind);
    }
    forall a: CopyAction ensures a in job.Copies(job.next) <==> a.entry in job.next && CopiesAnew(job, a.entry) {
      CopiesExactly(job, a.entry);
    }
    forall b: BackupAction
      ensures b in job.Backups(job.next) <==> b.entry in job.next && GoesAside(job, b.entry) && b.aside == AsideFor(job, b.entry)
    {
      BackupsExactly(job, b);
    }
    forall c: Conflict ensures c in job.Conflicts(job.next) <==> c.entry in job.next && Clashes(job, c.entry, c.kind) {
      ConflictsExactly(job, c.entry, c.kind);
    }
    forall a: RemoveAction ensures a in job.PreRemoves(job.next) <==> exists e :: e in job.next && ClearsFor(job, e, a) {
      PreRemovesExactly(job, a);
    }
    forall pe: Entry
      ensures Unlink(pe) in job.Removes(job.prev) <==> LeftOver(job, pe) && pe.how != Copy && StillRecorded(job.view, pe)
    {
      RemovesExactly(job, pe);
    }
    forall d: Path ensures Rmdir(d) !in job.Removes(job.prev) {
      if Rmdir(d) in job.Removes(job.prev) { RemoveIsOf(job, job.prev, Rmdir(d)); }
    }
  }

  lemma PlanSections(job: Job)
    ensures job.Compute().Planned? <==> job.Readable()
    ensures job.Compute().Planned? ==>
              var plan := job.Compute().plan;
              && plan.place == job.Places(job.next) && plan.copies == job.Copies(job.next)
              && plan.backup == job.Backups(job.next) && plan.conflicts == job.Conflicts(job.next)
              && plan.preRemove == job.PreRemoves(job.next) && plan.remove == job.Removes(job.prev)
              && plan.warnings == job.Warnings(job.next) + job.LeftoverWarnings(job.prev)
  {
    hide Job.Places, Job.Copies, Job.Backups, Job.Conflicts, Job.PreRemoves, Job.Removes, Job.Warnings, Job.LeftoverWarnings;
    hide Job.Readable;
  }
}
