/** Manifests: what a generation wants placed, keyed by target. */
module Manifests {
  import opened Paths

  /** `OtherMethod` is any method string but the two known ones; loading a manifest does not check it. */
  datatype Method = Symlink | Copy | OtherMethod

  type Target = p: Path | p != [] witness [""]

  datatype Entry = Entry(src: Path, subpath: Path, target: Target, how: Method)

  type Manifest = seq<Entry>

  /** Where the entry's link points, and where a copy comes from: `<src>/<subpath>`. */
  function LinkDest(e: Entry): Path {
    e.src + e.subpath
  }

  /** The subpath is looked up within the source: entries of one source lead to one place exactly if they
      name one subpath. */
  lemma LinkDestExactly(e: Entry, f: Entry)
    ensures e.src <= LinkDest(e) && LinkDest(e)[|e.src|..] == e.subpath
    ensures e.src == f.src ==> (LinkDest(e) == LinkDest(f) <==> e.subpath == f.subpath)
  {
    assert LinkDest(e)[|e.src|..] == e.subpath && LinkDest(f)[|f.src|..] == f.subpath;
  }

  /** Entries by target; of two entries with one target the later wins. */
  function ByTarget(m: Manifest): (r: map<Path, Entry>)
    ensures forall t :: t in r ==> r[t] in m && r[t].target == t
    ensures forall e :: e in m ==> e.target in r
  {
    if m == [] then map[]
    else
      var e := m[|m| - 1];
      assert forall x :: x in m ==> x == e || x in m[..|m| - 1];
      ByTarget(m[..|m| - 1])[e.target := e]
  }

  lemma {:induction false} LaterWins(m: Manifest, i: nat)
    requires i < |m| && forall j :: i < j < |m| ==> m[j].target != m[i].target
    ensures ByTarget(m)[m[i].target] == m[i]
  {
    if i < |m| - 1 {
      var init := m[..|m| - 1];
      assert init[i] == m[i] && m[|m| - 1].target != m[i].target;
      LaterWins(init, i);
    }
  }

  /** Distinct targets, none of them above another. */
  ghost predicate PrefixFree(m: Manifest) {
    forall i, j :: 0 <= i < |m| && 0 <= j < |m| && i != j ==> !(m[i].target <= m[j].target)
  }

  ghost predicate Distinct(m: Manifest) {
    forall i, j :: 0 <= i < |m| && 0 <= j < |m| && i != j ==> m[i].target != m[j].target
  }

  /** With distinct targets the table holds exactly the entries. */
  lemma ByTargetIsExact(m: Manifest, e: Entry)
    requires Distinct(m) && e in m
    ensures ByTarget(m)[e.target] == e
  {
    var r := ByTarget(m)[e.target];
    var i :| 0 <= i < |m| && m[i] == e;
    var j :| 0 <= j < |m| && m[j] == r;
  }

  lemma PrefixFreeOn(m: Manifest, e: Entry, f: Entry)
    requires PrefixFree(m) && e in m && f in m && e.target <= f.target
    ensures e == f
  {
    var i :| 0 <= i < |m| && m[i] == e;
    var j :| 0 <= j < |m| && m[j] == f;
  }

  lemma EntriesApart(m: Manifest, e: Entry, f: Entry)
    requires PrefixFree(m) && e in m && f in m && e != f
    ensures !(e.target <= f.target) && !(f.target <= e.target)
  {
    var i :| 0 <= i < |m| && m[i] == e;
    var j :| 0 <= j < |m| && m[j] == f;
  }
}

/** The plan: what `Compute` decides from the two manifests and one look at the tree. */
module Planner {
  import opened Paths
  import opened Trees
  import opened Manifests

  datatype PlaceKind = PlaceNew | PlaceReplace | PlaceForeign

  datatype PlaceAction = PlaceAction(entry: Entry, kind: PlaceKind)

  datatype CopyAction = CopyAction(entry: Entry)

  datatype BackupAction = BackupAction(entry: Entry, aside: Path)

  datatype RemoveAction = Unlink(entry: Entry) | Rmdir(dir: Path) {
    function At(): Path {
      if Unlink? then entry.target else dir
    }
  }

  datatype ConflictKind =
    | ForeignEntity
    | ForeignAncestor
    | SelfContradictoryAncestor
    | CopyStructureMismatch
    | DirMigrationFailed
    | BackupTargetExists

  datatype Conflict = Conflict(entry: Entry, kind: ConflictKind)

  datatype WarnKind = WarnForeignReplace | WarnStaleMismatch | WarnStaleNonSymlink | WarnCopyOrphan | WarnCopyForeign

  datatype Warning = Warning(kind: WarnKind, target: Path)

  datatype Plan = Plan(
    place: seq<PlaceAction>,
    copies: seq<CopyAction>,
    remove: seq<RemoveAction>,
    preRemove: seq<RemoveAction>,
    backup: seq<BackupAction>,
    conflicts: seq<Conflict>,
    warnings: seq<Warning>)

  datatype Computed = Planned(plan: Plan) | ProbeFailed

  datatype Options = Options(backup: bool, suffix: Name) {
    function Suffix(): Name {
      if suffix == "" then "layat-backup" else suffix
    }
  }

  datatype Ancestor = NoLink | LinkAt(path: Path) | Unreadable

  datatype Migration = Migratable(actions: seq<RemoveAction>) | Refused

  /** What one entry of the next manifest comes to. `sweeps` marks the entries recorded beneath a
      directory that `--backup` takes away as a whole. */
  datatype Verdict =
    | Broken
    | Free
    | Nested(link: Path)
    | Relinked(recorded: bool)
    | Migrate(actions: seq<RemoveAction>)
    | Aside(sweeps: bool)
    | Clash(kind: ConflictKind, sweeps: bool)
    | Converted
    | KeptCopy
    | ForeignCopy

  /** What one entry of the previous manifest comes to. */
  datatype Leftover = StillListed | Handled | Orphan | Gone | NotLink | Mismatch | Doomed | Obscured

  /** One call of `Compute`. An absent previous manifest is the empty one. */
  datatype Job = Job(prev: Manifest, next: Manifest, view: View, opts: Options) {
    ghost predicate Valid() {
      ValidTree(view.tree) && ValidWorld(view.world)
    }

    function PrevBy(): map<Path, Entry> { ByTarget(prev) }

    function NextBy(): map<Path, Entry> { ByTarget(next) }

    /** prev has the target and the link on disk points where prev recorded. */
    predicate RecordedLink(target: Path)
    {
      target in PrevBy() && Readlink(view, target) == Some(LinkDest(PrevBy()[target]))
    }

    /** The first symlink strictly above `target`, searched from the prefix of length `k` on. */
    function AncestorSymlink(target: Path, k: nat): Ancestor
      decreases |target| - k
    {
      if k >= |target| then NoLink
      else
        match Lstat(view, target[..k])
        case NotExist => NoLink
        case Fault => Unreadable
        case Found(Link(_)) => LinkAt(target[..k])
        case Found(_) => AncestorSymlink(target, k + 1)
    }

    ghost function Below(dir: Path): set<Path> {
      set q | q in view.tree && dir < q
    }

    function MigrateDir(dir: Path): Migration
      decreases Below(dir), 1, 0
    {
      MigrateChildren(dir, ReadDir(view.tree, dir))
    }

    function MigrateChildren(dir: Path, names: seq<Name>): Migration
      requires forall n :: n in names ==> dir + [n] in view.tree
      decreases Below(dir), 0, |names|
    {
      if names == [] then Migratable([])
      else
        match MigrateChildren(dir, names[..|names| - 1])
        case Refused => Refused
        case Migratable(before) =>
          match MigrateChild(dir, names[|names| - 1])
          case Refused => Refused
          case Migratable(actions) => Migratable(before + actions)
    }

    function MigrateChild(dir: Path, name: Name): Migration
      requires dir + [name] in view.tree
      decreases Below(dir), 0, 0
    {
      var child := dir + [name];
      match view.tree[child]
      case Link(_) =>
        if child in NextBy() || !RecordedLink(child) then Refused else Migratable([Unlink(PrevBy()[child])])
      case Dir =>
        (assert child in Below(dir) && Below(child) < Below(dir);
         match MigrateDir(child)
         case Refused => Refused
         case Migratable(actions) => Migratable(actions + [Rmdir(child)]))
      case File(_) => Refused
    }

    function JudgeAside(e: Entry, sweeps: bool): Verdict
    {
      match Lstat(view, WithSuffix(e.target, opts.Suffix()))
      case Found(_) => Clash(BackupTargetExists, sweeps)
      case Fault => Broken
      case NotExist => Aside(sweeps)
    }

    function AsideOrClash(e: Entry, kind: ConflictKind, sweeps: bool): Verdict
    {
      if opts.backup then JudgeAside(e, sweeps) else Clash(kind, false)
    }

    /** A copy entry under place-once. */
    function JudgeCopy(e: Entry): Verdict
    {
      match Lstat(view, e.target)
      case NotExist => Free
      case Fault => Broken
      case Found(node) =>
        if node.Link? && e.target in PrevBy() && PrevBy()[e.target].how == Symlink && RecordedLink(e.target) then
          Converted
        else
          match view.world.probe(LinkDest(e))
          case NotExist => Broken
          case Fault => Broken
          case Found(src) =>
            if src.Dir? != node.Dir? then AsideOrClash(e, CopyStructureMismatch, false)
            else if e.target in PrevBy() && PrevBy()[e.target].how == Copy then KeptCopy
            else if opts.backup then JudgeAside(e, false)
            else ForeignCopy
    }

    /** A symlink entry whose target is a real directory. */
    function JudgeDir(e: Entry): Verdict
    {
      match MigrateDir(e.target)
      case Migratable(actions) => Migrate(actions)
      case Refused => AsideOrClash(e, DirMigrationFailed, true)
    }

    function JudgeLink(e: Entry): Verdict
    {
      match Lstat(view, e.target)
      case Found(Link(_)) => Relinked(RecordedLink(e.target))
      case Found(Dir) => JudgeDir(e)
      case Found(File(_)) => AsideOrClash(e, ForeignEntity, false)
      case NotExist => Free
      case Fault => Broken
    }

    function Judge(e: Entry): Verdict
    {
      match AncestorSymlink(e.target, 1)
      case Unreadable => Broken
      case LinkAt(link) =>
        if link in NextBy() then Clash(SelfContradictoryAncestor, false)
        else if !RecordedLink(link) then Clash(ForeignAncestor, false)
        else if e.how == OtherMethod then Broken
        else Nested(link)
      case NoLink =>
        match e.how
        case Copy => JudgeCopy(e)
        case Symlink => JudgeLink(e)
        case OtherMethod => Broken
    }

    // What each verdict adds to the plan.

    function PlaceOf(e: Entry): seq<PlaceAction>
    {
      if e.how != Symlink then []
      else
        match Judge(e)
        case Free => [PlaceAction(e, PlaceNew)]
        case Nested(_) => [PlaceAction(e, PlaceNew)]
        case Migrate(_) => [PlaceAction(e, PlaceNew)]
        case Aside(_) => [PlaceAction(e, PlaceNew)]
        case Relinked(recorded) => [PlaceAction(e, if recorded then PlaceReplace else PlaceForeign)]
        case _ => []
    }

    function CopiesOf(e: Entry): seq<CopyAction>
    {
      if e.how != Copy then []
      else
        match Judge(e)
        case Free => [CopyAction(e)]
        case Nested(_) => [CopyAction(e)]
        case Aside(_) => [CopyAction(e)]
        case Converted => [CopyAction(e)]
        case _ => []
    }

    function BackupOf(e: Entry): seq<BackupAction>
    {
      if Judge(e).Aside? then [BackupAction(e, WithSuffix(e.target, opts.Suffix()))] else []
    }

    function ConflictsOf(e: Entry): seq<Conflict>
    {
      if Judge(e).Clash? then [Conflict(e, Judge(e).kind)] else []
    }

    function WarningsOf(e: Entry): seq<Warning>
    {
      match Judge(e)
      case Relinked(false) => [Warning(WarnForeignReplace, e.target)]
      case ForeignCopy => [Warning(WarnCopyForeign, e.target)]
      case _ => []
    }

    /** The targets an entry takes off the remove side. */
    function MarksOf(e: Entry): set<Path>
    {
      match Judge(e)
      case Nested(link) => {link}
      case Converted => {e.target}
      case Migrate(actions) => set a | a in actions && a.Unlink? :: a.entry.target
      case Aside(true) => set t | t in PrevBy() && e.target <= t
      case Clash(_, true) => set t | t in PrevBy() && e.target <= t
      case _ => {}
    }

    function Marks(m: Manifest): set<Path>
    {
      if m == [] then {} else Marks(m[..|m| - 1]) + MarksOf(m[|m| - 1])
    }

    /** One unlink per target: an ancestor link already scheduled is not scheduled again. */
    function PreRemoveOf(e: Entry, marked: set<Path>): seq<RemoveAction>
    {
      match Judge(e)
      case Nested(link) => if link in marked || link !in PrevBy() then [] else [Unlink(PrevBy()[link])]
      case Converted => if e.target in marked || e.target !in PrevBy() then [] else [Unlink(PrevBy()[e.target])]
      case Migrate(actions) => actions + [Rmdir(e.target)]
      case _ => []
    }

    function Places(m: Manifest): seq<PlaceAction>
    {
      if m == [] then [] else Places(m[..|m| - 1]) + PlaceOf(m[|m| - 1])
    }

    function Copies(m: Manifest): seq<CopyAction>
    {
      if m == [] then [] else Copies(m[..|m| - 1]) + CopiesOf(m[|m| - 1])
    }

    function Backups(m: Manifest): seq<BackupAction>
    {
      if m == [] then [] else Backups(m[..|m| - 1]) + BackupOf(m[|m| - 1])
    }

    function Conflicts(m: Manifest): seq<Conflict>
    {
      if m == [] then [] else Conflicts(m[..|m| - 1]) + ConflictsOf(m[|m| - 1])
    }

    function Warnings(m: Manifest): seq<Warning>
    {
      if m == [] then [] else Warnings(m[..|m| - 1]) + WarningsOf(m[|m| - 1])
    }

    function PreRemoves(m: Manifest): seq<RemoveAction>
    {
      if m == [] then []
      else PreRemoves(m[..|m| - 1]) + PreRemoveOf(m[|m| - 1], Marks(m[..|m| - 1]))
    }

    // The remove side: entries of prev that next drops.

    function Leave(pe: Entry): Leftover
    {
      if pe.target in NextBy() then StillListed
      else if pe.target in Marks(next) then Handled
      else if pe.how == Copy then Orphan
      else
        match Lstat(view, pe.target)
        case NotExist => Gone
        case Fault => Obscured
        case Found(Link(d)) => if d == LinkDest(pe) then Doomed else Mismatch
        case Found(_) => NotLink
    }

    function Removes(m: Manifest): seq<RemoveAction>
    {
      if m == [] then []
      else Removes(m[..|m| - 1]) + (if Leave(m[|m| - 1]).Doomed? then [Unlink(m[|m| - 1])] else [])
    }

    function LeftoverWarningsOf(pe: Entry): seq<Warning>
    {
      match Leave(pe)
      case Orphan => [Warning(WarnCopyOrphan, pe.target)]
      case NotLink => [Warning(WarnStaleNonSymlink, pe.target)]
      case Mismatch => [Warning(WarnStaleMismatch, pe.target)]
      case _ => []
    }

    function LeftoverWarnings(m: Manifest): seq<Warning>
    {
      if m == [] then [] else LeftoverWarnings(m[..|m| - 1]) + LeftoverWarningsOf(m[|m| - 1])
    }

    predicate Readable()
    {
      && (forall e :: e in next ==> !Judge(e).Broken?)
      && (forall pe :: pe in prev ==> !Leave(pe).Obscured?)
    }

    function ThePlan(): Plan
    {
      Plan(Places(next), Copies(next), Removes(prev), PreRemoves(next), Backups(next), Conflicts(next),
           Warnings(next) + LeftoverWarnings(prev))
    }

    function Compute(): Computed
    {
      if Readable() then Planned(ThePlan()) else ProbeFailed
    }

    /** A plan the engine carries out. */
    predicate Accepted()
    {
      Readable() && Conflicts(next) == []
    }
  }
}
