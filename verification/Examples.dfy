/** One small input for each promise that holds only under a condition. */
module Examples {
  import opened Paths
  import opened Trees
  import opened Manifests
  import opened Planner
  import opened Steps
  import opened Program
  import opened Runs
  import opened Migrations
  import opened PlanFacts
  import opened Stages
  import opened Converge
  import opened Turns
  import opened Settle
  import opened Atomic
  import Leftovers
  import Verdicts
  import Contents
  import Outcomes
  import Reports
  import Emptied
  import Undercut
  import Drift
  import Crash

  const NO_BACKUP := Options(false, "")

  function Linked(src: Name, target: Target): Entry {
    Entry([src], [], target, Symlink)
  }

  function Copied(src: Name, target: Target): Entry {
    Entry([src], [], target, Copy)
  }

  /** Two manifests of one entry each are in order. */
  lemma OneEach(job: Job, pe: Entry, e: Entry)
    requires job.Valid() && job.prev == [pe] && job.next == [e] && Foreign(job.view, pe)
    ensures Standing(job)
  {
    hide ValidTree, ValidWorld, Foreign;
    assert WithSuffix(e.target, job.opts.Suffix()) != e.target;
  }

  lemma OneAccepted(job: Job, pe: Entry, e: Entry)
    requires job.prev == [pe] && job.next == [e]
    requires !job.Judge(e).Broken? && !job.Judge(e).Clash? && !job.Leave(pe).Obscured?
    ensures job.Accepted()
  {
    hide Job.Judge, Job.Leave;
    NoConflict(job, job.next);
  }

  lemma OneDoomed(job: Job, pe: Entry, e: Entry)
    requires job.next == [e] && job.MarksOf(e) == {} && pe.target != e.target && pe.how != Copy && StillRecorded(job.view, pe)
    ensures job.Leave(pe) == Doomed
  {
    hide Job.Judge, Job.MarksOf, Lstat;
    assert job.Marks([e]) == job.Marks([]) + job.MarksOf(e);
    assert job.Marks([]) == {};
    assert forall x :: x in job.next ==> x == e;
  }

  lemma OneSource(job: Job, e: Entry)
    requires job.next == [e] && (job.CopiesOf(e) == [] || job.view.world.probe(LinkDest(e)).Found?)
    ensures SourcesExist(job)
  {
    hide Job.Judge, Job.CopiesOf;
    CopiesOfOne(job, e);
    assert job.Copies([e]) == job.Copies([]) + job.CopiesOf(e);
    assert job.Copies([]) == [];
  }

  // `a` is a recorded link; next wants `a/b/c`.

  /** Outside the root there is nothing to see. */
  const NOWHERE: World := World(p => NotExist, p => map[])

  function Deeper(): Job {
    Job([Linked("old", ["a"])], [Linked("new", ["a", "b", "c"])],
        View(map[[] := Dir, ["a"] := Link(["old"])], NOWHERE), NO_BACKUP)
  }

  lemma DeeperIsValid()
    ensures Standing(Deeper()) && SourcesExist(Deeper())
  {
    var job := Deeper();
    assert forall p :: p in job.view.tree && p != [] ==> p == ["a"];
    assert Parent(["a"]) == [];
    OneEach(job, Linked("old", ["a"]), Linked("new", ["a", "b", "c"]));
    Crash.PlainHasNoCopy(job, job.next);
  }

  lemma DeeperVerdict()
    ensures Deeper().Judge(Linked("new", ["a", "b", "c"])) == Nested(["a"])
  {
    var job, e := Deeper(), Linked("new", ["a", "b", "c"]);
    assert e.target[..1] == ["a"];
    assert job.AncestorSymlink(e.target, 1) == LinkAt(["a"]);
    assert job.PrevBy()[["a"]] == Linked("old", ["a"]) && LinkDest(Linked("old", ["a"])) == ["old"];
    assert ["a"] !in job.NextBy();
  }

  lemma DeeperIsAccepted()
    ensures Deeper().Accepted()
  {
    DeeperVerdict();
    hide Job.Judge;
    assert !Lstat(Deeper().view, ["a"]).Fault?;
    OneAccepted(Deeper(), Linked("old", ["a"]), Linked("new", ["a", "b", "c"]));
  }

  /** A failure of this plan does not put the link back: the directory made in its place stays. */
  lemma DeeperIsNotAtomic(limits: seq<nat>) returns (cut: seq<Event>)
    requires |limits| == |Deeper().Removes(Deeper().prev)|
    ensures Fails(Deeper(), false, limits, cut) && !Restored(Deeper().view.tree, Unwound(Deeper().view.tree, cut))
  {
    hide Job.Judge, Job.Accepted, Standing, Fails, Unwound;
    DeeperIsValid();
    DeeperVerdict();
    DeeperIsAccepted();
    cut := DeeperChildIsNotUndone(Deeper(), limits, Linked("new", ["a", "b", "c"]));
  }

  // Nothing but a directory stands where the unchanged manifest wants a link.

  function Bare(): Job {
    Job([Linked("s", ["a"])], [Linked("s", ["a"])], View(map[[] := Dir, ["a"] := Dir], NOWHERE), NO_BACKUP)
  }

  /** Repairing drift on this tree would have to remove the directory first. */
  lemma GuardMisses()
    ensures Drift.Unchanged(Bare()) && Bare().PreRemoves(Bare().next) != []
  {
    var job, e := Bare(), Linked("s", ["a"]);
    assert Parent(["a"]) == [] && forall p :: p in job.view.tree && p != [] ==> p == ["a"];
    assert e in job.next && Drift.Hollow(job, e);
    Drift.UnchangedPlansExactly(job);
  }

  // A copy that was there before layat, holding one stale link.

  const SOURCE: World :=
    World(p => if p == ["d"] then Found(Dir) else NotExist, p => map[[] := Dir])

  function Stale(): Job {
    Job([Linked("s", ["c", "x"])], [Copied("d", ["c"])],
        View(map[[] := Dir, ["c"] := Dir, ["c", "x"] := Link(["s"])], SOURCE), NO_BACKUP)
  }

  lemma StaleIsValid()
    ensures Standing(Stale())
  {
    var job := Stale();
    assert Parent(["c"]) == [] && Parent(["c", "x"]) == ["c"];
    assert forall p :: p in job.view.tree && p != [] ==> p == ["c"] || p == ["c", "x"];
    OneEach(job, Linked("s", ["c", "x"]), Copied("d", ["c"]));
  }

  lemma StaleVerdict()
    ensures Stale().Judge(Copied("d", ["c"])) == ForeignCopy
  {
    var job := Stale();
    assert job.AncestorSymlink(["c"], 1) == NoLink;
    assert ["c"] !in job.PrevBy();
    assert LinkDest(Copied("d", ["c"])) == ["d"];
  }

  lemma StaleLeftover()
    ensures Stale().Leave(Linked("s", ["c", "x"])) == Doomed
  {
    StaleVerdict();
    hide Job.Judge, Job.Leave;
    assert |["c"]| != |["c", "x"]|;
    assert LinkDest(Linked("s", ["c", "x"])) == ["s"];
    OneDoomed(Stale(), Linked("s", ["c", "x"]), Copied("d", ["c"]));
  }

  lemma StaleIsAccepted()
    ensures Stale().Accepted() && SourcesExist(Stale())
  {
    StaleVerdict();
    StaleLeftover();
    hide Job.Judge, Job.Leave;
    OneAccepted(Stale(), Linked("s", ["c", "x"]), Copied("d", ["c"]));
    assert LinkDest(Copied("d", ["c"])) == ["d"];
    OneSource(Stale(), Copied("d", ["c"]));
  }

  lemma StaleIsSteady()
    ensures Steady(Stale())
  {
    hide Standing, SourcesExist, Job.Accepted;
    StaleIsValid();
    StaleIsAccepted();
  }

  /** `c` with one stale link in it is wiped away, wherever it stands that way. */
  lemma OneStaleLink(job: Job, t: Tree)
    requires Unlink(Linked("s", ["c", "x"])) in job.Removes(job.prev)
    requires ["c"] in t && t[["c"]] == Dir && ["c", "x"] in t && t[["c", "x"]] == Link(["s"])
    requires forall q :: q in t && ["c"] < q ==> q == ["c", "x"]
    ensures Undercut.Wiped(job, t, ["c"])
  {
    var r := Unlink(Linked("s", ["c", "x"]));
    assert LinkDest(r.entry) == ["s"] && r.At() == ["c", "x"] && Live(t, r.entry);
    assert ["c", "x"] in Emptied.LiveOnes(t, job.Removes(job.prev));
    assert ["c"] < ["c", "x"];
  }

  lemma StaleIsHollow()
    ensures Undercut.Lost(Stale(), Copied("d", ["c"]))
  {
    StaleVerdict();
    StaleLeftover();
    hide Job.Judge, Job.Leave, Undercut.Wiped;
    RemoveIsListed(Stale(), Stale().prev, Linked("s", ["c", "x"]));
    OneStaleLink(Stale(), Stale().view.tree);
  }

  /** The copy is reported as left alone; a run without failures takes it away. */
  lemma CopyIsLost(limits: seq<nat>)
    requires |limits| == |Stale().Removes(Stale().prev)| && Unlimited(Stale().Removes(Stale().prev), limits)
    ensures !Outcomes.InPlace(Stale().view.world, End(Stale().view.world, Stale().view.tree, Schedule(Stale(), false, limits)),
                              Copied("d", ["c"]))
  {
    hide Steady, Outcomes.InPlace, Undercut.Lost, End, Schedule, Unlimited;
    StaleIsSteady();
    StaleIsHollow();
    Undercut.ConvergesExactly(Stale(), limits);
    assert Copied("d", ["c"]) in Stale().next;
  }

  // The same with --backup, and a source that brings the stale link back, or does not.

  function Source(back: bool): World {
    World(p => if p == ["d"] then Found(Dir) else NotExist,
          p => if back then map[[] := Dir, ["x"] := Link(["s"])] else map[[] := Dir])
  }

  function Renewed(back: bool): Job {
    Job([Linked("s", ["c", "x"])], [Copied("d", ["c"])],
        View(map[[] := Dir, ["c"] := Dir, ["c", "x"] := Link(["s"])], Source(back)), Options(true, ""))
  }

  lemma RenewedWorld(back: bool)
    ensures ValidWorld(Source(back))
  {
    var t := Source(back).content(["d"]);
    assert Parent(["x"]) == [] && forall r :: r in t && r != [] ==> r == ["x"];
  }

  lemma RenewedIsValid(back: bool)
    ensures Standing(Renewed(back))
  {
    var job := Renewed(back);
    RenewedWorld(back);
    assert Parent(["c"]) == [] && Parent(["c", "x"]) == ["c"];
    assert forall p :: p in job.view.tree && p != [] ==> p == ["c"] || p == ["c", "x"];
    OneEach(job, Linked("s", ["c", "x"]), Copied("d", ["c"]));
  }

  lemma RenewedVerdict(back: bool)
    ensures Renewed(back).Judge(Copied("d", ["c"])) == Aside(false)
  {
    var job := Renewed(back);
    assert job.AncestorSymlink(["c"], 1) == NoLink;
    assert ["c"] !in job.PrevBy();
    assert LinkDest(Copied("d", ["c"])) == ["d"];
    var aside := WithSuffix(["c"], "layat-backup");
    assert |aside| == 1 && aside != ["c"] && aside !in job.view.tree;
    assert Nearest(job.view.tree, aside) == [];
  }

  lemma RenewedLeftover(back: bool)
    ensures Renewed(back).Leave(Linked("s", ["c", "x"])) == Doomed
  {
    RenewedVerdict(back);
    hide Job.Judge, Job.Leave;
    assert |["c"]| != |["c", "x"]|;
    assert LinkDest(Linked("s", ["c", "x"])) == ["s"];
    OneDoomed(Renewed(back), Linked("s", ["c", "x"]), Copied("d", ["c"]));
  }

  lemma RenewedIsAccepted(back: bool)
    ensures Renewed(back).Accepted() && SourcesExist(Renewed(back))
  {
    RenewedVerdict(back);
    RenewedLeftover(back);
    hide Job.Judge, Job.Leave;
    OneAccepted(Renewed(back), Linked("s", ["c", "x"]), Copied("d", ["c"]));
    assert LinkDest(Copied("d", ["c"])) == ["d"];
    OneSource(Renewed(back), Copied("d", ["c"]));
  }

  lemma RenewedSources(back: bool)
    ensures SourcesForeign(Renewed(back))
  {
    hide Job.Judge;
    var job := Renewed(back);
    assert ["c", "x"][1..] == ["x"] && LinkDest(Copied("d", ["c"])) == ["d"];
    if !back { assert Nearest(job.view.world.content(["d"]), ["x"]) == []; }
  }

  lemma RenewedIsSteady(back: bool)
    ensures Steady(Renewed(back))
  {
    hide Standing, SourcesExist, SourcesForeign, Job.Accepted;
    RenewedIsValid(back);
    RenewedIsAccepted(back);
    RenewedSources(back);
  }

  lemma ReturningIsWiped()
    ensures Undercut.Wiped(Renewed(true), Undercut.Fresh(Renewed(true), Copied("d", ["c"])), ["c"])
  {
    var job := Renewed(true);
    RenewedLeftover(true);
    hide Job.Leave, Undercut.Wiped, Undercut.Fresh;
    RemoveIsListed(job, job.prev, Linked("s", ["c", "x"]));
    FreshReturns();
    OneStaleLink(job, Undercut.Fresh(job, Copied("d", ["c"])));
  }

  lemma ReturningIsLost()
    ensures Undercut.Lost(Renewed(true), Copied("d", ["c"]))
  {
    RenewedVerdict(true);
    hide Job.Judge, Undercut.Wiped, Undercut.Fresh;
    ReturningIsWiped();
  }

  lemma FreshReturns()
    ensures Undercut.Fresh(Renewed(true), Copied("d", ["c"])) == map[["c"] := Dir, ["c", "x"] := Link(["s"])]
  {
    assert ["c"] + [] == ["c"] && ["c"] + ["x"] == ["c", "x"] && ["c", "x"][1..] == ["x"] && ["c"][1..] == [];
    assert LinkDest(Copied("d", ["c"])) == ["d"];
  }

  /** The stale link goes aside with the old copy, comes back with the new one, and takes it along. */
  lemma FreshCopyIsLost(limits: seq<nat>)
    requires |limits| == |Renewed(true).Removes(Renewed(true).prev)|
    requires Unlimited(Renewed(true).Removes(Renewed(true).prev), limits)
    ensures !Outcomes.InPlace(Renewed(true).view.world,
                              End(Renewed(true).view.world, Renewed(true).view.tree, Schedule(Renewed(true), false, limits)),
                              Copied("d", ["c"]))
  {
    hide Steady, Outcomes.InPlace, Undercut.Lost, End, Schedule, Unlimited;
    RenewedIsSteady(true);
    ReturningIsLost();
    Undercut.ConvergesExactly(Renewed(true), limits);
    assert Copied("d", ["c"]) in Renewed(true).next;
  }

  lemma NothingReturns()
    ensures Reports.Swallowed(Renewed(false), Linked("s", ["c", "x"]))
  {
    var job, e, pe := Renewed(false), Copied("d", ["c"]), Linked("s", ["c", "x"]);
    RenewedVerdict(false);
    RenewedLeftover(false);
    hide Job.Judge, Job.Leave;
    assert ["c"] < ["c", "x"] && Crosses(job, e, pe);
    assert pe.target[1..] == ["x"];
    forall f | Crosses(job, f, pe) ensures !Brings(job, f, pe) { assert f == e; }
  }

  /** The stale link goes aside with the old copy and stays there: it is not removed as the dry run said. */
  lemma DryRunIsWrong(limits: seq<nat>)
    requires |limits| == |Renewed(false).Removes(Renewed(false).prev)|
    ensures !Reports.Foretells(
              Reports.Preview(Renewed(false).ThePlan()),
              Reports.Reported(RunAll(Renewed(false).view.world, Renewed(false).view.tree, Schedule(Renewed(false), false, limits)).events))
  {
    hide Steady, RunAll, Schedule, Reports.Foretells, Reports.Swallowed;
    RenewedIsSteady(false);
    NothingReturns();
    Reports.DryRunForetells(Renewed(false), limits);
  }

  // `a` is a recorded link; next wants a copy of a file within the same source there.

  const DEEP: World :=
    World(p => if p == ["s", "f"] then Found(File("new")) else NotExist, p => map[[] := File("new")])

  function Within(): Entry {
    Entry(["s"], ["f"], ["a"], Copy)
  }

  function Converting(): Job {
    Job([Linked("s", ["a"])], [Within()], View(map[[] := Dir, ["a"] := Link(["s"])], DEEP), NO_BACKUP)
  }

  lemma ConvertingIsValid()
    ensures Standing(Converting()) && Converting().Valid()
  {
    var job := Converting();
    assert Parent(["a"]) == [] && Parent(["s", "f"]) == ["s"];
    assert forall p :: p in job.view.tree && p != [] ==> p == ["a"];
    OneEach(job, Linked("s", ["a"]), Within());
  }

  lemma ConvertingVerdict()
    ensures Converting().Judge(Within()) == Converted && LinkDest(Within()) == ["s", "f"]
  {
    ConvertingIsValid();
    assert LinkDest(Linked("s", ["a"])) == ["s"];
    Verdicts.JudgeCopyTarget(Converting(), Within());
  }

  lemma ConvertingIsSteady()
    ensures Steady(Converting())
  {
    var job, pe := Converting(), Linked("s", ["a"]);
    ConvertingIsValid();
    ConvertingVerdict();
    hide Job.Judge, Standing, Lstat;
    assert pe.target in job.NextBy();
    OneAccepted(job, pe, Within());
    OneSource(job, Within());
  }

  lemma HoldsTheFile(u: Tree)
    requires Contents.HoldsSource(DEEP, u, Within())
    ensures ["a"] in u && u[["a"]] == File("new")
  {
    assert ["a"] + [] == ["a"] && [] in DEEP.content(LinkDest(Within()));
  }

  lemma ConvertingIs()
    ensures Converting().view.world == DEEP && StillRecorded(Converting().view, Linked("s", ["a"]))
    ensures Linked("s", ["a"]) in Converting().prev && Within() in Converting().next
    ensures ["a"] in Converting().view.tree && Linked("s", ["a"]).target == Within().target == ["a"]
    ensures Linked("s", ["a"]).how == Symlink && Within().how == Copy
  {
    assert LinkDest(Linked("s", ["a"])) == ["s"];
  }

  /** The link is unlinked, and `a` is the file `f` of the source. */
  lemma LinkIsConverted(limits: seq<nat>)
    requires |limits| == |Converting().Removes(Converting().prev)|
    ensures Unlink(Linked("s", ["a"])) in Converting().PreRemoves(Converting().next)
    ensures var u := End(DEEP, Converting().view.tree, Schedule(Converting(), false, limits));
            ["a"] in u && u[["a"]] == File("new")
  {
    ConvertingIsSteady();
    ConvertingIs();
    hide *;
    Contents.LinkBecomesCopy(Converting(), limits, Within(), Linked("s", ["a"]));
    HoldsTheFile(End(DEEP, Converting().view.tree, Schedule(Converting(), false, limits)));
  }

  // `a/b` is a recorded link; next wants `a` itself to lead to a file.

  const FILE: World :=
    World(p => if p == ["f"] then Found(File("")) else if ["f"] < p then Fault else NotExist, p => map[[] := File("")])

  function Blocked(): Job {
    Job([Linked("s", ["a", "b"])], [Linked("f", ["a"])],
        View(map[[] := Dir, ["a"] := Dir, ["a", "b"] := Link(["s"])], FILE), NO_BACKUP)
  }

  /** After this run, cut short before its commit, the manifests cannot be planned again. */
  lemma BlockedIsStuck(limits: seq<nat>)
    requires |limits| == |Blocked().Removes(Blocked().prev)|
    ensures Blocked().Accepted()
    ensures !Crash.Again(Blocked(), End(Blocked().view.world, Blocked().view.tree, Schedule(Blocked(), false, limits))).Accepted()
  {
    BlockedIsPlain();
    BlockedIsTidy();
    Crash.AcceptedExactlyTidy(Blocked());
    BlockedIsNotRecoverable();
    Crash.UncommittedIsStuck(Blocked(), limits);
  }

  lemma BlockedIsValid()
    ensures Blocked().Valid()
  {
    var job := Blocked();
    assert Parent(["a"]) == [] && Parent(["a", "b"]) == ["a"];
    assert forall p :: p in job.view.tree && p != [] ==> p == ["a"] || p == ["a", "b"];
  }

  lemma BlockedIsPlain()
    ensures Crash.Plain(Blocked())
  {
    BlockedIsValid();
    OneEach(Blocked(), Linked("s", ["a", "b"]), Linked("f", ["a"]));
  }

  lemma BlockedIsTidy()
    ensures Crash.Tidy(Blocked())
  {
    var job, e, pe := Blocked(), Linked("f", ["a"]), Linked("s", ["a", "b"]);
    assert job.next == [e] && job.prev == [pe] && LinkDest(pe) == ["s"];
    assert ["a", "b"] !in job.NextBy() by { assert |["a"]| != |["a", "b"]|; }
    assert Readlink(job.view, ["a", "b"]) == Some(["s"]);
    assert Droppable(job, ["a", "b"]);
  }

  lemma BlockedIsNotRecoverable()
    ensures !Crash.Recoverable(Blocked())
  {
    var job, e, pe := Blocked(), Linked("f", ["a"]), Linked("s", ["a", "b"]);
    assert e in job.next && pe in job.prev;
    assert pe.target !in job.NextBy() by { assert |["a"]| != |["a", "b"]|; }
    assert LinkDest(e) == ["f"] && ["a", "b"][1..] == ["b"];
    assert ["f"] < ["f"] + ["b"];
  }

  // A copy under --recopy, with the aside of an interrupted run still there.

  const NEW: World :=
    World(p => if p == ["d"] then Found(File("new")) else NotExist, p => map[[] := File("new")])

  const ASIDE: Target := ["c.layat-recopy-aside"]

  function Interrupted(): Job {
    Job([Copied("d", ["c"])], [Copied("d", ["c"])],
        View(map[[] := Dir, ["c"] := File("half"), ASIDE := File("mine")], NEW), NO_BACKUP)
  }

  lemma InterruptedTree()
    ensures Interrupted().Valid()
  {
    var job := Interrupted();
    assert Parent(["c"]) == [] && Parent(ASIDE) == [];
    assert forall p :: p in job.view.tree && p != [] ==> p == ["c"] || p == ASIDE;
  }

  lemma InterruptedNames()
    ensures AsideOf(Copied("d", ["c"])) == ASIDE && AsidesFree(Interrupted().next, RECOPY_SUFFIX)
  {
    assert "c" + "." + RECOPY_SUFFIX == "c.layat-recopy-aside";
    assert Parent(["c"]) == [];
    assert WithSuffix(["c"], RECOPY_SUFFIX) == ASIDE;
  }

  lemma InterruptedIsValid()
    ensures Standing(Interrupted()) && AsidesNamed(Interrupted()) && AsideOf(Copied("d", ["c"])) == ASIDE
  {
    var job, e := Interrupted(), Copied("d", ["c"]);
    InterruptedTree();
    InterruptedNames();
    hide ValidTree, ValidWorld, AsideOf, AsidesFree, Standing;
    OneEach(job, e, e);
    Crash.PlainHasNoBackup(job, job.next);
  }

  lemma InterruptedVerdict()
    ensures Interrupted().Judge(Copied("d", ["c"])) == KeptCopy
  {
    var job := Interrupted();
    assert job.AncestorSymlink(["c"], 1) == NoLink;
    assert LinkDest(Copied("d", ["c"])) == ["d"];
  }

  lemma InterruptedIsAccepted()
    ensures Interrupted().Accepted() && SourcesExist(Interrupted())
  {
    InterruptedVerdict();
    hide Job.Judge;
    OneAccepted(Interrupted(), Copied("d", ["c"]), Copied("d", ["c"]));
    assert LinkDest(Copied("d", ["c"])) == ["d"];
    OneSource(Interrupted(), Copied("d", ["c"]));
  }

  lemma InterruptedIsRunnable()
    ensures Runnable(Interrupted())
  {
    InterruptedIsValid();
    InterruptedIsAccepted();
    hide Interrupted, Orderly, Job.Accepted, SourcesExist, AsidesNamed, AsideOf;
  }

  lemma InterruptedLoses()
    ensures LosesAside(Interrupted(), 0)
  {
    InterruptedIsValid();
    InterruptedVerdict();
    hide Job.Judge, Standing, AsidesNamed, WithSuffix;
    assert ASIDE != ["c"];
  }

  lemma InterruptedAside()
    ensures |Interrupted().next| == 1 && Interrupted().next[0] == Copied("d", ["c"])
  {
  }

  /** A second run that fails leaves the file the first one set aside lost for good. */
  lemma LeftoverIsLost(limits: seq<nat>) returns (cut: seq<Event>)
    requires |limits| == |Interrupted().Removes(Interrupted().prev)|
    ensures Fails(Interrupted(), true, limits, cut)
    ensures ASIDE in Interrupted().view.tree && ASIDE !in Unwound(Interrupted().view.tree, cut)
  {
    InterruptedIsValid();
    InterruptedIsRunnable();
    InterruptedLoses();
    hide *;
    InterruptedAside();
    cut := Leftovers.AsideIsLost(Interrupted(), limits, 0);
  }

  /** A file that appeared at a copy's target is lost when the run is unwound. */
  lemma ReplacedCopyIsLost()
    ensures var v := View(map[[] := Dir, ["c"] := File("mine")], NEW);
            && RunCopy(v, Copied("d", ["c"])).done
            && ["c"] !in Unwound(v.tree, RunCopy(v, Copied("d", ["c"])).events)
  {
    var v, e := View(map[[] := Dir, ["c"] := File("mine")], NEW), Copied("d", ["c"]);
    assert Parent(["c"]) == [] && LinkDest(e) == ["d"];
    assert forall p :: p in v.tree && p != [] ==> p == ["c"];
    assert GivesWay(v.tree, ["c"] + [], File("new")) by { assert ["c"] + [] == ["c"]; }
    Leftovers.CopyIsUndoneExactly(v, e);
  }
}
