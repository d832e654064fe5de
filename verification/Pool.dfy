/** apply --all: a pool of workers fed by a channel, and what its callers make of the outcomes. */
module Pool {
  import opened Sequences

  datatype Slot<R> = Unset | Set(value: R)

  datatype Worker = Waiting | Busy(index: nat) | Gone

  /** `next` is the index the sender offers next; `started` lists the indices handed out, in order. */
  datatype State<R> = State(next: nat, closed: bool, workers: seq<Worker>, slots: seq<Slot<R>>, started: seq<nat>)

  /** The channel is unbuffered: a send and a receive happen together. */
  datatype Step = Hand(worker: nat) | Finish(worker: nat) | Close | Leave(worker: nat)

  function Min(a: nat, b: nat): nat {
    if a < b then a else b
  }

  function Start<R>(n: nat, jobs: nat): State<R> {
    State(0, false, seq(Min(jobs, n), i => Waiting), seq(n, i => Unset), [])
  }

  predicate Can<R>(s: State<R>, step: Step) {
    match step
    case Hand(w) => w < |s.workers| && s.workers[w] == Waiting && s.next < |s.slots|
    case Finish(w) => w < |s.workers| && s.workers[w].Busy? && s.workers[w].index < |s.slots|
    case Close => s.next == |s.slots| && !s.closed
    case Leave(w) => w < |s.workers| && s.workers[w] == Waiting && s.closed
  }

  function Do<R>(s: State<R>, step: Step, work: nat -> R): State<R>
    requires Can(s, step)
  {
    match step
    case Hand(w) => s.(next := s.next + 1, workers := s.workers[w := Busy(s.next)], started := s.started + [s.next])
    case Finish(w) =>
      var i := s.workers[w].index;
      s.(workers := s.workers[w := Waiting], slots := s.slots[i := Set(work(i))])
    case Close => s.(closed := true)
    case Leave(w) => s.(workers := s.workers[w := Gone])
  }

  /** wg.Wait() has returned. */
  predicate Joined<R>(s: State<R>) {
    s.closed && forall w :: 0 <= w < |s.workers| ==> s.workers[w] == Gone
  }

  ghost predicate Invariant<R>(s: State<R>, n: nat, jobs: nat, work: nat -> R) {
    && |s.slots| == n && |s.workers| == Min(jobs, n) && s.next <= n && (s.closed ==> s.next == n)
    && s.started == seq(s.next, i => i)
    && (forall w :: 0 <= w < |s.workers| && s.workers[w].Busy? ==> s.workers[w].index < s.next && s.slots[s.workers[w].index] == Unset)
    && (forall v, w :: 0 <= v < w < |s.workers| && s.workers[v].Busy? && s.workers[w].Busy? ==>
          s.workers[v].index != s.workers[w].index)
    && (forall i :: 0 <= i < n ==> s.slots[i] == Unset || s.slots[i] == Set(work(i)))
    && (forall i :: s.next <= i < n ==> s.slots[i] == Unset)
    && (forall i :: 0 <= i < s.next && s.slots[i] == Unset ==> Held(s, i))
    && (forall w :: 0 <= w < |s.workers| && s.workers[w] == Gone ==> s.closed)
  }

  /** Some worker is at work on the index. */
  ghost predicate Held<R>(s: State<R>, i: nat) {
    exists w :: 0 <= w < |s.workers| && s.workers[w] == Busy(i)
  }

  lemma StartsWell<R>(n: nat, jobs: nat, work: nat -> R)
    ensures Invariant(Start<R>(n, jobs), n, jobs, work)
  {
  }

  lemma HandKeeps<R>(s: State<R>, w: nat, n: nat, jobs: nat, work: nat -> R)
    requires Invariant(s, n, jobs, work) && Can(s, Hand(w))
    ensures Invariant(Do(s, Hand(w), work), n, jobs, work)
  {
    var t := Do(s, Hand(w), work);
    assert s.started + [s.next] == seq(s.next + 1, i => i);
    forall i | 0 <= i < t.next && t.slots[i] == Unset ensures Held(t, i) {
      if i == s.next {
        assert t.workers[w] == Busy(i);
      } else {
        var v :| 0 <= v < |s.workers| && s.workers[v] == Busy(i);
        assert t.workers[v] == Busy(i);
      }
    }
  }

  lemma FinishKeeps<R>(s: State<R>, w: nat, n: nat, jobs: nat, work: nat -> R)
    requires Invariant(s, n, jobs, work) && Can(s, Finish(w))
    ensures Invariant(Do(s, Finish(w), work), n, jobs, work)
  {
    var t, k := Do(s, Finish(w), work), s.workers[w].index;
    forall v | 0 <= v < |t.workers| && t.workers[v].Busy?
      ensures t.workers[v].index < t.next && t.slots[t.workers[v].index] == Unset
    {
      assert s.workers[v] == t.workers[v];
      if v < w { assert s.workers[v].index != k; } else { assert w < v && s.workers[v].index != k; }
    }
    forall i | 0 <= i < t.next && t.slots[i] == Unset ensures Held(t, i) {
      var v :| 0 <= v < |s.workers| && s.workers[v] == Busy(i);
      assert t.workers[v] == Busy(i);
    }
  }

  lemma LeaveKeeps<R>(s: State<R>, step: Step, n: nat, jobs: nat, work: nat -> R)
    requires Invariant(s, n, jobs, work) && Can(s, step) && (step.Leave? || step.Close?)
    ensures Invariant(Do(s, step, work), n, jobs, work)
  {
    var t := Do(s, step, work);
    forall i | 0 <= i < t.next && t.slots[i] == Unset ensures Held(t, i) {
      var v :| 0 <= v < |s.workers| && s.workers[v] == Busy(i);
      assert t.workers[v] == Busy(i);
    }
  }

  /** What every step keeps. */
  lemma StepKeeps<R>(s: State<R>, step: Step, n: nat, jobs: nat, work: nat -> R)
    requires Invariant(s, n, jobs, work) && Can(s, step)
    ensures Invariant(Do(s, step, work), n, jobs, work)
  {
    match step
    case Hand(w) => HandKeeps(s, w, n, jobs, work);
    case Finish(w) => FinishKeeps(s, w, n, jobs, work);
    case Close => LeaveKeeps(s, step, n, jobs, work);
    case Leave(w) => LeaveKeeps(s, step, n, jobs, work);
  }

  /** No state before completion is stuck. */
  lemma Progress<R>(s: State<R>, n: nat, jobs: nat, work: nat -> R) returns (step: Step)
    requires Invariant(s, n, jobs, work) && jobs >= 1 && !Joined(s)
    ensures Can(s, step)
  {
    if w :| 0 <= w < |s.workers| && s.workers[w].Busy? {
      return Finish(w);
    }
    if s.closed {
      var w :| 0 <= w < |s.workers| && s.workers[w] != Gone;
      return Leave(w);
    }
    return if s.next == n then Close else Hand(0);
  }

  function Weight(workers: seq<Worker>): nat {
    if workers == [] then 0
    else
      Weight(workers[..|workers| - 1])
      + match workers[|workers| - 1]
        case Waiting => 1
        case Busy(_) => 2
        case Gone => 0
  }

  /** How many steps are left. */
  function Remaining<R>(s: State<R>): nat
    requires s.next <= |s.slots|
  {
    2 * (|s.slots| - s.next) + Weight(s.workers) + if s.closed then 0 else 1
  }

  lemma {:induction false} WeightUpdate(workers: seq<Worker>, w: nat, x: Worker)
    requires w < |workers|
    ensures Weight(workers[w := x]) - Weight(workers)
            == (match x case Waiting => 1 case Busy(_) => 2 case Gone => 0)
             - (match workers[w] case Waiting => 1 case Busy(_) => 2 case Gone => 0)
    decreases |workers|
  {
    var init := workers[..|workers| - 1];
    if w == |workers| - 1 {
      assert workers[w := x][..|workers| - 1] == init;
    } else {
      assert workers[w := x][..|workers| - 1] == init[w := x];
      WeightUpdate(init, w, x);
    }
  }

  /** Every step brings the end closer by exactly one, so no schedule is longer than another. */
  lemma StepCounts<R>(s: State<R>, step: Step, n: nat, jobs: nat, work: nat -> R)
    requires Invariant(s, n, jobs, work) && Can(s, step)
    ensures var t := Do(s, step, work); t.next <= |t.slots| && Remaining(t) == Remaining(s) - 1
  {
    StepKeeps(s, step, n, jobs, work);
    match step
    case Hand(w) => WeightUpdate(s.workers, w, Busy(s.next));
    case Finish(w) => WeightUpdate(s.workers, w, Waiting);
    case Close =>
    case Leave(w) => WeightUpdate(s.workers, w, Gone);
  }

  function InOrder<R>(n: nat, work: nat -> R): seq<R> {
    seq(n, i requires 0 <= i => work(i))
  }

  function Taken<R>(slots: seq<Slot<R>>): seq<R>
    requires forall i :: 0 <= i < |slots| ==> slots[i].Set?
  {
    seq(|slots|, i requires 0 <= i < |slots| => slots[i].value)
  }

  /** When the pool has joined, every index was handed out exactly once and every slot holds the outcome
      of its own index. */
  lemma JoinedIsComplete<R>(s: State<R>, n: nat, jobs: nat, work: nat -> R)
    requires Invariant(s, n, jobs, work) && Joined(s)
    ensures s.started == seq(n, i => i)
    ensures forall i :: 0 <= i < |s.slots| ==> s.slots[i].Set?
    ensures Taken(s.slots) == InOrder(n, work)
  {
    forall i | 0 <= i < n ensures s.slots[i] == Set(work(i)) { NoneHeld(s, i); }
  }

  lemma NoneHeld<R>(s: State<R>, i: nat)
    requires Joined(s)
    ensures !Held(s, i)
  {
  }

  // Schedules.

  /** The state after the steps of a schedule, as far as each can be taken. */
  ghost predicate Schedules<R>(s: State<R>, steps: seq<Step>, t: State<R>, work: nat -> R)
    decreases |steps|
  {
    if steps == [] then s == t else Can(s, steps[0]) && Schedules(Do(s, steps[0], work), steps[1..], t, work)
  }

  lemma {:induction false} ScheduleKeeps<R>(s: State<R>, steps: seq<Step>, t: State<R>, n: nat, jobs: nat, work: nat -> R)
    requires Invariant(s, n, jobs, work) && Schedules(s, steps, t, work)
    ensures Invariant(t, n, jobs, work) && Remaining(t) == Remaining(s) - |steps|
    decreases |steps|
  {
    if steps != [] {
      StepKeeps(s, steps[0], n, jobs, work);
      StepCounts(s, steps[0], n, jobs, work);
      ScheduleKeeps(Do(s, steps[0], work), steps[1..], t, n, jobs, work);
    }
  }

  function InFlight<R>(s: State<R>): set<nat> {
    set w | 0 <= w < |s.workers| && s.workers[w].Busy? :: s.workers[w].index
  }

  lemma {:induction false} IndexCount(workers: seq<Worker>)
    ensures |set w | 0 <= w < |workers| && workers[w].Busy? :: workers[w].index| <= |workers|
  {
    var all := set w | 0 <= w < |workers| && workers[w].Busy? :: workers[w].index;
    if workers != [] {
      var init := workers[..|workers| - 1];
      IndexCount(init);
      var before := set w | 0 <= w < |init| && init[w].Busy? :: init[w].index;
      var last := workers[|workers| - 1];
      assert all <= before + (if last.Busy? then {last.index} else {}) by {
        forall x | x in all ensures x in before + (if last.Busy? then {last.index} else {}) {
          var w :| 0 <= w < |workers| && workers[w].Busy? && workers[w].index == x;
          if w < |init| { assert init[w] == workers[w]; }
        }
      }
      SubsetSize(all, before + if last.Busy? then {last.index} else {});
    }
  }

  lemma {:induction false} SubsetSize(a: set<nat>, b: set<nat>)
    requires a <= b
    ensures |a| <= |b|
    decreases |a|
  {
    if x :| x in a { SubsetSize(a - {x}, b - {x}); }
  }

  /** The pool refines the sequential loop. In every schedule, at every point: never more than
      min(jobs, n) indices in flight, no index handed out twice, and some step possible until the pool
      has joined. Once it has, whatever the schedule, the outcomes are those of the loop in order. */
  lemma PoolRefinesLoop<R>(n: nat, jobs: nat, work: nat -> R, steps: seq<Step>, t: State<R>)
    requires jobs >= 1 && Schedules(Start<R>(n, jobs), steps, t, work)
    ensures |t.workers| == (if jobs < n then jobs else n) && |InFlight(t)| <= |t.workers|
    ensures forall i, j :: 0 <= i < j < |t.started| ==> t.started[i] != t.started[j]
    ensures |steps| <= 2 * n + |t.workers| + 1
    ensures Joined(t) <==> !exists step :: Can(t, step)
    ensures Joined(t) ==> (forall i :: 0 <= i < |t.slots| ==> t.slots[i].Set?) && Taken(t.slots) == InOrder(n, work)
    ensures Joined(t) ==> |steps| == 2 * n + |t.workers| + 1 && t.started == seq(n, i => i)
  {
    StartsWell(n, jobs, work);
    ScheduleKeeps(Start<R>(n, jobs), steps, t, n, jobs, work);
    IndexCount(t.workers);
    AllWaiting(Min(jobs, n));
    if Joined(t) {
      JoinedIsComplete(t, n, jobs, work);
      AllGone(t.workers);
    } else {
      var step := Progress(t, n, jobs, work);
    }
  }

  lemma {:induction false} AllWaiting(k: nat)
    ensures Weight(seq(k, i => Waiting)) == k
  {
    if k > 0 {
      assert seq(k, i => Waiting)[..k - 1] == seq(k - 1, i => Waiting);
      AllWaiting(k - 1);
    }
  }

  lemma {:induction false} AllGone(workers: seq<Worker>)
    requires forall w :: 0 <= w < |workers| ==> workers[w] == Gone
    ensures Weight(workers) == 0
  {
    if workers != [] { AllGone(workers[..|workers| - 1]); }
  }

  // The callers.

  /** Some step that can be taken: whichever the scheduler picks, or else the first one found. */
  method Pick<R>(s: State<R>, n: nat, jobs: nat, ghost work: nat -> R) returns (step: Step)
    requires Invariant(s, n, jobs, work) && jobs >= 1 && !Joined(s)
    ensures Can(s, step)
  {
    var wish: Step := *;
    if Can(s, wish) { return wish; }
    for w := 0 to |s.workers|
      invariant forall v :: 0 <= v < w ==> !s.workers[v].Busy? && (s.closed ==> s.workers[v] == Gone)
    {
      if s.workers[w].Busy? { return Finish(w); }
      if s.closed && s.workers[w] == Waiting { return Leave(w); }
    }
    return if s.next == n then Close else Hand(0);
  }

  /** forEachConfig: the outcomes, whatever the schedule. */
  method ForEach<R>(n: nat, jobs: nat, work: nat -> R) returns (outcomes: seq<R>)
    requires jobs >= 1
    ensures outcomes == InOrder(n, work)
  {
    var s := Start<R>(n, jobs);
    StartsWell(n, jobs, work);
    while !Joined(s)
      invariant Invariant(s, n, jobs, work)
      decreases Remaining(s)
    {
      var step := Pick(s, n, jobs, work);
      StepKeeps(s, step, n, jobs, work);
      StepCounts(s, step, n, jobs, work);
      s := Do(s, step, work);
    }
    JoinedIsComplete(s, n, jobs, work);
    outcomes := Taken(s.slots);
  }

  datatype Settled = Settled(stdout: string, stderr: string, skipped: bool, failed: bool)

  /** What apply --all reports: counts, and the buffered output in order. */
  datatype Tally = Tally(applied: nat, skipped: nat, failures: nat, stdout: string, stderr: string)

  function Tallied(outcomes: seq<Settled>): Tally {
    if outcomes == [] then Tally(0, 0, 0, "", "")
    else
      var t, o := Tallied(outcomes[..|outcomes| - 1]), outcomes[|outcomes| - 1];
      Tally(t.applied + (if !o.skipped && !o.failed then 1 else 0), t.skipped + (if o.skipped then 1 else 0),
            t.failures + (if !o.skipped && o.failed then 1 else 0), t.stdout + o.stdout, t.stderr + o.stderr)
  }

  /** The tally of two runs in a row is that of each put together, in that order. */
  lemma {:induction false} TallyConcat(a: seq<Settled>, b: seq<Settled>)
    ensures var s, t, all := Tallied(a), Tallied(b), Tallied(a + b);
            all == Tally(s.applied + t.applied, s.skipped + t.skipped, s.failures + t.failures,
                         s.stdout + t.stdout, s.stderr + t.stderr)
    decreases |b|
  {
    if b == [] {
      EmptyEnd(a, b);
      EmptyEnd(Tallied(a).stdout, "");
      EmptyEnd(Tallied(a).stderr, "");
    } else {
      var init, o := b[..|b| - 1], b[|b| - 1];
      LastOf(b);
      SnocConcat(a, init, o);
      ButLast(a + init, o);
      TallyConcat(a, init);
      Associates(Tallied(a).stdout, Tallied(init).stdout, o.stdout);
      Associates(Tallied(a).stderr, Tallied(init).stderr, o.stderr);
    }
  }

  function Applied(os: seq<Settled>): set<nat> {
    set i | 0 <= i < |os| && !os[i].skipped && !os[i].failed
  }

  function Skipped(os: seq<Settled>): set<nat> {
    set i | 0 <= i < |os| && os[i].skipped
  }

  function Failed(os: seq<Settled>): set<nat> {
    set i | 0 <= i < |os| && !os[i].skipped && os[i].failed
  }

  lemma OneMoreOutcome(init: seq<Settled>, o: Settled)
    ensures Applied(init + [o]) == Applied(init) + if !o.skipped && !o.failed then {|init|} else {}
    ensures Skipped(init + [o]) == Skipped(init) + if o.skipped then {|init|} else {}
    ensures Failed(init + [o]) == Failed(init) + if !o.skipped && o.failed then {|init|} else {}
  {
  }

  /** The counts are the numbers of outcomes of each kind. */
  lemma {:induction false} TallyCounts(os: seq<Settled>)
    ensures Tallied(os).applied == |Applied(os)|
    ensures Tallied(os).skipped == |Skipped(os)|
    ensures Tallied(os).failures == |Failed(os)|
  {
    if os != [] {
      var init, o := os[..|os| - 1], os[|os| - 1];
      LastOf(os);
      TallyCounts(init);
      OneMoreOutcome(init, o);
      hide Applied, Skipped, Failed;
      assert |init| !in Applied(init) && |init| !in Skipped(init) && |init| !in Failed(init) by { NotYet(init); }
    }
  }

  lemma NotYet(os: seq<Settled>)
    ensures |os| !in Applied(os) && |os| !in Skipped(os) && |os| !in Failed(os)
  {
  }

  /** Every config is counted once. */
  lemma {:induction false} TallySums(outcomes: seq<Settled>)
    ensures var t := Tallied(outcomes); t.applied + t.skipped + t.failures == |outcomes|
    ensures Tallied(outcomes).failures > 0 <==> exists i :: 0 <= i < |outcomes| && !outcomes[i].skipped && outcomes[i].failed
  {
    if outcomes != [] {
      var init := outcomes[..|outcomes| - 1];
      TallySums(init);
      if i :| 0 <= i < |outcomes| && !outcomes[i].skipped && outcomes[i].failed {
        if i < |init| { assert init[i] == outcomes[i]; }
      }
      if i :| 0 <= i < |init| && !init[i].skipped && init[i].failed { assert init[i] == outcomes[i]; }
    }
  }

  /** aggregateApply on any number of workers: the report of the plain loop. */
  method AggregateApply(n: nat, jobs: nat, work: nat -> Settled) returns (t: Tally)
    requires jobs >= 1
    ensures t == Tallied(InOrder(n, work)) && t.applied + t.skipped + t.failures == n
  {
    var outcomes := ForEach(n, jobs, work);
    t := Tally(0, 0, 0, "", "");
    for i := 0 to |outcomes|
      invariant t == Tallied(outcomes[..i])
    {
      Prefix(outcomes, i + 1);
      var o := outcomes[i];
      t := t.(stdout := t.stdout + o.stdout, stderr := t.stderr + o.stderr);
      if o.skipped {
        t := t.(skipped := t.skipped + 1);
      } else if o.failed {
        t := t.(failures := t.failures + 1);
      } else {
        t := t.(applied := t.applied + 1);
      }
    }
    Whole(outcomes);
    TallySums(outcomes);
  }

  datatype Foreseen = Foreseen(stdout: string, stderr: string, failed: bool, conflict: bool)

  /** The buffered output of the plans, flushed in order. */
  function Shown(outcomes: seq<Foreseen>): (string, string) {
    if outcomes == [] then ("", "")
    else
      var before, o := Shown(outcomes[..|outcomes| - 1]), outcomes[|outcomes| - 1];
      (before.0 + o.stdout, before.1 + o.stderr)
  }

  lemma Associates(x: string, y: string, z: string)
    ensures (x + y) + z == x + (y + z)
  {
  }

  lemma {:induction false} ShownConcat(a: seq<Foreseen>, b: seq<Foreseen>)
    ensures Shown(a + b) == (Shown(a).0 + Shown(b).0, Shown(a).1 + Shown(b).1)
    decreases |b|
  {
    if b == [] {
      EmptyEnd(a, b);
      EmptyEnd(Shown(a).0, "");
      EmptyEnd(Shown(a).1, "");
    } else {
      var init, o := b[..|b| - 1], b[|b| - 1];
      LastOf(b);
      SnocConcat(a, init, o);
      ButLast(a + init, o);
      ShownConcat(a, init);
      Associates(Shown(a).0, Shown(init).0, o.stdout);
      Associates(Shown(a).1, Shown(init).1, o.stderr);
    }
  }

  function ExitCode(anyError: bool, anyConflict: bool): int {
    if anyError then 1 else if anyConflict then 2 else 0
  }

  /** aggregateDryRun on any number of workers: the output of the plain loop, in order; an error anywhere
      decides the exit code, a conflict only where there is no error. */
  method AggregateDryRun(n: nat, jobs: nat, work: nat -> Foreseen) returns (code: int, stdout: string, stderr: string)
    requires jobs >= 1
    ensures code == 1 <==> exists i: nat :: i < n && work(i).failed
    ensures code == 2 <==> (forall i: nat :: i < n ==> !work(i).failed) && exists i: nat :: i < n && work(i).conflict
    ensures code == 0 <==> forall i: nat :: i < n ==> !work(i).failed && !work(i).conflict
    ensures (stdout, stderr) == Shown(InOrder(n, work))
  {
    var outcomes := ForEach(n, jobs, work);
    var anyError, anyConflict := false, false;
    stdout, stderr := "", "";
    for i := 0 to n
      invariant anyError <==> exists k: nat :: k < i && work(k).failed
      invariant anyConflict <==> exists k: nat :: k < i && work(k).conflict
      invariant (stdout, stderr) == Shown(outcomes[..i])
    {
      assert outcomes[i] == work(i);
      Prefix(outcomes, i + 1);
      stdout, stderr := stdout + outcomes[i].stdout, stderr + outcomes[i].stderr;
      anyError := anyError || outcomes[i].failed;
      anyConflict := anyConflict || outcomes[i].conflict;
    }
    Whole(outcomes);
    code := ExitCode(anyError, anyConflict);
  }

  datatype Jobs = Workers(count: nat) | BadFlag

  /** --jobs: 0 is the processor count, a negative number an error. */
  function ResolveJobs(flag: int, processors: nat): (r: Jobs)
    requires processors >= 1
    ensures r.BadFlag? <==> flag < 0
    ensures r.Workers? ==> r.count == (if flag == 0 then processors else flag) && r.count >= 1
  {
    if flag < 0 then BadFlag else if flag == 0 then Workers(processors) else Workers(flag)
  }

  datatype Build = Built(storePath: string) | BuildFailed(error: string)

  /** prebuildAll: name to outcome, once every build has ended. */
  method PrebuildAll(selected: seq<string>, jobs: nat, build: string -> Build) returns (built: map<string, Build>)
    requires jobs >= 1
    ensures built.Keys == set i | 0 <= i < |selected| :: selected[i]
    ensures forall name :: name in built ==> built[name] == build(name)
  {
    var results := ForEach(|selected|, jobs, (i: nat) => if i < |selected| then build(selected[i]) else BuildFailed(""));
    built := map[];
    for i := 0 to |selected|
      invariant built.Keys == set k | 0 <= k < i :: selected[k]
      invariant forall name :: name in built ==> built[name] == build(name)
    {
      built := built[selected[i] := results[i]];
    }
  }

  function Together(texts: seq<string>): string {
    if texts == [] then "" else Together(texts[..|texts| - 1]) + texts[|texts| - 1]
  }

  /** The output is that of the configs, one after the other. */
  lemma {:induction false} TallyTexts(os: seq<Settled>)
    ensures Tallied(os).stderr == Together(seq(|os|, i requires 0 <= i < |os| => os[i].stderr))
    ensures (forall o :: o in os ==> o.stdout == "") ==> Tallied(os).stdout == ""
  {
    if os != [] {
      var init, texts := os[..|os| - 1], seq(|os|, i requires 0 <= i < |os| => os[i].stderr);
      LastOf(os);
      TallyTexts(init);
      assert texts[..|os| - 1] == seq(|init|, i requires 0 <= i < |init| => init[i].stderr);
      assert forall o :: o in init ==> o in os;
      if forall o :: o in os ==> o.stdout == "" { assert os[|os| - 1] in os; }
    }
  }

  /** What one config's apply came to: done, the lock was held, or an error. */
  datatype Attempt = Success | Held | Error(message: string)

  function Successes(os: seq<Attempt>): set<nat> {
    set i | 0 <= i < |os| && os[i].Success?
  }

  function Holdups(os: seq<Attempt>): set<nat> {
    set i | 0 <= i < |os| && os[i].Held?
  }

  function Errors(os: seq<Attempt>): set<nat> {
    set i | 0 <= i < |os| && os[i].Error?
  }

  /** How an attempt is counted and what it puts out, by the texts of the command. */
  function Settle(name: string, r: Attempt, text: (string, Attempt) -> string): Settled {
    Settled("", text(name, r), r.Held?, r.Error?)
  }

  /** skipFailedPrebuilds: a config whose build failed comes to that error, unapplied. */
  function Stage2(built: map<string, Build>, apply: string -> Attempt, name: string): Attempt
    requires name in built
  {
    match built[name]
    case BuildFailed(message) => Error(message)
    case Built(_) => apply(name)
  }

  /** apply --all, both stages. A config fails if its build or its apply does, and is applied or skipped
      only after its build went well; what is put out for it comes in the order of the selection. */
  method ApplyAll(selected: seq<string>, jobs: nat, build: string -> Build, apply: string -> Attempt,
                  text: (string, Attempt) -> string)
    returns (t: Tally, ghost outcomes: seq<Attempt>)
    requires jobs >= 1
    ensures |outcomes| == |selected|
    ensures forall i :: 0 <= i < |selected| && build(selected[i]).Built? ==> outcomes[i] == apply(selected[i])
    ensures forall i :: 0 <= i < |selected| && build(selected[i]).BuildFailed? ==>
              outcomes[i] == Error(build(selected[i]).error)
    ensures t.applied == |Successes(outcomes)|
    ensures t.skipped == |Holdups(outcomes)|
    ensures t.failures == |Errors(outcomes)|
    ensures t.stdout == "" && t.stderr == Together(seq(|selected|, i requires 0 <= i < |selected| => text(selected[i], outcomes[i])))
  {
    var built := PrebuildAll(selected, jobs, build);
    var none := Settled("", "", false, false);
    var work := (i: nat) =>
      if i < |selected| && selected[i] in built then Settle(selected[i], Stage2(built, apply, selected[i]), text) else none;
    t := AggregateApply(|selected|, jobs, work);
    outcomes := seq(|selected|, i requires 0 <= i < |selected| => Stage2(built, apply, selected[i]));
    SettledTally(InOrder(|selected|, work), selected, outcomes, text);
  }

  /** The tally of attempts, each settled under its name. */
  lemma SettledTally(settled: seq<Settled>, selected: seq<string>, outcomes: seq<Attempt>, text: (string, Attempt) -> string)
    requires |settled| == |selected| == |outcomes|
    requires forall i :: 0 <= i < |selected| ==> settled[i] == Settle(selected[i], outcomes[i], text)
    ensures Tallied(settled).applied == |Successes(outcomes)|
    ensures Tallied(settled).skipped == |Holdups(outcomes)|
    ensures Tallied(settled).failures == |Errors(outcomes)|
    ensures Tallied(settled).stdout == ""
    ensures Tallied(settled).stderr
            == Together(seq(|selected|, i requires 0 <= i < |selected| => text(selected[i], outcomes[i])))
  {
    TallyCounts(settled);
    TallyTexts(settled);
    hide Tallied;
    assert Applied(settled) == Successes(outcomes);
    assert Skipped(settled) == Holdups(outcomes);
    assert Failed(settled) == Errors(outcomes);
    assert seq(|settled|, i requires 0 <= i < |settled| => settled[i].stderr)
           == seq(|selected|, i requires 0 <= i < |selected| => text(selected[i], outcomes[i]));
    assert forall o :: o in settled ==> o.stdout == "";
  }
}
