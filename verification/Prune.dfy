/** prune: deleting the profile series whose root is gone, under locks others compete for. */
module Prune {
  import opened Sequences
  import opened Paths
  import opened Listings

  /** A series directory: the base it stands under, and its root hash. One hash may stand under both. */
  datatype Id = Id(base: nat, hash: Name)

  /** A profile directory: its series and its name. Locks are identified by it. */
  datatype Dir = Dir(series: Id, name: Name)

  datatype Owner = Ours | Theirs(process: nat)

  datatype Errno = Done | Denied | Missing | Broken

  /** Everything this process asks of the disk, with the answer, and with whether it held the directory's
      lock then. */
  datatype Deed =
    | TookLock(dir: Dir)
    | Refused(dir: Dir)                            // the try-lock was not granted
    | FreedLock(dir: Dir)
    | Emptied(dir: Dir, held: bool, why: Errno)    // os.RemoveAll; unless `Done` it stopped partway
    | RootRemoval(series: Id, why: Errno)
    | SeriesRemoval(series: Id, why: Errno)
  {
    /** The series it is about. */
    function Of(): Id {
      if RootRemoval? || SeriesRemoval? then series else dir.series
    }

    predicate Removal() { Emptied? || RootRemoval? || SeriesRemoval? }

    /** A removal the disk did not carry out. A back reference that is not there is no failure. */
    predicate Fails() { Removal() && why != Done && !(RootRemoval? && why == Missing) }

    predicate WasDenied() { Removal() && why == Denied }
  }

  /** The profile bases, shared with other processes. */
  class Host {
    var locks: map<Dir, Owner>
    var dirs: map<Dir, set<Name>>      // profile directories and what is in them
    ghost var deeds: seq<Deed>

    constructor ()
      ensures locks == map[] && deeds == [] && dirs == map[]
    {
      locks, dirs, deeds := map[], map[], [];
    }

    predicate Mine(d: Dir)
      reads this
    {
      d in locks && locks[d] == Ours
    }

    /** Others take what is free, free what is theirs, and come and go in directories nobody else holds. */
    method Interfere()
      modifies `locks, `dirs
      ensures forall d :: Mine(d) <==> old(Mine(d))
      ensures forall d :: Mine(d) && d in old(dirs) ==> d in dirs && dirs[d] == old(dirs)[d]
    {
      var l: map<Dir, Owner>, c: map<Dir, set<Name>> := *, *;
      var fair := (forall d :: d in locks && locks[d] == Ours ==> d in l && l[d] == Ours)
                  && (forall d :: d in l && l[d] == Ours ==> d in locks && locks[d] == Ours)
                  && (forall d :: d in locks && locks[d] == Ours && d in dirs ==> d in c && c[d] == dirs[d]);
      if fair { locks, dirs := l, c; }
    }

    /** A try-lock: refused while another holds the directory, or when it cannot be opened. */
    method TryAcquire(d: Dir) returns (lock: Lock?)
      modifies this
      ensures lock == null ==> (forall x :: Mine(x) <==> old(Mine(x))) && deeds == old(deeds) + [Refused(d)]
      ensures lock != null ==>
                && fresh(lock) && lock.Holds(this) && lock.dir == d && !old(Mine(d))
                && (forall x :: Mine(x) <==> old(Mine(x)) || x == d) && deeds == old(deeds) + [TookLock(d)]
    {
      Interfere();
      var opens: bool := *;
      if !opens || d !in dirs || d in locks {
        deeds := deeds + [Refused(d)];
        return null;
      }
      locks := locks[d := Ours];
      deeds := deeds + [TookLock(d)];
      lock := new Lock(this, d);
    }

    method RemoveAll(d: Dir) returns (r: Errno)
      modifies this
      ensures forall x :: Mine(x) <==> old(Mine(x))
      ensures deeds == old(deeds) + [Emptied(d, Mine(d), r)] && r != Missing
      ensures r == Done ==> d !in dirs
      ensures r != Done && Mine(d) && d in old(dirs) ==> d in dirs && dirs[d] <= old(dirs)[d]
    {
      Interfere();
      r := *;
      if r == Missing || r == Done {
        r := Done;
        dirs := map x | x in dirs && x != d :: dirs[x];
      } else if d in dirs {
        var left: set<Name> := *;
        if left <= dirs[d] { dirs := dirs[d := left]; }
      }
      deeds := deeds + [Emptied(d, Mine(d), r)];
    }

    method RemoveRoot(series: Id) returns (r: Errno)
      modifies this
      ensures forall x :: Mine(x) <==> old(Mine(x))
      ensures deeds == old(deeds) + [RootRemoval(series, r)]
    {
      Interfere();
      r := *;
      deeds := deeds + [RootRemoval(series, r)];
    }

    method RemoveSeriesDir(series: Id) returns (r: Errno)
      modifies this
      ensures forall x :: Mine(x) <==> old(Mine(x))
      ensures deeds == old(deeds) + [SeriesRemoval(series, r)]
    {
      Interfere();
      r := *;
      deeds := deeds + [SeriesRemoval(series, r)];
    }
  }

  /** A lock taken; `open` is the file behind it. */
  class Lock {
    const host: Host
    const dir: Dir
    var open: bool

    constructor (host: Host, dir: Dir)
      ensures this.host == host && this.dir == dir && open
    {
      this.host, this.dir, open := host, dir, true;
    }

    predicate Holds(h: Host)
      reads this, h
    {
      host == h && open && h.Mine(dir)
    }

    /** Releasing twice is harmless. */
    method Release()
      requires open ==> host.Mine(dir)
      modifies this, host
      ensures !open
      ensures old(open) ==> (forall x :: host.Mine(x) <==> old(host.Mine(x)) && x != dir)
      ensures old(open) ==> host.deeds == old(host.deeds) + [FreedLock(dir)]
      ensures !old(open) ==> (forall x :: host.Mine(x) <==> old(host.Mine(x))) && host.deeds == old(host.deeds)
    {
      if !open { return; }
      host.locks := map x | x in host.locks && x != dir :: host.locks[x];
      host.deeds := host.deeds + [FreedLock(dir)];
      open := false;
    }
  }

  // One series.

  datatype Series = Series(id: Id, names: seq<Name>)

  datatype Reason = Locked | BackrefUnreadable | SeriesUnreadable | RootStatFailed | PermissionDenied

  /** `Torn`: neither gone nor untouched, the run stops. */
  datatype Fate = Removed | Spared(reason: Reason) | Torn

  function DirOf(s: Series, i: nat): Dir
    requires i < |s.names|
  {
    Dir(s.id, s.names[i])
  }

  function FirstDirs(s: Series, n: nat): set<Dir>
    requires n <= |s.names|
  {
    set i | 0 <= i < n :: DirOf(s, i)
  }

  lemma OneMoreDir(s: Series, n: nat)
    requires n < |s.names|
    ensures FirstDirs(s, n + 1) == FirstDirs(s, n) + {DirOf(s, n)}
    ensures forall i :: 0 <= i < n ==> DirOf(s, i) in FirstDirs(s, n)
  {
  }

  /** The locks on the first `|locks|` directories, and no others. */
  ghost predicate LocksOf(host: Host, s: Series, locks: seq<Lock>)
    reads host, locks
  {
    && |locks| <= |s.names|
    && (forall i :: 0 <= i < |locks| ==> locks[i].host == host && locks[i].open && locks[i].dir == DirOf(s, i))
    && (forall i, j :: 0 <= i < j < |locks| ==> locks[i] != locks[j] && locks[i].dir != locks[j].dir)
    && (forall d :: host.Mine(d) <==> d in FirstDirs(s, |locks|))
  }

  /** Nothing of the series went. */
  predicate Harmless(done: seq<Deed>) {
    forall e :: e in done && e.Removal() ==> e.Fails()
  }

  /** Only what is the series' own is touched, and a directory is removed only while the lock on that same
      directory is held. */
  predicate UnderLock(s: Series, done: seq<Deed>) {
    forall e :: e in done ==> e.Of() == s.id && (e.Emptied? ==> e.held && e.dir.name in s.names)
  }

  /** The back reference goes after every profile directory, and the series after it. */
  ghost predicate RootLast(s: Series, done: seq<Deed>) {
    && (forall k :: 0 <= k < |done| && (done[k].RootRemoval? || done[k].SeriesRemoval?) ==> AllGone(s, done[..k]))
    && forall k, j :: 0 <= k < j < |done| && done[k].SeriesRemoval? ==> !done[j].RootRemoval?
  }

  ghost predicate AllGone(s: Series, done: seq<Deed>) {
    forall i :: 0 <= i < |s.names| ==> Emptied(DirOf(s, i), true, Done) in done
  }

  predicate Locking(e: Deed) {
    e.TookLock? || e.Refused? || e.FreedLock?
  }

  lemma NoRemovals(s: Series, done: seq<Deed>)
    requires forall e :: e in done ==> Locking(e) && e.Of() == s.id
    ensures UnderLock(s, done) && RootLast(s, done) && Harmless(done)
  {
    forall k | 0 <= k < |done| ensures Locking(done[k]) { assert done[k] in done; }
  }

  lemma MineAreLocked(host: Host, s: Series, locks: seq<Lock>)
    requires LocksOf(host, s, locks)
    ensures forall d :: host.Mine(d) <==> exists j :: 0 <= j < |locks| && locks[j].dir == d
    ensures forall j :: 0 <= j < |locks| ==> locks[j].host == host && locks[j].open
    ensures forall k, j :: 0 <= k < j < |locks| ==> locks[k] != locks[j] && locks[k].dir != locks[j].dir
    ensures forall j :: 0 <= j < |locks| ==> locks[j].dir.series == s.id
  {
    forall d | d in FirstDirs(s, |locks|) ensures exists j :: 0 <= j < |locks| && locks[j].dir == d {
      var j :| 0 <= j < |locks| && d == DirOf(s, j);
      assert locks[j].dir == d;
    }
  }

  method ReleaseAll(host: Host, s: Series, locks: seq<Lock>) returns (ghost freed: seq<Deed>)
    requires LocksOf(host, s, locks)
    modifies host, locks
    ensures forall d :: !host.Mine(d)
    ensures host.deeds == old(host.deeds) + freed && forall e :: e in freed ==> e.FreedLock? && e.Of() == s.id
    ensures forall l :: l in locks ==> !l.open
  {
    MineAreLocked(host, s, locks);
    hide LocksOf, FirstDirs;
    freed := [];
    for i := 0 to |locks|
      invariant forall j :: i <= j < |locks| ==> locks[j].open && host.Mine(locks[j].dir)
      invariant forall j :: 0 <= j < i ==> !locks[j].open
      invariant forall d :: host.Mine(d) ==> exists j :: i <= j < |locks| && locks[j].dir == d
      invariant host.deeds == old(host.deeds) + freed && forall e :: e in freed ==> e.FreedLock? && e.Of() == s.id
    {
      locks[i].Release();
      freed := freed + [FreedLock(locks[i].dir)];
    }
  }

  /** The next lock of the series, if it can be had. */
  method AcquireNext(host: Host, s: Series, locks: seq<Lock>) returns (lock: Lock?)
    requires LocksOf(host, s, locks) && |locks| < |s.names|
    modifies host
    ensures lock == null ==> LocksOf(host, s, locks) && host.deeds == old(host.deeds) + [Refused(DirOf(s, |locks|))]
    ensures lock != null ==>
              && fresh(lock) && LocksOf(host, s, locks + [lock])
              && host.deeds == old(host.deeds) + [TookLock(DirOf(s, |locks|))]
  {
    OneMoreDir(s, |locks|);
    hide FirstDirs;
    lock := host.TryAcquire(DirOf(s, |locks|));
  }

  /** Takes every lock of the series, or none. */
  method AcquireAll(host: Host, s: Series) returns (ok: bool, locks: seq<Lock>, ghost done: seq<Deed>)
    requires forall d :: !host.Mine(d)
    modifies host
    ensures host.deeds == old(host.deeds) + done && forall e :: e in done ==> Locking(e) && e.Of() == s.id
    ensures ok ==> |locks| == |s.names| && LocksOf(host, s, locks) && fresh(locks)
    ensures !ok ==> forall d :: !host.Mine(d)
    ensures ok <==> forall e :: e in done ==> !e.Refused?
  {
    locks, done := [], [];
    assert LocksOf(host, s, locks);
    hide LocksOf, FirstDirs;
    for i := 0 to |s.names|
      invariant |locks| == |done| == i && LocksOf(host, s, locks) && fresh(locks)
      invariant host.deeds == old(host.deeds) + done && forall e :: e in done ==> e.TookLock? && e.Of() == s.id
    {
      var lock := AcquireNext(host, s, locks);
      if lock == null {
        ghost var freed := ReleaseAll(host, s, locks);
        done := done + [Refused(DirOf(s, i))] + freed;
        assert done[i] == Refused(DirOf(s, i));
        return false, [], done;
      }
      locks := locks + [lock];
      done := done + [TookLock(DirOf(s, i))];
    }
    ok := true;
  }

  /** The profile directories, in order, under their locks. */
  method EmptyDirs(host: Host, s: Series, locks: seq<Lock>) returns (ok: bool, denied: bool, ghost done: seq<Deed>)
    requires |locks| == |s.names| && LocksOf(host, s, locks)
    modifies host
    ensures LocksOf(host, s, locks) && host.deeds == old(host.deeds) + done
    ensures forall e :: e in done ==> e.Emptied? && e.held && e.dir in FirstDirs(s, |s.names|)
    ensures ok ==> AllGone(s, done)
    ensures ok <==> forall e :: e in done ==> !e.Fails()
    ensures denied <==> done != [] && done[0].WasDenied()
    ensures denied ==> !ok && Harmless(done)
    ensures |s.names| == 0 <==> done == []
  {
    done := [];
    for i := 0 to |s.names|
      invariant LocksOf(host, s, locks) && host.deeds == old(host.deeds) + done
      invariant forall e :: e in done ==> e.Emptied? && e.held && e.dir in FirstDirs(s, |s.names|)
      invariant forall k :: 0 <= k < i ==> Emptied(DirOf(s, k), true, Done) in done
      invariant (forall e :: e in done ==> e.why == Done) && |done| == i
    {
      assert DirOf(s, i) in FirstDirs(s, |locks|);
      var r := host.RemoveAll(DirOf(s, i));
      done := done + [Emptied(DirOf(s, i), true, r)];
      assert done[i] == Emptied(DirOf(s, i), true, r) && done[i] in done;
      if r != Done { return false, i == 0 && r == Denied, done; }
    }
    return true, false, done;
  }

  lemma EmptyingIsFine(s: Series, done: seq<Deed>)
    requires forall e :: e in done ==> e.Emptied? && e.held && e.dir in FirstDirs(s, |s.names|)
    ensures UnderLock(s, done) && RootLast(s, done)
  {
    forall k | 0 <= k < |done| ensures done[k].Emptied? { assert done[k] in done; }
  }

  lemma OneMoreRemoval(s: Series, done: seq<Deed>, e: Deed)
    requires UnderLock(s, done) && RootLast(s, done) && AllGone(s, done)
    requires (e.RootRemoval? || e.SeriesRemoval?) && e.series == s.id
    requires e.RootRemoval? ==> forall x :: x in done ==> !x.SeriesRemoval?
    ensures UnderLock(s, done + [e]) && RootLast(s, done + [e]) && AllGone(s, done + [e])
  {
    var all := done + [e];
    forall k | 0 <= k < |all| && (all[k].RootRemoval? || all[k].SeriesRemoval?) ensures AllGone(s, all[..k]) {
      if k < |done| { assert all[..k] == done[..k]; } else { assert all[..k] == done; }
    }
    forall k, j | 0 <= k < j < |all| && all[k].SeriesRemoval? ensures !all[j].RootRemoval? {
      assert all[k] == done[k] && done[k] in done;
    }
  }

  method RemoveRootUnder(host: Host, s: Series, locks: seq<Lock>) returns (r: Errno)
    requires LocksOf(host, s, locks)
    modifies host
    ensures LocksOf(host, s, locks) && host.deeds == old(host.deeds) + [RootRemoval(s.id, r)]
  {
    r := host.RemoveRoot(s.id);
  }

  method RemoveSeriesUnder(host: Host, s: Series, locks: seq<Lock>) returns (r: Errno)
    requires LocksOf(host, s, locks)
    modifies host
    ensures LocksOf(host, s, locks) && host.deeds == old(host.deeds) + [SeriesRemoval(s.id, r)]
  {
    r := host.RemoveSeriesDir(s.id);
  }

  lemma OneMoreDeed(done: seq<Deed>, e: Deed)
    ensures var all := done + [e];
            && all != [] && all[0] == (if done == [] then e else done[0])
            && ((forall x :: x in all ==> x.Removal()) <==> e.Removal() && forall x :: x in done ==> x.Removal())
            && ((forall x :: x in all ==> !x.Fails()) <==> !e.Fails() && forall x :: x in done ==> !x.Fails())
            && (forall x :: x in all <==> x in done || x == e)
  {
    assert forall x :: x in done + [e] <==> x in done || x == e;
  }

  /** The removals, under all the locks: names first, the back reference after them, the series last. The
      first that fails decides: denied before anything went, the series is spared. */
  method RemoveUnderLocks(host: Host, s: Series, locks: seq<Lock>) returns (fate: Fate, ghost done: seq<Deed>)
    requires |locks| == |s.names| && LocksOf(host, s, locks)
    modifies host
    ensures LocksOf(host, s, locks) && host.deeds == old(host.deeds) + done
    ensures UnderLock(s, done) && RootLast(s, done) && forall e :: e in done ==> e.Removal()
    ensures fate.Removed? ==> AllGone(s, done)
    ensures fate.Removed? <==> SeriesRemoval(s.id, Done) in done
    ensures fate.Removed? <==> forall e :: e in done ==> !e.Fails()
    ensures fate.Spared? <==> done != [] && done[0].WasDenied()
    ensures fate.Spared? ==> Harmless(done) && fate.reason == PermissionDenied
  {
    hide UnderLock, RootLast, AllGone, FirstDirs, LocksOf;
    var ok, denied;
    ok, denied, done := EmptyDirs(host, s, locks);
    EmptyingIsFine(s, done);
    if !ok { return if denied then Spared(PermissionDenied) else Torn, done; }
    var r := RemoveRootUnder(host, s, locks);
    OneMoreRemoval(s, done, RootRemoval(s.id, r));
    OneMoreDeed(done, RootRemoval(s.id, r));
    assert done != [] ==> done[0] in done && !done[0].Fails();
    done := done + [RootRemoval(s.id, r)];
    if r != Done && r != Missing {
      return if |s.names| == 0 && r == Denied then Spared(PermissionDenied) else Torn, done;
    }
    r := RemoveSeriesUnder(host, s, locks);
    OneMoreRemoval(s, done, SeriesRemoval(s.id, r));
    OneMoreDeed(done, SeriesRemoval(s.id, r));
    done := done + [SeriesRemoval(s.id, r)];
    fate := if r == Done then Removed else Torn;
  }

  /** pruneRemoveSeries: whatever other processes do meanwhile, a directory is removed only under the
      lock on it, every exit has let go of all locks, a spared series keeps every directory and its back
      reference, and the back reference goes last. What the disk answered decides the fate. */
  method RemoveSeries(host: Host, s: Series) returns (fate: Fate, ghost done: seq<Deed>)
    requires forall d :: !host.Mine(d)
    modifies host
    ensures forall d :: !host.Mine(d)
    ensures host.deeds == old(host.deeds) + done
    ensures Proper(s, fate, done)
  {
    hide UnderLock, RootLast, AllGone, Harmless, LocksOf, Fated;
    var ok, locks;
    ghost var taken;
    ok, locks, taken := AcquireAll(host, s);
    NoRemovals(s, taken);
    if !ok {
      FatedLocked(taken);
      return Spared(Locked), taken;
    }
    ghost var work;
    fate, work := RemoveUnderLocks(host, s, locks);
    ghost var freed := ReleaseAll(host, s, locks);
    done := taken + work + freed;
    NoRemovals(s, freed);
    Framed(s, taken, work, freed);
    FatedWork(fate, taken, work, freed);
  }

  lemma FatedLocked(done: seq<Deed>)
    requires (forall e :: e in done ==> Locking(e)) && exists e :: e in done && e.Refused?
    ensures Fated(Spared(Locked), done)
  {
    forall k | 0 <= k < |done| ensures !FirstDenial(done, k) { assert done[k] in done; }
  }

  lemma FatedWork(fate: Fate, before: seq<Deed>, work: seq<Deed>, later: seq<Deed>)
    requires forall e :: e in before || e in later ==> Locking(e) && !e.Refused?
    requires forall e :: e in work ==> e.Removal()
    requires fate.Removed? <==> forall e :: e in work ==> !e.Fails()
    requires fate.Spared? <==> work != [] && work[0].WasDenied()
    requires fate.Spared? ==> fate.reason == PermissionDenied
    ensures Fated(fate, before + work + later)
  {
    var all := before + work + later;
    assert forall e :: e in all <==> e in before || e in work || e in later;
    if work != [] {
      assert all[|before|] == work[0];
      forall j | 0 <= j < |before| ensures !all[j].Removal() { assert all[j] in before; }
    }
    if work != [] && work[0].WasDenied() { assert FirstDenial(all, |before|); }
    if k :| 0 <= k < |all| && FirstDenial(all, k) {
      Located(before, work, later, k);
      assert k == |before|;
    }
  }

  lemma OnlyInside(before: seq<Deed>, work: seq<Deed>, later: seq<Deed>, k: nat)
    requires (forall e :: e in before ==> Locking(e)) && (forall e :: e in later ==> Locking(e))
    requires k < |before + work + later|
    requires !Locking((before + work + later)[k])
    ensures |before| <= k < |before| + |work| && (before + work + later)[k] == work[k - |before|]
    ensures (before + work + later)[..k] == before + work[..k - |before|]
  {
    Located(before, work, later, k);
  }

  lemma Located(before: seq<Deed>, work: seq<Deed>, later: seq<Deed>, k: nat)
    requires k < |before + work + later|
    ensures k < |before| ==> (before + work + later)[k] in before
    ensures k >= |before| + |work| ==> (before + work + later)[k] in later
  {
  }

  /** Taking and freeing locks around the removals changes nothing of what they promise. */
  lemma Framed(s: Series, before: seq<Deed>, work: seq<Deed>, later: seq<Deed>)
    requires (forall e :: e in before ==> Locking(e)) && (forall e :: e in later ==> Locking(e))
    ensures UnderLock(s, before) && UnderLock(s, work) && UnderLock(s, later) ==> UnderLock(s, before + work + later)
    ensures RootLast(s, work) ==> RootLast(s, before + work + later)
    ensures Harmless(work) ==> Harmless(before + work + later)
    ensures AllGone(s, work) ==> AllGone(s, before + work + later)
    ensures forall e :: e in work ==> e in before + work + later
  {
    if RootLast(s, work) { RootLastFramed(s, before, work, later); }
  }

  lemma RootLastFramed(s: Series, before: seq<Deed>, work: seq<Deed>, later: seq<Deed>)
    requires (forall e :: e in before ==> Locking(e)) && (forall e :: e in later ==> Locking(e))
    requires RootLast(s, work)
    ensures RootLast(s, before + work + later)
  {
    var all := before + work + later;
    forall k | 0 <= k < |all| && (all[k].RootRemoval? || all[k].SeriesRemoval?) ensures AllGone(s, all[..k]) {
      OnlyInside(before, work, later, k);
      assert AllGone(s, work[..k - |before|]);
    }
    forall k, j | 0 <= k < j < |all| && all[k].SeriesRemoval? && all[j].RootRemoval? ensures false {
      OnlyInside(before, work, later, k);
      OnlyInside(before, work, later, j);
    }
  }

  // All candidates.

  /** The candidates that met a fate of the kind, in order. */
  function WithFate(candidates: seq<Series>, fates: seq<Fate>, gone: bool): seq<Series>
    requires |fates| <= |candidates|
  {
    if fates == [] then []
    else
      var n := |fates| - 1;
      WithFate(candidates, fates[..n], gone)
      + if (if gone then fates[n].Removed? else fates[n].Spared?) then [candidates[n]] else []
  }

  /** The spared candidates as they are reported, each with its reason. */
  function SkipsOf(candidates: seq<Series>, fates: seq<Fate>): seq<(Id, Reason)>
    requires |fates| <= |candidates|
  {
    if fates == [] then []
    else
      var n := |fates| - 1;
      SkipsOf(candidates, fates[..n]) + if fates[n].Spared? then [(candidates[n].id, fates[n].reason)] else []
  }

  ghost predicate FirstDenial(done: seq<Deed>, k: nat)
    requires k < |done|
  {
    done[k].WasDenied() && forall j :: 0 <= j < k ==> !done[j].Removal()
  }

  /** What decides the fate: a lock refused spares the series as locked, a first removal that was denied as
      denied; it is removed if and only if all locks were had and no removal failed; else it is torn. */
  ghost predicate Fated(fate: Fate, done: seq<Deed>) {
    var locked := exists e :: e in done && e.Refused?;
    && (fate == Spared(Locked) <==> locked)
    && (fate == Spared(PermissionDenied) <==> exists k :: 0 <= k < |done| && FirstDenial(done, k))
    && (fate.Removed? <==> !locked && forall e :: e in done ==> !e.Fails())
    && (fate.Spared? ==> fate.reason in {Locked, PermissionDenied})
  }

  /** What one series' pass did, by the fate it met. */
  ghost predicate Proper(s: Series, fate: Fate, done: seq<Deed>) {
    && UnderLock(s, done) && RootLast(s, done) && Fated(fate, done)
    && (fate.Spared? ==> Harmless(done))
    && (fate.Removed? ==> AllGone(s, done)) && (fate.Removed? <==> SeriesRemoval(s.id, Done) in done)
  }

  /** The passes of the series the run came to, each by its fate. */
  ghost predicate AllProper(candidates: seq<Series>, fates: seq<Fate>, passes: seq<seq<Deed>>) {
    && |passes| == |fates| <= |candidates|
    && forall i :: 0 <= i < |fates| ==> Proper(candidates[i], fates[i], passes[i])
  }

  function Chained(passes: seq<seq<Deed>>): seq<Deed> {
    if passes == [] then [] else Chained(passes[..|passes| - 1]) + passes[|passes| - 1]
  }

  lemma ChainedSnoc(before: seq<Deed>, passes: seq<seq<Deed>>, done: seq<Deed>)
    ensures before + Chained(passes + [done]) == before + Chained(passes) + done
  {
    ButLast(passes, done);
  }

  /** The deletion stage: goes on past spared series, stops at a torn one. */
  method PruneAll(host: Host, candidates: seq<Series>)
    returns (removed: seq<Series>, spared: seq<(Id, Reason)>, failed: bool, ghost fates: seq<Fate>, ghost passes: seq<seq<Deed>>)
    requires forall d :: !host.Mine(d)
    modifies host
    ensures forall d :: !host.Mine(d)
    ensures host.deeds == old(host.deeds) + Chained(passes) && AllProper(candidates, fates, passes)
    ensures removed == WithFate(candidates, fates, true) && spared == SkipsOf(candidates, fates)
    ensures forall i :: 0 <= i < |fates| - 1 ==> !fates[i].Torn?
    ensures failed <==> fates != [] && fates[|fates| - 1].Torn?
    ensures !failed ==> |fates| == |candidates|
  {
    hide Proper, Harmless, UnderLock, RootLast, AllGone;
    removed, spared, fates, passes := [], [], [], [];
    for i := 0 to |candidates|
      invariant |fates| == i && (forall k :: 0 <= k < i ==> !fates[k].Torn?) && (forall d :: !host.Mine(d))
      invariant host.deeds == old(host.deeds) + Chained(passes) && AllProper(candidates, fates, passes)
      invariant removed == WithFate(candidates, fates, true) && spared == SkipsOf(candidates, fates)
    {
      var fate;
      ghost var done;
      fate, done := RemoveSeries(host, candidates[i]);
      ChainedSnoc(old(host.deeds), passes, done);
      ghost var longer := fates + [fate];
      assert longer[..i] == fates && longer[i] == fate;
      fates, passes := longer, passes + [done];
      match fate {
        case Torn => return removed, spared, true, fates, passes;
        case Spared(reason) => spared := spared + [(candidates[i].id, reason)];
        case Removed => removed := removed + [candidates[i]];
      }
    }
    failed := false;
  }

  /** The series the run failed on. */
  function Failing(candidates: seq<Series>, fates: seq<Fate>): seq<Series>
    requires |fates| <= |candidates|
  {
    if fates != [] && fates[|fates| - 1].Torn? then [candidates[|fates| - 1]] else []
  }

  lemma SplitRest(candidates: seq<Series>, n: nat)
    requires n < |candidates|
    ensures multiset(candidates[n..]) == multiset{candidates[n]} + multiset(candidates[n + 1..])
  {
    assert candidates[n..] == [candidates[n]] + candidates[n + 1..];
  }

  /** One of `c`, or none. */
  function If(b: bool, c: Series): multiset<Series> {
    if b then multiset{c} else multiset{}
  }

  lemma OneMoreFate(candidates: seq<Series>, init: seq<Fate>, fate: Fate)
    requires |init| < |candidates|
    ensures var c, all := candidates[|init|], init + [fate];
            && multiset(WithFate(candidates, all, true)) == multiset(WithFate(candidates, init, true)) + If(fate.Removed?, c)
            && multiset(WithFate(candidates, all, false)) == multiset(WithFate(candidates, init, false)) + If(fate.Spared?, c)
            && multiset(Failing(candidates, all)) == If(fate.Torn?, c)
  {
    ButLast(init, fate);
  }

  ghost predicate Split(candidates: seq<Series>, fates: seq<Fate>)
    requires |fates| <= |candidates|
  {
    multiset(candidates)
    == multiset(WithFate(candidates, fates, true)) + multiset(WithFate(candidates, fates, false))
       + multiset(Failing(candidates, fates)) + multiset(candidates[|fates|..])
  }

  lemma SplitOnce(candidates: seq<Series>, init: seq<Fate>, fate: Fate)
    requires |init| < |candidates| && Split(candidates, init) && Failing(candidates, init) == []
    ensures Split(candidates, init + [fate])
  {
    hide WithFate, Failing, If;
    OneMoreFate(candidates, init, fate);
    SplitRest(candidates, |init|);
    var a, b := multiset(WithFate(candidates, init, true)), multiset(WithFate(candidates, init, false));
    var f: seq<Series> := [];
    Regroup(candidates[|init|], fate, a, b, multiset(f), multiset(candidates[|init| + 1..]));
  }

  /** What was removed, what was spared, the series that failed and the rest it kept the run from make up
      the candidates, each of them once. */
  lemma {:induction false} CandidatesSplit(candidates: seq<Series>, fates: seq<Fate>)
    requires |fates| <= |candidates| && forall i :: 0 <= i < |fates| - 1 ==> !fates[i].Torn?
    ensures Split(candidates, fates)
    decreases |fates|
  {
    if fates == [] {
      assert candidates[0..] == candidates;
    } else {
      var n := |fates| - 1;
      LastOf(fates);
      NoneFailed(candidates, fates, n);
      CandidatesSplit(candidates, fates[..n]);
      hide Split;
      SplitOnce(candidates, fates[..n], fates[n]);
    }
  }

  lemma Regroup(c: Series, fate: Fate, a: multiset<Series>, b: multiset<Series>, f: multiset<Series>, rest: multiset<Series>)
    requires f == multiset{}
    ensures a + b + f + (multiset{c} + rest)
            == (a + If(fate.Removed?, c)) + (b + If(fate.Spared?, c)) + If(fate.Torn?, c) + rest
  {
  }

  lemma NoneFailed(candidates: seq<Series>, fates: seq<Fate>, n: nat)
    requires n < |fates| <= |candidates| && forall i :: 0 <= i < |fates| - 1 ==> !fates[i].Torn?
    ensures Failing(candidates, fates[..n]) == []
  {
    if n > 0 { assert fates[..n][n - 1] == fates[n - 1]; }
  }

  // Judging a base.

  datatype RootStat = Exists | Absent | Unknown

  /** A series as enumerated: whether its back reference and its names could be read, and its root. */
  datatype Listed = Listed(names: set<Name>, backrefRead: bool, namesRead: bool, root: RootStat)

  datatype Verdict = Candidate | Skip(reason: Reason) | Keep

  function Judge(l: Listed): Verdict {
    if !l.backrefRead then Skip(BackrefUnreadable)
    else if !l.namesRead then Skip(SeriesUnreadable)
    else
      match l.root
      case Exists => Keep
      case Absent => Candidate
      case Unknown => Skip(RootStatFailed)
  }

  /** Why a series goes without a verdict: for the first thing that could not be found out. */
  predicate Undecided(l: Listed, r: Reason) {
    match r
    case BackrefUnreadable => !l.backrefRead
    case SeriesUnreadable => l.backrefRead && !l.namesRead
    case RootStatFailed => l.backrefRead && l.namesRead && l.root == Unknown
    case _ => false
  }

  /** Only a series that could be read to the end and whose root is not there is a candidate. */
  lemma JudgeExactly(l: Listed)
    ensures Judge(l) == Candidate <==> l.backrefRead && l.namesRead && l.root == Absent
    ensures forall r :: Judge(l) == Skip(r) <==> Undecided(l, r)
    ensures Judge(l) == Keep <==> l.backrefRead && l.namesRead && l.root == Exists
  {
  }

  /** The candidates of a base among the names of a listing, in the listing's order. */
  function ChosenIn(b: nat, base: map<Name, Listed>, listed: seq<Name>): seq<Series>
    requires forall h :: h in listed ==> h in base
  {
    if listed == [] then []
    else
      var h := listed[|listed| - 1];
      ChosenIn(b, base, listed[..|listed| - 1])
      + if Judge(base[h]) == Candidate then [Series(Id(b, h), Sorted(base[h].names))] else []
  }

  /** Those kept for want of a verdict. */
  function SkippedIn(b: nat, base: map<Name, Listed>, listed: seq<Name>): seq<(Id, Reason)>
    requires forall h :: h in listed ==> h in base
  {
    if listed == [] then []
    else
      var h := listed[|listed| - 1];
      SkippedIn(b, base, listed[..|listed| - 1])
      + if Judge(base[h]).Skip? then [(Id(b, h), Judge(base[h]).reason)] else []
  }

  function CandidatesOf(b: nat, base: map<Name, Listed>): seq<Series> {
    ChosenIn(b, base, Sorted(base.Keys))
  }

  function SkippedOf(b: nat, base: map<Name, Listed>): seq<(Id, Reason)> {
    SkippedIn(b, base, Sorted(base.Keys))
  }

  ghost predicate Ascending(listed: seq<Name>) {
    forall i, j :: 0 <= i < j < |listed| ==> listed[i] != listed[j] && LexLeq(listed[i], listed[j])
  }

  lemma {:induction false} ChosenExactly(b: nat, base: map<Name, Listed>, listed: seq<Name>)
    requires (forall h :: h in listed ==> h in base) && Ascending(listed)
    ensures forall s :: s in ChosenIn(b, base, listed) <==>
              && s.id.base == b && s.id.hash in listed
              && base[s.id.hash].backrefRead && base[s.id.hash].namesRead && base[s.id.hash].root == Absent
              && s.names == Sorted(base[s.id.hash].names)
    ensures forall i, j :: 0 <= i < j < |ChosenIn(b, base, listed)| ==>
              var c := ChosenIn(b, base, listed); c[i].id != c[j].id && LexLeq(c[i].id.hash, c[j].id.hash)
  {
    if listed != [] {
      var init, h := listed[..|listed| - 1], listed[|listed| - 1];
      ChosenExactly(b, base, init);
      var before, all := ChosenIn(b, base, init), ChosenIn(b, base, listed);
      forall i, j | 0 <= i < j < |all| ensures all[i].id != all[j].id && LexLeq(all[i].id.hash, all[j].id.hash) {
        if j == |before| {
          assert before[i] in before;
          var k :| 0 <= k < |init| && init[k] == before[i].id.hash;
          assert listed[k] != h;
        }
      }
    }
  }

  lemma {:induction false} SkippedExactly(b: nat, base: map<Name, Listed>, listed: seq<Name>)
    requires (forall h :: h in listed ==> h in base) && Ascending(listed)
    ensures forall id: Id, r: Reason :: (id, r) in SkippedIn(b, base, listed) <==>
              id.base == b && id.hash in listed && Undecided(base[id.hash], r)
    ensures forall i, j :: 0 <= i < j < |SkippedIn(b, base, listed)| ==>
              var c := SkippedIn(b, base, listed); c[i].0 != c[j].0 && LexLeq(c[i].0.hash, c[j].0.hash)
  {
    if listed != [] {
      var init, h := listed[..|listed| - 1], listed[|listed| - 1];
      SkippedExactly(b, base, init);
      var before, all := SkippedIn(b, base, init), SkippedIn(b, base, listed);
      forall i, j | 0 <= i < j < |all| ensures all[i].0 != all[j].0 && LexLeq(all[i].0.hash, all[j].0.hash) {
        if j == |before| {
          assert (before[i].0, before[i].1) in before;
          var k :| 0 <= k < |init| && init[k] == before[i].0.hash;
          assert listed[k] != h;
        }
      }
    }
  }

  lemma OneMoreListed(b: nat, base: map<Name, Listed>, listed: seq<Name>, k: nat)
    requires k < |listed| && forall h :: h in listed ==> h in base
    ensures (forall h :: h in listed[..k] ==> h in base) && (forall h :: h in listed[..k + 1] ==> h in base) && listed[k] in base
    ensures ChosenIn(b, base, listed[..k + 1])
            == ChosenIn(b, base, listed[..k])
               + if Judge(base[listed[k]]) == Candidate then [Series(Id(b, listed[k]), Sorted(base[listed[k]].names))] else []
    ensures SkippedIn(b, base, listed[..k + 1])
            == SkippedIn(b, base, listed[..k])
               + if Judge(base[listed[k]]).Skip? then [(Id(b, listed[k]), Judge(base[listed[k]]).reason)] else []
  {
    hide Sorted;
    Prefix(listed, k + 1);
  }

  /** One base, in ascending order of series, the names of each in ascending order too. */
  method JudgeBase(b: nat, base: map<Name, Listed>) returns (candidates: seq<Series>, skipped: seq<(Id, Reason)>)
    ensures candidates == CandidatesOf(b, base) && skipped == SkippedOf(b, base)
  {
    var listed := Sorted(base.Keys);
    candidates, skipped := [], [];
    assert listed[..0] == [];
    assert ChosenIn(b, base, []) == [] && SkippedIn(b, base, []) == [];
    Whole(listed);
    hide Sorted, ChosenIn, SkippedIn;
    for k := 0 to |listed|
      invariant candidates == ChosenIn(b, base, listed[..k]) && skipped == SkippedIn(b, base, listed[..k])
    {
      var h := listed[k];
      OneMoreListed(b, base, listed, k);
      EmptyEnd(candidates, []);
      EmptyEnd(skipped, []);
      match Judge(base[h]) {
        case Keep =>
        case Candidate => candidates := candidates + [Series(Id(b, h), Sorted(base[h].names))];
        case Skip(reason) => skipped := skipped + [(Id(b, h), reason)];
      }
    }
  }

  // The whole of prune.

  /** The candidates of the bases, first base first. */
  function AllCandidates(bases: seq<map<Name, Listed>>): seq<Series> {
    if bases == [] then []
    else AllCandidates(bases[..|bases| - 1]) + CandidatesOf(|bases| - 1, bases[|bases| - 1])
  }

  function AllSkipped(bases: seq<map<Name, Listed>>): seq<(Id, Reason)> {
    if bases == [] then []
    else AllSkipped(bases[..|bases| - 1]) + SkippedOf(|bases| - 1, bases[|bases| - 1])
  }

  /** Of the series listed: one that could be judged, and whose root is gone. */
  predicate Orphan(bases: seq<map<Name, Listed>>, id: Id) {
    && id.base < |bases| && id.hash in bases[id.base]
    && var l := bases[id.base][id.hash];
       l.backrefRead && l.namesRead && l.root == Absent
  }

  lemma OrphanInit(bases: seq<map<Name, Listed>>, id: Id)
    requires bases != []
    ensures var n := |bases| - 1;
            Orphan(bases, id) <==>
              || (id.base < n && Orphan(bases[..n], id))
              || (id.base == n && id.hash in bases[n] && bases[n][id.hash].backrefRead && bases[n][id.hash].namesRead
                  && bases[n][id.hash].root == Absent)
    ensures id.base < |bases| - 1 ==> bases[..|bases| - 1][id.base] == bases[id.base]
  {
  }

  /** Exactly the series whose root is gone are candidates, each once, base by base and ascending. */
  lemma {:induction false} CandidatesExactly(bases: seq<map<Name, Listed>>)
    ensures forall s :: s in AllCandidates(bases) <==>
              Orphan(bases, s.id) && s.names == Sorted(bases[s.id.base][s.id.hash].names)
    ensures forall i, j :: 0 <= i < j < |AllCandidates(bases)| ==> Precedes(AllCandidates(bases)[i].id, AllCandidates(bases)[j].id)
  {
    if bases != [] {
      var n := |bases| - 1;
      var before, last := AllCandidates(bases[..n]), CandidatesOf(n, bases[n]);
      CandidatesExactly(bases[..n]);
      ChosenExactly(n, bases[n], Sorted(bases[n].Keys));
      hide Orphan, Sorted;
      forall s: Series ensures s in AllCandidates(bases) <==> Orphan(bases, s.id) && s.names == Sorted(bases[s.id.base][s.id.hash].names) {
        OrphanInit(bases, s.id);
      }
      var all: seq<Series> := before + last;
      forall i, j | 0 <= i < j < |all| ensures Precedes(all[i].id, all[j].id) {
        if i < |before| <= j {
          assert before[i] in before && last[j - |before|] in last;
        }
      }
    }
  }

  /** In an earlier base, or earlier in the same one. */
  predicate Precedes(x: Id, y: Id) {
    x.base < y.base || (x.base == y.base && x.hash != y.hash && LexLeq(x.hash, y.hash))
  }

  /** Exactly the series without a verdict are skipped, each once and for its reason. */
  lemma {:induction false} SkipsExactly(bases: seq<map<Name, Listed>>)
    ensures forall id: Id, r: Reason :: (id, r) in AllSkipped(bases) <==>
              id.base < |bases| && id.hash in bases[id.base] && Undecided(bases[id.base][id.hash], r)
    ensures forall i, j :: 0 <= i < j < |AllSkipped(bases)| ==> Precedes(AllSkipped(bases)[i].0, AllSkipped(bases)[j].0)
  {
    if bases != [] {
      var n := |bases| - 1;
      var before, last := AllSkipped(bases[..n]), SkippedOf(n, bases[n]);
      SkipsExactly(bases[..n]);
      SkippedExactly(n, bases[n], Sorted(bases[n].Keys));
      var all: seq<(Id, Reason)> := before + last;
      forall i, j | 0 <= i < j < |all| ensures Precedes(all[i].0, all[j].0) {
        if i < |before| <= j {
          assert (before[i].0, before[i].1) in before && (last[j - |before|].0, last[j - |before|].1) in last;
        }
      }
    }
  }

  datatype Pruned = Pruned(removed: seq<Series>, skipped: seq<(Id, Reason)>, aborted: bool, failed: bool)

  /** Both bases; one that is missing or cannot be listed contributes nothing. */
  method JudgeBases(bases: seq<map<Name, Listed>>) returns (candidates: seq<Series>, skipped: seq<(Id, Reason)>)
    ensures candidates == AllCandidates(bases) && skipped == AllSkipped(bases)
  {
    candidates, skipped := [], [];
    for b := 0 to |bases|
      invariant candidates == AllCandidates(bases[..b]) && skipped == AllSkipped(bases[..b])
    {
      Prefix(bases, b + 1);
      var found, kept := JudgeBase(b, bases[b]);
      candidates, skipped := candidates + found, skipped + kept;
    }
    Whole(bases);
  }

  /** A dry run and a refused confirmation take no lock and remove nothing; otherwise the candidates are
      gone through in order, each removal under its lock, up to a series that is left torn. */
  method Run(host: Host, bases: seq<map<Name, Listed>>, dryRun: bool, confirms: bool)
    returns (r: Pruned, ghost fates: seq<Fate>, ghost passes: seq<seq<Deed>>)
    requires forall d :: !host.Mine(d)
    modifies host
    ensures forall d :: !host.Mine(d)
    ensures dryRun || !confirms ==>
              && host.deeds == old(host.deeds) && host.locks == old(host.locks) && host.dirs == old(host.dirs)
              && r.removed == (if dryRun then AllCandidates(bases) else []) && r.skipped == AllSkipped(bases)
              && r.aborted == !dryRun && !r.failed
    ensures !dryRun && confirms ==>
              && host.deeds == old(host.deeds) + Chained(passes) && AllProper(AllCandidates(bases), fates, passes)
              && r.removed == WithFate(AllCandidates(bases), fates, true)
              && r.skipped == AllSkipped(bases) + SkipsOf(AllCandidates(bases), fates)
              && (forall i :: 0 <= i < |fates| - 1 ==> !fates[i].Torn?)
              && (r.failed <==> fates != [] && fates[|fates| - 1].Torn?) && !r.aborted
              && (!r.failed ==> |fates| == |AllCandidates(bases)|)
    ensures old(host.deeds) <= host.deeds
    ensures forall e :: e in host.deeds[|old(host.deeds)|..] ==> Orphan(bases, e.Of())
    ensures !dryRun && confirms ==> forall s ::
              s in r.removed <==> s in AllCandidates(bases) && SeriesRemoval(s.id, Done) in host.deeds[|old(host.deeds)|..]
    ensures !dryRun && confirms ==> forall id ::
              (id, Locked) in r.skipped <==> exists e :: e in host.deeds[|old(host.deeds)|..] && e.Refused? && e.Of() == id
  {
    hide AllCandidates, AllSkipped, WithFate, SkipsOf, AllProper, Chained;
    var candidates, skipped := JudgeBases(bases);
    fates, passes := [], [];
    if dryRun { return Pruned(candidates, skipped, false, false), fates, passes; }
    if !confirms { return Pruned([], skipped, true, false), fates, passes; }
    var removed, spared, failed;
    removed, spared, failed, fates, passes := PruneAll(host, candidates);
    r := Pruned(removed, skipped + spared, false, failed);
    ghost var done := Chained(passes);
    assert host.deeds[|old(host.deeds)|..] == done;
    PrunedOrphans(bases, fates, passes);
    forall s ensures s in removed <==> s in AllCandidates(bases) && SeriesRemoval(s.id, Done) in done {
      RemovedExactly(bases, fates, passes, s);
    }
    forall id ensures (id, Locked) in r.skipped <==> exists e :: e in done && e.Refused? && e.Of() == id {
      LockedExactly(bases, fates, passes, id);
      assert (id, Locked) in skipped + spared <==> (id, Locked) in skipped || (id, Locked) in spared;
    }
  }

  lemma {:induction false} InChain(passes: seq<seq<Deed>>, e: Deed)
    ensures e in Chained(passes) <==> exists i :: 0 <= i < |passes| && e in passes[i]
  {
    if passes != [] {
      var n := |passes| - 1;
      InChain(passes[..n], e);
      assert forall i :: 0 <= i < n ==> passes[..n][i] == passes[i];
      if e in passes[n] { assert e in Chained(passes); }
    }
  }

  lemma {:induction false} WithFateIs(candidates: seq<Series>, fates: seq<Fate>, s: Series)
    requires |fates| <= |candidates|
    ensures s in WithFate(candidates, fates, true) <==> exists i :: 0 <= i < |fates| && candidates[i] == s && fates[i].Removed?
  {
    if fates != [] {
      var n := |fates| - 1;
      WithFateIs(candidates, fates[..n], s);
      assert forall i :: 0 <= i < n ==> fates[..n][i] == fates[i];
    }
  }

  lemma {:induction false} SkipsAre(candidates: seq<Series>, fates: seq<Fate>, id: Id, r: Reason)
    requires |fates| <= |candidates|
    ensures (id, r) in SkipsOf(candidates, fates) <==>
              exists i :: 0 <= i < |fates| && candidates[i].id == id && fates[i] == Spared(r)
  {
    if fates != [] {
      var n := |fates| - 1;
      SkipsAre(candidates, fates[..n], id, r);
      assert forall i :: 0 <= i < n ==> fates[..n][i] == fates[i];
    }
  }

  /** Nothing but orphans is touched. */
  lemma PrunedOrphans(bases: seq<map<Name, Listed>>, fates: seq<Fate>, passes: seq<seq<Deed>>)
    requires AllProper(AllCandidates(bases), fates, passes)
    ensures forall e :: e in Chained(passes) ==> Orphan(bases, e.Of())
  {
    hide RootLast, Fated, AllGone, Harmless, Orphan, AllCandidates, Chained;
    CandidatesExactly(bases);
    forall e | e in Chained(passes) ensures Orphan(bases, e.Of()) {
      InChain(passes, e);
      var i :| 0 <= i < |passes| && e in passes[i];
      assert Proper(AllCandidates(bases)[i], fates[i], passes[i]) && AllCandidates(bases)[i] in AllCandidates(bases);
    }
  }

  lemma OneOfEach(bases: seq<map<Name, Listed>>, i: nat, j: nat)
    requires i < |AllCandidates(bases)| && j < |AllCandidates(bases)|
    requires AllCandidates(bases)[i].id == AllCandidates(bases)[j].id
    ensures i == j
  {
    CandidatesExactly(bases);
  }

  /** Reported as removed are exactly the candidates whose directory went. */
  lemma RemovedExactly(bases: seq<map<Name, Listed>>, fates: seq<Fate>, passes: seq<seq<Deed>>, s: Series)
    requires AllProper(AllCandidates(bases), fates, passes)
    ensures s in WithFate(AllCandidates(bases), fates, true) <==>
              s in AllCandidates(bases) && SeriesRemoval(s.id, Done) in Chained(passes)
  {
    hide RootLast, Fated, AllGone, Harmless, WithFate, Chained, AllCandidates;
    var all, e := AllCandidates(bases), SeriesRemoval(s.id, Done);
    WithFateIs(all, fates, s);
    InChain(passes, e);
    if i :| 0 <= i < |fates| && all[i] == s && fates[i].Removed? {
      assert Proper(all[i], fates[i], passes[i]) && e in passes[i];
    }
    if s in all && e in Chained(passes) {
      var i :| 0 <= i < |passes| && e in passes[i];
      assert Proper(all[i], fates[i], passes[i]) && e.Of() == all[i].id;
      var j :| 0 <= j < |all| && all[j] == s;
      OneOfEach(bases, i, j);
    }
  }

  /** Reported as locked are exactly the series one of whose locks was refused. */
  lemma LockedExactly(bases: seq<map<Name, Listed>>, fates: seq<Fate>, passes: seq<seq<Deed>>, id: Id)
    requires AllProper(AllCandidates(bases), fates, passes)
    ensures (id, Locked) !in AllSkipped(bases)
    ensures (id, Locked) in SkipsOf(AllCandidates(bases), fates) <==> exists e :: e in Chained(passes) && e.Refused? && e.Of() == id
  {
    hide RootLast, AllGone, Harmless, SkipsOf, Chained, AllCandidates, AllSkipped, WithFate;
    SkipsExactly(bases);
    var all := AllCandidates(bases);
    SkipsAre(all, fates, id, Locked);
    if i :| 0 <= i < |fates| && all[i].id == id && fates[i] == Spared(Locked) {
      assert Proper(all[i], fates[i], passes[i]);
      var e :| e in passes[i] && e.Refused?;
      InChain(passes, e);
      assert e.Of() == id;
    }
    if e :| e in Chained(passes) && e.Refused? && e.Of() == id {
      InChain(passes, e);
      var i :| 0 <= i < |passes| && e in passes[i];
      assert Proper(all[i], fates[i], passes[i]);
    }
  }
}
