/**
 The migration runner: which migrations are pending, running and recording them
 in order, and what crashes and restarts in between may do. Versions are
 compared as section 11 of Semantic Versioning 2.0.0 says for plain versions.
 */
module Upgrade {
  import opened Wrappers

  datatype Version = Version(major: nat, minor: nat, patch: nat)

  predicate Less(a: Version, b: Version) {
    a.major < b.major || (a.major == b.major && (a.minor < b.minor || (a.minor == b.minor && a.patch < b.patch)))
  }

  /** Precedence is decided by the first of major, minor and patch in which two versions differ. */
  lemma LessExact(a: Version, b: Version)
    ensures Less(a, b) <==>
      if a.major != b.major then a.major < b.major
      else if a.minor != b.minor then a.minor < b.minor
      else a.patch < b.patch
  {
  }

  predicate Ascending(vs: seq<Version>) {
    forall i, j :: 0 <= i < j < |vs| ==> Less(vs[i], vs[j])
  }

  /** The last recorded version, or 0.0.0. */
  function Last(recorded: seq<Version>): Version {
    if recorded == [] then Version(0, 0, 0) else recorded[|recorded| - 1]
  }

  /** Where the pending migrations start: at the first version above the last recorded one. */
  function FirstAbove(migs: seq<Version>, last: Version): (k: nat)
    ensures k <= |migs|
    ensures forall i :: 0 <= i < k ==> !Less(last, migs[i])
    ensures k < |migs| ==> Less(last, migs[k])
  {
    if migs == [] then 0
    else
      var k := FirstAbove(migs[..|migs| - 1], last);
      if k < |migs| - 1 || Less(last, migs[|migs| - 1]) then k else |migs|
  }

  method GetPendingMigrations(migs: seq<Version>, recorded: seq<Version>) returns (toRun: seq<Version>)
    ensures toRun == migs[FirstAbove(migs, Last(recorded))..]
  {
    var last := Last(recorded);
    for i := 0 to |migs|
      invariant forall j :: 0 <= j < i ==> !Less(last, migs[j])
    {
      if Less(last, migs[i]) {
        return migs[i..];
      }
    }
    return [];
  }

  /** Of an ascending list the pending suffix is exactly the versions above the last recorded one. */
  lemma PendingExactly(migs: seq<Version>, last: Version)
    requires Ascending(migs)
    ensures forall i :: 0 <= i < |migs| ==> (Less(last, migs[i]) <==> i >= FirstAbove(migs, last))
  {
  }

  /**
   What is assumed of the migrations, over any database state D: run(i, d) is
   the state after migration i, torn(i, d, n) one that a crash inside it may
   leave, applied(i, d) that it has been run, and table(d) that there is a
   settings table to record in.
   */
  datatype Migrations<!D> = Migrations(
    run: (nat, D) -> D, torn: (nat, D, nat) -> D, applied: (nat, D) -> bool, table: D -> bool)

  ghost predicate Absorbing<D(!new)>(m: Migrations<D>) {
    && (forall i, d :: m.applied(i, m.run(i, d)))
    && (forall i, d :: m.applied(i, d) ==> m.run(i, d) == d)
    && (forall i, d, n :: m.run(i, m.torn(i, d, n)) == m.run(i, d))
    && (forall i, j, d :: m.applied(j, d) ==> m.applied(j, m.run(i, d)))
    && (forall i, j, d, n :: m.applied(j, d) ==> m.applied(j, m.torn(i, d, n)))
    && (forall i, d :: m.table(d) ==> m.table(m.run(i, d)))
    && (forall i, d, n :: m.table(d) ==> m.table(m.torn(i, d, n)))
  }

  /** Migrations i up to n, run in order. */
  function InOrder<D>(m: Migrations<D>, i: nat, n: nat, d: D): D
    requires i <= n
    decreases n - i
  {
    if i == n then d else InOrder(m, i + 1, n, m.run(i, d))
  }

  predicate AllApplied<D>(m: Migrations<D>, n: nat, d: D) {
    forall i: nat :: i < n ==> m.applied(i, d)
  }

  /** Running what is applied changes nothing. */
  lemma {:induction false} AppliedAreSkipped<D(!new)>(m: Migrations<D>, i: nat, k: nat, n: nat, d: D)
    requires Absorbing(m) && i <= k <= n && AllApplied(m, k, d)
    ensures InOrder(m, i, n, d) == InOrder(m, k, n, d)
    decreases k - i
  {
    if i < k {
      AppliedAreSkipped(m, i + 1, k, n, d);
    }
  }

  /** The versions of migrations i up to n that find a table to be recorded in, once run. */
  function RecordedInOrder<D>(m: Migrations<D>, migs: seq<Version>, i: nat, d: D): seq<Version>
    requires i <= |migs|
    decreases |migs| - i
  {
    if i == |migs| then []
    else
      var after := m.run(i, d);
      (if m.table(after) then [migs[i]] else []) + RecordedInOrder(m, migs, i + 1, after)
  }

  /** Running up to the next migration is running it after the ones before. */
  lemma {:induction false} InOrderNext<D>(m: Migrations<D>, i: nat, n: nat, d: D)
    requires i <= n
    ensures InOrder(m, i, i, d) == d && InOrder(m, i, n + 1, d) == m.run(n, InOrder(m, i, n, d))
    decreases n - i
  {
    if i < n {
      InOrderNext(m, i + 1, n, m.run(i, d));
    }
  }

  /** How many of the migrations i up to k found a table once they had been run. */
  function FoundTable<D>(m: Migrations<D>, i: nat, k: nat, d: D): nat
    requires i <= k
  {
    if k == i then 0 else FoundTable(m, i, k - 1, d) + if m.table(InOrder(m, i, k, d)) then 1 else 0
  }

  lemma {:induction false} FoundTableFirst<D>(m: Migrations<D>, i: nat, k: nat, d: D)
    requires i < k
    ensures FoundTable(m, i, k, d)
         == (if m.table(m.run(i, d)) then 1 else 0) + FoundTable(m, i + 1, k, m.run(i, d))
    decreases k
  {
    if i + 1 < k {
      FoundTableFirst(m, i, k - 1, d);
    } else {
      assert InOrder(m, i, k, d) == InOrder(m, i + 1, k, m.run(i, d)) == m.run(i, d);
    }
  }

  /** Recorded are, in order, the versions of those that find a table once they have been run, and no other. */
  lemma {:induction false} RecordedInOrderExact<D>(m: Migrations<D>, migs: seq<Version>, i: nat, d: D)
    requires i <= |migs|
    ensures |RecordedInOrder(m, migs, i, d)| == FoundTable(m, i, |migs|, d)
    ensures forall k :: i <= k < |migs| && m.table(InOrder(m, i, k + 1, d)) ==>
      FoundTable(m, i, k, d) < |RecordedInOrder(m, migs, i, d)|
      && RecordedInOrder(m, migs, i, d)[FoundTable(m, i, k, d)] == migs[k]
    decreases |migs| - i
  {
    if i < |migs| {
      var after := m.run(i, d);
      RecordedInOrderExact(m, migs, i + 1, after);
      FoundTableFirst(m, i, |migs|, d);
      forall k | i <= k < |migs| && m.table(InOrder(m, i, k + 1, d))
        ensures FoundTable(m, i, k, d) < |RecordedInOrder(m, migs, i, d)|
        ensures RecordedInOrder(m, migs, i, d)[FoundTable(m, i, k, d)] == migs[k]
      {
        if k > i {
          FoundTableFirst(m, i, k, d);
          assert InOrder(m, i, k + 1, d) == InOrder(m, i + 1, k + 1, after);
        } else {
          assert InOrder(m, i, i + 1, d) == InOrder(m, i + 1, i + 1, after) == after;
        }
      }
    }
  }

  class Database<!D> {
    var d: D
    var recorded: seq<Version>

    constructor (d: D, recorded: seq<Version>)
      ensures this.d == d && this.recorded == recorded
    {
      this.d, this.recorded := d, recorded;
    }

    /** An upgrade nothing interrupts. Recording needs the settings table, and goes on without it. */
    method Upgrade(m: Migrations<D>, migs: seq<Version>, record: bool)
      modifies this
      ensures var k := FirstAbove(migs, Last(old(recorded)));
        && d == InOrder(m, k, |migs|, old(d))
        && recorded == old(recorded) + if record then RecordedInOrder(m, migs, k, old(d)) else []
    {
      var toRun := GetPendingMigrations(migs, recorded);
      ghost var k := FirstAbove(migs, Last(recorded));
      var first := |migs| - |toRun|;
      for i := 0 to |toRun|
        invariant InOrder(m, k, |migs|, old(d)) == InOrder(m, k + i, |migs|, d)
        invariant record ==>
          old(recorded) + RecordedInOrder(m, migs, k, old(d)) == recorded + RecordedInOrder(m, migs, k + i, d)
        invariant !record ==> recorded == old(recorded)
      {
        ghost var before := recorded;
        d := m.run(first + i, d);
        if record && m.table(d) {
          recorded := recorded + [toRun[i]];
          assert before + ([toRun[i]] + RecordedInOrder(m, migs, k + i + 1, d))
              == recorded + RecordedInOrder(m, migs, k + i + 1, d);
        }
      }
    }
  }

  /** Where a process is: not upgrading, about to run migration k, or to record it. */
  datatype Phase = Idle | Running(k: nat, record: bool) | Ran(k: nat, record: bool) | Finished(record: bool)

  datatype World<D> = World(d: D, recorded: seq<Version>, phase: Phase)

  datatype Action = Boot(record: bool) | Run | Tear(n: nat) | Record | Finish | Crash

  predicate Enabled<D>(migs: seq<Version>, w: World<D>, a: Action) {
    match a
    case Boot(record) => w.phase.Idle? || w.phase.Finished?
    case Run => w.phase.Running? && w.phase.k < |migs|
    case Tear(n) => w.phase.Running? && w.phase.k < |migs|
    case Record => w.phase.Ran? && w.phase.k < |migs|
    case Finish => w.phase.Running? && w.phase.k == |migs|
    case Crash => true
  }

  function Next<D>(m: Migrations<D>, migs: seq<Version>, w: World<D>, a: Action): World<D>
    requires Enabled(migs, w, a)
  {
    match a
    case Boot(record) => w.(phase := Running(FirstAbove(migs, Last(w.recorded)), record))
    case Run => w.(d := m.run(w.phase.k, w.d), phase := Ran(w.phase.k, w.phase.record))
    case Tear(n) => w.(d := m.torn(w.phase.k, w.d, n), phase := Idle)
    case Record =>
      w.(recorded := if w.phase.record && m.table(w.d) then w.recorded + [migs[w.phase.k]] else w.recorded,
         phase := Running(w.phase.k + 1, w.phase.record))
    case Finish => w.(phase := Finished(w.phase.record))
    case Crash => w.(phase := Idle)
  }

  function After<D>(m: Migrations<D>, migs: seq<Version>, w: World<D>, trace: seq<Action>): Option<World<D>> {
    if trace == [] then Some(w)
    else
      var before := After(m, migs, w, trace[..|trace| - 1]);
      var a := trace[|trace| - 1];
      if before.Some? && Enabled(migs, before.value, a) then Some(Next(m, migs, before.value, a)) else None
  }

  /** A database on which everything up to the last recorded version has been run. */
  predicate Sound<D>(m: Migrations<D>, migs: seq<Version>, w: World<D>) {
    && Ascending(w.recorded) && AllApplied(m, FirstAbove(migs, Last(w.recorded)), w.d)
    && (w.recorded != [] ==> m.table(w.d))
  }

  predicate AtWork<D>(m: Migrations<D>, migs: seq<Version>, w: World<D>) {
    match w.phase
    case Idle => true
    case Running(k, record) =>
      k <= |migs| && AllApplied(m, k, w.d) && FirstAbove(migs, Last(w.recorded)) <= k
      && (record && m.table(w.d) ==>
          k == FirstAbove(migs, Last(w.recorded)) || (k > 0 && Last(w.recorded) == migs[k - 1]))
    case Ran(k, record) => k < |migs| && AllApplied(m, k + 1, w.d) && FirstAbove(migs, Last(w.recorded)) <= k
    case Finished(record) =>
      AllApplied(m, |migs|, w.d)
      && (record && m.table(w.d) ==> FirstAbove(migs, Last(w.recorded)) == |migs|)
  }

  lemma {:induction false} RecordAscends(recorded: seq<Version>, v: Version)
    requires Ascending(recorded) && Less(Last(recorded), v)
    ensures Ascending(recorded + [v])
  {
  }

  lemma AboveOwn(migs: seq<Version>, k: nat)
    requires Ascending(migs) && k < |migs|
    ensures FirstAbove(migs, migs[k]) == k + 1
  {
  }

  lemma RecordKeepsSound<D>(m: Migrations<D>, migs: seq<Version>, w: World<D>)
    requires Ascending(migs) && Sound(m, migs, w) && AtWork(m, migs, w) && Enabled(migs, w, Record)
    ensures Sound(m, migs, Next(m, migs, w, Record)) && AtWork(m, migs, Next(m, migs, w, Record))
  {
    var k := w.phase.k;
    PendingExactly(migs, Last(w.recorded));
    AboveOwn(migs, k);
    RecordAscends(w.recorded, migs[k]);
  }

  lemma FinishKeepsSound<D>(m: Migrations<D>, migs: seq<Version>, w: World<D>)
    requires Ascending(migs) && Sound(m, migs, w) && AtWork(m, migs, w) && Enabled(migs, w, Finish)
    ensures AtWork(m, migs, Next(m, migs, w, Finish))
  {
  }

  lemma StepKeepsSound<D(!new)>(m: Migrations<D>, migs: seq<Version>, w: World<D>, a: Action)
    requires Absorbing(m) && Ascending(migs) && Sound(m, migs, w) && AtWork(m, migs, w) && Enabled(migs, w, a)
    ensures Sound(m, migs, Next(m, migs, w, a)) && AtWork(m, migs, Next(m, migs, w, a))
    ensures InOrder(m, 0, |migs|, Next(m, migs, w, a).d) == InOrder(m, 0, |migs|, w.d)
  {
    match a
    case Record => RecordKeepsSound(m, migs, w);
    case Finish => FinishKeepsSound(m, migs, w);
    case Run => RunKeepsOutcome(m, w.phase.k, |migs|, w.d, m.run(w.phase.k, w.d));
    case Tear(n) => RunKeepsOutcome(m, w.phase.k, |migs|, w.d, m.torn(w.phase.k, w.d, n));
    case _ =>
  }

  /** Running the next migration, or tearing it, does not change what an in-order run comes to. */
  lemma RunKeepsOutcome<D(!new)>(m: Migrations<D>, k: nat, n: nat, d: D, after: D)
    requires Absorbing(m) && k < n && AllApplied(m, k, d)
    requires after == m.run(k, d) || exists x: nat :: after == m.torn(k, d, x)
    ensures InOrder(m, 0, n, after) == InOrder(m, 0, n, d) && AllApplied(m, k, after)
  {
    assert AllApplied(m, k, after);
    AppliedAreSkipped(m, 0, k, n, d);
    AppliedAreSkipped(m, 0, k, n, after);
    assert m.run(k, after) == m.run(k, d);
  }

  /**
   Whatever crashes and restarts there were, recording or not: recorded
   versions ascend strictly and all of them have been run; one more in-order run
   always comes to the same state, and an upgrade that finishes has reached it.
   After a recording upgrade nothing is pending exactly when there is a table
   to record in.
   */
  lemma {:induction false} CrashSafe<D(!new)>(m: Migrations<D>, migs: seq<Version>, w0: World<D>, trace: seq<Action>,
                                              w: World<D>)
    requires Absorbing(m) && Ascending(migs) && Sound(m, migs, w0) && w0.phase.Idle?
    requires After(m, migs, w0, trace) == Some(w)
    ensures Sound(m, migs, w) && AtWork(m, migs, w)
    ensures InOrder(m, 0, |migs|, w.d) == InOrder(m, 0, |migs|, w0.d)
    ensures w.phase.Finished? ==> w.d == InOrder(m, FirstAbove(migs, Last(w0.recorded)), |migs|, w0.d)
    ensures w.phase == Finished(true) && |migs| > 0 && Less(Version(0, 0, 0), migs[|migs| - 1]) ==>
      (FirstAbove(migs, Last(w.recorded)) == |migs| <==> m.table(w.d))
  {
    if trace != [] {
      hide Absorbing, Enabled, Next, Sound, AtWork;
      var before := After(m, migs, w0, trace[..|trace| - 1]).value;
      CrashSafe(m, migs, w0, trace[..|trace| - 1], before);
      StepKeepsSound(m, migs, before, trace[|trace| - 1]);
    }
    if w.phase.Finished? {
      FinishedMeansDone(m, migs, w);
    }
    AppliedAreSkipped(m, 0, FirstAbove(migs, Last(w0.recorded)), |migs|, w0.d);
  }

  lemma FinishedMeansDone<D(!new)>(m: Migrations<D>, migs: seq<Version>, w: World<D>)
    requires Absorbing(m) && Sound(m, migs, w) && AtWork(m, migs, w) && w.phase.Finished?
    ensures InOrder(m, 0, |migs|, w.d) == w.d
    ensures w.phase.record && |migs| > 0 && Less(Version(0, 0, 0), migs[|migs| - 1]) ==>
      (FirstAbove(migs, Last(w.recorded)) == |migs| <==> m.table(w.d))
  {
    AppliedAreSkipped(m, 0, |migs|, |migs|, w.d);
  }

  const UP_TO_5: seq<Version> := [
    Version(0, 4, 0), Version(0, 7, 0), Version(0, 8, 0), Version(0, 9, 0), Version(1, 0, 0),
    Version(2, 0, 0), Version(2, 1, 0), Version(2, 2, 0), Version(2, 3, 0), Version(2, 4, 0),
    Version(2, 5, 0), Version(3, 0, 0), Version(4, 0, 0), Version(4, 1, 0), Version(5, 0, 0),
    Version(5, 1, 0)
  ]

  const FROM_6_0: seq<Version> := [
    Version(6, 0, 0), Version(6, 1, 0), Version(6, 2, 0), Version(6, 3, 0), Version(6, 4, 0),
    Version(6, 5, 0), Version(6, 6, 0), Version(6, 7, 0), Version(6, 8, 0), Version(6, 9, 0),
    Version(6, 10, 0), Version(6, 11, 0), Version(6, 12, 0), Version(6, 13, 0)
  ]

  const FROM_6_15: seq<Version> := [
    Version(6, 15, 0), Version(6, 16, 0), Version(6, 17, 0), Version(6, 18, 0), Version(6, 19, 0),
    Version(6, 20, 0), Version(6, 21, 0), Version(6, 22, 0), Version(6, 23, 0), Version(6, 24, 0),
    Version(6, 25, 0), Version(6, 26, 0)
  ]

  const FROM_6_27: seq<Version> := [
    Version(6, 27, 0), Version(6, 28, 0), Version(6, 29, 0), Version(6, 30, 0), Version(6, 31, 0),
    Version(6, 32, 0), Version(6, 33, 0), Version(6, 34, 0), Version(6, 35, 0), Version(6, 36, 0),
    Version(6, 37, 0), Version(6, 38, 0), Version(6, 39, 0)
  ]

  const MIG_LIST: seq<Version> := UP_TO_5 + FROM_6_0 + FROM_6_15 + FROM_6_27

  /** The list of this repository ascends, and starts above the version that stands for none. */
  lemma MigListAscends()
    ensures Ascending(MIG_LIST) && |MIG_LIST| == 55 && Less(Version(0, 0, 0), MIG_LIST[|MIG_LIST| - 1])
  {
    PartsAscend();
    AscendingJoin(UP_TO_5, FROM_6_0);
    AscendingJoin(UP_TO_5 + FROM_6_0, FROM_6_15);
    AscendingJoin(UP_TO_5 + FROM_6_0 + FROM_6_15, FROM_6_27);
  }

  lemma PartsAscend()
    ensures Ascending(UP_TO_5) && Ascending(FROM_6_0) && Ascending(FROM_6_15) && Ascending(FROM_6_27)
  {
    AscendingByNeighbours(UP_TO_5);
    AscendingByNeighbours(FROM_6_0);
    AscendingByNeighbours(FROM_6_15);
    AscendingByNeighbours(FROM_6_27);
  }

  lemma AscendingJoin(a: seq<Version>, b: seq<Version>)
    requires a != [] && b != [] && Ascending(a) && Ascending(b) && Less(a[|a| - 1], b[0])
    ensures Ascending(a + b)
  {
  }

  lemma {:induction false} AscendingByNeighbours(vs: seq<Version>)
    requires forall i :: 0 < i < |vs| ==> Less(vs[i - 1], vs[i])
    ensures Ascending(vs)
  {
    if vs != [] {
      var n := |vs| - 1;
      AscendingByNeighbours(vs[..n]);
      forall i, j | 0 <= i < j < |vs|
        ensures Less(vs[i], vs[j])
      {
        if j < n {
          assert Less(vs[..n][i], vs[..n][j]);
        } else if i < n - 1 {
          assert Less(vs[..n][i], vs[..n][n - 1]);
        }
      }
    }
  }

  lemma Then<D>(m: Migrations<D>, migs: seq<Version>, w0: World<D>, trace: seq<Action>, w: World<D>, a: Action)
    requires After(m, migs, w0, trace) == Some(w) && Enabled(migs, w, a)
    ensures After(m, migs, w0, trace + [a]) == Some(Next(m, migs, w, a))
  {
    hide Enabled, Next;
    assert (trace + [a])[..|trace|] == trace;
  }

  /** The first migration that is pending. */
  function First<D>(migs: seq<Version>, w: World<D>): nat {
    FirstAbove(migs, Last(w.recorded))
  }

  /**
   What upgrading from w will have recorded does not depend on crashes: there is
   a table to record in already, or as soon as the first pending migration has
   been run, or nothing is pending, or no pending migration makes one.
   */
  predicate RecordDetermined<D>(m: Migrations<D>, migs: seq<Version>, w: World<D>) {
    var k := First(migs, w);
    m.table(w.d) || k == |migs| || m.table(m.run(k, w.d)) || !m.table(InOrder(m, k, |migs|, w.d))
  }

  /** The pending versions, if there is going to be a table. */
  function RecordOf<D>(m: Migrations<D>, migs: seq<Version>, w: World<D>): seq<Version> {
    w.recorded + if m.table(InOrder(m, First(migs, w), |migs|, w.d)) then migs[First(migs, w)..] else []
  }

  /** A table is never lost. */
  lemma {:induction false} TableStays<D(!new)>(m: Migrations<D>, i: nat, n: nat, d: D)
    requires Absorbing(m) && i <= n && m.table(d)
    ensures m.table(InOrder(m, i, n, d))
    decreases n - i
  {
    if i < n {
      TableStays(m, i + 1, n, m.run(i, d));
    }
  }

  /**
   A run from w0 that has its table, or gets it from its first migration, has
   recorded the versions from the first pending one up to where it is.
   */
  ghost predicate RecordsAll<D>(m: Migrations<D>, migs: seq<Version>, w0: World<D>, w: World<D>) {
    var k0, k := First(migs, w0), First(migs, w);
    && k0 <= k && w.recorded == w0.recorded + migs[k0..k]
    && (m.table(w.d) || (k0 < |migs| ==> m.run(k0, w.d) == m.run(k0, w0.d)))
    && match w.phase
       case Idle => true
       case Running(at, record) => if m.table(w.d) then record ==> at == k else at == k0
       case Ran(at, record) => m.table(w.d) && (record ==> at == k)
       case Finished(record) => m.table(w.d) || k0 == |migs|
  }

  lemma RecordStepRecords<D>(m: Migrations<D>, migs: seq<Version>, w0: World<D>, w: World<D>)
    requires Ascending(migs) && RecordsAll(m, migs, w0, w) && Enabled(migs, w, Record)
    ensures RecordsAll(m, migs, w0, Next(m, migs, w, Record))
  {
    var k := w.phase.k;
    AboveOwn(migs, k);
    if w.phase.record {
      assert migs[First(migs, w0)..k + 1] == migs[First(migs, w0)..k] + [migs[k]];
    }
  }

  lemma StepRecords<D(!new)>(m: Migrations<D>, migs: seq<Version>, w0: World<D>, w: World<D>, a: Action)
    requires Absorbing(m) && Ascending(migs) && Sound(m, migs, w) && Enabled(migs, w, a)
    requires m.table(w0.d) || First(migs, w0) == |migs| || m.table(m.run(First(migs, w0), w0.d))
    requires m.table(w0.d) ==> m.table(w.d)
    requires RecordsAll(m, migs, w0, w)
    ensures RecordsAll(m, migs, w0, Next(m, migs, w, a))
    ensures m.table(w0.d) ==> m.table(Next(m, migs, w, a).d)
  {
    if a.Record? {
      RecordStepRecords(m, migs, w0, w);
    }
  }

  lemma {:induction false} AlwaysRecords<D(!new)>(m: Migrations<D>, migs: seq<Version>, w0: World<D>,
                                                  trace: seq<Action>, w: World<D>)
    requires Absorbing(m) && Ascending(migs) && Sound(m, migs, w0) && w0.phase.Idle?
    requires m.table(w0.d) || First(migs, w0) == |migs| || m.table(m.run(First(migs, w0), w0.d))
    requires After(m, migs, w0, trace) == Some(w)
    ensures RecordsAll(m, migs, w0, w) && (m.table(w0.d) ==> m.table(w.d))
  {
    if trace != [] {
      hide Absorbing, Enabled, Next, Sound, RecordsAll, AtWork;
      var before := After(m, migs, w0, trace[..|trace| - 1]).value;
      AlwaysRecords(m, migs, w0, trace[..|trace| - 1], before);
      CrashSafe(m, migs, w0, trace[..|trace| - 1], before);
      StepRecords(m, migs, w0, before, trace[|trace| - 1]);
    }
  }

  /** Then every recording upgrade that finishes, whatever crashes it took, has recorded the same. */
  lemma RecordIndependent<D(!new)>(m: Migrations<D>, migs: seq<Version>, w0: World<D>, trace: seq<Action>, w: World<D>)
    requires Absorbing(m) && Ascending(migs) && Sound(m, migs, w0) && w0.phase.Idle?
    requires RecordDetermined(m, migs, w0)
    requires After(m, migs, w0, trace) == Some(w) && w.phase == Finished(true)
    ensures w.recorded == RecordOf(m, migs, w0)
  {
    CrashSafe(m, migs, w0, trace, w);
    var k := First(migs, w0);
    if m.table(w0.d) || k == |migs| || m.table(m.run(k, w0.d)) {
      AlwaysRecords(m, migs, w0, trace, w);
      if m.table(w0.d) { TableStays(m, k, |migs|, w0.d); }
    } else {
      assert !m.table(w.d);
    }
  }

  /** From Running(k) on, nothing interrupts. */
  lemma {:induction false} Smoothly<D>(m: Migrations<D>, migs: seq<Version>, w0: World<D>, trace: seq<Action>,
                                       w: World<D>)
    returns (more: seq<Action>, end: World<D>)
    requires After(m, migs, w0, trace) == Some(w) && w.phase.Running? && w.phase.record && w.phase.k <= |migs|
    ensures After(m, migs, w0, more) == Some(end) && end.phase == Finished(true)
    ensures end.recorded == w.recorded + RecordedInOrder(m, migs, w.phase.k, w.d)
    decreases |migs| - w.phase.k
  {
    hide After;
    var k := w.phase.k;
    if k == |migs| {
      Then(m, migs, w0, trace, w, Finish);
      more, end := trace + [Finish], w.(phase := Finished(true));
    } else {
      var d := m.run(k, w.d);
      Then(m, migs, w0, trace, w, Run);
      Then(m, migs, w0, trace + [Run], w.(d := d, phase := Ran(k, true)), Record);
      var recorded := if m.table(d) then w.recorded + [migs[k]] else w.recorded;
      more, end := Smoothly(m, migs, w0, trace + [Run] + [Record], World(d, recorded, Running(k + 1, true)));
      var rest := RecordedInOrder(m, migs, k + 1, d);
      assert w.recorded + ([migs[k]] + rest) == w.recorded + [migs[k]] + rest;
    }
  }

  /** A crash right after the migration that makes the table, before it is recorded. */
  lemma {:induction false} CrashAtTable<D>(m: Migrations<D>, migs: seq<Version>, w0: World<D>, trace: seq<Action>,
                                           w: World<D>)
    returns (more: seq<Action>, end: World<D>)
    requires After(m, migs, w0, trace) == Some(w) && w.phase.Running? && w.phase.record && w.phase.k <= |migs|
    requires !m.table(w.d) && m.table(InOrder(m, w.phase.k, |migs|, w.d))
    ensures After(m, migs, w0, more) == Some(end) && end.phase == Idle && end.recorded == w.recorded && m.table(end.d)
    decreases |migs| - w.phase.k
  {
    hide After;
    var k := w.phase.k;
    var d := m.run(k, w.d);
    Then(m, migs, w0, trace, w, Run);
    var ran := w.(d := d, phase := Ran(k, true));
    if m.table(d) {
      Then(m, migs, w0, trace + [Run], ran, Crash);
      more, end := trace + [Run] + [Crash], ran.(phase := Idle);
    } else {
      Then(m, migs, w0, trace + [Run], ran, Record);
      more, end := CrashAtTable(m, migs, w0, trace + [Run] + [Record], ran.(phase := Running(k + 1, true)));
    }
  }

  lemma {:induction false} RecordedAtMost<D>(m: Migrations<D>, migs: seq<Version>, i: nat, d: D)
    requires i <= |migs|
    ensures |RecordedInOrder(m, migs, i, d)| <= |migs| - i
    decreases |migs| - i
  {
    if i < |migs| {
      RecordedAtMost(m, migs, i + 1, m.run(i, d));
    }
  }

  /**
   Otherwise what is recorded does depend on crashes, though what is run does
   not: a first migration that found no table is recorded after all when it is
   run again because of a crash.
   */
  lemma RecordedMayDiffer<D(!new)>(m: Migrations<D>, migs: seq<Version>, w0: World<D>)
    returns (smooth: seq<Action>, crashed: seq<Action>, a: World<D>, b: World<D>)
    requires Absorbing(m) && Ascending(migs) && Sound(m, migs, w0) && w0.phase.Idle?
    requires !RecordDetermined(m, migs, w0)
    ensures After(m, migs, w0, smooth) == Some(a) && After(m, migs, w0, crashed) == Some(b)
    ensures a.phase == b.phase == Finished(true) && a.d == b.d && a.recorded != b.recorded
  {
    var k := First(migs, w0);
    assert After(m, migs, w0, []) == Some(w0);
    Then(m, migs, w0, [], w0, Boot(true));
    var boot, running := [] + [Boot(true)], w0.(phase := Running(k, true));
    smooth, a := Smoothly(m, migs, w0, boot, running);
    RecordedAtMost(m, migs, k + 1, m.run(k, w0.d));
    var before, down := CrashAtTable(m, migs, w0, boot, running);
    CrashSafe(m, migs, w0, before, down);
    Then(m, migs, w0, before, down, Boot(true));
    crashed, b := Smoothly(m, migs, w0, before + [Boot(true)], down.(phase := Running(First(migs, down), true)));
    RecordsAfterTable(m, migs, First(migs, down), down.d);
    CrashSafe(m, migs, w0, smooth, a);
    CrashSafe(m, migs, w0, crashed, b);
  }

  ghost predicate Finishes<D>(m: Migrations<D>, migs: seq<Version>, w0: World<D>, trace: seq<Action>, w: World<D>) {
    After(m, migs, w0, trace) == Some(w) && w.phase == Finished(true)
  }

  /** All recording upgrades that finish record the same exactly when the condition holds. */
  lemma RecordExactly<D(!new)>(m: Migrations<D>, migs: seq<Version>, w0: World<D>)
    requires Absorbing(m) && Ascending(migs) && Sound(m, migs, w0) && w0.phase.Idle?
    ensures RecordDetermined(m, migs, w0) <==>
      forall s, t, a, b :: Finishes(m, migs, w0, s, a) && Finishes(m, migs, w0, t, b) ==> a.recorded == b.recorded
  {
    if RecordDetermined(m, migs, w0) {
      forall s, a | Finishes(m, migs, w0, s, a)
        ensures a.recorded == RecordOf(m, migs, w0)
      {
        RecordIndependent(m, migs, w0, s, a);
      }
    } else {
      var s, t, a, b := RecordedMayDiffer(m, migs, w0);
      assert Finishes(m, migs, w0, s, a) && Finishes(m, migs, w0, t, b);
    }
  }

  /** With a table there, every version is recorded. */
  lemma {:induction false} RecordsAfterTable<D(!new)>(m: Migrations<D>, migs: seq<Version>, i: nat, d: D)
    requires Absorbing(m) && i <= |migs| && m.table(d)
    ensures RecordedInOrder(m, migs, i, d) == migs[i..]
    decreases |migs| - i
  {
    if i < |migs| {
      RecordsAfterTable(m, migs, i + 1, m.run(i, d));
    }
  }

  const TWO: seq<Version> := [Version(0, 4, 0), Version(0, 7, 0)]

  /** Two migrations, the second of which makes the settings table. */
  const SMALL: Migrations<(bool, bool)> := Migrations(
    (i, d: (bool, bool)) => if i == 0 then (true, d.1) else if i == 1 then (d.0, true) else d,
    (i, d: (bool, bool), n) => d,
    (i, d: (bool, bool)) => (i == 0 ==> d.0) && (i == 1 ==> d.1),
    (d: (bool, bool)) => d.1)

  /** A fresh database of the oldest kind is such a case: the first migration is older than the table. */
  lemma OldestIsUndetermined()
    ensures var w0 := World((false, false), [], Idle);
      Absorbing(SMALL) && Ascending(TWO) && Sound(SMALL, TWO, w0) && !RecordDetermined(SMALL, TWO, w0)
  {
    var d := (false, false);
    assert FirstAbove([], Last([])) == 0;
    assert TWO[..1][..0] == [];
    assert InOrder(SMALL, 0, 2, d) == InOrder(SMALL, 1, 2, (true, false)) == InOrder(SMALL, 2, 2, (true, true));
  }
}
