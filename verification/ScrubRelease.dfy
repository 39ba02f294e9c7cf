/**
 Whether a validated list is released: the job row must be gone once nothing is
 left in flight, whatever path the reconcile took.
 */
module ScrubRelease {
  import opened Wrappers
  import opened ScrubModel
  import opened ScrubBatching
  import opened ScrubStore
  import opened ScrubProtocol

  /** The submission succeeded and no callback's request or reconcile is still running. */
  ghost predicate Quiescent(w: World) {
    && w.submitter.Submitted?
    && (forall h :: 0 <= h < |w.handlers| ==> w.handlers[h].Answered?)
    && (forall r :: 0 <= r < |w.runs| ==> w.runs[r].at.Finished?)
  }

  ghost predicate AllRowsTerminal(c: Config, w: World) {
    && w.job.Some?
    && |w.rows| == c.total
    && forall id :: id in w.rows ==> Terminal(w.rows[id].status)
  }

  /** This request will still see every row terminal, or has. */
  ghost predicate WillNotice(c: Config, h: Handler) {
    h.ToLoadJob? || h.ToListRows? || (h.ToWriteJob? && Aggregate(h.total, h.seen).done)
  }

  /** Someone is on the way to releasing the job. */
  ghost predicate Watched(c: Config, w: World) {
    || (exists h :: 0 <= h < |w.handlers| && WillNotice(c, w.handlers[h]))
    || (exists r :: 0 <= r < |w.runs| && !w.runs[r].at.Finished?)
  }

  /** No lost wake-up. */
  ghost predicate Awake(c: Config, w: World) {
    AllRowsTerminal(c, w) ==> Watched(c, w)
  }

  lemma HandlerMoves(c: Config, w: World, v: World, h: nat)
    requires h < |w.handlers| && |v.handlers| >= |w.handlers|
    requires forall k :: 0 <= k < |w.handlers| && k != h ==> v.handlers[k] == w.handlers[k]
    requires |v.runs| >= |w.runs| && forall r :: 0 <= r < |w.runs| ==> v.runs[r] == w.runs[r]
    requires WillNotice(c, v.handlers[h]) || !WillNotice(c, w.handlers[h])
    ensures Watched(c, w) ==> Watched(c, v)
  {
  }

  lemma PendingRowAwake(c: Config, w: World, id: BatchID)
    requires id in w.rows && w.rows[id].status == Pending
    ensures Awake(c, w)
  {
  }

  /** The same requests and runs still watch when the submission moves on. */
  lemma StillAwake(c: Config, w: World, v: World)
    requires Awake(c, w) && v.job == w.job && v.rows == w.rows && v.handlers == w.handlers && v.runs == w.runs
    ensures Awake(c, v)
  {
  }

  lemma TooFewAwake(c: Config, w: World)
    requires |w.rows| < c.total
    ensures Awake(c, w)
  {
  }

  lemma DropKeepsAwake(c: Config, w: World)
    requires c.total > 0 && Safe(c, w) && Awake(c, w) && Enabled(c, w, DropBatch)
    ensures Awake(c, NextSubmit(c, w, DropBatch))
  {
    var v := NextSubmit(c, w, DropBatch);
    RowsBounded(c, w);
    DroppedAwake(c, w, v, w.submitter.id);
  }

  lemma DroppedAwake(c: Config, w: World, v: World, id: BatchID)
    requires Awake(c, w) && |w.rows| <= c.total
    requires v.rows == w.rows - {id} && v.job == w.job && v.handlers == w.handlers && v.runs == w.runs
    ensures Awake(c, v)
  {
    hide Awake;
    if id in w.rows {
      FewerRows(w.rows, id);
      TooFewAwake(c, v);
    } else {
      assert v.rows == w.rows;
      StillAwake(c, w, v);
    }
  }

  lemma FewerRows(rows: map<BatchID, BatchRow>, id: BatchID)
    requires id in rows
    ensures |rows - {id}| < |rows|
  {
  }

  lemma SubmitKeepsAwake(c: Config, w: World, a: Action)
    requires c.total > 0 && Safe(c, w) && Awake(c, w) && IsSubmit(a) && Enabled(c, w, a)
    ensures Awake(c, NextSubmit(c, w, a))
  {
    var v := NextSubmit(c, w, a);
    match a
    case InsertJob => assert |v.rows| == 0;
    case InsertBatch(id) =>
      if w.job.Some? { PendingRowAwake(c, v, id); } else { StillAwake(c, w, v); }
    case ScrubAccepts(_) => StillAwake(c, w, v);
    case ScrubRefuses => StillAwake(c, w, v);
    case WritePending =>
      if w.submitter.id in w.rows { PendingRowAwake(c, v, w.submitter.id); } else { StillAwake(c, w, v); }
    case Bill => StillAwake(c, w, v);
    case DropBatch => DropKeepsAwake(c, w);
    case DropJob =>
  }

  lemma ApplyKeepsAwake(c: Config, w: World, h: nat)
    requires Enabled(c, w, ApplyProgress(h))
    ensures Awake(c, NextHandle(c, w, ApplyProgress(h)))
  {
    var v := NextHandle(c, w, ApplyProgress(h));
    assert WillNotice(c, v.handlers[h]);
  }

  lemma ListKeepsAwake(c: Config, w: World, h: nat, order: seq<BatchID>)
    requires c.total > 0 && Safe(c, w) && Awake(c, w) && Enabled(c, w, ListRows(h, order))
    ensures Awake(c, NextHandle(c, w, ListRows(h, order)))
  {
    var v := NextHandle(c, w, ListRows(h, order));
    assert HandlerInv(c, w, w.handlers[h]);
    DoneListing(c, w, order);
    if AllRowsTerminal(c, v) {
      assert WillNotice(c, v.handlers[h]);
    }
  }

  lemma WriteKeepsAwake(c: Config, w: World, h: nat)
    requires Awake(c, w) && Enabled(c, w, WriteJob(h))
    ensures Awake(c, NextHandle(c, w, WriteJob(h)))
  {
    var v := NextHandle(c, w, WriteJob(h));
    if WillNotice(c, w.handlers[h]) {
      assert !v.runs[|w.runs|].at.Finished?;
    } else {
      HandlerMoves(c, w, v, h);
    }
  }

  lemma HandleKeepsAwake(c: Config, w: World, a: Action)
    requires c.total > 0 && Safe(c, w) && Awake(c, w) && IsHandle(a) && Enabled(c, w, a)
    ensures Awake(c, NextHandle(c, w, a))
  {
    match a
    case Callback(_, _) =>
      var v := NextHandle(c, w, a);
      if h :| 0 <= h < |w.handlers| && WillNotice(c, w.handlers[h]) {
        assert WillNotice(c, v.handlers[h]);
      }
    case ApplyProgress(h) => ApplyKeepsAwake(c, w, h);
    case LoadJob(h) =>
      if w.job.Some? { HandlerMoves(c, w, NextHandle(c, w, a), h); }
    case ListRows(h, order) => ListKeepsAwake(c, w, h, order);
    case WriteJob(h) => WriteKeepsAwake(c, w, h);
  }

  lemma RunKeepsAwake(c: Config, w: World, a: Action)
    requires Awake(c, w) && !IsSubmit(a) && !IsHandle(a) && Enabled(c, w, a)
    ensures Awake(c, NextRun(c, w, a))
  {
    var v := NextRun(c, w, a);
    if !a.DeleteJob? {
      assert !v.runs[a.r].at.Finished?;
    }
  }

  lemma {:induction false} AlwaysAwake(c: Config, db: Tables, trace: seq<Action>)
    requires c.total > 0 && After(c, Init(db), trace).Some?
    ensures Awake(c, After(c, Init(db), trace).value)
  {
    if trace != [] {
      var n := |trace| - 1;
      AlwaysAwake(c, db, trace[..n]);
      AlwaysSafe(c, db, trace[..n]);
      var w, a := After(c, Init(db), trace[..n]).value, trace[n];
      if IsSubmit(a) { SubmitKeepsAwake(c, w, a); }
      else if IsHandle(a) { HandleKeepsAwake(c, w, a); }
      else { RunKeepsAwake(c, w, a); }
    }
  }

  /** With no regress, a heard batch's row stays terminal unless the pending write overwrote it. */
  ghost predicate HeardStays(w: World) {
    forall id :: id in w.rows && id in w.said && id !in w.lost ==> Terminal(w.rows[id].status)
  }

  lemma SubmitKeepsHeard(c: Config, w: World, a: Action)
    requires HeardStays(w) && IsSubmit(a) && Enabled(c, w, a)
    requires w.said.Keys <= IDs(w.issued)
    ensures HeardStays(NextSubmit(c, w, a))
    ensures NextSubmit(c, w, a).said.Keys <= IDs(NextSubmit(c, w, a).issued)
  {
  }

  lemma RowKeepsHeard(w: World, id: BatchID, row: BatchRow)
    requires HeardStays(w)
    requires id in w.rows && Terminal(w.rows[id].status) ==> Terminal(row.status)
    requires id in w.rows && id in w.said && !Terminal(row.status) ==> id in w.lost
    ensures HeardStays(WithRow(w, id, row))
  {
  }

  lemma {:induction false} AlwaysHeard(c: Config, db: Tables, trace: seq<Action>)
    requires c.total > 0 && !c.rules.AnyOrder? && After(c, Init(db), trace).Some?
    ensures HeardStays(After(c, Init(db), trace).value)
    ensures After(c, Init(db), trace).value.said.Keys <= IDs(After(c, Init(db), trace).value.issued)
  {
    if trace != [] {
      var n := |trace| - 1;
      AlwaysHeard(c, db, trace[..n]);
      AlwaysSafe(c, db, trace[..n]);
      var w, a := After(c, Init(db), trace[..n]).value, trace[n];
      if IsSubmit(a) {
        SubmitKeepsHeard(c, w, a);
      } else if a.ApplyProgress? {
        RowKeepsHeard(w.(handlers := w.handlers[a.h := ToLoadJob]), w.handlers[a.h].id, w.handlers[a.h].row);
      }
    }
  }

  /**
   Nothing in flight and the job row still there means some chunk's row is not
   terminal: unreadable settings, a Scrub disabled meanwhile, history errors and
   failed chunks all release the list.
   */
  lemma QuiescentRelease(c: Config, db: Tables, trace: seq<Action>, w: World)
    requires c.total > 0 && After(c, Init(db), trace) == Some(w) && Quiescent(w)
    ensures w.job.None? ==> w.rows == map[]
    ensures w.job.Some? ==> exists id :: id in w.issued && id in w.rows && !Terminal(w.rows[id].status)
  {
    AlwaysSafe(c, db, trace);
    AlwaysAwake(c, db, trace);
    if w.job.Some? {
      RowsBounded(c, w);
      DistinctCount(w.issued);
      assert |w.rows.Keys| == |w.rows| == c.total;
      var id :| id in w.rows && !Terminal(w.rows[id].status);
      assert id in IDs(w.issued);
    }
  }

  lemma {:induction false} DistinctCount(issued: seq<BatchID>)
    requires forall j, k :: 0 <= j < k < |issued| ==> issued[j] != issued[k]
    ensures |IDs(issued)| == |issued|
  {
    if issued != [] {
      var n := |issued| - 1;
      DistinctCount(issued[..n]);
      assert IDs(issued) == IDs(issued[..n]) + {issued[n]};
    }
  }

  /** A pending write that stands over a terminal status leaves a row that is not terminal. */
  ghost predicate LostAreOpen(w: World) {
    forall id :: id in w.lost && id in w.rows ==> !Terminal(w.rows[id].status)
  }

  lemma {:induction false} AlwaysLostOpen(c: Config, db: Tables, trace: seq<Action>)
    requires After(c, Init(db), trace).Some?
    ensures LostAreOpen(After(c, Init(db), trace).value)
  {
    if trace != [] {
      hide LostAreOpen, Enabled, Next, Init;
      AlwaysLostOpen(c, db, trace[..|trace| - 1]);
      StepLostOpen(c, After(c, Init(db), trace[..|trace| - 1]).value, trace[|trace| - 1]);
    } else {
      assert Init(db).lost == {};
    }
  }

  lemma StepLostOpen(c: Config, w: World, a: Action)
    requires LostAreOpen(w) && Enabled(c, w, a)
    ensures LostAreOpen(Next(c, w, a))
  {
    hide Aggregate, Tag, Unsubscribe, Summarise;
  }

  /**
   Exactly when the list is released, provided terminal statuses do not regress:
   at rest the job row is gone if and only if every chunk's terminal callback was
   processed and no row that is there has lost its terminal status to the pending
   write.
   */
  lemma ReleaseExact(c: Config, db: Tables, trace: seq<Action>, w: World)
    requires c.total > 0 && !c.rules.AnyOrder? && After(c, Init(db), trace) == Some(w) && Quiescent(w)
    ensures w.job.None? <==>
      (forall id :: id in w.issued ==> id in w.said) && forall id :: id in w.lost ==> id !in w.rows
    ensures LostAreOpen(w)
  {
    AlwaysSafe(c, db, trace);
    AlwaysHeard(c, db, trace);
    AlwaysLostOpen(c, db, trace);
    QuiescentRelease(c, db, trace, w);
  }

  /** The job is there, its chunk id is not terminal, and nothing on the way could release it. */
  ghost predicate Waiting(c: Config, w: World, id: BatchID) {
    && w.job.Some? && w.submitter.Submitted?
    && id in w.rows && !Terminal(w.rows[id].status)
    && (forall h :: 0 <= h < |w.handlers| && w.handlers[h].ToWriteJob? ==>
          !Aggregate(w.handlers[h].total, w.handlers[h].seen).done)
    && (forall r :: 0 <= r < |w.runs| ==> w.runs[r].at.Finished?)
  }

  /** No terminal callback for the chunk is applied. */
  ghost predicate NotHeard(w: World, a: Action, id: BatchID) {
    a.ApplyProgress? && HandlerAt(w, a.h) && w.handlers[a.h].ToApply? && w.handlers[a.h].id == id ==>
      !Terminal(w.handlers[a.h].row.status)
  }

  lemma StepWaits(c: Config, w: World, a: Action, id: BatchID)
    requires c.total > 0 && Safe(c, w) && Waiting(c, w, id) && Enabled(c, w, a) && NotHeard(w, a, id)
    ensures Waiting(c, Next(c, w, a), id)
  {
    hide SubmitterInv, RowsInv, Aggregate;
    if a.ListRows? {
      assert HandlerInv(c, w, w.handlers[a.h]);
      DoneListing(c, w, a.order);
    }
  }

  /** No terminal callback for the chunk is applied along the trace. */
  ghost predicate NeverHeard(c: Config, w0: World, trace: seq<Action>, id: BatchID)
    requires After(c, w0, trace).Some?
  {
    trace == [] ||
    var n := |trace| - 1;
    NeverHeard(c, w0, trace[..n], id) && NotHeard(After(c, w0, trace[..n]).value, trace[n], id)
  }

  lemma {:induction false} KeepsWaiting(c: Config, w0: World, trace: seq<Action>, id: BatchID)
    requires c.total > 0 && Safe(c, w0) && Waiting(c, w0, id)
    requires After(c, w0, trace).Some? && NeverHeard(c, w0, trace, id)
    ensures Safe(c, After(c, w0, trace).value) && Waiting(c, After(c, w0, trace).value, id)
  {
    if trace != [] {
      hide Safe, Waiting, Enabled, Next, NotHeard;
      var n := |trace| - 1;
      KeepsWaiting(c, w0, trace[..n], id);
      StepKeepsSafe(c, After(c, w0, trace[..n]).value, trace[n]);
      StepWaits(c, After(c, w0, trace[..n]).value, trace[n], id);
    }
  }

  lemma RestIsWaiting(c: Config, w: World, id: BatchID)
    requires Quiescent(w) && w.job.Some? && id in w.rows && !Terminal(w.rows[id].status)
    ensures Waiting(c, w, id)
  {
  }

  /** A job at rest with a chunk that is not terminal stays until a terminal callback for that chunk comes. */
  lemma WaitsUntilHeard(c: Config, db: Tables, before: seq<Action>, w0: World, trace: seq<Action>, w: World,
                        id: BatchID)
    requires c.total > 0 && After(c, Init(db), before) == Some(w0) && Quiescent(w0)
    requires w0.job.Some? && id in w0.rows && !Terminal(w0.rows[id].status)
    requires After(c, w0, trace) == Some(w) && NeverHeard(c, w0, trace, id)
    ensures w.job.Some? && id in w.rows && !Terminal(w.rows[id].status)
  {
    AlwaysSafe(c, db, before);
    RestIsWaiting(c, w0, id);
    KeepsWaiting(c, w0, trace, id);
  }

  ghost predicate NothingLost(w: World) {
    && w.lost == {}
    && w.said.Keys <= w.armed <= IDs(w.issued)
    && (w.submitter.Calling? || w.submitter.ToWritePending? ==> w.submitter.id !in w.armed)
  }

  lemma SubmitLosesNothing(c: Config, w: World, a: Action)
    requires SubmitterInv(c, w) && NothingLost(w) && Enabled(c, w, a) && IsSubmit(a)
    ensures NothingLost(Next(c, w, a))
  {
    if a.InsertBatch? && w.job.Some? {
      assert IDs(w.issued + [a.id]) == IDs(w.issued) + {a.id};
    }
  }

  lemma StepLosesNothing(c: Config, w: World, a: Action)
    requires c.rules.Ordered? && Safe(c, w) && NothingLost(w) && Enabled(c, w, a)
    ensures NothingLost(Next(c, w, a))
  {
    if IsSubmit(a) {
      SubmitLosesNothing(c, w, a);
    } else if a.ApplyProgress? {
      hide SubmitterInv;
      assert w.rows.Keys <= IDs(w.issued);
    }
  }

  /** Callbacks that take effect after their batch's pending write never leave one standing. */
  lemma {:induction false} OrderedLosesNothing(c: Config, db: Tables, trace: seq<Action>)
    requires c.total > 0 && c.rules.Ordered? && After(c, Init(db), trace).Some?
    ensures NothingLost(After(c, Init(db), trace).value)
  {
    if trace != [] {
      var n := |trace| - 1;
      OrderedLosesNothing(c, db, trace[..n]);
      AlwaysSafe(c, db, trace[..n]);
      StepLosesNothing(c, After(c, Init(db), trace[..n]).value, trace[n]);
    }
  }

  /** So, when callbacks come after the pending write, hearing of every chunk is exactly what releases the list. */
  lemma OrderedRelease(c: Config, db: Tables, trace: seq<Action>, w: World)
    requires c.total > 0 && c.rules.Ordered? && After(c, Init(db), trace) == Some(w) && Quiescent(w)
    ensures w.job.None? <==> forall id :: id in w.issued ==> id in w.said
  {
    OrderedLosesNothing(c, db, trace);
    ReleaseExact(c, db, trace, w);
  }

  ghost predicate Reached(c: Config, db: Tables, trace: seq<Action>, w: World) {
    After(c, Init(db), trace) == Some(w)
  }

  lemma Reach(c: Config, db: Tables, trace: seq<Action>, w: World, a: Action, v: World)
    requires Reached(c, db, trace, w) && Enabled(c, w, a) && Next(c, w, a) == v
    ensures Reached(c, db, trace + [a], v)
  {
  }

  /** After the only chunk's row is inserted, its completed callback arrives and is applied. */
  ghost function Told(c: Config, db: Tables): World {
    World(Some(JobRow(1, 0, c.emails, 0, 0, Processing)), map[7 := BatchRow(Completed, 1, 1, 0)], db, 0, 0,
          Calling(0, 7), [ToListRows(1)], [], [7], {}, map[7 := Completed], {})
  }

  /** Then Scrub's acceptance is recorded over it. */
  ghost function Overwritten(c: Config, db: Tables): World {
    Told(c, db).(accepted := 1, rows := map[7 := BatchRow(Pending, 1, 0, 0)], submitter := ToBill(0, 1), armed := {7},
              lost := {7})
  }

  ghost function Stranded(c: Config, db: Tables): World {
    Overwritten(c, db).(handlers := [Answered], billed := 1, submitter := Submitted,
                     job := Some(JobRow(1, 0, 1, 0, 0, Processing)))
  }

  lemma ReachTold(c: Config, db: Tables) returns (trace: seq<Action>)
    requires c.total == 1 && c.rules.NoRegress?
    ensures Reached(c, db, trace, Told(c, db))
  {
    var row := BatchRow(Completed, 1, 1, 0);
    var w2 := Init(db).(job := Some(JobRow(1, 0, c.emails, 0, 0, Processing)),
                        rows := map[7 := BatchRow(Pending, c.size(0), 0, 0)],
                        issued := [7], submitter := Calling(0, 7));
    var w3 := w2.(handlers := [ToApply(7, row)]);
    var w4 := w3.(handlers := [ToLoadJob], rows := map[7 := row], said := map[7 := Completed]);
    trace := ReachInserted(c, db, w2);
    Reach(c, db, trace, w2, Callback(7, row), w3);
    trace := trace + [Callback(7, row)];
    assert w3.handlers[0 := ToLoadJob] == [ToLoadJob];
    assert w3.rows[7 := row] == map[7 := row] && w3.said[7 := Completed] == map[7 := Completed];
    Reach(c, db, trace, w3, ApplyProgress(0), w4);
    trace := trace + [ApplyProgress(0)];
    Reach(c, db, trace, w4, LoadJob(0), Told(c, db));
    trace := trace + [LoadJob(0)];
  }

  lemma ReachInserted(c: Config, db: Tables, w: World) returns (trace: seq<Action>)
    requires c.total == 1
    requires w == Init(db).(job := Some(JobRow(1, 0, c.emails, 0, 0, Processing)),
                            rows := map[7 := BatchRow(Pending, c.size(0), 0, 0)],
                            issued := [7], submitter := Calling(0, 7))
    ensures Reached(c, db, trace, w)
  {
    var w1 := Init(db).(job := Some(JobRow(1, 0, c.emails, 0, 0, Processing)), submitter := ToSubmit(0));
    Reach(c, db, [], Init(db), InsertJob, w1);
    assert w1.rows[7 := BatchRow(Pending, c.size(0), 0, 0)] == map[7 := BatchRow(Pending, c.size(0), 0, 0)];
    Reach(c, db, [InsertJob], w1, InsertBatch(7), w);
    trace := [InsertJob] + [InsertBatch(7)];
  }

  lemma ReachOverwritten(c: Config, db: Tables) returns (trace: seq<Action>)
    requires c.total == 1 && c.rules.NoRegress?
    ensures Reached(c, db, trace, Overwritten(c, db))
  {
    trace := ReachTold(c, db);
    var accepted := Told(c, db).(submitter := ToWritePending(0, 7, 1), accepted := 1);
    Reach(c, db, trace, Told(c, db), ScrubAccepts(1), accepted);
    trace := trace + [ScrubAccepts(1)];
    assert accepted.rows[7 := BatchRow(Pending, 1, 0, 0)] == map[7 := BatchRow(Pending, 1, 0, 0)];
    Reach(c, db, trace, accepted, WritePending, Overwritten(c, db));
    trace := trace + [WritePending];
  }

  /**
   The pending write of submitScrubBatch can land on top of a callback that
   already reported the batch completed. Then everything comes to rest with the
   job row still there and still processing, every chunk having been heard from;
   it stays until another terminal callback comes, which does release it.
   */
  lemma EarlyCallbackStrandsJob(c: Config, db: Tables)
    returns (trace: seq<Action>, w: World)
    requires c.total == 1 && c.rules.NoRegress?
    ensures After(c, Init(db), trace) == Some(w)
    ensures Quiescent(w) && w.job.Some? && w.job.value.status == Processing
    ensures forall id :: id in w.issued ==> id in w.said
    ensures w == Stranded(c, db)
  {
    trace := ReachOverwritten(c, db);
    var pending := BatchRow(Pending, 1, 0, 0);
    var over := Overwritten(c, db);
    var listed := over.(handlers := [ToWriteJob(1, [pending])]);
    var written := over.(handlers := [Answered], job := Some(JobRow(1, 0, 1, 0, 0, Processing)));
    assert IsListing([7], over.rows.Keys) && Listed([7], over.rows) == [pending];
    Reach(c, db, trace, over, ListRows(0, [7]), listed);
    trace := trace + [ListRows(0, [7])];
    assert [pending][..0] == [];
    assert Totals([pending]) == (0, 1, 0, 0);
    Reach(c, db, trace, listed, WriteJob(0), written);
    trace := trace + [WriteJob(0)];
    Reach(c, db, trace, written, Bill, Stranded(c, db));
    trace, w := trace + [Bill], Stranded(c, db);
  }

  /** From there, the next completed callback for the chunk releases the list. */
  lemma AnotherCallbackReleases(c: Config, db: Tables, trace: seq<Action>) returns (more: seq<Action>, w: World)
    requires c.total == 1 && c.rules.NoRegress? && Reached(c, db, trace, Stranded(c, db))
    ensures trace <= more && Reached(c, db, more, w) && Quiescent(w) && w.job.None?
  {
    hide Reached;
    var row := BatchRow(Completed, 1, 1, 0);
    var s := Stranded(c, db);
    var called := s.(handlers := [Answered, ToApply(7, row)]);
    Reach(c, db, trace, s, Callback(7, row), called);
    more := trace + [Callback(7, row)];
    var applied := s.(handlers := [Answered, ToLoadJob], rows := map[7 := row], lost := {});
    assert s.rows[7 := row] == map[7 := row] && s.said[7 := Completed] == s.said && s.lost - {7} == {};
    assert called.handlers[1 := ToLoadJob] == applied.handlers;
    Reach(c, db, more, called, ApplyProgress(1), applied);
    more := more + [ApplyProgress(1)];
    var loaded := applied.(handlers := [Answered, ToListRows(1)]);
    assert applied.handlers[1 := ToListRows(1)] == loaded.handlers;
    Reach(c, db, more, applied, LoadJob(1), loaded);
    more := more + [LoadJob(1)];
    more, w := ListedIsReleased(c, db, more, loaded, row);
  }

  lemma ListedIsReleased(c: Config, db: Tables, trace: seq<Action>, w0: World, row: BatchRow)
    returns (more: seq<Action>, w: World)
    requires c.total == 1 && Reached(c, db, trace, w0) && row == BatchRow(Completed, 1, 1, 0)
    requires w0.handlers == [Answered, ToListRows(1)] && w0.rows == map[7 := row] && w0.runs == []
    requires w0.job.Some? && w0.job.value.total == 1 && w0.submitter.Submitted?
    ensures trace <= more && Reached(c, db, more, w) && Quiescent(w) && w.job.None?
  {
    hide Reached;
    var listed := w0.(handlers := [Answered, ToWriteJob(1, [row])]);
    assert IsListing([7], w0.rows.Keys) && Listed([7], w0.rows) == [row];
    assert w0.handlers[1 := ToWriteJob(1, [row])] == listed.handlers;
    Reach(c, db, trace, w0, ListRows(1, [7]), listed);
    more := trace + [ListRows(1, [7])];
    assert [row][..0] == [] && Totals([row]) == (1, 1, 1, 0);
    var started := w0.(handlers := [Answered, Answered], job := Some(ProgressRow(Aggregate(1, [row]), 1)),
                       runs := [Run([row], ToReadSettings, [], [], false, false)]);
    assert listed.handlers[1 := Answered] == started.handlers;
    Reach(c, db, more, listed, WriteJob(1), started);
    more, w := StartedIsReleased(c, db, more + [WriteJob(1)], started);
  }

  lemma StartedIsReleased(c: Config, db: Tables, trace: seq<Action>, w0: World) returns (more: seq<Action>, w: World)
    requires Reached(c, db, trace, w0) && w0.handlers == [Answered, Answered] && w0.submitter.Submitted?
    requires |w0.runs| == 1 && w0.runs[0].at == ToReadSettings
    ensures trace <= more && Reached(c, db, more, w) && Quiescent(w) && w.job.None?
  {
    hide Reached;
    var leaving := w0.(runs := [w0.runs[0].(at := ToDeleteJob)]);
    assert w0.runs[0 := leaving.runs[0]] == leaving.runs;
    Reach(c, db, trace, w0, ReadSettings(0, false), leaving);
    more := trace + [ReadSettings(0, false)];
    w := leaving.(runs := [w0.runs[0].(at := Finished)], job := None, rows := map[]);
    assert leaving.runs[0 := w.runs[0]] == w.runs;
    Reach(c, db, more, leaving, DeleteJob(0), w);
    more := more + [DeleteJob(0)];
  }
}
