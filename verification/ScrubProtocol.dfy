/**
 One list-validation job as a step system. The submitting request, every
 callback's request and every reconcile goroutine advance one database write or
 read at a time, in any interleaving; Scrub decides when callbacks arrive and
 what they say. Row writes succeed.
 */
module ScrubProtocol {
  import opened Wrappers
  import opened ScrubModel
  import opened ScrubBatching
  import opened ScrubReconcile
  import opened ScrubStore

  /**
   What is assumed of Scrub's callbacks. NoRegress: once a batch's row is
   terminal, callbacks keep it terminal. Ordered: moreover a batch's callbacks
   take effect after its pending write, and repeat its terminal status.
   */
  datatype Rules = AnyOrder | NoRegress | Ordered

  /** The job's constants: the list's e-mails, the number of chunks they were cut into, and each chunk's size. */
  datatype Config = Config(
    tenant: int, lists: seq<ListID>, emails: nat, total: nat, size: nat -> nat, history: History, rules: Rules)

  datatype Submitter =
    | ToInsertJob
    | ToSubmit(k: nat)
    | Calling(k: nat, id: BatchID)
    | ToWritePending(k: nat, id: BatchID, count: int)
    | ToBill(k: nat, count: int)
    | ToDropBatch(id: BatchID)
    | ToDropJob
    | Submitted
    | SubmissionFailed

  datatype Handler =
    | ToApply(id: BatchID, row: BatchRow)
    | ToLoadJob
    | ToListRows(total: int)
    | ToWriteJob(total: int, seen: seq<BatchRow>)
    | Answered

  datatype RunPoint =
    | ToReadSettings
    | ToListBatches
    | ToTagGood
    | ToTagBad
    | ToResolve
    | ToUnsubscribe(ids: set<SubID>)
    | ToSummarise(k: nat)
    | ToDeleteJob
    | Finished

  /** A reconcile: seen is the listing that started it, full whether it found the rows still there. */
  datatype Run = Run(seen: seq<BatchRow>, at: RunPoint, good: seq<Email>, bad: seq<Email>, any: bool, full: bool)

  /**
   job and rows are the job's database rows, billed what its submission added to
   the usage counter. accepted, issued, armed, said and lost are history: the sum
   of the counts Scrub accepted, the batch IDs inserted, those whose pending write
   is done, the last terminal status a callback wrote for each, and those whose
   terminal status the pending write has overwritten since.
   */
  datatype World = World(
    job: Option<JobRow>, rows: map<BatchID, BatchRow>, db: Tables, billed: int, accepted: int,
    submitter: Submitter, handlers: seq<Handler>, runs: seq<Run>,
    issued: seq<BatchID>, armed: set<BatchID>, said: map<BatchID, BatchStatus>, lost: set<BatchID>)

  datatype Action =
    | InsertJob
    | InsertBatch(id: BatchID)
    | ScrubAccepts(count: int)
    | ScrubRefuses
    | WritePending
    | Bill
    | DropBatch
    | DropJob
    | Callback(id: BatchID, row: BatchRow)
    | ApplyProgress(h: nat)
    | LoadJob(h: nat)
    | ListRows(h: nat, order: seq<BatchID>)
    | WriteJob(h: nat)
    | ReadSettings(r: nat, usable: bool)
    | ListBatches(r: nat, order: seq<BatchID>)
    | TagGood(r: nat)
    | TagBad(r: nat)
    | Resolve(r: nat)
    | UnsubscribeBad(r: nat)
    | SummariseList(r: nat)
    | DeleteJob(r: nat)

  function Init(db: Tables): World {
    World(None, map[], db, 0, 0, ToInsertJob, [], [], [], {}, map[], {})
  }

  function StatusMap(rows: map<BatchID, BatchRow>): map<BatchID, BatchStatus> {
    map id | id in rows :: rows[id].status
  }

  function Listed(order: seq<BatchID>, rows: map<BatchID, BatchRow>): seq<BatchRow>
    requires forall k :: 0 <= k < |order| ==> order[k] in rows
  {
    seq(|order|, k requires 0 <= k < |order| => rows[order[k]])
  }

  ghost predicate HandlerAt(w: World, h: nat) {
    h < |w.handlers|
  }

  ghost predicate RunAt(w: World, r: nat) {
    r < |w.runs|
  }

  predicate Allowed(rules: Rules, w: World, id: BatchID, status: BatchStatus) {
    && (!rules.AnyOrder? && id in w.rows && Terminal(w.rows[id].status) ==> Terminal(status))
    && (rules.Ordered? ==> id in w.armed && (id in w.said ==> status == w.said[id]))
  }

  ghost predicate Enabled(c: Config, w: World, a: Action) {
    match a
    case InsertJob => w.submitter.ToInsertJob?
    case InsertBatch(id) => w.submitter.ToSubmit? && w.submitter.k < c.total && id !in w.issued
    case ScrubAccepts(_) => w.submitter.Calling?
    case ScrubRefuses => w.submitter.Calling?
    case WritePending => w.submitter.ToWritePending?
    case Bill => w.submitter.ToBill?
    case DropBatch => w.submitter.ToDropBatch?
    case DropJob => w.submitter.ToDropJob?
    case Callback(id, _) => id in w.rows
    case ApplyProgress(h) =>
      HandlerAt(w, h) && w.handlers[h].ToApply? && Allowed(c.rules, w, w.handlers[h].id, w.handlers[h].row.status)
    case LoadJob(h) => HandlerAt(w, h) && w.handlers[h].ToLoadJob?
    case ListRows(h, order) => HandlerAt(w, h) && w.handlers[h].ToListRows? && IsListing(order, w.rows.Keys)
    case WriteJob(h) => HandlerAt(w, h) && w.handlers[h].ToWriteJob?
    case ReadSettings(r, _) => RunAt(w, r) && w.runs[r].at.ToReadSettings?
    case ListBatches(r, order) => RunAt(w, r) && w.runs[r].at.ToListBatches? && IsListing(order, w.rows.Keys)
    case TagGood(r) => RunAt(w, r) && w.runs[r].at.ToTagGood?
    case TagBad(r) => RunAt(w, r) && w.runs[r].at.ToTagBad?
    case Resolve(r) => RunAt(w, r) && w.runs[r].at.ToResolve?
    case UnsubscribeBad(r) => RunAt(w, r) && w.runs[r].at.ToUnsubscribe?
    case SummariseList(r) => RunAt(w, r) && w.runs[r].at.ToSummarise?
    case DeleteJob(r) => RunAt(w, r) && w.runs[r].at.ToDeleteJob?
  }

  predicate IsSubmit(a: Action) {
    a.InsertJob? || a.InsertBatch? || a.ScrubAccepts? || a.ScrubRefuses? || a.WritePending? || a.Bill?
    || a.DropBatch? || a.DropJob?
  }

  predicate IsHandle(a: Action) {
    a.Callback? || a.ApplyProgress? || a.LoadJob? || a.ListRows? || a.WriteJob?
  }

  /** The submitting request. Inserting a chunk row fails once its job row is gone. */
  ghost function NextSubmit(c: Config, w: World, a: Action): World
    requires IsSubmit(a) && Enabled(c, w, a)
  {
    match a
    case InsertJob =>
      w.(job := Some(JobRow(c.total, 0, c.emails, 0, 0, Processing)), submitter := Continue(c, 0))
    case InsertBatch(id) =>
      if w.job.None? then w.(submitter := ToDropJob)
      else w.(rows := w.rows[id := BatchRow(Pending, c.size(w.submitter.k), 0, 0)], issued := w.issued + [id],
              submitter := Calling(w.submitter.k, id))
    case ScrubAccepts(count) =>
      w.(submitter := ToWritePending(w.submitter.k, w.submitter.id, count), accepted := w.accepted + count)
    case ScrubRefuses =>
      w.(submitter := ToDropBatch(w.submitter.id))
    case WritePending =>
      var id := w.submitter.id;
      w.(submitter := ToBill(w.submitter.k, w.submitter.count),
         armed := w.armed + {id},
         rows := if id in w.rows then w.rows[id := BatchRow(Pending, w.submitter.count, 0, 0)] else w.rows,
         lost := if id in w.rows && id in w.said then w.lost + {id} else w.lost)
    case Bill =>
      w.(billed := w.billed + w.submitter.count, submitter := Continue(c, w.submitter.k + 1))
    case DropBatch =>
      w.(rows := w.rows - {w.submitter.id}, submitter := ToDropJob)
    case DropJob =>
      w.(job := None, rows := map[], submitter := SubmissionFailed)
  }

  function Continue(c: Config, k: nat): Submitter {
    if k < c.total then ToSubmit(k) else Submitted
  }

  /** The progress write of a callback: a row that is gone is not updated. */
  function WithRow(w: World, id: BatchID, row: BatchRow): World {
    if id !in w.rows then w
    else if Terminal(row.status)
    then w.(rows := w.rows[id := row], said := w.said[id := row.status], lost := w.lost - {id})
    else w.(rows := w.rows[id := row])
  }

  /** A callback's request, from looking up its batch to answering. */
  ghost function NextHandle(c: Config, w: World, a: Action): World
    requires IsHandle(a) && Enabled(c, w, a)
  {
    match a
    case Callback(id, row) =>
      w.(handlers := w.handlers + [ToApply(id, row)])
    case ApplyProgress(h) =>
      WithRow(w.(handlers := w.handlers[h := ToLoadJob]), w.handlers[h].id, w.handlers[h].row)
    case LoadJob(h) =>
      w.(handlers := w.handlers[h := if w.job.Some? then ToListRows(w.job.value.total) else Answered])
    case ListRows(h, order) =>
      w.(handlers := w.handlers[h := ToWriteJob(w.handlers[h].total, Listed(order, w.rows))])
    case WriteJob(h) =>
      var total, seen := w.handlers[h].total, w.handlers[h].seen;
      var p := Aggregate(total, seen);
      w.(handlers := w.handlers[h := Answered],
         job := if w.job.Some? then Some(ProgressRow(p, w.job.value.total)) else None,
         runs := if p.done then w.runs + [Run(seen, ToReadSettings, [], [], false, false)] else w.runs)
  }

  /** A callback's row takes the figures it reports, terminal or not, if it is still there; nothing else is written. */
  lemma ProgressIsWritten(c: Config, w: World, h: nat)
    requires Enabled(c, w, ApplyProgress(h))
    ensures var v, id := NextHandle(c, w, ApplyProgress(h)), w.handlers[h].id;
      && v.rows == (if id in w.rows then w.rows[id := w.handlers[h].row] else w.rows)
      && v.job == w.job && v.db == w.db && v.billed == w.billed && v.submitter == w.submitter && v.runs == w.runs
  {
  }

  /** The job's row takes the totals of the rows read, and a reconcile starts exactly when all planned are finished. */
  lemma TotalsAreWritten(c: Config, w: World, h: nat)
    requires Enabled(c, w, WriteJob(h))
    ensures var v, total := NextHandle(c, w, WriteJob(h)), w.handlers[h].total;
      var (over, submitted, validated, invalid) := Totals(w.handlers[h].seen);
      && v.job == (if w.job.None? then None
                   else Some(JobRow(w.job.value.total, over, submitted, validated, invalid,
                                    if over == total then Completed else Processing)))
      && |v.runs| == |w.runs| + (if over == total then 1 else 0) && w.runs <= v.runs
      && v.rows == w.rows && v.db == w.db
  {
  }

  ghost function Moved(w: World, r: nat, at: RunPoint): World
    requires RunAt(w, r)
  {
    w.(runs := w.runs[r := w.runs[r].(at := at)])
  }

  /** A reconcile goroutine. */
  ghost function NextRun(c: Config, w: World, a: Action): World
    requires !IsSubmit(a) && !IsHandle(a) && Enabled(c, w, a)
  {
    match a
    case ReadSettings(r, usable) =>
      Moved(w, r, if usable then ToListBatches else ToDeleteJob)
    case ListBatches(r, order) =>
      var statuses := StatusMap(w.rows);
      w.(runs := w.runs[r := Run(w.runs[r].seen, ToTagGood,
                                 Collect(order, statuses, c.history, true), Collect(order, statuses, c.history, false),
                                 AnyCompleted(order, statuses), w.job.Some?)])
    case TagGood(r) =>
      Moved(w, r, if w.runs[r].bad == [] then ToSummarise(0) else ToTagBad)
        .(db := Tag(w.db, c.tenant, w.runs[r].good, Deliverable))
    case TagBad(r) =>
      Moved(w, r, if c.lists == [] then ToSummarise(0) else ToResolve)
        .(db := Tag(w.db, c.tenant, w.runs[r].bad, Undeliverable))
    case Resolve(r) =>
      var ids := SubscribersByEmail(w.db, c.tenant, w.runs[r].bad);
      Moved(w, r, if ids == {} then ToSummarise(0) else ToUnsubscribe(ids))
    case UnsubscribeBad(r) =>
      Moved(w, r, ToSummarise(0)).(db := Unsubscribe(w.db, w.runs[r].at.ids, c.lists))
    case SummariseList(r) =>
      var k := w.runs[r].at.k;
      if !w.runs[r].any || k >= |c.lists| then Moved(w, r, ToDeleteJob)
      else Moved(w, r, ToSummarise(k + 1))
             .(db := Summarise(w.db, c.lists[k], |w.runs[r].good|, |w.runs[r].bad|))
    case DeleteJob(r) =>
      Moved(w, r, Finished).(job := None, rows := map[])
  }

  ghost function Next(c: Config, w: World, a: Action): World
    requires Enabled(c, w, a)
  {
    if IsSubmit(a) then NextSubmit(c, w, a)
    else if IsHandle(a) then NextHandle(c, w, a)
    else NextRun(c, w, a)
  }

  /** The world after a trace, or None when some action was not possible. */
  ghost function After(c: Config, w: World, trace: seq<Action>): Option<World> {
    if trace == [] then Some(w)
    else
      var n := |trace| - 1;
      var mid := After(c, w, trace[..n]);
      if mid.Some? && Enabled(c, mid.value, trace[n]) then Some(Next(c, mid.value, trace[n])) else None
  }

  function IDs(issued: seq<BatchID>): set<BatchID> {
    set id | id in issued
  }

  ghost predicate HeardAll(c: Config, w: World) {
    && |w.issued| == c.total
    && forall id :: id in w.issued ==> id in w.said
  }

  ghost predicate SubmitterInv(c: Config, w: World) {
    match w.submitter
    case ToInsertJob => w.issued == [] && w.job.None? && w.rows == map[]
    case ToSubmit(k) => k < c.total && |w.issued| == k
    case Calling(k, id) => k < c.total && |w.issued| == k + 1 && w.issued[k] == id
    case ToWritePending(k, id, _) => k < c.total && |w.issued| == k + 1 && w.issued[k] == id
    case ToBill(k, _) => k < c.total && |w.issued| == k + 1
    case ToDropBatch(id) => 0 < |w.issued| <= c.total && w.issued[|w.issued| - 1] == id
    case ToDropJob =>
      |w.issued| <= c.total && (w.job.Some? ==> w.issued != [] && w.rows.Keys <= IDs(w.issued[..|w.issued| - 1]))
    case Submitted => |w.issued| == c.total
    case SubmissionFailed => |w.issued| <= c.total && w.job.None?
  }

  ghost predicate RowsInv(c: Config, w: World) {
    && (forall j, k :: 0 <= j < k < |w.issued| ==> w.issued[j] != w.issued[k])
    && w.rows.Keys <= IDs(w.issued)
    && (w.job.Some? ==> w.job.value.total == c.total)
    && (w.job.None? ==> w.rows == map[])
    && (w.job.Some? && !w.submitter.ToDropJob? ==> w.rows.Keys == IDs(w.issued))
    && (forall id :: id in w.rows && Terminal(w.rows[id].status) ==> id in w.said)
  }

  ghost predicate HandlerInv(c: Config, w: World, h: Handler) {
    && (h.ToListRows? ==> h.total == c.total)
    && (h.ToWriteJob? ==>
          && h.total == c.total && |h.seen| <= c.total
          && (Aggregate(c.total, h.seen).done ==> HeardAll(c, w)))
  }

  /** What a run was started on: exactly the planned number of rows, all terminal. */
  ghost predicate StartedOnAllTerminal(c: Config, r: Run) {
    |r.seen| == c.total && AllTerminal(r.seen)
  }

  ghost predicate Safe(c: Config, w: World) {
    && SubmitterInv(c, w)
    && RowsInv(c, w)
    && (forall h :: 0 <= h < |w.handlers| ==> HandlerInv(c, w, w.handlers[h]))
    && (forall r :: 0 <= r < |w.runs| ==> StartedOnAllTerminal(c, w.runs[r]))
    && (w.runs != [] ==> HeardAll(c, w))
    && (w.job.None? && !w.submitter.ToInsertJob? && !w.submitter.SubmissionFailed? ==> w.runs != [])
  }

  lemma {:induction false} CountIDs(issued: seq<BatchID>)
    ensures |IDs(issued)| <= |issued|
  {
    if issued != [] {
      var n := |issued| - 1;
      CountIDs(issued[..n]);
      assert IDs(issued) == IDs(issued[..n]) + {issued[n]};
    }
  }

  lemma SubsetOfSameSize<T>(a: set<T>, b: set<T>)
    requires a <= b && |a| >= |b|
    ensures a == b
  {
    assert |b - a| == |b| - |a|;
  }

  lemma SubsetIsSmaller<T>(a: set<T>, b: set<T>)
    requires a <= b
    ensures |a| <= |b|
  {
    assert |b - a| == |b| - |a|;
  }

  lemma ListingSize(order: seq<BatchID>, keys: set<BatchID>)
    requires IsListing(order, keys)
    ensures |order| == |keys|
    ensures multiset(order) == multiset(keys)
    decreases |order|
  {
    if order == [] {
      assert keys == {} by {
        if id :| id in keys { assert id in order; }
      }
    } else {
      var n := |order| - 1;
      assert order == order[..n] + [order[n]];
      forall id | id in keys - {order[n]} ensures id in order[..n] {
        assert id in order;
      }
      ListingSize(order[..n], keys - {order[n]});
    }
  }

  lemma RowsBounded(c: Config, w: World)
    requires Safe(c, w)
    ensures |w.issued| <= c.total && |w.rows| <= |w.issued|
  {
    CountIDs(w.issued);
    SubsetIsSmaller(w.rows.Keys, IDs(w.issued));
    assert |w.rows.Keys| == |w.rows|;
  }

  /** A listing whose aggregate is done found every planned row, each terminal. */
  lemma DoneListing(c: Config, w: World, order: seq<BatchID>)
    requires Safe(c, w) && IsListing(order, w.rows.Keys)
    ensures |Listed(order, w.rows)| <= c.total
    ensures Aggregate(c.total, Listed(order, w.rows)).done ==> HeardAll(c, w)
    ensures Aggregate(c.total, Listed(order, w.rows)).done <==>
      |w.rows| == c.total && forall id :: id in w.rows ==> Terminal(w.rows[id].status)
  {
    ListingTerminal(w.rows, order);
    RowsBounded(c, w);
    DoneMeansAllTerminal(c.total, Listed(order, w.rows));
    if |w.rows| == c.total {
      AllRowsThere(w.rows.Keys, w.issued);
    }
  }

  lemma AllRowsThere(keys: set<BatchID>, issued: seq<BatchID>)
    requires keys <= IDs(issued) && |keys| >= |issued|
    ensures keys == IDs(issued)
  {
    CountIDs(issued);
    SubsetOfSameSize(keys, IDs(issued));
  }

  lemma ListingTerminal(rows: map<BatchID, BatchRow>, order: seq<BatchID>)
    requires IsListing(order, rows.Keys)
    ensures |Listed(order, rows)| == |rows|
    ensures AllTerminal(Listed(order, rows)) <==> forall id :: id in rows ==> Terminal(rows[id].status)
  {
    var seen := Listed(order, rows);
    ListingSize(order, rows.Keys);
    assert |rows.Keys| == |rows|;
    if AllTerminal(seen) {
      forall id | id in rows ensures Terminal(rows[id].status) {
        var k :| 0 <= k < |order| && order[k] == id;
        assert seen[k] == rows[id];
      }
    }
  }

  lemma InsertKeepsSafe(c: Config, w: World, id: BatchID)
    requires c.total > 0 && Safe(c, w) && Enabled(c, w, InsertBatch(id))
    ensures Safe(c, NextSubmit(c, w, InsertBatch(id)))
  {
  }

  lemma DropKeepsSafe(c: Config, w: World)
    requires c.total > 0 && Safe(c, w) && Enabled(c, w, DropBatch)
    ensures Safe(c, NextSubmit(c, w, DropBatch))
  {
  }

  lemma LastID(issued: seq<BatchID>)
    requires issued != []
    ensures IDs(issued) == IDs(issued[..|issued| - 1]) + {issued[|issued| - 1]}
  {
  }

  lemma PendingKeepsSafe(c: Config, w: World)
    requires c.total > 0 && Safe(c, w) && Enabled(c, w, WritePending)
    ensures Safe(c, NextSubmit(c, w, WritePending))
  {
  }

  lemma SubmitKeepsSafe(c: Config, w: World, a: Action)
    requires c.total > 0 && Safe(c, w) && IsSubmit(a) && Enabled(c, w, a)
    ensures Safe(c, NextSubmit(c, w, a))
  {
    match a
    case InsertJob =>
    case InsertBatch(id) => InsertKeepsSafe(c, w, id);
    case ScrubAccepts(_) =>
    case ScrubRefuses =>
    case WritePending => PendingKeepsSafe(c, w);
    case Bill =>
    case DropBatch => DropKeepsSafe(c, w);
    case DropJob =>
  }

  lemma RowKeepsSafe(c: Config, w: World, id: BatchID, row: BatchRow)
    requires Safe(c, w)
    ensures Safe(c, WithRow(w, id, row))
  {
    hide RowsInv, StartedOnAllTerminal, Aggregate;
    if id in w.rows {
      RowsAfter(c, w, id, row);
      if Terminal(row.status) {
        SayKeepsHandlers(c, w, w.said[id := row.status]);
      }
    }
  }

  lemma RowsAfter(c: Config, w: World, id: BatchID, row: BatchRow)
    requires RowsInv(c, w) && id in w.rows
    ensures RowsInv(c, WithRow(w, id, row))
  {
  }

  lemma SayKeepsHandlers(c: Config, w: World, said: map<BatchID, BatchStatus>)
    requires forall k :: 0 <= k < |w.handlers| ==> HandlerInv(c, w, w.handlers[k])
    requires w.said.Keys <= said.Keys
    ensures HeardAll(c, w) ==> HeardAll(c, w.(said := said))
    ensures forall k :: 0 <= k < |w.handlers| ==> HandlerInv(c, w.(said := said), w.handlers[k])
  {
  }

  lemma MoveKeepsSafe(c: Config, w: World, h: nat, to: Handler)
    requires Safe(c, w) && HandlerAt(w, h) && HandlerInv(c, w, to)
    ensures Safe(c, w.(handlers := w.handlers[h := to]))
  {
  }

  lemma ListKeepsSafe(c: Config, w: World, h: nat, order: seq<BatchID>)
    requires c.total > 0 && Safe(c, w) && Enabled(c, w, ListRows(h, order))
    ensures Safe(c, NextHandle(c, w, ListRows(h, order)))
  {
    assert HandlerInv(c, w, w.handlers[h]);
    DoneListing(c, w, order);
    hide Safe, HeardAll, Aggregate, Listed;
    MoveKeepsSafe(c, w, h, ToWriteJob(w.handlers[h].total, Listed(order, w.rows)));
  }

  lemma WriteKeepsSafe(c: Config, w: World, h: nat)
    requires c.total > 0 && Safe(c, w) && Enabled(c, w, WriteJob(h))
    ensures Safe(c, NextHandle(c, w, WriteJob(h)))
  {
    DoneMeansAllTerminal(c.total, w.handlers[h].seen);
  }

  lemma CallbackKeepsSafe(c: Config, w: World, id: BatchID, row: BatchRow)
    requires Safe(c, w)
    ensures Safe(c, w.(handlers := w.handlers + [ToApply(id, row)]))
  {
  }

  lemma HandleKeepsSafe(c: Config, w: World, a: Action)
    requires c.total > 0 && Safe(c, w) && IsHandle(a) && Enabled(c, w, a)
    ensures Safe(c, NextHandle(c, w, a))
  {
    match a
    case Callback(id, row) => hide Safe; CallbackKeepsSafe(c, w, id, row);
    case ApplyProgress(h) =>
      hide Safe, Aggregate, HeardAll;
      MoveKeepsSafe(c, w, h, ToLoadJob);
      RowKeepsSafe(c, w.(handlers := w.handlers[h := ToLoadJob]), w.handlers[h].id, w.handlers[h].row);
    case LoadJob(h) =>
      assert RowsInv(c, w);
      hide Safe, Aggregate, HeardAll;
      MoveKeepsSafe(c, w, h, if w.job.Some? then ToListRows(w.job.value.total) else Answered);
    case ListRows(h, order) => hide Safe; ListKeepsSafe(c, w, h, order);
    case WriteJob(h) => hide Safe; WriteKeepsSafe(c, w, h);
  }

  /** Safety does not depend on how far a started run has come, nor on the tables. */
  lemma RunMoveKeepsSafe(c: Config, w: World, r: nat, to: Run, db: Tables)
    requires Safe(c, w) && RunAt(w, r) && to.seen == w.runs[r].seen
    ensures Safe(c, w.(runs := w.runs[r := to], db := db))
  {
  }

  lemma DeleteKeepsSafe(c: Config, w: World)
    requires Safe(c, w) && w.runs != []
    ensures Safe(c, w.(job := None, rows := map[]))
  {
  }

  lemma RunKeepsSafe(c: Config, w: World, a: Action)
    requires c.total > 0 && Safe(c, w) && !IsSubmit(a) && !IsHandle(a) && Enabled(c, w, a)
    ensures Safe(c, NextRun(c, w, a))
  {
    var v := NextRun(c, w, a);
    RunMoveKeepsSafe(c, w, a.r, v.runs[a.r], v.db);
    if a.DeleteJob? {
      DeleteKeepsSafe(c, w.(runs := v.runs));
    }
  }

  lemma StepKeepsSafe(c: Config, w: World, a: Action)
    requires c.total > 0 && Safe(c, w) && Enabled(c, w, a)
    ensures Safe(c, Next(c, w, a))
  {
    hide Safe, Enabled, NextSubmit, NextHandle, NextRun;
    if IsSubmit(a) {
      SubmitKeepsSafe(c, w, a);
    } else if IsHandle(a) {
      HandleKeepsSafe(c, w, a);
    } else {
      RunKeepsSafe(c, w, a);
    }
  }

  lemma {:induction false} AlwaysSafe(c: Config, db: Tables, trace: seq<Action>)
    requires c.total > 0 && After(c, Init(db), trace).Some?
    ensures Safe(c, After(c, Init(db), trace).value)
  {
    if trace == [] {
      StartsSafe(c, db);
    } else {
      hide Safe, Enabled, Next, Init;
      var n := |trace| - 1;
      AlwaysSafe(c, db, trace[..n]);
      StepKeepsSafe(c, After(c, Init(db), trace[..n]).value, trace[n]);
    }
  }

  lemma StartsSafe(c: Config, db: Tables)
    requires c.total > 0
    ensures Safe(c, Init(db))
  {
  }

  /**
   No early completion: in every reachable state, callbacks arriving at any
   moment of the submission included, a reconcile has only ever been started by
   a listing of exactly the planned number of rows, all completed or failed.
   */
  lemma NoEarlyReconcile(c: Config, db: Tables, trace: seq<Action>, w: World)
    requires c.total > 0 && After(c, Init(db), trace) == Some(w)
    ensures forall r :: 0 <= r < |w.runs| ==> |w.runs[r].seen| == c.total && AllTerminal(w.runs[r].seen)
    ensures w.runs != [] ==> |w.issued| == c.total && forall id :: id in w.issued ==> id in w.said
    ensures !Aggregate(c.total, []).done
  {
    AlwaysSafe(c, db, trace);
  }

  /** What Scrub has accepted and the usage counter has yet to take. */
  function InTransit(s: Submitter): int {
    if s.ToWritePending? || s.ToBill? then s.count else 0
  }

  /** In every interleaving the submission bills exactly what Scrub accepted. */
  lemma {:induction false} BillsAccepted(c: Config, db: Tables, trace: seq<Action>, w: World)
    requires After(c, Init(db), trace) == Some(w)
    ensures w.accepted == w.billed + InTransit(w.submitter)
  {
    if trace != [] {
      hide Enabled, Next, InTransit;
      var before := After(c, Init(db), trace[..|trace| - 1]).value;
      BillsAccepted(c, db, trace[..|trace| - 1], before);
      StepBills(c, before, trace[|trace| - 1]);
    } else {
      assert InTransit(Init(db).submitter) == 0;
    }
  }

  lemma StepBills(c: Config, w: World, a: Action)
    requires Enabled(c, w, a) && w.accepted == w.billed + InTransit(w.submitter)
    ensures var v := Next(c, w, a); v.accepted == v.billed + InTransit(v.submitter)
  {
  }

  /** An upper bound on the steps a reconcile still has to make. */
  function StepsLeft(c: Config, at: RunPoint): (n: nat)
    ensures n == 0 <==> at.Finished?
  {
    match at
    case ToReadSettings => |c.lists| + 8
    case ToListBatches => |c.lists| + 7
    case ToTagGood => |c.lists| + 6
    case ToTagBad => |c.lists| + 5
    case ToResolve => |c.lists| + 4
    case ToUnsubscribe(_) => |c.lists| + 3
    case ToSummarise(k) => 2 + if k < |c.lists| then |c.lists| - k else 0
    case ToDeleteJob => 1
    case Finished => 0
  }

  /** Every step of a reconcile brings it nearer to its end and leaves the others where they are. */
  lemma RunStepsBounded(c: Config, w: World, a: Action)
    requires !IsSubmit(a) && !IsHandle(a) && Enabled(c, w, a)
    ensures var v := NextRun(c, w, a);
      && |v.runs| == |w.runs| && StepsLeft(c, v.runs[a.r].at) < StepsLeft(c, w.runs[a.r].at)
      && forall r :: 0 <= r < |w.runs| && r != a.r ==> v.runs[r] == w.runs[r]
  {
    hide Collect, AnyCompleted, Tag, Unsubscribe, Summarise, SubscribersByEmail;
  }

  /** And a reconcile that is not finished can always make one; order is any listing of the rows. */
  lemma RunCanStep(c: Config, w: World, r: nat, order: seq<BatchID>) returns (a: Action)
    requires RunAt(w, r) && !w.runs[r].at.Finished? && IsListing(order, w.rows.Keys)
    ensures !IsSubmit(a) && !IsHandle(a) && a.r == r && Enabled(c, w, a)
  {
    a := match w.runs[r].at
      case ToReadSettings => ReadSettings(r, true)
      case ToListBatches => ListBatches(r, order)
      case ToTagGood => TagGood(r)
      case ToTagBad => TagBad(r)
      case ToResolve => Resolve(r)
      case ToUnsubscribe(_) => UnsubscribeBad(r)
      case ToSummarise(_) => SummariseList(r)
      case ToDeleteJob => DeleteJob(r)
      case Finished => DeleteJob(r);
  }
}
