/**
 The list-validation handlers over the database they update: submitting a list
 in chunks, taking a progress callback, and reconciling a finished job.
 Goroutines are not started here: a method that would start one returns that
 decision, and ScrubProtocol interleaves them.
 */
module ScrubStore {
  import opened Wrappers
  import opened Text
  import opened Maps
  import opened ScrubModel
  import opened ScrubBatching
  import opened ScrubReconcile

  /** Scrub's hard cap of e-mails per submission. */
  const MAX_BATCH_EMAILS: nat := 30000

  datatype ScrubSettings = ScrubSettings(
    enabled: bool, url: string, apiKey: string, integrationID: string, rootURL: string)

  datatype Job = Job(tenant: int, lists: seq<ListID>, row: JobRow)

  datatype Batch = Batch(tenant: int, job: Option<JobID>, lists: seq<ListID>, row: BatchRow)

  /** A chunk Scrub accepted, and the count it said it would charge for. */
  datatype Submission = Submission(batch: BatchID, emails: seq<Email>, count: int)

  datatype Error =
    | SettingsUnreadable | NotConfigured | TooManyJobs | NoSubscribers
    | JobsUnreadable | EmailsUnreadable | SubmitFailed
    | InvalidPayload | UnknownBatch | NotVerified

  /** What Scrub posts: it may not parse or name no batch, and other events than progress are acknowledged. */
  datatype Envelope = Unreadable | OtherEvent | NoBatch | ProgressEvent(id: BatchID, row: BatchRow)

  /** What a progress callback leads to: a job to aggregate, a standalone batch to reconcile, or nothing more. */
  datatype Followup = AggregateJob(job: JobID) | StartReconcile(batch: BatchID) | Done

  predicate ScrubValidationEnabled(s: ScrubSettings) {
    s.enabled && s.url != "" && s.apiKey != ""
  }

  function CallbackRoot(s: ScrubSettings): string {
    TrimRightSlash(TrimSpace(s.rootURL))
  }

  /** The guards ScrubList checks before it submits anything. */
  predicate Configured(s: ScrubSettings) {
    ScrubValidationEnabled(s) && s.integrationID != "" && CallbackRoot(s) != ""
  }

  function EmailsOf(subs: seq<Submission>): seq<seq<Email>> {
    seq(|subs|, k requires 0 <= k < |subs| => subs[k].emails)
  }

  function Accepted(subs: seq<Submission>): int {
    if subs == [] then 0 else Accepted(subs[..|subs| - 1]) + subs[|subs| - 1].count
  }

  lemma AcceptedAppend(subs: seq<Submission>, s: Submission)
    ensures Accepted(subs + [s]) == Accepted(subs) + s.count
    ensures EmailsOf(subs + [s]) == EmailsOf(subs) + [s.emails]
  {
  }

  function RowsOf(batches: map<BatchID, Batch>, id: JobID): map<BatchID, Batch> {
    map b | b in batches && batches[b].job == Some(id) :: batches[b]
  }

  /** Deleting a job row cascades to its batch rows. */
  function Cascade(batches: map<BatchID, Batch>, id: JobID): map<BatchID, Batch> {
    map b | b in batches && batches[b].job != Some(id) :: batches[b]
  }

  function StatusesOf(rows: map<BatchID, Batch>): map<BatchID, BatchStatus> {
    map b | b in rows :: rows[b].row.status
  }

  /** The rows of a job are those that refer to it, and are listed with their figures as they are. */
  lemma RowsExact(batches: map<BatchID, Batch>, id: JobID, order: seq<BatchID>)
    requires IsListing(order, RowsOf(batches, id).Keys)
    ensures forall b :: b in order <==> b in batches && batches[b].job == Some(id)
    ensures |ListedRows(order, RowsOf(batches, id))| == |order|
    ensures forall k :: 0 <= k < |order| ==> ListedRows(order, RowsOf(batches, id))[k] == batches[order[k]].row
    ensures StatusesOf(RowsOf(batches, id)).Keys == RowsOf(batches, id).Keys
    ensures forall b :: b in order ==> StatusesOf(RowsOf(batches, id))[b] == batches[b].row.status
  {
  }

  /** What a SELECT of these rows may return: every row once, in any order. */
  ghost predicate IsListing(order: seq<BatchID>, keys: set<BatchID>) {
    && (forall k :: 0 <= k < |order| ==> order[k] in keys)
    && (forall id :: id in keys ==> id in order)
    && (forall j, k :: 0 <= j < k < |order| ==> order[j] != order[k])
  }

  function ListedRows(order: seq<BatchID>, rows: map<BatchID, Batch>): seq<BatchRow>
    requires forall k :: 0 <= k < |order| ==> order[k] in rows
  {
    seq(|order|, k requires 0 <= k < |order| => rows[order[k]].row)
  }

  /** The database rows these handlers touch, and what Scrub accepted. */
  datatype Db = Db(
    jobs: map<JobID, Job>, batches: map<BatchID, Batch>, tables: Tables, usage: map<int, int>,
    sent: seq<Submission>, nextJob: nat, nextBatch: nat)

  ghost predicate FreshBatch(batches: map<BatchID, Batch>, next: nat) {
    forall b :: b in batches ==> b < next
  }

  /** Identifiers are never reused, and a batch's job_id refers to a job. */
  ghost predicate ValidDb(d: Db) {
    && (forall j :: j in d.jobs ==> j < d.nextJob)
    && FreshBatch(d.batches, d.nextBatch)
    && (forall b :: b in d.batches && d.batches[b].job.Some? ==> d.batches[b].job.value in d.jobs)
  }

  function In(usage: map<int, int>, tenant: int): int {
    if tenant in usage then usage[tenant] else 0
  }

  predicate Accepts(s: ScrubSettings, reply: Option<int>) {
    !Configured(s) || reply.Some?
  }

  function AfterBatch(d: Db, tenant: int, s: ScrubSettings, lists: seq<ListID>, emails: seq<Email>,
                      job: Option<JobID>, reply: Option<int>): Db {
    if !Configured(s) then d
    else if reply.None? then d.(nextBatch := d.nextBatch + 1)
    else d.(
      nextBatch := d.nextBatch + 1,
      batches := d.batches[d.nextBatch := Batch(tenant, job, lists, BatchRow(Pending, reply.value, 0, 0))],
      sent := d.sent + [Submission(d.nextBatch, emails, reply.value)],
      usage := d.usage[tenant := In(d.usage, tenant) + reply.value])
  }

  /** The chunks submitted until one is refused, and whether all were taken. */
  function AfterChunks(d: Db, tenant: int, s: ScrubSettings, list: ListID, chunks: seq<seq<Email>>, id: JobID,
                       replies: nat -> Option<int>): (Db, bool) {
    if chunks == [] then (d, true)
    else
      var n := |chunks| - 1;
      var prefix := AfterChunks(d, tenant, s, list, chunks[..n], id, replies);
      if prefix.1
      then (AfterBatch(prefix.0, tenant, s, [list], chunks[n], Some(id), replies(n)), Accepts(s, replies(n)))
      else prefix
  }

  function NewJob(tenant: int, list: ListID, total: int, emails: int): Job {
    Job(tenant, [list], JobRow(total, 0, emails, 0, 0, Processing))
  }

  function WithJob(d: Db, tenant: int, list: ListID, emails: seq<Email>): Db {
    d.(nextJob := d.nextJob + 1,
       jobs := d.jobs[d.nextJob := NewJob(tenant, list, |Chunks(emails, MAX_BATCH_EMAILS)|, |emails|)])
  }

  function WithoutJob(d: Db, id: JobID): Db {
    d.(jobs := d.jobs - {id}, batches := Cascade(d.batches, id))
  }

  function AfterSubmission(d: Db, tenant: int, s: ScrubSettings, list: ListID, emails: seq<Email>,
                           replies: nat -> Option<int>): (Db, Result<JobID, Error>) {
    var out := AfterChunks(WithJob(d, tenant, list, emails), tenant, s, list,
                           Chunks(emails, MAX_BATCH_EMAILS), d.nextJob, replies);
    if out.1 then (out.0, Ok(d.nextJob)) else (WithoutJob(out.0, d.nextJob), Err(SubmitFailed))
  }

  function ProgressRow(p: Progress, total: int): JobRow {
    JobRow(total, p.completed, p.submitted, p.validated, p.invalid, if p.done then Completed else Processing)
  }

  /** The progress write of updateScrubJobProgress over the rows it read. */
  function WithJobProgress(d: Db, id: JobID, order: seq<BatchID>): Db
    requires id in d.jobs
    requires forall k :: 0 <= k < |order| ==> order[k] in RowsOf(d.batches, id)
  {
    var job := d.jobs[id];
    var p := Aggregate(job.row.total, ListedRows(order, RowsOf(d.batches, id)));
    d.(jobs := d.jobs[id := job.(row := ProgressRow(p, job.row.total))])
  }

  lemma JobKeepsValid(d: Db, tenant: int, list: ListID, emails: seq<Email>)
    requires ValidDb(d)
    ensures var out := WithJob(d, tenant, list, emails);
      ValidDb(out) && FreshBatch(out.batches, out.nextBatch) && d.nextJob in out.jobs
  {
  }

  /** A submission never reuses an identifier, and its row refers to a job that is there. */
  lemma BatchKeepsValid(d: Db, tenant: int, s: ScrubSettings, lists: seq<ListID>, emails: seq<Email>,
                        job: Option<JobID>, reply: Option<int>)
    requires FreshBatch(d.batches, d.nextBatch)
    ensures var out := AfterBatch(d, tenant, s, lists, emails, job, reply);
      && FreshBatch(out.batches, out.nextBatch)
      && (ValidDb(d) && (job.Some? ==> job.value in d.jobs) ==> ValidDb(out))
      && out.jobs == d.jobs
  {
  }

  class Store {
    var jobs: map<JobID, Job>
    var batches: map<BatchID, Batch>
    var tables: Tables
    var usage: map<int, int>
    var sent: seq<Submission>
    var nextJob: nat
    var nextBatch: nat

    function State(): Db
      reads this
    {
      Db(jobs, batches, tables, usage, sent, nextJob, nextBatch)
    }

    constructor (tables: Tables)
      ensures ValidDb(State()) && jobs == map[] && batches == map[] && this.tables == tables && sent == []
    {
      jobs, batches, usage, sent := map[], map[], map[], [];
      nextJob, nextBatch := 0, 0;
      this.tables := tables;
    }

    /** reply is Scrub's answer: the count it accepted, or None when the call fails. */
    method SubmitScrubBatch(tenant: int, s: ScrubSettings, lists: seq<ListID>, emails: seq<Email>,
                            job: Option<JobID>, reply: Option<int>)
      returns (r: Result<Option<BatchID>, Error>)
      requires FreshBatch(batches, nextBatch)
      modifies this
      ensures State() == AfterBatch(old(State()), tenant, s, lists, emails, job, reply)
      ensures r == if !Configured(s) then Ok(None)
                   else if reply.Some? then Ok(Some(old(nextBatch))) else Err(SubmitFailed)
      ensures FreshBatch(batches, nextBatch)
    {
      if !ScrubValidationEnabled(s) || s.integrationID == "" {
        return Ok(None);
      }
      if CallbackRoot(s) == "" {
        return Ok(None);
      }
      var id := nextBatch;
      nextBatch := nextBatch + 1;
      var row := Batch(tenant, job, lists, BatchRow(Pending, |emails|, 0, 0));
      batches := batches[id := row];
      if reply.None? {
        InsertUndone(old(batches), id, row);
        batches := batches - {id};
        return Err(SubmitFailed);
      }
      sent := sent + [Submission(id, emails, reply.value)];
      LastUpdate(old(batches), id, row, row.(row := BatchRow(Pending, reply.value, 0, 0)));
      batches := batches[id := batches[id].(row := BatchRow(Pending, reply.value, 0, 0))];
      usage := usage[tenant := In(usage, tenant) + reply.value];
      return Ok(Some(id));
    }

    method DeleteScrubValidationJob(id: JobID)
      modifies `jobs, `batches
      ensures State() == WithoutJob(old(State()), id)
      ensures jobs == old(jobs) - {id}
      ensures batches == map b | b in old(batches) && old(batches)[b].job != Some(id) :: old(batches)[b]
      ensures old(ValidDb(State())) ==> ValidDb(State())
    {
      jobs := jobs - {id};
      batches := Cascade(batches, id);
    }

    /** replies(k) is Scrub's answer to the k-th chunk. */
    method SubmitScrubListValidation(tenant: int, s: ScrubSettings, list: ListID, emails: seq<Email>,
                                     replies: nat -> Option<int>)
      returns (r: Result<JobID, Error>)
      requires ValidDb(State())
      modifies this
      ensures (State(), r) == AfterSubmission(old(State()), tenant, s, list, emails, replies)
      ensures ValidDb(State())
    {
      hide AfterChunks, AfterBatch, FreshBatch, ValidDb, Chunks, Cascade;
      JobKeepsValid(State(), tenant, list, emails);
      var id := nextJob;
      nextJob := nextJob + 1;
      var chunks := ChunkEmails(emails, MAX_BATCH_EMAILS);
      jobs := jobs[id := NewJob(tenant, list, |chunks|, |emails|)];
      ghost var d := State();
      NoChunks(d, tenant, s, list, chunks[..0], id, replies);
      var k := 0;
      while k < |chunks|
        invariant 0 <= k <= |chunks|
        invariant FreshBatch(batches, nextBatch) && ValidDb(State()) && id in jobs
        invariant AfterChunks(d, tenant, s, list, chunks[..k], id, replies) == (State(), true)
      {
        NextChunk(d, tenant, s, list, chunks, k, id, replies);
        BatchKeepsValid(State(), tenant, s, [list], chunks[k], Some(id), replies(k));
        var sub := SubmitScrubBatch(tenant, s, [list], chunks[k], Some(id), replies(k));
        if sub.Err? {
          ChunksStopAt(d, tenant, s, list, chunks, k + 1, id, replies);
          DeleteScrubValidationJob(id);
          return Err(SubmitFailed);
        }
        k := k + 1;
      }
      assert chunks[..|chunks|] == chunks;
      return Ok(id);
    }

    /**
     A callback: if the settings of its batch's tenant can be read and its
     signature verifies under them, the batch's row takes the figures it reports.
     Returns what is to follow, or the verdict on the callback.
     */
    method ScrubBatchWebhook(posted: Envelope, settings: bool, verified: bool) returns (r: Result<Followup, Error>)
      modifies `batches
      ensures posted.OtherEvent? ==> r == Ok(Done) && State() == old(State())
      ensures posted.Unreadable? || posted.NoBatch? ==> r == Err(InvalidPayload) && State() == old(State())
      ensures posted.ProgressEvent? && !(posted.id in old(batches) && settings && verified) ==>
        && r == Err(if posted.id !in old(batches) then UnknownBatch
                    else if !settings then SettingsUnreadable else NotVerified)
        && State() == old(State())
      ensures posted.ProgressEvent? && posted.id in old(batches) && settings && verified ==>
        var id, row, job := posted.id, posted.row, old(batches)[posted.id].job;
        && r == Ok(if job.Some? then AggregateJob(job.value)
                   else if row.status.Completed? then StartReconcile(id) else Done)
        && batches == if job.None? && row.status.Failed? then old(batches) - {id}
                      else old(batches)[id := old(batches)[id].(row := row)]
      ensures old(ValidDb(State())) ==> ValidDb(State())
    {
      if posted.OtherEvent? {
        return Ok(Done);
      }
      if !posted.ProgressEvent? {
        return Err(InvalidPayload);
      }
      var id, row := posted.id, posted.row;
      if id !in batches {
        return Err(UnknownBatch);
      }
      if !settings {
        return Err(SettingsUnreadable);
      }
      if !verified {
        return Err(NotVerified);
      }
      var job := batches[id].job;
      batches := batches[id := batches[id].(row := row)];
      if job.Some? {
        return Ok(AggregateJob(job.value));
      }
      match row.status
      case Completed =>
        return Ok(StartReconcile(id));
      case Failed =>
        batches := batches - {id};
        return Ok(Done);
      case _ =>
        return Ok(Done);
    }

    /** Aggregates a job's chunks, if they can be listed; true when a reconcile is to be started. */
    method UpdateScrubJobProgress(id: JobID, listing: Option<seq<BatchID>>) returns (start: bool)
      requires listing.Some? ==> IsListing(listing.value, RowsOf(batches, id).Keys)
      modifies `jobs
      ensures id !in old(jobs) || listing.None? ==> !start && State() == old(State())
      ensures id in old(jobs) && listing.Some? ==>
        && State() == WithJobProgress(old(State()), id, listing.value)
        && (start <==> Aggregate(old(jobs)[id].row.total, ListedRows(listing.value, RowsOf(old(batches), id))).done)
      ensures id in old(jobs) && listing.Some? ==>
        var order, job := listing.value, old(jobs)[id];
        var (over, submitted, validated, invalid) := Totals(ListedRows(order, RowsOf(old(batches), id)));
        && jobs == old(jobs)[id := job.(row := JobRow(job.row.total, over, submitted, validated, invalid,
                                                      if over == job.row.total then Completed else Processing))]
        && (start <==> over == job.row.total)
      ensures old(ValidDb(State())) ==> ValidDb(State())
    {
      if id !in jobs {
        return false;
      }
      if listing.None? {
        return false;
      }
      var job := jobs[id];
      var p := AggregateBatches(job.row.total, ListedRows(listing.value, RowsOf(batches, id)));
      var status := Processing;
      if p.done {
        status := Completed;
      }
      jobs := jobs[id := job.(row := JobRow(job.row.total, p.completed, p.submitted, p.validated, p.invalid, status))];
      return p.done;
    }

    method ApplyScrubResults(tenant: int, lists: seq<ListID>, deliverable: seq<Email>, undeliverable: seq<Email>)
      modifies `tables
      ensures tables == ApplyResults(old(tables), tenant, lists, deliverable, undeliverable)
    {
      ApplyShortcuts(tables, tenant, lists, deliverable, undeliverable);
      if |deliverable| > 0 {
        tables := Tag(tables, tenant, deliverable, Deliverable);
      }
      if |undeliverable| == 0 {
        return;
      }
      tables := Tag(tables, tenant, undeliverable, Undeliverable);
      if |lists| == 0 {
        return;
      }
      var ids := SubscribersByEmail(tables, tenant, undeliverable);
      if ids == {} {
        return;
      }
      tables := Unsubscribe(tables, ids, lists);
    }

    method UpdateListSummaries(lists: seq<ListID>, valid: int, invalid: int)
      modifies `tables
      ensures tables == SummariseAll(old(tables), lists, valid, invalid)
    {
      for i := 0 to |lists|
        invariant tables == SummariseAll(old(tables), lists[..i], valid, invalid)
      {
        assert lists[..i + 1][..i] == lists[..i];
        tables := Summarise(tables, lists[i], valid, invalid);
      }
      assert lists[..|lists|] == lists;
    }

    /** A standalone batch, once it completed: its row goes on every path. */
    method ReconcileScrubBatch(id: BatchID, batch: Batch, settings: Option<ScrubSettings>, history: History)
      modifies `tables, `batches
      ensures batches == old(batches) - {id}
      ensures old(ValidDb(State())) ==> ValidDb(State())
      ensures tables ==
        if settings.None? || !ScrubValidationEnabled(settings.value) || settings.value.integrationID == ""
           || history(id).None?
        then old(tables)
        else
          var good, bad := WithVerdict(history(id).value, true), WithVerdict(history(id).value, false);
          SummariseAll(ApplyResults(old(tables), batch.tenant, batch.lists, good, bad), batch.lists, |good|, |bad|)
    {
      if settings.Some? && ScrubValidationEnabled(settings.value) && settings.value.integrationID != "" {
        if history(id).Some? {
          var deliverable, undeliverable := ClassifyHistoryResults(history(id).value);
          ApplyScrubResults(batch.tenant, batch.lists, deliverable, undeliverable);
          UpdateListSummaries(batch.lists, |deliverable|, |undeliverable|);
        }
      }
      batches := batches - {id};
    }

    /** The part of a reconcile that writes results, over the job's rows as they are listed. */
    method ReconcileRows(id: JobID, job: Job, order: seq<BatchID>, history: History)
      requires IsListing(order, RowsOf(batches, id).Keys)
      modifies `tables
      ensures tables == Reconciled(old(tables), job.tenant, job.lists, order, StatusesOf(RowsOf(batches, id)), history)
    {
      var deliverable: seq<Email>, undeliverable: seq<Email> := [], [];
      var anyCompleted := false;
      ghost var statuses := StatusesOf(RowsOf(batches, id));
      assert forall k :: 0 <= k < |order| ==> order[k] in batches;
      NothingCollected(order[..0], statuses, history);
      hide Collect, AnyCompleted, CompletedIn, ApplyResults, SummariseAll, IsListing;
      for i := 0 to |order|
        invariant deliverable == Collect(order[..i], statuses, history, true)
        invariant undeliverable == Collect(order[..i], statuses, history, false)
        invariant anyCompleted == AnyCompleted(order[..i], statuses)
        invariant tables == old(tables)
      {
        var b := order[i];
        CollectStep(order, i, statuses, history);
        if batches[b].row.status != Completed {
          continue;
        }
        anyCompleted := true;
        if history(b).None? {
          continue;
        }
        var d, u := ClassifyHistoryResults(history(b).value);
        deliverable := deliverable + d;
        undeliverable := undeliverable + u;
      }
      assert order[..|order|] == order;
      ApplyScrubResults(job.tenant, job.lists, deliverable, undeliverable);
      if anyCompleted {
        UpdateListSummaries(job.lists, |deliverable|, |undeliverable|);
      }
    }

    /**
     One uninterrupted reconcile of a job. The job row goes on every path; the
     tables change only if the settings can be read, Scrub is still configured
     and the rows can be listed.
     */
    method ReconcileScrubJob(id: JobID, job: Job, settings: Option<ScrubSettings>, listing: Option<seq<BatchID>>,
                             history: History)
      requires listing.Some? ==> IsListing(listing.value, RowsOf(batches, id).Keys)
      modifies `tables, `jobs, `batches
      ensures jobs == old(jobs) - {id}
      ensures batches == map b | b in old(batches) && old(batches)[b].job != Some(id) :: old(batches)[b]
      ensures tables ==
        if settings.None? || !ScrubValidationEnabled(settings.value)
           || settings.value.integrationID == "" || listing.None?
        then old(tables)
        else Reconciled(old(tables), job.tenant, job.lists, listing.value, StatusesOf(RowsOf(old(batches), id)),
                        history)
      ensures old(ValidDb(State())) ==> ValidDb(State())
    {
      if settings.Some? && ScrubValidationEnabled(settings.value) && settings.value.integrationID != "" {
        if listing.Some? {
          ReconcileRows(id, job, listing.value, history);
        }
      }
      DeleteScrubValidationJob(id);
    }
  }

  lemma NothingCollected(order: seq<BatchID>, statuses: map<BatchID, BatchStatus>, history: History)
    requires order == []
    ensures Collect(order, statuses, history, true) == [] && Collect(order, statuses, history, false) == []
    ensures !AnyCompleted(order, statuses)
  {
  }

  /** What one more row adds, as the loop over the rows tells its cases apart. */
  lemma CollectStep(order: seq<BatchID>, i: nat, statuses: map<BatchID, BatchStatus>, history: History)
    requires i < |order| && order[i] in statuses
    ensures var b := order[i]; var had := order[..i]; var has := order[..i + 1];
      if statuses[b] != Completed then
        && Collect(has, statuses, history, true) == Collect(had, statuses, history, true)
        && Collect(has, statuses, history, false) == Collect(had, statuses, history, false)
        && AnyCompleted(has, statuses) == AnyCompleted(had, statuses)
      else
        && AnyCompleted(has, statuses)
        && var records := if history(b).Some? then history(b).value else [];
           && Collect(has, statuses, history, true)
             == Collect(had, statuses, history, true) + WithVerdict(records, true)
           && Collect(has, statuses, history, false)
             == Collect(had, statuses, history, false) + WithVerdict(records, false)
  {
    AnyCompletedStep(order, i, statuses);
    CollectSnoc(order[..i], order[i], statuses, history, true);
    CollectSnoc(order[..i], order[i], statuses, history, false);
    assert order[..i + 1] == order[..i] + [order[i]];
    hide AnyCompleted, Collect;
    assert WithVerdict([], true) == [] && WithVerdict([], false) == [];
  }

  lemma AnyCompletedStep(order: seq<BatchID>, i: nat, statuses: map<BatchID, BatchStatus>)
    requires i < |order|
    ensures AnyCompleted(order[..i + 1], statuses) <==>
            AnyCompleted(order[..i], statuses) || CompletedIn(order[i], statuses)
  {
  }

  /** The early exits of applyScrubResults skip only writes that would change nothing. */
  lemma ApplyShortcuts(db: Tables, tenant: int, lists: seq<ListID>, good: seq<Email>, bad: seq<Email>)
    ensures Tag(db, tenant, [], Deliverable) == db
    ensures bad == [] ==> ApplyResults(db, tenant, lists, good, bad) == Tag(db, tenant, good, Deliverable)
    ensures lists == [] || SubscribersByEmail(Tag(db, tenant, bad, Undeliverable), tenant, bad) == {} ==>
      ApplyResults(db, tenant, lists, good, bad) == Tag(Tag(db, tenant, good, Deliverable), tenant, bad, Undeliverable)
  {
    assert Tag(db, tenant, [], Deliverable).subscribers == db.subscribers;
    var t1 := Tag(db, tenant, good, Deliverable);
    var t2 := Tag(t1, tenant, bad, Undeliverable);
    if bad == [] {
      assert t2.subscribers == t1.subscribers;
      assert Unsubscribe(t2, {}, lists).subscriptions == t2.subscriptions;
      assert SubscribersByEmail(t2, tenant, bad) == {};
    }
    assert SubscribersByEmail(t2, tenant, bad)
        == SubscribersByEmail(Tag(db, tenant, bad, Undeliverable), tenant, bad);
    if lists == [] || SubscribersByEmail(t2, tenant, bad) == {} {
      assert Unsubscribe(t2, SubscribersByEmail(t2, tenant, bad), lists).subscriptions == t2.subscriptions;
    }
  }

  lemma NoChunks(d: Db, tenant: int, s: ScrubSettings, list: ListID, chunks: seq<seq<Email>>, id: JobID,
                 replies: nat -> Option<int>)
    requires chunks == []
    ensures AfterChunks(d, tenant, s, list, chunks, id, replies) == (d, true)
  {
  }

  lemma NextChunk(d: Db, tenant: int, s: ScrubSettings, list: ListID, chunks: seq<seq<Email>>, k: nat, id: JobID,
                  replies: nat -> Option<int>)
    requires k < |chunks| && AfterChunks(d, tenant, s, list, chunks[..k], id, replies).1
    ensures AfterChunks(d, tenant, s, list, chunks[..k + 1], id, replies)
         == (AfterBatch(AfterChunks(d, tenant, s, list, chunks[..k], id, replies).0, tenant, s, [list], chunks[k],
                        Some(id), replies(k)),
             Accepts(s, replies(k)))
  {
    hide AfterBatch, Accepts;
    assert chunks[..k + 1][..k] == chunks[..k];
  }

  lemma {:induction false} ChunksStopAt(d: Db, tenant: int, s: ScrubSettings, list: ListID, chunks: seq<seq<Email>>,
                                        k: nat, id: JobID, replies: nat -> Option<int>)
    requires k <= |chunks| && !AfterChunks(d, tenant, s, list, chunks[..k], id, replies).1
    ensures AfterChunks(d, tenant, s, list, chunks, id, replies)
         == AfterChunks(d, tenant, s, list, chunks[..k], id, replies)
    decreases |chunks|
  {
    if k == |chunks| {
      assert chunks[..k] == chunks;
    } else {
      var n := |chunks| - 1;
      assert chunks[..n][..k] == chunks[..k];
      ChunksStopAt(d, tenant, s, list, chunks[..n], k, id, replies);
    }
  }
}
