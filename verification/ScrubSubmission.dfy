/** Submitting a list is all or nothing, whichever of its chunks Scrub refuses. */
module ScrubSubmission {
  import opened Wrappers
  import opened Maps
  import opened ScrubModel
  import opened ScrubBatching
  import opened ScrubStore

  /** The rows a job's accepted chunks leave behind. */
  function ChunkRows(tenant: int, id: JobID, list: ListID, subs: seq<Submission>): map<BatchID, Batch> {
    if subs == [] then map[]
    else
      var n := |subs| - 1;
      ChunkRows(tenant, id, list, subs[..n])
        [subs[n].batch := Batch(tenant, Some(id), [list], BatchRow(Pending, subs[n].count, 0, 0))]
  }

  /** Only the tenant's counter moved, by amount. */
  ghost predicate UsageGrew(tenant: int, was: map<int, int>, now: map<int, int>, amount: int) {
    && In(now, tenant) == In(was, tenant) + amount
    && forall t :: t != tenant ==> In(now, t) == In(was, t)
  }

  /** Accepted chunks took fresh, increasing batch IDs in [lo, hi). */
  ghost predicate FreshIDs(subs: seq<Submission>, lo: nat, hi: nat) {
    && (forall k :: 0 <= k < |subs| ==> lo <= subs[k].batch < hi)
    && (forall j, k :: 0 <= j < k < |subs| ==> subs[j].batch < subs[k].batch)
  }

  /** subs are what Scrub accepted of chunks, up to the first refusal. */
  ghost predicate AcceptedPrefix(chunks: seq<seq<Email>>, subs: seq<Submission>, replies: nat -> Option<int>,
                                 all: bool) {
    && |subs| <= |chunks|
    && EmailsOf(subs) == chunks[..|subs|]
    && (forall k: nat :: k < |subs| ==> replies(k) == Some(subs[k].count))
    && (if all then |subs| == |chunks| else |subs| < |chunks| && replies(|subs|).None?)
  }

  ghost predicate Effect(d: Db, out: Db, tenant: int, id: JobID, list: ListID, subs: seq<Submission>) {
    && out.sent == d.sent + subs
    && out.batches == d.batches + ChunkRows(tenant, id, list, subs)
    && UsageGrew(tenant, d.usage, out.usage, Accepted(subs))
    && FreshIDs(subs, d.nextBatch, out.nextBatch)
    && out.jobs == d.jobs && out.tables == d.tables && out.nextJob == d.nextJob
  }

  lemma ExtendPrefix(chunks: seq<seq<Email>>, subs: seq<Submission>, s: Submission, replies: nat -> Option<int>)
    requires chunks != [] && AcceptedPrefix(chunks[..|chunks| - 1], subs, replies, true)
    requires s.emails == chunks[|chunks| - 1] && replies(|chunks| - 1) == Some(s.count)
    ensures AcceptedPrefix(chunks, subs + [s], replies, true)
  {
  }

  lemma EffectGrows(d: Db, mid: Db, tenant: int, s: ScrubSettings, id: JobID, list: ListID, subs: seq<Submission>,
                    chunk: seq<Email>, count: int)
    requires Effect(d, mid, tenant, id, list, subs) && d.nextBatch <= mid.nextBatch && Configured(s)
    ensures Effect(d, AfterBatch(mid, tenant, s, [list], chunk, Some(id), Some(count)), tenant, id, list,
                   subs + [Submission(mid.nextBatch, chunk, count)])
  {
    var last := Submission(mid.nextBatch, chunk, count);
    AcceptedAppend(subs, last);
    BatchesGrow(d.batches, tenant, id, list, subs, last);
    SeqGrows(d.sent, subs, last);
    FreshIDsAppend(subs, d.nextBatch, mid.nextBatch, last);
    UsageGrowsOn(tenant, d.usage, mid.usage, Accepted(subs), count);
  }

  lemma BatchesGrow(was: map<BatchID, Batch>, tenant: int, id: JobID, list: ListID, subs: seq<Submission>,
                    s: Submission)
    ensures was + ChunkRows(tenant, id, list, subs + [s]) ==
      (was + ChunkRows(tenant, id, list, subs))
        [s.batch := Batch(tenant, Some(id), [list], BatchRow(Pending, s.count, 0, 0))]
  {
    assert (subs + [s])[..|subs|] == subs;
  }

  lemma SeqGrows<T>(a: seq<T>, b: seq<T>, x: T)
    ensures (a + b) + [x] == a + (b + [x])
  {
  }

  lemma UsageGrowsOn(tenant: int, was: map<int, int>, mid: map<int, int>, amount: int, count: int)
    requires UsageGrew(tenant, was, mid, amount)
    ensures UsageGrew(tenant, was, mid[tenant := In(mid, tenant) + count], amount + count)
  {
  }

  lemma FreshIDsAppend(subs: seq<Submission>, lo: nat, hi: nat, s: Submission)
    requires FreshIDs(subs, lo, hi) && lo <= hi == s.batch
    ensures FreshIDs(subs + [s], lo, hi + 1)
  {
  }

  lemma {:induction false} SubmitChunksEffect(d: Db, tenant: int, s: ScrubSettings, list: ListID,
                                              chunks: seq<seq<Email>>, id: JobID, replies: nat -> Option<int>)
    returns (subs: seq<Submission>)
    requires Configured(s)
    ensures var out := AfterChunks(d, tenant, s, list, chunks, id, replies);
            && Effect(d, out.0, tenant, id, list, subs) && d.nextBatch <= out.0.nextBatch
            && AcceptedPrefix(chunks, subs, replies, out.1)
    decreases |chunks|
  {
    if chunks == [] {
      subs := [];
    } else {
      var n := |chunks| - 1;
      subs := SubmitChunksEffect(d, tenant, s, list, chunks[..n], id, replies);
      var prefix := AfterChunks(d, tenant, s, list, chunks[..n], id, replies);
      if prefix.1 {
        if replies(n).Some? {
          var last := Submission(prefix.0.nextBatch, chunks[n], replies(n).value);
          ExtendPrefix(chunks, subs, last, replies);
          EffectGrows(d, prefix.0, tenant, s, id, list, subs, chunks[n], replies(n).value);
          subs := subs + [last];
        } else {
          StoppedPrefix(chunks, subs, replies, true);
        }
      } else {
        StoppedPrefix(chunks, subs, replies, false);
      }
    }
  }

  lemma StoppedPrefix(chunks: seq<seq<Email>>, subs: seq<Submission>, replies: nat -> Option<int>, all: bool)
    requires chunks != [] && AcceptedPrefix(chunks[..|chunks| - 1], subs, replies, all)
    requires all ==> replies(|chunks| - 1).None?
    ensures AcceptedPrefix(chunks, subs, replies, false)
  {
  }

  lemma {:induction false} ChunkRowsFresh(tenant: int, id: JobID, list: ListID, subs: seq<Submission>, lo: nat, hi: nat)
    requires FreshIDs(subs, lo, hi)
    ensures forall b :: b in ChunkRows(tenant, id, list, subs) ==> lo <= b < hi
    ensures |ChunkRows(tenant, id, list, subs)| == |subs|
  {
    if subs != [] {
      var n := |subs| - 1;
      assert FreshIDs(subs[..n], lo, subs[n].batch);
      ChunkRowsFresh(tenant, id, list, subs[..n], lo, subs[n].batch);
      assert subs[n].batch !in ChunkRows(tenant, id, list, subs[..n]);
    }
  }

  lemma {:induction false} ChunkRowsExact(tenant: int, id: JobID, list: ListID, subs: seq<Submission>, lo: nat, hi: nat)
    requires FreshIDs(subs, lo, hi)
    ensures forall k :: 0 <= k < |subs| ==>
      && subs[k].batch in ChunkRows(tenant, id, list, subs)
      && ChunkRows(tenant, id, list, subs)[subs[k].batch]
           == Batch(tenant, Some(id), [list], BatchRow(Pending, subs[k].count, 0, 0))
    ensures forall b :: b in ChunkRows(tenant, id, list, subs) ==>
      ChunkRows(tenant, id, list, subs)[b].job == Some(id)
  {
    if subs != [] {
      var n := |subs| - 1;
      assert FreshIDs(subs[..n], lo, subs[n].batch);
      ChunkRowsExact(tenant, id, list, subs[..n], lo, subs[n].batch);
      forall k | 0 <= k < |subs|
        ensures && subs[k].batch in ChunkRows(tenant, id, list, subs)
                && ChunkRows(tenant, id, list, subs)[subs[k].batch]
                     == Batch(tenant, Some(id), [list], BatchRow(Pending, subs[k].count, 0, 0))
      {
        if k < n { assert subs[..n][k] == subs[k] && subs[k].batch < subs[n].batch; }
      }
    }
  }

  lemma {:induction false} FlattenOfPrefix(chunks: seq<seq<Email>>, k: nat)
    requires k <= |chunks|
    ensures Flatten(chunks[..k]) <= Flatten(chunks)
    decreases |chunks|
  {
    if k == |chunks| {
      assert chunks[..k] == chunks;
    } else {
      var n := |chunks| - 1;
      FlattenOfPrefix(chunks[..n], k);
      assert chunks[..n][..k] == chunks[..k];
    }
  }

  /** One new job row and exactly its planned number of chunk rows, covering the list in order. */
  ghost predicate LeftEverything(d: Db, out: Db, id: JobID, tenant: int, list: ListID, emails: seq<Email>,
                                 subs: seq<Submission>) {
    && id !in d.jobs
    && out.jobs == d.jobs[id := Job(tenant, [list], JobRow(|subs|, 0, |emails|, 0, 0, Processing))]
    && out.batches == d.batches + ChunkRows(tenant, id, list, subs)
    && d.batches.Keys !! ChunkRows(tenant, id, list, subs).Keys
    && |ChunkRows(tenant, id, list, subs)| == |subs|
    && Flatten(EmailsOf(subs)) == emails
  }

  /** Every row as it was; a proper prefix of the list was accepted. */
  ghost predicate LeftNothing(d: Db, out: Db, emails: seq<Email>, subs: seq<Submission>) {
    && out.jobs == d.jobs && out.batches == d.batches
    && Flatten(EmailsOf(subs)) < emails
  }

  /** What the submission sent to Scrub and was accepted. */
  lemma SentBySubmission(d: Db, tenant: int, s: ScrubSettings, list: ListID, emails: seq<Email>,
                         replies: nat -> Option<int>, subs: seq<Submission>)
    requires Configured(s) && AfterSubmission(d, tenant, s, list, emails, replies).0.sent == d.sent + subs
    ensures var start, chunks := WithJob(d, tenant, list, emails), Chunks(emails, MAX_BATCH_EMAILS);
            var sent := AfterChunks(start, tenant, s, list, chunks, d.nextJob, replies);
            && Effect(start, sent.0, tenant, d.nextJob, list, subs)
            && AcceptedPrefix(chunks, subs, replies, sent.1)
  {
    var start, chunks := WithJob(d, tenant, list, emails), Chunks(emails, MAX_BATCH_EMAILS);
    var found := SubmitChunksEffect(start, tenant, s, list, chunks, d.nextJob, replies);
    assert subs == (d.sent + subs)[|d.sent|..] == (d.sent + found)[|d.sent|..] == found;
  }

  /**
   Under ScrubList's guards: success leaves one new job row and exactly its
   planned number of chunk rows, whose accepted e-mails concatenate in order to
   the list's, each chunk non-empty and within Scrub's cap; failure leaves every
   row as it was, a proper prefix of the list having been accepted.
   */
  lemma SubmissionAllOrNothing(d: Db, tenant: int, s: ScrubSettings, list: ListID, emails: seq<Email>,
                               replies: nat -> Option<int>, subs: seq<Submission>)
    requires ValidDb(d) && Configured(s)
    requires AfterSubmission(d, tenant, s, list, emails, replies).0.sent == d.sent + subs
    ensures var (out, r) := AfterSubmission(d, tenant, s, list, emails, replies);
            if r.Ok? then LeftEverything(d, out, r.value, tenant, list, emails, subs)
            else LeftNothing(d, out, emails, subs)
    ensures forall k :: 0 <= k < |subs| ==> 0 < |subs[k].emails| <= MAX_BATCH_EMAILS
  {
    var sent := AfterChunks(WithJob(d, tenant, list, emails), tenant, s, list, Chunks(emails, MAX_BATCH_EMAILS),
                            d.nextJob, replies);
    ChunksCover(emails, MAX_BATCH_EMAILS);
    SentBySubmission(d, tenant, s, list, emails, replies, subs);
    PrefixInRange(Chunks(emails, MAX_BATCH_EMAILS), subs);
    if sent.1 {
      AllLeft(d, sent.0, tenant, list, emails, subs, replies);
    } else {
      NothingLeft(d, sent.0, tenant, list, emails, subs, replies);
    }
  }

  lemma AllLeft(d: Db, out: Db, tenant: int, list: ListID, emails: seq<Email>, subs: seq<Submission>,
                replies: nat -> Option<int>)
    requires ValidDb(d) && Effect(WithJob(d, tenant, list, emails), out, tenant, d.nextJob, list, subs)
    requires AcceptedPrefix(Chunks(emails, MAX_BATCH_EMAILS), subs, replies, true)
    ensures LeftEverything(d, out, d.nextJob, tenant, list, emails, subs)
  {
    var chunks := Chunks(emails, MAX_BATCH_EMAILS);
    ChunksCover(emails, MAX_BATCH_EMAILS);
    ChunkRowsFresh(tenant, d.nextJob, list, subs, d.nextBatch, out.nextBatch);
    assert chunks[..|subs|] == chunks;
  }

  lemma NothingLeft(d: Db, out: Db, tenant: int, list: ListID, emails: seq<Email>, subs: seq<Submission>,
                    replies: nat -> Option<int>)
    requires ValidDb(d) && Effect(WithJob(d, tenant, list, emails), out, tenant, d.nextJob, list, subs)
    requires AcceptedPrefix(Chunks(emails, MAX_BATCH_EMAILS), subs, replies, false)
    ensures LeftNothing(d, WithoutJob(out, d.nextJob), emails, subs)
  {
    RowsUndone(d, WithJob(d, tenant, list, emails), out, tenant, d.nextJob, list, subs);
    StoppedShort(emails, subs, replies);
  }

  lemma StoppedShort(emails: seq<Email>, subs: seq<Submission>, replies: nat -> Option<int>)
    requires AcceptedPrefix(Chunks(emails, MAX_BATCH_EMAILS), subs, replies, false)
    ensures Flatten(EmailsOf(subs)) < emails
  {
    ChunksCover(emails, MAX_BATCH_EMAILS);
    ProperPrefix(Chunks(emails, MAX_BATCH_EMAILS), |subs|);
  }

  /**
   Whether it succeeds or fails, the tenant's usage grows by exactly what Scrub
   accepted and no other counter moves; it succeeds if and only if Scrub takes
   every chunk.
   */
  lemma SubmissionBillsAccepted(d: Db, tenant: int, s: ScrubSettings, list: ListID, emails: seq<Email>,
                                replies: nat -> Option<int>, subs: seq<Submission>)
    requires Configured(s)
    requires AfterSubmission(d, tenant, s, list, emails, replies).0.sent == d.sent + subs
    ensures var (out, r) := AfterSubmission(d, tenant, s, list, emails, replies);
            && UsageGrew(tenant, d.usage, out.usage, Accepted(subs))
            && out.tables == d.tables
            && (r.Ok? <==> forall k: nat :: k * MAX_BATCH_EMAILS < |emails| ==> replies(k).Some?)
  {
    ChunksCover(emails, MAX_BATCH_EMAILS);
    SentBySubmission(d, tenant, s, list, emails, replies, subs);
    if !AfterSubmission(d, tenant, s, list, emails, replies).1.Ok? {
      assert |subs| * MAX_BATCH_EMAILS < |emails|;
    }
  }

  lemma RowsUndone(d: Db, start: Db, out: Db, tenant: int, id: JobID, list: ListID, subs: seq<Submission>)
    requires ValidDb(d) && id == d.nextJob && start.batches == d.batches && start.nextBatch == d.nextBatch
    requires id in start.jobs && start.jobs == d.jobs[id := start.jobs[id]]
    requires Effect(start, out, tenant, id, list, subs)
    ensures WithoutJob(out, id).jobs == d.jobs && WithoutJob(out, id).batches == d.batches
  {
    var rows := ChunkRows(tenant, id, list, subs);
    ChunkRowsFresh(tenant, id, list, subs, d.nextBatch, out.nextBatch);
    ChunkRowsExact(tenant, id, list, subs, d.nextBatch, out.nextBatch);
    assert forall b :: b in d.batches ==> b < d.nextBatch && d.batches[b].job != Some(id) by {
      assert id !in d.jobs;
    }
    hide ValidDb, ChunkRows, UsageGrew, FreshIDs, Cascade;
    CascadeUndoes(d.batches, rows, id);
    InsertUndone(d.jobs, id, start.jobs[id]);
  }

  lemma CascadeUndoes(was: map<BatchID, Batch>, rows: map<BatchID, Batch>, id: JobID)
    requires was.Keys !! rows.Keys
    requires forall b :: b in was ==> was[b].job != Some(id)
    requires forall b :: b in rows ==> rows[b].job == Some(id)
    ensures Cascade(was + rows, id) == was
  {
  }

  lemma PrefixInRange(chunks: seq<seq<Email>>, subs: seq<Submission>)
    requires |subs| <= |chunks| && EmailsOf(subs) == chunks[..|subs|]
    requires forall k :: 0 <= k < |chunks| ==> 0 < |chunks[k]| <= MAX_BATCH_EMAILS
    ensures forall k :: 0 <= k < |subs| ==> 0 < |subs[k].emails| <= MAX_BATCH_EMAILS
  {
    forall k | 0 <= k < |subs| ensures subs[k].emails == chunks[k] {
      assert EmailsOf(subs)[k] == subs[k].emails;
    }
  }

  lemma ProperPrefix(chunks: seq<seq<Email>>, k: nat)
    requires k < |chunks| && forall j :: 0 <= j < |chunks| ==> 0 < |chunks[j]|
    ensures Flatten(chunks[..k]) < Flatten(chunks)
  {
    FlattenOfPrefix(chunks, k + 1);
    FlattenAppend(chunks[..k], chunks[k]);
    assert chunks[..k + 1] == chunks[..k] + [chunks[k]];
  }

  /**
   The same code leaves a job row with no chunk to finish it exactly when one of
   ScrubList's guards would have refused.
   */
  lemma UnguardedSubmissionStrands(d: Db, tenant: int, s: ScrubSettings, list: ListID, emails: seq<Email>,
                                   replies: nat -> Option<int>)
    requires ValidDb(d)
    ensures var (out, r) := AfterSubmission(d, tenant, s, list, emails, replies);
            && (r.Ok? ==> r.value == d.nextJob && d.nextJob in out.jobs)
            && (r.Ok? && RowsOf(out.batches, d.nextJob) == map[] <==> !Configured(s) || emails == [])
  {
    var start, chunks := WithJob(d, tenant, list, emails), Chunks(emails, MAX_BATCH_EMAILS);
    if !Configured(s) {
      SkippedChunks(start, tenant, s, list, chunks, d.nextJob, replies);
    } else if emails == [] {
      assert chunks == [];
    } else {
      var subs := SubmitChunksEffect(start, tenant, s, list, chunks, d.nextJob, replies);
      SubmissionAllOrNothing(d, tenant, s, list, emails, replies, subs);
      LeavesRows(d, tenant, s, list, emails, replies, subs);
    }
  }

  lemma LeavesRows(d: Db, tenant: int, s: ScrubSettings, list: ListID, emails: seq<Email>, replies: nat -> Option<int>,
                   subs: seq<Submission>)
    requires ValidDb(d) && Configured(s) && emails != []
    requires AfterSubmission(d, tenant, s, list, emails, replies).0.sent == d.sent + subs
    ensures var (out, r) := AfterSubmission(d, tenant, s, list, emails, replies);
      r.Ok? ==> r.value == d.nextJob && d.nextJob in out.jobs && RowsOf(out.batches, d.nextJob) != map[]
  {
    var (out, r) := AfterSubmission(d, tenant, s, list, emails, replies);
    if r.Ok? {
      SubmissionAllOrNothing(d, tenant, s, list, emails, replies, subs);
      SentBySubmission(d, tenant, s, list, emails, replies, subs);
      assert subs != [];
      ChunkRowsExact(tenant, d.nextJob, list, subs, d.nextBatch, out.nextBatch);
      assert subs[0].batch in RowsOf(out.batches, d.nextJob);
    }
  }

  lemma {:induction false} SkippedChunks(d: Db, tenant: int, s: ScrubSettings, list: ListID, chunks: seq<seq<Email>>,
                                         id: JobID, replies: nat -> Option<int>)
    requires !Configured(s)
    ensures AfterChunks(d, tenant, s, list, chunks, id, replies) == (d, true)
  {
    if chunks != [] {
      SkippedChunks(d, tenant, s, list, chunks[..|chunks| - 1], id, replies);
    }
  }
}
