/**
 What one uninterrupted reconcile of a list-validation job does to the tables,
 as a function of the rows it read and Scrub's history, and what that means for
 every subscriber, subscription and list.
 */
module ScrubReconcile {
  import opened Wrappers
  import opened Picking
  import opened ScrubModel

  /** None: that batch's history cannot be fetched. Repeated reads answer the same. */
  type History = BatchID -> Option<seq<HistoryRecord>>

  function WithVerdict(records: seq<HistoryRecord>, valid: bool): seq<Email> {
    if records == [] then []
    else
      var rest, r := WithVerdict(records[..|records| - 1], valid), records[|records| - 1];
      if r.valid == valid then rest + [r.email] else rest
  }

  /** Splits history records into deliverable and undeliverable addresses, in order. */
  method ClassifyHistoryResults(records: seq<HistoryRecord>)
    returns (deliverable: seq<Email>, undeliverable: seq<Email>)
    ensures deliverable == WithVerdict(records, true)
    ensures undeliverable == WithVerdict(records, false)
  {
    deliverable, undeliverable := [], [];
    for i := 0 to |records|
      invariant deliverable == WithVerdict(records[..i], true)
      invariant undeliverable == WithVerdict(records[..i], false)
    {
      assert records[..i + 1][..i] == records[..i];
      if records[i].valid {
        deliverable := deliverable + [records[i].email];
      } else {
        undeliverable := undeliverable + [records[i].email];
      }
    }
    assert records[..|records|] == records;
  }

  /** Of the records, in order, the addresses of those with the verdict, and no other. */
  lemma {:induction false} WithVerdictExact(records: seq<HistoryRecord>, valid: bool,
                                            pick: HistoryRecord -> bool, address: HistoryRecord -> Email)
    requires forall r :: (pick(r) <==> r.valid == valid) && address(r) == r.email
    ensures Picks(records, pick, address, WithVerdict(records, valid))
  {
    if records == [] {
      PicksNothing(pick, address);
    } else {
      var n := |records| - 1;
      WithVerdictExact(records[..n], valid, pick, address);
      PicksNext(records[..n], records[n], pick, address, WithVerdict(records[..n], valid));
      assert records == records[..n] + [records[n]];
    }
  }

  lemma {:induction false} WithVerdictMembers(records: seq<HistoryRecord>, valid: bool, e: Email)
    ensures e in WithVerdict(records, valid) <==> HistoryRecord(e, valid) in records
  {
    if records != [] {
      var n := |records| - 1;
      WithVerdictMembers(records[..n], valid, e);
      assert records == records[..n] + [records[n]];
    }
  }

  lemma {:induction false} VerdictsPartition(records: seq<HistoryRecord>)
    ensures |WithVerdict(records, true)| + |WithVerdict(records, false)| == |records|
  {
    if records != [] {
      VerdictsPartition(records[..|records| - 1]);
    }
  }

  predicate CompletedIn(id: BatchID, statuses: map<BatchID, BatchStatus>) {
    id in statuses && statuses[id].Completed?
  }

  /** The records a batch contributes: none unless it completed and its history can be read. */
  function RecordsOf(id: BatchID, statuses: map<BatchID, BatchStatus>, history: History): seq<HistoryRecord> {
    if CompletedIn(id, statuses) && history(id).Some? then history(id).value else []
  }

  /** All addresses with the given verdict over the rows listed, batch by batch. */
  function Collect(order: seq<BatchID>, statuses: map<BatchID, BatchStatus>, history: History,
                   valid: bool): seq<Email> {
    if order == [] then []
    else
      var n := |order| - 1;
      Collect(order[..n], statuses, history, valid)
      + WithVerdict(RecordsOf(order[n], statuses, history), valid)
  }

  predicate AnyCompleted(order: seq<BatchID>, statuses: map<BatchID, BatchStatus>)
  {
    exists k :: 0 <= k < |order| && order[k] in statuses && statuses[order[k]] == Completed
  }

  /** Tag the good, tag the bad over them, unsubscribe the bad. */
  function ApplyResults(db: Tables, tenant: int, lists: seq<ListID>, good: seq<Email>, bad: seq<Email>): Tables {
    var tagged := Tag(Tag(db, tenant, good, Deliverable), tenant, bad, Undeliverable);
    Unsubscribe(tagged, SubscribersByEmail(tagged, tenant, bad), lists)
  }

  function Reconciled(db: Tables, tenant: int, lists: seq<ListID>, order: seq<BatchID>,
                      statuses: map<BatchID, BatchStatus>, history: History): Tables
  {
    var good, bad := Collect(order, statuses, history, true), Collect(order, statuses, history, false);
    var applied := ApplyResults(db, tenant, lists, good, bad);
    if AnyCompleted(order, statuses) then SummariseAll(applied, lists, |good|, |bad|) else applied
  }

  /** The history of some completed batch says this about e. */
  ghost predicate Reported(order: seq<BatchID>, statuses: map<BatchID, BatchStatus>, history: History, e: Email,
                           valid: bool)
  {
    exists k :: 0 <= k < |order| && ReportedBy(order[k], statuses, history, e, valid)
  }

  /** The batch completed, and the history Scrub has of it says this about e. */
  ghost predicate ReportedBy(id: BatchID, statuses: map<BatchID, BatchStatus>, history: History, e: Email,
                             valid: bool) {
    id in statuses && statuses[id] == Completed && history(id).Some? && HistoryRecord(e, valid) in history(id).value
  }

  function TotalRecords(order: seq<BatchID>, statuses: map<BatchID, BatchStatus>, history: History): nat
  {
    if order == [] then 0
    else
      var n := |order| - 1;
      TotalRecords(order[..n], statuses, history) + |RecordsOf(order[n], statuses, history)|
  }

  lemma {:induction false} CollectMembers(order: seq<BatchID>, statuses: map<BatchID, BatchStatus>, history: History,
                                          valid: bool, e: Email)
    ensures e in Collect(order, statuses, history, valid) <==> Reported(order, statuses, history, e, valid)
  {
    if order != [] {
      var n := |order| - 1;
      var last := RecordsOf(order[n], statuses, history);
      CollectMembers(order[..n], statuses, history, valid, e);
      WithVerdictMembers(last, valid, e);
      if Reported(order[..n], statuses, history, e, valid) {
        var k :| 0 <= k < n && ReportedBy(order[..n][k], statuses, history, e, valid);
        assert order[k] == order[..n][k];
      }
      if Reported(order, statuses, history, e, valid) && HistoryRecord(e, valid) !in last {
        var k :| 0 <= k < |order| && ReportedBy(order[k], statuses, history, e, valid);
        assert k < n && order[..n][k] == order[k];
      }
    }
  }

  /** Valid plus invalid counts equal the history records read. */
  lemma {:induction false} CountsAddUp(order: seq<BatchID>, statuses: map<BatchID, BatchStatus>, history: History)
    ensures |Collect(order, statuses, history, true)| + |Collect(order, statuses, history, false)|
         == TotalRecords(order, statuses, history)
  {
    if order != [] {
      var n := |order| - 1;
      CountsAddUp(order[..n], statuses, history);
      VerdictsPartition(RecordsOf(order[n], statuses, history));
    }
  }

  lemma {:induction false} SummariseAllExact(db: Tables, lists: seq<ListID>, valid: int, invalid: int)
    ensures var out := SummariseAll(db, lists, valid, invalid);
            && out.subscribers == db.subscribers
            && out.subscriptions == db.subscriptions
            && out.summaries.Keys == db.summaries.Keys
            && forall l :: l in db.summaries ==>
                 out.summaries[l] == if l in lists then Some(ListSummary(valid, invalid)) else db.summaries[l]
  {
    if lists != [] {
      var n := |lists| - 1;
      SummariseAllExact(db, lists[..n], valid, invalid);
      assert lists == lists[..n] + [lists[n]];
    }
  }

  lemma ApplyResultsExact(db: Tables, tenant: int, lists: seq<ListID>, good: seq<Email>, bad: seq<Email>)
    ensures var out := ApplyResults(db, tenant, lists, good, bad);
            && out.subscribers.Keys == db.subscribers.Keys
            && out.subscriptions.Keys == db.subscriptions.Keys
            && (forall i :: i in db.subscribers ==>
                  var s := db.subscribers[i];
                  out.subscribers[i] == s.(verdict :=
                    if s.tenant != tenant then s.verdict
                    else if s.email in bad then Undeliverable
                    else if s.email in good then Deliverable
                    else s.verdict))
            && (forall k :: k in db.subscriptions ==>
                  out.subscriptions[k] ==
                    if k.0 in db.subscribers && db.subscribers[k.0].tenant == tenant && k.1 in lists
                       && db.subscribers[k.0].email in bad
                    then Unsubscribed else db.subscriptions[k])
            && out.summaries == db.summaries
  {
  }

  /**
   Exactly what a reconcile changes: the verdict of a tenant's subscriber whose
   address is in the history of a completed chunk (undeliverable winning over
   deliverable), the subscriptions of undeliverable ones to the job's lists,
   and, when some chunk completed, the job's lists' summaries with counts that
   add up to the records read. Everything else stays as it was.
   */
  lemma ReconcileEffectsExact(db: Tables, tenant: int, lists: seq<ListID>, order: seq<BatchID>,
                              statuses: map<BatchID, BatchStatus>, history: History)
    ensures var out := Reconciled(db, tenant, lists, order, statuses, history);
            && out.subscribers.Keys == db.subscribers.Keys
            && out.subscriptions.Keys == db.subscriptions.Keys
            && (forall i :: i in db.subscribers ==>
                  var s := db.subscribers[i];
                  out.subscribers[i] == s.(verdict :=
                    if s.tenant != tenant then s.verdict
                    else if Reported(order, statuses, history, s.email, false) then Undeliverable
                    else if Reported(order, statuses, history, s.email, true) then Deliverable
                    else s.verdict))
            && (forall k :: k in db.subscriptions ==>
                  out.subscriptions[k] ==
                    if k.0 in db.subscribers && db.subscribers[k.0].tenant == tenant && k.1 in lists
                       && Reported(order, statuses, history, db.subscribers[k.0].email, false)
                    then Unsubscribed else db.subscriptions[k])
    ensures var out := Reconciled(db, tenant, lists, order, statuses, history);
            var valid, invalid := |Collect(order, statuses, history, true)|, |Collect(order, statuses, history, false)|;
            && valid + invalid == TotalRecords(order, statuses, history)
            && out.summaries.Keys == db.summaries.Keys
            && forall l :: l in db.summaries ==>
                 out.summaries[l] ==
                   if l in lists && AnyCompleted(order, statuses) then Some(ListSummary(valid, invalid))
                   else db.summaries[l]
  {
    var good, bad := Collect(order, statuses, history, true), Collect(order, statuses, history, false);
    var applied := ApplyResults(db, tenant, lists, good, bad);
    ApplyResultsExact(db, tenant, lists, good, bad);
    SummariseAllExact(applied, lists, |good|, |bad|);
    CountsAddUp(order, statuses, history);
    forall i | i in db.subscribers
      ensures db.subscribers[i].email in good <==> Reported(order, statuses, history, db.subscribers[i].email, true)
      ensures db.subscribers[i].email in bad <==> Reported(order, statuses, history, db.subscribers[i].email, false)
    {
      CollectMembers(order, statuses, history, true, db.subscribers[i].email);
      CollectMembers(order, statuses, history, false, db.subscribers[i].email);
    }
    hide ApplyResults, Collect, Reported, TotalRecords, AnyCompleted, SummariseAll;
  }

  lemma CollectSnoc(order: seq<BatchID>, id: BatchID, statuses: map<BatchID, BatchStatus>, history: History,
                    valid: bool)
    ensures Collect(order + [id], statuses, history, valid)
         == Collect(order, statuses, history, valid) + WithVerdict(RecordsOf(id, statuses, history), valid)
  {
  }

  lemma {:induction false} CollectConcat(a: seq<BatchID>, b: seq<BatchID>, statuses: map<BatchID, BatchStatus>,
                                         history: History, valid: bool)
    ensures Collect(a + b, statuses, history, valid)
         == Collect(a, statuses, history, valid) + Collect(b, statuses, history, valid)
    decreases |b|
  {
    if b == [] {
      assert a + b == a;
    } else {
      var front, last := b[..|b| - 1], b[|b| - 1];
      calc {
        Collect(a + b, statuses, history, valid);
        { assert a + b == (a + front) + [last]; CollectSnoc(a + front, last, statuses, history, valid); }
        Collect(a + front, statuses, history, valid) + WithVerdict(RecordsOf(last, statuses, history), valid);
        { CollectConcat(a, front, statuses, history, valid); }
        Collect(a, statuses, history, valid) + Collect(front, statuses, history, valid)
        + WithVerdict(RecordsOf(last, statuses, history), valid);
        { assert b == front + [last]; CollectSnoc(front, last, statuses, history, valid); }
        Collect(a, statuses, history, valid) + Collect(b, statuses, history, valid);
      }
    }
  }

  /** The order in which the database lists a job's rows is unspecified; it does not matter. */
  lemma {:induction false} CollectPermutation(a: seq<BatchID>, b: seq<BatchID>, statuses: map<BatchID, BatchStatus>,
                                              history: History, valid: bool)
    requires multiset(a) == multiset(b)
    ensures multiset(Collect(a, statuses, history, valid)) == multiset(Collect(b, statuses, history, valid))
    decreases |a|
  {
    hide WithVerdict, RecordsOf;
    if a == [] {
      assert |b| == |multiset(b)| == |multiset(a)| == 0;
    } else {
      var n := |a| - 1;
      assert a == a[..n] + [a[n]];
      var p, x, q := SplitAt(a[..n], a[n], b);
      CollectPermutation(a[..n], p + q, statuses, history, valid);
      CollectConcat(p, q, statuses, history, valid);
      CollectConcat(p, [x] + q, statuses, history, valid);
      CollectConcat([x], q, statuses, history, valid);
      assert [x][..0] == [];
    }
  }

  lemma SplitAt(a: seq<BatchID>, x: BatchID, b: seq<BatchID>) returns (p: seq<BatchID>, y: BatchID, q: seq<BatchID>)
    requires multiset(a + [x]) == multiset(b)
    ensures b == p + ([x] + q) && y == x
    ensures multiset(a) == multiset(p + q)
  {
    assert x in multiset(a + [x]);
    var k :| 0 <= k < |b| && b[k] == x;
    p, y, q := b[..k], x, b[k + 1..];
    assert b == p + ([x] + q);
    OneMore(p, x, q);
    assert multiset(a) == multiset(a + [x]) - multiset{x};
  }

  lemma OneMore(p: seq<BatchID>, x: BatchID, q: seq<BatchID>)
    ensures multiset(p + ([x] + q)) - multiset{x} == multiset(p + q)
  {
    assert multiset([x] + q) == multiset{x} + multiset(q);
  }
}
