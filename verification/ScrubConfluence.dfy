/**
 Duplicate terminal callbacks start several reconciles of one job. However their
 writes and the job's deletion interleave, the tables end as one uninterrupted
 reconcile leaves them.
 */
module ScrubConfluence {
  import opened Wrappers
  import opened ScrubModel
  import opened ScrubReconcile
  import opened ScrubStore
  import opened ScrubProtocol
  import opened ScrubRelease

  /** What the history of the completed chunks says, over the whole job. */
  datatype Findings = Findings(tenant: int, lists: seq<ListID>, good: seq<Email>, bad: seq<Email>, any: bool)

  function FindingsOf(c: Config, w: World): Findings {
    Findings(c.tenant, c.lists, Collect(w.issued, w.said, c.history, true), Collect(w.issued, w.said, c.history, false),
             AnyCompleted(w.issued, w.said))
  }

  ghost predicate SameBag(a: seq<Email>, b: seq<Email>) {
    |a| == |b| && forall e :: e in a <==> e in b
  }

  lemma SameBags(a: seq<Email>, b: seq<Email>)
    requires multiset(a) == multiset(b)
    ensures SameBag(a, b)
  {
    assert |a| == |multiset(a)| == |multiset(b)| == |b|;
    forall e ensures e in a <==> e in b {
      assert e in a <==> e in multiset(a);
      assert e in b <==> e in multiset(b);
    }
  }

  lemma TagSame(db: Tables, tenant: int, a: seq<Email>, b: seq<Email>, v: Verdict)
    requires SameBag(a, b)
    ensures Tag(db, tenant, a, v) == Tag(db, tenant, b, v)
    ensures SubscribersByEmail(db, tenant, a) == SubscribersByEmail(db, tenant, b)
  {
  }

  predicate Unlisted(at: RunPoint) {
    at.ToReadSettings? || at.ToListBatches?
  }

  /** A run that found the rows carries the job's findings; any other carries nothing. */
  ghost predicate Carries(f: Findings, r: Run) {
    if r.full
    then SameBag(r.good, f.good) && SameBag(r.bad, f.bad) && r.any == f.any && !Unlisted(r.at)
    else r.good == [] && r.bad == [] && !r.any && !r.at.ToTagBad? && !r.at.ToResolve? && !r.at.ToUnsubscribe?
  }

  predicate PastGood(r: Run) {
    r.full && !Unlisted(r.at) && !r.at.ToTagGood?
  }

  predicate PastUnsubscribe(r: Run) {
    r.full && (r.at.ToSummarise? || r.at.ToDeleteJob? || r.at.Finished?)
  }

  /** How many of the job's lists this run has summarised. */
  function SummarisedUpTo(f: Findings, r: Run): nat {
    if !r.full then 0
    else if r.at.ToSummarise? then (if r.at.k <= |f.lists| then r.at.k else |f.lists|)
    else if r.at.ToDeleteJob? || r.at.Finished? then |f.lists|
    else 0
  }

  predicate Tenants(f: Findings, o: Tables, i: SubID) {
    i in o.subscribers && o.subscribers[i].tenant == f.tenant
  }

  predicate Judged(f: Findings, o: Tables, i: SubID) {
    Tenants(f, o, i) && (o.subscribers[i].email in f.good || o.subscribers[i].email in f.bad)
  }

  predicate Target(f: Findings, o: Tables, k: (SubID, ListID)) {
    Tenants(f, o, k.0) && o.subscribers[k.0].email in f.bad && k.1 in f.lists
  }

  function Summary(f: Findings): Option<ListSummary> {
    Some(ListSummary(|f.good|, |f.bad|))
  }

  ghost predicate Shape(o: Tables, d: Tables) {
    && d.subscribers.Keys == o.subscribers.Keys
    && d.subscriptions.Keys == o.subscriptions.Keys
    && d.summaries.Keys == o.summaries.Keys
    && forall i :: i in o.subscribers ==>
      d.subscribers[i].(verdict := Unchecked) == o.subscribers[i].(verdict := Unchecked)
  }

  ghost predicate Untouched(f: Findings, o: Tables, d: Tables)
    requires Shape(o, d)
  {
    && (forall i :: i in o.subscribers && !Judged(f, o, i) ==> d.subscribers[i] == o.subscribers[i])
    && (forall k :: k in o.subscriptions && !Target(f, o, k) ==> d.subscriptions[k] == o.subscriptions[k])
    && (forall l :: l in o.summaries && !(f.any && l in f.lists) ==> d.summaries[l] == o.summaries[l])
  }

  ghost predicate GoodTagged(f: Findings, o: Tables, d: Tables)
    requires Shape(o, d)
  {
    forall i :: Tenants(f, o, i) && o.subscribers[i].email in f.good && o.subscribers[i].email !in f.bad ==>
      d.subscribers[i].verdict == Deliverable
  }

  ghost predicate BadTagged(f: Findings, o: Tables, d: Tables)
    requires Shape(o, d)
  {
    forall i :: Tenants(f, o, i) && o.subscribers[i].email in f.bad ==> d.subscribers[i].verdict == Undeliverable
  }

  ghost predicate AllUnsubscribed(f: Findings, o: Tables, d: Tables)
    requires Shape(o, d)
  {
    forall k :: k in o.subscriptions && Target(f, o, k) ==> d.subscriptions[k] == Unsubscribed
  }

  ghost predicate Summarised(f: Findings, d: Tables, n: nat) {
    f.any ==> forall j :: 0 <= j < n && j < |f.lists| && f.lists[j] in d.summaries ==>
      d.summaries[f.lists[j]] == Summary(f)
  }

  /** What one run guarantees of the tables by itself, whatever the others do. */
  ghost predicate RunInv(f: Findings, o: Tables, d: Tables, r: Run)
    requires Shape(o, d)
  {
    && Carries(f, r)
    && (PastGood(r) ==> GoodTagged(f, o, d))
    && (r.full && r.at.ToUnsubscribe? ==> r.at.ids == SubscribersByEmail(o, f.tenant, f.bad))
    && (PastUnsubscribe(r) ==> AllUnsubscribed(f, o, d))
    && Summarised(f, d, SummarisedUpTo(f, r))
  }

  /** Undeliverable tags stand, or some run is about to put them back. */
  ghost predicate BadInv(f: Findings, o: Tables, d: Tables, runs: seq<Run>)
    requires Shape(o, d)
  {
    (exists r :: 0 <= r < |runs| && PastGood(runs[r])) ==>
      BadTagged(f, o, d) || exists r :: 0 <= r < |runs| && runs[r].full && runs[r].at.ToTagBad?
  }

  ghost predicate DataInv(f: Findings, o: Tables, d: Tables, runs: seq<Run>) {
    && Shape(o, d)
    && Untouched(f, o, d)
    && (forall r :: 0 <= r < |runs| ==> RunInv(f, o, d, runs[r]))
    && BadInv(f, o, d, runs)
    && ((forall r :: 0 <= r < |runs| ==> !runs[r].full) ==> d == o)
  }

  lemma ByEmailSame(o: Tables, d: Tables, tenant: int, emails: seq<Email>)
    requires Shape(o, d)
    ensures SubscribersByEmail(d, tenant, emails) == SubscribersByEmail(o, tenant, emails)
  {
    forall i | i in o.subscribers
      ensures d.subscribers[i].tenant == o.subscribers[i].tenant && d.subscribers[i].email == o.subscribers[i].email
    {
      assert d.subscribers[i].(verdict := Unchecked) == o.subscribers[i].(verdict := Unchecked);
    }
  }

  /** Tables that keep everything other runs rely on, apart from the undeliverable tags. */
  ghost predicate Keeps(f: Findings, o: Tables, d: Tables, e: Tables) {
    && Shape(o, d) && Shape(o, e)
    && (GoodTagged(f, o, d) ==> GoodTagged(f, o, e))
    && (AllUnsubscribed(f, o, d) ==> AllUnsubscribed(f, o, e))
    && (forall l :: l in d.summaries && d.summaries[l] == Summary(f) ==> e.summaries[l] == Summary(f))
    && (Untouched(f, o, d) ==> Untouched(f, o, e))
  }

  lemma KeepsRun(f: Findings, o: Tables, d: Tables, e: Tables, r: Run)
    requires Keeps(f, o, d, e) && RunInv(f, o, d, r)
    ensures RunInv(f, o, e, r)
  {
    if f.any {
      forall j | 0 <= j < SummarisedUpTo(f, r) && j < |f.lists| && f.lists[j] in e.summaries
        ensures e.summaries[f.lists[j]] == Summary(f)
      {
        var l := f.lists[j];
        assert l in d.summaries && d.summaries[l] == Summary(f);
      }
    }
  }

  /** One run moves, leaving tables that keep what the others rely on. */
  lemma Moves(f: Findings, o: Tables, d: Tables, e: Tables, runs: seq<Run>, r: nat, to: Run)
    requires DataInv(f, o, d, runs) && r < |runs| && Keeps(f, o, d, e) && RunInv(f, o, e, to)
    requires to.full == runs[r].full && (!to.full ==> e == d)
    requires BadInv(f, o, e, runs[r := to])
    ensures DataInv(f, o, e, runs[r := to])
  {
    hide GoodTagged, BadTagged, AllUnsubscribed, Summarised, Untouched, Target, Judged;
    var moved := runs[r := to];
    forall k | 0 <= k < |moved| ensures RunInv(f, o, e, moved[k]) {
      if k != r {
        KeepsRun(f, o, d, e, runs[k]);
      }
    }
    if forall k :: 0 <= k < |moved| ==> !moved[k].full {
      forall k | 0 <= k < |runs| ensures !runs[k].full {
        assert !moved[k].full;
      }
    }
  }

  lemma TagGoodStep(f: Findings, o: Tables, d: Tables, runs: seq<Run>, r: nat)
    requires DataInv(f, o, d, runs) && r < |runs| && runs[r].at.ToTagGood?
    ensures var to := runs[r].(at := if runs[r].bad == [] then ToSummarise(0) else ToTagBad);
            DataInv(f, o, Tag(d, f.tenant, runs[r].good, Deliverable), runs[r := to])
  {
    hide GoodTagged, Untouched;
    var to := runs[r].(at := if runs[r].bad == [] then ToSummarise(0) else ToTagBad);
    var e := Tag(d, f.tenant, runs[r].good, Deliverable);
    assert RunInv(f, o, d, runs[r]);
    if to.full {
      TagSame(d, f.tenant, runs[r].good, f.good, Deliverable);
      GoodTagKeeps(f, o, d);
      assert to.at.ToTagBad? ==> runs[r := to][r].at.ToTagBad?;
      Moves(f, o, d, e, runs, r, to);
    } else {
      assert e.subscribers == d.subscribers;
      SamePhase(f, o, d, runs, r, to);
      Moves(f, o, d, d, runs, r, to);
    }
  }

  lemma GoodTagKeeps(f: Findings, o: Tables, d: Tables)
    requires Shape(o, d)
    ensures var e := Tag(d, f.tenant, f.good, Deliverable);
            Keeps(f, o, d, e) && GoodTagged(f, o, e) && (f.bad == [] ==> BadTagged(f, o, e))
  {
  }

  /** A move that changes no table and neither starts nor ends the undeliverable phase. */
  lemma SamePhase(f: Findings, o: Tables, d: Tables, runs: seq<Run>, r: nat, to: Run)
    requires DataInv(f, o, d, runs) && r < |runs|
    requires PastGood(to) ==> PastGood(runs[r])
    requires runs[r].full && runs[r].at.ToTagBad? ==> to.full && to.at.ToTagBad?
    ensures BadInv(f, o, d, runs[r := to])
  {
    var moved := runs[r := to];
    if k :| 0 <= k < |moved| && PastGood(moved[k]) {
      assert PastGood(runs[k]);
      if !BadTagged(f, o, d) {
        var j :| 0 <= j < |runs| && runs[j].full && runs[j].at.ToTagBad?;
        assert moved[j].full && moved[j].at.ToTagBad?;
      }
    }
  }

  lemma TagBadStep(f: Findings, o: Tables, d: Tables, runs: seq<Run>, r: nat)
    requires DataInv(f, o, d, runs) && r < |runs| && runs[r].at.ToTagBad?
    ensures var to := runs[r].(at := if f.lists == [] then ToSummarise(0) else ToResolve);
            DataInv(f, o, Tag(d, f.tenant, runs[r].bad, Undeliverable), runs[r := to])
  {
    hide GoodTagged, Untouched, BadTagged;
    var to := runs[r].(at := if f.lists == [] then ToSummarise(0) else ToResolve);
    var e := Tag(d, f.tenant, runs[r].bad, Undeliverable);
    assert RunInv(f, o, d, runs[r]);
    TagSame(d, f.tenant, runs[r].bad, f.bad, Undeliverable);
    BadTagKeeps(f, o, d);
    Moves(f, o, d, e, runs, r, to);
  }

  lemma BadTagKeeps(f: Findings, o: Tables, d: Tables)
    requires Shape(o, d)
    ensures var e := Tag(d, f.tenant, f.bad, Undeliverable); Keeps(f, o, d, e) && BadTagged(f, o, e)
  {
  }

  lemma ResolveStep(f: Findings, o: Tables, d: Tables, runs: seq<Run>, r: nat)
    requires DataInv(f, o, d, runs) && r < |runs| && runs[r].at.ToResolve?
    ensures var ids := SubscribersByEmail(d, f.tenant, runs[r].bad);
            DataInv(f, o, d, runs[r := runs[r].(at := if ids == {} then ToSummarise(0) else ToUnsubscribe(ids))])
  {
    var ids := SubscribersByEmail(d, f.tenant, runs[r].bad);
    var to := runs[r].(at := if ids == {} then ToSummarise(0) else ToUnsubscribe(ids));
    assert RunInv(f, o, d, runs[r]);
    TagSame(d, f.tenant, runs[r].bad, f.bad, Undeliverable);
    ByEmailSame(o, d, f.tenant, f.bad);
    assert forall k :: Target(f, o, k) ==> k.0 in ids;
    SamePhase(f, o, d, runs, r, to);
    hide DataInv, Untouched, GoodTagged, BadTagged, SubscribersByEmail;
    Moves(f, o, d, d, runs, r, to);
  }

  lemma UnsubscribeStep(f: Findings, o: Tables, d: Tables, runs: seq<Run>, r: nat)
    requires DataInv(f, o, d, runs) && r < |runs| && runs[r].at.ToUnsubscribe?
    ensures DataInv(f, o, Unsubscribe(d, runs[r].at.ids, f.lists), runs[r := runs[r].(at := ToSummarise(0))])
  {
    var to := runs[r].(at := ToSummarise(0));
    var e := Unsubscribe(d, runs[r].at.ids, f.lists);
    assert RunInv(f, o, d, runs[r]);
    SamePhase(f, o, d, runs, r, to);
    UnsubscribeKeeps(f, o, d, runs[r].at.ids);
    hide DataInv, Untouched, GoodTagged, BadTagged, AllUnsubscribed, Summarised, Unsubscribe;
    hide Keeps;
    Moves(f, o, d, e, runs, r, to);
  }

  lemma UnsubscribeKeeps(f: Findings, o: Tables, d: Tables, ids: set<SubID>)
    requires Shape(o, d) && ids == SubscribersByEmail(o, f.tenant, f.bad)
    ensures var e := Unsubscribe(d, ids, f.lists);
            && Keeps(f, o, d, e) && AllUnsubscribed(f, o, e)
            && e.subscribers == d.subscribers && e.summaries == d.summaries
  {
    forall k | k in o.subscriptions ensures k.0 in ids && k.1 in f.lists <==> Target(f, o, k) {}
  }

  lemma SummariseStep(f: Findings, o: Tables, d: Tables, runs: seq<Run>, r: nat)
    requires DataInv(f, o, d, runs) && r < |runs| && runs[r].at.ToSummarise?
    ensures var k := runs[r].at.k;
            if !runs[r].any || k >= |f.lists|
            then DataInv(f, o, d, runs[r := runs[r].(at := ToDeleteJob)])
            else DataInv(f, o, Summarise(d, f.lists[k], |runs[r].good|, |runs[r].bad|),
                         runs[r := runs[r].(at := ToSummarise(k + 1))])
  {
    var k := runs[r].at.k;
    assert RunInv(f, o, d, runs[r]);
    if !runs[r].any || k >= |f.lists| {
      SamePhase(f, o, d, runs, r, runs[r].(at := ToDeleteJob));
      Moves(f, o, d, d, runs, r, runs[r].(at := ToDeleteJob));
    } else {
      var to := runs[r].(at := ToSummarise(k + 1));
      var e := Summarise(d, f.lists[k], |runs[r].good|, |runs[r].bad|);
      SamePhase(f, o, d, runs, r, to);
      SummariseKeeps(f, o, d, k);
      hide DataInv, Keeps, Untouched, GoodTagged, BadTagged, AllUnsubscribed, Summarise;
      Moves(f, o, d, e, runs, r, to);
    }
  }

  lemma SummariseKeeps(f: Findings, o: Tables, d: Tables, k: nat)
    requires Shape(o, d) && f.any && k < |f.lists|
    ensures var e := Summarise(d, f.lists[k], |f.good|, |f.bad|);
            && Keeps(f, o, d, e) && e.subscribers == d.subscribers && e.subscriptions == d.subscriptions
            && (Summarised(f, d, k) ==> Summarised(f, e, k + 1))
  {
  }

  lemma ListStep(f: Findings, o: Tables, d: Tables, runs: seq<Run>, r: nat, to: Run)
    requires DataInv(f, o, d, runs) && r < |runs| && runs[r].at.ToListBatches?
    requires to.at.ToTagGood? && Carries(f, to)
    ensures DataInv(f, o, d, runs[r := to])
  {
    assert RunInv(f, o, d, runs[r]);
    SamePhase(f, o, d, runs, r, to);
    var moved := runs[r := to];
    if forall k :: 0 <= k < |moved| ==> !moved[k].full {
      assert !moved[r].full;
      forall k | 0 <= k < |runs| ensures !runs[k].full {
        assert !moved[k].full;
      }
    }
  }

  /** A run leaving without looking at the rows, or before it does. */
  lemma PassStep(f: Findings, o: Tables, d: Tables, runs: seq<Run>, r: nat, at: RunPoint)
    requires DataInv(f, o, d, runs) && r < |runs|
    requires (runs[r].at.ToReadSettings? && (at.ToListBatches? || at.ToDeleteJob?))
          || (runs[r].at.ToDeleteJob? && at.Finished?)
    ensures DataInv(f, o, d, runs[r := runs[r].(at := at)])
  {
    assert RunInv(f, o, d, runs[r]);
    SamePhase(f, o, d, runs, r, runs[r].(at := at));
    Moves(f, o, d, d, runs, r, runs[r].(at := at));
  }

  lemma StartStep(f: Findings, o: Tables, d: Tables, runs: seq<Run>, seen: seq<BatchRow>)
    requires DataInv(f, o, d, runs)
    ensures DataInv(f, o, d, runs + [Run(seen, ToReadSettings, [], [], false, false)])
  {
    var more := runs + [Run(seen, ToReadSettings, [], [], false, false)];
    if k :| 0 <= k < |more| && PastGood(more[k]) {
      assert PastGood(runs[k]);
      if !BadTagged(f, o, d) {
        var j :| 0 <= j < |runs| && runs[j].full && runs[j].at.ToTagBad?;
        assert more[j].full && more[j].at.ToTagBad?;
      }
    }
    if forall k :: 0 <= k < |more| ==> !more[k].full {
      forall k | 0 <= k < |runs| ensures !runs[k].full {
        assert !more[k].full;
      }
    }
  }

  /** A refused chunk was never recorded as accepted, so no callback counted for it. */
  ghost predicate Doomed(w: World) {
    w.submitter.ToDropBatch? || w.submitter.ToDropJob? || w.submitter.SubmissionFailed? ==>
      w.issued != [] && w.issued[|w.issued| - 1] !in w.armed
  }

  ghost predicate RowsSaid(w: World) {
    forall id :: id in w.rows && id in w.said ==> w.rows[id].status == w.said[id]
  }

  ghost predicate OrderedInv(c: Config, w: World) {
    Safe(c, w) && NothingLost(w) && Doomed(w) && RowsSaid(w)
  }

  lemma NotDoomed(c: Config, w: World)
    requires OrderedInv(c, w) && w.runs != []
    ensures !w.submitter.ToDropBatch? && !w.submitter.ToDropJob? && !w.submitter.SubmissionFailed?
    ensures forall id :: id in w.issued <==> id in w.said
  {
  }

  lemma SubmitKeepsDoomed(c: Config, w: World, a: Action)
    requires c.total > 0 && c.rules.Ordered? && OrderedInv(c, w) && Enabled(c, w, a) && IsSubmit(a)
    ensures Doomed(Next(c, w, a)) && RowsSaid(Next(c, w, a))
  {
  }

  lemma HandleKeepsDoomed(c: Config, w: World, a: Action)
    requires c.total > 0 && c.rules.Ordered? && OrderedInv(c, w) && Enabled(c, w, a) && IsHandle(a)
    ensures Doomed(Next(c, w, a)) && RowsSaid(Next(c, w, a))
  {
    hide Safe, NothingLost;
    if a.ApplyProgress? {
      RowKeepsSaid(w, w.handlers[a.h].id, w.handlers[a.h].row);
    }
  }

  lemma RowKeepsSaid(w: World, id: BatchID, row: BatchRow)
    requires RowsSaid(w) && (id in w.said ==> row.status == w.said[id])
    ensures RowsSaid(WithRow(w, id, row))
  {
  }

  lemma {:induction false} AlwaysOrdered(c: Config, db: Tables, trace: seq<Action>)
    requires c.total > 0 && c.rules.Ordered? && After(c, Init(db), trace).Some?
    ensures OrderedInv(c, After(c, Init(db), trace).value)
  {
    AlwaysSafe(c, db, trace);
    OrderedLosesNothing(c, db, trace);
    if trace != [] {
      var n := |trace| - 1;
      AlwaysOrdered(c, db, trace[..n]);
      var w, a := After(c, Init(db), trace[..n]).value, trace[n];
      if IsSubmit(a) { SubmitKeepsDoomed(c, w, a); }
      else if IsHandle(a) { HandleKeepsDoomed(c, w, a); }
      else { RunKeepsDoomed(c, w, a); }
    }
  }

  lemma RunKeepsDoomed(c: Config, w: World, a: Action)
    requires OrderedInv(c, w) && Enabled(c, w, a) && !IsSubmit(a) && !IsHandle(a)
    ensures Doomed(Next(c, w, a)) && RowsSaid(Next(c, w, a))
  {
  }

  /** Once a reconcile has been started, what the chunks said no longer changes. */
  lemma FindingsFrozen(c: Config, w: World, a: Action)
    requires c.total > 0 && c.rules.Ordered? && OrderedInv(c, w) && Enabled(c, w, a) && w.runs != []
    ensures Next(c, w, a).issued == w.issued && Next(c, w, a).said == w.said
  {
    NotDoomed(c, w);
    if IsSubmit(a) {
      assert !a.InsertBatch?;
    } else if a.ApplyProgress? {
      var id, status := w.handlers[a.h].id, w.handlers[a.h].row.status;
      if id in w.rows {
        assert id in IDs(w.issued);
        assert w.said[id := status] == w.said;
      }
    }
  }

  /** A listing of the rows carries the job's findings; one after the deletion carries nothing. */
  lemma ListingCarries(c: Config, w: World, r: nat, order: seq<BatchID>)
    requires c.total > 0 && c.rules.Ordered? && OrderedInv(c, w) && Enabled(c, w, ListBatches(r, order))
    ensures Carries(FindingsOf(c, w), NextRun(c, w, ListBatches(r, order)).runs[r])
  {
    StatusesSaid(c, w);
    hide OrderedInv, SameBag;
    if w.job.Some? {
      hide Collect, AnyCompleted;
      SameListing(order, w.rows.Keys, w.issued);
      ListingAgrees(c, w, order);
    } else {
      ListingSize(order, {});
      assert order == [];
    }
  }

  lemma SameListing(order: seq<BatchID>, keys: set<BatchID>, issued: seq<BatchID>)
    requires IsListing(order, keys) && keys == IDs(issued)
    requires forall j, k :: 0 <= j < k < |issued| ==> issued[j] != issued[k]
    ensures multiset(order) == multiset(issued)
  {
    ListingSize(order, keys);
    DistinctMultiset(issued);
  }

  lemma StatusesSaid(c: Config, w: World)
    requires OrderedInv(c, w) && w.runs != []
    ensures w.job.Some? ==> w.rows.Keys == IDs(w.issued) && StatusMap(w.rows) == w.said
    ensures w.job.None? ==> w.rows == map[]
    ensures forall j, k :: 0 <= j < k < |w.issued| ==> w.issued[j] != w.issued[k]
  {
    NotDoomed(c, w);
  }

  lemma ListingAgrees(c: Config, w: World, order: seq<BatchID>)
    requires multiset(order) == multiset(w.issued)
    ensures SameBag(Collect(order, w.said, c.history, true), Collect(w.issued, w.said, c.history, true))
    ensures SameBag(Collect(order, w.said, c.history, false), Collect(w.issued, w.said, c.history, false))
    ensures AnyCompleted(order, w.said) == AnyCompleted(w.issued, w.said)
  {
    CollectPermutation(order, w.issued, w.said, c.history, true);
    CollectPermutation(order, w.issued, w.said, c.history, false);
    SameBags(Collect(order, w.said, c.history, true), Collect(w.issued, w.said, c.history, true));
    SameBags(Collect(order, w.said, c.history, false), Collect(w.issued, w.said, c.history, false));
    AnyCompletedSame(order, w.issued, w.said);
  }

  lemma {:induction false} DistinctMultiset(issued: seq<BatchID>)
    requires forall j, k :: 0 <= j < k < |issued| ==> issued[j] != issued[k]
    ensures multiset(issued) == multiset(IDs(issued))
  {
    if issued != [] {
      var n := |issued| - 1;
      DistinctMultiset(issued[..n]);
      LastID(issued);
      assert issued == issued[..n] + [issued[n]];
      assert issued[n] !in IDs(issued[..n]);
    }
  }

  lemma AnyCompletedSame(a: seq<BatchID>, b: seq<BatchID>, statuses: map<BatchID, BatchStatus>)
    requires multiset(a) == multiset(b)
    ensures AnyCompleted(a, statuses) == AnyCompleted(b, statuses)
  {
    if k :| 0 <= k < |a| && CompletedIn(a[k], statuses) {
      assert a[k] in multiset(b);
    }
    if k :| 0 <= k < |b| && CompletedIn(b[k], statuses) {
      assert b[k] in multiset(a);
    }
  }

  lemma RunStepKeepsData(c: Config, o: Tables, w: World, a: Action)
    requires c.total > 0 && c.rules.Ordered? && OrderedInv(c, w)
    requires DataInv(FindingsOf(c, w), o, w.db, w.runs) && Enabled(c, w, a) && !IsSubmit(a) && !IsHandle(a)
    ensures DataInv(FindingsOf(c, w), o, NextRun(c, w, a).db, NextRun(c, w, a).runs)
  {
    hide DataInv, OrderedInv, Carries, Collect, AnyCompleted, Tag, Unsubscribe, Summarise;
    var f := FindingsOf(c, w);
    match a
    case ReadSettings(r, usable) => PassStep(f, o, w.db, w.runs, r, if usable then ToListBatches else ToDeleteJob);
    case ListBatches(r, order) =>
      ListingCarries(c, w, r, order);
      ListStep(f, o, w.db, w.runs, r, NextRun(c, w, a).runs[r]);
    case TagGood(r) => TagGoodStep(f, o, w.db, w.runs, r);
    case TagBad(r) => TagBadStep(f, o, w.db, w.runs, r);
    case Resolve(r) => ResolveStep(f, o, w.db, w.runs, r);
    case UnsubscribeBad(r) => UnsubscribeStep(f, o, w.db, w.runs, r);
    case SummariseList(r) => SummariseStep(f, o, w.db, w.runs, r);
    case DeleteJob(r) => PassStep(f, o, w.db, w.runs, r, Finished);
  }

  lemma NothingYet(f: Findings, o: Tables)
    ensures DataInv(f, o, o, [])
  {
  }

  lemma FirstRun(c: Config, o: Tables, w: World, a: Action)
    requires w.runs == [] && w.db == o && Enabled(c, w, a)
    ensures var v := Next(c, w, a); DataInv(FindingsOf(c, v), o, v.db, v.runs)
  {
    var v := Next(c, w, a);
    NothingYet(FindingsOf(c, v), o);
    if a.WriteJob? && v.runs != [] {
      StartStep(FindingsOf(c, v), o, o, [], w.handlers[a.h].seen);
      assert v.runs == [] + [Run(w.handlers[a.h].seen, ToReadSettings, [], [], false, false)];
    }
  }

  lemma LaterStep(c: Config, o: Tables, w: World, a: Action)
    requires c.total > 0 && c.rules.Ordered? && OrderedInv(c, w) && w.runs != []
    requires DataInv(FindingsOf(c, w), o, w.db, w.runs) && Enabled(c, w, a)
    ensures var v := Next(c, w, a); DataInv(FindingsOf(c, w), o, v.db, v.runs)
  {
    hide DataInv, OrderedInv, FindingsOf;
    if a.WriteJob? {
      StartStep(FindingsOf(c, w), o, w.db, w.runs, w.handlers[a.h].seen);
    } else if !IsSubmit(a) && !IsHandle(a) {
      RunStepKeepsData(c, o, w, a);
    } else {
      assert Next(c, w, a).db == w.db && Next(c, w, a).runs == w.runs;
    }
  }

  lemma {:induction false} AlwaysData(c: Config, db: Tables, trace: seq<Action>)
    requires c.total > 0 && c.rules.Ordered? && After(c, Init(db), trace).Some?
    ensures var w := After(c, Init(db), trace).value; DataInv(FindingsOf(c, w), db, w.db, w.runs)
  {
    if trace == [] {
      NothingYet(FindingsOf(c, Init(db)), db);
    } else {
      var n := |trace| - 1;
      AlwaysData(c, db, trace[..n]);
      AlwaysOrdered(c, db, trace[..n]);
      var w, a := After(c, Init(db), trace[..n]).value, trace[n];
      if w.runs == [] {
        FirstRun(c, db, w, a);
      } else {
        FindingsFrozen(c, w, a);
        LaterStep(c, db, w, a);
      }
    }
  }

  lemma AppliedExact(o: Tables, f: Findings)
    ensures var out := ApplyResults(o, f.tenant, f.lists, f.good, f.bad);
            && Shape(o, out)
            && (forall i :: i in o.subscribers ==>
                  out.subscribers[i].verdict ==
                    if !Tenants(f, o, i) then o.subscribers[i].verdict
                    else if o.subscribers[i].email in f.bad then Undeliverable
                    else if o.subscribers[i].email in f.good then Deliverable
                    else o.subscribers[i].verdict)
            && (forall k :: k in o.subscriptions ==>
                  out.subscriptions[k] == if Target(f, o, k) then Unsubscribed else o.subscriptions[k])
            && out.summaries == o.summaries
  {
    ApplyResultsExact(o, f.tenant, f.lists, f.good, f.bad);
    hide ApplyResults;
  }

  /** With every run over and one of them full, the tables are pinned down. */
  lemma Pinned(f: Findings, o: Tables, d: Tables, runs: seq<Run>, r: nat)
    requires DataInv(f, o, d, runs) && r < |runs| && runs[r].full
    requires forall k :: 0 <= k < |runs| ==> runs[k].at.Finished?
    ensures var applied := ApplyResults(o, f.tenant, f.lists, f.good, f.bad);
            d == if f.any then SummariseAll(applied, f.lists, |f.good|, |f.bad|) else applied
  {
    var applied := ApplyResults(o, f.tenant, f.lists, f.good, f.bad);
    assert RunInv(f, o, d, runs[r]) && PastGood(runs[r]);
    assert BadTagged(f, o, d);
    AppliedExact(o, f);
    SummariseAllExact(applied, f.lists, |f.good|, |f.bad|);
    PinnedRows(f, o, d, applied);
    PinnedSummaries(f, o, d, if f.any then SummariseAll(applied, f.lists, |f.good|, |f.bad|) else applied);
  }

  lemma PinnedRows(f: Findings, o: Tables, d: Tables, applied: Tables)
    requires applied == ApplyResults(o, f.tenant, f.lists, f.good, f.bad)
    requires Shape(o, d) && Untouched(f, o, d) && GoodTagged(f, o, d) && BadTagged(f, o, d) && AllUnsubscribed(f, o, d)
    ensures d.subscribers == applied.subscribers && d.subscriptions == applied.subscriptions
  {
    AppliedExact(o, f);
    forall i | i in o.subscribers ensures d.subscribers[i] == applied.subscribers[i] {
      assert d.subscribers[i].(verdict := Unchecked) == o.subscribers[i].(verdict := Unchecked)
          == applied.subscribers[i].(verdict := Unchecked);
    }
  }

  lemma PinnedSummaries(f: Findings, o: Tables, d: Tables, out: Tables)
    requires Shape(o, d) && Untouched(f, o, d) && Summarised(f, d, |f.lists|)
    requires out.summaries.Keys == o.summaries.Keys
    requires forall l :: l in o.summaries ==>
      out.summaries[l] == if f.any && l in f.lists then Summary(f) else o.summaries[l]
    ensures d.summaries == out.summaries
  {
    forall l | l in o.summaries ensures d.summaries[l] == out.summaries[l] {
      if f.any && l in f.lists {
        var j :| 0 <= j < |f.lists| && f.lists[j] == l;
        assert d.summaries[f.lists[j]] == Summary(f);
      }
    }
  }

  /**
   For any number of reconciles started by duplicate callbacks, under every
   interleaving of their writes and the job's deletion: with none in flight, the
   tables are as one uninterrupted reconcile leaves them if any run read the
   rows before they were deleted, and untouched otherwise.
   */
  lemma ReconcilesConverge(c: Config, db: Tables, trace: seq<Action>, w: World)
    requires c.total > 0 && c.rules.Ordered? && After(c, Init(db), trace) == Some(w)
    requires forall r :: 0 <= r < |w.runs| ==> w.runs[r].at.Finished?
    ensures w.db == if exists r :: 0 <= r < |w.runs| && w.runs[r].full
                    then Reconciled(db, c.tenant, c.lists, w.issued, w.said, c.history) else db
  {
    AlwaysData(c, db, trace);
    if r :| 0 <= r < |w.runs| && w.runs[r].full {
      Pinned(FindingsOf(c, w), db, w.db, w.runs, r);
    }
  }

  /** A run that lists the rows after the deletion changes nothing, whatever it does next. */
  lemma LateRunChangesNothing(c: Config, db: Tables, trace: seq<Action>, w: World, a: Action)
    requires c.total > 0 && c.rules.Ordered? && After(c, Init(db), trace) == Some(w) && Enabled(c, w, a)
    requires !IsSubmit(a) && !IsHandle(a) && !w.runs[a.r].full
    ensures NextRun(c, w, a).db == w.db
  {
    AlwaysData(c, db, trace);
    assert RunInv(FindingsOf(c, w), db, w.db, w.runs[a.r]);
    if a.TagGood? {
      assert Tag(w.db, c.tenant, [], Deliverable).subscribers == w.db.subscribers;
    }
  }

  ghost predicate SettingsUsable(trace: seq<Action>) {
    forall i :: 0 <= i < |trace| && trace[i].ReadSettings? ==> trace[i].usable
  }

  ghost predicate SomeFull(w: World) {
    exists r :: 0 <= r < |w.runs| && w.runs[r].full
  }

  /** Nothing is past its listing, and the job not deleted by a run, before some run found the rows. */
  ghost predicate FullFirst(w: World) {
    && (w.job.None? && w.runs != [] ==> SomeFull(w))
    && ((exists r :: 0 <= r < |w.runs| && !Unlisted(w.runs[r].at)) ==> SomeFull(w))
  }

  lemma SomeFullStays(c: Config, w: World, a: Action)
    requires Enabled(c, w, a) && SomeFull(w)
    requires forall r :: 0 <= r < |w.runs| && w.runs[r].full ==> !Unlisted(w.runs[r].at)
    ensures SomeFull(Next(c, w, a))
  {
    var r :| 0 <= r < |w.runs| && w.runs[r].full;
    assert Next(c, w, a).runs[r].full;
  }

  lemma RunKeepsFullFirst(c: Config, w: World, a: Action)
    requires c.total > 0 && c.rules.Ordered? && OrderedInv(c, w) && FullFirst(w) && Enabled(c, w, a) && !SomeFull(w)
    requires !IsSubmit(a) && !IsHandle(a) && (a.ReadSettings? ==> a.usable)
    ensures FullFirst(Next(c, w, a))
  {
  }

  lemma OtherKeepsFullFirst(c: Config, w: World, a: Action)
    requires c.total > 0 && c.rules.Ordered? && OrderedInv(c, w) && FullFirst(w) && Enabled(c, w, a) && !SomeFull(w)
    requires IsSubmit(a) || IsHandle(a)
    ensures FullFirst(Next(c, w, a))
  {
  }

  lemma {:induction false} FirstRunIsFull(c: Config, db: Tables, trace: seq<Action>)
    requires c.total > 0 && c.rules.Ordered? && SettingsUsable(trace) && After(c, Init(db), trace).Some?
    ensures FullFirst(After(c, Init(db), trace).value)
  {
    if trace != [] {
      var n := |trace| - 1;
      FirstRunIsFull(c, db, trace[..n]);
      AlwaysOrdered(c, db, trace[..n]);
      AlwaysData(c, db, trace[..n]);
      var w, a := After(c, Init(db), trace[..n]).value, trace[n];
      if SomeFull(w) {
        assert forall r :: 0 <= r < |w.runs| ==> RunInv(FindingsOf(c, w), db, w.db, w.runs[r]);
        SomeFullStays(c, w, a);
      } else if IsSubmit(a) || IsHandle(a) {
        OtherKeepsFullFirst(c, w, a);
      } else {
        RunKeepsFullFirst(c, w, a);
      }
    }
  }

  /**
   So, as long as the settings can be read and Scrub stays configured, any k >= 1
   reconciles leave exactly what one does.
   */
  lemma AnyNumberOfReconcilesIsOne(c: Config, db: Tables, trace: seq<Action>, w: World)
    requires c.total > 0 && c.rules.Ordered? && After(c, Init(db), trace) == Some(w) && SettingsUsable(trace)
    requires w.runs != [] && forall r :: 0 <= r < |w.runs| ==> w.runs[r].at.Finished?
    ensures w.db == Reconciled(db, c.tenant, c.lists, w.issued, w.said, c.history)
  {
    FirstRunIsFull(c, db, trace);
    assert !Unlisted(w.runs[0].at);
    ReconcilesConverge(c, db, trace, w);
  }
}
