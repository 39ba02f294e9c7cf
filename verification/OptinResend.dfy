/**
 The bulk resend of opt-in confirmations: the batch loop of one resend, and the
 exclusion that keeps a tenant's resends apart. Times are seconds of one clock.
 */
module OptinResend {
  import opened Wrappers
  import opened Picking

  const RESEND_BATCH: nat := 500

  type PersonID = int

  /**
   pending: waits to confirm a double opt-in subscription on one of the lists,
   the last of them added at lastAdded.
   */
  datatype Person = Person(enabled: bool, pending: bool, lastAdded: int, sentAt: Option<int>)

  predicate Due(p: Person, before: int) {
    p.enabled && p.pending && p.lastAdded < before && (p.sentAt.None? || p.sentAt.value < before)
  }

  function DueSet(people: map<PersonID, Person>, before: int): set<PersonID> {
    set i | i in people && Due(people[i], before)
  }

  /** What the query for due people may return: the first ones by identifier, no more than the limit. */
  ghost predicate IsBatch(people: map<PersonID, Person>, before: int, batch: seq<PersonID>) {
    && |batch| <= RESEND_BATCH
    && (forall k :: 0 <= k < |batch| ==> batch[k] in DueSet(people, before))
    && (forall j, k :: 0 <= j < k < |batch| ==> batch[j] < batch[k])
    && (forall i :: i in DueSet(people, before) && i !in batch ==>
          |batch| == RESEND_BATCH && forall k :: 0 <= k < |batch| ==> batch[k] < i)
  }

  /** The world outside: the query (None when it fails), which marks and sends succeed, and when marks are made. */
  datatype Outside = Outside(
    query: map<PersonID, Person> -> Option<seq<PersonID>>, marks: PersonID -> bool, sends: PersonID -> bool,
    now: PersonID -> int)

  /** Marks are made after the request, so not before the time it takes as its limit. */
  ghost predicate Behaves(o: Outside, before: int) {
    && (forall people :: o.query(people).Some? ==> IsBatch(people, before, o.query(people).value))
    && (forall i :: o.now(i) >= before)
  }

  function Marked(p: Person, now: int): Person {
    p.(sentAt := Some(now))
  }

  function AllMarked(people: map<PersonID, Person>, ids: seq<PersonID>, o: Outside): map<PersonID, Person> {
    map i | i in people :: if i in ids then Marked(people[i], o.now(i)) else people[i]
  }

  function Successes(ids: seq<PersonID>, o: Outside): nat {
    if ids == [] then 0 else Successes(ids[..|ids| - 1], o) + if o.sends(ids[|ids| - 1]) then 1 else 0
  }

  ghost predicate Distinct(ids: seq<PersonID>) {
    forall j, k :: 0 <= j < k < |ids| ==> ids[j] != ids[k]
  }

  lemma NothingMarked(people: map<PersonID, Person>, o: Outside)
    ensures AllMarked(people, [], o) == people && Successes([], o) == 0
  {
  }

  /** Marking takes exactly the marked out of the due. */
  lemma MarkedAreNotDue(people: map<PersonID, Person>, ids: seq<PersonID>, o: Outside, before: int)
    requires forall i :: o.now(i) >= before
    ensures DueSet(AllMarked(people, ids, o), before) == set i | i in DueSet(people, before) && i !in ids
  {
    forall i | i in people
      ensures i in DueSet(AllMarked(people, ids, o), before) <==> i in DueSet(people, before) && i !in ids
    {
      assert AllMarked(people, ids, o)[i] == if i in ids then Marked(people[i], o.now(i)) else people[i];
    }
  }

  lemma MarkOneMore(people: map<PersonID, Person>, ids: seq<PersonID>, id: PersonID, o: Outside)
    requires id in AllMarked(people, ids, o)
    ensures var now := AllMarked(people, ids, o);
      now[id := Marked(now[id], o.now(id))] == AllMarked(people, ids + [id], o)
  {
  }

  /** ids are some of the due, once each, whose marks succeed. */
  ghost predicate Tried(ids: seq<PersonID>, due: set<PersonID>, o: Outside) {
    Distinct(ids) && forall i :: i in ids ==> i in due && o.marks(i)
  }

  lemma TriedMore(earlier: seq<PersonID>, batch: seq<PersonID>, n: nat, due: set<PersonID>, left: set<PersonID>,
                  o: Outside)
    requires n <= |batch| && Tried(earlier, due, o) && left == set i | i in due && i !in earlier
    requires forall k :: 0 <= k < |batch| ==> batch[k] in left
    requires forall i, j :: 0 <= i < j < |batch| ==> batch[i] < batch[j]
    requires forall i :: i in batch[..n] ==> o.marks(i)
    ensures Tried(earlier + batch[..n], due, o)
  {
  }

  lemma SuccessesNext(ids: seq<PersonID>, id: PersonID, o: Outside)
    ensures Successes(ids + [id], o) == Successes(ids, o) + if o.sends(id) then 1 else 0
  {
  }

  /** What the query returned is due and comes once each; if it returned none, none is due. */
  lemma BatchFacts(o: Outside, people: map<PersonID, Person>, before: int, batch: seq<PersonID>)
    requires Behaves(o, before) && o.query(people) == Some(batch)
    ensures forall k :: 0 <= k < |batch| ==> batch[k] in DueSet(people, before)
    ensures forall j, k :: 0 <= j < k < |batch| ==> batch[j] < batch[k]
    ensures batch == [] ==> DueSet(people, before) == {}
  {
    assert IsBatch(people, before, batch);
    if batch == [] {
      forall i
        ensures i !in DueSet(people, before)
      {
        assert i !in batch;
      }
    }
  }

  lemma Shrinks(a: set<PersonID>, b: set<PersonID>, i: PersonID)
    requires b <= a && i in a && i !in b
    ensures |b| < |a|
  {
    assert a == (a - b) + b;
    assert i in a - b;
  }

  /**
   Everyone tried was enabled, waiting, and neither added nor sent to since the
   limit; exactly they are marked, with the time of their mark; and sent is how
   many of the sends succeeded.
   */
  ghost predicate ResentAs(start: map<PersonID, Person>, before: int, o: Outside, attempts: seq<PersonID>,
                           now: map<PersonID, Person>, sent: nat) {
    && (forall i :: i in attempts ==>
          i in start && start[i].enabled && start[i].pending && start[i].lastAdded < before
          && (start[i].sentAt.Some? ==> start[i].sentAt.value < before))
    && now.Keys == start.Keys
    && (forall i :: i in start ==>
          now[i] == if i in attempts then start[i].(sentAt := Some(o.now(i))) else start[i])
    && sent == Picked(attempts, o.sends, |attempts|)
  }

  lemma ResentExact(start: map<PersonID, Person>, before: int, o: Outside, attempts: seq<PersonID>,
                    now: map<PersonID, Person>, sent: nat)
    requires Tried(attempts, DueSet(start, before), o) && now == AllMarked(start, attempts, o)
    requires sent == Successes(attempts, o)
    ensures ResentAs(start, before, o, attempts, now, sent)
  {
    SuccessesExact(attempts, o);
    hide Successes;
  }

  lemma {:induction false} SuccessesExact(ids: seq<PersonID>, o: Outside)
    ensures Successes(ids, o) == Picked(ids, o.sends, |ids|)
  {
    if ids != [] {
      var n := |ids| - 1;
      SuccessesExact(ids[..n], o);
      PickedAgree(ids[..n], ids[n], o.sends, n);
      assert ids == ids[..n] + [ids[n]];
    }
  }

  /** The due are all who are enabled, waiting, and neither added nor sent to since the limit. */
  lemma DueExact(people: map<PersonID, Person>, before: int, i: PersonID)
    ensures i in DueSet(people, before) <==>
      && i in people && people[i].enabled && people[i].pending && people[i].lastAdded < before
      && (people[i].sentAt.Some? ==> people[i].sentAt.value < before)
  {
  }

  class Subscribers {
    var people: map<PersonID, Person>

    constructor (people: map<PersonID, Person>)
      ensures this.people == people
    {
      this.people := people;
    }

    /**
     One batch, after earlier attempts on the people of start: everyone in it
     is tried, up to a mark that fails.
     */
    method SendBatch(batch: seq<PersonID>, o: Outside, ghost start: map<PersonID, Person>, ghost earlier: seq<PersonID>)
      returns (n: nat, sent: nat)
      requires people == AllMarked(start, earlier, o)
      requires forall i :: i in batch ==> i in people
      modifies this
      ensures n <= |batch| && (forall i :: i in batch[..n] ==> o.marks(i)) && (n < |batch| ==> !o.marks(batch[n]))
      ensures people == AllMarked(start, earlier + batch[..n], o)
      ensures Successes(earlier + batch[..n], o) == Successes(earlier, o) + sent
    {
      hide AllMarked, Successes;
      n, sent := 0, 0;
      assert earlier + batch[..0] == earlier;
      while n < |batch|
        invariant 0 <= n <= |batch| && (forall i :: i in batch[..n] ==> o.marks(i))
        invariant people == AllMarked(start, earlier + batch[..n], o) && people.Keys == old(people).Keys
        invariant Successes(earlier + batch[..n], o) == Successes(earlier, o) + sent
      {
        var id := batch[n];
        if !o.marks(id) {
          return;
        }
        MarkOneMore(start, earlier + batch[..n], id, o);
        SuccessesNext(earlier + batch[..n], id, o);
        people := people[id := Marked(people[id], o.now(id))];
        assert batch[..n + 1] == batch[..n] + [id];
        assert earlier + batch[..n + 1] == earlier + batch[..n] + [id];
        n := n + 1;
        if !o.sends(id) {
          continue;
        }
        sent := sent + 1;
      }
    }

    /**
     Ends on its own. attempts are the people a send was tried for, in order:
     each was due at the start, is tried once, and is marked before; with
     queries and marks succeeding they are all who were due.
     */
    method ResendOptins(before: int, o: Outside) returns (ghost attempts: seq<PersonID>, sent: nat)
      requires Behaves(o, before)
      modifies this
      ensures Tried(attempts, DueSet(old(people), before), o)
      ensures people == AllMarked(old(people), attempts, o)
      ensures sent == Successes(attempts, o)
      ensures ResentAs(old(people), before, o, attempts, people, sent)
      ensures (forall p :: o.query(p).Some?) && (forall i :: i in DueSet(old(people), before) ==> o.marks(i)) ==>
        forall i :: i in DueSet(old(people), before) ==> i in attempts
    {
      attempts, sent := [], 0;
      NothingMarked(people, o);
      ghost var start := people;
      assert forall i :: o.now(i) >= before;
      assert Tried([], DueSet(people, before), o);
      hide AllMarked, DueSet, Successes, Tried, IsBatch, Behaves;
      while true
        invariant Tried(attempts, DueSet(old(people), before), o) && sent == Successes(attempts, o)
        invariant people == AllMarked(old(people), attempts, o)
        decreases |DueSet(people, before)|
      {
        MarkedAreNotDue(old(people), attempts, o, before);
        var subs := o.query(people);
        if subs.Some? {
          BatchFacts(o, people, before, subs.value);
        }
        if subs.None? || |subs.value| == 0 {
          ResentExact(start, before, o, attempts, people, sent);
          return;
        }
        ghost var due := DueSet(people, before);
        var n, more := SendBatch(subs.value, o, old(people), attempts);
        TriedMore(attempts, subs.value, n, DueSet(old(people), before), due, o);
        attempts := attempts + subs.value[..n];
        sent := sent + more;
        if n < |subs.value| {
          assert subs.value[n] in due;
          ResentExact(start, before, o, attempts, people, sent);
          return;
        }
        MarkedAreNotDue(old(people), attempts, o, before);
        assert subs.value[0] in due && subs.value[0] in attempts;
        Shrinks(due, DueSet(people, before), subs.value[0]);
      }
    }
  }
}
