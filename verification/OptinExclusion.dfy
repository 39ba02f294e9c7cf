/**
 One tenant's bulk resends over time: requests, the exclusion that lets one in,
 and every send they make, while subscriptions change beneath them.
 */
module OptinExclusion {
  import opened Wrappers
  import opened OptinResend

  /**
   A resend at work: the limit it took at its request, who of its batch is left,
   and who is marked, when, and about to be sent to.
   */
  datatype Work = Work(before: int, left: set<PersonID>, marked: Option<(PersonID, int)>)

  /** A send, with the time its person was marked. */
  datatype Sent = Sent(person: PersonID, marked: int, at: int)

  datatype World = World(
    clock: int, people: map<PersonID, Person>, requests: map<nat, int>, running: map<nat, Work>, sends: seq<Sent>)

  /**
   gap: how long a person is left alone, a day in the program. exclusive: a
   resend enters only when none is running.
   */
  datatype Config = Config(gap: nat, exclusive: bool)

  datatype Action =
    | Tick(seconds: nat)
    | Update(id: PersonID, enabled: bool, pending: bool, lastAdded: int)
    | Request(i: nat)
    | Enter(i: nat)
    | Refuse(i: nat)
    | Fetch(i: nat, batch: set<PersonID>)
    | Mark(i: nat, id: PersonID)
    | Send(i: nat)
    | Leave(i: nat)

  predicate Enabled(cfg: Config, w: World, a: Action) {
    match a
    case Tick(seconds) => true
    case Update(id, enabled, pending, lastAdded) => id in w.people
    case Request(i) => i !in w.requests && i !in w.running
    case Enter(i) => i in w.requests && i !in w.running && (cfg.exclusive ==> w.running == map[])
    case Refuse(i) => i in w.requests && w.running != map[]
    case Fetch(i, batch) =>
      i in w.running && w.running[i].left == {} && w.running[i].marked.None?
        && batch <= DueSet(w.people, w.running[i].before)
    case Mark(i, id) => i in w.running && id in w.running[i].left && w.running[i].marked.None? && id in w.people
    case Send(i) => i in w.running && w.running[i].marked.Some?
    case Leave(i) => i in w.running
  }

  function Next(cfg: Config, w: World, a: Action): World
    requires Enabled(cfg, w, a)
  {
    match a
    case Tick(seconds) => w.(clock := w.clock + seconds)
    case Update(id, enabled, pending, lastAdded) =>
      w.(people := w.people[id := Person(enabled, pending, lastAdded, w.people[id].sentAt)])
    case Request(i) => w.(requests := w.requests[i := w.clock - cfg.gap])
    case Enter(i) => w.(requests := w.requests - {i}, running := w.running[i := Work(w.requests[i], {}, None)])
    case Refuse(i) => w.(requests := w.requests - {i})
    case Fetch(i, batch) => w.(running := w.running[i := w.running[i].(left := batch)])
    case Mark(i, id) =>
      w.(people := w.people[id := Marked(w.people[id], w.clock)],
         running := w.running[i := w.running[i].(left := w.running[i].left - {id}, marked := Some((id, w.clock)))])
    case Send(i) =>
      var (id, at) := w.running[i].marked.value;
      w.(running := w.running[i := w.running[i].(marked := None)], sends := w.sends + [Sent(id, at, w.clock)])
    case Leave(i) => w.(running := w.running - {i})
  }

  function After(cfg: Config, w: World, trace: seq<Action>): Option<World> {
    if trace == [] then Some(w)
    else
      var before := After(cfg, w, trace[..|trace| - 1]);
      var a := trace[|trace| - 1];
      if before.Some? && Enabled(cfg, before.value, a) then Some(Next(cfg, before.value, a)) else None
  }

  function Start(people: map<PersonID, Person>): World {
    World(0, people, map[], map[], [])
  }

  predicate OneRuns(w: World) {
    forall i, j :: i in w.running && j in w.running ==> i == j
  }

  predicate LimitsPast(cfg: Config, w: World) {
    && (forall i :: i in w.requests ==> w.requests[i] <= w.clock - cfg.gap)
    && (forall i :: i in w.running ==> w.running[i].before <= w.clock - cfg.gap)
  }

  /** Whoever is left in a batch has not been marked since its limit. */
  ghost predicate LeftAreUnsent(w: World) {
    forall i, p :: i in w.running && p in w.running[i].left ==>
      p in w.people && (w.people[p].sentAt.None? || w.people[p].sentAt.value < w.running[i].before)
  }

  /** The person's last mark is no older than this one. */
  predicate MarkKnown(w: World, id: PersonID, at: int) {
    id in w.people && w.people[id].sentAt.Some? && at <= w.people[id].sentAt.value
  }

  predicate SendsMarked(w: World) {
    && (forall k :: 0 <= k < |w.sends| ==>
        MarkKnown(w, w.sends[k].person, w.sends[k].marked) && w.sends[k].marked <= w.sends[k].at)
    && (forall i :: i in w.running && w.running[i].marked.Some? ==>
          w.running[i].marked.value.1 <= w.clock
            && MarkKnown(w, w.running[i].marked.value.0, w.running[i].marked.value.1))
  }

  /** A mark that is still to be followed by its send is more than the gap after every earlier send's mark. */
  predicate NextIsLater(cfg: Config, w: World) {
    forall i, k :: i in w.running && w.running[i].marked.Some? && 0 <= k < |w.sends|
                   && w.sends[k].person == w.running[i].marked.value.0 ==>
      w.running[i].marked.value.1 - w.sends[k].marked > cfg.gap
  }

  /** Two sends to one person: the later one's mark, and so its send, comes more than the gap after the earlier mark. */
  predicate GapKept(cfg: Config, w: World) {
    forall j, k :: 0 <= j < k < |w.sends| && w.sends[j].person == w.sends[k].person ==>
      w.sends[k].marked - w.sends[j].marked > cfg.gap
  }

  ghost predicate Spaced(cfg: Config, w: World) {
    OneRuns(w) && LimitsPast(cfg, w) && LeftAreUnsent(w) && SendsMarked(w) && NextIsLater(cfg, w) && GapKept(cfg, w)
  }

  lemma MarkStaysSpaced(cfg: Config, w: World, i: nat, id: PersonID)
    requires Enabled(cfg, w, Mark(i, id)) && Spaced(cfg, w)
    ensures Spaced(cfg, Next(cfg, w, Mark(i, id)))
  {
    forall k | 0 <= k < |w.sends| && w.sends[k].person == id
      ensures w.clock - w.sends[k].marked > cfg.gap
    {
      assert MarkKnown(w, id, w.sends[k].marked);
      assert w.sends[k].marked <= w.people[id].sentAt.value < w.running[i].before;
    }
  }

  lemma LimitsStaySpaced(cfg: Config, w: World, clock: int, requests: map<nat, int>)
    requires Spaced(cfg, w) && w.clock <= clock
    requires forall i :: i in requests ==> requests[i] <= clock - cfg.gap
    ensures Spaced(cfg, w.(clock := clock, requests := requests))
  {
  }

  lemma PeopleStaySpaced(cfg: Config, w: World, people: map<PersonID, Person>)
    requires Spaced(cfg, w) && w.people.Keys <= people.Keys
    requires forall p :: p in w.people ==> people[p].sentAt == w.people[p].sentAt
    ensures Spaced(cfg, w.(people := people))
  {
  }

  lemma EnterStaysSpaced(cfg: Config, w: World, i: nat)
    requires cfg.exclusive && Enabled(cfg, w, Enter(i)) && Spaced(cfg, w)
    ensures Spaced(cfg, Next(cfg, w, Enter(i)))
  {
    assert Next(cfg, w, Enter(i)).running == map[i := Work(w.requests[i], {}, None)];
  }

  lemma FewerStaySpaced(cfg: Config, w: World, running: map<nat, Work>)
    requires Spaced(cfg, w) && running.Keys <= w.running.Keys
    requires forall i :: i in running ==> running[i] == w.running[i]
    ensures Spaced(cfg, w.(running := running))
  {
  }

  lemma FetchStaysSpaced(cfg: Config, w: World, i: nat, batch: set<PersonID>)
    requires Enabled(cfg, w, Fetch(i, batch)) && Spaced(cfg, w)
    ensures Spaced(cfg, Next(cfg, w, Fetch(i, batch)))
  {
  }

  lemma SendStaysSpaced(cfg: Config, w: World, i: nat)
    requires Enabled(cfg, w, Send(i)) && Spaced(cfg, w)
    ensures Spaced(cfg, Next(cfg, w, Send(i)))
  {
  }

  lemma StepStaysSpaced(cfg: Config, w: World, a: Action)
    requires cfg.exclusive && Enabled(cfg, w, a) && Spaced(cfg, w)
    ensures Spaced(cfg, Next(cfg, w, a))
  {
    assert forall i :: i in w.requests ==> w.requests[i] <= w.clock - cfg.gap;
    hide Spaced, DueSet;
    match a
    case Tick(seconds) => LimitsStaySpaced(cfg, w, w.clock + seconds, w.requests);
    case Update(id, enabled, pending, lastAdded) =>
      PeopleStaySpaced(cfg, w, w.people[id := Person(enabled, pending, lastAdded, w.people[id].sentAt)]);
    case Request(i) => LimitsStaySpaced(cfg, w, w.clock, w.requests[i := w.clock - cfg.gap]);
    case Enter(i) => EnterStaysSpaced(cfg, w, i);
    case Refuse(i) => LimitsStaySpaced(cfg, w, w.clock, w.requests - {i});
    case Fetch(i, batch) => FetchStaysSpaced(cfg, w, i, batch);
    case Mark(i, id) => MarkStaysSpaced(cfg, w, i, id);
    case Send(i) => SendStaysSpaced(cfg, w, i);
    case Leave(i) => FewerStaySpaced(cfg, w, w.running - {i});
  }

  /**
   A tenant's resends never overlap, and whatever requests come when: of any two
   sends to one person the later is marked, and sent, more than the gap after the
   earlier was marked.
   */
  lemma {:induction false} SendsKeepTheirGap(cfg: Config, people: map<PersonID, Person>, trace: seq<Action>, w: World)
    requires cfg.exclusive && After(cfg, Start(people), trace) == Some(w)
    ensures Spaced(cfg, w)
  {
    if trace != [] {
      hide Enabled, Next, Spaced;
      var before := After(cfg, Start(people), trace[..|trace| - 1]).value;
      SendsKeepTheirGap(cfg, people, trace[..|trace| - 1], before);
      StepStaysSpaced(cfg, before, trace[|trace| - 1]);
    }
  }

  lemma Then(cfg: Config, w0: World, trace: seq<Action>, w: World, a: Action)
    requires After(cfg, w0, trace) == Some(w) && Enabled(cfg, w, a)
    ensures After(cfg, w0, trace + [a]) == Some(Next(cfg, w, a))
  {
    hide Enabled, Next;
    assert (trace + [a])[..|trace|] == trace;
  }

  /** Without the exclusion a second resend sends to someone the first is about to. */
  lemma OverlapSendsTwice(gap: nat, id: PersonID) returns (people: map<PersonID, Person>, trace: seq<Action>, w: World)
    ensures After(Config(gap, false), Start(people), trace) == Some(w) && !GapKept(Config(gap, false), w)
  {
    var cfg := Config(gap, false);
    people := map[id := Person(true, true, -(gap as int) - 1, None)];
    var w0 := Start(people);
    assert After(cfg, w0, []) == Some(w0);
    hide After;
    trace, w := EntersAndFetches(cfg, w0, [], w0, 1, id);
    trace, w := EntersAndFetches(cfg, w0, trace, w, 2, id);
    trace, w := MarksAndSends(cfg, w0, trace, w, 1, id);
    trace, w := MarksAndSends(cfg, w0, trace, w, 2, id);
    assert w.sends == [Sent(id, 0, 0), Sent(id, 0, 0)];
    assert w.sends[0].person == w.sends[1].person;
  }

  lemma EntersAndFetches(cfg: Config, w0: World, trace: seq<Action>, w: World, i: nat, id: PersonID)
    returns (more: seq<Action>, next: World)
    requires After(cfg, w0, trace) == Some(w) && !cfg.exclusive && i !in w.requests && i !in w.running
    requires id in DueSet(w.people, w.clock - cfg.gap)
    ensures After(cfg, w0, more) == Some(next)
    ensures next == w.(running := w.running[i := Work(w.clock - cfg.gap, {id}, None)])
  {
    hide After;
    Then(cfg, w0, trace, w, Request(i));
    var w1 := Next(cfg, w, Request(i));
    Then(cfg, w0, trace + [Request(i)], w1, Enter(i));
    var w2 := Next(cfg, w1, Enter(i));
    Then(cfg, w0, trace + [Request(i)] + [Enter(i)], w2, Fetch(i, {id}));
    more, next := trace + [Request(i)] + [Enter(i)] + [Fetch(i, {id})], Next(cfg, w2, Fetch(i, {id}));
    assert next.requests == w.requests;
    assert next.running == w.running[i := Work(w.clock - cfg.gap, {id}, None)];
  }

  lemma MarksAndSends(cfg: Config, w0: World, trace: seq<Action>, w: World, i: nat, id: PersonID)
    returns (more: seq<Action>, next: World)
    requires After(cfg, w0, trace) == Some(w) && i in w.running && id in w.people
    requires id in w.running[i].left && w.running[i].marked.None?
    ensures After(cfg, w0, more) == Some(next) && next.sends == w.sends + [Sent(id, w.clock, w.clock)]
    ensures next.clock == w.clock && next.people.Keys == w.people.Keys
    ensures forall j :: j in w.running && j != i ==> j in next.running && next.running[j] == w.running[j]
  {
    hide After;
    Then(cfg, w0, trace, w, Mark(i, id));
    var w1 := Next(cfg, w, Mark(i, id));
    Then(cfg, w0, trace + [Mark(i, id)], w1, Send(i));
    more, next := trace + [Mark(i, id)] + [Send(i)], Next(cfg, w1, Send(i));
  }
}
