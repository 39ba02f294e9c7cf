/**
 The two caches that load outside their lock: the two-step policy and the reply
 addresses. They promise a time bound, and freshness after an undisturbed forget.
 Times are in milliseconds of one clock.
 */
module TtlCache {
  import opened Wrappers

  const TWOFA_TTL: int := 30000
  const REPLIES_TTL: int := 60000

  datatype PolicyEntry = PolicyEntry(required: bool, at: int)

  class TwofaPolicy {
    var m: map<int, PolicyEntry>

    constructor ()
      ensures m == map[]
    {
      m := map[];
    }

    /** now is the time of the lookup, loaded what the load then returns, later the time it returns. */
    method Get(tenant: int, now: int, loaded: Option<bool>, later: int) returns (required: bool)
      modifies this
      ensures var hit := tenant in old(m) && now - old(m)[tenant].at < TWOFA_TTL;
        && required == (if hit then old(m)[tenant].required else loaded == Some(true))
        && m == if hit || loaded.None? then old(m) else old(m)[tenant := PolicyEntry(required, later)]
    {
      if tenant in m && now - m[tenant].at < TWOFA_TTL {
        return m[tenant].required;
      }
      if loaded.None? {
        return false;
      }
      m := m[tenant := PolicyEntry(loaded.value, later)];
      return loaded.value;
    }

    method Forget(tenant: int)
      modifies this
      ensures m == old(m) - {tenant}
    {
      m := m - {tenant};
    }
  }

  /** addr is None when reply tracking is off. */
  datatype RepliesEntry = RepliesEntry(addr: Option<string>, fetched: int)

  class TenantReplies {
    var cache: map<int, RepliesEntry>

    constructor ()
      ensures cache == map[]
    {
      cache := map[];
    }

    /** A setup that cannot be read counts as none, and is kept as that. */
    method Addresser(tenant: int, now: int, config: Result<Option<string>, string>, later: int)
      returns (addr: Option<string>)
      modifies this
      ensures var hit := tenant in old(cache) && now - old(cache)[tenant].fetched < REPLIES_TTL;
        && addr == (if hit then old(cache)[tenant].addr else if config.Ok? then config.value else None)
        && cache == if hit then old(cache) else old(cache)[tenant := RepliesEntry(addr, later)]
    {
      if tenant in cache && now - cache[tenant].fetched < REPLIES_TTL {
        return cache[tenant].addr;
      }
      addr := None;
      if config.Ok? {
        addr := config.value;
      }
      cache := cache[tenant := RepliesEntry(addr, later)];
    }

    method Invalidate(tenant: int)
      modifies this
      ensures cache == old(cache) - {tenant}
    {
      cache := cache - {tenant};
    }
  }

  /** When a load began, and once it has read the database, which version it read and when. */
  datatype Load = Load(began: int, seen: Option<Seen>)
  datatype Seen = Seen(version: nat, at: int)

  /** origin is None for what a failed load left. */
  datatype Entry<V> = Entry(value: V, at: int, origin: Option<Load>)

  /** versions are the stored values so far, each with the time it was written. */
  datatype World<V> = World(clock: int, versions: seq<(int, V)>, entry: Option<Entry<V>>, loads: map<nat, Load>)

  /** What a failed load serves, and whether that is kept. */
  datatype Config<V> = Config(ttl: int, off: V, keepsFailures: bool)

  datatype Action<V> =
    | Tick(ms: nat)
    | Save(value: V)
    | Forget
    | Begin(i: nat)
    | Read(i: nat)
    | Finish(i: nat)
    | Fail(i: nat)

  function Current<V>(w: World<V>): nat
    requires |w.versions| > 0
  {
    |w.versions| - 1
  }

  predicate Fresh<V>(cfg: Config<V>, w: World<V>) {
    w.entry.Some? && w.clock - w.entry.value.at < cfg.ttl
  }

  predicate Enabled<V>(cfg: Config<V>, w: World<V>, a: Action<V>) {
    |w.versions| > 0 &&
    match a
    case Tick(ms) => true
    case Save(value) => true
    case Forget => true
    case Begin(i) => i !in w.loads && !Fresh(cfg, w)
    case Read(i) => i in w.loads && w.loads[i].seen.None?
    case Finish(i) => i in w.loads && w.loads[i].seen.Some? && w.loads[i].seen.value.version < |w.versions|
    case Fail(i) => i in w.loads
  }

  function Next<V>(cfg: Config<V>, w: World<V>, a: Action<V>): World<V>
    requires Enabled(cfg, w, a)
  {
    match a
    case Tick(ms) => w.(clock := w.clock + ms)
    case Save(value) => w.(versions := w.versions + [(w.clock, value)])
    case Forget => w.(entry := None)
    case Begin(i) => w.(loads := w.loads[i := Load(w.clock, None)])
    case Read(i) => w.(loads := w.loads[i := w.loads[i].(seen := Some(Seen(Current(w), w.clock)))])
    case Finish(i) =>
      w.(loads := w.loads - {i},
         entry := Some(Entry(w.versions[w.loads[i].seen.value.version].1, w.clock, Some(w.loads[i]))))
    case Fail(i) =>
      w.(loads := w.loads - {i},
         entry := if cfg.keepsFailures then Some(Entry(cfg.off, w.clock, None)) else w.entry)
  }

  function After<V>(cfg: Config<V>, w: World<V>, trace: seq<Action<V>>): Option<World<V>> {
    if trace == [] then Some(w)
    else
      var before := After(cfg, w, trace[..|trace| - 1]);
      var a := trace[|trace| - 1];
      if before.Some? && Enabled(cfg, before.value, a) then Some(Next(cfg, before.value, a)) else None
  }

  function Empty<V>(v: V): World<V> {
    World(0, [(0, v)], None, map[])
  }

  /** Version n was the stored one at time t. */
  predicate WasStored<V>(w: World<V>, n: nat, t: int) {
    n < |w.versions| && w.versions[n].0 <= t && (n + 1 < |w.versions| ==> t <= w.versions[n + 1].0)
  }

  predicate SeenRight<V>(w: World<V>, l: Load) {
    l.seen.Some? ==>
      l.began <= l.seen.value.at <= w.clock && WasStored(w, l.seen.value.version, l.seen.value.at)
  }

  predicate Traced<V>(w: World<V>) {
    && |w.versions| > 0
    && (forall n :: 0 <= n < |w.versions| ==> w.versions[n].0 <= w.clock)
    && (forall i :: i in w.loads ==> w.loads[i].began <= w.clock && SeenRight(w, w.loads[i]))
  }

  ghost predicate EntryTraced<V>(w: World<V>) {
    w.entry.Some? && w.entry.value.origin.Some? ==>
      var e := w.entry.value;
      var l := e.origin.value;
      && l.seen.Some? && SeenRight(w, l) && l.began <= l.seen.value.at <= e.at <= w.clock
      && e.value == w.versions[l.seen.value.version].1
  }

  /** What the step leaves or makes of what was seen before. */
  lemma SeenStaysRight<V>(cfg: Config<V>, w: World<V>, a: Action<V>, l: Load)
    requires Enabled(cfg, w, a) && Traced(w) && SeenRight(w, l)
    ensures SeenRight(Next(cfg, w, a), l)
  {
  }

  lemma StepTraced<V>(cfg: Config<V>, w: World<V>, a: Action<V>)
    requires Enabled(cfg, w, a) && Traced(w) && EntryTraced(w)
    ensures Traced(Next(cfg, w, a)) && EntryTraced(Next(cfg, w, a))
  {
    forall i | i in w.loads
      ensures SeenRight(Next(cfg, w, a), w.loads[i])
    {
      SeenStaysRight(cfg, w, a, w.loads[i]);
    }
    if w.entry.Some? && w.entry.value.origin.Some? {
      SeenStaysRight(cfg, w, a, w.entry.value.origin.value);
    }
    var next := Next(cfg, w, a);
    assert a.Read? ==> SeenRight(next, next.loads[a.i]);
    hide SeenRight;
  }

  lemma {:induction false} AlwaysTraced<V>(cfg: Config<V>, v: V, trace: seq<Action<V>>, w: World<V>)
    requires After(cfg, Empty(v), trace) == Some(w)
    ensures Traced(w) && EntryTraced(w)
  {
    if trace != [] {
      hide Enabled, Next, Traced, EntryTraced;
      var before := After(cfg, Empty(v), trace[..|trace| - 1]).value;
      AlwaysTraced(cfg, v, trace[..|trace| - 1], before);
      StepTraced(cfg, before, trace[|trace| - 1]);
    }
  }

  /** The load a value came of that a get is served from the cache. */
  predicate ServesCached<V>(cfg: Config<V>, w: World<V>, l: Load) {
    Fresh(cfg, w) && w.entry.value.origin == Some(l)
  }

  /** The load a get ends with, being served what it read. */
  predicate ServesLoaded<V>(w: World<V>, l: Load) {
    exists i :: i in w.loads && w.loads[i].seen.Some? && w.loads[i] == l
  }

  /**
   Bounded staleness, whatever is interleaved. A value served from the cache was
   the stored one at some time later than the time-to-live and that load's
   duration ago; a get that loads returns one that was stored since it began.
   */
  lemma BoundedStaleness<V>(cfg: Config<V>, v: V, trace: seq<Action<V>>, w: World<V>, l: Load) returns (n: nat, t: int)
    requires After(cfg, Empty(v), trace) == Some(w) && (ServesCached(cfg, w, l) || ServesLoaded(w, l))
    ensures l.seen == Some(Seen(n, t)) && WasStored(w, n, t) && l.began <= t <= w.clock
    ensures ServesCached(cfg, w, l) ==>
      && w.versions[n].1 == w.entry.value.value
      && t > w.clock - cfg.ttl - (w.entry.value.at - l.began)
  {
    AlwaysTraced(cfg, v, trace, w);
    n, t := l.seen.value.version, l.seen.value.at;
  }

  /** An entry is served until its time-to-live is over, and not after. */
  lemma Expires<V>(cfg: Config<V>, w: World<V>, ms: nat)
    requires w.entry.Some? && |w.versions| > 0
    ensures Fresh(cfg, Next(cfg, w, Tick(ms))) <==> w.clock + ms - w.entry.value.at < cfg.ttl
  {
  }

  /** Some load in flight has read a version that is not the stored one any more. */
  predicate Disturbed<V>(w: World<V>)
    requires |w.versions| > 0
  {
    exists i :: i in w.loads && w.loads[i].seen.Some? && w.loads[i].seen.value.version < Current(w)
  }

  /** Nothing older than version n is cached or about to be. */
  predicate NothingOlder<V>(w: World<V>, n: nat) {
    && n < |w.versions|
    && (forall i :: i in w.loads && w.loads[i].seen.Some? ==> w.loads[i].seen.value.version >= n)
    && (w.entry.Some? && w.entry.value.origin.Some? && w.entry.value.origin.value.seen.Some? ==>
          w.entry.value.origin.value.seen.value.version >= n)
  }

  lemma {:induction false} StaysNew<V>(cfg: Config<V>, w0: World<V>, trace: seq<Action<V>>, w: World<V>, n: nat)
    requires NothingOlder(w0, n) && After(cfg, w0, trace) == Some(w)
    ensures NothingOlder(w, n)
  {
    if trace != [] {
      StaysNew(cfg, w0, trace[..|trace| - 1], After(cfg, w0, trace[..|trace| - 1]).value, n);
    }
  }

  /**
   A forget that no load disturbs is final: whatever is served afterwards of a
   successful load, from the cache or as its load ends, was stored at the forget
   or after it. Loads that have not read yet, or have read what is stored, do
   not disturb it.
   */
  lemma UndisturbedForget<V>(cfg: Config<V>, w0: World<V>, trace: seq<Action<V>>, w: World<V>, l: Load)
    requires |w0.versions| > 0 && !Disturbed(w0)
    requires After(cfg, Next(cfg, w0, Forget), trace) == Some(w)
    requires (ServesCached(cfg, w, l) || ServesLoaded(w, l)) && l.seen.Some?
    ensures l.seen.value.version >= Current(w0)
  {
    StaysNew(cfg, Next(cfg, w0, Forget), trace, w, Current(w0));
  }

  /** After the trace that follows a forget of w0, the cache serves an older version than was stored then. */
  ghost predicate ServesOlder<V>(cfg: Config<V>, w0: World<V>, trace: seq<Action<V>>, w: World<V>, l: Load)
    requires |w0.versions| > 0
  {
    && After(cfg, Next(cfg, w0, Forget), trace) == Some(w)
    && ServesCached(cfg, w, l) && l.seen.Some? && l.seen.value.version < Current(w0)
  }

  /** A forget leaves an older value to be served exactly when a load in flight has read one. */
  lemma ForgetExactly<V(!new)>(cfg: Config<V>, w0: World<V>)
    requires cfg.ttl > 0 && |w0.versions| > 0
    ensures (exists trace, w, l :: ServesOlder(cfg, w0, trace, w, l)) <==> Disturbed(w0)
  {
    if trace, w, l :| ServesOlder(cfg, w0, trace, w, l) {
      if !Disturbed(w0) {
        UndisturbedForget(cfg, w0, trace, w, l);
      }
    }
    if Disturbed(w0) {
      var i :| i in w0.loads && w0.loads[i].seen.Some? && w0.loads[i].seen.value.version < Current(w0);
      var trace, w := ForgetMeetsLoad(cfg, w0, i);
      assert ServesOlder(cfg, w0, trace, w, w0.loads[i]);
    }
  }

  lemma Compose<V>(cfg: Config<V>, w0: World<V>, trace: seq<Action<V>>, w: World<V>, a: Action<V>)
    requires After(cfg, w0, trace) == Some(w) && Enabled(cfg, w, a)
    ensures After(cfg, w0, trace + [a]) == Some(Next(cfg, w, a))
  {
    hide Enabled, Next;
    assert (trace + [a])[..|trace|] == trace;
  }

  /** Such a load puts the older value back as it ends, and it is served. */
  lemma ForgetMeetsLoad<V>(cfg: Config<V>, w0: World<V>, i: nat) returns (trace: seq<Action<V>>, w: World<V>)
    requires cfg.ttl > 0 && i in w0.loads && w0.loads[i].seen.Some?
    requires |w0.versions| > 0 && w0.loads[i].seen.value.version < Current(w0)
    ensures After(cfg, Next(cfg, w0, Forget), trace) == Some(w) && ServesCached(cfg, w, w0.loads[i])
    ensures w.entry.value.value == w0.versions[w0.loads[i].seen.value.version].1 && w.versions == w0.versions
  {
    var forgot := Next(cfg, w0, Forget);
    assert After(cfg, forgot, []) == Some(forgot);
    Compose(cfg, forgot, [], forgot, Finish(i));
    trace, w := [] + [Finish(i)], Next(cfg, forgot, Finish(i));
  }

  /** A save during a load is all it takes to get there. */
  lemma SaveDisturbs<V>(cfg: Config<V>, v: V, saved: V) returns (trace: seq<Action<V>>, w: World<V>)
    ensures After(cfg, Empty(v), trace) == Some(w) && w.versions == [(0, v), (0, saved)] && Disturbed(w)
  {
    var w0 := Empty(v);
    assert After(cfg, w0, []) == Some(w0);
    hide After;
    Compose(cfg, w0, [], w0, Begin(0));
    var begun := w0.(loads := map[0 := Load(0, None)]);
    Compose(cfg, w0, [] + [Begin(0)], begun, Read(0));
    var read := w0.(loads := map[0 := Load(0, Some(Seen(0, 0)))]);
    assert begun.loads[0 := Load(0, Some(Seen(0, 0)))] == read.loads;
    Compose(cfg, w0, [] + [Begin(0)] + [Read(0)], read, Save(saved));
    trace, w := [] + [Begin(0)] + [Read(0)] + [Save(saved)], read.(versions := [(0, v), (0, saved)]);
    assert read.versions + [(0, saved)] == w.versions;
    assert 0 in w.loads && w.loads[0].seen.value.version < Current(w);
  }
}
