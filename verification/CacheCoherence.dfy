/**
 One tenant's caches under interleaved gets and saves. A get holds its cache's
 lock from its read of the settings to its insertion, so an eviction waits for
 it, but the database write of a save does not.
 */
module CacheCoherence {
  import opened Wrappers
  import opened TenantSettings
  import TenantCaches

  /** A save that has read the settings it will compare with, or has written and still has to act. */
  datatype Saver = Reading(cur: Settings) | Finishing(effect: Effect)

  datatype World = World(
    stored: Settings, filled: map<CacheName, Built>, building: map<CacheName, Settings>,
    savers: map<nat, Saver>, restartDue: bool)

  /**
   When saves may go on. Serial: one does not begin while another is at work.
   Checked: they may overlap, but a whole save writes only over the settings it
   has read.
   */
  datatype Rule = AnyTime | Serial | Checked

  datatype Config = Config(o: Oracles, rule: Rule)

  datatype Action =
    | Lock(name: CacheName)
    | Insert(name: CacheName)
    | GiveUp(name: CacheName)
    | Begin(i: nat)
    | Abandon(i: nat)
    | Write(i: nat, saved: Settings)
    | WriteKey(i: nat, key: string, saved: Settings)
    | Evict(i: nat, name: CacheName)
    | AskRestart(i: nat)
    | End(i: nat)
    | Restart

  predicate IsReading(w: World, i: nat) {
    i in w.savers && w.savers[i].Reading?
  }

  predicate IsFinishing(w: World, i: nat) {
    i in w.savers && w.savers[i].Finishing?
  }

  predicate Enabled(cfg: Config, w: World, a: Action) {
    match a
    case Lock(name) => name !in w.filled && name !in w.building
    case Insert(name) => name in w.building
    case GiveUp(name) => name in w.building
    case Begin(i) => i !in w.savers && (cfg.rule.Serial? ==> w.savers == map[])
    case Abandon(i) => IsReading(w, i)
    case Write(i, saved) => IsReading(w, i) && (cfg.rule.Checked? ==> w.savers[i].cur == w.stored)
    case WriteKey(i, key, saved) => IsReading(w, i) && DiffersAt(w.stored, saved, key)
    case Evict(i, name) => IsFinishing(w, i) && name in w.savers[i].effect.evict && name !in w.building
    case AskRestart(i) => IsFinishing(w, i) && w.savers[i].effect.restart
    case End(i) => IsFinishing(w, i) && w.savers[i].effect == Effect({}, false)
    case Restart => true
  }

  function Next(cfg: Config, w: World, a: Action): World
    requires Enabled(cfg, w, a)
  {
    match a
    case Lock(name) => w.(building := w.building[name := w.stored])
    case Insert(name) =>
      var built := Build(cfg.o, name, w.building[name]);
      w.(building := w.building - {name}, filled := if built.Some? then w.filled[name := built.value] else w.filled)
    case GiveUp(name) => w.(building := w.building - {name})
    case Begin(i) => w.(savers := w.savers[i := Reading(w.stored)])
    case Abandon(i) => w.(savers := w.savers - {i})
    case Write(i, saved) =>
      w.(stored := Stored(w.stored, saved), savers := w.savers[i := Finishing(SaveEffect(w.savers[i].cur, saved))])
    case WriteKey(i, key, saved) => w.(stored := saved, savers := w.savers[i := Finishing(KeyEffect(key))])
    case Evict(i, name) =>
      var e := w.savers[i].effect;
      w.(filled := w.filled - {name}, savers := w.savers[i := Finishing(e.(evict := e.evict - {name}))])
    case AskRestart(i) =>
      w.(restartDue := true, savers := w.savers[i := Finishing(w.savers[i].effect.(restart := false))])
    case End(i) => w.(savers := w.savers - {i})
    case Restart => w.(filled := map[], building := map[], savers := map[], restartDue := false)
  }

  function After(cfg: Config, w: World, trace: seq<Action>): Option<World> {
    if trace == [] then Some(w)
    else
      var before := After(cfg, w, trace[..|trace| - 1]);
      var a := trace[|trace| - 1];
      if before.Some? && Enabled(cfg, before.value, a) then Some(Next(cfg, before.value, a)) else None
  }

  /** A process that has just started, with any settings. */
  function Started(s: Settings): World {
    World(s, map[], map[], map[], false)
  }

  predicate Stale(o: Oracles, w: World, name: CacheName) {
    || (name in w.filled && Build(o, name, w.stored) != Some(w.filled[name]))
    || (name in w.building && Build(o, name, w.building[name]) != Build(o, name, w.stored))
  }

  /** A save still has to evict this cache, or to ask for a restart. */
  predicate Pending(w: World, name: CacheName) {
    exists i :: i in w.savers && Owes(w, i, name)
  }

  predicate Owes(w: World, i: nat, name: CacheName) {
    IsFinishing(w, i) && (name in w.savers[i].effect.evict || w.savers[i].effect.restart)
  }

  predicate OneSaver(w: World) {
    && (forall i, j :: i in w.savers && j in w.savers ==> i == j)
    && (forall i :: i in w.savers && w.savers[i].Reading? ==> w.savers[i].cur == w.stored)
  }

  predicate Accounted(cfg: Config, w: World) {
    forall name :: Stale(cfg.o, w, name) ==> w.restartDue || Pending(w, name)
  }

  lemma WriteAccounted(cfg: Config, w: World, i: nat, saved: Settings, e: Effect)
    requires IsReading(w, i) && Accounted(cfg, w)
    requires forall name :: Build(cfg.o, name, w.stored) != Build(cfg.o, name, saved) ==> e.restart || name in e.evict
    ensures Accounted(cfg, w.(stored := saved, savers := w.savers[i := Finishing(e)]))
  {
    hide Build;
    var next := w.(stored := saved, savers := w.savers[i := Finishing(e)]);
    assert i in next.savers;
    forall name | Stale(cfg.o, next, name)
      ensures next.restartDue || Pending(next, name)
    {
      if Build(cfg.o, name, w.stored) == Build(cfg.o, name, saved) {
        assert Stale(cfg.o, w, name);
        if j :| j in w.savers && Owes(w, j, name) {
          assert Owes(next, j, name);
        }
      }
    }
  }

  lemma EvictAccounted(cfg: Config, w: World, i: nat, name: CacheName)
    requires Enabled(cfg, w, Evict(i, name)) && Accounted(cfg, w)
    ensures Accounted(cfg, Next(cfg, w, Evict(i, name)))
  {
    hide Build;
    var next := Next(cfg, w, Evict(i, name));
    assert i in next.savers;
    forall n | Stale(cfg.o, next, n)
      ensures next.restartDue || Pending(next, n)
    {
      assert Stale(cfg.o, w, n);
      if j :| j in w.savers && Owes(w, j, n) {
        assert Owes(next, j, n);
      }
    }
  }

  lemma EndAccounted(cfg: Config, w: World, i: nat)
    requires i in w.savers && (w.savers[i].Reading? || w.savers[i].effect == Effect({}, false)) && Accounted(cfg, w)
    ensures Accounted(cfg, w.(savers := w.savers - {i}))
  {
    hide Build;
    var next := w.(savers := w.savers - {i});
    forall n | Stale(cfg.o, next, n)
      ensures next.restartDue || Pending(next, n)
    {
      assert Stale(cfg.o, w, n);
      if j :| j in w.savers && Owes(w, j, n) {
        assert Owes(next, j, n);
      }
    }
  }

  lemma GetAccounted(cfg: Config, w: World, a: Action)
    requires a.Lock? || a.Insert? || a.GiveUp? || a.Begin?
    requires Enabled(cfg, w, a) && Accounted(cfg, w)
    ensures Accounted(cfg, Next(cfg, w, a))
  {
    hide Build;
    var next := Next(cfg, w, a);
    forall n | Stale(cfg.o, next, n)
      ensures next.restartDue || Pending(next, n)
    {
      assert Stale(cfg.o, w, n);
      if j :| j in w.savers && Owes(w, j, n) {
        assert Owes(next, j, n);
      }
    }
  }

  /** Whole saves write over what they have read. */
  predicate UpToDate(w: World, a: Action) {
    a.Write? && IsReading(w, a.i) ==> w.savers[a.i].cur == w.stored
  }

  lemma StepAccounted(cfg: Config, w: World, a: Action)
    requires Enabled(cfg, w, a) && UpToDate(w, a) && Accounted(cfg, w)
    ensures Accounted(cfg, Next(cfg, w, a))
  {
    hide Build, Stored, SaveEffect, KeyEffect, DiffersAt;
    match a
    case Lock(name) => GetAccounted(cfg, w, a);
    case Insert(name) => GetAccounted(cfg, w, a);
    case GiveUp(name) => GetAccounted(cfg, w, a);
    case Write(i, saved) =>
      forall name | Build(cfg.o, name, w.stored) != Build(cfg.o, name, Stored(w.stored, saved))
        ensures SaveEffect(w.stored, saved).restart || name in SaveEffect(w.stored, saved).evict
      {
        SaveEffectSound(cfg.o, w.stored, saved, name);
      }
      WriteAccounted(cfg, w, i, Stored(w.stored, saved), SaveEffect(w.stored, saved));
    case WriteKey(i, key, saved) =>
      forall name | Build(cfg.o, name, w.stored) != Build(cfg.o, name, saved)
        ensures KeyEffect(key).restart || name in KeyEffect(key).evict
      {
        KeyEffectSound(cfg.o, w.stored, saved, key, name);
      }
      WriteAccounted(cfg, w, i, saved, KeyEffect(key));
    case Evict(i, name) => EvictAccounted(cfg, w, i, name);
    case Abandon(i) => EndAccounted(cfg, w, i);
    case End(i) => EndAccounted(cfg, w, i);
    case Begin(i) => GetAccounted(cfg, w, a);
    case _ =>
  }

  lemma StepSerial(cfg: Config, w: World, a: Action)
    requires cfg.rule.Serial? && Enabled(cfg, w, a) && OneSaver(w)
    ensures OneSaver(Next(cfg, w, a)) && UpToDate(w, a)
  {
    hide Build, Stored, SaveEffect, KeyEffect, DiffersAt;
  }

  lemma {:induction false} AlwaysAccounted(cfg: Config, s: Settings, trace: seq<Action>, w: World)
    requires !cfg.rule.AnyTime? && After(cfg, Started(s), trace) == Some(w)
    ensures Accounted(cfg, w) && (cfg.rule.Serial? ==> OneSaver(w))
  {
    if trace != [] {
      var before, a := After(cfg, Started(s), trace[..|trace| - 1]).value, trace[|trace| - 1];
      assert cfg.rule.Checked? ==> UpToDate(before, a);
      hide Enabled, Next, Accounted, UpToDate, OneSaver;
      AlwaysAccounted(cfg, s, trace[..|trace| - 1], before);
      if cfg.rule.Serial? {
        StepSerial(cfg, before, a);
      }
      StepAccounted(cfg, before, a);
    }
  }

  /**
   With one tenant's saves one at a time, or each written only over the settings
   it has read: whenever no save is between its database write and its last
   eviction, and no restart is due, every cache keeps what would be built from
   the stored settings now.
   */
  lemma Coherent(cfg: Config, s: Settings, trace: seq<Action>, w: World, name: CacheName)
    requires !cfg.rule.AnyTime? && After(cfg, Started(s), trace) == Some(w)
    requires !w.restartDue && forall i :: i in w.savers ==> w.savers[i].Reading?
    ensures name in w.filled ==> Build(cfg.o, name, w.stored) == Some(w.filled[name])
    ensures TenantCaches.Filled(cfg.o, name, if name in w.filled then Some(w.filled[name]) else None, Some(w.stored))
         == Build(cfg.o, name, w.stored)
  {
    AlwaysAccounted(cfg, s, trace, w);
    assert !Pending(w, name);
    assert !Stale(cfg.o, w, name);
  }

  lemma Then(cfg: Config, w0: World, trace: seq<Action>, w: World, a: Action)
    requires After(cfg, w0, trace) == Some(w) && Enabled(cfg, w, a)
    ensures After(cfg, w0, trace + [a]) == Some(Next(cfg, w, a))
  {
  }

  /** A restart empties every cache and nothing is due after it, while what is stored stays. */
  lemma RestartStartsOver(cfg: Config, w: World)
    requires Enabled(cfg, w, Restart)
    ensures Next(cfg, w, Restart) == Started(w.stored)
  {
  }

  /**
   Overlapping saves are not safe: the second compares with settings read
   before the first wrote, sees no change, and puts the old ones back under a
   cache that was rebuilt in between.
   */
  lemma OverlappingSavesGoStale(o: Oracles, s: Settings, saved: Settings, name: CacheName)
    returns (trace: seq<Action>, w: World)
    requires !s.scrub.managed && !saved.scrub.managed && SaveEffect(s, saved) == Effect({name}, false)
    requires Build(o, name, saved).Some? && Build(o, name, saved) != Build(o, name, s)
    ensures After(Config(o, AnyTime), Started(s), trace) == Some(w)
    ensures w.savers == map[] && w.building == map[] && !w.restartDue && Stale(o, w, name)
  {
    hide After, Enabled, Next, Build, SaveEffect;
    var cfg := Config(o, AnyTime);
    var begun := BothBegin(cfg, s, saved, name);
    var w2 := World(saved, map[], map[], map[1 := Finishing(Effect({name}, false)), 2 := Reading(s)], false);
    FirstSaveEnds(cfg, Started(s), begun, w2, name, Reading(s));
    var ended := begun + [Evict(1, name)] + [End(1)];
    trace, w := SecondRestores(cfg, Started(s), ended, w2.(savers := map[2 := Reading(s)]), s, name);
  }

  lemma BothBegin(cfg: Config, s: Settings, saved: Settings, name: CacheName) returns (trace: seq<Action>)
    requires cfg.rule.AnyTime? && !s.scrub.managed && SaveEffect(s, saved) == Effect({name}, false)
    ensures After(cfg, Started(s), trace)
         == Some(World(saved, map[], map[], map[1 := Finishing(Effect({name}, false)), 2 := Reading(s)], false))
  {
    hide SaveEffect;
    var w0 := Started(s);
    Then(cfg, w0, [], w0, Begin(1));
    Then(cfg, w0, [] + [Begin(1)], w0.(savers := map[1 := Reading(s)]), Begin(2));
    var savers := map[1 := Reading(s), 2 := Reading(s)];
    assert map[1 := Reading(s)][2 := Reading(s)] == savers;
    Then(cfg, w0, [] + [Begin(1)] + [Begin(2)], w0.(savers := savers), Write(1, saved));
    assert savers[1 := Finishing(Effect({name}, false))] == map[1 := Finishing(Effect({name}, false)), 2 := Reading(s)];
    trace := [] + [Begin(1)] + [Begin(2)] + [Write(1, saved)];
  }

  lemma SecondRestores(cfg: Config, w0: World, ended: seq<Action>, w3: World, s: Settings, name: CacheName)
    returns (trace: seq<Action>, w: World)
    requires cfg.rule.AnyTime? && After(cfg, w0, ended) == Some(w3)
    requires w3.filled == map[] && w3.building == map[] && w3.savers == map[2 := Reading(s)] && !w3.restartDue
    requires !w3.stored.scrub.managed && Build(cfg.o, name, w3.stored).Some?
    requires Build(cfg.o, name, w3.stored) != Build(cfg.o, name, s)
    ensures After(cfg, w0, trace) == Some(w)
    ensures w.savers == map[] && w.building == map[] && !w.restartDue && Stale(cfg.o, w, name)
  {
    SaveEffectExact(s, s);
    hide Build, SaveEffect;
    var built := Build(cfg.o, name, w3.stored).value;
    Then(cfg, w0, ended, w3, Lock(name));
    Then(cfg, w0, ended + [Lock(name)], w3.(building := map[name := w3.stored]), Insert(name));
    var w4 := w3.(filled := map[name := built]);
    assert map[name := w3.stored] - {name} == map[];
    trace := ended + [Lock(name)] + [Insert(name)];
    assert After(cfg, w0, trace) == Some(w4);
    Then(cfg, w0, trace, w4, Write(2, s));
    trace := trace + [Write(2, s)];
    var w5 := w4.(stored := s, savers := map[2 := Finishing(Effect({}, false))]);
    assert w4.savers[2 := Finishing(Effect({}, false))] == w5.savers;
    Then(cfg, w0, trace, w5, End(2));
    trace := trace + [End(2)];
    w := w5.(savers := map[]);
    assert w5.savers - {2} == map[];
  }

  lemma FirstSaveEnds(cfg: Config, w0: World, trace: seq<Action>, w: World, name: CacheName, other: Saver)
    requires After(cfg, w0, trace) == Some(w) && w.filled == map[] && w.building == map[]
    requires w.savers == map[1 := Finishing(Effect({name}, false)), 2 := other]
    ensures After(cfg, w0, trace + [Evict(1, name)] + [End(1)]) == Some(w.(savers := map[2 := other]))
  {
    Then(cfg, w0, trace, w, Evict(1, name));
    var e := Effect({name}, false);
    var next := w.(savers := map[1 := Finishing(Effect({}, false)), 2 := other]);
    assert e.evict - {name} == {} && w.filled - {name} == map[];
    assert w.savers[1 := Finishing(Effect({}, false))] == next.savers;
    assert Next(cfg, w, Evict(1, name)) == next;
    Then(cfg, w0, trace + [Evict(1, name)], next, End(1));
    assert next.savers - {1} == map[2 := other];
  }
}
