/** The scheduling loop itself (src/main/core/manager.rs:392-501). */
module Manager {
  import opened EventQueue
  import opened Round
  import opened Runahead
  import opened Workers
  import opened Simulation
  import opened Options
  import opened Numbers

  /** What follows `rounds` in a run from `first`: the window `win`, played from world `w`. */
  ghost predicate NextUp(cfg: Config, first: World, rounds: seq<RoundRecord>, win: Window, w: World) {
    if rounds == [] then win == FIRST && w == first
    else w == rounds[|rounds| - 1].after && Following(cfg, w) == Some(win)
  }

  ghost predicate Reached(cfg: Config, first: World, win: Window, w: World) {
    exists rounds :: IsRun(cfg, first, rounds) && NextUp(cfg, first, rounds, win, w)
  }

  /** What the scheduler may do: in every round that a run from `first` comes to, hosts are dealt to
      workers somehow and their steps and reports interleave somehow, but every worker gets through
      its hosts. */
  ghost predicate Finishes(cfg: Config, slots: nat, first: World, interleave: (World, Window) -> (Layout, seq<Turn>)) {
    forall w, win | Reached(cfg, first, win, w) && Ready(cfg, win, w) :: RoundFinishes(cfg, slots, interleave, w, win)
  }

  ghost predicate RoundFinishes(cfg: Config, slots: nat, interleave: (World, Window) -> (Layout, seq<Turn>), w: World, win: Window)
    requires Ready(cfg, win, w)
  {
    var (lay, turns) := interleave(w, win);
    && lay.Valid(cfg) && lay.slots == slots
    && PoolOk(cfg, lay, win.end, Start(lay, w))
    && AllClosed(lay, Play(cfg, lay, win.end, Start(lay, w), turns))
  }

  lemma {:induction false} OptMinAssoc(a: Option<nat>, b: Option<nat>, c: Option<nat>)
    ensures OptMin(OptMin(a, b), c) == OptMin(a, OptMin(b, c))
  {
  }

  lemma {:induction false} PlayOneMore(cfg: Config, lay: Layout, until: Time, p: Pool, turns: seq<Turn>, i: nat)
    requires PoolOk(cfg, lay, until, p) && i < |turns|
    ensures Play(cfg, lay, until, p, turns[..i + 1]) == Take(cfg, lay, until, Play(cfg, lay, until, p, turns[..i]), turns[i])
    decreases i
  {
    hide Take, PoolOk;
    if i == 0 {
      assert turns[..1][0] == turns[0] && turns[..1][1..] == [];
    } else {
      var rest := turns[1..];
      PlayOneMore(cfg, lay, until, Take(cfg, lay, until, p, turns[0]), rest, i - 1);
      assert turns[..i + 1][1..] == rest[..i] && turns[..i][1..] == rest[..i - 1] && rest[i - 1] == turns[i];
    }
  }

  class Manager {
    const cfg: Config
    var world: World
    var window: Option<Window>
    const slots: array<Option<Time>>

    constructor (cfg: Config, world: World, parallelism: nat)
      ensures this.cfg == cfg && this.world == world && this.window == Some(FIRST)
      ensures fresh(slots) && slots.Length == parallelism && forall i | 0 <= i < slots.Length :: slots[i] == None
    {
      this.cfg := cfg;
      this.world := world;
      this.window := Some(FIRST);
      this.slots := new Option<Time>[parallelism](_ => None);
    }

    /** `thread_next_event_times.iter().filter_map(|x| x.take()).reduce(min)`: the minimum over the
        slots, each of which is reset. */
    method TakeMinimum() returns (m: Option<Time>)
      modifies slots
      ensures m == MinSlots(old(slots[..]))
      ensures forall i | 0 <= i < slots.Length :: slots[i] == None
    {
      ghost var all := slots[..];
      m := None;
      var i := 0;
      while i < slots.Length
        invariant 0 <= i <= slots.Length
        invariant OptMin(m, MinSlots(all[i..])) == MinSlots(all)
        invariant forall j | 0 <= j < i :: slots[j] == None
        invariant slots[i..] == all[i..]
      {
        assert slots[i] == all[i] && all[i..][1..] == all[i + 1..];
        OptMinAssoc(m, all[i], MinSlots(all[i + 1..]));
        m := OptMin(m, slots[i]);
        slots[i] := None;
        i := i + 1;
      }
    }

    /** The parallel section of one round. */
    method PlayRound(until: Time, lay: Layout, turns: seq<Turn>)
      requires PoolOk(cfg, lay, until, Start(lay, world)) && lay.slots == slots.Length
      modifies this`world, slots
      ensures world == Play(cfg, lay, until, Start(lay, old(world)), turns).world
      ensures slots[..] == Play(cfg, lay, until, Start(lay, old(world)), turns).slot
    {
      var pool := Start(lay, world);
      ghost var start := pool;
      var i := 0;
      while i < |turns|
        invariant 0 <= i <= |turns|
        invariant PoolOk(cfg, lay, until, start) && PoolOk(cfg, lay, until, pool)
        invariant pool == Play(cfg, lay, until, start, turns[..i])
      {
        PlayOneMore(cfg, lay, until, start, turns, i);
        pool := Take(cfg, lay, until, pool, turns[i]);
        i := i + 1;
      }
      assert turns[..i] == turns;
      world := pool.world;
      forall j | 0 <= j < slots.Length {
        slots[j] := pool.slot[j];
      }
    }

    /** One iteration of the scheduling loop. */
    method Round(interleave: (World, Window) -> (Layout, seq<Turn>)) returns (ghost r: RoundRecord)
      requires window.Some? && Ready(cfg, window.value, world)
      requires RoundFinishes(cfg, slots.Length, interleave, world, window.value)
      modifies this, slots
      ensures r.before == old(world) && r.window == old(window.value) && r.after == world
      ensures IsRound(cfg, r) && window == Following(cfg, world)
    {
      var win := window.value;
      var (lay, turns) := interleave(world, win);
      ghost var before := world;
      ExactMinimum(cfg, lay, win.end, world, turns);
      PlayRound(win.end, lay, turns);
      var m := TakeMinimum();
      EarliestUnique(world, m);
      window := NextWindow(if m.Some? then m.value else EMUTIME_MAX, RunaheadOf(cfg, world), cfg.simEnd);
      r := RoundRecord(win, before, HostTurns(turns), world);
    }

    /** `Manager::run`: rounds until the controller opens no further window.  What it leaves behind
        is a finished run, hence - by `SimulationDeterministic` - the only possible outcome. */
    method Run(interleave: (World, Window) -> (Layout, seq<Turn>)) returns (ghost rounds: seq<RoundRecord>)
      requires window == Some(FIRST) && Initial(cfg, world)
      requires Finishes(cfg, slots.Length, world, interleave)
      modifies this, slots
      ensures IsRun(cfg, old(world), rounds) && Ended(cfg, rounds)
      ensures world == rounds[|rounds| - 1].after && AllDueFrom(world, cfg.simEnd)
    {
      rounds := [];
      ghost var first := world;
      GoingStarts(cfg, first);
      hide *;
      while window.Some?
        invariant Going(cfg, first, rounds, window, world)
        decreases Remaining(cfg, window)
      {
        GoingFacts(cfg, slots.Length, first, interleave, rounds, window.value, world);
        ghost var r := Round(interleave);
        GoingOn(cfg, first, rounds, r);
        rounds := rounds + [r];
      }
      GoingEnds(cfg, first, rounds, world);
    }
  }

  /** Where the loop is after `rounds`: about to play `window` from `w`, or done. */
  ghost predicate Going(cfg: Config, first: World, rounds: seq<RoundRecord>, window: Option<Window>, w: World) {
    && IsRun(cfg, first, rounds)
    && (window.Some? ==> Ready(cfg, window.value, w) && NextUp(cfg, first, rounds, window.value, w))
    && (window.None? ==> rounds != [] && w == rounds[|rounds| - 1].after && Following(cfg, w) == None)
  }

  lemma {:induction false} GoingStarts(cfg: Config, first: World)
    requires Initial(cfg, first)
    ensures Going(cfg, first, [], Some(FIRST), first)
  {
    InitialIsReady(cfg, first);
    hide Ready, Initial;
  }

  lemma {:induction false} GoingFacts(cfg: Config, slots: nat, first: World, interleave: (World, Window) -> (Layout, seq<Turn>),
                                      rounds: seq<RoundRecord>, win: Window, w: World)
    requires Finishes(cfg, slots, first, interleave) && Going(cfg, first, rounds, Some(win), w)
    ensures Ready(cfg, win, w) && RoundFinishes(cfg, slots, interleave, w, win) && NextUp(cfg, first, rounds, win, w)
  {
    hide IsRun, Ready, RoundFinishes, NextUp;
    assert Reached(cfg, first, win, w);
  }

  lemma {:induction false} GoingOn(cfg: Config, first: World, rounds: seq<RoundRecord>, r: RoundRecord)
    requires Going(cfg, first, rounds, Some(r.window), r.before) && IsRound(cfg, r)
    ensures Going(cfg, first, rounds + [r], Following(cfg, r.after), r.after)
    ensures Remaining(cfg, Following(cfg, r.after)) < Remaining(cfg, Some(r.window))
  {
    hide IsRun, IsRound, Following, Ready, Remaining;
    Extended(cfg, first, rounds, r);
    Lessened(cfg, r);
  }

  lemma {:induction false} GoingEnds(cfg: Config, first: World, rounds: seq<RoundRecord>, w: World)
    requires Going(cfg, first, rounds, None, w)
    ensures IsRun(cfg, first, rounds) && Ended(cfg, rounds) && |rounds| > 0
    ensures w == rounds[|rounds| - 1].after && AllDueFrom(w, cfg.simEnd)
  {
    hide IsRun, Following, AllDueFrom;
    NothingLeftBehind(cfg, first, rounds);
  }

  /** What is left of the simulation when `window` is to be played next. */
  function Remaining(cfg: Config, window: Option<Window>): nat {
    if window.None? then 0 else 1 + Max(cfg.simEnd - Min(window.value.start, cfg.simEnd), 0)
  }

  /** A further round makes a longer run. */
  lemma {:induction false} Extended(cfg: Config, w: World, rounds: seq<RoundRecord>, r: RoundRecord)
    requires IsRun(cfg, w, rounds) && IsRound(cfg, r)
    requires rounds == [] ==> r.window == FIRST && r.before == w
    requires rounds != [] ==> r.before == rounds[|rounds| - 1].after && Following(cfg, r.before) == Some(r.window)
    ensures IsRun(cfg, w, rounds + [r])
  {
    hide IsRound, Following;
  }

  /** It leaves less of the simulation. */
  lemma {:induction false} Lessened(cfg: Config, r: RoundRecord)
    requires IsRound(cfg, r)
    ensures Following(cfg, r.after).Some? ==> Ready(cfg, Following(cfg, r.after).value, r.after)
    ensures Remaining(cfg, Following(cfg, r.after)) < Remaining(cfg, Some(r.window))
  {
    assert r.window.start < r.window.end;
    hide IsRound, Following, Ready;
    RoundAdvances(cfg, r);
  }
}
