/** Whole simulations: the scheduling loop of `Manager::run` (src/main/core/manager.rs:393-501)
    with the controller's choice of windows (src/main/core/controller.rs:88-112). */
module Simulation {
  import opened EventQueue
  import opened Round
  import opened RoundOrder
  import opened Causality
  import opened Runahead
  import opened Workers
  import Cpu
  import opened Options
  import opened Numbers

  const FIRST := Window(Cpu.SIMULATION_START, Cpu.SIMULATION_START + 1)

  // ---- The earliest queued event ----------------------------------------------------------

  ghost function QueuedTimes(w: World): set<Time> {
    set h, e | h in w.hosts && e in w.hosts[h].queue.events :: e.time
  }

  ghost function Earliest(w: World): (m: Option<Time>)
    ensures IsEarliest(w, m)
  {
    var ts := QueuedTimes(w);
    assert forall h, e | Queued(w, h, e) :: e.time in ts;
    if ts == {} then None
    else
      var t := LeastOf(ts);
      TimeIsQueued(w, t);
      Some(t)
  }

  lemma {:induction false} TimeIsQueued(w: World, t: Time)
    requires t in QueuedTimes(w)
    ensures exists h, e :: Queued(w, h, e) && e.time == t
  {
    var h, e :| h in w.hosts && e in w.hosts[h].queue.events && e.time == t;
    assert Queued(w, h, e);
  }

  lemma {:induction false} EarliestUnique(w: World, m: Option<Time>)
    requires IsEarliest(w, m)
    ensures m == Earliest(w)
  {
  }

  // ---- Rounds and runs --------------------------------------------------------------------

  function RunaheadOf(cfg: Config, w: World): nat {
    Get(w.minUsed, cfg.minPossibleLatency, cfg.minRunahead)
  }

  /** The window that follows a round which left the world at `w`. */
  ghost function Following(cfg: Config, w: World): Option<Window> {
    var m := Earliest(w);
    NextWindow(if m.Some? then m.value else EMUTIME_MAX, RunaheadOf(cfg, w), cfg.simEnd)
  }

  ghost predicate LatencyOk(cfg: Config, w: World) {
    w.minUsed.Some? ==> w.minUsed.value >= cfg.minPossibleLatency
  }

  /** A world in which a round with this window may begin. */
  ghost predicate Ready(cfg: Config, win: Window, w: World) {
    && cfg.LatenciesBounded() && cfg.simEnd <= EMUTIME_MAX
    && Inv(cfg, win.end, w)
    && NotBefore(win.start, w)
    && LatencyOk(cfg, w)
    && win.start < win.end
    && forall h | h in w.hosts :: w.hosts[h].mode == Idle
  }

  datatype RoundRecord = RoundRecord(window: Window, before: World, schedule: seq<HostId>, after: World)

  /** One complete round, under some interleaving of its hosts. */
  ghost predicate IsRound(cfg: Config, r: RoundRecord) {
    && Ready(cfg, r.window, r.before)
    && r.after == Run(cfg, r.window.end, r.before, r.schedule)
    && Finished(r.window.end, r.after)
  }

  ghost predicate Linked(cfg: Config, r: RoundRecord, s: RoundRecord) {
    s.before == r.after && Following(cfg, r.after) == Some(s.window)
  }

  /** The rounds of a simulation, so far, from world `w`. */
  ghost predicate IsRun(cfg: Config, w: World, rounds: seq<RoundRecord>) {
    && (|rounds| > 0 ==> rounds[0].window == FIRST && rounds[0].before == w)
    && (forall i | 0 <= i < |rounds| :: IsRound(cfg, rounds[i]))
    && (forall i | 0 < i < |rounds| :: Linked(cfg, rounds[i - 1], rounds[i]))
  }

  /** The loop has left: the controller returned no further window. */
  ghost predicate Ended(cfg: Config, rounds: seq<RoundRecord>) {
    |rounds| > 0 && Following(cfg, rounds[|rounds| - 1].after) == None
  }

  /** Every queued event is due at `t` or later. */
  ghost predicate AllDueFrom(w: World, t: Time) {
    forall h, e | Queued(w, h, e) :: t <= e.time
  }

  // ---- The next round can begin -----------------------------------------------------------

  lemma {:induction false} RunKeepsLatencyOk(cfg: Config, until: Time, w: World, schedule: seq<HostId>)
    requires Inv(cfg, until, w) && LatencyOk(cfg, w) && cfg.LatenciesBounded()
    ensures LatencyOk(cfg, Run(cfg, until, w, schedule))
    decreases |schedule|
  {
    if schedule != [] {
      var h := schedule[0];
      if Enabled(until, w, h) {
        MinUsedAfter(cfg, until, w, h);
        if Effect(cfg, until, w, h).1.Some? {
          SentShape(cfg, until, h, w.hosts[h]);
        }
      } else {
        DisabledStays(cfg, until, w, h);
      }
      hide Step, Inv, LocalStep, HasWork;
      RunKeepsLatencyOk(cfg, until, Step(cfg, until, w, h), schedule[1..]);
    }
  }

  lemma {:induction false} InvLater(cfg: Config, until: Time, later: Time, w: World)
    requires Inv(cfg, until, w) && until <= later && Finished(until, w)
    ensures Inv(cfg, later, w)
  {
    forall h | h in w.hosts ensures HostOk(later, w.hosts[h]) {
      assert HostOk(until, w.hosts[h]);
      hide NoneBefore, LocalIdsBelow, Queue.Valid;
    }
  }

  /** After a complete round, every event left is due at or after its end, and if the controller
      opens another window then that window is later, not empty, ends at the earlier of one runahead
      on and the end of the simulation, and the round can begin in it. */
  lemma {:induction false} RoundAdvances(cfg: Config, r: RoundRecord)
    requires IsRound(cfg, r)
    ensures AllDueFrom(r.after, r.window.end)
    ensures Following(cfg, r.after).Some? ==>
              var next := Following(cfg, r.after).value;
              && r.window.end <= next.start < next.end <= cfg.simEnd
              && next.end == Min(next.start + RunaheadOf(cfg, r.after), cfg.simEnd)
              && Ready(cfg, next, r.after)
    ensures Following(cfg, r.after).None? <==> AllDueFrom(r.after, cfg.simEnd)
  {
    hide *;
    RoundLeaves(cfg, r);
    FollowingIsEarliest(cfg, r.after, r.window.end);
    if Following(cfg, r.after).Some? {
      NextIsReady(cfg, r.window.end, Following(cfg, r.after).value, r.after);
    }
  }

  /** The controller's choice in a world where everything is due from `until`. */
  lemma {:induction false} FollowingIsEarliest(cfg: Config, w: World, until: Time)
    requires AllDueFrom(w, until) && LatencyOk(cfg, w) && cfg.simEnd <= EMUTIME_MAX && cfg.minPossibleLatency > 0
    ensures Following(cfg, w).None? <==> AllDueFrom(w, cfg.simEnd)
    ensures Following(cfg, w).Some? ==>
              var next := Following(cfg, w).value;
              && until <= next.start < next.end <= cfg.simEnd && next.end == Min(next.start + RunaheadOf(cfg, w), cfg.simEnd)
              && IsEarliest(w, Some(next.start))
  {
    hide Earliest;
    var m := Earliest(w);
    NextWindowSpec(if m.Some? then m.value else EMUTIME_MAX, RunaheadOf(cfg, w), cfg.simEnd);
    hide NextWindow, RunaheadOf;
  }

  lemma {:induction false} NextIsReady(cfg: Config, until: Time, next: Window, w: World)
    requires Inv(cfg, until, w) && Finished(until, w) && LatencyOk(cfg, w) && forall h | h in w.hosts :: w.hosts[h].mode == Idle
    requires cfg.LatenciesBounded() && cfg.simEnd <= EMUTIME_MAX
    requires until <= next.start < next.end && IsEarliest(w, Some(next.start))
    ensures Ready(cfg, next, w)
  {
    hide Inv, Finished, LatencyOk, NotBefore, IsEarliest;
    InvLater(cfg, until, next.end, w);
    StartsAtEarliest(next.start, w);
  }

  /** What a complete round leaves behind. */
  lemma {:induction false} RoundLeaves(cfg: Config, r: RoundRecord)
    requires IsRound(cfg, r)
    ensures AllDueFrom(r.after, r.window.end) && LatencyOk(cfg, r.after) && Inv(cfg, r.window.end, r.after)
    ensures Finished(r.window.end, r.after) && forall h | h in r.after.hosts :: r.after.hosts[h].mode == Idle
    ensures cfg.LatenciesBounded() && cfg.simEnd <= EMUTIME_MAX && cfg.minPossibleLatency > 0
  {
    forall h, e | Queued(r.after, h, e) ensures r.window.end <= e.time {
      assert !HasWork(r.window.end, r.after.hosts[h]);
    }
    RunKeepsLatencyOk(cfg, r.window.end, r.before, r.schedule);
    hide Run, HostsOk, KeysOk;
  }

  lemma {:induction false} StartsAtEarliest(start: Time, w: World)
    requires IsEarliest(w, Some(start)) && forall h | h in w.hosts :: w.hosts[h].mode == Idle
    ensures NotBefore(start, w)
  {
    forall h | h in w.hosts ensures NoneBefore(w.hosts[h].queue.events, start) {
      forall e | e in w.hosts[h].queue.events ensures start <= e.time {
        assert Queued(w, h, e);
      }
    }
  }

  /** The world before the first round: hosts as `Host::new` builds them, with only the local
      events that start their applications queued. */
  ghost predicate Initial(cfg: Config, w: World) {
    && cfg.Valid() && cfg.LatenciesBounded() && cfg.simEnd <= EMUTIME_MAX
    && w.hosts.Keys == cfg.hosts && w.minUsed == None
    && forall h | h in w.hosts :: InitialHost(w.hosts[h])
  }

  ghost predicate InitialHost(x: Host) {
    && x.mode == Idle && x.clock == 0 && x.cpu.params.Valid() && x.cpu == Cpu.Init(x.cpu.params)
    && x.queue.lastPopped == Cpu.SIMULATION_START && WellKeyed(x.queue.events)
    && forall e | e in x.queue.events ::
         Cpu.SIMULATION_START <= e.time && e.data.LocalData? && e.data.eventId < x.nextEventId
  }

  lemma {:induction false} InitialIsReady(cfg: Config, w: World)
    requires Initial(cfg, w)
    ensures Ready(cfg, FIRST, w)
  {
    forall h | h in w.hosts ensures HostOk(FIRST.end, w.hosts[h]) {
      assert InitialHost(w.hosts[h]);
    }
    forall h, e | h in w.hosts && e in w.hosts[h].queue.events ensures KeyKnown(w.hosts, e) {
      assert InitialHost(w.hosts[h]);
    }
    assert NotBefore(FIRST.start, w);
  }

  // ---- Progress and completeness ----------------------------------------------------------

  /** Windows are not empty, pairwise disjoint and in increasing order, and all but the fixed first
      one stop by the end of the simulation. */
  lemma {:induction false} WindowsIncrease(cfg: Config, w: World, rounds: seq<RoundRecord>, i: nat, j: nat)
    requires IsRun(cfg, w, rounds) && i < j < |rounds|
    ensures rounds[i].window.start < rounds[i].window.end <= rounds[j].window.start < rounds[j].window.end <= cfg.simEnd
    decreases j
  {
    NextWindowIsLater(cfg, w, rounds, j);
    hide IsRun;
    if i < j - 1 {
      WindowsIncrease(cfg, w, rounds, i, j - 1);
    }
  }

  /** In every run, each window after the first starts at the earliest event left by the round before
      it and ends exactly at the earlier of one runahead later and the end of the simulation. */
  lemma {:induction false} WindowsExact(cfg: Config, w: World, rounds: seq<RoundRecord>, j: nat)
    requires IsRun(cfg, w, rounds) && 0 < j < |rounds|
    ensures var win, before := rounds[j].window, rounds[j - 1].after;
            && IsEarliest(before, Some(win.start))
            && win.end == Min(win.start + RunaheadOf(cfg, before), cfg.simEnd)
  {
    hide *;
    LinkedRounds(cfg, w, rounds, j);
    RoundLeaves(cfg, rounds[j - 1]);
    FollowingIsEarliest(cfg, rounds[j - 1].after, rounds[j - 1].window.end);
  }

  lemma {:induction false} LinkedRounds(cfg: Config, w: World, rounds: seq<RoundRecord>, j: nat)
    requires IsRun(cfg, w, rounds) && 0 < j < |rounds|
    ensures var p := rounds[j - 1];
            && IsRound(cfg, p) && p.window.start < p.window.end
            && rounds[j].before == p.after && Following(cfg, p.after) == Some(rounds[j].window)
  {
    assert IsRound(cfg, rounds[j - 1]) && Linked(cfg, rounds[j - 1], rounds[j]);
    hide Following, Run, Inv, NotBefore;
  }

  lemma {:induction false} NextWindowIsLater(cfg: Config, w: World, rounds: seq<RoundRecord>, j: nat)
    requires IsRun(cfg, w, rounds) && 0 < j < |rounds|
    ensures rounds[j - 1].window.start < rounds[j - 1].window.end <= rounds[j].window.start < rounds[j].window.end <= cfg.simEnd
    ensures rounds[j].window.end <= rounds[j].window.start + RunaheadOf(cfg, rounds[j - 1].after)
    ensures rounds[j].before == rounds[j - 1].after
  {
    hide *;
    LinkedRounds(cfg, w, rounds, j);
    RoundAdvances(cfg, rounds[j - 1]);
    MinIsLess(rounds[j].window.start + RunaheadOf(cfg, rounds[j - 1].after), cfg.simEnd);
  }

  lemma {:induction false} Shorter(cfg: Config, w: World, rounds: seq<RoundRecord>)
    requires IsRun(cfg, w, rounds) && |rounds| > 0
    ensures IsRun(cfg, w, rounds[..|rounds| - 1])
  {
    hide IsRound, Linked;
  }

  /** The scheduling loop terminates: the windows' starts climb towards the end. */
  lemma {:induction false} RoundsBounded(cfg: Config, w: World, rounds: seq<RoundRecord>)
    requires IsRun(cfg, w, rounds)
    ensures |rounds| > 1 ==> |rounds| - 1 <= rounds[|rounds| - 1].window.start - FIRST.start < cfg.simEnd - FIRST.start
  {
    if |rounds| > 1 {
      var init := rounds[..|rounds| - 1];
      NextWindowIsLater(cfg, w, rounds, |rounds| - 1);
      Shorter(cfg, w, rounds);
      RoundsBounded(cfg, w, init);
      if |init| == 1 {
        assert rounds[0].window == FIRST;
      }
      hide IsRun;
    }
  }

  /** When the loop has left, no queue holds an event that should still have run. */
  lemma {:induction false} NothingLeftBehind(cfg: Config, w: World, rounds: seq<RoundRecord>)
    requires IsRun(cfg, w, rounds) && Ended(cfg, rounds)
    ensures AllDueFrom(rounds[|rounds| - 1].after, cfg.simEnd)
  {
    assert IsRound(cfg, rounds[|rounds| - 1]);
    RoundAdvances(cfg, rounds[|rounds| - 1]);
  }

  // ---- Determinism ------------------------------------------------------------------------

  /** Two runs from the same world agree round by round, whatever their interleavings. */
  lemma {:induction false} RunsAgree(cfg: Config, w: World, r: seq<RoundRecord>, s: seq<RoundRecord>, i: nat)
    requires IsRun(cfg, w, r) && IsRun(cfg, w, s) && i < |r| && i < |s|
    ensures r[i].window == s[i].window && r[i].before == s[i].before && r[i].after == s[i].after
  {
    if i > 0 {
      RunsAgree(cfg, w, r, s, i - 1);
      assert Linked(cfg, r[i - 1], r[i]) && Linked(cfg, s[i - 1], s[i]);
    }
    assert IsRound(cfg, r[i]) && IsRound(cfg, s[i]);
    OrderIndependence(cfg, r[i].window.end, r[i].before, r[i].schedule, s[i].schedule);
  }

  lemma {:induction false} Continues(cfg: Config, w: World, rounds: seq<RoundRecord>, i: nat)
    requires IsRun(cfg, w, rounds) && i + 1 < |rounds|
    ensures Following(cfg, rounds[i].after).Some?
  {
    assert Linked(cfg, rounds[i], rounds[i + 1]);
  }

  /** A simulation has one outcome: any two finished runs from the same world have the same number
      of rounds, the same windows and the same final world. */
  lemma {:induction false} SimulationDeterministic(cfg: Config, w: World, r: seq<RoundRecord>, s: seq<RoundRecord>)
    requires IsRun(cfg, w, r) && IsRun(cfg, w, s) && Ended(cfg, r) && Ended(cfg, s)
    ensures |r| == |s|
    ensures forall i | 0 <= i < |r| :: r[i].window == s[i].window && r[i].after == s[i].after
  {
    hide IsRun, Following;
    if |r| < |s| {
      Continues(cfg, w, s, |r| - 1);
      RunsAgree(cfg, w, r, s, |r| - 1);
    } else if |s| < |r| {
      Continues(cfg, w, r, |s| - 1);
      RunsAgree(cfg, w, r, s, |s| - 1);
    }
    forall i | 0 <= i < |r| ensures r[i].window == s[i].window && r[i].after == s[i].after {
      RunsAgree(cfg, w, r, s, i);
    }
  }

  // ---- Causality and lookahead over whole runs ----------------------------------------------

  /** The times at which host `h` pops events in one round. */
  ghost function RoundPops(cfg: Config, r: RoundRecord, h: HostId): seq<Time> {
    if IsRound(cfg, r) && h in r.before.hosts
    then PopTimes(cfg, r.window.end, r.before, r.schedule, h) else []
  }

  /** The times at which host `h` pops events in the whole run. */
  ghost function AllPops(cfg: Config, rounds: seq<RoundRecord>, h: HostId): seq<Time> {
    if rounds == [] then []
    else AllPops(cfg, rounds[..|rounds| - 1], h) + RoundPops(cfg, rounds[|rounds| - 1], h)
  }

  lemma {:induction false} PopWithin(cfg: Config, start: Time, until: Time, w: World, g: HostId, h: HostId)
    requires Inv(cfg, until, w) && NotBefore(start, w) && h in w.hosts
    ensures PopTime(cfg, until, w, g, h).Some? ==> start <= PopTime(cfg, until, w, g, h).value < until
  {
    if PopTime(cfg, until, w, g, h).Some? {
      assert w.hosts[h].queue.Pop().0 in w.hosts[h].queue.events;
    }
    hide Step, HostOk, KeysOk, Queue.Pop;
  }

  predicate Within(ts: seq<Time>, start: Time, until: Time) {
    forall i | 0 <= i < |ts| :: start <= ts[i] < until
  }

  lemma {:induction false} PopsWithin(cfg: Config, start: Time, until: Time, w: World, schedule: seq<HostId>, h: HostId)
    requires Inv(cfg, until, w) && NotBefore(start, w) && start <= until && h in w.hosts
    ensures Within(PopTimes(cfg, until, w, schedule, h), start, until)
    decreases |schedule|
  {
    if schedule != [] {
      var g := schedule[0];
      StepForward(cfg, until, w, g, h);
      StepNotBefore(cfg, start, until, w, g);
      PopWithin(cfg, start, until, w, g, h);
      hide *;
      PopsWithin(cfg, start, until, Step(cfg, until, w, g), schedule[1..], h);
      PopTimesUnfold(cfg, until, w, schedule, h);
      FrontWithin(PopTime(cfg, until, w, g, h), PopTimes(cfg, until, Step(cfg, until, w, g), schedule[1..], h), start, until);
    }
  }

  lemma {:induction false} PopTimesUnfold(cfg: Config, until: Time, w: World, schedule: seq<HostId>, h: HostId)
    requires Inv(cfg, until, w) && h in w.hosts && schedule != []
    ensures h in Step(cfg, until, w, schedule[0]).hosts
    ensures PopTimes(cfg, until, w, schedule, h) ==
            Front(PopTime(cfg, until, w, schedule[0], h), PopTimes(cfg, until, Step(cfg, until, w, schedule[0]), schedule[1..], h))
  {
    StepForward(cfg, until, w, schedule[0], h);
    hide Inv, Step, PopTime;
  }

  function Front(t: Option<Time>, ts: seq<Time>): seq<Time> {
    if t.Some? then [t.value] + ts else ts
  }

  lemma {:induction false} FrontWithin(t: Option<Time>, ts: seq<Time>, start: Time, until: Time)
    requires Within(ts, start, until) && (t.Some? ==> start <= t.value < until)
    ensures Within(Front(t, ts), start, until)
  {
  }

  /** Over a whole simulation, across rounds and for every interleaving, the times at which a host
      pops events never decrease. */
  lemma {:induction false} CausalOverRuns(cfg: Config, w: World, rounds: seq<RoundRecord>, h: HostId)
    requires IsRun(cfg, w, rounds)
    ensures Ascending(AllPops(cfg, rounds, h))
    ensures |rounds| > 0 ==>
              forall i | 0 <= i < |AllPops(cfg, rounds, h)| :: AllPops(cfg, rounds, h)[i] < rounds[|rounds| - 1].window.end
  {
    hide IsRun, RoundPops;
    if |rounds| > 0 {
      var init, last := rounds[..|rounds| - 1], rounds[|rounds| - 1];
      var a, b := AllPops(cfg, init, h), RoundPops(cfg, last, h);
      Shorter(cfg, w, rounds);
      if |init| > 0 {
        NextWindowIsLater(cfg, w, rounds, |rounds| - 1);
      }
      CausalOverRuns(cfg, w, init, h);
      LastPops(cfg, last, h);
      Appended(a, b, last.window.start);
      assert AllPops(cfg, rounds, h) == a + b;
    }
  }

  lemma {:induction false} LastPops(cfg: Config, r: RoundRecord, h: HostId)
    ensures var ts := RoundPops(cfg, r, h);
            Ascending(ts) && forall i | 0 <= i < |ts| :: r.window.start <= ts[i] < r.window.end
  {
    if IsRound(cfg, r) && h in r.before.hosts {
      PopsNeverDecrease(cfg, r.window.end, r.before, r.schedule, h);
      PopsWithin(cfg, r.window.start, r.window.end, r.before, r.schedule, h);
      hide IsRound, PopTimes;
    }
  }

  lemma {:induction false} Appended(a: seq<Time>, b: seq<Time>, t: Time)
    requires Ascending(a) && Ascending(b)
    requires forall i | 0 <= i < |a| :: a[i] <= t
    requires forall i | 0 <= i < |b| :: t <= b[i]
    ensures Ascending(a + b)
  {
  }

  /** With static runahead and no override above the smallest latency, every packet of every round
      of every run is delivered exactly its latency after it was sent. */
  lemma {:induction false} StaticRunaheadIsExact(cfg: Config, w: World, rounds: seq<RoundRecord>, i: nat)
    requires IsRun(cfg, w, rounds) && i < |rounds| && IsRound(cfg, rounds[i])
    requires !cfg.dynamicRunahead && w.minUsed == None
    requires cfg.minRunahead.Some? ==> cfg.minRunahead.value <= cfg.minPossibleLatency
    ensures forall s | s in Packets(cfg, rounds[i].window.end, rounds[i].before, rounds[i].schedule) ::
              s.event.time == s.sentAt + s.delay
  {
    var r := rounds[i];
    WindowLength(cfg, w, rounds, i);
    PacketsExact(cfg, r.window.start, cfg.minPossibleLatency, r.window.end, r.before, r.schedule);
  }

  /** In every run, with any runahead, a packet is late by at most the length of its window. */
  lemma {:induction false} LookaheadBound(cfg: Config, w: World, rounds: seq<RoundRecord>, i: nat)
    requires IsRun(cfg, w, rounds) && i < |rounds| && IsRound(cfg, rounds[i])
    ensures forall s | s in Packets(cfg, rounds[i].window.end, rounds[i].before, rounds[i].schedule) ::
              OnTime(rounds[i].window.end - rounds[i].window.start, s)
    ensures i > 0 ==> rounds[i].window.end - rounds[i].window.start <= RunaheadOf(cfg, rounds[i - 1].after)
  {
    var r := rounds[i];
    PacketsOnTime(cfg, r.window.start, r.window.end - r.window.start, r.window.end, r.before, r.schedule);
    if i > 0 {
      NextWindowIsLater(cfg, w, rounds, i);
    }
  }

  lemma {:induction false} StaticNeverSet(cfg: Config, until: Time, w: World, schedule: seq<HostId>)
    requires Inv(cfg, until, w) && !cfg.dynamicRunahead
    ensures Run(cfg, until, w, schedule).minUsed == w.minUsed
    decreases |schedule|
  {
    if schedule != [] {
      if Enabled(until, w, schedule[0]) {
        MinUsedAfter(cfg, until, w, schedule[0]);
      } else {
        DisabledStays(cfg, until, w, schedule[0]);
      }
      hide Step, Inv, HasWork;
      StaticNeverSet(cfg, until, Step(cfg, until, w, schedule[0]), schedule[1..]);
    }
  }

  lemma {:induction false} WindowLength(cfg: Config, w: World, rounds: seq<RoundRecord>, i: nat)
    requires IsRun(cfg, w, rounds) && i < |rounds|
    requires !cfg.dynamicRunahead && w.minUsed == None
    requires cfg.minRunahead.Some? ==> cfg.minRunahead.value <= cfg.minPossibleLatency
    ensures rounds[i].before.minUsed == None
    ensures rounds[i].window.end <= rounds[i].window.start + cfg.minPossibleLatency
  {
    hide IsRun;
    if i == 0 {
      FirstRound(cfg, w, rounds);
    } else {
      StaticRound(cfg, w, rounds, i);
      NextWindowIsLater(cfg, w, rounds, i);
      WindowLength(cfg, w, rounds, i - 1);
    }
  }

  lemma {:induction false} FirstRound(cfg: Config, w: World, rounds: seq<RoundRecord>)
    requires IsRun(cfg, w, rounds) && |rounds| > 0
    ensures rounds[0].window == FIRST && rounds[0].before == w && cfg.minPossibleLatency > 0
  {
    assert IsRound(cfg, rounds[0]);
  }

  lemma {:induction false} StaticRound(cfg: Config, w: World, rounds: seq<RoundRecord>, i: nat)
    requires IsRun(cfg, w, rounds) && 0 < i < |rounds| && !cfg.dynamicRunahead
    ensures rounds[i - 1].after.minUsed == rounds[i - 1].before.minUsed
  {
    var p := rounds[i - 1];
    assert IsRound(cfg, p);
    StaticNeverSet(cfg, p.window.end, p.before, p.schedule);
  }

  /** The lowest used latency after a round is the minimum over the packets it sent, taken one by
      one - which is what the racing workers leave behind (`RaceRefinesAtomicMinimum`). */
  lemma {:induction false} MinUsedIsMinimum(cfg: Config, until: Time, w: World, schedule: seq<HostId>)
    requires Inv(cfg, until, w) && cfg.dynamicRunahead
    ensures Run(cfg, until, w, schedule).minUsed == FoldMin(w.minUsed, Delays(Packets(cfg, until, w, schedule)))
    decreases |schedule|
  {
    if schedule != [] {
      var h := schedule[0];
      if Enabled(until, w, h) {
        MinUsedAfter(cfg, until, w, h);
      } else {
        DisabledStays(cfg, until, w, h);
      }
      MinUsedIsMinimum(cfg, until, Step(cfg, until, w, h), schedule[1..]);
      var rest := Packets(cfg, until, Step(cfg, until, w, h), schedule[1..]);
      var s := Emitted(cfg, until, w, h);
      hide Step, Inv, HasWork, Effect;
      if s.Some? {
        assert ([s.value] + rest)[1..] == rest;
        assert Delays([s.value] + rest) == [s.value.delay] + Delays(rest);
        assert ([s.value.delay] + Delays(rest))[1..] == Delays(rest);
      }
    }
  }

  function Delays(ss: seq<Sent>): seq<nat> {
    if ss == [] then [] else [ss[0].delay] + Delays(ss[1..])
  }

  lemma {:induction false} FoldMinConcat(m: Option<nat>, a: seq<nat>, b: seq<nat>)
    ensures FoldMin(m, a + b) == FoldMin(FoldMin(m, a), b)
    decreases |a|
  {
    if a == [] {
      assert a + b == b;
    } else {
      assert (a + b)[0] == a[0] && (a + b)[1..] == a[1..] + b;
      FoldMinConcat(OptMin(m, Some(a[0])), a[1..], b);
    }
  }

  /** The latencies of all packets of a run, round by round. */
  ghost function AllDelays(cfg: Config, rounds: seq<RoundRecord>): seq<nat> {
    if rounds == [] then []
    else AllDelays(cfg, rounds[..|rounds| - 1]) + RoundDelays(cfg, rounds[|rounds| - 1])
  }

  ghost function RoundDelays(cfg: Config, r: RoundRecord): seq<nat> {
    if IsRound(cfg, r) then Delays(Packets(cfg, r.window.end, r.before, r.schedule)) else []
  }

  /** Over a whole run with dynamic runahead, the lowest used latency is the minimum over all packets
      of all rounds - what racing workers leave behind that see them all, whatever the round
      (`RaceRefinesAtomicMinimum`). */
  lemma {:induction false} MinUsedOverRun(cfg: Config, w: World, rounds: seq<RoundRecord>)
    requires IsRun(cfg, w, rounds) && |rounds| > 0 && cfg.dynamicRunahead
    ensures rounds[|rounds| - 1].after.minUsed == FoldMin(w.minUsed, AllDelays(cfg, rounds))
    decreases |rounds|
  {
    var init, last := rounds[..|rounds| - 1], rounds[|rounds| - 1];
    LastMinUsed(cfg, w, rounds);
    FoldMinConcat(w.minUsed, AllDelays(cfg, init), RoundDelays(cfg, last));
    if |init| > 0 {
      NextWindowIsLater(cfg, w, rounds, |rounds| - 1);
      Shorter(cfg, w, rounds);
      hide IsRun, RoundDelays;
      MinUsedOverRun(cfg, w, init);
    } else {
      FirstRound(cfg, w, rounds);
    }
  }

  lemma {:induction false} LastMinUsed(cfg: Config, w: World, rounds: seq<RoundRecord>)
    requires IsRun(cfg, w, rounds) && |rounds| > 0 && cfg.dynamicRunahead
    ensures var r := rounds[|rounds| - 1];
            r.after.minUsed == FoldMin(r.before.minUsed, RoundDelays(cfg, r))
  {
    var r := rounds[|rounds| - 1];
    assert IsRound(cfg, r);
    MinUsedIsMinimum(cfg, r.window.end, r.before, r.schedule);
  }

  // ---- Punctual hosts ---------------------------------------------------------------------------

  lemma {:induction false} ParamsOverRun(cfg: Config, w: World, rounds: seq<RoundRecord>, i: nat, h: HostId)
    requires IsRun(cfg, w, rounds) && i < |rounds| && h in w.hosts
    ensures h in rounds[i].before.hosts && rounds[i].before.hosts[h].cpu.params == w.hosts[h].cpu.params
  {
    hide IsRun;
    if i > 0 {
      ParamsOverRun(cfg, w, rounds, i - 1, h);
      ParamsOverRound(cfg, w, rounds, i, h);
    } else {
      FirstRound(cfg, w, rounds);
    }
  }

  lemma {:induction false} ParamsOverRound(cfg: Config, w: World, rounds: seq<RoundRecord>, i: nat, h: HostId)
    requires IsRun(cfg, w, rounds) && 0 < i < |rounds| && h in rounds[i - 1].before.hosts
    ensures h in rounds[i].before.hosts
    ensures rounds[i].before.hosts[h].cpu.params == rounds[i - 1].before.hosts[h].cpu.params
  {
    var p := rounds[i - 1];
    assert IsRound(cfg, p) && Linked(cfg, p, rounds[i]);
    RunKeepsParams(cfg, p.window.end, p.before, p.schedule, h);
    hide Inv, Run, Following;
  }

  /** In every round of every run, a host whose CPU has no threshold starts every event it pops, at
      the event's own time: nothing on it runs late. */
  lemma {:induction false} PunctualOverRuns(cfg: Config, w: World, rounds: seq<RoundRecord>, i: nat, n: nat, h: HostId)
    requires IsRun(cfg, w, rounds) && i < |rounds| && n <= |rounds[i].schedule| && h in w.hosts
    requires w.hosts[h].cpu.params.threshold.None? && IsRound(cfg, rounds[i])
    ensures var v := Run(cfg, rounds[i].window.end, rounds[i].before, rounds[i].schedule[..n]);
            h in v.hosts && (Enabled(rounds[i].window.end, v, h) && v.hosts[h].mode == Idle ==> Starts(cfg, rounds[i].window.end, v, h))
  {
    ParamsOverRun(cfg, w, rounds, i, h);
    PunctualWithoutThreshold(cfg, rounds[i].window.end, rounds[i].before, rounds[i].schedule[..n], h);
  }
}
