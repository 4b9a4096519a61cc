/** The length of the next round (src/main/core/runahead.rs, src/main/core/controller.rs) and the
    race on the lowest used latency. */
module Runahead {
  import opened EventQueue
  import opened Round
  import opened Options
  import opened Numbers

  const EMUTIME_MAX: Time := 0xFFFF_FFFF_FFFF_FFFE

  /** `Runahead::get`. */
  function Get(minUsed: Option<nat>, minPossible: nat, minConfig: Option<nat>): nat {
    var runahead := if minUsed.Some? then minUsed.value else minPossible;
    Max(runahead, if minConfig.Some? then minConfig.value else 0)
  }

  datatype Window = Window(start: Time, end: Time)

  /** `Controller::manager_finished_current_round`. */
  function NextWindow(minNext: Time, runahead: nat, endTime: Time): Option<Window> {
    var newEnd := Min(if minNext + runahead <= EMUTIME_MAX then minNext + runahead else EMUTIME_MAX, endTime);
    if minNext < newEnd then Some(Window(minNext, newEnd)) else None
  }

  predicate Fits(start: Time, end: Time, runahead: nat, endTime: Time) {
    end <= start + runahead && end <= endTime
  }

  /** There is a next window exactly when an event before the end is left; it starts there, is not
      empty, and is the longest that is neither longer than the runahead nor goes past the end. */
  lemma {:induction false} NextWindowSpec(minNext: Time, runahead: nat, endTime: Time)
    requires runahead > 0 && endTime <= EMUTIME_MAX
    ensures NextWindow(minNext, runahead, endTime).Some? <==> minNext < endTime
    ensures NextWindow(minNext, runahead, endTime).Some? ==>
              var win := NextWindow(minNext, runahead, endTime).value;
              && minNext == win.start < win.end && Fits(win.start, win.end, runahead, endTime)
              && forall t: Time | Fits(win.start, t, runahead, endTime) :: t <= win.end
  {
  }

  // ---- The race on `min_used_latency` -----------------------------------------------------

  type WorkerId = nat

  /** Where a worker is inside `update_lowest_used_latency`: before the check under the read lock,
      or between that and the check under the write lock. */
  datatype Phase = Outside | Reading(latency: nat) | Writing(latency: nat)

  /** `used` records every latency passed to `Worker::update_lowest_used_latency` so far. */
  datatype Race = Race(shared: Option<nat>, cache: map<WorkerId, nat>, phase: map<WorkerId, Phase>, used: set<nat>)

  datatype Move =
    | Use(worker: WorkerId, latency: nat)
    | ReadCheck(worker: WorkerId)
    | WriteCheck(worker: WorkerId)

  const INITIAL := Race(None, map[], map[], {})

  function PhaseOf(r: Race, w: WorkerId): Phase {
    if w in r.phase then r.phase[w] else Outside
  }

  predicate ShouldUpdate(shared: Option<nat>, latency: nat) {
    shared.Some? ==> latency < shared.value
  }

  /** One atomic action of one worker; a move that does not fit the worker's phase is skipped. */
  function Next(dynamic: bool, r: Race, m: Move): Race {
    var w := m.worker;
    match m
    case Use(_, latency) =>
      if PhaseOf(r, w) != Outside then r
      else
        var seen := r.(used := r.used + {latency});
        if w in r.cache && r.cache[w] <= latency then seen
        else seen.(cache := r.cache[w := latency], phase := r.phase[w := if dynamic then Reading(latency) else Outside])
    case ReadCheck(_) =>
      (match PhaseOf(r, w)
       case Reading(latency) => r.(phase := r.phase[w := if ShouldUpdate(r.shared, latency) then Writing(latency) else Outside])
       case _ => r)
    case WriteCheck(_) =>
      (match PhaseOf(r, w)
       case Writing(latency) =>
         r.(phase := r.phase[w := Outside], shared := if ShouldUpdate(r.shared, latency) then Some(latency) else r.shared)
       case _ => r)
  }

  function PlayMoves(dynamic: bool, r: Race, moves: seq<Move>): Race {
    if moves == [] then r
    else Next(dynamic, PlayMoves(dynamic, r, moves[..|moves| - 1]), moves[|moves| - 1])
  }

  predicate Quiescent(r: Race) {
    forall w | w in r.phase :: r.phase[w] == Outside
  }

  /** `u` will not be lost: the shared value is already as low, or a worker still carries one. */
  ghost predicate Covered(r: Race, u: nat) {
    || (r.shared.Some? && r.shared.value <= u)
    || exists w | w in r.phase :: r.phase[w] != Outside && r.phase[w].latency <= u
  }

  ghost predicate RaceInv(r: Race) {
    && (r.shared.Some? ==> r.shared.value in r.used)
    && (forall w | w in r.phase && r.phase[w] != Outside :: r.phase[w].latency in r.used)
    && (forall w | w in r.cache :: r.cache[w] in r.used)
    && (forall u | u in r.used :: Covered(r, u))
  }

  lemma {:induction false} NextCovers(r: Race, m: Move, u: nat)
    requires Covered(r, u)
    ensures Covered(Next(true, r, m), u)
  {
    var n := Next(true, r, m);
    if r.shared.Some? && r.shared.value <= u {
      assert n.shared.Some? && n.shared.value <= u;
    } else {
      var w :| w in r.phase && r.phase[w] != Outside && r.phase[w].latency <= u;
      CarrierStays(r, m, w);
    }
  }

  /** A worker that carries a latency keeps carrying it until the shared value is as low. */
  lemma {:induction false} CarrierStays(r: Race, m: Move, w: WorkerId)
    requires w in r.phase && r.phase[w] != Outside
    ensures var n := Next(true, r, m);
            || (n.shared.Some? && n.shared.value <= r.phase[w].latency)
            || (w in n.phase && n.phase[w] != Outside && n.phase[w].latency == r.phase[w].latency)
  {
  }

  lemma {:induction false} NextKeepsRaceInv(r: Race, m: Move)
    requires RaceInv(r)
    ensures RaceInv(Next(true, r, m))
  {
    var n := Next(true, r, m);
    forall u | u in n.used ensures Covered(n, u) {
      if u in r.used {
        NextCovers(r, m, u);
      } else if m.worker in r.cache && r.cache[m.worker] <= u {
        NextCovers(r, m, r.cache[m.worker]);
      } else {
        assert m.worker in n.phase && n.phase[m.worker] == Reading(u);
      }
    }
  }

  lemma {:induction false} MovesKeepRaceInv(moves: seq<Move>)
    ensures RaceInv(PlayMoves(true, INITIAL, moves))
  {
    if moves != [] {
      MovesKeepRaceInv(moves[..|moves| - 1]);
      NextKeepsRaceInv(PlayMoves(true, INITIAL, moves[..|moves| - 1]), moves[|moves| - 1]);
    }
  }

  /** With dynamic runahead, however the read-check, write-check and cache steps of the workers
      interleave, once no update is in flight the shared value is the minimum of all latencies used. */
  lemma {:induction false} LatencyMinimum(moves: seq<Move>)
    requires Quiescent(PlayMoves(true, INITIAL, moves))
    ensures var r := PlayMoves(true, INITIAL, moves);
            && (r.shared.None? <==> r.used == {})
            && (r.shared.Some? ==> r.shared.value in r.used && forall u | u in r.used :: r.shared.value <= u)
  {
    MovesKeepRaceInv(moves);
    var r := PlayMoves(true, INITIAL, moves);
    forall u | u in r.used ensures r.shared.Some? && r.shared.value <= u {
      assert Covered(r, u);
    }
  }

  /** With static runahead the shared value is never set. */
  lemma {:induction false} StaticNeverUpdates(moves: seq<Move>)
    ensures PlayMoves(false, INITIAL, moves).shared == None
    ensures Quiescent(PlayMoves(false, INITIAL, moves))
  {
    if moves != [] {
      StaticNeverUpdates(moves[..|moves| - 1]);
    }
  }

  /** Once set, the shared value - and with it the runahead - only ever decreases. */
  lemma {:induction false} RunaheadNonIncreasing(dynamic: bool, r: Race, moves: seq<Move>, minPossible: nat, minConfig: Option<nat>)
    requires r.shared.Some?
    ensures PlayMoves(dynamic, r, moves).shared.Some?
    ensures Get(PlayMoves(dynamic, r, moves).shared, minPossible, minConfig) <= Get(r.shared, minPossible, minConfig)
  {
    if moves != [] {
      RunaheadNonIncreasing(dynamic, r, moves[..|moves| - 1], minPossible, minConfig);
    }
  }

  /** At every point of every run the runahead is at least the smallest latency, so positive, and at
      least the configured bound; it exceeds that bound only by being a latency. */
  lemma {:induction false} RunaheadBounds(moves: seq<Move>, minPossible: nat, minConfig: Option<nat>)
    requires minPossible > 0
    requires forall i | 0 <= i < |moves| :: moves[i].Use? ==> moves[i].latency >= minPossible
    ensures var r := PlayMoves(true, INITIAL, moves);
            var runahead := Get(r.shared, minPossible, minConfig);
            && runahead >= minPossible
            && (minConfig.Some? ==> runahead >= minConfig.value)
            && (runahead in r.used || runahead == minPossible || (minConfig.Some? && runahead == minConfig.value))
  {
    MovesKeepRaceInv(moves);
    UsedBound(moves, minPossible);
  }

  lemma {:induction false} UsedBound(moves: seq<Move>, minPossible: nat)
    requires forall i | 0 <= i < |moves| :: moves[i].Use? ==> moves[i].latency >= minPossible
    ensures forall u | u in PlayMoves(true, INITIAL, moves).used :: u >= minPossible
  {
    if moves != [] {
      UsedBound(moves[..|moves| - 1], minPossible);
    }
  }

  /** Once a latency has been used, and no update is in flight, the runahead is the larger of the
      lowest latency used and the configured bound - the smallest possible latency no longer counts. */
  lemma {:induction false} RunaheadIsLowestUsed(moves: seq<Move>, minPossible: nat, minConfig: Option<nat>, u: nat)
    requires Quiescent(PlayMoves(true, INITIAL, moves)) && u in PlayMoves(true, INITIAL, moves).used
    ensures var r := PlayMoves(true, INITIAL, moves);
            var runahead := Get(r.shared, minPossible, minConfig);
            exists low :: low in r.used && (forall v | v in r.used :: low <= v)
                          && runahead == Max(low, if minConfig.Some? then minConfig.value else 0)
  {
    LatencyMinimum(moves);
    var low := PlayMoves(true, INITIAL, moves).shared.value;
    assert low in PlayMoves(true, INITIAL, moves).used;
  }

  // ---- The race refines an atomic minimum -------------------------------------------------

  /** The minimum taken atomically, packet by packet, as the round model does. */
  function FoldMin(m: Option<nat>, ds: seq<nat>): Option<nat>
    decreases ds
  {
    if ds == [] then m else FoldMin(OptMin(m, Some(ds[0])), ds[1..])
  }

  lemma {:induction false} FoldMinSpec(m: Option<nat>, ds: seq<nat>)
    ensures FoldMin(m, ds).None? <==> m.None? && ds == []
    ensures FoldMin(m, ds).Some? ==> FoldMin(m, ds) == m || FoldMin(m, ds).value in ds
    ensures FoldMin(m, ds).Some? ==> (m.Some? ==> FoldMin(m, ds).value <= m.value) && forall d | d in ds :: FoldMin(m, ds).value <= d
    decreases ds
  {
    if ds != [] {
      assert ds == [ds[0]] + ds[1..];
      FoldMinSpec(OptMin(m, Some(ds[0])), ds[1..]);
    }
  }

  lemma {:induction false} RaceRefinesAtomicMinimum(moves: seq<Move>, ds: seq<nat>)
    requires Quiescent(PlayMoves(true, INITIAL, moves))
    requires PlayMoves(true, INITIAL, moves).used == set d | d in ds
    ensures PlayMoves(true, INITIAL, moves).shared == FoldMin(None, ds)
  {
    LatencyMinimum(moves);
    FoldMinSpec(None, ds);
    var r, f := PlayMoves(true, INITIAL, moves), FoldMin(None, ds);
    hide PlayMoves, FoldMin;
    if ds != [] {
      assert ds[0] in r.used && f.value in r.used;
      assert r.shared.value in ds;
    } else {
      assert r.used == {};
    }
  }
}
