/** The minimum next event time that the manager computes after a round
    (src/main/core/manager.rs:427-487, src/main/core/worker.rs:304-320 and 386-397).

    A host reports the head of its queue when its `execute` returns, although other hosts may
    still push packets to it; each worker thread therefore also keeps the earliest packet it sent.
    A schedule here interleaves the hosts' steps with those reports in any order. */
module Workers {
  import opened EventQueue
  import opened Round
  import opened RoundOrder
  import opened Options

  /** Which worker thread runs each host this round, and which slot of
      `thread_next_event_times` each worker writes to (several workers may share one). */
  datatype Layout = Layout(assign: map<HostId, nat>, slotOf: seq<nat>, slots: nat) {
    predicate Valid(cfg: Config) {
      && assign.Keys == cfg.hosts
      && (forall h | h in assign :: assign[h] < |slotOf|)
      && (forall v | 0 <= v < |slotOf| :: slotOf[v] < slots)
    }
  }

  /** `next` holds each worker's `next_event_time`, `slot` the `thread_next_event_times`. */
  datatype Pool = Pool(world: World, next: seq<Option<Time>>, slot: seq<Option<Time>>, reported: set<HostId>, closed: set<nat>)

  datatype Turn =
    | HostTurn(host: HostId)
    | Report(host: HostId)
    | Close(worker: nat)

  ghost predicate PoolOk(cfg: Config, lay: Layout, until: Time, p: Pool) {
    && lay.Valid(cfg)
    && Inv(cfg, until, p.world)
    && |p.next| == |lay.slotOf|
    && |p.slot| == lay.slots
    && p.reported <= cfg.hosts
  }

  function Start(lay: Layout, w: World): Pool {
    Pool(w, seq(|lay.slotOf|, _ => None), seq(lay.slots, _ => None), {}, {})
  }

  /** A locked action of a host, run by its worker. */
  function TakeHostTurn(cfg: Config, lay: Layout, until: Time, p: Pool, h: HostId): (r: Pool)
    requires PoolOk(cfg, lay, until, p)
    ensures PoolOk(cfg, lay, until, r)
  {
    var stepped := p.(world := Step(cfg, until, p.world, h));
    if Enabled(until, p.world, h) && Effect(cfg, until, p.world, h).1.Some? then
      var v := lay.assign[h];
      stepped.(next := p.next[v := OptMin(p.next[v], Some(Effect(cfg, until, p.world, h).1.value.event.time))])
    else stepped
  }

  /** The next move: a step of a host, a host reporting after `execute` returned, or a worker
      adding its earliest sent packet once all its hosts are done. */
  function Take(cfg: Config, lay: Layout, until: Time, p: Pool, t: Turn): (r: Pool)
    requires PoolOk(cfg, lay, until, p)
    ensures PoolOk(cfg, lay, until, r)
  {
    match t
    case HostTurn(h) => TakeHostTurn(cfg, lay, until, p, h)
    case Report(h) =>
      if h !in cfg.hosts || h in p.reported || HasWork(until, p.world.hosts[h]) then p
      else
        assert HostOk(until, p.world.hosts[h]);
        var i := lay.slotOf[lay.assign[h]];
        p.(slot := p.slot[i := OptMin(p.slot[i], p.world.hosts[h].queue.Next())], reported := p.reported + {h})
    case Close(v) =>
      if v >= |lay.slotOf| || v in p.closed || (exists h | h in lay.assign :: lay.assign[h] == v && h !in p.reported) then p
      else
        var i := lay.slotOf[v];
        p.(slot := p.slot[i := OptMin(p.slot[i], p.next[v])], closed := p.closed + {v})
  }

  function Play(cfg: Config, lay: Layout, until: Time, p: Pool, turns: seq<Turn>): (r: Pool)
    requires PoolOk(cfg, lay, until, p)
    ensures PoolOk(cfg, lay, until, r)
    decreases |turns|
  {
    if turns == [] then p else Play(cfg, lay, until, Take(cfg, lay, until, p, turns[0]), turns[1..])
  }

  predicate AllClosed(lay: Layout, p: Pool) {
    forall v | 0 <= v < |lay.slotOf| :: v in p.closed
  }

  /** `thread_next_event_times.iter().filter_map(take).reduce(min)`. */
  function MinSlots(slot: seq<Option<Time>>): Option<Time> {
    if slot == [] then None else OptMin(slot[0], MinSlots(slot[1..]))
  }

  /** `m` is the time of the earliest event queued anywhere, or nothing is queued. */
  ghost predicate IsEarliest(w: World, m: Option<Time>) {
    && (m.Some? ==> exists h, e :: Queued(w, h, e) && e.time == m.value)
    && (forall h, e | Queued(w, h, e) :: m.Some? && m.value <= e.time)
  }

  ghost predicate Queued(w: World, h: HostId, e: Event) {
    h in w.hosts && e in w.hosts[h].queue.events
  }

  // ---- Invariant --------------------------------------------------------------------------

  /** A minimum that stands for a real event, queued somewhere, that this round will not touch. */
  ghost predicate Stands(until: Time, w: World, m: Option<Time>) {
    m.Some? ==> until <= m.value && exists h, e :: Queued(w, h, e) && e.time == m.value
  }

  ghost predicate AllStand(until: Time, w: World, ms: seq<Option<Time>>) {
    forall i | 0 <= i < |ms| :: Stands(until, w, ms[i])
  }

  predicate AtMost(m: Option<Time>, t: Time) {
    m.Some? && m.value <= t
  }

  /** Some slot, or the sent-packet minimum of a worker still open, is as early as `t`. */
  ghost predicate Covered(p: Pool, t: Time) {
    || (exists i | 0 <= i < |p.slot| :: AtMost(p.slot[i], t))
    || (exists v | 0 <= v < |p.next| :: v !in p.closed && AtMost(p.next[v], t))
  }

  ghost predicate ReportsCovered(p: Pool) {
    forall h, e | h in p.reported && Queued(p.world, h, e) :: Covered(p, e.time)
  }

  ghost predicate ReportedDone(until: Time, p: Pool) {
    forall h | h in p.reported :: h in p.world.hosts && !HasWork(until, p.world.hosts[h])
  }

  ghost predicate ClosedDone(lay: Layout, p: Pool) {
    forall h | h in lay.assign && lay.assign[h] in p.closed :: h in p.reported
  }

  ghost predicate PoolInv(cfg: Config, lay: Layout, until: Time, p: Pool) {
    && PoolOk(cfg, lay, until, p)
    && AllStand(until, p.world, p.next) && AllStand(until, p.world, p.slot)
    && ReportsCovered(p) && ReportedDone(until, p) && ClosedDone(lay, p)
  }

  // ---- Steps of hosts ---------------------------------------------------------------------

  /** An event due at or after the end of the round stays where it is. */
  lemma {:induction false} LateStays(cfg: Config, until: Time, w: World, g: HostId, h: HostId, e: Event)
    requires Inv(cfg, until, w) && Queued(w, h, e) && until <= e.time
    ensures Queued(Step(cfg, until, w, g), h, e)
  {
    if Enabled(until, w, g) {
      StepAt(cfg, until, w, g, h);
      if g == h {
        LateStaysLocally(cfg, until, h, w.hosts[h], e);
      }
      hide Step, LocalStep, HostOk, KeysOk, HasWork;
    }
  }

  lemma {:induction false} LateStaysLocally(cfg: Config, until: Time, h: HostId, x: Host, e: Event)
    requires HostOk(until, x) && HasWork(until, x) && e in x.queue.events && until <= e.time
    ensures e in LocalStep(cfg, until, h, x).0.queue.events
  {
    if x.mode == Idle {
      TakeEventOk(cfg, until, h, x);
      var (p, rest) := x.queue.Pop();
      assert e in rest.events;
      hide HostOk, HasWork, Queue.Pop;
    } else {
      hide NoneBefore, LocalIdsBelow, Queue.Valid, HasWork;
    }
  }

  lemma {:induction false} StandsAfterStep(cfg: Config, until: Time, w: World, g: HostId, m: Option<Time>)
    requires Inv(cfg, until, w) && Stands(until, w, m)
    ensures Stands(until, Step(cfg, until, w, g), m)
  {
    if m.Some? {
      var h, e :| Queued(w, h, e) && e.time == m.value;
      LateStays(cfg, until, w, g, h, e);
      hide Step, Inv;
    }
  }

  lemma {:induction false} SentStands(cfg: Config, until: Time, w: World, g: HostId)
    requires Inv(cfg, until, w) && Enabled(until, w, g) && Effect(cfg, until, w, g).1.Some?
    ensures Stands(until, Step(cfg, until, w, g), Some(Effect(cfg, until, w, g).1.value.event.time))
  {
    var s := Effect(cfg, until, w, g).1.value;
    SentIsFresh(cfg, until, w, g);
    LocalStepKeepsInv(cfg, until, w, g);
    PacketFits(cfg, until, World(w.hosts[g := Effect(cfg, until, w, g).0], w.minUsed), s);
    StepAt(cfg, until, w, g, s.dst);
    hide LocalStep, HostOk, KeysOk, HasWork, Step;
    assert Queued(Step(cfg, until, w, g), s.dst, s.event);
  }

  lemma {:induction false} HostTurnStands(cfg: Config, lay: Layout, until: Time, p: Pool, g: HostId)
    requires PoolInv(cfg, lay, until, p)
    ensures var r := TakeHostTurn(cfg, lay, until, p, g);
            AllStand(until, r.world, r.next) && AllStand(until, r.world, r.slot)
  {
    var r := TakeHostTurn(cfg, lay, until, p, g);
    forall i | 0 <= i < |r.slot| ensures Stands(until, r.world, r.slot[i]) {
      StandsAfterStep(cfg, until, p.world, g, p.slot[i]);
    }
    forall i | 0 <= i < |r.next| ensures Stands(until, r.world, r.next[i]) {
      NextAfterTurn(cfg, lay, until, p, g, i);
    }
    hide Step, Inv, Enabled, Effect, Stands;
  }

  lemma {:induction false} NextAfterTurn(cfg: Config, lay: Layout, until: Time, p: Pool, g: HostId, i: nat)
    requires PoolOk(cfg, lay, until, p) && i < |p.next| && Stands(until, p.world, p.next[i])
    ensures Stands(until, Step(cfg, until, p.world, g), TakeHostTurn(cfg, lay, until, p, g).next[i])
  {
    StandsAfterStep(cfg, until, p.world, g, p.next[i]);
    if Enabled(until, p.world, g) && Effect(cfg, until, p.world, g).1.Some? {
      SentStands(cfg, until, p.world, g);
    }
    hide Step, Inv, Enabled, Effect, Stands;
  }

  /** What a queue holds after another host's step. */
  lemma {:induction false} NewlyQueued(cfg: Config, until: Time, w: World, g: HostId, h: HostId, e: Event)
    requires Inv(cfg, until, w) && Queued(Step(cfg, until, w, g), h, e)
    requires h in w.hosts && (g == h ==> !Enabled(until, w, g))
    ensures Queued(w, h, e) || (Enabled(until, w, g) && Effect(cfg, until, w, g).1.Some? && Effect(cfg, until, w, g).1.value.event == e)
  {
    if Enabled(until, w, g) {
      StepAt(cfg, until, w, g, h);
      hide Step, LocalStep, HostOk, KeysOk, HasWork;
    }
  }

  lemma {:induction false} ReportedStayDone(cfg: Config, until: Time, w: World, g: HostId, h: HostId)
    requires Inv(cfg, until, w) && h in w.hosts && !HasWork(until, w.hosts[h])
    ensures h in Step(cfg, until, w, g).hosts && !HasWork(until, Step(cfg, until, w, g).hosts[h])
  {
    if Enabled(until, w, g) {
      StillDisabled(cfg, until, w, h, g);
      hide Step, HasWork;
    }
  }

  lemma {:induction false} HostTurnCovered(cfg: Config, lay: Layout, until: Time, p: Pool, g: HostId, t: Time)
    requires PoolOk(cfg, lay, until, p) && Covered(p, t)
    ensures Covered(TakeHostTurn(cfg, lay, until, p, g), t)
  {
    hide Inv, Step, HasWork, Effect;
    var r := TakeHostTurn(cfg, lay, until, p, g);
    assert r.slot == p.slot && r.closed == p.closed && |r.next| == |p.next|;
    if exists v | 0 <= v < |p.next| :: v !in p.closed && AtMost(p.next[v], t) {
      var v :| 0 <= v < |p.next| && v !in p.closed && AtMost(p.next[v], t);
      assert AtMost(r.next[v], t);
    }
  }

  lemma {:induction false} HostTurnKeepsInv(cfg: Config, lay: Layout, until: Time, p: Pool, g: HostId)
    requires PoolInv(cfg, lay, until, p)
    ensures PoolInv(cfg, lay, until, TakeHostTurn(cfg, lay, until, p, g))
  {
    var r := TakeHostTurn(cfg, lay, until, p, g);
    HostTurnStands(cfg, lay, until, p, g);
    forall h | h in r.reported ensures h in r.world.hosts && !HasWork(until, r.world.hosts[h]) {
      ReportedStayDone(cfg, until, p.world, g, h);
    }
    forall h, e | h in r.reported && Queued(r.world, h, e) ensures Covered(r, e.time) {
      EventCovered(cfg, lay, until, p, g, h, e);
    }
    hide Step, Effect, Enabled, Covered, Stands, HasWork, Inv;
  }

  lemma {:induction false} WasCovered(p: Pool, h: HostId, e: Event)
    requires ReportsCovered(p) && h in p.reported && Queued(p.world, h, e)
    ensures Covered(p, e.time)
  {
  }

  /** A host that has reported is done, and its worker may be closed; one with work has not. */
  lemma {:induction false} StillReported(cfg: Config, lay: Layout, until: Time, p: Pool, g: HostId, h: HostId)
    requires PoolInv(cfg, lay, until, p) && h in p.reported
    ensures h in p.world.hosts && !Enabled(until, p.world, h)
    ensures Enabled(until, p.world, g) ==> g !in p.reported && g in lay.assign && lay.assign[g] !in p.closed
  {
    hide HasWork, Covered, AllStand;
  }

  lemma {:induction false} EventCovered(cfg: Config, lay: Layout, until: Time, p: Pool, g: HostId, h: HostId, e: Event)
    requires PoolInv(cfg, lay, until, p) && h in p.reported
    requires Queued(TakeHostTurn(cfg, lay, until, p, g).world, h, e)
    ensures Covered(TakeHostTurn(cfg, lay, until, p, g), e.time)
  {
    hide Inv, Step, HasWork, Effect, AllStand, ReportsCovered;
    StillReported(cfg, lay, until, p, g, h);
    NewlyQueued(cfg, until, p.world, g, h, e);
    if Queued(p.world, h, e) {
      WasCovered(p, h, e);
      HostTurnCovered(cfg, lay, until, p, g, e.time);
    } else {
      var r := TakeHostTurn(cfg, lay, until, p, g);
      var v := lay.assign[g];
      assert g !in p.reported;
      assert v !in p.closed && AtMost(r.next[v], e.time);
    }
  }

  // ---- Reports ----------------------------------------------------------------------------

  lemma {:induction false} OptMinAtMost(a: Option<Time>, b: Option<Time>, t: Time)
    ensures AtMost(OptMin(a, b), t) <==> AtMost(a, t) || AtMost(b, t)
  {
  }

  /** Lowering one slot keeps everything covered. */
  lemma {:induction false} LowerSlot(p: Pool, i: nat, m: Option<Time>, t: Time)
    requires i < |p.slot|
    ensures var r := p.(slot := p.slot[i := OptMin(p.slot[i], m)]);
            (Covered(p, t) ==> Covered(r, t)) && (AtMost(m, t) ==> Covered(r, t))
  {
    var r := p.(slot := p.slot[i := OptMin(p.slot[i], m)]);
    OptMinAtMost(p.slot[i], m, t);
    if AtMost(m, t) {
      assert AtMost(r.slot[i], t);
    } else if exists j | 0 <= j < |p.slot| :: AtMost(p.slot[j], t) {
      var j :| 0 <= j < |p.slot| && AtMost(p.slot[j], t);
      assert AtMost(r.slot[j], t);
    }
  }

  lemma {:induction false} NextStands(cfg: Config, until: Time, w: World, h: HostId)
    requires Inv(cfg, until, w) && h in w.hosts && !HasWork(until, w.hosts[h])
    ensures w.hosts[h].queue.Valid()
    ensures Stands(until, w, w.hosts[h].queue.Next())
    ensures forall e | e in w.hosts[h].queue.events :: AtMost(w.hosts[h].queue.Next(), e.time)
  {
    assert HostOk(until, w.hosts[h]);
    var q := w.hosts[h].queue;
    if q.events != {} {
      assert Queued(w, h, Least(q.events));
    }
  }

  lemma {:induction false} ReportKeepsInv(cfg: Config, lay: Layout, until: Time, p: Pool, h: HostId)
    requires PoolInv(cfg, lay, until, p)
    ensures PoolInv(cfg, lay, until, Take(cfg, lay, until, p, Report(h)))
  {
    var r := Take(cfg, lay, until, p, Report(h));
    if r != p {
      NextStands(cfg, until, p.world, h);
      var i := lay.slotOf[lay.assign[h]];
      var m := p.world.hosts[h].queue.Next();
      hide Inv, HostOk, Queue.Next, HasWork;
      forall k, e | k in r.reported && Queued(r.world, k, e) ensures Covered(r, e.time) {
        LowerSlot(p, i, m, e.time);
        assert k == h ==> AtMost(m, e.time);
        assert Covered(p.(slot := r.slot), e.time) ==> Covered(r, e.time);
      }
      assert AllStand(until, r.world, r.slot);
    }
  }

  lemma {:induction false} CloseCovered(lay: Layout, p: Pool, v: nat, t: Time)
    requires v < |lay.slotOf| == |p.next| && lay.slotOf[v] < |p.slot| && Covered(p, t)
    ensures Covered(p.(slot := p.slot[lay.slotOf[v] := OptMin(p.slot[lay.slotOf[v]], p.next[v])], closed := p.closed + {v}), t)
  {
    var i := lay.slotOf[v];
    var r := p.(slot := p.slot[i := OptMin(p.slot[i], p.next[v])], closed := p.closed + {v});
    OptMinAtMost(p.slot[i], p.next[v], t);
    if exists j | 0 <= j < |p.slot| :: AtMost(p.slot[j], t) {
      var j :| 0 <= j < |p.slot| && AtMost(p.slot[j], t);
      assert AtMost(r.slot[j], t);
    } else {
      var u :| 0 <= u < |p.next| && u !in p.closed && AtMost(p.next[u], t);
      if u == v {
        assert AtMost(r.slot[i], t);
      } else {
        assert u !in r.closed && AtMost(r.next[u], t);
      }
    }
  }

  lemma {:induction false} CloseKeepsInv(cfg: Config, lay: Layout, until: Time, p: Pool, v: nat)
    requires PoolInv(cfg, lay, until, p)
    ensures PoolInv(cfg, lay, until, Take(cfg, lay, until, p, Close(v)))
  {
    var r := Take(cfg, lay, until, p, Close(v));
    if r != p {
      hide Inv, HasWork;
      forall h, e | h in r.reported && Queued(r.world, h, e) ensures Covered(r, e.time) {
        CloseCovered(lay, p, v, e.time);
      }
      assert AllStand(until, r.world, r.slot);
    }
  }

  lemma {:induction false} TakeKeepsInv(cfg: Config, lay: Layout, until: Time, p: Pool, t: Turn)
    requires PoolInv(cfg, lay, until, p)
    ensures PoolInv(cfg, lay, until, Take(cfg, lay, until, p, t))
  {
    match t
    case HostTurn(h) => HostTurnKeepsInv(cfg, lay, until, p, h);
    case Report(h) => ReportKeepsInv(cfg, lay, until, p, h);
    case Close(v) => CloseKeepsInv(cfg, lay, until, p, v);
  }

  lemma {:induction false} PlayKeepsInv(cfg: Config, lay: Layout, until: Time, p: Pool, turns: seq<Turn>)
    requires PoolInv(cfg, lay, until, p)
    ensures PoolInv(cfg, lay, until, Play(cfg, lay, until, p, turns))
    decreases |turns|
  {
    if turns != [] {
      TakeKeepsInv(cfg, lay, until, p, turns[0]);
      hide Take, PoolInv;
      PlayKeepsInv(cfg, lay, until, Take(cfg, lay, until, p, turns[0]), turns[1..]);
    }
  }

  // ---- The result -------------------------------------------------------------------------

  lemma {:induction false} MinSlotsSpec(slot: seq<Option<Time>>)
    ensures MinSlots(slot).Some? ==> MinSlots(slot) in slot
    ensures forall i, t | 0 <= i < |slot| && AtMost(slot[i], t) :: AtMost(MinSlots(slot), t)
  {
    if slot != [] {
      MinSlotsSpec(slot[1..]);
      forall i, t | 0 <= i < |slot| && AtMost(slot[i], t) ensures AtMost(MinSlots(slot), t) {
        OptMinAtMost(slot[0], MinSlots(slot[1..]), t);
        if i > 0 {
          assert slot[i] == slot[1..][i - 1];
        }
      }
    }
  }

  /** The hosts' turns of a schedule, without the reports. */
  function HostTurns(turns: seq<Turn>): seq<HostId> {
    if turns == [] then []
    else if turns[0].HostTurn? then [turns[0].host] + HostTurns(turns[1..])
    else HostTurns(turns[1..])
  }

  lemma {:induction false} TakeWorld(cfg: Config, lay: Layout, until: Time, p: Pool, t: Turn)
    requires PoolOk(cfg, lay, until, p)
    ensures Take(cfg, lay, until, p, t).world == if t.HostTurn? then Step(cfg, until, p.world, t.host) else p.world
  {
    hide Inv, Step, HasWork;
  }

  lemma {:induction false} PlayIsRun(cfg: Config, lay: Layout, until: Time, p: Pool, turns: seq<Turn>)
    requires PoolOk(cfg, lay, until, p)
    ensures Play(cfg, lay, until, p, turns).world == Run(cfg, until, p.world, HostTurns(turns))
    decreases |turns|
  {
    hide Inv, Step, Take;
    if turns != [] {
      var t := turns[0];
      TakeWorld(cfg, lay, until, p, t);
      PlayIsRun(cfg, lay, until, Take(cfg, lay, until, p, t), turns[1..]);
      if t.HostTurn? {
        assert HostTurns(turns)[1..] == HostTurns(turns[1..]);
      }
    }
  }

  lemma {:induction false} StartOk(cfg: Config, lay: Layout, until: Time, w: World)
    requires lay.Valid(cfg) && Inv(cfg, until, w)
    ensures PoolInv(cfg, lay, until, Start(lay, w))
  {
    hide Inv;
  }

  lemma {:induction false} SlotsAreEarliest(cfg: Config, lay: Layout, until: Time, p: Pool)
    requires PoolInv(cfg, lay, until, p) && AllClosed(lay, p)
    ensures IsEarliest(p.world, MinSlots(p.slot)) && Finished(until, p.world)
  {
    MinSlotsSpec(p.slot);
    assert p.world.hosts.Keys == cfg.hosts;
    forall h | h in p.world.hosts ensures h in p.reported {
      assert lay.assign[h] in p.closed;
    }
    hide Inv, HasWork, MinSlots;
    var m := MinSlots(p.slot);
    if m.Some? {
      var i :| 0 <= i < |p.slot| && p.slot[i] == m;
      assert Stands(until, p.world, p.slot[i]);
    }
    forall h, e | Queued(p.world, h, e) ensures m.Some? && m.value <= e.time {
      assert Covered(p, e.time);
      var j :| 0 <= j < |p.slot| && AtMost(p.slot[j], e.time);
      assert AtMost(m, e.time);
    }
  }

  /** However steps and reports interleave, and whichever worker runs which host, the minimum the
      manager computes after the round is the time of the earliest event in any queue. */
  lemma {:induction false} ExactMinimum(cfg: Config, lay: Layout, until: Time, w: World, turns: seq<Turn>)
    requires lay.Valid(cfg) && Inv(cfg, until, w)
    requires PoolOk(cfg, lay, until, Start(lay, w)) && AllClosed(lay, Play(cfg, lay, until, Start(lay, w), turns))
    ensures var p := Play(cfg, lay, until, Start(lay, w), turns);
            && IsEarliest(p.world, MinSlots(p.slot))
            && Finished(until, p.world)
            && p.world == Run(cfg, until, w, HostTurns(turns))
  {
    StartOk(cfg, lay, until, w);
    PlayKeepsInv(cfg, lay, until, Start(lay, w), turns);
    PlayIsRun(cfg, lay, until, Start(lay, w), turns);
    SlotsAreEarliest(cfg, lay, until, Play(cfg, lay, until, Start(lay, w), turns));
  }
}
