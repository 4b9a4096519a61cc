/** What every run of a round keeps: time moves forward on each host, packets respect the
    lookahead, and CPU postponement cannot spin. */
module Causality {
  import opened EventQueue
  import opened Round
  import opened RoundOrder
  import Cpu
  import opened Options
  import opened Numbers

  // ---- Time moves forward -----------------------------------------------------------------

  lemma {:induction false} StepForward(cfg: Config, until: Time, w: World, g: HostId, h: HostId)
    requires Inv(cfg, until, w) && h in w.hosts
    ensures h in Step(cfg, until, w, g).hosts
    ensures Forward(w.hosts[h], Step(cfg, until, w, g).hosts[h])
  {
    if Enabled(until, w, g) {
      StepAt(cfg, until, w, g, h);
      LocalStepOk(cfg, until, g, w.hosts[g]);
      hide Step, LocalStep, HostOk, KeysOk, HasWork;
    }
  }

  /** The time of the event that host `h` pops in this step, if the step is a pop of `h`. */
  function PopTime(cfg: Config, until: Time, w: World, g: HostId, h: HostId): Option<Time>
    requires Inv(cfg, until, w) && h in w.hosts
  {
    if g == h && Enabled(until, w, h) && w.hosts[h].mode == Idle
    then Some(w.hosts[h].queue.Pop().0.time) else None
  }

  /** The times at which host `h` pops events along a schedule, in order. */
  function PopTimes(cfg: Config, until: Time, w: World, schedule: seq<HostId>, h: HostId): seq<Time>
    requires Inv(cfg, until, w) && h in w.hosts
    decreases |schedule|
  {
    if schedule == [] then []
    else
      var t := PopTime(cfg, until, w, schedule[0], h);
      StepForward(cfg, until, w, schedule[0], h);
      var rest := PopTimes(cfg, until, Step(cfg, until, w, schedule[0]), schedule[1..], h);
      if t.Some? then [t.value] + rest else rest
  }

  predicate Ascending(ts: seq<Time>) {
    forall i, j | 0 <= i < j < |ts| :: ts[i] <= ts[j]
  }

  lemma {:induction false} PopIsHighWater(cfg: Config, until: Time, w: World, h: HostId)
    requires Inv(cfg, until, w) && Enabled(until, w, h) && w.hosts[h].mode == Idle
    ensures h in Step(cfg, until, w, h).hosts
    ensures w.hosts[h].queue.lastPopped <= w.hosts[h].queue.Pop().0.time < until
    ensures w.hosts[h].clock <= w.hosts[h].queue.Pop().0.time
    ensures Step(cfg, until, w, h).hosts[h].queue.lastPopped == w.hosts[h].queue.Pop().0.time
  {
    StepAt(cfg, until, w, h, h);
    TakeEventOk(cfg, until, h, w.hosts[h]);
    var e := w.hosts[h].queue.Pop().0;
    assert e in w.hosts[h].queue.events;
    hide Step, TakeEvent, KeysOk, HasWork;
  }

  /** Along every schedule, the times at which a host pops events never decrease, lie before the
      end of the round and never before what it popped earlier. */
  lemma {:induction false} PopsNeverDecrease(cfg: Config, until: Time, w: World, schedule: seq<HostId>, h: HostId)
    requires Inv(cfg, until, w) && h in w.hosts
    ensures var ts := PopTimes(cfg, until, w, schedule, h);
            Ascending(ts) && forall i | 0 <= i < |ts| :: w.hosts[h].queue.lastPopped <= ts[i] < until
    decreases |schedule|
  {
    hide Step, Inv;
    if schedule != [] {
      var g := schedule[0];
      StepForward(cfg, until, w, g, h);
      var v := Step(cfg, until, w, g);
      PopsNeverDecrease(cfg, until, v, schedule[1..], h);
      var t := PopTime(cfg, until, w, g, h);
      if t.Some? {
        PopIsHighWater(cfg, until, w, h);
        var rest := PopTimes(cfg, until, v, schedule[1..], h);
        assert PopTimes(cfg, until, w, schedule, h) == [t.value] + rest;
      }
    }
  }

  /** Along every schedule clocks only move forward, no clock passes the end of the round, and no
      queue ever holds an event before its host's clock or before the last event it popped - even
      though the shim moves the clock by itself between two of its host's locked actions. */
  lemma {:induction false} NothingInThePast(cfg: Config, until: Time, w: World, schedule: seq<HostId>, h: HostId)
    requires Inv(cfg, until, w) && h in w.hosts
    ensures h in Run(cfg, until, w, schedule).hosts
    ensures Forward(w.hosts[h], Run(cfg, until, w, schedule).hosts[h])
    ensures Run(cfg, until, w, schedule).hosts[h].clock <= until
    ensures forall e | e in Run(cfg, until, w, schedule).hosts[h].queue.events ::
              Max(Run(cfg, until, w, schedule).hosts[h].clock, Run(cfg, until, w, schedule).hosts[h].queue.lastPopped) <= e.time
    decreases |schedule|
  {
    if schedule == [] {
      assert HostOk(until, w.hosts[h]);
    } else {
      hide Step, Inv;
      StepForward(cfg, until, w, schedule[0], h);
      NothingInThePast(cfg, until, Step(cfg, until, w, schedule[0]), schedule[1..], h);
    }
  }

  // ---- Lookahead --------------------------------------------------------------------------

  /** The packet emitted by the next step of `h`, if any. */
  function Emitted(cfg: Config, until: Time, w: World, h: HostId): Option<Sent>
    requires Inv(cfg, until, w)
  {
    if Enabled(until, w, h) then Effect(cfg, until, w, h).1 else None
  }

  /** All packets sent along a schedule, in order. */
  function Packets(cfg: Config, until: Time, w: World, schedule: seq<HostId>): seq<Sent>
    requires Inv(cfg, until, w)
    decreases |schedule|
  {
    if schedule == [] then []
    else
      var s := Emitted(cfg, until, w, schedule[0]);
      var rest := Packets(cfg, until, Step(cfg, until, w, schedule[0]), schedule[1..]);
      if s.Some? then [s.value] + rest else rest
  }

  /** In a round that starts at `start`, nothing happens before `start`. */
  ghost predicate NotBefore(start: Time, w: World) {
    forall h | h in w.hosts ::
      NoneBefore(w.hosts[h].queue.events, start) && (w.hosts[h].mode != Idle ==> start <= w.hosts[h].clock)
  }

  lemma {:induction false} TakeEventNotBefore(cfg: Config, start: Time, until: Time, h: HostId, x: Host)
    requires HostOk(until, x) && x.mode == Idle && HasWork(until, x) && NoneBefore(x.queue.events, start)
    ensures NoneBefore(TakeEvent(cfg, h, x).queue.events, start)
    ensures TakeEvent(cfg, h, x).mode != Idle ==> start <= TakeEvent(cfg, h, x).clock
  {
    var (e, rest) := x.queue.Pop();
    assert e in x.queue.events;
    forall f | f in TakeEvent(cfg, h, x).queue.events ensures start <= f.time {
      assert f in rest.events || f.data == e.data;
    }
  }

  lemma {:induction false} ActionNotBefore(cfg: Config, start: Time, until: Time, h: HostId, x: Host)
    requires HostOk(until, x) && x.mode != Idle && NoneBefore(x.queue.events, start) && start <= x.clock
    ensures NoneBefore(LocalStep(cfg, until, h, x).0.queue.events, start)
    ensures start <= LocalStep(cfg, until, h, x).0.clock
  {
    LocalStepOk(cfg, until, h, x);
    var y := LocalStep(cfg, until, h, x).0;
    forall e | e in y.queue.events ensures start <= e.time {
      ActionEventTimes(cfg, until, h, x, e);
    }
  }

  lemma {:induction false} ActionEventTimes(cfg: Config, until: Time, h: HostId, x: Host, e: Event)
    requires HostOk(until, x) && x.mode != Idle
    requires e in LocalStep(cfg, until, h, x).0.queue.events
    ensures e in x.queue.events || x.clock <= e.time
  {
    hide NoneBefore, LocalIdsBelow, Queue.Valid;
    if e !in x.queue.events {
      var (app, action) := cfg.act(h, x.app, x.clock);
      assert action.Schedule?;
    }
  }

  lemma {:induction false} LocalStepNotBefore(cfg: Config, start: Time, until: Time, h: HostId, x: Host)
    requires HostOk(until, x) && HasWork(until, x) && NoneBefore(x.queue.events, start)
    requires x.mode != Idle ==> start <= x.clock
    ensures var y := LocalStep(cfg, until, h, x).0;
            NoneBefore(y.queue.events, start) && (y.mode != Idle ==> start <= y.clock)
  {
    if x.mode == Idle {
      TakeEventNotBefore(cfg, start, until, h, x);
      hide TakeEvent, HostOk, HasWork;
    } else {
      ActionNotBefore(cfg, start, until, h, x);
    }
  }

  lemma {:induction false} HostNotBefore(cfg: Config, start: Time, until: Time, w: World, g: HostId, h: HostId)
    requires Inv(cfg, until, w) && NotBefore(start, w) && start <= until && Enabled(until, w, g)
    requires h in Step(cfg, until, w, g).hosts
    ensures var v := Step(cfg, until, w, g).hosts[h];
            NoneBefore(v.queue.events, start) && (v.mode != Idle ==> start <= v.clock)
  {
    LocalStepNotBefore(cfg, start, until, g, w.hosts[g]);
    StepAt(cfg, until, w, g, h);
    if Effect(cfg, until, w, g).1.Some? {
      SentShape(cfg, until, g, w.hosts[g]);
    }
    hide Step, LocalStep, HostOk, KeysOk, HasWork;
  }

  lemma {:induction false} StepNotBefore(cfg: Config, start: Time, until: Time, w: World, g: HostId)
    requires Inv(cfg, until, w) && NotBefore(start, w) && start <= until
    ensures NotBefore(start, Step(cfg, until, w, g))
  {
    if Enabled(until, w, g) {
      var v := Step(cfg, until, w, g);
      hide Step, LocalStep, HostOk, KeysOk, HasWork, Inv;
      forall h | h in v.hosts
        ensures NoneBefore(v.hosts[h].queue.events, start) && (v.hosts[h].mode != Idle ==> start <= v.hosts[h].clock)
      {
        HostNotBefore(cfg, start, until, w, g, h);
      }
    }
  }

  /** What holds of one packet: it is never early, and it is late only if its own latency is
      shorter than the runahead of the round. */
  predicate OnTime(runahead: nat, s: Sent) {
    s.sentAt + s.delay <= s.event.time <= s.sentAt + Max(s.delay, runahead)
  }

  lemma {:induction false} EmittedOnTime(cfg: Config, start: Time, runahead: nat, until: Time, w: World, h: HostId)
    requires Inv(cfg, until, w) && NotBefore(start, w) && until <= start + runahead
    requires Emitted(cfg, until, w, h).Some?
    ensures OnTime(runahead, Emitted(cfg, until, w, h).value)
    ensures exists ip :: Emitted(cfg, until, w, h).value.delay == cfg.latency(h, ip)
  {
    SentShape(cfg, until, h, w.hosts[h]);
    hide LocalStep, HostOk, KeysOk, HasWork;
  }

  /** Every packet of every run of a round is delivered on time. */
  lemma {:induction false} PacketsOnTime(cfg: Config, start: Time, runahead: nat, until: Time, w: World, schedule: seq<HostId>)
    requires Inv(cfg, until, w) && NotBefore(start, w) && start <= until <= start + runahead
    ensures forall s | s in Packets(cfg, until, w, schedule) :: OnTime(runahead, s)
    ensures cfg.LatenciesBounded() ==>
              forall s | s in Packets(cfg, until, w, schedule) :: s.delay >= cfg.minPossibleLatency
    decreases |schedule|
  {
    if schedule != [] {
      StepNotBefore(cfg, start, until, w, schedule[0]);
      PacketsOnTime(cfg, start, runahead, until, Step(cfg, until, w, schedule[0]), schedule[1..]);
      if Emitted(cfg, until, w, schedule[0]).Some? {
        EmittedOnTime(cfg, start, runahead, until, w, schedule[0]);
      }
      hide Step, Inv;
    }
  }

  /** With a runahead no longer than the smallest latency, every packet takes exactly its latency. */
  lemma {:induction false} PacketsExact(cfg: Config, start: Time, runahead: nat, until: Time, w: World, schedule: seq<HostId>)
    requires Inv(cfg, until, w) && NotBefore(start, w) && start <= until <= start + runahead
    requires cfg.LatenciesBounded() && runahead <= cfg.minPossibleLatency
    ensures forall s | s in Packets(cfg, until, w, schedule) :: s.event.time == s.sentAt + s.delay
  {
    PacketsOnTime(cfg, start, runahead, until, w, schedule);
    hide Inv, Packets;
  }

  // ---- CPU postponement -------------------------------------------------------------------

  /** Events that the busy CPU would still postpone in this round. */
  ghost function Blocked(until: Time, x: Host): set<Event> {
    set e | e in x.queue.events && e.time < x.cpu.available && e.time < until
  }

  /** A turn of `execute` either hands an event whose built-up CPU delay does not exceed the
      threshold to the application, or moves one blocked event to exactly the time the CPU becomes
      available and leaves the application alone. */
  lemma {:induction false} TakeEventCases(cfg: Config, until: Time, h: HostId, x: Host)
    requires HostOk(until, x) && x.mode == Idle && HasWork(until, x)
    ensures var (e, rest) := x.queue.Pop();
            var y := TakeEvent(cfg, h, x);
            && y.cpu.available == x.cpu.available
            && (y.mode == Running ==>
                  Cpu.Delay(Cpu.UpdateTime(x.cpu, e.time)) == 0 &&
                  y.queue == rest && y.clock == e.time && y.app == cfg.start(h, x.app, e))
            && (y.mode != Running ==>
                  e in Blocked(until, x) && y.app == x.app && y.clock == x.clock &&
                  Blocked(until, y) == Blocked(until, x) - {e} &&
                  y.queue == PushLocal(cfg, rest, e.(time := x.cpu.available)))
  {
    TakeEventOk(cfg, until, h, x);
    var (e, rest) := x.queue.Pop();
    var y := TakeEvent(cfg, h, x);
    hide NoneBefore, LocalIdsBelow, HasWork, WellKeyed;
    if y.mode != Running {
      assert y.queue == PushLocal(cfg, rest, e.(time := x.cpu.available));
      assert forall f | f in y.queue.events :: f in rest.events || f.time == x.cpu.available;
      assert forall f | f in rest.events :: f in y.queue.events;
    }
  }

  /** The event that host `h` pops and postpones in this step, if it does. */
  function PostponedBy(cfg: Config, until: Time, w: World, g: HostId, h: HostId): Option<Event>
    requires Inv(cfg, until, w) && h in w.hosts && w.hosts[h].mode == Idle
  {
    StepForward(cfg, until, w, g, h);
    if g == h && Enabled(until, w, h) && Step(cfg, until, w, g).hosts[h].mode == Idle
    then Some(w.hosts[h].queue.Pop().0) else None
  }

  /** The events host `h` postpones along a schedule before it next runs one, as they were popped. */
  function Postponed(cfg: Config, until: Time, w: World, schedule: seq<HostId>, h: HostId): seq<Event>
    requires Inv(cfg, until, w) && h in w.hosts
    decreases |schedule|
  {
    if schedule == [] || w.hosts[h].mode != Idle then []
    else
      StepForward(cfg, until, w, schedule[0], h);
      var e := PostponedBy(cfg, until, w, schedule[0], h);
      var rest := Postponed(cfg, until, Step(cfg, until, w, schedule[0]), schedule[1..], h);
      if e.Some? then [e.value] + rest else rest
  }

  lemma {:induction false} BlockedAfterOwnStep(cfg: Config, until: Time, w: World, h: HostId)
    requires Inv(cfg, until, w) && Enabled(until, w, h) && w.hosts[h].mode == Idle
    ensures h in Step(cfg, until, w, h).hosts
    ensures w.hosts[h].queue.Valid() && w.hosts[h].queue.events != {}
    ensures Step(cfg, until, w, h).hosts[h].mode == Idle ==>
              var e := w.hosts[h].queue.Pop().0;
              e in Blocked(until, w.hosts[h]) && Blocked(until, Step(cfg, until, w, h).hosts[h]) == Blocked(until, w.hosts[h]) - {e}
  {
    var x := w.hosts[h];
    TakeEventCases(cfg, until, h, x);
    StepAt(cfg, until, w, h, h);
    assert Effect(cfg, until, w, h) == (TakeEvent(cfg, h, x), None);
    hide Step, TakeEvent, HostOk, KeysOk, HasWork, Blocked, LocalStep, Queue.Pop;
  }

  lemma {:induction false} BlockedAfterOtherStep(cfg: Config, until: Time, w: World, g: HostId, h: HostId)
    requires Inv(cfg, until, w) && Enabled(until, w, g) && g != h && h in w.hosts
    ensures h in Step(cfg, until, w, g).hosts
    ensures Blocked(until, Step(cfg, until, w, g).hosts[h]) == Blocked(until, w.hosts[h])
  {
    hide Step, HostsOk, KeysOk, HasWork, Blocked;
    StepAt(cfg, until, w, g, h);
    SentIsLate(cfg, until, w, g);
    BlockedIgnoresLate(until, w.hosts[h], Effect(cfg, until, w, g).1, h);
  }

  lemma {:induction false} SentIsLate(cfg: Config, until: Time, w: World, g: HostId)
    requires Inv(cfg, until, w) && Enabled(until, w, g)
    ensures var sent := Effect(cfg, until, w, g).1; sent.Some? ==> until <= sent.value.event.time
  {
    if Effect(cfg, until, w, g).1.Some? {
      SentShape(cfg, until, g, w.hosts[g]);
    }
    hide LocalStep, HostOk, KeysOk, HasWork;
  }

  lemma {:induction false} BlockedIgnoresLate(until: Time, x: Host, sent: Option<Sent>, h: HostId)
    requires sent.Some? ==> until <= sent.value.event.time
    ensures Blocked(until, Plus(x, sent, h)) == Blocked(until, x)
  {
  }

  /** Events of `all`, each at most once. */
  predicate EachOnce(es: seq<Event>, all: set<Event>) {
    (forall i | 0 <= i < |es| :: es[i] in all) && forall i, j | 0 <= i < j < |es| :: es[i] != es[j]
  }

  lemma {:induction false} BlockedAfterStep(cfg: Config, until: Time, w: World, g: HostId, h: HostId)
    requires Inv(cfg, until, w) && h in w.hosts && w.hosts[h].mode == Idle
    ensures h in Step(cfg, until, w, g).hosts
    ensures var e := PostponedBy(cfg, until, w, g, h);
            var before, after := Blocked(until, w.hosts[h]), Blocked(until, Step(cfg, until, w, g).hosts[h]);
            && (e.Some? ==> e.value in before && after == before - {e.value})
            && (e.None? && Step(cfg, until, w, g).hosts[h].mode == Idle ==> after == before)
  {
    StepForward(cfg, until, w, g, h);
    if !Enabled(until, w, g) {
      DisabledStays(cfg, until, w, g);
    } else if g == h {
      BlockedAfterOwnStep(cfg, until, w, h);
    } else {
      BlockedAfterOtherStep(cfg, until, w, g, h);
    }
    hide Step, Inv, Blocked, Queue.Pop;
  }

  lemma {:induction false} PostponedOnce(cfg: Config, until: Time, w: World, schedule: seq<HostId>, h: HostId)
    requires Inv(cfg, until, w) && h in w.hosts
    ensures EachOnce(Postponed(cfg, until, w, schedule, h), Blocked(until, w.hosts[h]))
    decreases |schedule|
  {
    hide Inv, Blocked, PostponedBy;
    if schedule != [] && w.hosts[h].mode == Idle {
      BlockedAfterStep(cfg, until, w, schedule[0], h);
      hide Step;
      PostponedOnce(cfg, until, Step(cfg, until, w, schedule[0]), schedule[1..], h);
    }
  }

  lemma {:induction false} EachOnceSize(es: seq<Event>, all: set<Event>)
    requires EachOnce(es, all)
    ensures |es| <= |all|
  {
    if es != [] {
      EachOnceSize(es[1..], all - {es[0]});
    }
  }

  /** In every schedule, before it runs an event again, a host postpones only events the busy CPU
      blocks, and no event twice, whatever its new time: `execute` cannot spin. */
  lemma {:induction false} PostponementBound(cfg: Config, until: Time, w: World, schedule: seq<HostId>, h: HostId)
    requires Inv(cfg, until, w) && h in w.hosts
    ensures var es := Postponed(cfg, until, w, schedule, h);
            && (forall i | 0 <= i < |es| :: es[i] in Blocked(until, w.hosts[h]))
            && (forall i, j | 0 <= i < j < |es| :: !SameKey(es[i].data, es[j].data))
            && |es| <= |Blocked(until, w.hosts[h])|
  {
    PostponedOnce(cfg, until, w, schedule, h);
    EachOnceSize(Postponed(cfg, until, w, schedule, h), Blocked(until, w.hosts[h]));
    assert HostOk(until, w.hosts[h]);
    hide Postponed, KeysOk, NoneBefore, LocalIdsBelow;
  }

  // ---- Without a CPU threshold ---------------------------------------------------------------

  lemma {:induction false} LocalStepKeepsParams(cfg: Config, until: Time, h: HostId, x: Host)
    requires HostOk(until, x) && HasWork(until, x)
    ensures LocalStep(cfg, until, h, x).0.cpu.params == x.cpu.params
  {
    hide NoneBefore, LocalIdsBelow, Queue.Valid, HasWork;
  }

  lemma {:induction false} StepKeepsParams(cfg: Config, until: Time, w: World, g: HostId, h: HostId)
    requires Inv(cfg, until, w) && h in w.hosts
    ensures h in Step(cfg, until, w, g).hosts
    ensures Step(cfg, until, w, g).hosts[h].cpu.params == w.hosts[h].cpu.params
  {
    if Enabled(until, w, g) {
      StepAt(cfg, until, w, g, h);
      LocalStepKeepsParams(cfg, until, g, w.hosts[g]);
      hide Step, LocalStep, HostOk, KeysOk, HasWork;
    }
  }

  lemma {:induction false} RunKeepsParams(cfg: Config, until: Time, w: World, schedule: seq<HostId>, h: HostId)
    requires Inv(cfg, until, w) && h in w.hosts
    ensures h in Run(cfg, until, w, schedule).hosts
    ensures Run(cfg, until, w, schedule).hosts[h].cpu.params == w.hosts[h].cpu.params
    decreases |schedule|
  {
    if schedule != [] {
      StepKeepsParams(cfg, until, w, schedule[0], h);
      hide Step, Inv;
      RunKeepsParams(cfg, until, Step(cfg, until, w, schedule[0]), schedule[1..], h);
    }
  }

  /** A host whose CPU has no threshold starts every event it pops, at the event's own time. */
  lemma {:induction false} PunctualWithoutThreshold(cfg: Config, until: Time, w: World, schedule: seq<HostId>, h: HostId)
    requires Inv(cfg, until, w) && h in w.hosts && w.hosts[h].cpu.params.threshold.None?
    ensures var v := Run(cfg, until, w, schedule);
            h in v.hosts && (Enabled(until, v, h) && v.hosts[h].mode == Idle ==> Starts(cfg, until, v, h))
  {
    RunKeepsParams(cfg, until, w, schedule, h);
    var v := Run(cfg, until, w, schedule);
    if Enabled(until, v, h) && v.hosts[h].mode == Idle {
      StartsWithoutThreshold(cfg, until, v, h);
    }
  }

  /** The next step of `h` hands the event it pops to the application, at that event's time. */
  ghost predicate Starts(cfg: Config, until: Time, v: World, h: HostId) {
    && Inv(cfg, until, v) && h in v.hosts && v.hosts[h].queue.Valid() && v.hosts[h].queue.events != {}
    && var y := Step(cfg, until, v, h);
       && h in y.hosts && y.hosts[h].mode == Running
       && y.hosts[h].clock == v.hosts[h].queue.Pop().0.time && y.hosts[h].queue == v.hosts[h].queue.Pop().1
       && y.hosts[h].app == cfg.start(h, v.hosts[h].app, v.hosts[h].queue.Pop().0)
  }

  lemma {:induction false} StartsWithoutThreshold(cfg: Config, until: Time, v: World, h: HostId)
    requires Inv(cfg, until, v) && Enabled(until, v, h) && v.hosts[h].mode == Idle && v.hosts[h].cpu.params.threshold.None?
    ensures Starts(cfg, until, v, h)
  {
    var x := v.hosts[h];
    TakeEventCases(cfg, until, h, x);
    Cpu.NoThresholdNoDelay(Cpu.UpdateTime(x.cpu, x.queue.Pop().0.time));
    StepAt(cfg, until, v, h, h);
    assert Effect(cfg, until, v, h) == (TakeEvent(cfg, h, x), None);
    assert TakeEvent(cfg, h, x).mode == Running;
    hide Step, TakeEvent, HostOk, KeysOk, Blocked, LocalStep, Queue.Pop;
  }
}
