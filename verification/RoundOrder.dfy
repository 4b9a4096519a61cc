/** Order independence: however the worker threads interleave the hosts of a round, the round
    ends in the same world (src/main/core/manager.rs:427-460). */
module RoundOrder {
  import opened EventQueue
  import opened Round
  import Cpu
  import opened Options

  // ---- A packet that arrives mid-round changes nothing the receiver can see ------------------

  lemma {:induction false} CapIgnoresLate(until: Time, q: Queue, p: Event)
    requires q.Valid() && q.lastPopped <= p.time && q.Push(p).Valid() && until <= p.time
    ensures RunaheadCap(until, q.Push(p)) == RunaheadCap(until, q)
  {
    var a, b := RunaheadCap(until, q), RunaheadCap(until, q.Push(p));
    assert forall e | e in q.events :: e in q.Push(p).events;
    assert forall e | e in q.Push(p).events :: e in q.events || e == p;
  }

  lemma {:induction false} DispatchFrame(cfg: Config, h: HostId, x: Host, e: Event, rest: Queue, p: Event)
    requires rest.lastPopped <= e.time && rest.lastPopped <= p.time && x.queue.lastPopped <= p.time
    ensures Dispatch(cfg, h, x.Receive(p), e, rest.Push(p)) == Dispatch(cfg, h, x, e, rest).Receive(p)
  {
    var later := e.(time := e.time + Cpu.Delay(Cpu.UpdateTime(x.cpu, e.time)));
    PushTwice(rest, p, later);
  }

  lemma {:induction false} TakeEventFrame(cfg: Config, until: Time, h: HostId, x: Host, p: Event)
    requires HostOk(until, x) && x.mode == Idle && HasWork(until, x) && Fresh(until, x, p)
    requires HostOk(until, x.Receive(p))
    ensures TakeEvent(cfg, h, x).queue.lastPopped <= p.time
    ensures TakeEvent(cfg, h, x.Receive(p)) == TakeEvent(cfg, h, x).Receive(p)
  {
    TakeEventOk(cfg, until, h, x);
    var (e, rest) := x.queue.Pop();
    assert e.time < until;
    hide NoneBefore, LocalIdsBelow, HasWork, Dispatch, WellKeyed;
    PopIgnoresLater(x.queue, p);
    DispatchFrame(cfg, h, x, e, rest, p);
  }

  lemma {:induction false} ScheduleFrame(cfg: Config, x: Host, delay: nat, task: Task, p: Event)
    requires x.queue.lastPopped <= x.clock && x.queue.lastPopped <= p.time
    ensures ScheduleLocal(cfg, x, delay, task).queue.lastPopped == x.queue.lastPopped
    ensures ScheduleLocal(cfg, x.Receive(p), delay, task) == ScheduleLocal(cfg, x, delay, task).Receive(p)
  {
    PushTwice(x.queue, p, Event(x.clock + delay, LocalData(task, x.nextEventId)));
  }

  lemma {:induction false} SendFrame(cfg: Config, until: Time, h: HostId, x: Host, dst: Ip, packet: Packet, p: Event)
    requires x.queue.lastPopped <= p.time
    ensures SendPacket(cfg, until, h, x, dst, packet).0.queue == x.queue
    ensures SendPacket(cfg, until, h, x.Receive(p), dst, packet) ==
            (SendPacket(cfg, until, h, x, dst, packet).0.Receive(p), SendPacket(cfg, until, h, x, dst, packet).1)
  {
  }

  lemma {:induction false} PerformFrame(cfg: Config, until: Time, cap: Time, h: HostId, x: Host, action: Action, p: Event)
    requires x.queue.lastPopped <= x.clock && x.queue.lastPopped <= p.time && x.cpu.params.Valid()
    ensures Perform(cfg, until, cap, h, x, action).0.queue.lastPopped == x.queue.lastPopped
    ensures Perform(cfg, until, cap, h, x.Receive(p), action) ==
            (Perform(cfg, until, cap, h, x, action).0.Receive(p), Perform(cfg, until, cap, h, x, action).1)
  {
    if action.Schedule? {
      ScheduleFrame(cfg, x, action.delay, action.task, p);
    } else if action.Send? {
      SendFrame(cfg, until, h, x, action.dst, action.packet, p);
    }
    hide ScheduleLocal, SendPacket, Cpu.AddDelay;
  }

  lemma {:induction false} RunningFrame(cfg: Config, until: Time, h: HostId, x: Host, p: Event)
    requires HostOk(until, x) && x.mode == Running && Fresh(until, x, p)
    requires HostOk(until, x.Receive(p))
    ensures LocalStep(cfg, until, h, x).0.queue.lastPopped <= p.time
    ensures LocalStep(cfg, until, h, x.Receive(p)) ==
            (LocalStep(cfg, until, h, x).0.Receive(p), LocalStep(cfg, until, h, x).1)
  {
    CapIgnoresLate(until, x.queue, p);
    hide NoneBefore, LocalIdsBelow, Queue.Valid, RunaheadCap, Perform;
    var (app, action) := cfg.act(h, x.app, x.clock);
    PerformFrame(cfg, until, RunaheadCap(until, x.queue), h, x.(app := app), action, p);
  }

  /** Whatever a host does next, it does the same with a late packet already in its queue. */
  lemma {:induction false} LocalStepFrame(cfg: Config, until: Time, h: HostId, x: Host, p: Event)
    requires HostOk(until, x) && HasWork(until, x) && Fresh(until, x, p)
    ensures HostOk(until, x.Receive(p)) && HasWork(until, x.Receive(p))
    ensures LocalStep(cfg, until, h, x).0.queue.lastPopped <= p.time
    ensures LocalStep(cfg, until, h, x.Receive(p)) ==
            (LocalStep(cfg, until, h, x).0.Receive(p), LocalStep(cfg, until, h, x).1)
  {
    ReceiveKeepsOk(until, x, p);
    ReceiveKeepsWork(until, x, p);
    hide HostOk, HasWork, TakeEvent, RunaheadCap, Perform;
    if x.mode == Idle {
      TakeEventFrame(cfg, until, h, x, p);
    } else if x.mode == Running {
      RunningFrame(cfg, until, h, x, p);
    } else {
      ShimFrame(cfg, until, h, x, p);
    }
  }

  lemma {:induction false} ShimFrame(cfg: Config, until: Time, h: HostId, x: Host, p: Event)
    requires HostOk(until, x) && x.mode == InShim && Fresh(until, x, p)
    requires HostOk(until, x.Receive(p))
    ensures LocalStep(cfg, until, h, x).0.queue.lastPopped <= p.time
    ensures LocalStep(cfg, until, h, x.Receive(p)) ==
            (LocalStep(cfg, until, h, x).0.Receive(p), LocalStep(cfg, until, h, x).1)
  {
    hide NoneBefore, LocalIdsBelow, Queue.Valid;
  }


  lemma {:induction false} ReceiveKeepsWork(until: Time, x: Host, p: Event)
    requires x.queue.lastPopped <= p.time && until <= p.time
    ensures HasWork(until, x.Receive(p)) == HasWork(until, x)
  {
    if x.mode == Idle {
      if HasWork(until, x) {
        var e :| e in x.queue.events && e.time < until;
        assert e in x.Receive(p).queue.events;
      }
    }
  }

  // ---- Two hosts' steps commute -----------------------------------------------------------

  /** What the step of `h` does to the world, as a value: the new host and the packet. */
  function Effect(cfg: Config, until: Time, w: World, h: HostId): (Host, Option<Sent>)
    requires Inv(cfg, until, w) && Enabled(until, w, h)
  {
    LocalStep(cfg, until, h, w.hosts[h])
  }

  /** Host `k` once it has received what was sent to it. */
  function Plus(x: Host, sent: Option<Sent>, k: HostId): Host {
    if sent.Some? && sent.value.dst == k && x.queue.lastPopped <= sent.value.event.time
    then x.Receive(sent.value.event) else x
  }

  lemma {:induction false} PlusTwice(x: Host, p: Option<Sent>, q: Option<Sent>, k: HostId)
    ensures Plus(Plus(x, p, k), q, k) == Plus(Plus(x, q, k), p, k)
  {
    if p.Some? && q.Some? && x.queue.lastPopped <= p.value.event.time && x.queue.lastPopped <= q.value.event.time {
      PushTwice(x.queue, p.value.event, q.value.event);
    }
  }

  lemma {:induction false} DeliverAt(cfg: Config, w: World, s: Sent, k: HostId)
    requires k in w.hosts && s.dst in w.hosts && w.hosts[s.dst].queue.lastPopped <= s.event.time
    ensures k in Deliver(cfg, w, s).hosts && Deliver(cfg, w, s).hosts[k] == Plus(w.hosts[k], Some(s), k)
  {
  }

  /** The world after a step of `h`, host by host. */
  lemma {:induction false} StepAt(cfg: Config, until: Time, w: World, h: HostId, k: HostId)
    requires Inv(cfg, until, w) && Enabled(until, w, h) && k in w.hosts
    ensures k in Step(cfg, until, w, h).hosts
    ensures Step(cfg, until, w, h).hosts[k] ==
            Plus(if k == h then Effect(cfg, until, w, h).0 else w.hosts[k], Effect(cfg, until, w, h).1, k)
  {
    var (y, out) := Effect(cfg, until, w, h);
    var mid := World(w.hosts[h := y], w.minUsed);
    if out.Some? {
      LocalStepKeepsInv(cfg, until, w, h);
      SentIsFresh(cfg, until, w, h);
      PacketFits(cfg, until, mid, out.value);
      hide LocalStep, HasWork, HostOk, KeysOk, Fresh, Deliver;
      DeliverAt(cfg, mid, out.value, k);
    } else {
      hide LocalStep, HasWork, HostOk, KeysOk;
    }
  }

  lemma {:induction false} PacketFits(cfg: Config, until: Time, w: World, s: Sent)
    requires Inv(cfg, until, w) && s.dst in w.hosts && Fresh(until, w.hosts[s.dst], s.event)
    ensures w.hosts[s.dst].queue.lastPopped <= s.event.time
  {
    assert HostOk(until, w.hosts[s.dst]);
  }

  /** Whatever a host does next, it does the same after it has received the packet. */
  lemma {:induction false} PlusFrame(cfg: Config, until: Time, b: HostId, x: Host, sent: Option<Sent>)
    requires HostOk(until, x) && HasWork(until, x)
    requires sent.Some? && sent.value.dst == b ==> Fresh(until, x, sent.value.event)
    ensures HostOk(until, Plus(x, sent, b)) && HasWork(until, Plus(x, sent, b))
    ensures LocalStep(cfg, until, b, Plus(x, sent, b)) ==
            (Plus(LocalStep(cfg, until, b, x).0, sent, b), LocalStep(cfg, until, b, x).1)
  {
    if sent.Some? && sent.value.dst == b {
      LocalStepFrame(cfg, until, b, x, sent.value.event);
    }
    hide LocalStep, HasWork, NoneBefore, LocalIdsBelow, Queue.Valid;
  }

  /** Steps of other hosts neither disable `b` nor change what it will do. */
  lemma {:induction false} EffectUnchanged(cfg: Config, until: Time, w: World, a: HostId, b: HostId)
    requires Inv(cfg, until, w) && Enabled(until, w, a) && a != b && Enabled(until, w, b)
    ensures Enabled(until, Step(cfg, until, w, a), b)
    ensures Effect(cfg, until, Step(cfg, until, w, a), b).0 == Plus(Effect(cfg, until, w, b).0, Effect(cfg, until, w, a).1, b)
    ensures Effect(cfg, until, Step(cfg, until, w, a), b).1 == Effect(cfg, until, w, b).1
  {
    StepAt(cfg, until, w, a, b);
    var sent := Effect(cfg, until, w, a).1;
    if sent.Some? && sent.value.dst == b {
      SentIsFresh(cfg, until, w, a);
    }
    hide LocalStep, HasWork, HostOk, KeysOk, Step, Fresh, Plus;
    PlusFrame(cfg, until, b, w.hosts[b], sent);
  }

  /** Each host record is the same whichever of `a` and `b` goes first. */
  lemma {:induction false} CommuteAt(cfg: Config, until: Time, w: World, a: HostId, b: HostId, k: HostId)
    requires Inv(cfg, until, w) && a != b && Enabled(until, w, a) && Enabled(until, w, b) && k in w.hosts
    ensures k in Step(cfg, until, Step(cfg, until, w, a), b).hosts
    ensures k in Step(cfg, until, Step(cfg, until, w, b), a).hosts
    ensures Step(cfg, until, Step(cfg, until, w, a), b).hosts[k] == Step(cfg, until, Step(cfg, until, w, b), a).hosts[k]
  {
    EffectUnchanged(cfg, until, w, a, b);
    EffectUnchanged(cfg, until, w, b, a);
    hide Step, HostsOk, KeysOk, HasWork, Effect, Plus;
    StepAt(cfg, until, w, a, k);
    StepAt(cfg, until, w, b, k);
    StepAt(cfg, until, Step(cfg, until, w, a), b, k);
    StepAt(cfg, until, Step(cfg, until, w, b), a, k);
    var base := if k == a then Effect(cfg, until, w, a).0 else if k == b then Effect(cfg, until, w, b).0 else w.hosts[k];
    PlusTwice(base, Effect(cfg, until, w, a).1, Effect(cfg, until, w, b).1, k);
  }

  lemma {:induction false} StepsCommute(cfg: Config, until: Time, w: World, a: HostId, b: HostId)
    requires Inv(cfg, until, w) && a != b && Enabled(until, w, a) && Enabled(until, w, b)
    ensures Step(cfg, until, Step(cfg, until, w, a), b) == Step(cfg, until, Step(cfg, until, w, b), a)
  {
    hide LocalStep, HostsOk, KeysOk, Step, HasWork, Effect;
    var ab := Step(cfg, until, Step(cfg, until, w, a), b);
    var ba := Step(cfg, until, Step(cfg, until, w, b), a);
    EffectUnchanged(cfg, until, w, a, b);
    EffectUnchanged(cfg, until, w, b, a);
    forall k | k in w.hosts ensures k in ab.hosts && k in ba.hosts && ab.hosts[k] == ba.hosts[k] {
      CommuteAt(cfg, until, w, a, b, k);
    }
    assert ab.hosts == ba.hosts;
    MinUsedAfter(cfg, until, w, a);
    MinUsedAfter(cfg, until, w, b);
    MinUsedAfter(cfg, until, Step(cfg, until, w, a), b);
    MinUsedAfter(cfg, until, Step(cfg, until, w, b), a);
  }

  lemma {:induction false} MinUsedAfter(cfg: Config, until: Time, w: World, h: HostId)
    requires Inv(cfg, until, w) && Enabled(until, w, h)
    ensures Step(cfg, until, w, h).minUsed ==
            if cfg.dynamicRunahead && Effect(cfg, until, w, h).1.Some?
            then OptMin(w.minUsed, Some(Effect(cfg, until, w, h).1.value.delay)) else w.minUsed
  {
    hide LocalStep, HostOk, KeysOk;
  }

  // ---- Schedules --------------------------------------------------------------------------

  lemma {:induction false} DisabledStays(cfg: Config, until: Time, w: World, h: HostId)
    requires Inv(cfg, until, w) && !Enabled(until, w, h)
    ensures Step(cfg, until, w, h) == w
  {
  }

  lemma {:induction false} EnabledPersists(cfg: Config, until: Time, w: World, a: HostId, b: HostId)
    requires Inv(cfg, until, w) && a != b && Enabled(until, w, b)
    ensures Enabled(until, Step(cfg, until, w, a), b)
  {
    if Enabled(until, w, a) {
      EffectUnchanged(cfg, until, w, a, b);
    }
  }

  /** A host that can step has a turn in every schedule that finishes the round. */
  lemma {:induction false} EnabledMustRun(cfg: Config, until: Time, w: World, schedule: seq<HostId>, h: HostId)
    requires Inv(cfg, until, w) && Enabled(until, w, h)
    requires Finished(until, Run(cfg, until, w, schedule))
    ensures h in schedule
    decreases |schedule|
  {
    if schedule != [] && schedule[0] != h {
      EnabledPersists(cfg, until, w, schedule[0], h);
      EnabledMustRun(cfg, until, Step(cfg, until, w, schedule[0]), schedule[1..], h);
    }
  }

  /** The first turn of an enabled host can be moved to the front. */
  lemma {:induction false} MoveToFront(cfg: Config, until: Time, w: World, before: seq<HostId>, h: HostId, after: seq<HostId>)
    requires Inv(cfg, until, w) && Enabled(until, w, h) && h !in before
    ensures Run(cfg, until, w, before + [h] + after) == Run(cfg, until, Step(cfg, until, w, h), before + after)
    decreases |before|
  {
    hide Step, Inv, Enabled;
    if before == [] {
      assert ([h] + after)[1..] == after;
      assert before + [h] + after == [h] + after && before + after == after;
    } else {
      var g, rest := before[0], before[1..];
      var v := Step(cfg, until, w, g);
      EnabledPersists(cfg, until, w, g, h);
      MoveToFront(cfg, until, v, rest, h, after);
      assert (before + [h] + after)[1..] == rest + [h] + after;
      assert (before + after)[1..] == rest + after;
      FrontStep(cfg, until, w, g, h);
    }
  }

  lemma {:induction false} FrontStep(cfg: Config, until: Time, w: World, g: HostId, h: HostId)
    requires Inv(cfg, until, w) && Enabled(until, w, h) && g != h
    ensures Step(cfg, until, Step(cfg, until, w, g), h) == Step(cfg, until, Step(cfg, until, w, h), g)
  {
    if Enabled(until, w, g) {
      StepsCommute(cfg, until, w, g, h);
    } else if g in w.hosts {
      StillDisabled(cfg, until, w, g, h);
    }
  }

  /** A packet sent during the round never gives a finished host more work in it. */
  lemma {:induction false} StillDisabled(cfg: Config, until: Time, w: World, g: HostId, h: HostId)
    requires Inv(cfg, until, w) && Enabled(until, w, h) && g != h && g in w.hosts && !Enabled(until, w, g)
    ensures !Enabled(until, Step(cfg, until, w, h), g)
  {
    StepAt(cfg, until, w, h, g);
    var sent := Effect(cfg, until, w, h).1;
    if sent.Some? && sent.value.dst == g {
      SentIsFresh(cfg, until, w, h);
      hide LocalStep, HasWork, NoneBefore, LocalIdsBelow, Queue.Valid, KeysOk, Step;
      ReceiveKeepsWork(until, w.hosts[g], sent.value.event);
    }
  }

  lemma {:induction false} FirstIndex(schedule: seq<HostId>, h: HostId) returns (i: nat)
    requires h in schedule
    ensures i < |schedule| && schedule[i] == h && h !in schedule[..i]
    ensures schedule == schedule[..i] + [h] + schedule[i + 1..]
  {
    i := 0;
    while schedule[i] != h
      invariant i < |schedule| && h !in schedule[..i] && h in schedule[i..]
      decreases |schedule| - i
    {
      assert schedule[..i + 1] == schedule[..i] + [schedule[i]];
      i := i + 1;
    }
  }

  /** Any two schedules that finish the round from the same world finish it in the same world. */
  lemma {:induction false} OrderIndependence(cfg: Config, until: Time, w: World, s: seq<HostId>, t: seq<HostId>)
    requires Inv(cfg, until, w)
    requires Finished(until, Run(cfg, until, w, s)) && Finished(until, Run(cfg, until, w, t))
    ensures Run(cfg, until, w, s) == Run(cfg, until, w, t)
    decreases |s|
  {
    hide Step, Inv;
    if s == [] {
      FinishedStays(cfg, until, w, t);
    } else {
      var h := s[0];
      if !Enabled(until, w, h) {
        DisabledStays(cfg, until, w, h);
        OrderIndependence(cfg, until, w, s[1..], t);
      } else {
        EnabledMustRun(cfg, until, w, t, h);
        var i := FirstIndex(t, h);
        MoveToFront(cfg, until, w, t[..i], h, t[i + 1..]);
        OrderIndependence(cfg, until, Step(cfg, until, w, h), s[1..], t[..i] + t[i + 1..]);
      }
    }
  }

  lemma {:induction false} FinishedStays(cfg: Config, until: Time, w: World, t: seq<HostId>)
    requires Inv(cfg, until, w) && Finished(until, w)
    ensures Run(cfg, until, w, t) == w
    decreases |t|
  {
    if t != [] {
      FinishedStays(cfg, until, w, t[1..]);
    }
  }

  // ---- One schedule that finishes is enough ---------------------------------------------------

  /** How many turns of a schedule do something. */
  function Turns(cfg: Config, until: Time, w: World, schedule: seq<HostId>): nat
    requires Inv(cfg, until, w)
    decreases |schedule|
  {
    if schedule == [] then 0
    else
      (if Enabled(until, w, schedule[0]) then 1 else 0) + Turns(cfg, until, Step(cfg, until, w, schedule[0]), schedule[1..])
  }

  lemma {:induction false} EnabledSame(cfg: Config, until: Time, w: World, h: HostId, g: HostId)
    requires Inv(cfg, until, w) && Enabled(until, w, h) && g != h
    ensures Enabled(until, Step(cfg, until, w, h), g) == Enabled(until, w, g)
  {
    if Enabled(until, w, g) {
      EnabledPersists(cfg, until, w, h, g);
    } else if g in w.hosts {
      StillDisabled(cfg, until, w, g, h);
    }
    hide Step, HasWork;
  }

  lemma {:induction false} MoveToFrontTurns(cfg: Config, until: Time, w: World, before: seq<HostId>, h: HostId, after: seq<HostId>)
    requires Inv(cfg, until, w) && Enabled(until, w, h) && h !in before
    ensures Turns(cfg, until, w, before + [h] + after) == 1 + Turns(cfg, until, Step(cfg, until, w, h), before + after)
    decreases |before|
  {
    hide Step, Inv, Enabled;
    if before == [] {
      assert ([h] + after)[1..] == after;
      assert before + [h] + after == [h] + after && before + after == after;
    } else {
      var g, rest := before[0], before[1..];
      EnabledPersists(cfg, until, w, g, h);
      MoveToFrontTurns(cfg, until, Step(cfg, until, w, g), rest, h, after);
      assert (before + [h] + after)[1..] == rest + [h] + after;
      assert (before + after)[1..] == rest + after;
      FrontStep(cfg, until, w, g, h);
      EnabledSame(cfg, until, w, h, g);
    }
  }

  /** If one schedule finishes the round, every schedule does something at most as often, and can be
      completed to one that finishes in the same world. */
  lemma {:induction false} AnyScheduleFinishes(cfg: Config, until: Time, w: World, s: seq<HostId>, t: seq<HostId>)
    returns (u: seq<HostId>)
    requires Inv(cfg, until, w) && Finished(until, Run(cfg, until, w, s))
    ensures Run(cfg, until, w, t + u) == Run(cfg, until, w, s)
    ensures Turns(cfg, until, w, t) <= Turns(cfg, until, w, t + u) == Turns(cfg, until, w, s)
    decreases |t|
  {
    hide Step, Inv;
    if t == [] {
      u := s;
      assert t + u == s;
    } else {
      var g := t[0];
      if !Enabled(until, w, g) {
        DisabledStays(cfg, until, w, g);
        u := AnyScheduleFinishes(cfg, until, w, s, t[1..]);
      } else {
        EnabledMustRun(cfg, until, w, s, g);
        var i := FirstIndex(s, g);
        MoveToFront(cfg, until, w, s[..i], g, s[i + 1..]);
        MoveToFrontTurns(cfg, until, w, s[..i], g, s[i + 1..]);
        u := AnyScheduleFinishes(cfg, until, Step(cfg, until, w, g), s[..i] + s[i + 1..], t[1..]);
      }
      assert (t + u)[1..] == t[1..] + u;
    }
  }
}
