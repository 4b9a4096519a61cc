/** A host and its worker as the objects they are (src/main/host/host.rs, src/main/core/worker.rs):
    each small method is one locked action and keeps what the round model keeps, and `Execute` is the
    loop that a worker runs, proved to be so many turns of this host in that model. */
module Hosts {
  import opened EventQueue
  import opened Round
  import opened RoundOrder
  import opened Causality
  import HostTrace
  import opened Options
  import Cpu
  import opened Numbers

  // ---- Queues and schedules -------------------------------------------------------------------

  lemma {:induction false} PushNext(q: Queue, e: Event)
    requires q.Valid() && q.lastPopped <= e.time && forall f | f in q.events :: !SameKey(e.data, f.data)
    ensures q.Push(e).Valid() && q.Push(e).Next() == OptMin(q.Next(), Some(e.time))
  {
    PushKeepsKeys(q.events, e);
    var all := q.Push(e).events;
    assert Least(all) in all && e in all;
    if q.events != {} {
      assert Least(q.events) in all;
    }
    hide WellKeyed, SameKey;
  }

  /** `n` turns of one host. */
  function Repeat(h: HostId, n: nat): seq<HostId> {
    seq(n, _ => h)
  }

  lemma {:induction false} RunConcat(cfg: Config, until: Time, w: World, s: seq<HostId>, t: seq<HostId>)
    requires Inv(cfg, until, w)
    ensures Run(cfg, until, w, s + t) == Run(cfg, until, Run(cfg, until, w, s), t)
    decreases |s|
  {
    hide Inv, Step;
    if s == [] {
      assert s + t == t;
    } else {
      assert (s + t)[1..] == s[1..] + t;
      RunConcat(cfg, until, Step(cfg, until, w, s[0]), s[1..], t);
    }
  }

  lemma {:induction false} RunOne(cfg: Config, until: Time, w: World, h: HostId)
    requires Inv(cfg, until, w)
    ensures Run(cfg, until, w, [h]) == Step(cfg, until, w, h)
  {
    hide Inv, Step;
    assert [h][1..] == [];
  }

  /** The packets that host `h` sends along a schedule, in order. */
  function OwnPackets(cfg: Config, until: Time, w: World, schedule: seq<HostId>, h: HostId): seq<Sent>
    requires Inv(cfg, until, w)
    decreases |schedule|
  {
    if schedule == [] then []
    else
      var s := if schedule[0] == h then Emitted(cfg, until, w, h) else None;
      (if s.Some? then [s.value] else []) + OwnPackets(cfg, until, Step(cfg, until, w, schedule[0]), schedule[1..], h)
  }

  lemma {:induction false} OwnPacketsConcat(cfg: Config, until: Time, w: World, s: seq<HostId>, t: seq<HostId>, h: HostId)
    requires Inv(cfg, until, w)
    ensures OwnPackets(cfg, until, w, s + t, h) == OwnPackets(cfg, until, w, s, h) + OwnPackets(cfg, until, Run(cfg, until, w, s), t, h)
    decreases |s|
  {
    hide Inv, Step, Emitted;
    if s == [] {
      assert s + t == t;
    } else {
      assert (s + t)[1..] == s[1..] + t;
      OwnPacketsConcat(cfg, until, Step(cfg, until, w, s[0]), s[1..], t, h);
    }
  }

  lemma {:induction false} NoOwnPackets(cfg: Config, until: Time, w: World, s: seq<HostId>, h: HostId)
    requires Inv(cfg, until, w) && h !in s
    ensures OwnPackets(cfg, until, w, s, h) == []
    decreases |s|
  {
    hide Inv, Step, Emitted;
    if s != [] {
      NoOwnPackets(cfg, until, Step(cfg, until, w, s[0]), s[1..], h);
    }
  }

  /** Turns of one host only: all packets are its own. */
  lemma {:induction false} AllOwnPackets(cfg: Config, until: Time, w: World, h: HostId, n: nat)
    requires Inv(cfg, until, w)
    ensures OwnPackets(cfg, until, w, Repeat(h, n), h) == Packets(cfg, until, w, Repeat(h, n))
    decreases n
  {
    hide Inv, Step, Emitted;
    if n > 0 {
      assert Repeat(h, n)[1..] == Repeat(h, n - 1);
      AllOwnPackets(cfg, until, Step(cfg, until, w, h), h, n - 1);
    }
  }

  // ---- Other hosts in between -------------------------------------------------------------------

  /** The packets among `sent` that are for `h`. */
  function ToHost(sent: seq<Sent>, h: HostId): seq<Event> {
    if sent == [] then [] else (if sent[0].dst == h then [sent[0].event] else []) + ToHost(sent[1..], h)
  }

  function ReceiveAll(x: Host, events: seq<Event>): Host
    decreases |events|
  {
    if events == [] || x.queue.lastPopped > events[0].time then x else ReceiveAll(x.Receive(events[0]), events[1..])
  }

  predicate DueFrom(until: Time, events: seq<Event>) {
    forall i | 0 <= i < |events| :: until <= events[i].time
  }

  /** What a turn of `g` sends to `h`. */
  function FromTurn(cfg: Config, until: Time, w: World, g: HostId, h: HostId): seq<Event>
    requires Inv(cfg, until, w)
  {
    var sent := Emitted(cfg, until, w, g);
    if sent.Some? && sent.value.dst == h then [sent.value.event] else []
  }

  /** A turn of another host, as `h` sees it. */
  lemma {:induction false} OtherTurn(cfg: Config, until: Time, w: World, g: HostId, h: HostId)
    requires Inv(cfg, until, w) && h in w.hosts && g != h
    ensures h in Step(cfg, until, w, g).hosts && Enabled(until, Step(cfg, until, w, g), h) == Enabled(until, w, h)
    ensures Step(cfg, until, w, g).hosts[h] == ReceiveAll(w.hosts[h], FromTurn(cfg, until, w, g, h))
    ensures DueFrom(until, FromTurn(cfg, until, w, g, h))
  {
    if Enabled(until, w, g) {
      StepAt(cfg, until, w, g, h);
      EnabledSame(cfg, until, w, g, h);
      if Effect(cfg, until, w, g).1.Some? {
        SentShape(cfg, until, g, w.hosts[g]);
      }
      hide Step, Inv, LocalStep, HasWork;
      ReceiveOne(w.hosts[h], Effect(cfg, until, w, g).1, h);
    } else {
      DisabledStays(cfg, until, w, g);
    }
  }

  lemma {:induction false} ReceiveOne(x: Host, sent: Option<Sent>, h: HostId)
    ensures Plus(x, sent, h) == ReceiveAll(x, if sent.Some? && sent.value.dst == h then [sent.value.event] else [])
  {
    if sent.Some? {
      assert [sent.value.event][1..] == [];
    }
  }

  lemma {:induction false} ReceiveConcat(until: Time, x: Host, a: seq<Event>, b: seq<Event>)
    requires x.queue.lastPopped <= until && DueFrom(until, a)
    ensures ReceiveAll(x, a + b) == ReceiveAll(ReceiveAll(x, a), b)
    ensures ReceiveAll(x, a).queue.lastPopped == x.queue.lastPopped
    decreases |a|
  {
    if a == [] {
      assert a + b == b;
    } else {
      assert (a + b)[1..] == a[1..] + b;
      ReceiveConcat(until, x.Receive(a[0]), a[1..], b);
    }
  }

  /** While other hosts take turns, all that happens to `h` is that it receives their packets, due at or
      after the end of the round; whether it is done does not change. */
  lemma {:induction false} OtherTurns(cfg: Config, until: Time, w: World, s: seq<HostId>, h: HostId)
    requires Inv(cfg, until, w) && h in w.hosts && h !in s
    ensures h in Run(cfg, until, w, s).hosts && Enabled(until, Run(cfg, until, w, s), h) == Enabled(until, w, h)
    ensures var events := ToHost(Packets(cfg, until, w, s), h);
            Run(cfg, until, w, s).hosts[h] == ReceiveAll(w.hosts[h], events) && DueFrom(until, events)
    decreases |s|
  {
    if s != [] {
      var v := Step(cfg, until, w, s[0]);
      OtherTurn(cfg, until, w, s[0], h);
      WorldHostOk(cfg, until, w, h);
      ToHostUnfold(cfg, until, w, s, h);
      assert s[0] != h && h !in s[1..] && Run(cfg, until, w, s) == Run(cfg, until, v, s[1..]);
      hide *;
      OtherTurns(cfg, until, v, s[1..], h);
      var now, later := FromTurn(cfg, until, w, s[0], h), ToHost(Packets(cfg, until, v, s[1..]), h);
      ReceiveConcat(until, w.hosts[h], now, later);
      DueConcat(until, now, later);
    } else {
      hide Inv, Enabled;
    }
  }

  lemma {:induction false} DueConcat(until: Time, a: seq<Event>, b: seq<Event>)
    requires DueFrom(until, a) && DueFrom(until, b)
    ensures DueFrom(until, a + b)
  {
  }

  lemma {:induction false} ToHostUnfold(cfg: Config, until: Time, w: World, s: seq<HostId>, h: HostId)
    requires Inv(cfg, until, w) && s != []
    ensures ToHost(Packets(cfg, until, w, s), h) ==
            FromTurn(cfg, until, w, s[0], h) + ToHost(Packets(cfg, until, Step(cfg, until, w, s[0]), s[1..]), h)
  {
    hide Inv, Step, Emitted;
    var sent, rest := Emitted(cfg, until, w, s[0]), Packets(cfg, until, Step(cfg, until, w, s[0]), s[1..]);
    if sent.Some? {
      assert ([sent.value] + rest)[1..] == rest;
    }
  }

  /** `n` turns of `h`, the `i`th after the other hosts' turns `others(i)`. */
  ghost function Mixed(others: nat -> seq<HostId>, h: HostId, n: nat): seq<HostId> {
    if n == 0 then [] else Mixed(others, h, n - 1) + others(n - 1) + [h]
  }

  /** The packets for `h` that other hosts send before its `i`th turn. */
  ghost function Arriving(cfg: Config, until: Time, w: World, others: nat -> seq<HostId>, h: HostId, i: nat): seq<Event>
    requires Inv(cfg, until, w)
  {
    ToHost(Packets(cfg, until, Run(cfg, until, w, Mixed(others, h, i)), others(i)), h)
  }

  ghost predicate Apart(others: nat -> seq<HostId>, h: HostId) {
    forall i: nat :: h !in others(i)
  }

  ghost predicate Alone(others: nat -> seq<HostId>) {
    forall i: nat :: others(i) == []
  }

  lemma {:induction false} MixedAlone(others: nat -> seq<HostId>, h: HostId, n: nat)
    requires Alone(others)
    ensures Mixed(others, h, n) == Repeat(h, n)
  {
    if n > 0 {
      MixedAlone(others, h, n - 1);
      assert Repeat(h, n - 1) + [] + [h] == Repeat(h, n);
    }
  }

  /** One more turn of `h`, and then the others': where the run is, and what `h` has sent. */
  lemma {:induction false} MixedStep(cfg: Config, until: Time, w: World, others: nat -> seq<HostId>, h: HostId, n: nat)
    requires Inv(cfg, until, w) && Apart(others, h)
    ensures var before := Run(cfg, until, w, Mixed(others, h, n) + others(n));
            && Run(cfg, until, w, Mixed(others, h, n + 1)) == Step(cfg, until, before, h)
            && var e := Emitted(cfg, until, before, h);
            OwnPackets(cfg, until, w, Mixed(others, h, n + 1), h) ==
            OwnPackets(cfg, until, w, Mixed(others, h, n), h) + if e.Some? then [e.value] else []
  {
    hide Inv, Step, Emitted;
    var m, o := Mixed(others, h, n), others(n);
    var at := Run(cfg, until, w, m);
    var before := Run(cfg, until, w, m + o);
    RunConcat(cfg, until, w, m, o);
    RunConcat(cfg, until, w, m + o, [h]);
    RunOne(cfg, until, before, h);
    OwnPacketsConcat(cfg, until, w, m, o, h);
    OwnPacketsConcat(cfg, until, w, m + o, [h], h);
    NoOwnPackets(cfg, until, at, o, h);
    assert [h][1..] == [];
  }

  /** The earliest of the times of what was sent, and `next`. */
  function EarliestSent(next: Option<Time>, sent: seq<Sent>): Option<Time> {
    if sent == [] then next
    else OptMin(EarliestSent(next, sent[..|sent| - 1]), Some(sent[|sent| - 1].event.time))
  }

  lemma {:induction false} EarliestSentAppend(next: Option<Time>, sent: seq<Sent>, s: Sent)
    ensures EarliestSent(next, sent + [s]) == OptMin(EarliestSent(next, sent), Some(s.event.time))
  {
    assert (sent + [s])[..|sent|] == sent;
  }

  /** The shim moves the shared clock without looking at the queue, on the strength of the cap. */
  lemma {:induction false} ShimSyscallOk(cfg: Config, until: Time, x: Host, latency: nat)
    requires HostOk(until, x) && x.mode == InShim
    ensures HostOk(until, ShimSyscall(cfg, x, latency)) && Forward(x, ShimSyscall(cfg, x, latency))
  {
    var y := ShimSyscall(cfg, x, latency);
    assert NoneBefore(y.queue.events, y.clock);
    SameQueueOk(until, x, y);
  }

  /** `clock` is the worker's current time, `shimTime` the time in memory shared with the shim, which
      counts while the shim has control. */
  class EmulatedHost {
    const cfg: Config
    const id: HostId
    var app: App
    var mode: Mode
    var clock: Time
    var shimTime: Time
    var cpu: Cpu.State
    var nextEventId: nat
    var maxRunahead: Time
    var unapplied: nat
    var queue: Queue

    ghost function View(): Host
      reads this
    {
      Host(app, mode, if mode == InShim then shimTime else clock, cpu, nextEventId, maxRunahead, unapplied, queue)
    }

    constructor (cfg: Config, id: HostId, x: Host)
      ensures this.cfg == cfg && this.id == id && View() == x
    {
      this.cfg, this.id := cfg, id;
      app, mode, clock, shimTime, cpu := x.app, x.mode, x.clock, x.clock, x.cpu;
      nextEventId, maxRunahead, unapplied, queue := x.nextEventId, x.maxRunahead, x.unapplied, x.queue;
    }

    /** An event before the end of the simulation is queued and lowers the host's next event time to
        its own; a later one changes nothing. */
    method PushLocalEvent(e: Event) returns (pushed: bool)
      requires queue.Valid() && queue.lastPopped <= e.time && forall f | f in queue.events :: !SameKey(e.data, f.data)
      modifies this`queue
      ensures pushed <==> e in queue.events
      ensures queue == PushLocal(cfg, old(queue), e) && queue.Valid()
      ensures queue.Next() == if e.time < cfg.simEnd then OptMin(old(queue.Next()), Some(e.time)) else old(queue.Next())
    {
      PushNext(queue, e);
      if e.time >= cfg.simEnd {
        return false;
      }
      queue := queue.Push(e);
      pushed := true;
    }

    /** One turn of the `execute` loop: the earliest event is started, or put off while the CPU is
        busy. */
    method ExecuteTurn(until: Time)
      requires HostOk(until, View()) && mode == Idle && HasWork(until, View())
      modifies this
      ensures View() == TakeEvent(cfg, id, old(View())) && HostOk(until, View())
      ensures old(queue.events) != {}
      ensures var (e, rest) := old(queue).Pop();
              if HostTrace.Busy(old(cpu), e.time) then mode == Idle && clock == old(clock) && app == old(app)
              else mode == Running && clock == e.time && queue == rest && app == cfg.start(id, old(app), e)
    {
      TakeEventOk(cfg, until, id, View());
      PopKeys(queue);
      hide HostOk, HasWork;
      var (e, rest) := queue.Pop();
      queue := rest;
      cpu := Cpu.UpdateTime(cpu, e.time);
      var delay := Cpu.Delay(cpu);
      if delay > 0 {
        var _ := PushLocalEvent(e.(time := e.time + delay));
        return;
      }
      clock := e.time;
      mode := Running;
      app := cfg.start(id, app, e);
    }

    /** Returns whether the task was queued; its id is used up in any case. */
    method ScheduleTaskWithDelay(until: Time, delay: nat, task: Task) returns (pushed: bool)
      requires HostOk(until, View()) && mode == Running
      modifies this
      ensures View() == ScheduleLocal(cfg, old(View()), delay, task) && HostOk(until, View())
      ensures pushed == (clock + delay < cfg.simEnd)
    {
      ScheduleOk(cfg, until, View(), delay, task);
      var e := Event(clock + delay, LocalData(task, nextEventId));
      assert forall f | f in queue.events :: !SameKey(e.data, f.data);
      hide HostOk;
      nextEventId := nextEventId + 1;
      pushed := PushLocalEvent(e);
    }

    /** A packet that is sent is due at or after the end of the round, and never early. */
    method SendPacket(until: Time, dst: Ip, packet: Packet) returns (sent: Option<Sent>)
      requires HostOk(until, View()) && mode == Running
      modifies this
      ensures (View(), sent) == Round.SendPacket(cfg, until, id, old(View()), dst, packet) && HostOk(until, View())
      ensures sent.Some? ==> until <= sent.value.event.time && clock + sent.value.delay <= sent.value.event.time
      ensures sent.Some? <==> clock < cfg.simEnd && dst in cfg.dns
                              && (cfg.draw(id, old(app), dst).1 ==> clock < cfg.bootstrapEnd || cfg.payloadLen(packet) == 0)
      ensures sent.Some? ==>
                && sent.value.dst == cfg.dns[dst] && sent.value.sentAt == clock && sent.value.delay == cfg.latency(id, dst)
                && sent.value.event == Event(Max(clock + cfg.latency(id, dst), until), PacketData(packet, id, old(nextEventId)))
    {
      SendOk(cfg, until, id, View(), dst, packet);
      hide HostOk;
      sent := None;
      if clock >= cfg.simEnd || dst !in cfg.dns {
        return;
      }
      var (app', unlucky) := cfg.draw(id, app, dst);
      app := app';
      if !(clock < cfg.bootstrapEnd) && unlucky && cfg.payloadLen(packet) > 0 {
        return;
      }
      var delay := cfg.latency(id, dst);
      var deliver := clock + delay;
      if deliver < until {
        deliver := until;
      }
      var e := Event(deliver, PacketData(packet, id, nextEventId));
      nextEventId := nextEventId + 1;
      sent := Some(Sent(cfg.dns[dst], e, clock, delay));
    }

    method MaxEventRunaheadTime(until: Time) returns (max: Time)
      requires queue.Valid()
      ensures max == RunaheadCap(until, queue)
    {
      max := until;
      if queue.events != {} {
        max := Min(max, Least(queue.events).time);
      }
    }

    /** The end of a syscall handled by Shadow. Returns the time to block until, if the clock could
        not be moved there; an event of the host never ends up behind its clock. */
    method AccountSyscall(until: Time, latency: nat) returns (blockedUntil: Option<Time>)
      requires HostOk(until, View()) && mode == Running
      modifies this
      ensures View() == WorkerSyscall(cfg, RunaheadCap(until, old(queue)), id, old(View()), latency) && HostOk(until, View())
      ensures blockedUntil.Some? ==> clock == old(clock) && RunaheadCap(until, queue) < blockedUntil.value
      ensures blockedUntil.Some? ==>
                unapplied == 0 && blockedUntil.value == old(clock + unapplied) + HostTrace.Modelled(cfg, latency)
      ensures blockedUntil.None? ==>
                clock + unapplied == old(clock + unapplied) + HostTrace.Modelled(cfg, latency) && unapplied <= cfg.maxUnapplied
    {
      PerformOk(cfg, until, id, View(), Syscall(latency));
      hide HostOk;
      if cfg.modelLatency {
        unapplied := unapplied + latency;
      }
      blockedUntil := None;
      if unapplied > cfg.maxUnapplied {
        var newTime := clock + unapplied;
        unapplied := 0;
        var max := MaxEventRunaheadTime(until);
        if newTime <= max {
          clock := newTime;
        } else {
          blockedUntil := Some(newTime);
          app := cfg.blocked(id, app, newTime);
        }
      }
    }

    /** The first half of `continue_plugin`: publish the cap and the time, give the shim control. */
    method ContinuePlugin(until: Time)
      requires HostOk(until, View()) && mode == Running
      modifies this
      ensures View() == old(View()).(maxRunahead := RunaheadCap(until, old(queue)), mode := InShim) && HostOk(until, View())
      ensures shimTime == clock == old(clock)
    {
      PerformOk(cfg, until, id, View(), Continue);
      hide HostOk;
      maxRunahead := MaxEventRunaheadTime(until);
      shimTime := clock;
      mode := InShim;
    }

    /** The second half: the worker takes over the time that the shim may have moved on, which is
        neither before its own nor past any event or the end of the round. */
    method ReturnFromPlugin(until: Time)
      requires HostOk(until, View()) && mode == InShim
      modifies this`clock, this`mode
      ensures View() == old(View()).(mode := Running) && HostOk(until, View())
      ensures clock == old(shimTime) <= until && NoneBefore(queue.events, clock)
    {
      SameQueueOk(until, View(), View().(mode := Running));
      clock := shimTime;
      mode := Running;
    }

    /** The end of a syscall handled by the shim; `yielded` when it hands control back. */
    method ShimAccountSyscall(until: Time, latency: nat) returns (yielded: bool)
      requires HostOk(until, View()) && mode == InShim
      modifies this
      ensures View() == ShimSyscall(cfg, old(View()), latency) && HostOk(until, View())
      ensures yielded == (mode == Running) && old(shimTime) <= shimTime
      ensures View().clock + unapplied == old(View().clock + unapplied) + HostTrace.Modelled(cfg, latency)
      ensures cfg.modelLatency ==> yielded || unapplied <= cfg.maxUnapplied
    {
      ShimSyscallOk(cfg, until, View(), latency);
      yielded := false;
      if !cfg.modelLatency {
        return;
      }
      unapplied := unapplied + latency;
      if unapplied > cfg.maxUnapplied {
        var newTime := shimTime + unapplied;
        if newTime <= maxRunahead {
          shimTime := newTime;
          unapplied := 0;
        } else {
          SameQueueOk(until, old(View()), View());
          ReturnFromPlugin(until);
          yielded := true;
        }
      }
    }

    /** What Shadow's side of the host does next. */
    method ActRunning(until: Time) returns (sent: Option<Sent>)
      requires HostOk(until, View()) && mode == Running
      modifies this
      ensures (View(), sent) == LocalStep(cfg, until, id, old(View())) && HostOk(until, View())
    {
      LocalStepOk(cfg, until, id, View());
      var (app', action) := cfg.act(id, app, clock);
      app := app';
      SameQueueOk(until, old(View()), View());
      hide HostOk;
      sent := None;
      match action
      case Done => mode := Idle;
      case Schedule(delay, task) => var _ := ScheduleTaskWithDelay(until, delay, task);
      case Send(dst, packet) => sent := SendPacket(until, dst, packet);
      case Resume =>
        maxRunahead := MaxEventRunaheadTime(until);
        unapplied := 0;
      case Continue => ContinuePlugin(until);
      case Syscall(latency) => var _ := AccountSyscall(until, latency);
      case Charge(native) => cpu := Cpu.AddDelay(cpu, native);
    }

    /** What the shim does next. */
    method ActInShim(until: Time)
      requires HostOk(until, View()) && mode == InShim
      modifies this
      ensures (View(), None) == LocalStep(cfg, until, id, old(View())) && HostOk(until, View())
    {
      var (app', action) := cfg.shim(id, app, shimTime);
      app := app';
      SameQueueOk(until, old(View()), View());
      hide HostOk;
      match action
      case LocalSyscall(latency) => var _ := ShimAccountSyscall(until, latency);
      case Yield => ReturnFromPlugin(until);
    }

    /** The next locked action, whoever has control. */
    method Act(until: Time) returns (sent: Option<Sent>)
      requires HostOk(until, View()) && HasWork(until, View())
      modifies this
      ensures (View(), sent) == LocalStep(cfg, until, id, old(View())) && HostOk(until, View())
    {
      sent := None;
      match mode
      case Idle => ExecuteTurn(until);
      case Running => sent := ActRunning(until);
      case InShim => ActInShim(until);
    }

    method Busy(until: Time) returns (busy: bool)
      requires queue.Valid()
      ensures busy == HasWork(until, View())
    {
      busy := mode != Idle || (queue.events != {} && Least(queue.events).time < until);
      if queue.events != {} {
        assert Least(queue.events) in queue.events;
      }
    }

    /** Packets that other hosts have pushed into the queue. */
    method ReceivePackets(until: Time, events: seq<Event>)
      requires queue.lastPopped <= until && DueFrom(until, events)
      modifies this`queue
      ensures View() == ReceiveAll(old(View()), events)
    {
      var i := 0;
      assert events[0..] == events;
      while i < |events|
        invariant i <= |events| && queue.lastPopped <= until
        invariant ReceiveAll(old(View()), events) == ReceiveAll(View(), events[i..])
      {
        assert events[i..][1..] == events[i + 1..];
        queue := queue.Push(events[i]);
        i := i + 1;
      }
    }

    /** One action in the world `w`; a packet to itself goes straight into the host's own queue. */
    method Pass(until: Time, ghost w: World) returns (sent: Option<Sent>)
      requires Inv(cfg, until, w) && Enabled(until, w, id) && w.hosts[id] == View()
      modifies this
      ensures sent == Emitted(cfg, until, w, id) && (sent.Some? ==> until <= sent.value.event.time)
      ensures var after := Step(cfg, until, w, id); id in after.hosts && after.hosts[id] == View()
    {
      hide Inv, HostOk, HasWork, LocalStep, Step, Emitted;
      WorldHostOk(cfg, until, w, id);
      TurnOf(cfg, until, w, id);
      sent := Act(until);
      if sent.Some? && sent.value.dst == id {
        queue := queue.Push(sent.value.event);
      }
    }

    /** `Host::execute` in the world `w`, with any other hosts' turns `others(i)` before the `i`th pass and
        their packets `arrivals(i)` in the queue by then: the loop ends - provided that the host is done
        after `bound` turns - with nothing due before `until`, and is exactly that many turns of this
        host in the round model.  What it sends is due at or after `until`, and lowers the worker's next
        event time to the earliest of it. */
    method Execute(until: Time, next: Option<Time>, arrivals: nat -> seq<Event>,
                   ghost w: World, ghost others: nat -> seq<HostId>, ghost bound: nat)
      returns (sent: seq<Sent>, next': Option<Time>, turns: nat)
      requires Inv(cfg, until, w) && id in w.hosts && w.hosts[id] == View()
      requires Apart(others, id) && forall i: nat :: arrivals(i) == Arriving(cfg, until, w, others, id, i)
      requires !Enabled(until, Run(cfg, until, w, Mixed(others, id, bound)), id)
      modifies this
      ensures turns <= bound && !HasWork(until, View()) && HostOk(until, View())
      ensures var end := Run(cfg, until, w, Mixed(others, id, turns) + others(turns));
              id in end.hosts && end.hosts[id] == View()
      ensures sent == OwnPackets(cfg, until, w, Mixed(others, id, turns), id) && next' == EarliestSent(next, sent)
      ensures forall i | 0 <= i < |sent| :: until <= sent[i].event.time
      ensures Alone(others) ==>
                && Run(cfg, until, w, Repeat(id, bound)) == Run(cfg, until, w, Repeat(id, turns))
                && sent == Packets(cfg, until, w, Repeat(id, turns))
    {
      hide Inv, HostOk, HasWork, LocalStep, Step, Run, Enabled, Mixed, Packets, OwnPackets, Arriving, ReceiveAll, Apart, Alone, DueFrom;
      sent, next', turns := [], next, 0;
      Interlude(cfg, until, w, others, id, 0);
      WorldHostOk(cfg, until, w, id);
      ReceivePackets(until, arrivals(0));
      ghost var world := Run(cfg, until, w, Mixed(others, id, 0) + others(0));
      WorldHostOk(cfg, until, world, id);
      var busy := Busy(until);
      while busy
        invariant turns <= bound && Inv(cfg, until, world)
        invariant world == Run(cfg, until, w, Mixed(others, id, turns) + others(turns))
        invariant id in world.hosts && world.hosts[id] == View() && HostOk(until, View())
        invariant busy == HasWork(until, View())
        invariant sent == OwnPackets(cfg, until, w, Mixed(others, id, turns), id) && next' == EarliestSent(next, sent)
        invariant forall i | 0 <= i < |sent| :: until <= sent[i].event.time
        decreases bound - turns
      {
        NotYetDone(cfg, until, w, others, id, turns, bound);
        MixedStep(cfg, until, w, others, id, turns);
        var s := Pass(until, world);
        if s.Some? {
          EarliestSentAppend(next, sent, s.value);
          sent := sent + [s.value];
          next' := OptMin(next', Some(s.value.event.time));
        }
        turns := turns + 1;
        Interlude(cfg, until, w, others, id, turns);
        WorldHostOk(cfg, until, Run(cfg, until, w, Mixed(others, id, turns)), id);
        ReceivePackets(until, arrivals(turns));
        world := Run(cfg, until, w, Mixed(others, id, turns) + others(turns));
        WorldHostOk(cfg, until, world, id);
        busy := Busy(until);
      }
      if Alone(others) {
        AloneFacts(cfg, until, w, others, id, turns, bound);
      }
    }
  }

  /** From one turn of `h` to the next, `h` receives what has arrived. */
  lemma {:induction false} Interlude(cfg: Config, until: Time, w: World, others: nat -> seq<HostId>, h: HostId, n: nat)
    requires Inv(cfg, until, w) && Apart(others, h) && h in w.hosts
    ensures var at := Run(cfg, until, w, Mixed(others, h, n));
            var end := Run(cfg, until, w, Mixed(others, h, n) + others(n));
            && h in at.hosts && h in end.hosts && Enabled(until, end, h) == Enabled(until, at, h)
            && end.hosts[h] == ReceiveAll(at.hosts[h], Arriving(cfg, until, w, others, h, n))
            && DueFrom(until, Arriving(cfg, until, w, others, h, n))
    ensures n == 0 ==> Run(cfg, until, w, Mixed(others, h, n)) == w && OwnPackets(cfg, until, w, Mixed(others, h, n), h) == []
  {
    var at := Run(cfg, until, w, Mixed(others, h, n));
    assert at.hosts.Keys == cfg.hosts && w.hosts.Keys == cfg.hosts;
    hide Inv;
    RunConcat(cfg, until, w, Mixed(others, h, n), others(n));
    OtherTurns(cfg, until, at, others(n), h);
  }

  lemma {:induction false} NotYetDone(cfg: Config, until: Time, w: World, others: nat -> seq<HostId>, h: HostId, n: nat, bound: nat)
    requires Inv(cfg, until, w) && Apart(others, h) && h in w.hosts && n <= bound
    requires !Enabled(until, Run(cfg, until, w, Mixed(others, h, bound)), h)
    requires var end := Run(cfg, until, w, Mixed(others, h, n) + others(n)); h in end.hosts && HasWork(until, end.hosts[h])
    ensures n < bound && Enabled(until, Run(cfg, until, w, Mixed(others, h, n) + others(n)), h)
  {
    hide Inv, HasWork, Run, Mixed, Arriving;
    Interlude(cfg, until, w, others, h, n);
  }

  lemma {:induction false} AloneFacts(cfg: Config, until: Time, w: World, others: nat -> seq<HostId>, h: HostId, n: nat, bound: nat)
    requires Inv(cfg, until, w) && Alone(others) && n <= bound
    requires var end := Run(cfg, until, w, Mixed(others, h, n) + others(n)); h in end.hosts && !HasWork(until, end.hosts[h])
    ensures Run(cfg, until, w, Repeat(h, bound)) == Run(cfg, until, w, Repeat(h, n))
    ensures OwnPackets(cfg, until, w, Mixed(others, h, n), h) == Packets(cfg, until, w, Repeat(h, n))
  {
    MixedAlone(others, h, n);
    assert Mixed(others, h, n) + others(n) == Repeat(h, n);
    AllOwnPackets(cfg, until, w, h, n);
    DoneStays(cfg, until, w, h, n, bound);
  }

  lemma {:induction false} WorldHostOk(cfg: Config, until: Time, w: World, h: HostId)
    requires Inv(cfg, until, w) && h in w.hosts
    ensures HostOk(until, w.hosts[h]) && w.hosts[h].queue.Valid() && w.hosts[h].queue.lastPopped <= until
  {
  }

  /** What a turn of `h` does to `h`: its own step, and a packet to itself. */
  lemma {:induction false} TurnOf(cfg: Config, until: Time, w: World, h: HostId)
    requires Inv(cfg, until, w) && Enabled(until, w, h) && HostOk(until, w.hosts[h])
    ensures var (y, sent) := LocalStep(cfg, until, h, w.hosts[h]);
            && Emitted(cfg, until, w, h) == sent && h in Step(cfg, until, w, h).hosts
            && (sent.Some? ==> until <= sent.value.event.time && y.queue.lastPopped <= sent.value.event.time)
            && Step(cfg, until, w, h).hosts[h] ==
               if sent.Some? && sent.value.dst == h then y.(queue := y.queue.Push(sent.value.event)) else y
  {
    StepAt(cfg, until, w, h, h);
    LocalStepOk(cfg, until, h, w.hosts[h]);
    if LocalStep(cfg, until, h, w.hosts[h]).1.Some? {
      SentShape(cfg, until, h, w.hosts[h]);
    }
    hide Step, LocalStep, HasWork, KeysOk, NoneBefore, LocalIdsBelow, Queue.Valid;
  }

  /** Once a host is done, further turns of it change nothing. */
  lemma {:induction false} DoneStays(cfg: Config, until: Time, w: World, h: HostId, n: nat, m: nat)
    requires Inv(cfg, until, w) && n <= m && !Enabled(until, Run(cfg, until, w, Repeat(h, n)), h)
    ensures Run(cfg, until, w, Repeat(h, m)) == Run(cfg, until, w, Repeat(h, n))
    decreases m
  {
    hide Inv, Step, Enabled;
    if n < m {
      DoneStays(cfg, until, w, h, n, m - 1);
      assert Repeat(h, m) == Repeat(h, m - 1) + [h];
      RunConcat(cfg, until, w, Repeat(h, m - 1), [h]);
      RunOne(cfg, until, Run(cfg, until, w, Repeat(h, m - 1)), h);
      DisabledStays(cfg, until, Run(cfg, until, w, Repeat(h, n)), h);
    }
  }
}
