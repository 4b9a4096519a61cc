/** One scheduling round: what each host does between `window_start` and `window_end`
    (src/main/host/host.rs `execute`, src/main/core/worker.rs `send_packet`,
    src/main/host/managed_thread.rs `continue_plugin`, src/lib/shim/shim_sys.c).

    Hosts run concurrently on worker threads and touch each other only through the locked
    event queues, so the round is a step relation: `Step(cfg, until, w, h)` is the next locked
    action of host `h`, and a schedule is any sequence of host ids.  What an application does is
    an arbitrary deterministic function of its own state and clock. */
module Round {
  import opened EventQueue
  import Cpu
  import opened Options
  import opened Numbers

  /** Everything a host knows apart from its clock, CPU, event counter and queue, including the
      state of its random number generator. */
  type App(!new, ==)
  type Ip = nat

  /** What Shadow's side of a host does next while it runs an event. */
  datatype Action =
    | Done
    | Schedule(delay: nat, task: Task)
    | Send(dst: Ip, packet: Packet)
    | Resume
    | Continue
    | Syscall(latency: nat)
    | Charge(native: nat)

  /** What the shim inside the managed process does next while it has control. */
  datatype ShimAction = LocalSyscall(latency: nat) | Yield

  datatype Config = Config(
    hosts: set<HostId>,
    dns: map<Ip, HostId>,
    latency: (HostId, Ip) -> nat,
    payloadLen: Packet -> nat,
    start: (HostId, App, Event) -> App,
    act: (HostId, App, Time) -> (App, Action),
    shim: (HostId, App, Time) -> (App, ShimAction),
    blocked: (HostId, App, Time) -> App,
    draw: (HostId, App, Ip) -> (App, bool),
    simEnd: Time,
    bootstrapEnd: Time,
    modelLatency: bool,
    maxUnapplied: nat,
    minPossibleLatency: nat,
    minRunahead: Option<nat>,
    dynamicRunahead: bool)
  {
    predicate Valid() {
      && (forall ip | ip in dns :: dns[ip] in hosts)
      && minPossibleLatency > 0
    }

    /** The routing table's promise: no path is faster than the smallest edge latency. */
    ghost predicate LatenciesBounded() {
      forall h, ip :: latency(h, ip) >= minPossibleLatency
    }
  }

  datatype Mode = Idle | Running | InShim

  datatype Host = Host(
    app: App,
    mode: Mode,
    clock: Time,
    cpu: Cpu.State,
    nextEventId: nat,
    maxRunahead: Time,
    unapplied: nat,
    queue: Queue)
  {
    function Receive(e: Event): Host
      requires queue.lastPopped <= e.time
    {
      this.(queue := queue.Push(e))
    }
  }

  datatype World = World(hosts: map<HostId, Host>, minUsed: Option<nat>)

  /** A packet on its way to another host's queue. */
  datatype Sent = Sent(dst: HostId, event: Event, sentAt: Time, delay: nat)

  function OptMin(a: Option<nat>, b: Option<nat>): Option<nat> {
    if a.None? then b else if b.None? then a else Some(Min(a.value, b.value))
  }

  /** `Worker::max_event_runahead_time`: how far the current event may move its own clock. */
  function RunaheadCap(until: Time, q: Queue): (cap: Time)
    requires q.Valid()
    ensures cap <= until && forall e | e in q.events :: cap <= e.time
    ensures cap == until || exists e :: e in q.events && cap == e.time
  {
    var next := q.Next();
    if next.None? then until
    else
      assert Least(q.events) in q.events;
      Min(until, next.value)
  }

  // ---- Invariant --------------------------------------------------------------------------

  /** No queued event lies before `t`. */
  ghost predicate NoneBefore(q: set<Event>, t: Time) {
    forall e | e in q :: t <= e.time
  }

  ghost predicate LocalIdsBelow(q: set<Event>, n: nat) {
    forall e | e in q && e.data.LocalData? :: e.data.eventId < n
  }

  ghost predicate TimesOk(until: Time, x: Host) {
    && x.queue.lastPopped <= until
    && x.clock <= until
    && (x.mode != Idle ==> x.queue.lastPopped <= x.clock)
    && (x.mode == InShim ==> x.maxRunahead <= until)
    && x.cpu.params.Valid()
  }

  /** What holds of one host at every point of a round that ends at `until`: nothing queued lies
      before its clock, and while the shim has control its published cap is still good. */
  ghost predicate HostOk(until: Time, x: Host) {
    && TimesOk(until, x)
    && x.queue.Valid()
    && NoneBefore(x.queue.events, x.clock)
    && (x.mode == InShim ==> NoneBefore(x.queue.events, x.maxRunahead))
    && LocalIdsBelow(x.queue.events, x.nextEventId)
  }

  ghost predicate KeyKnown(hosts: map<HostId, Host>, e: Event) {
    e.data.PacketData? ==> e.data.src in hosts && e.data.srcEventId < hosts[e.data.src].nextEventId
  }

  ghost predicate HostsOk(until: Time, hosts: map<HostId, Host>) {
    forall h | h in hosts :: HostOk(until, hosts[h])
  }

  ghost predicate KeysOk(hosts: map<HostId, Host>) {
    forall h, e | h in hosts && e in hosts[h].queue.events :: KeyKnown(hosts, e)
  }

  ghost predicate Inv(cfg: Config, until: Time, w: World) {
    cfg.Valid() && w.hosts.Keys == cfg.hosts && HostsOk(until, w.hosts) && KeysOk(w.hosts)
  }

  // ---- Local steps ------------------------------------------------------------------------

  /** Whether `execute(until)` still has something to do on this host. */
  predicate HasWork(until: Time, x: Host) {
    x.mode != Idle || exists e | e in x.queue.events :: e.time < until
  }

  /** `Host::push_local_event`. */
  function PushLocal(cfg: Config, q: Queue, e: Event): Queue
    requires q.lastPopped <= e.time
  {
    if e.time >= cfg.simEnd then q else q.Push(e)
  }

  /** What `execute` does with a popped event: postpone it while the CPU is busy, else start it. */
  function Dispatch(cfg: Config, h: HostId, x: Host, e: Event, rest: Queue): Host
    requires rest.lastPopped <= e.time
  {
    var cpu := Cpu.UpdateTime(x.cpu, e.time);
    var delay := Cpu.Delay(cpu);
    if delay > 0 then
      x.(cpu := cpu, queue := PushLocal(cfg, rest, e.(time := e.time + delay)))
    else
      x.(cpu := cpu, queue := rest, mode := Running, clock := e.time, app := cfg.start(h, x.app, e))
  }

  /** One turn of the `execute` loop. */
  function TakeEvent(cfg: Config, h: HostId, x: Host): Host
    requires x.queue.Valid() && x.queue.events != {}
  {
    var (e, rest) := x.queue.Pop();
    Dispatch(cfg, h, x, e, rest)
  }

  /** `Host::schedule_task_with_delay`: the id is consumed even if the event is past the end. */
  function ScheduleLocal(cfg: Config, x: Host, delay: nat, task: Task): Host
    requires x.queue.lastPopped <= x.clock
  {
    var e := Event(x.clock + delay, LocalData(task, x.nextEventId));
    x.(nextEventId := x.nextEventId + 1, queue := PushLocal(cfg, x.queue, e))
  }

  /** `Worker::send_packet`, up to the push into the destination's queue. */
  function SendPacket(cfg: Config, until: Time, h: HostId, x: Host, dst: Ip, packet: Packet): (Host, Option<Sent>) {
    if x.clock >= cfg.simEnd || dst !in cfg.dns then (x, None)
    else
      var (app, unlucky) := cfg.draw(h, x.app, dst);
      if x.clock >= cfg.bootstrapEnd && unlucky && cfg.payloadLen(packet) > 0 then (x.(app := app), None)
      else
        var delay := cfg.latency(h, dst);
        var deliver := Max(x.clock + delay, until);
        var e := Event(deliver, PacketData(packet, h, x.nextEventId));
        (x.(app := app, nextEventId := x.nextEventId + 1), Some(Sent(cfg.dns[dst], e, x.clock, delay)))
  }

  /** The latency accounting at the end of a syscall handled by Shadow: move the clock if nothing
      is scheduled before the new time, otherwise block until then. */
  function WorkerSyscall(cfg: Config, cap: Time, h: HostId, x: Host, latency: nat): Host {
    var total := x.unapplied + if cfg.modelLatency then latency else 0;
    if total > cfg.maxUnapplied then
      var newTime := x.clock + total;
      if newTime <= cap then x.(clock := newTime, unapplied := 0)
      else x.(unapplied := 0, app := cfg.blocked(h, x.app, newTime))
    else x.(unapplied := total)
  }

  /** The end of `shim_sys_handle_syscall_locally`: the shim advances the shared clock itself, up
      to the cap published when it got control, or yields to Shadow. */
  function ShimSyscall(cfg: Config, x: Host, latency: nat): Host {
    if !cfg.modelLatency then x
    else
      var total := x.unapplied + latency;
      if total > cfg.maxUnapplied then
        var newTime := x.clock + total;
        if newTime <= x.maxRunahead then x.(clock := newTime, unapplied := 0)
        else x.(unapplied := total, mode := Running)
      else x.(unapplied := total)
  }

  /** An action of Shadow's side of the host; `cap` is the current `max_event_runahead_time`.
      `Continue` is the first half of `continue_plugin`: publish the cap, give the shim control. */
  function Perform(cfg: Config, until: Time, cap: Time, h: HostId, x: Host, action: Action): (Host, Option<Sent>)
    requires x.queue.lastPopped <= x.clock && x.cpu.params.Valid()
  {
    match action
    case Done => (x.(mode := Idle), None)
    case Schedule(delay, task) => (ScheduleLocal(cfg, x, delay, task), None)
    case Send(dst, packet) => SendPacket(cfg, until, h, x, dst, packet)
    case Resume => (x.(maxRunahead := cap, unapplied := 0), None)
    case Continue => (x.(maxRunahead := cap, mode := InShim), None)
    case Syscall(latency) => (WorkerSyscall(cfg, cap, h, x, latency), None)
    case Charge(native) => (x.(cpu := Cpu.AddDelay(x.cpu, native)), None)
  }

  function PerformInShim(cfg: Config, x: Host, action: ShimAction): Host {
    match action
    case LocalSyscall(latency) => ShimSyscall(cfg, x, latency)
    case Yield => x.(mode := Running)
  }

  /** The next action of host `h`, and the packet it emits, if any. */
  function LocalStep(cfg: Config, until: Time, h: HostId, x: Host): (Host, Option<Sent>)
    requires HostOk(until, x) && HasWork(until, x)
  {
    match x.mode
    case Idle => (TakeEvent(cfg, h, x), None)
    case Running =>
      var (app, action) := cfg.act(h, x.app, x.clock);
      Perform(cfg, until, RunaheadCap(until, x.queue), h, x.(app := app), action)
    case InShim =>
      var (app, action) := cfg.shim(h, x.app, x.clock);
      (PerformInShim(cfg, x.(app := app), action), None)
  }

  // ---- Local steps keep the invariant -----------------------------------------------------

  /** The clock, the queue's high-water mark and the id counter only move forward. */
  predicate Forward(x: Host, y: Host) {
    x.clock <= y.clock && x.queue.lastPopped <= y.queue.lastPopped && x.nextEventId <= y.nextEventId
  }

  lemma {:induction false} PopKeys(q: Queue)
    requires q.Valid() && q.events != {}
    ensures forall f | f in q.Pop().1.events :: f in q.events && !SameKey(q.Pop().0.data, f.data)
    ensures q.Pop().0 in q.events
  {
    var (e, rest) := q.Pop();
    forall f | f in rest.events ensures f in q.events && !SameKey(e.data, f.data) {
      assert Before(e, f);
    }
  }

  /** The queue after a pop. */
  lemma {:induction false} RestOk(q: Queue, e: Event, rest: Queue, t: Time, n: nat)
    requires q.Valid() && q.events != {} && LocalIdsBelow(q.events, n) && NoneBefore(q.events, t)
    requires (e, rest) == q.Pop()
    ensures rest.Valid() && rest.lastPopped == e.time && t <= e.time && q.lastPopped <= e.time
    ensures NoneBefore(rest.events, e.time) && NoneBefore(rest.events, t) && LocalIdsBelow(rest.events, n)
  {
    PopKeys(q);
    hide Queue.Valid;
  }

  lemma {:induction false} PushOk(q: Queue, e: Event, t: Time, n: nat)
    requires q.Valid() && NoneBefore(q.events, t) && LocalIdsBelow(q.events, n)
    requires q.lastPopped <= e.time && t <= e.time && (e.data.LocalData? ==> e.data.eventId < n)
    requires forall f | f in q.events :: !SameKey(e.data, f.data)
    ensures q.Push(e).Valid() && NoneBefore(q.Push(e).events, t) && LocalIdsBelow(q.Push(e).events, n)
  {
    PushKeepsKeys(q.events, e);
    hide WellKeyed, SameKey;
    assert forall f | f in q.Push(e).events :: f in q.events || f == e;
  }

  /** The queue after a pop, with the popped event put back at a later time. */
  lemma {:induction false} BackOk(q: Queue, e: Event, rest: Queue, t: Time, n: nat, later: Event)
    requires q.Valid() && q.events != {} && LocalIdsBelow(q.events, n) && NoneBefore(q.events, t)
    requires (e, rest) == q.Pop() && later.data == e.data && e.time <= later.time
    ensures rest.lastPopped <= later.time
    ensures rest.Push(later).Valid() && NoneBefore(rest.Push(later).events, t) && LocalIdsBelow(rest.Push(later).events, n)
  {
    RestOk(q, e, rest, t, n);
    PopKeys(q);
    hide Queue.Pop, WellKeyed, NoneBefore;
    PushOk(rest, later, t, n);
  }

  lemma {:induction false} DispatchOk(cfg: Config, until: Time, h: HostId, x: Host, e: Event, rest: Queue)
    requires TimesOk(until, x) && x.mode == Idle && rest.lastPopped == e.time < until
    requires x.clock <= e.time && x.queue.lastPopped <= e.time
    requires rest.Valid() && LocalIdsBelow(rest.events, x.nextEventId)
    requires NoneBefore(rest.events, e.time) && NoneBefore(rest.events, x.clock)
    requires var back := rest.Push(e.(time := e.time + Cpu.Delay(Cpu.UpdateTime(x.cpu, e.time))));
             back.Valid() && NoneBefore(back.events, x.clock) && LocalIdsBelow(back.events, x.nextEventId)
    ensures var y := Dispatch(cfg, h, x, e, rest);
            HostOk(until, y) && Forward(x, y) && y.queue.lastPopped == e.time
  {
    hide Cpu.Delay, Queue.Valid, NoneBefore, LocalIdsBelow;
  }

  lemma {:induction false} TakeEventOk(cfg: Config, until: Time, h: HostId, x: Host)
    requires HostOk(until, x) && x.mode == Idle && HasWork(until, x)
    ensures HostOk(until, TakeEvent(cfg, h, x)) && Forward(x, TakeEvent(cfg, h, x))
    ensures TakeEvent(cfg, h, x).queue.lastPopped == x.queue.Pop().0.time < until
  {
    var early :| early in x.queue.events && early.time < until;
    var (e, rest) := x.queue.Pop();
    assert e.time <= early.time;
    hide Cpu.Delay, HasWork, Queue.Valid, NoneBefore, LocalIdsBelow, Dispatch;
    var later := e.(time := e.time + Cpu.Delay(Cpu.UpdateTime(x.cpu, e.time)));
    RestOk(x.queue, e, rest, x.clock, x.nextEventId);
    BackOk(x.queue, e, rest, x.clock, x.nextEventId, later);
    DispatchOk(cfg, until, h, x, e, rest);
  }

  lemma {:induction false} ScheduleOk(cfg: Config, until: Time, x: Host, delay: nat, task: Task)
    requires HostOk(until, x) && x.mode == Running
    ensures HostOk(until, ScheduleLocal(cfg, x, delay, task)) && Forward(x, ScheduleLocal(cfg, x, delay, task))
  {
    var e := Event(x.clock + delay, LocalData(task, x.nextEventId));
    PushOk(x.queue, e, x.clock, x.nextEventId + 1);
  }

  /** A step that leaves the queue alone only has to keep the clock and the cap in bounds. */
  lemma {:induction false} SameQueueOk(until: Time, x: Host, y: Host)
    requires HostOk(until, x) && y.queue == x.queue && x.nextEventId <= y.nextEventId && TimesOk(until, y)
    requires NoneBefore(y.queue.events, y.clock)
    requires y.mode == InShim ==> NoneBefore(y.queue.events, y.maxRunahead)
    ensures HostOk(until, y)
  {
  }

  lemma {:induction false} SendOk(cfg: Config, until: Time, h: HostId, x: Host, dst: Ip, packet: Packet)
    requires HostOk(until, x) && x.mode == Running
    ensures var y := SendPacket(cfg, until, h, x, dst, packet).0;
            HostOk(until, y) && Forward(x, y) && y.queue == x.queue && y.clock == x.clock
  {
    hide Queue.Valid, NoneBefore;
    SameQueueOk(until, x, SendPacket(cfg, until, h, x, dst, packet).0);
  }

  lemma {:induction false} PerformOk(cfg: Config, until: Time, h: HostId, x: Host, action: Action)
    requires HostOk(until, x) && x.mode == Running
    ensures var y := Perform(cfg, until, RunaheadCap(until, x.queue), h, x, action).0;
            HostOk(until, y) && Forward(x, y)
  {
    var cap := RunaheadCap(until, x.queue);
    assert NoneBefore(x.queue.events, cap);
    if action.Schedule? {
      ScheduleOk(cfg, until, x, action.delay, action.task);
    } else if action.Send? {
      SendOk(cfg, until, h, x, action.dst, action.packet);
    } else {
      hide Queue.Valid, RunaheadCap;
      SameQueueOk(until, x, Perform(cfg, until, cap, h, x, action).0);
    }
    hide Queue.Valid, RunaheadCap, NoneBefore, LocalIdsBelow, ScheduleLocal, SendPacket;
  }

  lemma {:induction false} LocalStepOk(cfg: Config, until: Time, h: HostId, x: Host)
    requires HostOk(until, x) && HasWork(until, x)
    ensures HostOk(until, LocalStep(cfg, until, h, x).0) && Forward(x, LocalStep(cfg, until, h, x).0)
  {
    if x.mode == Idle {
      TakeEventOk(cfg, until, h, x);
    } else if x.mode == Running {
      var (app, action) := cfg.act(h, x.app, x.clock);
      var y := x.(app := app);
      assert HostOk(until, y) && y.queue == x.queue && Forward(x, y);
      PerformOk(cfg, until, h, y, action);
    }
    hide TakeEvent, Perform, Queue.Valid, LocalIdsBelow;
  }

  /** What a packet emitted by a step looks like: it carries the sender's next event id, the
      destination exists, and it is due no earlier than the end of the round. */
  lemma {:induction false} SentShape(cfg: Config, until: Time, h: HostId, x: Host)
    requires cfg.Valid() && HostOk(until, x) && HasWork(until, x)
    requires LocalStep(cfg, until, h, x).1.Some?
    ensures var (y, out) := LocalStep(cfg, until, h, x);
            && x.mode == Running
            && out.value.dst in cfg.hosts
            && out.value.event.data.PacketData? && out.value.event.data.src == h
            && out.value.event.data.srcEventId == x.nextEventId < y.nextEventId
            && out.value.sentAt == x.clock
            && out.value.event.time == Max(x.clock + out.value.delay, until)
            && y.queue == x.queue
            && exists ip :: out.value.delay == cfg.latency(h, ip)
  {
    var (app, action) := cfg.act(h, x.app, x.clock);
    assert action.Send?;
    assert LocalStep(cfg, until, h, x).1.value.delay == cfg.latency(h, action.dst);
  }

  // ---- The step relation ------------------------------------------------------------------

  /** `WorkerShared::push_packet_to_host` and the latency bookkeeping of `send_packet`. */
  function Deliver(cfg: Config, w: World, s: Sent): World
    requires s.dst in w.hosts && w.hosts[s.dst].queue.lastPopped <= s.event.time
  {
    World(w.hosts[s.dst := w.hosts[s.dst].Receive(s.event)],
          if cfg.dynamicRunahead then OptMin(w.minUsed, Some(s.delay)) else w.minUsed)
  }

  predicate Enabled(until: Time, w: World, h: HostId) {
    h in w.hosts && HasWork(until, w.hosts[h])
  }

  function Step(cfg: Config, until: Time, w: World, h: HostId): (v: World)
    requires Inv(cfg, until, w)
    ensures Inv(cfg, until, v)
  {
    if !Enabled(until, w, h) then w
    else
      var (y, out) := LocalStep(cfg, until, h, w.hosts[h]);
      LocalStepKeepsInv(cfg, until, w, h);
      var mid := World(w.hosts[h := y], w.minUsed);
      if out.None? then mid
      else
        SentIsFresh(cfg, until, w, h);
        DeliverKeepsInv(cfg, until, mid, out.value);
        Deliver(cfg, mid, out.value)
  }

  /** Run a schedule; a host that has nothing to do lets its turn pass. */
  function Run(cfg: Config, until: Time, w: World, schedule: seq<HostId>): (v: World)
    requires Inv(cfg, until, w)
    ensures Inv(cfg, until, v)
    decreases |schedule|
  {
    if schedule == [] then w else Run(cfg, until, Step(cfg, until, w, schedule[0]), schedule[1..])
  }

  /** Every host's `execute(until)` has returned. */
  predicate Finished(until: Time, w: World) {
    forall h | h in w.hosts :: !HasWork(until, w.hosts[h])
  }

  // ---- Preservation -----------------------------------------------------------------------

  lemma {:induction false} TakeEventEvents(cfg: Config, until: Time, h: HostId, x: Host, e: Event)
    requires HostOk(until, x) && x.mode == Idle && HasWork(until, x)
    requires e in TakeEvent(cfg, h, x).queue.events
    ensures exists f :: f in x.queue.events && f.data == e.data
  {
    var (p, rest) := x.queue.Pop();
    PopKeys(x.queue);
    if e in rest.events {
      assert e in x.queue.events;
    } else {
      assert p in x.queue.events && e.data == p.data;
    }
  }

  lemma {:induction false} ActionEvents(cfg: Config, until: Time, h: HostId, x: Host, e: Event)
    requires HostOk(until, x) && x.mode != Idle
    requires e in LocalStep(cfg, until, h, x).0.queue.events
    ensures e.data.LocalData? || e in x.queue.events
  {
    if e !in x.queue.events {
      var (app, action) := cfg.act(h, x.app, x.clock);
      assert action.Schedule?;
    }
  }

  /** Every queued event of the stepping host was queued before or is a local event. */
  lemma {:induction false} LocalStepEvents(cfg: Config, until: Time, h: HostId, x: Host, e: Event)
    requires HostOk(until, x) && HasWork(until, x)
    requires e in LocalStep(cfg, until, h, x).0.queue.events
    ensures e.data.LocalData? || exists f :: f in x.queue.events && f.data == e.data
  {
    if x.mode == Idle {
      TakeEventEvents(cfg, until, h, x, e);
    } else {
      ActionEvents(cfg, until, h, x, e);
    }
  }

  lemma {:induction false} LocalStepKeepsInv(cfg: Config, until: Time, w: World, h: HostId)
    requires Inv(cfg, until, w) && Enabled(until, w, h)
    ensures Inv(cfg, until, World(w.hosts[h := LocalStep(cfg, until, h, w.hosts[h]).0], w.minUsed))
  {
    LocalStepOk(cfg, until, h, w.hosts[h]);
    LocalStepKeepsKeys(cfg, until, w, h);
    hide LocalStep, KeysOk, HostOk;
  }

  lemma {:induction false} LocalStepKeepsKeys(cfg: Config, until: Time, w: World, h: HostId)
    requires Inv(cfg, until, w) && Enabled(until, w, h)
    ensures KeysOk(w.hosts[h := LocalStep(cfg, until, h, w.hosts[h]).0])
  {
    var x := w.hosts[h];
    var y := LocalStep(cfg, until, h, x).0;
    LocalStepOk(cfg, until, h, x);
    hide LocalStep, HostOk;
    var hosts' := w.hosts[h := y];
    forall k, e | k in hosts' && e in hosts'[k].queue.events ensures KeyKnown(hosts', e) {
      if k == h {
        LocalStepEvents(cfg, until, h, x, e);
        if e.data.PacketData? {
          var f :| f in x.queue.events && f.data == e.data;
          assert KeyKnown(w.hosts, f);
        }
      } else {
        assert KeyKnown(w.hosts, e);
      }
    }
  }

  /** A packet with a key nobody has seen yet may join any queue in this round. */
  ghost predicate Fresh(until: Time, x: Host, e: Event) {
    until <= e.time && e.data.PacketData? && forall f | f in x.queue.events :: !SameKey(e.data, f.data)
  }

  lemma {:induction false} ReceiveKeepsOk(until: Time, x: Host, e: Event)
    requires HostOk(until, x) && Fresh(until, x, e)
    ensures HostOk(until, x.Receive(e))
  {
    PushKeepsKeys(x.queue.events, e);
  }

  lemma {:induction false} DeliverKeepsInv(cfg: Config, until: Time, w: World, s: Sent)
    requires Inv(cfg, until, w) && s.dst in w.hosts
    requires KeyKnown(w.hosts, s.event) && Fresh(until, w.hosts[s.dst], s.event)
    ensures Inv(cfg, until, Deliver(cfg, w, s))
  {
    ReceiveKeepsOk(until, w.hosts[s.dst], s.event);
    DeliverKeepsKeys(cfg, w, s);
  }

  lemma {:induction false} DeliverKeepsKeys(cfg: Config, w: World, s: Sent)
    requires s.dst in w.hosts && w.hosts[s.dst].queue.lastPopped <= s.event.time
    requires KeysOk(w.hosts) && KeyKnown(w.hosts, s.event)
    ensures KeysOk(Deliver(cfg, w, s).hosts)
  {
    var v := Deliver(cfg, w, s);
    forall k, e | k in v.hosts && e in v.hosts[k].queue.events ensures KeyKnown(v.hosts, e) {
      DeliveredEvents(cfg, w, s, k, e);
      assert KeyKnown(w.hosts, e);
    }
  }

  lemma {:induction false} DeliveredEvents(cfg: Config, w: World, s: Sent, k: HostId, e: Event)
    requires s.dst in w.hosts && w.hosts[s.dst].queue.lastPopped <= s.event.time
    requires k in w.hosts && e in Deliver(cfg, w, s).hosts[k].queue.events
    ensures e in w.hosts[k].queue.events || e == s.event
  {
  }

  /** Ids are handed out by a counter, so the packet just emitted has a key no queue holds. */
  lemma {:induction false} SentIsFresh(cfg: Config, until: Time, w: World, h: HostId)
    requires Inv(cfg, until, w) && Enabled(until, w, h)
    requires LocalStep(cfg, until, h, w.hosts[h]).1.Some?
    ensures var (y, out) := LocalStep(cfg, until, h, w.hosts[h]);
            var mid := w.hosts[h := y];
            out.value.dst in mid && KeyKnown(mid, out.value.event) && Fresh(until, mid[out.value.dst], out.value.event)
  {
    var (y, out) := LocalStep(cfg, until, h, w.hosts[h]);
    SentShape(cfg, until, h, w.hosts[h]);
    var dst, p := out.value.dst, out.value.event;
    forall f | f in w.hosts[h := y][dst].queue.events ensures !SameKey(p.data, f.data) {
      assert f in w.hosts[dst].queue.events;
      assert KeyKnown(w.hosts, f);
    }
  }
}
