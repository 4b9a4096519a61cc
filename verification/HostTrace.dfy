/** What a host does, step by step, as its application sees it, and what that makes of its
    application state, its CPU, its clock and its queue (src/main/host/host.rs:749-793,
    src/main/core/worker.rs:324-397, src/lib/shim/shim_sys.c:182-219). */
module HostTrace {
  import opened EventQueue
  import opened Round
  import opened RoundOrder
  import opened Causality
  import opened Options
  import opened Numbers
  import Cpu

  /** One step of a host: an event handed to its handler, or put off by a busy CPU; an action of the
      handler, with the time until which it is blocked, if it is; an action of the shim. */
  datatype Seen =
    | Started(event: Event)
    | Deferred(event: Event)
    | Acted(time: Time, action: Action, blocked: Option<Time>)
    | Shimmed(time: Time, call: ShimAction)

  /** The CPU has been charged for more than the threshold beyond `t`. */
  predicate Busy(c: Cpu.State, t: Time) {
    c.params.threshold.Some? && c.available > t + c.params.threshold.value
  }

  /** The latency that a system call adds. */
  function Modelled(cfg: Config, latency: nat): nat {
    if cfg.modelLatency then latency else 0
  }

  /** The time until which the handler is blocked by its action: after a system call, if too much
      latency has built up and nothing allows the clock to be moved that far. */
  function BlockedUntil(cfg: Config, cap: Time, x: Host, action: Action): Option<Time> {
    if action.Syscall? && x.unapplied + Modelled(cfg, action.latency) > cfg.maxUnapplied
       && x.clock + x.unapplied + Modelled(cfg, action.latency) > cap
    then Some(x.clock + x.unapplied + Modelled(cfg, action.latency)) else None
  }

  function Look(cfg: Config, until: Time, h: HostId, x: Host): Seen
    requires HostOk(until, x) && HasWork(until, x)
  {
    match x.mode
    case Idle =>
      var e := x.queue.Pop().0;
      if Busy(x.cpu, e.time) then Deferred(e) else Started(e)
    case Running =>
      var action := cfg.act(h, x.app, x.clock).1;
      Acted(x.clock, action, BlockedUntil(cfg, RunaheadCap(until, x.queue), x, action))
    case InShim => Shimmed(x.clock, cfg.shim(h, x.app, x.clock).1)
  }

  // ---- The trace of a host along a schedule -------------------------------------------------------

  function SeenIn(cfg: Config, until: Time, w: World, g: HostId, h: HostId): Option<Seen>
    requires Inv(cfg, until, w) && h in w.hosts
  {
    if g == h && Enabled(until, w, h) then Some(Look(cfg, until, h, w.hosts[h])) else None
  }

  function Trace(cfg: Config, until: Time, w: World, schedule: seq<HostId>, h: HostId): seq<Seen>
    requires Inv(cfg, until, w) && h in w.hosts
    decreases |schedule|
  {
    if schedule == [] then []
    else
      StepForward(cfg, until, w, schedule[0], h);
      Listed(SeenIn(cfg, until, w, schedule[0], h)) + Trace(cfg, until, Step(cfg, until, w, schedule[0]), schedule[1..], h)
  }

  function Listed<T>(x: Option<T>): seq<T> {
    if x.Some? then [x.value] else []
  }

  lemma {:induction false} TraceUnfold(cfg: Config, until: Time, w: World, schedule: seq<HostId>, h: HostId)
    requires Inv(cfg, until, w) && h in w.hosts && schedule != []
    ensures var v := Step(cfg, until, w, schedule[0]);
            && Inv(cfg, until, v) && h in v.hosts && Run(cfg, until, w, schedule) == Run(cfg, until, v, schedule[1..])
            && Trace(cfg, until, w, schedule, h) ==
               Listed(SeenIn(cfg, until, w, schedule[0], h)) + Trace(cfg, until, v, schedule[1..], h)
  {
    StepForward(cfg, until, w, schedule[0], h);
    hide Inv, Step, SeenIn;
  }

  lemma {:induction false} NoTrace(cfg: Config, until: Time, w: World, h: HostId)
    requires Inv(cfg, until, w) && h in w.hosts
    ensures Trace(cfg, until, w, [], h) == [] && Run(cfg, until, w, []) == w
  {
    hide Inv;
  }

  /** Another host's turn changes nothing but the queue. */
  lemma {:induction false} OnlyQueueChanges(cfg: Config, until: Time, w: World, g: HostId, h: HostId)
    requires Inv(cfg, until, w) && h in w.hosts && SeenIn(cfg, until, w, g, h).None?
    ensures h in Step(cfg, until, w, g).hosts
    ensures var x, y := w.hosts[h], Step(cfg, until, w, g).hosts[h]; y == x.(queue := y.queue)
  {
    if Enabled(until, w, g) {
      StepAt(cfg, until, w, g, h);
      hide Step, LocalStep, HostOk, KeysOk, HasWork, Look;
    } else {
      DisabledStays(cfg, until, w, g);
    }
  }

  /** A turn of `h` is its local step, and perhaps a packet to itself. */
  lemma {:induction false} OwnTurn(cfg: Config, until: Time, w: World, h: HostId)
    requires Inv(cfg, until, w) && Enabled(until, w, h)
    ensures h in Step(cfg, until, w, h).hosts && HostOk(until, w.hosts[h])
    ensures var x, y := LocalStep(cfg, until, h, w.hosts[h]).0, Step(cfg, until, w, h).hosts[h]; y == x.(queue := y.queue)
  {
    StepAt(cfg, until, w, h, h);
    hide Step, LocalStep, KeysOk, HasWork;
  }

  // ---- The application ------------------------------------------------------------------------

  /** What one step makes of the application: an event goes to its handler, an action is taken by it,
      a packet that is sent draws from its random numbers, and a blocked call is told until when. */
  function AppAfter(cfg: Config, h: HostId, app: App, s: Seen): App {
    match s
    case Started(e) => cfg.start(h, app, e)
    case Deferred(_) => app
    case Acted(t, action, blocked) =>
      var a := cfg.act(h, app, t).0;
      if action.Send? && t < cfg.simEnd && action.dst in cfg.dns then cfg.draw(h, a, action.dst).0
      else if blocked.Some? then cfg.blocked(h, a, blocked.value)
      else a
    case Shimmed(t, _) => cfg.shim(h, app, t).0
  }

  function AppsAfter(cfg: Config, h: HostId, app: App, trace: seq<Seen>): App
    decreases |trace|
  {
    if trace == [] then app else AppsAfter(cfg, h, AppAfter(cfg, h, app, trace[0]), trace[1..])
  }

  lemma {:induction false} AppStep(cfg: Config, until: Time, h: HostId, x: Host)
    requires HostOk(until, x) && HasWork(until, x)
    ensures LocalStep(cfg, until, h, x).0.app == AppAfter(cfg, h, x.app, Look(cfg, until, h, x))
  {
    hide NoneBefore, LocalIdsBelow, HasWork, RunaheadCap, Queue.Valid, Queue.Pop;
  }

  /** At every point of every schedule, a host's application is what its trace makes of it: every event
      it pops and does not put off has gone to its handler exactly once, in the order of the pops, and
      between them the handler's and the shim's actions, at the times they happened. */
  lemma {:induction false} AppHistory(cfg: Config, until: Time, w: World, schedule: seq<HostId>, h: HostId)
    requires Inv(cfg, until, w) && h in w.hosts
    ensures h in Run(cfg, until, w, schedule).hosts
    ensures Run(cfg, until, w, schedule).hosts[h].app == AppsAfter(cfg, h, w.hosts[h].app, Trace(cfg, until, w, schedule, h))
    decreases |schedule|
  {
    hide *;
    if schedule == [] {
      NoTrace(cfg, until, w, h);
      AppsOf(cfg, h, w.hosts[h].app, None, []);
    } else {
      var v := Step(cfg, until, w, schedule[0]);
      AppTurn(cfg, until, w, schedule[0], h);
      TraceUnfold(cfg, until, w, schedule, h);
      AppHistory(cfg, until, v, schedule[1..], h);
      AppsOf(cfg, h, w.hosts[h].app, SeenIn(cfg, until, w, schedule[0], h), Trace(cfg, until, v, schedule[1..], h));
    }
  }

  lemma {:induction false} AppsOf(cfg: Config, h: HostId, app: App, s: Option<Seen>, rest: seq<Seen>)
    ensures AppsAfter(cfg, h, app, Listed(s) + rest) ==
            AppsAfter(cfg, h, if s.Some? then AppAfter(cfg, h, app, s.value) else app, rest)
    ensures AppsAfter(cfg, h, app, []) == app
  {
    hide AppAfter;
    if s.Some? {
      assert (Listed(s) + rest)[1..] == rest;
    } else {
      assert Listed(s) + rest == rest;
    }
  }

  lemma {:induction false} AppTurn(cfg: Config, until: Time, w: World, g: HostId, h: HostId)
    requires Inv(cfg, until, w) && h in w.hosts
    ensures h in Step(cfg, until, w, g).hosts
    ensures var s := SeenIn(cfg, until, w, g, h);
            Step(cfg, until, w, g).hosts[h].app == if s.Some? then AppAfter(cfg, h, w.hosts[h].app, s.value) else w.hosts[h].app
  {
    if SeenIn(cfg, until, w, g, h).Some? {
      OwnTurn(cfg, until, w, h);
      AppStep(cfg, until, h, w.hosts[h]);
    } else {
      OnlyQueueChanges(cfg, until, w, g, h);
    }
    hide Inv, Step, LocalStep, Look, AppAfter, HasWork;
  }

  /** The events of a trace are those that the host pops, in that order. */
  lemma {:induction false} TraceIsPops(cfg: Config, until: Time, w: World, schedule: seq<HostId>, h: HostId)
    requires Inv(cfg, until, w) && h in w.hosts
    ensures TimesOf(Trace(cfg, until, w, schedule, h)) == PopTimes(cfg, until, w, schedule, h)
    decreases |schedule|
  {
    hide *;
    PopsUnfold(cfg, until, w, schedule, h);
    if schedule == [] {
      NoTrace(cfg, until, w, h);
      NoTimes();
    } else {
      TraceUnfold(cfg, until, w, schedule, h);
      var seen := SeenIn(cfg, until, w, schedule[0], h);
      TraceIsPops(cfg, until, Step(cfg, until, w, schedule[0]), schedule[1..], h);
      SeenPop(cfg, until, w, schedule[0], h);
      TimesOfConcat(Listed(seen), Trace(cfg, until, Step(cfg, until, w, schedule[0]), schedule[1..], h));
    }
  }

  lemma {:induction false} NoTimes()
    ensures TimesOf([]) == []
  {
  }

  lemma {:induction false} PopsUnfold(cfg: Config, until: Time, w: World, schedule: seq<HostId>, h: HostId)
    requires Inv(cfg, until, w) && h in w.hosts
    ensures if schedule == [] then PopTimes(cfg, until, w, schedule, h) == []
            else
              var v := Step(cfg, until, w, schedule[0]);
              && h in v.hosts
              && PopTimes(cfg, until, w, schedule, h) ==
                 Listed(PopTime(cfg, until, w, schedule[0], h)) + PopTimes(cfg, until, v, schedule[1..], h)
  {
    if schedule != [] {
      StepForward(cfg, until, w, schedule[0], h);
    }
    hide Inv, Step, PopTime;
  }

  lemma {:induction false} SeenPop(cfg: Config, until: Time, w: World, g: HostId, h: HostId)
    requires Inv(cfg, until, w) && h in w.hosts
    ensures TimesOf(Listed(SeenIn(cfg, until, w, g, h))) == Listed(PopTime(cfg, until, w, g, h))
  {
    var seen := SeenIn(cfg, until, w, g, h);
    assert seen.Some? ==> [seen.value][1..] == [];
    hide KeysOk, BlockedUntil, HasWork, Busy;
  }

  /** The time of the event popped in a step, if one is. */
  function TimeOf(s: Seen): seq<Time> {
    if s.Started? || s.Deferred? then [s.event.time] else []
  }

  function TimesOf(trace: seq<Seen>): seq<Time> {
    if trace == [] then [] else TimeOf(trace[0]) + TimesOf(trace[1..])
  }

  lemma {:induction false} TimesOfConcat(a: seq<Seen>, b: seq<Seen>)
    ensures TimesOf(a + b) == TimesOf(a) + TimesOf(b)
    decreases |a|
  {
    hide TimeOf;
    if a == [] {
      assert a + b == b;
    } else {
      assert (a + b)[0] == a[0] && (a + b)[1..] == a[1..] + b;
      TimesOfConcat(a[1..], b);
    }
  }

  // ---- The CPU ----------------------------------------------------------------------------------

  /** What a step does to the CPU, in the CPU's own terms. */
  function CpuOps(trace: seq<Seen>): seq<Cpu.Op> {
    if trace == [] then []
    else
      (match trace[0]
       case Started(e) => [Cpu.Update(e.time)]
       case Deferred(e) => [Cpu.Update(e.time)]
       case Acted(_, action, _) => if action.Charge? then [Cpu.Add(action.native)] else []
       case Shimmed(_, _) => [])
      + CpuOps(trace[1..])
  }

  lemma {:induction false} CpuOneMore(p: Cpu.Params, ops: seq<Cpu.Op>, op: Cpu.Op)
    requires p.Valid()
    ensures Cpu.Run(Cpu.Init(p), ops).params == p
    ensures Cpu.Run(Cpu.Init(p), ops + [op]) ==
            match op
            case Add(n) => Cpu.AddDelay(Cpu.Run(Cpu.Init(p), ops), n)
            case Update(t) => Cpu.UpdateTime(Cpu.Run(Cpu.Init(p), ops), t)
  {
    assert (ops + [op])[..|ops|] == ops;
    Cpu.ChargedExactly(p, ops);
    hide Cpu.AddDelay, Cpu.UpdateTime;
  }

  lemma {:induction false} CpuTurn(cfg: Config, until: Time, w: World, g: HostId, h: HostId, p: Cpu.Params, ops: seq<Cpu.Op>)
    requires Inv(cfg, until, w) && h in w.hosts && p.Valid() && w.hosts[h].cpu == Cpu.Run(Cpu.Init(p), ops)
    ensures h in Step(cfg, until, w, g).hosts
    ensures Step(cfg, until, w, g).hosts[h].cpu == Cpu.Run(Cpu.Init(p), ops + CpuOps(Listed(SeenIn(cfg, until, w, g, h))))
  {
    var s := SeenIn(cfg, until, w, g, h);
    if s.Some? {
      OwnTurn(cfg, until, w, h);
      assert [s.value][1..] == [];
      var now := CpuOps([s.value]);
      CpuStep(cfg, until, h, w.hosts[h]);
      hide Inv, Step, LocalStep, Look, Cpu.Run, HasWork;
      if now == [] {
        assert ops + now == ops;
      } else {
        assert now == [now[0]];
        CpuOneMore(p, ops, now[0]);
      }
    } else {
      OnlyQueueChanges(cfg, until, w, g, h);
      assert ops + [] == ops;
    }
  }

  lemma {:induction false} CpuStep(cfg: Config, until: Time, h: HostId, x: Host)
    requires HostOk(until, x) && HasWork(until, x)
    ensures var ops := CpuOps([Look(cfg, until, h, x)]);
            LocalStep(cfg, until, h, x).0.cpu ==
            if ops == [] then x.cpu
            else match ops[0] case Add(n) => Cpu.AddDelay(x.cpu, n) case Update(t) => Cpu.UpdateTime(x.cpu, t)
  {
    assert [Look(cfg, until, h, x)][1..] == [];
    hide NoneBefore, LocalIdsBelow, HasWork, RunaheadCap, Queue.Valid, Queue.Pop;
  }

  /** The CPU of a host has the history that the trace gives it: it is set to the time of every event
      popped, and charged with what the handlers charge and nothing else. */
  lemma {:induction false} CpuHistory(cfg: Config, until: Time, w: World, schedule: seq<HostId>, h: HostId, p: Cpu.Params, ops: seq<Cpu.Op>)
    requires Inv(cfg, until, w) && h in w.hosts && p.Valid() && w.hosts[h].cpu == Cpu.Run(Cpu.Init(p), ops)
    ensures h in Run(cfg, until, w, schedule).hosts
    ensures Run(cfg, until, w, schedule).hosts[h].cpu == Cpu.Run(Cpu.Init(p), ops + CpuOps(Trace(cfg, until, w, schedule, h)))
    decreases |schedule|
  {
    hide *;
    if schedule == [] {
      NoTrace(cfg, until, w, h);
      CpuOpsConcat([], []);
      assert ops + [] == ops;
    } else {
      var v := Step(cfg, until, w, schedule[0]);
      TraceUnfold(cfg, until, w, schedule, h);
      CpuTurn(cfg, until, w, schedule[0], h, p, ops);
      var now, rest := Listed(SeenIn(cfg, until, w, schedule[0], h)), Trace(cfg, until, v, schedule[1..], h);
      CpuHistory(cfg, until, v, schedule[1..], h, p, ops + CpuOps(now));
      CpuOpsConcat(now, rest);
      assert ops + CpuOps(now) + CpuOps(rest) == ops + (CpuOps(now) + CpuOps(rest));
    }
  }

  lemma {:induction false} CpuOpsConcat(a: seq<Seen>, b: seq<Seen>)
    ensures CpuOps(a + b) == CpuOps(a) + CpuOps(b) && CpuOps([]) == []
    decreases |a|
  {
    if a == [] {
      assert a + b == b;
    } else {
      assert (a + b)[1..] == a[1..] + b;
      CpuOpsConcat(a[1..], b);
    }
  }

  // ---- Time and latency -------------------------------------------------------------------------

  /** A step within the handling of an event: neither an event nor a thread is taken up, and nothing is
      blocked. */
  predicate Handling(s: Seen) {
    match s
    case Acted(_, action, blocked) => !action.Resume? && blocked.None?
    case Shimmed(_, _) => true
    case _ => false
  }

  /** The time a step costs: the modelled latency of a system call, wherever it is handled. */
  function Cost(cfg: Config, s: Seen): nat {
    match s
    case Acted(_, action, _) => if action.Syscall? then Modelled(cfg, action.latency) else 0
    case Shimmed(_, call) => if call.LocalSyscall? then Modelled(cfg, call.latency) else 0
    case _ => 0
  }

  /** Of every step: what it costs goes to the clock or is kept to be applied later, neither lost nor
      counted twice; a blocked call keeps nothing, being blocked until all of it has passed; an event
      sets the clock to its own time. */
  lemma {:induction false} TimeStep(cfg: Config, until: Time, h: HostId, x: Host)
    requires HostOk(until, x) && HasWork(until, x)
    ensures var s, y := Look(cfg, until, h, x), LocalStep(cfg, until, h, x).0;
            && (Handling(s) ==> y.clock + y.unapplied == x.clock + x.unapplied + Cost(cfg, s) && x.clock <= y.clock)
            && (s.Started? ==> y.clock == s.event.time && y.unapplied == x.unapplied)
            && (s.Deferred? ==> y.clock == x.clock && y.unapplied == x.unapplied)
            && (!Handling(s) && s.Acted? ==> y.clock == x.clock && y.unapplied == 0)
            && (s.Acted? && s.blocked.Some? ==> s.blocked.value == x.clock + x.unapplied + Cost(cfg, s) > RunaheadCap(until, x.queue))
  {
    hide NoneBefore, LocalIdsBelow, HasWork, RunaheadCap, Queue.Valid, Queue.Pop;
  }

  /** After every system call no more than the allowed latency is kept, or the shim has yielded. */
  lemma {:induction false} LittleIsKept(cfg: Config, until: Time, h: HostId, x: Host)
    requires HostOk(until, x) && HasWork(until, x) && cfg.modelLatency
    ensures var s, y := Look(cfg, until, h, x), LocalStep(cfg, until, h, x).0;
            && (s.Acted? && s.action.Syscall? ==> y.unapplied <= cfg.maxUnapplied)
            && (s.Shimmed? && s.call.LocalSyscall? ==>
                  (y.mode == InShim ==> y.unapplied <= cfg.maxUnapplied)
                  && (y.mode == Running <==> x.unapplied + s.call.latency > cfg.maxUnapplied
                                             && x.clock + x.unapplied + s.call.latency > x.maxRunahead))
  {
    hide NoneBefore, LocalIdsBelow, HasWork, RunaheadCap, Queue.Valid, Queue.Pop;
  }

  function TotalCost(cfg: Config, trace: seq<Seen>): nat {
    if trace == [] then 0 else Cost(cfg, trace[0]) + TotalCost(cfg, trace[1..])
  }

  lemma {:induction false} TimeTurn(cfg: Config, until: Time, w: World, g: HostId, h: HostId)
    requires Inv(cfg, until, w) && h in w.hosts
    requires forall s | s in Listed(SeenIn(cfg, until, w, g, h)) :: Handling(s)
    ensures h in Step(cfg, until, w, g).hosts
    ensures var x, y := w.hosts[h], Step(cfg, until, w, g).hosts[h];
            y.clock + y.unapplied == x.clock + x.unapplied + TotalCost(cfg, Listed(SeenIn(cfg, until, w, g, h)))
  {
    var s := SeenIn(cfg, until, w, g, h);
    if s.Some? {
      assert s.value in Listed(s) && Listed(s)[1..] == [];
      OwnTurn(cfg, until, w, h);
      TimeStep(cfg, until, h, w.hosts[h]);
    } else {
      OnlyQueueChanges(cfg, until, w, g, h);
    }
    hide Inv, Step, LocalStep, Look, HasWork, Handling, Cost;
  }

  /** Along every schedule, through handlers and shim and however other hosts move in between: while a
      host handles an event without being blocked, its clock and what is kept to be applied grow
      together by exactly the modelled latencies of its system calls. */
  lemma {:induction false} LatencyConserved(cfg: Config, until: Time, w: World, schedule: seq<HostId>, h: HostId)
    requires Inv(cfg, until, w) && h in w.hosts
    requires forall s | s in Trace(cfg, until, w, schedule, h) :: Handling(s)
    ensures h in Run(cfg, until, w, schedule).hosts
    ensures var x, y := w.hosts[h], Run(cfg, until, w, schedule).hosts[h];
            y.clock + y.unapplied == x.clock + x.unapplied + TotalCost(cfg, Trace(cfg, until, w, schedule, h))
    decreases |schedule|
  {
    hide *;
    if schedule == [] {
      NoTrace(cfg, until, w, h);
      CostConcat(cfg, [], []);
    } else {
      TraceUnfold(cfg, until, w, schedule, h);
      var v := Step(cfg, until, w, schedule[0]);
      var now, rest := Listed(SeenIn(cfg, until, w, schedule[0], h)), Trace(cfg, until, v, schedule[1..], h);
      TimeTurn(cfg, until, w, schedule[0], h);
      LatencyConserved(cfg, until, v, schedule[1..], h);
      CostConcat(cfg, now, rest);
    }
  }

  lemma {:induction false} CostConcat(cfg: Config, a: seq<Seen>, b: seq<Seen>)
    ensures TotalCost(cfg, a + b) == TotalCost(cfg, a) + TotalCost(cfg, b) && TotalCost(cfg, []) == 0
    decreases |a|
  {
    if a == [] {
      assert a + b == b;
    } else {
      assert (a + b)[1..] == a[1..] + b;
      CostConcat(cfg, a[1..], b);
    }
  }

  // ---- Who has control ----------------------------------------------------------------------------

  /** An event is handled until its handler is done, and the shim has control from when it is given it
      until it yields. */
  lemma {:induction false} ControlStep(cfg: Config, until: Time, h: HostId, x: Host)
    requires HostOk(until, x) && HasWork(until, x)
    ensures var s, y := Look(cfg, until, h, x), LocalStep(cfg, until, h, x).0;
            && (s.Started? ==> y.mode == Running) && (s.Deferred? ==> y.mode == Idle)
            && (s.Acted? ==> y.mode == if s.action.Done? then Idle else if s.action.Continue? then InShim else Running)
            && (s.Acted? && (s.action.Continue? || s.action.Resume?) ==> y.maxRunahead == RunaheadCap(until, x.queue))
            && (s.Shimmed? && s.call.Yield? ==> y.mode == Running)
            && (s.Shimmed? && s.call.LocalSyscall? && y.clock != x.clock ==> y.mode == InShim)
  {
    hide NoneBefore, LocalIdsBelow, HasWork, RunaheadCap, Queue.Valid, Queue.Pop;
  }

  /** An id is used up by every task scheduled and every packet sent, and by nothing else. */
  lemma {:induction false} IdStep(cfg: Config, until: Time, h: HostId, x: Host)
    requires HostOk(until, x) && HasWork(until, x)
    ensures var s, (y, sent) := Look(cfg, until, h, x), LocalStep(cfg, until, h, x);
            y.nextEventId == x.nextEventId + if s.Acted? && (s.action.Schedule? || sent.Some?) then 1 else 0
  {
    hide NoneBefore, LocalIdsBelow, HasWork, RunaheadCap, Queue.Valid, Queue.Pop;
  }

  // ---- The queue ----------------------------------------------------------------------------------

  /** What a step takes out of its host's queue. */
  function Gone(s: Seen): set<Event> {
    if s.Started? || s.Deferred? then {s.event} else {}
  }

  /** What it puts in: an event put off comes back when the CPU is available, a task is due after its
      delay; neither from the end of the simulation on. */
  function Made(cfg: Config, x: Host, s: Seen): set<Event> {
    match s
    case Deferred(e) => if x.cpu.available < cfg.simEnd then {e.(time := x.cpu.available)} else {}
    case Acted(t, action, _) =>
      if action.Schedule? && t + action.delay < cfg.simEnd
      then {Event(t + action.delay, LocalData(action.task, x.nextEventId))} else {}
    case _ => {}
  }

  lemma {:induction false} QueueStep(cfg: Config, until: Time, h: HostId, x: Host)
    requires HostOk(until, x) && HasWork(until, x)
    ensures var s := Look(cfg, until, h, x);
            LocalStep(cfg, until, h, x).0.queue.events == x.queue.events - Gone(s) + Made(cfg, x, s)
  {
    hide NoneBefore, LocalIdsBelow, HasWork, RunaheadCap, WellKeyed;
  }

  /** The packet that a turn of `g` puts into the queue of `h`. */
  function Arrived(cfg: Config, until: Time, w: World, g: HostId, h: HostId): set<Event>
    requires Inv(cfg, until, w)
  {
    var sent := Emitted(cfg, until, w, g);
    if sent.Some? && sent.value.dst == h then {sent.value.event} else {}
  }

  /** What a turn of `g` takes out of and puts into the queue of `h`. */
  datatype Entry = Entry(out: set<Event>, into: set<Event>)

  function EntryOf(cfg: Config, until: Time, w: World, g: HostId, h: HostId): Entry
    requires Inv(cfg, until, w) && h in w.hosts
  {
    var s := SeenIn(cfg, until, w, g, h);
    Entry(if s.Some? then Gone(s.value) else {},
          (if s.Some? then Made(cfg, w.hosts[h], s.value) else {}) + Arrived(cfg, until, w, g, h))
  }

  function Ledger(cfg: Config, until: Time, w: World, schedule: seq<HostId>, h: HostId): seq<Entry>
    requires Inv(cfg, until, w) && h in w.hosts
    decreases |schedule|
  {
    if schedule == [] then []
    else
      StepForward(cfg, until, w, schedule[0], h);
      [EntryOf(cfg, until, w, schedule[0], h)] + Ledger(cfg, until, Step(cfg, until, w, schedule[0]), schedule[1..], h)
  }

  function Balance(q: set<Event>, ledger: seq<Entry>): set<Event>
    decreases |ledger|
  {
    if ledger == [] then q else Balance(q - ledger[0].out + ledger[0].into, ledger[1..])
  }

  lemma {:induction false} QueueTurn(cfg: Config, until: Time, w: World, g: HostId, h: HostId)
    requires Inv(cfg, until, w) && h in w.hosts
    ensures h in Step(cfg, until, w, g).hosts
    ensures var e := EntryOf(cfg, until, w, g, h);
            Step(cfg, until, w, g).hosts[h].queue.events == w.hosts[h].queue.events - e.out + e.into
  {
    hide *;
    EventsAfter(cfg, until, w, g, h);
    EntryParts(cfg, until, w, g, h);
  }

  /** Of a turn of `g`, the queue of `h` sees its own local step and the packet. */
  lemma {:induction false} EventsAfter(cfg: Config, until: Time, w: World, g: HostId, h: HostId)
    requires Inv(cfg, until, w) && h in w.hosts
    ensures h in Step(cfg, until, w, g).hosts && HostOk(until, w.hosts[h])
    ensures Step(cfg, until, w, g).hosts[h].queue.events ==
            (if g == h && Enabled(until, w, h) then LocalStep(cfg, until, h, w.hosts[h]).0.queue.events else w.hosts[h].queue.events)
            + Arrived(cfg, until, w, g, h)
  {
    assert HostOk(until, w.hosts[h]);
    hide Inv, HostOk, HasWork, LocalStep;
    if Enabled(until, w, g) {
      StepAt(cfg, until, w, g, h);
      PacketIsPlaced(cfg, until, w, g, h);
      hide Step, Plus;
      var (y, sent) := Effect(cfg, until, w, g);
      PlusEvents(if h == g then y else w.hosts[h], sent, h);
    } else {
      DisabledStays(cfg, until, w, g);
      hide Step;
    }
  }

  lemma {:induction false} EntryParts(cfg: Config, until: Time, w: World, g: HostId, h: HostId)
    requires Inv(cfg, until, w) && h in w.hosts && HostOk(until, w.hosts[h])
    ensures var e, q := EntryOf(cfg, until, w, g, h), w.hosts[h].queue.events;
            q - e.out + e.into ==
            (if g == h && Enabled(until, w, h) then LocalStep(cfg, until, h, w.hosts[h]).0.queue.events else q)
            + Arrived(cfg, until, w, g, h)
  {
    hide Inv, HostOk, HasWork, LocalStep, Look, Gone, Made, Arrived;
    if g == h && Enabled(until, w, h) {
      QueueStep(cfg, until, h, w.hosts[h]);
    }
  }

  lemma {:induction false} PlusEvents(x: Host, sent: Option<Sent>, h: HostId)
    requires sent.Some? ==> x.queue.lastPopped <= sent.value.event.time
    ensures Plus(x, sent, h).queue.events ==
            x.queue.events + if sent.Some? && sent.value.dst == h then {sent.value.event} else {}
  {
  }

  /** A packet is never before what its receiver popped last, so it always gets into the queue. */
  lemma {:induction false} PacketIsPlaced(cfg: Config, until: Time, w: World, g: HostId, h: HostId)
    requires Inv(cfg, until, w) && Enabled(until, w, g) && h in w.hosts
    ensures var (y, sent) := Effect(cfg, until, w, g);
            sent.Some? ==> (if h == g then y else w.hosts[h]).queue.lastPopped <= sent.value.event.time
  {
    LocalStepOk(cfg, until, g, w.hosts[g]);
    SentIsLate(cfg, until, w, g);
    assert HostOk(until, w.hosts[h]);
    hide LocalStep, HasWork, NoneBefore, LocalIdsBelow, KeysOk, Queue.Valid;
  }

  /** Along every schedule, a host's queue is the one it started with, less the events it popped, plus
      the tasks its handlers scheduled, the events put off and the packets sent to it: no event is lost,
      made up, moved in time or doubled on the way. */
  lemma {:induction false} QueueHistory(cfg: Config, until: Time, w: World, schedule: seq<HostId>, h: HostId)
    requires Inv(cfg, until, w) && h in w.hosts
    ensures h in Run(cfg, until, w, schedule).hosts
    ensures Run(cfg, until, w, schedule).hosts[h].queue.events == Balance(w.hosts[h].queue.events, Ledger(cfg, until, w, schedule, h))
    decreases |schedule|
  {
    if schedule != [] {
      QueueTurn(cfg, until, w, schedule[0], h);
      hide Inv, Step, EntryOf;
      var rest := Ledger(cfg, until, Step(cfg, until, w, schedule[0]), schedule[1..], h);
      QueueHistory(cfg, until, Step(cfg, until, w, schedule[0]), schedule[1..], h);
      assert ([EntryOf(cfg, until, w, schedule[0], h)] + rest)[1..] == rest;
    }
  }
}
