/** The timer's tasks as local events of a host (src/main/host/timer.rs:177-180,
    src/main/host/host.rs:690-709): what the host does next is an operation of the timer's punctual
    runs, at the very time those assume. */
module TimerInRound {
  import opened EventQueue
  import opened Round
  import opened RoundOrder
  import opened Causality
  import opened Options
  import T = Timer

  /** `body` gives the closure that is queued for a timer task; different tasks have different ones. */
  ghost predicate Injective(body: T.Task -> Task) {
    forall a, b :: body(a) == body(b) ==> a == b
  }

  predicate IsTask(body: T.Task -> Task, e: Event, k: T.Task) {
    e.data.LocalData? && e.data.task == body(k)
  }

  ghost predicate Placed(body: T.Task -> Task, q: set<Event>, k: T.Task) {
    exists e :: e in q && IsTask(body, e, k) && e.time == k.time
  }

  /** The queue holds the timer's tasks, each once and at its time, and no other closure of that timer. */
  ghost predicate Hosted(body: T.Task -> Task, q: set<Event>, tasks: set<T.Task>) {
    && (forall k | k in tasks :: Placed(body, q, k))
    && (forall e, k | e in q && IsTask(body, e, k) :: k in tasks && e.time == k.time)
    && (forall e, f, k | e in q && f in q && IsTask(body, e, k) && IsTask(body, f, k) :: e == f)
  }

  /** Events that are not the timer's may come and go. */
  lemma {:induction false} HostedAmong(body: T.Task -> Task, q: set<Event>, r: set<Event>, tasks: set<T.Task>)
    requires Hosted(body, q, tasks)
    requires forall e, k | IsTask(body, e, k) :: e in q <==> e in r
    ensures Hosted(body, r, tasks)
  {
    forall k | k in tasks ensures Placed(body, r, k) {
      var e :| e in q && IsTask(body, e, k) && e.time == k.time;
      assert e in r;
    }
  }

  /** Turns of other hosts leave a host's timers alone. */
  lemma {:induction false} OthersKeepTimers(cfg: Config, until: Time, w: World, g: HostId, h: HostId,
                                            body: T.Task -> Task, tasks: set<T.Task>)
    requires Inv(cfg, until, w) && h in w.hosts && g != h && Hosted(body, w.hosts[h].queue.events, tasks)
    ensures h in Step(cfg, until, w, g).hosts && Hosted(body, Step(cfg, until, w, g).hosts[h].queue.events, tasks)
  {
    StepForward(cfg, until, w, g, h);
    if Enabled(until, w, g) {
      StepAt(cfg, until, w, g, h);
      if Effect(cfg, until, w, g).1.Some? {
        SentShape(cfg, until, g, w.hosts[g]);
      }
      hide Step, LocalStep, HostOk, KeysOk, HasWork, Hosted;
      HostedAmong(body, w.hosts[h].queue.events, Step(cfg, until, w, g).hosts[h].queue.events, tasks);
    } else {
      DisabledStays(cfg, until, w, g);
    }
  }

  /** A pop of a host with this timer: of a task of the timer, which is then `OpRun` of its punctual
      runs, or of something else, which is `OpPass`.  Either way the rest of the queue still holds the
      rest of the tasks. */
  lemma {:induction false} PopIsTimerOp(until: Time, x: Host, body: T.Task -> Task, s: T.State)
    requires HostOk(until, x) && x.mode == Idle && HasWork(until, x)
    requires Injective(body) && Hosted(body, x.queue.events, s.tasks)
    requires T.START <= s.now <= x.clock && until <= s.simEnd
    ensures x.queue.Valid() && x.queue.events != {}
    ensures var (e, rest) := x.queue.Pop();
            && (forall k | IsTask(body, e, k) ::
                  k in s.tasks && e.time == k.time && T.Allowed(s, T.OpRun(k)) && Hosted(body, rest.events, s.tasks - {k}))
            && ((forall k :: !IsTask(body, e, k)) ==>
                  T.Allowed(s, T.OpPass(e.time)) && Hosted(body, rest.events, s.tasks))
  {
    var e, rest := NextEvent(until, x);
    hide HostOk, HasWork, Queue.Pop;
    assert forall k | k in s.tasks :: e.time <= k.time by {
      forall k | k in s.tasks ensures e.time <= k.time {
        var f :| f in x.queue.events && IsTask(body, f, k) && f.time == k.time;
      }
    }
    forall k | IsTask(body, e, k) ensures Hosted(body, rest.events, s.tasks - {k}) {
      WithoutTask(body, x.queue.events, rest.events, e, k, s.tasks);
    }
    if forall k :: !IsTask(body, e, k) {
      HostedAmong(body, x.queue.events, rest.events, s.tasks);
    }
  }

  lemma {:induction false} NextEvent(until: Time, x: Host) returns (e: Event, rest: Queue)
    requires HostOk(until, x) && x.mode == Idle && HasWork(until, x)
    ensures x.queue.Valid() && x.queue.events != {} && (e, rest) == x.queue.Pop()
    ensures e in x.queue.events && rest.events == x.queue.events - {e} && x.clock <= e.time < until
    ensures forall f | f in x.queue.events :: e.time <= f.time
  {
    var early :| early in x.queue.events && early.time < until;
    e, rest := x.queue.Pop().0, x.queue.Pop().1;
    assert forall f | f in x.queue.events :: f == e || f in rest.events;
  }

  lemma {:induction false} WithoutTask(body: T.Task -> Task, q: set<Event>, r: set<Event>, e: Event, k: T.Task, tasks: set<T.Task>)
    requires Injective(body) && Hosted(body, q, tasks) && e in q && IsTask(body, e, k) && r == q - {e}
    ensures Hosted(body, r, tasks - {k})
  {
    forall j | j in tasks - {k} ensures Placed(body, r, j) {
      var f :| f in q && IsTask(body, f, j) && f.time == j.time;
      assert f in r;
    }
  }

  /** What `schedule_new_expire_event` queues on the host is the task it adds to the timer's, and both
      drop it from the end of the simulation on. */
  lemma {:induction false} ScheduleIsTimerTask(cfg: Config, x: Host, body: T.Task -> Task, s: T.State)
    requires Injective(body) && Hosted(body, x.queue.events, s.tasks) && forall k | k in s.tasks :: k.id < s.nextId
    requires x.queue.lastPopped <= x.clock == s.now < s.simEnd == cfg.simEnd && T.START <= s.now
    requires s.nextExpire.Some? && T.Schedule(s).Fine?
    ensures var time := T.WakeTime(s.now, s.nextExpire.value);
            var k := T.Task(time, s.nextId, |s.arms| - 1);
            x.clock <= time && Hosted(body, ScheduleLocal(cfg, x, time - x.clock, body(k)).queue.events, T.Schedule(s).state.tasks)
  {
    var time := T.WakeTime(s.now, s.nextExpire.value);
    var k := T.Task(time, s.nextId, |s.arms| - 1);
    assert x.clock <= time;
    if time < cfg.simEnd {
      WithTask(body, x.queue.events, Event(time, LocalData(body(k), x.nextEventId)), k, s.tasks);
    }
    hide Hosted;
  }

  lemma {:induction false} WithTask(body: T.Task -> Task, q: set<Event>, e: Event, k: T.Task, tasks: set<T.Task>)
    requires Injective(body) && Hosted(body, q, tasks) && IsTask(body, e, k) && e.time == k.time && k !in tasks
    ensures Hosted(body, q + {e}, tasks + {k})
  {
    forall j | j in tasks + {k} ensures Placed(body, q + {e}, j) {
      if j == k {
        assert e in q + {e};
      } else {
        var f :| f in q && IsTask(body, f, j) && f.time == j.time;
        assert f in q + {e};
      }
    }
  }

  /** On a host without a CPU threshold, at every point of every schedule: if the next event is a task
      of the timer, it starts at the task's own time, which is what `TimerIsExact` assumes of `OpRun`. */
  lemma {:induction false} TimersRunOnTime(cfg: Config, until: Time, w: World, schedule: seq<HostId>, h: HostId,
                                           body: T.Task -> Task, s: T.State, k: T.Task)
    requires Inv(cfg, until, w) && h in w.hosts && w.hosts[h].cpu.params.threshold.None?
    requires var v := Run(cfg, until, w, schedule);
             && Enabled(until, v, h) && v.hosts[h].mode == Idle && HostOk(until, v.hosts[h])
             && Injective(body) && Hosted(body, v.hosts[h].queue.events, s.tasks)
             && T.START <= s.now <= v.hosts[h].clock && until <= s.simEnd
             && IsTask(body, v.hosts[h].queue.Pop().0, k)
    ensures var v := Run(cfg, until, w, schedule);
            var y := Step(cfg, until, v, h);
            && T.Allowed(s, T.OpRun(k)) && h in y.hosts
            && y.hosts[h].mode == Running && y.hosts[h].clock == k.time
            && Hosted(body, y.hosts[h].queue.events, s.tasks - {k})
  {
    var v := Run(cfg, until, w, schedule);
    PunctualWithoutThreshold(cfg, until, w, schedule, h);
    PopIsTimerOp(until, v.hosts[h], body, s);
    hide Run, Inv, HostOk, HasWork, Hosted, Step, Queue.Pop;
  }
}
