/** The emulated timer (src/main/host/timer.rs): generation-numbered expiry tasks with early
    wakeups on one-second edges, against an ideal timer. */
module Timer {
  import opened EventQueue
  import Cpu
  import opened Options

  const SECOND: nat := 1_000_000_000
  const START := Cpu.SIMULATION_START

  /** A queued expiry task: when it runs, its id, and which arming scheduled it. */
  datatype Task = Task(time: Time, id: nat, arming: int)

  /** A call of `arm`, and when a later call of `arm` or `disarm` cancelled it. */
  datatype Arming = Arming(expire: Time, interval: Option<nat>, cancelled: Option<Time>)

  /** A run of the `on_expire` callback, and the arming whose task ran it. */
  datatype Firing = Firing(arming: int, time: Time)

  /** `TimerInternal`, the tasks it has in its host's event queue, and the host's clock.  `arms`
      and `log` record the calls of `arm` and the callback runs. */
  datatype State = State(
    nextExpire: Option<Time>,
    interval: Option<nat>,
    count: nat,
    nextId: nat,
    minValid: nat,
    tasks: set<Task>,
    now: Time,
    simEnd: Time,
    arms: seq<Arming>,
    log: seq<Firing>)

  datatype Outcome = Fine(state: State) | Panic

  function Init(now: Time, simEnd: Time): State {
    State(None, None, 0, 0, 0, {}, now, simEnd, [], [])
  }

  // ---- Operations -------------------------------------------------------------------------

  /** The next one-second edge more than one second away. */
  function Edge(now: Time): Time
    requires START <= now
  {
    START + (now - START) / SECOND * SECOND + 2 * SECOND
  }

  function WakeTime(now: Time, expire: Time): Time
    requires START <= now
  {
    if expire < Edge(now) then expire else Edge(now)
  }

  /** `schedule_new_expire_event`; the host drops tasks at or after the end of the simulation, and
      its queue panics on a task before the event it popped last, which is now. */
  function Schedule(s: State): Outcome
    requires START <= s.now && s.nextExpire.Some?
  {
    var time := WakeTime(s.now, s.nextExpire.value);
    var taken := s.(nextId := s.nextId + 1);
    if time >= s.simEnd then Fine(taken)
    else if time < s.now then Panic
    else Fine(taken.(tasks := s.tasks + {Task(time, s.nextId, |s.arms| - 1)}))
  }

  function Reset(s: State, expire: Option<Time>, interval: Option<nat>): State {
    s.(minValid := s.nextId, count := 0, nextExpire := expire, interval := interval)
  }

  /** Records that the last arming, if still in force, is cancelled at `now`. */
  function Cancel(arms: seq<Arming>, now: Time): seq<Arming> {
    var n := |arms|;
    if n == 0 || arms[n - 1].cancelled.Some? then arms
    else arms[n - 1 := arms[n - 1].(cancelled := Some(now))]
  }

  function Disarm(s: State): State {
    Reset(s, None, None).(arms := Cancel(s.arms, s.now))
  }

  function Armed(s: State, expire: Time, interval: Option<nat>): State {
    Reset(s, Some(expire), interval).(arms := Cancel(s.arms, s.now) + [Arming(expire, interval, None)])
  }

  /** The caller must not arm into the past, nor with a zero interval. */
  function Arm(s: State, expire: Time, interval: Option<nat>): Outcome
    requires START <= s.now <= expire && (interval.Some? ==> interval.value > 0)
  {
    Schedule(Armed(s, expire, interval))
  }

  function Consume(s: State): State {
    s.(count := 0)
  }

  /** The host moves on to `t` with other events. */
  function Pass(s: State, t: Time): State
    requires s.now <= t
  {
    s.(now := t)
  }

  /** `timer_expire`, run for a queued task at time `t`.  Without CPU delay `t` is the task's own
      time; a busy CPU makes it later. */
  function Expire(s: State, task: Task, t: Time): Outcome
    requires START <= s.now <= t && task in s.tasks && task.time <= t
  {
    var p := s.(now := t, tasks := s.tasks - {task});
    if task.id < s.minValid then Fine(p)
    else if s.nextExpire.None? then Panic
    else if s.nextExpire.value > t then Schedule(p)
    else
      var fired := p.(count := s.count + 1, log := s.log + [Firing(task.arming, t)]);
      if s.interval.Some?
      then Schedule(fired.(nextExpire := Some(s.nextExpire.value + s.interval.value)))
      else Fine(fired.(nextExpire := None))
  }

  // ---- Early wakeups ----------------------------------------------------------------------

  /** Each early wakeup is strictly later than the last, by more than a second. */
  lemma {:induction false} EdgeIsAhead(now: Time)
    requires START <= now
    ensures now + SECOND < Edge(now) <= now + 2 * SECOND
    ensures (Edge(now) - START) % SECOND == 0
  {
    var since := now - START;
    assert since == since / SECOND * SECOND + since % SECOND;
    var q := since / SECOND + 2;
    assert Edge(now) - START == q * SECOND;
    assert q * SECOND % SECOND == 0;
  }

  /** How many early wakeups happen between `now` and `expire`: fewer than one a second. */
  function EarlyWakeups(now: Time, expire: Time): (n: nat)
    requires START <= now <= expire
    ensures n * SECOND <= expire - now
    decreases expire - now
  {
    EdgeIsAhead(now);
    var w := WakeTime(now, expire);
    if w == expire then 0 else 1 + EarlyWakeups(w, expire)
  }

  // ---- Invariant over all runs, punctual or not -----------------------------------------------

  function Valid(s: State): set<Task> {
    set k | k in s.tasks && s.minValid <= k.id
  }

  /** The one task that keeps an armed timer going. */
  ghost predicate Drives(s: State, k: Task) {
    && Valid(s) == {k}
    && s.nextExpire.Some? && k.time <= s.nextExpire.value
    && |s.arms| > 0 && k.arming == |s.arms| - 1
  }

  /** An armed timer has exactly one task with a valid id - none only if it cannot expire before
      the end of the simulation - and a disarmed one has none. */
  ghost predicate Ok(s: State) {
    && START <= s.now
    && s.minValid <= s.nextId
    && (forall k | k in s.tasks :: k.id < s.nextId)
    && (s.interval.Some? ==> s.interval.value > 0)
    && (s.nextExpire.None? ==> Valid(s) == {})
    && (s.nextExpire.Some? ==> |s.arms| > 0)
    && (s.nextExpire.Some? ==> (exists k :: Drives(s, k)) || (Valid(s) == {} && s.simEnd <= s.nextExpire.value))
  }

  lemma {:induction false} ScheduleOk(s: State)
    requires START <= s.now && s.nextExpire.Some? && s.minValid <= s.nextId && |s.arms| > 0
    requires (forall k | k in s.tasks :: k.id < s.nextId) && Valid(s) == {}
    requires s.interval.Some? ==> s.interval.value > 0
    ensures Schedule(s).Panic? <==> s.nextExpire.value < s.now && s.nextExpire.value < s.simEnd
    ensures Schedule(s).Fine? ==> Ok(Schedule(s).state)
  {
    EdgeIsAhead(s.now);
    if Schedule(s).Fine? {
      var r := Schedule(s).state;
      var k := Task(WakeTime(s.now, s.nextExpire.value), s.nextId, |s.arms| - 1);
      if k in r.tasks {
        assert Valid(r) == {k};
        assert Drives(r, k);
      } else {
        assert Valid(r) == {};
      }
    }
  }

  lemma {:induction false} DisarmOk(s: State)
    requires Ok(s)
    ensures Ok(Disarm(s))
  {
  }

  /** Arming never panics, and leaves exactly one task in charge. */
  lemma {:induction false} ArmOk(s: State, expire: Time, interval: Option<nat>)
    requires Ok(s) && s.now <= expire && (interval.Some? ==> interval.value > 0)
    ensures Arm(s, expire, interval).Fine? && Ok(Arm(s, expire, interval).state)
  {
    var r := Armed(s, expire, interval);
    assert Valid(r) == {};
    ScheduleOk(r);
  }

  /** Running a task panics exactly when a periodic timer's next expiry already lies before the
      event being run - which needs an event that runs late, never a cancelled or missing arming. */
  lemma {:induction false} ExpirePanicIff(s: State, task: Task, t: Time)
    requires Ok(s) && s.now <= t && task in s.tasks && task.time <= t
    ensures Expire(s, task, t).Panic? <==>
              && s.minValid <= task.id && s.nextExpire.Some? && s.nextExpire.value <= t
              && s.interval.Some? && s.nextExpire.value + s.interval.value < t
              && s.nextExpire.value + s.interval.value < s.simEnd
    ensures Expire(s, task, t).Fine? ==> Ok(Expire(s, task, t).state)
  {
    var p := s.(now := t, tasks := s.tasks - {task});
    if task.id < s.minValid {
      assert Valid(p) == Valid(s);
      if k :| Drives(s, k) {
        assert Drives(p, k);
      }
    } else {
      assert task in Valid(s);
      var k :| Drives(s, k);
      assert Valid(p) == {};
      if s.nextExpire.value > t {
        ScheduleOk(p);
      } else {
        var fired := p.(count := s.count + 1, log := s.log + [Firing(task.arming, t)]);
        if s.interval.Some? {
          var f := fired.(nextExpire := Some(s.nextExpire.value + s.interval.value));
          assert Valid(f) == {};
          ScheduleOk(f);
        } else {
          assert Valid(fired.(nextExpire := None)) == {};
        }
      }
    }
  }

  /** The panic is real: on a CPU with a threshold that has been charged up to 6 ns after the start,
      the expiry event of a timer with a 1 ns period is put off by 5 ns, runs then, and panics. */
  lemma {:induction false} LatePeriodicTimerPanics()
    ensures var s := Arm(Init(START, START + 10 * SECOND), START + 1, Some(1)).state;
            var task := Task(START + 1, 0, 0);
            var cpu := Cpu.Run(Cpu.Init(Cpu.Params(1, 1, Some(0), None)), [Cpu.Add(START + 6)]);
            var late := task.time + Cpu.Delay(Cpu.UpdateTime(cpu, task.time));
            && Arm(Init(START, START + 10 * SECOND), START + 1, Some(1)).Fine? && task in s.tasks
            && late == START + 6 && Cpu.Delay(Cpu.UpdateTime(cpu, late)) == 0
            && Expire(s, task, late).Panic?
  {
    ArmOk(Init(START, START + 10 * SECOND), START + 1, Some(1));
    var s := Arm(Init(START, START + 10 * SECOND), START + 1, Some(1)).state;
    var p := Cpu.Params(1, 1, Some(0), None);
    Cpu.ChargedExactly(p, [Cpu.Add(START + 6)]);
    assert [Cpu.Add(START + 6)][..0] == [];
    assert Cpu.Charged(p, [Cpu.Add(START + 6)]) == START + 6;
    EdgeIsAhead(START);
    ExpirePanicIff(s, Task(START + 1, 0, 0), START + 6);
  }

  // ---- Punctual runs refine an ideal timer ----------------------------------------------------

  /** No task is overdue and the clock is before the end of the simulation. */
  ghost predicate OnTime(s: State) {
    s.now < s.simEnd && forall k | k in s.tasks :: s.now <= k.time
  }

  /** An ideal timer, armed `armings` times so far: it expires at `next` and has no tasks, ids or
      wakeups. */
  datatype Ideal = Ideal(next: Option<Time>, interval: Option<nat>, count: nat, now: Time, armings: nat, fired: seq<Time>)

  /** Time may pass up to the next expiry, not beyond. */
  function IdealPass(i: Ideal, t: Time): Ideal
    requires i.now <= t && (i.next.Some? ==> t <= i.next.value)
  {
    i.(now := t)
  }

  /** It expires exactly when it is due. */
  function IdealFire(i: Ideal): Ideal
    requires i.next == Some(i.now)
  {
    i.(fired := i.fired + [i.now], count := i.count + 1,
       next := if i.interval.Some? then Some(i.now + i.interval.value) else None)
  }

  function IdealArm(i: Ideal, expire: Time, interval: Option<nat>): Ideal {
    i.(next := Some(expire), interval := interval, count := 0, armings := i.armings + 1)
  }

  function IdealDisarm(i: Ideal): Ideal {
    i.(next := None, interval := None, count := 0)
  }

  function FiredTimes(log: seq<Firing>): seq<Time> {
    seq(|log|, j requires 0 <= j < |log| => log[j].time)
  }

  function Abstract(s: State): Ideal {
    Ideal(s.nextExpire, s.interval, s.count, s.now, |s.arms|, FiredTimes(s.log))
  }

  datatype Op = OpArm(expire: Time, interval: Option<nat>) | OpDisarm | OpConsume | OpPass(time: Time) | OpRun(task: Task)

  /** What the host may do next without CPU delay: run a task when it is due, or pass time in which
      none is due. */
  ghost predicate Allowed(s: State, op: Op) {
    match op
    case OpArm(e, i) => s.now <= e && (i.Some? ==> i.value > 0)
    case OpDisarm => true
    case OpConsume => true
    case OpPass(t) => s.now <= t < s.simEnd && forall k | k in s.tasks :: t <= k.time
    case OpRun(task) => task in s.tasks && forall k | k in s.tasks :: task.time <= k.time
  }

  ghost function Do(s: State, op: Op): Outcome
    requires START <= s.now && OnTime(s) && Allowed(s, op)
  {
    match op
    case OpArm(e, i) => Arm(s, e, i)
    case OpDisarm => Fine(Disarm(s))
    case OpConsume => Fine(Consume(s))
    case OpPass(t) => Fine(Pass(s, t))
    case OpRun(task) => Expire(s, task, task.time)
  }

  /** Never overdue: time cannot pass an armed timer's expiry. */
  lemma {:induction false} NeverOverdue(s: State, t: Time)
    requires Ok(s) && OnTime(s) && t < s.simEnd && (forall k | k in s.tasks :: t <= k.time)
    ensures s.nextExpire.Some? ==> t <= s.nextExpire.value
  {
    if s.nextExpire.Some? {
      if k :| Drives(s, k) {
        assert k in Valid(s);
      }
    }
  }

  /** The concrete timer simulates the ideal one: a task either is a stutter (cancelled or early)
      or the callback runs, and then the ideal timer is due at that very instant. */
  lemma {:induction false} RunRefines(s: State, task: Task)
    requires Ok(s) && OnTime(s) && Allowed(s, OpRun(task)) && task.time < s.simEnd
    ensures s.nextExpire.Some? ==> task.time <= s.nextExpire.value
    ensures Expire(s, task, task.time).Fine?
    ensures var r := Expire(s, task, task.time).state;
            var passed := IdealPass(Abstract(s), task.time);
            if |r.log| == |s.log| then r.log == s.log && Abstract(r) == passed
            else passed.next == Some(passed.now) && Abstract(r) == IdealFire(passed)
                 && r.log == s.log + [Firing(|s.arms| - 1, task.time)]
  {
    NeverOverdue(s, task.time);
    ExpirePanicIff(s, task, task.time);
    var r := Expire(s, task, task.time).state;
    if task.id >= s.minValid {
      assert task in Valid(s);
      var k :| Drives(s, k);
      assert k == task;
      if s.nextExpire.value == task.time {
        assert FiredTimes(s.log + [Firing(task.arming, task.time)]) == FiredTimes(s.log) + [task.time];
      }
    }
  }

  lemma {:induction false} ScheduleOnTime(s: State)
    requires START <= s.now && s.nextExpire.Some? && OnTime(s) && Schedule(s).Fine?
    ensures OnTime(Schedule(s).state)
    ensures Schedule(s).state.(nextId := s.nextId, tasks := s.tasks) == s
  {
  }

  /** Every allowed operation of a punctual run succeeds and keeps the timer in order. */
  lemma {:induction false} DoKeeps(s: State, op: Op)
    requires Ok(s) && OnTime(s) && TasksInTime(s) && Allowed(s, op)
    ensures Do(s, op).Fine? && Ok(Do(s, op).state) && OnTime(Do(s, op).state) && TasksInTime(Do(s, op).state)
  {
    match op
    case OpArm(e, i) =>
      ArmOk(s, e, i);
      ScheduleOnTime(Armed(s, e, i));
    case OpDisarm => DisarmOk(s);
    case OpConsume => ConsumeOk(s);
    case OpPass(t) => PassOk(s, t);
    case OpRun(task) =>
      RunRefines(s, task);
      ExpirePanicIff(s, task, task.time);
      RunOnTime(s, task);
  }

  /** Tasks are only queued before the end of the simulation. */
  ghost predicate TasksInTime(s: State) {
    forall k | k in s.tasks :: k.time < s.simEnd
  }

  lemma {:induction false} ConsumeOk(s: State)
    requires Ok(s)
    ensures Ok(Consume(s))
  {
    if k :| Drives(s, k) {
      assert Drives(Consume(s), k);
    }
  }

  lemma {:induction false} PassOk(s: State, t: Time)
    requires Ok(s) && s.now <= t
    ensures Ok(Pass(s, t))
  {
    if k :| Drives(s, k) {
      assert Drives(Pass(s, t), k);
    }
  }

  lemma {:induction false} RunOnTime(s: State, task: Task)
    requires Ok(s) && OnTime(s) && TasksInTime(s) && Allowed(s, OpRun(task)) && Expire(s, task, task.time).Fine?
    ensures OnTime(Expire(s, task, task.time).state) && TasksInTime(Expire(s, task, task.time).state)
  {
    hide Ok;
  }

  // ---- What the callback log looks like after any punctual run ----------------------------

  /** The times at which the callback ran for one arming, in order. */
  function TimesOf(log: seq<Firing>, a: int): seq<Time> {
    if log == [] then []
    else
      var last := log[|log| - 1];
      TimesOf(log[..|log| - 1], a) + if last.arming == a then [last.time] else []
  }

  /** When an arming expires, counting from its first expiry. */
  function Due(a: Arming, k: nat): Time {
    a.expire + if a.interval.Some? then k * a.interval.value else 0
  }

  /** The callbacks of one arming ran at expire, expire + interval, ... - once if one-shot - up to
      `end` and no further, and none that was due before `end` is missing. */
  ghost predicate Exact(a: Arming, ts: seq<Time>, end: Time) {
    && (a.interval.None? ==> |ts| <= 1)
    && (forall k | 0 <= k < |ts| :: ts[k] == Due(a, k) <= end)
    && ((a.interval.None? && |ts| == 1) || end <= Due(a, |ts|))
  }

  /** An arming is in force until it is cancelled. */
  function End(a: Arming, now: Time): Time {
    if a.cancelled.Some? then a.cancelled.value else now
  }

  /** The log so far is right; only the last arming can be in force, and it then waits for its next
      multiple, unless it was one-shot and has expired. */
  ghost predicate LogOk(s: State) {
    && (forall a | 0 <= a < |s.arms| :: Exact(s.arms[a], TimesOf(s.log, a), End(s.arms[a], s.now)))
    && (forall a | 0 <= a < |s.arms| - 1 :: s.arms[a].cancelled.Some?)
    && (forall a | a >= |s.arms| :: TimesOf(s.log, a) == [])
    && (|s.arms| > 0 ==> InForce(s, s.arms[|s.arms| - 1], TimesOf(s.log, |s.arms| - 1)))
    && (|s.arms| == 0 ==> s.nextExpire.None?)
  }

  ghost predicate InForce(s: State, cur: Arming, done: seq<Time>) {
    && (cur.cancelled.Some? ==> s.nextExpire.None?)
    && (cur.cancelled.None? && s.nextExpire.None? ==> cur.interval.None? && |done| == 1)
    && (s.nextExpire.Some? ==>
          && s.interval == cur.interval
          && s.nextExpire.value == Due(cur, |done|)
          && (cur.interval.None? ==> done == []))
  }

  /** Queued tasks of the arming in force are valid; all others belong to earlier armings. */
  ghost predicate TasksOk(s: State) {
    forall k | k in s.tasks ::
      0 <= k.arming < |s.arms| && (s.nextExpire.Some? ==> (s.minValid <= k.id <==> k.arming == |s.arms| - 1))
  }

  lemma {:induction false} TimesOfAppend(log: seq<Firing>, f: Firing, a: int)
    ensures TimesOf(log + [f], a) == TimesOf(log, a) + if f.arming == a then [f.time] else []
  {
    assert (log + [f])[..|log|] == log;
  }

  /** What a due task of a punctual run does to the fields the log speaks about. */
  lemma {:induction false} RunFields(s: State, task: Task)
    requires Ok(s) && OnTime(s) && Allowed(s, OpRun(task)) && task.time < s.simEnd
    ensures Expire(s, task, task.time).Fine?
    ensures var r := Expire(s, task, task.time).state;
            && r.arms == s.arms && r.interval == s.interval
            && (r.log == s.log ==> r.nextExpire == s.nextExpire)
            && (r.log != s.log ==>
                  && |s.arms| > 0 && s.nextExpire == Some(task.time)
                  && r.log == s.log + [Firing(|s.arms| - 1, task.time)]
                  && r.nextExpire == if s.interval.Some? then Some(task.time + s.interval.value) else None)
  {
    RunRefines(s, task);
    var r := Expire(s, task, task.time).state;
    assert Abstract(r).next == r.nextExpire && Abstract(r).interval == r.interval;
    assert s.nextExpire.Some? ==> |s.arms| > 0;
  }

  lemma {:induction false} ExactLater(a: Arming, b: Arming, ts: seq<Time>, end: Time, later: Time)
    requires Exact(a, ts, end) && end <= later && (later <= Due(a, |ts|) || end == later || (a.interval.None? && |ts| == 1))
    requires a.expire == b.expire && a.interval == b.interval
    ensures Exact(b, ts, later)
  {
    assert forall k: nat :: Due(a, k) == Due(b, k);
    hide Due;
  }

  lemma {:induction false} ExactAppend(a: Arming, ts: seq<Time>, end: Time, t: Time)
    requires Exact(a, ts, end) && (a.interval.None? ==> ts == []) && end <= t == Due(a, |ts|)
    ensures Exact(a, ts + [t], t)
    ensures a.interval.Some? ==> Due(a, |ts| + 1) == t + a.interval.value
  {
    assert a.interval.Some? ==> (|ts| + 1) * a.interval.value == |ts| * a.interval.value + a.interval.value;
    assert a.interval.Some? ==> t <= Due(a, |ts| + 1);
    hide Due;
  }

  /** Time passes, up to the next expiry. */
  lemma {:induction false} LogAfterPass(s: State, r: State)
    requires LogOk(s) && s.now <= r.now && (s.nextExpire.Some? ==> r.now <= s.nextExpire.value)
    requires r.arms == s.arms && r.log == s.log && r.nextExpire == s.nextExpire && r.interval == s.interval
    ensures LogOk(r)
  {
    hide Exact, Due, TimesOf;
    forall a | 0 <= a < |r.arms| ensures Exact(r.arms[a], TimesOf(r.log, a), End(r.arms[a], r.now)) {
      ExactLater(s.arms[a], r.arms[a], TimesOf(s.log, a), End(s.arms[a], s.now), End(r.arms[a], r.now));
    }
  }

  /** The arming in force expires now. */
  lemma {:induction false} LogAfterFire(s: State, r: State)
    requires LogOk(s) && |s.arms| > 0 && s.now <= r.now && s.nextExpire == Some(r.now)
    requires r.arms == s.arms && r.interval == s.interval && r.log == s.log + [Firing(|s.arms| - 1, r.now)]
    requires r.nextExpire == if s.interval.Some? then Some(r.now + s.interval.value) else None
    ensures LogOk(r)
  {
    hide Exact, Due, TimesOf;
    var c := |s.arms| - 1;
    var cur, done := s.arms[c], TimesOf(s.log, c);
    forall a: int ensures TimesOf(r.log, a) == TimesOf(s.log, a) + if a == c then [r.now] else [] {
      TimesOfAppend(s.log, Firing(c, r.now), a);
    }
    ExactAppend(cur, done, s.now, r.now);
    forall a | 0 <= a < c ensures Exact(r.arms[a], TimesOf(r.log, a), End(r.arms[a], r.now)) {
      assert Exact(s.arms[a], TimesOf(s.log, a), End(s.arms[a], s.now));
      assert TimesOf(r.log, a) == TimesOf(s.log, a);
    }
  }

  lemma {:induction false} RunKeepsLog(s: State, task: Task)
    requires Ok(s) && OnTime(s) && LogOk(s) && Allowed(s, OpRun(task)) && task.time < s.simEnd
    ensures Expire(s, task, task.time).Fine? && LogOk(Expire(s, task, task.time).state)
  {
    RunFields(s, task);
    NeverOverdue(s, task.time);
    var r := Expire(s, task, task.time).state;
    assert r.now == task.time;
    hide Ok, Expire, Allowed, LogOk;
    if r.log != s.log {
      LogAfterFire(s, r);
    } else {
      LogAfterPass(s, r);
    }
  }

  /** Cancelling changes when nothing ends: the arming in force ends now either way. */
  lemma {:induction false} CancelledLog(s: State)
    requires LogOk(s)
    ensures |Cancel(s.arms, s.now)| == |s.arms|
    ensures forall a | 0 <= a < |s.arms| ::
              && Cancel(s.arms, s.now)[a].cancelled.Some?
              && Exact(Cancel(s.arms, s.now)[a], TimesOf(s.log, a), End(Cancel(s.arms, s.now)[a], s.now))
  {
    hide Exact, TimesOf, InForce;
    forall a | 0 <= a < |s.arms|
      ensures Exact(Cancel(s.arms, s.now)[a], TimesOf(s.log, a), End(Cancel(s.arms, s.now)[a], s.now))
    {
      ExactLater(s.arms[a], Cancel(s.arms, s.now)[a], TimesOf(s.log, a), End(s.arms[a], s.now), End(s.arms[a], s.now));
    }
  }

  lemma {:induction false} ArmKeepsLog(s: State, expire: Time, interval: Option<nat>)
    requires Ok(s) && LogOk(s) && s.now <= expire && (interval.Some? ==> interval.value > 0)
    ensures Arm(s, expire, interval).Fine? && LogOk(Arm(s, expire, interval).state)
  {
    ArmOk(s, expire, interval);
    CancelledLog(s);
    var r := Arm(s, expire, interval).state;
    var n := |s.arms|;
    assert TimesOf(s.log, n) == [];
    assert r.arms == Cancel(s.arms, s.now) + [Arming(expire, interval, None)] && r.log == s.log && r.now == s.now;
    assert r.nextExpire == Some(expire) && r.interval == interval;
    hide Ok, Arm, Cancel, TimesOf;
    assert Due(r.arms[n], 0) == expire;
    assert Exact(r.arms[n], [], r.now);
    hide Exact, Due;
    forall a | 0 <= a < |r.arms| ensures Exact(r.arms[a], TimesOf(r.log, a), End(r.arms[a], r.now)) {
      if a < n {
        assert r.arms[a] == Cancel(s.arms, s.now)[a];
      }
    }
  }

  lemma {:induction false} DisarmKeepsLog(s: State)
    requires LogOk(s)
    ensures LogOk(Disarm(s))
  {
    CancelledLog(s);
    hide TimesOf, Cancel;
  }

  lemma {:induction false} DoKeepsLog(s: State, op: Op)
    requires Ok(s) && OnTime(s) && TasksInTime(s) && LogOk(s) && Allowed(s, op)
    ensures Do(s, op).Fine? && LogOk(Do(s, op).state)
  {
    hide LogOk;
    match op
    case OpArm(e, i) => ArmKeepsLog(s, e, i);
    case OpDisarm => DisarmKeepsLog(s);
    case OpConsume =>
      NeverOverdue(s, s.now);
      LogAfterPass(s, Consume(s));
    case OpPass(t) =>
      NeverOverdue(s, t);
      LogAfterPass(s, Pass(s, t));
    case OpRun(task) => RunKeepsLog(s, task);
  }

  lemma {:induction false} RunKeepsTasks(s: State, task: Task)
    requires Ok(s) && TasksOk(s) && OnTime(s) && Allowed(s, OpRun(task)) && Expire(s, task, task.time).Fine?
    ensures TasksOk(Expire(s, task, task.time).state)
  {
  }

  lemma {:induction false} DoKeepsTasks(s: State, op: Op)
    requires Ok(s) && OnTime(s) && TasksInTime(s) && TasksOk(s) && Allowed(s, op)
    ensures Do(s, op).Fine? && TasksOk(Do(s, op).state)
  {
    DoKeeps(s, op);
    if op.OpRun? {
      RunKeepsTasks(s, op.task);
    }
  }

  ghost predicate AllOk(s: State) {
    Ok(s) && OnTime(s) && TasksInTime(s) && TasksOk(s) && LogOk(s)
  }

  lemma {:induction false} DoKeepsAll(s: State, op: Op)
    requires AllOk(s) && Allowed(s, op)
    ensures Do(s, op).Fine? && AllOk(Do(s, op).state)
  {
    hide Do, Ok, LogOk, TasksOk, TasksInTime;
    DoKeeps(s, op);
    DoKeepsTasks(s, op);
    DoKeepsLog(s, op);
  }

  /** The states a timer can reach in a host without CPU delay. */
  ghost predicate Reaches(s: State, ops: seq<Op>, r: State)
    requires AllOk(s)
    decreases |ops|
  {
    if ops == [] then r == s
    else Allowed(s, ops[0]) && (DoKeepsAll(s, ops[0]); Reaches(Do(s, ops[0]).state, ops[1..], r))
  }

  lemma {:induction false} ReachableOk(s: State, ops: seq<Op>, r: State)
    requires AllOk(s) && Reaches(s, ops, r)
    ensures AllOk(r)
    decreases |ops|
  {
    if ops != [] {
      DoKeepsAll(s, ops[0]);
      hide AllOk, Do;
      ReachableOk(Do(s, ops[0]).state, ops[1..], r);
    }
  }

  ghost function Begin(now: Time, simEnd: Time): (s: State)
    requires START <= now < simEnd
    ensures AllOk(s)
  {
    Init(now, simEnd)
  }

  // ---- Wakeups ------------------------------------------------------------------------------

  /** Every task is due within two seconds, a valid one at the expiry itself or on a one-second edge. */
  ghost predicate Near(s: State) {
    && (forall k | k in s.tasks :: k.time <= s.now + 2 * SECOND)
    && (forall k | k in Valid(s) :: s.nextExpire == Some(k.time) || OnEdge(k.time))
  }

  predicate OnEdge(t: Time) {
    START <= t && (t - START) % SECOND == 0
  }

  lemma {:induction false} WakeNear(now: Time, expire: Time)
    requires START <= now <= expire
    ensures now <= WakeTime(now, expire) <= now + 2 * SECOND
    ensures WakeTime(now, expire) == expire || OnEdge(WakeTime(now, expire))
  {
    EdgeIsAhead(now);
    hide Edge;
  }

  lemma {:induction false} ScheduleNear(s: State)
    requires START <= s.now && s.nextExpire.Some? && s.now <= s.nextExpire.value && Valid(s) == {}
    requires forall k | k in s.tasks :: k.time <= s.now + 2 * SECOND
    ensures Schedule(s).Fine? && Near(Schedule(s).state)
  {
    WakeNear(s.now, s.nextExpire.value);
    hide WakeTime, OnEdge;
    var r := Schedule(s).state;
    forall k | k in Valid(r) ensures k.time == WakeTime(s.now, s.nextExpire.value) {
      assert k !in Valid(s);
    }
  }

  lemma {:induction false} RunNear(s: State, task: Task)
    requires AllOk(s) && Near(s) && Allowed(s, OpRun(task))
    ensures Expire(s, task, task.time).Fine? && Near(Expire(s, task, task.time).state)
  {
    DoKeepsAll(s, OpRun(task));
    NeverOverdue(s, task.time);
    var p := s.(now := task.time, tasks := s.tasks - {task});
    if task.id >= s.minValid {
      assert task in Valid(s);
      var k :| Drives(s, k);
      assert Valid(p) == {};
      var e := s.nextExpire.value;
      hide Ok, LogOk, TasksOk, Schedule, OnEdge;
      if e > task.time {
        ScheduleNear(p);
      } else if s.interval.Some? {
        var f := p.(count := s.count + 1, log := s.log + [Firing(task.arming, task.time)], nextExpire := Some(e + s.interval.value));
        assert Valid(f) == {};
        ScheduleNear(f);
      } else {
        assert Valid(Expire(s, task, task.time).state) == {};
      }
    } else {
      assert forall k | k in Valid(p) :: k in Valid(s);
    }
  }

  lemma {:induction false} DoNear(s: State, op: Op)
    requires AllOk(s) && Near(s) && Allowed(s, op)
    ensures Do(s, op).Fine? && Near(Do(s, op).state)
  {
    if op.OpRun? {
      RunNear(s, op.task);
    } else if op.OpArm? {
      var a := Armed(s, op.expire, op.interval);
      assert Valid(a) == {};
      hide LogOk, TasksOk, Schedule, OnEdge;
      ScheduleNear(a);
    } else {
      hide LogOk, TasksOk, OnEdge;
      var r := Do(s, op).state;
      assert op.OpDisarm? ==> Valid(r) == {};
      assert !op.OpDisarm? ==> Valid(r) == Valid(s);
    }
  }

  /** Over all punctual runs: no task waits for more than two seconds, so one that was cancelled is soon
      gone, and a timer is woken only for its expiry or on a one-second edge. */
  lemma {:induction false} TasksAreNear(s: State, ops: seq<Op>, r: State)
    requires AllOk(s) && Near(s) && Reaches(s, ops, r)
    ensures Near(r)
    decreases |ops|
  {
    if ops != [] {
      DoKeepsAll(s, ops[0]);
      DoNear(s, ops[0]);
      hide AllOk, Do, Near;
      TasksAreNear(Do(s, ops[0]).state, ops[1..], r);
    }
  }

  /** Over all punctual sequences of arm, disarm, consume, expire and passing time: for every
      arming ever made, the callback ran exactly at those expire + k * interval that fell due before
      it was cancelled, or until now if it never was - none is missing, and none came later. */
  lemma {:induction false} TimerIsExact(now: Time, simEnd: Time, ops: seq<Op>, s: State)
    requires START <= now < simEnd && Reaches(Begin(now, simEnd), ops, s)
    ensures forall a | 0 <= a < |s.arms| :: Exact(s.arms[a], TimesOf(s.log, a), End(s.arms[a], s.now))
    ensures forall a | 0 <= a < |s.arms| - 1 :: s.arms[a].cancelled.Some?
    ensures |s.arms| > 0 ==> InForce(s, s.arms[|s.arms| - 1], TimesOf(s.log, |s.arms| - 1))
    ensures s.nextExpire.Some? ==> s.now <= s.nextExpire.value
    ensures s.nextExpire.Some? && s.nextExpire.value < s.simEnd ==> |Valid(s)| == 1
    ensures s.nextExpire.None? ==> Valid(s) == {}
  {
    ReachableOk(Begin(now, simEnd), ops, s);
    NeverOverdue(s, s.now);
    if k :| Drives(s, k) {
      assert |{k}| == 1;
    }
  }

  // ---- No callback after cancelling ---------------------------------------------------------

  /** The first `n` armings can no longer expire. */
  ghost predicate Over(s: State, n: nat) {
    n <= |s.arms| && (n == |s.arms| ==> s.nextExpire.None?)
  }

  lemma {:induction false} StaysOver(s: State, op: Op, n: nat, a: nat)
    requires AllOk(s) && Allowed(s, op) && Over(s, n) && a < n
    ensures Do(s, op).Fine? && Over(Do(s, op).state, n)
    ensures TimesOf(Do(s, op).state.log, a) == TimesOf(s.log, a)
  {
    hide LogOk, TimesOf, TasksOk;
    DoKeepsAll(s, op);
    match op
    case OpArm(e, i) => ScheduleOnTime(Armed(s, e, i));
    case OpRun(task) =>
      RunFields(s, task);
      if Do(s, op).state.log != s.log {
        TimesOfAppend(s.log, Firing(|s.arms| - 1, task.time), a);
      }
    case _ =>
  }

  lemma {:induction false} OverForGood(s: State, ops: seq<Op>, r: State, n: nat, a: nat)
    requires AllOk(s) && Over(s, n) && a < n && Reaches(s, ops, r)
    ensures TimesOf(r.log, a) == TimesOf(s.log, a)
    decreases |ops|
  {
    if ops != [] {
      DoKeepsAll(s, ops[0]);
      StaysOver(s, ops[0], n, a);
      hide AllOk, Do, TimesOf, Over;
      OverForGood(Do(s, ops[0]).state, ops[1..], r, n, a);
    }
  }

  /** Once `disarm` or another `arm` has returned, no arming made before expires again, in any
      continuation. */
  lemma {:induction false} NeverAfterCancel(s: State, op: Op, ops: seq<Op>, r: State, a: nat)
    requires AllOk(s) && Allowed(s, op) && (op.OpArm? || op.OpDisarm?) && a < |s.arms|
    requires Do(s, op).Fine? && AllOk(Do(s, op).state) && Reaches(Do(s, op).state, ops, r)
    ensures TimesOf(r.log, a) == TimesOf(s.log, a)
  {
    OverForGood(Do(s, op).state, ops, r, |s.arms|, a);
  }

  // ---- Every run is a run of the ideal timer --------------------------------------------------

  /** What can happen to the ideal timer: time never passes an expiry that has not happened. */
  predicate IdealMay(i: Ideal, op: Op) {
    match op
    case OpArm(e, _) => i.now <= e
    case OpPass(t) => i.now <= t && (i.next.Some? ==> t <= i.next.value)
    case OpRun(task) => i.now <= task.time && (i.next.Some? ==> task.time <= i.next.value)
    case _ => true
  }

  /** A task is a tick: the ideal timer expires on it if it is due and was armed by the same call. */
  function IdealDo(i: Ideal, op: Op): Ideal
    requires IdealMay(i, op)
  {
    match op
    case OpArm(e, interval) => IdealArm(i, e, interval)
    case OpDisarm => IdealDisarm(i)
    case OpConsume => i.(count := 0)
    case OpPass(t) => IdealPass(i, t)
    case OpRun(task) =>
      var passed := IdealPass(i, task.time);
      if passed.next == Some(passed.now) && task.arming == i.armings - 1 then IdealFire(passed) else passed
  }

  predicate IdealReaches(i: Ideal, ops: seq<Op>, j: Ideal)
    decreases |ops|
  {
    if ops == [] then j == i else IdealMay(i, ops[0]) && IdealReaches(IdealDo(i, ops[0]), ops[1..], j)
  }

  lemma {:induction false} DoRefines(s: State, op: Op)
    requires AllOk(s) && Allowed(s, op)
    ensures IdealMay(Abstract(s), op)
    ensures Do(s, op).Fine? && Abstract(Do(s, op).state) == IdealDo(Abstract(s), op)
  {
    hide LogOk;
    DoKeepsAll(s, op);
    match op
    case OpArm(e, i) => ScheduleOnTime(Armed(s, e, i));
    case OpPass(t) => NeverOverdue(s, t);
    case OpRun(task) => RunIsTick(s, task);
    case _ =>
  }

  lemma {:induction false} RunIsTick(s: State, task: Task)
    requires Ok(s) && OnTime(s) && TasksInTime(s) && TasksOk(s) && Allowed(s, OpRun(task))
    ensures IdealMay(Abstract(s), OpRun(task))
    ensures Expire(s, task, task.time).Fine? && Abstract(Expire(s, task, task.time).state) == IdealDo(Abstract(s), OpRun(task))
  {
    RunRefines(s, task);
    NeverOverdue(s, task.time);
    hide Abstract;
    var fires := s.minValid <= task.id && s.nextExpire == Some(task.time);
    assert |Expire(s, task, task.time).state.log| == |s.log| + if fires then 1 else 0;
    hide Ok, Expire;
    assert fires <==> s.nextExpire == Some(task.time) && task.arming == |s.arms| - 1;
    assert Abstract(s).next == s.nextExpire && Abstract(s).armings == |s.arms| by { AbstractFields(s); }
  }

  lemma {:induction false} AbstractFields(s: State)
    ensures Abstract(s).next == s.nextExpire && Abstract(s).armings == |s.arms| && Abstract(s).now == s.now
  {
  }

  /** Every punctual run - arm, disarm, consume, passing time, cancelled tasks and early wakeups
      included - is, operation by operation, the run of the ideal timer. */
  lemma {:induction false} TimerRefinesIdeal(s: State, ops: seq<Op>, r: State)
    requires AllOk(s) && Reaches(s, ops, r)
    ensures IdealReaches(Abstract(s), ops, Abstract(r))
    decreases |ops|
  {
    if ops != [] {
      DoKeepsAll(s, ops[0]);
      DoRefines(s, ops[0]);
      hide AllOk, Do, Abstract;
      TimerRefinesIdeal(Do(s, ops[0]).state, ops[1..], r);
    }
  }

  // ---- An ideal timer that knows no tasks at all ------------------------------------------------

  /** What the ideal timer can do on its own account; its time never passes an expiry. */
  ghost predicate Stutters(i: Ideal, t: Time, j: Ideal) {
    i.now <= t && (i.next.Some? ==> t <= i.next.value) && j == IdealPass(i, t)
  }

  ghost predicate Ticks(i: Ideal, j: Ideal) {
    i.next == Some(i.now) && j == IdealFire(i)
  }

  /** The caller's operations act on it directly; when a task of the real timer runs at `t`, time moves
      on to `t`, and it may tick there, if it is due. */
  ghost predicate IdealNext(i: Ideal, op: Op, j: Ideal) {
    match op
    case OpArm(e, interval) => i.now <= e && j == IdealArm(i, e, interval)
    case OpDisarm => j == IdealDisarm(i)
    case OpConsume => j == i.(count := 0)
    case OpPass(t) => Stutters(i, t, j)
    case OpRun(task) => Stutters(i, task.time, j) || exists m :: Stutters(i, task.time, m) && Ticks(m, j)
  }

  ghost predicate IdealRuns(i: Ideal, ops: seq<Op>, j: Ideal)
    decreases |ops|
  {
    if ops == [] then j == i else exists k :: IdealNext(i, ops[0], k) && IdealRuns(k, ops[1..], j)
  }

  lemma {:induction false} IdealDoIsNext(i: Ideal, op: Op)
    requires IdealMay(i, op)
    ensures IdealNext(i, op, IdealDo(i, op))
  {
    if op.OpRun? {
      assert Stutters(i, op.task.time, IdealPass(i, op.task.time));
    }
  }

  /** Every punctual run is a run of an ideal timer that is told nothing of tasks but the times at which
      some run: it stutters there or ticks, exactly when it is due, and can never let an expiry go by. */
  lemma {:induction false} TimerTicksOrStutters(s: State, ops: seq<Op>, r: State)
    requires AllOk(s) && Reaches(s, ops, r)
    ensures IdealRuns(Abstract(s), ops, Abstract(r))
    decreases |ops|
  {
    if ops != [] {
      DoKeepsAll(s, ops[0]);
      DoRefines(s, ops[0]);
      IdealDoIsNext(Abstract(s), ops[0]);
      hide AllOk, Do, Abstract, IdealNext, IdealDo;
      TimerTicksOrStutters(Do(s, ops[0]).state, ops[1..], r);
    }
  }

  // ---- The timer object -------------------------------------------------------------------

  /** `Timer`; `arms` and `log` only record what happened.  A method that runs into the queue's
      assertion reports it instead of returning. */
  class EmulatedTimer {
    var nextExpire: Option<Time>
    var interval: Option<nat>
    var count: nat
    var nextId: nat
    var minValid: nat
    var tasks: set<Task>
    var now: Time
    const simEnd: Time
    var arms: seq<Arming>
    var log: seq<Firing>

    ghost function View(): State
      reads this
    {
      State(nextExpire, interval, count, nextId, minValid, tasks, now, simEnd, arms, log)
    }

    constructor (now: Time, simEnd: Time)
      ensures View() == Init(now, simEnd)
    {
      nextExpire, interval, count, nextId, minValid := None, None, 0, 0, 0;
      tasks, this.now, this.simEnd := {}, now, simEnd;
      arms, log := [], [];
    }

    method ResetTo(expire: Option<Time>, every: Option<nat>)
      modifies this
      ensures View() == Reset(old(View()), expire, every)
      ensures (forall k | k in tasks :: k.id < nextId) ==> Valid(View()) == {}
    {
      minValid := nextId;
      count := 0;
      nextExpire := expire;
      interval := every;
    }

    method ScheduleNewExpireEvent() returns (ok: bool)
      requires START <= now && nextExpire.Some?
      modifies this
      ensures ok == Schedule(old(View())).Fine?
      ensures ok ==> View() == Schedule(old(View())).state
    {
      var since := now - START;
      var edge := START + since / SECOND * SECOND + 2 * SECOND;
      var time := if nextExpire.value < edge then nextExpire.value else edge;
      var id := nextId;
      nextId := nextId + 1;
      ok := true;
      if time < simEnd {
        ok := time >= now;
        tasks := tasks + {Task(time, id, |arms| - 1)};
      }
    }

    method ArmTimer(expire: Time, every: Option<nat>) returns (ok: bool)
      requires Ok(View()) && now <= expire && (every.Some? ==> every.value > 0)
      modifies this
      ensures ok && View() == Arm(old(View()), expire, every).state && Ok(View())
    {
      ArmOk(View(), expire, every);
      ResetTo(Some(expire), every);
      arms := Cancel(arms, now) + [Arming(expire, every, None)];
      ok := ScheduleNewExpireEvent();
    }

    method DisarmTimer()
      requires Ok(View())
      modifies this
      ensures View() == Disarm(old(View())) && Ok(View())
    {
      DisarmOk(View());
      ResetTo(None, None);
      arms := Cancel(arms, now);
    }

    method ConsumeExpirationCount() returns (e: nat)
      modifies this
      ensures e == old(count) && View() == Consume(old(View()))
    {
      e := count;
      count := 0;
    }

    method TimerExpire(task: Task, t: Time) returns (ok: bool)
      requires Ok(View()) && now <= t && task in tasks && task.time <= t
      modifies this
      ensures ok == Expire(old(View()), task, t).Fine?
      ensures ok ==> View() == Expire(old(View()), task, t).state && Ok(View())
    {
      ExpirePanicIff(View(), task, t);
      hide Ok;
      now := t;
      tasks := tasks - {task};
      if task.id < minValid {
        return true;
      }
      if nextExpire.None? {
        return false;
      }
      var due := nextExpire.value;
      if due > t {
        ok := ScheduleNewExpireEvent();
        return;
      }
      count := count + 1;
      log := log + [Firing(task.arming, t)];
      ok := true;
      if interval.Some? {
        nextExpire := Some(due + interval.value);
        ok := ScheduleNewExpireEvent();
      } else {
        nextExpire := None;
      }
    }
  }
}
