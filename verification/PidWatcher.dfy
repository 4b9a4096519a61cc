/** The child pid watcher (src/main/utility/childpid_watcher.rs): API calls and a background thread
    that share a locked table, a command queue and an eventfd.  Every API call is one atomic step;
    the thread's turn is two, since it waits on epoll without the lock. */
module PidWatcher {
  import opened Options
  import opened Numbers

  type Pid = nat
  type Handle = nat

  datatype Command = RunCallbacks(pid: Pid) | UnregisterPid(pid: Pid) | Finish

  /** `watched` says whether the pidfd is still open and registered with epoll. */
  datatype PidData = PidData(callbacks: set<Handle>, watched: bool, unregistered: bool)

  /** `Inner`, the thread's batch of epoll events waiting for the lock, and what is recorded of the
      world: which processes have exited, whose each handle is, which callbacks ran and which were
      unregistered before. */
  datatype State = State(
    nextHandle: Handle,
    commands: seq<Command>,
    pids: map<Pid, PidData>,
    readable: bool,
    done: bool,
    batch: Option<seq<Pid>>,
    exited: set<Pid>,
    owner: map<Handle, Pid>,
    ran: seq<Handle>,
    dropped: set<Handle>)

  const INITIAL := State(1, [], map[], false, false, None, {}, map[], [], {})

  // ---- The locked table -------------------------------------------------------------------

  function SendCommand(s: State, c: Command): State {
    s.(commands := s.commands + [c], readable := true)
  }

  function Unwatch(s: State, p: Pid): State {
    if p !in s.pids then s else s.(pids := s.pids[p := s.pids[p].(watched := false)])
  }

  predicate ShouldRemove(s: State, p: Pid)
    requires p in s.pids
  {
    s.pids[p].callbacks == {} && s.pids[p].unregistered
  }

  function MaybeRemove(s: State, p: Pid): State
    requires p in s.pids
  {
    if ShouldRemove(s, p) then s.(pids := s.pids - {p}) else s
  }

  /** A sequence of all elements, in some order: the order in which a hash map is drained. */
  function InOrder(hs: set<Handle>): (r: seq<Handle>)
    ensures forall h :: h in r <==> h in hs
    ensures NoDuplicates(r)
  {
    if hs == {} then []
    else
      var h := LeastOf(hs);
      var rest := InOrder(hs - {h});
      InFront(h, rest, hs);
      [h] + rest
  }

  lemma {:induction false} InFront(h: Handle, rest: seq<Handle>, hs: set<Handle>)
    requires h in hs && NoDuplicates(rest) && forall k :: k in rest <==> k in hs - {h}
    ensures NoDuplicates([h] + rest) && forall k :: k in [h] + rest <==> k in hs
  {
    assert forall k :: k in [h] + rest <==> k == h || k in rest;
    assert h !in rest;
  }

  /** `run_callbacks_for_pid`: drain and call. */
  function RunFor(s: State, p: Pid): State
    requires p in s.pids
  {
    s.(pids := s.pids[p := s.pids[p].(callbacks := {})], ran := s.ran + InOrder(s.pids[p].callbacks))
  }

  // ---- API calls --------------------------------------------------------------------------

  function RegisterPid(s: State, p: Pid): State
    requires p !in s.pids
  {
    s.(pids := s.pids[p := PidData({}, true, false)])
  }

  function Unregister(s: State, p: Pid): State {
    SendCommand(s, UnregisterPid(p))
  }

  /** The two conditions are assertions of the source. */
  function RegisterCallback(s: State, p: Pid): State
    requires p in s.pids && !s.pids[p].unregistered
  {
    var h := s.nextHandle;
    var r := s.(nextHandle := h + 1, owner := s.owner[h := p],
                pids := s.pids[p := s.pids[p].(callbacks := s.pids[p].callbacks + {h})]);
    if s.pids[p].watched then r else SendCommand(r, RunCallbacks(p))
  }

  function UnregisterCallback(s: State, p: Pid, h: Handle): State {
    if p !in s.pids then s
    else
      var left := s.pids[p].(callbacks := s.pids[p].callbacks - {h});
      MaybeRemove(s.(pids := s.pids[p := left], dropped := s.dropped + s.pids[p].callbacks * {h}), p)
  }

  // ---- The thread -------------------------------------------------------------------------

  /** Readiness is level-triggered: a watched pidfd whose process exited, or the eventfd. */
  predicate EpollReady(s: State) {
    s.readable || exists p | p in s.pids :: s.pids[p].watched && p in s.exited
  }

  /** What one `epoll_wait` may report: distinct ready pids, not necessarily all of them. */
  predicate MayReport(s: State, events: seq<Pid>) {
    && (forall i | 0 <= i < |events| :: events[i] in s.pids && s.pids[events[i]].watched && events[i] in s.exited)
    && (forall i, j | 0 <= i < j < |events| :: events[i] != events[j])
  }

  /** One reported pid, with the lock held; `None` is the panic on a pid that is gone. */
  function HandleEvent(s: State, p: Pid): Option<State> {
    if p !in s.pids then None else Some(MaybeRemove(RunFor(Unwatch(s, p), p), p))
  }

  function HandleEvents(s: State, events: seq<Pid>): Option<State>
    decreases |events|
  {
    if events == [] then Some(s)
    else
      var r := HandleEvent(s, events[0]);
      if r.None? then None else HandleEvents(r.value, events[1..])
  }

  function HandleCommand(s: State, c: Command): Option<State> {
    match c
    case RunCallbacks(p) => if p !in s.pids then None else Some(MaybeRemove(RunFor(s, p), p))
    case UnregisterPid(p) =>
      if p !in s.pids then Some(s)
      else Some(MaybeRemove(s.(pids := s.pids[p := s.pids[p].(unregistered := true)]), p))
    case Finish => Some(s.(done := true))
  }

  /** The swapped-out commands, up to and including `Finish`. */
  function HandleCommands(s: State, cs: seq<Command>): Option<State>
    decreases |cs|
  {
    if cs == [] || s.done then Some(s)
    else
      var r := HandleCommand(s, cs[0]);
      if r.None? then None else HandleCommands(r.value, cs[1..])
  }

  /** The body of `thread_loop` once the lock is held. */
  function Turn(s: State): Option<State>
    requires s.batch.Some?
  {
    var r := HandleEvents(s.(batch := None), s.batch.value);
    if r.None? then None
    else HandleCommands(r.value.(readable := false, commands := []), r.value.commands)
  }

  // ---- Invariant --------------------------------------------------------------------------

  /** Every registered callback is on its way: its pid is still watched or is to be run. */
  ghost predicate NothingLost(s: State, cs: seq<Command>) {
    forall p | p in s.pids && s.pids[p].callbacks != {} :: s.pids[p].watched || RunCallbacks(p) in cs
  }

  /** A pid with a pending run exists, is dead, and is not unregistered before that run. */
  ghost predicate RunsAreGood(s: State, cs: seq<Command>) {
    forall i | 0 <= i < |cs| && cs[i].RunCallbacks? ::
      && cs[i].pid in s.pids && !s.pids[cs[i].pid].watched && !s.pids[cs[i].pid].unregistered
      && UnregisterPid(cs[i].pid) !in cs[..i]
  }

  ghost predicate NoDuplicates(hs: seq<Handle>) {
    forall i, j | 0 <= i < j < |hs| :: hs[i] != hs[j]
  }

  /** Handles are never reused; a live one belongs to its pid and has not run; one that ran, ran
      once, and after its process exited. */
  ghost predicate HandlesOk(s: State) {
    && (forall h | h in s.owner :: h < s.nextHandle)
    && (forall p, h | p in s.pids && h in s.pids[p].callbacks :: h in s.owner && s.owner[h] == p && h !in s.ran)
    && NoDuplicates(s.ran)
    && (forall h | h in s.ran :: h in s.owner && s.owner[h] in s.exited)
    && (forall p | p in s.pids && !s.pids[p].watched :: p in s.exited)
  }

  ghost predicate BatchOk(s: State) {
    s.batch.Some? ==>
      && (forall i | 0 <= i < |s.batch.value| :: s.batch.value[i] in s.exited)
      && (forall i, j | 0 <= i < j < |s.batch.value| :: s.batch.value[i] != s.batch.value[j])
  }

  ghost predicate Ok(s: State) {
    && HandlesOk(s) && BatchOk(s)
    && (!s.done ==> NothingLost(s, s.commands) && RunsAreGood(s, s.commands) && (s.commands != [] ==> s.readable))
  }

  // ---- API calls keep it ------------------------------------------------------------------

  lemma {:induction false} RegisterPidKeeps(s: State, p: Pid)
    requires Ok(s) && p !in s.pids
    ensures Ok(RegisterPid(s, p))
  {
  }

  lemma {:induction false} UnregisterKeeps(s: State, p: Pid)
    requires Ok(s)
    ensures Ok(Unregister(s, p))
  {
    var r := Unregister(s, p);
    assert forall i | 0 <= i < |s.commands| :: r.commands[..i] == s.commands[..i] && r.commands[i] == s.commands[i];
  }

  lemma {:induction false} RegisterCallbackKeeps(s: State, p: Pid)
    requires Ok(s) && p in s.pids && !s.pids[p].unregistered && UnregisterPid(p) !in s.commands
    ensures Ok(RegisterCallback(s, p))
    ensures s.nextHandle in RegisterCallback(s, p).pids[p].callbacks
  {
    hide HandlesOk, NothingLost, RunsAreGood;
    RegisterHandles(s, p);
    if !s.done {
      RegisterLosesNothing(s, p);
      RegisterKeepsRuns(s, p);
    }
  }

  lemma {:induction false} RegisterHandles(s: State, p: Pid)
    requires HandlesOk(s) && p in s.pids && !s.pids[p].unregistered
    ensures HandlesOk(RegisterCallback(s, p))
  {
    assert s.nextHandle !in s.owner && s.nextHandle !in s.ran;
  }

  lemma {:induction false} RegisterLosesNothing(s: State, p: Pid)
    requires p in s.pids && !s.pids[p].unregistered && NothingLost(s, s.commands)
    ensures NothingLost(RegisterCallback(s, p), RegisterCallback(s, p).commands)
  {
    var r := RegisterCallback(s, p);
    assert !s.pids[p].watched ==> r.commands[|s.commands|] == RunCallbacks(p);
    assert forall c | c in s.commands :: c in r.commands;
  }

  lemma {:induction false} RegisterKeepsRuns(s: State, p: Pid)
    requires p in s.pids && !s.pids[p].unregistered && UnregisterPid(p) !in s.commands && RunsAreGood(s, s.commands)
    ensures RunsAreGood(RegisterCallback(s, p), RegisterCallback(s, p).commands)
  {
    var r := RegisterCallback(s, p);
    var n := |s.commands|;
    forall i | 0 <= i < |r.commands| && r.commands[i].RunCallbacks?
      ensures r.commands[i].pid in r.pids && !r.pids[r.commands[i].pid].watched && !r.pids[r.commands[i].pid].unregistered
              && UnregisterPid(r.commands[i].pid) !in r.commands[..i]
    {
      assert r.commands[..i] == s.commands[..i];
      if i < n {
        assert r.commands[i] == s.commands[i];
      } else {
        assert s.commands[..n] == s.commands;
      }
    }
  }

  lemma {:induction false} DropHandles(s: State, p: Pid, h: Handle)
    requires HandlesOk(s)
    ensures HandlesOk(UnregisterCallback(s, p, h))
  {
  }

  lemma {:induction false} DropKeepsCommands(s: State, p: Pid, h: Handle)
    requires NothingLost(s, s.commands) && RunsAreGood(s, s.commands)
    ensures NothingLost(UnregisterCallback(s, p, h), s.commands) && RunsAreGood(UnregisterCallback(s, p, h), s.commands)
  {
    var r := UnregisterCallback(s, p, h);
    forall i | 0 <= i < |s.commands| && s.commands[i].RunCallbacks?
      ensures s.commands[i].pid in r.pids && !r.pids[s.commands[i].pid].watched && !r.pids[s.commands[i].pid].unregistered
    {
      assert s.commands[i].pid in s.pids && !s.pids[s.commands[i].pid].unregistered;
    }
  }

  lemma {:induction false} UnregisterCallbackKeeps(s: State, p: Pid, h: Handle)
    requires Ok(s)
    ensures Ok(UnregisterCallback(s, p, h))
  {
    hide HandlesOk, NothingLost, RunsAreGood;
    DropHandles(s, p, h);
    if !s.done {
      DropKeepsCommands(s, p, h);
    }
  }

  // ---- The thread keeps it ------------------------------------------------------------------

  lemma {:induction false} RunForHandles(s: State, p: Pid)
    requires HandlesOk(s) && p in s.pids && p in s.exited
    ensures HandlesOk(RunFor(s, p))
  {
    var run := InOrder(s.pids[p].callbacks);
    var r := RunFor(s, p);
    forall i, j | 0 <= i < j < |r.ran| ensures r.ran[i] != r.ran[j] {
      if i < |s.ran| <= j {
        assert r.ran[i] in s.ran;
        assert r.ran[j] == run[j - |s.ran|] && run[j - |s.ran|] in run;
        assert r.ran[j] in s.pids[p].callbacks;
      } else if |s.ran| <= i {
        assert r.ran[i] == run[i - |s.ran|] && r.ran[j] == run[j - |s.ran|];
      }
    }
    assert forall k | k in run :: s.owner[k] == p;
    forall q, h | q in r.pids && h in r.pids[q].callbacks ensures h !in r.ran {
      assert q != p && s.owner[h] == q;
    }
  }

  lemma {:induction false} MaybeRemoveHandles(s: State, p: Pid)
    requires HandlesOk(s) && p in s.pids
    ensures HandlesOk(MaybeRemove(s, p))
  {
  }

  /** Everything about pids other than `p` is left alone. */
  ghost predicate OnlyTouches(s: State, r: State, p: Pid) {
    && (forall q | q != p :: (q in s.pids <==> q in r.pids) && (q in s.pids ==> r.pids[q] == s.pids[q]))
    && r.commands == s.commands && r.readable == s.readable && r.exited == s.exited && r.owner == s.owner
    && r.nextHandle == s.nextHandle && r.batch == s.batch && r.dropped == s.dropped
  }

  lemma {:induction false} UnwatchHandles(s: State, p: Pid)
    requires HandlesOk(s) && p in s.exited && p in s.pids
    ensures HandlesOk(Unwatch(s, p))
  {
  }

  lemma {:induction false} EventHandles(s: State, p: Pid)
    requires HandlesOk(s) && p in s.exited && p in s.pids
    ensures HandleEvent(s, p).Some? && HandlesOk(HandleEvent(s, p).value)
  {
    hide HandlesOk;
    UnwatchHandles(s, p);
    RunForHandles(Unwatch(s, p), p);
    MaybeRemoveHandles(RunFor(Unwatch(s, p), p), p);
  }

  lemma {:induction false} EventKeeps(s: State, p: Pid)
    requires HandlesOk(s) && p in s.exited && p in s.pids
    ensures HandleEvent(s, p).Some?
    ensures var r := HandleEvent(s, p).value;
            && HandlesOk(r) && OnlyTouches(s, r, p) && r.done == s.done
            && (p in r.pids ==> r.pids[p] == PidData({}, false, s.pids[p].unregistered))
            && (p !in r.pids ==> s.pids[p].unregistered)
            && r.ran == s.ran + InOrder(s.pids[p].callbacks)
  {
    hide HandlesOk;
    EventHandles(s, p);
  }

  lemma {:induction false} EventKeepsCommands(s: State, p: Pid)
    requires HandlesOk(s) && p in s.exited && p in s.pids
    requires NothingLost(s, s.commands) && RunsAreGood(s, s.commands)
    ensures HandleEvent(s, p).Some?
    ensures NothingLost(HandleEvent(s, p).value, s.commands) && RunsAreGood(HandleEvent(s, p).value, s.commands)
  {
    EventKeeps(s, p);
    var r := HandleEvent(s, p).value;
    hide HandlesOk, HandleEvent;
    forall i | 0 <= i < |s.commands| && s.commands[i].RunCallbacks?
      ensures s.commands[i].pid in r.pids && !r.pids[s.commands[i].pid].watched && !r.pids[s.commands[i].pid].unregistered
    {
      assert s.commands[i].pid in s.pids;
    }
  }

  /** The events of a batch can be handled exactly when none of their pids is gone. */
  lemma {:induction false} EventsPanicIff(s: State, events: seq<Pid>)
    requires forall i, j | 0 <= i < j < |events| :: events[i] != events[j]
    ensures HandleEvents(s, events).Some? <==> forall i | 0 <= i < |events| :: events[i] in s.pids
    decreases |events|
  {
    if events != [] && events[0] in s.pids {
      var r := HandleEvent(s, events[0]).value;
      assert forall q | q != events[0] :: q in s.pids <==> q in r.pids;
      EventsPanicIff(r, events[1..]);
      assert forall i | 0 <= i < |events[1..]| :: events[1..][i] == events[i + 1];
    }
  }

  lemma {:induction false} EventsKeep(s: State, events: seq<Pid>)
    requires HandlesOk(s) && HandleEvents(s, events).Some? && !s.done
    requires forall i | 0 <= i < |events| :: events[i] in s.exited
    requires NothingLost(s, s.commands) && RunsAreGood(s, s.commands)
    ensures var r := HandleEvents(s, events).value;
            && HandlesOk(r) && NothingLost(r, s.commands) && RunsAreGood(r, s.commands)
            && r.commands == s.commands && !r.done && r.batch == s.batch && r.exited == s.exited
    decreases |events|
  {
    if events != [] {
      EventKeeps(s, events[0]);
      EventKeepsCommands(s, events[0]);
      hide HandlesOk, NothingLost, RunsAreGood, HandleEvent;
      EventsKeep(HandleEvent(s, events[0]).value, events[1..]);
    }
  }

  lemma {:induction false} RunCommandKeeps(s: State, cs: seq<Command>)
    requires HandlesOk(s) && cs != [] && cs[0].RunCallbacks? && NothingLost(s, cs) && RunsAreGood(s, cs)
    ensures HandleCommand(s, cs[0]).Some?
    ensures var r := HandleCommand(s, cs[0]).value;
            HandlesOk(r) && NothingLost(r, cs[1..]) && RunsAreGood(r, cs[1..]) && OnlyTouches(s, r, cs[0].pid) && r.done == s.done
  {
    var p := cs[0].pid;
    assert p in s.pids && !s.pids[p].watched && !s.pids[p].unregistered;
    RunForHandles(s, p);
    MaybeRemoveHandles(RunFor(s, p), p);
    var r := HandleCommand(s, cs[0]).value;
    hide HandlesOk;
    RestIsGood(s, r, cs, p);
  }

  /** Handling the first command, about `p`, leaves the rest in order. */
  lemma {:induction false} RestIsGood(s: State, r: State, cs: seq<Command>, p: Pid)
    requires cs != [] && NothingLost(s, cs) && RunsAreGood(s, cs) && OnlyTouches(s, r, p)
    requires cs[0] == RunCallbacks(p) || cs[0] == UnregisterPid(p)
    requires p in r.pids ==> (r.pids[p].callbacks != {} ==> p in s.pids && r.pids[p].callbacks == s.pids[p].callbacks && cs[0].UnregisterPid?)
    requires p in r.pids && p in s.pids ==> r.pids[p].watched == s.pids[p].watched
    requires cs[0].RunCallbacks? ==> p in r.pids && !r.pids[p].watched && !r.pids[p].unregistered
    ensures NothingLost(r, cs[1..]) && RunsAreGood(r, cs[1..])
  {
    var rest := cs[1..];
    assert forall c | c in cs :: c == cs[0] || c in rest;
    forall i | 0 <= i < |rest| && rest[i].RunCallbacks?
      ensures rest[i].pid in r.pids && !r.pids[rest[i].pid].watched && !r.pids[rest[i].pid].unregistered
              && UnregisterPid(rest[i].pid) !in rest[..i]
    {
      assert rest[i] == cs[i + 1] && cs[..i + 1] == [cs[0]] + rest[..i];
    }
  }

  lemma {:induction false} UnregisterHandles(s: State, p: Pid)
    requires HandlesOk(s)
    ensures HandleCommand(s, UnregisterPid(p)).Some? && HandlesOk(HandleCommand(s, UnregisterPid(p)).value)
  {
    if p in s.pids {
      var u := s.(pids := s.pids[p := s.pids[p].(unregistered := true)]);
      assert HandlesOk(u);
      hide HandlesOk;
      MaybeRemoveHandles(u, p);
    }
  }

  lemma {:induction false} UnregisterCommandKeeps(s: State, cs: seq<Command>)
    requires HandlesOk(s) && cs != [] && cs[0].UnregisterPid? && NothingLost(s, cs) && RunsAreGood(s, cs)
    ensures HandleCommand(s, cs[0]).Some?
    ensures var r := HandleCommand(s, cs[0]).value;
            HandlesOk(r) && NothingLost(r, cs[1..]) && RunsAreGood(r, cs[1..]) && OnlyTouches(s, r, cs[0].pid) && r.done == s.done
  {
    hide HandlesOk, NothingLost, RunsAreGood;
    UnregisterHandles(s, cs[0].pid);
    RestIsGood(s, HandleCommand(s, cs[0]).value, cs, cs[0].pid);
  }

  /** The command queue never meets a pid that is gone. */
  lemma {:induction false} CommandsKeep(s: State, cs: seq<Command>)
    requires HandlesOk(s) && NothingLost(s, cs) && RunsAreGood(s, cs)
    ensures HandleCommands(s, cs).Some?
    ensures var r := HandleCommands(s, cs).value;
            && HandlesOk(r) && (!r.done ==> NothingLost(r, []) && RunsAreGood(r, []))
            && r.commands == s.commands && r.readable == s.readable && r.batch == s.batch && r.exited == s.exited
    decreases |cs|
  {
    if cs != [] && !s.done {
      match cs[0] {
        case RunCallbacks(_) => RunCommandKeeps(s, cs);
        case UnregisterPid(_) => UnregisterCommandKeeps(s, cs);
        case Finish => assert HandlesOk(s.(done := true));
      }
      if !cs[0].Finish? {
        hide HandlesOk, NothingLost, RunsAreGood, HandleCommand;
        CommandsKeep(HandleCommand(s, cs[0]).value, cs[1..]);
      } else {
        var f := s.(done := true);
        assert HandleCommands(f, cs[1..]) == Some(f);
      }
    }
  }

  /** The turn's two halves, the second on the commands swapped out. */
  lemma {:induction false} TurnHalves(s: State)
    requires Ok(s) && !s.done && s.batch.Some? && HandleEvents(s.(batch := None), s.batch.value).Some?
    ensures var r := HandleEvents(s.(batch := None), s.batch.value).value;
            var q := r.(readable := false, commands := []);
            && HandlesOk(q) && NothingLost(q, r.commands) && RunsAreGood(q, r.commands) && q.batch == None
            && Turn(s) == HandleCommands(q, r.commands)
  {
    var t := s.(batch := None);
    assert HandlesOk(t) && NothingLost(t, t.commands) && RunsAreGood(t, t.commands);
    EventsKeep(t, s.batch.value);
    hide HandleEvents, HandleCommands;
    var r := HandleEvents(t, s.batch.value).value;
    assert HandlesOk(r.(readable := false, commands := []));
  }

  /** A turn of the thread panics exactly when a pid it was told about was removed between
      `epoll_wait` and the lock; otherwise it keeps the watcher in order. */
  lemma {:induction false} TurnPanicIff(s: State)
    requires Ok(s) && !s.done && s.batch.Some?
    ensures Turn(s).None? <==> exists i | 0 <= i < |s.batch.value| :: s.batch.value[i] !in s.pids
    ensures Turn(s).Some? ==> Ok(Turn(s).value)
  {
    hide HandlesOk, NothingLost, RunsAreGood, HandleEvents, HandleCommands;
    var t := s.(batch := None);
    EventsPanicIff(t, s.batch.value);
    if HandleEvents(t, s.batch.value).Some? {
      TurnHalves(s);
      var r := HandleEvents(t, s.batch.value).value;
      CommandsKeep(r.(readable := false, commands := []), r.commands);
    }
  }

  // ---- All runs ---------------------------------------------------------------------------

  datatype Op =
    | ExitOf(pid: Pid)
    | DoRegister(pid: Pid)
    | DoUnregister(pid: Pid)
    | DoRegisterCallback(pid: Pid)
    | DoUnregisterCallback(pid: Pid, handle: Handle)
    | DoFinish
    | EpollWait(events: seq<Pid>)
    | TakeTurn

  /** What callers and the kernel may do. */
  ghost predicate Allowed(s: State, op: Op) {
    match op
    case ExitOf(_) => true
    case DoRegister(p) => p !in s.pids
    case DoUnregister(_) => true
    case DoRegisterCallback(p) => p in s.pids && !s.pids[p].unregistered && UnregisterPid(p) !in s.commands
    case DoUnregisterCallback(_, _) => true
    case DoFinish => true
    case EpollWait(events) => !s.done && s.batch.None? && EpollReady(s) && MayReport(s, events)
    case TakeTurn => !s.done && s.batch.Some? && Turn(s).Some?
  }

  ghost function Do(s: State, op: Op): State
    requires Allowed(s, op)
  {
    match op
    case ExitOf(p) => s.(exited := s.exited + {p})
    case DoRegister(p) => RegisterPid(s, p)
    case DoUnregister(p) => Unregister(s, p)
    case DoRegisterCallback(p) => RegisterCallback(s, p)
    case DoUnregisterCallback(p, h) => UnregisterCallback(s, p, h)
    case DoFinish => SendCommand(s, Finish)
    case EpollWait(events) => s.(batch := Some(events))
    case TakeTurn => Turn(s).value
  }

  lemma {:induction false} FinishKeeps(s: State)
    requires Ok(s)
    ensures Ok(SendCommand(s, Finish))
  {
    var r := SendCommand(s, Finish);
    assert forall i | 0 <= i < |s.commands| :: r.commands[..i] == s.commands[..i] && r.commands[i] == s.commands[i];
  }

  lemma {:induction false} DoKeeps(s: State, op: Op)
    requires Ok(s) && Allowed(s, op)
    ensures Ok(Do(s, op))
  {
    match op
    case ExitOf(p) =>
    case DoRegister(p) => RegisterPidKeeps(s, p);
    case DoUnregister(p) => UnregisterKeeps(s, p);
    case DoRegisterCallback(p) => RegisterCallbackKeeps(s, p);
    case DoUnregisterCallback(p, h) => UnregisterCallbackKeeps(s, p, h);
    case DoFinish => FinishKeeps(s);
    case EpollWait(events) =>
    case TakeTurn => TurnPanicIff(s);
  }

  ghost predicate Reaches(s: State, ops: seq<Op>, r: State)
    decreases |ops|
  {
    if ops == [] then r == s else Allowed(s, ops[0]) && Reaches(Do(s, ops[0]), ops[1..], r)
  }

  // ---- No handle goes astray ------------------------------------------------------------------

  ghost predicate Live(s: State, h: Handle) {
    h in s.owner && s.owner[h] in s.pids && h in s.pids[s.owner[h]].callbacks
  }

  /** Every handle ever handed out is registered, has run, or was unregistered by its caller. */
  ghost predicate Accounted(s: State) {
    forall h | h in s.owner :: Live(s, h) || h in s.ran || h in s.dropped
  }

  lemma {:induction false} EventAccounted(s: State, p: Pid)
    requires HandlesOk(s) && Accounted(s) && p in s.pids
    ensures HandleEvent(s, p).Some? && Accounted(HandleEvent(s, p).value)
  {
    var r := HandleEvent(s, p).value;
    forall h | h in r.owner ensures Live(r, h) || h in r.ran || h in r.dropped {
      assert Live(s, h) || h in s.ran || h in s.dropped;
      assert h in s.pids[p].callbacks ==> h in InOrder(s.pids[p].callbacks);
    }
  }

  lemma {:induction false} EventsAccounted(s: State, events: seq<Pid>)
    requires HandlesOk(s) && Accounted(s) && HandleEvents(s, events).Some?
    requires forall i | 0 <= i < |events| :: events[i] in s.exited
    ensures Accounted(HandleEvents(s, events).value)
    decreases |events|
  {
    if events != [] {
      EventKeeps(s, events[0]);
      EventAccounted(s, events[0]);
      hide HandlesOk, Accounted, HandleEvent;
      EventsAccounted(HandleEvent(s, events[0]).value, events[1..]);
    }
  }

  lemma {:induction false} CommandAccounted(s: State, c: Command)
    requires HandlesOk(s) && Accounted(s) && HandleCommand(s, c).Some?
    ensures Accounted(HandleCommand(s, c).value)
  {
    var r := HandleCommand(s, c).value;
    forall h | h in r.owner ensures Live(r, h) || h in r.ran || h in r.dropped {
      assert Live(s, h) || h in s.ran || h in s.dropped;
      assert c.RunCallbacks? && h in s.pids[c.pid].callbacks ==> h in InOrder(s.pids[c.pid].callbacks);
    }
  }

  lemma {:induction false} CommandsAccounted(s: State, cs: seq<Command>)
    requires HandlesOk(s) && NothingLost(s, cs) && RunsAreGood(s, cs) && Accounted(s) && HandleCommands(s, cs).Some?
    ensures Accounted(HandleCommands(s, cs).value)
    decreases |cs|
  {
    if cs != [] && !s.done {
      CommandAccounted(s, cs[0]);
      if cs[0].RunCallbacks? {
        RunCommandKeeps(s, cs);
      } else if cs[0].UnregisterPid? {
        UnregisterCommandKeeps(s, cs);
      }
      hide HandlesOk, NothingLost, RunsAreGood, Accounted;
      if cs[0].Finish? {
        var f := s.(done := true);
        assert HandleCommands(f, cs[1..]) == Some(f);
      } else {
        hide HandleCommand;
        CommandsAccounted(HandleCommand(s, cs[0]).value, cs[1..]);
      }
    }
  }

  lemma {:induction false} TurnAccounted(s: State)
    requires Ok(s) && !s.done && s.batch.Some? && Turn(s).Some? && Accounted(s)
    ensures Accounted(Turn(s).value)
  {
    var t := s.(batch := None);
    assert HandlesOk(t) && Accounted(t);
    EventsAccounted(t, s.batch.value);
    TurnHalves(s);
    var r := HandleEvents(t, s.batch.value).value;
    assert Accounted(r.(readable := false, commands := []));
    hide HandlesOk, NothingLost, RunsAreGood, Accounted, HandleEvents, HandleCommands;
    CommandsAccounted(r.(readable := false, commands := []), r.commands);
  }

  lemma {:induction false} DoAccounted(s: State, op: Op)
    requires Ok(s) && Allowed(s, op) && Accounted(s)
    ensures Accounted(Do(s, op))
  {
    if op.TakeTurn? {
      TurnAccounted(s);
    } else {
      var r := Do(s, op);
      hide NothingLost, RunsAreGood, BatchOk;
      forall h | h in r.owner ensures Live(r, h) || h in r.ran || h in r.dropped {
        assert h in s.owner ==> Live(s, h) || h in s.ran || h in s.dropped;
      }
    }
  }

  lemma {:induction false} RunKeeps(s: State, ops: seq<Op>, r: State)
    requires Ok(s) && Accounted(s) && Reaches(s, ops, r)
    ensures Ok(r) && Accounted(r)
    decreases |ops|
  {
    if ops != [] {
      DoKeeps(s, ops[0]);
      DoAccounted(s, ops[0]);
      hide Ok, Do, Allowed, Accounted;
      RunKeeps(Do(s, ops[0]), ops[1..], r);
    }
  }

  /** Over every run: each callback ever registered is still registered, has run, or was unregistered
      by its caller.  Until `Finish`, whenever the lock is free, a registered one's pid is watched or
      has a pending run, so once its process has exited the thread's `epoll_wait` stays ready.  None
      has run twice, or before the exit. */
  lemma {:induction false} NoLostOrRepeatedCallback(ops: seq<Op>, r: State, h: Handle)
    requires Reaches(INITIAL, ops, r) && h in r.owner
    ensures Live(r, h) || h in r.ran || h in r.dropped
    ensures var p := r.owner[h];
            !r.done && Live(r, h) ==>
              && (r.pids[p].watched || (RunCallbacks(p) in r.commands && r.readable))
              && (p in r.exited ==> EpollReady(r))
              && h !in r.ran
    ensures NoDuplicates(r.ran) && (h in r.ran ==> r.owner[h] in r.exited)
  {
    RunKeeps(INITIAL, ops, r);
  }

  // ---- What stays in the table ------------------------------------------------------------------

  /** Still registered, or run. */
  ghost predicate Kept(s: State, h: Handle) {
    Live(s, h) || h in s.ran
  }

  /** No pid that is unregistered is kept without callbacks. */
  ghost predicate NoLeftovers(s: State) {
    forall p | p in s.pids && s.pids[p].unregistered :: s.pids[p].callbacks != {}
  }

  /** What the thread leaves alone: whose the handles are, and each handle until it is run. */
  ghost predicate Sparing(s: State, r: State) {
    && r.owner == s.owner
    && (forall h | h in s.owner && Kept(s, h) :: Kept(r, h))
    && (NoLeftovers(s) ==> NoLeftovers(r))
  }

  lemma {:induction false} RemoveSpares(s: State, p: Pid)
    requires p in s.pids
    ensures Sparing(s, MaybeRemove(s, p))
    ensures NoLeftovers(s.(pids := s.pids - {p})) ==> NoLeftovers(MaybeRemove(s, p))
  {
    var r, others := MaybeRemove(s, p), s.(pids := s.pids - {p});
    assert forall q | q in r.pids && q != p :: q in others.pids && others.pids[q] == r.pids[q];
  }

  lemma {:induction false} RunSpares(s: State, p: Pid)
    requires p in s.pids
    ensures forall h | h in s.owner && Kept(s, h) :: Kept(RunFor(s, p), h)
  {
    var r := RunFor(s, p);
    forall h | h in s.owner && Kept(s, h) ensures Kept(r, h) {
      assert h in s.pids[p].callbacks ==> h in InOrder(s.pids[p].callbacks);
    }
  }

  lemma {:induction false} EventSpares(s: State, p: Pid)
    requires p in s.pids
    ensures HandleEvent(s, p).Some? && Sparing(s, HandleEvent(s, p).value)
  {
    var u := Unwatch(s, p);
    assert forall h | h in s.owner && Kept(s, h) :: Kept(u, h);
    RunSpares(u, p);
    RemoveSpares(RunFor(u, p), p);
    hide RunFor, Kept, Live;
  }

  lemma {:induction false} CommandSpares(s: State, c: Command)
    requires HandleCommand(s, c).Some?
    ensures Sparing(s, HandleCommand(s, c).value)
  {
    match c
    case RunCallbacks(p) =>
      RunSpares(s, p);
      RemoveSpares(RunFor(s, p), p);
    case UnregisterPid(p) =>
      if p in s.pids {
        var u := s.(pids := s.pids[p := s.pids[p].(unregistered := true)]);
        assert forall h | h in s.owner && Kept(s, h) :: Kept(u, h);
        RemoveSpares(u, p);
      }
    case Finish =>
      assert forall h | h in s.owner && Kept(s, h) :: Kept(s.(done := true), h);
  }
  lemma {:induction false} SparingTwice(s: State, m: State, r: State)
    requires Sparing(s, m) && Sparing(m, r)
    ensures Sparing(s, r)
  {
    hide Kept, NoLeftovers;
  }

  lemma {:induction false} EventsSpare(s: State, events: seq<Pid>)
    requires HandleEvents(s, events).Some?
    ensures Sparing(s, HandleEvents(s, events).value)
    decreases |events|
  {
    if events != [] {
      EventSpares(s, events[0]);
      hide HandleEvent, Sparing;
      var m := HandleEvent(s, events[0]).value;
      EventsSpare(m, events[1..]);
      SparingTwice(s, m, HandleEvents(s, events).value);
    }
  }

  lemma {:induction false} CommandsSpare(s: State, cs: seq<Command>)
    requires HandleCommands(s, cs).Some?
    ensures Sparing(s, HandleCommands(s, cs).value)
    decreases |cs|
  {
    if cs != [] && !s.done {
      CommandSpares(s, cs[0]);
      hide HandleCommand, Sparing;
      var m := HandleCommand(s, cs[0]).value;
      CommandsSpare(m, cs[1..]);
      SparingTwice(s, m, HandleCommands(s, cs).value);
    }
  }

  lemma {:induction false} TurnSpares(s: State)
    requires s.batch.Some? && Turn(s).Some?
    ensures Sparing(s, Turn(s).value)
  {
    var t := s.(batch := None);
    assert Sparing(s, t);
    EventsSpare(t, s.batch.value);
    var r := HandleEvents(t, s.batch.value).value;
    var q := r.(readable := false, commands := []);
    assert Sparing(r, q);
    CommandsSpare(q, r.commands);
    hide Sparing, HandleEvents, HandleCommands;
    SparingTwice(s, t, r);
    SparingTwice(s, r, q);
    SparingTwice(s, q, Turn(s).value);
  }

  /** `unregister_callback` takes the given handle out of its pid's table, and no other handle. */
  lemma {:induction false} OnlyThatHandle(s: State, p: Pid, h: Handle, k: Handle)
    requires k in s.owner
    ensures var r := UnregisterCallback(s, p, h);
            && r.owner == s.owner
            && (Live(r, k) <==> Live(s, k) && !(k == h && s.owner[k] == p))
  {
    if p in s.pids {
      var left := s.pids[p].callbacks - {h};
      assert k in left <==> k in s.pids[p].callbacks && k != h;
    }
  }

  /** Over every run, a handle stays registered until it has run, unless `unregister_callback` is
      called for it with its own pid. */
  lemma {:induction false} StaysRegistered(s: State, ops: seq<Op>, r: State, h: Handle)
    requires Reaches(s, ops, r) && h in s.owner && Kept(s, h)
    requires Ok(s) && DoUnregisterCallback(s.owner[h], h) !in ops
    ensures Kept(r, h)
    decreases |ops|
  {
    if ops != [] {
      DoKeeps(s, ops[0]);
      StepSpares(s, ops[0], h);
      assert forall op | op in ops[1..] :: op in ops;
      hide Ok, Do, Allowed, Kept;
      StaysRegistered(Do(s, ops[0]), ops[1..], r, h);
    }
  }

  lemma {:induction false} StepSpares(s: State, op: Op, h: Handle)
    requires Ok(s) && Allowed(s, op) && h in s.owner && Kept(s, h) && op != DoUnregisterCallback(s.owner[h], h)
    ensures var r := Do(s, op); h in r.owner && r.owner[h] == s.owner[h] && Kept(r, h)
  {
    hide NothingLost, RunsAreGood, BatchOk;
    if op.TakeTurn? {
      TurnSpares(s);
      hide Turn;
    } else if op.DoUnregisterCallback? {
      OnlyThatHandle(s, op.pid, op.handle, h);
    }
  }

  lemma {:induction false} DoLeavesNothing(s: State, op: Op)
    requires Allowed(s, op) && NoLeftovers(s)
    ensures NoLeftovers(Do(s, op))
  {
    if op.TakeTurn? {
      TurnSpares(s);
      hide Turn;
    } else if op.DoUnregisterCallback? && op.pid in s.pids {
      var left := s.pids[op.pid].(callbacks := s.pids[op.pid].callbacks - {op.handle});
      var u := s.(pids := s.pids[op.pid := left], dropped := s.dropped + s.pids[op.pid].callbacks * {op.handle});
      RemoveSpares(u, op.pid);
    }
  }

  /** Over every run, a pid that has been unregistered is kept only for the sake of its callbacks. */
  lemma {:induction false} NothingIsLeftOver(s: State, ops: seq<Op>, r: State)
    requires NoLeftovers(s) && Reaches(s, ops, r)
    ensures NoLeftovers(r)
    decreases |ops|
  {
    if ops != [] {
      DoLeavesNothing(s, ops[0]);
      hide NoLeftovers, Do, Allowed;
      NothingIsLeftOver(Do(s, ops[0]), ops[1..], r);
    }
  }

  /** `p` is in the table, and neither unregistered nor going to be by `cs`. */
  predicate InUse(s: State, cs: seq<Command>, p: Pid) {
    p in s.pids && !s.pids[p].unregistered && UnregisterPid(p) !in cs
  }

  lemma {:induction false} EventsKeepPid(s: State, events: seq<Pid>, p: Pid)
    requires HandleEvents(s, events).Some?
    ensures var r := HandleEvents(s, events).value;
            r.commands == s.commands && (InUse(s, s.commands, p) ==> InUse(r, s.commands, p))
    decreases |events|
  {
    if events != [] {
      EventsKeepPid(HandleEvent(s, events[0]).value, events[1..], p);
    }
  }

  lemma {:induction false} CommandsKeepPid(s: State, cs: seq<Command>, p: Pid)
    requires HandleCommands(s, cs).Some?
    ensures var r := HandleCommands(s, cs).value;
            && r.commands == s.commands
            && (InUse(s, cs, p) ==> InUse(r, [], p))
            && (UnregisterPid(p) in cs && !s.done && Finish !in cs ==> !InUse(r, [], p))
            && (!InUse(s, [], p) ==> !InUse(r, [], p))
    decreases |cs|
  {
    if cs != [] && !s.done {
      CommandsKeepPid(HandleCommand(s, cs[0]).value, cs[1..], p);
    }
  }

  /** A turn of the thread unregisters the pids it has been told to, and takes no other out of use. */
  lemma {:induction false} TurnUnregistersExactly(s: State, p: Pid)
    requires s.batch.Some? && Turn(s).Some? && !s.done && Finish !in s.commands && p in s.pids && !s.pids[p].unregistered
    ensures InUse(Turn(s).value, [], p) <==> UnregisterPid(p) !in s.commands
    ensures Turn(s).value.commands == []
  {
    var t := s.(batch := None);
    EventsKeepPid(t, s.batch.value, p);
    EventsRunning(t, s.batch.value);
    var r := HandleEvents(t, s.batch.value).value;
    hide HandleEvents, HandleCommands;
    CommandsKeepPid(r.(readable := false, commands := []), r.commands, p);
  }

  lemma {:induction false} EventsRunning(s: State, events: seq<Pid>)
    requires HandleEvents(s, events).Some?
    ensures HandleEvents(s, events).value.done == s.done
    decreases |events|
  {
    if events != [] {
      EventsRunning(HandleEvent(s, events[0]).value, events[1..]);
    }
  }

  /** A handle that is neither registered any more nor going to be handed out again. */
  ghost predicate Retired(s: State, h: Handle) {
    h < s.nextHandle && forall p | p in s.pids :: h !in s.pids[p].callbacks
  }

  lemma {:induction false} EventsRetired(s: State, events: seq<Pid>, h: Handle)
    requires Retired(s, h) && HandleEvents(s, events).Some?
    ensures Retired(HandleEvents(s, events).value, h)
    ensures h in HandleEvents(s, events).value.ran ==> h in s.ran
    decreases |events|
  {
    if events != [] {
      EventsRetired(HandleEvent(s, events[0]).value, events[1..], h);
    }
  }

  lemma {:induction false} CommandsRetired(s: State, cs: seq<Command>, h: Handle)
    requires Retired(s, h) && HandleCommands(s, cs).Some?
    ensures Retired(HandleCommands(s, cs).value, h)
    ensures h in HandleCommands(s, cs).value.ran ==> h in s.ran
    decreases |cs|
  {
    if cs != [] && !s.done {
      CommandsRetired(HandleCommand(s, cs[0]).value, cs[1..], h);
    }
  }

  lemma {:induction false} DoRetired(s: State, op: Op, h: Handle)
    requires Ok(s) && Allowed(s, op) && Retired(s, h)
    ensures Retired(Do(s, op), h) && (h in Do(s, op).ran ==> h in s.ran)
  {
    if op.TakeTurn? {
      var t := s.(batch := None);
      EventsRetired(t, s.batch.value, h);
      var r := HandleEvents(t, s.batch.value).value;
      CommandsRetired(r.(readable := false, commands := []), r.commands, h);
    }
  }

  /** Once `unregister_callback` has returned, the callback has already run or never will. */
  lemma {:induction false} NeverAfterUnregister(s: State, p: Pid, h: Handle, ops: seq<Op>, r: State)
    requires Ok(s) && h in s.owner && s.owner[h] == p
    requires Reaches(UnregisterCallback(s, p, h), ops, r)
    ensures h in r.ran ==> h in s.ran
  {
    var u := UnregisterCallback(s, p, h);
    UnregisterCallbackKeeps(s, p, h);
    assert Retired(u, h) && u.ran == s.ran;
    StaysRetired(u, ops, r, h);
  }

  lemma {:induction false} StaysRetired(s: State, ops: seq<Op>, r: State, h: Handle)
    requires Ok(s) && Retired(s, h) && Reaches(s, ops, r)
    ensures h in r.ran ==> h in s.ran
    decreases |ops|
  {
    if ops != [] {
      DoKeeps(s, ops[0]);
      DoRetired(s, ops[0], h);
      hide Ok, Do, Allowed;
      StaysRetired(Do(s, ops[0]), ops[1..], r, h);
    }
  }

  lemma {:induction false} OneMore(s: State, op: Op, ops: seq<Op>, r: State)
    requires Allowed(s, op) && Reaches(Do(s, op), ops, r)
    ensures Reaches(s, [op] + ops, r)
  {
    assert ([op] + ops)[1..] == ops;
    hide Allowed, Do;
  }

  const REGISTERED := INITIAL.(pids := map[5 := PidData({}, true, false)])
  const LISTENING := INITIAL.(nextHandle := 2, pids := map[5 := PidData({1}, true, false)], owner := map[1 := 5])
  const UNREGISTERED := LISTENING.(pids := map[5 := PidData({1}, true, true)])
  const RACING := UNREGISTERED.(exited := {5}, batch := Some([5]))
  const DEAD := INITIAL.(pids := map[5 := PidData({}, false, false)], exited := {5})

  lemma {:induction false} RegisterBoth()
    ensures RegisterPid(INITIAL, 5) == REGISTERED && RegisterCallback(REGISTERED, 5) == LISTENING
  {
    assert {} + {1} == {1} && REGISTERED.pids[5 := PidData({1}, true, false)] == LISTENING.pids;
    assert INITIAL.owner[1 := 5] == LISTENING.owner;
  }

  lemma {:induction false} TurnUnregisters()
    ensures Turn(Unregister(LISTENING, 5).(batch := Some([]))) == Some(UNREGISTERED)
  {
    var s := Unregister(LISTENING, 5);
    assert s.commands == [UnregisterPid(5)] && s.commands[1..] == [];
    assert HandleEvents(s, []) == Some(s);
    assert LISTENING.pids[5 := PidData({1}, true, true)] == UNREGISTERED.pids;
    assert HandleCommand(LISTENING, UnregisterPid(5)) == Some(UNREGISTERED);
    assert HandleCommands(UNREGISTERED, []) == Some(UNREGISTERED);
    assert HandleCommands(LISTENING, [UnregisterPid(5)]) == Some(UNREGISTERED);
  }

  lemma {:induction false} RaceEnd() returns (ops: seq<Op>)
    ensures Reaches(UNREGISTERED, ops, RACING)
  {
    hide Turn;
    var s := UNREGISTERED.(exited := {5});
    assert UNREGISTERED.exited + {5} == {5} && s.pids[5].watched && 5 in s.exited;
    assert EpollReady(s) && MayReport(s, [5]);
    OneMore(s, EpollWait([5]), [], RACING);
    OneMore(UNREGISTERED, ExitOf(5), [EpollWait([5])] + [], RACING);
    ops := [ExitOf(5)] + ([EpollWait([5])] + []);
  }

  lemma {:induction false} RaceTurn(tail: seq<Op>) returns (ops: seq<Op>)
    requires Reaches(UNREGISTERED, tail, RACING)
    ensures Reaches(LISTENING, ops, RACING)
  {
    hide Turn, Reaches;
    TurnUnregisters();
    var s := Unregister(LISTENING, 5);
    OneMore(s.(batch := Some([])), TakeTurn, tail, RACING);
    OneMore(s, EpollWait([]), [TakeTurn] + tail, RACING);
    OneMore(LISTENING, DoUnregister(5), [EpollWait([])] + ([TakeTurn] + tail), RACING);
    ops := [DoUnregister(5)] + ([EpollWait([])] + ([TakeTurn] + tail));
  }

  lemma {:induction false} RaceBegin(tail: seq<Op>) returns (ops: seq<Op>)
    requires Reaches(LISTENING, tail, RACING)
    ensures Reaches(INITIAL, ops, RACING)
  {
    hide Turn, Reaches;
    RegisterBoth();
    OneMore(REGISTERED, DoRegisterCallback(5), tail, RACING);
    OneMore(INITIAL, DoRegister(5), [DoRegisterCallback(5)] + tail, RACING);
    ops := [DoRegister(5)] + ([DoRegisterCallback(5)] + tail);
  }

  /** The race is real: in a run where every caller keeps the rules, a pid whose exit the thread has
      already been told of is removed by an `unregister_callback` before the thread gets the lock. */
  lemma {:induction false} RemovedPidPanics()
    ensures exists s :: RacingState(s) && Turn(UnregisterCallback(s, 5, 1)).None?
  {
    hide Turn, Reaches;
    var ops := RaceEnd();
    ops := RaceTurn(ops);
    ops := RaceBegin(ops);
    RacePanics(RACING);
    assert RacingState(RACING);
  }

  lemma {:induction false} RacePanics(s: State)
    requires s.pids == map[5 := PidData({1}, true, true)] && s.batch == Some([5])
    ensures Turn(UnregisterCallback(s, 5, 1)).None?
  {
    var u := UnregisterCallback(s, 5, 1);
    assert u.pids == map[] && HandleEvent(u.(batch := None), 5) == None;
  }

  /** A reachable state in which the thread has been told of the exit of pid 5. */
  ghost predicate RacingState(s: State) {
    s.batch == Some([5]) && exists ops :: Reaches(INITIAL, ops, s)
  }

  lemma {:induction false} TurnNotices()
    ensures Turn(REGISTERED.(exited := {5}, batch := Some([5]))) == Some(DEAD)
  {
    var s := REGISTERED.(exited := {5});
    assert InOrder({}) == [] && s.ran + [] == s.ran;
    assert Unwatch(s, 5).pids == DEAD.pids && RunFor(Unwatch(s, 5), 5).pids == DEAD.pids;
    assert HandleEvent(s, 5) == Some(DEAD);
    assert [5][1..] == [] && HandleEvents(DEAD, []) == Some(DEAD);
    assert HandleEvents(s, [5]) == Some(DEAD);
    assert HandleCommands(DEAD, []) == Some(DEAD);
  }

  lemma {:induction false} DeadIsReached() returns (ops: seq<Op>)
    ensures Reaches(INITIAL, ops, Unregister(DEAD, 5))
  {
    hide Turn;
    var end := Unregister(DEAD, 5);
    assert Reaches(end, [], end);
    hide Reaches;
    RegisterBoth();
    TurnNotices();
    var s := REGISTERED.(exited := {5});
    assert REGISTERED.exited + {5} == {5} && s.pids[5].watched && 5 in s.exited;
    assert EpollReady(s) && MayReport(s, [5]);
    OneMore(DEAD, DoUnregister(5), [], end);
    ops := [DoUnregister(5)] + [];
    OneMore(s.(batch := Some([5])), TakeTurn, ops, end);
    ops := [TakeTurn] + ops;
    OneMore(s, EpollWait([5]), ops, end);
    ops := [EpollWait([5])] + ops;
    OneMore(REGISTERED, ExitOf(5), ops, end);
    ops := [ExitOf(5)] + ops;
    OneMore(INITIAL, DoRegister(5), ops, end);
    ops := [DoRegister(5)] + ops;
  }

  /** A reachable state in which `unregister_pid` was called for pid 5 but is still pending, so that
      the assertion of `register_callback` holds. */
  ghost predicate PendingState(s: State) {
    && 5 in s.pids && !s.pids[5].unregistered && UnregisterPid(5) in s.commands
    && exists ops :: Reaches(INITIAL, ops, s)
  }

  /** The rule that no callback is registered after `unregister_pid` is needed although a pending
      command passes the assertion: with it broken, the command queue meets a pid that is gone. */
  lemma {:induction false} LateRegistrationPanics()
    ensures exists s :: PendingState(s) &&
              Turn(UnregisterCallback(RegisterCallback(s, 5), 5, s.nextHandle).(batch := Some([]))).None?
  {
    var s := Unregister(DEAD, 5);
    hide Turn, Reaches;
    var ops := DeadIsReached();
    LatePanics(s);
    assert PendingState(s);
  }

  lemma {:induction false} LatePanics(s: State)
    requires s.pids == map[5 := PidData({}, false, false)] && s.commands == [UnregisterPid(5)] && !s.done
    ensures Turn(UnregisterCallback(RegisterCallback(s, 5), 5, s.nextHandle).(batch := Some([]))).None?
  {
    var u := UnregisterCallback(RegisterCallback(s, 5), 5, s.nextHandle);
    assert u.commands == [UnregisterPid(5), RunCallbacks(5)] && u.pids[5] == PidData({}, false, false);
    var q := u.(batch := None, readable := false, commands := []);
    assert HandleEvents(u.(batch := None), []) == Some(u.(batch := None));
    var r := HandleCommand(q, UnregisterPid(5)).value;
    assert 5 !in r.pids && !r.done;
    assert u.commands[1..] == [RunCallbacks(5)];
    assert HandleCommands(r, [RunCallbacks(5)]) == None;
  }

  // ---- A turn delivers --------------------------------------------------------------------

  lemma {:induction false} EventsDeliver(s: State, events: seq<Pid>, p: Pid, h: Handle)
    requires HandleEvents(s, events).Some?
    requires h in s.ran || (p in s.pids && h in s.pids[p].callbacks)
    ensures var r := HandleEvents(s, events).value;
            && (h in s.ran ==> h in r.ran)
            && (h in r.ran || (p in r.pids && h in r.pids[p].callbacks && p !in events))
    ensures HandleEvents(s, events).value.commands == s.commands && HandleEvents(s, events).value.done == s.done
    decreases |events|
  {
    if events != [] {
      var r := HandleEvent(s, events[0]).value;
      if h !in s.ran && events[0] == p {
        assert h in InOrder(s.pids[p].callbacks);
      }
      assert events == [events[0]] + events[1..];
      EventsDeliver(r, events[1..], p, h);
    }
  }

  lemma {:induction false} CommandsDeliver(s: State, cs: seq<Command>, p: Pid, h: Handle)
    requires HandleCommands(s, cs).Some? && !s.done && Finish !in cs
    requires h in s.ran || (p in s.pids && h in s.pids[p].callbacks && RunCallbacks(p) in cs)
    ensures h in HandleCommands(s, cs).value.ran
    decreases |cs|
  {
    if cs != [] {
      var r := HandleCommand(s, cs[0]).value;
      if h !in s.ran && cs[0] == RunCallbacks(p) {
        assert h in InOrder(s.pids[p].callbacks);
      }
      CommandsDeliver(r, cs[1..], p, h);
    }
  }

  /** When the thread is told of a pid's exit, or finds its pending run, every callback registered
      for it by then has run once the turn is over. */
  lemma {:induction false} TurnDelivers(s: State, p: Pid, h: Handle)
    requires Ok(s) && !s.done && s.batch.Some? && Turn(s).Some? && Finish !in s.commands
    requires p in s.pids && h in s.pids[p].callbacks
    requires p in s.batch.value || RunCallbacks(p) in s.commands
    ensures h in Turn(s).value.ran
  {
    var t := s.(batch := None);
    EventsDeliver(t, s.batch.value, p, h);
    var r := HandleEvents(t, s.batch.value).value;
    CommandsDeliver(r.(readable := false, commands := []), r.commands, p, h);
  }

  // ---- The watcher object -----------------------------------------------------------------

  /** `Inner` with its methods; `exited`, `owner`, `ran` and `dropped` only record what happened. */
  class Watcher {
    var nextHandle: Handle
    var commands: seq<Command>
    var pids: map<Pid, PidData>
    var readable: bool
    var done: bool
    var exited: set<Pid>
    var owner: map<Handle, Pid>
    var ran: seq<Handle>
    var dropped: set<Handle>

    ghost function View(): State
      reads this
    {
      State(nextHandle, commands, pids, readable, done, None, exited, owner, ran, dropped)
    }

    constructor ()
      ensures View() == INITIAL && Ok(View())
    {
      nextHandle, commands, pids, readable, done := 1, [], map[], false, false;
      exited, owner, ran, dropped := {}, map[], [], {};
    }

    method Send(c: Command)
      modifies this
      ensures View() == SendCommand(old(View()), c)
    {
      commands := commands + [c];
      readable := true;
    }

    method RunCallbacksForPid(p: Pid)
      requires p in pids
      modifies this
      ensures View() == RunFor(old(View()), p)
    {
      ran := ran + InOrder(pids[p].callbacks);
      pids := pids[p := pids[p].(callbacks := {})];
    }

    method MaybeRemovePid(p: Pid)
      requires p in pids
      modifies this
      ensures View() == MaybeRemove(old(View()), p)
    {
      if pids[p].callbacks == {} && pids[p].unregistered {
        pids := pids - {p};
      }
    }

    method AddCallback(p: Pid) returns (handle: Handle)
      requires p in pids && !pids[p].unregistered
      modifies this
      ensures handle == old(nextHandle) && Live(View(), handle)
      ensures View() == RegisterCallback(old(View()), p)
      ensures old(Ok(View()) && UnregisterPid(p) !in commands) ==> Ok(View())
    {
      if Ok(View()) && UnregisterPid(p) !in commands {
        RegisterCallbackKeeps(View(), p);
      }
      hide Ok;
      handle := nextHandle;
      nextHandle := nextHandle + 1;
      owner := owner[handle := p];
      var data := pids[p];
      pids := pids[p := data.(callbacks := data.callbacks + {handle})];
      if !data.watched {
        Send(RunCallbacks(p));
      }
    }

    method DropCallback(p: Pid, h: Handle)
      modifies this
      ensures View() == UnregisterCallback(old(View()), p, h)
    {
      if p in pids {
        dropped := dropped + pids[p].callbacks * {h};
        pids := pids[p := pids[p].(callbacks := pids[p].callbacks - {h})];
        MaybeRemovePid(p);
      }
    }

    /** The events of one batch; `ok` is false where the source panics. */
    method ProcessEvents(events: seq<Pid>) returns (ok: bool)
      modifies this
      ensures ok == HandleEvents(old(View()), events).Some?
      ensures ok ==> View() == HandleEvents(old(View()), events).value
    {
      var i := 0;
      while i < |events|
        invariant 0 <= i <= |events|
        invariant HandleEvents(old(View()), events) == HandleEvents(View(), events[i..])
      {
        var p := events[i];
        assert events[i..][0] == p && events[i..][1..] == events[i + 1..];
        if p !in pids {
          return false;
        }
        pids := pids[p := pids[p].(watched := false)];
        RunCallbacksForPid(p);
        MaybeRemovePid(p);
        i := i + 1;
      }
      return true;
    }

    method ProcessCommand(c: Command) returns (ok: bool)
      modifies this
      ensures ok == HandleCommand(old(View()), c).Some?
      ensures ok ==> View() == HandleCommand(old(View()), c).value
    {
      match c {
        case RunCallbacks(p) =>
          if p !in pids {
            return false;
          }
          RunCallbacksForPid(p);
          MaybeRemovePid(p);
        case UnregisterPid(p) =>
          if p in pids {
            pids := pids[p := pids[p].(unregistered := true)];
            MaybeRemovePid(p);
          }
        case Finish =>
          done := true;
      }
      return true;
    }

    /** The commands in order, up to and including `Finish`. */
    method ProcessCommands(todo: seq<Command>) returns (ok: bool)
      modifies this
      ensures ok == HandleCommands(old(View()), todo).Some?
      ensures ok ==> View() == HandleCommands(old(View()), todo).value
    {
      hide HandleCommand;
      ok := true;
      var i := 0;
      while i < |todo| && !done
        invariant 0 <= i <= |todo|
        invariant HandleCommands(old(View()), todo) == HandleCommands(View(), todo[i..])
      {
        assert todo[i..][0] == todo[i] && todo[i..][1..] == todo[i + 1..];
        ok := ProcessCommand(todo[i]);
        if !ok {
          return;
        }
        i := i + 1;
      }
    }

    /** The body of `thread_loop` with the lock held. */
    method ThreadTurn(events: seq<Pid>) returns (ok: bool)
      requires !done && Ok(View().(batch := Some(events)))
      modifies this
      ensures ok == Turn(old(View().(batch := Some(events)))).Some?
      ensures ok <==> forall i | 0 <= i < |events| :: events[i] in old(pids)
      ensures ok ==> View() == Turn(old(View().(batch := Some(events)))).value && Ok(View())
    {
      TurnPanicIff(View().(batch := Some(events)));
      hide Ok, HandleEvents, HandleCommands;
      ok := ProcessEvents(events);
      if !ok {
        return;
      }
      readable := false;
      var todo := commands;
      commands := [];
      ok := ProcessCommands(todo);
    }
  }
}
