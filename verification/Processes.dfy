/** A host's process table (src/main/host/host.rs `resume`, src/main/host/process.rs): fork, exit,
    reparenting and reaping.  Each `unwrap` or `debug_panic!` of the source that relies on the
    shape of the table is a precondition or an assertion here. */
module Processes {
  import opened Options

  type Pid = nat
  type Signal = nat

  const INIT: Pid := 1
  const FIRST_PID: Pid := 1000

  datatype Process =
    | Runnable(parent: Pid, exitSignal: Option<Signal>, ignored: set<Signal>)
    | Zombie(parent: Pid, exitSignal: Option<Signal>)

  /** `processes`, and the counter that numbers threads and processes. */
  datatype Table = Table(processes: map<Pid, Process>, nextPid: Pid)

  const EMPTY := Table(map[], FIRST_PID)

  /** Every parent is init or an older process that still runs, and every zombie has a parent that
      may still reap it. */
  ghost predicate Ok(t: Table) {
    && INIT < t.nextPid
    && forall p | p in t.processes :: INIT < p < t.nextPid && ParentOk(t.processes, p)
  }

  ghost predicate ParentOk(ps: map<Pid, Process>, p: Pid)
    requires p in ps
  {
    var parent := ps[p].parent;
    if parent == INIT then ps[p].Runnable? else parent < p && parent in ps && ps[parent].Runnable?
  }

  // ---- Operations -------------------------------------------------------------------------

  function Add(t: Table, p: Process): Table {
    Table(t.processes[t.nextPid := p], t.nextPid + 1)
  }

  /** `Process::spawn` from `add_application`. */
  function Spawn(t: Table, ignored: set<Signal>): Table {
    Add(t, Runnable(INIT, None, ignored))
  }

  /** `new_forked_process`: with CLONE_PARENT the child becomes a sibling. */
  function Fork(t: Table, self: Pid, cloneParent: bool, exitSignal: Option<Signal>, ignored: set<Signal>): Table
    requires self in t.processes && t.processes[self].Runnable?
  {
    Add(t, Runnable(if cloneParent then t.processes[self].parent else self, exitSignal, ignored))
  }

  /** The running process changes which signals it explicitly ignores. */
  function SetIgnored(t: Table, self: Pid, ignored: set<Signal>): Table
    requires self in t.processes && t.processes[self].Runnable?
  {
    t.(processes := t.processes[self := t.processes[self].(ignored := ignored)])
  }

  /** The running process waits for and reaps one of its zombie children. */
  function Reap(t: Table, self: Pid, child: Pid): Table
    requires child in t.processes && t.processes[child].Zombie? && t.processes[child].parent == self
  {
    t.(processes := t.processes - {child})
  }

  /** `notify_parent_of_exit`: who is signalled.  The parent's state must be readable, so it must
      not be the dying process itself, and a parent that is no longer running is the panic. */
  function Notified(ps: map<Pid, Process>, self: Pid, p: Process): Option<Pid>
    requires p.exitSignal.Some? && p.parent != INIT && p.parent in ps ==>
               p.parent != self && ps[p.parent].Runnable?
  {
    if p.exitSignal.None? || p.parent == INIT || p.parent !in ps then None else Some(p.parent)
  }

  /** `ZombieProcess::reaper`: reading the parent's signal actions unwraps its runnable state. */
  function Reaper(ps: map<Pid, Process>, z: Process): Option<Pid>
    requires z.parent != INIT && z.parent in ps && z.exitSignal.Some? ==> ps[z.parent].Runnable?
  {
    if z.parent == INIT || z.parent !in ps then None
    else if z.exitSignal.Some? && z.exitSignal.value in ps[z.parent].ignored then None
    else Some(z.parent)
  }

  /** The table once `pid` has become a zombie, before its children are looked after. */
  function Exited(ps: map<Pid, Process>, pid: Pid): map<Pid, Process>
    requires pid in ps
  {
    ps[pid := Zombie(ps[pid].parent, ps[pid].exitSignal)]
  }

  /** What the second half of `Host::resume` leaves of a table in which `pid` is dead: its children
      belong to init, zombie children are gone, and so is `pid` if nobody will reap it. */
  function Buried(ps: map<Pid, Process>, pid: Pid, orphan: bool): map<Pid, Process> {
    map q | q in ps && !(ps[q].parent == pid && ps[q].Zombie?) && !(q == pid && orphan) ::
      if ps[q].parent == pid then ps[q].(parent := INIT) else ps[q]
  }

  /** What `Host::resume(pid)` does to the table once the process has run. */
  function Resumed(t: Table, pid: Pid, exits: bool): Table
    requires Ok(t)
  {
    if pid !in t.processes || (t.processes[pid].Runnable? && !exits) then t
    else
      assert ParentOk(t.processes, pid);
      var dead := Exited(t.processes, pid);
      t.(processes := Buried(dead, pid, Reaper(dead, dead[pid]).None?))
  }

  // ---- The invariant ----------------------------------------------------------------------

  lemma {:induction false} AddKeepsOk(t: Table, p: Process)
    requires Ok(t) && p.Runnable?
    requires p.parent == INIT || (p.parent in t.processes && t.processes[p.parent].Runnable?)
    ensures Ok(Add(t, p))
  {
    var r := Add(t, p);
    forall q | q in r.processes ensures INIT < q < r.nextPid && ParentOk(r.processes, q) {
      if q != t.nextPid {
        assert ParentOk(t.processes, q);
      }
    }
  }

  lemma {:induction false} ForkKeepsOk(t: Table, self: Pid, cloneParent: bool, exitSignal: Option<Signal>, ignored: set<Signal>)
    requires Ok(t) && self in t.processes && t.processes[self].Runnable?
    ensures Ok(Fork(t, self, cloneParent, exitSignal, ignored))
  {
    assert ParentOk(t.processes, self);
    AddKeepsOk(t, Runnable(if cloneParent then t.processes[self].parent else self, exitSignal, ignored));
  }

  lemma {:induction false} SetIgnoredKeepsOk(t: Table, self: Pid, ignored: set<Signal>)
    requires Ok(t) && self in t.processes && t.processes[self].Runnable?
    ensures Ok(SetIgnored(t, self, ignored))
  {
    var r := SetIgnored(t, self, ignored);
    forall q | q in r.processes ensures ParentOk(r.processes, q) {
      assert ParentOk(t.processes, q);
    }
  }

  /** Reaping a zombie leaves nobody without a parent: no process has a zombie parent. */
  lemma {:induction false} ReapKeepsOk(t: Table, self: Pid, child: Pid)
    requires Ok(t) && child in t.processes && t.processes[child].Zombie? && t.processes[child].parent == self
    ensures Ok(Reap(t, self, child))
  {
    var r := Reap(t, self, child);
    forall q | q in r.processes ensures ParentOk(r.processes, q) {
      assert ParentOk(t.processes, q);
    }
  }

  /** The dying process may be announced and its reaper looked up: neither panic is reachable. */
  lemma {:induction false} ExitIsSafe(t: Table, pid: Pid)
    requires Ok(t) && pid in t.processes
    ensures var p := Exited(t.processes, pid)[pid];
            && p.parent != pid
            && (p.parent != INIT ==> p.parent in t.processes && t.processes[p.parent].Runnable?
                                     && Exited(t.processes, pid)[p.parent] == t.processes[p.parent])
  {
    assert ParentOk(t.processes, pid);
  }

  lemma {:induction false} ResumedKeepsOk(t: Table, pid: Pid, exits: bool)
    requires Ok(t)
    ensures Ok(Resumed(t, pid, exits))
  {
    if !(pid !in t.processes || (t.processes[pid].Runnable? && !exits)) {
      ExitIsSafe(t, pid);
      var dead := Exited(t.processes, pid);
      var orphan := Reaper(dead, dead[pid]).None?;
      var r := Resumed(t, pid, exits);
      forall q | q in r.processes ensures INIT < q < r.nextPid && ParentOk(r.processes, q) {
        assert q in t.processes && ParentOk(t.processes, q);
      }
    }
  }

  /** Parents are older, so following them always ends at init. */
  function Ancestors(t: Table, p: Pid): (a: seq<Pid>)
    requires Ok(t) && p in t.processes
    ensures |a| > 0 && a[|a| - 1] == INIT
    ensures forall i | 0 <= i < |a| - 1 :: a[i] in t.processes && t.processes[a[i]].Runnable? && a[i] < p
    decreases p
  {
    assert ParentOk(t.processes, p);
    var parent := t.processes[p].parent;
    if parent == INIT then [INIT] else [parent] + Ancestors(t, parent)
  }

  // ---- All runs ---------------------------------------------------------------------------

  datatype Op =
    | OpSpawn(ignored: set<Signal>)
    | OpFork(self: Pid, cloneParent: bool, exitSignal: Option<Signal>, ignored: set<Signal>)
    | OpSetIgnored(self: Pid, ignored: set<Signal>)
    | OpReap(self: Pid, child: Pid)
    | OpResume(pid: Pid, exits: bool)

  /** One operation; an operation of a process that is not running does nothing. */
  function Apply(t: Table, op: Op): Table
    requires Ok(t)
  {
    match op
    case OpSpawn(i) => Spawn(t, i)
    case OpFork(s, c, e, i) =>
      if s in t.processes && t.processes[s].Runnable? then Fork(t, s, c, e, i) else t
    case OpSetIgnored(s, i) =>
      if s in t.processes && t.processes[s].Runnable? then SetIgnored(t, s, i) else t
    case OpReap(s, c) =>
      if c in t.processes && t.processes[c].Zombie? && t.processes[c].parent == s then Reap(t, s, c) else t
    case OpResume(p, x) => Resumed(t, p, x)
  }

  lemma {:induction false} ApplyKeepsOk(t: Table, op: Op)
    requires Ok(t)
    ensures Ok(Apply(t, op))
  {
    match op
    case OpSpawn(i) => AddKeepsOk(t, Runnable(INIT, None, i));
    case OpFork(s, c, e, i) =>
      if s in t.processes && t.processes[s].Runnable? { ForkKeepsOk(t, s, c, e, i); }
    case OpSetIgnored(s, i) =>
      if s in t.processes && t.processes[s].Runnable? { SetIgnoredKeepsOk(t, s, i); }
    case OpReap(s, c) =>
      if c in t.processes && t.processes[c].Zombie? && t.processes[c].parent == s { ReapKeepsOk(t, s, c); }
    case OpResume(p, x) => ResumedKeepsOk(t, p, x);
  }

  ghost predicate Reaches(t: Table, ops: seq<Op>, r: Table)
    requires Ok(t)
    decreases |ops|
  {
    if ops == [] then r == t else (ApplyKeepsOk(t, ops[0]); Reaches(Apply(t, ops[0]), ops[1..], r))
  }

  /** After every sequence of spawns, forks, waits and resumes, each process's parent is init or a
      running process in the table, and no zombie belongs to init. */
  lemma {:induction false} TableInvariant(t: Table, ops: seq<Op>, r: Table)
    requires Ok(t) && Reaches(t, ops, r)
    ensures forall p | p in r.processes ::
              && (r.processes[p].parent == INIT
                  || (r.processes[p].parent in r.processes && r.processes[r.processes[p].parent].Runnable?))
              && (r.processes[p].Zombie? ==> r.processes[p].parent != INIT)
    decreases |ops|
  {
    if ops == [] {
      forall p | p in r.processes ensures ParentOk(r.processes, p) {
      }
    } else {
      ApplyKeepsOk(t, ops[0]);
      TableInvariant(Apply(t, ops[0]), ops[1..], r);
    }
  }

  /** Nobody else is touched by a death: other processes keep their state, and exactly the dead
      process's zombie children, and itself if unclaimed, disappear. */
  lemma {:induction false} DeathIsLocal(t: Table, pid: Pid, q: Pid)
    requires Ok(t) && pid in t.processes && q in t.processes && q != pid
    ensures var ps := Resumed(t, pid, true).processes;
            && (q !in ps <==> t.processes[q].parent == pid && t.processes[q].Zombie?)
            && (q in ps && t.processes[q].parent != pid ==> ps[q] == t.processes[q])
            && (q in ps && t.processes[q].parent == pid ==> ps[q] == t.processes[q].(parent := INIT))
  {
    assert ParentOk(t.processes, pid) && ParentOk(t.processes, q);
  }

  // ---- Who waits for whom -----------------------------------------------------------------------

  /** The parent of `p` is a process that has not chosen to ignore the signal of its exit. */
  predicate Awaited(ps: map<Pid, Process>, p: Pid)
    requires p in ps
  {
    var parent := ps[p].parent;
    && parent != INIT && parent in ps && ps[parent].Runnable?
    && (ps[p].exitSignal.Some? ==> ps[p].exitSignal.value !in ps[parent].ignored)
  }

  /** A process that dies stays in the table exactly when its parent awaits it, as a zombie with the
      same parent and signal. */
  lemma {:induction false} DeadStayIff(t: Table, pid: Pid)
    requires Ok(t) && pid in t.processes
    ensures var ps := Resumed(t, pid, true).processes;
            && (pid in ps <==> Awaited(t.processes, pid))
            && (pid in ps ==> ps[pid] == Zombie(t.processes[pid].parent, t.processes[pid].exitSignal))
  {
    ExitIsSafe(t, pid);
    assert ParentOk(t.processes, pid);
  }

  /** What ends a zombie's wait: its parent reaps it, its parent dies, or - a resume of the dead
      process being still scheduled - it is looked at again and no longer awaited. */
  predicate EndsWait(t: Table, op: Op, z: Pid)
    requires z in t.processes
  {
    var parent := t.processes[z].parent;
    || op == OpReap(parent, z)
    || (op.OpResume? && op.pid == parent && op.exits)
    || (op.OpResume? && op.pid == z && !Awaited(t.processes, z))
  }

  lemma {:induction false} WaitEndsIff(t: Table, op: Op, z: Pid)
    requires Ok(t) && z in t.processes && t.processes[z].Zombie?
    ensures var ps := Apply(t, op).processes;
            && (z !in ps <==> EndsWait(t, op, z))
            && (z in ps ==> ps[z] == t.processes[z])
  {
    assert ParentOk(t.processes, z);
    if op.OpResume? && op.pid in t.processes {
      if op.pid == z {
        DeadStayIff(t, z);
      } else {
        assert ParentOk(t.processes, op.pid);
        if op.exits || t.processes[op.pid].Zombie? {
          DeathIsLocal(t, op.pid, z);
        }
      }
    }
  }

  /** Nothing along the run ends the wait of `z`. */
  ghost predicate Undisturbed(t: Table, ops: seq<Op>, z: Pid)
    requires Ok(t)
    decreases |ops|
  {
    ops != [] && z in t.processes ==>
      !EndsWait(t, ops[0], z) && (ApplyKeepsOk(t, ops[0]); Undisturbed(Apply(t, ops[0]), ops[1..], z))
  }

  /** What becomes of a running process: it runs on until its own death, keeping its signals unless it
      sets them, and its parent until that dies, when it is init's. */
  lemma {:induction false} RunningGoesOn(t: Table, op: Op, p: Pid)
    requires Ok(t) && p in t.processes && t.processes[p].Runnable? && op != OpResume(p, true)
    ensures var was, ps := t.processes[p], Apply(t, op).processes;
            && p in ps && ps[p].Runnable? && ps[p].exitSignal == was.exitSignal
            && ps[p].ignored == (if op.OpSetIgnored? && op.self == p then op.ignored else was.ignored)
            && ps[p].parent == if op == OpResume(was.parent, true) && was.parent != INIT then INIT else was.parent
  {
    assert ParentOk(t.processes, p);
    if op.OpResume? && op.pid in t.processes {
      assert ParentOk(t.processes, op.pid);
      if op.pid != p && (op.exits || t.processes[op.pid].Zombie?) {
        DeathIsLocal(t, op.pid, p);
      }
    }
  }

  /** A zombie waits, unchanged, through every run that does not end its wait. */
  lemma {:induction false} ZombiesWait(t: Table, ops: seq<Op>, r: Table, z: Pid)
    requires Ok(t) && z in t.processes && t.processes[z].Zombie? && Reaches(t, ops, r) && Undisturbed(t, ops, z)
    ensures z in r.processes && r.processes[z] == t.processes[z]
    decreases |ops|
  {
    if ops != [] {
      WaitEndsIff(t, ops[0], z);
      ApplyKeepsOk(t, ops[0]);
      hide Ok, Apply, EndsWait;
      ZombiesWait(Apply(t, ops[0]), ops[1..], r, z);
    }
  }

  /** A forked child, once dead and awaited, is reaped by its forker - with CLONE_PARENT by the forker's
      own parent - and by nobody else. */
  lemma {:induction false} ForkerReaps(t: Table, self: Pid, cloneParent: bool, exitSignal: Option<Signal>, ignored: set<Signal>, s: Pid)
    requires Ok(t) && self in t.processes && t.processes[self].Runnable?
    ensures Ok(Fork(t, self, cloneParent, exitSignal, ignored)) && t.nextPid !in t.processes
    ensures var child := t.nextPid;
            var forked := Fork(t, self, cloneParent, exitSignal, ignored);
            var dead := Resumed(forked, child, true);
            var parent := if cloneParent then t.processes[self].parent else self;
            && Ok(dead) && child in forked.processes
            && (child in dead.processes <==>
                  parent != INIT && (exitSignal.Some? ==> exitSignal.value !in t.processes[parent].ignored))
            && (child in dead.processes ==>
                  (child !in Apply(dead, OpReap(s, child)).processes <==> s == parent))
  {
    var child := t.nextPid;
    var forked := Fork(t, self, cloneParent, exitSignal, ignored);
    ForkKeepsOk(t, self, cloneParent, exitSignal, ignored);
    ResumedKeepsOk(forked, child, true);
    DeadStayIff(forked, child);
    assert ParentOk(t.processes, self);
    assert ParentOk(forked.processes, child);
    var dead := Resumed(forked, child, true);
    hide Resumed, Ok;
    if child in dead.processes {
      WaitEndsIff(dead, OpReap(s, child), child);
    }
  }

  /** A new process has the signals it was given, which decide what becomes of its own children. */
  lemma {:induction false} NewcomerWaits(t: Table, op: Op, exitSignal: Option<Signal>, ignored: set<Signal>)
    requires Ok(t) && (op.OpSpawn? || (op.OpFork? && op.self in t.processes && t.processes[op.self].Runnable?))
    ensures var made, self := Apply(t, op), t.nextPid;
            && Ok(made) && self in made.processes && made.processes[self].Runnable?
            && Ok(Fork(made, self, false, exitSignal, ignored))
            && var child := made.nextPid;
               child in Resumed(Fork(made, self, false, exitSignal, ignored), child, true).processes <==>
                 (exitSignal.Some? ==> exitSignal.value !in op.ignored)
  {
    ApplyKeepsOk(t, op);
    var made, self := Apply(t, op), t.nextPid;
    assert made.processes[self].Runnable? && made.processes[self].ignored == op.ignored;
    hide Apply, Resumed, Fork;
    assert self != INIT;
    ForkerReaps(made, self, false, exitSignal, ignored, self);
  }

  // ---- The host's table -------------------------------------------------------------------

  class ProcessTable {
    var processes: map<Pid, Process>
    var nextPid: Pid

    ghost function View(): Table
      reads this
    {
      Table(processes, nextPid)
    }

    constructor ()
      ensures View() == EMPTY && Ok(View())
    {
      processes := map[];
      nextPid := FIRST_PID;
    }

    method AddProcess(p: Process) returns (pid: Pid)
      requires Ok(View()) && p.Runnable?
      requires p.parent == INIT || (p.parent in processes && processes[p.parent].Runnable?)
      modifies this
      ensures Ok(View()) && View() == Add(old(View()), p) && pid == old(nextPid) && pid !in old(processes)
    {
      AddKeepsOk(View(), p);
      assert forall q | q in processes :: q < nextPid;
      pid := nextPid;
      processes := processes[pid := p];
      nextPid := nextPid + 1;
    }

    method ForkProcess(self: Pid, cloneParent: bool, exitSignal: Option<Signal>, ignored: set<Signal>) returns (pid: Pid)
      requires Ok(View()) && self in processes && processes[self].Runnable?
      modifies this
      ensures Ok(View()) && View() == Fork(old(View()), self, cloneParent, exitSignal, ignored) && pid == old(nextPid)
      ensures pid in processes && processes[pid].parent == if cloneParent then old(processes)[self].parent else self
    {
      assert ParentOk(processes, self);
      var parent := if cloneParent then processes[self].parent else self;
      pid := AddProcess(Runnable(parent, exitSignal, ignored));
    }

    /** `handle_process_exit`: becomes a zombie after telling its parent. */
    method HandleProcessExit(pid: Pid) returns (notified: Option<Pid>)
      requires Ok(View()) && pid in processes && processes[pid].Runnable?
      modifies this`processes
      ensures processes == Exited(old(processes), pid)
      ensures notified == if processes[pid].exitSignal.Some? && processes[pid].parent != INIT then Some(processes[pid].parent) else None
      ensures notified.Some? ==> notified.value in processes && processes[notified.value].Runnable?
    {
      ExitIsSafe(View(), pid);
      var zombie := Zombie(processes[pid].parent, processes[pid].exitSignal);
      notified := Notified(processes, pid, zombie);
      processes := processes[pid := zombie];
    }

    /** `Host::resume` after the thread has run. */
    method Resume(pid: Pid, exits: bool)
      requires Ok(View())
      modifies this
      ensures View() == Resumed(old(View()), pid, exits) && Ok(View())
      ensures pid in old(processes) && exits ==> (pid in processes <==> Awaited(old(processes), pid))
    {
      ResumedKeepsOk(View(), pid, exits);
      if pid in processes && exits {
        DeadStayIff(View(), pid);
      }
      if pid !in processes {
        return;
      }
      ExitIsSafe(View(), pid);
      if processes[pid].Runnable? {
        if !exits {
          return;
        }
        var _ := HandleProcessExit(pid);
      }
      assert processes == Exited(old(processes), pid);
      assert pid != INIT;
      hide Ok, Buried;
      Bury(pid, Reaper(processes, processes[pid]).None?);
    }

    /** After a death, reparent the children and free the zombies nobody can reap. */
    method Bury(pid: Pid, orphan: bool)
      requires pid in processes && processes[pid].parent != pid && pid != INIT
      modifies this`processes
      ensures processes == Buried(old(processes), pid, orphan)
    {
      ghost var dead := processes;
      var orphaned := ReparentChildren(pid);
      if orphan {
        orphaned := orphaned + [pid];
      }
      ghost var gone := set q | q in orphaned;
      assert forall q :: q in gone <==> q in dead && ((dead[q].parent == pid && dead[q].Zombie?) || (q == pid && orphan));
      FreeOrphans(orphaned);
    }

    /** Give the children of `pid` to init and collect those that are dead. */
    method ReparentChildren(pid: Pid) returns (orphaned: seq<Pid>)
      requires pid in processes && processes[pid].parent != pid && pid != INIT
      modifies this`processes
      ensures processes.Keys == old(processes.Keys)
      ensures forall q | q in processes ::
                processes[q] == if old(processes)[q].parent == pid then old(processes)[q].(parent := INIT) else old(processes)[q]
      ensures forall q :: q in orphaned <==> q in old(processes) && old(processes)[q].parent == pid && old(processes)[q].Zombie?
      ensures forall i, j | 0 <= i < j < |orphaned| :: orphaned[i] != orphaned[j]
    {
      ghost var was := processes;
      var todo := processes.Keys;
      orphaned := [];
      while todo != {}
        invariant todo <= was.Keys == processes.Keys
        invariant forall q | q in todo :: processes[q] == was[q]
        invariant forall q | q in was && q !in todo ::
                    processes[q] == if was[q].parent == pid then was[q].(parent := INIT) else was[q]
        invariant forall q :: q in orphaned <==> q in was && q !in todo && was[q].parent == pid && was[q].Zombie?
        invariant forall i, j | 0 <= i < j < |orphaned| :: orphaned[i] != orphaned[j]
        decreases |todo|
      {
        var q :| q in todo;
        if processes[q].parent == pid {
          processes := processes[q := processes[q].(parent := INIT)];
          if processes[q].Zombie? {
            // its parent is init now, so it has no reaper
            assert Reaper(processes, processes[q]).None?;
            orphaned := orphaned + [q];
          }
        }
        todo := todo - {q};
      }
    }

    method FreeOrphans(orphaned: seq<Pid>)
      requires forall q | q in orphaned :: q in processes
      requires forall i, j | 0 <= i < j < |orphaned| :: orphaned[i] != orphaned[j]
      modifies this`processes
      ensures processes == old(processes) - (set q | q in orphaned)
    {
      var i := 0;
      while i < |orphaned|
        invariant 0 <= i <= |orphaned|
        invariant processes == old(processes) - (set q | q in orphaned[..i])
      {
        assert orphaned[..i + 1] == orphaned[..i] + [orphaned[i]];
        assert orphaned[i] !in orphaned[..i];
        // remove(&pid).unwrap()
        assert orphaned[i] in processes;
        processes := processes - {orphaned[i]};
        i := i + 1;
      }
      assert orphaned[..i] == orphaned;
    }
  }
}
