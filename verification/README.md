# Shadow: a verified model of the simulation core

Shadow runs real applications over a simulated network. Its hosts execute in parallel, round by
round, and everything it promises rests on that parallelism not being observable. This project models
the code that carries the promise, and some self-contained algorithms around it, in Dafny, and proves
what they keep over every run. `dafny verify dfyconfig.toml` checks everything; nothing here runs the
original program.

Every lemma switches Dafny's automatic induction off; an induction is always a visible recursive call.

## The simulation core

* `EventQueue` - events, their order, and the queue of a host with its two "time never goes back"
  assertions.
* `Cpu` - the simulated CPU: rounding of charged time, and when a delay is reported.
* `Round` - one scheduling round as a step relation. Hosts touch each other only through locked queues,
  so `Step(cfg, until, w, h)` is the next locked action of host `h`, and a schedule is any sequence of
  host ids. What applications, handlers, the routing table, name resolution and the random generators do
  are arbitrary deterministic functions in `Config`. While the shim has control it moves the shared clock
  on its own, up to the cap published before; other hosts' steps may fall in between.
* `Hosts` - the same actions as methods of a host object that updates its fields in place, and its
  `execute` loop.
* `RoundOrder` - any two interleavings that finish a round end in the same world, and if one
  finishes, every other can be completed.
* `Causality` - no host sees time go backwards, packets are delivered on time, `execute` cannot spin.
* `HostTrace` - what a host's steps make of its application, CPU, clock and queue, along every schedule.
* `Sends` - which packets arrive, where and when, with and without packet loss.
* `Workers` - the minimum next event time computed from racing reports is exact.
* `Runahead` - the race on the lowest used latency, and the controller's choice of windows.
* `Simulation` - whole runs: windows, termination, determinism, causality across rounds, lookahead.
* `Manager` - the scheduling loop, as a loop, which leaves a finished run behind.

## Around it

* `Timer` - the generation-numbered timer against an ideal one; `TimerInRound` - its tasks as local
  events of a host.
* `Processes` - fork, exit, reaping and reparenting.
* `PidWatcher` - the child watcher: API calls, command queue, eventfd and the epoll thread.
* `ByteQueue` - the mixed stream and packet buffer against a plain sequence of bytes and packets;
  `Peeking` - for which writers peek and pop agree.
* `Affinity` - the balance of the CPU choice.
* `Seccomp` - an interpreter for the filter program, and what the filter decides.
* `EventSource` - listener ids across wrap-around.
* `PacketBytes` - the wire form, against parsers written from RFC 791, RFC 9293, RFC 7323 and RFC 768.

## Where the code falls short of its description

Each is proved with a concrete input or an exact condition.

* `Cpu.DelayIff`, `Cpu.NoDelayForThirtyYears`: availability starts at zero and is never pulled up to the
  current time, so an idle CPU banks its idle time and no delay is reported until the charged time, each
  charge rounded, exceeds the absolute emulated time.
* `Cpu.RoundNearestIff`: rounding is to the nearest multiple except for an odd precision at remainder
  `precision / 2`. `Cpu.RoundingAloneDelays`: rounding up can make the whole difference.
* `Timer.ExpirePanicIff`, `Timer.LatePeriodicTimerPanics`: a periodic timer whose expiry event a busy CPU
  delays past the following expiry pushes an event into the past, which the queue asserts against. This
  needs a CPU threshold. The shipped configuration sets none (src/main/core/sim_config.rs:246), and by
  `Simulation.PunctualOverRuns` a host without one runs every event at its own time, so its timers are
  punctual (`TimerInRound.TimersRunOnTime`) and `Timer.TimerIsExact` holds of them.
* `PidWatcher.TurnPanicIff`, `PidWatcher.RemovedPidPanics`: the thread panics exactly when a pid it was
  told about is removed between `epoll_wait` and taking the lock, and a run leads there in which every
  caller keeps the rules.
* `Processes.WaitEndsIff`: a resume that is still scheduled for a process already dead looks at its zombie
  again, and frees it without a wait if the parent has come to ignore its exit signal.
* `ByteQueue.PopRefinesIff`, `ByteQueue.EmptyStreamChunkBlocks`: an empty stream chunk at the front
  answers every pop with zero bytes, forever.
* `ByteQueue.PeekAgreesWithPopIff`: into a buffer, peek and pop disagree exactly when an empty stream
  chunk lies inside the reach of the buffer. `Peeking.AgreesIffSteady`: for other writers they agree on
  all queues without empty stream chunks exactly if the writer, once it has refused, keeps refusing.
* `PacketBytes.HeaderAcceptedIff`, `PacketBytes.SegmentAcceptedIff`, `PacketBytes.VerifyingReceiverRejects`:
  the IPv4 and TCP checksum fields are written as zero, which a receiver that verifies them accepts only
  when the sum of the words happens to be a multiple of 0xFFFF.
* `Affinity.CoresBalancedIff`: core loads stay within one of each other exactly when all cores have
  equally many eligible CPUs.

## Model

| member | source | states |
|---|---|---|
| EventQueue.OrderIsTotal | src/main/core/work/event.rs:84-184 | any two queued events compare, one way only, so the heap's comparison never fails |
| EventQueue.LeastExists | src/main/core/work/event.rs:84-184 | on a queue without repeated keys the event order has a least element |
| EventQueue.LeastUnique | src/main/core/work/event.rs:84-184 | that element is unique: what is popped does not depend on the heap's shape |
| EventQueue.Queue.Pop | src/main/core/work/event_queue.rs:39-50 | takes an event before all others, keeps the queue valid, and never pops an earlier time than before |
| EventQueue.PopOrder | src/main/core/work/event.rs:84-184 | the popped event is earliest; at one time packets come first, by source host and event id, then local events by event id |
| EventQueue.PopIgnoresLater | src/main/core/work/event_queue.rs:31-50 | an event later than the next one changes neither what is popped nor what else is left |
| Cpu.RoundError | src/main/host/cpu.rs:49-78 | rounding lands on a multiple of the precision, off by at most half of it rounded up |
| Cpu.NormalizedTime | src/main/host/cpu.rs:49-56 | native time becomes the largest simulated time whose cycles are no more than the native ones |
| Cpu.RoundNearestIff | src/main/host/cpu.rs:59-75 | rounding is to the nearest multiple exactly unless the precision is odd and the remainder is its half rounded down |
| Cpu.AccumulatedRounding | src/main/host/cpu.rs:44-78 | over any history n charges leave availability off by at most n * ceil(precision / 2), and exact without a precision |
| Cpu.ChargedExactly | src/main/host/cpu.rs:44-78 | after any history availability is the sum of the rounded charges and the time is the last update |
| Cpu.DelayIff | src/main/host/cpu.rs:81-93 | for all parameters, a delay is reported exactly when the time charged since the start exceeds absolute time by more than the threshold, and then it is that excess |
| Cpu.NoDelayForThirtyYears | src/main/host/cpu.rs:23-93 | hence none is reported before as much CPU time is charged as lies between 1970 and 2000 |
| Cpu.RoundingAloneDelays | src/main/host/cpu.rs:59-75 | a history whose exact use is below the time passed, and which is delayed by rounding |
| Cpu.SimulatedCpu.constructor | src/main/host/cpu.rs:23-42 | a new CPU has the empty history |
| Cpu.SimulatedCpu.UpdateTo | src/main/host/cpu.rs:44-46 | adds the update to the history and keeps time and availability those of the history: what is charged is not touched |
| Cpu.SimulatedCpu.Charge | src/main/host/cpu.rs:49-78 | adds the charge to the history; the in-place rounding keeps availability the sum of the rounded charges |
| Cpu.SimulatedCpu.CurrentDelay | src/main/host/cpu.rs:81-93 | reports a delay exactly when more is charged over the whole history than time has passed, by more than the threshold |
| Round.RunaheadCap | src/main/core/worker.rs:271-277 | the cap is the latest time not after the round end nor after any queued event |
| Round.TakeEventOk | src/main/host/host.rs:749-793 | popping and starting or postponing an event keeps the host invariant and pops strictly inside the window |
| Round.PerformOk | src/main/core/worker.rs:324-397 | every action of Shadow's side keeps the host invariant and moves clock, high-water mark and id counter only forward |
| Round.SentShape | src/main/core/worker.rs:324-397 | a packet that is sent carries the sender's next event id and is due at max(now + delay, round end) at an existing host |
| Round.SentIsFresh | src/main/core/worker.rs:386-397 | its key is in no queue yet, so it may join any queue of the round |
| Round.Step | src/main/core/manager.rs:427-460 | every step of every host keeps the invariant of the whole world |
| Hosts.EmulatedHost.constructor | src/main/host/host.rs:100-191 | the object starts as the given host |
| Hosts.EmulatedHost.PushLocalEvent | src/main/host/host.rs:703-709 | an event before the end of the simulation is queued and lowers the host's next event time to its own; a later one changes nothing; the queue's order stays intact |
| Hosts.EmulatedHost.ExecuteTurn | src/main/host/host.rs:750-793 | the earliest event goes to its handler, at its own time and once, unless the CPU has been charged for more than the threshold beyond it, when nothing else changes; the in-place pass is the model's step and keeps its invariant |
| Hosts.EmulatedHost.ScheduleTaskWithDelay | src/main/host/host.rs:690-697 | the id is used up also when the task is past the end; the invariant is kept |
| Hosts.EmulatedHost.SendPacket | src/main/core/worker.rs:324-397 | a packet is sent exactly when it is before the end, addressed to a host, and not lost; only one with payload after bootstrapping can be lost; it goes to the host of its address after the latency of its own path, never early nor inside the round; the invariant is kept |
| Hosts.EmulatedHost.MaxEventRunaheadTime | src/main/core/worker.rs:271-277 | computes the cap |
| Hosts.EmulatedHost.AccountSyscall | src/main/host/syscall/handler/mod.rs:271-318 | the latency is added to clock or unapplied latency, no more of which is kept than allowed, or the caller is blocked for exactly all of it, past the cap; no queued event ends up behind the clock |
| Hosts.EmulatedHost.ContinuePlugin | src/main/host/managed_thread.rs:441-450 | publishes the time and a cap that is good for the queue as it is |
| Hosts.EmulatedHost.ReturnFromPlugin | src/main/host/managed_thread.rs:461-477 | the time read back from the shim is not past the round end nor any queued event |
| Hosts.EmulatedHost.ShimAccountSyscall | src/lib/shim/shim_sys.c:182-219 | clock and unapplied latency grow together by exactly the latency; no more is kept than allowed, or the shim yields; the clock move keeps the host invariant |
| Hosts.ShimSyscallOk | src/lib/shim/shim_sys.c:182-219 | the published cap alone justifies the shim's clock move |
| Hosts.EmulatedHost.Act | src/main/host/host.rs:781-792 | whoever has control, the in-place action is the model's and keeps the invariant |
| Hosts.OtherTurns | src/main/core/worker.rs:386-397 | while other hosts take turns, all that happens to a host is that it receives their packets, due at or after the round end; whether it is done does not change |
| Hosts.EmulatedHost.ReceivePackets | src/main/core/worker.rs:389-397 | the packets are in the queue, in any number |
| Hosts.EmulatedHost.Pass | src/main/host/host.rs:750-793 | one action in a world is this host's turn in the round model, a packet to itself included |
| Hosts.EmulatedHost.Execute | src/main/host/host.rs:749-793 | with any turns of other hosts between its passes, the loop ends with nothing due before the round end, is exactly so many turns of this host in the round model, and returns what it sent, all due at or after the round end, with the worker's next event time lowered to the earliest of it |
| RoundOrder.LocalStepFrame | src/main/core/worker.rs:380-397 | whatever a host does next it does the same with a packet of this round already in its queue |
| RoundOrder.StepsCommute | src/main/core/manager.rs:427-460 | steps of two hosts commute, packets to each other included |
| RoundOrder.EnabledMustRun | src/main/core/manager.rs:427-460 | a host that can step has a turn in every schedule that finishes the round |
| RoundOrder.OrderIndependence | src/main/core/manager.rs:427-460 | any two schedules that finish a round from the same world end in the same world |
| RoundOrder.AnyScheduleFinishes | src/main/core/manager.rs:427-460 | if one schedule finishes, every schedule has at most as many effective turns and can be completed to the same world with exactly as many |
| Causality.PopsNeverDecrease | src/main/host/host.rs:749-793 | along every schedule a host's pop times ascend and stay inside the window |
| Causality.NothingInThePast | src/main/host/managed_thread.rs:441-477 | along every schedule no queue holds an event before its host's clock, although the shim moves the clock by itself |
| Causality.PacketsOnTime | src/main/core/worker.rs:370-384 | current + delay <= delivery <= current + max(delay, runahead) for every packet of every schedule |
| Causality.PacketsExact | src/main/core/worker.rs:370-384 | with a runahead no longer than the smallest latency, delivery is exactly current + delay |
| Causality.TakeEventCases | src/main/host/host.rs:760-783 | an event is handed to the application only if the built-up delay does not exceed the threshold; a postponed one moves to exactly when the CPU is available and the application is not told |
| Causality.PostponementBound | src/main/host/host.rs:749-780 | between two handler runs, in every schedule, a host postpones only events the CPU blocks and none of them twice |
| Causality.PunctualWithoutThreshold | src/main/host/host.rs:760-783 | at every point of every schedule, a host whose CPU has no threshold hands the event it pops to the application at that event's time |
| HostTrace.AppHistory | src/main/host/host.rs:749-793 | at every point of every schedule the application is what its trace makes of it: each event popped and not postponed went to its handler exactly once, in pop order, and between them come the actions of handler and shim |
| HostTrace.TraceIsPops | src/main/host/host.rs:750-758 | the events of the trace are those popped, in order |
| HostTrace.CpuHistory | src/main/host/host.rs:760-765 | at every point of every schedule the CPU is that of its history: told of every event popped and charged for every use |
| HostTrace.TimeStep | src/main/host/syscall/handler/mod.rs:271-318 | of every step: what it costs goes to the clock or is kept; a blocked call keeps nothing and is blocked until clock, kept latency and its own have passed; resuming a thread discards what is kept |
| HostTrace.LittleIsKept | src/lib/shim/shim_sys.c:182-219 | after every system call no more latency is kept than allowed, or the shim has yielded, which it does exactly when the time it would move to is past its cap |
| HostTrace.LatencyConserved | src/lib/shim/shim_sys.c:182-219 | along every schedule, while a host handles an event unblocked, clock and kept latency grow together by exactly the latencies of its system calls, in handler or shim |
| HostTrace.ControlStep | src/main/host/managed_thread.rs:441-477 | who has control after every step, and the cap published when the shim gets it |
| HostTrace.IdStep | src/main/host/host.rs:690-697 | an event id is used up by every task scheduled and every packet sent, and by nothing else |
| HostTrace.QueueHistory | src/main/host/host.rs:703-709 | along every schedule a queue is the first one, less the events popped, plus tasks scheduled, events put off and packets sent to it: nothing is lost, made up, moved in time or doubled |
| Sends.SentExactly | src/main/core/worker.rs:324-397 | along every schedule the packets sent are exactly those of the applications' packets that go, each once, in order, to the host of its address, after the latency of its own path |
| Sends.QueuesHoldWhatWasSent | src/main/core/worker.rs:386-397 | after every schedule they are in the queues of their hosts, and no other new packet is in any queue |
| Sends.GoingArrives | src/main/core/worker.rs:370-397 | each of them arrives as exactly one event, at max(now + latency, round end) |
| Sends.NothingIsLost | src/main/core/worker.rs:356-368 | without loss every packet sent before the end to a host's address arrives; with loss so does every one sent while bootstrapping or without payload |
| Sends.OnlyEmptyPacketsArrive | src/main/core/worker.rs:362-368 | if every draw is a loss, from the end of bootstrapping on exactly the packets without payload arrive |
| Runahead.NextWindowSpec | src/main/core/controller.rs:88-112 | there is a next window exactly when an event before the end is left; it starts there, is not empty, and is the longest that fits runahead and end |
| Runahead.LatencyMinimum | src/main/core/runahead.rs:61-106 | however caches, read checks and write checks interleave, the shared value ends as the minimum of all latencies used |
| Runahead.StaticNeverUpdates | src/main/core/runahead.rs:64-67 | with static runahead the shared value is never set |
| Runahead.RunaheadNonIncreasing | src/main/core/runahead.rs:44-106 | once set, the runahead only shrinks, at every point of every interleaving |
| Runahead.RunaheadBounds | src/main/core/runahead.rs:44-57 | at every point it is at least the smallest possible latency, so positive, and at least the configured bound, and it is one of these or a latency used |
| Runahead.RunaheadIsLowestUsed | src/main/core/runahead.rs:44-57 | once a latency has been used and no update is in flight, the runahead is the larger of the lowest used latency and the configured bound |
| Runahead.RaceRefinesAtomicMinimum | src/main/core/worker.rs:291-302 | the race leaves what taking the minimum packet by packet leaves |
| Workers.Take | src/main/core/manager.rs:436-459 | every step, report and close keeps the pool well-formed |
| Workers.SlotsAreEarliest | src/main/core/manager.rs:482-487 | when all workers are done the minimum over the slots is the earliest event anywhere |
| Workers.PlayIsRun | src/main/core/manager.rs:427-460 | reports do not disturb the hosts: the world is that of the hosts' turns alone |
| Workers.ExactMinimum | src/main/core/manager.rs:427-487 | for every interleaving and every assignment of hosts to workers and slots the computed minimum is exact, late packets included |
| Simulation.InitialIsReady | src/main/core/manager.rs:392-397 | the first, fixed window can be played from the initial world |
| Simulation.RoundAdvances | src/main/core/controller.rs:95-112 | a finished round leaves nothing due before its end, and the next window is later, playable, and ends exactly at the earlier of its start plus the runahead and the end; there is none exactly when nothing is due before the end |
| Simulation.WindowsIncrease | src/main/core/manager.rs:393-501 | windows are not empty, disjoint and increasing, and all but the first stop by the end |
| Simulation.WindowsExact | src/main/core/controller.rs:95-112 | in every run each window after the first starts at the earliest event left and ends exactly at the earlier of that plus the runahead and the end |
| Simulation.RoundsBounded | src/main/core/manager.rs:414-501 | the number of rounds is bounded by the length of the simulation |
| Simulation.NothingLeftBehind | src/main/core/manager.rs:414-501 | when the loop leaves, no queue holds an event before the end |
| Simulation.RunsAgree | src/main/core/manager.rs:414-501 | two runs agree round by round on windows and worlds |
| Simulation.SimulationDeterministic | src/main/core/manager.rs:414-501 | any two finished runs from the same world have the same rounds, windows and final world, whatever their interleavings |
| Simulation.CausalOverRuns | src/main/host/host.rs:749-793 | over a whole simulation, across rounds, a host's pop times never decrease |
| Simulation.StaticRunaheadIsExact | src/main/core/runahead.rs:44-57 | with static runahead and no larger override every packet of every round takes exactly its latency |
| Simulation.LookaheadBound | src/main/core/worker.rs:370-384 | in every run a packet is late by at most its window's length, which is at most the runahead |
| Simulation.MinUsedIsMinimum | src/main/core/worker.rs:291-302 | after a round the lowest used latency is the minimum over the packets sent |
| Simulation.MinUsedOverRun | src/main/core/worker.rs:291-302 | after any number of rounds it is the minimum over all packets of all of them |
| Simulation.PunctualOverRuns | src/main/core/sim_config.rs:246-247 | in every round of every run a host without a CPU threshold, as the shipped configuration has it, hands every event to the application at its own time |
| Manager.Manager.constructor | src/main/core/manager.rs:392-402 | starts with the one-nanosecond window and empty slots |
| Manager.Manager.TakeMinimum | src/main/core/manager.rs:482-487 | returns the minimum over the slots and empties each |
| Manager.Manager.PlayRound | src/main/core/manager.rs:427-460 | leaves the world and slots of the interleaving it plays |
| Manager.Manager.Round | src/main/core/manager.rs:414-501 | one iteration is a complete round and computes the window that follows it |
| Manager.Manager.Run | src/main/core/manager.rs:414-501 | the loop ends, with a finished run behind it and no event due before the end, if the rounds it comes to finish |
| Timer.EdgeIsAhead | src/main/host/timer.rs:163-176 | an early wakeup lies more than one and at most two seconds ahead, on a one-second edge |
| Timer.EarlyWakeups | src/main/host/timer.rs:158-181 | early wakeups end: there is less than one a second until the expiry |
| Timer.ArmOk | src/main/host/timer.rs:191-208 | arming never panics and leaves exactly one valid task |
| Timer.ExpirePanicIff | src/main/host/timer.rs:106-156 | running a task panics exactly when the next periodic expiry lies before the event being run; the `unwrap` never fails |
| Timer.LatePeriodicTimerPanics | src/main/host/timer.rs:139-143 | a CPU history with a threshold that delays an expiry into the panic |
| Timer.RunRefines | src/main/host/timer.rs:106-181 | each task is a stutter of the ideal timer or its expiry at that very instant |
| Timer.NeverOverdue | src/main/host/timer.rs:158-181 | time cannot pass an armed timer's expiry |
| Timer.DoKeeps | src/main/host/timer.rs:100-208 | every operation of a punctual run succeeds; an armed timer has one valid task, a disarmed one none |
| Timer.TimerIsExact | src/main/host/timer.rs:100-208 | over all such runs, for every arming the callback ran exactly at those expire + k * interval that fell due before it was cancelled, or until now: none missing, none later |
| Timer.NeverAfterCancel | src/main/host/timer.rs:34-43 | after `disarm` or another `arm`, no earlier arming expires again in any continuation |
| Timer.TimerRefinesIdeal | src/main/host/timer.rs:100-208 | every such run is, operation by operation, the run of an ideal timer that ticks on the due task of its last arming and stutters on all others |
| Timer.TimerTicksOrStutters | src/main/host/timer.rs:100-208 | every such run is a run of an ideal timer that is told nothing of tasks but the times at which some run, and can let no expiry go by |
| Timer.TasksAreNear | src/main/host/timer.rs:163-181 | over all such runs no task waits more than two seconds, and a timer is woken only for its expiry or on a one-second edge |
| TimerInRound.OthersKeepTimers | src/main/core/worker.rs:389-397 | turns of other hosts leave a host's timers alone |
| TimerInRound.PopIsTimerOp | src/main/host/host.rs:750-758 | an event popped by a host is, for each of its timers, an allowed task run or passing of time, and leaves the other tasks queued |
| TimerInRound.ScheduleIsTimerTask | src/main/host/timer.rs:163-180 | what is queued on the host is the task the timer gains; both drop it from the end of the simulation on |
| TimerInRound.TimersRunOnTime | src/main/core/sim_config.rs:246-247 | on a host without a CPU threshold, at every point of every schedule, a timer's task starts at its own time |
| Timer.EmulatedTimer.constructor | src/main/host/timer.rs:51-66 | a new timer is disarmed |
| Timer.EmulatedTimer.ResetTo | src/main/host/timer.rs:34-43 | no task scheduled so far is valid any more |
| Timer.EmulatedTimer.ScheduleNewExpireEvent | src/main/host/timer.rs:158-181 | queues one task at the expiry or the next edge, or fails where the queue asserts |
| Timer.EmulatedTimer.ArmTimer | src/main/host/timer.rs:191-208 | the in-place arming succeeds and keeps the timer in order |
| Timer.EmulatedTimer.DisarmTimer | src/main/host/timer.rs:100-104 | leaves no valid task |
| Timer.EmulatedTimer.ConsumeExpirationCount | src/main/host/timer.rs:82-88 | returns the expirations since the last call and starts again from none |
| Timer.EmulatedTimer.TimerExpire | src/main/host/timer.rs:106-156 | fails exactly where the model panics and keeps the timer in order otherwise |
| Processes.ForkKeepsOk | src/main/host/process.rs:603-607 | a forked process has a running parent or init |
| Processes.ReapKeepsOk | src/main/host/syscall/handler/wait.rs:176-192 | reaping a zombie leaves nobody without a parent |
| Processes.ExitIsSafe | src/main/host/process.rs:741-777 | a dying process's parent is init or is there, running and untouched: the "Non-running parent" panic is unreachable |
| Processes.ResumedKeepsOk | src/main/host/host.rs:446-517 | a resume, with or without a death, keeps the table in order |
| Processes.Ancestors | src/main/host/process.rs:603-607 | following parents always ends at init, through running processes only |
| Processes.TableInvariant | src/main/host/host.rs:446-517 | after every sequence of operations each parent is init or a running process, and no zombie belongs to init |
| Processes.DeathIsLocal | src/main/host/host.rs:478-516 | a death removes exactly the dead process's zombie children, reparents its other children, and touches nobody else |
| Processes.DeadStayIff | src/main/host/process.rs:704-739 | a process that dies stays exactly when its parent is a running process that does not ignore its exit signal, as a zombie with the same parent and signal |
| Processes.WaitEndsIff | src/main/host/host.rs:446-517 | a zombie goes exactly when its parent reaps it, its parent dies, or it is resumed again while no longer awaited |
| Processes.ZombiesWait | src/main/host/host.rs:446-517 | it stays unchanged through every run without one of these |
| Processes.RunningGoesOn | src/main/host/host.rs:446-517 | a running process runs on until its own death, with its signals unless it sets them, and with its parent until that dies |
| Processes.ForkerReaps | src/main/host/process.rs:603-607 | a forked child is reaped by the caller, with `CLONE_PARENT` by the caller's parent, and by nobody else |
| Processes.NewcomerWaits | src/main/host/process.rs:704-739 | the signals a new process ignores decide which of its dead children stay for it |
| Processes.ProcessTable.constructor | src/main/host/host.rs:446-517 | the empty table is in order |
| Processes.ProcessTable.AddProcess | src/main/host/process.rs:944-990 | a new process gets a fresh pid and the table stays in order |
| Processes.ProcessTable.ForkProcess | src/main/host/process.rs:581-670 | the child's parent is the caller, or with `CLONE_PARENT` the caller's parent |
| Processes.ProcessTable.HandleProcessExit | src/main/host/process.rs:1471-1566 | the process becomes a zombie, and its parent is told exactly if it is not init and there is an exit signal |
| Processes.ProcessTable.Resume | src/main/host/host.rs:446-517 | the in-place resume is the model's and keeps the table in order; a process that exits stays exactly if its parent awaits it |
| Processes.ProcessTable.Bury | src/main/host/host.rs:478-516 | reparents and frees; `remove(&pid).unwrap()` never fails |
| Processes.ProcessTable.ReparentChildren | src/main/host/host.rs:478-503 | exactly the children go to init, exactly the dead ones are collected, each once |
| Processes.ProcessTable.FreeOrphans | src/main/host/host.rs:511-516 | removes exactly the collected processes |
| PidWatcher.EventsPanicIff | src/main/utility/childpid_watcher.rs:162-172 | a batch can be handled exactly when none of its pids is gone |
| PidWatcher.CommandsKeep | src/main/utility/childpid_watcher.rs:183-208 | the command queue never meets a pid that is gone, and loses no callback |
| PidWatcher.TurnPanicIff | src/main/utility/childpid_watcher.rs:141-210 | a turn panics exactly when a reported pid was removed before the lock was taken; otherwise it keeps the watcher in order |
| PidWatcher.NoLostOrRepeatedCallback | src/main/utility/childpid_watcher.rs:141-333 | over all runs every callback ever registered is registered, has run or was unregistered by its caller; while registered, once its process has exited the thread's wait stays ready; none runs twice or before the exit |
| PidWatcher.NeverAfterUnregister | src/main/utility/childpid_watcher.rs:322-333 | once `unregister_callback` returned, the callback has run or never will, in every continuation |
| PidWatcher.OnlyThatHandle | src/main/utility/childpid_watcher.rs:327-333 | `unregister_callback` takes out the given handle of the given pid and leaves every other live handle live |
| PidWatcher.StaysRegistered | src/main/utility/childpid_watcher.rs:141-333 | over every run a callback stays registered until it has run, unless it is unregistered itself |
| PidWatcher.NothingIsLeftOver | src/main/utility/childpid_watcher.rs:90-99 | over every run a pid that has been unregistered is kept only for the sake of its callbacks |
| PidWatcher.TurnUnregistersExactly | src/main/utility/childpid_watcher.rs:193-198 | a turn takes out of use exactly the pids it was told to unregister |
| PidWatcher.RemovedPidPanics | src/main/utility/childpid_watcher.rs:327-333 | a run from the start, all callers keeping the rules, into the race that makes the thread panic |
| PidWatcher.LateRegistrationPanics | src/main/utility/childpid_watcher.rs:284-320 | why the rule against registering after `unregister_pid` is needed: from a reachable state in which the command is pending, breaking it can make the thread meet a pid that is gone |
| PidWatcher.TurnDelivers | src/main/utility/childpid_watcher.rs:162-192 | a turn that learns of an exit has run every callback registered for it by then |
| PidWatcher.Watcher.constructor | src/main/utility/childpid_watcher.rs:105-138 | a new watcher is in order |
| PidWatcher.Watcher.Send | src/main/utility/childpid_watcher.rs:57-60 | queues a command and makes the eventfd readable |
| PidWatcher.Watcher.RunCallbacksForPid | src/main/utility/childpid_watcher.rs:84-88 | runs and forgets each callback of the pid once |
| PidWatcher.Watcher.MaybeRemovePid | src/main/utility/childpid_watcher.rs:90-99 | removes the pid exactly when it is unregistered and has no callbacks |
| PidWatcher.Watcher.AddCallback | src/main/utility/childpid_watcher.rs:304-320 | the new callback is registered under a fresh handle, an already dead pid gets a pending run, and a caller who keeps the rule keeps the watcher in order |
| PidWatcher.Watcher.DropCallback | src/main/utility/childpid_watcher.rs:327-333 | no effect for an unknown pid; otherwise the callback is gone, and the pid with it if unneeded |
| PidWatcher.Watcher.ProcessEvents | src/main/utility/childpid_watcher.rs:162-172 | fails exactly where the source panics |
| PidWatcher.Watcher.ProcessCommand | src/main/utility/childpid_watcher.rs:184-207 | each command, as in the model |
| PidWatcher.Watcher.ProcessCommands | src/main/utility/childpid_watcher.rs:184-208 | the commands in order, up to `Finish`; fails exactly where the source panics |
| PidWatcher.Watcher.ThreadTurn | src/main/utility/childpid_watcher.rs:155-210 | succeeds exactly when all reported pids are there, and keeps the watcher in order |
| ByteQueue.PopStreamMoves | src/main/utility/byte_queue.rs:188-234 | for any writer, failing or blocking ones included: exactly the bytes written leave the queue, a prefix of the stream bytes in front, and the byte count follows |
| ByteQueue.PopStreamExact | src/main/utility/byte_queue.rs:188-234 | a fixed-size buffer takes as much as fits of what lies before the first packet or empty chunk |
| ByteQueue.WriteAllPrefix | src/main/utility/byte_queue.rs:236-276 | whatever the writer answers it gets a prefix of the packet: only a tail is dropped |
| ByteQueue.WriteAllFills | src/main/utility/byte_queue.rs:236-276 | a fixed-size buffer gets as much of the packet as fits |
| ByteQueue.WriteAllEnds | src/main/utility/byte_queue.rs:249-275 | for any writer: the packet goes on through interruptions and partial writes, fails on an error, panics on a refusal, and otherwise stops only at its end or at a write of nothing |
| ByteQueue.PopStreamEnds | src/main/utility/byte_queue.rs:203-231 | for any writer: the same, but a refusal ends the loop, and is blocking only if nothing has been copied |
| ByteQueue.PeekChunkEnds | src/main/utility/byte_queue.rs:339-363 | for any writer: peeking at a chunk ends as popping does |
| ByteQueue.PopRefinesIff | src/main/utility/byte_queue.rs:171-276 | a pop into a buffer is the pop of the plain sequence exactly when no empty stream chunk hinders it; the byte count is right either way |
| ByteQueue.SolidUnhindered | src/main/utility/byte_queue.rs:171-276 | a queue without empty stream chunks never hinders a pop |
| ByteQueue.PopIgnoresCuts | src/main/utility/byte_queue.rs:188-234 | how stream bytes are cut into chunks cannot be seen through a pop into a buffer |
| ByteQueue.MergingUnobservable | src/main/utility/byte_queue.rs:100-124 | over every run of pushes and pops into buffers, which reads merged can be told neither from any pop nor from what is left |
| ByteQueue.CutsVisibleToOthers | src/main/utility/byte_queue.rs:203-217 | a writer that blocks on its second call does see the cuts |
| ByteQueue.EmptyStreamChunkBlocks | src/main/utility/byte_queue.rs:203-223 | an empty stream chunk in front stays there and answers every pop, into any writer, with zero bytes |
| ByteQueue.PeekAgreesWithPopIff | src/main/utility/byte_queue.rs:308-405 | peek into a buffer writes the bytes and returns the tuple of a pop exactly when no empty stream chunk lies inside the buffer's reach |
| Peeking.AgreesIffSteady | src/main/utility/byte_queue.rs:325-367 | for any writer: peek and pop agree on every queue without empty stream chunks exactly if it keeps refusing once it has refused |
| Peeking.PeekSkipsWhenBlocked | src/main/utility/byte_queue.rs:333-364 | one that does not, and gets bytes with a gap |
| ByteQueue.AppendAdds | src/main/utility/byte_queue.rs:100-124 | merged or not, a piece of stream data adds its bytes at the end and makes no empty chunk |
| ByteQueue.TakeKeepsOrder | src/main/utility/byte_queue.rs:281-301 | `pop_chunk` takes as many of the front chunk's bytes as the hint allows, and leaves the rest |
| ByteQueue.FirstInFirstOut | src/main/utility/byte_queue.rs:74-301 | over every run, with any writers and any merges: what went in is what left the queue followed by what is in it, in order, packets whole |
| ByteQueue.GainedIsPrefix | src/main/utility/byte_queue.rs:171-276 | what leaves in a stream pop is exactly what the writer got; of a packet it got a prefix |
| ByteQueue.TakenWhole | src/main/utility/byte_queue.rs:74-128 | a reader that always gives something is read to its end |
| ByteQueue.ByteQueue.constructor | src/main/utility/byte_queue.rs:36-45 | a new queue is empty |
| ByteQueue.ByteQueue.PushChunk | src/main/utility/byte_queue.rs:157-163 | appends the chunk's bytes or packet; `length` stays the sum of chunk lengths |
| ByteQueue.ByteQueue.PushPiece | src/main/utility/byte_queue.rs:100-124 | appends the bytes, merged or not |
| ByteQueue.ByteQueue.ReadOnce | src/main/utility/byte_queue.rs:78-94 | which buffer a read gets, and what is kept of it; an error loses it |
| ByteQueue.ByteQueue.PushStream | src/main/utility/byte_queue.rs:74-128 | what was read is queued in order and nothing else, also when the reader fails half-way |
| ByteQueue.ByteQueue.PushPacket | src/main/utility/byte_queue.rs:132-154 | the whole packet is queued, or on a read error nothing |
| ByteQueue.ByteQueue.PopStreamData | src/main/utility/byte_queue.rs:188-234 | the in-place loop is the function the lemmas are about, and keeps `length` right on every path |
| ByteQueue.ByteQueue.WritePacket | src/main/utility/byte_queue.rs:249-275 | the write loop of one packet |
| ByteQueue.ByteQueue.PopNext | src/main/utility/byte_queue.rs:171-186 | the in-place pop, with `length` right on every path |
| ByteQueue.ByteQueue.PopChunk | src/main/utility/byte_queue.rs:281-301 | a packet whole, stream data up to the hint; `length` follows |
| ByteQueue.ByteQueue.PeekStreamData | src/main/utility/byte_queue.rs:325-367 | the nested loops, leaving the queue unchanged |
| ByteQueue.ByteQueue.PeekChunkData | src/main/utility/byte_queue.rs:339-363 | the inner loop |
| ByteQueue.ByteQueue.PeekNext | src/main/utility/byte_queue.rs:308-323 | peek by the type of the front chunk |
| Affinity.CompareIsTotalOrder | src/main/core/affinity.c:83-137 | the comparison is antisymmetric, transitive, and zero only for the same CPU |
| Affinity.BestIsLocal | src/main/core/affinity.c:92-137 | a best CPU is least loaded, then on the least loaded core, then on the most loaded socket and node, then of the lowest number |
| Affinity.BestCoreIsLeast | src/main/core/affinity.c:92-137 | the core of a best CPU carries no more than any other core, if cores are alike |
| Affinity.Balanced | src/main/core/affinity.c:151-214 | after any number of assignments CPU loads differ by at most one, and core, socket and node loads are the sums over their CPUs |
| Affinity.CoresBalanced | src/main/core/affinity.c:92-214 | with equally many eligible CPUs per core, core loads differ by at most one |
| Affinity.CoresBalancedIff | src/main/core/affinity.c:92-214 | and only then |
| Affinity.Allocator.constructor | src/main/core/affinity.c:39-51 | starts with empty tables |
| Affinity.Allocator.GetBestCpu | src/main/core/affinity.c:151-178 | the linear scan returns an eligible CPU no eligible CPU beats, or fails exactly when there is none |
| Affinity.Allocator.UpdateLoads | src/main/core/affinity.c:189-195 | adds one worker to the CPU, its core, socket and node |
| Affinity.Allocator.GetGoodWorkerAffinity | src/main/core/affinity.c:197-214 | assigns a best CPU and keeps all loads even and summed; the uninitialised value when disabled |
| Seccomp.AlwaysDecides | src/lib/shim/shim_seccomp.c:163-271 | a well-formed filter program always reaches a verdict |
| Seccomp.FilterWellFormed | src/lib/shim/shim_seccomp.c:163-271 | the shim's program is well-formed |
| Seccomp.HalvesCompare | src/lib/shim/shim_seccomp.c:228-264 | comparing 32-bit halves compares the 64-bit addresses |
| Seccomp.FilterIsExact | src/lib/shim/shim_seccomp.c:163-271 | for every call, address and text range the filter allows exactly `rt_sigreturn` and calls from the text section |
| Seccomp.HandlerNeverPanics | src/lib/shim/shim_seccomp.c:51-58 | no trapped call reaches the handler's panic |
| EventSource.UnusedIdSoon | src/main/utility/callback_queue.rs:185-196 | one of the next ids, no more of them than one plus the number of listeners, is unused, across the wrap-around |
| EventSource.SearchEndsIff | src/main/utility/callback_queue.rs:185-196 | the search ends exactly when fewer than 2^32 listeners are registered |
| EventSource.StepIsMeant | src/main/utility/callback_queue.rs:198-213 | adding or dropping registers or removes exactly the callback that was meant and keeps ids distinct |
| EventSource.RunIsMeant | src/main/utility/callback_queue.rs:126-132 | over every run each live handle matches exactly its own listener, and `unwrap` never fails |
| EventSource.IdsNotReused | src/main/utility/callback_queue.rs:185-196 | over every run that does not try all ids, no id is handed out twice, even after its handle is dropped |
| EventSource.Source.constructor | src/main/utility/callback_queue.rs:178-183 | no listeners, first id zero |
| EventSource.Source.GetUnusedId | src/main/utility/callback_queue.rs:185-196 | the first unused id, within one iteration more than there are listeners |
| EventSource.Source.IsUsed | src/main/utility/callback_queue.rs:192-194 | finds an id exactly if a listener has it |
| EventSource.Source.AddListener | src/main/utility/callback_queue.rs:198-208 | the new handle differs from all live ones |
| EventSource.Source.DropHandle | src/main/utility/callback_queue.rs:210-213 | removes the handle's own listener and keeps the order of the others |
| PacketBytes.EncodedLength | src/main/network/packet.rs:388-396 | as many bytes are written as `len()` says, and the header length assertion holds |
| PacketBytes.ClearedFlags | src/main/network/packet.rs:884-888 | clearing ECE and CWR keeps exactly the six other flags |
| PacketBytes.OptionsRoundTrip | src/main/network/packet.rs:846-866 | an option parser recovers the window scale, or its absence |
| PacketBytes.IpRoundTrip | src/main/network/packet.rs:799-837 | an IPv4 parser recovers addresses, protocol and body |
| PacketBytes.TcpRoundTrip | src/main/network/packet.rs:846-920 | a TCP parser recovers ports, numbers, masked flags, window, window scale and payload |
| PacketBytes.UdpRoundTrip | src/main/network/packet.rs:922-941 | a UDP parser recovers ports and payload |
| PacketBytes.PacketRoundTrip | src/main/network/packet.rs:799-941 | all of it for every packet of at most 65535 bytes, checksums aside |
| PacketBytes.AllOnesIff | src/main/network/packet.rs:810-827 | a one's complement sum is all ones exactly if the plain sum is a positive multiple of 0xFFFF |
| PacketBytes.HeaderAcceptedIff | src/main/network/packet.rs:810-827 | a receiver that verifies the IPv4 header checksum, written as zero, accepts exactly when the header's words sum to a multiple of 0xFFFF |
| PacketBytes.SegmentAcceptedIff | src/main/network/packet.rs:904-906 | the same of the TCP checksum, with the pseudo header |
| PacketBytes.DatagramAccepted | src/main/network/packet.rs:932-934 | a zero UDP checksum is always accepted |
| PacketBytes.VerifyingReceiverRejects | src/main/network/packet.rs:810-827 | a packet that is rejected, and one that is accepted |
| PacketBytes.WriteTcp | src/main/network/packet.rs:846-920 | the writer, with its padded option buffer, writes that encoding |
| PacketBytes.WriteChunks | src/main/network/packet.rs:913-917 | writes the payload chunks in order |
| PacketBytes.Display | src/main/network/packet.rs:799-843 | writes that encoding; longer packets are refused, where the source panics |

## Left out

- Integer widths: times, counters and loads are unbounded, except for the checked addition in the choice of windows, 32-bit listener ids, packet fields and the filter's words; so the overflow panics of `add_delay` and of time arithmetic are not modelled.
- Concurrency: hosts, workers and API calls interleave at whole locked actions; weak memory orderings are not modelled. `Round` works on values for this reason; `Hosts` ties the in-place code to it, its `execute` loop with other hosts' turns between its passes.
- Handlers and applications: functions of the host's own state and clock that schedule with non-negative delays; the native CPU time charged is such a function too, so it does not vary between runs.
- The routing table: no path is faster than the smallest edge latency, which is positive.
- That each round finishes: an application that, in a round the run comes to, never lets go of its host is excluded in `Manager.Manager.Run`, and bounded in `Hosts.EmulatedHost.Execute`.
- Simulation.RoundsBounded: bounds the rounds, not the events within one.
- Timer.TimerIsExact: for punctual runs, in which expiry events run at their own time and before the end; with a CPU delay `Timer.ExpirePanicIff` holds instead.
- TimerInRound: that a handler arms and disarms its timers through the modelled calls is not derived from the application, which is an arbitrary function.
- Timer drop, `remaining_time` and the C interface.
- Processes: threads, exec, signals other than the exit signal, shutdown by `free_all_applications`, pid reuse.
- PidWatcher: pid reuse, signals that interrupt `epoll_wait`, and the limit of ten events per wait; callers keep the documented rule that no callback is registered after `unregister_pid`.
- ByteQueue: an empty write is taken to return zero and leave the writer as it is; how memory decides whether `try_unsplit` succeeds (any answer is allowed), and `read_exact`'s own loop.
- Affinity: parsing `lscpu` output and setting the affinity of a thread.
- Seccomp: installing the filter and finding the text section.
- EventSource: the callback queue that runs notifications.
- PacketBytes.PacketRoundTrip: recovers the fields without verifying checksums, which the code leaves zero; `PacketBytes.HeaderAcceptedIff` and `PacketBytes.SegmentAcceptedIff` say what verifying changes.
- PacketBytes: errors of the writer, legacy C TCP packets, selective acknowledgements and timestamps, which the source does not write either.
- The network graph, router, sockets, descriptors, memory manager, DNS, configuration, logging and statistics: outside the core modelled here.
