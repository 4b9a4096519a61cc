/** Which packets arrive where (src/main/core/worker.rs:324-397): along every schedule of a round, the
    packets that reach the queues are those that the hosts' applications send and that are neither
    past the end, nor unaddressed, nor dropped. */
module Sends {
  import opened EventQueue
  import opened Round
  import opened RoundOrder
  import opened Causality
  import opened HostTrace
  import opened Options
  import opened Numbers

  /** A packet that the application of `src` sends, with the sender's next event id and what the
      path's packet loss makes of it. */
  datatype Attempt = Attempt(src: HostId, time: Time, dst: Ip, packet: Packet, id: nat, unlucky: bool)

  function AttemptOf(cfg: Config, until: Time, w: World, g: HostId): Option<Attempt>
    requires Inv(cfg, until, w)
  {
    if Enabled(until, w, g) && w.hosts[g].mode == Running then
      var x := w.hosts[g];
      var (app, action) := cfg.act(g, x.app, x.clock);
      if action.Send? then
        Some(Attempt(g, x.clock, action.dst, action.packet, x.nextEventId, cfg.draw(g, app, action.dst).1))
      else None
    else None
  }

  /** The packets that the applications send along a schedule, in order. */
  function Attempts(cfg: Config, until: Time, w: World, schedule: seq<HostId>): seq<Attempt>
    requires Inv(cfg, until, w)
    decreases |schedule|
  {
    if schedule == [] then []
    else
      Listed(AttemptOf(cfg, until, w, schedule[0])) + Attempts(cfg, until, Step(cfg, until, w, schedule[0]), schedule[1..])
  }

  /** The packet is sent before the end of the simulation, to an address that a host has. */
  predicate Addressed(cfg: Config, a: Attempt) {
    a.time < cfg.simEnd && a.dst in cfg.dns
  }

  /** Packet loss spares what is sent while bootstrapping and what has no payload. */
  predicate Goes(cfg: Config, a: Attempt) {
    Addressed(cfg, a) && (a.unlucky ==> a.time < cfg.bootstrapEnd || cfg.payloadLen(a.packet) == 0)
  }

  /** The event that a packet becomes: after the latency of its own path, but not in this round. */
  function Arrival(cfg: Config, until: Time, a: Attempt): Event {
    Event(Max(a.time + cfg.latency(a.src, a.dst), until), PacketData(a.packet, a.src, a.id))
  }

  function Carried(cfg: Config, until: Time, a: Attempt): seq<Sent> {
    if Goes(cfg, a) then [Sent(cfg.dns[a.dst], Arrival(cfg, until, a), a.time, cfg.latency(a.src, a.dst))] else []
  }

  function AllCarried(cfg: Config, until: Time, attempts: seq<Attempt>): seq<Sent> {
    if attempts == [] then [] else Carried(cfg, until, attempts[0]) + AllCarried(cfg, until, attempts[1..])
  }

  lemma {:induction false} EmittedIsCarried(cfg: Config, until: Time, w: World, g: HostId)
    requires Inv(cfg, until, w)
    ensures var a := AttemptOf(cfg, until, w, g);
            Listed(Emitted(cfg, until, w, g)) == if a.Some? then Carried(cfg, until, a.value) else []
  {
    hide KeysOk, NoneBefore, LocalIdsBelow, HasWork, TakeEvent, RunaheadCap, Queue.Valid;
  }

  /** Along every schedule, the packets sent are exactly those of the applications' packets that go,
      each once, in order, to the host of its address, after the latency of its own path. */
  lemma {:induction false} SentExactly(cfg: Config, until: Time, w: World, schedule: seq<HostId>)
    requires Inv(cfg, until, w)
    ensures Packets(cfg, until, w, schedule) == AllCarried(cfg, until, Attempts(cfg, until, w, schedule))
    decreases |schedule|
  {
    if schedule != [] {
      var v := Step(cfg, until, w, schedule[0]);
      var a, rest := AttemptOf(cfg, until, w, schedule[0]), Attempts(cfg, until, v, schedule[1..]);
      EmittedIsCarried(cfg, until, w, schedule[0]);
      SentExactly(cfg, until, v, schedule[1..]);
      hide Inv, Step, AttemptOf, Emitted, Carried;
      assert if a.Some? then (Listed(a) + rest)[1..] == rest else Listed(a) + rest == rest;
      assert Packets(cfg, until, w, schedule) == Listed(Emitted(cfg, until, w, schedule[0])) + Packets(cfg, until, v, schedule[1..]);
    }
  }

  // ---- Where they are -----------------------------------------------------------------------------

  function IdsOf(w: World): map<HostId, nat> {
    map h | h in w.hosts :: w.hosts[h].nextEventId
  }

  /** The packets in `q` whose senders gave them an id no less than in `base`. */
  function NewPackets(base: map<HostId, nat>, q: set<Event>): set<Event> {
    set e | e in q && IsNew(base, e)
  }

  predicate IsNew(base: map<HostId, nat>, e: Event) {
    e.data.PacketData? && e.data.src in base && base[e.data.src] <= e.data.srcEventId
  }

  /** New packets are not for this round. */
  ghost predicate NewAreLate(base: map<HostId, nat>, until: Time, w: World) {
    && base.Keys == w.hosts.Keys
    && (forall h | h in w.hosts :: base[h] <= w.hosts[h].nextEventId)
    && forall h, e | h in w.hosts && e in NewPackets(base, w.hosts[h].queue.events) :: until <= e.time
  }

  function ArrivalsAt(k: HostId, sent: seq<Sent>): set<Event> {
    set i | 0 <= i < |sent| && sent[i].dst == k :: sent[i].event
  }

  lemma {:induction false} MadeIsOld(cfg: Config, until: Time, h: HostId, x: Host, base: map<HostId, nat>)
    requires HostOk(until, x) && HasWork(until, x)
    requires forall e | e in NewPackets(base, x.queue.events) :: until <= e.time
    ensures var s := Look(cfg, until, h, x);
            (forall e | e in Gone(s) + Made(cfg, x, s) :: !IsNew(base, e))
  {
    if x.mode == Idle {
      TakeEventOk(cfg, until, h, x);
      var e := x.queue.Pop().0;
      assert e in x.queue.events;
      assert e !in NewPackets(base, x.queue.events);
    }
    hide NoneBefore, LocalIdsBelow, HasWork, RunaheadCap, Queue.Valid, Queue.Pop, TakeEvent;
  }

  lemma {:induction false} NewAfterTurn(cfg: Config, until: Time, w: World, g: HostId, k: HostId, base: map<HostId, nat>)
    requires Inv(cfg, until, w) && NewAreLate(base, until, w) && k in w.hosts
    ensures k in Step(cfg, until, w, g).hosts
    ensures NewPackets(base, Step(cfg, until, w, g).hosts[k].queue.events) ==
            NewPackets(base, w.hosts[k].queue.events) + Arrived(cfg, until, w, g, k)
  {
    hide *;
    assert k in w.hosts;
    QueueTurn(cfg, until, w, g, k);
    ArrivedIsNew(cfg, until, w, g, k, base);
    EntryIsOld(cfg, until, w, g, k, base);
    var e, arrived := EntryOf(cfg, until, w, g, k), Arrived(cfg, until, w, g, k);
    OnlyArrivedIsNew(base, w.hosts[k].queue.events, e.out, e.into - arrived, arrived);
    assert e.into == e.into - arrived + arrived;
  }

  lemma {:induction false} EntryIsOld(cfg: Config, until: Time, w: World, g: HostId, k: HostId, base: map<HostId, nat>)
    requires Inv(cfg, until, w) && NewAreLate(base, until, w) && k in w.hosts
    ensures var e, arrived := EntryOf(cfg, until, w, g, k), Arrived(cfg, until, w, g, k);
            arrived <= e.into && forall f | f in e.out + (e.into - arrived) :: !IsNew(base, f)
  {
    if SeenIn(cfg, until, w, g, k).Some? {
      assert HostOk(until, w.hosts[k]);
      MadeIsOld(cfg, until, k, w.hosts[k], base);
    }
    hide Inv, Look, Gone, Made, Arrived, HasWork, IsNew;
  }

  lemma {:induction false} OnlyArrivedIsNew(base: map<HostId, nat>, q: set<Event>, out: set<Event>, made: set<Event>, arrived: set<Event>)
    requires (forall e | e in out + made :: !IsNew(base, e)) && forall e | e in arrived :: IsNew(base, e)
    ensures NewPackets(base, q - out + (made + arrived)) == NewPackets(base, q) + arrived
  {
    hide IsNew;
  }

  lemma {:induction false} ArrivedIsNew(cfg: Config, until: Time, w: World, g: HostId, k: HostId, base: map<HostId, nat>)
    requires Inv(cfg, until, w) && NewAreLate(base, until, w)
    ensures forall e | e in Arrived(cfg, until, w, g, k) :: IsNew(base, e) && until <= e.time
  {
    if Emitted(cfg, until, w, g).Some? {
      SentShape(cfg, until, g, w.hosts[g]);
    }
    hide LocalStep, HostOk, KeysOk, HasWork;
  }

  lemma {:induction false} StaysLate(cfg: Config, until: Time, w: World, g: HostId, base: map<HostId, nat>)
    requires Inv(cfg, until, w) && NewAreLate(base, until, w)
    ensures NewAreLate(base, until, Step(cfg, until, w, g))
  {
    var v := Step(cfg, until, w, g);
    assert v.hosts.Keys == w.hosts.Keys;
    hide Inv, Step, IsNew, Arrived;
    forall h | h in v.hosts ensures base[h] <= v.hosts[h].nextEventId {
      StepForward(cfg, until, w, g, h);
    }
    forall h, e | h in v.hosts && e in NewPackets(base, v.hosts[h].queue.events) ensures until <= e.time {
      NewAfterTurn(cfg, until, w, g, h, base);
      ArrivedIsNew(cfg, until, w, g, h, base);
    }
  }

  lemma {:induction false} NewAfterRun(cfg: Config, until: Time, w: World, schedule: seq<HostId>, k: HostId, base: map<HostId, nat>)
    requires Inv(cfg, until, w) && NewAreLate(base, until, w) && k in w.hosts
    ensures k in Run(cfg, until, w, schedule).hosts
    ensures NewPackets(base, Run(cfg, until, w, schedule).hosts[k].queue.events) ==
            NewPackets(base, w.hosts[k].queue.events) + ArrivalsAt(k, Packets(cfg, until, w, schedule))
    decreases |schedule|
  {
    hide *;
    PacketsUnfold(cfg, until, w, schedule);
    if schedule == [] {
      ArrivalsOf(k, None, []);
    } else {
      var v := Step(cfg, until, w, schedule[0]);
      NewAfterTurn(cfg, until, w, schedule[0], k, base);
      StaysLate(cfg, until, w, schedule[0], base);
      NewAfterRun(cfg, until, v, schedule[1..], k, base);
      ArrivalsOf(k, Emitted(cfg, until, w, schedule[0]), Packets(cfg, until, v, schedule[1..]));
      ArrivedOf(cfg, until, w, schedule[0], k);
    }
  }

  lemma {:induction false} PacketsUnfold(cfg: Config, until: Time, w: World, schedule: seq<HostId>)
    requires Inv(cfg, until, w)
    ensures if schedule == [] then Run(cfg, until, w, schedule) == w && Packets(cfg, until, w, schedule) == []
            else
              var v := Step(cfg, until, w, schedule[0]);
              && Run(cfg, until, w, schedule) == Run(cfg, until, v, schedule[1..])
              && Packets(cfg, until, w, schedule) ==
                 Listed(Emitted(cfg, until, w, schedule[0])) + Packets(cfg, until, v, schedule[1..])
  {
    hide Inv, Step, Emitted;
  }

  lemma {:induction false} ArrivedOf(cfg: Config, until: Time, w: World, g: HostId, k: HostId)
    requires Inv(cfg, until, w)
    ensures var s := Emitted(cfg, until, w, g);
            Arrived(cfg, until, w, g, k) == if s.Some? && s.value.dst == k then {s.value.event} else {}
  {
    hide Inv, Emitted;
  }

  lemma {:induction false} ArrivalsOf(k: HostId, s: Option<Sent>, rest: seq<Sent>)
    ensures ArrivalsAt(k, []) == {}
    ensures ArrivalsAt(k, Listed(s) + rest) == (if s.Some? && s.value.dst == k then {s.value.event} else {}) + ArrivalsAt(k, rest)
  {
    var all := Listed(s) + rest;
    forall e | e in ArrivalsAt(k, rest) ensures e in ArrivalsAt(k, all) {
      var i :| 0 <= i < |rest| && rest[i].dst == k && rest[i].event == e;
      assert all[i + |Listed(s)|] == rest[i];
    }
    if s.Some? {
      assert all[0] == s.value;
    }
    forall i | 0 <= i < |all| && all[i].dst == k
      ensures all[i].event in (if s.Some? && s.value.dst == k then {s.value.event} else {}) + ArrivalsAt(k, rest)
    {
      if i >= |Listed(s)| {
        assert all[i] == rest[i - |Listed(s)|];
      }
    }
  }

  /** After every schedule, the packets sent in it are in the queues of the hosts they were sent to, and
      no other packet that was not there before is in any queue. */
  lemma {:induction false} QueuesHoldWhatWasSent(cfg: Config, until: Time, w: World, schedule: seq<HostId>, k: HostId)
    requires Inv(cfg, until, w) && k in w.hosts
    ensures k in Run(cfg, until, w, schedule).hosts
    ensures NewPackets(IdsOf(w), Run(cfg, until, w, schedule).hosts[k].queue.events) ==
            ArrivalsAt(k, AllCarried(cfg, until, Attempts(cfg, until, w, schedule)))
  {
    NothingNewYet(cfg, until, w);
    SentExactly(cfg, until, w, schedule);
    hide Inv, NewPackets, IdsOf;
    NewAfterRun(cfg, until, w, schedule, k, IdsOf(w));
  }

  lemma {:induction false} NothingNewYet(cfg: Config, until: Time, w: World)
    requires Inv(cfg, until, w)
    ensures NewAreLate(IdsOf(w), until, w)
    ensures forall h | h in w.hosts :: NewPackets(IdsOf(w), w.hosts[h].queue.events) == {}
  {
    forall h, e | h in w.hosts && e in w.hosts[h].queue.events ensures !IsNew(IdsOf(w), e) {
      assert KeyKnown(w.hosts, e);
    }
    hide KeysOk, HostsOk, IsNew;
  }

  // ---- Each packet once -----------------------------------------------------------------------------

  /** A host's packets are in the order of its clock, and a packet that goes uses up its id. */
  predicate InOrder(cfg: Config, attempts: seq<Attempt>) {
    forall i, j | 0 <= i < j < |attempts| && attempts[i].src == attempts[j].src ::
      attempts[i].time <= attempts[j].time && (Goes(cfg, attempts[i]) ==> attempts[i].id < attempts[j].id)
  }

  predicate From(w: World, a: Attempt) {
    a.src in w.hosts && w.hosts[a.src].nextEventId <= a.id && w.hosts[a.src].clock <= a.time
  }

  lemma {:induction false} IdUsed(cfg: Config, until: Time, w: World, g: HostId)
    requires Inv(cfg, until, w)
    ensures var a, v := AttemptOf(cfg, until, w, g), Step(cfg, until, w, g);
            a.Some? ==> From(w, a.value) && a.value.src in v.hosts
                        && v.hosts[a.value.src].clock == a.value.time
                        && (Goes(cfg, a.value) ==> a.value.id < v.hosts[a.value.src].nextEventId)
  {
    if AttemptOf(cfg, until, w, g).Some? {
      StepAt(cfg, until, w, g, g);
      hide Step, KeysOk, HasWork;
      SendUsesId(cfg, until, g, w.hosts[g]);
      hide LocalStep;
    }
  }

  lemma {:induction false} SendUsesId(cfg: Config, until: Time, h: HostId, x: Host)
    requires HostOk(until, x) && HasWork(until, x) && x.mode == Running && cfg.act(h, x.app, x.clock).1.Send?
    ensures var (app, action) := cfg.act(h, x.app, x.clock);
            var a := Attempt(h, x.clock, action.dst, action.packet, x.nextEventId, cfg.draw(h, app, action.dst).1);
            var y := LocalStep(cfg, until, h, x).0;
            y.clock == x.clock && y.nextEventId == if Goes(cfg, a) then x.nextEventId + 1 else x.nextEventId
  {
    hide NoneBefore, LocalIdsBelow, HasWork, RunaheadCap, Queue.Valid;
  }

  lemma {:induction false} AttemptsInOrder(cfg: Config, until: Time, w: World, schedule: seq<HostId>)
    requires Inv(cfg, until, w)
    ensures InOrder(cfg, Attempts(cfg, until, w, schedule))
    ensures forall a | a in Attempts(cfg, until, w, schedule) :: From(w, a)
    decreases |schedule|
  {
    if schedule != [] {
      var g, v := schedule[0], Step(cfg, until, w, schedule[0]);
      IdUsed(cfg, until, w, g);
      OnlyForward(cfg, until, w, g);
      hide Inv, Step, AttemptOf, Goes, Forward;
      AttemptsInOrder(cfg, until, v, schedule[1..]);
      OneMoreAttempt(cfg, AttemptOf(cfg, until, w, g), Attempts(cfg, until, v, schedule[1..]), w, v);
    }
  }

  lemma {:induction false} OnlyForward(cfg: Config, until: Time, w: World, g: HostId)
    requires Inv(cfg, until, w)
    ensures Step(cfg, until, w, g).hosts.Keys == w.hosts.Keys
    ensures forall h | h in w.hosts :: Forward(w.hosts[h], Step(cfg, until, w, g).hosts[h])
  {
    var v := Step(cfg, until, w, g);
    assert v.hosts.Keys == w.hosts.Keys;
    hide Inv, Step, Forward;
    forall h | h in w.hosts ensures Forward(w.hosts[h], v.hosts[h]) {
      StepForward(cfg, until, w, g, h);
    }
  }

  lemma {:induction false} OneMoreAttempt(cfg: Config, a: Option<Attempt>, rest: seq<Attempt>, w: World, v: World)
    requires InOrder(cfg, rest) && forall b | b in rest :: From(v, b)
    requires v.hosts.Keys == w.hosts.Keys && forall h | h in w.hosts :: Forward(w.hosts[h], v.hosts[h])
    requires a.Some? ==> From(w, a.value) && v.hosts[a.value.src].clock == a.value.time
    requires a.Some? && Goes(cfg, a.value) ==> a.value.id < v.hosts[a.value.src].nextEventId
    ensures InOrder(cfg, Listed(a) + rest) && forall b | b in Listed(a) + rest :: From(w, b)
  {
    hide Goes;
    var all, n := Listed(a) + rest, |Listed(a)|;
    assert forall i | n <= i < |all| :: all[i] == rest[i - n];
    forall i, j | 0 <= i < j < |all| && all[i].src == all[j].src
      ensures all[i].time <= all[j].time && (Goes(cfg, all[i]) ==> all[i].id < all[j].id)
    {
      assert all[j] == rest[j - n] && From(v, rest[j - n]);
      if i >= n {
        assert all[i] == rest[i - n];
      }
    }
  }

  /** In `v`, the queue of the host that the packet is sent to holds it, due after its latency; and
      that is the only packet of the same sender and id in any queue. */
  ghost predicate ArrivedOnce(cfg: Config, until: Time, v: World, a: Attempt) {
    && a.dst in cfg.dns && cfg.dns[a.dst] in v.hosts
    && Arrival(cfg, until, a) in v.hosts[cfg.dns[a.dst]].queue.events
    && forall k, e | k in v.hosts && e in v.hosts[k].queue.events && SameSource(e, a) ::
         k == cfg.dns[a.dst] && e == Arrival(cfg, until, a)
  }

  predicate SameSource(e: Event, a: Attempt) {
    e.data.PacketData? && e.data.src == a.src && e.data.srcEventId == a.id
  }

  lemma {:induction false} CarriedFrom(cfg: Config, until: Time, attempts: seq<Attempt>, i: nat)
    requires i < |attempts| && Goes(cfg, attempts[i])
    ensures Carried(cfg, until, attempts[i])[0] in AllCarried(cfg, until, attempts)
    decreases i
  {
    if i > 0 {
      CarriedFrom(cfg, until, attempts[1..], i - 1);
    }
  }

  lemma {:induction false} CarriedBy(cfg: Config, until: Time, attempts: seq<Attempt>, s: Sent) returns (i: nat)
    requires s in AllCarried(cfg, until, attempts)
    ensures i < |attempts| && Goes(cfg, attempts[i]) && [s] == Carried(cfg, until, attempts[i])
    decreases |attempts|
  {
    if s in Carried(cfg, until, attempts[0]) {
      i := 0;
    } else {
      i := CarriedBy(cfg, until, attempts[1..], s);
      i := i + 1;
    }
  }

  /** Along every schedule, each packet of an application that goes arrives: exactly one event, with
      that packet, in the queue of the host it was sent to, due after the latency of its own path or
      at the end of the round, whichever is later. */
  lemma {:induction false} GoingArrives(cfg: Config, until: Time, w: World, schedule: seq<HostId>, i: nat)
    requires Inv(cfg, until, w) && i < |Attempts(cfg, until, w, schedule)|
    requires Goes(cfg, Attempts(cfg, until, w, schedule)[i])
    ensures ArrivedOnce(cfg, until, Run(cfg, until, w, schedule), Attempts(cfg, until, w, schedule)[i])
  {
    hide *;
    var attempts, v := Attempts(cfg, until, w, schedule), Run(cfg, until, w, schedule);
    var a := attempts[i];
    SameHosts(cfg, until, w, schedule, a);
    Arrives(cfg, until, w, schedule, i);
    forall k, e | k in v.hosts && e in v.hosts[k].queue.events && SameSource(e, a)
      ensures k == cfg.dns[a.dst] && e == Arrival(cfg, until, a)
    {
      ArrivesAlone(cfg, until, w, schedule, i, k, e);
    }
    MakesOnce(cfg, until, v, a);
  }

  lemma {:induction false} MakesOnce(cfg: Config, until: Time, v: World, a: Attempt)
    requires a.dst in cfg.dns && cfg.dns[a.dst] in v.hosts && Arrival(cfg, until, a) in v.hosts[cfg.dns[a.dst]].queue.events
    requires forall k, e | k in v.hosts && e in v.hosts[k].queue.events && SameSource(e, a) ::
               k == cfg.dns[a.dst] && e == Arrival(cfg, until, a)
    ensures ArrivedOnce(cfg, until, v, a)
  {
    hide Arrival, SameSource;
  }

  lemma {:induction false} SameHosts(cfg: Config, until: Time, w: World, schedule: seq<HostId>, a: Attempt)
    requires Inv(cfg, until, w) && Goes(cfg, a)
    ensures Run(cfg, until, w, schedule).hosts.Keys == w.hosts.Keys
    ensures a.dst in cfg.dns && cfg.dns[a.dst] in w.hosts
  {
    RunHosts(cfg, until, w, schedule);
    hide Run, HostsOk, KeysOk;
  }

  lemma {:induction false} RunHosts(cfg: Config, until: Time, w: World, schedule: seq<HostId>)
    requires Inv(cfg, until, w)
    ensures Run(cfg, until, w, schedule).hosts.Keys == w.hosts.Keys
  {
    assert Inv(cfg, until, Run(cfg, until, w, schedule));
    hide Run, HostsOk, KeysOk;
  }

  lemma {:induction false} Arrives(cfg: Config, until: Time, w: World, schedule: seq<HostId>, i: nat)
    requires Inv(cfg, until, w) && i < |Attempts(cfg, until, w, schedule)|
    requires Goes(cfg, Attempts(cfg, until, w, schedule)[i])
    ensures var a, v := Attempts(cfg, until, w, schedule)[i], Run(cfg, until, w, schedule);
            && a.dst in cfg.dns && cfg.dns[a.dst] in v.hosts
            && Arrival(cfg, until, a) in v.hosts[cfg.dns[a.dst]].queue.events
  {
    hide *;
    var attempts, v := Attempts(cfg, until, w, schedule), Run(cfg, until, w, schedule);
    SameHosts(cfg, until, w, schedule, attempts[i]);
    QueuesHoldWhatWasSent(cfg, until, w, schedule, cfg.dns[attempts[i].dst]);
    IsAmongArrivals(cfg, until, attempts, i, IdsOf(w), v.hosts[cfg.dns[attempts[i].dst]].queue.events);
  }

  lemma {:induction false} ArrivesAlone(cfg: Config, until: Time, w: World, schedule: seq<HostId>, i: nat, k: HostId, e: Event)
    requires Inv(cfg, until, w) && i < |Attempts(cfg, until, w, schedule)|
    requires var a, v := Attempts(cfg, until, w, schedule)[i], Run(cfg, until, w, schedule);
             Goes(cfg, a) && k in v.hosts && e in v.hosts[k].queue.events && SameSource(e, a)
    ensures var a := Attempts(cfg, until, w, schedule)[i];
            a.dst in cfg.dns && k == cfg.dns[a.dst] && e == Arrival(cfg, until, a)
  {
    hide *;
    var attempts, v := Attempts(cfg, until, w, schedule), Run(cfg, until, w, schedule);
    SameHosts(cfg, until, w, schedule, attempts[i]);
    AttemptsInOrder(cfg, until, w, schedule);
    StillNew(w, attempts[i], e);
    QueuesHoldWhatWasSent(cfg, until, w, schedule, k);
    OnlyArrival(cfg, until, attempts, i, IdsOf(w), k, e, v.hosts[k].queue.events);
  }

  lemma {:induction false} StillNew(w: World, a: Attempt, e: Event)
    requires From(w, a) && SameSource(e, a)
    ensures IsNew(IdsOf(w), e)
  {
  }

  lemma {:induction false} IsAmongArrivals(cfg: Config, until: Time, attempts: seq<Attempt>, i: nat, base: map<HostId, nat>, q: set<Event>)
    requires i < |attempts| && Goes(cfg, attempts[i])
    requires NewPackets(base, q) == ArrivalsAt(cfg.dns[attempts[i].dst], AllCarried(cfg, until, attempts))
    ensures Arrival(cfg, until, attempts[i]) in q
  {
    CarriedFrom(cfg, until, attempts, i);
    hide AllCarried;
    assert Arrival(cfg, until, attempts[i]) in NewPackets(base, q);
  }

  lemma {:induction false} OnlyArrival(cfg: Config, until: Time, attempts: seq<Attempt>, i: nat,
                                       base: map<HostId, nat>, k: HostId, e: Event, q: set<Event>)
    requires i < |attempts| && Goes(cfg, attempts[i]) && InOrder(cfg, attempts)
    requires e in q && SameSource(e, attempts[i]) && IsNew(base, e)
    requires NewPackets(base, q) == ArrivalsAt(k, AllCarried(cfg, until, attempts))
    ensures k == cfg.dns[attempts[i].dst] && e == Arrival(cfg, until, attempts[i])
  {
    var j := SentFrom(cfg, until, attempts, base, k, e, q);
    hide AllCarried, NewPackets, ArrivalsAt, Goes;
    assert i == j;
  }

  lemma {:induction false} SentFrom(cfg: Config, until: Time, attempts: seq<Attempt>, base: map<HostId, nat>, k: HostId, e: Event, q: set<Event>)
    returns (j: nat)
    requires e in q && IsNew(base, e) && NewPackets(base, q) == ArrivalsAt(k, AllCarried(cfg, until, attempts))
    ensures j < |attempts| && Goes(cfg, attempts[j]) && k == cfg.dns[attempts[j].dst] && e == Arrival(cfg, until, attempts[j])
  {
    var sent := AllCarried(cfg, until, attempts);
    assert e in ArrivalsAt(k, sent);
    var n :| 0 <= n < |sent| && sent[n].dst == k && sent[n].event == e;
    j := CarriedBy(cfg, until, attempts, sent[n]);
    assert [sent[n]][0] == sent[n];
  }

  // ---- With and without luck -------------------------------------------------------------------------

  ghost predicate Draws(cfg: Config, unlucky: bool) {
    forall h, app, ip :: cfg.draw(h, app, ip).1 == unlucky
  }

  lemma {:induction false} AttemptsDraw(cfg: Config, until: Time, w: World, schedule: seq<HostId>, unlucky: bool)
    requires Inv(cfg, until, w) && Draws(cfg, unlucky)
    ensures forall a | a in Attempts(cfg, until, w, schedule) :: a.unlucky == unlucky
    decreases |schedule|
  {
    if schedule != [] {
      var v := Step(cfg, until, w, schedule[0]);
      AttemptDraws(cfg, until, w, schedule[0], unlucky);
      AttemptsDraw(cfg, until, v, schedule[1..], unlucky);
      hide Inv, Step, AttemptOf, Draws;
      assert Attempts(cfg, until, w, schedule) ==
             Listed(AttemptOf(cfg, until, w, schedule[0])) + Attempts(cfg, until, v, schedule[1..]);
    }
  }

  lemma {:induction false} AttemptDraws(cfg: Config, until: Time, w: World, g: HostId, unlucky: bool)
    requires Inv(cfg, until, w) && Draws(cfg, unlucky)
    ensures var a := AttemptOf(cfg, until, w, g); a.Some? ==> a.value.unlucky == unlucky
  {
    if AttemptOf(cfg, until, w, g).Some? {
      var (app, action) := cfg.act(g, w.hosts[g].app, w.hosts[g].clock);
      assert cfg.draw(g, app, action.dst).1 == unlucky;
    }
    hide Inv, HasWork;
  }

  /** On a network without loss, every packet sent before the end of the simulation to a host's address
      arrives; so does, on every network, every such packet sent while bootstrapping. */
  lemma {:induction false} NothingIsLost(cfg: Config, until: Time, w: World, schedule: seq<HostId>, i: nat)
    requires Inv(cfg, until, w) && i < |Attempts(cfg, until, w, schedule)|
    requires var a := Attempts(cfg, until, w, schedule)[i];
             Addressed(cfg, a) && (Draws(cfg, false) || a.time < cfg.bootstrapEnd || cfg.payloadLen(a.packet) == 0)
    ensures ArrivedOnce(cfg, until, Run(cfg, until, w, schedule), Attempts(cfg, until, w, schedule)[i])
  {
    if Draws(cfg, false) {
      AttemptsDraw(cfg, until, w, schedule, false);
    }
    hide Inv, Attempts;
    GoingArrives(cfg, until, w, schedule, i);
  }

  /** On a network that loses all it can, from the end of bootstrapping on exactly the packets without
      payload arrive. */
  lemma {:induction false} OnlyEmptyPacketsArrive(cfg: Config, until: Time, w: World, schedule: seq<HostId>, i: nat)
    requires Inv(cfg, until, w) && i < |Attempts(cfg, until, w, schedule)| && Draws(cfg, true)
    requires var a := Attempts(cfg, until, w, schedule)[i]; Addressed(cfg, a) && cfg.bootstrapEnd <= a.time
    ensures var a := Attempts(cfg, until, w, schedule)[i];
            ArrivedOnce(cfg, until, Run(cfg, until, w, schedule), a) <==> cfg.payloadLen(a.packet) == 0
  {
    hide *;
    var a := Attempts(cfg, until, w, schedule)[i];
    if cfg.payloadLen(a.packet) == 0 {
      NothingIsLost(cfg, until, w, schedule, i);
    } else {
      NeverArrives(cfg, until, w, schedule, i);
    }
  }

  lemma {:induction false} NeverArrives(cfg: Config, until: Time, w: World, schedule: seq<HostId>, i: nat)
    requires Inv(cfg, until, w) && i < |Attempts(cfg, until, w, schedule)| && Draws(cfg, true)
    requires var a := Attempts(cfg, until, w, schedule)[i];
             Addressed(cfg, a) && cfg.bootstrapEnd <= a.time && cfg.payloadLen(a.packet) > 0
    ensures !ArrivedOnce(cfg, until, Run(cfg, until, w, schedule), Attempts(cfg, until, w, schedule)[i])
  {
    hide Inv, Attempts, Run, Goes, NewPackets, ArrivalsAt, AllCarried, Draws, From, IdsOf, InOrder, Arrival, IsNew, Addressed;
    var attempts, v := Attempts(cfg, until, w, schedule), Run(cfg, until, w, schedule);
    var a := attempts[i];
    AttemptsDraw(cfg, until, w, schedule, true);
    AttemptsInOrder(cfg, until, w, schedule);
    if ArrivedOnce(cfg, until, v, a) {
      var k, e := cfg.dns[a.dst], Arrival(cfg, until, a);
      RunHosts(cfg, until, w, schedule);
      QueuesHoldWhatWasSent(cfg, until, w, schedule, k);
      SourceOf(cfg, until, a);
      StillNew(w, a, e);
      var j := SentFrom(cfg, until, attempts, IdsOf(w), k, e, v.hosts[k].queue.events);
      DroppedForGood(cfg, until, attempts, i, j);
    }
  }

  lemma {:induction false} SourceOf(cfg: Config, until: Time, a: Attempt)
    ensures SameSource(Arrival(cfg, until, a), a)
  {
  }

  /** No other packet takes the place of one that is dropped. */
  lemma {:induction false} DroppedForGood(cfg: Config, until: Time, attempts: seq<Attempt>, i: nat, j: nat)
    requires i < |attempts| && j < |attempts| && InOrder(cfg, attempts) && attempts[j].unlucky && Goes(cfg, attempts[j])
    requires cfg.payloadLen(attempts[i].packet) > 0 && cfg.bootstrapEnd <= attempts[i].time
    ensures Arrival(cfg, until, attempts[i]) != Arrival(cfg, until, attempts[j])
  {
  }
}
