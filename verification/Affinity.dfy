/** The choice of a CPU for each worker (src/main/core/affinity.c). */
module Affinity {
  import opened Options

  const AFFINITY_UNINIT := -1

  datatype Cpu = Cpu(num: int, core: int, socket: int, node: int)

  /** The loads of CPUs, cores, sockets and nodes; what is not in a table has load zero. */
  datatype Loads = Loads(cpu: map<int, nat>, core: map<int, nat>, socket: map<int, nat>, node: map<int, nat>)

  function Get(table: map<int, nat>, key: int): nat {
    if key in table then table[key] else 0
  }

  function Increment(table: map<int, nat>, key: int): map<int, nat> {
    table[key := Get(table, key) + 1]
  }

  function Load(s: Loads, c: Cpu): nat { Get(s.cpu, c.num) }

  function CoreLoad(s: Loads, c: Cpu): nat { Get(s.core, c.core) }

  /** -1 if `a` is the better choice, 1 if `b` is, 0 if they are the same CPU. */
  function Compare(s: Loads, a: Cpu, b: Cpu): int {
    if Load(s, a) != Load(s, b) then if Load(s, a) < Load(s, b) then -1 else 1
    else if CoreLoad(s, a) != CoreLoad(s, b) then if CoreLoad(s, a) < CoreLoad(s, b) then -1 else 1
    else if Get(s.socket, a.socket) != Get(s.socket, b.socket) then
      if Get(s.socket, a.socket) < Get(s.socket, b.socket) then 1 else -1
    else if Get(s.node, a.node) != Get(s.node, b.node) then
      if Get(s.node, a.node) < Get(s.node, b.node) then 1 else -1
    else if a.num > b.num then 1
    else if a.num < b.num then -1
    else 0
  }

  /** The comparison is the total order its comment promises. */
  lemma {:induction false} CompareIsTotalOrder(s: Loads, a: Cpu, b: Cpu, c: Cpu)
    ensures Compare(s, a, b) == -Compare(s, b, a)
    ensures Compare(s, a, b) == 0 ==> a.num == b.num
    ensures Compare(s, a, b) <= 0 && Compare(s, b, c) <= 0 ==> Compare(s, a, c) <= 0
  {
  }

  // ---- The machine and its assignments --------------------------------------------------------

  datatype Machine = Machine(cpus: seq<Cpu>, eligible: set<int>) {
    /** A logical CPU number is the unique key of its CPU. */
    ghost predicate Valid() {
      forall i, j | 0 <= i < j < |cpus| :: cpus[i].num != cpus[j].num
    }

    predicate May(c: Cpu) {
      c in cpus && c.num in eligible
    }
  }

  /** `c` is an eligible CPU that no eligible CPU beats. */
  ghost predicate IsBest(m: Machine, s: Loads, c: Cpu) {
    m.May(c) && forall d | m.May(d) :: Compare(s, c, d) <= 0
  }

  function Bump(s: Loads, c: Cpu): Loads {
    Loads(Increment(s.cpu, c.num), Increment(s.core, c.core), Increment(s.socket, c.socket), Increment(s.node, c.node))
  }

  const NONE := Loads(map[], map[], map[], map[])

  /** The loads after the workers got the CPUs `picks`, in that order. */
  function After(picks: seq<Cpu>): Loads {
    if picks == [] then NONE else Bump(After(picks[..|picks| - 1]), picks[|picks| - 1])
  }

  /** Every worker got a best CPU for the loads it found. */
  ghost predicate IsRun(m: Machine, picks: seq<Cpu>) {
    forall i | 0 <= i < |picks| :: IsBest(m, After(picks[..i]), picks[i])
  }

  // ---- Sums -----------------------------------------------------------------------------------

  datatype Level = OfCore | OfSocket | OfNode | OfMachine

  function Key(level: Level, c: Cpu): int {
    match level
    case OfCore => c.core
    case OfSocket => c.socket
    case OfNode => c.node
    case OfMachine => 0
  }

  /** The summed CPU loads of one core, socket, node, or of all CPUs. */
  function Total(cpus: seq<Cpu>, level: Level, key: int, table: map<int, nat>): nat {
    if cpus == [] then 0
    else (if Key(level, cpus[0]) == key then Get(table, cpus[0].num) else 0) + Total(cpus[1..], level, key, table)
  }

  /** How many eligible CPUs a core, socket, node or the machine has. */
  function Count(cpus: seq<Cpu>, eligible: set<int>, level: Level, key: int): nat {
    if cpus == [] then 0
    else (if Key(level, cpus[0]) == key && cpus[0].num in eligible then 1 else 0) + Count(cpus[1..], eligible, level, key)
  }

  lemma {:induction false} TotalUnchanged(cpus: seq<Cpu>, level: Level, key: int, table: map<int, nat>, num: int)
    requires forall c | c in cpus :: c.num != num
    ensures Total(cpus, level, key, Increment(table, num)) == Total(cpus, level, key, table)
  {
    if cpus != [] {
      assert cpus[0] in cpus;
      TotalUnchanged(cpus[1..], level, key, table, num);
    }
  }

  lemma {:induction false} TotalBumped(m: Machine, level: Level, key: int, table: map<int, nat>, c: Cpu)
    requires m.Valid() && c in m.cpus
    ensures Total(m.cpus, level, key, Increment(table, c.num)) ==
            Total(m.cpus, level, key, table) + if Key(level, c) == key then 1 else 0
    decreases |m.cpus|
  {
    var first, rest := m.cpus[0], m.cpus[1..];
    if c == first {
      assert forall d | d in rest :: d.num != first.num;
      TotalUnchanged(rest, level, key, table, c.num);
    } else {
      assert c in rest && first.num != c.num;
      TotalBumped(m.(cpus := rest), level, key, table, c);
    }
  }

  /** Ineligible CPUs never get a worker. */
  ghost predicate Unused(m: Machine, table: map<int, nat>) {
    forall c | c in m.cpus :: c.num !in m.eligible ==> Get(table, c.num) == 0
  }

  ghost predicate AllAtLeast(m: Machine, level: Level, key: int, table: map<int, nat>, v: nat) {
    forall c | m.May(c) && Key(level, c) == key :: v <= Get(table, c.num)
  }

  ghost predicate AllAtMost(m: Machine, level: Level, key: int, table: map<int, nat>, v: nat) {
    forall c | m.May(c) && Key(level, c) == key :: Get(table, c.num) <= v
  }

  lemma {:induction false} Distribute(n: nat, v: nat)
    ensures (n + 1) * v == n * v + v
  {
  }

  lemma {:induction false} TotalAtLeast(m: Machine, level: Level, key: int, table: map<int, nat>, v: nat)
    requires AllAtLeast(m, level, key, table, v)
    ensures Count(m.cpus, m.eligible, level, key) * v <= Total(m.cpus, level, key, table)
    decreases |m.cpus|
  {
    if m.cpus != [] {
      var rest := m.(cpus := m.cpus[1..]);
      assert m.May(m.cpus[0]) || m.cpus[0].num !in m.eligible;
      assert forall c | rest.May(c) :: m.May(c);
      TotalAtLeast(rest, level, key, table, v);
      Distribute(Count(rest.cpus, m.eligible, level, key), v);
    }
  }

  lemma {:induction false} TotalAtMost(m: Machine, level: Level, key: int, table: map<int, nat>, v: nat)
    requires Unused(m, table) && AllAtMost(m, level, key, table, v)
    ensures Total(m.cpus, level, key, table) <= Count(m.cpus, m.eligible, level, key) * v
    decreases |m.cpus|
  {
    if m.cpus != [] {
      var rest := m.(cpus := m.cpus[1..]);
      assert m.cpus[0] in m.cpus;
      assert m.May(m.cpus[0]) || m.cpus[0].num !in m.eligible;
      assert forall c | c in rest.cpus :: c in m.cpus;
      assert forall c | rest.May(c) :: m.May(c);
      TotalAtMost(rest, level, key, table, v);
      Distribute(Count(rest.cpus, m.eligible, level, key), v);
    }
  }

  // ---- What every assignment keeps --------------------------------------------------------------

  /** Loads of eligible CPUs differ by at most one. */
  ghost predicate Even(m: Machine, s: Loads) {
    forall a, b | m.May(a) && m.May(b) :: Load(s, a) <= Load(s, b) + 1
  }

  /** Loads of cores with an eligible CPU differ by at most one. */
  ghost predicate CoresEven(m: Machine, s: Loads) {
    forall a, b | m.May(a) && m.May(b) :: CoreLoad(s, a) <= CoreLoad(s, b) + 1
  }

  /** Every core, socket and node table entry is the sum over its CPUs. */
  ghost predicate Summed(m: Machine, s: Loads) {
    forall key: int ::
      && Get(s.core, key) == Total(m.cpus, OfCore, key, s.cpu)
      && Get(s.socket, key) == Total(m.cpus, OfSocket, key, s.cpu)
      && Get(s.node, key) == Total(m.cpus, OfNode, key, s.cpu)
  }

  /** All cores with an eligible CPU have equally many. */
  ghost predicate Uniform(m: Machine) {
    forall a, b | m.May(a) && m.May(b) ::
      Count(m.cpus, m.eligible, OfCore, a.core) == Count(m.cpus, m.eligible, OfCore, b.core)
  }

  lemma {:induction false} BumpSummed(m: Machine, s: Loads, c: Cpu)
    requires m.Valid() && c in m.cpus && Summed(m, s)
    ensures Summed(m, Bump(s, c))
  {
    forall key: int
      ensures Get(Bump(s, c).core, key) == Total(m.cpus, OfCore, key, Bump(s, c).cpu)
      ensures Get(Bump(s, c).socket, key) == Total(m.cpus, OfSocket, key, Bump(s, c).cpu)
      ensures Get(Bump(s, c).node, key) == Total(m.cpus, OfNode, key, Bump(s, c).cpu)
    {
      TotalBumped(m, OfCore, key, s.cpu, c);
      TotalBumped(m, OfSocket, key, s.cpu, c);
      TotalBumped(m, OfNode, key, s.cpu, c);
    }
  }

  lemma {:induction false} BumpEven(m: Machine, s: Loads, c: Cpu)
    requires IsBest(m, s, c) && Even(m, s)
    ensures Even(m, Bump(s, c))
  {
    assert forall d | m.May(d) :: Load(s, c) <= Load(s, d);
  }

  /** What makes a CPU best: least loaded, then on the least loaded core, then - for locality - on the
      most loaded socket and node, then of the lowest number. */
  lemma {:induction false} BestIsLocal(m: Machine, s: Loads, c: Cpu, d: Cpu)
    requires IsBest(m, s, c) && m.May(d)
    ensures Load(s, c) <= Load(s, d)
    ensures Load(s, c) == Load(s, d) ==> CoreLoad(s, c) <= CoreLoad(s, d)
    ensures Load(s, c) == Load(s, d) && CoreLoad(s, c) == CoreLoad(s, d) ==>
              && Get(s.socket, c.socket) >= Get(s.socket, d.socket)
              && (Get(s.socket, c.socket) == Get(s.socket, d.socket) ==>
                    && Get(s.node, c.node) >= Get(s.node, d.node)
                    && (Get(s.node, c.node) == Get(s.node, d.node) ==> c.num <= d.num))
  {
    assert Compare(s, c, d) <= 0;
  }

  /** The core of a best CPU carries no more than any other core. */
  lemma {:induction false} BestCoreIsLeast(m: Machine, s: Loads, c: Cpu, d: Cpu)
    requires IsBest(m, s, c) && Even(m, s) && Summed(m, s) && Unused(m, s.cpu) && Uniform(m) && m.May(d)
    ensures CoreLoad(s, c) <= CoreLoad(s, d)
  {
    var v := Load(s, c) + 1;
    if AllAtLeast(m, OfCore, d.core, s.cpu, v) {
      TotalAtLeast(m, OfCore, d.core, s.cpu, v);
      assert AllAtMost(m, OfCore, c.core, s.cpu, v) by {
        forall e | m.May(e) && e.core == c.core ensures Load(s, e) <= v { }
      }
      TotalAtMost(m, OfCore, c.core, s.cpu, v);
    } else {
      var e :| m.May(e) && e.core == d.core && Load(s, e) < v;
      assert Compare(s, c, e) <= 0;
    }
  }

  lemma {:induction false} BumpCoresEven(m: Machine, s: Loads, c: Cpu)
    requires IsBest(m, s, c) && Even(m, s) && Summed(m, s) && Unused(m, s.cpu) && Uniform(m) && CoresEven(m, s)
    ensures CoresEven(m, Bump(s, c))
  {
    forall a, b | m.May(a) && m.May(b)
      ensures CoreLoad(Bump(s, c), a) <= CoreLoad(Bump(s, c), b) + 1
    {
      BestCoreIsLeast(m, s, c, b);
    }
  }

  lemma {:induction false} RunPrefix(m: Machine, picks: seq<Cpu>)
    requires IsRun(m, picks) && picks != []
    ensures IsRun(m, picks[..|picks| - 1])
    ensures IsBest(m, After(picks[..|picks| - 1]), picks[|picks| - 1])
  {
    hide IsBest, After;
    assert forall i | 0 <= i < |picks| - 1 :: picks[..|picks| - 1][..i] == picks[..i];
  }

  /** After any number of assignments the loads of eligible CPUs differ by at most one, every core,
      socket and node load is the sum of its CPUs' loads, and each worker is counted once. */
  lemma {:induction false} Balanced(m: Machine, picks: seq<Cpu>)
    requires m.Valid() && IsRun(m, picks)
    ensures var s := After(picks);
            Even(m, s) && Summed(m, s) && Unused(m, s.cpu) && Total(m.cpus, OfMachine, 0, s.cpu) == |picks|
    decreases |picks|
  {
    if picks == [] {
      forall level: Level, key: int ensures Total(m.cpus, level, key, map[]) == 0 {
        NothingTotal(m.cpus, level, key);
      }
    } else {
      hide IsRun, Total, Even, Summed;
      var s, c := After(picks[..|picks| - 1]), picks[|picks| - 1];
      RunPrefix(m, picks);
      Balanced(m, picks[..|picks| - 1]);
      BumpEven(m, s, c);
      BumpSummed(m, s, c);
      TotalBumped(m, OfMachine, 0, s.cpu, c);
    }
  }

  lemma {:induction false} NothingTotal(cpus: seq<Cpu>, level: Level, key: int)
    ensures Total(cpus, level, key, map[]) == 0
  {
    if cpus != [] {
      NothingTotal(cpus[1..], level, key);
    }
  }

  /** With equally many eligible CPUs on every core, core loads never differ by more than one. */
  lemma {:induction false} CoresBalanced(m: Machine, picks: seq<Cpu>)
    requires m.Valid() && Uniform(m) && IsRun(m, picks)
    ensures CoresEven(m, After(picks))
    decreases |picks|
  {
    if picks != [] {
      hide IsRun, Even, Summed, Unused, Uniform, CoresEven, IsBest;
      RunPrefix(m, picks);
      CoresBalanced(m, picks[..|picks| - 1]);
      Balanced(m, picks[..|picks| - 1]);
      BumpCoresEven(m, After(picks[..|picks| - 1]), picks[|picks| - 1]);
    }
  }

  // ---- The condition is needed ------------------------------------------------------------------

  lemma {:induction false} BestExists(m: Machine, s: Loads) returns (c: Cpu)
    requires exists d :: m.May(d)
    ensures IsBest(m, s, c)
    decreases |m.cpus|
  {
    var rest, first := m.(cpus := m.cpus[1..]), m.cpus[0];
    assert forall d :: m.May(d) <==> rest.May(d) || (d == first && first.num in m.eligible);
    if d :| rest.May(d) {
      c := BestExists(rest, s);
      if first.num in m.eligible && Compare(s, c, first) > 0 {
        forall e | rest.May(e) ensures Compare(s, first, e) <= 0 {
          CompareIsTotalOrder(s, first, c, e);
        }
        c := first;
        CompareIsTotalOrder(s, c, c, c);
      }
    } else {
      c := first;
      CompareIsTotalOrder(s, c, c, c);
    }
  }

  lemma {:induction false} RunExists(m: Machine, n: nat) returns (picks: seq<Cpu>)
    requires exists d :: m.May(d)
    ensures |picks| == n && IsRun(m, picks)
  {
    if n == 0 {
      picks := [];
    } else {
      hide IsBest, After;
      var before := RunExists(m, n - 1);
      var c := BestExists(m, After(before));
      picks := before + [c];
      assert picks[..n - 1] == before;
      assert forall i | 0 <= i < n - 1 :: picks[..i] == before[..i];
    }
  }

  /** Two rounds over a machine leave every eligible CPU with exactly two workers. */
  lemma {:induction false} TwoEach(m: Machine, s: Loads, a: Cpu)
    requires m.Valid() && Even(m, s) && Unused(m, s.cpu) && m.May(a)
    requires Total(m.cpus, OfMachine, 0, s.cpu) == Count(m.cpus, m.eligible, OfMachine, 0) * 2
    ensures Load(s, a) == 2
  {
    if Load(s, a) < 2 {
      var more := Increment(s.cpu, a.num);
      TotalBumped(m, OfMachine, 0, s.cpu, a);
      UniqueNumber(m, a);
      assert Unused(m, more) && AllAtMost(m, OfMachine, 0, more, 2);
      TotalAtMost(m, OfMachine, 0, more, 2);
    } else if Load(s, a) > 2 {
      var less := s.cpu[a.num := Load(s, a) - 1];
      assert Increment(less, a.num) == s.cpu;
      TotalBumped(m, OfMachine, 0, less, a);
      UniqueNumber(m, a);
      assert AllAtLeast(m, OfMachine, 0, less, 2);
      TotalAtLeast(m, OfMachine, 0, less, 2);
    }
  }

  lemma {:induction false} UniqueNumber(m: Machine, a: Cpu)
    requires m.Valid() && a in m.cpus
    ensures forall c | c in m.cpus && c.num == a.num :: c == a
  {
  }

  lemma {:induction false} UnevenCores(m: Machine, a: Cpu, b: Cpu, picks: seq<Cpu>)
    requires m.Valid() && m.May(a) && m.May(b)
    requires Count(m.cpus, m.eligible, OfCore, a.core) > Count(m.cpus, m.eligible, OfCore, b.core)
    requires IsRun(m, picks) && |picks| == Count(m.cpus, m.eligible, OfMachine, 0) * 2
    ensures CoreLoad(After(picks), a) > CoreLoad(After(picks), b) + 1
  {
    var s := After(picks);
    Balanced(m, picks);
    forall c | m.May(c) ensures Load(s, c) == 2 {
      TwoEach(m, s, c);
    }
    TotalAtLeast(m, OfCore, a.core, s.cpu, 2);
    TotalAtMost(m, OfCore, b.core, s.cpu, 2);
  }

  /** Core loads stay within one of each other in every run exactly when all cores have equally many
      eligible CPUs. */
  lemma {:induction false} CoresBalancedIff(m: Machine)
    requires m.Valid()
    ensures Uniform(m) <==> forall picks | IsRun(m, picks) :: CoresEven(m, After(picks))
  {
    hide IsRun, After;
    if Uniform(m) {
      forall picks | IsRun(m, picks) ensures CoresEven(m, After(picks)) {
        CoresBalanced(m, picks);
      }
    } else {
      var a, b :| m.May(a) && m.May(b) &&
        Count(m.cpus, m.eligible, OfCore, a.core) > Count(m.cpus, m.eligible, OfCore, b.core);
      var picks := RunExists(m, Count(m.cpus, m.eligible, OfMachine, 0) * 2);
      UnevenCores(m, a, b, picks);
      assert !CoresEven(m, After(picks));
    }
  }

  // ---- The allocator --------------------------------------------------------------------------

  class Allocator {
    const machine: Machine
    const enabled: bool
    var loads: Loads
    ghost var picks: seq<Cpu>

    ghost predicate Valid()
      reads this
    {
      machine.Valid() && IsRun(machine, picks) && loads == After(picks)
    }

    constructor (machine: Machine, enabled: bool)
      requires machine.Valid()
      ensures Valid() && this.machine == machine && this.enabled == enabled && picks == []
    {
      this.machine, this.enabled, loads, picks := machine, enabled, NONE, [];
    }

    /** The linear scan; no result stands for the panic when the process may use no CPU. */
    method GetBestCpu() returns (best: Option<Cpu>)
      ensures best.None? <==> forall c :: !machine.May(c)
      ensures best.Some? ==> IsBest(machine, loads, best.value)
    {
      var cpus := machine.cpus;
      var i := 0;
      while i < |cpus| && cpus[i].num !in machine.eligible
        invariant i <= |cpus| && forall j | 0 <= j < i :: cpus[j].num !in machine.eligible
      {
        i := i + 1;
      }
      if i == |cpus| {
        return None;
      }
      var c := cpus[i];
      CompareIsTotalOrder(loads, c, c, c);
      i := i + 1;
      while i < |cpus|
        invariant i <= |cpus| && machine.May(c)
        invariant forall j | 0 <= j < i && cpus[j].num in machine.eligible :: Compare(loads, c, cpus[j]) <= 0
      {
        if cpus[i].num in machine.eligible && Compare(loads, c, cpus[i]) == 1 {
          forall j | 0 <= j < i && cpus[j].num in machine.eligible ensures Compare(loads, cpus[i], cpus[j]) <= 0 {
            CompareIsTotalOrder(loads, cpus[i], c, cpus[j]);
          }
          c := cpus[i];
          CompareIsTotalOrder(loads, c, c, c);
        }
        i := i + 1;
      }
      best := Some(c);
    }

    method UpdateLoads(c: Cpu)
      modifies this`loads
      ensures loads == Bump(old(loads), c)
    {
      loads := loads.(cpu := Increment(loads.cpu, c.num));
      loads := loads.(core := Increment(loads.core, c.core));
      loads := loads.(socket := Increment(loads.socket, c.socket));
      loads := loads.(node := Increment(loads.node, c.node));
    }

    /** Gives the next worker a best CPU and records it; no result stands for the panic. */
    method GetGoodWorkerAffinity() returns (num: Option<int>)
      requires Valid()
      modifies this
      ensures Valid() && Even(machine, loads) && Summed(machine, loads)
      ensures !enabled ==> num == Some(AFFINITY_UNINIT) && picks == old(picks)
      ensures enabled && num.None? ==> picks == old(picks) && forall c :: !machine.May(c)
      ensures enabled && num.Some? ==>
        |picks| == |old(picks)| + 1 && picks[..|old(picks)|] == old(picks) &&
        picks[|old(picks)|].num == num.value && IsBest(machine, old(loads), picks[|old(picks)|])
    {
      hide IsBest, After;
      Balanced(machine, picks);
      if !enabled {
        return Some(AFFINITY_UNINIT);
      }
      var best := GetBestCpu();
      if best.None? {
        return None;
      }
      Recorded(machine, picks, best.value);
      UpdateLoads(best.value);
      picks := picks + [best.value];
      Balanced(machine, picks);
      num := Some(best.value.num);
    }
  }

  lemma {:induction false} Recorded(m: Machine, picks: seq<Cpu>, c: Cpu)
    requires IsRun(m, picks) && IsBest(m, After(picks), c)
    ensures IsRun(m, picks + [c]) && After(picks + [c]) == Bump(After(picks), c)
  {
    hide IsBest;
    var more := picks + [c];
    assert more[..|picks|] == picks;
    assert forall i | 0 <= i < |picks| :: more[..i] == picks[..i];
  }
}
