/** The system call filter and the check in its signal handler (src/lib/shim/shim_seccomp.c). */
module Seccomp {
  import opened Options

  const WORD := 0x1_0000_0000
  const DOUBLE := 0x1_0000_0000_0000_0000

  type Word = x: int | 0 <= x < 0x1_0000_0000
  type Address = x: int | 0 <= x < 0x1_0000_0000_0000_0000

  const RT_SIGRETURN: Word := 15
  const SYSCALL_INSN_SIZE := 2

  function High(a: Address): Word { a / WORD }
  function Low(a: Address): Word { a % WORD }

  /** What the kernel shows a filter; on a little-endian machine the low half comes first. */
  datatype Data = Data(nr: Word, arch: Word, ip: Address, args: nat -> Word)

  function Field(d: Data, offset: nat): Word {
    if offset == 0 then d.nr
    else if offset == 4 then d.arch
    else if offset == 8 then Low(d.ip)
    else if offset == 12 then High(d.ip)
    else d.args(offset)
  }

  // ---- The filter machine ---------------------------------------------------------------------

  datatype Test = Equal | Greater | GreaterOrEqual
  datatype Verdict = Allow | Trap

  datatype Instr =
    | Load(offset: nat)
    | Jump(test: Test, k: Word, whenTrue: nat, whenFalse: nat)
    | Return(verdict: Verdict)

  predicate Holds(test: Test, acc: Word, k: Word) {
    match test
    case Equal => acc == k
    case Greater => acc > k
    case GreaterOrEqual => acc >= k
  }

  /** Runs a program from `pc`; jumps count from the next instruction and only go forward, so every
      run halts. No verdict stands for running off the end. */
  function Run(program: seq<Instr>, d: Data, pc: nat, acc: Word): Option<Verdict>
    decreases |program| - pc
  {
    if pc >= |program| then None
    else
      match program[pc]
      case Load(offset) => Run(program, d, pc + 1, Field(d, offset))
      case Jump(test, k, whenTrue, whenFalse) =>
        Run(program, d, pc + 1 + (if Holds(test, acc, k) then whenTrue else whenFalse), acc)
      case Return(v) => Some(v)
  }

  /** The kernel's own check: all jumps land inside, and the last instruction returns. */
  predicate WellFormed(program: seq<Instr>) {
    && program != []
    && program[|program| - 1].Return?
    && forall i | 0 <= i < |program| && program[i].Jump? ::
         i + 1 + program[i].whenTrue < |program| && i + 1 + program[i].whenFalse < |program|
  }

  /** A well-formed program always reaches a verdict. */
  lemma {:induction false} AlwaysDecides(program: seq<Instr>, d: Data, pc: nat, acc: Word)
    requires WellFormed(program) && pc < |program|
    ensures Run(program, d, pc, acc).Some?
    decreases |program| - pc
  {
    match program[pc]
    case Load(offset) => AlwaysDecides(program, d, pc + 1, Field(d, offset));
    case Jump(test, k, whenTrue, whenFalse) =>
      AlwaysDecides(program, d, pc + 1 + (if Holds(test, acc, k) then whenTrue else whenFalse), acc);
    case Return(_) =>
  }

  // ---- The shim's program ---------------------------------------------------------------------

  const NR := 0
  const IP_LOW := 8
  const IP_HIGH := 12

  function Filter(start: Address, end: Address): seq<Instr> {
    [ Load(NR),
      Jump(Equal, RT_SIGRETURN, 0, 1),
      Return(Allow),

      Load(IP_HIGH),
      Jump(Greater, High(end), 0, 1),
      Return(Trap),

      Load(IP_HIGH),
      Jump(Equal, High(end), 0, 3),
      Load(IP_LOW),
      Jump(GreaterOrEqual, Low(end), 0, 1),
      Return(Trap),

      Load(IP_HIGH),
      Jump(GreaterOrEqual, High(start), 1, 0),
      Return(Trap),

      Load(IP_HIGH),
      Jump(Equal, High(start), 0, 3),
      Load(IP_LOW),
      Jump(GreaterOrEqual, Low(start), 1, 0),
      Return(Trap),

      Return(Allow) ]
  }

  lemma {:induction false} FilterWellFormed(start: Address, end: Address)
    ensures WellFormed(Filter(start, end))
  {
    var p := Filter(start, end);
    assert |p| == 20;
    forall i | 0 <= i < |p| && p[i].Jump?
      ensures i + 1 + p[i].whenTrue < |p| && i + 1 + p[i].whenFalse < |p|
    {
      assert p[19] == Return(Allow) && p[18] == Return(Trap) && p[16] == Load(IP_LOW);
    }
  }

  /** Comparing halves, high before low, compares the whole addresses. */
  lemma {:induction false} HalvesCompare(a: Address, b: Address)
    ensures a < b <==> High(a) < High(b) || (High(a) == High(b) && Low(a) < Low(b))
  {
  }

  lemma {:induction false} StartCheck(start: Address, end: Address, d: Data, acc: Word)
    ensures Run(Filter(start, end), d, 11, acc) == Some(if start <= d.ip then Allow else Trap)
  {
    hide High, Low;
    var p := Filter(start, end);
    var high, low := Field(d, IP_HIGH), Field(d, IP_LOW);
    HalvesCompare(d.ip, start);
    forall w: Word ensures Run(p, d, 18, w) == Some(Trap) && Run(p, d, 19, w) == Some(Allow) { }
    assert Run(p, d, 17, low) == Some(if low >= Low(start) then Allow else Trap);
    assert Run(p, d, 15, high) == if high == High(start) then Run(p, d, 17, low) else Some(Allow) by {
      assert Run(p, d, 16, high) == Run(p, d, 17, low);
    }
    forall w: Word ensures Run(p, d, 13, w) == Some(Trap) && Run(p, d, 14, w) == Run(p, d, 15, high) { }
    assert Run(p, d, 12, high) == if high >= High(start) then Run(p, d, 15, high) else Some(Trap);
  }

  lemma {:induction false} EndCheck(start: Address, end: Address, d: Data, acc: Word)
    ensures Run(Filter(start, end), d, 3, acc) == Some(if start <= d.ip < end then Allow else Trap)
  {
    hide High, Low;
    var p := Filter(start, end);
    var high, low := Field(d, IP_HIGH), Field(d, IP_LOW);
    HalvesCompare(d.ip, end);
    forall w: Word ensures Run(p, d, 11, w) == Some(if start <= d.ip then Allow else Trap) {
      StartCheck(start, end, d, w);
    }
    forall w: Word ensures Run(p, d, 5, w) == Some(Trap) && Run(p, d, 10, w) == Some(Trap) { }
    assert Run(p, d, 9, low) == if low >= Low(end) then Some(Trap) else Run(p, d, 11, low);
    assert Run(p, d, 7, high) == if high == High(end) then Run(p, d, 9, low) else Run(p, d, 11, high) by {
      assert Run(p, d, 8, high) == Run(p, d, 9, low);
    }
    forall w: Word ensures Run(p, d, 6, w) == Run(p, d, 7, high) { }
    assert Run(p, d, 4, high) == if high > High(end) then Some(Trap) else Run(p, d, 7, high);
  }

  /** The filter lets through exactly the signal return and the calls made from the text section. */
  lemma {:induction false} FilterIsExact(start: Address, end: Address, d: Data)
    ensures Run(Filter(start, end), d, 0, 0) ==
            Some(if d.nr == RT_SIGRETURN || start <= d.ip < end then Allow else Trap)
  {
    hide High, Low;
    var p := Filter(start, end);
    EndCheck(start, end, d, d.nr);
    hide Filter;
    FilterFront(start, end);
    assert Run(p, d, 2, d.nr) == Some(Allow);
    assert Run(p, d, 1, d.nr) == if d.nr == RT_SIGRETURN then Some(Allow) else Run(p, d, 3, d.nr);
  }

  lemma {:induction false} FilterFront(start: Address, end: Address)
    ensures |Filter(start, end)| > 2
    ensures Filter(start, end)[0] == Load(NR) && Filter(start, end)[1] == Jump(Equal, RT_SIGRETURN, 0, 1) &&
            Filter(start, end)[2] == Return(Allow)
  {
  }

  // ---- The handler --------------------------------------------------------------------------------

  /** The instruction address a signal handler sees: past the system call instruction. */
  function Resumed(ip: Address): Address {
    (ip + SYSCALL_INSN_SIZE) % DOUBLE
  }

  /** The handler panics if the trapped instruction lies in the text section. */
  predicate HandlerPanics(start: Address, end: Address, rip: Address) {
    var insn := (rip - SYSCALL_INSN_SIZE) % DOUBLE;
    start <= insn < end
  }

  /** No trapped call makes the handler panic, wherever it was made from. */
  lemma {:induction false} HandlerNeverPanics(start: Address, end: Address, d: Data)
    requires Run(Filter(start, end), d, 0, 0) == Some(Trap)
    ensures !HandlerPanics(start, end, Resumed(d.ip))
  {
    hide Run, Filter;
    FilterIsExact(start, end, d);
    assert (Resumed(d.ip) - SYSCALL_INSN_SIZE) % DOUBLE == d.ip;
  }
}
