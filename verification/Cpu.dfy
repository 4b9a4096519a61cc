/** The simulated CPU of a host (src/main/host/cpu.rs). */
module Cpu {
  import opened EventQueue
  import opened Options

  /** Nanoseconds from the Unix epoch to 1 January 2000, where emulated time starts. */
  const SIMULATION_START: Time := 946684800 * 1_000_000_000

  /** The fixed parameters: frequencies in Hz, reporting threshold, rounding granularity. */
  datatype Params = Params(simulatedFrequency: nat, nativeFrequency: nat, threshold: Option<nat>, precision: Option<nat>) {
    predicate Valid() {
      simulatedFrequency > 0 && (precision.Some? ==> precision.value > 0)
    }
  }

  datatype State = State(params: Params, now: Time, available: Time)

  function Init(p: Params): State {
    State(p, 0, 0)
  }

  function UpdateTime(c: State, now: Time): State {
    c.(now := now)
  }

  /** Native nanoseconds expressed in nanoseconds of the simulated CPU. */
  function Normalize(p: Params, native: nat): nat
    requires p.Valid()
  {
    native * p.nativeFrequency / p.simulatedFrequency
  }

  function Round(precision: Option<nat>, x: nat): nat
    requires precision.Some? ==> precision.value > 0
  {
    if precision.None? then x
    else
      var p := precision.value;
      var remainder := x % p;
      var down := x - remainder;
      if remainder >= p / 2 then down + p else down
  }

  function AddDelay(c: State, native: nat): State
    requires c.params.Valid()
  {
    c.(available := c.available + Round(c.params.precision, Normalize(c.params, native)))
  }

  function Delay(c: State): nat {
    if c.params.threshold.None? || c.available < c.now then 0
    else if c.available - c.now > c.params.threshold.value then c.available - c.now
    else 0
  }

  function Abs(x: int): nat {
    if x < 0 then -x else x
  }

  /** The simulated CPU's time is the largest that fits: its cycles are no more than the native ones,
      and one nanosecond more would be too many. */
  lemma {:induction false} NormalizedTime(p: Params, native: nat)
    requires p.Valid()
    ensures var n := Normalize(p, native);
            n * p.simulatedFrequency <= native * p.nativeFrequency < (n + 1) * p.simulatedFrequency
  {
    var cycles, f := native * p.nativeFrequency, p.simulatedFrequency;
    assert cycles == cycles / f * f + cycles % f;
    OneMore(cycles / f, f);
  }

  // ---- Rounding ---------------------------------------------------------------------------

  /** Rounding lands on a multiple of the precision and is off by at most half of it, rounded up. */
  lemma {:induction false} RoundError(p: nat, x: nat)
    requires p > 0
    ensures Round(Some(p), x) % p == 0
    ensures Abs(Round(Some(p), x) - x) <= (p + 1) / 2
  {
    var k := x / p;
    assert x == k * p + x % p;
    assert Round(Some(p), x) == k * p || Round(Some(p), x) == (k + 1) * p by {
      assert (k + 1) * p == k * p + p;
    }
    MultipleMod(k, p);
    MultipleMod(k + 1, p);
  }

  lemma {:induction false} MultipleMod(k: nat, p: nat)
    requires p > 0
    ensures k * p % p == 0
  {
    if k > 0 {
      MultipleMod(k - 1, p);
      assert k * p == (k - 1) * p + p;
      ModAddSelf((k - 1) * p, p);
    }
  }

  lemma {:induction false} ModAddSelf(a: nat, p: nat)
    requires p > 0
    ensures (a + p) % p == a % p
  {
    var q, r := a / p, a % p;
    assert a + p == (q + 1) * p + r;
    DivModUnique(a + p, p, q + 1, r);
  }

  lemma {:induction false} DivModUnique(a: nat, p: nat, q: nat, r: nat)
    requires p > 0 && a == q * p + r && r < p
    ensures a / p == q && a % p == r
  {
    var q' := a / p;
    assert a == q' * p + a % p;
    MulMonotone(q' + 1, q, p);
    MulMonotone(q + 1, q', p);
    assert (q' + 1) * p == q' * p + p;
    assert (q + 1) * p == q * p + p;
  }

  /** The documented "nearest, rounding up at midpoint" holds exactly when the precision is even or
      the remainder is not `precision / 2`: for an odd precision that remainder lies below the
      midpoint and is still rounded up. */
  lemma {:induction false} RoundNearestIff(p: nat, x: nat)
    requires p > 0
    ensures (forall k: nat :: Abs(Round(Some(p), x) - x) <= Abs(k * p - x))
        <==> (p % 2 == 0 || x % p != p / 2)
  {
    hide Round, Abs;
    if p % 2 == 0 || x % p != p / 2 {
      forall k: nat ensures Abs(Round(Some(p), x) - x) <= Abs(k * p - x) {
        NearestOtherwise(p, x, k);
      }
    } else {
      FartherAtHalf(p, x);
    }
  }

  lemma {:induction false} NearestOtherwise(p: nat, x: nat, k: nat)
    requires p > 0 && (p % 2 == 0 || x % p != p / 2)
    ensures Abs(Round(Some(p), x) - x) <= Abs(k * p - x)
  {
    hide Round, Abs;
    NearestAgainst(p, x, k);
  }

  lemma {:induction false} FartherAtHalf(p: nat, x: nat)
    requires p > 0 && p % 2 == 1 && x % p == p / 2
    ensures Abs(Round(Some(p), x) - x) > Abs((x / p) * p - x)
  {
    hide Round, Abs;
    NearestAgainst(p, x, x / p);
  }

  /** How far any multiple of `p` is from `x`, against how far the rounded value is. */
  lemma {:induction false} NearestAgainst(p: nat, x: nat, k: nat)
    requires p > 0
    ensures k <= x / p ==> Abs(k * p - x) >= x % p
    ensures k > x / p ==> Abs(k * p - x) >= p - x % p
    ensures Abs((x / p) * p - x) == x % p
    ensures Abs(Round(Some(p), x) - x) == if x % p >= p / 2 then p - x % p else x % p
  {
    var q := x / p;
    assert x == q * p + x % p;
    MulMonotone(k, q, p);
    MulMonotone(q + 1, k, p);
    assert (q + 1) * p == q * p + p;
  }

  lemma {:induction false} MulMonotone(a: nat, b: nat, p: nat)
    ensures a <= b ==> a * p <= b * p
  {
  }

  // ---- Histories --------------------------------------------------------------------------

  datatype Op = Add(native: nat) | Update(now: Time)

  function Run(c: State, ops: seq<Op>): State
    requires c.params.Valid()
  {
    if ops == [] then c
    else
      var before := Run(c, ops[..|ops| - 1]);
      match ops[|ops| - 1]
      case Add(d) => if before.params.Valid() then AddDelay(before, d) else before
      case Update(t) => UpdateTime(before, t)
  }

  /** The exact simulated CPU time used by a history, without rounding. */
  function Used(p: Params, ops: seq<Op>): nat
    requires p.Valid()
  {
    if ops == [] then 0
    else
      var last := ops[|ops| - 1];
      Used(p, ops[..|ops| - 1]) + if last.Add? then Normalize(p, last.native) else 0
  }

  function Adds(ops: seq<Op>): nat {
    if ops == [] then 0 else Adds(ops[..|ops| - 1]) + if ops[|ops| - 1].Add? then 1 else 0
  }

  function LastUpdate(ops: seq<Op>): Time {
    if ops == [] then 0
    else if ops[|ops| - 1].Update? then ops[|ops| - 1].now
    else LastUpdate(ops[..|ops| - 1])
  }

  lemma {:induction false} OneMore(n: nat, k: nat)
    ensures (n + 1) * k == n * k + k
  {
  }

  /** Over any history, n charged delays leave the CPU's availability off by at most
      n * ceil(precision / 2), and exact when no precision is set. */
  lemma {:induction false} AccumulatedRounding(p: Params, ops: seq<Op>)
    requires p.Valid()
    ensures Run(Init(p), ops).params == p
    ensures Run(Init(p), ops).now == LastUpdate(ops)
    ensures p.precision.None? ==> Run(Init(p), ops).available == Used(p, ops)
    ensures p.precision.Some? ==>
              Abs(Run(Init(p), ops).available - Used(p, ops)) <= Adds(ops) * ((p.precision.value + 1) / 2)
  {
    hide Normalize;
    if ops != [] {
      var init, last := ops[..|ops| - 1], ops[|ops| - 1];
      AccumulatedRounding(p, init);
      if last.Add? && p.precision.Some? {
        RoundError(p.precision.value, Normalize(p, last.native));
        OneMore(Adds(init), (p.precision.value + 1) / 2);
        hide Round;
      }
    }
  }

  /** The CPU time charged by a history: every charge is rounded by itself. */
  function Charged(p: Params, ops: seq<Op>): nat
    requires p.Valid()
  {
    if ops == [] then 0
    else
      var last := ops[|ops| - 1];
      Charged(p, ops[..|ops| - 1]) + if last.Add? then Round(p.precision, Normalize(p, last.native)) else 0
  }

  lemma {:induction false} ChargedExactly(p: Params, ops: seq<Op>)
    requires p.Valid()
    ensures Run(Init(p), ops) == State(p, LastUpdate(ops), Charged(p, ops))
  {
    hide Normalize, Round;
    if ops != [] {
      ChargedExactly(p, ops[..|ops| - 1]);
    }
  }

  /** Availability is only ever increased from zero and never pulled up to `now`, so an idle CPU
      banks its idle time: a delay is reported exactly when the CPU time charged since the start
      of the run exceeds the absolute emulated time by more than the threshold. */
  lemma {:induction false} DelayIff(p: Params, ops: seq<Op>)
    requires p.Valid()
    ensures Delay(Run(Init(p), ops)) > 0 <==>
              p.threshold.Some? && Charged(p, ops) > LastUpdate(ops) + p.threshold.value
    ensures Delay(Run(Init(p), ops)) > 0 ==> Delay(Run(Init(p), ops)) == Charged(p, ops) - LastUpdate(ops)
  {
    ChargedExactly(p, ops);
  }

  /** Hence, with emulated time starting in the year 2000, no delay is reported before about
      thirty years of simulated CPU time have been charged. */
  lemma {:induction false} NoDelayForThirtyYears(p: Params, ops: seq<Op>)
    requires p.Valid() && LastUpdate(ops) >= SIMULATION_START
    requires Charged(p, ops) <= SIMULATION_START
    ensures Delay(Run(Init(p), ops)) == 0
  {
    DelayIff(p, ops);
  }

  /** Rounding alone can make the difference: 100 ns of use, rounded up to 200, delay at 150. */
  lemma {:induction false} RoundingAloneDelays()
    ensures var p := Params(1, 1, Some(0), Some(200));
            var ops := [Add(100), Update(150)];
            Used(p, ops) == 100 < LastUpdate(ops) && Delay(Run(Init(p), ops)) == 50
  {
    var p := Params(1, 1, Some(0), Some(200));
    var ops := [Add(100), Update(150)];
    assert ops[..1] == [Add(100)] && ops[..1][..0] == [];
    assert Charged(p, ops[..1]) == 200 && Used(p, ops[..1]) == 100;
    DelayIff(p, ops);
  }

  /** Without a threshold no delay is ever reported. */
  lemma {:induction false} NoThresholdNoDelay(c: State)
    requires c.params.threshold.None?
    ensures Delay(c) == 0
  {
  }

  /** The CPU object; `ops` records what was done to it. */
  class SimulatedCpu {
    const params: Params
    var now: Time
    var available: Time
    ghost var ops: seq<Op>

    ghost predicate Valid()
      reads this
    {
      params.Valid() && now == LastUpdate(ops) && available == Charged(params, ops)
    }

    constructor (p: Params)
      requires p.Valid()
      ensures Valid() && params == p && ops == []
    {
      params, now, available, ops := p, 0, 0, [];
    }

    method UpdateTo(t: Time)
      requires Valid()
      modifies this
      ensures Valid() && ops == old(ops) + [Update(t)]
    {
      now := t;
      ops := ops + [Update(t)];
    }

    method Charge(native: nat)
      requires Valid()
      modifies this
      ensures Valid() && ops == old(ops) + [Add(native)]
    {
      var cycles := native * params.nativeFrequency;
      var adjusted := cycles / params.simulatedFrequency;
      assert adjusted == Normalize(params, native);
      hide Normalize;
      if params.precision.Some? {
        var precision := params.precision.value;
        var remainder := adjusted % precision;
        adjusted := adjusted - remainder;
        if remainder >= precision / 2 {
          adjusted := adjusted + precision;
        }
      }
      assert adjusted == Round(params.precision, Normalize(params, native));
      hide Round;
      available := available + adjusted;
      ops := ops + [Add(native)];
    }

    /** A delay is reported exactly when more is charged than the time that has passed since the
        epoch, by more than the threshold. */
    method CurrentDelay() returns (delay: nat)
      requires Valid()
      ensures delay > 0 <==> params.threshold.Some? && Charged(params, ops) > LastUpdate(ops) + params.threshold.value
      ensures delay > 0 ==> delay == Charged(params, ops) - LastUpdate(ops)
      ensures delay == Delay(Run(Init(params), ops))
    {
      ChargedExactly(params, ops);
      if params.threshold.None? || available < now {
        return 0;
      }
      var built := available - now;
      delay := if built > params.threshold.value then built else 0;
    }
  }
}
