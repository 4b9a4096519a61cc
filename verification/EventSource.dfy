/** Event sources and the handles of their listeners (src/main/utility/callback_queue.rs). */
module EventSource {
  import opened Options

  const IDS := 0x1_0000_0000

  type Id = x: int | 0 <= x < 0x1_0000_0000

  type Callback(==, !new)

  datatype Entry = Entry(id: Id, notify: Callback)

  function Ids(listeners: seq<Entry>): set<Id> {
    set e | e in listeners :: e.id
  }

  /** The id tried after `i` others, counting up from `next` and wrapping around. */
  function At(next: Id, i: nat): Id {
    (next + i) % IDS
  }

  // ---- The search for an unused id ends ---------------------------------------------------------

  function Tried(next: Id, n: nat): set<Id> {
    if n == 0 then {} else Tried(next, n - 1) + {At(next, n - 1)}
  }

  lemma {:induction false} AtDistinct(next: Id, i: nat, j: nat)
    requires i < j < IDS
    ensures At(next, i) != At(next, j)
  {
    var a, b := next + i, next + j;
    assert a == a / IDS * IDS + a % IDS && b == b / IDS * IDS + b % IDS;
  }

  lemma {:induction false} AtNext(next: Id, i: nat)
    ensures At(next, 0) == next && (At(next, i) + 1) % IDS == At(next, i + 1)
  {
  }

  lemma {:induction false} TriedSize(next: Id, n: nat)
    requires n <= IDS
    ensures |Tried(next, n)| == n && forall x :: x in Tried(next, n) <==> exists i | 0 <= i < n :: At(next, i) == x
  {
    hide At;
    if n > 0 {
      TriedSize(next, n - 1);
      if At(next, n - 1) in Tried(next, n - 1) {
        var i :| 0 <= i < n - 1 && At(next, i) == At(next, n - 1);
        AtDistinct(next, i, n - 1);
      }
    }
  }

  lemma {:induction false} IdsAtMost(listeners: seq<Entry>)
    ensures |Ids(listeners)| <= |listeners|
    ensures Distinct(listeners) ==> |Ids(listeners)| == |listeners|
  {
    if listeners != [] {
      var rest := listeners[1..];
      IdsAtMost(rest);
      assert listeners == [listeners[0]] + rest;
      assert Ids(listeners) == Ids(rest) + {listeners[0].id};
    }
  }

  ghost predicate Distinct(listeners: seq<Entry>) {
    forall i, j | 0 <= i < j < |listeners| :: listeners[i].id != listeners[j].id
  }

  lemma {:induction false} SubsetSmaller(a: set<Id>, b: set<Id>)
    requires a <= b
    ensures |a| <= |b|
  {
    if a != {} {
      var x :| x in a;
      SubsetSmaller(a - {x}, b - {x});
    }
  }

  /** With fewer listeners than ids, one of the next |listeners| + 1 tries hits an unused id, also
      across the wrap-around. */
  lemma {:induction false} UnusedIdSoon(listeners: seq<Entry>, next: Id) returns (i: nat)
    requires |listeners| < IDS
    ensures i <= |listeners| && At(next, i) !in Ids(listeners)
  {
    var n := |listeners| + 1;
    TriedSize(next, n);
    IdsAtMost(listeners);
    if Tried(next, n) <= Ids(listeners) {
      SubsetSmaller(Tried(next, n), Ids(listeners));
    }
    var x :| x in Tried(next, n) && x !in Ids(listeners);
    i :| 0 <= i < n && At(next, i) == x;
  }

  lemma {:induction false} EveryIdTried(y: Id)
    ensures y in Tried(0, IDS)
  {
    hide Tried;
    TriedSize(0, IDS);
    assert At(0, y) == y;
    hide At;
  }

  lemma {:induction false} AllUsed(listeners: seq<Entry>, x: Id)
    requires Distinct(listeners) && |listeners| >= IDS
    ensures x in Ids(listeners)
  {
    hide Tried, Distinct, Ids;
    IdsAtMost(listeners);
    TriedSize(0, IDS);
    forall y: Id ensures y in Tried(0, IDS) {
      EveryIdTried(y);
    }
    SubsetSmaller(Ids(listeners) + {x}, Tried(0, IDS));
  }

  /** The search ends exactly when fewer than 2^32 listeners are registered. */
  lemma {:induction false} SearchEndsIff(listeners: seq<Entry>, next: Id)
    requires Distinct(listeners)
    ensures (exists i: nat :: At(next, i) !in Ids(listeners)) <==> |listeners| < IDS
  {
    hide At, Ids, Distinct;
    if |listeners| < IDS {
      var i := UnusedIdSoon(listeners, next);
      assert At(next, i) !in Ids(listeners);
    } else {
      forall i: nat ensures At(next, i) in Ids(listeners) {
        AllUsed(listeners, At(next, i));
      }
    }
  }

  /** How many used ids the search skips, having skipped `k`. */
  function Skipped(used: set<Id>, next: Id, k: nat): (n: nat)
    requires exists i :: k <= i < IDS && At(next, i) !in used
    ensures k <= n < IDS && At(next, n) !in used && forall i | k <= i < n :: At(next, i) in used
    decreases IDS - k
  {
    if At(next, k) !in used then k else Skipped(used, next, k + 1)
  }

  // ---- Runs -----------------------------------------------------------------------------------

  /** A source and the live handles, oldest first. */
  datatype State = State(listeners: seq<Entry>, next: Id, handles: seq<Id>)

  datatype Op = Add(notify: Callback) | Drop(which: nat)

  predicate Possible(s: State, op: Op) {
    match op
    case Add(_) => |s.listeners| < IDS
    case Drop(k) => k < |s.handles|
  }

  /** The first position whose entry has the id; the length if there is none. */
  function Position(listeners: seq<Entry>, id: Id): (n: nat)
    ensures n <= |listeners| && (n < |listeners| ==> listeners[n].id == id)
    ensures forall i | 0 <= i < n :: listeners[i].id != id
  {
    if listeners == [] || listeners[0].id == id then 0 else 1 + Position(listeners[1..], id)
  }

  function Without<T>(s: seq<T>, k: nat): seq<T>
    requires k < |s|
  {
    s[..k] + s[k + 1..]
  }

  /** No result stands for the `unwrap` of a missing position. */
  datatype Outcome = Done(state: State) | Panic

  function Step(s: State, op: Op): Outcome
    requires Possible(s, op)
  {
    match op
    case Add(f) =>
      UnusedExists(s.listeners, s.next);
      var n := Skipped(Ids(s.listeners), s.next, 0);
      var id := At(s.next, n);
      Done(State(s.listeners + [Entry(id, f)], At(s.next, n + 1), s.handles + [id]))
    case Drop(k) =>
      var p := Position(s.listeners, s.handles[k]);
      if p == |s.listeners| then Panic
      else Done(State(Without(s.listeners, p), s.next, Without(s.handles, k)))
  }

  lemma {:induction false} UnusedExists(listeners: seq<Entry>, next: Id)
    requires |listeners| < IDS
    ensures exists i :: 0 <= i < IDS && At(next, i) !in Ids(listeners)
  {
    var i := UnusedIdSoon(listeners, next);
    assert 0 <= i < IDS && At(next, i) !in Ids(listeners);
  }

  /** Live ids are distinct, and the live handles are those of the listeners, in order. */
  ghost predicate Ok(s: State) {
    && Distinct(s.listeners)
    && |s.handles| == |s.listeners|
    && forall i | 0 <= i < |s.listeners| :: s.handles[i] == s.listeners[i].id
  }

  function Callbacks(s: State): seq<Callback> {
    seq(|s.listeners|, i requires 0 <= i < |s.listeners| => s.listeners[i].notify)
  }

  /** What the operation means for the list of callbacks that are notified, oldest first. */
  function Meant(live: seq<Callback>, op: Op): seq<Callback>
    requires op.Drop? ==> op.which < |live|
  {
    match op
    case Add(f) => live + [f]
    case Drop(k) => Without(live, k)
  }

  lemma {:induction false} HandlesAreIds(s: State)
    requires Ok(s)
    ensures forall h | h in s.handles :: h in Ids(s.listeners)
    ensures forall i | 0 <= i < |s.listeners| :: s.listeners[i].id in Ids(s.listeners)
  {
    forall i | 0 <= i < |s.listeners| ensures s.handles[i] in Ids(s.listeners) {
      assert s.listeners[i] in s.listeners;
    }
  }

  lemma {:induction false} AddIsMeant(s: State, f: Callback)
    requires Ok(s) && Possible(s, Add(f))
    ensures Step(s, Add(f)).Done? && Ok(Step(s, Add(f)).state)
    ensures Callbacks(Step(s, Add(f)).state) == Callbacks(s) + [f]
  {
    hide Ids;
    UnusedExists(s.listeners, s.next);
    HandlesAreIds(s);
    hide Skipped;
  }

  lemma {:induction false} DropIsMeant(s: State, k: nat)
    requires Ok(s) && Possible(s, Drop(k))
    ensures Step(s, Drop(k)).Done? && Ok(Step(s, Drop(k)).state)
    ensures Callbacks(Step(s, Drop(k)).state) == Without(Callbacks(s), k)
  {
    hide Ids, Skipped;
    assert s.listeners[k].id == s.handles[k];
    assert Position(s.listeners, s.handles[k]) == k;
    hide Position;
  }

  /** Each step keeps the handles matched, never panics, and registers or removes exactly the
      callback that was meant. */
  lemma {:induction false} StepIsMeant(s: State, op: Op)
    requires Ok(s) && Possible(s, op)
    ensures Step(s, op).Done? && Ok(Step(s, op).state)
    ensures op.Drop? ==> op.which < |Callbacks(s)|
    ensures Callbacks(Step(s, op).state) == Meant(Callbacks(s), op)
  {
    LiveCount(s);
    hide Step, Callbacks;
    match op
    case Add(f) => AddIsMeant(s, f);
    case Drop(k) => DropIsMeant(s, k);
  }

  ghost predicate AllPossible(s: State, ops: seq<Op>)
    decreases |ops|
  {
    ops != [] ==> Possible(s, ops[0]) && (Step(s, ops[0]).Done? ==> AllPossible(Step(s, ops[0]).state, ops[1..]))
  }

  ghost function Run(s: State, ops: seq<Op>): Outcome
    requires AllPossible(s, ops)
    decreases |ops|
  {
    if ops == [] then Done(s)
    else if Step(s, ops[0]).Panic? then Panic
    else Run(Step(s, ops[0]).state, ops[1..])
  }

  ghost function AllMeant(live: seq<Callback>, ops: seq<Op>): Option<seq<Callback>>
    decreases |ops|
  {
    if ops == [] then Some(live)
    else if ops[0].Drop? && ops[0].which >= |live| then None
    else AllMeant(Meant(live, ops[0]), ops[1..])
  }

  /** Over every run, through any number of wrap-arounds, dropping a handle removes the listener it
      was created with and no other, and the `unwrap` never fails. */
  lemma {:induction false} RunIsMeant(s: State, ops: seq<Op>)
    requires Ok(s) && AllPossible(s, ops)
    ensures Run(s, ops).Done? && Ok(Run(s, ops).state)
    ensures AllMeant(Callbacks(s), ops) == Some(Callbacks(Run(s, ops).state))
    decreases |ops|
  {
    hide Step, Callbacks, Meant;
    if ops != [] {
      StepIsMeant(s, ops[0]);
      LiveCount(s);
      RunIsMeant(Step(s, ops[0]).state, ops[1..]);
    }
  }

  lemma {:induction false} LiveCount(s: State)
    ensures |Callbacks(s)| == |s.listeners|
  {
  }

  // ---- Ids are not reused early -----------------------------------------------------------------

  /** How many ids an operation tries. */
  function Tries(s: State, op: Op): nat
    requires Possible(s, op)
  {
    if op.Drop? then 0
    else
      UnusedExists(s.listeners, s.next);
      Skipped(Ids(s.listeners), s.next, 0) + 1
  }

  ghost function AllTries(s: State, ops: seq<Op>): nat
    requires AllPossible(s, ops)
    decreases |ops|
  {
    if ops == [] || Step(s, ops[0]).Panic? then 0
    else Tries(s, ops[0]) + AllTries(Step(s, ops[0]).state, ops[1..])
  }

  /** The ids handed out along a run, whether or not their handles are dropped later. */
  ghost function Given(s: State, ops: seq<Op>): seq<Id>
    requires AllPossible(s, ops)
    decreases |ops|
  {
    if ops == [] || Step(s, ops[0]).Panic? then []
    else
      var r := Step(s, ops[0]).state;
      (if ops[0].Add? then [r.handles[|r.handles| - 1]] else []) + Given(r, ops[1..])
  }

  /** `ids` are found at ever later places when counting up from `next`, all before `n` ids are tried. */
  ghost predicate InSequence(next: Id, ids: seq<Id>, n: nat)
    decreases |ids|
  {
    ids == [] || exists i: nat :: i < n && At(next, i) == ids[0] && InSequence(At(next, i + 1), ids[1..], n - i - 1)
  }

  lemma {:induction false} AtSum(next: Id, i: nat, j: nat)
    ensures At(At(next, i), j) == At(next, i + j)
  {
    var a := next + i;
    assert a == a / IDS * IDS + a % IDS;
    assert next + i + j == a / IDS * IDS + (a % IDS + j);
    ModShift(a / IDS, a % IDS + j);
  }

  lemma {:induction false} ModShift(k: nat, x: nat)
    ensures (k * IDS + x) % IDS == x % IDS
  {
    var y := k * IDS + x;
    assert x == x / IDS * IDS + x % IDS;
    assert y == (k + x / IDS) * IDS + x % IDS;
  }

  lemma {:induction false} GivenInSequence(s: State, ops: seq<Op>)
    requires Ok(s) && AllPossible(s, ops)
    ensures InSequence(s.next, Given(s, ops), AllTries(s, ops))
    decreases |ops|
  {
    hide Step, Tries, Skipped, Ids, Ok, At, Possible;
    if ops != [] {
      StepIsMeant(s, ops[0]);
      StepNext(s, ops[0]);
      var r := Step(s, ops[0]).state;
      GivenInSequence(r, ops[1..]);
      var ids, rest, n := Given(s, ops), Given(r, ops[1..]), Tries(s, ops[0]);
      if ops[0].Add? {
        assert ids[0] == At(s.next, n - 1) && ids[1..] == rest;
      } else {
        assert ids == rest;
      }
    }
  }

  /** The next id to try comes after the ids tried, of which the last is handed out. */
  lemma {:induction false} StepNext(s: State, op: Op)
    requires Possible(s, op) && Step(s, op).Done?
    ensures var r, n := Step(s, op).state, Tries(s, op);
            if op.Drop? then r.next == s.next && n == 0
            else n > 0 && r.next == At(s.next, n) && r.handles != [] && r.handles[|r.handles| - 1] == At(s.next, n - 1)
  {
    hide Skipped, Ids, At;
  }

  lemma {:induction false} InSequenceAt(next: Id, ids: seq<Id>, n: nat, k: nat) returns (i: nat)
    requires InSequence(next, ids, n) && k < |ids|
    ensures i < n && At(next, i) == ids[k]
    decreases k
  {
    i :| i < n && At(next, i) == ids[0] && InSequence(At(next, i + 1), ids[1..], n - i - 1);
    if k > 0 {
      var j := InSequenceAt(At(next, i + 1), ids[1..], n - i - 1, k - 1);
      AtSum(next, i + 1, j);
      i := i + 1 + j;
    }
  }

  lemma {:induction false} SequenceDistinct(next: Id, ids: seq<Id>, n: nat, j: nat, k: nat)
    requires InSequence(next, ids, n) && n <= IDS && j < k < |ids|
    ensures ids[j] != ids[k]
    decreases j
  {
    var i: nat :| i < n && At(next, i) == ids[0] && InSequence(At(next, i + 1), ids[1..], n - i - 1);
    if j > 0 {
      SequenceDistinct(At(next, i + 1), ids[1..], n - i - 1, j - 1, k - 1);
    } else {
      var m := InSequenceAt(At(next, i + 1), ids[1..], n - i - 1, k - 1);
      AtSum(next, i + 1, m);
      AtDistinct(next, i, i + 1 + m);
    }
  }

  /** Over every run that does not try all ids, no id is handed out twice, even if its first handle has
      long been dropped. */
  lemma {:induction false} IdsNotReused(s: State, ops: seq<Op>)
    requires Ok(s) && AllPossible(s, ops) && AllTries(s, ops) <= IDS
    ensures var ids := Given(s, ops); forall j, k | 0 <= j < k < |ids| :: ids[j] != ids[k]
  {
    var ids := Given(s, ops);
    GivenInSequence(s, ops);
    forall j, k | 0 <= j < k < |ids| ensures ids[j] != ids[k] {
      SequenceDistinct(s.next, ids, AllTries(s, ops), j, k);
    }
  }

  // ---- The source object ----------------------------------------------------------------------

  class Source {
    var listeners: seq<Entry>
    var nextId: Id
    ghost var handles: seq<Id>

    ghost function View(): State
      reads this
    {
      State(listeners, nextId, handles)
    }

    constructor ()
      ensures View() == State([], 0, []) && Ok(View())
    {
      listeners, nextId, handles := [], 0, [];
    }

    /** The loop over candidate ids; `tries` counts its iterations. */
    method GetUnusedId() returns (id: Id, ghost tries: nat)
      requires |listeners| < IDS
      modifies this`nextId
      ensures 1 <= tries <= |listeners| + 1 && id !in Ids(listeners)
      ensures id == At(old(nextId), tries - 1) && nextId == At(old(nextId), tries)
      ensures forall i | 0 <= i < tries - 1 :: At(old(nextId), i) in Ids(listeners)
    {
      ghost var last := UnusedIdSoon(listeners, nextId);
      AtNext(nextId, 0);
      hide At, Ids;
      tries := 0;
      id := nextId;
      while true
        invariant tries <= last && nextId == At(old(nextId), tries)
        invariant forall i | 0 <= i < tries :: At(old(nextId), i) in Ids(listeners)
        decreases last - tries
      {
        id := nextId;
        AtNext(old(nextId), tries);
        nextId := (nextId + 1) % IDS;
        tries := tries + 1;
        var used := IsUsed(id);
        if !used {
          break;
        }
        assert tries - 1 != last;
      }
    }

    method IsUsed(id: Id) returns (used: bool)
      ensures used <==> id in Ids(listeners)
    {
      var i := 0;
      while i < |listeners|
        invariant i <= |listeners| && forall j | 0 <= j < i :: listeners[j].id != id
      {
        if listeners[i].id == id {
          assert listeners[i] in listeners;
          return true;
        }
        i := i + 1;
      }
      used := false;
    }

    method AddListener(notify: Callback) returns (handle: Id)
      requires Ok(View()) && |listeners| < IDS
      modifies this
      ensures Ok(View()) && Step(old(View()), Add(notify)) == Done(View())
      ensures handle !in old(handles) && handles == old(handles) + [handle]
    {
      hide Ok;
      StepIsMeant(View(), Add(notify));
      NewHandle(View(), notify);
      ghost var tries;
      handle, tries := GetUnusedId();
      FirstUnused(Ids(listeners), old(nextId), tries - 1);
      listeners := listeners + [Entry(handle, notify)];
      handles := handles + [handle];
    }

    /** Dropping the `k`th live handle, whose id is `id`. */
    method DropHandle(id: Id, ghost k: nat)
      requires Ok(View()) && k < |handles| && handles[k] == id
      modifies this
      ensures Ok(View()) && Step(old(View()), Drop(k)) == Done(View())
    {
      StepIsMeant(View(), Drop(k));
      hide Ok, Callbacks, Meant;
      var i := 0;
      while i < |listeners| && listeners[i].id != id
        invariant i <= |listeners| && i <= Position(listeners, id)
      {
        i := i + 1;
      }
      listeners := listeners[..i] + listeners[i + 1..];
      handles := handles[..k] + handles[k + 1..];
    }
  }

  lemma {:induction false} FirstUnused(used: set<Id>, next: Id, n: nat)
    requires n < IDS && At(next, n) !in used && forall i | 0 <= i < n :: At(next, i) in used
    ensures Skipped(used, next, 0) == n
  {
  }

  lemma {:induction false} NewHandle(s: State, f: Callback)
    requires Ok(s) && Possible(s, Add(f))
    ensures Step(s, Add(f)).state.handles[|s.handles|] !in s.handles
  {
    UnusedExists(s.listeners, s.next);
    HandlesAreIds(s);
  }
}
