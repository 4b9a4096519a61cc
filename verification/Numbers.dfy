/** Numbers that several modules need. */
module Numbers {

  type Byte = x: int | 0 <= x < 0x100

  function Min(a: nat, b: nat): nat { if a < b then a else b }
  function Max(a: nat, b: nat): nat { if a < b then b else a }

  lemma {:induction false} MinIsLess(a: nat, b: nat)
    ensures Min(a, b) <= a && Min(a, b) <= b
  {
  }

  lemma {:induction false} LeastBelow(s: set<nat>, x: nat)
    requires x in s
    ensures exists t :: t in s && forall u | u in s :: t <= u
    decreases x
  {
    if y :| y in s && y < x {
      LeastBelow(s, y);
    }
  }

  function LeastOf(s: set<nat>): (t: nat)
    requires s != {}
    ensures t in s && forall u | u in s :: t <= u
  {
    assert exists t :: t in s && forall u | u in s :: t <= u by {
      var x :| x in s;
      LeastBelow(s, x);
    }
    var t :| t in s && forall u | u in s :: t <= u;
    t
  }
}
