/** Events and the per-host event queue (src/main/core/work/event.rs, event_queue.rs).

    The queue is a binary heap in the source; only its contents matter, so it is a set here and
    `Pop` takes the unique least event.  No two queued events ever share a key (`WellKeyed`), so a
    set loses nothing.  The two assertions of the source ("time never moves backward") are the
    precondition of `Push` and part of `Valid`. */
module EventQueue {
  import opened Options

  type Time = nat
  type HostId = nat

  /** What a packet event delivers and what a local event runs. */
  type Packet(!new, ==)
  type Task(!new, ==)

  datatype Data =
    | PacketData(packet: Packet, src: HostId, srcEventId: nat)
    | LocalData(task: Task, eventId: nat)

  datatype Event = Event(time: Time, data: Data)

  /** The event order: time, then packets before local events, then source host, then event id. */
  predicate DataBefore(a: Data, b: Data) {
    match (a, b)
    case (PacketData(_, s, i), PacketData(_, t, j)) => s < t || (s == t && i < j)
    case (LocalData(_, i), LocalData(_, j)) => i < j
    case (PacketData(_, _, _), LocalData(_, _)) => true
    case (LocalData(_, _), PacketData(_, _, _)) => false
  }

  predicate Before(e: Event, f: Event) {
    e.time < f.time || (e.time == f.time && DataBefore(e.data, f.data))
  }

  /** Two events the order cannot tell apart, whatever their times. */
  predicate SameKey(a: Data, b: Data) {
    match (a, b)
    case (PacketData(_, s, i), PacketData(_, t, j)) => s == t && i == j
    case (LocalData(_, i), LocalData(_, j)) => i == j
    case _ => false
  }

  /** No two queued events share a key: then `Before` is a strict total order on the queue,
      the heap comparison never panics, and which event is popped does not depend on the heap's shape. */
  predicate WellKeyed(q: set<Event>) {
    forall e, f | e in q && f in q && SameKey(e.data, f.data) :: e == f
  }

  predicate IsLeast(q: set<Event>, e: Event) {
    e in q && forall f | f in q :: f == e || Before(e, f)
  }

  /** Any two queued events compare, one way only. */
  lemma {:induction false} OrderIsTotal(q: set<Event>, e: Event, f: Event)
    requires WellKeyed(q) && e in q && f in q && e != f
    ensures Before(e, f) <==> !Before(f, e)
  {
    assert !SameKey(e.data, f.data);
  }

  lemma {:induction false} LeastExists(q: set<Event>)
    requires WellKeyed(q) && q != {}
    ensures exists m :: IsLeast(q, m)
    decreases |q|
  {
    var e :| e in q;
    var rest := q - {e};
    var m := e;
    if rest != {} {
      LeastExists(rest);
      var r :| IsLeast(rest, r);
      m := if Before(e, r) then e else r;
      forall f | f in q ensures f == m || Before(m, f) {
        assert f == e || f in rest;
        assert r in q && r != e;
      }
    } else {
      forall f | f in q ensures f == e {
        assert f == e || f in rest;
      }
    }
    assert IsLeast(q, m);
  }

  function Least(q: set<Event>): (m: Event)
    requires WellKeyed(q) && q != {}
    ensures IsLeast(q, m)
    ensures forall f | f in q :: m.time <= f.time
  {
    LeastExists(q);
    assert exists w :: IsLeast(q, w);
    var m :| m in q && forall f | f in q :: f == m || Before(m, f);
    m
  }

  lemma {:induction false} LeastUnique(q: set<Event>, m: Event)
    requires WellKeyed(q) && IsLeast(q, m)
    ensures Least(q) == m
  {
    var l := Least(q);
    assert l == m || Before(l, m);
    assert m == l || Before(m, l);
  }

  datatype Queue = Queue(events: set<Event>, lastPopped: Time) {

    predicate Valid() {
      && WellKeyed(events)
      && forall e | e in events :: lastPopped <= e.time
    }

    function Push(e: Event): Queue
      requires lastPopped <= e.time
    {
      this.(events := events + {e})
    }

    function Next(): Option<Time>
      requires WellKeyed(events)
    {
      if events == {} then None else Some(Least(events).time)
    }

    function Pop(): (r: (Event, Queue))
      requires Valid() && events != {}
      ensures r.1.Valid()
      ensures r.0 in events && r.1.events == events - {r.0}
      ensures forall f | f in r.1.events :: Before(r.0, f)
      ensures lastPopped <= r.0.time == r.1.lastPopped
    {
      var e := Least(events);
      PopFacts(events, e);
      (e, Queue(events - {e}, e.time))
    }
  }

  lemma {:induction false} PopFacts(q: set<Event>, e: Event)
    requires WellKeyed(q) && IsLeast(q, e)
    ensures WellKeyed(q - {e})
    ensures forall f | f in q - {e} :: Before(e, f)
  {
  }

  lemma {:induction false} PushTwice(q: Queue, a: Event, b: Event)
    requires q.lastPopped <= a.time && q.lastPopped <= b.time
    ensures q.Push(a).Push(b) == q.Push(b).Push(a)
  {
    assert q.events + {a} + {b} == q.events + {b} + {a};
  }

  /** A fresh key may be added. */
  lemma {:induction false} PushKeepsKeys(q: set<Event>, e: Event)
    requires WellKeyed(q)
    requires forall f | f in q :: !SameKey(e.data, f.data)
    ensures WellKeyed(q + {e})
  {
    assert e !in q;
  }

  /** What is popped is earliest; at one time packets go before local events, packets by source host
      and then by event id, local events by event id. */
  lemma {:induction false} PopOrder(q: Queue, f: Event)
    requires q.Valid() && f in q.events
    ensures var e := q.Pop().0;
            && e.time <= f.time
            && (e.time == f.time && f.data.PacketData? ==>
                  && e.data.PacketData? && e.data.src <= f.data.src
                  && (e.data.src == f.data.src ==> e.data.srcEventId <= f.data.srcEventId))
            && (e.time == f.time && f.data.LocalData? && e.data.LocalData? ==> e.data.eventId <= f.data.eventId)
  {
    var e := q.Pop().0;
    assert e == f || Before(e, f);
  }

  /** Adding an event later than the least one does not change what `Pop` returns. */
  lemma {:induction false} PopIgnoresLater(q: Queue, late: Event)
    requires q.Valid() && q.events != {}
    requires WellKeyed(q.events + {late})
    requires q.Pop().0.time < late.time
    ensures q.Push(late).Valid()
    ensures q.Push(late).Pop() == (q.Pop().0, q.Pop().1.Push(late))
  {
    var e := q.Pop().0;
    var all := q.events + {late};
    assert IsLeast(all, e);
    LeastUnique(all, e);
    assert all - {e} == (q.events - {e}) + {late};
  }
}
