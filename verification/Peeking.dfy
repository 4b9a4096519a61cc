/** When peek and pop agree, for any writer (src/main/utility/byte_queue.rs:188-276 and 308-405). */
module Peeking {
  import opened ByteQueue
  import opened Numbers

  /** Peek gives the writer the same bytes and returns the same tuple as pop. */
  predicate Agrees(chunks: seq<Chunk>, w: Writer) {
    var (_, v, p) := Pop(chunks, w);
    var (u, q) := Peek(chunks, w);
    u.out == v.out && q == p
  }

  /** After a refusal the writer only refuses, in a way that does not become an error: nothing but
      interruptions, zero-byte writes and, once bytes have been copied, `WouldBlock`. */
  predicate Quiet(replies: seq<Reply>, started: bool)
    decreases |replies|
  {
    replies == [] ||
      match replies[0]
      case Interrupt => Quiet(replies[1..], started)
      case Block => started && Quiet(replies[1..], started)
      case Accept(n) => n == 0 && Quiet(replies[1..], started)
      case Fail => false
  }

  /** The writer is quiet from its first refusal on; `started` says whether it has taken a byte.  What
      it would answer after a failure does not matter. */
  predicate Steady(replies: seq<Reply>, started: bool)
    decreases |replies|
  {
    replies == [] ||
      match replies[0]
      case Interrupt => Steady(replies[1..], started)
      case Block => started ==> Quiet(replies[1..], started)
      case Accept(n) => if n == 0 then Quiet(replies[1..], started) else Steady(replies[1..], true)
      case Fail => true
  }

  // ---- Steady writers see no difference ---------------------------------------------------------

  /** One answer to a non-empty write, and what it makes of the chunk. */
  lemma {:induction false} PeekStep(chunks: seq<Chunk>, w: Writer, total: nat)
    requires chunks != [] && chunks[0].kind == Stream && chunks[0].data != []
    ensures var (v, r) := Write(w, chunks[0].data);
            PeekStream(chunks, w, total) ==
            match r
            case Interrupted => PeekStream(chunks, v, total)
            case WouldBlock => if total == 0 then (v, Blocked) else PeekStream(chunks[1..], v, total)
            case Failed => (v, Error)
            case Wrote(n) =>
              if n == 0 then PeekStream(chunks[1..], v, total) else PeekStream(Drop(chunks, n), v, total + n)
  {
    var (v, r) := Write(w, chunks[0].data);
    if r.Wrote? && r.n > 0 {
      var rest := chunks[0].data[r.n..];
      assert PeekChunk(chunks[0].data, w, total) == PeekChunk(rest, v, total + r.n);
      if r.n == |chunks[0].data| {
        EmptyWrite(v, rest);
        assert PeekChunk(rest, v, total + r.n) == (v, Copied(total + r.n));
      } else {
        assert Drop(chunks, r.n)[1..] == chunks[1..] && Drop(chunks, r.n)[0].data == rest;
      }
    }
    hide Write;
  }

  lemma {:induction false} EmptyWrite(w: Writer, data: seq<Byte>)
    requires data == []
    ensures Write(w, data) == (w, Wrote(0))
  {
    assert w.out + data[..0] == w.out;
  }

  lemma {:induction false} QuietPeek(chunks: seq<Chunk>, replies: seq<Reply>, out: seq<Byte>, total: nat)
    requires Solid(chunks) && Quiet(replies, total > 0)
    ensures PeekStream(chunks, Script(replies, out), total).0.out == out
    ensures PeekStream(chunks, Script(replies, out), total).1 == Copied(total)
    decreases |chunks|, |replies|
  {
    if chunks != [] && chunks[0].kind == Stream {
      assert chunks[0] in chunks;
      var w, d := Script(replies, out), chunks[0].data;
      PeekStep(chunks, w, total);
      assert out + d[..0] == out;
      assert Solid(chunks[1..]) by { assert forall c | c in chunks[1..] :: c in chunks; }
      hide PeekStream, Solid;
      if replies == [] {
        QuietPeek(chunks[1..], [], out, total);
      } else if replies[0].Interrupt? {
        QuietPeek(chunks, replies[1..], out, total);
      } else {
        QuietPeek(chunks[1..], replies[1..], out, total);
      }
    }
  }

  lemma {:induction false} SteadyStream(chunks: seq<Chunk>, replies: seq<Reply>, out: seq<Byte>, total: nat)
    requires Solid(chunks) && Steady(replies, total > 0)
    ensures var (_, v, p) := PopStream(chunks, Script(replies, out), total);
            var (u, q) := PeekStream(chunks, Script(replies, out), total);
            u.out == v.out && q == p
    decreases |replies|
  {
    if chunks != [] && chunks[0].kind == Stream {
      assert chunks[0] in chunks;
      var w, d := Script(replies, out), chunks[0].data;
      PeekStep(chunks, w, total);
      assert out + d[..0] == out;
      assert Solid(chunks[1..]) by { assert forall c | c in chunks[1..] :: c in chunks; }
      hide PeekStream, Solid;
      if replies == [] {
        QuietPeek(chunks[1..], [], out, total);
      } else {
        match replies[0]
        case Interrupt => SteadyStream(chunks, replies[1..], out, total);
        case Fail =>
        case Block =>
          if total > 0 {
            QuietPeek(chunks[1..], replies[1..], out, total);
          }
        case Accept(m) =>
          if m == 0 {
            QuietPeek(chunks[1..], replies[1..], out, total);
          } else {
            var n := Min(m, |d|);
            DropFacts(chunks, n);
            SteadyStream(Drop(chunks, n), replies[1..], out + d[..n], total + n);
          }
      }
    }
  }

  lemma {:induction false} SteadyAgrees(chunks: seq<Chunk>, replies: seq<Reply>)
    requires Solid(chunks) && Steady(replies, false)
    ensures Agrees(chunks, Script(replies, []))
  {
    SteadyStream(chunks, replies, [], 0);
    hide PopStream, PeekStream, WriteAll;
  }

  // ---- Other writers do -----------------------------------------------------------------------

  function Zeros(n: nat): seq<Byte> {
    seq(n, _ => 0)
  }

  function Filled(n: nat): Chunk {
    Chunk(Stream, Zeros(n), false)
  }

  /** `m` chunks of one byte. */
  function Many(m: nat): seq<Chunk> {
    if m == 0 then [] else [Filled(1)] + Many(m - 1)
  }

  lemma {:induction false} ManySolid(m: nat)
    ensures Solid(Many(m))
  {
    if m > 0 {
      ManySolid(m - 1);
    }
  }

  /** What the writer would take in all. */
  function Appetite(replies: seq<Reply>): nat {
    if replies == [] then 0 else (if replies[0].Accept? then replies[0].n else 0) + Appetite(replies[1..])
  }

  lemma {:induction false} PeekChunkGrows(data: seq<Byte>, w: Writer, total: nat)
    ensures |w.out| <= |PeekChunk(data, w, total).0.out|
    decreases Patience(w), |data|
  {
    var (v, r) := Write(w, data);
    if r.Interrupted? {
      PeekChunkGrows(data, v, total);
    } else if r.Wrote? && r.n > 0 {
      PeekChunkGrows(data[r.n..], v, total + r.n);
    }
  }

  lemma {:induction false} PeekGrows(chunks: seq<Chunk>, w: Writer, total: nat)
    ensures |w.out| <= |PeekStream(chunks, w, total).0.out|
    decreases chunks
  {
    if chunks != [] && chunks[0].kind == Stream {
      PeekChunkGrows(chunks[0].data, w, total);
      var (v, r) := PeekChunk(chunks[0].data, w, total);
      if r.Copied? {
        PeekGrows(chunks[1..], v, r.n);
      }
    }
  }

  /** Whoever is not quiet shows it on enough further chunks. */
  lemma {:induction false} LoudPeek(m: nat, replies: seq<Reply>, out: seq<Byte>, total: nat)
    requires !Quiet(replies, total > 0) && |replies| <= m
    ensures var (u, q) := PeekStream(Many(m), Script(replies, out), total); u.out != out || q != Copied(total)
    decreases |replies|
  {
    var chunks, w := Many(m), Script(replies, out);
    assert chunks[1..] == Many(m - 1) && chunks[0].data == [0];
    PeekStep(chunks, w, total);
    assert out + [0][..0] == out;
    hide PeekStream;
    match replies[0]
    case Interrupt => LoudPeek(m, replies[1..], out, total);
    case Fail =>
    case Block =>
      if total > 0 {
        LoudPeek(m - 1, replies[1..], out, total);
      }
    case Accept(n) =>
      if n == 0 {
        LoudPeek(m - 1, replies[1..], out, total);
      } else {
        PeekGrows(Drop(chunks, 1), Script(replies[1..], out + [0][..1]), total + 1);
      }
  }

  lemma {:induction false} UnsteadyStream(size: nat, m: nat, replies: seq<Reply>, out: seq<Byte>, total: nat)
    requires !Steady(replies, total > 0) && Appetite(replies) < size && |replies| <= m
    ensures var chunks := [Filled(size)] + Many(m);
            var (_, v, p) := PopStream(chunks, Script(replies, out), total);
            var (u, q) := PeekStream(chunks, Script(replies, out), total);
            u.out != v.out || q != p
    decreases |replies|
  {
    var chunks, w := [Filled(size)] + Many(m), Script(replies, out);
    var d := chunks[0].data;
    assert chunks[1..] == Many(m) && d == Zeros(size) && out + d[..0] == out;
    PeekStep(chunks, w, total);
    hide PeekStream, Many;
    match replies[0]
    case Interrupt => UnsteadyStream(size, m, replies[1..], out, total);
    case Fail =>
    case Block =>
      LoudPeek(m, replies[1..], out, total);
    case Accept(n) =>
      if n == 0 {
        LoudPeek(m, replies[1..], out, total);
      } else {
        assert Zeros(size)[n..] == Zeros(size - n);
        assert Drop(chunks, n) == [Filled(size - n)] + Many(m);
        UnsteadyStream(size - n, m, replies[1..], out + d[..n], total + n);
      }
  }

  /** Peek and pop agree on every queue exactly for the writers that, once they have refused, keep
      refusing. */
  lemma {:induction false} AgreesIffSteady(replies: seq<Reply>)
    ensures Steady(replies, false) <==> forall chunks | Solid(chunks) :: Agrees(chunks, Script(replies, []))
  {
    if Steady(replies, false) {
      forall chunks | Solid(chunks) ensures Agrees(chunks, Script(replies, [])) {
        SteadyAgrees(chunks, replies);
      }
    } else {
      var chunks := [Filled(Appetite(replies) + 1)] + Many(|replies|);
      ManySolid(|replies|);
      UnsteadyStream(Appetite(replies) + 1, |replies|, replies, [], 0);
      hide PopStream, PeekStream;
      assert Solid(chunks) && !Agrees(chunks, Script(replies, []));
    }
  }

  /** For instance one that blocks in the middle of a chunk and then goes on: it gets bytes with a gap
      between them. */
  lemma {:induction false} PeekSkipsWhenBlocked()
    ensures var chunks := [Chunk(Stream, [1, 2], false), Chunk(Stream, [3], false)];
            var w := Script([Accept(1), Block, Accept(1)], []);
            && Solid(chunks)
            && Pop(chunks, w).1.out == [1]
            && Peek(chunks, w).0.out == [1, 3]
  {
    assert [1, 2][1..] == [2];
  }
}
