/** The mixed stream and packet buffer (src/main/utility/byte_queue.rs). */
module ByteQueue {
  import opened Options
  import opened Numbers

  datatype Kind = Stream | Packet

  /** A chunk; `mutable` says whether its storage may still grow by `try_unsplit`. */
  datatype Chunk = Chunk(kind: Kind, data: seq<Byte>, mutable: bool)

  // ---- What the queue means ---------------------------------------------------------------

  /** The queue as its users see it: loose stream bytes and whole packets, in order. */
  datatype Token = Loose(byte: Byte) | Whole(packet: seq<Byte>)

  function Each(data: seq<Byte>): seq<Token> {
    seq(|data|, i requires 0 <= i < |data| => Loose(data[i]))
  }

  function ChunkTokens(c: Chunk): seq<Token> {
    if c.kind == Stream then Each(c.data) else [Whole(c.data)]
  }

  function Tokens(chunks: seq<Chunk>): seq<Token> {
    if chunks == [] then [] else ChunkTokens(chunks[0]) + Tokens(chunks[1..])
  }

  function NumBytes(chunks: seq<Chunk>): nat {
    if chunks == [] then 0 else |chunks[0].data| + NumBytes(chunks[1..])
  }

  /** No empty stream chunks: `push_stream` never makes one, `push_chunk` must not be given one. */
  predicate Solid(chunks: seq<Chunk>) {
    forall c | c in chunks :: c.kind == Stream ==> c.data != []
  }

  /** The loose bytes at the front. */
  function Lead(ts: seq<Token>): (bytes: seq<Byte>)
    ensures |bytes| <= |ts|
  {
    if ts == [] || ts[0].Whole? then [] else [ts[0].byte] + Lead(ts[1..])
  }

  lemma {:induction false} TokensAppend(a: seq<Chunk>, b: seq<Chunk>)
    ensures Tokens(a + b) == Tokens(a) + Tokens(b) && NumBytes(a + b) == NumBytes(a) + NumBytes(b)
  {
    if a == [] {
      assert a + b == b;
    } else {
      assert (a + b)[1..] == a[1..] + b && (a + b)[0] == a[0];
      TokensAppend(a[1..], b);
    }
  }

  lemma {:induction false} LeadEach(data: seq<Byte>, rest: seq<Token>)
    ensures Lead(Each(data) + rest) == data + Lead(rest)
  {
    if data == [] {
      assert Each(data) + rest == rest;
    } else {
      assert Each(data) == [Loose(data[0])] + Each(data[1..]);
      assert (Each(data) + rest)[1..] == Each(data[1..]) + rest;
      LeadEach(data[1..], rest);
    }
  }

  lemma {:induction false} LeadDrop(ts: seq<Token>, k: nat)
    requires k <= |Lead(ts)|
    ensures Lead(ts[k..]) == Lead(ts)[k..]
  {
    if k > 0 {
      LeadDrop(ts[1..], k - 1);
      assert ts[k..] == ts[1..][k - 1..];
      assert Lead(ts)[k..] == Lead(ts[1..])[k - 1..];
    } else {
      assert ts[0..] == ts;
    }
  }

  lemma {:induction false} NoLead(chunks: seq<Chunk>)
    requires chunks == [] || chunks[0].kind == Packet
    ensures Lead(Tokens(chunks)) == []
  {
    if chunks != [] {
      assert Tokens(chunks)[0] == Whole(chunks[0].data);
    }
  }

  // ---- Destinations -----------------------------------------------------------------------

  /** What a writer answers to one `write` call. */
  datatype Reply = Accept(n: nat) | Interrupt | Block | Fail

  /** A fixed-size buffer, or any writer, given by its answers; after them it accepts nothing.  An
      empty write is answered with zero and uses up no answer. */
  datatype Writer =
    | Buffer(room: nat, out: seq<Byte>)
    | Script(replies: seq<Reply>, out: seq<Byte>)

  datatype Written = Wrote(n: nat) | Interrupted | WouldBlock | Failed

  function Write(w: Writer, data: seq<Byte>): (r: (Writer, Written))
    ensures r.1.Wrote? ==> r.1.n <= |data| && r.0.out == w.out + data[..r.1.n]
    ensures !r.1.Wrote? ==> r.0.out == w.out
    ensures w.Buffer? ==> r.0.Buffer? && r.1 == Wrote(Min(w.room, |data|)) && r.0.room == w.room - r.1.n
    ensures w.Script? ==> r.0.Script? && (|r.0.replies| < |w.replies| || r.1 == Wrote(0))
  {
    match w
    case Buffer(room, out) =>
      var n := Min(room, |data|);
      (Buffer(room - n, out + data[..n]), Wrote(n))
    case Script(replies, out) =>
      if replies == [] || data == [] then (Script(replies, out + data[..0]), Wrote(0))
      else
        match replies[0]
        case Accept(m) => (Script(replies[1..], out + data[..Min(m, |data|)]), Wrote(Min(m, |data|)))
        case Interrupt => (Script(replies[1..], out), Interrupted)
        case Block => (Script(replies[1..], out), WouldBlock)
        case Fail => (Script(replies[1..], out), Failed)
  }

  function Patience(w: Writer): nat {
    if w.Script? then |w.replies| else 0
  }

  datatype Result = Copied(n: nat) | Blocked | Error | Panic

  // ---- Popping stream data ----------------------------------------------------------------

  /** The queue without the first `n` bytes of its front chunk. */
  function Drop(chunks: seq<Chunk>, n: nat): seq<Chunk>
    requires chunks != [] && n <= |chunks[0].data|
  {
    if n == |chunks[0].data| then chunks[1..] else [chunks[0].(data := chunks[0].data[n..])] + chunks[1..]
  }

  lemma {:induction false} DropFacts(chunks: seq<Chunk>, n: nat)
    requires chunks != [] && chunks[0].kind == Stream && n <= |chunks[0].data|
    ensures n <= |Lead(Tokens(chunks))| && Lead(Tokens(chunks))[..n] == chunks[0].data[..n]
    ensures Tokens(Drop(chunks, n)) == Tokens(chunks)[n..]
    ensures NumBytes(Drop(chunks, n)) + n == NumBytes(chunks)
    ensures Solid(chunks) ==> Solid(Drop(chunks, n))
  {
    var d := chunks[0].data;
    LeadEach(d, Tokens(chunks[1..]));
    assert Tokens(chunks) == Each(d) + Tokens(chunks[1..]);
    var after := Drop(chunks, n);
    if n < |d| {
      assert after[1..] == chunks[1..] && after[0].data == d[n..];
      assert Each(d[n..]) == Each(d)[n..];
      assert Tokens(chunks)[n..] == Each(d)[n..] + Tokens(chunks[1..]);
    } else {
      assert Tokens(chunks)[n..] == Tokens(chunks[1..]);
    }
  }

  /** The loop of `pop_stream`, entered with `total` bytes already copied. */
  function PopStream(chunks: seq<Chunk>, w: Writer, total: nat): (seq<Chunk>, Writer, Result)
    decreases Patience(w), NumBytes(chunks)
  {
    if chunks == [] || chunks[0].kind == Packet then (chunks, w, Copied(total))
    else
      var (v, r) := Write(w, chunks[0].data);
      match r
      case Interrupted => PopStream(chunks, v, total)
      case WouldBlock => (chunks, v, if total == 0 then Blocked else Copied(total))
      case Failed => (chunks, v, Error)
      case Wrote(n) =>
        if n == 0 then (chunks, v, Copied(total))
        else
          DropFacts(chunks, n);
          PopStream(Drop(chunks, n), v, total + n)
  }

  /** `k` loose bytes went from the front of the queue to the writer, and nothing else changed. */
  predicate Moved(before: seq<Chunk>, w: Writer, after: seq<Chunk>, v: Writer, k: nat) {
    && k <= |Lead(Tokens(before))|
    && v.out == w.out + Lead(Tokens(before))[..k]
    && Tokens(after) == Tokens(before)[k..]
    && NumBytes(after) + k == NumBytes(before)
    && (Solid(before) ==> Solid(after))
  }

  lemma {:induction false} MovedTwice(a: seq<Chunk>, u: Writer, b: seq<Chunk>, v: Writer, c: seq<Chunk>, w: Writer, n: nat, k: nat)
    requires Moved(a, u, b, v, n) && Moved(b, v, c, w, k)
    ensures Moved(a, u, c, w, n + k)
  {
    hide Tokens, NumBytes, Solid, Lead;
    var ts := Tokens(a);
    LeadDrop(ts, n);
    assert Lead(ts)[..n] + Lead(ts)[n..][..k] == Lead(ts)[..n + k];
    assert ts[n..][k..] == ts[n + k..];
  }

  lemma {:induction false} MovedNone(chunks: seq<Chunk>, w: Writer, v: Writer)
    requires v.out == w.out
    ensures Moved(chunks, w, chunks, v, 0)
  {
    assert Tokens(chunks)[0..] == Tokens(chunks);
    assert w.out + Lead(Tokens(chunks))[..0] == w.out;
  }

  lemma {:induction false} MovedOnce(chunks: seq<Chunk>, w: Writer)
    requires chunks != [] && chunks[0].kind == Stream
    requires Write(w, chunks[0].data).1.Wrote?
    ensures var (v, r) := Write(w, chunks[0].data); Moved(chunks, w, Drop(chunks, r.n), v, r.n)
  {
    DropFacts(chunks, Write(w, chunks[0].data).1.n);
    hide Write, Tokens, NumBytes, Solid, Lead;
  }

  /** For any writer: what leaves the queue is what was written, a prefix of the loose bytes at the
      front, also when the writer fails half-way; the rest of the queue is untouched. */
  lemma {:induction false} PopStreamMoves(chunks: seq<Chunk>, w: Writer, total: nat) returns (k: nat)
    ensures var (after, v, r) := PopStream(chunks, w, total);
            && Moved(chunks, w, after, v, k)
            && (r.Copied? ==> r.n == total + k)
            && (r.Blocked? ==> k == 0 && total == 0)
            && !r.Panic?
    decreases Patience(w), NumBytes(chunks)
  {
    hide Moved, Drop, Write, Tokens, NumBytes, Lead, Solid;
    k := 0;
    if chunks == [] || chunks[0].kind == Packet {
      MovedNone(chunks, w, w);
    } else {
      var (v, r) := Write(w, chunks[0].data);
      if r.Interrupted? {
        k := PopStreamMoves(chunks, v, total);
        MovedNone(chunks, w, v);
        MovedTwice(chunks, w, chunks, v, PopStream(chunks, v, total).0, PopStream(chunks, v, total).1, 0, k);
      } else if r.Wrote? && r.n > 0 {
        DropFacts(chunks, r.n);
        var rest := Drop(chunks, r.n);
        var j := PopStreamMoves(rest, v, total + r.n);
        k := r.n + j;
        MovedOnce(chunks, w);
        var end := PopStream(rest, v, total + r.n);
        MovedTwice(chunks, w, rest, v, end.0, end.1, r.n, j);
      } else {
        assert r.Wrote? ==> chunks[0].data[..0] == [];
        MovedNone(chunks, w, v);
      }
    }
  }

  /** The stream bytes one pop can reach: those before the first packet or empty stream chunk. */
  function Reach(chunks: seq<Chunk>): seq<Byte> {
    if chunks == [] || chunks[0].kind == Packet || chunks[0].data == [] then []
    else chunks[0].data + Reach(chunks[1..])
  }

  lemma {:induction false} ReachDrop(chunks: seq<Chunk>, n: nat)
    requires chunks != [] && chunks[0].kind == Stream && n <= |chunks[0].data| && chunks[0].data != []
    ensures n <= |Reach(chunks)| && Reach(Drop(chunks, n)) == Reach(chunks)[n..]
  {
    var d, rest := chunks[0].data, chunks[1..];
    assert Reach(chunks) == d + Reach(rest);
    if n == |d| {
      assert Drop(chunks, n) == rest;
      assert (d + Reach(rest))[n..] == Reach(rest);
    } else {
      var cut := chunks[0].(data := d[n..]);
      assert Drop(chunks, n) == [cut] + rest && ([cut] + rest)[1..] == rest;
      assert Reach([cut] + rest) == d[n..] + Reach(rest);
      hide Reach;
      assert (d + Reach(rest))[n..] == d[n..] + Reach(rest);
    }
  }

  lemma {:induction false} ReachPrefix(chunks: seq<Chunk>)
    ensures Reach(chunks) <= Lead(Tokens(chunks))
    ensures Solid(chunks) ==> Reach(chunks) == Lead(Tokens(chunks))
  {
    if chunks == [] || chunks[0].kind == Packet {
      NoLead(chunks);
    } else {
      ReachPrefix(chunks[1..]);
      LeadEach(chunks[0].data, Tokens(chunks[1..]));
      assert forall c | c in chunks[1..] :: c in chunks;
      assert chunks[0] in chunks;
    }
  }

  /** A fixed-size buffer stops the loop only when it is full or no reachable byte is left. */
  lemma {:induction false} PopStreamFills(chunks: seq<Chunk>, w: Writer, total: nat)
    requires w.Buffer?
    ensures var (after, v, r) := PopStream(chunks, w, total);
            && v.Buffer? && r == Copied(total + Min(w.room, |Reach(chunks)|))
            && v.room == w.room - Min(w.room, |Reach(chunks)|)
    decreases NumBytes(chunks)
  {
    hide Drop, Write, Tokens, NumBytes, Lead, Solid;
    if chunks != [] && chunks[0].kind == Stream {
      var (v, r) := Write(w, chunks[0].data);
      if r.n > 0 {
        ReachDrop(chunks, r.n);
        DropFacts(chunks, r.n);
        hide Reach;
        PopStreamFills(Drop(chunks, r.n), v, total + r.n);
      } else {
        assert w.room > 0 ==> Reach(chunks) == [];
      }
    }
  }

  /** A fixed-size buffer takes as much of the reachable bytes at the front as fits. */
  lemma {:induction false} PopStreamExact(chunks: seq<Chunk>, w: Writer)
    requires w.Buffer?
    ensures var k := Min(w.room, |Reach(chunks)|);
            var (after, v, r) := PopStream(chunks, w, 0);
            && k <= |Lead(Tokens(chunks))|
            && v == Buffer(w.room - k, w.out + Lead(Tokens(chunks))[..k]) && r == Copied(k)
            && Moved(chunks, w, after, v, k)
  {
    hide PopStream, Tokens, NumBytes, Solid, Lead;
    PopStreamFills(chunks, w, 0);
    var k := PopStreamMoves(chunks, w, 0);
  }

  // ---- Popping and peeking a packet -----------------------------------------------------------

  /** The write loop shared by `pop_packet` and `peek_packet`, and `peek_stream`'s inner loop but
      for its treatment of `WouldBlock`. */
  function WriteAll(data: seq<Byte>, w: Writer, total: nat): (Writer, Result)
    decreases Patience(w), |data|
  {
    var (v, r) := Write(w, data);
    match r
    case Interrupted => WriteAll(data, v, total)
    case WouldBlock => (v, Panic)
    case Failed => (v, Error)
    case Wrote(n) => if n == 0 then (v, Copied(total)) else WriteAll(data[n..], v, total + n)
  }

  /** Whatever the writer answers, it gets a prefix of the packet. */
  lemma {:induction false} WriteAllPrefix(data: seq<Byte>, w: Writer, total: nat)
    ensures var (v, r) := WriteAll(data, w, total);
            && |w.out| <= |v.out|
            && var k := |v.out| - |w.out|;
            k <= |data| && v.out == w.out + data[..k] && (r.Copied? ==> r.n == total + k)
    decreases Patience(w), |data|
  {
    assert w.out + data[..0] == w.out;
    var (v, r) := Write(w, data);
    if r.Interrupted? {
      WriteAllPrefix(data, v, total);
    } else if r.Wrote? && r.n > 0 {
      WriteAllPrefix(data[r.n..], v, total + r.n);
      var k := |WriteAll(data[r.n..], v, total + r.n).0.out| - |v.out|;
      assert data[..r.n] + data[r.n..][..k] == data[..r.n + k];
    }
  }

  lemma {:induction false} WriteAllFills(data: seq<Byte>, room: nat, out: seq<Byte>, total: nat)
    ensures var k := Min(room, |data|);
            WriteAll(data, Buffer(room, out), total) == (Buffer(room - k, out + data[..k]), Copied(total + k))
  {
    var k := Min(room, |data|);
    var w := Buffer(room - k, out + data[..k]);
    assert Write(Buffer(room, out), data) == (w, Wrote(k));
    if k > 0 {
      var rest := data[k..];
      assert Write(w, rest) == (w, Wrote(0)) by {
        assert Min(room - k, |rest|) == 0 && w.out + rest[..0] == w.out;
      }
    }
  }

  /** How a write loop ends: it goes on through interruptions and partial writes; it fails on `Fail`;
      on `Block` it answers `onBlock`, and only then is it blocked or does it panic; and an interruption
      is the last answer it sees only if there are no more. */
  predicate EndsBy(replies: seq<Reply>, n: nat, r: Result, onBlock: Result) {
    && n <= |replies|
    && (forall i | 0 <= i < n - 1 :: replies[i].Interrupt? || (replies[i].Accept? && replies[i].n > 0))
    && (r.Error? <==> n > 0 && replies[n - 1].Fail?)
    && (n > 0 && replies[n - 1].Block? ==> r == onBlock)
    && (r.Blocked? || r.Panic? ==> n > 0 && replies[n - 1].Block?)
    && (n > 0 && replies[n - 1].Interrupt? ==> n == |replies|)
  }

  lemma {:induction false} OneMoreReply(replies: seq<Reply>, n: nat, r: Result, onBlock: Result)
    requires replies != [] && EndsBy(replies[1..], n, r, onBlock)
    requires replies[0].Interrupt? || (replies[0].Accept? && replies[0].n > 0)
    requires n == 0 ==> r.Copied? && (replies[0].Interrupt? ==> |replies| == 1)
    ensures EndsBy(replies, n + 1, r, onBlock)
  {
    assert forall i | 0 <= i < n :: replies[i + 1] == replies[1..][i];
  }

  /** `v` is the writer `Script(replies, out)` after `n` answers, and the loop that used them got `want`
      bytes through, or was stopped by its answers as `EndsBy` says. */
  predicate Ended(replies: seq<Reply>, out: seq<Byte>, v: Writer, r: Result, onBlock: Result, want: nat) {
    && v.Script? && |v.replies| <= |replies| && |out| <= |v.out|
    && var n := |replies| - |v.replies|;
       && v.replies == replies[n..]
       && EndsBy(replies, n, r, onBlock)
       && (r.Copied? && |v.out| < |out| + want ==> v.replies == [] || (n > 0 && replies[n - 1] in {Accept(0), Block}))
  }

  lemma {:induction false} EndedLater(replies: seq<Reply>, out: seq<Byte>, took: seq<Byte>, v: Writer, r: Result, onBlock: Result, want: nat)
    requires replies != [] && |took| <= want && Ended(replies[1..], out + took, v, r, onBlock, want - |took|)
    requires replies[0].Interrupt? || (replies[0].Accept? && replies[0].n > 0)
    requires |v.replies| == |replies| - 1 ==> r.Copied? && (replies[0].Interrupt? ==> |replies| == 1)
    ensures Ended(replies, out, v, r, onBlock, want)
  {
    var n := |replies| - 1 - |v.replies|;
    OneMoreReply(replies, n, r, onBlock);
    hide EndsBy;
    assert replies[1..][n..] == replies[n + 1..];
    assert n > 0 ==> replies[1..][n - 1] == replies[n];
  }

  lemma {:induction false} EndedNow(replies: seq<Reply>, out: seq<Byte>, r: Result, onBlock: Result, want: nat)
    ensures r.Copied? && (replies == [] || want == 0) ==> Ended(replies, out, Script(replies, out), r, onBlock, want)
    ensures replies != [] && (if replies[0].Fail? then r.Error?
                              else if replies[0].Block? then r == onBlock && !onBlock.Error?
                              else replies[0] == Accept(0) && r.Copied?) ==>
              Ended(replies, out, Script(replies[1..], out), r, onBlock, want)
  {
  }

  /** Writing a packet, into any writer: a refusal is a panic. */
  lemma {:induction false} WriteAllEnds(data: seq<Byte>, replies: seq<Reply>, out: seq<Byte>, total: nat)
    ensures var (v, r) := WriteAll(data, Script(replies, out), total); Ended(replies, out, v, r, Panic, |data|)
    ensures data != [] && replies != [] ==> |WriteAll(data, Script(replies, out), total).0.replies| < |replies|
    ensures data == [] || replies == [] ==> WriteAll(data, Script(replies, out), total) == (Script(replies, out), Copied(total))
    decreases |replies|
  {
    assert out + data[..0] == out;
    if data != [] && replies != [] {
      var (v, r) := WriteAll(data, Script(replies, out), total);
      var rest := replies[1..];
      if replies[0].Interrupt? {
        WriteAllEnds(data, rest, out, total);
        assert out + [] == out;
        EndedLater(replies, out, [], v, r, Panic, |data|);
      } else if replies[0].Accept? && replies[0].n > 0 {
        var k := Min(replies[0].n, |data|);
        WriteAllEnds(data[k..], rest, out + data[..k], total + k);
        EndedLater(replies, out, data[..k], v, r, Panic, |data|);
      }
    }
  }

  /** What a stream loop answers to a refusal: it is blocked if nothing has been copied yet. */
  function Refused(copied: nat): Result {
    if copied == 0 then Blocked else Copied(copied)
  }

  lemma {:induction false} PopStreamStep(chunks: seq<Chunk>, replies: seq<Reply>, out: seq<Byte>, total: nat)
    ensures var popped := PopStream(chunks, Script(replies, out), total);
            if Reach(chunks) == [] || replies == [] then popped == (chunks, Script(replies, out), Copied(total))
            else
              && chunks != [] && chunks[0].kind == Stream && chunks[0].data != []
              && var rest := Script(replies[1..], out);
                 match replies[0]
                 case Interrupt => popped == PopStream(chunks, rest, total)
                 case Block => popped == (chunks, rest, Refused(total))
                 case Fail => popped == (chunks, rest, Error)
                 case Accept(m) =>
                   var k := Min(m, |chunks[0].data|);
                   if k == 0 then popped == (chunks, rest, Copied(total))
                   else popped == PopStream(Drop(chunks, k), Script(replies[1..], out + chunks[0].data[..k]), total + k)
  {
    hide Drop;
    if chunks != [] {
      assert out + chunks[0].data[..0] == out;
    }
  }

  /** Popping stream bytes, into any writer: a refusal ends the loop, and is an error to nobody. */
  lemma {:induction false} PopStreamEnds(chunks: seq<Chunk>, replies: seq<Reply>, out: seq<Byte>, total: nat)
    ensures var (_, v, r) := PopStream(chunks, Script(replies, out), total);
            && v.Script? && |out| <= |v.out|
            && Ended(replies, out, v, r, Refused(total + |v.out| - |out|), |Reach(chunks)|)
            && (Reach(chunks) != [] && replies != [] ==> |v.replies| < |replies|)
    decreases |replies|
  {
    hide PopStream, Write, Ended, Reach, Drop;
    PopStreamStep(chunks, replies, out, total);
    var (_, v, r) := PopStream(chunks, Script(replies, out), total);
    EndedNow(replies, out, r, Refused(total), |Reach(chunks)|);
    if Reach(chunks) != [] && replies != [] {
      PopStreamStep(chunks, replies[1..], out, total);
      if replies[0].Interrupt? {
        PopStreamEnds(chunks, replies[1..], out, total);
        assert out + [] == out;
        EndedLater(replies, out, [], v, r, Refused(total + |v.out| - |out|), |Reach(chunks)|);
      } else if replies[0].Accept? && replies[0].n > 0 {
        var k := Min(replies[0].n, |chunks[0].data|);
        var took := chunks[0].data[..k];
        ReachDrop(chunks, k);
        PopStreamStep(Drop(chunks, k), replies[1..], out + took, total + k);
        PopStreamEnds(Drop(chunks, k), replies[1..], out + took, total + k);
        EndedLater(replies, out, took, v, r, Refused(total + |v.out| - |out|), |Reach(chunks)|);
      }
    }
  }

  // ---- Pop --------------------------------------------------------------------------------

  datatype Popped = Nothing | Got(copied: nat, removed: nat, kind: Kind) | Not(why: Result)

  function Pop(chunks: seq<Chunk>, w: Writer): (seq<Chunk>, Writer, Popped) {
    if chunks == [] then (chunks, w, Nothing)
    else if chunks[0].kind == Stream then
      var (after, v, r) := PopStream(chunks, w, 0);
      (after, v, if r.Copied? then Got(r.n, r.n, Stream) else Not(r))
    else
      var (v, r) := WriteAll(chunks[0].data, w, 0);
      (chunks[1..], v, if r.Copied? then Got(r.n, |chunks[0].data|, Packet) else Not(r))
  }

  /** What a pop into a buffer with `room` bytes must do to the tokens: take loose bytes up to the
      room, or one packet, whose tail that does not fit is dropped. */
  function Ideal(ts: seq<Token>, room: nat): (seq<Token>, seq<Byte>, Popped) {
    if ts == [] then (ts, [], Nothing)
    else if ts[0].Whole? then
      var k := Min(room, |ts[0].packet|);
      (ts[1..], ts[0].packet[..k], Got(k, |ts[0].packet|, Packet))
    else
      var k := Min(room, |Lead(ts)|);
      (ts[k..], Lead(ts)[..k], Got(k, k, Stream))
  }

  /** When a pop into `room` bytes does all it should; an empty stream chunk can stop it short. */
  predicate Unhindered(chunks: seq<Chunk>, room: nat) {
    chunks != [] && chunks[0].kind == Stream ==>
      && Lead(Tokens(chunks)) != []
      && (room <= |Reach(chunks)| || Reach(chunks) == Lead(Tokens(chunks)))
  }

  lemma {:induction false} SolidUnhindered(chunks: seq<Chunk>, room: nat)
    requires Solid(chunks)
    ensures Unhindered(chunks, room)
  {
    ReachPrefix(chunks);
    if chunks != [] {
      assert chunks[0] in chunks;
    }
  }

  lemma {:induction false} PopStreamRefines(chunks: seq<Chunk>, room: nat)
    requires chunks != [] && chunks[0].kind == Stream
    ensures var (after, v, p) := Pop(chunks, Buffer(room, []));
            && (Unhindered(chunks, room) <==> (Tokens(after), v.out, p) == Ideal(Tokens(chunks), room))
            && p.Got? && NumBytes(after) + p.removed == NumBytes(chunks) && (Solid(chunks) ==> Solid(after))
  {
    hide PopStream, Tokens, NumBytes, Solid;
    PopStreamExact(chunks, Buffer(room, []));
    ReachPrefix(chunks);
    var lead := Lead(Tokens(chunks));
    var k := Min(room, |Reach(chunks)|);
    assert [] + lead[..k] == lead[..k];
    assert k == Min(room, |lead|) <==> room <= |Reach(chunks)| || Reach(chunks) == lead;
  }

  lemma {:induction false} PopPacketRefines(chunks: seq<Chunk>, room: nat)
    requires chunks != [] && chunks[0].kind == Packet
    ensures var (after, v, p) := Pop(chunks, Buffer(room, []));
            && (Tokens(after), v.out, p) == Ideal(Tokens(chunks), room)
            && p.Got? && NumBytes(after) + p.removed == NumBytes(chunks) && (Solid(chunks) ==> Solid(after))
  {
    hide PopStream, WriteAll, Lead, Each;
    var d := chunks[0].data;
    WriteAllFills(d, room, [], 0);
    assert [] + d[..Min(room, |d|)] == d[..Min(room, |d|)];
    assert Tokens(chunks)[0] == Whole(d) && Tokens(chunks)[1..] == Tokens(chunks[1..]);
    assert forall c | c in chunks[1..] :: c in chunks;
  }

  /** Pop into a buffer is the ideal pop exactly when no empty stream chunk hinders it; the byte count
      stays right either way. */
  lemma {:induction false} PopRefinesIff(chunks: seq<Chunk>, room: nat)
    ensures var (after, v, p) := Pop(chunks, Buffer(room, []));
            && (Unhindered(chunks, room) <==> (Tokens(after), v.out, p) == Ideal(Tokens(chunks), room))
            && NumBytes(after) + (if p.Got? then p.removed else 0) == NumBytes(chunks)
            && (Solid(chunks) ==> Solid(after))
  {
    if chunks != [] {
      hide Pop, Ideal, Tokens, NumBytes, Solid;
      if chunks[0].kind == Stream {
        PopStreamRefines(chunks, room);
      } else {
        PopPacketRefines(chunks, room);
      }
    }
  }

  /** How the bytes are cut into chunks cannot be seen through a pop into a buffer, nor through what
      it leaves. */
  lemma {:induction false} PopIgnoresCuts(a: seq<Chunk>, b: seq<Chunk>, room: nat)
    requires Solid(a) && Solid(b) && Tokens(a) == Tokens(b)
    ensures var (a', v, p) := Pop(a, Buffer(room, []));
            var (b', u, q) := Pop(b, Buffer(room, []));
            p == q && v.out == u.out && Tokens(a') == Tokens(b') && Solid(a') && Solid(b')
  {
    hide Pop, Ideal, Tokens, Solid, Unhindered;
    SolidUnhindered(a, room);
    SolidUnhindered(b, room);
    PopRefinesIff(a, room);
    PopRefinesIff(b, room);
  }

  /** The condition is needed: an empty stream chunk at the front answers every pop, into any writer,
      with zero bytes and never goes away, whatever is queued behind it. */
  lemma {:induction false} EmptyStreamChunkBlocks(chunks: seq<Chunk>, w: Writer)
    requires chunks != [] && chunks[0].kind == Stream && chunks[0].data == []
    ensures Pop(chunks, w) == (chunks, w, Got(0, 0, Stream))
  {
    assert w.out + chunks[0].data[..0] == w.out;
    assert Write(w, chunks[0].data) == (w, Wrote(0));
  }

  // ---- Peek -------------------------------------------------------------------------------

  /** `peek_stream`'s inner loop on one chunk: it ends when nothing is accepted. */
  function PeekChunk(data: seq<Byte>, w: Writer, total: nat): (Writer, Result)
    decreases Patience(w), |data|
  {
    var (v, r) := Write(w, data);
    match r
    case Interrupted => PeekChunk(data, v, total)
    case WouldBlock => (v, if total == 0 then Blocked else Copied(total))
    case Failed => (v, Error)
    case Wrote(n) => if n == 0 then (v, Copied(total)) else PeekChunk(data[n..], v, total + n)
  }

  function PeekStream(chunks: seq<Chunk>, w: Writer, total: nat): (Writer, Result)
    decreases chunks
  {
    if chunks == [] || chunks[0].kind == Packet then (w, Copied(total))
    else
      var (v, r) := PeekChunk(chunks[0].data, w, total);
      if r.Copied? then PeekStream(chunks[1..], v, r.n) else (v, r)
  }

  function Peek(chunks: seq<Chunk>, w: Writer): (Writer, Popped) {
    if chunks == [] then (w, Nothing)
    else if chunks[0].kind == Stream then
      var (v, r) := PeekStream(chunks, w, 0);
      (v, if r.Copied? then Got(r.n, r.n, Stream) else Not(r))
    else
      var (v, r) := WriteAll(chunks[0].data, w, 0);
      (v, if r.Copied? then Got(r.n, |chunks[0].data|, Packet) else Not(r))
  }

  lemma {:induction false} PeekChunkFills(data: seq<Byte>, room: nat, out: seq<Byte>, total: nat)
    ensures var k := Min(room, |data|);
            PeekChunk(data, Buffer(room, out), total) == (Buffer(room - k, out + data[..k]), Copied(total + k))
  {
    var k := Min(room, |data|);
    var w := Buffer(room - k, out + data[..k]);
    assert Write(Buffer(room, out), data) == (w, Wrote(k));
    if k > 0 {
      var rest := data[k..];
      assert Write(w, rest) == (w, Wrote(0)) by {
        assert Min(room - k, |rest|) == 0 && w.out + rest[..0] == w.out;
      }
    }
  }

  lemma {:induction false} PeekChunkStep(data: seq<Byte>, replies: seq<Reply>, out: seq<Byte>, total: nat)
    ensures var peeked := PeekChunk(data, Script(replies, out), total);
            if data == [] || replies == [] then peeked == (Script(replies, out), Copied(total))
            else
              var rest := Script(replies[1..], out);
              match replies[0]
              case Interrupt => peeked == PeekChunk(data, rest, total)
              case Block => peeked == (rest, Refused(total))
              case Fail => peeked == (rest, Error)
              case Accept(m) =>
                var k := Min(m, |data|);
                if k == 0 then peeked == (rest, Copied(total))
                else peeked == PeekChunk(data[k..], Script(replies[1..], out + data[..k]), total + k)
  {
    assert out + data[..0] == out;
  }

  /** Peeking at a chunk ends as popping stream bytes does. */
  lemma {:induction false} PeekChunkEnds(data: seq<Byte>, replies: seq<Reply>, out: seq<Byte>, total: nat)
    ensures var (v, r) := PeekChunk(data, Script(replies, out), total);
            && v.Script? && |out| <= |v.out|
            && Ended(replies, out, v, r, Refused(total + |v.out| - |out|), |data|)
            && (data != [] && replies != [] ==> |v.replies| < |replies|)
    decreases |replies|
  {
    hide PeekChunk, Write, Ended;
    PeekChunkStep(data, replies, out, total);
    var (v, r) := PeekChunk(data, Script(replies, out), total);
    EndedNow(replies, out, r, Refused(total), |data|);
    if data != [] && replies != [] {
      PeekChunkStep(data, replies[1..], out, total);
      if replies[0].Interrupt? {
        PeekChunkEnds(data, replies[1..], out, total);
        assert out + [] == out;
        EndedLater(replies, out, [], v, r, Refused(total + |v.out| - |out|), |data|);
      } else if replies[0].Accept? && replies[0].n > 0 {
        var k := Min(replies[0].n, |data|);
        PeekChunkStep(data[k..], replies[1..], out + data[..k], total + k);
        PeekChunkEnds(data[k..], replies[1..], out + data[..k], total + k);
        EndedLater(replies, out, data[..k], v, r, Refused(total + |v.out| - |out|), |data|);
      }
    }
  }

  lemma {:induction false} PeekStreamFills(chunks: seq<Chunk>, w: Writer, total: nat)
    requires w.Buffer?
    ensures var lead := Lead(Tokens(chunks));
            var k := Min(w.room, |lead|);
            PeekStream(chunks, w, total) == (Buffer(w.room - k, w.out + lead[..k]), Copied(total + k))
    decreases chunks
  {
    hide PeekChunk, Lead, Each;
    var lead := Lead(Tokens(chunks));
    if chunks == [] || chunks[0].kind == Packet {
      NoLead(chunks);
      assert w.out + lead[..0] == w.out;
    } else {
      var d, rest := chunks[0].data, chunks[1..];
      LeadEach(d, Tokens(rest));
      PeekChunkFills(d, w.room, w.out, total);
      var n := Min(w.room, |d|);
      PeekStreamFills(rest, Buffer(w.room - n, w.out + d[..n]), total + n);
      var tail := Lead(Tokens(rest));
      var k := Min(w.room - n, |tail|);
      assert d[..n] + tail[..k] == lead[..n + k];
      assert w.out + d[..n] + tail[..k] == w.out + (d[..n] + tail[..k]);
    }
  }

  /** Peeking into a buffer writes the same bytes and returns the same tuple as popping into it,
      although the two loops treat chunk ends differently - unless an empty stream chunk stops the
      pop before the buffer is full, which the peek steps over. */
  lemma {:induction false} PeekAgreesWithPopIff(chunks: seq<Chunk>, room: nat, out: seq<Byte>)
    ensures var (after, v, p) := Pop(chunks, Buffer(room, out));
            Peek(chunks, Buffer(room, out)) == (v, p) <==>
            (chunks != [] && chunks[0].kind == Stream ==>
               room <= |Reach(chunks)| || Reach(chunks) == Lead(Tokens(chunks)))
  {
    hide PopStream, PeekStream, WriteAll, Tokens, Lead, Moved;
    if chunks != [] && chunks[0].kind == Stream {
      PopStreamExact(chunks, Buffer(room, out));
      PeekStreamFills(chunks, Buffer(room, out), 0);
      ReachPrefix(chunks);
      var k := Min(room, |Reach(chunks)|);
      assert k == Min(room, |Lead(Tokens(chunks))|) <==> room <= |Reach(chunks)| || Reach(chunks) == Lead(Tokens(chunks));
    }
  }

  // ---- Whole runs -----------------------------------------------------------------------------

  /** Appends one read's worth of stream bytes; `merge` is whether `try_unsplit` would succeed. */
  function Append(chunks: seq<Chunk>, piece: seq<Byte>, merge: bool): seq<Chunk> {
    var n := |chunks|;
    if n > 0 && chunks[n - 1].kind == Stream && chunks[n - 1].mutable && merge
    then chunks[..n - 1] + [chunks[n - 1].(data := chunks[n - 1].data + piece)]
    else chunks + [Chunk(Stream, piece, true)]
  }

  /** `pop_chunk`: a packet whole, stream data at most `hint` bytes of one chunk. */
  function TakeChunk(chunks: seq<Chunk>, hint: nat): (seq<Chunk>, seq<Byte>)
    requires chunks != []
  {
    var d := chunks[0].data;
    if chunks[0].kind == Packet then (chunks[1..], d)
    else (Drop(chunks, Min(|d|, hint)), d[..Min(|d|, hint)])
  }

  datatype Op =
    | Feed(piece: seq<Byte>, merge: bool)
    | Put(chunk: Chunk)
    | PopTo(writer: Writer)
    | Take(hint: nat)

  function After(chunks: seq<Chunk>, op: Op): seq<Chunk> {
    match op
    case Feed(piece, merge) => Append(chunks, piece, merge)
    case Put(c) => chunks + [c]
    case PopTo(w) => Pop(chunks, w).0
    case Take(hint) => if chunks == [] then chunks else TakeChunk(chunks, hint).0
  }

  function Pushed(op: Op): seq<Token> {
    match op
    case Feed(piece, _) => Each(piece)
    case Put(c) => ChunkTokens(c)
    case _ => []
  }

  /** What an operation takes out: of a stream the bytes its caller got, of a packet the whole. */
  function Out(chunks: seq<Chunk>, op: Op): seq<Token> {
    if chunks == [] || op.Feed? || op.Put? then []
    else if chunks[0].kind == Packet then [Whole(chunks[0].data)]
    else if op.Take? then Each(TakeChunk(chunks, op.hint).1)
    else Each(Gained(op.writer, Pop(chunks, op.writer).1))
  }

  /** What a writer gained, as far as it only grew. */
  function Gained(before: Writer, after: Writer): seq<Byte> {
    if |before.out| <= |after.out| then after.out[|before.out|..] else []
  }

  lemma {:induction false} GrowLast(front: seq<Chunk>, last: Chunk, piece: seq<Byte>)
    requires last.kind == Stream
    ensures var grown := last.(data := last.data + piece);
            && Tokens(front + [grown]) == Tokens(front + [last]) + Each(piece)
            && NumBytes(front + [grown]) == NumBytes(front + [last]) + |piece|
  {
    hide Tokens, NumBytes;
    var grown := last.(data := last.data + piece);
    TokensAppend(front, [last]);
    TokensAppend(front, [grown]);
    OneChunk(last);
    OneChunk(grown);
    assert Each(last.data + piece) == Each(last.data) + Each(piece);
    assert Tokens(front) + (Each(last.data) + Each(piece)) == (Tokens(front) + Each(last.data)) + Each(piece);
  }

  lemma {:induction false} AppendAdds(chunks: seq<Chunk>, piece: seq<Byte>, merge: bool)
    ensures Tokens(Append(chunks, piece, merge)) == Tokens(chunks) + Each(piece)
    ensures NumBytes(Append(chunks, piece, merge)) == NumBytes(chunks) + |piece|
    ensures Solid(chunks) && piece != [] ==> Solid(Append(chunks, piece, merge))
  {
    hide Tokens, NumBytes, Each;
    var n := |chunks|;
    if n > 0 && chunks[n - 1].kind == Stream && chunks[n - 1].mutable && merge {
      assert chunks == chunks[..n - 1] + [chunks[n - 1]];
      GrowLast(chunks[..n - 1], chunks[n - 1], piece);
    } else {
      OneChunk(Chunk(Stream, piece, true));
      TokensAppend(chunks, [Chunk(Stream, piece, true)]);
    }
  }

  lemma {:induction false} OneChunk(c: Chunk)
    ensures Tokens([c]) == ChunkTokens(c) && NumBytes([c]) == |c.data|
  {
    assert [c][1..] == [] && ChunkTokens(c) + [] == ChunkTokens(c);
  }

  lemma {:induction false} LeadIsFront(ts: seq<Token>, k: nat)
    requires k <= |Lead(ts)|
    ensures Each(Lead(ts)[..k]) == ts[..k]
  {
    if k > 0 {
      LeadIsFront(ts[1..], k - 1);
      var b := Lead(ts)[0];
      assert Lead(ts)[..k] == [b] + Lead(ts[1..])[..k - 1];
      assert Each(Lead(ts)[..k]) == [Loose(b)] + Each(Lead(ts[1..])[..k - 1]);
      assert ts[..k] == [ts[0]] + ts[1..][..k - 1];
    }
  }

  lemma {:induction false} PopKeepsOrder(chunks: seq<Chunk>, w: Writer)
    requires chunks != [] && chunks[0].kind == Stream
    ensures Tokens(chunks) == Out(chunks, PopTo(w)) + Tokens(Pop(chunks, w).0)
  {
    hide PopStream, Tokens, NumBytes, Solid, Lead, Each;
    var k := PopStreamMoves(chunks, w, 0);
    var v := Pop(chunks, w).1;
    var ts := Tokens(chunks);
    LeadIsFront(ts, k);
    assert v.out[|w.out|..] == Lead(ts)[..k];
    assert ts == ts[..k] + ts[k..];
  }

  lemma {:induction false} TakeKeepsOrder(chunks: seq<Chunk>, hint: nat)
    requires chunks != [] && chunks[0].kind == Stream
    ensures Tokens(chunks) == Each(TakeChunk(chunks, hint).1) + Tokens(TakeChunk(chunks, hint).0)
    ensures NumBytes(TakeChunk(chunks, hint).0) + |TakeChunk(chunks, hint).1| == NumBytes(chunks)
    ensures Solid(chunks) ==> Solid(TakeChunk(chunks, hint).0)
    ensures |TakeChunk(chunks, hint).1| == Min(hint, |chunks[0].data|)
  {
    var d := chunks[0].data;
    var n := Min(|d|, hint);
    DropFacts(chunks, n);
    LeadIsFront(Tokens(chunks), n);
    var ts := Tokens(chunks);
    hide Tokens, NumBytes, Solid, Lead, Each, Drop;
    assert ts == ts[..n] + ts[n..];
  }

  lemma {:induction false} StepKeepsOrder(chunks: seq<Chunk>, op: Op)
    ensures Tokens(chunks) + Pushed(op) == Out(chunks, op) + Tokens(After(chunks, op))
  {
    hide PopStream, WriteAll, Each, Append;
    match op
    case Feed(piece, merge) =>
      AppendAdds(chunks, piece, merge);
    case Put(c) =>
      TokensAppend(chunks, [c]);
      OneChunk(c);
    case PopTo(w) =>
      if chunks != [] && chunks[0].kind == Stream {
        PopKeepsOrder(chunks, w);
      }
    case Take(hint) =>
      if chunks != [] && chunks[0].kind == Stream {
        TakeKeepsOrder(chunks, hint);
      }
  }

  function AfterAll(chunks: seq<Chunk>, ops: seq<Op>): seq<Chunk>
    decreases |ops|
  {
    if ops == [] then chunks else AfterAll(After(chunks, ops[0]), ops[1..])
  }

  function AllPushed(ops: seq<Op>): seq<Token> {
    if ops == [] then [] else Pushed(ops[0]) + AllPushed(ops[1..])
  }

  function AllOut(chunks: seq<Chunk>, ops: seq<Op>): seq<Token>
    decreases |ops|
  {
    if ops == [] then [] else Out(chunks, ops[0]) + AllOut(After(chunks, ops[0]), ops[1..])
  }

  /** Over every run, whatever the writers answer and whichever reads merge: what went in, in order,
      is what came out, in order, followed by what is still queued. */
  lemma {:induction false} FirstInFirstOut(chunks: seq<Chunk>, ops: seq<Op>)
    ensures Tokens(chunks) + AllPushed(ops) == AllOut(chunks, ops) + Tokens(AfterAll(chunks, ops))
    decreases |ops|
  {
    hide Tokens, Out, After, Pushed;
    if ops != [] {
      var next := After(chunks, ops[0]);
      StepKeepsOrder(chunks, ops[0]);
      FirstInFirstOut(next, ops[1..]);
      assert Tokens(chunks) + AllPushed(ops) == (Tokens(chunks) + Pushed(ops[0])) + AllPushed(ops[1..]);
      assert Out(chunks, ops[0]) + (Tokens(next) + AllPushed(ops[1..])) == (Out(chunks, ops[0]) + Tokens(next)) + AllPushed(ops[1..]);
      assert AllOut(chunks, ops) + Tokens(AfterAll(chunks, ops)) ==
             Out(chunks, ops[0]) + (AllOut(next, ops[1..]) + Tokens(AfterAll(chunks, ops)));
    }
  }

  // ---- Merging cannot be seen -----------------------------------------------------------------

  /** What pops into buffers show along a run. */
  function Seen(chunks: seq<Chunk>, ops: seq<Op>): seq<(seq<Byte>, Popped)>
    decreases |ops|
  {
    if ops == [] then []
    else
      var rest := Seen(After(chunks, ops[0]), ops[1..]);
      if ops[0].PopTo? then
        var (_, v, p) := Pop(chunks, ops[0].writer);
        [(v.out, p)] + rest
      else rest
  }

  /** Pushes without empty stream chunks, and pops into buffers. */
  predicate Plain(op: Op) {
    match op
    case Feed(piece, _) => piece != []
    case Put(c) => c.kind == Stream ==> c.data != []
    case PopTo(w) => w.Buffer? && w.out == []
    case Take(_) => false
  }

  /** The same operation, except that other reads may merge. */
  predicate SameButMerge(a: Op, b: Op) {
    a == b || (a.Feed? && b.Feed? && a.piece == b.piece)
  }

  lemma {:induction false} StepIgnoresCuts(x: seq<Chunk>, y: seq<Chunk>, a: Op, b: Op)
    requires Solid(x) && Solid(y) && Tokens(x) == Tokens(y) && Plain(a) && SameButMerge(a, b)
    ensures Solid(After(x, a)) && Solid(After(y, b)) && Tokens(After(x, a)) == Tokens(After(y, b))
    ensures a.PopTo? ==> Pop(x, a.writer).2 == Pop(y, b.writer).2 && Pop(x, a.writer).1.out == Pop(y, b.writer).1.out
  {
    hide Pop, Append, Tokens, Each;
    match a
    case Feed(piece, _) =>
      AppendAdds(x, piece, a.merge);
      AppendAdds(y, piece, b.merge);
    case Put(c) =>
      TokensAppend(x, [c]);
      TokensAppend(y, [c]);
    case PopTo(w) =>
      PopIgnoresCuts(x, y, w.room);
  }

  /** Over every run of pushes and pops into buffers, which reads `try_unsplit` merged can be told
      neither from any pop nor from what is left. */
  lemma {:induction false} MergingUnobservable(x: seq<Chunk>, y: seq<Chunk>, a: seq<Op>, b: seq<Op>)
    requires Solid(x) && Solid(y) && Tokens(x) == Tokens(y) && |a| == |b|
    requires forall i | 0 <= i < |a| :: Plain(a[i]) && SameButMerge(a[i], b[i])
    ensures Seen(x, a) == Seen(y, b) && Tokens(AfterAll(x, a)) == Tokens(AfterAll(y, b))
    decreases |a|
  {
    hide Solid, Tokens, After, Pop;
    if a != [] {
      StepIgnoresCuts(x, y, a[0], b[0]);
      hide Plain;
      MergingUnobservable(After(x, a[0]), After(y, b[0]), a[1..], b[1..]);
    }
  }

  /** Other writers do see the cuts: this one blocks on its second call. */
  lemma {:induction false} CutsVisibleToOthers()
    ensures var x := [Chunk(Stream, [1, 2], false)];
            var y := [Chunk(Stream, [1], false), Chunk(Stream, [2], false)];
            var w := Script([Accept(2), Block], []);
            Tokens(x) == Tokens(y) && Pop(x, w).2 == Got(2, 2, Stream) && Pop(y, w).2 == Got(1, 1, Stream)
  {
    var x := [Chunk(Stream, [1, 2], false)];
    var y := [Chunk(Stream, [1], false), Chunk(Stream, [2], false)];
    assert x[1..] == [] && y[1..] == [Chunk(Stream, [2], false)] && y[1..][1..] == [];
    assert Tokens(x) == [Loose(1), Loose(2)];
    assert Tokens(y[1..]) == [Loose(2)];
    assert Drop(x, 2) == [] && Drop(y, 1) == y[1..];
    var w := Script([Accept(2), Block], []);
    assert w.replies[1..] == [Block];
  }

  /** What a reader of a packet got is a prefix of it; of stream data, exactly what left the queue. */
  lemma {:induction false} GainedIsPrefix(chunks: seq<Chunk>, w: Writer)
    requires chunks != []
    ensures var gained := Gained(w, Pop(chunks, w).1);
            && (chunks[0].kind == Packet ==> gained <= chunks[0].data && Out(chunks, PopTo(w)) == [Whole(chunks[0].data)])
            && (chunks[0].kind == Stream ==> Each(gained) == Out(chunks, PopTo(w)))
  {
    if chunks[0].kind == Packet {
      WriteAllPrefix(chunks[0].data, w, 0);
    }
    hide WriteAll, PopStream;
  }

  // ---- The queue object ---------------------------------------------------------------------------

  /** What a reader answers to one `read`: it fills at most `n` bytes of the buffer, or fails. */
  datatype Read = Fill(n: nat) | ReadError

  /** One read into the kept buffer, or a new one of `capacity` bytes: how much it gives, whether it
      succeeds, and what is left of the buffer. An error loses the buffer. */
  function OneRead(left: nat, reply: Read, unused: Option<nat>, capacity: nat): (r: (nat, bool, Option<nat>))
    ensures r.0 <= left && (r.0 > 0 ==> r.1) && (r.2.Some? ==> r.2.value > 0)
  {
    var room := if unused.Some? then unused.value else capacity;
    if reply.ReadError? then (0, false, None)
    else
      var n := Min(Min(reply.n, room), left);
      (n, true, if room > n then Some(room - n) else None)
  }

  /** How many of `left` bytes a stream push takes in, whether it ends well, and the buffer it keeps. */
  function Taken(left: nat, replies: seq<Read>, unused: Option<nat>, capacity: nat): (r: (nat, bool, Option<nat>))
    ensures r.0 <= left
    decreases |replies|
  {
    var (n, ok, kept) := OneRead(left, if replies == [] then Fill(0) else replies[0], unused, capacity);
    if n == 0 || replies == [] then (0, ok, kept)
    else
      var (m, good, last) := Taken(left - n, replies[1..], kept, capacity);
      (n + m, good, last)
  }

  /** A reader that always gives something while it has something is read to its end. */
  lemma {:induction false} TakenWhole(left: nat, replies: seq<Read>, unused: Option<nat>, capacity: nat)
    requires capacity > 0 && (unused.Some? ==> unused.value > 0)
    requires |replies| >= left && forall i | 0 <= i < |replies| :: replies[i].Fill? && replies[i].n > 0
    ensures Taken(left, replies, unused, capacity).0 == left && Taken(left, replies, unused, capacity).1
    decreases |replies|
  {
    if replies != [] {
      var (n, ok, kept) := OneRead(left, replies[0], unused, capacity);
      assert ok && (left > 0 ==> n > 0);
      hide OneRead;
      if left > 0 {
        TakenWhole(left - n, replies[1..], kept, capacity);
      }
    }
  }

  /** After `copied` bytes in `i` reads, the rest of the push is a push of the rest. */
  predicate Underway(all: nat, replies: seq<Read>, first: Option<nat>, capacity: nat, copied: nat, i: nat, unused: Option<nat>)
    requires copied <= all && i <= |replies|
  {
    var r := Taken(all - copied, replies[i..], unused, capacity);
    Taken(all, replies, first, capacity) == (copied + r.0, r.1, r.2)
  }

  lemma {:induction false} UnderwayStep(all: nat, replies: seq<Read>, first: Option<nat>, capacity: nat, copied: nat, i: nat, unused: Option<nat>,
                     n: nat, ok: bool, kept: Option<nat>)
    requires copied <= all && i <= |replies| && Underway(all, replies, first, capacity, copied, i, unused)
    requires OneRead(all - copied, if i < |replies| then replies[i] else Fill(0), unused, capacity) == (n, ok, kept)
    ensures n > 0 && i < |replies| ==> Underway(all, replies, first, capacity, copied + n, i + 1, kept)
    ensures n == 0 || i == |replies| ==> Taken(all, replies, first, capacity) == (copied, ok, kept)
  {
    hide OneRead;
    if i < |replies| {
      assert replies[i..][1..] == replies[i + 1..];
    }
  }

  lemma {:induction false} NoneEach()
    ensures Each([]) == []
  {
  }

  lemma {:induction false} EachGrows(source: seq<Byte>, copied: nat, n: nat)
    requires copied + n <= |source|
    ensures Each(source[..copied + n]) == Each(source[..copied]) + Each(source[copied..copied + n])
  {
  }

  class ByteQueue {
    var bytes: seq<Chunk>
    var unusedBuffer: Option<nat>   // the length of the buffer kept for reuse
    var length: nat
    const defaultChunkCapacity: nat

    ghost predicate Valid()
      reads this
    {
      length == NumBytes(bytes) && (unusedBuffer.Some? ==> unusedBuffer.value > 0)
    }

    constructor (capacity: nat)
      ensures Valid() && bytes == [] && defaultChunkCapacity == capacity
    {
      bytes, unusedBuffer, length, defaultChunkCapacity := [], None, 0, capacity;
    }

    method PushChunk(c: Chunk) returns (len: nat)
      requires Valid()
      modifies this`bytes, this`length
      ensures Valid() && len == |c.data| && bytes == old(bytes) + [c]
      ensures Tokens(bytes) == old(Tokens(bytes)) + ChunkTokens(c)
      ensures old(Solid(bytes)) && (c.kind == Stream ==> c.data != []) ==> Solid(bytes)
    {
      TokensAppend(bytes, [c]);
      OneChunk(c);
      len := |c.data|;
      length := length + len;
      bytes := bytes + [c];
    }

    /** One pass of `push_stream`'s loop after a read of `piece`. */
    method PushPiece(piece: seq<Byte>, merge: bool)
      requires Valid()
      modifies this`bytes, this`length
      ensures Valid() && bytes == Append(old(bytes), piece, merge)
      ensures Tokens(bytes) == old(Tokens(bytes)) + Each(piece)
      ensures old(Solid(bytes)) && piece != [] ==> Solid(bytes)
    {
      AppendAdds(bytes, piece, merge);
      var n := |bytes|;
      if n > 0 && bytes[n - 1].kind == Stream && bytes[n - 1].mutable && merge {
        bytes := bytes[..n - 1] + [bytes[n - 1].(data := bytes[n - 1].data + piece)];
        length := length + |piece|;
      } else {
        var _ := PushChunk(Chunk(Stream, piece, true));
      }
    }

    method ReadOnce(left: nat, reply: Read) returns (n: nat, ok: bool)
      modifies this`unusedBuffer
      ensures (n, ok, unusedBuffer) == OneRead(left, reply, old(unusedBuffer), defaultChunkCapacity)
    {
      var room := if unusedBuffer.Some? then unusedBuffer.value else defaultChunkCapacity;
      unusedBuffer := None;
      if reply.ReadError? {
        return 0, false;
      }
      n, ok := Min(Min(reply.n, room), left), true;
      if room > n {
        unusedBuffer := Some(room - n);
      }
    }

    /** Reads `source` as the reader's `replies` dole it out; `merges` says which pieces happen to lie
        behind the last chunk in memory. What was read is queued, in order and nothing else, also
        when the reader fails half-way. */
    method PushStream(source: seq<Byte>, replies: seq<Read>, merges: nat -> bool) returns (copied: nat, ok: bool)
      requires Valid()
      modifies this
      ensures Valid()
      ensures (copied, ok, unusedBuffer) == Taken(|source|, replies, old(unusedBuffer), defaultChunkCapacity)
      ensures Tokens(bytes) == old(Tokens(bytes)) + Each(source[..copied])
      ensures old(Solid(bytes)) ==> Solid(bytes)
    {
      hide Tokens, NumBytes, Each, Solid, Append, OneRead, Taken;
      copied, ok := 0, true;
      var i := 0;
      NoneEach();
      assert replies[0..] == replies && source[..0] == [];
      assert Underway(|source|, replies, unusedBuffer, defaultChunkCapacity, 0, 0, unusedBuffer);
      hide Underway;
      while true
        invariant Valid() && copied <= |source| && i <= |replies| && ok
        invariant Underway(|source|, replies, old(unusedBuffer), defaultChunkCapacity, copied, i, unusedBuffer)
        invariant Tokens(bytes) == old(Tokens(bytes)) + Each(source[..copied])
        invariant old(Solid(bytes)) ==> Solid(bytes)
        decreases |replies| - i
      {
        ghost var unused := unusedBuffer;
        var n;
        n, ok := ReadOnce(|source| - copied, if i < |replies| then replies[i] else Fill(0));
        UnderwayStep(|source|, replies, old(unusedBuffer), defaultChunkCapacity, copied, i, unused, n, ok, unusedBuffer);
        if n == 0 || i == |replies| {
          break;
        }
        EachGrows(source, copied, n);
        PushPiece(source[copied..copied + n], merges(i));
        copied := copied + n;
        i := i + 1;
      }
    }

    /** `data` is what `read_exact` delivered, nothing if it failed; then nothing is queued. */
    method PushPacket(data: Option<seq<Byte>>, size: nat) returns (ok: bool)
      requires Valid() && (data.Some? ==> |data.value| == size)
      modifies this
      ensures Valid() && ok == data.Some?
      ensures ok ==> Tokens(bytes) == old(Tokens(bytes)) + [Whole(data.value)]
      ensures !ok ==> bytes == old(bytes) && length == old(length)
      ensures old(Solid(bytes)) ==> Solid(bytes)
    {
      ok := data.Some?;
      if !ok {
        return;
      }
      if unusedBuffer.Some? && unusedBuffer.value >= size {
        unusedBuffer := if unusedBuffer.value == size then None else Some(unusedBuffer.value - size);
      }
      var _ := PushChunk(Chunk(Packet, data.value, true));
    }

    method PopStreamData(w: Writer) returns (v: Writer, r: Result)
      requires Valid()
      modifies this`bytes, this`length
      ensures Valid() && (bytes, v, r) == PopStream(old(bytes), w, 0)
    {
      hide Write, Drop, Tokens, NumBytes, Lead, Solid;
      v, r := w, Copied(0);
      var total := 0;
      while bytes != [] && bytes[0].kind == Stream
        invariant Valid()
        invariant PopStream(old(bytes), w, 0) == PopStream(bytes, v, total)
        invariant r == Copied(total)
        decreases Patience(v), NumBytes(bytes)
      {
        var (u, answer) := Write(v, bytes[0].data);
        v := u;
        match answer
        case Interrupted =>
        case WouldBlock =>
          if total == 0 {
            r := Blocked;
          }
          return;
        case Failed =>
          r := Error;
          return;
        case Wrote(n) =>
          if n == 0 {
            return;
          }
          DropFacts(bytes, n);
          bytes := Drop(bytes, n);
          length := length - n;
          total := total + n;
          r := Copied(total);
      }
    }

    /** The write loop over one packet. */
    static method WritePacket(data: seq<Byte>, w: Writer) returns (v: Writer, r: Result)
      ensures (v, r) == WriteAll(data, w, 0)
    {
      v, r := w, Copied(0);
      var rest, total := data, 0;
      while true
        invariant WriteAll(data, w, 0) == WriteAll(rest, v, total)
        decreases Patience(v), |rest|
      {
        var (u, answer) := Write(v, rest);
        v := u;
        match answer
        case Interrupted =>
        case WouldBlock => return v, Panic;
        case Failed => return v, Error;
        case Wrote(n) =>
          if n == 0 {
            return v, Copied(total);
          }
          rest, total := rest[n..], total + n;
      }
    }

    method PopNext(w: Writer) returns (v: Writer, p: Popped)
      requires Valid()
      modifies this`bytes, this`length
      ensures Valid() && (bytes, v, p) == Pop(old(bytes), w)
    {
      if bytes == [] {
        return w, Nothing;
      }
      var r;
      if bytes[0].kind == Stream {
        v, r := PopStreamData(w);
        p := if r.Copied? then Got(r.n, r.n, Stream) else Not(r);
      } else {
        var data := bytes[0].data;
        bytes, length := bytes[1..], length - |data|;
        v, r := WritePacket(data, w);
        p := if r.Copied? then Got(r.n, |data|, Packet) else Not(r);
      }
    }

    method PopChunk(hint: nat) returns (data: seq<Byte>, kind: Option<Kind>)
      requires Valid()
      modifies this`bytes, this`length
      ensures Valid()
      ensures old(bytes) == [] ==> kind == None && data == [] && bytes == []
      ensures old(bytes) != [] ==> kind == Some(old(bytes)[0].kind) && (bytes, data) == TakeChunk(old(bytes), hint)
    {
      if bytes == [] {
        return [], None;
      }
      kind := Some(bytes[0].kind);
      data := bytes[0].data;
      if bytes[0].kind == Stream {
        TakeKeepsOrder(bytes, hint);
        var n := Min(|data|, hint);
        data := data[..n];
        bytes := Drop(bytes, n);
      } else {
        bytes := bytes[1..];
      }
      length := length - |data|;
    }

    method PeekStreamData(w: Writer) returns (v: Writer, r: Result)
      ensures (v, r) == PeekStream(bytes, w, 0)
    {
      v, r := w, Copied(0);
      var total := 0;
      var i := 0;
      assert bytes[0..] == bytes;
      while i < |bytes|
        invariant i <= |bytes| && PeekStream(bytes, w, 0) == PeekStream(bytes[i..], v, total)
      {
        if bytes[i].kind == Packet {
          break;
        }
        v, r := PeekChunkData(bytes[i].data, v, total);
        assert bytes[i..][1..] == bytes[i + 1..];
        if !r.Copied? {
          return;
        }
        total, i := r.n, i + 1;
      }
      r := Copied(total);
    }

    static method PeekChunkData(data: seq<Byte>, w: Writer, before: nat) returns (v: Writer, r: Result)
      ensures (v, r) == PeekChunk(data, w, before)
    {
      v := w;
      var rest, total: nat := data, before;
      while true
        invariant PeekChunk(data, w, before) == PeekChunk(rest, v, total)
        decreases Patience(v), |rest|
      {
        var (u, answer) := Write(v, rest);
        v := u;
        match answer
        case Interrupted =>
        case WouldBlock => return v, if total == 0 then Blocked else Copied(total);
        case Failed => return v, Error;
        case Wrote(n) =>
          if n == 0 {
            return v, Copied(total);
          }
          rest, total := rest[n..], total + n;
      }
    }

    method PeekNext(w: Writer) returns (v: Writer, p: Popped)
      ensures (v, p) == Peek(bytes, w)
    {
      if bytes == [] {
        return w, Nothing;
      }
      var r;
      if bytes[0].kind == Stream {
        v, r := PeekStreamData(w);
        p := if r.Copied? then Got(r.n, r.n, Stream) else Not(r);
      } else {
        v, r := WritePacket(bytes[0].data, w);
        p := if r.Copied? then Got(r.n, |bytes[0].data|, Packet) else Not(r);
      }
    }
  }
}
