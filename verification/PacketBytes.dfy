/** The wire form of packets (src/main/network/packet.rs). */
module PacketBytes {
  import opened Options
  import opened Numbers

  type U16 = x: int | 0 <= x < 0x1_0000
  type U32 = x: int | 0 <= x < 0x1_0000_0000

  datatype TcpHeader = TcpHeader(srcPort: U16, dstPort: U16, sequence: U32, acknowledgement: U32,
                                 flags: Byte, window: U16, windowScale: Option<Byte>)

  datatype Data =
    | Tcp(header: TcpHeader, chunks: seq<seq<Byte>>)
    | Udp(srcPort: U16, dstPort: U16, payload: seq<Byte>)

  datatype Packet = Packet(src: U32, dst: U32, data: Data)

  const IP_HEADER_LEN := 20
  const UDP_HEADER_LEN := 8
  const PROTO_TCP: Byte := 6
  const PROTO_UDP: Byte := 17
  const ECE: Byte := 0x40
  const CWR: Byte := 0x80

  // ---- Lengths --------------------------------------------------------------------------------

  function TcpHeaderLen(h: TcpHeader): nat {
    var len := if h.windowScale.Some? then 20 + 3 else 20;
    if len % 4 != 0 then len + (4 - len % 4) else len
  }

  function PayloadLen(chunks: seq<seq<Byte>>): nat {
    if chunks == [] then 0 else |chunks[0]| + PayloadLen(chunks[1..])
  }

  function Flatten(chunks: seq<seq<Byte>>): seq<Byte> {
    if chunks == [] then [] else chunks[0] + Flatten(chunks[1..])
  }

  function DataLen(d: Data): nat {
    match d
    case Tcp(h, chunks) => TcpHeaderLen(h) + PayloadLen(chunks)
    case Udp(_, _, payload) => UDP_HEADER_LEN + |payload|
  }

  function Len(p: Packet): nat {
    IP_HEADER_LEN + DataLen(p.data)
  }

  // ---- Writing --------------------------------------------------------------------------------

  function Be16(x: U16): seq<Byte> { [x / 0x100, x % 0x100] }

  function Be32(x: U32): seq<Byte> {
    [x / 0x100_0000, x / 0x1_0000 % 0x100, x / 0x100 % 0x100, x % 0x100]
  }

  /** Clears one bit of the flags. */
  function Clear(flags: Byte, bit: Byte): Byte
    requires bit > 0
  {
    if flags / bit % 2 == 1 then flags - bit else flags
  }

  lemma {:induction false} ClearedFlags(flags: Byte)
    ensures Clear(Clear(flags, ECE), CWR) == flags % 64
  {
  }

  function IpBytes(len: U16, protocol: Byte, src: U32, dst: U32): seq<Byte> {
    [0x45, 0] + Be16(len) + Be16(0) + Be16(0x4000) + [64, protocol] + Be16(0) + Be32(src) + Be32(dst)
  }

  function OptionBytes(h: TcpHeader): seq<Byte> {
    if h.windowScale.Some? then [3, 3, h.windowScale.value, 0] else []
  }

  function TcpBytes(h: TcpHeader): seq<Byte> {
    Be16(h.srcPort) + Be16(h.dstPort) + Be32(h.sequence) + Be32(h.acknowledgement)
      + [TcpHeaderLen(h) / 4 * 16, Clear(Clear(h.flags, ECE), CWR)] + Be16(h.window) + Be16(0) + Be16(0)
      + OptionBytes(h)
  }

  function DataBytes(d: Data): seq<Byte>
    requires DataLen(d) < 0x1_0000
  {
    match d
    case Tcp(h, chunks) => TcpBytes(h) + Flatten(chunks)
    case Udp(srcPort, dstPort, payload) => Be16(srcPort) + Be16(dstPort) + Be16(DataLen(d)) + Be16(0) + payload
  }

  /** The bytes of a packet; a length that does not fit its field is a panic. */
  function Encode(p: Packet): Option<seq<Byte>> {
    if Len(p) >= 0x1_0000 then None
    else Some(IpBytes(Len(p), if p.data.Tcp? then PROTO_TCP else PROTO_UDP, p.src, p.dst) + DataBytes(p.data))
  }

  lemma {:induction false} FlattenLen(chunks: seq<seq<Byte>>)
    ensures |Flatten(chunks)| == PayloadLen(chunks)
  {
    if chunks != [] {
      FlattenLen(chunks[1..]);
    }
  }

  /** As many bytes are written as the packet says it has, so the header length assertion holds. */
  lemma {:induction false} EncodedLength(p: Packet)
    requires Len(p) < 0x1_0000
    ensures Encode(p).Some? && |Encode(p).value| == Len(p)
    ensures p.data.Tcp? ==> 20 + |OptionBytes(p.data.header)| == TcpHeaderLen(p.data.header) == |TcpBytes(p.data.header)|
  {
    if p.data.Tcp? {
      FlattenLen(p.data.chunks);
    }
  }

  // ---- Reading, as the standards say --------------------------------------------------------------

  function Num16(b: seq<Byte>, i: nat): U16
    requires i + 2 <= |b|
  {
    b[i] as int * 0x100 + b[i + 1] as int
  }

  function Num32(b: seq<Byte>, i: nat): U32
    requires i + 4 <= |b|
  {
    b[i] as int * 0x100_0000 + b[i + 1] as int * 0x1_0000 + b[i + 2] as int * 0x100 + b[i + 3] as int
  }

  datatype Datagram = Datagram(src: U32, dst: U32, protocol: Byte, body: seq<Byte>)

  /** Section 3.1 of RFC 791: an unfragmented datagram. */
  function ParseIp(b: seq<Byte>): Option<Datagram> {
    if |b| < 20 || b[0] / 16 != 4 then None
    else
      var headerLen := b[0] % 16 * 4;
      var total := Num16(b, 2);
      if !(20 <= headerLen <= total <= |b|) || b[6] % 64 != 0 || b[7] != 0 then None
      else Some(Datagram(Num32(b, 12), Num32(b, 16), b[9], b[headerLen..total]))
  }

  datatype Segment = Segment(srcPort: U16, dstPort: U16, sequence: U32, acknowledgement: U32, flags: Byte,
                             window: U16, windowScale: Option<Byte>, payload: seq<Byte>)

  /** Section 3.1 of RFC 9293 and section 2.2 of RFC 7323: walks the options for a window scale. */
  function ParseOptions(b: seq<Byte>, found: Option<Byte>): Option<Option<Byte>> {
    if b == [] || b[0] == 0 then Some(found)
    else if b[0] == 1 then ParseOptions(b[1..], found)
    else if |b| < 2 || b[1] < 2 || b[1] > |b| then None
    else if b[0] == 3 && b[1] == 3 then ParseOptions(b[3..], Some(b[2]))
    else ParseOptions(b[b[1]..], found)
  }

  /** Section 3.1 of RFC 9293. */
  function ParseTcp(b: seq<Byte>): Option<Segment> {
    if |b| < 20 then None
    else
      var offset := b[12] / 16 * 4;
      if !(20 <= offset <= |b|) then None
      else
        var options := ParseOptions(b[20..offset], None);
        if options.None? then None
        else Some(Segment(Num16(b, 0), Num16(b, 2), Num32(b, 4), Num32(b, 8), b[13], Num16(b, 14), options.value, b[offset..]))
  }

  datatype UserDatagram = UserDatagram(srcPort: U16, dstPort: U16, payload: seq<Byte>)

  /** The "Format" section of RFC 768. */
  function ParseUdp(b: seq<Byte>): Option<UserDatagram> {
    if |b| < 8 || !(8 <= Num16(b, 4) <= |b|) then None
    else Some(UserDatagram(Num16(b, 0), Num16(b, 2), b[8..Num16(b, 4)]))
  }

  // ---- Round trips --------------------------------------------------------------------------------

  lemma {:induction false} Bytes16(x: U16)
    ensures x / 0x100 * 0x100 + x % 0x100 == x
  {
  }

  lemma {:induction false} Bytes32(x: U32)
    ensures x / 0x100_0000 * 0x100_0000 + x / 0x1_0000 % 0x100 * 0x1_0000 + x / 0x100 % 0x100 * 0x100 + x % 0x100 == x
  {
    assert x / 0x1_0000 == x / 0x100_0000 * 0x100 + x / 0x1_0000 % 0x100;
    assert x / 0x100 == x / 0x1_0000 * 0x100 + x / 0x100 % 0x100;
  }

  lemma {:induction false} Read16(b: seq<Byte>, i: nat, x: U16)
    requires i + 2 <= |b| && b[i..i + 2] == Be16(x)
    ensures Num16(b, i) == x
  {
    assert b[i] == b[i..i + 2][0] && b[i + 1] == b[i..i + 2][1];
    Bytes16(x);
  }

  lemma {:induction false} Read32(b: seq<Byte>, i: nat, x: U32)
    requires i + 4 <= |b| && b[i..i + 4] == Be32(x)
    ensures Num32(b, i) == x
  {
    assert b[i] == b[i..i + 4][0] && b[i + 1] == b[i..i + 4][1] && b[i + 2] == b[i..i + 4][2] && b[i + 3] == b[i..i + 4][3];
    Bytes32(x);
  }

  lemma {:induction false} IpRoundTrip(len: U16, protocol: Byte, src: U32, dst: U32, body: seq<Byte>)
    requires len == 20 + |body|
    ensures ParseIp(IpBytes(len, protocol, src, dst) + body) == Some(Datagram(src, dst, protocol, body))
  {
    var b := IpBytes(len, protocol, src, dst) + body;
    assert b[2..4] == Be16(len) && b[12..16] == Be32(src) && b[16..20] == Be32(dst);
    assert b[0] == 0x45 && b[6] == 0x40 && b[7] == 0 && b[9] == protocol && b[20..len] == body;
    hide IpBytes;
    Read16(b, 2, len);
    Read32(b, 12, src);
    Read32(b, 16, dst);
  }

  lemma {:induction false} OptionsRoundTrip(h: TcpHeader)
    ensures ParseOptions(OptionBytes(h), None) == Some(h.windowScale)
  {
    if h.windowScale.Some? {
      var b := OptionBytes(h);
      assert b[3..] == [0];
      assert ParseOptions([0], h.windowScale) == Some(h.windowScale);
    }
  }

  /** Where the fields of a segment lie. */
  lemma {:induction false} TcpLayout(h: TcpHeader, payload: seq<Byte>)
    ensures var b := TcpBytes(h) + payload;
            var n := TcpHeaderLen(h);
            && 20 <= n <= |b|
            && b[0..2] == Be16(h.srcPort) && b[2..4] == Be16(h.dstPort)
            && b[4..8] == Be32(h.sequence) && b[8..12] == Be32(h.acknowledgement)
            && b[12] == n / 4 * 16 && b[13] == Clear(Clear(h.flags, ECE), CWR) && b[14..16] == Be16(h.window)
            && b[20..n] == OptionBytes(h) && b[n..] == payload
  {
    hide Clear;
    var b := TcpBytes(h) + payload;
    var ports := Be16(h.srcPort) + Be16(h.dstPort);
    var numbers := Be32(h.sequence) + Be32(h.acknowledgement);
    var rest := [TcpHeaderLen(h) / 4 * 16, Clear(Clear(h.flags, ECE), CWR)] + Be16(h.window) + Be16(0) + Be16(0);
    assert b == ports + (numbers + (rest + (OptionBytes(h) + payload)));
    assert b[4..12] == numbers && b[12..20] == rest;
    assert b[4..8] == numbers[0..4] && b[8..12] == numbers[4..8];
    assert b[12] == rest[0] && b[13] == rest[1] && b[14..16] == rest[2..4];
  }

  lemma {:induction false} TcpRoundTrip(h: TcpHeader, payload: seq<Byte>)
    ensures ParseTcp(TcpBytes(h) + payload) ==
            Some(Segment(h.srcPort, h.dstPort, h.sequence, h.acknowledgement, h.flags % 64, h.window, h.windowScale, payload))
  {
    var b := TcpBytes(h) + payload;
    TcpLayout(h, payload);
    ClearedFlags(h.flags);
    OptionsRoundTrip(h);
    hide TcpBytes, OptionBytes, Be16, Be32, ParseOptions, Clear;
    Read16(b, 0, h.srcPort);
    Read16(b, 2, h.dstPort);
    Read32(b, 4, h.sequence);
    Read32(b, 8, h.acknowledgement);
    Read16(b, 14, h.window);
    hide Num16, Num32;
  }

  lemma {:induction false} UdpRoundTrip(srcPort: U16, dstPort: U16, payload: seq<Byte>)
    requires DataLen(Udp(srcPort, dstPort, payload)) < 0x1_0000
    ensures ParseUdp(DataBytes(Udp(srcPort, dstPort, payload))) == Some(UserDatagram(srcPort, dstPort, payload))
  {
    var b := DataBytes(Udp(srcPort, dstPort, payload));
    var n := 8 + |payload|;
    assert b[0..2] == Be16(srcPort) && b[2..4] == Be16(dstPort) && b[4..6] == Be16(n) && b[8..n] == payload;
    Read16(b, 0, srcPort);
    Read16(b, 2, dstPort);
    Read16(b, 4, n);
  }

  /** What a receiver that does not look at checksums recovers from the bytes of any packet that fits. */
  lemma {:induction false} PacketRoundTrip(p: Packet)
    requires Len(p) < 0x1_0000
    ensures var ip := ParseIp(Encode(p).value);
            && ip.Some? && ip.value.src == p.src && ip.value.dst == p.dst
            && match p.data
               case Tcp(h, chunks) =>
                 && ip.value.protocol == PROTO_TCP
                 && ParseTcp(ip.value.body) == Some(Segment(h.srcPort, h.dstPort, h.sequence, h.acknowledgement,
                                                            h.flags % 64, h.window, h.windowScale, Flatten(chunks)))
               case Udp(srcPort, dstPort, payload) =>
                 && ip.value.protocol == PROTO_UDP
                 && ParseUdp(ip.value.body) == Some(UserDatagram(srcPort, dstPort, payload))
  {
    hide ParseIp, ParseTcp, ParseUdp, TcpBytes, IpBytes;
    EncodedLength(p);
    var body := DataBytes(p.data);
    IpLen(Len(p), if p.data.Tcp? then PROTO_TCP else PROTO_UDP, p.src, p.dst);
    IpRoundTrip(Len(p), if p.data.Tcp? then PROTO_TCP else PROTO_UDP, p.src, p.dst, body);
    match p.data
    case Tcp(h, chunks) => TcpRoundTrip(h, Flatten(chunks));
    case Udp(srcPort, dstPort, payload) => UdpRoundTrip(srcPort, dstPort, payload);
  }

  lemma {:induction false} IpLen(len: U16, protocol: Byte, src: U32, dst: U32)
    ensures |IpBytes(len, protocol, src, dst)| == 20
  {
  }

  // ---- Checksums --------------------------------------------------------------------------------

  /** The sum of 16-bit words, the last one filled up with a zero byte. */
  function WordSum(b: seq<Byte>): nat {
    if b == [] then 0
    else if |b| == 1 then b[0] as int * 0x100
    else Num16(b, 0) + WordSum(b[2..])
  }

  /** Carries are added back in: the one's complement sum. */
  function Fold(x: nat): nat {
    if x < 0x1_0000 then x else Fold(x / 0x1_0000 + x % 0x1_0000)
  }

  /** RFC 791 and RFC 9293, section 3.1: with its checksum in place the sum is all ones. */
  predicate Verifies(b: seq<Byte>) {
    Fold(WordSum(b)) == 0xFFFF
  }

  lemma {:induction false} AllOnesIff(x: nat)
    ensures Fold(x) == 0xFFFF <==> x > 0 && x % 0xFFFF == 0
  {
    if x >= 0x1_0000 {
      var q := x / 0x1_0000;
      var y := q + x % 0x1_0000;
      assert x == y + q * 0xFFFF;
      assert x % 0xFFFF == y % 0xFFFF;
      AllOnesIff(y);
    }
  }

  lemma {:induction false} WordSumConcat(a: seq<Byte>, b: seq<Byte>)
    requires |a| % 2 == 0
    ensures WordSum(a + b) == WordSum(a) + WordSum(b)
  {
    if a == [] {
      assert a + b == b;
    } else {
      assert (a + b)[2..] == a[2..] + b && (a + b)[0] == a[0] && (a + b)[1] == a[1];
      WordSumConcat(a[2..], b);
    }
  }

  /** The two 16-bit halves of a 32-bit field. */
  function Halves(x: U32): nat {
    x / 0x1_0000 + x % 0x1_0000
  }

  lemma {:induction false} FieldSums(x: U16, y: U32, a: Byte, b: Byte)
    ensures WordSum(Be16(x)) == x && WordSum(Be32(y)) == Halves(y) && WordSum([a, b]) == a * 0x100 + b
  {
    Bytes16(x);
    HalvesOf(y);
    assert Be16(x)[2..] == [] && [a, b][2..] == [];
    var z := Be32(y);
    hide Be32;
    assert z[2..] == [z[2], z[3]] && [z[2], z[3]][2..] == [];
    assert WordSum(z[2..]) == Num16(z, 2);
  }

  lemma {:induction false} HalvesOf(y: U32)
    ensures |Be32(y)| == 4 && Halves(y) == Num16(Be32(y), 0) + Num16(Be32(y), 2)
  {
    assert y / 0x1_0000 == y / 0x100_0000 * 0x100 + y / 0x1_0000 % 0x100;
    assert y % 0x1_0000 == y / 0x100 % 0x100 * 0x100 + y % 0x100;
  }

  /** What the words of the header add up to, its checksum field being zero. */
  function IpSum(len: U16, protocol: Byte, src: U32, dst: U32): nat {
    0x4500 + len + 0x4000 + (64 * 0x100 + protocol) + Halves(src) + Halves(dst)
  }

  lemma {:induction false} IpHeaderSum(len: U16, protocol: Byte, src: U32, dst: U32)
    ensures WordSum(IpBytes(len, protocol, src, dst)) == IpSum(len, protocol, src, dst)
  {
    FieldSums(len, src, 0x45, 0);
    FieldSums(0, dst, 64, protocol);
    FieldSums(0x4000, dst, 64, protocol);
    hide WordSum, Be32, Be16, Halves;
    BeLengths(len, src);
    BeLengths(0, dst);
    BeLengths(0x4000, dst);
    var b1 := [0x45, 0] + Be16(len);
    var b2 := b1 + Be16(0);
    var b3 := b2 + Be16(0x4000);
    var b4 := b3 + [64, protocol];
    var b5 := b4 + Be16(0);
    WordSumConcat([0x45, 0], Be16(len));
    WordSumConcat(b1, Be16(0));
    WordSumConcat(b2, Be16(0x4000));
    WordSumConcat(b3, [64, protocol]);
    WordSumConcat(b4, Be16(0));
    WordSumConcat(b5, Be32(src));
    WordSumConcat(b5 + Be32(src), Be32(dst));
  }

  lemma {:induction false} BeLengths(x: U16, y: U32)
    ensures |Be16(x)| == 2 && |Be32(y)| == 4
  {
  }

  /** RFC 9293, section 3.1: the segment is summed behind addresses, protocol and length. */
  function PseudoHeader(src: U32, dst: U32, protocol: Byte, len: U16): seq<Byte> {
    Be32(src) + Be32(dst) + [0, protocol] + Be16(len)
  }

  /** What the words of a segment and its pseudo header add up to, its checksum field being zero. */
  function TcpSum(src: U32, dst: U32, len: U16, h: TcpHeader, payload: seq<Byte>): nat {
    Halves(src) + Halves(dst) + PROTO_TCP + len
      + h.srcPort + h.dstPort + Halves(h.sequence) + Halves(h.acknowledgement)
      + (TcpHeaderLen(h) / 4 * 16 * 0x100 + h.flags % 64) + h.window
      + (if h.windowScale.Some? then 0x303 + h.windowScale.value * 0x100 else 0) + WordSum(payload)
  }

  lemma {:induction false} PseudoSum(src: U32, dst: U32, len: U16)
    ensures |PseudoHeader(src, dst, PROTO_TCP, len)| == 12
    ensures WordSum(PseudoHeader(src, dst, PROTO_TCP, len)) == Halves(src) + Halves(dst) + PROTO_TCP + len
  {
    FieldSums(len, src, 0, PROTO_TCP);
    FieldSums(len, dst, 0, PROTO_TCP);
    BeLengths(len, src);
    BeLengths(len, dst);
    hide WordSum, Be32, Be16, Halves;
    WordSumConcat(Be32(src), Be32(dst));
    WordSumConcat(Be32(src) + Be32(dst), [0, PROTO_TCP]);
    WordSumConcat(Be32(src) + Be32(dst) + [0, PROTO_TCP], Be16(len));
  }

  lemma {:induction false} OptionSum(h: TcpHeader)
    ensures |OptionBytes(h)| % 2 == 0
    ensures WordSum(OptionBytes(h)) == if h.windowScale.Some? then 0x303 + h.windowScale.value * 0x100 else 0
  {
    if h.windowScale.Some? {
      FieldSums(0, 0, 3, 3);
      FieldSums(0, 0, h.windowScale.value, 0);
      WordSumConcat([3, 3], [h.windowScale.value, 0]);
      assert [3, 3] + [h.windowScale.value, 0] == OptionBytes(h);
    }
  }

  lemma {:induction false} PortsAndNumbers(h: TcpHeader)
    ensures var b := Be16(h.srcPort) + Be16(h.dstPort) + Be32(h.sequence) + Be32(h.acknowledgement);
            |b| == 12 && WordSum(b) == h.srcPort + h.dstPort + Halves(h.sequence) + Halves(h.acknowledgement)
  {
    FieldSums(h.srcPort, h.sequence, 0, 0);
    FieldSums(h.dstPort, h.acknowledgement, 0, 0);
    BeLengths(h.srcPort, h.sequence);
    BeLengths(h.dstPort, h.acknowledgement);
    hide WordSum, Be32, Be16, Halves;
    var ports := Be16(h.srcPort) + Be16(h.dstPort);
    WordSumConcat(Be16(h.srcPort), Be16(h.dstPort));
    WordSumConcat(ports, Be32(h.sequence));
    WordSumConcat(ports + Be32(h.sequence), Be32(h.acknowledgement));
  }

  lemma {:induction false} FlagsToUrgent(offset: Byte, flags: Byte, window: U16)
    ensures var b := [offset, flags] + Be16(window) + Be16(0) + Be16(0);
            |b| == 8 && WordSum(b) == offset * 0x100 + flags + window
  {
    FieldSums(window, 0, offset, flags);
    FieldSums(0, 0, offset, flags);
    BeLengths(window, 0);
    BeLengths(0, 0);
    hide WordSum, Be16;
    WordSumConcat([offset, flags], Be16(window));
    WordSumConcat([offset, flags] + Be16(window), Be16(0));
    WordSumConcat([offset, flags] + Be16(window) + Be16(0), Be16(0));
  }

  lemma {:induction false} TcpHeaderSum(h: TcpHeader)
    ensures |TcpBytes(h)| % 2 == 0
    ensures WordSum(TcpBytes(h)) ==
            h.srcPort + h.dstPort + Halves(h.sequence) + Halves(h.acknowledgement)
            + (TcpHeaderLen(h) / 4 * 16 * 0x100 + h.flags % 64) + h.window
            + (if h.windowScale.Some? then 0x303 + h.windowScale.value * 0x100 else 0)
  {
    var offset, flags := TcpHeaderLen(h) / 4 * 16, Clear(Clear(h.flags, ECE), CWR);
    ClearedFlags(h.flags);
    PortsAndNumbers(h);
    FlagsToUrgent(offset, flags, h.window);
    OptionSum(h);
    var a := Be16(h.srcPort) + Be16(h.dstPort) + Be32(h.sequence) + Be32(h.acknowledgement);
    var b := [offset, flags] + Be16(h.window) + Be16(0) + Be16(0);
    assert TcpBytes(h) == a + b + OptionBytes(h);
    hide WordSum, Be32, Be16, Halves, Clear, OptionBytes, TcpHeaderLen, TcpBytes;
    WordSumConcat(a, b);
    WordSumConcat(a + b, OptionBytes(h));
  }

  /** A receiver that verifies: the header checksum, and behind the pseudo header the segment's. */
  function ReceiveIp(b: seq<Byte>): Option<Datagram> {
    var d := ParseIp(b);
    if d.Some? && Verifies(b[..b[0] % 16 * 4]) then d else None
  }

  function ReceiveTcp(src: U32, dst: U32, b: seq<Byte>): Option<Segment> {
    if |b| < 0x1_0000 && Verifies(PseudoHeader(src, dst, PROTO_TCP, |b|) + b) then ParseTcp(b) else None
  }

  /** RFC 768: a checksum of zero means that the sender made none. */
  function ReceiveUdp(src: U32, dst: U32, b: seq<Byte>): Option<UserDatagram> {
    if |b| < 8 || |b| >= 0x1_0000 then None
    else if Num16(b, 6) == 0 || Verifies(PseudoHeader(src, dst, PROTO_UDP, |b|) + b) then ParseUdp(b)
    else None
  }

  /** The checksum fields are written as zero, so a receiver that verifies them accepts the header
      exactly when the sum of its words happens to be a multiple of 0xFFFF. */
  lemma {:induction false} HeaderAcceptedIff(p: Packet)
    requires Len(p) < 0x1_0000
    ensures var protocol := if p.data.Tcp? then PROTO_TCP else PROTO_UDP;
            ReceiveIp(Encode(p).value) ==
            if IpSum(Len(p), protocol, p.src, p.dst) % 0xFFFF == 0 then Some(Datagram(p.src, p.dst, protocol, DataBytes(p.data)))
            else None
  {
    hide ParseIp, DataBytes, Fold, WordSum;
    var protocol := if p.data.Tcp? then PROTO_TCP else PROTO_UDP;
    var header, b := IpBytes(Len(p), protocol, p.src, p.dst), Encode(p).value;
    EncodedLength(p);
    IpLen(Len(p), protocol, p.src, p.dst);
    IpRoundTrip(Len(p), protocol, p.src, p.dst, DataBytes(p.data));
    assert b[0] == 0x45 && b[..20] == header;
    IpHeaderSum(Len(p), protocol, p.src, p.dst);
    AllOnesIff(IpSum(Len(p), protocol, p.src, p.dst));
  }

  /** The same of a TCP segment. */
  lemma {:induction false} SegmentAcceptedIff(src: U32, dst: U32, h: TcpHeader, chunks: seq<seq<Byte>>)
    requires Len(Packet(src, dst, Tcp(h, chunks))) < 0x1_0000
    ensures var b := DataBytes(Tcp(h, chunks));
            && |b| < 0x1_0000
            && ReceiveTcp(src, dst, b) ==
               if TcpSum(src, dst, |b|, h, Flatten(chunks)) % 0xFFFF == 0 then ParseTcp(b) else None
  {
    var b, payload := DataBytes(Tcp(h, chunks)), Flatten(chunks);
    EncodedLength(Packet(src, dst, Tcp(h, chunks)));
    FlattenLen(chunks);
    hide ParseTcp, TcpBytes, Fold, WordSum, PseudoHeader;
    PseudoSum(src, dst, |b|);
    TcpHeaderSum(h);
    WordSumConcat(TcpBytes(h), payload);
    WordSumConcat(PseudoHeader(src, dst, PROTO_TCP, |b|), b);
    AllOnesIff(TcpSum(src, dst, |b|, h, payload));
  }

  /** A UDP datagram is accepted in any case. */
  lemma {:induction false} DatagramAccepted(src: U32, dst: U32, srcPort: U16, dstPort: U16, payload: seq<Byte>)
    requires DataLen(Udp(srcPort, dstPort, payload)) < 0x1_0000
    ensures ReceiveUdp(src, dst, DataBytes(Udp(srcPort, dstPort, payload))) == Some(UserDatagram(srcPort, dstPort, payload))
  {
    var b := DataBytes(Udp(srcPort, dstPort, payload));
    assert b[6..8] == Be16(0);
    Read16(b, 6, 0);
    UdpRoundTrip(srcPort, dstPort, payload);
    hide ParseUdp, Verifies;
  }

  /** An empty datagram from nowhere to nowhere is rejected; sent to 0.0.58.210 it is accepted. */
  lemma {:induction false} VerifyingReceiverRejects()
    ensures var p := Packet(0, 0, Udp(0, 0, []));
            && Encode(p).Some? && ReceiveIp(Encode(p).value) == None
            && Encode(p.(dst := 15058)).Some? && ReceiveIp(Encode(p.(dst := 15058)).value).Some?
  {
    HeaderAcceptedIff(Packet(0, 0, Udp(0, 0, [])));
    HeaderAcceptedIff(Packet(0, 15058, Udp(0, 0, [])));
    hide ReceiveIp;
  }

  // ---- The writers ------------------------------------------------------------------------------

  method WriteTcp(h: TcpHeader, chunks: seq<seq<Byte>>, before: seq<Byte>) returns (out: seq<Byte>)
    ensures out == before + (TcpBytes(h) + Flatten(chunks))
  {
    var options := new Byte[40](_ => 0);
    var optionsLen := 0;
    if h.windowScale.Some? {
      options[0], options[1], options[2] := 3, 3, h.windowScale.value;
      optionsLen := 3;
    }
    if optionsLen % 4 != 0 {
      optionsLen := optionsLen + (4 - optionsLen % 4);
    }
    assert options[..optionsLen] == OptionBytes(h);
    var headerLen := 20 + optionsLen;
    assert headerLen == TcpHeaderLen(h);
    var flags := Clear(h.flags, ECE);
    flags := Clear(flags, CWR);
    hide Clear, OptionBytes, Be16, Be32, Flatten;
    out := Be16(h.srcPort);
    out := out + Be16(h.dstPort);
    out := out + Be32(h.sequence);
    out := out + Be32(h.acknowledgement);
    out := out + [headerLen / 4 * 16, flags];
    out := out + Be16(h.window);
    out := out + Be16(0);
    out := out + Be16(0);
    out := out + options[..optionsLen];
    assert out == TcpBytes(h);
    out := before + out;
    out := WriteChunks(chunks, out);
    assert before + TcpBytes(h) + Flatten(chunks) == before + (TcpBytes(h) + Flatten(chunks));
  }

  method WriteChunks(chunks: seq<seq<Byte>>, before: seq<Byte>) returns (out: seq<Byte>)
    ensures out == before + Flatten(chunks)
  {
    out := before;
    var i := 0;
    assert chunks[0..] == chunks;
    while i < |chunks|
      invariant i <= |chunks| && out + Flatten(chunks[i..]) == before + Flatten(chunks)
    {
      assert chunks[i..][1..] == chunks[i + 1..];
      assert out + (chunks[i] + Flatten(chunks[i + 1..])) == out + chunks[i] + Flatten(chunks[i + 1..]);
      out := out + chunks[i];
      i := i + 1;
    }
    assert chunks[i..] == [] && out + [] == out;
  }

  method Display(p: Packet) returns (r: Option<seq<Byte>>)
    ensures r == Encode(p)
  {
    if Len(p) >= 0x1_0000 {
      return None;
    }
    var protocol := if p.data.Tcp? then PROTO_TCP else PROTO_UDP;
    hide Be16, Be32, TcpBytes, Flatten;
    var out := [0x45, 0] + Be16(Len(p));
    out := out + Be16(0);
    out := out + Be16(0x4000);
    out := out + [64, protocol];
    out := out + Be16(0);
    out := out + Be32(p.src);
    out := out + Be32(p.dst);
    assert out == IpBytes(Len(p), protocol, p.src, p.dst);
    match p.data
    case Tcp(h, chunks) =>
      out := WriteTcp(h, chunks, out);
      r := Some(out);
    case Udp(srcPort, dstPort, payload) =>
      var body := Be16(srcPort) + Be16(dstPort) + Be16(DataLen(p.data)) + Be16(0) + payload;
      r := Some(out + body);
  }
}
