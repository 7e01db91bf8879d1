/** Mux framing: the 8- or 16-byte mux header, the 20-byte TCP header, and the length-delimited
    reader. Models the codec half of src/usb/mux.rs. */
module Codec {
  import opened Prelude

  const V1_HEADER_SIZE := 8
  const V2_HEADER_SIZE := 16
  const MUX_MAGIC: U32 := 0xfeedface
  const TCP_HEADER_SIZE := 20
  const USB_MTU := 3 * 16384
  const MAX_PAYLOAD := USB_MTU - V2_HEADER_SIZE - TCP_HEADER_SIZE

  const PROTO_VERSION: U32 := 0
  const PROTO_SETUP: U32 := 2
  const PROTO_TCP: U32 := 6

  const SYN: Byte := 0x02
  const RST: Byte := 0x04
  const ACK: Byte := 0x10

  /** One TCP segment, in the orientation it travels: `src` is the port of whoever sent it. */
  datatype Seg = Seg(src: U16, dst: U16, seq_: U32, ack: U32, flags: Byte, window: U16, payload: Bytes)

  predicate HasRst(flags: Byte) {
    flags / RST % 2 == 1
  }

  function HeaderSize(version: nat): nat {
    if version < 2 then V1_HEADER_SIZE else V2_HEADER_SIZE
  }

  // ---- big-endian integers ---------------------------------------------------------------

  function Be16(n: U16): Bytes {
    [n / 0x100, n % 0x100]
  }

  function Be32(n: U32): Bytes {
    [n / 0x100_0000, n / 0x1_0000 % 0x100, n / 0x100 % 0x100, n % 0x100]
  }

  function Get16(b: Bytes, i: nat): U16
    requires i + 2 <= |b|
  {
    b[i] as int * 0x100 + b[i + 1] as int
  }

  function Get32(b: Bytes, i: nat): U32
    requires i + 4 <= |b|
  {
    b[i] as int * 0x100_0000 + b[i + 1] as int * 0x1_0000 + b[i + 2] as int * 0x100 + b[i + 3] as int
  }

  lemma Be32RoundTrip(n: U32)
    ensures Get32(Be32(n), 0) == n
  {
    var a, b, c := n / 0x100, n / 0x1_0000, n / 0x100_0000;
    assert b == a / 0x100 && c == b / 0x100;
  }

  // ---- building frames -------------------------------------------------------------------

  /** The mux header in front of `len` bytes of body; version-2 framing adds the magic and the
      two 16-bit counters. */
  function MuxHeader(version: nat, proto: U32, total: U32, tx: U16, rx: U16): Bytes {
    Be32(proto) + Be32(total) + if version < 2 then [] else Be32(MUX_MAGIC) + Be16(tx) + Be16(rx)
  }

  function TcpHeader(s: Seg): Bytes {
    Be16(s.src) + Be16(s.dst) + Be32(s.seq_) + Be32(s.ack)
    + [TCP_HEADER_SIZE / 4 * 16, s.flags] + Be16(s.window) + [0, 0, 0, 0]
  }

  function FrameLen(version: nat, header: Bytes, payload: Bytes): nat {
    HeaderSize(version) + |header| + |payload|
  }

  /** The bytes send_raw queues for one packet. */
  function RawFrame(version: nat, proto: U32, tx: U16, rx: U16, header: Bytes, payload: Bytes): Bytes
    requires FrameLen(version, header, payload) <= USB_MTU
  {
    MuxHeader(version, proto, FrameLen(version, header, payload), tx, rx) + header + payload
  }

  function EncodeTcp(tx: U16, rx: U16, s: Seg): Bytes
    requires |s.payload| <= MAX_PAYLOAD
  {
    RawFrame(2, PROTO_TCP, tx, rx, TcpHeader(s), s.payload)
  }

  // ---- parsing ---------------------------------------------------------------------------

  datatype Parsed = Bad | NotTcp(proto: U32) | Tcp(seg: Seg)

  /** parse_tcp, on the header and payload together. The checksum, urgent pointer and data offset
      are not looked at. */
  function ParseTcp(b: Bytes): Seg
    requires TCP_HEADER_SIZE <= |b|
  {
    Seg(Get16(b, 0), Get16(b, 2), Get32(b, 4), Get32(b, 8), b[13], Get16(b, 14), b[TCP_HEADER_SIZE..])
  }

  /** parse_header and the dispatch of handle_incoming. The magic is deliberately not checked. */
  function ParsePacket(version: nat, pkt: Bytes): Parsed {
    var hs := HeaderSize(version);
    if |pkt| < hs then Bad
    else
      var proto := Get32(pkt, 0);
      if proto != PROTO_TCP then NotTcp(proto)
      else if |pkt| < hs + TCP_HEADER_SIZE then Bad
      else Tcp(ParseTcp(pkt[hs..]))
  }

  lemma HeaderFields(version: nat, proto: U32, total: U32, tx: U16, rx: U16, body: Bytes)
    ensures var f := MuxHeader(version, proto, total, tx, rx) + body;
            && |f| == HeaderSize(version) + |body|
            && Get32(f, 0) == proto
            && Get32(f, 4) == total
            && f[HeaderSize(version)..] == body
            && (2 <= version ==> Get16(f, 12) == tx && Get16(f, 14) == rx)
  {
    Be32RoundTrip(proto);
    Be32RoundTrip(total);
  }

  lemma TcpFields(s: Seg)
    ensures |TcpHeader(s)| == TCP_HEADER_SIZE
    ensures ParseTcp(TcpHeader(s) + s.payload) == s
  {
    Be32RoundTrip(s.seq_);
    Be32RoundTrip(s.ack);
    var b := TcpHeader(s) + s.payload;
    assert b[TCP_HEADER_SIZE..] == s.payload;
    assert Get32(b, 4) == Get32(Be32(s.seq_), 0);
    assert Get32(b, 8) == Get32(Be32(s.ack), 0);
  }

  /** Whatever the mux task sends as a TCP frame, the other end parses back: the ports, sequence and
      acknowledgement numbers, flags, scaled window and payload, and the header counters. */
  lemma TcpRoundTrip(tx: U16, rx: U16, s: Seg)
    requires |s.payload| <= MAX_PAYLOAD
    ensures var f := EncodeTcp(tx, rx, s);
            && WellFramed(f)
            && ParsePacket(2, f) == Tcp(s)
            && Get16(f, 12) == tx && Get16(f, 14) == rx
  {
    TcpFields(s);
    var body := TcpHeader(s) + s.payload;
    var total := V2_HEADER_SIZE + TCP_HEADER_SIZE + |s.payload|;
    HeaderFields(2, PROTO_TCP, total, tx, rx, body);
    assert EncodeTcp(tx, rx, s) == MuxHeader(2, PROTO_TCP, total, tx, rx) + body;
  }

  // ---- the length-delimited reader -------------------------------------------------------

  datatype Read = Frame(pkt: Bytes, rest: Bytes) | Implausible(length: U32) | Eof

  /** A packet whose length field tells the truth and lies in the range read_frame accepts. */
  predicate WellFramed(f: Bytes) {
    V2_HEADER_SIZE <= |f| <= USB_MTU && Get32(f, 4) == |f|
  }

  /** One read_frame on the bytes still to come. */
  function ReadFrame(s: Bytes): (r: Read)
    ensures r.Frame? ==> r.pkt + r.rest == s && WellFramed(r.pkt)
  {
    if |s| < V1_HEADER_SIZE then Eof
    else
      var length := Get32(s, 4);
      if length < V2_HEADER_SIZE || USB_MTU < length then Implausible(length)
      else if |s| < length then Eof
      else Frame(s[..length], s[length..])
  }

  /** The reader task: read frames until the first error. */
  function ReadAll(s: Bytes): seq<Bytes>
    decreases |s|
  {
    match ReadFrame(s)
    case Frame(pkt, rest) => [pkt] + ReadAll(rest)
    case _ => []
  }

  /** What the reader task has not turned into frames when it stops. */
  function Leftover(s: Bytes): Bytes
    decreases |s|
  {
    match ReadFrame(s)
    case Frame(_, rest) => Leftover(rest)
    case _ => s
  }

  lemma ReadFrameExact(f: Bytes, rest: Bytes)
    requires WellFramed(f)
    ensures ReadFrame(f + rest) == Frame(f, rest)
  {
    var s := f + rest;
    assert s[..|f|] == f && s[|f|..] == rest;
    assert Get32(s, 4) == Get32(f, 4);
  }

  /** The reader inverts concatenation: any list of well-framed packets followed by any bytes that
      do not start with a complete packet is cut at exactly the packet boundaries. */
  lemma {:induction false} ReadAllInverts(frames: seq<Bytes>, tail: Bytes)
    requires forall f :: f in frames ==> WellFramed(f)
    requires !ReadFrame(tail).Frame?
    ensures ReadAll(Flatten(frames) + tail) == frames
    ensures Leftover(Flatten(frames) + tail) == tail
  {
    if frames == [] {
      assert Flatten(frames) + tail == tail;
    } else {
      var rest := Flatten(frames[1..]) + tail;
      assert Flatten(frames) + tail == frames[0] + rest;
      ReadFrameExact(frames[0], rest);
      ReadAllInverts(frames[1..], tail);
    }
  }

  lemma ReadAllTurn(s: Bytes)
    ensures match ReadFrame(s)
            case Frame(pkt, rest) => ReadAll(s) == [pkt] + ReadAll(rest) && Leftover(s) == Leftover(rest)
            case _ => ReadAll(s) == [] && Leftover(s) == s
  {
  }

  lemma {:induction false} ReadAllLossless(s: Bytes)
    ensures Flatten(ReadAll(s)) + Leftover(s) == s
    decreases |s|
  {
    var r := ReadFrame(s);
    if r.Frame? {
      var more, left := ReadAll(r.rest), Leftover(r.rest);
      ReadAllLossless(r.rest);
      assert ([r.pkt] + more)[1..] == more;
      assert r.pkt + (Flatten(more) + left) == r.pkt + Flatten(more) + left;
    }
  }

  lemma {:induction false} ReadAllFramed(s: Bytes)
    ensures forall i :: 0 <= i < |ReadAll(s)| ==> WellFramed(ReadAll(s)[i])
    ensures !ReadFrame(Leftover(s)).Frame?
    decreases |s|
  {
    var r := ReadFrame(s);
    if r.Frame? {
      ReadAllFramed(r.rest);
    }
  }

  /** Conversely, on every byte stream the reader loses, adds and reorders nothing, hands up only
      well-framed packets, and stops only where no complete packet starts. */
  lemma ReadAllSound(s: Bytes)
    ensures Flatten(ReadAll(s)) + Leftover(s) == s
    ensures forall i :: 0 <= i < |ReadAll(s)| ==> WellFramed(ReadAll(s)[i])
    ensures !ReadFrame(Leftover(s)).Frame?
  {
    ReadAllLossless(s);
    ReadAllFramed(s);
  }
}
