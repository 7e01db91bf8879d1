/** The bytes on the USB pipe, one by one: what the mux task writes, and how it reads what it gets. */
module Layout {
  import opened Prelude
  import opened Codec
  import MuxTask

  /** Four bytes, most significant first. */
  predicate Word(b: Bytes, i: nat, n: nat) {
    i + 4 <= |b| && n == 16777216 * b[i] as int + 65536 * b[i + 1] as int + 256 * b[i + 2] as int + b[i + 3] as int
  }

  /** Two bytes, most significant first. */
  predicate Half(b: Bytes, i: nat, n: nat) {
    i + 2 <= |b| && n == 256 * b[i] as int + b[i + 1] as int
  }

  lemma WordAt(b: Bytes, i: nat, n: U32)
    requires i + 4 <= |b| && b[i..i + 4] == Be32(n)
    ensures Word(b, i, n)
  {
    assert b[i] == Be32(n)[0] && b[i + 1] == Be32(n)[1] && b[i + 2] == Be32(n)[2] && b[i + 3] == Be32(n)[3];
    Be32RoundTrip(n);
  }

  lemma HalfAt(b: Bytes, i: nat, n: U16)
    requires i + 2 <= |b| && b[i..i + 2] == Be16(n)
    ensures Half(b, i, n)
  {
    assert b[i] == Be16(n)[0] && b[i + 1] == Be16(n)[1];
  }

  /** Every frame for a segment: protocol 6, the true length, the magic, both counters, then a 20-byte
      header - ports, numbers, a data offset of five words, flags, window, no checksum, no urgent
      pointer - and the payload. It never exceeds 49152 bytes. */
  lemma FrameBytes(tx: U16, rx: U16, s: Seg)
    requires |s.payload| <= 49116
    ensures |s.payload| <= MAX_PAYLOAD
    ensures var f := EncodeTcp(tx, rx, s);
            && |f| == 36 + |s.payload| <= 49152
            && f[..4] == [0, 0, 0, 6] && Word(f, 4, |f|) && f[8..12] == [0xfe, 0xed, 0xfa, 0xce]
            && Half(f, 12, tx) && Half(f, 14, rx)
            && Half(f, 16, s.src) && Half(f, 18, s.dst) && Word(f, 20, s.seq_) && Word(f, 24, s.ack)
            && f[28] == 80 && f[29] == s.flags && Half(f, 30, s.window) && f[32..36] == [0, 0, 0, 0]
            && f[36..] == s.payload
  {
    var f := EncodeTcp(tx, rx, s);
    var m, body := MuxHeader(2, PROTO_TCP, 36 + |s.payload|, tx, rx), TcpHeader(s) + s.payload;
    assert f == m + body && f == m + TcpHeader(s) + s.payload;
    StartBytes(f, 36 + |s.payload|, tx, rx, body);
    HeaderBytes(f, m, s);
  }

  lemma StartBytes(f: Bytes, total: U32, tx: U16, rx: U16, body: Bytes)
    requires f == MuxHeader(2, PROTO_TCP, total, tx, rx) + body
    ensures |f| == 16 + |body|
    ensures f[..4] == [0, 0, 0, 6] && Word(f, 4, total) && f[8..12] == [0xfe, 0xed, 0xfa, 0xce]
    ensures Half(f, 12, tx) && Half(f, 14, rx)
  {
    var m := MuxHeader(2, PROTO_TCP, total, tx, rx);
    assert |m| == 16 && m[..4] == Be32(PROTO_TCP) && m[4..8] == Be32(total) && m[8..12] == Be32(MUX_MAGIC);
    assert m[12..14] == Be16(tx) && m[14..16] == Be16(rx);
    assert f[..4] == m[..4] && f[4..8] == m[4..8] && f[8..12] == m[8..12] && f[12..14] == m[12..14];
    assert f[14..16] == m[14..16];
    WordAt(f, 4, total);
    HalfAt(f, 12, tx);
    HalfAt(f, 14, rx);
  }

  lemma HeaderBytes(f: Bytes, m: Bytes, s: Seg)
    requires |m| == 16 && f == m + TcpHeader(s) + s.payload
    ensures |f| == 36 + |s.payload|
    ensures Half(f, 16, s.src) && Half(f, 18, s.dst) && Word(f, 20, s.seq_) && Word(f, 24, s.ack)
    ensures f[28] == 80 && f[29] == s.flags && Half(f, 30, s.window) && f[32..36] == [0, 0, 0, 0]
    ensures f[36..] == s.payload
  {
    var h := TcpHeader(s);
    assert f[16..18] == h[0..2] == Be16(s.src) && f[18..20] == h[2..4] == Be16(s.dst);
    assert f[20..24] == h[4..8] == Be32(s.seq_) && f[24..28] == h[8..12] == Be32(s.ack);
    assert f[30..32] == h[14..16] == Be16(s.window);
    assert f[32..36] == h[16..20] == [0, 0, 0, 0];
    HalfAt(f, 16, s.src);
    HalfAt(f, 18, s.dst);
    WordAt(f, 20, s.seq_);
    WordAt(f, 24, s.ack);
    HalfAt(f, 30, s.window);
  }

  lemma GetWord(b: Bytes, i: nat)
    requires i + 4 <= |b|
    ensures Word(b, i, Get32(b, i))
  {
  }

  /** Any packet at all, once version 2 is agreed: too short for the header, of another protocol, too
      short for a segment, or a segment with its fields at their places. Nothing else is looked at. */
  lemma PacketBytes(pkt: Bytes)
    ensures match ParsePacket(2, pkt)
            case Bad => |pkt| < 16 || (pkt[..4] == [0, 0, 0, 6] && |pkt| < 36)
            case NotTcp(proto) => 16 <= |pkt| && Word(pkt, 0, proto) && proto != 6
            case Tcp(s) =>
              && 36 <= |pkt| && pkt[..4] == [0, 0, 0, 6]
              && Half(pkt, 16, s.src) && Half(pkt, 18, s.dst) && Word(pkt, 20, s.seq_) && Word(pkt, 24, s.ack)
              && s.flags == pkt[29] && Half(pkt, 30, s.window) && s.payload == pkt[36..]
  {
    if 16 <= |pkt| {
      GetWord(pkt, 0);
      if Get32(pkt, 0) == 6 {
        assert pkt[..4] == [0, 0, 0, 6];
        if 36 <= |pkt| {
          GetWord(pkt, 20);
          GetWord(pkt, 24);
          assert pkt[16..][20..] == pkt[36..];
        }
      }
    }
  }

  /** One packet off any byte stream: its length is the second word, and must lie between 16 and
      49152. */
  lemma ReadFrameBytes(s: Bytes)
    ensures match ReadFrame(s)
            case Frame(pkt, rest) => pkt + rest == s && 16 <= |pkt| <= 49152 && Word(s, 4, |pkt|)
            case Implausible(n) => Word(s, 4, n) && !(16 <= n <= 49152)
            case Eof => |s| < 8 || exists n :: Word(s, 4, n) && 16 <= n <= 49152 && |s| < n
  {
    if 8 <= |s| {
      GetWord(s, 4);
    }
  }

  /** The two frames of the handshake: VERSION 2.0 under an 8-byte header, then SETUP under a 16-byte
      header with the counters reset. */
  lemma HandshakeBytes()
    ensures MuxTask.VersionFrame() == [0, 0, 0, 0, 0, 0, 0, 20, 0, 0, 0, 2, 0, 0, 0, 0, 0, 0, 0, 0]
    ensures MuxTask.SetupFrame() == [0, 0, 0, 2, 0, 0, 0, 17, 0xfe, 0xed, 0xfa, 0xce, 0, 0, 0xff, 0xff, 7]
  {
    assert Be32(20) == [0, 0, 0, 20] && Be32(17) == [0, 0, 0, 17] && Be32(2) == [0, 0, 0, 2] && Be32(0) == [0, 0, 0, 0];
    assert Be32(MUX_MAGIC) == [0xfe, 0xed, 0xfa, 0xce] && Be16(0xffff) == [0xff, 0xff] && Be16(0) == [0, 0];
  }

  lemma SmallWord(b: Bytes, i: nat, n: Byte)
    requires i + 4 <= |b|
    ensures Get32(b, i) == n <==> b[i..i + 4] == [0, 0, 0, n]
  {
    if b[i..i + 4] == [0, 0, 0, n] {
      assert b[i] == b[i..i + 4][0] && b[i + 1] == b[i..i + 4][1] && b[i + 2] == b[i..i + 4][2]
          && b[i + 3] == b[i..i + 4][3];
    }
  }

  /** The answer that is accepted: an 8-byte header of protocol 0 and at least twelve bytes of body,
      of which the first word is 2. What is wrong with any other is told in that order. */
  lemma AnswerBytes(pkt: Bytes)
    ensures MuxTask.CheckVersion(pkt).None? <==> 20 <= |pkt| && pkt[..4] == [0, 0, 0, 0] && pkt[8..12] == [0, 0, 0, 2]
    ensures MuxTask.CheckVersion(pkt) == Some(MuxTask.HeaderTooShort) <==> |pkt| < 8
    ensures (exists n :: MuxTask.CheckVersion(pkt) == Some(MuxTask.NotVersion(n)))
            <==> 8 <= |pkt| && pkt[..4] != [0, 0, 0, 0]
    ensures MuxTask.CheckVersion(pkt) == Some(MuxTask.PayloadTooShort)
            <==> 8 <= |pkt| < 20 && pkt[..4] == [0, 0, 0, 0]
  {
    if 8 <= |pkt| {
      SmallWord(pkt, 0, 0);
      assert pkt[..4] == pkt[0..4];
      if 20 <= |pkt| {
        SmallWord(pkt, 8, 2);
      }
      if pkt[..4] != [0, 0, 0, 0] {
        assert MuxTask.CheckVersion(pkt) == Some(MuxTask.NotVersion(Get32(pkt, 0)));
      }
    }
  }
}
