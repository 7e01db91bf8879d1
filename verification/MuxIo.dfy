/** The writer task and the reader task of src/usb/mux.rs over the bulk adapters: one mux frame is
    one USB transfer on the way out, and completed transfers become mux frames on the way in. */
module MuxIo {
  import opened Prelude
  import opened Codec
  import opened BulkSpec
  import opened BulkIo
  import ConnSpec
  import MuxTask

  // ---- the writer task -------------------------------------------------------------------

  /** A write poll only appends the accepted part of `buf`, as one transfer. */
  lemma WritePollDoes(w: OutState, buf: Bytes)
    requires Sane(w) && buf != []
    ensures var (w', p) := BulkSpec.PollWrite(w, buf);
            && w'.mps == w.mps && w'.maxOut == w.maxOut && |w'.script| <= |w.script|
            && (p.Accepted? ==>
                  && p.n == Min(|buf|, w.maxOut)
                  && w'.submitted == w.submitted + [buf[..p.n]]
                  && w'.bytesSinceFlush == w.bytesSinceFlush + p.n && !w'.zlpSent)
            && (!p.Accepted? ==> w'.submitted == w.submitted && w'.bytesSinceFlush == w.bytesSinceFlush
                                 && w'.zlpSent == w.zlpSent)
            && (p.Blocked? ==> w'.script == [] || |w'.script| < |w.script|)
  {
  }

  /** `sent` of the submissions `all` have been made, `rest` remains. */
  predicate Sending(maxOut: nat, all: seq<Bytes>, sent: nat, rest: Bytes) {
    0 < maxOut && sent <= |all| && all[sent..] == Chunks(maxOut, rest)
  }

  lemma NextChunk(maxOut: nat, all: seq<Bytes>, sent: nat, rest: Bytes)
    requires Sending(maxOut, all, sent, rest) && rest != []
    ensures var n := Min(|rest|, maxOut);
            && sent < |all|
            && all[..sent + 1] == all[..sent] + [rest[..n]]
            && Sending(maxOut, all, sent + 1, rest[n..])
  {
    var n := Min(|rest|, maxOut);
    assert Chunks(maxOut, rest) == [rest[..n]] + Chunks(maxOut, rest[n..]);
    assert all[sent] == all[sent..][0] && all[sent + 1..] == all[sent..][1..];
  }

  /** write_all: poll until everything is accepted. Gives up (`done` false) on an I/O error, or when
      the endpoint never answers again. */
  method WriteAll(w: BulkWriter, buf: Bytes) returns (done: bool, ghost sent: nat)
    requires w.Valid()
    modifies w, w.ep
    ensures w.Valid() && w.maxOut == old(w.maxOut)
    ensures sent <= |Chunks(w.maxOut, buf)|
    ensures w.ep.submitted == old(w.ep.submitted) + Chunks(w.maxOut, buf)[..sent]
    ensures done ==> sent == |Chunks(w.maxOut, buf)| && w.bytesSinceFlush == old(w.bytesSinceFlush) + |buf|
    ensures done && buf != [] ==> !w.zlpSent
  {
    ghost var all := Chunks(w.maxOut, buf);
    var rest := buf;
    sent := 0;
    while rest != []
      invariant w.Valid() && w.maxOut == old(w.maxOut)
      invariant Sending(w.maxOut, all, sent, rest)
      invariant w.ep.submitted == old(w.ep.submitted) + all[..sent]
      invariant w.bytesSinceFlush + |rest| == old(w.bytesSinceFlush) + |buf|
      invariant rest != buf ==> !w.zlpSent
      decreases |rest| + |w.ep.script|
    {
      WritePollDoes(w.View(), rest);
      NextChunk(w.maxOut, all, sent, rest);
      var before := |w.ep.script|;
      var p := w.PollWrite(rest);
      match p {
        case Accepted(n) =>
          rest := rest[n..];
          sent := sent + 1;
        case Broken =>
          return false, sent;
        case Blocked =>
          if |w.ep.script| == before {
            return false, sent;
          }
      }
    }
    done := true;
  }

  /** flush: poll until done. */
  method FlushAll(w: BulkWriter) returns (done: bool)
    requires w.Valid()
    modifies w, w.ep
    ensures w.Valid() && w.maxOut == old(w.maxOut)
    ensures old(w.ep.submitted) <= w.ep.submitted <= Settled(old(w.View()))
    ensures done ==> w.ep.submitted == Settled(old(w.View())) && w.bytesSinceFlush == 0
  {
    var p := Pending;
    while p.Pending?
      invariant w.Valid() && w.maxOut == old(w.maxOut)
      invariant Settled(w.View()) == Settled(old(w.View()))
      invariant old(w.ep.submitted) <= w.ep.submitted <= Settled(w.View())
      invariant p.Done? ==> w.ep.submitted == Settled(old(w.View())) && w.bytesSinceFlush == 0
      decreases if p.Pending? then 1 else 0, |w.ep.script|
    {
      FlushSettles(w.View());
      var before := |w.ep.script|;
      p := w.PollFlush();
      if p.Pending? && |w.ep.script| == before {
        return false;
      }
    }
    done := p.Done?;
  }

  lemma NextFrame(mps: nat, maxOut: nat, frames: seq<Bytes>, i: nat)
    requires 0 < mps && 0 < maxOut && i < |frames|
    ensures AllTransfers(mps, maxOut, frames[..i + 1])
            == AllTransfers(mps, maxOut, frames[..i]) + TransfersOf(mps, maxOut, frames[i])
    ensures AllTransfers(mps, maxOut, frames[..i + 1]) <= AllTransfers(mps, maxOut, frames)
  {
    assert frames[..i + 1] == frames[..i] + [frames[i]];
    AllTransfersAppend(mps, maxOut, frames[..i], [frames[i]]);
    assert AllTransfers(mps, maxOut, [frames[i]]) == TransfersOf(mps, maxOut, frames[i]);
    assert frames == frames[..i + 1] + frames[i + 1..];
    AllTransfersAppend(mps, maxOut, frames[..i + 1], frames[i + 1..]);
  }

  /** One frame: write_all, then flush. `ts` is what was submitted for it. */
  method WriteFrame(w: BulkWriter, f: Bytes) returns (done: bool, ghost ts: seq<Bytes>)
    requires w.Valid() && w.bytesSinceFlush == 0
    modifies w, w.ep
    ensures w.Valid() && w.maxOut == old(w.maxOut)
    ensures w.ep.submitted == old(w.ep.submitted) + ts
    ensures ts <= TransfersOf(w.ep.maxPacketSize, w.maxOut, f)
    ensures done ==> ts == TransfersOf(w.ep.maxPacketSize, w.maxOut, f) && w.bytesSinceFlush == 0
  {
    ghost var before := w.ep.submitted;
    ghost var chunks, sent := Chunks(w.maxOut, f), 0;
    done, sent := WriteAll(w, f);
    ts := chunks[..sent];
    if !done {
      return;
    }
    assert ts == chunks;
    assert Settled(w.View()) == before + TransfersOf(w.ep.maxPacketSize, w.maxOut, f);
    done := FlushAll(w);
    ts := w.ep.submitted[|before|..];
  }

  /** The writer task on the frames queued for it, one after another until something fails. `ts` is
      what it submitted. */
  method WriterTask(w: BulkWriter, frames: seq<Bytes>) returns (written: nat, ghost ts: seq<Bytes>)
    requires w.Valid() && w.bytesSinceFlush == 0
    modifies w, w.ep
    ensures w.Valid() && w.maxOut == old(w.maxOut)
    ensures w.ep.submitted == old(w.ep.submitted) + ts
    ensures written <= |frames|
    ensures var mps := w.ep.maxPacketSize;
            && AllTransfers(mps, w.maxOut, frames[..written]) <= ts <= AllTransfers(mps, w.maxOut, frames)
            && (written == |frames| ==> ts == AllTransfers(mps, w.maxOut, frames))
  {
    written, ts := 0, [];
    while written < |frames|
      invariant w.Valid() && w.maxOut == old(w.maxOut) && w.bytesSinceFlush == 0
      invariant written <= |frames|
      invariant ts == AllTransfers(w.ep.maxPacketSize, w.maxOut, frames[..written])
      invariant w.ep.submitted == old(w.ep.submitted) + ts
    {
      NextFrame(w.ep.maxPacketSize, w.maxOut, frames, written);
      ghost var now;
      var ok;
      ok, now := WriteFrame(w, frames[written]);
      ts := ts + now;
      if !ok {
        return;
      }
      written := written + 1;
    }
    assert frames[..written] == frames;
  }

  /** A frame logged by the mux task is nonempty and no longer than the MTU. */
  lemma LoggedFrames(frames: seq<Bytes>, segs: seq<Codec.Seg>)
    requires MuxTask.Log(frames, segs)
    ensures forall i :: 0 <= i < |frames| ==> 0 < |frames[i]| <= USB_MTU
  {
    forall i | 2 <= i < |frames| ensures 0 < |frames[i]| <= USB_MTU {
      assert MuxTask.FrameAt(frames, segs, i - 2);
    }
  }

  /** One mux frame is one USB transfer. Whatever the packet size, and wherever the writer task has
      got to, a device that cuts the packets of the submitted transfers `ts` at short and
      zero-length packets holds whole frames of the mux task, in order: the two of the handshake,
      then one for each segment, which it parses back. */
  lemma DeviceSeesSegments(frames: seq<Bytes>, segs: seq<Codec.Seg>, mps: nat, ts: seq<Bytes>)
    requires 0 < mps && MuxTask.Log(frames, segs)
    requires ts <= AllTransfers(mps, DEFAULT_MAX_OUT, frames)
    ensures var cut := Cut(mps, [], PacketsOf(mps, ts));
            && cut <= frames
            && (ts == AllTransfers(mps, DEFAULT_MAX_OUT, frames) ==> |cut| == 2 + |segs|)
            && forall i :: 2 <= i < |cut| ==> ParsePacket(2, cut[i]) == Tcp(segs[i - 2])
  {
    LoggedFrames(frames, segs);
    StopsBetweenFrames(mps, DEFAULT_MAX_OUT, frames, ts);
    CutsAtFrames(mps, DEFAULT_MAX_OUT, frames);
    var cut := Cut(mps, [], PacketsOf(mps, ts));
    forall i | 2 <= i < |cut| ensures ParsePacket(2, cut[i]) == Tcp(segs[i - 2]) {
      assert MuxTask.FrameAt(frames, segs, i - 2);
    }
  }

  // ---- the reader task -------------------------------------------------------------------

  /** What one read poll with room means for the byte stream. */
  lemma ReadPollDoes(r: InState, cap: nat)
    requires Ready(r) && 0 < cap
    ensures var (r', p) := BulkSpec.PollRead(r, cap);
            && Ready(r')
            && (p.Got? ==> 0 < |p.bytes| <= cap && Stream(r) == p.bytes + Stream(r') && |r'.script| <= |r.script|)
            && (p.Lost? ==> Stream(r) == [])
            && (p.Stalled? ==> Stream(r) == Stream(r')
                               && (|r'.script| < |r.script| || (r'.script == [] && Stream(r) == [])))
  {
    PollReads(r, cap);
  }

  /** read_exact: poll until `n` bytes are there. None is an I/O error, or waiting for good. */
  method ReadExact(r: BulkReader, n: nat) returns (res: Option<Bytes>)
    requires r.Valid()
    modifies r, r.ep
    ensures r.Valid()
    ensures var s := Stream(old(r.View()));
            if n <= |s| then res == Some(s[..n]) && Stream(r.View()) == s[n..] else res.None?
  {
    var got: Bytes := [];
    ghost var s := Stream(r.View());
    while |got| < n
      invariant r.Valid() && |got| <= n
      invariant s == got + Stream(r.View())
      decreases n - |got| + |r.ep.script|
    {
      ReadPollDoes(r.View(), n - |got|);
      var before := |r.ep.script|;
      var p := r.PollRead(n - |got|);
      match p {
        case Got(bytes) =>
          assert got + (bytes + Stream(r.View())) == got + bytes + Stream(r.View());
          got := got + bytes;
        case Lost =>
          return None;
        case Stalled =>
          if |r.ep.script| == before {
            return None;
          }
      }
    }
    assert s[..n] == got && s[n..] == Stream(r.View());
    return Some(got);
  }

  datatype ReadError = StreamEnded | ImplausibleLength(length: U32)

  /** read_frame, without the diagnostic read after an implausible length. */
  method ReadFrame(r: BulkReader) returns (res: Result<Bytes, ReadError>)
    requires r.Valid()
    modifies r, r.ep
    ensures r.Valid()
    ensures match Codec.ReadFrame(Stream(old(r.View())))
            case Frame(pkt, rest) => res == Ok(pkt) && Stream(r.View()) == rest
            case Implausible(length) => res == Err(ImplausibleLength(length))
            case Eof => res == Err(StreamEnded)
  {
    ghost var s := Stream(r.View());
    var head := ReadExact(r, V1_HEADER_SIZE);
    if head.None? {
      return Err(StreamEnded);
    }
    assert Get32(head.value, 4) == Get32(s, 4);
    var length := Get32(head.value, 4);
    if length < V2_HEADER_SIZE || USB_MTU < length {
      return Err(ImplausibleLength(length));
    }
    var body := ReadExact(r, length - V1_HEADER_SIZE);
    if body.None? {
      return Err(StreamEnded);
    }
    assert head.value + body.value == s[..length] && s[V1_HEADER_SIZE..][length - V1_HEADER_SIZE..] == s[length..];
    return Ok(head.value + body.value);
  }

  datatype StartError = Refused(error: MuxTask.HandshakeError) | NoReply(why: ReadError)

  /** The handshake: send VERSION, read the device's first frame, accept it. It succeeds exactly if
      both sends do, a frame arrives and it accepts version 2; the reader then stands behind it. */
  method Handshake(link: MuxTask.Link, r: BulkReader) returns (err: Option<StartError>)
    requires link.Idle() && r.Valid()
    modifies link, r, r.ep
    ensures r.Valid()
    ensures var w, reply := old(link.writer), Codec.ReadFrame(Stream(old(r.View())));
            && (err.None? <==> ConnSpec.CanSend(w) && reply.Frame? && MuxTask.CheckVersion(reply.pkt).None?
                               && ConnSpec.CanSend(ConnSpec.AfterSend(w)))
            && (err.None? ==>
                  Stream(r.View()) == reply.rest && link.writer == ConnSpec.AfterSend(ConnSpec.AfterSend(w)))
    ensures err.None? ==> link.Valid() && link.segs == [] && link.txSeq == 1 && link.rxSeq == 0xFFFF
    ensures err.None? ==> link.frames == [MuxTask.VersionFrame(), MuxTask.SetupFrame()]
  {
    var ok := link.SendVersion();
    if !ok {
      return Some(Refused(MuxTask.WriterGone));
    }
    var reply := ReadFrame(r);
    if reply.Err? {
      return Some(NoReply(reply.error));
    }
    var refused := link.Accept(reply.value);
    return if refused.Some? then Some(Refused(refused.value)) else None;
  }

  /** How the run of the mux task ends for its reader: it does not, or after `n` frames have been
      taken it tells the reader to stop, or drops the receiving end of the packet channel. */
  datatype Hangup = Never | Stopped(n: nat) | Dropped(n: nat)

  /** The reader task: hand up frames until the first error, which it reports too, unless the run
      hangs up first. However the bytes are spread over transfers, the frames are those of the byte
      stream. */
  method ReaderTask(r: BulkReader, hangup: Hangup) returns (frames: seq<Bytes>, err: Option<ReadError>)
    requires r.Valid()
    modifies r, r.ep
    ensures r.Valid()
    ensures var all := ReadAll(Stream(old(r.View())));
            && frames == (if hangup.Never? || |all| < hangup.n then all else all[..hangup.n])
            && (err.Some? <==> hangup.Never? || |all| < hangup.n)
    ensures err.Some? ==> err.value == match Codec.ReadFrame(Leftover(Stream(old(r.View()))))
                                       case Implausible(length) => ImplausibleLength(length)
                                       case _ => StreamEnded
  {
    frames := [];
    ghost var s, todo := Stream(r.View()), ReadAll(Stream(r.View()));
    ghost var all, left := todo, Leftover(s);
    while true
      invariant r.Valid() && s == Stream(r.View()) && todo == ReadAll(s) && left == Leftover(s)
      invariant all == frames + todo
      invariant hangup.Never? || |frames| <= hangup.n
      decreases |s|
    {
      if hangup.Stopped? && |frames| == hangup.n {
        return frames, None;
      }
      ReadAllTurn(s);
      var res := ReadFrame(r);
      if hangup.Dropped? && |frames| == hangup.n {
        return frames, None;
      }
      match res {
        case Ok(pkt) =>
          s := Stream(r.View());
          frames, todo := frames + [pkt], todo[1..];
        case Err(e) =>
          return frames, Some(e);
      }
    }
  }
}
