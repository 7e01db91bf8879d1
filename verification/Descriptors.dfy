/** The descriptor scanner of src/daemon/libusbk_backend.rs: a one-pass walk over a configuration
    blob, against a declarative reading of it (section 9.6 of USB 2.0): parse the descriptors, take
    each interface descriptor with what follows it, pick the first complete match. */
module Descriptors {
  import opened Prelude

  const USB_DESC_INTERFACE := 0x04
  const USB_DESC_ENDPOINT := 0x05
  const INTERFACE_CLASS := 0xff
  const INTERFACE_SUBCLASS := 0xfe
  const INTERFACE_PROTOCOL := 0x02
  const ENDPOINT_DIR_IN := 0x80
  const ENDPOINT_TYPE_BULK := 0x02

  datatype MuxTarget = MuxTarget(
    configValue: Byte,
    interfaceNumber: Byte,
    epIn: Byte,
    epOut: Byte,
    epOutMaxPacket: U16)

  // ---- parsing ---------------------------------------------------------------------------

  /** A complete descriptor starts here: its length byte covers at least itself and the type, and
      lies within what is left. */
  predicate Starts(b: Bytes) {
    2 <= |b| && 2 <= b[0] <= |b|
  }

  /** The descriptors up to the first malformed one. */
  function Descs(b: Bytes): seq<Bytes>
    decreases |b|
  {
    if Starts(b) then [b[..b[0]]] + Descs(b[b[0]..]) else []
  }

  predicate WellFormed(d: Bytes) {
    2 <= |d| && d[0] == |d|
  }

  /** `ds` is a parse of `b`: well-formed descriptors end to end, and none starts in what is left. */
  predicate Parses(b: Bytes, ds: seq<Bytes>) {
    && (forall i :: 0 <= i < |ds| ==> WellFormed(ds[i]))
    && Flatten(ds) <= b
    && !Starts(b[|Flatten(ds)|..])
  }

  lemma ParsesCons(b: Bytes, ds: seq<Bytes>)
    requires Starts(b) && ds != [] && ds[0] == b[..b[0]]
    ensures Parses(b, ds) <==> Parses(b[b[0]..], ds[1..])
  {
    var d, rest := ds[0], b[b[0]..];
    assert b == d + rest && Flatten(ds) == d + Flatten(ds[1..]);
    if Flatten(ds) <= b {
      assert Flatten(ds[1..]) == Flatten(ds)[|d|..] && rest == b[|d|..];
      assert b[|Flatten(ds)|..] == rest[|Flatten(ds[1..])|..];
    }
    assert ds == [d] + ds[1..];
  }

  lemma ParsesHead(b: Bytes, ds: seq<Bytes>)
    requires Parses(b, ds) && ds != []
    ensures Starts(b) && ds[0] == b[..b[0]]
  {
    assert Flatten(ds) == ds[0] + Flatten(ds[1..]);
    assert ds[0] == b[..|ds[0]|];
  }

  /** There is exactly one parse, the maximal well-formed prefix, and Descs finds it. */
  lemma {:induction false} DescsParse(b: Bytes, ds: seq<Bytes>)
    ensures Parses(b, ds) <==> ds == Descs(b)
    decreases |b|
  {
    if ds == [] {
      assert b[0..] == b;
    } else if Starts(b) && ds[0] == b[..b[0]] {
      ParsesCons(b, ds);
      DescsParse(b[b[0]..], ds[1..]);
      assert ds == [ds[0]] + ds[1..];
    } else if Parses(b, ds) {
      ParsesHead(b, ds);
    }
  }

  // ---- what a descriptor is --------------------------------------------------------------

  predicate IsInterface(d: Bytes)
    requires 2 <= |d|
  {
    d[1] == USB_DESC_INTERFACE
  }

  predicate IsMux(d: Bytes)
    requires 2 <= |d|
  {
    IsInterface(d) && 9 <= |d| && d[5] == INTERFACE_CLASS && d[6] == INTERFACE_SUBCLASS && d[7] == INTERFACE_PROTOCOL
  }

  predicate IsBulk(d: Bytes)
    requires 2 <= |d|
  {
    d[1] == USB_DESC_ENDPOINT && 7 <= |d| && d[3] % 4 == ENDPOINT_TYPE_BULK
  }

  predicate BulkIn(d: Bytes)
    requires 2 <= |d|
  {
    IsBulk(d) && ENDPOINT_DIR_IN <= d[2]
  }

  predicate BulkOut(d: Bytes)
    requires 2 <= |d|
  {
    IsBulk(d) && d[2] < ENDPOINT_DIR_IN
  }

  function Le16(lo: Byte, hi: Byte): U16 {
    lo as int + hi as int * 0x100
  }

  /** wMaxPacketSize without the high-bandwidth bits. */
  function MaxPacket(d: Bytes): U16
    requires 7 <= |d|
  {
    Le16(d[4], d[5]) % 0x800
  }

  // ---- groups and targets ----------------------------------------------------------------

  predicate Sized(ds: seq<Bytes>) {
    forall i :: 0 <= i < |ds| ==> 2 <= |ds[i]|
  }

  /** Descriptor `k` belongs to the interface descriptor at `i`. */
  predicate InBody(ds: seq<Bytes>, i: int, k: int)
    requires Sized(ds)
  {
    0 <= i < k < |ds| && forall m :: i < m <= k ==> !IsInterface(ds[m])
  }

  ghost predicate LastIn(ds: seq<Bytes>, i: int, k: int)
    requires Sized(ds)
  {
    InBody(ds, i, k) && BulkIn(ds[k]) && forall m :: k < m && InBody(ds, i, m) ==> !BulkIn(ds[m])
  }

  ghost predicate LastOut(ds: seq<Bytes>, i: int, k: int)
    requires Sized(ds)
  {
    InBody(ds, i, k) && BulkOut(ds[k]) && forall m :: k < m && InBody(ds, i, m) ==> !BulkOut(ds[m])
  }

  /** The interface at `i` is a mux interface with a bulk endpoint in each direction. */
  ghost predicate Complete(ds: seq<Bytes>, i: int)
    requires Sized(ds)
  {
    && 0 <= i < |ds| && IsMux(ds[i])
    && (exists k :: InBody(ds, i, k) && BulkIn(ds[k]))
    && (exists k :: InBody(ds, i, k) && BulkOut(ds[k]))
  }

  ghost predicate Made(ds: seq<Bytes>, i: int, a: int, b: int, cfg: Byte, t: MuxTarget)
    requires Sized(ds)
  {
    && LastIn(ds, i, a) && LastOut(ds, i, b) && 0 <= i < |ds| && IsMux(ds[i])
    && t == MuxTarget(cfg, ds[i][2], ds[a][2], ds[b][2], MaxPacket(ds[b]))
  }

  /** The target is made of the first complete interface, with its last bulk endpoint in either
      direction. */
  ghost predicate Chosen(ds: seq<Bytes>, i: int, cfg: Byte, t: MuxTarget)
    requires Sized(ds)
  {
    (forall j :: 0 <= j < i ==> !Complete(ds, j)) && exists a, b :: Made(ds, i, a, b, cfg, t)
  }

  ghost predicate Picked(ds: seq<Bytes>, cfg: Byte, r: Option<MuxTarget>)
    requires Sized(ds)
  {
    match r
    case None => forall i :: !Complete(ds, i)
    case Some(t) => exists i :: Chosen(ds, i, cfg, t)
  }

  /** What the scan of a blob must answer. */
  ghost predicate Scanned(blob: Bytes, cfg: Byte, r: Option<MuxTarget>) {
    DescsSized(blob);
    Picked(Descs(blob), cfg, r)
  }

  lemma {:induction false} DescsSized(b: Bytes)
    ensures Sized(Descs(b))
    decreases |b|
  {
    if Starts(b) {
      DescsSized(b[b[0]..]);
    }
  }

  /** That determines the answer. */
  lemma ScanUnique(blob: Bytes, cfg: Byte, r: Option<MuxTarget>, r': Option<MuxTarget>)
    requires Scanned(blob, cfg, r) && Scanned(blob, cfg, r')
    ensures r == r'
  {
    DescsSized(blob);
    var ds := Descs(blob);
    if r.Some? {
      var i :| Chosen(ds, i, cfg, r.value);
      var a, b :| Made(ds, i, a, b, cfg, r.value);
      assert Complete(ds, i);
      var i' :| Chosen(ds, i', cfg, r'.value);
      var a', b' :| Made(ds, i', a', b', cfg, r'.value);
      assert Complete(ds, i');
      assert i == i' && a == a' && b == b';
    } else if r'.Some? {
      var i' :| Chosen(ds, i', cfg, r'.value);
      var a', b' :| Made(ds, i', a', b', cfg, r'.value);
      assert Complete(ds, i');
    }
  }

  // ---- the scan --------------------------------------------------------------------------

  /** The scanner's variables. */
  datatype Scanner = Scanner(intfNum: Option<Byte>, matches: bool, epIn: Option<Byte>, epOut: Option<(Byte, U16)>)

  const Start := Scanner(None, false, None, None)

  /** The closure that makes a target of what has been seen. */
  function Finalize(cfg: Byte, sc: Scanner): Option<MuxTarget> {
    if sc.intfNum.Some? && sc.epIn.Some? && sc.epOut.Some?
    then Some(MuxTarget(cfg, sc.intfNum.value, sc.epIn.value, sc.epOut.value.0, sc.epOut.value.1))
    else None
  }

  predicate Ripe(sc: Scanner) {
    sc.matches && sc.intfNum.Some? && sc.epIn.Some? && sc.epOut.Some?
  }

  function Step(sc: Scanner, d: Bytes): Scanner
    requires 2 <= |d|
  {
    if IsInterface(d) then Scanner(if 9 <= |d| then Some(d[2]) else None, IsMux(d), None, None)
    else if sc.matches && BulkIn(d) then sc.(epIn := Some(d[2]))
    else if sc.matches && BulkOut(d) then sc.(epOut := Some((d[2], MaxPacket(d))))
    else sc
  }

  function ScanFrom(cfg: Byte, sc: Scanner, ds: seq<Bytes>): Option<MuxTarget>
    requires Sized(ds)
    decreases |ds|
  {
    if ds == [] then (if sc.matches then Finalize(cfg, sc) else None)
    else if IsInterface(ds[0]) && Ripe(sc) then Finalize(cfg, sc)
    else ScanFrom(cfg, Step(sc, ds[0]), ds[1..])
  }

  /** The scanner after the descriptors `ds`. `cur` is the interface it is in, `a` and `b` the
      endpoints it last saw there (-1 for none); no earlier interface is complete. */
  ghost predicate Carries(ds: seq<Bytes>, cur: int, a: int, b: int, sc: Scanner) {
    && Sized(ds)
    && -1 <= cur < |ds|
    && (forall m :: cur < m < |ds| ==> !IsInterface(ds[m]))
    && (forall j :: 0 <= j < cur ==> !Complete(ds, j))
    && (0 <= cur ==> IsInterface(ds[cur]))
    && sc.matches == (0 <= cur && IsMux(ds[cur]))
    && (sc.matches ==>
          && sc.intfNum == Some(ds[cur][2])
          && sc.epIn.Some? == (0 <= a) && sc.epOut.Some? == (0 <= b)
          && (sc.epIn.Some? ==> LastIn(ds, cur, a) && sc.epIn.value == ds[a][2])
          && (sc.epOut.Some? ==> LastOut(ds, cur, b) && sc.epOut.value == (ds[b][2], MaxPacket(ds[b])))
          && (sc.epIn.None? ==> forall k :: InBody(ds, cur, k) ==> !BulkIn(ds[k]))
          && (sc.epOut.None? ==> forall k :: InBody(ds, cur, k) ==> !BulkOut(ds[k])))
  }

  /** Whether `k` belongs to `i` is decided by the descriptors up to `k`. */
  lemma BodyPrefix(ds: seq<Bytes>, more: seq<Bytes>, i: int, k: int)
    requires Sized(ds) && Sized(more) && k < |ds|
    ensures InBody(ds + more, i, k) <==> InBody(ds, i, k)
  {
    if 0 <= i < k {
      assert forall m :: i < m <= k ==> (ds + more)[m] == ds[m];
    }
  }

  /** An interface after `i` closes its body, so later descriptors do not matter to it. */
  lemma ClosedBody(ds: seq<Bytes>, more: seq<Bytes>, i: int, next: int)
    requires Sized(ds) && Sized(more) && 0 <= i < |ds| && i < next < |ds + more| && next <= |ds|
    requires IsInterface((ds + more)[next])
    ensures forall k :: InBody(ds + more, i, k) <==> InBody(ds, i, k)
    ensures Complete(ds + more, i) <==> Complete(ds, i)
  {
    var all := ds + more;
    forall k ensures InBody(all, i, k) <==> InBody(ds, i, k) {
      if k < |ds| {
        BodyPrefix(ds, more, i, k);
      }
    }
    if Complete(ds, i) {
      var a :| InBody(ds, i, a) && BulkIn(ds[a]);
      var b :| InBody(ds, i, b) && BulkOut(ds[b]);
      assert InBody(all, i, a) && BulkIn(all[a]) && InBody(all, i, b) && BulkOut(all[b]);
    }
    if Complete(all, i) {
      var a :| InBody(all, i, a) && BulkIn(all[a]);
      var b :| InBody(all, i, b) && BulkOut(all[b]);
      assert InBody(ds, i, a) && BulkIn(ds[a]) && InBody(ds, i, b) && BulkOut(ds[b]);
    }
  }

  lemma NothingHere(ds: seq<Bytes>, cur: int, a: int, b: int, sc: Scanner)
    requires Carries(ds, cur, a, b, sc) && !Ripe(sc)
    ensures forall i :: !Complete(ds, i)
  {
  }

  /** The interface descriptor `d` ends a group that was not complete and begins the next. */
  lemma InterfaceStep(ds: seq<Bytes>, d: Bytes, cur: int, a: int, b: int, sc: Scanner)
    requires Carries(ds, cur, a, b, sc) && 2 <= |d| && IsInterface(d) && !Ripe(sc)
    ensures Carries(ds + [d], |ds|, -1, -1, Step(sc, d))
  {
    var all := ds + [d];
    NothingHere(ds, cur, a, b, sc);
    forall j | 0 <= j < |ds| ensures !Complete(all, j) {
      ClosedBody(ds, [d], j, |ds|);
    }
    assert forall k :: !InBody(all, |ds|, k);
  }

  /** Any other descriptor extends the body of the current interface. */
  lemma BodyStep(ds: seq<Bytes>, d: Bytes, cur: int)
    requires Sized(ds) && 2 <= |d| && !IsInterface(d) && 0 <= cur < |ds| && IsInterface(ds[cur])
    requires forall m :: cur < m < |ds| ==> !IsInterface(ds[m])
    ensures forall j :: 0 <= j < cur ==> (Complete(ds + [d], j) <==> Complete(ds, j))
    ensures forall k :: InBody(ds + [d], cur, k) <==> InBody(ds, cur, k) || k == |ds|
  {
    var all := ds + [d];
    forall j | 0 <= j < cur ensures Complete(all, j) <==> Complete(ds, j) {
      ClosedBody(ds, [d], j, cur);
    }
    forall k ensures InBody(all, cur, k) <==> InBody(ds, cur, k) || k == |ds| {
      if k < |ds| {
        BodyPrefix(ds, [d], cur, k);
      }
    }
  }

  lemma OtherStep(ds: seq<Bytes>, d: Bytes, cur: int, a: int, b: int, sc: Scanner)
    requires Carries(ds, cur, a, b, sc) && 2 <= |d| && !IsInterface(d)
    ensures var a' := if sc.matches && BulkIn(d) then |ds| else a;
            var b' := if sc.matches && BulkOut(d) then |ds| else b;
            Carries(ds + [d], cur, a', b', Step(sc, d))
  {
    if 0 <= cur {
      BodyStep(ds, d, cur);
    }
  }

  /** The scan stops at an interface, or at the end, with a complete group. */
  lemma FoundHere(ds: seq<Bytes>, more: seq<Bytes>, cfg: Byte, cur: int, a: int, b: int, sc: Scanner)
    requires Carries(ds, cur, a, b, sc) && Ripe(sc) && Sized(more) && (more != [] ==> IsInterface(more[0]))
    ensures Chosen(ds + more, cur, cfg, Finalize(cfg, sc).value)
  {
    var all := ds + more;
    if more == [] {
      assert all == ds;
    } else {
      ClosedBody(ds, more, cur, |ds|);
      forall j | 0 <= j < cur ensures !Complete(all, j) {
        ClosedBody(ds, more, j, |ds|);
      }
    }
    assert LastIn(all, cur, a) && LastOut(all, cur, b);
    assert Made(all, cur, a, b, cfg, Finalize(cfg, sc).value);
  }

  /** The one-pass scan picks what the declarative reading picks. */
  lemma {:induction false} ScanPicks(cfg: Byte, ds: seq<Bytes>, cur: int, a: int, b: int, sc: Scanner, todo: seq<Bytes>)
    requires Carries(ds, cur, a, b, sc) && Sized(todo)
    ensures Picked(ds + todo, cfg, ScanFrom(cfg, sc, todo))
    decreases |todo|
  {
    if Ripe(sc) && (todo == [] || IsInterface(todo[0])) {
      FoundHere(ds, todo, cfg, cur, a, b, sc);
    } else if todo == [] {
      assert ds + todo == ds;
      NothingHere(ds, cur, a, b, sc);
    } else {
      var d := todo[0];
      assert ds + todo == ds + [d] + todo[1..];
      if IsInterface(d) {
        InterfaceStep(ds, d, cur, a, b, sc);
        ScanPicks(cfg, ds + [d], |ds|, -1, -1, Step(sc, d), todo[1..]);
      } else {
        OtherStep(ds, d, cur, a, b, sc);
        var a' := if sc.matches && BulkIn(d) then |ds| else a;
        var b' := if sc.matches && BulkOut(d) then |ds| else b;
        ScanPicks(cfg, ds + [d], cur, a', b', Step(sc, d), todo[1..]);
      }
    }
  }

  lemma ScanIsRight(blob: Bytes, cfg: Byte)
    ensures Sized(Descs(blob)) && Scanned(blob, cfg, ScanFrom(cfg, Start, Descs(blob)))
  {
    DescsSized(blob);
    assert [] + Descs(blob) == Descs(blob);
    ScanPicks(cfg, [], -1, -1, -1, Start, Descs(blob));
  }

  /** What the scanner `sc` will answer from offset `off` on. */
  ghost function ScanAt(blob: Bytes, off: nat, cfg: Byte, sc: Scanner): Option<MuxTarget>
    requires off <= |blob|
  {
    DescsSized(blob[off..]);
    ScanFrom(cfg, sc, Descs(blob[off..]))
  }

  lemma ScanTurn(blob: Bytes, off: nat, cfg: Byte, sc: Scanner)
    requires off + 2 <= |blob| && 2 <= blob[off] <= |blob| - off
    ensures var desc, next := blob[off..off + blob[off]], off + blob[off];
            ScanAt(blob, off, cfg, sc)
            == if IsInterface(desc) && Ripe(sc) then Finalize(cfg, sc) else ScanAt(blob, next, cfg, Step(sc, desc))
  {
    var len := blob[off];
    var rest := blob[off..];
    assert rest[..len] == blob[off..off + len] && rest[len..] == blob[off + len..];
    DescsSized(rest);
    var ds := Descs(rest);
    assert ds[0] == blob[off..off + len] && ds[1..] == Descs(blob[off + len..]);
  }

  lemma ScanStops(blob: Bytes, off: nat, cfg: Byte, sc: Scanner)
    requires off <= |blob| && (off + 2 <= |blob| ==> !(2 <= blob[off] <= |blob| - off))
    ensures ScanAt(blob, off, cfg, sc) == if sc.matches then Finalize(cfg, sc) else None
  {
    assert !Starts(blob[off..]);
  }

  lemma ScanWhole(blob: Bytes, cfg: Byte)
    ensures Scanned(blob, cfg, ScanAt(blob, 0, cfg, Start))
  {
    assert blob[0..] == blob;
    ScanIsRight(blob, cfg);
  }

  /** What one descriptor does to the scanner: an interface starts it afresh, a bulk endpoint of a
      matching interface replaces the one seen before in its direction. */
  method See(desc: Bytes, sc: Scanner) returns (next: Scanner)
    requires 2 <= |desc|
    ensures next == Step(sc, desc)
  {
    var intfNum, matches, epIn, epOut := sc.intfNum, sc.matches, sc.epIn, sc.epOut;
    if desc[1] == USB_DESC_INTERFACE {
      epIn, epOut := None, None;
      if |desc| >= 9 {
        intfNum := Some(desc[2]);
        matches := desc[5] == INTERFACE_CLASS && desc[6] == INTERFACE_SUBCLASS && desc[7] == INTERFACE_PROTOCOL;
      } else {
        intfNum, matches := None, false;
      }
    } else if desc[1] == USB_DESC_ENDPOINT {
      if matches && |desc| >= 7 {
        var addr, attrs := desc[2], desc[3];
        var mps := Le16(desc[4], desc[5]) % 0x800;
        if attrs % 4 == ENDPOINT_TYPE_BULK {
          if addr >= ENDPOINT_DIR_IN {
            epIn := Some(addr);
          } else {
            epOut := Some((addr, mps));
          }
        }
      }
    }
    next := Scanner(intfNum, matches, epIn, epOut);
  }

  /** One pass over the blob. Any byte string will do: every access is in bounds, the scan ends, and
      the answer is the one Scanned describes. */
  method ScanConfigBlob(blob: Bytes, cfg: Byte) returns (r: Option<MuxTarget>)
    ensures Scanned(blob, cfg, r)
  {
    ScanWhole(blob, cfg);
    var off := 0;
    var sc := Start;
    while off + 2 <= |blob|
      invariant off <= |blob|
      invariant ScanAt(blob, off, cfg, sc) == ScanAt(blob, 0, cfg, Start)
    {
      var len := blob[off];
      var dtype := blob[off + 1];
      if len < 2 || off + len > |blob| {
        break;
      }
      var desc := blob[off..off + len];
      ScanTurn(blob, off, cfg, sc);
      if dtype == USB_DESC_INTERFACE && sc.matches {
        var t := Finalize(cfg, sc);
        if t.Some? {
          return t;
        }
      }
      sc := See(desc, sc);
      off := off + len;
    }
    ScanStops(blob, off, cfg, sc);
    return if sc.matches then Finalize(cfg, sc) else None;
  }

  // ---- the answer, byte by byte ------------------------------------------------------------

  /** Descriptors `i`, `a` and `b` of a blob are an interface of class 255, subclass 254 and protocol
      2, and a bulk IN and a bulk OUT endpoint that follow it before any other interface. */
  predicate Trio(ds: seq<Bytes>, i: int, a: int, b: int) {
    && 0 <= i < a < |ds| && i < b < |ds|
    && 9 <= |ds[i]| && ds[i][1] == 4 && ds[i][5] == 255 && ds[i][6] == 254 && ds[i][7] == 2
    && (forall m :: i < m < |ds| && (m <= a || m <= b) ==> 2 <= |ds[m]| && ds[m][1] != 4)
    && 7 <= |ds[a]| && ds[a][1] == 5 && ds[a][3] % 4 == 2 && 128 <= ds[a][2]
    && 7 <= |ds[b]| && ds[b][1] == 5 && ds[b][3] % 4 == 2 && ds[b][2] < 128
  }

  /** No trio has an earlier interface, or the same one and a later endpoint. */
  ghost predicate Best(ds: seq<Bytes>, i: int, a: int, b: int) {
    && Trio(ds, i, a, b)
    && forall i', a', b' :: Trio(ds, i', a', b') ==> i < i' || (i == i' && a' <= a && b' <= b)
  }

  lemma TrioIs(ds: seq<Bytes>, i: int, a: int, b: int)
    requires Sized(ds)
    ensures Trio(ds, i, a, b) <==>
              && InBody(ds, i, a) && InBody(ds, i, b) && IsMux(ds[i]) && BulkIn(ds[a]) && BulkOut(ds[b])
  {
  }

  lemma MadeIsBest(ds: seq<Bytes>, i: int, a: int, b: int, cfg: Byte, t: MuxTarget)
    requires Sized(ds) && Made(ds, i, a, b, cfg, t) && forall j :: 0 <= j < i ==> !Complete(ds, j)
    ensures Best(ds, i, a, b)
  {
    TrioIs(ds, i, a, b);
    forall i', a', b' | Trio(ds, i', a', b') ensures i < i' || (i == i' && a' <= a && b' <= b) {
      TrioIs(ds, i', a', b');
      assert Complete(ds, i');
    }
  }

  lemma TrioCompletes(ds: seq<Bytes>, i: int, a: int, b: int)
    requires Sized(ds) && Trio(ds, i, a, b)
    ensures Complete(ds, i)
  {
    TrioIs(ds, i, a, b);
  }

  /** The answer in terms of the blob's bytes: there is one exactly if some trio is there, and it
      names the best one's interface, endpoint addresses and packet size. */
  lemma ScanBytes(blob: Bytes, cfg: Byte, r: Option<MuxTarget>)
    requires Scanned(blob, cfg, r)
    ensures var ds := Descs(blob);
            match r
            case None => forall i, a, b :: !Trio(ds, i, a, b)
            case Some(t) =>
              exists i, a, b :: Best(ds, i, a, b)
                && t.configValue == cfg && t.interfaceNumber == ds[i][2] && t.epIn == ds[a][2] && t.epOut == ds[b][2]
                && t.epOutMaxPacket == (ds[b][4] as int + 256 * ds[b][5] as int) % 2048
  {
    var ds := Descs(blob);
    DescsSized(blob);
    if r.Some? {
      var i :| Chosen(ds, i, cfg, r.value);
      var a, b :| Made(ds, i, a, b, cfg, r.value);
      MadeIsBest(ds, i, a, b, cfg, r.value);
    } else {
      forall i, a, b ensures !Trio(ds, i, a, b) {
        if Trio(ds, i, a, b) {
          TrioCompletes(ds, i, a, b);
        }
      }
    }
  }

  // ---- the configuration loop ------------------------------------------------------------

  /** What reading a descriptor gives: the bytes actually read, or an I/O error. `head` answers the
      9-byte read of a configuration header, `full` the read of `wTotalLength` bytes. */
  datatype Config = Config(head: Option<Bytes>, full: Option<Bytes>)

  /** The header has come complete, and the length it gives covers at least itself. */
  predicate Announces(c: Config) {
    c.head.Some? && 9 <= |c.head.value| && 9 <= c.head.value[2] as int + 256 * c.head.value[3] as int
  }

  /** One of the two reads of the configuration is an I/O error. */
  predicate Fails(c: Config) {
    c.head.None? || (Announces(c) && c.full.None?)
  }

  /** The whole configuration has come. */
  predicate Arrives(c: Config) {
    && Announces(c) && c.full.Some?
    && c.head.value[2] as int + 256 * c.head.value[3] as int <= |c.full.value|
  }

  /** A configuration that arrives is scanned, exactly as long as its header says, under the value in
      byte 5 of the header. */
  ghost predicate Answers(c: Config, r: Option<MuxTarget>) {
    && Arrives(c)
    && Scanned(c.full.value[..c.head.value[2] as int + 256 * c.head.value[3] as int], c.head.value[5], r)
  }

  /** It reads well and has no target, or is passed over: short, or of an implausible length. */
  ghost predicate NoTarget(c: Config) {
    !Fails(c) && (Arrives(c) ==> Answers(c, None))
  }

  datatype SearchResult = Broken | NotFound | Found(target: MuxTarget)

  /** find_mux_target after the device descriptor (`device`, the bytes read) has been read: the
      highest configuration that has a target, or fails to read, decides. */
  method FindMuxTarget(device: Option<Bytes>, configs: seq<Config>) returns (r: SearchResult)
    requires device.Some? && 18 <= |device.value| ==> |configs| == device.value[17]
    ensures device.None? ==> r.Broken?
    ensures device.Some? && |device.value| < 18 ==> r.NotFound?
    ensures device.Some? && 18 <= |device.value| ==>
              match r
              case NotFound => forall i :: 0 <= i < |configs| ==> NoTarget(configs[i])
              case Found(t) =>
                exists i :: 0 <= i < |configs| && Answers(configs[i], Some(t))
                            && forall j :: i < j < |configs| ==> NoTarget(configs[j])
              case Broken =>
                exists i :: 0 <= i < |configs| && Fails(configs[i])
                            && forall j :: i < j < |configs| ==> NoTarget(configs[j])
  {
    if device.None? {
      return Broken;
    }
    if |device.value| < 18 {
      return NotFound;
    }
    var n := device.value[17];
    for i := n downto 0
      invariant forall j :: i <= j < n ==> NoTarget(configs[j])
    {
      var c := configs[i];
      if c.head.None? {
        assert Fails(c);
        return Broken;
      }
      if |c.head.value| < 9 {
        continue;
      }
      var total := Le16(c.head.value[2], c.head.value[3]);
      if total < 9 {
        continue;
      }
      if c.full.None? {
        assert Fails(c);
        return Broken;
      }
      if |c.full.value| < total {
        continue;
      }
      var t := ScanConfigBlob(c.full.value[..total], c.head.value[5]);
      assert Answers(c, t);
      if t.Some? {
        return Found(t.value);
      }
    }
    return NotFound;
  }
}
