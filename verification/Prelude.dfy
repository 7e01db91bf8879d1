/** Integer widths, byte strings and the few sequence facts every other module shares. */
module Prelude {

  datatype Option<+T> = None | Some(value: T)

  datatype Result<+T, +E> = Ok(value: T) | Err(error: E)

  type Byte = n: int | 0 <= n < 0x100
  type U16 = n: int | 0 <= n < 0x1_0000
  type U32 = n: int | 0 <= n < 0x1_0000_0000
  type Bytes = seq<Byte>

  function Min(a: int, b: int): int {
    if a < b then a else b
  }

  function Max(a: int, b: int): int {
    if a < b then b else a
  }

  /** u32::wrapping_add */
  function Add32(a: U32, n: nat): U32 {
    (a + n) % 0x1_0000_0000
  }

  /** u32::wrapping_sub; `%` is Euclidean, so the result is never negative. */
  function Sub32(a: U32, b: U32): U32 {
    (a - b) % 0x1_0000_0000
  }

  /** saturating_sub on unsigned operands */
  function SatSub(a: nat, b: nat): nat {
    if a < b then 0 else a - b
  }

  /** u32::saturating_add */
  function SatAdd32(a: U32, b: U32): U32 {
    Min(a + b, 0x1_0000_0000 - 1)
  }

  function Flatten(parts: seq<Bytes>): Bytes {
    if parts == [] then [] else parts[0] + Flatten(parts[1..])
  }

  lemma {:induction false} FlattenAppend(a: seq<Bytes>, b: seq<Bytes>)
    ensures Flatten(a + b) == Flatten(a) + Flatten(b)
  {
    if a == [] {
      assert a + b == b;
    } else {
      assert (a + b)[1..] == a[1..] + b;
      FlattenAppend(a[1..], b);
    }
  }

  lemma FlattenSnoc(a: seq<Bytes>, x: Bytes)
    ensures Flatten(a + [x]) == Flatten(a) + x
  {
    FlattenAppend(a, [x]);
    assert Flatten([x]) == x + Flatten([]);
  }

  function Sum(ns: seq<nat>): nat {
    if ns == [] then 0 else ns[0] + Sum(ns[1..])
  }

  lemma {:induction false} SumSnoc(ns: seq<nat>, n: nat)
    ensures Sum(ns + [n]) == Sum(ns) + n
  {
    if ns != [] {
      assert (ns + [n])[1..] == ns[1..] + [n];
      SumSnoc(ns[1..], n);
    }
  }

  /** Wrapping a true count twice is wrapping it once. */
  lemma Add32Mod(m: nat, n: nat)
    ensures Add32(m % 0x1_0000_0000, n) == (m + n) % 0x1_0000_0000
  {
  }

  /** As long as fewer than 2^32 units separate two counters, subtracting their 32-bit images
      recovers the true distance, however often the images have wrapped. */
  lemma Sub32Exact(hi: nat, lo: nat)
    requires lo <= hi < lo + 0x1_0000_0000
    ensures Sub32(hi % 0x1_0000_0000, lo % 0x1_0000_0000) == hi - lo
  {
    var d := hi - lo;
    assert (hi % 0x1_0000_0000 - lo % 0x1_0000_0000 - d) % 0x1_0000_0000 == 0;
  }
}
