/** Byte strings, little-endian integers and NUL-separated fields, as the wire formats use them. */
module Bytes {

  type byte = x: int | 0 <= x < 256
  type Bytes = seq<byte>

  /** Names, topics and methods are UTF-8 text in the program; here they are their bytes. */
  type Name = Bytes

  const TWO_16 := 0x1_0000
  const TWO_32 := 0x1_0000_0000

  datatype Option<+T> = None | Some(value: T)

  predicate NoNul(s: Bytes) {
    forall i :: 0 <= i < |s| ==> s[i] != 0
  }

  // ----- integers

  /** `(n as u16).to_le_bytes()`: the cast keeps the low 16 bits. */
  function Le16(n: nat): (r: Bytes)
    ensures |r| == 2
  {
    [n % 256, n / 256 % 256]
  }

  function FromLe16(s: Bytes): (r: nat)
    requires |s| == 2
    ensures r < TWO_16
  {
    var lo: int, hi: int := s[0], s[1];
    lo + 256 * hi
  }

  /** `(n as u32).to_le_bytes()`: the cast keeps the low 32 bits. */
  function Le32(n: nat): (r: Bytes)
    ensures |r| == 4
  {
    Le16(n) + Le16(n / TWO_16)
  }

  function FromLe32(s: Bytes): (r: nat)
    requires |s| == 4
    ensures r < TWO_32
  {
    FromLe16(s[..2]) + TWO_16 * FromLe16(s[2..])
  }

  /** Writing and reading back an integer yields its low bits, so it is the identity exactly below the width. */
  lemma Le16RoundTrip(n: nat)
    ensures FromLe16(Le16(n)) == n % TWO_16
    ensures FromLe16(Le16(n)) == n <==> n < TWO_16
  {
    var a, b := n % 256, n / 256;
    assert n == a + 256 * b;
    assert b == b % 256 + 256 * (b / 256);
    assert n == a + 256 * (b % 256) + TWO_16 * (b / 256);
  }

  lemma Le32RoundTrip(n: nat)
    ensures FromLe32(Le32(n)) == n % TWO_32
    ensures FromLe32(Le32(n)) == n <==> n < TWO_32
  {
    var s := Le32(n);
    assert s[..2] == Le16(n) && s[2..] == Le16(n / TWO_16);
    Le16RoundTrip(n);
    Le16RoundTrip(n / TWO_16);
    var hi := n / TWO_16;
    assert n == n % TWO_16 + TWO_16 * hi;
    assert hi == hi % TWO_16 + TWO_16 * (hi / TWO_16);
    assert n == n % TWO_16 + TWO_16 * (hi % TWO_16) + TWO_32 * (hi / TWO_16);
  }

  /** The two low bytes of a sum are those of its low part. */
  lemma LowBytes(s: Bytes, hi: nat)
    requires |s| == 2
    ensures Le16(FromLe16(s) + TWO_16 * hi) == s
  {
    var a: int, b: int := s[0], s[1];
    var n := a + 256 * (b + 256 * hi);
    assert n % 256 == a && n / 256 == b + 256 * hi;
    assert (b + 256 * hi) % 256 == b;
  }

  /** Reading four bytes and writing them back gives the same four bytes: ids travel unchanged. */
  lemma FromLe32Inverse(s: Bytes)
    requires |s| == 4
    ensures Le32(FromLe32(s)) == s
  {
    hide Le16, FromLe16;
    var lo, hi := FromLe16(s[..2]), FromLe16(s[2..]);
    LowBytes(s[..2], hi);
    LowBytes(s[2..], 0);
    assert (lo + TWO_16 * hi) / TWO_16 == hi;
    assert s == s[..2] + s[2..];
  }

  // ----- NUL-separated fields

  /** Position of the first NUL, or the length when there is none. */
  function FindNul(s: Bytes): (r: nat)
    ensures r <= |s|
    ensures forall i :: 0 <= i < r ==> s[i] != 0
    ensures NoNul(s[..r])
    ensures r < |s| ==> s[r] == 0
  {
    if s == [] || s[0] == 0 then 0 else 1 + FindNul(s[1..])
  }

  /** The first NUL is the only index with a NUL and none before it. */
  lemma FindNulUnique(s: Bytes, k: nat)
    requires k < |s| && s[k] == 0 && NoNul(s[..k])
    ensures FindNul(s) == k
  {}

  /** `head 00 tail` splits back into `head` and `tail` exactly when `head` has no NUL. */
  lemma FieldRoundTrip(head: Bytes, tail: Bytes)
    ensures var s := head + [0] + tail;
            && FindNul(s) < |s|
            && (s[..FindNul(s)] == head <==> NoNul(head))
            && (NoNul(head) ==> FindNul(s) == |head| && s[FindNul(s) + 1..] == tail)
  {
    var s := head + [0] + tail;
    assert s[|head|] == 0;
    if NoNul(head) {
      assert s[..|head|] == head;
      FindNulUnique(s, |head|);
      assert s[|head| + 1..] == tail;
    }
  }

  /** All pieces between NULs: one more piece than there are NULs. */
  function SplitNul(s: Bytes): (r: seq<Bytes>)
    ensures |r| >= 1
    ensures forall i :: 0 <= i < |r| ==> NoNul(r[i])
    decreases |s|
  {
    var k := FindNul(s);
    if k == |s| then assert s[..k] == s; [s] else [s[..k]] + SplitNul(s[k + 1..])
  }

  /** The pieces written one after another with a NUL between neighbours. */
  function JoinNul(ts: seq<Bytes>): Bytes {
    if ts == [] then [] else if |ts| == 1 then ts[0] else ts[0] + [0] + JoinNul(ts[1..])
  }

  lemma NoNulFound(s: Bytes)
    requires NoNul(s)
    ensures FindNul(s) == |s|
  {}

  /** One step of the split. */
  lemma SplitField(head: Bytes, tail: Bytes)
    requires NoNul(head)
    ensures SplitNul(head + [0] + tail) == [head] + SplitNul(tail)
  {
    hide FindNul, NoNul;
    FieldRoundTrip(head, tail);
  }

  lemma {:induction false} SplitJoin(ts: seq<Bytes>)
    requires ts != [] && forall i :: 0 <= i < |ts| ==> NoNul(ts[i])
    ensures SplitNul(JoinNul(ts)) == ts
    decreases |ts|
  {
    hide FindNul, NoNul;
    if |ts| == 1 {
      NoNulFound(ts[0]);
      assert ts == [ts[0]];
    } else {
      SplitField(ts[0], JoinNul(ts[1..]));
      SplitJoin(ts[1..]);
      assert ts == [ts[0]] + ts[1..];
    }
  }

  lemma JoinCons(t: Bytes, ts: seq<Bytes>)
    requires ts != []
    ensures JoinNul([t] + ts) == t + [0] + JoinNul(ts)
  {
    assert ([t] + ts)[1..] == ts;
  }

  lemma {:induction false} JoinSplit(s: Bytes)
    ensures JoinNul(SplitNul(s)) == s
    decreases |s|
  {
    hide FindNul, NoNul, JoinNul;
    var k := FindNul(s);
    if k < |s| {
      JoinSplit(s[k + 1..]);
      JoinCons(s[..k], SplitNul(s[k + 1..]));
      assert s == s[..k] + [0] + s[k + 1..];
    } else {
      JoinOne(s);
    }
  }

  lemma JoinOne(s: Bytes)
    ensures JoinNul([s]) == s
  {}
}
