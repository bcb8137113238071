/** Primary and secondary client names: `<primary>%%<counter>`. */
module Naming {
  import opened Bytes

  const PERCENT: byte := 37
  const SEP: Bytes := [37, 37]

  predicate SepAt(s: Bytes, i: int) {
    0 <= i && i + 1 < |s| && s[i] == PERCENT && s[i + 1] == PERCENT
  }

  /** `find(SECONDARY_SEP)`: the first separator, or the length when there is none. */
  function FindSep(s: Bytes): (r: nat)
    ensures r <= |s|
    ensures r < |s| ==> SepAt(s, r)
    ensures forall i :: 0 <= i < r ==> !SepAt(s, i)
  {
    if |s| < 2 then |s|
    else if SepAt(s, 0) then 0
    else
      assert forall i :: 0 < i ==> SepAt(s, i) == SepAt(s[1..], i - 1);
      1 + FindSep(s[1..])
  }

  predicate HasSep(s: Bytes) {
    FindSep(s) < |s|
  }

  /** The name of the primary a client belongs to: everything before the first separator. */
  function PrimaryOf(name: Name): (r: Name)
    ensures !HasSep(r)
    ensures r == name <==> !HasSep(name)
    ensures HasSep(name) ==> !EndsInPercent(r)
  {
    var k := FindSep(name);
    assert forall i :: SepAt(name[..k], i) ==> SepAt(name, i);
    assert k < |name| && EndsInPercent(name[..k]) ==> SepAt(name, k - 1);
    name[..k]
  }

  predicate EndsInPercent(s: Bytes) {
    s != [] && s[|s| - 1] == PERCENT
  }

  lemma PrimaryOfIdempotent(name: Name)
    ensures PrimaryOf(PrimaryOf(name)) == PrimaryOf(name)
  {}

  // ----- generated secondary names

  function Decimal(n: nat): (r: Bytes)
    ensures r != [] && forall i :: 0 <= i < |r| ==> 48 <= r[i] <= 57
    ensures |r| > 1 ==> r[0] != 48
  {
    if n < 10 then [48 + n] else Decimal(n / 10) + [48 + n % 10]
  }

  function Value(s: Bytes): int {
    if s == [] then 0
    else
      var digit: int := s[|s| - 1];
      10 * Value(s[..|s| - 1]) + digit - 48
  }

  lemma {:induction false} DecimalValue(n: nat)
    ensures Value(Decimal(n)) == n
  {
    if n >= 10 {
      DecimalValue(n / 10);
      assert Decimal(n)[..|Decimal(n)| - 1] == Decimal(n / 10);
    } else {
      assert Decimal(n)[..0] == [];
    }
  }

  function SecondaryName(primary: Name, counter: nat): Name {
    primary + SEP + Decimal(counter)
  }

  /** The broker recovers the primary from a generated name exactly when the primary name has no
      separator of its own and does not end in a percent sign. */
  lemma SecondaryRoundTrip(primary: Name, counter: nat)
    ensures PrimaryOf(SecondaryName(primary, counter)) == primary
            <==> !HasSep(primary) && !EndsInPercent(primary)
    ensures HasSep(SecondaryName(primary, counter))
  {
    var s := SecondaryName(primary, counter);
    assert SepAt(s, |primary|);
    var k := FindSep(s);
    assert k <= |primary|;
    if !HasSep(primary) && !EndsInPercent(primary) {
      assert forall i :: 0 <= i < |primary| ==> SepAt(s, i) == SepAt(primary, i);
      assert s[..|primary|] == primary;
    }
  }

  /** Generated names never collide, whatever the two primaries are called. */
  lemma SecondaryInjective(p: Name, i: nat, q: Name, j: nat)
    requires SecondaryName(p, i) == SecondaryName(q, j)
    ensures p == q && i == j
  {
    var s := SecondaryName(p, i);
    LastPercent(p, i);
    LastPercent(q, j);
    assert p == s[..|p|] && q == s[..|q|];
    assert Decimal(i) == s[|p| + 2..] && Decimal(j) == s[|q| + 2..];
    DecimalValue(i);
    DecimalValue(j);
  }

  lemma LastPercent(p: Name, i: nat)
    ensures var s := SecondaryName(p, i);
            && s[|p| + 1] == PERCENT
            && forall k :: |p| + 1 < k < |s| ==> s[k] != PERCENT
  {}

  /** A concrete name the split gets wrong: the secondary of `a%` is taken for a secondary of `a`. */
  lemma PercentSuffixBreaksSplit()
    ensures PrimaryOf(SecondaryName([97, 37], 0)) == [97]
  {
    var s := SecondaryName([97, 37], 0);
    assert s == [97, 37, 37, 37, 48];
    assert SepAt(s, 1) && !SepAt(s, 0);
    assert FindSep(s) == 1;
    assert s[..1] == [97];
  }
}
