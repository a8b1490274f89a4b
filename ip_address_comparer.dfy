/**
 * The ordering `IPAddressComparer.Compare` puts on addresses: a null address
 * sorts first, and two addresses compare by their address bytes, element by
 * element, from the first byte on.
 */
module IPAddressOrder {
  import opened Outcomes

  newtype byte = x: int | 0 <= x < 256

  /** An IP address, by the bytes `GetAddressBytes` returns (4 for IPv4, 16 for IPv6). */
  type Address = seq<byte>

  /** Structural comparison of two byte arrays of equal length: the sign of the first difference. */
  function CompareBytes(a: Address, b: Address): (r: int)
    requires |a| == |b|
    ensures -1 <= r <= 1
    ensures r == 0 <==> a == b
    decreases |a|
  {
    if |a| == 0 then 0
    else if a[0] < b[0] then -1
    else if a[0] > b[0] then 1
    else CompareBytes(a[1..], b[1..])
  }

  /** `Compare(x, y)`; `None` is a null reference. */
  function Compare(x: Option<Address>, y: Option<Address>): (r: int)
    requires x.Some? && y.Some? ==> |x.value| == |y.value|
    ensures -1 <= r <= 1
    ensures x == y ==> r == 0
    ensures x.None? && y.Some? ==> r == -1
    ensures x.Some? && y.None? ==> r == 1
    ensures x.Some? && y.Some? ==> (r == 0 <==> x == y)
  {
    if x == y then 0
    else if x.None? then -1
    else if y.None? then 1
    else CompareBytes(x.value, y.value)
  }

  /** Reference definition: `a` is below `b` in lexicographic order. */
  ghost predicate LexLess(a: Address, b: Address)
    requires |a| == |b|
  {
    exists k :: 0 <= k < |a| && a[..k] == b[..k] && a[k] < b[k]
  }

  /** Non-null addresses compare below zero exactly when their bytes are lexicographically smaller. */
  lemma {:induction false} CompareBytesIsLexicographic(a: Address, b: Address)
    requires |a| == |b|
    ensures CompareBytes(a, b) < 0 <==> LexLess(a, b)
    decreases |a|
  {
    if |a| == 0 {
    } else if a[0] < b[0] {
      assert a[..0] == b[..0];
    } else if a[0] > b[0] {
      forall k | 0 < k <= |a| ensures a[..k] != b[..k] {
        assert a[..k][0] != b[..k][0];
      }
    } else {
      CompareBytesIsLexicographic(a[1..], b[1..]);
      if LexLess(a, b) {
        var k :| 0 <= k < |a| && a[..k] == b[..k] && a[k] < b[k];
        assert k > 0;
        assert a[1..][..k - 1] == a[..k][1..];
        assert b[1..][..k - 1] == b[..k][1..];
        assert a[1..][k - 1] == a[k];
        assert LexLess(a[1..], b[1..]);
      }
      if LexLess(a[1..], b[1..]) {
        var k :| 0 <= k < |a| - 1 && a[1..][..k] == b[1..][..k] && a[1..][k] < b[1..][k];
        assert a[..k + 1] == [a[0]] + a[1..][..k];
        assert b[..k + 1] == [b[0]] + b[1..][..k];
        assert LexLess(a, b);
      }
    }
  }

  /** Swapping the arguments negates the result. */
  lemma {:induction false} CompareBytesAntisymmetric(a: Address, b: Address)
    requires |a| == |b|
    ensures CompareBytes(a, b) == -CompareBytes(b, a)
    decreases |a|
  {
    if |a| > 0 && a[0] == b[0] {
      CompareBytesAntisymmetric(a[1..], b[1..]);
    }
  }

  /** Antisymmetry extends to the null cases. */
  lemma CompareAntisymmetric(x: Option<Address>, y: Option<Address>)
    requires x.Some? && y.Some? ==> |x.value| == |y.value|
    ensures Compare(x, y) == -Compare(y, x)
  {
    if x.Some? && y.Some? && x != y {
      CompareBytesAntisymmetric(x.value, y.value);
    }
  }

  /** The order is transitive, so sorting addresses with it is well defined. */
  lemma {:induction false} CompareBytesTransitive(a: Address, b: Address, c: Address)
    requires |a| == |b| == |c|
    requires CompareBytes(a, b) < 0 && CompareBytes(b, c) < 0
    ensures CompareBytes(a, c) < 0
    decreases |a|
  {
    if a[0] == b[0] && b[0] == c[0] {
      CompareBytesTransitive(a[1..], b[1..], c[1..]);
    }
  }
}
