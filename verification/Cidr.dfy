/** Address blocks as `ipaddress.ip_network(text, strict=True)` builds them. */
module Cidr {

  function Pow2(n: nat): (p: nat)
    ensures 1 <= p
  {
    if n == 0 then 1 else 2 * Pow2(n - 1)
  }

  /** An IPv4 or IPv6 block: `prefix` leading bits of `base` are fixed. */
  datatype Net = Net(version: int, base: nat, prefix: nat)

  predicate IsVersion(v: int) { v == 4 || v == 6 }

  function Bits(version: int): nat { if version == 4 then 32 else 128 }

  function Size(n: Net): (s: nat)
    ensures 1 <= s
  {
    if n.prefix <= Bits(n.version) then Pow2(Bits(n.version) - n.prefix) else 1
  }

  /** Strict parsing refuses host bits, so the base is a multiple of the block size. */
  predicate IsBlock(n: Net) {
    IsVersion(n.version) && n.prefix <= Bits(n.version) && n.base % Size(n) == 0
  }

  function Last(n: Net): nat { n.base + Size(n) - 1 }

  /** The address test of the library: clear the host bits and compare. */
  predicate MaskedIn(a: nat, n: Net) { a - a % Size(n) == n.base }

  /** The addresses of the block. */
  predicate In(a: nat, n: Net) { n.base <= a <= Last(n) }

  /** `overlaps` of the library, for two blocks of one version. */
  predicate Overlaps(m: Net, n: Net) {
    MaskedIn(n.base, m) || MaskedIn(Last(n), m) || MaskedIn(m.base, n) || MaskedIn(Last(m), n)
  }

  lemma {:induction false} TimesKeepsOrder(x: nat, y: nat, s: nat)
    requires x <= y
    ensures x * s <= y * s
  {
    assert y * s == x * s + (y - x) * s;
  }

  lemma OrderFromTimes(x: nat, y: nat, s: nat)
    requires x * s < y * s
    ensures x < y
  {
    if y <= x {
      TimesKeepsOrder(y, x, s);
    }
  }

  lemma RemainderIsUnique(q: nat, r: nat, s: nat)
    requires 1 <= s && r < s
    ensures (q * s + r) % s == r && (q * s + r) / s == q
  {
    var a := q * s + r;
    var d := a / s;
    assert a == d * s + a % s;
    assert (q + 1) * s == q * s + s && (d + 1) * s == d * s + s;
    OrderFromTimes(q, d + 1, s);
    OrderFromTimes(d, q + 1, s);
  }

  /** Masking decides exactly the addresses between the base and the last address. */
  lemma MaskIsRange(a: nat, n: Net)
    requires IsBlock(n)
    ensures MaskedIn(a, n) <==> In(a, n)
  {
    var s := Size(n);
    var q := n.base / s;
    assert n.base == q * s;
    if In(a, n) {
      RemainderIsUnique(q, a - n.base, s);
    }
  }

  /** Two blocks overlap exactly when some address lies in both. */
  lemma OverlapMeansSharedAddress(m: Net, n: Net)
    requires IsBlock(m) && IsBlock(n)
    ensures Overlaps(m, n) <==> exists a: nat :: In(a, m) && In(a, n)
  {
    MaskIsRange(n.base, m);
    MaskIsRange(Last(n), m);
    MaskIsRange(m.base, n);
    MaskIsRange(Last(m), n);
    if Overlaps(m, n) {
      assert In(n.base, n) && In(Last(n), n) && In(m.base, m) && In(Last(m), m);
    } else {
      assert forall a: nat :: In(a, m) ==> In(m.base, n) || In(n.base, m) || !In(a, n);
    }
  }

  /** At most one block of a given length contains an address, so a longest match is one block. */
  lemma SameLengthSameBlock(a: nat, m: Net, n: Net)
    requires IsBlock(m) && IsBlock(n) && m.version == n.version && m.prefix == n.prefix
    requires In(a, m) && In(a, n)
    ensures m == n
  {
    MaskIsRange(a, m);
    MaskIsRange(a, n);
  }
}
