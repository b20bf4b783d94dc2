/**
 * IPv4 address filters: the whitelist (`src/auth/whitelist.rs`) and the octet
 * tests of the enrollment code (`src/enroll/identity.rs`).  Addresses are
 * 32-bit numbers; bitwise operations are defined bit by bit.
 */
module Cidr {

  const WORD := 0x1_0000_0000

  type Address = a: nat | a < WORD

  function Pow2(k: nat): (p: nat)
    ensures p >= 1
  {
    if k == 0 then 1 else 2 * Pow2(k - 1)
  }

  /** Bitwise conjunction. */
  function And(a: nat, b: nat): nat
    decreases a
  {
    if a == 0 || b == 0 then 0 else (a % 2) * (b % 2) + 2 * And(a / 2, b / 2)
  }

  /** `<<` on 32-bit words. */
  function ShiftLeft(a: Address, k: nat): Address {
    a * Pow2(k) % WORD
  }

  function Mask(prefix: nat): Address
    requires prefix <= 32
  {
    if prefix == 0 then 0 else ShiftLeft(WORD - 1, 32 - prefix)
  }

  /** `ip_in_subnet`; entries with a longer prefix than 32 are rejected when they are parsed. */
  predicate IpInSubnet(ip: Address, network: Address, prefix: nat)
    requires prefix <= 32
  {
    And(ip, Mask(prefix)) == And(network, Mask(prefix))
  }

  // -------------------------------------------------------------- arithmetic

  lemma {:induction false} AndWithOnes(a: nat, k: nat)
    requires a < Pow2(k)
    ensures And(a, Pow2(k) - 1) == a
    decreases k
  {
    if k > 0 && a > 0 {
      assert (Pow2(k) - 1) / 2 == Pow2(k - 1) - 1 && (Pow2(k) - 1) % 2 == 1;
      AndWithOnes(a / 2, k - 1);
    }
  }

  lemma Associates(a: nat, b: nat, c: nat)
    ensures (a * b) * c == a * (b * c)
  {
  }

  lemma Distributes(a: nat, b: nat, c: nat)
    ensures a * (b + c) == a * b + a * c
  {
  }

  /** Nested quotients and remainders, without division. */
  lemma NestedParts(a: nat, m: nat, n: nat, q: nat, r: nat, s: nat, rest: nat)
    requires a == m * q + rest && q == n * r + s && rest < m && s < n
    ensures a == (m * n) * r + (m * s + rest) && m * s + rest < m * n
  {
    Distributes(m, n * r, s);
    Associates(m, n, r);
    MultiplyBound(m, s, n - 1);
    Distributes(m, n - 1, 1);
  }

  lemma QuotientOfQuotient(a: nat, m: nat, n: nat)
    requires m > 0 && n > 0
    ensures m * n > 0 && a / (m * n) == (a / m) / n
  {
    var q := a / m;
    Positive(m, n);
    NestedParts(a, m, n, q, q / n, q % n, a % m);
    UniqueQuotient(a, m * n, q / n, m * (q % n) + a % m);
  }

  lemma Positive(m: nat, n: nat)
    requires m > 0 && n > 0
    ensures m * n > 0
  {
  }

  lemma MultiplyBound(m: nat, a: nat, b: nat)
    requires a <= b
    ensures m * a <= m * b
  {
  }

  lemma UniqueQuotient(a: nat, d: nat, q: nat, r: nat)
    requires d > 0 && a == d * q + r && r < d
    ensures a / d == q && a % d == r
  {
    var q', r' := a / d, a % d;
    assert a == d * q' + r';
    assert d * (q - q') == r' - r;
    if q > q' {
      MultiplyBound(d, 1, q - q');
    } else if q < q' {
      assert d * (q' - q) == r - r';
      MultiplyBound(d, 1, q' - q);
    }
  }

  /** Masking with leading ones clears the last k bits. */
  lemma {:induction false} AndWithMask(a: nat, p: nat, k: nat)
    requires a < Pow2(p + k)
    ensures And(a, (Pow2(p) - 1) * Pow2(k)) == a / Pow2(k) * Pow2(k)
    decreases k
  {
    if k == 0 {
      AndWithOnes(a, p);
    } else {
      var h := Pow2(k - 1);
      AndWithMask(a / 2, p, k - 1);
      QuotientOfQuotient(a, 2, h);
      MaskStep(a, Pow2(p) - 1, h, a / 2 / h);
    }
  }

  lemma MaskStep(a: nat, m: nat, h: nat, q: nat)
    requires And(a / 2, m * h) == q * h
    ensures And(a, m * (2 * h)) == q * (2 * h)
  {
    DoubleFactor(m, h);
    DoubleFactor(q, h);
    AndWithEven(a, m * h);
  }

  lemma DoubleFactor(m: nat, h: nat)
    ensures m * (2 * h) == 2 * (m * h)
  {
  }

  lemma AndWithEven(a: nat, half: nat)
    ensures And(a, 2 * half) == 2 * And(a / 2, half)
  {
    assert 2 * half / 2 == half && 2 * half % 2 == 0;
    if a != 0 && half != 0 {
      assert And(a, 2 * half) == (a % 2) * 0 + 2 * And(a / 2, half);
    } else {
      assert And(a / 2, half) == 0;
    }
  }

  lemma {:induction false} Pow2Sum(p: nat, k: nat)
    ensures Pow2(p + k) == Pow2(p) * Pow2(k)
    decreases p
  {
    if p > 0 {
      Pow2Sum(p - 1, k);
    }
  }

  lemma WordIsPow2()
    ensures Pow2(32) == WORD
  {
    assert Pow2(8) == 256;
    Pow2Sum(8, 8);
    Pow2Sum(16, 16);
  }

  /** The shifted word of ones has `prefix` leading ones. */
  lemma MaskIsLeadingOnes(prefix: nat)
    requires prefix <= 32
    ensures Mask(prefix) == (Pow2(prefix) - 1) * Pow2(32 - prefix)
  {
    if prefix > 0 {
      WordIsPow2();
      Pow2Sum(prefix, 32 - prefix);
      ShiftedOnes(Pow2(prefix), Pow2(32 - prefix));
    }
  }

  lemma ShiftedOnes(high: nat, size: nat)
    requires high > 0 && size > 0 && high * size == WORD
    ensures (WORD - 1) * size % WORD == (high - 1) * size
  {
    Distributes(size, high - 1, 1);
    Distributes(size, WORD - 1, 1);
    Distributes(WORD, size - 1, 1);
    UniqueQuotient((WORD - 1) * size, WORD, size - 1, (high - 1) * size);
  }

  /** Number of addresses of a subnet. */
  function Size(prefix: nat): (size: nat)
    requires prefix <= 32
    ensures size >= 1
  {
    Pow2(32 - prefix)
  }

  lemma AndMask(a: Address, prefix: nat)
    requires prefix <= 32
    ensures And(a, Mask(prefix)) == a / Size(prefix) * Size(prefix)
  {
    WordIsPow2();
    MaskIsLeadingOnes(prefix);
    assert prefix + (32 - prefix) == 32;
    AndWithMask(a, prefix, 32 - prefix);
  }

  // -------------------------------------------------------------- membership

  /** The mask comparison is equality of the network numbers, for all prefixes. */
  lemma SubnetIsQuotient(ip: Address, network: Address, prefix: nat)
    requires prefix <= 32
    ensures IpInSubnet(ip, network, prefix) <==> ip / Size(prefix) == network / Size(prefix)
  {
    AndMask(ip, prefix);
    AndMask(network, prefix);
    ProductDetermines(ip / Size(prefix), network / Size(prefix), Size(prefix));
  }

  lemma ProductDetermines(a: nat, b: nat, d: nat)
    requires d > 0
    ensures a * d == b * d <==> a == b
  {
    UniqueQuotient(a * d, d, a, 0);
    UniqueQuotient(b * d, d, b, 0);
  }

  /** A subnet is the block of `Size` addresses around its network address. */
  lemma SubnetIsBlock(ip: Address, network: Address, prefix: nat)
    requires prefix <= 32
    ensures
      var base := network / Size(prefix) * Size(prefix);
      IpInSubnet(ip, network, prefix) <==> base <= ip < base + Size(prefix)
  {
    hide And, Mask, Size;
    SubnetIsQuotient(ip, network, prefix);
    QuotientIsBlock(ip, network / Size(prefix), Size(prefix));
  }

  lemma QuotientIsBlock(a: nat, q: nat, d: nat)
    requires d > 0
    ensures a / d == q <==> q * d <= a < q * d + d
  {
    if q * d <= a < q * d + d {
      UniqueQuotient(a, d, q, a - q * d);
    }
  }

  /** Equal network numbers stay equal for a shorter prefix. */
  lemma ShorterPrefix(a: Address, b: Address, p: nat, q: nat)
    requires p <= q <= 32 && a / Size(q) == b / Size(q)
    ensures a / Size(p) == b / Size(p)
  {
    Pow2Sum(32 - q, q - p);
    assert 32 - q + (q - p) == 32 - p;
    QuotientOfQuotient(a, Size(q), Pow2(q - p));
    QuotientOfQuotient(b, Size(q), Pow2(q - p));
  }

  /**
   * Subnets nest: a longer prefix is wholly contained in a shorter one if its
   * network, or any other of its addresses, lies there, and disjoint otherwise.
   */
  lemma SubnetsNest(ip: Address, outer: Address, p: nat, inner: Address, q: nat)
    requires p <= q <= 32 && IpInSubnet(ip, inner, q)
    ensures IpInSubnet(ip, outer, p) <==> IpInSubnet(inner, outer, p)
  {
    SubnetIsQuotient(ip, inner, q);
    ShorterPrefix(ip, inner, p, q);
    SubnetIsQuotient(ip, outer, p);
    SubnetIsQuotient(inner, outer, p);
  }

  // --------------------------------------------------------------- whitelist

  datatype Entry =
    | Ip(address: Address)
    | Network(network: Address, prefix: nat)
    | Hostname(name: string, resolved: Address)

  /** Parsing rejects prefixes over 32. */
  predicate WellFormed(entry: Entry) {
    entry.Network? ==> entry.prefix <= 32
  }

  /** What an entry allows: one address, or the addresses of a block. */
  predicate Allows(entry: Entry, ip: Address)
    requires WellFormed(entry)
  {
    match entry
    case Ip(address) => ip == address
    case Network(network, prefix) =>
      var base := network / Size(prefix) * Size(prefix);
      base <= ip < base + Size(prefix)
    case Hostname(_, resolved) => ip == resolved
  }

  /** `is_allowed`: the entries are visited in any order until one matches. */
  method IsAllowed(entries: set<Entry>, ip: Address) returns (allowed: bool)
    requires forall e :: e in entries ==> WellFormed(e)
    ensures allowed <==> exists e :: e in entries && Allows(e, ip)
  {
    var rest := entries;
    while rest != {}
      invariant rest <= entries
      invariant forall e :: e in entries - rest ==> !Allows(e, ip)
      decreases rest
    {
      var entry :| entry in rest;
      rest := rest - {entry};
      match entry
      case Ip(address) =>
        if ip == address {
          return true;
        }
      case Network(network, prefix) =>
        SubnetIsBlock(ip, network, prefix);
        if IpInSubnet(ip, network, prefix) {
          return true;
        }
      case Hostname(_, resolved) =>
        if ip == resolved {
          return true;
        }
    }
    allowed := false;
  }

  // ------------------------------------------------------------- octet tests

  datatype Octets = Octets(a: nat, b: nat, c: nat, d: nat)

  predicate IsAddress(o: Octets) {
    o.a < 256 && o.b < 256 && o.c < 256 && o.d < 256
  }

  function Bits(o: Octets): Address
    requires IsAddress(o)
  {
    ((o.a * 256 + o.b) * 256 + o.c) * 256 + o.d
  }

  predicate IsContainerBridge(o: Octets) {
    o.a == 172 && And(o.b, 0xF0) == 0x10
  }

  predicate IsLinkLocal(o: Octets) {
    o.a == 169 && o.b == 254
  }

  lemma HighNibble(b: nat)
    requires b < 256
    ensures And(b, 0xF0) == b / 16 * 16
  {
    assert Pow2(4) == 16 && Pow2(8) == 256;
    AndWithMask(b, 4, 4);
  }

  /** The first twelve bits of an address. */
  lemma FirstTwelveBits(o: Octets)
    requires IsAddress(o)
    ensures Bits(o) / 0x100000 == o.a * 16 + o.b / 16
  {
    UniqueQuotient(Bits(o), 0x100000, o.a * 16 + o.b / 16, o.b % 16 * 65536 + o.c * 256 + o.d);
  }

  /** The first two octets of an address. */
  lemma FirstSixteenBits(o: Octets)
    requires IsAddress(o)
    ensures Bits(o) / 0x10000 == o.a * 256 + o.b
  {
    UniqueQuotient(Bits(o), 0x10000, o.a * 256 + o.b, o.c * 256 + o.d);
  }

  lemma BlockSizes()
    ensures Size(12) == 0x100000 && Size(16) == 0x10000
  {
    assert Pow2(4) == 16 && Pow2(8) == 256;
    Pow2Sum(8, 8);
    Pow2Sum(4, 16);
  }

  /** The octet test for container bridges is membership in 172.16.0.0/12. */
  lemma ContainerBridgeIsSubnet(o: Octets)
    requires IsAddress(o)
    ensures IsContainerBridge(o) <==> IpInSubnet(Bits(o), Bits(Octets(172, 16, 0, 0)), 12)
  {
    HighNibble(o.b);
    BlockSizes();
    FirstTwelveBits(o);
    FirstTwelveBits(Octets(172, 16, 0, 0));
    hide Pow2, And, Size, Bits, IpInSubnet;
    SubnetIsQuotient(Bits(o), Bits(Octets(172, 16, 0, 0)), 12);
  }

  /** The octet test for link-local addresses is membership in 169.254.0.0/16. */
  lemma LinkLocalIsSubnet(o: Octets)
    requires IsAddress(o)
    ensures IsLinkLocal(o) <==> IpInSubnet(Bits(o), Bits(Octets(169, 254, 0, 0)), 16)
  {
    BlockSizes();
    FirstSixteenBits(o);
    FirstSixteenBits(Octets(169, 254, 0, 0));
    hide Pow2, And, Size, Bits, IpInSubnet;
    SubnetIsQuotient(Bits(o), Bits(Octets(169, 254, 0, 0)), 16);
  }
}
