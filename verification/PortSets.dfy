/** The port sets of section 5.1 of RFC 7597. */
module PortSets {
  import opened Bits
  import opened Mapt

  datatype Range = Range(first: int, last: int)

  /** The length of one range: two to the number of bits below the PSID. */
  function Contiguous(a: nat, psidLen: nat): nat
    requires a + psidLen <= 16
  {
    Pow2(16 - a - psidLen)
  }

  function PortRange(a: nat, psidLen: nat, psid: nat, i: nat): Range
    requires a + psidLen <= 16
  {
    var first := i * Pow2(16 - a) + psid * Contiguous(a, psidLen);
    Range(first, first + Contiguous(a, psidLen) - 1)
  }

  /**
   WanManager_CalculateMAPTPortRange, with the ranges as a list instead of text; an offset of zero stands for six. The
   ranges hold exactly the ports whose a top bits are not all zero and whose next bits are the PSID.
   */
  method CalculatePortRanges(offset: nat, psidLen: nat, psid: nat) returns (ranges: seq<Range>)
    requires (if offset == 0 then 6 else offset) + psidLen <= 16
    ensures var a := if offset == 0 then 6 else offset;
            && |ranges| == Pow2(a) - 1
            && (forall k | 0 <= k < |ranges| :: ranges[k] == PortRange(a, psidLen, psid, k + 1))
            && (psid < Pow2(psidLen) ==>
                  forall p: nat | p < 65536 ::
                    InSome(p, ranges) <==> p >= Pow2(16 - a) && p / Pow2(16 - a - psidLen) % Pow2(psidLen) == psid)
  {
    var a := offset;
    if a == 0 {
      a := 6;
    }
    var count, m := Pow2(a), 16 - (psidLen + a);
    var contiguous, ratio := Pow2(m), 16 - a;
    ranges := [];
    var index := 1;
    while index < count
      invariant 1 <= index <= count && |ranges| == index - 1
      invariant forall k | 0 <= k < |ranges| :: ranges[k] == PortRange(a, psidLen, psid, k + 1)
    {
      var first := index * Pow2(ratio) + psid * Pow2(m);
      ranges := ranges + [Range(first, first + (contiguous - 1))];
      index := index + 1;
    }
    if psid < Pow2(psidLen) {
      forall p: nat | p < 65536
        ensures InSome(p, ranges) <==> p >= Pow2(16 - a) && p / Pow2(16 - a - psidLen) % Pow2(psidLen) == psid
      {
        ListedPorts(ranges, a, psidLen, psid, p);
      }
    }
  }

  predicate InRange(p: int, r: Range) {
    r.first <= p <= r.last
  }

  predicate InSome(p: int, ranges: seq<Range>) {
    exists k | 0 <= k < |ranges| :: InRange(p, ranges[k])
  }

  lemma ListedPorts(ranges: seq<Range>, a: nat, psidLen: nat, psid: nat, p: nat)
    requires 1 <= a && a + psidLen <= 16 && psid < Pow2(psidLen) && p < 65536 && |ranges| == Pow2(a) - 1
    requires forall k | 0 <= k < |ranges| :: ranges[k] == PortRange(a, psidLen, psid, k + 1)
    ensures InSome(p, ranges) <==> p >= Pow2(16 - a) && p / Pow2(16 - a - psidLen) % Pow2(psidLen) == psid
  {
    hide PortRange; hide InRange; hide Pow2;
    PortsArePartitioned(a, psidLen, p);
    if OwnsPort(a, psidLen, psid, p) {
      var i: nat :| 1 <= i < Pow2(a) && InRange(p, PortRange(a, psidLen, psid, i));
      assert InRange(p, ranges[i - 1]);
    }
    if InSome(p, ranges) {
      var k :| 0 <= k < |ranges| && InRange(p, ranges[k]);
      assert InRange(p, PortRange(a, psidLen, psid, k + 1));
    }
  }

  /** Some range of the PSID's list holds the port. */
  ghost predicate OwnsPort(a: nat, psidLen: nat, psid: nat, p: int)
    requires a + psidLen <= 16
  {
    exists i: nat :: 1 <= i < Pow2(a) && InRange(p, PortRange(a, psidLen, psid, i))
  }

  /** The a bits on top of a port, and the PSID bits below them. */
  function TopBits(a: nat, p: nat): int
    requires a <= 16
  {
    p / Pow2(16 - a)
  }

  function MiddleBits(a: nat, psidLen: nat, p: nat): int
    requires a + psidLen <= 16
  {
    p / Contiguous(a, psidLen) % Pow2(psidLen)
  }

  /** A port written as top bits, PSID bits and low bits. */
  lemma PortInRange(a: nat, psidLen: nat, psid: nat, i: nat, p: nat)
    requires a + psidLen <= 16 && psid < Pow2(psidLen)
    ensures InRange(p, PortRange(a, psidLen, psid, i)) <==> TopBits(a, p) == i && MiddleBits(a, psidLen, p) == psid
  {
    hide Pow2;
    var c, n := Contiguous(a, psidLen), Pow2(psidLen);
    Pow2Add(psidLen, 16 - a - psidLen);
    assert psidLen + (16 - a - psidLen) == 16 - a;
    InBlock(p, c, n, i, psid);
  }

  lemma InBlock(p: nat, c: nat, n: nat, i: nat, psid: nat)
    requires c > 0 && psid < n
    ensures n * c > 0
    ensures i * (n * c) + psid * c <= p <= i * (n * c) + psid * c + c - 1 <==> p / (n * c) == i && p / c % n == psid
  {
    MulIsAtLeast(n, c);
    BlockIff(p, c, i * n + psid);
    Distribute(i, n, psid, c);
    QuotientOfQuotient(p, c, n);
    CutIff(p / c, n, i, psid);
  }

  lemma Distribute(i: int, n: int, psid: int, c: int)
    ensures (i * n + psid) * c == i * (n * c) + psid * c
  {
  }

  lemma BlockIff(p: nat, c: nat, q: nat)
    requires c > 0
    ensures q * c <= p <= q * c + c - 1 <==> p / c == q
  {
    if q * c <= p <= q * c + c - 1 {
      DivModUnique(q, c, p - q * c);
    }
  }

  lemma CutIff(x: nat, n: nat, i: nat, psid: nat)
    requires psid < n
    ensures x == i * n + psid <==> x / n == i && x % n == psid
  {
    DivModUnique(i, n, psid);
  }

  lemma QuotientOfQuotient(p: nat, c: nat, n: nat)
    requires c > 0 && n > 0
    ensures p / (n * c) == p / c / n
  {
    var q := p / c;
    var k := q / n;
    Nested(p, c, n, q, p % c, k, q % n);
  }

  lemma Nested(p: int, c: int, n: int, q: int, r: int, k: int, t: int)
    requires 0 <= r < c && 0 <= t < n && p == q * c + r && q == k * n + t
    ensures p / (n * c) == k
  {
    Distribute(k, n, t, c);
    MulIsAtLeast(n - t, c);
    assert (n - t) * c == n * c - t * c;
    NonNegative(t, c);
    DivModUnique(k, n * c, t * c + r);
  }

  /** Port p belongs to a PSID exactly when its middle bits are the PSID and its top bits are not all zero. */
  lemma MembershipIsByBits(a: nat, psidLen: nat, psid: nat, p: nat)
    requires 1 <= a && a + psidLen <= 16 && psid < Pow2(psidLen) && p < 65536
    ensures OwnsPort(a, psidLen, psid, p) <==> TopBits(a, p) != 0 && MiddleBits(a, psidLen, p) == psid
  {
    TopBitsFit(a, p);
    var i: nat := TopBits(a, p);
    PortInRange(a, psidLen, psid, i, p);
    if OwnsPort(a, psidLen, psid, p) {
      var j: nat :| 1 <= j < Pow2(a) && InRange(p, PortRange(a, psidLen, psid, j));
      PortInRange(a, psidLen, psid, j, p);
    }
  }

  lemma TopBitsFit(a: nat, p: nat)
    requires a <= 16 && p < 65536
    ensures 0 <= TopBits(a, p) < Pow2(a)
    ensures TopBits(a, p) != 0 <==> p >= Pow2(16 - a)
  {
    WordIsPow2();
    Pow2Add(a, 16 - a);
    hide Pow2;
    Quotient(p, Pow2(16 - a), Pow2(a));
  }

  lemma Quotient(p: nat, d: nat, n: nat)
    requires d > 0 && p < n * d
    ensures 0 <= p / d < n && (p / d != 0 <==> p >= d)
  {
    var q := p / d;
    assert p == q * d + p % d;
    RoomBelow(q, d, n);
    if q != 0 {
      MulIsAtLeast(q, d);
    }
  }

  /** Sets of distinct PSIDs are disjoint, and together they cover exactly the ports from 2^(16-a) on. */
  lemma PortsArePartitioned(a: nat, psidLen: nat, p: nat)
    requires 1 <= a && a + psidLen <= 16 && p < 65536
    ensures forall psid: nat | psid < Pow2(psidLen) ::
              OwnsPort(a, psidLen, psid, p) <==> p >= Pow2(16 - a) && psid == MiddleBits(a, psidLen, p)
    ensures MiddleBits(a, psidLen, p) < Pow2(psidLen)
  {
    TopBitsFit(a, p);
    forall psid: nat | psid < Pow2(psidLen)
      ensures OwnsPort(a, psidLen, psid, p) <==> p >= Pow2(16 - a) && psid == MiddleBits(a, psidLen, p)
    {
      MembershipIsByBits(a, psidLen, psid, p);
    }
  }

  /** The ranges of one PSID increase strictly and stay inside the port space. */
  lemma RangesIncrease(a: nat, psidLen: nat, psid: nat, i: nat)
    requires a + psidLen <= 16 && psid < Pow2(psidLen) && i < Pow2(a)
    ensures var r := PortRange(a, psidLen, psid, i);
            r.first <= r.last < PortRange(a, psidLen, psid, i + 1).first && r.last < 65536
  {
    WordIsPow2();
    Pow2Add(psidLen, 16 - a - psidLen);
    Pow2Add(a, 16 - a);
    hide Pow2;
    assert psidLen + (16 - a - psidLen) == 16 - a;
    BlocksIncrease(i, Pow2(16 - a), Pow2(a), psid, Contiguous(a, psidLen), Pow2(psidLen));
  }

  lemma BlocksIncrease(i: nat, d: nat, top: nat, psid: nat, c: nat, n: nat)
    requires c > 0 && d == n * c && psid < n && i < top
    ensures i * d + psid * c + c - 1 < i * d + d <= top * d
    ensures (i + 1) * d == i * d + d && psid * c >= 0
  {
    RoomFor(psid, c, n);
    assert d > 0 by { MulIsAtLeast(n, c); }
    RoomFor(i, d, top);
    NonNegative(psid, c);
  }

  lemma RoomFor(q: nat, p: nat, n: nat)
    requires p > 0 && q < n
    ensures q * p + p <= n * p && (q + 1) * p == q * p + p
  {
    MulIsAtLeast(n - q, p);
    assert (n - q) * p == n * p - q * p;
  }

  function Total(ranges: seq<Range>): int {
    if ranges == [] then 0
    else
      var n := |ranges| - 1;
      Total(ranges[..n]) + ranges[n].last - ranges[n].first + 1
  }

  /** Every PSID gets the same number of ports. */
  lemma {:induction false} EveryoneGetsAsMany(ranges: seq<Range>, a: nat, psidLen: nat, psid: nat)
    requires a + psidLen <= 16
    requires forall k | 0 <= k < |ranges| :: ranges[k] == PortRange(a, psidLen, psid, k + 1)
    ensures Total(ranges) == |ranges| * Contiguous(a, psidLen)
  {
    hide Contiguous; hide Pow2;
    if ranges != [] {
      EveryoneGetsAsMany(ranges[..|ranges| - 1], a, psidLen, psid);
      OneMore(|ranges| - 1, Contiguous(a, psidLen));
    }
  }

  lemma OneMore(n: int, c: int)
    ensures (n + 1) * c == n * c + c
  {
  }
}
/** Configurations computed under one mapping rule never share an address and a port. */
module MaptSharing {
  import opened WanTypes
  import opened Bits
  import opened Mapt
  import opened MaptRoundTrip
  import opened PortSets

  /** Two delegated prefixes under the same mapping rule, both with embedded bits. */
  predicate SameRule(m: MaptMessage, n: MaptMessage) {
    && Readable(m) && Readable(n) && m.prefix.Some? && n.prefix.Some? && !GivesPsid(m) && !GivesPsid(n)
    && m.v6Len < m.iapdLen && n.v6Len == m.v6Len && n.iapdLen == m.iapdLen && n.v4Len == m.v4Len && n.rule == m.rule
  }

  function EmbeddedBits(m: MaptMessage): nat
    requires Readable(m) && m.prefix.Some? && !GivesPsid(m) && m.v6Len < m.iapdLen
  {
    Field(m.prefix.value, m.v6Len, m.iapdLen - m.v6Len)
  }

  /** The computed PSID fits its computed length, whatever the prefix. */
  lemma PsidFitsLength(m: MaptMessage)
    requires Readable(m) && Computes(m) && !GivesPsid(m)
    ensures Computed(m).psid < Pow2(Computed(m).psidLen)
  {
    hide Field; hide Pow2;
  }

  /** With the computed PSIDs and their length, the port sets of two prefixes are equal or disjoint. */
  lemma PortSetsEqualOrDisjoint(m: MaptMessage, n: MaptMessage, a: nat, p: nat)
    requires SameRule(m, n) && 1 <= a && a + Computed(m).psidLen <= 16 && p < 65536
    ensures var c, d := Computed(m), Computed(n);
            && c.psidLen == d.psidLen
            && if c.psid == d.psid then
                 OwnsPort(a, c.psidLen, c.psid, p) <==> OwnsPort(a, d.psidLen, d.psid, p)
               else
                 !(OwnsPort(a, c.psidLen, c.psid, p) && OwnsPort(a, d.psidLen, d.psid, p))
  {
    PsidFitsLength(m);
    PsidFitsLength(n);
    var c, d := Computed(m), Computed(n);
    assert c.psidLen == d.psidLen;
    hide Computed; hide OwnsPort; hide Pow2;
    PortsArePartitioned(a, c.psidLen, p);
  }

  /** Address and PSID together are decided by the embedded bits, and decide them. */
  lemma AddressAndPsidIdentify(m: MaptMessage, n: MaptMessage)
    requires SameRule(m, n) && MaptRoundTrip.Valid(RuleOf(m))
    ensures EmbeddedBits(m) == EmbeddedBits(n) <==>
            Computed(m).address == Computed(n).address && Computed(m).psid == Computed(n).psid
  {
    hide Computed; hide EmbeddedBits; hide Field; hide Pow2;
    AddressIsSum(m);
    AddressIsSum(n);
    SameCut(EmbeddedBits(m), EmbeddedBits(n), Pow2(Computed(m).psidLen));
  }

  lemma SameCut(x: nat, y: nat, d: nat)
    requires d > 0
    ensures x == y <==> x / d == y / d && x % d == y % d
  {
    assert x == x / d * d + x % d;
    assert y == y / d * d + y % d;
  }

  lemma AddressIsSum(m: MaptMessage)
    requires Readable(m) && m.prefix.Some? && !GivesPsid(m) && m.v6Len < m.iapdLen && MaptRoundTrip.Valid(RuleOf(m))
    ensures Computed(m).psidLen == m.iapdLen - m.v6Len - (32 - m.v4Len)
    ensures Computed(m).address == m.rule + EmbeddedBits(m) / Pow2(Computed(m).psidLen)
    ensures Computed(m).psid == EmbeddedBits(m) % Pow2(Computed(m).psidLen)
  {
    hide Computed; hide Field; hide Pow2;
    ConfigurationExactly(m);
    SuffixFits(m);
    AddressKeepsRule(m.rule, 32 - m.v4Len, EmbeddedBits(m) / Pow2(Computed(m).psidLen));
  }

  lemma SuffixFits(m: MaptMessage)
    requires Readable(m) && m.prefix.Some? && !GivesPsid(m) && m.v6Len < m.iapdLen
    ensures EmbeddedBits(m) / Pow2(m.iapdLen - m.v6Len - (32 - m.v4Len)) < Pow2(32 - m.v4Len)
  {
    hide Pow2;
    var suffixLen, psidLen := 32 - m.v4Len, m.iapdLen - m.v6Len - (32 - m.v4Len);
    SplitIsExact(m.prefix.value, m.v6Len, suffixLen, psidLen);
    hide Field;
    var index, psid := Field(m.prefix.value, m.v6Len, suffixLen), Field(m.prefix.value, m.v6Len + suffixLen, psidLen);
    DivModUnique(index, Pow2(psidLen), psid);
  }

  /** The purpose of MAP-T: of two prefixes with different embedded bits, no address and port belongs to both. */
  lemma NoPortIsShared(m: MaptMessage, n: MaptMessage, a: nat, p: nat)
    requires SameRule(m, n) && MaptRoundTrip.Valid(RuleOf(m)) && EmbeddedBits(m) != EmbeddedBits(n)
    requires 1 <= a && a + Computed(m).psidLen <= 16 && p < 65536
    ensures var c, d := Computed(m), Computed(n);
            !(c.address == d.address && OwnsPort(a, c.psidLen, c.psid, p) && OwnsPort(a, d.psidLen, d.psid, p))
  {
    hide Computed; hide OwnsPort; hide Pow2; hide Field; hide EmbeddedBits;
    AddressAndPsidIdentify(m, n);
    PortSetsEqualOrDisjoint(m, n, a, p);
  }
}
