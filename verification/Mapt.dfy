/** MAP-T: embedded-address bits, the mapped IPv4 address, the MAP IPv6 address and the port sets. */
module Mapt {
  import opened WanTypes
  import opened Bits

  const WORD := 0x1_0000_0000

  lemma WordIsPow2()
    ensures Pow2(32) == WORD && Pow2(16) == 65536 && Pow2(8) == 256
  {
    assert Pow2(8) == 256;
    Pow2Add(8, 8);
    Pow2Add(16, 16);
  }

  /** WanManager_GetMAPTbits: num bits of an unsigned value, the first of them at position pos. */
  function GetMaptBits(value: nat, pos: int, num: nat): (r: nat)
    requires pos + 1 - num >= 0
    ensures r < Pow2(num)
  {
    value % WORD / Pow2(pos + 1 - num) % Pow2(num)
  }

  /** The IPv4 suffix, the PSID and its length. */
  datatype Split = Split(index: nat, psid: nat, psidLen: nat)

  /**
   The lengths for which the C arithmetic is defined: the embedded address fits the 32-bit argument of
   WanManager_GetMAPTbits and every byte read lies inside the address.
   */
  predicate InDomain(v6Len: int, iapdLen: int, v4Len: int) {
    && 0 <= v6Len < iapdLen <= 120 && 1 <= v4Len <= 32
    && 0 <= iapdLen - v6Len - (32 - v4Len) <= 16
    && (iapdLen - v6Len <= 24 || (iapdLen - v6Len <= 32 && v6Len % 8 == 0))
  }

  lemma AppendByte(a: seq<Byte>, s: nat, k: nat)
    requires s + k < |a|
    ensures Field(a, 8 * s, 8 * k) * 256 + a[s + k] == Field(a, 8 * s, 8 * k + 8)
  {
    FieldSplit(a, 8 * s, 8 * k, 8);
    ByteIsField(a, s + k);
    WordIsPow2();
  }

  /** The first bytes of the embedded address, read into one number. */
  method ReadBytes(a: seq<Byte>, s: nat, eaLen: nat) returns (ea: nat, bits: nat)
    requires 1 <= eaLen <= 32 && 8 * s + eaLen <= 120 && |a| == 16
    ensures bits % 8 == 0 && eaLen <= bits < eaLen + 8 && bits <= 32 && 8 * s + bits <= 128
    ensures ea == Field(a, 8 * s, bits)
  {
    hide Field;
    var b0: int := a[s];
    ByteIsField(a, s);
    if eaLen <= 8 {
      return b0, 8;
    }
    var b1: int := a[s + 1];
    AppendByte(a, s, 1);
    if eaLen <= 16 {
      return b0 * 0x100 + b1, 16;
    }
    var b2: int := a[s + 2];
    AppendByte(a, s, 2);
    if eaLen <= 24 {
      return b0 * 0x1_0000 + b1 * 0x100 + b2, 24;
    }
    var b3: int := a[s + 3];
    AppendByte(a, s, 3);
    return b0 * 0x100_0000 + b1 * 0x1_0000 + b2 * 0x100 + b3, 32;
  }

  /** Position pos is shift bits into a window of at most 32 bits: shift and mask give the field there. */
  lemma BitsAreField(a: seq<Byte>, i: nat, shift: nat, pos: int, num: nat, ea: nat)
    requires pos + 1 - num >= 0 && shift + pos + 1 <= 32 && i + shift + pos + 1 <= 8 * |a|
    requires ea == Field(a, i, shift + pos + 1)
    ensures GetMaptBits(ea, pos, num) == Field(a, i + shift, num)
  {
    hide Pow2; hide Field;
    assert ea % WORD == ea by {
      WordIsPow2();
      Pow2Grows(shift + pos + 1, 32);
    }
    var rest := pos + 1 - num;
    assert shift + num + rest == shift + pos + 1;
    FieldInside(a, i, shift, num, rest);
  }

  /** The bytes that hold the embedded address; a rule prefix that ends inside a byte takes one byte more. */
  method Window(a: seq<Byte>, v6Len: nat, eaLen: nat) returns (ea: nat, pos: int)
    requires |a| == 16 && 1 <= eaLen && v6Len + eaLen <= 120 && (eaLen <= 24 || (eaLen <= 32 && v6Len % 8 == 0))
    ensures eaLen <= pos + 1 && v6Len % 8 + pos + 1 <= 32 && v6Len + pos + 1 <= 128
    ensures ea == Field(a, v6Len / 8 * 8, v6Len % 8 + pos + 1)
  {
    hide Field;
    var start, shift := v6Len / 8, v6Len % 8;
    var bits: nat;
    ea, bits := ReadBytes(a, start, eaLen);
    pos := bits - shift - 1;
    if shift != 0 {
      AppendByte(a, start, bits / 8);
      ea := ea * 256 + a[start + bits / 8];
      pos := pos + 8;
    }
  }

  /**
   The IPv4 suffix is the run of bits after the rule prefix, and the PSID is the run after the suffix: together they
   are the embedded-address bits of section 5.2 of RFC 7597, and the PSID is as long as what the suffix leaves.
   */
  method CalculatePsidAndV4Index(prefix: Option<seq<Byte>>, v6Len: int, iapdLen: int, v4Len: int)
    returns (r: Option<Split>)
    requires prefix.Some? && iapdLen > v6Len ==> |prefix.value| == 16 && InDomain(v6Len, iapdLen, v4Len)
    ensures r.Some? <==> prefix.Some? && iapdLen > v6Len
    ensures r.Some? ==>
              && r.value.psidLen == iapdLen - v6Len - (32 - v4Len)
              && r.value.psid < Pow2(r.value.psidLen) && r.value.index < Pow2(32 - v4Len)
              && r.value.index * Pow2(r.value.psidLen) + r.value.psid == Field(prefix.value, v6Len, iapdLen - v6Len)
    ensures r.Some? ==> r.value == EmbeddedSplit(prefix.value, v6Len, 32 - v4Len, iapdLen - v6Len - (32 - v4Len))
  {
    hide Field; hide GetMaptBits; hide Pow2;
    if iapdLen <= v6Len {
      return None;
    }
    if prefix.None? {
      return None;
    }
    var suffixLen, eaLen := 32 - v4Len, iapdLen - v6Len;
    var psidLen := eaLen - suffixLen;
    var ea, pos := Window(prefix.value, v6Len, eaLen);
    assert v6Len / 8 * 8 + v6Len % 8 == v6Len;
    BitsAreField(prefix.value, v6Len / 8 * 8, v6Len % 8, pos, suffixLen, ea);
    BitsAreField(prefix.value, v6Len / 8 * 8, v6Len % 8 + suffixLen, pos - suffixLen, psidLen, ea);
    var index := GetMaptBits(ea, pos, suffixLen);
    var psid := GetMaptBits(ea, pos - suffixLen, psidLen);
    SplitIsExact(prefix.value, v6Len, suffixLen, psidLen);
    return Some(Split(index, psid, psidLen));
  }

  function EmbeddedSplit(a: seq<Byte>, v6Len: nat, suffixLen: nat, psidLen: nat): Split
    requires v6Len + suffixLen + psidLen <= 8 * |a|
  {
    Split(Field(a, v6Len, suffixLen), Field(a, v6Len + suffixLen, psidLen), psidLen)
  }

  /** Suffix and PSID are nothing but the embedded-address bits, cut in two. */
  lemma SplitIsExact(a: seq<Byte>, v6Len: nat, suffixLen: nat, psidLen: nat)
    requires v6Len + suffixLen + psidLen <= 8 * |a|
    ensures Field(a, v6Len, suffixLen + psidLen) ==
            Field(a, v6Len, suffixLen) * Pow2(psidLen) + Field(a, v6Len + suffixLen, psidLen)
  {
    FieldSplit(a, v6Len, suffixLen, psidLen);
  }

  // ---- the mapped IPv4 address ----

  /** What DHCPv6 delivered; prefix is missing when its text does not parse, rule is the IPv4 rule prefix. */
  datatype MaptMessage = MaptMessage(
    prefix: Option<seq<Byte>>, v6Len: int, iapdLen: int, v4Len: int, eaLen: int,
    psid: nat, psidLen: int, ratio: int, rule: nat)

  datatype MaptConfig = MaptConfig(psid: nat, psidLen: int, address: nat)

  /** The PSID came as an option of its own and no address bits are embedded. */
  predicate GivesPsid(m: MaptMessage) {
    m.psidLen > 0 && m.eaLen == 0
  }

  /** The lengths of a message with embedded bits are in the domain of the C arithmetic. */
  predicate Readable(m: MaptMessage) {
    && (m.prefix.Some? ==> |m.prefix.value| == 16)
    && (!GivesPsid(m) && m.prefix.Some? && m.iapdLen > m.v6Len ==> InDomain(m.v6Len, m.iapdLen, m.v4Len))
  }

  predicate Computes(m: MaptMessage) {
    GivesPsid(m) || (m.prefix.Some? && m.iapdLen > m.v6Len)
  }

  /** The address is the rule prefix plus the suffix, modulo the word size; a given PSID has no suffix. */
  function Computed(m: MaptMessage): MaptConfig
    requires Readable(m) && Computes(m)
  {
    if GivesPsid(m) then MaptConfig(m.psid, m.psidLen, m.rule % WORD)
    else
      var s := EmbeddedSplit(m.prefix.value, m.v6Len, 32 - m.v4Len, m.iapdLen - m.v6Len - (32 - m.v4Len));
      MaptConfig(s.psid, s.psidLen, (m.rule + s.index) % WORD)
  }

  /**
   A PSID of its own is taken with its length, and the address is the rule prefix; otherwise the suffix is what the
   embedded-address bits have above the PSID, and it is added to the rule prefix.
   */
  lemma ConfigurationExactly(m: MaptMessage)
    requires Readable(m) && Computes(m)
    ensures var c := Computed(m);
            if m.psidLen > 0 && m.eaLen == 0 then
              c.psid == m.psid && c.psidLen == m.psidLen && c.address == m.rule % 0x1_0000_0000
            else
              var bits := Field(m.prefix.value, m.v6Len, m.iapdLen - m.v6Len);
              && c.psidLen == m.iapdLen - m.v6Len - (32 - m.v4Len)
              && c.psid == bits % Pow2(c.psidLen)
              && c.address == (m.rule + bits / Pow2(c.psidLen)) % 0x1_0000_0000
  {
    hide Field; hide Pow2;
    if !(m.psidLen > 0 && m.eaLen == 0) {
      var suffixLen, psidLen := 32 - m.v4Len, m.iapdLen - m.v6Len - (32 - m.v4Len);
      SplitIsExact(m.prefix.value, m.v6Len, suffixLen, psidLen);
      var s := EmbeddedSplit(m.prefix.value, m.v6Len, suffixLen, psidLen);
      DivModUnique(s.index, Pow2(psidLen), s.psid);
    }
  }

  /** It can be computed from a PSID of its own, or from a prefix that is longer than the rule. */
  lemma ComputesExactly(m: MaptMessage)
    ensures Computes(m) <==> (m.psidLen > 0 && m.eaLen == 0) || (m.prefix.Some? && m.v6Len < m.iapdLen)
  {
  }

  /** The part up to the IPv4 address; a sharing ratio of zero means one. */
  method ComputeConfiguration(m: MaptMessage) returns (r: Option<MaptConfig>, ratio: int)
    requires Readable(m)
    ensures ratio == if m.ratio == 0 then 1 else m.ratio
    ensures r == if Computes(m) then Some(Computed(m)) else None
  {
    hide Field; hide Pow2;
    ratio := m.ratio;
    if ratio == 0 {
      ratio := 1;
    }
    var index, psid, psidLen := 0, m.psid, m.psidLen;
    if !(m.psidLen > 0 && m.eaLen == 0) {
      var split := CalculatePsidAndV4Index(m.prefix, m.v6Len, m.iapdLen, m.v4Len);
      if split.None? {
        return None, ratio;
      }
      index, psid, psidLen := split.value.index, split.value.psid, split.value.psidLen;
    }
    var ip := m.rule + index;
    var b0, b1, b2, b3 := ip % 256, ip / 0x100 % 256, ip / 0x1_0000 % 256, ip / 0x100_0000 % 256;
    FourBytes(ip);
    r := Some(MaptConfig(psid, psidLen, b3 * 0x100_0000 + b2 * 0x1_0000 + b1 * 0x100 + b0));
  }

  /**
   WanManager_VerifyMAPTConfiguration: it needs a configuration, the LAN address, and a prefix to place the
   configuration in; the MAP IPv6 address is published only then.
   */
  method VerifyMaptConfiguration(m: MaptMessage, lanAddressFound: bool)
    returns (r: Option<MaptConfig>, published: Option<seq<Byte>>, ratio: int)
    requires Readable(m)
    ensures ratio == if m.ratio == 0 then 1 else m.ratio
    ensures r == if Computes(m) then Some(Computed(m)) else None
    ensures published ==
            if Computes(m) && lanAddressFound && m.prefix.Some?
            then Some(MapAddress(m.prefix.value, Computed(m).address, Computed(m).psid)) else None
  {
    hide Computed;
    published := None;
    r, ratio := ComputeConfiguration(m);
    if r.None? {
      return;
    }
    if !lanAddressFound {
      return;
    }
    if m.prefix.Some? {
      published := Some(MapAddress(m.prefix.value, r.value.address, r.value.psid));
    }
  }

  lemma FourBytes(ip: nat)
    ensures ip / 0x100_0000 % 256 * 0x100_0000 + ip / 0x1_0000 % 256 * 0x1_0000 + ip / 0x100 % 256 * 0x100 + ip % 256
            == ip % WORD
  {
    var q1, b0 := ip / 256, ip % 256;
    var q2, b1 := q1 / 256, q1 % 256;
    var q3, b2 := q2 / 256, q2 % 256;
    var q4, b3 := q3 / 256, q3 % 256;
    var low := b3 * 0x100_0000 + b2 * 0x1_0000 + b1 * 0x100 + b0;
    assert ip == q2 * 0x1_0000 + (b1 * 0x100 + b0);
    DivModUnique(q2, 0x1_0000, b1 * 0x100 + b0);
    assert ip == q3 * 0x100_0000 + (b2 * 0x1_0000 + b1 * 0x100 + b0);
    DivModUnique(q3, 0x100_0000, b2 * 0x1_0000 + b1 * 0x100 + b0);
    assert ip == q4 * WORD + low;
    DivModUnique(q4, WORD, low);
  }

  /** A rule prefix whose host bits are zero is kept: the suffix fills the host bits without a carry. */
  lemma AddressKeepsRule(rule: nat, s: nat, index: nat)
    requires rule < WORD && s <= 31 && rule % Pow2(s) == 0 && index < Pow2(s)
    ensures (rule + index) % WORD == rule + index
    ensures (rule + index) / Pow2(s) == rule / Pow2(s) && (rule + index) % Pow2(s) == index
  {
    WordIsPow2();
    Pow2Add(32 - s, s);
    hide Pow2;
    var p, n := Pow2(s), Pow2(32 - s);
    assert n * p == WORD;
    NoCarry(rule, p, n, index);
  }

  lemma NoCarry(rule: nat, p: nat, n: nat, index: nat)
    requires p > 0 && rule % p == 0 && rule < n * p && index < p
    ensures rule + index < n * p && (rule + index) / p == rule / p && (rule + index) % p == index
  {
    var q := rule / p;
    assert rule == q * p;
    DivModUnique(q, p, index);
    RoomBelow(q, p, n);
  }

  lemma RoomBelow(q: int, p: int, n: int)
    requires p > 0 && q * p < n * p
    ensures q < n && q * p + p <= n * p
  {
    if q < n {
      MulIsAtLeast(n - q, p);
      assert (n - q) * p == n * p - q * p;
    } else {
      NonNegative(q - n, p);
      assert false;
    }
  }

  lemma NonNegative(k: int, p: int)
    requires k >= 0 && p > 0
    ensures k * p >= 0
  {
  }

  // ---- the MAP IPv6 address ----

  /** WanManager_ConfigureIpv6Sysevents: 64 bits of the prefix, two zero bytes, the IPv4 address, the PSID. */
  function MapAddress(prefix: seq<Byte>, address: nat, psid: nat): (r: seq<Byte>)
    requires |prefix| == 16
    ensures |r| == 16 && r[..8] == prefix[..8]
  {
    prefix[..8] +
    [0, 0, address / 0x100_0000 % 256, address / 0x1_0000 % 256, address / 0x100 % 256, address % 256,
     psid / 256 % 256, psid % 256]
  }

  /** Section 6 of RFC 7597: after 16 zero bits the interface identifier carries the IPv4 address and the PSID. */
  lemma AddressReadsBack(prefix: seq<Byte>, address: nat, psid: nat)
    requires |prefix| == 16 && address < WORD && psid < 65536
    ensures var x := MapAddress(prefix, address, psid);
            Field(x, 64, 16) == 0 && Field(x, 80, 32) == address && Field(x, 112, 16) == psid
  {
    hide Field;
    var x := MapAddress(prefix, address, psid);
    FieldOfTwo(x, 8);
    FieldOfTwo(x, 14);
    FieldOfFour(x, 10);
    PutTogether(prefix, address, psid);
  }

  lemma PutTogether(prefix: seq<Byte>, address: nat, psid: nat)
    requires |prefix| == 16 && address < WORD && psid < 65536
    ensures var x := MapAddress(prefix, address, psid);
            && x[14] as int * 0x100 + x[15] == psid
            && x[10] as int * 0x100_0000 + x[11] as int * 0x1_0000 + x[12] as int * 0x100 + x[13] == address
  {
    FourBytes(address);
  }

  lemma FieldOfTwo(x: seq<Byte>, s: nat)
    requires s + 2 <= |x|
    ensures Field(x, 8 * s, 16) == x[s] as int * 0x100 + x[s + 1]
  {
    hide Field;
    ByteIsField(x, s);
    AppendByte(x, s, 1);
  }

  lemma FieldOfFour(x: seq<Byte>, s: nat)
    requires s + 4 <= |x|
    ensures Field(x, 8 * s, 32) ==
            x[s] as int * 0x100_0000 + x[s + 1] as int * 0x1_0000 + x[s + 2] as int * 0x100 + x[s + 3]
  {
    hide Field;
    FieldOfTwo(x, s);
    AppendByte(x, s, 2);
    AppendByte(x, s, 3);
  }
}
