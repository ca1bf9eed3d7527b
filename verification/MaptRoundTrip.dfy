/** Encoding and decoding MAP-T addresses. */
module MaptRoundTrip {
  import opened WanTypes
  import opened Bits
  import opened Mapt

  /** A mapping rule: lengths as in the rule, host bits of the IPv4 rule prefix zero. */
  datatype Rule = Rule(v6Len: nat, suffixLen: nat, psidLen: nat, ipv4: nat)

  predicate Valid(r: Rule) {
    && r.suffixLen <= 31 && r.psidLen <= 16 && r.v6Len + r.suffixLen + r.psidLen <= 64
    && r.ipv4 < WORD && r.ipv4 % Pow2(r.suffixLen) == 0
  }

  /** The embedded-address bits of a delegated prefix. */
  function EmbeddedAddress(r: Rule, prefix: seq<Byte>): nat
    requires Valid(r) && |prefix| == 16
  {
    Field(prefix, r.v6Len, r.suffixLen + r.psidLen)
  }

  /** The address the interface gets: rule prefix plus suffix, placed into the MAP IPv6 address with the PSID. */
  function Encode(r: Rule, prefix: seq<Byte>): (x: seq<Byte>)
    requires Valid(r) && |prefix| == 16
    ensures |x| == 16
  {
    var s := EmbeddedSplit(prefix, r.v6Len, r.suffixLen, r.psidLen);
    MapAddress(prefix, (r.ipv4 + s.index) % WORD, s.psid)
  }

  /** Reads the embedded-address bits back from the interface identifier. */
  function Decode(r: Rule, x: seq<Byte>): int
    requires |x| == 16
  {
    (Field(x, 80, 32) - r.ipv4) * Pow2(r.psidLen) + Field(x, 112, 16)
  }

  lemma PsidFits(r: Rule, prefix: seq<Byte>)
    requires Valid(r) && |prefix| == 16
    ensures Field(prefix, r.v6Len + r.suffixLen, r.psidLen) < 65536
  {
    WordIsPow2();
    Pow2Grows(r.psidLen, 16);
  }

  /** Decoding undoes encoding, and the IPv4 address stays inside the rule prefix. */
  lemma DecodeEncode(r: Rule, prefix: seq<Byte>)
    requires Valid(r) && |prefix| == 16
    ensures Decode(r, Encode(r, prefix)) == EmbeddedAddress(r, prefix)
    ensures Field(Encode(r, prefix), 80, 32) / Pow2(r.suffixLen) == r.ipv4 / Pow2(r.suffixLen)
  {
    hide Field; hide Pow2; hide MapAddress;
    var index, psid := Field(prefix, r.v6Len, r.suffixLen), Field(prefix, r.v6Len + r.suffixLen, r.psidLen);
    PsidFits(r, prefix);
    AddressKeepsRule(r.ipv4, r.suffixLen, index);
    AddressReadsBack(prefix, r.ipv4 + index, psid);
    assert Encode(r, prefix) == MapAddress(prefix, r.ipv4 + index, psid);
    FieldSplit(prefix, r.v6Len, r.suffixLen, r.psidLen);
  }

  /** The rule that a message carries. */
  function RuleOf(m: MaptMessage): Rule
    requires InDomain(m.v6Len, m.iapdLen, m.v4Len)
  {
    Rule(m.v6Len, 32 - m.v4Len, m.iapdLen - m.v6Len - (32 - m.v4Len), m.rule)
  }

  /**
   Address and PSID of the computed configuration can be read from the published MAP address; with embedded bits they
   give back exactly the embedded-address bits of the delegated prefix.
   */
  lemma ConfigurationReadsBack(m: MaptMessage)
    requires Readable(m) && Computes(m) && m.prefix.Some? && m.psid < 65536
    ensures var c := Computed(m);
            var x := MapAddress(m.prefix.value, c.address, c.psid);
            && Field(x, 80, 32) == c.address && Field(x, 112, 16) == c.psid
            && (!GivesPsid(m) && Valid(RuleOf(m)) ==>
                  && x == Encode(RuleOf(m), m.prefix.value)
                  && Decode(RuleOf(m), x) == EmbeddedAddress(RuleOf(m), m.prefix.value))
  {
    hide Field; hide Pow2; hide MapAddress; hide Decode; hide EmbeddedAddress;
    var c := Computed(m);
    if !GivesPsid(m) {
      EmbeddedPsidFits(m);
      if Valid(RuleOf(m)) {
        DecodeEncode(RuleOf(m), m.prefix.value);
      }
    }
    AddressReadsBack(m.prefix.value, c.address, c.psid);
  }

  lemma EmbeddedPsidFits(m: MaptMessage)
    requires Readable(m) && Computes(m) && !GivesPsid(m)
    ensures Computed(m).psid < 65536
  {
    hide Field; hide Pow2;
    WordIsPow2();
    Pow2Grows(Computed(m).psidLen, 16);
  }

  /** Two prefixes under one rule share an interface identifier exactly when their embedded addresses agree. */
  lemma EncodeIsInjective(r: Rule, p: seq<Byte>, q: seq<Byte>)
    requires Valid(r) && |p| == 16 && |q| == 16
    ensures Encode(r, p)[8..] == Encode(r, q)[8..] <==> EmbeddedAddress(r, p) == EmbeddedAddress(r, q)
  {
    if Encode(r, p)[8..] == Encode(r, q)[8..] {
      SameEndSameAddress(r, p, q);
    }
    if EmbeddedAddress(r, p) == EmbeddedAddress(r, q) {
      SameAddressSameEnd(r, p, q);
    }
  }

  lemma SameEndSameAddress(r: Rule, p: seq<Byte>, q: seq<Byte>)
    requires Valid(r) && |p| == 16 && |q| == 16 && Encode(r, p)[8..] == Encode(r, q)[8..]
    ensures EmbeddedAddress(r, p) == EmbeddedAddress(r, q)
  {
    DecodeEncode(r, p);
    DecodeEncode(r, q);
    hide Field; hide Pow2; hide Encode; hide Decode; hide Valid;
    LowBytesDecide(r, Encode(r, p), Encode(r, q));
  }

  lemma SameAddressSameEnd(r: Rule, p: seq<Byte>, q: seq<Byte>)
    requires Valid(r) && |p| == 16 && |q| == 16 && EmbeddedAddress(r, p) == EmbeddedAddress(r, q)
    ensures Encode(r, p)[8..] == Encode(r, q)[8..]
  {
    hide Field; hide Pow2;
    CutDecides(r, p);
    CutDecides(r, q);
  }

  lemma CutDecides(r: Rule, p: seq<Byte>)
    requires Valid(r) && |p| == 16
    ensures EmbeddedAddress(r, p) / Pow2(r.psidLen) == Field(p, r.v6Len, r.suffixLen)
    ensures EmbeddedAddress(r, p) % Pow2(r.psidLen) == Field(p, r.v6Len + r.suffixLen, r.psidLen)
  {
    hide Field; hide Pow2;
    FieldSplit(p, r.v6Len, r.suffixLen, r.psidLen);
    DivModUnique(Field(p, r.v6Len, r.suffixLen), Pow2(r.psidLen), Field(p, r.v6Len + r.suffixLen, r.psidLen));
  }

  lemma {:induction false} FieldsAgree(x: seq<Byte>, y: seq<Byte>, i: nat, n: nat)
    requires |x| == 16 && |y| == 16 && x[8..] == y[8..] && 64 <= i && i + n <= 128
    ensures Field(x, i, n) == Field(y, i, n)
  {
    if n > 0 {
      FieldsAgree(x, y, i, n - 1);
      var k := (i + n - 1) / 8;
      assert x[k] == x[8..][k - 8] && y[k] == y[8..][k - 8];
    }
  }

  lemma LowBytesDecide(r: Rule, x: seq<Byte>, y: seq<Byte>)
    requires |x| == 16 && |y| == 16 && x[8..] == y[8..]
    ensures Decode(r, x) == Decode(r, y)
  {
    FieldsAgree(x, y, 80, 32);
    FieldsAgree(x, y, 112, 16);
  }
}
