/** Partial DHCPv6 renewals: a server may renew the address and the prefix in different messages. */
module Renewals {
  import opened WanTypes
  import opened DhcpEvents

  predicate RenewsAddress(m: V6Message) {
    m.lease.addr.given && m.lease.addr.cmd == AddrAdd
  }

  /** A renewal carries the address, the prefix or both; nothing is removed and nothing expired. */
  predicate IsRenewal(m: V6Message) {
    && !m.isExpired
    && (m.lease.addr.given ==> RenewsAddress(m))
    && (m.lease.prefix.given ==> AddsPrefix(m))
    && (m.lease.addr.given || m.lease.prefix.given)
  }

  predicate IsFullLease(m: V6Message) {
    IsRenewal(m) && m.lease.addr.given && m.lease.prefix.given
  }

  /** A message and the world in which it is handled. */
  datatype Arrival = Arrival(m: V6Message, w: World)

  /** Handles one message after the other. */
  function Renew(a: V6Side, ms: seq<Arrival>): V6Side {
    if ms == [] then a else HandleV6(Renew(a, ms[..|ms| - 1]), ms[|ms| - 1].m, ms[|ms| - 1].w)
  }

  function LastAddress(ms: seq<Arrival>, first: AddressHalf): AddressHalf {
    if ms == [] then first
    else if ms[|ms| - 1].m.lease.addr.given then ms[|ms| - 1].m.lease.addr
    else LastAddress(ms[..|ms| - 1], first)
  }

  function LastPrefix(ms: seq<Arrival>, first: PrefixHalf): PrefixHalf {
    if ms == [] then first
    else if ms[|ms| - 1].m.lease.prefix.given then ms[|ms| - 1].m.lease.prefix
    else LastPrefix(ms[..|ms| - 1], first)
  }

  predicate BothGiven(a: V6Side) {
    a.st == IpUp && a.lease.addr.given && a.lease.prefix.given
  }

  lemma OneRenewal(a: V6Side, m: V6Message, w: World)
    requires IsRenewal(m) && (BothGiven(a) || IsFullLease(m))
    ensures var r := HandleV6(a, m, w);
            && BothGiven(r)
            && r.lease.addr == (if m.lease.addr.given then m.lease.addr else a.lease.addr)
            && r.lease.prefix == (if m.lease.prefix.given then m.lease.prefix else a.lease.prefix)
  {
  }

  /** After a full lease and any run of renewals both halves are held, each with the value last received for it. */
  lemma {:induction false} RenewalsKeepBothHalves(a: V6Side, full: V6Message, w: World, ms: seq<Arrival>)
    requires IsFullLease(full) && forall x | x in ms :: IsRenewal(x.m)
    ensures var r := Renew(HandleV6(a, full, w), ms);
            && BothGiven(r)
            && r.lease.addr == LastAddress(ms, full.lease.addr)
            && r.lease.prefix == LastPrefix(ms, full.lease.prefix)
  {
    hide HandleV6;
    OneRenewal(a, full, w);
    if ms != [] {
      var n := |ms| - 1;
      RenewalsKeepBothHalves(a, full, w, ms[..n]);
      assert ms[n] in ms;
      OneRenewal(Renew(HandleV6(a, full, w), ms[..n]), ms[n].m, ms[n].w);
    }
  }

  /** Every value that the message carries and that is compared is the one already held. */
  predicate Repeats(m: V6Message, cur: V6Lease) {
    && (m.lease.addr.given && m.lease.addr.address != "" ==> m.lease.addr.address == cur.addr.address)
    && (m.lease.prefix.given ==>
          && m.lease.prefix.sitePrefix == cur.prefix.sitePrefix
          && (m.lease.prefix.pdIfAddress != "" ==> m.lease.prefix.pdIfAddress == cur.prefix.pdIfAddress))
    && m.lease.nameserver == cur.nameserver && m.lease.nameserver1 == cur.nameserver1
  }

  /** A renewal raises exactly one flag: Renewed when it repeats what is held, Changed otherwise. */
  lemma RenewalRaisesOneFlag(a: V6Side, m: V6Message, w: World)
    requires IsRenewal(m) && BothGiven(a)
    ensures var r := HandleV6(a, m, w);
            if Repeats(m, a.lease) then r.renewed && r.changed == a.changed
            else r.changed && r.renewed == a.renewed
  {
  }
}
