/** What a DHCP message leaves behind, field by field. */
module LeaseEffects {
  import opened WanTypes
  import opened DhcpEvents

  /** The five compared fields of a DHCPv4 lease. */
  predicate SameLease4(a: V4Lease, b: V4Lease) {
    a.ip == b.ip && a.mask == b.mask && a.gateway == b.gateway && a.dns == b.dns && a.dns1 == b.dns1
  }

  /** What a wiped record holds. */
  lemma NothingIsHeld()
    ensures NO_V4_LEASE.ip == NO_V4_LEASE.mask == NO_V4_LEASE.gateway == NO_V4_LEASE.dns == NO_V4_LEASE.dns1 == ""
    ensures NO_V6_LEASE.addr == AddressHalf(false, AddrAdd, "")
    ensures NO_V6_LEASE.prefix == PrefixHalf(false, AddrAdd, "", "", "", 0, 0)
    ensures NO_V6_LEASE.nameserver == NO_V6_LEASE.nameserver1 == ""
  {
  }

  /** An expired lease is stored, but without its address; nothing of the old lease is left up. */
  lemma Ipv4Expires(a: V4Side, m: V4Message, w: World)
    requires m.lease.gateway != "0.0.0.0" && !m.addressAssigned && m.isExpired
    ensures var r := HandleV4(a, m, w);
            && r.st == IpDown && !r.changed && !r.renewed && r.mail == None
            && r.lease.ip == "" && r.lease.mask == m.lease.mask && r.lease.gateway == m.lease.gateway
            && r.lease.dns == m.lease.dns && r.lease.dns1 == m.lease.dns1
            && r.client == a.client && r.pid == a.pid && r.conn == a.conn
  {
  }

  /**
   An assigned lease is stored and raises exactly one flag: Renewed when all five fields are those held, Changed
   otherwise. IPv4 is up afterwards if the address has a broadcast address; if not, the message stays in the slot.
   */
  lemma Ipv4Assigned(a: V4Side, m: V4Message, w: World)
    requires m.lease.gateway != "0.0.0.0" && m.addressAssigned
    ensures var r := HandleV4(a, m, w);
            && SameLease4(r.lease, m.lease)
            && (if SameLease4(a.lease, m.lease) then r.renewed && r.changed == a.changed
                else r.changed && r.renewed == a.renewed)
            && (if w.broadcastOk then r.st == IpUp && r.mail == None else r.st == a.st && r.mail == a.mail)
            && r.client == a.client && r.pid == a.pid && r.conn == a.conn
  {
  }

  /** Every other message is only taken out of the slot; one without gateway makes an unpublished interface VALID. */
  lemma Ipv4Ignored(s: Iface, m: V4Message, w: World)
    requires s.v4.mail == Some(m)
    requires m.lease.gateway == "0.0.0.0" || (!m.addressAssigned && !m.isExpired)
    ensures var r := DrainV4(s, w);
            && r == s.(v4 := s.v4.(mail := None), status := r.status)
            && (r.status == Valid <==>
                  s.status == Valid ||
                  (m.lease.gateway == "0.0.0.0" && s.status != OnStandby && s.status != StatusUp))
            && (r.status != Valid ==> r.status == s.status)
  {
  }

  /** An empty slot is left alone. */
  lemma NothingToDrain(s: Iface, w: World)
    ensures s.v4.mail.None? ==> DrainV4(s, w) == s
    ensures s.v6.mail.None? ==> DrainV6(s, w) == s
    ensures DrainV4(s, w).status != s.status ==> s.v4.mail.Some? && s.v4.mail.value.lease.gateway == "0.0.0.0"
    ensures DrainV4(s, w) == s.(v4 := DrainV4(s, w).v4, status := DrainV4(s, w).status)
    ensures DrainV6(s, w) == s.(v6 := DrainV6(s, w).v6, mapt := DrainV6(s, w).mapt)
  {
  }

  /** Addresses, prefix and name servers are gone; what identifies the halves of the lease stays. */
  predicate GivenUp6(a: V6Side, r: V6Side) {
    && r.st == IpDown && !r.changed && !r.renewed && !r.conn
    && r.lease.addr == AddressHalf(a.lease.addr.given, a.lease.addr.cmd, "")
    && r.lease.prefix == a.lease.prefix.(sitePrefix := "", pdIfAddress := "")
    && r.lease.nameserver == "" && r.lease.nameserver1 == ""
    && r.client == a.client && r.pid == a.pid
  }

  lemma Ipv6Expires(s: Iface, m: V6Message, w: World)
    requires s.v6.mail == Some(m) && m.isExpired
    ensures var r := DrainV6(s, w);
            && GivenUp6(s.v6, r.v6) && r.v6.mail == None
            && r.mapt == MapRecord(MaptDown, false, s.mapt.params)
  {
  }

  /** The message carries a prefix, but one that is removed or has run out. */
  predicate EndsPrefix(m: V6Message) {
    && m.lease.prefix.given && m.lease.prefix.sitePrefix != ""
    && (m.lease.prefix.cmd == AddrRemove || m.lease.prefix.pltime == 0 || m.lease.prefix.vltime == 0)
  }

  predicate BringsPrefix(m: V6Message) {
    && m.lease.prefix.given && m.lease.prefix.sitePrefix != ""
    && m.lease.prefix.cmd == AddrAdd && m.lease.prefix.pltime != 0 && m.lease.prefix.vltime != 0
  }

  predicate BringsAddress(m: V6Message) {
    m.lease.addr.given && m.lease.addr.cmd == AddrAdd
  }

  /** Neither the message nor the lease held has an address half, and the interface itself reports an address. */
  predicate ReportsAddress(m: V6Message, cur: V6Lease, w: World) {
    !m.lease.addr.given && !(m.lease.prefix.given && cur.addr.given) && w.globalAddr.Some?
  }

  /** A message that brings nothing only lowers IPv6, and only when it ends the very prefix that is held. */
  lemma Ipv6BringsNothing(a: V6Side, m: V6Message, w: World)
    requires !m.isExpired && !BringsAddress(m) && !BringsPrefix(m) && !ReportsAddress(m, a.lease, w)
    ensures var r := HandleV6(a, m, w);
            if EndsPrefix(m) && m.lease.prefix.sitePrefix == a.lease.prefix.sitePrefix
            then GivenUp6(a, r) && r.mail == None
            else r == a.(mail := None)
  {
  }

  /** The address half of the new lease: the renewed one, the one held, or the one the interface reports. */
  function AddressBrought(m: V6Message, cur: V6Lease, held: string, w: World): AddressHalf {
    if !m.lease.addr.given && m.lease.prefix.given && cur.addr.given then cur.addr
    else if ReportsAddress(m, cur, w) && held != w.globalAddrWithLen then
      AddressHalf(false, m.lease.addr.cmd, w.globalAddr.value)
    else m.lease.addr
  }

  /** The prefix half: the renewed one, or the one held when only the address was renewed. */
  function PrefixBrought(m: V6Message, cur: V6Lease): PrefixHalf {
    var addressGiven := m.lease.addr.given || (m.lease.prefix.given && cur.addr.given);
    if !(m.lease.prefix.given && m.lease.prefix.sitePrefix != "") && cur.prefix.given && addressGiven
    then cur.prefix else m.lease.prefix
  }

  /** The new lease names something that the lease held does not. */
  predicate NamesOther(l: V6Lease, held: V6Lease) {
    || (l.addr.address != "" && l.addr.address != held.addr.address)
    || (l.prefix.sitePrefix != "" && l.prefix.sitePrefix != held.prefix.sitePrefix)
    || (l.prefix.pdIfAddress != "" && l.prefix.pdIfAddress != held.prefix.pdIfAddress)
    || l.nameserver != held.nameserver || l.nameserver1 != held.nameserver1
  }

  /** The end of the prefix that is held lowers IPv6 before the rest of the message is looked at. */
  predicate EndsHeldPrefix(a: V6Side, m: V6Message) {
    EndsPrefix(m) && m.lease.prefix.sitePrefix == a.lease.prefix.sitePrefix
  }

  /**
   A message that brings an address or a prefix takes IPv6 up with the merged lease and raises exactly one flag. After
   the end of the held prefix the comparison is with the emptied lease, and the sysevent is low.
   */
  lemma Ipv6Brings(a: V6Side, m: V6Message, w: World)
    requires !m.isExpired && (BringsAddress(m) || BringsPrefix(m) || ReportsAddress(m, a.lease, w))
    ensures var r := HandleV6(a, m, w);
            var ends := EndsHeldPrefix(a, m);
            var held := if ends then V6Lease(a.lease.addr.(address := ""),
                                             a.lease.prefix.(sitePrefix := "", pdIfAddress := ""), "", "") else a.lease;
            && r.st == IpUp && r.mail == None && r.client == a.client && r.pid == a.pid
            && r.conn == (a.conn && !ends)
            && r.lease.addr == AddressBrought(m, a.lease, held.addr.address, w)
            && r.lease.prefix == PrefixBrought(m, a.lease)
            && r.lease.nameserver == m.lease.nameserver && r.lease.nameserver1 == m.lease.nameserver1
            && (if NamesOther(r.lease, held) then r.changed && r.renewed == (a.renewed && !ends)
                else r.renewed && r.changed == (a.changed && !ends))
  {
  }

  /**
   A MAP-T option takes MAP-T up and is flagged when it differs from the one held; a prefix that came without one takes
   MAP-T down and forgets it; the end of the held prefix stops MAP-T first.
   */
  lemma MaptFollowsOption(s: Iface, m: V6Message, w: World)
    requires s.v6.mail == Some(m) && !m.isExpired
    ensures var r := DrainV6(s, w).mapt;
            var ends := EndsHeldPrefix(s.v6, m);
            if m.mapt.Some? then
              && r.status == MaptUp && r.params == m.mapt.value
              && r.changed == ((s.mapt.changed && !ends) || m.mapt.value != s.mapt.params)
            else if m.lease.prefix.given && m.lease.prefix.sitePrefix != "" &&
                    m.lease.prefix.pltime != 0 && m.lease.prefix.vltime != 0 then
              r == MapRecord(MaptDown, false, "")
            else if ends then r == MapRecord(MaptDown, false, s.mapt.params)
            else r == s.mapt
  {
  }

  /** Both mailboxes are drained in a round, IPv4 first. */
  lemma BothAreDrained(s: Iface, w: World)
    ensures var r := Drain(s, w);
            && r.v4 == DrainV4(s, w).v4 && r.v6 == DrainV6(s, w).v6 && r.mapt == DrainV6(s, w).mapt
            && r.status == DrainV4(s, w).status
            && r == s.(v4 := r.v4, v6 := r.v6, mapt := r.mapt, status := r.status)
  {
  }
}
