/** What a DHCP message taken from the mailbox does to the interface record. */
module DhcpEvents {
  import opened WanTypes

  /** WANMGR_IFACE_CONNECTION_DOWN */
  function Lost4(a: V4Side): V4Side {
    a.(st := IpDown, changed := false, renewed := false, lease := a.lease.(ip := ""))
  }

  function ClearedV6(l: V6Lease): V6Lease {
    V6Lease(l.addr.(address := ""), l.prefix.(sitePrefix := "", pdIfAddress := ""), "", "")
  }

  /** WANMGR_IFACE_CONNECTION_IPV6_DOWN, which also lowers the connection-state sysevent. */
  function Lost6(a: V6Side): V6Side {
    a.(st := IpDown, changed := false, renewed := false, lease := ClearedV6(a.lease), conn := false)
  }

  /** WANMGR_IFACE_MAPT_STOP */
  function MaptStopped(r: MapRecord): MapRecord {
    r.(status := MaptDown, changed := false)
  }

  function ConnectionIpv6Down(s: Iface): Iface {
    s.(v6 := Lost6(s.v6), mapt := MaptStopped(s.mapt))
  }

  const NO_GATEWAY := "0.0.0.0"

  /** wanmgr_handle_dhcpv4_event_data: a message whose netmask has no broadcast address is left in the slot. */
  function HandleV4(a: V4Side, m: V4Message, w: World): (r: V4Side)
    ensures r.conn == a.conn && Leaves(a.mail, r.mail)
  {
    if m.lease.gateway == NO_GATEWAY then
      a.(mail := None)
    else if m.addressAssigned then
      var differs := a.lease != m.lease;
      a.(lease := m.lease, changed := a.changed || differs, renewed := a.renewed || !differs,
         st := if w.broadcastOk then IpUp else a.st, mail := if w.broadcastOk then None else a.mail)
    else if m.isExpired then
      Lost4(a.(lease := m.lease, mail := None))
    else
      a.(mail := None)
  }

  /** A message without gateway leaves the interface VALID, unless it is up or on standby. */
  function StatusAfterV4(status: IfaceStatus, m: V4Message): IfaceStatus {
    if m.lease.gateway == NO_GATEWAY && status != OnStandby && status != StatusUp then Valid else status
  }

  predicate HasPrefix(m: V6Message) {
    m.lease.prefix.given && m.lease.prefix.sitePrefix != ""
  }

  predicate AddsPrefix(m: V6Message) {
    HasPrefix(m) && m.lease.prefix.cmd == AddrAdd && m.lease.prefix.pltime != 0 && m.lease.prefix.vltime != 0
  }

  predicate RemovesPrefix(m: V6Message, cur: V6Lease) {
    HasPrefix(m) && !AddsPrefix(m) && cur.prefix.sitePrefix == m.lease.prefix.sitePrefix
  }

  /** Only the prefix was renewed: the address of the previous lease is kept. */
  predicate KeepsAddress(m: V6Message, cur: V6Lease) {
    !m.lease.addr.given && cur.addr.given && m.lease.prefix.given
  }

  function MergedAddress(m: V6Message, cur: V6Lease): AddressHalf {
    if KeepsAddress(m, cur) then cur.addr else m.lease.addr
  }

  /** Only the address was renewed: the prefix of the previous lease is kept. */
  function MergedPrefix(m: V6Message, cur: V6Lease): PrefixHalf {
    if !HasPrefix(m) && cur.prefix.given && MergedAddress(m, cur).given then cur.prefix else m.lease.prefix
  }

  /** The comparison that decides between Ipv6Changed and Ipv6Renewed. */
  predicate Differs(a: V6Lease, cur: V6Lease) {
    || (a.addr.address != "" && a.addr.address != cur.addr.address)
    || (a.prefix.pdIfAddress != "" && a.prefix.pdIfAddress != cur.prefix.pdIfAddress)
    || (a.prefix.sitePrefix != "" && a.prefix.sitePrefix != cur.prefix.sitePrefix)
    || a.nameserver != cur.nameserver
    || a.nameserver1 != cur.nameserver1
  }

  /** The message carries no address and keeps none, so the interface itself is asked. */
  predicate AsksInterface(m: V6Message, cur: V6Lease, w: World) {
    !m.lease.addr.given && !KeepsAddress(m, cur) && w.globalAddr.Some?
  }

  predicate Connects(m: V6Message, cur: V6Lease, w: World) {
    (m.lease.addr.given && m.lease.addr.cmd == AddrAdd) || AddsPrefix(m) || AsksInterface(m, cur, w)
  }

  /** The lease built from the message and the previous lease; live is the record after a prefix removal. */
  function NewLease(m: V6Message, cur: V6Lease, live: V6Lease, w: World): V6Lease {
    var addr := MergedAddress(m, cur);
    var addr' := if AsksInterface(m, cur, w) && live.addr.address != w.globalAddrWithLen
                 then addr.(address := w.globalAddr.value) else addr;
    V6Lease(addr', MergedPrefix(m, cur), m.lease.nameserver, m.lease.nameserver1)
  }

  /** Stores the new lease and raises one of the two flags. */
  function StoreV6(a: V6Side, l: V6Lease): V6Side {
    var differs := Differs(l, a.lease);
    a.(st := IpUp, lease := l, changed := a.changed || differs, renewed := a.renewed || !differs)
  }

  predicate AddsPrefixLifetimes(m: V6Message) {
    HasPrefix(m) && m.lease.prefix.pltime != 0 && m.lease.prefix.vltime != 0
  }

  /** The MAP-T option of the message. */
  function HandleMapt(r: MapRecord, m: V6Message): MapRecord {
    match m.mapt
    case Some(p) => MapRecord(MaptUp, r.changed || p != r.params, p)
    case None => if AddsPrefixLifetimes(m) then MapRecord(MaptDown, false, "") else r
  }

  /** wanmgr_handle_dhcpv6_event_data */
  function HandleV6(a: V6Side, m: V6Message, w: World): (r: V6Side)
    ensures (r.conn ==> a.conn) && r.mail.None?
  {
    var freed := a.(mail := None);
    if m.isExpired then Lost6(freed)
    else
      var live := if RemovesPrefix(m, a.lease) then Lost6(freed) else freed;
      if Connects(m, a.lease, w) then StoreV6(live, NewLease(m, a.lease, live.lease, w)) else live
  }

  function MaptAfterV6(r: MapRecord, m: V6Message, cur: V6Lease): MapRecord {
    if m.isExpired then MaptStopped(r)
    else HandleMapt(if RemovesPrefix(m, cur) then MaptStopped(r) else r, m)
  }

  function DrainV4(s: Iface, w: World): Iface {
    match s.v4.mail
    case Some(m) => s.(v4 := HandleV4(s.v4, m, w), status := StatusAfterV4(s.status, m))
    case None => s
  }

  function DrainV6(s: Iface, w: World): Iface {
    match s.v6.mail
    case Some(m) => s.(v6 := HandleV6(s.v6, m, w), mapt := MaptAfterV6(s.mapt, m, s.v6.lease))
    case None => s
  }

  /** WanMgr_IfaceIpcMsg_handle */
  function Drain(s: Iface, w: World): (r: Iface)
    ensures Leaves(s.v4.mail, r.v4.mail) && Leaves(s.v6.mail, r.v6.mail)
  {
    DrainV6(DrainV4(s, w), w)
  }
}
