/**
 What every state handler keeps true of the interface record: its shape, whatever arrives; the Status of leased
 states; and that each address family a state needs is configured or waits to be.
 */
module InterfaceInvariant {
  import opened WanTypes
  import opened DhcpEvents
  import opened InterfaceSpec

  predicate Needs4(st: SmState) {
    st == Ipv4Leased || st == DualStackActive
  }

  predicate Needs6(st: SmState) {
    st == Ipv6Leased || st == DualStackActive || st == MaptActive
  }

  // ---- the shape of the record ----

  /** The only message a drained slot can still hold was not thrown out for its gateway. */
  predicate Stuck4(mail: Option<V4Message>) {
    mail.Some? ==> mail.value.lease.gateway != NO_GATEWAY
  }

  predicate MailFits(s: Iface) {
    Stuck4(s.v4.mail) && s.v6.mail.None?
  }

  predicate Known(s: Iface) {
    s.v4.st != IpUnknown && s.v6.st != IpUnknown
  }

  predicate Works(s: Iface) {
    Known(s) && s.running && s.status != Disabled
  }

  predicate Base(s: Iface) {
    Works(s) && MailFits(s)
  }

  /** The shape of the record after every tick. */
  predicate Fit(st: SmState, s: Iface) {
    if st == Exit then Known(s) && !s.running && s.status == Disabled && MailFits(s)
    else Base(s) && (st == Standby ==> s.status == OnStandby)
  }

  predicate FitMove(m: Move) {
    Fit(m.next, m.s)
  }

  /** The shape of the record before the mailboxes are drained. */
  predicate Ready(st: SmState, s: Iface) {
    if st == Exit then Fit(Exit, s) else Works(s) && (st == Standby ==> s.status == OnStandby)
  }

  // ---- Status and cover of the leased states ----

  predicate Upright(st: SmState, s: Iface) {
    Leased(st) ==> s.status == StatusUp
  }

  /** IPv4 is configured, or waits to be configured again, or is known to be down. */
  predicate Covered4(a: V4Side) {
    a.changed || (if a.st == IpUp then a.conn else a.lease.ip == "")
  }

  predicate Covered6(a: V6Side) {
    if a.st == IpUp then a.conn || a.changed else a.lease == ClearedV6(a.lease)
  }

  predicate Covered(st: SmState, s: Iface) {
    (Needs4(st) ==> Covered4(s.v4)) && (Needs6(st) ==> Covered6(s.v6))
  }

  /** The move ends in a fit record; it keeps Status UP and cover of the leased states where they held. */
  predicate Keeps(st: SmState, s: Iface, m: Move) {
    && FitMove(m)
    && (Upright(st, s) ==> Upright(m.next, m.s))
    && (Covered(st, s) ==> Covered(m.next, m.s))
  }

  predicate Serves(s: Iface) {
    !Torn(s.cfg) && s.cfg.sel == Active && !s.cfg.nwModeChanged
  }

  /** DUAL_STACK_ACTIVE serves both families: no layer below is lost, none of the two is down or unwanted. */
  predicate ServesBoth(s: Iface) {
    && Serves(s) && !VlanIsDown(s.cfg) && !PppIsNotUp(s.cfg)
    && s.v4.st == IpUp && !(s.cfg.refreshDhcp && !WantsV4(s.cfg))
    && (s.v4.changed || (s.v6.st == IpUp && !(s.cfg.refreshDhcp && !WantsV6(s.cfg))))
  }

  /** MAP-T takes over from native IPv4 in DUAL_STACK_ACTIVE. */
  predicate SwitchesToMapt(s: Iface, w: World) {
    ServesBoth(s) && !s.v4.changed && !s.v6.changed && AppliesMapt(s) && w.lanReady && w.verifyMaptOk
  }

  /** MAP-T takes over while IPv6 is up in name only: the nested loss of IPv4 then lowers Status. */
  predicate StatusSlips(st: SmState, s: Iface, w: World) {
    st == DualStackActive && SwitchesToMapt(s, w) && !s.v6.conn
  }

  // ---- what the transitions do to the record ----

  lemma MaptDropKeeps(s: Iface, w: World)
    requires Base(s)
    ensures Base(DropMapt(s, w))
  {
  }

  lemma V4DropKeeps(s: Iface, w: World)
    requires Base(s)
    ensures Base(DropV4(s, w))
  {
  }

  lemma V6DropKeeps(s: Iface, w: World)
    requires Base(s)
    ensures Base(DropV6(s, w))
  {
  }

  lemma ClientDropKeeps(s: Iface)
    requires Base(s)
    ensures Base(DropClients(s))
  {
  }

  lemma DroppedKeeps(s: Iface, w: World)
    requires Base(s)
    ensures Base(Dropped(s, w))
  {
    hide DropMapt; hide DropV4; hide DropV6; hide DropClients; hide Base;
    MaptDropKeeps(s, w);
    V4DropKeeps(DropMapt(s, w), w);
    V6DropKeeps(DropV4(DropMapt(s, w), w), w);
    ClientDropKeeps(DropV6(DropV4(DropMapt(s, w), w), w));
  }

  lemma PhysicalDownKeeps(s: Iface, w: World)
    requires Base(s)
    ensures FitMove(PhysicalInterfaceDown(s, w))
  {
    hide Dropped; hide DropLinks; hide Stuck4;
    DroppedKeeps(s, w);
  }

  /** Looking after the clients changes nothing that the invariants speak about. */
  lemma MonitorKeeps(s: Iface, w: World, st: SmState)
    requires Fit(st, s) && st != Exit
    ensures var r := MonitorDhcpApps(s, w);
            && Fit(st, r) && r.current == s.current
            && (Upright(st, r) <==> Upright(st, s)) && (Covered(st, r) <==> Covered(st, s))
  {
    hide Monitored4; hide Monitored6; hide MonitoredConfig; hide Stuck4;
  }

  /** The state and the Status after a loss of IPv4 follow the IPv6 side. */
  lemma Ipv4DownKeeps(s: Iface, w: World)
    requires Base(s)
    ensures var m := Ipv4Down(s, w);
            FitMove(m) && Covered(m.next, m.s) && (s.status == StatusUp ==> Upright(m.next, m.s))
  {
    hide Ipv4DownClient; hide Stuck4;
  }

  lemma Ipv6DownKeeps(s: Iface, w: World)
    requires Base(s)
    ensures var m := Ipv6Down(s, w);
            FitMove(m) && Covered(m.next, m.s) && (s.status == StatusUp ==> Upright(m.next, m.s))
  {
    hide Ipv6DownClient; hide Stuck4;
  }

  /** Taking up a family that is up leads to a leased state with both halves of the promise. */
  lemma UpsKeep(s: Iface)
    requires Base(s)
    ensures var m := Ipv4Up(s);
            FitMove(m) && Leased(m.next) && Upright(m.next, m.s) && (s.v4.st == IpUp ==> Covered(m.next, m.s))
    ensures var m := Ipv6Up(s);
            FitMove(m) && Leased(m.next) && Upright(m.next, m.s) && (s.v6.st == IpUp ==> Covered(m.next, m.s))
  {
    hide Stuck4;
  }

  lemma DualStackDownKeeps(s: Iface, w: World)
    requires Base(s)
    ensures FitMove(DualStackDown(s, w)) && DualStackDown(s, w).next == ObtainingIp
  {
    hide Ipv4DownClient; hide Ipv6DownClient; hide Stuck4;
  }

  lemma RefreshKeeps(s: Iface, w: World)
    requires Base(s)
    ensures FitMove(MaptFeatureRefresh(s, w))
  {
    hide Ipv6DownClient; hide Stuck4;
  }

  lemma FeatureRefreshKeeps(s: Iface, w: World)
    requires Base(s)
    ensures FitMove(MaptFeatureRefresh(s, w)) && FitMove(RefreshFeature(s, w))
    ensures RefreshFeature(s, w).next == ObtainingIp
  {
    RefreshKeeps(s, w);
    RefreshKeeps(s.(cfg := s.cfg.(maptFeatureChanged := false)), w);
    hide MaptFeatureRefresh;
  }

  lemma MaptDownKeeps(s: Iface, w: World)
    requires Base(s)
    ensures Keeps(MaptActive, s, MaptDownTransition(s, w)) && Base(MaptDownTransition(s, w).s)
  {
  }

  lemma StandbyKeeps(s: Iface)
    requires Base(s)
    ensures FitMove(StandbyTransition(s)) && StandbyTransition(s).next == Standby
    ensures FitMove(StandbyDeconfigIps(s)) && StandbyDeconfigIps(s).next == Standby
  {
  }

  lemma ValidatedKeeps(s: Iface, w: World)
    requires Base(s)
    ensures FitMove(WanValidated(s, w))
  {
  }

  lemma RefreshClientsKeeps(s: Iface, w: World)
    requires Base(s)
    ensures Fit(ObtainingIp, RefreshClients(s, w))
  {
  }

  lemma ReapplyV4Keeps(st: SmState, s: Iface, w: World)
    requires Fit(st, s) && st != Exit && s.v4.changed && s.v4.st == IpUp
    ensures Keeps(st, s, Move(st, ReapplyV4(s, w)))
  {
    hide Stuck4;
  }

  lemma ReapplyV6Keeps(st: SmState, s: Iface, w: World)
    requires Fit(st, s) && st != Exit && s.v6.changed
    ensures Keeps(st, s, Move(st, ReapplyV6(s, w)))
  {
    hide Stuck4;
  }

  lemma RenewKeeps(s: Iface, st: SmState)
    requires Fit(st, s) && st != Exit
    ensures Keeps(st, s, Move(st, RenewV4(s))) && Keeps(st, s, Move(st, RenewV6(s)))
  {
    hide Stuck4;
  }

  lemma TakesOverKeeps(s: Iface, w: World)
    requires Base(s) && (s.v4.st == IpUp ==> !s.v4.changed)
    ensures var r := MaptTakesOver(s, w);
            && Base(r) && r.v6 == s.v6
            && (s.v4.st == IpUp ==> Covered4(r.v4)) && (s.v4.st != IpUp ==> r.status == s.status)
            && (s.v4.st == IpUp && s.status == StatusUp && s.v6.st == IpUp ==> (r.status == StatusUp <==> s.v6.conn))
  {
    hide Ipv4DownClient; hide Stuck4;
  }

  /** Whether the set-up of MAP-T succeeds, fails at once or fails late; only Status depends on the IPv6 sysevent. */
  lemma MaptUpKeeps(s: Iface, w: World)
    requires Fit(s.current, s) && (s.current == Ipv6Leased || s.current == DualStackActive)
    requires s.v6.st == IpUp && !s.v6.changed && (s.current == Ipv6Leased <==> s.v4.st != IpUp)
    requires s.v4.st == IpUp ==> !s.v4.changed
    ensures var m := MaptUpTransition(s, w);
            && FitMove(m) && (Covered(s.current, s) ==> Covered(m.next, m.s))
            && (s.status == StatusUp ==>
                  (Upright(m.next, m.s) <==> !(s.v4.st == IpUp && w.verifyMaptOk && !s.v6.conn)))
  {
    TakesOverKeeps(s, w);
    hide MaptTakesOver; hide Stuck4;
  }

  lemma ActivateKeeps(s: Iface, w: World)
    requires Fit(Standby, s)
    ensures Keeps(Standby, s, Activate(s, w))
  {
    hide Ipv4Up; hide Ipv6Up; hide Covered4; hide Covered6; hide Kept;
    var s1 := if s.v6.st == IpUp && s.v6.changed then s.(v6 := s.v6.(changed := false)) else s;
    UpsKeep(s1);
    var m := if s1.v6.st == IpUp && w.lanReady then Ipv6Up(s1) else Move(Standby, s1);
    UpsKeep(m.s);
  }

  lemma TakeV6Keeps(s: Iface, w: World)
    requires Base(s) && s.v6.st == IpUp
    ensures Keeps(ObtainingIp, s, TakeV6(s, w))
  {
    hide Follows; hide Kept; hide RaisedByActive;
    hide Ipv6Up; hide StandbyTransition; hide Stuck4; hide Covered4; hide Covered6;
    if s.cfg.sel != Active {
      StandbyKeeps(s);
    } else if !s.v6.changed && w.lanReady {
      UpsKeep(s);
    }
  }

  lemma TakeAddressKeeps(s: Iface, w: World)
    requires Base(s)
    ensures Keeps(ObtainingIp, s, TakeAddress(s, w))
  {
    hide Follows; hide Kept; hide RaisedByActive;
    hide Ipv4Up; hide TakeV6; hide StandbyTransition; hide RefreshFeature; hide Works; hide MailFits;
    hide Covered4; hide Covered6; hide RefreshesMapt;
    if s.v4.st == IpUp {
      UpsKeep(s);
      StandbyKeeps(s);
    } else if s.v6.st == IpUp {
      TakeV6Keeps(s, w);
    } else {
      FeatureRefreshKeeps(s, w);
    }
  }

  // ---- the state handlers ----

  lemma VlanConfiguringKeeps(s: Iface, w: World)
    requires Base(s)
    ensures Keeps(VlanConfiguring, s, OnVlanConfiguring(s, w))
  {
    hide PhysicalInterfaceDown; hide Stuck4;
    if Blocked(s.cfg) {
      PhysicalDownKeeps(s, w);
    } else if VlanTimerExpired(s, w) {
      PhysicalDownKeeps(s.(vlan := s.vlan.(expired := true)), w);
    }
  }

  lemma PppConfiguringKeeps(s: Iface, w: World)
    requires Base(s)
    ensures Keeps(PppConfiguring, s, OnPppConfiguring(s, w))
  {
    hide PhysicalInterfaceDown; hide Stuck4;
    if Blocked(s.cfg) {
      PhysicalDownKeeps(s, w);
    } else if VlanTimerExpired(s, w) {
      PhysicalDownKeeps(s.(vlan := s.vlan.(expired := true)), w);
    }
  }

  lemma ValidatingKeeps(s: Iface, w: World)
    requires Base(s)
    ensures Keeps(ValidatingWan, s, OnValidatingWan(s, w))
  {
    hide PhysicalInterfaceDown; hide WanValidated; hide Stuck4;
    if Blocked(s.cfg) {
      PhysicalDownKeeps(s, w);
    } else if VlanTimerExpired(s, w) {
      PhysicalDownKeeps(s.(vlan := s.vlan.(expired := true)), w);
    } else {
      ValidatedKeeps(s, w);
    }
  }

  lemma ServeObtainingKeeps(s: Iface, w: World)
    requires Base(s)
    ensures Keeps(ObtainingIp, s, ServeObtaining(s, w))
  {
    hide Follows; hide Kept; hide RaisedByActive;
    hide TakeAddress; hide RefreshClients; hide MonitorDhcpApps; hide Stuck4;
    if s.cfg.refreshDhcp {
      RefreshClientsKeeps(s, w);
    } else {
      MonitorKeeps(s, w, ObtainingIp);
      TakeAddressKeeps(MonitorDhcpApps(s, w), w);
    }
  }

  lemma ObtainingKeeps(s: Iface, w: World)
    requires Base(s)
    ensures Keeps(ObtainingIp, s, OnObtainingIp(s, w))
  {
    hide Follows; hide Kept; hide RaisedByActive;
    hide PhysicalInterfaceDown; hide WanValidated; hide ServeObtaining; hide Stuck4;
    if Blocked(s.cfg) || s.cfg.vlanStatus == LinkConfiguring || s.cfg.pppLink == LinkConfiguring || s.cfg.reset {
      PhysicalDownKeeps(s, w);
    } else if VlanTimerExpired(s, w) || VlanIsDown(s.cfg) || (s.cfg.pppEnable && s.cfg.pppLink == LinkDown) {
      PhysicalDownKeeps(s.(vlan := s.vlan.(expired := true)), w);
    } else if InHeadStart(s) {
      ValidatedKeeps(s.(mode := s.mode.(timer := Expired)), w);
    } else {
      ServeObtainingKeeps(CompleteMode(s), w);
    }
  }

  lemma ServeStandbyKeeps(s: Iface, w: World)
    requires Fit(Standby, s)
    ensures Keeps(Standby, s, ServeStandby(s, w))
  {
    hide Follows; hide Kept; hide RaisedByActive;
    hide Activate; hide Stuck4;
    if s.cfg.sel == Active {
      ActivateKeeps(s, w);
    }
  }

  lemma StandbyStateKeeps(s: Iface, w: World)
    requires Fit(Standby, s)
    ensures Keeps(Standby, s, OnStandbyState(s, w))
  {
    hide Follows; hide Kept; hide RaisedByActive;
    hide PhysicalInterfaceDown; hide MonitorDhcpApps; hide ServeStandby; hide Works; hide MailFits;
    hide Covered4; hide Covered6;
    if Blocked(s.cfg) {
      PhysicalDownKeeps(s, w);
    } else {
      MonitorKeeps(s, w, Standby);
      ServeStandbyKeeps(MonitorDhcpApps(s, w), w);
    }
  }

  lemma NotedKeeps(s: Iface)
    requires Fit(Ipv4Leased, s)
    ensures Keeps(Ipv4Leased, s, Move(Ipv4Leased, s.(v6 := s.v6.(changed := false))))
  {
  }

  lemma ServeIpv4Keeps(s: Iface, w: World)
    requires Fit(Ipv4Leased, s) && s.v4.st == IpUp && s.cfg.sel == Active
    ensures Keeps(Ipv4Leased, s, ServeIpv4(s, w))
  {
    hide Follows; hide Kept; hide RaisedByActive;
    hide RefreshFeature; hide ReapplyV4; hide Ipv6Up; hide RenewV4; hide Works; hide MailFits;
    hide Covered4; hide Covered6; hide RefreshesMapt;
    if s.v4.changed {
      ReapplyV4Keeps(Ipv4Leased, s, w);
    } else if s.v6.st == IpUp {
      UpsKeep(s);
      NotedKeeps(s);
    } else {
      FeatureRefreshKeeps(s, w);
      RenewKeeps(s, Ipv4Leased);
    }
  }

  lemma Ipv4TickKeeps(s: Iface, w: World)
    requires Fit(Ipv4Leased, s)
    ensures Keeps(Ipv4Leased, s, Ipv4LeasedTick(s, w))
  {
    hide Follows; hide Kept; hide RaisedByActive;
    hide PhysicalInterfaceDown; hide Ipv4Down; hide ServeIpv4; hide StandbyDeconfigIps; hide MailFits;
    hide Covered4; hide Covered6; hide Torn; hide WantsV4; hide WantsV6;
    if Torn(s.cfg) {
      PhysicalDownKeeps(s, w);
    } else if s.v4.st == IpDown || VlanIsDown(s.cfg) || PppIsNotUp(s.cfg) || (s.cfg.refreshDhcp && !WantsV4(s.cfg)) {
      Ipv4DownKeeps(s, w);
    } else if s.cfg.sel != Active || s.cfg.nwModeChanged {
      StandbyKeeps(s);
    } else {
      ServeIpv4Keeps(s, w);
    }
  }

  lemma Ipv4LeasedKeeps(s: Iface, w: World)
    requires Fit(Ipv4Leased, s)
    ensures Keeps(Ipv4Leased, s, OnIpv4Leased(s, w))
  {
    hide MonitorDhcpApps; hide Ipv4LeasedTick; hide Stuck4;
    var s1 := AddV6Client(s, w);
    MonitorKeeps(s1, w, Ipv4Leased);
    Ipv4TickKeeps(MonitorDhcpApps(s1, w), w);
  }

  lemma ServeIpv6Keeps(s: Iface, w: World)
    requires Fit(Ipv6Leased, s) && s.current == Ipv6Leased && s.v6.st == IpUp && s.cfg.sel == Active
    ensures Keeps(Ipv6Leased, s, ServeIpv6(s, w))
  {
    hide Follows; hide Kept; hide RaisedByActive;
    hide RefreshFeature; hide MaptUpTransition; hide ReapplyV6; hide Ipv4Up; hide RenewV6; hide Works; hide MailFits;
    hide Covered4; hide Covered6; hide RefreshesMapt; hide AppliesMapt;
    if s.v6.changed {
      ReapplyV6Keeps(Ipv6Leased, s, w);
    } else if s.v4.st == IpUp {
      UpsKeep(s);
    } else if AppliesMapt(s) {
      MaptUpKeeps(s, w);
    } else {
      FeatureRefreshKeeps(s, w);
      RenewKeeps(s, Ipv6Leased);
    }
  }

  lemma Ipv6TickKeeps(s: Iface, w: World)
    requires Fit(Ipv6Leased, s) && s.current == Ipv6Leased
    ensures Keeps(Ipv6Leased, s, Ipv6LeasedTick(s, w))
  {
    hide Follows; hide Kept; hide RaisedByActive;
    hide PhysicalInterfaceDown; hide Ipv6Down; hide ServeIpv6; hide StandbyDeconfigIps; hide MailFits;
    hide Covered4; hide Covered6; hide Torn; hide WantsV4; hide WantsV6;
    if Torn(s.cfg) {
      PhysicalDownKeeps(s, w);
    } else if s.v6.st == IpDown || VlanIsDown(s.cfg) || PppIsNotUp(s.cfg) || (s.cfg.refreshDhcp && !WantsV6(s.cfg)) {
      Ipv6DownKeeps(s, w);
    } else if s.cfg.sel != Active || s.cfg.nwModeChanged {
      StandbyKeeps(s);
    } else {
      ServeIpv6Keeps(s, w);
    }
  }

  lemma Ipv6LeasedKeeps(s: Iface, w: World)
    requires Fit(Ipv6Leased, s) && s.current == Ipv6Leased
    ensures Keeps(Ipv6Leased, s, OnIpv6Leased(s, w))
  {
    hide MonitorDhcpApps; hide Ipv6LeasedTick; hide Stuck4;
    var s1 := AddV4Client(s, w);
    MonitorKeeps(s1, w, Ipv6Leased);
    Ipv6TickKeeps(MonitorDhcpApps(s1, w), w);
  }

  lemma KeepDualStackKeeps(s: Iface, w: World)
    requires Fit(DualStackActive, s) && s.v4.st == IpUp
    ensures Keeps(DualStackActive, s, Move(DualStackActive, KeepDualStack(s, w)))
  {
    hide ReapplyV4; hide ReapplyV6; hide Stuck4; hide RenewV4; hide RenewV6;
    if s.v4.changed {
      ReapplyV4Keeps(DualStackActive, s, w);
    } else if s.v6.changed {
      ReapplyV6Keeps(DualStackActive, s, w);
    } else {
      RenewKeeps(s, DualStackActive);
    }
  }

  lemma ServeDualStackKeeps(s: Iface, w: World)
    requires Fit(DualStackActive, s) && s.current == DualStackActive && ServesBoth(s)
    ensures var m := ServeDualStack(s, w);
            && FitMove(m) && (Covered(DualStackActive, s) ==> Covered(m.next, m.s))
            && (s.status == StatusUp ==> (Upright(m.next, m.s) <==> !(SwitchesToMapt(s, w) && !s.v6.conn)))
  {
    hide Follows; hide Kept; hide RaisedByActive;
    hide RefreshFeature; hide MaptUpTransition; hide MonitorDhcpApps; hide KeepDualStack; hide Works; hide MailFits;
    hide Covered4; hide Covered6; hide RefreshesMapt; hide AppliesMapt; hide Torn; hide WantsV4; hide WantsV6;
    if !s.v4.changed && !s.v6.changed && AppliesMapt(s) && w.lanReady {
      MaptUpKeeps(s, w);
    } else if !s.v4.changed && !s.v6.changed && RefreshesMapt(s) && w.maptFeature {
      FeatureRefreshKeeps(s, w);
    } else {
      KeepDualStackKeeps(s, w);
      MonitorKeeps(KeepDualStack(s, w), w, DualStackActive);
    }
  }

  lemma DualStackKeeps(s: Iface, w: World)
    requires Fit(DualStackActive, s) && s.current == DualStackActive
    ensures var m := OnDualStackActive(s, w);
            && FitMove(m) && (Covered(DualStackActive, s) ==> Covered(m.next, m.s))
            && (s.status == StatusUp ==> (Upright(m.next, m.s) <==> !StatusSlips(DualStackActive, s, w)))
  {
    hide Follows; hide Kept; hide RaisedByActive;
    hide PhysicalInterfaceDown; hide Ipv4Down; hide Ipv6Down; hide DualStackDown; hide StandbyDeconfigIps;
    hide ServeDualStack; hide MailFits; hide Covered4; hide Covered6; hide Torn; hide WantsV4; hide WantsV6;
    if Torn(s.cfg) {
      PhysicalDownKeeps(s, w);
    } else if VlanIsDown(s.cfg) || PppIsNotUp(s.cfg) {
      DualStackDownKeeps(s, w);
    } else if s.v4.st == IpDown || (s.cfg.refreshDhcp && !WantsV4(s.cfg)) {
      Ipv4DownKeeps(s, w);
    } else if s.cfg.sel != Active || s.cfg.nwModeChanged {
      StandbyKeeps(s);
    } else if !s.v4.changed && (s.v6.st == IpDown || (s.cfg.refreshDhcp && !WantsV6(s.cfg))) {
      Ipv6DownKeeps(s, w);
    } else {
      ServeDualStackKeeps(s, w);
    }
  }

  lemma KeepMaptKeeps(s: Iface, w: World)
    requires Fit(MaptActive, s)
    ensures Keeps(MaptActive, s, Move(MaptActive, KeepMapt(s, w)))
  {
    hide ReapplyV6; hide Stuck4;
    if s.v6.changed {
      ReapplyV6Keeps(MaptActive, s, w);
    }
  }

  lemma ServeMaptKeeps(s: Iface, w: World)
    requires Fit(MaptActive, s) && s.cfg.sel == Active
    ensures Keeps(MaptActive, s, ServeMapt(s, w))
  {
    hide Follows; hide Kept; hide RaisedByActive;
    hide MaptFeatureRefresh; hide MaptDownTransition; hide MonitorDhcpApps; hide KeepMapt;
    hide Covered4; hide Covered6;
    if s.cfg.maptFeatureChanged && !w.maptFeature {
      var s1 := s.(cfg := s.cfg.(maptFeatureChanged := false));
      MaptDownKeeps(s1, w);
      FeatureRefreshKeeps(MaptDownTransition(s1, w).s, w);
    } else {
      KeepMaptKeeps(s, w);
      MonitorKeeps(KeepMapt(s, w), w, MaptActive);
    }
  }

  lemma MaptActiveKeeps(s: Iface, w: World)
    requires Fit(MaptActive, s)
    ensures Keeps(MaptActive, s, OnMaptActive(s, w))
  {
    hide Follows; hide Kept; hide RaisedByActive;
    hide PhysicalInterfaceDown; hide MaptDownTransition; hide StandbyDeconfigIps; hide ServeMapt;
    hide Works; hide MailFits;
    hide Covered4; hide Covered6; hide LeavesMapt; hide Torn;
    if Torn(s.cfg) {
      PhysicalDownKeeps(s, w);
    } else if s.cfg.sel != Active || s.cfg.nwModeChanged {
      StandbyKeeps(s);
    } else {
      MaptDownKeeps(s, w);
      ServeMaptKeeps(s, w);
    }
  }

  lemma RefreshedKeeps(s: Iface, w: World)
    requires Base(s) && RefreshFinds(s)
    ensures FitMove(WanRefreshed(s, w))
  {
    hide NextVlan;
  }

  lemma RefreshingKeeps(s: Iface, w: World)
    requires Base(s) && Finds(RefreshingWan, s)
    ensures Keeps(RefreshingWan, s, OnRefreshingWan(s, w))
  {
    hide PhysicalInterfaceDown; hide WanRefreshed; hide Stuck4;
    if Blocked(s.cfg) {
      PhysicalDownKeeps(s.(cfg := s.cfg.(reset := false, vlanReset := false), vlan := s.vlan.(expired := false)), w);
    } else if !LinksBusy(s.cfg) {
      RefreshedKeeps(s, w);
    }
  }

  // ---- draining the mailboxes ----

  /** IPv4 is down, and the message assigns exactly the lease that the record still holds: it counts as a renewal. */
  predicate Lapses4(a: V4Side, m: V4Message, w: World) {
    && m.lease.gateway != NO_GATEWAY && m.addressAssigned && m.lease == a.lease && w.broadcastOk
    && a.st != IpUp && !a.changed && !a.conn
  }

  /** Neither the message nor the interface itself names the address that is about to be stored. */
  predicate Nameless(m: V6Message, cur: V6Lease, w: World) {
    if m.lease.addr.given then m.lease.addr.cmd == AddrAdd && m.lease.addr.address == ""
    else
      && AsksInterface(m, cur, w)
      && (if w.globalAddrWithLen == "" then m.lease.addr.address == "" else w.globalAddr.value == "")
  }

  /** IPv6 is down, and the message brings it up with nothing in which it differs from a cleared lease. */
  predicate Lapses6(a: V6Side, m: V6Message, w: World) {
    && !m.isExpired && a.st != IpUp && !a.changed && !a.conn
    && Nameless(m, a.lease, w)
    && MergedPrefix(m, a.lease).sitePrefix == "" && MergedPrefix(m, a.lease).pdIfAddress == ""
    && m.lease.nameserver == "" && m.lease.nameserver1 == ""
  }

  /** An IPv4 event keeps IPv4 covered exactly when it does not lapse. */
  lemma HandleV4Covers(a: V4Side, m: V4Message, w: World)
    requires Covered4(a)
    ensures Covered4(HandleV4(a, m, w)) <==> !Lapses4(a, m, w)
  {
  }

  /** A lease that is stored over a cleared one counts as changed exactly when it names something. */
  lemma StoredLeaseDiffers(m: V6Message, cur: V6Lease, live: V6Lease, w: World)
    requires Connects(m, cur, w) && live == ClearedV6(live) && live == ClearedV6(cur)
    requires RemovesPrefix(m, cur) || cur == live
    ensures Differs(NewLease(m, cur, live, w), live) <==>
            !(&& Nameless(m, cur, w) && MergedPrefix(m, cur).sitePrefix == ""
              && MergedPrefix(m, cur).pdIfAddress == "" && m.lease.nameserver == "" && m.lease.nameserver1 == "")
  {
  }

  /** The handler takes even a nameless address for a connection. */
  lemma NamelessConnects(m: V6Message, cur: V6Lease, w: World)
    requires Nameless(m, cur, w)
    ensures Connects(m, cur, w)
  {
  }

  /** An IPv6 event keeps IPv6 covered exactly when it does not lapse. */
  lemma HandleV6Covers(a: V6Side, m: V6Message, w: World)
    requires Covered6(a)
    ensures Covered6(HandleV6(a, m, w)) <==> !Lapses6(a, m, w)
  {
    hide NewLease; hide Connects; hide Differs; hide Nameless;
    if Nameless(m, a.lease, w) {
      NamelessConnects(m, a.lease, w);
    }
    if !m.isExpired && Connects(m, a.lease, w) && (RemovesPrefix(m, a.lease) || a.st != IpUp) {
      StoredLeaseDiffers(m, a.lease, ClearedV6(a.lease), w);
    }
  }

  lemma HandleV4Fits(a: V4Side, m: V4Message, w: World)
    requires a.st != IpUnknown && a.mail == Some(m)
    ensures HandleV4(a, m, w).st != IpUnknown && Stuck4(HandleV4(a, m, w).mail)
  {
  }

  /** Draining both mailboxes keeps the shape and the Status, whatever the messages say. */
  lemma DrainKeeps(st: SmState, s: Iface, w: World)
    requires Ready(st, s)
    ensures Fit(st, Drain(s, w)) && (Upright(st, s) ==> Upright(st, Drain(s, w)))
  {
    hide HandleV4; hide HandleV6;
    if s.v4.mail.Some? {
      HandleV4Fits(s.v4, s.v4.mail.value, w);
    }
    if s.v6.mail.Some? {
      HandleV6Known(s.v6, s.v6.mail.value, w);
    }
  }

  lemma HandleV6Known(a: V6Side, m: V6Message, w: World)
    requires a.st != IpUnknown
    ensures HandleV6(a, m, w).st != IpUnknown
  {
  }

  /** A waiting message lets a family lapse that the state needs. */
  predicate MailLapses(st: SmState, s: Iface, w: World) {
    || (Needs4(st) && s.v4.mail.Some? && Lapses4(s.v4, s.v4.mail.value, w))
    || (Needs6(st) && s.v6.mail.Some? && Lapses6(s.v6, s.v6.mail.value, w))
  }

  lemma DrainCovers(st: SmState, s: Iface, w: World)
    requires Covered(st, s)
    ensures Covered(st, Drain(s, w)) <==> !MailLapses(st, s, w)
  {
    hide HandleV4; hide HandleV6; hide Covered4; hide Covered6; hide Lapses4; hide Lapses6;
    if Needs4(st) && s.v4.mail.Some? {
      HandleV4Covers(s.v4, s.v4.mail.value, w);
    }
    if Needs6(st) && s.v6.mail.Some? {
      HandleV6Covers(s.v6, s.v6.mail.value, w);
    }
  }

  // ---- one tick ----

  /**
   Through all nested transitions every handler keeps the shape and the cover; it keeps Status UP exactly when MAP-T
   does not take over from a connection whose IPv6 half is low.
   */
  lemma HandlerKeeps(st: SmState, s: Iface, w: World)
    requires Fit(st, s) && s.current == st && Finds(st, s)
    ensures var m := Handle(st, s, w);
            && FitMove(m) && (Covered(st, s) ==> Covered(m.next, m.s))
            && (Upright(st, s) ==> (Upright(m.next, m.s) <==> !StatusSlips(st, s, w)))
  {
    hide Follows; hide Kept; hide RaisedByActive;
    hide OnObtainingIp; hide OnStandbyState; hide OnIpv4Leased; hide OnIpv6Leased; hide OnDualStackActive;
    hide OnMaptActive; hide OnVlanConfiguring; hide OnPppConfiguring; hide OnValidatingWan; hide OnRefreshingWan;
    hide SwitchesToMapt; hide Covered4; hide Covered6;
    match st
    case VlanConfiguring => VlanConfiguringKeeps(s, w);
    case PppConfiguring => PppConfiguringKeeps(s, w);
    case ValidatingWan => ValidatingKeeps(s, w);
    case ObtainingIp => ObtainingKeeps(s, w);
    case Ipv4Leased => Ipv4LeasedKeeps(s, w);
    case Ipv6Leased => Ipv6LeasedKeeps(s, w);
    case DualStackActive => DualStackKeeps(s, w);
    case MaptActive => MaptActiveKeeps(s, w);
    case RefreshingWan => RefreshingKeeps(s, w);
    case DeconfiguringWan =>
    case Standby => StandbyStateKeeps(s, w);
    case Exit =>
  }

  /** With IPv6 covered the Status cannot slip. */
  lemma CoverKeepsStatus(st: SmState, s: Iface, w: World)
    requires Covered(st, s)
    ensures !StatusSlips(st, s, w)
  {
  }
}
