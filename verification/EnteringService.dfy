/** When a leased state is entered, for every state exactly, and that an interface which is served gets there. */
module EnteringService {
  import opened WanTypes
  import opened DhcpEvents
  import opened InterfaceSpec
  import opened InterfaceInvariant
  import opened InterfaceRuns
  import opened InterfaceTable
  import opened VlanFairness

  /** Which uptake or loss a round takes is decided by the table; the rest of the record does not matter. */
  lemma NextIsTabled(st: SmState, s: Iface, w: World)
    requires Known(s) && s.current == st && Finds(st, s)
    ensures var t := Readied(st, s, w); Handle(st, s, w).next == NextAfter(CourseIn(st, t, w), st, t)
  {
    HandlerIsTabled(st, s, w);
    hide Handle; hide Readied; hide CourseIn; hide NextAfter; hide RecordAfter; hide Watched; hide Kept; hide Follows;
    hide RaisedByActive;
  }

  /** Nothing but the selection stops or delays the uptake in OBTAINING. */
  predicate Undisturbed(s: Iface, w: World) {
    && s.cfg.wanEnable && s.cfg.selEnable && s.cfg.enable && s.cfg.phy == PhyUp && !s.cfg.reset
    && s.cfg.vlanStatus != LinkConfiguring && s.cfg.pppLink != LinkConfiguring
    && !(s.cfg.vlanEnable && s.cfg.vlanStatus == LinkDown) && !(s.cfg.pppEnable && s.cfg.pppLink == LinkDown)
    && !(|s.vlans| > 1 && (s.cfg.vlanReset || w.now - s.vlan.timerStart > s.cfg.vlanTimeout))
    && !(s.mode.selected == MaptMode && s.mode.timer == Running && s.mapt.status == MaptDown)
    && !s.cfg.refreshDhcp
  }

  predicate MayTake(s: Iface, w: World) {
    s.cfg.sel == Active && Undisturbed(s, w)
  }

  /** Looking after the clients changes client states and the two flags it clears, and the check. */
  lemma WatchedFrame(s: Iface, w: World)
    ensures var t := Watched(s, w);
            && t.v4 == s.v4.(client := t.v4.client, pid := t.v4.pid)
            && t.v6 == s.v6.(client := t.v6.client, pid := t.v6.pid)
            && t.cfg == s.cfg.(refreshDhcp := t.cfg.refreshDhcp, checkTypeChanged := t.cfg.checkTypeChanged)
            && (!s.cfg.refreshDhcp ==> !t.cfg.refreshDhcp)
            && t == s.(cfg := t.cfg, v4 := t.v4, v6 := t.v6, checkRunning := t.checkRunning)
  {
    hide Watched4; hide Watched6; hide WatchedConfig;
  }

  /** Two records that no uptake in OBTAINING tells apart. */
  predicate SameUptake(s: Iface, t: Iface) {
    && t.v4.st == s.v4.st && t.v4.conn == s.v4.conn && t.v6.st == s.v6.st && t.v6.conn == s.v6.conn
    && t.v6.changed == s.v6.changed && t.mapt == s.mapt && t.vlan == s.vlan && t.vlans == s.vlans
    && t.cfg == s.cfg.(refreshDhcp := s.cfg.refreshDhcp, checkTypeChanged := t.cfg.checkTypeChanged)
    && t.mode.selected == s.mode.selected && (t.mode == s.mode || s.mapt.status == MaptUp)
  }

  lemma WatchedSameUptake(s: Iface, w: World)
    requires !s.cfg.refreshDhcp
    ensures SameUptake(s, Watched(s, w))
  {
    hide Watched;
    WatchedFrame(s, w);
  }

  lemma CompletedSameUptake(s: Iface, t: Iface)
    requires SameUptake(s.(mode := s.mode.(timer := Complete)), t) && s.mapt.status == MaptUp
    ensures SameUptake(s, t)
  {
  }

  /** The record from which OBTAINING decides differs from the drained one only where no uptake looks. */
  lemma ReadiedInObtaining(s: Iface, w: World)
    ensures SameUptake(s, Readied(ObtainingIp, s, w))
  {
    hide Watched; hide ServesObtaining; hide SameUptake;
    var completes := s.mode.selected == MaptMode && s.mapt.status == MaptUp;
    var u := if completes then s.(mode := s.mode.(timer := Complete)) else s;
    SameAsItself(s);
    SameAsItself(u);
    if !s.cfg.refreshDhcp {
      WatchedSameUptake(u, w);
    }
    if completes {
      CompletedSameUptake(s, u);
      if !s.cfg.refreshDhcp {
        CompletedSameUptake(s, Watched(u, w));
      }
    }
  }

  lemma SameAsItself(s: Iface)
    ensures SameUptake(s, s)
  {
  }

  /** What decides the uptake is the same before and after the record was readied. */
  lemma SameUndisturbed(s: Iface, t: Iface, w: World)
    requires SameUptake(s, t)
    ensures Undisturbed(t, w) == Undisturbed(s, w) && MayTake(t, w) == MayTake(s, w)
  {
  }

  lemma ObtainingTakes(t: Iface, w: World)
    requires Known(t)
    ensures var k := InObtaining(t, w);
            && (k == TakeIpv4 <==> MayTake(t, w) && t.v4.st == IpUp)
            && (k == TakeIpv6 <==> MayTake(t, w) && t.v4.st == IpDown && t.v6.st == IpUp && !t.v6.changed && w.lanReady)
            && k != TakeBoth && k != MaptOn && k != MaptOff && k != Idle && k != LoseIpv4 && k != LoseIpv6
  {
  }

  lemma ObtainingPutsBy(t: Iface, w: World)
    ensures InObtaining(t, w) == PutBy <==>
            && Undisturbed(t, w) && t.cfg.sel != Active && t.cfg.sel != NotSelected
            && (t.v4.st == IpUp || t.v6.st == IpUp)
  {
  }

  lemma ObtainingCourse(s: Iface, w: World)
    requires Known(s)
    ensures var k := InObtaining(Readied(ObtainingIp, s, w), w);
            && (k == TakeIpv4 <==> MayTake(s, w) && s.v4.st == IpUp)
            && (k == TakeIpv6 <==> MayTake(s, w) && s.v4.st == IpDown && s.v6.st == IpUp && !s.v6.changed && w.lanReady)
            && (k == PutBy <==>
                  && Undisturbed(s, w) && s.cfg.sel != Active && s.cfg.sel != NotSelected
                  && (s.v4.st == IpUp || s.v6.st == IpUp))
            && k != TakeBoth && k != MaptOn && k != MaptOff && k != Idle && k != LoseIpv4 && k != LoseIpv6
  {
    hide Readied; hide InObtaining; hide MayTake; hide Undisturbed;
    ReadiedInObtaining(s, w);
    SameUndisturbed(s, Readied(ObtainingIp, s, w), w);
    ObtainingTakes(Readied(ObtainingIp, s, w), w);
    ObtainingPutsBy(Readied(ObtainingIp, s, w), w);
  }

  lemma ObtainingNext(k: Course, t: Iface)
    requires Known(t) && k != TakeBoth && k != MaptOn && k != MaptOff && k != Idle && k != LoseIpv4 && k != LoseIpv6
    ensures var next := NextAfter(k, ObtainingIp, t);
            && (next == Ipv4Leased <==> k == TakeIpv4 && !(t.v6.st == IpUp && t.v6.conn))
            && (next == DualStackActive <==>
                  (k == TakeIpv4 && t.v6.st == IpUp && t.v6.conn) || (k == TakeIpv6 && t.v4.st == IpUp && t.v4.conn))
            && (next == Ipv6Leased <==> k == TakeIpv6 && !(t.v4.st == IpUp && t.v4.conn))
            && (next == Standby <==> k == PutBy) && next != MaptActive
  {
  }

  lemma ObtainingDecides(s: Iface, w: World)
    requires Known(s)
    ensures var t := Readied(ObtainingIp, s, w);
            var next := NextAfter(InObtaining(t, w), ObtainingIp, t);
            && (next == Ipv4Leased <==> MayTake(s, w) && s.v4.st == IpUp && !(s.v6.st == IpUp && s.v6.conn))
            && (next == DualStackActive <==> MayTake(s, w) && s.v4.st == IpUp && s.v6.st == IpUp && s.v6.conn)
            && (next == Ipv6Leased <==>
                  MayTake(s, w) && s.v4.st == IpDown && s.v6.st == IpUp && !s.v6.changed && w.lanReady)
            && next != MaptActive
            && (next == Standby <==>
                  && Undisturbed(s, w) && s.cfg.sel != Active && s.cfg.sel != NotSelected
                  && (s.v4.st == IpUp || s.v6.st == IpUp))
  {
    hide Readied; hide InObtaining; hide MayTake; hide Undisturbed; hide NextAfter;
    ObtainingCourse(s, w);
    ReadiedInObtaining(s, w);
    ObtainingNext(InObtaining(Readied(ObtainingIp, s, w), w), Readied(ObtainingIp, s, w));
  }

  /** OBTAINING takes up IPv4 first, and IPv6 once its change was noted and the LAN is ready. */
  lemma ObtainingEnters(s: Iface, w: World)
    requires Known(s) && s.current == ObtainingIp
    ensures var next := Handle(ObtainingIp, s, w).next;
            && (next == Ipv4Leased <==> MayTake(s, w) && s.v4.st == IpUp && !(s.v6.st == IpUp && s.v6.conn))
            && (next == DualStackActive <==> MayTake(s, w) && s.v4.st == IpUp && s.v6.st == IpUp && s.v6.conn)
            && (next == Ipv6Leased <==>
                  MayTake(s, w) && s.v4.st == IpDown && s.v6.st == IpUp && !s.v6.changed && w.lanReady)
            && next != MaptActive
            && (next == Standby <==>
                  && Undisturbed(s, w) && s.cfg.sel != Active && s.cfg.sel != NotSelected
                  && (s.v4.st == IpUp || s.v6.st == IpUp))
  {
    hide Handle; hide Readied; hide Kept; hide Follows; hide RaisedByActive; hide NextAfter; hide InObtaining;
    hide MayTake; hide Undisturbed;
    NextIsTabled(ObtainingIp, s, w);
    ObtainingDecides(s, w);
  }

  /** A mode change is still being applied when the handler decides. */
  predicate ModeIsPending(st: SmState, s: Iface, w: World) {
    Readied(st, s, w).cfg.refreshDhcp
  }

  predicate LinksUp(c: Config) {
    !(c.vlanEnable && c.vlanStatus == LinkDown) && (c.pppEnable ==> c.pppLink == LinkUp)
  }

  predicate Wanted(c: Config) {
    c.wanEnable && c.selEnable && c.enable && c.sel != NotSelected && c.phy == PhyUp
  }

  /** Nothing gives the leased state up before it serves. */
  predicate MayServe(c: Config) {
    Wanted(c) && !c.reset && !c.vlanReset && c.sel == Active && !c.nwModeChanged && LinksUp(c)
  }

  lemma StandbyDecides(t: Iface, w: World)
    requires t.v4.st != IpUnknown && t.v6.st != IpUnknown
    ensures var next := NextAfter(InStandby(t, w), Standby, t);
            var may := Wanted(t.cfg) && t.cfg.sel == Active && LinksUp(t.cfg) && !t.cfg.refreshDhcp;
            var six := t.v6.st == IpUp && (t.v6.conn || w.lanReady);
            && (next == Ipv4Leased <==> may && t.v4.st == IpUp && !six)
            && (next == DualStackActive <==> may && t.v4.st == IpUp && six)
            && (next == Ipv6Leased <==> may && t.v4.st == IpDown && t.v6.st == IpUp && w.lanReady)
            && next != MaptActive
  {
  }

  /** STANDBY takes up both families in one round, IPv6 only when the LAN is ready. */
  lemma StandbyEnters(s: Iface, w: World)
    requires Known(s) && s.current == Standby
    ensures var next := Handle(Standby, s, w).next;
            var may := Wanted(s.cfg) && s.cfg.sel == Active && LinksUp(s.cfg) && !ModeIsPending(Standby, s, w);
            var six := s.v6.st == IpUp && (s.v6.conn || w.lanReady);
            && (next == Ipv4Leased <==> may && s.v4.st == IpUp && !six)
            && (next == DualStackActive <==> may && s.v4.st == IpUp && six)
            && (next == Ipv6Leased <==> may && s.v4.st == IpDown && s.v6.st == IpUp && w.lanReady)
            && next != MaptActive
  {
    hide Handle; hide Readied; hide Kept; hide Follows; hide RaisedByActive; hide NextAfter; hide InStandby;
    NextIsTabled(Standby, s, w);
    StandbyReadied(s, w);
    StandbyDecides(Readied(Standby, s, w), w);
  }

  lemma StandbyReadied(s: Iface, w: World)
    ensures var t := Readied(Standby, s, w);
            && t.v4.st == s.v4.st && t.v6.st == s.v6.st && t.v4.conn == s.v4.conn && t.v6.conn == s.v6.conn
            && t.cfg == s.cfg.(refreshDhcp := t.cfg.refreshDhcp, checkTypeChanged := t.cfg.checkTypeChanged)
  {
    hide Watched4; hide Watched6; hide WatchedConfig;
  }

  lemma Ipv4Readied(s: Iface, w: World)
    ensures var t := Readied(Ipv4Leased, s, w);
            && t.v4 == s.v4.(client := t.v4.client, pid := t.v4.pid)
            && t.v6 == s.v6.(client := t.v6.client, pid := t.v6.pid)
            && t.cfg == s.cfg.(refreshDhcp := t.cfg.refreshDhcp, checkTypeChanged := t.cfg.checkTypeChanged)
            && t.mapt == s.mapt
  {
    hide Watched; hide On6;
    var widens := Widens(s.cfg) && s.cfg.v6Source == DhcpSource && s.v6.client != Started;
    var u := if widens then s.(v6 := On6(s.v6, w.pid6.modeRefresh)) else s;
    assert Readied(Ipv4Leased, s, w) == Watched(u, w);
    hide Readied;
    WatchedFrame(u, w);
  }

  lemma Ipv6Readied(s: Iface, w: World)
    ensures var t := Readied(Ipv6Leased, s, w);
            && t.v4 == s.v4.(client := t.v4.client, pid := t.v4.pid)
            && t.v6 == s.v6.(client := t.v6.client, pid := t.v6.pid)
            && t.cfg == s.cfg.(refreshDhcp := t.cfg.refreshDhcp, checkTypeChanged := t.cfg.checkTypeChanged)
            && t.mapt == s.mapt
  {
    hide Watched; hide On4;
    var widens := Widens(s.cfg) && s.cfg.v4Source == DhcpSource && s.v4.client != Started && s.mode.timer != Complete;
    var u := if widens then s.(v4 := On4(s.v4, w.pid4.modeRefresh)) else s;
    assert Readied(Ipv6Leased, s, w) == Watched(u, w);
    hide Readied;
    WatchedFrame(u, w);
  }

  lemma Ipv4Decides(t: Iface, w: World)
    requires t.v4.st != IpUnknown && t.v6.st != IpUnknown
    ensures var next := NextAfter(InIpv4Leased(t, w), Ipv4Leased, t);
            var unasked := t.cfg.refreshDhcp &&
                           (t.cfg.v4Source != DhcpSource || t.cfg.mode == Ipv6Only || t.cfg.mode == NoIp);
            var may := MayServe(t.cfg) && t.v4.st == IpUp && !unasked && !t.v4.changed;
            var gains := may && t.v6.st == IpUp && !t.v6.changed && w.lanReady;
            var lost := Wanted(t.cfg) && !t.cfg.reset && !t.cfg.vlanReset &&
                        (t.v4.st == IpDown || unasked || !LinksUp(t.cfg));
            && (next == DualStackActive <==> gains && t.v4.conn)
            && (next == Ipv6Leased <==> (gains && !t.v4.conn) || (lost && t.v6.st == IpUp && t.v6.conn))
            && next != MaptActive
  {
  }

  /** IPV4_LEASED gains IPv6 once its change was noted; it hands over to IPv6 when IPv4 is lost or low. */
  lemma Ipv4LeasedMoves(s: Iface, w: World)
    requires Known(s) && s.current == Ipv4Leased
    ensures var next := Handle(Ipv4Leased, s, w).next;
            var unasked := ModeIsPending(Ipv4Leased, s, w) &&
                           (s.cfg.v4Source != DhcpSource || s.cfg.mode == Ipv6Only || s.cfg.mode == NoIp);
            var may := MayServe(s.cfg) && s.v4.st == IpUp && !unasked && !s.v4.changed;
            var gains := may && s.v6.st == IpUp && !s.v6.changed && w.lanReady;
            var lost := Wanted(s.cfg) && !s.cfg.reset && !s.cfg.vlanReset &&
                        (s.v4.st == IpDown || unasked || !LinksUp(s.cfg));
            && (next == DualStackActive <==> gains && s.v4.conn)
            && (next == Ipv6Leased <==> (gains && !s.v4.conn) || (lost && s.v6.st == IpUp && s.v6.conn))
            && next != MaptActive
  {
    hide Handle; hide Readied; hide Kept; hide Follows; hide RaisedByActive; hide NextAfter; hide InIpv4Leased;
    NextIsTabled(Ipv4Leased, s, w);
    Ipv4Readied(s, w);
    Ipv4Decides(Readied(Ipv4Leased, s, w), w);
  }

  lemma Ipv6Decides(t: Iface, w: World)
    requires t.v4.st != IpUnknown && t.v6.st != IpUnknown
    ensures var next := NextAfter(InIpv6Leased(t, w), Ipv6Leased, t);
            var unasked := t.cfg.refreshDhcp &&
                           (t.cfg.v6Source != DhcpSource || t.cfg.mode == Ipv4Only || t.cfg.mode == NoIp);
            var may := MayServe(t.cfg) && t.v6.st == IpUp && !unasked && !t.v6.changed;
            var lost := Wanted(t.cfg) && !t.cfg.reset && !t.cfg.vlanReset &&
                        (t.v6.st == IpDown || unasked || !LinksUp(t.cfg));
            && (next == DualStackActive <==> may && t.v4.st == IpUp && t.v6.conn)
            && (next == Ipv4Leased <==>
                  (may && t.v4.st == IpUp && !t.v6.conn) || (lost && t.v4.st == IpUp && t.v4.conn))
            && (next == MaptActive <==>
                  && may && t.v4.st == IpDown && t.cfg.enableMapt && t.mapt.status == MaptUp
                  && w.lanReady && w.verifyMaptOk && w.processMaptOk)
  {
  }

  /** IPV6_LEASED gains IPv4 first, and otherwise hands IPv4 over to MAP-T once its set-up succeeds. */
  lemma Ipv6LeasedMoves(s: Iface, w: World)
    requires Known(s) && s.current == Ipv6Leased
    ensures var next := Handle(Ipv6Leased, s, w).next;
            var unasked := ModeIsPending(Ipv6Leased, s, w) &&
                           (s.cfg.v6Source != DhcpSource || s.cfg.mode == Ipv4Only || s.cfg.mode == NoIp);
            var may := MayServe(s.cfg) && s.v6.st == IpUp && !unasked && !s.v6.changed;
            var lost := Wanted(s.cfg) && !s.cfg.reset && !s.cfg.vlanReset &&
                        (s.v6.st == IpDown || unasked || !LinksUp(s.cfg));
            && (next == DualStackActive <==> may && s.v4.st == IpUp && s.v6.conn)
            && (next == Ipv4Leased <==>
                  (may && s.v4.st == IpUp && !s.v6.conn) || (lost && s.v4.st == IpUp && s.v4.conn))
            && (next == MaptActive <==>
                  && may && s.v4.st == IpDown && s.cfg.enableMapt && s.mapt.status == MaptUp
                  && w.lanReady && w.verifyMaptOk && w.processMaptOk)
  {
    hide Handle; hide Readied; hide Kept; hide Follows; hide RaisedByActive; hide NextAfter; hide InIpv6Leased;
    NextIsTabled(Ipv6Leased, s, w);
    Ipv6Readied(s, w);
    Ipv6Decides(Readied(Ipv6Leased, s, w), w);
  }

  /** DUAL_STACK_ACTIVE hands IPv4 over to MAP-T exactly when nothing else is due; otherwise a loss decides. */
  lemma DualStackMoves(s: Iface, w: World)
    requires Known(s) && s.current == DualStackActive
    ensures var next := Handle(DualStackActive, s, w).next;
            var c := s.cfg;
            var gone4 := s.v4.st == IpDown ||
                         (c.refreshDhcp && (c.v4Source != DhcpSource || c.mode == Ipv6Only || c.mode == NoIp));
            var gone6 := s.v6.st == IpDown ||
                         (c.refreshDhcp && (c.v6Source != DhcpSource || c.mode == Ipv4Only || c.mode == NoIp));
            var may := MayServe(c) && !gone4;
            && (next == MaptActive <==>
                  && may && !gone6 && !s.v4.changed && !s.v6.changed && c.enableMapt && s.mapt.status == MaptUp
                  && w.lanReady && w.verifyMaptOk && w.processMaptOk)
            && (next == Ipv4Leased <==> may && !s.v4.changed && gone6 && s.v4.conn)
            && (next == Ipv6Leased <==>
                  && Wanted(c) && !c.reset && !c.vlanReset && LinksUp(c) && gone4 && s.v6.st == IpUp && s.v6.conn)
  {
    hide Handle; hide Kept; hide Follows; hide RaisedByActive;
    NextIsTabled(DualStackActive, s, w);
  }

  /** MAPT_ACTIVE is left for IPV6_LEASED exactly when MAP-T can no longer be used, and never straight for IPv4. */
  lemma MaptMoves(s: Iface, w: World)
    requires Known(s) && s.current == MaptActive
    ensures var next := Handle(MaptActive, s, w).next;
            var c := s.cfg;
            var unusable := !c.enableMapt || s.mapt.status == MaptDown || s.v6.st == IpDown ||
                            (c.refreshDhcp && c.mode != Ipv6Only && c.mode != DualStack) ||
                            (c.vlanEnable && c.vlanStatus == LinkDown);
            var may := Wanted(c) && !c.reset && !c.vlanReset && c.sel == Active && !c.nwModeChanged;
            && (next == Ipv6Leased <==> may && unusable)
            && (next == MaptActive <==> may && !unusable && (c.maptFeatureChanged ==> w.maptFeature))
            && next != Ipv4Leased && next != DualStackActive
  {
    hide Handle; hide Kept; hide Follows; hide RaisedByActive;
    NextIsTabled(MaptActive, s, w);
  }

  // ---- the start of a thread ----

  /** A thread starts in VLAN_CONFIGURING with no address and MAP-T up; the rest of the record is kept. */
  lemma StartsAfresh(s: Iface, w: World)
    requires StartFinds(s)
    ensures var m := Start(s, w);
            && m.next == VlanConfiguring
            && m.s == s.(cfg := m.s.cfg, vlan := m.s.vlan, status := Initialising, running := true,
                         v4 := s.v4.(st := IpDown), v6 := s.v6.(st := IpDown),
                         mapt := s.mapt.(status := MaptDown), mode := s.mode.(selected := w.startMode))
  {
    hide FindVlan;
  }

  lemma StartVlanLinks(s: Iface, w: World)
    requires StartFinds(s)
    ensures var configures := s.cfg.vlanEnable && s.cfg.ifaceType == LocalIface && s.cfg.vlanStatus == LinkDown;
            StartVlan(s, w).cfg == if configures then s.cfg.(vlanStatus := LinkConfiguring) else s.cfg
  {
    hide FindVlan; hide ConfigureVlan;
    if s.cfg.vlanEnable && s.cfg.ifaceType == LocalIface && s.cfg.vlanStatus == LinkDown {
      ConfiguresOneVlan(s, w);
      if s.vlan.inUse == "" {
        var e := s.vlans[FindVlan(s.vlans, 0).value];
        ConfiguresOneVlan(s.(vlan := s.vlan.(activeIndex := 0, inUse := e.name)), w);
      }
    }
  }

  lemma StartConfig(s: Iface, w: World)
    requires StartFinds(s)
    ensures var c := FoundLinks(s.cfg, s.vlan.inUse, w);
            Start(s, w).s.cfg == if c.vlanEnable && c.ifaceType == LocalIface && c.vlanStatus == LinkDown
                                 then c.(vlanStatus := LinkConfiguring) else c
  {
    hide FindVlan; hide StartVlan; hide FoundLinks;
    StartVlanLinks(Initialised(s, w), w);
  }

  /** Links that survived are taken over; otherwise the VLAN is configured. No other setting changes. */
  lemma StartsLinks(s: Iface, w: World)
    requires StartFinds(s)
    ensures var found := if s.cfg.pppEnable && w.pppFound then s.cfg.(pppLink := LinkUp, ipv6cpUp := true) else s.cfg;
            Start(s, w).s.cfg ==
            if ConfiguresVlan(s, w) then found.(vlanStatus := LinkConfiguring)
            else if s.cfg.vlanEnable && s.vlan.inUse != "" && w.vlanFound then found.(vlanStatus := LinkUp)
            else found
  {
    hide Start;
    StartConfig(s, w);
  }

  // ---- what other threads write ----

  /** An offer fills the empty slot of a running machine and is dropped otherwise. */
  lemma OffersWrite(s: Iface, m4: V4Message, m6: V6Message)
    ensures Happen(s, Offer4(m4)) ==
            if s.running && s.v4.mail.None? then s.(v4 := s.v4.(mail := Some(m4))) else s
    ensures Happen(s, Offer6(m6)) ==
            if s.running && s.v6.mail.None? then s.(v6 := s.v6.(mail := Some(m6))) else s
  {
  }

  /** Management writes the one status it names. */
  lemma StatusWrites(s: Iface, up: bool)
    ensures Happen(s, WriteIpv4Status(up)) == s.(v4 := s.v4.(st := if up then IpUp else IpDown))
    ensures Happen(s, WriteIpv6Status(up)) == s.(v6 := s.v6.(st := if up then IpUp else IpDown))
  {
  }

  lemma OtherWrites(s: Iface, c: Config, up: bool)
    ensures Happen(s, WriteMaptStatus(up)) == s.(mapt := s.mapt.(status := if up then MaptUp else MaptDown))
    ensures Happen(s, Configure(c)) == s.(cfg := c)
    ensures Happen(s, PrefixClear(false)) == s.(v6 := s.v6.(conn := false))
  {
  }

  /** A prefix clear that names the interface takes IPv6 and MAP-T down and empties the lease. */
  lemma PrefixClearLowers(s: Iface)
    ensures var r := Happen(s, PrefixClear(true));
            && r == s.(v6 := r.v6, mapt := MapRecord(MaptDown, false, s.mapt.params))
            && r.v6.st == IpDown && !r.v6.conn && !r.v6.changed && !r.v6.renewed && r.v6.mail == s.v6.mail
            && r.v6.client == s.v6.client && r.v6.pid == s.v6.pid
            && r.v6.lease == V6Lease(s.v6.lease.addr.(address := ""),
                                     s.v6.lease.prefix.(sitePrefix := "", pdIfAddress := ""), "", "")
  {
  }
}
