/**
 The interface state machine as the thread runs it: fields updated one after the other, transitions that call
 other transitions and drop the state they return. Every method is proved against its function in InterfaceSpec.
 */
module InterfaceMachine {
  import opened WanTypes
  import opened DhcpEvents
  import Spec = InterfaceSpec
  import Invariant = InterfaceInvariant
  import Runs = InterfaceRuns
  import Claims = InterfaceClaims
  import Leaving = LeavingService

  class VirtualInterface {
    const vlans: seq<VlanEntry>
    var cfg: Config
    var status: IfaceStatus
    var running: bool
    var current: SmState
    var vlan: Discovery
    var v4: V4Side
    var v6: V6Side
    var mode: ModeRecord
    var mapt: MapRecord
    var checkRunning: bool

    constructor (s: Iface)
      ensures View() == s
    {
      vlans, cfg, status, running, current := s.vlans, s.cfg, s.status, s.running, s.current;
      vlan, v4, v6, mode, mapt, checkRunning := s.vlan, s.v4, s.v6, s.mode, s.mapt, s.checkRunning;
    }

    function View(): Iface
      reads this
    {
      Iface(cfg, vlans, status, running, current, vlan, v4, v6, mode, mapt, checkRunning)
    }

    // ---- actions ----

    method StartDhcpv4(pid: int)
      modifies `v4
      ensures v4 == Spec.StartV4(old(v4), pid)
    {
      if pid == 0 {
        v4 := v4.(client := Failed, pid := -1);
      } else {
        v4 := v4.(client := Started, pid := pid);
      }
    }

    method StopDhcpv4()
      modifies `v4
      ensures v4 == Spec.StopV4(old(v4))
    {
      v4 := v4.(client := Stopped);
      v4 := v4.(pid := 0);
    }

    method StartDhcpv6(pid: int)
      modifies `v6
      ensures v6 == Spec.StartV6(old(v6), pid)
    {
      if pid == 0 {
        v6 := v6.(client := Failed, pid := -1);
      } else {
        v6 := v6.(client := Started, pid := pid);
      }
    }

    method StopDhcpv6()
      modifies `v6
      ensures v6 == Spec.StopV6(old(v6))
    {
      v6 := v6.(client := Stopped);
      v6 := v6.(pid := 0);
    }

    method StartCheck()
      modifies `checkRunning
      ensures checkRunning == Spec.Checked(old(View()))
    {
      if cfg.checkType == TadCheck {
        checkRunning := true;
      }
    }

    method SetUpIpv4()
      modifies `v4, `checkRunning
      ensures v4 == old(v4).(conn := true) && checkRunning == Spec.Checked(old(View()))
    {
      v4 := v4.(conn := true);
      StartCheck();
    }

    method SetUpIpv6()
      modifies `v6, `checkRunning
      ensures v6 == old(v6).(conn := true) && checkRunning == Spec.Checked(old(View()))
    {
      v6 := v6.(conn := true);
      StartCheck();
    }

    method ConnectionDown()
      modifies `v4
      ensures v4 == Lost4(old(v4))
    {
      v4 := v4.(st := IpDown);
      v4 := v4.(changed := false, renewed := false);
      v4 := v4.(lease := v4.lease.(ip := ""));
    }

    method ConnectionIpv6Down()
      modifies `v6, `mapt
      ensures v6 == Lost6(old(v6)) && mapt == MaptStopped(old(mapt))
    {
      v6 := v6.(st := IpDown, changed := false, renewed := false);
      v6 := v6.(lease := ClearedV6(v6.lease));
      v6 := v6.(conn := false);
      mapt := mapt.(status := MaptDown);
      mapt := mapt.(changed := false);
    }

    method ClearDhcpData()
      modifies `v4, `v6
      ensures View() == Spec.ClearDhcpData(old(View()))
    {
      v4 := v4.(st := IpDown, changed := false, renewed := false, lease := NO_V4_LEASE);
      v4 := v4.(pid := 0, client := Stopped, mail := None);
      v6 := v6.(st := IpDown, changed := false, renewed := false, lease := NO_V6_LEASE);
      v6 := v6.(pid := 0, client := Stopped, mail := None);
    }

    method ConfigureVlan(w: World)
      modifies `cfg, `vlan
      ensures View() == Spec.ConfigureVlan(old(View()), w)
    {
      cfg := cfg.(vlanStatus := LinkConfiguring);
      if |vlans| > 1 {
        vlan := vlan.(timerStart := w.now);
      }
    }

    // ---- transitions ----

    /** WanMgr_getVirtVlanIfById: the walk over the list; its length when there is no such entry. */
    method FindVlan(index: int) returns (k: nat)
      ensures if k < |vlans| then Spec.FindVlan(vlans, index) == Some(k) else Spec.FindVlan(vlans, index).None?
    {
      k := 0;
      while k < |vlans| && vlans[k].index != index
        invariant 0 <= k <= |vlans|
        invariant Spec.FindVlan(vlans, index) ==
                  match Spec.FindVlan(vlans[k..], index)
                  case Some(j) => Some(k + j)
                  case None => None
      {
        assert vlans[k..][1..] == vlans[k + 1..];
        k := k + 1;
      }
    }

    /** An enabled VLAN that is down is configured at the start. */
    method StartVlan(w: World)
      requires Spec.StartFinds(View())
      modifies `cfg, `vlan
      ensures View() == Spec.StartVlan(old(View()), w)
    {
      if Spec.VlanIsDown(cfg) && cfg.ifaceType != RemoteIface {
        if vlan.inUse == "" {
          vlan := vlan.(activeIndex := 0);
          var k := FindVlan(0);
          vlan := vlan.(inUse := vlans[k].name);
        }
        ConfigureVlan(w);
      }
    }

    method FindPpp(w: World)
      modifies `cfg
      ensures cfg == Spec.FoundPpp(old(cfg), w)
    {
      if cfg.pppEnable && w.pppFound {
        cfg := cfg.(pppLink := LinkUp, ipv6cpUp := true);
      }
    }

    method FindLinks(w: World)
      modifies `cfg
      ensures cfg == Spec.FoundLinks(old(cfg), vlan.inUse, w)
    {
      hide Spec.FoundPpp;
      FindPpp(w);
      if cfg.vlanEnable && vlan.inUse != "" && w.vlanFound {
        cfg := cfg.(vlanStatus := LinkUp);
      }
    }

    method Initialise(w: World)
      modifies `cfg, `status, `v4, `v6, `mapt
      ensures View() == Spec.Initialised(old(View()), w)
    {
      hide Spec.FoundLinks;
      v4, v6 := v4.(st := IpDown), v6.(st := IpDown);
      mapt := mapt.(status := MaptDown);
      status := Initialising;
      FindLinks(w);
    }

    method Start(w: World) returns (next: SmState)
      requires Spec.StartFinds(View())
      modifies this
      ensures next == Spec.Start(old(View()), w).next && View() == Spec.Start(old(View()), w).s
    {
      hide Spec.StartVlan; hide Spec.FindVlan; hide Spec.Initialised;
      Initialise(w);
      StartVlan(w);
      running := true;
      mode := mode.(selected := w.startMode);
      next := VlanConfiguring;
    }

    method PppConfigure() returns (next: SmState)
      modifies `cfg
      ensures next == Spec.PppConfigure(old(View())).next && View() == Spec.PppConfigure(old(View())).s
    {
      if cfg.pppEnable && cfg.pppLink == LinkDown {
        cfg := cfg.(pppLink := LinkConfiguring);
      }
      next := PppConfiguring;
    }

    method StartClients(w: World)
      modifies `v4, `v6, `mode
      ensures v4 == Spec.Validated4(old(View()), w) && v6 == Spec.Validated6(old(View()), w)
      ensures mode == if Spec.PrefersMapt(old(View())) then old(mode).(timer := Running, start := w.now) else old(mode)
    {
      if Spec.WipesLeases(View()) {
        ClearDhcpData();
      }
      if mode.selected == MaptMode && mode.timer != Expired {
        StartDhcpv6(w.pid6.At(AtValidated));
        mode := mode.(timer := Running);
        mode := mode.(start := w.now);
      } else {
        if Spec.WantsV4(cfg) {
          StartDhcpv4(w.pid4.At(AtValidated));
        }
        if Spec.WantsV6(cfg) && v6.client != Started {
          StartDhcpv6(w.pid6.At(AtValidated));
        }
      }
    }

    method WanValidated(w: World) returns (next: SmState)
      modifies `v4, `v6, `mode, `cfg
      ensures next == Spec.WanValidated(old(View()), w).next && View() == Spec.WanValidated(old(View()), w).s
    {
      hide Spec.Validated4; hide Spec.Validated6; hide Spec.PrefersMapt;
      StartClients(w);
      if cfg.pppEnable && w.ppp == PppQueryFailed {
        return ObtainingIp;
      }
      if cfg.pppEnable && w.ppp == PppNotConnected {
        cfg := cfg.(ipv6cpUp := false);
      }
      if cfg.ifaceType == RemoteIface {
        v6 := v6.(lease := v6.lease.(addr := v6.lease.addr.(address := w.ulaAddress)));
      }
      next := ObtainingIp;
    }

    /** The list is walked by index; the entry after the active one is tried, and after the last one the head. */
    method NextVlan() returns (e: VlanEntry)
      requires vlans != []
      ensures e == Spec.NextVlan(vlans, vlan.activeIndex, cfg.vlanReset)
    {
      if cfg.vlanReset || vlan.activeIndex == -1 {
        return vlans[0];
      }
      var k := FindVlan(vlan.activeIndex);
      if k + 1 < |vlans| {
        e := vlans[k + 1];
      } else {
        e := vlans[0];
      }
    }

    method WanRefreshed(w: World) returns (next: SmState)
      requires Spec.RefreshFinds(View())
      modifies `cfg, `vlan
      ensures next == Spec.WanRefreshed(old(View()), w).next && View() == Spec.WanRefreshed(old(View()), w).s
    {
      hide Spec.NextVlan;
      if Spec.VlanIsDown(cfg) && cfg.ifaceType != RemoteIface {
        if vlan.expired || cfg.vlanReset {
          var e := NextVlan();
          vlan := vlan.(activeIndex := e.index);
          vlan := vlan.(inUse := e.name);
        }
        ConfigureVlan(w);
      }
      cfg := cfg.(reset := false, vlanReset := false);
      vlan := vlan.(expired := false);
      next := VlanConfiguring;
    }

    method Ipv4Up() returns (next: SmState)
      modifies `status, `v4, `checkRunning
      ensures next == Spec.Ipv4Up(old(View())).next && View() == Spec.Ipv4Up(old(View())).s
    {
      status := StatusUp;
      SetUpIpv4();
      StartCheck();
      v4 := v4.(changed := false);
      v4 := v4.(renewed := false);
      if v6.st == IpUp && v6.conn {
        return DualStackActive;
      }
      next := Ipv4Leased;
    }

    /** Stops the DHCPv4 client of an interface that is being given up, or makes sure that one runs. */
    method AdjustDhcpv4(w: World)
      modifies `v4
      ensures v4 == Spec.Ipv4DownClient(old(View()), w)
    {
      if Spec.StopsV4(cfg) {
        if v4.client == Started {
          StopDhcpv4();
        }
      } else {
        if v4.client != Started && !cfg.pppEnable && !Spec.AppliesMapt(View()) {
          StartDhcpv4(w.pid4.At(AtIpv4Down));
        }
      }
    }

    method Ipv4Down(w: World) returns (next: SmState)
      modifies `status, `v4, `checkRunning
      ensures next == Spec.Ipv4Down(old(View()), w).next && View() == Spec.Ipv4Down(old(View()), w).s
    {
      hide Spec.Ipv4DownClient; hide Lost4;
      AdjustDhcpv4(w);
      ConnectionDown();
      if status == StatusUp {
        v4 := v4.(conn := false);
      }
      StartCheck();
      if v6.st == IpUp && v6.conn {
        return Ipv6Leased;
      }
      status := Validating;
      next := ObtainingIp;
    }

    method Ipv6Up() returns (next: SmState)
      modifies `status, `v6, `checkRunning
      ensures next == Spec.Ipv6Up(old(View())).next && View() == Spec.Ipv6Up(old(View())).s
    {
      status := StatusUp;
      SetUpIpv6();
      StartCheck();
      if v4.st == IpUp && v4.conn {
        return DualStackActive;
      }
      next := Ipv6Leased;
    }

    method AdjustDhcpv6(w: World)
      modifies `v6
      ensures v6 == Spec.Ipv6DownClient(old(View()), w)
    {
      if Spec.StopsV6(cfg) {
        StopDhcpv6();
      } else {
        if v6.client != Started {
          StartDhcpv6(w.pid6.At(AtIpv6Down));
        }
      }
    }

    method Ipv6Down(w: World) returns (next: SmState)
      modifies `status, `v6, `mapt, `checkRunning
      ensures next == Spec.Ipv6Down(old(View()), w).next && View() == Spec.Ipv6Down(old(View()), w).s
    {
      hide Spec.Ipv6DownClient; hide ClearedV6; hide Spec.Kept; hide Spec.RaisedByActive;
      AdjustDhcpv6(w);
      ConnectionIpv6Down();
      if status == StatusUp {
        v6 := v6.(conn := false);
      }
      StartCheck();
      if v4.st == IpUp && v4.conn {
        return Ipv4Leased;
      }
      status := Validating;
      next := ObtainingIp;
    }

    method DualStackDown(w: World) returns (next: SmState)
      modifies `status, `v4, `v6, `mapt, `checkRunning
      ensures next == Spec.DualStackDown(old(View()), w).next && View() == Spec.DualStackDown(old(View()), w).s
    {
      status := Validating;
      var _ := Ipv4Down(w);
      var _ := Ipv6Down(w);
      next := ObtainingIp;
    }

    method MaptFeatureRefresh(w: World) returns (next: SmState)
      modifies `status, `v6, `mapt, `checkRunning
      ensures next == Spec.MaptFeatureRefresh(old(View()), w).next
      ensures View() == Spec.MaptFeatureRefresh(old(View()), w).s
    {
      var _ := Ipv6Down(w);
      v6 := v6.(st := IpDown);
      v6 := v6.(changed := false, renewed := false);
      v6 := v6.(lease := NO_V6_LEASE);
      v6 := v6.(mail := None);
      if Spec.WantsV6(cfg) {
        StopDhcpv6();
        if w.stop6Ok {
          StartDhcpv6(w.pid6.At(AtFeatureRefresh));
        }
      }
      next := ObtainingIp;
    }

    /** Native IPv4 gives way to MAP-T. */
    method TakeOver(w: World)
      modifies `status, `v4, `mapt, `checkRunning
      ensures View() == Spec.MaptTakesOver(old(View()), w)
    {
      hide Spec.Ipv4Up; hide Spec.Ipv4Down;
      mapt := mapt.(changed := false);
      if v4.changed && v4.st == IpUp {
        var _ := Ipv4Up();
      }
      if v4.client == Started {
        StopDhcpv4();
      }
      if v4.st == IpUp {
        var _ := Ipv4Down(w);
      }
    }

    method SwitchMaptOn(w: World) returns (next: SmState)
      modifies `status, `v4, `mapt, `checkRunning
      ensures next == Spec.MaptUpTransition(old(View()), w).next && View() == Spec.MaptUpTransition(old(View()), w).s
    {
      hide Spec.MaptTakesOver;
      if !w.verifyMaptOk {
        return current;
      }
      TakeOver(w);
      if !w.processMaptOk {
        return current;
      }
      next := MaptActive;
    }

    method SwitchMaptOff(w: World) returns (next: SmState)
      modifies `v4, `mapt
      ensures next == Spec.MaptDownTransition(old(View()), w).next
      ensures View() == Spec.MaptDownTransition(old(View()), w).s
    {
      mapt := mapt.(status := MaptDown);
      mapt := mapt.(changed := false);
      ConnectionDown();
      v4 := v4.(lease := NO_V4_LEASE);
      v4 := v4.(mail := None);
      if !Spec.Torn(cfg) && cfg.sel == Active {
        if !cfg.pppEnable {
          StartDhcpv4(w.pid4.At(AtMaptDown));
        }
      }
      next := Ipv6Leased;
    }

    /** Runs the down transitions of whatever is up, and ignores the states they ask for. */
    method DropAddresses(w: World)
      modifies `status, `v4, `v6, `mapt, `checkRunning
      ensures View() == Spec.DropV6(Spec.DropV4(Spec.DropMapt(old(View()), w), w), w)
    {
      hide Spec.MaptDownTransition; hide Spec.Ipv4Down; hide Spec.Ipv6Down;
      if mapt.status == MaptUp {
        var _ := SwitchMaptOff(w);
      }
      if v4.st == IpUp {
        var _ := Ipv4Down(w);
      }
      if v6.st == IpUp {
        var _ := Ipv6Down(w);
      }
    }

    method DropClients()
      modifies `v4, `v6, `mode, `checkRunning
      ensures View() == Spec.DropClients(old(View()))
    {
      if v4.client == Started {
        StopDhcpv4();
      }
      if v6.client == Started {
        StopDhcpv6();
      }
      mode := mode.(timer := NotStarted);
      checkRunning := false;
    }

    method DropPppLink()
      modifies `cfg
      ensures cfg == old(cfg).(pppLink := Spec.DroppedPpp(old(cfg)))
    {
      if cfg.pppEnable && cfg.pppLink == LinkConfiguring {
        cfg := cfg.(pppLink := LinkDown);
      }
    }

    method DropVlanLink()
      modifies `cfg
      ensures cfg == old(cfg).(vlanStatus := Spec.DroppedVlan(old(cfg)))
    {
      if cfg.vlanEnable && cfg.ifaceType != RemoteIface {
        if cfg.vlanStatus == LinkConfiguring {
          cfg := cfg.(vlanStatus := LinkDown);
        }
      }
    }

    method DropLinks()
      modifies `cfg
      ensures cfg == Spec.DropLinks(old(cfg))
    {
      DropPppLink();
      DropVlanLink();
    }

    method PhysicalInterfaceDown(w: World) returns (next: SmState)
      modifies `status, `v4, `v6, `mapt, `mode, `cfg, `checkRunning
      ensures next == Spec.PhysicalInterfaceDown(old(View()), w).next
      ensures View() == Spec.PhysicalInterfaceDown(old(View()), w).s
    {
      hide Spec.DropMapt; hide Spec.DropV4; hide Spec.DropV6; hide Spec.DropClients;
      DropAddresses(w);
      DropClients();
      DropLinks();
      if cfg.reset || cfg.vlanReset || vlan.expired {
        return RefreshingWan;
      }
      next := DeconfiguringWan;
    }

    method Leave() returns (next: SmState)
      modifies `status, `cfg, `running
      ensures next == Spec.ExitTransition(old(View())).next && View() == Spec.ExitTransition(old(View())).s
    {
      status := Disabled;
      cfg := cfg.(reset := false);
      running := false;
      next := Exit;
    }

    method EnterStandby() returns (next: SmState)
      modifies `status, `checkRunning
      ensures next == Spec.StandbyTransition(old(View())).next && View() == Spec.StandbyTransition(old(View())).s
    {
      status := OnStandby;
      StartCheck();
      next := Standby;
    }

    method StandbyDeconfigIps() returns (next: SmState)
      modifies `status, `v4, `v6, `checkRunning
      ensures next == Spec.StandbyDeconfigIps(old(View())).next && View() == Spec.StandbyDeconfigIps(old(View())).s
    {
      if cfg.checkType == IhcCheck {
        checkRunning := false;
      }
      if v4.st == IpUp {
        v4 := v4.(conn := false);
      }
      if v6.st == IpUp {
        v6 := v6.(conn := false);
        v6 := v6.(changed := true);
      }
      status := OnStandby;
      next := Standby;
    }

    // ---- state handlers ----

    method MonitorClients(w: World)
      modifies `v4, `v6
      ensures v4 == (if Spec.Restarts4(old(View()), w) then Spec.StartV4(old(v4), w.pid4.At(AtMonitor)) else old(v4))
      ensures v6 == (if Spec.Restarts6(old(View()), w) then Spec.StartV6(old(v6), w.pid6.At(AtMonitor)) else old(v6))
    {
      if Spec.Restarts4(View(), w) {
        StartDhcpv4(w.pid4.At(AtMonitor));
      }
      if Spec.Restarts6(View(), w) {
        StartDhcpv6(w.pid6.At(AtMonitor));
      }
    }

    method MonitorDhcpApps(w: World)
      modifies `v4, `v6, `cfg, `checkRunning
      ensures View() == Spec.MonitorDhcpApps(old(View()), w)
    {
      hide Spec.Restarts4; hide Spec.Restarts6; hide Spec.StartV4; hide Spec.StartV6; hide Spec.ModeApplied;
      if !cfg.wanEnable || cfg.sel == NotSelected || !cfg.selEnable {
        return;
      }
      if cfg.refreshDhcp {
        if Spec.ModeApplied(View()) {
          cfg := cfg.(refreshDhcp := false);
        }
        return;
      }
      MonitorClients(w);
      if cfg.checkTypeChanged {
        checkRunning := false;
        StartCheck();
        cfg := cfg.(checkTypeChanged := false);
      }
    }

    method VlanConfiguringTick(w: World) returns (next: SmState)
      modifies this
      ensures next == Spec.OnVlanConfiguring(old(View()), w).next && View() == Spec.OnVlanConfiguring(old(View()), w).s
    {
      hide Spec.PhysicalInterfaceDown; hide Spec.PppConfigure;
      if Spec.Blocked(cfg) {
        next := PhysicalInterfaceDown(w);
        return;
      }
      if Spec.VlanTimerExpired(View(), w) {
        vlan := vlan.(expired := true);
        next := PhysicalInterfaceDown(w);
        return;
      }
      if cfg.vlanEnable && cfg.vlanStatus != LinkUp {
        return VlanConfiguring;
      }
      next := PppConfigure();
    }

    method PppConfiguringTick(w: World) returns (next: SmState)
      modifies this
      ensures next == Spec.OnPppConfiguring(old(View()), w).next && View() == Spec.OnPppConfiguring(old(View()), w).s
    {
      hide Spec.PhysicalInterfaceDown;
      if Spec.Blocked(cfg) {
        next := PhysicalInterfaceDown(w);
        return;
      }
      if Spec.VlanTimerExpired(View(), w) {
        vlan := vlan.(expired := true);
        next := PhysicalInterfaceDown(w);
        return;
      }
      if cfg.pppEnable && !(cfg.pppLink == LinkUp && !(Spec.WantsV6(cfg) && !cfg.ipv6cpUp)) {
        return PppConfiguring;
      }
      status := Validating;
      next := ValidatingWan;
    }

    method ValidatingTick(w: World) returns (next: SmState)
      modifies this
      ensures next == Spec.OnValidatingWan(old(View()), w).next && View() == Spec.OnValidatingWan(old(View()), w).s
    {
      hide Spec.PhysicalInterfaceDown; hide Spec.WanValidated;
      if Spec.Blocked(cfg) {
        next := PhysicalInterfaceDown(w);
        return;
      }
      if Spec.VlanTimerExpired(View(), w) {
        vlan := vlan.(expired := true);
        next := PhysicalInterfaceDown(w);
        return;
      }
      next := WanValidated(w);
    }

    method RefreshClients(w: World)
      modifies `v4, `v6, `status, `cfg
      ensures View() == Spec.RefreshClients(old(View()), w)
    {
      if Spec.WantsV4(cfg) {
        if v4.client != Started {
          StartDhcpv4(w.pid4.At(AtModeRefresh));
        }
      } else if v4.client == Started {
        StopDhcpv4();
      }
      if Spec.WantsV6(cfg) {
        if v6.client != Started {
          StartDhcpv6(w.pid6.At(AtModeRefresh));
        }
      } else if v6.client == Started {
        StopDhcpv6();
      }
      if v4.client != Started && v6.client != Started {
        status := Validating;
      }
      cfg := cfg.(refreshDhcp := false);
    }

    method RefreshFeature(w: World) returns (next: SmState)
      modifies this
      ensures next == Spec.RefreshFeature(old(View()), w).next && View() == Spec.RefreshFeature(old(View()), w).s
    {
      hide Spec.MaptFeatureRefresh;
      cfg := cfg.(maptFeatureChanged := false);
      next := MaptFeatureRefresh(w);
    }

    method TakeAddress(w: World) returns (next: SmState)
      modifies this
      ensures next == Spec.TakeAddress(old(View()), w).next && View() == Spec.TakeAddress(old(View()), w).s
    {
      hide Spec.Ipv4Up; hide Spec.Ipv6Up; hide Spec.StandbyTransition; hide Spec.RefreshFeature;
      if v4.st == IpUp {
        if cfg.sel == Active {
          next := Ipv4Up();
        } else {
          next := EnterStandby();
        }
        return;
      } else if v6.st == IpUp {
        if cfg.sel == Active {
          if v6.changed {
            v6 := v6.(changed := false);
            return ObtainingIp;
          }
          if w.lanReady {
            next := Ipv6Up();
            return;
          }
        } else {
          next := EnterStandby();
          return;
        }
      } else if Spec.RefreshesMapt(View()) {
        if w.maptFeature {
          next := RefreshFeature(w);
          return;
        }
      }
      next := ObtainingIp;
    }

    method ServeObtaining(w: World) returns (next: SmState)
      modifies this
      ensures next == Spec.ServeObtaining(old(View()), w).next && View() == Spec.ServeObtaining(old(View()), w).s
    {
      hide Spec.RefreshClients; hide Spec.MonitorDhcpApps; hide Spec.TakeAddress;
      if cfg.refreshDhcp {
        RefreshClients(w);
        return ObtainingIp;
      }
      MonitorDhcpApps(w);
      next := TakeAddress(w);
    }

    method ObtainingTick(w: World) returns (next: SmState)
      modifies this
      ensures next == Spec.OnObtainingIp(old(View()), w).next && View() == Spec.OnObtainingIp(old(View()), w).s
    {
      hide Spec.PhysicalInterfaceDown; hide Spec.WanValidated; hide Spec.ServeObtaining;
      if Spec.Blocked(cfg) || cfg.vlanStatus == LinkConfiguring || cfg.pppLink == LinkConfiguring || cfg.reset {
        next := PhysicalInterfaceDown(w);
        return;
      }
      if Spec.VlanTimerExpired(View(), w) || Spec.VlanIsDown(cfg) || (cfg.pppEnable && cfg.pppLink == LinkDown) {
        vlan := vlan.(expired := true);
        next := PhysicalInterfaceDown(w);
        return;
      }
      if mode.selected == MaptMode {
        if mapt.status == MaptUp {
          mode := mode.(timer := Complete);
        } else if mode.timer == Running {
          if w.now - mode.start > SELECTED_MODE_TIMEOUT || v6.st == IpUp {
            mode := mode.(timer := Expired);
            next := WanValidated(w);
            return;
          }
          return ObtainingIp;
        }
      }
      next := ServeObtaining(w);
    }

    method ServeStandby(w: World) returns (next: SmState)
      modifies this
      ensures next == Spec.ServeStandby(old(View()), w).next && View() == Spec.ServeStandby(old(View()), w).s
    {
      hide Spec.Ipv4Up; hide Spec.Ipv6Up;
      if Spec.VlanIsDown(cfg) || Spec.PppIsNotUp(cfg) || (v4.st == IpDown && v6.st == IpDown) || cfg.refreshDhcp {
        return ObtainingIp;
      } else if cfg.sel == Active {
        next := Standby;
        if v6.st == IpUp {
          if v6.changed {
            v6 := v6.(changed := false);
          }
          if w.lanReady {
            next := Ipv6Up();
          }
        }
        if v4.st == IpUp {
          next := Ipv4Up();
        }
        return;
      }
      if w.restartCheck && cfg.checkType == TadCheck {
        StartCheck();
      }
      next := Standby;
    }

    method StandbyTick(w: World) returns (next: SmState)
      modifies this
      ensures next == Spec.OnStandbyState(old(View()), w).next && View() == Spec.OnStandbyState(old(View()), w).s
    {
      hide Spec.PhysicalInterfaceDown; hide Spec.MonitorDhcpApps; hide Spec.ServeStandby;
      if Spec.Blocked(cfg) {
        next := PhysicalInterfaceDown(w);
        return;
      }
      MonitorDhcpApps(w);
      next := ServeStandby(w);
    }

    method ReapplyIpv4(w: World)
      modifies `v4, `checkRunning
      ensures View() == Spec.ReapplyV4(old(View()), w)
    {
      v4 := v4.(conn := false);
      if w.tearDownV4Ok {
        SetUpIpv4();
        if w.setUpV4Ok {
          StartCheck();
          v4 := v4.(changed := false);
        }
      }
    }

    method ReapplyIpv6(w: World)
      modifies `v6, `checkRunning
      ensures View() == Spec.ReapplyV6(old(View()), w)
    {
      v6 := v6.(conn := false);
      if w.tearDownV6Ok {
        if w.lanPrefixOk {
          SetUpIpv6();
          if w.setUpV6Ok {
            StartCheck();
            v6 := v6.(changed := false);
          }
        }
      }
    }

    method RenewIpv4()
      modifies `v4, `checkRunning
      ensures View() == Spec.RenewV4(old(View()))
    {
      StartCheck();
      v4 := v4.(renewed := false);
    }

    method RenewIpv6()
      modifies `v6, `checkRunning
      ensures View() == Spec.RenewV6(old(View()))
    {
      StartCheck();
      v6 := v6.(renewed := false);
    }

    method ServeIpv4(w: World) returns (next: SmState)
      requires cfg.sel == Active
      modifies this
      ensures next == Spec.ServeIpv4(old(View()), w).next && View() == Spec.ServeIpv4(old(View()), w).s
    {
      hide Spec.ReapplyV4; hide Spec.Ipv6Up; hide Spec.RenewV4; hide Spec.RefreshFeature;
      if v4.changed {
        ReapplyIpv4(w);
      } else if v6.st == IpUp {
        if v6.changed {
          v6 := v6.(changed := false);
        } else if w.lanReady {
          next := Ipv6Up();
          return;
        }
      } else if v4.renewed {
        RenewIpv4();
      } else if Spec.RefreshesMapt(View()) {
        if w.maptFeature {
          next := RefreshFeature(w);
          return;
        }
      }
      next := Ipv4Leased;
    }

    method CheckIpv4Leased(w: World) returns (next: SmState)
      modifies this
      ensures next == Spec.Ipv4LeasedTick(old(View()), w).next && View() == Spec.Ipv4LeasedTick(old(View()), w).s
    {
      hide Spec.PhysicalInterfaceDown; hide Spec.Ipv4Down; hide Spec.StandbyDeconfigIps; hide Spec.ServeIpv4;
      if Spec.Torn(cfg) {
        next := PhysicalInterfaceDown(w);
      } else if v4.st == IpDown || Spec.VlanIsDown(cfg) || Spec.PppIsNotUp(cfg) ||
                (cfg.refreshDhcp && !Spec.WantsV4(cfg)) {
        next := Ipv4Down(w);
      } else if cfg.sel != Active || cfg.nwModeChanged {
        next := StandbyDeconfigIps();
      } else {
        next := ServeIpv4(w);
      }
    }

    method Ipv4LeasedTick(w: World) returns (next: SmState)
      modifies this
      ensures next == Spec.OnIpv4Leased(old(View()), w).next && View() == Spec.OnIpv4Leased(old(View()), w).s
    {
      hide Spec.MonitorDhcpApps; hide Spec.Ipv4LeasedTick;
      if cfg.refreshDhcp && cfg.v6Source == DhcpSource && cfg.mode == DualStack && v6.client != Started {
        StartDhcpv6(w.pid6.At(AtModeRefresh));
      }
      MonitorDhcpApps(w);
      next := CheckIpv4Leased(w);
    }

    method ServeIpv6(w: World) returns (next: SmState)
      requires cfg.sel == Active
      modifies this
      ensures next == Spec.ServeIpv6(old(View()), w).next && View() == Spec.ServeIpv6(old(View()), w).s
    {
      hide Spec.ReapplyV6; hide Spec.Ipv4Up; hide Spec.RenewV6; hide Spec.RefreshFeature; hide Spec.MaptUpTransition;
      if v6.changed {
        ReapplyIpv6(w);
      } else if v4.st == IpUp {
        next := Ipv4Up();
        return;
      } else if Spec.AppliesMapt(View()) {
        if w.lanReady {
          next := SwitchMaptOn(w);
          return;
        }
      } else if Spec.RefreshesMapt(View()) {
        if w.maptFeature {
          next := RefreshFeature(w);
          return;
        }
      } else if v6.renewed {
        RenewIpv6();
      }
      next := Ipv6Leased;
    }

    method CheckIpv6Leased(w: World) returns (next: SmState)
      modifies this
      ensures next == Spec.Ipv6LeasedTick(old(View()), w).next && View() == Spec.Ipv6LeasedTick(old(View()), w).s
    {
      hide Spec.PhysicalInterfaceDown; hide Spec.Ipv6Down; hide Spec.StandbyDeconfigIps; hide Spec.ServeIpv6;
      if Spec.Torn(cfg) {
        next := PhysicalInterfaceDown(w);
      } else if v6.st == IpDown || Spec.VlanIsDown(cfg) || Spec.PppIsNotUp(cfg) ||
                (cfg.refreshDhcp && !Spec.WantsV6(cfg)) {
        next := Ipv6Down(w);
      } else if cfg.sel != Active || cfg.nwModeChanged {
        next := StandbyDeconfigIps();
      } else {
        next := ServeIpv6(w);
      }
    }

    method Ipv6LeasedTick(w: World) returns (next: SmState)
      modifies this
      ensures next == Spec.OnIpv6Leased(old(View()), w).next && View() == Spec.OnIpv6Leased(old(View()), w).s
    {
      hide Spec.MonitorDhcpApps; hide Spec.Ipv6LeasedTick;
      if cfg.refreshDhcp && cfg.v4Source == DhcpSource && cfg.mode == DualStack && mode.timer != Complete &&
         v4.client != Started {
        StartDhcpv4(w.pid4.At(AtModeRefresh));
      }
      MonitorDhcpApps(w);
      next := CheckIpv6Leased(w);
    }

    method ServeDualStack(w: World) returns (next: SmState)
      requires cfg.sel == Active
      modifies this
      ensures next == Spec.ServeDualStack(old(View()), w).next && View() == Spec.ServeDualStack(old(View()), w).s
    {
      hide Spec.ReapplyV4; hide Spec.ReapplyV6; hide Spec.MaptUpTransition; hide Spec.RefreshFeature;
      hide Spec.RenewV4; hide Spec.RenewV6; hide Spec.MonitorDhcpApps;
      if v4.changed {
        ReapplyIpv4(w);
      } else if v6.changed {
        ReapplyIpv6(w);
      } else if Spec.AppliesMapt(View()) {
        if w.lanReady {
          next := SwitchMaptOn(w);
          return;
        }
      } else if Spec.RefreshesMapt(View()) {
        if w.maptFeature {
          next := RefreshFeature(w);
          return;
        }
      } else if v4.renewed {
        RenewIpv4();
      } else if v6.renewed {
        RenewIpv6();
      }
      MonitorDhcpApps(w);
      next := DualStackActive;
    }

    method DualStackTick(w: World) returns (next: SmState)
      modifies this
      ensures next == Spec.OnDualStackActive(old(View()), w).next && View() == Spec.OnDualStackActive(old(View()), w).s
    {
      hide Spec.PhysicalInterfaceDown; hide Spec.DualStackDown; hide Spec.Ipv4Down; hide Spec.Ipv6Down;
      hide Spec.StandbyDeconfigIps; hide Spec.ServeDualStack;
      if Spec.Torn(cfg) {
        next := PhysicalInterfaceDown(w);
      } else if Spec.VlanIsDown(cfg) || Spec.PppIsNotUp(cfg) {
        next := DualStackDown(w);
      } else if v4.st == IpDown || (cfg.refreshDhcp && !Spec.WantsV4(cfg)) {
        next := Ipv4Down(w);
      } else if cfg.sel != Active || cfg.nwModeChanged {
        next := StandbyDeconfigIps();
      } else if !v4.changed && (v6.st == IpDown || (cfg.refreshDhcp && !Spec.WantsV6(cfg))) {
        next := Ipv6Down(w);
      } else {
        next := ServeDualStack(w);
      }
    }

    method KeepMapt(w: World)
      modifies `v6, `mapt, `checkRunning
      ensures View() == Spec.KeepMapt(old(View()), w)
    {
      if cfg.maptFeatureChanged {
        return;
      } else if v6.changed {
        ReapplyIpv6(w);
        if !v6.changed && Spec.AppliesMapt(View()) {
          mapt := mapt.(changed := true);
        }
      } else if mapt.changed {
        if w.tearDownMaptOk && w.setUpMaptOk && w.verifyMaptOk && w.processMaptOk {
          mapt := mapt.(changed := false);
        }
      } else if v6.renewed {
        RenewIpv6();
      }
    }

    method ServeMapt(w: World) returns (next: SmState)
      requires cfg.sel == Active
      modifies this
      ensures next == Spec.ServeMapt(old(View()), w).next && View() == Spec.ServeMapt(old(View()), w).s
    {
      hide Spec.MaptDownTransition; hide Spec.MaptFeatureRefresh; hide Spec.KeepMapt; hide Spec.MonitorDhcpApps;
      if cfg.maptFeatureChanged && !w.maptFeature {
        cfg := cfg.(maptFeatureChanged := false);
        var _ := SwitchMaptOff(w);
        next := MaptFeatureRefresh(w);
        return;
      }
      KeepMapt(w);
      MonitorDhcpApps(w);
      next := MaptActive;
    }

    method MaptTick(w: World) returns (next: SmState)
      modifies this
      ensures next == Spec.OnMaptActive(old(View()), w).next && View() == Spec.OnMaptActive(old(View()), w).s
    {
      hide Spec.PhysicalInterfaceDown; hide Spec.StandbyDeconfigIps; hide Spec.MaptDownTransition; hide Spec.ServeMapt;
      if Spec.Torn(cfg) {
        next := PhysicalInterfaceDown(w);
      } else if cfg.sel != Active || cfg.nwModeChanged {
        next := StandbyDeconfigIps();
      } else if Spec.LeavesMapt(View()) {
        next := SwitchMaptOff(w);
      } else {
        next := ServeMapt(w);
      }
    }

    method RefreshingTick(w: World) returns (next: SmState)
      requires Spec.Finds(RefreshingWan, View())
      modifies this
      ensures next == Spec.OnRefreshingWan(old(View()), w).next && View() == Spec.OnRefreshingWan(old(View()), w).s
    {
      hide Spec.PhysicalInterfaceDown; hide Spec.WanRefreshed;
      if Spec.Blocked(cfg) {
        cfg := cfg.(reset := false, vlanReset := false);
        vlan := vlan.(expired := false);
        next := PhysicalInterfaceDown(w);
        return;
      }
      if cfg.pppEnable {
        if cfg.pppLink != LinkDown {
          return RefreshingWan;
        }
      }
      if cfg.vlanEnable {
        if cfg.vlanStatus != LinkDown {
          return RefreshingWan;
        }
      }
      next := WanRefreshed(w);
    }

    method DeconfiguringTick() returns (next: SmState)
      modifies this
      ensures next == Spec.OnDeconfiguringWan(old(View())).next && View() == Spec.OnDeconfiguringWan(old(View())).s
    {
      if cfg.pppEnable {
        if cfg.pppLink != LinkDown {
          return DeconfiguringWan;
        }
      }
      if cfg.vlanEnable {
        if cfg.vlanStatus != LinkDown {
          return DeconfiguringWan;
        }
      }
      next := Leave();
    }

    // ---- the thread ----

    /** wanmgr_handle_dhcpv4_event_data */
    method TakeIpv4Message(w: World)
      modifies `v4, `status
      ensures View() == DrainV4(old(View()), w)
    {
      if v4.mail.None? {
        return;
      }
      var m := v4.mail.value;
      if m.lease.gateway == NO_GATEWAY {
        v4 := v4.(mail := None);
        if status != OnStandby && status != StatusUp {
          status := Valid;
        }
        return;
      }
      var configChanged := v4.lease != m.lease;
      if m.addressAssigned {
        if configChanged {
          v4 := v4.(changed := true);
        } else {
          v4 := v4.(renewed := true);
        }
        v4 := v4.(lease := m.lease);
        if !w.broadcastOk {
          return;
        }
        v4 := v4.(st := IpUp);
      } else if m.isExpired {
        v4 := v4.(lease := m.lease);
        ConnectionDown();
      }
      v4 := v4.(mail := None);
    }

    /** The lease under construction: halves that the message leaves out are copied from the current lease. */
    method MergeLease(m: V6Message, w: World) returns (new': V6Lease, connected: bool)
      modifies `v6, `mapt
      ensures v6 == (if RemovesPrefix(m, old(v6).lease) then Lost6(old(v6)) else old(v6))
      ensures mapt == (if RemovesPrefix(m, old(v6).lease) then MaptStopped(old(mapt)) else old(mapt))
      ensures connected == Connects(m, old(v6).lease, w)
      ensures new' == NewLease(m, old(v6).lease, v6.lease, w)
    {
      new', connected := m.lease, false;
      var addressAssigned := m.lease.addr.given;
      if addressAssigned {
        if m.lease.addr.cmd == AddrAdd {
          connected := true;
        }
      } else if v6.lease.addr.given && new'.prefix.given {
        new' := new'.(addr := AddressHalf(true, v6.lease.addr.cmd, v6.lease.addr.address));
        addressAssigned := true;
      }
      if m.lease.prefix.given && m.lease.prefix.sitePrefix != "" {
        if m.lease.prefix.cmd == AddrAdd && m.lease.prefix.pltime != 0 && m.lease.prefix.vltime != 0 {
          connected := true;
        } else if v6.lease.prefix.sitePrefix == m.lease.prefix.sitePrefix {
          ConnectionIpv6Down();
        }
      } else if v6.lease.prefix.given && new'.addr.given {
        new' := new'.(prefix := v6.lease.prefix.(given := true));
      }
      if !addressAssigned && w.globalAddr.Some? {
        connected := true;
        if v6.lease.addr.address != w.globalAddrWithLen {
          new' := new'.(addr := new'.addr.(address := w.globalAddr.value));
        }
      }
    }

    method TakeMaptOption(m: V6Message)
      modifies `mapt
      ensures mapt == HandleMapt(old(mapt), m)
    {
      match m.mapt {
        case Some(p) =>
          if p != mapt.params {
            mapt := mapt.(changed := true);
          }
          mapt := mapt.(params := p);
          mapt := mapt.(status := MaptUp);
        case None =>
          if AddsPrefixLifetimes(m) {
            mapt := mapt.(params := "");
            mapt := mapt.(status := MaptDown, changed := false);
          }
      }
    }

    /** wanmgr_handle_dhcpv6_event_data */
    method TakeIpv6Message(w: World)
      modifies `v6, `mapt
      ensures View() == DrainV6(old(View()), w)
    {
      if v6.mail.None? {
        return;
      }
      var m := v6.mail.value;
      if m.isExpired {
        ConnectionIpv6Down();
        v6 := v6.(mail := None);
        return;
      }
      hide NewLease; hide Connects; hide RemovesPrefix; hide Lost6; hide HandleMapt; hide Differs;
      var new', connected := MergeLease(m, w);
      if connected {
        if Differs(new', v6.lease) {
          v6 := v6.(changed := true);
        } else {
          v6 := v6.(renewed := true);
        }
        v6 := v6.(lease := new');
        v6 := v6.(st := IpUp);
      }
      TakeMaptOption(m);
      v6 := v6.(mail := None);
    }

    method Dispatch(state: SmState, w: World) returns (next: SmState)
      requires Spec.Finds(state, View())
      modifies this
      ensures next == Spec.Handle(state, old(View()), w).next && View() == Spec.Handle(state, old(View()), w).s
    {
      match state
      case VlanConfiguring => next := VlanConfiguringTick(w);
      case PppConfiguring => next := PppConfiguringTick(w);
      case ValidatingWan => next := ValidatingTick(w);
      case ObtainingIp => next := ObtainingTick(w);
      case Ipv4Leased => next := Ipv4LeasedTick(w);
      case Ipv6Leased => next := Ipv6LeasedTick(w);
      case DualStackActive => next := DualStackTick(w);
      case MaptActive => next := MaptTick(w);
      case RefreshingWan => next := RefreshingTick(w);
      case DeconfiguringWan => next := DeconfiguringTick();
      case Standby => next := StandbyTick(w);
      case Exit =>
        ClearDhcpData();
        next := Exit;
    }
  }

  /** One round of the loop of WanMgr_InterfaceSMThread, after the other threads did their part. */
  method Round(f: VirtualInterface, state: SmState, w: World) returns (next: SmState)
    requires Spec.Finds(state, Drain(f.View(), w).(current := state))
    modifies f
    ensures var s := Drain(old(f.View()), w).(current := state);
            next == Spec.Handle(state, s, w).next && f.View() == Spec.Handle(state, s, w).s
  {
    hide Spec.Handle; hide HandleV4; hide HandleV6;
    f.TakeIpv4Message(w);
    f.TakeIpv6Message(w);
    f.current := state;
    next := f.Dispatch(state, w);
  }

  /** Other threads work on the same record between two rounds. */
  method OtherThreads(f: VirtualInterface, events: seq<Runs.Event>)
    modifies f
    ensures f.View() == Runs.Environment(old(f.View()), events)
  {
    var n := 0;
    while n < |events|
      invariant n <= |events|
      invariant Runs.Environment(old(f.View()), events) == Runs.Environment(f.View(), events[n..])
    {
      match events[n] {
        case Configure(c) =>
          f.cfg := c;
        case Offer4(m) =>
          if f.running && f.v4.mail.None? {
            f.v4 := f.v4.(mail := Some(m));
          }
        case Offer6(m) =>
          if f.running && f.v6.mail.None? {
            f.v6 := f.v6.(mail := Some(m));
          }
        case PrefixClear(named) =>
          f.v6 := f.v6.(conn := false);
          if named {
            f.ConnectionIpv6Down();
          }
        case WriteIpv4Status(up) =>
          f.v4 := f.v4.(st := if up then IpUp else IpDown);
        case WriteIpv6Status(up) =>
          f.v6 := f.v6.(st := if up then IpUp else IpDown);
        case WriteMaptStatus(up) =>
          f.mapt := f.mapt.(status := if up then MaptUp else MaptDown);
      }
      assert events[n..][1..] == events[n + 1..];
      n := n + 1;
    }
  }

  /** One pass of the loop while the thread lives; afterwards only the other threads work on the record. */
  method Pass(f: VirtualInterface, state: SmState, alive: bool, i: Runs.Input) returns (next: SmState, goesOn: bool)
    requires Runs.CanStep(Runs.Machine(state, alive, f.View()), i) && !i.launch
    modifies f
    ensures Runs.Step(Runs.Machine(state, alive, old(f.View())), i) == Runs.Machine(next, goesOn, f.View())
  {
    hide Spec.Handle; hide Drain;
    OtherThreads(f, i.events);
    hide Runs.Environment;
    next, goesOn := state, alive;
    if alive {
      next := Round(f, state, i.w);
      goesOn := state != Exit;
    }
  }

  /** The loop of the thread: its whole history is a run. */
  method Loop(f: VirtualInterface, m: Runs.Machine, inputs: seq<Runs.Input>) returns (state: SmState, alive: bool)
    requires f.View() == m.s && m.alive && Runs.Runnable(m, inputs)
    requires forall i | i in inputs :: !i.launch
    modifies f
    ensures Runs.Run(m, inputs) == Runs.Machine(state, alive, f.View())
  {
    hide Runs.Step;
    state, alive := m.st, true;
    var n := 0;
    while n < |inputs|
      invariant n <= |inputs| && Runs.Runnable(Runs.Machine(state, alive, f.View()), inputs[n..])
      invariant Runs.Run(m, inputs) == Runs.Run(Runs.Machine(state, alive, f.View()), inputs[n..])
    {
      assert inputs[n..][0] == inputs[n] && inputs[n..][1..] == inputs[n + 1..];
      state, alive := Pass(f, state, alive, inputs[n]);
      n := n + 1;
    }
  }

  /** The start of the thread is the launch of a run. */
  method Launch(f: VirtualInterface, i: Runs.Input) returns (state: SmState)
    requires Runs.CanStep(Runs.Machine(Exit, false, f.View()), i) && i.launch
    modifies f
    ensures Runs.Step(Runs.Machine(Exit, false, old(f.View())), i) == Runs.Machine(state, true, f.View())
  {
    hide Spec.Start;
    OtherThreads(f, i.events);
    hide Runs.Environment;
    state := f.Start(i.w);
  }

  /**
   What the theorems about runs say of a thread: the record it leaves is fit and published as the state asks, every
   round connects unless it slips, the cover lasts unless it lapses, without service the sysevents are down unless a
   round strays, and the layers came in order.
   */
  ghost predicate Accounted(m: Runs.Machine, inputs: seq<Runs.Input>, state: SmState, s: Iface)
    requires Runs.Runnable(m, inputs)
  {
    && Invariant.Fit(state, s) && (s.status == Disabled <==> state == Exit) && (s.running <==> state != Exit)
    && (state == Standby ==> s.status == OnStandby)
    && (Runs.NeverSlips(m, inputs) && Spec.Leased(state) ==> s.status == StatusUp)
    && Claims.ConnectsUnlessSlips(m, inputs)
    && (Runs.AlwaysCovered(m, inputs) <==> Runs.NeverLapses(m, inputs))
    && (Leaving.Tidy(m.st, m.s) ==> (Leaving.AlwaysTidy(m, inputs) <==> Leaving.NeverStrays(m, inputs)))
    && Claims.Climbed(Claims.Trace(m, inputs), state) && forall k | k in Claims.Trace(m, inputs) :: Claims.ByActive(k)
  }

  lemma RunIsAccounted(m: Runs.Machine, inputs: seq<Runs.Input>)
    requires m.st == Exit && Runs.Inv(m) && Runs.Runnable(m, inputs)
    ensures var n := Runs.Run(m, inputs); Accounted(m, inputs, n.st, n.s) && (!n.alive ==> n.st == Exit)
  {
    hide Runs.Step; hide Runs.CanStep; hide Invariant.Fit; hide Claims.ConnectsUnlessSlips; hide Claims.ByActive;
    hide Runs.AlwaysCovered; hide Runs.NeverLapses; hide Leaving.AlwaysTidy; hide Leaving.NeverStrays;
    hide Runs.AlwaysUpright; hide Runs.NeverSlips;
    Runs.RunKeeps(m, inputs);
    Claims.StatusFitsState(m, inputs);
    Claims.EveryRoundConnects(m, inputs);
    Runs.CoverStays(m, inputs);
    if Leaving.Tidy(m.st, m.s) {
      Leaving.SyseventsStayTidy(m, inputs);
    }
    assert Claims.Climbed([], Exit);
    Claims.LayersComeInOrder(m, inputs, []);
    assert [] + Claims.Trace(m, inputs) == Claims.Trace(m, inputs);
  }

  /**
   WanMgr_InterfaceSMThread from its start through any number of passes: it does what the run does, and on the record
   that an ended machine left it is accounted for by the theorems about runs.
   */
  method Thread(f: VirtualInterface, i: Runs.Input, inputs: seq<Runs.Input>) returns (state: SmState, alive: bool)
    requires i.launch && Runs.Runnable(Runs.Machine(Exit, false, f.View()), [i] + inputs)
    requires forall j | j in inputs :: !j.launch
    modifies f
    ensures var m := Runs.Machine(Exit, false, old(f.View()));
            && Runs.Run(m, [i] + inputs) == Runs.Machine(state, alive, f.View())
            && (Runs.Inv(m) ==> Accounted(m, [i] + inputs, state, f.View()) && (!alive ==> state == Exit))
  {
    ghost var m := Runs.Machine(Exit, false, f.View());
    ghost var all := [i] + inputs;
    assert all[0] == i && all[1..] == inputs;
    hide Runs.Step; hide Runs.CanStep; hide Invariant.Fit; hide Accounted;
    state := Launch(f, i);
    state, alive := Loop(f, Runs.Machine(state, true, f.View()), inputs);
    if Runs.Inv(m) {
      RunIsAccounted(m, all);
    }
  }
}
