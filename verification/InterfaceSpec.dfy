/**
 The WAN interface state machine as functions of the interface record and of the answers the
 outside world gives during one tick. The class VirtualInterface does the same in place.
 */
module InterfaceSpec {
  import opened WanTypes
  import opened DhcpEvents

  /** What a transition or a state handler hands back: the next state and the new record. */
  datatype Move = Move(next: SmState, s: Iface)

  /** VLANInUse names the entry at ActiveIndex. */
  predicate NamesActive(s: Iface) {
    VlanEntry(s.vlan.activeIndex, s.vlan.inUse) in s.vlans
  }

  /** Discovery either stays where it is or moves to an entry of the list. */
  predicate Discovers(s: Iface, r: Iface) {
    (r.vlan.activeIndex == s.vlan.activeIndex && r.vlan.inUse == s.vlan.inUse) || NamesActive(r)
  }

  /** What no transition and no state handler touches. */
  predicate Kept(s: Iface, r: Iface) {
    && Leaves(s.v4.mail, r.v4.mail) && Leaves(s.v6.mail, r.v6.mail)
    && r.vlans == s.vlans && r.cfg.vlanEnable == s.cfg.vlanEnable && r.cfg.sel == s.cfg.sel && Discovers(s, r)
  }

  /** The connection-state sysevents are raised only for the interface the policy made active. */
  predicate RaisedByActive(s: Iface, r: Iface) {
    (r.v4.conn && !s.v4.conn) || (r.v6.conn && !s.v6.conn) ==> s.cfg.sel == Active
  }

  // ---- actions ----

  /** WanManager_StartDhcpv4Client and the bookkeeping after it: process id 0 means failure. */
  function StartV4(a: V4Side, pid: int): V4Side {
    a.(client := if pid == 0 then Failed else Started, pid := if pid == 0 then -1 else pid)
  }

  function StopV4(a: V4Side): V4Side {
    a.(client := Stopped, pid := 0)
  }

  function StartV6(a: V6Side, pid: int): V6Side {
    a.(client := if pid == 0 then Failed else Started, pid := if pid == 0 then -1 else pid)
  }

  function StopV6(a: V6Side): V6Side {
    a.(client := Stopped, pid := 0)
  }

  /** The connectivity check is (re)started, which leaves it running only when it was or is of the TAD kind. */
  predicate Checked(s: Iface) {
    s.checkRunning || s.cfg.checkType == TadCheck
  }

  function StartCheck(s: Iface): Iface {
    s.(checkRunning := Checked(s))
  }

  function ConfigureVlan(s: Iface, w: World): Iface {
    s.(cfg := s.cfg.(vlanStatus := LinkConfiguring),
       vlan := if |s.vlans| > 1 then s.vlan.(timerStart := w.now) else s.vlan)
  }

  /** WanManager_ClearDHCPData, one half each. */
  function Cleared4(a: V4Side): V4Side {
    V4Side(IpDown, false, false, NO_V4_LEASE, None, Stopped, 0, a.conn)
  }

  function Cleared6(a: V6Side): V6Side {
    V6Side(IpDown, false, false, NO_V6_LEASE, None, Stopped, 0, a.conn)
  }

  function ClearDhcpData(s: Iface): Iface {
    s.(v4 := Cleared4(s.v4), v6 := Cleared6(s.v6))
  }

  // ---- conditions ----

  /** The five conditions every state but DECONFIGURING checks first. */
  predicate Blocked(c: Config) {
    !c.wanEnable || !c.selEnable || !c.enable || c.sel == NotSelected || c.phy != PhyUp
  }

  predicate Torn(c: Config) {
    Blocked(c) || c.reset || c.vlanReset
  }

  predicate VlanIsDown(c: Config) {
    c.vlanEnable && c.vlanStatus == LinkDown
  }

  predicate PppIsNotUp(c: Config) {
    c.pppEnable && c.pppLink != LinkUp
  }

  predicate WantsV4(c: Config) {
    c.v4Source == DhcpSource && (c.mode == Ipv4Only || c.mode == DualStack)
  }

  predicate WantsV6(c: Config) {
    c.v6Source == DhcpSource && (c.mode == Ipv6Only || c.mode == DualStack)
  }

  /** The first entry of the discovery list has Index 0, as in every list built at boot. */
  predicate Listed(vlans: seq<VlanEntry>) {
    vlans != [] && vlans[0].index == 0
  }

  predicate VlanTimerExpired(s: Iface, w: World) {
    |s.vlans| > 1 && (s.cfg.vlanReset || w.now - s.vlan.timerStart > s.cfg.vlanTimeout)
  }

  predicate Leased(st: SmState) {
    st == Ipv4Leased || st == Ipv6Leased || st == DualStackActive || st == MaptActive
  }

  // ---- which state can follow which, and under which condition ----

  predicate Follows(st: SmState, c: Config, next: SmState) {
    match next
    case VlanConfiguring => st == VlanConfiguring || st == RefreshingWan
    case PppConfiguring => st == PppConfiguring || (st == VlanConfiguring && (c.vlanEnable ==> c.vlanStatus == LinkUp))
    case ValidatingWan => st == PppConfiguring && (c.pppEnable ==> c.pppLink == LinkUp)
    case ObtainingIp => st == ValidatingWan || st == ObtainingIp || st == Standby || Leased(st)
    case Standby => st == ObtainingIp || st == Standby || Leased(st)
    case DualStackActive =>
      st == DualStackActive || ((Leased(st) || st == ObtainingIp || st == Standby) && c.sel == Active)
    case MaptActive => st == MaptActive || ((st == Ipv6Leased || st == DualStackActive) && c.sel == Active)
    case Exit => st == Exit || (st == DeconfiguringWan && !LinksBusy(c))
    case RefreshingWan => st != Exit && st != DeconfiguringWan
    case DeconfiguringWan => st != Exit
    case _ => Leased(st) || ((st == ObtainingIp || st == Standby) && c.sel == Active)
  }

  // ---- transitions ----

  /** WanMgr_getVirtVlanIfById, as a position. */
  function FindVlan(vlans: seq<VlanEntry>, index: int): (r: Option<nat>)
    ensures r.Some? ==> r.value < |vlans|
  {
    if vlans == [] then None
    else if vlans[0].index == index then Some(0)
    else match FindVlan(vlans[1..], index) case Some(k) => Some(k + 1) case None => None
  }

  /** The entry that the start of a thread dereferences exists. */
  predicate StartFinds(s: Iface) {
    VlanIsDown(s.cfg) && s.cfg.ifaceType != RemoteIface && s.vlan.inUse == "" ==> FindVlan(s.vlans, 0).Some?
  }

  /** An enabled VLAN that is down is configured, the first one of the list when none was chosen before. */
  function StartVlan(s: Iface, w: World): Iface
    requires StartFinds(s)
  {
    if VlanIsDown(s.cfg) && s.cfg.ifaceType != RemoteIface then
      ConfigureVlan(if s.vlan.inUse == "" then
                      var e := s.vlans[FindVlan(s.vlans, 0).value];
                      s.(vlan := s.vlan.(activeIndex := 0, inUse := e.name)) else s, w)
    else s
  }

  function FoundPpp(c: Config, w: World): (r: Config)
    ensures r.ifaceType == c.ifaceType && r.vlanEnable == c.vlanEnable && r.vlanStatus == c.vlanStatus
  {
    if c.pppEnable && w.pppFound then c.(pppLink := LinkUp, ipv6cpUp := true) else c
  }

  /** WanMgr_RestartFindExistingLink: links that survived a restart of the manager are taken over. */
  function FoundLinks(c: Config, inUse: string, w: World): (r: Config)
    ensures r.ifaceType == c.ifaceType && r.vlanEnable == c.vlanEnable
    ensures r.vlanStatus == c.vlanStatus || r.vlanStatus == LinkUp
  {
    hide FoundPpp;
    var c1 := FoundPpp(c, w);
    if c.vlanEnable && inUse != "" && w.vlanFound then c1.(vlanStatus := LinkUp) else c1
  }

  function Initialised(s: Iface, w: World): (r: Iface)
    ensures StartFinds(s) ==> StartFinds(r)
  {
    s.(cfg := FoundLinks(s.cfg, s.vlan.inUse, w), status := Initialising,
       v4 := s.v4.(st := IpDown), v6 := s.v6.(st := IpDown), mapt := s.mapt.(status := MaptDown))
  }

  function Start(s: Iface, w: World): Move
    requires StartFinds(s)
  {
    var r := StartVlan(Initialised(s, w), w);
    Move(VlanConfiguring, r.(running := true, mode := r.mode.(selected := w.startMode)))
  }

  function PppConfigure(s: Iface): Move {
    Move(PppConfiguring,
         if s.cfg.pppEnable && s.cfg.pppLink == LinkDown then s.(cfg := s.cfg.(pppLink := LinkConfiguring)) else s)
  }

  function WanUp(s: Iface): Move {
    Move(ValidatingWan, s.(status := Validating))
  }

  /** MAP-T is preferred and its head start is not over: only DHCPv6 is started. */
  predicate PrefersMapt(s: Iface) {
    s.mode.selected == MaptMode && s.mode.timer != Expired
  }

  /** Leases are wiped before clients start, except when the head start of MAP-T just ended. */
  predicate WipesLeases(s: Iface) {
    (s.cfg.v4Source == DhcpSource || s.cfg.v6Source == DhcpSource) && s.mode.timer != Expired
  }

  function Validated4(s: Iface, w: World): (r: V4Side)
    ensures r.conn == s.v4.conn && Leaves(s.v4.mail, r.mail)
  {
    var a := if WipesLeases(s) then Cleared4(s.v4) else s.v4;
    if !PrefersMapt(s) && WantsV4(s.cfg) then StartV4(a, w.pid4.At(AtValidated)) else a
  }

  function Validated6(s: Iface, w: World): (r: V6Side)
    ensures r.conn == s.v6.conn && Leaves(s.v6.mail, r.mail)
  {
    var a := if WipesLeases(s) then Cleared6(s.v6) else s.v6;
    if PrefersMapt(s) || (WantsV6(s.cfg) && a.client != Started) then StartV6(a, w.pid6.At(AtValidated)) else a
  }

  /** A remote interface gets its local address, unless the PPP query failed before. */
  function WithUla(s: Iface, a: V6Side, w: World): V6Side {
    if s.cfg.ifaceType == RemoteIface && !(s.cfg.pppEnable && w.ppp == PppQueryFailed)
    then a.(lease := a.lease.(addr := a.lease.addr.(address := w.ulaAddress))) else a
  }

  function WanValidated(s: Iface, w: World): (r: Move)
    ensures r.next == ObtainingIp
    ensures Kept(s, r.s) && RaisedByActive(s, r.s)
  {
    Move(ObtainingIp,
         s.(v4 := Validated4(s, w), v6 := WithUla(s, Validated6(s, w), w),
            mode := if PrefersMapt(s) then s.mode.(timer := Running, start := w.now) else s.mode,
            cfg := if s.cfg.pppEnable && w.ppp == PppNotConnected then s.cfg.(ipv6cpUp := false) else s.cfg))
  }

  /** The entry VLAN discovery tries next. */
  function NextVlan(vlans: seq<VlanEntry>, active: int, reset: bool): (e: VlanEntry)
    requires vlans != []
    ensures e in vlans
  {
    if reset || active == -1 then vlans[0]
    else match FindVlan(vlans, active)
         case Some(k) => if k + 1 < |vlans| then vlans[k + 1] else vlans[0]
         case None => vlans[0]
  }

  /** The list that a refresh after a timeout or a reset dereferences is not empty. */
  predicate RefreshFinds(s: Iface) {
    VlanIsDown(s.cfg) && s.cfg.ifaceType != RemoteIface && (s.vlan.expired || s.cfg.vlanReset) ==> s.vlans != []
  }

  /** The VLAN to configure: the next one when discovery timed out or was reset, otherwise the one in use. */
  function WithNextVlan(s: Iface): (r: Iface)
    requires s.vlan.expired || s.cfg.vlanReset ==> s.vlans != []
    ensures r == s.(vlan := r.vlan) && r.vlan == s.vlan.(activeIndex := r.vlan.activeIndex, inUse := r.vlan.inUse)
  {
    if s.vlan.expired || s.cfg.vlanReset then
      var e := NextVlan(s.vlans, s.vlan.activeIndex, s.cfg.vlanReset);
      s.(vlan := s.vlan.(activeIndex := e.index, inUse := e.name))
    else s
  }

  function WanRefreshed(s: Iface, w: World): (r: Move)
    requires RefreshFinds(s)
    ensures Kept(s, r.s)
  {
    var s1 := if VlanIsDown(s.cfg) && s.cfg.ifaceType != RemoteIface then ConfigureVlan(WithNextVlan(s), w) else s;
    Move(VlanConfiguring,
         s1.(cfg := s1.cfg.(reset := false, vlanReset := false), vlan := s1.vlan.(expired := false)))
  }

  function Ipv4Up(s: Iface): Move {
    Move(if s.v6.st == IpUp && s.v6.conn then DualStackActive else Ipv4Leased,
         s.(status := StatusUp, v4 := s.v4.(conn := true, changed := false, renewed := false),
            checkRunning := Checked(s)))
  }

  predicate StopsV4(c: Config) {
    Torn(c) || VlanIsDown(c) || (c.refreshDhcp && !WantsV4(c))
  }

  /** Where a machine stands that just lost IPv4. */
  function WithoutV4(a: V6Side): SmState {
    if a.st == IpUp && a.conn then Ipv6Leased else ObtainingIp
  }

  function WithoutV6(a: V4Side): SmState {
    if a.st == IpUp && a.conn then Ipv4Leased else ObtainingIp
  }

  function StatusWithout(next: SmState, status: IfaceStatus): IfaceStatus {
    if next == ObtainingIp then Validating else status
  }

  function Ipv4DownClient(s: Iface, w: World): (r: V4Side)
    ensures r == s.v4.(client := r.client, pid := r.pid)
  {
    if StopsV4(s.cfg) then (if s.v4.client == Started then StopV4(s.v4) else s.v4)
    else if s.v4.client != Started && !s.cfg.pppEnable && !AppliesMapt(s) then StartV4(s.v4, w.pid4.At(AtIpv4Down))
    else s.v4
  }

  function Ipv4Down(s: Iface, w: World): (r: Move)
    ensures Kept(s, r.s) && RaisedByActive(s, r.s)
  {
    var next := WithoutV4(s.v6);
    var a := Lost4(Ipv4DownClient(s, w));
    Move(next, s.(v4 := if s.status == StatusUp then a.(conn := false) else a,
                  status := StatusWithout(next, s.status), checkRunning := Checked(s)))
  }

  function Ipv6Up(s: Iface): Move {
    Move(if s.v4.st == IpUp && s.v4.conn then DualStackActive else Ipv6Leased,
         s.(status := StatusUp, v6 := s.v6.(conn := true), checkRunning := Checked(s)))
  }

  predicate StopsV6(c: Config) {
    Torn(c) || VlanIsDown(c) || PppIsNotUp(c) || (c.refreshDhcp && !WantsV6(c))
  }

  function Ipv6DownClient(s: Iface, w: World): (r: V6Side)
    ensures r == s.v6.(client := r.client, pid := r.pid)
  {
    if StopsV6(s.cfg) then StopV6(s.v6)
    else if s.v6.client != Started then StartV6(s.v6, w.pid6.At(AtIpv6Down))
    else s.v6
  }

  function Ipv6Down(s: Iface, w: World): (r: Move)
    ensures Kept(s, r.s) && RaisedByActive(s, r.s)
  {
    var next := WithoutV6(s.v4);
    Move(next, s.(v6 := Lost6(Ipv6DownClient(s, w)), mapt := MaptStopped(s.mapt),
                  status := StatusWithout(next, s.status), checkRunning := Checked(s)))
  }

  function DualStackDown(s: Iface, w: World): (r: Move)
    ensures Kept(s, r.s) && RaisedByActive(s, r.s)
  {
    var s1 := Ipv4Down(s.(status := Validating), w).s;
    Move(ObtainingIp, Ipv6Down(s1, w).s)
  }

  /** The DHCPv6 client after the lease was dropped for a changed MAP-T feature. */
  function FeatureClient(a: V6Side, c: Config, w: World): V6Side {
    if !WantsV6(c) then a
    else if w.stop6Ok then StartV6(StopV6(a), w.pid6.At(AtFeatureRefresh))
    else StopV6(a)
  }

  function MaptFeatureRefresh(s: Iface, w: World): (r: Move)
    ensures r.next == ObtainingIp
    ensures Kept(s, r.s) && RaisedByActive(s, r.s)
  {
    var s1 := Ipv6Down(s, w).s;
    var a := s1.v6.(st := IpDown, changed := false, renewed := false, lease := NO_V6_LEASE, mail := None);
    Move(ObtainingIp, s1.(v6 := FeatureClient(a, s1.cfg, w)))
  }

  /** The IPv4 part of wan_transition_mapt_up: native IPv4 gives way to MAP-T. */
  function MaptTakesOver(s: Iface, w: World): (r: Iface)
    ensures Kept(s, r)
  {
    var s1 := s.(mapt := s.mapt.(changed := false));
    var s2 := if s1.v4.changed && s1.v4.st == IpUp then Ipv4Up(s1).s else s1;
    var s3 := if s2.v4.client == Started then s2.(v4 := StopV4(s2.v4)) else s2;
    if s3.v4.st == IpUp then Ipv4Down(s3, w).s else s3
  }

  function MaptUpTransition(s: Iface, w: World): (r: Move)
    ensures Kept(s, r.s)
  {
    if !w.verifyMaptOk then Move(s.current, s)
    else Move(if w.processMaptOk then MaptActive else s.current, MaptTakesOver(s, w))
  }

  function MaptDown4(s: Iface, w: World): V4Side {
    var a := Lost4(s.v4).(lease := NO_V4_LEASE, mail := None);
    if !Torn(s.cfg) && s.cfg.sel == Active && !s.cfg.pppEnable then StartV4(a, w.pid4.At(AtMaptDown)) else a
  }

  function MaptDownTransition(s: Iface, w: World): (r: Move)
    ensures Kept(s, r.s) && RaisedByActive(s, r.s)
  {
    Move(Ipv6Leased, s.(v4 := MaptDown4(s, w), mapt := MaptStopped(s.mapt)))
  }

  // wan_transition_physical_interface_down, step by step: each step may run another transition
  // and drops the state it returns.

  function DropMapt(s: Iface, w: World): (r: Iface)
    ensures Kept(s, r) && RaisedByActive(s, r)
  {
    if s.mapt.status == MaptUp then MaptDownTransition(s, w).s else s
  }

  function DropV4(s: Iface, w: World): Iface {
    if s.v4.st == IpUp then Ipv4Down(s, w).s else s
  }

  function DropV6(s: Iface, w: World): Iface {
    if s.v6.st == IpUp then Ipv6Down(s, w).s else s
  }

  function DropClients(s: Iface): Iface {
    s.(v4 := if s.v4.client == Started then StopV4(s.v4) else s.v4,
       v6 := if s.v6.client == Started then StopV6(s.v6) else s.v6,
       mode := s.mode.(timer := NotStarted), checkRunning := false)
  }

  /** A link that was still being set up does not exist yet, so it is down at once. */
  function DroppedPpp(c: Config): LinkState {
    if c.pppEnable && c.pppLink == LinkConfiguring then LinkDown else c.pppLink
  }

  function DroppedVlan(c: Config): LinkState {
    if c.vlanEnable && c.ifaceType != RemoteIface && c.vlanStatus == LinkConfiguring then LinkDown else c.vlanStatus
  }

  function DropLinks(c: Config): Config {
    c.(pppLink := DroppedPpp(c), vlanStatus := DroppedVlan(c))
  }

  /** MAP-T, IPv4, IPv6 and the clients, in this order. */
  function Dropped(s: Iface, w: World): (r: Iface)
    ensures Kept(s, r) && RaisedByActive(s, r)
  {
    DropClients(DropV6(DropV4(DropMapt(s, w), w), w))
  }

  function PhysicalInterfaceDown(s: Iface, w: World): (r: Move)
    ensures r.next == RefreshingWan || r.next == DeconfiguringWan
    ensures Kept(s, r.s) && RaisedByActive(s, r.s)
  {
    var s1 := Dropped(s, w);
    Move(if s.cfg.reset || s.cfg.vlanReset || s.vlan.expired then RefreshingWan else DeconfiguringWan,
         s1.(cfg := DropLinks(s1.cfg)))
  }

  function ExitTransition(s: Iface): Move {
    Move(Exit, s.(status := Disabled, cfg := s.cfg.(reset := false), running := false))
  }

  function StandbyTransition(s: Iface): Move {
    Move(Standby, s.(status := OnStandby, checkRunning := Checked(s)))
  }

  function StandbyDeconfigIps(s: Iface): Move {
    Move(Standby,
         s.(status := OnStandby,
            v4 := if s.v4.st == IpUp then s.v4.(conn := false) else s.v4,
            v6 := if s.v6.st == IpUp then s.v6.(conn := false, changed := true) else s.v6,
            checkRunning := s.checkRunning && s.cfg.checkType != IhcCheck))
  }

  // ---- self-healing ----

  predicate ClientDied(pid: int, alive: bool) {
    pid == -1 || (pid > 0 && !alive)
  }

  predicate ModeApplied(s: Iface) {
    var on4 := s.v4.client == Started;
    var on6 := s.v6.client == Started;
    || ((s.cfg.v6Source != DhcpSource || s.cfg.mode == NoIp) && !on4 && !on6)
    || (s.cfg.mode == Ipv6Only && !on4 && on6)
    || (s.cfg.mode == Ipv4Only && on4 && !on6)
    || (s.cfg.mode == DualStack && on4 && on6)
  }

  predicate Restarts4(s: Iface, w: World) {
    && WantsV4(s.cfg) && !s.cfg.pppEnable && s.mapt.status == MaptDown && s.mode.timer != Running
    && ClientDied(s.v4.pid, w.alive4)
  }

  predicate Restarts6(s: Iface, w: World) {
    WantsV6(s.cfg) && ClientDied(s.v6.pid, w.alive6)
  }

  predicate Unwatched(c: Config) {
    !c.wanEnable || c.sel == NotSelected || !c.selEnable
  }

  /** Crashed clients are looked after unless a mode change is still being applied. */
  predicate Heals(c: Config) {
    !Unwatched(c) && !c.refreshDhcp
  }

  function Monitored4(s: Iface, w: World): (r: V4Side)
    ensures r == s.v4.(client := r.client, pid := r.pid)
  {
    if Heals(s.cfg) && Restarts4(s, w) then StartV4(s.v4, w.pid4.At(AtMonitor)) else s.v4
  }

  function Monitored6(s: Iface, w: World): (r: V6Side)
    ensures r == s.v6.(client := r.client, pid := r.pid)
  {
    if Heals(s.cfg) && Restarts6(s, w) then StartV6(s.v6, w.pid6.At(AtMonitor)) else s.v6
  }

  function MonitoredConfig(s: Iface): (r: Config)
    ensures r == s.cfg.(refreshDhcp := r.refreshDhcp, checkTypeChanged := r.checkTypeChanged)
  {
    if Unwatched(s.cfg) then s.cfg
    else if s.cfg.refreshDhcp then (if ModeApplied(s) then s.cfg.(refreshDhcp := false) else s.cfg)
    else if s.cfg.checkTypeChanged then s.cfg.(checkTypeChanged := false)
    else s.cfg
  }

  /** WanMgr_MonitorDhcpApps */
  function MonitorDhcpApps(s: Iface, w: World): Iface {
    s.(cfg := MonitoredConfig(s), v4 := Monitored4(s, w), v6 := Monitored6(s, w),
       checkRunning := if Heals(s.cfg) && s.cfg.checkTypeChanged then s.cfg.checkType == TadCheck else s.checkRunning)
  }

  // ---- state handlers ----

  function OnVlanConfiguring(s: Iface, w: World): (r: Move)
    ensures Follows(VlanConfiguring, s.cfg, r.next)
    ensures Kept(s, r.s) && RaisedByActive(s, r.s)
  {
    if Blocked(s.cfg) then PhysicalInterfaceDown(s, w)
    else if VlanTimerExpired(s, w) then PhysicalInterfaceDown(s.(vlan := s.vlan.(expired := true)), w)
    else if s.cfg.vlanEnable && s.cfg.vlanStatus != LinkUp then Move(VlanConfiguring, s)
    else PppConfigure(s)
  }

  function OnPppConfiguring(s: Iface, w: World): (r: Move)
    ensures Follows(PppConfiguring, s.cfg, r.next)
    ensures Kept(s, r.s) && RaisedByActive(s, r.s)
  {
    if Blocked(s.cfg) then PhysicalInterfaceDown(s, w)
    else if VlanTimerExpired(s, w) then PhysicalInterfaceDown(s.(vlan := s.vlan.(expired := true)), w)
    else if !s.cfg.pppEnable || (s.cfg.pppLink == LinkUp && !(WantsV6(s.cfg) && !s.cfg.ipv6cpUp)) then WanUp(s)
    else Move(PppConfiguring, s)
  }

  function OnValidatingWan(s: Iface, w: World): (r: Move)
    ensures Follows(ValidatingWan, s.cfg, r.next)
    ensures Kept(s, r.s) && RaisedByActive(s, r.s)
  {
    if Blocked(s.cfg) then PhysicalInterfaceDown(s, w)
    else if VlanTimerExpired(s, w) then PhysicalInterfaceDown(s.(vlan := s.vlan.(expired := true)), w)
    else WanValidated(s, w)
  }

  function Refreshed4(s: Iface, w: World): (r: V4Side)
    ensures r == s.v4.(client := r.client, pid := r.pid)
  {
    if WantsV4(s.cfg) then (if s.v4.client != Started then StartV4(s.v4, w.pid4.At(AtModeRefresh)) else s.v4)
    else if s.v4.client == Started then StopV4(s.v4) else s.v4
  }

  function Refreshed6(s: Iface, w: World): (r: V6Side)
    ensures r == s.v6.(client := r.client, pid := r.pid)
  {
    if WantsV6(s.cfg) then (if s.v6.client != Started then StartV6(s.v6, w.pid6.At(AtModeRefresh)) else s.v6)
    else if s.v6.client == Started then StopV6(s.v6) else s.v6
  }

  /** The Ip source or mode changed while obtaining addresses. */
  function RefreshClients(s: Iface, w: World): Iface {
    var a := Refreshed4(s, w);
    var b := Refreshed6(s, w);
    s.(v4 := a, v6 := b, cfg := s.cfg.(refreshDhcp := false),
       status := if a.client != Started && b.client != Started then Validating else s.status)
  }

  predicate RefreshesMapt(s: Iface) {
    s.cfg.enableMapt && s.cfg.sel == Active && s.cfg.maptFeatureChanged && s.mapt.status == MaptDown
  }

  function RefreshFeature(s: Iface, w: World): (r: Move)
    ensures Kept(s, r.s)
  {
    MaptFeatureRefresh(s.(cfg := s.cfg.(maptFeatureChanged := false)), w)
  }

  function TakeV6(s: Iface, w: World): (r: Move)
    ensures Follows(ObtainingIp, s.cfg, r.next)
    ensures Kept(s, r.s) && RaisedByActive(s, r.s)
  {
    if s.cfg.sel != Active then StandbyTransition(s)
    else if s.v6.changed then Move(ObtainingIp, s.(v6 := s.v6.(changed := false)))
    else if w.lanReady then Ipv6Up(s)
    else Move(ObtainingIp, s)
  }

  /** The part of OBTAINING_IP_ADDRESSES that reacts to an address. */
  function TakeAddress(s: Iface, w: World): (r: Move)
    ensures Follows(ObtainingIp, s.cfg, r.next)
    ensures Kept(s, r.s) && RaisedByActive(s, r.s)
  {
    if s.v4.st == IpUp then (if s.cfg.sel == Active then Ipv4Up(s) else StandbyTransition(s))
    else if s.v6.st == IpUp then TakeV6(s, w)
    else if RefreshesMapt(s) && w.maptFeature then RefreshFeature(s, w)
    else Move(ObtainingIp, s)
  }

  /** MAP-T has its head start: nothing else happens until it is over. */
  predicate InHeadStart(s: Iface) {
    s.mode.selected == MaptMode && s.mapt.status != MaptUp && s.mode.timer == Running
  }

  function HeadStart(s: Iface, w: World): (r: Move)
    ensures Follows(ObtainingIp, s.cfg, r.next)
    ensures Kept(s, r.s) && RaisedByActive(s, r.s)
  {
    if w.now - s.mode.start > SELECTED_MODE_TIMEOUT || s.v6.st == IpUp
    then WanValidated(s.(mode := s.mode.(timer := Expired)), w)
    else Move(ObtainingIp, s)
  }

  function CompleteMode(s: Iface): Iface {
    if s.mode.selected == MaptMode && s.mapt.status == MaptUp then s.(mode := s.mode.(timer := Complete)) else s
  }

  function ServeObtaining(s: Iface, w: World): (r: Move)
    ensures Follows(ObtainingIp, s.cfg, r.next)
    ensures Kept(s, r.s) && RaisedByActive(s, r.s)
  {
    if s.cfg.refreshDhcp then Move(ObtainingIp, RefreshClients(s, w))
    else TakeAddress(MonitorDhcpApps(s, w), w)
  }

  function OnObtainingIp(s: Iface, w: World): (r: Move)
    ensures Follows(ObtainingIp, s.cfg, r.next)
    ensures Kept(s, r.s) && RaisedByActive(s, r.s)
  {
    if Blocked(s.cfg) || s.cfg.vlanStatus == LinkConfiguring || s.cfg.pppLink == LinkConfiguring || s.cfg.reset then
      PhysicalInterfaceDown(s, w)
    else if VlanTimerExpired(s, w) || VlanIsDown(s.cfg) || (s.cfg.pppEnable && s.cfg.pppLink == LinkDown) then
      PhysicalInterfaceDown(s.(vlan := s.vlan.(expired := true)), w)
    else if InHeadStart(s) then HeadStart(s, w)
    else ServeObtaining(CompleteMode(s), w)
  }

  /** The interface on standby was made the active one: IPv6 comes first, IPv4 decides the state last. */
  function Activate(s: Iface, w: World): (r: Move)
    ensures r.next == Standby || r.next == Ipv4Leased || r.next == Ipv6Leased || r.next == DualStackActive
    ensures Kept(s, r.s)
  {
    var s1 := if s.v6.st == IpUp && s.v6.changed then s.(v6 := s.v6.(changed := false)) else s;
    var m := if s1.v6.st == IpUp && w.lanReady then Ipv6Up(s1) else Move(Standby, s1);
    if m.s.v4.st == IpUp then Ipv4Up(m.s) else m
  }

  function ServeStandby(s: Iface, w: World): (r: Move)
    ensures Follows(Standby, s.cfg, r.next)
    ensures Kept(s, r.s) && RaisedByActive(s, r.s)
  {
    hide Activate;
    if VlanIsDown(s.cfg) || PppIsNotUp(s.cfg) || (s.v4.st == IpDown && s.v6.st == IpDown) || s.cfg.refreshDhcp then
      Move(ObtainingIp, s)
    else if s.cfg.sel == Active then Activate(s, w)
    else if w.restartCheck && s.cfg.checkType == TadCheck then Move(Standby, StartCheck(s))
    else Move(Standby, s)
  }

  function OnStandbyState(s: Iface, w: World): (r: Move)
    ensures Follows(Standby, s.cfg, r.next)
    ensures Kept(s, r.s) && RaisedByActive(s, r.s)
  {
    if Blocked(s.cfg) then PhysicalInterfaceDown(s, w) else ServeStandby(MonitorDhcpApps(s, w), w)
  }

  /** An updated lease is applied in place; a failing step leaves the flag set for the next tick. */
  function ReapplyV4(s: Iface, w: World): Iface {
    if !w.tearDownV4Ok then s.(v4 := s.v4.(conn := false))
    else s.(v4 := s.v4.(conn := true, changed := s.v4.changed && !w.setUpV4Ok), checkRunning := Checked(s))
  }

  function ReapplyV6(s: Iface, w: World): Iface {
    if !w.tearDownV6Ok || !w.lanPrefixOk then s.(v6 := s.v6.(conn := false))
    else s.(v6 := s.v6.(conn := true, changed := s.v6.changed && !w.setUpV6Ok), checkRunning := Checked(s))
  }

  function RenewV4(s: Iface): Iface {
    s.(v4 := s.v4.(renewed := false), checkRunning := Checked(s))
  }

  function RenewV6(s: Iface): Iface {
    s.(v6 := s.v6.(renewed := false), checkRunning := Checked(s))
  }

  predicate AppliesMapt(s: Iface) {
    s.cfg.enableMapt && s.cfg.sel == Active && s.mapt.status == MaptUp
  }

  /** The other client is started when the mode became dual stack. */
  function AddV6Client(s: Iface, w: World): (r: Iface)
    ensures r == s.(v6 := s.v6.(client := r.v6.client, pid := r.v6.pid))
  {
    if s.cfg.refreshDhcp && s.cfg.v6Source == DhcpSource && s.cfg.mode == DualStack && s.v6.client != Started
    then s.(v6 := StartV6(s.v6, w.pid6.At(AtModeRefresh))) else s
  }

  function AddV4Client(s: Iface, w: World): (r: Iface)
    ensures r == s.(v4 := s.v4.(client := r.v4.client, pid := r.v4.pid))
  {
    if s.cfg.refreshDhcp && s.cfg.v4Source == DhcpSource && s.cfg.mode == DualStack && s.mode.timer != Complete &&
       s.v4.client != Started
    then s.(v4 := StartV4(s.v4, w.pid4.At(AtModeRefresh))) else s
  }

  /** IPV4_LEASED with IPv4 still up. */
  function ServeIpv4(s: Iface, w: World): (r: Move)
    requires s.cfg.sel == Active
    ensures Follows(Ipv4Leased, s.cfg, r.next)
    ensures Kept(s, r.s) && RaisedByActive(s, r.s)
  {
    if s.v4.changed then Move(Ipv4Leased, ReapplyV4(s, w))
    else if s.v6.st == IpUp then
      if s.v6.changed then Move(Ipv4Leased, s.(v6 := s.v6.(changed := false)))
      else if w.lanReady then Ipv6Up(s)
      else Move(Ipv4Leased, s)
    else if s.v4.renewed then Move(Ipv4Leased, RenewV4(s))
    else if RefreshesMapt(s) && w.maptFeature then RefreshFeature(s, w)
    else Move(Ipv4Leased, s)
  }

  function Ipv4LeasedTick(s: Iface, w: World): (r: Move)
    ensures Follows(Ipv4Leased, s.cfg, r.next)
    ensures Kept(s, r.s) && RaisedByActive(s, r.s)
  {
    if Torn(s.cfg) then PhysicalInterfaceDown(s, w)
    else if s.v4.st == IpDown || VlanIsDown(s.cfg) || PppIsNotUp(s.cfg) || (s.cfg.refreshDhcp && !WantsV4(s.cfg)) then
      Ipv4Down(s, w)
    else if s.cfg.sel != Active || s.cfg.nwModeChanged then StandbyDeconfigIps(s)
    else ServeIpv4(s, w)
  }

  function OnIpv4Leased(s: Iface, w: World): (r: Move)
    ensures Follows(Ipv4Leased, s.cfg, r.next)
    ensures Kept(s, r.s) && RaisedByActive(s, r.s)
  {
    Ipv4LeasedTick(MonitorDhcpApps(AddV6Client(s, w), w), w)
  }

  /** IPV6_LEASED with IPv6 still up. */
  function ServeIpv6(s: Iface, w: World): (r: Move)
    requires s.cfg.sel == Active
    ensures s.current == Ipv6Leased ==> Follows(Ipv6Leased, s.cfg, r.next)
    ensures Kept(s, r.s) && RaisedByActive(s, r.s)
  {
    if s.v6.changed then Move(Ipv6Leased, ReapplyV6(s, w))
    else if s.v4.st == IpUp then Ipv4Up(s)
    else if AppliesMapt(s) then (if w.lanReady then MaptUpTransition(s, w) else Move(Ipv6Leased, s))
    else if RefreshesMapt(s) then (if w.maptFeature then RefreshFeature(s, w) else Move(Ipv6Leased, s))
    else if s.v6.renewed then Move(Ipv6Leased, RenewV6(s))
    else Move(Ipv6Leased, s)
  }

  function Ipv6LeasedTick(s: Iface, w: World): (r: Move)
    ensures s.current == Ipv6Leased ==> Follows(Ipv6Leased, s.cfg, r.next)
    ensures Kept(s, r.s) && RaisedByActive(s, r.s)
  {
    if Torn(s.cfg) then PhysicalInterfaceDown(s, w)
    else if s.v6.st == IpDown || VlanIsDown(s.cfg) || PppIsNotUp(s.cfg) || (s.cfg.refreshDhcp && !WantsV6(s.cfg)) then
      Ipv6Down(s, w)
    else if s.cfg.sel != Active || s.cfg.nwModeChanged then StandbyDeconfigIps(s)
    else ServeIpv6(s, w)
  }

  function OnIpv6Leased(s: Iface, w: World): (r: Move)
    ensures s.current == Ipv6Leased ==> Follows(Ipv6Leased, s.cfg, r.next)
    ensures Kept(s, r.s) && RaisedByActive(s, r.s)
  {
    Ipv6LeasedTick(MonitorDhcpApps(AddV4Client(s, w), w), w)
  }

  /** The branches of DUAL_STACK_ACTIVE that end in the self-healing step. */
  function KeepDualStack(s: Iface, w: World): (r: Iface)
    ensures Kept(s, r)
  {
    if s.v4.changed then ReapplyV4(s, w)
    else if s.v6.changed then ReapplyV6(s, w)
    else if AppliesMapt(s) || RefreshesMapt(s) then s
    else if s.v4.renewed then RenewV4(s)
    else if s.v6.renewed then RenewV6(s)
    else s
  }

  /** DUAL_STACK_ACTIVE with both families up. */
  function ServeDualStack(s: Iface, w: World): (r: Move)
    requires s.cfg.sel == Active
    ensures s.current == DualStackActive ==> Follows(DualStackActive, s.cfg, r.next)
    ensures Kept(s, r.s) && RaisedByActive(s, r.s)
  {
    if !s.v4.changed && !s.v6.changed && AppliesMapt(s) && w.lanReady then MaptUpTransition(s, w)
    else if !s.v4.changed && !s.v6.changed && RefreshesMapt(s) && w.maptFeature then RefreshFeature(s, w)
    else Move(DualStackActive, MonitorDhcpApps(KeepDualStack(s, w), w))
  }

  function OnDualStackActive(s: Iface, w: World): (r: Move)
    ensures s.current == DualStackActive ==> Follows(DualStackActive, s.cfg, r.next)
    ensures Kept(s, r.s) && RaisedByActive(s, r.s)
  {
    if Torn(s.cfg) then PhysicalInterfaceDown(s, w)
    else if VlanIsDown(s.cfg) || PppIsNotUp(s.cfg) then DualStackDown(s, w)
    else if s.v4.st == IpDown || (s.cfg.refreshDhcp && !WantsV4(s.cfg)) then Ipv4Down(s, w)
    else if s.cfg.sel != Active || s.cfg.nwModeChanged then StandbyDeconfigIps(s)
    else if !s.v4.changed && (s.v6.st == IpDown || (s.cfg.refreshDhcp && !WantsV6(s.cfg))) then Ipv6Down(s, w)
    else ServeDualStack(s, w)
  }

  /** MAP-T is configured again with new parameters. */
  function ReapplyMapt(s: Iface, w: World): Iface {
    if w.tearDownMaptOk && w.setUpMaptOk && w.verifyMaptOk && w.processMaptOk
    then s.(mapt := s.mapt.(changed := false)) else s
  }

  function KeepMapt(s: Iface, w: World): (r: Iface)
    ensures Kept(s, r)
  {
    if s.cfg.maptFeatureChanged then s
    else if s.v6.changed then
      var s1 := ReapplyV6(s, w);
      if !s1.v6.changed && AppliesMapt(s1) then s1.(mapt := s1.mapt.(changed := true)) else s1
    else if s.mapt.changed then ReapplyMapt(s, w)
    else if s.v6.renewed then RenewV6(s)
    else s
  }

  predicate LeavesMapt(s: Iface) {
    || !s.cfg.enableMapt || s.v6.st == IpDown || s.mapt.status == MaptDown
    || (s.cfg.refreshDhcp && s.cfg.mode != Ipv6Only && s.cfg.mode != DualStack) || VlanIsDown(s.cfg)
  }

  /** The MAP-T feature was switched off. */
  function LoseFeature(s: Iface, w: World): (r: Move)
    ensures r.next == ObtainingIp && Kept(s, r.s) && RaisedByActive(s, r.s)
  {
    MaptFeatureRefresh(MaptDownTransition(s.(cfg := s.cfg.(maptFeatureChanged := false)), w).s, w)
  }

  /** MAPT_ACTIVE with MAP-T still wanted and possible. */
  function ServeMapt(s: Iface, w: World): (r: Move)
    requires s.cfg.sel == Active
    ensures Follows(MaptActive, s.cfg, r.next)
    ensures Kept(s, r.s) && RaisedByActive(s, r.s)
  {
    if s.cfg.maptFeatureChanged && !w.maptFeature then LoseFeature(s, w)
    else Move(MaptActive, MonitorDhcpApps(KeepMapt(s, w), w))
  }

  function OnMaptActive(s: Iface, w: World): (r: Move)
    ensures Follows(MaptActive, s.cfg, r.next)
    ensures Kept(s, r.s) && RaisedByActive(s, r.s)
  {
    if Torn(s.cfg) then PhysicalInterfaceDown(s, w)
    else if s.cfg.sel != Active || s.cfg.nwModeChanged then StandbyDeconfigIps(s)
    else if LeavesMapt(s) then MaptDownTransition(s, w)
    else ServeMapt(s, w)
  }

  /** An enabled lower link has not gone down yet. */
  predicate LinksBusy(c: Config) {
    (c.pppEnable && c.pppLink != LinkDown) || (c.vlanEnable && c.vlanStatus != LinkDown)
  }

  /** What the handler dereferences exists; only REFRESHING dereferences the discovery list. */
  predicate Finds(st: SmState, s: Iface) {
    st == RefreshingWan && !Blocked(s.cfg) && !LinksBusy(s.cfg) ==> RefreshFinds(s)
  }

  function OnRefreshingWan(s: Iface, w: World): (r: Move)
    requires Finds(RefreshingWan, s)
    ensures Follows(RefreshingWan, s.cfg, r.next)
    ensures Kept(s, r.s) && RaisedByActive(s, r.s)
  {
    if Blocked(s.cfg) then
      PhysicalInterfaceDown(s.(cfg := s.cfg.(reset := false, vlanReset := false), vlan := s.vlan.(expired := false)), w)
    else if LinksBusy(s.cfg) then Move(RefreshingWan, s)
    else WanRefreshed(s, w)
  }

  function OnDeconfiguringWan(s: Iface): (r: Move)
    ensures Follows(DeconfiguringWan, s.cfg, r.next)
    ensures Kept(s, r.s) && RaisedByActive(s, r.s)
  {
    if LinksBusy(s.cfg) then Move(DeconfiguringWan, s) else ExitTransition(s)
  }

  function Handle(st: SmState, s: Iface, w: World): (r: Move)
    requires Finds(st, s)
    ensures s.current == st ==> Follows(st, s.cfg, r.next)
    ensures Kept(s, r.s) && RaisedByActive(s, r.s)
  {
    match st
    case VlanConfiguring => OnVlanConfiguring(s, w)
    case PppConfiguring => OnPppConfiguring(s, w)
    case ValidatingWan => OnValidatingWan(s, w)
    case ObtainingIp => OnObtainingIp(s, w)
    case Ipv4Leased => OnIpv4Leased(s, w)
    case Ipv6Leased => OnIpv6Leased(s, w)
    case DualStackActive => OnDualStackActive(s, w)
    case MaptActive => OnMaptActive(s, w)
    case RefreshingWan => OnRefreshingWan(s, w)
    case DeconfiguringWan => OnDeconfiguringWan(s)
    case Standby => OnStandbyState(s, w)
    case Exit => Move(Exit, ClearDhcpData(s))
  }
}
