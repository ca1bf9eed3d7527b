/**
 The interface machine as a table, read by field instead of by transition: what a round does is decided by the record
 and the answers alone, and for each field it is listed which rounds change it, and to what. No transition calls
 another one here.
 */
module InterfaceTable {
  import opened WanTypes
  import opened InterfaceSpec
  import opened InterfaceInvariant

  /** What one round does. */
  datatype Course =
    | Stay | GiveUp | TearDown | TimeOut
    | ConfigurePpp | Validate | StartClients | EndHeadStart | AdjustClients
    | TakeIpv4 | TakeIpv6 | TakeBoth | NoteIpv6 | PutBy
    | LoseIpv4 | LoseIpv6 | LoseBoth | Idle | DropFeature | FeatureOff
    | Reapply4 | Reapply6 | ReapplyMapt | Renew4 | Renew6
    | MaptFails | MaptHalf | MaptOn | MaptOff
    | CheckAgain | Refresh | Leave | Clear

  // ---- what the guards look at ----

  predicate IsWanted(c: Config) {
    c.wanEnable && c.selEnable && c.enable && c.sel != NotSelected && c.phy == PhyUp
  }

  predicate MustGo(c: Config) {
    !IsWanted(c) || c.reset || c.vlanReset
  }

  predicate TimedOut(s: Iface, w: World) {
    |s.vlans| > 1 && (s.cfg.vlanReset || w.now - s.vlan.timerStart > s.cfg.vlanTimeout)
  }

  predicate VlanGone(c: Config) {
    c.vlanEnable && c.vlanStatus == LinkDown
  }

  predicate PppGone(c: Config) {
    c.pppEnable && c.pppLink != LinkUp
  }

  predicate Asks4(c: Config) {
    c.v4Source == DhcpSource && c.mode != Ipv6Only && c.mode != NoIp
  }

  predicate Asks6(c: Config) {
    c.v6Source == DhcpSource && c.mode != Ipv4Only && c.mode != NoIp
  }

  predicate IsServed(c: Config) {
    c.sel == Active && !c.nwModeChanged
  }

  predicate UsesMapt(s: Iface) {
    s.cfg.enableMapt && s.cfg.sel == Active && s.mapt.status == MaptUp
  }

  predicate FeatureWaits(s: Iface) {
    s.cfg.enableMapt && s.cfg.sel == Active && s.mapt.status == MaptDown && s.cfg.maptFeatureChanged
  }

  predicate Prefers(m: ModeRecord) {
    m.selected == MaptMode && m.timer != Expired
  }

  predicate Carries4(a: V4Side) {
    a.st == IpUp && a.conn
  }

  predicate Carries6(a: V6Side) {
    a.st == IpUp && a.conn
  }

  // ---- the clients ----

  function On4(a: V4Side, pid: int): (r: V4Side)
    ensures r == a.(client := r.client, pid := r.pid)
  {
    if pid != 0 then a.(client := Started, pid := pid) else a.(client := Failed, pid := -1)
  }

  function On6(a: V6Side, pid: int): (r: V6Side)
    ensures r == a.(client := r.client, pid := r.pid)
  {
    if pid != 0 then a.(client := Started, pid := pid) else a.(client := Failed, pid := -1)
  }

  function Off4(a: V4Side): V4Side {
    a.(client := Stopped, pid := 0)
  }

  function Off6(a: V6Side): V6Side {
    a.(client := Stopped, pid := 0)
  }

  /** Exactly the clients that the mode asks for are running. */
  predicate IsApplied(c: Config, on4: bool, on6: bool) {
    || (!on4 && !on6 && (c.v6Source != DhcpSource || c.mode == NoIp))
    || (!on4 && on6 && c.mode == Ipv6Only)
    || (on4 && !on6 && c.mode == Ipv4Only)
    || (on4 && on6 && c.mode == DualStack)
  }

  predicate Died(pid: int, alive: bool) {
    pid == -1 || (pid > 0 && !alive)
  }

  /** The clients of a wanted interface are looked after, unless the mode is changing. */
  predicate IsTended(c: Config) {
    c.wanEnable && c.selEnable && c.sel != NotSelected && !c.refreshDhcp
  }

  /** A dead client is started again: DHCPv4 only where neither PPP nor MAP-T takes its place. */
  function Watched4(s: Iface, w: World): (r: V4Side)
    ensures r == s.v4.(client := r.client, pid := r.pid)
  {
    var dead := Died(s.v4.pid, w.alive4) && !s.cfg.pppEnable && s.mapt.status == MaptDown && s.mode.timer != Running;
    if IsTended(s.cfg) && Asks4(s.cfg) && dead then On4(s.v4, w.pid4.monitor) else s.v4
  }

  function Watched6(s: Iface, w: World): (r: V6Side)
    ensures r == s.v6.(client := r.client, pid := r.pid)
  {
    if IsTended(s.cfg) && Asks6(s.cfg) && Died(s.v6.pid, w.alive6) then On6(s.v6, w.pid6.monitor) else s.v6
  }

  /** A mode change is done when exactly the clients run that it asks for. */
  function WatchedConfig(s: Iface): (r: Config)
    ensures r == s.cfg.(refreshDhcp := r.refreshDhcp, checkTypeChanged := r.checkTypeChanged)
    ensures r.refreshDhcp ==> s.cfg.refreshDhcp
  {
    var done := IsApplied(s.cfg, s.v4.client == Started, s.v6.client == Started);
    if !s.cfg.wanEnable || !s.cfg.selEnable || s.cfg.sel == NotSelected then s.cfg
    else if s.cfg.refreshDhcp then s.cfg.(refreshDhcp := !done)
    else s.cfg.(checkTypeChanged := false)
  }

  function Watched(s: Iface, w: World): Iface {
    s.(cfg := WatchedConfig(s), v4 := Watched4(s, w), v6 := Watched6(s, w),
       checkRunning :=
         if IsTended(s.cfg) && s.cfg.checkTypeChanged then s.cfg.checkType == TadCheck else s.checkRunning)
  }

  /** The mode became dual stack: the other client is started as well. */
  predicate Widens(c: Config) {
    c.refreshDhcp && c.mode == DualStack
  }

  predicate InMaptHeadStart(s: Iface) {
    s.mode.selected == MaptMode && s.mode.timer == Running && s.mapt.status != MaptUp
  }

  predicate LosesLinkWhileObtaining(s: Iface, w: World) {
    TimedOut(s, w) || VlanGone(s.cfg) || (s.cfg.pppEnable && s.cfg.pppLink == LinkDown)
  }

  predicate StopsObtaining(s: Iface) {
    !IsWanted(s.cfg) || s.cfg.reset || s.cfg.vlanStatus == LinkConfiguring || s.cfg.pppLink == LinkConfiguring
  }

  predicate ServesObtaining(s: Iface, w: World) {
    !StopsObtaining(s) && !LosesLinkWhileObtaining(s, w) && !InMaptHeadStart(s)
  }

  predicate Activates(s: Iface) {
    && s.cfg.sel == Active && !VlanGone(s.cfg) && !PppGone(s.cfg) && !s.cfg.refreshDhcp
    && (s.v4.st != IpDown || s.v6.st != IpDown)
  }

  /** What happens to the record before anything is decided. */
  function Readied(st: SmState, s: Iface, w: World): Iface {
    match st
    case ObtainingIp =>
      if !ServesObtaining(s, w) then s
      else
        var completes := s.mode.selected == MaptMode && s.mapt.status == MaptUp;
        var t := if completes then s.(mode := s.mode.(timer := Complete)) else s;
        if s.cfg.refreshDhcp then t else Watched(t, w)
    case Standby =>
      if !IsWanted(s.cfg) then s
      else
        var t := Watched(s, w);
        if Activates(t) && t.v6.st == IpUp then t.(v6 := t.v6.(changed := false)) else t
    case Ipv4Leased =>
      var widens := Widens(s.cfg) && s.cfg.v6Source == DhcpSource && s.v6.client != Started;
      Watched(if widens then s.(v6 := On6(s.v6, w.pid6.modeRefresh)) else s, w)
    case Ipv6Leased =>
      var widens := Widens(s.cfg) && s.cfg.v4Source == DhcpSource && s.v4.client != Started &&
                    s.mode.timer != Complete;
      Watched(if widens then s.(v4 := On4(s.v4, w.pid4.modeRefresh)) else s, w)
    case RefreshingWan =>
      if IsWanted(s.cfg) then s
      else s.(cfg := s.cfg.(reset := false, vlanReset := false), vlan := s.vlan.(expired := false))
    case _ => s
  }

  // ---- which course a round takes ----

  function InVlanConfiguring(s: Iface, w: World): Course {
    if !IsWanted(s.cfg) then TearDown
    else if TimedOut(s, w) then TimeOut
    else if s.cfg.vlanEnable && s.cfg.vlanStatus != LinkUp then Stay
    else ConfigurePpp
  }

  function InPppConfiguring(s: Iface, w: World): Course {
    var linked := s.cfg.pppLink == LinkUp && (Asks6(s.cfg) ==> s.cfg.ipv6cpUp);
    if !IsWanted(s.cfg) then TearDown
    else if TimedOut(s, w) then TimeOut
    else if s.cfg.pppEnable && !linked then Stay
    else Validate
  }

  function InValidating(s: Iface, w: World): Course {
    if !IsWanted(s.cfg) then TearDown else if TimedOut(s, w) then TimeOut else StartClients
  }

  function InObtaining(s: Iface, w: World): Course {
    if StopsObtaining(s) then TearDown
    else if LosesLinkWhileObtaining(s, w) then TimeOut
    else if InMaptHeadStart(s) then
      (if w.now - s.mode.start > 10 || s.v6.st == IpUp then EndHeadStart else Stay)
    else if s.cfg.refreshDhcp then AdjustClients
    else if s.v4.st == IpUp then (if s.cfg.sel == Active then TakeIpv4 else PutBy)
    else if s.v6.st == IpUp then
      if s.cfg.sel != Active then PutBy
      else if s.v6.changed then NoteIpv6
      else if w.lanReady then TakeIpv6
      else Stay
    else if FeatureWaits(s) && w.maptFeature then DropFeature
    else Stay
  }

  function InStandby(s: Iface, w: World): Course {
    if !IsWanted(s.cfg) then TearDown
    else if VlanGone(s.cfg) || PppGone(s.cfg) || s.cfg.refreshDhcp || (s.v4.st == IpDown && s.v6.st == IpDown) then
      GiveUp
    else if s.cfg.sel != Active then (if w.restartCheck && s.cfg.checkType == TadCheck then CheckAgain else Stay)
    else if s.v4.st == IpUp then (if s.v6.st == IpUp && w.lanReady then TakeBoth else TakeIpv4)
    else if s.v6.st == IpUp && w.lanReady then TakeIpv6
    else Stay
  }

  function InIpv4Leased(s: Iface, w: World): Course {
    if MustGo(s.cfg) then TearDown
    else if s.v4.st == IpDown || VlanGone(s.cfg) || PppGone(s.cfg) || (s.cfg.refreshDhcp && !Asks4(s.cfg)) then LoseIpv4
    else if !IsServed(s.cfg) then Idle
    else if s.v4.changed then Reapply4
    else if s.v6.st == IpUp then
      (if s.v6.changed then NoteIpv6 else if w.lanReady then TakeIpv6 else Stay)
    else if s.v4.renewed then Renew4
    else if FeatureWaits(s) && w.maptFeature then DropFeature
    else Stay
  }

  /** MAP-T set-up checks the configuration first, then gives up native IPv4, then applies the configuration. */
  function SetsUpMapt(w: World): Course {
    if !w.verifyMaptOk then MaptFails else if w.processMaptOk then MaptOn else MaptHalf
  }

  function InIpv6Leased(s: Iface, w: World): Course {
    if MustGo(s.cfg) then TearDown
    else if s.v6.st == IpDown || VlanGone(s.cfg) || PppGone(s.cfg) || (s.cfg.refreshDhcp && !Asks6(s.cfg)) then LoseIpv6
    else if !IsServed(s.cfg) then Idle
    else if s.v6.changed then Reapply6
    else if s.v4.st == IpUp then TakeIpv4
    else if UsesMapt(s) then (if w.lanReady then SetsUpMapt(w) else Stay)
    else if FeatureWaits(s) then (if w.maptFeature then DropFeature else Stay)
    else if s.v6.renewed then Renew6
    else Stay
  }

  function InDualStack(s: Iface, w: World): Course {
    if MustGo(s.cfg) then TearDown
    else if VlanGone(s.cfg) || PppGone(s.cfg) then LoseBoth
    else if s.v4.st == IpDown || (s.cfg.refreshDhcp && !Asks4(s.cfg)) then LoseIpv4
    else if !IsServed(s.cfg) then Idle
    else if s.v4.changed then Reapply4
    else if s.v6.st == IpDown || (s.cfg.refreshDhcp && !Asks6(s.cfg)) then LoseIpv6
    else if s.v6.changed then Reapply6
    else if UsesMapt(s) then (if w.lanReady then SetsUpMapt(w) else Stay)
    else if FeatureWaits(s) then (if w.maptFeature then DropFeature else Stay)
    else if s.v4.renewed then Renew4
    else if s.v6.renewed then Renew6
    else Stay
  }

  function InMapt(s: Iface, w: World): Course {
    var unasked := s.cfg.refreshDhcp && (s.cfg.mode == Ipv4Only || s.cfg.mode == NoIp);
    if MustGo(s.cfg) then TearDown
    else if !IsServed(s.cfg) then Idle
    else if !s.cfg.enableMapt || s.mapt.status == MaptDown || s.v6.st == IpDown || unasked || VlanGone(s.cfg) then
      MaptOff
    else if s.cfg.maptFeatureChanged then (if w.maptFeature then Stay else FeatureOff)
    else if s.v6.changed then Reapply6
    else if s.mapt.changed then ReapplyMapt
    else if s.v6.renewed then Renew6
    else Stay
  }

  predicate LinksStillUp(c: Config) {
    (c.vlanEnable && c.vlanStatus != LinkDown) || (c.pppEnable && c.pppLink != LinkDown)
  }

  function CourseIn(st: SmState, s: Iface, w: World): (k: Course)
    ensures k == Refresh ==> st == RefreshingWan
  {
    match st
    case VlanConfiguring => InVlanConfiguring(s, w)
    case PppConfiguring => InPppConfiguring(s, w)
    case ValidatingWan => InValidating(s, w)
    case ObtainingIp => InObtaining(s, w)
    case Standby => InStandby(s, w)
    case Ipv4Leased => InIpv4Leased(s, w)
    case Ipv6Leased => InIpv6Leased(s, w)
    case DualStackActive => InDualStack(s, w)
    case MaptActive => InMapt(s, w)
    case RefreshingWan => if !IsWanted(s.cfg) then TearDown else if LinksStillUp(s.cfg) then Stay else Refresh
    case DeconfiguringWan => if LinksStillUp(s.cfg) then Stay else Leave
    case Exit => Clear
  }

  // ---- what the course does to each field ----

  function NextAfter(k: Course, st: SmState, s: Iface): SmState {
    match k
    case GiveUp => ObtainingIp
    case TearDown => if s.cfg.reset || s.cfg.vlanReset || s.vlan.expired then RefreshingWan else DeconfiguringWan
    case TimeOut => RefreshingWan
    case ConfigurePpp => PppConfiguring
    case Validate => ValidatingWan
    case StartClients => ObtainingIp
    case EndHeadStart => ObtainingIp
    case AdjustClients => ObtainingIp
    case TakeIpv4 => if Carries6(s.v6) then DualStackActive else Ipv4Leased
    case TakeIpv6 => if Carries4(s.v4) then DualStackActive else Ipv6Leased
    case TakeBoth => DualStackActive
    case PutBy => Standby
    case Idle => Standby
    case LoseIpv4 => if Carries6(s.v6) then Ipv6Leased else ObtainingIp
    case LoseIpv6 => if Carries4(s.v4) then Ipv4Leased else ObtainingIp
    case LoseBoth => ObtainingIp
    case DropFeature => ObtainingIp
    case FeatureOff => ObtainingIp
    case MaptOn => MaptActive
    case MaptOff => Ipv6Leased
    case Refresh => VlanConfiguring
    case Leave => Exit
    case _ => st
  }

  /** Status says UP after an uptake and VALIDATING as soon as neither family carries on. */
  function StatusAfter(k: Course, s: Iface): IfaceStatus {
    match k
    case Validate => Validating
    case TakeIpv4 => StatusUp
    case TakeIpv6 => StatusUp
    case TakeBoth => StatusUp
    case PutBy => OnStandby
    case Idle => OnStandby
    case LoseIpv4 => if Carries6(s.v6) then s.status else Validating
    case LoseIpv6 => if Carries4(s.v4) then s.status else Validating
    case LoseBoth => Validating
    case DropFeature => if Carries4(s.v4) then s.status else Validating
    case FeatureOff => Validating
    case MaptHalf => if s.v4.st == IpUp && !Carries6(s.v6) then Validating else s.status
    case MaptOn => if s.v4.st == IpUp && !Carries6(s.v6) then Validating else s.status
    case TearDown => if s.v6.st == IpUp || (s.v4.st == IpUp && s.mapt.status == MaptDown) then Validating else s.status
    case TimeOut => if s.v6.st == IpUp || (s.v4.st == IpUp && s.mapt.status == MaptDown) then Validating else s.status
    case Leave => Disabled
    case _ => s.status
  }

  /** Mode changes that are being applied stop being pending; a link in configuration does not outlive a tear-down. */
  function ConfigAfter(k: Course, s: Iface, w: World): Config {
    var c := s.cfg;
    match k
    case TearDown => LinksDropped(c)
    case TimeOut => LinksDropped(c)
    case ConfigurePpp => if c.pppEnable && c.pppLink == LinkDown then c.(pppLink := LinkConfiguring) else c
    case StartClients => if c.pppEnable && w.ppp == PppNotConnected then c.(ipv6cpUp := false) else c
    case EndHeadStart => if c.pppEnable && w.ppp == PppNotConnected then c.(ipv6cpUp := false) else c
    case DropFeature => c.(maptFeatureChanged := false)
    case FeatureOff => c.(maptFeatureChanged := false)
    case Refresh =>
      c.(reset := false, vlanReset := false,
         vlanStatus := if VlanGone(c) && c.ifaceType == LocalIface then LinkConfiguring else c.vlanStatus)
    case Leave => c.(reset := false)
    case AdjustClients => c.(refreshDhcp := false)
    case _ => c
  }

  function LinksDropped(c: Config): Config {
    c.(pppLink := if c.pppEnable && c.pppLink == LinkConfiguring then LinkDown else c.pppLink,
       vlanStatus := if c.vlanEnable && c.ifaceType == LocalIface && c.vlanStatus == LinkConfiguring then LinkDown
                     else c.vlanStatus)
  }

  /** Discovery moves only in a refresh after a timeout or a reset. */
  function VlanAfter(k: Course, s: Iface, w: World): Discovery
    requires k == Refresh ==> RefreshFinds(s)
  {
    match k
    case TimeOut => s.vlan.(expired := true)
    case Refresh =>
      if !(VlanGone(s.cfg) && s.cfg.ifaceType == LocalIface) then s.vlan.(expired := false)
      else
        var v := s.vlan.(expired := false, timerStart := if |s.vlans| > 1 then w.now else s.vlan.timerStart);
        if s.vlan.expired || s.cfg.vlanReset then
          var e := NextVlan(s.vlans, s.vlan.activeIndex, s.cfg.vlanReset);
          v.(activeIndex := e.index, inUse := e.name)
        else v
    case _ => s.vlan
  }

  /** Everything of a lease and its client is wiped but the sysevent. */
  function Wiped4(a: V4Side): V4Side {
    V4Side(IpDown, false, false, NO_V4_LEASE, None, Stopped, 0, a.conn)
  }

  function Wiped6(a: V6Side): V6Side {
    V6Side(IpDown, false, false, NO_V6_LEASE, None, Stopped, 0, a.conn)
  }

  predicate Wipes(s: Iface) {
    s.mode.timer != Expired && (s.cfg.v4Source == DhcpSource || s.cfg.v6Source == DhcpSource)
  }

  function Down4(a: V4Side): V4Side {
    a.(st := IpDown, changed := false, renewed := false, lease := a.lease.(ip := ""))
  }

  function Down6(a: V6Side): V6Side {
    var l := a.lease;
    a.(st := IpDown, changed := false, renewed := false, conn := false,
       lease := V6Lease(l.addr.(address := ""), l.prefix.(sitePrefix := "", pdIfAddress := ""), "", ""))
  }

  /** A loss stops the client of an interface that is to go, and otherwise makes sure that one runs. */
  function Loss4(s: Iface, w: World): V4Side {
    var goes := MustGo(s.cfg) || VlanGone(s.cfg) || (s.cfg.refreshDhcp && !Asks4(s.cfg));
    if s.v4.client == Started then (if goes then Off4(s.v4) else s.v4)
    else if !goes && !s.cfg.pppEnable && !UsesMapt(s) then On4(s.v4, w.pid4.ipv4Down)
    else s.v4
  }

  function Loss6(s: Iface, w: World): V6Side {
    var goes := MustGo(s.cfg) || VlanGone(s.cfg) || PppGone(s.cfg) || (s.cfg.refreshDhcp && !Asks6(s.cfg));
    if goes then Off6(s.v6)
    else if s.v6.client != Started then On6(s.v6, w.pid6.ipv6Down)
    else s.v6
  }

  /** MAP-T is left: the IPv4 lease is forgotten, and DHCPv4 is started again where native IPv4 may return. */
  function Unmapped4(s: Iface, w: World): V4Side {
    var a := s.v4.(st := IpDown, changed := false, renewed := false, lease := NO_V4_LEASE, mail := None);
    if !MustGo(s.cfg) && s.cfg.sel == Active && !s.cfg.pppEnable then On4(a, w.pid4.maptDown) else a
  }

  function ClientsOff4(a: V4Side): V4Side {
    if a.client == Started then Off4(a) else a
  }

  function ClientsOff6(a: V6Side): V6Side {
    if a.client == Started then Off6(a) else a
  }

  /** The sysevent survives unless IPv4 was up natively and published. */
  function Torn4(s: Iface, w: World): V4Side {
    ClientsOff4(
      if s.mapt.status == MaptUp then Unmapped4(s, w)
      else if s.v4.st == IpUp then Down4(Loss4(s, w)).(conn := s.v4.conn && s.status != StatusUp)
      else s.v4)
  }

  function Torn6(s: Iface, w: World): V6Side {
    ClientsOff6(if s.v6.st == IpUp then Down6(Loss6(s, w)) else s.v6)
  }

  function Validated4After(s: Iface, w: World): V4Side {
    var a := if Wipes(s) then Wiped4(s.v4) else s.v4;
    if Asks4(s.cfg) && !Prefers(s.mode) then On4(a, w.pid4.validated) else a
  }

  function Validated6After(s: Iface, w: World): V6Side {
    var a := if Wipes(s) then Wiped6(s.v6) else s.v6;
    var b := if Prefers(s.mode) || (Asks6(s.cfg) && a.client != Started) then On6(a, w.pid6.validated) else a;
    var remote := s.cfg.ifaceType == RemoteIface && !(s.cfg.pppEnable && w.ppp == PppQueryFailed);
    if remote then b.(lease := b.lease.(addr := b.lease.addr.(address := w.ulaAddress))) else b
  }

  function HeadStartOver(s: Iface): Iface {
    s.(mode := s.mode.(timer := Expired))
  }

  function Adjusted4(s: Iface, w: World): V4Side {
    if Asks4(s.cfg) == (s.v4.client == Started) then s.v4
    else if Asks4(s.cfg) then On4(s.v4, w.pid4.modeRefresh)
    else Off4(s.v4)
  }

  function Adjusted6(s: Iface, w: World): V6Side {
    if Asks6(s.cfg) == (s.v6.client == Started) then s.v6
    else if Asks6(s.cfg) then On6(s.v6, w.pid6.modeRefresh)
    else Off6(s.v6)
  }

  function V4After(k: Course, s: Iface, w: World): V4Side {
    var a := s.v4;
    match k
    case TearDown => Torn4(s, w)
    case TimeOut => Torn4(s, w)
    case StartClients => Validated4After(s, w)
    case EndHeadStart => Validated4After(HeadStartOver(s), w)
    case AdjustClients => Adjusted4(s, w)
    case TakeIpv4 => a.(conn := true, changed := false, renewed := false)
    case TakeBoth => a.(conn := true, changed := false, renewed := false)
    case LoseIpv4 => Down4(Loss4(s, w)).(conn := a.conn && s.status != StatusUp)
    case LoseBoth => Down4(Loss4(s, w))
    case Idle => a.(conn := a.conn && a.st != IpUp)
    case FeatureOff => Unmapped4(s, w)
    case MaptOff => Unmapped4(s, w)
    case Reapply4 =>
      if !w.tearDownV4Ok then a.(conn := false) else a.(conn := true, changed := a.changed && !w.setUpV4Ok)
    case Renew4 => a.(renewed := false)
    case MaptHalf => Taken4(s)
    case MaptOn => Taken4(s)
    case Clear => Wiped4(a)
    case _ => a
  }

  /** Native IPv4 gives way to MAP-T. */
  function Taken4(s: Iface): V4Side {
    var a := ClientsOff4(s.v4);
    if a.st == IpUp then Down4(a).(conn := a.conn && s.status != StatusUp) else a
  }

  /** The lease is forgotten and DHCPv6 is started anew. */
  function Unfeatured6(s: Iface, w: World): V6Side {
    var a := Loss6(s, w).(st := IpDown, changed := false, renewed := false, conn := false,
                          lease := NO_V6_LEASE, mail := None);
    if !Asks6(s.cfg) then a else if w.stop6Ok then On6(a, w.pid6.featureRefresh) else Off6(a)
  }

  function V6After(k: Course, s: Iface, w: World): V6Side {
    var a := s.v6;
    match k
    case TearDown => Torn6(s, w)
    case TimeOut => Torn6(s, w)
    case StartClients => Validated6After(s, w)
    case EndHeadStart => Validated6After(HeadStartOver(s), w)
    case AdjustClients => Adjusted6(s, w)
    case TakeIpv6 => a.(conn := true)
    case TakeBoth => a.(conn := true)
    case NoteIpv6 => a.(changed := false)
    case LoseIpv6 => Down6(Loss6(s, w))
    case LoseBoth => Down6(Loss6(s, w))
    case Idle => if a.st == IpUp then a.(conn := false, changed := true) else a
    case DropFeature => Unfeatured6(s, w)
    case FeatureOff => Unfeatured6(s, w)
    case Reapply6 =>
      if !(w.tearDownV6Ok && w.lanPrefixOk) then a.(conn := false)
      else a.(conn := true, changed := a.changed && !w.setUpV6Ok)
    case Renew6 => a.(renewed := false)
    case Clear => Wiped6(a)
    case _ => a
  }

  /** MAP-T goes down with IPv6; new IPv6 parameters, once applied, have it configured again. */
  function MaptAfter(k: Course, st: SmState, s: Iface, w: World): MapRecord {
    var off := s.mapt.(status := MaptDown, changed := false);
    match k
    case TearDown => if s.mapt.status == MaptUp || s.v6.st == IpUp then off else s.mapt
    case TimeOut => if s.mapt.status == MaptUp || s.v6.st == IpUp then off else s.mapt
    case LoseIpv6 => off
    case LoseBoth => off
    case DropFeature => off
    case FeatureOff => off
    case MaptOff => off
    case MaptHalf => s.mapt.(changed := false)
    case MaptOn => s.mapt.(changed := false)
    case Reapply6 =>
      if st == MaptActive && UsesMapt(s) && !V6After(Reapply6, s, w).changed then s.mapt.(changed := true) else s.mapt
    case ReapplyMapt =>
      s.mapt.(changed := !(w.tearDownMaptOk && w.setUpMaptOk && w.verifyMaptOk && w.processMaptOk))
    case _ => s.mapt
  }

  function ModeAfter(k: Course, s: Iface, w: World): ModeRecord {
    match k
    case TearDown => s.mode.(timer := NotStarted)
    case TimeOut => s.mode.(timer := NotStarted)
    case StartClients => if Prefers(s.mode) then s.mode.(timer := Running, start := w.now) else s.mode
    case EndHeadStart => s.mode.(timer := Expired)
    case _ => s.mode
  }

  /** The check is started after every uptake, loss and renewal, which only a check of the TAD kind survives. */
  predicate CheckAfter(k: Course, s: Iface, w: World) {
    var again := s.checkRunning || s.cfg.checkType == TadCheck;
    match k
    case TearDown => false
    case TimeOut => false
    case Idle => s.checkRunning && s.cfg.checkType != IhcCheck
    case TakeIpv4 => again
    case TakeIpv6 => again
    case TakeBoth => again
    case PutBy => again
    case LoseIpv4 => again
    case LoseIpv6 => again
    case LoseBoth => again
    case DropFeature => again
    case FeatureOff => again
    case Reapply4 => if w.tearDownV4Ok then again else s.checkRunning
    case Reapply6 => if w.tearDownV6Ok && w.lanPrefixOk then again else s.checkRunning
    case Renew4 => again
    case Renew6 => again
    case MaptHalf => if s.v4.st == IpUp then again else s.checkRunning
    case MaptOn => if s.v4.st == IpUp then again else s.checkRunning
    case CheckAgain => again
    case _ => s.checkRunning
  }

  /** A mode change that leaves no client running is published as VALIDATING. */
  function PublishedAfter(k: Course, s: Iface, w: World): IfaceStatus {
    if k == AdjustClients && Adjusted4(s, w).client != Started && Adjusted6(s, w).client != Started then Validating
    else StatusAfter(k, s)
  }

  function RecordAfter(k: Course, st: SmState, s: Iface, w: World): Iface
    requires k == Refresh ==> RefreshFinds(s)
  {
    Iface(ConfigAfter(k, s, w), s.vlans, PublishedAfter(k, s, w), s.running && k != Leave, s.current,
          VlanAfter(k, s, w), V4After(k, s, w), V6After(k, s, w), ModeAfter(k, s, w), MaptAfter(k, st, s, w),
          CheckAfter(k, s, w))
  }

  /** DUAL_STACK_ACTIVE and MAPT_ACTIVE look after the clients last, the other states before they decide. */
  predicate WatchesLast(st: SmState, k: Course) {
    (st == DualStackActive || st == MaptActive) &&
    (k == Stay || k == Reapply4 || k == Reapply6 || k == ReapplyMapt || k == Renew4 || k == Renew6)
  }

  /** The record and the next state after one round, without any transition. */
  function Tabled(st: SmState, s: Iface, w: World): Move
    requires var t := Readied(st, s, w); CourseIn(st, t, w) == Refresh ==> RefreshFinds(t)
  {
    var t := Readied(st, s, w);
    var k := CourseIn(st, t, w);
    var r := RecordAfter(k, st, t, w);
    Move(NextAfter(k, st, t), if WatchesLast(st, k) then Watched(r, w) else r)
  }

  // ---- the transitions agree with the table ----

  predicate Row(k: Course, st: SmState, s: Iface, w: World, m: Move)
    requires k == Refresh ==> RefreshFinds(s)
  {
    m.next == NextAfter(k, st, s) && m.s == RecordAfter(k, st, s, w)
  }

  // What the table says of the courses that nested transitions run through, field by field.

  lemma Losses(st: SmState, s: Iface, w: World)
    ensures RecordAfter(LoseIpv4, st, s, w) ==
            s.(v4 := Down4(Loss4(s, w)).(conn := s.v4.conn && s.status != StatusUp),
               status := if Carries6(s.v6) then s.status else Validating,
               checkRunning := s.checkRunning || s.cfg.checkType == TadCheck)
    ensures RecordAfter(LoseIpv6, st, s, w) ==
            s.(v6 := Down6(Loss6(s, w)), status := if Carries4(s.v4) then s.status else Validating,
               mapt := s.mapt.(status := MaptDown, changed := false),
               checkRunning := s.checkRunning || s.cfg.checkType == TadCheck)
  {
    hide Down4; hide Down6; hide Loss4; hide Loss6;
  }

  lemma LossOfBoth(st: SmState, s: Iface, w: World)
    ensures RecordAfter(LoseBoth, st, s, w) ==
            s.(v4 := Down4(Loss4(s, w)), v6 := Down6(Loss6(s, w)), status := Validating,
               mapt := s.mapt.(status := MaptDown, changed := false),
               checkRunning := s.checkRunning || s.cfg.checkType == TadCheck)
  {
    hide Down4; hide Down6; hide Loss4; hide Loss6;
  }

  lemma MaptLosses(st: SmState, s: Iface, w: World)
    ensures RecordAfter(MaptOff, st, s, w) ==
            s.(v4 := Unmapped4(s, w), mapt := s.mapt.(status := MaptDown, changed := false))
    ensures RecordAfter(FeatureOff, st, s, w) ==
            s.(v4 := Unmapped4(s, w), v6 := Unfeatured6(s, w), status := Validating,
               mapt := s.mapt.(status := MaptDown, changed := false), cfg := s.cfg.(maptFeatureChanged := false),
               checkRunning := s.checkRunning || s.cfg.checkType == TadCheck)
  {
    hide RecordAfter; hide Unmapped4; hide Unfeatured6;
    MaptOffLoss(st, s, w);
    FeatureOffLoss(st, s, w);
  }

  lemma MaptOffLoss(st: SmState, s: Iface, w: World)
    ensures RecordAfter(MaptOff, st, s, w) ==
            s.(v4 := Unmapped4(s, w), mapt := s.mapt.(status := MaptDown, changed := false))
  {
    hide Unmapped4; hide Unfeatured6;
  }

  lemma FeatureOffLoss(st: SmState, s: Iface, w: World)
    ensures RecordAfter(FeatureOff, st, s, w) ==
            s.(v4 := Unmapped4(s, w), v6 := Unfeatured6(s, w), status := Validating,
               mapt := s.mapt.(status := MaptDown, changed := false), cfg := s.cfg.(maptFeatureChanged := false),
               checkRunning := s.checkRunning || s.cfg.checkType == TadCheck)
  {
    hide Unmapped4; hide Unfeatured6;
  }

  lemma TakeOvers(k: Course, st: SmState, s: Iface, w: World)
    requires k == MaptOn || k == MaptHalf
    ensures RecordAfter(k, st, s, w) ==
            s.(v4 := Taken4(s), mapt := s.mapt.(changed := false),
               status := if s.v4.st == IpUp && !Carries6(s.v6) then Validating else s.status,
               checkRunning := s.checkRunning || (s.v4.st == IpUp && s.cfg.checkType == TadCheck))
  {
    hide Taken4;
  }

  lemma Ipv4DownClientAgrees(s: Iface, w: World)
    ensures Ipv4DownClient(s, w) == Loss4(s, w)
  {
  }

  lemma Ipv6DownClientAgrees(s: Iface, w: World)
    ensures Ipv6DownClient(s, w) == Loss6(s, w)
  {
  }

  lemma Ipv4DownRow(st: SmState, s: Iface, w: World)
    ensures Row(LoseIpv4, st, s, w, Ipv4Down(s, w))
  {
    Ipv4DownClientAgrees(s, w);
    hide Torn4; hide Torn6; hide Validated4After; hide Validated6After; hide Adjusted4; hide Adjusted6; hide Taken4;
    hide Unfeatured6; hide Unmapped4; hide Loss4; hide Loss6; hide LinksDropped; hide Wiped4; hide Wiped6; hide Down6;
    hide HeadStartOver; hide NextVlan; hide MustGo; hide ClientsOff4; hide ClientsOff6; hide On4; hide On6;
    hide Ipv4DownClient; hide Kept;
    hide RaisedByActive;
  }

  lemma Ipv6DownRow(st: SmState, s: Iface, w: World)
    ensures Row(LoseIpv6, st, s, w, Ipv6Down(s, w))
  {
    Ipv6DownClientAgrees(s, w);
    hide Torn4; hide Torn6; hide Validated4After; hide Validated6After; hide Adjusted4; hide Adjusted6; hide Taken4;
    hide Unfeatured6; hide Unmapped4; hide Loss4; hide Loss6; hide LinksDropped; hide Wiped4; hide Wiped6; hide Down4;
    hide HeadStartOver; hide NextVlan; hide MustGo; hide ClientsOff4; hide ClientsOff6; hide On4; hide On6;
    hide Ipv6DownClient; hide Kept;
    hide RaisedByActive;
  }

  lemma MaptDownRow(st: SmState, s: Iface, w: World)
    ensures Row(MaptOff, st, s, w, MaptDownTransition(s, w))
  {
    hide Torn4; hide Torn6; hide Validated4After; hide Validated6After; hide Adjusted4; hide Adjusted6; hide Taken4;
    hide Unfeatured6; hide Loss4; hide Loss6; hide LinksDropped; hide Wiped4; hide Wiped6; hide Down4; hide Down6;
    hide HeadStartOver; hide NextVlan; hide ClientsOff4; hide ClientsOff6; hide On6; hide Kept; hide RaisedByActive;
  }

  lemma UpRows(st: SmState, s: Iface, w: World)
    ensures Row(TakeIpv4, st, s, w, Ipv4Up(s)) && Row(TakeIpv6, st, s, w, Ipv6Up(s))
  {
    hide Torn4; hide Torn6; hide Validated4After; hide Validated6After; hide Adjusted4; hide Adjusted6; hide Taken4;
    hide Unfeatured6; hide Unmapped4; hide Loss4; hide Loss6; hide LinksDropped; hide Wiped4; hide Wiped6; hide Down4;
    hide Down6; hide HeadStartOver; hide NextVlan; hide MustGo; hide ClientsOff4; hide ClientsOff6; hide On4;
    hide On6; hide Kept; hide RaisedByActive;
  }

  lemma PutByRow(st: SmState, s: Iface, w: World)
    ensures Row(PutBy, st, s, w, StandbyTransition(s))
  {
    hide Kept; hide RaisedByActive;
  }

  lemma IdleRow(st: SmState, s: Iface, w: World)
    ensures Row(Idle, st, s, w, StandbyDeconfigIps(s))
  {
    hide Kept; hide RaisedByActive;
  }

  lemma StandbyRows(st: SmState, s: Iface, w: World)
    ensures Row(PutBy, st, s, w, StandbyTransition(s)) && Row(Idle, st, s, w, StandbyDeconfigIps(s))
  {
    hide Row; hide StandbyTransition; hide StandbyDeconfigIps; hide Kept; hide RaisedByActive;
    PutByRow(st, s, w);
    IdleRow(st, s, w);
  }

  lemma LossesAgree(s: Iface, t: Iface, w: World)
    requires s.cfg == t.cfg
    ensures s.v6 == t.v6 ==> Loss6(s, w) == Loss6(t, w)
    ensures s.v4 == t.v4 && s.mapt.status == t.mapt.status ==> Loss4(s, w) == Loss4(t, w)
  {
  }

  /** The two down transitions in a row: the second one sees what the first one left. */
  lemma BothDownRow(st: SmState, s: Iface, w: World)
    ensures Row(LoseBoth, st, s, w, DualStackDown(s, w))
  {
    hide RecordAfter; hide Ipv4Down; hide Ipv6Down;
    var s1 := s.(status := Validating);
    var s2 := Ipv4Down(s1, w).s;
    Ipv4DownRow(st, s1, w);
    Ipv6DownRow(st, s2, w);
    Losses(st, s1, w);
    Losses(st, s2, w);
    LossOfBoth(st, s, w);
    LossesAgree(s, s1, w);
    LossesAgree(s, s2, w);
    hide Torn4; hide Torn6; hide Validated4After; hide Validated6After; hide Adjusted4; hide Adjusted6; hide Taken4;
    hide Unfeatured6; hide Unmapped4; hide Loss4; hide Loss6; hide LinksDropped; hide Wiped4; hide Wiped6; hide Down6;
    hide HeadStartOver; hide NextVlan; hide MustGo; hide ClientsOff4; hide ClientsOff6; hide On4; hide On6; hide Kept;
    hide RaisedByActive;
  }

  lemma FeatureRow(st: SmState, s: Iface, w: World)
    ensures Row(DropFeature, st, s, w, RefreshFeature(s, w))
  {
    var s1 := s.(cfg := s.cfg.(maptFeatureChanged := false));
    Ipv6DownRow(st, s1, w);
    FeatureClients(s, s1, w);
    hide Ipv6Down; hide FeatureClient;
    hide Torn4; hide Torn6; hide Validated4After; hide Validated6After; hide Adjusted4; hide Adjusted6; hide Taken4;
    hide Unfeatured6; hide Unmapped4; hide Loss4; hide Loss6; hide LinksDropped; hide Wiped4; hide Wiped6; hide Down4;
    hide HeadStartOver; hide NextVlan; hide MustGo; hide ClientsOff4; hide ClientsOff6; hide On4; hide On6; hide Kept;
    hide RaisedByActive;
  }

  lemma FeatureClients(s: Iface, t: Iface, w: World)
    requires t.cfg == s.cfg.(maptFeatureChanged := false) && t.v6 == s.v6
    ensures Loss6(t, w) == Loss6(s, w)
    ensures var a := Loss6(s, w).(st := IpDown, changed := false, renewed := false, conn := false,
                                  lease := NO_V6_LEASE, mail := None);
            FeatureClient(a, t.cfg, w) == Unfeatured6(s, w)
  {
    hide Loss6;
    assert Loss6(t, w) == Loss6(s, w) by { Loss6Ignores(s, t, w); }
  }

  lemma Loss6Ignores(s: Iface, t: Iface, w: World)
    requires t.cfg == s.cfg.(maptFeatureChanged := false) && t.v6 == s.v6
    ensures Loss6(t, w) == Loss6(s, w)
  {
  }

  lemma FeatureOffRow(st: SmState, s: Iface, w: World)
    ensures Row(FeatureOff, st, s, w, LoseFeature(s, w))
  {
    hide RecordAfter; hide MaptDownTransition; hide Ipv6Down;
    var s1 := s.(cfg := s.cfg.(maptFeatureChanged := false));
    var s2 := MaptDownTransition(s1, w).s;
    MaptDownRow(st, s1, w);
    MaptLosses(st, s1, w);
    MaptLosses(st, s, w);
    Ipv6DownRow(st, s2, w);
    Losses(st, s2, w);
    FeatureClients(s, s2, w);
    assert Unmapped4(s1, w) == Unmapped4(s, w) && Unmapped4(s, w).st == IpDown;
    hide FeatureClient;
    hide Torn4; hide Torn6; hide Validated4After; hide Validated6After; hide Adjusted4; hide Adjusted6; hide Taken4;
    hide Unfeatured6; hide Unmapped4; hide Loss4; hide Loss6; hide LinksDropped; hide Wiped4; hide Wiped6; hide Down4;
    hide HeadStartOver; hide NextVlan; hide MustGo; hide ClientsOff4; hide ClientsOff6; hide On4; hide On6; hide Kept;
    hide RaisedByActive;
  }

  /** Where MAP-T takes over IPv4 is not flagged as changed, and it waits for no client. */
  lemma TakeOverRows(st: SmState, s: Iface, w: World)
    requires UsesMapt(s) && (s.v4.st == IpUp ==> !s.v4.changed)
    ensures MaptTakesOver(s, w) == RecordAfter(MaptOn, st, s, w) == RecordAfter(MaptHalf, st, s, w)
  {
    hide RecordAfter; hide Ipv4Down;
    var s1 := s.(mapt := s.mapt.(changed := false));
    var s3 := if s1.v4.client == Started then s1.(v4 := StopV4(s1.v4)) else s1;
    assert s3.v4 == ClientsOff4(s.v4) && UsesMapt(s3);
    assert Loss4(s3, w) == s3.v4;
    Ipv4DownRow(st, s3, w);
    Losses(st, s3, w);
    TakeOvers(MaptOn, st, s, w);
    TakeOvers(MaptHalf, st, s, w);
    hide UsesMapt;
    hide Torn4; hide Torn6; hide Validated4After; hide Validated6After; hide Adjusted4; hide Adjusted6;
    hide Unfeatured6; hide Unmapped4; hide Loss4; hide Loss6; hide LinksDropped; hide Wiped4; hide Wiped6; hide Down6;
    hide HeadStartOver; hide NextVlan; hide MustGo; hide ClientsOff4; hide ClientsOff6; hide On4; hide On6; hide Kept;
    hide RaisedByActive;
  }

  lemma NothingHappens(k: Course, st: SmState, s: Iface, w: World)
    requires k == Stay || k == MaptFails || k == GiveUp
    ensures RecordAfter(k, st, s, w) == s
  {
  }

  lemma MaptUpRow(st: SmState, s: Iface, w: World)
    requires UsesMapt(s) && (s.v4.st == IpUp ==> !s.v4.changed) && s.current == st
    ensures Row(SetsUpMapt(w), st, s, w, MaptUpTransition(s, w))
  {
    hide MaptTakesOver; hide RecordAfter; hide UsesMapt; hide Kept; hide RaisedByActive;
    TakeOverRows(st, s, w);
    if !w.verifyMaptOk {
      NothingHappens(MaptFails, st, s, w);
    }
  }

  // ---- the tear-down runs through three transitions ----

  lemma TearDowns(k: Course, st: SmState, s: Iface, w: World)
    requires k == TearDown || k == TimeOut
    ensures RecordAfter(k, st, s, w) ==
            s.(cfg := LinksDropped(s.cfg), v4 := Torn4(s, w), v6 := Torn6(s, w),
               status := if s.v6.st == IpUp || (s.v4.st == IpUp && s.mapt.status == MaptDown) then Validating
                         else s.status,
               mapt := if s.mapt.status == MaptUp || s.v6.st == IpUp then s.mapt.(status := MaptDown, changed := false)
                       else s.mapt,
               vlan := if k == TimeOut then s.vlan.(expired := true) else s.vlan,
               mode := s.mode.(timer := NotStarted), checkRunning := false)
  {
    hide LinksDropped; hide Torn4; hide Torn6;
  }

  lemma DropMaptReads(st: SmState, s: Iface, w: World)
    ensures DropMapt(s, w) ==
            if s.mapt.status == MaptUp
            then s.(v4 := Unmapped4(s, w), mapt := s.mapt.(status := MaptDown, changed := false)) else s
  {
    MaptDownRow(st, s, w);
    MaptLosses(st, s, w);
    hide MaptDownTransition; hide RecordAfter; hide Unmapped4; hide Kept; hide RaisedByActive;
  }

  lemma DropV4Reads(st: SmState, s: Iface, w: World)
    ensures DropV4(s, w) ==
            if s.v4.st != IpUp then s
            else s.(v4 := Down4(Loss4(s, w)).(conn := s.v4.conn && s.status != StatusUp),
                    status := if Carries6(s.v6) then s.status else Validating,
                    checkRunning := s.checkRunning || s.cfg.checkType == TadCheck)
  {
    Ipv4DownRow(st, s, w);
    Losses(st, s, w);
    hide Ipv4Down; hide RecordAfter; hide Loss4; hide Down4; hide Kept; hide RaisedByActive;
  }

  lemma DropV6Reads(st: SmState, s: Iface, w: World)
    ensures DropV6(s, w) ==
            if s.v6.st != IpUp then s
            else s.(v6 := Down6(Loss6(s, w)), status := if Carries4(s.v4) then s.status else Validating,
                    mapt := s.mapt.(status := MaptDown, changed := false),
                    checkRunning := s.checkRunning || s.cfg.checkType == TadCheck)
  {
    Ipv6DownRow(st, s, w);
    Losses(st, s, w);
    hide Ipv6Down; hide RecordAfter; hide Loss6; hide Down6; hide Kept; hide RaisedByActive;
  }

  /** MAP-T, IPv4 and IPv6 in this order; what is left for the clients to be dropped from. */
  lemma DroppedReads(st: SmState, s: Iface, w: World)
    requires Known(s)
    ensures var r := DropV6(DropV4(DropMapt(s, w), w), w);
            && ClientsOff4(r.v4) == Torn4(s, w) && ClientsOff6(r.v6) == Torn6(s, w)
            && r == s.(v4 := r.v4, v6 := r.v6, status := r.status, mapt := r.mapt, checkRunning := r.checkRunning)
            && r.status == (if s.v6.st == IpUp || (s.v4.st == IpUp && s.mapt.status == MaptDown) then Validating
                            else s.status)
            && r.mapt == (if s.mapt.status == MaptUp || s.v6.st == IpUp
                          then s.mapt.(status := MaptDown, changed := false) else s.mapt)
  {
    var s1 := DropMapt(s, w);
    var s2 := DropV4(s1, w);
    DropMaptReads(st, s, w);
    DropV4Reads(st, s1, w);
    DropV6Reads(st, s2, w);
    LossesAgree(s, s1, w);
    LossesAgree(s, s2, w);
    assert Unmapped4(s, w).st == IpDown && Down4(Loss4(s1, w)).st == IpDown;
    hide DropMapt; hide DropV4; hide DropV6; hide ClientsOff4; hide ClientsOff6; hide Unmapped4; hide Loss4; hide Loss6;
    hide Down4; hide Down6; hide Kept; hide RaisedByActive;
  }

  lemma TearDownReads(s: Iface, w: World)
    requires Known(s)
    ensures PhysicalInterfaceDown(s, w) ==
            Move(if s.cfg.reset || s.cfg.vlanReset || s.vlan.expired then RefreshingWan else DeconfiguringWan,
                 s.(cfg := LinksDropped(s.cfg), v4 := Torn4(s, w), v6 := Torn6(s, w),
                    status := if s.v6.st == IpUp || (s.v4.st == IpUp && s.mapt.status == MaptDown) then Validating
                              else s.status,
                    mapt := if s.mapt.status == MaptUp || s.v6.st == IpUp
                            then s.mapt.(status := MaptDown, changed := false) else s.mapt,
                    mode := s.mode.(timer := NotStarted), checkRunning := false))
  {
    DroppedReads(Exit, s, w);
    hide DropMapt; hide DropV4; hide DropV6; hide Torn4; hide Torn6; hide Kept; hide RaisedByActive;
  }

  lemma TearDownRow(st: SmState, s: Iface, w: World)
    requires Known(s)
    ensures Row(TearDown, st, s, w, PhysicalInterfaceDown(s, w))
  {
    TearDownReads(s, w);
    TearDowns(TearDown, st, s, w);
    hide PhysicalInterfaceDown; hide RecordAfter; hide Torn4; hide Torn6; hide LinksDropped;
  }

  lemma TornIgnoresExpiry(s: Iface, w: World)
    ensures var t := s.(vlan := s.vlan.(expired := true)); Torn4(t, w) == Torn4(s, w) && Torn6(t, w) == Torn6(s, w)
  {
  }

  lemma TimeOutRow(st: SmState, s: Iface, w: World)
    requires Known(s)
    ensures Row(TimeOut, st, s, w, PhysicalInterfaceDown(s.(vlan := s.vlan.(expired := true)), w))
  {
    var t := s.(vlan := s.vlan.(expired := true));
    TearDownReads(t, w);
    TearDowns(TimeOut, st, s, w);
    TornIgnoresExpiry(s, w);
    hide PhysicalInterfaceDown; hide RecordAfter; hide Torn4; hide Torn6; hide LinksDropped;
  }

  // ---- the courses that run through no transition, or a simple one ----

  lemma NoteRow(st: SmState, s: Iface, w: World)
    ensures RecordAfter(NoteIpv6, st, s, w) == s.(v6 := s.v6.(changed := false))
  {
  }

  lemma CheckRow(st: SmState, s: Iface, w: World)
    ensures RecordAfter(CheckAgain, st, s, w) == StartCheck(s)
  {
  }

  lemma Renew4Row(st: SmState, s: Iface, w: World)
    ensures RecordAfter(Renew4, st, s, w) == RenewV4(s)
  {
  }

  lemma Renew6Row(st: SmState, s: Iface, w: World)
    ensures RecordAfter(Renew6, st, s, w) == RenewV6(s)
  {
  }

  lemma RenewRows(st: SmState, s: Iface, w: World)
    ensures RecordAfter(Renew4, st, s, w) == RenewV4(s) && RecordAfter(Renew6, st, s, w) == RenewV6(s)
  {
    hide RecordAfter; hide RenewV4; hide RenewV6;
    Renew4Row(st, s, w);
    Renew6Row(st, s, w);
  }

  lemma ReapplyV4Row(st: SmState, s: Iface, w: World)
    ensures RecordAfter(Reapply4, st, s, w) == ReapplyV4(s, w)
  {
  }

  lemma ReapplyV6Row(st: SmState, s: Iface, w: World)
    requires st != MaptActive
    ensures RecordAfter(Reapply6, st, s, w) == ReapplyV6(s, w)
  {
  }

  lemma MaptRows(s: Iface, w: World)
    ensures RecordAfter(ReapplyMapt, MaptActive, s, w) ==
            if w.tearDownMaptOk && w.setUpMaptOk && w.verifyMaptOk && w.processMaptOk
            then s.(mapt := s.mapt.(changed := false)) else s.(mapt := s.mapt.(changed := true))
    ensures var r := ReapplyV6(s, w);
            RecordAfter(Reapply6, MaptActive, s, w) ==
            if !r.v6.changed && UsesMapt(s) then r.(mapt := r.mapt.(changed := true)) else r
  {
    hide RecordAfter; hide ReapplyV6; hide UsesMapt;
    ReapplyMaptRow(s, w);
    Reapply6Row(s, w);
  }

  lemma ReapplyMaptRow(s: Iface, w: World)
    ensures RecordAfter(ReapplyMapt, MaptActive, s, w) ==
            if w.tearDownMaptOk && w.setUpMaptOk && w.verifyMaptOk && w.processMaptOk
            then s.(mapt := s.mapt.(changed := false)) else s.(mapt := s.mapt.(changed := true))
  {
  }

  lemma Reapply6Row(s: Iface, w: World)
    ensures var r := ReapplyV6(s, w);
            RecordAfter(Reapply6, MaptActive, s, w) ==
            if !r.v6.changed && UsesMapt(s) then r.(mapt := r.mapt.(changed := true)) else r
  {
  }

  lemma PppRow(s: Iface, w: World)
    ensures Row(ConfigurePpp, VlanConfiguring, s, w, PppConfigure(s)) && Row(Validate, PppConfiguring, s, w, WanUp(s))
  {
  }

  lemma ClientRow(s: Iface, w: World)
    ensures Row(StartClients, ValidatingWan, s, w, WanValidated(s, w))
    ensures Row(EndHeadStart, ObtainingIp, s, w, WanValidated(HeadStartOver(s), w))
  {
    ClientsValidated(s, w);
    ClientsValidated(HeadStartOver(s), w);
    hide Validated4; hide Validated6; hide WithUla; hide Validated4After; hide Validated6After; hide Kept;
    hide RaisedByActive;
  }

  lemma ClientsValidated(s: Iface, w: World)
    ensures Validated4(s, w) == Validated4After(s, w)
    ensures WithUla(s, Validated6(s, w), w) == Validated6After(s, w)
  {
  }

  lemma AdjustRow(s: Iface, w: World)
    ensures RecordAfter(AdjustClients, ObtainingIp, s, w) == RefreshClients(s, w)
  {
    assert Refreshed4(s, w) == Adjusted4(s, w) && Refreshed6(s, w) == Adjusted6(s, w);
    hide Refreshed4; hide Refreshed6; hide Adjusted4; hide Adjusted6;
  }

  lemma RefreshRow(s: Iface, w: World)
    requires RefreshFinds(s)
    ensures Row(Refresh, RefreshingWan, s, w, WanRefreshed(s, w))
  {
    hide NextVlan; hide Kept; hide RecordAfter;
    RefreshRecord(s, w);
    RefreshedRecord(s, w);
  }

  /** What the table says of a refresh, and what the transition does, in the same terms. */
  lemma RefreshRecord(s: Iface, w: World)
    requires RefreshFinds(s)
    ensures RecordAfter(Refresh, RefreshingWan, s, w) ==
            s.(cfg := ConfigAfter(Refresh, s, w), vlan := VlanAfter(Refresh, s, w))
  {
    hide NextVlan; hide ConfigAfter; hide VlanAfter;
  }

  lemma ConfiguresOneVlan(s: Iface, w: World)
    ensures ConfigureVlan(s, w).cfg == s.cfg.(vlanStatus := LinkConfiguring)
  {
  }

  lemma RefreshConfig(s: Iface, w: World)
    ensures var c := s.cfg.(reset := false, vlanReset := false);
            ConfigAfter(Refresh, s, w) ==
            if VlanGone(s.cfg) && s.cfg.ifaceType == LocalIface then c.(vlanStatus := LinkConfiguring) else c
  {
  }

  lemma RefreshedConfig(s: Iface, w: World)
    requires RefreshFinds(s)
    ensures var c := s.cfg.(reset := false, vlanReset := false);
            WanRefreshed(s, w).s.cfg ==
            if VlanGone(s.cfg) && s.cfg.ifaceType == LocalIface then c.(vlanStatus := LinkConfiguring) else c
  {
    hide WithNextVlan; hide ConfigureVlan; hide Kept;
    if VlanGone(s.cfg) && s.cfg.ifaceType == LocalIface {
      ConfiguresOneVlan(WithNextVlan(s), w);
    }
  }

  lemma RefreshedVlan(s: Iface, w: World)
    requires RefreshFinds(s)
    ensures WanRefreshed(s, w).s.vlan == VlanAfter(Refresh, s, w)
  {
    hide NextVlan; hide Kept;
  }

  lemma OnlyConfigAndVlan(s: Iface, w: World)
    requires RefreshFinds(s)
    ensures var m := WanRefreshed(s, w); m.s == s.(cfg := m.s.cfg, vlan := m.s.vlan) && m.next == VlanConfiguring
  {
    hide NextVlan; hide Kept;
  }

  lemma RefreshedRecord(s: Iface, w: World)
    requires RefreshFinds(s)
    ensures var m := WanRefreshed(s, w);
            && m.next == VlanConfiguring
            && m.s == s.(cfg := ConfigAfter(Refresh, s, w), vlan := VlanAfter(Refresh, s, w))
  {
    hide WanRefreshed; hide ConfigAfter; hide VlanAfter; hide RefreshFinds; hide Kept;
    RefreshConfig(s, w);
    RefreshedConfig(s, w);
    RefreshedVlan(s, w);
    OnlyConfigAndVlan(s, w);
  }

  lemma LeaveRow(s: Iface, w: World)
    ensures Row(Leave, DeconfiguringWan, s, w, ExitTransition(s))
  {
  }

  lemma ClearRow(s: Iface, w: World)
    ensures Row(Clear, Exit, s, w, Move(Exit, ClearDhcpData(s)))
  {
  }

  lemma WatchedClientsAgree(s: Iface, w: World)
    ensures Monitored4(s, w) == Watched4(s, w) && Monitored6(s, w) == Watched6(s, w)
  {
  }

  lemma WatchedConfigAgrees(s: Iface)
    ensures MonitoredConfig(s) == WatchedConfig(s) && Heals(s.cfg) == IsTended(s.cfg)
  {
  }

  lemma WatchAgrees(s: Iface, w: World)
    ensures MonitorDhcpApps(s, w) == Watched(s, w)
  {
    hide Monitored4; hide Monitored6; hide MonitoredConfig; hide Watched4; hide Watched6; hide WatchedConfig;
    hide Heals; hide IsTended;
    WatchedClientsAgree(s, w);
    WatchedConfigAgrees(s);
  }

  lemma StayRow(k: Course, st: SmState, s: Iface, w: World)
    requires k == Stay || k == MaptFails
    ensures Row(k, st, s, w, Move(st, s))
  {
    NothingHappens(k, st, s, w);
    hide RecordAfter;
  }

  // ---- the handlers agree with the table ----

  /** A handler that matches the row of its course matches the table. */
  lemma Rowed(st: SmState, s: Iface, w: World, m: Move)
    requires var t := Readied(st, s, w);
             var k := CourseIn(st, t, w);
             (k == Refresh ==> RefreshFinds(t)) && Row(k, st, t, w, m) && !WatchesLast(st, k)
    ensures m == Tabled(st, s, w)
  {
    hide RecordAfter; hide NextAfter; hide Readied; hide CourseIn; hide Watched;
  }

  lemma VlanConfiguringTabled(s: Iface, w: World)
    requires Known(s)
    ensures OnVlanConfiguring(s, w) == Tabled(VlanConfiguring, s, w)
  {
    hide PhysicalInterfaceDown; hide PppConfigure; hide Row; hide Tabled; hide Kept; hide Follows; hide RaisedByActive;
    if !IsWanted(s.cfg) {
      TearDownRow(VlanConfiguring, s, w);
    } else if TimedOut(s, w) {
      TimeOutRow(VlanConfiguring, s, w);
    } else {
      StayRow(Stay, VlanConfiguring, s, w);
      PppRow(s, w);
    }
    Rowed(VlanConfiguring, s, w, OnVlanConfiguring(s, w));
  }

  lemma PppConfiguringTabled(s: Iface, w: World)
    requires Known(s)
    ensures OnPppConfiguring(s, w) == Tabled(PppConfiguring, s, w)
  {
    hide PhysicalInterfaceDown; hide WanUp; hide Row; hide Tabled; hide Kept; hide Follows; hide RaisedByActive;
    if !IsWanted(s.cfg) {
      TearDownRow(PppConfiguring, s, w);
    } else if TimedOut(s, w) {
      TimeOutRow(PppConfiguring, s, w);
    } else {
      StayRow(Stay, PppConfiguring, s, w);
      PppRow(s, w);
    }
    Rowed(PppConfiguring, s, w, OnPppConfiguring(s, w));
  }

  lemma ValidatingTabled(s: Iface, w: World)
    requires Known(s)
    ensures OnValidatingWan(s, w) == Tabled(ValidatingWan, s, w)
  {
    hide PhysicalInterfaceDown; hide WanValidated; hide Row; hide Tabled; hide Kept; hide Follows; hide RaisedByActive;
    if !IsWanted(s.cfg) {
      TearDownRow(ValidatingWan, s, w);
    } else if TimedOut(s, w) {
      TimeOutRow(ValidatingWan, s, w);
    } else {
      ClientRow(s, w);
    }
    Rowed(ValidatingWan, s, w, OnValidatingWan(s, w));
  }

  lemma NotedRow(st: SmState, s: Iface, w: World)
    ensures Row(NoteIpv6, st, s, w, Move(st, s.(v6 := s.v6.(changed := false))))
  {
    NoteRow(st, s, w);
    hide RecordAfter;
  }

  /** OBTAINING without refresh request, on the record whose clients were looked after. */
  lemma TakeAddressTabled(s: Iface, w: World)
    requires ServesObtaining(s, w) && !s.cfg.refreshDhcp
    ensures Row(InObtaining(s, w), ObtainingIp, s, w, TakeAddress(s, w))
  {
    hide Ipv4Up; hide Ipv6Up; hide StandbyTransition; hide RefreshFeature; hide Row; hide Kept; hide Follows;
    hide RaisedByActive; hide StopsObtaining; hide LosesLinkWhileObtaining; hide InMaptHeadStart;
    StayRow(Stay, ObtainingIp, s, w);
    if s.v4.st == IpUp || s.v6.st == IpUp {
      UpRows(ObtainingIp, s, w);
      StandbyRows(ObtainingIp, s, w);
      NotedRow(ObtainingIp, s, w);
    } else {
      FeatureRow(ObtainingIp, s, w);
    }
  }

  /** Looking after the clients decides nothing in OBTAINING. */
  lemma WatchingDecidesNothing(s: Iface, w: World)
    requires ServesObtaining(s, w) && !s.cfg.refreshDhcp
    ensures var t := Readied(ObtainingIp, s, w);
            t == MonitorDhcpApps(CompleteMode(s), w) && ServesObtaining(t, w) && !t.cfg.refreshDhcp
  {
    hide MonitorDhcpApps; hide Watched;
    WatchAgrees(CompleteMode(s), w);
    StillServes(CompleteMode(s), w);
  }

  lemma StillServes(s: Iface, w: World)
    requires ServesObtaining(s, w) && !s.cfg.refreshDhcp
    ensures ServesObtaining(Watched(s, w), w) && !Watched(s, w).cfg.refreshDhcp
  {
    hide Watched4; hide Watched6; hide WatchedConfig;
  }

  lemma ObtainingTabled(s: Iface, w: World)
    requires Known(s)
    ensures OnObtainingIp(s, w) == Tabled(ObtainingIp, s, w)
  {
    hide PhysicalInterfaceDown; hide WanValidated; hide Row; hide Tabled; hide Kept; hide Follows; hide RaisedByActive;
    hide TakeAddress; hide RefreshClients; hide MonitorDhcpApps; hide Watched;
    if StopsObtaining(s) {
      TearDownRow(ObtainingIp, s, w);
    } else if LosesLinkWhileObtaining(s, w) {
      TimeOutRow(ObtainingIp, s, w);
    } else if InMaptHeadStart(s) {
      ClientRow(s, w);
      StayRow(Stay, ObtainingIp, s, w);
    } else if s.cfg.refreshDhcp {
      AdjustedRow(CompleteMode(s), w);
    } else {
      WatchingDecidesNothing(s, w);
      TakeAddressTabled(Readied(ObtainingIp, s, w), w);
      hide InObtaining;
    }
    Rowed(ObtainingIp, s, w, OnObtainingIp(s, w));
  }

  lemma AdjustedRow(s: Iface, w: World)
    ensures Row(AdjustClients, ObtainingIp, s, w, Move(ObtainingIp, RefreshClients(s, w)))
  {
    AdjustRow(s, w);
    hide RefreshClients; hide RecordAfter;
  }

  lemma TakeBothRow(s: Iface, w: World)
    requires s.v6.st == IpUp
    ensures Row(TakeBoth, Standby, s, w, Ipv4Up(Ipv6Up(s).s))
  {
  }

  lemma CheckedRow(s: Iface, w: World)
    ensures Row(CheckAgain, Standby, s, w, Move(Standby, StartCheck(s)))
  {
    CheckRow(Standby, s, w);
    hide RecordAfter; hide StartCheck;
  }

  lemma GiveUpRow(s: Iface, w: World)
    ensures Row(GiveUp, Standby, s, w, Move(ObtainingIp, s))
  {
    NothingHappens(GiveUp, Standby, s, w);
    hide RecordAfter;
  }

  /** Before the uptake the change of IPv6 is noted; whether it was noted makes no difference to the course. */
  lemma ActivateTabled(t: Iface, w: World)
    requires IsWanted(t.cfg) && Activates(t) && t.v4.st != IpUnknown && t.v6.st != IpUnknown
    ensures var r := if t.v6.st == IpUp then t.(v6 := t.v6.(changed := false)) else t;
            Row(InStandby(r, w), Standby, r, w, Activate(t, w))
  {
    var r := if t.v6.st == IpUp then t.(v6 := t.v6.(changed := false)) else t;
    assert r == if t.v6.st == IpUp && t.v6.changed then t.(v6 := t.v6.(changed := false)) else t;
    hide Ipv4Up; hide Ipv6Up; hide Row; hide Kept;
    if r.v6.st == IpUp && w.lanReady {
      assert Ipv6Up(r).s.v4 == r.v4 by { Ipv6UpLeavesIpv4(r); }
      TakeBothRow(r, w);
    }
    UpRows(Standby, r, w);
    StayRow(Stay, Standby, r, w);
  }

  lemma Ipv6UpLeavesIpv4(s: Iface)
    ensures Ipv6Up(s).s.v4 == s.v4
  {
  }

  lemma ServeStandbyTabled(t: Iface, w: World)
    requires IsWanted(t.cfg) && t.v4.st != IpUnknown && t.v6.st != IpUnknown
    ensures var r := if Activates(t) && t.v6.st == IpUp then t.(v6 := t.v6.(changed := false)) else t;
            Row(InStandby(r, w), Standby, r, w, ServeStandby(t, w))
  {
    hide Activate; hide StartCheck; hide Row; hide IsWanted; hide Kept; hide Follows; hide RaisedByActive;
    if Activates(t) {
      ActivateTabled(t, w);
    } else {
      GiveUpRow(t, w);
      CheckedRow(t, w);
      StayRow(Stay, Standby, t, w);
    }
  }

  lemma WatchingIsWanted(s: Iface, w: World)
    requires Known(s)
    ensures var t := MonitorDhcpApps(s, w); t == Watched(s, w) && Known(t) && (IsWanted(t.cfg) <==> IsWanted(s.cfg))
    ensures MonitorDhcpApps(s, w).current == s.current
  {
    WatchAgrees(s, w);
    hide Watched; hide Monitored4; hide Monitored6;
  }

  lemma StandbyTabled(s: Iface, w: World)
    requires Known(s)
    ensures OnStandbyState(s, w) == Tabled(Standby, s, w)
  {
    hide PhysicalInterfaceDown; hide ServeStandby; hide MonitorDhcpApps; hide Watched; hide Row; hide Tabled;
    hide Kept; hide Follows; hide RaisedByActive;
    if IsWanted(s.cfg) {
      WatchingIsWanted(s, w);
      ServeStandbyTabled(MonitorDhcpApps(s, w), w);
      hide InStandby;
    } else {
      TearDownRow(Standby, s, w);
    }
    Rowed(Standby, s, w, OnStandbyState(s, w));
  }

  lemma RenewedRows(st: SmState, s: Iface, w: World)
    ensures Row(Renew4, st, s, w, Move(st, RenewV4(s))) && Row(Renew6, st, s, w, Move(st, RenewV6(s)))
  {
    RenewRows(st, s, w);
    hide RecordAfter; hide RenewV4; hide RenewV6;
  }

  lemma ReappliedRows(st: SmState, s: Iface, w: World)
    requires st != MaptActive
    ensures Row(Reapply4, st, s, w, Move(st, ReapplyV4(s, w))) && Row(Reapply6, st, s, w, Move(st, ReapplyV6(s, w)))
  {
    ReapplyV4Row(st, s, w);
    ReapplyV6Row(st, s, w);
    hide RecordAfter; hide ReapplyV4; hide ReapplyV6;
  }

  lemma ServeIpv4Tabled(s: Iface, w: World)
    requires s.cfg.sel == Active && s.v4.st == IpUp && InIpv4Leased(s, w) != LoseIpv4 && !MustGo(s.cfg)
    requires IsServed(s.cfg)
    ensures Row(InIpv4Leased(s, w), Ipv4Leased, s, w, ServeIpv4(s, w))
  {
    hide Ipv6Up; hide RefreshFeature; hide ReapplyV4; hide RenewV4; hide Row; hide MustGo; hide Kept; hide Follows;
    hide RaisedByActive;
    StayRow(Stay, Ipv4Leased, s, w);
    if s.v4.changed {
      ReappliedRows(Ipv4Leased, s, w);
    } else if s.v6.st == IpUp {
      NotedRow(Ipv4Leased, s, w);
      UpRows(Ipv4Leased, s, w);
    } else {
      RenewedRows(Ipv4Leased, s, w);
      FeatureRow(Ipv4Leased, s, w);
    }
  }

  lemma Ipv4TickTabled(s: Iface, w: World)
    requires Known(s)
    ensures InIpv4Leased(s, w) != Refresh && Row(InIpv4Leased(s, w), Ipv4Leased, s, w, Ipv4LeasedTick(s, w))
  {
    hide PhysicalInterfaceDown; hide Ipv4Down; hide StandbyDeconfigIps; hide ServeIpv4; hide Row; hide Kept;
    hide Follows; hide RaisedByActive;
    var k := InIpv4Leased(s, w);
    if k == TearDown {
      TearDownRow(Ipv4Leased, s, w);
    } else if k == LoseIpv4 {
      Ipv4DownRow(Ipv4Leased, s, w);
    } else if k == Idle {
      StandbyRows(Ipv4Leased, s, w);
    } else {
      ServeIpv4Tabled(s, w);
    }
  }

  lemma Ipv4LeasedTabled(s: Iface, w: World)
    requires Known(s)
    ensures OnIpv4Leased(s, w) == Tabled(Ipv4Leased, s, w)
  {
    hide Ipv4LeasedTick; hide MonitorDhcpApps; hide Watched; hide InIpv4Leased; hide Row; hide Tabled; hide Kept;
    hide Follows; hide RaisedByActive;
    var s1 := AddV6Client(s, w);
    WatchingIsWanted(s1, w);
    assert Readied(Ipv4Leased, s, w) == Watched(s1, w);
    Ipv4TickTabled(MonitorDhcpApps(s1, w), w);
    Rowed(Ipv4Leased, s, w, OnIpv4Leased(s, w));
  }

  lemma ServeIpv6Tabled(s: Iface, w: World)
    requires s.cfg.sel == Active && s.v6.st == IpUp && InIpv6Leased(s, w) != LoseIpv6 && !MustGo(s.cfg)
    requires IsServed(s.cfg) && s.current == Ipv6Leased
    ensures Row(InIpv6Leased(s, w), Ipv6Leased, s, w, ServeIpv6(s, w))
  {
    hide Ipv4Up; hide RefreshFeature; hide ReapplyV6; hide RenewV6; hide MaptUpTransition; hide Row; hide MustGo;
    hide Kept; hide Follows; hide RaisedByActive;
    StayRow(Stay, Ipv6Leased, s, w);
    if s.v6.changed {
      ReappliedRows(Ipv6Leased, s, w);
    } else if s.v4.st == IpUp {
      UpRows(Ipv6Leased, s, w);
    } else if UsesMapt(s) {
      MaptUpRow(Ipv6Leased, s, w);
    } else {
      RenewedRows(Ipv6Leased, s, w);
      FeatureRow(Ipv6Leased, s, w);
    }
  }

  lemma Ipv6TickTabled(s: Iface, w: World)
    requires Known(s) && s.current == Ipv6Leased
    ensures InIpv6Leased(s, w) != Refresh && Row(InIpv6Leased(s, w), Ipv6Leased, s, w, Ipv6LeasedTick(s, w))
  {
    hide PhysicalInterfaceDown; hide Ipv6Down; hide StandbyDeconfigIps; hide ServeIpv6; hide Row; hide Kept;
    hide Follows; hide RaisedByActive;
    var k := InIpv6Leased(s, w);
    if k == TearDown {
      TearDownRow(Ipv6Leased, s, w);
    } else if k == LoseIpv6 {
      Ipv6DownRow(Ipv6Leased, s, w);
    } else if k == Idle {
      StandbyRows(Ipv6Leased, s, w);
    } else {
      ServeIpv6Tabled(s, w);
    }
  }

  lemma Ipv6LeasedTabled(s: Iface, w: World)
    requires Known(s) && s.current == Ipv6Leased
    ensures OnIpv6Leased(s, w) == Tabled(Ipv6Leased, s, w)
  {
    hide Ipv6LeasedTick; hide MonitorDhcpApps; hide Watched; hide InIpv6Leased; hide Row; hide Tabled; hide Kept;
    hide Follows; hide RaisedByActive;
    var s1 := AddV4Client(s, w);
    WatchingIsWanted(s1, w);
    assert Readied(Ipv6Leased, s, w) == Watched(s1, w);
    Ipv6TickTabled(MonitorDhcpApps(s1, w), w);
    Rowed(Ipv6Leased, s, w, OnIpv6Leased(s, w));
  }

  /** A handler that looks after the clients last. */
  lemma RowedLast(st: SmState, s: Iface, w: World, r: Iface)
    requires st == DualStackActive || st == MaptActive
    requires Row(CourseIn(st, s, w), st, s, w, Move(st, r)) && WatchesLast(st, CourseIn(st, s, w))
    ensures Move(st, MonitorDhcpApps(r, w)) == Tabled(st, s, w)
  {
    WatchAgrees(r, w);
    hide RecordAfter; hide NextAfter; hide CourseIn; hide Watched; hide MonitorDhcpApps;
  }

  lemma KeepDualStackTabled(s: Iface, w: World)
    requires WatchesLast(DualStackActive, InDualStack(s, w))
    ensures Row(InDualStack(s, w), DualStackActive, s, w, Move(DualStackActive, KeepDualStack(s, w)))
  {
    hide ReapplyV4; hide ReapplyV6; hide RenewV4; hide RenewV6; hide Row; hide MustGo; hide Kept; hide Follows;
    hide RaisedByActive;
    StayRow(Stay, DualStackActive, s, w);
    ReappliedRows(DualStackActive, s, w);
    RenewedRows(DualStackActive, s, w);
  }

  lemma ServeDualStackTabled(s: Iface, w: World)
    requires Known(s) && s.current == DualStackActive && s.cfg.sel == Active
    requires var k := InDualStack(s, w);
             k != TearDown && k != LoseBoth && k != LoseIpv4 && k != Idle && k != LoseIpv6
    ensures ServeDualStack(s, w) == Tabled(DualStackActive, s, w)
  {
    hide RefreshFeature; hide MaptUpTransition; hide KeepDualStack; hide MonitorDhcpApps; hide Row; hide Tabled;
    hide MustGo; hide Kept; hide Follows; hide RaisedByActive;
    if WatchesLast(DualStackActive, InDualStack(s, w)) {
      KeepDualStackTabled(s, w);
      RowedLast(DualStackActive, s, w, KeepDualStack(s, w));
    } else {
      if UsesMapt(s) {
        MaptUpRow(DualStackActive, s, w);
      } else {
        FeatureRow(DualStackActive, s, w);
      }
      Rowed(DualStackActive, s, w, ServeDualStack(s, w));
    }
  }

  lemma DualStackTabled(s: Iface, w: World)
    requires Known(s) && s.current == DualStackActive
    ensures OnDualStackActive(s, w) == Tabled(DualStackActive, s, w)
  {
    hide PhysicalInterfaceDown; hide DualStackDown; hide Ipv4Down; hide Ipv6Down; hide StandbyDeconfigIps;
    hide ServeDualStack; hide Row; hide Tabled; hide Kept; hide Follows; hide RaisedByActive;
    var k := InDualStack(s, w);
    if k == TearDown {
      TearDownRow(DualStackActive, s, w);
    } else if k == LoseBoth {
      BothDownRow(DualStackActive, s, w);
    } else if k == LoseIpv4 {
      Ipv4DownRow(DualStackActive, s, w);
    } else if k == Idle {
      StandbyRows(DualStackActive, s, w);
    } else if k == LoseIpv6 {
      Ipv6DownRow(DualStackActive, s, w);
    } else {
      ServeDualStackTabled(s, w);
    }
    if k == TearDown || k == LoseBoth || k == LoseIpv4 || k == Idle || k == LoseIpv6 {
      Rowed(DualStackActive, s, w, OnDualStackActive(s, w));
    }
  }

  lemma MaptStays(k: Course, s: Iface)
    requires WatchesLast(MaptActive, k)
    ensures NextAfter(k, MaptActive, s) == MaptActive
  {
  }

  lemma KeepMaptRecord(s: Iface, w: World)
    requires WatchesLast(MaptActive, InMapt(s, w))
    ensures RecordAfter(InMapt(s, w), MaptActive, s, w) == KeepMapt(s, w)
  {
    hide ReapplyV6; hide RenewV6; hide MustGo; hide RecordAfter; hide Kept; hide RaisedByActive;
    if s.cfg.maptFeatureChanged {
      NothingHappens(Stay, MaptActive, s, w);
    } else if s.v6.changed {
      MaptRows(s, w);
      ReapplyLeavesMapt(s, w);
    } else if s.mapt.changed {
      MaptRows(s, w);
      assert s.mapt.(changed := true) == s.mapt;
    } else if s.v6.renewed {
      RenewRows(MaptActive, s, w);
    } else {
      NothingHappens(Stay, MaptActive, s, w);
    }
  }

  lemma KeepMaptTabled(s: Iface, w: World)
    requires WatchesLast(MaptActive, InMapt(s, w))
    ensures Row(InMapt(s, w), MaptActive, s, w, Move(MaptActive, KeepMapt(s, w)))
  {
    hide KeepMapt; hide RecordAfter; hide NextAfter; hide InMapt; hide Kept; hide Follows; hide RaisedByActive;
    MaptStays(InMapt(s, w), s);
    KeepMaptRecord(s, w);
  }

  lemma ReapplyLeavesMapt(s: Iface, w: World)
    ensures ReapplyV6(s, w).mapt == s.mapt && ReapplyV6(s, w).cfg == s.cfg
  {
  }

  lemma MaptTabled(s: Iface, w: World)
    requires Known(s)
    ensures OnMaptActive(s, w) == Tabled(MaptActive, s, w)
  {
    hide PhysicalInterfaceDown; hide MaptDownTransition; hide StandbyDeconfigIps; hide LoseFeature; hide KeepMapt;
    hide MonitorDhcpApps; hide Row; hide Tabled; hide Kept; hide Follows; hide RaisedByActive;
    var k := InMapt(s, w);
    if WatchesLast(MaptActive, k) {
      KeepMaptTabled(s, w);
      RowedLast(MaptActive, s, w, KeepMapt(s, w));
    } else {
      if k == TearDown {
        TearDownRow(MaptActive, s, w);
      } else if k == Idle {
        StandbyRows(MaptActive, s, w);
      } else if k == MaptOff {
        MaptDownRow(MaptActive, s, w);
      } else {
        FeatureOffRow(MaptActive, s, w);
      }
      Rowed(MaptActive, s, w, OnMaptActive(s, w));
    }
  }

  lemma RefreshingTabled(s: Iface, w: World)
    requires Known(s) && Finds(RefreshingWan, s)
    ensures var t := Readied(RefreshingWan, s, w);
            (CourseIn(RefreshingWan, t, w) == Refresh ==> RefreshFinds(t)) &&
            OnRefreshingWan(s, w) == Tabled(RefreshingWan, s, w)
  {
    hide PhysicalInterfaceDown; hide WanRefreshed; hide Row; hide Tabled; hide Kept; hide Follows; hide RaisedByActive;
    if !IsWanted(s.cfg) {
      TearDownRow(RefreshingWan, Readied(RefreshingWan, s, w), w);
    } else if LinksStillUp(s.cfg) {
      StayRow(Stay, RefreshingWan, s, w);
    } else {
      RefreshRow(s, w);
    }
    Rowed(RefreshingWan, s, w, OnRefreshingWan(s, w));
  }

  lemma DeconfiguringTabled(s: Iface, w: World)
    ensures OnDeconfiguringWan(s) == Tabled(DeconfiguringWan, s, w)
  {
    hide ExitTransition; hide Row; hide Tabled; hide Kept; hide Follows; hide RaisedByActive;
    StayRow(Stay, DeconfiguringWan, s, w);
    LeaveRow(s, w);
    Rowed(DeconfiguringWan, s, w, OnDeconfiguringWan(s));
  }

  lemma ExitTabled(s: Iface, w: World)
    ensures Move(Exit, ClearDhcpData(s)) == Tabled(Exit, s, w)
  {
    hide ClearDhcpData; hide Row; hide Tabled; hide Kept; hide Follows; hide RaisedByActive;
    ClearRow(s, w);
    Rowed(Exit, s, w, Move(Exit, ClearDhcpData(s)));
  }

  lemma LastStatesTabled(s: Iface, w: World)
    ensures OnDeconfiguringWan(s) == Tabled(DeconfiguringWan, s, w)
    ensures Move(Exit, ClearDhcpData(s)) == Tabled(Exit, s, w)
  {
    hide OnDeconfiguringWan; hide ClearDhcpData; hide Tabled; hide Kept; hide Follows; hide RaisedByActive;
    DeconfiguringTabled(s, w);
    ExitTabled(s, w);
  }

  /** Every handler, with all its nested transitions, does exactly what the table says. */
  lemma HandlerIsTabled(st: SmState, s: Iface, w: World)
    requires Known(s) && s.current == st && Finds(st, s)
    ensures var t := Readied(st, s, w); CourseIn(st, t, w) == Refresh ==> RefreshFinds(t)
    ensures Handle(st, s, w) == Tabled(st, s, w)
  {
    hide OnVlanConfiguring; hide OnPppConfiguring; hide OnValidatingWan; hide OnObtainingIp; hide OnStandbyState;
    hide OnIpv4Leased; hide OnIpv6Leased; hide OnDualStackActive; hide OnMaptActive; hide OnRefreshingWan;
    hide OnDeconfiguringWan; hide ClearDhcpData; hide Tabled; hide Watched; hide Kept; hide Follows;
    hide RaisedByActive;
    match st
    case VlanConfiguring => VlanConfiguringTabled(s, w);
    case PppConfiguring => PppConfiguringTabled(s, w);
    case ValidatingWan => ValidatingTabled(s, w);
    case ObtainingIp => ObtainingTabled(s, w);
    case Ipv4Leased => Ipv4LeasedTabled(s, w);
    case Ipv6Leased => Ipv6LeasedTabled(s, w);
    case DualStackActive => DualStackTabled(s, w);
    case MaptActive => MaptTabled(s, w);
    case RefreshingWan => RefreshingTabled(s, w);
    case DeconfiguringWan => LastStatesTabled(s, w);
    case Standby => StandbyTabled(s, w);
    case Exit => LastStatesTabled(s, w);
  }
}
