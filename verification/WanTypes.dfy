/** The records the WAN manager keeps per interface, and what the outside world may answer. */
module WanTypes {

  datatype Option<+T> = None | Some(value: T)

  /** A mailbox slot that is only ever emptied. */
  predicate Leaves<T(==)>(before: Option<T>, after: Option<T>) {
    after == before || after.None?
  }

  /** eWanState_t: where the state machine of one virtual interface stands. */
  datatype SmState =
    | Exit | VlanConfiguring | PppConfiguring | ValidatingWan | ObtainingIp
    | Ipv4Leased | Ipv6Leased | DualStackActive | MaptActive
    | RefreshingWan | DeconfiguringWan | Standby

  /** DML_WAN_IFACE_STATUS: what the machine publishes about the virtual interface. */
  datatype IfaceStatus = Disabled | Initialising | Validating | Valid | StatusUp | Invalid | OnStandby

  datatype LinkState = LinkDown | LinkConfiguring | LinkUp

  datatype PhyState = PhyDown | PhyInitializing | PhyUp | PhyUnknown

  datatype Selection = SelectionUnknown | NotSelected | SelectionValidating | Selected | Active

  datatype IpState = IpUp | IpDown | IpUnknown

  datatype MaptState = MaptUp | MaptDown

  datatype IpSource = StaticSource | DhcpSource | PppSource

  datatype IpMode = Ipv4Only | Ipv6Only | DualStack | NoIp

  datatype PreferredMode = DualStackMode | MaptMode | MapeMode | DsliteMode

  datatype ClientState = ClientUnknown | Started | Stopped | Failed

  datatype TimerState = NotStarted | Expired | Running | Complete

  datatype IfaceType = LocalIface | RemoteIface

  datatype CheckType = NoCheck | IhcCheck | TadCheck

  /** One row of the VLAN discovery list. */
  datatype VlanEntry = VlanEntry(index: int, name: string)

  /** The part of a DHCPv4 lease that is compared and kept. */
  datatype V4Lease = V4Lease(ip: string, mask: string, gateway: string, dns: string, dns1: string)

  datatype V4Message = V4Message(lease: V4Lease, addressAssigned: bool, isExpired: bool)

  /** IFADDRCONF_ADD and IFADDRCONF_REMOVE. */
  datatype AddrCommand = AddrAdd | AddrRemove

  /** The address half (IA_NA) of a DHCPv6 lease. */
  datatype AddressHalf = AddressHalf(given: bool, cmd: AddrCommand, address: string)

  /** The prefix half (IA_PD) of a DHCPv6 lease. */
  datatype PrefixHalf = PrefixHalf(
    given: bool, cmd: AddrCommand, sitePrefix: string, pdIfAddress: string,
    sitePrefixOld: string, pltime: nat, vltime: nat)

  datatype V6Lease = V6Lease(addr: AddressHalf, prefix: PrefixHalf, nameserver: string, nameserver1: string)

  /** mapt holds the MAP-T option when the server sent one. */
  datatype V6Message = V6Message(lease: V6Lease, isExpired: bool, mapt: Option<string>)

  const NO_V4_LEASE := V4Lease("", "", "", "", "")
  const NO_V6_LEASE := V6Lease(AddressHalf(false, AddrAdd, ""), PrefixHalf(false, AddrAdd, "", "", "", 0, 0), "", "")

  /** What other threads (data model, policies, link managers) may rewrite between two ticks. */
  datatype Config = Config(
    wanEnable: bool, nwModeChanged: bool,
    selEnable: bool, sel: Selection, phy: PhyState, ifaceType: IfaceType,
    enable: bool, enableMapt: bool, reset: bool,
    v4Source: IpSource, v6Source: IpSource, mode: IpMode, refreshDhcp: bool,
    checkType: CheckType, checkTypeChanged: bool,
    vlanEnable: bool, vlanStatus: LinkState, vlanReset: bool, vlanTimeout: int,
    pppEnable: bool, pppLink: LinkState, ipv6cpUp: bool,
    maptFeatureChanged: bool)

  /** The VLAN fields that only the interface machine writes. */
  datatype Discovery = Discovery(expired: bool, activeIndex: int, inUse: string, timerStart: int)

  /** What the record keeps of IPv4: lease, mailbox slot, DHCP client, and the connection-state sysevent. */
  datatype V4Side = V4Side(
    st: IpState, changed: bool, renewed: bool, lease: V4Lease, mail: Option<V4Message>,
    client: ClientState, pid: int, conn: bool)

  datatype V6Side = V6Side(
    st: IpState, changed: bool, renewed: bool, lease: V6Lease, mail: Option<V6Message>,
    client: ClientState, pid: int, conn: bool)

  /** The preferred address mode and the timer that gives it a head start. */
  datatype ModeRecord = ModeRecord(selected: PreferredMode, timer: TimerState, start: int)

  datatype MapRecord = MapRecord(status: MaptState, changed: bool, params: string)

  /** One virtual interface together with its base interface. */
  datatype Iface = Iface(
    cfg: Config, vlans: seq<VlanEntry>,
    status: IfaceStatus, running: bool, current: SmState,
    vlan: Discovery, v4: V4Side, v6: V6Side, mode: ModeRecord, mapt: MapRecord,
    checkRunning: bool)

  /** The places from which a DHCP client may be started. */
  datatype Site = AtValidated | AtIpv4Down | AtIpv6Down | AtMaptDown | AtFeatureRefresh | AtModeRefresh | AtMonitor

  /** The process id of a client started at each place; 0 when the start failed. */
  datatype ProcessIds = ProcessIds(
    validated: int, ipv4Down: int, ipv6Down: int, maptDown: int, featureRefresh: int, modeRefresh: int, monitor: int)
  {
    function At(site: Site): int {
      match site
      case AtValidated => validated
      case AtIpv4Down => ipv4Down
      case AtIpv6Down => ipv6Down
      case AtMaptDown => maptDown
      case AtFeatureRefresh => featureRefresh
      case AtModeRefresh => modeRefresh
      case AtMonitor => monitor
    }
  }

  datatype PppReply = NoPppInterface | PppQueryFailed | PppConnected | PppNotConnected

  /** Everything the operating system and the other components answer during one tick. */
  datatype World = World(
    now: int,
    pid4: ProcessIds, pid6: ProcessIds, alive4: bool, alive6: bool, stop6Ok: bool,
    setUpV4Ok: bool, tearDownV4Ok: bool, broadcastOk: bool,
    setUpV6Ok: bool, tearDownV6Ok: bool, lanPrefixOk: bool, lanReady: bool,
    globalAddr: Option<string>, globalAddrWithLen: string,
    tearDownMaptOk: bool, setUpMaptOk: bool, verifyMaptOk: bool, processMaptOk: bool, maptFeature: bool,
    restartCheck: bool, ppp: PppReply, ulaAddress: string,
    vlanFound: bool, pppFound: bool, startMode: PreferredMode)

  /** SELECTED_MODE_TIMEOUT_SECONDS */
  const SELECTED_MODE_TIMEOUT := 10
}
