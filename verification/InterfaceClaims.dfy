/** What one tick of the interface machine achieves: connections, teardown, order of the layers, termination. */
module InterfaceClaims {
  import opened WanTypes
  import opened DhcpEvents
  import opened InterfaceSpec
  import opened InterfaceInvariant
  import opened InterfaceRuns

  // ---- a leased state and the connection-state sysevents ----

  /** Every address family that the state needs has its connection-state sysevent up. */
  predicate Connected(st: SmState, s: Iface) {
    (Needs4(st) ==> s.v4.conn) && (Needs6(st) ==> s.v6.conn)
  }

  /** The system commands that configure and remove addresses succeed during this tick. */
  predicate Succeeds(w: World) {
    w.setUpV4Ok && w.tearDownV4Ok && w.setUpV6Ok && w.tearDownV6Ok && w.lanPrefixOk
  }

  predicate ServesIpv4(s: Iface) {
    && Serves(s) && !VlanIsDown(s.cfg) && !PppIsNotUp(s.cfg)
    && s.v4.st == IpUp && !(s.cfg.refreshDhcp && !WantsV4(s.cfg))
  }

  predicate ServesIpv6(s: Iface) {
    && Serves(s) && !VlanIsDown(s.cfg) && !PppIsNotUp(s.cfg)
    && s.v6.st == IpUp && !(s.cfg.refreshDhcp && !WantsV6(s.cfg))
  }

  predicate DropsForFeature(s: Iface, w: World) {
    RefreshesMapt(s) && w.maptFeature
  }

  /** IPV4_LEASED stays although IPv4 is low; neither a changed lease nor IPv6 brings anything up. */
  predicate Ipv4Slips(s: Iface, w: World) {
    && ServesIpv4(s) && !s.v4.changed && !s.v4.conn
    && if s.v6.st == IpUp then s.v6.changed || !w.lanReady else s.v4.renewed || !DropsForFeature(s, w)
  }

  /** IPV6_LEASED stays, or hands over to MAP-T, although IPv6 is low. */
  predicate Ipv6Slips(s: Iface, w: World) {
    ServesIpv6(s) && !s.v6.changed && !s.v6.conn && s.v4.st != IpUp && !DropsForFeature(s, w)
  }

  /** DUAL_STACK_ACTIVE reapplies one family while the other is low, hands over to MAP-T, or stays with one low. */
  predicate DualStackSlips(s: Iface, w: World) {
    && ServesBoth(s)
    && if s.v4.changed then !s.v6.conn
       else if s.v6.changed then !s.v4.conn
       else if SwitchesToMapt(s, w) then !s.v6.conn || (!w.processMaptOk && (s.status == StatusUp || !s.v4.conn))
       else !DropsForFeature(s, w) && !(s.v4.conn && s.v6.conn)
  }

  /** MAPT_ACTIVE falls back to IPV6_LEASED, or stays without a changed lease, although IPv6 is low. */
  predicate MaptSlips(s: Iface, w: World) {
    && Serves(s) && !s.v6.conn
    && (LeavesMapt(s) || if s.cfg.maptFeatureChanged then w.maptFeature else !s.v6.changed)
  }

  /** The leased handlers look after the DHCP clients before or after they serve. */
  predicate Slips(st: SmState, s: Iface, w: World) {
    || (st == Ipv4Leased && Ipv4Slips(MonitorDhcpApps(AddV6Client(s, w), w), w))
    || (st == Ipv6Leased && Ipv6Slips(MonitorDhcpApps(AddV4Client(s, w), w), w))
    || (st == DualStackActive && DualStackSlips(s, w))
    || (st == MaptActive && MaptSlips(s, w))
  }

  /** With both families covered and Status UP only four ways are left. */
  predicate SlipsCovered(st: SmState, s: Iface, w: World) {
    || (st == DualStackActive && ServesBoth(s) &&
        if s.v4.changed then !s.v6.conn else SwitchesToMapt(s, w) && !w.processMaptOk)
    || (st == MaptActive && Serves(s) && !s.v6.conn &&
        (LeavesMapt(s) || (s.cfg.maptFeatureChanged && w.maptFeature)))
  }

  lemma TakeAddressConnects(s: Iface, w: World)
    requires Base(s)
    ensures Connected(TakeAddress(s, w).next, TakeAddress(s, w).s)
  {
    hide MaptFeatureRefresh;
  }

  lemma ObtainingConnects(s: Iface, w: World)
    requires Base(s)
    ensures Connected(OnObtainingIp(s, w).next, OnObtainingIp(s, w).s)
  {
    hide PhysicalInterfaceDown; hide WanValidated; hide RefreshClients; hide MonitorDhcpApps; hide TakeAddress;
    MonitorKeeps(CompleteMode(s), w, ObtainingIp);
    TakeAddressConnects(MonitorDhcpApps(CompleteMode(s), w), w);
  }

  lemma ActivateConnects(s: Iface, w: World)
    ensures Connected(Activate(s, w).next, Activate(s, w).s)
  {
    hide Checked;
  }

  lemma StandbyConnects(s: Iface, w: World)
    requires Base(s)
    ensures Connected(OnStandbyState(s, w).next, OnStandbyState(s, w).s)
  {
    hide PhysicalInterfaceDown; hide MonitorDhcpApps; hide Activate;
    ActivateConnects(MonitorDhcpApps(s, w), w);
  }

  lemma Ipv4TickConnects(s: Iface, w: World)
    requires Known(s) && Succeeds(w)
    ensures Connected(Ipv4LeasedTick(s, w).next, Ipv4LeasedTick(s, w).s) <==> !Ipv4Slips(s, w)
  {
    hide PhysicalInterfaceDown; hide MaptFeatureRefresh; hide Ipv4DownClient; hide Follows; hide Kept;
    hide RaisedByActive; hide Lost4; hide Checked; hide RefreshesMapt;
  }

  lemma Ipv4LeasedConnects(s: Iface, w: World)
    requires Fit(Ipv4Leased, s) && Succeeds(w)
    ensures Connected(OnIpv4Leased(s, w).next, OnIpv4Leased(s, w).s) <==> !Slips(Ipv4Leased, s, w)
  {
    hide Ipv4LeasedTick; hide MonitorDhcpApps; hide Ipv4Slips;
    MonitorKeeps(AddV6Client(s, w), w, Ipv4Leased);
    Ipv4TickConnects(MonitorDhcpApps(AddV6Client(s, w), w), w);
  }

  lemma Ipv6TickConnects(s: Iface, w: World)
    requires Known(s) && Succeeds(w) && s.current == Ipv6Leased
    ensures Connected(Ipv6LeasedTick(s, w).next, Ipv6LeasedTick(s, w).s) <==> !Ipv6Slips(s, w)
  {
    hide PhysicalInterfaceDown; hide MaptFeatureRefresh; hide Ipv6DownClient; hide MaptTakesOver; hide Follows;
    hide Kept; hide RaisedByActive; hide Lost6; hide MaptStopped; hide Checked;
    if s.v4.st != IpUp {
      MaptLeavesIpv6(s, w);
    }
  }

  lemma MaptLeavesIpv6(s: Iface, w: World)
    requires s.v4.st != IpUp
    ensures MaptTakesOver(s, w).v6 == s.v6
  {
  }

  lemma Ipv6LeasedConnects(s: Iface, w: World)
    requires Fit(Ipv6Leased, s) && s.current == Ipv6Leased && Succeeds(w)
    ensures Connected(OnIpv6Leased(s, w).next, OnIpv6Leased(s, w).s) <==> !Slips(Ipv6Leased, s, w)
  {
    hide Ipv6LeasedTick; hide MonitorDhcpApps; hide Ipv6Slips;
    MonitorKeeps(AddV4Client(s, w), w, Ipv6Leased);
    Ipv6TickConnects(MonitorDhcpApps(AddV4Client(s, w), w), w);
  }

  lemma MaptTakesOverIpv4(s: Iface, w: World)
    requires s.v4.st == IpUp && !s.v4.changed
    ensures MaptTakesOver(s, w).v6 == s.v6
    ensures MaptTakesOver(s, w).v4.conn == (s.v4.conn && s.status != StatusUp)
  {
  }

  lemma ServeDualStackConnects(s: Iface, w: World)
    requires s.current == DualStackActive && Succeeds(w) && ServesBoth(s)
    ensures Connected(ServeDualStack(s, w).next, ServeDualStack(s, w).s) <==> !DualStackSlips(s, w)
  {
    hide MaptFeatureRefresh; hide MaptTakesOver; hide Monitored4; hide Monitored6; hide MonitoredConfig;
    hide Follows; hide Kept; hide RaisedByActive; hide Torn; hide WantsV4; hide WantsV6;
    if !s.v4.changed {
      MaptTakesOverIpv4(s, w);
    }
  }

  lemma DualStackConnects(s: Iface, w: World)
    requires Fit(DualStackActive, s) && s.current == DualStackActive && Succeeds(w)
    ensures Connected(OnDualStackActive(s, w).next, OnDualStackActive(s, w).s) <==> !DualStackSlips(s, w)
  {
    hide PhysicalInterfaceDown; hide DualStackDown; hide ServeDualStack; hide Ipv4DownClient; hide Ipv6DownClient;
    hide Lost4; hide MaptStopped; hide Checked; hide Follows; hide Kept; hide RaisedByActive; hide SwitchesToMapt;
    hide RefreshesMapt; hide Torn; hide WantsV4; hide WantsV6; hide Stuck4;
    DualStackDownKeeps(s, w);
    if ServesBoth(s) {
      ServeDualStackConnects(s, w);
    }
  }

  lemma KeepMaptConnects(s: Iface, w: World)
    requires Succeeds(w)
    ensures KeepMapt(s, w).v6.conn <==> s.v6.conn || (!s.cfg.maptFeatureChanged && s.v6.changed)
  {
    hide Kept; hide Checked;
  }

  lemma ServeMaptConnects(s: Iface, w: World)
    requires s.cfg.sel == Active && Succeeds(w)
    ensures Connected(ServeMapt(s, w).next, ServeMapt(s, w).s) <==>
            s.v6.conn || !(if s.cfg.maptFeatureChanged then w.maptFeature else !s.v6.changed)
  {
    hide KeepMapt; hide Monitored4; hide MonitoredConfig; hide LoseFeature; hide Follows; hide Kept;
    hide RaisedByActive;
    KeepMaptConnects(s, w);
  }

  lemma MaptConnects(s: Iface, w: World)
    requires Fit(MaptActive, s) && Succeeds(w)
    ensures Connected(OnMaptActive(s, w).next, OnMaptActive(s, w).s) <==> !MaptSlips(s, w)
  {
    hide PhysicalInterfaceDown; hide ServeMapt; hide MaptDown4; hide MaptStopped; hide LeavesMapt; hide Torn;
    hide Follows; hide Kept; hide RaisedByActive; hide MailFits;
    if s.cfg.sel == Active {
      ServeMaptConnects(s, w);
    }
  }

  lemma HandlerConnects(st: SmState, s: Iface, w: World)
    requires Fit(st, s) && s.current == st && Finds(st, s) && Succeeds(w)
    ensures Connected(Handle(st, s, w).next, Handle(st, s, w).s) <==> !Slips(st, s, w)
  {
    hide DualStackSlips; hide MaptSlips; hide Ipv4Slips; hide Ipv6Slips; hide OnObtainingIp; hide OnStandbyState;
    hide OnIpv4Leased; hide OnIpv6Leased; hide OnDualStackActive; hide OnMaptActive; hide OnVlanConfiguring;
    hide OnPppConfiguring; hide OnValidatingWan; hide OnRefreshingWan; hide OnDeconfiguringWan;
    match st
    case ObtainingIp => ObtainingConnects(s, w);
    case Standby => StandbyConnects(s, w);
    case Ipv4Leased => Ipv4LeasedConnects(s, w);
    case Ipv6Leased => Ipv6LeasedConnects(s, w);
    case DualStackActive => DualStackConnects(s, w);
    case MaptActive => MaptConnects(s, w);
    case _ =>
  }

  /** The configuration the handler of this tick sees. */
  function SeenConfig(m: Machine, i: Input): Config {
    Environment(m.s, i.events).cfg
  }

  /**
   "Leased means connected" holds after a tick in which the system commands succeed exactly when the tick did not
   slip, whatever was received before.
   */
  lemma LeasedMeansConnected(m: Machine, inputs: seq<Input>, i: Input)
    requires Inv(m) && Runnable(m, inputs) && CanStep(Run(m, inputs), i)
    requires Run(m, inputs).alive && Succeeds(i.w)
    ensures var n := Run(m, inputs);
            Connected(Step(n, i).st, Step(n, i).s) <==> !Slips(n.st, Prepared(n, i), i.w)
  {
    var n := Run(m, inputs);
    RunKeeps(m, inputs);
    PreparedKeeps(n, i);
    hide Run; hide Prepared; hide Slips; hide Connected; hide Handle; hide Stuck4;
    HandlerConnects(n.st, Prepared(n, i), i.w);
  }

  /** In every round of the run in which the commands succeed, the next state is connected exactly without a slip. */
  predicate ConnectsUnlessSlips(m: Machine, inputs: seq<Input>)
    requires Runnable(m, inputs)
    decreases |inputs|
  {
    inputs != [] ==>
      var n := Step(m, inputs[0]);
      && (m.alive && Succeeds(inputs[0].w) ==>
            (Connected(n.st, n.s) <==> !Slips(m.st, Prepared(m, inputs[0]), inputs[0].w)))
      && ConnectsUnlessSlips(n, inputs[1..])
  }

  lemma {:induction false} EveryRoundConnects(m: Machine, inputs: seq<Input>)
    requires Inv(m) && Runnable(m, inputs)
    ensures ConnectsUnlessSlips(m, inputs)
    decreases |inputs|
  {
    if inputs != [] {
      var i := inputs[0];
      StepKeeps(m, i);
      if m.alive && Succeeds(i.w) {
        assert Run(m, []) == m && Runnable(m, []);
        LeasedMeansConnected(m, [], i);
      }
      hide Step; hide Inv; hide CanStep; hide Connected; hide Slips; hide Prepared; hide Succeeds;
      EveryRoundConnects(Step(m, i), inputs[1..]);
    }
  }

  /** With cover and Status UP, only a reapplied IPv4, a failing MAP-T set-up or a MAPT_ACTIVE with low IPv6 slips. */
  lemma CoverNarrowsSlips(st: SmState, s: Iface, w: World)
    requires Known(s) && Upright(st, s) && Covered(st, s)
    ensures Slips(st, s, w) <==> SlipsCovered(st, s, w)
  {
    hide Torn; hide WantsV4; hide WantsV6; hide VlanIsDown; hide PppIsNotUp; hide MonitoredConfig;
    hide Monitored4; hide Monitored6; hide AddV4Client; hide AddV6Client; hide RefreshesMapt;
  }

  lemma {:induction false} EndOfRun(m: Machine, inputs: seq<Input>)
    requires Runnable(m, inputs)
    ensures AlwaysUpright(m, inputs) ==> Upright(Run(m, inputs).st, Run(m, inputs).s)
    ensures AlwaysCovered(m, inputs) ==> Covered(Run(m, inputs).st, Run(m, inputs).s)
    decreases |inputs|
  {
    if inputs != [] {
      hide Step; hide Upright; hide Covered; hide Prepared;
      EndOfRun(Step(m, inputs[0]), inputs[1..]);
    }
  }

  /** After a run in which no message made a needed family lapse, the tick slips only in the ways that are left. */
  lemma CoveredRunsConnect(m: Machine, inputs: seq<Input>, i: Input)
    requires Inv(m) && Upright(m.st, m.s) && Covered(m.st, m.s)
    requires Runnable(m, inputs) && CanStep(Run(m, inputs), i) && NeverLapses(m, inputs)
    requires Run(m, inputs).alive && Succeeds(i.w) && !LapsesIn(Run(m, inputs), i)
    ensures var n := Run(m, inputs);
            Connected(Step(n, i).st, Step(n, i).s) <==> !SlipsCovered(n.st, Prepared(n, i), i.w)
  {
    var n := Run(m, inputs);
    RunKeeps(m, inputs);
    CoverStays(m, inputs);
    StatusStaysUp(m, inputs);
    EndOfRun(m, inputs);
    hide Run; hide NeverLapses; hide NeverSlips; hide AlwaysCovered; hide AlwaysUpright;
    PreparedKeeps(n, i);
    StepCover(n, i);
    hide Prepared; hide Slips; hide SlipsCovered; hide Connected; hide Step; hide Covered; hide Upright; hide Stuck4;
    hide LapsesIn;
    CoverNarrowsSlips(n.st, Prepared(n, i), i.w);
    LeasedMeansConnected(m, inputs, i);
  }

  /** What is published fits the state after every run; a leased state is UP unless a round slipped. */
  lemma StatusFitsState(m: Machine, inputs: seq<Input>)
    requires Inv(m) && Runnable(m, inputs)
    ensures var n := Run(m, inputs);
            && (n.s.status == Disabled <==> n.st == Exit) && (n.s.running <==> n.st != Exit)
            && (n.st == Standby ==> n.s.status == OnStandby)
            && (Upright(m.st, m.s) && NeverSlips(m, inputs) && Leased(n.st) ==> n.s.status == StatusUp)
  {
    RunKeeps(m, inputs);
    EndOfRun(m, inputs);
    if Upright(m.st, m.s) {
      StatusStaysUp(m, inputs);
    }
    hide Run; hide AlwaysUpright; hide NeverSlips; hide AlwaysCovered;
  }

  lemma {:induction false} EventsRaiseNothing(s: Iface, events: seq<Event>)
    ensures var r := Environment(s, events); (r.v4.conn ==> s.v4.conn) && (r.v6.conn ==> s.v6.conn)
    decreases |events|
  {
    if events != [] {
      EventsRaiseNothing(Happen(s, events[0]), events[1..]);
    }
  }

  /** A connection-state sysevent goes up only in a round in which the interface is the active one. */
  lemma OnlyActiveConnects(m: Machine, i: Input)
    requires CanStep(m, i)
    ensures var s := Step(m, i).s;
            (s.v4.conn && !m.s.v4.conn) || (s.v6.conn && !m.s.v6.conn) ==> SeenConfig(m, i).sel == Active
  {
    EventsRaiseNothing(m.s, i.events);
    DrainRaisesNothing(Environment(m.s, i.events), i.w);
    hide Environment; hide Drain; hide Handle;
  }

  lemma DrainRaisesNothing(s: Iface, w: World)
    ensures var r := Drain(s, w); (r.v4.conn ==> s.v4.conn) && (r.v6.conn ==> s.v6.conn) && r.cfg == s.cfg
  {
    hide HandleV4; hide HandleV6; hide MaptAfterV6; hide StatusAfterV4;
  }

  // ---- teardown ----

  lemma AfterDropMapt(s: Iface, w: World)
    requires Known(s)
    ensures var r := DropMapt(s, w);
            && r.mapt.status == MaptDown && r.v6 == s.v6 && r.status == s.status && r.v4.conn == s.v4.conn
            && r.v4.st == (if s.mapt.status == MaptUp then IpDown else s.v4.st)
            && r.cfg == s.cfg && r.vlan == s.vlan && Known(r)
  {
  }

  lemma AfterDropV4(s: Iface, w: World)
    requires Known(s)
    ensures var r := DropV4(s, w);
            && r.v4.st == IpDown && r.v6 == s.v6 && r.mapt == s.mapt && r.cfg == s.cfg && r.vlan == s.vlan && Known(r)
            && r.v4.conn == (s.v4.conn && !(s.v4.st == IpUp && s.status == StatusUp))
  {
  }

  lemma AfterDropV6(s: Iface, w: World)
    requires Known(s)
    ensures var r := DropV6(s, w);
            && r.v6.st == IpDown && r.v4 == s.v4 && r.cfg == s.cfg && r.vlan == s.vlan && Known(r)
            && r.v6.conn == (s.v6.conn && s.v6.st != IpUp)
            && (s.mapt.status == MaptDown ==> r.mapt.status == MaptDown)
  {
  }

  /** Nothing is left of a lease after the teardown, even if a nested transition restarted a client. */
  predicate TornDown(s: Iface) {
    && s.v4.st == IpDown && s.v6.st == IpDown && s.mapt.status == MaptDown
    && s.v4.client != Started && s.v6.client != Started
    && !s.checkRunning && s.mode.timer == NotStarted
    && !(s.cfg.pppEnable && s.cfg.pppLink == LinkConfiguring)
    && !(s.cfg.vlanEnable && s.cfg.ifaceType != RemoteIface && s.cfg.vlanStatus == LinkConfiguring)
  }

  /** The flags are always torn down; the sysevents exactly under the guards of the nested transitions. */
  lemma TeardownIsComplete(s: Iface, w: World)
    requires Known(s)
    ensures var m := PhysicalInterfaceDown(s, w);
            && TornDown(m.s)
            && (m.next == RefreshingWan <==> s.cfg.reset || s.cfg.vlanReset || s.vlan.expired)
            && (m.s.v4.conn <==> s.v4.conn && !(s.mapt.status != MaptUp && s.v4.st == IpUp && s.status == StatusUp))
            && (m.s.v6.conn <==> s.v6.conn && s.v6.st != IpUp)
  {
    hide DropMapt; hide DropV4; hide DropV6; hide MaptDown4; hide Lost4; hide Lost6;
    AfterDropMapt(s, w);
    AfterDropV4(DropMapt(s, w), w);
    AfterDropV6(DropV4(DropMapt(s, w), w), w);
  }

  // ---- termination ----

  /** The interface is no longer wanted, and its enabled lower links report down. */
  predicate Shut(c: Config) {
    Blocked(c) && !LinksBusy(c)
  }

  predicate ShutThroughout(m: Machine, inputs: seq<Input>)
    requires Runnable(m, inputs)
    decreases |inputs|
  {
    inputs != [] ==>
      Shut(SeenConfig(m, inputs[0])) && !inputs[0].launch && ShutThroughout(Step(m, inputs[0]), inputs[1..])
  }

  /** How many more ticks the thread may take; REFRESHING is a detour. */
  function Rank(m: Machine): (r: nat)
    ensures r <= 4
  {
    if !m.alive then 0
    else match m.st
      case Exit => 1
      case DeconfiguringWan => 2
      case RefreshingWan => 3
      case _ => 4
  }

  lemma {:induction false} ShutStops(m: Machine, inputs: seq<Input>)
    requires Runnable(m, inputs) && ShutThroughout(m, inputs) && Rank(m) <= |inputs|
    ensures !Run(m, inputs).alive
    decreases |inputs|
  {
    if inputs != [] {
      ShutSinks(m, inputs[0]);
      ShutStops(Step(m, inputs[0]), inputs[1..]);
    }
  }

  lemma ShutHandler(st: SmState, s: Iface, w: World)
    requires Finds(st, s) && s.current == st && Shut(s.cfg)
    ensures var next := Handle(st, s, w).next;
            match st
            case Exit => next == Exit
            case DeconfiguringWan => next == Exit
            case RefreshingWan => next == DeconfiguringWan
            case _ => next == RefreshingWan || next == DeconfiguringWan
  {
  }

  lemma ShutSinks(m: Machine, i: Input)
    requires CanStep(m, i) && Shut(SeenConfig(m, i)) && !i.launch
    ensures Rank(Step(m, i)) <= (if m.alive then Rank(m) - 1 else 0)
  {
    hide Environment; hide Blocked; hide LinksBusy; hide Handle;
    if m.alive {
      ShutHandler(m.st, Prepared(m, i), i.w);
    }
  }

  // ---- the order of the layers over whole runs ----

  /** One round of the loop, or the start of a thread (from EXIT to VLAN_CONFIGURING). */
  datatype Tick = Tick(from: SmState, cfg: Config, to: SmState)

  function Trace(m: Machine, inputs: seq<Input>): seq<Tick>
    requires Runnable(m, inputs)
    decreases |inputs|
  {
    if inputs == [] then []
    else
      var n := Step(m, inputs[0]);
      (if m.alive || inputs[0].launch then [Tick(m.st, SeenConfig(m, inputs[0]), n.st)] else []) +
      Trace(n, inputs[1..])
  }

  /** The states that need a validated link. */
  predicate OnTop(st: SmState) {
    st == ObtainingIp || st == Standby || Leased(st)
  }

  predicate InStack(st: SmState) {
    st == PppConfiguring || st == ValidatingWan || OnTop(st)
  }

  /** Tick a left VLAN_CONFIGURING with the VLAN up if enabled; no start or refresh came after it. */
  predicate VlanPassed(t: seq<Tick>, a: nat) {
    && a < |t| && t[a].from == VlanConfiguring && t[a].to == PppConfiguring
    && (t[a].cfg.vlanEnable ==> t[a].cfg.vlanStatus == LinkUp)
    && forall k | a <= k < |t| :: InStack(t[k].to)
  }

  predicate PppPassed(t: seq<Tick>, b: nat) {
    && b < |t| && t[b].from == PppConfiguring && t[b].to == ValidatingWan
    && (t[b].cfg.pppEnable ==> t[b].cfg.pppLink == LinkUp)
  }

  predicate Validated(t: seq<Tick>, c: nat) {
    c < |t| && t[c].from == ValidatingWan && t[c].to == ObtainingIp
  }

  ghost predicate UpToPpp(t: seq<Tick>) {
    exists a: nat :: VlanPassed(t, a)
  }

  ghost predicate UpToValidation(t: seq<Tick>) {
    exists a: nat, b: nat :: a < b && VlanPassed(t, a) && PppPassed(t, b)
  }

  ghost predicate UpToAddresses(t: seq<Tick>) {
    exists a: nat, b: nat, c: nat :: a < b < c && VlanPassed(t, a) && PppPassed(t, b) && Validated(t, c)
  }

  /** How far up the stack a machine in state st has provably climbed. */
  ghost predicate Climbed(t: seq<Tick>, st: SmState) {
    && (st == PppConfiguring ==> UpToPpp(t))
    && (st == ValidatingWan ==> UpToValidation(t))
    && (OnTop(st) ==> UpToAddresses(t))
  }

  /** Connections are taken up only in ticks in which the interface is the active one. */
  predicate ByActive(k: Tick) {
    (Leased(k.to) && !Leased(k.from)) || (k.from != k.to && (k.to == DualStackActive || k.to == MaptActive)) ==>
      k.cfg.sel == Active
  }

  lemma VlanStillPassed(t: seq<Tick>, k: Tick, a: nat)
    requires VlanPassed(t, a) && InStack(k.to)
    ensures VlanPassed(t + [k], a)
  {
  }

  lemma ClimbOn(t: seq<Tick>, k: Tick)
    requires Climbed(t, k.from) && Follows(k.from, k.cfg, k.to)
    ensures Climbed(t + [k], k.to)
  {
    var u := t + [k];
    if k.to == PppConfiguring && k.from == VlanConfiguring {
      assert VlanPassed(u, |t|);
    } else if k.from == PppConfiguring && InStack(k.to) {
      var a: nat :| VlanPassed(t, a);
      VlanStillPassed(t, k, a);
      if k.to == ValidatingWan {
        assert PppPassed(u, |t|);
      }
    } else if k.from == ValidatingWan && OnTop(k.to) {
      var a: nat, b: nat :| a < b && VlanPassed(t, a) && PppPassed(t, b);
      VlanStillPassed(t, k, a);
      assert PppPassed(u, b) && Validated(u, |t|);
    } else if OnTop(k.from) && OnTop(k.to) {
      var a: nat, b: nat, c: nat :| a < b < c && VlanPassed(t, a) && PppPassed(t, b) && Validated(t, c);
      VlanStillPassed(t, k, a);
      assert PppPassed(u, b) && Validated(u, c);
    }
  }

  lemma StepFollows(m: Machine, i: Input)
    requires CanStep(m, i) && (m.alive || m.st == Exit)
    ensures m.alive ==> Follows(m.st, SeenConfig(m, i), Step(m, i).st)
    ensures !m.alive ==> Step(m, i).st == (if i.launch then VlanConfiguring else Exit)
    ensures Step(m, i).alive || Step(m, i).st == Exit
  {
    hide Environment;
  }

  /** One step of a run extends the climb. */
  lemma ClimbStep(m: Machine, i: Input, past: seq<Tick>)
    requires CanStep(m, i) && (m.alive || m.st == Exit)
    requires Climbed(past, m.st) && forall k | k in past :: ByActive(k)
    ensures var n := Step(m, i);
            var k := Tick(m.st, SeenConfig(m, i), n.st);
            var now := if m.alive || i.launch then past + [k] else past;
            (n.alive || n.st == Exit) && Climbed(now, n.st) && forall k | k in now :: ByActive(k)
  {
    hide Step; hide SeenConfig; hide UpToPpp; hide UpToValidation; hide UpToAddresses;
    StepFollows(m, i);
    if m.alive {
      ClimbOn(past, Tick(m.st, SeenConfig(m, i), Step(m, i).st));
    }
  }

  /** Every leased state stands on a VLAN, PPP and validation step taken since the last start or refresh. */
  lemma {:induction false} LayersComeInOrder(m: Machine, inputs: seq<Input>, past: seq<Tick>)
    requires Runnable(m, inputs) && (m.alive || m.st == Exit) && Climbed(past, m.st)
    requires forall k | k in past :: ByActive(k)
    ensures Climbed(past + Trace(m, inputs), Run(m, inputs).st)
    ensures forall k | k in past + Trace(m, inputs) :: ByActive(k)
    decreases |inputs|
  {
    hide Step; hide SeenConfig; hide Climbed; hide ByActive;
    if inputs == [] {
      assert past + [] == past;
    } else {
      var i := inputs[0];
      var n := Step(m, i);
      var k := if m.alive || i.launch then [Tick(m.st, SeenConfig(m, i), n.st)] else [];
      ClimbStep(m, i, past);
      assert past + [] == past;
      LayersComeInOrder(n, inputs[1..], past + k);
      assert past + Trace(m, inputs) == (past + k) + Trace(n, inputs[1..]);
    }
  }
}
