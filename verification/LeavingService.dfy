/** What is left of the connection-state sysevents when a machine is in no leased state, or gives one up. */
module LeavingService {
  import opened WanTypes
  import opened DhcpEvents
  import opened InterfaceSpec
  import opened InterfaceInvariant
  import opened InterfaceRuns
  import opened InterfaceClaims

  /** How a round gives something up; the guards of the handlers decide, in their order. */
  datatype Loss = TornDown | BothLost | Ipv4Lost | Ipv6Lost | PutOnStandby | FeatureLost | NoLoss

  predicate LinkIsLost(c: Config) {
    VlanIsDown(c) || PppIsNotUp(c)
  }

  predicate Ipv4IsLost(s: Iface) {
    s.v4.st == IpDown || (s.cfg.refreshDhcp && !WantsV4(s.cfg))
  }

  predicate Ipv6IsLost(s: Iface) {
    s.v6.st == IpDown || (s.cfg.refreshDhcp && !WantsV6(s.cfg))
  }

  predicate IsIdle(c: Config) {
    c.sel != Active || c.nwModeChanged
  }

  function LossInIpv4(s: Iface, w: World): Loss {
    if Torn(s.cfg) then TornDown
    else if Ipv4IsLost(s) || LinkIsLost(s.cfg) then Ipv4Lost
    else if IsIdle(s.cfg) then PutOnStandby
    else if !s.v4.changed && s.v6.st != IpUp && !s.v4.renewed && DropsForFeature(s, w) then FeatureLost
    else NoLoss
  }

  function LossInIpv6(s: Iface, w: World): Loss {
    if Torn(s.cfg) then TornDown
    else if Ipv6IsLost(s) || LinkIsLost(s.cfg) then Ipv6Lost
    else if IsIdle(s.cfg) then PutOnStandby
    else if !s.v6.changed && s.v4.st != IpUp && DropsForFeature(s, w) then FeatureLost
    else NoLoss
  }

  function LossInDualStack(s: Iface, w: World): Loss {
    if Torn(s.cfg) then TornDown
    else if LinkIsLost(s.cfg) then BothLost
    else if Ipv4IsLost(s) then Ipv4Lost
    else if IsIdle(s.cfg) then PutOnStandby
    else if !s.v4.changed && Ipv6IsLost(s) then Ipv6Lost
    else if !s.v4.changed && !s.v6.changed && DropsForFeature(s, w) then FeatureLost
    else NoLoss
  }

  function LossInMapt(s: Iface, w: World): Loss {
    if Torn(s.cfg) then TornDown
    else if IsIdle(s.cfg) then PutOnStandby
    else if !LeavesMapt(s) && s.cfg.maptFeatureChanged && !w.maptFeature then FeatureLost
    else NoLoss
  }

  predicate TornWhileObtaining(s: Iface, w: World) {
    || Blocked(s.cfg) || s.cfg.reset || VlanTimerExpired(s, w) || VlanIsDown(s.cfg)
    || s.cfg.vlanStatus == LinkConfiguring || s.cfg.pppLink == LinkConfiguring
    || (s.cfg.pppEnable && s.cfg.pppLink == LinkDown)
  }

  function LossInObtaining(s: Iface, w: World): Loss {
    if TornWhileObtaining(s, w) then TornDown
    else if !InHeadStart(s) && !s.cfg.refreshDhcp && s.v4.st != IpUp && s.v6.st != IpUp && DropsForFeature(s, w)
    then FeatureLost
    else NoLoss
  }

  /** The single-stack states look after the DHCP clients first. */
  function LossIn(st: SmState, s: Iface, w: World): Loss {
    match st
    case Ipv4Leased => LossInIpv4(MonitorDhcpApps(AddV6Client(s, w), w), w)
    case Ipv6Leased => LossInIpv6(MonitorDhcpApps(AddV4Client(s, w), w), w)
    case DualStackActive => LossInDualStack(s, w)
    case MaptActive => LossInMapt(s, w)
    case ObtainingIp => LossInObtaining(s, w)
    case Standby => if Blocked(s.cfg) then TornDown else NoLoss
    case RefreshingWan => if Blocked(s.cfg) then TornDown else NoLoss
    case DeconfiguringWan => NoLoss
    case Exit => NoLoss
    case _ => if Blocked(s.cfg) || VlanTimerExpired(s, w) then TornDown else NoLoss
  }

  /** The loss ends in a state that is not leased: the other family does not carry on. */
  predicate Leaves(loss: Loss, s: Iface) {
    match loss
    case NoLoss => false
    case Ipv4Lost => !(s.v6.st == IpUp && s.v6.conn)
    case Ipv6Lost => !(s.v4.st == IpUp && s.v4.conn)
    case _ => true
  }

  /** The tear-down of IPv4 is skipped: MAP-T went first, IPv4 was not up, or Status had been lowered before. */
  predicate Survives4(loss: Loss, s: Iface) {
    match loss
    case TornDown => s.mapt.status == MaptUp || s.v4.st != IpUp || s.status != StatusUp
    case Ipv4Lost => s.status != StatusUp
    case PutOnStandby => s.v4.st != IpUp
    case _ => true
  }

  predicate Survives6(loss: Loss, s: Iface) {
    match loss
    case TornDown => s.v6.st != IpUp
    case PutOnStandby => s.v6.st != IpUp
    case BothLost => false
    case Ipv6Lost => false
    case FeatureLost => false
    case _ => true
  }

  /** Each sysevent is up after the loss exactly when it was up before and the loss skipped it. */
  predicate LeftBy(loss: Loss, s: Iface, r: Iface) {
    (r.v4.conn <==> s.v4.conn && Survives4(loss, s)) && (r.v6.conn <==> s.v6.conn && Survives6(loss, s))
  }

  /** The move leaves the leased states exactly for a loss that ends there, and then leaves what the loss skips. */
  predicate Explains(loss: Loss, s: Iface, m: Move) {
    (!Leased(m.next) <==> Leaves(loss, s)) && (!Leased(m.next) ==> LeftBy(loss, s, m.s))
  }

  // ---- transitions ----

  lemma TornDownLeft(s: Iface, w: World)
    requires Known(s)
    ensures Explains(TornDown, s, PhysicalInterfaceDown(s, w))
  {
    TeardownIsComplete(s, w);
    hide PhysicalInterfaceDown;
  }

  lemma Ipv4LossLeft(s: Iface, w: World)
    ensures Explains(Ipv4Lost, s, Ipv4Down(s, w))
  {
    hide Kept; hide Checked; hide Ipv4DownClient;
  }

  lemma Ipv6LossLeft(s: Iface, w: World)
    ensures Explains(Ipv6Lost, s, Ipv6Down(s, w))
  {
    hide Kept; hide Checked; hide Ipv6DownClient;
  }

  lemma BothLossLeft(s: Iface, w: World)
    ensures Explains(BothLost, s, DualStackDown(s, w))
  {
    hide Kept; hide Checked; hide Ipv4DownClient; hide Ipv6DownClient;
  }

  lemma StandbyLeft(s: Iface)
    ensures Explains(PutOnStandby, s, StandbyDeconfigIps(s))
  {
  }

  lemma RefreshLeft(s: Iface, w: World)
    ensures var r := MaptFeatureRefresh(s, w).s; r.v4.conn == s.v4.conn && !r.v6.conn
  {
    hide Kept; hide Checked; hide Ipv6DownClient; hide RaisedByActive;
  }

  /** A move to OBTAINING that keeps the IPv4 sysevent and lowers the other one. */
  lemma FeatureIsLost(s: Iface, m: Move)
    requires m.next == ObtainingIp && m.s.v4.conn == s.v4.conn && !m.s.v6.conn
    ensures Explains(FeatureLost, s, m)
  {
  }

  lemma FeatureRefreshLeft(s: Iface, w: World)
    ensures Explains(FeatureLost, s, RefreshFeature(s, w))
  {
    hide Kept; hide RaisedByActive; hide MaptFeatureRefresh; hide Explains;
    RefreshLeft(s.(cfg := s.cfg.(maptFeatureChanged := false)), w);
    FeatureIsLost(s, RefreshFeature(s, w));
  }

  lemma MaptDownKeepsConn(s: Iface, w: World)
    ensures MaptDownTransition(s, w).s.v4.conn == s.v4.conn
  {
    hide Kept; hide RaisedByActive;
  }

  lemma FeatureLossLeft(s: Iface, w: World)
    ensures Explains(FeatureLost, s, LoseFeature(s, w))
  {
    hide Kept; hide RaisedByActive; hide MaptFeatureRefresh; hide MaptDownTransition; hide Explains;
    var s1 := s.(cfg := s.cfg.(maptFeatureChanged := false));
    MaptDownKeepsConn(s1, w);
    RefreshLeft(MaptDownTransition(s1, w).s, w);
    FeatureIsLost(s, LoseFeature(s, w));
  }

  /** As long as the next state is leased nothing has to be explained. */
  lemma NothingLost(s: Iface, m: Move)
    requires Leased(m.next)
    ensures Explains(NoLoss, s, m)
  {
  }

  lemma UpsAreLeased(s: Iface)
    ensures Leased(Ipv4Up(s).next) && Leased(Ipv6Up(s).next)
  {
  }

  // ---- the leased states ----

  lemma ServeIpv4Left(s: Iface, w: World)
    requires s.cfg.sel == Active && s.v4.st == IpUp
    ensures var dropped := !s.v4.changed && s.v6.st != IpUp && !s.v4.renewed && DropsForFeature(s, w);
            Explains(if dropped then FeatureLost else NoLoss, s, ServeIpv4(s, w))
  {
    hide RefreshFeature; hide RefreshesMapt; hide ReapplyV4; hide RenewV4; hide Ipv6Up; hide Explains;
    hide Kept; hide Follows; hide RaisedByActive;
    if !s.v4.changed && s.v6.st != IpUp && !s.v4.renewed && DropsForFeature(s, w) {
      FeatureRefreshLeft(s, w);
    } else {
      UpsAreLeased(s);
      NothingLost(s, ServeIpv4(s, w));
    }
  }

  lemma Ipv4TickLeft(s: Iface, w: World)
    requires Known(s)
    ensures Explains(LossInIpv4(s, w), s, Ipv4LeasedTick(s, w))
  {
    hide PhysicalInterfaceDown; hide Ipv4Down; hide StandbyDeconfigIps; hide ServeIpv4; hide Explains;
    hide Kept; hide Follows; hide RaisedByActive; hide Torn; hide WantsV4; hide DropsForFeature;
    if Torn(s.cfg) {
      TornDownLeft(s, w);
    } else if Ipv4IsLost(s) || LinkIsLost(s.cfg) {
      Ipv4LossLeft(s, w);
    } else if IsIdle(s.cfg) {
      StandbyLeft(s);
    } else {
      ServeIpv4Left(s, w);
    }
  }

  lemma ServeIpv6Left(s: Iface, w: World)
    requires s.cfg.sel == Active && s.v6.st == IpUp && s.current == Ipv6Leased
    ensures Explains(if !s.v6.changed && s.v4.st != IpUp && DropsForFeature(s, w) then FeatureLost else NoLoss,
                     s, ServeIpv6(s, w))
  {
    hide RefreshFeature; hide MaptTakesOver; hide ReapplyV6; hide RenewV6; hide Ipv4Up; hide Explains;
    hide Kept; hide Follows; hide RaisedByActive;
    if !s.v6.changed && s.v4.st != IpUp && DropsForFeature(s, w) {
      FeatureRefreshLeft(s, w);
    } else {
      UpsAreLeased(s);
      NothingLost(s, ServeIpv6(s, w));
    }
  }

  lemma Ipv6TickLeft(s: Iface, w: World)
    requires Known(s) && s.current == Ipv6Leased
    ensures Explains(LossInIpv6(s, w), s, Ipv6LeasedTick(s, w))
  {
    hide PhysicalInterfaceDown; hide Ipv6Down; hide StandbyDeconfigIps; hide ServeIpv6; hide Explains;
    hide Kept; hide Follows; hide RaisedByActive; hide Torn; hide WantsV6; hide DropsForFeature;
    if Torn(s.cfg) {
      TornDownLeft(s, w);
    } else if Ipv6IsLost(s) || LinkIsLost(s.cfg) {
      Ipv6LossLeft(s, w);
    } else if IsIdle(s.cfg) {
      StandbyLeft(s);
    } else {
      ServeIpv6Left(s, w);
    }
  }

  lemma ServeDualStackLeft(s: Iface, w: World)
    requires s.cfg.sel == Active && s.current == DualStackActive
    ensures Explains(if !s.v4.changed && !s.v6.changed && DropsForFeature(s, w) then FeatureLost else NoLoss,
                     s, ServeDualStack(s, w))
  {
    hide RefreshFeature; hide MaptTakesOver; hide KeepDualStack; hide MonitorDhcpApps; hide Explains;
    hide Kept; hide Follows; hide RaisedByActive;
    if !s.v4.changed && !s.v6.changed && DropsForFeature(s, w) {
      FeatureRefreshLeft(s, w);
    } else {
      NothingLost(s, ServeDualStack(s, w));
    }
  }

  lemma DualStackLeft(s: Iface, w: World)
    requires Known(s) && s.current == DualStackActive
    ensures Explains(LossInDualStack(s, w), s, OnDualStackActive(s, w))
  {
    hide PhysicalInterfaceDown; hide DualStackDown; hide Ipv4Down; hide Ipv6Down; hide StandbyDeconfigIps;
    hide ServeDualStack; hide Explains; hide Kept; hide Follows; hide RaisedByActive; hide Torn; hide WantsV4;
    hide WantsV6; hide DropsForFeature;
    if Torn(s.cfg) {
      TornDownLeft(s, w);
    } else if LinkIsLost(s.cfg) {
      BothLossLeft(s, w);
    } else if Ipv4IsLost(s) {
      Ipv4LossLeft(s, w);
    } else if IsIdle(s.cfg) {
      StandbyLeft(s);
    } else if !s.v4.changed && Ipv6IsLost(s) {
      Ipv6LossLeft(s, w);
    } else {
      ServeDualStackLeft(s, w);
    }
  }

  lemma MaptLeft(s: Iface, w: World)
    requires Known(s)
    ensures Explains(LossInMapt(s, w), s, OnMaptActive(s, w))
  {
    hide PhysicalInterfaceDown; hide StandbyDeconfigIps; hide LoseFeature; hide KeepMapt; hide MonitorDhcpApps;
    hide MaptDown4; hide Kept; hide Follows; hide RaisedByActive; hide Torn; hide LeavesMapt; hide LeftBy;
    if Torn(s.cfg) {
      TornDownLeft(s, w);
    } else if IsIdle(s.cfg) {
      StandbyLeft(s);
    } else {
      FeatureLossLeft(s, w);
    }
  }

  /** The two records agree on everything by which a loss is explained. */
  predicate Alike(s: Iface, t: Iface) {
    && t.status == s.status && t.mapt == s.mapt && t.current == s.current
    && t.v4.st == s.v4.st && t.v4.conn == s.v4.conn && t.v6.st == s.v6.st && t.v6.conn == s.v6.conn
  }

  lemma AlikeExplain(loss: Loss, s: Iface, t: Iface, m: Move)
    requires Alike(s, t)
    ensures Explains(loss, t, m) <==> Explains(loss, s, m)
  {
  }

  /** Looking after the clients changes nothing of that. */
  lemma WatchingIsAlike(s: Iface, w: World)
    ensures Alike(s, MonitorDhcpApps(AddV6Client(s, w), w)) && Alike(s, MonitorDhcpApps(AddV4Client(s, w), w))
  {
    hide AddV4Client; hide AddV6Client; hide Monitored4; hide Monitored6; hide MonitoredConfig;
  }

  /**
   A leased state is left exactly for one of the losses after which no family carries on, and each sysevent is up
   afterwards exactly when it was up and this loss skips it.
   */
  lemma LeavingExactly(st: SmState, s: Iface, w: World)
    requires Leased(st) && Known(s) && s.current == st && Finds(st, s)
    ensures Explains(LossIn(st, s, w), s, Handle(st, s, w))
  {
    hide LossInIpv4; hide LossInIpv6; hide LossInDualStack; hide LossInMapt; hide Explains; hide MonitorDhcpApps;
    hide Ipv4LeasedTick; hide Ipv6LeasedTick; hide OnDualStackActive; hide OnMaptActive;
    hide AddV4Client; hide AddV6Client; hide Kept; hide Follows; hide RaisedByActive; hide Finds;
    WatchingIsAlike(s, w);
    match st
    case Ipv4Leased =>
      var t := MonitorDhcpApps(AddV6Client(s, w), w);
      Ipv4TickLeft(t, w);
      AlikeExplain(LossInIpv4(t, w), s, t, Ipv4LeasedTick(t, w));
    case Ipv6Leased =>
      var t := MonitorDhcpApps(AddV4Client(s, w), w);
      Ipv6TickLeft(t, w);
      AlikeExplain(LossInIpv6(t, w), s, t, Ipv6LeasedTick(t, w));
    case DualStackActive => DualStackLeft(s, w);
    case MaptActive => MaptLeft(s, w);
  }

  // ---- the other states ----

  lemma TearDownLeft(s: Iface, t: Iface, w: World)
    requires Known(s) && Alike(s, t) && Known(t)
    ensures LeftBy(TornDown, s, PhysicalInterfaceDown(t, w).s)
  {
    TornDownLeft(t, w);
    hide PhysicalInterfaceDown;
  }

  lemma FirstStatesLeft(st: SmState, s: Iface, w: World)
    requires Known(s) && (st == VlanConfiguring || st == PppConfiguring || st == ValidatingWan)
    ensures LeftBy(LossIn(st, s, w), s, Handle(st, s, w).s)
  {
    hide PhysicalInterfaceDown; hide Kept; hide Follows; hide RaisedByActive; hide Validated4; hide Validated6;
    if Blocked(s.cfg) {
      TearDownLeft(s, s, w);
    } else if VlanTimerExpired(s, w) {
      TearDownLeft(s, s.(vlan := s.vlan.(expired := true)), w);
    }
  }

  lemma TakeAddressLeft(s: Iface, w: World)
    ensures var m := TakeAddress(s, w);
            var dropped := s.v4.st != IpUp && s.v6.st != IpUp && DropsForFeature(s, w);
            !Leased(m.next) ==> LeftBy(if dropped then FeatureLost else NoLoss, s, m.s)
  {
    hide RefreshFeature; hide Kept; hide Follows; hide RaisedByActive; hide Checked; hide RefreshesMapt;
    FeatureRefreshLeft(s, w);
  }

  lemma ServeObtainingLeft(s: Iface, w: World)
    ensures var m := ServeObtaining(s, w);
            var dropped := !s.cfg.refreshDhcp && s.v4.st != IpUp && s.v6.st != IpUp && DropsForFeature(s, w);
            !Leased(m.next) ==> LeftBy(if dropped then FeatureLost else NoLoss, s, m.s)
  {
    hide TakeAddress; hide Kept; hide Follows; hide RaisedByActive; hide Monitored4; hide Monitored6;
    hide MonitoredConfig; hide Refreshed4; hide Refreshed6;
    TakeAddressLeft(MonitorDhcpApps(s, w), w);
  }

  lemma ObtainingLeft(s: Iface, w: World)
    requires Known(s)
    ensures var m := OnObtainingIp(s, w); !Leased(m.next) ==> LeftBy(LossInObtaining(s, w), s, m.s)
  {
    hide PhysicalInterfaceDown; hide ServeObtaining; hide Kept; hide Follows; hide RaisedByActive; hide WanValidated;
    if TornWhileObtaining(s, w) {
      TearDownLeft(s, s, w);
      TearDownLeft(s, s.(vlan := s.vlan.(expired := true)), w);
    } else if InHeadStart(s) {
      ValidatedLeft(s.(mode := s.mode.(timer := Expired)), w);
    } else {
      ServeObtainingLeft(CompleteMode(s), w);
    }
  }

  lemma ValidatedLeft(s: Iface, w: World)
    ensures var r := WanValidated(s, w).s; r.v4.conn == s.v4.conn && r.v6.conn == s.v6.conn
  {
  }

  lemma ActivateLeft(s: Iface, w: World)
    ensures var m := Activate(s, w); !Leased(m.next) ==> m.s.v4.conn == s.v4.conn && m.s.v6.conn == s.v6.conn
  {
    hide Checked; hide Kept;
  }

  lemma ServeStandbyLeft(s: Iface, w: World)
    ensures var m := ServeStandby(s, w); !Leased(m.next) ==> m.s.v4.conn == s.v4.conn && m.s.v6.conn == s.v6.conn
  {
    hide Activate; hide Kept; hide Follows; hide RaisedByActive; hide Checked;
    ActivateLeft(s, w);
  }

  lemma StandbyStateLeft(s: Iface, w: World)
    requires Known(s)
    ensures var m := OnStandbyState(s, w);
            !Leased(m.next) ==> LeftBy(if Blocked(s.cfg) then TornDown else NoLoss, s, m.s)
  {
    hide PhysicalInterfaceDown; hide ServeStandby; hide Kept; hide Follows; hide RaisedByActive; hide Monitored4;
    hide Monitored6; hide MonitoredConfig;
    TearDownLeft(s, s, w);
    ServeStandbyLeft(MonitorDhcpApps(s, w), w);
  }

  lemma RefreshingLeft(s: Iface, w: World)
    requires Known(s) && Finds(RefreshingWan, s)
    ensures LeftBy(if Blocked(s.cfg) then TornDown else NoLoss, s, OnRefreshingWan(s, w).s)
  {
    hide PhysicalInterfaceDown; hide Kept; hide Follows; hide RaisedByActive; hide NextVlan;
    if Blocked(s.cfg) {
      TearDownLeft(
        s, s.(cfg := s.cfg.(reset := false, vlanReset := false), vlan := s.vlan.(expired := false)), w);
    }
  }

  /** Outside the leased states as well: what stays up without service was up before, and the loss skipped it. */
  lemma OutsideExactly(st: SmState, s: Iface, w: World)
    requires !Leased(st) && Known(s) && Finds(st, s)
    ensures var m := Handle(st, s, w); !Leased(m.next) ==> LeftBy(LossIn(st, s, w), s, m.s)
  {
    hide OnObtainingIp; hide OnStandbyState; hide OnRefreshingWan; hide OnVlanConfiguring; hide OnPppConfiguring;
    hide OnValidatingWan; hide LossInObtaining; hide Kept; hide Follows; hide RaisedByActive; hide Blocked;
    match st
    case ObtainingIp => ObtainingLeft(s, w);
    case Standby => StandbyStateLeft(s, w);
    case RefreshingWan => RefreshingLeft(s, w);
    case DeconfiguringWan =>
    case Exit =>
    case _ => FirstStatesLeft(st, s, w);
  }

  // ---- whole runs ----

  /** Without service neither sysevent is up. */
  predicate Tidy(st: SmState, s: Iface) {
    !Leased(st) ==> !s.v4.conn && !s.v6.conn
  }

  /** A leased state is given up for a loss that skips a sysevent which is up. */
  predicate Strays(st: SmState, s: Iface, w: World) {
    var loss := LossIn(st, s, w);
    && Leased(st) && Leaves(loss, s)
    && ((s.v4.conn && Survives4(loss, s)) || (s.v6.conn && Survives6(loss, s)))
  }

  predicate StraysIn(m: Machine, i: Input) {
    m.alive && Strays(m.st, Prepared(m, i), i.w)
  }

  predicate AlwaysTidy(m: Machine, inputs: seq<Input>)
    requires Runnable(m, inputs)
    decreases |inputs|
  {
    Tidy(m.st, m.s) && (inputs != [] ==> AlwaysTidy(Step(m, inputs[0]), inputs[1..]))
  }

  predicate NeverStrays(m: Machine, inputs: seq<Input>)
    requires Runnable(m, inputs)
    decreases |inputs|
  {
    inputs != [] ==> !StraysIn(m, inputs[0]) && NeverStrays(Step(m, inputs[0]), inputs[1..])
  }

  lemma HandlerTidies(st: SmState, s: Iface, w: World)
    requires Known(s) && s.current == st && Finds(st, s) && Tidy(st, s)
    ensures Tidy(Handle(st, s, w).next, Handle(st, s, w).s) <==> !Strays(st, s, w)
  {
    hide Handle; hide LossIn; hide Finds;
    if Leased(st) {
      LeavingExactly(st, s, w);
    } else {
      OutsideExactly(st, s, w);
    }
  }

  lemma PreparedRaisesNothing(m: Machine, i: Input)
    ensures var s := Prepared(m, i);
            (s.v4.conn ==> m.s.v4.conn) && (s.v6.conn ==> m.s.v6.conn) && s.current == m.st
  {
    EventsRaiseNothing(m.s, i.events);
    hide Environment; hide Drain;
    DrainRaisesNothing(Environment(m.s, i.events), i.w);
  }

  lemma StartTidies(s: Iface, w: World)
    requires StartFinds(s)
    ensures Start(s, w).s.v4.conn == s.v4.conn && Start(s, w).s.v6.conn == s.v6.conn
  {
  }

  lemma StepTidies(m: Machine, i: Input)
    requires Inv(m) && CanStep(m, i) && Tidy(m.st, m.s)
    ensures Tidy(Step(m, i).st, Step(m, i).s) <==> !StraysIn(m, i)
  {
    EventsRaiseNothing(m.s, i.events);
    PreparedRaisesNothing(m, i);
    PreparedKeeps(m, i);
    hide Environment; hide Prepared; hide Handle; hide Start; hide Strays; hide Finds; hide StartFinds; hide Stuck4;
    if m.alive {
      HandlerTidies(m.st, Prepared(m, i), i.w);
    } else if i.launch {
      StartTidies(Environment(m.s, i.events), i.w);
    }
  }

  /** The sysevents are down at every point of a run without service exactly when no round of it strays. */
  lemma {:induction false} SyseventsStayTidy(m: Machine, inputs: seq<Input>)
    requires Inv(m) && Runnable(m, inputs) && Tidy(m.st, m.s)
    ensures AlwaysTidy(m, inputs) <==> NeverStrays(m, inputs)
    decreases |inputs|
  {
    if inputs != [] {
      var i := inputs[0];
      StepKeeps(m, i);
      StepTidies(m, i);
      hide Step; hide Inv; hide StraysIn; hide Tidy; hide CanStep;
      if !StraysIn(m, i) {
        SyseventsStayTidy(Step(m, i), inputs[1..]);
      }
    }
  }
}
