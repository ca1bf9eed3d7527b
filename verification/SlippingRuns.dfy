/**
 Runs of a machine from its launch on which a promise fails although every command succeeds: the prefix goes away, a
 message assigns an address without naming it, and the link is lost under a dual-stack connection.
 */
module SlippingRuns {
  import opened WanTypes
  import opened DhcpEvents
  import opened InterfaceSpec
  import opened InterfaceInvariant
  import opened InterfaceRuns
  import opened InterfaceClaims
  import opened LeavingService

  /** A world in which every command succeeds and nothing else happens. */
  const CALM := World(
    0, ProcessIds(1, 1, 1, 1, 1, 1, 1), ProcessIds(1, 1, 1, 1, 1, 1, 1), true, true, true,
    true, true, true, true, true, true, true, None, "", true, true, true, true, true, true, NoPppInterface, "",
    false, false, DualStackMode)

  /** An active dual-stack interface without VLAN and PPP that may use MAP-T. */
  const CONFIG := Config(
    true, false, true, Active, PhyUp, LocalIface, true, true, false, DhcpSource, DhcpSource, DualStack, false,
    NoCheck, false, false, LinkDown, false, 0, false, LinkDown, false, false)

  const LEASE4 := V4Lease("10.0.0.2", "255.255.255.0", "10.0.0.1", "10.0.0.1", "")

  const LEASE6 := V6Lease(
    AddressHalf(true, AddrAdd, "2001:db8::2"),
    PrefixHalf(true, AddrAdd, "2001:db8:1::/56", "2001:db8:1::1", "", 3600, 7200), "2001:db8::53", "")

  /** A message that assigns an address without naming one. */
  const NAMELESS := V6Message(NO_V6_LEASE.(addr := AddressHalf(true, AddrAdd, "")), false, Some("rule"))

  const LAUNCH := Input([Configure(CONFIG)], true, CALM)
  const QUIET := Input([], false, CALM)
  const LEASES := Input([Offer4(V4Message(LEASE4, true, false)), Offer6(V6Message(LEASE6, false, None))], false, CALM)
  const MAPT_OPTION := Input([Offer6(V6Message(LEASE6, false, Some("rule")))], false, CALM)
  const PREFIX_LOST := Input([PrefixClear(true)], false, CALM)
  const NAMELESS_AFTER_LOSS := Input([PrefixClear(true), Offer6(NAMELESS)], false, CALM)

  /** PPP is switched on under the connection, and then the cable is pulled. */
  const UNLINKED := CONFIG.(pppEnable := true)
  const UNPLUGGED := UNLINKED.(phy := PhyDown)
  const LINK_LOST := Input([Configure(UNLINKED)], false, CALM)
  const CABLE_LOST := Input([Configure(UNPLUGGED)], false, CALM)

  // ---- the machine after each round ----

  const NO_V4 := V4Side(IpDown, false, false, NO_V4_LEASE, None, Stopped, 0, false)
  const NO_V6 := V6Side(IpDown, false, false, NO_V6_LEASE, None, Stopped, 0, false)
  const NO_RULE := MapRecord(MaptDown, false, "")

  function Record(status: IfaceStatus, current: SmState, v4: V4Side, v6: V6Side, mapt: MapRecord): Iface {
    Iface(CONFIG, [], status, true, current, Discovery(false, -1, "", 0), v4, v6,
          ModeRecord(DualStackMode, NotStarted, 0), mapt, false)
  }

  const ENDED := Machine(Exit, false, Record(Disabled, Exit, NO_V4, NO_V6, NO_RULE).(running := false))

  const OFFERED4 := V4Side(IpUp, false, false, LEASE4, None, Started, 1, true)
  const OFFERED6 := V6Side(IpUp, true, false, LEASE6, None, Started, 1, false)
  const SERVED6 := OFFERED6.(changed := false, conn := true)
  const NAMED_NOT := V6Side(IpUp, false, true, ClearedV6(LEASE6).(addr := NAMELESS.lease.addr), None, Started, 1, false)

  const AT_VLAN := Machine(VlanConfiguring, true, Record(Initialising, Exit, NO_V4, NO_V6, NO_RULE))
  const AT_PPP := Machine(PppConfiguring, true, Record(Initialising, VlanConfiguring, NO_V4, NO_V6, NO_RULE))
  const AT_VALIDATING := Machine(ValidatingWan, true, Record(Validating, PppConfiguring, NO_V4, NO_V6, NO_RULE))
  const AT_OBTAINING := Machine(
    ObtainingIp, true,
    Record(Validating, ValidatingWan, NO_V4.(client := Started, pid := 1), NO_V6.(client := Started, pid := 1),
           NO_RULE))
  const AT_IPV4 := Machine(Ipv4Leased, true, Record(StatusUp, ObtainingIp, OFFERED4, OFFERED6, NO_RULE))
  const AT_IPV4_STILL := Machine(
    Ipv4Leased, true, Record(StatusUp, Ipv4Leased, OFFERED4, OFFERED6.(changed := false), NO_RULE))
  const AT_DUAL_STACK := Machine(DualStackActive, true, Record(StatusUp, Ipv4Leased, OFFERED4, SERVED6, NO_RULE))
  const AT_MAPT := Machine(
    MaptActive, true,
    Record(StatusUp, DualStackActive, Lost4(OFFERED4).(client := Stopped, pid := 0, conn := false),
           SERVED6.(renewed := true), MapRecord(MaptUp, false, "rule")))

  const AT_UNLINKED := Machine(
    ObtainingIp, true,
    Record(Validating, DualStackActive, Lost4(OFFERED4), Lost6(SERVED6).(client := Stopped, pid := 0), NO_RULE)
      .(cfg := UNLINKED))
  const AT_UNPLUGGED := Machine(
    DeconfiguringWan, true,
    AT_UNLINKED.s.(cfg := UNPLUGGED, current := ObtainingIp, v4 := Lost4(OFFERED4).(client := Stopped, pid := 0)))
  const AT_EXIT := Machine(
    Exit, true, AT_UNPLUGGED.s.(current := DeconfiguringWan, status := Disabled, running := false))

  // ---- the rounds ----

  lemma OneEvent(s: Iface, e: Event)
    ensures Environment(s, [e]) == Happen(s, e)
  {
    assert [e][1..] == [];
  }

  lemma TwoEvents(s: Iface, e: Event, f: Event)
    ensures Environment(s, [e, f]) == Happen(Happen(s, e), f)
  {
    assert [e, f][1..] == [f];
    OneEvent(Happen(s, e), f);
  }

  lemma LaunchRound()
    ensures CanStep(ENDED, LAUNCH) && Step(ENDED, LAUNCH) == AT_VLAN
  {
    OneEvent(ENDED.s, Configure(CONFIG));
  }

  lemma LinkRounds()
    ensures Step(AT_VLAN, QUIET) == AT_PPP && Step(AT_PPP, QUIET) == AT_VALIDATING
  {
  }

  lemma ValidatingRound()
    ensures Step(AT_VALIDATING, QUIET) == AT_OBTAINING
  {
  }

  lemma LeasesDrained()
    ensures Prepared(AT_OBTAINING, LEASES) ==
            Record(Validating, ObtainingIp, OFFERED4.(changed := true, conn := false), OFFERED6, NO_RULE)
  {
    TwoEvents(AT_OBTAINING.s, LEASES.events[0], LEASES.events[1]);
    hide Environment;
    assert LEASE4 != NO_V4_LEASE by { assert |LEASE4.ip| > 0; }
    assert Differs(LEASE6, NO_V6_LEASE) by { assert |LEASE6.addr.address| > 0; }
  }

  lemma LeasesRound()
    ensures Step(AT_OBTAINING, LEASES) == AT_IPV4
  {
    hide PhysicalInterfaceDown; hide MaptFeatureRefresh; hide Kept; hide RaisedByActive; hide Follows;
    LeasesDrained();
    hide Prepared;
  }

  /** Without events and mail the handler works on the record as the last round left it. */
  lemma QuietRound(m: Machine)
    requires m.alive && m.s.v4.mail.None? && m.s.v6.mail.None? && m.st != RefreshingWan
    ensures var mv := Handle(m.st, m.s.(current := m.st), CALM);
            Step(m, QUIET) == Machine(mv.next, m.st != Exit, mv.s)
  {
    hide Handle;
  }

  lemma UnflaggedRound()
    ensures Step(AT_IPV4, QUIET) == AT_IPV4_STILL
  {
    QuietRound(AT_IPV4);
    hide Step; hide PhysicalInterfaceDown; hide Ipv4Down; hide Kept; hide RaisedByActive; hide Follows;
  }

  lemma SecondFamilyRound()
    ensures Step(AT_IPV4_STILL, QUIET) == AT_DUAL_STACK
  {
    QuietRound(AT_IPV4_STILL);
    hide Step; hide PhysicalInterfaceDown; hide Ipv4Down; hide Kept; hide RaisedByActive; hide Follows;
  }

  lemma OptionDrained()
    ensures Prepared(AT_DUAL_STACK, MAPT_OPTION) ==
            Record(StatusUp, DualStackActive, OFFERED4, SERVED6.(renewed := true), MapRecord(MaptUp, true, "rule"))
  {
    OneEvent(AT_DUAL_STACK.s, MAPT_OPTION.events[0]);
    hide Environment;
    assert |"rule"| > 0;
    assert !Differs(LEASE6, LEASE6);
    assert |LEASE6.prefix.sitePrefix| > 0;
  }

  lemma MaptRound()
    ensures Step(AT_DUAL_STACK, MAPT_OPTION) == AT_MAPT
  {
    hide PhysicalInterfaceDown; hide MaptFeatureRefresh; hide Kept; hide RaisedByActive; hide Follows;
    OptionDrained();
    hide Prepared;
  }

  // ---- the run to DUAL_STACK_ACTIVE and on to MAPT_ACTIVE ----

  const TO_OBTAINING := [LAUNCH, QUIET, QUIET, QUIET]
  const TO_DUAL_STACK := TO_OBTAINING + [LEASES] + [QUIET] + [QUIET]
  const TO_MAPT := TO_DUAL_STACK + [MAPT_OPTION]

  lemma ReachesObtaining()
    ensures Inv(ENDED) && Runnable(ENDED, TO_OBTAINING) && Run(ENDED, TO_OBTAINING) == AT_OBTAINING
  {
    LaunchRound();
    LinkRounds();
    ValidatingRound();
    hide Step; hide CanStep;
    assert Run(ENDED, []) == ENDED && Runnable(ENDED, []);
    NothingMissing(AT_VLAN, QUIET);
    NothingMissing(AT_PPP, QUIET);
    NothingMissing(AT_VALIDATING, QUIET);
    RunThen(ENDED, [], LAUNCH);
    RunThen(ENDED, [] + [LAUNCH], QUIET);
    RunThen(ENDED, [] + [LAUNCH] + [QUIET], QUIET);
    RunThen(ENDED, [] + [LAUNCH] + [QUIET] + [QUIET], QUIET);
    assert [] + [LAUNCH] + [QUIET] + [QUIET] + [QUIET] == TO_OBTAINING;
  }

  /** Without a VLAN nothing of the discovery list is dereferenced. */
  lemma NothingMissing(m: Machine, i: Input)
    requires m.alive && m.st != RefreshingWan
    ensures CanStep(m, i)
  {
    hide Prepared;
  }

  /** The machine comes up with both families, and then hands IPv4 over to MAP-T. */
  lemma ReachesMapt()
    ensures Inv(ENDED) && Runnable(ENDED, TO_DUAL_STACK) && Run(ENDED, TO_DUAL_STACK) == AT_DUAL_STACK
    ensures Runnable(ENDED, TO_MAPT) && Run(ENDED, TO_MAPT) == AT_MAPT
  {
    ReachesObtaining();
    LeasesRound();
    UnflaggedRound();
    SecondFamilyRound();
    MaptRound();
    NothingMissing(AT_OBTAINING, LEASES);
    NothingMissing(AT_IPV4, QUIET);
    NothingMissing(AT_IPV4_STILL, QUIET);
    NothingMissing(AT_DUAL_STACK, MAPT_OPTION);
    hide Step; hide CanStep; hide Run; hide Runnable; hide Inv;
    RunThen(ENDED, TO_OBTAINING, LEASES);
    RunThen(ENDED, TO_OBTAINING + [LEASES], QUIET);
    RunThen(ENDED, TO_OBTAINING + [LEASES] + [QUIET], QUIET);
    RunThen(ENDED, TO_DUAL_STACK, MAPT_OPTION);
  }

  // ---- the promises that fail ----

  lemma PrefixLostRound()
    ensures var n := Step(AT_MAPT, PREFIX_LOST); n.st == Ipv6Leased && !n.s.v6.conn && n.s.v6.st == IpDown
  {
    OneEvent(AT_MAPT.s, PrefixClear(true));
    hide Environment; hide PhysicalInterfaceDown; hide ServeMapt; hide Kept; hide RaisedByActive; hide Follows;
  }

  /** The prefix goes away: the machine sits in IPV6_LEASED with IPv6 down, though every command succeeded. */
  lemma LostPrefixSlips()
    ensures Inv(ENDED) && Runnable(ENDED, TO_MAPT) && Runnable(ENDED, TO_MAPT + [PREFIX_LOST]) && Succeeds(CALM)
    ensures var m := Run(ENDED, TO_MAPT); m.st == MaptActive && Connected(MaptActive, m.s) && m.s.v6.lease == LEASE6
    ensures var n := Run(ENDED, TO_MAPT + [PREFIX_LOST]);
            n.st == Ipv6Leased && !n.s.v6.conn && n.s.v6.st == IpDown
  {
    ReachesMapt();
    NothingMissing(AT_MAPT, PREFIX_LOST);
    PrefixLostRound();
    hide Step; hide CanStep; hide Run; hide Runnable; hide Inv;
    RunThen(ENDED, TO_MAPT, PREFIX_LOST);
  }

  lemma NamelessCountsAsRenewal(a: V6Side, w: World)
    requires a.lease == ClearedV6(LEASE6) && !a.changed && !a.renewed
    ensures HandleV6(a, NAMELESS, w) ==
            a.(mail := None, st := IpUp, renewed := true, lease := a.lease.(addr := NAMELESS.lease.addr))
  {
  }

  /** The prefix goes away and the nameless message arrives before the next round. */
  lemma NamelessDrained(m: Machine)
    requires m == AT_MAPT || m == AT_DUAL_STACK
    ensures Prepared(m, NAMELESS_AFTER_LOSS) ==
            m.s.(current := m.st, v6 := NAMED_NOT, mapt := MapRecord(MaptUp, m == AT_DUAL_STACK, "rule"))
  {
    TwoEvents(m.s, PrefixClear(true), Offer6(NAMELESS));
    var s := Happen(Happen(m.s, PrefixClear(true)), Offer6(NAMELESS));
    NamelessCountsAsRenewal(s.v6, CALM);
    hide Environment; hide HandleV6;
    assert |"rule"| > 0;
  }

  lemma NamelessInMaptRound()
    ensures var n := Step(AT_MAPT, NAMELESS_AFTER_LOSS);
            n.st == MaptActive && n.s.v6.st == IpUp && !n.s.v6.conn && !n.s.v6.changed
  {
    NamelessDrained(AT_MAPT);
    hide Prepared; hide PhysicalInterfaceDown; hide MaptDownTransition; hide LoseFeature;
    hide Kept; hide RaisedByActive; hide Follows;
  }

  /**
   After a lost prefix a message that assigns a nameless address counts as a renewal: the machine stays in MAPT_ACTIVE
   with IPv6 up, its sysevent low, and nothing flagged that would raise it.
   */
  lemma NamelessAddressSlips()
    ensures Inv(ENDED) && Runnable(ENDED, TO_MAPT + [NAMELESS_AFTER_LOSS]) && Succeeds(CALM)
    ensures var n := Run(ENDED, TO_MAPT + [NAMELESS_AFTER_LOSS]);
            && n.st == MaptActive && n.s.v6.st == IpUp && !n.s.v6.conn && !n.s.v6.changed
            && !Covered(n.st, n.s)
  {
    ReachesMapt();
    NothingMissing(AT_MAPT, NAMELESS_AFTER_LOSS);
    NamelessInMaptRound();
    hide Step; hide CanStep; hide Run; hide Runnable; hide Inv;
    RunThen(ENDED, TO_MAPT, NAMELESS_AFTER_LOSS);
  }

  lemma NamelessInDualStackRound()
    ensures var n := Step(AT_DUAL_STACK, NAMELESS_AFTER_LOSS); n.st == MaptActive && n.s.status == Validating
  {
    NamelessDrained(AT_DUAL_STACK);
    hide Prepared; hide PhysicalInterfaceDown; hide DualStackDown; hide MaptFeatureRefresh;
    hide Kept; hide RaisedByActive; hide Follows; hide Lost4; hide Ipv4DownClient;
  }

  /** The same events in DUAL_STACK_ACTIVE: MAP-T takes over, and MAPT_ACTIVE is published as VALIDATING. */
  lemma NamelessAddressLowersStatus()
    ensures Inv(ENDED) && Runnable(ENDED, TO_DUAL_STACK + [NAMELESS_AFTER_LOSS]) && Succeeds(CALM)
    ensures var n := Run(ENDED, TO_DUAL_STACK + [NAMELESS_AFTER_LOSS]);
            n.st == MaptActive && n.s.status == Validating && !Upright(n.st, n.s)
  {
    ReachesMapt();
    NothingMissing(AT_DUAL_STACK, NAMELESS_AFTER_LOSS);
    NamelessInDualStackRound();
    hide Step; hide CanStep; hide Run; hide Runnable; hide Inv;
    RunThen(ENDED, TO_DUAL_STACK, NAMELESS_AFTER_LOSS);
  }

  lemma LinkLostRound()
    ensures Step(AT_DUAL_STACK, LINK_LOST) == AT_UNLINKED
  {
    OneEvent(AT_DUAL_STACK.s, Configure(UNLINKED));
    hide Environment; hide PhysicalInterfaceDown; hide ServeDualStack; hide Kept; hide RaisedByActive; hide Follows;
  }

  lemma CableLostRound()
    ensures Step(AT_UNLINKED, CABLE_LOST) == AT_UNPLUGGED
  {
    OneEvent(AT_UNLINKED.s, Configure(UNPLUGGED));
    hide Environment; hide ServeObtaining; hide Kept; hide RaisedByActive; hide Follows; hide WanValidated;
  }

  lemma LastRound()
    ensures Step(AT_UNPLUGGED, QUIET) == AT_EXIT
  {
    QuietRound(AT_UNPLUGGED);
    hide Step; hide Kept; hide RaisedByActive; hide Follows;
  }

  /**
   The link is lost under both families: Status is lowered before the tear-down, so OBTAINING is entered with IPv4 down
   and its sysevent up; when the cable is pulled as well the machine ends DISABLED with that sysevent still up.
   */
  lemma LinkLossStrays()
    ensures Inv(ENDED) && Tidy(ENDED.st, ENDED.s) && Succeeds(CALM)
    ensures Runnable(ENDED, TO_DUAL_STACK + [LINK_LOST])
    ensures var n := Run(ENDED, TO_DUAL_STACK + [LINK_LOST]);
            n.st == ObtainingIp && n.s.v4.st == IpDown && n.s.v4.lease.ip == "" && n.s.v4.conn && !Tidy(n.st, n.s)
    ensures Runnable(ENDED, TO_DUAL_STACK + [LINK_LOST] + [CABLE_LOST] + [QUIET])
    ensures var n := Run(ENDED, TO_DUAL_STACK + [LINK_LOST] + [CABLE_LOST] + [QUIET]);
            n.st == Exit && n.s.status == Disabled && n.s.v4.conn
  {
    LinkIsLost();
    CableLostRound();
    LastRound();
    NothingMissing(AT_UNLINKED, CABLE_LOST);
    NothingMissing(AT_UNPLUGGED, QUIET);
    hide Step; hide CanStep; hide Run; hide Runnable; hide Inv; hide Tidy;
    RunThen(ENDED, TO_DUAL_STACK + [LINK_LOST], CABLE_LOST);
    RunThen(ENDED, TO_DUAL_STACK + [LINK_LOST] + [CABLE_LOST], QUIET);
  }

  lemma LinkIsLost()
    ensures Inv(ENDED) && Tidy(ENDED.st, ENDED.s) && Succeeds(CALM)
    ensures Runnable(ENDED, TO_DUAL_STACK + [LINK_LOST]) && Run(ENDED, TO_DUAL_STACK + [LINK_LOST]) == AT_UNLINKED
    ensures var n := AT_UNLINKED;
            n.st == ObtainingIp && n.s.v4.st == IpDown && n.s.v4.lease.ip == "" && n.s.v4.conn && !Tidy(n.st, n.s)
  {
    ReachesMapt();
    LinkLostRound();
    NothingMissing(AT_DUAL_STACK, LINK_LOST);
    hide Step; hide CanStep; hide Run; hide Runnable; hide Inv;
    RunThen(ENDED, TO_DUAL_STACK, LINK_LOST);
  }
}
