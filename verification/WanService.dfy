/** The whole system in service: the best interface is launched, climbs, and is connected by the lease that arrives. */
module WanService {
  import opened WanTypes
  import opened DhcpEvents
  import opened InterfaceSpec
  import opened InterfaceInvariant
  import opened InterfaceRuns
  import opened PolicyData
  import opened PrimaryPriority
  import opened WanSystem
  import opened LeaseEffects
  import opened VlanFairness
  import opened EnteringService
  import opened Progress
  import opened PolicyRounds

  // ---- the rounds of the system are steps of the machines ----

  /** The machine reads four settings from the selection table before each of its rounds. */
  function Reconfigured(c: Config, slot: Slot): Event {
    Configure(c.(sel := slot.status, selEnable := slot.enable, phy := slot.phy, ifaceType := slot.ifaceType))
  }

  /** A round of one thread in the system is a step of the machine model, so the theorems on runs apply to it. */
  lemma ThreadRoundIsStep(a: Agent, t: nat, slot: Slot, w: World)
    requires t < |a.threads| && Finds(a.threads[t], Seen(a, t, slot, w))
    ensures var m := Machine(a.threads[t], true, a.s);
            var i := Input([Reconfigured(a.s.cfg, slot)], false, w);
            && CanStep(m, i)
            && var n := Step(m, i);
               var r := AfterRound(a, t, slot, w);
               && r.s == n.s
               && r.threads == if a.threads[t] == Exit then a.threads[..t] + a.threads[t + 1..]
                               else a.threads[t := n.st]
  {
    hide Handle; hide Drain; hide Kept; hide Follows; hide RaisedByActive;
    var i := Input([Reconfigured(a.s.cfg, slot)], false, w);
    assert i.events[1..] == [];
    assert Environment(a.s, i.events) == Synced(a.s, slot);
  }

  /** The policy starts a thread as the machine model starts one, beside those that still have to end. */
  lemma LaunchIsStep(a: Agent, slot: Slot, w: World)
    requires StartFinds(Synced(a.s, slot))
    ensures var m := Machine(Exit, false, a.s);
            var i := Input([Reconfigured(a.s.cfg, slot)], true, w);
            && CanStep(m, i)
            && var n := Step(m, i);
               AfterStart(a, slot, w) == Agent(n.s, a.threads + [n.st]) && n.st == VlanConfiguring && n.alive
  {
    hide StartVlan; hide Initialised;
    var i := Input([Reconfigured(a.s.cfg, slot)], true, w);
    assert i.events[1..] == [];
    assert Environment(a.s, i.events) == Synced(a.s, slot);
  }

  /** A thread round, and what other threads do, touches one record only; the policy stays as it is. */
  lemma OneRecordChanges(sys: System, a: Action)
    requires Possible(sys, a) && (a.ThreadRound? || a.Other?)
    ensures var r := Apply(sys, a);
            && r.pol == sys.pol && r.ctl == sys.ctl && |r.agents| == |sys.agents|
            && (forall j | 0 <= j < |sys.agents| && j != a.k :: r.agents[j] == sys.agents[j])
            && (a.Other? ==> r.agents[a.k] == Agent(Happen(sys.agents[a.k].s, a.e), sys.agents[a.k].threads))
            && (a.ThreadRound? ==>
                  r.agents[a.k] == AfterRound(sys.agents[a.k], a.t, sys.ctl.ifaces[a.k], a.w))
  {
    hide Handle; hide Seen; hide Finds; hide AfterRound; hide Happen;
  }

  /** A rewrite of the database changes the table and nothing else. */
  lemma OnlyTableChanges(sys: System, table: seq<Slot>)
    requires Possible(sys, Database(table))
    ensures var r := Apply(sys, Database(table));
            && r.agents == sys.agents && r.pol == sys.pol
            && r.ctl == Ctl(table, sys.ctl.active, sys.ctl.secondary, sys.ctl.started)
  {
  }

  /** A policy round starts the machine that it launched, if any, and touches no other. */
  lemma PolicyStartsWhatItLaunched(sys: System, cfg: PolicyConfig, w: World)
    requires Possible(sys, PolicyRound(cfg, w)) && NeverSecondary(sys.pol)
    ensures var o := Round(sys.pol, SeenByPolicy(sys), cfg, false);
            var r := Apply(sys, PolicyRound(cfg, w));
            && r.pol == o.next && r.ctl == o.c && |r.agents| == |sys.agents|
            && (o.c.started == sys.ctl.started ==> r.agents == sys.agents)
            && (o.c.started != sys.ctl.started ==>
                  var k := o.c.active;
                  && 0 <= k < |sys.agents| && o.c.started == sys.ctl.started + [k]
                  && StartFinds(Synced(sys.agents[k].s, o.c.ifaces[k]))
                  && r.agents == sys.agents[k := AfterStart(sys.agents[k], o.c.ifaces[k], w)])
  {
    RoundStarts(sys.pol, SeenByPolicy(sys), cfg);
    RoundLaunches(sys.pol, SeenByPolicy(sys), cfg);
    hide Round; hide AfterStart; hide StartFinds; hide Synced;
  }

  lemma RoundLaunches(st: PpState, c: Ctl, cfg: PolicyConfig)
    requires InTable(c) && NeverSecondary(st)
    ensures var o := Round(st, c, cfg, false).c;
            o.started != c.started ==> |o.started| > |c.started| && Has(o, o.active)
  {
    hide TopTwo;
    TopTwoFit(c.ifaces, cfg);
  }

  /** The policy sees every published status and nothing else of the machines. */
  lemma StatusIsSeen(sys: System, k: nat)
    requires Shaped(sys) && k < |sys.agents|
    ensures var c := SeenByPolicy(sys);
            && c.ifaces[k] == sys.ctl.ifaces[k].(virt := sys.agents[k].s.status)
            && |c.ifaces| == |sys.agents| && c == sys.ctl.(ifaces := c.ifaces)
  {
  }

  // ---- the launch ----

  /** No machine runs, and the system waits for an interface. */
  predicate AtRest(sys: System) {
    && Shaped(sys) && sys.pol == InterfaceDown && sys.agents != []
    && forall k | 0 <= k < |sys.agents| :: sys.agents[k].s.status == Disabled
  }

  /** The policy launches the machine of the best interface, and that one only. */
  lemma BestIsStarted(sys: System, cfg: PolicyConfig, p: nat, w: World)
    requires AtRest(sys) && !Ending(cfg) && p < |sys.agents| && Picks(SeenByPolicy(sys).ifaces, cfg, true, -1, p)
    requires StartFinds(Synced(sys.agents[p].s, sys.ctl.ifaces[p].(status := Active)))
    ensures Possible(sys, PolicyRound(cfg, w))
    ensures var r := Apply(sys, PolicyRound(cfg, w));
            && r.pol == PrimaryActive && r.ctl.active == p && InTable(r.ctl)
            && |r.agents| == |r.ctl.ifaces| == |sys.agents|
            && r.ctl.ifaces[p] == SeenByPolicy(sys).ifaces[p].(status := Active, activeLink := true)
            && r.agents[p] == AfterStart(sys.agents[p], r.ctl.ifaces[p], w)
            && forall j | 0 <= j < |sys.agents| && j != p :: r.agents[j] == sys.agents[j]
  {
    hide Round; hide StartVlan; hide Initialised; hide Picks;
    var c := SeenByPolicy(sys);
    assert NoneRuns(c.ifaces);
    DownRoundExactly(c, cfg, false, p);
    var o := Round(InterfaceDown, c, cfg, false);
    assert o.c.ifaces[p] == c.ifaces[p].(status := Active, activeLink := true);
    SameSettings(sys.agents[p].s, sys.ctl.ifaces[p].(status := Active), o.c.ifaces[p]);
    hide StartFinds; hide AfterStart;
  }

  lemma SameSettings(s: Iface, a: Slot, b: Slot)
    requires a.status == b.status && a.enable == b.enable && a.phy == b.phy && a.ifaceType == b.ifaceType
    ensures Synced(s, a) == Synced(s, b)
  {
  }

  // ---- from the launch into service ----

  /** The machine was configured from this slot. */
  predicate ConfiguredFrom(c: Config, slot: Slot) {
    c.sel == slot.status && c.selEnable == slot.enable && c.phy == slot.phy && c.ifaceType == slot.ifaceType
  }

  /** Still the record of the launch in all that decides whether a lease is taken up. */
  predicate Like(s: Iface, first: Iface) {
    && s.cfg == first.cfg.(ipv6cpUp := s.cfg.ipv6cpUp) && s.vlan == first.vlan && s.vlans == first.vlans
    && s.mode.selected == first.mode.selected && s.mapt == first.mapt && s.running == first.running
  }

  /** Interface p was launched and stands in state st; the other machines are those of base. */
  predicate OnItsWay(sys: System, base: System, p: nat, st: SmState, first: Iface) {
    && Shaped(sys) && |sys.agents| == |base.agents| && p < |sys.agents|
    && sys.pol == PrimaryActive && sys.ctl.active == p && sys.ctl.ifaces[p].status == Active
    && (forall j | 0 <= j < |sys.agents| && j != p :: sys.agents[j] == base.agents[j])
    && sys.agents[p].threads == [st]
    && var s := sys.agents[p].s;
       && ConfiguredFrom(s.cfg, sys.ctl.ifaces[p]) && Like(s, first) && Known(s) && NoMail(s)
       && (st != ObtainingIp ==> StandsFirm(s.cfg))
  }

  lemma AlreadyConfigured(s: Iface, slot: Slot)
    requires ConfiguredFrom(s.cfg, slot)
    ensures Synced(s, slot) == s
  {
  }

  /** Without mail and without a new configuration a round of the only thread is a quiet step. */
  lemma QuietRound(s: Iface, st: SmState, slot: Slot, w: World)
    requires ConfiguredFrom(s.cfg, slot) && CanStep(Machine(st, true, s), Quiet(w)) && st != Exit
    ensures Finds(st, Seen(Agent(s, [st]), 0, slot, w))
    ensures var n := Step(Machine(st, true, s), Quiet(w)); AfterRound(Agent(s, [st]), 0, slot, w) == Agent(n.s, [n.st])
  {
    hide Handle; hide Drain; hide Kept; hide Follows; hide RaisedByActive; hide Finds;
    AlreadyConfigured(s, slot);
    hide Synced; hide ConfiguredFrom;
    var m := Machine(st, true, s);
    assert Prepared(m, Quiet(w)) == Seen(Agent(s, [st]), 0, slot, w);
    assert [st][0 := Step(m, Quiet(w)).st] == [Step(m, Quiet(w)).st];
  }

  function NextUp(st: SmState): SmState {
    if st == VlanConfiguring then PppConfiguring else if st == PppConfiguring then ValidatingWan else ObtainingIp
  }

  predicate Climbs(st: SmState) {
    st == VlanConfiguring || st == PppConfiguring || st == ValidatingWan
  }

  /** A record on its way, and what a round may do to it. */
  predicate StillLike(s: Iface, r: Iface, first: Iface) {
    Like(r, first) && Known(r) && NoMail(r) && r.cfg == s.cfg.(ipv6cpUp := r.cfg.ipv6cpUp)
  }

  lemma VlanClimbs(s: Iface, first: Iface, w: World)
    requires StandsFirm(s.cfg) && NoMail(s) && Known(s) && Like(s, first) && InTime(first, w)
    ensures CanStep(Machine(VlanConfiguring, true, s), Quiet(w))
    ensures var n := Step(Machine(VlanConfiguring, true, s), Quiet(w));
            n.st == PppConfiguring && StillLike(s, n.s, first) && n.s.cfg == s.cfg
  {
    hide Step; hide CanStep; hide StandsFirm;
    InTimeAlike(s, first, w);
    hide InTime;
    VlanRound(Machine(VlanConfiguring, true, s), w);
  }

  lemma PppClimbs(s: Iface, first: Iface, w: World)
    requires StandsFirm(s.cfg) && NoMail(s) && Known(s) && Like(s, first) && InTime(first, w)
    ensures CanStep(Machine(PppConfiguring, true, s), Quiet(w))
    ensures var n := Step(Machine(PppConfiguring, true, s), Quiet(w));
            n.st == ValidatingWan && StillLike(s, n.s, first) && n.s.cfg == s.cfg
  {
    hide Step; hide CanStep; hide StandsFirm;
    InTimeAlike(s, first, w);
    hide InTime;
    PppRound(Machine(PppConfiguring, true, s), w);
  }

  lemma ValidatingClimbs(s: Iface, first: Iface, w: World)
    requires StandsFirm(s.cfg) && NoMail(s) && Known(s) && Like(s, first) && InTime(first, w)
    ensures CanStep(Machine(ValidatingWan, true, s), Quiet(w))
    ensures var n := Step(Machine(ValidatingWan, true, s), Quiet(w)); n.st == ObtainingIp && StillLike(s, n.s, first)
  {
    hide Step; hide CanStep; hide StandsFirm;
    InTimeAlike(s, first, w);
    hide InTime; hide NoMail; hide Known; hide Like;
    ValidatingRound(Machine(ValidatingWan, true, s), w);
    LikeAfter(s, Step(Machine(ValidatingWan, true, s), Quiet(w)).s, first);
  }

  lemma LikeAfter(s: Iface, r: Iface, first: Iface)
    requires Like(s, first) && r.cfg == s.cfg.(ipv6cpUp := r.cfg.ipv6cpUp) && r.mode.selected == s.mode.selected
    requires r.vlan == s.vlan && r.vlans == s.vlans && r.mapt == s.mapt && r.running == s.running
    ensures Like(r, first)
  {
  }

  lemma InTimeAlike(s: Iface, first: Iface, w: World)
    requires Like(s, first)
    ensures InTime(s, w) == InTime(first, w)
  {
  }

  lemma ClimbingStep(s: Iface, st: SmState, first: Iface, w: World)
    requires Climbs(st) && StandsFirm(s.cfg) && NoMail(s) && Known(s) && Like(s, first) && InTime(first, w)
    ensures CanStep(Machine(st, true, s), Quiet(w))
    ensures var n := Step(Machine(st, true, s), Quiet(w));
            n.st == NextUp(st) && StillLike(s, n.s, first) && (n.st != ObtainingIp ==> n.s.cfg == s.cfg)
  {
    hide Step; hide CanStep; hide StandsFirm; hide Like; hide InTime; hide StillLike; hide NoMail; hide Known;
    if st == VlanConfiguring {
      VlanClimbs(s, first, w);
    } else if st == PppConfiguring {
      PppClimbs(s, first, w);
    } else {
      ValidatingClimbs(s, first, w);
    }
  }

  lemma Advances(sys: System, base: System, p: nat, st: SmState, first: Iface, w: World)
    requires OnItsWay(sys, base, p, st, first) && Climbs(st) && InTime(first, w)
    ensures Possible(sys, ThreadRound(p, 0, w))
    ensures OnItsWay(Apply(sys, ThreadRound(p, 0, w)), base, p, NextUp(st), first)
  {
    hide Step; hide CanStep; hide StandsFirm; hide InTime; hide Apply; hide AfterRound; hide Seen; hide Finds;
    hide Handle; hide Kept; hide Follows; hide RaisedByActive;
    var s := sys.agents[p].s;
    ClimbingStep(s, st, first, w);
    QuietRound(s, st, sys.ctl.ifaces[p], w);
    assert sys.agents[p] == Agent(s, [st]);
    OneRecordChanges(sys, ThreadRound(p, 0, w));
  }

  /** The lease of the message is in service on interface p, and no other machine was touched. */
  predicate InService(sys: System, base: System, p: nat, msg: V4Message) {
    && p < |sys.agents| == |base.agents| && sys.pol == PrimaryActive && sys.ctl.active == p
    && (forall j | 0 <= j < |sys.agents| && j != p :: sys.agents[j] == base.agents[j])
    && (sys.agents[p].threads == [Ipv4Leased] || sys.agents[p].threads == [DualStackActive])
    && var s := sys.agents[p].s;
       s.status == StatusUp && s.v4.st == IpUp && s.v4.conn && SameLease4(s.v4.lease, msg.lease)
  }

  lemma OfferedRound(s: Iface, msg: V4Message, slot: Slot, w: World)
    requires ConfiguredFrom(s.cfg, slot) && CanStep(Machine(ObtainingIp, true, s), Input([Offer4(msg)], false, w))
    ensures var a := Agent(Happen(s, Offer4(msg)), [ObtainingIp]);
            var n := Step(Machine(ObtainingIp, true, s), Input([Offer4(msg)], false, w));
            Finds(ObtainingIp, Seen(a, 0, slot, w)) && AfterRound(a, 0, slot, w) == Agent(n.s, [n.st])
  {
    hide Handle; hide Drain; hide Kept; hide Follows; hide RaisedByActive; hide Finds;
    var o := Happen(s, Offer4(msg));
    assert ConfiguredFrom(o.cfg, slot);
    AlreadyConfigured(o, slot);
    var m, i := Machine(ObtainingIp, true, s), Input([Offer4(msg)], false, w);
    assert i.events[1..] == [];
    assert Environment(s, i.events) == o;
    hide Synced; hide ConfiguredFrom; hide Happen;
    assert Prepared(m, i) == Seen(Agent(o, [ObtainingIp]), 0, slot, w);
    assert [ObtainingIp][0 := Step(m, i).st] == [Step(m, i).st];
  }

  lemma OthersArePossible(sys: System, k: nat, e: Event)
    requires Shaped(sys) && k < |sys.agents|
    ensures Possible(sys, Other(k, e)) && Shaped(Apply(sys, Other(k, e)))
  {
    hide Happen;
  }

  lemma LikeMayTake(s: Iface, first: Iface, w: World)
    requires Like(s, first) && MayTake(first, w) && first.mode.selected != MaptMode
    ensures MayTake(s, w)
  {
  }

  /** The lease arrives in OBTAINING: the interface is connected after the next round of its thread. */
  lemma LeaseConnects(sys: System, base: System, p: nat, first: Iface, msg: V4Message, w: World)
    requires OnItsWay(sys, base, p, ObtainingIp, first) && first.running && first.mode.selected != MaptMode
    requires MayTake(first, w) && msg.addressAssigned && msg.lease.gateway != "0.0.0.0" && w.broadcastOk
    ensures Possible(sys, Other(p, Offer4(msg)))
    ensures var offered := Apply(sys, Other(p, Offer4(msg)));
            Possible(offered, ThreadRound(p, 0, w)) && InService(Apply(offered, ThreadRound(p, 0, w)), base, p, msg)
  {
    hide Step; hide CanStep; hide Apply; hide AfterRound; hide Seen; hide Finds; hide MayTake; hide StandsFirm;
    hide Handle; hide Kept; hide Follows; hide RaisedByActive; hide SameLease4; hide Happen;
    var s := sys.agents[p].s;
    LikeMayTake(s, first, w);
    Ipv4Arrives(Machine(ObtainingIp, true, s), msg, w);
    OfferedRound(s, msg, sys.ctl.ifaces[p], w);
    OthersArePossible(sys, p, Offer4(msg));
    OneRecordChanges(sys, Other(p, Offer4(msg)));
    var offered := Apply(sys, Other(p, Offer4(msg)));
    OneRecordChanges(offered, ThreadRound(p, 0, w));
  }

  /** The record with which the machine of a launched interface starts. */
  function Launch(sys: System, p: nat, w: World): Iface
    requires p < |sys.agents| == |sys.ctl.ifaces|
    requires StartFinds(Synced(sys.agents[p].s, sys.ctl.ifaces[p].(status := Active)))
  {
    Start(Synced(sys.agents[p].s, sys.ctl.ifaces[p].(status := Active)), w).s
  }

  /** From rest to the launch. */
  lemma LaunchedOnItsWay(sys: System, cfg: PolicyConfig, p: nat, w: World)
    requires AtRest(sys) && !Ending(cfg) && p < |sys.agents| && Picks(SeenByPolicy(sys).ifaces, cfg, true, -1, p)
    requires sys.agents[p].threads == [] && NoMail(sys.agents[p].s)
    requires StartFinds(Synced(sys.agents[p].s, sys.ctl.ifaces[p].(status := Active)))
    requires StandsFirm(Launch(sys, p, w).cfg)
    ensures Possible(sys, PolicyRound(cfg, w))
    ensures OnItsWay(Apply(sys, PolicyRound(cfg, w)), sys, p, VlanConfiguring, Launch(sys, p, w))
    ensures Launch(sys, p, w).running && Launch(sys, p, w).mode.selected == w.startMode
  {
    hide Picks; hide StandsFirm; hide Apply; hide Start; hide ConfiguredFrom;
    BestIsStarted(sys, cfg, p, w);
    var slot := sys.ctl.ifaces[p].(status := Active);
    var r := Apply(sys, PolicyRound(cfg, w));
    SameSettings(sys.agents[p].s, slot, r.ctl.ifaces[p]);
    LaunchedRecord(sys.agents[p].s, slot, r.ctl.ifaces[p], w);
    hide Synced; hide Possible; hide Like; hide Known; hide NoMail;
    assert [] + [VlanConfiguring] == [VlanConfiguring];
  }

  lemma LaunchedRecord(s: Iface, slot: Slot, later: Slot, w: World)
    requires StartFinds(Synced(s, slot)) && NoMail(s) && Synced(s, slot) == Synced(s, later)
    ensures var m := Start(Synced(s, slot), w);
            && m.next == VlanConfiguring && Known(m.s) && NoMail(m.s) && m.s.running && m.s.mode.selected == w.startMode
            && ConfiguredFrom(m.s.cfg, later) && Like(m.s, m.s)
  {
    hide Start;
    StartsAfresh(Synced(s, slot), w);
    StartsLinks(Synced(s, slot), w);
    assert Synced(s, later).cfg.sel == later.status;
  }

  /** These actions are possible one after the other and lead to this state. */
  predicate Reaches(sys: System, actions: seq<Action>, end: System)
    decreases |actions|
  {
    if actions == [] then end == sys
    else Possible(sys, actions[0]) && Reaches(Apply(sys, actions[0]), actions[1..], end)
  }

  lemma ReachesFirst(sys: System, a: Action, rest: seq<Action>, end: System)
    requires Possible(sys, a) && Reaches(Apply(sys, a), rest, end)
    ensures Reaches(sys, [a] + rest, end)
  {
    hide Possible; hide Apply;
    assert ([a] + rest)[1..] == rest;
  }

  /** The policy's round, three rounds of the launched thread, the offer of a lease, and one more round. */
  function WayIntoService(p: nat, cfg: PolicyConfig, w: seq<World>, msg: V4Message): seq<Action>
    requires |w| == 5
  {
    [PolicyRound(cfg, w[0])] + ([ThreadRound(p, 0, w[1])] + ([ThreadRound(p, 0, w[2])] + ([ThreadRound(p, 0, w[3])] +
    ([Other(p, Offer4(msg))] + ([ThreadRound(p, 0, w[4])] + [])))))
  }

  /**
   From rest into service: the policy launches the interface that no usable one beats, three rounds of its thread take
   it to OBTAINING, and the first lease that arrives there is connected; no other interface is touched.
   */
  lemma BestInterfaceServes(sys: System, p: nat, cfg: PolicyConfig, w: seq<World>, msg: V4Message)
    requires |w| == 5 && w[0].startMode != MaptMode
    requires AtRest(sys) && !Ending(cfg) && p < |sys.agents| && Picks(SeenByPolicy(sys).ifaces, cfg, true, -1, p)
    requires sys.agents[p].threads == [] && NoMail(sys.agents[p].s)
    requires StartFinds(Synced(sys.agents[p].s, sys.ctl.ifaces[p].(status := Active)))
    requires var first := Launch(sys, p, w[0]);
             && StandsFirm(first.cfg) && InTime(first, w[1]) && InTime(first, w[2]) && InTime(first, w[3])
             && MayTake(first, w[4])
    requires msg.addressAssigned && msg.lease.gateway != "0.0.0.0" && w[4].broadcastOk
    ensures exists end :: InService(end, sys, p, msg) && Reaches(sys, WayIntoService(p, cfg, w, msg), end)
  {
    hide Picks; hide StandsFirm; hide InTime; hide MayTake; hide Possible; hide Apply; hide Launch; hide OnItsWay;
    hide InService; hide StartFinds; hide Synced; hide NoMail; hide Reaches; hide SeenByPolicy;
    var first := Launch(sys, p, w[0]);
    LaunchedOnItsWay(sys, cfg, p, w[0]);
    var s1 := Apply(sys, PolicyRound(cfg, w[0]));
    Advances(s1, sys, p, VlanConfiguring, first, w[1]);
    var s2 := Apply(s1, ThreadRound(p, 0, w[1]));
    Advances(s2, sys, p, PppConfiguring, first, w[2]);
    var s3 := Apply(s2, ThreadRound(p, 0, w[2]));
    Advances(s3, sys, p, ValidatingWan, first, w[3]);
    var s4 := Apply(s3, ThreadRound(p, 0, w[3]));
    LeaseConnects(s4, sys, p, first, msg, w[4]);
    var s5 := Apply(s4, Other(p, Offer4(msg)));
    var s6 := Apply(s5, ThreadRound(p, 0, w[4]));
    assert Reaches(s6, [], s6) by { NowhereElse(s6); }
    ReachesFirst(s5, ThreadRound(p, 0, w[4]), [], s6);
    var last := [ThreadRound(p, 0, w[4])] + [];
    ReachesFirst(s4, Other(p, Offer4(msg)), last, s6);
    ReachesFirst(s3, ThreadRound(p, 0, w[3]), [Other(p, Offer4(msg))] + last, s6);
    var late := [ThreadRound(p, 0, w[3])] + ([Other(p, Offer4(msg))] + last);
    ReachesFirst(s2, ThreadRound(p, 0, w[2]), late, s6);
    ReachesFirst(s1, ThreadRound(p, 0, w[1]), [ThreadRound(p, 0, w[2])] + late, s6);
    ReachesFirst(sys, PolicyRound(cfg, w[0]), [ThreadRound(p, 0, w[1])] + ([ThreadRound(p, 0, w[2])] + late), s6);
  }

  lemma NowhereElse(sys: System)
    ensures Reaches(sys, [], sys)
  {
  }
}
