/** A wanted interface makes progress: it climbs to OBTAINING, and a lease that arrives there is taken into service. */
module Progress {
  import opened WanTypes
  import opened DhcpEvents
  import opened LeaseEffects
  import opened InterfaceSpec
  import opened InterfaceInvariant
  import opened InterfaceRuns
  import opened InterfaceTable
  import opened EnteringService

  /** A round in which no other thread does anything. */
  function Quiet(w: World): Input {
    Input([], false, w)
  }

  predicate NoMail(s: Iface) {
    s.v4.mail.None? && s.v6.mail.None?
  }

  lemma QuietStep(m: Machine, w: World)
    requires m.alive && NoMail(m.s) && CanStep(m, Quiet(w))
    ensures var s := m.s.(current := m.st); Finds(m.st, s) && Prepared(m, Quiet(w)) == s
    ensures var mv := Handle(m.st, m.s.(current := m.st), w);
            Step(m, Quiet(w)) == Machine(mv.next, m.st != Exit, mv.s)
  {
    hide Handle; hide HandleV4; hide HandleV6;
  }

  /** A thread ends with the round in which it handled EXIT; while none loops, only a launch starts one. */
  lemma ThreadLives(m: Machine, i: Input)
    requires CanStep(m, i)
    ensures var n := Step(m, i);
            if m.alive then n.alive == (m.st != Exit)
            else if i.launch then n.alive && n.st == VlanConfiguring && n.s.running && n.s.status == Initialising
            else !n.alive && n.st == m.st && n.s == Environment(m.s, i.events)
  {
    hide Handle; hide Environment; hide Prepared;
    if !m.alive && i.launch {
      StartsAfresh(Environment(m.s, i.events), i.w);
    }
  }

  /** Events happen one after the other, the first one first. */
  lemma {:induction false} EventsInOrder(s: Iface, a: seq<Event>, b: seq<Event>)
    ensures Environment(s, a + b) == Environment(Environment(s, a), b)
    ensures forall e: Event :: Environment(s, [e]) == Happen(s, e)
    decreases |a|
  {
    hide Happen;
    forall e: Event ensures Environment(s, [e]) == Happen(s, e) {
      assert [e][1..] == [];
    }
    if a == [] {
      assert a + b == b;
    } else {
      EventsInOrder(Happen(s, a[0]), a[1..], b);
      assert (a + b)[1..] == a[1..] + b;
    }
  }

  lemma NothingToFind(m: Machine, i: Input)
    requires m.alive && m.st != RefreshingWan
    ensures CanStep(m, i)
  {
    hide Prepared;
  }

  // ---- up to OBTAINING ----

  /** The interface is wanted, and whatever it stands on is up or not used. */
  predicate StandsFirm(c: Config) {
    && c.wanEnable && c.selEnable && c.enable && c.sel != NotSelected && c.phy == PhyUp
    && (c.vlanEnable ==> c.vlanStatus == LinkUp)
    && (c.pppEnable ==> c.pppLink == LinkUp && c.ipv6cpUp)
  }

  predicate InTime(s: Iface, w: World) {
    |s.vlans| <= 1 || (!s.cfg.vlanReset && w.now - s.vlan.timerStart <= s.cfg.vlanTimeout)
  }

  lemma VlanPasses(s: Iface, w: World)
    requires StandsFirm(s.cfg) && InTime(s, w)
    ensures OnVlanConfiguring(s, w) == Move(PppConfiguring, s)
  {
    hide PhysicalInterfaceDown; hide Kept; hide Follows; hide RaisedByActive;
  }

  lemma PppPasses(s: Iface, w: World)
    requires StandsFirm(s.cfg) && InTime(s, w)
    ensures OnPppConfiguring(s, w) == Move(ValidatingWan, s.(status := Validating))
  {
    hide PhysicalInterfaceDown; hide Kept; hide Follows; hide RaisedByActive;
  }

  /** The client a validated interface gets: DHCPv6 alone for the head start of MAP-T, otherwise what the mode asks. */
  lemma ValidationPasses(s: Iface, w: World)
    requires StandsFirm(s.cfg) && InTime(s, w)
    ensures var m := OnValidatingWan(s, w);
            var prefers := s.mode.selected == MaptMode && s.mode.timer != Expired;
            && m.next == ObtainingIp && NoMailLeft(s, m.s) && (Known(s) ==> Known(m.s))
            && m.s.cfg == s.cfg.(ipv6cpUp := m.s.cfg.ipv6cpUp) && m.s.mode.selected == s.mode.selected
            && m.s == s.(cfg := m.s.cfg, v4 := m.s.v4, v6 := m.s.v6, mode := m.s.mode)
            && (prefers ==>
                  && m.s.v6.client == (if w.pid6.validated != 0 then Started else Failed)
                  && (s.v4.client != Started ==> m.s.v4.client != Started)
                  && m.s.mode.timer == Running && m.s.mode.start == w.now)
            && (!prefers && s.cfg.mode == DualStack ==>
                  && m.s.mode == s.mode
                  && (s.cfg.v4Source == DhcpSource ==>
                        m.s.v4.client == if w.pid4.validated != 0 then Started else Failed)
                  && (s.cfg.v6Source == DhcpSource && s.mode.timer != Expired ==>
                        m.s.v6.client == if w.pid6.validated != 0 then Started else Failed))
  {
    hide PhysicalInterfaceDown; hide Kept; hide Follows; hide RaisedByActive;
    assert OnValidatingWan(s, w) == WanValidated(s, w);
    hide OnValidatingWan; hide StandsFirm; hide InTime;
  }

  predicate NoMailLeft(s: Iface, r: Iface) {
    NoMail(s) ==> NoMail(r)
  }

  /** Three quiet rounds lead from VLAN_CONFIGURING to OBTAINING when everything below is up. */
  lemma ClimbsToObtaining(m: Machine, w1: World, w2: World, w3: World)
    requires m.alive && m.st == VlanConfiguring && NoMail(m.s) && StandsFirm(m.s.cfg)
    requires InTime(m.s, w1) && InTime(m.s, w2) && InTime(m.s, w3)
    ensures Runnable(m, [] + [Quiet(w1)] + [Quiet(w2)] + [Quiet(w3)])
    ensures var n := Run(m, [] + [Quiet(w1)] + [Quiet(w2)] + [Quiet(w3)]);
            n.alive && n.st == ObtainingIp && n.s.status == Validating && NoMail(n.s)
  {
    hide Step; hide CanStep; hide Handle; hide OnVlanConfiguring; hide OnPppConfiguring; hide OnValidatingWan;
    hide StandsFirm; hide InTime; hide Run; hide Runnable; hide Prepared;
    assert Runnable(m, []) && Run(m, []) == m by { NoInputs(m); }
    VlanRound(m, w1);
    var n1 := Step(m, Quiet(w1));
    RunThen(m, [], Quiet(w1));
    PppRound(n1, w2);
    var n2 := Step(n1, Quiet(w2));
    RunThen(m, [] + [Quiet(w1)], Quiet(w2));
    ValidatingRound(n2, w3);
    RunThen(m, [] + [Quiet(w1)] + [Quiet(w2)], Quiet(w3));
  }

  lemma NoInputs(m: Machine)
    ensures Runnable(m, []) && Run(m, []) == m
  {
  }

  lemma VlanRound(m: Machine, w: World)
    requires m.alive && m.st == VlanConfiguring && NoMail(m.s) && StandsFirm(m.s.cfg) && InTime(m.s, w)
    ensures CanStep(m, Quiet(w)) && Step(m, Quiet(w)) == Machine(PppConfiguring, true, m.s.(current := VlanConfiguring))
    ensures forall u: World :: InTime(m.s.(current := VlanConfiguring), u) == InTime(m.s, u)
  {
    NothingToFind(m, Quiet(w));
    QuietStep(m, w);
    VlanPasses(m.s.(current := m.st), w);
    hide CanStep; hide Step; hide OnVlanConfiguring; hide Kept; hide Follows; hide RaisedByActive;
  }

  lemma PppRound(m: Machine, w: World)
    requires m.alive && m.st == PppConfiguring && NoMail(m.s) && StandsFirm(m.s.cfg) && InTime(m.s, w)
    ensures CanStep(m, Quiet(w)) &&
            Step(m, Quiet(w)) == Machine(ValidatingWan, true, m.s.(current := PppConfiguring, status := Validating))
    ensures forall u: World :: InTime(m.s.(current := PppConfiguring, status := Validating), u) == InTime(m.s, u)
  {
    NothingToFind(m, Quiet(w));
    QuietStep(m, w);
    PppPasses(m.s.(current := m.st), w);
    hide CanStep; hide Step; hide OnPppConfiguring; hide Kept; hide Follows; hide RaisedByActive;
  }

  lemma ValidatingRound(m: Machine, w: World)
    requires m.alive && m.st == ValidatingWan && NoMail(m.s) && StandsFirm(m.s.cfg) && InTime(m.s, w)
    ensures CanStep(m, Quiet(w))
    ensures var n := Step(m, Quiet(w));
            && n.alive && n.st == ObtainingIp && NoMail(n.s) && (Known(m.s) ==> Known(n.s))
            && n.s.cfg == m.s.cfg.(ipv6cpUp := n.s.cfg.ipv6cpUp) && n.s.mode.selected == m.s.mode.selected
            && n.s == m.s.(cfg := n.s.cfg, v4 := n.s.v4, v6 := n.s.v6, mode := n.s.mode, current := ValidatingWan)
  {
    NothingToFind(m, Quiet(w));
    QuietStep(m, w);
    ValidationPasses(m.s.(current := m.st), w);
    hide CanStep; hide Step; hide OnValidatingWan; hide Kept; hide Follows; hide RaisedByActive;
  }

  // ---- from OBTAINING into service ----

  /** A DHCPv4 lease arrives in OBTAINING: it is in service after the same round. */
  lemma Ipv4Arrives(m: Machine, msg: V4Message, w: World)
    requires m.alive && m.st == ObtainingIp && Known(m.s) && m.s.running && NoMail(m.s) && MayTake(m.s, w)
    requires msg.addressAssigned && msg.lease.gateway != "0.0.0.0" && w.broadcastOk
    ensures var i := Input([Offer4(msg)], false, w);
            && CanStep(m, i)
            && var n := Step(m, i);
               && n.alive && (n.st == Ipv4Leased || n.st == DualStackActive) && n.s.status == StatusUp
               && n.s.v4.st == IpUp && n.s.v4.conn && !n.s.v4.changed && SameLease4(n.s.v4.lease, msg.lease)
  {
    var i := Input([Offer4(msg)], false, w);
    NothingToFind(m, i);
    var s := Prepared(m, i);
    Offered4(m, msg, w);
    hide CanStep; hide Prepared; hide MayTake; hide Handle; hide SameLease4; hide Kept; hide Follows;
    hide RaisedByActive;
    ObtainingEnters(s, w);
    TakenIpv4(s, w);
  }

  lemma Offered4(m: Machine, msg: V4Message, w: World)
    requires m.st == ObtainingIp && m.s.running && NoMail(m.s) && MayTake(m.s, w) && Known(m.s)
    requires msg.addressAssigned && msg.lease.gateway != "0.0.0.0" && w.broadcastOk
    ensures var s := Prepared(m, Input([Offer4(msg)], false, w));
            && s.current == ObtainingIp && MayTake(s, w) && Known(s) && s.v4.st == IpUp && s.v6 == m.s.v6
            && SameLease4(s.v4.lease, msg.lease)
  {
    hide HandleV4; hide MayTake;
    var i := Input([Offer4(msg)], false, w);
    var a := m.s.v4.(mail := Some(msg));
    assert i.events[1..] == [];
    assert Environment(m.s, i.events) == m.s.(v4 := a);
    Ipv4Assigned(a, msg, w);
    assert Prepared(m, i) == m.s.(v4 := HandleV4(a, msg, w), current := ObtainingIp);
    OnlyTheLeaseChanges(m.s, HandleV4(a, msg, w), w);
  }

  lemma OnlyTheLeaseChanges(s: Iface, a: V4Side, w: World)
    ensures MayTake(s.(v4 := a, current := ObtainingIp), w) <==> MayTake(s, w)
  {
  }

  /** What the table says of the courses on this way. */
  lemma TakenRecords(s: Iface, w: World)
    ensures RecordAfter(TakeIpv4, ObtainingIp, s, w) == Ipv4Up(s).s
    ensures RecordAfter(TakeIpv6, ObtainingIp, s, w) == Ipv6Up(s).s
  {
    UpRows(ObtainingIp, s, w);
    hide RecordAfter; hide Ipv4Up; hide Ipv6Up;
  }

  /** The record after a round in OBTAINING. */
  lemma ObtainingRecord(s: Iface, w: World)
    requires Known(s) && s.current == ObtainingIp
    ensures var t := Readied(ObtainingIp, s, w);
            Handle(ObtainingIp, s, w).s == RecordAfter(InObtaining(t, w), ObtainingIp, t, w)
  {
    hide Handle; hide Readied; hide InObtaining; hide RecordAfter; hide NextAfter; hide Kept; hide Follows;
    hide RaisedByActive;
    HandlerIsTabled(ObtainingIp, s, w);
  }

  lemma TakenIpv4(s: Iface, w: World)
    requires s.current == ObtainingIp && Known(s) && MayTake(s, w) && s.v4.st == IpUp
    ensures var r := Handle(ObtainingIp, s, w).s;
            r.status == StatusUp && r.v4.conn && r.v4.st == IpUp && !r.v4.changed && r.v4.lease == s.v4.lease
  {
    hide Handle; hide Readied; hide InObtaining; hide RecordAfter; hide NextAfter; hide Kept; hide Follows;
    hide RaisedByActive; hide MayTake; hide Prepared; hide CanStep; hide Step; hide Checked;
    ObtainingRecord(s, w);
    ObtainingCourse(s, w);
    ReadiedInObtaining(s, w);
    ReadiedLease(s, w);
    TakenRecords(Readied(ObtainingIp, s, w), w);
  }

  lemma ReadiedLease(s: Iface, w: World)
    ensures Readied(ObtainingIp, s, w).v4.lease == s.v4.lease && Readied(ObtainingIp, s, w).v6.lease == s.v6.lease
    ensures Readied(ObtainingIp, s, w).v4.mail == s.v4.mail && Readied(ObtainingIp, s, w).v6.mail == s.v6.mail
    ensures Readied(ObtainingIp, s, w).v6.renewed == s.v6.renewed
  {
    hide Watched4; hide Watched6; hide WatchedConfig; hide ServesObtaining;
  }

  /** IPv6 is up in OBTAINING and IPv4 is not: the change is noted in one round, IPv6 is in service after the next. */
  lemma Ipv6Arrives(m: Machine, w1: World, w2: World)
    requires m.alive && m.st == ObtainingIp && Known(m.s) && NoMail(m.s) && m.s.v4.st == IpDown && m.s.v6.st == IpUp
    requires m.s.v6.changed && MayTake(m.s, w1) && MayTake(m.s, w2) && w2.lanReady
    ensures Runnable(m, [] + [Quiet(w1)] + [Quiet(w2)])
    ensures var n := Run(m, [] + [Quiet(w1)] + [Quiet(w2)]);
            && n.alive && n.st == Ipv6Leased && n.s.status == StatusUp && n.s.v6.conn && n.s.v6.st == IpUp
            && !n.s.v6.changed && n.s.v6.lease == m.s.v6.lease
  {
    hide Step; hide CanStep; hide Handle; hide Run; hide Runnable; hide Prepared; hide MayTake;
    assert Runnable(m, []) && Run(m, []) == m by { NoInputs(m); }
    NotingRound(m, w1, w2);
    var n1 := Step(m, Quiet(w1));
    RunThen(m, [], Quiet(w1));
    TakingRound(n1, w2);
    RunThen(m, [] + [Quiet(w1)], Quiet(w2));
  }

  /** The round in which OBTAINING notes the change of IPv6. */
  lemma NotedIpv6(s: Iface, w: World, later: World)
    requires s.current == ObtainingIp && Known(s) && NoMail(s) && s.v4.st == IpDown && s.v6.st == IpUp
    requires s.v6.changed && MayTake(s, w) && MayTake(s, later)
    ensures var m := Handle(ObtainingIp, s, w);
            && m.next == ObtainingIp && Known(m.s) && NoMail(m.s) && m.s.v4.st == IpDown && m.s.v6.st == IpUp
            && !m.s.v6.changed && MayTake(m.s, later) && m.s.v6.lease == s.v6.lease
  {
    hide Handle; hide Readied; hide InObtaining; hide RecordAfter; hide NextAfter; hide Kept; hide Follows;
    hide RaisedByActive; hide MayTake;
    var t := Readied(ObtainingIp, s, w);
    NotesIpv6(s, w);
    NextIsTabled(ObtainingIp, s, w);
    ObtainingRecord(s, w);
    NoteRow(ObtainingIp, t, w);
    ReadiedInObtaining(s, w);
    ReadiedLease(s, w);
    StillMayTake(s, t, later);
  }

  lemma NotingRound(m: Machine, w: World, later: World)
    requires m.alive && m.st == ObtainingIp && Known(m.s) && NoMail(m.s) && m.s.v4.st == IpDown && m.s.v6.st == IpUp
    requires m.s.v6.changed && MayTake(m.s, w) && MayTake(m.s, later)
    ensures CanStep(m, Quiet(w))
    ensures var n := Step(m, Quiet(w));
            && n.alive && n.st == ObtainingIp && Known(n.s) && NoMail(n.s) && n.s.v4.st == IpDown && n.s.v6.st == IpUp
            && !n.s.v6.changed && MayTake(n.s, later) && n.s.v6.lease == m.s.v6.lease
  {
    hide Handle; hide Kept; hide Follows; hide RaisedByActive; hide MayTake; hide Prepared; hide CanStep; hide Step;
    NothingToFind(m, Quiet(w));
    QuietStep(m, w);
    OnlyTheLeaseChanges(m.s, m.s.v4, w);
    OnlyTheLeaseChanges(m.s, m.s.v4, later);
    NotedIpv6(m.s.(current := ObtainingIp), w, later);
  }

  lemma StillMayTake(s: Iface, t: Iface, w: World)
    requires MayTake(s, w) && t.vlans == s.vlans && t.vlan == s.vlan && t.mapt == s.mapt
    requires t.cfg == s.cfg.(refreshDhcp := s.cfg.refreshDhcp, checkTypeChanged := t.cfg.checkTypeChanged)
    requires t.mode.selected == s.mode.selected && (t.mode == s.mode || s.mapt.status == MaptUp)
    ensures MayTake(t.(v6 := t.v6.(changed := false)), w)
  {
  }

  lemma NotesIpv6(s: Iface, w: World)
    requires MayTake(s, w) && s.v4.st == IpDown && s.v6.st == IpUp && s.v6.changed
    ensures InObtaining(Readied(ObtainingIp, s, w), w) == NoteIpv6
    ensures NextAfter(NoteIpv6, ObtainingIp, Readied(ObtainingIp, s, w)) == ObtainingIp
  {
    ReadiedInObtaining(s, w);
    hide Readied;
  }

  lemma TakingRound(m: Machine, w: World)
    requires m.alive && m.st == ObtainingIp && Known(m.s) && NoMail(m.s) && m.s.v4.st == IpDown && m.s.v6.st == IpUp
    requires !m.s.v6.changed && MayTake(m.s, w) && w.lanReady
    ensures CanStep(m, Quiet(w))
    ensures var n := Step(m, Quiet(w));
            && n.alive && n.st == Ipv6Leased && n.s.status == StatusUp && n.s.v6.conn && n.s.v6.st == IpUp
            && !n.s.v6.changed && n.s.v6.lease == m.s.v6.lease
  {
    hide Handle; hide Readied; hide InObtaining; hide RecordAfter; hide NextAfter; hide Kept; hide Follows;
    hide RaisedByActive; hide MayTake; hide Prepared; hide CanStep; hide Step; hide Checked;
    NothingToFind(m, Quiet(w));
    QuietStep(m, w);
    var s := m.s.(current := ObtainingIp);
    OnlyTheLeaseChanges(m.s, m.s.v4, w);
    ObtainingEnters(s, w);
    ObtainingRecord(s, w);
    ObtainingCourse(s, w);
    ReadiedInObtaining(s, w);
    ReadiedLease(s, w);
    TakenRecords(Readied(ObtainingIp, s, w), w);
  }
}
