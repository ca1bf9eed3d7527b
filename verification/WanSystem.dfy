/** The Primary Priority policy without standby, together with one interface machine per WAN interface. */
module WanSystem {
  import opened WanTypes
  import opened DhcpEvents
  import opened InterfaceSpec
  import opened InterfaceInvariant
  import opened InterfaceRuns
  import opened PolicyData
  import opened PrimaryPriority

  /**
   The record of one interface and the states in which its threads stand. A thread that has reached EXIT still has
   one round to go, and the policy may start the next thread before that round.
   */
  datatype Agent = Agent(s: Iface, threads: seq<SmState>)

  datatype System = System(pol: PpState, ctl: Ctl, agents: seq<Agent>)

  /** What can happen next, in any order: the interleaving of all threads under the mutex. */
  datatype Action =
    | Other(k: nat, e: Event)
    | Database(table: seq<Slot>)
    | ThreadRound(k: nat, t: nat, w: World)
    | PolicyRound(cfg: PolicyConfig, w: World)

  /** The configuration of a machine follows the selection table. */
  function Synced(s: Iface, slot: Slot): Iface {
    s.(cfg := s.cfg.(sel := slot.status, selEnable := slot.enable, phy := slot.phy, ifaceType := slot.ifaceType))
  }

  /** The policy sees the status that the machines publish. */
  function SyncedTable(table: seq<Slot>, agents: seq<Agent>): (r: seq<Slot>)
    requires |table| == |agents|
    ensures |r| == |table|
  {
    seq(|table|, k requires 0 <= k < |table| => table[k].(virt := agents[k].s.status))
  }

  predicate Shaped(sys: System) {
    |sys.agents| == |sys.ctl.ifaces| && InTable(sys.ctl)
  }

  /** The record that the handler of thread t sees. */
  function Seen(a: Agent, t: nat, slot: Slot, w: World): Iface
    requires t < |a.threads|
  {
    Drain(Synced(a.s, slot), w).(current := a.threads[t])
  }

  /** The interface and the thread that the action names exist, and a rewrite leaves the policy's fields alone. */
  predicate Named(sys: System, a: Action) {
    match a
    case Other(k, e) => k < |sys.agents|
    case Database(table) => Rewrites(sys.ctl.ifaces, table)
    case ThreadRound(k, t, w) => k < |sys.agents| && t < |sys.agents[k].threads|
    case PolicyRound(cfg, w) => true
  }

  /** The controller the policy sees: the status of each interface is the one its machine publishes. */
  function SeenByPolicy(sys: System): Ctl
    requires Shaped(sys)
  {
    sys.ctl.(ifaces := SyncedTable(sys.ctl.ifaces, sys.agents))
  }

  predicate Starts(before: Ctl, after: Ctl) {
    |after.started| > |before.started| && Has(after, after.active)
  }

  /** What the action dereferences of a discovery list exists. */
  predicate NothingMissing(sys: System, a: Action)
    requires Shaped(sys) && Named(sys, a)
  {
    match a
    case ThreadRound(k, t, w) => Finds(sys.agents[k].threads[t], Seen(sys.agents[k], t, sys.ctl.ifaces[k], w))
    case PolicyRound(cfg, w) =>
      var after := Round(sys.pol, SeenByPolicy(sys), cfg, false).c;
      Starts(SeenByPolicy(sys), after) && after.active < |sys.agents| ==>
        StartFinds(Synced(sys.agents[after.active].s, after.ifaces[after.active]))
    case _ => true
  }

  predicate Possible(sys: System, a: Action) {
    Shaped(sys) && Named(sys, a) && NothingMissing(sys, a)
  }

  /** With discovery lists built at boot nothing is ever missing. */
  lemma ListedMissNothing(sys: System, a: Action)
    requires Shaped(sys) && Named(sys, a) && forall k | 0 <= k < |sys.agents| :: Listed(sys.agents[k].s.vlans)
    ensures NothingMissing(sys, a)
  {
    hide HandleV4; hide HandleV6; hide Round;
    if a.ThreadRound? {
      assert Listed(sys.agents[a.k].s.vlans);
    }
  }

  /** One round of thread t; a thread that handled EXIT is gone afterwards. */
  function AfterRound(a: Agent, t: nat, slot: Slot, w: World): Agent
    requires t < |a.threads| && Finds(a.threads[t], Seen(a, t, slot, w))
  {
    var st := a.threads[t];
    var mv := Handle(st, Seen(a, t, slot, w), w);
    Agent(mv.s, if st == Exit then a.threads[..t] + a.threads[t + 1..] else a.threads[t := mv.next])
  }

  function AfterStart(a: Agent, slot: Slot, w: World): Agent
    requires StartFinds(Synced(a.s, slot))
  {
    var mv := Start(Synced(a.s, slot), w);
    Agent(mv.s, a.threads + [mv.next])
  }

  function Apply(sys: System, a: Action): System
    requires Possible(sys, a)
  {
    match a
    case Other(k, e) =>
      sys.(agents := sys.agents[k := sys.agents[k].(s := Happen(sys.agents[k].s, e))])
    case Database(table) =>
      sys.(ctl := sys.ctl.(ifaces := table))
    case ThreadRound(k, t, w) =>
      sys.(agents := sys.agents[k := AfterRound(sys.agents[k], t, sys.ctl.ifaces[k], w)])
    case PolicyRound(cfg, w) =>
      var o := Round(sys.pol, SeenByPolicy(sys), cfg, false);
      var agents :=
        if Starts(SeenByPolicy(sys), o.c)
        then sys.agents[o.c.active := AfterStart(sys.agents[o.c.active], o.c.ifaces[o.c.active], w)]
        else sys.agents;
      System(o.next, o.c, agents)
  }

  // ---- the invariant ----

  predicate Busy(a: Agent) {
    a.s.status != Disabled
  }

  predicate OnlyLive(threads: seq<SmState>, t: nat) {
    t < |threads| && threads[t] != Exit && forall u | 0 <= u < |threads| && u != t :: threads[u] == Exit
  }

  /** An idle interface has only threads about to end; a busy one has exactly one working thread. */
  ghost predicate AgentOk(a: Agent) {
    if Busy(a) then exists t: nat :: OnlyLive(a.threads, t) && Ready(a.threads[t], a.s)
    else Ready(Exit, a.s) && forall u | 0 <= u < |a.threads| :: a.threads[u] == Exit
  }

  ghost predicate SysInv(sys: System) {
    && Shaped(sys)
    && PpInv(sys.pol, sys.ctl) && NeverSecondary(sys.pol)
    && (forall k | 0 <= k < |sys.agents| :: AgentOk(sys.agents[k]))
    && (forall i, j | 0 <= i < |sys.agents| && 0 <= j < |sys.agents| && Busy(sys.agents[i]) && Busy(sys.agents[j]) ::
          i == j)
  }

  lemma SyncKeeps(st: SmState, s: Iface, slot: Slot)
    requires Ready(st, s)
    ensures Ready(st, Synced(s, slot))
  {
  }

  lemma FitIsReady(st: SmState, s: Iface)
    requires Fit(st, s)
    ensures Ready(st, s)
  {
  }

  /** The last round of an old thread does not disturb the state in which a new one stands. */
  lemma LateExitKeeps(st: SmState, s: Iface)
    requires Fit(st, s)
    ensures Fit(st, ClearDhcpData(s))
  {
  }

  lemma LiveRound(st: SmState, s: Iface, w: World)
    requires Fit(st, s) && s.current == st && Finds(st, s)
    ensures var mv := Handle(st, s, w); Ready(mv.next, mv.s) && (Busy(Agent(mv.s, [])) <==> mv.next != Exit)
  {
    HandlerKeeps(st, s, w);
    hide Handle; hide Stuck4;
  }

  lemma LiveRoundKeeps(a: Agent, t: nat, slot: Slot, w: World)
    requires OnlyLive(a.threads, t) && Ready(a.threads[t], a.s) && Finds(a.threads[t], Seen(a, t, slot, w))
    ensures AgentOk(AfterRound(a, t, slot, w))
  {
    var st := a.threads[t];
    SyncKeeps(st, a.s, slot);
    DrainKeeps(st, Synced(a.s, slot), w);
    var s := Seen(a, t, slot, w);
    assert Fit(st, s) && s.current == st by { hide Drain; hide Stuck4; }
    hide Seen; hide Fit;
    LiveRound(st, s, w);
    hide Handle; hide Ready; hide Finds;
    var mv := Handle(st, s, w);
    var r := AfterRound(a, t, slot, w);
    assert r == Agent(mv.s, a.threads[t := mv.next]);
    if mv.next != Exit {
      assert OnlyLive(r.threads, t);
    }
  }

  /** The last round of a thread clears the DHCP data and ends the thread. */
  lemma ExitRound(a: Agent, t: nat, slot: Slot, w: World)
    requires t < |a.threads| && a.threads[t] == Exit
    ensures AfterRound(a, t, slot, w) ==
            Agent(ClearDhcpData(Drain(Synced(a.s, slot), w).(current := Exit)), a.threads[..t] + a.threads[t + 1..])
  {
    hide Drain; hide ClearDhcpData; hide Synced;
  }

  lemma ExitRoundFits(st: SmState, a: Agent, slot: Slot, w: World)
    requires Ready(st, a.s)
    ensures var r := ClearDhcpData(Drain(Synced(a.s, slot), w).(current := Exit));
            Fit(st, r) && Ready(st, r)
  {
    SyncKeeps(st, a.s, slot);
    DrainKeeps(st, Synced(a.s, slot), w);
    hide Drain; hide Stuck4;
    LateExitKeeps(st, Drain(Synced(a.s, slot), w).(current := Exit));
    hide ClearDhcpData;
    FitIsReady(st, ClearDhcpData(Drain(Synced(a.s, slot), w).(current := Exit)));
  }

  lemma ExitRoundKeeps(a: Agent, t: nat, slot: Slot, w: World)
    requires AgentOk(a) && t < |a.threads| && a.threads[t] == Exit
    ensures AgentOk(AfterRound(a, t, slot, w)) && (Busy(AfterRound(a, t, slot, w)) <==> Busy(a))
  {
    ExitRound(a, t, slot, w);
    hide AfterRound; hide Drain; hide ClearDhcpData; hide Synced; hide MailFits; hide Stuck4;
    var r := AfterRound(a, t, slot, w);
    if Busy(a) {
      var v: nat :| OnlyLive(a.threads, v) && Ready(a.threads[v], a.s);
      ExitRoundFits(a.threads[v], a, slot, w);
      assert OnlyLive(r.threads, if v < t then v else v - 1);
    } else {
      ExitRoundFits(Exit, a, slot, w);
    }
  }

  lemma StartedAgentIsOk(a: Agent, slot: Slot, w: World)
    requires AgentOk(a) && !Busy(a) && StartFinds(Synced(a.s, slot))
    ensures AgentOk(AfterStart(a, slot, w)) && Busy(AfterStart(a, slot, w))
  {
    SyncKeeps(Exit, a.s, slot);
    StartKeeps(Synced(a.s, slot), w);
    var r := AfterStart(a, slot, w);
    hide Start;
    FitIsReady(VlanConfiguring, r.s);
    assert OnlyLive(r.threads, |a.threads|);
  }

  lemma OtherKeeps(a: Agent, e: Event)
    requires AgentOk(a)
    ensures AgentOk(a.(s := Happen(a.s, e))) && (Busy(a.(s := Happen(a.s, e))) <==> Busy(a))
  {
    var r := a.(s := Happen(a.s, e));
    if Busy(a) {
      var t: nat :| OnlyLive(a.threads, t) && Ready(a.threads[t], a.s);
      HappenKeeps(a.threads[t], a.s, e);
      assert OnlyLive(r.threads, t);
    } else {
      HappenKeeps(Exit, a.s, e);
    }
  }

  lemma RoundOfThreadKeeps(a: Agent, t: nat, slot: Slot, w: World)
    requires AgentOk(a) && t < |a.threads| && Finds(a.threads[t], Seen(a, t, slot, w))
    ensures AgentOk(AfterRound(a, t, slot, w)) && (Busy(AfterRound(a, t, slot, w)) ==> Busy(a))
  {
    hide AfterRound; hide Ready;
    if a.threads[t] == Exit {
      ExitRoundKeeps(a, t, slot, w);
    } else {
      LiveRoundKeeps(a, t, slot, w);
    }
  }

  /** Without standby the policy starts a machine only in a round in which every interface is down. */
  lemma RoundStarts(st: PpState, c: Ctl, cfg: PolicyConfig)
    requires InTable(c) && NeverSecondary(st)
    ensures var o := Round(st, c, cfg, false);
            && NeverSecondary(o.next)
            && (|o.c.started| > |c.started| ==> AllDown(c.ifaces) && o.c.started == c.started + [o.c.active])
  {
    hide TopTwo;
    TopTwoFit(c.ifaces, cfg);
  }

  lemma ReplaceKeeps(sys: System, k: nat, a: Agent)
    requires SysInv(sys) && k < |sys.agents| && AgentOk(a)
    requires Busy(a) ==> forall i | 0 <= i < |sys.agents| && i != k :: !Busy(sys.agents[i])
    ensures SysInv(sys.(agents := sys.agents[k := a]))
  {
    hide AgentOk; hide PpInv;
  }

  lemma OthersIdle(sys: System, k: nat)
    requires SysInv(sys) && k < |sys.agents| && Busy(sys.agents[k])
    ensures forall i | 0 <= i < |sys.agents| && i != k :: !Busy(sys.agents[i])
  {
    hide AgentOk; hide PpInv;
  }

  lemma PolicyRoundKeeps(sys: System, cfg: PolicyConfig, w: World)
    requires SysInv(sys) && Possible(sys, PolicyRound(cfg, w))
    ensures SysInv(Apply(sys, PolicyRound(cfg, w)))
  {
    var c := SeenByPolicy(sys);
    var o := Round(sys.pol, c, cfg, false);
    RewritingKeeps(sys.pol, sys.ctl, c.ifaces);
    RoundKeeps(sys.pol, c, cfg, false);
    RoundStarts(sys.pol, c, cfg);
    hide Round; hide PpInv; hide AgentOk; hide AfterStart;
    var mid := System(o.next, o.c, sys.agents);
    assert SysInv(mid);
    if Starts(c, o.c) {
      var k := o.c.active;
      forall i | 0 <= i < |sys.agents| ensures !Busy(sys.agents[i]) {
        assert c.ifaces[i] in c.ifaces;
      }
      StartedAgentIsOk(sys.agents[k], o.c.ifaces[k], w);
      ReplaceKeeps(mid, k, AfterStart(sys.agents[k], o.c.ifaces[k], w));
    }
  }

  lemma ApplyKeeps(sys: System, a: Action)
    requires SysInv(sys) && Possible(sys, a)
    ensures SysInv(Apply(sys, a))
  {
    match a
    case Other(k, e) =>
      OtherKeeps(sys.agents[k], e);
      hide AgentOk; hide PpInv; hide Happen;
      if Busy(sys.agents[k]) {
        OthersIdle(sys, k);
      }
      ReplaceKeeps(sys, k, sys.agents[k].(s := Happen(sys.agents[k].s, e)));
    case Database(table) =>
      RewritingKeeps(sys.pol, sys.ctl, table);
      hide AgentOk; hide PpInv;
    case ThreadRound(k, t, w) =>
      RoundOfThreadKeeps(sys.agents[k], t, sys.ctl.ifaces[k], w);
      hide AgentOk; hide PpInv; hide AfterRound;
      if Busy(sys.agents[k]) {
        OthersIdle(sys, k);
      }
      ReplaceKeeps(sys, k, AfterRound(sys.agents[k], t, sys.ctl.ifaces[k], w));
    case PolicyRound(cfg, w) =>
      PolicyRoundKeeps(sys, cfg, w);
  }

  // ---- system safety ----

  /** A history of the system: every state follows from the one before by a possible action. */
  ghost predicate History(h: seq<System>) {
    && h != []
    && forall i | 0 <= i < |h| - 1 :: exists a :: Possible(h[i], a) && h[i + 1] == Apply(h[i], a)
  }

  /** A system just after boot: nothing selected, no thread, every record empty or left by an ended machine. */
  ghost predicate Boot(sys: System) {
    && sys.pol == InterfaceDown && sys.ctl.active == -1 && sys.ctl.secondary == -1
    && |sys.agents| == |sys.ctl.ifaces|
    && LinksAgree(sys.ctl) && NoneActive(sys.ctl)
    && forall k | 0 <= k < |sys.agents| :: sys.agents[k].threads == [] && Fit(Exit, sys.agents[k].s)
  }

  predicate InLeasedState(a: Agent) {
    exists t :: 0 <= t < |a.threads| && Leased(a.threads[t])
  }

  lemma BootIsSafe(sys: System)
    requires Boot(sys)
    ensures SysInv(sys)
  {
    forall k | 0 <= k < |sys.agents| ensures AgentOk(sys.agents[k]) && !Busy(sys.agents[k]) {
      FitIsReady(Exit, sys.agents[k].s);
    }
  }

  lemma {:induction false} HistoryIsSafe(h: seq<System>, n: nat)
    requires History(h) && Boot(h[0]) && n < |h|
    ensures SysInv(h[n])
  {
    if n == 0 {
      BootIsSafe(h[0]);
    } else {
      HistoryIsSafe(h, n - 1);
      var a :| Possible(h[n - 1], a) && h[(n - 1) + 1] == Apply(h[n - 1], a);
      ApplyKeeps(h[n - 1], a);
    }
  }

  /**
   In every reachable state at most one interface is not DISABLED, so at most one is in a leased state, at most one
   is ACTIVE, and the policy is in none of the states that need a secondary interface.
   */
  lemma AtMostOneWanInterface(h: seq<System>, n: nat, i: nat, j: nat)
    requires History(h) && Boot(h[0]) && n < |h| && i < |h[n].agents| && j < |h[n].agents| && i != j
    ensures !(Busy(h[n].agents[i]) && Busy(h[n].agents[j]))
    ensures !(InLeasedState(h[n].agents[i]) && InLeasedState(h[n].agents[j]))
    ensures |h[n].agents| == |h[n].ctl.ifaces| && !(IsActive(h[n].ctl, i) && IsActive(h[n].ctl, j))
    ensures NeverSecondary(h[n].pol)
  {
    HistoryIsSafe(h, n);
    assert AgentOk(h[n].agents[i]) && AgentOk(h[n].agents[j]);
    hide Ready;
  }
}
