/** Fairness of VLAN discovery on a list built at boot. */
module VlanFairness {
  import opened WanTypes
  import opened DhcpEvents
  import opened InterfaceSpec
  import opened InterfaceRuns
  import opened Bits
  import opened VlanList

  /** Entry k of a list built at boot has Index k and the k-th name. */
  lemma BuiltInOrder(names: seq<string>, k: nat)
    requires k < |names|
    ensures |Built(names)| == |names| && Built(names)[k].index == k && Built(names)[k].name == names[k]
  {
  }

  lemma {:induction false} FindInBuilt(names: seq<string>, i: nat, k: nat)
    requires k <= i < |names|
    ensures FindVlan(Built(names)[k..], i) == Some(i - k)
    decreases i - k
  {
    assert Built(names)[k..][0].index == k;
    if k < i {
      FindInBuilt(names, i, k + 1);
      assert Built(names)[k..][1..] == Built(names)[k + 1..];
    }
  }

  lemma NextInBuilt(names: seq<string>, i: nat)
    requires i < |names|
    ensures NextVlan(Built(names), i, false) == Built(names)[(i + 1) % |names|]
  {
    var built := Built(names);
    FindInBuilt(names, i, 0);
    assert built[0..] == built;
    hide FindVlan; hide Built;
    SmallMod(i, |names|);
  }

  lemma SmallMod(i: nat, n: nat)
    requires i < n
    ensures (i + 1) % n == if i + 1 < n then i + 1 else 0
  {
    if i + 1 < n {
      DivModUnique(0, n, i + 1);
    } else {
      DivModUnique(1, n, 0);
    }
  }

  /** The record when the discovery timer of a local interface expired and its enabled VLAN went down. */
  function Expire(s: Iface): Iface {
    s.(cfg := s.cfg.(vlanEnable := true, vlanStatus := LinkDown, vlanReset := false, ifaceType := LocalIface),
       vlan := s.vlan.(expired := true))
  }

  /** One expired refresh after the other; in between only the discovery fields matter. */
  function ExpiredRefreshes(s: Iface, ws: seq<World>): (r: Iface)
    requires s.vlans != []
    ensures r.vlans == s.vlans
  {
    if ws == [] then s
    else WanRefreshed(Expire(ExpiredRefreshes(s, ws[..|ws| - 1])), ws[|ws| - 1]).s
  }

  lemma OneRefresh(names: seq<string>, s: Iface, w: World)
    requires names != [] && s.vlans == Built(names) && 0 <= s.vlan.activeIndex < |names|
    ensures var r := WanRefreshed(Expire(s), w).s;
            r.vlan.activeIndex == (s.vlan.activeIndex + 1) % |names| && r.vlan.inUse == names[r.vlan.activeIndex]
  {
    NextInBuilt(names, s.vlan.activeIndex);
    hide NextVlan;
  }

  lemma ModSucc(a: nat, n: nat)
    requires n > 0
    ensures (a % n + 1) % n == (a + 1) % n
  {
    assert a == a / n * n + a % n;
    ModSuccAt(a / n, n, a % n);
  }

  lemma ModSuccAt(q: nat, n: nat, r: nat)
    requires r < n
    ensures (r + 1) % n == (q * n + r + 1) % n
  {
    if r + 1 == n {
      assert (q + 1) * n == q * n + n;
      DivModUnique(q + 1, n, 0);
      DivModUnique(1, n, 0);
    } else {
      DivModUnique(q, n, r + 1);
      DivModUnique(0, n, r + 1);
    }
  }

  /** k expired refreshes move the active index k places around the list. */
  lemma {:induction false} WalkIsCyclic(names: seq<string>, s: Iface, ws: seq<World>)
    requires names != [] && s.vlans == Built(names) && 0 <= s.vlan.activeIndex < |names|
    ensures ExpiredRefreshes(s, ws).vlan.activeIndex == (s.vlan.activeIndex + |ws|) % |names|
  {
    hide WanRefreshed;
    if ws != [] {
      var k := |ws| - 1;
      WalkIsCyclic(names, s, ws[..k]);
      OneRefresh(names, ExpiredRefreshes(s, ws[..k]), ws[k]);
      ModSucc(s.vlan.activeIndex + k, |names|);
    }
  }

  /** Within as many refreshes as there are VLANs every one of them is tried. */
  lemma EveryVlanIsTried(names: seq<string>, s: Iface, ws: seq<World>, target: nat)
    requires names != [] && s.vlans == Built(names) && 0 <= s.vlan.activeIndex < |names|
    requires target < |names| <= |ws|
    ensures exists k :: 1 <= k <= |names| && ExpiredRefreshes(s, ws[..k]).vlan.activeIndex == target
  {
    var k := Distance(s.vlan.activeIndex, target, |names|);
    hide ExpiredRefreshes; hide Distance; hide Built;
    WalkHits(names, s, ws[..k], target);
  }

  /** How many steps lead from entry i around the list to the target; a full round when they are the same. */
  function Distance(i: nat, target: nat, n: nat): (k: nat)
    requires i < n && target < n
    ensures 1 <= k <= n
  {
    if target > i then target - i else target + n - i
  }

  lemma WalkHits(names: seq<string>, s: Iface, ws: seq<World>, target: nat)
    requires names != [] && s.vlans == Built(names) && 0 <= s.vlan.activeIndex < |names| && target < |names|
    requires |ws| == Distance(s.vlan.activeIndex, target, |names|)
    ensures ExpiredRefreshes(s, ws).vlan.activeIndex == target
  {
    hide ExpiredRefreshes; hide Built;
    WalkIsCyclic(names, s, ws);
    CyclicDistance(s.vlan.activeIndex, target, |names|, |ws|);
  }

  lemma CyclicDistance(i: nat, target: nat, n: nat, k: nat)
    requires i < n && target < n && k == Distance(i, target, n)
    ensures (i + k) % n == target
  {
    if target > i {
      DivModUnique(0, n, target);
    } else {
      DivModUnique(1, n, target);
    }
  }

  /** A reset, or an index that was never set, starts over at the head. */
  lemma ResetStartsOver(s: Iface, w: World)
    requires s.vlans != [] && VlanIsDown(s.cfg) && s.cfg.ifaceType != RemoteIface
    requires s.cfg.vlanReset || (s.vlan.expired && s.vlan.activeIndex == -1)
    ensures var r := WanRefreshed(s, w).s;
            VlanEntry(r.vlan.activeIndex, r.vlan.inUse) == s.vlans[0] && !r.cfg.vlanReset && !r.vlan.expired
  {
  }

  // ---- VLANInUse over whole runs ----

  /** The lookup finds the first entry with the Index, and nothing exactly when there is none. */
  lemma {:induction false} FoundFirst(vlans: seq<VlanEntry>, index: int)
    ensures match FindVlan(vlans, index)
            case Some(k) => k < |vlans| && vlans[k].index == index && forall j | 0 <= j < k :: vlans[j].index != index
            case None => forall j | 0 <= j < |vlans| :: vlans[j].index != index
  {
    if vlans != [] && vlans[0].index != index {
      FoundFirst(vlans[1..], index);
      assert forall j | 1 <= j < |vlans| :: vlans[j] == vlans[1..][j - 1];
    }
  }

  /** After a timeout the entry behind the active one is next, and after the last one the first. */
  lemma NextIsBehind(vlans: seq<VlanEntry>, active: int, k: nat)
    requires k < |vlans| && vlans[k].index == active && forall j | 0 <= j < k :: vlans[j].index != active
    ensures active != -1 ==> NextVlan(vlans, active, false) == if k + 1 < |vlans| then vlans[k + 1] else vlans[0]
    ensures NextVlan(vlans, active, true) == vlans[0] && NextVlan(vlans, -1, false) == vlans[0]
  {
    FoundFirst(vlans, active);
    hide FindVlan;
  }

  lemma NextOfUnknown(vlans: seq<VlanEntry>, active: int, reset: bool)
    requires vlans != [] && forall j | 0 <= j < |vlans| :: vlans[j].index != active
    ensures NextVlan(vlans, active, reset) == vlans[0]
  {
    FoundFirst(vlans, active);
    hide FindVlan;
  }

  /** The VLAN of a local interface that is enabled and was not found to be up. */
  predicate ConfiguresVlan(s: Iface, w: World) {
    && s.cfg.vlanEnable && s.cfg.ifaceType == LocalIface && s.cfg.vlanStatus == LinkDown
    && !(s.vlan.inUse != "" && w.vlanFound)
  }

  /** Discovery starts with the entry of Index 0, unless a VLAN was chosen before; only then the timer is set. */
  lemma StartsDiscovery(s: Iface, w: World)
    requires StartFinds(s)
    ensures var v := Start(s, w).s.vlan;
            if !ConfiguresVlan(s, w) then v == s.vlan
            else
              && v.expired == s.vlan.expired
              && v.timerStart == (if |s.vlans| > 1 then w.now else s.vlan.timerStart)
              && if s.vlan.inUse != "" then v.activeIndex == s.vlan.activeIndex && v.inUse == s.vlan.inUse
                 else v.activeIndex == 0 && VlanEntry(0, v.inUse) in s.vlans
  {
    if FindVlan(s.vlans, 0).Some? {
      FoundFirst(s.vlans, 0);
    }
  }

  lemma StartDiscovers(s: Iface, w: World)
    requires StartFinds(s)
    ensures Discovers(s, Start(s, w).s)
  {
    if FindVlan(s.vlans, 0).Some? {
      FoundFirst(s.vlans, 0);
    }
  }

  lemma {:induction false} EventsKeepDiscovery(s: Iface, events: seq<Event>)
    ensures Environment(s, events).vlan == s.vlan
    decreases |events|
  {
    if events != [] {
      EventsKeepDiscovery(Happen(s, events[0]), events[1..]);
    }
  }

  /** From the first choice of discovery on, VLANInUse names the entry at ActiveIndex, whatever happens. */
  lemma {:induction false} InUseNamesActive(m: Machine, inputs: seq<Input>)
    requires Runnable(m, inputs)
    ensures Discovers(m.s, Run(m, inputs).s)
    decreases |inputs|
  {
    if inputs != [] {
      var i := inputs[0];
      StepDiscovers(m, i);
      hide Step;
      InUseNamesActive(Step(m, i), inputs[1..]);
    }
  }

  lemma StepDiscovers(m: Machine, i: Input)
    requires CanStep(m, i)
    ensures Discovers(m.s, Step(m, i).s)
  {
    EventsKeepDiscovery(m.s, i.events);
    hide Environment; hide Handle; hide Start;
    var s := Environment(m.s, i.events);
    if !m.alive && i.launch {
      StartDiscovers(s, i.w);
    }
  }
}
