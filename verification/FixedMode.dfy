/** The Fixed Mode and Fixed Mode On Bootup policies; they differ in whether a fixed interface can be changed. */
module FixedMode {
  import opened WanTypes
  import opened PolicyData
  import opened PrimaryPriority

  datatype FmState = Fixing | FixedDown | FixedUp | FmTearingDown | FmExit

  datatype FmOutcome = FmOutcome(next: FmState, c: Ctl)

  predicate ActiveInTable(c: Ctl) {
    -1 <= c.active < |c.ifaces|
  }

  /** Marks the interface of the index the round started with, not of the index just chosen. */
  function WanInterfaceFixed(c: Ctl, held: int): FmOutcome {
    if Has(c, held) then FmOutcome(FixedDown, Marked(c, held)) else FmOutcome(Fixing, c)
  }

  function InterfaceChanged(c: Ctl, held: int): FmOutcome
    requires Has(c, held)
  {
    var u := Unmarked(c, held);
    FmOutcome(Fixing, u.(ifaces := u.ifaces[held := u.ifaces[held].(virt := Disabled)], active := -1))
  }

  function OnFixing(c: Ctl, held: int, cfg: PolicyConfig): (r: FmOutcome)
    requires ActiveInTable(c)
    ensures ActiveInTable(r.c) && |r.c.ifaces| == |c.ifaces|
  {
    if Stopping(cfg) then FmOutcome(FmExit, c)
    else
      var c1 := c.(active := Best(c.ifaces, cfg));
      if c1.active != -1 then WanInterfaceFixed(c1, held) else FmOutcome(Fixing, c1)
  }

  predicate CanStart(s: Slot) {
    LinkUsable(s) && s.virt == Disabled && s.vlanStatus == LinkDown
  }

  predicate MustChange(c: Ctl, held: int, cfg: PolicyConfig)
    requires Has(c, held)
  {
    !c.ifaces[held].enable || Best(c.ifaces, cfg) != c.active
  }

  function OnFixedDown(c: Ctl, held: int, cfg: PolicyConfig, onBootup: bool): (r: FmOutcome)
    requires ActiveInTable(c)
    ensures ActiveInTable(r.c) && |r.c.ifaces| == |c.ifaces|
  {
    if !Has(c, held) then FmOutcome(Fixing, c)
    else if Stopping(cfg) then FmOutcome(FmTearingDown, c)
    else if CanStart(c.ifaces[held]) then FmOutcome(FixedUp, Launched(c, held))
    else if !onBootup && MustChange(c, held, cfg) then InterfaceChanged(c, held)
    else FmOutcome(FixedDown, c)
  }

  function OnFixedUp(c: Ctl, held: int, cfg: PolicyConfig, onBootup: bool): (r: FmOutcome)
    requires ActiveInTable(c)
    ensures ActiveInTable(r.c) && |r.c.ifaces| == |c.ifaces|
  {
    if !Has(c, held) then FmOutcome(FixedDown, c)
    else if c.ifaces[held].phy == PhyDown || Stopping(cfg) then FmOutcome(FixedDown, c)
    else if !onBootup && MustChange(c, held, cfg) then InterfaceChanged(c, held)
    else FmOutcome(FixedUp, c)
  }

  function OnFmTearingDown(c: Ctl, held: int): (r: FmOutcome)
    requires ActiveInTable(c)
    ensures ActiveInTable(r.c) && |r.c.ifaces| == |c.ifaces|
  {
    if !Has(c, held) then FmOutcome(FmTearingDown, c)
    else FmOutcome(if c.ifaces[held].virt != Disabled then FmTearingDown else FmExit, Unmarked(c, held))
  }

  function FmRound(st: FmState, c: Ctl, cfg: PolicyConfig, onBootup: bool): (r: FmOutcome)
    requires ActiveInTable(c)
    ensures ActiveInTable(r.c) && |r.c.ifaces| == |c.ifaces|
  {
    match st
    case Fixing => OnFixing(c, c.active, cfg)
    case FixedDown => OnFixedDown(c, c.active, cfg, onBootup)
    case FixedUp => OnFixedUp(c, c.active, cfg, onBootup)
    case FmTearingDown => OnFmTearingDown(c, c.active)
    case FmExit => FmOutcome(FmExit, c)
  }

  // ---- the invariant, and exactly when a fixing round keeps it ----

  predicate Fixed(st: FmState) {
    st == FixedDown || st == FixedUp
  }

  /** While an interface is fixed it is the only ACTIVE one; while none is fixed, and at the end, none is. */
  predicate FmInv(st: FmState, c: Ctl) {
    && ActiveInTable(c) && LinksAgree(c) && OnlyActiveIndex(c)
    && (Fixed(st) ==> Has(c, c.active) && IsActive(c, c.active))
    && (st == FmTearingDown ==> Has(c, c.active))
    && (st == Fixing || st == FmExit ==> NoneActive(c))
  }

  /** What that says of the table. */
  lemma AtMostOneFixed(st: FmState, c: Ctl)
    requires FmInv(st, c)
    ensures forall i, j | 0 <= i < |c.ifaces| && 0 <= j < |c.ifaces| &&
                          c.ifaces[i].status == Active && c.ifaces[j].status == Active :: i == j
    ensures forall k | 0 <= k < |c.ifaces| :: c.ifaces[k].activeLink <==> c.ifaces[k].status == Active
    ensures st == FixedDown || st == FixedUp ==>
              0 <= c.active < |c.ifaces| && c.ifaces[c.active].status == Active && c.ifaces[c.active].activeLink
    ensures st == Fixing || st == FmExit ==> forall k | 0 <= k < |c.ifaces| :: c.ifaces[k].status != Active
    ensures st == FmTearingDown ==> 0 <= c.active < |c.ifaces|
  {
    forall k: nat | k < |c.ifaces| ensures IsActive(c, k) == (c.ifaces[k].status == Active) {
    }
  }

  /** The selection of this fixing round agrees with that of the round before, or one of the two found nothing. */
  predicate Steady(c: Ctl, cfg: PolicyConfig) {
    Stopping(cfg) || c.active == -1 || Best(c.ifaces, cfg) == -1 || Best(c.ifaces, cfg) == c.active
  }

  lemma FmHeldOnly(c: Ctl)
    requires ActiveInTable(c) && LinksAgree(c) && OnlyActiveIndex(c)
    ensures var u := Unmarked(c, c.active); LinksAgree(u) && NoneActive(u)
  {
    HeldIsTheOnlyOne(c.(secondary := -1));
    var u, v := Unmarked(c, c.active), Unmarked(c.(secondary := -1), c.active);
    assert u.ifaces == v.ifaces;
    forall k: nat | k < |u.ifaces| ensures u.ifaces[k].activeLink == IsActive(u, k) && !IsActive(u, k) {
      assert v.ifaces[k].activeLink == IsActive(v, k) && !IsActive(v, k);
    }
  }

  /** A fixing round keeps the invariant exactly when the selection did not move between two interfaces. */
  lemma FixingRoundExactly(c: Ctl, cfg: PolicyConfig, onBootup: bool)
    requires FmInv(Fixing, c)
    ensures FmInv(FmRound(Fixing, c, cfg, onBootup).next, FmRound(Fixing, c, cfg, onBootup).c) <==> Steady(c, cfg)
  {
    hide Best;
    var o := FmRound(Fixing, c, cfg, onBootup);
    var b := Best(c.ifaces, cfg);
    if !Stopping(cfg) && b != -1 && Has(c, c.active) {
      MarkingOne(c.(secondary := -1), c.active);
      forall k: nat | k < |o.c.ifaces|
        ensures o.c.ifaces[k].activeLink == IsActive(o.c, k) && (IsActive(o.c, k) <==> k == c.active)
      {
        assert c.ifaces[k].activeLink == IsActive(c, k);
      }
    }
    forall k: nat | k < |c.ifaces| ensures c.ifaces[k].activeLink == IsActive(c, k) && !IsActive(c, k) {
    }
  }

  lemma ChangedKeeps(c: Ctl)
    requires ActiveInTable(c) && LinksAgree(c) && OnlyActiveIndex(c) && Has(c, c.active)
    ensures var o := InterfaceChanged(c, c.active); FmInv(o.next, o.c)
  {
    FmHeldOnly(c);
    var u := Unmarked(c, c.active);
    var o := InterfaceChanged(c, c.active);
    forall k: nat | k < |o.c.ifaces| ensures o.c.ifaces[k].activeLink == IsActive(o.c, k) && !IsActive(o.c, k) {
      assert u.ifaces[k].activeLink == IsActive(u, k) && !IsActive(u, k);
    }
  }

  lemma FmRoundKeeps(st: FmState, c: Ctl, cfg: PolicyConfig, onBootup: bool)
    requires FmInv(st, c) && (st == Fixing ==> Steady(c, cfg))
    ensures FmInv(FmRound(st, c, cfg, onBootup).next, FmRound(st, c, cfg, onBootup).c)
  {
    hide Best;
    if st == Fixing {
      FixingRoundExactly(c, cfg, onBootup);
    } else if Has(c, c.active) {
      ChangedKeeps(c);
      FmHeldOnly(c);
    }
  }

  // ---- whole runs ----

  predicate FmRunFits(st: FmState, c: Ctl, inputs: seq<PpInput>, onBootup: bool)
    requires ActiveInTable(c)
    decreases |inputs|
  {
    inputs == [] ||
    (Rewrites(c.ifaces, inputs[0].table) &&
     var o := FmRound(st, c.(ifaces := inputs[0].table), inputs[0].cfg, onBootup);
     FmRunFits(o.next, o.c, inputs[1..], onBootup))
  }

  function FmRounds(st: FmState, c: Ctl, inputs: seq<PpInput>, onBootup: bool): (r: FmOutcome)
    requires ActiveInTable(c) && FmRunFits(st, c, inputs, onBootup)
    ensures ActiveInTable(r.c) && |r.c.ifaces| == |c.ifaces|
    decreases |inputs|
  {
    if inputs == [] then FmOutcome(st, c)
    else
      var o := FmRound(st, c.(ifaces := inputs[0].table), inputs[0].cfg, onBootup);
      FmRounds(o.next, o.c, inputs[1..], onBootup)
  }

  /** Every fixing round of the run was steady. */
  predicate SteadyThroughout(st: FmState, c: Ctl, inputs: seq<PpInput>, onBootup: bool)
    requires ActiveInTable(c) && FmRunFits(st, c, inputs, onBootup)
    decreases |inputs|
  {
    inputs == [] ||
    var d := c.(ifaces := inputs[0].table);
    (st == Fixing ==> Steady(d, inputs[0].cfg)) &&
    var o := FmRound(st, d, inputs[0].cfg, onBootup);
    SteadyThroughout(o.next, o.c, inputs[1..], onBootup)
  }

  lemma FmRewritingKeeps(st: FmState, c: Ctl, table: seq<Slot>)
    requires FmInv(st, c) && Rewrites(c.ifaces, table)
    ensures FmInv(st, c.(ifaces := table))
  {
    var d := c.(ifaces := table);
    forall k: nat | k < |table|
      ensures d.ifaces[k].activeLink == IsActive(d, k) && IsActive(d, k) == IsActive(c, k)
    {
      assert c.ifaces[k].activeLink == IsActive(c, k);
    }
  }

  lemma {:induction false} OneFixedInSteadyRuns(st: FmState, c: Ctl, inputs: seq<PpInput>, onBootup: bool)
    requires FmInv(st, c) && FmRunFits(st, c, inputs, onBootup) && SteadyThroughout(st, c, inputs, onBootup)
    ensures FmInv(FmRounds(st, c, inputs, onBootup).next, FmRounds(st, c, inputs, onBootup).c)
    decreases |inputs|
  {
    if inputs != [] {
      var d := c.(ifaces := inputs[0].table);
      FmRewritingKeeps(st, c, inputs[0].table);
      FmRoundKeeps(st, d, inputs[0].cfg, onBootup);
      var o := FmRound(st, d, inputs[0].cfg, onBootup);
      OneFixedInSteadyRuns(o.next, o.c, inputs[1..], onBootup);
    }
  }

  /** On Bootup: once an interface is fixed, every later round of every run keeps the index. */
  lemma {:induction false} FixedForGood(st: FmState, c: Ctl, inputs: seq<PpInput>)
    requires Has(c, c.active) && st != Fixing && FmRunFits(st, c, inputs, true)
    ensures FmRounds(st, c, inputs, true).c.active == c.active
    ensures FmRounds(st, c, inputs, true).next != Fixing
    decreases |inputs|
  {
    if inputs != [] {
      var d := c.(ifaces := inputs[0].table);
      var o := FmRound(st, d, inputs[0].cfg, true);
      FixedForGood(o.next, o.c, inputs[1..]);
    }
  }

  // ---- a run of Fixed Mode that leaves two interfaces ACTIVE ----

  function Idle(priority: int, active: bool, virt: IfaceStatus): Slot {
    Slot(true, priority, PhyDown, LocalIface, if active then Active else NotSelected, active, virt, LinkDown)
  }

  const RUNNING := PolicyConfig(true, false, false)

  lemma BestOfTwo(a: Slot, b: Slot)
    requires Admitted(a, RUNNING) && Admitted(b, RUNNING)
    ensures Best([a, b], RUNNING) == if a.priority <= b.priority then 0 else 1
  {
    var two := [a, b];
    var x, y := Candidate(0, a.priority), Candidate(1, b.priority);
    OneMoreCandidate(two, 0, RUNNING, false);
    OneMoreCandidate(two, 1, RUNNING, false);
    assert StableSort(Candidates(two, 0, RUNNING, false)) == [];
    assert Insert([], x) == [x];
    hide StableSort; hide Candidates;
    assert Insert([x], y) == if y.priority < x.priority then [y, x] else [x, y] by {
      assert [x][1..] == [];
      assert Insert([], y) == [y];
    }
  }

  /** The priorities of two unplugged interfaces swap four times. */
  lemma TwoActiveAfterSwaps()
    ensures var c0 := Ctl([Idle(1, false, Disabled), Idle(2, false, Disabled)], -1, -1, []);
            FmInv(Fixing, c0) &&
            exists inputs :: FmRunFits(Fixing, c0, inputs, false) &&
              var o := FmRounds(Fixing, c0, inputs, false);
              |o.c.ifaces| == 2 && IsActive(o.c, 0) && IsActive(o.c, 1)
  {
    hide Best;
    var c0 := Ctl([Idle(1, false, Disabled), Idle(2, false, Disabled)], -1, -1, []);
    var t1 := [Idle(2, false, Disabled), Idle(1, false, Disabled)];
    var t2 := [Idle(1, true, Disabled), Idle(2, false, Disabled)];
    var t3 := [Idle(2, true, Disabled), Idle(1, false, Disabled)];
    BestOfTwo(c0.ifaces[0], c0.ifaces[1]);
    BestOfTwo(t1[0], t1[1]);
    BestOfTwo(t2[0], t2[1]);
    BestOfTwo(t3[0], t3[1]);
    var i0, i1, i2 := PpInput(c0.ifaces, RUNNING), PpInput(t1, RUNNING), PpInput(t2, RUNNING);
    var i3, i4 := PpInput(t3, RUNNING), PpInput(t3, RUNNING);
    var c1 := Ctl(c0.ifaces, 0, -1, []);
    assert FmRound(Fixing, c0, RUNNING, false) == FmOutcome(Fixing, c1);
    var c2 := Ctl([Idle(2, true, Disabled), Idle(1, false, Disabled)], 1, -1, []);
    assert FmRound(Fixing, c1.(ifaces := t1), RUNNING, false) == FmOutcome(FixedDown, c2);
    var c3 := Ctl(t2, -1, -1, []);
    assert FmRound(FixedDown, c2.(ifaces := t2), RUNNING, false) == FmOutcome(Fixing, c3);
    var c4 := Ctl(t3, 1, -1, []);
    assert FmRound(Fixing, c3.(ifaces := t3), RUNNING, false) == FmOutcome(Fixing, c4);
    var c5 := Ctl([Idle(2, true, Disabled), Idle(1, true, Disabled)], 1, -1, []);
    assert FmRound(Fixing, c4, RUNNING, false) == FmOutcome(FixedDown, c5);
    hide FmRound;
    RunOne(Fixing, c4, i4, [], false);
    RunOne(Fixing, c3, i3, [i4], false);
    RunOne(FixedDown, c2, i2, [i3, i4], false);
    RunOne(Fixing, c1, i1, [i2, i3, i4], false);
    RunOne(Fixing, c0, i0, [i1, i2, i3, i4], false);
  }

  lemma RunOne(st: FmState, c: Ctl, i: PpInput, rest: seq<PpInput>, onBootup: bool)
    requires ActiveInTable(c) && Rewrites(c.ifaces, i.table)
    requires var o := FmRound(st, c.(ifaces := i.table), i.cfg, onBootup); FmRunFits(o.next, o.c, rest, onBootup)
    ensures FmRunFits(st, c, [i] + rest, onBootup)
    ensures var o := FmRound(st, c.(ifaces := i.table), i.cfg, onBootup);
            FmRounds(st, c, [i] + rest, onBootup) == FmRounds(o.next, o.c, rest, onBootup)
  {
    assert ([i] + rest)[1..] == rest;
  }

  // ---- the policy threads ----

  method FixInterface(c: PolicyController) returns (next: FmState)
    requires HeldFits(c)
    modifies c`ifaces
    ensures FmOutcome(next, c.View()) == WanInterfaceFixed(old(c.View()), c.held)
  {
    if c.held == -1 {
      return Fixing;
    }
    c.MarkActive(c.held);
    next := FixedDown;
  }

  method ChangeInterface(c: PolicyController) returns (next: FmState)
    requires Has(c.View(), c.held)
    modifies c`ifaces, c`activeIdx
    ensures FmOutcome(next, c.View()) == InterfaceChanged(old(c.View()), c.held)
  {
    c.ifaces := c.ifaces[c.held := c.ifaces[c.held].(virt := Disabled)];
    c.MarkNotSelected(c.held);
    c.activeIdx := -1;
    next := Fixing;
  }

  method FixingRound(c: PolicyController, cfg: PolicyConfig) returns (next: FmState)
    requires HeldFits(c) && ActiveInTable(c.View())
    modifies c`ifaces, c`activeIdx, c`depth
    ensures FmOutcome(next, c.View()) == OnFixing(old(c.View()), c.held, cfg) && c.depth == old(c.depth)
  {
    hide Best;
    if Stopping(cfg) {
      return FmExit;
    }
    c.activeIdx := c.SelectBest(cfg);
    if c.activeIdx != -1 {
      next := FixInterface(c);
      return;
    }
    next := Fixing;
  }

  method FixedDownRound(c: PolicyController, cfg: PolicyConfig, onBootup: bool) returns (next: FmState)
    requires HeldFits(c) && ActiveInTable(c.View())
    modifies c`ifaces, c`activeIdx, c`started, c`depth
    ensures FmOutcome(next, c.View()) == OnFixedDown(old(c.View()), c.held, cfg, onBootup) && c.depth == old(c.depth)
  {
    hide Best;
    if c.held == -1 {
      return Fixing;
    }
    if Stopping(cfg) {
      return FmTearingDown;
    }
    if CanStart(c.ifaces[c.held]) {
      c.StartMachine(c.held);
      return FixedUp;
    }
    if !onBootup {
      if !c.ifaces[c.held].enable {
        next := ChangeInterface(c);
        return;
      }
      var best := c.SelectBest(cfg);
      if best != c.activeIdx {
        next := ChangeInterface(c);
        return;
      }
    }
    next := FixedDown;
  }

  method FixedUpRound(c: PolicyController, cfg: PolicyConfig, onBootup: bool) returns (next: FmState)
    requires HeldFits(c) && ActiveInTable(c.View())
    modifies c`ifaces, c`activeIdx, c`depth
    ensures FmOutcome(next, c.View()) == OnFixedUp(old(c.View()), c.held, cfg, onBootup) && c.depth == old(c.depth)
  {
    hide Best;
    if c.held == -1 {
      return FixedDown;
    }
    if c.ifaces[c.held].phy == PhyDown || Stopping(cfg) {
      return FixedDown;
    }
    if !onBootup {
      if !c.ifaces[c.held].enable {
        next := ChangeInterface(c);
        return;
      }
      var best := c.SelectBest(cfg);
      if best != c.activeIdx {
        next := ChangeInterface(c);
        return;
      }
    }
    next := FixedUp;
  }

  method FmTearingDownRound(c: PolicyController) returns (next: FmState)
    requires HeldFits(c) && ActiveInTable(c.View())
    modifies c`ifaces
    ensures FmOutcome(next, c.View()) == OnFmTearingDown(old(c.View()), c.held)
  {
    if c.held == -1 {
      return FmTearingDown;
    }
    c.MarkNotSelected(c.held);
    if c.ifaces[c.held].virt != Disabled {
      return FmTearingDown;
    }
    next := FmExit;
  }

  method FmPolicyRound(c: PolicyController, st: FmState, cfg: PolicyConfig, onBootup: bool) returns (next: FmState)
    requires ActiveInTable(c.View())
    modifies c
    ensures FmOutcome(next, c.View()) == FmRound(st, old(c.View()), cfg, onBootup)
    ensures c.depth == old(c.depth)
  {
    hide OnFixing; hide OnFixedDown; hide OnFixedUp; hide OnFmTearingDown;
    var found := c.GetIfaceDataLocked(c.activeIdx);
    c.held := if found then c.activeIdx else -1;
    match st {
      case Fixing => next := FixingRound(c, cfg);
      case FixedDown => next := FixedDownRound(c, cfg, onBootup);
      case FixedUp => next := FixedUpRound(c, cfg, onBootup);
      case FmTearingDown => next := FmTearingDownRound(c);
      case FmExit => next := FmExit;
    }
    if c.held != -1 {
      c.Release();
    }
  }

  method FmPolicyThread(c: PolicyController, inputs: seq<PpInput>, onBootup: bool) returns (st: FmState)
    requires ActiveInTable(c.View()) && FmRunFits(Fixing, c.View(), inputs, onBootup)
    modifies c
    ensures FmOutcome(st, c.View()) == FmRounds(Fixing, old(c.View()), inputs, onBootup)
    ensures c.depth == old(c.depth)
  {
    hide FmRound;
    st := Fixing;
    var n := 0;
    while n < |inputs|
      invariant 0 <= n <= |inputs| && c.depth == old(c.depth)
      invariant ActiveInTable(c.View()) && FmRunFits(st, c.View(), inputs[n..], onBootup)
      invariant FmRounds(st, c.View(), inputs[n..], onBootup) == FmRounds(Fixing, old(c.View()), inputs, onBootup)
    {
      assert inputs[n..][0] == inputs[n] && inputs[n..][1..] == inputs[n + 1..];
      c.ifaces := inputs[n].table;
      st := FmPolicyRound(c, st, inputs[n].cfg, onBootup);
      n := n + 1;
    }
  }
}
