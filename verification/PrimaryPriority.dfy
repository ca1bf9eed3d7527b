/** The Primary Priority policy: its rounds as functions, what every run keeps, and the policy thread itself. */
module PrimaryPriority {
  import opened WanTypes
  import opened PolicyData

  datatype PpState = InterfaceDown | PrimaryActive | SecondaryActive | PrimaryActiveSecondaryUp | TearingDown | SmExit

  /** The next state and the controller after a round. */
  datatype Outcome = Outcome(next: PpState, c: Ctl)

  predicate AllDown(ifaces: seq<Slot>) {
    ifaces != [] && forall s | s in ifaces :: s.virt == Disabled
  }

  /** Index 0 and up is an interface; every other index is an interface that the lookup does not find. */
  predicate InTable(c: Ctl) {
    -1 <= c.active < |c.ifaces| && -1 <= c.secondary < |c.ifaces|
  }

  // In the transitions, held is the interface locked before the active index may change.

  function PrimarySelected(c: Ctl, held: int, standby: bool): Outcome
    requires Has(c, c.active)
  {
    Outcome(if standby && c.secondary >= 0 then PrimaryActiveSecondaryUp else PrimaryActive,
            Launched(Marked(Unmarked(c, held), c.active), c.active))
  }

  function PrimaryDeselected(c: Ctl, held: int): Outcome {
    Outcome(InterfaceDown, Unmarked(c, held).(active := -1))
  }

  function PrimaryChanged(c: Ctl, held: int, cfg: PolicyConfig): Outcome {
    var c1 := Unmarked(c, held).(active := -1);
    var (p, s) := TopTwo(c1.ifaces, cfg);
    Outcome(PrimaryActiveSecondaryUp, if Has(c1, p) then Launched(Marked(c1.(active := p), p), p) else c1)
  }

  function SecondarySelected(c: Ctl, held: int): Outcome {
    var c1 := Unmarked(c, held).(active := c.secondary);
    if Has(c1, c1.active) then Outcome(SecondaryActive, Launched(Marked(c1, c1.active), c1.active))
    else Outcome(InterfaceDown, c1)
  }

  function SecondaryDeselected(c: Ctl, held: int): Outcome {
    Outcome(InterfaceDown, Unmarked(c, held).(active := -1, secondary := -1))
  }

  predicate CanStartSecondary(s: Slot) {
    s.enable && s.virt == Disabled && s.phy == PhyUp && s.vlanStatus == LinkDown
  }

  function SecondaryUp(c: Ctl): Outcome {
    if Has(c, c.secondary) && CanStartSecondary(c.ifaces[c.secondary])
    then Outcome(PrimaryActiveSecondaryUp, Launched(c, c.secondary))
    else Outcome(PrimaryActive, c.(secondary := -1))
  }

  predicate Stopping(cfg: PolicyConfig) {
    !cfg.wanEnable || cfg.groupChanged
  }

  predicate LinkLost(c: Ctl, held: int)
    requires Has(c, held)
  {
    c.ifaces[held].phy == PhyDown || !c.ifaces[held].enable
  }

  function OnInterfaceDown(c: Ctl, held: int, cfg: PolicyConfig, standby: bool): (r: Outcome)
    requires InTable(c)
    ensures InTable(r.c) && |r.c.ifaces| == |c.ifaces|
  {
    hide TopTwo;
    if Stopping(cfg) then Outcome(if c.active > -1 then TearingDown else SmExit, c)
    else if !standby && !AllDown(c.ifaces) then Outcome(InterfaceDown, c)
    else
      var (p, s) := TopTwo(c.ifaces, cfg);
      if Has(c, p) then PrimarySelected(c.(active := p), held, standby)
      else if Has(c, s) then SecondarySelected(c.(active := s, secondary := s), held)
      else Outcome(InterfaceDown, c)
  }

  function OnPrimaryActive(c: Ctl, held: int, cfg: PolicyConfig, standby: bool): (r: Outcome)
    requires InTable(c)
    ensures InTable(r.c) && |r.c.ifaces| == |c.ifaces|
  {
    hide TopTwo;
    if !Has(c, held) || Stopping(cfg) then Outcome(InterfaceDown, c)
    else if LinkLost(c, held) then PrimaryDeselected(c, held)
    else
      var (p, s) := TopTwo(c.ifaces, cfg);
      if p != c.active then PrimaryDeselected(c, held)
      else if standby && s != c.secondary then SecondaryUp(c.(secondary := s))
      else Outcome(PrimaryActive, c)
  }

  function OnSecondaryActive(c: Ctl, held: int, cfg: PolicyConfig, standby: bool): (r: Outcome)
    requires InTable(c)
    ensures InTable(r.c) && |r.c.ifaces| == |c.ifaces|
  {
    hide TopTwo;
    if !Has(c, held) || Stopping(cfg) then Outcome(InterfaceDown, c)
    else if LinkLost(c, held) then SecondaryDeselected(c, held)
    else
      var (p, s) := TopTwo(c.ifaces, cfg);
      if s != c.active then SecondaryDeselected(c, held)
      else if Has(c, p) then
        (if standby then PrimarySelected(c.(active := p), held, standby) else SecondaryDeselected(c, held))
      else Outcome(SecondaryActive, c)
  }

  function OnPrimaryActiveSecondaryUp(c: Ctl, held: int, cfg: PolicyConfig): (r: Outcome)
    requires InTable(c)
    ensures InTable(r.c) && |r.c.ifaces| == |c.ifaces|
  {
    hide TopTwo;
    if !Has(c, held) || Stopping(cfg) then Outcome(InterfaceDown, c)
    else if LinkLost(c, held) then SecondarySelected(c, held)
    else
      var (p, s) := TopTwo(c.ifaces, cfg);
      if p != c.active then PrimaryChanged(c, held, cfg)
      else if s == -1 then Outcome(PrimaryActive, c.(secondary := -1))
      else if s != c.secondary then SecondaryUp(c.(secondary := s))
      else Outcome(PrimaryActiveSecondaryUp, c)
  }

  function OnTearingDown(c: Ctl, held: int): (r: Outcome)
    requires InTable(c)
    ensures InTable(r.c) && |r.c.ifaces| == |c.ifaces|
  {
    if !Has(c, held) then Outcome(TearingDown, c)
    else Outcome(if c.ifaces[held].virt != Disabled then TearingDown else SmExit, Unmarked(c, held))
  }

  /** One round of the policy loop; the active interface is locked before its state is processed. */
  function Round(st: PpState, c: Ctl, cfg: PolicyConfig, standby: bool): (r: Outcome)
    requires InTable(c)
    ensures InTable(r.c) && |r.c.ifaces| == |c.ifaces|
  {
    match st
    case InterfaceDown => OnInterfaceDown(c, c.active, cfg, standby)
    case PrimaryActive => OnPrimaryActive(c, c.active, cfg, standby)
    case SecondaryActive => OnSecondaryActive(c, c.active, cfg, standby)
    case PrimaryActiveSecondaryUp => OnPrimaryActiveSecondaryUp(c, c.active, cfg)
    case TearingDown => OnTearingDown(c, c.active)
    case SmExit => Outcome(SmExit, c)
  }

  // ---- the invariant ----

  predicate IsActive(c: Ctl, k: nat)
    requires k < |c.ifaces|
  {
    c.ifaces[k].status == Active
  }

  predicate LinksAgree(c: Ctl) {
    forall k: nat | k < |c.ifaces| :: c.ifaces[k].activeLink == IsActive(c, k)
  }

  predicate OnlyActiveIndex(c: Ctl) {
    forall k: nat | k < |c.ifaces| && IsActive(c, k) :: k == c.active
  }

  predicate NoneActive(c: Ctl) {
    forall k: nat | k < |c.ifaces| :: !IsActive(c, k)
  }

  predicate Serving(st: PpState) {
    st != TearingDown && st != SmExit
  }

  /** Until teardown the interface at the active index is ACTIVE and no other is. */
  predicate PpInv(st: PpState, c: Ctl) {
    && InTable(c) && LinksAgree(c) && OnlyActiveIndex(c)
    && (Serving(st) && Has(c, c.active) ==> IsActive(c, c.active))
    && (st == SmExit ==> NoneActive(c))
  }

  /** What that says of the table. */
  lemma AtMostOneActive(st: PpState, c: Ctl)
    requires PpInv(st, c)
    ensures forall i, j | 0 <= i < |c.ifaces| && 0 <= j < |c.ifaces| &&
                          c.ifaces[i].status == Active && c.ifaces[j].status == Active :: i == j
    ensures forall k | 0 <= k < |c.ifaces| :: c.ifaces[k].activeLink <==> c.ifaces[k].status == Active
    ensures st != TearingDown && st != SmExit && c.active != -1 ==>
              0 <= c.active < |c.ifaces| && c.ifaces[c.active].status == Active
    ensures st == SmExit ==> forall k | 0 <= k < |c.ifaces| :: c.ifaces[k].status != Active
  {
    forall k: nat | k < |c.ifaces| ensures IsActive(c, k) == (c.ifaces[k].status == Active) {
    }
  }

  /** The stale reference is harmless: it still names the only interface that can be ACTIVE. */
  lemma HeldIsTheOnlyOne(c: Ctl)
    requires InTable(c) && LinksAgree(c) && OnlyActiveIndex(c)
    ensures var u := Unmarked(c, c.active); LinksAgree(u) && NoneActive(u) && |u.ifaces| == |c.ifaces|
  {
    var u := Unmarked(c, c.active);
    forall k: nat | k < |u.ifaces| ensures u.ifaces[k].activeLink == IsActive(u, k) && !IsActive(u, k) {
      assert c.ifaces[k].activeLink == IsActive(c, k);
    }
  }

  lemma MarkingOne(c: Ctl, p: nat)
    requires NoneActive(c) && LinksAgree(c) && Has(c, p) && InTable(c)
    ensures var m := Launched(Marked(c.(active := p), p), p);
            InTable(m) && LinksAgree(m) && OnlyActiveIndex(m) && IsActive(m, p)
  {
    var m := Marked(c.(active := p), p);
    forall k: nat | k < |m.ifaces| ensures m.ifaces[k].activeLink == IsActive(m, k) && (IsActive(m, k) ==> k == p) {
      assert c.ifaces[k].activeLink == IsActive(c, k);
    }
  }

  lemma DownKeeps(c: Ctl, cfg: PolicyConfig, standby: bool)
    requires PpInv(InterfaceDown, c)
    ensures var o := OnInterfaceDown(c, c.active, cfg, standby); PpInv(o.next, o.c)
  {
    hide TopTwo;
    TopTwoFit(c.ifaces, cfg);
    HeldIsTheOnlyOne(c);
    var (p, s) := TopTwo(c.ifaces, cfg);
    if Has(c, p) {
      MarkingOne(Unmarked(c, c.active), p);
    }
  }

  lemma PrimaryActiveKeeps(c: Ctl, cfg: PolicyConfig, standby: bool)
    requires PpInv(PrimaryActive, c)
    ensures var o := OnPrimaryActive(c, c.active, cfg, standby); PpInv(o.next, o.c)
  {
    hide TopTwo;
    TopTwoFit(c.ifaces, cfg);
    HeldIsTheOnlyOne(c);
  }

  lemma SecondaryActiveKeeps(c: Ctl, cfg: PolicyConfig, standby: bool)
    requires PpInv(SecondaryActive, c)
    ensures var o := OnSecondaryActive(c, c.active, cfg, standby); PpInv(o.next, o.c)
  {
    hide TopTwo;
    TopTwoFit(c.ifaces, cfg);
    HeldIsTheOnlyOne(c);
    var (p, s) := TopTwo(c.ifaces, cfg);
    if Has(c, p) {
      MarkingOne(Unmarked(c, c.active), p);
    }
  }

  lemma SecondaryUpKeeps(c: Ctl, cfg: PolicyConfig)
    requires PpInv(PrimaryActiveSecondaryUp, c)
    ensures var o := OnPrimaryActiveSecondaryUp(c, c.active, cfg); PpInv(o.next, o.c)
  {
    hide TopTwo;
    var u := Unmarked(c, c.active).(active := -1);
    TopTwoFit(c.ifaces, cfg);
    TopTwoFit(u.ifaces, cfg);
    HeldIsTheOnlyOne(c);
    var (p, s) := TopTwo(u.ifaces, cfg);
    if Has(u, p) {
      MarkingOne(u, p);
    }
    if Has(u, c.secondary) {
      MarkingOne(u, c.secondary);
    }
  }

  lemma RoundKeeps(st: PpState, c: Ctl, cfg: PolicyConfig, standby: bool)
    requires PpInv(st, c)
    ensures PpInv(Round(st, c, cfg, standby).next, Round(st, c, cfg, standby).c)
  {
    match st
    case InterfaceDown => DownKeeps(c, cfg, standby);
    case PrimaryActive => PrimaryActiveKeeps(c, cfg, standby);
    case SecondaryActive => SecondaryActiveKeeps(c, cfg, standby);
    case PrimaryActiveSecondaryUp => SecondaryUpKeeps(c, cfg);
    case TearingDown => HeldIsTheOnlyOne(c);
    case SmExit =>
  }

  // ---- whole runs ----

  /** Between two rounds the rest of the system rewrites everything but the policy's own two fields. */
  predicate Rewrites(before: seq<Slot>, after: seq<Slot>) {
    && |after| == |before|
    && forall k | 0 <= k < |before| ::
         after[k].status == before[k].status && after[k].activeLink == before[k].activeLink
  }

  /** table: what the other threads left in the database before this round. */
  datatype PpInput = PpInput(table: seq<Slot>, cfg: PolicyConfig)

  predicate RunFits(c: Ctl, st: PpState, inputs: seq<PpInput>, standby: bool)
    requires InTable(c)
    decreases |inputs|
  {
    inputs == [] ||
    (Rewrites(c.ifaces, inputs[0].table) &&
     var o := Round(st, c.(ifaces := inputs[0].table), inputs[0].cfg, standby);
     RunFits(o.c, o.next, inputs[1..], standby))
  }

  /** The policy's state and controller after its rounds. */
  function Rounds(st: PpState, c: Ctl, inputs: seq<PpInput>, standby: bool): Outcome
    requires InTable(c) && RunFits(c, st, inputs, standby)
    decreases |inputs|
  {
    if inputs == [] then Outcome(st, c)
    else
      var o := Round(st, c.(ifaces := inputs[0].table), inputs[0].cfg, standby);
      Rounds(o.next, o.c, inputs[1..], standby)
  }

  lemma RewritingKeeps(st: PpState, c: Ctl, table: seq<Slot>)
    requires PpInv(st, c) && Rewrites(c.ifaces, table)
    ensures PpInv(st, c.(ifaces := table))
  {
    var d := c.(ifaces := table);
    forall k: nat | k < |table|
      ensures d.ifaces[k].activeLink == IsActive(d, k) && IsActive(d, k) == IsActive(c, k)
    {
      assert c.ifaces[k].activeLink == IsActive(c, k);
    }
  }

  /** Every run, with or without standby, has at most one ACTIVE interface, at the active index; none at the end. */
  lemma {:induction false} OneActiveInEveryRun(st: PpState, c: Ctl, inputs: seq<PpInput>, standby: bool)
    requires PpInv(st, c) && RunFits(c, st, inputs, standby)
    ensures PpInv(Rounds(st, c, inputs, standby).next, Rounds(st, c, inputs, standby).c)
    decreases |inputs|
  {
    if inputs != [] {
      var d := c.(ifaces := inputs[0].table);
      RewritingKeeps(st, c, inputs[0].table);
      RoundKeeps(st, d, inputs[0].cfg, standby);
      var o := Round(st, d, inputs[0].cfg, standby);
      OneActiveInEveryRun(o.next, o.c, inputs[1..], standby);
    }
  }

  predicate NeverSecondary(st: PpState) {
    st != SecondaryActive && st != PrimaryActiveSecondaryUp
  }

  /** Without standby the states that need a secondary interface are never entered. */
  lemma {:induction false} SecondaryIsUnreachable(st: PpState, c: Ctl, inputs: seq<PpInput>)
    requires InTable(c) && RunFits(c, st, inputs, false) && NeverSecondary(st)
    ensures NeverSecondary(Rounds(st, c, inputs, false).next)
    decreases |inputs|
  {
    if inputs != [] {
      var d := c.(ifaces := inputs[0].table);
      var o := Round(st, d, inputs[0].cfg, false);
      TopTwoFit(d.ifaces, inputs[0].cfg);
      SecondaryIsUnreachable(o.next, o.c, inputs[1..]);
    }
  }

  // ---- the policy thread ----

  // c.held is the interface locked at the start of the round, or -1. Every method gives the mutex back.

  predicate HeldFits(c: PolicyController)
    reads c
  {
    c.held == -1 || Has(c.View(), c.held)
  }

  method DropHeld(c: PolicyController)
    requires HeldFits(c)
    modifies c`ifaces
    ensures c.View() == Unmarked(old(c.View()), c.held)
  {
    if c.held != -1 {
      c.MarkNotSelected(c.held);
    }
  }

  method SelectPrimary(c: PolicyController, standby: bool) returns (next: PpState)
    requires HeldFits(c) && Has(c.View(), c.activeIdx)
    modifies c`ifaces, c`started, c`depth
    ensures Outcome(next, c.View()) == PrimarySelected(old(c.View()), c.held, standby) && c.depth == old(c.depth)
  {
    DropHeld(c);
    var found := c.GetIfaceDataLocked(c.activeIdx);
    if found {
      c.MarkActive(c.activeIdx);
      c.Release();
    }
    c.StartMachine(c.activeIdx);
    if standby {
      if c.secondaryIdx < 0 {
        return PrimaryActive;
      }
      return PrimaryActiveSecondaryUp;
    }
    next := PrimaryActive;
  }

  method DeselectPrimary(c: PolicyController) returns (next: PpState)
    requires HeldFits(c)
    modifies c`ifaces, c`activeIdx
    ensures Outcome(next, c.View()) == PrimaryDeselected(old(c.View()), c.held)
  {
    DropHeld(c);
    c.activeIdx := -1;
    next := InterfaceDown;
  }

  method ChangePrimary(c: PolicyController, cfg: PolicyConfig) returns (next: PpState)
    requires HeldFits(c)
    modifies c`ifaces, c`activeIdx, c`started, c`depth
    ensures Outcome(next, c.View()) == PrimaryChanged(old(c.View()), c.held, cfg) && c.depth == old(c.depth)
  {
    DropHeld(c);
    c.activeIdx := -1;
    var p, s := c.SelectTopTwo(cfg);
    if p != -1 {
      c.activeIdx := p;
      var found := c.GetIfaceDataLocked(c.activeIdx);
      if found {
        c.MarkActive(c.activeIdx);
        c.Release();
      }
      c.StartMachine(c.activeIdx);
    }
    next := PrimaryActiveSecondaryUp;
  }

  method SelectSecondary(c: PolicyController) returns (next: PpState)
    requires HeldFits(c)
    modifies c`ifaces, c`activeIdx, c`started, c`depth
    ensures Outcome(next, c.View()) == SecondarySelected(old(c.View()), c.held) && c.depth == old(c.depth)
  {
    DropHeld(c);
    c.activeIdx := c.secondaryIdx;
    var found := c.GetIfaceDataLocked(c.activeIdx);
    if !found {
      return InterfaceDown;
    }
    c.MarkActive(c.activeIdx);
    c.Release();
    c.StartMachine(c.activeIdx);
    next := SecondaryActive;
  }

  method DeselectSecondary(c: PolicyController) returns (next: PpState)
    requires HeldFits(c)
    modifies c`ifaces, c`activeIdx, c`secondaryIdx
    ensures Outcome(next, c.View()) == SecondaryDeselected(old(c.View()), c.held)
  {
    DropHeld(c);
    c.activeIdx := -1;
    c.secondaryIdx := -1;
    next := InterfaceDown;
  }

  method StartSecondary(c: PolicyController) returns (next: PpState)
    modifies c`secondaryIdx, c`started, c`depth
    ensures Outcome(next, c.View()) == SecondaryUp(old(c.View())) && c.depth == old(c.depth)
  {
    var up := false;
    var found := c.GetIfaceDataLocked(c.secondaryIdx);
    if found {
      up := CanStartSecondary(c.ifaces[c.secondaryIdx]);
      c.Release();
    }
    if !up {
      c.secondaryIdx := -1;
      return PrimaryActive;
    }
    c.StartMachine(c.secondaryIdx);
    next := PrimaryActiveSecondaryUp;
  }

  /** WanMgr_CheckAllIfacesDown */
  method CheckAllDown(c: PolicyController) returns (down: bool)
    modifies c`depth
    ensures down == AllDown(c.ifaces) && c.depth == old(c.depth)
  {
    down := c.ifaces != [];
    var k := 0;
    while k < |c.ifaces|
      invariant 0 <= k <= |c.ifaces| && c.depth == old(c.depth)
      invariant down <==> c.ifaces != [] && forall j | 0 <= j < k :: c.ifaces[j].virt == Disabled
    {
      var found := c.GetIfaceDataLocked(k);
      if c.ifaces[k].virt != Disabled {
        down := false;
      }
      c.Release();
      k := k + 1;
    }
  }

  method InterfaceDownRound(c: PolicyController, cfg: PolicyConfig, standby: bool) returns (next: PpState)
    requires HeldFits(c) && InTable(c.View())
    modifies c`ifaces, c`activeIdx, c`secondaryIdx, c`started, c`depth
    ensures Outcome(next, c.View()) == OnInterfaceDown(old(c.View()), c.held, cfg, standby) && c.depth == old(c.depth)
  {
    hide TopTwo;
    if Stopping(cfg) {
      if c.activeIdx > -1 {
        return TearingDown;
      } else {
        return SmExit;
      }
    }
    if !standby {
      var down := CheckAllDown(c);
      if !down {
        return InterfaceDown;
      }
    }
    var p, s := c.SelectTopTwo(cfg);
    if p != -1 {
      c.activeIdx := p;
      next := SelectPrimary(c, standby);
      return;
    } else if s != -1 {
      c.activeIdx := s;
      c.secondaryIdx := s;
      next := SelectSecondary(c);
      return;
    }
    next := InterfaceDown;
  }

  method PrimaryActiveRound(c: PolicyController, cfg: PolicyConfig, standby: bool) returns (next: PpState)
    requires HeldFits(c) && InTable(c.View())
    modifies c`ifaces, c`activeIdx, c`secondaryIdx, c`started, c`depth
    ensures Outcome(next, c.View()) == OnPrimaryActive(old(c.View()), c.held, cfg, standby) && c.depth == old(c.depth)
  {
    hide TopTwo;
    if c.held == -1 || Stopping(cfg) {
      return InterfaceDown;
    }
    if LinkLost(c.View(), c.held) {
      next := DeselectPrimary(c);
      return;
    }
    var p, s := c.SelectTopTwo(cfg);
    if p != c.activeIdx {
      next := DeselectPrimary(c);
      return;
    }
    if standby && s != c.secondaryIdx {
      c.secondaryIdx := s;
      next := StartSecondary(c);
      return;
    }
    next := PrimaryActive;
  }

  method SecondaryActiveRound(c: PolicyController, cfg: PolicyConfig, standby: bool) returns (next: PpState)
    requires HeldFits(c) && InTable(c.View())
    modifies c`ifaces, c`activeIdx, c`secondaryIdx, c`started, c`depth
    ensures Outcome(next, c.View()) == OnSecondaryActive(old(c.View()), c.held, cfg, standby) && c.depth == old(c.depth)
  {
    hide TopTwo;
    if c.held == -1 || Stopping(cfg) {
      return InterfaceDown;
    }
    if LinkLost(c.View(), c.held) {
      next := DeselectSecondary(c);
      return;
    }
    var p, s := c.SelectTopTwo(cfg);
    if s != c.activeIdx {
      next := DeselectSecondary(c);
      return;
    }
    if p != -1 {
      if standby {
        c.activeIdx := p;
        next := SelectPrimary(c, standby);
      } else {
        next := DeselectSecondary(c);
      }
      return;
    }
    next := SecondaryActive;
  }

  method SecondaryUpRound(c: PolicyController, cfg: PolicyConfig) returns (next: PpState)
    requires HeldFits(c) && InTable(c.View())
    modifies c`ifaces, c`activeIdx, c`secondaryIdx, c`started, c`depth
    ensures Outcome(next, c.View()) == OnPrimaryActiveSecondaryUp(old(c.View()), c.held, cfg)
    ensures c.depth == old(c.depth)
  {
    hide TopTwo;
    if c.held == -1 || Stopping(cfg) {
      return InterfaceDown;
    }
    if LinkLost(c.View(), c.held) {
      next := SelectSecondary(c);
      return;
    }
    var p, s := c.SelectTopTwo(cfg);
    if p != c.activeIdx {
      next := ChangePrimary(c, cfg);
      return;
    }
    if s == -1 {
      c.secondaryIdx := -1;
      return PrimaryActive;
    }
    if s != c.secondaryIdx {
      c.secondaryIdx := s;
      next := StartSecondary(c);
      return;
    }
    next := PrimaryActiveSecondaryUp;
  }

  method TearingDownRound(c: PolicyController) returns (next: PpState)
    requires HeldFits(c) && InTable(c.View())
    modifies c`ifaces
    ensures Outcome(next, c.View()) == OnTearingDown(old(c.View()), c.held)
  {
    if c.held == -1 {
      return TearingDown;
    }
    DropHeld(c);
    if c.ifaces[c.held].virt != Disabled {
      return TearingDown;
    }
    next := SmExit;
  }

  /** One round of the loop: lock the active interface, process the state, release what was locked. */
  method PolicyRound(c: PolicyController, st: PpState, cfg: PolicyConfig, standby: bool) returns (next: PpState)
    requires InTable(c.View())
    modifies c
    ensures Outcome(next, c.View()) == Round(st, old(c.View()), cfg, standby)
    ensures c.depth == old(c.depth)
  {
    hide OnInterfaceDown; hide OnPrimaryActive; hide OnSecondaryActive; hide OnPrimaryActiveSecondaryUp;
    var found := c.GetIfaceDataLocked(c.activeIdx);
    c.held := if found then c.activeIdx else -1;
    match st {
      case InterfaceDown => next := InterfaceDownRound(c, cfg, standby);
      case PrimaryActive => next := PrimaryActiveRound(c, cfg, standby);
      case SecondaryActive => next := SecondaryActiveRound(c, cfg, standby);
      case PrimaryActiveSecondaryUp => next := SecondaryUpRound(c, cfg);
      case TearingDown => next := TearingDownRound(c);
      case SmExit => next := SmExit;
    }
    if c.held != -1 {
      c.Release();
    }
  }

  /** The whole policy thread: its history is a run, and it holds the mutex as often at the end as at the start. */
  method PolicyThread(c: PolicyController, inputs: seq<PpInput>, standby: bool) returns (st: PpState)
    requires InTable(c.View()) && RunFits(c.View(), InterfaceDown, inputs, standby)
    modifies c
    ensures Outcome(st, c.View()) == Rounds(InterfaceDown, old(c.View()), inputs, standby)
    ensures c.depth == old(c.depth)
  {
    hide Round;
    st := InterfaceDown;
    var n := 0;
    while n < |inputs|
      invariant 0 <= n <= |inputs| && c.depth == old(c.depth)
      invariant InTable(c.View()) && RunFits(c.View(), st, inputs[n..], standby)
      invariant Rounds(st, c.View(), inputs[n..], standby) == Rounds(InterfaceDown, old(c.View()), inputs, standby)
    {
      assert inputs[n..][0] == inputs[n] && inputs[n..][1..] == inputs[n + 1..];
      c.ifaces := inputs[n].table;
      st := PolicyRound(c, st, inputs[n].cfg, standby);
      n := n + 1;
    }
  }
}
