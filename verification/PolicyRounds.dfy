/** Every round of the selection policies, written over the table: who is chosen, marked, dropped and launched. */
module PolicyRounds {
  import opened WanTypes
  import opened PolicyData
  import opened PrimaryPriority
  import opened FixedMode

  // ---- the interface a policy has to choose ----

  /** Enabled, of a valid priority, not a forbidden remote one and, for Primary Priority, with a link. */
  predicate Choosable(s: Slot, cfg: PolicyConfig, needsLink: bool) {
    && s.enable && s.priority >= 0 && s.priority < 255 && (s.ifaceType != RemoteIface || cfg.allowRemote)
    && (!needsLink || s.phy == PhyUp || s.phy == PhyInitializing)
  }

  /** The smaller priority comes first, and the earlier interface among equals. */
  predicate Beats(table: seq<Slot>, j: nat, k: nat)
    requires j < |table| && k < |table|
  {
    table[j].priority < table[k].priority || (table[j].priority == table[k].priority && j < k)
  }

  /** p is the interface other than skip that no choosable one beats; -1 when there is none to choose. */
  predicate Picks(table: seq<Slot>, cfg: PolicyConfig, needsLink: bool, skip: int, p: int) {
    && -1 <= p < |table|
    && (p != -1 ==> p != skip && Choosable(table[p], cfg, needsLink))
    && forall k: nat | k < |table| && k != skip && k != p && Choosable(table[k], cfg, needsLink) ::
         p != -1 && Beats(table, p, k)
  }

  /** The choice is unique. */
  lemma OnlyOnePick(table: seq<Slot>, cfg: PolicyConfig, needsLink: bool, skip: int, p: int, q: int)
    requires Picks(table, cfg, needsLink, skip, p)
    ensures Picks(table, cfg, needsLink, skip, q) <==> q == p
  {
  }

  /** The selection loops pick the best interface and the best beside it. */
  lemma TopTwoPicks(table: seq<Slot>, cfg: PolicyConfig)
    requires cfg.wanEnable
    ensures var (p, s) := TopTwo(table, cfg);
            Picks(table, cfg, true, -1, p) && Picks(table, cfg, true, p, s)
  {
    hide TopTwo;
    TopTwoFit(table, cfg);
    var (p, s) := TopTwo(table, cfg);
    SecondIsChoosable(table, cfg);
    forall k: nat | k < |table| && k != p && Choosable(table[k], cfg, true)
      ensures p != -1 && Beats(table, p, k) && (k != s ==> s != -1 && Beats(table, s, k))
    {
      TopTwoAreBest(table, cfg, k);
    }
    if p != -1 {
      TopTwoAreBest(table, cfg, p);
    }
  }

  lemma SecondIsChoosable(table: seq<Slot>, cfg: PolicyConfig)
    ensures var (p, s) := TopTwo(table, cfg); s != -1 ==> Choosable(table[s], cfg, true)
  {
    var cs := Candidates(table, |table|, cfg, true);
    CandidatesInOrder(table, |table|, cfg, true);
    SortMembers(cs);
    hide StableSort;
    if |StableSort(cs)| > 1 {
      assert StableSort(cs)[1] in cs;
    }
  }

  lemma BestIsChoosable(table: seq<Slot>, cfg: PolicyConfig)
    ensures var b := Best(table, cfg); b != -1 ==> Choosable(table[b], cfg, false)
  {
    var cs := Candidates(table, |table|, cfg, false);
    CandidatesInOrder(table, |table|, cfg, false);
    SortMembers(cs);
    hide StableSort;
    if StableSort(cs) != [] {
      assert StableSort(cs)[0] in cs;
    }
  }

  lemma BestBeats(table: seq<Slot>, cfg: PolicyConfig, k: nat)
    requires k < |table| && k != Best(table, cfg) && Choosable(table[k], cfg, false)
    ensures Best(table, cfg) != -1 && Beats(table, Best(table, cfg), k)
  {
    var cs := Candidates(table, |table|, cfg, false);
    var me := Candidate(k, table[k].priority);
    assert me in cs;
    CandidatesInOrder(table, |table|, cfg, false);
    SortIsStable(cs);
    SortMembers(cs);
    hide StableSort; hide Candidates;
    var sorted := StableSort(cs);
    assert me in multiset(sorted);
    var j :| 0 <= j < |sorted| && sorted[j] == me;
    assert sorted[0] in cs;
    assert j > 0 ==> Before(sorted[0], sorted[j]);
  }

  lemma BestPicks(table: seq<Slot>, cfg: PolicyConfig)
    ensures Picks(table, cfg, false, -1, Best(table, cfg))
  {
    hide Best;
    BestIsChoosable(table, cfg);
    forall k: nat | k < |table| && k != Best(table, cfg) && Choosable(table[k], cfg, false)
      ensures Best(table, cfg) != -1 && Beats(table, Best(table, cfg), k)
    {
      BestBeats(table, cfg, k);
    }
  }

  // ---- the table after a round ----

  /** Interface off is deselected and interface on selected; an index that names none changes nothing. */
  predicate Switched(before: seq<Slot>, after: seq<Slot>, off: int, on: int) {
    && |after| == |before|
    && forall k: nat | k < |before| ::
         after[k] == if k == on then before[k].(status := Active, activeLink := true)
                     else if k == off then before[k].(status := NotSelected, activeLink := false)
                     else before[k]
  }

  /** The policy keeps the indices active and secondary, and launched these machines in the round. */
  predicate Keeps(before: Ctl, after: Ctl, active: int, secondary: int, launched: seq<nat>) {
    after.active == active && after.secondary == secondary && after.started == before.started + launched
  }

  predicate NoneRuns(table: seq<Slot>) {
    |table| > 0 && forall k: nat | k < |table| :: table[k].virt == Disabled
  }

  lemma NoneRunsIsAllDown(table: seq<Slot>)
    ensures AllDown(table) == NoneRuns(table)
  {
    if NoneRuns(table) {
      forall s | s in table ensures s.virt == Disabled {
        var k :| 0 <= k < |table| && table[k] == s;
      }
    }
  }

  /** Whether the policy has to end. */
  predicate Ending(cfg: PolicyConfig) {
    !cfg.wanEnable || cfg.groupChanged
  }

  predicate Gone(s: Slot) {
    s.phy == PhyDown || !s.enable
  }

  predicate MayStandBy(s: Slot) {
    s.enable && s.virt == Disabled && s.phy == PhyUp && s.vlanStatus == LinkDown
  }

  // ---- Primary Priority ----

  /** STATE_WAN_INTERFACE_DOWN selects the best interface, marks it and launches its machine. */
  lemma DownRoundExactly(c: Ctl, cfg: PolicyConfig, standby: bool, p: int)
    requires InTable(c) && (cfg.wanEnable ==> Picks(c.ifaces, cfg, true, -1, p))
    ensures var r := Round(InterfaceDown, c, cfg, standby);
            if Ending(cfg) then r == Outcome(if c.active > -1 then TearingDown else SmExit, c)
            else if (!standby && !NoneRuns(c.ifaces)) || p == -1 then r == Outcome(InterfaceDown, c)
            else
              && Switched(c.ifaces, r.c.ifaces, c.active, p) && Keeps(c, r.c, p, c.secondary, [p])
              && r.next == if standby && c.secondary >= 0 then PrimaryActiveSecondaryUp else PrimaryActive
  {
    hide TopTwo;
    NoneRunsIsAllDown(c.ifaces);
    if cfg.wanEnable {
      TopTwoPicks(c.ifaces, cfg);
      OnlyOnePick(c.ifaces, cfg, true, -1, p, TopTwo(c.ifaces, cfg).0);
    }
    hide Picks; hide AllDown;
    TopTwoFit(c.ifaces, cfg);
  }

  /** Where something can be used, the round ends on the interface that no usable one beats. */
  lemma BestIsLaunched(c: Ctl, cfg: PolicyConfig, standby: bool, k: nat)
    requires InTable(c) && !Ending(cfg) && (standby || NoneRuns(c.ifaces))
    requires k < |c.ifaces| && Choosable(c.ifaces[k], cfg, true)
    ensures var r := Round(InterfaceDown, c, cfg, standby).c;
            && Has(r, r.active) && Choosable(c.ifaces[r.active], cfg, true)
            && (k == r.active || Beats(c.ifaces, r.active, k))
            && r.ifaces[r.active] == c.ifaces[r.active].(status := Active, activeLink := true)
            && r.started == c.started + [r.active]
  {
    hide TopTwo; hide Round;
    TopTwoPicks(c.ifaces, cfg);
    var p := TopTwo(c.ifaces, cfg).0;
    assert p != -1;
    DownRoundExactly(c, cfg, standby, p);
  }

  /** STATE_PRIMARY_WAN_ACTIVE stays only while its interface is the best one. */
  lemma PrimaryRoundExactly(c: Ctl, cfg: PolicyConfig, standby: bool, p: int, s: int)
    requires InTable(c) && (cfg.wanEnable ==> Picks(c.ifaces, cfg, true, -1, p) && Picks(c.ifaces, cfg, true, p, s))
    ensures var r := Round(PrimaryActive, c, cfg, standby);
            if c.active == -1 || Ending(cfg) then r == Outcome(InterfaceDown, c)
            else if Gone(c.ifaces[c.active]) || p != c.active then
              && r.next == InterfaceDown
              && Switched(c.ifaces, r.c.ifaces, c.active, -1) && Keeps(c, r.c, -1, c.secondary, [])
            else if !standby || s == c.secondary then r == Outcome(PrimaryActive, c)
            else if s != -1 && MayStandBy(c.ifaces[s]) then
              r.next == PrimaryActiveSecondaryUp && r.c.ifaces == c.ifaces && Keeps(c, r.c, c.active, s, [s])
            else
              r == Outcome(PrimaryActive, c.(secondary := -1))
  {
    hide TopTwo;
    if cfg.wanEnable {
      TopTwoPicks(c.ifaces, cfg);
      OnlyOnePick(c.ifaces, cfg, true, -1, p, TopTwo(c.ifaces, cfg).0);
      OnlyOnePick(c.ifaces, cfg, true, p, s, TopTwo(c.ifaces, cfg).1);
    }
    hide Picks;
  }

  lemma StayingIsBest(c: Ctl, cfg: PolicyConfig, standby: bool)
    requires InTable(c) && Round(PrimaryActive, c, cfg, standby).next == PrimaryActive
    ensures Picks(c.ifaces, cfg, true, -1, c.active) && c.active != -1 && !Gone(c.ifaces[c.active])
    ensures Round(PrimaryActive, c, cfg, standby).c.active == c.active
  {
    hide TopTwo; hide Round;
    var p, s := TopTwo(c.ifaces, cfg).0, TopTwo(c.ifaces, cfg).1;
    if cfg.wanEnable {
      TopTwoPicks(c.ifaces, cfg);
    }
    PrimaryRoundExactly(c, cfg, standby, p, s);
  }

  /** STATE_SECONDARY_WAN_ACTIVE gives way to a usable primary, and stays while its interface is the second best. */
  lemma SecondaryRoundExactly(c: Ctl, cfg: PolicyConfig, standby: bool, p: int, s: int)
    requires InTable(c) && (cfg.wanEnable ==> Picks(c.ifaces, cfg, true, -1, p) && Picks(c.ifaces, cfg, true, p, s))
    ensures var r := Round(SecondaryActive, c, cfg, standby);
            if c.active == -1 || Ending(cfg) then r == Outcome(InterfaceDown, c)
            else if Gone(c.ifaces[c.active]) || s != c.active || (p != -1 && !standby) then
              && r.next == InterfaceDown
              && Switched(c.ifaces, r.c.ifaces, c.active, -1) && Keeps(c, r.c, -1, -1, [])
            else if p != -1 then
              && r.next == (if c.secondary >= 0 then PrimaryActiveSecondaryUp else PrimaryActive)
              && Switched(c.ifaces, r.c.ifaces, c.active, p) && Keeps(c, r.c, p, c.secondary, [p])
            else r == Outcome(SecondaryActive, c)
  {
    hide TopTwo;
    if cfg.wanEnable {
      TopTwoPicks(c.ifaces, cfg);
      OnlyOnePick(c.ifaces, cfg, true, -1, p, TopTwo(c.ifaces, cfg).0);
      OnlyOnePick(c.ifaces, cfg, true, p, s, TopTwo(c.ifaces, cfg).1);
    }
    hide Picks;
  }

  /** Deselecting an interface does not change which one is best. */
  lemma SameBestAfterDrop(c: Ctl, cfg: PolicyConfig)
    requires cfg.wanEnable
    ensures TopTwo(Unmarked(c, c.active).ifaces, cfg).0 == TopTwo(c.ifaces, cfg).0
  {
    hide TopTwo;
    var t := Unmarked(c, c.active).ifaces;
    TopTwoPicks(c.ifaces, cfg);
    TopTwoPicks(t, cfg);
    var p := TopTwo(c.ifaces, cfg).0;
    forall k: nat | k < |t| ensures Choosable(t[k], cfg, true) == Choosable(c.ifaces[k], cfg, true) {
    }
    assert Picks(t, cfg, true, -1, p) by {
      forall k: nat | k < |t| && k != p && Choosable(t[k], cfg, true) ensures p != -1 && Beats(t, p, k) {
        assert Choosable(c.ifaces[k], cfg, true);
        assert Beats(c.ifaces, p, k);
      }
    }
    OnlyOnePick(t, cfg, true, -1, p, TopTwo(t, cfg).0);
  }

  /** STATE_PRIMARY_WAN_ACTIVE_SECONDARY_WAN_UP falls back to the secondary on a lost link, or changes the primary. */
  lemma BothUpRoundExactly(c: Ctl, cfg: PolicyConfig, standby: bool, p: int, s: int)
    requires InTable(c) && (cfg.wanEnable ==> Picks(c.ifaces, cfg, true, -1, p) && Picks(c.ifaces, cfg, true, p, s))
    ensures var r := Round(PrimaryActiveSecondaryUp, c, cfg, standby);
            if c.active == -1 || Ending(cfg) then r == Outcome(InterfaceDown, c)
            else if Gone(c.ifaces[c.active]) then
              && Switched(c.ifaces, r.c.ifaces, c.active, c.secondary)
              && Keeps(c, r.c, c.secondary, c.secondary, if c.secondary == -1 then [] else [c.secondary])
              && r.next == if c.secondary == -1 then InterfaceDown else SecondaryActive
            else if p != c.active then
              && r.next == PrimaryActiveSecondaryUp && Switched(c.ifaces, r.c.ifaces, c.active, p)
              && Keeps(c, r.c, p, c.secondary, if p == -1 then [] else [p])
            else if s == -1 then r == Outcome(PrimaryActive, c.(secondary := -1))
            else if s == c.secondary then r == Outcome(PrimaryActiveSecondaryUp, c)
            else if MayStandBy(c.ifaces[s]) then
              r.next == PrimaryActiveSecondaryUp && r.c.ifaces == c.ifaces && Keeps(c, r.c, c.active, s, [s])
            else r == Outcome(PrimaryActive, c.(secondary := -1))
  {
    hide TopTwo;
    if cfg.wanEnable {
      TopTwoPicks(c.ifaces, cfg);
      OnlyOnePick(c.ifaces, cfg, true, -1, p, TopTwo(c.ifaces, cfg).0);
      OnlyOnePick(c.ifaces, cfg, true, p, s, TopTwo(c.ifaces, cfg).1);
      SameBestAfterDrop(c, cfg);
    }
    hide Picks;
  }

  /** STATE_WAN_TEARING_DOWN deselects its interface and ends once that interface is DISABLED. */
  lemma TearingRoundExactly(c: Ctl, cfg: PolicyConfig, standby: bool)
    requires InTable(c)
    ensures var r := Round(TearingDown, c, cfg, standby);
            if c.active == -1 then r == Outcome(TearingDown, c)
            else
              && Switched(c.ifaces, r.c.ifaces, c.active, -1) && Keeps(c, r.c, c.active, c.secondary, [])
              && r.next == if c.ifaces[c.active].virt == Disabled then SmExit else TearingDown
  {
  }

  /** In every table of the run the same interface is the best one, its link is there and nothing ends the policy. */
  predicate BestThroughout(p: nat, inputs: seq<PpInput>) {
    forall i | 0 <= i < |inputs| ::
      && !Ending(inputs[i].cfg) && p < |inputs[i].table| && inputs[i].table[p].phy != PhyDown
      && Picks(inputs[i].table, inputs[i].cfg, true, -1, p)
  }

  /** Without standby a run stays on its interface for as long as that one is the best, and launches nothing else. */
  lemma {:induction false} StaysOnTheBest(c: Ctl, inputs: seq<PpInput>)
    requires InTable(c) && c.active >= 0 && RunFits(c, PrimaryActive, inputs, false)
    requires BestThroughout(c.active, inputs)
    ensures var r := Rounds(PrimaryActive, c, inputs, false);
            r.next == PrimaryActive && r.c.active == c.active && r.c.started == c.started
    decreases |inputs|
  {
    if inputs != [] {
      hide TopTwo;
      var i, d := inputs[0], c.(ifaces := inputs[0].table);
      TopTwoPicks(i.table, i.cfg);
      var s := TopTwo(i.table, i.cfg).1;
      OnlyOnePick(i.table, i.cfg, true, -1, c.active, TopTwo(i.table, i.cfg).0);
      hide Round;
      PrimaryRoundExactly(d, i.cfg, false, c.active, s);
      StaysOnTheBest(d, inputs[1..]);
    }
  }

  /** From a stopped system: the best interface is launched in the first round and served from then on. */
  lemma BestIsServed(c: Ctl, inputs: seq<PpInput>, p: nat)
    requires InTable(c) && RunFits(c, InterfaceDown, inputs, false) && inputs != []
    requires BestThroughout(p, inputs) && NoneRuns(inputs[0].table)
    ensures var r := Rounds(InterfaceDown, c, inputs, false);
            r.next == PrimaryActive && r.c.active == p && r.c.started == c.started + [p]
  {
    hide TopTwo;
    var i, d := inputs[0], c.(ifaces := inputs[0].table);
    DownRoundExactly(d, i.cfg, false, p);
    var o := Round(InterfaceDown, d, i.cfg, false);
    hide Round;
    StaysOnTheBest(o.c, inputs[1..]);
  }

  // ---- Fixed Mode, and On Bootup ----

  /** The deselected interface is also set DISABLED. */
  predicate Dropped(before: seq<Slot>, after: seq<Slot>, off: int) {
    && |after| == |before|
    && forall k: nat | k < |before| ::
         after[k] == if k == off then before[k].(status := NotSelected, activeLink := false, virt := Disabled)
                     else before[k]
  }

  /** STATE_FIXING_WAN_INTERFACE marks the interface chosen the round before, and chooses again. */
  lemma FixingExactly(c: Ctl, cfg: PolicyConfig, onBootup: bool, b: int)
    requires ActiveInTable(c) && Picks(c.ifaces, cfg, false, -1, b)
    ensures var r := FmRound(Fixing, c, cfg, onBootup);
            var fixes := b != -1 && c.active != -1;
            if Ending(cfg) then r == FmOutcome(FmExit, c)
            else
              && r.next == (if fixes then FixedDown else Fixing) && Keeps(c, r.c, b, c.secondary, [])
              && Switched(c.ifaces, r.c.ifaces, -1, if fixes then c.active else -1)
  {
    hide Best;
    BestPicks(c.ifaces, cfg);
    OnlyOnePick(c.ifaces, cfg, false, -1, b, Best(c.ifaces, cfg));
    hide Picks;
  }

  /** Plugged, idle, and its VLAN down. */
  predicate MayLaunch(s: Slot) {
    (s.phy == PhyUp || s.phy == PhyInitializing) && s.virt == Disabled && s.vlanStatus == LinkDown
  }

  /** STATE_FIXED_WAN_INTERFACE_DOWN launches the machine of the fixed interface once its link can be used. */
  lemma FixedDownExactly(c: Ctl, cfg: PolicyConfig, onBootup: bool, b: int)
    requires ActiveInTable(c) && Picks(c.ifaces, cfg, false, -1, b)
    ensures var r := FmRound(FixedDown, c, cfg, onBootup);
            if c.active == -1 then r == FmOutcome(Fixing, c)
            else
              var s := c.ifaces[c.active];
              if Ending(cfg) then r == FmOutcome(FmTearingDown, c)
              else if MayLaunch(s) then
                r.next == FixedUp && r.c.ifaces == c.ifaces && Keeps(c, r.c, c.active, c.secondary, [c.active])
              else if !onBootup && (!s.enable || b != c.active) then
                r.next == Fixing && Dropped(c.ifaces, r.c.ifaces, c.active) && Keeps(c, r.c, -1, c.secondary, [])
              else r == FmOutcome(FixedDown, c)
  {
    hide Best;
    BestPicks(c.ifaces, cfg);
    OnlyOnePick(c.ifaces, cfg, false, -1, b, Best(c.ifaces, cfg));
    hide Picks;
  }

  /** STATE_FIXED_WAN_INTERFACE_UP launches nothing, and gives the interface up only when On Bootup is not set. */
  lemma FixedUpExactly(c: Ctl, cfg: PolicyConfig, onBootup: bool, b: int)
    requires ActiveInTable(c) && Picks(c.ifaces, cfg, false, -1, b)
    ensures var r := FmRound(FixedUp, c, cfg, onBootup);
            if c.active == -1 || Ending(cfg) || c.ifaces[c.active].phy == PhyDown then r == FmOutcome(FixedDown, c)
            else if !onBootup && (!c.ifaces[c.active].enable || b != c.active) then
              r.next == Fixing && Dropped(c.ifaces, r.c.ifaces, c.active) && Keeps(c, r.c, -1, c.secondary, [])
            else r == FmOutcome(FixedUp, c)
  {
    hide Best;
    BestPicks(c.ifaces, cfg);
    OnlyOnePick(c.ifaces, cfg, false, -1, b, Best(c.ifaces, cfg));
    hide Picks;
  }

  lemma FmTearingExactly(c: Ctl, cfg: PolicyConfig, onBootup: bool)
    requires ActiveInTable(c)
    ensures var r := FmRound(FmTearingDown, c, cfg, onBootup);
            if c.active == -1 then r == FmOutcome(FmTearingDown, c)
            else
              && Switched(c.ifaces, r.c.ifaces, c.active, -1) && Keeps(c, r.c, c.active, c.secondary, [])
              && r.next == if c.ifaces[c.active].virt == Disabled then FmExit else FmTearingDown
  {
  }

  lemma FixesInTwo(c: Ctl, i: PpInput, j: PpInput, onBootup: bool, b: nat)
    requires Has(c, b) && c.active == b && FmRunFits(Fixing, c, [i, j], onBootup) && !Ending(i.cfg) && !Ending(j.cfg)
    requires Picks(i.table, i.cfg, false, -1, b) && Picks(j.table, j.cfg, false, -1, b) && b < |j.table|
    requires MayLaunch(j.table[b])
    ensures var r := FmRounds(Fixing, c, [i, j], onBootup);
            && r.next == FixedUp && r.c.active == b && r.c.started == c.started + [b]
            && |r.c.ifaces| > b && IsActive(r.c, b) && r.c.ifaces[b].activeLink
  {
    var c1 := c.(ifaces := i.table);
    FixingExactly(c1, i.cfg, onBootup, b);
    var o1 := FmRound(Fixing, c1, i.cfg, onBootup);
    assert [i, j][1..] == [j];
    var c2 := o1.c.(ifaces := j.table);
    FixedDownExactly(c2, j.cfg, onBootup, b);
    var o2 := FmRound(FixedDown, c2, j.cfg, onBootup);
    hide FmRound; hide Picks;
    assert FmRounds(FixedDown, o1.c, [j], onBootup) == o2;
  }

  /** Three rounds with the same best interface: it is chosen, fixed, and launched when it can start. */
  lemma BestIsFixed(c: Ctl, inputs: seq<PpInput>, onBootup: bool, b: nat)
    requires c.active == -1 && |inputs| == 3 && FmRunFits(Fixing, c, inputs, onBootup)
    requires forall i | 0 <= i < 3 ::
               !Ending(inputs[i].cfg) && b < |inputs[i].table| && Picks(inputs[i].table, inputs[i].cfg, false, -1, b)
    requires MayLaunch(inputs[2].table[b])
    ensures var r := FmRounds(Fixing, c, inputs, onBootup);
            && r.next == FixedUp && r.c.active == b && r.c.started == c.started + [b]
            && IsActive(r.c, b) && r.c.ifaces[b].activeLink
  {
    var c0 := c.(ifaces := inputs[0].table);
    FixingExactly(c0, inputs[0].cfg, onBootup, b);
    var o0 := FmRound(Fixing, c0, inputs[0].cfg, onBootup);
    assert inputs == [inputs[0]] + [inputs[1], inputs[2]];
    FixesInTwo(o0.c, inputs[1], inputs[2], onBootup, b);
    assert inputs[1..] == [inputs[1], inputs[2]];
    hide FmRound; hide Picks;
  }
}
