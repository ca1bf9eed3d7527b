/** The shared interface database of the selection policies, its recursive mutex, and the selection loops. */
module PolicyData {
  import opened WanTypes

  /** What a policy sees of one WAN interface; virt and vlanStatus belong to its first virtual interface. */
  datatype Slot = Slot(
    enable: bool, priority: int, phy: PhyState, ifaceType: IfaceType,
    status: Selection, activeLink: bool, virt: IfaceStatus, vlanStatus: LinkState)

  datatype PolicyConfig = PolicyConfig(wanEnable: bool, groupChanged: bool, allowRemote: bool)

  /** The policy controller with the database; started lists the interface machines it launched, oldest first. */
  datatype Ctl = Ctl(ifaces: seq<Slot>, active: int, secondary: int, started: seq<nat>)

  /** DML_WAN_IFACE_PRIORITY_MAX */
  const PRIORITY_MAX := 255

  predicate Has(c: Ctl, k: int) {
    0 <= k < |c.ifaces|
  }

  function Marked(c: Ctl, k: int): Ctl
    requires Has(c, k)
  {
    c.(ifaces := c.ifaces[k := c.ifaces[k].(activeLink := true, status := Active)])
  }

  function Unmarked(c: Ctl, k: int): Ctl {
    if Has(c, k) then c.(ifaces := c.ifaces[k := c.ifaces[k].(activeLink := false, status := NotSelected)]) else c
  }

  function Launched(c: Ctl, k: nat): Ctl {
    c.(started := c.started + [k])
  }

  /** An interface and its priority, as the selection loops compare them. */
  datatype Candidate = Candidate(index: int, priority: int)

  predicate Admitted(s: Slot, cfg: PolicyConfig) {
    s.enable && 0 <= s.priority < PRIORITY_MAX && (s.ifaceType == RemoteIface ==> cfg.allowRemote)
  }

  predicate LinkUsable(s: Slot) {
    s.phy == PhyUp || s.phy == PhyInitializing
  }

  /** The interfaces among the first n that may be selected, in table order. */
  function Candidates(ifaces: seq<Slot>, n: nat, cfg: PolicyConfig, needsLink: bool): (r: seq<Candidate>)
    requires n <= |ifaces|
    ensures forall c | c in r :: 0 <= c.index < n && c.priority == ifaces[c.index].priority &&
                                 Admitted(ifaces[c.index], cfg) && (needsLink ==> LinkUsable(ifaces[c.index]))
    ensures forall k | 0 <= k < n && Admitted(ifaces[k], cfg) && (needsLink ==> LinkUsable(ifaces[k])) ::
              Candidate(k, ifaces[k].priority) in r
  {
    if n == 0 then []
    else
      var rest := Candidates(ifaces, n - 1, cfg, needsLink);
      var s := ifaces[n - 1];
      if Admitted(s, cfg) && (needsLink ==> LinkUsable(s)) then rest + [Candidate(n - 1, s.priority)] else rest
  }

  /** Stable insertion: after everything of the same priority. */
  function Insert(sorted: seq<Candidate>, c: Candidate): (r: seq<Candidate>)
    ensures |r| == |sorted| + 1
  {
    if sorted == [] || c.priority < sorted[0].priority then [c] + sorted
    else [sorted[0]] + Insert(sorted[1..], c)
  }

  function StableSort(cs: seq<Candidate>): (r: seq<Candidate>)
    ensures |r| == |cs|
  {
    if cs == [] then [] else Insert(StableSort(cs[..|cs| - 1]), cs[|cs| - 1])
  }

  function IndexAt(cs: seq<Candidate>, k: nat): int {
    if k < |cs| then cs[k].index else -1
  }

  function PriorityAt(cs: seq<Candidate>, k: nat): int {
    if k < |cs| then cs[k].priority else PRIORITY_MAX
  }

  /** The two best interfaces for the primary priority policy; -1 stands for none. */
  function TopTwo(ifaces: seq<Slot>, cfg: PolicyConfig): (r: (int, int))
    ensures -1 <= r.0 < |ifaces| && -1 <= r.1 < |ifaces|
  {
    var cs := if cfg.wanEnable then Candidates(ifaces, |ifaces|, cfg, true) else [];
    CandidatesInOrder(ifaces, |ifaces|, cfg, true);
    SortMembers(cs);
    (IndexAt(StableSort(cs), 0), IndexAt(StableSort(cs), 1))
  }

  /** The best interface for the fixed mode policies, whatever its link. */
  function Best(ifaces: seq<Slot>, cfg: PolicyConfig): (r: int)
    ensures -1 <= r < |ifaces|
  {
    CandidatesInOrder(ifaces, |ifaces|, cfg, false);
    SortMembers(Candidates(ifaces, |ifaces|, cfg, false));
    IndexAt(StableSort(Candidates(ifaces, |ifaces|, cfg, false)), 0)
  }

  // ---- StableSort is a stable sort ----

  /** Ordered by priority, and by table position among equals. */
  predicate Before(a: Candidate, b: Candidate) {
    a.priority < b.priority || (a.priority == b.priority && a.index < b.index)
  }

  predicate Ordered(cs: seq<Candidate>) {
    forall i, j | 0 <= i < j < |cs| :: Before(cs[i], cs[j])
  }

  predicate InTableOrder(cs: seq<Candidate>) {
    forall i, j | 0 <= i < j < |cs| :: cs[i].index < cs[j].index
  }

  lemma {:induction false} InsertKeeps(sorted: seq<Candidate>, c: Candidate)
    requires Ordered(sorted) && forall x | x in sorted :: x.index < c.index
    ensures Ordered(Insert(sorted, c)) && multiset(Insert(sorted, c)) == multiset(sorted) + multiset{c}
  {
    if sorted != [] && c.priority >= sorted[0].priority {
      InsertKeeps(sorted[1..], c);
      var r := Insert(sorted[1..], c);
      assert sorted == [sorted[0]] + sorted[1..];
      forall j | 0 <= j < |r| ensures Before(sorted[0], r[j]) {
        assert r[j] in multiset(r);
        if r[j] != c {
          assert r[j] in sorted[1..];
        }
      }
    }
  }

  lemma {:induction false} SortIsStable(cs: seq<Candidate>)
    requires InTableOrder(cs)
    ensures Ordered(StableSort(cs)) && multiset(StableSort(cs)) == multiset(cs)
  {
    if cs != [] {
      var n := |cs| - 1;
      SortIsStable(cs[..n]);
      assert cs == cs[..n] + [cs[n]];
      forall x | x in StableSort(cs[..n]) ensures x.index < cs[n].index {
        assert x in multiset(cs[..n]);
      }
      InsertKeeps(StableSort(cs[..n]), cs[n]);
    }
  }

  lemma {:induction false} CandidatesInOrder(ifaces: seq<Slot>, n: nat, cfg: PolicyConfig, needsLink: bool)
    requires n <= |ifaces|
    ensures InTableOrder(Candidates(ifaces, n, cfg, needsLink))
  {
    if n > 0 {
      CandidatesInOrder(ifaces, n - 1, cfg, needsLink);
    }
  }

  /** One insertion moves at most the first two places, as the selection loop does. */
  lemma InsertTopTwo(sorted: seq<Candidate>, c: Candidate)
    requires c.priority < PRIORITY_MAX && forall x | x in sorted :: x.priority < PRIORITY_MAX
    ensures var r := Insert(sorted, c);
            if c.priority < PriorityAt(sorted, 0) then
              r[0] == c && IndexAt(r, 1) == IndexAt(sorted, 0) && PriorityAt(r, 1) == PriorityAt(sorted, 0)
            else
              && r[0] == sorted[0]
              && if c.priority < PriorityAt(sorted, 1) then r[1] == c
                 else IndexAt(r, 1) == IndexAt(sorted, 1) && PriorityAt(r, 1) == PriorityAt(sorted, 1)
  {
    if sorted != [] && c.priority >= sorted[0].priority {
      var t := Insert(sorted[1..], c);
      assert Insert(sorted, c)[1] == t[0];
    }
  }

  lemma SortMembers(cs: seq<Candidate>)
    requires InTableOrder(cs)
    ensures forall x | x in StableSort(cs) :: x in cs
  {
    SortIsStable(cs);
    forall x | x in StableSort(cs) ensures x in cs {
      assert x in multiset(cs);
    }
  }

  /** One more interface, seen or skipped by the loop. */
  lemma OneMoreCandidate(ifaces: seq<Slot>, n: nat, cfg: PolicyConfig, needsLink: bool)
    requires n < |ifaces|
    ensures var old' := StableSort(Candidates(ifaces, n, cfg, needsLink));
            var new' := StableSort(Candidates(ifaces, n + 1, cfg, needsLink));
            var s := ifaces[n];
            && (forall x | x in old' :: x.priority < PRIORITY_MAX)
            && if Admitted(s, cfg) && (needsLink ==> LinkUsable(s)) then new' == Insert(old', Candidate(n, s.priority))
               else new' == old'
  {
    var cs := Candidates(ifaces, n, cfg, needsLink);
    CandidatesInOrder(ifaces, n, cfg, needsLink);
    SortMembers(cs);
    var more := Candidates(ifaces, n + 1, cfg, needsLink);
    if Admitted(ifaces[n], cfg) && (needsLink ==> LinkUsable(ifaces[n])) {
      assert more[..|more| - 1] == cs;
    }
  }

  /** A secondary exists only beside a better primary, and both can be used. */
  lemma TopTwoFit(ifaces: seq<Slot>, cfg: PolicyConfig)
    ensures var (p, s) := TopTwo(ifaces, cfg);
            && -1 <= p < |ifaces| && -1 <= s < |ifaces|
            && (s != -1 ==> p != -1 && p != s && (ifaces[p].priority < ifaces[s].priority ||
                                                  (ifaces[p].priority == ifaces[s].priority && p < s)))
            && (p != -1 ==> cfg.wanEnable && Admitted(ifaces[p], cfg) && LinkUsable(ifaces[p]))
  {
    var cs := Candidates(ifaces, |ifaces|, cfg, true);
    CandidatesInOrder(ifaces, |ifaces|, cfg, true);
    SortIsStable(cs);
    SortMembers(cs);
    var sorted := StableSort(cs);
    if |sorted| > 0 {
      assert sorted[0] in cs;
    }
    if |sorted| > 1 {
      assert sorted[1] in cs && Before(sorted[0], sorted[1]);
    }
  }

  /** Nothing usable beats the primary, and nothing but the primary beats the secondary. */
  lemma TopTwoAreBest(ifaces: seq<Slot>, cfg: PolicyConfig, k: nat)
    requires cfg.wanEnable && k < |ifaces| && Admitted(ifaces[k], cfg) && LinkUsable(ifaces[k])
    ensures var (p, s) := TopTwo(ifaces, cfg);
            && 0 <= p < |ifaces|
            && (k == p || Before(Candidate(p, ifaces[p].priority), Candidate(k, ifaces[k].priority)))
            && (k != p ==> 0 <= s < |ifaces| &&
                           (k == s || Before(Candidate(s, ifaces[s].priority), Candidate(k, ifaces[k].priority))))
  {
    var cs := Candidates(ifaces, |ifaces|, cfg, true);
    var sorted := StableSort(cs);
    CandidatesInOrder(ifaces, |ifaces|, cfg, true);
    SortIsStable(cs);
    SortMembers(cs);
    TopTwoFit(ifaces, cfg);
    var me := Candidate(k, ifaces[k].priority);
    assert me in multiset(sorted);
    var j :| 0 <= j < |sorted| && sorted[j] == me;
    assert sorted[0] in cs;
    if j > 0 {
      assert Before(sorted[0], sorted[j]);
    }
    if j >= 1 {
      assert sorted[1] in cs;
    }
    if j > 1 {
      assert Before(sorted[1], sorted[j]);
    }
  }

  lemma NoCandidates(ifaces: seq<Slot>, cfg: PolicyConfig)
    ensures StableSort(Candidates(ifaces, 0, cfg, true)) == [] && StableSort(Candidates(ifaces, 0, cfg, false)) == []
    ensures StableSort([]) == []
  {
  }

  // ---- the policy controller ----

  /** held is the interface whose data the controller locked at the start of the round, or -1. */
  class PolicyController {
    var ifaces: seq<Slot>
    var activeIdx: int
    var secondaryIdx: int
    var started: seq<nat>
    var held: int
    var depth: nat

    function View(): Ctl
      reads this
    {
      Ctl(ifaces, activeIdx, secondaryIdx, started)
    }

    /** WanMgr_Controller_PolicyCtrlInit on a given database, with the mutex free. */
    constructor (table: seq<Slot>)
      ensures View() == Ctl(table, -1, -1, []) && held == -1 && depth == 0
    {
      ifaces, activeIdx, secondaryIdx, started := table, -1, -1, [];
      held, depth := -1, 0;
    }

    /** Locks the recursive mutex, and unlocks it again when there is no such interface. */
    method GetIfaceDataLocked(k: int) returns (found: bool)
      modifies `depth
      ensures found == Has(View(), k)
      ensures depth == old(depth) + if found then 1 else 0
    {
      depth := depth + 1;
      if 0 <= k < |ifaces| {
        return true;
      }
      Release();
      found := false;
    }

    method Release()
      requires depth > 0
      modifies `depth
      ensures depth == old(depth) - 1
    {
      depth := depth - 1;
    }

    /** The one-pass selection keeps the two best so far and equals the head of the stable sort. */
    method SelectTopTwo(cfg: PolicyConfig) returns (primary: int, secondary: int)
      modifies `depth
      ensures (primary, secondary) == TopTwo(ifaces, cfg)
      ensures depth == old(depth)
    {
      hide StableSort; hide Insert;
      NoCandidates(ifaces, cfg);
      primary, secondary := -1, -1;
      var best, second := PRIORITY_MAX, PRIORITY_MAX;
      if cfg.wanEnable {
        var k := 0;
        while k < |ifaces|
          invariant 0 <= k <= |ifaces| && depth == old(depth)
          invariant var sorted := StableSort(Candidates(ifaces, k, cfg, true));
                    primary == IndexAt(sorted, 0) && secondary == IndexAt(sorted, 1) &&
                    best == PriorityAt(sorted, 0) && second == PriorityAt(sorted, 1)
        {
          OneMoreCandidate(ifaces, k, cfg, true);
          InsertSelected(ifaces, k, cfg, true);
          var found := GetIfaceDataLocked(k);
          var s := ifaces[k];
          if s.enable && s.priority >= 0 && (s.phy == PhyUp || s.phy == PhyInitializing) {
            if !cfg.allowRemote && s.ifaceType == RemoteIface {
              Release();
              k := k + 1;
              continue;
            }
            if s.priority < best {
              secondary, second := primary, best;
              primary, best := k, s.priority;
            } else if s.priority < second {
              secondary, second := k, s.priority;
            }
          }
          Release();
          k := k + 1;
        }
      }
    }

    /** The selection of the fixed mode policies: the first interface of the smallest priority. */
    method SelectBest(cfg: PolicyConfig) returns (best: int)
      modifies `depth
      ensures best == Best(ifaces, cfg)
      ensures depth == old(depth)
    {
      hide StableSort; hide Insert;
      NoCandidates(ifaces, cfg);
      best := -1;
      var priority := PRIORITY_MAX;
      var k := 0;
      while k < |ifaces|
        invariant 0 <= k <= |ifaces| && depth == old(depth)
        invariant var sorted := StableSort(Candidates(ifaces, k, cfg, false));
                  best == IndexAt(sorted, 0) && priority == PriorityAt(sorted, 0)
      {
        OneMoreCandidate(ifaces, k, cfg, false);
        InsertSelected(ifaces, k, cfg, false);
        var found := GetIfaceDataLocked(k);
        var s := ifaces[k];
        if s.enable {
          if !cfg.allowRemote && s.ifaceType == RemoteIface {
            Release();
            k := k + 1;
            continue;
          }
          if 0 <= s.priority < priority {
            best, priority := k, s.priority;
          }
        }
        Release();
        k := k + 1;
      }
    }

    method MarkActive(k: int)
      requires Has(View(), k)
      modifies `ifaces
      ensures View() == Marked(old(View()), k)
    {
      ifaces := ifaces[k := ifaces[k].(activeLink := true)];
      ifaces := ifaces[k := ifaces[k].(status := Active)];
    }

    method MarkNotSelected(k: int)
      requires Has(View(), k)
      modifies `ifaces
      ensures View() == Unmarked(old(View()), k)
    {
      ifaces := ifaces[k := ifaces[k].(activeLink := false)];
      ifaces := ifaces[k := ifaces[k].(status := NotSelected)];
    }

    method StartMachine(k: nat)
      modifies `started
      ensures View() == Launched(old(View()), k)
    {
      started := started + [k];
    }
  }

  lemma InsertSelected(ifaces: seq<Slot>, n: nat, cfg: PolicyConfig, needsLink: bool)
    requires n < |ifaces|
    ensures var sorted := StableSort(Candidates(ifaces, n, cfg, needsLink));
            var r := StableSort(Candidates(ifaces, n + 1, cfg, needsLink));
            var c := Candidate(n, ifaces[n].priority);
            && PriorityAt(sorted, 0) <= PriorityAt(sorted, 1) <= PRIORITY_MAX
            && if Admitted(ifaces[n], cfg) && (needsLink ==> LinkUsable(ifaces[n])) then
                 if c.priority < PriorityAt(sorted, 0) then
                   && IndexAt(r, 0) == n && PriorityAt(r, 0) == c.priority
                   && IndexAt(r, 1) == IndexAt(sorted, 0) && PriorityAt(r, 1) == PriorityAt(sorted, 0)
                 else
                   && IndexAt(r, 0) == IndexAt(sorted, 0) && PriorityAt(r, 0) == PriorityAt(sorted, 0)
                   && if c.priority < PriorityAt(sorted, 1) then IndexAt(r, 1) == n && PriorityAt(r, 1) == c.priority
                      else IndexAt(r, 1) == IndexAt(sorted, 1) && PriorityAt(r, 1) == PriorityAt(sorted, 1)
               else r == sorted
  {
    var cs := Candidates(ifaces, n, cfg, needsLink);
    OneMoreCandidate(ifaces, n, cfg, needsLink);
    CandidatesInOrder(ifaces, n, cfg, needsLink);
    SortIsStable(cs);
    if Admitted(ifaces[n], cfg) && (needsLink ==> LinkUsable(ifaces[n])) {
      InsertTopTwo(StableSort(cs), Candidate(n, ifaces[n].priority));
    }
  }
}
