/** VLAN discovery: the linked list that is built at boot, and the fair walk over it. */
module VlanList {
  import opened WanTypes
  import Spec = InterfaceSpec

  class Node {
    const entry: VlanEntry
    var next: Node?

    constructor (e: VlanEntry)
      ensures entry == e && next == null
    {
      entry, next := e, null;
    }
  }

  /** A singly linked list with its nodes in order. */
  class List {
    var head: Node?
    ghost var nodes: seq<Node>

    ghost function NodeAt(k: nat): Node?
      reads this
    {
      if k < |nodes| then nodes[k] else null
    }

    ghost predicate Valid()
      reads this, nodes
    {
      && head == NodeAt(0)
      && (forall k: nat | k < |nodes| :: nodes[k].next == NodeAt(k + 1))
      && (forall i, j | 0 <= i < j < |nodes| :: nodes[i] != nodes[j])
    }

    ghost function Entries(): (r: seq<VlanEntry>)
      reads this
      ensures |r| == |nodes|
    {
      seq(|nodes|, k requires 0 <= k < |nodes| reads this => nodes[k].entry)
    }

    constructor ()
      ensures Valid() && Entries() == [] && nodes == []
    {
      head, nodes := null, [];
    }

    /** WanMgr_AddVirtVlanIfToList: walks to the last node and links the new one behind it. */
    method Add(n: Node)
      requires Valid() && n.next == null && n !in nodes
      modifies this, nodes
      ensures Valid() && nodes == old(nodes) + [n]
      ensures Entries() == old(Entries()) + [n.entry]
    {
      if head == null {
        head := n;
        nodes := [n];
        return;
      }
      var last := head;
      ghost var k := 0;
      while last.next != null
        invariant 0 <= k < |nodes| && last == nodes[k]
        decreases |nodes| - k
      {
        last := last.next;
        k := k + 1;
      }
      last.next := n;
      nodes := nodes + [n];
    }

    /** WanMgr_getVirtVlanIfById */
    method Find(index: int) returns (n: Node?)
      requires Valid()
      ensures match Spec.FindVlan(Entries(), index)
              case Some(k) => n == nodes[k]
              case None => n == null
    {
      n := head;
      ghost var k := 0;
      while n != null
        invariant 0 <= k <= |nodes| && n == NodeAt(k)
        invariant Spec.FindVlan(Entries(), index) ==
                  match Spec.FindVlan(Entries()[k..], index)
                  case Some(j) => Some(k + j)
                  case None => None
        decreases |nodes| - k
      {
        if n.entry.index == index {
          return;
        }
        assert Entries()[k..][1..] == Entries()[k + 1..];
        n := n.next;
        k := k + 1;
      }
    }

    /** The entry that wan_transition_wan_refreshed tries next. */
    method NextEntry(active: int, reset: bool) returns (e: VlanEntry)
      requires Valid() && nodes != []
      ensures e == Spec.NextVlan(Entries(), active, reset)
    {
      var n := head;
      if !reset && active != -1 {
        n := Find(active);
        if n == null || n.next == null {
          n := head;
        } else {
          n := n.next;
        }
      }
      e := n.entry;
    }
  }

  /** The entries of a list built at boot: Index 0, 1, 2 and so on. */
  function Built(names: seq<string>): (r: seq<VlanEntry>)
    ensures |r| == |names| && (names != [] ==> Spec.Listed(r))
  {
    seq(|names|, k requires 0 <= k < |names| => VlanEntry(k, names[k]))
  }

  /** The loop of WanMgr_VirtIfConfVLAN. */
  method Build(names: seq<string>) returns (l: List)
    ensures fresh(l) && l.Valid() && l.Entries() == Built(names)
  {
    l := new List();
    var i := 0;
    while i < |names|
      invariant 0 <= i <= |names| && fresh(l) && l.Valid() && fresh(l.nodes)
      invariant l.Entries() == Built(names[..i])
    {
      var n := new Node(VlanEntry(i, names[i]));
      l.Add(n);
      i := i + 1;
    }
    assert names[..i] == names;
  }
}
