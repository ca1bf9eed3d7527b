/** The DHCPv6 options the client sends: an in-memory table with two replicas, the syscfg slots and the dibbler file. */
module SentOptions {

  datatype Sent = Sent(inst: nat, alias: string, enabled: bool, tag: nat, value: string)

  datatype Status = Success | Failure | CantFind

  /** One line of the client's file: tag, number of octets, value in hexadecimal. */
  datatype Line = Line(tag: nat, octets: nat, value: string)

  /** The enabled options, in table order. */
  function Lines(options: seq<Sent>): (r: seq<Line>) {
    if options == [] then []
    else
      var n := |options| - 1;
      Lines(options[..n]) +
      if options[n].enabled then [Line(options[n].tag, |options[n].value| / 2, options[n].value)] else []
  }

  /** The enabled options before place k. */
  function Rank(options: seq<Sent>, k: nat): (r: nat)
    requires k <= |options|
    ensures r <= k
  {
    if k == 0 then 0 else Rank(options, k - 1) + if options[k - 1].enabled then 1 else 0
  }

  /** Every enabled option has its line, with one octet for two hexadecimal digits, behind those of earlier options. */
  lemma {:induction false} EnabledHasLine(options: seq<Sent>, k: nat)
    requires k < |options|
    ensures |Lines(options)| == Rank(options, |options|) && Rank(options, k) <= |Lines(options)|
    ensures options[k].enabled ==>
              && Rank(options, k) < |Lines(options)|
              && var line := Lines(options)[Rank(options, k)];
                 line.tag == options[k].tag && line.octets == |options[k].value| / 2 && line.value == options[k].value
  {
    var n := |options| - 1;
    RankOfFront(options, n, n);
    RankOfFront(options, n, k);
    if n > 0 {
      EnabledHasLine(options[..n], if k < n then k else 0);
    }
  }

  lemma {:induction false} RankOfFront(options: seq<Sent>, n: nat, k: nat)
    requires k <= n <= |options|
    ensures Rank(options[..n], k) == Rank(options, k)
  {
    if k > 0 {
      RankOfFront(options, n, k - 1);
    }
  }

  function FirstWith(options: seq<Sent>, inst: nat): (k: nat)
    ensures k <= |options|
    ensures forall j | 0 <= j < k :: options[j].inst != inst
    ensures k < |options| ==> options[k].inst == inst
  {
    if options == [] || options[0].inst == inst then 0 else 1 + FirstWith(options[1..], inst)
  }

  function Without(options: seq<Sent>, k: nat): (r: seq<Sent>)
    requires k < |options|
    ensures |r| == |options| - 1
  {
    options[..k] + options[k + 1..]
  }

  /** One option is left out, and the others keep their order. */
  lemma WithoutAt(options: seq<Sent>, k: nat)
    requires k < |options|
    ensures forall j | 0 <= j < |options| - 1 :: Without(options, k)[j] == options[if j < k then j else j + 1]
  {
  }

  lemma {:induction false} LinesOfSum(a: seq<Sent>, b: seq<Sent>)
    ensures Lines(a + b) == Lines(a) + Lines(b)
  {
    if b == [] {
      assert a + b == a;
    } else {
      var n := |b| - 1;
      LinesOfSum(a, b[..n]);
      assert (a + b)[..|a + b| - 1] == a + b[..n];
    }
  }

  /** Replacing an option leaves the file alone when it writes the same line, or none, as before. */
  lemma LinesOfUpdate(options: seq<Sent>, k: nat, o: Sent)
    requires k < |options| && Lines([options[k]]) == Lines([o])
    ensures Lines(options[k := o]) == Lines(options)
  {
    hide Lines;
    var a, b := options[..k], options[k + 1..];
    assert options == (a + [options[k]]) + b && options[k := o] == (a + [o]) + b;
    LinesOfSum(a + [options[k]], b);
    LinesOfSum(a + [o], b);
    LinesOfSum(a, [options[k]]);
    LinesOfSum(a, [o]);
  }

  /** A disabled option can be removed without touching the file. */
  lemma LinesWithoutDisabled(options: seq<Sent>, k: nat)
    requires k < |options| && !options[k].enabled
    ensures Lines(Without(options, k)) == Lines(options)
  {
    var a, o, b := options[..k], options[k], options[k + 1..];
    assert Lines([o]) == [] by { assert [o][..0] == []; }
    hide Lines;
    assert options == (a + [o]) + b;
    LinesOfSum(a + [o], b);
    LinesOfSum(a, [o]);
    LinesOfSum(a, b);
    assert Lines(a) + [] == Lines(a);
  }

  /** The options after those from i + 1 to j moved one place forward; place j keeps a copy. */
  function Shifted(o: seq<Sent>, i: nat, j: nat): (r: seq<Sent>)
    requires i <= j < |o|
    ensures |r| == |o| && r[j..] == o[j..]
  {
    o[..i] + o[i + 1..j + 1] + o[j..]
  }

  lemma ShiftedAt(o: seq<Sent>, i: nat, j: nat)
    requires i <= j < |o|
    ensures forall k | 0 <= k < |o| :: Shifted(o, i, j)[k] == o[if i <= k < j then k + 1 else k]
  {
  }

  lemma ShiftedIsWithout(o: seq<Sent>, i: nat, n: nat)
    requires i < n <= |o|
    ensures Shifted(o, i, n - 1)[..n - 1] == Without(o[..n], i)
  {
  }

  lemma NotShifted(o: seq<Sent>, i: nat)
    requires i < |o|
    ensures Shifted(o, i, i) == o
  {
  }

  lemma ShiftedOnce(o: seq<Sent>, i: nat, j: nat)
    requires i <= j && j + 1 < |o|
    ensures Shifted(o, i, j)[j + 1] == o[j + 1]
    ensures Shifted(o, i, j)[j := o[j + 1]] == Shifted(o, i, j + 1)
  {
  }

  /** The process globals, the syscfg store and the file. */
  class OptionTable {
    const client: nat
    var num: int
    var options: seq<Sent>
    var count: int
    var slots: map<int, Sent>
    var file: seq<Line>

    predicate SlotsMatch(n: nat)
      reads this
      requires n <= |options|
    {
      forall i | 1 <= i <= n :: i in slots && slots[i] == options[i - 1]
    }

    /** The three copies agree; what lies behind them in memory or in syscfg is leftover. */
    predicate Agrees()
      reads this
    {
      && 0 <= num <= |options| && count == num
      && SlotsMatch(num)
      && file == Lines(options[..num])
    }

    function Options(): seq<Sent>
      reads this
      requires 0 <= num <= |options|
    {
      options[..num]
    }

    /** Counts, slots and file are those of the same options, in the same order. */
    lemma WhatAgrees()
      requires Agrees()
      ensures |Options()| == num == count && file == Lines(Options())
      ensures forall i | 0 <= i < |Options()| :: i + 1 in slots && slots[i + 1] == Options()[i]
    {
    }

    constructor (c: nat)
      ensures client == c && Agrees() && Options() == []
    {
      client, num, options, count, slots, file := c, 0, [], 0, map[], [];
    }

    /** _write_dibbler_sent_option_file */
    method WriteFile()
      requires 0 <= num <= |options|
      modifies `file
      ensures file == Lines(options[..num])
    {
      file := [];
      var i := 0;
      while i < num
        invariant 0 <= i <= num && file == Lines(options[..i])
        modifies `file
      {
        assert options[..i + 1][..i] == options[..i];
        if options[i].enabled {
          file := file + [Line(options[i].tag, |options[i].value| / 2, options[i].value)];
        }
        i := i + 1;
      }
    }

    /** _syscfg_add_sent_option */
    method StoreSlot(o: Sent, index: int)
      modifies `slots
      ensures slots == old(slots)[index := o]
    {
      slots := slots[index := o];
    }

    /** The count is raised before the memory is there, so a failing allocation leaves the copies apart. */
    method Add(c: nat, o: Sent, memory: bool) returns (s: Status)
      requires Agrees()
      modifies this
      ensures s == if c == client && memory then Success else Failure
      ensures Agrees() <==> c != client || memory
      ensures s == Success ==> Options() == old(Options()) + [o]
      ensures c != client ==> Options() == old(Options())
    {
      if c != client {
        return Failure;
      }
      num := num + 1;
      if !memory {
        return Failure;
      }
      ghost var was := old(Options());
      options := options[..num - 1] + [o];
      assert options == was + [o];
      StoreSlot(o, num);
      count := num;
      assert SlotsMatch(num);
      LinesOfSum(was, [o]);
      assert [o][..0] == [];
      if o.enabled {
        WriteFile();
      }
      assert options[..num] == options;
      return Success;
    }

    /** Removes exactly the first option with this instance number and keeps the order of the others. */
    method Delete(c: nat, inst: nat) returns (s: Status)
      requires Agrees()
      modifies this
      ensures Agrees()
      ensures s == if c != client then Failure
                   else if FirstWith(old(Options()), inst) == |old(Options())| then CantFind else Success
      ensures Options() == if s == Success then Without(old(Options()), FirstWith(old(Options()), inst))
                           else old(Options())
    {
      if c != client {
        return Failure;
      }
      ghost var was := Options();
      var i := Position(inst);
      if i == num {
        return CantFind;
      }
      var wasEnabled := options[i].enabled;
      ShiftDown(i);
      num := num - 1;
      count := num;
      ShiftedIsWithout(old(options), i, num + 1);
      hide Shifted; hide Without;
      if wasEnabled {
        WriteFile();
      } else {
        LinesWithoutDisabled(was, i);
      }
      return Success;
    }

    /** Moves every later option, and its slot, one place forward; the last place keeps a copy. */
    method ShiftDown(i: int)
      requires 0 <= i < num <= |options| && SlotsMatch(num)
      modifies `options, `slots
      ensures options == Shifted(old(options), i, num - 1)
      ensures forall n | 1 <= n < num :: n in slots && slots[n] == options[n - 1]
    {
      hide Shifted;
      ghost var o := options;
      var j := i;
      assert Shifted(o, i, i) == o by { NotShifted(o, i); }
      while j < num - 1
        invariant i <= j <= num - 1
        invariant options == Shifted(o, i, j)
        invariant forall n | 1 <= n <= num :: n in slots
        invariant forall n | 1 <= n <= num :: slots[n] == o[if i < n <= j then n else n - 1]
        modifies `options, `slots
      {
        ShiftedOnce(o, i, j);
        options := options[j := options[j + 1]];
        assert options[j + 1] == o[j + 1];
        StoreSlot(options[j + 1], j + 1);
        j := j + 1;
      }
      ShiftedAt(o, i, j);
    }

    method Position(inst: nat) returns (i: int)
      requires 0 <= num <= |options|
      ensures i == FirstWith(Options(), inst)
    {
      i := 0;
      while i < num && options[i].inst != inst
        invariant 0 <= i <= num
        invariant FirstWith(Options(), inst) == i + FirstWith(Options()[i..], inst)
      {
        assert Options()[i..][1..] == Options()[i + 1..];
        i := i + 1;
      }
    }

    /** Writes only what differs, and the file only when a line may differ; an unknown instance is no error. */
    method Set(o: Sent) returns (s: Status)
      requires Agrees()
      modifies this
      ensures Agrees() && s == Success
      ensures var k := FirstWith(old(Options()), o.inst);
              Options() == if k < |old(Options())| then old(Options())[k := o] else old(Options())
    {
      ghost var was := Options();
      var index := Position(o.inst);
      if index == num {
        return Success;
      }
      var p := options[index];
      var restart := false;
      var slot := slots[index + 1];
      if o.alias != p.alias {
        slot := slot.(alias := o.alias);
      }
      if o.enabled != p.enabled {
        slot := slot.(enabled := o.enabled);
        restart := true;
      }
      if o.tag != p.tag {
        slot := slot.(tag := o.tag);
        restart := true;
      }
      if o.value != p.value {
        slot := slot.(value := o.value);
        restart := true;
      }
      slots := slots[index + 1 := slot];
      options := options[index := o];
      assert options[..num] == was[index := o];
      if restart {
        WriteFile();
      } else {
        LinesOfUpdate(was, index, o);
      }
      return Success;
    }

    /** The data model renames an option; neither field appears in the file. */
    method SetValues(c: nat, index: nat, inst: nat, alias: string) returns (s: Status)
      requires Agrees()
      modifies this
      ensures Agrees() && s == if c == client then Success else Failure
      ensures Options() == if c == client && index < |old(Options())|
                           then old(Options())[index := old(Options())[index].(inst := inst, alias := alias)]
                           else old(Options())
    {
      if c != client {
        return Failure;
      }
      if index + 1 > num {
        return Success;
      }
      ghost var was := Options();
      options := options[index := options[index].(inst := inst)];
      options := options[index := options[index].(alias := alias)];
      slots := slots[index + 1 := slots[index + 1].(inst := inst)];
      slots := slots[index + 1 := slots[index + 1].(alias := alias)];
      assert options[..num] == was[index := was[index].(inst := inst, alias := alias)];
      LinesOfUpdate(was, index, options[index]);
      return Success;
    }

    /** WanMgr_DmlDhcpv6cGetNumberOfSentOption: the stored count, and fresh memory for as many options. */
    method GetNumber(blank: Sent) returns (n: int)
      requires 0 <= count
      modifies `num, `options
      ensures n == num == count && |options| == count
    {
      num := count;
      options := seq(num, k => blank);
      n := num;
    }

    /** WanMgr_DmlDhcpv6cGetSentOption: an option is read back from its slot; the last one writes the file. */
    method GetOption(index: int) returns (s: Status)
      requires 0 <= num == |options| && 0 <= index && (index < num ==> index + 1 in slots)
      modifies `options, `file
      ensures s == if index < num then Success else Failure
      ensures options == if index < num then old(options)[index := slots[index + 1]] else old(options)
      ensures file == if index == num - 1 then Lines(options) else old(file)
    {
      if index > num - 1 {
        return Failure;
      }
      options := options[index := slots[index + 1]];
      if index == num - 1 {
        WriteFile();
        assert options[..num] == options;
      }
      return Success;
    }

    /** A restarted process reads the table back: the same options in the same order, and the same file. */
    method Reload(blank: Sent)
      requires Agrees()
      modifies `num, `options, `file
      ensures Agrees() && Options() == old(Options())
    {
      ghost var was := Options();
      var n := GetNumber(blank);
      var k := 0;
      while k < n
        invariant 0 <= k <= n == num == |options| == |was|
        invariant options[..k] == was[..k]
        invariant file == if k == n && n > 0 then Lines(was) else old(file)
        modifies `options, `file
      {
        var s := GetOption(k);
        assert options[..k + 1] == options[..k] + [options[k]] && was[..k + 1] == was[..k] + [was[k]];
        assert k + 1 == n ==> options == was;
        k := k + 1;
      }
      assert options[..num] == was;
    }
  }
}
