/** Whole runs of one interface machine: the joint invariant, the mailboxes, and who may raise a connection. */
module InterfaceRuns {
  import opened WanTypes
  import opened DhcpEvents
  import opened InterfaceSpec
  import opened InterfaceInvariant

  /**
   What other threads do to the record between two ticks. A prefix clear names this interface, or it does not and only
   lowers the sysevent; management may write the status of IPv4, IPv6 and MAP-T.
   */
  datatype Event =
    | Configure(cfg: Config)
    | Offer4(m4: V4Message)
    | Offer6(m6: V6Message)
    | PrefixClear(named: bool)
    | WriteIpv4Status(up: bool)
    | WriteIpv6Status(up: bool)
    | WriteMaptStatus(up: bool)

  /** launch: a policy starts the machine again when its thread has ended. */
  datatype Input = Input(events: seq<Event>, launch: bool, w: World)

  /** alive tells whether the thread still loops. */
  datatype Machine = Machine(st: SmState, alive: bool, s: Iface)

  /** The producers fill an empty slot of a running machine and never overwrite a message. */
  predicate Accepts<T>(running: bool, slot: Option<T>) {
    running && slot.None?
  }

  function Happen(s: Iface, e: Event): Iface {
    match e
    case Configure(c) => s.(cfg := c)
    case Offer4(m) => if Accepts(s.running, s.v4.mail) then s.(v4 := s.v4.(mail := Some(m))) else s
    case Offer6(m) => if Accepts(s.running, s.v6.mail) then s.(v6 := s.v6.(mail := Some(m))) else s
    case PrefixClear(named) => if named then ConnectionIpv6Down(s) else s.(v6 := s.v6.(conn := false))
    case WriteIpv4Status(up) => s.(v4 := s.v4.(st := if up then IpUp else IpDown))
    case WriteIpv6Status(up) => s.(v6 := s.v6.(st := if up then IpUp else IpDown))
    case WriteMaptStatus(up) => s.(mapt := s.mapt.(status := if up then MaptUp else MaptDown))
  }

  function Environment(s: Iface, events: seq<Event>): (r: Iface)
    ensures r.vlans == s.vlans
    decreases |events|
  {
    if events == [] then s else Environment(Happen(s, events[0]), events[1..])
  }

  /** The record a state handler sees: mailboxes drained, current state noted. */
  function Prepared(m: Machine, i: Input): Iface {
    Drain(Environment(m.s, i.events), i.w).(current := m.st)
  }

  /** What this round dereferences of the discovery list exists. */
  predicate CanStep(m: Machine, i: Input) {
    if m.alive then Finds(m.st, Prepared(m, i)) else i.launch ==> StartFinds(Environment(m.s, i.events))
  }

  /** One round of the thread loop, or of waiting for a thread. */
  function Step(m: Machine, i: Input): (r: Machine)
    requires CanStep(m, i)
    ensures r.s.vlans == m.s.vlans
  {
    if m.alive then
      var mv := Handle(m.st, Prepared(m, i), i.w);
      Machine(mv.next, m.st != Exit, mv.s)
    else if i.launch then
      var mv := Start(Environment(m.s, i.events), i.w);
      Machine(mv.next, true, mv.s)
    else
      m.(s := Environment(m.s, i.events))
  }

  predicate Runnable(m: Machine, inputs: seq<Input>)
    decreases |inputs|
  {
    inputs != [] ==> CanStep(m, inputs[0]) && Runnable(Step(m, inputs[0]), inputs[1..])
  }

  function Run(m: Machine, inputs: seq<Input>): (r: Machine)
    requires Runnable(m, inputs)
    ensures r.s.vlans == m.s.vlans
    decreases |inputs|
  {
    if inputs == [] then m else Run(Step(m, inputs[0]), inputs[1..])
  }

  lemma {:induction false} RunThen(m: Machine, inputs: seq<Input>, i: Input)
    requires Runnable(m, inputs) && CanStep(Run(m, inputs), i)
    ensures Runnable(m, inputs + [i]) && Run(m, inputs + [i]) == Step(Run(m, inputs), i)
    decreases |inputs|
  {
    hide Step; hide CanStep;
    var all := inputs + [i];
    if inputs == [] {
      assert all[0] == i && all[1..] == [];
    } else {
      RunThen(Step(m, inputs[0]), inputs[1..], i);
      assert all[0] == inputs[0] && all[1..] == inputs[1..] + [i];
    }
  }

  /** With a list built at boot nothing missing is ever dereferenced, whatever happens. */
  lemma {:induction false} ListedRuns(m: Machine, inputs: seq<Input>)
    requires Listed(m.s.vlans)
    ensures Runnable(m, inputs)
    decreases |inputs|
  {
    if inputs != [] {
      ListedSteps(m, inputs[0]);
      hide Step; hide CanStep;
      ListedRuns(Step(m, inputs[0]), inputs[1..]);
    }
  }

  lemma ListedSteps(m: Machine, i: Input)
    requires Listed(m.s.vlans)
    ensures CanStep(m, i)
  {
    hide HandleV4; hide HandleV6;
  }

  // ---- the shape of the record over whole runs ----

  predicate Inv(m: Machine) {
    Fit(m.st, m.s) && (!m.alive ==> m.st == Exit && m.s.v4.mail.None?)
  }

  lemma HappenKeeps(st: SmState, s: Iface, e: Event)
    requires Ready(st, s)
    ensures Ready(st, Happen(s, e)) && Happen(s, e).status == s.status
  {
  }

  /** Other threads break neither the shape nor the Status. */
  lemma {:induction false} EnvironmentKeeps(st: SmState, s: Iface, events: seq<Event>)
    requires Ready(st, s)
    ensures var r := Environment(s, events); Ready(st, r) && r.status == s.status
    ensures s.v4.mail.None? && st == Exit ==> Environment(s, events).v4.mail.None?
    decreases |events|
  {
    if events != [] {
      HappenKeeps(st, s, events[0]);
      EnvironmentKeeps(st, Happen(s, events[0]), events[1..]);
    }
  }

  lemma StartKeeps(s: Iface, w: World)
    requires Fit(Exit, s) && StartFinds(s)
    ensures FitMove(Start(s, w)) && Start(s, w).next == VlanConfiguring
  {
  }

  /** The record a state handler sees is fit, whatever arrived since the last round. */
  lemma PreparedKeeps(m: Machine, i: Input)
    requires Inv(m)
    ensures Fit(m.st, Prepared(m, i)) && (Upright(m.st, m.s) ==> Upright(m.st, Prepared(m, i)))
  {
    EnvironmentKeeps(m.st, m.s, i.events);
    hide Environment; hide Ready; hide Drain; hide Stuck4;
    DrainKeeps(m.st, Environment(m.s, i.events), i.w);
  }

  lemma StepKeeps(m: Machine, i: Input)
    requires Inv(m) && CanStep(m, i)
    ensures Inv(Step(m, i))
  {
    EnvironmentKeeps(m.st, m.s, i.events);
    PreparedKeeps(m, i);
    hide Environment; hide Prepared; hide Stuck4; hide Handle; hide Start;
    if m.alive {
      HandlerKeeps(m.st, Prepared(m, i), i.w);
    } else if i.launch {
      StartKeeps(Environment(m.s, i.events), i.w);
    }
  }

  /** The shape holds after every run, whatever arrives, of every machine that had it before. */
  lemma {:induction false} RunKeeps(m: Machine, inputs: seq<Input>)
    requires Inv(m) && Runnable(m, inputs)
    ensures Inv(Run(m, inputs))
    decreases |inputs|
  {
    if inputs != [] {
      StepKeeps(m, inputs[0]);
      RunKeeps(Step(m, inputs[0]), inputs[1..]);
    }
  }

  // ---- Status and cover over whole runs ----

  /** In this round MAP-T takes over although the IPv6 sysevent is low. */
  predicate SlipsIn(m: Machine, i: Input) {
    m.alive && StatusSlips(m.st, Prepared(m, i), i.w)
  }

  /** A write of IPv4Status that the rest of the record does not bear out. */
  predicate Misstates4(a: V4Side, up: bool) {
    !a.changed && if up then !a.conn else a.lease.ip != ""
  }

  predicate Misstates6(a: V6Side, up: bool) {
    if up then !a.conn && !a.changed else a.lease != ClearedV6(a.lease)
  }

  /** An event that makes a family lapse that the state needs. */
  predicate EventLapses(st: SmState, s: Iface, e: Event) {
    match e
    case PrefixClear(named) => Needs6(st) && !named && s.v6.st == IpUp && !s.v6.changed
    case WriteIpv4Status(up) => Needs4(st) && Misstates4(s.v4, up)
    case WriteIpv6Status(up) => Needs6(st) && Misstates6(s.v6, up)
    case _ => false
  }

  predicate SomeEventLapses(st: SmState, s: Iface, events: seq<Event>)
    decreases |events|
  {
    events != [] && (EventLapses(st, s, events[0]) || SomeEventLapses(st, Happen(s, events[0]), events[1..]))
  }

  /** In this round an event or a waiting message makes a family lapse that the state needs. */
  predicate LapsesIn(m: Machine, i: Input) {
    m.alive && (SomeEventLapses(m.st, m.s, i.events) || MailLapses(m.st, Environment(m.s, i.events), i.w))
  }

  /** What the state needs is covered before and after each of the events. */
  predicate CoveredDuring(st: SmState, s: Iface, events: seq<Event>)
    decreases |events|
  {
    Covered(st, s) && (events != [] ==> CoveredDuring(st, Happen(s, events[0]), events[1..]))
  }

  /** The leased states have Status UP at every point of the run. */
  predicate AlwaysUpright(m: Machine, inputs: seq<Input>)
    requires Runnable(m, inputs)
    decreases |inputs|
  {
    Upright(m.st, m.s) &&
    (inputs != [] ==> AlwaysUpright(Step(m, inputs[0]), inputs[1..]))
  }

  predicate NeverSlips(m: Machine, inputs: seq<Input>)
    requires Runnable(m, inputs)
    decreases |inputs|
  {
    inputs != [] ==>
      !SlipsIn(m, inputs[0]) && NeverSlips(Step(m, inputs[0]), inputs[1..])
  }

  /** What a leased state needs is covered at every moment: after each round, each event, and the drain. */
  predicate AlwaysCovered(m: Machine, inputs: seq<Input>)
    requires Runnable(m, inputs)
    decreases |inputs|
  {
    Covered(m.st, m.s) &&
    (inputs != [] ==>
       && (m.alive ==> CoveredDuring(m.st, m.s, inputs[0].events) && Covered(m.st, Prepared(m, inputs[0])))
       && AlwaysCovered(Step(m, inputs[0]), inputs[1..]))
  }

  predicate NeverLapses(m: Machine, inputs: seq<Input>)
    requires Runnable(m, inputs)
    decreases |inputs|
  {
    inputs != [] ==>
      !LapsesIn(m, inputs[0]) && NeverLapses(Step(m, inputs[0]), inputs[1..])
  }

  lemma StepStatus(m: Machine, i: Input)
    requires Inv(m) && CanStep(m, i) && Upright(m.st, m.s)
    ensures Upright(Step(m, i).st, Step(m, i).s) <==> !SlipsIn(m, i)
  {
    PreparedKeeps(m, i);
    hide Environment; hide Prepared; hide Fit; hide Handle; hide StatusSlips;
    if m.alive {
      HandlerKeeps(m.st, Prepared(m, i), i.w);
    }
  }

  lemma EventCovers(st: SmState, s: Iface, e: Event)
    requires Covered(st, s)
    ensures Covered(st, Happen(s, e)) <==> !EventLapses(st, s, e)
  {
  }

  /** The events keep the cover at every moment exactly when none of them lapses. */
  lemma {:induction false} EventsCover(st: SmState, s: Iface, events: seq<Event>)
    requires Covered(st, s)
    ensures CoveredDuring(st, s, events) <==> !SomeEventLapses(st, s, events)
    ensures CoveredDuring(st, s, events) ==> Covered(st, Environment(s, events))
    decreases |events|
  {
    hide Happen; hide EventLapses; hide Covered;
    if events != [] {
      EventCovers(st, s, events[0]);
      if Covered(st, Happen(s, events[0])) {
        EventsCover(st, Happen(s, events[0]), events[1..]);
      } else {
        NotCoveredDuring(st, Happen(s, events[0]), events[1..]);
      }
    }
  }

  lemma NotCoveredDuring(st: SmState, s: Iface, events: seq<Event>)
    requires !Covered(st, s)
    ensures !CoveredDuring(st, s, events)
  {
  }

  lemma StepCover(m: Machine, i: Input)
    requires Inv(m) && CanStep(m, i) && Covered(m.st, m.s)
    ensures m.alive ==>
              (CoveredDuring(m.st, m.s, i.events) && Covered(m.st, Prepared(m, i)) <==> !LapsesIn(m, i))
    ensures !LapsesIn(m, i) ==> Covered(Step(m, i).st, Step(m, i).s)
    ensures !LapsesIn(m, i) ==> !SlipsIn(m, i)
  {
    EnvironmentKeeps(m.st, m.s, i.events);
    PreparedKeeps(m, i);
    hide Environment; hide Drain; hide Covered4; hide Covered6; hide MailLapses; hide Handle; hide SwitchesToMapt;
    hide Stuck4; hide SomeEventLapses; hide CoveredDuring;
    if m.alive {
      EventsCover(m.st, m.s, i.events);
      if CoveredDuring(m.st, m.s, i.events) {
        DrainCovers(m.st, Environment(m.s, i.events), i.w);
        if Covered(m.st, Prepared(m, i)) {
          HandlerKeeps(m.st, Prepared(m, i), i.w);
          CoverKeepsStatus(m.st, Prepared(m, i), i.w);
        }
      }
    }
  }

  /** A leased state has Status UP throughout a run exactly when no round of it slips. */
  lemma {:induction false} StatusStaysUp(m: Machine, inputs: seq<Input>)
    requires Inv(m) && Runnable(m, inputs) && Upright(m.st, m.s)
    ensures AlwaysUpright(m, inputs) <==> NeverSlips(m, inputs)
    decreases |inputs|
  {
    if inputs != [] {
      var i := inputs[0];
      StepKeeps(m, i);
      StepStatus(m, i);
      hide Step; hide Inv; hide SlipsIn; hide Upright;
      if !SlipsIn(m, i) {
        StatusStaysUp(Step(m, i), inputs[1..]);
      }
    }
  }

  /**
   What the state needs stays configured, flagged or known to be down at every moment of a run exactly when no event and
   no message of it lapses; such a run does not slip either.
   */
  lemma {:induction false} CoverStays(m: Machine, inputs: seq<Input>)
    requires Inv(m) && Runnable(m, inputs) && Covered(m.st, m.s)
    ensures AlwaysCovered(m, inputs) <==> NeverLapses(m, inputs)
    ensures NeverLapses(m, inputs) ==> NeverSlips(m, inputs)
    decreases |inputs|
  {
    if inputs != [] {
      var i := inputs[0];
      StepKeeps(m, i);
      StepCover(m, i);
      hide Step; hide Inv; hide SlipsIn; hide LapsesIn; hide Covered; hide Prepared; hide CoveredDuring;
      if !LapsesIn(m, i) {
        CoverStays(Step(m, i), inputs[1..]);
      }
    }
  }

  // ---- the mailboxes ----

  datatype Departure<T> = Handled(m: T) | Discarded(m: T)

  /** What went into and came out of one mailbox, oldest first. */
  datatype MailLog<T> = MailLog(accepted: seq<T>, gone: seq<Departure<T>>)

  function InSlot<T>(slot: Option<T>): seq<T> {
    if slot.Some? then [slot.value] else []
  }

  function Messages<T>(gone: seq<Departure<T>>): seq<T> {
    seq(|gone|, k requires 0 <= k < |gone| => gone[k].m)
  }

  /** Every accepted message has left, in order, or is the one in the slot. */
  predicate Conserved<T(==)>(log: MailLog<T>, slot: Option<T>) {
    log.accepted == Messages(log.gone) + InSlot(slot)
  }

  /** The messages the producers got into the slot while these events happened. */
  function Accepted4(s: Iface, events: seq<Event>): seq<V4Message>
    decreases |events|
  {
    if events == [] then []
    else (if events[0].Offer4? && Accepts(s.running, s.v4.mail) then [events[0].m4] else []) +
         Accepted4(Happen(s, events[0]), events[1..])
  }

  function Accepted6(s: Iface, events: seq<Event>): seq<V6Message>
    decreases |events|
  {
    if events == [] then []
    else (if events[0].Offer6? && Accepts(s.running, s.v6.mail) then [events[0].m6] else []) +
         Accepted6(Happen(s, events[0]), events[1..])
  }

  /** The slot was full before the drain; it may be emptied by the drain or by a transition after it. */
  function Departures<T>(before: Option<T>, drained: Option<T>, after: Option<T>): seq<Departure<T>> {
    if before.None? then []
    else if drained.None? then [Handled(before.value)]
    else if after.None? then [Discarded(before.value)]
    else []
  }

  function Logged<T>(log: MailLog<T>, accepted: seq<T>, gone: seq<Departure<T>>): MailLog<T> {
    MailLog(log.accepted + accepted, log.gone + gone)
  }

  function Log4(m: Machine, i: Input, log: MailLog<V4Message>): MailLog<V4Message>
    requires CanStep(m, i)
  {
    var s := Environment(m.s, i.events);
    Logged(log, Accepted4(m.s, i.events),
           Departures(s.v4.mail, if m.alive then Drain(s, i.w).v4.mail else s.v4.mail, Step(m, i).s.v4.mail))
  }

  function Log6(m: Machine, i: Input, log: MailLog<V6Message>): MailLog<V6Message>
    requires CanStep(m, i)
  {
    var s := Environment(m.s, i.events);
    Logged(log, Accepted6(m.s, i.events),
           Departures(s.v6.mail, if m.alive then Drain(s, i.w).v6.mail else s.v6.mail, Step(m, i).s.v6.mail))
  }

  function RunLog4(m: Machine, inputs: seq<Input>, log: MailLog<V4Message>): MailLog<V4Message>
    requires Runnable(m, inputs)
    decreases |inputs|
  {
    if inputs == [] then log
    else
      RunLog4(Step(m, inputs[0]), inputs[1..], Log4(m, inputs[0], log))
  }

  function RunLog6(m: Machine, inputs: seq<Input>, log: MailLog<V6Message>): MailLog<V6Message>
    requires Runnable(m, inputs)
    decreases |inputs|
  {
    if inputs == [] then log
    else
      RunLog6(Step(m, inputs[0]), inputs[1..], Log6(m, inputs[0], log))
  }

  /** No accepted message is overwritten while the producers run. */
  lemma {:induction false} AcceptedFillTheSlot(s: Iface, events: seq<Event>)
    ensures InSlot(Environment(s, events).v4.mail) == InSlot(s.v4.mail) + Accepted4(s, events)
    ensures InSlot(Environment(s, events).v6.mail) == InSlot(s.v6.mail) + Accepted6(s, events)
    decreases |events|
  {
    if events != [] {
      var s1 := Happen(s, events[0]);
      AcceptOne(s, events[0]);
      AcceptedFillTheSlot(s1, events[1..]);
      hide Happen; hide InSlot; hide Accepts;
    }
  }

  lemma AcceptOne(s: Iface, e: Event)
    ensures InSlot(Happen(s, e).v4.mail) ==
            InSlot(s.v4.mail) + (if e.Offer4? && Accepts(s.running, s.v4.mail) then [e.m4] else [])
    ensures InSlot(Happen(s, e).v6.mail) ==
            InSlot(s.v6.mail) + (if e.Offer6? && Accepts(s.running, s.v6.mail) then [e.m6] else [])
  {
  }

  /** A slot that is only ever emptied during a tick conserves its messages. */
  lemma SlotConserves<T>(log: MailLog<T>, before: Option<T>, accepted: seq<T>, filled: Option<T>, drained: Option<T>,
                         after: Option<T>)
    requires Conserved(log, before) && InSlot(filled) == InSlot(before) + accepted
    requires Leaves(filled, drained) && Leaves(drained, after)
    ensures Conserved(Logged(log, accepted, Departures(filled, drained, after)), after)
  {
    var gone := Departures(filled, drained, after);
    var past := Messages(log.gone);
    assert Messages(log.gone + gone) == past + Messages(gone);
    assert Messages(gone) + InSlot(after) == InSlot(filled);
    assert (past + InSlot(before)) + accepted == past + (InSlot(before) + accepted);
    assert past + (Messages(gone) + InSlot(after)) == (past + Messages(gone)) + InSlot(after);
  }

  lemma TickOnlyEmpties(m: Machine, i: Input)
    requires CanStep(m, i)
    ensures var s := Environment(m.s, i.events);
            var d := if m.alive then Drain(s, i.w) else s;
            && Leaves(s.v4.mail, d.v4.mail) && Leaves(d.v4.mail, Step(m, i).s.v4.mail)
            && Leaves(s.v6.mail, d.v6.mail) && Leaves(d.v6.mail, Step(m, i).s.v6.mail)
  {
    hide Environment; hide Drain; hide Handle; hide Start;
    if !m.alive && i.launch {
      StartLeaves(Environment(m.s, i.events), i.w);
    }
  }

  lemma StartLeaves(s: Iface, w: World)
    requires StartFinds(s)
    ensures Start(s, w).s.v4.mail == s.v4.mail && Start(s, w).s.v6.mail == s.v6.mail
  {
  }

  lemma {:induction false} MailIsConserved(
      m: Machine, inputs: seq<Input>, log4: MailLog<V4Message>, log6: MailLog<V6Message>)
    requires Runnable(m, inputs)
    requires Conserved(log4, m.s.v4.mail) && Conserved(log6, m.s.v6.mail)
    ensures Conserved(RunLog4(m, inputs, log4), Run(m, inputs).s.v4.mail)
    ensures Conserved(RunLog6(m, inputs, log6), Run(m, inputs).s.v6.mail)
    decreases |inputs|
  {
    if inputs != [] {
      var i := inputs[0];
      TickConserves(m, i, log4, log6);
      MailIsConserved(Step(m, i), inputs[1..], Log4(m, i, log4), Log6(m, i, log6));
    }
  }

  lemma TickConserves(m: Machine, i: Input, log4: MailLog<V4Message>, log6: MailLog<V6Message>)
    requires CanStep(m, i)
    requires Conserved(log4, m.s.v4.mail) && Conserved(log6, m.s.v6.mail)
    ensures Conserved(Log4(m, i, log4), Step(m, i).s.v4.mail)
    ensures Conserved(Log6(m, i, log6), Step(m, i).s.v6.mail)
  {
    hide Step; hide Drain; hide Conserved; hide Leaves;
    var s := Environment(m.s, i.events);
    var d := if m.alive then Drain(s, i.w) else s;
    AcceptedFillTheSlot(m.s, i.events);
    TickOnlyEmpties(m, i);
    SlotConserves(log4, m.s.v4.mail, Accepted4(m.s, i.events), s.v4.mail, d.v4.mail, Step(m, i).s.v4.mail);
    SlotConserves(log6, m.s.v6.mail, Accepted6(m.s, i.events), s.v6.mail, d.v6.mail, Step(m, i).s.v6.mail);
  }

  /** A machine whose thread has ended holds no mail and accepts none until it is launched again. */
  lemma {:induction false} StoppedMachineTakesNoMail(
      m: Machine, inputs: seq<Input>, log4: MailLog<V4Message>, log6: MailLog<V6Message>)
    requires Inv(m) && !m.alive && Runnable(m, inputs) && forall i | i in inputs :: !i.launch
    ensures var n := Run(m, inputs); !n.alive && n.s.v4.mail.None? && n.s.v6.mail.None?
    ensures RunLog4(m, inputs, log4) == log4 && RunLog6(m, inputs, log6) == log6
    decreases |inputs|
  {
    if inputs != [] {
      var i := inputs[0];
      StepKeeps(m, i);
      EventsAreRefused(m.s, i.events);
      var n := Step(m, i);
      assert n == m.(s := Environment(m.s, i.events));
      assert log4.accepted + [] == log4.accepted && log4.gone + [] == log4.gone;
      assert log6.accepted + [] == log6.accepted && log6.gone + [] == log6.gone;
      hide Step; hide Inv;
      StoppedMachineTakesNoMail(n, inputs[1..], log4, log6);
    }
  }

  lemma {:induction false} EventsAreRefused(s: Iface, events: seq<Event>)
    requires !s.running && s.v4.mail.None? && s.v6.mail.None?
    ensures var r := Environment(s, events); !r.running && r.v4.mail.None? && r.v6.mail.None?
    ensures Accepted4(s, events) == [] && Accepted6(s, events) == []
    decreases |events|
  {
    if events != [] {
      EventsAreRefused(Happen(s, events[0]), events[1..]);
    }
  }
}
