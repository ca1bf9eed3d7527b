/** The producers of the DHCP mailboxes: a message is offered a few times, then given up. */
module Ipc {
  import opened WanTypes
  import opened InterfaceRuns

  /** WANMGR_MAX_IPC_PROCCESS_TRY */
  const MAX_TRIES := 5

  /** The record found under the name while its machine runs, or nothing, and whether memory can be had. */
  datatype Attempt = Attempt(found: Option<Iface>, memory: bool)

  predicate Takes4(a: Attempt) {
    a.memory && a.found.Some? && a.found.value.running && a.found.value.v4.mail.None?
  }

  predicate Takes6(a: Attempt) {
    a.memory && a.found.Some? && a.found.value.running && a.found.value.v6.mail.None?
  }

  /** WanMgr_IpcNewIpv4Msg: the first attempt that can take the message does, as the machine model accepts it. */
  method NewIpv4Msg(m: V4Message, attempts: seq<Attempt>) returns (stored: Option<Iface>, tries: nat)
    requires |attempts| == MAX_TRIES
    ensures stored.Some? <==> exists t :: 0 <= t < 5 && Takes4(attempts[t])
    ensures tries <= 5 && forall t | 0 <= t < tries :: !Takes4(attempts[t])
    ensures stored.Some? ==> tries < 5 && Takes4(attempts[tries]) &&
                             stored.value == Happen(attempts[tries].found.value, Offer4(m))
  {
    stored, tries := None, 0;
    while stored.None? && tries < MAX_TRIES
      invariant tries <= MAX_TRIES && forall t | 0 <= t < tries :: !Takes4(attempts[t])
      invariant stored.Some? ==> tries < MAX_TRIES && Takes4(attempts[tries]) &&
                                 stored.value == Happen(attempts[tries].found.value, Offer4(m))
      decreases MAX_TRIES - tries, stored.None?
    {
      var a := attempts[tries];
      if a.found.Some? && a.found.value.running {
        var s := a.found.value;
        if s.v4.mail == None {
          if a.memory {
            stored := Some(s.(v4 := s.v4.(mail := Some(m))));
          }
        }
      }
      if stored.None? {
        tries := tries + 1;
      }
    }
  }

  /** WanMgr_IpcNewIpv6Msg */
  method NewIpv6Msg(m: V6Message, attempts: seq<Attempt>) returns (stored: Option<Iface>, tries: nat)
    requires |attempts| == MAX_TRIES
    ensures stored.Some? <==> exists t :: 0 <= t < 5 && Takes6(attempts[t])
    ensures tries <= 5 && forall t | 0 <= t < tries :: !Takes6(attempts[t])
    ensures stored.Some? ==> tries < 5 && Takes6(attempts[tries]) &&
                             stored.value == Happen(attempts[tries].found.value, Offer6(m))
  {
    stored, tries := None, 0;
    while stored.None? && tries < MAX_TRIES
      invariant tries <= MAX_TRIES && forall t | 0 <= t < tries :: !Takes6(attempts[t])
      invariant stored.Some? ==> tries < MAX_TRIES && Takes6(attempts[tries]) &&
                                 stored.value == Happen(attempts[tries].found.value, Offer6(m))
      decreases MAX_TRIES - tries, stored.None?
    {
      var a := attempts[tries];
      if a.found.Some? && a.found.value.running {
        var s := a.found.value;
        if s.v6.mail == None {
          if a.memory {
            stored := Some(s.(v6 := s.v6.(mail := Some(m))));
          }
        }
      }
      if stored.None? {
        tries := tries + 1;
      }
    }
  }
}
