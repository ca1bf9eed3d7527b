# WAN manager verification

A model of the RDK-B WAN manager and machine-checked proofs about it, written in Dafny 4.11.

The WAN manager decides which interface carries the WAN, configures it layer by layer, and reacts to DHCP events. The
model covers the parts in which many small decisions have to fit together:

- **One interface** (`WanTypes`, `DhcpEvents`, `LeaseEffects`, `InterfaceSpec`, `InterfaceTable`, `InterfaceInvariant`,
  `InterfaceRuns`, `InterfaceClaims`, `EnteringService`, `LeavingService`, `Progress`, `SlippingRuns`,
  `InterfaceMachine`, `Ipc`, `Renewals`). The twelve-state machine with all its transitions, the DHCP event handlers,
  the one-slot mailboxes and their producers. `InterfaceMachine` holds the machine as the thread runs it, a class whose
  fields are updated step by step; every method is proved against a function of `InterfaceSpec`, and the thread against
  the runs of `InterfaceRuns`. `InterfaceTable` writes the outcome of every round a second time, flat and from raw
  guards, and `HandlerIsTabled` proves that the handlers agree with it. The theorems are about those runs.
- **The selection policies** (`PolicyData`, `PrimaryPriority`, `FixedMode`, `PolicyRounds`). Selection loops, policy
  states, the recursive mutex, as methods on one controller object proved against functions; `PolicyRounds` says over
  the table what every round does.
- **The whole system** (`WanSystem`, `WanService`). The Primary Priority policy without standby, one machine per
  interface with possibly several threads each, and everything else that writes the shared data, in any interleaving:
  safety in every reachable state, and the way of the best interface into service.
- **MAP-T** (`Bits`, `Mapt`, `MaptRoundTrip`, `PortSets`, `MaptSharing`). Embedded-address bits, mapped addresses and
  port sets of RFC 7597, which RFC 7599 reuses, and that no address and port is shared.
- **Smaller stateful pieces** (`VlanList`, `VlanFairness`, `SentOptions`, `AddressList`). The VLAN discovery list, the
  DHCPv6 sent-option table with its two replicas, the IPv4 address-list parser and printer.

`dafny verify dfyconfig.toml` checks everything.

## How the model is cut

One build is modelled: MAP-T and the configurable WAN interface are on; the DT variant, 464XLAT, the IPoE health check
and the DHCP manager variant are off. Standby is a parameter of the Primary Priority policy.

A round of a thread is one step, because it runs under one mutex. What other threads write (`Config`, offered
messages, prefix clears, management writes of the IPv4, IPv6 and MAP-T status) happens between steps, in any order and
any number. What the operating system and other components answer during a round is a record `World` with one answer
per place that asks. Time is a number in that record. `Interface_SM_Running`, `Status`, the lease flags and the client
states are fields of the record, as in the source.

The connection-state sysevents are the only sysevents kept. In the source they are global keys, and an ended interface
can leave one up (`LinkLossStrays`), which the next one reads; here each interface record has its own pair. The theorems
about runs leave the values at launch free, so they hold whatever was left behind, and by `AtMostOneWanInterface` no
other machine works on the keys while one runs.

Two places dereference the VLAN discovery list: a start without VLANInUse, and a refresh after a timeout or a reset. A
run is any sequence of inputs in which the entry exists there (`StartFinds`, `RefreshFinds`); a list built at boot is
always enough (`ListedRuns`, `ListedMissNothing`).

In `InterfaceMachine` the methods without a row below are steps of those with one; all are proved.

The connectivity check is reduced to whether it runs. The restart request of the check is one of the answers.

## What the source does not keep

- A leased state does not imply that the connection-state sysevent is up, even when every command succeeds: see
  `LostPrefixSlips`. `LeasedMeansConnected` gives the exact condition for every run.
- A message may assign an address without naming it, and the source does not test for it. `Lapses4` and `Lapses6` are
  the exact conditions under which such a message counts as a renewal of nothing (`HandleV4Covers`, `HandleV6Covers`,
  over runs `CoverStays`); `NamelessAddressSlips` is a run from launch on which that happens.
- A leased state is not always published as UP: when MAP-T takes over from native IPv4 while the IPv6 sysevent is low,
  the nested loss of IPv4 sets VALIDATING. `StatusSlips` is the exact condition (`HandlerKeeps`, over runs
  `StatusStaysUp`), `NamelessAddressLowersStatus` a run from launch.
- Outside leased states a sysevent can stay up. `LeavingExactly` gives the exact condition for every way out of a
  leased state, `OutsideExactly` for every other round (`TeardownIsComplete` is the physical tear-down), and
  `SyseventsStayTidy` puts it over runs. `LinkLossStrays` is a run from launch: a dual-stack loss lowers Status before
  it tears down, and the machine ends DISABLED with the IPv4 sysevent up.
- Management may write the IPv4 and IPv6 status past the state machine, and a prefix clear may name another interface:
  `EventCovers` says exactly which of these events end the cover.
- The Fixed Mode policies mark the interface of the previous round's index: see `FixingRoundExactly` and
  `TwoActiveAfterSwaps`.
- A failing allocation in the sent-option table raises the count without growing the table: see `OptionTable.Add`.

## Model

| member | source | states |
|---|---|---|
| InterfaceRuns.RunKeeps | source/WanManager/wanmgr_interface_sm.c:4020-4203 | In every run, whatever messages, configurations and answers arrive: the record keeps its shape (Interface_SM_Running and Status fit the state, IPv4 and IPv6 are known to be up or down, the IPv6 slot is empty and the IPv4 slot holds at most a message with a gateway) |
| InterfaceRuns.StatusStaysUp | source/WanManager/wanmgr_interface_sm.c:2185-3884 | A leased state has Status UP at every point of a run exactly when in no round of it MAP-T takes over in DUAL_STACK_ACTIVE while the IPv6 sysevent is low |
| InterfaceRuns.CoverStays | source/WanManager/wanmgr_interface_sm.c:2185-3884 | At every moment of a run (after each round, each event and the drain) each family the state needs is configured, or flagged to be configured again, or known to be down with its lease cleared, exactly when no event and no waiting message makes it lapse; such a run keeps Status UP as well |
| InterfaceRuns.EventCovers | source/TR-181/middle_layer_src/wanmgr_dml_iface_v2_apis.c:2065-2082 | An event keeps the cover exactly when it is no prefix clear that names another interface while IPv6 is up and unflagged, and no management write of IPv4Status or IPv6Status that the rest of the record does not bear out |
| InterfaceRuns.EventsCover | source/WanManager/wanmgr_sysevents.c:881-897 | Any events between two rounds keep the cover at every moment exactly when none of them lapses |
| InterfaceRuns.ListedRuns | source/WanManager/wanmgr_data.c:180-203 | With a discovery list built at boot every sequence of inputs is a run: the entry that a start or a refresh dereferences always exists |
| InterfaceRuns.StepStatus | source/WanManager/wanmgr_interface_sm.c:4070-4186 | One round keeps Status UP of a leased state exactly when it does not slip |
| InterfaceRuns.StepCover | source/WanManager/wanmgr_interface_sm.c:4070-4186 | The families are covered during the events and when the handler starts exactly when neither events nor drained messages lapse, and are then covered after the round |
| InterfaceRuns.PreparedKeeps | source/WanManager/wanmgr_interface_sm.c:4100-4119 | The record a handler sees is fit and keeps Status UP, whatever arrived since the round before |
| InterfaceRuns.StepKeeps | source/WanManager/wanmgr_interface_sm.c:4070-4186 | One round (events, mailbox drain, handler) or launch keeps the shape, for every input |
| InterfaceRuns.EnvironmentKeeps | source/WanManager/wanmgr_interface_sm.c:4100-4119 | Configuration changes, offered messages, prefix clears and management writes between two rounds break neither the shape nor Status |
| InterfaceRuns.StartKeeps | source/WanManager/wanmgr_interface_sm.c:1825-1886 | A machine started on an exited record is fit in VLAN_CONFIGURING |
| InterfaceInvariant.HandlerKeeps | source/WanManager/wanmgr_interface_sm.c:2978-3961 | Every state handler, through all nested transitions, keeps the shape and the cover; it keeps Status UP exactly when MAP-T does not take over from a connection whose IPv6 sysevent is low |
| InterfaceInvariant.CoverKeepsStatus | source/WanManager/wanmgr_interface_sm.c:2697-2789 | With the families covered, Status cannot slip |
| InterfaceInvariant.DrainKeeps | source/WanManager/wanmgr_interface_sm.c:3972-4017 | Draining both mailboxes keeps the shape and Status UP for every message and every answer |
| InterfaceInvariant.DrainCovers | source/WanManager/wanmgr_interface_sm.c:3972-4017 | Draining keeps the families that the state needs covered exactly when neither waiting message lapses |
| InterfaceInvariant.HandleV4Covers | source/WanManager/wanmgr_dhcpv4_apis.c:110-278 | A DHCPv4 event keeps IPv4 covered exactly when it does not confirm, word for word, the cleared lease of an IPv4 that is down, low and unflagged |
| InterfaceInvariant.HandleV6Covers | source/WanManager/wanmgr_dhcpv6_apis.c:1594-1948 | A DHCPv6 event keeps IPv6 covered exactly when it does not bring up an IPv6 that is down, low and unflagged with no address, prefix or name server that differs from a cleared lease; also when the operating system reports an empty address |
| InterfaceInvariant.HandleV4Fits | source/WanManager/wanmgr_dhcpv4_apis.c:110-278 | A DHCPv4 event leaves at most a message with a gateway in the slot and IPv4 known to be up or down |
| InterfaceInvariant.StoredLeaseDiffers | source/WanManager/wanmgr_dhcpv6_apis.c:1847-1857 | A lease stored over a cleared one counts as a change exactly when it names an address, a prefix or a name server |
| InterfaceInvariant.PhysicalDownKeeps | source/WanManager/wanmgr_interface_sm.c:1908-1994 | wan_transition_physical_interface_down leaves a fit record although the nested transitions change Status and restart clients |
| InterfaceInvariant.Ipv4DownKeeps | source/WanManager/wanmgr_interface_sm.c:2260-2363 | Losing IPv4 leads to IPV6_LEASED only with IPv6 configured, otherwise to OBTAINING; a Status UP stays UP in IPV6_LEASED |
| InterfaceInvariant.Ipv6DownKeeps | source/WanManager/wanmgr_interface_sm.c:2532-2632 | Losing IPv6 leads to IPV4_LEASED only with IPv4 configured, otherwise to OBTAINING; a Status UP stays UP in IPV4_LEASED |
| InterfaceInvariant.UpsKeep | source/WanManager/wanmgr_interface_sm.c:2185-2258 | Taking up a family that is up leads to a leased state with Status UP whose families are both covered |
| InterfaceInvariant.DualStackDownKeeps | source/WanManager/wanmgr_interface_sm.c:2634-2653 | Dropping both families after Status was lowered first still leaves a fit record in OBTAINING |
| InterfaceInvariant.RefreshKeeps | source/WanManager/wanmgr_interface_sm.c:2656-2695 | Refreshing the MAP-T feature leaves a fit record in OBTAINING |
| InterfaceInvariant.MaptUpKeeps | source/WanManager/wanmgr_interface_sm.c:2697-2789 | wan_transition_mapt_up, with its nested IPv4 up and down, keeps shape and cover whether set-up succeeds, fails early or fails late; it keeps Status UP exactly when native IPv4 was down, verification failed, or the IPv6 sysevent is up |
| InterfaceInvariant.TakesOverKeeps | source/WanManager/wanmgr_interface_sm.c:2726-2764 | The nested loss of native IPv4 leaves IPv4 covered and IPv6 alone, and lowers Status exactly when the IPv6 sysevent is low |
| InterfaceInvariant.MaptDownKeeps | source/WanManager/wanmgr_interface_sm.c:2791-2852 | Leaving MAP-T for IPV6_LEASED keeps IPv6 covered and Status UP |
| InterfaceInvariant.ValidatedKeeps | source/WanManager/wanmgr_interface_sm.c:2020-2121 | Starting the DHCP clients leaves a fit record in OBTAINING |
| InterfaceInvariant.StandbyKeeps | source/WanManager/wanmgr_interface_sm.c:2883-2973 | Both ways into STANDBY set Status STANDBY and keep the record fit |
| InterfaceInvariant.ObtainingKeeps | source/WanManager/wanmgr_interface_sm.c:3124-3296 | OBTAINING_IP_ADDRESSES, with MAP-T head start, mode refresh, self-healing and address uptake, keeps the shape, and Status UP and cover where they held |
| InterfaceInvariant.StandbyStateKeeps | source/WanManager/wanmgr_interface_sm.c:3298-3362 | STANDBY, in particular when the interface becomes active and both families come up in one round, keeps the shape, and Status UP and cover where they held |
| InterfaceInvariant.Ipv4LeasedKeeps | source/WanManager/wanmgr_interface_sm.c:3364-3470 | IPV4_LEASED keeps the shape, and Status UP and cover where they held |
| InterfaceInvariant.Ipv6LeasedKeeps | source/WanManager/wanmgr_interface_sm.c:3472-3594 | IPV6_LEASED keeps the shape, and Status UP and cover where they held |
| InterfaceInvariant.DualStackKeeps | source/WanManager/wanmgr_interface_sm.c:3596-3739 | DUAL_STACK_ACTIVE keeps the shape and the cover, and Status UP exactly when it does not hand over to MAP-T with the IPv6 sysevent low |
| InterfaceInvariant.MaptActiveKeeps | source/WanManager/wanmgr_interface_sm.c:3742-3884 | MAPT_ACTIVE keeps the shape, and Status UP and cover where they held |
| InterfaceInvariant.RefreshingKeeps | source/WanManager/wanmgr_interface_sm.c:3887-3922 | REFRESHING_WAN keeps the shape, and Status UP and cover where they held |
| InterfaceClaims.LeasedMeansConnected | source/WanManager/wanmgr_interface_sm.c:2185-3884 | After any run, with no condition on what was received, in a round whose set-up and tear-down commands succeed: the connection-state sysevents that the next state needs are up exactly when the round is not one of the slips described per handler by Ipv4Slips, Ipv6Slips, DualStackSlips and MaptSlips |
| InterfaceClaims.CoveredRunsConnect | source/WanManager/wanmgr_interface_sm.c:2185-3884 | After a run in which no message lapsed only these slips are left: IPv4 is reapplied while IPv6 is low, a MAP-T set-up fails after IPv4 was torn down, or MAPT_ACTIVE with low IPv6 falls back or waits for a feature change |
| InterfaceClaims.EveryRoundConnects | source/WanManager/wanmgr_interface_sm.c:2185-3884 | In every run each round whose commands succeed leaves the needed sysevents up exactly when it does not slip |
| InterfaceClaims.CoverNarrowsSlips | source/WanManager/wanmgr_interface_sm.c:3364-3884 | With the families covered and Status UP, IPV4_LEASED and IPV6_LEASED never slip and the other two only in those ways |
| InterfaceClaims.DualStackConnects | source/WanManager/wanmgr_interface_sm.c:3596-3739 | From DUAL_STACK_ACTIVE the needed sysevents are up afterwards exactly when not: one family is reapplied while the other is low, MAP-T takes over and IPv6 is low or the set-up fails, or the state stays with a low family |
| InterfaceClaims.MaptConnects | source/WanManager/wanmgr_interface_sm.c:3742-3884 | From MAPT_ACTIVE the needed sysevents are up afterwards exactly when not: IPv6 is low and the handler falls back to IPV6_LEASED, or stays without a changed IPv6 lease to reapply |
| InterfaceClaims.Ipv4LeasedConnects | source/WanManager/wanmgr_interface_sm.c:3364-3470 | From IPV4_LEASED the needed sysevents are up afterwards exactly when not: the state stays with IPv4 low and unflagged |
| InterfaceClaims.Ipv6LeasedConnects | source/WanManager/wanmgr_interface_sm.c:3472-3594 | From IPV6_LEASED the needed sysevents are up afterwards exactly when not: the state stays, or hands over to MAP-T, with IPv6 low and unflagged |
| InterfaceClaims.StandbyConnects | source/WanManager/wanmgr_interface_sm.c:3298-3362 | From STANDBY a leased state is entered only with the needed sysevents up |
| InterfaceClaims.ObtainingConnects | source/WanManager/wanmgr_interface_sm.c:3124-3296 | From OBTAINING a leased state is entered only with the needed sysevents up |
| SlippingRuns.ReachesMapt | source/WanManager/wanmgr_interface_sm.c:2978-3739 | A run from the launch of an exited machine, with real leases and a MAP-T option, passes DUAL_STACK_ACTIVE and ends in MAPT_ACTIVE |
| SlippingRuns.LostPrefixSlips | source/WanManager/wanmgr_interface_sm.c:3766-3774 | At the end of that run, every command succeeding: MAPT_ACTIVE with a lost prefix goes to IPV6_LEASED with IPv6 down and its sysevent low, so leased does not imply connected |
| SlippingRuns.NamelessAddressSlips | source/WanManager/wanmgr_dhcpv6_apis.c:1847-1898 | At the end of that run: a message that assigns an address without naming one, right after a lost prefix, counts as a renewal and leaves IPv6 up, its sysevent low and nothing flagged, so the cover is lost |
| SlippingRuns.NamelessAddressLowersStatus | source/WanManager/wanmgr_interface_sm.c:2697-2789 | The same events in DUAL_STACK_ACTIVE: MAP-T takes over and MAPT_ACTIVE is published as VALIDATING, so Status UP is lost |
| InterfaceClaims.StatusFitsState | source/WanManager/wanmgr_interface_sm.c:1844-1886 | In every run, whatever arrives, Status is DISABLED exactly in EXIT, Interface_SM_Running holds exactly outside EXIT and STANDBY is published as STANDBY; leased states are UP when no round slipped |
| InterfaceClaims.OnlyActiveConnects | source/WanManager/wanmgr_interface_sm.c:3245-3280 | A connection-state sysevent goes from down to up only in a round in which Selection.Status is ACTIVE |
| LeavingService.LeavingExactly | source/WanManager/wanmgr_interface_sm.c:3364-3884 | From each leased state: it is given up exactly for a loss after which no family carries on, decided by the guards of its handler in their order, and each connection-state sysevent is up afterwards exactly when it was up and this loss skips it (a dual-stack loss, a feature refresh, a loss of IPv6 or a Status already lowered skip the IPv4 one) |
| LeavingService.OutsideExactly | source/WanManager/wanmgr_interface_sm.c:2978-3961 | From every other state, as long as no leased state follows: each sysevent is up afterwards exactly when it was up and the round did not lower it |
| LeavingService.SyseventsStayTidy | source/WanManager/wanmgr_interface_sm.c:2978-3961 | Throughout a run both sysevents are down outside the leased states exactly when no round gives up a leased state by a loss that skips a sysevent which is up |
| LeavingService.StepTidies | source/WanManager/wanmgr_interface_sm.c:4070-4186 | One round keeps the sysevents down without service exactly when it does not stray |
| SlippingRuns.LinkLossStrays | source/WanManager/wanmgr_interface_sm.c:2634-2653 | A run from launch, every command succeeding: the link is lost in DUAL_STACK_ACTIVE, OBTAINING is entered with IPv4 down, its address cleared and its sysevent up; after the cable is pulled the machine ends DISABLED with the sysevent still up |
| InterfaceClaims.TeardownIsComplete | source/WanManager/wanmgr_interface_sm.c:1908-1994 | The teardown always ends with IPv4, IPv6 and MAP-T down, no client started, check stopped, timer reset and no link configuring; REFRESHING follows exactly on Reset, VLAN Reset or Expired; each sysevent survives exactly when its tear-down was skipped |
| InterfaceClaims.AfterDropMapt | source/WanManager/wanmgr_interface_sm.c:1920-1925 | The nested wan_transition_mapt_down takes MAP-T and IPv4 down but leaves the IPv4 sysevent as it was |
| InterfaceClaims.AfterDropV4 | source/WanManager/wanmgr_interface_sm.c:1926-1930 | The nested wan_transition_ipv4_down lowers the IPv4 sysevent only while Status is UP |
| InterfaceClaims.AfterDropV6 | source/WanManager/wanmgr_interface_sm.c:1931-1934 | The nested wan_transition_ipv6_down lowers the IPv6 sysevent only when IPv6 is up |
| InterfaceClaims.ShutStops | source/WanManager/wanmgr_interface_sm.c:4171-4178 | Once one enabling condition is off and enabled lower links report down in every round, the thread ends within Rank rounds, at most four, from every state including the REFRESHING detour |
| InterfaceClaims.ShutSinks | source/WanManager/wanmgr_interface_sm.c:1982-1993 | Under those conditions every round lowers the rank |
| InterfaceClaims.ShutHandler | source/WanManager/wanmgr_interface_sm.c:3887-3961 | Under those conditions each state leads at once to REFRESHING or DECONFIGURING, REFRESHING to DECONFIGURING, and that to EXIT |
| InterfaceClaims.LayersComeInOrder | source/WanManager/wanmgr_interface_sm.c:2978-3122 | In every run a machine in a leased state passed, in this order and since the last start or refresh, VLAN_CONFIGURING with the VLAN up if enabled, PPP_CONFIGURING with PPP up if enabled, and validation; every entry into a leased state from outside, and every entry into DUAL_STACK_ACTIVE or MAPT_ACTIVE, was in a round that saw the interface ACTIVE |
| InterfaceClaims.ClimbStep | source/WanManager/wanmgr_interface_sm.c:2978-3122 | One round extends the climb through the layers, and takes up a family or MAP-T only when ACTIVE |
| InterfaceClaims.StepFollows | source/WanManager/wanmgr_interface_sm.c:3924-3961 | A round goes only to a state that can follow, under the condition for it: EXIT only from DECONFIGURING with enabled links down |
| InterfaceSpec.Handle | source/WanManager/wanmgr_interface_sm.c:4105-4180 | Each handler's next state is one that can follow its state; mail only leaves its slots, the discovery choice only moves to a listed VLAN, and sysevents rise only when ACTIVE |
| InterfaceRuns.MailIsConserved | source/WanManager/wanmgr_ipc.c:66-145 | Over every interleaving of producers and rounds, launches included: the accepted messages, in order, are those that left the slot (handled or discarded) followed by the one in it; none is overwritten |
| InterfaceRuns.AcceptedFillTheSlot | source/WanManager/wanmgr_ipc.c:66-145 | Offers fill a slot only when it is empty and the machine runs |
| InterfaceRuns.TickConserves | source/WanManager/wanmgr_interface_sm.c:3972-4009 | One round conserves the messages of both mailboxes |
| InterfaceRuns.TickOnlyEmpties | source/WanManager/wanmgr_interface_sm.c:1785-1820 | During a round a slot can only be emptied, by the drain or by a transition that clears it |
| InterfaceRuns.StoppedMachineTakesNoMail | source/WanManager/wanmgr_interface_sm.c:3949-3961 | Both slots are empty once the thread has ended, and stay empty with nothing accepted until the next launch, whatever is offered |
| Ipc.NewIpv4Msg | source/WanManager/wanmgr_ipc.c:66-104 | Of five tries the first that finds a running machine with an empty slot and memory stores the message; otherwise nothing is stored |
| Ipc.NewIpv6Msg | source/WanManager/wanmgr_ipc.c:107-145 | The same for DHCPv6 messages |
| InterfaceTable.HandlerIsTabled | source/WanManager/wanmgr_interface_sm.c:2978-3961 | Every handler, with all its nested transitions, comes to what a flat table says: from raw guards the course of the round, and from the course the next state, Status, every field of IPv4, IPv6, MAP-T, VLAN discovery, preferred mode and configuration, and whether the check runs; the table uses no transition of the machine |
| EnteringService.ObtainingEnters | source/WanManager/wanmgr_interface_sm.c:3124-3296 | OBTAINING goes to IPV4_LEASED, DUAL_STACK_ACTIVE, IPV6_LEASED or STANDBY exactly under the guards of its handler: IPv4 first, IPv6 once its change was noted and the LAN is ready; never straight to MAPT_ACTIVE |
| EnteringService.StandbyEnters | source/WanManager/wanmgr_interface_sm.c:3298-3362 | STANDBY enters each leased state exactly when the interface is ACTIVE with its links up, the families are up, and for IPv6 the LAN is ready |
| EnteringService.Ipv4LeasedMoves | source/WanManager/wanmgr_interface_sm.c:3364-3470 | IPV4_LEASED goes to DUAL_STACK_ACTIVE or IPV6_LEASED exactly when IPv6 is up, noted and the LAN is ready, or IPv4 is lost and IPv6 carries on |
| EnteringService.Ipv6LeasedMoves | source/WanManager/wanmgr_interface_sm.c:3472-3594 | IPV6_LEASED goes to DUAL_STACK_ACTIVE, IPV4_LEASED or MAPT_ACTIVE exactly under the guards of its handler, the set-up of MAP-T succeeding |
| EnteringService.DualStackMoves | source/WanManager/wanmgr_interface_sm.c:3596-3739 | DUAL_STACK_ACTIVE hands over to MAP-T exactly when neither family is lost or flagged and the set-up succeeds; it falls back to one family exactly when the other is lost |
| EnteringService.MaptMoves | source/WanManager/wanmgr_interface_sm.c:3742-3884 | MAPT_ACTIVE falls back to IPV6_LEASED exactly when MAP-T cannot be used any more, and never straight to IPv4 |
| Progress.ClimbsToObtaining | source/WanManager/wanmgr_interface_sm.c:2978-3122 | Progress: with the interface wanted and what it stands on up, three quiet rounds lead from VLAN_CONFIGURING to OBTAINING |
| Progress.Ipv4Arrives | source/WanManager/wanmgr_interface_sm.c:3124-3296 | Progress: a DHCPv4 lease offered in OBTAINING is in service after the same round, Status UP, sysevent up, the five fields of the lease those of the message |
| Progress.Ipv6Arrives | source/WanManager/wanmgr_interface_sm.c:3250-3276 | Progress: an IPv6 lease in OBTAINING has its change noted in one round and is in service in IPV6_LEASED after the next |
| Progress.ValidationPasses | source/WanManager/wanmgr_interface_sm.c:2020-2121 | Which DHCP client a validated interface starts: DHCPv6 alone while MAP-T has its head start, otherwise what the address mode asks for |
| Progress.ThreadLives | source/WanManager/wanmgr_interface_sm.c:4070-4203 | A thread ends exactly with the round in which it handled EXIT, and only a launch starts one |
| EnteringService.StartsAfresh | source/WanManager/wanmgr_interface_sm.c:1825-1886 | A thread starts in VLAN_CONFIGURING, running and INITIALISING, with IPv4, IPv6 and MAP-T down; leases, mail and clients are kept |
| EnteringService.StartsLinks | source/WanManager/wanmgr_interface_sm.c:1825-1886 | Links that survived a restart are taken over, an enabled local VLAN that is down is configured, no other setting changes |
| VlanFairness.StartsDiscovery | source/WanManager/wanmgr_interface_sm.c:1857-1868 | A start configures the VLAN of Index 0 when none was chosen before and sets the timer only with more than one VLAN |
| EnteringService.OffersWrite | source/WanManager/wanmgr_ipc.c:66-145 | An offer fills the empty slot of a running machine and is dropped otherwise |
| EnteringService.PrefixClearLowers | source/WanManager/wanmgr_sysevents.c:881-897 | A prefix clear that names the interface takes IPv6 and MAP-T down, empties the lease and keeps mail and client |
| LeaseEffects.Ipv4Expires | source/WanManager/wanmgr_dhcpv4_apis.c:255-278 | An expired DHCPv4 lease takes IPv4 down with both flags clear, keeps the lease without its address and empties the slot |
| LeaseEffects.Ipv4Assigned | source/WanManager/wanmgr_dhcpv4_apis.c:146-278 | An assigned lease is stored field by field and raises exactly one flag, decided by all five fields; IPv4 is up and the slot empty exactly when there is a broadcast address |
| LeaseEffects.Ipv4Ignored | source/WanManager/wanmgr_dhcpv4_apis.c:110-278 | Any other message only leaves the slot; one without gateway makes an interface VALID unless it is UP or STANDBY |
| LeaseEffects.Ipv6Expires | source/WanManager/wanmgr_dhcpv6_apis.c:1629-1645 | An expired DHCPv6 lease takes IPv6 down, clears address, prefix and name servers, flags and sysevent, and stops MAP-T |
| LeaseEffects.Ipv6BringsNothing | source/WanManager/wanmgr_dhcpv6_apis.c:1676-1694 | A message with neither address nor prefix to add only lowers IPv6, and only when it ends the prefix that is held |
| LeaseEffects.Ipv6Brings | source/WanManager/wanmgr_dhcpv6_apis.c:1648-1899 | A message that adds an address or a prefix takes IPv6 up with the merged lease and raises exactly one flag; when it also ends the held prefix, that lowers IPv6 first |
| LeaseEffects.MaptFollowsOption | source/WanManager/wanmgr_dhcpv6_apis.c:1901-1937 | A MAP-T option takes MAP-T up and is flagged when it differs; a prefix without one takes MAP-T down and forgets it; every other message leaves it alone |
| WanService.BestInterfaceServes | source/WanManager/wanmgr_policy_pp_impl.c:456-503 | Progress of the whole system: from rest the policy launches the interface that no usable one beats, three rounds of its thread take it to OBTAINING, and the first lease that arrives is in service; no other interface is touched |
| WanService.ThreadRoundIsStep | source/WanManager/wanmgr_interface_sm.c:4070-4186 | A thread round of the system is a step of the machine model, whatever other threads stand beside it |
| WanService.LaunchIsStep | source/WanManager/wanmgr_interface_sm.c:4020-4068 | The start by the policy is the launch step of the machine model |
| WanService.OneRecordChanges | source/WanManager/wanmgr_interface_sm.c:4100-4186 | A thread round, or what other threads write, changes one record; the policy and all other machines stay as they are |
| WanService.OnlyTableChanges | source/WanManager/wanmgr_data.c:347-364 | A rewrite of the database changes the policy's table and nothing else |
| WanService.PolicyStartsWhatItLaunched | source/WanManager/wanmgr_policy_pp_impl.c:180-240 | A policy round starts the machine that it launched, if any, and touches no other |
| WanService.BestIsStarted | source/WanManager/wanmgr_policy_pp_impl.c:456-503 | With no machine running the policy round starts the best interface, makes it ACTIVE, and starts no other |
| InterfaceMachine.VirtualInterface.ConnectionDown | source/WanManager/wanmgr_interface_sm.c:623-719 | IPv4 is down, both flags are cleared and the lease loses its address |
| InterfaceMachine.VirtualInterface.ConnectionIpv6Down | source/WanManager/wanmgr_interface_sm.c:623-719 | IPv6 and MAP-T are down, flags and lease cleared, the sysevent lowered |
| InterfaceMachine.VirtualInterface.ClearDhcpData | source/WanManager/wanmgr_interface_sm.c:1785-1820 | In place, in the source's order: refines ClearDhcpData |
| InterfaceMachine.VirtualInterface.Start | source/WanManager/wanmgr_interface_sm.c:1825-1886 | In place, in the source's order: refines Start |
| InterfaceMachine.VirtualInterface.PppConfigure | source/WanManager/wanmgr_interface_sm.c:1888-1906 | In place, in the source's order: refines PppConfigure |
| InterfaceMachine.VirtualInterface.WanValidated | source/WanManager/wanmgr_interface_sm.c:2020-2121 | In place, in the source's order: refines WanValidated |
| InterfaceMachine.VirtualInterface.FindVlan | source/WanManager/wanmgr_data.c:579-594 | The walk stops at the first entry with the Index, or at the end |
| InterfaceMachine.VirtualInterface.NextVlan | source/WanManager/wanmgr_interface_sm.c:2140-2157 | The entry after the active one, or the head |
| InterfaceMachine.VirtualInterface.WanRefreshed | source/WanManager/wanmgr_interface_sm.c:2124-2183 | In place, in the source's order: refines WanRefreshed |
| InterfaceMachine.VirtualInterface.Ipv4Up | source/WanManager/wanmgr_interface_sm.c:2185-2258 | In place, in the source's order: refines Ipv4Up |
| InterfaceMachine.VirtualInterface.Ipv4Down | source/WanManager/wanmgr_interface_sm.c:2260-2363 | In place, in the source's order: refines Ipv4Down |
| InterfaceMachine.VirtualInterface.Ipv6Up | source/WanManager/wanmgr_interface_sm.c:2451-2530 | In place, in the source's order: refines Ipv6Up |
| InterfaceMachine.VirtualInterface.Ipv6Down | source/WanManager/wanmgr_interface_sm.c:2532-2632 | In place, in the source's order: refines Ipv6Down |
| InterfaceMachine.VirtualInterface.DualStackDown | source/WanManager/wanmgr_interface_sm.c:2634-2653 | In place, in the source's order: refines DualStackDown |
| InterfaceMachine.VirtualInterface.MaptFeatureRefresh | source/WanManager/wanmgr_interface_sm.c:2656-2695 | In place, in the source's order: refines MaptFeatureRefresh |
| InterfaceMachine.VirtualInterface.SwitchMaptOn | source/WanManager/wanmgr_interface_sm.c:2697-2789 | In place, in the source's order: refines MaptUpTransition |
| InterfaceMachine.VirtualInterface.SwitchMaptOff | source/WanManager/wanmgr_interface_sm.c:2791-2852 | In place, in the source's order: refines MaptDownTransition |
| InterfaceMachine.VirtualInterface.PhysicalInterfaceDown | source/WanManager/wanmgr_interface_sm.c:1908-1994 | In place, in the source's order: refines PhysicalInterfaceDown |
| InterfaceMachine.VirtualInterface.Leave | source/WanManager/wanmgr_interface_sm.c:2855-2881 | In place, in the source's order: refines ExitTransition |
| InterfaceMachine.VirtualInterface.EnterStandby | source/WanManager/wanmgr_interface_sm.c:2883-2907 | In place, in the source's order: refines StandbyTransition |
| InterfaceMachine.VirtualInterface.StandbyDeconfigIps | source/WanManager/wanmgr_interface_sm.c:2909-2973 | In place, in the source's order: refines StandbyDeconfigIps |
| InterfaceMachine.VirtualInterface.MonitorDhcpApps | source/WanManager/wanmgr_interface_sm.c:420-554 | In place, in the source's order: refines MonitorDhcpApps |
| InterfaceMachine.VirtualInterface.VlanConfiguringTick | source/WanManager/wanmgr_interface_sm.c:2978-3031 | In place, in the source's order: refines OnVlanConfiguring |
| InterfaceMachine.VirtualInterface.PppConfiguringTick | source/WanManager/wanmgr_interface_sm.c:3033-3083 | In place, in the source's order: refines OnPppConfiguring |
| InterfaceMachine.VirtualInterface.ValidatingTick | source/WanManager/wanmgr_interface_sm.c:3085-3122 | In place, in the source's order: refines OnValidatingWan |
| InterfaceMachine.VirtualInterface.ObtainingTick | source/WanManager/wanmgr_interface_sm.c:3124-3296 | In place, in the source's order: refines OnObtainingIp |
| InterfaceMachine.VirtualInterface.StandbyTick | source/WanManager/wanmgr_interface_sm.c:3298-3362 | In place, in the source's order: refines OnStandbyState |
| InterfaceMachine.VirtualInterface.ReapplyIpv4 | source/WanManager/wanmgr_interface_sm.c:3411-3431 | An updated lease is torn down and set up again; a failing step keeps the flag and may leave the sysevent low |
| InterfaceMachine.VirtualInterface.ReapplyIpv6 | source/WanManager/wanmgr_interface_sm.c:3519-3546 | An updated lease is torn down, its LAN prefix set and set up again; a failing step keeps the flag and may leave the sysevent low |
| InterfaceMachine.VirtualInterface.Ipv4LeasedTick | source/WanManager/wanmgr_interface_sm.c:3364-3470 | In place, in the source's order: refines OnIpv4Leased |
| InterfaceMachine.VirtualInterface.Ipv6LeasedTick | source/WanManager/wanmgr_interface_sm.c:3472-3594 | In place, in the source's order: refines OnIpv6Leased |
| InterfaceMachine.VirtualInterface.DualStackTick | source/WanManager/wanmgr_interface_sm.c:3596-3739 | In place, in the source's order: refines OnDualStackActive |
| InterfaceMachine.VirtualInterface.MaptTick | source/WanManager/wanmgr_interface_sm.c:3742-3884 | In place, in the source's order: refines OnMaptActive |
| InterfaceMachine.VirtualInterface.RefreshingTick | source/WanManager/wanmgr_interface_sm.c:3887-3922 | In place, in the source's order: refines OnRefreshingWan |
| InterfaceMachine.VirtualInterface.DeconfiguringTick | source/WanManager/wanmgr_interface_sm.c:3924-3947 | In place, in the source's order: refines OnDeconfiguringWan |
| InterfaceMachine.VirtualInterface.TakeIpv4Message | source/WanManager/wanmgr_dhcpv4_apis.c:110-278 | The consumer of the DHCPv4 mailbox leaves exactly the record of DrainV4; a message whose mask has no broadcast address stays in the slot |
| InterfaceMachine.VirtualInterface.MergeLease | source/WanManager/wanmgr_dhcpv6_apis.c:1648-1835 | The new lease takes missing halves from the current one, asks the interface when no address is left, and a removal of the held prefix lowers IPv6 first |
| InterfaceMachine.VirtualInterface.TakeMaptOption | source/WanManager/wanmgr_dhcpv6_apis.c:1901-1937 | The MAP-T option is stored and flagged when it differs; a prefix without the option stops MAP-T |
| InterfaceMachine.VirtualInterface.TakeIpv6Message | source/WanManager/wanmgr_dhcpv6_apis.c:1594-1948 | The consumer of the DHCPv6 mailbox leaves exactly the record of DrainV6 |
| InterfaceMachine.VirtualInterface.Dispatch | source/WanManager/wanmgr_interface_sm.c:4105-4180 | One round of the handler for the current state is Handle |
| InterfaceMachine.Round | source/WanManager/wanmgr_interface_sm.c:4100-4180 | A round drains the mailboxes, notes the state and runs its handler |
| InterfaceMachine.OtherThreads | source/WanManager/wanmgr_ipc.c:66-145 | Configuration changes, offered messages, prefix clears and management writes update the record event by event |
| InterfaceMachine.Pass | source/WanManager/wanmgr_interface_sm.c:4070-4186 | One pass of the loop is one Step of the run model, and a thread that handled EXIT goes on no more |
| InterfaceMachine.Launch | source/WanManager/wanmgr_interface_sm.c:4020-4068 | The start of the thread on the record as other threads left it is the launch step of the run model |
| InterfaceMachine.Loop | source/WanManager/wanmgr_interface_sm.c:4070-4203 | The loop's history is a run |
| InterfaceMachine.RunIsAccounted | source/WanManager/wanmgr_interface_sm.c:4020-4203 | Every run of a machine that had ended is fit and published as its state asks, connects in each succeeding round unless it slips, stays covered exactly unless it lapses and tidy exactly unless it strays, and took the layers in order |
| InterfaceMachine.Thread | source/WanManager/wanmgr_interface_sm.c:4020-4203 | The whole thread, in place, from its start through any passes: its history is a run, and on the record of an ended machine all of this holds of it |
| Renewals.RenewalsKeepBothHalves | source/WanManager/wanmgr_dhcpv6_apis.c:1648-1703 | After a full lease and any run of address-only, prefix-only or full renewals, each handled with its own answers from outside, both halves are still assigned, each with the value last received for it |
| Renewals.OneRenewal | source/WanManager/wanmgr_dhcpv6_apis.c:1578-1592 | One renewal replaces the halves it carries and keeps the other as it was |
| Renewals.RenewalRaisesOneFlag | source/WanManager/wanmgr_dhcpv6_apis.c:1847-1899 | A renewal that repeats every compared value sets Ipv6Renewed and not Ipv6Changed; any other sets Ipv6Changed and not Ipv6Renewed |
| VlanList.List.Add | source/WanManager/wanmgr_data.c:559-577 | Walks to the last node and appends the new one; the order of the others is kept |
| VlanList.List.Find | source/WanManager/wanmgr_data.c:579-594 | Finds the first node with the Index, or nothing |
| VlanList.List.NextEntry | source/WanManager/wanmgr_interface_sm.c:2140-2157 | The entry behind the active one; the head on reset, for index -1, for an unknown index and after the last |
| VlanList.Build | source/WanManager/wanmgr_data.c:180-203 | The list built at boot has Index 0, 1, 2 and so on in order |
| VlanFairness.WalkIsCyclic | source/WanManager/wanmgr_interface_sm.c:2135-2161 | k consecutive expired refreshes move ActiveIndex k places around the list |
| VlanFairness.EveryVlanIsTried | source/WanManager/wanmgr_interface_sm.c:2135-2161 | Within as many refreshes as there are VLANs every VLAN is tried |
| VlanFairness.OneRefresh | source/WanManager/wanmgr_interface_sm.c:2135-2161 | One expired refresh moves to the next entry, cyclically, and VLANInUse gets its name |
| VlanFairness.FoundFirst | source/WanManager/wanmgr_data.c:579-594 | The search finds the first entry with the Index, and nothing exactly when there is none |
| VlanFairness.NextIsBehind | source/WanManager/wanmgr_interface_sm.c:2140-2157 | The next entry stands behind the active one, the head behind the last |
| VlanFairness.NextOfUnknown | source/WanManager/wanmgr_interface_sm.c:2140-2157 | An unknown index is followed by the head |
| VlanFairness.BuiltInOrder | source/WanManager/wanmgr_data.c:180-203 | Entry k of the list built at boot has Index k and the k-th name |
| VlanFairness.NextInBuilt | source/WanManager/wanmgr_data.c:180-203 | On a list built at boot the next entry is the one with the next Index modulo the length |
| VlanFairness.ResetStartsOver | source/WanManager/wanmgr_interface_sm.c:2137-2144 | Reset, or an index never set, starts over at the head and clears the request flags |
| VlanFairness.InUseNamesActive | source/WanManager/wanmgr_interface_sm.c:2135-2161 | In every run VLANInUse and ActiveIndex stay as they were or name one entry of the list |
| Mapt.CalculatePsidAndV4Index | source/WanManager/wanmgr_net_utils.c:1508-1590 | The PSID is as long as the embedded bits less the suffix and fits that length; suffix and PSID, concatenated, are the embedded-address bits, across byte boundaries; an iapd length not above the rule length or an unparsable prefix is an error |
| Mapt.ReadBytes | source/WanManager/wanmgr_net_utils.c:1540-1561 | The bytes that cover the embedded address, put together most significant first |
| Mapt.Window | source/WanManager/wanmgr_net_utils.c:1537-1583 | One byte more is read when the rule prefix ends inside a byte, so the window always covers the embedded address |
| Mapt.BitsAreField | source/WanManager/wanmgr_net_utils.c:760-763 | Shift and mask of a window of at most 32 bits give the bits at that position |
| Mapt.SplitIsExact | source/WanManager/wanmgr_net_utils.c:1585-1587 | Suffix and PSID, concatenated, are exactly the embedded-address bits of section 5.2 of RFC 7597 |
| Mapt.ComputeConfiguration | source/WanManager/wanmgr_net_utils.c:852-905 | Ratio 0 becomes 1; a given PSID with no embedded bits is used as it is; otherwise the PSID is computed and the address is rule prefix plus suffix modulo 2^32; a failing computation is a failure |
| Mapt.VerifyMaptConfiguration | source/WanManager/wanmgr_net_utils.c:834-930 | The configuration is computed first; the MAP IPv6 address with its address and PSID is published exactly when it was, the LAN address is known and the prefix parses |
| Mapt.ConfigurationExactly | source/WanManager/wanmgr_net_utils.c:852-905 | A PSID of its own is taken with its length and the bare rule prefix; otherwise length, PSID and address are decided by the embedded bits: length as above, PSID the low bits, address the rule prefix plus the high bits modulo 2^32 |
| Mapt.AddressKeepsRule | source/WanManager/wanmgr_net_utils.c:895-905 | With zero host bits in the rule the address has no carry, stays in the rule prefix and ends in the suffix |
| Mapt.AddressReadsBack | source/WanManager/wanmgr_net_utils.c:1592-1619 | After 16 zero bits, IPv4 address and PSID can be read from the interface identifier, as section 6 of RFC 7597 lays it out |
| MaptRoundTrip.DecodeEncode | source/WanManager/wanmgr_net_utils.c:1592-1619 | Reading address and PSID back from the MAP IPv6 address recovers the embedded-address bits |
| MaptRoundTrip.ConfigurationReadsBack | source/WanManager/wanmgr_net_utils.c:834-930 | Address and PSID of the computed configuration can be read from the published MAP address; with embedded bits they give back the embedded-address bits of the delegated prefix |
| MaptRoundTrip.EncodeIsInjective | source/WanManager/wanmgr_net_utils.c:1592-1619 | Two prefixes under one rule get the same interface identifier exactly when their embedded-address bits agree |
| PortSets.CalculatePortRanges | source/WanManager/wanmgr_net_utils.c:2481-2506 | The loop lists the ranges of indices 1 to 2^a - 1, an offset of 0 standing for 6, and they hold exactly the ports whose top a bits are not all zero and whose next bits are the PSID |
| MaptSharing.NoPortIsShared | source/WanManager/wanmgr_net_utils.c:834-930 | The purpose of MAP-T: of two prefixes under one rule with different embedded bits, no address and port belongs to both, with the computed addresses, PSIDs and PSID length |
| MaptSharing.PortSetsEqualOrDisjoint | source/WanManager/wanmgr_net_utils.c:2481-2506 | With the computed PSIDs and their length the port sets of two prefixes under one rule are equal or disjoint |
| MaptSharing.AddressAndPsidIdentify | source/WanManager/wanmgr_net_utils.c:1508-1590 | Two prefixes under one rule get the same address and PSID exactly when their embedded bits agree |
| MaptSharing.PsidFitsLength | source/WanManager/wanmgr_net_utils.c:1585-1587 | The computed PSID fits the computed length |
| PortSets.MembershipIsByBits | source/WanManager/wanmgr_net_utils.c:2481-2506 | A port belongs to a PSID exactly when its middle bits are the PSID and its top a bits are not all zero (section 5.1 of RFC 7597) |
| PortSets.PortsArePartitioned | source/WanManager/wanmgr_net_utils.c:2481-2506 | Every port from 2^(16-a) on has exactly one PSID, every lower port none |
| PortSets.RangesIncrease | source/WanManager/wanmgr_net_utils.c:2496-2503 | The ranges of a PSID are non-empty, strictly increasing and inside the port space |
| PortSets.EveryoneGetsAsMany | source/WanManager/wanmgr_net_utils.c:2496-2503 | The number of ports is the number of ranges times 2^(16-a-psidLen), whatever the PSID |
| PolicyData.PolicyController.SelectTopTwo | source/WanManager/wanmgr_policy_pp_impl.c:67-128 | The one-pass loop returns the first two elements of the stable sort by priority of the eligible interfaces and gives every lock back, also when it skips a remote interface |
| PolicyData.PolicyController.SelectBest | source/WanManager/wanmgr_policy_fm_impl.c:61-100 | The argmin loop returns the first element of the stable sort of the eligible interfaces and gives every lock back |
| PolicyData.SortIsStable | source/WanManager/wanmgr_policy_pp_impl.c:67-128 | The reference sort is a permutation ordered by priority, by table position among equals |
| PolicyData.TopTwoFit | source/WanManager/wanmgr_policy_pp_impl.c:101-115 | A secondary exists only beside a strictly better-placed primary; both are enabled, allowed and have a usable link |
| PolicyData.TopTwoAreBest | source/WanManager/wanmgr_policy_pp_impl.c:101-115 | No usable interface is better than the primary, and none but the primary is better than the secondary |
| PolicyData.InsertTopTwo | source/WanManager/wanmgr_policy_pp_impl.c:101-115 | One more candidate moves at most the first two places, as the comparison chain of the loop does |
| PolicyData.PolicyController.GetIfaceDataLocked | source/WanManager/wanmgr_data.c:347-364 | The depth of the recursive mutex rises by one exactly when the interface exists |
| PolicyData.PolicyController.Release | source/WanManager/wanmgr_data.c:719-726 | The depth falls by one |
| PolicyData.PolicyController.MarkActive | source/WanManager/wanmgr_policy_pp_impl.c:209-211 | Sets ActiveLink and ACTIVE of one interface and nothing else |
| PolicyData.PolicyController.MarkNotSelected | source/WanManager/wanmgr_policy_pp_impl.c:197-199 | Clears ActiveLink and ACTIVE of one interface and nothing else |
| PrimaryPriority.OneActiveInEveryRun | source/WanManager/wanmgr_policy_pp_impl.c:180-399 | In every run, with or without standby, an interface is ACTIVE only at activeInterfaceIdx, ActiveLink equals ACTIVE, and none is ACTIVE at STATE_SM_EXIT |
| PrimaryPriority.AtMostOneActive | source/WanManager/wanmgr_policy_pp_impl.c:180-399 | What every run keeps, over the table: at most one interface is ACTIVE, ActiveLink equals ACTIVE, until teardown the active index names that interface, none is left at STATE_SM_EXIT |
| PrimaryPriority.SecondaryIsUnreachable | source/WanManager/wanmgr_policy_pp_impl.c:456-607 | Without standby no run enters the two states that need a secondary interface |
| PrimaryPriority.HeldIsTheOnlyOne | source/WanManager/wanmgr_policy_pp_impl.c:749-784 | The reference taken before the index changes still names the only interface that can be ACTIVE |
| PrimaryPriority.RoundKeeps | source/WanManager/wanmgr_policy_pp_impl.c:456-691 | Every state of the policy keeps the invariant, including transitions that change the index |
| PrimaryPriority.DownKeeps | source/WanManager/wanmgr_policy_pp_impl.c:456-503 | Selecting from STATE_INTERFACE_DOWN keeps the invariant even when the old interface is still ACTIVE |
| PrimaryPriority.SecondaryUpKeeps | source/WanManager/wanmgr_policy_pp_impl.c:609-665 | Changing the primary, or falling back to the secondary, keeps the invariant |
| PrimaryPriority.CheckAllDown | source/WanManager/wanmgr_policy_pp_impl.c:130-163 | True exactly when there are interfaces and every first virtual interface is DISABLED; locks balanced |
| PolicyRounds.BestIsLaunched | source/WanManager/wanmgr_policy_pp_impl.c:456-503 | Outside teardown, with standby or all interfaces down and some usable interface: the round of STATE_INTERFACE_DOWN ends with the active index on the interface that no usable one beats, that interface ACTIVE with ActiveLink, and exactly its machine launched |
| PolicyRounds.DownRoundExactly | source/WanManager/wanmgr_policy_pp_impl.c:456-503 | STATE_INTERFACE_DOWN, over the table: next state, both indices, launches, and which interface is selected and deselected, for every input |
| PolicyRounds.PrimaryRoundExactly | source/WanManager/wanmgr_policy_pp_impl.c:505-554 | STATE_PRIMARY_WAN_ACTIVE, over the table: a lost link or a better interface deselects; a new second best is launched or forgotten |
| PolicyRounds.StayingIsBest | source/WanManager/wanmgr_policy_pp_impl.c:505-554 | A round that stays in STATE_PRIMARY_WAN_ACTIVE has the best interface active, its link there |
| PolicyRounds.SecondaryRoundExactly | source/WanManager/wanmgr_policy_pp_impl.c:556-607 | STATE_SECONDARY_WAN_ACTIVE, over the table: it gives way to a usable primary and ends when its interface is not the second best |
| PolicyRounds.BothUpRoundExactly | source/WanManager/wanmgr_policy_pp_impl.c:609-665 | STATE_PRIMARY_WAN_ACTIVE_SECONDARY_WAN_UP, over the table: a lost link falls back to the secondary, a better interface becomes the primary |
| PolicyRounds.TearingRoundExactly | source/WanManager/wanmgr_policy_pp_impl.c:667-691 | STATE_TEARING_DOWN deselects its interface and ends once it is DISABLED |
| PolicyRounds.TopTwoPicks | source/WanManager/wanmgr_policy_pp_impl.c:67-128 | The selection loop picks the interface that no usable one beats, and the best beside it; none only when there is none |
| PolicyRounds.OnlyOnePick | source/WanManager/wanmgr_policy_pp_impl.c:67-128 | The best interface is unique |
| PolicyRounds.StaysOnTheBest | source/WanManager/wanmgr_policy_pp_impl.c:505-554 | Without standby every run stays on its interface, and launches nothing, for as long as that one is the best |
| PolicyRounds.BestIsServed | source/WanManager/wanmgr_policy_pp_impl.c:456-554 | From a stopped system: the best interface is launched in the first round and kept from then on |
| PolicyRounds.FixingExactly | source/WanManager/wanmgr_policy_fm_impl.c:192-213 | STATE_FIXING_WAN_INTERFACE, over the table: the interface chosen the round before is marked, and the best one is chosen again |
| PolicyRounds.FixedDownExactly | source/WanManager/wanmgr_policy_fm_impl.c:215-259 | STATE_FIXED_WAN_INTERFACE_DOWN, over the table: the fixed interface is launched exactly when it is idle with a usable link and its VLAN down |
| PolicyRounds.FixedUpExactly | source/WanManager/wanmgr_policy_fmob_impl.c:218-240 | STATE_FIXED_WAN_INTERFACE_UP, over the table: it launches nothing; only Fixed Mode gives an interface up for a better one |
| PolicyRounds.FmTearingExactly | source/WanManager/wanmgr_policy_fmob_impl.c:242-266 | STATE_TEARING_DOWN of both policies deselects and ends once the interface is DISABLED |
| PolicyRounds.BestIsFixed | source/WanManager/wanmgr_policy_fm_impl.c:192-259 | Three rounds with the same best interface: it is chosen, fixed, and launched when it can start |
| PrimaryPriority.SelectPrimary | source/WanManager/wanmgr_policy_pp_impl.c:180-240 | Selecting the primary is done to the locked interface and the new one; next state, fields, starts and mutex depth are exactly those of the specification |
| PrimaryPriority.DeselectPrimary | source/WanManager/wanmgr_policy_pp_impl.c:242-269 | The locked interface is deselected and the index cleared |
| PrimaryPriority.ChangePrimary | source/WanManager/wanmgr_policy_pp_impl.c:271-323 | Changing the primary is done to the locked interface and the new one; next state, fields, starts and mutex depth are exactly those of the specification |
| PrimaryPriority.SelectSecondary | source/WanManager/wanmgr_policy_pp_impl.c:325-371 | Selecting the secondary is done to the locked interface and the new one; next state, fields, starts and mutex depth are exactly those of the specification |
| PrimaryPriority.DeselectSecondary | source/WanManager/wanmgr_policy_pp_impl.c:373-399 | The locked interface is deselected and both indices cleared |
| PrimaryPriority.StartSecondary | source/WanManager/wanmgr_policy_pp_impl.c:401-445 | A secondary is started only when enabled, idle, plugged and its VLAN down; locks balanced |
| PrimaryPriority.InterfaceDownRound | source/WanManager/wanmgr_policy_pp_impl.c:456-503 | The round of STATE_INTERFACE_DOWN computes next state and controller of the specification and balances its locks |
| PrimaryPriority.PrimaryActiveRound | source/WanManager/wanmgr_policy_pp_impl.c:505-554 | The round of STATE_PRIMARY_WAN_ACTIVE computes next state and controller of the specification and balances its locks |
| PrimaryPriority.SecondaryActiveRound | source/WanManager/wanmgr_policy_pp_impl.c:556-607 | The round of STATE_SECONDARY_WAN_ACTIVE computes next state and controller of the specification and balances its locks |
| PrimaryPriority.SecondaryUpRound | source/WanManager/wanmgr_policy_pp_impl.c:609-665 | The round of STATE_PRIMARY_WAN_ACTIVE_SECONDARY_WAN_UP computes next state and controller of the specification and balances its locks |
| PrimaryPriority.TearingDownRound | source/WanManager/wanmgr_policy_pp_impl.c:667-691 | The round of STATE_TEARING_DOWN computes next state and controller of the specification and balances its locks |
| PrimaryPriority.PolicyRound | source/WanManager/wanmgr_policy_pp_impl.c:739-784 | A round locks the active interface, processes the state and leaves the mutex depth as it found it, on every path |
| PrimaryPriority.PolicyThread | source/WanManager/wanmgr_policy_pp_impl.c:697-789 | The loop's history is a run of the specification and the mutex depth at its end is that at its start |
| FixedMode.FixingRoundExactly | source/WanManager/wanmgr_policy_fm_impl.c:192-213 | A FIXING round keeps one ACTIVE interface at the active index exactly when the selection did not move from one interface to another since the round before |
| FixedMode.OneFixedInSteadyRuns | source/WanManager/wanmgr_policy_fm_impl.c:192-320 | In every run of either fixed mode policy whose FIXING rounds are steady there is at most one ACTIVE interface, at the active index, and none at the end |
| FixedMode.AtMostOneFixed | source/WanManager/wanmgr_policy_fm_impl.c:192-320 | What steady runs keep, over the table: at most one interface is ACTIVE; while one is fixed it is the one at the active index; none while none is fixed and none at the end |
| FixedMode.FmRoundKeeps | source/WanManager/wanmgr_policy_fm_impl.c:215-320 | Every other state of both policies keeps the invariant unconditionally |
| FixedMode.TwoActiveAfterSwaps | source/WanManager/wanmgr_policy_fm_impl.c:204-209 | Concrete run of Fixed Mode, priorities swapping between rounds: two interfaces end up ACTIVE |
| FixedMode.FixedForGood | source/WanManager/wanmgr_policy_fmob_impl.c:164-266 | Fixed Mode On Bootup: once an interface is fixed activeInterfaceIdx keeps its value in every later round |
| FixedMode.FixInterface | source/WanManager/wanmgr_policy_fm_impl.c:110-129 | Marks the interface locked at the start of the round, not the one just selected |
| FixedMode.ChangeInterface | source/WanManager/wanmgr_policy_fm_impl.c:161-186 | Disables and deselects the locked interface and clears the index |
| FixedMode.FixingRound | source/WanManager/wanmgr_policy_fm_impl.c:192-213 | The FIXING round computes next state and controller of the specification and balances its locks |
| FixedMode.FixedDownRound | source/WanManager/wanmgr_policy_fm_impl.c:215-259 | The FIXED_DOWN round of both policies computes next state and controller of the specification and balances its locks |
| FixedMode.FixedUpRound | source/WanManager/wanmgr_policy_fmob_impl.c:218-240 | The FIXED_UP round of both policies computes next state and controller of the specification and balances its locks |
| FixedMode.FmTearingDownRound | source/WanManager/wanmgr_policy_fmob_impl.c:242-266 | The TEARING_DOWN round of both policies computes next state and controller of the specification and balances its locks |
| FixedMode.FmPolicyRound | source/WanManager/wanmgr_policy_fmob_impl.c:323-355 | A round of either policy leaves the mutex depth as it found it, on every path |
| FixedMode.FmPolicyThread | source/WanManager/wanmgr_policy_fmob_impl.c:272-361 | The loop of either policy is a run of the specification and balances the mutex |
| WanSystem.AtMostOneWanInterface | source/WanManager/wanmgr_policy_pp_impl.c:456-503 | Policy without standby, all interface machines, and everything else that writes the modelled fields (configuration, DHCP messages, prefix clears, management writes of the IPv4, IPv6 and MAP-T status, the policy's table), in any interleaving from boot: at most one interface is not DISABLED, hence at most one is in a leased state; at most one is ACTIVE; the secondary states are unreachable |
| WanSystem.ListedMissNothing | source/WanManager/wanmgr_data.c:180-203 | With discovery lists built at boot no action dereferences a missing entry, so every action on existing interfaces and threads is possible |
| WanSystem.HistoryIsSafe | source/WanManager/wanmgr_interface_sm.c:4020-4203 | Every reachable system state satisfies the system invariant: a busy interface has exactly one working thread, an idle one only threads about to end |
| WanSystem.ApplyKeeps | source/WanManager/wanmgr_interface_sm.c:1844-1886 | Every action of every thread keeps the system invariant |
| WanSystem.PolicyRoundKeeps | source/WanManager/wanmgr_policy_pp_impl.c:130-163 | A policy round starts a machine only when every interface is down |
| WanSystem.RoundStarts | source/WanManager/wanmgr_policy_pp_impl.c:130-163 | Without standby the only start is in a round in which all interfaces are DISABLED, and it starts the active index |
| WanSystem.LiveRoundKeeps | source/WanManager/wanmgr_interface_sm.c:2866-2880 | The working thread of an interface leaves it DISABLED exactly when it reaches EXIT |
| WanSystem.ExitRoundKeeps | source/WanManager/wanmgr_interface_sm.c:3949-3961 | The last round of an ended thread disturbs neither an idle interface nor a machine already started anew |
| WanSystem.StartedAgentIsOk | source/WanManager/wanmgr_interface_sm.c:1825-1886 | A started interface is busy with exactly one working thread |
| SentOptions.OptionTable.Add | source/WanManager/wanmgr_dhcpv6_apis.c:1106-1144 | A successful add appends to table, slots and file; the three copies agree afterwards exactly when the call named another client or memory was available |
| SentOptions.OptionTable.Delete | source/WanManager/wanmgr_dhcpv6_apis.c:1147-1204 | Removes exactly the first option with the instance number and keeps the order, or reports CANT_FIND; the copies agree |
| SentOptions.OptionTable.ShiftDown | source/WanManager/wanmgr_dhcpv6_apis.c:1175-1181 | Moves the later options and their slots one place forward |
| SentOptions.OptionTable.Set | source/WanManager/wanmgr_dhcpv6_apis.c:1207-1279 | Replaces the first option with the instance number, writing only differing fields and the file only when a line may differ; the copies agree |
| SentOptions.OptionTable.SetValues | source/WanManager/wanmgr_dhcpv6_apis.c:1048-1077 | Renames one option in table and slot; the file needs no rewriting |
| SentOptions.OptionTable.WriteFile | source/WanManager/wanmgr_dhcpv6_apis.c:943-963 | The file holds the enabled options in table order as tag, length and value |
| SentOptions.OptionTable.GetNumber | source/WanManager/wanmgr_dhcpv6_apis.c:915-937 | The stored count, with fresh memory for as many options |
| SentOptions.OptionTable.GetOption | source/WanManager/wanmgr_dhcpv6_apis.c:966-1019 | Reads one option back from its slot; the last one rewrites the file |
| SentOptions.OptionTable.WhatAgrees | source/WanManager/wanmgr_dhcpv6_apis.c:1106-1204 | What every operation keeps: the counts, the slots and the file are those of the same options in the same order |
| SentOptions.OptionTable.Reload | source/WanManager/wanmgr_dhcpv6_apis.c:915-1019 | Reading everything back after a restart reproduces the same table and file |
| SentOptions.EnabledHasLine | source/WanManager/wanmgr_dhcpv6_apis.c:943-963 | There are as many lines as enabled options; each enabled option has its line behind those of earlier ones, with its tag, half the digits of its value as length, and the value |
| SentOptions.WithoutAt | source/WanManager/wanmgr_dhcpv6_apis.c:1175-1181 | One option is left out and the others keep their order |
| SentOptions.LinesWithoutDisabled | source/WanManager/wanmgr_dhcpv6_apis.c:1196-1201 | Deleting a disabled option does not change what the file should hold, so skipping the rewrite is right |
| SentOptions.LinesOfUpdate | source/WanManager/wanmgr_dhcpv6_apis.c:1233-1262 | A change that leaves an option's line alone does not change what the file should hold |
| AddressList.SetIpaddr | source/WanManager/wanmgr_dhcpv4_internal.c:1837-1907 | The parser succeeds exactly on texts with a meaning; then every place holds the address of its entry, or zero behind the entries; it leaves the text unchanged and touches nothing on failure |
| AddressList.MeaningByEntries | source/WanManager/wanmgr_dhcpv4_internal.c:1837-1907 | A text has a meaning exactly when it has few enough entries, every entry before the last is an address and the last is one or too short to be one; the meaning is the addresses of the entries, and zero behind them |
| AddressList.Scan | source/WanManager/wanmgr_dhcpv4_internal.c:1854-1880 | The scan finds the good entries before the last comma, or an unusable entry, or as many as fit |
| AddressList.Token | source/WanManager/wanmgr_dhcpv4_internal.c:1856-1870 | The comma is overwritten for the conversion and put back |
| AddressList.LastMeaning | source/WanManager/wanmgr_dhcpv4_internal.c:1882-1898 | A last entry of at least seven characters is converted, one of two to six is an error, a shorter one is none |
| AddressList.Spoiled | source/WanManager/wanmgr_dhcpv4_internal.c:1856-1880 | An unusable entry before a comma, or a comma after the last possible entry, makes the whole text meaningless |
| AddressList.GetIpaddrString | source/WanManager/wanmgr_dhcpv4_internal.c:1910-1949 | The printer succeeds exactly when more than 15 characters remain after everything it prints; the buffer then holds the addresses before the first zero, joined by commas; otherwise the needed length is reported |
| AddressList.PrintAll | source/WanManager/wanmgr_dhcpv4_internal.c:1925-1934 | The loop stops after the last used address or when at most 15 characters remain |
| AddressList.ReadPrinted | source/WanManager/wanmgr_dhcpv4_internal.c:1856-1932 | inet_addr reads back what inet_ntoa wrote, for every 32-bit address |
| AddressList.MeaningOfQuads | source/WanManager/wanmgr_dhcpv4_internal.c:1854-1898 | A list of dotted quads means their numbers when all of them parse, and nothing otherwise |
| AddressList.ParsePrinted | source/WanManager/wanmgr_dhcpv4_internal.c:1836-1949 | Parsing what the printer wrote gives the addresses before the first zero back, padded with zeros, exactly when none of them is 255.255.255.255 |
| AddressList.WriteBack | source/WanManager/wanmgr_dhcpv4_internal.c:1836-1949 | Printer and parser in sequence, in place: the addresses return exactly when the buffer had room and none of them is 255.255.255.255; the whole list then returns exactly when nothing but zeros follows its first zero; otherwise the array is untouched |
| AddressList.PaddedIsWhole | source/WanManager/wanmgr_dhcpv4_internal.c:1899-1905 | Filling up with zeros restores a list exactly when only zeros follow its used addresses |
| AddressList.SplitOfJoin | source/WanManager/wanmgr_dhcpv4_internal.c:1836-1949 | Splitting the printed text at its commas gives back the printed entries |

## Left out

- PPP and Cellular lease fetching: IPCPStateChangeHandler fills an empty IPv4 mailbox from within the drain and writes the PPP status, and Cellular updates hand a lease to the same handler; `Offer4` and `Configure` stand for them, except that the last round of an ended machine takes no such message here.
- Voice manager, publishing, telemetry, MTU, DNS files, routes, firewall and LAN commands: they do not change the modelled fields; their results appear as answers where a branch depends on them.
- The IPv6 router-advertisement record and the connectivity status: written but read by no modelled branch.
- Standby in the system model: `WanSystem` composes the policy without standby only; with standby two interfaces are meant to be up.
- Thread creation: starting a machine is one step with the policy round that starts it; a failing creation is not modelled.
- The fixed mode policies in the system model: their FIXED_DOWN state writes DISABLED into a running interface, so the system property does not carry over.
- Mapt.CalculatePsidAndV4Index: covers embedded addresses of up to 24 bits, or 32 when the rule prefix ends at a byte, which is where the 32-bit argument of the extraction holds the whole window; longer ones are truncated by the source.
- Mapt.VerifyMaptConfiguration: the rule's IPv4 prefix is a number; the source does not check whether its text parses.
- PortSets.CalculatePortRanges: the ranges are a list; the text buffer and its size are not modelled.
- AddressList.GetIpaddrString: asks for one readable character behind the stated length, because the source measures a string that may end there; the source also reads one array element past a full array before it tests the bound, the model tests first.
- AddressList.SetIpaddr: inet_addr is a parameter, any function from text to number; ReadQuad, with which the round trip is stated, reads four decimal octets and none of the shorter, octal or hexadecimal forms.
- SentOptions.OptionTable.Add: string buffers, sysevent commits and the client restart are not modelled; slots left behind by a delete are, as leftover entries beyond the count.
- WanSystem.AtMostOneWanInterface: the number of interfaces does not change during a history.
- Bounded text buffers everywhere: texts are sequences of characters.
- AutoWAN, parallel-scan and failover policies, start-up wiring, the DHCP registry tree, wanmgr_dhcp_legacy_apis.c: not part of this model.
