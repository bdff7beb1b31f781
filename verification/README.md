# Group membership and failure detection, modelled and proved in Dafny

This project models a heartbeat and SWIM-style membership protocol: nodes keep a table of
members, exchange it by ping/ack or gossip, suspect and fail members that fall silent, refute
accusations by raising an incarnation number, and leave on request. It proves what the protocol
guarantees over every run, under message loss, duplication, reordering and delay.

`dafny verify dfyconfig.toml` checks everything.

## How the model is built

| file | content |
|---|---|
| `Identity.dfy` | endpoints, node identities, their text and binary codecs |
| `Membership.dfy`, `MergeLaws.dfy` | the table as a value, conflict resolution, laws of the merge |
| `Store.dfy` | the store object, a text-keyed table updated in place, proved against `Membership` |
| `Scanner.dfy`, `Manager.dfy` | the timed detector as a value, and the object whose loop refines it |
| `Settings.dfy` | the versioned configuration, its wire form, the protocol loops and what they run with |
| `Cluster.dfy` | running nodes, every message ever sent, one clock: the state machine and its runs |
| `Claims.dfy` | provenance: where the claims of a state come from in the state before it |
| `Rooting.dfy` | what holds in every valid run: own rows, dated claims, boots over time |
| `Safety.dfy`, `Overwrites.dfy`, `SafetyRuns.dfy` | own-entry safety, incarnation authority, refutation accounting; the one step that breaks them |
| `Timing.dfy` | evidence behind accusations, completeness with a time bound, no early forgetting |
| `Departure.dfy` | leaving is final |
| `Agreement.dfy` | the configuration as replicated state |
| `Joining.dfy` | what a join achieves |
| `Interleaving.dfy` | runs that show what split scans put at risk |
| `Effects.dfy` | what each step does, said over the states before and after it alone |
| `Fanout.dfy`, `Looping.dfy` | whom a tick contacts; which configuration the loops of a node run with |
| `Daemon.dfy` | the daemon and its loop objects; its methods do to them what the cluster steps do to one node |

The main proofs share one argument. A *claim* is an entry in any table, message or scan in
progress. `Claims.StepClaims` says, for all steps at once, that a predicate on entries carries over
to every claim of the next state if it holds of the own rows the acting nodes show, survives the
restamping of a newer boot's row, and survives the marks of a scan. Authority, evidence,
completeness and the finality of leaving are instances of it.

Names: `Resolve` and `Update` are what hearing one entry does, `Merge` a whole list, `Refresh` what
taking a snapshot does to the own row, `Judge` the verdict of a scan on one row, an *item* a row of a
split scan on which the verdict, reached on the snapshot, is acted on later.

Nodes reboot and scans are not atomic. What each result over runs asks of the run:

| results | run |
|---|---|
| configurations (`Agreement`), loops and fan-out (`Looping`), joins (`Joining`), forgetting of rows (`Timing.NoRowForgottenEarly`), own rows as such (`Rooting.RunBase`) | any valid run |
| own entries, incarnations, refutations (`SafetyRuns`) | any valid run, as long as no item writes a stale incarnation over the row of a newer boot (`Unspoilt`); `SafetyRuns.InvOverRun` says that this is exact |
| leaving (`Departure`) | the same, suspicion on everywhere, as long as no item marks a row of the leaver at the leave's incarnation or above; `Departure.LeaveOverRun` says that this is exact |
| an accepted leave in one table (`Departure.AcceptedLeaveStays`) | the same, and exactly as long as no item there marks the row on a snapshot of a lower incarnation |
| completeness (`Timing.StrongCompleteness`, `Timing.ItemCompleteness`) | one boot per endpoint, unchanged timers; scans atomic or split |
| evidence (`Timing.EvidenceOverRun`, `Timing.NoAccusationWithoutEvidence`) | one boot per endpoint, unchanged timers, and exactly as long as no item marks a row refreshed since its snapshot |

The first two provisos hold of every run with one boot per endpoint, of every run with atomic scans
(`SafetyRuns.CoveredUnspoilt`), and of every run whose marking items find the boot of their snapshot
in the table, which a scanning node could check (`SafetyRuns.SameBootsUnspoilt`,
`Departure.SameBootsKeepLeave`). The code does not check it, and `Interleaving.dfy` has a run for each
proviso that breaks it: `StaleVerdict` (authority, then own-entry safety), `LeaveReinstated` (a leave
undone by the verdict on an earlier boot), `LeaveUndone` (an accepted leave undone and an accusation
without evidence, with one boot per endpoint). In these runs messages go only from a node that has a
peer to a node in its table.

Assumptions the model makes:

- One shared clock that does not go backwards, in place of wall clocks. The merge laws, own-row
  accounting of a single merge and the configuration results do not depend on it.
- Incarnations and versions are unbounded. Boot timestamps are 64-bit, and a reboot of an endpoint
  gets a strictly larger one. An endpoint hosts at most one running process.
- Within one atomic step the clock reads the same throughout.
- Receiving a message, a join exchange (answered, or with its answer lost) and a leave request are
  atomic. A scan is atomic, or split into its snapshot and its rows, each its own step, with
  anything in between.
- Any node may receive any message ever sent, to whomever it was addressed.
- IPv4 parsing follows Go's `net/netip`: four dotted octets without leading zeros.

Where the comments and the code of the repository differ, the model follows the code:

- The documented state precedence at equal incarnation (src/pkg/store/membership.go:178-180) is not
  implemented; `MergeLaws.StatePrecedence` says exactly when the documented winner comes out.
- With suspicion off a scan can turn a leave into a failure; `Scanner.LeaveBecomesFailure` and
  `Scanner.MissedTicks` say exactly when, and when it matters.
- The row of a newer boot is restamped with the receiver's time; `Timing.RestampedEvidence` says
  what that costs.
- After joining, a node starts the loop of the configuration it was booted with rather than of the
  one it adopted, and the loop it had started for the adopted one is neither stopped nor retuned if
  it is of the same kind; `Looping.StartsStaleLoop` says exactly what is left running, and
  `Looping.LiveFanout` how long that matters.

## Model

| member | source | states |
|---|---|---|
| SafetyRuns.OwnEntrySafety | src/pkg/store/membership.go:278-348 | in every state of a valid run, with reboots, split scans and any mix of suspicion on and off, before any item of a split scan has overwritten a newer boot's row, a running node's table holds its own row under its own identity, Alive or Left |
| SafetyRuns.InvOverRun | src/pkg/suspicion/manager.go:72-122 | that proviso is exact: the joint invariant of tables, messages and scans in progress holds throughout a valid run if and only if there is no such overwrite |
| SafetyRuns.CoveredUnspoilt | src/pkg/suspicion/manager.go:72-122 | with one boot per endpoint, or with atomic scans, there never is one |
| SafetyRuns.SameBootsUnspoilt | src/pkg/suspicion/manager.go:89-121 | nor if every marking item finds the boot of its snapshot in the table |
| Rooting.RunBase | src/pkg/store/membership.go:286-347 | in every valid run, overwrites included, each node holds its own row under its own identity, and every claim names a boot that happened and is not from the future |
| SafetyRuns.IncarnationAuthority | src/pkg/store/membership.go:299-338 | and, likewise, no claim in any table, message or scan in progress carries a higher incarnation for a running boot than that boot's own row |
| SafetyRuns.IncarnationGrows | src/pkg/store/membership.go:250-260 | a boot's own incarnation never decreases while it runs |
| SafetyRuns.RefutationAccounting | src/pkg/store/membership.go:305-309 | a running boot's incarnation is 100 plus its refutations, each of an accusation at exactly its incarnation of the time, plus its leave requests |
| SafetyRuns.AccusationSpent | src/pkg/store/membership.go:300-309 | a refuted accusation stays below the boot's incarnation ever after, so its repeated delivery makes the boot refute at most once |
| Safety.StepOwn | src/pkg/store/membership.go:278-348 | over one step of any kind the own row keeps its identity, is never accused, is raised by exactly one per refutation and one per leave request, and stays Left once Left |
| Safety.ReceivedOwn | src/pkg/protocol/pingack/loop.go:103-153 | configuration first, then the Left check, the stamp and the merge: the own row comes out refuted once or untouched |
| Safety.GreetedOwn | src/pkg/daemon/daemon.go:436-462 | the introducer's merge, which is not preceded by a stamp, leaves its own row alone because a request says nothing about it |
| Overwriting.InvStep | src/pkg/suspicion/manager.go:72-122 | every step keeps the joint invariant but an overwrite, and every overwrite breaks it |
| Overwriting.ItemKeepsAuthority | src/pkg/suspicion/manager.go:101-120 | an item of a split scan keeps incarnation authority exactly when it does not write a stale higher incarnation over a running boot |
| Overwriting.OverwriteCrossesBoots | src/pkg/suspicion/manager.go:73-89 | an overwrite needs the table to have moved on to a newer boot than the snapshot shows |
| Claims.StepClaims | src/pkg/store/membership.go:187-359 | provenance of claims: no step invents one beyond own rows, restamped rows of newer boots and marks of scans |
| Claims.GreetedClaims | src/pkg/daemon/daemon.go:436-462 | what an introducer holds and answers after merging a request comes from its table, the joiner's row, or a restamped row |
| Membership.MergeProvenance | src/pkg/store/membership.go:278-359 | outside the own row, each row after a merge is an old row, an incoming entry, or an incoming entry restamped for replacing an older boot |
| Membership.MergeSelf | src/pkg/store/membership.go:305-325 | the own row after a merge, exactly: refuted once if the list accuses it at its incarnation while suspicion is on, else unchanged |
| Membership.MergeElsewhere | src/pkg/store/membership.go:285-286 | a merge touches only endpoints its list mentions |
| Membership.MergeAppend | src/pkg/store/membership.go:351-359 | merging two lists in turn is merging their concatenation |
| MergeLaws.VersionAccounting | src/pkg/store/membership.go:278-359 | the version grows by exactly the number of effective updates and stands still if and only if the table does |
| MergeLaws.MergeRaisesRank | src/pkg/store/membership.go:286-347 | a merge loses no endpoint and no rank (boot, incarnation while suspicion is on, last update); a changed row has strictly gained |
| MergeLaws.MergeIdempotent | src/pkg/store/membership.go:351-359 | merging the same list again at any time changes neither table nor version, with duplicates, several boots and refuted accusations in it |
| MergeLaws.EpochConverges | src/pkg/store/membership.go:286-325 | with suspicion on, a peer's boot and incarnation after any sequence of merges are the lexicographic maximum of all that was heard |
| MergeLaws.RankConverges | src/pkg/store/membership.go:297-338 | if all that is heard of a peer is from one boot, its whole rank is the maximum heard, in either regime |
| MergeLaws.SameNewsSameEpoch | src/pkg/store/membership.go:351-359 | two stores that heard the same about a peer, in any order, batching and multiplicity, agree on boot and incarnation |
| MergeLaws.SameNewsSameRank | src/pkg/store/membership.go:351-359 | and on the whole rank if it comes from one boot |
| MergeLaws.HearsOne | src/pkg/store/membership.go:278-348 | what hearing one claim does to the table, case by case, in either regime |
| MergeLaws.NewerBootRestamped | src/pkg/store/membership.go:237-244 | the row of a newer boot replaces the old one as it is but stamped with the receiver's time, whatever its state |
| MergeLaws.RefutationWins | src/pkg/store/membership.go:250-260 | a refutation replaces every older or equal claim about the boot and is replaced by none of them |
| MergeLaws.StatePrecedence | src/pkg/store/membership.go:176-185 | the documented state precedence comes out exactly when the states are the same, or the incoming claim is strictly more recent exactly when it is strictly more severe |
| MergeLaws.StateDoesNotConverge | src/pkg/store/membership.go:311-321 | in either regime, of an Alive row and the Suspect row a scan makes of it, and of a leave and the failure a scan with suspicion off makes of it, the first to arrive is kept |
| MembershipStore.Store.constructor | src/pkg/store/membership.go:66-87 | a new store holds the own row, Alive at incarnation 100, version 1 |
| MembershipStore.Store.Snapshot | src/pkg/store/membership.go:124-137 | stamps the own row unless Left and lists every row once, in whatever order the map is walked |
| MembershipStore.Store.ApplyLocked | src/pkg/store/membership.go:187-220 | overwrites state and incarnation of an existing row, stamping it only for Alive and Left |
| MembershipStore.Store.RemoveEntry | src/pkg/store/membership.go:223-233 | removes the row of the endpoint, if any, and counts it |
| MembershipStore.Store.SelfBumpIncarnation | src/pkg/store/membership.go:250-260 | the own row moves to the next incarnation, Alive, stamped |
| MembershipStore.Store.UpdateMemberEntry | src/pkg/store/membership.go:278-348 | the branches of conflict resolution compute the rank-raising update |
| MembershipStore.Store.MergeFullList | src/pkg/store/membership.go:351-359 | the loop computes the merge the laws are about |
| MembershipStore.TextLookup | src/pkg/store/membership.go:58 | looking an endpoint up by its text finds its row and no other |
| MembershipStore.TextUpdate | src/pkg/store/membership.go:341-344 | writing under the text key is writing under the endpoint |
| Effects.ScanMarks | src/pkg/suspicion/manager.go:101-120 | over a scan step of a valid run: with suspicion on exactly the Alive peer rows between the timeouts become Suspect and exactly the Alive and Suspect ones past both Failed; with it off every row past the one timeout Failed; nothing else about a row changes |
| Effects.SplitScanRefines | src/pkg/suspicion/manager.go:73-121 | a split scan whose items are not disturbed leaves the node exactly as a scan in one step |
| Effects.ScanEnds | src/pkg/suspicion/manager.go:75-85 | a scan of a node that has left ends it if and only if the leave is as old as the cleanup time, and otherwise does nothing; any other node survives |
| Effects.GoneAfterCleanup | src/pkg/suspicion/manager.go:77-84 | over runs, a boot last asked to leave at time c is ended by its own scans exactly from c plus the cleanup time on |
| Effects.RebootSpared | src/pkg/store/membership.go:237-244 | a rebooted node's row is not marked before a timeout has passed since it was heard of |
| Scanner.ScanLoopRefines | src/pkg/suspicion/manager.go:89-121 | processing a snapshot row by row, in any order, leaves exactly the pointwise swept table and version |
| Scanner.MissedTicks | src/pkg/suspicion/manager.go:72-122 | scanning at t1 and then t2 leaves what scanning at t2 alone would, exactly when no peer row is a leave caught in one time window, and always with suspicion on |
| Scanner.MissedTickRow | src/pkg/suspicion/manager.go:101-120 | the same for one row, as an equivalence |
| Scanner.ScanIdempotent | src/pkg/suspicion/manager.go:72-122 | scanning again at the same moment changes nothing, the version included |
| Scanner.SweepFrame | src/pkg/suspicion/manager.go:97-120 | a scan changes no boot, incarnation or timestamp, adds no row, and leaves the own row alone |
| Scanner.LeaveBecomesFailure | src/pkg/suspicion/manager.go:112-119 | a leave is rewritten into a failure exactly with suspicion off and an age between the failure and cleanup timeouts |
| SuspicionManager.Manager.ScanRow | src/pkg/suspicion/manager.go:90-120 | the branches of the loop body carry out the verdict on one row |
| SuspicionManager.Manager.ScanPass | src/pkg/suspicion/manager.go:72-122 | the whole pass: exit, wait or sweep |
| Timing.NoAccusationWithoutEvidence | src/pkg/suspicion/manager.go:101-120 | with one boot per endpoint and unchanged timers, every Suspect or Failed claim anywhere is as old as the timers demand, counted from its own timestamp, if scans are atomic or no split one has marked a row refreshed since its snapshot |
| Timing.EvidenceOverRun | src/pkg/suspicion/manager.go:72-122 | that proviso is exact: all claims of a run are backed throughout if and only if no item of a split scan marks a row whose own timestamp does not warrant it |
| Timing.StrongCompleteness | src/pkg/suspicion/manager.go:89-121 | after a node's last step at time c, any scan at c+TSuspect+TFail or later leaves it Failed, Left or absent, and any at c+TSuspect+TFail+TCleanup or later absent, whatever stale entries arrive and however other scans are split |
| Timing.ItemCompleteness | src/pkg/suspicion/manager.go:89-121 | the same for a split scan, at its item about the silent node, whatever the table holds by then |
| Timing.NoRowForgottenEarly | src/pkg/suspicion/manager.go:92-115 | in every valid run a row disappears exactly when it is a peer's and a scan finds it past all three timeouts or past the cleanup time of a leave, or an item of a split scan found it so in its snapshot |
| Timing.RestampedEvidence | src/pkg/store/membership.go:237-244 | the restamped row of a newer boot stays backed exactly when it accuses nobody |
| Effects.LeaveEffect | src/pkg/daemon/daemon.go:278-287 | a request to leave, repeated ones too, makes the own row Left at the next incarnation, stamped now, and changes nothing else |
| Departure.LeaveIsFinal | src/pkg/daemon/daemon.go:278-287 | with suspicion on, after a leave at incarnation k every claim about that boot at k or above is Left, anywhere, through crashes, reboots and split scans, as long as no item marks a row of that boot at k or above |
| Departure.LeaveOverRun | src/pkg/suspicion/manager.go:101-111 | that proviso is exact |
| Departure.SameBootsKeepLeave | src/pkg/suspicion/manager.go:89-111 | it holds if every marking item finds the boot of its snapshot in the table, so with one boot per endpoint or atomic scans |
| Departure.AcceptedLeaveStays | src/pkg/store/membership.go:299-325 | a table that has accepted the leave keeps it until the row is removed or a newer boot replaces it: always if scans are atomic, and otherwise exactly as long as no split scan marks the row on a snapshot of a lower incarnation |
| Departure.StepSucceeds | src/pkg/store/membership.go:286-347 | with suspicion on a step takes a row back to an older boot or a lower incarnation exactly when it is an item of a split scan that marks a row whose incarnation has risen since the snapshot |
| Effects.ReceiveTakesUp | src/pkg/protocol/pingack/loop.go:103-106 | a received configuration is taken up, by knobs, timers and store alike, if and only if it is well formed and strictly newer, also by a node that has left |
| Effects.NeverBehind | src/pkg/daemon/daemon.go:206-218 | so a node that has received a well-formed copy is never behind its version again |
| Effects.JoinTakesUp | src/pkg/daemon/daemon.go:495-508 | likewise the joiner the introducer's configuration, and the introducer nothing |
| Effects.AdminTakesUp | src/pkg/config/config.go:337-342 | an administrator's change is taken up if and only if well formed, under its own version if newer and the next one if not |
| Effects.ReceiveHears | src/pkg/protocol/pingack/loop.go:111-153 | a node that has left hears and answers nothing; any other knows every boot in the message afterwards, and answers only pings, with their nonce |
| Effects.BootEffect | src/pkg/daemon/daemon.go:56-115 | a process starts with its own row only, under its own configuration, and an introducer serves at once |
| Agreement.ConfigAgreement | src/pkg/daemon/daemon.go:195-218 | with one writer and equal first configurations, two copies of one version, live, cached or in flight, are the same, and none is newer than the writer's |
| Agreement.LiveConfigsAgree | src/pkg/config/config.go:218-299 | two running nodes at the same version have the same knobs and run with the same timers |
| Agreement.VersionsGrow | src/pkg/config/config.go:221-225 | a node's version never decreases while it runs |
| Agreement.StepDtos | src/pkg/daemon/daemon.go:117-218 | no step brings in a copy of a configuration that was not there or written by a boot or an administrator |
| Agreement.TimersAreFixed | src/pkg/daemon/daemon.go:180-192 | if every configuration written has the same timers, every node's detector, and every scan in progress, runs with them |
| Settings.LiveConfig.ApplyDto | src/pkg/config/config.go:218-299 | all or nothing: adopted, field by field, exactly when strictly newer and well formed, otherwise untouched, with the first complaint |
| Settings.FirstComplaint | src/pkg/config/config.go:230-299 | the complaint is about the first fault in the order in which the fields are checked |
| Settings.LiveConfig.BumpAndApplyLocal | src/pkg/config/config.go:337-342 | a local change is adopted, field by field, exactly when well formed, under its own version if newer and the next one if not |
| Settings.ChangesKeep | src/pkg/config/config.go:120-153 | every sequence of remote and local changes keeps validity, the bootstrap part and version order, and knobs change only with the version |
| Settings.DtoRoundTrip | src/pkg/config/config.go:201-214 | a valid configuration is always well formed on the wire, and is forwarded exactly as adopted |
| Settings.RuntimeIsCurrent | src/pkg/daemon/daemon.go:156-202 | after a change exactly one loop is live, of the new mode, running with and carrying the new configuration; a change that keeps a live loop's mode retires none, any other what was live |
| Looping.StartsStaleLoop | src/pkg/daemon/daemon.go:96-109 | after an answered join the one live loop runs with the booted configuration, mode, fan-out and copy, and the loop of the adopted one, if any, is retired as it is |
| Looping.StaleFanout | src/pkg/protocol/pingack/loop.go:174-194 | booted with ping fan-out 1 and adopting 3, with four peers, the live loop pings one while the retired one goes on pinging three |
| Looping.LiveLoop | src/pkg/daemon/daemon.go:156-202 | in every reachable state a started node has exactly one live loop, running with the live configuration if that has changed since the start and with the booted one if not |
| Looping.ChangeRetires | src/pkg/daemon/daemon.go:156-202 | over runs, a change at a started node keeps its live loop exactly if it keeps the mode and the loop is of that mode, and otherwise retires it with what it ran with |
| Looping.SentMessages | src/pkg/protocol/pingack/loop.go:174-198 | a message lists every row of its sender once, the own one stamped unless Left, and carries a configuration of that protocol which the sender has held |
| Looping.LiveFanout | src/pkg/protocol/pingack/loop.go:239-246 | so its fan-out is the live configuration's exactly when a change has been accepted since the start, or booted and adopted fan-out agree |
| Joining.JoinIntroduces | src/pkg/daemon/daemon.go:436-517 | in every valid run, after an answered join joiner and introducer each hold a row for the other's running boot |
| Interleaving.StaleVerdict | src/pkg/store/membership.go:187-220 | a run, with a reboot and a rejoin during a split scan, in which a row claims a higher incarnation for a boot than that boot has, and then that boot's own row is Failed |
| Interleaving.LeaveReinstated | src/pkg/store/membership.go:187-220 | a run without overwrite, suspicion on, in which the verdict on an earlier boot turns the leave of a later one into a suspicion |
| Interleaving.LeaveUndone | src/pkg/store/membership.go:187-220 | a run with one boot per endpoint, suspicion on and unchanged timers, in which a split scan turns an accepted leave into a failure at a lower incarnation, without evidence |
| Fanout.ResolvePeers | src/pkg/protocol/common/peers.go:41-52 | the loop lists every row but the own one |
| Fanout.SelectTargets | src/pkg/protocol/pingack/loop.go:186-194 | the first peers of a permutation: as many as the fan-out says, or all |
| Fanout.TargetsAreGood | src/pkg/protocol/gossip/loop.go:139-165 | the targets are as many as the fan-out says, and every other member if that is not fewer; pairwise distinct, in the table, never the node itself |
| Looping.FanoutReachesPeers | src/pkg/protocol/gossip/loop.go:132-165 | so in every state of every valid run, for every loop of the node and with that loop's own fan-out, which is positive and from a configuration the node booted with or has adopted, for any snapshot order and permutation |
| Identity.TextRoundTrip | src/pkg/node/nodeid.go:84-103 | printing then parsing an identity over an IPv4 endpoint returns it |
| Identity.TextCanonical | src/pkg/node/nodeid.go:26-41 | a text that parses prints back as it was written exactly when port and timestamp have no superfluous leading zero |
| Identity.EndpointKeyInjective | src/pkg/node/nodeid.go:37-41 | no two endpoints have the same text, zero endpoints included |
| Identity.MarshalBinary | src/pkg/node/nodeid.go:119-129 | the buffer is filled with the 14-byte big-endian layout; the zero endpoint is refused |
| Identity.TextForm | src/pkg/node/nodeid.go:84-86 | the text form of one identity, literally |
| Identity.BinaryForm | src/pkg/node/nodeid.go:119-129 | the binary form of identities, literally |
| Identity.BinaryRoundTrip | src/pkg/node/nodeid.go:119-144 | decoding inverts encoding whatever follows in the buffer |
| Identity.DecodeEncodes | src/pkg/node/nodeid.go:132-144 | decoding fails exactly on fewer than 14 bytes, and re-encoding gives the first 14 back |
| NodeDaemon.Daemon.OnMessage | src/pkg/protocol/pingack/loop.go:103-153 | one message, taken by any loop of the daemon: what the cluster step does to the node; ping loops, and only they, acknowledge pings, with their own copy of the configuration |
| NodeDaemon.Daemon.OnConfigFromWire | src/pkg/daemon/daemon.go:206-218 | an accepted configuration reaches the live copy, the detector, the store and the loops together |
| NodeDaemon.Daemon.PushRuntime | src/pkg/daemon/daemon.go:156-202 | restarts the protocol if needed, retunes detector and store, refreshes cached copies |
| NodeDaemon.Daemon.Set | src/pkg/daemon/daemon.go:253-276 | an administrator's change is renumbered, checked and pushed |
| NodeDaemon.Daemon.LeaveGroup | src/pkg/daemon/daemon.go:278-287 | the own row, and only it, moves to the next incarnation, Left |
| NodeDaemon.Daemon.HandleJoin | src/pkg/daemon/daemon.go:436-462 | merge, snapshot, answer with the live configuration |
| NodeDaemon.Daemon.FinishJoin | src/pkg/daemon/daemon.go:495-513 | adopt the configuration, merge the list, start the protocol |
| NodeDaemon.Daemon.Announce | src/pkg/protocol/gossip/loop.go:139-165 | one tick of a loop: messages that the cluster's send step admits, with the loop's own copy, to good targets for the loop's own fan-out |
| NodeDaemon.Daemon.Tick | src/pkg/suspicion/manager.go:44-55 | one detector tick with the timers in force |

## Left out

- The in-flight ping table and its reaper: the detector's instance is never filled, because the ping loop creates its own (src/pkg/daemon/daemon.go:82, src/pkg/protocol/pingack/loop.go:44), so in the running system it marks nobody.
- Sockets, HTTP and JSON decoding, DNS, flags, logging, colours, byte and failure counters, shell scripts: input and output only.
- Locks and goroutines as such: steps of the cluster replace them. The store's rows are held by value where the source holds pointers that it never shares between keys.
- Printing and parsing of durations: a wire duration is absent, malformed or a number of nanoseconds.
- Wrap-around of 64-bit incarnations and store versions.
- Random drops and permutations: a message may always be lost, and a permutation is arbitrary.
- `UnmarshalBinary`, `UnmarshalText`: modelled as the values they return (`Decode`, `ParseNodeId`), not as overwriting a receiver.
- `Compare`, `Validate`, `compareAddr`, `SetSelfState`, `Get`, `Size` and the print helpers: read-only or unused by the protocol.
- IPv6 texts: every text that is not a dotted IPv4 endpoint is one and the same parse error.
- IPv4-mapped IPv6 addresses: the start-up code (src/pkg/daemon/daemon.go:42-54) does not unmap what resolution returns, so a literal address can become `::ffff:a.b.c.d`, whose text does not parse back; the model has no such address.
- Evidence and completeness bounds under reboots: not kept by the code; the results assume one boot per endpoint, because the row of a newer boot is restamped.
- Finality of leaving with suspicion disabled: not kept by the code; the result assumes suspicion enabled everywhere, because otherwise a leave can become a failure.
- Which retired loops are stopped and which go on for good: both kinds may still send, with what they last ran with.
- Ticker periods and receive drop rates of loops: a tick or a drop may happen at any time.
