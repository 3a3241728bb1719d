# OpenRung client protocols in Dafny

A model of the concurrent protocols and policies in OpenRung's client, with proofs of what they
keep over every run. I/O, clocks, random picks and network results are parameters: a theorem about
a call holds for every way the outside world can answer.

| files | what they model |
|---|---|
| `Engine`, `EngineTheorems`, `FlowTheorems`, `NetworkEpochs` | user calls, flow goroutines and network callbacks as one step machine: status history and network epochs, over every interleaving |
| `SettingSnapshot`, `SettingSession` | the write-ahead snapshot of the OS proxy and OS DNS, with a crash possible at every persistent state; first as trails, then statement by statement |
| `BrokerRace`, `BrokerDiscovery`, `BrokerProgress`, `BrokerExhaustion` | the staggered two-phase race over broker fronts, that it ends, that it fails only when everyone refused, and how it is cancelled |
| `RateLimiter` | the reflector's per-IP token bucket and its garbage collection |
| `FakeIp`, `FakeIpRuns` | the fake-IP cache's run record: one call, file operation by file operation, then any number of processes, crashes and power losses |
| `PunchBreaker` | the punch recovery circuit breaker and its backoff |
| `Ladder`, `Ranker` | address-family adaptation, latency ranking and demotion of relay candidates |
| `Lease` | per-user relay access: which credential a promoted relay carries |
| `AccessToken`, `LeaseRenewal` | which broker a cached access token goes to, the retries of one access request, and the renewer of a lease |
| `TicketLadder` | the WSS ticket request ladder under its deadline |
| `IdleGuard` | the generation-guarded idle timer |
| `WebSocketStream` | binary WebSocket messages as one byte stream (section 5.6 of RFC 6455) |
| `PunchWire` | the probe and reflector datagrams |
| `FrontUrl`, `Fronts`, `Text` | canonical front IDs, URLs and front sets |
| `Prelude` | the types they share |

Protocols whose theorems range over interleavings or crash points are total step functions on
values: an event that is not enabled changes nothing, `Exec` runs any list of events, and a theorem
speaks of every list. Code that updates an object or fills a list in a loop is a class or a method
with a loop, proved against a specification.

## Where the code and its documentation differ

The code is followed in each case.

- **OS proxy.** A failed `Set` followed by a good restore clears the persisted slot but keeps the
  connection's snapshot, so a later promotion calls `Set` before it saves again. A crash in between
  loses the user's proxy (`HoleLosesTheUsersProxy`). One call keeps the write-ahead rule for every
  outcome exactly when this is not the case (`ProxyAheadIffSaved`), and the unsaved state arises
  from exactly that failed, undone `Set` (`UnsavedIffUndone`). Every run without one is safe
  (`WriteAheadUnlessUndone`), and the DNS path always is (`DnsWriteAheadAlways`).
- **One flow at a time.** A `Connect` that follows the old flow's `clearConn` does not wait for that
  flow's `close(done)` (`NewFlowBesideOld`), so "live" means not past `clearConn` (`AtMostOneFlow`).
- **Idle guard.** `onExpire` is called after the lock is released, so it can run after `Close` has
  returned (`CloseCanOvertakeTheCall`): exactly when the expiry was committed before
  (`CallAfterCloseIffOwed`).
- **Breaker defaults.** An initial backoff above the default cap, given no fitting cap, stays above
  the cap (`DefaultsOrderBackoffsIff`), as a minute does (`InitialAboveCap`).
- **Odd backoff caps.** The nominal delay is one unit above the saturated doubling exactly when
  doubling would stop one short of the cap (`NominalIsSaturatedDoubling`), as from 3 under a cap of 7
  (`OddCapOvershoots`).
- **Fake-IP record.** An error of begin does not mean that nothing was recorded: the new record is in
  place despite an error exactly when only the directory sync failed (`RecordedDespiteErrorIff`,
  `ErrorAfterReplacing`). The process that got this error opens nothing, but the next begin gives up
  its block, and with it a good cache (`FailedBeginGivesUpABlock`).
- **Unsynced fake-IP record.** Where the directory cannot be synced (on Windows, or when it cannot be
  opened) begin reports success all the same. A power loss in the run can then have the next begin
  choose its block again, and with a synced directory it cannot (`SameBlockAgainIffSkipped`). What the
  record promises holds of every run that loses no power between such a begin and the next sync
  (`UnclosedRunSurvivesPowerLoss`, `ReuseOnlyAfterCleanClose`).
- **Late renewals.** A lease renewal is begun only before the expiry, but its answer is not held
  against the clock again and may revive an expired lease (`RenewalCanLandLate`). No answer that takes
  at most `d` does exactly when the request began more than `d` before the expiry (`RenewsInTimeIff`).
- **Front URLs.** A bare `#` is accepted as no fragment, and so are the Kelvin sign and the dotted
  capital I in a host or an ID, plainly or (in a host) percent-encoded: their lower case is ASCII
  (`FrontUrlGrammar`, `SpecialLettersAccepted`).
- **Reflector replies.** A reply that spells an IPv4 address in sixteen bytes is parsed but never
  built (`AcceptedReplyIffBuiltPrefix`, `MappedReplyIsAccepted`).

## Model

| member | source | states |
|---|---|---|
| Engine.FlowStepInv | connectcore/engine.go:1786-1869 | every step of a flow, from dialling to `close(done)`, keeps the engine's invariant |
| Engine.UserStepInv | connectcore/engine.go:739-780 | every locked region of Connect and Disconnect keeps it |
| Engine.NetStepInv | connectcore/network.go:68-105 | every step of a network callback keeps it |
| Engine.NetNoticed | connectcore/network.go:68-105 | no callback step makes an unhandled epoch go unnoticed by a connection |
| Engine.ConnStepBaseline | connectcore/monitor.go:156-184 | a flow step sets its epoch baseline to the current epoch, drops it, or leaves baseline and wake alone |
| Engine.ConnStepSession | connectcore/engine.go:1542-1558 | a live session's epoch capture never lies ahead of what its connection has handled |
| EngineTheorems.Reachable | connectcore/engine.go:739-780 | the invariant holds after any interleaving of events |
| EngineTheorems.NoLostEpoch | connectcore/network.go:68-114 | in any run, a watching supervisor behind the current epoch has a wake pending, or an updater still owes it one |
| EngineTheorems.QuietSessionIsCurrent | connectcore/monitor.go:156-184 | with no callback in flight and no wake pending, the supervisor is up to date and a live WSS session was dialled in the current epoch |
| EngineTheorems.WssRetiredIffEpochAdvanced | connectcore/monitor.go:156-184 | a wake retires a WSS session if and only if the epoch advanced after its attempt began, and otherwise changes nothing |
| NetworkEpochs.EpochCountsChanges | connectcore/network.go:68-105 | in any run, in which no thread calls again before its last call is over, the epoch is the number of observations that differ from the one before, and exactly the callers that reported one and have not sent its wake are known to owe it, by its number |
| NetworkEpochs.AdvancesIffChanged | connectcore/network.go:77-84 | an observation advances the epoch if and only if it differs from the last one, in any field, and leaves its caller owing a wake for the new epoch |
| NetworkEpochs.OwedWakeArrives | connectcore/network.go:96-104 | a caller that owes a wake gives it to the connection installed when it looks |
| EngineTheorems.AtMostOneFlow | connectcore/engine.go:1848-1869 | in any run, every connection but the newest has passed clearConn |
| EngineTheorems.StatusHistory | connectcore/engine.go:1905-1918 | a connection's emissions start with PREPARING and hold a terminal status only at the end; a detached flow has emitted one |
| EngineTheorems.VerdictIffFlagged | connectcore/engine.go:1786-1844 | the finaliser's verdict is DISCONNECTED exactly when the flag is set at its re-sample, else FAILED |
| EngineTheorems.DisconnectWins | connectcore/engine.go:1534-1558 | after the disconnect flag is set no run emits CONNECTED, and unless the finaliser had sampled before, the end is DISCONNECTED |
| EngineTheorems.PromotesUnlessFlagged | connectcore/engine.go:1534-1558 | a promotion publishes CONNECTED, with the epoch of its attempt, if and only if the connection is not flagged; a flagged one leaves without it |
| EngineTheorems.CallCancelsItsFlow | connectcore/engine.go:739-780 | a Disconnect, Connect or Shutdown that finds a connection has flagged it from its first region on, in every run, and cancelled it before the next call begins; a Disconnect publishes DISCONNECTING unless the flow is finalised |
| EngineTheorems.NeverStuckOnTransient | connectcore/engine.go:1862-1869 | with no connection installed, the last status is terminal |
| EngineTheorems.MoveIsCloser | connectcore/engine.go:1131-1143 | every step a cancelled flow makes, whichever it is, brings it closer to its end |
| EngineTheorems.CancelledFlowEnds | connectcore/engine.go:1848-1860 | in every run after a flow is cancelled it makes at most ten moves, one more per wake sent to it, and it is out of moves exactly when it has closed `done`; so whoever waits for it is released |
| EngineTheorems.AwaitedIsCancelled | connectcore/engine.go:1848-1860 | Connect and Shutdown wait only for a started flow they have cancelled |
| EngineTheorems.CallCompletesIffFlowDone | connectcore/engine.go:1848-1860 | in any interleaving a Connect or Shutdown that finds a connection goes on if and only if that flow has closed `done`; then a Connect starts exactly one new flow, with PREPARING, and a Shutdown none |
| EngineTheorems.DisconnectCompletes | connectcore/engine.go:757-780 | in any interleaving a Disconnect that finds a connection cancels it in its next region, and waits for nothing |
| EngineTheorems.CallWithoutConnection | connectcore/engine.go:739-780 | with no connection installed a Connect starts one at once, and Shutdown and Disconnect change nothing |
| EngineTheorems.NewFlowBesideOld | connectcore/engine.go:896-910 | a run in which a new flow starts beside an old one that has still to close `done` |
| FlowTheorems.UnstoppedFlowConnects | connectcore/engine.go:976-1026 | in any run a flow that was not told to stop comes to watch a session within five steps of its own if its attempts succeed, and publishes just CONNECTING, if it has not yet, and CONNECTED on the way |
| FlowTheorems.FailedAttemptLeavesNoTrace | connectcore/engine.go:1128-1157 | a failed attempt leaves the flow as before its rung, so any number may fail first |
| FlowTheorems.LossIsRecoveredFrom | connectcore/monitor.go:349-412 | a lost path is recovered from on the same connection, with CONNECTING published |
| FlowTheorems.WakeIsTakenUp | connectcore/monitor.go:156-184 | a wake taken by a supervisor leaves the current epoch accounted for and gives up just a WSS session the epoch left behind; one taken by a recovery is dropped |
| FlowTheorems.OnlyAWakeIsTakenUp | connectcore/monitor.go:156-184 | without a wake nothing is taken up; a first ladder takes none; a supervisor that is to stop leaves at one |
| FlowTheorems.FailureEndsTheFlow | connectcore/engine.go:1786-1869 | a flow that fails publishes just FAILED, or DISCONNECTED if it is flagged, and closes `done` |
| FlowTheorems.StopEndsTheFlow | connectcore/engine.go:1786-1844 | a flagged flow leaves at its next check and publishes just DISCONNECTED |
| FlowTheorems.DoneFlowIsCancelled | connectcore/engine.go:896-910 | in any run the context of a flow that has closed `done` is cancelled |
| SettingSnapshot.CapturesKeepFirst | connectcore/engine.go:1683-1719 | however often a connection re-snapshots, it holds of each service the setting seen first, of every service seen and of no other |
| SettingSnapshot.SnapshotIsItsCaptures | connectcore/engine.go:1690-1732 | in any run, a TUN connection's DNS snapshot is the fold of the captures its promotions made, in order |
| SettingSnapshot.SnapshotHoldsFirstSeen | connectcore/engine.go:1690-1732 | so over any number of promotions it holds of each service the setting its first capture saw |
| SettingSnapshot.LeftoverAhead | connectcore/engine.go:687-706 | restoring a leftover keeps the write-ahead rule at every step, and success leaves the user's settings |
| SettingSnapshot.ApplyProxyAhead | connectcore/engine.go:1617-1679 | a proxy promotion keeps the rule at every persistent state, unless its snapshot is taken and not saved |
| SettingSnapshot.ApplyTunnelDnsAhead | connectcore/engine.go:1690-1732 | a DNS promotion always does |
| SettingSnapshot.ReleaseAhead | connectcore/engine.go:1738-1747 | releasing for a recovery gap keeps the rule and the session's accounts |
| SettingSnapshot.ExitAhead | connectcore/engine.go:1768-1781 | so does the exit, which drops the slot only when nothing is left to restore |
| SettingSnapshot.ActOk | connectcore/engine.go:687-706 | every engine call, crash or user edit other than the unsaved promotion keeps the rule |
| SettingSnapshot.WriteAheadAlways | connectcore/engine.go:1617-1781 | over any run of launches, sessions, gaps, exits, crashes and edits without that promotion, what differs from the user's choice is restorable from the slot at every persistent state |
| SettingSnapshot.DnsWriteAheadAlways | connectcore/engine.go:1690-1781 | the same without any condition for runs of TUN sessions |
| SettingSnapshot.ProxyAheadIffSaved | connectcore/engine.go:1617-1679 | one proxy promotion is safe for every outcome if and only if its snapshot, once taken, is in the slot |
| SettingSnapshot.UnsavedIffUndone | connectcore/engine.go:1653-1672 | an action leaves a taken proxy snapshot unsaved if and only if it is a promotion that completes, gets as far as Set, fails there, is restored and clears the slot |
| SettingSnapshot.NoneUndoneIsGuarded | connectcore/engine.go:1653-1676 | a run in which no failed Set is undone never makes the unsaved promotion |
| SettingSnapshot.WriteAheadUnlessUndone | connectcore/engine.go:1617-1781 | so over every such run each persistent state is restorable, whatever else the hooks, the user and crashes do |
| SettingSnapshot.OwnEndpointNeverCaptured | connectcore/engine.go:1628-1648 | no guarded run ever holds anything but the user's own setting as the user's: proxy or DNS, in the slot or in a connection |
| SettingSnapshot.LaunchRestores | connectcore/engine.go:687-706 | after any such run, a launch whose restores succeed gives back every setting, and empties the slot if clearing takes effect |
| SettingSnapshot.GapGivesBack | connectcore/engine.go:1734-1762 | after any guarded run, a recovery gap whose restores succeed leaves every setting the user's, the slot as it was and nothing pending |
| SettingSnapshot.FinishGivesBack | connectcore/engine.go:1764-1781 | so does an exit, which empties the slot its connection filled if clearing takes effect |
| SettingSnapshot.UntouchedIsLeftAlone | connectcore/engine.go:1764-1781 | a connection that took no snapshot leaves the settings, and an earlier session's snapshot, as they are |
| SettingSnapshot.PromotionPointsAtTunnel | connectcore/engine.go:1651-1732 | a Set that succeeds points the proxy, or in TUN mode every service there is, at the tunnel, with the snapshot in the slot and its restoration pending |
| SettingSnapshot.FailedSetIsUndone | connectcore/engine.go:1654-1730 | a Set that fails is undone: the user has every setting, nothing is pending and the slot is cleared; exactly when the undoing fails it stays pending with the snapshot in the slot |
| SettingSnapshot.HoleLosesTheUsersProxy | connectcore/engine.go:1653-1676 | the concrete run in which the excluded promotion and a crash make the next session save the tunnel's endpoint as the user's |
| SettingSession.Session.RestoreLeftoverSnapshot | connectcore/engine.go:687-706 | visits only states on the trail of RestoreLeftover and ends at its end |
| SettingSession.Session.ApplyOsProxy | connectcore/engine.go:1617-1679 | the same for the trail of ApplyProxy, with the new connection fields |
| SettingSession.Session.ApplyOsDns | connectcore/engine.go:1690-1732 | the same for ApplyTunnelDns |
| SettingSession.Session.ReleaseProxy | connectcore/engine.go:1738-1762 | the same for Release; reports success exactly when nothing is pending, and with good restores of a taken snapshot leaves every setting the user's |
| SettingSession.Session.Cleanup | connectcore/engine.go:1768-1781 | the same for Exit; with good restores of a taken snapshot it leaves every setting the user's, and clears the slot |
| SettingSession.Session.Promotion | connectcore/engine.go:1617-1732 | every persistent state newly visited keeps the write-ahead rule |
| BrokerRace.PhaseStepInv | brokerapi/relay.go:176-246 | every tick, answer and receive keeps the phase's tallies of started, answered and refused attempts |
| BrokerRace.ChannelFits | brokerapi/relay.go:194-208 | the result channel never holds more than its capacity, however late workers answer |
| BrokerRace.PhaseNotStuck | brokerapi/relay.go:210-246 | a phase that has not ended has a tick armed, an attempt running or an answer waiting |
| BrokerDiscovery.SplitFronts | brokerapi/relay.go:123-174 | the loop splits the candidates into the endpoint-bound and unbound lists, in order |
| BrokerDiscovery.FirstLeads | brokerapi/relay.go:123-174 | every candidate is in one of the lists, and the first leads its list |
| BrokerDiscovery.ExecInv | brokerapi/relay.go:95-246 | the discovery invariant holds after every schedule |
| BrokerDiscovery.StartsInOrder | brokerapi/relay.go:95-246 | in every schedule requests start as the override, then a prefix of the bound list, then one of the unbound list |
| BrokerDiscovery.UnboundOnlyAfterBound | brokerapi/relay.go:123-174 | an attempt that authenticates no endpoint starts only after every bound one was refused |
| BrokerDiscovery.ErrorOfFirstCandidate | brokerapi/relay.go:95-174 | an error that is not the caller's cancelling is the first candidate's, in every classification and override case |
| BrokerExhaustion.ErrorIffAllRefused | brokerapi/relay.go:95-246 | a discovery that nobody cancels ends in an error if and only if the override, if any, and every attempt of every phase with candidates was refused; every URL of the caller's list was asked then |
| BrokerExhaustion.CancelledOpensNothing | brokerapi/relay.go:100-174 | in any schedule, once the caller has cancelled no further leg is begun; the discovery ends with its leg, and a refusal there is the caller's own error unless the race had one phase only |
| BrokerExhaustion.CancelledIsLeftAtOnce | brokerapi/relay.go:239-243 | a cancelled phase that still runs is left without waiting for its attempts |
| BrokerExhaustion.CancelledBeforeAsksNobody | brokerapi/relay.go:176-179 | a race that is cancelled before it begins sends no request |
| BrokerDiscovery.NeverStuck | brokerapi/relay.go:95-246 | an uncancelled discovery without a result can always move |
| BrokerDiscovery.WorkersNeverBlock | brokerapi/relay.go:194-208 | no worker ever finds its channel full |
| BrokerProgress.StepUses | brokerapi/relay.go:95-246 | every event that changes anything uses up some of a measure over workers, phases and legs |
| BrokerProgress.EveryDiscoveryEnds | brokerapi/relay.go:95-246 | in every schedule at most 3 * (bound + unbound candidates) + 5 events change anything, and where none but a cancel can, the caller has its result |
| BrokerDiscovery.SuccessIsServed | brokerapi/relay.go:95-246 | a success names a candidate whose own attempt, in that TLS mode, returned that list |
| RateLimiter.IpRateLimiter.Allow | punchcore/reflector.go:206-226 | updates only that address's bucket, as the bucket function says |
| RateLimiter.IpRateLimiter.Prune | punchcore/reflector.go:231-239 | removes exactly the buckets not touched since the cutoff |
| RateLimiter.TokensInRange | punchcore/reflector.go:206-226 | after any calls and collections every bucket holds between 0 and burst tokens |
| RateLimiter.SecondsEarnRate | punchcore/reflector.go:206-226 | a second earns `rate` tokens, up to the burst |
| RateLimiter.ReflectorIsUnhurried | punchcore/reflector.go:132-156 | the reflector collects no bucket younger than the time that refills it |
| RateLimiter.StaleIsFull | punchcore/reflector.go:132-156 | a bucket that old behaves as a fresh one |
| RateLimiter.PruningIsUnobservable | punchcore/reflector.go:206-239 | collections at any times change no verdict and no bucket a request touches, against a limiter that never prunes |
| RateLimiter.RateBound | punchcore/reflector.go:198-226 | one source is granted at most burst + rate * length requests in any window |
| RateLimiter.SomeWindowIsTight | punchcore/reflector.go:206-226 | some window ending now meets that bound with equality, counting what the source can still spend |
| RateLimiter.AllowedIffEveryWindowFits | punchcore/reflector.go:206-226 | a request is allowed if and only if, counting it, every window that ends with it stays within the bound: nothing is refused that the bound has room for |
| FakeIp.RunState.BeginRun | connectcore/fakeip_state.go:41-60 | one call moves record and cache as Begin says, for every failing file operation; a power loss leaves an earlier state, the emptied cache or the result, and after a synced success only the result |
| FakeIp.RunState.EndRun | connectcore/fakeip_state.go:63-65 | records a clean close exactly if the write takes effect, and says whether it reported success |
| FakeIp.RunState.WriteState | connectcore/fakeip_state.go:84-122 | at every point a power loss leaves the old or the new record, never a part of one; after a success with a synced directory, only the new one |
| FakeIp.RecordedDespiteErrorIff | connectcore/fakeip_state.go:84-122 | for all file operations: begin reports an error with its record in place if and only if the directory sync is what failed |
| FakeIp.ErrorAfterReplacing | connectcore/fakeip_state.go:84-122 | a begin that reports an error, over a clean record that it has replaced |
| FakeIpRuns.StepsAreBegin | connectcore/fakeip_state.go:41-60 | the interleaved machine's steps of one undisturbed process are that call, for every failing file operation |
| FakeIpRuns.StepsAreEnd | connectcore/fakeip_state.go:63-65 | and those of a clean close are endFakeIPRun's |
| FakeIpRuns.ExecInv | connectcore/engine.go:1309-1332 | the invariant over any number of processes, failing file operations, crashes and power losses, from any cache file; a skipped sync matters only to what a power loss may leave |
| FakeIpRuns.LockSpansEveryAccess | connectcore/engine.go:281-344 | whoever may touch the record, the cache or the runtime holds the lock |
| FakeIpRuns.AcquiresIffNobodyBusy | connectcore/engine.go:1309-1332 | in any run an idle process gets the lock if and only if no process is busy; no crash or power loss keeps it taken |
| FakeIpRuns.RecordIsNeverTorn | connectcore/fakeip_state.go:84-122 | in any run, unless something else writes to the file, no crash and no power loss leaves part of a record |
| FakeIpRuns.UnclosedRunSurvivesPowerLoss | connectcore/fakeip_state.go:84-122 | from the reported success of a begin until its close, every power loss leaves the record that the run is not closed, so that the next begin starts empty and on another block |
| FakeIpRuns.FailedBeginGivesUpABlock | connectcore/engine.go:1309-1332 | after a begin that was told of a failed directory sync, the next begin moves to the next block and so drops a cache that was good |
| FakeIpRuns.SameBlockAgainIffSkipped | connectcore/fakeip_state.go:107-122 | a power loss during a run can have the next begin choose its block again if and only if its begin reported success without a directory sync |
| FakeIpRuns.ReuseOnlyAfterCleanClose | connectcore/fakeip_state.go:41-60 | a run reuses block and cache only after a recorded clean close of the last run that opened it; otherwise it starts empty on another block |
| FakeIpRuns.CleanCloseIsReused | connectcore/engine.go:324-344 | from any reachable clean exit, a close whose write takes effect has the next begin, of any process, reuse that block with its saved cache |
| FakeIpRuns.FirstRunExitsCleanly | connectcore/engine.go:1309-1332 | a run from an empty record that gets to its clean exit, which that law starts from |
| FakeIpRuns.DecidesReuseIffClean | connectcore/fakeip_state.go:41-60 | the decision to reuse is made exactly when the record says clean |
| FakeIpRuns.FirstIsPicked | connectcore/fakeip_state.go:41-60 | without an earlier record the first block is the picked one |
| FakeIpRuns.AbandonedBlockRecursLast | connectcore/fakeip_state.go:41-60 | a block left uncleanly is recorded again only after every other block has been |
| PunchBreaker.DefaultsOrderBackoffsIff | connectcore/punchbreaker.go:78-100 | the defaults order the backoffs if and only if the given initial one fits the resulting cap |
| PunchBreaker.DefaultsKeepIff | connectcore/punchbreaker.go:78-100 | a configuration is taken as it is if and only if it is usable and its cap fits or is the default; each positive tunable is kept |
| PunchBreaker.InitialAboveCap | connectcore/punchbreaker.go:78-100 | a configuration whose initial backoff stays above its cap |
| PunchBreaker.InnerCapIsDead | connectcore/punchbreaker.go:215-244 | the cap inside the doubling never applies |
| PunchBreaker.NominalIsSaturatedDoubling | connectcore/punchbreaker.go:215-244 | the nominal delay is min(initial * 2^(n-1), max), one more exactly in the odd-cap case |
| PunchBreaker.OddCapOvershoots | connectcore/punchbreaker.go:215-244 | a cap at which the nominal delay is one above the saturated doubling |
| PunchBreaker.NominalInRange | connectcore/punchbreaker.go:215-244 | it lies between the initial backoff and the cap |
| PunchBreaker.BackoffDelay | connectcore/punchbreaker.go:215-244 | for any pick the delay is within a fifth of the nominal and under the cap, and a pick in range is kept |
| PunchBreaker.PunchRecoveryBreaker.MarkDirectConnected | connectcore/punchbreaker.go:139-148 | notes the start of a direct path for that relay only |
| PunchBreaker.PunchRecoveryBreaker.AllowsDirectPunch | connectcore/punchbreaker.go:152-157 | refuses exactly an open circuit |
| PunchBreaker.PunchRecoveryBreaker.OnDirectPathLost | connectcore/punchbreaker.go:165-210 | moves the relay's state as the history's fold does and decides accordingly; the delay lies within the jitter's range around the nominal one of the counted failures, and is the picked one when that does |
| PunchBreaker.StreakIsCountedSinceStable | connectcore/punchbreaker.go:165-210 | a streak is the number of counted losses since and including the last stable one; the circuit is open exactly when it reaches the threshold |
| PunchBreaker.RelaysAreIndependent | connectcore/punchbreaker.go:105-148 | a relay's state depends on its own events only |
| PunchBreaker.OpenNeverPunched | connectcore/punch.go:194-201 | with the punch gate and promote in place, no relay is punched while its circuit is open |
| PunchBreaker.BreakerFollowsSession | connectcore/punch.go:189-211 | in any session the breaker's state is the fold of the punched paths that came up and were lost |
| PunchBreaker.PunchedIffReachableAndClosed | connectcore/punch.go:189-211 | a candidate is promoted on a punched path if and only if it can be reached and its circuit is closed |
| PunchBreaker.OpenStaysOpen | connectcore/monitor.go:242-273 | an open circuit stays open for the connection, and that relay is never on a punched path again |
| Ladder.Connection.RememberPublicEndpoints | connectcore/family.go:96-106 | each listed relay's latest non-IPv6 endpoint is remembered, everything else is kept, and no IPv6 endpoint ever gets in |
| Ladder.Connection.AdaptToAddressFamily | connectcore/family.go:167-201 | equals a stable partition of the rewritten candidates on a device without IPv6, the identity elsewhere |
| Ladder.Connection.LeasedEndpointRetries | connectcore/family.go:125-149 | the candidates a refresh gave an untried endpoint, in order, moved to it without fronts |
| Ladder.RetriesAreNew | connectcore/family.go:125-149 | a retry keeps the candidate's credential and goes to an endpoint that is neither the tried nor the earlier one; none without a new endpoint |
| Ladder.AdaptKeepsRelays | connectcore/family.go:153-201 | the same multiset of IDs; only IPv6 candidates change, only in their endpoint, only to a remembered IPv4 one |
| Ladder.AdaptIsIdempotent | connectcore/family.go:167-201 | adapting twice is adapting once |
| Ladder.AdaptPrefersV4 | connectcore/family.go:151-201 | on a device without IPv6 every relay with an IPv4 endpoint, given or remembered, is tried there, and those come first in their order; what is left on IPv6 has no endpoint remembered |
| Ladder.PartitionIsStable | connectcore/helpers.go:272-283 | the partition behind adaptation and demotion keeps both runs' order, one behind the other, and repeats to itself |
| Ladder.DemoteRelay | connectcore/helpers.go:272-283 | a permutation with the failed relay behind all others, whose order is untouched |
| Ranker.Unranked | connectcore/ranker.go:58-64 | every candidate in order, unmeasured |
| Ranker.RankByTcpLatency | connectcore/ranker.go:73-147 | its splitting, partial sort and appending list every candidate with its measurement exactly as one sort of all of them by class (reachable, failed, unprobed), latency bucket and broker order |
| Ranker.TheRanking | connectcore/ranker.go:66-72 | that sort names each candidate once, in that order, and is the only listing that does |
| Ranker.RankingIsUnique | connectcore/ranker.go:119-140 | two listings of the same candidates sorted so are equal, whatever sort computes them |
| Ranker.RankingPermutes | connectcore/ranker.go:66-72 | ranking drops, repeats and changes no relay |
| Ranker.RankingIsBrokerOrderIff | connectcore/ranker.go:73-147 | broker order survives if and only if no candidate is bucket-wise faster than an earlier one; so when every probe fails |
| Ranker.RankLadder | connectcore/ranker.go:158-178 | a pinned relay's list is never reordered |
| Ranker.Candidates | connectcore/ranker.go:191-197 | the relays of a ranking, in its order |
| Ranker.RecoveryOrder | connectcore/monitor.go:375-390 | adapted, ranked, demoted: the same relays, the failed one last, the others in ranking order |
| Lease.RunLadder | connectcore/engine.go:1128-1157 | the first candidate to come up wins, and only if all before it failed remotely; a local fault or a cancellation ends the walk, as `Climbed` has it |
| Lease.Order | connectcore/engine.go:981-983 | a permutation of the list, in ranking order, with a recovery's failed relay last |
| Lease.NotTried | connectcore/access.go:275-284 | exactly the candidates whose relay was not tried, in their order |
| Lease.Session.FetchAccess | connectcore/access.go:143-199 | a lease is set exactly when access is granted and the answer is used, with its own credentials; each failure gets its own outcome and effect on the pinned front |
| Lease.Session.FetchCandidates | connectcore/engine.go:1031-1089 | whichever list comes back, lease, outcome and credentials agree, and it is that answer's list; it fails only with the race, a disable or a cancellation; there is a lease exactly when access is wanted and the pinned front grants it, or else the winner of the race does; that front is pinned and the lease's, and the race's public list is kept to fall back to |
| Lease.Session.FetchPublic | connectcore/engine.go:1069-1089 | the same for the discovery race and the access request behind it |
| Lease.Session.LeasedRetries | connectcore/access.go:257-260 | the newly reachable leased relays in their order, the failed one last, all with the lease's credential |
| Lease.Session.RunShared | connectcore/access.go:270-298 | the public walk runs exactly when an untried candidate is left, and promotes only such a relay, on the shared credential |
| Lease.Session.RunPublicFallback | connectcore/access.go:228-298 | runs only when the ladder of a valid lease failed remotely, neither cancelled nor by a local error, and then unless no public list or no untried candidate is left; a winner agrees with lease and outcome; first the leased relays at newly learned endpoints, on their lease, and only if those too fail remotely the untried public ones, without it (`FallbackOf`) |
| Lease.Session.Climb | connectcore/engine.go:976-1021 | the ladder with its fallback promotes only a relay that agrees with lease and outcome, and does promote one if a candidate comes up in turn; the result is that of the adapted, ranked and demoted ladder, else of its fallback (`ClimbOf`) |
| Lease.Session.Connect | connectcore/monitor.go:349-412 | on every promotion: lease valid, credential from the latest fetch's access answer, and outcome `granted` are equivalent, so a renewer (connectcore/monitor.go:57-62) never runs for a shared credential; a second fetch is made exactly on a recovery whose first was rate-limited |
| AccessToken.AccessTokenScopeFor | connectcore/access.go:372-380 | the scope is that of the built-in fronts exactly for a trimmed one of them, else the trimmed URL's own |
| AccessToken.SameScopeIff | connectcore/access.go:367-380 | two fronts share a token if and only if both are built in or they are the same URL, trimmed |
| AccessToken.TokenCache.LookUp | connectcore/access.go:387-393 | a cached token is used if and only if it is this broker's, not the refused one, and has more than five minutes left |
| AccessToken.TokenCache.Store | connectcore/access.go:415-417 | a new token is filed under the broker that issued it |
| AccessToken.TokenCache.UserAccessToken | connectcore/access.go:386-441 | a usable cached token is returned without authenticating, else the one just issued; it was issued by the broker behind the front; the refused one only if issued again; a failure leaves the cache alone and is the authentication's |
| AccessToken.UserAuthError | connectcore/access.go:424-441 | a disable, a refused enrolment and a missing endpoint are each told apart, both ways, from every other failure |
| AccessToken.PresentableIffHeaderSafe | brokerapi/access.go:89-92 | a token is sent if and only if, trimmed, it is short enough and holds nothing that would end its header's word or line |
| AccessToken.WaitFor | connectcore/access.go:350-354 | a wait that was asked for is kept up to five seconds, else cut to that; without one it is two seconds |
| AccessToken.TokenStaysWithItsBroker | connectcore/access.go:367-422 | over any interleaving of callers and any history of fronts, no token is handed out for a front of another broker than the one that issued it |
| AccessToken.AfterGoes | connectcore/access.go:334-363 | after each reply the loop goes on within its bounds, or ends with the result that reply calls for |
| AccessToken.TokenCache.RequestAccess | connectcore/access.go:310-365 | at most four requests, all with this broker's token, and two waits of at most five seconds; a 401 or 503 is returned only once its retries are spent, and every result is the last reply's, the failed authentication's or that of a wait cut short, after which nothing is sent |
| LeaseRenewal.StepInv | connectcore/access.go:453-515 | every step keeps the renewer's invariant |
| LeaseRenewal.RunInv | connectcore/access.go:443-516 | in any run: at most one report, and nothing after it; each request begun before the expiry; the expiry moved only by an answer that lists just this relay with its own credential; no sleep above the poll |
| LeaseRenewal.EndsForAReason | connectcore/access.go:443-516 | a renewer that is over was stopped, silently, or reported just the expiry it saw reached or what its last answer says; no number of failures ends it |
| LeaseRenewal.RenewsInTimeIff | connectcore/access.go:472-497 | a request under way renews an unexpired lease whatever answer comes within `d` if and only if it was begun more than `d` before the expiry |
| LeaseRenewal.RenewalCanLandLate | connectcore/access.go:472-497 | a run whose answer comes after the expiry and moves it |
| LeaseRenewal.RenewalComesInTime | connectcore/access.go:451-451 | whatever the jitter, the renewal after a grant falls between three and five eighths of the lifetime |
| LeaseRenewal.DelayIsSaturatedDoubling | connectcore/access.go:511-513 | the backoff is the doubling cut at a minute, for any number of failures |
| LeaseRenewal.RenewAtIsDue | connectcore/access.go:450-516 | in any run the next request is due at the jittered half of the lifetime after a grant, and after failures in a row at their doubled seconds, cut at a minute |
| LeaseRenewal.AsksIffDue | connectcore/access.go:453-475 | before the expiry, a renewer goes on to ask exactly when a request is due, and else sleeps until then or for one poll |
| LeaseRenewal.ExpiryIsReported | connectcore/access.go:453-474 | wherever it is, a renewer left running reports an expiry that the clock has reached, within three steps of its own |
| LeaseRenewal.StopIsSilent | connectcore/access.go:462-478 | stopped while it waits, it ends without a report |
| LeaseRenewal.JitterSpreads | connectcore/monitor.go:684-692 | the jitter takes every value from a quarter below the base to a quarter above |
| TicketLadder.TicketBrokerFronts | connectcore/wss.go:192-211 | the eligible fronts, each where first mentioned |
| TicketLadder.FrontsAuthenticate | connectcore/wss.go:186-211 | exactly the eligible fronts, in that order, none endpoint-unbound, the directory's own first if eligible |
| TicketLadder.Attempt | connectcore/wss.go:242-253 | the limit of a request is the smaller of five seconds and what is left of the budget |
| TicketLadder.AskFronts | connectcore/wss.go:239-277 | one round asks the fronts in turn before the deadline and answers as promised, or leaves all refused |
| TicketLadder.EachRequest | connectcore/wss.go:239-277 | read request by request: the k-th went to the k-th front in turn, limited and before the deadline, at most two a front |
| TicketLadder.Connection.RequestSessionTicket | connectcore/wss.go:213-303 | at most two requests a front, done by the deadline; at most one wait, strictly inside the budget and after a whole refused round; it gives up only out of time, after both rounds, or when no wait is left or fits; the first error of all unless cancelled or refused protection; the panic is unreachable; the second round begins only after the wait |
| TicketLadder.Connection.RunLadder | connectcore/engine.go:1128-1129 | at most one wait in a whole ladder pass |
| IdleGuard.IdleGuard.StartStream | wsscore/lifecycle.go:34-51 | moves the guard as the step machine's Start |
| IdleGuard.IdleGuard.DoneStream | wsscore/lifecycle.go:55-68 | as its Done |
| IdleGuard.IdleGuard.DisarmTimer | wsscore/lifecycle.go:74-88 | as its Disarm |
| IdleGuard.IdleGuard.CloseGuard | wsscore/lifecycle.go:90-101 | as its Close |
| IdleGuard.IdleGuard.ScheduleLocked | wsscore/lifecycle.go:103-107 | arms a timer of a new generation |
| IdleGuard.IdleGuard.Expire | wsscore/lifecycle.go:109-121 | as its timer callback |
| IdleGuard.ExpiresAtMostOnce | wsscore/lifecycle.go:109-121 | onExpire runs at most once, and only for an expired guard |
| IdleGuard.CommitOnlyAfterIdleTimeout | wsscore/lifecycle.go:103-121 | whatever commits is a callback on an open, armed guard, and no stream was active in any state since its timer was scheduled, a whole timeout ago |
| IdleGuard.ExpiresIffIdleForTimeout | wsscore/lifecycle.go:55-68 | an idle, open, armed guard always has its callback, which expires it exactly from one timeout after it last became idle |
| IdleGuard.GuardFollowsCalls | wsscore/lifecycle.go:34-101 | in any run the guard is closed, and disarmed, exactly if it was told to be, and counts the streams that were admitted and are not done |
| IdleGuard.AdmitsIffOpen | wsscore/lifecycle.go:34-51 | a stream is admitted if and only if the guard is neither closed nor expired |
| IdleGuard.NoCommitAfterCloseOrDisarm | wsscore/lifecycle.go:74-101 | no callback commits after Close or Disarm took the lock |
| IdleGuard.CallAfterCloseIffOwed | wsscore/lifecycle.go:109-121 | onExpire runs after Close if and only if it was already owed |
| IdleGuard.CloseCanOvertakeTheCall | wsscore/lifecycle.go:109-121 | a run in which it does |
| IdleGuard.ExpiredRefusesForever | wsscore/lifecycle.go:34-51 | after expiry every Start is refused and no stream is active again |
| WebSocketStream.WebSocketConn.RecordRemoteClose | wsscore/websocket_conn.go:93-103 | the first close code is kept |
| WebSocketStream.WebSocketConn.Open | wsscore/websocket_conn.go:57-72 | opening a message loses no byte of the stream; a text message ends the connection |
| WebSocketStream.WebSocketConn.ReadMessage | wsscore/websocket_conn.go:73-79 | the bytes handed out are the message's next ones, at most as many as the library gives |
| WebSocketStream.WebSocketConn.Read | wsscore/websocket_conn.go:50-87 | whatever the chunking, the bytes read followed by those pending are those pending before; from a library that works, whether it reports the end of a message with the last byte or alone, pending binary bytes are delivered; a read that leaves its message open reports exactly its reader's failure, and the first close code is kept |
| WebSocketStream.WebSocketConn.Write | wsscore/websocket_conn.go:118-145 | no error means exactly one binary message equal to the input; an error closes the connection behind a prefix of it, and without a fault there is none; a failure to open, write or close the message is reported, the first of them, and a message whose close failed is not counted as sent |
| WebSocketStream.WriteAll | wsscore/transport.go:97-111 | succeeds only with everything written; it asks the writer until all is taken, it fails or it takes nothing, and reports which |
| WebSocketStream.ReadAll | wsscore/websocket_conn.go:50-87 | successive reads return a prefix of the stream and leave the rest |
| WebSocketStream.WriteChunks | wsscore/websocket_conn.go:118-145 | the peer is given a prefix of the chunks' bytes, all of them if no write failed |
| WebSocketStream.Transfer | wsscore/websocket_conn.go:17-19 | Write then Read is the identity on byte streams: never more than a prefix, and all of it once drained, unhindered within a read per byte |
| PunchWire.Uint16RoundTrip | punchcore/probe.go:28-29 | the length field carries the length modulo 65536 |
| PunchWire.AcceptedIffBuiltPrefix | punchcore/probe.go:38-68 | a datagram is accepted exactly when it starts with the packet built for the session, as an ack whenever it starts with the ack |
| PunchWire.ProbeRoundTrip | punchcore/probe.go:25-68 | a built probe parses as a probe and an ack as an ack exactly for session IDs up to 65535 bytes and 32-byte tokens; others are never accepted |
| PunchWire.RequestRoundTrip | punchcore/reflectwire.go:10-29 | a built request gives its nonce back if and only if that has sixteen bytes |
| PunchWire.ReflectionRoundTrip | punchcore/reflector.go:71-89 | an accepted request is answered by a shorter reply that parses back to its nonce and source address |
| PunchWire.NeverAmplifies | punchcore/protocol.go:67-80 | a reply is shorter than any accepted request, whatever address it reports |
| PunchWire.AcceptedReplyIffBuiltPrefix | punchcore/reflectwire.go:31-80 | an accepted reply starts with the built one if and only if its address is not a mapped IPv4 one |
| PunchWire.MappedReplyIsAccepted | punchcore/reflectwire.go:50-80 | a reply with such an address, accepted and not built |
| FrontUrl.FrontIdFixpoints | wsscore/front.go:54-75 | normal IDs are the valid ones, and validation accepts exactly the fixpoints |
| FrontUrl.FrontUrlGrammar | wsscore/front.go:81-112 | a raw URL normalises to a host's canonical URL if and only if it is a spelling of it by an explicit grammar, fits and has no control space |
| FrontUrl.SpecialLettersAccepted | wsscore/front.go:81-112 | in any short host the Kelvin sign reads as k and the dotted capital I as i, plainly or percent-encoded, with a bare `#` behind the path |
| FrontUrl.FrontUrlFixpoints | wsscore/front.go:81-126 | normal URLs are exactly the canonical ones, and validation accepts exactly the fixpoints |
| Fronts.CheckDuplicates | wsscore/front.go:40-49 | the checks after sorting pass exactly when all IDs and all URLs differ |
| Fronts.NormalizeFronts | wsscore/front.go:16-51 | succeeds exactly on acceptable sets, with the increasing listing of the normal fronts |
| Fronts.NormalFormIgnoresOrder | wsscore/front.go:16-51 | success and result do not depend on the input's order, for any sort |
| Fronts.FrontSetFixpoints | wsscore/front.go:16-51 | normal forms have valid IDs in strictly increasing order and distinct canonical URLs; the canonical sets are exactly their own normal form |
| Fronts.SupportedFronts | connectcore/wss.go:133-155 | an eligible relay's fronts are used, unchanged, if and only if they are canonical |

## Left out

- Engine: the step machine is on values, one event per locked region or channel operation, because its theorems quantify over interleavings; statements inside one locked region are not separate steps.
- Engine: health probing, the recovery budget, pause and resume, telemetry and logs; a flow's trigger is any event.
- Engine: which ready case a select picks, and the poll timer of a recovery waiting for the network; a step may be any that is enabled.
- Engine: when the platform reports the network; a callback may come at any time with any state.
- SettingSnapshot: saving to the slot is taken to succeed, persistence to be present, and the host's hooks to stay the same across launches; the user edits a setting only while the engine does not hold it.
- SettingSnapshot: an OS hook touches only what its interface comment allows; a failing one may leave anything there.
- BrokerRace: the race is on values, since its theorems quantify over schedules; the stagger's length does not matter for any of them.
- BrokerDiscovery: HTTP, TLS, signature checks and the decoding of relay lists; an attempt ends in a list or an error.
- RateLimiter: token counts are reals, without floating-point rounding, and call times do not decrease.
- FakeIpRuns: the interleaved processes are on values, because the theorems quantify over interleavings and crash points; a crash is taken to end the crashed process's runtime too, and the number of blocks is a parameter.
- FakeIpRuns: file operations reach the disk in the order they were made; a disk that reorders a rename and the writes before it is not modelled.
- PunchBreaker: the 64-bit range of durations.
- IdleGuard: the range check of NewIdleGuard's timeout.
- Ladder: how a host is recognised as IPv6, and how the device's lack of IPv6 is found; both are given.
- Ranker: the concurrency of the probes, since only their results enter the order; the telemetry annotation of the winner.
- Lease: usability and target filtering is one given predicate on relays; what an access request answers is an outcome.
- Lease: the attempt on one candidate (direct, punched or WSS) is an outcome; it never changes the relay's credential.
- AccessToken: other callers of the token cache between two rounds of one RequestAccess; the theorem over histories has them. HTTP, signatures and the limits on the answer; a request ends in an answer, a status or an error.
- LeaseRenewal: the renewer is on values, one event per clock reading or select, because it has no bound on its rounds; when its timers fire is open.
- TicketLadder: time passes only in requests and waits, and a request ends by its limit.
- WebSocketStream: closing handshakes, pings and deadlines; locking, since each direction is serialised by its own mutex.
- PunchWire: the spraying loop, peer sanitising and NAT classification.
- FrontUrl: text is Unicode characters, so byte strings that are not UTF-8 are outside the model; which of the errors a refusal reports is not modelled.
- FrontUrl: the IP-literal check of NormalizeFrontURL, which no name passing the DNS check can fail, because its last label starts with a letter.
- Broker identity, installation keys, the tunnel process, mobile bindings, the TUI and the server side.
