# Verification of evuproxy's core

evuproxy turns a YAML config into an nftables ruleset and a WireGuard setup on a gateway host. This project models, in
Dafny, the parts where it is hardest to be right, and proves what they promise.

**Confirm-or-revert Apply** (`History`, `ApplyState`, `ApplyPlans`, `ApplySafety`, `ApplyRuns`, `ApplyWorld`,
`ApplyRollback`, `ApplyClaims`, `ApplyOutcomes`, `ApplyTimers`, `ApplyBoot`, `ApplyHistory`, `ApplyLeftovers`,
`ApplyHost`). An Apply can ask to be confirmed; otherwise a systemd timer, the next boot or the next reload takes it back.
`ApplyState` holds every file, timer and loaded table as one state, and an `Effect` is one file operation or command.
`ApplyPlans` gives each operation as the effects it has from a given state, and `ApplyOutcomes` says of each what it
answers and leaves. `ApplyHost` is the operations as the program runs them, a class whose fields are assigned in place;
each method is proved to have exactly the effects of its plan, in that order. `ApplyWorld` interleaves operations under
the lock with timers, crashes between any two effects and reboots at any time, and the claims are about all such runs.

**The nftables compiler** (`Sorting`, `Ports`, `Routes`, `Nft`, `Firewall`, `FirewallMeaning`, `FirewallDelivery`,
`FirewallForward`, `FirewallTheorem`, `FirewallReplies`, `FirewallInput`, `FirewallPaused`, `FirewallSets`,
`RouteComment`). Routes become prerouting DNAT rules, forward drops and accepts, an input chain and a counting table.
`Nft` is rules as data with a packet evaluator, `Firewall` the compiler, and the rest proves that the compiled chains mean
the config's policy, for what is forwarded and for what the host itself accepts, that pausing is an exact edit of the
prerouting chain, and that every set a rule names is declared beside it.

**The change list** (`Json`, `RowMatch`, `RowSteps`, `RowChanges`, `RowUndo`, `ConfigChanges`, `ConfigRevert`,
`ConfigKeeps`, `ConfigFold`, `ConfigCascade`, `ConfigUndo`). The UI lists how the saved config differs from the applied
one, takes the changes back one at a time, against a config that others may have changed meanwhile, and can undo that.

**Saving** (`ConfigSave`): a compare-and-swap between clients, by If-Match (section 13.1.1 of RFC 9110). **Auto-pause**
(`AutoPause`): a hysteresis per peer and the loop around it. **Two bounded stores**: the event log (`EventLog`) and the
sliding-window limiter (`Limiter`).

## Where the program does not do what it promises

Each of these is kept in the model as the code has it, with a lemma about it; where the code meets the promise under a
condition, the lemma says exactly when. Failing runs or inputs are given for the Apply protocol, the firewall and the saves.

- A confirmation that arrives between the firewall load and the hash record of its Apply leaves records that name the
  config before it, so the next session would go back to that one: `ApplyClaims.ConfirmedTooEarly`, and
  `ApplyClaims.ConfirmNeedsRecord`. The baseline is the last confirmed config in every run without such a confirmation, and
  again after the next reload or confirmation that completes its record: `ApplyClaims.TrustComesBack`.
- A boot does not always load the last applied or confirmed config. Between the hash record and .bak a process can die, and
  then the records do not agree and config.yaml is loaded, with whatever was saved there since:
  `ApplyBoot.BootLoadsLastApplied` says exactly when, and `ApplyBoot.BootForgetsReload` and `ApplyBoot.BootForgetsConfirmed`
  are runs that get there, after a reload and after a confirmed Apply. After a confirmation in the window of the bullet above
  the records agree on the config before it, which then boots: `ApplyBoot.BootForgetsUnrecorded`.
  `ApplyBoot.BootLoadsLastConfirmed` says exactly when the last confirmed config boots. The fallback is intended and listed
  (internal/apply/confirm.go:470-475, docs/config.md:322); that an ordinary crash leads to it for a config that was already
  applied, or even confirmed, is not (docs/web-ui.md:50 promises the last confirmed config).
- A failed Apply does not always leave config.yaml as it was: `ApplyClaims.FailedApplyLeavesConfig`. On a repeat Apply of
  the baseline itself an older rejected config can take its place: `ApplyLeftovers.FailedApplyBringsBackRejected` is a run.
- A rollback is repeatable unless a `config.yaml.reverted` equal to the baseline is renamed away just before the end:
  `ApplyRollback.StaleCopyIsLost`, and `ApplyLeftovers.StaleCopyIsReached` is a run that gets there.
- In the forward chain a packet that a port map sent to an internal port is taken for traffic of an unmapped route with that
  public port, and its denies, limits and accepts apply: `FirewallTheorem.DeliveryIsExact` says exactly when that matters.
- A packet that comes in from the WAN already addressed to a peer, as a neighbour on the link can send it, meets no DNAT when
  its source is outside the zones of an allow-mode route, and the forward chain, which does not ask for zones, lets it
  through (internal/gen/nftables.go:97-109; the comment at internal/gen/nftables_policy.go:191-193 and docs/config.md:222 say
  otherwise): `FirewallTheorem.ZonesAreMissed` is such a config and packet, and `FirewallTheorem.DeliveryIsThePolicy` says
  exactly which packets these are.
- An input_allows entry for another protocol than tcp or udp, "both" for one, passes validation
  (internal/config/config.go:273-280) and the config does not compile: `FirewallMeaning.BothIsNotCompiled`, and
  `FirewallMeaning.ValidCompiles` says exactly when it does.
- A port map may name a brace list, but a route that has one cannot be read: `Routes.MappedRoutesHaveNoBraces`.
- An applied object that became an empty list cannot be taken back: `ConfigRevert.ObjectToEmptyList` and
  `ConfigRevert.RevertsIffReachable`. Two different empty values in a scalar list are not listed as a difference:
  `ConfigRevert.HiddenDifference`.
- Undoing a revert does not always bring the rows back when others changed the list: `RowUndo.UndoGivesRowsBack`. With
  nobody else at work it does, for whole entries: `ConfigUndo.UndoingEntries`.
- A fetch reads the revision and the body apart. When the file changes between the two and then goes back, a conditional
  save passes its check and stores an edit of bytes that are not in the file: `ConfigSave.TornFetchLosesAnUpdate` is a run,
  and `ConfigSave.CommitIsGoodIff` says of each save exactly when it does not lose an update.
- docs/config.md:226 says that geo blocking for input_allows leaves admin ports open to all. Where an input_allows entry
  opens the same port it does not: the entry's rules come first and drop what they do not accept:
  `FirewallInput.AdminPortIsShut` is a config and packet, and `FirewallInput.InputIsExact` has the exact condition.
- The event log drops old lines to make room also when the append is refused in the end: `EventLog.Logger.Append`.

## Model

| member | source | states |
|---|---|---|
| History.RecordWhole | internal/state/config_history.go:50-85 | recording an applied config that differs from .bak puts it on top and moves every file down one, .bak.5 falling out; with no .bak it is just written there; recording the same bytes again changes nothing |
| History.RecordCut | internal/state/config_history.go:50-85 | wherever the rotation is cut, the chain read newest first and skipping missing files is a subsequence of the new config followed by what was there |
| History.ChainFollowsHistory | internal/state/config_history.go:50-85 | over every run of recordings alone, each cut after any file operation, the chain is a subsequence of the applied history |
| History.ChainIsLastSix | internal/state/config_history.go:50-85 | without crashes the chain is exactly the last six applied configs, repeats in a row counted once |
| History.PreviousAppliedMeaning | internal/state/config_history.go:155-176 | restore-previous offers the newest older entry that differs from .bak, past any gaps a crash left, and nothing exactly when all older entries equal .bak |
| History.PreviousIsLatestOther | internal/state/config_history.go:112-145 | after any uncut run it offers the latest applied config that differs from the current one, and nothing exactly when every applied config was the same |
| ApplySafety.AllowedKeeps | internal/apply/confirm.go:363-409 | an effect that keeps to the discipline keeps the protocol's invariant: tokens drawn once, a revertible session, a covering timer, rules on trial only with a session, a trusted baseline, and sessions ended once each |
| ApplySafety.HoldsAtEveryCut | internal/apply/confirm.go:543-599 | the invariant holds wherever a process dies inside an operation |
| ApplyRuns.OpAllowed | internal/apply/confirm.go:543-677 | every effect of every operation keeps to the discipline, from every state, whatever the commands answer |
| ApplyRuns.RollbackRun | internal/apply/confirm.go:363-409 | a rollback keeps to the discipline and finishes exactly when one of its three reloads loads everything; otherwise the session stays, marked failed |
| ApplyRuns.RollbackOutcome | internal/apply/confirm.go:363-409 | a finished rollback leaves no session, the baseline in the records and on the host, geo sets included, the history from the copies, and the differing bytes of config.yaml kept |
| ApplyRuns.ArmRun | internal/apply/confirm.go:543-599 | every effect an Apply has before its reload keeps to the discipline, and one that gets to the reload leaves exactly this: a session with a new token of this boot, its timer armed, the copies of the history beside it, and, for a new session, no trace of an earlier revert |
| ApplyOutcomes.RevertOutcome | internal/apply/confirm.go:654-677 | a revert by hand, or by the session's own timer, whose reload works: config.yaml is the baseline, a differing config.yaml is kept as rejected, and the revert is on record as manual or as a timeout; a reason recorded earlier stays; only after a failed Apply do the edits go back into config.yaml with no revert on record |
| ApplyOutcomes.OtherTimersDoNothing | internal/apply/confirm.go:668-675 | without a session, or for a token that is not the session's, a revert has no effect and says so |
| ApplyOutcomes.LiveSessionRefuses | internal/apply/confirm.go:431-440 | while a session waits in the boot it was armed in and systemctl does not call its timer dead, a one-way reload and a boot load are refused without an effect, and a recovery leaves it alone |
| ApplyOutcomes.LeftOverIsTakenBack | internal/apply/confirm.go:431-440 | a session of another boot, one whose timer is dead, or one whose revert did not finish is taken back by a reload, a boot load and a recovery: baseline on the host and in the records, rejected edits kept, also those of a failed Apply, and the revert on record as interrupted unless it had a reason |
| ApplyOutcomes.FailedRevertStays | internal/apply/confirm.go:385-393 | when no attempt works the session stays on disk, marked failed, with its token, whoever tried |
| ApplyOutcomes.LoadOutcome | internal/apply/reload.go:95-112 | a load of config.yaml succeeds exactly when it is valid and everything loads, and then host, hash, .bak and history are as told; one that fails records nothing |
| ApplyOutcomes.RecordsFollowTheHost | internal/apply/reload.go:95-112 | wherever a load is cut, the hash and the history name only what is on the host completely |
| ApplyOutcomes.ReloadOutcome | internal/apply/reload.go:73-93 | a reload without a session is refused, without an effect, exactly for another file than the one named, and otherwise loads config.yaml |
| ApplyOutcomes.BootOutcome | internal/apply/confirm.go:463-502 | a boot without a session loads .bak and leaves the records when .bak is known to be applied last and has confirm on; with confirm off, or when it is not known, it loads and records config.yaml |
| ApplyOutcomes.ApplyAnswer | internal/apply/confirm.go:543-599 | for each answer of an Apply, exactly when it gives that answer |
| ApplyOutcomes.RefusedApply | internal/apply/confirm.go:551-581 | an Apply that is refused changes nothing but, at most, an empty session directory |
| ApplyOutcomes.FirstApplyCut | internal/apply/confirm.go:566-583 | wherever a first Apply is cut before its reload, without a session on disk there is nothing of it but copies and a timer |
| ApplyOutcomes.AppliedOutcome | internal/apply/confirm.go:543-599 | a successful Apply leaves config.yaml on the host and in the records, on trial, a waiting session of this boot with the one timer armed last, the earlier timer stopped, and the copies of the first session's history |
| ApplyOutcomes.ConfirmOutcome | internal/apply/confirm.go:628-650 | exactly when a confirmation succeeds; then the session, its copies and its timer go, and in any case config.yaml, records and host stay |
| ApplyOutcomes.InitOutcome | internal/state/apply_state.go:74-88 | a host without a record of what is applied takes config.yaml for it, and nothing else changes |
| ApplyOutcomes.SaveOutcome | internal/apply/config_yaml.go:24-27 | a save puts a valid config into config.yaml and changes nothing else, and an invalid one changes nothing |
| ApplyOutcomes.DiscardOutcome | internal/state/config_history.go:88-108 | for each answer of discarding pending edits, exactly when it is given, and that only config.yaml changes, to .bak |
| ApplyOutcomes.RestorePreviousOutcome | internal/state/config_history.go:112-145 | config.yaml becomes the newest of .bak.1 to .bak.5 that differs from .bak, exactly when there is one and it is valid; nothing else changes |
| ApplyOutcomes.RestoreRevertedOutcome | internal/apply/confirm.go:745-782 | exactly when a rejected config may be restored; then it moves into config.yaml and the record of the revert goes |
| ApplyOutcomes.RestoreRevertedCut | internal/apply/confirm.go:778-781 | wherever that is cut the rejected config is in config.yaml or still kept |
| ApplyOutcomes.DismissOutcome | internal/apply/confirm.go:785-793 | forgets the last revert and the config it kept, and nothing else |
| ApplyOutcomes.GeoOutcome | internal/apply/reload.go:297-360 | exactly when a geo update loads sets, and of which config; nothing else changes |
| ApplyWorld.SafeRun | internal/apply/confirm.go:431-677 | the invariant, and what the running operation still has to do, hold in every state of every run: any interleaving of operations, timers, crashes and reboots |
| ApplyClaims.UnconfirmedNeedsSession | internal/apply/confirm.go:543-650 | in every state of every run, rules nobody confirmed are loaded only while a session is on disk whose copies are what the records named at its start; and that is the last confirmed config, unless the last confirmation came before its Apply's record and no one-way reload has recorded since |
| ApplyClaims.ConfirmNeedsRecord | internal/apply/confirm.go:628-650 | a confirmation leaves records that name what it confirmed, or nothing, if and only if the Apply's record was in place |
| ApplyClaims.TrustComesBack | internal/apply/confirm.go:628-650 | whatever came before, after a one-way reload that succeeds the records name the last confirmed config, and after a confirmation that finds its Apply's record in place the trust in them is back |
| ApplyClaims.ConfirmedTooEarly | internal/apply/confirm.go:628-650 | a run in which an Apply dies between loading the firewall and recording the hash, is confirmed, and the next session's baseline is not the last confirmed config |
| ApplyClaims.TimerCoverage | internal/apply/confirm.go:573-624 | in every state of every run an active session of this boot has its own timer armed or gone off, unless a rollback of it stopped that timer |
| ApplyHistory.HistoryFollowsApplied | internal/state/config_history.go:50-85 | in every state of every run of the whole protocol, unless a revert has begun and not ended, .bak to .bak.5 are a subsequence of all configs recorded as applied; and the copies beside a session are in any case |
| ApplyHistory.OpFits | internal/apply/confirm.go:322-357 | whatever an operation does, what it puts into .bak is the config it has just recorded as applied, above configs applied before, unless it is reverting |
| ApplyTimers.OpRecords | internal/apply/confirm.go:603-624 | an operation writes into the session file only the token already there or one never drawn before |
| ApplyTimers.SpentTimerNeverActs | internal/apply/confirm.go:654-677 | over every run, a token that was drawn, is not the session's and is not about to be recorded never becomes current, and the process of its timer does nothing |
| ApplyTimers.TimersAreOwnOrSpent | internal/apply/confirm.go:603-624 | in every reachable state with the lock free, each timer armed or gone off is the session's own or one that never acts again, those of processes that died before recording them included |
| ApplyTimers.UnrecordedTimerIsSpent | internal/apply/confirm.go:603-624 | from any active session: a re-Apply that dies after arming its timer leaves the session as it was and an armed timer no session ever had, and that one never acts |
| ApplyClaims.EachSessionEndsOnce | internal/apply/confirm.go:628-677 | in every run each session ends once, as confirmed or reverted, and only the one on disk has not ended |
| ApplyClaims.EndingsStand | internal/apply/confirm.go:628-677 | how a session ended never changes: whoever got the lock first decided it |
| ApplyClaims.RecoveryReachesBaseline | internal/apply/confirm.go:431-531 | from any state with a session, one recovery step (timer, manual revert, boot, one-way reload that finds the timer dead, API start) with a reload that works ends at the baseline with no session |
| ApplyClaims.SessionKeepsStart | internal/apply/confirm.go:603-624 | re-Applies and saves leave a waiting session's copies and recorded start as they were |
| ApplyClaims.RevertLosesNothing | internal/apply/confirm.go:322-357 | what config.yaml held and the baseline does not is, after a finished revert, in config.yaml or in config.yaml.reverted |
| ApplyClaims.FailedApplyLeavesConfig | internal/apply/confirm.go:585-591 | an Apply that failed and was taken back leaves config.yaml as it was, if and only if there was one and no older rejected config stands in for a config.yaml that equals the baseline |
| ApplyClaims.SessionReloadsOnlyBaseline | internal/apply/confirm.go:431-440 | a one-way or boot reload that finds a session loads nothing but that session's baseline |
| ApplyBoot.BootLoadsOne | internal/apply/confirm.go:463-502 | with no session a boot loads one config only, the last applied one when the records agree on it and it has confirm on, else config.yaml; on success that is what runs and config.yaml is untouched |
| ApplyBoot.BootLoadsLastApplied | internal/apply/confirm.go:463-502 | with no session and confirm on in the last applied config, a boot that succeeds makes that config live if and only if .bak holds it too or config.yaml does |
| ApplyBoot.BootLoadsLastConfirmed | internal/apply/confirm.go:463-502 | with no session a boot that succeeds makes the last confirmed config live if and only if the records agree on it and it has confirm on, or they agree on none with confirm on and config.yaml holds it; where the records can be trusted, agreeing on one with confirm on is enough |
| ApplyBoot.BootEndsSession | internal/apply/confirm.go:446-486 | a boot that finds a session loads nothing but its baseline, with confirm on or off, and on success that is what runs, with no session left |
| ApplyBoot.BootForgetsReload | internal/apply/confirm.go:470-475 | a run after which a boot succeeds and loads a config nobody applied, although the recorded hash names one with confirm on: the reload of that one died before .bak was written |
| ApplyBoot.BootForgetsConfirmed | internal/apply/confirm.go:470-475 | the same run with an Apply that dies there and is then confirmed: what was confirmed is not what boots |
| ApplyBoot.BootForgetsUnrecorded | internal/apply/confirm.go:463-502 | a run in which an Apply dies before the hash record and is confirmed, and the config before it is what boots |
| ApplyClaims.HashedReloadIsExact | internal/apply/reload.go:56-93 | a reload that carries a hash loads the bytes with that hash, the baseline of a session it takes back first, or nothing, and succeeds only with exactly those bytes on the host |
| ApplyClaims.HashedApplyIsExact | internal/apply/confirm.go:543-599 | an Apply that carries a hash puts only the bytes with that hash on trial, and has no effect at all when config.yaml holds anything else |
| ApplyClaims.GeoUpdateIsHeldBack | internal/apply/reload.go:297-360 | a geo update touches only the geo sets, is refused while a session is on disk, and with confirm on uses the last applied config |
| ApplyRollback.CuttableSteady | internal/apply/confirm.go:322-409 | wherever a rollback is cut, what it will keep and what it goes back to are as they were |
| ApplyRollback.RollbackIsRepeatable | internal/apply/confirm.go:322-409 | any number of rollbacks cut off or failed, with reboots between them, then one that finishes, end as one undisturbed rollback with the last one's flag and the first recorded reason: config.yaml, the kept config, history, hash, host and geo sets |
| ApplyRollback.StaleCopyIsLost | internal/apply/confirm.go:395-403 | where the condition of the claim above fails, cutting a failed Apply's rollback just before its last effect does change the outcome |
| ApplyLeftovers.FailedApplyBringsBackRejected | internal/apply/confirm.go:395-403 | a run after which a failed Apply replaces config.yaml by a config rejected earlier: a revert kept it, and the next first Apply died before it removed it |
| ApplyLeftovers.StaleCopyIsReached | internal/apply/confirm.go:575-583 | a run that ends with a session whose config.yaml.reverted equals its baseline, the case in which a rollback is not repeatable |
| ApplyHost.Host.RecordSnapshot | internal/state/config_history.go:50-85 | the rotation loop has exactly the steps of the recording, in order |
| ApplyHost.Host.SnapshotBaseline | internal/apply/confirm.go:296-317 | clears the session directory and copies each file of the history there is, in order |
| ApplyHost.Host.RestoreBaseline | internal/apply/confirm.go:322-357 | keeps a differing config.yaml, writes the baseline back and then each history file, removing those the copies lack; refuses without a baseline |
| ApplyHost.Host.Reload | internal/apply/reload.go:95-112 | loads config.yaml onto the host, and records hash and history only after all of it loaded |
| ApplyHost.Host.RetryReload | internal/apply/confirm.go:363-409 | tries the reload up to three times and stops at the first that works |
| ApplyHost.Host.RollbackLocked | internal/apply/confirm.go:363-409 | the rollback's effects in order: stop the timer, record that it began, restore, reload, record the outcome, end the session |
| ApplyHost.Host.RearmSession | internal/apply/confirm.go:603-624 | arms the new timer, records it and only then stops the one it replaces |
| ApplyHost.Host.ReloadWithConfirm | internal/apply/confirm.go:543-599 | the Apply's effects in order, with every way it can be refused or fail, and the rollback when its reload fails |
| ApplyHost.Host.CheckOneWayReload | internal/apply/confirm.go:431-440 | a session waiting in its boot, with a timer not called dead, is refused and nothing changes; any other session is taken back |
| ApplyHost.Host.ReloadIfMatch | internal/apply/reload.go:73-93 | checks for a session, then the hash, then reloads |
| ApplyHost.Host.ReloadAtBoot | internal/apply/confirm.go:446-486 | checks for a session, then loads what a boot should |
| ApplyHost.Host.LoadAtBoot | internal/apply/confirm.go:463-502 | with a last applied config that has confirm on the records stay and the host ends with that one; otherwise a success leaves host, hash and .bak at config.yaml |
| ApplyHost.Host.RecoverSession | internal/apply/confirm.go:514-531 | with no session or one whose timer lives nothing changes; any other ends at its baseline exactly when a reload works, and is left on disk, marked failed, when none does |
| ApplyHost.Host.ConfirmApply | internal/apply/confirm.go:628-650 | succeeds exactly on an active session; then the session, its copies and its own timer go, the session first; config.yaml, history, hash, host and every other timer stay in any case |
| ApplyHost.Host.RevertApply | internal/apply/confirm.go:654-677 | has the effects ApplyOutcomes.RevertOutcome and OtherTimersDoNothing speak of, with the reason timeout for a timer and manual otherwise |
| ApplyHost.Host.RestorePreviousConfig | internal/state/config_history.go:112-145 | the search loop finds the previous applied config, and config.yaml becomes it |
| ApplyHost.Host.DiscardPending | internal/state/config_history.go:88-108 | succeeds exactly when config.yaml differs from a valid .bak, and is .bak then; nothing but config.yaml changes, and it only then; 'nothing pending' only when the two are equal |
| ApplyHost.Host.RestoreRejected | internal/apply/confirm.go:745-782 | succeeds exactly with no session, a valid rejected config and config.yaml equal to .bak; then config.yaml is the rejected config, which is kept nowhere else, and the record of the revert is gone; otherwise nothing changes |
| ApplyHost.Host.UpdateGeoSets | internal/apply/reload.go:297-360 | never touches the ruleset or WireGuard, changes no geo set unless it succeeds, and succeeds only with no session, with the sets of the last applied config when that has confirm on, else of config.yaml |
| Sorting.SortInPlace | internal/config/port_maps.go:184-192 | the exchange sort leaves the same numbers in ascending order |
| Ports.ExpandPlain | internal/config/ports_expand.go:61-93 | one token expands to its ports, or is unreadable exactly when a bound is out of 1 to 65535 or the range is reversed |
| Ports.SortedPorts | internal/config/ports_expand.go:47-59 | the collected ports in ascending order, each once |
| Ports.ExpandEntries | internal/config/ports_expand.go:15-59 | succeeds exactly when every entry is readable, and then gives exactly the covered ports, ascending, each once |
| Ports.ValidatePortMaps | internal/config/port_maps.go:22-77 | accepts exactly the maps whose public entries are the route's, each at most once, and whose ranges map to ranges of equal width, a port to a port |
| Ports.RangePortPairs | internal/config/port_maps.go:203-228 | a range mapped to a range gives its ports paired in order, an error exactly when one of the two cannot be read or their widths differ, and nothing when it is not mapped to a range |
| Ports.RangeOfGood | internal/config/port_maps.go:203-239 | with distinct public entries, the map of a range found by its bounds is the one found by its text |
| Ports.PortToMeaning | internal/config/port_maps.go:231-259 | a public port has a target port exactly when an entry covers it, and the first such entry decides, by its map |
| Ports.MappedTo | internal/config/port_maps.go:203-259 | with valid maps, a range moves so that its first port goes to the first one, and any other entry goes to the one port it is mapped to |
| Ports.UnmappedStays | internal/config/port_maps.go:231-239 | without a map a port stays |
| Routes.ParseProtocols | internal/config/config.go:215-246 | the protocols a field speaks, tcp first, each once; refused exactly when a word is unknown or none is given |
| Routes.ClaimsAreEntries | internal/config/port_maps.go:137-182 | with valid maps a route claims exactly the ports its entries cover |
| Routes.MappedRoutesHaveNoBraces | internal/config/port_maps.go:137-182 | of the routes with valid maps, those that can be read are exactly those whose entries are single ports and ranges |
| Routes.ExpandPublicPorts | internal/config/port_maps.go:137-182 | succeeds exactly for readable ports, and then gives exactly the ports the route claims, ascending, each once |
| Routes.ValidateOverlaps | internal/config/config.go:450-485 | accepts exactly the configs whose active routes can all be read and have no protocol and port in common |
| Nft.HitConcat | internal/gen/nftables.go:97-109 | in two chains written one after the other, a packet is decided by the first unless nothing there decides |
| Firewall.BuildLines | internal/gen/nftables_policy.go:51-72 | the DNAT lines of a route: one per entry, or one per port of a mapped range; none when a map cannot be read |
| Firewall.RoutePolicies | internal/gen/nftables.go:153-226 | one policy per active route and protocol, in config order, none in maintenance mode |
| Firewall.WriteNatPrerouting | internal/gen/nftables_paused.go:56-66 | the prerouting chain whose meaning the rows below give, with the paused routes' DNATs as drops |
| Firewall.WriteForward | internal/gen/nftables.go:85-112 | the forward chain whose verdicts FirewallForward.ForwardIsExact gives for every packet |
| Firewall.WriteInput | internal/gen/nftables.go:57-83 | the input chain whose meaning FirewallInput.InputIsExact gives: input_allows, admin ports, WireGuard, then each policy's rules; or nothing when an enabled input_allows entry has another protocol than tcp or udp |
| Firewall.WriteCounts | internal/gen/nftables_accepted.go:52-67 | one counting rule per policy, which asks for the public port as well |
| Firewall.RateLimitNeeds | internal/gen/nftables_rate_limit.go:34-68 | the meters some active route's rules need, by route and protocol |
| Firewall.EmitTableSets | internal/gen/nftables.go:233-253 | the sets of one table, in order, with meters only in the inet table |
| Firewall.NFTables | internal/gen/nftables.go:16-144 | the whole ruleset, or nothing when a route or an input_allows entry cannot be compiled |
| FirewallMeaning.ValidCompiles | internal/gen/nftables.go:394-404 | a config that passes validation compiles if and only if every enabled input_allows entry has the protocol tcp or udp |
| FirewallMeaning.BothIsNotCompiled | internal/config/config.go:273-280 | a valid config whose only input_allows entry is for another word, and that does not compile |
| FirewallMeaning.PoliciesAreDistinct | internal/gen/nftables.go:153-226 | no two policies are of one route and protocol |
| FirewallMeaning.SetsAreDeclared | internal/gen/nftables.go:233-253 | in each table the set behind a name is declared exactly when the config gives it sources, with exactly those |
| FirewallDelivery.PreroutingHit | internal/gen/nftables_policy.go:193-230 | the prerouting rules of one policy and port refuse, pass or leave alone a packet by its admission alone |
| FirewallDelivery.LinesFirst | internal/gen/nftables_policy.go:51-72 | the DNAT lines send a public port where its first covering entry maps it, and cover exactly the route's ports |
| FirewallForward.RateRulesHit | internal/gen/nftables_rate_limit.go:142-175 | a policy's rate rules drop exactly the packets of its traffic over a bound meter: connections of new and known flows, SYNs of new ones, and all UDP |
| FirewallForward.ForwardDropsHit | internal/gen/nftables_rate_limit.go:186-200 | a policy's forward drops stop exactly the packets from the WAN into the tunnel that are its traffic and whose source is denied, banned by CrowdSec outside break-glass, or over a limit |
| FirewallForward.ForwardIsExact | internal/gen/nftables.go:85-112 | which packets the forward chain accepts, whichever way they go and whatever conntrack knows of them: local traffic; known flows, unless they go from the WAN into the tunnel and a policy stops them; and what goes that way, is passed by a policy and stopped by none |
| FirewallForward.ForwardHit | internal/gen/nftables.go:97-109 | a new packet to the tunnel passes exactly when no policy stops it and some policy passes it |
| FirewallReplies.KnownIsExact | internal/gen/nftables.go:97-111 | in every config that compiles, a packet of a known flow is forwarded, except one from the WAN into the tunnel whose source is denied, banned, or over the connection or UDP limit of a route it looks like traffic of |
| FirewallReplies.RepliesLeave | internal/gen/nftables.go:101-111 | every reply of a peer leaves through the WAN |
| FirewallReplies.LocalIsExact | internal/gen/nftables.go:90-95 | of what belongs to no known flow and does not go from the WAN into the tunnel, exactly the local containers' traffic is forwarded |
| FirewallTheorem.ForPolicyMeaning | internal/gen/nftables_policy.go:78-91 | after DNAT a packet counts as traffic of its owner, and of an unmapped route with that internal port as a public one, and of nothing else |
| FirewallTheorem.ForPolicyUntouched | internal/gen/nftables_policy.go:78-91 | without DNAT a packet counts as traffic of its owner when its port is one of the owner's internal ports as well, and of no other route |
| FirewallTheorem.PreroutingVerdict | internal/gen/nftables_paused.go:56-66 | prerouting decides by the one route that owns protocol and public port: refuse, leave alone, or DNAT to its target and mapped port |
| FirewallTheorem.DeliveryIsExact | internal/gen/nftables.go:97-109 | compiler correctness: every valid config and new WAN packet with an owner is delivered to the owner's target and mapped port exactly when the owner admits its source, no ban or limit applies, no route it is mistaken for stops it, and the owner or a mistaken route with that target lists its source; it reaches the owner's target at the port it came to exactly when it was on its way there, at an internal port, with a source the owner lists and only its zones leave out, and no ban or limit applies; and it reaches nothing else |
| FirewallTheorem.NothingElseIsDelivered | internal/gen/nftables.go:153-226 | a new packet no active route owns reaches no peer, wherever it comes from and is addressed to, and in maintenance mode none does |
| FirewallTheorem.DeliveryIsThePolicy | internal/gen/nftables_policy.go:193-230 | with no rate limits and no mapped port that is also a port of an unmapped route: a packet reaches a target and port if and only if the one route that owns it maps it there and accepts its source; and this holds of a packet if and only if it is not one addressed into the tunnel, to its owner's target and an internal port, from a source outside allow-mode zones that could use the route otherwise |
| FirewallTheorem.DeliveryIsThePolicyOutside | internal/gen/nftables_policy.go:193-230 | so it holds of every packet with geo blocking off or in block mode, and of every packet not routed into the tunnel before DNAT |
| FirewallTheorem.OutOfZoneIsDelivered | internal/gen/nftables.go:97-109 | in any valid config without limits such a packet reaches the target though the policy does not accept its source |
| FirewallTheorem.ZonesAreMissed | internal/gen/nftables.go:97-109 | a config with one tcp route for the listed zones only, and a packet from outside them that reaches its target |
| FirewallTheorem.DeliveredIsCountedOnce | internal/gen/nftables_accepted.go:43-67 | every delivered packet, translated or not, increments exactly one counter, that of the route owning its public port, also when maps send two routes to one target and port |
| FirewallInput.InputPolicyHit | internal/gen/nftables_policy.go:240-267 | a policy's input rules accept a packet to its ports exactly when its drops do not stop it and its admission lets the source in |
| FirewallInput.PoliciesLetIn | internal/gen/nftables.go:81-83 | all policies together accept it exactly when, outside maintenance, the one route that owns its port lets its source in |
| FirewallInput.AllowsHit | internal/gen/nftables.go:57-73 | the input_allows rules decide exactly the packets to a port some enabled entry opens: accept when geo blocking there passes the source, else drop |
| FirewallInput.InputIsExact | internal/gen/nftables.go:57-83 | for every valid config and packet from outside that belongs to no known flow, the host accepts it exactly when an enabled input_allows entry opens its port and geo blocking passes its source, or no such entry does and it is an admin port, WireGuard's port, or of the active route that admits its source, with no ban and no limit over |
| FirewallInput.KnownAndLocalGetIn | internal/gen/nftables.go:49-55 | packets of known flows and loopback are accepted before anything else is asked |
| FirewallInput.AdminPortIsShut | internal/gen/nftables.go:57-77 | a config in which port 22 is an admin port and an input_allows entry with geo blocking, and a packet to it from outside the zones that is not accepted |
| FirewallPaused.UpdateIsPaused | internal/gen/nftables_paused.go:24-38 | an update for a paused set is, rule for rule, the full chain with those routes' DNATs turned into marked drops |
| FirewallPaused.PausingIsExact | internal/gen/nftables_paused.go:56-82 | for every packet and paused set the update decides as the full chain, except that a DNAT of a paused route is a drop |
| FirewallPaused.MarkersTell | internal/apply/paused_routes.go:37-52 | two updates of one config are equal if and only if the routes they mark are |
| FirewallPaused.PausedRoutesIn | internal/gen/nftables_paused.go:45-54 | the marked routes of a chain, ascending, each once |
| FirewallPaused.Live.Sync | internal/apply/paused_routes.go:26-76 | exactly when it succeeds, and exactly when it gives each of its other answers: it succeeds when the live chain marks the update's routes already, or the loaded ruleset is the config's and the update loads, and only in the second case the chain becomes the update; after success a chain rendered from this config is the update in both |
| FirewallSets.OutputIsClosed | internal/gen/nftables.go:233-253 | for every config that compiles, each set named in input or forward is declared in the inet table, each named in prerouting or in an update for any paused routes is declared in the ip table, and the counting table names none |
| RouteComment.RoundTrip | internal/gen/nftables_accepted.go:25-41 | a listed rule with a printed comment gives back its route and protocol, whatever stands around it, unless something before it reads like one or the index does not fit an int |
| RouteComment.OnlyComments | internal/gen/nftables_accepted.go:31-41 | and a line gives a route only if such a comment with that index and protocol is in it |
| RouteComment.PrintedComment | internal/gen/nftables_accepted.go:19-27 | the comment of a route on each protocol, letter by letter |
| AutoPause.Hysteresis.Observe | internal/autopause/autopause.go:94-108 | one probe: a result of either kind resets the other count, and the state switches exactly when its own count reaches the threshold |
| AutoPause.CountsAreRuns | internal/autopause/autopause.go:85-108 | the two counts are the lengths of the unbroken run of failures or successes the probes end in |
| AutoPause.PausedIffRun | internal/autopause/autopause.go:85-108 | over any probe sequence a peer is paused exactly when some run of toPause failures was completed with no run of toResume successes completed after it |
| AutoPause.SwitchesArePaidFor | internal/autopause/autopause.go:85-108 | pauses times toPause and resumes times toResume together never exceed the number of probes, and pauses and resumes alternate |
| AutoPause.PublishAlternates | internal/autopause/autopause.go:327-360 | if each route's events alternated and ended as its old state, they still do after publishing the new set |
| AutoPause.Loop.Publish | internal/autopause/autopause.go:327-360 | stores the new set and emits one event for each route that came and one for each that went, in that order |
| AutoPause.Loop.DerivePaused | internal/autopause/autopause.go:302-324 | the watched routes whose peer is held paused, in config order |
| AutoPause.Loop.Probe | internal/autopause/autopause.go:209-236 | forgets unwatched peers, counts one result for each watched one, and nothing when handshakes could not be read |
| AutoPause.Loop.Tick | internal/autopause/autopause.go:171-197 | publishes what the peers' states say, and keeps every route's events alternating |
| AutoPause.PeerPausedIffRun | internal/autopause/autopause.go:171-236 | over any run of rounds a peer is held paused exactly when, since it was last not watched, it completed a run of failures and no run of successes after it |
| AutoPause.WatchedAre | internal/autopause/autopause.go:275-288 | the peers probed are those some active route with the setting on targets |
| AutoPause.PausedKeysAre | internal/autopause/autopause.go:302-324 | the paused routes are exactly the watched ones whose peer is held paused, each once and in config order |
| AutoPause.RoutePausedIffRun | internal/autopause/autopause.go:171-324 | over any run of rounds a watched route is paused exactly when its peer, since it was last not watched, completed a run of failures and no run of successes after it |
| EventLog.KeepFromMeaning | internal/eventlog/eventlog.go:162-210 | compaction keeps the longest tail within the 80% target, and the last line in any case |
| EventLog.CompactedTwice | internal/eventlog/eventlog.go:162-210 | compacting again changes nothing |
| EventLog.ReverseInPlace | internal/eventlog/eventlog.go:190-193 | the in-place reversal reverses |
| EventLog.KeepNewest | internal/eventlog/eventlog.go:175-189 | walking back from the newest line collects exactly the tail to keep, newest first |
| EventLog.Compact | internal/eventlog/eventlog.go:162-210 | what compaction writes: that tail in order, or nothing when one line alone is over the cap |
| EventLog.Logger.Append | internal/eventlog/eventlog.go:105-128 | exactly when a line is too long, taken, or finds no room, and what the file is then: it is taken when it fits as the file is or after one compaction, compacted at most once when it is, and the file stays within the cap |
| EventLog.Logger.AppendAfterCompact | internal/eventlog/eventlog.go:130-150 | the attempts and their outcome, for every way the line may fit |
| EventLog.FileIsSuffix | internal/eventlog/eventlog.go:105-210 | after any sequence of appends the file is a suffix of everything taken, and within the cap |
| EventLog.ShortLinesAreAllTaken | internal/eventlog/eventlog.go:105-150 | when no line is longer than a fifth of the cap every append succeeds and the newest record is in the file |
| EventLog.DroppedOnlyWhenFull | internal/eventlog/eventlog.go:162-210 | a record leaves the file only when with it and everything after it the file would pass the target |
| EventLog.CapIsClamped | internal/eventlog/eventlog.go:88-102 | the cap is what was asked for, between 262144 and 8388608 bytes |
| EventLog.CompactionInBytes | internal/eventlog/eventlog.go:162-210 | compaction keeps the longest tail within four fifths of the cap; when the last line is over that, the line alone if it is within the cap, and else nothing |
| Limiter.SlidingLimiter.PruneOld | internal/api/limit.go:19-25 | drops exactly the leading timestamps before the cut |
| Limiter.SlidingLimiter.PruneKeys | internal/api/limit.go:37-44 | prunes every key, and forgets those left empty |
| Limiter.SlidingLimiter.Allow | internal/api/limit.go:29-59 | grants exactly when there is room for the key and, with a global limit, for all, and records the grant for the key and, with a global limit, for all |
| Limiter.RefinesFullHistory | internal/api/limit.go:29-59 | with a clock that does not go back and fixed limits, the next call is refused exactly when a limiter that remembered every grant would refuse it |
| Limiter.NoWindowOverflows | internal/api/limit.go:29-59 | no closed window of the limiter's length ever holds more grants than allowed, of a key or, with a global limit, of all |
| ConfigSave.ParseIfMatch | internal/api/config_handlers.go:45-66 | unconditional without the header or with a star; otherwise exactly the named revisions, weak tags included, so an unreadable header matches nothing |
| ConfigSave.ConfigFile.SaveIfMatch | internal/apply/config_yaml.go:35-68 | mismatch exactly when the file is not at a named revision, checked before the draft is validated, and the file changes only when both pass |
| ConfigSave.ResolveIndex | web/static/js/core/config_save.js:69-80 | the open index if it still fits, else the only row that does; -1 exactly when none does, -2 exactly when it cannot tell |
| ConfigSave.CommitsAreExact | internal/apply/config_yaml.go:35-68 | over every interleaving of clients and other writers, contents that come back included, each committed save replaced what the file held then, and stored its edit of that if and only if the edit makes the same of it as of the bytes the client had fetched; when all did, replaying all writes in order gives the file |
| ConfigSave.CommitIsGoodIff | web/static/js/core/config_save.js:51-67 | for one save, with the file at the client's revision: it stores its edit of the file if and only if the edit makes the same of the bytes that revision is of as of those fetched with it |
| ConfigSave.NoLostUpdate | web/static/js/core/config_save.js:51-67 | over every interleaving in which each fetch's body is of the revision read with it, contents that come back included, each committed save stored its edit of what the file held then, and replaying all writes in order gives the file |
| ConfigSave.NoLostUpdateWithoutRecurrence | web/static/js/core/config_save.js:51-67 | the same with torn fetches, when the file never goes back to an earlier content |
| ConfigSave.AttemptsAreBounded | web/static/js/core/config_save.js:51-67 | in every run, those included in which drafts that are not valid meet a stale revision and are tried again, a save that is about to be tried was refused at most twice before |
| ConfigSave.RefusedIsTriedAgain | web/static/js/core/config_save.js:56-66 | a refused save changes nothing, fetches the file anew and is tried again, until it was refused three times; then it gives up with the fresh config in hand |
| ConfigSave.SecondTryCommits | web/static/js/core/config_save.js:56-66 | with nobody else at work the next try stores the edit of what is in the file |
| ConfigSave.TornFetchLosesAnUpdate | internal/apply/config_yaml.go:35-68 | a run in which the file changes between the two reads of a fetch and goes back, and a save overwrites bytes its edit never saw |
| RowMatch.MatchRows | web/static/js/core/config_changes.js:62-84 | the passes, identical rows first and then each key, pair the rows as MatchOf does, whose meaning the next two rows give |
| RowMatch.MatchMeaning | web/static/js/core/config_changes.js:62-84 | no row is lost or counted twice: each list is the kept rows, the same in both, with its own edited rows and those it alone has |
| RowMatch.KeptMeaning | web/static/js/core/config_changes.js:62-84 | kept pairs are of equal rows, and no row left over has an equal left over in the other list |
| RowMatch.EditedPairsFit | web/static/js/core/config_changes.js:62-84 | after the first key's pass no removed row has the key of an added or edited one, when keys are distinct |
| RowMatch.EditedByRank | web/static/js/core/config_changes.js:62-84 | the keys are tried in their order: each edited pair is made by one key, no two rows that a key could pair are both open after it, and one key pairs rows in the order of both lists |
| RowMatch.KeptInOrder | web/static/js/core/config_changes.js:62-84 | kept pairs come in the applied list's order, and equal rows are kept in the order of both lists |
| RowSteps.KeyOfCanon | web/static/js/core/config_changes.js:362-386 | rows that count as equal have the same public key |
| RowSteps.OrderCounted | web/static/js/core/config_changes.js:389-407 | putting rows in an order moves no row in or out |
| RowSteps.SetOrderInPlace | web/static/js/core/config_changes.js:389-407 | in place: the wanted rows found take the slots they occupy in the order wanted, everything else stays, and a move is reported exactly when some slot's row changed |
| RowChanges.DescribeRows | web/static/js/core/config_changes.js:224-243 | the steps of a list: a removal, an edit or an addition for each row that is not kept, and the order when the kept rows moved |
| RowChanges.StepsReadInOrder | web/static/js/core/config_changes.js:224-243 | a list's changes come as removals, edits, additions and at most one order, removals and additions in list order |
| RowChanges.RevertingRows | web/static/js/core/config_changes.js:362-386 | taking back every step of a list once, in any order, is never refused and leaves exactly the applied rows, each as often as it was, when public keys are distinct |
| RowChanges.NoChangesIffEqual | web/static/js/core/config_changes.js:214-243 | a list has no changes exactly when it is row by row, in order, the same |
| RowUndo.MoveTrades | web/static/js/core/config_changes.js:362-386 | moving a row trades one row like the one it takes for the one it brings and touches no other; or it changes nothing |
| RowUndo.ComesBack | web/static/js/core/config_changes.js:362-373 | a row comes back exactly when the list has fewer of it than the applied one, at its old slot or at the end of a shorter list, and is refused exactly when then its key is taken |
| RowUndo.GoesAgain | web/static/js/core/config_changes.js:374-378 | a row goes exactly when the list has more of it than the applied one, and the first alike is the one that goes |
| RowUndo.TurnsBack | web/static/js/core/config_changes.js:379-386 | the first row alike turns back where it stands, the edit counts as done when the old one is there instead, and is refused exactly when neither is |
| RowUndo.UndoGivesRowsBack | web/static/js/core/config_changes.js:440-448 | undoing a revert gives the rows from before it if and only if the list never had fewer of a returned row, or more of a taken one, than the saved one, and no other row has its key |
| RowUndo.UndoAtOnce | web/static/js/core/config_changes.js:440-448 | on the list as saved, every listed row change that was taken back can be undone |
| RowUndo.UndoingRows | web/static/js/core/config_changes.js:432-448 | on the list as saved, taking back any of the listed row steps in any order and then reapplying them is never refused and gives the saved rows, each as often |
| RowUndo.RemovedRowReturns | web/static/js/core/config_changes.js:362-373 | the only row removed comes back where it was |
| RowUndo.AddedRowReturns | web/static/js/core/config_changes.js:362-378 | the only row added, taken out and put back, is where it was, unless a row alike stands before it |
| RowUndo.EditedRowTurnsBack | web/static/js/core/config_changes.js:379-383 | the only row edited turns back where it is, unless a row alike stands before it |
| RowUndo.WantedInOrder | web/static/js/core/config_changes.js:389-407 | wanted rows that are all there end in the order wanted, in ascending slots, and every other row where it was |
| RowUndo.OrderIsRestored | web/static/js/core/config_changes.js:214-222 | a list only put in another order has one change, and taking it back gives the rows as they were, in order |
| Json.CanonChild | web/static/js/core/config_changes.js:21-38 | the canonical form of an object has the canonical forms of its fields, with empty ones gone |
| Json.ChildrenSame | web/static/js/core/config_changes.js:21-38 | objects, or missing values, with the same fields are the same, empty fields aside |
| Json.SameAsMissing | web/static/js/core/config_changes.js:15-38 | a missing value is the same as null, false, 0, an empty text or list, and an object whose fields all are, and as nothing else |
| Json.SameWords | web/static/js/core/config_changes.js:15-38 | two texts, numbers or switches are the same exactly when they are equal or both the same as missing |
| ConfigRevert.ProjectChanges | web/static/js/core/config_changes.js:337-356 | the changes at a key are the changes between the two values there: each difference is listed once, at its own place |
| ConfigRevert.SplitRun | web/static/js/core/config_changes.js:409-438 | taking steps back under different keys never interferes, whatever their order |
| ConfigRevert.ListReverts | web/static/js/core/config_changes.js:362-430 | reverting all of a list's steps on the stored list, in any order, gives the applied rows |
| ConfigRevert.NoChangesIffAlike | web/static/js/core/config_changes.js:337-356 | nothing is listed exactly when the configs have equal settings and equal rows in the same order in every list |
| ConfigRevert.RevertingAllChanges | web/static/js/core/config_changes.js:337-442 | taking all changes back in any order never refuses and gives equal settings and equal row multisets in every list, when the saved config is reachable |
| ConfigRevert.RevertsIffReachable | web/static/js/core/config_changes.js:46-51 | and it does so if and only if no empty list stands in the saved config where the applied one has an object that differs |
| ConfigRevert.ObjectToEmptyList | web/static/js/core/config_changes.js:46-51 | an object that became an empty list: a pair of configs that fits and is not reachable |
| ConfigRevert.HiddenDifference | web/static/js/core/config_changes.js:306-320 | two scalar lists with nothing listed between them differ exactly when two different empty values stand at one position |
| ConfigKeeps.RevertStaysInPlace | web/static/js/core/config_changes.js:409-430 | taking a step back changes nothing beside the place it names |
| ConfigKeeps.RevertsStayInPlace | web/static/js/core/config_changes.js:432-442 | nor do any number of them: what was saved elsewhere meanwhile stays |
| ConfigKeeps.ValueComesBack | web/static/js/core/config_changes.js:409-418 | a value is refused exactly when it moved on or setPath would throw, and never overwritten then; otherwise it is back afterwards exactly when objects or nothing lead to its place |
| ConfigFold.FoldCascades | web/static/js/core/config_changes.js:250-267 | the loops with their splices give the entries ConfigCascade.CascadesAreExact describes |
| ConfigCascade.CascadesAreExact | web/static/js/core/config_changes.js:250-267 | a peer's entry holds, after its own steps and in list order, those of exactly the routes it takes along and no earlier peer does: that peer was on and is gone or off, its tunnel host is not empty and is the route's target, and the route was on, is off, and differs in nothing else; the routes listed apart are those no peer takes along |
| ConfigCascade.KeepsOwnSteps | web/static/js/core/config_changes.js:250-259 | a peer that was off before, stays on, or has no tunnel host keeps its own steps only |
| ConfigCascade.SwitchedOnly | web/static/js/core/config_changes.js:255-257 | two rows are the same with their switches aside exactly when every other field is |
| ConfigFold.FoldingKeepsSteps | web/static/js/core/config_changes.js:250-267 | folding loses no step and adds none, and a route stays listed apart exactly when no listed peer takes it along |
| ConfigFold.EntriesRevert | web/static/js/core/config_changes.js:350-356 | taking the listed entries back one at a time, each once and in any order, gives the applied config if and only if it is reachable |
| ConfigUndo.UndoingChanges | web/static/js/core/config_changes.js:432-448 | taking back any of all the listed steps, in any order, and then undoing exactly those is never declined and gives the saved config: equal settings, and in every list its rows, each as often |
| ConfigUndo.UndoingEntries | web/static/js/core/config_changes.js:432-448 | the same for the listed entries as the user takes them back and undoes them, values, orders and peers with their routes included |

## Left out

Assumptions of the Apply protocol: the hash is injective and is represented by the bytes it is of, tokens are fresh, the
boot id can be read, one file write, rename, removal or session-directory removal is atomic, writes fail only by crashing,
and systemctl never calls an armed timer dead. The lock is a mutex; `EnsureApplyStateFromDisk` is modelled under it.

- Backup and restore archives, peer bundles, metrics, GeoIP, DNS and host warnings.
- systemd, nft, wg and tar themselves: they are effects that happen or not, and answers that are given.
- YAML, JSON and nftables text; the rules are data. Of the text only the counter comment is modelled.
- ApplyClaims.UnconfirmedNeedsSession: its last part says nothing between a confirmation that came before its Apply's record
  and the next completed one; ConfirmNeedsRecord, ConfirmedTooEarly and TrustComesBack say why, and exactly when.
- ApplyRollback.RollbackIsRepeatable: with the condition StaleCopyIsLost shows to be needed, for a rejected copy equal to
  the baseline.
- The firewall's postrouting masquerade, log limits and drop counters, WireGuard's own configuration, cancellation of a
  running command.
- Rate meters: whether a meter is over is a fact about the packet; how the kernel counts is not modelled.
- A port entry is its parsed value, so "80" and "080" are one entry; blank entries are dropped before; brace lists do not
  nest. The port of an input_allows entry is one such value. A geo set named like a generated set is not modelled.
- A DNAT to a target is taken to route into the tunnel.
- FirewallTheorem.DeliveryIsThePolicy: leaves rate limits and mistaken routes to FirewallTheorem.DeliveryIsExact, which has both.
- AutoPause.Loop.Tick: watched routes have distinct keys, as the overlap check ensures; handshake and ping signals arrive
  as the set of peers online; a config that cannot be loaded leaves everything as it is and is no step.
- The event log's lines are the ones the logger wrote; ReadTail is not part of this model.
- The limiter's clock does not go back and its limits are fixed, as its callers pass constants.
- Saving: an API without ETags is not modelled; unconditional saves by the command line appear as writes of others. A header
  is a list of tags already read from its text.
- The change list: texts and labels; numbers are integers; a path is its keys, so keys that contain a dot cannot collide;
  rows' keys other than the public key, and how addresses are written as hosts, are arbitrary functions; a null row in the
  applied list and a row list at a place no object leads to are outside `Fits`.
- ConfigRevert.RevertsIffReachable: the draft is a value, so update in place and aliasing of the draft's parts are not
  captured; only setRowOrder is also modelled on an array. What setPath stores on a list is lost at once, not when the
  draft is sent.
- RowUndo.UndoGivesRowsBack: when others changed the list meanwhile, the exact condition is for one row step; for whole
  entries ConfigUndo.UndoingEntries has the saved config and nobody else at work.
- ConfigUndo.UndoingChanges: like the revert it undoes, for configs that fit and are reachable; the saved lists hold no null.
