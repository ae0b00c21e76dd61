# Verification of the platform's client and routing logic

This project models the parts of the platform that keep state across asynchronous steps or loop over unbounded input, and
proves what holds in every run of them:

- **Outbound routing** of the platform-management plugin: the routed iterator around a provider's stream, the ownership of
  the global `fetch`, the provider handles, and the proxy variables of the shared environment.
- **The update notice**, which any number of browser tabs show one at a time through a lease in local storage.
- **The logs**: the bounded, de-duplicated list of entries with its clear cutoff, and the merging of split JSON messages.
- **Client protocols**: the single-flight loaders, the settings editor with its revision check, the queue of immediate
  proxy saves, the conflict dialogs of pasting and uploading, the upload queue, and the reconnecting terminal.
- **Parsing**: the direct rules of the proxy form, and the line framing of the PTY helper.

Each module holds one component. A component that the source writes as an object, a closure or module variables with
handlers is a class whose methods are proved equal to the steps of a specification state machine; the theorems then speak
about all runs of that machine, with the environment (server replies, other writers, timers, users, the routing state
file) free to take any step at any time. A loop of the source is a method with a loop, proved equal to a recursive function.

Where the code does not meet the plain claim, the module keeps the code's behaviour, shows an input for which the claim
fails, and proves the exact condition under which it holds:

- A loader call made between the end of the loop and the clearing of its slot resolves with the result from before it
  (`SingleFlight.FreshExactlyOutsideTheGap`).
- A fetch disposer that runs twice can remove a later router's registry (`FetchRouter.RepeatedDisposal`).
- A notice renewal that is ten seconds late lets a second tab show the notice (`NoticeLease.SecondTabEntersExactlyAtExpiry`).
- A failure of closing an owned dispatcher replaces the result of the call that ended the stream
  (`RoutedIterator.EveryReportIsTheInnerReply`, `RoutedIterator.FailedCloseReplacesTheResult`), and a failure to create the
  inner iterator leaves the dispatcher open (`RoutedIterator.OwnedDispatcherStaysOpenExactlyUntilTheEnd`,
  `RoutedIterator.FailedCreationLeavesTheDispatcherOpen`).
- A proxy toggle that throws rejects the queue for good (`ProxySaves.LinkSendsExactlyWhenItCan`,
  `ProxySaves.ToggleBeforeLoadingRejectsTheChain`), and the master and scope checkboxes are read only when their turn
  comes, after replies, failures and reloads have been rendered into them (`ProxySaves.QueuedCheckboxSavesTheRenderedValue`,
  `ProxySaves.OnAndOffSavesOnTwice`, `ProxySaves.FailedSaveOverwritesTheCheckbox`).
- Text typed in the editor while it saves is replaced by the reply that accepts the save
  (`SettingsDocument.TypedTextSurvivesExactlyWhen`, `SettingsDocument.EditsDuringASaveAreReplaced`).
- An upload that is cancelled while its folders are prepared is sent all the same
  (`UploadQueue.CancelledItemIsSentExactlyAfterItsFolders`, `FileConflicts.CancelledAmongFoldersIsSentExactlyWhen`,
  `FileConflicts.CancelledUploadIsSent`).
- A second upload can start beside a first one when all that is left of the first has been cancelled
  (`UploadQueue.GuardRefusesExactlyWhen`); the two then take each other's tasks, so that a cancelled file is sent and an
  uncancelled one passed over (`UploadQueue.OverlappingUploadsMixTheirTasks`, `UploadQueue.OverlappingIsReachable`).
- A terminal socket that reports an error after the exit message reconnects (`TerminalReconnect.CloseSchedulesExactlyWhen`,
  `TerminalReconnect.ErrorAfterExitReconnects`), and a connection that the page opens beside an open one leaves that one
  open (`TerminalReconnect.ConnectOverlapsExactlyWhen`, `TerminalReconnect.SecondConnectLeavesTheFirstOpen`).
- A save or proxy request that seems to have failed may still be stored, after which the next one conflicts
  (`SettingsDocument.FailedSaveMayStillBeStored`, `ProxySaves.BrokenRequestMayStillBeStored`).
- Merged log lines lie within two seconds of their first line only if their timestamps can be read and do not go back
  further (`LogCompaction.CompactedEntryIsCloseExactlyWhen`, `LogCompaction.OlderAndUnreadableLinesAreMerged`).

`dafny verify dfyconfig.toml` checks the project.

## Model

| member | source | states |
|---|---|---|
| RoutedIterator.EveryOperationRunsUnderTheFirstRoute | container/environment/resources/plugins/platform-management/package/lib/provider-routing.js:129-171 | over all runs: the route is resolved at most once, from the routing state at the first call; every inner operation runs under that route, with its call's method and argument, in the order of the calls, and a call is asked of the inner iterator exactly when it shows a reply or waits for one |
| RoutedIterator.EveryReportIsTheInnerReply | container/environment/resources/plugins/platform-management/package/lib/provider-routing.js:141-157 | over all runs: a settled call reports the inner iterator's one result or error to it (or the failure of route or creation, or the answer for a missing method), except that a failing close of the owned dispatcher replaces it; when a call settles is the next row |
| RoutedIterator.EveryCallSettlesByItsEvents | container/environment/resources/plugins/platform-management/package/lib/provider-routing.js:134-163 | over all runs and calls: a call settles if and only if its route or creation failed when it resumed, its inner reply does not end the stream, or the close it awaits is over; it then reports that error, that reply, the error of closing, or, once closing succeeded, the pending reply or the answer for a missing method; the calls are those made, in order |
| RoutedIterator.RunRecordsEnding | container/environment/resources/plugins/platform-management/package/lib/provider-routing.js:141-157 | every run records each failure to begin and each end of closing, once, with the call it belongs to |
| RoutedIterator.RecordedReplyIsTheAnswer | container/environment/resources/plugins/platform-management/package/lib/provider-routing.js:149-156 | over all runs: the inner iterator answers a call at most once, and that answer is the one the call records |
| RoutedIterator.CloseProtocol | container/environment/resources/plugins/platform-management/package/lib/provider-routing.js:141-163 | over all runs: close is called at most once, only on an owned dispatcher and only after some call ended the stream; once the inner iterator exists, no call reports done, an error or a missing method before it |
| RoutedIterator.OwnedDispatcherStaysOpenExactlyUntilTheEnd | container/environment/resources/plugins/platform-management/package/lib/provider-routing.js:141-163 | over all runs: a dispatcher made for an issued handle is open if and only if no call has ended the stream through the inner iterator |
| RoutedIterator.FailedCreationLeavesTheDispatcherOpen | container/environment/resources/plugins/platform-management/package/lib/provider-routing.js:142-143 | concrete runs: when creating the inner iterator fails, its call is over and the dispatcher is still open |
| RoutedIterator.FailedCloseReplacesTheResult | container/environment/resources/plugins/platform-management/package/lib/provider-routing.js:149-156 | concrete runs: a done result is replaced by the error of closing |
| RoutedIterator.InnerSeesExactlyTheCalls | container/environment/resources/plugins/platform-management/package/lib/provider-routing.js:129-171 | when no call fails before the inner iterator and no method is missing, the inner iterator is asked exactly the consumer's calls, one by one and in order |
| RoutedIterator.AskedPolicyNeverChanges | container/environment/resources/plugins/platform-management/package/lib/provider-routing.js:134-139 | a cached route promise keeps the routing state it was asked under, whatever the state becomes |
| RoutedIterator.CallsAreNumbered | container/environment/resources/plugins/platform-management/package/lib/provider-routing.js:141-157 | without early failures the k-th inner operation is that of the k-th call |
| RoutedIterator.EveryStepKeepsInvariant | container/environment/resources/plugins/platform-management/package/lib/provider-routing.js:129-171 | every step, in any interleaving, keeps the agreement of the closure variables, the phases of the calls and the inner operations |
| RoutedIterator.EveryRunKeepsInvariant | container/environment/resources/plugins/platform-management/package/lib/provider-routing.js:129-171 | so does every run |
| RoutedIterator.RoutedStream.Begin | container/environment/resources/plugins/platform-management/package/lib/provider-routing.js:134-142 | a call up to its first await: only the first one asks for the route |
| RoutedIterator.RoutedStream.SettleRoute | container/environment/resources/plugins/platform-management/package/lib/provider-routing.js:134-139 | the route promise settles once for all calls |
| RoutedIterator.RoutedStream.Continue | container/environment/resources/plugins/platform-management/package/lib/provider-routing.js:142-150 | from the route to the next await: lazy creation of the inner iterator, the missing-method branch, or the inner operation |
| RoutedIterator.RoutedStream.SettleInner | container/environment/resources/plugins/platform-management/package/lib/provider-routing.js:150-157 | the reply of the inner iterator: done and errors close the stream first |
| RoutedIterator.RoutedStream.Close | container/environment/resources/plugins/platform-management/package/lib/provider-routing.js:159-163 | the flag is set before the await, and only an owned dispatcher is closed |
| RoutedIterator.RoutedStream.SettleClose | container/environment/resources/plugins/platform-management/package/lib/provider-routing.js:145-156 | a close that succeeded settles its call with the pending answer, one that failed with its error; which of the two a caller sees is EveryCallSettlesByItsEvents |
| ProviderRouting.IssueProviderHandle | container/environment/resources/plugins/platform-management/package/lib/provider-routing.js:85-98 | one retry exactly after a revision conflict of the first request; the outcome is that of the last attempt, and a handle was issued under the revision read in the same attempt |
| ProviderRouting.OwnedExactlyForHandles | container/environment/resources/plugins/platform-management/package/lib/provider-routing.js:208-224 | a route is owned exactly when it uses a fresh provider handle, which it does exactly for independent providers whose policy is on or unreadable; the shared proxy is used exactly when a readable state enables both the provider and the DSH scopes |
| ProviderRouting.DisabledProxyMeansDirect | container/environment/resources/plugins/platform-management/package/lib/provider-routing.js:197-222 | with the proxy switched off every stream and every tool goes directly |
| ProviderRouting.PolicyDecidesItsProviderOnly | container/environment/resources/plugins/platform-management/package/lib/provider-routing.js:208-224 | with the proxy on, setting the policy of one provider decides the route of its streams, and the routes of all other providers stay |
| ProviderRouting.ToolsUseTheAgentsProxyExactlyWhen | container/environment/resources/plugins/platform-management/package/lib/provider-routing.js:197-203 | a tool uses the agents' proxy if and only if a readable state enables the proxy and the agents' network |
| FetchRouter.RouterProtocol | container/environment/resources/plugins/platform-management/package/lib/provider-routing.js:100-127 | after any installs and at-most-once disposals: the global fetch is a wrapper exactly while a registry exists, which is while the last installer has not disposed; the registry carries the last installer; no saved original is a wrapper |
| FetchRouter.DisposalEffect | container/environment/resources/plugins/platform-management/package/lib/provider-routing.js:122-126 | a superseded owner's disposal leaves fetch and registry alone; the current owner's restores the platform's fetch |
| FetchRouter.FetchUsesTheLatestInstaller | container/environment/resources/plugins/platform-management/package/lib/provider-routing.js:106-112 | after any history a fetch call uses the latest installer's store, else its resolver, and its routed fetch; without a route or with a dispatcher of its own it reaches the platform's fetch, never another wrapper |
| FetchRouter.RepeatedDisposal | container/environment/resources/plugins/platform-management/package/lib/provider-routing.js:122-126 | running a disposer a second time changes something exactly when its owner was the last of its registry and another router is installed now |
| FetchRouter.DoubleDisposalBreaksTheProtocol | container/environment/resources/plugins/platform-management/package/lib/provider-routing.js:122-126 | a concrete history that leaves a wrapper without a registry |
| FetchRouter.RunFollows | container/environment/resources/plugins/platform-management/package/lib/provider-routing.js:100-127 | the registry follows the list of installers through every history |
| FetchRouter.GlobalScope.InstallFetchRouter | container/environment/resources/plugins/platform-management/package/lib/provider-routing.js:100-121 | installing wraps the global once and afterwards only replaces the owner |
| FetchRouter.GlobalScope.Dispose | container/environment/resources/plugins/platform-management/package/lib/provider-routing.js:122-126 | the disposer compares the owner, then the wrapper |
| SharedEnvironment.ProxyVariablesFollowTheLastReadableState | container/environment/resources/plugins/platform-management/package/lib/index.js:49-76 | after any sequence of readable and unreadable states and of writes by other code, the eight proxy variables are those of the last readable state, or the original ones; if a list of that state cannot be spread, the two NO_PROXY variables are those of the last state before and the other six are gone; every other variable is what the other code made it |
| SharedEnvironment.DisposalRestoresTheOriginal | container/environment/resources/plugins/platform-management/package/lib/index.js:66-84 | disposal gives the eight variables their original values, absent ones included, and keeps the writes of others |
| SharedEnvironment.EachVariableExactlyWhen | container/environment/resources/plugins/platform-management/package/lib/index.js:44-64 | variable by variable, after any history whose last readable state is complete: which of the eight are set, and to what, by that state's switches, and every other variable as other code made it |
| SharedEnvironment.EnvironmentWatcher.constructor | container/environment/resources/plugins/platform-management/package/lib/index.js:66-69 | remembers the eight variables and synchronizes once |
| SharedEnvironment.EnvironmentWatcher.Synchronize | container/environment/resources/plugins/platform-management/package/lib/index.js:49-64 | the deletions and assignments in place amount to replacing the eight variables by those of a readable state; a list that cannot be spread raises after six deletions |
| SharedEnvironment.EnvironmentWatcher.Dispose | container/environment/resources/plugins/platform-management/package/lib/index.js:77-83 | the loop over the eight variables restores or deletes each |
| SharedEnvironment.ManagedSpecMeaning | container/environment/resources/plugins/platform-management/package/lib/index.js:86-98 | rewriting a spec touches only the eight variables of an agent's shell, does not depend on what they were, and is idempotent |
| SharedEnvironment.AgentShellVariables | container/environment/resources/plugins/platform-management/package/lib/index.js:28-98 | what an agent's shell gets of each of the eight variables: undefined when the agents' network is off, the agents' proxy with this process's exceptions when one is configured, its own otherwise |
| SharedEnvironment.NestedLifetimesRestoreTheService | container/environment/resources/plugins/platform-management/package/lib/index.js:100-120 | plugin instances applied and disposed in nested order leave service.spawn as it was |
| SharedEnvironment.ServiceIsRestoredExactlyWhen | container/environment/resources/plugins/platform-management/package/lib/index.js:103-118 | for every history of new plugin instances that disposes of as many as it applies: service.spawn is restored if and only if every disposal finds its own wrapper on top |
| SharedEnvironment.CoveredWrapperStays | container/environment/resources/plugins/platform-management/package/lib/index.js:106-118 | a wrapper that is not taken away by its own disposer stays for good |
| SharedEnvironment.DisposalRemovesExactlyTheTop | container/environment/resources/plugins/platform-management/package/lib/index.js:117-118 | a disposer takes its wrapper away exactly when that is on top |
| NoticeLease.AtMostOneTabShows | container/environment/resources/plugins/platform-management/package/lib/client.js:1135-1229 | for any number of tabs and every run in which no renewal is ten seconds late: at most one tab shows the notice, and it holds the stored, unexpired lease |
| NoticeLease.SecondTabEntersExactlyAtExpiry | container/environment/resources/plugins/platform-management/package/lib/client.js:1183-1204 | a second eligible tab takes the notice from one that still shows it if and only if the clock has reached the stored expiry, which means a renewal at least ten seconds late |
| NoticeLease.LateRenewalShowsTwice | container/environment/resources/plugins/platform-management/package/lib/client.js:1183-1206 | a concrete late renewal after which two tabs show the notice |
| NoticeLease.DismissedCandidateIsNotShown | container/environment/resources/plugins/platform-management/package/lib/client.js:1102-1212 | over every timely run before and after: once a candidate is dismissed for good, no tab shows it, nor would at its next rendering, until the dismissals are forgotten or another one of the same kind replaces it; once they are forgotten, a visible tab that is offered it shows it exactly when it is not snoozed and no other tab holds the lease |
| NoticeLease.SnoozedNoticeReturnsExactlyAfterAnHour | container/environment/resources/plugins/platform-management/package/lib/client.js:1183-1212 | over every timely run before and after, with no other snooze: no tab shows a snoozed identity before 3,600,000 ms have passed, and a visible tab with the lease free takes it at its next rendering exactly from then on |
| NoticeLease.ButtonSuppresses | container/environment/resources/plugins/platform-management/package/lib/client.js:1208-1212 | each button suppresses in its own way: one writes the dismissal of the kind and leaves the snooze, the other the snooze and leaves the dismissals; both free the lease and hide the notice |
| NoticeLease.EveryShownNoticeIsWanted | container/environment/resources/plugins/platform-management/package/lib/client.js:1180-1229 | over all timely runs: what is shown is shown in a visible tab and is neither dismissed nor snoozed |
| NoticeLease.NoticeIsHandedOver | container/environment/resources/plugins/platform-management/package/lib/client.js:1160-1195 | when the showing tab is hidden, closed or dismisses the notice, another visible tab shows its own candidate at its next rendering, and not before, exactly when that is not suppressed |
| NoticeLease.LeaseEndsEarlyOnlyByItsHolder | container/environment/resources/plugins/platform-management/package/lib/client.js:1160-1211 | a lease ends before its time exactly by its holder hiding, closing or dismissing; a refresh without a new identity changes nothing |
| NoticeLease.EvaluationShowsExactlyWhen | container/environment/resources/plugins/platform-management/package/lib/client.js:1183-1195 | the effect shows the notice exactly in a visible tab, for a candidate neither dismissed nor snoozed, under a lease no other tab holds |
| NoticeLease.RenewalsAreScheduledOnce | container/environment/resources/plugins/platform-management/package/lib/client.js:1197-1206 | a notice newly shown is due after ten seconds; while it stays only its own renewal moves that and keeps the lease for twenty seconds |
| NoticeLease.TabsGoByWhatTheyWereTold | container/environment/resources/plugins/platform-management/package/lib/client.js:1142-1165 | in every run each tab goes by the visibility and candidate it was last told |
| NoticeLease.RefreshedCandidateChangesNothing | container/environment/resources/plugins/platform-management/package/lib/client.js:1180-1195 | a refresh that offers the same candidate changes nothing, however much time has passed since the tab rendered |
| NoticeLease.RunKeepsSound | container/environment/resources/plugins/platform-management/package/lib/client.js:1135-1229 | every timely run keeps the invariants of lease, rendering and suppression |
| NoticeLease.StepKeepsInvariant | container/environment/resources/plugins/platform-management/package/lib/client.js:1135-1229 | mounting, unmounting, hiding, evaluating, renewing, dismissing and new offers of any tab keep the lease with its owner |
| NoticeLease.RunKeepsInvariant | container/environment/resources/plugins/platform-management/package/lib/client.js:1135-1229 | and so does every timely run |
| NoticeLease.UpdateReminder.Evaluate | container/environment/resources/plugins/platform-management/package/lib/client.js:1180-1195 | the effect: give up, or take or extend the lease when it is free, own, or expired |
| NoticeLease.UpdateReminder.SetVisibility | container/environment/resources/plugins/platform-management/package/lib/client.js:1160-1165 | hiding a tab releases its own lease, then the effect runs |
| NoticeLease.UpdateReminder.SetOffer | container/environment/resources/plugins/platform-management/package/lib/client.js:1142-1150 | a new status changes the candidate; the effect runs only when the identity has changed |
| NoticeLease.UpdateReminder.Renew | container/environment/resources/plugins/platform-management/package/lib/client.js:1202-1204 | the interval extends the lease without looking at it |
| NoticeLease.UpdateReminder.Dismiss | container/environment/resources/plugins/platform-management/package/lib/client.js:1208-1217 | a button marks the candidate as dismissed or snoozed, gives up the lease, then the effect runs; what that achieves is DismissedCandidateIsNotShown and SnoozedNoticeReturnsExactlyAfterAnHour |
| NoticeLease.UpdateReminder.Unmount | container/environment/resources/plugins/platform-management/package/lib/client.js:1169-1177 | unmounting releases only the tab's own lease |
| LogCompaction.CompactionMeaning | container/control-plane/services/management/public/app.js:2493-2525 | an output is the compaction of a list if and only if it renders increasing disjoint intervals, each a single ordinary entry kept unchanged or a minimal parsing run that opens with a bracket and agrees in source, stream, severity and time, with only fragments left out |
| LogCompaction.ReadingIsUnique | container/control-plane/services/management/public/app.js:2497-2525 | there is only one such list of intervals |
| LogCompaction.CompactionHasReading | container/control-plane/services/management/public/app.js:2497-2525 | compaction has such a list from every index on |
| LogCompaction.MergeEndIsMerge | container/control-plane/services/management/public/app.js:2509-2521 | the inner loop finds exactly the shortest parsing run of its opening line |
| LogCompaction.MergeExactlyWhen | container/control-plane/services/management/public/app.js:2500-2521 | a merge field by field: a lone opening bracket, then lines of the same source, stream and severity that come at most 2,000 ms later as far as timestamps can be read, up to the first line with which they parse |
| LogCompaction.DisagreeingLineEndsTheMerge | container/control-plane/services/management/public/app.js:2509-2513 | a line that differs in source, stream or severity or comes more than 2,000 ms later ends the search: no merge reaches it, and what is behind it does not matter |
| LogCompaction.LoneLineIsDroppedExactlyWhen | container/control-plane/services/management/public/app.js:2493-2505 | a line on its own is dropped if and only if it is a lone bracket, perhaps with a comma, or a quoted key |
| LogCompaction.CompactionDistributes | container/environment/resources/plugins/platform-management/package/lib/client.js:693-728 | compacting a concatenation is concatenating the compactions when no entry of the first list can be continued by the first of the second |
| LogCompaction.CompactionIsIdempotent | container/control-plane/services/management/public/app.js:2497-2525 | compacting a compacted list changes nothing, given that objects and arrays are written with their brackets |
| LogCompaction.CompactedEntryIsCloseExactlyWhen | container/control-plane/services/management/public/app.js:2497-2525 | for every entry of a compaction: the lines it was merged from lie within two seconds of the first, with timestamps that can be read, if and only if all their timestamps can be read and none precedes the first by more than two seconds |
| LogCompaction.MergeIsCloseExactlyWhen | container/control-plane/services/management/public/app.js:2507-2512 | the same for any merge of a list |
| LogCompaction.ChronologicalMergesAreClose | container/control-plane/services/management/public/app.js:2497-2525 | in a list whose timestamps can all be read and never go back, every merged line is at most 2,000 ms later than the first of its merge, and none is earlier |
| LogCompaction.OlderAndUnreadableLinesAreMerged | container/control-plane/services/management/public/app.js:2507-2512 | concrete lists whose second line is ten seconds older, or where a timestamp cannot be read, and which are merged all the same |
| LogCompaction.FoundIsMerge | container/control-plane/services/management/public/app.js:2509-2521 | whatever the inner loop finds is a shortest parsing run |
| LogCompaction.MergeIsFound | container/control-plane/services/management/public/app.js:2509-2521 | every shortest parsing run is found |
| LogCompaction.CompactLogEntries | container/control-plane/services/management/public/app.js:2497-2525 | the outer loop computes the compaction |
| LogCompaction.FindMerge | container/control-plane/services/management/public/app.js:2506-2521 | the inner loop computes where a merge ends |
| LogWindow.EveryReachableViewIsConsistent | container/environment/resources/plugins/platform-management/package/lib/client.js:794-845 | in every reachable state the identities are exactly those of window and buffer, without duplicates, the window holds at most 5,000 entries, none before the cutoff, and it is the newest part of everything committed since the last clear |
| LogWindow.RefusedExactlyWhenHeldOrCleared | container/environment/resources/plugins/platform-management/package/lib/client.js:810-822 | an arriving entry is refused if and only if it is still held or was cleared |
| LogWindow.AcceptedAfterClearExactlyWhen | container/environment/resources/plugins/platform-management/package/lib/client.js:748-822 | over all histories: after a clear and until the next one, an entry not held is accepted if and only if its timestamp is later than the clear and than every entry then held, or cannot be read |
| LogWindow.AcceptedUnderStoredCutoffExactlyWhen | container/environment/resources/plugins/platform-management/package/lib/client.js:756-822 | under a stored cutoff an entry not held is accepted if and only if its timestamp is later or cannot be read |
| LogWindow.ReplayChangesNothing | container/environment/resources/plugins/platform-management/package/lib/client.js:810-822 | replaying held entries changes nothing, neither at once nor, for entries with a timestamp, after a clear |
| LogWindow.LatestBounds | container/environment/resources/plugins/platform-management/package/lib/client.js:748-754 | the new cutoff is the newest timestamp or the present time |
| LogWindow.ReceiveKeepsConsistency | container/environment/resources/plugins/platform-management/package/lib/client.js:810-822 | an arrival keeps the invariant and changes nothing exactly when it is refused |
| LogWindow.LogViewer.OnLog | container/environment/resources/plugins/platform-management/package/lib/client.js:810-822 | the handler of an arriving entry |
| LogWindow.LogViewer.CommitPendingEntries | container/environment/resources/plugins/platform-management/package/lib/client.js:799-809 | the animation frame moves the buffer into the window and forgets what falls out |
| LogWindow.LogViewer.Stop | container/environment/resources/plugins/platform-management/package/lib/client.js:838-844 | leaving the stream forgets the buffer and its identities |
| LogWindow.LogViewer.ClearLogView | container/environment/resources/plugins/platform-management/package/lib/client.js:959-968 | clearing sets the cutoff to the newest entry, buffered ones included, and forgets everything |
| LogWindow.LatestCutoff | container/environment/resources/plugins/platform-management/package/lib/client.js:748-754 | the loop computes the newest timestamp |
| LogWindow.Forget | container/environment/resources/plugins/platform-management/package/lib/client.js:806-806 | the loop takes exactly the identities of the removed entries out of the set |
| LogWindow.AppLog.AppendLog | container/control-plane/services/management/public/app.js:2647-2661 | appending keeps the invariant and is receiving and committing at once |
| LogWindow.AppLog.ClearLogs | container/control-plane/services/management/public/app.js:5691-5702 | the clear button keeps the invariant and clears like the other list |
| SingleFlight.OneFetchAtATime | container/control-plane/services/management/public/app.js:2212-2234 | in every run at most one fetch is under way, so results are applied in start order; there are never more fetches than calls, and an idle loader has resolved every call |
| SingleFlight.FreshExactlyOutsideTheGap | container/control-plane/services/management/public/app.js:2212-2234 | a resolved call has seen a fetch that began at or after it if and only if it was not made between the end of the loop and the clearing of the slot |
| SingleFlight.EveryCallIsFresh | container/environment/resources/plugins/platform-management/package/lib/client.js:2219-2243 | with the end of the loop and the clearing as one step, every resolved call is fresh |
| SingleFlight.TwoFetchesAnswerEveryCall | container/control-plane/services/management/public/app.js:2212-2234 | from every reachable state, at most two settled fetches and the clearing answer every call made so far and leave the loader idle, ready to begin a fetch for the next call |
| SingleFlight.NoGapNoDrainingCall | container/control-plane/services/management/public/app.js:2215-2232 | a run without calls in the gap has no call that met a finished loop |
| SingleFlight.CallInTheGapIsStale | container/control-plane/services/management/public/app.js:2215-2232 | a concrete run with a call in the gap, which gets the result from before it |
| SingleFlight.Loader.LoadStatus | container/control-plane/services/management/public/app.js:2212-2219 | a call raises the revision, and begins a fetch only when the slot is empty |
| SingleFlight.Loader.OnFetchSettled | container/control-plane/services/management/public/app.js:2220-2230 | the rest of the loop body and its condition |
| SingleFlight.Loader.OnFinally | container/control-plane/services/management/public/app.js:2232-2232 | clearing the slot, with which every waiting promise resolves |
| SettingsDocument.AcceptedSavesFormOneChain | container/environment/resources/plugins/settings-document-editor/package/lib/client.js:58-122 | for any clients, other writers, delays, losses and orders of messages: the accepted writes form one chain, each replacing exactly what its client held as savedContent when it sent the request; and a client is saving exactly while one of its saves is unanswered |
| SettingsDocument.SaveReplacesWhatItsClientHeld | container/environment/resources/plugins/settings-document-editor/package/lib/client.js:107-122 | in every reachable world a save sends what the client shows under a revision that stands for its savedContent |
| SettingsDocument.LoadShowsTheServedDocument | container/environment/resources/plugins/settings-document-editor/package/lib/client.js:63-91 | over all runs: opening or reloading sends a request, and when its reply arrives, whatever happened before, the client shows the document as it was when the server served it, holds its revision and has nothing to save |
| SettingsDocument.EditorShowsTheLastText | container/environment/resources/plugins/settings-document-editor/package/lib/client.js:63-118 | in every reachable world: each client shows exactly the last text typed into it or delivered to it since it was opened; if that was not typed it is the content of the revision held, and there is nothing to save |
| SettingsDocument.SignsFollowTheirLastEvent | container/environment/resources/plugins/settings-document-editor/package/lib/client.js:63-122 | in every run: open, loading, saving, error, conflict and confirmation show exactly when the last event that turns them on or off turned them on |
| SettingsDocument.FailedSaveMayStillBeStored | container/environment/resources/plugins/settings-document-editor/package/lib/client.js:119-121 | a save whose reply is lost may be stored all the same: the client shows an error and its text, and its next save is refused |
| SettingsDocument.WriteInBetweenRefusesTheSave | container/environment/resources/plugins/settings-document-editor/package/lib/client.js:110-121 | a write by anyone else before a save is processed is kept, and the save ends as a conflict with its text still shown |
| SettingsDocument.OpeningTwiceChangesNothing | container/environment/resources/plugins/settings-document-editor/package/lib/client.js:63-64 | opening an open editor changes and requests nothing |
| SettingsDocument.ServerAcceptsExactlyCurrentRevisions | container/environment/resources/plugins/settings-document-editor/package/lib/client.js:110-121 | a save whose revision is current replaces exactly its base; any other changes nothing and is answered with a conflict |
| SettingsDocument.StepKeepsChain | container/environment/resources/plugins/settings-document-editor/package/lib/client.js:58-122 | every step keeps the chain |
| SettingsDocument.StepKeepsOneSave | container/environment/resources/plugins/settings-document-editor/package/lib/client.js:107-122 | every step keeps at most one unanswered save for each client |
| SettingsDocument.StepKeepsPairs | container/environment/resources/plugins/settings-document-editor/package/lib/client.js:78-122 | every pair of content and revision that is held or under way was handed out by the server |
| SettingsDocument.SavesOfOneStep | container/environment/resources/plugins/settings-document-editor/package/lib/client.js:107-122 | exactly how one step begins or ends a save |
| SettingsDocument.TypedTextSurvivesExactlyWhen | container/environment/resources/plugins/settings-document-editor/package/lib/client.js:93-122 | for every save and everything that happens until it is answered: when the reply comes, the text shown by then stays if and only if the save was refused or that text is the one that was sent; an accepted save puts the sent text back, and a failure keeps the text |
| SettingsDocument.RunCarriesSave | container/environment/resources/plugins/settings-document-editor/package/lib/client.js:107-118 | until it is answered, a request carries the text it was sent with |
| SettingsDocument.EditsDuringASaveAreReplaced | container/environment/resources/plugins/settings-document-editor/package/lib/client.js:107-118 | a concrete run that loses a typed text |
| SettingsDocument.OpenedIsReachable | container/environment/resources/plugins/settings-document-editor/package/lib/client.js:63-91 | the state from which that run starts is reached by opening the empty document |
| SettingsDocument.DocumentController.constructor | container/environment/resources/plugins/settings-document-editor/package/lib/client.js:38-51 | the closed document |
| SettingsDocument.DocumentController.Publish | container/environment/resources/plugins/settings-document-editor/package/lib/client.js:58-61 | the new state reaches every listener |
| SettingsDocument.DocumentController.Open | container/environment/resources/plugins/settings-document-editor/package/lib/client.js:63-81 | opening resets the document and begins a reload, unless it is open already |
| SettingsDocument.DocumentController.Reload | container/environment/resources/plugins/settings-document-editor/package/lib/client.js:78-81 | reloading clears error, conflict and confirmation |
| SettingsDocument.DocumentController.OnLoaded | container/environment/resources/plugins/settings-document-editor/package/lib/client.js:82-87 | a loaded document replaces content, savedContent and revision and ends loading; over runs that is LoadShowsTheServedDocument and EditorShowsTheLastText |
| SettingsDocument.DocumentController.OnLoadFailed | container/environment/resources/plugins/settings-document-editor/package/lib/client.js:88-90 | a failed load keeps the content |
| SettingsDocument.DocumentController.Edit | container/environment/resources/plugins/settings-document-editor/package/lib/client.js:93-95 | editing clears error and conflict |
| SettingsDocument.DocumentController.RequestClose | container/environment/resources/plugins/settings-document-editor/package/lib/client.js:97-101 | closing is refused while saving, asks when there are changes, and else closes |
| SettingsDocument.DocumentController.Close | container/environment/resources/plugins/settings-document-editor/package/lib/client.js:103-105 | closing keeps the content |
| SettingsDocument.DocumentController.Save | container/environment/resources/plugins/settings-document-editor/package/lib/client.js:107-112 | a save is sent exactly when nothing is under way, a revision is held and there are changes |
| SettingsDocument.DocumentController.OnSaved | container/environment/resources/plugins/settings-document-editor/package/lib/client.js:113-118 | an accepted save replaces content, savedContent and revision |
| SettingsDocument.DocumentController.OnSaveFailed | container/environment/resources/plugins/settings-document-editor/package/lib/client.js:119-121 | a failed save keeps the content; 409 marks a conflict |
| ProxySaves.AcceptedSavesAreOwnMutationsInOrder | container/control-plane/services/management/public/app.js:4234-4253 | for any toggles, typing, failures, late processing, reloads and other writers: every accepted save turns the configuration in force into its own mutation of it; saves are accepted in queue order, each at most once; closures run in queue order |
| ProxySaves.FixedMutationsReachTheServer | container/control-plane/services/management/public/app.js:3985-3989 | a mutation whose value is fixed when queued is the one that its accepted save carries |
| ProxySaves.OwnMutationTouchesOnlyItsEntry | container/control-plane/services/management/public/app.js:3895-3927 | on a complete configuration an accepted save differs from its predecessor in the mutated entry only |
| ProxySaves.PageHoldsTheLastReceived | container/control-plane/services/management/public/app.js:4146-4248 | after any run the page holds the last pair that an accepted reply, the reload after a conflict or a load brought |
| ProxySaves.RecoveredPageConflictsNoMore | container/control-plane/services/management/public/app.js:4234-4253 | from any reachable conflict: once the current revision is reloaded the queue goes on at once, and as long as nobody else writes and no request breaks off, every closure sends its mutation of the configuration in force, each request is accepted, and no conflict comes up again |
| ProxySaves.ServerAcceptsExactlyTheCurrentRevision | container/control-plane/services/management/public/app.js:4239-4249 | a request is accepted exactly under the current revision, and then held by the page; else nothing stored changes and the page recovers with all it holds |
| ProxySaves.BrokenRequestMayStillBeStored | container/control-plane/services/management/public/app.js:4246-4250 | a request that broke off may be stored all the same; the page does not hear of it, and the next request of the queue conflicts |
| ProxySaves.LogIsWhatWasAccepted | container/control-plane/services/management/public/app.js:4239-4241 | the list of accepted saves leaves none of a run out |
| ProxySaves.FieldsShowTheHeldConfiguration | container/control-plane/services/management/public/app.js:4040-4073 | in every run: unless typed or restored since the last rendering, the fields show the configuration held; secrets are cleared by every load and by nothing else |
| ProxySaves.CandidateCompletes | container/control-plane/services/management/public/app.js:3895-3927 | a candidate keeps every part of a configuration and completes the missing ones as off and empty |
| ProxySaves.MutationThrowsExactlyWhen | container/control-plane/services/management/public/app.js:3985-3989 | a toggle throws exactly when it is a provider's and there is no list of providers |
| ProxySaves.AcceptedSaveRestoresItsDraft | container/control-plane/services/management/public/app.js:4203-4244 | the form fields captured when a save starts are the ones shown after it is accepted, whatever was typed or loaded meanwhile |
| ProxySaves.CapturedDraftStays | container/control-plane/services/management/public/app.js:4234-4236 | nothing but the end of the request changes what was captured |
| ProxySaves.ClosuresRunInOrder | container/control-plane/services/management/public/app.js:4234-4253 | the queue is what was queued minus what has run |
| ProxySaves.LinkSendsExactlyWhenItCan | container/control-plane/services/management/public/app.js:4235-4242 | a link sends a request exactly when a configuration is held and its closure applies; else it rejects the chain |
| ProxySaves.RejectedChainStaysSilent | container/control-plane/services/management/public/app.js:4235-4238 | after a rejected link no later one runs and nothing more is saved |
| ProxySaves.QueuedCheckboxSavesTheRenderedValue | container/control-plane/services/management/public/app.js:5260-5267 | for a toggle of any kind and every run until its closure runs in which the user leaves the checkbox alone: the closure sends the chosen value if and only if nothing was rendered in between or the configuration last rendered shows that value |
| ProxySaves.CheckboxShowsLastRendered | container/control-plane/services/management/public/app.js:4040-4073 | in every run, a checkbox left alone shows the configuration last rendered by an accepted reply, a failure or a reload, or else what it showed before |
| ProxySaves.IdleToggleSavesTheChosenValue | container/control-plane/services/management/public/app.js:5260-5267 | on an idle page a toggle sends what was chosen |
| ProxySaves.OnAndOffSavesOnTwice | container/control-plane/services/management/public/app.js:5260-5262 | a concrete run: switched on and at once off again, the proxy is saved as on twice |
| ProxySaves.FailedSaveOverwritesTheCheckbox | container/control-plane/services/management/public/app.js:4246-4250 | a scope toggle queued during a save that fails sends what the page holds, whatever was chosen |
| ProxySaves.ToggleBeforeLoadingRejectsTheChain | container/control-plane/services/management/public/app.js:4235-4238 | a toggle before any configuration is held rejects the chain, and nothing is saved in any continuation |
| ProxySaves.ProxyPanel.SaveProxyImmediate | container/control-plane/services/management/public/app.js:4234-4235 | a toggle appends its closure to the chain |
| ProxySaves.ProxyPanel.RunNext | container/control-plane/services/management/public/app.js:4235-4242 | a link captures the draft, applies its closure and sends the result under the held revision |
| ProxySaves.ProxyPanel.OnAccepted | container/control-plane/services/management/public/app.js:4240-4245 | the reply is rendered, then the captured fields are restored |
| ProxySaves.ProxyPanel.OnError | container/control-plane/services/management/public/app.js:4246-4250 | 409 reloads; any other failure renders the held configuration |
| ProxySaves.ProxyPanel.RenderProxyConfiguration | container/control-plane/services/management/public/app.js:4040-4073 | every field but the secrets follows the configuration |
| ProxySaves.ProxyPanel.Reload | container/control-plane/services/management/public/app.js:4146-4154 | a reload replaces the configuration and clears the secrets |
| ProxySaves.ProxyPanel.OnRecovered | container/control-plane/services/management/public/app.js:4248-4248 | the reload after a conflict replaces what the page holds, unless it failed, and frees the chain; what that is worth is PageHoldsTheLastReceived and RecoveredPageConflictsNoMore |
| FileConflicts.PasteHonoursTheUser | container/control-plane/services/management/public/app.js:3721-3753 | for every sequence of replies and answers: each paste request carries exactly the conflict mode the user wanted for it; the user is asked only about an existing destination and never after skipping for all; a source counts as pasted exactly when the server said so and as skipped only by choice; and if the run is not stopped, both make up all sources |
| FileConflicts.UploadHonoursTheUser | container/control-plane/services/management/public/app.js:3587-3719 | for an upload on its own and every sequence of replies, answers and cancellations: the same for upload requests, which also wait for every folder of their item; every passed item has one outcome, which agrees with its kind, the replies, the answers and the cancellations; the skip count is exact; a run that is not stopped gives every item an outcome |
| FileConflicts.EveryPasteTurnIsHeard | container/control-plane/services/management/public/app.js:3721-3753 | a paste takes every reply and answer in order until it ends; it stops if and only if a request fails or the user cancels, and is complete if and only if every source was passed |
| FileConflicts.EveryUploadTurnIsHeard | container/control-plane/services/management/public/app.js:3620-3712 | an upload takes every answer in order until it ends; it stops if and only if a lookup, a creation or an uncancelled request fails, the user cancels, or it comes to an uncancelled item with an invalid name |
| FileConflicts.LaterItemsFollowTheAnswerForAll | container/control-plane/services/management/public/app.js:3661-3661 | in every orderly log the first request of an item carries the mode last chosen for all, or none |
| FileConflicts.AnswerForAllIsTheLast | container/control-plane/services/management/public/app.js:3697-3702 | the answer that counts for all is the last one given for all |
| FileConflicts.ConflictModeWasChosen | container/control-plane/services/management/public/app.js:3721-3753 | in every orderly log a request with overwrite or rename follows an answer that chose just that, for the same item or for all |
| FileConflicts.AnswerForAllWasGiven | container/control-plane/services/management/public/app.js:3697-3702 | the remembered answer for all is one that the user gave for all |
| FileConflicts.PasteRunFits | container/control-plane/services/management/public/app.js:3721-3753 | every paste run keeps the counts and the log of requests and answers in agreement |
| FileConflicts.UploadStepFits | container/control-plane/services/management/public/app.js:3620-3712 | every step of an upload keeps outcomes, counts and log in agreement |
| FileConflicts.UploadRunFits | container/control-plane/services/management/public/app.js:3587-3719 | and so does every run |
| FileConflicts.CountsAddUp | container/control-plane/services/management/public/app.js:3620-3712 | the four outcomes add up to the items passed |
| FileConflicts.CancelledItemIsStillSent | container/control-plane/services/management/public/app.js:3620-3703 | for one turn of an upload on its own: a cancelled item is sent exactly when the last of its folders turns out to be there (or, which the modal dialog rules out on the page, when a mode is chosen for it) |
| FileConflicts.CancelledItemIsNeverSent | container/control-plane/services/management/public/app.js:3620-3695 | an item cancelled before it begins, or while its request is under way, is never sent afterwards |
| FileConflicts.CancelledAmongFoldersIsSentExactlyWhen | container/control-plane/services/management/public/app.js:3635-3669 | a file cancelled while its folders are looked up or created is sent later if and only if all its remaining folders turn out to be there |
| FileConflicts.CancelledUploadIsSent | container/control-plane/services/management/public/app.js:3635-3669 | a concrete run: a file cancelled while its one folder is looked up is sent when the folder is found |
| FileConflicts.PasteFiles | container/control-plane/services/management/public/app.js:3721-3753 | the loop over the sources computes the paste run |
| FileConflicts.PasteSource | container/control-plane/services/management/public/app.js:3730-3748 | the loop over the attempts for one source |
| FileConflicts.EnsureFolders | container/control-plane/services/management/public/app.js:3635-3654 | the loop over the parent folders: existing directories are passed, missing ones created, anything else stops |
| FileConflicts.TransferFile | container/control-plane/services/management/public/app.js:3661-3709 | the loop over the attempts for one file |
| FileConflicts.UploadFiles | container/control-plane/services/management/public/app.js:3587-3719 | for an upload on its own, the loop over the items computes the upload run |
| UploadQueue.UploadsOneAtATimeHonourTheUser | container/control-plane/services/management/public/app.js:3587-3719 | for every history of the page, with its shared queue, in which no upload starts while an older one still runs: every upload is a run on its own and honours the user |
| UploadQueue.EveryTurnOfThePageIsTaken | container/control-plane/services/management/public/app.js:3620-3712 | after any such history every upload under way can take its next turn, the dialog included, and takes it as the answer it waits for |
| UploadQueue.GuardRefusesExactlyWhen | container/control-plane/services/management/public/app.js:3588-3588 | after any such history an upload is refused if and only if some item of the one under way, from its present one on, is not cancelled |
| UploadQueue.CancelledItemIsSentExactlyAfterItsFolders | container/control-plane/services/management/public/app.js:3608-3655 | after any such history a turn sends a cancelled item exactly when it was cancelled among its folders and the last of them is there now |
| UploadQueue.CancelledItemStaysUnsent | container/control-plane/services/management/public/app.js:3608-3623 | after any such history, an item cancelled before it began or during its request is not sent by anything that happens later |
| UploadQueue.OverlappingIsReachable | container/control-plane/services/management/public/app.js:3587-3614 | a concrete history: both files of an upload are cancelled while their folder is looked up, and a second upload starts |
| UploadQueue.OverlappingUploadsMixTheirTasks | container/control-plane/services/management/public/app.js:3620-3714 | how that goes on: the first upload sends a file cancelled before it began, and its end makes the second pass over a file that nobody cancelled |
| UploadQueue.RunKeepsAlone | container/control-plane/services/management/public/app.js:3587-3719 | as long as uploads do not overlap, the queue holds exactly the uncancelled tasks of the one under way from its present item on |
| UploadQueue.StepLooksAhead | container/control-plane/services/management/public/app.js:3620-3703 | a step of an upload depends on the cancellations of its present and later items only |
| UploadQueue.FileUploads.UploadFiles | container/control-plane/services/management/public/app.js:3587-3635 | the guard, the new queue, and the start of the loop |
| UploadQueue.FileUploads.CancelTask | container/control-plane/services/management/public/app.js:3608-3613 | a task gets its flag and leaves the queue |
| UploadQueue.FileUploads.Resume | container/control-plane/services/management/public/app.js:3620-3714 | what follows an await: the lookups by number, the filters of the queue, and its emptying at the end |
| UploadQueue.FileUploads.Find | container/control-plane/services/management/public/app.js:3622-3622 | the first task in the queue with a number, of whichever upload |
| UploadQueue.FileUploads.Filter | container/control-plane/services/management/public/app.js:3710-3710 | the queue without the tasks that are over, in order |
| UploadQueue.FileUploads.LookUpCancelled | container/control-plane/services/management/public/app.js:3622-3623 | which items an upload takes to be cancelled |
| TerminalReconnect.AtMostThirtyAttempts | container/control-plane/services/management/public/app.js:2812-2855 | after any history of the page, at most 30 reconnect attempts are made until a socket opens or the session is forgotten |
| TerminalReconnect.ReconnectionIsBounded | container/control-plane/services/management/public/app.js:2841-2851 | from every reachable state the remaining deadline, in seconds, bounds the attempts still to come: a measure that every attempt lowers and that, its deadline being kept, cannot start anew |
| TerminalReconnect.DeadlineIsKeptUntilReconnectingEnds | container/control-plane/services/management/public/app.js:2820-2848 | the deadline that the first close sets is dropped exactly when the socket opens, the session is forgotten, or its socket closes past the deadline |
| TerminalReconnect.ThirtyAttemptsCanHappen | container/control-plane/services/management/public/app.js:2841-2851 | the bound is reached: from every open connection there is a run with exactly 30 attempts |
| TerminalReconnect.AttemptsAreASecondApart | container/control-plane/services/management/public/app.js:2850-2850 | in every run attempts are at least a second apart |
| TerminalReconnect.EveryStepKeepsInvariant | container/control-plane/services/management/public/app.js:2797-2855 | at most one timer is pending, the one the page can clear, and only while there is no current socket |
| TerminalReconnect.EveryRunKeepsInvariant | container/control-plane/services/management/public/app.js:2797-2855 | and so in every run |
| TerminalReconnect.ConnectionsNeverOverlap | container/control-plane/services/management/public/app.js:2803-2822 | as long as the page connects by itself only when no connection is open, no connection stays open beside the current one |
| TerminalReconnect.CloseSchedulesExactlyWhen | container/control-plane/services/management/public/app.js:2840-2851 | the close of the current socket schedules an attempt if and only if the page stays, the session is the socket's own and has not exited, and the deadline has not passed |
| TerminalReconnect.ForgottenSessionStaysAway | container/control-plane/services/management/public/app.js:2803-2849 | a session that is forgotten, or given up past the deadline, is hung up, and until another is saved no timer is set and no socket made, whatever happens |
| TerminalReconnect.LeavingPageConnectsNoMore | container/control-plane/services/management/public/app.js:2813-2843 | a page that is being left hangs up and never connects again |
| TerminalReconnect.PageShowsTheLastChange | container/control-plane/services/management/public/app.js:2797-2855 | in every run the session and the status are those of the last events that set them |
| TerminalReconnect.OutdatedSocketsAreIgnored | container/control-plane/services/management/public/app.js:2820-2854 | what a replaced socket does changes nothing but its own connection, and one that still opens is closed |
| TerminalReconnect.ConnectOverlapsExactlyWhen | container/control-plane/services/management/public/app.js:2812-2819 | a connection asked for by the page overlaps another one if and only if that one is still open |
| TerminalReconnect.SecondConnectLeavesTheFirstOpen | container/control-plane/services/management/public/app.js:2812-2883 | a concrete run with two open connections: another session is created while one is restored |
| TerminalReconnect.ExitIsFinal | container/control-plane/services/management/public/app.js:2827-2843 | a session whose shell has exited is not connected to again, whatever undisturbing events come before its socket closes |
| TerminalReconnect.ExitedSessionStaysExited | container/control-plane/services/management/public/app.js:2827-2843 | the exited state lasts until the socket closes |
| TerminalReconnect.ErrorAfterExitReconnects | container/control-plane/services/management/public/app.js:2852-2854 | an error event after the exit message brings the session back |
| TerminalReconnect.TerminalPanel.ClearReconnectTimer | container/control-plane/services/management/public/app.js:2798-2798 | clearing takes exactly the remembered timer away |
| TerminalReconnect.TerminalPanel.ForgetTerminalSession | container/control-plane/services/management/public/app.js:2797-2810 | forgetting clears timer and deadline, hangs up and drops the session |
| TerminalReconnect.TerminalPanel.ConnectSocket | container/control-plane/services/management/public/app.js:2812-2819 | connecting clears the timer and makes a new socket the current one, unless there is no session or the page is being left |
| TerminalReconnect.TerminalPanel.OnTimer | container/control-plane/services/management/public/app.js:2850-2850 | a due timer connects again |
| TerminalReconnect.TerminalPanel.OnOpen | container/control-plane/services/management/public/app.js:2820-2826 | an outdated socket is closed; the current one ends the disconnection |
| TerminalReconnect.TerminalPanel.OnMessage | container/control-plane/services/management/public/app.js:2827-2839 | only messages of the current socket count; an exit notice ends the session |
| TerminalReconnect.TerminalPanel.OnSocketClose | container/control-plane/services/management/public/app.js:2840-2844 | only the close of the current socket counts, and not after leaving, a change of session or an exit |
| TerminalReconnect.TerminalPanel.ScheduleReconnect | container/control-plane/services/management/public/app.js:2844-2850 | the deadline is set once; past it the session is forgotten, before it a timer is set |
| TerminalReconnect.TerminalPanel.OnSocketError | container/control-plane/services/management/public/app.js:2852-2854 | an error of the current socket shows as reconnecting |
| TerminalReconnect.TerminalPanel.OnLeave | container/control-plane/services/management/public/app.js:5703-5706 | leaving clears the timer and hangs up |
| DirectRules.RoundTripExactlyWhenWellFormed | container/control-plane/services/management/public/app.js:3824-3841 | splitting the printed text of a configuration gives it back if and only if its rules are trimmed single lines, distinct, and in the list of their kind |
| DirectRules.NormalizedIsIdempotent | container/control-plane/services/management/public/app.js:3828-3841 | printing after splitting is a normal form on every text |
| DirectRules.SplitOfNormalized | container/environment/resources/plugins/platform-management/package/lib/client.js:1641-1654 | splitting the normal form gives the typed rules sorted by kind, each kept once |
| DirectRules.CidrMeaning | container/control-plane/services/management/public/app.js:3838-3839 | the CIDR test holds exactly when some slash is followed by decimal digits only, and by at least one |
| DirectRules.LinesAreClean | container/environment/resources/plugins/platform-management/package/lib/client.js:1637-1639 | every rule read is one trimmed, non-empty line |
| DirectRules.LinesOfJoinedRules | container/control-plane/services/management/public/app.js:3824-3833 | reading back joined clean rules gives the rules |
| PtyHelper.RunFramesItsInput | container/control-plane/services/management/terminal/pty-helper.py:57-87 | for every run: the input read is the lines cut off, each with its newline, and the buffer; the commands carried out are those of the lines in order, of all of them, or of all before the first that raises |
| PtyHelper.ChunkingDoesNotMatter | container/control-plane/services/management/terminal/pty-helper.py:69-77 | equal inputs give equal lines, commands and buffers, however they are cut into reads |
| PtyHelper.FramingIsUnique | container/control-plane/services/management/terminal/pty-helper.py:76-77 | there is only one way of cutting an input at its newlines |
| PtyHelper.DrainInPortions | container/control-plane/services/management/terminal/pty-helper.py:75-87 | handling an input in two portions is handling it as a whole |
| PtyHelper.DrainMeaning | container/control-plane/services/management/terminal/pty-helper.py:75-87 | what one pass over a whole input cuts off, carries out and leaves |
| PtyHelper.ExitProtocol | container/control-plane/services/management/terminal/pty-helper.py:59-109 | for every run: all output read is printed in order; a run that returns has reaped the child once and printed its status in one exit record, the last; a run that raises ends with one error record and no exit record; when a run ends is RunEndsByItsFirstEnding |
| PtyHelper.OneEnding | container/control-plane/services/management/terminal/pty-helper.py:59-109 | the same from every intermediate state |
| PtyHelper.RunEndsByItsFirstEnding | container/control-plane/services/management/terminal/pty-helper.py:56-109 | told by the rounds alone: until some round reports the end of the master, raises or finds the child finished, the helper runs on with exactly the output printed; the first such round ends it for good, with one exit record of the status waited for or found, or with one error record |
| PtyHelper.RunReturnsExactlyWhen | container/control-plane/services/management/terminal/pty-helper.py:56-109 | a run returns with a status if and only if its first ending is an exit with that status, raises if and only if its first ending is an exception, and runs on if and only if there is none |
| PtyHelper.DispatchLines | container/control-plane/services/management/terminal/pty-helper.py:76-87 | the inner loop cuts off and carries out the complete lines |
| PtyHelper.ServeTerminal | container/control-plane/services/management/terminal/pty-helper.py:56-101 | the main loop with its waitpid test, and the final wait, compute the run, whose ends RunEndsByItsFirstEnding tells |
| PtyHelper.WriteAll | container/control-plane/services/management/terminal/pty-helper.py:24-28 | however much each write takes, the writes are the data in order, complete unless one raises |
| Text.TrimMeaning | container/control-plane/services/management/public/app.js:3825-3825 | trimming leaves no white space at the ends and is stable |
| Text.SplitOfJoined | container/control-plane/services/management/public/app.js:3825-3825 | lines joined by line feeds, with or without carriage returns, are read back as they were |

## Left out

- Rendering, dialogs, focus, scrolling, translations and styles: only the values that the handlers read and write appear.
- Fetch, EventSource, WebSocket, XMLHttpRequest, file watching, the PTY, signals and clocks: steps of the environment.
- The Access Manager, the updater, the Gateway and the outbound-proxy service: only the revision check of their replies.
- JSON, the severity rule, the quoted-key pattern, base64 and UTF-8: functions given from outside.
- LogCompaction.CompactionIsIdempotent: assumes that a text opening an object or an array is written with its brackets at both ends; the opening bracket alone would not do, because a text like `{,` is itself a fragment.
- LogWindow.EveryReachableViewIsConsistent: an animation frame with its React state update is one step; the set of expanded entries and the session storage of the cutoff are not modelled.
- NoticeLease.AtMostOneTabShows: handlers with the rendering they trigger are atomic, storage never fails, stored values are well formed, and tab identities are distinct; the order of the two candidate kinds is reduced to the one candidate that the update channel offers.
- RoutedIterator.EveryOperationRunsUnderTheFirstRoute: calls that wait for the same route resume in the order in which they were made, and the inner iterator's set of methods does not change once it exists.
- RoutedIterator.CloseProtocol: a call that fails before the inner iterator exists closes nothing, because its creation at provider-routing.js:143 is outside the `try`; the lemma after it says when a dispatcher stays open.
- FetchRouter.RouterProtocol: assumes that each disposer runs at most once and that no other code assigns the global `fetch`.
- SharedEnvironment.ProxyVariablesFollowTheLastReadableState: other code does not write the eight proxy variables while the watcher lives, and the process goes on after a synchronization that raises.
- SharedEnvironment.NestedLifetimesRestoreTheService: `spawn` and `spawnTerminal` are treated alike, as one slot; histories that are not nested are covered by `ServiceIsRestoredExactlyWhen`.
- SingleFlight.OneFetchAtATime: one key; `refreshInventory` of app.js:2195-2198, which waits for a running load and then calls the loader, adds only a later call.
- SettingsDocument.AcceptedSavesFormOneChain: the server is a compare-and-set store that answers with the stored content; a revision may be reused only for equal contents, as a hash is.
- ProxySaves.AcceptedSavesAreOwnMutationsInOrder: the server stores what it is sent, under a revision never used before; the connection object of a configuration is one value.
- ProxySaves.OwnMutationTouchesOnlyItsEntry: for a configuration that misses parts, a save also fills in their defaults.
- FileConflicts.UploadHonoursTheUser: an upload on its own; `UploadQueue` adds the queue that uploads share. How dropped directories are read, the progress of a transfer and the choice among several selected files are not modelled.
- FileConflicts.UploadFiles: the queue shared with other uploads is in `UploadQueue.FileUploads`, whose methods take the steps between two awaits.
- FileConflicts.CancelledItemIsStillSent: it also covers a cancellation behind the open dialog, which the page cannot receive; `UploadQueue.Enabled` rules it out.
- UploadQueue.UploadsOneAtATimeHonourTheUser: pasting uses the same dialog, which is not modelled; opening a dialog that is open already changes nothing but whom it answers.
- TerminalReconnect.AtMostThirtyAttempts: the clock does not go back, and a timer does not fire before it is due.
- TerminalReconnect.ConnectionsNeverOverlap: the status texts shown while a session is created or restored are not modelled.
- PtyHelper.ExitProtocol: printing does not fail, and the two signal handlers, which only pass a signal on, are not modelled; output that the shell has written but the helper has not read when it learns of the exit is not printed.
- PtyHelper.WriteAll: `os.write` takes at least one byte, as it does on a blocking descriptor.
- DirectRules.RoundTripExactlyWhenWellFormed: a missing list counts as an empty one.
- ProviderRouting.IssueProviderHandle: the control request's HTTP exchange, size limit and timeout are one reply or error.
- Progress stages, pagination, byte formatting, notice wording, the bundled copies of the clients, and the container files.
