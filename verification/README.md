# Browser capture and REPL: a verified model

This project models the parts of the server and its REPL runtime that keep shared state
straight while a browser, its targets and its users do as they please, and proves what they
keep. State is a value, each critical section or event handler is a step on it, and runs are
arbitrary sequences of steps; classes repeat the sections as the source runs them, with loops
over Go maps in arbitrary order, each against its step.

| file | what it models |
|---|---|
| Collections.dfy | small facts about options and sets |
| ComputedStates.dfy | the per-session machine behind network_idle, layout_settled and navigation_settled |
| RequestAccounting.dfy | the request registry and the pending counter of each session state |
| HeaderMatching.dfy | matching of request headers to the hops of a redirect chain |
| PublicationOrder.dfy | the goroutines that publish one request chain |
| TelemetryFence.dfy | the desired and applied telemetry word, and the fence around publication |
| InteractionCleanup.dfy, InteractionProof.dfy, InteractionRuns.dfy, InteractionSweeps.dfy, InteractionScenarios.dfy, StaleDischarges.dfy, InteractionTables.dfy | obligations to clean injected listeners, against an adversarial browser |
| ParentClosure.dfy, SurfaceModel.dfy, SurfaceOwnership.dfy, SurfaceFrames.dfy, SurfaceLifetimes.dfy, SurfaceTracker.dfy | windows, tabs, frames and sessions of the browser-surface tracker |
| CellAnalysis.dfy, CellEdits.dfy, CellReading.dfy, CellRuntime.dfy | the REPL's cell compiler, what its output means, and the persistent bindings |
| PageArgument.dfy | serialization of page-function arguments over a heap |
| ChromiumFlags.dfy | merging of Chromium command lines |
| ExportChunks.dfy | greedy splitting of exports |
| CounterRing.dfy | the de-duplicating counters of finished requests |
| CommandClient.dfy, RetryingClient.dfy, RetriedCalls.dfy | the two DevTools command clients |

Verify everything with `dafny verify dfyconfig.toml`.

## Where the source does less than it says

- `cleanupAttachedTarget` deletes the obligation of a target after its cleanup succeeded without
  asking whether its own session is still attached. The target may meanwhile have been attached
  again and injected by a newer session, whose obligation is then lost.
  `StaleDischarges.StaleWorkerDeletes` is such a run. Nothing else goes wrong:
  `InteractionRuns.OwedIff` shows that a run of the source accounts for every exposed target
  exactly when it contains no such discharge, `InteractionRuns.StoredMeansCleanIffOwed` what that
  means for a stored revision, and `StaleDischarges.HarmNeedsNewer` that a newer session must have
  been announced first. One look at the session before the deletion would do
  (`StaleDischarges.CoveredIffGuarded`, `StaleDischarges.StoredMeansCleanIff`).
- Events of a redirect chain are out of order exactly when a redirect response does not decode
  (`PublicationOrder.PublishedInOrderIff`).
- A second, different resolution of a matched hop breaks header matching
  (`HeaderMatching.ResolveSettlesIff`).
- Request accounting is exact exactly when no handler outlives the five-minute TTL
  (`RequestAccounting.ExactIffInTime`, with the failing run in
  `RequestAccounting.LateHandlerMiscounts`).
- The worker drains before it applies a revision, a new connection does not. What the comment at
  telemetry.go:65-66 promises of every change of revision therefore holds exactly of changes from
  a revision that captures (`TelemetryFence.DrainedBetweenIff`).
- An array pattern that ends with a hole is written without it, so it takes one element less from
  its iterator (`CellReading.LastHoleIsLost`, which also says that every other array pattern keeps
  all its elements).
- A frame that is below itself, through a cycle of parents, is dropped when it is navigated and
  gets a new public id; every other frame keeps its own (`SurfaceFrames.NavigationKeepsIdIff`).
- The comment on the extension rules lets a runtime `--load-extension` override the base flags'
  `--disable-extensions`; the code lets a runtime `--disable-extensions-except` do so as well
  (`ChromiumFlags.MergedExtensions`).

## Model

| member | source | states |
|---|---|---|
| RequestAccounting.ExactIffInTime | server/lib/cdpmonitor/handlers.go:466-541 | Between handler steps of every run the counter of every session state in the table is exact, if and only if a handler counts its request before the sweeper may take it (limit <= TTL) |
| RequestAccounting.CountersExact | server/lib/cdpmonitor/handlers.go:466-541 | In such a run, under any interleaving of requests, redirects, finishes, failures, navigations, sweeps, detaches and clears, the counter equals the number of requests of its navigation that are registered or taken and not yet accounted |
| RequestAccounting.ClampUnreachable | server/lib/cdpmonitor/computed.go:196-214 | Whenever an accounting lowers the counter of a running state it finds at least one, so the clamp at zero is never used |
| RequestAccounting.IdleMeansNothingOutstanding | server/lib/cdpmonitor/computed.go:217-243 | A network_idle decided between handler steps means that no request of that session and navigation is outstanding anywhere |
| RequestAccounting.RequestCountsOnce | server/lib/cdpmonitor/handlers.go:466-541 | One whole requestWillBeSent: a redirect moves no counter and no debt, a new request raises both by one, for its own session only |
| RequestAccounting.RunInv | server/lib/cdpmonitor/handlers.go:440-542 | Every state of a run whose handlers keep up with the sweeper keeps the full invariant: tables, entries, what a half-way handler has read, and all counters |
| RequestAccounting.LateHandlerMiscounts | server/lib/cdpmonitor/monitor.go:381-415 | For every limit above the five-minute TTL a run from the initial state in which the sweeper accounts a request before it is counted, so that the counter stays at one with nothing outstanding |
| RequestAccounting.NavigatedOwed | server/lib/cdpmonitor/handlers.go:840-863 | After a navigation the debt of the navigated state is exactly the requests of the new loader, whatever was counted before |
| RequestAccounting.OtherCounter | server/lib/cdpmonitor/handlers.go:840-863 | A navigation leaves the debt of every other state alone |
| RequestAccounting.RequestKeepsAge | server/lib/cdpmonitor/handlers.go:466-475 | In every run an entry that stays registered keeps its time through redirects and everything else, and its owner and counted navigation unless a navigation of its session re-stamps it |
| RequestAccounting.ExpiresOnTime | server/lib/cdpmonitor/monitor.go:399-415 | So a request first registered at some time is expired, and may be swept, exactly when more than five minutes have passed since then, whatever redirects came between |
| RequestAccounting.CarriesLatestLoader | server/lib/cdpmonitor/handlers.go:476-505 | A registered entry carries the loader of its latest request event, in every run |
| RequestAccounting.HopIsRecorded | server/lib/cdpmonitor/handlers.go:519-533 | Queueing a hop records it in the entry of its request and touches no other |
| RequestAccounting.FinishRuns | server/lib/cdpmonitor/handlers.go:611-628 | A finished request leaves the registry for its accounting, which lowers the state that counted it exactly if that is still in the same navigation |
| RequestAccounting.NavigationRuns | server/lib/cdpmonitor/handlers.go:840-863 | A navigation starts the next navigation of the state of its session, with exactly the requests of the new loader in flight |
| RequestAccounting.NavigationRestamps | server/lib/cdpmonitor/handlers.go:840-863 | And those requests count for it from now on, older ones of the session count no more, and others are left alone |
| RequestAccounting.DetachRuns | server/lib/cdpmonitor/handlers.go:967-993 | A detach ends the session, its state in the table and exactly its requests |
| RequestAccounting.ClearRuns | server/lib/cdpmonitor/monitor.go:349-379 | A clear ends every request and every state in use, and the sessions if asked to; in between no state is made |
| RequestAccounting.Monitor.RegisterRequest | server/lib/cdpmonitor/handlers.go:466-505 | Registers or updates an entry as the step does: RequestKeepsAge, CarriesLatestLoader and ExpiresOnTime say what that means over runs |
| RequestAccounting.Monitor.RestampRequests | server/lib/cdpmonitor/handlers.go:840-863 | The loop over the registry, in any order: the entries of the navigated session move to the new navigation or lose their owner; returns how many are in flight |
| RequestAccounting.Monitor.Navigate | server/lib/cdpmonitor/handlers.go:840-863 | The critical section of a top-level navigation as a whole: re-stamps the registry and resets the state to that many requests |
| RequestAccounting.Monitor.TakeExpiredRequests | server/lib/cdpmonitor/monitor.go:399-415 | The sweep takes exactly the expired entries, each once, in any order |
| RequestAccounting.Monitor.TakeRequest | server/lib/cdpmonitor/handlers.go:611-628 | Taking a request removes it, and only it |
| RequestAccounting.Monitor.DetachSession | server/lib/cdpmonitor/handlers.go:967-993 | A detach removes exactly the entries of its session |
| RequestAccounting.Monitor.FinishRequest | server/lib/cdpmonitor/network_capture.go:270-281 | Accounting lowers the counter of the owning state only while that state is still in the navigation that counted the request |
| InteractionRuns.OwedIff | server/lib/cdpmonitor/interaction_cleanup.go:16-38 | In every run of the source against an adversarial browser: in all states every live target whose documents may carry the listeners is in interactionTargets, or its injection is accepted and about to be recorded, if and only if no worker whose session has left discharges a target that is exposed again and not being recorded |
| InteractionRuns.RunOwes | server/lib/cdpmonitor/domains.go:73-100 | So in a run of the source without such a discharge every live target that may carry the listeners is covered by an obligation or an announced injection, in every state |
| InteractionRuns.HarmIsSeen | server/lib/cdpmonitor/interaction_cleanup.go:34-36 | Such a discharge leaves an exposed target unaccounted for at once, and uncovered if no injection of that target is in flight |
| StaleDischarges.HarmNeedsNewer | server/lib/cdpmonitor/interaction_cleanup.go:16-38 | The first such discharge of a run of the source comes after the monitor was told of a newer session of the same target |
| StaleDischarges.StaleWorkerDeletes | server/lib/cdpmonitor/interaction_cleanup.go:34-36 | A concrete run of the source: a worker whose session is gone deletes the obligation that a newer session of the same target has just made |
| InteractionRuns.StoredMeansCleanIffOwed | server/lib/cdpmonitor/telemetry.go:107-137 | In every run of the source, when a sweep on a working connection is about to store its revision: no live target may still carry the listeners if and only if every exposed target is accounted for |
| InteractionRuns.AppliedOnlyWhenClean | server/lib/cdpmonitor/telemetry.go:107-137 | In a run of the source without a harmful discharge, when such a revision is about to be stored there is no obligation, no pending injection, no registered script, and no live target that may carry the listeners |
| InteractionRuns.AppliedWithoutObligations | server/lib/cdpmonitor/telemetry.go:112-126 | When it is about to store its revision no obligation remains, in every run of the source |
| InteractionRuns.RunKeeps | server/lib/cdpmonitor/domains.go:73-168 | Every state of every run of the source without a harmful discharge keeps the invariant behind these results |
| InteractionSweeps.OpeningPrunes | server/lib/cdpmonitor/interaction_cleanup.go:64-97 | Opening keeps exactly the obligations whose target the new browser reported, whatever was owed before |
| InteractionSweeps.OwedWasReported | server/lib/cdpmonitor/interaction_cleanup.go:85-96 | On an open connection every owed target was reported when it was opened, or an announced injection of it has ended since |
| InteractionSweeps.CleanSweepDecides | server/lib/cdpmonitor/telemetry.go:107-137 | A sweep whose sessions stay attached and all clean up, begun with a session marked for every owed target, leaves nothing owed and no marker, and is about to store its revision |
| InteractionSweeps.PlanLasts | server/lib/cdpmonitor/domains.go:125-168 | While such a sweep goes on, every owed target has a session that is still to be cleaned, whatever the browser and the workers do meanwhile |
| InteractionProof.StepKeeps | server/lib/cdpmonitor/interaction_cleanup.go:16-97 | Each of the nineteen kinds of step, browser, event, worker, applier and connection, as the source takes it, keeps the invariant unless it is a harmful discharge |
| InteractionProof.AnsweredKeeps | server/lib/cdpmonitor/domains.go:84-123 | The outcome of an injection: rejected, told that its target is gone, or recorded with its script |
| InteractionProof.UncertainKeeps | server/lib/cdpmonitor/domains.go:84-112 | An injection whose reply is lost or undecodable keeps its obligation |
| InteractionProof.FinishKeeps | server/lib/cdpmonitor/domains.go:161-166 | A fully cleaned session gives up its obligation and its marker without uncovering any target |
| InteractionProof.OpenKeeps | server/lib/cdpmonitor/interaction_cleanup.go:64-97 | Pruning to the targets of the new browser uncovers no live target |
| InteractionScenarios.GetsReady | server/lib/cdpmonitor/telemetry.go:168-195 | An undisturbed new session whose target is owed nothing gets ready, and is marked for an injection exactly if capture is on and the connection works |
| InteractionScenarios.RegistersScript | server/lib/cdpmonitor/domains.go:73-123 | A script the browser registers is recorded with its session, and its target is owed from then on |
| InteractionScenarios.InjectionFails | server/lib/cdpmonitor/domains.go:84-112 | A rejected injection leaves nothing owed; without a usable reply in time the target is owed and the connection goes; one told that its target is gone leaves nothing |
| InteractionScenarios.WorkerCleans | server/lib/cdpmonitor/interaction_cleanup.go:16-38 | The worker of a session whose target is owed cleans its documents, and the target is owed no more |
| InteractionScenarios.WorkerFails | server/lib/cdpmonitor/interaction_cleanup.go:16-38 | When the reply is missing or bad, or what follows fails, the obligation stays, and the connection goes unless the session has left |
| InteractionScenarios.SweepCleans | server/lib/cdpmonitor/domains.go:125-168 | The sweep removes the script of a session it comes to, cleans its documents, and takes its target and its mark off the books |
| InteractionScenarios.SweepFails | server/lib/cdpmonitor/telemetry.go:107-137 | A session that is not cleaned keeps mark and obligation, and the sweep has failed, which costs the connection; one that has left is passed over |
| InteractionScenarios.ApplyingStops | server/lib/cdpmonitor/telemetry.go:67-106 | Applying a revision waits for the workers and stops capture; on a working connection it sweeps exactly the marked sessions |
| InteractionTables.InteractionState.BeginInjection | server/lib/cdpmonitor/domains.go:73-83 | Only an injection of a still attached session is announced as pending, and none at all once the context is cancelled |
| InteractionTables.InteractionState.EndInjection | server/lib/cdpmonitor/domains.go:88-100 | The obligation is added unless the session was unknown, the target is gone or the browser rejected the script |
| InteractionTables.InteractionState.TargetDestroyed | server/lib/cdpmonitor/monitor.go:313-328 | A destroyed target loses its obligation, and its pending injections are told, in any order |
| InteractionTables.InteractionState.Discharge | server/lib/cdpmonitor/interaction_cleanup.go:34-36 | The deletion after a cleanup, as the source has it |
| InteractionTables.InteractionState.PruneInteractionTargets | server/lib/cdpmonitor/interaction_cleanup.go:85-96 | The loop, in any order, is the pruning of the step that opens a connection, which OpeningPrunes pins target by target |
| HeaderMatching.RunConserves | server/lib/cdpmonitor/network_capture.go:62-149 | Over every run, re-resolutions included: matched hops form a prefix, every ready channel is closed exactly once when its hop matches, and accepted ExtraInfo = consumed followed by queued |
| HeaderMatching.RunSettles | server/lib/cdpmonitor/network_capture.go:98-149 | After every step the loop has matched as far as it can: the k-th matched hop that advertises ExtraInfo holds exactly the k-th accepted ExtraInfo |
| HeaderMatching.MatchingIsConfluent | server/lib/cdpmonitor/network_capture.go:132-149 | Two runs with the same hops, resolutions and accepted ExtraInfo end in the same state however their events interleaved |
| HeaderMatching.SettledIsUnique | server/lib/cdpmonitor/network_capture.go:132-149 | A settled exchange is determined by its resolutions and its accepted ExtraInfo |
| HeaderMatching.ResolveSettlesIff | server/lib/cdpmonitor/network_capture.go:98-104 | A second resolution of a hop is harmless exactly when the hop is not matched yet or it says the same again |
| HeaderMatching.RunSays | server/lib/cdpmonitor/network_capture.go:86-117 | In every run a hop is resolved, and advertises ExtraInfo, exactly as the first response or failure for it says, a failure always advertising it; never more than 64 ExtraInfo wait |
| HeaderMatching.ResolvingNext | server/lib/cdpmonitor/network_capture.go:98-117 | When the first unmatched hop is resolved or fails, it takes exactly the first ExtraInfo that waits, or nothing if its response has none, or stays unmatched |
| HeaderMatching.WaitsForNext | server/lib/cdpmonitor/network_capture.go:132-149 | A resolved or failed hop with no ExtraInfo waiting stays next, through every other event, and takes exactly the next ExtraInfo that arrives |
| HeaderMatching.LateFailureIsNothing | server/lib/cdpmonitor/network_capture.go:106-117 | The failure of a hop that has been resolved changes nothing at all |
| HeaderMatching.NetworkExchange.MatchHeaders | server/lib/cdpmonitor/network_capture.go:132-149 | The loop that consumes the queue computes the matching |
| HeaderMatching.NetworkExchange.HandleExtraInfo | server/lib/cdpmonitor/network_capture.go:86-96 | An ExtraInfo is accepted while fewer than 64 wait, then matched |
| HeaderMatching.NetworkExchange.ResolveFailed | server/lib/cdpmonitor/network_capture.go:106-117 | A failure resolves only a hop that no response has resolved, and then as one that has ExtraInfo: RunSays and ResolvingNext say with what headers it ends |
| PublicationOrder.PublishedInOrderIff | server/lib/cdpmonitor/network_capture.go:161-268 | The events of a chain are published in order under every interleaving of its goroutines if and only if every redirect carries a decodable response |
| PublicationOrder.PublishedPlaces | server/lib/cdpmonitor/handlers.go:519-538 | In such a chain the k-th published event is request k/2 for even k and what ended that hop for odd k |
| PublicationOrder.PublishedKinds | server/lib/cdpmonitor/handlers.go:519-538 | Which event is published where: request k/2 for even k; for odd k the redirect response of hop k/2, or, for the last hop, the final response or the failure that ended the chain |
| PublicationOrder.AllArePublished | server/lib/cdpmonitor/network_capture.go:161-268 | When every publisher of such a chain has finished, every request and whatever ended every hop has been published |
| PublicationOrder.RegisteredIff | server/lib/cdpmonitor/network_capture.go:119-130 | The exchange is in the table exactly until it is evicted, or its chain has ended with nobody left to publish |
| PublicationOrder.EveryPublisherFinishes | server/lib/cdpmonitor/network_capture.go:119-130 | However the goroutines are scheduled they take exactly the steps they have left; then every one is done, publications is zero, and a terminal exchange has left the table |
| PublicationOrder.SomeoneCanRun | server/lib/cdpmonitor/network_capture.go:185-194 | No deadlock: while a publisher is unfinished, some publisher can step |
| PublicationOrder.UndecodableCanOvertake | server/lib/cdpmonitor/handlers.go:519-538 | A concrete schedule in which the request after an undecodable redirect is published first |
| PublicationOrder.ChainOk | server/lib/cdpmonitor/network_capture.go:119-130 | Waits point backwards and publications counts the unreleased publishers, in every run |
| PublicationOrder.ExchangeLedger.FinishPublication | server/lib/cdpmonitor/network_capture.go:125-130 | Releasing a publication drops the exchange when it was the last of a terminal one |
| PublicationOrder.ExchangeLedger.ResolveFailed | server/lib/cdpmonitor/handlers.go:659-711 | A failure makes the exchange terminal and drops it if nothing publishes |
| TelemetryFence.RevisionsOnlyGrow | server/lib/cdpmonitor/telemetry.go:18-39 | Over every run the applied revision never passes the desired one, both only grow, and an unapplied revision is never forgotten |
| TelemetryFence.PublishedOnlyWhenApplied | server/lib/cdpmonitor/monitor.go:126-133 | A non-monitor event is published only while the desired word is enabled and applied, whatever ran since the check |
| TelemetryFence.DisabledSilences | server/lib/cdpmonitor/telemetry.go:18-39 | After a disabled word is committed, a published event needs a later enabled word to have been applied in between |
| TelemetryFence.EnabledIsDrained | server/lib/cdpmonitor/monitor.go:492-522 | Between an enabled applied word and any later applied word its capture is drained, whoever applies the later one, also for an off/on pair that was coalesced |
| TelemetryFence.DrainedBetweenIff | server/lib/cdpmonitor/monitor.go:198-230 | Between two applied words there is a drain, in every run, if and only if the earlier word is an enabled one: a new connection applies without draining |
| TelemetryFence.WorkerDrainsFirst | server/lib/cdpmonitor/telemetry.go:67-140 | Whatever the worker applies it applies after a drain of its own, with no word applied in between |
| TelemetryFence.OffOnIsNew | server/lib/cdpmonitor/telemetry.go:18-34 | Off and on again is a new word; asking for the current setting is not |
| TelemetryFence.PublishesIff | server/lib/cdpmonitor/monitor.go:126-133 | An undisturbed publisher hands its event on exactly if the desired word is enabled and applied, and leaves the fence either way |
| TelemetryFence.WorkerApplies | server/lib/cdpmonitor/telemetry.go:67-140 | A signalled worker that nobody disturbs drains and applies the desired word, unless it is applied already, or enabled with no working connection |
| TelemetryFence.OpenerApplies | server/lib/cdpmonitor/monitor.go:198-230 | An opener applies the desired word on its new connection or leaves everything as it was; closing drains |
| TelemetryFence.TelemetryState.SetTelemetry | server/lib/cdpmonitor/telemetry.go:18-34 | Commits the next word and owes the worker a signal exactly when the setting changes |
| ComputedStates.DecisionsAreSound | server/lib/cdpmonitor/computed.go:131-331 | With stale callbacks at any later time: at most one network_idle, one layout_settled and one navigation_settled per navigation, idle only at zero pending, settled only after DOM-loaded and layout of that navigation, nothing once stopped |
| ComputedStates.NoTimerIsLost | server/lib/cdpmonitor/computed.go:217-262 | A live state that still owes an idle or layout decision has the timer of that very navigation armed |
| ComputedStates.StepAppends | server/lib/cdpmonitor/computed.go:131-331 | Whatever a step decides keeps the log sound, given what the flags say about it |
| ComputedStates.DecisionsAreComplete | server/lib/cdpmonitor/computed.go:217-331 | While the session lives nothing due is withheld: navigation_settled is decided exactly when both its causes are, and a layout or idle decision that is still due has its timer armed, which decides it when it runs |
| ComputedStates.CounterIsLifted | server/lib/cdpmonitor/computed.go:183-215 | The pending counter is requests less finishes since the latest navigation, lifted by as much as that balance has been below zero since |
| ComputedStates.ArmedIsCurrent | server/lib/cdpmonitor/computed.go:217-273 | An armed timer is for the current navigation of a live session: the idle one with nothing in flight, the layout one after page load |
| ComputedStates.ComputedState.Reset | server/lib/cdpmonitor/computed.go:142-181 | A navigation starts over with the requests in flight, and re-arms the timer when there are none |
| ComputedStates.ComputedState.LoadingFinished | server/lib/cdpmonitor/computed.go:196-215 | A finished request lowers the counter, clamped, and arms the idle timer at zero |
| ComputedStates.ComputedState.RunNetIdle | server/lib/cdpmonitor/computed.go:217-243 | The idle callback decides only for the navigation it was armed for |
| ComputedStates.ComputedState.RunLayoutSettled | server/lib/cdpmonitor/computed.go:275-299 | The layout callback decides layout and then, if DOM content is in, navigation |
| ComputedStates.ComputedState.TakeNavigationSettled | server/lib/cdpmonitor/computed.go:313-331 | navigation_settled is handed out once, when both causes are in |
| SurfaceOwnership.RunOwned | server/lib/browsersurface/targets.go:22-323 | In every reachable state tabs and tabsByTarget are inverse, every tab, parent and session that is named is live, every window has a tab on its raw id, assigned tabs agree with the window table, public ids are distinct, every frame with a parent has one, and a parent session is initialized before its children |
| SurfaceOwnership.NextOwned | server/lib/browsersurface/frames.go:15-62 | Each kind of event keeps all of that |
| SurfaceOwnership.IdsAreNeverReused | server/lib/browsersurface/tracker.go:41-44 | Over any run an id names the same tab, window or frame wherever it appears, and does not come back once gone |
| SurfaceOwnership.BindingIsConfluent | server/lib/browsersurface/frames.go:219-254 | With locations tracked, binding sessions to tabs has one outcome for every order of visits |
| SurfaceOwnership.LeastExists | server/lib/browsersurface/frames.go:219-254 | The least solution of "own target's tab, else the parent session's, else a known frame's" exists, and assigns only live tabs |
| SurfaceOwnership.AssignWindowOwned | server/lib/browsersurface/targets.go:206-227 | Moving a tab between windows leaves no window without a tab |
| SurfaceOwnership.RemoveTabOwned | server/lib/browsersurface/targets.go:293-323 | Removing a tab removes everything that names it |
| SurfaceOwnership.CommitInitOwned | server/lib/browsersurface/frames.go:88-180 | Committing an initialization with the copy of the session taken when it began keeps all of that, whatever became of the session since |
| SurfaceOwnership.OwnTabLasts | server/lib/browsersurface/frames.go:88-160 | In any run a session that belongs to a tab belongs to that tab for as long as it lasts, so the tab that an initialization copied is still its own at the end |
| SurfaceFrames.TreeIsRecorded | server/lib/browsersurface/frames.go:192-217 | After a frame tree is added every node of it is a frame, with the parent, tab and session it was last reported with, and a public id unless it is a root; all other frames are as before, and no other gets an id |
| SurfaceFrames.FrameKeepsId | server/lib/browsersurface/frames.go:199-217 | In any run a frame that is not below itself keeps its public id for as long as it lasts |
| SurfaceFrames.NavigationKeepsIdIff | server/lib/browsersurface/frames.go:266-287 | A navigated frame keeps its id exactly when it is not below itself |
| SurfaceLifetimes.SessionsComeAndGo | server/lib/browsersurface/frames.go:318-359 | A session is there after a step exactly if it was there and neither it, nor one above it, is removed or goes with a removed target, or if it is admitted: of a tracked kind, new, and with a known parent |
| SurfaceLifetimes.SessionLastsIff | server/lib/browsersurface/targets.go:273-314 | In any run a session lasts exactly until it, one above it, or the target one of them goes with is removed |
| SurfaceLifetimes.SessionsAreTold | server/lib/browsersurface/targets.go:229-271 | What a step may make of a session that stays: a new target, the beginning or end of its initialization, a parent or a tab it lacked |
| SurfaceLifetimes.AdmittedAs | server/lib/browsersurface/frames.go:15-62 | A new session has its target, the parent it was reported with, and at once the first known tab: of its target, and for an iframe of its parent, its parent frame and its own frame |
| SurfaceLifetimes.BindingGoesBy | server/lib/browsersurface/frames.go:219-254 | A session bound for the first time goes where its target is, else with its parent session, else where the frame above it or its own frame is |
| SurfaceLifetimes.BindingFindsParents | server/lib/browsersurface/frames.go:228-236 | Without tracked locations a session that lacks its parent gets some session above it, exactly when there is one |
| SurfaceLifetimes.BindingIsPossible | server/lib/browsersurface/frames.go:219-254 | Whatever the tables, sessions can be bound |
| SurfaceLifetimes.TabsAre | server/lib/browsersurface/targets.go:206-314 | The tab table after every step: a page adds one, an assignment moves one, a page session gives one its root frame, the removal of a target takes its own |
| SurfaceLifetimes.WindowsAre | server/lib/browsersurface/targets.go:206-323 | A window is there exactly while a tab is on it, and keeps the id it was given, the next one, until then |
| SurfaceLifetimes.TrackedUntil | server/lib/browsersurface/targets.go:22-82 | A page is tracked exactly from its registration until attaching to it fails, a session of it ends or it is removed |
| SurfaceLifetimes.ListedUntil | server/lib/browsersurface/targets.go:115-144 | Any other target is tracked exactly until it is forgotten or removed, or a session of it ends |
| SurfaceLifetimes.FramesAre | server/lib/browsersurface/frames.go:256-316 | The frame table after every step: the frames it reports, under the tab of the reporting session, and all others except those below or of what it removes, without the sessions that ended |
| ParentClosure.SubtreeIsLeast | server/lib/browsersurface/frames.go:328-351 | What leads to a root along parent links is the least closed set that holds it, cycles included |
| ParentClosure.RestKeepsParents | server/lib/browsersurface/frames.go:328-351 | What is left after removing a subtree keeps its parents |
| SurfaceTracker.StillIsBound | server/lib/browsersurface/frames.go:219-254 | When a round changes nothing, the sessions are bound: the tabs are the least solution for the parents that were recovered |
| SurfaceTracker.Tracker.BindSessions | server/lib/browsersurface/frames.go:219-254 | The rounds over the session table, in any order, terminate and bind the sessions; without locations they also recover parents |
| SurfaceTracker.Tracker.TabFor | server/lib/browsersurface/frames.go:237-248 | The branches for one session give what the rule says |
| SurfaceTracker.Tracker.FindParent | server/lib/browsersurface/frames.go:228-236 | Recovers some session whose target is the parent frame, if there is one |
| SurfaceTracker.Tracker.Descendants | server/lib/browsersurface/frames.go:328-338 | The rounds of removeSessionLocked terminate with exactly the transitive closure |
| SurfaceTracker.Tracker.RemoveSessionTree | server/lib/browsersurface/frames.go:328-359 | Removes exactly that closure, reports each removed session once and in ascending order, and orphans its frames |
| SurfaceTracker.Tracker.RemoveEach | server/lib/browsersurface/targets.go:273-303 | Removing sessions one by one while iterating removes exactly everything below them, each reported once |
| SurfaceTracker.RemovesMore | server/lib/browsersurface/targets.go:298-303 | Why: a root still present removes only what is below the roots, and again leaves nobody without its parent |
| SurfaceTracker.Tracker.RemoveFrameChildren | server/lib/browsersurface/frames.go:303-316 | Deleting frames while going round the table removes exactly the transitive closure of a parent, each once, in any order |
| SurfaceTracker.Tracker.RegisterPage | server/lib/browsersurface/targets.go:22-42 | A known target is tracked again, a new one gets the next tab id; sessions are bound |
| SurfaceTracker.Tracker.AssignPageWindow | server/lib/browsersurface/targets.go:206-227 | Assigns the window of a tab and drops the old one if it is left empty |
| SurfaceTracker.Tracker.RemoveEmptyWindow | server/lib/browsersurface/targets.go:316-323 | Drops a window exactly when no tab is on it |
| SurfaceTracker.Tracker.RemoveTabTree | server/lib/browsersurface/targets.go:293-314 | Removes a tab with its sessions and frames, and its window if that was its last tab |
| SurfaceTracker.Tracker.RemoveTargetInfo | server/lib/browsersurface/targets.go:273-291 | A removed target takes its tab, or else its sessions, with everything below, and reports exactly those sessions, each once |
| SurfaceTracker.Tracker.UpdateTargetInfo | server/lib/browsersurface/targets.go:229-238 | Every session of the target gets the new target |
| SurfaceTracker.Tracker.Add | server/lib/browsersurface/frames.go:15-50 | Adds a tracked, new session whose inherited parent is live, and binds sessions |
| SurfaceTracker.Tracker.FinishInit | server/lib/browsersurface/frames.go:154-176 | Commits the frame tree under the tab and the target copied when the initialization began, with the parent an iframe root has from elsewhere, and binds; a session that is gone changes nothing |
| SurfaceTracker.Tracker.AddFrameTree | server/lib/browsersurface/frames.go:192-217 | The recursion over the tree adds every node: TreeIsRecorded says with which parent, tab, session and public id |
| SurfaceTracker.Tracker.FrameAttached | server/lib/browsersurface/frames.go:256-264 | Upserts a frame of a located session and binds sessions |
| SurfaceTracker.Tracker.FrameNavigated | server/lib/browsersurface/frames.go:266-287 | Drops everything below the frame, then upserts it under the parent it had |
| SurfaceTracker.Tracker.FrameDetached | server/lib/browsersurface/frames.go:289-301 | Drops the frame and everything below it, each reported once |
| CellAnalysis.AnalyzeCell | server/runtime/cell-analysis.ts:275-334 | Pushes the edits, sorts and applies them: the text that results is the recursive translation of every statement, whose pieces CellReading reads back |
| CellAnalysis.CellTranslates | server/runtime/cell-analysis.ts:90-346 | For every well-ranged tree the pushed edits, sorted, are in bounds and nowhere overlap, applying them never fails, and the result is the direct recursive translation |
| CellAnalysis.StatementEmits | server/runtime/cell-analysis.ts:179-260 | The edits of one statement are in order inside its range, and applying them there gives its translation |
| CellAnalysis.DeclEmits | server/runtime/cell-analysis.ts:153-177 | So for a variable declaration, with the semicolon that automatic insertion would have supplied |
| CellAnalysis.PlaceAll | server/runtime/cell-analysis.ts:318-330 | A stable sort moves every rename, pushed last, to its function |
| CellAnalysis.ApplyEdits | server/runtime/cell-analysis.ts:336-346 | The loop with its cursor applies the sorted edits or reports an overlap |
| CellAnalysis.FindAlias | server/runtime/cell-analysis.ts:322-325 | The search terminates with the first alias, in number of underscores, that no one uses |
| CellAnalysis.InitializesNames | server/runtime/cell-analysis.ts:90-122 | Initializing a pattern is assigning the same pattern with every name replaced by its place in the initialization target, and nothing else |
| CellEdits.CellEditsAre | server/runtime/cell-analysis.ts:275-334 | The edits of a cell in source order are exactly those of its statements: of a declaration there, a class, the alias of a function, and every var declaration below, as a statement, in a loop head or as the target of a round |
| CellEdits.StatementEditsAre | server/runtime/cell-analysis.ts:179-260 | Below the top level a statement gets exactly the edits of the var declarations in it, however deep |
| CellEdits.CellIsSpliced | server/runtime/cell-analysis.ts:336-346 | The text of a cell is its source with those edits spliced in one by one, from the last to the first; what no edit covers stays |
| CellEdits.FailsIffOverlapping | server/runtime/cell-analysis.ts:336-346 | Applying sorted edits fails exactly when one starts before the one before it has ended |
| CellReading.DeclaratorReads | server/runtime/cell-analysis.ts:90-138 | The text of a declarator, for every pattern, initializer and kind, reads back as exactly what it is to do: assign its own initializer, undefined when it has none, to the pattern it declares, with every default and computed key where it was |
| CellReading.HeadReads | server/runtime/cell-analysis.ts:140-151 | The head of a loop reads back as the assignments of its declarators, in order, or as the target of each round |
| CellReading.ClassReads | server/runtime/cell-analysis.ts:266-273 | A class becomes the assignment of the class as an expression to its place |
| CellReading.DeclarationReads | server/runtime/cell-analysis.ts:153-177 | The keyword goes, the first declarator comes first, what followed the last one stays, and the statement ends with a semicolon |
| CellReading.LastHoleIsLost | server/runtime/cell-analysis.ts:109-110 | An array pattern reads back with as many elements as it declares exactly when it does not end with a hole; every other element is where it was |
| CellReading.NamesAreWritten | server/runtime/cell-analysis.ts:33-67 | The names a pattern declares are exactly the references its assignment writes |
| CellReading.CellBinds | server/runtime/cell-analysis.ts:179-313 | A cell binds exactly what its statements declare: top-level declarations with their kind, and every var below |
| CellAnalysis.Analyzer.AddStatement | server/runtime/cell-analysis.ts:179-260 | The traversal pushes the edits and the bindings of the statement |
| CellAnalysis.Analyzer.VariableEdits | server/runtime/cell-analysis.ts:153-177 | Pushes the edits of a declaration |
| CellAnalysis.Analyzer.RenameFunctions | server/runtime/cell-analysis.ts:318-331 | The second pass: fresh, distinct aliases and the hoisted table |
| CellRuntime.CheckIff | server/runtime/cell-runtime.ts:93-103 | The check accepts a cell exactly when it declares no built-in and no name twice that is lexical anywhere |
| CellRuntime.BindingsLast | server/runtime/cell-runtime.ts:131-195 | Over any run, an initialized const never changes, lexical names keep their kind, and a lexical binding whose initializer did not complete stays uninitialized |
| CellRuntime.RunKeeps | server/runtime/cell-runtime.ts:73-158 | Both tables always hold the same names with the same kinds, and a lexical name waits for one cell only |
| CellRuntime.RejectedChangesNothing | server/runtime/cell-runtime.ts:37-46 | A cell rejected by the check changes nothing but the sequence number |
| CellRuntime.BeginPrepares | server/runtime/cell-runtime.ts:131-158 | What an accepted cell makes of each name, by the last kind it declares it with: a var that was there keeps its value, any other starts over uninitialized, a new var is undefined |
| CellRuntime.OnlyWritesChange | server/runtime/cell-runtime.ts:117-195 | A value changes only by an allowed write of that name, or when a cell declares it anew as no var |
| CellRuntime.ReadsBack | server/runtime/cell-runtime.ts:175-195 | A name reads what was written last, and throws until something is; a write that is not allowed changes no read |
| CellRuntime.UnfinishedIsDead | server/runtime/cell-runtime.ts:81-88 | What an ended cell left pending can never be initialized |
| CellRuntime.CellRuntime.Precheck | server/runtime/cell-runtime.ts:93-103 | The loop computes the check |
| CellRuntime.CellRuntime.PrepareBindings | server/runtime/cell-runtime.ts:131-158 | The loop prepares every name once, with its last kind; a var keeps its value, a function starts over |
| CellRuntime.CellRuntime.StartCell | server/runtime/cell-runtime.ts:73-80 | A checked cell prepares, registers and gets its target; a rejected one does not |
| CellRuntime.CellRuntime.SetInitial | server/runtime/cell-runtime.ts:117-126 | A target initializes a pending name once |
| CellRuntime.CellRuntime.SetGlobal | server/runtime/cell-runtime.ts:185-194 | An accessor write throws for an uninitialized lexical and for an initialized const, changing nothing |
| CellRuntime.UnfinishedStaysUnusable | server/runtime/cell-runtime.ts:73-195 | A lexical name whose cell ended before initializing it: in every continuation of any run its accessor throws on reads and writes, no target initializes it, and every cell that declares it again is rejected |
| PageArgument.SerializesIff | server/runtime/page-evaluation.ts:23-58 | Over an arbitrary finite heap serialization terminates, and succeeds exactly when no path from the root reaches an unsupported value or comes back to an object on it |
| PageArgument.RoundTrips | server/runtime/page-evaluation.ts:89-114 | Reviving gives the tree unfolding of the original and nothing else, with NaN, infinities, -0, undefined and big integers |
| PageArgument.UnfoldingIsUnique | server/runtime/page-evaluation.ts:89-114 | A value has one tree unfolding at most |
| PageArgument.BigIntRoundTrips | server/runtime/page-evaluation.ts:35-35 | A big integer survives its decimal text |
| PageArgument.DecimalIsCanonical | server/runtime/page-evaluation.ts:35-35 | Its text has no sign but that of a negative integer, and no leading zero |
| PageArgument.Serializer.SerializeArgument | server/runtime/page-evaluation.ts:23-58 | With one set that grows and shrinks, the same result, and the set restored |
| ExportChunks.ChunkBySize | server/lib/events/otlpstorage.go:111-126 | Partitions the records in order into non-empty chunks, each a single record or within the limit, and no such partition has fewer |
| ExportChunks.FullIsFewer | server/lib/events/otlpstorage.go:119-122 | Chunks that could not take the next record are no more than any legal ones that cover at least as much |
| ChromiumFlags.MergedReadsLast | server/lib/chromiumflags/chromiumflags.go:115-145 | One entry per canonical name in first-seen order; a first-wins reader of the merged list agrees with a last-wins reader of base followed by runtime |
| ChromiumFlags.MergingSettles | server/lib/chromiumflags/chromiumflags.go:208-281 | Merging a merged command line with nothing changes nothing |
| ChromiumFlags.MergedEnables | server/lib/chromiumflags/chromiumflags.go:188-246 | The features a merged command line enables, read back from its tokens, are those of base followed by runtime, last one winning |
| ChromiumFlags.MergedDisables | server/lib/chromiumflags/chromiumflags.go:188-246 | And so the features it disables |
| ChromiumFlags.MergedExtensions | server/lib/chromiumflags/chromiumflags.go:228-281 | The merged command line switches extensions off exactly if the runtime flags do, or the base flags do and the runtime flags name none; otherwise it loads exactly those either names to load or to except; other tokens stay |
| ChromiumFlags.NoEmptySwitch | server/lib/chromiumflags/chromiumflags.go:228-281 | No list switch of a merged command line is left without a value |
| ChromiumFlags.ParseHas | server/lib/chromiumflags/chromiumflags.go:43-65 | Each bucket holds exactly the values of its own switch, and the rest every other token |
| ChromiumFlags.FeatureNames | server/lib/chromiumflags/chromiumflags.go:84-126 | The name of an entry is what stands before its first separator, without a leading star |
| ChromiumFlags.JoinSplits | server/lib/chromiumflags/chromiumflags.go:30-37 | Joining values with commas and splitting them again gives them back |
| ChromiumFlags.TranslationSettles | server/lib/chromiumflags/chromiumflags.go:347-370 | Translating twice is translating once; no kernel switch is left, other tokens stay, and the disabled features are the last ones asked for |
| ChromiumFlags.KernelIsTranslated | server/lib/chromiumflags/chromiumflags.go:347-370 | Without a value for the kernel switch nothing changes; with one, no kernel switch is left, and one switch for disabled features, the last token |
| ChromiumFlags.TranslatedNames | server/lib/chromiumflags/chromiumflags.go:347-370 | There a first-wins reader finds disabled exactly the features that some entry of either switch names |
| ChromiumFlags.MergeFeatureEntries | server/lib/chromiumflags/chromiumflags.go:128-145 | The loop with its index map computes the merge |
| ChromiumFlags.ParseTokenStream | server/lib/chromiumflags/chromiumflags.go:43-65 | The loop sorts tokens into their buckets |
| ChromiumFlags.Deduped | server/lib/chromiumflags/chromiumflags.go:67-82 | The loop keeps the first occurrence of every non-empty text |
| ChromiumFlags.DedupeFromIs | server/lib/chromiumflags/chromiumflags.go:67-82 | Exactly the non-empty texts, each once |
| ChromiumFlags.MergeFlagTokens | server/lib/chromiumflags/chromiumflags.go:208-281 | The whole merge, with the three rules for extensions |
| ChromiumFlags.TranslateKernelDisableFeatures | server/lib/chromiumflags/chromiumflags.go:351-370 | The loop and the fold into one switch |
| CounterRing.CountsAreSpaced | server/lib/cdpmonitor/network_metrics.go:27-46 | Whatever is reported, a key is counted again in a generation only after 8192 other keys |
| CounterRing.CountedUnlessRecent | server/lib/cdpmonitor/network_metrics.go:27-46 | A report is counted exactly if both ids are 1 to 256 bytes long and its key is none of the last 8192 counted |
| CounterRing.ReportedAreCounted | server/lib/cdpmonitor/network_metrics.go:27-46 | The keys counted in a generation are exactly the acceptable ones reported |
| CounterRing.SlotsAreSeen | server/lib/cdpmonitor/network_metrics.go:15-21 | seen is exactly the set of non-empty history slots |
| CounterRing.SlotsDistinct | server/lib/cdpmonitor/network_metrics.go:15-21 | No key has two slots |
| CounterRing.RingTurns | server/lib/cdpmonitor/network_metrics.go:38-41 | Overwriting the next slot keeps the ring holding the last 8192 keys counted |
| CounterRing.NetworkCounters.Terminal | server/lib/cdpmonitor/network_metrics.go:27-46 | Counts an acceptable key unless it is among the last 8192; resets never exceed completed |
| CounterRing.NetworkCounters.NewGeneration | server/lib/cdpmonitor/network_metrics.go:50-56 | Forgets the keys and keeps both totals |
| CommandClient.CommandsAreMatched | server/lib/cdpclient/cdpclient.go:146-289 | In every run a send on a response channel finds it empty, no channel has had two values, an answer bears its command's id, and nothing is pending after shutdown |
| CommandClient.OutcomesAreFinal | server/lib/cdpclient/cdpclient.go:155-219 | What a command returns is final, a response once sent stays, and shutdown is for good |
| CommandClient.NobodyIsStuck | server/lib/cdpclient/cdpclient.go:198-218 | A waiting command can be answered, cancelled or told of the shutdown; any other that has not returned has a step of its own |
| CommandClient.WhatReturns | server/lib/cdpclient/cdpclient.go:155-219 | What an outcome means: the response that was sent, whenever there is one; cancelled or closed only without one; write failed and closed only for that reason |
| CommandClient.CommandReturns | server/lib/cdpclient/cdpclient.go:155-219 | An undisturbed command returns the answer to it, or its failed write, and leaves nothing pending |
| CommandClient.ShutdownTells | server/lib/cdpclient/cdpclient.go:282-302 | Shutting down refuses commands that are not registered yet and tells exactly the pending ones |
| CommandClient.Connection.DeliverReply | server/lib/cdpclient/cdpclient.go:268-278 | Hands a reply to the command that waits for it, without blocking |
| CommandClient.Connection.FailAll | server/lib/cdpclient/cdpclient.go:282-289 | Fails every pending command, in any order, without blocking |
| CommandClient.Connection.RegisterSend | server/lib/cdpclient/cdpclient.go:173-179 | A command registers only while the connection is open |
| RetryingClient.PromisesSettleOnce | server/runtime/browser-cdp-client.ts:242-286 | In any run every promise settles at most once, with its own response or a failure, and is pending exactly until then; an id is written at most once |
| RetryingClient.SettledForGood | server/runtime/browser-cdp-client.ts:261-286 | What a promise has settled with never changes |
| RetryingClient.WhatSettles | server/runtime/browser-cdp-client.ts:242-286 | What a pending promise settles with: the result or the error of its own response, a timeout, or the closing of the current socket; nothing else settles it |
| RetryingClient.WhatIsIssued | server/runtime/browser-cdp-client.ts:436-483 | Issuing takes the next id; a payload that cannot be written fails its promise at once |
| RetryingClient.CurrentIsUp | server/runtime/browser-cdp-client.ts:196-259 | In every run the client uses the socket it connected last, until that one closes |
| RetryingClient.CloseFailsPending | server/runtime/browser-cdp-client.ts:242-259 | Closing the current socket fails everything pending |
| RetriedCalls.WritesAreBounded | server/runtime/browser-cdp-client.ts:390-434 | Under any interleaving of calls, messages, timeouts and closes: every payload on the wire carries the method of one call, a call writes at most one, or two if it replays and its method is safe to repeat, and it tries again or reports an unknown outcome only after the connection closed on its first try |
| RetriedCalls.RunSound | server/runtime/browser-cdp-client.ts:390-434 | Every state of every run keeps the invariant behind that bound |
| RetriedCalls.CallsReport | server/runtime/browser-cdp-client.ts:390-434 | In every run a finished call reports how its last try ended, unless the connection closed on the first try of one that replays: then a safe one has tried again and any other reports that it does not know |
| RetriedCalls.CallsGoOn | server/runtime/browser-cdp-client.ts:390-434 | A ready call can try or fail to, and one whose promise has settled moves on |
| RetryingClient.BrowserCdpClient.Send | server/runtime/browser-cdp-client.ts:418-434 | One call on its own: a method outside the safe list is written at most once and a safe one at most twice; only an unsafe one is reported as in doubt |
| RetryingClient.BrowserCdpClient.SessionCommand | server/runtime/browser-cdp-client.ts:390-404 | The same for one command of the attached session on its own, whose replay attaches again |

## Left out

- I/O: sockets, HTTP, JSON, files and the browser itself are arbitrary steps or inputs.
- Time: a timer may run at any moment after it was armed, also when it was stopped too late; no quiet period is claimed, and arming an armed timer again leaves no trace. The only clock is the TTL of the request registry.
- Identifiers are opaque numbers where only equality and emptiness matter; counters and revisions do not wrap.
- RequestAccounting.CountersExact: holds of handlers that keep up with the sweeper, which ExactIffInTime shows to be necessary; the path on which the navigation context cannot be encoded is not modelled, since encoding strings does not fail.
- RequestAccounting: retries, body capture and event payloads; the counter of a state that has left the table is not claimed to stay exact.
- HeaderMatching: exchanges that are not registered because the table is saturated.
- PublicationOrder.PublishedInOrderIff: one request id is one chain; its reuse after a terminal event, proxy_error events and publishers without a hop are not modelled.
- InteractionRuns.OwedIff: one live session per target, commands of a session handled in the order sent, commands on a dropped session rejected, target and session ids never reused, the detach of an old session heard before the attach of the next one of that target; only page-like targets. A closing client drops the commands it has sent and the browser has not run; until then the browser may run them.
- SurfaceOwnership.RunOwned: session ids are not empty and not added again after removal; the commit of an initialization is one step that still sees its session.
- SurfaceOwnership.BindingIsConfluent: claimed with locations tracked; without, the recovered parents depend on the order, and only the tabs given those parents are determined.
- SurfaceTracker.Tracker.RemoveSessionTree: identifiers are numbers, whose order stands for the order of the strings in the report.
- Tracker read-side (snapshots, locations, session frames, capture readiness), subscribers, worker discovery and titles and URLs of tabs and frames.
- CellAnalysis.CellTranslates: the parser, and with it how ranges come about; expressions are opaque text, binding patterns are those the parser lets through, names need no escaping in JSON.
- CellReading.DeclaratorReads: of patterns the parser lets stand in a declarator; the slices of the source that are copied, initializers, defaults and computed keys, stand for whole expressions, and the text is taken in the pieces it is written in.
- CellRuntime: module linking, the source text of the prelude, random target names, and globals that exist before a cell declares them and cannot be redefined; checking and preparing a cell is one step.
- PageArgument.SerializesIff: array holes, getters and the text form of the payload.
- ChromiumFlags: reading and writing flag files, splitting a command line into words, appending a single extension path.
- ExportChunks.ChunkBySize: the size estimators; estimated sizes are inputs.
- CommandClient.CommandsAreMatched: events on the same connection, and the bytes of requests.
- RetriedCalls.WritesAreBounded: the commands that attach a session and enable its domains are calls of their own.
- RetryingClient: event buffers, dialogs and the arithmetic of deadlines.
- CDP parameter sanitizers, OTLP attribute mapping, egress policy, page-side scripts and caches: small next to the rest.
