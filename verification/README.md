# KubeCove: proved models of its refresh, caching and ordering code

KubeCove keeps what a window shows in step with a cluster: it watches kinds through streams that
can fail, end or answer late, rereads what a change makes stale, keeps a browser session's socket
alive, and joins rows with owners and metrics through caches. This project models that code and
proves what it promises over every run and every input. `dafny verify dfyconfig.toml` checks it.

How it is laid out:

- `ResourceWatch.dfy` is the watch scope as a state machine, one function per callback;
  `ResourceWatchTrace.dfy` says what the order of interruptions and reloads means,
  `ResourceWatchProofs.dfy` holds what every run keeps, `ResourceWatchTurns.dfy` what each turn of a run
  does, said without those functions, `ResourceWatchForgetting.dfy` the runs that forget an
  interruption, and `ResourceWatchObserver.dfy` is the same scope as an object whose methods do to its
  fields what those functions say.
- `LiveRefresh.dfy` (throttle and read slots), `LiveView.dfy` (the binding of a view),
  `BrowserLink.dfy` (reconnecting), `FiniteRead.dfy` (cancelling abandoned reads) and
  `Recorder.dfy` (the interaction recorder) follow the same plan in one file each.
- `GitOpsOwnership.dfy`, `ResourceMetrics.dfy`, `InteractionSources.dfy`, `InteractionFrames.dfy`
  and `UsageMetrics.dfy` prove the cached, bucketed or stack-based forms equal to the plain ones.
- `ReleaseVersions.dfy`, `ReleaseOrder.dfy` and `ReleaseTags.dfy` (release scripts), `YamlDecorations.dfy`,
  `PathState.dfy`, `PathStateDefaults.dfy`, `PathStateStore.dfy` and `PercentEncoding.dfy` hold orders, emitted ranges and
  round trips. `Text.dfy` and `Wrappers.dfy` are the string and option helpers they share.

Time is a parameter of the turns that read the clock; it never runs backwards, and a timer never
fires early. A promise settles once, the backend never returns one stream id twice, and everything
else, messages on any channel, late answers, repeated updates, may come in any order. The identity
of JavaScript objects is a number: a channel's, a row's, a node's, a socket's.

Where the code and its documentation differ, the model follows the code:

- A catch-up reload that fails is not always retried: with a denied watch only the denied kinds are
  reread, and a change of the key set drops the failure. The scope then rests and shows no error
  (`ResourceWatchProofs.RestingScopeReread` says exactly when, `ResourceWatchForgetting` shows the runs).
- An entry of the interaction recorder that still waits for a paint when recording stops is not posted
  by a page exit, whose listener is gone by then (`Recorder.PromiseKeptWhen` says exactly when the
  promise is kept).
- An ancestor owned through `argoApp` alone has no `gitOpsOwner` to hand on, so rows below it stay
  unowned unless their own `argoApp` counts (`GitOpsOwnership.InheritingOwns` says exactly when).
- `comparePrerelease` stops at two texts of one number, such as 1 and 01 or two numbers too large for
  a double to tell apart, and orders other texts by `localeCompare`, where section 11 of SemVer 2.0.0
  asks for character codes; core numbers are rounded too. `ReleaseOrder.ComparesAsSection11` is the exact
  condition over all three. Collation, rounding and the writing of numbers are parameters, of which only
  what double-precision arithmetic keeps is assumed. A bump can therefore fail to grow from two to the
  power of 53 on (`ReleaseTags.NextIsGreater` says exactly when the guard accepts it).
- Build metadata is accepted only on a version without prerelease (`ReleaseVersions.BuildNeedsPlainCore`).
- The expression in `findYamlCommentStart` that looks at the character before a hash sign accepts
  any character, so a comment starts at the first hash sign outside quotation marks.
- A selection may name a cluster-scoped kind by its type, but the sanitizer drops it; a snapshot is read
  back as it is exactly if it is clean (`PathState.ReadBackWhenClean`).
- A stream error or a refusal with an empty message makes a watch show no error
  (`ResourceWatchProofs.NoSilentDeadStream`).

## Model

| member | source | states |
|---|---|---|
| ResourceWatchProofs.StepInv | src/lib/resource-watch.ts:77-256 | every callback of a scope (message, start result, timer, reload result, update, stop, checkReads) keeps one invariant over watches, channels, streams, the reload loop and the recovery timer |
| ResourceWatchProofs.After | src/lib/resource-watch.ts:77-256 | the invariant holds after any interleaving of callbacks from any starting key set |
| ResourceWatchProofs.ChannelOwnership | src/lib/resource-watch.ts:139-188 | in every run the open channels are exactly those held by registered watches that are opening or running, each by one watch, and no channel is closed twice |
| ResourceWatchProofs.StreamOwnership | src/lib/resource-watch.ts:165-187 | in every run a stream the backend returned is run by exactly one registered watch and not stopped, or was stopped exactly once, or its own channel reported its end; this covers starts that resolve after a stop, an update or a restart |
| ResourceWatchProofs.OnlyReturnedStreamsStop | src/lib/resource-watch.ts:172-176 | no stream is stopped that the backend did not return |
| ResourceWatchProofs.ClosedChannelIsSilent | src/lib/resource-watch.ts:142 | a message on a closed channel, or after stop, changes nothing |
| ResourceWatchProofs.NoForgottenInterruption | src/lib/resource-watch.ts:134-137 | while needsCatchUp is false every error, ended stream, failed start and disconnect so far was followed by a whole-scope reload begun with every permitted watch connected; whether one succeeded is RestingScopeReread |
| ResourceWatchProofs.ConnectedScopeCatchesUp | src/lib/resource-watch.ts:113-138 | a scope with every permitted watch connected and no reload running has begun a whole-scope reload after every interruption |
| ResourceWatchProofs.RestingScopeReread | src/lib/resource-watch.ts:95-138 | at rest and with no reload error shown, every interruption was followed by a whole-scope reload that succeeded, if and only if the scope lost sight of no failed one |
| ResourceWatchTrace.DebtMeans | src/lib/resource-watch.ts:95-138 | what a scope owes after any trace: nothing exactly if every interruption was made good by a reload that succeeded |
| ResourceWatchTrace.LostMeans | src/lib/resource-watch.ts:100-112 | a debt is lost exactly if a failed catch-up was dropped by a change of the key set or for its empty message, or its error was cleared by another reload or such a change, with no interruption or whole-scope reload since |
| ResourceWatchForgetting.DeniedRetryForgets | src/lib/resource-watch.ts:194-197 | a catch-up that fails while a watch is denied is retried for the denied keys alone; once that succeeds the scope rests without an error and the interruption is forgotten |
| ResourceWatchForgetting.KeysChangeForgets | src/lib/resource-watch.ts:102-107 | a change of the key set while a catch-up runs drops its failure and forgets the interruption |
| ResourceWatchForgetting.ForgettingRun | src/lib/resource-watch.ts:141-199 | a whole run from two keys that ends so |
| ResourceWatchProofs.ReloadsOfThisScope | src/lib/resource-watch.ts:95-112 | at most one reload is in flight, and a shown reload error or warning came from a reload begun in the current scope generation |
| ResourceWatchProofs.ConnectedIsTrue | src/lib/resource-watch.ts:113-133 | a reported status of connected or partial means that the open stream of every permitted watch last said it is connected |
| ResourceWatchProofs.ConnectedWatch | src/lib/resource-watch.ts:143-151 | a watch marked connected holds an open channel whose last report was connected |
| ResourceWatchProofs.NoSilentDeadStream | src/lib/resource-watch.ts:143-157 | a watch is never left running on a stream that reported its end, and a failing stream is shown as failing exactly when its message is not empty |
| ResourceWatchProofs.RecoveryRestarts | src/lib/resource-watch.ts:189-199 | the recovery timer is armed until stop, and when it fires no permitted watch is left idle |
| ResourceWatchProofs.MessageInv | src/lib/resource-watch.ts:141-162 | a message on any channel, current or not, keeps the invariant |
| ResourceWatchProofs.StartedInv | src/lib/resource-watch.ts:172-178 | a start that resolves at any time keeps the invariant |
| ResourceWatchProofs.RefusedInv | src/lib/resource-watch.ts:179-187 | a start that fails at any time keeps the invariant |
| ResourceWatchProofs.TickInv | src/lib/resource-watch.ts:189-199 | the recovery tick keeps the invariant |
| ResourceWatchProofs.ReloadedInv | src/lib/resource-watch.ts:99-111 | a reload that settles, for the current or a left scope, keeps the invariant |
| ResourceWatchProofs.StopInv | src/lib/resource-watch.ts:251-255 | stop keeps the invariant: every held channel is closed and every running stream stopped |
| ResourceWatchProofs.UpdateInv | src/lib/resource-watch.ts:219-250 | update keeps the invariant |
| ResourceWatchProofs.PublishKeeps | src/lib/resource-watch.ts:113-138 | publish restores what a handler may have broken: a connected scope does not wait with work left |
| ResourceWatchProofs.ChangeKeeps | src/lib/resource-watch.ts:141-187 | a step that changes one channel, its watch and its own stream keeps the ownership of all others |
| ResourceWatchProofs.CloseKeeps | src/lib/resource-watch.ts:210-215 | closing a watch keeps the ownership of channels and streams |
| ResourceWatchProofs.ReceiveKeeps | src/lib/resource-watch.ts:141-160 | handling a message keeps the ownership of channels and streams |
| ResourceWatchProofs.UpdateRegistersExactly | src/lib/resource-watch.ts:219-237 | after update the registered signatures are exactly the distinct signatures of the given keys, once each |
| ResourceWatchProofs.UpdateKeepsWatches | src/lib/resource-watch.ts:224-228 | a watch that stays registered keeps its phase and everything it reported; one that does not is closed |
| ResourceWatchProofs.UpdateKeepsSignatures | src/lib/resource-watch.ts:224-228 | a signature that is still wanted keeps a watch it had |
| ResourceWatchProofs.PutSignatures | src/lib/resource-watch.ts:222 | Map.set keeps one entry per signature and adds exactly the new one |
| ResourceWatchProofs.WantedSignatures | src/lib/resource-watch.ts:222 | the map of wanted keys has exactly the signatures of the keys, once each |
| ResourceWatchProofs.WithoutSignatures | src/lib/resource-watch.ts:226 | Map.delete removes exactly the given signature |
| ResourceWatchProofs.SweepShares | src/lib/resource-watch.ts:222-228 | the sweep over the old watches shares the wanted signatures out between kept watches and keys still to register, none twice |
| ResourceWatchProofs.SweepEffect | src/lib/resource-watch.ts:224-228 | the sweep closes exactly the watches it does not keep and leaves the others as they were |
| ResourceWatchTurns.ChangesAreForwarded | src/lib/resource-watch.ts:141-162 | in every run a resourceChanged message on an open channel of a scope that is not stopped calls onChange once, with the key of that channel's watch; no other turn, and none on a closed channel or after stop, calls it |
| ResourceWatchTurns.MessageIsHeard | src/lib/resource-watch.ts:141-162 | in every run a message on an open channel changes its own watch as the message says and no other; an interruption is noted exactly for an error, a stop or a lost connection, and a stop closes the channel |
| ResourceWatchTurns.ReportDescribes | src/lib/resource-watch.ts:115-133 | what the scope publishes: recovering exactly if some permitted watch is not connected, polling without a permitted watch, partial exactly with a warning, each distinct warning once, the first error, catching up, and the reload error before the read error |
| ResourceWatchTurns.SpokenIsTrue | src/lib/resource-watch.ts:113-138 | in every run each turn that publishes, publishes one state, and that is the truth about the scope after the turn |
| ResourceWatchTurns.UpdateSays | src/lib/resource-watch.ts:219-250 | in every run update publishes one state: the truth about the scope if it registers nothing new, else that it connects |
| ResourceWatchTurns.ResolvedStart | src/lib/resource-watch.ts:172-178 | in every run a start that resolves runs its watch while its channel is open, and else stops the stream and changes no watch |
| ResourceWatchTurns.FailedStart | src/lib/resource-watch.ts:179-187 | in every run a start that fails while its channel is open idles its watch with the error, closes the channel and is an interruption, and else changes nothing |
| ResourceWatchTurns.NewScope | src/lib/resource-watch.ts:200-218 | a new scope says that it connects, has each key's watch opening on a channel of its own, and has its timer armed |
| ResourceWatchTurns.TickReloads | src/lib/resource-watch.ts:189-199 | in every run a tick keeps a running reload; without one it begins a whole-scope reload if some permitted watch is not connected or a read failed, one of the denied keys if a watch is denied, and otherwise one exactly if a reload error is shown |
| ResourceWatchTurns.SettledReload | src/lib/resource-watch.ts:95-112 | in every run a reload that settles is taken over exactly if it was begun for the present key set, and is followed by another exactly if a connected scope still has something to catch up |
| ResourceWatchTurns.StopEndsAll | src/lib/resource-watch.ts:251-255 | in every run stop leaves no timer and no watch, and every channel ever opened closed exactly once |
| ResourceWatchTurns.SignaturesTellApart | src/lib/resource-watch.ts:23-26 | where none of the parts holds a colon, signatures tell keys apart by kind, version, plural and namespace |
| ResourceWatchProofs.StartAllLoop | src/lib/resource-watch.ts:191-207 | starting a list of watches opens the idle permitted ones and changes no other |
| ResourceWatchObserver.ResourceScopeObserver.constructor | src/lib/resource-watch.ts:77-208 | a new scope is in the initial state: every watch registered and started, the timer armed |
| ResourceWatchObserver.ResourceScopeObserver.StartWatch | src/lib/resource-watch.ts:139-188 | start opens a channel and a phase for an idle permitted watch and does nothing otherwise |
| ResourceWatchObserver.ResourceScopeObserver.CloseWatch | src/lib/resource-watch.ts:210-215 | close lets go of the channel and stops the stream of a running watch |
| ResourceWatchObserver.ResourceScopeObserver.BuildReport | src/lib/resource-watch.ts:115-133 | the published state is the report of the state: status, first error, distinct warnings, reload or read error |
| ResourceWatchObserver.ResourceScopeObserver.PublishState | src/lib/resource-watch.ts:113-138 | publishes, then catches up when connected |
| ResourceWatchObserver.ResourceScopeObserver.OnChannelMessage | src/lib/resource-watch.ts:141-162 | the message handler keeps the scope's invariant and gives the state the run lemmas are about; onChange was called exactly for a resourceChanged message on an open channel before stop, with that channel's key |
| ResourceWatchObserver.ResourceScopeObserver.OnStartResolved | src/lib/resource-watch.ts:172-178 | a resolved start runs its watch exactly if its channel is still open, else the stream is stopped; it calls no onChange |
| ResourceWatchObserver.ResourceScopeObserver.OnStartRejected | src/lib/resource-watch.ts:179-187 | a failed start makes its watch idle with the error exactly if its channel is still open, else changes nothing |
| ResourceWatchObserver.ResourceScopeObserver.OnTimer | src/lib/resource-watch.ts:189-199 | the recovery tick keeps a running reload and else begins the one that is called for |
| ResourceWatchObserver.ResourceScopeObserver.OnReloadSettled | src/lib/resource-watch.ts:99-111 | warnings and error of a settled reload are taken over exactly in the scope it was begun for |
| ResourceWatchObserver.ResourceScopeObserver.Update | src/lib/resource-watch.ts:219-250 | update gives exactly the state of its step function, which the run lemmas are about |
| ResourceWatchObserver.ResourceScopeObserver.KeepWanted | src/lib/resource-watch.ts:222-228 | the loop over the old watches keeps and closes as the sweep says |
| ResourceWatchObserver.ResourceScopeObserver.Stop | src/lib/resource-watch.ts:251-255 | after stop no timer is armed, no watch is left and every channel is closed exactly once |
| LiveRefresh.ThrottleKeeps | src/lib/live-view-refresh.ts:68-107 | every turn of the throttle keeps: pending work is in flight behind a refresh or has a timer, an armed timer excludes a running refresh, starts are spaced |
| LiveRefresh.ThrottleAfter | src/lib/live-view-refresh.ts:68-107 | that holds after any interleaving of notify, settled refreshes, timers and dispose |
| LiveRefresh.ThrottleRuns | src/lib/live-view-refresh.ts:68-107 | in every run a wake-up is never lost, refreshes never overlap, and starts i and j are at least 250 ms times j - i apart |
| LiveRefresh.DisposedThrottleIsDead | src/lib/live-view-refresh.ts:102-105 | a disposed throttle starts nothing and holds no timer |
| LiveRefresh.SlotKeeps | src/lib/live-view-refresh.ts:110-119 | every turn of a read slot keeps that a refresh which joined running fetches is followed by another |
| LiveRefresh.SlotAfter | src/lib/live-view-refresh.ts:169-186 | that holds after any interleaving of changes, settled refreshes, timers, re-pointing and arbitrary cache activity |
| LiveRefresh.QuiescentReadsAreFresh | src/lib/live-view-refresh.ts:110-119 | at rest, every query active at the last refresh has a fetch that started at or after the last change, although refreshes join running fetches |
| LiveRefresh.RefreshCoversCurrentRead | src/lib/live-view-refresh.ts:111-117 | a refresh marks stale and fetches exactly the active queries the read matches at that moment |
| LiveRefresh.RefreshJoinsRunningFetches | src/lib/live-view-refresh.ts:111-117 | a refresh joins the fetches it finds running, starts the others, and takes note of the former exactly if there are any; no other turn touches that note |
| LiveRefresh.SettledRefreshRests | src/lib/live-view-refresh.ts:68-119 | refreshing ends: a refresh that settles is followed by another exactly if it joined a running fetch or a change came since |
| LiveRefresh.RepointedRefreshRuns | src/lib/live-view-refresh.ts:169-186 | a re-pointed slot runs its pending refresh for the new match |
| LiveRefresh.HiddenReadIsOnlyMarked | src/lib/live-view-refresh.ts:180-183 | a read the view does not show is only marked stale |
| LiveRefresh.NothingPendingIsStarted | src/lib/live-view-refresh.ts:74-101 | a slot with nothing pending began a refresh no earlier than the last change it saw |
| LiveRefresh.RepointedRefreshFollows | src/lib/live-view-refresh.ts:169-186 | work pending behind a refresh in flight outlives re-pointing and runs for the new match once that refresh settles |
| LiveRefresh.WatchRefreshThrottle.NotifyChange | src/lib/live-view-refresh.ts:96-101 | keeps the throttle invariant; a change starts a refresh now exactly if nothing waits or runs and the last one began 250 ms ago, and else leaves it pending with a timer at that moment or behind the refresh in flight |
| LiveRefresh.WatchRefreshThrottle.RefreshSettled | src/lib/live-view-refresh.ts:84-87 | keeps the invariant; the pending refresh starts exactly if the interval is over, else a timer is armed for its end |
| LiveRefresh.WatchRefreshThrottle.TimerFires | src/lib/live-view-refresh.ts:74-82 | keeps the invariant; a timer that fires starts the pending refresh, at least one interval after the last start |
| LiveRefresh.WatchRefreshThrottle.Stop | src/lib/live-view-refresh.ts:102-105 | keeps the invariant; no timer is left and nothing starts any more |
| LiveRefresh.ReadSlot.NotifyChange | src/lib/live-view-refresh.ts:180-183 | keeps the slot invariant; a change of a refetched read begins a refresh in this turn or leaves it pending, a hidden read leaves the throttle alone |
| LiveRefresh.ReadSlot.RefreshSettled | src/lib/live-view-refresh.ts:111-117 | keeps the invariant; a refresh that joined a running fetch is followed by another one, now or pending, and one that joined none, without a change since, ends the work |
| LiveRefresh.ReadSlot.TimerFires | src/lib/live-view-refresh.ts:111-115 | keeps the invariant; the refresh covers the active queries the read matches then |
| LiveRefresh.ReadSlot.Set | src/lib/live-view-refresh.ts:177-179 | keeps the invariant; re-pointing leaves what is pending, in flight or armed as it is |
| LiveRefresh.ReadSlot.Stop | src/lib/live-view-refresh.ts:184 | keeps the invariant; no timer is left |
| LiveView.KeysMatchWhenTheyOverlap | src/lib/live-view-refresh.ts:155-167 | two watched kinds match exactly when some kind, literal group and namespace is watched by both |
| LiveView.GroupIs | src/lib/live-view-refresh.ts:164-167 | every key is of exactly one group: the one it names, else what stands before the first slash of its apiVersion, else none |
| LiveView.ApiVersionMatchesGroup | src/lib/live-view-refresh.ts:155-167 | a key with apiVersion group/version matches a change of the same kind and namespace exactly if that group is the change's, whatever apiVersion the change has |
| LiveView.PlainVersionIsCore | src/lib/live-view-refresh.ts:164-167 | an apiVersion without a slash is of the empty group |
| LiveView.NamedGroupWins | src/lib/live-view-refresh.ts:164-167 | a named group wins over the apiVersion, and keys of different groups never match |
| LiveView.StepKeeps | src/lib/live-view-refresh.ts:209-291 | update, stop, a changed kind and a slot's own turns keep the binding's invariant |
| LiveView.After | src/lib/live-view-refresh.ts:209-291 | the invariant holds after any interleaving of them |
| LiveView.OneLiveScope | src/lib/live-view-refresh.ts:254-278 | in every run at most one watch scope is live, for the view's keys, and none after stop or while the view watches nothing |
| LiveView.OneSlotPerRead | src/lib/live-view-refresh.ts:256-261 | in every run each declared read has a slot of its own, and a disposed slot is never used again and holds no timer |
| LiveView.UpdateKeepsPending | src/lib/live-view-refresh.ts:256-260 | an update keeps the slot of every position it still has, with the refresh that waits there, and points it at the new read |
| LiveView.ChangeWakesItsReads | src/lib/live-view-refresh.ts:239-241 | a changed kind starts or queues a refresh of every refetched read that watches a resource of that kind, literal group and namespace, and touches no other slot |
| LiveView.DeniedReadsAre | src/lib/live-view-refresh.ts:244-247 | a permission recovery rereads exactly the refetched reads that watch a resource some denied key watches |
| LiveView.LiveViewBinding.constructor | src/lib/live-view-refresh.ts:209-279 | a new binding has the state apply gives it |
| LiveView.LiveViewBinding.PointSlots | src/lib/live-view-refresh.ts:255-261 | the slots left after the loops are the kept ones re-pointed, then new ones, and the rest are disposed |
| LiveView.LiveViewBinding.Update | src/lib/live-view-refresh.ts:282-284 | update keeps the invariant; unless stopped, slots stand for the new reads in order, kept ones with what waits there, and a scope is live exactly for a view that watches kinds |
| LiveView.LiveViewBinding.KindChanged | src/lib/live-view-refresh.ts:239-241 | onChange keeps the invariant; of every refetched read with a key of the change's kind, literal group and namespace a refresh starts or waits, and no other slot moves |
| LiveView.LiveViewBinding.Stop | src/lib/live-view-refresh.ts:285-291 | stop keeps the invariant: every slot is disposed without a timer and no scope is live |
| BrowserLink.StepInv | src/lib/browser-runtime.ts:330-449 | every socket, timer, sign-in and session event keeps the link invariant |
| BrowserLink.After | src/lib/browser-runtime.ts:330-449 | the invariant holds after any interleaving of them |
| BrowserLink.TimerFindsItsRetry | src/lib/browser-runtime.ts:441-448 | an armed reconnect timer is the one stored in the link and has its downSince, so its unguarded assignment is safe |
| BrowserLink.ReadySessionReconnects | src/lib/browser-runtime.ts:387-404 | a ready session whose socket is gone has a reconnect armed or its sign-in being checked |
| BrowserLink.OneLiveSocket | src/lib/browser-runtime.ts:350-357 | at most one socket is live, the one in the link |
| BrowserLink.ReplacedSocketIsSilent | src/lib/browser-runtime.ts:359-388 | events of a replaced socket change nothing |
| BrowserLink.StepKeepsDownSince | src/lib/browser-runtime.ts:52-58 | one event keeps the first drop time unless a socket opens, the session moves or ends, or a new one begins |
| BrowserLink.DownSinceSurvives | src/lib/browser-runtime.ts:52-58 | over any run without those events downSince stays at the first drop |
| BrowserLink.OpenedThenDropped | src/lib/browser-runtime.ts:358-400 | once a socket opened, its next drop as the current one, whatever came between, counts from that very drop: a retry is armed, due within a second |
| BrowserLink.RetriesStayInGrace | src/lib/browser-runtime.ts:426-448 | no retry is scheduled past the first drop plus the grace period |
| BrowserLink.GraceEnds | src/lib/browser-runtime.ts:429-439 | once the grace period is over the link is given up and the session returns to sign-in |
| BrowserLink.SessionLink.Connect | src/lib/browser-runtime.ts:350-404 | keeps timer and sockets those of the link; a ready session has a live socket afterwards and still counts from its first drop |
| BrowserLink.SessionLink.Schedule | src/lib/browser-runtime.ts:426-449 | keeps them; a dropped session within its grace period has one timer, due in a second or at the end of that period if it is nearer, and one past it is given up without a timer |
| BrowserLink.SessionLink.Cancel | src/lib/browser-runtime.ts:330-334 | keeps them; no timer is left and the first drop is still known |
| BrowserLink.SessionLink.CloseCurrent | src/lib/browser-runtime.ts:336-341 | keeps them; neither a live socket nor a timer is left |
| BrowserLink.SessionLink.Opened | src/lib/browser-runtime.ts:358-362 | keeps the invariant; an opened current socket ends the count from the first drop and makes the session ready, any other changes nothing else |
| BrowserLink.SessionLink.SessionMoved | src/lib/browser-runtime.ts:372-376 | keeps the invariant; a moved session ends the count, and its socket closes |
| BrowserLink.SessionLink.CloseReported | src/lib/browser-runtime.ts:387-400 | keeps the invariant; the drop of the current socket in a ready session counts from its first drop, or from now without one, and is retried, checked or given up |
| BrowserLink.SessionLink.TimerFires | src/lib/browser-runtime.ts:443-446 | keeps the invariant; the timer connects a ready session with a token anew, still counting from its first drop |
| BrowserLink.SessionLink.SignInAnswered | src/lib/browser-runtime.ts:406-424 | keeps the invariant; a signed-out session loses link and token, and any other ready one is retried or given up |
| BrowserLink.SessionLink.AcceptSession | src/lib/browser-runtime.ts:143-154 | keeps the invariant; a new session ends the count and has a live socket if it has a token |
| BrowserLink.SessionLink.ReturnToLogin | src/lib/browser-runtime.ts:322-328 | meets the whole invariant: no link, no timer, no live socket and no token |
| FiniteRead.After | src/lib/finite-read-lifecycle.ts:95-137 | the invariants of timers and cancellations hold after any interleaving of observers, timers, finished cancels and uninstall |
| FiniteRead.BackendFollowsFrontend | src/lib/finite-read-lifecycle.ts:104-116 | the backend is cancelled only for a query whose frontend cancel completed and that has no observers at that moment |
| FiniteRead.OneTimerPerQuery | src/lib/finite-read-lifecycle.ts:118-136 | there is at most one timer per query hash, and none after uninstall |
| FiniteRead.ObservedReadIsKept | src/lib/finite-read-lifecycle.ts:126-129 | a query observed again when its timer fires is not cancelled |
| FiniteRead.StaysUnderWay | src/lib/finite-read-lifecycle.ts:118-131 | an abandoned query stays on its way to cancellation until it is observed again, removed or cancelled |
| FiniteRead.AbandonedReadIsCancelled | src/lib/finite-read-lifecycle.ts:104-131 | a query that stays unobserved is cancelled, frontend first, then backend |
| FiniteRead.OnlyReadScopesAreCancelled | src/lib/finite-read-lifecycle.ts:104-131 | in every run the backend is asked to cancel only scopes of finite reads of that very query |
| FiniteRead.Lifecycle.RemoveObserver | src/lib/finite-read-lifecycle.ts:118-131 | keeps the invariant; a cancellable read that lost its last observer has exactly one timer, a new one, and otherwise no timer changes |
| FiniteRead.Lifecycle.TimerFires | src/lib/finite-read-lifecycle.ts:126-129 | keeps the invariant; a frontend cancel begins exactly if the query has no observers, and the backend is not asked |
| FiniteRead.Lifecycle.FrontendSettles | src/lib/finite-read-lifecycle.ts:105-109 | keeps the invariant; the backend is asked exactly if the query has no observers at that moment |
| FiniteRead.Lifecycle.Uninstall | src/lib/finite-read-lifecycle.ts:132-136 | keeps the invariant; no timer is left |
| Recorder.StepInv | src/lib/interaction-recorder.ts:123-289 | every input, paint, page exit, stop and clear keeps the recorder's invariant |
| Recorder.After | src/lib/interaction-recorder.ts:123-289 | the invariant holds after any interleaving of them |
| Recorder.PostedExactlyOnce | src/lib/interaction-recorder.ts:123-186 | in every run no entry is posted twice, and an entry flushed since the last clear is posted exactly once as soon as its paints are done or the recorder heard a page exit, and not before |
| Recorder.HeardExitPostsAll | src/lib/interaction-recorder.ts:137-143 | a page exit while recording leaves every entry posted exactly once and none waiting |
| Recorder.ExitPostsWaitingWhenRecording | src/lib/interaction-recorder.ts:253-271 | a waiting entry is posted by a page exit if and only if the recorder is recording |
| Recorder.PromiseKeptWhen | src/lib/interaction-recorder.ts:65 | the promise to post an entry once its paints are done or the page exits is kept except exactly when the page exited unheard, none was heard since, and a paint is still to come |
| Recorder.StoppedEntryIsNotPosted | src/lib/interaction-recorder.ts:253-271 | the run that breaks it: recording stops before the first input is painted, then the page exits |
| Recorder.PaintsAreCounted | src/lib/interaction-recorder.ts:169-183 | in every run the paints recorded in a segment and those to come are exactly the inputs it measured |
| Recorder.PostedWhole | src/lib/interaction-recorder.ts:176-182 | an entry that no page exit cut short holds one figure for every input it measured |
| Recorder.KeepsTheLastEntries | src/lib/interaction-recorder.ts:129-131 | the recorder keeps exactly the last 500 entries flushed since the last clear, in order |
| Recorder.StaysForgotten | src/lib/interaction-recorder.ts:284-289 | a segment the recorder lost sight of is never posted in any continuation |
| Recorder.ClearedIsNeverPosted | src/lib/interaction-recorder.ts:284-289 | an entry that waited when the recorder was cleared is never posted afterwards |
| Recorder.InteractionRecorder.FlushCurrent | src/lib/interaction-recorder.ts:123-134 | keeps the invariant; the ended entry is kept, and posted once unless a paint is still to come |
| Recorder.InteractionRecorder.PageExit | src/lib/interaction-recorder.ts:137-143 | keeps the invariant; while recording every entry is then posted exactly once and none waits, otherwise nothing is posted |
| Recorder.InteractionRecorder.BeginSegment | src/lib/interaction-recorder.ts:145-163 | keeps the invariant; the entry before is in the history and the new one waits for nothing |
| Recorder.InteractionRecorder.MeasureInputToPaint | src/lib/interaction-recorder.ts:169-186 | keeps the invariant; one more input of the current entry is measured, and its paint is still to come |
| Recorder.InteractionRecorder.FramePainted | src/lib/interaction-recorder.ts:176-183 | a paint is recorded in its segment and counts down; a waiting entry is posted, with one figure for every input it measured, when it was the last one |
| Recorder.InteractionRecorder.OnPointerDown | src/lib/interaction-recorder.ts:231-235 | a pointer input opens a click segment and is measured |
| Recorder.InteractionRecorder.OnPointerMove | src/lib/interaction-recorder.ts:236-238 | a pointer that moves while it is down makes its click a drag, and nothing else |
| Recorder.InteractionRecorder.OnWheel | src/lib/interaction-recorder.ts:243-247 | a wheel input continues a scroll or opens one |
| Recorder.InteractionRecorder.OnKeyDown | src/lib/interaction-recorder.ts:248-252 | a repeated key continues its segment, another opens one |
| Recorder.InteractionRecorder.StopRecording | src/lib/interaction-recorder.ts:268-278 | stop flushes the current entry, which is posted at once or waits for its paints |
| Recorder.InteractionRecorder.ClearRecorded | src/lib/interaction-recorder.ts:284-289 | clear forgets entries, the current segment and those that wait |
| GitOpsOwnership.CycleStays | src/lib/gitops-ownership-evidence.ts:156-172 | an owner chain that comes back to a visited row never leaves the visited rows |
| GitOpsOwnership.NoOwnerBeyond | src/lib/gitops-ownership-evidence.ts:156-173 | when no visited row is owned and the chain leaves the list or comes back, no ancestor is owned |
| GitOpsOwnership.AncestorsCompose | src/lib/gitops-ownership-evidence.ts:157-161 | the k-th ancestor of the m-th ancestor is ancestor m + k |
| GitOpsOwnership.NearestIsUnique | src/lib/gitops-ownership-evidence.ts:157-172 | there is at most one nearest owned ancestor |
| GitOpsOwnership.CollectOwnerKeys | src/lib/gitops-ownership-evidence.ts:139-144 | the collected keys are exactly those some row names as its owner |
| GitOpsOwnership.IndexOwners | src/lib/gitops-ownership-evidence.ts:147-151 | the restricted map answers every owner look-up as the whole list does, last row of a name first |
| GitOpsOwnership.ParentIs | src/lib/gitops-ownership-evidence.ts:138-161 | where namespaces hold no slash, the parent of a row is the last row of the referenced name in the row's own namespace, and there is none without one |
| GitOpsOwnership.ShownByPath | src/lib/gitops-ownership-evidence.ts:138-176 | a row is shown with the owner at the end of the path of last same-named rows of its own namespace through unowned rows to an owned one, and as it is without such a path |
| GitOpsOwnership.PathStaysInNamespace | src/lib/gitops-ownership-evidence.ts:142-161 | every row of such a path lies in one namespace |
| GitOpsOwnership.OwnerOfOwnNamespace | src/lib/gitops-ownership-evidence.ts:157-172 | an owner value a row did not have comes from an owned row of its own namespace |
| GitOpsOwnership.OwnedMeans | src/lib/gitops-ownership-evidence.ts:47-61 | what counts as owned: an Argo CD Application, a Flux Kustomization or HelmRelease with a name; a gitOpsOwner takes precedence over argoApp even where it is none of these |
| GitOpsOwnership.NearestOwner | src/lib/gitops-ownership-evidence.ts:156-173 | the walk terminates on any list, cyclic or not, and finds the nearest owned ancestor exactly when there is one |
| GitOpsOwnership.OwnershipRows.RowFor | src/lib/gitops-ownership-evidence.ts:164-169 | the row made for an owner, cached or new, is the row with that owner, and the same object for the same owner |
| GitOpsOwnership.OwnershipRows.Inherit | src/lib/gitops-ownership-evidence.ts:138-176 | for any list and any cache each row, in order, is shown as the uncached definition says and, where namespaces hold no slash, with the owner its path through its own namespace leads to |
| GitOpsOwnership.OwnershipRows.InheritFrom | src/lib/gitops-ownership-evidence.ts:154-175 | with the restricted map and any cache each row, in order, is shown as the uncached definition says |
| GitOpsOwnership.NothingInherited | src/lib/gitops-ownership-evidence.ts:145-152 | a list whose owner keys name no row inherits nothing, so it is returned as it is |
| GitOpsOwnership.AncestorSame | src/lib/gitops-ownership-evidence.ts:138-176 | two lists with the same names and owner references have their ancestors at the same places |
| GitOpsOwnership.OwnerOnChain | src/lib/gitops-ownership-evidence.ts:138-176 | a row that inherits makes those below it inherit the same owner |
| GitOpsOwnership.InheritingTwice | src/lib/gitops-ownership-evidence.ts:138-176 | applying it to its own result changes no row |
| GitOpsOwnership.InheritingOwns | src/lib/gitops-ownership-evidence.ts:163-167 | an unowned row with a nearest owned ancestor is owned afterwards if and only if that ancestor carries a gitOpsOwner or the row's own argoApp counts once its gitOpsOwner is cleared |
| GitOpsOwnership.ArgoAppIsNotInherited | src/lib/gitops-ownership-evidence.ts:163-167 | an ancestor owned through argoApp alone hands on nothing: a concrete list |
| ResourceMetrics.SameMetricIsEquality | src/lib/resource-metrics.ts:17-23 | sameMetric is equality of metrics |
| ResourceMetrics.ResourceMetricIndex | src/lib/resource-metrics.ts:29-40 | the index holds for each key the last metric of pods, then nodes, then workloads |
| ResourceMetrics.MetricKeyTellsApart | src/lib/resource-metrics.ts:25-27 | where kinds and namespaces hold no colon, keys tell resources apart by kind, namespace and name, no namespace being the empty one |
| ResourceMetrics.RowGetsItsMetric | src/lib/resource-metrics.ts:29-62 | the join gives a row the last metric listed for its kind, namespace and name, workloads before nodes before pods, and leaves a row without one as it is |
| ResourceMetrics.NodeGetsItsMetric | src/lib/resource-metrics.ts:29-87 | and a topology node, with its summary, likewise |
| ResourceMetrics.MetricMerger.MergeRow | src/lib/resource-metrics.ts:54-62 | a row gets its metric, keeps its identity when it has it already, and the cache keeps every row still right |
| ResourceMetrics.MetricMerger.MergeResourceMetrics | src/lib/resource-metrics.ts:42-69 | with any caches the result equals the plain join row by row, in length and order, and a row or table that an index leaves equal keeps its identity |
| ResourceMetrics.MetricMerger.MergeNode | src/lib/resource-metrics.ts:71-87 | a node and its summary get their metric, or the node is returned as it is |
| ResourceMetrics.MetricMerger.MergeTopologyMetrics | src/lib/resource-metrics.ts:89-112 | with any caches the result equals the plain join node by node, edges untouched, and equal nodes and topologies keep their identity |
| ResourceMetrics.NodesKeepIdentity | src/lib/resource-metrics.ts:98-109 | nodes an index leaves equal to those last returned are those very nodes |
| ResourceMetrics.HeldStays | src/lib/resource-metrics.ts:57-66 | rows already made stay the cached ones while later rows are made |
| ReleaseVersions.AcceptedText | scripts/release-versions.ts:76-82 | the scanner accepts exactly the texts made of three numerals, dots and an optional suffix, as the pattern does |
| ReleaseVersions.ParsePrint | scripts/release-versions.ts:275-289 | every version SemVer can write is read back from its text |
| ReleaseVersions.PrintParse | scripts/release-versions.ts:275-289 | a text without build metadata and leading zeros is printed back from what was read |
| ReleaseVersions.ParsedPieces | scripts/release-versions.ts:275-289 | the numbers and identifiers read from a text are those it was put together from |
| ReleaseVersions.BuildIsIgnored | scripts/release-versions.ts:275-276 | build metadata takes nothing from a version and adds nothing to it, as section 10 of SemVer 2.0.0 asks |
| ReleaseVersions.BuildNeedsPlainCore | scripts/release-versions.ts:76-82 | build metadata is accepted exactly on a version without prerelease |
| ReleaseOrder.ComparePrereleaseLists | scripts/release-versions.ts:291-315 | the loop decides at the first pair of different texts |
| ReleaseOrder.CompareVersions | scripts/release-versions.ts:99-108 | two texts compare exactly when both are versions, in the order the lemmas below describe |
| ReleaseOrder.ComparesAsSection11 | scripts/release-versions.ts:99-108 | for any collation and double-precision numbers the comparison agrees with section 11 of SemVer 2.0.0 if and only if it neither stops at two spellings or roundings of one number with a later difference, nor collates the deciding texts against their codes, nor goes on past core numbers too large to tell apart |
| ReleaseOrder.CollationDecides | scripts/release-versions.ts:311 | where texts decide, it agrees exactly if the collation orders them by character code |
| ReleaseOrder.MixedCaseLeavesSection11 | scripts/release-versions.ts:311 | so alpha and Beta are compared as section 11 asks exactly by collations that put Beta first |
| ReleaseOrder.WellFormedMeetsSection11 | scripts/release-versions.ts:99-108 | with numeric identifiers free of leading zeros, numbers held exactly and an ASCII collation it is section 11's precedence |
| ReleaseOrder.BuildIsNotCompared | scripts/release-versions.ts:99-108 | build metadata has no part in the comparison |
| ReleaseOrder.SectionOrders | scripts/release-versions.ts:291-315 | section 11 orders two identifier lists unless they are the same throughout |
| ReleaseOrder.TotalOrder | scripts/release-versions.ts:99-108 | with such identifiers ties are versions held alike, the sign flips with the sides, and the order is transitive |
| ReleaseOrder.Chain | scripts/release-versions.ts:99-108 | not after one version and that before another is not after the other, leading zeros and rounding or not |
| ReleaseOrder.TiesAreNotTransitive | scripts/release-versions.ts:306-308 | with leading zeros ties are not transitive: three concrete versions |
| ReleaseTags.NextParses | scripts/release-versions.ts:14-23 | the next version is one exactly if its numbers are written in digits, and is then held as the bumped number, zeros below it and no prerelease |
| ReleaseTags.NextIsGreater | scripts/release-versions.ts:14-23 | the release guard accepts the next version if and only if its numbers are written in digits and the bumped number grew, or the latest was a prerelease of that very version |
| ReleaseTags.SmallNextIsGreater | scripts/release-versions.ts:14-23 | below two to the power of 53 every bump is accepted |
| ReleaseTags.AbsorbedPatchIsRefused | scripts/release-versions.ts:110-123 | a patch number that absorbs its successor is refused |
| ReleaseTags.RecognisedRef | scripts/release-versions.ts:125-136 | a ref yields a version exactly when its last part is the prefix and a version |
| ReleaseTags.ListedTag | scripts/release-versions.ts:139-142 | a listed tag, peeled or not, yields its version |
| ReleaseTags.TagVersionsOf | scripts/release-versions.ts:139-143 | the collected versions are exactly those some line yields |
| ReleaseTags.LatestIsMaximum | scripts/release-versions.ts:145-151 | no collected version comes after the one the reduce keeps, leading zeros and rounding or not |
| ReleaseTags.LatestOfListing | scripts/release-versions.ts:138-152 | the latest tag of a listing is one of its release tags and none comes after it |
| ReleaseTags.LastPartIsLast | scripts/release-versions.ts:129-130 | the last part is the last piece of the split |
| InteractionSources.FoundIsNearest | src/lib/interaction-sources.ts:29-43 | with a right cache the walk finds the nearest location, and every node walked has it |
| InteractionSources.SourceIsNearest | src/lib/interaction-sources.ts:11-43 | a node is named by the nearest source location above it as file:line; without any by the nearest test id or role, the test id first on one element; and else as unattributed |
| InteractionSources.AskKeeps | src/lib/interaction-sources.ts:29-43 | asking keeps every entry the nearest location of its node and answers as the plain search does |
| InteractionSources.CachedAnswersAgree | src/lib/interaction-sources.ts:10-43 | after any sequence of calls and resets the answer is that of the uncached search |
| InteractionSources.SourceNames.SourceOf | src/lib/interaction-sources.ts:29-43 | the loop answers as the uncached search and caches exactly the walked nodes |
| InteractionSources.SourceNames.DescribeTarget | src/lib/interaction-sources.ts:45-48 | an element is described by its tag and source, anything else as the window |
| InteractionSources.SourceNames.SubtreeSource | src/lib/interaction-sources.ts:51-57 | the first of the added, the removed and the target node that has a source names the change |
| InteractionSources.SourceNames.ResetSourceCache | src/lib/interaction-sources.ts:59-61 | the cache is empty afterwards |
| InteractionFrames.FrameHistogram.AddFrame | src/lib/interaction-frames.ts:13-17 | the buckets count exactly the rounded deltas of all frames so far |
| InteractionFrames.BucketIsNearest | src/lib/interaction-frames.ts:14 | a bucket holds exactly the deltas within half a tenth of a millisecond of its figure, the one half-way below included |
| InteractionFrames.FrameHistogram.FrameDeltas | src/lib/interaction-frames.ts:20-24 | the entries are the buckets with their counts, shortest first |
| InteractionFrames.FrameHistogram.CountsAddUp | src/lib/interaction-frames.ts:13-24 | the counts sum to the total, and the buckets spelt out are the sorted list of rounded deltas |
| InteractionFrames.FrameHistogram.PercentileMs | src/lib/interaction-frames.ts:26-33 | the percentile is the element of the sorted rounded deltas at the floor of total times fraction, 0 for no frames or a fraction of 1 or more |
| InteractionFrames.RunsAreSorted | src/lib/interaction-frames.ts:20-24 | buckets in key order, each as often as counted, are the sorted list |
| InteractionFrames.Scan | src/lib/interaction-frames.ts:26-33 | the loop stops in the run that holds that element |
| InteractionFrames.SortedIsUnique | src/lib/interaction-frames.ts:20-24 | a list has one ascending arrangement |
| UsageMetrics.Flatten | src/lib/usage-metrics.ts:96-114 | the explicit stack terminates and yields the recursive preorder with depths |
| UsageMetrics.PushRows | src/lib/usage-metrics.ts:100-103 | pushing rows from last to first leaves them to be yielded in order |
| UsageMetrics.RowStandsAtItsRank | src/lib/usage-metrics.ts:96-114 | every row of the forest stands where its path says, at its tree depth plus the starting depth |
| UsageMetrics.EveryPlaceIsARow | src/lib/usage-metrics.ts:96-114 | and every place of the list is some row's |
| YamlDecorations.BuildYamlValueDecorations | src/components/yamlCodeViewerExtensions.ts:164-179 | for any document the emitted ranges are the indents and values of its lines, non-empty, with increasing starts and pairwise disjoint |
| YamlDecorations.DocumentIsOrdered | src/components/yamlCodeViewerExtensions.ts:164-179 | they also lie within the document |
| YamlDecorations.LineWithin | src/components/yamlCodeViewerExtensions.ts:172-176 | the ranges of a line lie within it, ordered and disjoint |
| YamlDecorations.IndentTiles | src/components/yamlCodeViewerExtensions.ts:186-197 | the indent ranges tile the leading white space of a non-blank line, and a blank line has none |
| YamlDecorations.IndentDepths | src/components/yamlCodeViewerExtensions.ts:189-196 | range i starts at column 2i, is at most two columns wide and has the class of its depth modulo 6 |
| YamlDecorations.MappingValueIsMarked | src/components/yamlCodeViewerExtensions.ts:205-213 | the value marked after the first mapping colon is the trimmed text up to the comment, marked where it stands |
| YamlDecorations.ValueStartsAfterIndent | src/components/yamlCodeViewerExtensions.ts:200-219 | a value begins after the indent |
| YamlDecorations.ValueMarkWithin | src/components/yamlCodeViewerExtensions.ts:228-237 | a value's range is non-empty and lies in its line after the indent |
| YamlDecorations.TrimByIndex | src/components/yamlCodeViewerExtensions.ts:287-297 | cutting white space by index is trimming |
| YamlDecorations.FindMappingColon | src/components/yamlCodeViewerExtensions.ts:248-261 | finds the first colon outside quotation marks that ends the line or stands before white space |
| YamlDecorations.FindYamlCommentStart | src/components/yamlCodeViewerExtensions.ts:272-285 | finds the first hash sign outside quotation marks |
| YamlDecorations.FindListScalarStart | src/components/yamlCodeViewerExtensions.ts:263-270 | finds the value of a list item that holds no mapping |
| YamlDecorations.ListScalarIs | src/components/yamlCodeViewerExtensions.ts:263-270 | a value is found exactly in a line of white space, a hyphen, white space and a value that, taken by itself, holds no mapping |
| YamlDecorations.ListItemIsMarked | src/components/yamlCodeViewerExtensions.ts:214-219 | of a line without a mapping exactly such a value is marked, up to the comment, where it stands |
| YamlDecorations.QuotedStretch | src/components/yamlCodeViewerExtensions.ts:248-258 | a quotation mark quotes everything up to the next one of its kind that no backslash stands before, which closes it |
| YamlDecorations.PlainKeyEnds | src/components/yamlCodeViewerExtensions.ts:248-261 | a key without quotation marks and colons ends at its colon |
| YamlDecorations.AddIndentDecorations | src/components/yamlCodeViewerExtensions.ts:181-198 | the loop adds exactly the indent ranges |
| YamlDecorations.AddScalarDecoration | src/components/yamlCodeViewerExtensions.ts:221-238 | adds the value's range unless nothing or a block indicator is left |
| YamlDecorations.AddLineValueDecorations | src/components/yamlCodeViewerExtensions.ts:200-219 | adds the range of the mapping value or of the list item, if any |
| YamlDecorations.IntegersAreNumbers | src/components/yamlCodeViewerExtensions.ts:244 | integers, signed or not, get the number class |
| YamlDecorations.QuotedIsString | src/components/yamlCodeViewerExtensions.ts:242 | a value that opens with a quotation mark gets the string class |
| PathState.SanitizedIsClean | src/lib/path-state.ts:395-405 | whatever JSON is read, every enumerated field of the result holds a permitted value and every required one is not empty |
| PathState.SanitizeIsIdempotent | src/lib/path-state.ts:176-405 | sanitizing a sanitized snapshot gives it back, for any JSON value |
| PathState.CleanIsReadBack | src/lib/path-state.ts:395-405 | a clean snapshot written as JSON is sanitized to itself |
| PathState.WorkspaceBack | src/lib/path-state.ts:360-393 | a clean workspace is read back part by part |
| PathState.WorkspaceIsClean | src/lib/path-state.ts:360-393 | a sanitized workspace is clean |
| PathState.KindsBack | src/lib/path-state.ts:215-231 | kind selections, named and discovered, are read back in order |
| PathState.ReadBackWhenClean | src/lib/path-state.ts:395-405 | a snapshot written as JSON is read back as it is if and only if it is clean |
| PathState.KindReadBackWhenClean | src/lib/path-state.ts:215-223 | a kind selection is read back if and only if it is a supported kind or a complete discovered one, and dropped otherwise |
| PathState.CleanKindsSurvive | src/lib/path-state.ts:225-231 | of a list of selections exactly the clean ones survive, in order |
| PathState.ClusterScopedKindIsDropped | src/lib/path-state.ts:215-223 | a cluster-scoped kind named in a selection is dropped, before any others |
| PathStateDefaults.SnapshotIsAccepted | src/lib/path-state.ts:395-398 | exactly the records of version 1 and runtime svelte are snapshots |
| PathStateDefaults.SnapshotDefaults | src/lib/path-state.ts:399-404 | a launcher view that is none reads as workspaces, and a workspace is kept exactly if it has an identifier |
| PathStateDefaults.UnusableIsMissing | src/lib/path-state.ts:154-204 | a value a reader cannot use counts as a missing property: its fallback, the empty text, zero or an empty list |
| PathStateDefaults.BrowserDefaults | src/lib/path-state.ts:274-299 | the table state that nothing is known of |
| PathStateDefaults.DetailDefaults | src/lib/path-state.ts:301-329 | the detail state that nothing is known of, which wraps log lines |
| PathStateDefaults.SurfacesDefaults | src/lib/path-state.ts:331-358 | the state of the other surfaces that nothing is known of |
| PathStateDefaults.WorkspaceDefaults | src/lib/path-state.ts:360-393 | a workspace of which only the identifier is known is the one a bare address opens |
| PathStateDefaults.FocusIsRestored | src/lib/path-state.ts:364-365 | without a usable resource to restore the focused one is restored |
| PathStateDefaults.StringsSurvive | src/lib/path-state.ts:180-185 | a list of strings is read item by item, in order |
| PathState.CleanIsDecoded | src/lib/path-state.ts:411-419 | what the JSON codec carries is decoded to the same snapshot exactly if it is clean |
| PathState.DecodeEncodeSnapshot | src/lib/path-state.ts:407-419 | decoding what was encoded gives the sanitized snapshot, or the default when there is none, wherever the JSON codec gives that one snapshot back |
| PathState.AddressIsParsedBack | src/lib/path-state.ts:454-487 | parsing the address of a clean snapshot recovers the launcher view, or the workspace id and view mode |
| PathStateDefaults.ForeignAddressIsParsed | src/lib/path-state.ts:464-487 | an address with a workspace opens it in the named view, or in the overview if there is no such view, whatever follows |
| PathStateDefaults.ShortAddress | src/lib/path-state.ts:462-463 | an address of fewer than three parts opens the launcher or nothing |
| PathState.PartsOfPath | src/lib/path-state.ts:460-461 | a path is cut into its parts again |
| PercentEncoding.DecodeEncode | src/lib/path-state.ts:456 | decoding undoes percent-encoding for every text, through UTF-8 |
| PercentEncoding.FirstIsReadBack | src/lib/path-state.ts:468-469 | an encoded character of one to four octets is read back whatever follows it |
| PercentEncoding.EncodeIsWritten | src/lib/path-state.ts:456 | an encoded text holds only unreserved characters and escapes, so no separator |
| PathStateStore.WrittenIsReadBack | src/lib/path-state.ts:489-522 | what was written is read back sanitized; without storage the address gives launcher view or workspace and view mode, unless storage still holds a snapshot of that workspace |
| PathStateStore.WaitingIsTheLast | src/lib/path-state.ts:498-522 | a snapshot waits exactly while a frame is awaited, and it is the last one offered |
| PathStateStore.KeptIsTheLast | src/lib/path-state.ts:498-522 | in every run the address is that of the last snapshot written and storage holds the last one it took; a value that is no snapshot leaves both as they were |
| PathStateStore.LastOfferedIsWritten | src/lib/path-state.ts:498-522 | when nothing waits, what was offered last was written last |
| PathStateStore.LastOfferedIsReadBack | src/lib/path-state.ts:489-522 | no interleaving of schedules, frames, flushes and writes loses the last snapshot |
| PathStateStore.PathStateWriter.SchedulePathStateWrite | src/lib/path-state.ts:501-508 | keeps the variables what the run made of them; a visible page keeps the snapshot for the one frame it awaits, a hidden one writes it so that it is read back |
| PathStateStore.PathStateWriter.FlushPathStateWrite | src/lib/path-state.ts:510-512 | keeps them; nothing waits afterwards |
| PathStateStore.PathStateWriter.OnFrame | src/lib/path-state.ts:506 | keeps them; the frame writes what was offered last so that it is read back |
| PathStateStore.PathStateWriter.WritePathState | src/lib/path-state.ts:514-522 | keeps them; the frame is cancelled, the snapshot is read back, and a value that is none changes nothing kept |
| Text.NumberOfDecimal | scripts/release-versions.ts:20-22 | a number printed in decimal is read back |
| Text.NumberIsInjective | scripts/release-versions.ts:304-308 | numerals without leading zeros are equal when their numbers are |

## Left out

- ResourceWatchObserver.ResourceScopeObserver.PublishState: handlers that call back into the scope while it publishes are not modelled; `onState` and `onChange` only record their calls.
- ResourceWatchObserver.ResourceScopeObserver.Update: swapping the handlers is not modelled, as every handler call is only recorded; the wording of messages is left out too.
- ResourceWatchObserver.ResourceScopeObserver.StartWatch: a channel constructor that throws is left out.
- LiveRefresh.ReadSlot.BeginRefresh: the query cache is a map with any behaviour of its own between turns; paused and disabled queries, retries and the rest of TanStack Query are not modelled.
- LiveView.LiveViewBinding.Update: a slot is a value with its number, and the watch scope is the keys it was given; the composition with the objects of the other two modules is not.
- LiveView.OneSlotPerRead: a slot is its throttle and the read it points at; the query cache and the refresh of the slot are those of LiveRefresh and are not composed in.
- `createLiveReadRefresh`'s recovery timer, `refreshCurrentView`, `viewReads`, `readError` and the `catchingUp` text of a live view.
- BrowserLink.SessionLink.AcceptSession: HTTP, the validation of the response, stored tokens and the sign-in flows are left out but for their effect on the link; the grace period is a whole number of seconds.
- BrowserLink.SessionLink.SessionMoved: of the socket's messages only `session_moved` touches the link; `channel_gap` and channel payloads are left out.
- FiniteRead.Lifecycle.FrontendSettles: failures of the backend cancel and diagnostic logging change no state and are left out.
- Recorder.InteractionRecorder.FlushCurrent: an entry is its number, its paints and whether it was posted; frame figures, mutation counts, commands and session summaries are left out.
- GitOpsOwnership.OwnershipRows.RowFor: `JSON.stringify` of an owner is taken to tell owners apart exactly when their values differ.
- Labels, filters and groups built from an ownership.
- ResourceMetrics.MetricMerger.MergeResourceMetrics: metrics are compared as values, so a NaN figure is left out; weak maps never drop an entry while it can be asked for.
- Metric and usage formatters.
- ReleaseOrder.CompareVersions: the messages of the errors are left out; a number past the largest double is one that no further digit changes, and is not told apart from other such numbers.
- Reading and rewriting package.json, Cargo.toml and Cargo.lock.
- InteractionSources.SourceNames.SourceOf: a node's ancestors are fixed; moving nodes between calls is left out, as the cache does not follow it either.
- InteractionFrames.FrameHistogram.AddFrame: deltas are real numbers, so rounding of floating-point figures is left out.
- YamlDecorations.BuildYamlValueDecorations: positions count characters, so a character outside the basic plane counts once; the class names are kept as kinds and depths, and themes and editor wiring are left out.
- PathState.DecodeEncodeSnapshot: `JSON.stringify` and `JSON.parse` are a parameter, of which the round trip of the one snapshot at hand is assumed; a page index of minus zero is not told apart from zero.
- PercentEncoding.DecodeEncode: texts are made of whole characters, so the error `encodeURIComponent` raises for a lone surrogate is left out.
- PathStateStore.PathStateWriter.WritePathState: the history API is a hash that is always replaced; storage that cannot be read is left out.
- `settings.ts`, `queryKeys.ts`, `kind-identity.ts`, `friendly-errors.ts` and the other tables and normalisers, which would only add easy members.
- The Rust back end and the Svelte components, which are not part of this model.
