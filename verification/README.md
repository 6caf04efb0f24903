# Odysseus client logic, modelled and proved in Dafny

This project models the stateful and text-processing logic of the Odysseus web
app (`frontend/`), of its gateway scripts (`odysseus/scripts/`) and of the
control plane's multi-agent orchestrator, and proves properties of the model. `dafny verify dfyconfig.toml` checks all of it with
Dafny 4.11.

Code that works by changing fields is modelled twice: as a class or a method
with the source's own fields and loops, and as a function on values. Every
method is proved to compute its function, and the properties over whole runs
are proved about the functions.

| files | what they model |
|---|---|
| `StepOrder` | the depth-first ordering of orchestration steps |
| `PlanGraph` | the validation of a plan's dependency graph |
| `Orchestration`, `Orchestrator` | the orchestrator that extends its own plan, one function and one method per operation |
| `OrchestrationGraph`, `OrchestrationPlanning`, `OrchestrationTests` | what sending work back and taking a plan do to the graph |
| `OrchestrationSteps`, `OrchestrationRuns`, `OrchestrationBounds` | what holds in every run of the orchestrator, and how large a run can grow |
| `RealtimeHandlers`, `RealtimeClient` | the reconnecting, resubscribing WebSocket client, one function and one method per event |
| `RealtimeRuns`, `RealtimeBackoff` | its runs against a browser, a first-in first-out link and a server that streams sessions and broadcasts events: subscriptions, delays |
| `RealtimeGaps`, `RealtimeLedger`, `RealtimeLosses`, `RealtimeReturns`, `RealtimeStale` | what each listener hears: without a gap, with gaps that close, never, or again after a drop, and after a quick return |
| `TokenRefresh`, `ApiClient` | the shared token refresh and the one retry of a REST call, as steps between awaits |
| `Workspace`, `WorkspaceStore` | the coalesced refresh that keeps the last good data, and the dashboard's headline over it |
| `ScreenSteps`, `ScreenRuns`, `GatewayScreen`, `StatusLine` | the gateway's terminal screen over any stream of log records, and its status line |
| `WordWrap`, `AnsiStyle` | greedy word wrap; terminal styling, its stripper and cards |
| `FenceExport`, `DiffParser`, `Base64Url` | the Markdown fence writer against a CommonMark reader, the unified-diff parser, the push key decoder |
| `Middleware`, `RedirectChains` | the middleware's responses, and when chains of its redirects end |
| `Pairing` | the pairing retry loop |
| `Basics` | an option type and string helpers |

## Premises

- Realtime: a socket is created only after the close event of the previous one
  has been handled, because the close handler clears the current socket
  whichever socket closed. The link is first-in first-out. The server streams a
  session contiguously from the `fromSequence` it read, and from a point of its
  own choosing when there was none. Beside the streams it may broadcast any event
  of any session at any time once it has read a message of the socket, as this
  repository's control plane does to all sockets of the user. (There the stream
  is the replay followed by the live events; a replay stops at 2,000 events, and
  nothing here says that a stream goes on.) Listeners may throw, and the order in
  which a set of them is called is free. Delays are reals.
- Orchestrator: one call moves a run at a time, as its lock sees to. What the
  sessions, their outputs and the attempts to start a step answer is arbitrary;
  planned steps are those the parser of plans lets through. An attempt to start
  a step does not throw.
- Token refresh: code between two awaits runs without interruption. The answers
  of the server, the token source and the failure callback are arbitrary.
- Screen: texts that the source classifies by regular expressions arrive
  classified. Clock readings are positive.
- Middleware: texts are UTF-8 code units. How a target is resolved against the
  page it stands on (trimming, schemes, slashes, queries, fragments) follows the
  URL standard's parser for http and https pages. What that parser makes of a
  path, an authority or a target with another scheme is an arbitrary function;
  only that `/dashboard` stays itself and, for the way back after sign-in, that
  normalising adds no path segments is assumed.
- Pairing: a request settles within its 25 s abort, and a sleep takes the time
  it was asked for.
- `atob` follows section 4 of RFC 4648 with the browser's forgiving treatment of
  padding and blanks; the Markdown reader follows sections 2.1 and 4.5 of the
  CommonMark specification 0.31.2.

## What the proofs found

- `orderSteps` is documented as putting each step after everything it depends
  on. It does so exactly when the steps are acyclic, and ordering twice changes
  nothing exactly when no two different steps depend on each other
  (`StepOrder.TwoStepCycle` gives the failing family).
- A listener of a session hears every number without a gap as long as its
  subscription stays orderly and no broadcast comes ahead of the stream
  (`RealtimeGaps.SubscribedSessionsHearNoGap`). A subscription is orderly from the
  start if nothing of an earlier one to the session is still served, under way or
  asked for on the socket. It stays so until an event of the stream fails to
  reach the listener because another one throws, until a broadcast brings the
  first number noted for the session, or until a new socket is welcomed while a
  number is missing. Whatever else happens, a gap opens exactly when a number is
  heard that is more than one above the noted one (`RealtimeGaps.GapOpensIffAhead`).
- A broadcast that comes ahead of the replay opens a gap, which the stream closes
  when it has caught up (`RealtimeLedger.CaughtUpHearsAll`). But the broadcast has
  already moved the resume point: if the socket is lost before the replay, the
  numbers in between are lost for good, unless they are broadcast again
  (`RealtimeLosses.SkippedBeforeDropIsLost`).
  When the socket is gone, a number can still be heard exactly if it is above
  the noted one (`RealtimeReturns.ComesBackIffNotNoted`). A page cannot rule this
  loss out by the order of its own calls.
- An event whose calls end with a throw before they reach a listener is lost to it
  for good, whether a global listener or another listener of the session throws:
  its number, or the next one, moves the resume point past it
  (`RealtimeLosses.ThrownEventIsLostForGood`).
- A session that is left and subscribed to again on the same socket can bring a
  leftover first, though the new stream starts later. For a session without a
  noted sequence, and a server that sends its events on its stream only, the new
  subscription is safe exactly if nothing of the session is still served, under
  way or asked for (`RealtimeStale.UnnotedSubscriptionIsSafeIff`). A page can rule
  out what earlier requests leave by never asking for a session twice on one
  socket (`RealtimeLedger.NotStaleUnlessRequested`); it cannot rule out a broadcast
  that is under way.
- The orchestrator's comment says that a plan that changes code always ends in a
  test and a review. It always has both, and those that the orchestrator adds wait
  for every builder. A test of the planner's own can come first
  (`OrchestrationPlanning.PlannersTestMayComeFirst`): every builder is followed by a
  test exactly if the planner gave none, or gave each of its builders one that
  depends on it (`OrchestrationTests.BuildersTestedIff`).
- Work that is sent back rewires the plan without validating it again; the plan
  stays free of cycles all the same, and nothing that waited stops waiting.
- `disconnect()` is final exactly when no token refresh is under way.
- If a token source throws before its first await, the finally clause frees the
  slot before the assignment fills it: the settled promise stays there, and no
  refresh is ever made again (`TokenRefresh.StuckForGood`). The source installed
  by `frontend/lib/auth.ts` is an async function, which never does this.
- A failed request whose error message is empty (an error answer with
  `{"error": ""}` has one) counts as a success with an empty list, so the shown
  data is blanked, and the headline can ask for a machine to be paired.
- The headline ignores the error of the approvals request: it can claim that all
  is clear though approvals were never read (`Workspace.AllClearWithoutApprovals`).
  A paused session counts as a working agent, but is not marked live.
- A preflight note of nothing but spaces, or one whose check is no valid pattern
  (such as an opening parenthesis), ends the listing of notes with an exception
  that is swallowed: every note is shown exactly if none is of these kinds. The
  names of today's checks are fixed words, so the second kind does not occur.
- A signed-in visitor of an auth page whose `redirect` resolves to that page
  itself (a fragment, only spaces, or the page's own scheme and a colon) is
  redirected to it for ever (`Middleware.StayingTargetNeverEnds`). Every redirect
  chain that reaches no such page ends.
- The visitor returns to the page asked for after sign-in exactly if its path
  does not start with two slashes.
- The dot in the middleware's matcher is a wildcard: `/favicon-ico` is neither
  matched nor public.
- A refusal whose body is the JSON `null` is retried, against the comment that a
  4xx is not (`Pairing.NullRefusalIsRepeated`).
- A newline at the end of a patch is parsed as one more context line.
- Wrapping keeps a trailing space as an empty last word.

## Model

Each class has one row; its other methods compute the handler functions of the
same name, on which the run theorems below are stated.

| member | source | states |
|---|---|---|
| StepOrder.StepWalk.Visit | frontend/lib/orchestrations.ts:106-115 | The recursive closure on mutable `placed`, `seen` and `ordered` computes the walk the lemmas are about, and terminates on cycles and unknown dependencies |
| StepOrder.OrderSteps | frontend/lib/orchestrations.ts:102-118 | The two-level loop returns `Ordered(steps)` for every list |
| StepOrder.VisitedKeepsInvariant | frontend/lib/orchestrations.ts:106-115 | A visit leaves `seen` minus `placed` (the recursion stack) as it was, places the step or finds it on the stack, and keeps: placed ids are those output, ids are unique, a dependency precedes its step unless it leads back to it |
| StepOrder.OrderedRespectsDependencies | frontend/lib/orchestrations.ts:101-118 | For every input, repeated ids, cycles and dangling dependencies included: each listed id is output exactly once, and a listed dependency comes before its step unless it transitively depends on that step |
| StepOrder.OrderedIsPermutation | frontend/lib/orchestrations.ts:102-118 | With unique ids the output is a permutation of the input |
| StepOrder.OrderedIsTopologicalIffAcyclic | frontend/lib/orchestrations.ts:101-118 | Each step comes after everything it depends on if and only if no step depends on itself through others |
| StepOrder.WeaklyOrderedIffNoMutualDependency | frontend/lib/orchestrations.ts:102-118 | The same with self-dependencies tolerated, if and only if no two different steps depend on each other |
| StepOrder.OrderedFixesExactlyOrderedLists | frontend/lib/orchestrations.ts:102-118 | The lists left unchanged are exactly those already in dependency order |
| StepOrder.OrderedIdempotentIffNoMutualDependency | frontend/lib/orchestrations.ts:102-118 | Ordering twice equals ordering once if and only if no two different steps depend on each other |
| StepOrder.TwoStepCycle | frontend/lib/orchestrations.ts:102-118 | Two steps that depend on each other come out unordered, and ordering them again changes the list |
| PlanGraph.ValidateDag | odysseus/control-plane/src/orchestration/multi-agent-orchestrator.ts:725-744 | The checks and the depth-first search over mutable `visiting` and `visited` let a list of steps through if and only if its ids are unique and not empty, its dependencies known and not the step itself, and no step depends on itself through others |
| OrchestrationGraph.SendBackKeepsValid | odysseus/control-plane/src/orchestration/multi-agent-orchestrator.ts:401-450 | A failed check adds a fix and a repeated check under fresh ids and rewires the plan, which stays valid though it is not validated again |
| OrchestrationGraph.SendBackKeepsWaiting | odysseus/control-plane/src/orchestration/multi-agent-orchestrator.ts:403-450 | Whatever waited for a step, directly or through others, goes on waiting for it, and what waited for the check waits for the repeated one |
| OrchestrationPlanning.ExpandsIffAcyclic | odysseus/control-plane/src/orchestration/multi-agent-orchestrator.ts:340-396 | A plan that the parser lets through is taken if and only if its own dependencies have no cycle, whatever ids are taken already; then the whole plan is valid |
| OrchestrationPlanning.PlannedWaitForPlanner | odysseus/control-plane/src/orchestration/multi-agent-orchestrator.ts:335-368 | Every step that a plan adds waits for the planning step, directly or through others |
| OrchestrationPlanning.BuildsAreChecked | odysseus/control-plane/src/orchestration/multi-agent-orchestrator.ts:362-392 | A plan with a builder gets a test and a review; a test that was left out waits for every builder, a review that was left out for every builder and every test |
| OrchestrationPlanning.PlannersTestMayComeFirst | odysseus/control-plane/src/orchestration/multi-agent-orchestrator.ts:337-364 | A test that the planner gives without dependencies waits for no builder |
| OrchestrationTests.BuildersTestedIff | odysseus/control-plane/src/orchestration/multi-agent-orchestrator.ts:337-392 | Every builder of a taken plan is followed by a test if and only if the planner gave no test, or gave each of its builders one that depends on it |
| Orchestrator.OrchestrationRun.AdvanceNow | odysseus/control-plane/src/orchestration/multi-agent-orchestrator.ts:221-262 | The loops over the plan reconcile every dispatched step with its session, retry blocked ones and start the ready ones, builders in turn |
| OrchestrationRuns.PlansStayAcyclic | odysseus/control-plane/src/orchestration/multi-agent-orchestrator.ts:221-450 | In every run, whatever the planner, the tests, the reviews and the machines answer, the plan stays a valid graph |
| OrchestrationRuns.NothingStartsEarly | odysseus/control-plane/src/orchestration/multi-agent-orchestrator.ts:264-478 | In every run a step was started only when all it depends on was completed, and every test and review among that had passed, unless it is the fix of one |
| OrchestrationRuns.BuildersTakeTurns | odysseus/control-plane/src/orchestration/multi-agent-orchestrator.ts:456-478 | In every run at most one step that may write is in progress |
| OrchestrationRuns.NeverStuck | odysseus/control-plane/src/orchestration/multi-agent-orchestrator.ts:221-262 | A run shown as running has a step that runs or waits for a machine: since the plan has no cycle, some step is always ready |
| OrchestrationRuns.SuccessIsChecked | odysseus/control-plane/src/orchestration/multi-agent-orchestrator.ts:245-248 | A run succeeds only when every test and review has passed, or has been followed by one of its kind that did |
| OrchestrationBounds.StepsAreBounded | odysseus/control-plane/src/orchestration/multi-agent-orchestrator.ts:401-416 | However often work is sent back, a run has at most 15 + 28 n steps for each step it was given, n its fix attempts, which are at most five |
| RealtimeClients.RealtimeClient.OnOtherMessage | frontend/lib/realtime.ts:165-230 | Global listeners first, then sequence and session listeners, then device listeners, one after the other; the first that throws, in any of the three loops, ends the message |
| RealtimeRuns.StepKeepsSync | frontend/lib/realtime.ts:142-163 | Every event, user call, timer and server step keeps the subscription invariant |
| RealtimeRuns.SubscriptionsInSync | frontend/lib/realtime.ts:142-378 | In every run: folding the subscribe and unsubscribe messages sent on an open, welcomed socket gives exactly the sessions and devices listened to (and never more before the welcome), no stored listener set is empty, and "connected" is shown only with a welcomed socket |
| RealtimeGaps.StepKeepsWorldOk | frontend/lib/realtime.ts:152-193 | Every step of client, link or server, broadcasts and throwing listeners included, keeps the streams on the wire contiguous with what the listeners of each orderly subscription have heard |
| RealtimeGaps.SubscribedSessionsHearNoGap | frontend/lib/realtime.ts:152-193 | In every run, across any number of drops and reconnects, a listener whose subscription is orderly and to which no broadcast came ahead of the stream has heard every number from the first (the one asked for, if any) to the highest |
| RealtimeGaps.GapOpensIffAhead | frontend/lib/realtime.ts:177-191 | Whatever the server sends, a number opens a gap if and only if it is more than one above the noted one |
| RealtimeLedger.NotStaleUnlessRequested | frontend/lib/realtime.ts:303-331 | In every run nothing of a session that was not asked for on the current socket is served, streamed or asked for |
| RealtimeLedger.MissingIsStillToCome | frontend/lib/realtime.ts:152-193 | In every run, on a welcomed socket, each number that an orderly subscription has missed so far is under way in the stream, will be streamed, or is asked for |
| RealtimeLedger.CaughtUpHearsAll | frontend/lib/realtime.ts:152-193 | When the stream has caught up, an orderly subscription has no gap, whatever broadcasts came ahead |
| RealtimeLosses.PastIsNeverHeard | frontend/lib/realtime.ts:155-186 | A number that was noted, and that nothing on the line brings, is never heard again in any run that keeps the session subscribed and in which it is not broadcast again |
| RealtimeLosses.SkippedBeforeDropIsLost | frontend/lib/realtime.ts:152-186 | The numbers skipped by a broadcast are never heard if the socket is lost before the stream brings them, and the gap stays |
| RealtimeLosses.ThrownEventIsLostForGood | frontend/lib/realtime.ts:169-192 | An event cut off by a throwing global or session listener before it reached a listener is never heard by it, however long it stays subscribed, across drops, reconnects and further throws, unless it is broadcast again |
| RealtimeReturns.ComesBackIffNotNoted | frontend/lib/realtime.ts:152-191 | When the socket is gone, some run brings a number to a listener that stays, without broadcasting it, if and only if it is above the noted one |
| RealtimeStale.UnnotedSubscriptionIsSafeIff | frontend/lib/realtime.ts:303-331 | In every reachable state, no run with listeners that return and events on their stream makes a new subscription to a session without a noted sequence miss a number, if and only if nothing of the session is served, under way or asked for |
| RealtimeStale.LeftoverOpensGap | frontend/lib/realtime.ts:303-331 | From every reachable state a new subscription with something left over extends to a run with a gap |
| RealtimeStale.QuickResubscribeOpensGap | frontend/lib/realtime.ts:303-331 | Leaving and returning while the stream is served extends to a run with a gap |
| RealtimeBackoff.DelayBounds | frontend/lib/realtime.ts:277-283 | Delays lie between 1000 and 10000 ms and do not shrink with the attempts |
| RealtimeBackoff.BackoffInEveryRun | frontend/lib/realtime.ts:150-288 | In every run, the delays between two welcomes never shrink, lie in 1000..10000 ms and add up to 2000(1.5^n - 1) for n up to 6 and 20781.25 + 10000(n - 6) beyond |
| RealtimeBackoff.DisconnectIsFinalIffNothingRefreshes | frontend/lib/realtime.ts:366-378 | After disconnect(), events other than page calls can bring a socket back if and only if a token refresh was under way |
| ApiClient.Client.RequestRefreshToken | frontend/lib/api-client.ts:85-135 | A call joins the exchange in the slot or starts one, and fills the slot after the synchronous part has run |
| TokenRefresh.StepKeepsOk | frontend/lib/api-client.ts:85-168 | Every interleaved step keeps: an unsettled exchange is the one in the slot, each exchange has its own starter, and every caller's history is in order |
| TokenRefresh.AtMostOneExchange | frontend/lib/api-client.ts:80-135 | Over every interleaving at most one exchange is in flight, and it is the one in the slot |
| TokenRefresh.JoinersAgree | frontend/lib/api-client.ts:85-135 | Callers that joined one exchange are given the same result, and a waiting caller's exchange is in flight or has a result to deliver |
| TokenRefresh.ExchangesHaveOwnStarters | frontend/lib/api-client.ts:85-91 | Different exchanges were started for different callers, so calls never cost more exchanges than callers |
| TokenRefresh.RetriesOnceWithTheNewToken | frontend/lib/api-client.ts:159-168 | Each `fetchWithAuth` sends one or two requests, two if and only if the first was a 401 on a non-auth endpoint and the exchange it joined gave a token, which the second request carries |
| TokenRefresh.SlotFreedIffNoneThrowsAtOnce | frontend/lib/api-client.ts:90-135 | The slot never holds a settled promise if and only if no token source threw before its first await |
| TokenRefresh.StuckForGood | frontend/lib/api-client.ts:85-135 | Once the slot holds a settled promise, no further exchange is started in any run |
| TokenRefresh.SettlingDecidesTheSession | frontend/lib/api-client.ts:92-131 | A token delivered is the token stored; without one the stored token goes and the callback is called, except after an ok answer without a token |
| WorkspaceStore.Store.OnAllSettled | frontend/lib/workspace-store.ts:108-127 | Storing a round also sets `loaded`, clears `refreshing` and records the time |
| Workspace.RefreshesAreCoalesced | frontend/lib/workspace-store.ts:102-132 | In every run at most one round is in flight, `refreshing` and `loaded` tell the truth, and the calls were given the rounds in order |
| Workspace.EveryRoundHasItsCall | frontend/lib/workspace-store.ts:103-106 | Each round of requests was asked for by a call |
| Workspace.StoreShowsLastGood | frontend/lib/workspace-store.ts:83-127 | In every run each section shows the latest successful payload (or nothing, once a failure with an empty message came after it) and the latest request's error |
| Workspace.LastGoodByPosition | frontend/lib/workspace-store.ts:118-123 | The last good data is the payload of the request after which all failed, and it is blanked exactly by an empty message since |
| Workspace.LastGoodIsShownIff | frontend/lib/workspace-store.ts:118-122 | Devices, sessions and approvals equal the last good data if and only if no failure since had an empty message or there was nothing to lose; their error is null if and only if the latest request succeeded or none was made |
| Workspace.SuccessHeadlineIff | frontend/lib/dashboard-model.ts:19-36 | Over every refresh history the headline is a success if and only if the last good device list, still shown, has an online machine and the last good approvals have none pending or were blanked |
| Workspace.PairPromptIff | frontend/lib/dashboard-model.ts:20-22 | The prompt to pair a machine shows if and only if no machine is shown and the latest device request has no error with a message |
| Workspace.AllClearWithoutApprovals | frontend/lib/dashboard-model.ts:23-35 | A run of one whole round whose approvals request failed ends with "All clear" |
| Workspace.CountedButNotMarked | frontend/lib/dashboard-model.ts:58-78 | The states counted as working agents are those marked live, and "paused" |
| GatewayScreen.Screen.Resume | odysseus/scripts/gateway-ui.ts:290-297 | The loop writes the held lines in order, without the rewriting of command names, and the status line is drawn |
| ScreenRuns.StepKeepsOk | odysseus/scripts/gateway-ui.ts:265-486 | Every record, prompt and tick keeps the screen's fields in agreement with what its printed lines say |
| ScreenRuns.ProblemsAnnouncedOnce | odysseus/scripts/gateway-ui.ts:479-486 | Between two equal problem titles there is an online line |
| ScreenRuns.ConnectedComesFirst | odysseus/scripts/gateway-ui.ts:433-455 | "Connected" comes at most once and before every "Back online", and no "Back online" comes without it |
| ScreenRuns.EachLossHasItsOwnOnline | odysseus/scripts/gateway-ui.ts:457-467 | Each "Lost connection" has an earlier online line with no other loss in between |
| ScreenRuns.OutageIsMeasured | odysseus/scripts/gateway-ui.ts:433-467 | "Back online" counts exactly from the loss since the previous online line, and shows zero without one |
| ScreenRuns.DashboardLinesAlternate | odysseus/scripts/gateway-ui.ts:469-477 | Between two "Dashboard opened" lines there is a "Dashboard closed" |
| ScreenRuns.ClosedFollowsItsOwnOpened | odysseus/scripts/gateway-ui.ts:469-477 | Each "Dashboard closed" has its own earlier "Dashboard opened" |
| ScreenRuns.LinesComeOutOnceInOrder | odysseus/scripts/gateway-ui.ts:284-297 | Over every stream, prompts included, printed lines reach the terminal once each and in order, held ones exactly those not rewritten; none is written over the status line, which stands only while ticking and not suspended |
| ScreenRuns.AllNotesShownIff | odysseus/scripts/gateway-ui.ts:542-550 | Every note is shown if and only if each can be rewritten and none consists of spaces only |
| ScreenRuns.LeadingNotesAreShown | odysseus/scripts/gateway-ui.ts:542-550 | The listing shows exactly the notes before the first that is blank or whose rewriting throws |
| StatusLine.Compose | odysseus/scripts/gateway-ui.ts:690-702 | The loop and the hint produce the laid-out line, widths measured on the stripped text |
| StatusLine.KeepsAsManyAsFit | odysseus/scripts/gateway-ui.ts:692-697 | The extras shown are the longest prefix that leaves room for the hint |
| StatusLine.HintBeforeExtras | odysseus/scripts/gateway-ui.ts:692-702 | The hint stands in the last columns if and only if the head alone leaves room for it |
| StatusLine.FitsIffHeadFits | odysseus/scripts/gateway-ui.ts:688-702 | The line fits the terminal if and only if its head does, whatever the extras and the hint |
| WordWrap.Wrap | odysseus/scripts/gateway-ui.ts:184-198 | The loop over the split words returns the wrapped lines, each indented |
| WordWrap.WrapIsOptimal | odysseus/scripts/gateway-ui.ts:185-197 | The lines hold all words in order, each fits or is one overlong word, and no legal layout of the words has fewer lines |
| WordWrap.TextTakesFewestLines | odysseus/scripts/gateway-ui.ts:184-198 | Any text that is not blank takes as many lines as without the spaces around it, and no legal layout of its words takes fewer |
| WordWrap.NoLinesIffBlank | odysseus/scripts/gateway-ui.ts:188-196 | Wrapping leaves no line if and only if the text is blank |
| WordWrap.SplitNonEmpty | odysseus/scripts/gateway-ui.ts:188 | A text without spaces at its ends splits into non-empty words |
| WordWrap.TrailingSpaceKept | odysseus/scripts/gateway-ui.ts:188-197 | The empty word of trailing spaces adds at most one space at the end of the last line, within the width |
| AnsiStyle.StripUndoesStyling | odysseus/scripts/pair-ui.ts:80-81 | For any nesting of bold, dim, paint and link over texts without escapes, stripping gives exactly the plain text |
| AnsiStyle.WidthsAdd | odysseus/scripts/pair-ui.ts:80-81 | The visible width of a concatenation is the sum of the widths |
| AnsiStyle.WidthWithoutStyling | odysseus/scripts/pair-ui.ts:80-101 | Without links, the visible width is the same whether styling is on or off |
| AnsiStyle.Card | odysseus/scripts/pair-ui.ts:219-232 | All rows of a card are equally wide whatever styling the title and the lines carry, and each line is shown in full |
| FenceExport.NoLongerRun | frontend/lib/conversation-export.ts:90-96 | No run of backticks in the text is as long as its fence |
| FenceExport.NoLineCloses | frontend/lib/conversation-export.ts:82-96 | No line of a text closes the block its own fence opens |
| FenceExport.BlockReadsBack | frontend/lib/conversation-export.ts:51-54 | A fenced text is read back whole, and reading goes on behind it |
| FenceExport.ExportReadsBack | frontend/lib/conversation-export.ts:46-56 | Scanning the printed body recovers exactly the fenced texts, for any texts, with the blocks of unfenced texts in their places |
| DiffParser.ParsePatch | frontend/components/diff-viewer.tsx:19-43 | The loop returns the parse of the lines of the patch |
| DiffParser.HeaderReadsBack | frontend/components/diff-viewer.tsx:26-32 | The numbers of a printed hunk header are read back, with or without lengths |
| DiffParser.HunkLabelledAnywhere | frontend/components/diff-viewer.tsx:25-40 | A hunk is labelled with its true numbers whatever lines come before it and after it |
| DiffParser.LabelIsTrue | frontend/components/diff-viewer.tsx:33-38 | A label's numbers are the 1-based positions of its text in the old and the new file, and prefix and content give back the line of the hunk |
| DiffParser.PatchIsLabelled | frontend/components/diff-viewer.tsx:19-43 | The parse of a patch of any number of files and hunks is, file by file and in order, what becomes of the header lines and then every hunk with its header and true labels, and nothing else |
| DiffParser.OtherHeadersAreDropped | frontend/components/diff-viewer.tsx:25-40 | Header lines other than the `---` and `+++` ones are not shown and move no counter |
| DiffParser.TrailingNewlineAddsContext | frontend/components/diff-viewer.tsx:20-38 | A newline at the end of the patch adds one empty context line |
| Base64Url.UrlBase64ToUint8Array | frontend/lib/push.ts:109-118 | The loop fills the array with the codes of the decoded string, or atob's exception comes through |
| Base64Url.DecodeInvertsEncode | frontend/lib/push.ts:108-118 | Decoding the unpadded base64url form of any bytes gives those bytes |
| Base64Url.DecodesUnlessOneLeftOver | frontend/lib/push.ts:110-112 | Text over the alphabet fails to decode if and only if its length is one more than a multiple of four; otherwise three bytes come of every four characters |
| Middleware.StepBurns | frontend/middleware.ts:7-62 | Each redirect, except from a page to itself, lowers the length of the decoded target, or keeps it and leaves the old alias |
| Middleware.ChainEndsIffNoLoop | frontend/middleware.ts:7-62 | A redirect chain ends if and only if no auth page that it reaches while signed in has a target that resolves to that page itself |
| Middleware.StayingTargetNeverEnds | frontend/middleware.ts:45-48 | A sign-in page with a target that resolves to it redirects a signed-in visitor to itself for ever |
| Middleware.FragmentTargetNeverEnds | frontend/middleware.ts:45-48 | For instance a target that is a fragment |
| Middleware.ChainsAreShort | frontend/middleware.ts:7-62 | In at most two redirects for every ten characters of the outermost target, and five besides, a chain gets to the page it never leaves, off the site, to a target that does not parse, or to a page that is shown; a guarded page so shown is an auth page if and only if signed out, and not on the old alias |
| Middleware.SignInReturns | frontend/middleware.ts:45-59 | Signed-out visitors of an app page are sent to sign in, and signed in they return to that page with its query if and only if its path does not start with two slashes |
| Middleware.DestinationReadsBack | frontend/middleware.ts:47-57 | The sign-in page reads back the destination it was given, whatever characters it has |
| Middleware.UnmatchedIsPublicIff | frontend/middleware.ts:20-66 | The paths the middleware is not registered for are public, except those like favicon.ico that have no dot |
| Pairing.RegisterPairing | odysseus/scripts/pair.ts:98-138 | The deadline-bounded loop, with its early exits, computes `Register` for every server |
| Pairing.AtMost25RequestsUnder129Seconds | odysseus/scripts/pair.ts:102-135 | At least one and at most 25 requests, over in less than 129 s, whatever the server does |
| Pairing.ResultIsTheLastReply | odysseus/scripts/pair.ts:105-137 | The loop ends with the first reply that decides, and else at the deadline with the last problem |
| Pairing.RefusalIsFinalIff | odysseus/scripts/pair.ts:94-128 | After an answer that is not ok and not 502, 503 or 504 nothing is sent, if and only if its body is not the JSON null |
| Pairing.NullRefusalIsRepeated | odysseus/scripts/pair.ts:121-134 | A refusal whose body is null can be repeated 25 times, which also meets the bound |

## Left out

- SubscribedSessionsHearNoGap: that a broadcast brings the first number noted for a session ends the promise although it opens no gap by itself: the server chooses where the new stream starts, and this one need not choose the next number.
- UnnotedSubscriptionIsSafeIff: for a session whose sequence is noted although nobody listens (an event came before the first listener, or after the last one left) a leftover need not open a gap: the new stream resumes behind what was noted.
- ThrownEventIsLostForGood: "for good" means unless the number is broadcast again, as when a gateway delivers the event to the control plane anew.
- SubscriptionsInSync: holds under the single-socket premise; listeners that subscribe or unsubscribe while they are being called are not modelled.
- ExportReadsBack: headings are single lines, unfenced texts leave none of their own blocks open, and a text comes back with the newline before its closing fence; HTML blocks, which in CommonMark can swallow later fences, and the document's title, metadata and notes are not modelled.
- LastGoodIsShownIff: the usage section, which keeps no error, is covered by StoreShowsLastGood only.
- SignInReturns: percent escapes that are not valid UTF-8 are decoded to replacement characters by the browser and to plain bytes here.
- ChainsAreShort: a visitor's cookies do not change along a chain.
- AtMost25RequestsUnder129Seconds: timers that fire late are not modelled.
- WrapIsOptimal: widths count characters, where the source counts UTF-16 units, so characters beyond the basic plane count double there; wide glyphs are modelled by neither.
- DecodeInvertsEncode: strings are sequences of characters, not UTF-16 code units.
- PatchIsLabelled: the "no newline at end of file" marker of a diff, which the parser drops, and numbers too large for a double are not modelled.
- Realtime lifecycle handlers (pagehide, pageshow) are ordinary calls of disconnect and connect, and so is React's use of the client; the order of JavaScript maps is left free.
- The failure callback and store subscribers that call back into the client or the store while it runs.
- The direct refresh in `frontend/lib/auth.ts`, which bypasses the shared exchange and so may store a token in between: covered only as a free change of the token.
- `selectFinishedSessions` and its sort by date, the wording of headlines and badges, and the number of agents in them.
- The contents of the cards the screen writes directly (each stands as one line here); the head, extras and hint that each phase gives the status line; the screen's regular-expression tables, duration texts, colours, cursor control, log file and exit message; a count of browsers that is not a number.
- `fingerprintGrid`, `bigCode`, `step`, `liveLine` and the portrait of the pairing screen.
- BuildersTestedIff: the same question for reviews, which differ only in that an added review also waits for the tests.
- StepsAreBounded: the bound counts every added step as a check, so it is not the least one.
- NeverStuck: a step that waits for a machine waits until a later call starts it; that such a call comes is not modelled.
- Of the orchestrator: choosing a machine and an agent, prompts, risk, policy, budgets and approvals beyond their effect on a step's state, storage, and the reading of plans, test results and reviews out of an agent's text.
- React components, the rest of the control plane, tunnel, policy engine, audit chain, Firebase and service worker: user interface, or not part of these files.
