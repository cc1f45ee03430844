# A verified model of the agent suite's cores

This project models the parts of the repository that keep state over time or transform data, and proves
what they promise. Each core is written twice: once as the source writes it (a class whose methods update
fields, a loop over an array of parts), and once as functions on values. The methods are proved equal to the
functions, and the theorems are about the functions, over every event stream, every schedule, every tree or
every text. Where a promise holds only under a condition, the condition is stated, proved exact where that
could be done, and a concrete input shows that it is needed.

## What is modelled

**The trace** (`Trace*.dfy`, after `apps/cli/src/core/trace.ts`). `reduceTrace` folds an event stream into a tree
of agents, tool calls and leaves. Nodes are created before their parent is known and re-homed later. An agent is
named by its id, because `agents` never replaces an entry; a tool node by the serial number of its creation,
because a second `tool-call` with a known id makes a second node. The `children` arrays are a map from node to
sequence of items, so that a node can sit in two arrays, or under itself, if the code lets it. The results: every
node sits in at most one array, at one position, unless a `tool-call` re-announces a call id whose node already
holds a sub-agent, and that condition is exact; once a delegate call and a start naming it have both been seen, in
any order and with anything in between, the sub-agent sits under that call alone, so the same events in another
order give the same placement; below the root hangs a finite tree, and below any node exactly when it is not its
own ancestor; a sub-agent whose content came first comes to sit somewhere exactly when one of its starts names a
known call or a delegate call arrives that its last start had named; the two displays agree exactly when no
sub-agent still waits for its call; the text streamed to an agent is kept, whole and in order, over every stream
without any hypothesis, two deltas in a row are one, and a block ends where another voice or item comes between;
and the tool and status of every call id, which agents there are, what they are called, where they are first hung
and whether they are done follow from the events alone (`TraceStatus`, `TraceBirth`).

**The app server** (`ServerModel`, `ServerHistory`, `AppServer`, `Delivery`, `Subscriptions`, `Feed`, `Headless`,
`HeadlessPolicy`, `ApprovePolicy`, `Access`, `AccessHistory`, `Outbox`, `Rpc`, `RpcOutcomes`, `RpcLink`,
`RpcChannel`, after `packages/agent-server/src/server.ts` and `apps/cli/src/headless/run.ts`). Host events,
requests and send completions are the steps of a state machine. The bookkeeping refers only to runs that are still
mapped to the same session, and which session a run stands for and which account a session has follow from the
steps alone; a connection is subscribed to a scope, and gets an event, exactly when its own subscriptions and the
announced runs say so; the subscriptions of a connection grow with the run tree to exactly the set that the
headless host and the terminal compute in their own ways, if and only if it subscribed before any sub-agent was
announced; while a connection is open, what it has sent, is sending and has queued is exactly what it is owed in
order, less text and reasoning deltas that found the queue full; an untrusted connection gets events only of
sessions it created or was checked for, and an owner gets them; a registration is answered at most once, and an
answer is passed on exactly when it is valid and its action still waits; how long a turn is active follows from the
steps alone; a headless turn answers every gate of its run tree by its policy and its exit code follows from the
signals alone; the outbound queue is ordered and bounded; every arrival gets one reply with its own id, null when
none can be read (section 5 of the JSON-RPC 2.0 specification), and with the code of its fault; exactly the
requests after the `initialize` that opens the connection are worked on. `RpcLink` joins the server's side to the
client of `packages/agent-client/src/client.ts`: a promise that settles with a reply settles with the reply to its
own request, and nothing is left waiting once nothing is under way.

**Text for chat platforms** (`SplitModel`, `SplitLimits`, `SplitProofs`, `SplitCuts`, `Split`, `Renderer`,
`RenderDelivery`, `ChatRender`, after `apps/gateway/src/render`). Splitting keeps the text but for newlines at cuts
and, when all cuts fall on newlines, shows every line in the fence state it has in the source. Every cut with a
positive budget is at the last paragraph in reach, else the last line, else the last word. Which iterations are
repeated for ever and which chunks are longer than the limit are both characterised exactly, for every budget, zero
and negative ones included. For every schedule of appends, ticks and sends the renderer delivers the whole trimmed
answer exactly when the turn does not hang in the splitter, and then the messages that reach the platform, the live
one and the others in order, are exactly those the acts call for.

**The clean-up of an unpacked presentation** (`CleanModel`, `CleanSlides`, `CleanOutcome`, `Clean`, after
`skills/pptx/scripts/clean.py`). The slides that are left are the listed ones, by the text of their targets, and
the sweep ends in the largest self-supporting part of the package, whatever order directories are listed in: a part
is left exactly when some relationships file that is left points at it, and a relationships file exactly when its
owner is.

**Lifecycles** (`Supervisor`, `CrashLoop`, `Connection`, `ConnectionLife`, `AgentClient`, after
`apps/desktop/src/main` and `packages/agent-client/src`). Crash restarts with a fuse and backoff: each crash up to
the limit is answered by one start, and the one after it blows the fuse. Reconnects fenced by a generation counter:
there is a client exactly when the socket dialled for it has opened, shaken hands and not been cut off since. And
the pending map of the RPC client: what each promise settles with follows from the calls alone. The clock is an
argument.

**Files, sessions and forms** (`Transfer`, `UploadNames`, `SessionTree`, `SessionStore`, `SessionHistory`,
`SessionChain`, `McpForm`). Ranged downloads reassemble a file; upload names are fit for the file system, free, and
found within one probe more than there are names in the way; the three walkers of the session tree agree; the
session store's fold is the tree in memory except for the head, what it holds follows from the operations alone,
and a conversation in it is a chain that the active path holds; a form shown and read back gives its configuration
back exactly when the configuration is normal.

## Where the code and its words differ

The model follows the code.

- `apps/cli/src/core/trace.ts:651-652`: the comment says that content which arrives before its `sub-agent-start` parents the
  sub-agent to the orchestrator. It sits under nothing (`TraceDisplay.EarlyContentFloats`), and a start alone does not
  change that: it stays there, and out of the display, until a start of it names a known call or a delegate call comes
  that its last start had named (`TraceSeats.EarlyContentIsSeatedExactly`, `TraceSeats.UnclaimedContentIsNotShown`).
- An approval or a question that arrives before its delegate `tool-call`, with the sub-agent's start in
  between, leaves the sub-agent in two `children` arrays (`TracePlacement.ApprovalFirstDoublesASubAgent`).
- `apps/gateway/src/render/split.ts:9` promises chunks within the limit. The budget leaves no room for the closing fence, and
  nothing at all behind a long fence line. A chunk is over the limit exactly when its closing fence does not fit behind
  it or it was cut with a negative budget (`SplitLimits.PiecesFitExactly`), and both happen (`SplitLimits.OverlongChunk`,
  `SplitLimits.NegativeBudgetRunsOver`). A text without a fence marker is safe
  (`SplitLimits.PlainTextFits`), but not one in which merely no line starts with a marker, because a cut inside a line
  can make such a line (`SplitLimits.HardCutOverflows`).
- The splitter's loop does not always end: an iteration that takes nothing is repeated for ever
  (`SplitLimits.TakingNothingRepeats`, `SplitLimits.TakesNothingExactly`), and a fence line of `max - 1` characters leads to one
  (`SplitLimits.LongFenceLineSticks`). A turn that flushes such a text hangs and delivers nothing
  (`Renderer.HangsExactly`, `Renderer.LongFenceLineHangs`).
- `packages/agent-server/src/server.ts:176-177` marks the connection initialised before it reads the opt-out list. An
  `initialize` whose list is not iterable is answered with an internal error, and requests are worked on all the same
  (`Rpc.RefusedInitializeOpens`, `Rpc.WorkFollowsSuccessExactly`).
- `packages/agent/src/index.ts:966-969` cuts upload names to 120 characters. A name whose extension alone is longer grows by
  120 instead (`UploadNames.NameFitsExactly`, `UploadNames.LongExtensionGrows`).
- `packages/agent/src/storage/session-store.ts:157-158` says that sub-agent transcripts do not move the head. They do not in
  memory, but a reload takes the last entry for the head (line 61), so the head moves if nothing has set it since
  (`SessionStore.ReloadAgreesExactly`).
- A `run-finish` that overtakes the reply of `turn/start` is dropped, and the turn stays active until its session starts
  another turn or is deleted (`ServerModel.FinishBeforeTrackingLeavesTurnActive`).
- A subscriber of a run does not get the whole turn if it subscribes late: it follows the turn if and only if no
  sub-agent had been announced in it by then (`Delivery.LateSubscriberFollowsExactly`).
- `skills/pptx/scripts/clean.py:79-83` unlinks removed slides only where the target is written `slides/…`. A relationship that
  writes the same target in another way stays when its slide goes (`CleanSlides.OtherSpellingStays`).
- `skills/pptx/scripts/clean.py:46` erases every `slides/` in a target, not the one at its front: a target that repeats it lists
  the slide of that name one level up (`CleanSlides.RepeatedDirectoryIsListed`). Without such a target the listed files are
  those the targets name (`CleanSlides.ListedByTarget`).

## Model

| member | source | states |
|---|---|---|
| TracePlacement.Detached | apps/cli/src/core/trace.ts:686-701 | `detachItem` takes a node out of the whole tree and leaves every other node with its parent |
| TracePlacement.Moved | apps/cli/src/core/trace.ts:652-661 | re-homing puts the node under its new parent, only there, and moves nothing else |
| TracePlacement.Rehomed | apps/cli/src/core/trace.ts:706-713 | a tool collects exactly the sub-agents that name it as their spawner |
| TracePlacement.StepKeepsPlacement | apps/cli/src/core/trace.ts:272-590 | every event keeps each node in at most one `children` array, if it re-announces no tool that already holds a node |
| TracePlacement.SinglePlacementExactly | apps/cli/src/core/trace.ts:272-590 | from a well-placed trace an event doubles a node if and only if it is a delegate call that reclaims a sub-agent its earlier node holds |
| TracePlacement.PlacementInvariantExactly | apps/cli/src/core/trace.ts:355-374 | the placement invariant survives an event if and only if the event re-announces no tool node that holds something |
| TracePlacement.RunKeepsPlacement | apps/cli/src/core/trace.ts:244-590 | single placement after every prefix of every such stream |
| TracePlacement.ApprovalFirstDoublesASubAgent | apps/cli/src/core/trace.ts:376-390 | approval, start, call in that order leave a sub-agent in two arrays |
| TraceRehome.RunHomes | apps/cli/src/core/trace.ts:519-534 | after any such stream the sub-agents that name a spawner are those started with it, and each sits where its spawner says |
| TraceRehome.HomeWhenBothSeen | apps/cli/src/core/trace.ts:355-374 | once a delegate call and a start naming it are in the stream, in any order, the sub-agent's only parent is that tool |
| TraceRehome.IntroducedOnce | apps/cli/src/core/trace.ts:519-534 | with single introductions, the spawners and delegates of a stream do not depend on its order |
| TraceRehome.PlacementIgnoresOrder | apps/cli/src/core/trace.ts:649-713 | two orders of the same events put every sub-agent under the same call |
| TraceRehome.StepKeepsRoot | apps/cli/src/core/trace.ts:639-681 | the root names no spawner and stays outside every `children` array, event by event |
| TraceRehome.RunKeepsRoot | apps/cli/src/core/trace.ts:244-590 | the same over every stream whose sub-agents start after the root and under other names |
| TraceStreams.StepRegisters | apps/cli/src/core/trace.ts:355-435 | an event makes known exactly the call ids it introduces and never replaces the root |
| TraceStreams.CallsFirstAreFresh | apps/cli/src/core/trace.ts:355-423 | if every `tool-call` is the first event with its call id, no event of the stream re-announces a tool |
| TraceStreams.OrchestratorFirstIsGuided | apps/cli/src/core/trace.ts:639-681 | if the first event creates the orchestrator and no sub-agent takes its name, every sub-agent starts after the root and under another name |
| TraceStreams.OrderlyStreamsMakeTrees | apps/cli/src/core/trace.ts:244-713 | every stream with those two properties makes a finite tree below the orchestrator, each node in it once, with every sub-agent whose call and start are both there under that call alone |
| TraceTree.TreeExactly | apps/cli/src/core/trace.ts:785-808 | below a node of a well-placed trace hangs a finite tree, so that `walk` ends, if and only if the node is not its own ancestor |
| TraceTree.ShapeIsUnique | apps/cli/src/core/trace.ts:785-808 | the tree below a node is determined by the trace |
| TraceTree.NodesOccurOnce | apps/cli/src/core/trace.ts:785-808 | no agent or tool occurs at two positions of a tree |
| TraceTree.TreeBelowRoot | apps/cli/src/core/trace.ts:778-808 | after every such stream a finite tree hangs below the root, each node in it once |
| TraceRows.RowKeysDistinct | apps/cli/src/core/trace.ts:785-808 | no two rows of a flattened trace share a key, in either mode and under any gate |
| TraceRows.LogKeysDistinct | apps/cli/src/core/trace.ts:817-821 | nor do two rows of a tool's own log |
| TraceRows.PositionHasRow | apps/cli/src/core/trace.ts:785-808 | every position of the tree has its row in the full display, at the depth of the position and under its key |
| TraceRows.RowHasPosition | apps/cli/src/core/trace.ts:785-808 | and every row of the full display is the row of a position |
| TraceRows.NodesAreListedOnce | apps/cli/src/core/trace.ts:778-808 | so every agent and tool of a well-placed trace has exactly one row there |
| TraceRows.FullIsSplicedContained | apps/cli/src/core/trace.ts:778-821 | once no sub-agent waits for its call, the full rows are the contained rows with each tool's own log spliced in after it, recursively |
| TraceRows.DisplaysAgreeExactly | apps/cli/src/core/trace.ts:778-821 | the two displays agree if and only if no sub-agent of the tree waits for its call |
| TraceDisplay.SettledOnceAnnounced | apps/cli/src/core/trace.ts:519-534 | when all delegate calls of a stream have arrived, none waits |
| TraceDisplay.StreamDisplaysAgree | apps/cli/src/core/trace.ts:778-821 | so the displays agree for every such stream |
| TraceDisplay.RootUnderItsOwnCallHasNoTree | apps/cli/src/core/trace.ts:519-534 | a start that names the orchestrator under its own call makes a trace with no finite tree: the hypothesis on nesting is needed |
| TraceDisplay.EarlyContentFloats | apps/cli/src/core/trace.ts:672-679 | content before its start makes an agent node under no parent |
| TraceSeats.StepSeats | apps/cli/src/core/trace.ts:355-374 | an agent that has a node sits somewhere after an event if and only if it did before or the event is a start naming a known call or a delegate call that it names |
| TraceSeats.EarlyContentIsSeatedExactly | apps/cli/src/core/trace.ts:639-713 | over every stream without re-announced tools, an agent first named by its content sits under something at the end if and only if a later start of it named a known call id or a delegate call came with the id its last start had named |
| TraceSeats.UnclaimedContentIsNotShown | apps/cli/src/core/trace.ts:648-661 | an agent other than the root whose content came first and none of whose starts names a call has no row in the full display |
| TraceDisplay.CardsAreRestoredOnce | apps/cli/src/core/trace.ts:505-517 | restoring the artifacts gives each a card, leaves those that are there alone, doubles none if the list names none twice, and changes nothing when done again |
| TraceText.EverythingSaidIsKept | apps/cli/src/core/trace.ts:331-353 | over any stream at all, the blocks of a speaker under an agent read exactly what was streamed to that agent in that voice, in order |
| TraceText.DeltasCoalesce | apps/cli/src/core/trace.ts:331-353 | two text deltas in a row are one delta of both texts, and so are two reasoning deltas, in any state |
| TraceText.DeltasGoToTheEnd | apps/cli/src/core/trace.ts:331-353 | over every stream a delta changes no `children` array but its agent’s, and there only the end: it grows the last item if that is a block in its voice, else adds one block |
| TraceText.UserTextIsItsOwnBlock | apps/cli/src/core/trace.ts:272-287 | what the user says is always a block of its own, so that it separates the answers around it |
| TraceStatus.ToolsExactly | apps/cli/src/core/trace.ts:355-448 | over every stream, whether a call id has a tool, which tool it is and its status follow from the events with that id |
| TraceStatus.NodesExactly | apps/cli/src/core/trace.ts:639-681 | over every stream an agent has a node if and only if an event has named it |
| TraceBirth.RolesExactly | apps/cli/src/core/trace.ts:639-670 | over every stream, the role of every agent, by its starts and, until the first of them, by whether a parent was named for it |
| TraceBirth.StartTells | apps/cli/src/core/trace.ts:519-534 | a start records the spawner it names, and the parent too if it makes the node or moves it |
| TraceBirth.NewAgentsSit | apps/cli/src/core/trace.ts:663-681 | over every stream without re-announced tools, an agent named for the first time sits in exactly one place: under its known spawning call, else under the named parent if that has a node, else nowhere |
| TraceStatus.SubRunsExactly | apps/cli/src/core/trace.ts:519-543 | and a run id is known as a sub-agent’s if and only if it was started as one, as the agent last started with it |
| TraceStatus.DoneExactly | apps/cli/src/core/trace.ts:536-590 | over every stream that creates the orchestrator first, an agent is done if and only if it has finished and not been started since |
| TraceStatus.ResultClosesTheLastCommand | apps/cli/src/core/trace.ts:288-301 | a shell result closes the last command that is still running, with its output |
| TraceStatus.EndClosesTheLastMarker | apps/cli/src/core/trace.ts:545-567 | the end of a compaction closes the last marker of the root |
| TraceStatus.CardsGoToTheRoot | apps/cli/src/core/trace.ts:498-517 | cards and compaction markers are added at the end of the root’s children |
| TraceText.AppendTextSays | apps/cli/src/core/trace.ts:331-353 | merging a delta into an open block or starting a new one adds exactly the delta |
| TraceReducer.Trace.constructor | apps/cli/src/core/trace.ts:218-242 | a new trace is empty |
| TraceReducer.Trace.DetachItem | apps/cli/src/core/trace.ts:686-701 | the search through agents, then tools, and the splice, as the function `Detach` |
| TraceReducer.Trace.EnsureAgent | apps/cli/src/core/trace.ts:639-681 | create, rename or re-home an agent, as the function `EnsureAgent` |
| TraceReducer.Trace.RehomeSubAgentsForTool | apps/cli/src/core/trace.ts:706-713 | the loop over the agents, as the function `Rehome` |
| TraceReducer.Trace.StreamText | apps/cli/src/core/trace.ts:331-353 | text and reasoning deltas |
| TraceReducer.Trace.OpenGate | apps/cli/src/core/trace.ts:376-435 | approval and question: create the tool node only if none is known |
| TraceReducer.Trace.MarkTool | apps/cli/src/core/trace.ts:437-448 | a tool's status |
| TraceReducer.Trace.FillShell | apps/cli/src/core/trace.ts:288-301 | fill the last running shell item |
| TraceReducer.Trace.OnToolCall | apps/cli/src/core/trace.ts:355-374 | announce a tool and, for a delegate, collect its sub-agents |
| TraceReducer.Trace.OnSubAgentStart | apps/cli/src/core/trace.ts:519-534 | ensure the agent under its spawner and remember the spawner |
| TraceReducer.Trace.CloseAgent | apps/cli/src/core/trace.ts:536-543 | an agent is done |
| TraceReducer.Trace.CardOnRoot | apps/cli/src/core/trace.ts:625-637 | a card at the end of the root's children |
| TraceReducer.Trace.RestoreArtifacts | apps/cli/src/core/trace.ts:505-517 | cards for the artifacts that have none when the event arrives, in the order of the list |
| TraceReducer.Trace.ResumeTool | apps/cli/src/core/trace.ts:322-328 | a tool that asked a question resumes |
| TraceReducer.Trace.CloseLastCompaction | apps/cli/src/core/trace.ts:552-567 | close the last compaction marker |
| TraceReducer.Trace.Reduce | apps/cli/src/core/trace.ts:244-590 | one event in place is the function `Step` that the theorems are about |
| TraceReducer.Trace.Walk | apps/cli/src/core/trace.ts:785-808 | the recursive walk that pushes rows gives the rows of the tree |
| TraceReducer.Trace.FlattenTrace | apps/cli/src/core/trace.ts:778-783 | the rows from the root, none without a root |
| TraceReducer.Trace.FlattenSubAgentLog | apps/cli/src/core/trace.ts:817-821 | the rows of one tool's log |
| ServerModel.HostEventKeepsConsistency | packages/agent-server/src/server.ts:470-502 | a host event keeps every active turn and pending action on a run still mapped to its session |
| ServerModel.TurnStartConsistentExactly | packages/agent-server/src/server.ts:311-313 | so does starting a turn, if and only if its run id is in use for no other session |
| ServerModel.OthersKeepConsistency | packages/agent-server/src/server.ts:245-256 | so do creating and deleting a session and claiming an action |
| ServerModel.RunsAreConsistent | packages/agent-server/src/server.ts:454-502 | so does every run of the server whose run ids are used for one session |
| ServerModel.LateFinishKeepsNewerTurn | packages/agent-server/src/server.ts:494-498 | a late `run-finish` of an old run never clears a newer turn |
| ServerModel.FinishClearsTheRun | packages/agent-server/src/server.ts:481-502 | a `run-finish` drops everything of its run and nothing else |
| ServerModel.DeletionIsComplete | packages/agent-server/src/server.ts:245-256 | after `session/delete` no run, turn, account or pending action of the session is left, and nothing of another session is lost |
| ServerModel.ActiveExactly | packages/agent-server/src/server.ts:311-313 | over every run, a run is the active turn of a session if and only if a `turn/start` made it so and no later step dropped the run or started another turn there |
| ServerModel.LawfulActiveExactly | packages/agent-server/src/server.ts:494-502 | where no two sessions share a run id, the steps alone decide it: no later start in the session, deletion of the session or finish of the run |
| ServerModel.FinishBeforeTrackingLeavesTurnActive | packages/agent-server/src/server.ts:311-313 | after a finish that overtakes the reply of `turn/start`, the turn is active if and only if none of these has come since: the finish itself never ends it |
| ServerModel.WaitsExactly | packages/agent-server/src/server.ts:484-502 | over every run, an action waits if and only if its gate event was registered while its run was known and nothing has answered, replaced or dropped it since |
| ServerModel.AnsweredAtMostOncePerRegistration | packages/agent-server/src/server.ts:459-468 | over every run and whichever connections race, answers plus the waiting action never exceed the registrations of an id |
| ServerModel.AnswerAcceptedExactly | packages/agent-server/src/server.ts:326-359 | over every run, an answer is passed on if and only if its payload is valid for its kind, such an action waits under its id, and the responder is trusted or holds the account the session had at the registration; otherwise nothing changes |
| ServerHistory.RunsExactly | packages/agent-server/src/server.ts:454-502 | over every run, the session a run id stands for, by the starts, sub-agent notices, finishes and deletions alone |
| ServerHistory.AccountsExactly | packages/agent-server/src/server.ts:245-256 | over every run, the account of a session: of its last creation, else of the first turn started in it, since its last deletion |
| ServerHistory.AnswersByPayload | packages/agent-server/src/server.ts:326-359 | over every run exactly the answers are passed on whose payload is one of those written out there, to a waiting action of their kind, from a trusted responder or the account its session had; any other changes nothing |
| ServerHistory.WaitsForTheAccount | packages/agent-server/src/server.ts:484-492 | what waits for an answer waits in the session its run stood for, and for the account that session had, when the gate was reached |
| Delivery.ScopeKeysDiffer | packages/agent-server/src/server.ts:641-645 | different subscription scopes have different keys |
| Delivery.SubscribedToWholeTurn | packages/agent-server/src/server.ts:546-560 | while its runs are unfinished, a connection subscribed to a run is subscribed to every run announced below it |
| Delivery.TurnEventsArrive | packages/agent-server/src/server.ts:546-560 | so each event of the turn that it takes is handed to its queue |
| Feed.NoTurnNoticeIsLost | packages/agent-server/src/server.ts:546-586 | end to end: while the connection is open, what it has sent, is sending and has queued holds, in order, every notice of the turn that it takes, but for deltas that found the queue full |
| Subscriptions.SubscriptionsExactly | packages/agent-server/src/server.ts:386-397 | over every sequence of acts a connection is subscribed to a scope if and only if it subscribed, or a sub-agent below a run it was subscribed to was announced, and it has not unsubscribed since |
| Subscriptions.ReceivesExactly | packages/agent-server/src/server.ts:546-560 | over every sequence of acts it gets an event if and only if it has not opted out of its notice and is, by that history, subscribed to the account, the session, the run or the parent run |
| Subscriptions.SubscribersHearEverything | packages/agent-server/src/server.ts:546-560 | a connection that has subscribed to a session, or to the account, and not unsubscribed since gets every event of that session, or of any, unless it opted out |
| Feed.FeedExactly | packages/agent-server/src/server.ts:546-586 | while a connection is open, what it has sent, is sending and has queued is exactly the notices of the events it gets and the replies, in order, less what found the queue full |
| Feed.OnlyDeltasAreMissing | packages/agent-server/src/server.ts:562-571 | and no reply and no notice but a text or reasoning delta is missing there |
| Delivery.SpawnsChangeNothing | apps/cli/src/headless/run.ts:94-97 | counting spawn notices as well as starts gives the same set once every spawn is followed by its start |
| Delivery.OnlyTheTurn | packages/agent-server/src/server.ts:546-560 | a connection that subscribed to one run is subscribed to nothing but its descendants |
| Delivery.HostsAgreeOnTheTurn | apps/cli/src/headless/run.ts:62-97 | the server's growing subscriptions and the headless host's `turnRuns` are the same set |
| Delivery.TerminalShowsTheTurn | apps/cli/src/tui-otui/event-routing.ts:14-26 | the terminal shows an event if and only if its run is in that set, it is an infrastructure error, it is a todo list of the open session, or it carries no run id |
| Delivery.LateSubscriberFollowsExactly | packages/agent-server/src/server.ts:386-397 | a connection that subscribes to a run in mid-turn follows the whole turn if and only if no sub-agent of it had been announced by then |
| Delivery.LateSubscriberMissesSubAgents | packages/agent-server/src/server.ts:386-397 | an instance: the sub-agent announced before the subscription stays unheard |
| Headless.OpenTurnAnswersItsGates | apps/cli/src/headless/run.ts:89-130 | until the turn ends, every gate of its run tree has been answered by policy, once and in order, and no gate of another run has |
| Headless.ExitCodeExactly | apps/cli/src/headless/run.ts:68-140 | the first signal that ends the turn, and whether a gate of the run tree was refused before it, decide the exit code; later signals change nothing |
| HeadlessPolicy.RejectAllRefuses | apps/cli/src/headless/run.ts:89-140 | under the default policy every approval and plan of the turn is refused, every question dismissed, by id and in order, and a finished turn exits with 4 if and only if it met an approval or a plan |
| HeadlessPolicy.AutoGrants | apps/cli/src/headless/run.ts:89-140 | under `auto` every approval and plan is granted, once or for the session, and a finished turn exits with 0 |
| HeadlessPolicy.Argv0Exactly | apps/cli/src/headless/policy.ts:104-111 | the executable of a command line is its first word |
| HeadlessPolicy.FileGrantsExactly | apps/cli/src/headless/policy.ts:73-102 | a permission file grants a call, and then for the session, if and only if it does not require approval for the tool and lists its executable without denying it, its host, or a directory above its path |
| ApprovePolicy.WiderGrantsMore | apps/cli/src/headless/policy.ts:73-102 | a permission file that allows more grants whatever a narrower one grants, and one that allows nothing grants nothing |
| ApprovePolicy.WithinPathExactly | apps/cli/src/headless/policy.ts:137-142 | the comparison of resolved paths as texts is the prefix order on their components |
| Headless.HeadlessTurn.OnSignal | apps/cli/src/headless/run.ts:89-140 | the handler in place, as the function `Handle` |
| Headless.HeadlessTurn.End | apps/cli/src/headless/run.ts:69-76 | the exit code is set once |
| Access.MoveKeepsIsolation | packages/agent-server/src/server.ts:404-448 | every request and event keeps untrusted connections on sessions they own |
| Access.RunsAreIsolated | packages/agent-server/src/server.ts:386-448 | over every run of a host whose run ids belong to one session each |
| Access.OnlyOwnSessions | packages/agent-server/src/server.ts:546-560 | an untrusted connection receives only events of sessions it created or was checked for, with an account only of its own namespace |
| AccessHistory.LinksExactly | packages/agent-server/src/server.ts:88-92 | over every run a connection is there if and only if it was made, with the authority and the opt-outs it came with |
| AccessHistory.SessionsExactly | packages/agent-server/src/server.ts:245-256 | over every run a session is there if and only if a connection created it and none that was checked for it has deleted it since |
| AccessHistory.PermissionsExactly | packages/agent-server/src/server.ts:404-448 | over every run a connection has been checked for a session if and only if it created it or asked for it, or for one of its runs, while it was there and its own, and may subscribe to exactly the scopes it was checked for |
| AccessHistory.MovesAreActs | packages/agent-server/src/server.ts:386-448 | every move does to the books and to a connection what its acts do in `Delivery`, so that what is proved about who gets which event holds behind the access checks |
| Access.CreatedExactly | packages/agent-server/src/server.ts:404-448 | a session is created in the namespace of an untrusted connection’s account, else in the one it asks for |
| Access.OwnersHearExactly | packages/agent-server/src/server.ts:404-448 | a connection that has itself checked for a session and subscribed to it hears its events if and only if it is trusted or the session lives in its account’s namespace |
| Access.MixedIdsLeak | packages/agent-server/src/server.ts:647-655 | an event that names a run of one session and another session's id reaches subscribers of the run: the hypothesis is needed |
| Outbox.EnqueueKeepsOrder | packages/agent-server/src/server.ts:562-571 | taking, dropping or overflowing on a message keeps the queue's accounts |
| Outbox.SendKeepsOrder | packages/agent-server/src/server.ts:573-586 | so does the completion of a send |
| Outbox.QueueIsLossless | packages/agent-server/src/server.ts:562-586 | over every schedule: one send at most in flight, the cap respected, and sent, in flight and queued together are what was handed in less deltas refused on overflow |
| Outbox.ClosedExactly | packages/agent-server/src/server.ts:525-586 | over every schedule the queue is closed if and only if it was closed, a send failed or anything but a delta met a full queue |
| Outbox.NothingAfterClosing | packages/agent-server/src/server.ts:562-586 | a closed queue is empty, takes nothing and starts no send |
| Outbox.OnlyDeltasAreRefused | packages/agent-server/src/server.ts:562-571 | a queue that stays open refuses nothing but text and reasoning deltas: no reply and no other notice |
| Outbox.QueueDrains | packages/agent-server/src/server.ts:573-586 | if sends complete, a queue of n messages is empty after n + 1 of them |
| AppServer.Connection.Subscribe | packages/agent-server/src/server.ts:538-540 | add a scope |
| AppServer.Connection.Unsubscribe | packages/agent-server/src/server.ts:542-544 | drop a scope |
| AppServer.Connection.Close | packages/agent-server/src/server.ts:525-530 | close once: empty the queue and close the transport exactly then |
| AppServer.Connection.Enqueue | packages/agent-server/src/server.ts:562-571 | queue, drop or close, then start the flusher, as the function `Outbox.Apply` |
| AppServer.Connection.Flush | packages/agent-server/src/server.ts:573-586 | one flusher at a time |
| AppServer.Connection.SendDone | packages/agent-server/src/server.ts:577-580 | a completed send takes the next message |
| AppServer.Connection.SendFailed | packages/agent-server/src/server.ts:581-585 | a failed send closes the connection |
| AppServer.Connection.Deliver | packages/agent-server/src/server.ts:546-560 | deliver what is subscribed and follow announced sub-agents |
| AppServer.Server.Register | packages/agent-server/src/server.ts:88-92 | a new connection joins the open ones |
| AppServer.Server.Disconnect | packages/agent-server/src/server.ts:525-531 | a connection that closes is closed once and leaves the server, which keeps only open connections |
| AppServer.Server.Emit | packages/agent-server/src/server.ts:533-571 | a reply is queued, dropped or closes the connection, which then leaves |
| AppServer.Server.LoseTransport | packages/agent-server/src/server.ts:573-586 | a failed send closes the connection, which then leaves |
| AppServer.Server.TrackRun | packages/agent-server/src/server.ts:454-457 | map a run to its session, keeping a known account |
| AppServer.Server.ClearRun | packages/agent-server/src/server.ts:494-502 | the two loops remove exactly the run's turns and actions |
| AppServer.Server.SessionDelete | packages/agent-server/src/server.ts:245-256 | the loop over the runs of the session, as the function `SessionDeleted` |
| AppServer.Server.RegisterPending | packages/agent-server/src/server.ts:484-492 | approval, question and plan events wait under their id |
| AppServer.Server.Broadcast | packages/agent-server/src/server.ts:478-480 | each connection handles the event as `Deliver` says, and stays registered if and only if it has not closed |
| AppServer.Server.HandleHostEvent | packages/agent-server/src/server.ts:470-482 | route, track, register, deliver and clear, in that order |
| AppServer.Server.TurnStart | packages/agent-server/src/server.ts:311-315 | track the run, make it the active turn, subscribe the caller |
| AppServer.Server.ClaimPending | packages/agent-server/src/server.ts:459-468 | take an action or say why not |
| Rpc.EveryRequestSettlesAtMostOnce | packages/agent-client/src/client.ts:77-99 | whatever the peer sends and whenever the connection ends, each issued id is pending or settled, never both, settles at most once, and a closed client has none pending |
| RpcOutcomes.FatesExactly | packages/agent-client/src/client.ts:77-99 | over every sequence of calls an issued id settles with what the first call about it says, a reply, a failed send or the end, and the notifications are emitted in order |
| Rpc.OneReplyPerRequest | packages/agent-server/src/server.ts:104-117 | whatever arrives and in whatever order the work ends, each arrival is answered at most once, under its own id or null when none can be read, and is answered once its work is over |
| RpcOutcomes.AnswersExactly | packages/agent-server/src/server.ts:104-117 | over every run each answer is the one its arrival calls for: the code of its fault, by whether the connection had been opened, or what its work came to |
| Rpc.WorkStartsExactlyAfterOpening | packages/agent-server/src/server.ts:104-117 | over every run exactly the requests after the first `initialize` with a valid client are worked on, and an `initialize` succeeds if and only if it is that one and its opt-out list can be read |
| Rpc.WorkFollowsSuccessExactly | packages/agent-server/src/server.ts:170-184 | work is done only after a successful `initialize` if and only if the one that opens the connection has a readable opt-out list or no request follows it |
| Rpc.RefusedInitializeOpens | packages/agent-server/src/server.ts:170-184 | an `initialize` with an unreadable opt-out list fails, and the next request is answered with a result |
| RpcLink.RepliesReachTheirRequests | packages/agent-client/src/client.ts:218-263 | over every interleaving on one connection a promise settles with the reply to the only request with its id, and none waits once the open connection has nothing under way |
| RpcChannel.ChannelsExactly | packages/agent-client/src/client.ts:218-263 | until the connection breaks, the server has gone through the requests that left the client and the client through what the server sent, in order and once, but for what is still on its way |
| RpcChannel.AfterTheBreak | packages/agent-client/src/client.ts:77-92 | a break loses what was on its way, and the client never changes again |
| AgentClient.AgentClient.Request | packages/agent-client/src/client.ts:218-226 | a fresh id, or a rejection once closed |
| AgentClient.AgentClient.SettleOne | packages/agent-client/src/client.ts:227-233 | settle a pending id and forget it; ignore any other |
| AgentClient.AgentClient.Handle | packages/agent-client/src/client.ts:237-263 | notifications, unusable text and replies |
| AgentClient.AgentClient.RejectAllPending | packages/agent-client/src/client.ts:94-99 | the loop rejects every pending request, in order |
| AgentClient.AgentClient.Shut | packages/agent-client/src/client.ts:77-92 | `close` and `handleDisconnect` end the client once |
| CleanModel.SweepKeepsSupported | skills/pptx/scripts/clean.py:133-223 | a round removes no file of a self-supporting set |
| CleanModel.StableIsSupported | skills/pptx/scripts/clean.py:255-262 | a round that removes nothing has reached a self-supporting set |
| CleanModel.GreatestIsUnique | skills/pptx/scripts/clean.py:246-269 | there is one largest such set, so no directory order can change the result |
| CleanModel.TargetsSurvive | skills/pptx/scripts/clean.py:158-173 | a managed part that a surviving relationships file targets survives |
| CleanModel.OthersSurvive | skills/pptx/scripts/clean.py:176-223 | files of no swept kind are never removed |
| CleanModel.MatchesExactly | skills/pptx/scripts/clean.py:65 | a file name matches a pattern if and only if something, or nothing, stands for its `*` |
| CleanModel.OwnerOfItsRels | skills/pptx/scripts/clean.py:144 | a part owns the relationships file that is named after it |
| CleanOutcome.PartLeftExactly | skills/pptx/scripts/clean.py:176-223 | after the sweep a file of `ppt/<dir>` is left if and only if it was there and, where the directory is swept, a relationships file that is left targets it |
| CleanOutcome.RelsLeftExactly | skills/pptx/scripts/clean.py:133-223 | and a relationships file if and only if it was there and its owner is left, for charts, diagrams and drawings on a slide as well |
| CleanModel.StableSubsetCanBeLost | skills/pptx/scripts/clean.py:193-203 | support is relative to the files at the start: a relationships file of a theme that was never there is left alone |
| Clean.ThreePasses | skills/pptx/scripts/clean.py:176-223 | content, themes and notes, one after the other, remove exactly what one round removes |
| Clean.Package.SlideReferenced | skills/pptx/scripts/clean.py:111-130 | what slides reference |
| Clean.Package.Referenced | skills/pptx/scripts/clean.py:158-173 | what any relationships file targets |
| Clean.Package.RemoveOrphanedRels | skills/pptx/scripts/clean.py:133-155 | relationships files whose owner is gone or unreferenced, each listed once |
| Clean.Package.RemoveOrphanedFiles | skills/pptx/scripts/clean.py:176-223 | the unreferenced parts with their relationships files, each listed once |
| Clean.Package.SweepAll | skills/pptx/scripts/clean.py:255-264 | the loop ends, in the largest self-supporting subset of the files it started from, and lists what it removed once each |
| CleanSlides.ListedExactly | skills/pptx/scripts/clean.py:30-51 | a slide is listed if and only if the presentation and its relationships are there and it is the last slide given for an id that the slide list shows |
| CleanSlides.ListedByTarget | skills/pptx/scripts/clean.py:45-46 | by the text of the targets: a file name is listed if and only if the last slide for an id that is shown has the target `slides/` with that name, as long as no target repeats `slides/` |
| CleanSlides.RepeatedDirectoryIsListed | skills/pptx/scripts/clean.py:46 | a target that repeats `slides/` lists the file of that name outside: the hypothesis is needed |
| CleanSlides.KeptByTarget | skills/pptx/scripts/clean.py:79-87 | a relationship below `slides/` stays if and only if the file it names is listed |
| CleanSlides.OtherSpellingStays | skills/pptx/scripts/clean.py:79-87 | a relationship whose target is not written `slides/…` stays although its slide goes |
| Clean.Package.SlidesListed | skills/pptx/scripts/clean.py:30-51 | the loop over the relationships, as the function |
| Clean.Package.UnlinkSlides | skills/pptx/scripts/clean.py:75-91 | the presentation's relationships to unlisted slides go, in the text of their targets, and its links follow |
| Clean.Package.RemoveOrphanedSlides | skills/pptx/scripts/clean.py:54-93 | slides the presentation does not list, their relationships files, and, only if one went, their entries |
| Clean.ListedSlidesStay | skills/pptx/scripts/clean.py:62-73 | no sweep touches a slide: those left are the listed ones |
| Clean.Package.RemoveTrash | skills/pptx/scripts/clean.py:96-108 | the trash directory |
| Clean.Package.UpdateContentTypes | skills/pptx/scripts/clean.py:226-243 | drop the overrides of removed files, keep the order of the rest |
| Clean.Package.CleanUnusedFiles | skills/pptx/scripts/clean.py:246-269 | the whole clean-up: the slides left are the listed ones, by the text of the targets where none repeats `slides/`, the rest is the greatest self-supporting set by the links there were, less the entries of removed slides, each removed file is listed once, and content types follow |
| SplitLimits.SplitTerminates | apps/gateway/src/render/split.ts:19-41 | the loop ends if no line with a fence marker is longer than `max - 2` |
| SplitLimits.DoneExactlyIfLoopReturns | apps/gateway/src/render/split.ts:19-41 | the split is done if and only if the loop returns after some number of iterations |
| SplitLimits.StuckExactly | apps/gateway/src/render/split.ts:19-41 | a whole call never ends if and only if some iteration it reaches takes nothing |
| SplitLimits.TakingNothingRepeats | apps/gateway/src/render/split.ts:20-39 | an iteration that takes nothing leaves both variables as they were, and so is repeated for ever |
| SplitLimits.TakesNothingExactly | apps/gateway/src/render/split.ts:20-55 | an iteration takes nothing if and only if the budget is zero, or negative with one character left, or -1 with only a space in front to break at |
| SplitLimits.LongFenceLineSticks | apps/gateway/src/render/split.ts:20-39 | for every limit of four or more, a fence line one character longer than the hypothesis allows gets there |
| SplitLimits.ShortFencesMeansShortLines | apps/gateway/src/render/split.ts:61-70 | a bound on the lines with a fence marker is a bound on every part of a line the splitter may reopen |
| SplitProofs.SplitLosesNothing | apps/gateway/src/render/split.ts:25-39 | the bodies of the chunks with the newlines dropped between them are the text |
| SplitLimits.PiecesFitExactly | apps/gateway/src/render/split.ts:9-43 | a chunk is longer than the limit if and only if its closing fence did not fit or it was cut with a negative budget, and in the first case by at most four |
| SplitLimits.PiecesFit | apps/gateway/src/render/split.ts:20-38 | with short fence lines a chunk is at most `max` long, four more if it closes a fence |
| SplitLimits.PlainTextFits | apps/gateway/src/render/split.ts:9-43 | a text without a fence marker is split completely, into chunks within the limit |
| SplitLimits.OverlongChunk | apps/gateway/src/render/split.ts:27-34 | for every limit of seven or more, a chunk four characters too long |
| SplitLimits.HardCutOverflows | apps/gateway/src/render/split.ts:46-55 | the same for a text in which no line starts with a fence marker |
| SplitLimits.NegativeBudgetRunsOver | apps/gateway/src/render/split.ts:20-39 | for every limit of three or more, a split that ends with a chunk eight characters too long, cut with a negative budget |
| SplitProofs.PiecesAreLinked | apps/gateway/src/render/split.ts:29-37 | each chunk reopens exactly the fence line its predecessor left open |
| SplitProofs.OnlyTheLastMayDangle | apps/gateway/src/render/split.ts:29-37 | every chunk but the last leaves no fence open |
| SplitProofs.FenceMeaningKept | apps/gateway/src/render/split.ts:19-42 | if all cuts fall on newlines, the lines of the text, with their fence states, are the lines of the chunks with theirs |
| SplitProofs.ChunkShows | apps/gateway/src/render/split.ts:27-37 | a chunk read on its own shows its lines in those states, between the reopening and the closing line |
| SplitProofs.SplitKeepsTheText | apps/gateway/src/render/split.ts:10-43 | all of it for a whole call |
| SplitProofs.HardCutCanOpenAFence | apps/gateway/src/render/split.ts:46-55 | a cut inside a line can turn prose into a fence: the condition on cuts is needed |
| SplitProofs.HardCutKeepsStateExactly | apps/gateway/src/render/split.ts:46-70 | exactly when a cut inside a line leaves the rest of the text in the fence state it has in the source |
| SplitModel.ReopenedState | apps/gateway/src/render/split.ts:27-37 | behind a reopened fence line a body is in the state it has in the source |
| SplitModel.ClosedState | apps/gateway/src/render/split.ts:32-34 | the closing line closes what is open |
| Split.DanglingFence | apps/gateway/src/render/split.ts:61-70 | the loop over the lines, as the function |
| Split.BestCut | apps/gateway/src/render/split.ts:46-55 | the three searches in the window, for any budget |
| SplitCuts.BestCutIsNatural | apps/gateway/src/render/split.ts:46-55 | for every positive budget a cut is at the last paragraph that starts in the second half of the budget, else the last line, else the last space, else at the budget |
| SplitCuts.ShortTextsAreWhole | apps/gateway/src/render/split.ts:10-12 | a text within the limit, and any text where the limit is zero or less, is one chunk; an empty one within it is none |
| SplitCuts.ChunksAreCutWell | apps/gateway/src/render/split.ts:19-43 | every chunk of every split that ends is cut so, or takes all that is left, and no chunk is followed by a newline |
| Split.NextChunk | apps/gateway/src/render/split.ts:25-39 | one iteration emits one piece and shortens the text |
| Split.SplitForLimit | apps/gateway/src/render/split.ts:10-43 | the loop emits the pieces of the function; `stuck` exactly where an iteration takes nothing, which the source repeats for ever |
| Renderer.TurnsAreSound | apps/gateway/src/render/chat-render.ts:97-236 | over every schedule the queued previews, files and marks fit together |
| Renderer.EndingDelivers | apps/gateway/src/render/chat-render.ts:140-161 | when a turn ends, the whole trimmed answer is delivered, as one message or as one file with exactly that text, if and only if the turn has not hung |
| Renderer.HangsExactly | apps/gateway/src/render/chat-render.ts:194-205 | a turn hangs if and only if it streams and a tick or end up to its end flushes a text that the splitter never finishes |
| Renderer.ShortLinesNeverHang | apps/gateway/src/render/chat-render.ts:194-205 | it never does if no line with a fence marker in the answer is longer than `maxChars - 2` |
| Renderer.HungTurnsDeliverNothing | apps/gateway/src/render/chat-render.ts:194-223 | where a turn hangs, its answer is too long for one message and no file has gone out |
| Renderer.LongFenceLineHangs | apps/gateway/src/render/chat-render.ts:194-205 | for every limit of four or more, an answer that hangs its turn, so that nothing reaches the platform |
| Renderer.NothingAfterTheEnd | apps/gateway/src/render/chat-render.ts:98-179 | what comes later adds nothing |
| Renderer.OneFileOneLiveMessage | apps/gateway/src/render/chat-render.ts:194-236 | at most one file, and the live message is created at most once, over every schedule |
| RenderDelivery.MessagesExactly | apps/gateway/src/render/chat-render.ts:127-161 | for every schedule that does not hang, the messages besides the live one are the extras handed in before the end, the answer unless it fits the live message, and the error, in that order |
| RenderDelivery.LiveExactly | apps/gateway/src/render/chat-render.ts:194-205 | there is a live message if and only if the platform edits and something has been flushed, and it shows the first chunk of what was flushed last |
| RenderDelivery.TickShows | apps/gateway/src/render/chat-render.ts:168-205 | after a tick of a streaming turn the live message shows the first chunk of what has been said |
| RenderDelivery.EverythingRuns | apps/gateway/src/render/chat-render.ts:283-285 | as many steps as operations are queued deliver all of them |
| RenderDelivery.ArrivedStays | apps/gateway/src/render/chat-render.ts:199-205 | a message that has arrived stays where it is, and only the live one is edited |
| ChatRender.ConversationRenderer.AppendText | apps/gateway/src/render/chat-render.ts:98-102 | text is added until the end |
| ChatRender.ConversationRenderer.Deliver | apps/gateway/src/render/chat-render.ts:127-137 | a notice or a payload joins the chain |
| ChatRender.ConversationRenderer.Tick | apps/gateway/src/render/chat-render.ts:168-176 | the timer signals and flushes |
| ChatRender.ConversationRenderer.Flush | apps/gateway/src/render/chat-render.ts:194-223 | preview, whole message or file |
| ChatRender.ConversationRenderer.DeliverLong | apps/gateway/src/render/chat-render.ts:230-236 | a long answer goes out as a file once |
| ChatRender.ConversationRenderer.Finish | apps/gateway/src/render/chat-render.ts:140-147 | end, flush, stop typing |
| ChatRender.ConversationRenderer.Fail | apps/gateway/src/render/chat-render.ts:150-161 | end, flush what there is, then the error |
| ChatRender.ConversationRenderer.RunOne | apps/gateway/src/render/chat-render.ts:283-285 | queued effects run one after another |
| Supervisor.StartsAreBounded | apps/desktop/src/main/supervisor.ts:204-244 | between re-arms and stable runs there are at most `crashLoopLimit` automatic starts, each paid for by a counted crash |
| Supervisor.PollStartsOnlyWhenArmed | apps/desktop/src/main/supervisor.ts:216-232 | a poll starts the process only with the fuse intact, not stopped by hand, after a crash and below the limit; a blown fuse stays |
| Supervisor.BackoffIsHonoured | apps/desktop/src/main/supervisor.ts:218-232 | with non-decreasing delays the n-th automatic start comes at least the first n delays after the first counted crash |
| Supervisor.FusedExactly | apps/desktop/src/main/supervisor.ts:204-244 | over every run the fuse is blown if and only if a crash streak has blown it and no start by hand has come since; stable runs and stops leave it |
| Supervisor.BlownFuseHolds | apps/desktop/src/main/supervisor.ts:204-238 | once it has blown, no poll starts the process until a start by hand, whatever happens in between |
| CrashLoop.RunsAndTheCount | apps/desktop/src/main/supervisor.ts:209-214 | a poll that finds the process up for less than `stableMs` leaves the crash count, any other resets it |
| CrashLoop.RoundStartsOnce | apps/desktop/src/main/supervisor.ts:204-238 | a counted crash is answered by exactly one start, at the first poll after its delay |
| CrashLoop.CrashesAreRestarted | apps/desktop/src/main/supervisor.ts:204-238 | so up to the limit every crash of a loop of short runs is restarted |
| CrashLoop.OneCrashTooMany | apps/desktop/src/main/supervisor.ts:218-224 | and one more blows the fuse, after as many starts as the limit |
| CrashLoop.LaunchesAreBounded | apps/desktop/src/main/supervisor.ts:204-238 | without a long run and a start by hand there are never more |
| CrashLoop.StartsCountFromZero | apps/desktop/src/main/supervisor.ts:145-151 | such a streak counts from zero at the beginning and after every start by hand |
| CrashLoop.StopHolds | apps/desktop/src/main/supervisor.ts:153-159 | after a stop by hand no poll starts the process |
| CrashLoop.PlanIsDropped | apps/desktop/src/main/supervisor.ts:209-238 | a poll that finds the process up or stopped drops a planned restart |
| CrashLoop.StartsShow | apps/desktop/src/main/supervisor.ts:145-151 | every start shows as a restart |
| CrashLoop.RestartingExactly | apps/desktop/src/main/supervisor.ts:213-216 | until a poll finds the process answering, or up for too long without |
| Supervisor.SidecarSupervisor.ManualStart | apps/desktop/src/main/supervisor.ts:145-151 | re-arm and start |
| Supervisor.SidecarSupervisor.ManualStop | apps/desktop/src/main/supervisor.ts:153-159 | stop and forget a planned restart |
| Supervisor.SidecarSupervisor.Rearm | apps/desktop/src/main/supervisor.ts:240-244 | put the fuse back |
| Supervisor.SidecarSupervisor.Poll | apps/desktop/src/main/supervisor.ts:204-238 | one poll, as the function `Tick`, and whether it started the process |
| Connection.RunsAreFenced | apps/desktop/src/main/connection.ts:50-149 | over every interleaving the client belongs to the current generation's open socket, at most one retry timer is pending, and while a server is wanted and its key not refused there is exactly one of an open socket and a timer |
| ConnectionLife.ClientExactly | apps/desktop/src/main/connection.ts:90-185 | over every run the manager has the client of a socket if and only if the socket was dialled, reported open and shook hands, and since it was dialled it has not failed or closed, no target been set and nothing shut down |
| ConnectionLife.FirstConnection | apps/desktop/src/main/connection.ts:96-165 | such a run: a target, an opened socket, a handshake |
| ConnectionLife.TargetIsDialled | apps/desktop/src/main/connection.ts:50-59 | a new target is dialled at once and nothing else is under way |
| ConnectionLife.CloseIsRetried | apps/desktop/src/main/connection.ts:144-198 | a close of the current socket plans a retry, and the retry dials the same target |
| ConnectionLife.RefusalsByStatus | apps/desktop/src/main/connection.ts:123-143 | a refused upgrade with status 401 or 403 ends the trying, any other plans a retry |
| ConnectionLife.RetryExactly | apps/desktop/src/main/connection.ts:188-198 | the count that picks the delay is the number of retries since the target was set or a handshake gave a client |
| Connection.NoRedialAfterTheEnd | apps/desktop/src/main/connection.ts:90-143 | disposal and refused keys, and only they, end the trying; after them nothing dials until a target is set |
| Connection.FailureBehindTheClose | apps/desktop/src/main/connection.ts:144-185 | a close in the middle of a handshake makes it fail behind the close, and that changes nothing |
| Connection.LateHandshakeResurrects | apps/desktop/src/main/connection.ts:151-167 | a handshake that succeeded after its socket's close would leave a client on a dead socket: the hypothesis is needed |
| Connection.ConnectionManager.Aim | apps/desktop/src/main/connection.ts:50-59 | fence what is under way and dial the new target, if any |
| Connection.ConnectionManager.Shut | apps/desktop/src/main/connection.ts:90-94 | forget the target and fence |
| Connection.ConnectionManager.DialTarget | apps/desktop/src/main/connection.ts:96-109 | a new generation and a new socket |
| Connection.ConnectionManager.OnOpen | apps/desktop/src/main/connection.ts:111-114 | handshake only in the current generation |
| Connection.ConnectionManager.OnUnexpectedResponse | apps/desktop/src/main/connection.ts:123-143 | give up on 401 and 403, retry on any other status |
| Connection.ConnectionManager.OnClose | apps/desktop/src/main/connection.ts:144-148 | drop the client and retry |
| Connection.ConnectionManager.OnHandshake | apps/desktop/src/main/connection.ts:151-167 | take the client if its generation is current |
| Connection.ConnectionManager.OnHandshakeError | apps/desktop/src/main/connection.ts:173-185 | give up on a refused key, otherwise let the close retry |
| Connection.ConnectionManager.RetryFor | apps/desktop/src/main/connection.ts:188-198 | a timer, if the target is still the same |
| Connection.ConnectionManager.OnTimer | apps/desktop/src/main/connection.ts:196-197 | dial again |
| Connection.ConnectionManager.DisposeSocket | apps/desktop/src/main/connection.ts:200-212 | next generation, no timer, no client |
| Transfer.ReadArtifact | packages/agent/src/index.ts:569-588 | the read loop delivers the bytes inside the clamped range, however few come at a time, and says whether more follow |
| Transfer.ServeRange | packages/agent/src/index.ts:555-589 | so the reply is the served page |
| Transfer.FetchAll | apps/desktop/src/main/index.ts:145-161 | the paging loop writes exactly the bytes of an unchanging file within the limit, in as many requests as its pages; one page from a host without ranges; nothing beyond the limit |
| Transfer.RequestsIsTheCeiling | apps/desktop/src/main/index.ts:146-161 | that number is the least, at least one, of pages that hold the file |
| Transfer.Disk.DownloadTo | apps/desktop/src/main/index.ts:137-173 | the target file is the downloaded one, or is gone if the download was given up |
| Transfer.PigeonHole | packages/agent/src/index.ts:603-604 | with n names taken the first n + 1 candidate names cannot all be among them |
| UploadNames.NameIsFit | packages/agent/src/index.ts:958-971 | whatever is sent, the name is not empty and holds no slash, control or refused character |
| UploadNames.NameFitsExactly | packages/agent/src/index.ts:965-970 | the name is within 120 characters if and only if it was before the cut or its extension is; otherwise the cut makes it 120 longer |
| UploadNames.LongExtensionGrows | packages/agent/src/index.ts:966-969 | such names, for every length of the extension above 120 |
| UploadNames.KeptExactly | packages/agent/src/index.ts:958-971 | a name is stored unchanged if and only if it is fit, trimmed, without a leading dot and within 120 characters |
| UploadNames.SweptJoins | packages/agent/src/index.ts:958-971 | the name is swept character by character |
| UploadNames.SweptCharacter | packages/agent/src/index.ts:958-971 | a slash becomes an underscore, an unfit character goes, any other stays |
| UploadNames.LeadingDots | packages/agent/src/index.ts:958-971 | all the dots in front become one underscore |
| UploadNames.TidyIsTheName | packages/agent/src/index.ts:958-971 | a tidy result is the name and a blank one becomes `file` |
| UploadNames.LongNamesKeepTheirExtension | packages/agent/src/index.ts:966-969 | a name with one dot that is too long keeps its front and its whole extension, if that is shorter than the limit |
| Transfer.Disk.UploadFile | packages/agent/src/index.ts:591-610 | the first free candidate of the cleaned name is used within one probe more than there are names in the way, nothing is overwritten, and too large an upload changes nothing |
| SessionTree.ListIsPreorder | packages/agent/src/index.ts:990-1002 | the terminal's indented list is the preorder of the host's nested tree, depths included |
| SessionTree.ListedOnceAtItsDepth | apps/cli/src/tui-otui/views.tsx:233-243 | an entry is listed if and only if its parent links lead to the top: once, as many levels down as links |
| SessionTree.HeadPathExactly | apps/cli/src/core/trace.ts:892-903 | the active path is the one chain of parent links that ends at the head, has a summary at most at its start and cannot be extended |
| SessionTree.ClimbFromHead | packages/agent/src/storage/session-store.ts:92-105 | the climbing loop and the reversal compute that path |
| SessionTree.PathLengthIsDepth | apps/cli/src/core/trace.ts:892-903 | where no summary cuts it, the path is one longer than the entry's depth in the list |
| SessionStore.ReloadAgreesExactly | packages/agent/src/storage/session-store.ts:44-69 | over every history a reload brings back the same tree, index, labels and root, and the same head if and only if the log does not end on an entry appended without moving it |
| SessionStore.TreesAreOrdered | packages/agent/src/storage/session-store.ts:119-161 | every tree the store builds has parents before children, and its child index lists what a scan finds |
| SessionHistory.StoreExactly | packages/agent/src/storage/session-store.ts:119-179 | for every history, reloads included: the entries are those appended, each under the parent it names or else under the head of that moment, and head, root and labels are the ones last given |
| SessionChain.ConversationIsAChain | packages/agent/src/storage/session-store.ts:119-161 | after any history, messages that name no parent and move the head form a chain under the head there was, and the active path is the old one with all of them behind it, from the last summary on |
| SessionChain.SideEntriesKeepThePath | packages/agent/src/storage/session-store.ts:157-161 | an entry that does not move the head leaves the active path alone |
| SessionChain.PathHoldsAll | packages/agent/src/storage/session-store.ts:119-161 | without a summary the path holds the whole conversation |
| SessionStore.SessionStoreObject.Load | packages/agent/src/storage/session-store.ts:44-69 | the loop over the lines is the fold |
| SessionStore.SessionStoreObject.AppendEntry | packages/agent/src/storage/session-store.ts:119-161 | log and tree grow together |
| SessionStore.SessionStoreObject.Point | packages/agent/src/storage/session-store.ts:163-166 | move the head, in log and memory |
| SessionStore.SessionStoreObject.AddLabel | packages/agent/src/storage/session-store.ts:168-171 | label an entry, in log and memory |
| SessionStore.SessionStoreObject.Fork | packages/agent/src/storage/session-store.ts:174-179 | point at a known entry, refuse an unknown one |
| McpForm.ParseIsClean | apps/cli/src/tui-otui/views.tsx:1052-1064 | whatever is typed, no key or value read from it holds a separator or an outer space |
| McpForm.PairsRoundTripExactly | apps/cli/src/tui-otui/views.tsx:1052-1071 | a record survives printing and parsing if and only if it is clean |
| McpForm.ReferencesAre | apps/cli/src/tui-otui/views.tsx:1052-1064 | a value is read as a reference to what stands between `${` and `}` if that is not empty and on one line, and any other as it is |
| McpForm.ReopeningIsStable | apps/cli/src/tui-otui/views.tsx:1052-1071 | parsing, printing and parsing again changes nothing, for any text |
| McpForm.ParsePairs | apps/cli/src/tui-otui/views.tsx:1052-1064 | the loop over the parts, as the function `Parse` |
| McpForm.ArgsRoundTripExactly | apps/cli/src/tui-otui/views.tsx:1084-1085 | an argument list survives joining and splitting if and only if every argument is a word |
| McpForm.BuildMcpConfig | apps/cli/src/tui-otui/views.tsx:1074-1096 | the assembly, field by field, with its four refusals |
| McpForm.FormRoundTripExactly | apps/cli/src/tui-otui/views.tsx:1033-1096 | opening the form on a configuration and saving it gives it back if and only if the configuration is normal |

## Left out

- TracePlacement.RunKeepsPlacement: assumes that no `tool-call` re-announces a call id whose node holds something. The condition is exact for each event; `TraceStreams.CallsFirstAreFresh` gives it from the stream alone.
- TraceRehome.RunKeepsRoot: assumes that sub-agents start after the root and do not take its name; `TraceStreams.OrchestratorFirstIsGuided` gives it from the stream alone.
- Delivery.HostsAgreeOnTheTurn: assumes that every spawn notice is followed at once by its start, that the connection takes the sub-agent notices, and that it subscribed before them.
- Headless.ExitCodeExactly: the host of a URL and the resolved form of a path are arguments of the policy; parsing `--approve`, starting the session and printing are not modelled.
- Access.RunsAreIsolated: assumes that the host names each run in one session; `Access.MixedIdsLeak` shows why. The run id "manual" of scheduled compactions is shared between sessions and excluded by the same hypothesis.
- ServerModel.RunsAreConsistent: assumes that a run id is started for one session only.
- SplitLimits.SplitTerminates: one direction; whether a longer fence line is ever reopened depends on where the cuts fall. `SplitLimits.StuckExactly` with `SplitLimits.TakesNothingExactly` is exact for a whole call, by the budgets it reaches.
- Split.SplitForLimit: where the source repeats an iteration for ever, the method stops and says `stuck`; the chunks that the source goes on to collect are not modelled.
- Renderer.EndingDelivers: assumes `inlineLimit` at most `maxChars` and no transport error. Drafts and typing actions are one kind of step without content.
- Connection.RunsAreFenced: assumes that no handshake succeeds and no key is refused in it after the socket's close; a failure after the close is covered. The published phase is not fenced after the wait for the account subscription (`apps/desktop/src/main/connection.ts:172`) and is not modelled; nor are `setGatewayRestarting`, retry delays and request timeouts.
- Supervisor.BackoffIsHonoured: `restart()` and its wait for the old process are not modelled; `start`, `stop` and `tick` are steps.
- Rpc.EveryRequestSettlesAtMostOnce: a transport whose `send` throws at once, instead of rejecting, is not modelled.
- RpcLink.RepliesReachTheirRequests: assumes the ordered channels that the outbound queue and the socket give; JSON text is abstracted to the shapes the code tells apart.
- Transfer.FetchAll: the file does not change during the download.
- Transfer.Disk.UploadFile: names are compared exactly, as on a case-sensitive file system, and `extname` is the one of POSIX paths; decoding the base64 text is not modelled.
- ServerModel.LawfulActiveExactly: assumes that a run id is started for one session only; `ServerModel.ActiveExactly` does without.
- Feed.NoTurnNoticeIsLost: the connection subscribed to the run before its sub-agents were announced and takes the sub-agent notices; the text of a notice is an argument.
- Delivery.LateSubscriberFollowsExactly: assumes that no sub-agent of the turn is announced a second time, and like `Delivery.HostsAgreeOnTheTurn` that the connection takes the sub-agent notices.
- Delivery.TerminalShowsTheTurn: for the tracked run; the terminal clears its sub-agent runs when a new turn starts.
- SessionTree.ListIsPreorder: for entry sets with parents before children, which `SessionStore.TreesAreOrdered` gives; `Object.values` is taken in insertion order.
- SessionStore.ReloadAgreesExactly: new ids are fresh and named parents exist; redaction of contents is left out.
- McpForm.PairsRoundTripExactly: integer-like keys, which a JavaScript object lists first, and the key `__proto__` are not told apart from others.
- Clean.Package.CleanUnusedFiles: XML parsing, path resolution and symbolic links are abstracted: relationships files are a map to their resolved targets, and the presentation's own are a list of elements with id, type, target text and resolved target. Relationships files that own a directory and subdirectories of the trash are not modelled.
- TraceBirth.NewAgentsSit: like `TracePlacement.RunKeepsPlacement` for streams that re-announce no tool node that holds something.
- RpcChannel.ChannelsExactly: for runs without a break; `RpcChannel.AfterTheBreak` says what a break leaves.
- CleanSlides.ListedByTarget: assumes that no target of the presentation repeats `slides/`; `CleanSlides.RepeatedDirectoryIsListed` shows why, and `CleanSlides.ListedExactly` does without.
- ConnectionLife.ClientExactly: for runs in which each socket reports in the order that `Connection.Possible` gives; the length of a retry’s delay is not modelled, only the count that picks it.
- CrashLoop.CrashesAreRestarted: polls of a loop are grouped into rounds of a crash, early polls, the start and short runs; `CrashLoop.LaunchesAreBounded` and `Supervisor.FusedExactly` are about any polls.
- SessionChain.ConversationIsAChain: new ids are fresh, as the store makes them.
- Trace fields with no influence on the tree: pending and question queues, toasts, usage, todos, run status, the model name, `@load` and `@reset`, and the input and output of tools.
- The projection of events to notification fields, and requests that only pass through to the host.
- The reconciliation of profiles with connections (`apps/desktop/src/main/index.ts:415-445`): it would only add easy members.
- Sockets, HTTP, windows, platform endpoints, databases, key chains and cryptography: a send, a spawn or a file system is a step or a map here.
- The agent runtime, the approval kernel, schedules and the usage ledger, which decide what the host does and are not part of this model.
