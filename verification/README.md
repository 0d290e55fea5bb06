# T3 Coder, verified

Dafny models of the parts of this repository where many things happen at once or where text is rewritten and read
back, with proofs of what they promise. Each module models one component and states its results at its end.

| module | component |
|---|---|
| `PortForwards`, `WorkspaceConnections`, `WorkspaceOutcomes` | the gateway's child processes: every interleaving of starts, stops, actions, exits and failed shutdowns of one rule or one workspace, and how each request in them ends |
| `RpcBridge` | the bridge that carries successive browser sessions over one helper and renames request ids both ways |
| `GatewayHub`, `HelperHub` | calls from one workspace to another: the gateway's routing and the helper's outbox |
| `WorkspaceListing` | what changes of the configuration do to a workspace's lifecycle: closing it, deleting it, listing it again |
| `UpgradeSlots` | which browser socket may talk to a workspace |
| `InlineMarkdown`, `ComposerRichText`, `InlineMarkdownRendering`, `InlineMarkdownFlanks` | the composer's one-pass inline Markdown parser, refined to the forest it reads, and which delimiters style what |
| `CursorMaps` | splitting a prompt into text and chips, and the two cursor maps between the shown and the source text |
| `ListMarkers`, `ListRenumbering`, `ListContinuation` | what Enter, Tab and Shift+Tab do to lists |
| `SettingsSecrets`, `SettingsCache` | moving secrets into the store, rolling a failed save back, reading them again, and the cache of what was read |
| `EventLogResume` | resuming a subscription from a cursor while the event log grows and is pruned |
| `WorktreeOwner` | who owns a shared worktree, and when a chain of threads has settled |
| `AttachmentIds` | attachment ids and the sweep of uploads that nobody claimed |
| `CycleGuard` | the build step that rejects circular chunk imports |
| `Options`, `Decimals`, `SmallSets`, `Sequences` | optional values, decimal numerals, small sets, the first place of an element |

**Reading the models.** Where the source updates state in place, a class has that state and one method per atomic
update; each method is proved equal to a function of the old state. A component that several parties drive at once is
then a state machine over those same functions: `Event` lists what can happen, `Enabled` when, `Step` is one event,
`Run` a whole sequence of them, and `Inv` is what every step keeps. Results speak of every run from the initial state.
Parsers and text edits are methods with the source's own loops, proved against functions that say what the text means.

**What is found to fail.** Some promises hold only under a condition, and the models say which:

- Writing a rule's state without looking (starting the configured rules, a failed or finished workspace action) can
  lead to a second child exactly when a child runs or is opening: `PortForwards.OverwriteIsSafeExactlyWhenNothingRuns`.
- An action that no longer finds its workspace listed returns to Disconnected without waiting for the attempt it displaced,
  and a lifecycle may be deleted after something has started in it again. Once the workspace is listed again, either can
  lead to a second helper, exactly when an attempt is left that has one or may open one:
  `WorkspaceListing.MissingWorkspaceIsSafeExactlyWithoutAttempt`,
  `WorkspaceListing.DeletingIsSafeExactlyWhenNothingRunsOrOpens`.
- The hub keeps an environment's old owner: a workspace that came back under a new environment still receives calls for
  the old one, and a later owner of the old one pushes it out of the listed links although it is connected:
  `GatewayHub.ReachesTheNamedEnvironmentExactlyWhenItsOwnerStayed`, `GatewayHub.OldEnvironmentStillReachesItsWorkspace`, `GatewayHub.AttachForgetsExactlyTheFormerOwner`,
  `GatewayHub.ConnectedWorkspaceCanGoUnlisted`.
- The live tail's own catch-up is not checked against pruning and can lose exactly the events that pruning deletes and
  that it has not read yet; the check that the replay makes would suffice:
  `EventLogResume.CatchUpCanMissExactlyWhatIsAtRisk`, `EventLogResume.RecheckedCatchUpIsComplete`.
- A provider's variable that is listed twice loses its first secret: `SettingsSecrets.ReadsBackExactlyUnlessOverridden`,
  `SettingsSecrets.RepeatedVariableIsOverwritten`.
- A helper's request that is switched out between looking its subscription up and registering with it is not told when
  that subscription ends: `HelperHub.LateRequestStaysOpen`, and which requests exactly:
  `HelperHub.OpenRequestsWaitOnTheCurrentSubscription`, `HelperHub.CallerGetsTheFirstDecision`.

**Assumptions.** One update of a reference, and one stretch of code that does not wait, is one step. There is one
exception: a fiber that has used up its share of operations is switched out at its next effect, whether or not it
waits there. A helper's request has such effects (`apps/server/src/coderHub.ts:143-146`) after it has read the
subscription that it registers with (line 148), so `HelperHub` makes the two separate steps; elsewhere no such switch
is followed. A link joins two different workspaces
(`packages/coder-cli/src/profile.ts:119`), and a browser's Eof is the same event as the end of its socket in `RpcBridge`.
Closing a child that is already dead succeeds, and an open that fails leaves no child. A failed send to
the helper delivers nothing; a browser transport that throws is one that closed just before the frame. A token's
source is the non-empty slice it covers, and no token begins with a line break: the collectors' patterns start it with
an at sign, a bracket, an exclamation mark or a currency sign (`packages/shared/src/composerInlineTokens.ts:17-28`,
`packages/shared/src/assistantCitations.ts:14-17`, `packages/shared/src/composerContextReferences.ts:20-23`). Both are
needed: an empty chip breaks the cursor round trip (`CursorMaps.RoundTripsExactlyWithoutEmptyChips`), and over a first
chip that begins with a line break the walk that the list keys make would never end
(`ListContinuation.WalkBackEndsExactlyUnlessStuck`). White space and word classes of the Markdown parser are
arbitrary. Event sequences count up by one. Attachment file names contain no slash or backslash, the text made
into a segment is trimmed and lower-case already, and an extension has lost its dot and is lower-case. Ids, uuids and times come from outside.

## Model

| member | source | states |
|---|---|---|
| `PortForwards.EveryRunHasOneChild` | apps/coder-gateway/src/portForwards.ts:81-351 | in every interleaving of ensure, stop, child exits and failed closes at most one child runs, and it belongs to the attempt being waited for or is held by Running, ShutdownFailed or the stop that is closing it |
| `PortForwards.StartsOnlyAfterEarlierChildIsGone` | apps/coder-gateway/src/portForwards.ts:97-109 | a start is only ever claimed when no child runs and no earlier attempt can still open one |
| `PortForwards.StopOutlawsEarlierStarts` | apps/coder-gateway/src/portForwards.ts:197-213 | no attempt that was claimed before a stop becomes the running forward after it, however the rest of the run goes |
| `PortForwards.StepKeepsInv` | apps/coder-gateway/src/portForwards.ts:81-351 | every event keeps the invariant that ties the state to its attempts, stops and live children |
| `PortForwards.RunKeepsInv` | apps/coder-gateway/src/portForwards.ts:275-299 | the invariant and the rise of generations carry over whole runs |
| `PortForwards.OverwriteIsSafeExactlyWhenNothingRuns` | apps/coder-gateway/src/portForwards.ts:400-424 | writing WorkspaceStopped or Failed without looking, which keeps the generation and allows a fresh start, can lead to a second running child exactly when a child runs or is opening at that moment |
| `PortForwards.SecondChildOpens` | apps/coder-gateway/src/portForwards.ts:400-424 | the concrete continuation: after such an overwrite the next ensure opens a second child beside the hidden one |
| `PortForwards.RunningChildCanBeOverwritten` | apps/coder-gateway/src/portForwards.ts:397-424 | such an overwrite does meet a running child: the shortest run from the start in which it does |
| `PortForwards.CanComeToRest` | apps/coder-gateway/src/portForwards.ts:268-351 | from every reachable state there is a way back to a state that starts afresh, with no child left behind |
| `PortForwards.StartsSucceedExactlyUndisturbed` | apps/coder-gateway/src/portForwards.ts:81-263 | for any run from the start and any run after an ensure at rest, told from the events alone: the ensure is answered with success exactly if its attempt was opened, found current with its own configuration and committed before any stop was requested or its child's exit seen; it fails exactly if it was rejected; and the next ensure is given this child exactly if it was committed and neither has come since |
| `PortForwards.PlainStartSucceeds` | apps/coder-gateway/src/portForwards.ts:97-213 | with nothing in its way a start claimed at rest ends in Running with its own child, the only one |
| `PortForwards.StartsEndAsTold` | apps/coder-gateway/src/portForwards.ts:160-260 | where an undisturbed attempt ends: an exit found bad fails the rule, another exit makes it idle, a failed cleanup keeps the child, a rejection fails the rule or leaves it with the child that could not be closed |
| `PortForwards.StopsEndAsTold` | apps/coder-gateway/src/portForwards.ts:265-351 | for any run after a stop, told from the events alone: who waits for it and until when, exactly when it can finish or fails, and which state each leaves, with the child that could not be closed |
| `PortForwards.StopAtRest` | apps/coder-gateway/src/portForwards.ts:271-283 | a stop of a rule at rest only raises the generation, and a stop under a stop changes nothing |
| `WorkspaceConnections.EveryRunHasOneChild` | apps/coder-gateway/src/workspaceConnections.ts:175-683 | in every interleaving of connect, close, action, exit and failed shutdown for a configured workspace at most one helper runs, and the state accounts for it, ShutdownFailed or Changing holding the one whose shutdown failed |
| `WorkspaceConnections.DisconnectedHasNoChild` | apps/coder-gateway/src/workspaceConnections.ts:186-213 | Disconnected, the only state a connection starts from, is never reached while an earlier attempt's helper runs or can still open |
| `WorkspaceConnections.ChangeOutlawsEarlierAttempts` | apps/coder-gateway/src/workspaceConnections.ts:345-369 | after a close or an action has claimed its change, no attempt from before it commits Connected |
| `WorkspaceConnections.StepKeepsInv` | apps/coder-gateway/src/workspaceConnections.ts:175-683 | every event keeps the invariant that ties the state to its attempts, changes and live helpers |
| `WorkspaceConnections.StepIsLater` | apps/coder-gateway/src/workspaceConnections.ts:420-445 | no event lowers the generation or changes the generation an attempt was claimed in |
| `WorkspaceConnections.RunKeepsInv` | apps/coder-gateway/src/workspaceConnections.ts:175-683 | the invariant and the rise of generations carry over whole runs |
| `WorkspaceListing.EveryOrdinaryRunHasOneHelper` | apps/coder-gateway/src/server.ts:395-408 | through any changes of the configuration, which close a workspace, delete its lifecycle and list it or not, a workspace has at most one helper over all its lifecycles, as long as no action misses its workspace and only disconnected lifecycles are deleted |
| `WorkspaceListing.MissingWorkspaceIsSafeExactlyWithoutAttempt` | apps/coder-gateway/src/workspaceConnections.ts:544-552 | an action that no longer finds its workspace listed can lead to a second helper, once the workspace is listed again, exactly when it has interrupted an attempt that has a helper or may still open one: it does not wait for it |
| `WorkspaceListing.ActionMissesInterruptedConnection` | apps/coder-gateway/src/server.ts:395-408 | a run from the start in which that happens: the connection begins after the lifecycle was deleted and before the new configuration is in force |
| `WorkspaceListing.DeletingIsSafeExactlyWhenNothingRunsOrOpens` | apps/coder-gateway/src/server.ts:397-399 | deleting a lifecycle after its close can lead to a second helper exactly when by then something runs in it again or can open |
| `WorkspaceListing.WaitingConnectionIsDeleted` | apps/coder-gateway/src/workspaceConnections.ts:216-219 | a run from the start in which that happens: a use of the workspace that waited for the close starts over before the lifecycle is deleted |
| `WorkspaceListing.SecondHelperOpens` | apps/coder-gateway/src/workspaceConnections.ts:236-246 | the concrete continuation: the next use of the listed and disconnected workspace opens a helper beside the one that lingers |
| `WorkspaceListing.StepKeepsInv` | apps/coder-gateway/src/server.ts:395-408 | every ordinary step keeps the present lifecycle sound and the deleted ones without a helper |
| `RpcBridge.SessionReceivesExactlyItsFrames` | apps/coder-gateway/src/rpcBridge.ts:202-409 | for any run before and after an accepted request: of the helper's frames for it exactly those up to the first Exit, the detach or the transport closing are ever delivered, in order, to its own session and under its own id; and until the id is reused they are all the session receives under it |
| `RpcBridge.OpenRequestIsServedExactly` | apps/coder-gateway/src/rpcBridge.ts:358-409 | however a run goes on, what is ever delivered of an open request's frames is what its session should get |
| `RpcBridge.ExpectedIsPrefixUpToExit` | apps/coder-gateway/src/rpcBridge.ts:321-384 | what a session should see is a prefix of the helper's frames for that request, renamed, with at most the last one an Exit |
| `RpcBridge.EndedSessionHearsNothing` | apps/coder-gateway/src/rpcBridge.ts:202-229 | once a session has detached or its transport has closed it receives nothing more under any id, whatever later sessions do |
| `RpcBridge.FramesReachOnlyTheirOwner` | apps/coder-gateway/src/rpcBridge.ts:338-380 | a frame for a request is only ever delivered to the session that made it, under the id it used, even if another session reuses that id |
| `RpcBridge.TablesAreInverse` | apps/coder-gateway/src/rpcBridge.ts:257-305 | in every reachable state the active session's table and its routes are mutually inverse, so a reference to one of its requests always finds its route |
| `RpcBridge.DetachInterruptsTheUnanswered` | apps/coder-gateway/src/rpcBridge.ts:202-229 | a detach interrupts exactly the session's accepted and unanswered requests, oldest first |
| `RpcBridge.RoutesAreTheUnanswered` | apps/coder-gateway/src/rpcBridge.ts:186-200 | a session has a route left exactly when a request it accepted is still unanswered |
| `RpcBridge.StepKeepsInv` | apps/coder-gateway/src/rpcBridge.ts:169-409 | every step keeps requests numbered as accepted, routed until answered, and helper ids below the next counter |
| `RpcBridge.RequestKeyIsInjective` | apps/coder-gateway/src/rpcBridge.ts:88-90 | a string id and a number id never share a key |
| `RpcBridge.HelperIdIsInjective` | apps/coder-gateway/src/rpcBridge.ts:264-267 | the ids given to the helper never repeat |
| `RpcBridge.AcceptedRequestsReachTheHelper` | apps/coder-gateway/src/rpcBridge.ts:254-319 | in every run from the start the requests the helper has been sent are, in order, the accepted ones, the n-th under the n-th helper id with its own rpc and body; which are accepted is told from the events |
| `RpcBridge.ReferencesNameTheirRequest` | apps/coder-gateway/src/rpcBridge.ts:231-253 | an Ack or Interrupt is passed on, with its tag and body, under the helper id of that session's own unanswered request with that id, and not at all if there is none |
| `RpcBridge.BrowserIsAnsweredAsTold` | apps/coder-gateway/src/rpcBridge.ts:231-319 | what a browser's envelope is answered with and what is passed on for it follow from the earlier events: which session is attached, which ids it has in use and what has been answered |
| `RpcBridge.EveryRunIsAsTold` | apps/coder-gateway/src/rpcBridge.ts:169-409 | in every run the accepted requests, the answered ones, what the helper was sent and what each session received are what a reading of the events without tables says |
| `InlineMarkdown.ParsingKeepsTheSource` | apps/web/src/composer-rich-text.ts:28-116 | for any text and any space and word classes the parsed forest spells out the whole text again: parsing drops nothing but delimiters, and what it drops pairs into equal, well-nested openers and closers |
| `InlineMarkdown.ParsedIsLegal` | apps/web/src/composer-rich-text.ts:75-108 | every styled run has the delimiter of its mark on both sides and never contains its own mark |
| `InlineMarkdown.AtMostThreeFrames` | apps/web/src/composer-rich-text.ts:96-102 | the marks on the parser's stack are distinct, so it is at most three deep |
| `InlineMarkdown.ParsedUnits` | apps/web/src/composer-rich-text.ts:131-141 | each unit either carries distinct marks with code innermost, or is a delimiter character: an asterisk, underscore, tilde or backtick |
| `InlineMarkdown.OneUnitPerCharacter` | apps/web/src/composer-rich-text.ts:134-136 | the meaning of a text has one entry per UTF-16 unit |
| `InlineMarkdown.LegalUnits` | apps/web/src/composer-rich-text.ts:73-108 | the marks of every unit are distinct, outer marks first, and code is innermost |
| `ComposerRichText.ParseInlineMarkdownPieces` | apps/web/src/composer-rich-text.ts:28-116 | the one-pass parser with its frame stack, merging in place and restored openers yields pieces that are non-empty, in bounds, ordered, disjoint and maximally merged, and mean exactly the forest; its loops terminate |
| `ComposerRichText.MeaningDeterminesPieces` | apps/web/src/composer-rich-text.ts:32-38 | there is only one such list of pieces for a meaning: merging makes it canonical |
| `ComposerRichText.PieceMeans` | apps/web/src/composer-rich-text.ts:15-20 | each piece covers units that all carry exactly its marks, and nothing marked lies between two pieces |
| `ComposerRichText.InlineMarkdownUnitMarks` | apps/web/src/composer-rich-text.ts:134-141 | the array filled from the pieces is the meaning of the text, unit by unit |
| `ComposerRichText.ParseInlineMarkdown` | apps/web/src/composer-rich-text.ts:118-129 | the spans carry exactly the units that are kept, in order, each with its marks, and neighbouring spans differ in marks |
| `ComposerRichText.Push` | apps/web/src/composer-rich-text.ts:32-38 | appending a stretch merges it into the last piece exactly when that keeps the list canonical |
| `ComposerRichText.ParseRunStep` | apps/web/src/composer-rich-text.ts:75-108 | one turn of the delimiter loop closes, opens or keeps text as the forest reading does, on the mutable stack |
| `ComposerRichText.Close` | apps/web/src/composer-rich-text.ts:90-92 | closing the top frame moves its pieces out under its mark |
| `ComposerRichText.RestoreTop` | apps/web/src/composer-rich-text.ts:110-114 | an unclosed frame gives back its opener as text and its pieces unmarked |
| `InlineMarkdownRendering.RenderedTextParsesBack` | apps/web/src/composer-rich-text.ts:8-13 | text wrapped in the delimiter of any mark parses back to that text under just that mark, with only the two delimiters dropped |
| `InlineMarkdownRendering.OrdinaryTextIsUnmarked` | apps/web/src/composer-rich-text.ts:64-68 | text without markup is kept whole and unmarked |
| `SettingsSecrets.FirstTouchDecides` | apps/server/src/serverSettings.ts:1034-1050 | a name touched several times goes back to what it held before the first of them, whatever the other undos do |
| `SettingsSecrets.LoggingUndoes` | apps/server/src/serverSettings.ts:1076-1082 | logging the present entry before an operation undoes whatever the operation leaves, even a half-done one |
| `SettingsSecrets.RollbackRestores` | apps/server/src/serverSettings.ts:1026-1050 | a rollback restores every logged name whose first undo works and touches no other |
| `SettingsSecrets.ReadAfterWrite` | apps/server/src/serverSettings.ts:969-1024 | with distinct secret names, after a save each slot reads back as the value given, as the secret kept when the redaction marker came back, or as empty; and the file holds no sensitive text |
| `SettingsSecrets.GoneSecretsAreRemoved` | apps/server/src/serverSettings.ts:1008-1022 | a secret the new settings no longer mention leaves the store, and no other entry moves |
| `SettingsSecrets.ReadsBackExactlyUnlessOverridden` | apps/server/src/serverSettings.ts:969-1024 | for any settings, names shared or not: a slot reads back as intended exactly unless the last slot of its name that changes the secret puts another one into the store |
| `SettingsSecrets.RepeatedVariableIsOverwritten` | apps/server/src/settingsSecrets.ts:86-99 | a provider's environment that lists a variable twice with different secrets loses the first one, for every way of encoding names and whatever was stored before |
| `SettingsSecrets.LastChangeDecides` | apps/server/src/serverSettings.ts:978-1007 | of the slots that share a name, the last one that changes its secret decides the fate of the name |
| `SettingsSecrets.DistinctNamesChangeAlone` | apps/server/src/serverSettings.ts:978-1007 | with distinct names that is each slot itself |
| `SettingsSecrets.StaleDecides` | apps/server/src/serverSettings.ts:1008-1022 | stale removal hits exactly the old sensitive names that the plan neither keeps nor changes |
| `SettingsSecrets.LastEffectDecides` | apps/server/src/serverSettings.ts:1060-1095 | after a list of changes an entry is what the last change of its name made it |
| `SettingsSecrets.PersistSettingsSecrets` | apps/server/src/serverSettings.ts:969-1024 | the two passes over the slots, with their collections, build exactly the plan and its stale removals |
| `SettingsSecrets.PlanSlots` | apps/server/src/serverSettings.ts:977-1007 | the pass over the new slots collects the settings to write, the changes and the names that keep a secret |
| `SettingsSecrets.StoreAfterSave` | apps/server/src/serverSettings.ts:969-1024 | the secret store after a save for every name, from the settings and the old entry alone: names that are no longer listed and were sensitive are gone, others are untouched, and a listed name goes through its slots in turn: emptied or made public it is removed, given a value it holds the value |
| `SettingsSecrets.EntryAfterSave` | apps/server/src/serverSettings.ts:978-1007 | with distinct names: a public or emptied slot has no entry, a redacted one backed by nothing in the open keeps the old entry, any other sensitive one holds what it is intended to |
| `SettingsSecrets.FileAfterSave` | apps/server/src/serverSettings.ts:978-1007 | the settings file after a save has the same slots in order, no sensitive text, and redaction marks exactly where a secret is kept or given; and what a reader makes of each |
| `SettingsSecrets.InlineIsInTheOpen` | apps/server/src/serverSettings.ts:971-995 | a secret that the settings still carry in the open is that of the last slot under its name |
| `SettingsCache.EveryServedValueIsFresh` | apps/server/src/serverSettings.ts:918-941 | in every interleaving of readers, who read one secret at a time and may come with settings published before, with saves that succeed or roll back and with reloads: outside a secret-write section the cache is empty or holds a fresh materialization of its settings, unless they are older than a reload |
| `SettingsCache.StepKeepsInv` | apps/server/src/serverSettings.ts:928-941 | a reader that could still store its value has only read what the store still holds |
| `SettingsCache.AgreeingReadsMaterialize` | apps/server/src/serverSettings.ts:882-916 | reads that agree with the store materialize to what the store itself would give |
| `SettingsCache.ReadIsKeptExactlyWithoutBoundary` | apps/server/src/serverSettings.ts:928-941 | whatever other readers do meanwhile, a read that finishes is kept exactly if no secret write began or ended and no invalidation came since it started; otherwise the cache stays as it is |
| `SettingsCache.ServedUntilReplaced` | apps/server/src/serverSettings.ts:921-941 | a published value is served for its settings, a boundary empties the cache, and nothing else touches it |
| `GatewayHub.UnsettledCallsAreWatched` | apps/coder-gateway/src/hub.ts:89-151 | in every run an unsettled call has both ends attached and both detach callbacks registered with them |
| `GatewayHub.SettlesOnce` | apps/coder-gateway/src/hub.ts:97-106 | the first settlement of a call is the only one, and its answer is sent or dropped for good |
| `GatewayHub.AnsweredAtMostOnce` | apps/coder-gateway/src/hub.ts:186-201 | a run resumes each call at most once, and never again after it was answered |
| `GatewayHub.UnansweredOnlyIfRequesterGone` | apps/coder-gateway/src/hub.ts:77-86 | a call stays unanswered only because the attachment that asked for it is gone, for good; if it was given up unsettled, the target was told to stop |
| `GatewayHub.DetachEndsItsCalls` | apps/coder-gateway/src/hub.ts:281-286 | a detach ends exactly the helper's own calls: those it was running fail, those it asked for are given up and interrupted |
| `GatewayHub.CallbacksEffect` | apps/coder-gateway/src/hub.ts:284 | running a snapshot of callbacks, some of which unregister others, settles exactly the pending calls they are for and drops exactly those callbacks |
| `GatewayHub.StepKeepsInv` | apps/coder-gateway/src/hub.ts:63-286 | every event keeps the invariant over attachments, callbacks, calls and the directory, and moves calls only forward |
| `GatewayHub.RunKeepsInv` | apps/coder-gateway/src/hub.ts:63-286 | the invariant and the freshness of ids carry over whole runs |
| `GatewayHub.DirectoryIsInjective` | apps/coder-gateway/src/hub.ts:227-231 | no two workspaces are ever listed under one environment |
| `GatewayHub.CallsFollowLinks` | apps/coder-gateway/src/hub.ts:155-190 | a call is only ever run on an attached helper that a configured link leads to |
| `GatewayHub.ReachesTheNamedEnvironmentExactlyWhenItsOwnerStayed` | apps/coder-gateway/src/hub.ts:157-190 | in every run a call goes to the workspace that last attached under the environment it names, and reaches that environment exactly when this workspace has not attached under another one since |
| `GatewayHub.DirectoryFollowsHistory` | apps/coder-gateway/src/hub.ts:220-233 | the table of environments is a record of who attached under them last, and a connected workspace is where it last attached |
| `GatewayHub.OldEnvironmentStillReachesItsWorkspace` | apps/coder-gateway/src/hub.ts:230 | a workspace that came back under a new environment still receives the calls for its old one |
| `GatewayHub.AttachForgetsExactlyTheFormerOwner` | apps/coder-gateway/src/hub.ts:226-231 | a newcomer pushes out of the directory exactly the workspace that last claimed its environment |
| `GatewayHub.ConnectedWorkspaceCanGoUnlisted` | apps/coder-gateway/src/hub.ts:205-218 | so a connected workspace under another environment can vanish from the listed links: a run that shows it |
| `GatewayHub.CallGetsTheFirstDecision` | apps/coder-gateway/src/hub.ts:89-151 | in any run from the start, whatever comes before and after a call that is passed on: its outcome is that of the first deciding event, the target's Exit with what it answered, a failed send or the target's leaving with the disconnection failure, or its requester's leaving with none |
| `GatewayHub.AnswerIsTheFirstDecision` | apps/coder-gateway/src/hub.ts:186-202 | when its caller resumes, just that outcome is sent, once, to the call's own requester under the call's own id, unless the requester has left |
| `GatewayHub.RepliesAreAnswers` | apps/coder-gateway/src/hub.ts:77-86 | the hub sends no other answers than these and the immediate refusals |
| `GatewayHub.InterruptedExactlyWhenGivenUp` | apps/coder-gateway/src/hub.ts:113-118 | a target is told to stop a call exactly when the requester's leaving is what decides it |
| `GatewayHub.RoutesAreAsTold` | apps/coder-gateway/src/hub.ts:155-190 | in every run from the start, told from who attached under which environment: where a call goes, or which of the three refusals it gets |
| `GatewayHub.ListedAsTold` | apps/coder-gateway/src/hub.ts:226-232 | a workspace can be listed exactly if it has attached and, since it last did, no other workspace has attached under an environment that it was the last to attach under |
| `GatewayHub.RefusalsDiffer` | apps/coder-gateway/src/hub.ts:171-188 | a caller can tell the refusals apart, and each from a target that went away |
| `HelperHub.CallerGetsTheFirstDecision` | apps/server/src/coderHub.ts:137-167 | from any reachable state every request's result is what the events alone say: the first of a reply, a lost or replaced subscription and the shutdown, unless its caller stops waiting first; a late request is told only of the reply and the shutdown |
| `HelperHub.OpenRequestsWaitOnTheCurrentSubscription` | apps/server/src/coderHub.ts:143-149 | a request that still waits is queued on the gateway's current, unended subscription of an open hub exactly unless it was registered late, with a subscription that had ended since it was looked up |
| `HelperHub.LateRequestStaysOpen` | apps/server/src/coderHub.ts:143-148 | a run from the start that leaves a request waiting although its subscription has ended: it was switched out between its lookup and registering |
| `HelperHub.RequestsOnlyAdvance` | apps/server/src/coderHub.ts:90-99 | a request's answer is settled once and its caller gets one result, over whole runs |
| `HelperHub.ClosedAcceptsNothing` | apps/server/src/coderHub.ts:101-108 | a closed hub stays closed, and only requests that were registered late wait on it |
| `HelperHub.EveryRequestIsQueuedOnce` | apps/server/src/coderHub.ts:143-149 | ids are not reused: each request that was not late went to one subscription, once, in the order of asking |
| `HelperHub.StepKeepsInv` | apps/server/src/coderHub.ts:83-186 | every event keeps waiting requests with the current subscription and the tables free of finished ones |
| `HelperHub.LossKeepsWaiting` | apps/server/src/coderHub.ts:112-133 | ending a subscription leaves none of its requests waiting and touches no late one |
| `HelperHub.AskingRegisters` | apps/server/src/coderHub.ts:141-149 | a request that is asked of an open hub with a gateway gets a fresh id, waits with the current subscription and is queued last; otherwise it changes nothing |
| `UpgradeSlots.AttachedSessionsHoldTheSlot` | apps/coder-gateway/src/server.ts:811-911 | in every run an attached session has its socket in the workspace's slot and is the only one that holds it |
| `UpgradeSlots.AttachNeverConflicts` | apps/coder-gateway/src/server.ts:840-857 | when the gateway attaches a session, the bridge has none: its own attach never conflicts |
| `UpgradeSlots.ConflictOnlyWhileTaken` | apps/coder-gateway/src/server.ts:811-815 | an upgrade is turned away exactly while another one waits or holds the slot |
| `UpgradeSlots.StepKeepsInv` | apps/coder-gateway/src/server.ts:811-911 | one upgrade waits or one socket is in the slot, whatever request, drop, failure or close comes next |
| `UpgradeSlots.EveryRunIsAsTold` | apps/coder-gateway/src/server.ts:811-911 | in every run which upgrade waits, which socket holds the slot and how each one stands follow from the events: a request takes a free slot, a drop or failure gives it back, a close frees it |
| `CursorMaps.SegmentsConcatenateToThePrompt` | apps/web/src/composer-editor-mentions.ts:97-142 | whatever the tokens, the segments put together are the prompt, none is empty and text next to text has been merged |
| `CursorMaps.LinksBecomeChips` | apps/web/src/composer-editor-mentions.ts:78-95 | links that do not overlap each other all become chips at their own places, whatever inline tokens were found around them |
| `CursorMaps.FreeTokenBecomesChip` | apps/web/src/composer-editor-mentions.ts:104-136 | a token that no earlier one reaches into becomes a chip, at its place in the prompt |
| `CursorMaps.SortedIsSorted` | apps/web/src/composer-editor-mentions.ts:91-94 | collecting keeps every token and puts them in order of their starts |
| `CursorMaps.Galois` | apps/web/src/composer-logic.ts:112-249 | the two cursor maps are a Galois connection between source positions and shown positions |
| `CursorMaps.CollapseUndoesExpand` | apps/web/src/composer-logic.ts:195-249 | collapsing an expanded cursor gives the cursor back |
| `CursorMaps.RoundTripsExactlyWithoutEmptyChips` | apps/web/src/composer-logic.ts:126-154 | the round trip holds for all shown positions exactly when no chip has an empty source |
| `CursorMaps.MapsAreMonotone` | apps/web/src/composer-logic.ts:112-249 | neither map ever reverses the order of two cursors |
| `CursorMaps.ExpandOfCollapseIsNextOutside` | apps/web/src/composer-logic.ts:112-249 | there and back, a source position moves to the least position at or after it that no chip covers |
| `CursorMaps.InsideChipIsBetweenItsEnds` | apps/web/src/composer-logic.ts:126-154 | being inside a chip means lying strictly between the chip's two ends in the prompt |
| `CursorMaps.PromptCursorLaws` | apps/web/src/composer-logic.ts:112-249 | round trip, bounds and Galois law for the prompt itself, any text and any tokens |
| `CursorMaps.ClampingDoesNotMoveTheExpansion` | apps/web/src/composer-logic.ts:169-193 | clamping a cursor to the collapsed view first never changes where it expands to, for any number or none that is finite |
| `CursorMaps.SplitPrompt` | apps/web/src/composer-editor-mentions.ts:97-142 | the loop that skips overlapped tokens and appends to the last text builds the segments |
| `CursorMaps.CollectTokens` | apps/web/src/composer-editor-mentions.ts:78-95 | the filter and sort of the collectors' findings, and the early return without links |
| `CursorMaps.ExpandCollapsedComposerCursor` | apps/web/src/composer-logic.ts:112-160 | the loop with its running cursors computes the expansion |
| `CursorMaps.CollapseExpandedComposerCursor` | apps/web/src/composer-logic.ts:195-249 | the loop with its running cursors computes the collapse |
| `CursorMaps.ClampCollapsedComposerCursor` | apps/web/src/composer-logic.ts:162-193 | the sum over the segments bounds the cursor |
| `CursorMaps.OnlyTokensBecomeChips` | apps/web/src/composer-editor-mentions.ts:104-136 | every chip of a prompt is one of its tokens, with that token's kind, value and source, at its own place |
| `CursorMaps.SortedIsStable` | apps/web/src/composer-editor-mentions.ts:91-94 | tokens that start at the same place keep the order in which they were found |
| `CursorMaps.ClampedIsNearest` | apps/web/src/composer-logic.ts:162-193 | any cursor that is a number is truncated downwards and moved to the nearest position of the view; one that is not finite goes to the end |
| `CursorMaps.OverlapIsASharedCharacter` | apps/web/src/composer-editor-mentions.ts:81-90 | links push out exactly the tokens that share a character with them |
| `ListMarkers.MarkerStartsItsLine` | apps/web/src/composer-list-continuation.ts:23-60 | a recognised marker lies at the start of its line: its blank indent, then the number and delimiter, the dash and checkbox or the bullet, then its padding, ending where it says; and the line is as wide as its indent |
| `ListMarkers.NextNumberFollows` | apps/web/src/composer-list-continuation.ts:70-78 | below the safe limit the next marker carries the next number, at least as wide |
| `ListMarkers.IndentWidth` | apps/web/src/composer-list-continuation.ts:91-99 | the loop over leading blanks measures columns, tabs stopping every four |
| `ListMarkers.RecognisedExactlyWhenItStarts` | apps/web/src/composer-list-continuation.ts:23-60 | a line is recognised exactly if some marker stands at its start, and then as that kind of marker with the same indent, number and delimiter or bullet |
| `ListMarkers.NextMarkerIsAlike` | apps/web/src/composer-list-continuation.ts:80-88 | behind a task comes an unchecked task, behind a bullet the same bullet, each recognised again with the indent of the one before, whatever text follows |
| `ListMarkers.TabsStopAtFour` | apps/web/src/composer-list-continuation.ts:91-99 | a tab goes on to the next column that is a multiple of four |
| `ListMarkers.ContentStandsBehindTheMarker` | apps/web/src/composer-list-continuation.ts:62-68 | content begins behind one to four columns of padding, and one column behind the marker otherwise |
| `ListMarkers.ContentColumnOfLine` | apps/web/src/composer-list-continuation.ts:38-56 | a recognised line's content column is reckoned from its own indent, marker and padding; a checkbox belongs to the content |
| `ListRenumbering.NumbersAreConsecutive` | apps/web/src/composer-list-continuation.ts:101-146 | after renumbering, the items up to the list's end count up from the expected number, as far as numbers are safe |
| `ListRenumbering.RenumberingIsIdempotent` | apps/web/src/composer-list-continuation.ts:101-146 | renumbering renumbered lines changes nothing |
| `ListRenumbering.RenumberingAgainChangesNothing` | apps/web/src/composer-list-continuation.ts:101-146 | the same for the prompt's text: renumbering it again gives the same text, provided its chips cover the starts of the same lines |
| `ListRenumbering.OnlyNumbersChange` | apps/web/src/composer-list-continuation.ts:131-143 | a line keeps everything but, if it is an item of the list, its number |
| `ListRenumbering.RewrittenIsSameItem` | apps/web/src/composer-list-continuation.ts:134-140 | a rewritten line is recognised again as the same item with the expected number, leading zeros kept |
| `ListRenumbering.RenumberFollowingItems` | apps/web/src/composer-list-continuation.ts:101-146 | the loop over offsets, with its parts and its chip pointer, replaces exactly what turns the rest of the prompt into its renumbered lines, and nothing when they are right already |
| `ListRenumbering.JoinedLinesSplitBack` | apps/web/src/composer-list-continuation.ts:114-118 | joining lines and splitting the text again gives back the same lines |
| `ListRenumbering.NextTokenDecides` | apps/web/src/composer-list-continuation.ts:119-125 | the chip pointer alone decides whether a line starts inside a chip |
| `ListRenumbering.EachItemGetsItsNumber` | apps/web/src/composer-list-continuation.ts:109-144 | the k-th line gets the expected number plus the count of items before it exactly if it is an item of the list, the list has not ended before it and the number is safe; every other line stays |
| `ListRenumbering.LeadingZerosAreKept` | apps/web/src/composer-list-continuation.ts:136-138 | a number with a leading zero stays at least as wide as it was; any other is written plainly |
| `ListContinuation.ListContinuationForEnter` | apps/web/src/composer-list-continuation.ts:222-263 | when Enter acts on a list, exactly when it hangs instead (an empty item, no parent found, and a line above that the walk does not come back from), and the whole prompt it makes: the edit is in bounds, the caret ends where the new marker does, and only the marker and the following numbers change |
| `ListContinuation.ListIndentForTab` | apps/web/src/composer-list-continuation.ts:265-304 | when Tab acts, exactly when it hangs instead, and the whole prompt it makes: indent and number replaced in the one line, the caret carried along |
| `ListContinuation.ListOutdentForTab` | apps/web/src/composer-list-continuation.ts:306-342 | when Shift+Tab acts, exactly when it hangs instead, and the whole prompt it makes: indent and number replaced, the parent's list renumbered after it |
| `ListContinuation.EnterCountsOn` | apps/web/src/composer-list-continuation.ts:222-263 | in the prompt that Enter makes, the caret's line is recognised as an item of the same list with the next number and the items after it count on from there, whether the item was split or an empty one turned into its parent's successor; provided chips cover the starts of the same lines |
| `ListContinuation.OutdentCountsOn` | apps/web/src/composer-list-continuation.ts:306-342 | in the prompt that Shift+Tab makes of an ordered item under an ordered parent with the same delimiter, the caret's line is recognised as the parent's next item, and the items after it count on from there, under the same proviso |
| `ListContinuation.TabCountsOn` | apps/web/src/composer-list-continuation.ts:277-301 | in the prompt that Tab makes of an ordered item that joins a nested list with the same delimiter, the caret's line is that list's next item, and the lines after it stay as they were |
| `ListContinuation.KeysNeverHang` | apps/web/src/composer-list-continuation.ts:173-192 | for the tokens that the collectors find, none of which begins with a line break, no key hangs, wherever the caret is |
| `ListContinuation.TokensLeaveThePromptWalkable` | apps/web/src/composer-list-continuation.ts:148-157 | chips begin where tokens do, so none of them reaches over a line break at the very start |
| `ListContinuation.WalkBackEndsExactlyUnlessStuck` | apps/web/src/composer-list-continuation.ts:183-188 | the inner walk down the list of chips ends exactly unless the line goes back to a chip that begins with the prompt's first line break and reaches beyond it |
| `ListContinuation.WalkableExactlyWhenNothingSticks` | apps/web/src/composer-list-continuation.ts:173-192 | every line can be walked back from exactly in the prompts where no chip reaches over a line break at the very start |
| `ListContinuation.WalkablePromptsNeverHang` | apps/web/src/composer-list-continuation.ts:173-192 | in those prompts no walk upwards hangs, from whatever line it starts |
| `ListContinuation.TabNestsDeeper` | apps/web/src/composer-list-continuation.ts:277-301 | under an item above, Tab always moves the item deeper than it was, and to where that item's content begins if it has no nested items yet |
| `ListContinuation.ParentAtIsWritten` | apps/web/src/composer-list-continuation.ts:194-205 | the item that Shift+Tab moves out to is indented less |
| `ListContinuation.ListMarkersAbove` | apps/web/src/composer-list-continuation.ts:173-192 | the walk upwards over lines and chips finds the markers of the items above, a line that starts inside a chip counting with the line where the chip starts, and says whether it then hangs |
| `ListContinuation.SettleStart` | apps/web/src/composer-list-continuation.ts:183-188 | the inner walk down the list of chips ends at the start of the item, or repeats a turn for ever exactly when the line sticks |
| `ListContinuation.InlineTokenRanges` | apps/web/src/composer-list-continuation.ts:148-157 | the ranges are ordered, disjoint, non-empty and within the prompt |
| `ListContinuation.RangesAreChips` | apps/web/src/composer-list-continuation.ts:148-164 | a position is inside a range exactly when the cursor maps count it as inside a chip |
| `ListContinuation.KeysActExactly` | apps/web/src/composer-list-continuation.ts:222-231 | on which lines each key acts, from the line, the caret's column and the chips alone, for a caret anywhere in any prompt; and never for a caret outside it |
| `ListContinuation.EnterRepeatsTheMarker` | apps/web/src/composer-list-continuation.ts:248-262 | in the prompt that Enter makes behind a task or a bullet, the caret's line is recognised as the same item, an unchecked task or the same bullet, at the same indent, with the rest of the split line behind it |
| `ListContinuation.TabKeepsTheItem` | apps/web/src/composer-list-continuation.ts:287-303 | in the prompt that Tab makes, the caret's line is the same item with its new indent and number, and all else stays |
| `ListContinuation.OutdentKeepsTheItem` | apps/web/src/composer-list-continuation.ts:318-341 | in the prompt that Shift+Tab makes, the caret's line is the same item with its parent's indent, and behind it comes what was there, renumbered exactly if it joins its parent's list |
| `ListContinuation.OutdentUndoesTab` | apps/web/src/composer-list-continuation.ts:319-320 | with nothing above, Shift+Tab takes back what Tab added, or a tab, or a single space |
| `ListContinuation.NestedItemsCountFromOne` | apps/web/src/composer-list-continuation.ts:207-220 | a nested ordered item goes on from the nested item before it if that is of its kind, and else begins at 1 |
| `ListContinuation.ParentIsNearest` | apps/web/src/composer-list-continuation.ts:194-205 | the parent is the nearest marker above that is indented less, if any |
| `ListContinuation.NestsUnderTheNearestAlike` | apps/web/src/composer-list-continuation.ts:277-288 | Tab nests under the nearest item above with the same indent, if none before it is indented less, and joins the least indented of the nested items between them, the nearest of those |
| `ListContinuation.LineAboveComesFirst` | apps/web/src/composer-list-continuation.ts:179-190 | the markers above begin with that of the line just above; a line without one ends them |
| `ListContinuation.ItemGoesOnFromTheChip` | apps/web/src/composer-list-continuation.ts:182-187 | a line that starts inside a chip belongs to the item in whose line the chip starts |
| `CycleGuard.LoadOrderExcludesCycles` | apps/web/vite.config.ts:84-104 | files that load in order cannot import each other in a circle |
| `CycleGuard.RestOfPathIsCycle` | apps/web/vite.config.ts:92-95 | the reported part of the path is a cycle |
| `WorktreeOwner.FindOwner` | apps/server/src/storageCleanup.ts:205-231 | of several threads with distinct ids the result is the one that owns the worktree: the only one with its parent outside, reached by all others through sharing links under its root; independent of their order, with parent cycles allowed |
| `WorktreeOwner.Reaches` | apps/server/src/storageCleanup.ts:214-229 | the walk with its set of seen ids says exactly whether a sharing path to the owner exists, and ends |
| `WorktreeOwner.PathNeverRepeats` | apps/server/src/storageCleanup.ts:218-224 | a path to the owner never visits a thread twice, so stopping at a repetition loses nothing |
| `WorktreeOwner.SettlementChain` | apps/server/src/storageCleanup.ts:233-261 | the chain returned is a repeat-free parent path to the first settled thread, through threads that pass their settlement on; nothing is returned exactly when there is none |
| `WorktreeOwner.SettlementChainIsUnique` | apps/server/src/storageCleanup.ts:233-261 | there is at most one such chain |
| `WorktreeOwner.ParentOwnsExactly` | apps/server/src/storageCleanup.ts:205-231 | of a thread and its child with the same worktree the parent is the owner exactly if the child is a subagent or side chat under the same root; the child never is |
| `WorktreeOwner.ParentSettlesExactly` | apps/server/src/storageCleanup.ts:233-261 | a settled thread settles itself, and an unsettled one through its settled parent exactly if it is an unheld, unpinned subagent and the parent is idle, of the same project and root |
| `EventLogResume.ReplayIsComplete` | apps/server/src/ws.ts:532-631 | with appends and prune passes anywhere in between, a subscription that chooses replay has read every committed event after its cursor up to the high water, in order |
| `EventLogResume.ReplayAndTailHaveNoGap` | apps/server/src/orchestration-v2/LiveStreamBudget.ts:343-383 | replay, catch-up and what is heard live deliver every committed and published event after the cursor exactly once and nothing else, if the tail had nothing to read, pruning had not come past the high water, or the retained day was not over when it had caught up |
| `EventLogResume.CatchUpCanMissExactlyWhatIsAtRisk` | apps/server/src/orchestration-v2/LiveStreamBudget.ts:359-372 | from any reachable state of the tail's catch-up, some way of going on loses an event exactly when one has been passed over already or one that pruning deletes still waits to be read |
| `EventLogResume.RecheckedCatchUpIsComplete` | apps/server/src/orchestration-v2/LiveStreamBudget.ts:359-372 | in every run, the check that the replay makes after its read would make the catch-up complete too |
| `EventLogResume.PruningDuringTheReadIsCaught` | apps/server/src/ws.ts:601-616 | a run in which pruning during the read loses an event: only the second check turns it into a snapshot |
| `EventLogResume.LateTailCanMissEvents` | apps/server/src/orchestration-v2/LiveStreamBudget.ts:359-372 | a run from the start in which the catch-up, coming a day late, misses an event |
| `EventLogResume.HighWaterIsTrue` | apps/server/src/orchestration-v2/ProjectionMaintenance.ts:131-137 | pruning keeps the newest row of each stream, so the high water that is read is the true one |
| `EventLogResume.KeptMeansNoneMissing` | apps/server/src/ws.ts:554-560 | while neither check calls for a snapshot, no row the replay needs can have been pruned |
| `EventLogResume.ClockAndPassesStayTimely` | apps/server/src/orchestration-v2/ProjectionMaintenance.ts:252-292 | a pass prunes only up to a mark a day old, and takes its time before it measures the log; so until a day after the earliest such time the boundary stays within the log as it was when the high water was read |
| `EventLogResume.TailMissesNothing` | apps/server/src/orchestration-v2/LiveStreamBudget.ts:359-372 | while the boundary stays there, or below the high water, no row of the tail's range is missing |
| `EventLogResume.StepKeepsInv` | apps/server/src/ws.ts:532-631 | every step of the store and of the subscription keeps what has been read equal to what should have been |
| `EventLogResume.SnapshotsExactlyWhenOvertaken` | apps/server/src/ws.ts:554-616 | whatever happens between the reads: each check calls for a snapshot exactly if the cursor is ahead, which only the first one asks, or the boundary has passed it and, for a thread, something later had been appended to its stream when the high water was read |
| `EventLogResume.BoundaryMovesExactly` | apps/server/src/orchestration-v2/ProjectionMaintenance.ts:279-291 | a pass moves the boundary only when its mark is a day old, and then to the lower of the mark and what is projected, but never back |
| `AttachmentIds.DecodingIsUnique` | apps/server/src/attachmentStore.ts:17-23 | an id matches the pattern in one way only: segment, uuid and extension are determined by it |
| `AttachmentIds.CreatedIdsDecode` | apps/server/src/attachmentStore.ts:83-89 | an id made for any thread id and extension decodes to exactly its segment, uuid and extension |
| `AttachmentIds.SegmentsAreSegments` | apps/server/src/attachmentStore.ts:29-42 | a thread's segment is never `pending`, is at most 80 characters and is one the pattern reads back |
| `AttachmentIds.UnclaimedExactlyWhenPending` | apps/server/src/attachmentStore.ts:295-306 | a stored file, or the text extracted from it, counts as unclaimed exactly when its id has the pending segment |
| `AttachmentIds.SweepKeepsThreadFiles` | apps/server/src/attachmentStore.ts:283-328 | the sweep never deletes what a thread has stored, whatever the thread and the file are called |
| `AttachmentIds.SweepStalePendingAttachments` | apps/server/src/attachmentStore.ts:283-328 | the sweep keeps exactly the files that are not stale, in their order, and says how many stale ones it deleted |
| `AttachmentIds.Decode` | apps/server/src/attachmentStore.ts:67-81 | the reading of an id that the pattern allows, or the certainty that there is none |
| `AttachmentIds.LastDashTellsSuffix` | apps/server/src/attachmentStore.ts:17-23 | the last piece tells an extension, which is short, from the end of a uuid, which is long |
| `AttachmentIds.ExtensionIsKeptOrBin` | apps/server/src/attachmentStore.ts:53-61 | a file's extension is kept in the id if ids can hold it and is `bin` otherwise; without one the id has none |
| `AttachmentIds.SegmentKeepsLetters` | apps/server/src/attachmentStore.ts:29-42 | a segment keeps the letters and digits of its thread id in order, as far as 80 characters reach; there is none exactly if there are no such characters |
| `AttachmentIds.SegmentOfCleanId` | apps/server/src/attachmentStore.ts:29-42 | a thread id that ids can hold as it is, is its own segment; only `pending` gets an underscore in front |
| `AttachmentIds.SeparatorsBecomeOneDash` | apps/server/src/attachmentStore.ts:33-34 | characters that ids cannot hold become one dash between two clean parts |
| `AttachmentIds.UnclaimedUploadsGoInTime` | apps/server/src/attachmentStore.ts:283-328 | an upload that nobody claims, and the text extracted from it, goes after exactly a day, and one that was cut short after exactly an hour |
| `WorkspaceOutcomes.AttemptsSucceedExactlyUndisturbed` | apps/coder-gateway/src/workspaceConnections.ts:175-412 | for any run from the start and any run after a connect of a disconnected workspace, told from the events alone: it is answered with success exactly if its attempt was opened, found current with its own configuration and committed before any close or action and before its helper's exit was seen; it fails exactly if it was rejected; and the next connect is given this helper exactly if it was committed and neither has come since |
| `WorkspaceOutcomes.PlainAttemptSucceeds` | apps/coder-gateway/src/workspaceConnections.ts:186-366 | with nothing in its way an attempt ends in Connected with its own helper, the only one |
| `WorkspaceOutcomes.AttemptsEndAsTold` | apps/coder-gateway/src/workspaceConnections.ts:320-412 | where an undisturbed attempt ends: its helper's exit disconnects, a failed cleanup keeps the helper, a rejection disconnects or leaves the workspace with the helper that could not be closed |
| `WorkspaceOutcomes.ChangesEndAsTold` | apps/coder-gateway/src/workspaceConnections.ts:414-683 | for any run after a close or an action that takes the workspace over, told from the events alone: who waits for it and until when, exactly when it can finish, miss its workspace or fail, and which state each leaves, with the helper that could not be closed |
| `WorkspaceOutcomes.RequestWithNothingToTake` | apps/coder-gateway/src/workspaceConnections.ts:421-444 | a close of a disconnected workspace only raises the generation, and requests under a change change nothing |
| `InlineMarkdownFlanks.UnderscoresInWordsStay` | apps/web/src/composer-rich-text.ts:73-74 | a text of ordinary characters and of underscores with a word character on both sides of every run is kept whole and unmarked |
| `InlineMarkdownFlanks.DroppedDelimitersMayOpenOrClose` | apps/web/src/composer-rich-text.ts:69-74 | for any text: a unit that is dropped is a backtick or stands in a run of its character that may open there, followed by a non-space and, for underscores, not preceded by a word character, or may close there, the mirror image |
| `InlineMarkdownFlanks.EscapesAreKept` | apps/web/src/composer-rich-text.ts:42-46 | for any text: a backslash that is reached from construct to construct and the character behind it are never dropped |
| `InlineMarkdownFlanks.PairStylesExactlyWhenItMay` | apps/web/src/composer-rich-text.ts:69-108 | a delimiter on both sides of ordinary text inside ordinary text styles it, for every mark and each way to write it, exactly when the first run may open and the second may close; otherwise the whole text stays plain |
| `InlineMarkdownFlanks.BoldNestsInItalic` | apps/web/src/composer-rich-text.ts:77-88 | bold inside italic carries both marks, whichever characters the two are written with, wherever each delimiter may do its part |
| `InlineMarkdownFlanks.TicksMakeCodeExactly` | apps/web/src/composer-rich-text.ts:47-63 | any runs of backticks around ordinary text make it code exactly when there is one on each side and no line break between them; otherwise the whole text stays plain |
| `PortForwards.PortForwardManager.ClaimStart` | apps/coder-gateway/src/portForwards.ts:85-112 | the atomic claim of an ensure: which of the five answers it gives, and that only a start changes the rule's state, to Starting under its own operation |
| `PortForwards.PortForwardManager.Commit` | apps/coder-gateway/src/portForwards.ts:197-213 | an attempt becomes Running only while its own claim, at its own generation, is current; otherwise nothing changes |
| `PortForwards.PortForwardManager.ChildClosed` | apps/coder-gateway/src/portForwards.ts:160-185 | a child's exit only moves a state that holds this very child or waits for it |
| `PortForwards.PortForwardManager.CleanupFailed` | apps/coder-gateway/src/portForwards.ts:226-240 | a child whose cleanup close failed is kept in ShutdownFailed or in the stop under way |
| `PortForwards.PortForwardManager.StartRejected` | apps/coder-gateway/src/portForwards.ts:249-260 | a rejected attempt fails the rule only if the rule still waits for it |
| `PortForwards.PortForwardManager.ClaimStop` | apps/coder-gateway/src/portForwards.ts:271-301 | the atomic claim of a stop: it coalesces with one under way, ends an idle rule at once, and otherwise takes over the child or the pending attempt at a higher generation |
| `PortForwards.PortForwardManager.StopDone` | apps/coder-gateway/src/portForwards.ts:319-325 | a finished stop returns the rule to Idle only if the stop is still the current one |
| `PortForwards.PortForwardManager.StopFailed` | apps/coder-gateway/src/portForwards.ts:327-346 | a failed stop leaves the child that could not be closed in ShutdownFailed, the later failure first |
| `WorkspaceConnections.WorkspaceConnectionManager.ClaimConnection` | apps/coder-gateway/src/workspaceConnections.ts:180-215 | the atomic claim of a connect: which answer it gives, and that only Disconnected changes, to Connecting under its own operation |
| `WorkspaceConnections.WorkspaceConnectionManager.Commit` | apps/coder-gateway/src/workspaceConnections.ts:347-366 | an attempt becomes Connected only while its own claim, at its own generation, is current |
| `WorkspaceConnections.WorkspaceConnectionManager.ChildClosed` | apps/coder-gateway/src/workspaceConnections.ts:320-333 | a helper's exit only moves a state that holds this very helper or waits for it |
| `WorkspaceConnections.WorkspaceConnectionManager.CleanupFailed` | apps/coder-gateway/src/workspaceConnections.ts:380-395 | a helper whose cleanup close failed is kept in ShutdownFailed or in the change under way |
| `WorkspaceConnections.WorkspaceConnectionManager.StartRejected` | apps/coder-gateway/src/workspaceConnections.ts:403-412 | a rejected attempt disconnects only if the workspace still waits for it |
| `WorkspaceConnections.WorkspaceConnectionManager.ClaimClose` | apps/coder-gateway/src/workspaceConnections.ts:421-444 | the atomic claim of a close, which waits behind any change and takes over the helper or the pending attempt at a higher generation |
| `WorkspaceConnections.WorkspaceConnectionManager.ClaimAction` | apps/coder-gateway/src/workspaceConnections.ts:505-535 | the atomic claim of an action: the same action coalesces, another one conflicts, anything else is taken over at a higher generation |
| `WorkspaceConnections.WorkspaceConnectionManager.ChangeDone` | apps/coder-gateway/src/workspaceConnections.ts:464-471 | a finished change disconnects only if it is still the current one |
| `WorkspaceConnections.WorkspaceConnectionManager.ChangeFailed` | apps/coder-gateway/src/workspaceConnections.ts:477-497 | a failed change leaves the helper it could not close in ShutdownFailed, the later failure first |
| `RpcBridge.WorkspaceRpcBridge.Attach` | apps/coder-gateway/src/rpcBridge.ts:386-409 | a session is attached, under a fresh number, only while none is active |
| `RpcBridge.WorkspaceRpcBridge.Detach` | apps/coder-gateway/src/rpcBridge.ts:202-229 | the loop over the routes sends exactly the interrupts it can, reports a failing helper, and leaves the routes in place |
| `RpcBridge.WorkspaceRpcBridge.ReceiveBrowser` | apps/coder-gateway/src/rpcBridge.ts:231-319 | what each browser envelope does: refused, forwarded under the helper's id, or ignored, with the bridge unchanged when the send fails |
| `RpcBridge.WorkspaceRpcBridge.ReceiveHelper` | apps/coder-gateway/src/rpcBridge.ts:321-384 | what each helper envelope does to the tables, and which frame the active session is handed |
| `RpcBridge.WorkspaceRpcBridge.NeedsHelperClosed` | apps/coder-gateway/src/rpcBridge.ts:186-200 | the search through the routes when the cleanup time is up: the helper is closed exactly if a request the session had accepted has had no Exit |
| `SettingsSecrets.SettingsStore.Save` | apps/server/src/serverSettings.ts:1117-1134 | a save either stores the plan and returns what a reader would now see, or leaves the file alone and the secret store exactly as it was if the undo operations work; if some fail, every other logged name is still restored |
| `SettingsSecrets.SettingsStore.ApplyChanges` | apps/server/src/serverSettings.ts:1052-1100 | a change that fails, even after altering the store, triggers the rollback of everything logged so far |
| `SettingsSecrets.SettingsStore.Rollback` | apps/server/src/serverSettings.ts:1026-1050 | undoing runs the log from its end and goes on past failing operations |
| `SettingsSecrets.SettingsStore.Materialize` | apps/server/src/serverSettings.ts:882-916 | reading each wanted name once gives the same slots as looking every slot up in the store |
| `SettingsCache.MaterializedCache.FinishRead` | apps/server/src/serverSettings.ts:931-938 | a finished read is kept only if no secret write has begun or ended since it started |
| `SettingsCache.MaterializedCache.Lookup` | apps/server/src/serverSettings.ts:928-930 | a hit, in whatever run it comes, serves what reading every secret again would give; and it is a hit only for the settings object the cache was filled from |
| `SettingsCache.MaterializedCache.Invalidate` | apps/server/src/serverSettings.ts:924-927 | an invalidation empties the cache and outdates every read in flight |
| `GatewayHub.CoderHub.Detach` | apps/coder-gateway/src/hub.ts:281-286 | the loop over the snapshot of callbacks, with the list cleared after it |
| `GatewayHub.CoderHub.Attach` | apps/coder-gateway/src/hub.ts:220-233 | attaching detaches the workspace's earlier helper first and updates both directions of the directory |
| `GatewayHub.CoderHub.HandleCall` | apps/coder-gateway/src/hub.ts:155-201 | which of the three refusals a call is answered with, if any, and that an accepted one is registered with both ends before it is sent |
| `GatewayHub.CoderHub.Resume` | apps/coder-gateway/src/hub.ts:196-201 | the awaiting caller answers only an attached requester, and only with an outcome |
| `HelperHub.CoderHub.FailPending` | apps/server/src/coderHub.ts:90-99 | the loop over the ids fails exactly the listed requests that are still pending and forgets them |
| `HelperHub.CoderHub.Outbox` | apps/server/src/coderHub.ts:110-118 | a new subscription replaces the old one, whose stream ends and whose requests fail |
| `HelperHub.CoderHub.Ask` | apps/server/src/coderHub.ts:137-149 | when a request is refused at once, and how it is registered otherwise |
| `UpgradeSlots.UpgradeHandler.EndSession` | apps/coder-gateway/src/server.ts:902-911 | after the socket has closed its session is detached first and its own slot freed after |
| `UpgradeSlots.UpgradeHandler.ReceiveEof` | apps/coder-gateway/src/rpcBridge.ts:245 | a browser's Eof detaches the session while its socket stays in the slot |
| `UpgradeSlots.UpgradeHandler.Connected` | apps/coder-gateway/src/server.ts:825-843 | an upgrade whose browser went away while waiting never takes the slot |
| `CycleGuard.ChunkCycleGuard.Check` | apps/web/vite.config.ts:84-104 | the guard finishes without error exactly when no cycle of imports exists, then lists the chunks in an order that loads every import first; an error names a real cycle that repeats no file |
| `CycleGuard.ChunkCycleGuard.Visit` | apps/web/vite.config.ts:90-101 | a visit keeps the finished files in loading order and terminates because a path never repeats a file |
| `EventLogResume.ResumingSubscription.Check` | apps/server/src/ws.ts:554-560 | the first decision between replay and snapshot, for a thread and for the shell |
| `EventLogResume.ResumingSubscription.Recheck` | apps/server/src/ws.ts:601-616 | the second decision, on the boundary read again |
| `EventLogResume.ResumingSubscription.TakeRows` | apps/server/src/ws.ts:444-472 | pages of rows of the range are collected; what has been taken stays in order, of the scope, after the cursor and up to the position |

## Left out

- HTTP routing, static files, WebSocket framing and close codes, process spawning and `coder` invocations: a child or a helper is a party that opens, closes, fails to close or exits.
- Fibers, scopes and semaphores, and the gateway's shutdown, which interrupts everything at once: one scope per child is folded into the child.
- Diagnostic events, attempt counters, error texts and the abort signal of a connecting attempt.
- WorkspaceListing.EveryOrdinaryRunHasOneHelper: one workspace at a time; the port forwards, sockets and other workspaces that a change of the configuration also waits for are the time that passes between its steps.
- Port forwards stopped and restarted by a workspace action: the action's own work is one step between closing the helper and its end, and the rules are modelled one at a time.
- RPC envelope decoding and the list of gateway-only methods; the bridge's finalizer, which is one more detach.
- The hub's protocol version check, labels and access levels of links, unreadable requests (answered like other immediate replies), and the tool call that the target runs.
- HelperHub.OpenRequestsWaitOnTheCurrentSubscription: the lookup of the subscription together with the check for the shutdown is one step, registering with it is another, and replacing or losing a subscription with everything that fails by it is one.
- Backpressure on the browser socket, and sockets closed by a configuration change, which arrive as an ordinary close.
- Secret references, migration of legacy settings, normalization of persisted settings and the choice of a text generation provider; secret texts are strings, not bytes.
- SettingsCache.EveryServedValueIsFresh: a reload from disk is one step that waits for the writer and always makes a new settings object; settings from before a reload, which a slow reader may still ask for, are not promised fresh.
- The token collectors: citations and references are one list, found elsewhere, and the sort is a function.
- ListContinuation.ListMarkersAbove: the source hands the markers above out one at a time; the model collects them first, with the note that the walk then hangs, and a key hangs only if it would have asked on.
- Triggers, shortcuts and commands of the composer, ProseMirror and React code.
- Selections: Tab and Shift+Tab act only on a caret, and so does the model.
- Budgets on the number and bytes of replayed events, unknown event types, coalescing and the projection of events for the wire: giving up for a snapshot is possible at any time before replay begins.
- EventLogResume.ReplayAndTailHaveNoGap: the catch-up after a snapshot is not modelled separately; it is the same tail from the snapshot's sequence.
- Version 1 events and command receipts, and the prompt anchors that pruning keeps, which are pinned rows here.
- Whether a thread is idle (a field of the thread), pull requests, Git and file system walks of the storage cleanup, and the coalescing of sweeps.
- Path normalization of attachment ids, mime types, legacy pasted images, claiming of uploads, and files whose deletion fails.
