# AllMyStuff's shared logic, verified

A Dafny model of the parts of the AllMyStuff desktop app that other windows, other
members of a fleet or a remote machine must agree with, and proofs of what those parts
promise. The project stands alone; `dafny verify dfyconfig.toml` checks all of it.

## What is modelled

**The Files canvas** (`gui/src/files-canvas.ts`). Canvas records merge by last writer
wins; frames whose nesting concurrent edits have broken are repaired; the repaired
frames are painted by a walk over a stack; a dropped frame gets a new parent; tiles that
would overlap are pushed down row by row.
- `FrameForest` — parent links as a partial function, chains, cycles, forests.
- `FrameNesting` — the repair, as loops over the frames.
- `PaintOrder` — the stack walk, against the recursive preorder.
- `Reparenting` — descendants as a fixpoint, the tightest containing frame.
- `CanvasRecords` — the merge loop, and histories of merges.
- `TileCollisions` — the push-down loop with its bound on attempts.

**Peer protocols** (`gui/src/store.svelte.ts`).
- `DirectRooms`, `RoomKeeping`, `RoomMerging` — private two-device rooms: what opening,
  an invite and a merge message do (as functions), the store's room list changed in place
  to exactly that, and two ends over a network that reorders.
- `RoomNotices` — what opening and merging forget and tell, and which merges are believed.
- `RoomInvites` — whose word counts for a room, for one invite and for every run of messages.
- `RoomCreation`, `RoomRace` — both ends may make the room, over ordered links; and the
  race that a network which reorders adds.
- `RoomPresence` — joins, leaves and the presence echo over ordered links.
- `SupportChat` — lines shown at once, reconciled by reply and echo.
- `ConsoleVideo` — video switches that wait for a teardown, and the epoch that lets a
  newer one overtake.

**Input and polling** (`gui/src/console-touch.ts`, `gui/src/input-keys.ts`,
`gui/src/video-poll-scheduler.ts`, `gui/src/tauri.ts`).
- `TouchMouse` — fingers, timers, remote buttons, the wheel and the zoom.
- `TouchMeaning` — what taps, drags, holds and two fingers send, over whole runs.
- `KeyForwarding` — the ordered record of held keys and the remote's pressed keys.
- `VideoPolling`, `VideoBatch` — one poll at a time over an edge-triggered queue, and the
  batch of packets a poll brings.

**Shares and invites** (`gui/src/catalog.ts`, `gui/src/screen-shares.ts`,
`gui/src/venue-settings.ts`, `gui/src/venues.ts`).
- `ShareGrants` — grants, authorization, approval and revocation.
- `Base64Url` — the base64 of RFC 4648, sections 4 and 5, without padding.
- `Invites` — venue envelopes as JSON, invites, and the union of servers.

`Wrappers` and `Sorting` hold the option type and a stable insertion sort that stands for
the language's own stable sort.

Where the source changes state, the model has a class or a loop over local variables; each
such method's contract equates its result, or the new state, with a function of its
inputs and the old state, and the theorems are about those functions. Protocols are
step relations; a theorem about "every run" quantifies over all sequences of enabled steps.

## What turned out otherwise than documented

- `resolveDesktopTileCollisions` says it keeps cells collision-free at every size. For
  tiles standing anywhere that holds exactly when a row is at least twice as high as a
  tile (`FreeMetrics`); for tiles on one grid of rows, exactly when a row is at least as
  high as a tile (`GridMetrics`). The native metrics, whose rows are 8 higher than the
  tiles, satisfy the second only.
- After two quick switches of the console's input, the first one's teardown blanks the
  stage although the second one's route is up (`OvertakenBlanks`). What the newest apply
  renders stays rendered exactly until an overtaken one goes on (`OnlyOvertakenBlanks`,
  `RenderedUntilOvertaken`). No route leaks all the same.
- Closing the console is said to tear down exactly the routes it created. It takes down
  one it did not create when somebody else has disconnected the console's own route and
  made it anew (`CloseTakesForeign`), and only then (`TeardownTakesOwn`).
- Two ends that make a room at once, and of which one then opens both, converge on the
  lesser over ordered links (`CreationConverges`). Over a network that reorders they need
  not: a merge that overtakes its own sender's invite finds nothing to drop, the invite
  then adds the dropped room again, and one end keeps two rooms where the other has one
  (`ReorderedCreationDiverges`).
- A device that hangs up while its join is still starting the room scope announces the
  join afterwards, and stays listed (`ListedButGone`). `ListedExactly` says who is listed
  by whom in every run: whoever is in the call or whose last hang-up caught a join
  waiting, provided the lister had the room when the last word reached it. Having the
  room at the end is not enough: a join that arrives before the room is known is ignored.
- The replies to two equal lines do not suffice to show both (`RepliesAloneLoseALine`);
  the echoes do. `ReplyShowsIffUndisturbed` says when one reply suffices for its line.
- A failed video poll with no request behind it strands what is queued until the timer
  ticks (`FailureStrands`, `OnlyFailureStrands`, `StrandedUntilTick`).
- The repeat of a non-modifier key that is not tracked leaves the remote holding a key
  that is not recorded as held; no other key event does (`MirrorUnlessStray`). Neither a
  Meta release nor releasing all lifts it, only its own key-up (`StrayLiftedByItsKeyUp`,
  `ReleaseAllLeavesStray`).

## Model

| member | source | states |
|---|---|---|
| FrameNesting.NormalizeFrameNesting | gui/src/files-canvas.ts:475-499 | For any order of starts, the loops return the input frames with exactly the missing parents and each cycle's least frame's parent cleared, every other field and link kept, in input order. |
| FrameNesting.BreakCycleFrom | gui/src/files-canvas.ts:480-497 | One turn of the outer loop: the chain of the start now ends, and only a cycle's least frame on that chain may have lost its parent. |
| FrameNesting.RepairedIsForest | gui/src/files-canvas.ts:470-499 | Whatever the links were, after the repair every chain of parents ends and every parent exists. |
| FrameNesting.RepairedFixpoint | gui/src/files-canvas.ts:475-499 | The repair changes nothing if and only if the layout was a forest. |
| FrameNesting.RepairIdempotent | gui/src/files-canvas.ts:475-499 | Repairing twice is repairing once. |
| FrameNesting.CycleLosesOneLink | gui/src/files-canvas.ts:489-495 | From any frame of a cycle: the least frame of the cycle loses its parent, every other frame of it keeps its own. |
| FrameNesting.LayoutIgnoresOrder | gui/src/files-canvas.ts:475-499 | Two permutations of the same frames have the same links, and each frame is repaired alike. |
| PaintOrder.FramesInPaintOrder | gui/src/files-canvas.ts:507-528 | The stack walk lists the repaired frames in the recursive preorder of the repaired forest. |
| PaintOrder.WalkStack | gui/src/files-canvas.ts:517-526 | Popping and pushing reversed children empties the stack having listed exactly the preorder. |
| PaintOrder.PaintsEachFrameOnce | gui/src/files-canvas.ts:507-528 | The paint order of a forest holds every frame exactly once. |
| PaintOrder.PreorderPaintsSubtree | gui/src/files-canvas.ts:517-526 | A frame's part of the order is its subtree, each member once. |
| PaintOrder.SubtreeContiguous | gui/src/files-canvas.ts:501-528 | Each subtree is one unbroken run that begins with its own frame. |
| PaintOrder.SiblingsContiguous | gui/src/files-canvas.ts:501-528 | All children of one parent, with their subtrees, are one unbroken run. |
| PaintOrder.EncloserFirst | gui/src/files-canvas.ts:501-528 | A frame comes before everything it encloses, at any depth. |
| PaintOrder.SiblingsAscend | gui/src/files-canvas.ts:515-516 | Of two siblings the lesser id, with its whole subtree, comes first. |
| PaintOrder.SamePicture | gui/src/files-canvas.ts:501-528 | Permutations of the same frames are painted as the same list, field for field. |
| Reparenting.DescendantsOf | gui/src/files-canvas.ts:457-470 | The growing loop ends, on cyclic layouts too, with exactly the frames whose parent chain reaches the id. |
| Reparenting.ContainingFrameIsTightest | gui/src/files-canvas.ts:249-270 | A frame is found if and only if one not excluded holds the box with a margin of 18, and it has the least area of those. |
| Reparenting.EligibleHolds | gui/src/files-canvas.ts:249-270 | A frame is eligible if and only if it is not the subject, not excluded, and every point within 18 of the subject's box on each axis lies in it. |
| Reparenting.AttachKeepsForest | gui/src/files-canvas.ts:457-470 | In a forest, moving x under y keeps it a forest if and only if y is neither x nor a descendant of x. |
| Reparenting.ReparentKeepsForest | gui/src/files-canvas.ts:260-270 | Dropping a frame anywhere, its descendants excluded from the candidates, keeps the forest. |
| CanvasRecords.CompareTellsNewer | gui/src/files-canvas.ts:156-158 | The comparison is positive exactly for the later write, by counter and then by actor, and zero exactly for equal stamps. |
| CanvasRecords.MergeCanvasRecords | gui/src/files-canvas.ts:162-176 | The loop holds, per id, a record of what was held and what came in that none of them is newer than: none has a higher counter, or the same counter and a higher actor. An earlier holder keeps ties; `changed` holds if and only if the map differs. |
| CanvasRecords.HydrateCanvasRecords | gui/src/files-canvas.ts:181-186 | The same of a snapshot with the live records merged into it. |
| CanvasRecords.HistoryHoldsGreatest | gui/src/files-canvas.ts:156-186 | After any number of batches a member holds, per id, a record that nothing ever delivered is newer than, by counter and then by actor. |
| CanvasRecords.MembersConverge | gui/src/files-canvas.ts:156-186 | Members that were delivered the same records, in whatever order, batching and repetition, hold the same map. |
| CanvasRecords.HydrationCommutes | gui/src/files-canvas.ts:178-186 | Snapshot first or listener first gives the same map if and only if no id has two different records under one stamp. |
| TileCollisions.IntersectIsOverlap | gui/src/files-canvas.ts:389-391 | Two tiles intersect if and only if some point lies strictly inside both. |
| TileCollisions.BeforeIsOutranks | gui/src/files-canvas.ts:408-422 | The order puts one tile before another if and only if it has the higher tier, or in one tier the newer stamp or the only one, or with equal stamps or none the earlier place in the input. |
| TileCollisions.ResolveDesktopTileCollisions | gui/src/files-canvas.ts:402-442 | The loop returns the tiles in input order, each where the priority order settles it. |
| TileCollisions.SettleTile | gui/src/files-canvas.ts:424-437 | The inner loop moves a tile down a row at a time until free or out of attempts. |
| TileCollisions.ResolutionOnlyMovesDown | gui/src/files-canvas.ts:402-442 | x, id and parent never change, y only grows by whole rows, framed tiles stay. |
| TileCollisions.PushedOnlyByPriority | gui/src/files-canvas.ts:409-442 | A tile is pushed past a row only where it would share an inner point with a tile of higher tier, newer stamp or earlier input. |
| TileCollisions.FittingTilesResolve | gui/src/files-canvas.ts:402-442 | If a tile, wherever it is pushed to, can block at most one of another's rows, the bound on attempts is enough and no point lies inside two top-level tiles (by the pigeonhole). |
| TileCollisions.GridMetrics | gui/src/files-canvas.ts:399-442 | Tiles on one grid of rows always end up without a common inner point if and only if a tile is no higher than a row. |
| TileCollisions.FreeMetrics | gui/src/files-canvas.ts:399-442 | Tiles anywhere always end up without a common inner point if and only if a row is at least twice as high as a tile. |
| DirectRooms.OpenKeepsLeast | gui/src/store.svelte.ts:7061-7116 | Opening keeps exactly the least of the direct rooms with the peer, and no other room changes. |
| DirectRooms.MergeLeavesTarget | gui/src/store.svelte.ts:8047-8091 | A believed merge leaves exactly the room named as the only direct one with the sender. |
| DirectRooms.MergeTouchesOnlyThePair | gui/src/store.svelte.ts:8047-8091 | No merge message, whatever it says, changes, adds or loses a room that is not this exact pair, its call or its chat. |
| RoomInvites.InviteNeedsHost | gui/src/store.svelte.ts:7871-7875 | An invite to a known room from anyone but its host, recorded or named by the id, changes nothing. |
| RoomInvites.HostRestates | gui/src/store.svelte.ts:7868-7890 | An invite from the host that lists us restates just that room in place: exactly the members named and the sender, each once, the name and access where given, an owner where none was recorded. |
| RoomInvites.HostRemoves | gui/src/store.svelte.ts:7876-7884 | An invite from the host that does not list us removes just that room and its call. |
| RoomInvites.UnknownInvite | gui/src/store.svelte.ts:7891-7901 | An unknown room is added, hosted by the sender, exactly if the invite lists us; nothing else changes. |
| RoomInvites.OnlyHostChangesRoom | gui/src/store.svelte.ts:7859-7914 | In every run of messages a room, its call and its chat stay as they are unless its host restates it or the other half of a private pair merges it. |
| RoomNotices.OpenTells | gui/src/store.svelte.ts:7094-7114 | Opening with several rooms tells the peer of each but the least, once, that it is merged into the least; and exactly if this device answers for the least, its owner or named by its id, it restates it to all others listed. |
| RoomNotices.OpenForgets | gui/src/store.svelte.ts:7043-7055 | The calls and chats of just the rooms merged away are forgotten. |
| RoomNotices.BelievedIffTarget | gui/src/store.svelte.ts:8047-8076 | A merge is believed if and only if it lists just us and the sender, drops another room than it keeps, one of them known as private with the sender, keeps none greater than one known, and keeps no room that is known and not private, or unknown and not named for us or the sender. |
| RoomNotices.MergeMeans | gui/src/store.svelte.ts:8047-8091 | A merge that is not believed changes and sends nothing; one that is leaves just the room named with the sender, spelled out field by field, restates it exactly if this device answers for it, and forgets the others' calls and chats. |
| RoomKeeping.RoomStore.RemoveMergedRoom | gui/src/store.svelte.ts:7043-7055 | The room and all kept under its id go. |
| RoomKeeping.RoomStore.OpenDirectRoom | gui/src/store.svelte.ts:7061-7114 | The new state and everything sent: a room made and announced, or duplicates dropped one by one and each named to the peer, the host restating the room kept. |
| RoomKeeping.RoomStore.HandleInvite | gui/src/store.svelte.ts:7866-7913 | The new state is the one the `RoomInvites` rows describe: only the host's word counts, a roster without us drops the room, an unknown room is kept if it lists us. |
| RoomKeeping.RoomStore.HandleMerge | gui/src/store.svelte.ts:8047-8091 | The new state and what is sent, through every refusal, the adoption of an unknown target and the loop over duplicates. |
| RoomKeeping.RoomStore.HandleRoomMessage | gui/src/store.svelte.ts:7859-7865 | Messages from this device itself do nothing; others go to their case. |
| RoomKeeping.DropTwice | gui/src/store.svelte.ts:7043-7055 | Dropping rooms one after another is dropping them all at once. |
| RoomMerging.MergingConverges | gui/src/store.svelte.ts:7057-7116 | Both ends holding the same direct rooms, one or both opening: in every order of opening and delivery, once nothing is in flight both hold exactly the least, all other rooms as they were. |
| RoomMerging.MergingSettles | gui/src/store.svelte.ts:7057-7116 | Wherever such a run has got to, deliveries alone bring both ends to exactly the least room. |
| RoomMerging.DeliveryDescends | gui/src/store.svelte.ts:7865-8091 | Every delivery lowers the merges under way, else the messages under way: a merge is answered by invites at most, an invite by nothing. |
| RoomMerging.StepKeepsInv | gui/src/store.svelte.ts:8047-8091 | Each step keeps: an end holds all or only the least, a merge under way means its sender has merged, every message in flight is about the least. |
| RoomMerging.ConcurrentCreationShares | gui/src/store.svelte.ts:7057-7093 | Two ends that create at once hold the same two rooms when the invites have crossed. |
| RoomCreation.CreationConverges | gui/src/store.svelte.ts:7057-7116 | From no room at all, over ordered links, each end opening when and as often as it likes: once nothing is under way both hold the same of the two rooms made, some if and only if anybody opened, and only the least if an end opened while it held both; all other rooms as they were. |
| RoomCreation.RunKeepsFine | gui/src/store.svelte.ts:7865-8091 | Every run keeps: the other's announcement comes first in its line until heard, later messages are about the least, who merged has told the other, and a merge once made is never undone. |
| RoomRace.ReorderedCreationDiverges | gui/src/store.svelte.ts:8047-8091 | Where messages may overtake each other: from any two ends without a room of the two, a run ends with nothing under way, one end holding the least only and the other both. |
| RoomPresence.JoinedListEachOther | gui/src/store.svelte.ts:7915-7939 | In every run over ordered links, once nothing is in flight any two devices in the call list each other, even where a join was ignored for an unknown room. |
| RoomPresence.StepKeepsInv | gui/src/store.svelte.ts:7303-7339 | Each join, hang-up, learning or delivery keeps: who is up is listed, or a join is under way that will be echoed. |
| RoomPresence.DeliveryDescends | gui/src/store.svelte.ts:7915-7951 | Every delivery lowers leaves in flight, else unlisted pairs, else messages in flight: echoes end. |
| RoomPresence.DeliveriesDrain | gui/src/store.svelte.ts:7915-7951 | From any net, deliveries alone reach one with nothing in flight. |
| RoomPresence.ListedAreJoined | gui/src/store.svelte.ts:7334-7373 | If no hang-up overtakes its own join, whoever is listed once nothing is in flight is in the call. |
| RoomPresence.ListedExactly | gui/src/store.svelte.ts:7303-7339 | In every run, once nothing is in flight and no join of x waits: y lists x if and only if x is in the call or its last hang-up caught a join waiting, and y had the room when x's latest message reached it. |
| RoomPresence.ListsItself | gui/src/store.svelte.ts:7303-7339 | In every run, with no join of its own waiting, a device lists itself if and only if it is in the call or its last hang-up caught a join waiting. |
| RoomPresence.ListedButGone | gui/src/store.svelte.ts:7303-7339 | Any member can end up listed by any other that has the room, nothing in flight, without being in the call. |
| RoomPresence.HangUpHeardUnlessJoining | gui/src/store.svelte.ts:7303-7339 | A device that hangs up and does not join again is listed by one that has the room, once its waiting joins and all messages have run their course in whatever order, if and only if a join was waiting when it hung up. |
| RoomPresence.RoomCall.PresenceAdd | gui/src/store.svelte.ts:8197-8205 | The member is listed, everyone else as before. |
| RoomPresence.RoomCall.PresenceDrop | gui/src/store.svelte.ts:8207-8216 | The member is not listed, everyone else as before. |
| RoomPresence.RoomCall.BroadcastRoom | gui/src/store.svelte.ts:8220-8240 | One message to every member but this device, in roster order. |
| RoomPresence.RoomCall.JoinRoomHere | gui/src/store.svelte.ts:7303-7310 | A known room not joined yet counts as joined at once, its announcement waiting. |
| RoomPresence.RoomCall.ScopeStarted | gui/src/store.svelte.ts:7310-7314 | The announcement: this device lists itself and tells everyone. |
| RoomPresence.RoomCall.LeaveRoom | gui/src/store.svelte.ts:7334-7339 | Leaving unlists this device and tells everyone, if it was in the call. |
| RoomPresence.RoomCall.HandleJoin | gui/src/store.svelte.ts:7915-7939 | A join lists its sender, and is echoed if the sender was not listed and we are in the call; for an unknown room nothing happens. |
| RoomPresence.RoomCall.HandleLeave | gui/src/store.svelte.ts:7940-7943 | A leave unlists its sender, room known or not. |
| SupportChat.NoLineTwice | gui/src/store.svelte.ts:9268-9324 | In every interleaving of sends, replies and repeated echoes no id stands twice, and each row tells its numbered line. |
| SupportChat.EchoesSettle | gui/src/store.svelte.ts:9268-9324 | Once every numbered line was echoed the thread has exactly those, each once; temporary rows remain only of sends never taken. |
| SupportChat.ReplyShowsIffUndisturbed | gui/src/store.svelte.ts:9268-9324 | A line's first reply leaves the line shown if and only if its echo came before, or nothing since the send was another send of its text or the echo of a technician line of its text not shown yet. |
| SupportChat.ThreadKeepsOrder | gui/src/store.svelte.ts:9268-9324 | Over every run whatever a thread shows keeps its place and its text, a numbered row wholly, and new rows come after. |
| SupportChat.AppendPlaces | gui/src/store.svelte.ts:9301-9324 | A row whose id is there changes nothing; a row that answers no temporary row comes last; all others stay in place. |
| SupportChat.AppendReplaces | gui/src/store.svelte.ts:9301-9318 | A new technician row takes the place of the first temporary row of its text. |
| SupportChat.StepKeepsInv | gui/src/store.svelte.ts:9268-9324 | Every step keeps: ids distinct, one temporary row per text, a temporary row gone once its own id is shown. |
| SupportChat.Chats.AppendChat | gui/src/store.svelte.ts:9301-9324 | The thread afterwards (deduplicated by id, a pending copy replaced in place, else appended), the unread count, all other threads untouched. |
| SupportChat.Chats.SendChat | gui/src/store.svelte.ts:9268-9279 | An empty text does nothing; any other is appended under a fresh temporary id. |
| SupportChat.Chats.SendReplied | gui/src/store.svelte.ts:9280-9294 | The temporary row takes the id and time of the reply unless it is gone or the id is shown; a missing reply does nothing. |
| ConsoleVideo.NoRouteLeaks | gui/src/store.svelte.ts:3796-3902 | In every interleaving, a console-made instance in the catalog is the one owned and carries the input shown; a closed console has none. |
| ConsoleVideo.RenderedIsShown | gui/src/store.svelte.ts:3796-3898 | In every run what is rendered comes from the input shown, a closed console renders and owns nothing, and popping out the rendered input leaves nothing rendered, owned or connected. |
| ConsoleVideo.ConnectsOwnNothing | gui/src/store.svelte.ts:3841-3898 | Whenever a route is made nothing was owned, and a suspended apply that makes one is the newest. |
| ConsoleVideo.OvertakenNeverConnects | gui/src/store.svelte.ts:3837-3855 | Once a newer apply began, a suspended one changes no route and no ownership, however late it goes on. |
| ConsoleVideo.OnlyOvertakenBlanks | gui/src/store.svelte.ts:3854-3855 | A step that begins no apply, is not the newest one going on, and neither opens, closes nor pops out changes what is rendered if and only if it is an overtaken apply going on while something is rendered, made or found. |
| ConsoleVideo.RenderedUntilOvertaken | gui/src/store.svelte.ts:3841-3898 | Over any run between two such decisions, what is rendered stays so if and only if no overtaken apply goes on. |
| ConsoleVideo.OwnedRenderedUnlessOvertaken | gui/src/store.svelte.ts:3796-3898 | Over all steps, opening, closing and switching too: a route that is owned stays the one rendered unless an overtaken apply goes on. |
| ConsoleVideo.SwitchConnects | gui/src/store.svelte.ts:3830-3898 | If its teardown is done before another decision, a switch to another input ends with that input's route in the catalog and rendered, whatever overtaken applies and other windows do meanwhile. |
| ConsoleVideo.TeardownTakesOwn | gui/src/store.svelte.ts:3793-3820 | In every run, closing, switching or popping out takes only console-made instances out of the catalog if and only if the owned route was not disconnected and made anew by somebody else. |
| ConsoleVideo.CloseTakesForeign | gui/src/store.svelte.ts:3793-3820 | From any start a run of four steps leads to where closing the console takes down an instance it did not make. |
| ConsoleVideo.OvertakenBlanks | gui/src/store.svelte.ts:3841-3898 | Two quick switches: the newest route is in the catalog, made or found, and nothing is rendered. |
| ConsoleVideo.Stage.ApplyConsoleVideo | gui/src/store.svelte.ts:3841-3898 | The state at the await or at the end, and whether it was suspended. |
| ConsoleVideo.Stage.TornDown | gui/src/store.svelte.ts:3854-3898 | The state after a suspended apply has gone on. |
| ConsoleVideo.Stage.Connect | gui/src/store.svelte.ts:3856-3898 | What is rendered and what is owned after connecting, or finding no input or no sink. |
| ConsoleVideo.Stage.OwnedConnect | gui/src/store.svelte.ts:4241-4283 | A route found is not ours, a route made is, a refused one is none. |
| ConsoleVideo.Stage.CloseConsole | gui/src/store.svelte.ts:3796-3820 | The owned route goes, the console is reset. |
| ConsoleVideo.Stage.SetConsoleInput | gui/src/store.svelte.ts:3830-3835 | The same input does nothing; another is applied. |
| ConsoleVideo.Stage.PopOutConsoleInput | gui/src/store.svelte.ts:4336-4341 | The shown input, if rendered, releases what is owned. |
| TouchMouse.TouchesStayBalanced | gui/src/console-touch.ts:61-371 | In every run of touches, timers and control switching: no button pressed twice or released unpressed, exactly the held one down, the mode a function of the fingers, and 28 times the lines sent plus the residue equals the travel, the residue below 28. |
| TouchMouse.NoClickAfterGesture | gui/src/console-touch.ts:171-359 | Once two fingers were down and until all are up: no left press and no long press. |
| TouchMouse.HandleConserves | gui/src/console-touch.ts:104-276 | Each event keeps the scroll's account, through commits and changes of fingers. |
| TouchMouse.ZoomPins | gui/src/console-touch.ts:252-260 | A zoom step stays within scale 1 to 8 and shows under the midpoint the content point of the gesture's anchor. |
| TouchMouse.MoveSetsPinnedView | gui/src/console-touch.ts:195-260 | Whatever view a two-finger move asks for is such a step. |
| TouchMouse.ReanchorKeepsView | gui/src/console-touch.ts:100-113 | A gesture anchored again on the fingers there are asks for just the view there is, so the picture does not jump. |
| TouchMouse.HandleBalanced | gui/src/console-touch.ts:127-368 | Each event presses and releases exactly as `held` changes, or clicks while nothing is held. |
| TouchMeaning.LoneFingerSteers | gui/src/console-touch.ts:195-213 | Over any moves of a lone finger with control on: nothing but steering is sent, in all the finger's travel on each axis. |
| TouchMeaning.PressHolds | gui/src/console-touch.ts:134-169 | Left goes down with a finger exactly if it comes within 350 ms and 64 px of a tap; else the hold timer is set exactly until the finger wanders 12 px. |
| TouchMeaning.StrokeMeans | gui/src/console-touch.ts:134-305 | One finger down, moving and up: after a tap a left drag; else a left click exactly if it is up within 350 ms without having wandered 12 px; and the steering by its travel. |
| TouchMeaning.TapThenStroke | gui/src/console-touch.ts:145-157 | From the start, a tap and a second stroke: the whole log, a drag or a stroke of its own by the time and place between them. |
| TouchMeaning.HoldMeans | gui/src/console-touch.ts:162-167 | If the hold timer fires, the finger has not wandered; right is down from then until it lifts, whatever it moves. |
| TouchMeaning.TwoFingerTap | gui/src/console-touch.ts:172-346 | Two fingers down, wobbling up to 4 px and up one by one: a right click exactly if the first is up within 300 ms, and nothing else, but what was held is let go. |
| TouchMeaning.GestureDecides | gui/src/console-touch.ts:222-251 | What a move makes of an undecided gesture, in pixels: zoom, scroll or still nothing. |
| TouchMeaning.GestureMeansOneThing | gui/src/console-touch.ts:78-81 | Over any run with two fingers or more down a committed gesture keeps its meaning: a zoom turns no wheel, a scroll moves no picture. |
| TouchMeaning.GestureEnds | gui/src/console-touch.ts:307-346 | The lift that ends a pair: a right click exactly for a quick unmoved one, home to the natural size exactly for a zoom under 1.02. |
| TouchMeaning.ScrollSendsWholeLines | gui/src/console-touch.ts:261-275 | A scroll step sends lines as soon as either axis has 28 px, against the fingers' way and never more than they went; the rest, under a line, goes the same way. |
| TouchMeaning.PairMeasures | gui/src/console-touch.ts:104-113 | The midpoint is as far from one finger as from the other; the spread is their distance, at least 1. |
| TouchMeaning.LoneFingerPans | gui/src/console-touch.ts:209-218 | With control off a lone finger drags the zoomed picture along: the content under it stays under it. |
| TouchMouse.Surface.FingerDown | gui/src/console-touch.ts:134-193 | The state and requests after a finger comes down: press, drag, timer or a new gesture. |
| TouchMouse.Surface.FingerMove | gui/src/console-touch.ts:195-221 | The same after a finger moves: glide, pan or the gesture. |
| TouchMouse.Surface.MovePair | gui/src/console-touch.ts:222-276 | The same of the pair: commit, zoom or scroll. |
| TouchMouse.Surface.ScrollPair | gui/src/console-touch.ts:261-275 | Whole lines out, the rest kept. |
| TouchMouse.Surface.FingerUp | gui/src/console-touch.ts:278-346 | The same after a finger lifts: release, click, re-anchor, right click, snap. |
| TouchMouse.Surface.FingerCancel | gui/src/console-touch.ts:348-359 | The same after the system takes a touch. |
| TouchMouse.Surface.LongPressDue | gui/src/console-touch.ts:162-167 | The timer presses the right button if the finger still rests. |
| TouchMouse.Surface.ForgetAll | gui/src/console-touch.ts:361-368 | Everything lifted and forgotten. |
| KeyForwarding.RemoteMirrorsHeld | gui/src/input-keys.ts:29-76 | In every run whose repeats follow tracked presses, the remote has exactly the held keys down after every event. |
| KeyForwarding.MirrorUnlessStray | gui/src/input-keys.ts:42-71 | One event keeps that if and only if it is not the repeat of an untracked non-modifier. |
| KeyForwarding.StrayLeavesOne | gui/src/input-keys.ts:52-55 | What such a repeat leaves: the held keys as they were, and on the remote exactly one key more. |
| KeyForwarding.StrayLiftedByItsKeyUp | gui/src/input-keys.ts:52-70 | The key of such a stray repeat stays down on the remote through every event but its own release. |
| KeyForwarding.ReleaseAllLeavesStray | gui/src/input-keys.ts:72-74 | Releasing all that is held leaves exactly the stray key down. |
| KeyForwarding.MetaLeavesModifiers | gui/src/input-keys.ts:63-70 | A released Meta leaves exactly the other held modifiers, here and on the remote. |
| KeyForwarding.ReleaseAllLiftsReversed | gui/src/input-keys.ts:72-74 | Each held key is released once, last of the record first, and none is left down; with `HeldInPressOrder`, last pressed first. |
| KeyForwarding.HeldInPressOrder | gui/src/input-keys.ts:30-62 | In every run the record is in the order of the keys' last presses, repeats not counted. |
| KeyForwarding.PressesForwarded | gui/src/input-keys.ts:45-63 | In every run a key's presses sent are its presses made and, unless it is a modifier, its repeats, as many. |
| KeyForwarding.Forwarder.Forward | gui/src/input-keys.ts:42-71 | What is held and what is sent after any key event. |
| KeyForwarding.Forwarder.Sweep | gui/src/input-keys.ts:66-70 | The loop lifts the non-modifiers in press order and keeps the rest. |
| KeyForwarding.Forwarder.Lift | gui/src/input-keys.ts:34-39 | A held key goes and its release is sent; an unheld one does nothing. |
| KeyForwarding.Forwarder.LiftAll | gui/src/input-keys.ts:72-74 | The loop empties what is held, releasing in reverse. |
| VideoPolling.NoEdgeLost | gui/src/video-poll-scheduler.ts:1-43 | When polls drain: with none running and no ready event under way the queue is empty, without any timer. |
| VideoPolling.OnePollServesAll | gui/src/video-poll-scheduler.ts:15-35 | At most one poll at a time and none without a request; with none running every accepted request was followed by a poll begun after it; with one running another waits exactly if a request came since. |
| VideoPolling.PendingIsServed | gui/src/video-poll-scheduler.ts:24-34 | A poll's end, good or bad, begins another exactly if a request waits. |
| VideoPolling.NonePolledAfterStop | gui/src/video-poll-scheduler.ts:15-42 | After stop no poll begins. |
| VideoPolling.OnlyFailureStrands | gui/src/tauri.ts:1525-1546 | A step leaves frames stranded if and only if it is the end of an undrained poll with no request waiting and no event under way. |
| VideoPolling.FailureStrands | gui/src/tauri.ts:1525-1546 | It happens: one frame, its event, and a poll that fails. |
| VideoPolling.StrandedUntilTick | gui/src/tauri.ts:1539-1546 | Stranded frames stay so, and no poll begins, until the timer ticks. |
| VideoPolling.PollScheduler.RequestPoll | gui/src/video-poll-scheduler.ts:15-27 | The flags and polls begun after a request. |
| VideoPolling.PollScheduler.PollSettled | gui/src/video-poll-scheduler.ts:24-34 | The flags and polls begun after a poll's end. |
| VideoBatch.ReadBatch | gui/src/tauri.ts:1526-1537 | The loop over a batch hands on its recognized packets, in order, up to an end, a zero length or a cut. |
| VideoBatch.PollHandsOn | gui/src/tauri.ts:1478-1537 | Of all that was packed, exactly the packets of 28 bytes or more whose first is 1, 2 or 3 are handed on, in order. |
| VideoBatch.UnpackPack | gui/src/tauri.ts:1526-1537 | Every packet comes out of its batch, whole and in order. |
| VideoBatch.UnpackCut | gui/src/tauri.ts:1530-1533 | A batch cut short yields exactly the packets wholly before the cut. |
| ShareGrants.ApprovalSuffices | gui/src/store.svelte.ts:2964-2968 | Granting what a structurally sound connection requires makes the proposal succeed. |
| ShareGrants.ApprovalMinimal | gui/src/store.svelte.ts:2964-2967 | Whatever approval newly allows anyone was named by a request of that person: its endpoint, or any screen of its machine. |
| ShareGrants.ApprovalGrantsOnlyRequired | gui/src/store.svelte.ts:2948-2967 | Approving exactly what a connection was denied for newly allows nobody anything that none of those requests named. |
| ShareGrants.GrantsMonotone | gui/src/catalog.ts:124-177 | More grants never refuse what fewer allowed, and leave structural soundness as it was. |
| ShareGrants.RevokeExact | gui/src/store.svelte.ts:10788-10833 | A route survives a revocation, as often as it stood, if and only if a room wired it or each end was free of grants or is covered by one not revoked. |
| ShareGrants.RevokeClears | gui/src/store.svelte.ts:10788-10817 | The revoked id is gone from all of the person's nodes, and after a screen share so is every record of that machine's screens. |
| ShareGrants.RevokeUndoesGrant | gui/src/store.svelte.ts:10760-10817 | Granting what the catalog asked for and revoking that grant restores every node's grants exactly. |
| ShareGrants.ValidIff | gui/src/catalog.ts:207-231 | Two endpoints may be wired if and only if they differ, are known, neither machine is unclaimed, the one can send, the other receive, and their media agree or one is generic; the route and its media are given. |
| ShareGrants.PermitsIsReach | gui/src/screen-shares.ts:25-35 | A grant permits if and only if its media agree or one is generic, its direction is this or both, and it names no endpoint, this one or, to send a screen, any screen of the machine. |
| ShareGrants.GrantAddsOnce | gui/src/store.svelte.ts:10760-10786 | A grant is appended on its machine, a screen share in its machine-wide form, unless its person holds the like anywhere. |
| ShareGrants.ApprovalWires | gui/src/store.svelte.ts:2964-2979 | Approving what a connection that may be wired required leaves its route in the catalog once, others as they were; one that may not be wired gets no route by any approval. |
| ShareGrants.Shares.Connect | gui/src/store.svelte.ts:2938-2959 | The route appears if it is allowed; if grants are missing exactly those become the pending share. |
| ShareGrants.Shares.ApprovePendingShare | gui/src/store.svelte.ts:2964-2979 | All requests granted, the route added if it now goes through, nothing pending. |
| ShareGrants.Shares.GrantOn | gui/src/store.svelte.ts:10760-10786 | The grant recorded in its durable form on a shared node, unless the person has its like anywhere. |
| ShareGrants.Shares.Revoke | gui/src/store.svelte.ts:10788-10817 | The catalog after a revocation. |
| ShareGrants.Shares.RevokedIds | gui/src/store.svelte.ts:10792-10802 | The ids that go: the one named and, of a screen share, all of that machine's screens. |
| ShareGrants.Shares.Reauthorize | gui/src/store.svelte.ts:10823-10833 | The loop keeps exactly the routes a room wired or that need no grant. |
| ShareGrants.ProposeAllowsIff | gui/src/catalog.ts:124-195 | A connection is let through if and only if its endpoints may be wired, spelled out as in `ValidIff`, and each end's machine is shared with nobody or a grant its person holds on any machine reaches it; it is denied exactly if only the latter fails. The route and media that come out are stated. |
| Base64Url.DecodeEncode | gui/src/venue-settings.ts:140-155 | Decoding undoes encoding for all bytes, padding recomputed from the length. |
| Base64Url.EncodeIsUrlSafe | gui/src/venue-settings.ts:140-146 | The encoding has the least length unpadded base64 allows and only URL-safe letters. |
| Base64Url.BtoaPadsToQuads | gui/src/venue-settings.ts:140-146 | Before the pads are stripped the encoding is whole quads, with as few pads as that takes. |
| Base64Url.LoneLetterRefused | gui/src/venue-settings.ts:150-155 | A part with one letter over whole quads is refused. |
| Invites.EncodeInvite | gui/src/venue-settings.ts:140-146 | The loop from bytes to a string, and the result. |
| Invites.ExportCarries | gui/src/venue-settings.ts:32-92 | Exported and parsed, a venue keeps its label, its url if remote, else its non-blank servers and relays. |
| Invites.InviteRoundTrip | gui/src/venue-settings.ts:139-165 | Any non-empty list of venues decodes to as many envelopes, in order, each carrying its venue. |
| Invites.DecodesIff | gui/src/venue-settings.ts:150-165 | A part is an invite if and only if it decodes to a list, not empty, each of whose entries is a venue; the envelopes are theirs in order. |
| Invites.TrimMeans | gui/src/venues.ts:69-82 | Trimming takes off all the white space at both ends and nothing else. |
| Invites.UnionMeans | gui/src/venues.ts:69-82 | The union has each non-blank server, trimmed, once, and each relay once, with the credentials named last. |
| Invites.EffectiveServers | gui/src/venues.ts:69-82 | The nested loops compute that union. |
| Invites.InviteKeepsServers | gui/src/venue-settings.ts:97-165 | Joining by an invite of static venues gives the very servers it was made from. |
| Invites.InviteKeepsVenues | gui/src/venue-settings.ts:97-165 | Each venue of an invite arrives under its label, by its url alone if remote, else with all its non-blank servers and relays, credentials too. |
| Invites.ImportKeepsServersIff | gui/src/venue-settings.ts:97-110 | Importing one exported venue keeps its servers if and only if it is static, or remote naming none. |

## Left out

- Ids, node ids and room ids are totally ordered tokens: one order stands for the locale
  comparison and the code-unit comparison alike, except that `NormalizeFrameNesting` takes
  any order of starts. Node ids are taken as already canonical outside `ShareGrants`.
- Frames and tiles have unique ids; coordinates and wheel travel are exact reals, not
  binary floating point; times are integers.
- The backend is connected. Toasts, window management, logs, unread badges of rooms, saved
  settings, file shares of a room, knocks and the media legs of a call are not modelled.
- DirectRooms: which machines may be asked to a private room at all, and joining the call of
  the room just opened, are not part of opening.
- RoomMerging: the shared start is an assumption of `MergingConverges`, and what leads to
  it is the subject of `RoomCreation`; invites and merges may be reordered but are not lost
  or duplicated, and no third member is ever added.
- RoomCreation: each end would make its room under one given id, which no other room bears.
- RoomPresence: the roster is fixed, links are reliable and ordered, and a room once known
  stays known, so removal from a roster and closing a room are not covered.
- SupportChat: the node numbers lines afresh and echoes a sent line with its own text;
  folding in stored history (`loadChatHistory`) is not modelled.
- ConsoleVideo: one console at a time; opening one over an open one, which forgets what it
  owned, is not a step. Which capability is looked up and whether it may be wired are
  inputs of each apply.
- TouchMouse: the distance and the logarithmic pinch ratio are parameters; the host resets
  the touches whenever pointer forwarding goes off, and pointer ids go down once before
  they go up. That the hold timer fires 550 ms after the press is left to the timer. Clamping of the view by the host is not modelled.
- VideoBatch: the fields of a packet's header beyond its kind are not decoded.
- ShareGrants: endpoint ids are parsed values rather than strings matched by a pattern;
  labels, descriptions and the backend's own persistence are left out.
- Invites: JSON text and UTF-8 are one codec that is taken to read back what it writes;
  remote venues are not fetched.
- `desktopColumnPosition`, legacy row placement, grid metrics per platform, file names and
  tile labels are finite tables or single formulas.
