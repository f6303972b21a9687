# Verified model of the drone cloud services

A Dafny model of the stateful parts of the drone container repository, with proofs of what they keep over
whole runs. Verify it with `dafny verify dfyconfig.toml`.

## What is modelled

**The mission-control registry** (`mission-control/handlers.go`). `Registry` holds the state (missions with
their drone lists, the reverse index from device to mission, the backlogs, the table of devices seen, the
outbox in each mission's repository, the log of outside effects) and one function for each handler.
`MissionControl` holds the same handlers as methods on heap objects: `Service` with the four maps, `Mission`,
`Drone` and `BacklogItem`, updated in place through references. `MissionControl.ServeAll` ties the two
together: whatever requests and messages arrive, the objects go through a run of `Registry` made of exactly
these, and each request gets its reply. `Steps` says what one step does to one mission, one device, one outbox,
and `Replies` what the client is told, both without the handlers' own terms. The statements about runs are in
`Safety`, `IndexScan`, `Outboxes`, `LogReplay`, `TrustHistory`, `FailureEvents` and `BacklogLog`; `OutboxReader`
takes them down to the text of an outbox; `FailingRuns` has a run for each property that holds only on a
condition. `Inbox` leads from a message on the broker to the handlers it starts.

**Two fan-outs.** `Multicast` is the video fan-out as a state machine of interleaved steps and `Multiplexer`
the object with its loops; `Broadcast` and `Websocket` are the same pair for the websocket publisher. The
objects carry the run of the machine they have gone through, and between any two steps of a loop the other
goroutines take arbitrary turns. Both use the channels of `Channels`, whose `Send` and `Close` demand what
keeps them from waiting or panicking (Go Programming Language Specification, sections "Send statements",
"Receive operator" and "Close"). `VideoSource` puts the source of the frames beside the video fan-out: its loops
take the steps of a machine whose other steps are those of the fan-out and the viewers, in any order.

**Codecs and the stream table.** `VideoHeader`, `OutboxText`, `Topics` (section 4.7 of MQTT Version 3.1.1) and
`StreamTable`, the start/stop loop of the video test server together with the way a command takes to it.

## What the proofs found

- The outbox of a live mission holds a device that is not trusted in it exactly when the mission was created over an
  outbox that held the device, and since then it was neither removed nor trusted there. It does not hold a device
  that is trusted exactly when a handler stopped half way with it (its `drone-added` line was lost, or its
  `drone-removed` line landed and the removal was then abandoned) and it is still there. So replaying the outbox
  gives exactly the trusted devices when neither is the case for any device, whatever happens in other missions and
  whatever missions the removals name; in particular in runs without failures.
- Two `drone-added` lines for a device without a `drone-removed` line between them come about only like this: a device
  revived with the mission is trusted before it was removed.
- An outbox without its mission is left behind only by a deletion, or a creation, that fails to take the repository away.
- The index agrees with the scan over the missions in exactly those runs in which no removal goes through under
  the name of another mission (the handler tests only that the device has some mission, line 328).
  `IndexScan.WrongRemovalRun` is a run that ends with one device in two missions.
- The message that makes a drone trusted settles whether it is invited: until it is dropped from the mission it is
  invited if and only if the announcement was reported as published. Later trust messages find it trusted already.
- A comment on the statuses says that a failed drone is removed from the mission
  (`mission-control/handlers.go:40`). The model follows the code: the drone stays listed until something else drops it,
  and stays failed exactly until it reports the mission or is trusted.
- The backlog of a deleted mission is still served, unchanged, until the slug is created again.
- The channel `end` of a multiplexer is closed by the step that leaves no listener, and once closed, viewers that
  leave can make the process panic by closing it again if and only if somebody has registered since.
- After `end` was closed the fan-out can still offer two frames: one that it had received and one that was being sent.
- A websocket connection that is closed as too slow may still get one more message, the one whose write had begun,
  and no other. A message is missing for a subscriber if and only if its connection was closed like this.
- The video header carries a size faithfully exactly when it is 0 or between 256 and 65535: a smaller one is
  written into the high byte.
- The outbox text can be decoded exactly when no message contains a newline; reading it then gives the devices of the
  replay. The body of an added backlog item goes into the outbox as it was received, so it may contain one.
- A device id with a `/` in it breaks the round trip of command topics; mission-control then takes its own
  command for an event exactly when `events` follows the first `/`. Such a command starts no handler, but the device
  named in front of the `/` counts as seen.

## Assumptions

- A handler call is one atomic step. The code has no lock around the maps, so this is not a property of the code.
- A run is any sequence of handler calls, so the goroutines started for messages may run in any order.
- Git, MQTT, the clock and the slug library answer through arguments. A push may succeed, be lost, or land and
  still be reported as failed (removing the clone can fail after the push).
- Deleting a repository may fail. When a mission of the same name is created later, the outbox left behind may
  survive or not.
- A scan over the missions may walk the map in any order: it may answer with any mission that lists the device.
- Request and message bodies are decoded already. The sets of listeners and subscribers are walked in any order.
- A viewer registers once under an id of its own, and leaves once. After a panic nothing happens any more.
- Closing a websocket connection takes effect at once and does not wait for its peer; a write that begins afterwards
  fails, one that has begun may succeed.
- A message counts as published to the websocket when its goroutine gets the mutex.
- Launching a stream takes effect at once.
- Whoever reads an outbox takes the name of a drone from between the fixed parts of the message.

## Model

| member | source | states |
|---|---|---|
| MissionControl.ServeAll | mission-control/handlers.go:89-988 | the heap objects, served any requests and messages in any order, go through a run of the registry made of exactly these, one by one, end in its last state, and give each request the reply that `Replies` describes |
| Replies.CreateReply | mission-control/handlers.go:96-165 | OK if and only if the mission comes to be; a bad request if and only if the slug is empty, not one, or taken |
| Replies.DeleteReply | mission-control/handlers.go:204-235 | always OK |
| Replies.AssignReply | mission-control/handlers.go:255-310 | OK if and only if the drone joins; a server error if and only if only the command failed |
| Replies.RemoveReply | mission-control/handlers.go:321-380 | OK if and only if the drone leaves; a server error if and only if the line was published and the command failed |
| Replies.TaskReply | mission-control/handlers.go:410-465 | OK if and only if the item is listed; a server error if and only if the mission exists and publishing reported an error |
| MissionControl.Service.CreateMission | mission-control/handlers.go:89-165 | reply and new state are those of the creation function, for every slug and every pattern of failures; what a half-done creation leaves behind and what it finds of an earlier repository included |
| MissionControl.Service.GetMission | mission-control/handlers.go:167-202 | answers for live missions only, with slug and name; lists every drone in order with its stored status, but as offline when online and older than a minute |
| MissionControl.Service.DeleteMission | mission-control/handlers.go:204-235 | mission and its devices' index entries go, the backlog stays; the repository goes only if that succeeds |
| MissionControl.Service.AssignDrone | mission-control/handlers.go:237-311 | refused unless the mission exists, the drone is active and unassigned; listed and indexed only after the command was sent |
| MissionControl.Service.RemoveDrone | mission-control/handlers.go:313-380 | the line is published before anything is taken off the list; each failure leaves exactly what was done before it |
| MissionControl.Service.AddTask | mission-control/handlers.go:382-466 | line, commands to all drones, new item and event, in this order; nothing after a reported push error |
| MissionControl.Service.GetBacklog | mission-control/handlers.go:468-479 | answers for every slug that has a backlog, deleted missions included |
| MissionControl.Service.IsDroneActive | mission-control/handlers.go:805-817 | active when seen at most a minute ago |
| MissionControl.Service.HandleTrust | mission-control/handlers.go:556-645 | never meets a missing mission when the index is sound; marks the first entry once, then announces, allows and invites, stopping at the first failure |
| MissionControl.Service.HandlePlan | mission-control/handlers.go:834-879 | the plan is merged into the backlog of a mission that lists the device, and into no other, whatever the order of the scan |
| MissionControl.Service.HandleState | mission-control/handlers.go:922-964 | the first entry of the device in the mission found becomes online or failed, with an event only on the edge |
| MissionControl.Service.ResolveMissionSlug | mission-control/handlers.go:966-976 | the answer is a mission that lists the device, or "" when none does, for every order of the walk |
| MissionControl.Service.GetDrone | mission-control/handlers.go:978-988 | as for the slug, with the first entry of the device in that mission |
| MissionControl.Mission.Add | mission-control/handlers.go:294-298 | an untrusted entry is added at the end of the list, as a new object; the others keep what they hold |
| MissionControl.Mission.Remove | mission-control/handlers.go:361-367 | every entry of the device goes, the others stay in order |
| MissionControl.Mission.Trust | mission-control/handlers.go:573-588 | only the first entry of the device changes, and only if it was not trusted |
| MissionControl.MergePlan | mission-control/handlers.go:853-860 | the nested loop over aliased items gives the merged backlog |
| BacklogLog.MergeIs | mission-control/handlers.go:853-860 | after a merge an item has the status of the last plan entry with its id, or its own; ids, types, payloads, order and length are kept |
| MissionControl.Service.Dissolve | mission-control/handlers.go:222-225 | exactly the devices listed in the mission leave the index |
| Steps.StepEntry | mission-control/handlers.go:294-964 | which steps change the first entry of a device in a mission, and to what; all others leave it alone |
| Steps.StepPositions | mission-control/handlers.go:294-964 | but for a removal, the entry at each position of a list changes only when it is the first of its device, keeps its device, and at most one entry comes, at the end |
| Steps.PutIs | mission-control/handlers.go:573-588 | of a list, only the first entry of the device gives way |
| Steps.WithoutIs | mission-control/handlers.go:361-367 | the rebuilt list is the old one taken entry by entry, in order, without those of the device |
| Steps.StepName | mission-control/handlers.go:137-152 | a live mission has the name it was created with |
| Steps.StepRepo | mission-control/handlers.go:125-150 | which steps make, empty, take away or extend the repository of a mission, and with which line; all others leave it alone |
| Safety.SafeStep | mission-control/handlers.go:89-988 | every step, failing or not, keeps the index sound, every live mission stored in all maps, and each trusted entry the first for its device |
| Outboxes.ExtraIsRevived | mission-control/handlers.go:334-368 | in every run, for every live mission and device: the outbox holds the device and it is not trusted there, if and only if the mission was created over an outbox holding it and nothing has settled it since |
| Safety.TrustFindsEntry | mission-control/handlers.go:567-588 | in every run the mission the index names exists and lists the device |
| Outboxes.AnnouncedIsHeld | mission-control/handlers.go:573-590 | in every run a device being announced is held by the outbox already if and only if it was revived with the mission and not settled since |
| Outboxes.AddedAgainAfterRemoved | mission-control/handlers.go:573-590 | in every run, for every outbox and device: two `drone-added` lines have a `drone-removed` line between them, if and only if no revived device's addition was published there since the outbox was last empty |
| FailingRuns.AnnouncedHeldRun | mission-control/handlers.go:217-225 | for any mission and drone, a run through such a creation that ends with two `drone-added` lines in a row |
| Safety.OfflineIsDerived | mission-control/handlers.go:195-199 | in every run no stored status is offline; a reader is shown the stored status of every drone, unless it is online and older than a minute |
| Safety.SeenIsLastMessage | mission-control/handlers.go:819-820 | in every run the time stored for a device is that of its last message |
| Safety.AssignedIffSeen | mission-control/handlers.go:262-278 | in every run an assignment is carried out if and only if the mission is live, the drone is in none, the command is sent, and the drone's last message is at most a minute old |
| IndexScan.ScanIsIndex | mission-control/handlers.go:966-988 | in a safe state all scans answer with the index if and only if everything listed is indexed to its mission |
| IndexScan.ExactThroughout | mission-control/handlers.go:268-380 | in a run every device is listed once and where the index says, throughout, if and only if no removal names another mission |
| IndexScan.ResolveIsIndex | mission-control/handlers.go:966-976 | in such runs resolving gives the mission of the index, and "" exactly for unassigned devices |
| IndexScan.WrongRemovalRun | mission-control/handlers.go:328-332 | for any two missions and any device, a run with one wrong removal after which a scan may answer either mission |
| LogReplay.MissingIsHalfWay | mission-control/handlers.go:334-368 | in every run, for every live mission and device: the device is trusted there and not held by the outbox, if and only if a handler stopped half way with it and it was not dropped since |
| LogReplay.InSyncIs | mission-control/handlers.go:567-594 | in every run, for every live mission: replaying its outbox gives exactly its trusted devices if and only if no device is revived or left half way |
| LogReplay.NothingLeftBehind | mission-control/handlers.go:144-150 | while every deletion and every failed creation takes its repository away, every repository has its live mission |
| LogReplay.InSyncWithoutFailures | mission-control/handlers.go:567-594 | in a run without failures every live mission's outbox gives exactly its trusted devices |
| FailingRuns.LostAdditionRun | mission-control/handlers.go:590-594 | for any mission and drone, the run in which the line of a trusted drone is lost and the two disagree |
| FailingRuns.AbandonedRemovalRun | mission-control/handlers.go:334-339 | for any mission and drone, the run in which a removal is announced and abandoned and the two disagree |
| TrustHistory.KeyNeverChanges | mission-control/handlers.go:578-584 | in every run a trusted drone keeps its key until it is dropped from the mission |
| TrustHistory.AllowFollowsTrust | mission-control/handlers.go:596-597 | in every run, each time a key is allowed on a repository, the step that does it creates the mission with this key at this place, or is a trust message that marked a drone of it with this key and was announced |
| TrustHistory.InvitedIfDelivered | mission-control/handlers.go:590-633 | in every run a drone that becomes trusted is invited, until it is dropped, if and only if its announcement was reported as published |
| FailingRuns.UninvitedRun | mission-control/handlers.go:578-594 | for any mission, drone and keys, the run in which a second trust message does not help |
| TrustHistory.InviteFollowsAllow | mission-control/handlers.go:597-633 | in every run an invitation directly follows an allowed key, with which the mission has held the drone as trusted |
| FailureEvents.EventsAreFalls | mission-control/handlers.go:947-962 | in every run a drone of a mission has as many failure events as times it became failed there |
| FailureEvents.FailsAgainAfterCleared | mission-control/handlers.go:941-949 | in every run two of them have a matching state message, a trust or an assignment between them |
| FailureEvents.FailureLasts | mission-control/handlers.go:941-949 | in every run a failed drone stays listed until it is dropped, and stays failed throughout if and only if it neither reports the mission nor is trusted |
| FailingRuns.RecoveredRun | mission-control/handlers.go:583-586 | for any mission and drone, a run in which it fails, stays listed, and a trust message takes it out of `failed` |
| FailureEvents.DeviceEventsAreFalls | mission-control/handlers.go:947-962 | without wrong removals the same count holds for the device over all missions |
| FailureEvents.DeviceFailsAgainAfterCleared | mission-control/handlers.go:941-949 | without wrong removals two failure events for a device have such a step between them even across missions |
| BacklogLog.BacklogIsRecorded | mission-control/handlers.go:418-448 | in every run a live backlog is an in-order part of the tasks in its outbox |
| BacklogLog.BacklogIsWhole | mission-control/handlers.go:418-423 | in every run, for every live mission: the backlog is all of them if and only if since its creation no line landed behind a reported error, and it was not created over an outbox that announced items |
| BacklogLog.WholeWithoutFailures | mission-control/handlers.go:418-448 | in a run without failures it is all of them in every live mission |
| FailingRuns.ForgottenTaskRun | mission-control/handlers.go:418-423 | for any mission and item, the run in which the line lands behind an error and the backlog misses it |
| FailingRuns.RevivedTaskRun | mission-control/handlers.go:126-153 | for any mission and item, the run in which the outbox left behind announces it and the new backlog misses it |
| BacklogLog.DeletedBacklogIsFrozen | mission-control/handlers.go:222-225 | the backlog of a deleted mission stays as it was until the slug is created again |
| Multicast.SafeStep | video-multiplexer/handlers.go:57-92 | every interleaved step keeps, for every viewer, the account of frames offered, queued, received and dropped, and which channels are closed |
| Multicast.NeverBlocks | video-multiplexer/handlers.go:57-92 | in every run every operation that is reached can proceed, without waiting and without panic, unless it is the last listener leaving after `end` was closed |
| Multicast.LossyDelivery | video-multiplexer/handlers.go:72-83 | in every state of every run received and queued frames are an in-order part of those published while registered that the loop has been through, published = received + queued + dropped, and at most 6 of 10 are queued |
| Multicast.DroppedWhenLagging | video-multiplexer/handlers.go:76-80 | in every run nothing was dropped for a viewer if and only if it never had more than 5 unread when offered one |
| Multicast.PromptViewerLosesNothing | video-multiplexer/handlers.go:76-80 | such a viewer has everything it was offered |
| Multicast.ClosedAtTheEnd | video-multiplexer/handlers.go:84-92 | when the fan-out has finished exactly the viewers registered at the end of the input have closed channels |
| Multicast.EndClosedOnce | video-multiplexer/handlers.go:62-70 | in every run `end` is closed if and only if exactly one departure has left no listener |
| Multicast.LeavingPanicsAfterLateViewer | video-multiplexer/handlers.go:57-92 | in every state of every run, once `end` was closed, the fan-out and viewers that leave can reach the panic if and only if somebody has registered since |
| Multicast.LateViewerPanics | video-multiplexer/handlers.go:57-70 | for any two viewers, the run after which the late one cannot leave without a panic |
| Multicast.FrameIsTaken | video-multiplexer/handlers.go:72-92 | in every safe state the fan-out gets back to taking a frame, or to its end, by exactly so many steps of its own as it has listeners left and one or two more, whatever the viewers do |
| Multiplexer.Multiplexer.Subscribe | video-multiplexer/handlers.go:57-61 | the viewer is registered with its own empty channel and counts from the frame published next; no other channel changes |
| Multiplexer.Multiplexer.Unsubscribe | video-multiplexer/handlers.go:62-70 | the listener goes, and `end` is closed if it was the last; it must not be closed already then |
| Multiplexer.Multiplexer.Take | video-multiplexer/handlers.go:113-123 | a viewer is handed the oldest frame waiting for it; no other channel changes |
| Multiplexer.Multiplexer.OfferTo | video-multiplexer/handlers.go:75-81 | one turn of the loop is one step of the machine, and its send finds room |
| Multiplexer.Multiplexer.Others | video-multiplexer/handlers.go:57-92 | between two steps of a loop exactly those of any given turns of viewers happen that are possible, in their order |
| Multiplexer.Multiplexer.SendToAll | video-multiplexer/handlers.go:74-82 | the loop over the listeners, interleaved with arbitrary turns of viewers, ends and publishes exactly the one frame |
| Multiplexer.Multiplexer.Multicast | video-multiplexer/handlers.go:72-92 | the whole loop publishes exactly its input, in order, and ends with the channels closed, interleaved with anything |
| Broadcast.GaplessOrClosed | mission-control/handlers.go:493-552 | in every state of every run what was written to a subscriber is a prefix of what was published since it was added, as far as the publishers have been through it; all it holds is an in-order part of that; something is missing if and only if it was closed as too slow; at most 32 wait |
| Broadcast.MissingFoundFull | mission-control/handlers.go:544-550 | in every run exactly as many messages are missing as found 32 waiting |
| Broadcast.DoneIffLeft | mission-control/handlers.go:503-521 | in every run the serving loop of a subscriber is over if and only if a write failed or the context was done |
| Broadcast.LeavesOnce | mission-control/handlers.go:503-521 | in every run nothing is taken or written after that, and only then the subscriber is removed |
| Broadcast.ClosedWhenFull | mission-control/handlers.go:544-550 | in every run a connection was closed as too slow if and only if some message found 32 waiting |
| Broadcast.ClosedIsSilent | mission-control/handlers.go:509-518 | in every run at most one more message is written after that, the one whose write had begun |
| Broadcast.WrittenAfterClose | mission-control/handlers.go:509-518 | for any subscriber, a run in which this one is written |
| Broadcast.PublisherGetsOut | mission-control/handlers.go:541-552 | whatever the subscribers do, a publisher with the mutex gives it back by exactly one step of its own for each subscriber left and one more |
| Broadcast.HoldIsBounded | mission-control/handlers.go:541-552 | in every run, however the steps mix, each step of a publisher that has the mutex leaves one subscriber less |
| Websocket.WebsocketSubscriber.Offer | mission-control/handlers.go:545-550 | the message is queued when there is room, otherwise the connection is closed |
| Websocket.Sockets.AddSubscriber | mission-control/handlers.go:530-534 | the subscriber is in the set with nothing queued or written, and counts from what is published next; nobody else changes |
| Websocket.Sockets.RemoveSubscriber | mission-control/handlers.go:535-539 | the subscriber leaves the set and later messages are not meant for it; nobody else changes |
| Websocket.Sockets.TakeMessage | mission-control/handlers.go:509 | the oldest message waiting is taken |
| Websocket.Sockets.WriteMessage | mission-control/handlers.go:510 | a message written is the one that was taken, on a connection that was open then |
| Websocket.Sockets.FailWrite | mission-control/handlers.go:511-518 | a failed write ends the serving loop |
| Websocket.Sockets.EndContext | mission-control/handlers.go:506-508 | a context that is done ends the serving loop between two messages |
| Websocket.Sockets.PublishMessage | mission-control/handlers.go:541-552 | the loop over the subscribers, interleaved with arbitrary turns of the serving goroutines, ends and publishes exactly the one message |
| VideoSource.Ffmpeg.SendFrame | video-multiplexer/handlers.go:234 | the send ends: by steps of the fan-out alone, and whatever the others do meanwhile, exactly this frame is received |
| VideoSource.Ffmpeg.ReadAll | video-multiplexer/handlers.go:221-236 | reads the frames until the process dies or a poll finds the multiplexer's `end` closed, then kills it |
| VideoSource.Ffmpeg.Try | video-multiplexer/handlers.go:207-239 | one launch and its reads; the next attempt or the clean-up is what follows |
| VideoSource.Ffmpeg.RetryLoop | video-multiplexer/handlers.go:207-270 | all frames of exactly 15 attempts in order, or those up to the kill |
| VideoSource.Ffmpeg.StartFfmpeg | video-multiplexer/handlers.go:179-239 | interleaved with anything, the source comes to its end with exactly its acts in order; unless it kills the process it launches 15 times and the fan-out receives all frames of the 15 attempts |
| VideoSource.TriesFifteenTimes | video-multiplexer/handlers.go:207-270 | in every run a source whose start succeeded and which killed nothing is past its retry loop only after 15 launches |
| VideoSource.CleansUpInOrder | video-multiplexer/handlers.go:183-198 | in every run of source, fan-out and viewers the input is closed by the last act of the source only, after one deletion and one stop command if the start succeeded; at most 15 launches |
| VideoSource.ReceivesWhatIsRead | video-multiplexer/handlers.go:222-235 | in every run the frames received by the fan-out are those read, but for the last one while it is on its way or when `end` was found closed |
| VideoSource.OneFrameAfterEnd | video-multiplexer/handlers.go:228-235 | in every run, once `end` is closed, the fan-out receives at most the frame being sent then |
| VideoSource.TwoFramesAfterEnd | video-multiplexer/handlers.go:72-83 | in every run, once `end` is closed, at most that frame and one received before are still offered to listeners |
| VideoSource.TwoFramesPossible | video-multiplexer/handlers.go:72-83 | for any viewer and frames, a run in which both are |
| VideoSource.SourceStops | video-multiplexer/handlers.go:190-238 | in every run, once `end` is closed, the source has at most 65 moves left, whatever is answered |
| VideoSource.NextOwn | video-multiplexer/handlers.go:72-92 | until both have finished, source or fan-out can move, whatever is answered and without any viewer |
| VideoSource.EverybodyIsClosed | video-multiplexer/handlers.go:84-92 | from every reachable state with `end` closed, source and fan-out finish by their own moves, and everybody registered has a closed channel then |
| VideoSource.ClosedWhenFinished | video-multiplexer/handlers.go:84-92 | when the fan-out has finished the source is gone, and exactly those registered at the end of the input have closed channels |
| VideoHeader.MakeMagicBytes | video-multiplexer/handlers.go:131-140 | the buffer filled in place is the header of the two sizes |
| VideoHeader.DigitsAreMinimal | video-multiplexer/handlers.go:137-138 | the bytes written for a size stand for it, without a leading zero |
| VideoHeader.HeaderRoundTrip | video-multiplexer/handlers.go:131-140 | the header is "jsmp" and four bytes; for all integers, reading the sizes back gives them if and only if each is 0 or in 256..65535 |
| OutboxText.OutboxFile.AppendMessage | mission-control/handlers.go:779-801 | the file stays the text of the lines appended |
| OutboxText.TextRoundTrip | mission-control/handlers.go:793-795 | decoding the text of any lines gives them back if and only if no message has a newline |
| OutboxText.TextIsUnambiguous | mission-control/handlers.go:793-795 | without newlines no two sequences of lines have the same text |
| OutboxReader.PrintedIs | mission-control/handlers.go:793-795 | for each kind of message the line that is printed, written out |
| OutboxReader.TextIsReplay | mission-control/handlers.go:779-801 | the text printed for any messages decodes to their lines if and only if no device and no body has a newline, and reading it then gives the replay of the messages |
| OutboxReader.ReaderIsInSync | mission-control/handlers.go:779-801 | in every run a reader of this text holds exactly the trusted devices of a live mission if and only if no device is revived or left half way |
| Topics.CommandRoundTrip | video-test-server/mqtt_broker.go:40-44 | for all ids and subfolders, a command topic is parsed to what it was printed from if and only if the id has no "/" |
| Topics.CommandTakenForEvent | mission-control/mqtt_broker.go:40-45 | for all ids, mission-control dispatches its own command as an event if and only if "events" follows the first "/" of the id |
| Topics.MatchesByLevels | mission-control/mqtt_broker.go:39 | a topic is delivered if and only if its first level is empty and its second is "devices" |
| Topics.EventRoundTrip | mission-control/mqtt_broker.go:40-45 | for all ids and topics, an event comes to mission-control as it was published if and only if the id has no "/"; the devices' side then ignores it |
| Inbox.EventIsHandled | mission-control/handlers.go:819-832 | what a device without a "/" in its id publishes marks it as seen and starts the handler of exactly its topic with exactly its body |
| Inbox.CommandOnlyMarks | mission-control/handlers.go:819-832 | for all ids, a command of mission-control starts none of these handlers, and marks a device as seen, the one in front of the first "/", if and only if "events" follows it |
| StreamTable.Start | video-test-server/main.go:63-73 | a start launches a process only for a device that has none |
| StreamTable.Stop | video-test-server/main.go:74-83 | a stop kills the process of the device and forgets it |
| StreamTable.Run | video-test-server/main.go:58-85 | after any commands the table holds exactly the devices last started, on the address first started with; each command has done exactly its launch or kill, these alternate, and the processes not killed are the table |
| StreamTable.RunIssued | video-test-server/main.go:42-85 | for commands issued through the topics to ids without "/", the table has a stream for exactly the devices whose last issued video command is a start |

## Left out

- HTTP routing, CORS, JSON and YAML encoding, the websocket library, slug generation: libraries; decoded values are arguments and `made` is what the slug library answers.
- Running git, ffmpeg and the SSH server: foreign processes; only whether they fail and what lands in the outbox is kept.
- Data races between handlers: handler calls are atomic steps here, the maps have no lock in the code.
- Listing all missions, wifi secrets, flight-plan events and the shapes of websocket events: formatting of values that are passed through.
- The parser of resolutions in the standard error of ffmpeg (`video-multiplexer/handlers.go:241-269`): regular expressions over an external pipe.
- The table of devices with its `sync.Once` in `streamVideo` (`video-multiplexer/handlers.go:94-112`): a viewer may get a multiplexer whose fan-out has finished, and the first value it receives may be nil.
- That an entry of that table goes away when the start command fails: the code does not do this (`video-multiplexer/handlers.go:183-188`).
- The race between launching and killing a process in the video test server: a launch takes effect at once.
- The Pub/Sub and IoT paths, gzserver, gzweb, mqtt-server, video-server and fog-drone: process launching, configuration and single checks.
