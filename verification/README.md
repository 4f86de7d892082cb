# Verified model of the chat system

This project models the parts of the chat system whose behaviour is hard to see from any one function, and
proves properties of every run of them:

- **Calls.** `VoiceCall` is one browser tab of the 1:1 call protocol, cut at its awaits; `CallWorld` is any
  number of tabs and messages on their way. `CallSafety` and `CallDelivery` hold what is true when each method
  runs to its end, `CallConsent`, `CallInterruption` and `CallStaleAnswer` what is left when other steps get
  in at the awaits (with `CallSettlement` and `CallArrivals`), `CallHandshake` and `CallRuns` that calls can be
  completed, `CallOutcomes` which tabs are free after every way out of one. `SignalingHub` and `Signaling` are
  the server in between: slices filtered in place, and the endpoint that checks and stamps.
- **Messages and reactions.** `Store` and `Reactions` are the tables, their queries and the client's reaction
  view; `MessageService` is each handler, statement by statement and as a whole; `Pipeline` interleaves any
  number of handlers with the chat service's copying (`ChatHub`), and `PipelineRuns` follows a client's event
  to the tables and the channel; `ReactionPipeline`, `ReactionViews` and `ReactionOverlap` join the running
  system to the client; `History` is the loading of a page.
- **Chats.** `Friends` and `ChatGraph`: friend-gated chats as a growing graph.
- **Sessions.** `SessionHub`: the registry of web sockets and the streams that write to them.
- **The rest.** `ClientList` (optimistic sending), `PreviewCache` and `Metadata` (link previews), `Runes`
  (truncation of quotes), `Seqs` (lists).

Each system has the same form. Classes with the source's fields and loops are proved against functions;
the same functions, cut at every point where another handler may get in, are the steps of a machine
(`Action`, `Apply`, `Run`), and the results are about every list of actions. `dafny verify dfyconfig.toml`
checks everything.

What the machines take for granted: identifiers that the source draws at random are fresh; hashing is
injective; a publication to NATS or Redis appends to a log, and a persist event may be delivered any number of
times; the signaling network may lose and reorder messages but does not duplicate them; a browser connects only
when it holds both descriptions and, where methods run to their end, gathers candidates only after its local
one; the Accept button passes on the call and peer that the tab shows; once open, a client's socket delivers
its chat's channel without gaps (a reconnect is a new subscription).

Points where the code and a reader's expectation part:

- "An idle tab holds no connection" is false when steps get in at `getUserMedia`;
  `CallInterruption.LeakExactlyOnLateGrant` says exactly which step breaks it.
- "No media without consent" survives every interleaving but one: a promise of an earlier call that settles
  while the tab holds another call, after which the manager reads `this.callId` and answers for that one
  (`CallConsent`, `CallStaleAnswer`). That leaves the outcome of every await free. If promises settle only for
  the connection the tab still holds, there is no exception (`CallSettlement.ConsentWhenHeld`).
- "No candidate of a live call is dropped" is false with a second tab of the invited user:
  `CallRuns.SecondTabDropsCandidate` is a run, `CallDelivery.DropsExactlyWhenRinging` the exact condition.
- Candidates are given in order only if none arrives while the queue is being flushed;
  `CallInterruption.ArrivalDuringFlush` is the exact condition, `CallArrivals.ArrivalsConserved` what is kept.
- Reaction views can stay wrong in two ways: when handlers overlap on one reaction
  (`ReactionOverlap.OverlapDiverges`), and, with no overlap at all, when a change comes between the server's
  reading of the list and the moment the client puts the list in place or is subscribed, because the client
  empties its list, awaits the history and then replaces the whole list (`ReactionOverlap.LateListMisses`).
  `ReactionViews.ViewsAgreeExactlyWhen` is the exact condition, `ReactionViews.ViewsRightUnlessMissed` the one
  without overlap.
- An og:image that cannot be made absolute erases an earlier one, after which a twitter:image may fill the
  slot; `Metadata.ImageChosen` states the choice with that effect.

## Model

| member | source | states |
|---|---|---|
| `CallWorld.CallAgreement` | frontend/lib/voiceCall.ts:82-203 | in every run, with any step let in at every await: a tab is idle exactly when it has no call and exactly when it has no peer; a tab sharing a call with the tab that placed it belongs to the invited user, each names the other as peer, and both agree with the placed call on video |
| `CallSafety.ConsentBeforeMedia` | frontend/lib/voiceCall.ts:142-157 | when each method runs to its end before its tab does anything else: the placing tab has a remote description or is active only if a tab of the invited user accepted that call; any other tab gets past ringing only if it accepted the call itself |
| `CallConsent.ConsentSurvivesInterleaving` | frontend/lib/voiceCall.ts:291-326 | with any step let in at every await: in a run without stale answers the placing tab has a remote description or is active only if a tab of the invited user accepted that call |
| `CallConsent.UnacceptedAnswerIsStale` | frontend/lib/voiceCall.ts:295-305 | a resumed method sends an answer for a call that its tab has not accepted if and only if the step is a stale answer: an awaited local description of an earlier call settling in a tab that by now holds another call |
| `CallStaleAnswer.StaleAnswerBreaksConsent` | frontend/lib/voiceCall.ts:291-326 | the exception is reachable when the outcome of every await is free: for any two friends there is an interleaved run, in which a promise of a closed connection settles and an answer is taken before any offer was set, that gives the placing tab a remote description although no tab accepted the call |
| `CallSettlement.ConsentWhenHeld` | frontend/lib/voiceCall.ts:291-326 | with any interleaving at the awaits and no exception: if promises settle only for the connection that the tab still holds, the placing tab has a remote description or is active only if a tab of the invited user accepted the call |
| `CallSettlement.RunWaits` | frontend/lib/voiceCall.ts:295-305 | under the same premise no run contains a stale answer, because every method on its way to an answer belongs to a call its tab accepted |
| `CallSafety.ConnectionOnlyInCall` | frontend/lib/voiceCall.ts:171-203 | when each method runs to its end: a tab holds a peer connection exactly when it is outgoing, connecting or active, the connection is for the call and peer the tab names, and the microphone stream is held exactly while a connection is; idle and incoming tabs hold neither |
| `CallSafety.CandidatesConserved` | frontend/lib/voiceCall.ts:223-246 | when each method runs to its end: candidates given to the connection followed by the queue are exactly the candidates that arrived for it, in order; none is given before the remote description is set, none is left queued after |
| `CallInterruption.ArrivalDuringFlush` | frontend/lib/voiceCall.ts:223-246 | one arrival in the awaits of a flush keeps the order exactly if it equals all that still wait, otherwise it overtakes them |
| `CallArrivals.ArrivalsConserved` | frontend/lib/voiceCall.ts:223-246 | in every interleaved run that does not replace the tab's connection or carry a flush over to another one, the candidates given, those queued and those that suspended flushes still hold are together, as a multiset, exactly those that arrived for the connection |
| `CallSafety.ArrivalsAreDeliveries` | frontend/lib/voiceCall.ts:328-334 | the arrivals recorded for a connection grow by exactly the candidate messages for its call from its peer, and by nothing else |
| `CallDelivery.NoCandidateDropped` | frontend/lib/voiceCall.ts:235-236 | when each method runs to its end and every user ever opens one tab: a candidate on its way to a tab that holds its call with its sender as peer finds a connection there, so the branch that drops candidates is not taken for a live call |
| `CallDelivery.DropsExactlyWhenRinging` | frontend/lib/voiceCall.ts:235-236 | when each method runs to its end, with any number of tabs: a tab that holds a call has no connection, and so drops its candidates, if and only if it only rings |
| `CallRuns.SecondTabDropsCandidate` | frontend/lib/voiceCall.ts:235-236 | for any two friends there is a run with two tabs of the invited user in which a candidate is relayed to the tab that still rings for its call with its sender as peer, which drops it |
| `CallRuns.CandidateMeetsRinging` | frontend/lib/voiceCall.ts:159-169 | the same from every reachable world with an idle tab of the caller and two idle tabs of a friend |
| `CallDelivery.RunOnce` | frontend/lib/voiceCall.ts:259-267 | when each method runs to its end and every user has one tab: an invitation exists at most once on its way, and never for a call that its target already rang for or accepted |
| `CallInterruption.LeakExactlyOnLateGrant` | frontend/lib/voiceCall.ts:113-132 | of all steps of the interleaved system exactly one kind leaves an idle tab holding a connection: the browser granting media to a tab whose call ended while it was asking |
| `CallInterruption.IdleHoldsNoConnection` | frontend/lib/voiceCall.ts:211-221 | with any interleaving at the awaits, a tab that never met such a late grant holds no connection when idle |
| `CallInterruption.InterruptedStartLeaksConnection` | frontend/lib/voiceCall.ts:105-140 | the late grant can happen from any world with an idle tab: place, hang up while asking for the microphone, then grant, and the idle tab holds a connection |
| `CallRuns.CallConnects` | frontend/lib/voiceCall.ts:105-326 | from every reachable world, with any other tabs and messages about, a call between two idle tabs of friends with willing browsers can be completed: the run goes on to a world in which both are active in it, name each other and agree on its kind, and candidates that overtook the offer have all been given, in order |
| `CallHandshake.Queueing` | frontend/lib/voiceCall.ts:235-240 | candidates that come before the description wait in the queue, all of them and in order |
| `CallHandshake.Answering` | frontend/lib/voiceCall.ts:291-312 | taking an offer gives everything that waited to the connection and sends one answer |
| `CallHandshake.HangUpFreesBoth` | frontend/lib/voiceCall.ts:211-221 | across both ends and the relay: hanging up sends one message, and hearing it frees the peer whatever its phase |
| `CallOutcomes.DecliningFreesBoth` | frontend/lib/voiceCall.ts:205-209 | from every reachable world in which a tab rings for a call that another tab placed and still holds: the button, the relay and the delivery leave both tabs free, and no other tab has moved |
| `CallOutcomes.HangingUpFreesBoth` | frontend/lib/voiceCall.ts:211-221 | the same for hanging up, on either side and in whatever phase |
| `CallOutcomes.RefusedMicrophoneFreesBoth` | frontend/lib/voiceCall.ts:181-193 | the same for a callee that accepts and is refused its microphone |
| `CallOutcomes.RefusalFreesSender` | frontend/lib/voiceCall.ts:251-256 | from every reachable world: a message the server refuses comes back as an error, after which its sender is free and no other tab has moved |
| `CallOutcomes.FailureFrees` | frontend/lib/voiceCall.ts:153-155 | from every reachable world: a failed or closed connection frees the tab that holds it and moves no other |
| `CallOutcomes.RejectionFrees` | frontend/lib/voiceCall.ts:113-124 | whatever promise of a method rejects, candidates aside, the tab is free and waits for nothing, and exactly an acceptance still sends the rejection to the caller |
| `CallOutcomes.RefusedMedia` | frontend/lib/voiceCall.ts:181-193 | a refused microphone frees the placing tab silently and the accepting one with exactly one rejection to the caller |
| `CallOutcomes.UnexpectedIsIgnored` | frontend/lib/voiceCall.ts:257-344 | messages without a sender or call, of other calls, of others than the peer, out of turn, or without the description or candidate they need leave the tab exactly as it is |
| `VoiceCall.VoiceCallManager.StartOutgoing` | frontend/lib/voiceCall.ts:105-140 | a busy tab does nothing; a refused microphone leaves the tab idle and sends nothing; else the tab is outgoing for the new call with a connection and has sent the invitation; all as the suspended pieces run to their end |
| `VoiceCall.VoiceCallManager.AcceptIncoming` | frontend/lib/voiceCall.ts:171-203 | only the call that rings is accepted; a refused microphone leaves the tab idle and sends the rejection; else the tab is connecting with a connection and has sent the acceptance; all as the suspended pieces run to their end |
| `VoiceCall.VoiceCallManager.Decline` | frontend/lib/voiceCall.ts:205-209 | declining the call that rings clears the tab and sends exactly one message, the rejection of that call to the caller; any other call, or no ringing, changes and sends nothing |
| `VoiceCall.VoiceCallManager.HangUp` | frontend/lib/voiceCall.ts:211-221 | from any phase but idle the tab is cleared and one message goes to the peer, a rejection while ringing and an end otherwise; an idle tab does nothing |
| `VoiceCall.VoiceCallManager.FlushPendingIce` | frontend/lib/voiceCall.ts:223-233 | hands the whole queue to the connection in order and empties it; without a connection the queue stays |
| `VoiceCall.VoiceCallManager.AddIceCandidate` | frontend/lib/voiceCall.ts:235-246 | ties the object to the step that CandidatesConserved is about: dropped, queued or given |
| `VoiceCall.VoiceCallManager.HandleSignal` | frontend/lib/voiceCall.ts:248-346 | every branch of the dispatcher, run to its end, equals the suspended pieces of the interleaved model settled one after the other |
| `VoiceCall.VoiceCallManager.OnConnectionState` | frontend/lib/voiceCall.ts:142-157 | a failed or closed connection clears the tab, a connected one makes it active, without one nothing happens |
| `VoiceCall.SettleFlush` | frontend/lib/voiceCall.ts:223-233 | flushing one candidate per await and flushing the queue in one go end in the same state |
| `Signaling.SignalingHandler.Forward` | services/chat-service/internal/handler/signaling_handler.go:71-99 | accepts exactly allowed types with both ids between friends; a refused message reaches nobody; an accepted one reaches every tab of the target once, unchanged except that from_user_id is the true sender |
| `Signaling.EndpointRefinesRelay` | services/chat-service/internal/handler/signaling_handler.go:71-99 | whatever sender a client claims, the endpoint accepts what the call protocol relays and the target reads exactly the relayed signal |
| `Signaling.ResumeSendsProper` | frontend/lib/voiceCall.ts:278-309 | discharges the premise of EndpointRefinesRelay for every message sent after an await |
| `Signaling.ButtonsSendProper` | frontend/lib/voiceCall.ts:159-221 | and for candidates, declining and hanging up |
| `Signaling.EveryTabGetsWhatIsDue` | services/chat-service/internal/handler/signaling_handler.go:36-69 | over every run of connections, disconnections and messages, a tab was sent exactly the messages relayed to its owner while it was online and the refusals of its own, once each and in order |
| `Signaling.StampsAreTrue` | services/chat-service/internal/handler/signaling_handler.go:91-97 | every relayed message a tab received carries the user that sent it, agrees otherwise with what was sent, and came from a friend of the tab's owner |
| `Signaling.HubFansOut` | services/chat-service/internal/service/signaling_hub.go:57-63 | the copies written by a hub in which the tabs registered in order are the fan-out of the call protocol |
| `CallWorld.FanOutReachesAllTabs` | services/chat-service/internal/service/signaling_hub.go:57-63 | every tab of the target user gets exactly one copy and nobody else gets any |
| `SignalingHub.Hub.Register` | services/chat-service/internal/service/signaling_hub.go:31-37 | appends a new tab to its user's list, in place when the slice has room, and changes no other list |
| `SignalingHub.Hub.Filter` | services/chat-service/internal/service/signaling_hub.go:42-48 | the in-place filter over the same backing array leaves in front exactly the sessions other than the given one |
| `SignalingHub.Hub.Unregister` | services/chat-service/internal/service/signaling_hub.go:39-54 | takes the tab out of its user's list, drops a list that becomes empty, and changes no other list |
| `SignalingHub.Hub.SendToUser` | services/chat-service/internal/service/signaling_hub.go:57-63 | writes to every open tab of the user once and to nobody else |
| `SignalingHub.UnregisterUndoesRegister` | services/chat-service/internal/service/signaling_hub.go:31-54 | a tab that comes and goes leaves the hub as it was |
| `Seqs.WithoutCloses` | services/chat-service/internal/service/signaling_hub.go:42-48 | the sessions that stay keep their order |
| `Seqs.WithoutHas` | services/chat-service/internal/service/signaling_hub.go:42-48 | a session is kept exactly if it was there and is not the one removed |
| `Pipeline.PublishedOrOwedOnce` | services/message-service/internal/service/message_service.go:256-290 | for every interleaving and every id: published plus owed by handlers under way is one if there is a row with that id and zero otherwise |
| `Pipeline.ExactlyOnce` | services/message-service/internal/service/message_service.go:280-288 | when all handlers are done the rows of the published messages are a permutation of the stored rows |
| `Pipeline.RowsAreKeyed` | services/message-service/internal/repository/message_repository.go:97-153 | at most one row per id and per set idempotency key in every reachable state |
| `Pipeline.SameKeySameAnswer` | services/message-service/internal/repository/message_repository.go:117-141 | all handlers that answer for one idempotency key, by REST or from redelivered events, answer with the same message |
| `Pipeline.RedisCopiesRows` | services/chat-service/internal/service/hub.go:159-197 | with one chat-service instance the message events on Redis are the published messages in order, each copying a stored row onto its own chat's channel |
| `Pipeline.OnlyMembersWrite` | services/message-service/internal/service/message_service.go:328-398 | the sender of every message and the user of every reaction and receipt is a member of the message's chat, whichever path wrote the row |
| `Pipeline.RepliesGoBack` | services/message-service/internal/service/message_service.go:344-361 | a reply link points to an earlier row of the same chat |
| `Pipeline.ReplyChainsEnd` | services/message-service/internal/service/message_service.go:256-268 | after n steps up a chain of replies one is at least n rows further back in the same chat, so chains are acyclic and end |
| `Pipeline.LiveQuoteIsHistoryQuote` | services/message-service/internal/service/message_service.go:243-254 | what History later computes for a published message with its join and its own text rule is the quote the live event carried |
| `Pipeline.ReactionChangesBalance` | services/message-service/internal/service/message_service.go:191-208 | for every interleaving and key: additions published or owed exceed removals published or owed by one if the row exists and by none otherwise |
| `ReactionViews.ViewsAgreeExactlyWhen` | frontend/components/ChatApp.tsx:552-584 | at any moment, however handlers overlap and however subscription, reading and placing of the list race: a client shows a reaction as the table has it if and only if the last change of it merged into the placed list goes the same way as the last write or, if none was merged, the last write goes the same way as the last one before the list was read |
| `ReactionViews.PlacingForgets` | frontend/components/ChatApp.tsx:833-843 | placing a loaded list forgets every change merged before it |
| `ReactionViews.ViewIsFold` | frontend/components/ChatApp.tsx:558-560 | what a client shows is its loaded list with the entries folded in that arrived after both its subscription and the placing of the list, and nothing else |
| `ReactionViews.ViewsRightUnlessMissed` | frontend/components/ChatApp.tsx:836-843 | if handlers do not overlap on the reaction and the client caught up, it is right if and only if a change of it was merged into the placed list or it stands as it stood when the list was read |
| `ReactionViews.ViewsConverge` | services/message-service/internal/service/message_service.go:172-209 | if handlers do not overlap on that one reaction, whatever else overlaps, and no entry of it came on the channel between the reading and the placing of the list (or the subscription, if later), the client that caught up shows it exactly when the table has it |
| `ReactionViews.ListsConverge` | frontend/components/ChatApp.tsx:558-583 | if handlers do not overlap on one emoji of one message, everything published had been copied when the list was read and no entry of that emoji came between the reading and the placing, the client lists the users in the very order of the table, even if a change was pending at the reading |
| `ReactionViews.RowsInTimeOrder` | services/message-service/internal/repository/reaction_repository.go:49-55 | in every run with a ticking clock the rows stand in created_at order, so the table's order is the query's |
| `ReactionViews.ChannelIsPublished` | services/chat-service/internal/service/hub.go:200-228 | a chat's channel carries exactly that chat's published changes, in order, as far as the chat service has got |
| `ReactionViews.ChangesAtHome` | services/message-service/internal/service/message_service.go:184-207 | every published change of a message names the chat of its row, so no client of that chat misses one |
| `ReactionPipeline.TableFollowsWrites` | services/message-service/internal/repository/reaction_repository.go:19-41 | however handlers overlap, the table holds a reaction exactly when the last write of it was an addition |
| `ReactionPipeline.WritesAreAccounted` | services/message-service/internal/service/message_service.go:191-208 | a reaction written since some moment is waiting for publication or was published since |
| `ReactionOverlap.PublicationsSwap` | services/message-service/internal/service/message_service.go:191-208 | from any state in which one handler is about to add and another to remove a reaction nobody has, four steps write in that order and publish in the other |
| `ReactionOverlap.OverlapDiverges` | services/message-service/internal/service/message_service.go:191-208 | for any chat, member, message and emoji there is a run of the handlers after which a client that merged every change into a list read before all of them shows a reaction nobody has |
| `ReactionOverlap.LateListMisses` | frontend/components/ChatApp.tsx:833-843 | for any chat, member, message and emoji there is a run with a single handler and no overlap after which a client whose list was read before the change and placed after it does not show a reaction the table has, while one whose list was placed in time does |
| `MessageService.PostOutcome` | services/message-service/internal/service/message_service.go:256-290 | what storing a message comes to by either path: nothing happens unless an event has its key, the reply link names a message of the chat, the sender is a member and there is an accepted attachment or a text that is not blank; a taken key gives its row back and publishes nothing; otherwise exactly one row is added, holding what was sent (a file its JSON body), and exactly that row is published with its quote |
| `MessageService.RedeliveryIsSilent` | services/message-service/internal/service/message_service.go:366-374 | a redelivered event answers with the row of its key, changes nothing and publishes nothing |
| `MessageService.ReactOutcome` | services/message-service/internal/service/message_service.go:172-241 | what reacting comes to by either path: a member of the chat (the message's own by REST, the named one from an event), for a message of the chat and an emoji of 1 to 16 runes once trimmed, changes one row of the trimmed emoji, published exactly when it altered the table; anything else changes nothing |
| `MessageService.Service.Create` | services/message-service/internal/service/message_service.go:256-290 | the REST handler run alone is the handler's statements of the interleaved model run to their end |
| `MessageService.Service.PersistFromEvent` | services/message-service/internal/service/message_service.go:328-376 | likewise for a persist event, with its own order of checks |
| `MessageService.Service.ApplyReaction` | services/message-service/internal/service/message_service.go:172-209 | likewise for a reaction, publishing only a change that altered the table |
| `MessageService.Service.ToggleReaction` | services/message-service/internal/service/message_service.go:211-224 | likewise by REST, with the chat looked up from the message |
| `MessageService.Service.PersistReactionFromEvent` | services/message-service/internal/service/message_service.go:226-241 | likewise from an event that names the chat |
| `MessageService.Service.PersistReceiptFromEvent` | services/message-service/internal/service/message_service.go:378-398 | if all three ids are set, the reader is a member of the chat and the message is one of that chat, the receipt of that reader for that message is stored with the time, in place of an earlier one; otherwise no receipt changes |
| `MessageService.ReceiptStepsAreRun` | services/message-service/internal/repository/receipt_repository.go:21-32 | ties the statements that the machine interleaves to the whole handler that the object runs |
| `PipelineRuns.ReceiptIsStored` | services/chat-service/internal/service/hub.go:147-154 | from every reachable state of the interleaved machine a read receipt that a member sends for a message of the chat ends in the table with its time, and the other tables are as they were |
| `PipelineRuns.ReactionTakesEffect` | services/chat-service/internal/service/hub.go:132-146 | from every reachable state a reaction event of a member, once its handler has run, leaves the reaction present exactly if the action was not a removal, and every other reaction as it was |
| `PipelineRuns.MessageReachesChannel` | services/chat-service/internal/service/hub.go:107-131 | from every reachable state a storable message event ends on Redis as the last message of its chat, with the sender, content, type and reply link that were sent and the quote of exactly the message it answers |
| `PipelineRuns.ReactionReachesChannel` | services/message-service/internal/service/message_service.go:148-209 | from every reachable state a reaction event that changes the table ends on Redis as the last reaction change, on its chat and with the action asked for |
| `PipelineRuns.NewMemberIsHeard` | services/message-service/internal/service/message_service.go:328-376 | whoever joins a chat can be heard on its channel, from every reachable state, the empty one among them |
| `PipelineRuns.PostAlone` | services/message-service/internal/service/message_service.go:256-290 | from every reachable state, a posting handler that is let run takes the interleaved machine to the outcome of the whole call |
| `PipelineRuns.ReactAlone` | services/message-service/internal/service/message_service.go:172-209 | likewise for a reacting handler |
| `Store.MessageRepository.Create` | services/message-service/internal/repository/message_repository.go:97-153 | one row per key, whoever comes first, and everybody gets that row back; inserted exactly when the key was new; fails only on an id clash; keeps ids and keys unique |
| `Store.MessageRepository.GetReplyPreview` | services/message-service/internal/repository/message_repository.go:68-95 | the quote of a parent of the same chat, or none |
| `Store.QuoteShows` | services/message-service/internal/repository/message_repository.go:83-93 | the text of a quote by either rule, rune by rune: a clip, a space and the file name or the word File for a file, the text otherwise; all of it up to 280 runes, else the first 280 and the mark |
| `Store.QuoteIsParents` | services/message-service/internal/repository/message_repository.go:68-95 | a message that answers a stored message of its chat carries the quote of exactly that message, live and in the history, and one that answers nothing carries none |
| `Store.MessageRepository.History` | services/message-service/internal/repository/message_repository.go:155-205 | the page of the arranged rows that limit and offset select, every row with the quote of its parent by the history rule |
| `Store.PageIsOfChat` | services/message-service/internal/repository/message_repository.go:156-164 | a page holds messages of its chat only, newest first, at most limit of them, and is full unless the history ends on it |
| `Store.PagesTile` | services/message-service/internal/repository/message_repository.go:163-164 | for one arrangement of a table that does not change between the queries, paging back loses and repeats nothing: n pages are the n times limit newest messages |
| `Store.PagesShowChat` | services/message-service/internal/repository/message_repository.go:156-164 | for one arrangement of a table that does not change between the queries, enough pages show every message of the chat exactly once |
| `Store.MessageRepository.MessageInChat` | services/message-service/internal/repository/message_repository.go:48-58 | true exactly if some row has that id and chat |
| `History.HistoryService.Load` | services/message-service/internal/service/message_service.go:292-326 | refuses strangers; otherwise every message of the selected page with its quote, its receipts and its reaction buckets |
| `History.HistoryService.Annotate` | services/message-service/internal/service/message_service.go:315-324 | the two in-place loops give each item the receipts and reactions of its own id |
| `History.HistoryService.ListReceipts` | services/message-service/internal/repository/receipt_repository.go:35-60 | receipts grouped by message in query order |
| `History.ReadByMeans` | services/message-service/internal/repository/receipt_repository.go:35-60 | a reader is listed for a message exactly if some row names the two, with the time of that row |
| `History.ReadByHas` | services/message-service/internal/repository/receipt_repository.go:35-60 | every row of the message is listed, behind those of its rows that came before |
| `History.ReadByCounts` | services/message-service/internal/repository/receipt_repository.go:35-60 | a reader is listed once per row: the list is as long as there are rows of the message |
| `History.LoadedHistoryIsSnapshot` | services/message-service/internal/service/message_service.go:307-324 | a loaded history shows for every message of the page exactly the reactions in the table, in order |
| `ChatHub.Hub.HandleInbound` | services/chat-service/internal/service/hub.go:80-156 | only members are heard, and a reaction needs a message and an emoji; a message becomes one persist event with its own fields and a key of its own, a reaction one with its action, a receipt one naming its message; everything but messages and reactions goes to the chat's channel; a refused event changes nothing |
| `ChatHub.Hub.OnMessageCreated` | services/chat-service/internal/service/hub.go:159-197 | a published message with its ids is copied to Redis once, others are skipped |
| `ChatHub.Hub.OnReactionUpdated` | services/chat-service/internal/service/hub.go:200-228 | likewise for a reaction change |
| `ChatHub.InboundIsPipeline` | services/chat-service/internal/service/hub.go:80-156 | an accepted event moves the pipeline by the hub's own Redis entry and by one new handler at its start |
| `ChatHub.InboundPublishesNothingDurable` | services/chat-service/internal/service/hub.go:85-90 | no client event puts a message or a reaction on a Redis channel by itself |
| `ChatHub.InboundKeysAreOwn` | services/chat-service/internal/service/hub.go:91-92 | events with different ids never share an idempotency key, and no event is dropped for want of one |
| `ChatHub.EchoCarriesWhatWasSent` | services/chat-service/internal/service/hub.go:107-196 | the event on the chat's channel, for a text or a file, has the sender, content, type and reply link that were sent, the id of the new row and the quote of the answered message |
| `Reactions.ReactionsConverge` | frontend/components/ChatApp.tsx:552-584 | for a table whose requests are served one at a time: snapshot at any log position, fold every change from any position not later, and the client shows a reaction exactly when the table has it, however often changes were folded twice |
| `Reactions.ClientListsLikeTable` | frontend/components/ChatApp.tsx:558-583 | for such a table and without overlap the client lists the users of every emoji in the very order of the table, in tidy buckets |
| `Reactions.TableInTimeOrder` | services/message-service/internal/repository/reaction_repository.go:49-55 | for such a table, with increasing created_at the rows stay in created_at order |
| `Reactions.TableFollowsLog` | services/message-service/internal/repository/reaction_repository.go:19-41 | for such a table, it holds a key exactly when the last published change of that key added it |
| `Reactions.FoldFollowsLog` | frontend/components/ChatApp.tsx:552-584 | the client holds a reaction exactly when the last folded change added it, or none was folded and it was there before |
| `Reactions.OverlapIsHarmless` | frontend/components/ChatApp.tsx:552-584 | replaying from an earlier position does not change which change of a key is the last |
| `Reactions.SwappedPublicationsDiverge` | frontend/components/ChatApp.tsx:552-584 | the client's half of OverlapDiverges: folding a removal before the addition it undid shows the reaction |
| `Reactions.MergeTidy` | frontend/components/ChatApp.tsx:558-583 | a merge keeps one bucket per emoji, no empty bucket and no user twice |
| `Reactions.TidyMeans` | frontend/components/ChatApp.tsx:558-583 | what tidy says element by element: different emojis, non-empty buckets, no repeated user |
| `Reactions.MergeEffect` | frontend/components/ChatApp.tsx:562-581 | a merge appends or takes out just that user under just that emoji |
| `Reactions.MergeKeepsOrder` | frontend/components/ChatApp.tsx:558-583 | a merge leaves the emojis in their order: a new one comes last, one that nobody uses any more goes, otherwise they stay the same |
| `Reactions.BucketsInQueryOrder` | services/message-service/internal/repository/reaction_repository.go:57-77 | the buckets of a loaded message stand in the order in which the query returned its groups |
| `Reactions.ChangeMeansEvent` | services/message-service/internal/repository/reaction_repository.go:19-41 | an insert or delete changes the presence of its own key only, and the primary key stays unique |
| `Reactions.SplittingUndoesJoining` | services/message-service/internal/repository/reaction_repository.go:49-72 | splitting the aggregated text at commas gives back the user ids |
| `Reactions.LoadedListIsSnapshot` | services/message-service/internal/repository/reaction_repository.go:43-77 | whatever order the groups come in, the parsed buckets are tidy and list the table |
| `Reactions.HistoryIsSnapshot` | services/message-service/internal/repository/reaction_repository.go:43-77 | a list loaded with those buckets is a snapshot of the table |
| `Reactions.ReactionRepository.Insert` | services/message-service/internal/repository/reaction_repository.go:19-29 | appends the row and reports an insertion exactly when the key was absent |
| `Reactions.ReactionRepository.Delete` | services/message-service/internal/repository/reaction_repository.go:31-41 | takes out exactly the row with the key and reports a removal exactly when there was one |
| `Reactions.ReactionRepository.ListAggregated` | services/message-service/internal/repository/reaction_repository.go:43-77 | whatever order the query returns its groups in, every message asked for is listed with the table's users under each emoji, in the table's order and in tidy buckets; nothing is listed when nothing is asked for |
| `ChatGraph.ChatsAreConnected` | services/message-service/internal/handler/chat_handler.go:38-149 | however create, ensure-direct, add-member and add-friend requests interleave, from any member of a chat one reaches any other along friendships between members |
| `ChatGraph.DirectChatsArePairsOfFriends` | services/message-service/internal/repository/chat_repository.go:21-57 | a direct chat has exactly two members, who are friends |
| `ChatGraph.ChatsHaveOneOwner` | services/message-service/internal/repository/chat_repository.go:44-52 | every chat has exactly one owner |
| `ChatGraph.FriendJoins` | services/message-service/internal/repository/chat_repository.go:137-154 | adding a friend of a member keeps the members connected |
| `ChatGraph.StarIsConnected` | services/message-service/internal/handler/chat_handler.go:38-53 | users who are all friends of the creator are connected |
| `ChatGraph.CreateOutcome` | services/message-service/internal/handler/chat_handler.go:38-74 | creating succeeds exactly if everybody named is registered and may be invited (for a group friends, oneself or blanks, for a direct chat exactly one friend) and the id is fresh; it then adds exactly the chat with these members, the creator as owner, and otherwise nothing |
| `ChatGraph.AddMemberOutcome` | services/message-service/internal/handler/chat_handler.go:135-150 | adding succeeds exactly for a member of a group who adds a registered friend, or names themselves; the new one becomes an ordinary member and nothing else changes |
| `ChatGraph.BefriendOutcome` | services/user-service/internal/service/user_service.go:55-67 | befriending succeeds exactly if the two differ and both are registered; then exactly they are friends on top of who was before, in both directions; nothing else changes, and otherwise nothing at all |
| `ChatGraph.EnsureOutcome` | services/message-service/internal/repository/chat_repository.go:90-106 | asking for the direct chat with a friend returns one that exists or adds exactly that chat, owned by the asker; nobody gets one with a stranger |
| `ChatGraph.CreateChatMeans` | services/message-service/internal/repository/chat_repository.go:21-57 | the insertions go through exactly for a fresh id and registered users, two of them in a direct chat, and make exactly the named users members |
| `ChatGraph.FriendsGetDirectChat` | services/message-service/internal/handler/chat_handler.go:77-105 | from every reachable state, the empty one among them, any two users can become friends and get a direct chat of exactly the two |
| `ChatGraph.HandlerAlone` | services/message-service/internal/handler/chat_handler.go:23-151 | from every reachable state, a handler that is let run takes the interleaved machine to the outcome of the whole call |
| `ChatGraph.ChatService.NewChat` | services/message-service/internal/repository/chat_repository.go:21-57 | creates all members or nothing, the creator alone as owner |
| `ChatGraph.ChatService.HandleCreate` | services/message-service/internal/handler/chat_handler.go:23-75 | the handler run alone is its statements in the interleaved model run to their end |
| `ChatGraph.ChatService.FindDirect` | services/message-service/internal/repository/chat_repository.go:72-88 | finds a direct chat of the two if there is any |
| `ChatGraph.ChatService.HandleEnsureDirect` | services/message-service/internal/handler/chat_handler.go:77-105 | returns an existing direct chat unchanged, and creates one only if the two had none |
| `ChatGraph.ChatService.HandleAddMember` | services/message-service/internal/handler/chat_handler.go:121-151 | succeeds exactly as the checks decide, after which the added user is in the chat; the handler run alone is its statements in the interleaved model |
| `ChatGraph.ChatService.HandleAddFriend` | services/user-service/internal/service/user_service.go:55-67 | succeeds exactly if the two differ and both are registered, and then adds exactly their row; otherwise the friendships stay |
| `Friends.FriendshipIsSymmetric` | services/user-service/internal/repository/user_repository.go:80-91 | friendship does not depend on the order in which the two are named |
| `Friends.AddFriendshipAddsOnePair` | services/user-service/internal/repository/user_repository.go:71-77 | adding makes exactly that pair friends, in both directions, and keeps all others |
| `Friends.AddFriendshipStaysCanonical` | services/user-service/internal/repository/user_repository.go:71-77 | rows keep naming the lesser user first |
| `Friends.FriendListIsAreFriends` | services/user-service/internal/repository/user_repository.go:93-112 | the list query and the pair lookup agree on who is a friend |
| `SessionHub.LiveContextsAreRegistered` | services/chat-service/internal/service/hub.go:44-71 | over every interleaving of connects, reconnects and late closes, the contexts not cancelled are exactly those stored in the map, at most one per key |
| `SessionHub.NewestStreams` | services/chat-service/internal/service/hub.go:44-71 | over every run a connection is registered, and its context not cancelled, exactly while it is open and no later connection of its user opened the same chat |
| `SessionHub.CurrentConnectionGets` | services/chat-service/internal/service/hub.go:230-251 | from every reachable state a waiting stream of a current connection writes what is published on its chat to that very connection, once, and waits again |
| `SessionHub.StoppedWritesNothing` | services/chat-service/internal/service/hub.go:234-249 | a stream that has ended never writes again, in any continuation of any run |
| `SessionHub.StaleCloseIsHarmless` | services/chat-service/internal/handler/websocket_handler.go:56-60 | the deferred cleanup of one connection neither removes nor cancels any other session |
| `SessionHub.StreamsRouteToOwner` | services/chat-service/internal/service/hub.go:230-251 | a payload is written only to a connection opened by the stream's user for the chat it was published on |
| `SessionHub.WritesExclude` | services/chat-service/internal/service/hub.go:244-246 | two streams never write to one connection at the same time |
| `SessionHub.AtMostOneLateWrite` | services/chat-service/internal/service/hub.go:233-246 | a cancelled stream makes at most one more write, a live one has made none late |
| `SessionHub.ConnKeyInjective` | services/chat-service/internal/handler/websocket_handler.go:29-31 | keys tell users and chats apart when user ids contain no colon |
| `SessionHub.Hub.BeginSession` | services/chat-service/internal/service/hub.go:44-56 | the new connection takes the key, and the context of the session that held it, and no other, is cancelled |
| `SessionHub.Hub.Unregister` | services/chat-service/internal/service/hub.go:60-71 | a session is removed and cancelled exactly if the given connection is the one registered |
| `SessionHub.Hub.StreamChat` | services/chat-service/internal/service/hub.go:230-251 | while others change the session map between its look-ups, the loop makes exactly the deliveries that DeliveredMeans describes |
| `SessionHub.DeliveredMeans` | services/chat-service/internal/service/hub.go:233-250 | a payload is delivered exactly if the key was registered when it was looked up and no write before it failed, and then to the connection registered at that moment |
| `SessionHub.DeliveredInOrder` | services/chat-service/internal/service/hub.go:233-250 | each delivery has its place behind those of the receives before it |
| `SessionHub.DeliveredOnce` | services/chat-service/internal/service/hub.go:233-250 | there is exactly one delivery for each receive that leads to one |
| `ClientList.PendingIsSentMinusEchoed` | frontend/components/ChatApp.tsx:596-655 | in every run of one tab whose list is not replaced by a newly loaded history, the pending entries of a kind plus its echoes are its sends, and every own message that came back is listed exactly once |
| `ClientList.NothingPendingAfterEchoes` | frontend/components/ChatApp.tsx:1019-1044 | in such a run, once everything sent has come back nothing is pending |
| `ClientList.EchoFindsPending` | frontend/components/ChatApp.tsx:597-605 | an echo always finds a pending entry of its own kind |
| `ClientList.EchoReplaces` | frontend/components/ChatApp.tsx:596-623 | over every such run an echo takes the place of the first pending entry with its content, type and reply link, carrying its own id and fields, and every other entry stays where it is |
| `ClientList.PeerIsListed` | frontend/components/ChatApp.tsx:625-650 | over every such run a peer's message is listed at the end with its own fields unless its id is in the list or one of the last five entries is the same text of the same sender less than four seconds away; then the list stays |
| `PreviewCache.HitsAreFreshFetches` | services/message-service/internal/linkpreview/linkpreview.go:148-205 | however lookups and stores interleave and whatever entry is dropped, a hit returns the useful result of a successful fetch of the same normalized URL stored less than ttl before |
| `PreviewCache.LookUpOutcome` | services/message-service/internal/linkpreview/linkpreview.go:148-158 | in every reachable state a lookup is answered from the cache exactly if the URL has an entry that has not expired; otherwise it is fetched |
| `PreviewCache.FetchedPageIsServed` | services/message-service/internal/linkpreview/linkpreview.go:139-205 | from every reachable state in which a URL has no live entry it can be fetched, and whoever asks again less than ttl later is answered with that very page |
| `PreviewCache.CacheStaysBounded` | services/message-service/internal/linkpreview/linkpreview.go:191-202 | the cache never exceeds its maximum in any run |
| `PreviewCache.StoredIsBounded` | services/message-service/internal/linkpreview/linkpreview.go:191-214 | one store keeps the bound, evicting the expired first and then any one entry |
| `PreviewCache.NormalizeForgetsFragment` | services/message-service/internal/linkpreview/linkpreview.go:79-96 | with rendering and hashing taken as injective, two accepted URLs share a cache entry exactly if they differ in nothing but the fragment |
| `PreviewCache.Service.constructor` | services/message-service/internal/linkpreview/linkpreview.go:46-68 | defaults of fifteen minutes and 2000 entries for settings that are not positive |
| `PreviewCache.Service.EvictExpired` | services/message-service/internal/linkpreview/linkpreview.go:207-214 | keeps exactly the entries that have not expired, unchanged |
| `PreviewCache.Service.Store` | services/message-service/internal/linkpreview/linkpreview.go:191-202 | stores the entry within the bound; other entries are kept unless the cache was full, and then only expired ones and at most one other are dropped |
| `PreviewCache.Service.Fetch` | services/message-service/internal/linkpreview/linkpreview.go:139-205 | succeeds exactly if the address is allowed, the URL is short enough, parses, is http or https and has a host, and either an unexpired entry is cached or a useful page was fetched; a hit returns the entry, a miss stores what it returns with its expiry, and a failure leaves the cache alone |
| `Metadata.WalkChooses` | services/message-service/internal/linkpreview/linkpreview.go:216-284 | the mutating walk is a choice over the nodes in document order: the last preferred value, else the first alternative, and for images the last og:image or the first usable twitter:image from there on |
| `Metadata.Walker.Parse` | services/message-service/internal/linkpreview/linkpreview.go:216-284 | the document's metadata is that choice, field by field |
| `Metadata.Walker.Walk` | services/message-service/internal/linkpreview/linkpreview.go:222-281 | the recursion over children and siblings visits the nodes in document order |
| `Metadata.Walker.VisitMeta` | services/message-service/internal/linkpreview/linkpreview.go:226-271 | what one meta element does to each field, overwriting by its property and filling what is then empty by its other names |
| `Metadata.VisitedMeta` | services/message-service/internal/linkpreview/linkpreview.go:226-271 | a meta element with content: its property overwrites its field, its other names fill a field that is then empty; without content nothing changes |
| `Metadata.PreorderHasNode` | services/message-service/internal/linkpreview/linkpreview.go:222-281 | every node of the document is met, at the place that document order gives it: behind its parent, and behind the whole subtree of the sibling before it; as many nodes are met as there are |
| `Metadata.PreorderIsNode` | services/message-service/internal/linkpreview/linkpreview.go:222-281 | whatever is met is a node of the document |
| `Metadata.ValueIsLast` | services/message-service/internal/linkpreview/linkpreview.go:229-240 | an attribute counts with its last value |
| `Metadata.LastAndFirst` | services/message-service/internal/linkpreview/linkpreview.go:244-276 | a choice finds the value of the last, or of the first, node that has one |
| `Metadata.TitleChosen` | services/message-service/internal/linkpreview/linkpreview.go:244-276 | last non-empty og:title, else the first non-empty of twitter:title, itemprop name and title element |
| `Metadata.DescriptionChosen` | services/message-service/internal/linkpreview/linkpreview.go:244-271 | last og:description, else the first of its fallbacks |
| `Metadata.ImageChosen` | services/message-service/internal/linkpreview/linkpreview.go:249-268 | og:image overwrites, twitter:image fills only an empty slot |
| `Runes.TruncationKeepsFirstRunes` | services/message-service/internal/repository/message_repository.go:22-37 | at most max runes: unchanged; more: exactly the first max runes and the mark, max + 1 runes in all |
| `Runes.TruncateRunes` | services/message-service/internal/repository/message_repository.go:22-37 | the counting pass and the range loop agree, so the final return is never reached and the result is the specified truncation |
| `Runes.TruncationKeepsValidText` | services/message-service/internal/repository/message_repository.go:22-37 | truncating an encoded text is encoding the truncated text: valid input stays valid |
| `Runes.SplitKeepsBytes` | services/message-service/internal/repository/message_repository.go:30-35 | cutting into runes loses and reorders nothing |
| `Runes.WidthMeetsStandard` | services/message-service/internal/repository/message_repository.go:26-30 | a first rune is taken as valid exactly when it is the encoding of a scalar value (sections 3 and 4 of RFC 3629); any other byte counts as one rune |
| `Runes.SplitOfEncoded` | services/message-service/internal/repository/message_repository.go:26-30 | the runes of an encoded text are the encodings of its code points |

## Left out

- User interface callbacks, toasts, timers, mute and camera switches, remote and local media streams beyond
  whether one is held.
- Video and audio tracks and the contents of session descriptions: descriptions and candidates are opaque.
- A connection replaced while its tab was suspended: in the interleaved mode its candidate callback is allowed
  to send at any time, with any call and peer, and its state callback acts on the connection held now.
- CallSafety.CandidatesConserved: supposes methods that run to their end, because a candidate that arrives during the awaits of a flush overtakes those still waiting (`CallInterruption.ArrivalDuringFlush`).
- PreviewCache.NormalizeForgetsFragment: takes rendering and hashing of a parsed URL as injective, because both are library calls.
- Pipeline.RedisCopiesRows: supposes one chat-service instance, because every instance subscribes without a queue group and would publish its own copy.
- Calls into the database that fail for other reasons than a missing row or a key clash, and publications that fail.
- Which of several messages of the same time comes first on a history page: the database's arrangement of ties is a parameter.
- Object-store checks of an attachment: a file message carries the JSON body that passed them, or none.
- JSON and SQL encoding: records and tables are typed; only the signaling payload is a JSON object.
- Trimming, HTML unescaping, URL parsing and resolution, and reading a file name out of JSON: parameters.
- Address checks of link previews, DNS and the HTTP client: the address check is one yes or no.
- Read receipts, quotes and reactions of a client list entry in `ClientList`: entries carry what echoes are matched on.
- At most one direct chat per pair is not claimed: creating a chat does not look for an existing one.
- Deleting users or chats, which no service does.
- Two sends of the signaling hub under its read lock at once: each send is one step.
- Tabs that are closed or reloaded: a tab stays in the model, so a reloaded one counts as a second tab of its user.
- ClientList.PendingIsSentMinusEchoed: replacing the list by a newly loaded history is no step of the run, because it drops the pending entries.
- ClientList.NothingPendingAfterEchoes: likewise supposes that the list is not replaced.
- Store.PagesTile: supposes one arrangement and an unchanging table, because the query may arrange ties anew and rows may arrive between pages.
- Store.PagesShowChat: likewise supposes one arrangement and an unchanging table.
- Reactions in `ReactionViews` of a client that merged its own change after a REST request: entries come from the channel only.
- Tokens, passwords, rate limiting, presence, profiles, search and notifications.
