# Now-playing pipeline: model and proofs

The program watches the media sessions of a Windows desktop and shows the current track in browsers.
It is a pipeline of small concurrent state machines, and this project models each of them, proves what
every run of it keeps, and composes them:

1. the **media loop** (`MediaLoop`, `Smtc`): one goroutine that runs queued commands, the runtime's retry
   timers, the change detection of artist, title and art, the session list and the progress reports;
2. the **fan-out** (`FanOut`): bounded subscriptions that drop and count what does not fit;
3. the **server** (`Hub`, `Server` and their objects `HubObject`, `ServerObject`): the event processor that
   publishes immutable snapshots, the hub goroutine that broadcasts, and one opening sequence per connection,
   interleaved in every possible way; the heartbeat (`Heartbeat`); the file routes' path containment (`Paths`);
4. the **browser client** (`Page`, `PageObject`): message handlers, timeouts and animation frames.

`Pipeline` runs all four together and proves what the browser shows when everything has come to rest.

## How it is built

Each machine is a value (`State`) with a `Next` for every step, and a `Run`. What a caller, a media session,
the operating system or a clock decides is an argument of the step, so a theorem about every run holds for
every such decision and every interleaving. Code that updates fields in place is also given as it is, as a class
(`SmtcObject.Smtc`, `FanOut.Registry`, `HubObject.HubLoop`, `ServerObject.Publisher`, `Heartbeat.HeartbeatState`,
`PageObject.Client`): each method's postcondition says that the whole new state is what the machine's step yields, so
the theorems are about the classes too. Fields called history (`emitted`, `log`, `stored`, `fates`, `marks` and the like) are
never read by a decision; they only let a theorem speak about the past.

`MediaAnswers`, `MediaLists`, `MediaOrder` and `ServerGreetings` say what the machines hold and send directly in terms of what they were
given (the raw properties, list or timeline a session answered, the snapshot an opening read), without the functions that
compute it; `MediaTheorems`, `ServerTheorems` and `PageTheorems` hold the guarantees over runs, and `MediaRuns` and
`ServerRuns` the concrete runs.

## Where a simpler promise fails

Each of these has a run that shows the failure and a theorem that says exactly when it happens.

* The retry counter is documented as reset on each song change (`internal/smtc/smtc.go:71-72`); only a change whose
  art cannot be read resets it (`internal/smtc/media.go:78-84`). `MediaTheorems.SongChangeResetsIff` says so for every
  change, `MediaTheorems.CounterStep` says what moves the counter on any step, and `MediaRuns.CounterOutlivesItsSong`
  is a run that starts a song with the counter at nine.
* A retry is documented as sending the song whether or not there is art (`internal/smtc/media.go:131-135`); the code
  reschedules it up to nine times. `MediaTheorems.RetryTellsOrReschedules` and `MediaTheorems.ArtlessNeedsTenFailures`
  are exact, and `MediaRuns.NineRetriesTellNothing` is a run of nine silent retries.
* A song is not told exactly once: a stale retry forgets a timer that is still armed (`internal/smtc/media.go:136-143`),
  and two retry chains for one song then run side by side. `MediaRuns.OneSongToldTwice` is such a run, for any two songs
  and any art; `MediaTheorems.ToldAgainIff` says exactly which steps tell a song again, `MediaTimers.OneChain` that there is one
  chain otherwise, and `MediaTimers.ForgottenTimerRuns` that a forgotten timer runs on.
* "Thumbnail actually changed" (`internal/smtc/media.go:46`) means a stream of another size with art of another length.
  `MediaTheorems.MediaNotificationSendsIff` is the exact condition, in terms of what the session answers, and
  `MediaRuns.OtherArtIsMissed` shows every other picture of the same size or length missed.
* An empty session list resets the status but not position and duration (`internal/smtc/session.go:193-204`), so a
  closed session that comes back at the old position is not reported: `MediaTheorems.OutdatedProgressIff` and
  `MediaRuns.OutdatedProgressHappens`.
* The last message a browser received need not be the newest while it is still opening: `OnOpen` reads the snapshot and
  may write it after the hub has written a newer update. `ServerTheorems.NewestArrivesIff` and
  `ServerRuns.OutdatedSnapshotHappens`.
* Equal events are suppressed only within one millisecond, because the compared messages carry their time stamp
  (`internal/server/server.go:259`): `ServerTheorems.InfoSuppressedIff`, `ServerTheorems.ProgressSuppressedIff` and
  `ServerRuns.OneEventStoredTwice`.
* Numbered session names are distinct per application only: `Names.NamesMeetIff` and `Names.NumberedNameMeetsFriendlyName`.
* A client that answers in time may still be closed after a slow opening: `Heartbeat.ResponsiveStaysOpen` holds up to
  exactly the bound that `Heartbeat.SlowOpeningIsClosed` refutes beyond.

## Model

| member | source | states |
|---|---|---|
| Pipeline.PipelineConvergesIff | internal/server/server.go:220-265 | Over every run of loop, fan-out, server and browsers: once the loop, its timers, every queue and the browser's fade are at rest, no command was dropped, no event to the server was dropped and the newest update's broadcast was not, a connected browser shows the escaped artist and title of the media properties read last in that run, and the address of the digest of the last info event's art, if and only if its `OnOpen` wrote its snapshot in time for the newest update, or an older snapshot carried the same track |
| Pipeline.PipelineConverges | script/functions.js:183-245 | In particular, in such a state, a browser whose snapshot was written before the newest update was stored shows as artist the escaped artist, and as title the escaped title, of the last properties read from a session, and `/albumArt/` with the digest of the last event's art, or no address without art |
| MediaAnswers.ReadStoresSong | internal/smtc/media.go:40-41 | A step that reads media properties stores the escaped artist as artist and the escaped title as title |
| MediaAnswers.SongIsLastAnswer | internal/smtc/media.go:40-103 | On every run the current song is the one of the newest properties read: empty at the start, after properties that could not be read, and after an empty session list |
| MediaAnswers.SongChangesIff | internal/smtc/media.go:47 | On every run a media read changes the song iff the raw artist or the raw title differs from that of the answer before, although the loop compares escaped text |
| MediaAnswers.ReadTells | internal/smtc/media.go:100-108 | On every run an info event sent by a step that reads media properties carries the escaped artist, title, album title and album artist, the playback type, the selected application and the art bytes and content type of what this very step read; without properties it is empty |
| MediaAnswers.RetryTells | internal/smtc/media.go:136-164 | On every run a retry that does not reschedule sends one info event: the current song, the album fields and playback type of the properties it was armed with, and the art it read, from the cache iff the stream has the cached size |
| MediaAnswers.RetriesCarryTheirSong | internal/smtc/media.go:115-129 | On every run each armed or queued retry carries the song of the properties it carries |
| MediaAnswers.CacheStep | internal/smtc/thumbnail.go:281-293 | Over every step the cached size, type and bytes are the ones before, or all forgotten by a new song, or exactly what this step read; an empty session list forgets only the size, and properties that cannot be read forget the bytes |
| MediaAnswers.CommandIsDroppedIff | internal/smtc/media.go:120-127 | In every reachable state a notification or a fired retry is dropped and counted iff 32 commands are queued, a selection or control call then waits, and otherwise the command is the newest of the queue |
| MediaOrder.StepTells | internal/smtc/session.go:170-252 | What each step of a run tells, in order: a media read the new session list if it enumerated, then at most one song, then the followed session's application if it switched; an empty enumeration its three empty reports; a matching retry at most one song; an answered timeline read at most one progress report; any other step nothing |
| Pipeline.RunKeeps | internal/smtc/smtc.go:206-216 | Every run keeps the composite invariant: loop and server invariants, the subscription was offered exactly the events since it began and the server handled a prefix of what it received, and each browser is in step with the messages delivered to it |
| MediaTheorems.SongIsNeverSilentlyLost | internal/smtc/media.go:47-164 | In every reachable state the last info event names the current song, or a retry for exactly that song is armed or queued, or such a retry was counted as dropped since the song became current; at rest without drops the last event names it |
| MediaTheorems.RetryTellsOrReschedules | internal/smtc/media.go:136-164 | A retry for the current song either arms another retry for it and counts one attempt, sending nothing, or sends exactly one info event for that song and leaves the counter; with the counter at nine it must send |
| MediaTheorems.CounterStep | internal/smtc/media.go:78-149 | Over every step: the counter becomes zero exactly when a media read finds a new song whose art cannot be read, grows by one exactly when a matching retry reschedules, and otherwise stays |
| MediaTheorems.SongChangeResetsIff | internal/smtc/smtc.go:71-74 | Over every step of a run that changes the song, by notification, switch, enumeration, empty list or lost properties: the counter becomes zero if the step read media properties whose art could not be read, and keeps its value in every other case |
| MediaRuns.CounterOutlivesItsSong | internal/smtc/media.go:78-108 | For any two songs, a run in which nine retries of the first fail and the second starts with the counter at nine |
| MediaTheorems.RetriesAreBounded | internal/smtc/media.go:144-149 | Over any stretch without a song change the counter pays for every reschedule, stays within 0 and 9, and so there are at most nine reschedules, even with several retry chains |
| MediaTheorems.ArtlessNeedsTenFailures | internal/smtc/media.go:136-164 | Over every step: it sends an info event without art for a real song iff it runs a matching retry whose read fails with the counter at nine; at least ten retry reads have then failed since the counter was last reset |
| MediaRuns.NineRetriesTellNothing | internal/smtc/media.go:131-149 | For any song, a run in which nine retries tell nothing and the tenth tells the song without art |
| MediaTheorems.MediaSendsArt | internal/smtc/media.go:70-108 | A media notification never sends an info event without art for a real song, and never takes an event back |
| MediaTheorems.MediaNotificationSendsIff | internal/smtc/media.go:47-90 | By the session's answers: a media notification sends an event iff a new song's stream is readable, or the same song's stream is readable, has another size than the cached one and no art of the same length is cached |
| MediaRuns.OtherArtIsMissed | internal/smtc/thumbnail.go:288-293 | For any song and any two pictures in streams of the same size, or of the same length: the second is never announced while the first is shown |
| MediaTheorems.ToldAgainIff | internal/smtc/media.go:47-164 | Over every step that keeps the song: it sends another info event for it iff it runs a matching retry that does not reschedule, reads other art for it, or enumerates an empty list when there is no song |
| MediaRuns.OneSongToldTwice | internal/smtc/media.go:136-143 | For any two songs and any art, a run in which two retry chains tell the second song twice in a row with the same art |
| MediaTimers.OneChain | internal/smtc/media.go:115-143 | On every run in which no retry comes up while the timer the loop knows still runs, at most one timer runs and it is the known one, so that a song change stops it |
| MediaTimers.OneTimerStep | internal/smtc/media.go:136-143 | From such a state a step loses that property if and only if it runs a retry while the known timer still runs |
| MediaTimers.ForgottenTimerRuns | internal/smtc/media.go:136-143 | Right after the first such step the forgotten timer still runs and the loop knows it no more |
| MediaTheorems.SelectionIsSticky | internal/smtc/session.go:170-252 | In every reachable state a session is followed iff the list is not empty, the selected application's first entry is followed whenever it is listed, and the last device event names the followed entry's application; what the entries are is said by `MediaLists.ListsMirrorSystem` |
| MediaLists.ListsMirrorSystem | internal/smtc/session.go:129-163 | On every run entry i of the sessions and entry i of the session objects come from one and the same session of the system's last listing, in its order, with its listed application and with every session that answered present |
| MediaLists.SelectedIsFollowed | internal/smtc/session.go:170-252 | On every run, while the selected application is in the last listing, the followed session is its own first session there, and the last device event names it |
| MediaLists.FollowedIsListed | internal/smtc/session.go:170-252 | On every run the followed session is one that answered in the last listing and the last device event names that session's application; none is followed only when none answered |
| MediaLists.EnumerationTells | internal/smtc/session.go:149-208 | An enumeration first tells the list with its numbered names, and follows the first session that answered when the selected application is not listed |
| MediaLists.EmptyListTells | internal/smtc/session.go:190-205 | An enumeration in which no session answered lists and follows none, empties song, status and cached size, tells exactly an empty list, an empty song and a closed player, and leaves position, duration and timers alone |
| MediaAnswers.SelectedIsLastRequest | internal/smtc/session.go:210-224 | On every run the selected application is the one of the last selection that was run, listed or not, or the configured one |
| MediaTheorems.TimelineReadSendsIff | internal/smtc/playback.go:113-132 | Over every step that reads the timeline in a reachable state: it is reported iff whole position, whole duration or status, as the session answered them, differ from what the subscribers were last told (after an empty list: from what the loop still holds), and the loop then holds what was read |
| MediaAnswers.TimelineTells | internal/smtc/playback.go:43-132 | The event that such a step adds has the session's status, its rate, shuffle and repeat values or 1.0, none and 0, whole seconds rounded toward zero, and as time stamp the milliseconds since 116444736000000000 ticks after 1601, in 64 bits and rounded toward zero; all three times are zero without a stamp |
| MediaTheorems.SecondsAreTruncated | internal/smtc/playback.go:97-111 | Position and duration are whole seconds rounded toward zero for either sign, and zero without a time stamp |
| MediaTheorems.OutdatedProgressIff | internal/smtc/session.go:193-204 | After a timeline read the last progress event differs from what was read if and only if it was the one sent for an empty session list and the session comes back with the status, position and duration the loop never reset |
| MediaRuns.OutdatedProgressHappens | internal/smtc/session.go:193-204 | A concrete run after which a timeline read says five seconds of twenty, the last report says zero, and nothing is sent |
| MediaInvariants.RunKeeps | internal/smtc/media.go:17-180 | Every run of the loop keeps: the song is not silently lost, a positive cached size has cached bytes, counter and queue are bounded, progress agrees with what was sent, and the selection holds |
| MediaLoop.TruncDiv | internal/smtc/playback.go:94-110 | Integer division rounds toward zero for either sign |
| MediaLoop.FirstIndex | internal/smtc/session.go:214-223 | The first session of an application, or none when no session has it |
| SmtcObject.Smtc.HandleMediaPropertiesChanged | internal/smtc/media.go:17-109 | The method's whole new state is the machine's `HandleMedia`: early returns, cache reset on a new song, fallback to the cache, delayed report, comparison by length |
| SmtcObject.Smtc.RetryThumbnailAndFireInfo | internal/smtc/media.go:136-164 | The method's whole new state is the machine's `RunRetry`, including the forgotten timer of a stale retry |
| SmtcObject.Smtc.ScheduleThumbnailRetry | internal/smtc/media.go:115-129 | Stops the timer the field knows unless it has already fired, and arms a new one for the given song |
| SmtcObject.Smtc.SendRetryCommand | internal/smtc/media.go:120-127 | An expired timer's closure queues the retry, or counts a drop when the queue is full |
| SmtcObject.Smtc.ReadThumbnail | internal/smtc/thumbnail.go:281-293 | The size-keyed cache: an unchanged positive size answers from the cache, a failed read leaves it alone, a good read replaces size, type and bytes together |
| SmtcObject.Smtc.EnumerateSessions | internal/smtc/session.go:113-166 | Collects the sessions that answered with a loop, names them and applies the list: the machine's `EnumerateSessions` |
| SmtcObject.Smtc.ApplySessionList | internal/smtc/session.go:170-208 | Stores both lists, sends the session event, then clears or switches: the machine's `ApplyList` |
| SmtcObject.Smtc.FindSession | internal/smtc/session.go:214-223 | The loop that finds the first session of an application, -1 when there is none |
| SmtcObject.Smtc.ReadTimelineAndProgress | internal/smtc/playback.go:113-132 | The method's whole new state is the machine's `ReadTimeline` |
| SmtcObject.Smtc.RunCommand | internal/smtc/smtc.go:116-126 | One iteration of the event loop that takes a command is the machine's step, whichever handler it dispatches to |
| Names.Disambiguate | internal/smtc/session.go:149-163 | The two counting loops yield, for every entry, its friendly name, numbered by its rank when its application occurs more than once |
| Names.CountIds | internal/smtc/session.go:150-153 | The first loop's map holds how often each application occurs |
| Names.RanksGrow | internal/smtc/session.go:154-162 | Among entries of one application the numbers grow strictly, from one up to the count |
| Names.RankIsTaken | internal/smtc/session.go:154-162 | Every number from one to the count is given to exactly one entry of the application |
| Names.SharedIdsGetDistinctNames | internal/smtc/session.go:149-163 | Entries that share an application get pairwise different names |
| Names.NamesMeetIff | internal/smtc/session.go:149-163 | For any two entries: they show the same name iff their applications differ and their friendly names coincide with equal numbers or none, or the friendly name of one is the numbered name of the other |
| Names.NumberedIsInjective | internal/smtc/session.go:160 | A numbered name determines both the name and the number |
| Names.NumberedNameMeetsFriendlyName | internal/smtc/session.go:157-162 | A list in which a numbered name is another application's friendly name |
| Names.ParseDecimal | internal/smtc/session.go:160 | Decimal printing can be read back, hence is injective |
| Escaping.Escape | internal/smtc/types.go:144-169 | The loop computes the escaped text |
| Escaping.EscapeTable | internal/smtc/types.go:144-169 | Each of the eight characters that have an escape becomes a backslash and its letter, by a literal table |
| Escaping.UnescapeEscape | internal/smtc/types.go:144-169 | Escaping has a left inverse: the decoder reads every escaped string back |
| Escaping.EscapeIsInjective | internal/smtc/media.go:40-47 | Comparing escaped strings detects exactly the changes of the raw ones |
| Escaping.EscapeConcat | internal/smtc/types.go:144-169 | Escaping distributes over concatenation |
| Escaping.EscapedShape | internal/smtc/types.go:144-169 | None of the seven control characters survives, the length at most doubles, and exactly the strings without control characters and backslashes stay as they are |
| FanOut.FanOutConserves | internal/smtc/smtc.go:179-216 | On every run of a subscription: received followed by buffered events are an order-preserving selection of the events sent since it began, the drop counter is exactly what is missing, and without drops nothing is |
| FanOut.SendIsDroppedIff | internal/smtc/smtc.go:206-216 | On every run of a subscription a send is dropped and counted iff no receiver waits and the buffer holds the requested size (zero for a negative one); otherwise the event becomes the newest of those received and buffered |
| FanOut.ReceiveTakesOldest | internal/server/server.go:206-218 | On every run a receiver gets the oldest buffered event at once; with an empty buffer it waits and gets the very next event sent |
| FanOut.CapacityIs | internal/smtc/smtc.go:179-183 | On every run the capacity is the requested size, zero for a negative one |
| FanOut.SubsequenceShorter | internal/smtc/smtc.go:206-216 | A selection as long as the whole is the whole |
| FanOut.Registry.Subscribe | internal/smtc/smtc.go:179-188 | Appends a fresh subscription (a negative size counts as zero) and keeps the others, growing the backing array when it is full |
| FanOut.Registry.Unsubscribe | internal/smtc/smtc.go:191-203 | The in-place shift removes exactly the one entry, keeps the order of the rest and closes its channel once; an unknown channel changes nothing |
| FanOut.Registry.Broadcast | internal/smtc/smtc.go:206-216 | Offers the event to every open subscriber without waiting, and never to a closed one; which offers are dropped is said by `FanOut.SendIsDroppedIff` |
| FanOut.Registry.Cleanup | internal/smtc/smtc.go:150-155 | Closes every listed channel once and lists nothing afterwards |
| Hub.HubConserves | internal/server/hub.go:40-93 | Broadcasts submitted equal those processed, queued and dropped |
| Hub.DroppedIff | internal/server/hub.go:80-93 | A broadcast of any kind is dropped iff the queue holds 64 commands, a removal is dropped under the same condition, and otherwise each is the newest of the queue |
| Hub.DeliveryIsContiguous | internal/server/hub.go:51-62 | The broadcasts a connection is given are one contiguous segment of the processed ones, from its joining to its removal |
| Hub.EndOf | internal/server/hub.go:55-56 | Where a connection's membership ends within a log: at its first removal |
| HubObject.HubLoop.Add | internal/server/hub.go:76-78 | Queues the joining, waiting for room |
| HubObject.HubLoop.Remove | internal/server/hub.go:80-85 | Queues the removal, or silently drops it when the channel is full |
| HubObject.HubLoop.Broadcast | internal/server/hub.go:87-93 | Queues the broadcast, or drops and counts it when the channel is full |
| HubObject.HubLoop.RunCommand | internal/server/hub.go:51-62 | One iteration of the goroutine takes the oldest command; a broadcast is appended exactly once to what each open member was written and to nothing else, and closed members do not stop it |
| HubObject.HubLoop.WriteToAll | internal/server/hub.go:57-62 | The range over the set writes the message once to each member, in any order |
| HubObject.RunOneIsTakeAndWrites | internal/server/hub.go:57-62 | Writing to the members in whatever order, even with repetitions, comes to the same hub state |
| ServerTheorems.NoUpdateIsMissed | internal/server/server.go:376-391 | For every interleaving, every stored update whose broadcast was not dropped and every connection past its snapshot read and not removed: the snapshot had it or a newer one, it was written, the hub is writing it, it is queued behind the joining, or it is stored and not yet handed over |
| ServerTheorems.NewestArrivesIff | internal/server/server.go:376-391 | At rest, the last info message written to an opened connection is the newest update if and only if `OnOpen` read that update or nothing, wrote what it read before the hub took the update, or had read an equal message |
| ServerTheorems.NewestArrivesAfterOpening | internal/server/server.go:262-264 | In particular it is, for every connection that wrote its snapshot before the update was stored |
| ServerRuns.OutdatedSnapshotHappens | internal/server/server.go:385-390 | A concrete run, for any two songs, that ends at rest with a connection left on the older one |
| ServerTheorems.InfoSuppressedIff | internal/server/server.go:233-265 | In every reachable state an info event is suppressed iff the newest stored update is the same message, field by field, with the same time stamp; otherwise its message is stored and then handed over, the snapshot holds the event and the progress as before, and fetching the digest of the event's art yields exactly that art with its content type, any other address nothing |
| ServerTheorems.OtherEvents | internal/server/server.go:220-231 | A session list is handed over as it is with its time stamp; a device change is only noted |
| ServerTheorems.BroadcastEntersIff | internal/server/hub.go:87-93 | A message in the processor's hand, of any kind, and a reload enter the hub's queue iff fewer than 64 commands wait there |
| ServerTheorems.JoiningEntersIff | internal/server/hub.go:76-78 | A joining enters the queue, and the opening goes on, iff fewer than 64 commands wait |
| ServerTheorems.RemovalEntersIff | internal/server/hub.go:80-85 | A closing connection is closed at once; its removal enters the queue iff fewer than 64 commands wait |
| ServerGreetings.OpeningsGreet | internal/server/server.go:376-395 | On every run, whatever the hub writes meanwhile, the opening itself writes the hello, then the info and the progress message of the snapshot it read as far as there are any, then at most one non-empty session list, and nothing else |
| ServerGreetings.OpeningReadsPublished | internal/server/server.go:385 | The snapshot an opening reads is the one published at that moment |
| ServerTheorems.ProgressSuppressedIff | internal/server/server.go:267-286 | In every reachable state a progress event is suppressed iff the last one handled was equal and its message carries the same time stamp |
| ServerRuns.OneEventStoredTwice | internal/wsproto/wsproto.go:119-137 | One event handled in two milliseconds is stored twice |
| ServerTheorems.HubWritesInOrder | internal/server/hub.go:40-74 | In every reachable state what the hub wrote to a connection is the contiguous segment of the processed broadcasts from its joining to its removal: complete while the connection is open, a prefix of it once it was closed, and nothing before the joining was processed |
| ServerTheorems.ConnectionsAgreeOnOrder | internal/server/hub.go:57-62 | What the hub wrote to the later of two connections is, message by message, what it wrote to the earlier one after the broadcasts between their joinings |
| ServerTheorems.BroadcastsAreConserved | internal/server/hub.go:87-93 | In every reachable state submitted broadcasts are processed, queued or dropped |
| ServerTheorems.SnapshotsAreCoherent | internal/server/server.go:560-572 | Every published snapshot, and every snapshot a connection read, encodes its own info field by field and its own progress, and advertises an address iff there is art; fetching that address yields exactly that art with its content type, and any other address is not found |
| ServerInvariants.PublishCoherent | internal/server/server.go:233-286 | Both kinds of publication keep a snapshot coherent |
| ServerInvariants.RunKeeps | internal/server/server.go:206-286 | Every interleaving keeps: hub, coherent snapshot, snapshot about the newest handled events, Store before Broadcast, and per connection what it was written |
| ServerObject.Publisher.HandleInfoEvent | internal/server/server.go:233-265 | Stores a fresh snapshot with fresh art buffers and broadcasts its message, or does nothing when the message is the published one; the previous snapshot, like every published one, keeps its value although its fields are assignable |
| ServerObject.StateSnapshot.Clone | internal/server/server.go:651-660 | The clone is a fresh snapshot with the same value that shares the info but not the art buffer |
| ServerObject.Publisher.HandleProgressEvent | internal/server/server.go:267-286 | The same for progress: info is carried over, the art is copied |
| ServerObject.Publisher.HandleAlbumArt | internal/server/server.go:560-572 | Serves the published art, with its content type or the one for unknown data, for exactly its own address |
| ServerObject.Publisher.OnOpen | internal/server/server.go:376-395 | Joins the hub first and then, when nothing interleaves, writes greeting, info, progress and sessions in that order |
| ServerObject.OpeningWritesGreeting | internal/server/server.go:381-395 | The five separate actions of the interleaved model write exactly that greeting |
| ServerObject.PublishIsStoreThenBroadcast | internal/server/server.go:220-286 | An event handled at once is the processor's two steps, Store and then Broadcast |
| Heartbeat.CloseTimeBounds | internal/server/server.go:453-467 | When the heartbeat closes a connection, it was silent for more than 90 seconds (less a truncated millisecond) and for at most 120, or the first tick found it that old |
| Heartbeat.SilentIsClosed | internal/server/server.go:453-467 | A connection that stays silent is closed by a tick at most 120 seconds after its last pong, or by its very first tick |
| Heartbeat.ResponsiveStaysOpen | internal/server/server.go:453-476 | A client whose ticker was made at most 30 seconds after the (truncated) millisecond of its opening, and that answers every ping within 60 seconds, is never closed, on runs of any length |
| Heartbeat.SlowOpeningIsClosed | internal/server/server.go:376-397 | That bound is exact: for any later ticker there is such a client that is closed by its second tick |
| Heartbeat.SixtySecondsIsTight | internal/server/server.go:453-476 | One nanosecond more and a concrete client is closed |
| Heartbeat.HeartbeatState.OnTick | internal/server/server.go:457-464 | The object's decision to close is the machine's, on the truncated millisecond it keeps |
| Paths.SafeJoinIsExact | internal/server/server.go:578-603 | For a non-empty base joining succeeds iff the relative path has no backslash and the base's components are a prefix of the cleaned join, and the result is that cleaned path |
| Paths.AbsIs | internal/server/server.go:578-603 | An absolute path is cleaned whatever the working directory is, and a plain name is appended to it |
| Paths.DescendingIsServed | internal/server/server.go:578-603 | A path that never climbs above the base is served as the base followed by its own cleaning; names such as `..foo` are ordinary |
| Paths.LeavingAndReturningIsServed | internal/server/server.go:599-602 | A path that climbs out of the base and returns to it by name is served too |
| Paths.ClimbsIff | internal/server/server.go:599-601 | The textual check for an escaping relative path holds iff its first component is exactly `..` |
| PageTheorems.ClientFollowsLastInfo | script/functions.js:183-234 | On every run: fade timer, pending record and fade class exist together; while they do the pending record is the last info message received, otherwise that message is shown; the shown art always equals the remembered one |
| PageTheorems.ClientStatusIsExact | script/functions.js:261-292 | On every run after a progress message exactly one status class is set, `stopped` iff the idle timer is pending, `idle` only after the grace period, `playing` and `paused` iff the last message said so |
| PageTheorems.ClientOwesOneFrame | script/functions.js:157-181 | At most one animation callback is outstanding, and one is iff the last progress message was playing with a positive time stamp |
| PageTheorems.ProgressBarNeverRewinds | script/functions.js:162-171 | Between progress messages the drawn position never moves back and never passes the duration |
| PageTheorems.FrameShowsPlayback | script/functions.js:157-181 | On every run each animation frame belongs to the last progress message received, which is playing with a stamp; with a positive rate it draws exactly the lesser of the duration and the reported position plus the time since the stamp times the rate, otherwise it leaves the bar alone; and it asks for exactly one next frame |
| PageTheorems.ProgressShows | script/functions.js:247-301 | On every run a progress message that is playing with a stamp leaves the bar to the animation, any other one shows its position at once and ends the animation; idling is due after exactly the configured delay unless it is playing or paused |
| PageTheorems.SongChangeFades | script/functions.js:183-234 | On every run another song than the last one received is shown 300 milliseconds later, the same song during a fade replaces the pending record without delaying it, and any other info message is shown at once |
| PageTheorems.ToldIsLastReceived | script/functions.js:247-260 | On every run the progress the client goes by is the last progress message received |
| PageInvariants.RunKeeps | script/functions.js:128-312 | Every run of the client keeps the four invariants behind these theorems, among them that the runtime's timeouts are exactly those the variables know |
| PageInvariants.InterpolationGrows | script/functions.js:164-165 | With a positive rate the interpolated position grows with the clock and stays within the duration |
| PageInvariants.InterpolationStart | script/functions.js:164-165 | At the time of its stamp the interpolated position is the reported one, or the duration if that is less |
| PageObject.Client.OnInfo | script/functions.js:183-234 | The handler's whole new state is the machine's `HandleInfo` |
| PageObject.Client.OnTransitionEnd | script/functions.js:220-229 | The end of the fade shows the pending record and clears timer, record and class |
| PageObject.Client.OnProgress | script/functions.js:247-301 | The handler's whole new state is the machine's `HandleProgress` |
| PageObject.Client.OnAnimationFrame | script/functions.js:162-171 | The animation callback draws and asks for the next frame |
| PageObject.Client.Interpolate | script/functions.js:164-165 | The clamped position is the machine's `Interpolated` |

## Left out

- Windows Runtime calls (media sessions, asynchronous waits, stream reads): every answer they may give is an argument of the step.
- JSON text: two messages have the same text iff they are the same value; playback rates are finite and strings valid UTF-8, so that encoding does not fail.
- SHA-256 and the friendly application names: arbitrary functions given as parameters.
- ServerObject.Publisher.OnOpen: states what one uninterrupted opening does; its interleavings are the steps `Advances` of module `Server`.
- SmtcObject.Smtc.RunCommand: covers one command; the choice between ticker, command channel and cancellation is the choice of the next step.
- SmtcObject.Smtc.ReadThumbnail: the steps between opening the stream and reading its bytes are one answer of the session; only the cache is modelled.
- SmtcObject.Smtc.HandleMediaPropertiesChanged: hands its events to an outbox; offering them to the subscribers is `FanOut.Registry.Broadcast`, and the step `Offers` of `Pipeline`.
- HubObject.HubLoop.Add: states the moment the joining enters the channel; waiting for room is the step `Advances` that changes nothing.
- Escaping.Escape: a sequence of characters, so invalid UTF-8 (which the original replaces) does not occur.
- Paths.SafeJoinIsExact: uses `/` as separator and a parameter for comparing components; volume names, reserved Windows names and symbolic links are not modelled.
- Heartbeat.ResponsiveStaysOpen: assumes ticks exactly 30 seconds apart and a clock that never steps back.
- MediaInvariants.RunKeeps: the callbacks of a session that is no longer followed after an empty list may still arrive; they are ordinary notifications here.
- Property handler tokens (subscribing, unsubscribing) and the mutexes around fields of one goroutine: they do not change the values.
- Control commands (play, pause, seek) and their acknowledgements: they only take a place in the loop's queue.
- Shutdown: closing of connections and the behaviour of callers after the loop, the hub or the server has stopped.
- HTTP routing, REST handlers, WebSocket framing, unknown and malformed messages: glue around the modelled handlers.
- The comparison of two byte slices in `internal/server/server.go:678-688`: messages are compared as values.
- The page's reload, reconnection back-off, image and size probing, and theme callbacks that throw: user interface.
- A `hideDelay` that is no number: the browser then uses zero.
- Configuration, updater, tray, window and themes: they would only add easy members.
