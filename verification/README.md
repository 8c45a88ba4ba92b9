# Meson client: protocols and schedulers

A Dafny model of the stateful parts of the Meson mix-network client, with proofs over every run.
Each component is a step system: one section under a lock, or one outcome of a `select`, is one
step; the peer, the clock, random draws, cryptography and callers are arbitrary inputs.  Where the
Go code changes an array, map, list or local variables in place, an imperative method or class
does the same and is proved equal to the step system.

| file | component |
|---|---|
| `EgressQueue.dfy`, `Egress.dfy` | ring-buffer egress queue; peek, send, pop against concurrent callers; blocking sends |
| `Scheduler.dfy` | cover-traffic scheduler: three timers, connection and document events |
| `WireLoop.dfy`, `Connection.dfy` | provider wire loop; connect loop, status callback, back-off |
| `DocCache.dfy`, `CacheProtocol.dfy` | LRU document cache; readers and the single fetch worker |
| `Path.dfy`, `Compose.dfy` | hop selection, delay commands, round-trip estimate, retry loop |
| `PkiWorker.dfy` | PKI refresh worker: maps, callback, timer and signal handshake |
| `Surb.dfy`, `SessionMaps.dfy` | SURB book-keeping, garbage collection, loop-decoy tally; the session's own maps |
| `TimerQueue.dfy` | delayed queue |

Some properties one would expect do not hold of the code as written.  For each of these the
model keeps the code's behaviour and the theorem gives the exact condition:

- Polling on a connection is over for good if and only if the loop has been left or more answers
  have been accepted than retrievals sent (`WireLoop.UnsolicitedAnswerSilencesPolling`); with a
  peer that answers at most once and never unasked, if and only if the loop has been left or an
  answer was thrown away because the peer's credentials could not be read
  (`WireLoop.DroppedAnswerSilencesPolling`).
- After one failed epoch lookup the PKI worker never completes another round
  (`PkiWorker.TimerLiveIff`, `PkiWorker.FailedLookupIsFatal`); a completion signal sent before it
  can still release one caller.
- A reply and a second reply, or a reply and the garbage collector, can both complete one message.
  No SURB ID has two outcomes if and only if no entry is read between another claim's read and
  delete (`Surb.AtMostOnceIff`), and the decoy tally is right if and only if that happened to no
  loop decoy (`Surb.TallyRightIff`).
- `insertLRU` keeps map and list in agreement only for an epoch not yet cached
  (`DocCache.InsertAgreesIff`); the protocol around it guarantees that.
- The packet's 32-bit delay commands agree with the time estimate only if MuMaxDelay is set and
  below 2^32 (`Path.DelayFitsIff`).
- A push can lead to an item being forwarded before its deadline if and only if the pushed deadline
  is 2^63 ns or more ahead of the latest of the clock and all queued deadlines
  (`TimerQueue.EarlyRunIff`); over whole runs nothing can be early if and only if there was no such
  push (`TimerQueue.NeverEarlyIff`).
- The send slots are the same for all callers if and only if every tick of the first timer received
  while connected either finds no SURB ID to draw, or has decoys on and a lookup and an ID draw that
  succeed (`Scheduler.IndependentIff`).

Where documentation and code differ the model follows the code: `MessagePollInterval` is
documented to default to one minute (minclient/client.go:101-104), but an unset value is used as it
is (minclient/client.go:136-140).

## Model

| member | source | states |
|---|---|---|
| EgressQueue.Queue.Push | queue.go:57-67 | refuses exactly when full and changes nothing then; otherwise appends to the FIFO contents of the ring, for any capacity |
| EgressQueue.Queue.Pop | queue.go:71-82 | removes and returns the oldest item; an empty queue reports so and stays empty |
| EgressQueue.Queue.Peek | queue.go:86-94 | the oldest item, nothing changed |
| Egress.RunOnRing | queue.go:47-94 | workers and callers driven over the ring buffer reach, for every capacity and interleaving, exactly the state of an ideal bounded FIFO |
| Egress.SentInPushOrder | send.go:36-52 | with pushes anywhere between peek, send and pop: messages go out in push order, each accepted one at most once, popped is what was sent, and no "impossible failure" branch is taken |
| Egress.SignalledExactlyOnce | send.go:54-99 | no blocking caller is signalled twice, and it is signalled exactly if doSend ran on its message and a SURB ID could be drawn |
| Egress.SignalIsTrue | send.go:86-98 | over every run a blocking caller is told that the send of its own message succeeded or failed as it did |
| Egress.WorkerRound | send.go:36-99 | left alone, the worker sends and pops the oldest message and tells its caller, if that one blocks and a SURB ID was drawn, how the send ended |
| Egress.PushEffect | queue.go:57-67 | a message is accepted exactly if there is room; a blocking caller that is refused goes away |
| Egress.StepKeepsInv | send.go:196-220 | every step of workers and callers keeps the protocol invariant, among it that each queued blocking message not yet sent has its wait channel registered |
| Scheduler.CoverTrafficIndependence | worker.go:103-206 | if no tick gives the queue away, two runs with the same timer, connection and document events and draws, but any different queues and pushes, have equal control states and equal send slots |
| Scheduler.TrafficFollowsControl | worker.go:110-206 | under the same condition control state and slots are functions of the events alone; with decoys on and all lookups and random reads succeeding, one send per tick received while connected and none while disconnected |
| Scheduler.SlotHidesQueueIff | worker.go:197-206 | for any two states with empty and with filled queue, and whatever callers do meanwhile, a slot is filled alike if and only if no SURB ID can be drawn, or decoys are on and lookup and ID draw succeed |
| Scheduler.IndependentIff | worker.go:110-206 | over whole runs, all caller scripts give equal slots if and only if every tick of the first timer received while connected meets that condition |
| Scheduler.CoverNeverStops | worker.go:153-191 | in every run each timer always has a tick to deliver or a deadline set, and while connected the deadline is at most the document's maximal delay away |
| Scheduler.TickRearms | worker.go:110-187 | a tick received re-arms its own timer alone, by its own draw cut at its own maximum while connected, by the longest duration while not |
| Scheduler.EventsRearmAll | worker.go:124-176 | a connection or document event sets all three timers to their own draws cut at their own maxima, while disconnected to the longest duration there is |
| Scheduler.TurnTraffic | worker.go:142-151 | what fills each slot: the message queued longest or else a drop decoy for the first timer, a loop decoy for the second, a drop decoy for the third; nothing while disconnected |
| Scheduler.Worker | worker.go:60-195 | the loop over the real ring buffer, with its flags and selective resets, takes exactly the model's steps, whose deadlines and traffic the rows above fix |
| WireLoop.SequenceDiscipline | minclient/connection.go:429-590 | against any peer, accepted messages and ACKs carry 0, 1, 2, ... modulo 2^32, every retrieval carries the number accepted so far, and at most one retrieval is unanswered |
| WireLoop.RequestsCompleted | minclient/connection.go:412-480 | every dequeued request has its done function called exactly once and in order; at most one consensus request waits; on exit the admitted ones have been replied to once each, in order; a refused one is never replied to |
| WireLoop.RefusedIffWaiting | minclient/connection.go:446-465 | a consensus request is refused exactly when another one is waiting at that moment |
| WireLoop.LawfulLog | minclient/connection.go:501-601 | the protocol rules on the observable log alone imply numbering without gap or repeat, at most one unanswered retrieval and replies in order of admission |
| WireLoop.ExitIsLast | minclient/connection.go:368-375 | the loop is left at most once and its reason is the last thing observed |
| WireLoop.PollSendsIff | minclient/connection.go:501-522 | if the peer answered each retrieval at most once and never unasked: responses do not outnumber retrievals, and a due poll sends a retrieval if and only if all are answered and no answer was dropped at the credential check |
| WireLoop.UnsolicitedAnswerSilencesPolling | minclient/connection.go:501-579 | no continuation ever sends another retrieval if and only if the loop has been left or accepted answers outnumber retrievals |
| WireLoop.OneUnsolicitedAnswer | minclient/connection.go:544-553 | one answer nobody asked for right after connecting silences polling while the loop runs on |
| WireLoop.DroppedAnswerSilencesPolling | minclient/connection.go:501-522 | with a peer that answers each retrieval at most once and never unasked, no honest continuation sends another retrieval if and only if the loop has been left or an answer was dropped at the credential check |
| WireLoop.OneLostAnswer | minclient/connection.go:518-522 | at any time of an honest connection, one retrieval whose answer is thrown away ends polling while the loop runs on |
| WireLoop.PollDelay | minclient/connection.go:419-428 | the poll delay is the last interval less the length of every iteration since that dequeued a request, not below zero; iterations that received a command do not shorten it |
| WireLoop.OnWireConn | minclient/connection.go:353-608 | the loop with its local counters and deferred teardown produces exactly the log that the events call for, and leaves only with a reason, so the nil-reason panic is unreachable |
| WireLoop.LogIs | minclient/connection.go:398-608 | the whole log as a function of the events alone, without any counter of the loop: what each event shows, with which status, answer or reason |
| WireLoop.HandleShows | minclient/connection.go:530-606 | what each received command shows, in terms of the log before it alone: accepted if in sequence, handed over if asked for, or the reason to leave |
| WireLoop.ConsensusIsAnswered | minclient/connection.go:591-595 | a consensus received while a request waits is answered to that request with the very document received |
| WireLoop.NotConnectedOnlyAtExit | minclient/connection.go:412-417 | no request is told "not connected" except directly before the loop's reason to leave |
| WireLoop.StatusesAreTrue | minclient/connection.go:412-465 | over every run a done function is told the outcome of its own send or that another request is outstanding, and a document handed over is one that a listed peer sent |
| WireLoop.HandleCommand | minclient/connection.go:530-606 | the switch over a received command does what the model's handler does, or names the reason to leave; what that shows is fixed by HandleShows |
| Connection.StatusAlternates | minclient/connection.go:239-308 | over every run of the connect loop, a disconnect callback lies between any two "connected" ones, the last callback is "connected" exactly while the wire loop runs, and a return reports its reason last |
| Connection.DialSays | minclient/connection.go:264-396 | the callbacks of one address by what happens to it; after a connection the reason is the last one in the wire loop's log |
| Connection.AddressesInOrder | minclient/connection.go:263-307 | addresses are tried in order: each failure to dial is reported with its error, and the first that does not fail is the last tried |
| Connection.Connection.DoConnect | minclient/connection.go:218-309 | makes exactly the model's callbacks, keeps the connected flag in step with them, returns only with a reason, and has the pinned descriptor while connected |
| Connection.Connection.OnConnStatusChange | minclient/connection.go:625-652 | sets the connected flag and makes one callback with the same meaning |
| Connection.Connection.GetDescriptor | minclient/connection.go:145-177 | each of the three errors if and only if its cause holds: no document, provider not listed, a key that is not the pinned one; it then forgets descriptor and epoch, otherwise stores both |
| Connection.Connection.IsPeerValid | minclient/connection.go:610-623 | refreshes the cached descriptor and accepts exactly a peer whose two keys are the descriptor's |
| Connection.ConnectedHasDescriptor | minclient/connection.go:239-335 | whatever the lookups made in handshakes and for received commands, as long as the wire loop runs the provider's descriptor is cached and has the pinned key |
| Connection.BackoffBounded | minclient/connection.go:264-276 | for every interleaving of the reader's resets with the dialler's separate loads, adds and stores, the delay waited is 0, 2, 4 or 5 s |
| Connection.BackoffGrows | minclient/connection.go:264-276 | left alone the dialler adds two seconds for each dial, up to five; a reset starts over from nothing |
| DocCache.Cache.CacheGet | pkiclient/cache.go:137-146 | a hit returns the cached entry and counts as a use, a miss changes nothing |
| DocCache.Cache.InsertLRU | pkiclient/cache.go:148-163 | push to the front, then purge from the back down to the maximal size |
| DocCache.InsertNew | pkiclient/cache.go:148-163 | for a new epoch: agreement kept, recency order cut at the maximal size, the new entry kept and all others unchanged |
| DocCache.InsertAgreesIff | pkiclient/cache.go:148-163 | map and list stay in agreement if and only if the epoch was not cached |
| DocCache.CutThenTouch | pkiclient/cache.go:156-162 | cutting the ideal recency order at the maximal size commutes with touching, so evicted epochs never matter again |
| CacheProtocol.LruRefinement | pkiclient/cache.go:137-196 | after any interleaving of readers and worker, the list is exactly the first entries of all epochs whose hits and insertions the events show, in most-recent-first order, without duplicates, and the map holds the same epochs |
| CacheProtocol.AnsweredExactlyOnce | pkiclient/cache.go:103-196 | fetch operations are answered in queue order, exactly once each, drained ones included, and an entry is for the operation's own epoch |
| CacheProtocol.AnswersAreDue | pkiclient/cache.go:70-196 | over every run, and settled once for each operation, read off its own events: the cached entry if its check hit, otherwise the fetched entry or the error of its own fetch, and "halted" only if it was drained |
| CacheProtocol.FastPath | pkiclient/cache.go:103-107 | a lookup is served from the cache exactly if the epoch is cached, with the cached entry |
| CacheProtocol.FetchIsAnswered | pkiclient/cache.go:187-194 | a document fetched is cached and handed to the caller whose operation is in hand |
| CacheProtocol.CacheIsTransparent | pkiclient/cache.go:103-125 | if the backing's answers never change, every document returned, by fast path or fetch, is the backing's document for that epoch |
| CacheProtocol.RunOnCache | pkiclient/cache.go:103-196 | readers and worker driven over the cache object reach the model's state for every interleaving |
| Path.SelectHops | minclient/path.go:104-161 | one node from each required layer in increasing order, then the destination, preceded by the source on a client's forward path; each error exactly under its cause; a valid request fails only at the first empty layer it needs |
| Path.ReplyCrosses | minclient/path.go:133-144 | a reply crosses exactly the layers before its destination's |
| Path.MixCrossesRest | minclient/path.go:120-131 | a mix's forward packet crosses exactly the layers after its own, a provider's all of them |
| Path.SelectCauses | minclient/path.go:108-155 | causes of failure exclude each other and a selection, so each error is reported if and only if its cause holds |
| Path.NewPath | minclient/path.go:43-102 | all hop keys from one epoch e+k with k below 3, some selectable node lacking its key for each epoch before it, exactly one delay on each waiting hop, recipient and SURB reply only at the end, nothing left of abandoned attempts, time is base plus all delays; fails exactly if hop selection does, or for keys: only if for each epoch tried some selectable node lacks its key, surely if every selection does |
| Path.BuildHops | minclient/path.go:55-95 | succeeds exactly if every hop has a key for the epoch |
| Path.EstimateIsExact | minclient/path.go:66-79 | with 0 < MuMaxDelay < 2^32 the time added is exactly the sum of the delay commands written into the packet |
| Path.DelayBounds | minclient/path.go:66-79 | between 1 and MuMaxDelay milliseconds per delay command, and only the last hop may have none |
| Path.DelayFitsIff | minclient/path.go:70-77 | estimate and 32-bit delay command agree for every draw if and only if MuMaxDelay is set and below 2^32 |
| Compose.FrameRoundTrip | minclient/send.go:46-48 | flag, SURB and ciphertext can be recovered from the payload, and its length does not depend on whether there is a SURB |
| Compose.MakePath | minclient/send.go:133-161 | fails only for the cause of its error; a path made is one NewPath makes between the two providers for this recipient, SURB ID, start time and epoch, and is timed by its own delay commands: L+2, L+1 or L of them |
| Compose.CertainFailure | minclient/send.go:133-161 | under every cause but missing keys no path is made and no other error is reported |
| Compose.ComposeOnce | minclient/send.go:50-107 | each way a turn can end, exactly under its condition: no epoch, no path for its cause, selection slower than the budget, delays reaching twice the period, failing cryptography, or a packet; the packet is made of a path to the recipient from the turn's clock, with a SURB also of one back to the user from the arrival of the first, and of their frame, with the time to the end of the last path as its estimate; for one document seen by both calls that is the sum of all 2L+2 delay commands on both paths, between 2L+2 and (2L+2) MuMaxDelay ms; the delay test can fail only if that many maximal delays reach the limit |
| Compose.ComposeSphinxPacket | minclient/send.go:38-108 | malformed input fails first and exactly then; otherwise the last turn gives the result, a packet composed from that turn's own two paths or a failure for that turn's cause, and every earlier turn was redone for a reason; if the longest round trip is under the limit the delay test never forces a retry |
| PkiWorker.WorkerState | minclient/pki.go:123-206 | no epoch is both stored and failed, stored documents are for their key's epoch, at the loop head at most one document and only the current failure mark remain, callbacks have strictly increasing epochs |
| PkiWorker.FetchEffect | minclient/pki.go:148-185 | a fetch is made exactly for an epoch neither stored nor marked; it stores the fetched document, marks the epoch, does neither, or stops the worker, by its outcome |
| PkiWorker.DocumentsAreFetched | minclient/pki.go:145-196 | over every run a stored document, and every document handed to a callback, is one fetched for its own epoch, and an epoch is marked only if it was said to have no document |
| PkiWorker.CurrentDocumentIsCurrent | minclient/pki.go:97-112 | whatever happens between its two looks, a document currentDocument returns is for the epoch looked up |
| PkiWorker.DocumentPersists | minclient/pki.go:221-233 | a stored document stays available and unchanged until a later epoch has been seen |
| PkiWorker.SignalNeverBlocks | minclient/pki.go:197-201 | under any interleaving of callers the completion signal finds its channel free |
| PkiWorker.PokeStartsRound | minclient/pki.go:126-139 | a caller's poke at the loop head starts a round, unless an epoch lookup has failed |
| PkiWorker.TimerLiveIff | minclient/pki.go:124-144 | at the loop head exactly one of "armed" and "tick buffered" holds, and the drain after Stop finds its tick, if and only if no epoch lookup has failed |
| PkiWorker.FailedLookupIsFatal | minclient/pki.go:140-144 | after a failed lookup no document, callback or new completion signal ever follows |
| PkiWorker.LookupCanFail | minclient/pki.go:131-144 | a failed lookup in the first round gets the worker there |
| PkiWorker.StepsMakeARound | minclient/pki.go:145-190 | the separate steps of a round together do to the maps what Refresh does |
| PkiWorker.Pki.Refresh | minclient/pki.go:145-196 | fetches what is missing, stores what was fetched as it was fetched, marks what does not exist, leaves the rest, prunes, calls back once per epoch with the stored document, and stops only on a cancelled fetch |
| PkiWorker.Pki.PruneDocuments | minclient/pki.go:221-233 | exactly the documents of earlier epochs go |
| PkiWorker.Pki.PruneFailures | minclient/pki.go:235-241 | exactly the marks outside now..now+1 go |
| Surb.AtMostOnceIff | session.go:177-310 | every SURB ID is claimed at most once if and only if no entry is read between another claim's read and delete; with no claim in progress exactly the IDs with such an overlap have two outcomes, so no message gets more than one of a reply and a collection event if and only if there was none |
| Surb.OutcomesAreRight | session.go:267-310 | a reply reaches only the message whose send stored that SURB ID, and nothing is collected before send time, reply estimate and slop have passed |
| Surb.DecoyTally | session.go:258-290 | over every run, overlaps included and modulo 2^64, the tally is live, held, collected, discarded and failed loop decoys, less one while a send is not yet counted, less the surplus claims on loop decoys; without overlap there is no surplus |
| Surb.TallyRightIff | session.go:258-290 | with no claim in progress, the tally is right if and only if no loop decoy was read between another claim's read and delete |
| Surb.OverlapCompletesTwice | session.go:271-276 | a witness from every state with no claim in progress: two replies, or a reply and the collector, that read one entry before either deletes it both complete it |
| Surb.OverlappingRepliesBreakTally | session.go:262-290 | two overlapping replies to a loop decoy leave the tally at 2^64-1 with nothing in flight |
| Surb.ReplyAndCollection | session.go:183-189 | a reply overlapping the collector delivers and collects the same message |
| Surb.NothingLost | session.go:177-310 | for every run, overlaps included: once no claim is in progress, each stored SURB ID is either in the map or has an outcome, never both and never neither |
| Surb.TakenAtOnce | session.go:267-310 | a reply or collection visit that runs without interruption removes its one entry with its one outcome, and changes nothing else |
| SessionMaps.Session.Conserved | session.go:177-310 | after any calls taken one at a time, every stored SURB ID is in the map or has exactly one outcome, and the tally counts the loop decoys live, collected, discarded or failed |
| SessionMaps.Session.OnAck | session.go:267-310 | an unknown ID changes nothing; a known one leaves the map; a bad payload changes nothing else; a good one counts a loop decoy down, puts the reply to a non-blocking message on the event channel whoever waits, and hands that to a blocking one over if and only if its caller waits |
| SessionMaps.Session.GarbageCollect | session.go:177-193 | every entry is visited once, in any order and with its own clock reading; those expired then leave the map, each with one event for its message |
| SessionMaps.CollectedIff | session.go:183-189 | an entry goes exactly if it is expired at its own visit; so all that were expired at the first clock reading and none that are not at the last |
| SessionMaps.NoticesAre | session.go:183-189 | the events of a collection are one for the message of each entry found expired, in the order of the visits |
| SessionMaps.Session.DoSend | send.go:76-84 | a successful send stores the entry; a loop decoy is counted whether or not it was sent |
| TimerQueue.NeverEarly | timer_queue.go:115-153 | in every run pushed items are exactly those queued and forwarded; if every deadline was less than 2^63 ns ahead of the clock or of the latest deadline queued at its push, none is forwarded early, also when pushes land between peek and pop |
| TimerQueue.EarlyIff | timer_queue.go:133-142 | the worker's test passes an item whose deadline is ahead if and only if it is at least 2^63 ns ahead |
| TimerQueue.LookSays | timer_queue.go:131-150 | an overdue item is forwarded at once; otherwise the timer rings at the least deadline plus the time between the two clock readings |
| TimerQueue.EarlyRunIff | timer_queue.go:62-153 | after any safe run, whatever is queued and wherever the worker is, a further push can lead to an early forward if and only if its deadline is 2^63 ns or more ahead of the latest of the clock and all queued deadlines |
| TimerQueue.NeverEarlyIff | timer_queue.go:62-153 | over whole runs with 64-bit deadlines, nothing can be forwarded early at any point if and only if every push was safe in that sense |
| TimerQueue.Delayed.Forward | timer_queue.go:115-127 | removes one item of least priority, if there is any |
| TimerQueue.Delayed.PushItem | timer_queue.go:62-67 | adds the item and keeps all others |
| TimerQueue.Worker | timer_queue.go:129-153 | the worker and its callers over the queue object, in any interleaving: nothing is forwarded early, and what was pushed is exactly what was forwarded and what is left |

## Left out

- Sphinx, SURB and noise cryptography and wire encoding: only lengths and success or failure appear.
- Recipient and provider names, keys, payloads and errors are opaque numbers.
- The Tendermint light client (pkiclient/katzenmint.go) beyond its promise that a fetched document is for the epoch asked for; `Cache.GetEpoch` and its timer; the epoch clamp in pkiclient/epochtime.
- Configuration, proxy, registration, the ping command, logging and event formatting.
- Deadlock freedom of `sendPacket` and of the reply channels, and liveness after a halt: the code does not guarantee them.
- The flush loop `connectWorker` around `doConnect`.
- `TimerQueue.Remove` and `wakeupCh`; the panic when the next queue refuses a forwarded item.
- Reports on `fatalErrCh` other than the "impossible failure" ones, and `isDocValid`, whose result does not change what the scheduler does.
- The reply half of a blocking send (waiting with a timeout after the sent signal).
- `ValidateReply` and `composeMessage`: plain framing.
- Callers of `CurrentDocument` may consume a stale completion signal; the model allows it and claims nothing about how long they wait.
- AtMostOnceIff: callbacks run in goroutines of their own, so at-most-once is stated with the exact condition on overlaps instead of unconditionally.
- TallyRightIff: with 2^64 outcomes or more the tally may be right again by wrapping around.
- NewPath: for missing keys there is a necessary and a sufficient condition; between them the random choice of nodes decides.
- Connection.Connection.OnConnStatusChange: does not drain the send, consensus and fetch channels on disconnect, because the callers blocked on them are not modelled.
- WorkerState: epochs start at 1 and do not go back, because `now - 1` wraps at 0.
- CoverNeverStops: maximal delays are below 2^63 ns, because larger ones wrap in Go's Duration.
- TimerQueue.Worker: every deadline is less than 2^63 ns ahead of the clock at its push, a condition that can be checked without looking at the queue; the weaker exact one is in NeverEarly.
- LruRefinement: the maximal size is at least 1; the source's is 8.
- BuildHops: the random draw is below 2^64 - 1, so that adding 1 does not wrap.
- SessionMaps.Session.DoSend: SURB IDs are drawn fresh, as random values; a repeated one is excluded.
- SignalledExactlyOnce: message IDs of blocking sends are taken to be distinct, as random values.
- EgressQueue.Queue.Pop: aliasing of queued messages is not captured; items are values.
