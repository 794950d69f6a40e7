# A model of the TWAG gateway and its Diameter stack

The gateway connects Wi-Fi users to a mobile core. It authenticates them over Diameter, sets up a GTP session for
each, and hands out addresses. Under `src/` is the gateway itself, under `freeDiameter/` the Diameter stack it is
built on. This project models the parts whose correctness is not visible in any single function, and proves what
they are for.

| file | what it models |
|---|---|
| `Lists.dfy` | the circular intrusive lists, with pointers rewritten in place |
| `Fifo.dfy`, `FifoObject.dfy` | the bounded blocking queue: the protocol of its critical sections, and the object |
| `SentRequests.dfy`, `SentRequestRuns.dfy` | the cache of requests awaiting an answer, and all its histories |
| `PeerMachine.dfy` | a peer: state machine, capabilities exchange, watchdog, disconnection, out thread, failover |
| `PeerTable.dfy`, `PeerOut.dfy` | the table of the state machine, event by event and state by state; the out thread over runs |
| `PeerInvariants.dfy`, `PeerConservation.dfy`, `PeerWatchdog.dfy`, `PeerHandlers.dfy` | what every run of a peer keeps |
| `PeerObject.dfy` | the peer as an object: its queues and its cache of sent requests, changed in place by every step |
| `Election.dfy`, `ElectionRuns.dfy`, `ElectionPeers.dfy` | two peers connecting to each other at once |
| `Framing.dfy`, `Sctp3436.dfy` | messages over byte streams, and over the streams of an SCTP association |
| `Endpoints.dfy`, `Apps.dfy` | the sorted tables of endpoints and applications |
| `Nai.dfy`, `DictionaryFunctions.dfy`, `Imsi.dfy` | the decorated NAI, the Time type, characters in order, the packed IMSI |
| `Twag.dfy`, `TwagInvariants.dfy`, `TwagSuccess.dfy`, `TwagHandlers.dfy`, `TwagObjects.dfy` | the sessions of the gateway under all interleavings, its handlers and its objects |
| `Arithmetic.dfy`, `Bytes.dfy`, `Clock.dfy` | what several of them need |

## How it is modelled

A section protected by a mutex is one step. A condition variable is a set of blocked threads, a set of woken ones
and, for those that timed out or were cancelled, a set of threads on their way out; a signal wakes any one blocked
thread, and wake-ups may be spurious. What a thread can not know in advance (the content of a message, the outcome
of a handshake, of a validation or of a system call, the time) is part of the step. Theorems about runs hold for
every sequence of steps, so for every interleaving and every input.

Where the source updates things in place there is a class or a method with a loop, and its postcondition names a
function on values; the properties are proved about that function, for all values, and over all runs. History that
the program does not keep (what was posted, how many ids were issued, what happened to a session) is part of the
value in such proofs, and no decision depends on it.

Integers are unbounded except where the source relies on their width: hop-by-hop ids and TEIDs wrap at 2^32, the
watchdog counter has two bits, the Time codec computes on 64 bits, unsigned.

## Where the code differs from what one expects

- `fd_fifo_select` and `fd_fifo_move` share the condition variable of the getters and can leave one asleep although
  an item is queued: `Fifo.SelectCanLoseAWakeup` and `Fifo.MoveCanLoseAWakeup` are such runs, and the exact conditions
  are `Fifo.SelectIsHarmlessExactlyWhen` and `Fifo.MoveWakesEnoughExactlyWhen`. The theorem on lost wake-ups is about
  the other operations. A move refused because a poster waits has already changed the caller's pointer.
- The event of a connection error does not say which connection it is about, and a reset throws the queued events
  away. So two peers whose identities differ ignoring case agree on one connection if and only if no error of the
  abandoned one is handled at the wrong moment: by a peer already in service on the other one, or with the CER of
  that one waiting behind it (`Election.Agreement`). `ElectionRuns.ErrorsCanDisturb` is a run that ends with both in
  CLOSED; with identities equal but for case this also happens without such an error
  (`ElectionRuns.EqualIdsCanFail`).
- With a second validation callback set, `enter_open_state` leaves the peer in OPEN without linking it and without
  an out thread: `PeerWatchdog.OpenWithoutService` is such a run, and `PeerWatchdog.OpenIsServedExactlyWhen` says
  that the callback, at the step that enters OPEN, is the only reason.
- A DPA received outside CLOSING_GRACE is not ignored: with nothing pending it ends the peer in every state
  (`PeerHandlers.DpaOutcome`).
- A handshake that fails after the CER/CEA exchange leaves the peer in OPEN_HANDSHAKE without a connection, and the
  next turn of the state machine begins with an assertion that excludes this state. When this happens is exactly
  `PeerHandlers.LoopHeadFailsExactlyWhen`; `PeerHandlers.LoopHeadCanFail` is a run. In it, and whenever this state
  is reached, the model goes on where a build without assertions does.
- A DWA does not lead from SUSPECT back to OPEN; nothing does (`PeerWatchdog.SuspectNeverReturns`).
- A DEA without a Result-Code, or with UNABLE_TO_DELIVER (3002), counts as success (2001). A session can therefore be
  CONNECTED that no server accepted (`TwagSuccess.ConnectedWithoutSuccess`), and
  `TwagSuccess.ConnectedMeansSuccessExactlyWhen` says that these two kinds of DEA are the only reason.
- The header of a message is copied before its length is known to cover it. With a length of 0 the copy reaches the
  data kept behind the message; with any other length it does not (`Framing.HeaderFitsExactlyWhen`).
- The characters of an IMSI are packed unchecked. They can be read back if and only if they are digits, and at most
  15 (`Imsi.RoundTrip`).
- The mask in `time_t_to_diameter_string` clears all bits above the 31st, so that its last check never fails and
  times out of range are encoded as other times; the range in which decoding gives the time back is exact.
- `do_send` drops a request whose hop-by-hop id is still in use; this is the only way a routable request is freed.
- The address field of a session is not initialised; DHCP never shows it before a response has set it.

## Model

| member | source | states |
|---|---|---|
| Lists.NextAndPrevAreInverse | freeDiameter/libfdproto/lists.c:39-166 | in a list, `next` and `prev` undo each other at every link, the sentinel included |
| Lists.ListIsUnique | freeDiameter/libfdproto/lists.c:39-52 | the pointers alone determine the members and their order |
| Lists.Link.constructor | freeDiameter/libfdproto/lists.c:39-52 | a link just initialised is an empty list |
| Lists.InsertAfter | freeDiameter/libfdproto/lists.c:55-72 | the ring stays a well-formed list whose members are the old ones with the new link just after the reference |
| Lists.InsertBefore | freeDiameter/libfdproto/lists.c:96-113 | the same, just before the reference |
| Lists.Unlink | freeDiameter/libfdproto/lists.c:154-166 | the member leaves, the others keep their order and shape, the link becomes single; a sentinel or single link is not touched |
| Lists.MoveEnd | freeDiameter/libfdproto/lists.c:75-93 | the members of the second list follow those of the first, all with the first sentinel as head; the second list is left empty |
| Lists.InsertOrdered | freeDiameter/libfdproto/lists.c:116-151 | EEXIST, with the duplicate found, exactly when the key is present; otherwise the list gains the item and stays strictly sorted |
| Fifo.StepKeepsInv | freeDiameter/libfdproto/fifo.c:400-675 | every critical section of every operation, and every spurious wake-up, timeout and cancellation, keeps the invariant of the queue |
| Fifo.NobodySleepsInVain | freeDiameter/libfdproto/fifo.c:400-675 | no lost wake-up: in every interleaving a blocked getter means that no more items are queued than getters are already woken, a blocked poster that no more slots are free than posters are already woken |
| Fifo.QueueHistory | freeDiameter/libfdproto/fifo.c:383-675 | in every interleaving: posted items are the popped ones followed by the contents, `count` is the length of the list, `thrs` and `thrs_push` count the threads actually waiting |
| Fifo.BlockingPostKeepsMax | freeDiameter/libfdproto/fifo.c:400-505 | a step takes a bounded queue past its maximum only if it is `fd_fifo_post_noblock` |
| Fifo.RunKeepsHysteresis | freeDiameter/libfdproto/fifo.c:440-447 | in every run, `highest` is a multiple of `high` with count - high < highest < count + (high - low) |
| Fifo.LowFiresExactly | freeDiameter/libfdproto/fifo.c:546-557 | the low callback is due exactly when the pop would break the upper bound, and then the bounds hold again |
| Fifo.WaitsEnd | freeDiameter/libfdproto/fifo.c:383-664 | a spurious wake-up makes the thread one that is on its way; a timeout or a cancellation makes it one that leaves, after which the count of waiters is one less |
| Fifo.MoveConserves | freeDiameter/libfdproto/fifo.c:228-299 | a move gives the new items followed by the old ones; item counts, totals and every nanosecond of the accumulators are conserved |
| Fifo.MoveWakesEnoughExactlyWhen | freeDiameter/libfdproto/fifo.c:267-273 | the single signal of a move suffices if and only if at most one getter sleeps, or no more items are there than getters woken |
| Fifo.MoveCanLoseAWakeup | freeDiameter/libfdproto/fifo.c:228-299 | a concrete run: two getters wait, two items are moved in, one getter is woken and takes one, and the other sleeps on with an item queued and nobody on the way |
| Fifo.SelectCanLoseAWakeup | freeDiameter/libfdproto/fifo.c:692-724 | a concrete run in which a returning `fd_fifo_select` has consumed the signal meant for a getter, which sleeps on with an item queued |
| Fifo.SelectIsHarmlessExactlyWhen | freeDiameter/libfdproto/fifo.c:692-724 | a select that returns leaves no lost wake-up if and only if no getter sleeps or one more is already on its way |
| FifoObject.FifoQueue.Append | freeDiameter/libfdproto/fifo.c:436-461 | the item goes to the end, and count, watermark and blocking time follow |
| FifoObject.FifoQueue.TakeFirst | freeDiameter/libfdproto/fifo.c:508-543 | the first item comes off, and counts, totals and times follow |
| FifoObject.FifoQueue.PostSection | freeDiameter/libfdproto/fifo.c:400-481 | the section is the step Post of the protocol: it inserts and signals, or blocks |
| FifoObject.FifoQueue.PostResumeSection | freeDiameter/libfdproto/fifo.c:412-428 | a woken poster inserts, or waits again |
| FifoObject.FifoQueue.GetSection | freeDiameter/libfdproto/fifo.c:622-675 | the section is the step Get of the protocol: it pops and signals, or blocks |
| FifoObject.FifoQueue.GetResumeSection | freeDiameter/libfdproto/fifo.c:636-664 | a woken getter pops, or waits again |
| FifoObject.FifoQueue.TryGetSection | freeDiameter/libfdproto/fifo.c:560-603 | the first item if there is one; otherwise nothing, but if a poster waits it is given a chance first |
| FifoObject.FifoQueue.TryGetRetrySection | freeDiameter/libfdproto/fifo.c:580-592 | the second look of `fd_fifo_tryget_int` |
| FifoObject.FifoQueue.Cleanup | freeDiameter/libfdproto/fifo.c:606-619 | a cancelled getter leaves the count of waiters exact |
| FifoObject.FifoQueue.CleanupPush | freeDiameter/libfdproto/fifo.c:383-396 | a cancelled poster leaves the count of waiters exact |
| FifoObject.FifoQueue.Move | freeDiameter/libfdproto/fifo.c:228-299 | refused exactly for a queue with thresholds or with a poster waiting, in the second case with the pointer of the caller changed all the same; otherwise its getters are sent away one by one and both queues end as the two functions of a move say |
| SentRequests.ByIdMeaning | freeDiameter/libfdcore/p_sr.c:49-78 | every stored request is found in the map under its id and nothing else is there |
| SentRequests.ByIdDetermines | freeDiameter/libfdcore/p_sr.c:49-78 | two sorted lists with the same map are equal: the map says everything about the list |
| SentRequests.SrList.FindOrNext | freeDiameter/libfdcore/p_sr.c:49-62 | the forward search finds an id exactly when it is in the map, else the place where it belongs |
| SentRequests.SrList.FindOrPrev | freeDiameter/libfdcore/p_sr.c:65-78 | so does the backward search |
| SentRequests.SrList.Store | freeDiameter/libfdcore/p_sr.c:201-264 | EINVAL exactly when the id is taken; otherwise one binding is added, the expiry list gets the request in its place, the count follows |
| SentRequests.SrList.Fetch | freeDiameter/libfdcore/p_sr.c:267-301 | the request under the id, with its original id restored, leaves both lists; an unknown id only lowers the count of lost ones |
| SentRequests.SrList.Expire | freeDiameter/libfdcore/p_sr.c:128-169 | a request is handed out if and only if the date of some stored request is not after `now`, in nanoseconds; it is the first of the list, no stored request has an earlier date, and it leaves with its original id restored |
| SentRequests.SrList.Failover | freeDiameter/libfdcore/p_sr.c:304-349 | all requests leave in id order: routable ones are queued with T flag and original id, the others freed; both lists and the count end at zero, as its two ASSERTs say |
| SentRequests.SrList.OnDisconnect | freeDiameter/libfdcore/p_sr.c:353-372 | exactly the requests that are not routable are freed, in order |
| Clock.InferiorIsEarlier | freeDiameter/include/freeDiameter/libfdproto.h:723-725 | of two clock readings the inferior one is the one with fewer nanoseconds |
| SentRequests.DueExactlyWhen | freeDiameter/libfdcore/p_sr.c:128-169 | the first of the expiry list is due if and only if some stored request is, and it has the earliest date of all |
| SentRequests.StoredKeeps | freeDiameter/libfdcore/p_sr.c:201-264 | a store under a free id keeps the invariant and adds exactly that binding |
| SentRequests.RemovedKeeps | freeDiameter/libfdcore/p_sr.c:267-301 | taking a request out keeps the invariant and removes exactly that binding |
| SentRequestRuns.Outbound.DoSend | freeDiameter/libfdcore/p_out.c:39-98 | a request takes the next id of the 32-bit counter and is stored with its original one before it is sent; an answer changes nothing |
| SentRequestRuns.IdAtIsModular | freeDiameter/libfdcore/p_out.c:54-61 | the n-th id is the first plus n, modulo 2^32 |
| SentRequestRuns.OpKeepsInv | freeDiameter/libfdcore/p_sr.c:201-372 | send, fetch, expiry, failover and disconnect each keep the cache valid and the accounts balanced |
| SentRequestRuns.ReachableCache | freeDiameter/libfdcore/p_sr.c:153-372 | in every reachable cache the requests strictly increase by id, the expiry list holds exactly those with a timeout, each once and from the earliest date to the latest, and the count is the length |
| SentRequestRuns.RunsCompose | freeDiameter/libfdcore/p_sr.c:153-372 | a history of the cache is its operations one after the other |
| SentRequestRuns.LeavesAtMostOnce | freeDiameter/libfdcore/p_sr.c:267-372 | no stored request leaves the cache twice |
| SentRequestRuns.HandedBackAsGiven | freeDiameter/libfdcore/p_sr.c:267-349 | what is handed back is a message that was given to `do_send`, original id and all, with the T flag added by failover only |
| SentRequestRuns.FailoverDepartures | freeDiameter/libfdcore/p_sr.c:304-349 | on a failover all leave, in order, the routable ones failed over and the others freed |
| SentRequestRuns.CollidesExactlyWhen | freeDiameter/libfdcore/p_out.c:54-72 | a store is refused exactly when a request is outstanding that was allocated a multiple of 2^32 allocations earlier |
| PeerInvariants.ServiceOnlyInOpen | freeDiameter/libfdcore/p_psm.c:159-377 | in every run of all the threads: linked in the active list exactly when there is an out thread, and only in OPEN; a connection in every state of service; and outside OPEN and CLOSING_GRACE no routable message is left in the send queue, among those set aside or in the cache |
| PeerInvariants.OutSendKeeps | freeDiameter/libfdcore/p_out.c:162-210 | sending a message of the base protocol, queued in OPEN and direct otherwise, keeps that invariant |
| PeerInvariants.ChangedKeeps | freeDiameter/libfdcore/p_psm.c:274-320 | so does every change of state, with all that leaving the old one and entering the new one entails, if a state of service is entered with a connection |
| PeerInvariants.CleanedUpKeeps | freeDiameter/libfdcore/p_psm.c:354-377 | so does the cleanup |
| PeerInvariants.CeReceivedKeeps | freeDiameter/libfdcore/p_ce.c:719-849 | so does a CER or CEA on the connection in use |
| PeerInvariants.TurnKeeps | freeDiameter/libfdcore/p_psm.c:395-922 | so does each turn of the state machine, on any event in any state |
| PeerTable.TurnFollowsTable | freeDiameter/libfdcore/p_psm.c:395-922 | the whole table of the state machine, for every event in every state: each field of the peer after a turn, and the operations on its messages in order, without the handlers |
| PeerTable.EveryStepFollowsTable | freeDiameter/libfdcore/p_psm.c:395-922 | in every run every step, of the state machine and of the other threads, is the one of the table |
| PeerTable.TerminateOutcome | freeDiameter/libfdcore/p_psm.c:459-480 | the order to terminate: in OPEN, OPEN_NEW and REOPEN the peer leaves service for CLOSING_GRACE, keeps its connection and its messages and sends a request of the base protocol; in any other state it ends at once |
| PeerTable.GivingUpOutcome | freeDiameter/libfdcore/p_psm.c:816-885 | a shutdown in any state, a failed attempt in WAITCNXACK and a timeout in WAITCNXACK, WAITCEA or CLOSING: CLOSED without connections and with the flags as they were, or the end if the peer is to be deleted |
| PeerTable.GraceEnds | freeDiameter/libfdcore/p_psm.c:728-738 | the grace period ends, by timeout or error: everything is failed over, and the peer ends if and only if the termination is local |
| PeerTable.FailedSendEndsSending | freeDiameter/libfdcore/p_out.c:115-134 | the out thread goes on sending if and only if the connection took the message and its id was free; otherwise it only empties the queue |
| PeerOut.PurgesOnlyAfterFailure | freeDiameter/libfdcore/p_out.c:101-159 | in every run the out thread sets a message aside only after a send of its own that failed, without having been stopped since, and from that failure on it sends nothing |
| PeerOut.OutThreadGoesOn | freeDiameter/libfdcore/p_out.c:101-159 | while there are messages the out thread takes them off the queue one at a time, to send them or to set them aside |
| PeerOut.EventsAreHandled | freeDiameter/libfdcore/p_psm.c:395-450 | the state machine handles any event in every state but NEW and ZOMBIE |
| PeerHandlers.GraceKeepsPending | freeDiameter/libfdcore/p_dp.c:63-163 | a DPR while requests are pending takes the peer out of service but keeps every message where it is |
| PeerHandlers.DprCloses | freeDiameter/libfdcore/p_dp.c:63-163 | a DPR with nothing pending closes the connection and fails over what waited |
| PeerHandlers.DpaOutcome | freeDiameter/libfdcore/p_dp.c:63-163 | a DPA, in every state: with something pending it marks the local termination and changes nothing else, otherwise it ends the peer |
| PeerHandlers.HandshakeLeftExactlyWhen | freeDiameter/libfdcore/p_ce.c:800-848 | a turn leaves the peer in OPEN_HANDSHAKE if and only if a handshake failed in it, or was rejected by the second callback |
| PeerHandlers.LoopHeadFailsExactlyWhen | freeDiameter/libfdcore/p_psm.c:447-450 | in every run: the assertion at the loop head fails for the first time exactly after a turn in which that happened |
| PeerHandlers.LoopHeadCanFail | freeDiameter/libfdcore/p_psm.c:447-450 | a run in which it does |
| PeerConservation.FailoverConserves | freeDiameter/libfdcore/peers.c:237-277 | all three stores end empty; what was appended to the routing queue is routable, what was freed is not, and together they are as many as were there |
| PeerConservation.FailoverInOrder | freeDiameter/libfdcore/peers.c:237-277 | which messages, and in what order: the routable ones of the send queue as they stood, those set aside, the routable sent requests by increasing id with T flag and original id; as multisets, these and the freed ones are all there was |
| PeerConservation.NothingLostNothingDoubled | freeDiameter/libfdcore/p_psm.c:159-377 | in every run the routable requests handed to the peer, by body, are all accounted for exactly once: waiting, set aside, awaiting an answer, answered or expired, back on the routing queue, or freed; and the cache is valid throughout |
| PeerConservation.FreedExactlyOnCollision | freeDiameter/libfdcore/p_out.c:101-159 | a step frees a routable request exactly when `do_send` finds the id of the first queued message still in use |
| PeerConservation.SetAsideIsRoutable | freeDiameter/libfdcore/p_out.c:136-153 | `p_tofailover` only ever holds routable messages, so that failover may requeue it unseen |
| PeerConservation.TurnQuiet | freeDiameter/libfdcore/p_psm.c:395-922 | a turn changes the messages only by failover, disconnection, one fetch and messages of the base protocol |
| PeerWatchdog.ThirdWatchdogOpens | freeDiameter/libfdcore/p_dw.c:135-146 | in every run a peer that entered REOPEN did so with a connection problem pending, and a step leads from there to OPEN exactly when it is the third watchdog message handled since |
| PeerWatchdog.ProblemMeansReopen | freeDiameter/libfdcore/p_ce.c:832-838 | with a connection problem pending no step leads to OPEN or OPEN_NEW: the capabilities exchange completes into REOPEN |
| PeerWatchdog.CounterCounts | freeDiameter/libfdcore/p_dw.c:170-179 | in REOPEN the 2-bit counter is one more than the watchdogs handled there |
| PeerWatchdog.OpenIsServedExactlyWhen | freeDiameter/libfdcore/p_psm.c:159-202 | in every run a peer in OPEN is linked and has an out thread if and only if no second validation callback was set at the step that entered OPEN |
| PeerWatchdog.OpenWithoutService | freeDiameter/libfdcore/p_psm.c:159-202 | a run that ends in OPEN with neither |
| PeerWatchdog.ReadyOutcome | freeDiameter/libfdcore/p_ce.c:830-838 | entering service: REOPEN with the counter at one if there was a problem, OPEN otherwise |
| PeerWatchdog.DwHandledControl | freeDiameter/libfdcore/p_dw.c:98-149 | a watchdog message moves the peer only in REOPEN, where it counts, and on the third leads to OPEN |
| PeerWatchdog.CeaOutcome | freeDiameter/libfdcore/p_ce.c:719-849 | whatever the result of a CEA, the peer enters service only as ReadyOutcome says, or not at all |
| PeerWatchdog.ReceiverOutcome | freeDiameter/libfdcore/p_ce.c:872-1090 | so does the receiver side |
| PeerWatchdog.TwoTimeoutsSuspect | freeDiameter/libfdcore/p_dw.c:152-167 | two timeouts in OPEN without an answer between them: a DWR, then SUSPECT with the peer out of service and all messages failed over |
| PeerWatchdog.SuspectGivesUp | freeDiameter/libfdcore/p_psm.c:856-866 | a timeout in SUSPECT closes the connection with the problem noted, so that the next one goes through REOPEN |
| PeerWatchdog.SuspectNeverReturns | freeDiameter/libfdcore/p_psm.c:485-693 | in every run no step leads from SUSPECT back into service, whatever is received |
| PeerObject.Partition | freeDiameter/libfdcore/p_out.c:139-153 | a queue is emptied into another one: the routable messages go over in order, the others are returned to be freed |
| PeerObject.FdPeer.constructor | freeDiameter/libfdcore/peers.c:52-91 | a new peer, with empty queues of its own, is the initial peer of the machine |
| PeerObject.FdPeer.FailoverMessages | freeDiameter/libfdcore/peers.c:237-277 | on the objects, by two loops and the failover of the cache: the routing queue grows by the routable messages of the send queue, then those set aside, then the routable sent requests in id order; all three end empty and the other messages are freed |
| PeerObject.FdPeer.SendNow | freeDiameter/libfdcore/p_out.c:39-98 | `do_send` on the real cache: refused exactly when the id is still in use, and then the request is freed |
| PeerObject.FdPeer.DropLocal | freeDiameter/libfdcore/p_sr.c:353-372 | on a disconnection exactly the sent requests that are not routable leave the cache and are freed |
| PeerObject.FdPeer.Turn | freeDiameter/libfdcore/p_psm.c:395-922 | a turn on any event keeps the invariants of the peer and of the exchange, is the step of the machine on the real queues and cache, and loses, doubles or frees no routable request |
| PeerObject.FdPeer.RouteRequest | freeDiameter/libfdcore/p_out.c:162-210 | so is a request handed over by a routing thread, which is accounted for exactly once |
| PeerObject.FdPeer.RouteAnswer | freeDiameter/libfdcore/p_out.c:162-210 | so is an answer |
| PeerObject.FdPeer.OutThreadSends | freeDiameter/libfdcore/p_out.c:115-134 | so is a message sent by the out thread: it leaves the queue for the cache, or is freed exactly on an id still in use; any failure ends the sending |
| PeerObject.FdPeer.Expires | freeDiameter/libfdcore/p_sr.c:128-169 | so is a round of the expiry thread |
| PeerObject.FdPeer.OutThreadPurges | freeDiameter/libfdcore/p_out.c:139-153 | after an error the whole send queue is emptied, the routable messages set aside in order and the others freed; the invariants stay and every routable request is still there |
| Election.CaseLessMeaning | freeDiameter/libfdcore/p_ce.c:84-93 | the comparison is the lexical order without case: the first difference decides |
| Election.WonMeaning | freeDiameter/libfdcore/p_ce.c:84-93 | a peer wins if and only if, where the identities first differ without case, that of the other ends or has the smaller letter |
| Bytes.LowerMeaning | freeDiameter/libfdcore/p_ce.c:84-93 | without case: only A to Z change, each to the small letter at its place in the alphabet |
| Election.ExactlyOneWins | freeDiameter/libfdcore/p_ce.c:84-93 | of two peers whose identities differ ignoring case exactly one wins; with equal ones neither does |
| Election.StepKeepsInv | freeDiameter/libfdcore/p_ce.c:680-716 | every step of either peer, in any order, keeps the invariant of the two connections and the two queues, except that an untimely error leads to the broken one |
| Election.StepKeepsBroken | freeDiameter/libfdcore/p_psm.c:696-740 | from there every step leads on towards CLOSED for both |
| Election.StepDoesWork | freeDiameter/libfdcore/p_psm.c:789-838 | every step brings the exchange closer to its end |
| Election.QuietMeansAgreed | freeDiameter/libfdcore/p_ce.c:1093-1139 | when nothing more can happen both use one connection, that of the loser if it made one, and the other is closed at both ends |
| Election.IdentitiesDiffer | freeDiameter/libfdcore/p_ce.c:84-93 | there is such a place if and only if the identities differ ignoring case |
| Election.Agreement | freeDiameter/libfdcore/p_ce.c:680-716 | for such identities, in every interleaving of the two attempts and of the closing of what is given up: never in service on different connections, over within sixteen steps; then, if no error was handled at the wrong moment, both use the connection of the peer with the smaller identity, or the only one there is if that peer made none, and the other is closed at both ends; otherwise both are in CLOSED |
| ElectionRuns.ErrorsCanDisturb | freeDiameter/libfdcore/p_psm.c:227-253 | a run with an untimely error, for any identities of which one wins |
| ElectionRuns.EqualIdsCanFail | freeDiameter/libfdcore/p_ce.c:84-93 | with identities equal but for case there is a run without such an error that ends with no peer in service |
| ElectionPeers.AttemptIsATurn | freeDiameter/libfdcore/p_psm.c:841-862 | the start of an attempt is the turn of the state machine on its timeout in CLOSED |
| ElectionPeers.EstablishedIsATurn | freeDiameter/libfdcore/p_psm.c:789-810 | the move of a peer when its connection is established is the turn on that event |
| ElectionPeers.CerIsATurn | freeDiameter/libfdcore/p_ce.c:1093-1139 | the move of a peer on a CER is the turn on that event |
| ElectionPeers.CeaIsATurn | freeDiameter/libfdcore/p_ce.c:755-790 | the move of a peer on a CEA is the turn on that message |
| ElectionPeers.ErrorIsATurn | freeDiameter/libfdcore/p_psm.c:696-740 | the move of a peer on a connection error is the turn on that event |
| ElectionPeers.HandlingIsATurn | freeDiameter/libfdcore/p_psm.c:395-922 | so whatever event is first in the queue of a peer, handling it is a turn of the state machine |
| ElectionPeers.ErrorClosesWhatIsInUse | freeDiameter/libfdcore/p_psm.c:696-740 | a connection error closes the connection in use, in every state that has one |
| ElectionPeers.LateErrorClosesElected | freeDiameter/libfdcore/p_psm.c:696-740 | the error of the connection given up closes the elected one if it is handled after the CER; handled before, the CER still leads to REOPEN on the elected one |
| Framing.FramesOfConcat | freeDiameter/libfdcore/cnxctx.c:801-856 | framing a concatenation of well-formed messages gives the messages back |
| Framing.LengthOfOctets | freeDiameter/libfdcore/cnxctx.c:820-820 | the length is the number whose three octets, highest first, follow the version |
| Framing.SizedIsWellFormed | freeDiameter/libfdcore/cnxctx.c:820-829 | what can be framed are exactly the messages of version 1 and of 4 to 65535 octets that have their own size in octets 1 to 3 |
| Framing.SuspectExactlyWhen | freeDiameter/libfdcore/cnxctx.c:822-829 | a header is refused if and only if its version is not 1 or its length does not fit in two octets |
| Framing.FramesOfSized | freeDiameter/libfdcore/cnxctx.c:801-856 | framing a concatenation of such messages gives the messages back |
| Framing.DeliveredSoFar | freeDiameter/libfdcore/cnxctx.c:801-856 | of any prefix of the stream exactly the complete messages are delivered |
| Framing.PartialMessageIsHeld | freeDiameter/libfdcore/cnxctx.c:834-846 | an incomplete message is not delivered and not taken for an error |
| Framing.EndingsDifferExactlyWhen | freeDiameter/libfdcore/cnxctx.c:808-830 | the receivers with and without TLS end differently exactly on a stream that stops within a header of the wrong version |
| Framing.HeaderFitsExactlyWhen | freeDiameter/libfdcore/cnxctx.c:732-760 | the four bytes of the header stay clear of the data kept behind the message if and only if the length is not 0 |
| Framing.Connection.ReceiveClear | freeDiameter/libfdcore/cnxctx.c:801-856 | for any cuts in the reads it delivers exactly the messages of the stream (the first one, without `cc_loop`) and marks an error exactly for a suspect header, if it gets that far |
| Framing.Connection.ReceiveTls | freeDiameter/libfdcore/cnxctx.c:1066-1119 | so does the receiver with TLS, with the same framing function |
| Framing.Connection.SendSimple | freeDiameter/libfdcore/cnxctx.c:1619-1639 | for any partial writes the whole message is sent, or a strict prefix and the connection is in error |
| Framing.Transfer | freeDiameter/libfdcore/cnxctx.c:1619-1639 | from sender to receiver, with any cuts on both sides, what is delivered is what was sent; after an error, a prefix of it |
| Sctp3436.PullGivesNextBytes | freeDiameter/libfdcore/sctp3436.c:207-252 | a pull gives the next bytes of the stream, at most as many as asked for, and keeps the rest |
| Sctp3436.PullTakesAllItCan | freeDiameter/libfdcore/sctp3436.c:207-252 | a pull gives exactly the smaller of what is asked for and what is left of the message at hand, and fails if and only if an error comes next |
| Sctp3436.BlocksOnlyWhenDry | freeDiameter/libfdcore/sctp3436.c:207-225 | a pull waits exactly when everything received was pulled and no error is queued |
| Sctp3436.EveryStreamIsTold | freeDiameter/libfdcore/sctp3436.c:119-125 | when the demultiplexer stops every stream gets the error behind what it has not pulled, and no pull waits then |
| Sctp3436.PulledIsAPrefix | freeDiameter/libfdcore/sctp3436.c:88-117 | in every interleaving, what was pulled from a stream is a prefix of the concatenated messages of that stream, and all of it if nothing is pending |
| Sctp3436.Reader.Pull | freeDiameter/libfdcore/sctp3436.c:207-252 | the partial buffer and its offset end as the pull function says, and the bytes are at the start of the destination |
| Endpoints.AlwaysSorted | freeDiameter/libfdcore/endpoints.c:40-224 | after any sequence of calls from an empty list it is strictly sorted by family, address and port, with every port-0 entry alone for its address |
| Endpoints.WildcardIsAlone | freeDiameter/libfdcore/endpoints.c:127-146 | in a sorted list two entries of one address both have a port |
| Endpoints.AddMergeSorted | freeDiameter/libfdcore/endpoints.c:100-158 | an addition keeps the order, also when it fills in a port in place |
| Endpoints.AddMergeMeaning | freeDiameter/libfdcore/endpoints.c:100-158 | the first entry that may stand for the same endpoint, wherever it is, gets the port if it had none and the flags of both; if there is none the endpoint is inserted; nothing else changes |
| Endpoints.AlwaysSensible | freeDiameter/libfdcore/endpoints.c:63-98 | no entry ever keeps EP_ACCEPTALL, and without it no unspecified, loopback, multicast, link-local or site-local address gets in |
| Endpoints.RefusedV4 | freeDiameter/libfdcore/endpoints.c:65-79 | by number, the refused IPv4 addresses: 0.0.0.0, 127.0.0.0/8, and everything from 224.0.0.0 on |
| Endpoints.RefusedV6 | freeDiameter/libfdcore/endpoints.c:81-94 | the refused IPv6 addresses: ::, ::1, ff00::/8, fe80::/10 and fec0::/10 |
| Endpoints.CompareMeaning | freeDiameter/libfdcore/endpoints.c:108-122 | addresses are in the order of the first octet in which they differ |
| Endpoints.ScreenedExactlyWhen | freeDiameter/libfdcore/endpoints.c:40-98 | an address is added if and only if its family is known and it makes sense or EP_ACCEPTALL is given, and it keeps all its other flags |
| Endpoints.FilteredMeaning | freeDiameter/libfdcore/endpoints.c:164-203 | a filter keeps exactly the entries with one of the flags, or those of the family |
| Endpoints.ClearedMeaning | freeDiameter/libfdcore/endpoints.c:205-224 | clearing leaves exactly the entries that keep a flag, without the cleared ones |
| Endpoints.EndpointList.Add | freeDiameter/libfdcore/endpoints.c:40-161 | the list ends as the addition function says, by an in-place search, fill-in and insertion |
| Endpoints.EndpointList.FilterBy | freeDiameter/libfdcore/endpoints.c:164-203 | the list ends as the filter function says, by deletion during the walk |
| Endpoints.EndpointList.ClearFlags | freeDiameter/libfdcore/endpoints.c:205-224 | flags are cleared everywhere and entries left without any are deleted |
| Apps.MergedSorted | freeDiameter/libfdcore/apps.c:39-77 | a merge keeps the list strictly sorted by application id |
| Apps.MergedMeaning | freeDiameter/libfdcore/apps.c:39-77 | it changes exactly the entry of its application: each flag is set if it was or is given, the first vendor stays |
| Apps.AppList.Merge | freeDiameter/libfdcore/apps.c:39-77 | the list ends as the merge function says |
| Apps.Check | freeDiameter/libfdcore/apps.c:80-101 | the entry of the application if there is one anywhere in the list |
| Apps.CheckCommon | freeDiameter/libfdcore/apps.c:104-137 | true if and only if some application is in both lists with a common authentication or accounting flag |
| Nai.IdentityCharMeaning | freeDiameter/libfdproto/ostr.c:109-132 | the characters of a DiameterIdentity: letters, digits, hyphens and dots |
| Nai.GetIndexes | freeDiameter/libfdcore/routing_dispatch.c:304-339 | the positions of the first `!` and the first `@`, with escapes, as the scan function says |
| Nai.ProcessDecorated | freeDiameter/libfdcore/routing_dispatch.c:341-381 | the new User-Name and Destination-Realm, by two copies that fill the buffer exactly |
| Nai.RewritesDecorated | freeDiameter/libfdcore/routing_dispatch.c:341-381 | `realm!rest@visited` becomes `rest@realm`, with Destination-Realm `realm` |
| Nai.RewritesExactlyDecorated | freeDiameter/libfdcore/routing_dispatch.c:350-358 | exactly the User-Names of that form are rewritten, and the new one is strictly shorter |
| Nai.RoutedIn | freeDiameter/libfdcore/routing_dispatch.c:760-779 | the request that leaves is the one rewritten as often as it was requeued, each time because it was for this realm and decorated; it ends within as many passes as the User-Name has bytes |
| Nai.OneHop | freeDiameter/libfdcore/routing_dispatch.c:341-381 | on a route through several realms each rewriting leads to the next one |
| Nai.AlongTheRoute | freeDiameter/libfdcore/routing_dispatch.c:341-381 | after k rewritings a request on a route is for its k-th realm, with the rest of the route before it |
| Nai.InAscii | freeDiameter/libfdcore/routing_dispatch.c:304-381 | in ASCII: `a!b@c` becomes `b@a` for `a`, and a backslash takes the meaning from what follows it |
| Nai.RouteEnds | freeDiameter/libfdcore/routing_dispatch.c:341-381 | and after the last one nothing is rewritten any more |
| DictionaryFunctions.EncodeDecode | freeDiameter/libfdproto/dictionary_functions.c:250-292 | encoding a decoded value is the identity on all strings of four octets |
| DictionaryFunctions.DecodeEncode | freeDiameter/libfdproto/dictionary_functions.c:250-292 | decoding an encoded t gives t exactly when 2^31 <= t + 2208988800 < 2^32 + 2^31 |
| DictionaryFunctions.EncodedAs | freeDiameter/libfdproto/dictionary_functions.c:273-292 | what every time is encoded as: itself, counted from 1900, if that fits in 32 bits, and else its lowest 31 bits |
| DictionaryFunctions.CharInOs | freeDiameter/libfdproto/dictionary_functions.c:369-393 | success if and only if the characters occur in the value in the same order |
| DictionaryFunctions.GreedyIsRight | freeDiameter/libfdproto/dictionary_functions.c:375-386 | taking the first match never misses an occurrence |
| DictionaryFunctions.OccursMeansEmbeds | freeDiameter/libfdproto/dictionary_functions.c:369-393 | an occurrence in order has strictly increasing positions |
| DictionaryFunctions.EmbedsMeansOccurs | freeDiameter/libfdproto/dictionary_functions.c:369-393 | and strictly increasing positions are an occurrence |
| TwagInvariants.AdmissionHolds | src/twag_core.cpp:89-101 | in every interleaving live sessions never exceed the limit, and connections are disconnections plus live sessions |
| TwagInvariants.CountersCount | src/session_manager.cpp:3-54 | in every interleaving the counters are the sessions created, the sessions removed, and the requests refused for lack of room |
| TwagInvariants.ConnectedMeansGranted | src/twag_core.cpp:116-205 | in every interleaving, whatever Result-Codes the DEAs bring, a CONNECTED session had, since its creation, a DER sent, then a DEA with one of these, being 2001, 3002 or none, handled while AUTH_PENDING, then a Create Session Response for its own control TEID |
| TwagInvariants.OffersAreGranted | src/twag_core.cpp:280-296 | DHCP only ever offers a session an address that such a response gave to it |
| TwagInvariants.AcceptedExactlyWhen | src/sta_interface.cpp:207-221 | a DEA is taken for a success if and only if the session is AUTH_PENDING and the Result-Code is 2001, 3002 or missing |
| TwagSuccess.ConnectedWithoutSuccess | src/sta_interface.cpp:207-221 | a run that ends in CONNECTED although the only DEA had 3002, or no code |
| TwagSuccess.ConnectedMeansSuccessExactlyWhen | src/sta_interface.cpp:207-221 | a set of Result-Codes lets no run connect a session without a DEA of code 2001 if and only if it holds neither 3002 nor the missing one |
| TwagInvariants.TeidsAreUnambiguous | src/session_manager.cpp:3-30 | control TEIDs are odd and user TEIDs even across wrap-around, zero never matches, and two sessions share one exactly when a multiple of 2^31 creations lies between them |
| TwagHandlers.RadiusHandled | src/twag_core.cpp:89-101 | an undisturbed Access-Request: a known station goes on with its session, a new one gets a session with the next two TEIDs exactly if there is room, and is counted as rejected otherwise |
| TwagHandlers.AuthenticationStarts | src/twag_core.cpp:103-115 | a session whose DER could be sent is AUTH_PENDING; otherwise nothing changes |
| TwagHandlers.DeaHandled | src/twag_core.cpp:118-180 | an undisturbed DEA: GTP_CREATE_PENDING exactly if the session waited for it, the code is 2001, 3002 or missing, and the request could be sent |
| TwagHandlers.ResponseHandled | src/twag_core.cpp:182-205 | an undisturbed Create Session Response: the session of its TEID, if it waits, takes the address and is CONNECTED if the tunnel is up; otherwise nothing changes |
| TwagHandlers.DhcpHandled | src/twag_core.cpp:280-296 | an offer exactly for a connected session with an address |
| TwagHandlers.DeleteBearerHandled | src/twag_core.cpp:207-231 | an undisturbed Delete Bearer Request: the session of its TEID is DISCONNECTING and out of the table |
| TwagHandlers.TimerHandled | src/twag_core.cpp:164-172 | the timer of the Create Session Request removes the entry of the station if and only if it still waits for the response |
| TwagHandlers.StopHandled | src/twag_core.cpp:258-278 | an undisturbed disconnect_ue removes the entry of the station |
| TwagHandlers.AbortHandled | src/twag_core.cpp:233-256 | an undisturbed abort: the session is DISCONNECTING and out of the table |
| TwagHandlers.TimerRemovesExactlyWhen | src/twag_core.cpp:164-172 | in every run the timer leads to a removal if and only if the session of the station is GTP_CREATE_PENDING then |
| TwagHandlers.LoopRemovesExactlyWhen | src/twag_core.cpp:164-278 | the event loop begins a removal exactly by disconnect_ue, by a Delete Bearer Request, or by the timer of a session that still waits |
| TwagHandlers.ConnectedLeavesOnlyBy | src/twag_core.cpp:164-278 | in every run a CONNECTED session leaves the table only through a removal begun for its station by a Delete Bearer Request, disconnect_ue or an abort, never by its timer |
| TwagInvariants.StepKeepsTable | src/session_manager.cpp:3-54 | every access of every thread keeps the table within its limit and its books balanced |
| TwagInvariants.StepKeepsDeeds | src/twag_core.cpp:89-296 | every access of every thread keeps each session, and what each thread is about to do to it, backed by what happened before |
| TwagInvariants.Parity | src/session_manager.cpp:5-7 | the parity of both TEIDs of the n-th session, after any number of wrap-arounds |
| TwagObjects.UeSession.constructor | src/ue_session.hpp:18-19 | a new session is in INIT, without TEIDs |
| TwagObjects.SessionManager.CreateSession | src/session_manager.cpp:3-11 | a fresh session with the next two TEIDs is entered under its MAC address and counted |
| TwagObjects.SessionManager.GetSessionByTeidC | src/session_manager.cpp:22-30 | a session of the table with this TEID, and none only if no session has it |
| TwagObjects.SessionManager.RemoveSession | src/session_manager.cpp:32-37 | the entry is gone, and counted only if it was there |
| TwagObjects.TwagCore.HandleRadiusAccessRequest | src/twag_core.cpp:89-114 | refused and counted exactly when there is no session and no room; otherwise the session, old or new, is AUTH_PENDING if the DER went out, and else in the state it had, INIT for a new one |
| TwagObjects.TwagCore.OnDeaReceived | src/twag_core.cpp:116-180 | only a session in AUTH_PENDING is changed or answered; only result 2001 takes it to GTP_CREATE_PENDING |
| TwagObjects.TwagCore.OnGtpCreateResponse | src/twag_core.cpp:182-205 | only the session with this TEID, in GTP_CREATE_PENDING, takes the address, and is CONNECTED if the tunnel is up |
| TwagObjects.TwagCore.HandleDhcp | src/twag_core.cpp:280-296 | an offer exactly for a connected session with an address |
| TwagObjects.TwagCore.OnAbortSession | src/twag_core.cpp:233-256 | the session is DISCONNECTING and out of the table |
| TwagObjects.TwagCore.OnDeleteBearer | src/twag_core.cpp:207-231 | the session with this TEID is DISCONNECTING and out of the table |
| TwagObjects.TwagCore.OnCreateSessionTimeout | src/twag_core.cpp:164-172 | a station is rejected and out of the table if and only if it still waits for the response |
| TwagObjects.TwagCore.DisconnectUe | src/twag_core.cpp:258-278 | the session is out of the table |
| Imsi.Encode | src/s2a_interface.cpp:23-35 | any characters: two to an octet, the low half first, each less the digit zero as an unsigned byte, filled up with 1111 |
| Imsi.RoundTrip | src/s2a_interface.cpp:23-35 | what is read back is the IMSI if and only if it consists of digits, at most 15; of more digits, the first 15 |

## Left out

- Sockets, epoll, netlink, DNS and SCTP socket options: plumbing over foreign calls.
- GnuTLS: a handshake and the check of credentials are outcomes; encrypted bytes are bytes.
- Parsing, the dictionary and the routing data: a message is its body, ids and flags, and parsing an outcome.
- Failure of memory allocation and of POSIX calls.
- Cancellation of the state machine thread (`fd_psm_abord`), which sets ZOMBIE without leaving OPEN: runs of a peer are uncancelled ones.
- The time at which a timer fires (`fd_psm_next_timeout`, `fd_p_dp_newdelay`): a timeout may come at any moment.
- The event queue of a peer, outside the election: events may come in any order, which includes every order the queue can give.
- Deleting a queue and changing its maximum.
- The callbacks of the watermarks and of expiry: when they are due is modelled, not what they do.
- `add_ordered`, `fd_peer_get_load_pending` and `fd_app_empty`: they would only add easy members.
- The DHCP and RADIUS servers and the data plane of the gateway: mostly input and output with short fixed layouts.
- The profile a DEA carries beyond APN and PDN type, and the choice of the P-GW: no decision on the session depends on them.
- SentRequests.SrList.Expire: what is said in nanoseconds is said of clock readings, whose nanoseconds are below 10^9; for other values the comparison of the source is not the order in time.
- PeerInvariants.ServiceOnlyInOpen: finding the peer in OPEN and handing it a message (`fd_out_send`) are one step, because a routing thread that is overtaken between the two may leave a request with a peer out of service.
- PeerConservation.NothingLostNothingDoubled: routable requests are told apart by their body; answers and messages of the base protocol are not counted.
- PeerObject.FdPeer.Turn: the handlers decide on state, flags and connections as functions on a record, which is stored at once; only the queues, the cache and the id counter are changed step by step.
- FifoObject.FifoQueue.Move: every round of the loop that sends the getters away sees one of them out; in between only they act, since the queue is marked dead.
- PeerObject.FdPeer.RouteRequest: `p_tosend` takes five messages and a sender waits for room; that wait is in Fifo, and here a message is queued in one step.
- Election.Agreement: each peer tries once; timeouts and attempts that fail before a connection is there are not among the steps.
- Framing.Connection.ReceiveClear: `cc_loop` does not change while the receiver works.
- Sctp3436.Reader.Pull: the wait for a message is a return value, since the queue is modelled on its own.
- Endpoints.EndpointList.Add: an address has the length of its family; flags are sets of bits.
- TwagObjects.TwagCore.OnDeaReceived: one thread at a time; what other threads do between two accesses is in Twag and TwagInvariants.
