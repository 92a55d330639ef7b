# Five network servers in C, as Dafny models

The programs are small servers that keep tables in user space in step with what the kernel
keeps for them: descriptors, epoll registrations, socket queues, locks. Each is modelled with its
state, its system calls (whose answers are arguments, so that everything the kernel may answer
is covered), and, as history, what happened to every connection. The results are about every run.

| part | program | files |
|---|---|---|
| reactor | `test_epoll_reactor.c` | `EpollKernel.dfy`, `Reactor*.dfy` |
| chat | `test_poll.c` | `Chat*.dfy` |
| one-shot hand-over | `test_epoll_epolloneshot.c` | `OneShot*.dfy` |
| level and edge triggered readers | `test_epoll.c` | `Readers*.dfy` |
| two locks | `pthread/test_pthread_mutex_t.c` | `TwoLocks.dfy` |

In each part `*Model` holds the state and one function for each C function or branch,
`*Server` (and `TwoLocks.Process`) the same as a class whose methods assign fields and array
elements and run the program's loops, every method proved equal to its function,
`*Invariant` what every reachable state satisfies, `*Steps` what each kind of event does to such
a state, field by field, and the other files the laws.

**Reactor.** `g_events` is an array, a pointer into it the index of the slot. Table size, sweep
width and buffer size are parameters (`IdleBoundAsShipped` has the program's 1024, 100 and 60).
The invariant ties each slot to its registration, to its connection, and to that connection's
turns with their times. `Recv`, `Send`, `Accept` and the timeout branch are first brought to closed form
(`RecvShape` and the others); all else rests on these. Where `recv` fills all 128 bytes, line 148
writes its terminator one past `buf`, onto the low byte of `len`, the next field; the model
follows it (`StoredLen`, little-endian, no padding between the two): nothing is then left to send
and the connection is closed unanswered (`FullReadIsLost`). `EchoExact` says exactly when the
echo is complete.

**Chat.** `write_buf` points into another client's record; the model keeps the owner's
descriptor, so aliasing stays. Lines 230 and 245 (`|= ~FLAG`) look like clearing a bit but set all
others, and the model does just that: a mask only grows. When a speaker leaves with its text
undelivered, its record is overwritten by the last client's, whose text is then sent in its
place; and a read that finds nothing clears a buffer others still point at. `Origin` follows the
texts through all of this, so that what is sent is known in every run (`NoPrematureDelivery`);
`TextIsRight` says exactly when it is the text it should be, and `WrongText` is a run in which a
client is sent its own text in another's name.

**One-shot.** Dispatcher, workers, kernel and peers take single steps in any order. The worker
is given the address of the dispatcher's local variable (line 222), and the model has that
variable. A hand-over is prompt when every worker has copied it before it is reused; mutual
exclusion holds all along a run if and only if all its hand-overs are prompt
(`ExclusionIsPromptness`), and the other laws are about such runs. A report without EPOLLIN
disables the registration and nobody enables it again: `NoLostWakeUp` is therefore an equivalence.

**Readers.** `lt` and `et` over the same stream, with any arrivals, any splitting by `recv`, many
connections and reused descriptors. After end of file `et` loops once more and closes twice.
The buffer is printed with `%s`; `ServersPrintAlike` says for which streams the two kinds of server
always print the same.

**Two locks.** Every load, store, lock and unlock is one step.

## What is assumed of the environment

- `accept` returns a descriptor that is not open (and, for the chat server, below FD_LIMIT);
  `close` drops the registration; a report carries of IN and OUT only what was asked for, ERR and
  HUP at any time (NVAL too for `poll`); one batch reports a registration at most once.
- EPOLL_CTL_ADD succeeds on an open unregistered descriptor; EPOLL_CTL_MOD of a one-shot
  registration enables it and looks again for readiness; a report of a readable socket carries EPOLLIN.
- `users` starts zeroed; `pthread_create` succeeds; client sockets of `et` do not block, as the comment at lines 127-130
  of `test_epoll.c` has it.
- Time and the spacing of sweeps are assumed only where `Spaced` says so.

## Model

| member | source | states |
|---|---|---|
| ReactorModel.FirstFree | test_epoll_reactor.c:112-115 | the first index whose status is 0, none before it free, or the limit |
| ReactorModel.StoredLen | test_epoll_reactor.c:147-148 | the stored length is that received exactly if the read left room for the terminator (or its low byte was zero anyway) |
| ReactorInvariant.StartInv | test_epoll_reactor.c:190-197 | after `initlistensocket` the table agrees with the kernel and only the listening slot is active |
| ReactorCallbacks.RecvShape | test_epoll_reactor.c:138-165 | the chain of eventdel, store, eventset, eventadd or close amounts to one move of the slot, its registration and its connection |
| ReactorCallbacks.SendShape | test_epoll_reactor.c:167-188 | the same for the send side: back to receiving after any positive send, closed otherwise |
| ReactorCallbacks.AcceptShape | test_epoll_reactor.c:97-136 | a new connection is either wholly in a slot and registered, or left open and unregistered |
| ReactorCallbacks.ExpireShape | test_epoll_reactor.c:242-246 | closing before `eventdel` ends in the same state as the other order |
| ReactorCallbacks.AddNotMod | test_epoll_reactor.c:59-80 | one `eventadd` after an `eventset`, on an open unregistered descriptor, is an ADD and succeeds |
| ReactorCallbacks.RecvInv | test_epoll_reactor.c:138-165 | receiving keeps table, kernel, ownership, descriptors and histories in agreement |
| ReactorCallbacks.SendInv | test_epoll_reactor.c:167-188 | so does sending |
| ReactorCallbacks.AcceptInv | test_epoll_reactor.c:97-136 | so does accepting, also when it drops the connection |
| ReactorCallbacks.LowestFreeSlot | test_epoll_reactor.c:111-131 | a connection goes to the lowest free slot and changes no other |
| ReactorCallbacks.DroppedExactly | test_epoll_reactor.c:111-127 | the new connection is dropped if and only if no slot is free or fcntl fails |
| ReactorSweep.SweepExact | test_epoll_reactor.c:235-247 | a sweep frees a slot if and only if it is an active client slot, within reach of `checkpos`, and idle 60 s or more; all else of every slot is untouched |
| ReactorSweep.SweepKeeps | test_epoll_reactor.c:235-247 | the connection of a slot that is not due goes on, with its history |
| ReactorSweep.SweepCloses | test_epoll_reactor.c:242-246 | the connection of an overdue slot within reach is timed out, and that is its last turn |
| ReactorSweep.SweepInv | test_epoll_reactor.c:232-247 | the sweep keeps the invariant and `checkpos` within the table |
| ReactorSweep.SweepBreadth | test_epoll_reactor.c:236-238 | a sweep of K steps reaches K different slots, or all if there are fewer |
| ReactorCoverage.RunLooksAreCycle | test_epoll_reactor.c:232-247 | the slots looked at by the sweeps of a run are one walk round the client slots, whatever is dispatched in between |
| ReactorCoverage.SweepsCover | test_epoll_reactor.c:232-247 | sweeps look at every client slot if and only if they make at least as many looks as there are slots; none twice in a round; never the listening slot |
| ReactorDispatch.OneCallPerEvent | test_epoll_reactor.c:254-262 | an event with IN or OUT makes exactly one call, another none, although the first call may change the mask the second test reads |
| ReactorDispatch.TwoCallsWithoutTheMaskRule | test_epoll_reactor.c:254-262 | were OUT reported unasked along with IN, there would be two calls exactly if the read got data |
| ReactorDispatch.NoStaleDispatch | test_epoll_reactor.c:249-262 | after any part of a batch every event left finds its slot unchanged, active, on the same descriptor, registered and callable |
| ReactorDispatch.EveryCallIsDefined | test_epoll_reactor.c:255-260 | no call goes through an unset pointer or outside the table, and its argument is the slot itself |
| ReactorDispatch.DispatchInv | test_epoll_reactor.c:254-262 | a whole batch keeps the invariant |
| ReactorDispatch.EveryEventInTurn | test_epoll_reactor.c:254-262 | the loop takes the events of a batch in order and leaves none out |
| ReactorRuns.ExecInv | test_epoll_reactor.c:233-263 | so does any run |
| ReactorRuns.DispatchSpares | test_epoll_reactor.c:254-262 | a batch that does not call a slot back leaves its record, its connection and `checkpos` alone |
| ReactorRuns.LoudBatchStirs | test_epoll_reactor.c:254-262 | a batch that does call an occupied slot back gives its connection a turn, which is no timeout |
| ReactorRuns.ExecGrows | test_epoll_reactor.c:233-263 | over any run the history of every connection only grows |
| ReactorRuns.EndedStays | test_epoll_reactor.c:138-188 | a connection that was closed, timed out or dropped takes no further turn |
| ReactorIdle.IdleBound | test_epoll_reactor.c:232-247 | a connection that takes no turn after t, with sweeps at most D apart, c of which go round the table, is timed out before t + 60 + c*D, in any run that lasts to t + 60 + (c-1)*D, whoever gets its slot afterwards |
| ReactorIdle.IdleBoundAsShipped | test_epoll_reactor.c:232-247 | with 1024 slots, 100 a sweep: before t + 60 + 11*D |
| ReactorIdle.YoungIsSafe | test_epoll_reactor.c:241-242 | no sweep touches a connection served less than 60 s before |
| ReactorIdle.OverdueCloses | test_epoll_reactor.c:236-247 | once overdue, and taking no turn of its own, a connection is closed by as many sweeps as reach its slot |
| ReactorEcho.EchoPrefix | test_epoll_reactor.c:138-188 | in every reachable state the output of a connection is a non-empty prefix of each successive chunk, at most the last unanswered |
| ReactorEcho.EchoExact | test_epoll_reactor.c:138-188 | bytes received are bytes sent followed by the pending buffer if and only if no read filled the buffer and no send was partial; pending is empty while receiving |
| ReactorEcho.Balance | test_epoll_reactor.c:138-188 | the count of bytes answered and queued never exceeds those received, with equality exactly in the lossless case |
| ReactorEcho.NothingQueuedCloses | test_epoll_reactor.c:172-184 | in every run, a chunk of which nothing is left to send is followed by nothing but the close |
| ReactorEcho.FullReadIsLost | test_epoll_reactor.c:143-184 | so is, in every run with the 128-byte buffer, a read of 128 bytes |
| ReactorLaws.MidBatchReachable | test_epoll_reactor.c:254-262 | the state after any part of a batch is itself reachable, so every law holds there too |
| ReactorLaws.TableIsInterestSet | test_epoll_reactor.c:42-94 | the interest set is exactly the active slots with their descriptors and masks; these are open and pairwise distinct |
| ReactorLaws.SlotTypestate | test_epoll_reactor.c:129-152 | an active client slot is (recvdata, IN) when its last chunk is answered or (senddata, OUT) when one is not, its argument itself; the listening slot stays (acceptconn, IN) |
| ReactorLaws.OnlySuccessfulAdds | test_epoll_reactor.c:66-77 | in no run does `eventadd` take the MOD branch, or find that epoll_ctl fails |
| ReactorLaws.TurnsAlternate | test_epoll_reactor.c:129-187 | turns alternate receive and send, end with at most one close, and `last_active` is the time of the last one |
| ReactorLaws.NeverStale | test_epoll_reactor.c:249-262 | no stale dispatch, from any reachable state |
| ReactorLaws.Conservation | test_epoll_reactor.c:111-131 | accepted = active + closed + dropped; active at most MAX_EVENTS; the dropped descriptors are exactly those leaked |
| ReactorSteps.Receives | test_epoll_reactor.c:143-153 | in any reachable state, an IN event whose `recv` gives bytes leaves the buffer as those bytes, a zero byte and the old tail, printing as the bytes; the slot waits to send, registered for OUT; its connection has taken that turn; all else is untouched |
| ReactorSteps.EndCloses | test_epoll_reactor.c:144-162 | end of file or an error frees the slot and closes and unregisters its descriptor, and touches nothing else |
| ReactorSteps.Sends | test_epoll_reactor.c:172-181 | an OUT event sends the front of the pending bytes, and the slot waits to receive, registered for IN |
| ReactorSteps.NoSendCloses | test_epoll_reactor.c:172-185 | a `send` of nothing or an error closes |
| ReactorSteps.Accepts | test_epoll_reactor.c:103-131 | the new connection is registered for IN in the lowest free slot, whose buffer and length are left |
| ReactorSteps.Drops | test_epoll_reactor.c:111-127 | with no slot free or fcntl failing, the descriptor stays open and no slot changes |
| ReactorSteps.Nothing | test_epoll_reactor.c:103-109 | a failing `accept`, and an event with neither IN nor OUT, change nothing |
| ReactorSteps.PrintsTheChunk | test_epoll_reactor.c:147-149 | in every run the buffer of a slot that waits to send prints as the chunk it received, unless that filled it |
| ReactorServer.Reactor.constructor | test_epoll_reactor.c:190-197 | the initial table and registration |
| ReactorServer.Reactor.EventSet | test_epoll_reactor.c:42-54 | in place, the specification's `EventSet` |
| ReactorServer.Reactor.EventAdd | test_epoll_reactor.c:59-80 | in place, `EventAdd` with both epoll_ctl branches |
| ReactorServer.Reactor.EventDel | test_epoll_reactor.c:82-94 | in place, `EventDel` |
| ReactorServer.Reactor.AcceptConn | test_epoll_reactor.c:97-136 | the search loop and both `break`s refine `Accept` |
| ReactorServer.Reactor.RecvData | test_epoll_reactor.c:138-165 | in place, `Recv` |
| ReactorServer.Reactor.SendData | test_epoll_reactor.c:167-188 | in place, `Send` |
| ReactorServer.Reactor.DispatchOne | test_epoll_reactor.c:255-261 | the two tests on one event refine `DispatchOne`, every call being defined |
| ReactorServer.Reactor.Dispatch | test_epoll_reactor.c:254-262 | the dispatch loop refines `Dispatch` and keeps the invariant |
| ReactorServer.Reactor.Sweep | test_epoll_reactor.c:235-247 | the sweep loop with its wrap-around refines `Sweep` |
| ReactorServer.Reactor.Run | test_epoll_reactor.c:233-263 | any number of iterations refine `Exec` and keep the invariant |
| ChatInvariant.BroadcastEffect | test_poll.c:223-233 | the broadcast loop changes exactly the mask and `write_buf` of every other client |
| ChatInvariant.RemoveKeepsMail | test_poll.c:191-199 | after a swap-removal every other client still has its address, its mask and what it is due |
| ChatInvariant.TurnInv | test_poll.c:147-248 | each turn of the loop, whichever branch, keeps the invariant and the progress of the pass |
| ChatInvariant.ListenerBranches | test_poll.c:149-236 | entry 0 takes no client branch and no other entry is accepted on |
| ChatLaws.EachEntryOnce | test_poll.c:147-248 | when a pass is over, every entry `poll` reported was looked at exactly once, so was the one accepted meanwhile (to no effect), and nothing else |
| ChatLaws.PassIsBounded | test_poll.c:147-248 | a pass makes at most one turn more than there were entries, through joins and removals |
| ChatLaws.DenseArrayIsSet | test_poll.c:162-214 | entry 0 is the listener, the next `user_counter` are without repetition the open client descriptors, which are those that joined and have not left; at most USER_LIMIT |
| ChatLaws.RemovalSparesTheRest | test_poll.c:191-214 | removing one client keeps the record and the entry of each other |
| ChatLaws.NoPrematureDelivery | test_poll.c:223-247 | whatever is sent goes to a member on account of the latest broadcast by another, made since it joined and since its last delivery; and is what the speaker's record then holds, followed through broadcasts, clearings and copies |
| ChatLaws.OriginMeans | test_poll.c:193-211 | that is its own text, nothing, or what the last client's record held, according to the last change of the buffer |
| ChatLaws.TextIsRight | test_poll.c:193-243 | what is sent is the text of its broadcast if and only if that is the origin of what the record holds, or the origin prints the same; while the speaker stays: if and only if its buffer was not cleared |
| ChatLaws.OwedMeans | test_poll.c:232-244 | what a client is due, recursively and as a statement about the run, agree both ways |
| ChatLaws.WriteBufIsDue | test_poll.c:174-246 | a mask is what `accept` gave until another client has spoken, everything after; then `write_buf` is the latest other broadcaster since the last delivery, or null |
| ChatLaws.AddressIsOwn | test_poll.c:172-212 | through all record copies, a member's record has the address it joined from |
| ChatLaws.LeaverSpeaksForLast | test_poll.c:191-198 | when a client hangs up its record holds the last client's text, and what is due from it changes exactly unless it was the last itself or the texts print the same |
| ChatWitness.WrongText | test_poll.c:133-249 | for any texts p and q, a run from the start in which the broadcast p is delivered as q, to the client that wrote q |
| ChatSteps.ErrorIsPassedOver | test_poll.c:179-190 | with POLLERR nothing is done, whatever other flags are reported, except to accept |
| ChatSteps.HangUpRemoves | test_poll.c:191-199 | with POLLRDHUP and no POLLERR the client is removed and its descriptor closed, whatever POLLIN and POLLOUT say; the last client's record and entry take its place |
| ChatSteps.InputIsRead | test_poll.c:200-235 | with POLLIN and neither of those, the client is read: data is broadcast to every other client, an error removes the client, anything else only clears its buffer |
| ChatSteps.OutputIsSent | test_poll.c:236-247 | with POLLOUT alone of the four, exactly one delivery is made, of what the speaker's record holds, if a broadcast is due, and nothing happens otherwise |
| ChatSteps.NoFlagIsPassedOver | test_poll.c:147-248 | with none of the four nothing is done |
| ChatSteps.Accepts | test_poll.c:149-178 | the client is turned away exactly if the table is full, and otherwise appended |
| ChatSteps.PollReports | test_poll.c:135-147 | the pass begins at entry 0 with each entry holding what `poll` reported for it |
| ChatSteps.ReadSize | test_poll.c:203-204 | a read returns 1 to 63 bytes, of a buffer of 64 |
| ChatLaws.MasksOnlyGrow | test_poll.c:230-246 | no step takes a flag out of a client's mask |
| ChatLaws.PassIsRun | test_poll.c:133-249 | a pass of the loop is a run of single turns |
| ChatServer.Server.constructor | test_poll.c:102-131 | the initial arrays |
| ChatServer.Server.AcceptClient | test_poll.c:149-178 | in place: rejected when full, else appended |
| ChatServer.Server.RemoveClient | test_poll.c:193-197 | in place: the record copy and the swap-removal |
| ChatServer.Server.Broadcast | test_poll.c:223-233 | the loop refines `Broadcast` |
| ChatServer.Server.ReadClient | test_poll.c:200-235 | in place: clear, receive, then remove, broadcast or nothing |
| ChatServer.Server.WriteClient | test_poll.c:236-247 | in place, `Write` |
| ChatServer.Server.Turn | test_poll.c:147-248 | one turn with `++i` and `i--` refines `Turn` and comes nearer to the end |
| ChatServer.Server.Pass | test_poll.c:135-248 | the loop ends although its bound moves and its index goes back, and refines the pass; the invariant is kept |
| OneShotInvariant.ExecInv | test_epoll_epolloneshot.c:81-228 | every prompt run keeps the invariant: the right to a socket is in exactly one place |
| OneShotLaws.MutualExclusion | test_epoll_epolloneshot.c:43-117 | in a state reached by prompt hand-overs a socket has at most one worker from dispatch to re-arm or close, and none while it is enabled or its report waits |
| OneShotLaws.ExclusiveStep | test_epoll_epolloneshot.c:216-222 | from such a state a step keeps exclusion if and only if it is prompt |
| OneShotLaws.ExclusionIsPromptness | test_epoll_epolloneshot.c:81-228 | every state a run of the server goes through is exclusive if and only if all its hand-overs are prompt |
| OneShotLaws.NoLostWakeUp | test_epoll_epolloneshot.c:71-115 | an open readable socket is enabled and ready, or due for a worker, or has one, if and only if its last report did not lack EPOLLIN |
| OneShotLaws.DoomedForever | test_epoll_epolloneshot.c:214-227 | a socket whose report lacked EPOLLIN is, after any prompt run, still open, disabled and without a worker, and not a byte more has been read from it |
| OneShotLaws.WakeUpCanBeLost | test_epoll_epolloneshot.c:224-227 | a legal run in which bytes that arrive are never read |
| OneShotLaws.InOrder | test_epoll_epolloneshot.c:91-115 | chunks processed by successive workers are in order a prefix of what arrived; all of it once the server has closed |
| OneShotLaws.SharedCellBreaksExclusion | test_epoll_epolloneshot.c:217-222 | from two reports in one batch, a run that ends with both workers reading the second socket |
| OneShotLaws.SituationsArise | test_epoll_epolloneshot.c:175-228 | both failing situations are reached from the start |
| OneShotSteps.TakesWhatIsThere | test_epoll_epolloneshot.c:93-111 | in any state reached promptly, `recv` takes 1 to 9 bytes from the front of the queue into the front of the buffer |
| OneShotSteps.ProcessesWhatItTook | test_epoll_epolloneshot.c:109-114 | the chunk is processed before the next `recv` |
| OneShotSteps.DecidesWhenEmpty | test_epoll_epolloneshot.c:94-106 | with nothing to read the worker goes on to close at the end of file and to re-arm otherwise |
| OneShotSteps.Closes | test_epoll_epolloneshot.c:94-99 | closing takes the socket and its registration away, and ends the worker |
| OneShotSteps.Rearms | test_epoll_epolloneshot.c:100-107 | re-arming enables the registration, ready if something is there to read, and ends the worker |
| OneShotSteps.LastTwoMoves | test_epoll_epolloneshot.c:93-107 | two moves from an empty socket the worker is done, and the socket closed if and only if the peer has closed, otherwise open and enabled |
| OneShotSteps.StartsOnItsSocket | test_epoll_epolloneshot.c:83-88 | a worker starts on the socket it was created for, with a zeroed buffer |
| OneShotSteps.ListenerAccepts | test_epoll_epolloneshot.c:204-213 | an accepted connection is registered, enabled, and ready if something is there to read |
| OneShotSteps.ReportStartsWorker | test_epoll_epolloneshot.c:214-227 | a report with EPOLLIN starts one worker for its socket, which had none; one without starts none |
| OneShotPrint.PrintedIsTheChunk | test_epoll_epolloneshot.c:87-111 | a worker prints the chunk just received if and only if none of its earlier reads was longer (text without zero bytes) |
| OneShotServer.Server.HandleReport | test_epoll_epolloneshot.c:201-228 | in place: accept, start a worker, or nothing |
| OneShotServer.Server.AddFd | test_epoll_epolloneshot.c:43-64 | in place, `AddFd` |
| OneShotServer.Server.Read | test_epoll_epolloneshot.c:93-114 | in place, the four outcomes of `recv` |
| OneShotServer.Server.ResetOneshot | test_epoll_epolloneshot.c:71-77 | in place, `ResetOneshot` |
| OneShotServer.Server.CloseSocket | test_epoll_epolloneshot.c:94-99 | in place, `CloseSocket` |
| OneShotServer.Server.Run | test_epoll_epolloneshot.c:81-228 | any interleaving refines `Exec`, and keeps the invariant if prompt |
| ReadersLaws.SameBytes | test_epoll.c:78-147 | `lt` and `et`, when neither has an event left, have read the same bytes, all that arrived, and closed exactly if the peer has |
| ReadersLaws.NothingStranded | test_epoll.c:117-147 | under edge triggering, while a byte is unread an event is due; closing happens twice |
| ReadersLaws.DrainKeeps | test_epoll.c:121-147 | one drain leaves the socket empty, and closed if at its end, whatever arrives meanwhile |
| ReadersLaws.LtTriggers | test_epoll.c:78-91 | `lt` is triggered between ceil(n/9) and n times for n bytes, however they are split |
| ReadersLaws.FullReads | test_epoll.c:78-91 | with full reads k triggers suffice if and only if k >= ceil(n/9) |
| ReadersLaws.OneEdge | test_epoll.c:117-147 | one trigger of `et` reads all that is there and all that arrives meanwhile |
| ReadersLaws.ReadSize | test_epoll.c:82-84 | a read returns 1 to 9 bytes, of a buffer of 10 |
| ReadersLaws.PeerCloseCloses | test_epoll.c:84-142 | a peer that closes is reported to both readers, and the event closes the socket, once in `lt` and twice in `et` |
| ReadersLaws.SameTextExactly | test_epoll.c:82-144 | any two ways of splitting a stream print the same if and only if no zero byte in it is followed by another byte |
| ReadersRuns.EveryConnection | test_epoll.c:212-246 | each connection of a server is a run of its one-connection reader, through batches, accepts and reused descriptors |
| ReadersRuns.BatchReadsTheReported | test_epoll.c:61-96 | a batch reads each connection reported readable once, with the answers given for its report, and leaves every other as it was |
| ReadersRuns.ServersAgree | test_epoll.c:238-245 | over any runs of an LT and an ET server, connections sent the same bytes with no event left were read to the same bytes and closed alike, and printed alike if no zero byte was followed by another |
| ReadersText.ReadersPrintAlike | test_epoll.c:78-147 | all runs of `lt` and of `et` on a stream with no event left print the same if and only if no zero byte in it is followed by another byte |
| ReadersText.ConnectionsExactly | test_epoll.c:212-246 | the connections of servers are exactly the runs of the one-connection readers |
| ReadersText.ServersPrintAlike | test_epoll.c:212-246 | all LT and ET servers print a stream alike if and only if no zero byte in it is followed by another byte |
| ReadersServer.Server.Lt | test_epoll.c:58-97 | the loop handles the events as `All` does |
| ReadersServer.Server.Drain | test_epoll.c:121-147 | the inner loop of `et` refines `Drain` |
| ReadersServer.Server.Et | test_epoll.c:100-156 | the loop handles the events as `All` does |
| TwoLocks.ExecInv | pthread/test_pthread_mutex_t.c:34-75 | on every schedule locks follow the program counters and the values are those of a serial execution in progress |
| TwoLocks.StuckExactly | pthread/test_pthread_mutex_t.c:34-75 | nothing can go on if and only if both are done or parent holds a and child holds b, each waiting for the other |
| TwoLocks.Serializable | pthread/test_pthread_mutex_t.c:34-75 | every finished run leaves what one of the two serial orders leaves |
| TwoLocks.NoWayBack | pthread/test_pthread_mutex_t.c:63-71 | once both have their first lock no schedule finishes |
| TwoLocks.StepsCount | pthread/test_pthread_mutex_t.c:34-75 | no schedule goes on for ever: each step moves one program counter by one |
| TwoLocks.DeadlockExactly | pthread/test_pthread_mutex_t.c:34-75 | a run that cannot go on has finished, after exactly 20 steps, if and only if never did both have just their first lock |
| TwoLocks.Process.ParentStep | pthread/test_pthread_mutex_t.c:63-75 | in place, the parent's next step |
| TwoLocks.Process.ChildStep | pthread/test_pthread_mutex_t.c:34-48 | in place, the child's next step |
| TwoLocks.Process.Run | pthread/test_pthread_mutex_t.c:59-93 | any schedule refines `Exec` |

## Left out

- Socket set-up, arguments, address conversion, messages, `sleep` and errno texts: no state that anything depends on.
- The exits of the event loops when `epoll_wait` or `poll` fails, and freeing at exit.
- Failing `socket`, `epoll_create`, `malloc`. Where `accept` fails the epoll programs go on to `addfd` with -1, which the kernel refuses: in the model nothing happens.
- Read errors other than EAGAIN in the readers, which close a connection with bytes unread (no two readers would then agree), and in the one-shot worker, which just calls `recv` again. In the reactor and the chat server they are modelled.
- OneShotServer.Server.Run: the dispatcher and the workers are single steps taken in any order rather than threads with a loop each, since a step is what interleaves; the loop of `worker` is its program counter going from Reading through Holding back to Reading.
- OneShotServer.Server.Read: on a descriptor closed under a worker the model goes round without effect, as the loop does; the laws show it does not arise in prompt runs.
- ChatModel.Write: what is recorded is what is handed to `send`; how much of it the kernel takes is not, since the program ignores it.
- TwoLocks.Serializable: values are unbounded integers; overflow of `int` is not modelled.
- TwoLocks.Process.Run: both threads start together; that `main` creates `another` first, and the joining at the end, only restrict the schedules.
- ReactorModel.StoredLen: the effect of line 148 on a full read assumes that `len` follows `buf` without padding, little-endian.
- Under edge triggering on the listening socket several pending connections need several accepts per event; the listener's own backlog is not modelled.
- The printed effect of a partial overwrite by two workers sharing a descriptor, beyond `SharedCellBreaksExclusion`.
- `chat_room_server.c`: an earlier form of the chat loop; `test_poll.c` is the one modelled.
- `shmget_chat_room_server.c`: one side of its protocol is missing, so there is no whole to state anything about.
- The select, signal, semaphore, writev, sendfile, blocking, buffer and wait programs, `aio/`, `timer/` and `test_libevent/`: straight lines of system calls or wrappers of libraries not in the repository; they would add easy members only.
