# openDSU: the handover between versions, and the event calls that hide it

openDSU replaces a running server by a newer version without a gap in service. A library is loaded
into every process; it hands the bound sockets from process to process, and it wraps `select`,
`poll` and `epoll_wait` so that the application does not notice. This project states what that
promises and proves it, or proves exactly where it ends.

## What is modelled

**The handover protocol** (`Steps`, `Protocol`, `Accounting`, `Service`, `PendingKills`, `Promises`,
`Generations`, `Locking`, `Drain`, `Limits`). Any number of processes in any number of process groups share one port. A port's shared
memory holds the group and the number of the current version, a counter of transfers and a lock on
the listening socket; a group shares a counter of its workers. `Steps` has the critical sections as
functions on values. `Protocol` composes them into a transition system whose steps interleave
freely: spawn and fork, first and inheriting bind, connect, accept and answer a request, activate,
the state handler, detection, decrement, group kill and exit as separate steps, lock and unlock,
clients that come and go, and closing the bound socket. A step that is not enabled does nothing, so
every list of steps is a run and the results hold for all of them. `Accounting` assumes nothing
about the application. `Service` shows exactly which runs of an application that keeps the port open
and enters its event loop with the port bound stay in service: those in which no step leaves the
service to processes that a pending kill will hit (`Protocol.Breaks`). `PendingKills`
shows, for any application, exactly when a delayed group kill can hit a process at work, and when it
can take the descriptor lock along. `Promises` gives two rules that
an application can keep and that exclude such a step: no process of an outdated group binds the port
again, or no process enters its event loop while a kill of its group is pending. `Generations` and
`Locking` treat updates by one successor at a time. `Limits` gives, for rules that are not evident, a
run from the initial state that breaks the rule and loses the promise.

**The critical sections in memory** (`Core`). The methods that update a record and its port in place
are proved against the functions of `Steps`, and what every event call does before it waits is
proved over the whole bind list.

**The shadow tables** (`State`, `TablesSpec`, `Sockets`). Lists are nodes in the heap; the map of a
list's links has exactly the nodes that are allocated in its domain, so following the link of a
freed node would not verify. `TablesSpec` counts in how many places a descriptor is tracked;
`Sockets` has `socket`, `bind`, `accept` and `close` in place. `Handover` joins the two ends of a
request: the record that `bind` makes denotes what the process that answered uses.

**The translation of descriptors** (`SelectSpec`, `Select`, `SelectCall`, `SelectRestart`,
`Poll`, `EpollSpec`, `Epoll`, `EpollMessages`, `EpollCall`). The user's descriptors are renamed to inherited ones, internal descriptors are added, the
kernel is asked, and everything is undone. The kernel is an arbitrary answer on what it was given.
The passes are loops that change sets, arrays, lists and the kernel's interest list in place; they
are proved against functions on values, and the functions against what a plain call would give on
the user's own descriptors.

## What the code does where its comments say otherwise

The code is followed in each case.

- `dsu_terminate` is described as ending the group with its last active worker. Decrement and
  `killpg` are two steps: a process that activates in between is killed while at work
  (`Accounting.GroupKillIsSafe` is the exact statement).
- A process without a bound socket passes termination detection at once (src/core.c:108-147).
- Every quit takes one from the transfer counter, also when the record never added one
  (src/core.c:256), so the counter can fall short of the transfers going on, or below zero.
- A refused request (src/core.c:677) falls through to the branch for "no other version running",
  which resets the shared memory.
- `select` tests, accepts on and clears the number of a listener after the record has closed it
  (src/event_handlers/select.c:59-77), which by then may be the user's or a bound socket's.
- The transfer flag of `select` is one for all records of a call (src/event_handlers/select.c:19);
  `poll` and `epoll_wait` look at each port by itself.
- `correction` is shared by `select` and `poll` (src/event_handlers/poll.c:20), and `poll` does not
  reset it on return, so the first round of a later `select` can be off by what it holds.
- `ppoll` returns without unlocking when nothing is ready (src/event_handlers/poll.c:360-362), marks
  with 1 whatever the kernel said, and leaves the results of other entries as they were.
- The walk of `dsu_set_revents` relies on internal descriptors lying beyond the user's entries, but
  visits them too: a ready one takes it out of the array.
- `dsu_handle_conn_epoll` compares events with the number of a listener that the record may have
  closed (src/event_handlers/epoll.c:104), and accepts on whatever has that number now.
- When a record quits it closes its listener (src/core.c:254), but processes that got the descriptor
  keep it open, so `epoll` goes on watching it; the next request to it is reported, and as the record
  no longer monitors, the event reaches the application.
- Events marked -1 "to be removed" (src/event_handlers/epoll.c:147) are not removed.
- `epoll_ctl` names the shadow descriptor, while between calls the interest list holds the user's.

## Model

| member | source | states |
|---|---|---|
| `Accounting.StepKeeps` | src/core.c:108-276 | every step of every process keeps, without any assumption on the application: a lock holder monitors and is in its event loop; one unit of the lock is free, held or lost; the transfer counter is flags minus unpaid quits; the group counter is the number of members still at work |
| `Accounting.RunKeeps` | src/core.c:108-276 | the same over arbitrary interleavings of any number of processes and groups |
| `Accounting.LockSafety` | src/core.c:248-259 | in every run whatsoever at most one process holds the descriptor lock, a holder monitors and has neither quit nor passed detection, and the lock can be taken again if and only if no unit of it is lost |
| `Accounting.HeldMeansDown` | src/event_handlers/poll.c:199-216 | in every run, while a living process holds the lock the semaphore is down and nobody else holds it |
| `PendingKills.LockSafetyIff` | src/core.c:165-174 | the exact condition, for all runs in which a bound socket is closed only while unlocked: in every state, whichever pending kills come first, free units plus holders of the lock are 1, if and only if no process of a group whose kill is pending ever takes the lock |
| `Locking.OneHolder` | src/core.c:248-259 | in updates by one successor at a time, by applications that keep the port open, free units plus holders of the lock are 1 in every reachable state and after any of its pending kills; that the port is kept open is needed (`Limits.ClosedPortLosesTheLock`) |
| `Locking.StillHarmless` | src/core.c:248-259 | an outdated process that has not run its state handler yet quits in it before it could ask for the lock |
| `PendingKills.PatientLockSafety` | src/core.c:165-174 | the same for every application in which no process enters its event loop while a kill of its group is pending and a bound socket is closed only while unlocked |
| `Accounting.LossesAreLost` | src/core.c:827-832 | the units that can never be given back are exactly those of closes and kills that happened to a holder |
| `Accounting.LastWorkerLeaves` | src/core.c:150-180 | the decrement reaches zero exactly when no other process of the group is still in an event loop without having passed detection |
| `Accounting.GroupKillIsSafe` | src/core.c:150-194 | however long the kill is delayed, it hits no process that had entered an event loop by the decrement; each such process had passed detection with nothing monitored and nothing open |
| `PendingKills.KillsHitNoWorkerIff` | src/core.c:165-174 | the exact condition, for any application: in every state no pending kill can hit a process at work if and only if no process enters its event loop while a kill of its group is pending |
| `Accounting.LiveStaysLive` | src/core.c:183-194 | a process that is done with its event loop never works again, over any run |
| `Service.FirstBindOpens` | src/core.c:706-731 | the branch that resets the shared memory runs once only and leaves a server in version 0 |
| `Service.VersionMoves` | src/core.c:262-269 | version, group and history move by a bump of a pending record and by nothing else |
| `Service.RecordStays` | src/core.c:685-697 | a record keeps the version and the group it was bound with |
| `Service.OrderlyStep` | src/core.c:108-319 | the invariant behind the next results is kept by every step that does not break the service |
| `Service.ServedIff` | src/core.c:165-174 | a step keeps the service if and only if it neither moves the version to one in which no process is ready nor dooms the group of all that are ready |
| `Service.NoServiceGap` | src/core.c:108-276 | from the first bind on, in every orderly run, some running process monitors the port in the current version, the communication address stays taken, and no process can take the first-bind branch again |
| `Service.SurvivesIff` | src/core.c:165-174 | somebody serves whichever pending kills come first if and only if a process serves whose group no kill is pending for |
| `Service.NoServiceGapIff` | src/core.c:108-276 | the exact condition: every state of a run survives its pending kills if and only if no step of the run breaks the service |
| `Promises.SteadyStep` | src/core.c:262-269 | while nobody bumps the version in a group whose kill is pending, no step breaks the service |
| `Promises.PromisesSuffice` | src/core.c:108-276 | every run is orderly in which no process of an outdated group binds the port again, or in which no process enters its event loop while a kill of its group is pending |
| `Service.NoEarlyEnd` | src/core.c:108-147 | in every orderly run a process whose detection succeeded is outdated, unmonitored and without internal and client connections |
| `Service.OneServiceHistory` | src/core.c:253-268 | after the first bind the version never falls and moves by at most one a step; the process that bound first, whose socket and listener are served, stays the same |
| `Service.TransitiveInheritance` | src/event_handlers/select.c:140-142 | over any number of generations every record, and every reply under way, has the socket of the first process as what it serves and the listener of the first process as its listener; no version is more than one ahead |
| `Generations.InheritKeepsGenerationsIff` | src/core.c:685-697 | an inheriting bind keeps versions and process groups in step if and only if its group is not outdated and no other group is pending |
| `Generations.GroupsAreGenerations` | src/core.c:262-269 | with one successor at a time, two records have the same version exactly when they are in the same group, the status names the group of the current version, and all groups that moved the version differ |
| `Generations.EachGroupBumpsOnce` | src/core.c:262-269 | each new generation bumps exactly once, delayed siblings included, and the i-th bump is by the group of every record of that version |
| `Drain.DrainMeasure` | src/core.c:134-139 | once a record has quit, its open connections plus the closes since are constant; detection accepts it exactly when all are closed, and keeps accepting it |
| `Drain.ClientIsServed` | src/core.c:108-147 | from the moment a client is accepted until the application closes it, through any steps of all processes, its process keeps it and does not take itself for drained; only a kill of its group can end it |
| `Drain.ClientRoundTrip` | src/core.c:752-861 | closing a new client restores the state before its acceptance; accepting it adds one open connection, among the clients and not among the internal ones |
| `Drain.TransferLedger` | src/core.c:253-257 | the transfer counter is the number of flags minus the quits that answered nothing; it is exact if and only if there were no such quits, and it asks for the lock if and only if flags outnumber them |
| `Limits.UnboundWorkerKillsTheServer` | src/core.c:108-180 | a run in which a worker without records is terminated at its first event call and its group kill ends the service |
| `Limits.UnpaidQuitDisablesTheLock` | src/core.c:253-257 | a run in which a quit that answered nothing switches the lock off while two processes monitor the same blocking socket |
| `Limits.OutdatedGroupEndsTheService` | src/core.c:165-174 | a run in which an outdated group binds again between its decrement and its kill, and the kill ends the service |
| `Limits.KillTakesTheLock` | src/core.c:165-174 | a run in which a process of a doomed group takes the lock and the pending kill takes it along: nobody holds it and nobody can take it |
| `Limits.ClosedPortLosesTheLock` | src/core.c:108-180 | a run without any update in which a worker closes its unlocked port and leaves, and its kill hits a sibling that has taken the lock |
| `Limits.EachLimitIsReached` | src/core.c:108-180 | each of the five is the end of a concrete run from the initial state |
| `State.List.Add` | src/state.c:25-41 | the list becomes the old one with the item at its end, by changing the last link |
| `State.List.Walk` | src/state.h:91-97 | a walk visits every item once, in order, and follows only links of allocated nodes |
| `State.List.Unlink` | src/state.c:53-58 | exactly the node at the position is removed and freed, the links of the others stay |
| `State.RemoveFd` | src/state.c:129-149 | the first node with the descriptor is removed, and nothing when there is none |
| `State.RemoveFirstForgets` | src/state.c:129-149 | a descriptor that is listed once is unlisted by its removal, and no other is |
| `State.RemoveRecord` | src/state.c:44-60 | the first record with the descriptor is removed |
| `State.TransferRecord` | src/state.c:63-67 | a copy of the record is appended to the one list, the first record with its descriptor leaves the other |
| `State.SearchFd` | src/state.c:70-78 | the first record with that descriptor, or none |
| `State.SearchShadowFd` | src/state.c:81-89 | the first record with that shadow descriptor, or none |
| `State.SearchFds` | src/state.c:152-194 | the first record that keeps the descriptor as client, as monitored listener or as internal connection, or none |
| `State.IsInternalConn` | src/state.c:221-232 | true exactly for monitored listeners and internal connections |
| `State.ShadowFd` | src/state.c:197-206 | the shadow descriptor of the first record with that descriptor, any other descriptor unchanged |
| `State.OriginalFd` | src/state.c:209-218 | the descriptor of the first record with that shadow descriptor, any other unchanged |
| `State.RenamingRoundTrip` | src/state.c:197-218 | renaming there and back returns a descriptor if and only if it is bound or is no shadow descriptor |
| `State.RenamingSurvivesRemoval` | src/state.c:44-60 | removing a record leaves the renaming of every other descriptor as it was |
| `State.RenamingSurvivesAppend` | src/state.c:25-41 | adding a record renames its descriptor and no other |
| `Core.MonitorFd` | src/core.c:237-276 | in place, the quit and the bump of the protocol step; the listener is closed exactly when the record quits |
| `Core.Announce` | src/event_handlers/select.c:127-137 | in place, a record counts itself once |
| `Core.TryLockFd` | src/event_handlers/select.c:176-183 | in place, the try-lock of the protocol step |
| `Core.UnlockFd` | src/event_handlers/select.c:211-219 | in place, the unlock; a record without the lock posts nothing |
| `Core.TerminationDetection` | src/core.c:108-147 | true exactly when every record is outdated, unmonitored and without connections; with no records it is true |
| `Core.DrainedMeansNothingOpen` | src/core.c:134-139 | the four tests on a record are the drained condition of the protocol |
| `Core.Process.ConfigureProcess` | src/core.c:197-200 | every record learns whether its shadow descriptor blocks |
| `Core.Process.MonitorAll` | src/core.c:273-304 | every record and its port went through the state handler once |
| `Core.Process.Activate` | src/core.c:297-308 | the group counter rises on the first event call only |
| `Core.Process.Terminate` | src/core.c:150-180 | the counter falls by one, and zero takes the group along |
| `Core.Process.InitializeEvent` | src/core.c:297-319 | activation, state handler and detection in this order; the process stays exactly when some record is not drained after the handler, and the counter moves accordingly |
| `Sockets.Socket` | src/core.c:486-505 | the tables change as `TablesSpec.Opened` says; the new record is unbound, its own shadow, with nothing tracked |
| `Sockets.Attach` | src/core.c:673-731 | an answered request gives the record the shadow descriptor and the listener that came with it, any other case the socket itself and the listener just made; with a positive verdict the shared memory stays and the version is its own or, in another group, the next; in every other case the memory is reset to version 0 of this group with a free lock |
| `Sockets.Bind` | src/core.c:600-738 | an unknown descriptor fails and changes nothing; a tracked one leaves the unbound sockets and is appended to the bound ones with its number, its port, the shadow descriptor and the listener of the answer or its own, with the version, memory, lock and result of the branch taken |
| `Sockets.Accept` | src/core.c:752-773 | a session on a bound socket is appended to the clients of its record and to nothing else, the internal connections stay; any other session is not tracked |
| `Handover.BindFrom` | src/core.c:72-105 | what was sent on a connection is what the requester binds with: shadow descriptor first, listener second, the port number as verdict |
| `Handover.Handle` | src/event_handlers/select.c:127-142 | both ends of a request in one: the new record has exactly the shadow descriptor and the listener of the record that answered, and the version that follows, or the same one for a sibling |
| `Sockets.Search` | src/state.c:152-194 | a search in the records is a search in the table |
| `Sockets.CloseUnbound` | src/core.c:819-824 | an unbound socket leaves its table |
| `Sockets.CloseBound` | src/core.c:827-832 | a bound socket leaves its table with its whole record |
| `Sockets.Close` | src/core.c:803-861 | the five searches in their order; each changes the table as specified and only the table where the descriptor is found |
| `TablesSpec.CallKeepsPartition` | src/core.c:486-861 | socket, bind, accept, close and the library's own moves keep every descriptor in at most one place |
| `TablesSpec.PartitionInEveryRun` | src/core.c:486-861 | the same for every run in which the kernel hands out untracked descriptors |
| `TablesSpec.ClosedTracks` | src/core.c:803-861 | closing takes away one mention of the descriptor, or all that a bound record tracks |
| `TablesSpec.ClosedIsForgottenIff` | src/core.c:803-861 | after close no search finds the descriptor, except exactly when it is a tracked standard descriptor |
| `TablesSpec.OthersAreKeptIff` | src/core.c:827-832 | closing forgets nothing else if and only if the bound socket has no active listener and no connections |
| `Select.Selector.PreSelect` | src/event_handlers/select.c:155-208 | in place, the renaming and admission of one record, the call's transfer flag, and exactly when a unit of the lock is taken and by whom |
| `Select.Selector.SniffConn` | src/event_handlers/select.c:21-50 | in place, the listener and all internal connections join the set and are below the tested bound |
| `Select.Selector.HandleConnection` | src/event_handlers/select.c:82-150 | one round of the walk: list, cursor, read set, correction, replies and transfer flag; the cursor survives the freeing of its node |
| `Select.Selector.HandleConnections` | src/event_handlers/select.c:80-150 | every connection is visited once; the survivors are the old list in order without the ready ones whose peer closed; correction rises by the bits cleared; each ready request gets both descriptors with its verdict; the record counts itself once |
| `Select.WalkIs` | src/event_handlers/select.c:80-150 | after n rounds the list is the survivors among the first n followed by the unvisited rest |
| `Select.SurvivorsAre` | src/event_handlers/select.c:101-114 | the survivors are the members that are not both ready and closed, without repetition |
| `Select.InPlainTerms` | src/event_handlers/select.c:53-152 | what the pass over one record's connections comes to for each single connection: who stays listed, and that a request is sent the served socket and then the listener with the port number, a failed read both with -1, any other connection nothing |
| `Select.Selector.HandleConn` | src/event_handlers/select.c:53-152 | accept on the listener, then the walk, for each connection as `InPlainTerms` has it; correction rises by exactly the number of internal bits cleared; the transfer counter rises by one exactly if some request was answered and the record had not counted itself; without a read set nothing happens |
| `Select.Selector.PostSelect` | src/event_handlers/select.c:211-228 | in place, the unlock and the renaming back of one record |
| `SelectSpec.PreAllBits` | src/event_handlers/select.c:155-208 | after all records the set holds the unbound user descriptors and the shadow descriptors of the admitted records, and nothing else |
| `SelectSpec.AskedAbout` | src/event_handlers/select.c:155-208 | among all that the kernel is asked about, a record's shadow descriptor is there if and only if the caller asks for the record, it monitors, and, if it blocks and a transfer was seen up to it in the call, its lock is free |
| `SelectSpec.SelectRefines` | src/event_handlers/select.c:155-324 | a descriptor is in the final read set if and only if it is an unbound user descriptor that is ready, or a bound one whose admitted shadow descriptor is ready, and the kernel's mark was not under the number of a listener that a record has closed |
| `SelectSpec.SelectIsExactIff` | src/event_handlers/select.c:59-77 | the final read set is what the caller should find if and only if no unbound user descriptor and no admitted shadow descriptor is ready that has the number of a listener closed earlier |
| `SelectSpec.StaleNumbersAreMissed` | src/event_handlers/select.c:59-77 | two concrete inputs: an unbound descriptor and a bound socket, ready under such a number, are missing from the set |
| `SelectSpec.CountIsExact` | src/event_handlers/select.c:327-356 | renaming back neither merges nor loses bits, so the kernel's count minus the internal bits is the size of the final set |
| `SelectCall.PreSelectAll` | src/event_handlers/select.c:155-208 | over the bind list, the set is the fold of the renamings, and a record holds the lock afterwards exactly if it did before or asked for it while it was free |
| `SelectCall.TakesIs` | src/event_handlers/select.c:172-189 | the records that take a unit of the lock are exactly the monitoring blocking ones the caller asks for, after a transfer was seen in the call, whose lock is free |
| `SelectCall.Translate` | src/event_handlers/select.c:155-208 | in place, of the set that the kernel gets: a blocking socket in a transfer is in it only with its lock held and its semaphore one lower than seen; any other monitored one that the caller asks for is in it |
| `SelectCall.HandleConnAll` | src/event_handlers/select.c:53-152 | over the bind list, read set, every record's list, all that is sent, every transfer counter and correction are those of the single records, each on what its predecessors left; no lock and no semaphore moves |
| `SelectCall.PassIs` | src/event_handlers/select.c:53-152 | in that fold each record's list is handled with the bits that its predecessors left |
| `SelectCall.PostSelectAll` | src/event_handlers/select.c:211-228 | over the bind list, the read set is renamed back, no record holds the lock, and every semaphore is posted exactly by the record that held it |
| `SelectCall.OneRound` | src/event_handlers/select.c:245-329 | one round: on an error every lock that was taken stays taken and correction is untouched, otherwise all three sets, the result, the lists, all that is sent, counters, locks and semaphores are as specified |
| `SelectCall.RoundIsExact` | src/event_handlers/select.c:327-356 | the round leaves the specified read set, and its corrected count is that set's size |
| `SelectRestart.Prologue` | src/event_handlers/select.c:262-278 | in place, the state handler makes of every record what its version, its lock and the status say, and the process stays exactly when some record is then not drained |
| `SelectRestart.Attempt` | src/event_handlers/select.c:281-329 | in place, one round on these records: the three sets, the result, and the records afterwards |
| `SelectRestart.Call` | src/event_handlers/select.c:231-357 | the whole call, determined by the records it found and by what the rest of the world does: every earlier round ended in a restart, and the call ends as it must - terminated when all records are drained, an error passed on, or a result that is 0 only with a time limit; sets, lists, all that was sent in any round, transfer counters, locks and semaphores are as its last round leaves them for the caller's own sets, and the read set is exactly what was ready |
| `SelectRestart.ResultIsTheSize` | src/event_handlers/select.c:327-356 | the result of a round is the number of bits left in the three sets, in the first round up to what `correction` held on entry, whenever descriptors are used once |
| `SelectRestart.DuringIs` | src/core.c:248-259 | in every round a record has the descriptors and the version it came with, and monitors exactly if no round so far found it outdated and unlocked |
| `Poll.ShiftLeft` | src/event_handlers/poll.c:30-33 | descriptors and events move one to the left, results stay |
| `Poll.Compress` | src/event_handlers/poll.c:23-41 | the entries in use are kept in order, their number is the result, results stay |
| `Poll.SourcesAre` | src/event_handlers/poll.c:259-271 | the positions that compression keeps are increasing, point to the kept entries, and miss none in use |
| `Poll.RenameEntry` | src/event_handlers/poll.c:187-237 | one entry is renamed, deactivated or left, and exactly the record that was admitted by the lock holds it |
| `Poll.PrePoll` | src/event_handlers/poll.c:184-243 | the array holds the renamed entries in use, in order; exactly the records that got the lock hold it, each for one unit of its semaphore |
| `Poll.RenameIs` | src/event_handlers/poll.c:187-237 | an entry is renamed to itself when unbound, to the shadow descriptor when its record monitors and, if it blocks in a transfer, its lock is free, and to -1 otherwise |
| `Poll.SniffConn` | src/event_handlers/poll.c:43-62 | in place, one record: its listener if it monitors, then its connections in order, each asked about for POLLIN, as far as there is room |
| `Poll.SniffAll` | src/event_handlers/poll.c:43-75 | behind the entries already there: for every record in order the listener of a monitoring one and then its connections, each for POLLIN and at its position, up to the end of the array |
| `Poll.FilledInPlace` | src/event_handlers/poll.c:43-75 | the entries at those positions, and when the array is full, the longest prefix of them |
| `Poll.WalkBackIs` | src/event_handlers/poll.c:259-277 | the two-index walk marks exactly the sources of the ready user entries, and leaves the array if and only if an internal entry is ready |
| `Poll.SetRevents` | src/event_handlers/poll.c:259-277 | in place, the walk marks what its specification says and touches nothing else |
| `Poll.CopyStems` | src/event_handlers/poll.c:184-243 | every entry of the copy is mapped back to the user's entry it was made from |
| `Poll.MappedBack` | src/event_handlers/poll.c:259-277 | exactly the entries are marked whose descriptor, or admitted shadow descriptor, is ready; the kernel's count is their number when no internal entry is ready |
| `Poll.Ppoll` | src/event_handlers/poll.c:294-390 | the whole call: the kernel is shown the renamed entries and then all internal ones in place; when nothing is reported the array is untouched and the locks stay taken, otherwise exactly the right entries are marked, the result is their number, every lock is given back with its unit, and the walk stays inside exactly when no internal entry is ready |
| `Poll.UnlockAll` | src/event_handlers/poll.c:246-256 | no record holds the lock, and every semaphore is posted exactly by the record that held it |
| `Poll.AgreesWithPlainPollIff` | src/event_handlers/poll.c:263-275 | the array agrees with a plain poll if and only if the kernel answers nothing but POLLIN and the entries that are not ready had been cleared |
| `Poll.DiffersFromPlainPoll` | src/event_handlers/poll.c:263-275 | the inputs where it does not: any other answer, and any result left over in an entry that is not ready |
| `Poll.PollUntilReady` | src/event_handlers/poll.c:359-362 | in place, repeated calls: as long as nothing is reported the array is untouched and a record holds its lock from the first call on that got it |
| `Poll.AdmittedOnce` | src/event_handlers/poll.c:359-362 | during a transfer a blocking socket is admitted in at most one of these calls, however many there are, because nobody else gives its lock back |
| `Poll.WaitingStarves` | src/event_handlers/poll.c:359-362 | on the lock alone: without an unlock a process is admitted in its first round only, with one after each round it would be in all |
| `EpollSpec.WaitingFor` | src/event_handlers/epoll.c:198-252 | while waiting, the kernel watches a registered record's shadow descriptor exactly if it is admitted or was registered under it since the last call |
| `EpollSpec.Normalises` | src/event_handlers/epoll.c:198-294 | one call leaves the user's descriptor registered with the stored event, a differing shadow descriptor unregistered, and every other non-internal entry as it was |
| `EpollSpec.NormalIsStable` | src/event_handlers/epoll.c:338-356 | from then on calls change nothing, whoever is admitted |
| `EpollSpec.FaithfulStays` | src/event_handlers/epoll.c:255-294 | a call keeps what the next one assumes of the interest list |
| `EpollSpec.EventsOf` | src/event_handlers/epoll.c:297-335 | the corrected events are the application's own, in order, with their data and the kernel's mask, plus one for each reported connection that was closed in this call and for each listener closed earlier |
| `EpollSpec.EventsAreTheUsersIff` | src/event_handlers/epoll.c:142-148 | they are the application's own and nothing else if and only if no reported descriptor was closed in this call or is a listener that its record has closed |
| `EpollSpec.QuitLeaves` | src/core.c:253-257 | a quit leaves its listener in the interest list exactly if it was registered and another process has it open; the rest of the list is as the next call assumes |
| `EpollSpec.ControlWorksIff` | src/event_handlers/epoll.c:34-56 | between calls, a change, a removal or a second registration of a bound socket is answered as the kernel would answer it if and only if the socket is its own shadow |
| `EpollSpec.AdditionTakesEffect` | src/event_handlers/epoll.c:34-56 | a registration takes effect: the event is stored, and the next call leaves the user's descriptor watched with it |
| `EpollSpec.InheritedControlFails` | src/event_handlers/epoll.c:46-55 | a concrete inherited socket whose removal and change are answered as failed, and which stays watched |
| `EpollSpec.RemovalTakesEffectIff` | src/event_handlers/epoll.c:46-55 | a removal between calls takes effect if and only if the socket is its own shadow; otherwise the entry stays through any number of later calls |
| `EpollSpec.ChangeTakesEffect` | src/event_handlers/epoll.c:46-55 | a change takes effect with the next call, whatever was answered |
| `EpollSpec.DataFdOfWithFd` | src/event_handlers/epoll.c:207-211 | writing a descriptor into the data and reading it back gives the descriptor |
| `Epoll.EpollCtl` | src/event_handlers/epoll.c:34-56 | in place, the stored event, the kernel's interest list and the answer |
| `Epoll.ShadowFd` | src/event_handlers/epoll.c:198-252 | in place, one record's shadow pass; a unit of the lock is taken exactly by a registered, monitoring, blocking record in a transfer that finds it free |
| `Epoll.OriginalFd` | src/event_handlers/epoll.c:282-294 | in place, one record's way back |
| `Epoll.InternalConn` | src/event_handlers/epoll.c:61-92 | in place, one record's internal descriptors |
| `Epoll.ShadowFds` | src/event_handlers/epoll.c:198-266 | over the bind list, exactly which records hold the lock, and what every semaphore is then |
| `Epoll.InternalConns` | src/event_handlers/epoll.c:61-92 | over the bind list |
| `Epoll.OriginalFds` | src/event_handlers/epoll.c:282-294 | over the bind list |
| `Epoll.CorrectEvents` | src/event_handlers/epoll.c:297-335 | the nested shifting loops leave exactly the non-internal events in order with their data restored, and return their number; an error is passed on |
| `Epoll.HandleEvent` | src/event_handlers/epoll.c:95-195 | one event and one record: accept, answer, or close with the event marked and the descriptor dropped; what is sent is what `select` sends for the same request (`Select.InPlainTerms`) |
| `EpollMessages.RepliesTell` | src/event_handlers/epoll.c:160-187 | on a connection whose event brings a request the served socket and then the listener are sent with the port number, with -1 after a failed read, and nothing on any other |
| `EpollMessages.HandleConn` | src/event_handlers/epoll.c:95-195 | in place, all events and one record: the list becomes the old one without the closed connections, in order, followed by the accepted ones; exactly the events of closed connections are marked, and their descriptors leave the kernel's list; what is sent on each connection is as `RepliesTell` has it, and the record counts itself once exactly if it answered a request |
| `EpollMessages.ExpectStep` | src/event_handlers/epoll.c:98-193 | one event leads from that state for the first n events to that for n + 1, although list and array change under the walk |
| `EpollMessages.ConnsAreDistinct` | src/event_handlers/epoll.c:113-120 | no connection is listed twice after any number of events |
| `EpollMessages.AcceptedUnreported` | src/event_handlers/epoll.c:104-125 | a connection accepted in the call is never taken for one that is reported in it |
| `EpollMessages.HandleConns` | src/event_handlers/epoll.c:338-342 | in place, over the bind list: events, lists, interest list, replies and transfer counters when every record works on what its predecessors left |
| `EpollMessages.RecordStep` | src/event_handlers/epoll.c:338-342 | the marks of one record do not disturb the next: its connections are still reported once |
| `EpollCall.ClosedIff` | src/event_handlers/epoll.c:132-158 | exactly the connections are closed whose own record reads their end, whatever the other records did |
| `EpollCall.ListBalance` | src/event_handlers/epoll.c:104-158 | a record's list grows by what it accepts and shrinks by what it closes; it accepts nothing if and only if no event with its listener's number, still valid or not, can be accepted on |
| `EpollCall.CallTells` | src/event_handlers/epoll.c:359-381 | the array is left with the application's own ready registrations and one event more for each reported connection that was closed and each reported listener that its record closed earlier; it is what a plain call would report if and only if there is none of these |
| `EpollCall.LeftoverIsReported` | src/event_handlers/epoll.c:61-76 | a concrete call after a quit: the request to a closed listener that a successor keeps open reaches an application that registered nothing |
| `EpollCall.CallKeepsFaithful` | src/event_handlers/epoll.c:338-356 | the call leaves the next one an interest list that meets the same assumptions, with closed connections gone and accepted ones not yet registered |
| `EpollCall.PreEpoll` | src/event_handlers/epoll.c:255-266 | in place, from the application's registrations to the interest list that the kernel waits on |
| `EpollCall.UnlockFds` | src/event_handlers/epoll.c:269-278 | no record holds the lock, and every semaphore is posted exactly by the record that held it |
| `EpollCall.EndIs` | src/event_handlers/epoll.c:338-356 | after the call a record's semaphore is as it was seen, one higher only if the record came with the lock and did not take it again; it holds no lock, and its counter is one higher exactly if it answered its first request |
| `EpollCall.TranslateBack` | src/event_handlers/epoll.c:344-355 | in place, the interest list is renamed back, the events are corrected, nobody holds a lock, and every semaphore is posted exactly by the record that held it |
| `EpollCall.PostEpoll` | src/event_handlers/epoll.c:338-356 | in place, internal messages and the way back; every semaphore is as it was, one higher exactly for a record that came in with the lock |
| `EpollCall.EpollWait` | src/event_handlers/epoll.c:359-381 | the whole call: on an error -1 and an untouched array; otherwise the array holds the corrected events and the result is their number; in both cases the interest list is normal again, lists and replies are as specified, every lock is given back, and semaphores and transfer counters are as `EndIs` has them |

## Left out

Assumptions of the protocol model:

- Two distinct semaphores for a port, as src/state.h:58-59 and the buffer sizes in src/core.c:660 and src/core.c:666 intend; src/core.c:662 and src/core.c:668 write the same name twice.
- A process forks before its first event call and not in the middle of `bind`; it binds the port at most once; each semaphore section is one atomic step.
- The members of a process group share one program image, so their counter of workers is one cell; the counter is not reset by an `exec` inside the group.
- An inheriting bind succeeds when the address is taken and its peer answers; `Protocol` has no failed handshake. `Sockets.Bind` does have the refused and the failed one.
- Crashes, signals from outside, threads, `dup` and descriptors passed on by the application.
- Reliable delivery of a descriptor with a port number stands for src/communication.c; its message headers are not part of this model.
- Protocol.Lock: may be tried, once the call has run its state handler, whenever a blocking socket is monitored; that the transfer counter, or in `select` the flag of the call, asks for it is in `Select`, `Poll` and `Epoll`.

Parts of the event calls:

- SelectRestart.Call: has a read set; without one the translation does nothing but unlock, which `Select.Selector.HandleConn` and `Select.Selector.PostSelect` cover. A round in which the kernel would hand out a listed descriptor is no round.
- Poll.Ppoll: starts after the state handler and leaves `dsu_handle_conn_poll` out, so result and records are stated for calls in which no internal entry is ready; that the walk leaves the array otherwise is stated for all. It needs fewer than 1024 entries, since compression reads the entry after the last one.
- EpollCall.EpollWait: starts after the state handler; its kernel reports each watched descriptor at most once and hands out no number that is listed or reported, and application data does not read as an internal number. `maxevents` is the length of the array.
- EpollSpec.EventsAreTheUsersIff: needs user data that, read as a descriptor, is no internal one and no other record's shadow, which is so for applications that store the descriptor itself; and while the kernel still watches a closed listener, no registered, bound or internal descriptor has its number, since an interest list has one entry for a number.
- Timeouts, among them the short one that `select` uses during a transfer; `FD_SETSIZE` as a bound on `fd_set`; conversion of milliseconds.
- Opening shared memory and semaphores, `dlsym`, logging, `listen`, `shutdown` and the read and write wrappers, which only rename their argument.
- src/exec.c, src/utils.c, the test servers and the benchmarks.
