# Verified model of a multiplayer game server and parts of its client

The repository is a Windows game: an IOCP server that runs lobbies and four-player matches (one boss, three
employees), and a Direct3D client. This project models the parts where correctness rests on several pieces agreeing
and proves that they do. All results are statements about every input, every run or every reachable state of the
model, whose branches, constants and error cases are those of the cited code.

Values come first: each object of the source has a specification on values (`SessionSpec`, `MatchSpec`, `RoomSpec`,
`Protocol`, the upper half of `Scheduler`, `OcTreeSpec`, `Ownership`, ...). The objects themselves are classes whose
methods update fields and arrays in place and are proved equal to that specification (`ServerSessions`,
`MatchStates`, `Rooms`, `RoomManagers`, `OcTree`, `Rewinder`, `GameObjects`, `Framing`, `Accept`). The theorems are
about the specification, and `RoomManagers.RoomManager.UpdateRooms` closes the circle: one call on the objects ends
in a state that a run of atomic owner steps reaches, so that what is proved of runs holds of the objects.

## What is modelled

**Rooms, matches and sessions** (`RoomCommand` to `Theorems`). `Protocol.World` holds 100 rooms of four slots, the
session table, the two command queues and, for every session, where the thread that handles its packets stands. A
step is one owner command, one room update, one drain of a queue, or one access of an I/O thread to shared state
(retire, move to the retired map, announce, clear a binding, enqueue, read a binding into a lease, write a resume
token, ...). A run is any interleaving of such steps from an empty server. `Reachable` means: reached by some run.

Most results hold whatever the clients do, those about resumes and expiries included. Six need the clients to keep
to a discipline, because Exit clears the session's binding before the owner has freed its slot: a client leaves no
Create, Enter or Resume outstanding when it sends Exit, and a session sends Login or Resume but not both
(`Discipline.Disciplined`). `Disciplinedly` means: reached by such a run. `DuplicateSlots` gives a run without the
discipline that puts one session into two slots, and says exactly which steps do so.

- `RoomInvariant`, `ServerInvariant`, `ServerSteps`: what every step of every thread keeps.
- `Discipline`, `DisciplineSteps`, `DisciplineRuns`: what disciplined runs keep in addition.
- `LeaseSafety`: the match generation in a bound session's lease. `Lifecycle`: announcements of arrival and departure.
  `Retirement`: removed sessions are kept while I/O refers to them. `Waiters`, `ResumeExpiry`, `Expiry`: a waiting slot is
  the first under its sid, its fate, and what an expiry frees. `MatchIsolation`: starts and ends of matches, and what an
  update runs. `EventLeases`: the lease of an event from its admission to the update it acts in.
  `EventOrder`: the events of a run in the order of their packets.
- `Handling`: what comes of one packet, and what the owner drains. `CommandEffects`, `GameRules`: what each command, each
  event and the end of a tick do, field by field, and when they do nothing. `Pictures`: the pictures of a match are its
  players as updates left them. `Lookups`: which player a lookup by sid finds.
- `GameOver`: when a tick decides a match. `Stories`, `Endings`: concrete runs from an empty server, and two that show
  how a match ends too soon or not at all.
- `OwnerRound`: one call of UpdateRooms as a run. `Theorems`: the main results.

**Event schedulers** (`Scheduler`): the server's, which reads the clock once per DoTasks, and the client's, which
reads it before every event.

**World rewinder** (`Rewinder`): the ring of 30 frames that attacks are checked against, as a window on an unbounded
history. A match of the model carries that history; `Theorems.AttacksSeeTheirTick` joins the two.

**Stream framing** (`Framing`): how server and client cut packets out of received bytes and carry the rest over.

**Collision octree** (`OcTreeSpec`, `OcTree`): boxes in leaf cells, traversal by a sphere that is pushed while it is
being checked against them.

**Ownership of game objects** (`Ownership`, `OwnershipRuns`, `OwnershipCycles`, `GameObjects`): counted references
where zero still stands for one claim, first-child and next-sibling edges, recursive release.

**Counting and arithmetic**: outstanding accepts (`Accept`), position broadcasts (`Broadcast`), DDS subresource layout
(`DdsLayout`).

## What turned out false of the code

- *One slot per session* fails without the discipline above (`DuplicateSlots.UndisciplinedDuplicates`).
- *A match ends when three players are down or out* fails where a player escapes and then departs: a departure lays the
  player down, so that the player counts twice. `Endings.EndsTooSoon` and `Endings.DoesNotEnd` are reachable states in
  which the next update ends the match too soon, and does not end it. `GameOver.EndsRightIff` is the exact condition:
  nobody is both down and out (or three are, when the boss has won unless all four are down).
- *A lookup by sid finds the player in the session's slot* fails where the session left an earlier slot of the match and
  resumed into a later one, since a departed player keeps its sid: the player whose slot then starts to wait walks on
  (`Lookups.WaiterWalksOn`, a reachable state). It stands still iff no player before it has its sid, or it stood still
  already (`Lookups.WaiterStandsStillIff`); likewise for one who leaves (`Lookups.LeaverIsHiddenIff`).
- *A sphere pushed out of a box is clear of it* fails where its center is level with the box's center on the axis of the
  push and the push is too short (`OcTreeSpec.PushClearsIff`; `OcTreeSpec.StuckInTheMiddle` is not moved at all).
- *Every recorded subresource lies inside the input* fails for planar volumes of depth 0
  (`DdsLayout.DepthZeroEscapes`); `DdsLayout.EntriesInsideIff` gives the exact condition.
- *skipMip counts the mips passed over* fails for several planes: it counts them once per plane
  (`DdsLayout.SkipCountIff`; `DdsLayout.SkipsTwice` is an NV12 texture of two mips that is reported to have none left).
- *AttachChild keeps counts and edges in balance* fails exactly where it overwrites a sibling of the new child
  (`OwnershipRuns.AttachBalancesIff`), and then that sibling can never be released (`OwnershipRuns.AdoptingLeaks`).
  It can close a cycle (`OwnershipCycles.AttachStaysAcyclicIff`, `OwnershipCycles.ReattachingClosesCycle`), and it can
  change another owner's children (`OwnershipRuns.AttachSparesOthersIff`).
- *The rewinder's ring shows the history* fails where the 32-bit sum in the far-jump test wraps and the call is not for
  the past (`WorldRewinder.ShowsIff`; `WorldRewinder.WrappingInput` is such an input).
- The comment at MainServer/JobQueue.h:42 calls larger ticks older; the comparator lets smaller ones out first, and so
  does the model.

## Model

| member | source | states |
|---|---|---|
| Theorems.RoomMatchCoupling | MainServer/MatchState.cpp:34-111 | in every reachable state a room is in game iff its match is; each filled slot and its player agree on sid and index; slot 0 is filled and never Reconnecting; Reconnecting slots exist only in game and have a token; no lookup of a player by sid has thrown |
| Theorems.MemberConservation | MainServer/RoomManager.cpp:25-130 | in every reachable state the member counter is the number of filled slots, and EMPTY, FULL and NOT_FULL mean 0, 4 and 1 to 3 filled slots outside a match |
| Theorems.MatchesAreIsolated | MainServer/MatchState.cpp:34-180 | in every step of every run a match starts with four members, each at its place and looking ahead, hp 3, idle, visible, unescaped and still, generators off, queue and history empty, under a new generation; and it ends leaving an EMPTY room of four free slots, each of larger generation, and a match with nothing left over but rescue flags, everybody back at the start |
| Theorems.MatchesStartReady | MainServer/RoomManager.cpp:547-604 | a match starts only by a SetReady command, with four filled slots, all of them ready but for those of the session that is just becoming so |
| Theorems.OnlyTheBossEndsAMatch | MainServer/MatchState.cpp:74-93 | an Exit or a disconnection takes a room out of game iff it is the session in slot 0 that leaves |
| Theorems.EntersFirstFreeSlot | MainServer/RoomManager.cpp:256-329 | an Enter by a session that is active, logged in, unbound and not retired, into an open room that is not full, gives it the first free slot under its token and a new generation, not ready, and binds it there; any other Enter changes nothing |
| Theorems.CreatesFirstEmpty | MainServer/RoomManager.cpp:722-752 | a Create by such a session gives it the first slot of the first empty room |
| Theorems.NoRoomToCreate | MainServer/RoomManager.cpp:722-752 | any other Create changes nothing |
| Theorems.ReadinessStartsMatches | MainServer/RoomManager.cpp:547-604 | SetReady sets or clears the flag of the session's slot; if it sets the fourth, the match begins, all flags are cleared, and the sessions in the room are bound to the match |
| Theorems.ReadinessIsIgnored | MainServer/RoomManager.cpp:654-674 | during a match, and without a room, SetReady changes nothing |
| Theorems.ExitsDepart | MainServer/RoomManager.cpp:25-130 | an Exit frees the session's first slot there under the next generation and unbinds it; in a match the first player under its sid is still, hidden and down, and nobody else changes; the boss's Exit frees and unbinds everybody and ends the match; the last to leave a waiting room closes it |
| Theorems.NobodyExits | MainServer/RoomManager.cpp:764-768 | any other Exit changes nothing |
| Handling.LoginsKeepTokens | MainServer/ServerSession.cpp:214-234 | a login gives a session without a token the new one, and leaves one that has a token with it |
| Handling.ExitsUnbind | MainServer/ServerSession.cpp:325-334 | an Exit packet queues an Exit for the room the session is bound to, and unbinds it iff the queue took it |
| Handling.GamePacketsQueue | MainServer/ServerSession.cpp:253-272 | a game packet is queued last, under the room and lease of the session's binding, iff there are any and the queue has room |
| Handling.OwnerDrains | MainServer/RoomManager.cpp:617-629 | the owner takes up to 512 commands off the front of each queue and leaves the rest |
| Handling.NoSuchRoom | MainServer/RoomManager.cpp:711-717 | an Enter into a room that does not exist removes an active session: retired, unbound, announced with its token |
| Handling.GreetingFails | MainServer/RoomManager.cpp:678-698 | a greeting that cannot be sent removes the session likewise, one that can changes nothing |
| Theorems.DisconnectionsWait | MainServer/RoomManager.cpp:161-183 | a disconnection makes an employee's Connected slot in a match wait until now + 30000 under the next generation, with sid, token and readiness kept, and the first player under the sid stand still, and changes nothing else; with another token, or while it waits, it changes nothing; of the boss, without a token, or outside a match it is a departure |
| Theorems.DisconnectionsSpare | MainServer/RoomManager.cpp:770-775 | rooms in which the session holds no slot stay as they are |
| Theorems.PlayersReturn | MainServer/RoomManager.cpp:185-238 | a Resume with the token of a slot of a match, Connected or not yet overdue, by a session that is active, unbound and not retired: the slot, first with that token, is Connected under the session, with token, readiness and the next generation, its player has the sid, the session is bound to room, generation and match and has the token; somebody still connected there is retired, unbound and announced; nothing else changes |
| Theorems.OthersDoNotReturn | MainServer/RoomManager.cpp:777-800 | any other Resume changes nothing at all |
| Theorems.WaitersReturn | MainServer/RoomManager.cpp:198-213 | with disciplined clients every player that waits gets its own slot back with its token before the deadline |
| Theorems.ExpiryFreesTheOverdue | MainServer/RoomManager.cpp:240-254 | the expiry in an update frees exactly the overdue slots, each under the next generation, and stops, hides and lays down exactly the first players under their sids |
| Theorems.EventsDoAsAsked | MainServer/packetEvent.cpp:10-246 | an event that acts does just this: a movement turns the player and gives it its velocity by keys; an attack takes one life of the target if the past picture says hit, and the last one lays it down; an interaction lights a generator, turns one's interaction on or off, sets or clears a rescue, revives or lets escape, as its number says, and nothing else changes |
| Theorems.UpdatesFinish | MainServer/MatchState.cpp:61-165 | once the events have run: every visible player goes on by a sixtieth of its velocity and where the collision pass puts it, the exit is open iff it was or all three generators are lit, a picture is taken; if three are down, or the exit is open and players down and players out make three, the room is closed instead |
| Theorems.ExpirySparesTheMatch | MainServer/RoomManager.cpp:240-254 | whatever the clients do, the expiry of reconnects never ends a match |
| Theorems.EmployeesWinByActivations | MainServer/MatchState.cpp:126-165 | if a tick ends in EMP_WIN, then for each of the three generators an update of this very match, that one or an earlier one of the run, ran an Activate event for it under a lease current at that moment |
| Theorems.UpdateDrainsEvents | MainServer/JobQueue.cpp:37-52 | an update of a room in game runs all its queued events, in queue order, and leaves none; the queue is in (time, sequence) order |
| Theorems.EventsRunInArrivalOrder | MainServer/RoomCommand.h:93-112 | first in, first out over every run: the events a room has run, then those it holds, are a subsequence of the events of the packets accepted for it, in the order in which GameCommandQueue accepted them; commands are executed in exactly that order |
| Theorems.UpdateAddsPicture | MainServer/WorldRewinder.h:91-102 | an update that leaves the match on adds one picture to its history: positions 0 to 3 are those of players 0 to 3 as the update leaves them, the direction is where player 0 looks, the frame the number of the tick |
| Theorems.AttacksSeeTheirTick | MainServer/packetEvent.cpp:226-230 | over every run, in every match of fewer than 2^32 - 30 ticks: an attack that names frame f, read as unsigned, is checked against the positions that the players had, and the direction that the boss had, when tick clamp(f, max(0, n - 29), n) of that match ended; before the first tick against a blank world |
| Pictures.PicturesWereTaken | MainServer/MatchState.cpp:61-72 | along every run, picture k of a match was taken by an update of that match that ended tick k, and shows the players as that update left them |
| GameRules.ShiftComponents | MainServer/SPlayer.cpp:33-67 | along a unit look the velocity is speed times forward less backward, to its right speed times right less left |
| GameRules.HitsLayDown | MainServer/SPlayer.h:77-88 | a player up with h lives loses one with each hit, goes down on exactly the h-th, and no later one changes it |
| GameRules.RevivedStandsThree | MainServer/SPlayer.h:89-93 | a revived player stands two hits and goes down on the third |
| Lookups.WaiterStandsStillIff | MainServer/MatchState.cpp:95-111 | the player whose slot starts to wait stands still iff it did before or no player before it has its sid |
| Lookups.LeaverIsHiddenIff | MainServer/MatchState.cpp:74-111 | the player whose slot an Exit frees is hidden iff it was before or no player before it has its sid |
| Lookups.WaiterWalksOn | MainServer/MatchState.cpp:95-111 | a run after which the session in slot 2 drops, and its player keeps its velocity while the slot waits |
| Theorems.BindingCoherence | MainServer/ServerSession.h:48-82 | in every reachable state a retired session is unbound, and a bound one is the Connected occupant of a slot of that room with that generation |
| Theorems.GenerationIsAStamp | MainServer/RoomManager.cpp:25-130 | if a slot's generation is the same at both ends of a run, occupant, token and connection were the same at every moment of it |
| Theorems.NoLeaseOutlivesItsMatch | MainServer/MatchState.cpp:113-116 | a lease of a match that is not the running one is current at no later moment of any run |
| Theorems.EventsActInTheirOwnStay | MainServer/packetEvent.cpp:5-8 | an event admitted by a game command, if any later update runs it so that it changes something, does so in the match it was admitted in, which was on at every moment between, and under the stay it was admitted under: one slot granted its lease throughout, or its session has resumed into another slot of that match |
| EventLeases.AdmittedUnderALease | MainServer/RoomManager.cpp:436-446 | an event that a game command adds to a queue carries a lease that is current there and then |
| EventLeases.LeaseStays | MainServer/RoomManager.cpp:143-159 | a lease current at both ends of a stretch of a match was granted by one slot throughout, or its session has taken over another |
| MatchIsolation.ActingLeaseIsCurrent | MainServer/packetEvent.cpp:5-8 | inside an update, an event changes something only under a lease that is current in the room as the update began, and as the expiry and the earlier events have left it |
| Theorems.NoCommandPrecedesItsMatch | MainServer/ServerSession.cpp:253-272 | with disciplined clients no queued game command names a match of its room that has yet to start |
| Theorems.BoundLeasesNameTheMatch | MainServer/RoomManager.cpp:567-573 | with disciplined clients the lease of a bound session names the match that is on in its room, and none if none is |
| Theorems.OneSlotPerSession | MainServer/RoomManager.cpp:711-752 | with disciplined clients every session fills at most one slot of all 100 rooms |
| Theorems.NoGhostSlots | MainServer/RoomManager.cpp:770-775 | with disciplined clients no slot is Connected under a session whose Disconnected was executed |
| Theorems.TokensNameOneSlot | MainServer/ServerSession.cpp:214-226 | with disciplined clients no two filled slots share a resume token |
| Theorems.ResumeOrExpiry | MainServer/RoomManager.cpp:161-254 | along every run, whatever the clients do, a waiting slot stays as it is until one step ends the wait: a resume with its token strictly before the deadline under a new sid and the same player index, an update at or after the deadline that frees it, the player's own Exit, or the end of the match |
| Theorems.NoLateResume | MainServer/RoomManager.cpp:198-202 | whatever the clients do, no Resume changes a slot that waits and is overdue |
| Theorems.WaitEndsLawfully | MainServer/RoomManager.cpp:161-254 | whatever the clients do, in every reachable state every step leaves a waiting slot as it is or ends its wait in one of the ways above |
| Theorems.UpdateAfterDeadlineFrees | MainServer/RoomManager.cpp:372-376 | whatever the clients do, the first update at or after the deadline frees a slot that still waits |
| Theorems.AnnouncedExactlyOnce | MainServer/ServerSessionManager.cpp:30-82 | under any number of removing threads every activated session has one SessionConnected, every departed one exactly one Disconnected after it; active and retired maps are disjoint; entries other than Disconnected never exceed the capacity |
| Retirement.StepReleasesIdle | MainServer/ServerSessionManager.cpp:98-114 | no step of any thread releases a session that has pending I/O: retired it stays retired, active it stays active or retired |
| Retirement.KeptWhileInUse | MainServer/ServerSessionManager.cpp:98-114 | along every run a session stays active or retired as long as I/O refers to it |
| Retirement.DrainReleasesIdle | MainServer/ServerSessionManager.cpp:98-114 | a drain leaves exactly the retired sessions with pending I/O, and changes nothing else |
| ServerInvariant.RequestRemoveEffect | MainServer/ServerSessionManager.cpp:62-82 | a removal without interference of an active session announces it once with its token, retires and unbinds it, and takes it out of the active map; of any other it changes nothing |
| Lifecycle.NothingActivatesAfterShutdown | MainServer/ServerSessionManager.cpp:84-96 | once shutdown has begun no run ever activates a session |
| ServerSteps.RunKeepsWorld | MainServer/RoomManager.cpp:631-800 | every run of all threads keeps rooms, sessions, bindings and commands consistent, and every slot's stamp and every match's generation only advance |
| DisciplineRuns.RunKeepsOrder | MainServer/ServerSession.cpp:300-333 | every disciplined run keeps the slots without duplicates, the tokens distinct, and every session that lost its binding but not its slot on its way out of that slot |
| Waiters.RunKeepsFirst | MainServer/RoomManager.cpp:161-183 | along every run a slot that waits is the first slot of its room under its sid |
| ResumeExpiry.WaitingSlotStep | MainServer/RoomManager.cpp:161-254 | one step of a waiting slot that is the first under its sid: it goes on waiting, which no update at or after the deadline allows, or ends in one of the lawful ways |
| LeaseSafety.StepKeepsLeases | MainServer/ServerSession.h:58-77 | no step of a disciplined run lets a bound lease name another match than the one on in its room, or a captured one a match yet to start |
| DuplicateSlots.StepDuplicatesIff | MainServer/RoomManager.cpp:185-329 | from a state without duplicates, a step of any thread puts a session into two slots iff it is a successful Create, Enter or Resume of a session that holds a slot other than the one it is given |
| DuplicateSlots.UndisciplinedDuplicates | MainServer/ServerSession.cpp:330-333 | a run in which a session with an Enter outstanding sends Exit and ends up in two slots |
| GameOver.DecisionIff | MainServer/MatchState.cpp:153-165 | the boss wins iff three players are down; the employees iff not so, the exit is open, and players done plus players counted twice make three |
| GameOver.EndsRightIff | MainServer/MatchState.cpp:153-165 | with the exit open and the boss not winning, the match ends exactly when three players are down or out, whatever the players do who are not both, iff nobody is both (or three are) |
| Endings.EndsTooSoon | MainServer/MatchState.cpp:74-165 | a run after which one employee has escaped and left, and the next update lets a second escape and closes the room while the third plays |
| Endings.DoesNotEnd | MainServer/MatchState.cpp:74-165 | a run after which the next update lets the other two employees escape, so that all three are out, and the match goes on |
| MatchIsolation.StartNeedsReady | MainServer/RoomManager.cpp:580-604 | in every step that starts a match, the command is the last member's SetReady |
| MatchIsolation.StepTurns | MainServer/RoomManager.cpp:408-433 | every step that ends a match leaves a free room with new generations, every step that starts one finds a clean match |
| MatchIsolation.TickRunsQueueInOrder | MainServer/JobQueue.cpp:37-52 | what the scheduler pops and runs in a tick is the whole queue, one event after the other |
| MatchIsolation.UpdateTakesEach | MainServer/JobQueue.cpp:37-52 | an update takes its events one by one: event k acts on what the expiry and the events before it have left, the rest on what it leaves |
| MatchIsolation.AdmissionAppends | MainServer/RoomManager.cpp:436-516 | an admitted packet's event goes to the end of the queue under the packet's lease, which is current |
| MatchIsolation.PacketsAsk | MainServer/RoomManager.cpp:448-516 | under a current lease keys queue a movement with those keys and that direction, an attack on player 0 to 3 queues that attack, an attack on nobody removes its sender, an event number queues that interaction, due at once under the next number; any other packet, and any without a current lease, changes nothing |
| MatchIsolation.LitGeneratorWasActivated | MainServer/packetEvent.cpp:78-94 | a generator lit at the end of a run and not at its start was lit by an Activate event that an update of that match ran under a current lease |
| EventOrder.CommandsInOrder | MainServer/RoomCommand.h:93-112 | over every run, the commands executed, then those that wait, are the commands accepted, in the order of their acceptance |
| EventOrder.EventsInOrder | MainServer/JobQueue.cpp:15-61 | over every run, the events a room has run and holds are a subsequence of those its executed commands asked for; what is missing was refused or cleared |
| OwnerRound.RoundReachable | MainServer/RoomManager.cpp:753-763 | a whole owner turn, drains and updates, ends in a reachable state |
| RoomCommand.EnqueueKeepsOrdinaryBounded | MainServer/RoomCommand.h:52-61 | whatever is offered, entries other than Disconnected stay within the capacity and nothing queued is lost |
| RoomCommand.LobbyCommandQueue.TryEnqueue | MainServer/RoomCommand.h:52-61 | accepts iff there is room or the command is Disconnected, and appends exactly then |
| RoomCommand.LobbyCommandQueue.Drain | MainServer/RoomCommand.h:63-74 | takes up to maxCount commands off the front, in order |
| RoomCommand.GameCommandQueue.TryEnqueue | MainServer/RoomCommand.h:93-99 | accepts iff there is room, and appends exactly then |
| RoomCommand.GameCommandQueue.Drain | MainServer/RoomCommand.h:101-112 | takes up to maxCount commands off the front, in order |
| ServerSessions.ServerSession.BindRoom | MainServer/ServerSession.h:58-64 | a retired session refuses, any other is bound to the room with that lease |
| ServerSessions.ServerSession.BindMatch | MainServer/ServerSession.h:65-71 | a retired or unbound session refuses, any other keeps its room and slot and gets the match |
| ServerSessions.ServerSession.RetireGameBinding | MainServer/ServerSession.h:77-82 | the session is retired and unbound |
| ServerSessions.ServerSessionManager.FindSession | MainServer/ServerSessionManager.cpp:55-60 | finds a session iff it is active |
| ServerSessions.ServerSessionManager.ActivateSession | MainServer/ServerSessionManager.cpp:30-53 | a session becomes active iff its arrival could be queued while the manager accepts; otherwise only the sid counter moves |
| ServerSessions.ServerSessionManager.MoveToRetired | MainServer/ServerSessionManager.cpp:69-75 | of several removing threads exactly the first moves the session from the active to the retired map |
| ServerSessions.ServerSessionManager.Announce | MainServer/ServerSessionManager.cpp:77-79 | the departure is always admitted, with the session's token |
| ServerSessions.ServerSessionManager.RequestRemoveSession | MainServer/ServerSessionManager.cpp:62-82 | a removal without interference retires, moves, announces and drains; of a session not active it is nothing |
| ServerSessions.ServerSessionManager.DrainRetiredSessions | MainServer/ServerSessionManager.cpp:98-114 | a session is in the retired map afterwards iff it was before and its pending count is not 0 |
| ServerSessions.ServerSessionManager.BeginShutdown | MainServer/ServerSessionManager.cpp:84-96 | nothing is accepted any more and exactly the sessions active before have been removed; a second call does nothing |
| MatchStates.MatchState.Start | MainServer/MatchState.cpp:34-59 | in place: seats the four sids at their places, and leaves generators, queue, history, phase fresh under the next generation |
| MatchStates.MatchState.Reset | MainServer/MatchState.cpp:167-180 | in place: every player as ResetState leaves it, at the start, rescue flags kept, nothing queued, no history, no match on |
| MatchStates.MatchState.GetPlayerBySid | MainServer/MatchState.cpp:106-111 | the first player under the sid, or the throwing case |
| MatchStates.MatchState.OnPlayerLeft | MainServer/MatchState.cpp:74-93 | the player stops, is hidden and crawls; player 0 takes the match along, others are hidden |
| MatchStates.MatchState.CheckGameState | MainServer/MatchState.cpp:153-165 | the loop's counts decide between boss win, employee win and neither |
| MatchStates.MatchState.MovePlayers | MainServer/MatchState.cpp:122-124 | in a match every visible player moves by its velocity for one tick |
| MatchStates.MatchState.LateUpdate | MainServer/MatchState.cpp:126-136 | every visible player goes where the collision pass puts it; the exit opens iff all generators are active, and stays open; then the state is decided |
| MatchStates.MatchState.FinishTick | MainServer/MatchState.cpp:61-72 | movement, collisions, state, the picture added to the history and the broadcast phase after a tick, and whether it broadcasts |
| MatchStates.MatchState.MovePlayer | MainServer/SPlayer.cpp:46-67 | in place: the velocity becomes what `GameRules.ShiftComponents` says of the keys; a player who is not idle stands still |
| MatchStates.MatchState.Task | MainServer/packetEvent.cpp:10-246 | in place: each of the events does what `Theorems.EventsDoAsAsked` says of its kind, and an unknown one nothing |
| Rooms.Room.GetMemberIndex | MainServer/RoomManager.cpp:132-141 | the first slot under the sid, or the first Connected one |
| Rooms.Room.IsLeaseCurrent | MainServer/RoomManager.cpp:143-159 | a lease is current iff the room is in game, the match is the lease's, and a Connected slot has the sid and generation |
| Rooms.Room.UserOut | MainServer/RoomManager.cpp:25-130 | slots, counter, status, match and bindings after a departure, in all its branches |
| Rooms.Room.OnTransportDisconnected | MainServer/RoomManager.cpp:161-183 | in place: the room becomes what `Theorems.DisconnectionsWait` and `Theorems.DisconnectionsSpare` say |
| Rooms.Room.ResumeUser | MainServer/RoomManager.cpp:185-238 | in place: the room and the sessions become what `Theorems.PlayersReturn` and `Theorems.OthersDoNotReturn` say |
| Rooms.Room.ExpireReconnects | MainServer/RoomManager.cpp:240-254 | exactly the overdue slots' sids leave, in slot order |
| Rooms.Room.UserIn | MainServer/RoomManager.cpp:256-329 | enters the first free slot of a room that is not full, under a new generation, or changes nothing |
| Rooms.Room.TryUpdateReady | MainServer/RoomManager.cpp:580-593 | in place: sets or clears the flag of the first Connected slot under the sid, outside a match only; see `Theorems.ReadinessStartsMatches` |
| Rooms.Room.IsGameStartAvailable | MainServer/RoomManager.cpp:595-604 | four ready slots |
| Rooms.Room.InitGame | MainServer/RoomManager.cpp:547-579 | flags cleared, match started, room in game, sessions bound to the match, or nothing |
| Rooms.Room.DoTasks | MainServer/JobQueue.cpp:37-52 | the loop runs the due events in order, each only under a current lease |
| Rooms.Room.Update | MainServer/RoomManager.cpp:372-434 | expiry, tick, and the closing of a decided match |
| Rooms.Room.AddEvent | MainServer/RoomManager.cpp:436-446 | an event is scheduled iff its lease is current |
| Rooms.Room.ProcessGamePacket | MainServer/RoomManager.cpp:448-516 | the event a packet asks for is scheduled; an attack on nobody removes its sender |
| RoomManagers.RoomManager.CreateRoom | MainServer/RoomManager.cpp:722-752 | the first empty room that lets the session in opens, all others are as before |
| RoomManagers.RoomManager.EnterRoom | MainServer/RoomManager.cpp:711-721 | a room number out of range removes the session; a bound session stays where it is |
| RoomManagers.RoomManager.DisconnectSession | MainServer/RoomManager.cpp:770-775 | every room in turn sees the disconnection |
| RoomManagers.RoomManager.ResumeSession | MainServer/RoomManager.cpp:777-800 | the first room that lets the session resume does, none for token 0 |
| RoomManagers.RoomManager.SetReady | MainServer/RoomManager.cpp:654-674 | the flag in the session's room, and the start of a match |
| RoomManagers.RoomManager.ExecuteGameCommand | MainServer/RoomManager.cpp:700-709 | only a command whose lease is its session's present one reaches its room |
| RoomManagers.RoomManager.ExecuteLobbyCommand | MainServer/RoomManager.cpp:631-698 | each command has the effect of its atomic step on all rooms and sessions |
| RoomManagers.RoomManager.DrainLobbyCommands | MainServer/RoomManager.cpp:617-622 | up to 512 commands, oldest first |
| RoomManagers.RoomManager.DrainGameCommands | MainServer/RoomManager.cpp:624-629 | up to 512 commands, oldest first |
| RoomManagers.RoomManager.UpdateRooms | MainServer/RoomManager.cpp:753-763 | from objects that hold a reachable state, one owner turn leads to objects that hold a reachable state, the one after the drains and all updates |
| Scheduler.InsertInOrder | MainServer/JobQueue.h:5-13 | a push under a new number keeps (time, sequence) order |
| Scheduler.RunsExactlyWhatIsDue | MainServer/JobQueue.cpp:37-52 | DoTasks runs exactly the events due at its tick, in (time, sequence) order |
| Scheduler.HistoryConserves | MainServer/JobQueue.cpp:15-61 | over every history of pushes, runs and clears, each pushed event is queued, run or cleared |
| Scheduler.ExactlyOnce | MainServer/JobQueue.cpp:15-61 | over every history of the server's scheduler, each pushed event is queued or has left once, and is run at most once |
| Scheduler.PromptIsFifo | MainServer/JobQueue.cpp:15-61 | with zero delays and a clock that never goes back events leave in the order of their pushes, and each DoTasks empties the queue |
| Scheduler.RereadingClock | GameClient/Network/ClientEventScheduler.cpp:29-42 | reading the clock before every event runs what one reading at the end would have run |
| Scheduler.ServerEventScheduler.PushTask | MainServer/JobQueue.cpp:15-35 | the event is inserted at its time under the next number |
| Scheduler.ServerEventScheduler.PopDue | MainServer/JobQueue.cpp:42-47 | the top event leaves iff it is due at the tick of this DoTasks |
| Scheduler.ServerEventScheduler.Clear | MainServer/JobQueue.cpp:54-61 | everything is dropped, the numbering goes on |
| Scheduler.ClientEventScheduler.PushTask | GameClient/Network/ClientEventScheduler.cpp:18-27 | negative delays count as zero |
| Scheduler.ClientEventScheduler.DoTasks | GameClient/Network/ClientEventScheduler.cpp:29-42 | runs the longest prefix each of which is due at its own reading of the clock |
| Scheduler.ClientEventScheduler.Clear | GameClient/Network/ClientEventScheduler.cpp:44-51 | everything is dropped and the numbering restarts |
| WorldRewinder.Rewinder.SetWorldStatusByFrame | MainServer/WorldRewinder.h:45-74 | in place: the ring becomes what the call makes of any ring, and keeps showing the history unless the 32-bit sum wraps and the call is not for the past |
| WorldRewinder.Rewinder.FillGap | MainServer/WorldRewinder.h:60-71 | the slots between get the status that was latest, whose own slot is not overwritten while it is copied |
| WorldRewinder.Rewinder.GetWorldStatusByFrame | MainServer/WorldRewinder.h:76-90 | the slot of the frame; where the ring shows the history, the history at the frame nearest to the one asked for in the last `size` frames |
| WorldRewinder.Rewinder.AddHistory | MainServer/WorldRewinder.h:91-102 | in place: the call for the next frame of a 32-bit counter, whatever the ring held |
| WorldRewinder.Rewinder.Clear | MainServer/WorldRewinder.h:124-130 | an empty history with every slot blank |
| WorldRewinder.Rewinder.StatusForAttack | MainServer/WorldRewinder.h:103-105 | the signed frame number of a packet is read as unsigned |
| WorldRewinder.ShowsIff | MainServer/WorldRewinder.h:45-74 | after a call the ring shows the history, whatever it held, iff the call is for the past or the sum of frame and window does not wrap (or the window is one frame) |
| WorldRewinder.WrappingInput | MainServer/WorldRewinder.h:51-58 | two calls near the limit of the counter after which a lookup gives the second status for the first frame |
| WorldRewinder.AtIsTheLastGoverning | MainServer/WorldRewinder.h:45-74 | for every log of calls, the world at a frame is the status of the last call not for the past that was for that frame or an earlier one or jumped beyond the window, and blank if there is none |
| WorldRewinder.LookupIsTheLastGoverning | MainServer/WorldRewinder.h:76-90 | a lookup gives that of the nearest frame in the window |
| WorldRewinder.LookupAfterTicks | MainServer/WorldRewinder.h:76-102 | after n ticks a lookup of f gives snapshot clamp(f, max(0, n - 29), n) |
| WorldRewinder.NegativeFrameIsLatest | MainServer/WorldRewinder.h:76-79 | a negative frame number stands for the latest world |
| WorldRewinder.RunTicks | MainServer/MatchState.cpp:61-72 | n ticks after a Clear the history holds exactly their n snapshots |
| Framing.StreamsAgree | MainServer/ServerSession.cpp:122-161 | for every split of a stream into receives, packets handled, outcome and leftovers equal one parse of the whole |
| Framing.ChunkingDoesNotMatter | GameClient/Network/ClientSession.cpp:188-268 | the same from any point of the stream on, for both sides |
| Framing.PacketsComeBack | MainServer/ServerSession.cpp:133-148 | a concatenation of well-formed packets parses back into them, and an incomplete tail waits |
| Framing.HeadTakesIff | MainServer/ServerSession.cpp:129-148 | a packet is taken off a stream iff it is well formed, and passed over iff it is of a type the client does not know |
| Framing.RejectsIff | GameClient/Network/ClientSession.cpp:205-234 | a stream is rejected iff nothing that may still arrive completes a packet: by the server at once, by the client when the packet is all there |
| Framing.StreamYields | GameClient/Network/ClientSession.cpp:205-258 | packets of unknown type in between are passed over, the others come back in order |
| Framing.RejectedAfter | MainServer/ServerSession.cpp:133-141 | a stream that goes wrong has handed on just the packets before |
| Framing.PacketsAreHandedOn | MainServer/ServerSession.cpp:142-148 | whatever the handler does, packets are handed on one by one until it refuses one, which ends the stream |
| Framing.QueueHolds | GameClient/Network/ClientSession.cpp:237-255 | packets wait in order up to 4096, the next one ends the stream, and the last LOGIN_OK among those seen sets the identity |
| Framing.SizesAreStructs | Shared/Protocol.h:154-366 | the expected size of every packet type is that of its packed struct, field by field; unknown types have none |
| Framing.CarryIsSmall | MainServer/ServerSession.cpp:149-155 | leftovers stay below 54 bytes on the server and 255 on the client, so the receive window is never empty |
| Framing.ServerReceiver.Processing | MainServer/ServerSession.cpp:122-161 | a receive leaves handler state, buffer and session as a parse of buffer and new bytes says; a stream still open is removed iff the next receive cannot be posted; the full-buffer reject is dead code |
| Framing.ClientReceiver.Processing | GameClient/Network/ClientSession.cpp:188-268 | a receive leaves queue, identity, buffer and session as a parse says |
| Framing.ClientReceiver.QueuePacket | GameClient/Network/ClientSession.cpp:237-255 | a packet is queued iff fewer than 4096 wait |
| OcTreeSpec.RefinesBruteForce | MainServer/CollisionDetector.cpp:74-191 | yes if some box meets the sphere at a point of the root cube; yes only if some inserted box meets the original sphere; no leaves sphere and position alone |
| OcTreeSpec.HitIffTriple | MainServer/CollisionDetector.cpp:124-191 | yes iff some leaf cell, some inserted box and the sphere meet in pairs |
| OcTreeSpec.CheckAnswers | MainServer/CollisionDetector.cpp:124-191 | on any tree: yes iff some leaf on the sphere's way holds a box that meets it, however often cells are visited and the sphere is moved |
| OcTreeSpec.CheckFollows | MainServer/CollisionDetector.cpp:139-170 | a check keeps the sphere's radius and height, and after a hit the position is the sphere's center |
| OcTreeSpec.PushMoves | MainServer/CollisionDetector.cpp:139-164 | a push changes x or z only, the one with the smaller correction, by 1.2 times that correction and away from the box's center |
| OcTreeSpec.PushClearsIff | MainServer/CollisionDetector.cpp:139-164 | on that axis the sphere is clear of the box's face afterwards iff its center was not level with the box's, or 1.2 times the difference of radius and extent reaches |
| OcTreeSpec.PushedApart | MainServer/CollisionDetector.cpp:139-164 | then no point of the box is inside the sphere |
| OcTreeSpec.StuckInTheMiddle | MainServer/CollisionDetector.cpp:139-164 | a sphere in the middle of a cube of its own size is not moved |
| OcTreeSpec.SphereMeetsInPoint | MainServer/CollisionDetector.cpp:129-136 | the box-sphere test is the meeting of closed sets in a point |
| OcTreeSpec.BoxesMeetInPoint | MainServer/CollisionDetector.cpp:78-85 | the box-box test is the meeting of closed sets in a point |
| OcTrees.OcTree.BuildTree | MainServer/CollisionDetector.cpp:92-114 | the objects form the full tree of three levels over the cube, eight separate children a node |
| OcTrees.OcTree.AddBoundingBox | MainServer/CollisionDetector.cpp:74-90 | the box is in exactly the leaves it touches, after what they held |
| OcTrees.OcTree.CheckCollision | MainServer/CollisionDetector.cpp:124-191 | in place: answer, sphere and position are those of the check on the tree's value |
| OcTrees.OcTree.CheckChildren | MainServer/CollisionDetector.cpp:177-187 | the nested loops over the children are eight passes over all of them, each followed by one child again |
| OcTrees.OcTree.Push | MainServer/CollisionDetector.cpp:139-164 | the sphere moves along x or z, whichever correction is smaller |
| OcTrees.Load | MainServer/CollisionDetector.cpp:23-72 | a tree built and loaded with boxes is the tree the results above are about |
| Ownership.ReleaseCollectsExactly | GameClient/Rendering/GameObjectOwnership.h:17-83 | without cycles a release destroys exactly the objects nobody outside holds any more, each once; the shared stay |
| Ownership.ReleaseKeepsAccounts | GameClient/Rendering/GameObjectOwnership.h:67-83 | with or without cycles no dead object is ever released, and claims and edges balance afterwards |
| Ownership.DestroyedOnce | GameClient/Rendering/GameObjectOwnership.h:67-83 | every release ends; an object is destroyed at most once, and exactly the destroyed are gone |
| OwnershipRuns.DiesOnLastRelease | GameClient/Rendering/GameObjectOwnership.h:17-25 | an object with k references dies on exactly its max(1, k)-th release |
| OwnershipRuns.AttachKeepsChildren | GameClient/Rendering/GameObjectOwnership.h:33-65 | after AttachChild every earlier child is a child exactly once, in order, with the new one second |
| OwnershipRuns.AttachSparesOthersIff | GameClient/Rendering/GameObjectOwnership.h:33-65 | children of another owner stay as they are iff they include neither the first child of the one attached to nor, unless its sibling is that first child's already, the new child |
| OwnershipRuns.AttachBalancesIff | GameClient/Rendering/GameObjectOwnership.h:42-64 | claims and edges balance after attaching iff no sibling of the new child is overwritten |
| OwnershipRuns.AdoptingLeaks | GameClient/Rendering/GameObjectOwnership.h:56-60 | two owners and their children, where one adopts the other's first child too: the second child is held by nobody, and alive whatever else is released |
| OwnershipCycles.AttachStaysAcyclicIff | GameClient/Rendering/GameObjectOwnership.h:33-65 | attaching closes a cycle iff, without the sibling it overwrites, the new child leads to what then precedes it, or what then follows leads to it |
| OwnershipCycles.ReattachingClosesCycle | GameClient/Rendering/GameObjectOwnership.h:56-60 | attaching the first child once more, or an object to itself, always closes a cycle |
| OwnershipCycles.AliveIffHeld | GameClient/Rendering/GameObject.cpp:750-808 | over every lawful life of a heap, alive is exactly what somebody outside holds; once nobody does, nothing is alive |
| OwnershipCycles.NothingLeaks | GameClient/Rendering/GameObject.cpp:750-808 | the same from the empty heap on: when the last outside claim is gone, the heap is empty |
| GameObjects.GameObject.AddRef | GameClient/Rendering/GameObject.cpp:792-795 | one more reference, on this object only |
| GameObjects.GameObject.ReleaseCount | GameClient/Rendering/GameObjectOwnership.h:17-25 | says whether this was the last claim, where zero counts as one |
| GameObjects.GameObject.Release | GameClient/Rendering/GameObject.cpp:797-803 | in place: the heap of objects afterwards is that of a release on values |
| GameObjects.GameObject.Destroy | GameClient/Rendering/GameObject.cpp:750-756 | a dying object releases its child, then its sibling |
| GameObjects.GameObject.SetChild | GameClient/Rendering/GameObject.cpp:805-808 | in place: the heap of objects afterwards is that of an attachment on values |
| Accept.CounterCounts | MainServer/AcceptManager.cpp:42-65 | in every interleaving the counter is posted accepts plus unfinished handlers plus the registration in progress; neither assertion fails |
| Accept.DrainedForEver | MainServer/AcceptManager.cpp:114-118 | once drained after stopping, drained at every later moment, with nothing posted and no handler running |
| Accept.StoppedOnlyShrinks | MainServer/AcceptManager.cpp:107-112 | after stopping nothing is posted any more, and each finished handler takes one off the counter |
| Accept.AcceptManager.RegisterAccept | MainServer/AcceptManager.cpp:122-154 | posts iff the manager accepts and AcceptEx does; a failed call leaves counter and session as they were |
| Accept.AcceptManager.Processing | MainServer/AcceptManager.cpp:42-49 | the completed event gives up its session and is posted again, the handler still counts, and the session is handed to activation iff the manager accepts and its socket could be associated |
| Accept.AcceptManager.OnIocpError | MainServer/AcceptManager.cpp:57-65 | the same for a failed accept, and the handler is done |
| Accept.AcceptManager.FinishAccept | MainServer/AcceptManager.cpp:185-189 | the counter was positive and is one less |
| Accept.AcceptManager.InitAccept | MainServer/AcceptManager.cpp:68-105 | succeeds iff the listening socket could be set up and at least one of 1000 accepts be posted; if not the former nothing has happened, if not the latter the manager is stopped |
| Accept.AcceptManager.IsDrainedNow | MainServer/AcceptManager.cpp:114-118 | true only if nothing is posted and no handler runs |
| Broadcast.BroadcastsSoFar | MainServer/MatchState.cpp:14-20 | for every tick rate from 45 on, n ticks of a match make floor(45 n / rate) broadcasts and phase 45 n mod rate |
| Broadcast.AnySecondHas45 | MainServer/MatchState.cpp:14-20 | any `rate` consecutive ticks make exactly 45 broadcasts, from any phase |
| Broadcast.EvenlySpread | MainServer/MatchState.cpp:14-20 | any stretch of ticks has its share of broadcasts, up to one |
| Broadcast.RunTicks | MainServer/MatchState.cpp:61-72 | the loop of ticks counts as the formula says |
| DdsLayout.GetSurfaceInfo | GameClient/Platform/DDSTextureLoader12.cpp:540-698 | on bounded dimensions no 64-bit operation wraps; refused are unknown formats and odd heights of formats that need even ones; otherwise rows and bytes are the least that hold the surface (`DdsLayout.SurfaceHolds`) |
| DdsLayout.SurfaceHolds | GameClient/Platform/DDSTextureLoader12.cpp:630-680 | for every format a row is the least number of whole blocks, pairs or bytes that holds its texels, and the surface is its rows |
| DdsLayout.MipIs | GameClient/Platform/DDSTextureLoader12.cpp:1179-1200 | mip i of a dimension is that dimension shifted right by i, but at least 1 |
| DdsLayout.PlanesAdjoin | GameClient/Platform/DDSTextureLoader12.cpp:1060-1099 | the second plane of a split surface begins where the first ends, and ends with the surface, or has rows half as long |
| DdsLayout.MipsAdjoin | GameClient/Platform/DDSTextureLoader12.cpp:1135-1203 | one mip begins where the bytes of the last one end, and a slice where the mips of the last one end |
| DdsLayout.FillInitData | GameClient/Platform/DDSTextureLoader12.cpp:1103-1206 | succeeds iff every mip has a surface of 32-bit size, all slices fit the input and something was recorded; then the table is that of all planes |
| DdsLayout.EntriesInsideIff | GameClient/Platform/DDSTextureLoader12.cpp:1135-1203 | all entries of an accepted table lie inside the input iff the texture has depth, or no entries, or even the second plane of a mip without bytes begins inside |
| DdsLayout.EntriesInside | GameClient/Platform/DDSTextureLoader12.cpp:1060-1099 | with depth, everything an entry covers, adjusted planes included, lies inside the input |
| DdsLayout.DepthZeroEscapes | GameClient/Platform/DDSTextureLoader12.cpp:1135-1203 | an NV11 texture of depth 0 is accepted with no input bytes and an entry beyond them |
| DdsLayout.IndexFormula | GameClient/Platform/DDSTextureLoader12.cpp:1135-1203 | without a size limit mip i of slice j of plane p is entry i + mips (j + slices p), and begins where mips and slices before it end |
| DdsLayout.TableIndex | GameClient/Platform/DDSTextureLoader12.cpp:1153-1177 | with a size limit the same for the mips that are not passed over |
| DdsLayout.SkippedFirst | GameClient/Platform/DDSTextureLoader12.cpp:1153-1177 | the mips passed over are the first ones |
| DdsLayout.SkipCountIff | GameClient/Platform/DDSTextureLoader12.cpp:1173-1177 | skipMip is the number of mips passed over iff there is one plane or none was passed over |
| DdsLayout.SkipsTwice | GameClient/Platform/DDSTextureLoader12.cpp:1173-1177 | an accepted NV12 texture of which one of two mips is passed over, and both are counted |

## Left out

- Sockets, overlapped I/O, completion ports and the fixed-step loop: only pending counts and the order of steps are kept.
- Packets sent: broadcasts, replies and console output change nothing in the model; whether the sends of an initial room list fail is a parameter of the step.
- Interference inside one owner command: a command is one step, although I/O threads can act between its accesses to a session; its accesses to the clock are one reading.
- `ServerSession::ProcessPacket` as a method: its branches are the packet steps of `Protocol`, one per access to shared state. Login and registration data, and the validation of movement vectors in floating point, are not modelled; movement packets arrive as unit vectors.
- Removal after a refused enqueue: any session can be removed at any step, so it needs no step of its own.
- Wrap-around of session ids, generations and sequence numbers: sids stay below 32768, which is what a slot's int16 holds, and counters are unbounded.
- Random tokens: taken to be nonzero and new each time.
- The tests behind positions: the reach of a generator, the ray of an attack against a past picture, and where the collision pass leaves a player are functions of the parameter `Geometry`. The octree that the collision pass walks is modelled by itself.
- Generators' positions: constants that nothing changes.
- Rounding: coordinates are reals.
- The heap inside `std::priority_queue`: a queue is kept as the sequence in which it would be popped.
- The exception of a player lookup that finds nobody: the model sets `faulted` and stops the operation; `Theorems.RoomMatchCoupling` shows that it never happens.
- Events that push events while they run: no event of the server does.
- ClientSession connection handling, reconnection, and the dispatcher behind DispatchPackets.
- The file that boxes are read from: the tree is loaded from a sequence of boxes.
- Rendering, animation, sound, scenes, input, tools and diagnostics.
- GameRules.ShiftComponents: for looks of length 1, which is what movement packets are normalised to.
- Theorems.OneSlotPerSession: for disciplined clients only, because it is false of others, as `DuplicateSlots.UndisciplinedDuplicates` shows.
- Theorems.NoCommandPrecedesItsMatch: for disciplined clients only; for others `Theorems.EventsActInTheirOwnStay` still confines every event to the match and the stay it was admitted in.
- WorldRewinder.Rewinder.SetWorldStatusByFrame: for windows of at most 2^31 frames, two of which fit into the width of a frame number; the server's has 30.
- Theorems.AttacksSeeTheirTick: not in the last 30 ticks before the frame counter wraps, nor after it.
- MatchStates.MatchState.FinishTick: the rewinder inside a match is the log of its calls; `WorldRewinder.Rewinder` is the same rewinder as an object with its ring.
- DdsLayout.FillInitData: for inputs that do not end within one mip of the largest size of the top of the address space, so that moving past the end does not wrap; formats are given by their layout class instead of the table of format names; a null input is not modelled.
- Accept.AcceptManager.InitAccept: the six calls that set up the listening socket succeed or fail as one; a stopped manager is not initialised again.
- Accept.AcceptManager.Processing: what activation and the first receive do to the session is the activation step of `Protocol`.
- ServerSessions.ServerSessionManager.RequestRemoveSession: the run of it without interference; with interference its sections are the steps of `Protocol`, which `Theorems.AnnouncedExactlyOnce` is about.
- ServerSessions.ServerSessionManager.BeginShutdown: the same, with `Lifecycle.NothingActivatesAfterShutdown`.
- RoomManagers.RoomManager.UpdateRooms: a turn of the owner without I/O steps between its commands and with one reading of the clock; `Reachable` allows any of both between any two steps.
- OwnerRound.RoundReachable: the same turn on values.
- Scheduler.ClientEventScheduler.DoTasks: the readings of the clock are a given sequence.
