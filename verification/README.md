# Connect Four over message queues: a Dafny model

The system is a two-player Connect Four. A server owns the board and runs the
match; each of two client processes keeps a replica of the board that only
messages from the server change. The messages travel on one typed queue per
client, and a receive may ask for the lowest type first, so messages can overtake
each other. Signals (a client that leaves, a turn that runs out of time, Ctrl-C)
may arrive at any blocked receive.

## How the model is built

| module | what it holds |
|---|---|
| `Messages` | message types, the receive rule of `msgrcv` (XSI message queues, section 2.7 of the System Interfaces volume of POSIX.1-2017), the queue object |
| `Grid` | the board as a value: matrix, height index, gravity drop, four in line |
| `GameField` | the server's board object: arrays changed in place, the kernel fillers, the win scan |
| `Match` | one match as a state machine: the state at a blocked receive, signals, and the step that one wake-up performs |
| `MatchSafety`, `MatchTheorems`, `MatchAccounting` | the invariant of every run of a match, what follows from it, and the account of the messages sent |
| `Colouring`, `DrawRuns`, `Symbols` | the exact conditions, over all runs, under which draws and wins are right |
| `Session`, `Departures` | the main loop: matches played one after another, and clients that leave during a session |
| `Interrupts` | Ctrl-C and the alarm over a run: when the server's process ends, and which turn expires |
| `Server` | the server's objects, signal handlers, receive loop and match loop, each proved equal to the state machine |
| `Replica` | the client: what each message does to the replica, and the client's object and loop, proved equal to it |
| `ClientRuns`, `LoopSessions` | what the client's loop does with each message of any script, by an independent description; both clients' loops inside a session |
| `Agreement`, `Protocol` | the relation between board, replica and pending messages; server, clients and queues together, in every interleaving of a match |
| `FairClients`, `FairServer`, `FairSession`, `Ending` | any number of matches in which no turn times out: order of delivery, agreement, how clients leave, and that such a session can always end |
| `Writes`, `Tokens`, `Rematches` | every session, timeouts and signals included: every write stays on its board; which messages of a decided match may be pending |
| `Coherence`, `Catchup` | when the replicas agree with the board across rematches, exactly |
| `Staleness` | what a `GAME_END` that overtakes updates leaves behind within a match |
| `Scenes`, `StaleRun` | two runs in which a replica does not agree after a rematch |
| `Verdicts`, `Finals` | what a client's return value says about the server, and the converse: whoever is sent a final message leaves with its value |
| `FrameText`, `Render`, `FramePieces`, `FrameReading`, `FramePrompt` | the text of a frame and its inverse; the printer that fills the buffer; the frame as a picture: symbols, numbers, borders, cells and messages |
| `Connection`, `Args` | numbering of the players; the command line |

The imperative parts (`GameField`, `Server`, `ClientProcess`, `Render`, `Service`,
`MessageQueue`) are classes and loops over arrays. Each method's contract equates
the new state with a function of the old one, and the theorems are about those
functions. `Server.ServerLoop`, for instance, ends exactly where `Match.Play` ends,
having sent exactly the messages in its log; every theorem on `Match.Play` is
therefore one about the loop.

### What is assumed

- Rows and columns are at least 4 and fit `int32_t`: the parser checks this
  (`src/F4Server.c:24`).
- The two symbols differ and neither is the blank (`GoodSymbols`). The parser does
  not check it; `Args.ParserChecks` says exactly what it does check, and
  `Symbols.SymbolsExact` that the promises about wins hold in every run exactly then.
- For the theorems on draws and on the length of a match, `rows * columns` fits the
  32 bits in which the server multiplies (`NoWrap`). The parser lets larger boards
  through. `DrawRuns.DrawExactIff` shows that the condition is exact: on every larger
  board some run of the match, from its first wake-up on, ends as a draw with blank
  cells left (`EarlyDraw`) or fills the board without a draw (`MissedDraw`).
- `create_client` leaves `disconnected` uninitialised (`src/server/server.c:322-333`);
  the model takes it to be false.
- Where `client_render` is used, the frame with its messages fits the 2048 bytes of
  the buffer. The source does not check it.
- `SIGUSR1` and `SIGUSR2` are 10 and 12, so that `SIGUSR1 + 2 * playerCounter` names one of them.
- `read` on the pipe delivers the clients in the order in which they were written; any
  number of reads may fail.

### Where the code does not do the obvious thing

- `atLeastOnePoint` means that a move was received, accepted or not
  (`src/server/server.c:199`); `ForfeitMessages` is stated that way.
- The guard of the draw is a product in 32 bits (`DrawGuard`, `DrawExactIff`).
- The disconnection flags are never lowered, and a rematch is granted even when one is
  up (`GrantedAfterDeparture`); the match granted then ends at its first wake-up
  (`NothingAfterDeparture`).
- The test for ASCII symbols compares a signed `char` with 127 and refuses nothing
  (`src/F4Server.c:35`).
- A pending `GAME_END` is taken before a pending `TURN_START`, although sent after
  it, and an acknowledgement of the next match before a `GAME_END` of the last one. A
  client then wipes its replica with an old update still to come (`StaleTurnStart`), or
  wipes a disc of the match that is on (`LostDisc`). `Catchup` has the exact condition,
  which can be read off the server's board and the client's queue when the client takes
  its last `GAME_END`: no own disc on the board, and every older `TURN_START` names a
  cell that the opponent holds there again. From a clean wipe on the client agrees until
  the next one (`AgreementWhenClean`); from any other it does not as long as the stale
  cells are not played again (`AgreementExact`).
- Errors 601 and 602 overtake whatever else is pending, a `GAME_END` included
  (`FinalOvertakes`).
- `SIGALRM` that reaches a client outside its prompt costs it the first reading of the
  next prompt (`Replica.AnswerMeans`), and one alarm costs one turn (`ClientRuns.AlarmCostsOne`).
- `SIGALRM` that reaches the server with the winner's request for a rematch is not cleared: it
  expires the first turn of the next match (`Interrupts.AlarmCarriesOver`).
- A frame of 12 x 12 cells, which the parser accepts, is larger than the buffer
  (`TwelveByTwelve`); `FitsExactly` gives the exact condition.
- After a win, error 602 goes to the player who did not win, also when that is the one
  who left (`DecisionExit`).

## Model

| member | source | states |
|---|---|---|
| `Messages.MessageQueue.Receive` | src/utils/queue.c:26-34 | a receive removes and returns exactly the message that the rule of `msgrcv` designates, keeping the others in order, and would block exactly when none is eligible |
| `Messages.MessageQueue.SendGame` | src/utils/queue.c:16-24 | a game message goes to the end of the queue and nothing else changes |
| `Messages.MessageQueue.SendError` | src/utils/queue.c:58-66 | an error goes to the end of the same queue, with type `MSG_ERROR` |
| `Messages.Find` | src/client/client.c:431 | the search finds the designated message: first of a positive type, first of the lowest type for a negative one |
| `Messages.TakesExact` | src/utils/queue.c:26-34 | the rule spelled out: type 0 the head, a positive type the first of that type, a negative one the first of the lowest type not above its absolute value |
| `Messages.ClientOrder` | src/client/client.c:431 | a client's receive may return every kind of message: the first of the lowest kind, in the order error, acknowledgement, `GAME_END`, own move, `TURN_START`, `GAME_START` |
| `Messages.AscendingIsFifo` | inc/messages.h:7-13 | on a queue of strictly ascending types the lowest-type receive is first in, first out |
| `Messages.FifoExactly` | inc/messages.h:7-13 | a client takes all of a queue in send order if and only if the types never descend along it |
| `Grid.DropMeaning` | src/server/game.c:98-114 | a drop succeeds iff the column exists and its top cell is blank; the disc lands on a blank cell with only occupied cells under it, no other cell changes, a refused drop changes nothing, and the agreement of matrix and height index is kept |
| `Grid.DropCounts` | src/server/game.c:111-113 | an accepted drop adds one disc of its symbol, none of the other |
| `Grid.InitValid` | src/server/game.c:10-36 | the initial board satisfies the representation invariant and counts no disc |
| `Grid.CounterAgreement` | src/server/game.c:106-113 | the sum over the height index is the number of occupied cells, at most rows times columns, with equality exactly on the full board, which is exactly when no column takes a drop |
| `Grid.FullMeansNoRoom` | src/server/game.c:106-109 | the board is full iff every height index is 0 iff no column takes a drop |
| `Grid.FourInLineMeans` | src/server/game.c:248-288 | four in line means four cells with the symbol at equal steps along a row, a column or a diagonal, all on the board |
| `Grid.ScanComplete` | src/server/game.c:248-288 | looking right, down and along the two diagonals from every cell finds a line iff there is one in any of the eight directions |
| `Grid.NewLinesPassThrough` | src/server/server.c:197-223 | after a drop on a board without lines every line is of the dropped symbol and passes through the dropped disc |
| `Grid.EmptyBoardLine` | src/F4Server.c:29-40 | an empty board shows a line of a symbol iff the symbol is the blank, which the parser allows |
| `Symbols.SymbolsExact` | src/F4Server.c:29-40 | the promises about wins (`MatchTheorems.WinSoundness`) hold in every run iff the two symbols differ and neither is the blank |
| `Symbols.SharedSymbol` | src/F4Server.c:38-39 | with one symbol for both players, four drops give both four in line |
| `GameField.GameField.constructor` | src/server/game.c:10-36 | the arrays represent the initial board and the move counter is 0 |
| `GameField.GameField.Reset` | src/server/game.c:38-56 | from any state, the arrays represent exactly the board that initialisation produces |
| `GameField.GameField.SetPoint` | src/server/game.c:98-114 | the arrays after the call, and the returned row or -1, are those of the drop on the board value, also for negative moves |
| `GameField.GameField.CheckWin` | src/server/game.c:208-291 | true iff some run of four cells holds the player's symbol, for every board of at least 4x4 and whatever the kernels contain |
| `GameField.GameField.Scan` | src/server/game.c:248-290 | the nested loops return true iff there is a line |
| `GameField.GameField.ScanCell` | src/server/game.c:250-286 | one cell's checks succeed iff one of the four lines anchored there exists; the unsigned bounds never wrap and no index leaves the board |
| `GameField.GameField.ScanRight` | src/server/game.c:250-259 | the horizontal count reaches four iff that line exists |
| `GameField.GameField.ScanDown` | src/server/game.c:261-270 | the vertical count reaches four iff that line exists |
| `GameField.GameField.ScanDiagonals` | src/server/game.c:272-286 | one of the two diagonal counts reaches four iff one of the two lines exists |
| `GameField.InitDiagonalL` | src/server/game.c:198-206 | the filler sets the anti-diagonal although its `size_t` counter wraps at the end, and leaves the other cells alone |
| `GameField.InitDiagonalR` | src/server/game.c:189-196 | the filler sets the diagonal and leaves the other cells alone |
| `GameField.InitVertical` | src/server/game.c:181-187 | the filler sets the column |
| `GameField.InitKernels` | src/server/game.c:116-152 | four new kernels of the right sizes, filled with blanks |
| `MatchSafety.EveryRun` | src/server/server.c:80-316 | the invariant of a match (board, discs, turns, bounds) holds after every sequence of wake-ups |
| `MatchSafety.StepKeeps` | src/server/server.c:110-313 | every wake-up keeps the invariant |
| `MatchSafety.AcceptFacts` | src/server/server.c:197-223 | what an accepted move adds to the board: one disc, one count, and lines only of the mover through that disc |
| `MatchTheorems.WinSoundness` | src/server/server.c:197-223 | at every head of the loop no symbol has four in line; while the winner's answer is awaited the current player has and the opponent has not |
| `MatchTheorems.WinIsLocal` | src/server/server.c:197-238 | an accepted move enters the win branch iff the mover has a line, and then all lines on the board are the mover's and pass through the new disc; no other wake-up enters it |
| `MatchTheorems.DrawExact` | src/server/server.c:279-300 | if the number of cells fits 32 bits, the match ends with -4 iff the board is full and nobody has four in line |
| `MatchTheorems.DrawGuard` | src/server/server.c:86 | the 32-bit test for the last move is right for every move iff the number of cells fits 32 bits |
| `DrawRuns.EarlyDraw` | src/server/server.c:86-300 | on every board whose number of cells exceeds 32 bits and is no multiple of 2^32, a run from the start of the match ends with -4 although cells are blank, and shows no line |
| `DrawRuns.MissedDraw` | src/server/server.c:86-300 | on every board with a multiple of 2^32 cells, a run fills the board without a line and the match goes on |
| `DrawRuns.DrawExactIff` | src/server/server.c:86-300 | the return value -4 is right in every run of a match iff the number of cells fits 32 bits |
| `DrawRuns.DrawAfter65536` | src/server/server.c:86 | on 65536 x 65537 cells, 65536 wake-ups from the start end the match as a draw on a board that is not full |
| `DrawRuns.Fills` | src/server/server.c:197-313 | as long as the counter does not meet the product, alternating drops fill pairs of columns, each counted, and the match goes on |
| `MatchTheorems.FairTurns` | src/server/server.c:302-308 | at every loop head the turns used by the two players differ by 0 or 1 according to who is to move, and each player's accepted moves are that player's discs |
| `MatchTheorems.RefusalExact` | src/server/server.c:197-206 | error 400 goes to the mover iff the move is refused; then the column has no room and board, turn and counters stay as they were |
| `MatchTheorems.CounterAtHead` | src/server/server.c:279 | at every loop head the move counter is the number of occupied cells and the sum over the height index, is below the number of cells if that fits 32 bits, and then some column accepts a drop; while the winner's answer is awaited it lacks the winning disc |
| `MatchTheorems.BoundedMatch` | src/server/server.c:143-195 | at most rows*columns accepted moves and 3*rows*columns+8 timeouts, or +4 if the number of cells fits 32 bits; both timeout counters at most 3, and each player's timeouts at most 3 times the own moves plus the counter |
| `MatchTheorems.MeasureDecreases` | src/server/server.c:110-313 | a lexicographic measure falls at every wake-up but a refused move or an interruption without a flag, which leave it alone |
| `MatchTheorems.ForfeitExact` | src/server/server.c:143-174 | the match ends with -3 iff its last event is the fourth timeout of a player since that player's last accepted move |
| `MatchTheorems.HandleCounts` | src/server/signals.c:28-37 | after any list of signals the counter is the number of client signals, a player is marked iff that client signalled, and the flag is up iff anyone did |
| `MatchTheorems.DisconnectExit` | src/server/server.c:118-141 | whoever had signalled before the match: who gets error 601 and what is returned, from the signals heard at the flag test and at the counter test; -2 iff exactly one client left, if none signals twice |
| `MatchTheorems.CounterIsMarked` | src/server/signals.c:28-37 | the counter is the number of marked players iff no client signalled twice |
| `MatchTheorems.DecisionExit` | src/server/server.c:240-276 | whoever had signalled before the match: rematch iff asked for; silence iff interrupted after both clients left; otherwise error 602 to the non-winner and -1 |
| `MatchTheorems.GrantedAfterDeparture` | src/server/server.c:240-267 | a rematch is granted although a client has left, and the next match begins with the flag up |
| `Departures.SessionExits` | src/F4Server.c:74-84 | both exits at every wake-up of every match of every session, from all the signals that the session handled so far |
| `Departures.OpeningFlags` | src/server/signals.c:28-37 | each match of a session begins with marks, counter and flag that tell the signals of all earlier matches |
| `Departures.NothingAfterDeparture` | src/server/server.c:118-141 | once a client has left, whatever wakes the server first in a later match ends it without a move |
| `MatchAccounting.MessageAccounting` | src/server/server.c:106-312 | in every run: acknowledgements = accepted moves, start messages = turns handed over, errors 400 = refusals, errors 408 = timeouts that do not forfeit, one `GAME_END` to each player of a won or drawn match with the winner flag to the winner alone, 600 and 450 for a forfeit |
| `MatchAccounting.ForfeitMessages` | src/server/server.c:145-173 | a forfeit sends 600 to the loser, then 450 to the opponent, which claims a victory iff the server had received some move, and SIGALRM to the opponent and then to the loser |
| `MatchAccounting.SignalAccounting` | src/server/server.c:169-179 | in every run: one SIGALRM to a player per own timeout and one more to the opponent of a player who forfeits; SIGUSR1 to both, once, iff a repeated Ctrl-C ended the server |
| `Session.RematchRuns` | src/F4Server.c:74-84 | every match of a session starts on the initial board, keeps the invariant, and is opened by the player whom the previous match did not return, who gets the first message |
| `Session.RematchIsEarned` | src/server/server.c:223-267 | in every session, every match after the first is owed to the player who does not start it: in the match before, that player alone had four in line, and the server took that player's request to restart |
| `Session.RematchStep` | src/server/server.c:264-267 | the wake-up that grants a rematch took the request of the player with a line, and the board is again the initial one |
| `Session.PlayedSnoc` | src/F4Server.c:74-84 | a match depends on nothing that the previous one left and `server_loop` overwrites |
| `Server.Server.SigUsrHandler` | src/server/signals.c:28-37 | sets exactly the mark, counter and flag of the handler's step |
| `Server.Server.SigIntHandler` | src/server/signals.c:9-26 | flags and signals sent are those of the handler's step; the next three rows say what that amounts to |
| `Interrupts.PressesCount` | src/server/signals.c:9-26 | any list of signals ends the process iff it had ended or the presses in it and the one remembered are at least two; otherwise one is remembered iff there was one |
| `Interrupts.KilledExact` | src/server/server.c:110-313 | in every run, a wake-up ends the process iff the presses since the last head of the loop, the winner's wait included, reach two, counting those before the test of the departure counter if a player is told of a departure; then both clients get SIGUSR1 |
| `Interrupts.HeadForgets` | src/server/server.c:111 | at every new head of the loop a single press is forgotten |
| `Interrupts.ExpiryExact` | src/server/server.c:143-195 | in every run begun without an alarm, a turn expires iff an alarm came in its own wait, nobody has left and the process goes on; none is carried to the next turn or to the winner's wait |
| `Interrupts.AlarmCarriesOver` | src/server/server.c:240-267 | an alarm that comes with a granted request expires the first turn of the next match |
| `Server.Server.QueueReceive` | src/server/queue.c:13-44 | an interrupted receive is retried exactly while neither flag is up; the flags are those of the signals handled |
| `Server.Server.GetConnectedPlayer` | src/server/server.c:53-64 | the first player not marked disconnected, or none |
| `Server.Server.OnDisconnection` | src/server/server.c:118-141 | new state and messages are those of the disconnection step |
| `Server.Server.OnTimeout` | src/server/server.c:143-195 | new state, messages and alarms are those of the timeout step |
| `Server.Server.OnForfeit` | src/server/server.c:145-173 | 600 to the player to move, the turn passes, 450 to the other, SIGALRM to the other and then to the player who lost |
| `Server.Server.OnTurnLost` | src/server/server.c:175-194 | SIGALRM and 408 to the player to move, the turn passes, `GAME_START` to the other |
| `Server.Server.OnMove` | src/server/server.c:197-206 | new state and messages are those of the move step, accepted or refused |
| `Server.Server.OnAccepted` | src/server/server.c:208-312 | new state and messages are those of an accepted move, with the scan run on the arrays |
| `Server.Server.OnWin` | src/server/server.c:223-238 | the two `GAME_END` messages of a win, and only the timeout flag changes |
| `Server.Server.OnDraw` | src/server/server.c:279-295 | the two `GAME_END` messages of a draw |
| `Server.Server.OnNextTurn` | src/server/server.c:302-312 | the mover's counter is cleared, the turn passes, `TURN_START` goes to the next player |
| `Server.Server.OnAnswer` | src/server/server.c:240-276 | new state and messages are those of the decision step |
| `Server.Server.StartMatch` | src/server/server.c:98-111 | the start of a match: turn, both counters, the first message |
| `Server.Server.Iteration` | src/server/server.c:110-313 | one blocked receive and what follows is exactly one step of the machine |
| `Server.Server.ServerLoop` | src/server/server.c:80-316 | the loop ends in exactly the state, and with exactly the messages and signals, of the run of the machine |
| `Server.Server.PlayMatches` | src/F4Server.c:73-84 | the main loop plays exactly the matches of a session, until one does not return a player index |
| `Server.FinishedStays` | src/server/server.c:240-300 | once the loop has returned, later wake-ups change nothing |
| `Replica.AnswerMeans` | src/client/client.c:237-307 | there is a first reading that is the alarm or the number of a column, and before it only numbers of none: the answer is to give up, or column n - 1 for the number n; without such a reading there is no answer; an alarm from before the prompt turns the first reading, whatever it is, into giving up |
| `Replica.ClientProcess.GetMove` | src/client/client.c:237-271 | a column number, -1 for an unusable line, -2 once the alarm went off |
| `Replica.ClientProcess.AskMove` | src/client/client.c:288-305 | the prompt loop ends with the answer of `Replica.AnswerMeans` and sends the move of a column, or nothing after an alarm, and forgets the alarm; `FramePrompt.TypedIsLabel` says which column that is on the screen |
| `Replica.ClientProcess.ProcessError` | src/client/client.c:91-162 | each error code leads where the client's step leads; `ClientRuns.FinalErrors` and `Finals.ExitExact` say where that is |
| `Replica.ClientProcess.ProcessGameEnd` | src/client/client.c:180-235 | replica, answer sent and return value are those of the client's step, which `ClientRuns.IterateReacts` and `WinnerAnswers` describe |
| `Replica.ClientProcess.Dispatch` | src/client/client.c:435-464 | the switch performs exactly the step of the message taken |
| `Replica.ClientProcess.SetPointIndex` | src/client/game.c:83-88 | one cell of the replica changes |
| `Replica.ClientProcess.Reset` | src/client/game.c:30-44 | the replica is blank |
| `Replica.ClientProcess.ClientLoop` | src/client/client.c:410-477 | over any script of messages and inputs the replica, the messages sent and the exit are those of the client's step function `Serve`, about which the lemmas of `ClientRuns` are |
| `ClientRuns.IterateReacts` | src/client/client.c:410-477 | one iteration, message by message: which cell changes and to what, what is sent, where the loop goes, and what becomes of the alarm |
| `ClientRuns.LastDelivery` | src/client/client.c:410-477 | after any script, the next message has that effect if the loop is ready, and none otherwise |
| `ClientRuns.WinnerAnswers` | src/client/client.c:190-215 | a winner's `GAME_END` makes the loop send exactly the player's answer; whoever confirms stays, on a blank replica, whoever does not leaves with -7 |
| `ClientRuns.FinalErrors` | src/client/client.c:91-162 | errors 450 and 600, 601, 602 end the loop with -3, -5, -8, and nothing more is taken, written or sent, whatever comes |
| `ClientRuns.AlarmCostsOne` | src/client/client.c:237-271 | over any script, the turns given up and the alarm still pending are no more than the alarms that came |
| `ClientRuns.AlarmIsKept` | src/client/client.c:237-271 | until a turn is given up an alarm is pending iff one came between prompts |
| `LoopSessions.TurnIsTwo` | src/client/client.c:410-477 | an iteration of the loop is the client's receive followed by one answer of its player, or by none, and which answer the inputs fix |
| `LoopSessions.LoopsAreSessions` | src/client/client.c:410-477 | whatever a server and two clients that run the loop do, some interleaving of `Writes.AnyReach` does, up to pending alarms |
| `LoopSessions.LoopServes` | src/client/client.c:410-477 | in such a system each client is at any time what `Serve` makes of the messages it was delivered |
| `LoopSessions.LoopVerdict` | src/client/client.c:466-470 | so the verdicts of `Verdicts.VerdictsAgree` hold of the running loops |
| `Agreement.AgreeDrop` | src/server/server.c:210-238 | a disc and the message that announces it keep the agreement of board, replica and pending updates |
| `Agreement.AgreeTake` | src/client/client.c:273-282 | whichever message is taken, the write is on the board and on a blank cell and the rest still agrees |
| `Agreement.OverlayAgrees` | src/client/client.c:309-316 | the replica overlaid with the pending updates is the board |
| `Agreement.DrainAnyOrder` | src/client/client.c:429-458 | in whatever order the pending messages are taken, the replica ends as the board |
| `Protocol.ReachKeeps` | src/client/client.c:410-477 | the joint invariant holds in every interleaving of server steps, client steps, answers and quits |
| `Protocol.ReplicaAgreement` | src/server/server.c:197-312 | until a client takes a `GAME_END`, its replica overlaid with its pending updates is the server's board; a client with nothing pending holds exactly the board |
| `Protocol.AgreementInAnyOrder` | src/client/client.c:429-463 | the same for every order in which the pending messages are taken |
| `Protocol.WritesLandOnBlanks` | src/client/game.c:83-88 | every cell written is inside the board and blank on the replica, and gets the symbol the board has there |
| `Protocol.RefusedOnlyIfFull` | src/client/client.c:289-304 | with these clients every move received is a column of the board and is refused iff that column is full |
| `FairSession.PriorityIsFifo` | src/client/client.c:429-463 | in sessions without timeouts, over any number of matches, whoever leaves or interrupts: on each queue the server's messages but for a final error ascend strictly, so each is taken in the order it was sent; until the server leaves the session that is the head of the queue |
| `FairSession.AgreementAcrossRematches` | src/F4Server.c:74-84 | in such sessions, at every loop head of every match, each replica after its pending messages is the server's board |
| `FairSession.FairExits` | src/client/client.c:466-470 | in such sessions a client that does not quit leaves only with -4 after a draw, -5 after a disconnection, -7 as the winner of a match without a rematch, or -8 as its loser |
| `FairServer.FairReachKeeps` | src/client/client.c:410-477 | the invariant on both seats holds after any sequence of turns |
| `FairSession.FinalOvertakes` | src/server/server.c:128-131 | once error 601 or 602 is pending the client takes the oldest error, ahead of everything else that is pending, and a final one makes it leave, whatever it has not seen |
| `FairSession.NoDeadlock` | src/server/server.c:110-313 | as long as the loop is on, or a rematch is due, and the player to act has not quit, some turn without a signal changes the state |
| `Ending.CanEnd` | src/server/server.c:110-313 | from every state of such a session that neither client has quit, some turns without a signal lead to a return of the loop that no match follows |
| `Staleness.ResetIsClean` | src/client/client.c:460-464 | after the loser's reset the pending messages leave the replica blank iff no `TURN_START` was pending |
| `Staleness.RematchReplica` | src/client/client.c:190-233 | in every interleaving of one match, up to the start of the next: the replica of the loser, or of a winner who restarts, is wiped, and what was pending leaves it blank iff no `TURN_START` was pending |
| `Staleness.ReachEnds` | src/server/server.c:223-297 | in every interleaving at most one `GAME_END` is pending for a client, and none before the match is decided or after one was taken |
| `Catchup.AgreementWhenClean` | src/client/client.c:429-464 | in every match of every session, timeouts and signals included: at a loop head with no `GAME_END` pending for a client whose last wipe was clean, its replica after the pending messages is the board, in whatever order they are taken |
| `Catchup.WipeExact` | src/client/client.c:460-464 | in every session, when a client wipes its replica with no other `GAME_END` pending, the replica after the pending messages is the board of the present match iff that board has no own disc and every older `TURN_START` names a cell that the opponent holds there |
| `Catchup.AgreementExact` | src/client/client.c:429-464 | at every later loop head of that match on which no stale cell has been played: agreement iff the wipe was clean |
| `Rematches.AnyReachInv` | src/server/server.c:223-267 | in every session: one token of a win at a time, and only for its winner; behind the last pending `GAME_END` a queue holds only what the present board shows, and every disc of the opponent |
| `StaleRun.StaleTurnStart` | src/client/client.c:273-282 | on every board, from the opener's first turn: a run after which the next match has begun, its board is blank, and the loser's replica shows a disc of the finished match |
| `StaleRun.LostDisc` | src/server/server.c:264-267 | on every board, from the opener's first turn: a run without any `TURN_START` left over after which the next match has begun, its board shows the loser's disc, and the loser's replica is blank with nothing pending that would bring it |
| `Writes.WritesStayOnBoard` | src/client/game.c:83-88 | in every interleaving of a session of any number of matches, timeouts and signals included, every pending message, stale or not, writes a cell of the client's board |
| `Verdicts.VerdictsAgree` | src/client/client.c:91-162 | in every session, timeouts and signals included, the client never meets an unknown error code; -3 only after a forfeit, -4 a draw, -5 a disconnection; -7 only for the current player of a decided match that no rematch follows; -8 only for the other one |
| `Verdicts.WhyDeclined` | src/server/server.c:240-276 | whoever leaves with -8, or has error 602 pending, was sent it by a wake-up that ended the decision of the opponent's win: a request without a restart, silence, or a departure |
| `Verdicts.DeclineExact` | src/server/server.c:240-276 | error 602 is sent exactly at such a wake-up, and to the player who did not win |
| `Verdicts.StepSpeaks` | src/server/server.c:118-300 | every message a step sends fits the phase it leads to |
| `Finals.ExitExact` | src/client/client.c:91-235 | a client leaves on errors 450, 600, 601 and 602 and on the `GAME_END` of a draw, each with its value, and on no other message |
| `Finals.LeftForGood` | src/client/client.c:466-470 | in every session a client that has left takes, writes and answers nothing more; only an interrupt still reaches it |
| `Finals.FinalsArrive` | src/server/server.c:118-300 | in every session, from the wake-up that sends a client a final message on, that message is pending, or the client has left with exactly its value, or has quit, and no other final value is on its queue |
| `Finals.EndsAreTold` | src/client/client.c:119-127 | after a forfeit each client still has its 450 or 600 pending, has left with -3, or has quit; after a draw its `GAME_END`, or -4, or has quit |
| `FrameText.ExactLength` | src/client/client.c:343-390 | without messages the frame has 50 + 14*rows + 12*columns*(rows+1) bytes iff rows <= 999 and columns <= 9999, and more otherwise |
| `FrameText.CellAtOffset` | src/client/client.c:367-390 | cell (i, j) is found at its offset whatever messages follow; the corner writes miss it |
| `FrameText.OffsetIs` | src/client/client.c:367-388 | the offset is 58 + 12*columns + i*(14 + 12*columns) + 6*j |
| `FrameText.FrameInvertible` | src/client/client.c:332-408 | the board is read back from the frame |
| `FrameReading.SymbolsRead` | src/client/client.c:339-344 | byte 11 of every frame is the client's own symbol and byte 34 the opponent's, between the two fixed texts, whatever the board and the messages |
| `FrameReading.ColumnNumber` | src/client/client.c:349-352 | the four characters above column j read as the number j + 1, blanks and then digits without a leading zero, and its last digit stands above the cells of the column |
| `FrameReading.RowNumber` | src/client/client.c:367-369 | the three characters left of row i read as i + 1 |
| `FrameReading.PictureExact` | src/client/client.c:354-390 | every character of the drawing, by line and position: corners, borders, walls, cells, line ends |
| `FramePrompt.MessagesRead` | src/client/client.c:392-403 | behind the drawing there is nothing, or an empty line and then every message, in order and in full, each with its own line if there are several |
| `FramePrompt.TypedIsLabel` | src/client/client.c:288-304 | if the answer to a prompt is a column, the number typed is the one shown above it, and the disc of that move is shown under that number's last digit, in the row where it lands |
| `Render.ClientRender` | src/client/client.c:332-408 | the buffer holds exactly the frame, and the returned length is its length; the rows of `FrameReading` say what the frame shows |
| `Render.FitsExactly` | src/client/client.c:322-330 | the frame with its messages fits the buffer iff the length formula plus the messages does |
| `Render.TwelveByTwelve` | src/client/client.c:322-408 | the frame of a 12 x 12 board, which the parser accepts, has 2090 bytes and never fits |
| `Render.PrintBody` | src/client/client.c:367-388 | the row loop writes exactly the body at the running offset |
| `Render.PrintHeader` | src/client/client.c:343-365 | the head of the frame, which `FrameReading.SymbolsRead` and `ColumnNumber` read |
| `Render.PrintMessages` | src/client/client.c:392-403 | the messages after the board, where `FramePrompt.MessagesRead` finds them |
| `Render.FixCorners` | src/client/client.c:389-390 | the two corner writes |
| `Connection.Service.ConnLoop` | src/server/connection_manager.c:33-70 | the n-th client let in is told the symbols and signal of index n modulo 2, and the pipe carries the same clients with the same symbols, however many connect; every answered request gets one answer, in order, a rejection iff a game was on |
| `Connection.KeptInOrder` | src/server/connection_manager.c:33-70 | the requests let in, the requests answered and the welcomes are complete and in order: each comes after as many as there are before it |
| `Connection.AddClients` | src/server/server.c:365-388 | the first two clients read are registered in order with the symbol of their index |
| `Connection.ArrivalsJoin` | src/server/server.c:365-388 | the clients read are those of the reads that succeed, earlier ones first |
| `Connection.Connect` | src/server/connection_manager.c:33-70 | service and server together, for any requests and any failed reads: client k is told symbols[k] and opponent symbols[1-k], is registered as player k with the queue it was told, and its signal makes the handler mark player k and nobody else |
| `Args.ParserChecks` | src/F4Server.c:13-43 | arguments pass iff there are five, the board is at least 4x4 and each symbol is one byte; the result is those rows, those columns and the two bytes in order; usable symbols are exactly those that differ and are not blank |
| `Args.ParserMisses` | src/F4Server.c:13-43 | two blank symbols and a board of 2^32 cells pass |

## Left out

- Real IPC and process control (`msgget`, `msgctl`, `fork`, `pipe`, shared memory, `alarm`, and what `kill` does at the receiver): signals are lists that the environment chooses at each blocked receive, messages move between sequences.
- A full or removed queue: `msgsnd` and `msgrcv` errors other than `EINTR` end the process in the source.
- Signals that arrive while the server is not blocked are counted with the next receive, except those between the two tests of a disconnection, which are the wake-up's `late` signals.
- `wait_queue_empty` and the pauses: they only delay the end of a match.
- Real time: a timeout is the environment's choice to deliver `SIGALRM`.
- The logger, `print_game_field`, `print_server`, `clear_terminal` and other terminal output; of `client_render` the bytes are modelled, of the texts of errors only which one is sent.
- `memcpy` packing of payloads and struct layout: messages are a datatype.
- Pausing and resuming the connection service, and the receive of the handshake by process id: they depend on scheduling. A request carries whether a game was on when it was read.
- Allocation and freeing, of kernels in particular.
- 32-bit wrap-around of `disconnectionCounter` and `timeoutCounter`: the former would need 2^32 signals, the latter never exceeds 4.
- `GameSettings` and `GameField` are one class, since the settings only hold the move counter and the field.
- `Server` keeps what it sends as one list; `Protocol` distributes the same messages over the two queues, and one server step or one client step is atomic there.
- The two lists of messages and signals that `Server` keeps do not tell the order between a message and a signal.
- In `Protocol` a client that leaves does not itself signal the server: the signals of each wake-up are arbitrary, which covers it.
- What a replica shows while a `GAME_END` of an earlier match is still pending for it: `Catchup` speaks of it from the moment at which the last one is taken.
- Boards below 4x4, which the parser refuses (`test/src/server/test_server_game.c:23` builds a 2x2 board, on which the unsigned bounds of the scan wrap).
- Replica.ClientProcess.ProcessGameEnd: requires that the update is a cell of the board, as SetPointIndex does.
- Replica.ClientProcess.Dispatch: requires that the update is a cell of the board, as SetPointIndex does.
- Replica.ClientProcess.ClientLoop: requires that every update of the script is a cell of the board, as SetPointIndex does.
- Replica.ClientProcess.SetPointIndex: requires a cell of the board, which the source does not check; `Writes.WritesStayOnBoard` shows that it holds for every message of every session.
- Render.ClientRender: requires that the frame fits the buffer, which the source does not check; `Render.FitsExactly` gives the condition.
