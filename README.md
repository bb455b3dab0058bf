# Smacktalk Showdown room engine, in Dafny

This project models the server-side room engine of the Smacktalk Showdown party-game server
(`server/server.js`), written in JavaScript for Node.js and socket.io. Players join a room by its
code and ready up. Once at least two players are all ready, a 15-second countdown starts the
session. Each round has a 45-second vote on a mini-game and a 60-second round of "guess the
number", then a 3.5-second settle pause. A session lasts 3 rounds, or 4 when it starts with more
than five players. At game over every ready flag is reset.

Modules, one per component of the server:

- `Wrappers`: `Option`, standing for JavaScript's `null`/`undefined`.
- `Registry`: the ordered user list of a room. Users are keyed by the persistent `userId` and
  carry the transient socket `id`. Covers upsert/reconnect, the ready flag, the all-ready test,
  removal by socket, the reward, and the leaderboard snapshot.
- `Voting`: the vote object. It is kept as its entries in insertion order, the order in which
  `Object.keys` and `Object.values` list string keys. Covers the re-vote overwrite and the
  tally.
- `GuessNumber`: the mini-game's constants and its winning test.
- `Rooms`: one room as a value, with one function per handler and per game-flow step. Each
  function gives the room after the step and the messages broadcast to it, in order.
- `RoomInvariants`: the room invariant `RoomOk`, including "at most one live timer, and it
  belongs to the current phase", and proofs that every step keeps it.
- `SessionProperties`: what the session promises: the countdown, the voting, the scoring,
  monotone scores, settling, joining and host failover.
- `Findings`: the `playerReady` and `submitAnswer` handlers exactly as the source writes them,
  with concrete runs that show what goes wrong.
- `Server`: the imperative server. Class `RoomServer` holds the `rooms` map. It has one method
  per socket handler, per timer callback and per game-flow function, each updating the map in
  place, and a ghost log `sent` of every broadcast. Every method is proved equal to the step
  function of `Rooms` for the room it touches. Every socket handler and timer callback also
  keeps `RoomOk` for every room.

Timers are explicit. Each `setInterval`/`setTimeout` is a `Timer` value (`Countdown(seconds)`,
`VoteClock(seconds)`, `RoundClock(seconds)` or `Settle(hasMore)`). It is stored in the room's
`timers` map under the handle the call returned. As in the source, `gameTimer` and
`gameState.roundTimer` hold handles, and `clearInterval` removes a handle. Each timer callback is
a method (`CountdownTick`, `VoteTick`, `RoundTick`, `SettleFire`) that the environment calls
with a live handle. Handles come from a counter, `nextHandle`.

Behaviour of the code a reader might not expect:

- `hostId` holds a socket id, not a player identity. A reconnect changes the user's socket id
  but not `hostId` (`HostReconnect`).
- `leaveRoom` removes users by socket id, exactly like `disconnect`. There is no removal by
  identity.
- The countdown is armed whenever all users are ready and no countdown exists, not only on a
  transition from "not all ready" to "all ready". The code arms it even during a session; the
  model arms it only when no session is running (see "Findings").
- The vote tally sorts `Object.values(votes)` by descending frequency and takes the first
  element. `Array.prototype.sort` is stable, so among equally frequent choices the one listed
  first wins, which is not necessarily the first vote cast. The model promises only "a most
  frequent vote".
- After game over the session is kept with phase `"over"`, not discarded.

## Model

| member | source | states |
|---|---|---|
| Registry.Find | server/server.js:36 | The index of the first user with the given `userId`, or none when no user has it |
| Registry.Upsert | server/server.js:36-48 | An existing `userId` only gets the new socket id; every other user, its coins, wins and ready flag are unchanged, and nobody is added. An unseen `userId` is appended, not ready, with coins and wins from the payload or 0. `userId`s stay unique |
| Registry.SetReady | server/server.js:62-63 | Only the user with that `userId` has its ready flag set; nothing changes for an unknown id |
| Registry.AllReadyNeedsEveryone | server/server.js:68 | A room with fewer than 2 users is never all-ready; unreadying a member or adding a new user makes it not all-ready |
| Registry.RemoveBySocket | server/server.js:154 | Exactly the users whose socket id differs are kept |
| Registry.RemoveBySocketAppend | server/server.js:154 | The filter distributes over concatenation, so the kept users keep their relative order |
| Registry.RemoveBySocketAbsent | server/server.js:154 | Removing a socket that no user has changes nothing |
| Registry.RemoveBySocketFirst | server/server.js:154-157 | The first user left is the earliest-joined user with another socket |
| Registry.RemoveBySocketUnique | server/server.js:154 | Removal keeps `userId`s unique |
| Registry.ClearReady | server/server.js:307 | The loop resets every user's ready flag and nothing else, so the room is not all-ready |
| Registry.Credit | server/server.js:277-280 | The user with the winner's id gains exactly +3 coins and +1 win; nobody else changes, and no one's coins or wins decrease |
| Registry.Snapshot | server/server.js:185-190 | The leaderboard has exactly one entry per member, holding that member's name, coins and wins |
| Registry.CreditBoard | server/server.js:281-282 | The winner's entry gains +3 coins and +1 win; other entries and the key set are unchanged, and an absent entry stays absent |
| GuessNumber.WinsOnlyOnce | server/server.js:144 | Once a winner with a non-empty id is recorded no answer wins again; before that exactly the target wins |
| Voting.VoterIndex | server/server.js:124 | The position of the voter's entry, or none when the user has not voted |
| Voting.RecordVote | server/server.js:124 | A re-vote replaces the voter's entry in place: other entries are unchanged and, voters being distinct, the voter's entry holds the new choice. A first vote is appended. Voters stay distinct |
| Voting.VoteMapKeys | server/server.js:127 | The keys of the vote object are exactly the voters |
| Voting.VoteMapSet | server/server.js:124 | Overwriting a voter's entry changes the object at that voter's key only |
| Voting.VoteMapSnoc | server/server.js:124 | A first vote adds that voter's key to the object |
| Voting.RecordVoteMap | server/server.js:124-125 | The broadcast vote object is the old one updated at exactly the voter's key |
| Voting.VoteCountIsVoters | server/server.js:127 | `Object.keys(votes).length` equals the number of distinct voters |
| Voting.MostFrequent | server/server.js:229-232 | The result is one of the votes and no vote occurs more often |
| Voting.ChooseGame | server/server.js:228-233 | With no votes the first option is chosen. Otherwise the choice is a most frequent vote. When all votes are legal options, the choice is an option |
| Rooms.EndRoundAsWritten | server/server.js:271-311 | `endRound` as written: the cleared round clock is no longer live but `roundTimer` still names it; a settle timeout carrying "rounds remain" is scheduled; phase and round are unchanged; nobody is paid unless the winner is a truthy member |
| RoomInvariants.TimerOwner | server/server.js:69-94 | Every live timer belongs to the current phase: the countdown is `gameTimer`; a vote or round clock is `roundTimer` in its own phase; a settle timeout exists only after the round clock is gone |
| RoomInvariants.AtMostOneTimer | server/server.js:73-87 | A valid room has at most one live timer |
| RoomInvariants.JoinNewRoomOk | server/server.js:22-32 | A room created by a first join is valid |
| RoomInvariants.JoinRoomOk | server/server.js:36-48 | Joining keeps a room valid |
| RoomInvariants.PlayerReadyOk | server/server.js:59-95 | `playerReady` keeps a room valid |
| RoomInvariants.SendMessageOk | server/server.js:98-103 | Chat keeps a room valid |
| RoomInvariants.RemoveUserOk | server/server.js:151-158 | A room that keeps a user after a socket leaves stays valid |
| RoomInvariants.StartGameOk | server/server.js:172-195 | Starting a game from a lobby without timers gives a valid room |
| RoomInvariants.CountdownTickOk | server/server.js:73-87 | A countdown tick keeps a room valid |
| RoomInvariants.FinishVotingOk | server/server.js:224-238 | Finishing a vote leads to a valid playing room |
| RoomInvariants.VoteTickOk | server/server.js:211-221 | A vote-clock tick keeps a room valid |
| RoomInvariants.CastVoteOk | server/server.js:119-133 | `castVote` keeps a room valid |
| RoomInvariants.EndRoundOk | server/server.js:271-311 | Ending a round leaves exactly the settle timeout live |
| RoomInvariants.RoundTickOk | server/server.js:258-267 | A round-clock tick keeps a room valid |
| RoomInvariants.SubmitAnswerOk | server/server.js:136-148 | `submitAnswer` keeps a room valid |
| RoomInvariants.SettleFireOk | server/server.js:299-310 | The settle timeout keeps a room valid |
| SessionProperties.PlayerReadyCountdown | server/server.js:67-94 | After `playerReady` a countdown exists exactly when at least two users are all ready and no session runs. A new countdown starts at 15 and is announced; a running one is not restarted; cancelling broadcasts `countdown null` |
| SessionProperties.CountdownTickCancels | server/server.js:73-79 | A tick when not all users are ready (or fewer than two remain) clears the countdown, leaves no timer and no session, and broadcasts only `countdown null` |
| SessionProperties.CountdownTickStarts | server/server.js:80-87 | The tick that reaches 0 starts the session: round 1 of 3, or of 4 with more than five players, voting with no votes, the leaderboard snapshot, the vote clock as the only timer, and `countdown 0` then `gameStart` |
| SessionProperties.CountdownTickCounts | server/server.js:80-87 | Any other tick lowers the count by one, keeps the countdown and announces the new count |
| SessionProperties.CastVoteRejected | server/server.js:120-122 | Outside voting, or for an option not offered, nothing changes and nothing is broadcast |
| SessionProperties.CastVoteOutcome | server/server.js:124-127 | An accepted vote broadcasts the vote object updated at exactly the voter's key, and its key count equals the number of distinct voters |
| SessionProperties.CastVoteCloses | server/server.js:124-132 | An accepted vote is kept, and the voting ends exactly when the number of voters reaches the number of users |
| SessionProperties.VoteTickOutcome | server/server.js:211-221 | Voting ends exactly when the clock reaches 0 or everyone voted. The game played is the tally's choice, an offered option, the first option when nobody voted. The round starts with the given target and a 60 s clock |
| SessionProperties.WinnerReward | server/server.js:136-148 | A correct answer pays the answering member exactly +3 coins and +1 win, on the record and on the leaderboard; nobody else changes; the result names the winner and reveals the target |
| SessionProperties.ScoringIdempotent | server/server.js:144-146 | After an accepted answer no further answer is accepted, and only the settle timeout is live |
| SessionProperties.NoCreditAfterTimeout | server/server.js:258-268 | A round that times out pays nobody and reveals the target, and no later answer is accepted |
| SessionProperties.UsersKeptPointwise | server/server.js:279-280 | A user list whose ids are kept and whose scores do not decrease keeps every user's scores |
| SessionProperties.JoinRoomProgress | server/server.js:36-48 | Joining never decreases a user's coins or wins |
| SessionProperties.RemoveUserProgress | server/server.js:154 | Leaving never decreases a remaining user's coins or wins |
| SessionProperties.PlayerReadyProgress | server/server.js:59-95 | Readying never decreases coins, wins or leaderboard entries and leaves the session alone |
| SessionProperties.SendMessageProgress | server/server.js:98-103 | Chatting never decreases coins, wins or leaderboard entries |
| SessionProperties.FinishVotingKeeps | server/server.js:224-238 | Closing a vote keeps the users, the session's length, its round and its leaderboard |
| SessionProperties.CastVoteProgress | server/server.js:119-133 | Voting never decreases scores, never changes the round count and never moves the round back |
| SessionProperties.SubmitAnswerProgress | server/server.js:136-148 | Answering never decreases coins, wins or leaderboard entries |
| SessionProperties.CountdownTickKeepsUsers | server/server.js:73-87 | A countdown tick leaves every user, scores included, unchanged |
| SessionProperties.VoteTickProgress | server/server.js:211-221 | A vote-clock tick never decreases scores, never changes `totalRounds` and never moves the round back |
| SessionProperties.RoundTickProgress | server/server.js:258-267 | A round-clock tick never decreases scores, never changes `totalRounds` and never moves the round back |
| SessionProperties.SettleProgress | server/server.js:299-310 | The settle timeout never decreases scores or leaderboard entries and never changes `totalRounds`; the round only moves forward |
| SessionProperties.SettleOutcome | server/server.js:298-310 | While rounds remain, the next round's vote starts with no votes and a 45 s clock. After the last round the phase is over, the round was the last one, no timer is live and every user is unready |
| SessionProperties.HostReconnect | server/server.js:36-38 | A host reconnecting on a fresh socket keeps its place and only its socket id changes. `hostId` keeps the old socket, so the host is not handed on when the new socket leaves |
| SessionProperties.HostFailover | server/server.js:151-158 | When the host's socket leaves and users remain, the host becomes the socket of the earliest-joined remaining user; otherwise the host is unchanged |
| Server.Tagged | server/server.js:163 | The broadcast log entries for one room, one per message, in order |
| Server.DepartedProps | server/server.js:151-165 | After a socket leaves, exactly the rooms that had another user remain, and no remaining room holds a user of that socket |
| Server.DepartedAllOk | server/server.js:151-165 | Leaving keeps every remaining room valid |
| Server.Lobbies | server/server.js:163 | The lobby broadcast of each surviving room, in visiting order |
| Server.RoomServer.constructor | server/server.js:15 | The server starts with no rooms |
| Server.RoomServer.JoinRoom | server/server.js:21-56 | An unknown code gets a room whose host is the joining socket. The user is upserted, the lobby is broadcast, and other rooms are unchanged |
| Server.RoomServer.PlayerReady | server/server.js:59-95 | An unknown room is ignored; otherwise the room becomes `Rooms.PlayerReady` of it and its messages are logged |
| Server.RoomServer.SendMessage | server/server.js:98-103 | An unknown room is ignored; otherwise the line is appended to the chat and the whole chat broadcast |
| Server.RoomServer.GetRoomState | server/server.js:106-116 | Replies with the room's users, host, session and chat, or a negative reply for an unknown code; nothing changes |
| Server.RoomServer.CastVote | server/server.js:119-133 | An unknown room is ignored; otherwise the room becomes `Rooms.CastVote` of it |
| Server.RoomServer.RecordBallot | server/server.js:124-132 | The accepted part of `castVote`: the room becomes `Rooms.CastVote` of it and its messages are returned |
| Server.RoomServer.SubmitAnswer | server/server.js:136-148 | An unknown room is ignored; otherwise the room becomes `Rooms.SubmitAnswer` of it |
| Server.RoomServer.RemoveFromRoom | server/server.js:151-166 | The loop over all rooms leaves exactly the directory `Departed` describes, and logs one lobby update per surviving room |
| Server.RoomServer.LeaveRoom | server/server.js:153-164 | One room loses the socket's users, hands the host on if needed, and is deleted when empty |
| Server.RoomServer.CountdownTick | server/server.js:73-87 | The room becomes `Rooms.CountdownTick` of it |
| Server.RoomServer.VoteTick | server/server.js:211-221 | The room becomes `Rooms.VoteTick` of it |
| Server.RoomServer.RoundTick | server/server.js:258-267 | The room becomes `Rooms.RoundTick` of it |
| Server.RoomServer.SettleFire | server/server.js:299-310 | The room becomes `Rooms.SettleFire` of it |
| Server.RoomServer.StartGame | server/server.js:172-195 | The room becomes `Rooms.StartGame` of it |
| Server.RoomServer.StartVotingPhase | server/server.js:197-222 | The room becomes `Rooms.StartVotingPhase` of it |
| Server.RoomServer.FinishVoting | server/server.js:224-238 | The room becomes `Rooms.FinishVoting` of it |
| Server.RoomServer.StartRound | server/server.js:240-269 | The room becomes `Rooms.StartRound` of it |
| Server.RoomServer.EndRound | server/server.js:271-311 | The room becomes `Rooms.EndRound` of it: the winner is paid once on record and leaderboard, and a settle timeout is scheduled |
| Findings.TimeOutStep | server/server.js:258-268 | In a concrete round with target 5, the last tick of the round clock pays nobody and reveals 5 |
| Findings.LateAnswerRefused | server/server.js:136-148 | After that time-out the corrected guard refuses the revealed answer and nothing changes |
| Findings.LateAnswerAccepted | server/server.js:144-146 | After that time-out the guard as written accepts the revealed answer and records the player before calling `endRound` |
| Findings.LateAnswerPaysRecord | server/server.js:276-280 | That `endRound` pays the late player +3 coins and +1 win on the user record |
| Findings.LateAnswerPaysBoard | server/server.js:281-282 | ... and on the leaderboard |
| Findings.LateAnswerStep | server/server.js:136-148 | The whole late answer as written: accepted, the player paid, and a second settle timeout scheduled |
| Findings.DoubleSettle | server/server.js:298-303 | The two settle timeouts that follow both advance the round, past the session's length |
| Findings.LateAnswerAfterTimeout | server/server.js:136-148 | The whole run: time-out, late answer, two settle timeouts, round 4 of 3 |
| Findings.SubmitAnswerAsWritten | server/server.js:136-148 | `submitAnswer` as written: a refused answer changes nothing; where the corrected guard also accepts, it differs from `Rooms.SubmitAnswer` only in the stale `roundTimer` handle; an answer after the round clock is gone still schedules a settle timeout |
| Findings.FalsyWinStep | server/server.js:144-145 | As written, a correct answer under the empty user id is recorded, pays nobody, and leaves the round open to the next correct answer |
| Findings.SecondWinStep | server/server.js:271-296 | That second correct answer pays its sender and schedules a second settle timeout |
| Findings.FalsyWinnerTwice | server/server.js:144-146 | The whole run: two winners of one round and two settle timeouts as written; the corrected handler refuses the second answer |
| Findings.PlayerReadyAsWritten | server/server.js:59-95 | `playerReady` as written: afterwards a countdown exists exactly when everyone is ready, whether or not a session runs; outside a session it is `Rooms.PlayerReady` |
| Findings.CountdownDuringSession | server/server.js:68-87 | As written, a ready click during a vote arms a countdown beside the vote clock, breaking the one-timer invariant. When it runs out the session restarts at round 1. The corrected handler changes nothing |

## Findings

| source | as written | input that shows it | evidently intended | confidence | as-written member | corrected member |
|---|---|---|---|---|---|---|
| server/server.js:136-148 | After a round times out, phase stays `"playing"` and `winnerId` stays null. A correct answer in the 3.5 s settle window is still credited and calls `endRound` again, scheduling a second settle timeout | Round 2 of 3, target 5: the round clock runs out, the result reveals 5, and user "a" submits 5 before the settle timeout fires | No answer is credited once the round has ended, and each round is settled once | not executed | Findings.LateAnswerAfterTimeout | SessionProperties.NoCreditAfterTimeout |
| server/server.js:144-146 | `!winnerId` treats a falsy user id as "no winner yet". A correct answer under such an id (the client's payload carries no `userId`) pays nobody, and the round clock's handle is kept, so the next correct answer is accepted too and schedules a second settle timeout | Round 2 of 3, target 5, 30 s left: a user submits 5 with `userId` `""`, then user "b" submits 5 | A round has at most one winner and is settled once | not executed | Findings.FalsyWinnerTwice | SessionProperties.ScoringIdempotent |
| server/server.js:68-69 | The countdown is armed when all users are ready and no countdown exists, even during a session. Ready flags are only reset at game over, so one ready click mid-session arms it, and at 0 `startGame` restarts the session while the old clock runs | Round 1 voting with both users still ready; user "a" sends `playerReady` with `isReady` true | The countdown only starts a session from the lobby | not executed | Findings.CountdownDuringSession | SessionProperties.PlayerReadyCountdown |

The corrected guards are `Rooms.AcceptsAnswer`, which also requires a running round clock, and
`Rooms.ArmsCountdown`, which also requires that no session is running. The corrected `Rooms.EndRound`
forgets the cleared round-clock handle, so that a round with a falsy-id winner accepts no second
answer either. The rest of the model and the server class use these.

## Left out

- Express, http, socket.io setup and `server.listen` (server/server.js:1-13, 313) are transport and process plumbing. So are `socket.join` and `console.log`.
- The `joined` acknowledgement sent to the joining socket alone (server/server.js:53) is not recorded. The ghost log holds only broadcasts to a room.
- Real time is not modelled. Timers are explicit values, and their callbacks are methods the environment calls with a live handle. The interleaving of handlers and callbacks is not modelled.
- `Math.random()` is not modelled. The round's target is a parameter of the steps that can start a round, required to lie in [1, 9].
- `Number(answer)` is not modelled. It is passed in as an optional integer, none for NaN and fractions.
- Voting.ChooseGame: promises only "a most frequent vote", not which of several equally frequent choices the stable sort puts first. With the one configured option every vote is the same choice.
- Voting: entries are kept in insertion order. JavaScript lists integer-like `userId` keys ("42") first, in ascending numeric order; the model does not reorder them in the `voteUpdate` broadcast.
- Server.RoomServer.RemoveFromRoom: visits the rooms in any order. `for (const code in rooms)` visits the 4-digit codes in ascending numeric order. Each lobby update goes to a different room, so only the interleaving of the log differs.
- RoomInvariants.PlayerReadyOk: proved for the corrected guard `Rooms.ArmsCountdown`. As written, a ready click during a session arms a second timer and the invariant fails (`Findings.CountdownDuringSession`).
- RoomInvariants.SubmitAnswerOk: proved for the corrected guard `Rooms.AcceptsAnswer` and the corrected `Rooms.EndRound`. As written, an answer after a time-out, or a second answer after a falsy-id winner, leaves two settle timeouts (`Findings.LateAnswerStep`, `Findings.SecondWinStep`).
- SessionProperties.ScoringIdempotent: holds of the corrected handler. As written, a round won under a falsy user id, or timed out, accepts another correct answer (`Findings.FalsyWinnerTwice`, `Findings.LateAnswerAfterTimeout`).
- Server.RoomServer.PlayerReady: equals the corrected `Rooms.PlayerReady`, which does not arm the countdown during a session as server/server.js:69 does. `Findings.PlayerReadyAsWritten` models the handler as written.
- Server.RoomServer.SubmitAnswer: equals the corrected `Rooms.SubmitAnswer`, which refuses the answers after a time-out or after a falsy-id winner that server/server.js:144 accepts. `Findings.SubmitAnswerAsWritten` models the handler as written.
- Server.RoomServer.EndRound: equals the corrected `Rooms.EndRound`, which also sets `roundTimer` to null where server/server.js:274 only clears the interval. `Rooms.EndRoundAsWritten` models the function as written.
- Registry.CreditBoard: a winner with no leaderboard entry (a user who joined mid-session) has the leaderboard update skipped, and the record is still credited. In JavaScript, `leaderboard[winnerId].coins` throws there.
- A timer of a room deleted when its last user leaves dies with the room. In the source its closure keeps running until it clears itself, and it reaches the deleted room only through `rooms[roomCode]` checks. A room re-created under the same code while such a closure runs is not modelled.
- Registry.Upsert: the spread `...userData` copies every payload field. The model keeps only `userId`, `username`, `avatar`, `coins` and `wins`. `coins`/`wins` values that are falsy (absent, 0) become 0, and non-numeric values are not modelled.
- `getRoomState` without an acknowledgement callback (`ack?.`) does nothing. The model always returns the reply.
- The client files are React UI and a socket.io client wrapper, so they are not part of this model. Client/server mismatches are not modelled: the client sends `id` where the server reads `userId`, and it emits `updateSettings`, which the server never handles.
