/**
 * One room and its session, as values, with one function per handler and
 * per game-flow step of the server. Each function gives the room after the
 * step and the messages broadcast to the room, in order. The imperative
 * server in module Server is proved against these functions.
 *
 * Timers are explicit: `timers` holds the room's live scheduled callbacks
 * (each `setInterval` with its own `seconds` counter, each pending
 * `setTimeout`), keyed by the handle that `setInterval`/`setTimeout`
 * returned; `gameTimer` and `gameState.roundTimer` hold handles, as in the
 * source, and `clearInterval` removes a handle from `timers`.
 */
module Rooms {
  import opened Wrappers
  import opened Registry
  import opened Voting
  import GuessNumber

  type Code = string
  type Handle = nat

  /** Seconds of the lobby countdown and of a voting phase. */
  const CountdownSeconds: int := 15
  const VoteSeconds: int := 45

  /** The configured vote options. */
  const VoteOptions: seq<GameId> := [GuessNumber.Id]

  datatype Phase = Voting | Playing | Over

  datatype Timer =
    | Countdown(seconds: int)     // the lobby countdown interval
    | VoteClock(seconds: int)     // the voting interval
    | RoundClock(seconds: int)    // the round interval of "guess the number"
    | Settle(hasMore: bool)       // the 3.5 s timeout after a round, with its captured `hasMore`

  datatype GameState = GameState(
    phase: Phase,
    round: int,
    totalRounds: int,
    voteOptions: seq<GameId>,
    votes: seq<Ballot>,
    currentGame: Option<GameId>,
    leaderboard: map<UserId, Score>,
    data: Option<GuessNumber.Data>,
    roundTimer: Option<Handle>)

  datatype ChatLine = ChatLine(username: string, message: string)

  datatype Room = Room(
    users: seq<User>,
    hostId: SocketId,
    chat: seq<ChatLine>,
    currentRound: int,
    totalRounds: int,
    gameState: Option<GameState>,
    gameTimer: Option<Handle>,
    timers: map<Handle, Timer>)

  /** The messages broadcast to a room (`io.to(code).emit`). */
  datatype Msg =
    | LobbyUpdate(users: seq<User>, hostId: SocketId)
    | CountdownMsg(count: Option<int>)
    | GameStart(round: int)
    | VoteStart(seconds: int, options: seq<GameId>, round: int, totalRounds: int)
    | VoteUpdate(votes: seq<Ballot>)     // the vote object's entries, in key order
    | VoteCountdown(seconds: int)
    | VoteEnd(chosenGame: GameId)
    | RoundStart(game: GameId, seconds: int, round: int, totalRounds: int)
    | RoundCountdown(seconds: int)
    | RoundResult(winnerId: Option<UserId>, answer: Option<int>, board: map<UserId, Score>)
    | Leaderboard(round: int, totalRounds: int, board: map<UserId, Score>)
    | GameOver(board: map<UserId, Score>)
    | ChatUpdate(chat: seq<ChatLine>)

  /** A room after a step, and what the step broadcast. */
  datatype Step = Step(room: Room, out: seq<Msg>)

  /** A session is running: started and not over. */
  predicate InSession(r: Room) {
    r.gameState.Some? && r.gameState.value.phase != Over
  }

  /** `clearInterval(h)` for a possibly null handle. */
  function Cleared(t: map<Handle, Timer>, h: Option<Handle>): map<Handle, Timer> {
    if h.Some? then t - {h.value} else t
  }

  /** The number of rounds of a session started with `n` players. */
  function TotalRoundsFor(n: int): (t: int)
    ensures t == 3 || t == 4
    ensures t == 3 <==> n <= 5
  {
    if n <= 5 then 3 else 4
  }

  // ---------------------------------------------------------------- lobby

  /** The record created for an unseen room code; its host is the first joiner's socket. */
  function NewRoom(sock: SocketId): Room {
    Room([], sock, [], 0, 3, None, None, map[])
  }

  /** `joinRoom` on an existing (or just created) room. */
  function JoinRoom(r: Room, sock: SocketId, p: Profile): Step {
    var r1 := r.(users := Upsert(r.users, p, sock));
    Step(r1, [LobbyUpdate(r1.users, r1.hostId)])
  }

  /** The guard that arms the lobby countdown: everyone ready, no countdown
      yet, and no session running (see ArmsCountdownAsWritten in Findings). */
  predicate ArmsCountdown(r: Room) {
    AllReady(r.users) && r.gameTimer.None? && !InSession(r)
  }

  /** `playerReady`; `h` is the handle the new countdown would get. */
  function PlayerReady(r: Room, uid: UserId, ready: bool, h: Handle): Step {
    var r1 := r.(users := SetReady(r.users, uid, ready));
    var lobby := [LobbyUpdate(r1.users, r1.hostId)];
    if ArmsCountdown(r1) then
      Step(r1.(gameTimer := Some(h), timers := r1.timers[h := Countdown(CountdownSeconds)]),
           lobby + [CountdownMsg(Some(CountdownSeconds))])
    else if !AllReady(r1.users) && r1.gameTimer.Some? then
      Step(r1.(gameTimer := None, timers := Cleared(r1.timers, r1.gameTimer)), lobby + [CountdownMsg(None)])
    else
      Step(r1, lobby)
  }

  /** One tick of the countdown interval `h`; `hNew` is the handle the vote
      clock gets if the game starts. */
  function CountdownTick(r: Room, h: Handle, hNew: Handle): Step
    requires h in r.timers && r.timers[h].Countdown?
  {
    if !AllReady(r.users) then
      Step(r.(gameTimer := None, timers := Cleared(r.timers, r.gameTimer)), [CountdownMsg(None)])
    else
      var s := r.timers[h].seconds - 1;
      if s <= 0 then
        var g := StartGame(r.(gameTimer := None, timers := Cleared(r.timers, r.gameTimer)), hNew);
        Step(g.room, [CountdownMsg(Some(s))] + g.out)
      else
        Step(r.(timers := r.timers[h := Countdown(s)]), [CountdownMsg(Some(s))])
  }

  /** `sendMessage`. */
  function SendMessage(r: Room, username: string, message: string): Step {
    var r1 := r.(chat := r.chat + [ChatLine(username, message)]);
    Step(r1, [ChatUpdate(r1.chat)])
  }

  /** The part of `removeFromRoom` that concerns one room: drop the users of
      that socket and, if the host's socket left and someone remains, hand
      the host to the first remaining user. */
  function RemoveUser(r: Room, sock: SocketId): Room {
    var users := RemoveBySocket(r.users, sock);
    r.(users := users, hostId := if r.hostId == sock && |users| > 0 then users[0].id else r.hostId)
  }

  // ------------------------------------------------------------ game flow

  /** `startGame`: a fresh session snapshotting the leaderboard, then the first vote. */
  function StartGame(r: Room, h: Handle): Step {
    var total := TotalRoundsFor(|r.users|);
    var gs := GameState(Voting, 1, total, VoteOptions, [], None, Snapshot(r.users), None, None);
    var v := StartVotingPhase(r.(currentRound := 1, totalRounds := total, gameState := Some(gs)), h);
    Step(v.room, [GameStart(1)] + v.out)
  }

  /** `startVotingPhase`: empty votes and a 45 s vote clock under handle `h`. */
  function StartVotingPhase(r: Room, h: Handle): Step
    requires r.gameState.Some?
  {
    var gs := r.gameState.value;
    Step(r.(gameState := Some(gs.(phase := Voting, votes := [], roundTimer := Some(h))),
            timers := r.timers[h := VoteClock(VoteSeconds)]),
         [VoteStart(VoteSeconds, gs.voteOptions, gs.round, gs.totalRounds)])
  }

  /** Everyone in the room (by count) has voted: `Object.keys(votes).length === users.length`. */
  predicate AllVoted(r: Room)
    requires r.gameState.Some?
  {
    |r.gameState.value.votes| == |r.users|
  }

  /** One tick of the vote clock `h`. */
  function VoteTick(r: Room, h: Handle, target: int, hNew: Handle): Step
    requires r.gameState.Some? && |r.gameState.value.voteOptions| > 0
    requires h in r.timers && r.timers[h].VoteClock?
  {
    var gs := r.gameState.value;
    var s := r.timers[h].seconds - 1;
    var t := r.timers[h := VoteClock(s)];
    if s <= 0 || AllVoted(r) then
      var f := FinishVoting(r.(timers := Cleared(t, gs.roundTimer),
                               gameState := Some(gs.(roundTimer := None))), target, hNew);
      Step(f.room, [VoteCountdown(s)] + f.out)
    else
      Step(r.(timers := t), [VoteCountdown(s)])
  }

  /** The guard of `castVote`. */
  predicate AcceptsVote(r: Room, choice: GameId) {
    r.gameState.Some? && r.gameState.value.phase == Voting && choice in r.gameState.value.voteOptions
  }

  /** `castVote`; `target` and `hNew` are used if this vote ends the voting. */
  function CastVote(r: Room, uid: UserId, choice: GameId, target: int, hNew: Handle): Step {
    if !AcceptsVote(r, choice) then Step(r, [])
    else
      var gs := r.gameState.value.(votes := RecordVote(r.gameState.value.votes, uid, choice));
      var r1 := r.(gameState := Some(gs));
      var m := [VoteUpdate(gs.votes)];
      if AllVoted(r1) && gs.roundTimer.Some? then
        var f := FinishVoting(r1.(timers := Cleared(r1.timers, gs.roundTimer),
                                  gameState := Some(gs.(roundTimer := None))), target, hNew);
        Step(f.room, m + f.out)
      else
        Step(r1, m)
  }

  /** `finishVoting`: tally, record the chosen game, start the round. */
  function FinishVoting(r: Room, target: int, h: Handle): Step
    requires r.gameState.Some? && |r.gameState.value.voteOptions| > 0
  {
    var gs := r.gameState.value;
    var choice := ChooseGame(gs.votes, gs.voteOptions);
    var s := StartRound(r.(gameState := Some(gs.(currentGame := Some(choice)))), choice, target, h);
    Step(s.room, [VoteEnd(choice)] + s.out)
  }

  /** `startRound`: playing; for "guess the number", set the target and arm
      the 60 s round clock under `h`. `target` stands for `1 + floor(random * 9)`. */
  function StartRound(r: Room, game: GameId, target: int, h: Handle): Step
    requires r.gameState.Some?
  {
    var gs := r.gameState.value.(phase := Playing);
    if game == GuessNumber.Id then
      Step(r.(gameState := Some(gs.(data := Some(GuessNumber.Data(target, None)), roundTimer := Some(h))),
              timers := r.timers[h := RoundClock(GuessNumber.RoundSeconds)]),
           [RoundStart(game, GuessNumber.RoundSeconds, gs.round, gs.totalRounds)])
    else
      Step(r.(gameState := Some(gs)), [])
  }

  /** One tick of the round clock `h`; at 0 the round ends without a winner. */
  function RoundTick(r: Room, h: Handle, hNew: Handle): Step
    requires r.gameState.Some?
    requires h in r.timers && r.timers[h].RoundClock?
  {
    var gs := r.gameState.value;
    var s := r.timers[h].seconds - 1;
    var t := r.timers[h := RoundClock(s)];
    if s <= 0 then
      var e := EndRound(r.(timers := Cleared(t, gs.roundTimer),
                           gameState := Some(gs.(roundTimer := None))), None, hNew);
      Step(e.room, [RoundCountdown(s)] + e.out)
    else
      Step(r.(timers := t), [RoundCountdown(s)])
  }

  /** The winner gets the reward when the id is truthy and still a member. */
  predicate Credited(r: Room, winner: Option<UserId>) {
    GuessNumber.Truthy(winner) && Member(r.users, winner.value)
  }

  /** `endRound` as the source writes it: clear the round clock (without
      forgetting its handle), reward the winner on the user record and on
      the leaderboard, broadcast, and schedule the settle timeout `h`. */
  function EndRoundAsWritten(r: Room, winner: Option<UserId>, h: Handle): (s: Step)
    requires r.gameState.Some?
    ensures s.room.gameState.Some?
    ensures s.room.gameState.value.phase == r.gameState.value.phase
    ensures s.room.gameState.value.round == r.gameState.value.round
    // the cleared round clock is no longer live, yet `roundTimer` still names it
    ensures s.room.gameState.value.roundTimer == r.gameState.value.roundTimer
    ensures r.gameState.value.roundTimer.Some? && r.gameState.value.roundTimer.value != h ==>
      r.gameState.value.roundTimer.value !in s.room.timers
    ensures h in s.room.timers
    ensures s.room.timers[h] == Settle(r.gameState.value.round < r.gameState.value.totalRounds)
    ensures !Credited(r, winner) ==>
      s.room.users == r.users && s.room.gameState.value.leaderboard == r.gameState.value.leaderboard
  {
    var gs := r.gameState.value;
    var credit := Credited(r, winner);
    var users := if credit then Credit(r.users, winner.value) else r.users;
    var board := if credit then CreditBoard(gs.leaderboard, winner.value) else gs.leaderboard;
    var answer := if gs.currentGame == Some(GuessNumber.Id) && gs.data.Some? then Some(gs.data.value.target) else None;
    Step(r.(users := users, gameState := Some(gs.(leaderboard := board)),
            timers := Cleared(r.timers, gs.roundTimer)[h := Settle(gs.round < gs.totalRounds)]),
         [RoundResult(if GuessNumber.Truthy(winner) then winner else None, answer, board),
          Leaderboard(gs.round, gs.totalRounds, board)])
  }

  /** `endRound`, corrected: the cleared round clock's handle is also
      forgotten, so that the round counts as over (see Findings). */
  function EndRound(r: Room, winner: Option<UserId>, h: Handle): Step
    requires r.gameState.Some?
  {
    var e := EndRoundAsWritten(r, winner, h);
    var gs := e.room.gameState.value;
    Step(e.room.(gameState := Some(gs.(roundTimer := None))), e.out)
  }

  /** The guard of `submitAnswer`, corrected: the round clock must still be
      running (see AcceptsAnswerAsWritten in Findings). */
  predicate AcceptsAnswer(r: Room, num: Option<int>) {
    && r.gameState.Some?
    && r.gameState.value.phase == Playing
    && r.gameState.value.currentGame == Some(GuessNumber.Id)
    && r.gameState.value.data.Some?
    && r.gameState.value.roundTimer.Some?
    && GuessNumber.Wins(r.gameState.value.data.value, num)
  }

  /** `submitAnswer`: the first correct answer is recorded and ends the round. */
  function SubmitAnswer(r: Room, uid: UserId, num: Option<int>, hNew: Handle): Step {
    if AcceptsAnswer(r, num) then
      var gs := r.gameState.value;
      EndRound(r.(gameState := Some(gs.(data := Some(gs.data.value.(winnerId := Some(uid)))))), Some(uid), hNew)
    else
      Step(r, [])
  }

  /** The settle timeout `h` fires: next round's vote, or game over with
      every ready flag reset. */
  function SettleFire(r: Room, h: Handle, hNew: Handle): Step
    requires r.gameState.Some?
    requires h in r.timers && r.timers[h].Settle?
  {
    var gs := r.gameState.value;
    var t := r.timers - {h};
    if r.timers[h].hasMore then
      StartVotingPhase(r.(timers := t, gameState := Some(gs.(round := gs.round + 1))), hNew)
    else
      var r1 := r.(timers := t, gameState := Some(gs.(phase := Over)), users := Unready(r.users));
      Step(r1, [GameOver(gs.leaderboard), LobbyUpdate(r1.users, r1.hostId)])
  }
}
