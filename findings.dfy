/**
 * Two guards of the server as the source writes them, with concrete runs
 * that show what they let through; modules Rooms and Server use the
 * corrected guards (`Rooms.ArmsCountdown`, `Rooms.AcceptsAnswer`).
 */
module Findings {
  import opened Wrappers
  import opened Registry
  import opened Voting
  import opened Rooms
  import opened RoomInvariants
  import GuessNumber

  // ------------------------------------------- answers after a time-out

  /** The guard of `submitAnswer` as written: it does not ask whether the
      round is still running. */
  predicate AcceptsAnswerAsWritten(r: Room, num: Option<int>) {
    && r.gameState.Some?
    && r.gameState.value.phase == Playing
    && r.gameState.value.currentGame == Some(GuessNumber.Id)
    && r.gameState.value.data.Some?
    && GuessNumber.Wins(r.gameState.value.data.value, num)
  }

  /** `submitAnswer` as written, over `endRound` as written. Where the
      corrected guard accepts too, it differs from the corrected handler
      only in the stale `roundTimer` handle; an answer the corrected guard
      refuses, once the round clock is gone, still schedules a settle
      timeout. */
  function SubmitAnswerAsWritten(r: Room, uid: UserId, num: Option<int>, hNew: Handle): (s: Step)
    ensures !AcceptsAnswerAsWritten(r, num) ==> s == Step(r, [])
    ensures AcceptsAnswer(r, num) ==>
      var c := SubmitAnswer(r, uid, num, hNew);
      && s.out == c.out && s.room.users == c.room.users && s.room.timers == c.room.timers
      && s.room.gameState.Some? && c.room.gameState.Some?
      && s.room.gameState.value == c.room.gameState.value.(roundTimer := r.gameState.value.roundTimer)
    ensures AcceptsAnswerAsWritten(r, num) && !AcceptsAnswer(r, num) ==>
      hNew in s.room.timers && s.room.timers[hNew].Settle?
  {
    if AcceptsAnswerAsWritten(r, num) then
      var gs := r.gameState.value;
      EndRoundAsWritten(r.(gameState := Some(gs.(data := Some(gs.data.value.(winnerId := Some(uid)))))), Some(uid), hNew)
    else
      Step(r, [])
  }

  const Alice: User := User("a", "s1", "Alice", "", true, 0, 0)
  const Bob: User := User("b", "s2", "Bob", "", true, 0, 0)

  /** Round 2 of 3 of "guess the number" with target 5, one second left. */
  function LastSecond(): Room {
    var board := map["a" := Score("Alice", 0, 0), "b" := Score("Bob", 0, 0)];
    var gs := GameState(Playing, 2, 3, VoteOptions, [], Some(GuessNumber.Id), board,
                        Some(GuessNumber.Data(5, None)), Some(0));
    Room([Alice, Bob], "s1", [], 1, 3, Some(gs), None, map[0 := RoundClock(1)])
  }

  const Board: map<UserId, Score> := map["a" := Score("Alice", 0, 0), "b" := Score("Bob", 0, 0)]

  /** The same room after the time-out: no winner, the settle timeout 1 pending. */
  function TimedOut(): Room {
    var gs := LastSecond().gameState.value.(roundTimer := None);
    LastSecond().(gameState := Some(gs), timers := map[1 := Settle(true)])
  }

  /** The same room after Alice's late answer, as written. */
  function PaidLate(): Room {
    var gs := TimedOut().gameState.value;
    var paid := map["a" := Score("Alice", 3, 1), "b" := Score("Bob", 0, 0)];
    TimedOut().(users := [Alice.(coins := 3, wins := 1), Bob],
                gameState := Some(gs.(leaderboard := paid, data := Some(GuessNumber.Data(5, Some("a"))))),
                timers := map[1 := Settle(true), 2 := Settle(true)])
  }

  /** The last second of the round runs out: nobody is paid and the target
      5 is revealed. */
  lemma TimeOutStep()
    ensures RoomOk(LastSecond(), 1)
    ensures RoundTick(LastSecond(), 0, 1)
      == Step(TimedOut(), [RoundCountdown(0), RoundResult(None, Some(5), Board), Leaderboard(2, 3, Board)])
  {
    assert LastSecond().timers.Keys == {0};
    assert Cleared(LastSecond().timers[0 := RoundClock(0)], Some(0)) == map[];
  }

  /** The corrected guard refuses an answer once the round clock is gone. */
  lemma LateAnswerRefused()
    ensures !AcceptsAnswer(TimedOut(), Some(5))
    ensures SubmitAnswer(TimedOut(), "a", Some(5), 2) == Step(TimedOut(), [])
  {
  }

  /** `TimedOut()` with Alice recorded as the winner, as `submitAnswer`
      writes it before calling `endRound`. */
  function AliceRecorded(): Room {
    var gs := TimedOut().gameState.value;
    TimedOut().(gameState := Some(gs.(data := Some(GuessNumber.Data(5, Some("a"))))))
  }

  /** As written, the late answer is accepted and goes on to `endRound`. */
  lemma LateAnswerAccepted()
    ensures AcceptsAnswerAsWritten(TimedOut(), Some(5))
    ensures SubmitAnswerAsWritten(TimedOut(), "a", Some(5), 2) == EndRoundAsWritten(AliceRecorded(), Some("a"), 2)
  {
  }

  /** That `endRound` pays Alice on her record... */
  lemma LateAnswerPaysRecord()
    ensures EndRoundAsWritten(AliceRecorded(), Some("a"), 2).room.users == [Alice.(coins := 3, wins := 1), Bob]
  {
    var t := AliceRecorded();
    assert Find(t.users, "a") == Some(0);
    assert Member(t.users, "a") by { assert t.users[0].userId == "a"; }
    assert Credit(t.users, "a") == [Alice.(coins := 3, wins := 1), Bob];
  }

  /** ...and on the leaderboard. */
  lemma LateAnswerPaysBoard()
    ensures EndRoundAsWritten(AliceRecorded(), Some("a"), 2).room.gameState.value.leaderboard
         == map["a" := Score("Alice", 3, 1), "b" := Score("Bob", 0, 0)]
  {
    var t := AliceRecorded();
    assert Member(t.users, "a") by { assert t.users[0].userId == "a"; }
    assert CreditBoard(Board, "a") == map["a" := Score("Alice", 3, 1), "b" := Score("Bob", 0, 0)];
  }

  /** The revealed target, submitted before the settle timeout fires, is
      accepted as written: Alice is paid for a round nobody won in time and
      a second settle timeout is scheduled. */
  lemma LateAnswerStep()
    ensures AcceptsAnswerAsWritten(TimedOut(), Some(5))
    ensures SubmitAnswerAsWritten(TimedOut(), "a", Some(5), 2).room == PaidLate()
  {
    LateAnswerAccepted();
    LateAnswerPaysRecord();
    LateAnswerPaysBoard();
    assert TimedOut().timers[2 := Settle(true)] == map[1 := Settle(true), 2 := Settle(true)];
  }

  /** The two settle timeouts both advance the round: the session runs into
      a fourth round of three, with two vote clocks. */
  lemma DoubleSettle()
    ensures var b := SettleFire(SettleFire(PaidLate(), 1, 3).room, 2, 4).room;
      && b.gameState.value.round == 4 > b.gameState.value.totalRounds
      && b.timers == map[3 := VoteClock(VoteSeconds), 4 := VoteClock(VoteSeconds)]
  {
    var a1 := SettleFire(PaidLate(), 1, 3).room;
    assert PaidLate().timers - {1} == map[2 := Settle(true)];
    assert a1.timers == map[2 := Settle(true), 3 := VoteClock(VoteSeconds)];
    assert a1.timers - {2} == map[3 := VoteClock(VoteSeconds)];
  }

  /** The whole run: from a room satisfying the invariant, a time-out
      followed by the revealed answer pays a user and leaves two settle
      timeouts, and the session overruns its length. */
  lemma LateAnswerAfterTimeout()
    ensures RoomOk(LastSecond(), 1)
    ensures var t := RoundTick(LastSecond(), 0, 1).room;
      var a := SubmitAnswerAsWritten(t, "a", Some(5), 2).room;
      var b := SettleFire(SettleFire(a, 1, 3).room, 2, 4).room;
      && a.users[0].coins == 3 && |a.timers| == 2
      && b.gameState.value.round > b.gameState.value.totalRounds
      && SubmitAnswer(t, "a", Some(5), 2) == Step(t, [])
  {
    TimeOutStep();
    LateAnswerStep();
    LateAnswerRefused();
    DoubleSettle();
    assert |PaidLate().timers| == |map[1 := Settle(true), 2 := Settle(true)]| == 2;
  }

  // ------------------------------------------------- a falsy winner id

  /** Round 2 of 3 with target 5 and thirty seconds left on the clock. */
  function MidRound(): Room {
    LastSecond().(timers := map[0 := RoundClock(30)])
  }

  /** The same round after a correct answer under the empty user id, as
      written: nobody paid, the winner recorded as `""`, the cleared round
      clock still named, and the settle timeout 1 pending. */
  function FalsyWon(): Room {
    var gs := MidRound().gameState.value;
    MidRound().(gameState := Some(gs.(data := Some(GuessNumber.Data(5, Some(""))))),
                timers := map[1 := Settle(true)])
  }

  /** A correct answer under a falsy user id (the empty string here; the
      client's payload carries no `userId` at all) is recorded but pays
      nobody, and the next correct answer is still accepted as written. */
  lemma FalsyWinStep()
    ensures RoomOk(MidRound(), 1)
    ensures SubmitAnswerAsWritten(MidRound(), "", Some(5), 1).room == FalsyWon()
    ensures AcceptsAnswerAsWritten(FalsyWon(), Some(5))
  {
    assert MidRound().timers.Keys == {0};
    assert Cleared(MidRound().timers, Some(0)) == map[];
  }

  /** That second answer pays its sender and schedules a second settle
      timeout. */
  lemma SecondWinStep()
    ensures var b := SubmitAnswerAsWritten(FalsyWon(), "b", Some(5), 2).room;
      && b.users == [Alice, Bob.(coins := 3, wins := 1)]
      && b.timers == map[1 := Settle(true), 2 := Settle(true)]
  {
    var a := FalsyWon();
    assert Find(a.users, "b") == Some(1);
    assert Member(a.users, "b") by { assert a.users[1].userId == "b"; }
    assert Credit(a.users, "b") == [Alice, Bob.(coins := 3, wins := 1)];
    assert Cleared(a.timers, Some(0)) == a.timers;
    assert a.timers[2 := Settle(true)] == map[1 := Settle(true), 2 := Settle(true)];
  }

  /** The whole run: as written, a falsy-id winner leaves the round open to
      a second winner and a second settle timeout; the corrected handler
      refuses the second answer. */
  lemma FalsyWinnerTwice()
    ensures RoomOk(MidRound(), 1)
    ensures var a := SubmitAnswerAsWritten(MidRound(), "", Some(5), 1).room;
      var b := SubmitAnswerAsWritten(a, "b", Some(5), 2).room;
      && a.users == MidRound().users
      && AcceptsAnswerAsWritten(a, Some(5))
      && b.users[1].coins == 3
      && |b.timers| == 2
    ensures var c := SubmitAnswer(MidRound(), "", Some(5), 1).room;
      SubmitAnswer(c, "b", Some(5), 2) == Step(c, [])
  {
    FalsyWinStep();
    SecondWinStep();
    assert |map[1 := Settle(true), 2 := Settle(true)]| == 2;
    var c := SubmitAnswer(MidRound(), "", Some(5), 1).room;
    assert c.gameState.value.roundTimer.None?;
  }

  // ------------------------------------------- a countdown inside a session

  /** The guard that arms the countdown as written: it does not ask whether
      a session is running. */
  predicate ArmsCountdownAsWritten(r: Room) {
    AllReady(r.users) && r.gameTimer.None?
  }

  /** `playerReady` as written: afterwards a countdown exists exactly when
      everyone is ready, whether or not a session is running; outside a
      session it is the corrected handler. */
  function PlayerReadyAsWritten(r: Room, uid: UserId, ready: bool, h: Handle): (s: Step)
    ensures s.room.gameTimer.Some? <==> AllReady(SetReady(r.users, uid, ready))
    ensures !InSession(r) ==> s == PlayerReady(r, uid, ready, h)
  {
    var r1 := r.(users := SetReady(r.users, uid, ready));
    var lobby := [LobbyUpdate(r1.users, r1.hostId)];
    if ArmsCountdownAsWritten(r1) then
      Step(r1.(gameTimer := Some(h), timers := r1.timers[h := Countdown(CountdownSeconds)]),
           lobby + [CountdownMsg(Some(CountdownSeconds))])
    else if !AllReady(r1.users) && r1.gameTimer.Some? then
      Step(r1.(gameTimer := None, timers := Cleared(r1.timers, r1.gameTimer)), lobby + [CountdownMsg(None)])
    else
      Step(r1, lobby)
  }

  /** The first vote of a session: the ready flags set in the lobby are
      still set, and the countdown was cleared when the game started. */
  function FirstVote(): Room {
    var board := map["a" := Score("Alice", 0, 0), "b" := Score("Bob", 0, 0)];
    var gs := GameState(Voting, 1, 3, VoteOptions, [], None, board, None, Some(0));
    Room([Alice, Bob], "s1", [], 1, 3, Some(gs), None, map[0 := VoteClock(VoteSeconds)])
  }

  /** A ready click during the vote arms a countdown as written: two timers
      run inside the session, and when the countdown runs out the session
      restarts at round 1 while the old vote clock keeps running. The
      corrected guard leaves the timers alone. */
  lemma CountdownDuringSession()
    ensures RoomOk(FirstVote(), 1)
    ensures var a := PlayerReadyAsWritten(FirstVote(), "a", true, 1).room;
      && InSession(a)
      && a.timers == map[0 := VoteClock(VoteSeconds), 1 := Countdown(CountdownSeconds)]
      && !RoomOk(a, 2)
    ensures var late := FirstVote().(gameTimer := Some(1),
                                     timers := map[0 := VoteClock(30), 1 := Countdown(1)]);
      var g := CountdownTick(late, 1, 2).room;
      && g.gameState.value.round == 1
      && g.timers == map[0 := VoteClock(30), 2 := VoteClock(VoteSeconds)]
    ensures PlayerReady(FirstVote(), "a", true, 1).room == FirstVote()
  {
    var r := FirstVote();
    assert r.timers.Keys == {0};
    assert SetReady(r.users, "a", true) == r.users by {
      assert Find(r.users, "a") == Some(0);
    }
    var late := FirstVote().(gameTimer := Some(1), timers := map[0 := VoteClock(30), 1 := Countdown(1)]);
    assert late.timers - {1} == map[0 := VoteClock(30)];
  }
}
