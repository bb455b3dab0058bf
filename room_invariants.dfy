/**
 * The invariant every room of the directory keeps between two events, the
 * proof that every handler and timer callback preserves it, and the
 * properties of the session that follow.
 */
module RoomInvariants {
  import opened Wrappers
  import opened Registry
  import opened Voting
  import opened Rooms
  import GuessNumber

  /** Every handle in use was allocated before `next`. */
  predicate TimersBelow(r: Room, next: nat) {
    forall h :: h in r.timers ==> h < next
  }

  /** `h` is the room's only live timer. */
  predicate Sole(t: map<Handle, Timer>, h: Handle) {
    h in t && t.Keys == {h}
  }

  /** Which timer is live in which state: the countdown only outside a
      session; in a session exactly the timer of the phase (vote clock, round
      clock, or the settle timeout once the round is over); none otherwise. */
  predicate TimersOk(r: Room) {
    if r.gameTimer.Some? then
      var h := r.gameTimer.value;
      && !InSession(r) && Sole(r.timers, h)
      && r.timers[h].Countdown? && 1 <= r.timers[h].seconds <= CountdownSeconds
    else if !InSession(r) then
      r.timers == map[]
    else
      var gs := r.gameState.value;
      if gs.phase == Voting then
        && gs.roundTimer.Some? && Sole(r.timers, gs.roundTimer.value)
        && r.timers[gs.roundTimer.value].VoteClock?
        && 1 <= r.timers[gs.roundTimer.value].seconds <= VoteSeconds
      else if gs.roundTimer.Some? then
        && Sole(r.timers, gs.roundTimer.value)
        && r.timers[gs.roundTimer.value].RoundClock?
        && 1 <= r.timers[gs.roundTimer.value].seconds <= GuessNumber.RoundSeconds
      else
        exists h | h in r.timers :: Sole(r.timers, h) && r.timers[h] == Settle(gs.round < gs.totalRounds)
  }

  /** What a session's state always satisfies. */
  predicate SessionOk(r: Room) {
    r.gameState.Some? ==>
      var gs := r.gameState.value;
      && gs.voteOptions == VoteOptions
      && gs.totalRounds == r.totalRounds
      && (gs.totalRounds == 3 || gs.totalRounds == 4)
      && 1 <= gs.round <= gs.totalRounds
      && (gs.phase == Over ==> gs.round == gs.totalRounds)
      && DistinctVoters(gs.votes) && ChoicesIn(gs.votes, gs.voteOptions)
      && (gs.currentGame.Some? ==> gs.currentGame.value in gs.voteOptions)
      && (gs.data.Some? ==> GuessNumber.ValidTarget(gs.data.value.target))
      && (gs.phase == Playing ==> gs.currentGame == Some(GuessNumber.Id) && gs.data.Some?)
      && (gs.phase == Playing && gs.roundTimer.Some? ==> !GuessNumber.Truthy(gs.data.value.winnerId))
  }

  /** The room invariant; `next` is the next handle to be allocated. */
  predicate RoomOk(r: Room, next: nat) {
    && |r.users| > 0
    && UniqueIds(r.users)
    && TimersBelow(r, next)
    && TimersOk(r)
    && SessionOk(r)
  }

  lemma RoomOkLater(r: Room, next: nat, later: nat)
    requires RoomOk(r, next) && next <= later
    ensures RoomOk(r, later)
  {
  }

  // ------------------------------------------------------------ the timers

  /** Every live timer belongs to the room's current phase: a countdown is
      the room's `gameTimer`, a vote clock or round clock is the session's
      `roundTimer` in the voting or playing phase, and a settle timeout only
      exists in the playing phase once the round clock is gone. */
  lemma TimerOwner(r: Room, h: Handle, next: nat)
    requires RoomOk(r, next) && h in r.timers
    ensures r.timers[h].Countdown? ==> r.gameTimer == Some(h)
    ensures !r.timers[h].Countdown? ==> r.gameTimer.None? && r.gameState.Some?
    ensures r.timers[h].VoteClock? ==>
      r.gameState.value.phase == Voting && r.gameState.value.roundTimer == Some(h)
      && r.gameState.value.voteOptions == VoteOptions
    ensures r.timers[h].RoundClock? ==>
      r.gameState.value.phase == Playing && r.gameState.value.roundTimer == Some(h)
    ensures r.timers[h].Settle? ==>
      r.gameState.value.phase == Playing && r.gameState.value.roundTimer.None?
  {
    if r.gameTimer.None? && InSession(r) {
      var gs := r.gameState.value;
      if gs.phase != Voting && gs.roundTimer.None? {
        var k: Handle :| k in r.timers && Sole(r.timers, k) && r.timers[k] == Settle(gs.round < gs.totalRounds);
        assert h in r.timers.Keys && r.timers.Keys == {k};
      }
    }
  }

  /** A room has at most one live timer at any time. */
  lemma AtMostOneTimer(r: Room, next: nat)
    requires RoomOk(r, next)
    ensures |r.timers| <= 1
  {
    if r.gameTimer.Some? {
      assert |r.timers.Keys| == |{r.gameTimer.value}| == 1;
    } else if InSession(r) && r.gameState.value.roundTimer.Some? {
      assert |r.timers.Keys| == |{r.gameState.value.roundTimer.value}| == 1;
    } else if InSession(r) && r.gameState.value.phase == Playing {
      var h: Handle :| h in r.timers && Sole(r.timers, h) && r.timers[h] == Settle(r.gameState.value.round < r.gameState.value.totalRounds);
      assert |r.timers.Keys| == |{h}| == 1;
    }
  }

  // ------------------------------------------------------ invariant kept

  lemma JoinNewRoomOk(sock: SocketId, p: Profile, next: nat)
    ensures RoomOk(JoinRoom(NewRoom(sock), sock, p).room, next)
  {
    var r := JoinRoom(NewRoom(sock), sock, p).room;
    assert !Member([], p.userId);
    assert |r.users| == 1;
  }

  lemma JoinRoomOk(r: Room, sock: SocketId, p: Profile, next: nat)
    requires RoomOk(r, next)
    ensures RoomOk(JoinRoom(r, sock, p).room, next)
  {
  }

  lemma PlayerReadyOk(r: Room, uid: UserId, ready: bool, next: nat)
    requires RoomOk(r, next)
    ensures RoomOk(PlayerReady(r, uid, ready, next).room, next + 1)
  {
    var r1 := r.(users := SetReady(r.users, uid, ready));
    assert UniqueIds(r1.users);
    if ArmsCountdown(r1) {
      assert r1.timers == map[];
      assert PlayerReady(r, uid, ready, next).room.timers.Keys == {next};
    } else if !AllReady(r1.users) && r1.gameTimer.Some? {
      assert Sole(r1.timers, r1.gameTimer.value);
      assert Cleared(r1.timers, r1.gameTimer) == map[];
    }
  }

  lemma SendMessageOk(r: Room, username: string, message: string, next: nat)
    requires RoomOk(r, next)
    ensures RoomOk(SendMessage(r, username, message).room, next)
  {
  }

  lemma RemoveUserOk(r: Room, sock: SocketId, next: nat)
    requires RoomOk(r, next) && |RemoveBySocket(r.users, sock)| > 0
    ensures RoomOk(RemoveUser(r, sock), next)
  {
    RemoveBySocketUnique(r.users, sock);
  }

  /** A room out of session, with no timer, starting its game. */
  lemma StartGameOk(r: Room, next: nat)
    requires |r.users| > 0 && UniqueIds(r.users) && !InSession(r)
    requires r.gameTimer.None? && r.timers == map[]
    ensures RoomOk(StartGame(r, next).room, next + 1)
  {
    var g := StartGame(r, next).room;
    assert g.timers == map[next := VoteClock(VoteSeconds)];
    assert g.timers.Keys == {next};
  }

  lemma CountdownTickOk(r: Room, h: Handle, next: nat)
    requires RoomOk(r, next) && h in r.timers && r.timers[h].Countdown?
    ensures RoomOk(CountdownTick(r, h, next).room, next + 1)
  {
    assert r.gameTimer == Some(h);
    assert Cleared(r.timers, r.gameTimer) == map[];
    if AllReady(r.users) && r.timers[h].seconds - 1 <= 0 {
      StartGameOk(r.(gameTimer := None, timers := map[]), next);
    } else if AllReady(r.users) {
      assert r.timers[h := Countdown(r.timers[h].seconds - 1)].Keys == {h};
    }
  }

  /** A voting phase whose clock has been cleared. */
  predicate VotingClosed(r: Room, next: nat) {
    && |r.users| > 0 && UniqueIds(r.users) && TimersBelow(r, next)
    && r.gameTimer.None? && r.timers == map[] && SessionOk(r)
    && r.gameState.Some? && r.gameState.value.phase == Voting && r.gameState.value.roundTimer.None?
  }

  lemma FinishVotingOk(r: Room, target: int, next: nat)
    requires VotingClosed(r, next) && GuessNumber.ValidTarget(target)
    ensures RoomOk(FinishVoting(r, target, next).room, next + 1)
    ensures FinishVoting(r, target, next).room.gameState.value.phase == Playing
  {
    var gs := r.gameState.value;
    var choice := ChooseGame(gs.votes, gs.voteOptions);
    assert choice == GuessNumber.Id;
    var f := FinishVoting(r, target, next).room;
    assert f.timers == map[next := RoundClock(GuessNumber.RoundSeconds)];
    assert f.timers.Keys == {next};
  }

  lemma VoteTickOk(r: Room, h: Handle, target: int, next: nat)
    requires RoomOk(r, next) && h in r.timers && r.timers[h].VoteClock?
    requires GuessNumber.ValidTarget(target)
    ensures r.gameState.Some? && |r.gameState.value.voteOptions| > 0
    ensures RoomOk(VoteTick(r, h, target, next).room, next + 1)
  {
    var gs := r.gameState.value;
    assert gs.phase == Voting && gs.roundTimer == Some(h);
    var s := r.timers[h].seconds - 1;
    if s <= 0 || AllVoted(r) {
      assert r.timers[h := VoteClock(s)].Keys == {h};
      assert Cleared(r.timers[h := VoteClock(s)], gs.roundTimer) == map[];
      FinishVotingOk(r.(timers := map[], gameState := Some(gs.(roundTimer := None))), target, next);
    } else {
      assert r.timers[h := VoteClock(s)].Keys == {h};
    }
  }

  lemma CastVoteOk(r: Room, uid: UserId, choice: GameId, target: int, next: nat)
    requires RoomOk(r, next) && GuessNumber.ValidTarget(target)
    ensures RoomOk(CastVote(r, uid, choice, target, next).room, next + 1)
  {
    if AcceptsVote(r, choice) {
      var gs := r.gameState.value.(votes := RecordVote(r.gameState.value.votes, uid, choice));
      var r1 := r.(gameState := Some(gs));
      assert SessionOk(r1);
      if AllVoted(r1) && gs.roundTimer.Some? {
        assert Cleared(r1.timers, gs.roundTimer) == map[];
        FinishVotingOk(r1.(timers := map[], gameState := Some(gs.(roundTimer := None))), target, next);
      }
    }
  }

  /** A round whose clock has been cleared and forgotten. */
  predicate RoundClosed(r: Room, next: nat) {
    && |r.users| > 0 && UniqueIds(r.users) && TimersBelow(r, next)
    && r.gameTimer.None? && r.timers == map[] && SessionOk(r)
    && r.gameState.Some? && r.gameState.value.phase == Playing && r.gameState.value.roundTimer.None?
  }

  lemma EndRoundOk(r: Room, winner: Option<UserId>, next: nat)
    requires RoundClosed(r, next)
    ensures RoomOk(EndRound(r, winner, next).room, next + 1)
  {
    var e := EndRound(r, winner, next).room;
    var gs := r.gameState.value;
    assert e.timers == map[next := Settle(gs.round < gs.totalRounds)];
    assert e.timers.Keys == {next};
  }

  lemma RoundTickOk(r: Room, h: Handle, next: nat)
    requires RoomOk(r, next) && h in r.timers && r.timers[h].RoundClock?
    ensures r.gameState.Some?
    ensures RoomOk(RoundTick(r, h, next).room, next + 1)
  {
    var gs := r.gameState.value;
    assert gs.phase == Playing && gs.roundTimer == Some(h);
    var s := r.timers[h].seconds - 1;
    if s <= 0 {
      assert r.timers[h := RoundClock(s)].Keys == {h};
      assert Cleared(r.timers[h := RoundClock(s)], gs.roundTimer) == map[];
      EndRoundOk(r.(timers := map[], gameState := Some(gs.(roundTimer := None))), None, next);
    } else {
      assert r.timers[h := RoundClock(s)].Keys == {h};
    }
  }

  lemma SubmitAnswerOk(r: Room, uid: UserId, num: Option<int>, next: nat)
    requires RoomOk(r, next)
    ensures RoomOk(SubmitAnswer(r, uid, num, next).room, next + 1)
  {
    if AcceptsAnswer(r, num) {
      var gs := r.gameState.value;
      var r1 := r.(gameState := Some(gs.(data := Some(gs.data.value.(winnerId := Some(uid))))));
      assert Sole(r.timers, gs.roundTimer.value);
      var e := EndRoundAsWritten(r1, Some(uid), next);
      assert Cleared(r1.timers, gs.roundTimer) == map[];
      assert e.room.timers == map[next := Settle(gs.round < gs.totalRounds)];
      assert e.room.timers.Keys == {next};
    }
  }

  lemma SettleFireOk(r: Room, h: Handle, next: nat)
    requires RoomOk(r, next) && h in r.timers && r.timers[h].Settle?
    ensures r.gameState.Some?
    ensures RoomOk(SettleFire(r, h, next).room, next + 1)
  {
    var gs := r.gameState.value;
    assert gs.phase == Playing && gs.roundTimer.None?;
    assert r.timers - {h} == map[] by {
      var k: Handle :| k in r.timers && Sole(r.timers, k) && r.timers[k] == Settle(gs.round < gs.totalRounds);
      assert h in r.timers.Keys && r.timers.Keys == {k};
    }
    var s := SettleFire(r, h, next).room;
    if gs.round < gs.totalRounds {
      assert s.timers == map[next := VoteClock(VoteSeconds)];
      assert s.timers.Keys == {next};
    } else {
      assert s.timers == map[];
      assert UniqueIds(s.users) by {
        assert forall j :: 0 <= j < |s.users| ==> s.users[j].userId == r.users[j].userId;
      }
    }
  }
}
