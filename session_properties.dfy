/**
 * What a room's session promises, stated over the step functions of module
 * Rooms for rooms that satisfy the room invariant.
 */
module SessionProperties {
  import opened Wrappers
  import opened Registry
  import opened Voting
  import opened Rooms
  import opened RoomInvariants
  import GuessNumber

  // ------------------------------------------------------------ countdown

  /** After `playerReady`, a countdown runs exactly when at least two users
      are all ready and no session is running; a running countdown is never
      restarted; and cancelling one broadcasts a null count. */
  lemma PlayerReadyCountdown(r: Room, uid: UserId, ready: bool, h: Handle)
    requires RoomOk(r, h)
    ensures var s := PlayerReady(r, uid, ready, h);
      s.room.gameTimer.Some? <==> AllReady(SetReady(r.users, uid, ready)) && !InSession(r)
    ensures var s := PlayerReady(r, uid, ready, h);
      r.gameTimer.None? && s.room.gameTimer.Some? ==>
        s.room.timers == map[h := Countdown(CountdownSeconds)]
        && s.out[|s.out| - 1] == CountdownMsg(Some(CountdownSeconds))
    ensures var s := PlayerReady(r, uid, ready, h);
      r.gameTimer.Some? && s.room.gameTimer.Some? ==> s.room.timers == r.timers
    ensures var s := PlayerReady(r, uid, ready, h);
      r.gameTimer.Some? && s.room.gameTimer.None? ==>
        s.room.timers == map[] && s.out[|s.out| - 1] == CountdownMsg(None)
  {
    if r.gameTimer.Some? {
      assert Cleared(r.timers, r.gameTimer) == map[];
    }
  }

  /** A countdown tick when someone is no longer ready (or the room has
      fewer than two users) cancels the countdown and broadcasts a null count. */
  lemma CountdownTickCancels(r: Room, h: Handle, hNew: Handle)
    requires RoomOk(r, hNew) && h in r.timers && r.timers[h].Countdown?
    ensures var s := CountdownTick(r, h, hNew);
      !AllReady(r.users) ==>
        s.room.gameTimer.None? && s.room.timers == map[] && !InSession(s.room)
        && s.out == [CountdownMsg(None)]
  {
    assert r.gameTimer == Some(h) && r.timers.Keys == {h};
    assert Cleared(r.timers, r.gameTimer) == map[];
  }

  /** The tick that brings the count to 0 starts the session: round 1 of
      the session's length, voting with no votes, the leaderboard snapshot,
      and the vote clock as the only timer. */
  lemma CountdownTickStarts(r: Room, h: Handle, hNew: Handle)
    requires RoomOk(r, hNew) && h in r.timers && r.timers[h].Countdown?
    ensures var s := CountdownTick(r, h, hNew);
      AllReady(r.users) && r.timers[h].seconds == 1 ==>
        && s.room.gameTimer.None? && s.room.users == r.users
        && s.room.currentRound == 1
        && s.room.totalRounds == TotalRoundsFor(|r.users|)
        && s.room.gameState.Some?
        && s.room.gameState.value.phase == Voting
        && s.room.gameState.value.round == 1
        && s.room.gameState.value.totalRounds == TotalRoundsFor(|r.users|)
        && s.room.gameState.value.votes == []
        && s.room.gameState.value.currentGame.None?
        && s.room.gameState.value.leaderboard == Snapshot(r.users)
        && s.room.timers == map[hNew := VoteClock(VoteSeconds)]
        && s.out[..2] == [CountdownMsg(Some(0)), GameStart(1)]
  {
    assert r.gameTimer == Some(h) && r.timers.Keys == {h};
    assert Cleared(r.timers, r.gameTimer) == map[];
  }

  /** Any other tick counts down by one and announces the new count. */
  lemma CountdownTickCounts(r: Room, h: Handle, hNew: Handle)
    requires RoomOk(r, hNew) && h in r.timers && r.timers[h].Countdown?
    ensures var s := CountdownTick(r, h, hNew);
      AllReady(r.users) && r.timers[h].seconds > 1 ==>
        s.room.gameTimer == Some(h) && s.room.timers == map[h := Countdown(r.timers[h].seconds - 1)]
        && s.out == [CountdownMsg(Some(r.timers[h].seconds - 1))]
  {
    assert r.gameTimer == Some(h) && r.timers.Keys == {h};
    var n := r.timers[h].seconds;
    assert r.timers[h := Countdown(n - 1)] == map[h := Countdown(n - 1)];
  }

  // --------------------------------------------------------------- voting

  /** `castVote` outside the voting phase, or for an option that is not
      offered, changes nothing and broadcasts nothing. */
  lemma CastVoteRejected(r: Room, uid: UserId, choice: GameId, target: int, hNew: Handle)
    ensures !AcceptsVote(r, choice) ==> CastVote(r, uid, choice, target, hNew) == Step(r, [])
  {
  }

  /** An accepted vote broadcasts the vote object with the voter's entry set
      (or replaced), and the object's key count is the number of distinct
      voters. */
  lemma CastVoteOutcome(r: Room, uid: UserId, choice: GameId, target: int, hNew: Handle)
    requires RoomOk(r, hNew) && GuessNumber.ValidTarget(target)
    ensures AcceptsVote(r, choice) ==>
      var s := CastVote(r, uid, choice, target, hNew);
      var votes := RecordVote(r.gameState.value.votes, uid, choice);
      && s.out[0] == VoteUpdate(votes)
      && VoteMap(votes) == VoteMap(r.gameState.value.votes)[uid := choice]
      && |Voters(votes)| == |votes|
  {
    if AcceptsVote(r, choice) {
      var gs := r.gameState.value;
      var votes := RecordVote(gs.votes, uid, choice);
      RecordVoteMap(gs.votes, uid, choice);
      VoteCountIsVoters(votes);
    }
  }

  /** An accepted vote is kept, and it ends the voting exactly when the
      number of voters reaches the number of users. */
  lemma CastVoteCloses(r: Room, uid: UserId, choice: GameId, target: int, hNew: Handle)
    requires RoomOk(r, hNew) && GuessNumber.ValidTarget(target)
    ensures AcceptsVote(r, choice) ==>
      var s := CastVote(r, uid, choice, target, hNew);
      var votes := RecordVote(r.gameState.value.votes, uid, choice);
      && s.room.gameState.Some?
      && (s.room.gameState.value.phase == Playing <==> |votes| == |r.users|)
      && s.room.gameState.value.votes == votes
  {
    if AcceptsVote(r, choice) {
      var gs := r.gameState.value;
      var votes := RecordVote(gs.votes, uid, choice);
      var r1 := r.(gameState := Some(gs.(votes := votes)));
      var s := CastVote(r, uid, choice, target, hNew);
      assert gs.roundTimer.Some?;
      if AllVoted(r1) {
        var f := FinishVoting(r1.(timers := Cleared(r1.timers, gs.roundTimer),
                                  gameState := Some(gs.(votes := votes, roundTimer := None))), target, hNew);
        assert s == Step(f.room, [VoteUpdate(votes)] + f.out);
        assert f.room.gameState.value.phase == Playing && f.room.gameState.value.votes == votes;
      } else {
        assert s == Step(r1, [VoteUpdate(votes)]);
      }
    }
  }

  /** One vote-clock tick ends the voting exactly when the clock reaches 0
      or everyone has voted; the game then played is a most frequent vote,
      or the first option when nobody voted, and always an offered option. */
  lemma VoteTickOutcome(r: Room, h: Handle, target: int, hNew: Handle)
    requires RoomOk(r, hNew) && h in r.timers && r.timers[h].VoteClock?
    requires GuessNumber.ValidTarget(target)
    ensures r.gameState.Some? && |r.gameState.value.voteOptions| > 0
    ensures var s := VoteTick(r, h, target, hNew);
      var gs := r.gameState.value;
      && s.room.gameState.Some?
      && (s.room.gameState.value.phase == Playing <==> r.timers[h].seconds <= 1 || AllVoted(r))
      && (s.room.gameState.value.phase == Playing ==>
            && s.room.gameState.value.currentGame == Some(ChooseGame(gs.votes, gs.voteOptions))
            && ChooseGame(gs.votes, gs.voteOptions) in gs.voteOptions
            && (gs.votes == [] ==> ChooseGame(gs.votes, gs.voteOptions) == gs.voteOptions[0])
            && s.room.gameState.value.data == Some(GuessNumber.Data(target, None))
            && s.room.timers == map[hNew := RoundClock(GuessNumber.RoundSeconds)])
      && (s.room.gameState.value.phase == Voting ==>
            s.room.timers == map[h := VoteClock(r.timers[h].seconds - 1)])
  {
    VoteTickOk(r, h, target, hNew);
    var gs := r.gameState.value;
    assert gs.roundTimer == Some(h) && r.timers.Keys == {h};
    assert r.timers[h := VoteClock(r.timers[h].seconds - 1)] == map[h := VoteClock(r.timers[h].seconds - 1)];
    assert Cleared(r.timers[h := VoteClock(r.timers[h].seconds - 1)], gs.roundTimer) == map[];
  }

  // -------------------------------------------------------------- scoring

  /** The reward of a correct answer: the answering user (when the id is
      truthy and still a member) gets exactly +3 coins and +1 win, on the
      record and on the leaderboard entry if there is one; nobody else
      changes; the result names the winner and reveals the target. */
  lemma WinnerReward(r: Room, uid: UserId, num: Option<int>, hNew: Handle)
    requires RoomOk(r, hNew) && AcceptsAnswer(r, num)
    ensures var s := SubmitAnswer(r, uid, num, hNew);
      var gs := r.gameState.value;
      var paid := uid != "" && Member(r.users, uid);
      && |s.room.users| == |r.users|
      && (forall j :: 0 <= j < |r.users| ==>
            s.room.users[j] ==
              if paid && r.users[j].userId == uid
              then r.users[j].(coins := r.users[j].coins + RewardCoins, wins := r.users[j].wins + RewardWins)
              else r.users[j])
      && s.room.gameState.Some?
      && s.room.gameState.value.leaderboard.Keys == gs.leaderboard.Keys
      && (forall k :: k in gs.leaderboard ==>
            s.room.gameState.value.leaderboard[k] ==
              if paid && k == uid
              then gs.leaderboard[k].(coins := gs.leaderboard[k].coins + RewardCoins, wins := gs.leaderboard[k].wins + RewardWins)
              else gs.leaderboard[k])
      && s.out[0] == RoundResult(if uid != "" then Some(uid) else None, Some(gs.data.value.target),
                                 s.room.gameState.value.leaderboard)
  {
    var s := SubmitAnswer(r, uid, num, hNew);
    if uid != "" && Member(r.users, uid) {
      var c := Credit(r.users, uid);
      forall j | 0 <= j < |r.users|
        ensures c[j] == if r.users[j].userId == uid
                        then r.users[j].(coins := r.users[j].coins + RewardCoins, wins := r.users[j].wins + RewardWins)
                        else r.users[j]
      {
        if r.users[j].userId == uid {
          var i :| 0 <= i < |c| && r.users[i].userId == uid
            && c[i].coins == r.users[i].coins + RewardCoins && c[i].wins == r.users[i].wins + RewardWins;
          assert r.users[i].userId == r.users[j].userId;
        }
      }
    }
  }

  /** A round is scored once: after an accepted answer no later answer is
      accepted and no round clock is left to time out. */
  lemma ScoringIdempotent(r: Room, uid: UserId, num: Option<int>, hNew: Handle,
                          uid2: UserId, num2: Option<int>, h2: Handle)
    requires RoomOk(r, hNew) && AcceptsAnswer(r, num)
    ensures var r1 := SubmitAnswer(r, uid, num, hNew).room;
      && SubmitAnswer(r1, uid2, num2, h2) == Step(r1, [])
      && forall k :: k in r1.timers ==> r1.timers[k].Settle?
  {
    var r1 := SubmitAnswer(r, uid, num, hNew).room;
    SubmitAnswerOk(r, uid, num, hNew);
    assert !AcceptsAnswer(r1, num2);
    var gs := r.gameState.value;
    assert Cleared(r.timers, gs.roundTimer) == map[] by {
      assert r.timers.Keys == {gs.roundTimer.value};
    }
  }

  /** A round that times out pays nobody, reveals the target, and accepts no
      answer afterwards. */
  lemma NoCreditAfterTimeout(r: Room, h: Handle, hNew: Handle)
    requires RoomOk(r, hNew) && h in r.timers && r.timers[h] == RoundClock(1)
    ensures r.gameState.Some?
    ensures var s := RoundTick(r, h, hNew);
      var gs := r.gameState.value;
      && s.room.users == r.users
      && s.room.gameState.Some?
      && s.room.gameState.value.leaderboard == gs.leaderboard
      && s.out[1] == RoundResult(None, Some(gs.data.value.target), gs.leaderboard)
      && forall uid, num, h2 :: SubmitAnswer(s.room, uid, num, h2) == Step(s.room, [])
  {
    RoundTickOk(r, h, hNew);
  }

  // ----------------------------------------------------- nothing goes back

  /** No user's coins or wins decrease from `a` to `b`. */
  predicate UsersKept(a: seq<User>, b: seq<User>) {
    forall i, j :: 0 <= i < |a| && 0 <= j < |b| && a[i].userId == b[j].userId ==>
      a[i].coins <= b[j].coins && a[i].wins <= b[j].wins
  }

  /** No leaderboard entry disappears or decreases from `a` to `b`. */
  predicate BoardKept(a: map<UserId, Score>, b: map<UserId, Score>) {
    forall k :: k in a ==> k in b && a[k].coins <= b[k].coins && a[k].wins <= b[k].wins
  }

  /** One step inside a session, or in the lobby: scores do not decrease;
      the session keeps its length, its leaderboard entries, and its round
      number does not go back. */
  predicate Progress(a: Room, b: Room) {
    && UsersKept(a.users, b.users)
    && b.totalRounds == a.totalRounds
    && (a.gameState.Some? ==>
          && b.gameState.Some?
          && b.gameState.value.totalRounds == a.gameState.value.totalRounds
          && a.gameState.value.round <= b.gameState.value.round
          && BoardKept(a.gameState.value.leaderboard, b.gameState.value.leaderboard))
  }

  /** A record whose ids are kept index by index and whose scores do not
      decrease keeps every user's scores. */
  lemma UsersKeptPointwise(a: seq<User>, b: seq<User>)
    requires UniqueIds(a) && |a| == |b|
    requires forall j :: 0 <= j < |a| ==>
      b[j].userId == a[j].userId && a[j].coins <= b[j].coins && a[j].wins <= b[j].wins
    ensures UsersKept(a, b)
  {
    forall i, j | 0 <= i < |a| && 0 <= j < |b| && a[i].userId == b[j].userId
      ensures a[i].coins <= b[j].coins && a[i].wins <= b[j].wins
    {
      assert a[i].userId == a[j].userId;
    }
  }

  /** Joining or reconnecting is a step of progress. */
  lemma JoinRoomProgress(r: Room, next: nat, sock: SocketId, p: Profile)
    requires RoomOk(r, next)
    ensures Progress(r, JoinRoom(r, sock, p).room)
  {
    var j1 := JoinRoom(r, sock, p).room.users;
    forall i, j | 0 <= i < |r.users| && 0 <= j < |j1| && r.users[i].userId == j1[j].userId
      ensures r.users[i].coins <= j1[j].coins && r.users[i].wins <= j1[j].wins
    {
      if Member(r.users, p.userId) {
        assert r.users[i].userId == r.users[j].userId;
      } else if j < |r.users| {
        assert j1[j] == j1[..|r.users|][j] == r.users[j];
        assert r.users[i].userId == r.users[j].userId;
      }
    }
  }

  /** Leaving is a step of progress for the room left behind. */
  lemma RemoveUserProgress(r: Room, next: nat, sock: SocketId)
    requires RoomOk(r, next)
    ensures Progress(r, RemoveUser(r, sock))
  {
    var rm := RemoveBySocket(r.users, sock);
    forall i, j | 0 <= i < |r.users| && 0 <= j < |rm| && r.users[i].userId == rm[j].userId
      ensures r.users[i].coins <= rm[j].coins && r.users[i].wins <= rm[j].wins
    {
      assert rm[j] in rm;
      var k :| 0 <= k < |r.users| && r.users[k] == rm[j];
      assert r.users[i].userId == r.users[k].userId;
    }
  }

  /** Readiness is a step of progress. */
  lemma PlayerReadyProgress(r: Room, next: nat, uid: UserId, ready: bool)
    requires RoomOk(r, next)
    ensures Progress(r, PlayerReady(r, uid, ready, next).room)
  {
    var s := PlayerReady(r, uid, ready, next).room;
    UsersKeptPointwise(r.users, SetReady(r.users, uid, ready));
    assert s.users == SetReady(r.users, uid, ready) && s.gameState == r.gameState && s.totalRounds == r.totalRounds;
  }

  /** Chat is a step of progress. */
  lemma SendMessageProgress(r: Room, next: nat, username: string, message: string)
    requires RoomOk(r, next)
    ensures Progress(r, SendMessage(r, username, message).room)
  {
  }

  /** Closing a vote keeps the users, the session's length, its round and
      its leaderboard. */
  lemma FinishVotingKeeps(r: Room, target: int, h: Handle)
    requires r.gameState.Some? && |r.gameState.value.voteOptions| > 0
    ensures var f := FinishVoting(r, target, h).room;
      && f.users == r.users && f.totalRounds == r.totalRounds && f.gameState.Some?
      && f.gameState.value.round == r.gameState.value.round
      && f.gameState.value.totalRounds == r.gameState.value.totalRounds
      && f.gameState.value.leaderboard == r.gameState.value.leaderboard
  {
  }

  /** Voting is a step of progress. */
  lemma CastVoteProgress(r: Room, next: nat, uid: UserId, choice: GameId, target: int)
    requires RoomOk(r, next) && GuessNumber.ValidTarget(target)
    ensures Progress(r, CastVote(r, uid, choice, target, next).room)
  {
    var s := CastVote(r, uid, choice, target, next).room;
    if AcceptsVote(r, choice) {
      var gs := r.gameState.value.(votes := RecordVote(r.gameState.value.votes, uid, choice));
      var r1 := r.(gameState := Some(gs));
      if AllVoted(r1) && gs.roundTimer.Some? {
        var c := r1.(timers := Cleared(r1.timers, gs.roundTimer), gameState := Some(gs.(roundTimer := None)));
        FinishVotingKeeps(c, target, next);
        assert s == FinishVoting(c, target, next).room;
      } else {
        assert s == r1;
      }
      assert s.users == r.users;
      assert s.gameState.value.leaderboard == r.gameState.value.leaderboard;
    }
  }

  /** Answering is a step of progress. */
  lemma SubmitAnswerProgress(r: Room, next: nat, uid: UserId, num: Option<int>)
    requires RoomOk(r, next)
    ensures Progress(r, SubmitAnswer(r, uid, num, next).room)
  {
    UsersKeptPointwise(r.users, Credit(r.users, uid));
  }

  /** The countdown tick leaves every user as it was, scores included. */
  lemma CountdownTickKeepsUsers(r: Room, h: Handle, next: nat)
    requires RoomOk(r, next) && h in r.timers && r.timers[h].Countdown?
    ensures CountdownTick(r, h, next).room.users == r.users
  {
  }

  /** A vote-clock tick is a step of progress. */
  lemma VoteTickProgress(r: Room, h: Handle, target: int, next: nat)
    requires RoomOk(r, next) && h in r.timers && r.timers[h].VoteClock? && GuessNumber.ValidTarget(target)
    ensures r.gameState.Some? && |r.gameState.value.voteOptions| > 0
    ensures Progress(r, VoteTick(r, h, target, next).room)
  {
    var gs := r.gameState.value;
    assert gs.phase == Voting && |gs.voteOptions| > 0;
    var s := VoteTick(r, h, target, next).room;
    if r.timers[h].seconds - 1 <= 0 || AllVoted(r) {
      var c := r.(timers := Cleared(r.timers[h := VoteClock(r.timers[h].seconds - 1)], gs.roundTimer),
                  gameState := Some(gs.(roundTimer := None)));
      FinishVotingKeeps(c, target, next);
      assert s == FinishVoting(c, target, next).room;
    }
  }

  /** A round-clock tick is a step of progress. */
  lemma RoundTickProgress(r: Room, h: Handle, next: nat)
    requires RoomOk(r, next) && h in r.timers && r.timers[h].RoundClock?
    ensures r.gameState.Some?
    ensures Progress(r, RoundTick(r, h, next).room)
  {
    RoundTickOk(r, h, next);
  }

  /** The settle timeout is a step of progress. */
  lemma SettleProgress(r: Room, h: Handle, next: nat)
    requires RoomOk(r, next) && h in r.timers && r.timers[h].Settle?
    ensures r.gameState.Some?
    ensures Progress(r, SettleFire(r, h, next).room)
  {
    SettleFireOk(r, h, next);
    var s := SettleFire(r, h, next).room;
    UsersKeptPointwise(r.users, s.users);
  }

  // ------------------------------------------------------------- settling

  /** The settle timeout advances to the next round's vote, starting with no
      votes, while rounds remain; after the last round the game is over, the
      last round was the session's last, and every user is unready. */
  lemma SettleOutcome(r: Room, h: Handle, hNew: Handle)
    requires RoomOk(r, hNew) && h in r.timers && r.timers[h].Settle?
    ensures r.gameState.Some?
    ensures var s := SettleFire(r, h, hNew);
      var gs := r.gameState.value;
      && s.room.gameState.Some?
      && (gs.round < gs.totalRounds ==>
            && s.room.gameState.value.phase == Voting
            && s.room.gameState.value.round == gs.round + 1
            && s.room.gameState.value.votes == []
            && s.room.timers == map[hNew := VoteClock(VoteSeconds)]
            && s.out == [VoteStart(VoteSeconds, VoteOptions, gs.round + 1, gs.totalRounds)])
      && (gs.round >= gs.totalRounds ==>
            && s.room.gameState.value.phase == Over
            && gs.round == gs.totalRounds
            && s.room.timers == map[]
            && !InSession(s.room)
            && |s.room.users| == |r.users|
            && (forall j :: 0 <= j < |r.users| ==> s.room.users[j] == r.users[j].(isReady := false))
            && s.out == [GameOver(gs.leaderboard), LobbyUpdate(s.room.users, r.hostId)])
  {
    SettleFireOk(r, h, hNew);
  }

  // -------------------------------------------------------------- joining

  /** The host reconnecting on a fresh socket: the user keeps its place and
      only its socket id changes, but `hostId` still names the old socket,
      which no user has any more; so when the new socket later leaves, the
      host is not handed on. */
  lemma HostReconnect(r: Room, next: nat, sock: SocketId, p: Profile, i: nat)
    requires RoomOk(r, next) && i < |r.users|
    requires r.users[i].userId == p.userId && r.users[i].id == r.hostId
    requires forall j :: 0 <= j < |r.users| ==> r.users[j].id != sock
    requires forall j :: 0 <= j < |r.users| && j != i ==> r.users[j].id != r.hostId
    ensures var s := JoinRoom(r, sock, p).room;
      && s.hostId == r.hostId
      && |s.users| == |r.users|
      && s.users[i] == r.users[i].(id := sock)
      && (forall j :: 0 <= j < |s.users| ==> s.users[j].id != s.hostId)
      && RemoveUser(s, sock).hostId == r.hostId
  {
    var s := JoinRoom(r, sock, p).room;
    assert Member(r.users, p.userId);
    forall k | 0 <= k < i ensures r.users[k].userId != p.userId {
      assert r.users[k].userId != r.users[i].userId;
    }
  }

  // -------------------------------------------------------------- leaving

  /** Leaving keeps the order of the remaining users, and when the host's
      socket leaves, the host becomes the socket of the oldest remaining
      user. */
  lemma HostFailover(r: Room, sock: SocketId, k: nat)
    requires k < |r.users| && r.users[k].id != sock
    requires forall i :: 0 <= i < k ==> r.users[i].id == sock
    ensures var r1 := RemoveUser(r, sock);
      && r1.users == RemoveBySocket(r.users, sock)
      && |r1.users| > 0
      && r1.hostId == if r.hostId == sock then r.users[k].id else r.hostId
  {
    RemoveBySocketFirst(r.users, sock, k);
  }
}
