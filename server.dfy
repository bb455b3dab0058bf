/**
 * The server itself: the directory of rooms, keyed by room code, with one
 * method per socket handler and per timer callback, each updating the
 * directory in place as the handler does. Every method is proved against
 * the step function of module Rooms for the room it touches, leaves every
 * other room alone, and keeps the room invariant of every room.
 *
 * The ghost log `sent` records every broadcast to a room, in order.
 */
module Server {
  import opened Wrappers
  import opened Registry
  import opened Voting
  import opened Rooms
  import opened RoomInvariants
  import GuessNumber

  /** A broadcast `io.to(code).emit(...)`. */
  datatype Event = Event(code: Code, msg: Msg)

  /** The acknowledgement of `getRoomState` for an existing room. */
  datatype RoomView = RoomView(users: seq<User>, hostId: SocketId, gameState: Option<GameState>, chat: seq<ChatLine>)

  function Tagged(code: Code, out: seq<Msg>): (t: seq<Event>)
    ensures |t| == |out|
    ensures forall i :: 0 <= i < |out| ==> t[i] == Event(code, out[i])
    ensures out == [] ==> t == []
    ensures |out| == 1 ==> t == [Event(code, out[0])]
  {
    if out == [] then [] else [Event(code, out[0])] + Tagged(code, out[1..])
  }

  /** Every room of a directory satisfies the room invariant. */
  predicate AllOk(rooms: map<Code, Room>, next: nat) {
    forall c {:trigger RoomOk(rooms[c], next)} :: c in rooms ==> RoomOk(rooms[c], next)
  }

  lemma AllOkUpdate(rooms: map<Code, Room>, next: nat, code: Code, room: Room, later: nat)
    requires AllOk(rooms, next) && next <= later && RoomOk(room, later)
    ensures AllOk(rooms[code := room], later)
  {
    var m := rooms[code := room];
    forall c | c in m ensures RoomOk(m[c], later) {
      if c != code {
        assert m[c] == rooms[c];
        RoomOkLater(rooms[c], next, later);
      }
    }
  }

  // Each handler and callback keeps every room valid: `after` is the
  // directory once the step has updated room `code`.

  lemma PlayerReadyAllOk(rooms: map<Code, Room>, code: Code, uid: UserId, ready: bool, next: Handle,
                         after: map<Code, Room>)
    requires AllOk(rooms, next) && code in rooms
    requires after == rooms[code := Rooms.PlayerReady(rooms[code], uid, ready, next).room]
    ensures AllOk(after, next + 1)
  {
    assert RoomOk(rooms[code], next);
    PlayerReadyOk(rooms[code], uid, ready, next);
    AllOkUpdate(rooms, next, code, after[code], next + 1);
  }

  lemma CastVoteAllOk(rooms: map<Code, Room>, code: Code, uid: UserId, choice: GameId, target: int, next: Handle,
                      after: map<Code, Room>)
    requires AllOk(rooms, next) && code in rooms && GuessNumber.ValidTarget(target)
    requires after == rooms[code := Rooms.CastVote(rooms[code], uid, choice, target, next).room]
    ensures AllOk(after, next + 1)
  {
    assert RoomOk(rooms[code], next);
    CastVoteOk(rooms[code], uid, choice, target, next);
    AllOkUpdate(rooms, next, code, after[code], next + 1);
  }

  lemma SubmitAnswerAllOk(rooms: map<Code, Room>, code: Code, uid: UserId, num: Option<int>, next: Handle,
                          after: map<Code, Room>)
    requires AllOk(rooms, next) && code in rooms
    requires after == rooms[code := Rooms.SubmitAnswer(rooms[code], uid, num, next).room]
    ensures AllOk(after, next + 1)
  {
    assert RoomOk(rooms[code], next);
    SubmitAnswerOk(rooms[code], uid, num, next);
    AllOkUpdate(rooms, next, code, after[code], next + 1);
  }

  lemma CountdownTickAllOk(rooms: map<Code, Room>, code: Code, h: Handle, next: Handle, after: map<Code, Room>)
    requires AllOk(rooms, next) && code in rooms && h in rooms[code].timers && rooms[code].timers[h].Countdown?
    requires after == rooms[code := Rooms.CountdownTick(rooms[code], h, next).room]
    ensures AllOk(after, next + 1)
  {
    assert RoomOk(rooms[code], next);
    CountdownTickOk(rooms[code], h, next);
    AllOkUpdate(rooms, next, code, after[code], next + 1);
  }

  lemma VoteTickAllOk(rooms: map<Code, Room>, code: Code, h: Handle, target: int, next: Handle,
                      after: map<Code, Room>)
    requires AllOk(rooms, next) && code in rooms && h in rooms[code].timers && rooms[code].timers[h].VoteClock?
    requires rooms[code].gameState.Some? && |rooms[code].gameState.value.voteOptions| > 0
    requires GuessNumber.ValidTarget(target)
    requires after == rooms[code := Rooms.VoteTick(rooms[code], h, target, next).room]
    ensures AllOk(after, next + 1)
  {
    assert RoomOk(rooms[code], next);
    VoteTickOk(rooms[code], h, target, next);
    AllOkUpdate(rooms, next, code, after[code], next + 1);
  }

  lemma RoundTickAllOk(rooms: map<Code, Room>, code: Code, h: Handle, next: Handle, after: map<Code, Room>)
    requires AllOk(rooms, next) && code in rooms && h in rooms[code].timers && rooms[code].timers[h].RoundClock?
    requires rooms[code].gameState.Some?
    requires after == rooms[code := Rooms.RoundTick(rooms[code], h, next).room]
    ensures AllOk(after, next + 1)
  {
    assert RoomOk(rooms[code], next);
    RoundTickOk(rooms[code], h, next);
    AllOkUpdate(rooms, next, code, after[code], next + 1);
  }

  lemma SettleFireAllOk(rooms: map<Code, Room>, code: Code, h: Handle, next: Handle, after: map<Code, Room>)
    requires AllOk(rooms, next) && code in rooms && h in rooms[code].timers && rooms[code].timers[h].Settle?
    requires rooms[code].gameState.Some?
    requires after == rooms[code := Rooms.SettleFire(rooms[code], h, next).room]
    ensures AllOk(after, next + 1)
  {
    assert RoomOk(rooms[code], next);
    SettleFireOk(rooms[code], h, next);
    AllOkUpdate(rooms, next, code, after[code], next + 1);
  }

  /** The live timer `h` of a room of a valid directory belongs to its phase. */
  lemma TimerOwnerIn(rooms: map<Code, Room>, code: Code, h: Handle, next: Handle)
    requires AllOk(rooms, next) && code in rooms && h in rooms[code].timers
    ensures var r := rooms[code];
      && (r.timers[h].Countdown? ==> r.gameTimer == Some(h))
      && (!r.timers[h].Countdown? ==> r.gameState.Some?)
      && (r.timers[h].VoteClock? ==> |r.gameState.value.voteOptions| > 0)
  {
    assert RoomOk(rooms[code], next);
    TimerOwner(rooms[code], h, next);
  }

  /** Whether a room keeps a user once the socket `sock` has left. */
  predicate Stays(r: Room, sock: SocketId) {
    |RemoveBySocket(r.users, sock)| > 0
  }

  /** The directory after `removeFromRoom(sock)`: every room loses the users
      of that socket, and the rooms left empty are deleted. */
  function Departed(rooms: map<Code, Room>, sock: SocketId): map<Code, Room> {
    map c | c in rooms && Stays(rooms[c], sock) :: RemoveUser(rooms[c], sock)
  }

  /** Leaving deletes exactly the rooms left without users, and no
      remaining room holds a user of the socket that left. */
  lemma DepartedProps(rooms: map<Code, Room>, sock: SocketId)
    ensures var d := Departed(rooms, sock);
      && (forall c :: c in d <==> c in rooms && exists u :: u in rooms[c].users && u.id != sock)
      && (forall c, u :: c in d && u in d[c].users ==> u in rooms[c].users && u.id != sock)
  {
    forall c | c in rooms
      ensures Stays(rooms[c], sock) <==> exists u :: u in rooms[c].users && u.id != sock
    {
      var rm := RemoveBySocket(rooms[c].users, sock);
      if |rm| > 0 {
        assert rm[0] in rm;
      }
    }
  }

  /** The directory part-way through `removeFromRoom`: the rooms still in
      `pending` are untouched, the others are as Departed leaves them. */
  function Visited(start: map<Code, Room>, sock: SocketId, pending: set<Code>): map<Code, Room> {
    map c | c in start && (c in pending || Stays(start[c], sock)) ::
      if c in pending then start[c] else RemoveUser(start[c], sock)
  }

  /** Visiting one more room updates or deletes exactly that room. */
  lemma VisitedStep(start: map<Code, Room>, sock: SocketId, pending: set<Code>, c: Code)
    requires c in pending && pending <= start.Keys
    ensures c in Visited(start, sock, pending) && Visited(start, sock, pending)[c] == start[c]
    ensures Visited(start, sock, pending - {c}) ==
      if Stays(start[c], sock) then Visited(start, sock, pending)[c := RemoveUser(start[c], sock)]
      else Visited(start, sock, pending) - {c}
  {
  }

  /** Before the first room nothing has changed; after the last the
      directory is Departed. */
  lemma VisitedEnds(start: map<Code, Room>, sock: SocketId)
    ensures Visited(start, sock, start.Keys) == start
    ensures Visited(start, sock, {}) == Departed(start, sock)
  {
  }

  /** Leaving keeps every remaining room valid. */
  lemma DepartedAllOk(rooms: map<Code, Room>, sock: SocketId, next: nat)
    requires AllOk(rooms, next)
    ensures AllOk(Departed(rooms, sock), next)
  {
    var d := Departed(rooms, sock);
    forall c | c in d ensures RoomOk(d[c], next) {
      assert RoomOk(rooms[c], next);
      RemoveUserOk(rooms[c], sock, next);
    }
  }

  /** No room code occurs twice. */
  predicate Distinct(order: seq<Code>) {
    forall i, j :: 0 <= i < j < |order| ==> order[i] != order[j]
  }

  lemma DistinctSnoc(order: seq<Code>, c: Code)
    requires Distinct(order) && c !in order
    ensures Distinct(order + [c])
  {
  }

  /** The lobby broadcasts to the rooms named in `order`. */
  function Lobbies(order: seq<Code>, rooms: map<Code, Room>): (t: seq<Event>)
    requires forall i :: 0 <= i < |order| ==> order[i] in rooms
    ensures |t| == |order|
    ensures forall i :: 0 <= i < |order| ==>
      t[i] == Event(order[i], LobbyUpdate(rooms[order[i]].users, rooms[order[i]].hostId))
  {
    if order == [] then []
    else [Event(order[0], LobbyUpdate(rooms[order[0]].users, rooms[order[0]].hostId))] + Lobbies(order[1..], rooms)
  }

  lemma LobbiesSnoc(order: seq<Code>, c: Code, rooms: map<Code, Room>)
    requires forall i :: 0 <= i < |order| ==> order[i] in rooms
    requires c in rooms
    ensures Lobbies(order + [c], rooms) == Lobbies(order, rooms) + [Event(c, LobbyUpdate(rooms[c].users, rooms[c].hostId))]
  {
    assert |Lobbies(order + [c], rooms)| == |Lobbies(order, rooms) + [Event(c, LobbyUpdate(rooms[c].users, rooms[c].hostId))]|;
  }

  class RoomServer {
    var rooms: map<Code, Room>
    var nextHandle: nat
    ghost var sent: seq<Event>

    predicate Valid()
      reads this
    {
      AllOk(rooms, nextHandle)
    }

    constructor ()
      ensures Valid() && rooms == map[] && sent == []
    {
      rooms := map[];
      nextHandle := 0;
      sent := [];
    }

    /** The handle the next `setInterval`/`setTimeout` returns. */
    method AllocateHandle() returns (h: Handle)
      modifies this
      ensures h == old(nextHandle) && nextHandle == h + 1
      ensures rooms == old(rooms) && sent == old(sent)
      ensures old(Valid()) ==> Valid()
    {
      h := nextHandle;
      nextHandle := nextHandle + 1;
      assert old(Valid()) ==> Valid() by {
        if old(Valid()) {
          forall c | c in rooms ensures RoomOk(rooms[c], nextHandle) {
            assert RoomOk(rooms[c], h);
            RoomOkLater(rooms[c], h, nextHandle);
          }
        }
      }
    }

    // -------------------------------------------------------- handlers

    /** `joinRoom`: create the room if the code is new, then add the user or
        move a returning user to the new socket. */
    method JoinRoom(code: Code, sock: SocketId, p: Profile)
      requires Valid()
      modifies this
      ensures Valid()
      ensures var base := if code in old(rooms) then old(rooms[code]) else NewRoom(sock);
        && rooms == old(rooms)[code := Rooms.JoinRoom(base, sock, p).room]
        && sent == old(sent) + Tagged(code, Rooms.JoinRoom(base, sock, p).out)
      ensures nextHandle == old(nextHandle)
    {
      var room := if code in rooms then rooms[code] else NewRoom(sock);
      if code in rooms {
        JoinRoomOk(room, sock, p, nextHandle);
      } else {
        JoinNewRoomOk(sock, p, nextHandle);
      }
      room := room.(users := Upsert(room.users, p, sock));
      AllOkUpdate(rooms, nextHandle, code, room, nextHandle);
      rooms := rooms[code := room];
      sent := sent + Tagged(code, [LobbyUpdate(room.users, room.hostId)]);
    }

    /** `playerReady`: set the flag, broadcast the lobby, then arm or
        cancel the countdown. */
    method PlayerReady(code: Code, uid: UserId, ready: bool)
      requires Valid()
      modifies this
      ensures code !in old(rooms) ==> rooms == old(rooms) && sent == old(sent)
      ensures code in old(rooms) ==>
        var s := Rooms.PlayerReady(old(rooms[code]), uid, ready, old(nextHandle));
        rooms == old(rooms)[code := s.room] && sent == old(sent) + Tagged(code, s.out)
      ensures nextHandle == old(nextHandle) + 1
      ensures Valid()
    {
      var h := AllocateHandle();
      if code !in rooms {
        return;
      }
      ghost var r0 := rooms[code];
      var room := rooms[code];
      room := room.(users := SetReady(room.users, uid, ready));
      ghost var out := [LobbyUpdate(room.users, room.hostId)];
      var allReady := AllReady(room.users);
      if allReady && room.gameTimer.None? && !InSession(room) {
        out := out + [CountdownMsg(Some(CountdownSeconds))];
        room := room.(gameTimer := Some(h), timers := room.timers[h := Countdown(CountdownSeconds)]);
      } else if !allReady && room.gameTimer.Some? {
        room := room.(gameTimer := None, timers := Cleared(room.timers, room.gameTimer));
        out := out + [CountdownMsg(None)];
      }
      assert Step(room, out) == Rooms.PlayerReady(r0, uid, ready, h);
      rooms := rooms[code := room];
      sent := sent + Tagged(code, out);
      PlayerReadyAllOk(old(rooms), code, uid, ready, h, rooms);
    }

    /** `sendMessage`: append to the chat and broadcast it. */
    method SendMessage(code: Code, username: string, message: string)
      requires Valid()
      modifies this
      ensures Valid()
      ensures code !in old(rooms) ==> rooms == old(rooms) && sent == old(sent)
      ensures code in old(rooms) ==>
        var s := Rooms.SendMessage(old(rooms[code]), username, message);
        rooms == old(rooms)[code := s.room] && sent == old(sent) + Tagged(code, s.out)
      ensures nextHandle == old(nextHandle)
    {
      if code !in rooms {
        return;
      }
      SendMessageOk(rooms[code], username, message, nextHandle);
      var room := rooms[code];
      room := room.(chat := room.chat + [ChatLine(username, message)]);
      AllOkUpdate(rooms, nextHandle, code, room, nextHandle);
      rooms := rooms[code := room];
      sent := sent + Tagged(code, [ChatUpdate(room.chat)]);
    }

    /** `getRoomState`: the room's users, host, session and chat, or the
        negative acknowledgement for an unknown code; nothing changes. */
    method GetRoomState(code: Code) returns (ack: Option<RoomView>)
      ensures ack.Some? <==> code in rooms
      ensures ack.Some? ==>
        ack.value == RoomView(rooms[code].users, rooms[code].hostId, rooms[code].gameState, rooms[code].chat)
    {
      if code !in rooms {
        return None;
      }
      var room := rooms[code];
      return Some(RoomView(room.users, room.hostId, room.gameState, room.chat));
    }

    /** `castVote`: record the vote under the voter's id, broadcast the
        votes, and finish the voting once everyone has voted. `target`
        stands for the random target of the round this may start. */
    method CastVote(code: Code, uid: UserId, choice: GameId, target: int)
      requires Valid() && GuessNumber.ValidTarget(target)
      modifies this
      ensures code !in old(rooms) ==> rooms == old(rooms) && sent == old(sent)
      ensures code in old(rooms) ==>
        var s := Rooms.CastVote(old(rooms[code]), uid, choice, target, old(nextHandle));
        rooms == old(rooms)[code := s.room] && sent == old(sent) + Tagged(code, s.out)
      ensures nextHandle == old(nextHandle) + 1
      ensures Valid()
    {
      var h := AllocateHandle();
      if code !in rooms {
        return;
      }
      ghost var r0 := rooms[code];
      var room := rooms[code];
      if room.gameState.None? || room.gameState.value.phase != Voting || choice !in room.gameState.value.voteOptions {
        assert rooms == old(rooms)[code := r0];
        CastVoteAllOk(old(rooms), code, uid, choice, target, h, rooms);
        return;
      }
      ghost var out := RecordBallot(code, room, uid, choice, target, h);
      sent := sent + Tagged(code, out);
      CastVoteAllOk(old(rooms), code, uid, choice, target, h, rooms);
    }

    /** The accepted part of `castVote`: record the ballot, broadcast the
        votes, and close the vote once as many users as the room has voted. */
    method RecordBallot(code: Code, room: Room, uid: UserId, choice: GameId, target: int, h: Handle)
      returns (ghost out: seq<Msg>)
      requires AcceptsVote(room, choice)
      modifies this
      ensures var s := Rooms.CastVote(room, uid, choice, target, h);
        rooms == old(rooms)[code := s.room] && out == s.out
      ensures sent == old(sent) && nextHandle == old(nextHandle)
    {
      var gs := room.gameState.value;
      gs := gs.(votes := RecordVote(gs.votes, uid, choice));
      var r := room.(gameState := Some(gs));
      out := [VoteUpdate(gs.votes)];
      if |gs.votes| == |r.users| && gs.roundTimer.Some? {
        r := r.(timers := Cleared(r.timers, gs.roundTimer), gameState := Some(gs.(roundTimer := None)));
        ghost var more := FinishVoting(code, r, target, h);
        out := out + more;
      } else {
        rooms := rooms[code := r];
      }
    }

    /** `submitAnswer`: the first correct answer of a running round wins it. */
    method SubmitAnswer(code: Code, uid: UserId, num: Option<int>)
      requires Valid()
      modifies this
      ensures code !in old(rooms) ==> rooms == old(rooms) && sent == old(sent)
      ensures code in old(rooms) ==>
        var s := Rooms.SubmitAnswer(old(rooms[code]), uid, num, old(nextHandle));
        rooms == old(rooms)[code := s.room] && sent == old(sent) + Tagged(code, s.out)
      ensures nextHandle == old(nextHandle) + 1
      ensures Valid()
    {
      var h := AllocateHandle();
      if code !in rooms {
        return;
      }
      ghost var r0 := rooms[code];
      var room := rooms[code];
      var running := room.gameState.Some? && room.gameState.value.phase == Playing
        && room.gameState.value.currentGame == Some(GuessNumber.Id)
        && room.gameState.value.data.Some? && room.gameState.value.roundTimer.Some?;
      if running && num == Some(room.gameState.value.data.value.target)
         && !GuessNumber.Truthy(room.gameState.value.data.value.winnerId) {
        var gs := room.gameState.value;
        room := room.(gameState := Some(gs.(data := Some(gs.data.value.(winnerId := Some(uid))))));
        ghost var out := EndRound(code, room, Some(uid), h);
        sent := sent + Tagged(code, out);
      } else {
        assert rooms == old(rooms)[code := r0];
      }
      SubmitAnswerAllOk(old(rooms), code, uid, num, h, rooms);
    }

    /** `removeFromRoom`, for `leaveRoom` and `disconnect`: every room
        drops the users of the socket, hands the host on if its socket
        left, and is deleted when empty or broadcasts its lobby otherwise.
        `order` is the order in which the rooms were visited. */
    method RemoveFromRoom(sock: SocketId) returns (ghost order: seq<Code>)
      requires Valid()
      modifies this
      ensures Valid()
      ensures rooms == Departed(old(rooms), sock)
      ensures nextHandle == old(nextHandle)
      ensures forall c :: c in order <==> c in rooms
      ensures Distinct(order)
      ensures sent == old(sent) + Lobbies(order, rooms)
    {
      ghost var start := rooms;
      ghost var d := Departed(start, sock);
      ghost var emitted: seq<Event> := [];
      var pending := rooms.Keys;
      order := [];
      VisitedEnds(start, sock);
      while pending != {}
        invariant pending <= start.Keys
        invariant rooms == Visited(start, sock, pending)
        invariant forall c :: c in order <==> c in d && c !in pending
        invariant Distinct(order)
        invariant emitted == Lobbies(order, d)
        invariant sent == old(sent) && nextHandle == old(nextHandle)
        decreases pending
      {
        var c :| c in pending;
        VisitedStep(start, sock, pending, c);
        var kept := LeaveRoom(c, sock);
        if kept {
          assert rooms[c] == d[c];
          LobbiesSnoc(order, c, d);
          DistinctSnoc(order, c);
          emitted := emitted + [Event(c, LobbyUpdate(rooms[c].users, rooms[c].hostId))];
          order := order + [c];
        }
        pending := pending - {c};
      }
      assert rooms == d;
      sent := sent + emitted;
      DepartedAllOk(start, sock, nextHandle);
    }

    /** One room's share of `removeFromRoom`: drop the users of `sock`, hand
        the host on if its socket left, and delete the room if it is empty. */
    method LeaveRoom(c: Code, sock: SocketId) returns (kept: bool)
      requires c in rooms
      modifies this
      ensures kept == Stays(old(rooms[c]), sock)
      ensures rooms == if kept then old(rooms)[c := RemoveUser(old(rooms[c]), sock)] else old(rooms) - {c}
      ensures sent == old(sent) && nextHandle == old(nextHandle)
    {
      var room := rooms[c];
      room := room.(users := RemoveBySocket(room.users, sock));
      if room.hostId == sock && |room.users| > 0 {
        room := room.(hostId := room.users[0].id);
      }
      kept := |room.users| > 0;
      if kept {
        rooms := rooms[c := room];
      } else {
        rooms := rooms - {c};
      }
    }

    // -------------------------------------------------- timer callbacks

    /** One second of the lobby countdown `h` of room `code`. */
    method CountdownTick(code: Code, h: Handle)
      requires Valid() && code in rooms && h in rooms[code].timers && rooms[code].timers[h].Countdown?
      modifies this
      ensures var s := Rooms.CountdownTick(old(rooms[code]), h, old(nextHandle));
        rooms == old(rooms)[code := s.room] && sent == old(sent) + Tagged(code, s.out)
      ensures nextHandle == old(nextHandle) + 1
      ensures Valid()
    {
      TimerOwnerIn(rooms, code, h, nextHandle);
      var hNew := AllocateHandle();
      ghost var r0 := rooms[code];
      var room := rooms[code];
      ghost var out: seq<Msg>;
      if !AllReady(room.users) {
        room := room.(gameTimer := None, timers := Cleared(room.timers, room.gameTimer));
        rooms := rooms[code := room];
        out := [CountdownMsg(None)];
      } else {
        var seconds := room.timers[h].seconds - 1;
        if seconds <= 0 {
          room := room.(gameTimer := None, timers := Cleared(room.timers, room.gameTimer));
          ghost var more := StartGame(code, room, hNew);
          out := [CountdownMsg(Some(seconds))] + more;
        } else {
          room := room.(timers := room.timers[h := Countdown(seconds)]);
          rooms := rooms[code := room];
          out := [CountdownMsg(Some(seconds))];
        }
      }
      sent := sent + Tagged(code, out);
      CountdownTickAllOk(old(rooms), code, h, hNew, rooms);
    }

    /** One second of the vote clock `h` of room `code`. */
    method VoteTick(code: Code, h: Handle, target: int)
      requires Valid() && code in rooms && h in rooms[code].timers && rooms[code].timers[h].VoteClock?
      requires GuessNumber.ValidTarget(target)
      modifies this
      ensures old(rooms[code]).gameState.Some? && |old(rooms[code]).gameState.value.voteOptions| > 0
      ensures var s := Rooms.VoteTick(old(rooms[code]), h, target, old(nextHandle));
        rooms == old(rooms)[code := s.room] && sent == old(sent) + Tagged(code, s.out)
      ensures nextHandle == old(nextHandle) + 1
      ensures Valid()
    {
      TimerOwnerIn(rooms, code, h, nextHandle);
      var hNew := AllocateHandle();
      ghost var r0 := rooms[code];
      var room := rooms[code];
      var gs := room.gameState.value;
      var seconds := room.timers[h].seconds - 1;
      room := room.(timers := room.timers[h := VoteClock(seconds)]);
      ghost var out: seq<Msg>;
      if seconds <= 0 || |gs.votes| == |room.users| {
        room := room.(timers := Cleared(room.timers, gs.roundTimer), gameState := Some(gs.(roundTimer := None)));
        ghost var more := FinishVoting(code, room, target, hNew);
        out := [VoteCountdown(seconds)] + more;
      } else {
        rooms := rooms[code := room];
        out := [VoteCountdown(seconds)];
      }
      sent := sent + Tagged(code, out);
      VoteTickAllOk(old(rooms), code, h, target, hNew, rooms);
    }

    /** One second of the round clock `h` of room `code`. */
    method RoundTick(code: Code, h: Handle)
      requires Valid() && code in rooms && h in rooms[code].timers && rooms[code].timers[h].RoundClock?
      modifies this
      ensures old(rooms[code]).gameState.Some?
      ensures var s := Rooms.RoundTick(old(rooms[code]), h, old(nextHandle));
        rooms == old(rooms)[code := s.room] && sent == old(sent) + Tagged(code, s.out)
      ensures nextHandle == old(nextHandle) + 1
      ensures Valid()
    {
      TimerOwnerIn(rooms, code, h, nextHandle);
      var hNew := AllocateHandle();
      ghost var r0 := rooms[code];
      var room := rooms[code];
      var gs := room.gameState.value;
      var seconds := room.timers[h].seconds - 1;
      room := room.(timers := room.timers[h := RoundClock(seconds)]);
      ghost var out: seq<Msg>;
      if seconds <= 0 {
        room := room.(timers := Cleared(room.timers, gs.roundTimer), gameState := Some(gs.(roundTimer := None)));
        ghost var more := EndRound(code, room, None, hNew);
        out := [RoundCountdown(seconds)] + more;
      } else {
        rooms := rooms[code := room];
        out := [RoundCountdown(seconds)];
      }
      sent := sent + Tagged(code, out);
      RoundTickAllOk(old(rooms), code, h, hNew, rooms);
    }

    /** The settle timeout `h` of room `code` fires. */
    method SettleFire(code: Code, h: Handle)
      requires Valid() && code in rooms && h in rooms[code].timers && rooms[code].timers[h].Settle?
      modifies this
      ensures old(rooms[code]).gameState.Some?
      ensures var s := Rooms.SettleFire(old(rooms[code]), h, old(nextHandle));
        rooms == old(rooms)[code := s.room] && sent == old(sent) + Tagged(code, s.out)
      ensures nextHandle == old(nextHandle) + 1
      ensures Valid()
    {
      TimerOwnerIn(rooms, code, h, nextHandle);
      var hNew := AllocateHandle();
      ghost var r0 := rooms[code];
      var room := rooms[code];
      var hasMore := room.timers[h].hasMore;
      room := room.(timers := room.timers - {h});
      var gs := room.gameState.value;
      ghost var out: seq<Msg>;
      if hasMore {
        room := room.(gameState := Some(gs.(round := gs.round + 1)));
        out := StartVotingPhase(code, room, hNew);
      } else {
        room := room.(gameState := Some(gs.(phase := Over)));
        var users := ClearReady(room.users);
        room := room.(users := users);
        rooms := rooms[code := room];
        out := [GameOver(gs.leaderboard), LobbyUpdate(room.users, room.hostId)];
      }
      sent := sent + Tagged(code, out);
      SettleFireAllOk(old(rooms), code, h, hNew, rooms);
    }

    // ------------------------------------------------------- game flow
    //
    // Each of these takes `room`, the current state of the room object of
    // `code` as its caller left it, stores the room it leads to under
    // `code`, and returns what it broadcast to the room.

    /** `startGame`. */
    method StartGame(code: Code, room: Room, h: Handle) returns (ghost out: seq<Msg>)
      modifies this
      ensures var s := Rooms.StartGame(room, h);
        rooms == old(rooms)[code := s.room] && out == s.out
      ensures sent == old(sent) && nextHandle == old(nextHandle)
    {
      var total := if |room.users| <= 5 then 3 else 4;
      var board := Snapshot(room.users);
      var r := room.(currentRound := 1, totalRounds := total,
                     gameState := Some(GameState(Voting, 1, total, VoteOptions, [], None, board, None, None)));
      ghost var more := StartVotingPhase(code, r, h);
      out := [GameStart(1)] + more;
    }

    /** `startVotingPhase`: empty votes, broadcast, arm the vote clock `h`. */
    method StartVotingPhase(code: Code, room: Room, h: Handle) returns (ghost out: seq<Msg>)
      requires room.gameState.Some?
      modifies this
      ensures var s := Rooms.StartVotingPhase(room, h);
        rooms == old(rooms)[code := s.room] && out == s.out
      ensures sent == old(sent) && nextHandle == old(nextHandle)
    {
      var gs := room.gameState.value.(phase := Voting, votes := []);
      out := [VoteStart(VoteSeconds, gs.voteOptions, gs.round, gs.totalRounds)];
      var r := room.(gameState := Some(gs.(roundTimer := Some(h))), timers := room.timers[h := VoteClock(VoteSeconds)]);
      rooms := rooms[code := r];
    }

    /** `finishVoting`: tally, record the choice, broadcast, start the round. */
    method FinishVoting(code: Code, room: Room, target: int, h: Handle) returns (ghost out: seq<Msg>)
      requires room.gameState.Some? && |room.gameState.value.voteOptions| > 0
      modifies this
      ensures var s := Rooms.FinishVoting(room, target, h);
        rooms == old(rooms)[code := s.room] && out == s.out
      ensures sent == old(sent) && nextHandle == old(nextHandle)
    {
      var gs := room.gameState.value;
      var choice := ChooseGame(gs.votes, gs.voteOptions);
      var r := room.(gameState := Some(gs.(currentGame := Some(choice))));
      ghost var more := StartRound(code, r, choice, target, h);
      out := [VoteEnd(choice)] + more;
    }

    /** `startRound`: playing; for "guess the number", draw the target
        (given as `target`), broadcast, and arm the round clock `h`. */
    method StartRound(code: Code, room: Room, game: GameId, target: int, h: Handle) returns (ghost out: seq<Msg>)
      requires room.gameState.Some?
      modifies this
      ensures var s := Rooms.StartRound(room, game, target, h);
        rooms == old(rooms)[code := s.room] && out == s.out
      ensures sent == old(sent) && nextHandle == old(nextHandle)
    {
      var r := room;
      var gs := r.gameState.value.(phase := Playing);
      out := [];
      if game == GuessNumber.Id {
        gs := gs.(data := Some(GuessNumber.Data(target, None)));
        out := [RoundStart(game, GuessNumber.RoundSeconds, gs.round, gs.totalRounds)];
        gs := gs.(roundTimer := Some(h));
        r := r.(timers := r.timers[h := RoundClock(GuessNumber.RoundSeconds)]);
      }
      r := r.(gameState := Some(gs));
      rooms := rooms[code := r];
    }

    /** `endRound`: stop the round clock, pay the winner, broadcast the
        result and the leaderboard, and schedule the settle timeout `h`. */
    method EndRound(code: Code, room: Room, winner: Option<UserId>, h: Handle) returns (ghost out: seq<Msg>)
      requires room.gameState.Some?
      modifies this
      ensures var s := Rooms.EndRound(room, winner, h);
        rooms == old(rooms)[code := s.room] && out == s.out
      ensures sent == old(sent) && nextHandle == old(nextHandle)
    {
      var r := room;
      ghost var paid := Credited(room, winner);
      var gs := r.gameState.value;
      r := r.(timers := Cleared(r.timers, gs.roundTimer));
      if GuessNumber.Truthy(winner) {
        var i := Find(r.users, winner.value);
        if i.Some? {
          var u := r.users[i.value];
          r := r.(users := r.users[i.value := u.(coins := u.coins + RewardCoins, wins := u.wins + RewardWins)]);
          gs := gs.(leaderboard := CreditBoard(gs.leaderboard, winner.value));
        }
      }
      assert r.users == if paid then Credit(room.users, winner.value) else room.users;
      assert gs.leaderboard == if paid then CreditBoard(room.gameState.value.leaderboard, winner.value)
                               else room.gameState.value.leaderboard;
      var answer := if gs.currentGame == Some(GuessNumber.Id) && gs.data.Some? then Some(gs.data.value.target) else None;
      out := [RoundResult(if GuessNumber.Truthy(winner) then winner else None, answer, gs.leaderboard),
              Leaderboard(gs.round, gs.totalRounds, gs.leaderboard)];
      r := r.(timers := r.timers[h := Settle(gs.round < gs.totalRounds)]);
      gs := gs.(roundTimer := None);
      r := r.(gameState := Some(gs));
      rooms := rooms[code := r];
    }
  }
}
