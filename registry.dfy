/**
 * The player registry of one room: an ordered list of users keyed by the
 * persistent `userId`, each carrying the transient socket `id` of its current
 * connection. Insertion order is join order.
 */
module Registry {
  import opened Wrappers

  type UserId = string
  type SocketId = string

  /** The fields of a `joinRoom` payload that the server reads. `coins` and
      `wins` are `None` when the payload's value is falsy (absent, 0, ...). */
  datatype Profile = Profile(userId: UserId, username: string, avatar: string,
                             coins: Option<int>, wins: Option<int>)

  datatype User = User(userId: UserId, id: SocketId, username: string, avatar: string,
                       isReady: bool, coins: int, wins: int)

  /** A leaderboard entry. */
  datatype Score = Score(username: string, coins: int, wins: int)

  /** The reward of a won round. */
  const RewardCoins: int := 3
  const RewardWins: int := 1

  predicate UniqueIds(users: seq<User>) {
    forall i, j :: 0 <= i < j < |users| ==> users[i].userId != users[j].userId
  }

  predicate Member(users: seq<User>, uid: UserId) {
    exists i :: 0 <= i < |users| && users[i].userId == uid
  }

  /** `users.find(u => u.userId === uid)`, as the index of the first match. */
  function Find(users: seq<User>, uid: UserId): (r: Option<nat>)
    ensures r.Some? ==> r.value < |users| && users[r.value].userId == uid
    ensures r.Some? ==> forall j :: 0 <= j < r.value ==> users[j].userId != uid
    ensures r.None? ==> forall j :: 0 <= j < |users| ==> users[j].userId != uid
  {
    if |users| == 0 then None
    else if users[0].userId == uid then Some(0)
    else
      match Find(users[1..], uid)
      case None => None
      case Some(k) => Some(k + 1)
  }

  /** `x || 0` for a numeric payload field. */
  function OrZero(x: Option<int>): int {
    if x.Some? then x.value else 0
  }

  /** The record pushed for a first-time joiner. */
  function NewUser(p: Profile, sock: SocketId): User {
    User(p.userId, sock, p.username, p.avatar, false, OrZero(p.coins), OrZero(p.wins))
  }

  /** Join or reconnect: an existing `userId` only gets the new socket id; an
      unseen one is appended, not ready, with coins and wins defaulting to 0. */
  function Upsert(users: seq<User>, p: Profile, sock: SocketId): (r: seq<User>)
    ensures Member(r, p.userId)
    ensures Member(users, p.userId) ==>
      && |r| == |users|
      && forall j :: 0 <= j < |r| ==>
           r[j] == users[j] || (users[j].userId == p.userId && r[j] == users[j].(id := sock))
    ensures forall j ::
      (0 <= j < |users| && users[j].userId == p.userId && forall k :: 0 <= k < j ==> users[k].userId != p.userId)
      ==> r[j] == users[j].(id := sock)
    ensures !Member(users, p.userId) ==>
      && |r| == |users| + 1 && r[..|users|] == users
      && r[|users|].userId == p.userId && r[|users|].id == sock && !r[|users|].isReady
      && r[|users|].coins == OrZero(p.coins) && r[|users|].wins == OrZero(p.wins)
    ensures UniqueIds(users) ==> UniqueIds(r)
  {
    match Find(users, p.userId)
    case Some(i) =>
      var r := users[i := users[i].(id := sock)];
      assert r[i].userId == p.userId;
      r
    case None =>
      var r := users + [NewUser(p, sock)];
      assert r[..|users|] == users;
      assert r[|users|].userId == p.userId;
      r
  }

  /** `player.isReady = ready` on the first user with that `userId`, if any. */
  function SetReady(users: seq<User>, uid: UserId, ready: bool): (r: seq<User>)
    ensures |r| == |users|
    ensures forall j :: 0 <= j < |r| ==>
      r[j] == users[j] || (users[j].userId == uid && r[j] == users[j].(isReady := ready))
    ensures Member(users, uid) ==> exists j :: 0 <= j < |r| && r[j].userId == uid && r[j].isReady == ready
    ensures !Member(users, uid) ==> r == users
  {
    match Find(users, uid)
    case Some(i) => users[i := users[i].(isReady := ready)]
    case None => users
  }

  /** At least two users, all of them ready: the condition that arms the
      countdown and that every countdown tick re-checks. */
  predicate AllReady(users: seq<User>) {
    |users| >= 2 && forall j :: 0 <= j < |users| ==> users[j].isReady
  }

  /** A room never becomes all-ready by a user turning unready, nor by a
      newcomer joining, and a lone player is never all-ready. */
  lemma AllReadyNeedsEveryone(users: seq<User>, uid: UserId, p: Profile, sock: SocketId)
    ensures |users| < 2 ==> !AllReady(users)
    ensures Member(users, uid) ==> !AllReady(SetReady(users, uid, false))
    ensures !Member(users, p.userId) ==> !AllReady(Upsert(users, p, sock))
  {
    if Member(users, uid) {
      var r := SetReady(users, uid, false);
      var j :| 0 <= j < |r| && r[j].userId == uid && r[j].isReady == false;
    }
    if !Member(users, p.userId) {
      var r := Upsert(users, p, sock);
      assert !r[|users|].isReady;
    }
  }

  /** `users.filter(u => u.id !== sock)`. */
  function RemoveBySocket(users: seq<User>, sock: SocketId): (r: seq<User>)
    ensures |r| <= |users|
    ensures forall u :: u in r <==> u in users && u.id != sock
  {
    if |users| == 0 then []
    else
      var rest := RemoveBySocket(users[1..], sock);
      assert forall u :: u in users <==> u == users[0] || u in users[1..];
      if users[0].id == sock then rest else [users[0]] + rest
  }

  /** Filtering distributes over concatenation: the users kept keep their
      relative order. */
  lemma {:induction false} RemoveBySocketAppend(a: seq<User>, b: seq<User>, sock: SocketId)
    ensures RemoveBySocket(a + b, sock) == RemoveBySocket(a, sock) + RemoveBySocket(b, sock)
  {
    if |a| == 0 {
      assert a + b == b;
    } else {
      assert (a + b)[1..] == a[1..] + b;
      RemoveBySocketAppend(a[1..], b, sock);
    }
  }

  /** When nobody uses that socket, nothing is removed. */
  lemma {:induction false} RemoveBySocketAbsent(users: seq<User>, sock: SocketId)
    requires forall j :: 0 <= j < |users| ==> users[j].id != sock
    ensures RemoveBySocket(users, sock) == users
  {
    if |users| > 0 {
      RemoveBySocketAbsent(users[1..], sock);
    }
  }

  /** The first user left after the removal is the earliest-joined user
      whose socket differs. */
  lemma {:induction false} RemoveBySocketFirst(users: seq<User>, sock: SocketId, k: nat)
    requires k < |users| && users[k].id != sock
    requires forall j :: 0 <= j < k ==> users[j].id == sock
    ensures |RemoveBySocket(users, sock)| > 0 && RemoveBySocket(users, sock)[0] == users[k]
  {
    if k > 0 {
      RemoveBySocketFirst(users[1..], sock, k - 1);
    }
  }

  /** Removing users keeps the `userId`s unique. */
  lemma {:induction false} RemoveBySocketUnique(users: seq<User>, sock: SocketId)
    requires UniqueIds(users)
    ensures UniqueIds(RemoveBySocket(users, sock))
  {
    if |users| > 0 {
      RemoveBySocketUnique(users[1..], sock);
      var rest := RemoveBySocket(users[1..], sock);
      if users[0].id != sock {
        forall u | u in rest ensures u.userId != users[0].userId {
          assert u in users[1..];
        }
      }
    }
  }

  /** The reset of every ready flag at game over. */
  function Unready(users: seq<User>): seq<User> {
    seq(|users|, j requires 0 <= j < |users| => users[j].(isReady := false))
  }

  /** `room.users.forEach(u => u.isReady = false)`. */
  method ClearReady(users: seq<User>) returns (r: seq<User>)
    ensures r == Unready(users)
    ensures !AllReady(r)
  {
    r := users;
    var i := 0;
    while i < |r|
      invariant 0 <= i <= |r| == |users|
      invariant forall j :: 0 <= j < i ==> r[j] == users[j].(isReady := false)
      invariant forall j :: i <= j < |r| ==> r[j] == users[j]
    {
      r := r[i := r[i].(isReady := false)];
      i := i + 1;
    }
    assert |r| > 0 ==> !r[0].isReady;
  }

  /** The winner's reward on the user record: +3 coins and +1 win for the
      first user with that `userId`; nobody else changes. */
  function Credit(users: seq<User>, uid: UserId): (r: seq<User>)
    ensures |r| == |users|
    ensures forall j :: 0 <= j < |r| ==>
      && r[j].userId == users[j].userId
      && r[j].coins >= users[j].coins && r[j].wins >= users[j].wins
    ensures forall j :: 0 <= j < |r| ==>
      r[j] == users[j]
      || (users[j].userId == uid
          && r[j] == users[j].(coins := users[j].coins + RewardCoins, wins := users[j].wins + RewardWins))
    ensures Member(users, uid) ==>
      exists j :: 0 <= j < |r| && users[j].userId == uid
        && r[j].coins == users[j].coins + RewardCoins && r[j].wins == users[j].wins + RewardWins
    ensures !Member(users, uid) ==> r == users
  {
    match Find(users, uid)
    case Some(i) =>
      users[i := users[i].(coins := users[i].coins + RewardCoins, wins := users[i].wins + RewardWins)]
    case None => users
  }

  function ScoreOf(u: User): Score {
    Score(u.username, u.coins, u.wins)
  }

  /** `Object.fromEntries(users.map(u => [u.userId, {username, coins, wins}]))`:
      one entry per member, later entries overwriting earlier ones. */
  function Snapshot(users: seq<User>): (lb: map<UserId, Score>)
    ensures forall uid :: uid in lb <==> Member(users, uid)
    ensures forall j :: 0 <= j < |users| ==>
      users[j].userId in lb && (UniqueIds(users) ==> lb[users[j].userId] == ScoreOf(users[j]))
  {
    if |users| == 0 then map[]
    else
      var init := users[..|users| - 1];
      var last := users[|users| - 1];
      assert forall j :: 0 <= j < |init| ==> init[j] == users[j];
      assert forall uid :: Member(users, uid) <==> Member(init, uid) || last.userId == uid;
      Snapshot(init)[last.userId := ScoreOf(last)]
  }

  /** The winner's reward on the leaderboard; an absent entry is left absent. */
  function CreditBoard(lb: map<UserId, Score>, uid: UserId): (r: map<UserId, Score>)
    ensures r.Keys == lb.Keys
    ensures forall k :: k in r ==> r[k].coins >= lb[k].coins && r[k].wins >= lb[k].wins
    ensures uid in lb ==> r[uid] == lb[uid].(coins := lb[uid].coins + RewardCoins, wins := lb[uid].wins + RewardWins)
    ensures forall k :: k in r && k != uid ==> r[k] == lb[k]
  {
    if uid in lb then
      lb[uid := lb[uid].(coins := lb[uid].coins + RewardCoins, wins := lb[uid].wins + RewardWins)]
    else lb
  }
}
