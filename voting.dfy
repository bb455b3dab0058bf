/**
 * The vote of one voting phase. `gameState.votes` is a JavaScript object
 * keyed by `userId`; it is modelled as the list of its entries in insertion
 * order, which is the order `Object.keys` and `Object.values` list them in
 * for string keys. JavaScript lists integer-like keys ("42") first, in
 * ascending numeric order; that reordering is not modelled.
 */
module Voting {
  import opened Wrappers
  import opened Registry

  type GameId = string

  datatype Ballot = Ballot(voter: UserId, choice: GameId)

  /** The keys of a JavaScript object are distinct. */
  predicate DistinctVoters(votes: seq<Ballot>) {
    forall i, j :: 0 <= i < j < |votes| ==> votes[i].voter != votes[j].voter
  }

  predicate HasVoted(votes: seq<Ballot>, uid: UserId) {
    exists i :: 0 <= i < |votes| && votes[i].voter == uid
  }

  /** Every ballot names one of the options. */
  predicate ChoicesIn(votes: seq<Ballot>, options: seq<GameId>) {
    forall i :: 0 <= i < |votes| ==> votes[i].choice in options
  }

  /** The position of the voter's entry, if any. */
  function VoterIndex(votes: seq<Ballot>, uid: UserId): (r: Option<nat>)
    ensures r.Some? ==> r.value < |votes| && votes[r.value].voter == uid
    ensures r.None? ==> !HasVoted(votes, uid)
  {
    if |votes| == 0 then None
    else if votes[0].voter == uid then Some(0)
    else
      match VoterIndex(votes[1..], uid)
      case None =>
        assert forall j :: 1 <= j < |votes| ==> votes[j] == votes[1..][j - 1];
        None
      case Some(k) => Some(k + 1)
  }

  /** `votes[uid] = choice`: a re-vote overwrites the voter's entry in place,
      a first vote is appended. */
  function RecordVote(votes: seq<Ballot>, uid: UserId, choice: GameId): (r: seq<Ballot>)
    ensures HasVoted(r, uid)
    ensures HasVoted(votes, uid) ==> |r| == |votes|
    ensures !HasVoted(votes, uid) ==> r == votes + [Ballot(uid, choice)]
    ensures forall i :: 0 <= i < |r| ==> r[i] == Ballot(uid, choice) || (i < |votes| && r[i] == votes[i])
    ensures DistinctVoters(votes) ==> DistinctVoters(r)
    ensures forall i :: 0 <= i < |votes| && votes[i].voter != uid ==> r[i] == votes[i]
    ensures DistinctVoters(votes) ==>
      forall i :: 0 <= i < |r| && r[i].voter == uid ==> r[i] == Ballot(uid, choice)
  {
    match VoterIndex(votes, uid)
    case Some(i) =>
      var r := votes[i := Ballot(uid, choice)];
      assert r[i].voter == uid;
      r
    case None =>
      var r := votes + [Ballot(uid, choice)];
      assert r[|votes|].voter == uid;
      r
  }

  /** The set of voters, `Object.keys(votes)`. */
  function Voters(votes: seq<Ballot>): set<UserId> {
    set i | 0 <= i < |votes| :: votes[i].voter
  }

  /** Appending an entry adds its voter. */
  lemma VotersSnoc(votes: seq<Ballot>, b: Ballot)
    ensures Voters(votes + [b]) == Voters(votes) + {b.voter}
  {
    var r := votes + [b];
    forall u | u in Voters(r) ensures u in Voters(votes) + {b.voter} {
      var j :| 0 <= j < |r| && r[j].voter == u;
      if j < |votes| { assert votes[j] == r[j]; }
    }
    forall u | u in Voters(votes) ensures u in Voters(r) {
      var j :| 0 <= j < |votes| && votes[j].voter == u;
      assert r[j] == votes[j];
    }
    assert r[|votes|] == b;
  }

  /** The object itself, built by assigning the entries in order. */
  function VoteMap(votes: seq<Ballot>): map<UserId, GameId> {
    if |votes| == 0 then map[]
    else VoteMap(votes[..|votes| - 1])[votes[|votes| - 1].voter := votes[|votes| - 1].choice]
  }

  /** The object's keys are the voters. */
  lemma {:induction false} VoteMapKeys(votes: seq<Ballot>)
    ensures VoteMap(votes).Keys == Voters(votes)
  {
    if |votes| > 0 {
      var init := votes[..|votes| - 1];
      assert init + [votes[|votes| - 1]] == votes;
      VoteMapKeys(init);
      VotersSnoc(init, votes[|votes| - 1]);
    }
  }

  /** Overwriting an entry's choice updates the object at that entry's voter. */
  lemma {:induction false} VoteMapSet(votes: seq<Ballot>, i: nat, c: GameId)
    requires DistinctVoters(votes) && i < |votes|
    ensures VoteMap(votes[i := Ballot(votes[i].voter, c)]) == VoteMap(votes)[votes[i].voter := c]
  {
    var n := |votes|;
    var r := votes[i := Ballot(votes[i].voter, c)];
    var init := votes[..n - 1];
    if i == n - 1 {
      assert r[..n - 1] == init;
    } else {
      assert r[..n - 1] == init[i := Ballot(votes[i].voter, c)];
      assert init[i] == votes[i];
      VoteMapSet(init, i, c);
      assert votes[n - 1].voter != votes[i].voter;
    }
  }

  /** Appending a new voter's entry adds that voter to the object. */
  lemma VoteMapSnoc(votes: seq<Ballot>, b: Ballot)
    ensures VoteMap(votes + [b]) == VoteMap(votes)[b.voter := b.choice]
  {
    assert (votes + [b])[..|votes|] == votes;
  }

  /** Recording a vote updates the object at exactly that key. */
  lemma RecordVoteMap(votes: seq<Ballot>, uid: UserId, choice: GameId)
    requires DistinctVoters(votes)
    ensures VoteMap(RecordVote(votes, uid, choice)) == VoteMap(votes)[uid := choice]
  {
    match VoterIndex(votes, uid)
    case Some(i) => VoteMapSet(votes, i, choice);
    case None => VoteMapSnoc(votes, Ballot(uid, choice));
  }

  /** `Object.keys(votes).length` counts the entries: one per distinct voter. */
  lemma {:induction false} VoteCountIsVoters(votes: seq<Ballot>)
    requires DistinctVoters(votes)
    ensures |Voters(votes)| == |votes|
  {
    if |votes| > 0 {
      var init := votes[..|votes| - 1];
      var last := votes[|votes| - 1];
      assert DistinctVoters(init);
      VoteCountIsVoters(init);
      assert Voters(votes) == Voters(init) + {last.voter} by {
        forall u | u in Voters(votes) ensures u in Voters(init) + {last.voter} {
          var i :| 0 <= i < |votes| && votes[i].voter == u;
          if i < |votes| - 1 { assert init[i] == votes[i]; }
        }
        forall u | u in Voters(init) ensures u in Voters(votes) {
          var i :| 0 <= i < |init| && init[i].voter == u;
          assert votes[i] == init[i];
        }
      }
      assert last.voter !in Voters(init);
    }
  }

  /** `Object.values(votes)`. */
  function Choices(votes: seq<Ballot>): (s: seq<GameId>)
    ensures |s| == |votes| && forall i :: 0 <= i < |s| ==> s[i] == votes[i].choice
  {
    seq(|votes|, i requires 0 <= i < |votes| => votes[i].choice)
  }

  /** `votes.filter(v => v === g).length`. */
  function Count(s: seq<GameId>, g: GameId): nat {
    if |s| == 0 then 0 else (if s[0] == g then 1 else 0) + Count(s[1..], g)
  }

  /** An element of `s` that occurs at least as often as every other. */
  function MostFrequent(s: seq<GameId>): (r: GameId)
    requires |s| > 0
    ensures r in s
    ensures forall j :: 0 <= j < |s| ==> Count(s, s[j]) <= Count(s, r)
  {
    if |s| == 1 then
      assert forall j :: 0 <= j < |s| ==> s[j] == s[0];
      s[0]
    else
      var b := MostFrequent(s[1..]);
      var r := if Count(s, s[0]) >= Count(s, b) then s[0] else b;
      assert forall j :: 1 <= j < |s| ==> s[j] == s[1..][j - 1];
      r
  }

  /** The chosen game: a most-voted choice, or `options[0]` when nobody voted. */
  function ChooseGame(votes: seq<Ballot>, options: seq<GameId>): (g: GameId)
    requires |options| > 0
    ensures |votes| == 0 ==> g == options[0]
    ensures |votes| > 0 ==>
      && (exists i :: 0 <= i < |votes| && votes[i].choice == g)
      && forall i :: 0 <= i < |votes| ==> Count(Choices(votes), votes[i].choice) <= Count(Choices(votes), g)
    ensures ChoicesIn(votes, options) ==> g in options
  {
    if |votes| == 0 then options[0]
    else
      var s := Choices(votes);
      var g := MostFrequent(s);
      assert exists i :: 0 <= i < |s| && s[i] == g;
      g
  }
}
