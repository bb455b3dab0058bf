/**
 * The "guess the number" mini-game: a target in [1, 9], the first correct
 * answer wins, a timed-out round credits nobody.
 */
module GuessNumber {
  import opened Wrappers
  import opened Registry

  /** The game's id, also the only vote option. */
  const Id: string := "guess-number"

  /** Round duration in seconds. */
  const RoundSeconds: int := 60

  const MinTarget: int := 1
  const MaxTarget: int := 9

  /** `gameState.data`: the target and the winner recorded so far. */
  datatype Data = Data(target: int, winnerId: Option<UserId>)

  predicate ValidTarget(target: int) {
    MinTarget <= target <= MaxTarget
  }

  /** JavaScript truthiness of a user id that may be `null`: the empty
      string is falsy. */
  predicate Truthy(w: Option<UserId>) {
    w.Some? && w.value != ""
  }

  /** `Number(answer) === target && !data.winnerId`; `num` is `Number(answer)`
      when that is an integer, `None` otherwise (NaN, fractions). */
  predicate Wins(d: Data, num: Option<int>) {
    num == Some(d.target) && !Truthy(d.winnerId)
  }

  /** Once a winner with a non-empty id is recorded, no answer wins again;
      before that exactly the target wins. */
  lemma WinsOnlyOnce(d: Data, uid: UserId, num: Option<int>, n: int)
    requires uid != ""
    ensures !Wins(d.(winnerId := Some(uid)), num)
    ensures !Truthy(d.winnerId) ==> (Wins(d, Some(n)) <==> n == d.target)
  {
  }
}
