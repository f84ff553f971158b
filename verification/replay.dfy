/**
 Replaying a sequence of updates through a step function, as every class of
 the data model does with its setters.
 */
module MdalReplay {

  /** `s` after the updates `us`, applied in order by `step`. */
  function Replay<S, U>(step: (S, U) -> S, s: S, us: seq<U>): S
    decreases |us|
  {
    if |us| == 0 then s else Replay(step, step(s, us[0]), us[1..])
  }

  /** Replaying one more update is one more step. */
  lemma {:induction false} ReplaySnoc<S, U>(step: (S, U) -> S, s: S, us: seq<U>, u: U)
    ensures Replay(step, s, us + [u]) == step(Replay(step, s, us), u)
    decreases |us|
  {
    if |us| > 0 {
      assert (us + [u])[1..] == us[1..] + [u];
      ReplaySnoc(step, step(s, us[0]), us[1..], u);
    }
  }
}
