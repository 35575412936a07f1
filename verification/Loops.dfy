/** Loops whose body, given the number of the pass and the state, yields a result or a state to go on with. */
module Loops {
  import opened Base

  /** Every pass that goes on makes the state smaller. */
  ghost predicate Shrinks<S(!new), R>(body: (nat, S) -> (Option<R>, S), size: S -> nat) {
    forall k: nat, s :: body(k, s).0.None? ==> size(body(k, s).1) < size(s)
  }

  /** The loop's result and its last state, from pass k on. */
  ghost function Loop<S(!new), R>(body: (nat, S) -> (Option<R>, S), size: S -> nat, k: nat, s: S): (R, S)
    requires Shrinks(body, size)
    decreases size(s)
  {
    var (result, next) := body(k, s);
    if result.Some? then (result.value, next) else Loop(body, size, k + 1, next)
  }

  /** The state after n more passes. */
  function After<S, R>(body: (nat, S) -> (Option<R>, S), k: nat, s: S, n: nat): S
    decreases n
  {
    if n == 0 then s else After(body, k + 1, body(k, s).1, n - 1)
  }

  /** None of the next n passes yields a result. */
  predicate GoesOn<S, R>(body: (nat, S) -> (Option<R>, S), k: nat, s: S, n: nat)
    decreases n
  {
    n > 0 ==> body(k, s).0.None? && GoesOn(body, k + 1, body(k, s).1, n - 1)
  }

  /** Going on in single passes. */
  lemma {:induction false} OnePassOn<S, R>(body: (nat, S) -> (Option<R>, S), k: nat, s: S, n: nat, i: nat)
    requires GoesOn(body, k, s, n) && i < n
    ensures body(k + i, After(body, k, s, i)) == (None, After(body, k, s, i + 1))
    decreases n
  {
    if i > 0 {
      OnePassOn(body, k + 1, body(k, s).1, n - 1, i - 1);
    }
  }

  /** The loop goes on for some number of passes, and the next one yields its result. */
  lemma {:induction false} LoopStops<S(!new), R>(body: (nat, S) -> (Option<R>, S), size: S -> nat, k: nat, s: S)
    returns (n: nat)
    requires Shrinks(body, size)
    ensures var (result, end) := Loop(body, size, k, s);
            GoesOn(body, k, s, n) && body(k + n, After(body, k, s, n)) == (Some(result), end)
    decreases size(s)
  {
    var (result, next) := body(k, s);
    n := 0;
    if result.None? {
      var m := LoopStops(body, size, k + 1, next);
      n := m + 1;
    }
  }

  /** A pass goes on only where it may, and yields only results that its state explains. */
  ghost predicate Explains<S(!new), R>(body: (nat, S) -> (Option<R>, S), may: (nat, S) -> bool,
                                       ends: (nat, S, R, S) -> bool)
  {
    forall k: nat, s ::
      var (result, next) := body(k, s);
      if result.None? then may(k, s) else ends(k, s, result.value, next)
  }

  /** The next n passes went on, each where it might, and the state after them explains the result. */
  ghost predicate Explained<S, R>(body: (nat, S) -> (Option<R>, S), may: (nat, S) -> bool,
                                  ends: (nat, S, R, S) -> bool, k: nat, s: S, n: nat, result: R, end: S)
  {
    GoesOn(body, k, s, n)
    && (forall i :: 0 <= i < n ==> may(k + i, After(body, k, s, i)))
    && ends(k + n, After(body, k, s, n), result, end)
  }

  /** The result of a loop is explained by the state after some number of passes that might go on. */
  lemma LoopExplained<S(!new), R>(body: (nat, S) -> (Option<R>, S), size: S -> nat, may: (nat, S) -> bool,
                                  ends: (nat, S, R, S) -> bool, k: nat, s: S) returns (n: nat)
    requires Shrinks(body, size) && Explains(body, may, ends)
    ensures var (result, end) := Loop(body, size, k, s);
            Explained(body, may, ends, k, s, n, result, end)
  {
    n := LoopStops(body, size, k, s);
    forall i | 0 <= i < n
      ensures may(k + i, After(body, k, s, i))
    {
      OnePassOn(body, k, s, n, i);
    }
  }

  /** What every pass that goes on keeps holds of the state after any number of passes. */
  ghost predicate Keeps<S(!new), R>(body: (nat, S) -> (Option<R>, S), inv: (nat, S) -> bool) {
    forall k: nat, s {:trigger body(k, s)} :: inv(k, s) && body(k, s).0.None? ==> inv(k + 1, body(k, s).1)
  }

  lemma {:induction false} StaysKept<S(!new), R>(body: (nat, S) -> (Option<R>, S), inv: (nat, S) -> bool, k: nat,
                                                 s: S, n: nat)
    requires Keeps(body, inv) && inv(k, s) && GoesOn(body, k, s, n)
    ensures inv(k + n, After(body, k, s, n))
    decreases n
  {
    if n > 0 {
      StaysKept(body, inv, k + 1, body(k, s).1, n - 1);
    }
  }

  /** And where the loop goes on until a pass yields a result, that is the loop's. */
  lemma {:induction false} StopDetermines<S(!new), R>(body: (nat, S) -> (Option<R>, S), size: S -> nat, k: nat, s: S,
                                                      n: nat, result: R, end: S)
    requires Shrinks(body, size)
    requires GoesOn(body, k, s, n) && body(k + n, After(body, k, s, n)) == (Some(result), end)
    ensures Loop(body, size, k, s) == (result, end)
    decreases n
  {
    if n > 0 {
      StopDetermines(body, size, k + 1, body(k, s).1, n - 1, result, end);
    }
  }

  /** A loop whose third pass yields its result. */
  lemma ThirdPassEnds<S(!new), R>(body: (nat, S) -> (Option<R>, S), size: S -> nat, s: S, first: S, second: S,
                                  result: R, end: S)
    requires Shrinks(body, size)
    requires body(0, s) == (None, first) && body(1, first) == (None, second) && body(2, second) == (Some(result), end)
    ensures GoesOn(body, 0, s, 2) && After(body, 0, s, 2) == second && Loop(body, size, 0, s) == (result, end)
  {
    assert After(body, 1, first, 1) == After(body, 2, second, 0);
    StopDetermines(body, size, 0, s, 2, result, end);
  }
}
