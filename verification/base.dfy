/** Shared building blocks: optional and failing results, Java integer
    division, and the oracle streams that stand in for `java.util.Random`
    and for the answers a player types. */
module Base {

  datatype Option<+T> = None | Some(value: T)

  datatype Result<+T, +E> = Ok(value: T) | Err(error: E)

  /** Dafny's `/` and `%` on a non-negative dividend: the quotient is the
      largest multiple count of `b` not exceeding `a`. */
  lemma DivBounds(a: int, b: int)
    requires a >= 0 && b > 0
    ensures 0 <= a / b && (a / b) * b <= a < (a / b) * b + b
  {
    assert a == (a / b) * b + a % b;
  }

  /** Java's `/` on `int` for a positive divisor: truncates toward zero
      (Dafny's own `/` is Euclidean), so the quotient times the divisor
      never lies farther from zero than the dividend, and is within one
      divisor of it. */
  function JDiv(a: int, b: int): (q: int)
    requires b > 0
    ensures a >= 0 ==> 0 <= q && q * b <= a < q * b + b
    ensures a < 0 ==> q <= 0 && q * b - b < a <= q * b
  {
    DivBounds(if a >= 0 then a else -a, b);
    if a >= 0 then a / b else -((-a) / b)
  }

  /** Java's `%` on `int` for a positive divisor: the remainder takes the
      sign of the dividend. */
  function JMod(a: int, b: int): (m: int)
    requires b > 0
    ensures a == JDiv(a, b) * b + m
    ensures a >= 0 ==> 0 <= m < b
    ensures a < 0 ==> -b < m <= 0
  {
    if a >= 0 then a % b else -((-a) % b)
  }

  /** A random generator seen only through the values it hands out. */
  datatype Rng = Rng(draws: seq<nat>)

  /** `nextInt(bound)`: `None` where Java throws (a bound that is not
      positive); otherwise a value in `[0, bound)` and the rest of the
      stream. An exhausted stream keeps answering 0. */
  function NextInt(g: Rng, bound: int): (r: Option<(int, Rng)>)
    ensures r.None? <==> bound <= 0
    ensures r.Some? ==> 0 <= r.value.0 < bound
    ensures r.Some? && |g.draws| > 0 ==> r.value.1.draws == g.draws[1..]
    ensures r.Some? && |g.draws| > 0 ==> r.value.0 == g.draws[0] % bound
  {
    if bound <= 0 then None
    else if |g.draws| == 0 then Some((0, g))
    else Some((g.draws[0] % bound, Rng(g.draws[1..])))
  }

  /** A prompt whose choice is then ignored: like any choice it re-asks
      until an answer is an index into the `size` options, and it yields
      the answers after the accepted one, or `None` when the input ends
      first (the prompt then throws). What is left is a strict suffix of
      the input. */
  function IgnoredChoice(answers: seq<int>, size: nat): (rest: Option<seq<int>>)
    ensures rest.None? <==> forall j :: 0 <= j < |answers| ==> !(0 <= answers[j] < size)
    ensures rest.Some? ==> |rest.value| < |answers| && rest.value == answers[|answers| - |rest.value|..]
    ensures rest.Some? ==> 0 <= answers[|answers| - |rest.value| - 1] < size
  {
    ChooseIndexValid(answers, size);
    match ChooseIndex(answers, size)
    case None => None
    case Some((_, after)) => Some(after)
  }

  /** Re-asks until the answer is an index into a list of `size` options:
      the first answer in `[0, size)` together with the answers after it,
      or `None` when the stream holds no such answer. */
  function ChooseIndex(answers: seq<int>, size: nat): (r: Option<(nat, seq<int>)>)
    decreases |answers|
  {
    if |answers| == 0 then None
    else if 0 <= answers[0] < size then Some((answers[0], answers[1..]))
    else ChooseIndex(answers[1..], size)
  }

  /** The validated choice is in range, every answer skipped before it was
      out of range, and what is left is exactly what followed it (so the
      choice sits just before the answers left); there is no choice
      exactly when no answer is in range. */
  lemma {:induction false} ChooseIndexValid(answers: seq<int>, size: nat)
    ensures var r := ChooseIndex(answers, size);
      r.Some? ==>
        var k := |answers| - |r.value.1| - 1;
        && 0 <= k < |answers|
        && answers[k] == r.value.0 < size
        && r.value.1 == answers[k + 1..]
        && (forall j :: 0 <= j < k ==> !(0 <= answers[j] < size))
    ensures ChooseIndex(answers, size).None? <==>
      (forall j :: 0 <= j < |answers| ==> !(0 <= answers[j] < size))
    decreases |answers|
  {
    if |answers| > 0 && !(0 <= answers[0] < size) {
      var tail := answers[1..];
      ChooseIndexValid(tail, size);
      assert forall j :: 0 < j < |answers| ==> answers[j] == tail[j - 1];
      var r := ChooseIndex(tail, size);
      if r.Some? {
        assert tail[|tail| - |r.value.1|..] == answers[|answers| - |r.value.1|..];
      }
    }
  }
}
