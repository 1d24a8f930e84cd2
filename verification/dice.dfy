/** The static die: a face drawn from the shared generator. */
module Dice {
  import opened Base

  /** Number of faces of the default die. */
  const DefaultSides := 6

  /** `roll(sides)`: rejected when `sides` is not positive, otherwise a
      face between 1 and `sides`, consuming one draw. */
  function Roll(g: Rng, sides: int): (r: Result<(int, Rng), string>)
    ensures r.Err? <==> sides <= 0
    ensures r.Ok? ==> 1 <= r.value.0 <= sides
    ensures r.Ok? && |g.draws| > 0 ==>
      r.value.0 == g.draws[0] % sides + 1 && r.value.1.draws == g.draws[1..]
  {
    match NextInt(g, sides)
    case None => Err("骰子面数必须大于0")
    case Some((v, g')) => Ok((v + 1, g'))
  }

  /** `roll()`: a six-sided roll, which never fails. */
  function RollDefault(g: Rng): (r: (int, Rng))
    ensures 1 <= r.0 <= DefaultSides
    ensures Roll(g, DefaultSides) == Ok(r)
  {
    Roll(g, DefaultSides).value
  }
}
