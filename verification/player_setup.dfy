/** Setting up the roster before a game: the player count and the piece
    count are asked for until a number in range is given, then one name
    per player, with a numbered default for an empty answer. The answers
    are the lines the user types, each already trimmed of surrounding
    white space as `getUserInput` returns it; running out of them yields
    `None`. With the
    text interface the read then throws and the program exits with status
    1; the window interface would wait for an answer instead. */
module PlayerSetup {
  import opened Base
  import opened Entities

  const IntMin := -0x8000_0000
  const IntMax := 0x7fff_ffff

  predicate IsDigit(ch: char)
  {
    '0' <= ch <= '9'
  }

  /** The value of one decimal digit. */
  function DigitOf(ch: char): (r: nat)
    requires IsDigit(ch)
    ensures r < 10
  {
    ch as int - '0' as int
  }

  /** The value of a run of decimal digits. */
  function DigitsValue(s: string): (r: nat)
    requires forall i :: 0 <= i < |s| ==> IsDigit(s[i])
    decreases |s|
  {
    if |s| == 0 then 0
    else DigitsValue(s[..|s| - 1]) * 10 + DigitOf(s[|s| - 1])
  }

  /** `Integer.parseInt(s)`: an optional `+` or `-`, then at least one
      decimal digit and nothing else, with a value that fits in 32 bits;
      anything else is a `NumberFormatException`, here `None`. */
  function ParseInt(s: string): (r: Option<int>)
    ensures r.Some? ==> IntMin <= r.value <= IntMax
  {
    var negative := |s| > 0 && s[0] == '-';
    var body := if |s| > 0 && (s[0] == '-' || s[0] == '+') then s[1..] else s;
    if |body| == 0 || exists i :: 0 <= i < |body| && !IsDigit(body[i]) then None
    else
      var v: int := if negative then 0 - DigitsValue(body) as int else DigitsValue(body);
      if IntMin <= v <= IntMax then Some(v) else None
  }

  /** The decimal digits of `n`, without sign or leading zeros. */
  function ShowNat(n: nat): (r: string)
    ensures |r| > 0
    ensures forall i :: 0 <= i < |r| ==> IsDigit(r[i])
    ensures |r| > 1 ==> r[0] != '0'
    decreases n
  {
    if n < 10 then [('0' as int + n) as char]
    else ShowNat(n / 10) + [('0' as int + n % 10) as char]
  }

  lemma {:induction false} ShowNatValue(n: nat)
    ensures DigitsValue(ShowNat(n)) == n
    decreases n
  {
    if n >= 10 {
      ShowNatValue(n / 10);
      var r := ShowNat(n);
      assert r[..|r| - 1] == ShowNat(n / 10);
    }
  }

  /** What `ShowNat` prints, `parseInt` reads back, for every value that
      fits in 32 bits. */
  lemma ParseShowNat(n: nat)
    requires n <= IntMax
    ensures ParseInt(ShowNat(n)) == Some(n)
  {
    ShowNatValue(n);
  }

  /** A leading minus negates. */
  lemma ParseNegative(n: nat)
    requires 0 < n <= IntMax
    ensures ParseInt("-" + ShowNat(n)) == Some(-(n as int))
  {
    ShowNatValue(n);
    assert ("-" + ShowNat(n))[1..] == ShowNat(n);
  }

  /** Without a digit there is no number, and neither is there past the
      32-bit range. */
  lemma ParseRejects()
    ensures ParseInt("") == None && ParseInt("-") == None && ParseInt("+") == None
    ensures ParseInt(ShowNat(IntMax + 1)) == None
  {
    ShowNatValue(IntMax + 1);
  }

  predicate InRange(v: int, lo: int, hi: int)
  {
    lo <= v <= hi
  }

  /** The count loop of `createPlayers`: while the count is out of range,
      read an answer; a number replaces the count, even one out of range,
      and anything else leaves it as it was. The result is the count and
      the answers not read. */
  function ReadCount(count: int, inputs: seq<string>, lo: int, hi: int): (r: Option<(int, seq<string>)>)
    ensures r.Some? ==> InRange(r.value.0, lo, hi)
    decreases |inputs|
  {
    if InRange(count, lo, hi) then Some((count, inputs))
    else if |inputs| == 0 then None
    else match ParseInt(inputs[0])
      case None => ReadCount(count, inputs[1..], lo, hi)
      case Some(v) => ReadCount(v, inputs[1..], lo, hi)
  }

  /** Starting from an out-of-range count, the loop settles on the first
      answer that is a number in range: every answer before it is not a
      number or out of range, and the answers after it are left unread.
      With no such answer the result is `None`: the read at the end of
      the input throws. */
  lemma {:induction false} ReadCountSpec(count: int, inputs: seq<string>, lo: int, hi: int)
    requires !InRange(count, lo, hi)
    ensures ReadCount(count, inputs, lo, hi).Some? <==>
      exists k :: 0 <= k < |inputs| && ParseInt(inputs[k]).Some? && InRange(ParseInt(inputs[k]).value, lo, hi)
    ensures ReadCount(count, inputs, lo, hi).Some? ==>
      exists k ::
        && 0 <= k < |inputs| && ParseInt(inputs[k]).Some? && InRange(ParseInt(inputs[k]).value, lo, hi)
        && (forall j :: 0 <= j < k ==> !(ParseInt(inputs[j]).Some? && InRange(ParseInt(inputs[j]).value, lo, hi)))
        && ReadCount(count, inputs, lo, hi).value == (ParseInt(inputs[k]).value, inputs[k + 1..])
    decreases |inputs|
  {
    if |inputs| > 0 {
      var next := match ParseInt(inputs[0]) case None => count case Some(v) => v;
      if !InRange(next, lo, hi) {
        ReadCountSpec(next, inputs[1..], lo, hi);
        assert forall j :: 0 < j < |inputs| ==> inputs[j] == inputs[1..][j - 1];
        if ReadCount(count, inputs, lo, hi).Some? {
          var k' :| && 0 <= k' < |inputs| - 1 && ParseInt(inputs[1..][k']).Some?
                    && InRange(ParseInt(inputs[1..][k']).value, lo, hi)
                    && (forall j :: 0 <= j < k' ==> !(ParseInt(inputs[1..][j]).Some? && InRange(ParseInt(inputs[1..][j]).value, lo, hi)))
                    && ReadCount(next, inputs[1..], lo, hi).value == (ParseInt(inputs[1..][k']).value, inputs[1..][k' + 1..]);
          assert inputs[1..][k' + 1..] == inputs[k' + 2..];
          assert forall j :: 0 <= j < k' + 1 ==> !(ParseInt(inputs[j]).Some? && InRange(ParseInt(inputs[j]).value, lo, hi));
        }
      }
    }
  }

  /** The name of player `i` (counting from 0): the answer, or `玩家`
      followed by `i + 1` when the answer is empty. */
  function PlayerName(answer: string, i: nat): (r: string)
    ensures |r| > 0
    ensures |answer| > 0 ==> r == answer
  {
    if |answer| == 0 then "玩家" + ShowNat(i + 1) else answer
  }

  /** The naming loop from player `i` on: each player is created with id
      `i` and `chessmen` fresh pieces. */
  function NamePlayers(inputs: seq<string>, i: nat, count: nat, chessmen: nat): (r: Option<(seq<Player>, seq<string>)>)
    requires i <= count
    ensures r.Some? ==> |r.value.0| == count - i && |inputs| >= count - i
    ensures r.Some? ==> forall j :: 0 <= j < count - i ==> r.value.0[j] == NewPlayer(PlayerName(inputs[j], i + j), i + j, chessmen)
    ensures r.Some? ==> r.value.1 == inputs[count - i..]
    ensures r.None? <==> |inputs| < count - i
    decreases count - i
  {
    if i == count then Some(([], inputs))
    else if |inputs| == 0 then None
    else match NamePlayers(inputs[1..], i + 1, count, chessmen)
      case None => None
      case Some((rest, left)) => Some(([NewPlayer(PlayerName(inputs[0], i), i, chessmen)] + rest, left))
  }

  /** `createPlayers`: the player count in `minPlayers .. maxPlayers`, the
      piece count in `1 .. maxChessmen`, then one name per player. */
  function CreatePlayers(inputs: seq<string>, minPlayers: int, maxPlayers: int, maxChessmen: int): (r: Option<seq<Player>>)
  {
    match ReadCount(0, inputs, minPlayers, maxPlayers)
    case None => None
    case Some((count, rest)) =>
      match ReadCount(0, rest, 1, maxChessmen)
      case None => None
      case Some((chessmen, names)) =>
        if count < 0 || chessmen < 0 then None
        else match NamePlayers(names, 0, count, chessmen)
          case None => None
          case Some((players, _)) => Some(players)
  }

  /** A finished setup for at least one player gives a roster of the asked
      size whose player `i` has id `i`, is active and not a winner, has a
      non-empty name and owns between 1 and `maxChessmen` pieces in the
      hangar, all players the same number. */
  lemma CreatePlayersSpec(inputs: seq<string>, minPlayers: int, maxPlayers: int, maxChessmen: int)
    requires 1 <= minPlayers
    ensures var r := CreatePlayers(inputs, minPlayers, maxPlayers, maxChessmen);
      r.Some? ==>
        && minPlayers <= |r.value| <= maxPlayers
        && forall i :: 0 <= i < |r.value| ==>
             && r.value[i].playerId == i && r.value[i].active && !r.value[i].isWinner
             && |r.value[i].name| > 0
             && 1 <= |r.value[i].chessmen| <= maxChessmen
             && |r.value[i].chessmen| == |r.value[0].chessmen|
             && forall j :: 0 <= j < |r.value[i].chessmen| ==>
                  r.value[i].chessmen[j] == NewChessman(j, i)
  {
  }
}
