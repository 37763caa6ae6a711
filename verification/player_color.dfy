/** The two players of the game (`PlayerColor`). */
module PlayerColors {

  /** `Max` is MAXIMIZING_PLAYER, `Min` is MINIMIZING_PLAYER. */
  datatype Color = Max | Min

  /** The colour that moves after `c`. */
  function Opposite(c: Color): (r: Color)
    ensures r != c
  {
    if c == Max then Min else Max
  }

  /** The character the enumeration carries (`getChar`); the board rendering
      does not use it and shows the opposite letters. */
  function GetChar(c: Color): char
  {
    match c
    case Max => 'X'
    case Min => 'O'
  }
}
