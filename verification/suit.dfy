/** Card suits (`Suit` in src/poker/cards/suit.rs) and their one-letter parser. */
module Suits {
  import opened Wrappers

  datatype Suit = Hearts | Diamonds | Clubs | Spades

  datatype SuitError = NoSuchSuit

  /** The notation letter of each suit. */
  function Symbol(s: Suit): string
  {
    match s
    case Hearts => "h"
    case Diamonds => "d"
    case Clubs => "c"
    case Spades => "s"
  }

  /** `Suit::from_string`: exactly the four one-letter symbols are accepted. */
  function FromString(symbol: string): (r: Result<Suit, SuitError>)
    ensures r.Ok? ==> Symbol(r.value) == symbol
    ensures r.Err? <==> forall s: Suit :: Symbol(s) != symbol
    ensures r.Err? ==> r.error == NoSuchSuit
  {
    if symbol == "h" then Ok(Hearts)
    else if symbol == "d" then Ok(Diamonds)
    else if symbol == "c" then Ok(Clubs)
    else if symbol == "s" then Ok(Spades)
    else Err(NoSuchSuit)
  }

  /** Every suit is produced from its own symbol, so parsing covers all four suits. */
  lemma FromStringRoundTrip(s: Suit)
    ensures FromString(Symbol(s)) == Ok(s)
  {
  }

  /** Two symbols that parse to the same suit are the same symbol. */
  lemma FromStringInjective(x: string, y: string)
    requires FromString(x).Ok? && FromString(x) == FromString(y)
    ensures x == y
  {
  }

  /** The empty string and every string longer than one character are rejected. */
  lemma FromStringRejectsOtherLengths(symbol: string)
    requires |symbol| != 1
    ensures FromString(symbol) == Err(NoSuchSuit)
  {
  }
}
