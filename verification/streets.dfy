/** The street detector `detect_street`: the number of board cards names the betting round. */
module Streets {
  import opened Wrappers

  /** The `Street` literal type: "preflop", "flop", "turn", "river". */
  datatype Street = Preflop | Flop | Turn | River

  /** The `ValueError` raised for a board that is not 0, 3, 4 or 5 cards. */
  datatype BoardError = InvalidBoard

  /** How many community cards lie on the board during each street. */
  function BoardSize(street: Street): nat {
    match street
    case Preflop => 0
    case Flop => 3
    case Turn => 4
    case River => 5
  }

  /**
   * `detect_street`: a board of 0, 3, 4 or 5 cards gives the street whose
   * board it is; every other count is an error.
   */
  function DetectStreet(boardCards: int): (r: Result<Street, BoardError>)
    ensures r.Ok? <==> boardCards in {0, 3, 4, 5}
    ensures r.Ok? ==> BoardSize(r.value) == boardCards
    ensures r.Err? ==> r.error == InvalidBoard
  {
    if boardCards == 0 then Ok(Preflop)
    else if boardCards == 3 then Ok(Flop)
    else if boardCards == 4 then Ok(Turn)
    else if boardCards == 5 then Ok(River)
    else Err(InvalidBoard)
  }

  /** Detecting the street of a street's own board size gives that street back. */
  lemma DetectStreetRoundTrip(street: Street)
    ensures DetectStreet(BoardSize(street)) == Ok(street)
  {
  }
}
