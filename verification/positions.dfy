/**
 * The position factor `position_factor`: a multiplier for the seat at the
 * table, growing from UTG towards the button, with a penalty for the blinds.
 */
module Positions {
  import opened Text

  /** `POSITION_ORDER`, the seats from first to act to the big blind. */
  const PositionOrder: seq<string> := ["UTG", "UTG1", "UTG2", "MP", "CO", "BTN", "SB", "BB"]

  /** `xs.index(x)`: the first place where `x` stands in `xs`. */
  function IndexOf(xs: seq<string>, x: string): (i: nat)
    requires x in xs
    ensures i < |xs| && xs[i] == x
    ensures forall j :: 0 <= j < i ==> xs[j] != x
  {
    if xs[0] == x then 0 else 1 + IndexOf(xs[1..], x)
  }

  /**
   * `position_factor`: 1.0 for a seat not in the list (compared upper-cased);
   * otherwise 0.9 plus 0.03 per place in the list, less 0.05 for the blinds.
   * Every factor lies between 0.9 (UTG) and 1.06 (BB).
   */
  function PositionFactor(position: string): (f: real)
    ensures 0.9 <= f <= 1.06
    ensures Upper(position) !in PositionOrder ==> f == 1.0
  {
    var pos := Upper(position);
    if pos !in PositionOrder then 1.0
    else
      var idx := IndexOf(PositionOrder, pos);
      var base := 0.9 + 0.03 * idx as real;
      if pos in ["SB", "BB"] then base - 0.05 else base
  }

  /** The factor of every listed seat, by its place in the list. */
  lemma ListedSeatFactor(i: nat)
    requires i < |PositionOrder|
    ensures PositionFactor(PositionOrder[i]) == 0.9 + 0.03 * i as real - (if i >= 6 then 0.05 else 0.0)
  {
    var pos := PositionOrder[i];
    UpperKeepsUpper(pos);
    ListedSeatIndex(i);
    BlindSeats(i);
  }

  /** The seats are distinct, so each is found at its own place. */
  lemma ListedSeatIndex(i: nat)
    requires i < |PositionOrder|
    ensures IndexOf(PositionOrder, PositionOrder[i]) == i
  {
    SeatsDistinct();
    IndexOfDistinct(PositionOrder, i);
  }

  predicate Distinct(xs: seq<string>) {
    forall a, b :: 0 <= a < b < |xs| ==> xs[a] != xs[b]
  }

  lemma SeatsDistinct()
    ensures Distinct(PositionOrder)
  {
  }

  /** In a list without repetitions `index` finds each element at its own place. */
  lemma IndexOfDistinct(xs: seq<string>, i: nat)
    requires Distinct(xs) && i < |xs|
    ensures IndexOf(xs, xs[i]) == i
  {
  }

  /** The blinds are the last two seats. */
  lemma BlindSeats(i: nat)
    requires i < |PositionOrder|
    ensures PositionOrder[i] in ["SB", "BB"] <==> i >= 6
  {
  }

  /** Every listed seat is spelled in upper case and digits, so upper-casing keeps it. */
  lemma UpperKeepsUpper(pos: string)
    requires pos in PositionOrder
    ensures Upper(pos) == pos
  {
    assert forall k :: 0 <= k < |pos| ==> !('a' <= pos[k] <= 'z');
  }

  /** From UTG to the button the factor strictly increases. */
  lemma FactorIncreasesTowardButton(i: nat, j: nat)
    requires i < j <= 5
    ensures PositionFactor(PositionOrder[i]) < PositionFactor(PositionOrder[j])
  {
    ListedSeatFactor(i);
    ListedSeatFactor(j);
  }

  /** The blind penalty leaves the small blind below the button but the big blind above it. */
  lemma BlindFactors()
    ensures PositionFactor("SB") == 1.03 && PositionFactor("BB") == 1.06
    ensures PositionFactor("SB") < PositionFactor("BTN") < PositionFactor("BB")
  {
    ListedSeatFactor(5);
    ListedSeatFactor(6);
    ListedSeatFactor(7);
  }

  /** The seat name is compared without regard to case. */
  lemma PositionFactorCaseInsensitive(position: string)
    ensures PositionFactor(Lower(position)) == PositionFactor(position)
    ensures PositionFactor(Upper(position)) == PositionFactor(position)
  {
    UpperAbsorbsCase(position);
  }
}
