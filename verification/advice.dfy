/**
 * The recommendation rule `recommend_action`: the street, the tier of the
 * hand and, after the flop, an equity estimate compared with a required
 * equity give a label, an action and the data its explanation shows.
 */
module Advice {
  import opened Text
  import opened Streets
  import opened Strength
  import opened Positions

  /** The edge bands "große Edge", "leichte Edge", "knapp" and "nachteil". */
  datatype Edge = LargeEdge | SlightEdge | Marginal | Disadvantage

  /** Edge bands ordered from disadvantage (0) to large edge (3). */
  function EdgeRank(edge: Edge): nat {
    match edge
    case Disadvantage => 0
    case Marginal => 1
    case SlightEdge => 2
    case LargeEdge => 3
  }

  /** The labels; after the flop they carry the street they name. */
  datatype Label =
    | PremiumPreflop        // "PREMIUM PRE-FLOP"
    | StrongPreflop         // "Starke Hand Pre-Flop"
    | BorderlinePreflop     // "Grenzhand Pre-Flop"
    | TrashPreflop          // "Trash Hand Pre-Flop"
    | Monster(street: Street)          // "<Street> – Monsterhand"
    | MadeHandOrDraw(street: Street)   // "<Street> – starke Made Hand / guter Draw"
    | MediumHand(street: Street)       // "<Street> – mittlere Hand / schwacher Showdown-Wert"
    | WeakHand(street: Street)         // "<Street> – schwache Hand / Luft"

  /** The actions. */
  datatype Action =
    | ThreeBetFourBetValue      // "3-bet / 4-bet for Value; niemals folden."
    | OpenRaiseOrCall           // "Open-Raise oder Call vs. 3-bet; selten folden."
    | OpenRaiseLateOrFoldEarly  // "Open-Raise in später Position oder Fold in früher Position."
    | Fold                      // "Fold."
    | BigValueBetOrRaise        // "Großer Valuebet / Raise (mindestens 2/3 Pot). Niemals folden."
    | BetHalfToTwoThirdsOrCall  // "Bet 1/2–2/3 Pot oder Call gegen moderate Bets."
    | CheckCallOrThinValue      // "Check/Call kleine Bets oder Thin Valuebet in Position."
    | CheckFold                 // "Check/Fold gegen größere Bets."
    | CheckFoldUnlessBluff      // "Check/Fold, außer du hast einen klaren Bluff-Spot."

  /**
   * The explanations, by what they interpolate: the monster-hand text shows
   * the edge band and the hand class, the strong-hand text the band's
   * category and the hand class; the others are fixed texts.
   */
  datatype Explanation =
    | PreflopNote(tier: Tier)
    | MonsterNote(edge: Edge, handClass: string)
    | MadeHandNote(edge: Edge, handClass: string)
    | EnoughEquityNote
    | BehindNote
    | AirNote

  /** `Recommendation`; the source's `label` field is `title` here, `label` being a Dafny keyword. */
  datatype Recommendation = Recommendation(title: Label, action: Action, explanation: Explanation)

  predicate IsPreflopLabel(l: Label) {
    l.PremiumPreflop? || l.StrongPreflop? || l.BorderlinePreflop? || l.TrashPreflop?
  }

  /** The actions whose text says never to fold. */
  predicate ForbidsFolding(action: Action) {
    action == ThreeBetFourBetValue || action == BigValueBetOrRaise
  }

  /** The actions whose text proposes folding in some situation. */
  predicate AdvisesFolding(action: Action) {
    action == OpenRaiseLateOrFoldEarly || action == Fold || action == CheckFold || action == CheckFoldUnlessBluff
  }

  /** `multiway_factor`: 1 plus 0.03 for every player beyond two. */
  function MultiwayFactor(players: int): (m: real)
    ensures m >= 1.0
    ensures players <= 2 ==> m == 1.0
  {
    1.0 + (if players - 2 > 0 then players - 2 else 0) as real * 0.03
  }

  /** `required_equity`: 0.35, scaled up by the multiway factor and down by the position factor. */
  function RequiredEquity(players: int, posFactor: real): (r: real)
    requires posFactor > 0.0
    ensures r > 0.0
    ensures r * posFactor == 0.35 * MultiwayFactor(players)
  {
    0.35 * MultiwayFactor(players) / posFactor
  }

  /**
   * The edge band of an equity estimate against the required equity. The
   * thresholds are cumulative: the band is at least marginal above
   * required - 0.05, at least a slight edge above required + 0.05, and a
   * large edge above required + 0.15.
   */
  function EdgeBand(equity: real, required: real): (edge: Edge)
    ensures EdgeRank(edge) >= 1 <==> equity > required - 0.05
    ensures EdgeRank(edge) >= 2 <==> equity > required + 0.05
    ensures EdgeRank(edge) == 3 <==> equity > required + 0.15
  {
    if equity > required + 0.15 then LargeEdge
    else if equity > required + 0.05 then SlightEdge
    else if equity > required - 0.05 then Marginal
    else Disadvantage
  }

  /** The pre-flop branch: the tier alone decides. */
  function PreflopAdvice(tier: Tier): (rec: Recommendation)
    ensures IsPreflopLabel(rec.title)
    ensures ForbidsFolding(rec.action) <==> tier == Premium
    ensures tier == Premium ==> rec.title == PremiumPreflop && rec.action == ThreeBetFourBetValue
    ensures tier == Strong ==> rec.title == StrongPreflop && rec.action == OpenRaiseOrCall
    ensures tier == Medium ==> rec.title == BorderlinePreflop && rec.action == OpenRaiseLateOrFoldEarly
    ensures tier == Weak ==> rec.title == TrashPreflop && rec.action == Fold
  {
    match tier
    case Premium => Recommendation(PremiumPreflop, ThreeBetFourBetValue, PreflopNote(tier))
    case Strong => Recommendation(StrongPreflop, OpenRaiseOrCall, PreflopNote(tier))
    case Medium => Recommendation(BorderlinePreflop, OpenRaiseLateOrFoldEarly, PreflopNote(tier))
    case Weak => Recommendation(TrashPreflop, Fold, PreflopNote(tier))
  }

  /** The post-flop branch: the tier picks label and action, a medium hand also asks whether equity suffices. */
  function PostflopAdvice(street: Street, tier: Tier, handClass: string, equity: real, required: real)
    : (rec: Recommendation)
    ensures !IsPreflopLabel(rec.title) && rec.title.street == street
    ensures ForbidsFolding(rec.action) <==> tier == Premium
    ensures tier == Premium ==> rec.title == Monster(street) && rec.action == BigValueBetOrRaise
    ensures tier == Strong ==> rec.title == MadeHandOrDraw(street) && rec.action == BetHalfToTwoThirdsOrCall
    ensures tier == Medium ==> rec.title == MediumHand(street)
    ensures tier == Weak ==> rec.title == WeakHand(street) && rec.action == CheckFoldUnlessBluff
    ensures tier == Medium ==> (rec.action == CheckCallOrThinValue <==> equity >= required)
    ensures tier == Medium ==> (rec.action == CheckFold <==> equity < required)
  {
    var edge := EdgeBand(equity, required);
    match tier
    case Premium => Recommendation(Monster(street), BigValueBetOrRaise, MonsterNote(edge, handClass))
    case Strong => Recommendation(MadeHandOrDraw(street), BetHalfToTwoThirdsOrCall, MadeHandNote(edge, handClass))
    case Medium =>
      if equity >= required then Recommendation(MediumHand(street), CheckCallOrThinValue, EnoughEquityNote)
      else Recommendation(MediumHand(street), CheckFold, BehindNote)
    case Weak => Recommendation(WeakHand(street), CheckFoldUnlessBluff, AirNote)
  }

  /**
   * The body of `recommend_action` once the tier is known: the label names
   * the street (pre-flop labels exactly on the pre-flop street), the action
   * forbids folding exactly for a premium hand, and a weak hand is always
   * advised to fold in some form.
   */
  function AdviseTier(handEval: HandEvaluation, strength: Tier, position: string, players: int)
    : (rec: Recommendation)
    ensures IsPreflopLabel(rec.title) <==> handEval.street == Preflop
    ensures !IsPreflopLabel(rec.title) ==> rec.title.street == handEval.street
    ensures ForbidsFolding(rec.action) <==> strength == Premium
    ensures strength == Weak ==> AdvisesFolding(rec.action)
  {
    var posFactor := PositionFactor(position);
    var required := RequiredEquity(players, posFactor);
    var equity := 1.0 - handEval.pctRank;
    if handEval.street == Preflop then PreflopAdvice(strength)
    else PostflopAdvice(handEval.street, strength, handEval.handClass, equity, required)
  }

  /**
   * `recommend_action`, classifying as the source does. The label names the
   * street, the action forbids folding exactly when the source's premium rule
   * matches, and a weak hand is always advised to fold in some form.
   */
  function Recommend(handEval: HandEvaluation, position: string, stackBb: real, potBb: real, players: int)
    : (rec: Recommendation)
    ensures IsPreflopLabel(rec.title) <==> handEval.street == Preflop
    ensures !IsPreflopLabel(rec.title) ==> rec.title.street == handEval.street
    ensures ForbidsFolding(rec.action) <==> SourcePremiumRule(Lower(handEval.handClass))
    ensures ClassifyAsWritten(handEval) == Weak ==> AdvisesFolding(rec.action)
  {
    AdviseTier(handEval, ClassifyAsWritten(handEval), position, players)
  }

  /**
   * `recommend_action` with the corrected classifier: the same rule, and
   * folding is forbidden exactly for a premium hand, the royal flush included.
   */
  function RecommendCorrected(handEval: HandEvaluation, position: string, stackBb: real, potBb: real, players: int)
    : (rec: Recommendation)
    ensures IsPreflopLabel(rec.title) <==> handEval.street == Preflop
    ensures ForbidsFolding(rec.action) <==> PremiumRule(Lower(handEval.handClass))
    ensures !Contains("royal flush", Lower(handEval.handClass)) ==>
      rec == Recommend(handEval, position, stackBb, potBb, players)
  {
    AdviseTier(handEval, Classify(handEval), position, players)
  }

  /** Before the flop only the tier matters: not the position, the players, the percentile or the label beyond its tier. */
  lemma PreflopDependsOnlyOnTier(
    e1: HandEvaluation, position1: string, stack1: real, pot1: real, players1: int,
    e2: HandEvaluation, position2: string, stack2: real, pot2: real, players2: int)
    requires e1.street == Preflop && e2.street == Preflop && ClassifyAsWritten(e1) == ClassifyAsWritten(e2)
    ensures Recommend(e1, position1, stack1, pot1, players1) == Recommend(e2, position2, stack2, pot2, players2)
  {
  }

  /** The stack and the pot size never change the recommendation. */
  lemma StackAndPotIgnored(
    e: HandEvaluation, position: string, players: int, stack1: real, pot1: real, stack2: real, pot2: real)
    ensures Recommend(e, position, stack1, pot1, players) == Recommend(e, position, stack2, pot2, players)
  {
  }

  /**
   * After the flop a medium hand is told to check/call exactly when the
   * equity estimate 1 - pct reaches the required equity, and to check/fold otherwise.
   */
  lemma MediumContinuesIffEnoughEquity(
    e: HandEvaluation, position: string, stackBb: real, potBb: real, players: int)
    requires e.street != Preflop && ClassifyAsWritten(e) == Medium
    ensures var rec := Recommend(e, position, stackBb, potBb, players);
      && rec.title == MediumHand(e.street)
      && (rec.action == CheckCallOrThinValue || rec.action == CheckFold)
      && (rec.action == CheckCallOrThinValue <==>
           1.0 - e.pctRank >= RequiredEquity(players, PositionFactor(position)))
  {
  }

  /** After the flop a premium or strong hand's explanation shows the edge band of 1 - pct against the required equity. */
  lemma PostflopExplanationEdge(
    e: HandEvaluation, position: string, stackBb: real, potBb: real, players: int)
    requires e.street != Preflop && (ClassifyAsWritten(e) == Premium || ClassifyAsWritten(e) == Strong)
    ensures var rec := Recommend(e, position, stackBb, potBb, players);
      && (rec.explanation.MonsterNote? || rec.explanation.MadeHandNote?)
      && rec.explanation.handClass == e.handClass
      && rec.explanation.edge == EdgeBand(1.0 - e.pctRank, RequiredEquity(players, PositionFactor(position)))
  {
  }

  /** A better equity estimate never falls into a worse edge band. */
  lemma EdgeBandMonotone(equity1: real, equity2: real, required: real)
    requires equity1 <= equity2
    ensures EdgeRank(EdgeBand(equity1, required)) <= EdgeRank(EdgeBand(equity2, required))
  {
  }

  /** More players never lower the required equity; a better position factor never raises it. */
  lemma RequiredEquityMonotone(players1: int, factor1: real, players2: int, factor2: real)
    requires players1 <= players2 && 0.0 < factor2 <= factor1
    ensures RequiredEquity(players1, factor1) <= RequiredEquity(players2, factor2)
  {
    var a1, a2 := 0.35 * MultiwayFactor(players1), 0.35 * MultiwayFactor(players2);
    QuotientMonotone(a1, a2, factor1);
    QuotientAntitone(a2, factor1, factor2);
  }

  lemma QuotientMonotone(a: real, b: real, f: real)
    requires a <= b && f > 0.0
    ensures a / f <= b / f
  {
    assert b / f - a / f == (b - a) / f;
  }

  lemma QuotientAntitone(a: real, f1: real, f2: real)
    requires a >= 0.0 && 0.0 < f2 <= f1
    ensures a / f1 <= a / f2
  {
    var q1, q2 := a / f1, a / f2;
    assert q1 * f1 == a && q2 * f2 == a;
    assert q1 >= 0.0;
    assert q1 * f2 <= q1 * f1;
    assert q1 * f2 <= q2 * f2;
  }

  /** On the button with six players the required equity is 28/75, about 0.373. */
  lemma ButtonRequiredEquity()
    ensures RequiredEquity(6, PositionFactor("BTN")) == 28.0 / 75.0
  {
    ListedSeatFactor(5);
    assert PositionFactor("BTN") == 1.05;
  }

  /** A flopped pair on the button at a six-handed table is check/called exactly when its percentile rank is at most 47/75. */
  lemma ButtonPairOnTheFlop(e: HandEvaluation)
    requires e.street == Flop && Lower(e.handClass) == "pair"
    ensures var rec := Recommend(e, "BTN", 100.0, 12.0, 6);
      && rec.title == MediumHand(Flop)
      && rec.action == (if e.pctRank <= 47.0 / 75.0 then CheckCallOrThinValue else CheckFold)
  {
    PairName(e);
    ButtonMediumOnTheFlop(e);
  }

  lemma ButtonMediumOnTheFlop(e: HandEvaluation)
    requires e.street == Flop && ClassifyAsWritten(e) == Medium
    ensures var rec := Recommend(e, "BTN", 100.0, 12.0, 6);
      && rec.title == MediumHand(Flop)
      && rec.action == (if e.pctRank <= 47.0 / 75.0 then CheckCallOrThinValue else CheckFold)
  {
    ButtonRequiredEquity();
  }

  /** A flopped full house is a monster hand: big value bet or raise, whatever the seat, stack, pot or players. */
  lemma FullHouseOnTheFlop(e: HandEvaluation, position: string, stackBb: real, potBb: real, players: int)
    requires e.street == Flop && Lower(e.handClass) == "full house"
    ensures var rec := Recommend(e, position, stackBb, potBb, players);
      rec.title == Monster(Flop) && rec.action == BigValueBetOrRaise
  {
    FullHouseName(e);
    PremiumPostflop(e, position, stackBb, potBb, players);
  }

  /** After the flop a premium hand is a monster hand, bet or raised big. */
  lemma PremiumPostflop(e: HandEvaluation, position: string, stackBb: real, potBb: real, players: int)
    requires e.street != Preflop && ClassifyAsWritten(e) == Premium
    ensures var rec := Recommend(e, position, stackBb, potBb, players);
      rec.title == Monster(e.street) && rec.action == BigValueBetOrRaise
  {
  }

  /** Before the flop a high card with a percentile rank above 0.7 is folded, whatever the seat. */
  lemma TrashFoldedPreflop(e: HandEvaluation, position: string, stackBb: real, potBb: real, players: int)
    requires e.street == Preflop && Lower(e.handClass) == "high card" && e.pctRank > 0.7
    ensures var rec := Recommend(e, position, stackBb, potBb, players);
      rec.title == TrashPreflop && rec.action == Fold
  {
    HighCardName(e);
    WeakPreflop(e, position, stackBb, potBb, players);
  }

  /** Before the flop a weak hand is trash and folded. */
  lemma WeakPreflop(e: HandEvaluation, position: string, stackBb: real, potBb: real, players: int)
    requires e.street == Preflop && ClassifyAsWritten(e) == Weak
    ensures var rec := Recommend(e, position, stackBb, potBb, players);
      rec.title == TrashPreflop && rec.action == Fold
  {
  }

  /**
   * A royal flush after the flop: as written it is advised like a strong
   * made hand (bet half to two thirds of the pot or call), where the
   * corrected rule treats it as a monster hand.
   */
  lemma RoyalFlushAfterTheFlop(e: HandEvaluation, position: string, stackBb: real, potBb: real, players: int)
    requires e.street != Preflop && Lower(e.handClass) == "royal flush"
    ensures var rec := Recommend(e, position, stackBb, potBb, players);
      rec.title == MadeHandOrDraw(e.street) && rec.action == BetHalfToTwoThirdsOrCall
    ensures var rec := RecommendCorrected(e, position, stackBb, potBb, players);
      rec.title == Monster(e.street) && rec.action == BigValueBetOrRaise
  {
    RoyalFlushName(e);
  }

  /** After the flop a strong hand is a made hand or good draw: bet half to two thirds of the pot, or call. */
  lemma StrongPostflop(e: HandEvaluation, position: string, stackBb: real, potBb: real, players: int)
    requires e.street != Preflop && ClassifyAsWritten(e) == Strong
    ensures var rec := Recommend(e, position, stackBb, potBb, players);
      rec.title == MadeHandOrDraw(e.street) && rec.action == BetHalfToTwoThirdsOrCall
  {
  }

  /** After the flop a weak hand is air: check/fold unless there is a clear bluff spot. */
  lemma WeakPostflop(e: HandEvaluation, position: string, stackBb: real, potBb: real, players: int)
    requires e.street != Preflop && ClassifyAsWritten(e) == Weak
    ensures var rec := Recommend(e, position, stackBb, potBb, players);
      rec.title == WeakHand(e.street) && rec.action == CheckFoldUnlessBluff && rec.explanation == AirNote
  {
  }

  /** Before the flop a premium hand is 3-bet or 4-bet for value. */
  lemma PremiumBeforeTheFlop(e: HandEvaluation, position: string, stackBb: real, potBb: real, players: int)
    requires e.street == Preflop && ClassifyAsWritten(e) == Premium
    ensures var rec := Recommend(e, position, stackBb, potBb, players);
      rec.title == PremiumPreflop && rec.action == ThreeBetFourBetValue
  {
  }

  /** Before the flop a strong hand is open-raised, or called against a 3-bet. */
  lemma StrongBeforeTheFlop(e: HandEvaluation, position: string, stackBb: real, potBb: real, players: int)
    requires e.street == Preflop && ClassifyAsWritten(e) == Strong
    ensures var rec := Recommend(e, position, stackBb, potBb, players);
      rec.title == StrongPreflop && rec.action == OpenRaiseOrCall
  {
  }

  /** Before the flop a medium hand is a borderline hand: open-raised late, folded early. */
  lemma MediumBeforeTheFlop(e: HandEvaluation, position: string, stackBb: real, potBb: real, players: int)
    requires e.street == Preflop && ClassifyAsWritten(e) == Medium
    ensures var rec := Recommend(e, position, stackBb, potBb, players);
      rec.title == BorderlinePreflop && rec.action == OpenRaiseLateOrFoldEarly
  {
  }
}
