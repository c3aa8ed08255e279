/**
 * The strength classifier `classify_strength`: the hand-class label and the
 * percentile rank of an evaluation give one of four tiers, the first
 * matching rule winning.
 */
module Strength {
  import opened Text
  import opened Streets

  /**
   * `HandEvaluation`, the ranking library's verdict on a hand: its class
   * label ("Full House", "Pair", ...), the score (1 best), the percentile
   * rank (0.0 best, 1.0 worst) and a description.
   */
  datatype HandEvaluation = HandEvaluation(
    street: Street, handClass: string, score: int, pctRank: real, description: string)

  /** The tiers "premium", "stark", "mittel" and "schwach". */
  datatype Tier = Premium | Strong | Medium | Weak

  /** Tiers ordered from weak (0) to premium (3). */
  function TierRank(t: Tier): nat {
    match t
    case Weak => 0
    case Medium => 1
    case Strong => 2
    case Premium => 3
  }

  /** The premium rule as the source writes it: "straight flush", "four of a kind" or "full house". */
  predicate SourcePremiumRule(name: string) {
    Contains("straight flush", name) || Contains("four of a kind", name) || Contains("full house", name)
  }

  /** The premium rule with "royal flush" added (see `Classify`). */
  predicate PremiumRule(name: string) {
    Contains("royal flush", name) || SourcePremiumRule(name)
  }

  /** The strong rule: "flush", "straight" or "three of a kind". */
  predicate StrongRule(name: string) {
    Contains("flush", name) || Contains("straight", name) || Contains("three of a kind", name)
  }

  /** The medium rule: "two pair" or "pair". */
  predicate MediumRule(name: string) {
    Contains("two pair", name) || Contains("pair", name)
  }

  /**
   * The rules in priority order, given whether the premium rule matched: the
   * first rule that matches decides, and a label matching none is weak only
   * above the percentile rank 0.7.
   */
  function TierOf(premium: bool, name: string, pct: real): (t: Tier)
    ensures t == Premium <==> premium
    ensures t == Strong <==> !premium && StrongRule(name)
    ensures t == Weak <==> !premium && !StrongRule(name) && !MediumRule(name) && pct > 0.7
  {
    if premium then Premium
    else if StrongRule(name) then Strong
    else if MediumRule(name) then Medium
    else if pct > 0.7 then Weak
    else Medium
  }

  /**
   * `classify_strength` as written: premium exactly for the three premium
   * keys, strong for a strong key otherwise, weak only when no key matches
   * and the percentile rank is above 0.7. A "Royal Flush" label matches only
   * "flush" and lands in `Strong`. `Advice.Recommend` uses this one.
   */
  function ClassifyAsWritten(e: HandEvaluation): (t: Tier)
    ensures t == Premium <==> SourcePremiumRule(Lower(e.handClass))
    ensures t == Strong <==> !SourcePremiumRule(Lower(e.handClass)) && StrongRule(Lower(e.handClass))
    ensures t == Weak <==>
      (!SourcePremiumRule(Lower(e.handClass)) && !StrongRule(Lower(e.handClass))
       && !MediumRule(Lower(e.handClass)) && e.pctRank > 0.7)
  {
    var name := Lower(e.handClass);
    TierOf(SourcePremiumRule(name), name, e.pctRank)
  }

  /**
   * `classify_strength` with the royal flush, the best hand class of the
   * ranking library, counted as premium. It differs from the source's
   * classifier only by making a label containing "royal flush" premium.
   * `Advice.RecommendCorrected` uses this one.
   */
  function Classify(e: HandEvaluation): (t: Tier)
    ensures t == Premium <==> PremiumRule(Lower(e.handClass))
    ensures t != ClassifyAsWritten(e) ==> t == Premium && Contains("royal flush", Lower(e.handClass))
  {
    var name := Lower(e.handClass);
    TierOf(PremiumRule(name), name, e.pctRank)
  }

  /**
   * The rules are tried in order: a label containing "straight flush" also
   * matches the strong rule through "flush", and is premium all the same.
   */
  lemma StraightFlushBeatsFlushRule(e: HandEvaluation)
    requires Contains("straight flush", Lower(e.handClass))
    ensures StrongRule(Lower(e.handClass))
    ensures Classify(e) == Premium && ClassifyAsWritten(e) == Premium
  {
    StraightFlushKeys(Lower(e.handClass));
  }

  /** A name containing "straight flush" matches the strong rule too. */
  lemma StraightFlushKeys(name: string)
    requires Contains("straight flush", name)
    ensures StrongRule(name)
  {
    FlushInStraightFlush();
    ContainsTransitive("flush", "straight flush", name);
  }

  lemma FlushInStraightFlush()
    ensures Contains("flush", "straight flush")
  {
    assert "straight flush"[9..14] == "flush";
    ContainsAt("flush", "straight flush", 9);
  }

  /**
   * A label matching no rule (a high card) is weak exactly when its
   * percentile rank is above 0.7, and medium otherwise.
   */
  lemma HighCardTier(e: HandEvaluation)
    requires var name := Lower(e.handClass);
      !PremiumRule(name) && !StrongRule(name) && !MediumRule(name)
    ensures Classify(e) == (if e.pctRank > 0.7 then Weak else Medium)
    ensures ClassifyAsWritten(e) == Classify(e)
  {
  }

  /** For a fixed label, a worse percentile rank never gives a better tier. */
  lemma TierWorsensWithPercentile(e1: HandEvaluation, e2: HandEvaluation)
    requires e1.handClass == e2.handClass && e1.pctRank <= e2.pctRank
    ensures TierRank(Classify(e2)) <= TierRank(Classify(e1))
    ensures TierRank(ClassifyAsWritten(e2)) <= TierRank(ClassifyAsWritten(e1))
  {
  }

  /** The correction changes nothing for a label that does not mention a royal flush. */
  lemma CorrectionOnlyAffectsRoyalFlush(e: HandEvaluation)
    requires !Contains("royal flush", Lower(e.handClass))
    ensures Classify(e) == ClassifyAsWritten(e)
  {
  }

  /**
   * The class labels of the ranking library ("Royal Flush", ..., "High
   * Card"), best first, as the classifier sees them: lower-cased.
   */
  const HandClassNames: seq<string> := [
    "royal flush", "straight flush", "four of a kind", "full house", "flush",
    "straight", "three of a kind", "two pair", "pair", "high card"]

  /**
   * The tier each class label is meant to get: the four best classes are
   * premium, the next three strong, the pairs medium, and a high card
   * depends on its percentile rank.
   */
  function IntendedTier(i: nat, pct: real): Tier {
    if i <= 3 then Premium
    else if i <= 6 then Strong
    else if i <= 8 then Medium
    else if pct > 0.7 then Weak
    else Medium
  }

  lemma RoyalFlushName(e: HandEvaluation)
    requires Lower(e.handClass) == "royal flush"
    ensures Classify(e) == Premium
    ensures ClassifyAsWritten(e) == Strong
  {
    ClassifyByName(e, "royal flush");
    ContainsSelf("royal flush");
    StraightFlushNotInRoyalFlush();
    FourOfAKindNotInRoyalFlush();
    FullHouseNotInRoyalFlush();
    FlushInRoyalFlush();
  }

  lemma StraightFlushName(e: HandEvaluation)
    requires Lower(e.handClass) == "straight flush"
    ensures Classify(e) == Premium && ClassifyAsWritten(e) == Premium
  {
    ClassifyByName(e, "straight flush");
    ContainsSelf("straight flush");
  }

  lemma FourOfAKindName(e: HandEvaluation)
    requires Lower(e.handClass) == "four of a kind"
    ensures Classify(e) == Premium && ClassifyAsWritten(e) == Premium
  {
    ClassifyByName(e, "four of a kind");
    ContainsSelf("four of a kind");
  }

  lemma FullHouseName(e: HandEvaluation)
    requires Lower(e.handClass) == "full house"
    ensures Classify(e) == Premium && ClassifyAsWritten(e) == Premium
  {
    ClassifyByName(e, "full house");
    ContainsSelf("full house");
  }

  lemma FlushName(e: HandEvaluation)
    requires Lower(e.handClass) == "flush"
    ensures Classify(e) == Strong && ClassifyAsWritten(e) == Strong
  {
    ClassifyByName(e, "flush");
    NoPremiumKeyInShortName("flush");
    ContainsSelf("flush");
  }

  lemma StraightName(e: HandEvaluation)
    requires Lower(e.handClass) == "straight"
    ensures Classify(e) == Strong && ClassifyAsWritten(e) == Strong
  {
    ClassifyByName(e, "straight");
    NoPremiumKeyInShortName("straight");
    ContainsSelf("straight");
  }

  lemma ThreeOfAKindName(e: HandEvaluation)
    requires Lower(e.handClass) == "three of a kind"
    ensures Classify(e) == Strong && ClassifyAsWritten(e) == Strong
  {
    ClassifyByName(e, "three of a kind");
    RoyalFlushNotInThreeOfAKind();
    StraightFlushNotInThreeOfAKind();
    FourOfAKindNotInThreeOfAKind();
    FullHouseNotInThreeOfAKind();
    ContainsSelf("three of a kind");
  }

  lemma TwoPairName(e: HandEvaluation)
    requires Lower(e.handClass) == "two pair"
    ensures Classify(e) == Medium && ClassifyAsWritten(e) == Medium
  {
    ClassifyByName(e, "two pair");
    NoPremiumKeyInShortName("two pair");
    FlushNotInTwoPair();
    StraightNotInTwoPair();
    NotInShorter("three of a kind", "two pair");
    ContainsSelf("two pair");
  }

  lemma PairName(e: HandEvaluation)
    requires Lower(e.handClass) == "pair"
    ensures Classify(e) == Medium && ClassifyAsWritten(e) == Medium
  {
    ClassifyByName(e, "pair");
    NoPremiumKeyInShortName("pair");
    NotInShorter("flush", "pair");
    NotInShorter("straight", "pair");
    NotInShorter("three of a kind", "pair");
    ContainsSelf("pair");
  }

  lemma HighCardName(e: HandEvaluation)
    requires Lower(e.handClass) == "high card"
    ensures Classify(e) == (if e.pctRank > 0.7 then Weak else Medium)
    ensures ClassifyAsWritten(e) == Classify(e)
  {
    ClassifyByName(e, "high card");
    NoPremiumKeyInShortName("high card");
    FlushNotInHighCard();
    StraightNotInHighCard();
    NotInShorter("three of a kind", "high card");
    TwoPairNotInHighCard();
    PairNotInHighCard();
  }

  lemma FlushInRoyalFlush()
    ensures Contains("flush", "royal flush")
  {
    assert "royal flush"[6..11] == "flush";
    ContainsAt("flush", "royal flush", 6);
  }

  lemma StraightFlushNotInRoyalFlush()
    ensures !Contains("straight flush", "royal flush")
  {
    AbsentFirstPair("straight flush", "royal flush");
  }

  lemma FourOfAKindNotInRoyalFlush()
    ensures !Contains("four of a kind", "royal flush")
  {
    AbsentFirstPair("four of a kind", "royal flush");
  }

  lemma FullHouseNotInRoyalFlush()
    ensures !Contains("full house", "royal flush")
  {
    AbsentFirstPair("full house", "royal flush");
  }

  lemma RoyalFlushNotInThreeOfAKind()
    ensures !Contains("royal flush", "three of a kind")
  {
    AbsentFirstPair("royal flush", "three of a kind");
  }

  lemma StraightFlushNotInThreeOfAKind()
    ensures !Contains("straight flush", "three of a kind")
  {
    AbsentFirstChar("straight flush", "three of a kind");
  }

  lemma FourOfAKindNotInThreeOfAKind()
    ensures !Contains("four of a kind", "three of a kind")
  {
    AbsentFirstPair("four of a kind", "three of a kind");
  }

  lemma FullHouseNotInThreeOfAKind()
    ensures !Contains("full house", "three of a kind")
  {
    AbsentFirstPair("full house", "three of a kind");
  }

  lemma FlushNotInTwoPair()
    ensures !Contains("flush", "two pair")
  {
    AbsentFirstChar("flush", "two pair");
  }

  lemma StraightNotInTwoPair()
    ensures !Contains("straight", "two pair")
  {
    AbsentFirstChar("straight", "two pair");
  }

  lemma FlushNotInHighCard()
    ensures !Contains("flush", "high card")
  {
    AbsentFirstChar("flush", "high card");
  }

  lemma StraightNotInHighCard()
    ensures !Contains("straight", "high card")
  {
    AbsentFirstChar("straight", "high card");
  }

  lemma TwoPairNotInHighCard()
    ensures !Contains("two pair", "high card")
  {
    AbsentFirstChar("two pair", "high card");
  }

  lemma PairNotInHighCard()
    ensures !Contains("pair", "high card")
  {
    AbsentFirstChar("pair", "high card");
  }

  /** Every premium key has at least ten characters. */
  lemma NoPremiumKeyInShortName(name: string)
    requires |name| < 10
    ensures !PremiumRule(name)
  {
    NotInShorter("royal flush", name);
    NotInShorter("straight flush", name);
    NotInShorter("four of a kind", name);
    NotInShorter("full house", name);
  }

  /** Every class label of the ranking library gets its intended tier. */
  lemma ClassifyByHandClass(e: HandEvaluation, i: nat)
    requires i < |HandClassNames| && Lower(e.handClass) == HandClassNames[i]
    ensures Classify(e) == IntendedTier(i, e.pctRank)
  {
    match i
    case 0 => assert HandClassNames[0] == "royal flush"; RoyalFlushName(e);
    case 1 => assert HandClassNames[1] == "straight flush"; StraightFlushName(e);
    case 2 => assert HandClassNames[2] == "four of a kind"; FourOfAKindName(e);
    case 3 => assert HandClassNames[3] == "full house"; FullHouseName(e);
    case 4 => assert HandClassNames[4] == "flush"; FlushName(e);
    case 5 => assert HandClassNames[5] == "straight"; StraightName(e);
    case 6 => assert HandClassNames[6] == "three of a kind"; ThreeOfAKindName(e);
    case 7 => assert HandClassNames[7] == "two pair"; TwoPairName(e);
    case 8 => assert HandClassNames[8] == "pair"; PairName(e);
    case 9 => assert HandClassNames[9] == "high card"; HighCardName(e);
  }

  /**
   * The tier each class label gets as written: the intended one, except
   * that the royal flush is only strong.
   */
  function AsWrittenTier(i: nat, pct: real): Tier {
    if i == 0 then Strong else IntendedTier(i, pct)
  }

  /** As written, every class label but the royal flush gets its intended tier, and the royal flush is strong. */
  lemma ClassifyAsWrittenByHandClass(e: HandEvaluation, i: nat)
    requires i < |HandClassNames| && Lower(e.handClass) == HandClassNames[i]
    ensures ClassifyAsWritten(e) == AsWrittenTier(i, e.pctRank)
  {
    match i
    case 0 => assert HandClassNames[0] == "royal flush"; RoyalFlushName(e);
    case 1 => assert HandClassNames[1] == "straight flush"; StraightFlushName(e);
    case 2 => assert HandClassNames[2] == "four of a kind"; FourOfAKindName(e);
    case 3 => assert HandClassNames[3] == "full house"; FullHouseName(e);
    case 4 => assert HandClassNames[4] == "flush"; FlushName(e);
    case 5 => assert HandClassNames[5] == "straight"; StraightName(e);
    case 6 => assert HandClassNames[6] == "three of a kind"; ThreeOfAKindName(e);
    case 7 => assert HandClassNames[7] == "two pair"; TwoPairName(e);
    case 8 => assert HandClassNames[8] == "pair"; PairName(e);
    case 9 => assert HandClassNames[9] == "high card"; HighCardName(e);
  }

  lemma ClassifyByName(e: HandEvaluation, name: string)
    requires Lower(e.handClass) == name
    ensures Classify(e) == TierOf(PremiumRule(name), name, e.pctRank)
    ensures ClassifyAsWritten(e) == TierOf(SourcePremiumRule(name), name, e.pctRank)
  {
  }

  /** A better class label never gets a worse tier, whatever the two percentile ranks. */
  lemma TierFollowsHandClass(e1: HandEvaluation, i: nat, e2: HandEvaluation, j: nat)
    requires i < j < |HandClassNames|
    requires Lower(e1.handClass) == HandClassNames[i] && Lower(e2.handClass) == HandClassNames[j]
    ensures TierRank(Classify(e2)) <= TierRank(Classify(e1))
  {
    ClassifyByHandClass(e1, i);
    ClassifyByHandClass(e2, j);
    IntendedTierMonotone(i, e1.pctRank, j, e2.pctRank);
  }

  lemma IntendedTierMonotone(i: nat, p: real, j: nat, q: real)
    requires i < j < |HandClassNames|
    ensures TierRank(IntendedTier(j, q)) <= TierRank(IntendedTier(i, p))
  {
  }

  /**
   * As written, the royal flush, the best class, is only strong while the
   * straight flush below it is premium.
   */
  lemma RoyalFlushBelowStraightFlushAsWritten(e1: HandEvaluation, e2: HandEvaluation)
    requires Lower(e1.handClass) == "royal flush" && Lower(e2.handClass) == "straight flush"
    ensures ClassifyAsWritten(e1) == Strong && ClassifyAsWritten(e2) == Premium
    ensures TierRank(ClassifyAsWritten(e1)) < TierRank(ClassifyAsWritten(e2))
  {
    RoyalFlushName(e1);
    StraightFlushName(e2);
  }
}
