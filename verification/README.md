# Hold'em advice core in Dafny

This project models the decision core of `streamlit_app.py`, a command-line
helper that reads a Texas Hold'em situation and prints a label, an action
and an explanation (in German):

- the card-token normaliser `normalize_card_str`: it strips and lower-cases
  the token, rewrites German words (`ass`, `herz`, `kreuz`, `karo`, `pik`)
  by string replacement in a fixed order, then accepts a two-character
  rank+suit token or a `10`+suit token and rejects everything else;
- the street detector `detect_street` (board size 0/3/4/5);
- the seat factor `position_factor` over `POSITION_ORDER`;
- the tier classifier `classify_strength` (premium / stark / mittel / schwach,
  here `Premium`, `Strong`, `Medium`, `Weak`);
- the rule `recommend_action`, which picks the pre-flop advice by tier alone
  and the post-flop advice by tier plus an equity estimate `1 - pct_rank`
  compared with a required equity `0.35 * multiway / position`.
  `Advice.Recommend` classifies exactly as the source does;
  `Advice.RecommendCorrected` is the same rule over the corrected classifier
  of the finding below.

Modules: `Wrappers` (Option, Result), `Text` (the Python string built-ins
the source relies on: `strip`, `lower`, `upper`, `in`, `replace`), `Cards`,
`Streets`, `Positions`, `Strength`, `Advice`. The two dataclasses
`HandEvaluation` and `Recommendation` are datatypes; a raised `ValueError`
is an `Err` result. `normalize_card_str` is the method
`Cards.NormalizeCardStr`, whose replacement loop is the method
`Cards.RewriteAll`; the method is proved equal to the function
`Cards.Normalize`, about which the properties are proved.

Two observations about the seat factor, both as the code computes it: the
big blind gets 0.9 + 0.03 * 7 - 0.05 = 1.06, more than the button's 1.05,
so the factor ranges over [0.9, 1.06]; and the small blind gets 1.03.
The model follows the code here.

## Model

| member | source | states |
|---|---|---|
| Text.Strip | streamlit_app.py:54 | `str.strip()` with Python's whitespace set: the result has no whitespace at either end, is never longer, and a token without surrounding whitespace is unchanged |
| Text.Lower | streamlit_app.py:54 | `lower()`: same length, each character lower-cased |
| Text.Upper | streamlit_app.py:164 | `upper()`: same length, each character upper-cased |
| Text.UpperAbsorbsCase | streamlit_app.py:164 | upper-casing after lower-casing or upper-casing gives the same as upper-casing once |
| Text.ContainsAt | streamlit_app.py:182 | the substring test `k in s` holds whenever `k` occurs at some index of `s` |
| Text.ContainsWitness | streamlit_app.py:182 | conversely, `k in s` yields an index where `k` occurs |
| Text.ContainsTransitive | streamlit_app.py:182-186 | a substring of a substring of a name is a substring of the name (so a rule that matches "flush" also matches every name containing "straight flush") |
| Text.Replace | streamlit_app.py:66 | `str.replace`: a string without an occurrence of the key is unchanged |
| Text.ReplaceAtHead | streamlit_app.py:66 | an occurrence at the front is replaced and the scan resumes after it (left-to-right, non-overlapping) |
| Text.ReplaceSkipsPrefix | streamlit_app.py:66 | a prefix that cannot start the key is copied unchanged |
| Text.AbsentFirstChar | streamlit_app.py:66 | a key whose first character does not occur in the string does not occur in it |
| Text.AbsentFirstPair | streamlit_app.py:66 | a key whose first two characters never occur side by side does not occur |
| Text.NotInShorter | streamlit_app.py:182 | a key longer than the string does not occur in it |
| Text.ContainsSelf | streamlit_app.py:182 | every string occurs in itself |
| Text.NotAtHeadOfEqualLength | streamlit_app.py:66 | a key as long as the string, differing in its first character, does not occur in it |
| Text.StripIsSlice | streamlit_app.py:54 | `str.strip()` removes only whitespace: the result is the slice of the token starting at the returned offset, and every character before and after that slice is whitespace |
| Text.PrefixOfSuffix | streamlit_app.py:54 | a prefix of `s[i..]` followed only by whitespace is a slice of `s` followed only by whitespace |
| Text.StartsWithConcat | streamlit_app.py:101 | `s.startswith(p)` holds iff `s` is `p` followed by some string |
| Text.LowerKeepsLower | streamlit_app.py:54 | a string without upper-case letters is its own lower case |
| Cards.ApplyReplacements | streamlit_app.py:57-66 | applying the replacement table in order leaves a string unchanged when no key occurs in it |
| Cards.PrepareWithoutGermanWords | streamlit_app.py:54-66 | a token in which, once stripped and lower-cased, none of the five German words occurs comes out of strip, lower and the rewrites just stripped and lower-cased |
| Cards.ApplyStep | streamlit_app.py:65-66 | one more pass of the loop applies the next key's replacement to the string so far |
| Cards.NoRewriteApplies | streamlit_app.py:57-66 | a string containing none of the five German words is not rewritten |
| Cards.ParsePrepared | streamlit_app.py:93-108 | every accepted prepared token yields a rank in 2-9,T,J,Q,K,A followed by a suit in c,d,h,s |
| Cards.Normalize | streamlit_app.py:49-108 | every `Ok` is a canonical card (rank then suit); every error is `InvalidCard` carrying the original token |
| Cards.RewriteAll | streamlit_app.py:65-66 | the loop over the replacement table computes the in-order fold `ApplyReplacements` (loop invariant: the string equals the fold over the replacements done so far) |
| Cards.NormalizeCardStr | streamlit_app.py:49-108 | `normalize_card_str` with its statements in order (strip and lower, the rewrite loop, the two parse branches and the final raise) computes exactly `Normalize` |
| Cards.RankMapKeys | streamlit_app.py:68-83 | the one-character rank keys are exactly 2-9,t,j,q,k,a and each maps to its upper-case rank |
| Cards.ParseAcceptedLanguage | streamlit_app.py:93-108 | a prepared token of length 2 is accepted iff its first character is a rank key and its second a suit; of length 3 iff it is "10" plus a suit (giving T); any other length is rejected |
| Cards.ShortStringsNotRewritten | streamlit_app.py:65-66 | no replacement touches a string of at most two characters |
| Cards.StripTenForm | streamlit_app.py:54 | stripping "10" plus one character drops that character exactly when it is whitespace |
| Cards.CanonicalRankRoundTrip | streamlit_app.py:68-83 | a canonical rank survives strip and lower-casing and maps back to itself |
| Cards.PrepareShortToken | streamlit_app.py:54-66 | a two-character token without whitespace is only lower-cased before parsing |
| Cards.CanonicalIsFixedPoint | streamlit_app.py:49-108 | a canonical card normalises to itself |
| Cards.NormalizeIdempotent | streamlit_app.py:49-108 | normalising an accepted result again gives the same result |
| Cards.TenFormNotRewritten | streamlit_app.py:65-66 | no replacement touches a three-character string starting with '1' |
| Cards.PrepareTenForm | streamlit_app.py:54-66 | "10" plus one character is only stripped and lower-cased before parsing |
| Cards.TenPrefix | streamlit_app.py:101-106 | "10"+x gives T plus the lower-cased suit when x is a suit in either case, and an error otherwise |
| Cards.TenPrefixSpace | streamlit_app.py:93-108 | "10" plus whitespace strips to "10", which is rejected |
| Cards.TenPrefixOther | streamlit_app.py:101-106 | "10" plus a non-space character is accepted iff that character lower-cases to a suit, giving T and the suit |
| Cards.TenAloneRejected | streamlit_app.py:93-97 | a bare "10" is read as rank '1', which is no rank, and rejected |
| Cards.RewriteOrder | streamlit_app.py:57-66 | the table is applied as `ass`, `herz`, `kreuz`, `karo`, `pik`, in that order (the duplicated `herz` key counts once) |
| Cards.LastRewritesIdle | streamlit_app.py:61-63 | `kreuz`, `karo` and `pik` cannot change a string of at most three characters without a 'p' |
| Cards.RewritesJoined | streamlit_app.py:57-66 | "assherz" is rewritten to "ah" |
| Cards.AssInAssherz | streamlit_app.py:58-66 | "ass" in "assherz" is replaced, giving "aherz" |
| Cards.HerzInAherz | streamlit_app.py:59-66 | "herz" in "aherz" is replaced, giving "ah" |
| Cards.GermanWordsJoined | streamlit_app.py:49-108 | "assherz" normalises to "Ah" |
| Cards.ParseAh | streamlit_app.py:93-98 | "ah" is accepted as "Ah" |
| Cards.RewritesSpaced | streamlit_app.py:57-66 | the whole table turns "ass herz" into "a h", the blank kept |
| Cards.AssInSpacedWords | streamlit_app.py:58-66 | "ass herz" becomes "a herz" |
| Cards.HerzInSpacedWords | streamlit_app.py:59-66 | "a herz" becomes "a h" |
| Cards.GermanWordsSpaced | streamlit_app.py:49-108 | "ass herz" is rejected: the inner space survives and the length is 3 |
| Cards.ParseSpacedRejected | streamlit_app.py:101-108 | "a h" has length 3 without the "10" prefix and is rejected |
| Cards.RewritesSpacedSuitFirst | streamlit_app.py:57-66 | the rewrites turn "herz ass" into "h a" |
| Cards.AssInSpacedSuitFirst | streamlit_app.py:65-66 | "herz ass".replace("ass", "a") is "herz a" |
| Cards.HerzInSpacedSuitFirst | streamlit_app.py:65-66 | "herz a".replace("herz", "h") is "h a" |
| Cards.GermanWordsSpacedSuitFirst | streamlit_app.py:49-108 | "herz ass" is rejected: the inner space survives and the length is 3 |
| Cards.ParseSpacedSuitFirstRejected | streamlit_app.py:93-108 | "h a" has length 3 without the "10" prefix and is rejected |
| Cards.RewritesSuitFirst | streamlit_app.py:57-66 | "herzass" is rewritten to "ha" |
| Cards.AssInHerzass | streamlit_app.py:58-66 | "herzass" becomes "herza" |
| Cards.HerzInHerza | streamlit_app.py:59-66 | "herza" becomes "ha" |
| Cards.GermanWordsSuitFirst | streamlit_app.py:49-108 | "herzass" is rejected: the suit comes first, so 'h' is read as a rank |
| Cards.ParseSuitFirstRejected | streamlit_app.py:93-97 | "ha" is rejected, 'h' being no rank |
| Cards.TenTokenExample | streamlit_app.py:101-106 | "10H" normalises to "Th" |
| Cards.UpperCaseTokenExample | streamlit_app.py:93-98 | "AS" normalises to "As" |
| Cards.UnknownTokenExample | streamlit_app.py:93-97 | "Zx" is rejected |
| Streets.DetectStreet | streamlit_app.py:116-125 | a board size is accepted iff it is 0, 3, 4 or 5, and the street then has that many board cards; any other size is an `InvalidBoard` error |
| Streets.DetectStreetRoundTrip | streamlit_app.py:116-125 | each street is detected back from its own board size |
| Positions.IndexOf | streamlit_app.py:167 | `list.index`: the first index holding the value |
| Positions.PositionFactor | streamlit_app.py:160-172 | the factor lies in [0.9, 1.06], and a seat whose upper-cased name is not in `POSITION_ORDER` gets 1.0 |
| Positions.ListedSeatFactor | streamlit_app.py:164-172 | the seat at index i gets 0.9 + 0.03 * i, minus 0.05 for SB and BB |
| Positions.ListedSeatIndex | streamlit_app.py:167 | the seats are distinct, so `index` finds each at its own place |
| Positions.IndexOfDistinct | streamlit_app.py:167 | in a list without repetitions `index` returns each element's own place |
| Positions.SeatsDistinct | streamlit_app.py:27 | `POSITION_ORDER` has no repetitions |
| Positions.UpperKeepsUpper | streamlit_app.py:164 | every listed seat is unchanged by upper-casing |
| Positions.BlindSeats | streamlit_app.py:170 | the seats SB and BB are exactly the last two |
| Positions.FactorIncreasesTowardButton | streamlit_app.py:168-169 | from UTG to BTN the factor strictly increases |
| Positions.BlindFactors | streamlit_app.py:168-171 | SB gets 1.03 and BB 1.06: the small blind sits below the button and the big blind above it |
| Positions.PositionFactorCaseInsensitive | streamlit_app.py:164 | the factor does not depend on the case of the seat name |
| Strength.TierOf | streamlit_app.py:182-192 | the first matching rule decides: premium iff the premium rule matched, strong iff not premium and a strong key occurs, weak iff no key occurs and pct > 0.7, medium otherwise |
| Strength.ClassifyAsWritten | streamlit_app.py:175-192 | `classify_strength` as written: premium iff "straight flush", "four of a kind" or "full house" occurs in the lower-cased label; strong iff none of those but "flush", "straight" or "three of a kind" occurs; weak iff no key at all occurs and pct > 0.7 |
| Strength.Classify | streamlit_app.py:175-192 | the corrected classifier: premium iff the premium rule with "royal flush" added matches, and it differs from `ClassifyAsWritten` only by making a label containing "royal flush" premium |
| Strength.ClassifyAsWrittenByHandClass | streamlit_app.py:175-192 | as written, each of the ten hand-class names gets its intended tier except the royal flush, which is strong |
| Strength.StraightFlushBeatsFlushRule | streamlit_app.py:182-185 | a name containing "straight flush" also satisfies the strong rule, yet it is classified premium because the first matching rule wins |
| Strength.StraightFlushKeys | streamlit_app.py:184 | a name containing "straight flush" contains "flush" |
| Strength.FlushInStraightFlush | streamlit_app.py:182-184 | "flush" occurs in "straight flush" |
| Strength.HighCardTier | streamlit_app.py:189-192 | when no rule matches, the hand is weak exactly when its percentile rank exceeds 0.7, and medium otherwise, under both classifiers |
| Strength.TierWorsensWithPercentile | streamlit_app.py:175-192 | for the same hand class a worse percentile rank never gives a better tier, under both classifiers |
| Strength.CorrectionOnlyAffectsRoyalFlush | streamlit_app.py:182-192 | the corrected classifier agrees with the source's on every name not containing "royal flush" |
| Strength.ClassifyByHandClass | streamlit_app.py:175-192 | under the corrected classifier `Classify` (not the source's, see Findings): for each of the ten hand-class names (royal flush down to high card) the tier is premium for the best four, strong for the next three, medium for two pair and pair, and for high card weak iff pct > 0.7 |
| Strength.TierFollowsHandClass | streamlit_app.py:175-192 | under the corrected classifier `Classify` (not the source's, see Findings): a better hand class never gets a worse tier |
| Strength.IntendedTierMonotone | streamlit_app.py:175-192 | the intended (corrected) tier by hand-class index is monotone |
| Strength.RoyalFlushBelowStraightFlushAsWritten | streamlit_app.py:182-185 | as written, "Royal Flush" is only strong while "Straight Flush" is premium |
| Strength.ClassifyByName | streamlit_app.py:179-192 | the tier is decided by the lower-cased label and the percentile rank alone |
| Strength.RoyalFlushName | streamlit_app.py:182-185 | a label lower-casing to "royal flush" is premium under the corrected rule and strong under the source's |
| Strength.StraightFlushName | streamlit_app.py:182-183 | "straight flush" is premium under both classifiers |
| Strength.FourOfAKindName | streamlit_app.py:182-183 | "four of a kind" is premium under both classifiers |
| Strength.FullHouseName | streamlit_app.py:182-183 | "full house" is premium under both classifiers |
| Strength.FlushName | streamlit_app.py:182-185 | "flush" is strong under both classifiers |
| Strength.StraightName | streamlit_app.py:182-185 | "straight" is strong under both classifiers |
| Strength.ThreeOfAKindName | streamlit_app.py:182-185 | "three of a kind" is strong under both classifiers |
| Strength.TwoPairName | streamlit_app.py:182-188 | "two pair" is medium under both classifiers |
| Strength.PairName | streamlit_app.py:182-188 | "pair" is medium under both classifiers |
| Strength.HighCardName | streamlit_app.py:182-192 | "high card" matches no rule: weak iff its percentile rank exceeds 0.7, medium otherwise, under both classifiers |
| Strength.NoPremiumKeyInShortName | streamlit_app.py:182 | a label shorter than ten characters never matches the premium rule |
| Advice.MultiwayFactor | streamlit_app.py:212 | the multiway factor is at least 1 and exactly 1 with two players or fewer |
| Advice.RequiredEquity | streamlit_app.py:213 | the required equity is positive, and times the position factor it gives 0.35 times the multiway factor |
| Advice.EdgeBand | streamlit_app.py:246-257 | the band is at least marginal iff equity > required - 0.05, at least a slight edge iff equity > required + 0.05, and a large edge iff equity > required + 0.15 |
| Advice.PreflopAdvice | streamlit_app.py:225-242 | a pre-flop label; the action forbids folding exactly for a premium hand; per tier: premium gets "PREMIUM PRE-FLOP" and 3-bet/4-bet for value, strong "Starke Hand" and open-raise or call, medium "Grenzhand" and open-raise late or fold early, weak "Trash Hand" and "Fold." |
| Advice.PostflopAdvice | streamlit_app.py:259-294 | a post-flop label naming the street; the action forbids folding exactly for a premium hand; per tier: premium gets the monster label and a big value bet or raise, strong the made-hand label and bet 1/2-2/3 pot or call, medium the medium-hand label and check/call iff the equity reaches the required equity (check/fold otherwise), weak the weak-hand label and check/fold unless bluffing |
| Advice.AdviseTier | streamlit_app.py:208-296 | once the tier is known: pre-flop labels exactly on the pre-flop street, otherwise the label names the street; the action forbids folding exactly for the premium tier; the weak tier is always advised to fold in some form |
| Advice.Recommend | streamlit_app.py:195-296 | `recommend_action` with the source's classifier: pre-flop labels exactly on the pre-flop street, otherwise the label names the street; the action forbids folding exactly when "straight flush", "four of a kind" or "full house" occurs in the lower-cased label; a weak hand is always advised to fold in some form |
| Advice.RecommendCorrected | streamlit_app.py:195-296 | the same rule over the corrected classifier: folding is forbidden exactly when the premium rule with "royal flush" matches, and the recommendation equals `Recommend`'s for every label not containing "royal flush" |
| Advice.RoyalFlushAfterTheFlop | streamlit_app.py:259-269 | after the flop a "Royal Flush" is, as written, advised like a strong made hand (bet 1/2-2/3 pot or call), and as a monster hand (big value bet or raise) under the corrected rule |
| Advice.PreflopDependsOnlyOnTier | streamlit_app.py:225-242 | before the flop two hands of the same tier (as the source classifies) get the same recommendation, whatever the seat, stack, pot, players or percentile |
| Advice.StackAndPotIgnored | streamlit_app.py:195-296 | `stack_bb` and `pot_bb` never change the recommendation |
| Advice.MediumContinuesIffEnoughEquity | streamlit_app.py:274-287 | after the flop a medium hand gets the medium-hand label and is told to check/call iff 1 - pct reaches the required equity, and to check/fold otherwise |
| Advice.PostflopExplanationEdge | streamlit_app.py:246-273 | after the flop a premium or strong hand's explanation carries its hand class and the edge band of 1 - pct against the required equity |
| Advice.EdgeBandMonotone | streamlit_app.py:246-257 | a higher equity estimate never falls into a worse band |
| Advice.RequiredEquityMonotone | streamlit_app.py:212-213 | more players never lower the required equity, and a higher position factor never raises it |
| Advice.QuotientMonotone | streamlit_app.py:213 | dividing by the same positive factor keeps the order |
| Advice.QuotientAntitone | streamlit_app.py:213 | dividing by a larger positive factor gives a smaller quotient |
| Advice.ButtonRequiredEquity | streamlit_app.py:208-213 | on the button with six players the required equity is 28/75 |
| Advice.ButtonMediumOnTheFlop | streamlit_app.py:274-287 | a medium hand on the flop on the button with six players is check/called iff its percentile rank is at most 47/75 |
| Advice.ButtonPairOnTheFlop | streamlit_app.py:208-287 | on the button with six players a flopped pair is check/called iff its percentile rank is at most 47/75, and check/folded otherwise |
| Advice.FullHouseOnTheFlop | streamlit_app.py:259-266 | a flopped full house is a monster hand: big value bet or raise, whatever the seat, stack, pot or players |
| Advice.PremiumPostflop | streamlit_app.py:259-261 | after the flop a premium hand is a monster hand, bet or raised big |
| Advice.TrashFoldedPreflop | streamlit_app.py:238-242 | before the flop a high card with percentile rank above 0.7 is folded |
| Advice.WeakPreflop | streamlit_app.py:238-242 | before the flop a weak hand is trash and folded |
| Advice.StrongPostflop | streamlit_app.py:267-273 | after the flop a hand the source classifies strong is labelled a made hand or good draw and told to bet 1/2-2/3 pot or call |
| Advice.WeakPostflop | streamlit_app.py:288-294 | after the flop a hand the source classifies weak is labelled weak/air and told to check/fold unless there is a clear bluff spot |
| Advice.PremiumBeforeTheFlop | streamlit_app.py:226-229 | before the flop a hand the source classifies premium is labelled "PREMIUM PRE-FLOP" and 3-bet/4-bet for value |
| Advice.StrongBeforeTheFlop | streamlit_app.py:230-233 | before the flop a hand the source classifies strong is labelled "Starke Hand" and open-raised or called against a 3-bet |
| Advice.MediumBeforeTheFlop | streamlit_app.py:234-237 | before the flop a hand the source classifies medium is labelled "Grenzhand" and open-raised in late position or folded in early position |

## Left out

- `evaluate_hand`, `parse_cards` and the `treys` calls (`Card.new`, `Evaluator`): the hand class, score and percentile come from a foreign library; the model takes a `HandEvaluation` as input. The ten hand-class names are assumed to be `treys`' labels, lower-cased.
- `build_arg_parser`, `main`, argument parsing and printing: I/O.
- Floating point: `position_factor`, `required_equity` and the comparisons use exact real numbers, so IEEE-754 rounding near a threshold is not modelled.
- The explanation texts: an explanation is a datatype naming which text is shown and the values it interpolates (edge band, hand class); the category word of a post-flop text is a function of the edge band and is not stored separately.
- Text.Lower and Text.Upper: only ASCII letters change case; Python's full Unicode case mapping is not modelled.
- The `"10"` key of `rank_map` is never looked up (a two-character token's rank is one character), so the rank map is modelled on single characters.
- `Recommendation.label` is the field `title`, `label` being reserved in Dafny.
- Text.Replace: its own contract states only that a string without the key is returned unchanged; what happens at an occurrence is stated by `Text.ReplaceAtHead` and `Text.ReplaceSkipsPrefix`.
- Cards.Prepare: the function carries no contract of its own (one instantiated at every use makes the literal-string proofs too costly); its no-rewrite identity is stated by `Cards.PrepareWithoutGermanWords`.
- Text.StartsWith: the predicate carries no contract of its own; its meaning (the string is the prefix followed by some string) is stated by `Text.StartsWithConcat`.
- Text.IsSpace, Strength.SourcePremiumRule, Strength.StrongRule, Strength.MediumRule: definitions without contracts (Python's `str.isspace()` set and the three key lists of lines 182, 184 and 186); what they decide is stated by `Text.StripIsSlice`, `Strength.TierOf`, `Strength.ClassifyAsWritten` and the per-name lemmas.
- Text.Contains: the predicate carries no contract of its own; its meaning (some offset holds the key) is stated by `Text.ContainsAt` and `Text.ContainsWitness`.

## Findings

| source | as written | input that shows it | evidently intended | confidence | as-written member | corrected member |
|---|---|---|---|---|---|---|
| streamlit_app.py:182-185 | the premium rule looks for "straight flush", "four of a kind" and "full house"; the name "royal flush" contains none of them but contains "flush", so a royal flush is classified strong | a `HandEvaluation` whose hand class is "Royal Flush" (the label `treys` gives its best rank class) | the best hand class is premium, like a straight flush | medium (depends on the library's label), not executed | Strength.RoyalFlushBelowStraightFlushAsWritten | Strength.TierFollowsHandClass |

`Strength.ClassifyAsWritten` is the classifier as written, and
`Advice.Recommend` uses it, so the model's `recommend_action` advises a
flopped royal flush like a strong made hand (`Advice.RoyalFlushAfterTheFlop`).
`Strength.Classify` adds "royal flush" to the premium rule; the recommendation
built on it is `Advice.RecommendCorrected`, which agrees with `Advice.Recommend`
on every label not containing "royal flush".

The comment at streamlit_app.py:56 names "ass herz" and "herz ass" as German
inputs the rewrites handle, but the code rejects both: the blank between the
words survives, leaving the three-character strings "a h" and "h a"
(`Cards.GermanWordsSpaced`, `Cards.GermanWordsSpacedSuitFirst`). Only the joined
form "assherz" is accepted (`Cards.GermanWordsJoined`). The comment calls the
rewrites very rough, so the intent is unclear, and the model keeps the code's
behaviour.
