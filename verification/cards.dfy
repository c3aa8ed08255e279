/**
 * The card-token normaliser `normalize_card_str`: a free-form token such as
 * "AS", " 10h " or "assherz" becomes a canonical two-character card, a rank
 * from 2..9, T, J, Q, K, A followed by a suit from c, d, h, s.
 */
module Cards {
  import opened Wrappers
  import opened Text

  /** The `ValueError("Ungültige Karte: ...")` raised for a token that cannot be mapped; it carries the token. */
  datatype CardError = InvalidCard(token: string)

  /** Canonical ranks and suits, as the card library spells them. */
  const Ranks: string := "23456789TJQKA"
  const Suits: string := "cdhs"

  /** A canonical card: one rank character followed by one suit character. */
  predicate IsCard(c: string) {
    |c| == 2 && c[0] in Ranks && c[1] in Suits
  }

  /**
   * The German words, rewritten in this order. The source's dictionary
   * literal names "herz" twice; a dictionary keeps that key once, in its
   * first place, so five rewrites remain.
   */
  const Replacements: seq<(string, string)> :=
    [("ass", "a"), ("herz", "h"), ("kreuz", "c"), ("karo", "d"), ("pik", "s")]

  /**
   * `rank_map`, looked up with one character. Its two-character key "10"
   * can never match such a lookup, so it has no entry here; the "10" form
   * is handled by its own branch.
   */
  const RankMap: map<char, char> := map[
    '2' := '2', '3' := '3', '4' := '4', '5' := '5', '6' := '6', '7' := '7',
    '8' := '8', '9' := '9', 't' := 'T', 'j' := 'J', 'q' := 'Q', 'k' := 'K', 'a' := 'A']

  /** `suit_map`. */
  const SuitMap: map<char, char> := map['c' := 'c', 'd' := 'd', 'h' := 'h', 's' := 's']

  predicate KeysNonEmpty(reps: seq<(string, string)>) {
    forall i :: 0 <= i < |reps| ==> |reps[i].0| > 0
  }

  /**
   * The rewrites of `reps`, applied one after another from the first. A string
   * in which no key occurs comes out unchanged.
   */
  function ApplyReplacements(reps: seq<(string, string)>, s: string): (r: string)
    requires KeysNonEmpty(reps)
    ensures (forall i :: 0 <= i < |reps| ==> !Contains(reps[i].0, s)) ==> r == s
  {
    if reps == [] then s
    else
      var (k, v) := reps[|reps| - 1];
      Replace(ApplyReplacements(reps[..|reps| - 1], s), k, v)
  }

  /** The token after trimming, lower-casing and the German rewrites. */
  function Prepare(token: string): string {
    ApplyReplacements(Replacements, Lower(Strip(token)))
  }

  /** A token in which, once trimmed and lower-cased, none of the German words occurs is only trimmed and lower-cased. */
  lemma PrepareWithoutGermanWords(token: string)
    requires forall i :: 0 <= i < |Replacements| ==> !Contains(Replacements[i].0, Lower(Strip(token)))
    ensures Prepare(token) == Lower(Strip(token))
  {
  }

  /**
   * The branches of `normalize_card_str` after preparation: a rank character
   * and a suit, or "10" and a suit, give a card; anything else gives none.
   */
  function ParsePrepared(s: string): (c: Option<string>)
    ensures c.Some? ==> IsCard(c.value)
  {
    if |s| == 2 then
      if s[0] in RankMap && s[1] in SuitMap then Some([RankMap[s[0]], SuitMap[s[1]]]) else None
    else if StartsWith(s, "10") && |s| == 3 then
      if s[2] in SuitMap then Some(['T', SuitMap[s[2]]]) else None
    else None
  }

  /**
   * What `normalize_card_str` returns or raises. Every card it returns is
   * canonical, and every error names the token it was given.
   */
  function Normalize(token: string): (r: Result<string, CardError>)
    ensures r.Ok? ==> IsCard(r.value)
    ensures r.Err? ==> r.error == InvalidCard(token)
  {
    match ParsePrepared(Prepare(token))
    case Some(c) => Ok(c)
    case None => Err(InvalidCard(token))
  }

  /** The loop `for k, v in replacements.items(): s = s.replace(k, v)`, over any table of non-empty keys. */
  method RewriteAll(reps: seq<(string, string)>, s0: string) returns (s: string)
    requires KeysNonEmpty(reps)
    ensures s == ApplyReplacements(reps, s0)
  {
    s := s0;
    var i := 0;
    while i < |reps|
      invariant 0 <= i <= |reps|
      invariant s == ApplyReplacements(reps[..i], s0)
    {
      var (k, v) := reps[i];
      ApplyStep(reps, i, s0);
      s := Replace(s, k, v);
      i := i + 1;
    }
    assert reps[..i] == reps;
  }

  /** `normalize_card_str` as the source runs it: the rewrites are a loop that reassigns `s`. */
  method NormalizeCardStr(cardStr: string) returns (r: Result<string, CardError>)
    ensures r == Normalize(cardStr)
  {
    var s := Lower(Strip(cardStr));
    s := RewriteAll(Replacements, s);
    NormalizeSteps(cardStr, s);

    if |s| == 2 {
      if s[0] !in RankMap || s[1] !in SuitMap {
        return Err(InvalidCard(cardStr));
      }
      return Ok([RankMap[s[0]], SuitMap[s[1]]]);
    }

    if StartsWith(s, "10") && |s| == 3 {
      if s[2] !in SuitMap {
        return Err(InvalidCard(cardStr));
      }
      return Ok(['T', SuitMap[s[2]]]);
    }

    return Err(InvalidCard(cardStr));
  }

  /** Rank characters the lookup accepts after lower-casing, and what each becomes. */
  const RankKeys: string := "23456789tjqka"

  function RankOf(c: char): char {
    if 'a' <= c <= 'z' then UpperChar(c) else c
  }

  /** The rank-map keys and their images: a digit is kept, a letter is upper-cased. */
  lemma RankMapKeys(c: char)
    ensures c in RankMap <==> c in RankKeys
    ensures c in RankMap ==> RankMap[c] == RankOf(c)
  {
  }

  /**
   * The accepted language: after preparation, either a rank character and a
   * suit, or "10" and a suit; every other string, of whatever length, is
   * rejected. An accepted rank is upper-cased, "10" becomes "T", the suit is kept.
   */
  lemma ParseAcceptedLanguage(s: string)
    ensures |s| == 2 ==>
      ParsePrepared(s) == if s[0] in RankKeys && s[1] in Suits then Some([RankOf(s[0]), s[1]]) else None
    ensures |s| == 3 && s[0] == '1' && s[1] == '0' ==>
      ParsePrepared(s) == if s[2] in Suits then Some(['T', s[2]]) else None
    ensures |s| != 2 && !(|s| == 3 && s[0] == '1' && s[1] == '0') ==> ParsePrepared(s) == None
  {
    if |s| == 2 {
      RankMapKeys(s[0]);
    } else if |s| == 3 {
      assert StartsWith(s, "10") <==> s[0] == '1' && s[1] == '0';
    }
  }

  /** No key of the rewrites is shorter than three characters. */
  lemma ShortStringsNotRewritten(s: string)
    requires |s| <= 2
    ensures ApplyReplacements(Replacements, s) == s
  {
    NotInShorter("ass", s);
    NotInShorter("herz", s);
    NotInShorter("kreuz", s);
    NotInShorter("karo", s);
    NotInShorter("pik", s);
    NoRewriteApplies(s);
  }

  /** A string in which no German word occurs passes the rewrites unchanged. */
  lemma NoRewriteApplies(s: string)
    requires !Contains("ass", s) && !Contains("herz", s) && !Contains("kreuz", s)
    requires !Contains("karo", s) && !Contains("pik", s)
    ensures ApplyReplacements(Replacements, s) == s
  {
    RewriteOrder(s);
  }

  /** A two-character token without whitespace is only lower-cased. */
  lemma PrepareShortToken(t: string)
    requires |t| == 2 && !IsSpace(t[0]) && !IsSpace(t[1])
    ensures Prepare(t) == [LowerChar(t[0]), LowerChar(t[1])]
  {
    assert Strip(t) == t;
    var l := Lower(t);
    assert l == [LowerChar(t[0]), LowerChar(t[1])];
    ShortStringsNotRewritten(l);
  }

  /** A canonical rank lower-cases to a rank-map key that maps back to it. */
  lemma CanonicalRankRoundTrip(c: char)
    requires c in Ranks
    ensures !IsSpace(c) && LowerChar(c) in RankKeys && RankOf(LowerChar(c)) == c
  {
  }

  /** A canonical card normalises to itself. */
  lemma CanonicalIsFixedPoint(c: string)
    requires IsCard(c)
    ensures Normalize(c) == Ok(c)
  {
    CanonicalRankRoundTrip(c[0]);
    assert !IsSpace(c[1]) && LowerChar(c[1]) == c[1];
    PrepareShortToken(c);
    ParseAcceptedLanguage(Prepare(c));
    assert c == [c[0], c[1]];
  }

  /** Normalisation is idempotent: normalising a result again gives it back. */
  lemma NormalizeIdempotent(token: string)
    requires Normalize(token).Ok?
    ensures Normalize(Normalize(token).value) == Normalize(token)
  {
    CanonicalIsFixedPoint(Normalize(token).value);
  }

  /** No rewrite key occurs in a three-character string that starts with '1'. */
  lemma TenFormNotRewritten(l: string)
    requires |l| == 3 && l[0] == '1'
    ensures ApplyReplacements(Replacements, l) == l
  {
    NotAtHeadOfEqualLength("ass", l);
    NotInShorter("herz", l);
    NotInShorter("kreuz", l);
    NotInShorter("karo", l);
    NotAtHeadOfEqualLength("pik", l);
    NoRewriteApplies(l);
  }

  /** Stripping "10" followed by one character removes that character exactly when it is whitespace. */
  lemma StripTenForm(x: char)
    ensures Strip("10" + [x]) == if IsSpace(x) then "10" else "10" + [x]
  {
    var t := "10" + [x];
    assert TrimLeft(t) == t;
    if IsSpace(x) {
      assert t[..2] == "10";
      assert TrimRight(t) == "10";
    }
  }

  /** Preparing "10" followed by one character. */
  lemma PrepareTenForm(x: char)
    ensures Prepare("10" + [x]) == if IsSpace(x) then "10" else ['1', '0', LowerChar(x)]
  {
    if IsSpace(x) {
      PrepareTenSpace(x);
    } else {
      PrepareTenOther(x);
    }
  }

  lemma PrepareTenSpace(x: char)
    requires IsSpace(x)
    ensures Prepare("10" + [x]) == "10"
  {
    StripTenForm(x);
    TenAlone();
    PrepareSteps("10" + [x], "10", "10");
  }

  lemma TenAlone()
    ensures Lower("10") == "10" && ApplyReplacements(Replacements, "10") == "10"
  {
    LowerKeepsLower("10");
    ShortStringsNotRewritten("10");
  }

  lemma PrepareTenOther(x: char)
    requires !IsSpace(x)
    ensures Prepare("10" + [x]) == ['1', '0', LowerChar(x)]
  {
    var t := "10" + [x];
    StripTenForm(x);
    LowerTenForm(x);
    TenFormNotRewritten(['1', '0', LowerChar(x)]);
    PrepareSteps(t, t, ['1', '0', LowerChar(x)]);
  }

  lemma LowerTenForm(x: char)
    ensures Lower("10" + [x]) == ['1', '0', LowerChar(x)]
  {
  }

  /** Preparation in its three steps. */
  lemma PrepareSteps(t: string, stripped: string, l: string)
    requires Strip(t) == stripped && Lower(stripped) == l && ApplyReplacements(Replacements, l) == l
    ensures Prepare(t) == l
  {
  }

  /** A word without whitespace at its ends and without upper-case letters is prepared by the rewrites alone. */
  lemma PrepareWord(t: string)
    requires |t| > 0 && !IsSpace(t[0]) && !IsSpace(t[|t| - 1])
    requires forall k :: 0 <= k < |t| ==> !('A' <= t[k] <= 'Z')
    ensures Prepare(t) == ApplyReplacements(Replacements, t)
  {
    assert Strip(t) == t;
    LowerKeepsLower(t);
  }

  /** "10" followed by one character: "T" plus the lower-cased suit, or an error when that is no suit. */
  lemma TenPrefix(x: char)
    ensures Normalize("10" + [x]) ==
      if LowerChar(x) in Suits then Ok(['T', LowerChar(x)]) else Err(InvalidCard("10" + [x]))
  {
    if IsSpace(x) {
      TenPrefixSpace(x);
    } else {
      TenPrefixOther(x);
    }
  }

  lemma TenPrefixSpace(x: char)
    requires IsSpace(x)
    ensures Normalize("10" + [x]) == Err(InvalidCard("10" + [x]))
  {
    PrepareTenSpace(x);
    TenAloneRejected();
    NormalizeSteps("10" + [x], "10");
  }

  lemma TenAloneRejected()
    ensures ParsePrepared("10") == None
  {
    assert '1' !in RankMap;
  }

  lemma TenPrefixOther(x: char)
    requires !IsSpace(x)
    ensures Normalize("10" + [x]) ==
      if LowerChar(x) in Suits then Ok(['T', LowerChar(x)]) else Err(InvalidCard("10" + [x]))
  {
    var l := ['1', '0', LowerChar(x)];
    PrepareTenOther(x);
    ParseAcceptedLanguage(l);
    NormalizeSteps("10" + [x], l);
  }

  /** Normalisation is parsing of the prepared token. */
  lemma NormalizeSteps(t: string, l: string)
    requires Prepare(t) == l
    ensures Normalize(t) == match ParsePrepared(l) case Some(c) => Ok(c) case None => Err(InvalidCard(t))
  {
  }

  /** The rewrites spelled out: "ass", "herz", "kreuz", "karo", "pik", in that order. */
  lemma RewriteOrder(s: string)
    ensures ApplyReplacements(Replacements, s) ==
      Replace(Replace(Replace(Replace(Replace(s, "ass", "a"), "herz", "h"), "kreuz", "c"), "karo", "d"), "pik", "s")
  {
    var r := Replacements;
    assert r[..0] == [] && r[..5] == r;
    assert r[0] == ("ass", "a") && r[1] == ("herz", "h") && r[2] == ("kreuz", "c");
    assert r[3] == ("karo", "d") && r[4] == ("pik", "s");
    ApplyStep(r, 0, s);
    ApplyStep(r, 1, s);
    ApplyStep(r, 2, s);
    ApplyStep(r, 3, s);
    ApplyStep(r, 4, s);
  }

  /** One more rewrite extends the fold by one step. */
  lemma ApplyStep(reps: seq<(string, string)>, i: nat, s: string)
    requires KeysNonEmpty(reps) && i < |reps|
    ensures ApplyReplacements(reps[..i + 1], s) == Replace(ApplyReplacements(reps[..i], s), reps[i].0, reps[i].1)
  {
    assert reps[..i + 1][..i] == reps[..i];
  }

  /** The last three rewrites leave a string of at most three characters without a 'p' alone. */
  lemma LastRewritesIdle(s: string)
    requires |s| <= 3 && forall i :: 0 <= i < |s| ==> s[i] != 'p'
    ensures Replace(Replace(Replace(s, "kreuz", "c"), "karo", "d"), "pik", "s") == s
  {
    AbsentFirstChar("pik", s);
  }

  /** The rewrites turn "assherz" into "ah". */
  lemma RewritesJoined()
    ensures ApplyReplacements(Replacements, "assherz") == "ah"
  {
    RewriteOrder("assherz");
    AssInAssherz();
    HerzInAherz();
    LastRewritesIdle("ah");
  }

  lemma AssInAssherz()
    ensures Replace("assherz", "ass", "a") == "aherz"
  {
    ReplaceAtHead("ass", "herz", "a");
    AbsentFirstChar("ass", "herz");
    assert "ass" + "herz" == "assherz";
  }

  lemma HerzInAherz()
    ensures Replace("aherz", "herz", "h") == "ah"
  {
    ReplaceSkipsPrefix("a", "herz", "herz", "h");
    ReplaceAtHead("herz", "", "h");
    assert "herz" + "" == "herz" && "a" + "herz" == "aherz";
  }

  /** "assherz" (the source's docstring example) becomes the ace of hearts. */
  lemma GermanWordsJoined()
    ensures Normalize("assherz") == Ok("Ah")
  {
    assert !IsSpace('a') && !IsSpace('z');
    PrepareWord("assherz");
    RewritesJoined();
    ParseAh();
    NormalizeSteps("assherz", "ah");
  }

  lemma ParseAh()
    ensures ParsePrepared("ah") == Some("Ah")
  {
    ParseAcceptedLanguage("ah");
  }

  /** The rewrites turn "ass herz" into "a h", the blank kept. */
  lemma RewritesSpaced()
    ensures ApplyReplacements(Replacements, "ass herz") == "a h"
  {
    RewriteOrder("ass herz");
    AssInSpacedWords();
    HerzInSpacedWords();
    LastRewritesIdle("a h");
  }

  lemma AssInSpacedWords()
    ensures Replace("ass herz", "ass", "a") == "a herz"
  {
    ReplaceAtHead("ass", " herz", "a");
    AbsentFirstChar("ass", " herz");
    assert "ass" + " herz" == "ass herz";
  }

  lemma HerzInSpacedWords()
    ensures Replace("a herz", "herz", "h") == "a h"
  {
    ReplaceSkipsPrefix("a ", "herz", "herz", "h");
    ReplaceAtHead("herz", "", "h");
    assert "herz" + "" == "herz" && "a " + "herz" == "a herz";
  }

  /** "ass herz" becomes "a h", three characters without the "10" prefix, and is rejected. */
  lemma GermanWordsSpaced()
    ensures Normalize("ass herz") == Err(InvalidCard("ass herz"))
  {
    assert !IsSpace('a') && !IsSpace('z');
    PrepareWord("ass herz");
    RewritesSpaced();
    ParseSpacedRejected();
    NormalizeSteps("ass herz", "a h");
  }

  lemma ParseSpacedRejected()
    ensures ParsePrepared("a h") == None
  {
    ParseAcceptedLanguage("a h");
  }

  /** The rewrites turn "herz ass" into "h a". */
  lemma RewritesSpacedSuitFirst()
    ensures ApplyReplacements(Replacements, "herz ass") == "h a"
  {
    RewriteOrder("herz ass");
    AssInSpacedSuitFirst();
    HerzInSpacedSuitFirst();
    LastRewritesIdle("h a");
  }

  lemma AssInSpacedSuitFirst()
    ensures Replace("herz ass", "ass", "a") == "herz a"
  {
    ReplaceSkipsPrefix("herz ", "ass", "ass", "a");
    ReplaceAtHead("ass", "", "a");
    assert "herz " + "ass" == "herz ass" && "ass" + "" == "ass";
  }

  lemma HerzInSpacedSuitFirst()
    ensures Replace("herz a", "herz", "h") == "h a"
  {
    ReplaceAtHead("herz", " a", "h");
    AbsentFirstChar("herz", " a");
    assert "herz" + " a" == "herz a";
  }

  /** "herz ass" becomes "h a", three characters without the "10" prefix, and is rejected. */
  lemma GermanWordsSpacedSuitFirst()
    ensures Normalize("herz ass") == Err(InvalidCard("herz ass"))
  {
    assert !IsSpace('h') && !IsSpace('s');
    PrepareWord("herz ass");
    RewritesSpacedSuitFirst();
    ParseSpacedSuitFirstRejected();
    NormalizeSteps("herz ass", "h a");
  }

  lemma ParseSpacedSuitFirstRejected()
    ensures ParsePrepared("h a") == None
  {
    ParseAcceptedLanguage("h a");
  }

  /** The rewrites turn "herzass" into "ha". */
  lemma RewritesSuitFirst()
    ensures ApplyReplacements(Replacements, "herzass") == "ha"
  {
    RewriteOrder("herzass");
    AssInHerzass();
    HerzInHerza();
    LastRewritesIdle("ha");
  }

  lemma AssInHerzass()
    ensures Replace("herzass", "ass", "a") == "herza"
  {
    ReplaceSkipsPrefix("herz", "ass", "ass", "a");
    ReplaceAtHead("ass", "", "a");
    assert "herz" + "ass" == "herzass" && "ass" + "" == "ass";
  }

  lemma HerzInHerza()
    ensures Replace("herza", "herz", "h") == "ha"
  {
    ReplaceAtHead("herz", "a", "h");
    assert "herz" + "a" == "herza";
    AbsentFirstChar("herz", "a");
  }

  /** Suit-first "herzass" becomes "ha", whose rank 'h' is no rank: rejected. */
  lemma GermanWordsSuitFirst()
    ensures Normalize("herzass") == Err(InvalidCard("herzass"))
  {
    assert !IsSpace('h') && !IsSpace('s');
    PrepareWord("herzass");
    RewritesSuitFirst();
    ParseSuitFirstRejected();
    NormalizeSteps("herzass", "ha");
  }

  lemma ParseSuitFirstRejected()
    ensures ParsePrepared("ha") == None
  {
    ParseAcceptedLanguage("ha");
  }

  /** "10H": upper case is accepted and "10" becomes "T". */
  lemma TenTokenExample()
    ensures Normalize("10H") == Ok("Th")
  {
    assert "10H" == "10" + ['H'];
    assert LowerChar('H') == 'h';
    TenPrefixOther('H');
  }

  /** "AS": upper case is accepted. */
  lemma UpperCaseTokenExample()
    ensures Normalize("AS") == Ok("As")
  {
    PrepareShortToken("AS");
    assert Prepare("AS") == "as";
    ParseAcceptedLanguage("as");
  }

  /** "Zx": no rank 'z', no suit 'x', rejected before any evaluation. */
  lemma UnknownTokenExample()
    ensures Normalize("Zx") == Err(InvalidCard("Zx"))
  {
    PrepareShortToken("Zx");
    assert Prepare("Zx") == "zx";
    ParseAcceptedLanguage("zx");
  }
}
