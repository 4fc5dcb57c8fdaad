/** The LTL scanner (verification/ltl.py, `_regex` and `tokenize`).

    The combined regular expression joins one named group per category, in
    catalog order; an alternation takes the first alternative that matches,
    so at every position the first category in declaration order whose
    pattern matches wins (not the longest match). `MatchAt` models one step
    of the combined expression, `LexFrom` the generator, and `Tokenize` its
    loop. The generator is lazy: it raises only when the cursor pulls the
    offending match. The model computes the stream eagerly but stops it at a
    `LexFail` item, which the cursor turns into the error only when it
    advances onto it. */
module LtlScanner {
  import opened LtlCatalog
  import opened Wrappers

  /** `s` holds the spelling `lit` at offset `i`. */
  predicate StartsWith(s: string, i: nat, lit: string)
    decreases |lit|
  {
    |lit| == 0 || (i < |s| && s[i] == lit[0] && StartsWith(s, i + 1, lit[1..]))
  }

  /** `StartsWith` is slice equality. */
  lemma {:induction false} StartsWithSlice(s: string, i: nat, lit: string)
    requires i + |lit| <= |s|
    ensures StartsWith(s, i, lit) == (s[i..i + |lit|] == lit)
    decreases |lit|
  {
    if |lit| > 0 {
      StartsWithSlice(s, i + 1, lit[1..]);
      assert s[i..i + |lit|] == [s[i]] + s[i + 1..i + 1 + |lit[1..]|];
      assert lit == [lit[0]] + lit[1..];
    }
  }

  lemma {:induction false} StartsWithBounds(s: string, i: nat, lit: string)
    requires i <= |s| && StartsWith(s, i, lit)
    ensures i + |lit| <= |s|
    decreases |lit|
  {
    if |lit| > 0 {
      StartsWithBounds(s, i + 1, lit[1..]);
    }
  }

  /** A regular-expression alternation of fixed spellings: the first one, in
      order from position `j`, that `s` holds at `i`; the result is the end
      of the match. */
  function MatchLiterals(s: string, i: nat, spellings: seq<string>, j: nat): (r: Option<nat>)
    requires i <= |s| && j <= |spellings|
    requires NonEmptySpellings(spellings)
    ensures r.Some? ==> i < r.value <= |s|
    decreases |spellings| - j
  {
    if j == |spellings| then None
    else if StartsWith(s, i, spellings[j]) then
      StartsWithBounds(s, i, spellings[j]);
      Some(i + |spellings[j]|)
    else MatchLiterals(s, i, spellings, j + 1)
  }

  /** The end of the maximal run of word characters that starts at `i`
      (the greedy `\w+`). */
  function WordEnd(s: string, i: nat): (e: nat)
    requires i <= |s|
    ensures i <= e <= |s|
    ensures forall j :: i <= j < e ==> IsWordChar(s[j])
    ensures e == |s| || !IsWordChar(s[e])
    decreases |s| - i
  {
    if i < |s| && IsWordChar(s[i]) then WordEnd(s, i + 1) else i
  }

  /** The end of the maximal run of white space that starts at `i` (`\s+`). */
  function SpaceEnd(s: string, i: nat): (e: nat)
    requires i <= |s|
    ensures i <= e <= |s|
    ensures forall j :: i <= j < e ==> IsSpace(s[j])
    ensures e == |s| || !IsSpace(s[e])
    decreases |s| - i
  {
    if i < |s| && IsSpace(s[i]) then SpaceEnd(s, i + 1) else i
  }

  /** A pattern whose fixed spellings are all non-empty. */
  predicate ValidPattern(p: Pattern)
  {
    p.Literals? ==> NonEmptySpellings(p.spellings)
  }

  /** Where one category's pattern matches at `i`, the end of that match. */
  function MatchPattern(p: Pattern, s: string, i: nat): (r: Option<nat>)
    requires i <= |s|
    requires ValidPattern(p)
    ensures r.Some? ==> i <= r.value <= |s|
    ensures r.Some? && p != Empty ==> i < r.value
  {
    match p
    case Literals(spellings) => MatchLiterals(s, i, spellings, 0)
    case WordRun => if i < |s| && IsWordChar(s[i]) then Some(WordEnd(s, i)) else None
    case SpaceRun => if i < |s| && IsSpace(s[i]) then Some(SpaceEnd(s, i)) else None
    case AnyChar => if i < |s| && s[i] != '\n' then Some(i + 1) else None
    case Empty => Some(i)
  }

  /** The category that wins at a position and where its match ends. */
  datatype Match = Match(kind: Kind, end: nat)

  /** The category `k` matches at `i`, ending at `e`. */
  predicate MatchesAt(s: string, i: nat, k: Kind, e: nat)
    requires i <= |s|
  {
    MatchPattern(PatternOf(k), s, i) == Some(e)
  }

  /** The category `k` does not match at `i`. */
  predicate FailsAt(s: string, i: nat, k: Kind)
    requires i <= |s|
  {
    MatchPattern(PatternOf(k), s, i) == None
  }

  /** Tries the categories from catalog position `j` on, in order. The last
      category, EOF, has the empty pattern, which matches everywhere. */
  function FirstMatch(s: string, i: nat, j: nat): (m: Match)
    requires i <= |s| && j < |Catalog|
    ensures j <= Rank(m.kind)
    ensures MatchesAt(s, i, m.kind, m.end)
    ensures forall k :: j <= Rank(k) < Rank(m.kind) ==> FailsAt(s, i, k)
    decreases |Catalog| - j
  {
    var k := Catalog[j];
    assert Rank(k) == j;
    var r := MatchPattern(PatternOf(k), s, i);
    if j == |Catalog| - 1 then Match(k, i)
    else if r.Some? then Match(k, r.value)
    else FirstMatch(s, i, j + 1)
  }

  /** Only the EOF category has the empty pattern. */
  lemma EmptyPatternIsEof(k: Kind)
    ensures (PatternOf(k) == Empty) == (k == Eof)
  {
  }

  /** One step of the combined expression at offset `i`: the first category
      in declaration order whose pattern matches, with the end of its match.
      Every category but EOF consumes input, and EOF wins only at the end. */
  function MatchAt(s: string, i: nat): (m: Match)
    requires i <= |s|
    ensures MatchesAt(s, i, m.kind, m.end)
    ensures forall k :: Rank(k) < Rank(m.kind) ==> FailsAt(s, i, k)
    ensures i <= m.end <= |s|
    ensures (m.kind == Eof) == (i == |s|)
    ensures m.kind != Eof ==> i < m.end
    ensures m.kind == Eof ==> m.end == i
  {
    FirstMatchEnds(s, i);
    FirstMatch(s, i, 0)
  }

  /** EOF wins exactly at the end of the input, where it matches empty;
      every other winner consumes input. */
  lemma FirstMatchEnds(s: string, i: nat)
    requires i <= |s|
    ensures var m := FirstMatch(s, i, 0);
            && (m.kind == Eof) == (i == |s|)
            && (m.kind != Eof ==> i < m.end)
            && (m.kind == Eof ==> m.end == i)
  {
    var m := FirstMatch(s, i, 0);
    EmptyPatternIsEof(m.kind);
    if i < |s| {
      FirstMatchInside(s, i);
    }
  }

  /** Inside the input the catch-all categories match, so EOF never wins
      there. */
  lemma FirstMatchInside(s: string, i: nat)
    requires i < |s|
    ensures FirstMatch(s, i, 0).kind != Eof
  {
    var fallback := if s[i] == '\n' then Whitespace else Error;
    assert Rank(fallback) < Rank(Eof);
    assert !FailsAt(s, i, fallback);
  }

  /** A winner is unique: any category that matches at `i` while every
      earlier one fails is the one `MatchAt` returns. */
  lemma {:induction false} FirstMatchUnique(s: string, i: nat, k: Kind, e: nat)
    requires i <= |s|
    requires MatchesAt(s, i, k, e)
    requires forall k' :: Rank(k') < Rank(k) ==> FailsAt(s, i, k')
    ensures MatchAt(s, i) == Match(k, e)
  {
    var m := MatchAt(s, i);
    assert !FailsAt(s, i, k) && !FailsAt(s, i, m.kind);
    assert Rank(m.kind) == Rank(k);
    assert Catalog[Rank(k)] == k && Catalog[Rank(m.kind)] == m.kind;
  }

  /** An independent reference for one step of the scanner, decided by the
      character at `i` (and for two-character spellings the next one): it
      spells out which category the ordered alternation must pick. */
  function Classify(s: string, i: nat): (m: Match)
    requires i <= |s|
    ensures i <= m.end <= |s|
    ensures (m.kind == Eof) == (i == |s|)
    ensures m.kind != Eof ==> i < m.end
  {
    if i == |s| then Match(Eof, i)
    else
      var c := s[i];
      if c == '&' || c == '\U{2227}' then Match(And, i + 1)
      else if c == '/' then
        (if StartsWith(s, i, "/\\") then Match(And, i + 2) else Match(Error, i + 1))
      else if c == '|' || c == '\U{2228}' then Match(Or, i + 1)
      else if c == '\\' then
        (if StartsWith(s, i, "\\/") then Match(Or, i + 2) else Match(Error, i + 1))
      else if c == '!' || c == '~' || c == '\U{00AC}' then Match(Not, i + 1)
      else if c == '-' then
        (if StartsWith(s, i, "->") then Match(Impl, i + 2) else Match(Error, i + 1))
      else if c == '\U{21D2}' then Match(Impl, i + 1)
      else if c == '=' || c == '\U{21D4}' then Match(Equiv, i + 1)
      else if c == '^' then Match(Xor, i + 1)
      else if c == 'X' then Match(Next, i + 1)
      else if c == 'U' then Match(Until, i + 1)
      else if c == 'W' then Match(Weak, i + 1)
      else if c == 'R' then Match(Release, i + 1)
      else if c == 'F' || c == '\U{25C7}' then Match(Finally, i + 1)
      else if c == '<' then
        (if StartsWith(s, i, "<>") then Match(Finally, i + 2) else Match(Error, i + 1))
      else if c == 'G' || c == '\U{2610}' then Match(Globally, i + 1)
      else if c == '[' then
        (if StartsWith(s, i, "[]") then Match(Globally, i + 2) else Match(Error, i + 1))
      else if c == '(' then Match(LeftPar, i + 1)
      else if c == ')' then Match(RightPar, i + 1)
      else if c == 't' && StartsWith(s, i, "true") then Match(True, i + 4)
      else if c == 'f' && StartsWith(s, i, "false") then Match(False, i + 5)
      else if IsWordChar(c) then Match(Proposition, WordEnd(s, i))
      else if IsSpace(c) then Match(Whitespace, SpaceEnd(s, i))
      else Match(Error, i + 1)
  }

  /** Every category the reference places before its answer fails. */
  lemma EarlierFails(s: string, i: nat, k: Kind)
    requires i < |s| && Rank(k) < Rank(Classify(s, i).kind)
    ensures FailsAt(s, i, k)
  {
    if Rank(k) < 6 {
      EarlierConnectiveFails(s, i, k);
    } else if Rank(k) < 12 {
      EarlierTemporalFails(s, i, k);
    } else {
      EarlierOtherFails(s, i, k);
    }
  }

  lemma EarlierConnectiveFails(s: string, i: nat, k: Kind)
    requires i < |s| && Rank(k) < Rank(Classify(s, i).kind) && Rank(k) < 6
    ensures FailsAt(s, i, k)
  {
    if Rank(k) < 3 {
      EarlierLogicalFails(s, i, k);
    } else {
      EarlierArrowFails(s, i, k);
    }
  }

  lemma EarlierLogicalFails(s: string, i: nat, k: Kind)
    requires i < |s| && Rank(k) < Rank(Classify(s, i).kind) && Rank(k) < 3
    ensures FailsAt(s, i, k)
  {
    match k
    case And =>
      assert MatchLiterals(s, i, PatternOf(And).spellings, 2) == None;
    case Or =>
      assert MatchLiterals(s, i, PatternOf(Or).spellings, 2) == None;
    case Not =>
      assert MatchLiterals(s, i, PatternOf(Not).spellings, 2) == None;
    case _ =>
  }

  lemma EarlierArrowFails(s: string, i: nat, k: Kind)
    requires i < |s| && Rank(k) < Rank(Classify(s, i).kind) && 3 <= Rank(k) < 6
    ensures FailsAt(s, i, k)
  {
    match k
    case Impl =>
    case Equiv =>
    case Xor =>
    case _ =>
  }

  lemma EarlierTemporalFails(s: string, i: nat, k: Kind)
    requires i < |s| && Rank(k) < Rank(Classify(s, i).kind) && 6 <= Rank(k) < 12
    ensures FailsAt(s, i, k)
  {
    if Rank(k) < 10 {
      EarlierLetterFails(s, i, k);
    } else {
      EarlierModalFails(s, i, k);
    }
  }

  lemma EarlierLetterFails(s: string, i: nat, k: Kind)
    requires i < |s| && Rank(k) < Rank(Classify(s, i).kind) && 6 <= Rank(k) < 10
    ensures FailsAt(s, i, k)
  {
    match k
    case Next =>
    case Until =>
    case Weak =>
    case Release =>
    case _ =>
  }

  lemma EarlierModalFails(s: string, i: nat, k: Kind)
    requires i < |s| && Rank(k) < Rank(Classify(s, i).kind) && 10 <= Rank(k) < 12
    ensures FailsAt(s, i, k)
  {
    match k
    case Finally =>
      assert MatchLiterals(s, i, PatternOf(Finally).spellings, 2) == None;
    case Globally =>
      assert MatchLiterals(s, i, PatternOf(Globally).spellings, 2) == None;
    case _ =>
  }

  lemma EarlierOtherFails(s: string, i: nat, k: Kind)
    requires i < |s| && Rank(k) < Rank(Classify(s, i).kind) && 12 <= Rank(k)
    ensures FailsAt(s, i, k)
  {
    match k
    case LeftPar =>
    case RightPar =>
    case True =>
    case False =>
    case Proposition =>
    case Whitespace =>
    case Error =>
    case Eof =>
  }

  /** The category the reference picks does match, where it says. */
  lemma ClassifiedMatches(s: string, i: nat)
    requires i <= |s|
    ensures MatchesAt(s, i, Classify(s, i).kind, Classify(s, i).end)
  {
    var k := Classify(s, i).kind;
    if Rank(k) < 6 {
      ConnectiveMatches(s, i);
    } else if Rank(k) < 12 {
      TemporalMatches(s, i);
    } else {
      OtherMatches(s, i);
    }
  }

  lemma ConnectiveMatches(s: string, i: nat)
    requires i <= |s| && Rank(Classify(s, i).kind) < 6
    ensures MatchesAt(s, i, Classify(s, i).kind, Classify(s, i).end)
  {
    if Rank(Classify(s, i).kind) < 3 {
      LogicalMatches(s, i);
    } else {
      ArrowMatches(s, i);
    }
  }

  lemma LogicalMatches(s: string, i: nat)
    requires i <= |s| && Rank(Classify(s, i).kind) < 3
    ensures MatchesAt(s, i, Classify(s, i).kind, Classify(s, i).end)
  {
    match Classify(s, i).kind
    case And =>
      assert s[i] == '\U{2227}' ==> MatchLiterals(s, i, PatternOf(And).spellings, 2) == Some(i + 1);
    case Or =>
      assert s[i] == '\U{2228}' ==> MatchLiterals(s, i, PatternOf(Or).spellings, 2) == Some(i + 1);
    case Not =>
      assert s[i] == '\U{00AC}' ==> MatchLiterals(s, i, PatternOf(Not).spellings, 2) == Some(i + 1);
    case _ =>
  }

  lemma ArrowMatches(s: string, i: nat)
    requires i <= |s| && 3 <= Rank(Classify(s, i).kind) < 6
    ensures MatchesAt(s, i, Classify(s, i).kind, Classify(s, i).end)
  {
    match Classify(s, i).kind
    case Impl =>
    case Equiv =>
    case Xor =>
    case _ =>
  }

  lemma TemporalMatches(s: string, i: nat)
    requires i <= |s| && 6 <= Rank(Classify(s, i).kind) < 12
    ensures MatchesAt(s, i, Classify(s, i).kind, Classify(s, i).end)
  {
    if Rank(Classify(s, i).kind) < 10 {
      LetterMatches(s, i);
    } else {
      ModalMatches(s, i);
    }
  }

  lemma LetterMatches(s: string, i: nat)
    requires i <= |s| && 6 <= Rank(Classify(s, i).kind) < 10
    ensures MatchesAt(s, i, Classify(s, i).kind, Classify(s, i).end)
  {
    match Classify(s, i).kind
    case Next =>
    case Until =>
    case Weak =>
    case Release =>
    case _ =>
  }

  lemma ModalMatches(s: string, i: nat)
    requires i <= |s| && 10 <= Rank(Classify(s, i).kind) < 12
    ensures MatchesAt(s, i, Classify(s, i).kind, Classify(s, i).end)
  {
    match Classify(s, i).kind
    case Finally =>
      assert s[i] == '\U{25C7}' ==> MatchLiterals(s, i, PatternOf(Finally).spellings, 2) == Some(i + 1);
    case Globally =>
      assert s[i] == '\U{2610}' ==> MatchLiterals(s, i, PatternOf(Globally).spellings, 2) == Some(i + 1);
    case _ =>
  }

  lemma OtherMatches(s: string, i: nat)
    requires i <= |s| && 12 <= Rank(Classify(s, i).kind)
    ensures MatchesAt(s, i, Classify(s, i).kind, Classify(s, i).end)
  {
    match Classify(s, i).kind
    case LeftPar =>
    case RightPar =>
    case True =>
    case False =>
    case Proposition =>
    case Whitespace =>
    case Error =>
    case Eof =>
  }

  /** The ordered alternation agrees with the reference on every input. */
  lemma MatchAtIsClassify(s: string, i: nat)
    requires i <= |s|
    ensures MatchAt(s, i) == Classify(s, i)
  {
    var m := Classify(s, i);
    forall k | Rank(k) < Rank(m.kind)
      ensures FailsAt(s, i, k)
    {
      if i < |s| {
        EarlierFails(s, i, k);
      } else {
        EmptyPatternIsEof(k);
      }
    }
    ClassifiedMatches(s, i);
    FirstMatchUnique(s, i, m.kind, m.end);
  }

  /** The maximal run of word characters is determined by its end: a run of
      word characters from `i` to `e` that cannot be extended is `WordEnd`. */
  lemma {:induction false} WordEndIs(s: string, i: nat, e: nat)
    requires i <= e <= |s|
    requires forall j :: i <= j < e ==> IsWordChar(s[j])
    requires e == |s| || !IsWordChar(s[e])
    ensures WordEnd(s, i) == e
    decreases e - i
  {
    if i < e {
      WordEndIs(s, i + 1, e);
    }
  }

  /** A proposition name that the scanner reads back as a single PROPOSITION
      token: a non-empty run of word characters that does not start with the
      letter of a temporal operator or with one of the keywords `true` and
      `false`. */
  predicate ValidName(n: string)
  {
    && |n| > 0
    && (forall j :: 0 <= j < |n| ==> IsWordChar(n[j]))
    && n[0] !in "XUWRFG"
    && !(|n| >= 4 && n[..4] == "true")
    && !(|n| >= 5 && n[..5] == "false")
  }

  /** Every PROPOSITION the scanner reads is a valid name, and it is the
      longest run of word characters at its position. */
  lemma PropositionIsValidName(s: string, i: nat)
    requires i <= |s| && MatchAt(s, i).kind == Proposition
    ensures ValidName(s[i..MatchAt(s, i).end])
    ensures MatchAt(s, i).end == |s| || !IsWordChar(s[MatchAt(s, i).end])
  {
    MatchAtIsClassify(s, i);
    PropositionStart(s, i);
    WordRunName(s, i, Classify(s, i).end);
  }

  /** A word run that starts with no operator letter and no keyword is a
      valid name. */
  lemma WordRunName(s: string, i: nat, e: nat)
    requires i < |s| && IsWordChar(s[i]) && e == WordEnd(s, i)
    requires s[i] !in "XUWRFG" && !StartsWith(s, i, "true") && !StartsWith(s, i, "false")
    ensures ValidName(s[i..e])
    ensures e == |s| || !IsWordChar(s[e])
  {
    var n := s[i..e];
    assert n[0] == s[i];
    assert forall j :: 0 <= j < |n| ==> IsWordChar(n[j]) by {
      forall j | 0 <= j < |n| ensures IsWordChar(n[j]) {
        assert n[j] == s[i + j];
      }
    }
    NoKeywordPrefix(s, i, e, "true");
    NoKeywordPrefix(s, i, e, "false");
  }

  /** A slice whose text does not start with a keyword has no keyword as a
      prefix. */
  lemma NoKeywordPrefix(s: string, i: nat, e: nat, w: string)
    requires i <= e <= |s| && !StartsWith(s, i, w)
    ensures !(|s[i..e]| >= |w| && s[i..e][..|w|] == w)
  {
    if e - i >= |w| {
      assert s[i..e][..|w|] == s[i..i + |w|];
      StartsWithSlice(s, i, w);
    }
  }

  /** What the reference cascade knows when it answers PROPOSITION. */
  lemma PropositionStart(s: string, i: nat)
    requires i <= |s| && Classify(s, i).kind == Proposition
    ensures i < |s| && IsWordChar(s[i]) && Classify(s, i).end == WordEnd(s, i)
    ensures s[i] !in "XUWRFG"
    ensures !StartsWith(s, i, "true") && !StartsWith(s, i, "false")
  {
  }

  /** Conversely, a valid name that is not followed by a word character is
      read as one PROPOSITION token spanning exactly the name. */
  lemma ValidNameIsProposition(s: string, i: nat, n: string)
    requires i + |n| <= |s| && s[i..i + |n|] == n && ValidName(n)
    requires i + |n| == |s| || !IsWordChar(s[i + |n|])
    ensures MatchAt(s, i) == Match(Proposition, i + |n|)
  {
    ClassifyValidName(s, i, n);
    MatchAtIsClassify(s, i);
  }

  lemma ClassifyValidName(s: string, i: nat, n: string)
    requires i + |n| <= |s| && s[i..i + |n|] == n && ValidName(n)
    requires i + |n| == |s| || !IsWordChar(s[i + |n|])
    ensures Classify(s, i) == Match(Proposition, i + |n|)
  {
    assert s[i] == n[0];
    forall j | i <= j < i + |n|
      ensures IsWordChar(s[j])
    {
      assert s[j] == n[j - i];
    }
    WordEndIs(s, i, i + |n|);
  }

  /** First match, not longest match: the letter of a temporal operator is
      that operator even when word characters follow it (`Fp` is FINALLY
      then `p`). */
  lemma OperatorLetterWins(s: string, i: nat)
    requires i < |s| && s[i] in "XUWRFG"
    ensures MatchAt(s, i).end == i + 1
    ensures s[i] == 'X' ==> MatchAt(s, i).kind == Next
    ensures s[i] == 'U' ==> MatchAt(s, i).kind == Until
    ensures s[i] == 'W' ==> MatchAt(s, i).kind == Weak
    ensures s[i] == 'R' ==> MatchAt(s, i).kind == Release
    ensures s[i] == 'F' ==> MatchAt(s, i).kind == Finally
    ensures s[i] == 'G' ==> MatchAt(s, i).kind == Globally
  {
    var m := Classify(s, i);
    assert m.end == i + 1;
    MatchAtIsClassify(s, i);
  }

  /** The keywords win over a longer proposition: `trueish` starts with the
      TRUE token. */
  lemma KeywordPrefixWins(s: string, i: nat)
    requires i <= |s|
    ensures StartsWith(s, i, "true") ==> MatchAt(s, i) == Match(True, i + 4)
    ensures StartsWith(s, i, "false") ==> MatchAt(s, i) == Match(False, i + 5)
  {
    if StartsWith(s, i, "true") {
      TruePrefixWins(s, i);
    }
    if StartsWith(s, i, "false") {
      FalsePrefixWins(s, i);
    }
  }

  lemma TruePrefixWins(s: string, i: nat)
    requires i <= |s| && StartsWith(s, i, "true")
    ensures MatchAt(s, i) == Match(True, i + 4)
  {
    MatchAtIsClassify(s, i);
    ClassifyKeyword(s, i, "true", True);
  }

  lemma FalsePrefixWins(s: string, i: nat)
    requires i <= |s| && StartsWith(s, i, "false")
    ensures MatchAt(s, i) == Match(False, i + 5)
  {
    MatchAtIsClassify(s, i);
    ClassifyKeyword(s, i, "false", False);
  }

  /** The reference cascade reads a keyword at its first letter. */
  lemma ClassifyKeyword(s: string, i: nat, w: string, k: Kind)
    requires (w == "true" && k == True) || (w == "false" && k == False)
    requires i <= |s| && StartsWith(s, i, w)
    ensures Classify(s, i) == Match(k, i + |w|)
  {
    assert i < |s| && s[i] == w[0];
  }

  /** A scanned token: its category, its offsets in the input and the text
      it matched (`Token` in the source). */
  datatype Token = Token(kind: Kind, start: nat, end: nat, value: string)

  /** One element of the generator's output: a token, or the unknown
      character that makes it raise. */
  datatype Item = Tok(token: Token) | LexFail(offset: nat)

  /** The generator from offset `i` on: whitespace is dropped, an ERROR match
      ends the stream with the failure, and the empty EOF match at the end of
      the input is followed by one more EOF token. */
  function LexFrom(s: string, i: nat): seq<Item>
    requires i <= |s|
    decreases |s| - i
  {
    var m := Classify(s, i);
    if m.kind == Whitespace then LexFrom(s, m.end)
    else if m.kind == Error then [LexFail(i)]
    else if m.kind == Eof then [Tok(Token(Eof, i, i, s[i..i])), Tok(Token(Eof, |s|, |s|, ""))]
    else [Tok(Token(m.kind, i, m.end, s[i..m.end]))] + LexFrom(s, m.end)
  }

  /** The whole output of `tokenize`. */
  function Lex(s: string): seq<Item>
  {
    LexFrom(s, 0)
  }

  /** At the end of the text the scanner emits the two EOF tokens. */
  lemma EndStep(s: string)
    ensures LexFrom(s, |s|) == [Tok(Token(Eof, |s|, |s|, "")), Tok(Token(Eof, |s|, |s|, ""))]
  {
    assert s[|s|..|s|] == "";
  }

  /** `tokenize`: the loop over the matches of the combined expression. */
  method Tokenize(s: string) returns (items: seq<Item>)
    ensures items == Lex(s)
  {
    items := [];
    var i := 0;
    while true
      invariant i <= |s|
      invariant items + LexFrom(s, i) == Lex(s)
      decreases |s| - i
    {
      var m := MatchAt(s, i);
      MatchAtIsClassify(s, i);
      if m.kind == Whitespace {
        i := m.end;
      } else if m.kind == Error {
        items := items + [LexFail(i)];
        return;
      } else if m.kind == Eof {
        items := items + [Tok(Token(Eof, i, i, s[i..i]))];
        break;
      } else {
        var t := Tok(Token(m.kind, i, m.end, s[i..m.end]));
        assert LexFrom(s, i) == [t] + LexFrom(s, m.end);
        items := items + [t];
        i := m.end;
      }
    }
    items := items + [Tok(Token(Eof, |s|, |s|, ""))];
  }

  /** A token the parser can see: neither dropped whitespace, nor an error,
      nor the end. */
  predicate Ordinary(it: Item)
  {
    it.Tok? && it.token.kind != Whitespace && it.token.kind != Error && it.token.kind != Eof
  }

  predicate IsEof(it: Item)
  {
    it.Tok? && it.token.kind == Eof
  }

  /** The shape of every token stream: ordinary tokens, then either the
      failure or the two EOF tokens. */
  predicate ValidStream(items: seq<Item>)
  {
    || (&& |items| >= 1
        && items[|items| - 1].LexFail?
        && forall j :: 0 <= j < |items| - 1 ==> Ordinary(items[j]))
    || (&& |items| >= 2
        && IsEof(items[|items| - 2]) && IsEof(items[|items| - 1])
        && forall j :: 0 <= j < |items| - 2 ==> Ordinary(items[j]))
  }

  function StartOf(it: Item): nat
  {
    if it.Tok? then it.token.start else it.offset
  }

  function EndOf(it: Item): nat
  {
    if it.Tok? then it.token.end else it.offset
  }

  /** Only white space lies in `s[a..b]`. */
  predicate OnlySpace(s: string, a: nat, b: nat)
  {
    a <= b <= |s| && forall x :: a <= x < b ==> IsSpace(s[x])
  }

  /** An item tells the truth about the input: a token's text is its slice
      of the input and its category is the one the ordered alternation picks
      there; EOF sits at the end with no text; a failure is at a character
      only the ERROR category matches. */
  predicate Faithful(s: string, it: Item)
  {
    match it
    case Tok(t) =>
      && t.start <= t.end <= |s|
      && t.value == s[t.start..t.end]
      && (t.kind != Eof ==> MatchAt(s, t.start) == Match(t.kind, t.end))
      && (t.kind == Eof ==> t.start == t.end == |s|)
    case LexFail(o) => o < |s| && MatchAt(s, o).kind == Error
  }

  lemma ConsValid(t: Item, rest: seq<Item>)
    requires Ordinary(t) && ValidStream(rest)
    ensures ValidStream([t] + rest)
  {
    var items := [t] + rest;
    assert forall j :: 1 <= j < |items| ==> items[j] == rest[j - 1];
  }

  /** The stream from any offset has the stream shape. */
  lemma {:induction false} LexFromValid(s: string, i: nat)
    requires i <= |s|
    ensures ValidStream(LexFrom(s, i))
    decreases |s| - i
  {
    var m := Classify(s, i);
    if m.kind == Whitespace {
      LexFromValid(s, m.end);
    } else if m.kind != Error && m.kind != Eof {
      LexFromValid(s, m.end);
      ConsValid(Tok(Token(m.kind, i, m.end, s[i..m.end])), LexFrom(s, m.end));
    }
  }

  /** Every item of `items` is faithful to `s` and lies at or after `i`. */
  predicate AllFaithful(s: string, i: nat, items: seq<Item>)
  {
    forall j :: 0 <= j < |items| ==> Faithful(s, items[j]) && i <= StartOf(items[j])
  }

  lemma ConsFaithful(s: string, i: nat, t: Item, rest: seq<Item>, i': nat)
    requires Faithful(s, t) && StartOf(t) == i <= i' && AllFaithful(s, i', rest)
    ensures AllFaithful(s, i, [t] + rest)
  {
    var items := [t] + rest;
    forall j | 0 <= j < |items|
      ensures Faithful(s, items[j]) && i <= StartOf(items[j])
    {
      if j > 0 {
        assert items[j] == rest[j - 1];
      }
    }
  }

  /** Every item is faithful to the input and lies at or after `i`. */
  lemma {:induction false} LexFromFaithful(s: string, i: nat)
    requires i <= |s|
    ensures AllFaithful(s, i, LexFrom(s, i))
    decreases |s| - i
  {
    var m := Classify(s, i);
    MatchAtIsClassify(s, i);
    if m.kind == Whitespace {
      LexFromFaithful(s, m.end);
    } else if m.kind != Error && m.kind != Eof {
      LexFromFaithful(s, m.end);
      ConsFaithful(s, i, Tok(Token(m.kind, i, m.end, s[i..m.end])), LexFrom(s, m.end), m.end);
    }
  }

  /** Tokens come in increasing, non-overlapping order, and only white space
      lies before the first one and between consecutive ones. */
  lemma {:induction false} LexFromGaps(s: string, i: nat)
    requires i <= |s|
    ensures |LexFrom(s, i)| > 0
    ensures OnlySpace(s, i, StartOf(LexFrom(s, i)[0]))
    ensures forall j :: 0 <= j < |LexFrom(s, i)| - 1 ==>
      OnlySpace(s, EndOf(LexFrom(s, i)[j]), StartOf(LexFrom(s, i)[j + 1]))
    decreases |s| - i
  {
    var m := Classify(s, i);
    if m.kind == Whitespace {
      LexFromGaps(s, m.end);
      assert OnlySpace(s, i, m.end);
    } else if m.kind != Error && m.kind != Eof {
      LexFromGaps(s, m.end);
      var rest := LexFrom(s, m.end);
      var items := LexFrom(s, i);
      assert items == [Tok(Token(m.kind, i, m.end, s[i..m.end]))] + rest;
      assert forall j :: 1 <= j < |items| ==> items[j] == rest[j - 1];
    }
  }
}
