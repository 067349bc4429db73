/**
 * A hand-written matcher for the regular expression that flags a hard-coded
 * lot size, `OrderSend\s*\([^,]*,\s*\d+\.\d+`, searched anywhere in a file
 * (`re.search`). `\s` is Python's whitespace for `str` patterns; `\d` is an
 * ASCII digit.
 */
module OrderSendPattern {
  import opened Text

  const KEYWORD := "OrderSend"

  /** Python's `str.isspace`, which is what `\s` matches in a `str` pattern. */
  predicate IsSpace(c: char) {
    || '\t' <= c <= '\r'
    || '\U{1C}' <= c <= '\U{1F}'
    || c == ' ' || c == '\U{85}' || c == '\U{A0}' || c == '\U{1680}'
    || '\U{2000}' <= c <= '\U{200A}'
    || c == '\U{2028}' || c == '\U{2029}' || c == '\U{202F}' || c == '\U{205F}' || c == '\U{3000}'
  }

  /** Every character of `s[i..j]` is whitespace (`\s*` spans it). */
  ghost predicate Spaces(s: string, i: nat, j: nat)
    requires i <= j <= |s|
  {
    forall k :: i <= k < j ==> IsSpace(s[k])
  }

  /** Every character of `s[i..j]` is a digit. */
  ghost predicate Digits(s: string, i: nat, j: nat)
    requires i <= j <= |s|
  {
    forall k :: i <= k < j ==> IsDigit(s[k])
  }

  /** No character of `s[i..j]` is a comma (`[^,]*` spans it). */
  ghost predicate NoComma(s: string, i: nat, j: nat)
    requires i <= j <= |s|
  {
    forall k :: i <= k < j ==> s[k] != ','
  }

  /** End of the run of whitespace that starts at `i`. */
  function SkipSpaces(s: string, i: nat): (j: nat)
    requires i <= |s|
    ensures i <= j <= |s| && Spaces(s, i, j)
    ensures j < |s| ==> !IsSpace(s[j])
    decreases |s| - i
  {
    if i < |s| && IsSpace(s[i]) then SkipSpaces(s, i + 1) else i
  }

  /** End of the run of digits that starts at `i`. */
  function SkipDigits(s: string, i: nat): (j: nat)
    requires i <= |s|
    ensures i <= j <= |s| && Digits(s, i, j)
    ensures j < |s| ==> !IsDigit(s[j])
    decreases |s| - i
  {
    if i < |s| && IsDigit(s[i]) then SkipDigits(s, i + 1) else i
  }

  /** Index of the first comma at or after `i`, or `|s|` when there is none. */
  function FirstComma(s: string, i: nat): (j: nat)
    requires i <= |s|
    ensures i <= j <= |s| && NoComma(s, i, j)
    ensures j < |s| ==> s[j] == ','
    decreases |s| - i
  {
    if i < |s| && s[i] != ',' then FirstComma(s, i + 1) else i
  }

  /**
   * The pattern matches at `p`. Each part of it can be matched in one way
   * only: `\s*` stops at '(', `[^,]*` at the first comma, `\s*` at the
   * first digit, `\d+` at the '.'. So the matcher needs no backtracking.
   */
  predicate MatchesAt(s: string, p: nat) {
    p + |KEYWORD| <= |s| && s[p..p + |KEYWORD|] == KEYWORD &&
    var open := SkipSpaces(s, p + |KEYWORD|);
    open < |s| && s[open] == '(' &&
    var comma := FirstComma(s, open + 1);
    comma < |s| &&
    var whole := SkipSpaces(s, comma + 1);
    var dot := SkipDigits(s, whole);
    whole < dot < |s| - 1 && s[dot] == '.' && IsDigit(s[dot + 1])
  }

  /** `re.search(pattern, s)` finds a match. */
  predicate HasHardCodedLotSize(s: string)
    ensures HasHardCodedLotSize(s) ==> |s| >= |KEYWORD| + 5
  {
    exists p: nat :: p <= |s| && MatchesAt(s, p)
  }

  /** A text flagged for a hard-coded lot size contains the keyword `OrderSend`. */
  lemma FlaggedTextContainsKeyword(s: string)
    ensures HasHardCodedLotSize(s) ==> Contains(s, KEYWORD)
  {
    if HasHardCodedLotSize(s) {
      var p: nat :| p <= |s| && MatchesAt(s, p);
      assert OccursAt(s, KEYWORD, p);
      ContainsIff(s, KEYWORD);
    }
  }

  /**
   * The regular expression's own reading: `s[p..e]` splits at `open`,
   * `comma`, `whole`, `dot` into the keyword, whitespace, '(', non-commas,
   * ',', whitespace, digits, '.', digits.
   */
  ghost predicate RegexMatch(s: string, p: nat, open: nat, comma: nat, whole: nat, dot: nat, e: nat) {
    && p + |KEYWORD| <= open < comma < whole <= dot < e <= |s|
    && s[p..p + |KEYWORD|] == KEYWORD
    && Spaces(s, p + |KEYWORD|, open)
    && s[open] == '('
    && NoComma(s, open + 1, comma)
    && s[comma] == ','
    && Spaces(s, comma + 1, whole)
    && whole < dot && Digits(s, whole, dot)
    && s[dot] == '.'
    && dot + 1 < e && Digits(s, dot + 1, e)
  }

  ghost predicate RegexSearch(s: string) {
    exists p, open, comma, whole, dot, e :: RegexMatch(s, p, open, comma, whole, dot, e)
  }

  /** The matcher answers exactly as the regular expression does. */
  lemma MatcherIsRegex(s: string)
    ensures HasHardCodedLotSize(s) <==> RegexSearch(s)
  {
    if HasHardCodedLotSize(s) {
      var p: nat :| p <= |s| && MatchesAt(s, p);
      var open, comma, whole, dot := FoundIsRegexMatch(s, p);
      assert RegexMatch(s, p, open, comma, whole, dot, dot + 2);
    }
    if RegexSearch(s) {
      var p, open, comma, whole, dot, e :| RegexMatch(s, p, open, comma, whole, dot, e);
      RegexMatchIsFound(s, p, open, comma, whole, dot, e);
    }
  }

  /** What the matcher finds at `p` is a split the regular expression admits. */
  lemma FoundIsRegexMatch(s: string, p: nat) returns (open: nat, comma: nat, whole: nat, dot: nat)
    requires MatchesAt(s, p)
    ensures RegexMatch(s, p, open, comma, whole, dot, dot + 2)
  {
    open := SkipSpaces(s, p + |KEYWORD|);
    comma := FirstComma(s, open + 1);
    whole := SkipSpaces(s, comma + 1);
    dot := SkipDigits(s, whole);
    assert Digits(s, dot + 1, dot + 2);
  }

  /** Any split the regular expression admits is the one the matcher finds. */
  lemma RegexMatchIsFound(s: string, p: nat, open: nat, comma: nat, whole: nat, dot: nat, e: nat)
    requires RegexMatch(s, p, open, comma, whole, dot, e)
    ensures p <= |s| && MatchesAt(s, p)
  {
    SkipSpacesStops(s, p + |KEYWORD|, open);
    FirstCommaStops(s, open + 1, comma);
    SkipSpacesStops(s, comma + 1, whole);
    SkipDigitsStops(s, whole, dot);
  }

  lemma {:induction false} SkipSpacesStops(s: string, i: nat, j: nat)
    requires i <= j < |s| && Spaces(s, i, j) && !IsSpace(s[j])
    ensures SkipSpaces(s, i) == j
    decreases j - i
  {
    if i < j {
      SkipSpacesStops(s, i + 1, j);
    }
  }

  lemma {:induction false} SkipDigitsStops(s: string, i: nat, j: nat)
    requires i <= j < |s| && Digits(s, i, j) && !IsDigit(s[j])
    ensures SkipDigits(s, i) == j
    decreases j - i
  {
    if i < j {
      SkipDigitsStops(s, i + 1, j);
    }
  }

  lemma {:induction false} FirstCommaStops(s: string, i: nat, j: nat)
    requires i <= j < |s| && NoComma(s, i, j) && s[j] == ','
    ensures FirstComma(s, i) == j
    decreases j - i
  {
    if i < j {
      FirstCommaStops(s, i + 1, j);
    }
  }
}
