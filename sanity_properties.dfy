/** What the sanity checker promises, proved of its specification functions. */
module SanityProperties {
  import opened Wrappers
  import opened Text
  import opened Configuration
  import opened OrderSendPattern
  import opened SanityChecks

  // --- the parameters file ---------------------------------------------

  /** A missing parameters file is exactly one error and no risk warning. */
  lemma MissingParamsIsOneError(root: Project)
    requires root.params.None?
    ensures ConfigErrors(root.params) == [MissingParamsFile]
    ensures ConfigWarnings(root.params) == []
  {
  }

  /** The risk thresholds are strict: above 0.5 % per trade, above 10 % drawdown; a missing value is 0. */
  lemma RiskThresholds(config: Config)
    ensures var w, risk := ConfigWarnings(Some(config)), config.RiskOrEmpty();
      && (RiskPerTradeTooHigh(risk.RiskPerTrade()) in w <==> risk.RiskPerTrade() > 0.5)
      && (MaxDrawdownTooHigh(risk.MaxDrawdown()) in w <==> risk.MaxDrawdown() > 10.0)
      && (forall x :: x in w ==> x == RiskPerTradeTooHigh(risk.RiskPerTrade()) || x == MaxDrawdownTooHigh(risk.MaxDrawdown()))
      && (risk.riskPerTradePercent.None? && risk.maxDrawdownPercent.None? ==> w == [])
      && (risk.RiskPerTrade() == 0.5 && risk.MaxDrawdown() == 10.0 ==> w == [])
  {
  }

  // --- the per-file rules ----------------------------------------------

  /** The warnings of a file list split in two are those of each part, in order. */
  lemma {:induction false} RuleWarningsAppend(rule: FileRule, a: seq<SourceFile>, b: seq<SourceFile>)
    ensures RuleWarnings(rule, a + b) == RuleWarnings(rule, a) + RuleWarnings(rule, b)
    decreases |b|
  {
    if b == [] {
      assert a + b == a;
    } else {
      var b' := b[..|b| - 1];
      assert (a + b)[..|a + b| - 1] == a + b';
      assert (a + b)[|a + b| - 1] == b[|b| - 1];
      RuleWarningsAppend(rule, a, b');
    }
  }

  /** A single file gives one warning when the rule flags it and none otherwise. */
  lemma RuleWarningsOfOne(rule: FileRule, file: SourceFile)
    ensures RuleWarnings(rule, [file]) == if Fires(rule, file.content) then [FileWarning(rule, file.name)] else []
  {
    assert [file][..0] == [];
  }

  /** A file name is warned about iff some file of that name is flagged by the rule. */
  lemma {:induction false} RuleWarningsNameFlaggedFiles(rule: FileRule, files: seq<SourceFile>, name: string)
    ensures FileWarning(rule, name) in RuleWarnings(rule, files) <==>
      exists f :: f in files && f.name == name && Fires(rule, f.content)
  {
    if files != [] {
      var init := files[..|files| - 1];
      assert files == init + [files[|files| - 1]];
      RuleWarningsNameFlaggedFiles(rule, init, name);
    }
  }

  /** The hard-coded lot-size rule fires iff the text contains a match of the regular expression. */
  lemma HardCodedRuleIsRegexSearch(content: string)
    ensures Fires(HardCodedLotSize, content) <==> RegexSearch(content)
  {
    MatcherIsRegex(content);
  }

  /** The repainting rule fires iff neither `IndicatorCounted()` nor `prev_calculated` occurs anywhere. */
  lemma RepaintingRuleMeaning(content: string)
    ensures Fires(MissingIncrementalCalculation, content) <==>
      (forall i: nat :: !OccursAt(content, "IndicatorCounted()", i)) &&
      (forall i: nat :: !OccursAt(content, "prev_calculated", i))
  {
    ContainsIff(content, "IndicatorCounted()");
    ContainsIff(content, "prev_calculated");
  }

  /** The logging rule fires iff `OrderSend` occurs and `Print` occurs nowhere in the file. */
  lemma LoggingRuleMeaning(content: string)
    ensures Fires(OrderSendWithoutLogging, content) <==>
      (exists i: nat :: OccursAt(content, "OrderSend", i)) &&
      (forall i: nat :: !OccursAt(content, "Print", i))
  {
    ContainsIff(content, "OrderSend");
    ContainsIff(content, "Print");
  }

  // --- missing directories and the verdict -----------------------------

  /** Without `src` the three scans add nothing: the warnings are the parameters check's alone. */
  lemma MissingSourceTreeIsSilent(root: Project)
    requires root.src.None?
    ensures AllWarnings(root) == ConfigWarnings(root.params)
  {
  }

  /** Without `src/indicators` the repainting scan adds nothing. */
  lemma MissingIndicatorsAreSilent(root: Project)
    requires root.src.Some? && root.src.value.indicators.None?
    ensures AllWarnings(root) ==
      ConfigWarnings(root.params) +
      RuleWarnings(HardCodedLotSize, SourceFiles(root)) +
      RuleWarnings(OrderSendWithoutLogging, SourceFiles(root))
  {
  }

  /** The scans contribute at most one warning per rule and file. */
  lemma WarningsBound(root: Project)
    ensures |AllWarnings(root)| <= 2 + 2 * |SourceFiles(root)| + |IndicatorFiles(root)|
  {
  }

  // --- scenarios -------------------------------------------------------

  /** A string without the first character of `w` does not contain `w`. */
  lemma {:induction false} FirstCharAbsent(s: string, w: string)
    requires |w| > 0 && forall k :: 0 <= k < |s| ==> s[k] != w[0]
    ensures !Contains(s, w)
    decreases |s|
  {
    if |s| > 0 {
      assert s[0] != w[0];
      FirstCharAbsent(s[1..], w);
    }
  }

  /** An order placed without any logging call is one warning. */
  lemma UnloggedOrderWarns()
    ensures RuleWarnings(OrderSendWithoutLogging, [SourceFile("ea.mq4", "OrderSend(t);")]) ==
      [FileWarning(OrderSendWithoutLogging, "ea.mq4")]
  {
    var content := "OrderSend(t);";
    assert IsPrefix("OrderSend", content);
    FirstCharAbsent(content, "Print");
    RuleWarningsOfOne(OrderSendWithoutLogging, SourceFile("ea.mq4", content));
  }

  /** The same order followed by a `Print` call is no warning. */
  lemma LoggedOrderIsSilent()
    ensures RuleWarnings(OrderSendWithoutLogging, [SourceFile("ea.mq4", "OrderSend(t); Print(t);")]) == []
  {
    var content := "OrderSend(t); Print(t);";
    assert OccursAt(content, "Print", 14);
    ContainsIff(content, "Print");
    RuleWarningsOfOne(OrderSendWithoutLogging, SourceFile("ea.mq4", content));
  }

  /**
   * The pattern reads the argument after the first comma, which in an MQL4
   * call `OrderSend(symbol, cmd, volume, ...)` is the command: a decimal
   * in that place is flagged...
   */
  lemma DecimalSecondArgumentIsFlagged()
    ensures HasHardCodedLotSize("OrderSend(s, 0.1")
  {
    var flagged := "OrderSend(s, 0.1";
    assert flagged[..9] == KEYWORD;
    SkipSpacesStops(flagged, 9, 9);
    FirstCommaStops(flagged, 10, 11);
    SkipSpacesStops(flagged, 12, 13);
    SkipDigitsStops(flagged, 13, 14);
    assert MatchesAt(flagged, 0);
  }

  /** ...while the same decimal as the third argument goes unflagged. */
  lemma DecimalThirdArgumentIsNotFlagged()
    ensures !HasHardCodedLotSize("OrderSend(s, c, 0.1")
  {
    var standard := "OrderSend(s, c, 0.1";
    assert forall k :: 0 < k < |standard| ==> standard[k] != 'O';
    forall p: nat | p <= |standard|
      ensures !MatchesAt(standard, p)
    {
      if p == 0 {
        ThirdArgumentCallFailsAtStart();
      } else {
        OnlyTheFirstLetterStartsAMatch(standard, p);
      }
    }
  }

  /** At the call's own start the pattern takes `c` for the lot size, and fails. */
  lemma ThirdArgumentCallFailsAtStart()
    ensures !MatchesAt("OrderSend(s, c, 0.1", 0)
  {
    var standard := "OrderSend(s, c, 0.1";
    SkipSpacesStops(standard, 9, 9);
    FirstCommaStops(standard, 10, 11);
    SkipSpacesStops(standard, 12, 13);
    SkipDigitsStops(standard, 13, 13);
  }

  /** A match begins with the keyword's first letter, so a text whose only 'O' is its first letter matches only at 0. */
  lemma OnlyTheFirstLetterStartsAMatch(s: string, p: nat)
    requires 0 < p && forall k :: 0 < k < |s| ==> s[k] != 'O'
    ensures !MatchesAt(s, p)
  {
    if p + |KEYWORD| <= |s| {
      assert s[p..p + |KEYWORD|][0] == s[p] != 'O';
    }
  }
}
