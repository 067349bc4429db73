/** What the filter validator and its advisory output promise, proved of the rule catalog. */
module FilterProperties {
  import opened Wrappers
  import opened Text
  import opened Configuration
  import opened DateFormat
  import opened FilterValidation

  // --- the missing `filters` section -----------------------------------

  /** Without `filters` there is exactly one error and no warning, whatever `trading_hours` holds. */
  lemma MissingFiltersShortCircuits(config: Config, year: nat, hours: Option<TradingHours>)
    requires config.filters.None?
    ensures Validate(config, year) == Findings([MissingFiltersSection], [])
    ensures Validate(config.(tradingHours := hours), year) == Validate(config, year)
  {
  }

  // --- disabled filters are silent -------------------------------------

  /** A disabled spread filter adds nothing, whatever its fields hold. */
  lemma SpreadDisabledIsSilent(config: Config, year: nat, points: Option<real>, multiplier: Option<real>)
    requires config.filters.Some? && !config.filters.value.SpreadEnabled()
    ensures SpreadRules(config.filters.value) == NONE
    ensures var f := config.filters.value.(maxSpreadPoints := points, normalSpreadMultiplier := multiplier);
      Validate(config.(filters := Some(f)), year) == Validate(config, year)
  {
  }

  /** A disabled volatility filter adds nothing, whatever its fields hold. */
  lemma VolatilityDisabledIsSilent(config: Config, year: nat, period: Option<real>, lo: Option<real>, hi: Option<real>)
    requires config.filters.Some? && !config.filters.value.VolatilityEnabled()
    ensures VolatilityRules(config.filters.value) == NONE
    ensures var f := config.filters.value.(atrPeriod := period, minAtrValue := lo, maxAtrValue := hi);
      Validate(config.(filters := Some(f)), year) == Validate(config, year)
  {
  }

  /** A disabled holiday filter adds nothing, whatever its list holds. */
  lemma HolidayDisabledIsSilent(config: Config, year: nat, holidays: Option<seq<string>>)
    requires config.filters.Some? && !config.filters.value.HolidayEnabled()
    ensures HolidayRules(config.filters.value, year) == NONE
    ensures var f := config.filters.value.(holidays := holidays);
      Validate(config.(filters := Some(f)), year) == Validate(config, year)
  {
  }

  // --- spread ----------------------------------------------------------

  /**
   * `max_spread_points` has exactly one outcome: an error when `<= 0`
   * (the default 0 included), otherwise a warning when `> 100`; the
   * multiplier warns exactly when it lies outside [1.5, 5.0].
   */
  lemma SpreadOutcomes(f: Filters)
    requires f.SpreadEnabled()
    ensures var r, points, m := SpreadRules(f), f.MaxSpread(), f.SpreadMultiplier();
      && r.errors == (if points <= 0.0 then [MaxSpreadNotPositive] else [])
      && ((exists w :: w in r.warnings && w.MaxSpreadTooLarge?) <==> points > 100.0)
      && (points > 100.0 ==> MaxSpreadTooLarge(points) in r.warnings)
      && ((forall w :: w in r.warnings ==> !w.MultiplierTooSmall? && !w.MultiplierTooLarge?) <==> 1.5 <= m <= 5.0)
      && (f.maxSpreadPoints.None? ==> r.errors == [MaxSpreadNotPositive])
  {
    var r, points, m := SpreadRules(f), f.MaxSpread(), f.SpreadMultiplier();
    var mw := if m < 1.5 then [MultiplierTooSmall(m)] else if m > 5.0 then [MultiplierTooLarge(m)] else [];
    assert forall w :: w in mw ==> !w.MaxSpreadTooLarge?;
    if points > 100.0 {
      assert MaxSpreadTooLarge(points) in r.warnings;
    } else {
      assert r.warnings == mw;
    }
    if m < 1.5 {
      assert MultiplierTooSmall(m) in r.warnings;
    } else if m > 5.0 {
      assert MultiplierTooLarge(m) in r.warnings;
    }
  }

  /** Boundary values: 0 is an error, a tiny positive value is not. */
  lemma SpreadBoundaries(f: Filters)
    requires f.SpreadEnabled()
    ensures f.MaxSpread() == 0.0 ==> SpreadRules(f).errors == [MaxSpreadNotPositive]
    ensures f.MaxSpread() == 0.0001 ==> SpreadRules(f).errors == []
  {
  }

  // --- volatility ------------------------------------------------------

  /**
   * `atr_period <= 0` is an error and no warning, 1 to 9 (any value below
   * 10) a warning, 10 and above nothing; each ATR bound check fires on its
   * own condition.
   */
  lemma VolatilityOutcomes(f: Filters)
    requires f.VolatilityEnabled()
    ensures var r, period, lo, hi := VolatilityRules(f), f.AtrPeriod(), f.MinAtr(), f.MaxAtr();
      && (AtrPeriodNotPositive in r.errors <==> period <= 0.0)
      && r.warnings == (if 0.0 < period < 10.0 then [AtrPeriodTooSmall(period)] else [])
      && (MinAtrNotPositive in r.errors <==> lo <= 0.0)
      && (MaxAtrNotPositive in r.errors <==> hi <= 0.0)
      && (MinAtrNotBelowMax in r.errors <==> lo >= hi)
      && (lo == hi ==> MinAtrNotBelowMax in r.errors)
  {
  }

  /** Both ATR bounds missing (so both 0): exactly the three bound errors after the period's. */
  lemma MissingAtrBoundsGiveThreeErrors(f: Filters)
    requires f.VolatilityEnabled() && f.minAtrValue.None? && f.maxAtrValue.None?
    ensures VolatilityRules(f).errors ==
      (if f.AtrPeriod() <= 0.0 then [AtrPeriodNotPositive] else []) +
      [MinAtrNotPositive, MaxAtrNotPositive, MinAtrNotBelowMax]
  {
  }

  // --- holidays --------------------------------------------------------

  /** An empty (or missing) list gives exactly one warning and no error. */
  lemma EmptyHolidayListWarnsOnce(f: Filters, year: nat)
    requires f.HolidayEnabled() && f.HolidayList() == []
    ensures HolidayRules(f, year) == Findings([], [HolidayListEmpty])
  {
  }

  /** Format errors of a list split in two are those of each part, in order. */
  lemma {:induction false} FormatErrorsAppend(a: seq<string>, b: seq<string>)
    ensures FormatErrors(a + b) == FormatErrors(a) + FormatErrors(b)
    decreases |b|
  {
    if b == [] {
      assert a + b == a;
    } else {
      var b' := b[..|b| - 1];
      assert (a + b)[..|a + b| - 1] == a + b';
      assert (a + b)[|a + b| - 1] == b[|b| - 1];
      FormatErrorsAppend(a, b');
    }
  }

  /** A single entry gives one error when strptime rejects it and none otherwise. */
  lemma FormatErrorsOfOne(holiday: string)
    ensures FormatErrors([holiday]) == if IsValidDate(holiday) then [] else [BadHolidayFormat(holiday)]
  {
    assert [holiday][..0] == [];
  }

  /** An entry has a format error iff it is in the list and strptime rejects it. */
  lemma {:induction false} FormatErrorsNameBadEntries(holidays: seq<string>, h: string)
    ensures BadHolidayFormat(h) in FormatErrors(holidays) <==> h in holidays && !IsValidDate(h)
  {
    if holidays != [] {
      var init := holidays[..|holidays| - 1];
      var last := holidays[|holidays| - 1];
      assert holidays == init + [last];
      FormatErrorsNameBadEntries(init, h);
    }
  }

  /** On a non-empty list: the format errors, then the year warning iff no entry starts with `str(year)`. */
  lemma HolidayOutcomes(f: Filters, year: nat)
    requires f.HolidayEnabled() && f.HolidayList() != []
    ensures var r, hs := HolidayRules(f, year), f.HolidayList();
      && r.errors == FormatErrors(hs)
      && (NoCurrentYearHoliday(year) in r.warnings <==> forall h :: h in hs ==> !IsPrefix(DecimalString(year), h))
      && |r.warnings| <= 1
  {
  }

  // --- trading hours and news ------------------------------------------

  predicate IsHoursError(e: ConfigError) {
    e.FridayCloseOutOfRange? || e.MondayOpenOutOfRange? || e.NewsBeforeNegative? || e.NewsAfterNegative?
  }

  predicate IsHoursWarning(w: ConfigWarning) {
    w.FridayCloseEarly? || w.NewsBeforeShort? || w.NewsAfterShort?
  }

  /** The trading-hour rules run only when both `filters` and `trading_hours` are present. */
  lemma HoursRulesNeedTheirSection(config: Config, year: nat)
    requires config.filters.None? || config.tradingHours.None?
    ensures forall e :: e in Validate(config, year).errors ==> !IsHoursError(e)
    ensures forall w :: w in Validate(config, year).warnings ==> !IsHoursWarning(w)
  {
    if config.filters.Some? {
      var f := config.filters.value;
      var s, v, h := SpreadRules(f), VolatilityRules(f), HolidayRules(f, year);
      assert Validate(config, year) == s.Then(v).Then(h).Then(NONE);
      DomainsHaveNoHoursFindings(f, year);
      ThenKeepsNoHoursFindings(s, v);
      ThenKeepsNoHoursFindings(s.Then(v), h);
      ThenKeepsNoHoursFindings(s.Then(v).Then(h), NONE);
    }
  }

  lemma DomainsHaveNoHoursFindings(f: Filters, year: nat)
    ensures NoHoursFindings(SpreadRules(f))
    ensures NoHoursFindings(VolatilityRules(f))
    ensures NoHoursFindings(HolidayRules(f, year))
  {
  }

  lemma ThenKeepsNoHoursFindings(a: Findings, b: Findings)
    requires NoHoursFindings(a) && NoHoursFindings(b)
    ensures NoHoursFindings(a.Then(b))
  {
  }

  /** Neither list of `r` holds a trading-hour finding. */
  ghost predicate NoHoursFindings(r: Findings) {
    && (forall e :: e in r.errors ==> !IsHoursError(e))
    && (forall w :: w in r.warnings ==> !IsHoursWarning(w))
  }

  /**
   * When both are present, the trading-hour findings come last: in either
   * list, once a trading-hour or news finding appears, every later finding
   * is one too, and the trading-hour block's own findings end each list.
   */
  lemma HoursRulesComeLast(config: Config, year: nat)
    requires config.filters.Some? && config.tradingHours.Some?
    ensures var r := Validate(config, year);
      && (forall i, j :: 0 <= i < j < |r.errors| && IsHoursError(r.errors[i]) ==> IsHoursError(r.errors[j]))
      && (forall i, j :: 0 <= i < j < |r.warnings| && IsHoursWarning(r.warnings[i]) ==> IsHoursWarning(r.warnings[j]))
    ensures var r, h := Validate(config, year), HoursRules(config.tradingHours.value, config.filters.value);
      && |h.errors| <= |r.errors| && r.errors[|r.errors| - |h.errors|..] == h.errors
      && |h.warnings| <= |r.warnings| && r.warnings[|r.warnings| - |h.warnings|..] == h.warnings
  {
    var f, hours := config.filters.value, config.tradingHours.value;
    var s, v, hol := SpreadRules(f), VolatilityRules(f), HolidayRules(f, year);
    var before, h := s.Then(v).Then(hol), HoursRules(hours, f);
    DomainsHaveNoHoursFindings(f, year);
    ThenKeepsNoHoursFindings(s, v);
    ThenKeepsNoHoursFindings(s.Then(v), hol);
    HoursFindingsAreAllHours(hours, f);
    var r := Validate(config, year);
    assert r == before.Then(h);
    assert r.errors[|before.errors|..] == h.errors;
    assert r.warnings[|before.warnings|..] == h.warnings;
    assert forall k :: 0 <= k < |before.errors| ==> r.errors[k] == before.errors[k] && before.errors[k] in before.errors;
    forall i, j | 0 <= i < j < |r.errors| && IsHoursError(r.errors[i])
      ensures IsHoursError(r.errors[j])
    {
      assert r.errors[j] == h.errors[j - |before.errors|];
    }
    assert forall k :: 0 <= k < |before.warnings| ==> r.warnings[k] == before.warnings[k] && before.warnings[k] in before.warnings;
    forall i, j | 0 <= i < j < |r.warnings| && IsHoursWarning(r.warnings[i])
      ensures IsHoursWarning(r.warnings[j])
    {
      assert r.warnings[j] == h.warnings[j - |before.warnings|];
    }
  }

  /** Everything the trading-hour block reports is a trading-hour or news finding. */
  lemma HoursFindingsAreAllHours(h: TradingHours, f: Filters)
    ensures forall k :: 0 <= k < |HoursRules(h, f).errors| ==> IsHoursError(HoursRules(h, f).errors[k])
    ensures forall k :: 0 <= k < |HoursRules(h, f).warnings| ==> IsHoursWarning(HoursRules(h, f).warnings[k])
  {
  }

  /** Each hour outside [0, 23] is one error; a Friday close before 18 also warns. */
  lemma HourOutcomes(h: TradingHours, f: Filters)
    ensures var r, friday, monday := HoursRules(h, f), h.FridayClose(), h.MondayOpen();
      && (FridayCloseOutOfRange(friday) in r.errors <==> friday < 0.0 || friday > 23.0)
      && (MondayOpenOutOfRange(monday) in r.errors <==> monday < 0.0 || monday > 23.0)
      && (FridayCloseEarly(friday) in r.warnings <==> friday < 18.0)
      && (friday < 0.0 ==> FridayCloseOutOfRange(friday) in r.errors && FridayCloseEarly(friday) in r.warnings)
  {
  }

  /** Without `news_filter_enabled` the news rules add nothing; with it, a negative value both errs and warns, and 15 or more adds nothing. */
  lemma NewsOutcomes(h: TradingHours, f: Filters)
    ensures !f.NewsEnabled() ==> NewsRules(h, f) == NONE
    ensures f.NewsEnabled() ==>
      var r, before, after := NewsRules(h, f), h.NewsBefore(), h.NewsAfter();
      && (before < 0.0 ==> NewsBeforeNegative in r.errors && NewsBeforeShort(before) in r.warnings)
      && (after < 0.0 ==> NewsAfterNegative in r.errors && NewsAfterShort(after) in r.warnings)
      && (before >= 15.0 ==> NewsBeforeNegative !in r.errors && forall w :: w in r.warnings ==> !w.NewsBeforeShort?)
      && (after >= 15.0 ==> NewsAfterNegative !in r.errors && forall w :: w in r.warnings ==> !w.NewsAfterShort?)
  {
  }

  // --- scenarios -------------------------------------------------------

  /** `{filters: {spread_filter_enabled: true, max_spread_points: 150, normal_spread_multiplier: 1.2}}` */
  lemma SpreadScenario(year: nat)
    ensures var f := NO_FILTERS.(spreadFilterEnabled := Some(true), maxSpreadPoints := Some(150.0), normalSpreadMultiplier := Some(1.2));
      Validate(Config(None, Some(f), None), year) == Findings([], [MaxSpreadTooLarge(150.0), MultiplierTooSmall(1.2)])
  {
  }

  /** `{filters: {volatility_filter_enabled: true, atr_period: 0, min_atr_value: 5, max_atr_value: 2}}` */
  lemma VolatilityScenario(year: nat)
    ensures var f := NO_FILTERS.(volatilityFilterEnabled := Some(true), atrPeriod := Some(0.0), minAtrValue := Some(5.0), maxAtrValue := Some(2.0));
      Validate(Config(None, Some(f), None), year) == Findings([AtrPeriodNotPositive, MinAtrNotBelowMax], [])
  {
  }

  // --- advisory output -------------------------------------------------

  /** Four lines in the fixed order; a holiday is configured iff its exact `"{year}-MM-DD"` is listed. */
  lemma CoverageReport(config: Config, year: nat)
    ensures var r := Coverage(config, year);
      if config.filters.None? || config.filters.value.HolidayList() == [] then r == []
      else
        && |r| == 4
        && r[0].name == "New Year" && r[1].name == "Independence Day"
        && r[2].name == "Thanksgiving" && r[3].name == "Christmas"
        && forall k :: 0 <= k < 4 ==>
             r[k].date == FullDate(year, COMMON_HOLIDAYS[k].monthDay) &&
             (r[k].configured <==> r[k].date in config.filters.value.HolidayList())
  {
  }

  /** A reference holiday found in the list means this year is covered: no current-year warning. */
  lemma CoveredHolidaySilencesYearWarning(config: Config, year: nat, k: nat)
    requires config.filters.Some? && config.filters.value.HolidayEnabled()
    requires k < |Coverage(config, year)| && Coverage(config, year)[k].configured
    ensures NoCurrentYearHoliday(year) !in Validate(config, year).warnings
  {
    var f := config.filters.value;
    var date := Coverage(config, year)[k].date;
    assert date == DecimalString(year) + ("-" + COMMON_HOLIDAYS[k].monthDay);
    assert date[..|DecimalString(year)|] == DecimalString(year);
    assert HasYearHoliday(f.HolidayList(), year);
    var v := Validate(config, year);
    assert NoCurrentYearHoliday(year) !in HolidayRules(f, year).warnings;
    assert NoCurrentYearHoliday(year) !in SpreadRules(f).warnings + VolatilityRules(f).warnings;
    match config.tradingHours {
      case None =>
      case Some(h) => assert NoCurrentYearHoliday(year) !in HoursRules(h, f).warnings;
    }
  }

  /** In a four-digit year the reference dates themselves pass the format check. */
  lemma ReferenceDatesAreValid(year: nat, k: nat)
    requires 1000 <= year <= 9999 && k < |COMMON_HOLIDAYS|
    ensures IsValidDate(FullDate(year, COMMON_HOLIDAYS[k].monthDay))
  {
    FourDigitYear(year);
    DecimalRoundTrip(year);
    var md := COMMON_HOLIDAYS[k].monthDay;
    assert md == "01-01" || md == "07-04" || md == "11-28" || md == "12-25";
    PaddedDateValid(DecimalString(year), md);
  }

  /** The suggestion blocks: 4, 3 and 3 lines, each present iff its filter is enabled. */
  lemma SuggestionBlocks(config: Config)
    ensures var r, f := Suggestions(config), config.FiltersOrEmpty();
      && |r| == (if f.SpreadEnabled() then 4 else 0) + (if f.VolatilityEnabled() then 3 else 0) + (if f.NewsEnabled() then 3 else 0)
      && (SpreadEnabledNote in r <==> f.SpreadEnabled())
      && (VolatilityEnabledNote in r <==> f.VolatilityEnabled())
      && (NewsEnabledNote in r <==> f.NewsEnabled())
      && (f.SpreadEnabled() ==> r[..4] == SPREAD_ADVICE)
  {
  }
}
