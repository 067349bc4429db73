/**
 * The trade-filter configuration validator: the cross-field rules that
 * classify a configuration's problems as errors or warnings, the holiday
 * coverage report, the parameter suggestions, and the process verdict.
 */
module FilterValidation {
  import opened Wrappers
  import opened Text
  import opened Configuration
  import opened DateFormat

  datatype ConfigError =
    | MissingFiltersSection
    | MaxSpreadNotPositive
    | AtrPeriodNotPositive
    | MinAtrNotPositive
    | MaxAtrNotPositive
    | MinAtrNotBelowMax
    | BadHolidayFormat(holiday: string)
    | FridayCloseOutOfRange(hour: real)
    | MondayOpenOutOfRange(hour: real)
    | NewsBeforeNegative
    | NewsAfterNegative

  datatype ConfigWarning =
    | MaxSpreadTooLarge(points: real)
    | MultiplierTooSmall(multiplier: real)
    | MultiplierTooLarge(multiplier: real)
    | AtrPeriodTooSmall(period: real)
    | HolidayListEmpty
    | NoCurrentYearHoliday(year: nat)
    | FridayCloseEarly(hour: real)
    | NewsBeforeShort(minutes: real)
    | NewsAfterShort(minutes: real)

  /** The two ordered lists a validation returns. */
  datatype Findings = Findings(errors: seq<ConfigError>, warnings: seq<ConfigWarning>) {
    /** These findings, then `other`'s, each list in its own order. */
    function Then(other: Findings): Findings {
      Findings(errors + other.errors, warnings + other.warnings)
    }
  }

  lemma ThenAssociates(a: Findings, b: Findings, c: Findings)
    ensures a.Then(b).Then(c) == a.Then(b.Then(c))
  {
    assert a.errors + b.errors + c.errors == a.errors + (b.errors + c.errors);
    assert a.warnings + b.warnings + c.warnings == a.warnings + (b.warnings + c.warnings);
  }

  const NONE := Findings([], [])


  // ---------------------------------------------------------------------
  // The rule catalog, one function per domain, in the validator's order.
  // ---------------------------------------------------------------------

  /** Spread rules, when `spread_filter_enabled`. */
  function SpreadRules(f: Filters): Findings {
    if !f.SpreadEnabled() then NONE
    else
      var points, multiplier := f.MaxSpread(), f.SpreadMultiplier();
      Findings(
        if points <= 0.0 then [MaxSpreadNotPositive] else [],
        (if points <= 0.0 then [] else if points > 100.0 then [MaxSpreadTooLarge(points)] else []) +
        (if multiplier < 1.5 then [MultiplierTooSmall(multiplier)]
         else if multiplier > 5.0 then [MultiplierTooLarge(multiplier)]
         else []))
  }

  /** ATR rules, when `volatility_filter_enabled`. */
  function VolatilityRules(f: Filters): Findings {
    if !f.VolatilityEnabled() then NONE
    else
      var period, lo, hi := f.AtrPeriod(), f.MinAtr(), f.MaxAtr();
      Findings(
        (if period <= 0.0 then [AtrPeriodNotPositive] else []) +
        (if lo <= 0.0 then [MinAtrNotPositive] else []) +
        (if hi <= 0.0 then [MaxAtrNotPositive] else []) +
        (if lo >= hi then [MinAtrNotBelowMax] else []),
        if 0.0 < period < 10.0 then [AtrPeriodTooSmall(period)] else [])
  }

  /** One format error per holiday strptime rejects, in list order. */
  function FormatErrors(holidays: seq<string>): (r: seq<ConfigError>)
    ensures |r| <= |holidays|
    ensures forall e :: e in r ==> e.BadHolidayFormat?
  {
    if holidays == [] then []
    else
      var last := holidays[|holidays| - 1];
      FormatErrors(holidays[..|holidays| - 1]) + (if IsValidDate(last) then [] else [BadHolidayFormat(last)])
  }

  /** `any(holiday.startswith(str(year)) for holiday in holidays)` */
  predicate HasYearHoliday(holidays: seq<string>, year: nat) {
    exists h :: h in holidays && IsPrefix(DecimalString(year), h)
  }

  /** Holiday rules, when `holiday_filter_enabled`. */
  function HolidayRules(f: Filters, year: nat): Findings {
    if !f.HolidayEnabled() then NONE
    else if f.HolidayList() == [] then Findings([], [HolidayListEmpty])
    else
      Findings(
        FormatErrors(f.HolidayList()),
        if HasYearHoliday(f.HolidayList(), year) then [] else [NoCurrentYearHoliday(year)])
  }

  /** News-avoidance rules, when `news_filter_enabled`. */
  function NewsRules(h: TradingHours, f: Filters): Findings {
    if !f.NewsEnabled() then NONE
    else
      var before, after := h.NewsBefore(), h.NewsAfter();
      Findings(
        (if before < 0.0 then [NewsBeforeNegative] else []) +
        (if after < 0.0 then [NewsAfterNegative] else []),
        (if before < 15.0 then [NewsBeforeShort(before)] else []) +
        (if after < 15.0 then [NewsAfterShort(after)] else []))
  }

  /** Trading-hour rules, then the news rules, when `trading_hours` is present. */
  function HoursRules(h: TradingHours, f: Filters): Findings {
    var friday, monday := h.FridayClose(), h.MondayOpen();
    Findings(
      (if friday < 0.0 || friday > 23.0 then [FridayCloseOutOfRange(friday)] else []) +
      (if monday < 0.0 || monday > 23.0 then [MondayOpenOutOfRange(monday)] else []),
      if friday < 18.0 then [FridayCloseEarly(friday)] else []
    ).Then(NewsRules(h, f))
  }

  /** All findings for `config` in the year `year`: the shape of the validator's output. */
  function Validate(config: Config, year: nat): Findings {
    match config.filters
    case None => Findings([MissingFiltersSection], [])
    case Some(f) =>
      SpreadRules(f)
        .Then(VolatilityRules(f))
        .Then(HolidayRules(f, year))
        .Then(match config.tradingHours
              case None => NONE
              case Some(h) => HoursRules(h, f))
  }

  /**
   * `validate_filters_config`: builds both lists by appending, rule by rule;
   * a missing `filters` section returns before any rule runs. Each step
   * below is one block of the validator and appends to both lists.
   */
  method ValidateFiltersConfig(config: Config, currentYear: nat)
    returns (errors: seq<ConfigError>, warnings: seq<ConfigWarning>)
    ensures Findings(errors, warnings) == Validate(config, currentYear)
  {
    errors, warnings := [], [];
    if config.filters.None? {
      errors := errors + [MissingFiltersSection];
      return;
    }
    var filters := config.filters.value;
    ghost var spread, volatility, holiday := SpreadRules(filters), VolatilityRules(filters), HolidayRules(filters, currentYear);
    errors, warnings := CheckSpread(filters, errors, warnings);
    assert Findings(errors, warnings) == spread;
    errors, warnings := CheckVolatility(filters, errors, warnings);
    assert Findings(errors, warnings) == spread.Then(volatility);
    errors, warnings := CheckHolidays(filters, currentYear, errors, warnings);
    assert Findings(errors, warnings) == spread.Then(volatility).Then(holiday);
    if config.tradingHours.Some? {
      errors, warnings := CheckTradingHours(config.tradingHours.value, filters, errors, warnings);
    }
  }

  /** The spread block of the validator. */
  method CheckSpread(filters: Filters, errors0: seq<ConfigError>, warnings0: seq<ConfigWarning>)
    returns (errors: seq<ConfigError>, warnings: seq<ConfigWarning>)
    ensures Findings(errors, warnings) == Findings(errors0, warnings0).Then(SpreadRules(filters))
  {
    errors, warnings := errors0, warnings0;
    if filters.SpreadEnabled() {
      var maxSpread := filters.MaxSpread();
      if maxSpread <= 0.0 {
        errors := errors + [MaxSpreadNotPositive];
      } else if maxSpread > 100.0 {
        warnings := warnings + [MaxSpreadTooLarge(maxSpread)];
      }
      ghost var w1 := warnings;
      var multiplier := filters.SpreadMultiplier();
      if multiplier < 1.5 {
        warnings := warnings + [MultiplierTooSmall(multiplier)];
      } else if multiplier > 5.0 {
        warnings := warnings + [MultiplierTooLarge(multiplier)];
      }
      ghost var p := if maxSpread <= 0.0 then [] else if maxSpread > 100.0 then [MaxSpreadTooLarge(maxSpread)] else [];
      ghost var m := if multiplier < 1.5 then [MultiplierTooSmall(multiplier)]
        else if multiplier > 5.0 then [MultiplierTooLarge(multiplier)] else [];
      assert w1 == warnings0 + p;
      assert warnings == w1 + m;
      assert warnings == warnings0 + (p + m);
    }
  }

  /** The ATR block of the validator: the three bound checks are independent. */
  method CheckVolatility(filters: Filters, errors0: seq<ConfigError>, warnings0: seq<ConfigWarning>)
    returns (errors: seq<ConfigError>, warnings: seq<ConfigWarning>)
    ensures Findings(errors, warnings) == Findings(errors0, warnings0).Then(VolatilityRules(filters))
  {
    errors, warnings := errors0, warnings0;
    if filters.VolatilityEnabled() {
      var atrPeriod := filters.AtrPeriod();
      if atrPeriod <= 0.0 {
        errors := errors + [AtrPeriodNotPositive];
      } else if atrPeriod < 10.0 {
        warnings := warnings + [AtrPeriodTooSmall(atrPeriod)];
      }
      ghost var e1 := errors;
      var minAtr, maxAtr := filters.MinAtr(), filters.MaxAtr();
      if minAtr <= 0.0 {
        errors := errors + [MinAtrNotPositive];
      }
      ghost var e2 := errors;
      if maxAtr <= 0.0 {
        errors := errors + [MaxAtrNotPositive];
      }
      ghost var e3 := errors;
      if minAtr >= maxAtr {
        errors := errors + [MinAtrNotBelowMax];
      }
      ghost var p, l, h, o := (if atrPeriod <= 0.0 then [AtrPeriodNotPositive] else []),
        (if minAtr <= 0.0 then [MinAtrNotPositive] else []),
        (if maxAtr <= 0.0 then [MaxAtrNotPositive] else []),
        (if minAtr >= maxAtr then [MinAtrNotBelowMax] else []);
      assert e1 == errors0 + p;
      assert e2 == e1 + l;
      assert e3 == e2 + h;
      assert errors == e3 + o;
      AppendFour(errors0, p, l, h, o);
    }
  }

  /** The holiday block of the validator: one pass over the list, then the year test. */
  method CheckHolidays(filters: Filters, currentYear: nat, errors0: seq<ConfigError>, warnings0: seq<ConfigWarning>)
    returns (errors: seq<ConfigError>, warnings: seq<ConfigWarning>)
    ensures Findings(errors, warnings) == Findings(errors0, warnings0).Then(HolidayRules(filters, currentYear))
  {
    errors, warnings := errors0, warnings0;
    if filters.HolidayEnabled() {
      var holidays := filters.HolidayList();
      if |holidays| == 0 {
        warnings := warnings + [HolidayListEmpty];
      } else {
        for i := 0 to |holidays|
          invariant errors == errors0 + FormatErrors(holidays[..i])
        {
          assert holidays[..i + 1][..i] == holidays[..i];
          if !IsValidDate(holidays[i]) {
            errors := errors + [BadHolidayFormat(holidays[i])];
          }
        }
        assert holidays[..|holidays|] == holidays;
        var hasCurrentYear := HasYearHoliday(holidays, currentYear);
        if !hasCurrentYear {
          warnings := warnings + [NoCurrentYearHoliday(currentYear)];
        }
      }
    }
  }

  /** The trading-hours block of the validator, ending with its news sub-block. */
  method CheckTradingHours(hours: TradingHours, filters: Filters, errors0: seq<ConfigError>, warnings0: seq<ConfigWarning>)
    returns (errors: seq<ConfigError>, warnings: seq<ConfigWarning>)
    ensures Findings(errors, warnings) == Findings(errors0, warnings0).Then(HoursRules(hours, filters))
  {
    errors, warnings := errors0, warnings0;
    var fridayClose, mondayOpen := hours.FridayClose(), hours.MondayOpen();
    if fridayClose < 0.0 || fridayClose > 23.0 {
      errors := errors + [FridayCloseOutOfRange(fridayClose)];
    }
    ghost var e1 := errors;
    if mondayOpen < 0.0 || mondayOpen > 23.0 {
      errors := errors + [MondayOpenOutOfRange(mondayOpen)];
    }
    if fridayClose < 18.0 {
      warnings := warnings + [FridayCloseEarly(fridayClose)];
    }
    ghost var f := if fridayClose < 0.0 || fridayClose > 23.0 then [FridayCloseOutOfRange(fridayClose)] else [];
    ghost var m := if mondayOpen < 0.0 || mondayOpen > 23.0 then [MondayOpenOutOfRange(mondayOpen)] else [];
    ghost var early := if fridayClose < 18.0 then [FridayCloseEarly(fridayClose)] else [];
    assert e1 == errors0 + f;
    assert errors == errors0 + (f + m);
    ghost var clock := Findings(f + m, early);
    assert Findings(errors, warnings) == Findings(errors0, warnings0).Then(clock);
    assert HoursRules(hours, filters) == clock.Then(NewsRules(hours, filters));
    errors, warnings := CheckNews(hours, filters, errors, warnings);
    ThenAssociates(Findings(errors0, warnings0), clock, NewsRules(hours, filters));
  }

  /** The news-avoidance sub-block of the trading-hours block. */
  method CheckNews(hours: TradingHours, filters: Filters, errors0: seq<ConfigError>, warnings0: seq<ConfigWarning>)
    returns (errors: seq<ConfigError>, warnings: seq<ConfigWarning>)
    ensures Findings(errors, warnings) == Findings(errors0, warnings0).Then(NewsRules(hours, filters))
  {
    errors, warnings := errors0, warnings0;
    if filters.NewsEnabled() {
      var minutesBefore, minutesAfter := hours.NewsBefore(), hours.NewsAfter();
      if minutesBefore < 0.0 {
        errors := errors + [NewsBeforeNegative];
      }
      ghost var e1 := errors;
      if minutesAfter < 0.0 {
        errors := errors + [NewsAfterNegative];
      }
      if minutesBefore < 15.0 {
        warnings := warnings + [NewsBeforeShort(minutesBefore)];
      }
      ghost var w1 := warnings;
      if minutesAfter < 15.0 {
        warnings := warnings + [NewsAfterShort(minutesAfter)];
      }
      ghost var eb := if minutesBefore < 0.0 then [NewsBeforeNegative] else [];
      ghost var ea := if minutesAfter < 0.0 then [NewsAfterNegative] else [];
      ghost var wb := if minutesBefore < 15.0 then [NewsBeforeShort(minutesBefore)] else [];
      ghost var wa := if minutesAfter < 15.0 then [NewsAfterShort(minutesAfter)] else [];
      assert e1 == errors0 + eb && errors == e1 + ea;
      assert errors == errors0 + (eb + ea);
      assert w1 == warnings0 + wb && warnings == w1 + wa;
      assert warnings == warnings0 + (wb + wa);
    }
  }

  // ---------------------------------------------------------------------
  // Advisory output: holiday coverage and parameter suggestions.
  // ---------------------------------------------------------------------

  datatype ReferenceHoliday = ReferenceHoliday(name: string, monthDay: string)

  /** The fixed reference holidays, in the report's order (Thanksgiving's date is an approximation). */
  const COMMON_HOLIDAYS := [
    ReferenceHoliday("New Year", "01-01"),
    ReferenceHoliday("Independence Day", "07-04"),
    ReferenceHoliday("Thanksgiving", "11-28"),
    ReferenceHoliday("Christmas", "12-25")]

  /** `f"{year}-{monthDay}"` */
  function FullDate(year: nat, monthDay: string): string {
    DecimalString(year) + "-" + monthDay
  }

  /** One line of the coverage report: the holiday, its date this year, and whether the list has it. */
  datatype CoverageLine = CoverageLine(name: string, date: string, configured: bool)

  /** The line the report prints for reference holiday `h`. */
  function CoverageOf(h: ReferenceHoliday, holidays: seq<string>, year: nat): CoverageLine {
    var date := FullDate(year, h.monthDay);
    CoverageLine(h.name, date, date in holidays)
  }

  /** The report: nothing when `filters` or a non-empty `holidays` list is missing. */
  function Coverage(config: Config, year: nat): seq<CoverageLine> {
    if config.filters.None? || config.filters.value.HolidayList() == [] then []
    else
      var holidays := config.filters.value.HolidayList();
      seq(|COMMON_HOLIDAYS|, k requires 0 <= k < |COMMON_HOLIDAYS| => CoverageOf(COMMON_HOLIDAYS[k], holidays, year))
  }

  /** `check_holiday_coverage`, returning the lines it prints. */
  method CheckHolidayCoverage(config: Config, currentYear: nat) returns (lines: seq<CoverageLine>)
    ensures lines == Coverage(config, currentYear)
  {
    lines := [];
    if config.filters.None? || config.filters.value.HolidayList() == [] {
      return;
    }
    var holidays := config.filters.value.HolidayList();
    for k := 0 to |COMMON_HOLIDAYS|
      invariant |lines| == k
      invariant forall j :: 0 <= j < k ==> lines[j] == CoverageOf(COMMON_HOLIDAYS[j], holidays, currentYear)
    {
      var fullDate := FullDate(currentYear, COMMON_HOLIDAYS[k].monthDay);
      if fullDate in holidays {
        lines := lines + [CoverageLine(COMMON_HOLIDAYS[k].name, fullDate, true)];
      } else {
        lines := lines + [CoverageLine(COMMON_HOLIDAYS[k].name, fullDate, false)];
      }
    }
  }

  /** The static suggestion lines, one constructor per line. */
  datatype Suggestion =
    | SpreadEnabledNote | SpreadMajorPairs | SpreadCrossPairs | SpreadGold
    | VolatilityEnabledNote | VolatilityMeasureFirst | VolatilityOptimizeBounds
    | NewsEnabledNote | NewsForexFactory | NewsInvesting

  const SPREAD_ADVICE := [SpreadEnabledNote, SpreadMajorPairs, SpreadCrossPairs, SpreadGold]
  const VOLATILITY_ADVICE := [VolatilityEnabledNote, VolatilityMeasureFirst, VolatilityOptimizeBounds]
  const NEWS_ADVICE := [NewsEnabledNote, NewsForexFactory, NewsInvesting]

  /** The suggestion blocks of the enabled filters, in spread, volatility, news order. */
  function Suggestions(config: Config): seq<Suggestion> {
    var f := config.FiltersOrEmpty();
    (if f.SpreadEnabled() then SPREAD_ADVICE else []) +
    (if f.VolatilityEnabled() then VOLATILITY_ADVICE else []) +
    (if f.NewsEnabled() then NEWS_ADVICE else [])
  }

  /** `suggest_parameters`, returning the lines it prints. */
  method SuggestParameters(config: Config) returns (suggestions: seq<Suggestion>)
    ensures suggestions == Suggestions(config)
  {
    var filters := config.FiltersOrEmpty();
    suggestions := [];
    if filters.SpreadEnabled() {
      suggestions := suggestions + [SpreadEnabledNote];
      suggestions := suggestions + [SpreadMajorPairs];
      suggestions := suggestions + [SpreadCrossPairs];
      suggestions := suggestions + [SpreadGold];
    }
    ghost var spread := suggestions;
    if filters.VolatilityEnabled() {
      suggestions := suggestions + [VolatilityEnabledNote];
      suggestions := suggestions + [VolatilityMeasureFirst];
      suggestions := suggestions + [VolatilityOptimizeBounds];
    }
    ghost var volatility := suggestions;
    if filters.NewsEnabled() {
      suggestions := suggestions + [NewsEnabledNote];
      suggestions := suggestions + [NewsForexFactory];
      suggestions := suggestions + [NewsInvesting];
    }
    assert spread == (if filters.SpreadEnabled() then SPREAD_ADVICE else []);
    assert volatility == spread + (if filters.VolatilityEnabled() then VOLATILITY_ADVICE else []);
    assert suggestions == volatility + (if filters.NewsEnabled() then NEWS_ADVICE else []);
  }

  // ---------------------------------------------------------------------
  // The command: validate, report, advise, exit.
  // ---------------------------------------------------------------------

  /** What one run of the validator command reports, and its exit status. */
  datatype FilterRun = FilterRun(
    errors: seq<ConfigError>,
    warnings: seq<ConfigWarning>,
    passed: bool,
    coverage: seq<CoverageLine>,
    suggestions: seq<Suggestion>,
    exitCode: int)

  /**
   * `main`: `loaded` is the parsed configuration, or `None` when the file is
   * missing or is not valid JSON, which exits with status 1 before any rule
   * runs. The "passed" line is printed only when both lists are empty; the
   * exit status depends on the errors alone.
   */
  method RunFilterValidation(loaded: Option<Config>, currentYear: nat) returns (run: FilterRun)
    ensures loaded.None? ==> run == FilterRun([], [], false, [], [], 1)
    ensures loaded.Some? ==>
      && Findings(run.errors, run.warnings) == Validate(loaded.value, currentYear)
      && run.coverage == (if loaded.value.FiltersOrEmpty().HolidayEnabled() then Coverage(loaded.value, currentYear) else [])
      && run.suggestions == Suggestions(loaded.value)
    ensures run.passed <==> loaded.Some? && run.errors == [] && run.warnings == []
    ensures run.exitCode == (if loaded.Some? && run.errors == [] then 0 else 1)
  {
    if loaded.None? {
      return FilterRun([], [], false, [], [], 1);
    }
    var config := loaded.value;
    var errors, warnings := ValidateFiltersConfig(config, currentYear);
    var passed := errors == [] && warnings == [];
    var coverage := [];
    if config.FiltersOrEmpty().HolidayEnabled() {
      coverage := CheckHolidayCoverage(config, currentYear);
    }
    var suggestions := SuggestParameters(config);
    run := FilterRun(errors, warnings, passed, coverage, suggestions, if errors != [] then 1 else 0);
  }
}
