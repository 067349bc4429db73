# Expert Advisor validation rules, modelled in Dafny

This project models the two validators that guard the deployment of a trading
"Expert Advisor" (EA):

- **The trade-filter configuration validator** (`scripts/test_filters.py`).
  It reads the `filters` and `trading_hours` sections of the EA's parameter
  document. It applies rules for spread limits, ATR volatility bounds,
  holiday dates, trading hours and news-avoidance windows. Each rule
  produces either an error or a warning. When `holiday_filter_enabled` is
  set and the holiday list is non-empty, it then prints a holiday-coverage
  report. It always prints the tuning suggestions of the enabled filters,
  and exits with status 1 exactly when there is an error.
- **The sanity checker** (`scripts/sanity_checks.py`). A `SanityChecker`
  object accumulates `errors` and `warnings` over four checks, run in a
  fixed order:
  - the risk limits in `config/params.default.json`;
  - a regular-expression search for a hard-coded lot size in `OrderSend`;
  - a substring heuristic for repainting indicators;
  - a heuristic for `OrderSend` calls without logging.

  It exits with status 0 exactly when no error was recorded.

Modules:

| file | module | what it holds |
|---|---|---|
| `wrappers.dfy` | `Wrappers` | `Option`, and `GetOr` for `dict.get(key, default)` |
| `text.dfy` | `Text` | `startswith`, substring `in`, `str(n)` for a natural number |
| `configuration.dfy` | `Configuration` | the parameter document as records of optional fields, each with an accessor that applies its default |
| `date_format.dfy` | `DateFormat` | which strings `strptime(s, '%Y-%m-%d')` accepts |
| `ordersend_pattern.dfy` | `OrderSendPattern` | a matcher for `OrderSend\s*\([^,]*,\s*\d+\.\d+`, proved equal to the regular expression's reading |
| `filter_validation.dfy` | `FilterValidation` | the rule catalog as functions; the validator, coverage report, suggestions and command as methods proved against those functions |
| `filter_properties.dfy` | `FilterProperties` | what the validator promises, proved of the rule catalog |
| `sanity_checks.dfy` | `SanityChecks` | the `SanityChecker` class with `seq` fields its methods append to, and the specification functions of its warnings |
| `sanity_properties.dfy` | `SanityProperties` | what the checker promises, proved of those functions |

Design of the model:

- Every `*.get(key, default)` is an accessor with that default. All
  numeric fields are `real`, because the code only compares them with
  literals. A `real` cannot hold the `NaN` or the infinities that
  `json.load` accepts (see "Left out").
- The current year is a parameter of the validator, the coverage report
  and the command.
- Messages are constructors that carry the values the source interpolates.
  Their order and multiplicity are exactly those of the source's lists.
- Each imperative function of the validator is a method that appends to
  its two lists block by block. Each method's `ensures` equates its output
  with the rule-catalog functions (`Validate`, `Coverage`, `Suggestions`).
  The lemmas in `FilterProperties` state the rules' meaning of those
  functions.
- The sanity checker's methods state the suffix they append to `warnings`
  (and `errors`). The specification functions (`ConfigWarnings`,
  `RuleWarnings`, `AllWarnings`) are characterised by the lemmas in
  `SanityProperties`.
- The project tree is a value, `Project(params, src)`:
  - `params` is the parsed parameter file, or `None` when it does not exist;
  - `src` is `None` when the directory is missing; otherwise it holds the
    files found under it, in traversal order, and optionally the files
    under `src/indicators`.

Behaviour of the code worth knowing:

- The trading-hour rules run only when `filters` is also present. A missing
  `filters` section returns before them (`scripts/test_filters.py:29-31`).
- The news rules sit inside the `trading_hours` block. Without that
  section they never run, even when `news_filter_enabled` is set
  (`scripts/test_filters.py:87-114`).
- The lot-size pattern does not test the lot-size argument. It reads the
  argument after the FIRST comma, which in MQL4's
  `OrderSend(symbol, cmd, volume, …)` is the command. So a decimal second
  argument is flagged and a decimal third argument is not
  (`DecimalSecondArgumentIsFlagged`, `DecimalThirdArgumentIsNotFlagged`).
- Risk limits only ever produce warnings, never errors.

## Model

| member | source | states |
|---|---|---|
| `FilterValidation.ValidateFiltersConfig` | scripts/test_filters.py:24-116 | the two lists built by appending are exactly the rule catalog's findings for the configuration and year |
| `FilterValidation.CheckSpread` | scripts/test_filters.py:36-47 | the spread block appends exactly the spread rules' findings to both lists |
| `FilterValidation.CheckVolatility` | scripts/test_filters.py:50-65 | the ATR block appends exactly the volatility rules' findings; the three bound checks are applied independently |
| `FilterValidation.CheckHolidays` | scripts/test_filters.py:68-84 | the loop over the holidays appends one format error per rejected entry in list order, then the current-year warning; the result is the holiday rules' findings |
| `FilterValidation.CheckTradingHours` | scripts/test_filters.py:87-99 | the trading-hours block appends the hour-range errors, the early-Friday warning, then the news findings |
| `FilterValidation.CheckNews` | scripts/test_filters.py:102-114 | the news block appends its findings only when `news_filter_enabled` is set |
| `FilterValidation.FormatErrors` | scripts/test_filters.py:74-78 | there are at most as many format errors as entries, and each one is a format error |
| `FilterValidation.CheckHolidayCoverage` | scripts/test_filters.py:118-141 | the loop over the reference holidays returns exactly the coverage report |
| `FilterValidation.SuggestParameters` | scripts/test_filters.py:143-169 | the appended lines are the suggestion blocks of the enabled filters, in spread, volatility, news order |
| `FilterValidation.RunFilterValidation` | scripts/test_filters.py:171-222 | a failed load exits 1 before any rule; otherwise the lists are the validator's, the "passed" line appears iff both lists are empty, the coverage report appears only with the holiday filter enabled, and the exit status is 1 iff there is an error |
| `DateFormat.DaysInMonth` | scripts/test_filters.py:76 | months have 28 to 31 days, and February has 29 exactly in leap years |
| `DateFormat.IsValidDate` | scripts/test_filters.py:76 | the strings `strptime(s, '%Y-%m-%d')` accepts: four digits, `-`, a `%m` token, `-`, a `%d` token, nothing after, and a day that exists in that month of a year from 1; an accepted string has 8 to 10 characters, four leading digits and `-` at index 4 and at index 6 or 7 |
| `DateFormat.AcceptsIsoDate` | scripts/test_filters.py:76 | a zero-padded `YYYY-MM-DD` date is accepted |
| `DateFormat.AcceptsOneDigitFields` | scripts/test_filters.py:76 | one-digit months and days are accepted, as `strptime` does |
| `DateFormat.AcceptsBlankPaddedDay` | scripts/test_filters.py:76 | a day padded with a blank is accepted, as `strptime` does |
| `DateFormat.PaddedDateValid` | scripts/test_filters.py:76 | a four-digit year, `-` and a zero-padded month and day that exists in that month form a valid date |
| `DateFormat.LeapDayInLeapYear` | scripts/test_filters.py:76 | 29 February is accepted in a leap year |
| `DateFormat.NoLeapDayOtherwise` | scripts/test_filters.py:76 | 29 February is rejected in a common year |
| `DateFormat.RejectsImpossibleDays` | scripts/test_filters.py:76 | a day past the end of its month and a thirteenth month are rejected |
| `DateFormat.RejectsYearZero` | scripts/test_filters.py:76 | year 0 is rejected |
| `DateFormat.RejectsOtherLayouts` | scripts/test_filters.py:76 | two-digit years, other separators and trailing characters are rejected |
| `FilterProperties.MissingFiltersShortCircuits` | scripts/test_filters.py:29-31 | without `filters` the result is exactly one error and no warning, whatever `trading_hours` holds |
| `FilterProperties.SpreadDisabledIsSilent` | scripts/test_filters.py:36 | a disabled spread filter adds nothing, and changing its fields changes nothing |
| `FilterProperties.VolatilityDisabledIsSilent` | scripts/test_filters.py:50 | a disabled volatility filter adds nothing, and changing its fields changes nothing |
| `FilterProperties.HolidayDisabledIsSilent` | scripts/test_filters.py:68 | a disabled holiday filter adds nothing, and changing its list changes nothing |
| `FilterProperties.SpreadOutcomes` | scripts/test_filters.py:37-47 | `max_spread_points` gives an error iff it is `<= 0` (default 0 included) and a too-large warning iff it is `> 100`; the multiplier warns iff it is outside [1.5, 5.0] |
| `FilterProperties.SpreadBoundaries` | scripts/test_filters.py:37-41 | 0 spread points is an error; 0.0001 is none |
| `FilterProperties.VolatilityOutcomes` | scripts/test_filters.py:51-65 | `atr_period <= 0` errs without a warning, below 10 warns, and 10 or more gives neither; each bound error fires iff its own condition holds; equal bounds always err |
| `FilterProperties.MissingAtrBoundsGiveThreeErrors` | scripts/test_filters.py:57-65 | with both ATR bounds missing, exactly the three bound errors follow the period's |
| `FilterProperties.EmptyHolidayListWarnsOnce` | scripts/test_filters.py:69-71 | an empty or missing holiday list gives exactly one warning and no error |
| `FilterProperties.FormatErrorsAppend` | scripts/test_filters.py:74-78 | the format errors of a concatenation are those of each part, in order |
| `FilterProperties.FormatErrorsOfOne` | scripts/test_filters.py:74-78 | a single entry yields one error iff `strptime` rejects it |
| `FilterProperties.FormatErrorsNameBadEntries` | scripts/test_filters.py:74-78 | an entry has a format error iff it is listed and `strptime` rejects it |
| `FilterProperties.HolidayOutcomes` | scripts/test_filters.py:72-84 | a non-empty list gives exactly its format errors, and the current-year warning iff no entry starts with `str(year)` |
| `FilterProperties.HoursRulesNeedTheirSection` | scripts/test_filters.py:29-88 | without `filters` or without `trading_hours`, no trading-hour or news finding appears |
| `FilterProperties.HoursRulesComeLast` | scripts/test_filters.py:86-114 | with both sections present, no spread, volatility or holiday finding follows a trading-hour or news finding in either list, and the trading-hour block's findings end both lists |
| `FilterProperties.HourOutcomes` | scripts/test_filters.py:90-99 | each hour outside [0, 23] is an error; a Friday close before 18 warns, so a negative Friday hour both errs and warns |
| `FilterProperties.NewsOutcomes` | scripts/test_filters.py:102-114 | news rules are silent unless enabled; a negative value both errs and warns; 15 or more gives neither |
| `FilterProperties.SpreadScenario` | scripts/test_filters.py:36-47 | 150 spread points with multiplier 1.2 give exactly two warnings and no error |
| `FilterProperties.VolatilityScenario` | scripts/test_filters.py:50-65 | ATR period 0 with bounds 5 and 2 gives exactly two errors and no warning |
| `FilterProperties.CoverageReport` | scripts/test_filters.py:120-141 | the report has four lines in the fixed order; a holiday counts as configured iff the exact `"{year}-MM-DD"` is listed; without `filters` or holidays there is no report |
| `FilterProperties.CoveredHolidaySilencesYearWarning` | scripts/test_filters.py:80-84 | a configured reference holiday rules out the current-year warning |
| `FilterProperties.ReferenceDatesAreValid` | scripts/test_filters.py:126-137 | in a four-digit year, every reference date passes the format check |
| `FilterProperties.SuggestionBlocks` | scripts/test_filters.py:147-166 | the suggestion blocks have 4, 3 and 3 lines; each is present iff its filter is enabled |
| `OrderSendPattern.MatcherIsRegex` | scripts/sanity_checks.py:59 | the backtracking-free matcher finds a match iff the regular expression has one |
| `OrderSendPattern.HasHardCodedLotSize` | scripts/sanity_checks.py:59 | `re.search` of the lot-size pattern finds a match; a flagged text is at least 14 characters long |
| `OrderSendPattern.FlaggedTextContainsKeyword` | scripts/sanity_checks.py:59 | a text flagged for a hard-coded lot size contains `OrderSend` |
| `SanityChecks.RuleWarnings` | scripts/sanity_checks.py:54-62 | the warnings a scan loop appends: at most one per file, each a file warning of the scanning rule |
| `SanityChecks.SanityChecker.constructor` | scripts/sanity_checks.py:15-18 | a new checker has both lists empty |
| `SanityChecks.SanityChecker.CheckConfigFiles` | scripts/sanity_checks.py:20-43 | appends the missing-file error, or the risk warnings, to the old lists |
| `SanityChecks.SanityChecker.ScanFiles` | scripts/sanity_checks.py:54-62 | the loop over files appends one warning per flagged file, in file order |
| `SanityChecks.SanityChecker.CheckHardCodedValues` | scripts/sanity_checks.py:45-64 | appends the lot-size warnings of the `src` files; leaves `errors` untouched |
| `SanityChecks.SanityChecker.CheckRepaintingIndicators` | scripts/sanity_checks.py:66-84 | appends the repainting warnings of the indicator files; leaves `errors` untouched |
| `SanityChecks.SanityChecker.CheckLogging` | scripts/sanity_checks.py:86-104 | appends the logging warnings of the `src` files; leaves `errors` untouched |
| `SanityChecks.SanityChecker.RunAllChecks` | scripts/sanity_checks.py:106-136 | the four checks only append, in order; success iff no error has been recorded |
| `SanityChecks.SanityMain` | scripts/sanity_checks.py:139-147 | on a fresh checker, the exit status is 0 iff the parameters file exists |
| `SanityProperties.MissingParamsIsOneError` | scripts/sanity_checks.py:25-28 | a missing parameters file is exactly one error and no risk warning |
| `SanityProperties.RiskThresholds` | scripts/sanity_checks.py:34-41 | each risk warning fires iff its strict threshold is exceeded; no other warning appears; missing values and values at the thresholds give none |
| `SanityProperties.RuleWarningsAppend` | scripts/sanity_checks.py:54-62 | the warnings of a concatenation of file lists are those of each part, in order |
| `SanityProperties.RuleWarningsOfOne` | scripts/sanity_checks.py:74-82 | a single file yields one warning iff the rule flags it |
| `SanityProperties.RuleWarningsNameFlaggedFiles` | scripts/sanity_checks.py:94-102 | a file name is warned about iff some file of that name is flagged |
| `SanityProperties.HardCodedRuleIsRegexSearch` | scripts/sanity_checks.py:59 | the lot-size rule fires iff the text contains a match of the regular expression |
| `SanityProperties.RepaintingRuleMeaning` | scripts/sanity_checks.py:79 | the repainting rule fires iff neither `IndicatorCounted()` nor `prev_calculated` occurs anywhere in the text |
| `SanityProperties.LoggingRuleMeaning` | scripts/sanity_checks.py:99 | the logging rule fires iff `OrderSend` occurs and `Print` occurs nowhere in the text |
| `SanityProperties.MissingSourceTreeIsSilent` | scripts/sanity_checks.py:49-51 | without `src` the three scans add nothing |
| `SanityProperties.MissingIndicatorsAreSilent` | scripts/sanity_checks.py:70-72 | without `src/indicators` the repainting scan adds nothing |
| `SanityProperties.WarningsBound` | scripts/sanity_checks.py:112-115 | there are at most two risk warnings, plus at most one warning per rule and file |
| `SanityProperties.UnloggedOrderWarns` | scripts/sanity_checks.py:99-102 | an `OrderSend` without any `Print` is exactly one warning |
| `SanityProperties.LoggedOrderIsSilent` | scripts/sanity_checks.py:99-102 | the same file with a `Print` call yields no warning |
| `SanityProperties.DecimalSecondArgumentIsFlagged` | scripts/sanity_checks.py:59 | a decimal after the first comma of an `OrderSend` call is flagged |
| `SanityProperties.DecimalThirdArgumentIsNotFlagged` | scripts/sanity_checks.py:59 | a decimal in the third argument, where MQL4 puts the lot size, is not flagged |

## Left out

- Reading files (`open`, `json.load`, `Path.exists`, `rglob`) is not modelled. The parsed parameter document and the found source files are inputs. The order in which `rglob` yields files is filesystem-dependent and is taken as given.
- Nothing ties the indicator files to the `src` files, although in the source `src/indicators` lies inside `src` and its files are scanned by both traversals.
- A configuration that cannot be loaded is modelled only as `RunFilterValidation` receiving `None` and exiting 1. Its two messages are not modelled. The sanity checker's uncaught `json.load` failure is not modelled.
- JSON values of the wrong type (a string where a number is expected, a `filters` that is not an object), and the `TypeError`s they raise, are not modelled; fields are assumed well-typed.
- NaN and infinities are not modelled: numeric fields are `real`. `json.load` accepts `NaN`, `Infinity` and `-Infinity`, and every comparison with NaN is false. So in the source a `NaN` for `max_spread_points`, `atr_period`, `min_atr_value`, `max_atr_value`, an hour or a news window passes every rule it feeds without an error or warning; this model cannot express that input.
- `datetime.now()` is not modelled: the current year is a parameter.
- Printed text is not modelled: emoji, the Chinese and English wording, the cumulative counts after each sanity check and the enabled-filter table of `main`. Messages are constructors that carry the interpolated values.
- `sys.argv` is not modelled: the project root is the `Project` value. `sys.exit` is modelled as a returned exit status.
- `scripts/export_report.py` is not part of this model: it is report export built on pandas and matplotlib, and its parsing and charting are unimplemented stubs.
- `DateFormat.IsValidDate`: the four digits of `%Y` (`\d\d\d\d`) and the second digit of `%d`'s `[12]\d` accept only ASCII digits here, while Python's `\d` in `strptime` also accepts other Unicode decimal digits.
- `OrderSendPattern.HasHardCodedLotSize`: `\d` accepts only ASCII digits here, while Python's `\d` also accepts other Unicode decimal digits. `\s` is modelled as Python's full `str.isspace` set.
