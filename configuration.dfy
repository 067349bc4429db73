/**
 * The Expert Advisor's configuration document (`config/params.default.json`):
 * the sections `risk`, `filters` and `trading_hours`. A key missing from the
 * document is `None`; each accessor supplies the default the validators use
 * for it (`section.get(key, default)`).
 */
module Configuration {
  import opened Wrappers

  datatype Risk = Risk(
    riskPerTradePercent: Option<real>,
    maxDrawdownPercent: Option<real>)
  {
    function RiskPerTrade(): real { riskPerTradePercent.GetOr(0.0) }
    function MaxDrawdown(): real { maxDrawdownPercent.GetOr(0.0) }
  }

  datatype Filters = Filters(
    spreadFilterEnabled: Option<bool>,
    maxSpreadPoints: Option<real>,
    normalSpreadMultiplier: Option<real>,
    volatilityFilterEnabled: Option<bool>,
    atrPeriod: Option<real>,
    minAtrValue: Option<real>,
    maxAtrValue: Option<real>,
    holidayFilterEnabled: Option<bool>,
    holidays: Option<seq<string>>,
    newsFilterEnabled: Option<bool>)
  {
    function SpreadEnabled(): bool { spreadFilterEnabled.GetOr(false) }
    function MaxSpread(): real { maxSpreadPoints.GetOr(0.0) }
    function SpreadMultiplier(): real { normalSpreadMultiplier.GetOr(0.0) }
    function VolatilityEnabled(): bool { volatilityFilterEnabled.GetOr(false) }
    function AtrPeriod(): real { atrPeriod.GetOr(0.0) }
    function MinAtr(): real { minAtrValue.GetOr(0.0) }
    function MaxAtr(): real { maxAtrValue.GetOr(0.0) }
    function HolidayEnabled(): bool { holidayFilterEnabled.GetOr(false) }
    function HolidayList(): seq<string> { holidays.GetOr([]) }
    function NewsEnabled(): bool { newsFilterEnabled.GetOr(false) }
  }

  /** `{}`: the section every `config.get('filters', {})` falls back to. */
  const NO_FILTERS := Filters(None, None, None, None, None, None, None, None, None, None)

  datatype TradingHours = TradingHours(
    fridayCloseHour: Option<real>,
    mondayOpenHour: Option<real>,
    newsAvoidMinutesBefore: Option<real>,
    newsAvoidMinutesAfter: Option<real>)
  {
    function FridayClose(): real { fridayCloseHour.GetOr(0.0) }
    function MondayOpen(): real { mondayOpenHour.GetOr(0.0) }
    function NewsBefore(): real { newsAvoidMinutesBefore.GetOr(0.0) }
    function NewsAfter(): real { newsAvoidMinutesAfter.GetOr(0.0) }
  }

  datatype Config = Config(
    risk: Option<Risk>,
    filters: Option<Filters>,
    tradingHours: Option<TradingHours>)
  {
    /** `config.get('filters', {})` */
    function FiltersOrEmpty(): Filters { filters.GetOr(NO_FILTERS) }
    /** `params.get('risk', {})` */
    function RiskOrEmpty(): Risk { risk.GetOr(Risk(None, None)) }
  }
}
