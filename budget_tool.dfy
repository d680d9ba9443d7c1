/** The budget arithmetic of src/tools/budget_tool.py: the breakdown `BudgetEstimationTool._run`
    reports with its tips, the `calculate_budget` helper, and `estimate_daily_expense`. Prices
    are exact reals here (see README for floating point). */
module BudgetTool {
  import opened Wrappers
  import opened Text
  import opened Json
  import opened Numbers
  import opened Settings
  import Tools

  const InvalidJsonMessage := "Error: Invalid JSON format."
  const CrashPrefix := "Error calculating budget: "

  /** Above this total the tool advises booking in advance. */
  const AdvanceBookingTotal := 30000.0
  /** Above this nightly price the tool advises a hotel away from the hotspots. */
  const PricyNight := 4000.0

  /** The four amounts of a breakdown. */
  datatype Costs = Costs(flight: real, hotel: real, foodTravel: real, total: real)

  /** The arithmetic shared by `_run` and `calculate_budget`: the hotel is paid per night,
      food and local travel per day, a trip of `nights` nights lasting `nights + 1` days. */
  function Breakdown(flight: real, nightly: real, nights: int, daily: real): Costs {
    var hotel := nightly * nights as real;
    var foodTravel := daily * (nights + 1) as real;
    Costs(flight, hotel, foodTravel, flight + hotel + foodTravel)
  }

  /** The total is the flight plus every night's price plus every day's expense. */
  lemma BreakdownSpec(flight: real, nightly: real, nights: nat, daily: real)
    ensures var c := Breakdown(flight, nightly, nights, daily);
      c.total == c.flight + c.hotel + c.foodTravel
      && c.total == flight + Sum(Repeat(nightly, nights)) + Sum(Repeat(daily, nights + 1))
  {
    var c := Breakdown(flight, nightly, nights, daily);
    assert c.hotel == nightly * nights as real && c.foodTravel == daily * (nights + 1) as real;
    RepeatSum(nightly, nights);
    RepeatSum(daily, nights + 1);
  }

  /** `n` copies of `x`: one price per night or per day. */
  function Repeat(x: real, n: nat): (r: seq<real>)
    ensures |r| == n && forall i :: 0 <= i < n ==> r[i] == x
  {
    if n == 0 then [] else Repeat(x, n - 1) + [x]
  }

  function Sum(s: seq<real>): real {
    if s == [] then 0.0 else Sum(s[..|s| - 1]) + s[|s| - 1]
  }

  /** Paying `x` on each of `n` occasions costs `x * n`. */
  lemma {:induction false} RepeatSum(x: real, n: nat)
    ensures Sum(Repeat(x, n)) == x * n as real
  {
    if n > 0 {
      RepeatSum(x, n - 1);
      assert Repeat(x, n)[..n - 1] == Repeat(x, n - 1);
    }
  }

  /** One more night adds one night's price and one day's expense to the total. */
  lemma OneMoreNight(flight: real, nightly: real, nights: int, daily: real)
    ensures Breakdown(flight, nightly, nights + 1, daily).total == Breakdown(flight, nightly, nights, daily).total + nightly + daily
  {
  }

  /** What `calculate_budget` returns: the breakdown and the average per day. */
  datatype BudgetSummary = BudgetSummary(costs: Costs, perDayAverage: real)

  /** `calculate_budget(flight_price, hotel_price_per_night, num_nights, daily_expense)`; None
      where dividing by `num_nights + 1` raises ZeroDivisionError. */
  function CalculateBudget(flight: real, nightly: real, nights: int, daily: Option<real>): (r: Option<BudgetSummary>)
    ensures r.None? <==> nights == -1
    ensures r.Some? ==> r.value.perDayAverage * (nights + 1) as real == r.value.costs.total
  {
    var costs := Breakdown(flight, nightly, nights, daily.GetOr(DefaultDailyExpense as real));
    if nights + 1 == 0 then None else Some(BudgetSummary(costs, costs.total / (nights + 1) as real))
  }

  /** The tips of the report, in the order they are printed. */
  datatype Tip = BookInAdvance | StayAwayFromHotspots | UseLocalTransport | TryLocalEateries

  function Tips(total: real, nightly: real): seq<Tip> {
    (if total > AdvanceBookingTotal then [BookInAdvance] else [])
    + (if nightly > PricyNight then [StayAwayFromHotspots] else [])
    + [UseLocalTransport, TryLocalEateries]
  }

  /** The advance-booking tip appears exactly when the total is over 30000, the hotspot tip
      exactly when a night costs over 4000, and the two general tips always, last. */
  lemma TipsSpec(total: real, nightly: real)
    ensures var tips := Tips(total, nightly);
      && (BookInAdvance in tips <==> total > AdvanceBookingTotal)
      && (StayAwayFromHotspots in tips <==> nightly > PricyNight)
      && |tips| >= 2 && tips[|tips| - 2..] == [UseLocalTransport, TryLocalEateries]
      && (BookInAdvance in tips ==> tips[0] == BookInAdvance)
  {
    var tips := Tips(total, nightly);
    var first := if total > AdvanceBookingTotal then [BookInAdvance] else [];
    var second := if nightly > PricyNight then [StayAwayFromHotspots] else [];
    assert tips == first + second + [UseLocalTransport, TryLocalEateries];
    assert BookInAdvance !in second + [UseLocalTransport, TryLocalEateries];
    assert StayAwayFromHotspots !in first + [UseLocalTransport, TryLocalEateries];
  }

  /** The numbers the report shows. */
  datatype BudgetReport = BudgetReport(nightly: real, nights: int, daily: real, costs: Costs, tips: seq<Tip>)

  /** What `_run` returns: a fixed message, a caught exception after its prefix, or the report. */
  datatype BudgetReply = Message(text: string) | Raised(prefix: string) | Report(report: BudgetReport)

  /** The decoded parameters: `float(flight_price)`, `float(hotel_price_per_night)`,
      `int(num_nights)` and `float(daily_expense)` with their defaults; None where a conversion
      raises. */
  function ReadParams(params: Fields): Option<(real, real, int, real)> {
    match (FloatParam(params, "flight_price", 0.0), FloatParam(params, "hotel_price_per_night", 0.0),
           IntParam(params, "num_nights", 1), FloatParam(params, "daily_expense", DefaultDailyExpense as real))
    case (Some(f), Some(h), Some(n), Some(d)) => Some((f, h, n, d))
    case _ => None
  }

  /** `BudgetEstimationTool._run(query)`. */
  function BudgetReplyFor(query: Tools.Query): BudgetReply {
    match query
    case Unparsable => Message(InvalidJsonMessage)
    case NotAnObject => Raised(CrashPrefix)
    case Object(params) =>
      match ReadParams(params)
      case None => Raised(CrashPrefix)
      case Some((flight, nightly, nights, daily)) =>
        var costs := Breakdown(flight, nightly, nights, daily);
        Report(BudgetReport(nightly, nights, daily, costs, Tips(costs.total, nightly)))
  }

  /** The tool and the helper agree: for the same numbers the report's breakdown is the one
      `calculate_budget` returns, absent parameters taking the helper's defaults for the
      daily expense (and 0, 0 and 1 for the others). */
  lemma ToolAgreesWithHelper(params: Fields)
    requires ReadParams(params).Some?
    requires ReadParams(params).value.2 != -1
    ensures var (flight, nightly, nights, daily) := ReadParams(params).value;
      var reply := BudgetReplyFor(Tools.Object(params));
      && reply.Report?
      && reply.report.costs == CalculateBudget(flight, nightly, nights, Some(daily)).value.costs
      && ("daily_expense" !in params ==>
            reply.report.costs == CalculateBudget(flight, nightly, nights, None).value.costs)
  {
  }

  /** With no parameters at all: no flight, no hotel, one night and two days at 2000. */
  lemma DefaultBudget()
    ensures BudgetReplyFor(Tools.Object(map[])) ==
      Report(BudgetReport(0.0, 1, 2000.0, Costs(0.0, 0.0, 4000.0, 4000.0), [UseLocalTransport, TryLocalEateries]))
  {
  }

  /** The example query of the module: 4800 + 4 × 3200 + 5 × 2000 = 27600, under both tip
      thresholds, and 5520 a day. */
  lemma ExampleBudget()
    ensures BudgetReplyFor(Tools.Object(map["flight_price" := Json.Int(4800), "hotel_price_per_night" := Json.Int(3200),
                                            "num_nights" := Json.Int(4), "daily_expense" := Json.Int(2000)])) ==
      Report(BudgetReport(3200.0, 4, 2000.0, Costs(4800.0, 12800.0, 10000.0, 27600.0), [UseLocalTransport, TryLocalEateries]))
    ensures CalculateBudget(4800.0, 3200.0, 4, Some(2000.0)) == Some(BudgetSummary(Costs(4800.0, 12800.0, 10000.0, 27600.0), 5520.0))
  {
  }

  /** A malformed query is answered with an error and no report. */
  lemma MalformedQueryIsError(query: Tools.Query)
    requires query.Unparsable? || query.NotAnObject? || ReadParams(query.params).None?
    ensures BudgetReplyFor(query) == Message("Error: Invalid JSON format.") || BudgetReplyFor(query) == Raised("Error calculating budget: ")
    ensures query.Unparsable? <==> BudgetReplyFor(query).Message?
  {
  }

  /** The tier of a destination. */
  const TierOne: seq<string> := ["mumbai", "delhi", "bangalore"]
  const TierTwo: seq<string> := ["goa", "jaipur", "udaipur", "shimla", "manali"]

  /** `estimate_daily_expense(destination_city)`: 2500 a day in a tier-one city, 2000 in a
      tier-two city, 1500 elsewhere, whatever the case of the name. */
  function EstimateDailyExpense(city: string): int {
    if Lower(city) in TierOne then 2500
    else if Lower(city) in TierTwo then 2000
    else 1500
  }

  /** The estimate is one of the three tiers, ignores case, and a tier-two city's estimate is
      the default daily expense of the settings. */
  lemma EstimateSpec(city: string, other: string)
    ensures EstimateDailyExpense(city) in {1500, 2000, 2500}
    ensures Lower(city) == Lower(other) ==> EstimateDailyExpense(city) == EstimateDailyExpense(other)
    ensures EstimateDailyExpense(city) == 2500 <==> Lower(city) in TierOne
    ensures EstimateDailyExpense(city) == 2000 <==> Lower(city) in TierTwo
    ensures Lower(city) in TierTwo ==> EstimateDailyExpense(city) == DefaultDailyExpense
  {
    assert forall k :: 0 <= k < |TierOne| ==> TierOne[k] !in TierTwo;
  }

  /** Every city with a tiered estimate is one the weather lookup knows. */
  lemma TieredCitiesHaveCoordinates(city: string)
    requires Lower(city) in TierOne || Lower(city) in TierTwo
    ensures GetCityCoordinates(city).Some?
  {
  }

  /** Mixed case is lowered first; an unlisted city gets the lowest tier. */
  lemma EstimateExamples()
    ensures EstimateDailyExpense("Mumbai") == 2500
    ensures EstimateDailyExpense("GOA") == 2000
    ensures EstimateDailyExpense("Kolkata") == 1500
  {
    assert Lower("Mumbai") == "mumbai";
    assert Lower("GOA") == "goa";
    assert Lower("Kolkata") == "kolkata";
    assert "kolkata" !in TierOne && "kolkata" !in TierTwo;
  }
}
