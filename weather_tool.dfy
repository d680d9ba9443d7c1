/** src/tools/weather_tool.py: `get_weather_condition`, the date range and the day-by-day
    loop of `fetch_weather`, and the branches of `WeatherLookupTool._run`. The forecast
    service is a parameter: the model builds the request and consumes whatever response the
    service gives for it. */
module WeatherTool {
  import opened Wrappers
  import opened Text
  import opened Json
  import opened Numbers
  import opened Settings
  import Tools

  const DefaultNumDays := 7

  const InvalidJsonMessage := "Error: Invalid JSON format."
  const RequiredMessage := "Error: Both city and start_date are required."
  const CrashPrefix := "Error fetching weather: "

  /** The five labels `get_weather_condition` chooses from. */
  datatype Condition = Rainy | LightRain | Windy | Breezy | ClearSunny

  /** The label's words (the leading emoji are not modelled). */
  function Label(c: Condition): string {
    match c
    case Rainy => "Rainy"
    case LightRain => "Light Rain"
    case Windy => "Windy"
    case Breezy => "Breezy"
    case ClearSunny => "Clear/Sunny"
  }

  /** `get_weather_condition(precipitation, windspeed)`: the first threshold exceeded wins,
      heavy rain before light rain before strong wind before a breeze. */
  function WeatherCondition(precipitation: real, windspeed: real): Condition {
    if precipitation > 10.0 then Rainy
    else if precipitation > 2.0 then LightRain
    else if windspeed > 30.0 then Windy
    else if windspeed > 15.0 then Breezy
    else ClearSunny
  }

  /** Each label covers exactly one region of the (precipitation, windspeed) plane, with every
      threshold strict. */
  lemma ConditionSpec(precipitation: real, windspeed: real)
    ensures WeatherCondition(precipitation, windspeed) == Rainy <==> precipitation > 10.0
    ensures WeatherCondition(precipitation, windspeed) == LightRain <==> 2.0 < precipitation <= 10.0
    ensures WeatherCondition(precipitation, windspeed) == Windy <==> precipitation <= 2.0 && windspeed > 30.0
    ensures WeatherCondition(precipitation, windspeed) == Breezy <==>
      precipitation <= 2.0 && 15.0 < windspeed <= 30.0
    ensures WeatherCondition(precipitation, windspeed) == ClearSunny <==>
      precipitation <= 2.0 && windspeed <= 15.0
  {
  }

  /** Rain dominates wind: once precipitation is over 2 the windspeed does not matter, and the
      label is a rain label. */
  lemma RainDominates(precipitation: real, windspeed: real, otherWindspeed: real)
    requires precipitation > 2.0
    ensures WeatherCondition(precipitation, windspeed) == WeatherCondition(precipitation, otherWindspeed)
    ensures WeatherCondition(precipitation, windspeed) in {Rainy, LightRain}
  {
  }

  /** On a threshold the milder label applies. */
  lemma ConditionBoundaries()
    ensures WeatherCondition(10.0, 0.0) == LightRain
    ensures WeatherCondition(2.0, 15.0) == ClearSunny
    ensures WeatherCondition(2.0, 30.0) == Breezy
  {
  }

  /** `get_weather_condition` on the raw values of the response: None where a comparison with
      a number raises TypeError. The windspeed is compared only when the precipitation is at
      most 2. */
  function ConditionOf(precipitation: Value, windspeed: Value): (r: Option<Condition>)
    ensures AsNumber(precipitation).Some? && AsNumber(windspeed).Some? ==>
      r == Some(WeatherCondition(AsNumber(precipitation).value, AsNumber(windspeed).value))
    ensures AsNumber(precipitation).None? ==> r.None?
  {
    match AsNumber(precipitation)
    case None => None
    case Some(p) =>
      if p > 10.0 then Some(Rainy)
      else if p > 2.0 then Some(LightRain)
      else match AsNumber(windspeed)
        case None => None
        case Some(w) => Some(WeatherCondition(p, w))
  }

  /** Dates are day numbers as `date.toordinal()` gives them: 1 is 0001-01-01 and `LastDay` is
      9999-12-31, the last date `datetime` can hold. */
  const LastDay := 3652059

  /** The largest number of days a `timedelta` can hold. */
  const MaxDeltaDays := 999999999

  /** What the service is asked for: a place and an inclusive range of day numbers. */
  datatype ForecastRequest = ForecastRequest(latitude: real, longitude: real, startDay: int, endDay: int)

  /** What the service answers: a failed request (network error, timeout, error status), a
      body that is not a JSON object or whose "daily" entry is not one, or the decoded "daily"
      object (empty when the body has none). */
  datatype Response = RequestFailed | Malformed | Daily(series: Fields)

  /** The request for `num_days` days from `start`: the end is `start + (num_days - 1)` days.
      None where Python raises OverflowError: `timedelta(days=num_days - 1)` beyond its range,
      or an end date before 0001-01-01 or after 9999-12-31. */
  function RequestFor(latitude: real, longitude: real, start: int, numDays: int): Option<ForecastRequest> {
    if numDays - 1 < -MaxDeltaDays || numDays - 1 > MaxDeltaDays then None
    else if start + (numDays - 1) < 1 || start + (numDays - 1) > LastDay then None
    else Some(ForecastRequest(latitude, longitude, start, start + (numDays - 1)))
  }

  /** A request is built exactly when the day count fits a `timedelta` and the end date is one
      `datetime` can hold; it then starts on the start date and spans exactly `num_days` days,
      the last one included. */
  lemma RequestRange(latitude: real, longitude: real, start: int, numDays: int)
    ensures RequestFor(latitude, longitude, start, numDays).Some? <==>
      && -MaxDeltaDays <= numDays - 1 <= MaxDeltaDays
      && 1 <= start + (numDays - 1) <= LastDay
    ensures RequestFor(latitude, longitude, start, numDays).Some? ==>
      var req := RequestFor(latitude, longitude, start, numDays).value;
      && req.startDay == start
      && req.endDay - req.startDay + 1 == numDays
  {
  }

  /** Two days from 9999-12-31 end past the last date, so no request is made. */
  lemma RequestOverflows(latitude: real, longitude: real)
    ensures RequestFor(latitude, longitude, LastDay, 2).None?
    ensures RequestFor(latitude, longitude, LastDay, 1).Some?
  {
  }

  /** One day of the forecast: its date, the extreme temperatures (None when the service sent
      fewer), the precipitation and windspeed (0 when it sent fewer) and the label. */
  datatype DayWeather = DayWeather(date: Value, tempMax: Option<real>, tempMin: Option<real>,
                                   precipitation: real, windspeed: real, condition: Condition)

  /** A series indexed by `len()` and `[i]`: a list by its items, a string by its characters;
      None where `len()` raises. */
  function Series(v: Value): Option<seq<Value>> {
    match v
    case List(items) => Some(items)
    case Str(s) => Some(seq(|s|, i requires 0 <= i < |s| => Str([s[i]])))
    case _ => None
  }

  /** The series of the response. */
  datatype Columns = Columns(dates: seq<Value>, tempMax: seq<Value>, tempMin: seq<Value>,
                             precipitation: seq<Value>, windspeed: seq<Value>)

  /** The value at `i` when the series is that long, else the default. */
  function At(s: seq<Value>, i: nat, default: Value): Value {
    if i < |s| then s[i] else default
  }

  /** `round(x)` for the value at `i` when the series is that long, else None; the outer None
      is a raise on a value that is not a number. */
  function Temperature(s: seq<Value>, i: nat): Option<Option<real>> {
    if i < |s| then
      match AsNumber(s[i])
      case None => None
      case Some(x) => Some(Some(x))
    else Some(None)
  }

  /** The entry the loop appends at index `i`; None where one of its expressions raises. */
  function DayAt(c: Columns, i: nat): Option<DayWeather>
    requires i < |c.dates|
  {
    var precipitation, windspeed := At(c.precipitation, i, Int(0)), At(c.windspeed, i, Int(0));
    match (ConditionOf(precipitation, windspeed), Temperature(c.tempMax, i), Temperature(c.tempMin, i),
           AsNumber(precipitation), AsNumber(windspeed))
    case (Some(condition), Some(hi), Some(lo), Some(p), Some(w)) =>
      Some(DayWeather(c.dates[i], hi, lo, p, w, condition))
    case _ => None
  }

  /** The whole loop: one entry per date, or None as soon as one entry raises. */
  function AllDays(c: Columns): Option<seq<DayWeather>> {
    if forall i :: 0 <= i < |c.dates| ==> DayAt(c, i).Some? then
      Some(seq(|c.dates|, i requires 0 <= i < |c.dates| => DayAt(c, i).value))
    else None
  }

  /** Reads the five series of the "daily" object; None where one the loop measures is not
      measurable. With no dates the loop never looks at the other four. */
  function ColumnsOf(series: Fields): Option<Columns> {
    match Series(FieldOr(series, "time", List([])))
    case None => None
    case Some(dates) =>
      if dates == [] then Some(Columns([], [], [], [], []))
      else
        match (Series(FieldOr(series, "temperature_2m_max", List([]))),
               Series(FieldOr(series, "temperature_2m_min", List([]))),
               Series(FieldOr(series, "precipitation_sum", List([]))),
               Series(FieldOr(series, "windspeed_10m_max", List([]))))
        case (Some(hi), Some(lo), Some(p), Some(w)) => Some(Columns(dates, hi, lo, p, w))
        case _ => None
  }

  /** `fetch_weather(latitude, longitude, start_date, num_days)`: the forecast list, empty
      whenever the date does not parse, the request fails or any entry raises. */
  function Forecast(latitude: real, longitude: real, startDate: string, numDays: int,
                    parseDate: string -> Option<int>, respond: ForecastRequest -> Response): seq<DayWeather> {
    match parseDate(startDate)
    case None => []
    case Some(start) =>
      match RequestFor(latitude, longitude, start, numDays)
      case None => []
      case Some(request) =>
        match respond(request)
        case Daily(series) =>
          (match ColumnsOf(series)
           case None => []
           case Some(c) => AllDays(c).GetOr([]))
        case _ => []
  }

  /** A forecast has exactly one entry per date of the response, in order; each label is the
      one for that day's precipitation and windspeed, which default to 0 where the service
      sent fewer values, as the temperatures default to None. */
  lemma AllDaysSpec(c: Columns)
    requires AllDays(c).Some?
    ensures var days := AllDays(c).value;
      && |days| == |c.dates|
      && forall i :: 0 <= i < |days| ==>
           && days[i].date == c.dates[i]
           && days[i].condition == WeatherCondition(days[i].precipitation, days[i].windspeed)
           && (i < |c.precipitation| ==> Some(days[i].precipitation) == AsNumber(c.precipitation[i]))
           && (i >= |c.precipitation| ==> days[i].precipitation == 0.0)
           && (i < |c.windspeed| ==> Some(days[i].windspeed) == AsNumber(c.windspeed[i]))
           && (i >= |c.windspeed| ==> days[i].windspeed == 0.0)
           && (i < |c.tempMax| ==> days[i].tempMax.Some? && days[i].tempMax == AsNumber(c.tempMax[i]))
           && (i >= |c.tempMax| ==> days[i].tempMax.None?)
           && (i < |c.tempMin| ==> days[i].tempMin.Some? && days[i].tempMin == AsNumber(c.tempMin[i]))
           && (i >= |c.tempMin| ==> days[i].tempMin.None?)
  {
    var days := AllDays(c).value;
    forall i | 0 <= i < |days|
      ensures days[i].condition == WeatherCondition(days[i].precipitation, days[i].windspeed)
    {
      assert DayAt(c, i).Some?;
    }
  }

  /** Some value the loop reads at index `i` is not a number: a temperature within its array,
      or a precipitation or windspeed within its array. */
  predicate NonNumericAt(c: Columns, i: nat) {
    || (i < |c.tempMax| && AsNumber(c.tempMax[i]).None?)
    || (i < |c.tempMin| && AsNumber(c.tempMin[i]).None?)
    || (i < |c.precipitation| && AsNumber(c.precipitation[i]).None?)
    || (i < |c.windspeed| && AsNumber(c.windspeed[i]).None?)
  }

  /** The entry at `i` raises exactly when one of the values it reads is not a number. */
  lemma DayFails(c: Columns, i: nat)
    requires i < |c.dates|
    ensures DayAt(c, i).None? <==> NonNumericAt(c, i)
  {
  }

  /** The loop raises, and the forecast is empty, exactly when some date's entry reads a value
      that is not a number. */
  lemma AllDaysFails(c: Columns)
    ensures AllDays(c).None? <==> exists i :: 0 <= i < |c.dates| && NonNumericAt(c, i)
  {
    if AllDays(c).None? {
      var i :| 0 <= i < |c.dates| && DayAt(c, i).None?;
      DayFails(c, i);
    } else {
      forall i | 0 <= i < |c.dates|
        ensures !NonNumericAt(c, i)
      {
        DayFails(c, i);
      }
    }
  }

  /** A date that does not parse and a failed or malformed response all give the empty
      forecast; a response of well-formed series gives one entry per date. */
  lemma ForecastSpec(latitude: real, longitude: real, startDate: string, numDays: int,
                     parseDate: string -> Option<int>, respond: ForecastRequest -> Response)
    ensures parseDate(startDate).None? ==> Forecast(latitude, longitude, startDate, numDays, parseDate, respond) == []
    ensures parseDate(startDate).Some? && RequestFor(latitude, longitude, parseDate(startDate).value, numDays).None? ==>
      Forecast(latitude, longitude, startDate, numDays, parseDate, respond) == []
    ensures parseDate(startDate).Some? && RequestFor(latitude, longitude, parseDate(startDate).value, numDays).Some? ==>
      var response := respond(RequestFor(latitude, longitude, parseDate(startDate).value, numDays).value);
      && (!response.Daily? ==> Forecast(latitude, longitude, startDate, numDays, parseDate, respond) == [])
      && (response.Daily? && ColumnsOf(response.series).Some? && AllDays(ColumnsOf(response.series).value).Some? ==>
            |Forecast(latitude, longitude, startDate, numDays, parseDate, respond)| == |ColumnsOf(response.series).value.dates|)
  {
    if parseDate(startDate).Some? && RequestFor(latitude, longitude, parseDate(startDate).value, numDays).Some? {
      var response := respond(RequestFor(latitude, longitude, parseDate(startDate).value, numDays).value);
      if response.Daily? && ColumnsOf(response.series).Some? && AllDays(ColumnsOf(response.series).value).Some? {
        AllDaysSpec(ColumnsOf(response.series).value);
      }
    }
  }

  /** The loop of `fetch_weather` over the dates: one entry appended per index, the whole
      list given up as soon as one entry raises. */
  method CollectDays(c: Columns) returns (days: seq<DayWeather>)
    ensures days == AllDays(c).GetOr([])
  {
    var list: seq<DayWeather> := [];
    for i := 0 to |c.dates|
      invariant |list| == i
      invariant forall k :: 0 <= k < i ==> DayAt(c, k).Some? && list[k] == DayAt(c, k).value
    {
      var day := DayAt(c, i);
      if day.None? {
        return [];
      }
      list := list + [day.value];
    }
    assert list == seq(|c.dates|, i requires 0 <= i < |c.dates| => DayAt(c, i).value);
    return list;
  }

  /** `fetch_weather`, asking the service once. */
  method FetchWeather(latitude: real, longitude: real, startDate: string, numDays: int,
                      parseDate: string -> Option<int>, respond: ForecastRequest -> Response)
    returns (days: seq<DayWeather>)
    ensures days == Forecast(latitude, longitude, startDate, numDays, parseDate, respond)
  {
    var start := parseDate(startDate);
    if start.None? {
      return [];
    }
    var request := RequestFor(latitude, longitude, start.value, numDays);
    if request.None? {
      return [];
    }
    var response := respond(request.value);
    if !response.Daily? {
      return [];
    }
    var columns := ColumnsOf(response.series);
    if columns.None? {
      return [];
    }
    days := CollectDays(columns.value);
  }

  /** What `_run` returns: a fixed message, a caught exception after its prefix, or the
      forecast report for the city from the start date. */
  datatype WeatherReply = Message(text: string) | Raised(prefix: string)
                        | Report(city: string, startDate: string, numDays: int, days: seq<DayWeather>)

  /** The decoded parameters: the stripped city and start date and `int(num_days)`. */
  datatype WeatherRequest = WeatherRequest(city: string, startDate: string, numDays: int)

  function ReadRequest(params: Fields): Option<WeatherRequest> {
    match (TextOr(params, "city", ""), TextOr(params, "start_date", ""), IntParam(params, "num_days", DefaultNumDays))
    case (Some(c), Some(d), Some(n)) => Some(WeatherRequest(Strip(c), Strip(d), n))
    case _ => None
  }

  /** `WeatherLookupTool._run(query)`. */
  function WeatherReplyFor(query: Tools.Query, parseDate: string -> Option<int>, respond: ForecastRequest -> Response): WeatherReply {
    match query
    case Unparsable => Message(InvalidJsonMessage)
    case NotAnObject => Raised(CrashPrefix)
    case Object(params) =>
      RequestReply(ReadRequest(params), parseDate, respond)
  }

  /** The reply once the parameters are read: the caught exception when they do not read. */
  function RequestReply(request: Option<WeatherRequest>, parseDate: string -> Option<int>, respond: ForecastRequest -> Response): WeatherReply {
    match request
    case None => Raised(CrashPrefix)
    case Some(req) => AcceptedReply(req, parseDate, respond)
  }

  /** The reply to a request whose parameters read. */
  function AcceptedReply(req: WeatherRequest, parseDate: string -> Option<int>, respond: ForecastRequest -> Response): WeatherReply {
    if req.city == "" || req.startDate == "" then Message(RequiredMessage)
    else match GetCityCoordinates(req.city)
      case None => Message(NotFound(req.city))
      case Some(coords) =>
        var days := Forecast(coords.latitude, coords.longitude, req.startDate, req.numDays, parseDate, respond);
        if days == [] then Message("Error: Could not fetch weather data for " + req.city + ".")
        else Report(req.city, req.startDate, req.numDays, days)
  }

  /** The city is not in the coordinates table: the message names it. */
  function NotFound(city: string): (text: string)
    ensures Tools.StartsWith(text, "Error: Coordinates not found for ")
  {
    var text := "Error: Coordinates not found for " + city + ". Please check the city name.";
    assert text[..|"Error: Coordinates not found for "|] == "Error: Coordinates not found for ";
    text
  }

  /** Without `num_days` the forecast covers a week. */
  lemma DefaultDays(params: Fields)
    requires ReadRequest(params).Some?
    ensures "num_days" !in params ==> ReadRequest(params).value.numDays == 7
  {
  }

  /** Once the parameters read, the reply is the one for the request. */
  lemma ObjectReply(params: Fields, parseDate: string -> Option<int>, respond: ForecastRequest -> Response)
    requires ReadRequest(params).Some?
    ensures WeatherReplyFor(Tools.Object(params), parseDate, respond)
            == AcceptedReply(ReadRequest(params).value, parseDate, respond)
  {
    ParamsReply(params, parseDate, respond);
    ReadReply(ReadRequest(params), parseDate, respond);
  }

  /** An object query is answered from whatever reading its parameters gives. */
  lemma ParamsReply(params: Fields, parseDate: string -> Option<int>, respond: ForecastRequest -> Response)
    ensures WeatherReplyFor(Tools.Object(params), parseDate, respond)
            == RequestReply(ReadRequest(params), parseDate, respond)
  {
  }

  /** Parameters that read are answered as the request they give. */
  lemma ReadReply(request: Option<WeatherRequest>, parseDate: string -> Option<int>, respond: ForecastRequest -> Response)
    requires request.Some?
    ensures RequestReply(request, parseDate, respond) == AcceptedReply(request.value, parseDate, respond)
  {
  }

  /** The refusals come in order: missing city or date, then a city the coordinates table
      lacks, both before the service is asked, then an empty forecast. */
  lemma WeatherRefusals(params: Fields, parseDate: string -> Option<int>, respond: ForecastRequest -> Response)
    requires ReadRequest(params).Some?
    ensures var req := ReadRequest(params).value;
      var reply := WeatherReplyFor(Tools.Object(params), parseDate, respond);
      && (req.city == "" || req.startDate == "" ==> reply == Message("Error: Both city and start_date are required."))
      && (req.city != "" && req.startDate != "" && GetCityCoordinates(req.city).None? ==>
            reply.Message? && Tools.StartsWith(reply.text, "Error: Coordinates not found for "))
      && (req.city != "" && req.startDate != "" && GetCityCoordinates(req.city).Some? ==>
            var coords := GetCityCoordinates(req.city).value;
            Forecast(coords.latitude, coords.longitude, req.startDate, req.numDays, parseDate, respond) == [] ==>
              reply == Message("Error: Could not fetch weather data for " + req.city + "."))
  {
    ObjectReply(params, parseDate, respond);
    AcceptedRefusals(ReadRequest(params).value, parseDate, respond);
  }

  /** The refusals, for a request whose parameters read. */
  lemma AcceptedRefusals(req: WeatherRequest, parseDate: string -> Option<int>, respond: ForecastRequest -> Response)
    ensures var reply := AcceptedReply(req, parseDate, respond);
      && (req.city == "" || req.startDate == "" ==> reply == Message("Error: Both city and start_date are required."))
      && (req.city != "" && req.startDate != "" && GetCityCoordinates(req.city).None? ==>
            reply.Message? && Tools.StartsWith(reply.text, "Error: Coordinates not found for "))
      && (req.city != "" && req.startDate != "" && GetCityCoordinates(req.city).Some? ==>
            var coords := GetCityCoordinates(req.city).value;
            Forecast(coords.latitude, coords.longitude, req.startDate, req.numDays, parseDate, respond) == [] ==>
              reply == Message("Error: Could not fetch weather data for " + req.city + "."))
  {
    var reply := AcceptedReply(req, parseDate, respond);
    if req.city != "" && req.startDate != "" {
      match GetCityCoordinates(req.city)
      case None =>
        assert reply == Message(NotFound(req.city));
      case Some(coords) =>
    }
  }


  /** A report is never empty, is for a city the table knows, and holds what the service
      answered for that city's coordinates and the requested days. */
  lemma WeatherReportSpec(params: Fields, parseDate: string -> Option<int>, respond: ForecastRequest -> Response)
    requires ReadRequest(params).Some?
    ensures var req := ReadRequest(params).value;
      var reply := WeatherReplyFor(Tools.Object(params), parseDate, respond);
      reply.Report? ==>
        && reply.days != []
        && req.city != "" && req.startDate != ""
        && GetCityCoordinates(req.city).Some?
        && var coords := GetCityCoordinates(req.city).value;
           reply.days == Forecast(coords.latitude, coords.longitude, req.startDate, req.numDays, parseDate, respond)
  {
    ObjectReply(params, parseDate, respond);
    AcceptedReport(ReadRequest(params).value, parseDate, respond);
  }

  /** A report, for a request whose parameters read. */
  lemma AcceptedReport(req: WeatherRequest, parseDate: string -> Option<int>, respond: ForecastRequest -> Response)
    ensures var reply := AcceptedReply(req, parseDate, respond);
      reply.Report? ==>
        && reply.days != []
        && req.city != "" && req.startDate != ""
        && GetCityCoordinates(req.city).Some?
        && var coords := GetCityCoordinates(req.city).value;
           reply.days == Forecast(coords.latitude, coords.longitude, req.startDate, req.numDays, parseDate, respond)
  {
  }

  /** A malformed query is answered with an error before any lookup. */
  lemma MalformedQueryIsError(query: Tools.Query, parseDate: string -> Option<int>, respond: ForecastRequest -> Response)
    requires query.Unparsable? || query.NotAnObject? || ReadRequest(query.params).None?
    ensures WeatherReplyFor(query, parseDate, respond) in {Message("Error: Invalid JSON format."), Raised("Error fetching weather: ")}
    ensures query.Unparsable? <==> WeatherReplyFor(query, parseDate, respond).Message?
  {
  }

  /** `_run`, fetching the forecast one day at a time. */
  method WeatherLookup(query: Tools.Query, parseDate: string -> Option<int>, respond: ForecastRequest -> Response)
    returns (reply: WeatherReply)
    ensures reply == WeatherReplyFor(query, parseDate, respond)
  {
    if query.Unparsable? {
      return Message(InvalidJsonMessage);
    }
    if query.NotAnObject? {
      return Raised(CrashPrefix);
    }
    var request := ReadRequest(query.params);
    if request.None? {
      return Raised(CrashPrefix);
    }
    var req := request.value;
    if req.city == "" || req.startDate == "" {
      return Message(RequiredMessage);
    }
    var coords := GetCityCoordinates(req.city);
    if coords.None? {
      return Message(NotFound(req.city));
    }
    var days := FetchWeather(coords.value.latitude, coords.value.longitude, req.startDate, req.numDays, parseDate, respond);
    if days == [] {
      return Message("Error: Could not fetch weather data for " + req.city + ".");
    }
    return Report(req.city, req.startDate, req.numDays, days);
  }
}
