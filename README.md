# AI travel planner: tools and data store, modelled in Dafny

This project models the deterministic core of the AI travel planner. The language-model agent
calls a handful of tools, and each one answers a JSON query with a text report. Five tools, their
settings and their data store are modelled here:

- **Data store** (`Loading`): `DataLoader` caches every JSON record list it reads, keyed by
  the path string. A later load of the same path returns the cached list itself. `clear_cache`
  empties the cache and `get_cache_info` counts its files and records. Three generic helpers
  work on lists of flat records: `filter_data` (case-insensitive criteria), `sort_data`
  (stable, a missing field counting as +infinity, the input unchanged on a `TypeError`) and
  `get_unique_values` (a set, then sorted).
- **Flight search** (`FlightTool`):
  - selects the flights on a route, case-insensitively;
  - writes a missing `duration_hours` into the selected records themselves, which are the
    records the cache holds;
  - sorts by price or by duration and reports the best three, with the departure clock time
    read off the timestamp.
- **Hotel recommendation** (`HotelTool`): a city filter, a star threshold and an optional price
  ceiling; sorted by stars descending, then price ascending; top three.
- **Places discovery** (`PlacesTool`): a city filter, an optional category and a rating
  threshold; sorted by rating descending; top five.
- **Budget estimation** (`BudgetTool`):
  - the hotel, food-and-travel and total amounts;
  - the advice tips triggered by thresholds;
  - `calculate_budget` with its per-day average;
  - the tiered `estimate_daily_expense`.
- **Weather lookup** (`WeatherTool`):
  - the condition label chain;
  - the inclusive date range of the forecast request;
  - the index-aligned reading of the provider's parallel arrays;
  - the refusals of `_run`.
- **Settings** (`Settings`): the budget and trip-length defaults (2000, 3, 7) and the
  20-city coordinates table behind the case-insensitive `get_city_coordinates`.

Supporting modules:

| module | contents |
|---|---|
| `Wrappers` | `Option` and `Result` |
| `Text` | ASCII `.lower()` and `.strip()` |
| `Json` | decoded values, `str()`, truthiness and `dict.get` |
| `Seqs` | comprehensions, slices, order-preserving subsequences |
| `Sorting` | a stable insertion sort with its sortedness, permutation and stability proofs |
| `Ranks` | how Python orders numbers, strings and `float('inf')`, and when it raises `TypeError` |
| `Numbers` | `int()`, `float()` and truncation |
| `Tools` | the decoded query, the reply shapes and the shared city match |

How Python behaviour is represented:

- **Records and the cache.** A record is a `map<string, Value>`. Where the heap matters, a
  record is a `Record` object. That covers the cache and the flight tool's in-place write, so
  the model proves that the cached list itself ends up holding the derived durations.
- **Exceptions.** An exception a tool catches becomes `Raised(prefix)`: its message is the
  fixed prefix followed by text the model does not track. A comprehension whose condition can
  raise is `Seqs.Sieve`, which is `None` as soon as one item raises.
- **Query decoding.** `json.loads` of the query is its outcome (`Tools.Query`).
- **Outside inputs.** The file system is a map from path to document. Timestamp and date
  parsing and the weather service are function parameters.

Two behaviours of the program are worth stating outright:

- **Cached records are mutable.** The flight tool writes `duration_hours` into the records
  the cache holds (src/tools/flight_tool.py:54-64). `FlightTool.FlightSearch` states the
  resulting cache contents.
- **A missing data file is reported as text.** Each tool's `except Exception` returns
  "Error searching …: Data file not found: <path>", and that is what the model returns.

## Model

| member | source | states |
|---|---|---|
| Loading.NewRecords | src/utils/data_loader.py:58-59 | parsing a file yields one new record object per record, holding exactly the decoded fields |
| Loading.DataLoader.constructor | src/utils/data_loader.py:26 | the process-wide cache starts empty |
| Loading.DataLoader.LoadJson | src/utils/data_loader.py:29-72 | a cached path returns the cached list itself and changes nothing; a missing file gives FileNotFound and invalid JSON gives the decode error, both leaving the cache as it was; a parsed file's new records are stored under the path (appended to the key order) and returned |
| Loading.DataLoader.LoadAgain | src/utils/data_loader.py:44-49 | once a load succeeds, a second load of the same path returns the very same list whatever the disk holds by then, and the cache keeps it |
| Loading.DataLoader.ClearCache | src/utils/data_loader.py:74-78 | afterwards the cache holds no path |
| Loading.DataLoader.GetCacheInfo | src/utils/data_loader.py:80-91 | cached_files is the number of cached paths and total_records the sum of the cached lists' lengths, and the cache is not changed |
| Loading.DataLoader.ClearThenInfo | src/utils/data_loader.py:74-91 | after clear_cache, get_cache_info reports 0 files and 0 records |
| Loading.FilterData | src/utils/data_loader.py:94-123 | the loop over the criteria, each rebinding the list to a comprehension, returns the single comprehension keeping the items that meet every criterion whose value is not None |
| Loading.FilterDataSpec | src/utils/data_loader.py:112-121 | filter_data's output is an order-preserving subsequence of the input; an item is kept exactly when it meets every non-None criterion (the key is present and the values print equal up to case); each kept item appears as often as in the input; with no non-None criterion the input comes back unchanged |
| Loading.SortDataSpec | src/utils/data_loader.py:126-151 | sort_data returns a permutation of its input; when the keys are comparable it is ordered by the field (ascending, or descending for reverse), a missing field counting as +infinity, with equal keys in their input order; otherwise it is the input unchanged |
| Loading.FieldValuesMembers | src/utils/data_loader.py:168-171 | a value is collected exactly when some item holds it under the field |
| Loading.DistinctSpec | src/utils/data_loader.py:168-171 | the set keeps only collected values, no two with equal keys, and every collected value has an equal one in it |
| Loading.SortedRepresentatives | src/utils/data_loader.py:173 | sorting the set's values gives collected values in strictly increasing order that still represent every collected value |
| Loading.UnhashableAt | src/utils/data_loader.py:171 | a list value under the field makes set.add raise, so get_unique_values fails |
| Loading.CollectValues | src/utils/data_loader.py:168-171 | the loop builds the set of the field's values, or fails as soon as a value is unhashable |
| Loading.UniqueValuesSpec | src/utils/data_loader.py:154-173 | a successful get_unique_values lists values some item holds, in strictly increasing order (so no duplicates), and every value an item holds equals one of them |
| Loading.GetUniqueValues | src/utils/data_loader.py:154-173 | the loop followed by the sort computes get_unique_values, including its two failure cases |
| Seqs.FilterIsSubsequence | src/utils/data_loader.py:118-121 | a comprehension's result embeds in its input in order |
| Sorting.SortBy | src/utils/data_loader.py:143-147 | sorted returns a permutation of its input |
| Sorting.SortBySorted | src/utils/data_loader.py:143-147 | for a strict total order, sorted's result is in ascending order of the key |
| Sorting.SortByStable | src/utils/data_loader.py:143-147 | sorted keeps items with equal keys in their input order |
| Tools.TextMatchSpec | src/tools/hotel_tool.py:44-47 | the `.get(key, "").lower() == text.lower()` test accepts exactly string values equal up to case (missing counts as ""), and raises exactly on a non-string value |
| FlightTool.BlankCityRefused | src/tools/flight_tool.py:33-38 | a source or destination that is blank after stripping is answered "Error: Both source and destination are required." before anything is loaded |
| FlightTool.MalformedQueryIsError | src/tools/flight_tool.py:95-99 | a query that is not JSON, not an object, or has wrongly typed parameters gets an error string, "Error: Invalid JSON format." for invalid JSON |
| FlightTool.RouteMatchSpec | src/tools/flight_tool.py:44-48 | a flight is selected exactly when its from and to are strings equal to source and destination up to case; the test raises exactly when from is not a string, or from matches and to is not a string |
| FlightTool.SelectRecords | src/tools/flight_tool.py:44-48 | the comprehension over the loaded records yields the matching record objects themselves, in order, or fails exactly when the test raises on some record |
| FlightTool.DeriveSpec | src/tools/flight_tool.py:56-64 | afterwards a record has duration_hours: kept if it had one, otherwise arrival minus departure in hours, or 0 when a timestamp is unparsable or only one of the two carries a UTC offset; no other field changes; deriving again changes nothing |
| FlightTool.RouteAfterDerive | src/tools/flight_tool.py:54-64 | deriving a duration does not change whether the record is on the route |
| FlightTool.DeriveAllSelected | src/tools/flight_tool.py:54-64 | deriving the selection equals selecting from the list in which the selected records were derived |
| FlightTool.DeriveAllFiltered | src/tools/flight_tool.py:54-64 | for any selection test that deriving leaves unchanged, deriving the selection equals selecting from the list in which the selected records were derived |
| FlightTool.DeriveInPlace | src/tools/flight_tool.py:54-64 | the loop writes the derived duration into each selected record object; the whole loaded list afterwards is the old one with exactly the selected records derived |
| FlightTool.RankFlightsSpec | src/tools/flight_tool.py:66-70 | the ranking is a stable permutation of the selection, ascending by duration (default 999) for "fastest" and by price (default 999999) otherwise, and fails exactly when two keys cannot be compared |
| FlightTool.DepartureSpec | src/tools/flight_tool.py:85-88 | a timestamp without 'T' is shown whole; otherwise the shown text directly follows the first 'T', holds no 'T', and is at most five characters, fewer only where the text or its piece ends |
| FlightTool.ShowRanked | src/tools/flight_tool.py:66-91 | the ranking and the report loop yield the full count and the first three ranked flights, or the caught exception |
| FlightTool.SelectFlightsSpec | src/tools/flight_tool.py:50-79 | "No flights found" comes exactly when nothing is selected; a report's count is the number of selected flights and it shows the first min(3, count) of the ranking of the derived selection |
| FlightTool.SearchRecords | src/tools/flight_tool.py:44-91 | on the loaded records, the reply is the selection's report and the records afterwards hold the derived durations exactly where selected |
| FlightTool.SearchEntry | src/tools/flight_tool.py:44-91 | searching the records cached under the flights path gives the selection's report and writes the derived durations into that entry only: the records of every other cached file read as before, since no two entries share a record |
| FlightTool.LoadAndSearch | src/tools/flight_tool.py:40-91 | loading then searching gives the reply for what loading yields; a failed load leaves the loader untouched; after a successful one the flights path is cached (the same list when it already was, and appended to the key order when it was not), every other entry is as before and still reads as before, and the cached list itself holds the derived durations |
| FlightTool.FlightSearch | src/tools/flight_tool.py:27-99 | the whole `_run`: a refused query or a failed load leaves the loader untouched, and a refused one leaves the cached flight records as they were too; otherwise only the flights entry and, on a first load, the key order change, the cached list holds the derived durations, and the records of the other cached files read as before |
| HotelTool.BlankCityRefused | src/tools/hotel_tool.py:33-38 | a city that is blank after stripping is answered "Error: City is required." whatever loading would give |
| HotelTool.MalformedQueryIsError | src/tools/hotel_tool.py:96-100 | a malformed query gets an error string, the invalid-JSON message with its hint when the query is not JSON |
| HotelTool.DefaultsSpec | src/tools/hotel_tool.py:53-63 | missing stars count as 0; a hotel with no price never passes a ceiling that applies |
| HotelTool.HotelLessIsStrictTotalOrder | src/tools/hotel_tool.py:69-72 | the tuple order on (-stars, price) keys is a strict total order |
| HotelTool.CandidatesQualify | src/tools/hotel_tool.py:44-63 | the city, star and price comprehensions in a row keep exactly the qualifying hotels, in order, the price filter only for a truthy ceiling |
| HotelTool.CandidatesSpec | src/tools/hotel_tool.py:44-66 | the hotels left for ranking are exactly the qualifying ones, in input order |
| HotelTool.QualifyingSpec | src/tools/hotel_tool.py:44-63 | a qualifying hotel is in the city up to case, has numeric stars at least min_rating, and when a numeric ceiling applies has a numeric price within it |
| HotelTool.NoMatchMessage | src/tools/hotel_tool.py:49-66 | "No hotels found" comes only when no hotel qualifies: the short form exactly when no hotel is in the city, else the "matching your criteria" form |
| HotelTool.RankedHotels | src/tools/hotel_tool.py:69-72 | sorting by the (-stars, price) key puts stars in descending order, prices in ascending order among equal stars, and full ties in input order |
| HotelTool.SelectHotelsSpec | src/tools/hotel_tool.py:65-78 | a report counts all qualifying hotels and shows the first min(3, count) of their ranking, a permutation with stars never increasing, prices never decreasing among equal stars, and full ties in input order |
| HotelTool.SearchHotels | src/tools/hotel_tool.py:44-78 | the steps after loading compute the selection's reply |
| HotelTool.HotelSearch | src/tools/hotel_tool.py:27-100 | the whole `_run` over the shared loader gives the reply for what loading the hotels file yields; a refused query, an already cached file or a failed load leaves the loader untouched; a first successful load adds exactly the hotels path, with new records holding the file's contents, at the end of the key order |
| PlacesTool.BlankCityRefused | src/tools/places_tool.py:33-38 | a city that is blank after stripping is answered "Error: City is required." whatever loading would give |
| PlacesTool.MalformedQueryIsError | src/tools/places_tool.py:97-101 | a malformed query gets an error string, "Error: Invalid JSON format." for invalid JSON |
| PlacesTool.CandidatesQualify | src/tools/places_tool.py:44-63 | the city, category and rating comprehensions in a row keep exactly the qualifying places, in order, the category filter only for a non-empty category |
| PlacesTool.CandidatesSpec | src/tools/places_tool.py:44-67 | the places left for ranking are exactly the qualifying ones, in input order |
| PlacesTool.QualifyingSpec | src/tools/places_tool.py:44-63 | a qualifying place is in the city up to case, of the category up to case when one is given, and has a numeric rating (missing counts as 0) at least min_rating |
| PlacesTool.NoMatchMessage | src/tools/places_tool.py:49-67 | "No places found" comes only when no place qualifies: the short form exactly when no place is in the city, else the "matching your criteria" form, naming the category exactly when one was given |
| PlacesTool.SortNeverRaises | src/tools/places_tool.py:70-73 | once places qualify, negating their ratings never raises, so a report follows |
| PlacesTool.QualifyingRated | src/tools/places_tool.py:60-63 | every qualifying place has a numeric rating |
| PlacesTool.RatingsDescend | src/tools/places_tool.py:70-73 | sorted by the negated rating, ratings never increase |
| PlacesTool.RankAndShowSpec | src/tools/places_tool.py:70-93 | the report counts every candidate and shows the first min(5, count) of their ranking, a permutation with ratings never increasing and equal ratings in input order |
| PlacesTool.SelectPlacesSpec | src/tools/places_tool.py:65-80 | a report counts all qualifying places and shows the first min(5, count) of their rating-descending, stable ranking |
| PlacesTool.ShowPlaces | src/tools/places_tool.py:83-93 | the report loop formats every shown place, in order |
| PlacesTool.SearchPlaces | src/tools/places_tool.py:44-93 | the steps after loading compute the selection's reply |
| PlacesTool.PlacesSearch | src/tools/places_tool.py:27-101 | the whole `_run` over the shared loader gives the reply for what loading the places file yields; a refused query, an already cached file or a failed load leaves the loader untouched; a first successful load adds exactly the places path, with new records holding the file's contents, at the end of the key order |
| BudgetTool.BreakdownSpec | src/tools/budget_tool.py:53-55 | the total is the flight plus one nightly price per night plus one daily expense per day, over nights + 1 days |
| BudgetTool.OneMoreNight | src/tools/budget_tool.py:53-55 | one more night adds exactly one nightly price and one daily expense to the total |
| BudgetTool.CalculateBudget | src/tools/budget_tool.py:91-122 | calculate_budget fails exactly when nights + 1 is zero (the division raises); otherwise the per-day average times nights + 1 is the total |
| BudgetTool.TipsSpec | src/tools/budget_tool.py:70-76 | the advance-booking tip appears iff the total exceeds 30000, the hotspot tip iff a night exceeds 4000, and the two general tips always, last |
| BudgetTool.ToolAgreesWithHelper | src/tools/budget_tool.py:47-55 | the tool's breakdown equals calculate_budget's for the same numbers, and an absent daily expense takes the helper's default |
| BudgetTool.DefaultBudget | src/tools/budget_tool.py:47-50 | with no parameters: no flight, no hotel, one night, two days at DEFAULT_DAILY_EXPENSE 2000, total 4000, general tips only |
| BudgetTool.ExampleBudget | src/tools/budget_tool.py:158-165 | 4800, 3200 per night, 4 nights, 2000 a day give 12800 + 10000 and a total of 27600 (5520 a day) |
| BudgetTool.MalformedQueryIsError | src/tools/budget_tool.py:80-84 | a malformed query gives "Error: Invalid JSON format." exactly when it is not JSON, and otherwise the caught-exception error |
| BudgetTool.EstimateSpec | src/tools/budget_tool.py:125-146 | the estimate is 2500 exactly for tier-one cities, 2000 exactly for tier-two cities and 1500 otherwise, whatever the case of the name |
| BudgetTool.EstimateExamples | src/tools/budget_tool.py:139-146 | "Mumbai" gives 2500, "GOA" 2000, "Kolkata" 1500 |
| BudgetTool.TieredCitiesHaveCoordinates | src/tools/budget_tool.py:136-137 | every tiered city is also in the coordinates table |
| WeatherTool.ConditionSpec | src/tools/weather_tool.py:174-194 | each label in the if/elif chain holds exactly on its region: Rainy for precip > 10, Light Rain for 2 < precip <= 10, then Windy and Breezy by windspeed, otherwise Clear/Sunny |
| WeatherTool.RainDominates | src/tools/weather_tool.py:185-188 | with precip > 2 the label is a rain label, whatever the windspeed |
| WeatherTool.ConditionBoundaries | src/tools/weather_tool.py:185-194 | the thresholds are strict: precip 10 gives Light Rain, precip 2 with wind 15 gives Clear/Sunny |
| WeatherTool.ConditionOf | src/tools/weather_tool.py:150-153 | on numeric values the label is get_weather_condition's; a non-numeric precipitation raises |
| WeatherTool.RequestRange | src/tools/weather_tool.py:119-130 | a request exists exactly when num_days - 1 fits a timedelta and the end date lies in 0001-01-01..9999-12-31; it then starts on the start date and spans exactly num_days days, the last included |
| WeatherTool.RequestOverflows | src/tools/weather_tool.py:119-121 | two days from 9999-12-31 overflow and give no request, one day does not |
| WeatherTool.AllDaysSpec | src/tools/weather_tool.py:147-162 | one entry per date, in order; within its array each precipitation, windspeed and temperature is that array's number; past the end precipitation and windspeed default to 0 and temperatures to None; each label is the one for that day's values |
| WeatherTool.AllDaysFails | src/tools/weather_tool.py:147-162 | the loop raises exactly when, at some date's index, a value it reads within its array is not a number |
| WeatherTool.CollectDays | src/tools/weather_tool.py:147-164 | the index loop appends exactly those entries, or gives the empty list when one raises |
| WeatherTool.ForecastSpec | src/tools/weather_tool.py:117-171 | an unparsable date, an end date that overflows, or a failed or malformed response gives the empty list; well-formed series give one entry per date |
| WeatherTool.FetchWeather | src/tools/weather_tool.py:99-171 | fetch_weather returns the forecast, empty on any exception; the service is asked once for the computed range, and not at all when the date is unparsable or the end date overflows |
| WeatherTool.NotFound | src/tools/weather_tool.py:57 | the unknown-city message begins "Error: Coordinates not found for " |
| WeatherTool.DefaultDays | src/tools/weather_tool.py:49 | without num_days the forecast covers 7 days |
| WeatherTool.WeatherRefusals | src/tools/weather_tool.py:51-68 | an empty city or start date gives "Error: Both city and start_date are required."; otherwise a city missing from the table gives "Coordinates not found"; otherwise an empty forecast gives "Could not fetch weather data" |
| WeatherTool.WeatherReportSpec | src/tools/weather_tool.py:55-86 | a report is never empty, is for a city the table knows, and holds the forecast for its coordinates and the requested days |
| WeatherTool.MalformedQueryIsError | src/tools/weather_tool.py:88-92 | a malformed query gives "Error: Invalid JSON format." exactly when it is not JSON, and otherwise the caught-exception error |
| WeatherTool.WeatherLookup | src/tools/weather_tool.py:33-92 | `_run`, computed step by step, gives the tool's reply |
| Settings.TableNames | config/settings.py:60-81 | the table holds exactly the listed cities |
| Settings.NamesDistinct | config/settings.py:60-81 | twenty cities, none listed twice |
| Settings.TableLower | config/settings.py:60-81 | every key is lower case, so the lower-cased lookup can reach each entry |
| Settings.TableOnGlobe | config/settings.py:60-81 | every entry has a latitude within ±90 and a longitude within ±180 |
| Settings.LookupSpec | config/settings.py:124-135 | names equal up to case find the same entry; a name is found exactly when its lower-case form is listed, and then gives that entry; otherwise None |
| Settings.LookupExamples | config/settings.py:135 | "Goa" and "MUMBAI" find their entries; "London" finds nothing |
| Numbers.Trunc | src/tools/hotel_tool.py:34 | `int()` of a float truncates toward zero |
| Numbers.ParseIntShowInt | src/tools/budget_tool.py:49 | `int()` reads back the decimal text of every integer |
| Json.UnescapeEscape | src/utils/data_loader.py:120 | the text `repr` writes between the quotes of a string inside a list reads back as the string |
| Json.ReprSingleQuote | src/utils/data_loader.py:120 | `repr` puts a string holding a single quote in double quotes |
| Json.ReprBackslash | src/utils/data_loader.py:120 | `repr` doubles a backslash |
| Json.ShowListExample | src/utils/data_loader.py:120 | `str()` of a list shows its strings as `repr` writes them |
| Text.StripEmpty | src/tools/flight_tool.py:33-34 | `.strip()` gives "" exactly when the text is all whitespace |

## Left out

- **Unicode text.** `.lower()` and `.strip()` are modelled for ASCII only: upper-case ASCII
  letters and ASCII whitespace. Unicode case mapping and Unicode whitespace are not modelled.
  `repr` of a string inside a list escapes ASCII control characters, the backslash and the
  quote; Python's `\u`/`\x` escaping of non-printable non-ASCII characters is not modelled.
- **Floating point.** Prices, ratings, durations and weather values are exact reals. The model
  does not capture float rounding, `round(...)` of durations and weather values, or Python's
  float `repr` beyond a decimal rendering.
- **Report text.** The reports are values (`Listing` with the count and the shown lines, the
  budget and weather reports as datatypes). Left out are the exact strings with their
  separators, emoji, `:,` thousands grouping, `.0f` formatting and `city.title()`. Only the
  fixed messages are modelled as text.
- **Exception messages.** A caught exception is its reply's fixed prefix. Python's
  `str(e)` after it is not modelled.
- **Input parsing and services.** These are parameters of the model, and nothing about their
  behaviour is assumed beyond the shape of what they give:
  - `json.loads` and `json.load`;
  - `datetime.fromisoformat` (a flight time is hours on a common scale, with a flag for
    whether it carries a UTC offset) and `datetime.strptime` (a weather date is its day
    number, 1 for 0001-01-01); the `timedelta` arithmetic after it is modelled, with its
    overflow past 9999-12-31;
  - the HTTP request to the weather service, with its timeout and status check.
- **String conversions.** `int()` and `float()` of strings are modelled for plain decimal
  text only: an optional sign, digits, and for `float()` one optional decimal point.
  Exponents, underscores, "inf" and "nan" are not recognised.
- **Comparisons of lists.** Python orders lists lexicographically. The model treats a list
  sort key as one Python cannot order, so `sort_data`, `get_unique_values` and the flight
  ranking report a `TypeError` where Python might compare two lists.
- **Nested JSON objects.** A JSON object appearing as a record value is not modelled.
  Records are flat, and values are strings, numbers, booleans, null and lists.
- **Data file shapes.** A data file whose top-level JSON is not a list of objects is not
  modelled. A list holding a non-object element makes the source's `.get` raise
  AttributeError, reported as "Error searching …"; the model has no such record.
- **Paths.** The file path is its string form. `Path.exists()` is whether the path is in the
  disk map.
- **Environment.** `Settings.validate`, the `.env` loading and the environment overrides of the
  settings are left out: the defaults are taken as written.
- **Not core.** The `_arun` async wrappers, logging, the agent and the user interface are
  outside the modelled core.
- **Concurrency.** The cache is modelled single-threaded.
- FlightTool.DeriveSpec: a derived duration is the exact difference, not rounded to one
  decimal, so two flights whose durations differ only past the first decimal may rank
  differently under "fastest" here than in the source.
