/** `HotelRecommendationTool._run` (src/tools/hotel_tool.py): the hotels of a city with at least
    the requested stars and, when a ceiling is given, at most the requested nightly price,
    best stars first and cheapest first among equal stars, the top three reported. */
module HotelTool {
  import opened Wrappers
  import opened Text
  import opened Json
  import opened Seqs
  import opened Sorting
  import opened Ranks
  import opened Numbers
  import opened Loading
  import opened Tools

  const TopCount := 3
  const DefaultMinStars := 3

  /** The usual invalid-JSON message with a hint at the expected parameter. */
  const InvalidJsonMessage := "Error: Invalid JSON format." + " Please provide valid JSON with 'city'."
  const RequiredMessage := "Error: City is required."
  const CrashPrefix := "Error searching hotels: "

  /** The decoded parameters: the stripped city, `int(min_rating)` and the raw price ceiling
      (None when absent). */
  datatype HotelRequest = HotelRequest(city: string, minStars: int, maxPrice: Value)

  /** Reads the parameters in order; None where `.strip()` meets a non-string or `int()`
      raises. */
  function ReadRequest(params: Fields): Option<HotelRequest> {
    match (TextOr(params, "city", ""), IntParam(params, "min_rating", DefaultMinStars))
    case (Some(c), Some(m)) => Some(HotelRequest(Strip(c), m, FieldOr(params, "max_price_per_night", Null)))
    case _ => None
  }

  /** `hotel.get("stars", 0) >= min_rating`. */
  function StarsTest(minStars: int): Fields -> Option<bool> {
    f => LessEq(Finite(minStars as real), KeyOf(FieldOr(f, "stars", Int(0))))
  }

  /** `hotel.get("price_per_night", float('inf')) <= max_price`. */
  function PriceTest(maxPrice: Value): Fields -> Option<bool> {
    f => LessEq(if "price_per_night" in f then KeyOf(f["price_per_night"]) else Infinity, KeyOf(maxPrice))
  }

  /** Missing stars count as 0; a hotel without a price never passes a ceiling that applies. */
  lemma DefaultsSpec(minStars: int, maxPrice: Value, f: Fields)
    ensures "stars" !in f ==> StarsTest(minStars)(f) == Some(minStars <= 0)
    ensures "price_per_night" !in f ==> PriceTest(maxPrice)(f) != Some(true)
  {
  }

  /** A hotel the three comprehensions keep: in the city, with enough stars, and within the
      ceiling when the ceiling is truthy. */
  function Qualifies(req: HotelRequest): Fields -> bool {
    f => && Accepts(CityMatch(req.city))(f)
         && Accepts(StarsTest(req.minStars))(f)
         && (Truthy(req.maxPrice) ==> Accepts(PriceTest(req.maxPrice))(f))
  }

  /** The sort key `(-stars, price_per_night)` with the price defaulting to 0. */
  function HotelKey(f: Fields): (Rank, Rank) {
    (match AsNumber(FieldOr(f, "stars", Int(0))) case Some(x) => Finite(-x) case None => Unordered,
     KeyOf(FieldOr(f, "price_per_night", Int(0))))
  }

  /** Python's tuple order: by the first component, then by the second. */
  predicate HotelLess(a: (Rank, Rank), b: (Rank, Rank)) {
    RankLess(a.0, b.0) || (a.0 == b.0 && RankLess(a.1, b.1))
  }

  lemma HotelLessIsStrictTotalOrder()
    ensures StrictTotalOrder(HotelLess)
  {
    RankLessIsStrictTotalOrder();
    forall a, b, c | HotelLess(a, b) && HotelLess(b, c) ensures HotelLess(a, c) {
    }
    forall a, b | a != b ensures HotelLess(a, b) || HotelLess(b, a) {
    }
  }

  /** Two tuples compare without raising: equal star keys lead to comparing the prices, which
      is fine when they are equal (Python's `==` on tuple items comes first) or comparable. */
  predicate KeysCompatible(a: Fields, b: Fields) {
    var ka, kb := HotelKey(a), HotelKey(b);
    ka.0 != kb.0 || Comparable(ka.1, kb.1)
      || FieldOr(a, "price_per_night", Int(0)) == FieldOr(b, "price_per_night", Int(0))
  }

  /** The sort succeeds: no two hotels with the same stars have prices Python cannot compare. */
  predicate Sortable(hotels: seq<Fields>) {
    forall i, j :: 0 <= i < j < |hotels| ==> KeysCompatible(hotels[i], hotels[j])
  }

  /** Formats one hotel's amenities: nothing when the value is falsy, `', '.join(...)` of a list
      of strings or of the characters of a string, None where `join` raises. */
  function Amenities(v: Value): Option<Option<string>> {
    if !Truthy(v) then Some(None)
    else match v
      case Str(s) => Some(Some(Join(seq(|s|, i requires 0 <= i < |s| => [s[i]]), ", ")))
      case List(items) =>
        if forall i :: 0 <= i < |items| ==> items[i].Str? then
          Some(Some(Join(seq(|items|, i requires 0 <= i < |items| => items[i].s), ", ")))
        else None
      case _ => None
  }

  /** `sep.join(parts)`. */
  function Join(parts: seq<string>, sep: string): string {
    if parts == [] then ""
    else if |parts| == 1 then parts[0]
    else parts[0] + sep + Join(parts[1..], sep)
  }

  /** One hotel of the report. */
  datatype HotelLine = HotelLine(name: string, stars: string, price: real, amenities: Option<string>, hotelId: string)

  /** Formats one hotel; None where the price is not a number (the `:,` format raises) or the
      amenities cannot be joined. */
  function ShowHotel(f: Fields): Option<HotelLine> {
    var price := AsNumber(FieldOr(f, "price_per_night", Int(0)));
    var amenities := Amenities(FieldOr(f, "amenities", List([])));
    if price.None? || amenities.None? then None
    else Some(HotelLine(Show(FieldOr(f, "name", Str("N/A"))), Show(FieldOr(f, "stars", Int(0))),
                        price.value, amenities.value, Show(FieldOr(f, "hotel_id", Str("N/A")))))
  }

  /** The ranking and the report of the hotels that passed the filters. */
  function RankAndShow(candidates: seq<Fields>): Reply<HotelLine> {
    if !Sortable(candidates) then Raised(CrashPrefix)
    else
      var ranked := SortBy(candidates, HotelKey, HotelLess);
      match Traverse(Take(ranked, TopCount), ShowHotel)
      case None => Raised(CrashPrefix)
      case Some(lines) => Listing(|ranked|, lines)
  }

  /** The three comprehensions: the hotels left for ranking, or the reply that ends the
      search before it (an exception, or one of the two "No hotels found" messages). */
  function Candidates(hotels: seq<Fields>, req: HotelRequest): Result<seq<Fields>, Reply<HotelLine>> {
    match Sieve(hotels, CityMatch(req.city))
    case None => Err(Raised(CrashPrefix))
    case Some(inCity) =>
      if inCity == [] then Err(Message("No hotels found in " + req.city + "."))
      else match Sieve(inCity, StarsTest(req.minStars))
        case None => Err(Raised(CrashPrefix))
        case Some(rated) =>
          match (if Truthy(req.maxPrice) then Sieve(rated, PriceTest(req.maxPrice)) else Some(rated))
          case None => Err(Raised(CrashPrefix))
          case Some(candidates) =>
            if candidates == [] then Err(Message("No hotels found in " + req.city + " matching your criteria."))
            else Ok(candidates)
  }

  /** The tool once the records are loaded. */
  function SelectHotels(hotels: seq<Fields>, req: HotelRequest): Reply<HotelLine> {
    match Candidates(hotels, req)
    case Err(reply) => reply
    case Ok(candidates) => RankAndShow(candidates)
  }

  /** Whether the tool gets as far as loading the data file: the query is an object whose
      parameters read and whose city is not blank. */
  predicate LoadsData(query: Query) {
    query.Object? && ReadRequest(query.params).Some? && ReadRequest(query.params).value.city != ""
  }

  /** `HotelRecommendationTool._run(query)` given what loading the hotels file yields. */
  function HotelReply(query: Query, loaded: Result<seq<Fields>, LoadError>): Reply<HotelLine> {
    match query
    case Unparsable => Message(InvalidJsonMessage)
    case NotAnObject => Raised(CrashPrefix)
    case Object(params) => RequestReply(ReadRequest(params), loaded)
  }

  /** The reply once the parameters are read: the caught exception when they do not read, the
      required-city message for a blank city, and otherwise the reply after loading. */
  function RequestReply(request: Option<HotelRequest>, loaded: Result<seq<Fields>, LoadError>): Reply<HotelLine> {
    match request
    case None => Raised(CrashPrefix)
    case Some(req) => if req.city == "" then Message(RequiredMessage) else LoadedReply(req, loaded)
  }

  /** The reply to an accepted request, given what loading the hotels file yields. */
  function LoadedReply(req: HotelRequest, loaded: Result<seq<Fields>, LoadError>): Reply<HotelLine> {
    match loaded
    case Err(FileNotFound(path)) => Message(CrashPrefix + "Data file not found: " + path)
    case Err(InvalidJson(_)) => Message(InvalidJsonMessage)
    case Ok(hotels) => SelectHotels(hotels, req)
  }

  /** The comprehensions in a row keep exactly the qualifying hotels, in order. */
  lemma {:induction false} CandidatesQualify(hotels: seq<Fields>, req: HotelRequest)
    requires Sieve(hotels, CityMatch(req.city)).Some?
    requires Sieve(Sieve(hotels, CityMatch(req.city)).value, StarsTest(req.minStars)).Some?
    ensures var rated := Sieve(Sieve(hotels, CityMatch(req.city)).value, StarsTest(req.minStars)).value;
      && (!Truthy(req.maxPrice) ==> rated == Filter(hotels, Qualifies(req)))
      && (Truthy(req.maxPrice) && Sieve(rated, PriceTest(req.maxPrice)).Some? ==>
            Sieve(rated, PriceTest(req.maxPrice)).value == Filter(hotels, Qualifies(req)))
  {
    var city, stars := Accepts(CityMatch(req.city)), Accepts(StarsTest(req.minStars));
    var both: Fields -> bool := f => city(f) && stars(f);
    FilterTwice(hotels, city, stars, both);
    if Truthy(req.maxPrice) {
      var price := Accepts(PriceTest(req.maxPrice));
      FilterTwice(hotels, both, price, Qualifies(req));
    } else {
      FilterSameTest(hotels, both, Qualifies(req));
    }
  }

  /** The hotels left for ranking are exactly the qualifying ones, in their original order. */
  lemma CandidatesSpec(hotels: seq<Fields>, req: HotelRequest)
    ensures Candidates(hotels, req).Ok? ==> Candidates(hotels, req).value == Filter(hotels, Qualifies(req))
  {
    if Candidates(hotels, req).Ok? {
      CandidatesQualify(hotels, req);
    }
  }

  /** A report counts every qualifying hotel and shows the first three of their ranking; the
      ranking is a permutation of them with stars never increasing, prices never decreasing
      among equal stars, and ties in their original order. */
  lemma SelectHotelsSpec(hotels: seq<Fields>, req: HotelRequest)
    ensures var reply := SelectHotels(hotels, req);
      var qualifying := Filter(hotels, Qualifies(req));
      reply.Listing? ==>
        && reply.found == |qualifying|
        && Sortable(qualifying)
        && var ranked := SortBy(qualifying, HotelKey, HotelLess);
           && multiset(ranked) == multiset(qualifying)
           && (forall i, j :: 0 <= i < j < |ranked| ==>
                 && !RankLess(HotelKey(ranked[j]).0, HotelKey(ranked[i]).0)
                 && (HotelKey(ranked[i]).0 == HotelKey(ranked[j]).0 ==>
                       !RankLess(HotelKey(ranked[j]).1, HotelKey(ranked[i]).1)))
           && StableFor(ranked, qualifying, HotelKey)
           && |reply.shown| == (if |qualifying| < TopCount then |qualifying| else TopCount)
           && forall i :: 0 <= i < |reply.shown| ==> ShowHotel(ranked[i]) == Some(reply.shown[i])
  {
    var reply := SelectHotels(hotels, req);
    if reply.Listing? {
      CandidatesSpec(hotels, req);
      var qualifying := Filter(hotels, Qualifies(req));
      RankedHotels(qualifying);
    }
  }

  /** The ranking orders stars descending, then prices ascending, and keeps full ties in
      their input order. */
  lemma RankedHotels(qualifying: seq<Fields>)
    ensures var ranked := SortBy(qualifying, HotelKey, HotelLess);
      && (forall i, j :: 0 <= i < j < |ranked| ==>
            && !RankLess(HotelKey(ranked[j]).0, HotelKey(ranked[i]).0)
            && (HotelKey(ranked[i]).0 == HotelKey(ranked[j]).0 ==>
                  !RankLess(HotelKey(ranked[j]).1, HotelKey(ranked[i]).1)))
      && StableFor(ranked, qualifying, HotelKey)
  {
    HotelLessIsStrictTotalOrder();
    SortBySorted(qualifying, HotelKey, HotelLess);
    SortByStable(qualifying, HotelKey, HotelLess);
  }

  /** Every shown hotel qualifies: it is in the city, has at least the requested stars, and
      is within a ceiling that applies. */
  lemma QualifyingSpec(req: HotelRequest, f: Fields)
    requires Qualifies(req)(f)
    ensures TextField(f, "city").Some? && Lower(TextField(f, "city").value) == Lower(req.city)
    ensures AsNumber(FieldOr(f, "stars", Int(0))).Some?
    ensures req.minStars as real <= AsNumber(FieldOr(f, "stars", Int(0))).value
    ensures Truthy(req.maxPrice) && AsNumber(req.maxPrice).Some? ==>
      "price_per_night" in f && AsNumber(f["price_per_night"]).Some?
      && AsNumber(f["price_per_night"]).value <= AsNumber(req.maxPrice).value
  {
    assert Accepts(CityMatch(req.city))(f) && Accepts(StarsTest(req.minStars))(f);
    assert CityMatch(req.city)(f) == Some(true);
    var stars := KeyOf(FieldOr(f, "stars", Int(0)));
    assert LessEq(Finite(req.minStars as real), stars) == Some(true);
    if Truthy(req.maxPrice) && AsNumber(req.maxPrice).Some? {
      var price := if "price_per_night" in f then KeyOf(f["price_per_night"]) else Infinity;
      assert LessEq(price, KeyOf(req.maxPrice)) == Some(true);
    }
  }

  /** "No hotels found" comes only when no hotel qualifies: the short form when no hotel is in
      the city at all, the "matching your criteria" form when some are but none passes the star
      and price filters. */
  lemma NoMatchMessage(hotels: seq<Fields>, req: HotelRequest)
    requires Candidates(hotels, req).Err? && Candidates(hotels, req).error.Message?
    ensures Filter(hotels, Qualifies(req)) == []
    ensures Candidates(hotels, req).error.text ==
      if Filter(hotels, Accepts(CityMatch(req.city))) == [] then "No hotels found in " + req.city + "."
      else "No hotels found in " + req.city + " matching your criteria."
  {
    var inCity := Sieve(hotels, CityMatch(req.city)).value;
    assert inCity == Filter(hotels, Accepts(CityMatch(req.city)));
    if inCity == [] {
      assert Sieve(inCity, StarsTest(req.minStars)) == Some([]);
      assert Sieve([], PriceTest(req.maxPrice)) == Some([]);
      CandidatesQualify(hotels, req);
    } else {
      CandidatesQualify(hotels, req);
    }
  }

  /** A city that is blank once stripped is refused before the data is looked at: the reply is
      the same whatever loading would give. */
  lemma BlankCityRefused(params: Fields, loaded: Result<seq<Fields>, LoadError>)
    requires ReadRequest(params).Some?
    requires forall k :: 0 <= k < |TextOr(params, "city", "").value| ==> IsSpace(TextOr(params, "city", "").value[k])
    ensures HotelReply(Object(params), loaded) == Message("Error: City is required.")
  {
    var city := TextOr(params, "city", "").value;
    StripEmpty(city);
    RequestCity(params);
    BlankRequestRefused(params, loaded);
  }

  /** A request whose city is blank is refused whatever loading would give. */
  lemma BlankRequestRefused(params: Fields, loaded: Result<seq<Fields>, LoadError>)
    requires ReadRequest(params).Some? && ReadRequest(params).value.city == ""
    ensures HotelReply(Object(params), loaded) == Message(RequiredMessage)
  {
    assert HotelReply(Object(params), loaded) == RequestReply(ReadRequest(params), loaded);
  }

  /** The request's city is the stripped `city` parameter. */
  lemma RequestCity(params: Fields)
    requires ReadRequest(params).Some?
    ensures TextOr(params, "city", "").Some?
    ensures ReadRequest(params).value.city == Strip(TextOr(params, "city", "").value)
  {
  }

  /** A query that is not JSON, not an object, or whose parameters cannot be read is answered
      with an error before any data is looked at. */
  lemma MalformedQueryIsError(query: Query, loaded: Result<seq<Fields>, LoadError>)
    requires query.Unparsable? || query.NotAnObject? || ReadRequest(query.params).None?
    ensures ReportsError(HotelReply(query, loaded))
    ensures query.Unparsable? ==> HotelReply(query, loaded) == Message(InvalidJsonMessage)
  {
  }

  /** `_run` over the shared loader; the report is built one hotel at a time. */
  method HotelSearch(loader: DataLoader, hotelsPath: string, disk: map<string, Document>, query: Query)
    returns (reply: Reply<HotelLine>)
    requires loader.Valid()
    modifies loader
    ensures loader.Valid()
    ensures reply == HotelReply(query, old(loader.View(hotelsPath, disk)))
    ensures !LoadsData(query) || hotelsPath in old(loader.cache) || old(loader.View(hotelsPath, disk)).Err? ==>
      unchanged(loader)
    ensures LoadsData(query) && hotelsPath !in old(loader.cache) && old(loader.View(hotelsPath, disk)).Ok? ==>
      && hotelsPath in loader.cache
      && loader.cache == old(loader.cache)[hotelsPath := loader.cache[hotelsPath]]
      && loader.keys == old(loader.keys) + [hotelsPath]
      && Snapshot(loader.cache[hotelsPath]) == old(loader.View(hotelsPath, disk)).value
      && forall i :: 0 <= i < |loader.cache[hotelsPath]| ==> fresh(loader.cache[hotelsPath][i])
  {
    if query.Unparsable? {
      return Message(InvalidJsonMessage);
    }
    if query.NotAnObject? {
      return Raised(CrashPrefix);
    }
    var request := ReadRequest(query.params);
    if request.None? {
      return Raised(CrashPrefix);
    }
    var req := request.value;
    if req.city == "" {
      return Message(RequiredMessage);
    }
    var loaded := loader.LoadJson(hotelsPath, disk);
    if loaded.Err? {
      match loaded.error
      case FileNotFound(path) =>
        return Message(CrashPrefix + "Data file not found: " + path);
      case InvalidJson(_) =>
        return Message(InvalidJsonMessage);
    }
    reply := SearchHotels(Snapshot(loaded.value), req);
  }

  /** The tool after loading: the comprehensions, the sort and the report of the best three. */
  method SearchHotels(hotels: seq<Fields>, req: HotelRequest) returns (reply: Reply<HotelLine>)
    ensures reply == SelectHotels(hotels, req)
  {
    var candidates := Candidates(hotels, req);
    if candidates.Err? {
      return candidates.error;
    }
    if !Sortable(candidates.value) {
      return Raised(CrashPrefix);
    }
    var ranked := SortBy(candidates.value, HotelKey, HotelLess);
    var lines := TraverseInOrder(Take(ranked, TopCount), ShowHotel);
    if lines.None? {
      return Raised(CrashPrefix);
    }
    return Listing(|ranked|, lines.value);
  }
}
