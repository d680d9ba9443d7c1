/** `PlacesDiscoveryTool._run` (src/tools/places_tool.py): the places of a city, optionally of
    one category, rated at least the requested minimum, best rated first, the top five
    reported. */
module PlacesTool {
  import opened Wrappers
  import opened Text
  import opened Json
  import opened Seqs
  import opened Sorting
  import opened Ranks
  import opened Numbers
  import opened Loading
  import opened Tools

  const TopCount := 5
  const DefaultMinRating := 3.5

  const InvalidJsonMessage := "Error: Invalid JSON format."
  const RequiredMessage := "Error: City is required."
  const CrashPrefix := "Error searching places: "

  /** The decoded parameters: the stripped city, the stripped lower-case category ("" for any)
      and `float(min_rating)`. */
  datatype PlacesRequest = PlacesRequest(city: string, category: string, minRating: real)

  /** Reads the parameters; None where `.strip()` meets a non-string or `float()` raises. */
  function ReadRequest(params: Fields): Option<PlacesRequest> {
    match (TextOr(params, "city", ""), TextOr(params, "category", ""), FloatParam(params, "min_rating", DefaultMinRating))
    case (Some(c), Some(k), Some(m)) => Some(PlacesRequest(Strip(c), Lower(Strip(k)), m))
    case _ => None
  }

  /** `place.get("type", "").lower() == category.lower()`. */
  function TypeMatch(category: string): Fields -> Option<bool> {
    TextMatch("type", category)
  }

  /** `place.get("rating", 0) >= min_rating`. */
  function RatingTest(minRating: real): Fields -> Option<bool> {
    f => LessEq(Finite(minRating), KeyOf(FieldOr(f, "rating", Int(0))))
  }

  /** A place the comprehensions keep: in the city, of the category when one is given, and
      rated at least the minimum. */
  function Qualifies(req: PlacesRequest): Fields -> bool {
    f => && Accepts(CityMatch(req.city))(f)
         && (req.category != "" ==> Accepts(TypeMatch(req.category))(f))
         && Accepts(RatingTest(req.minRating))(f)
  }

  /** The "matching your criteria" message, naming the category when one was given. */
  function NoMatch(city: string, category: string): string {
    if category != "" then "No places found in " + city + " in category '" + category + "' matching your criteria."
    else "No places found in " + city + " matching your criteria."
  }

  /** The comprehensions: the places left for ranking, or the reply that ends the search
      before it (an exception, or one of the two "No places found" messages). */
  function Candidates(places: seq<Fields>, req: PlacesRequest): Result<seq<Fields>, Reply<PlaceLine>> {
    match Sieve(places, CityMatch(req.city))
    case None => Err(Raised(CrashPrefix))
    case Some(inCity) =>
      if inCity == [] then Err(Message("No places found in " + req.city + "."))
      else match (if req.category != "" then Sieve(inCity, TypeMatch(req.category)) else Some(inCity))
        case None => Err(Raised(CrashPrefix))
        case Some(typed) =>
          match Sieve(typed, RatingTest(req.minRating))
          case None => Err(Raised(CrashPrefix))
          case Some(candidates) =>
            if candidates == [] then
              Err(Message(NoMatch(req.city, req.category)))
            else Ok(candidates)
  }

  /** `-place.get("rating", 0)`: None where the rating is not a number (unary minus raises). */
  function NegatedRating(f: Fields): Option<real> {
    match AsNumber(FieldOr(f, "rating", Int(0)))
    case Some(x) => Some(-x)
    case None => None
  }

  /** The sort key once every key is known to exist. */
  function RatingKey(f: Fields): real {
    NegatedRating(f).GetOr(0.0)
  }

  predicate Below(a: real, b: real) {
    a < b
  }

  /** One place of the report: its name, category, rating, description when truthy, and id. */
  datatype PlaceLine = PlaceLine(name: string, category: string, rating: string, description: Option<string>, placeId: string)

  /** Formats one place; formatting never raises. */
  function ShowPlace(f: Fields): PlaceLine {
    var description := FieldOr(f, "description", Str(""));
    PlaceLine(Show(FieldOr(f, "name", Str("N/A"))), Show(FieldOr(f, "type", Str("N/A"))),
              Show(FieldOr(f, "rating", Int(0))), if Truthy(description) then Some(Show(description)) else None,
              Show(FieldOr(f, "place_id", Str("N/A"))))
  }

  /** The ranking of the places left and the report: the sort raises where a key cannot be
      negated. */
  function RankAndShow(candidates: seq<Fields>): Reply<PlaceLine> {
    if exists i :: 0 <= i < |candidates| && NegatedRating(candidates[i]).None? then Raised(CrashPrefix)
    else
      var ranked := SortBy(candidates, RatingKey, Below);
      Listing(|ranked|, ShowAll(Take(ranked, TopCount)))
  }

  /** The lines of the report, one per place. */
  function ShowAll(top: seq<Fields>): (lines: seq<PlaceLine>)
    ensures |lines| == |top|
    ensures forall i :: 0 <= i < |top| ==> lines[i] == ShowPlace(top[i])
  {
    seq(|top|, i requires 0 <= i < |top| => ShowPlace(top[i]))
  }

  /** The tool once the records are loaded. */
  function SelectPlaces(places: seq<Fields>, req: PlacesRequest): Reply<PlaceLine> {
    match Candidates(places, req)
    case Err(reply) => reply
    case Ok(candidates) => RankAndShow(candidates)
  }

  /** Whether the tool gets as far as loading the data file: the query is an object whose
      parameters read and whose city is not blank. */
  predicate LoadsData(query: Query) {
    query.Object? && ReadRequest(query.params).Some? && ReadRequest(query.params).value.city != ""
  }

  /** `PlacesDiscoveryTool._run(query)` given what loading the places file yields. */
  function PlacesReply(query: Query, loaded: Result<seq<Fields>, LoadError>): Reply<PlaceLine> {
    match query
    case Unparsable => Message(InvalidJsonMessage)
    case NotAnObject => Raised(CrashPrefix)
    case Object(params) => RequestReply(ReadRequest(params), loaded)
  }

  /** The reply once the parameters are read: the caught exception when they do not read, the
      required-city message for a blank city, and otherwise the reply after loading. */
  function RequestReply(request: Option<PlacesRequest>, loaded: Result<seq<Fields>, LoadError>): Reply<PlaceLine> {
    match request
    case None => Raised(CrashPrefix)
    case Some(req) => if req.city == "" then Message(RequiredMessage) else LoadedReply(req, loaded)
  }

  /** The reply to an accepted request, given what loading the places file yields. */
  function LoadedReply(req: PlacesRequest, loaded: Result<seq<Fields>, LoadError>): Reply<PlaceLine> {
    match loaded
    case Err(FileNotFound(path)) => Message(CrashPrefix + "Data file not found: " + path)
    case Err(InvalidJson(_)) => Message(InvalidJsonMessage)
    case Ok(places) => SelectPlaces(places, req)
  }

  /** The comprehensions in a row keep exactly the qualifying places, in order. */
  lemma {:induction false} CandidatesQualify(places: seq<Fields>, req: PlacesRequest)
    requires Sieve(places, CityMatch(req.city)).Some?
    requires var inCity := Sieve(places, CityMatch(req.city)).value;
      req.category != "" ==> Sieve(inCity, TypeMatch(req.category)).Some?
    ensures var inCity := Sieve(places, CityMatch(req.city)).value;
      var typed := if req.category != "" then Sieve(inCity, TypeMatch(req.category)).value else inCity;
      Sieve(typed, RatingTest(req.minRating)).Some? ==>
        Sieve(typed, RatingTest(req.minRating)).value == Filter(places, Qualifies(req))
  {
    var city, rating := Accepts(CityMatch(req.city)), Accepts(RatingTest(req.minRating));
    if req.category != "" {
      var kind := Accepts(TypeMatch(req.category));
      var both: Fields -> bool := f => city(f) && kind(f);
      FilterTwice(places, city, kind, both);
      FilterTwice(places, both, rating, Qualifies(req));
    } else {
      FilterTwice(places, city, rating, Qualifies(req));
    }
  }

  /** The places left for ranking are exactly the qualifying ones, in their original order. */
  lemma CandidatesSpec(places: seq<Fields>, req: PlacesRequest)
    ensures Candidates(places, req).Ok? ==> Candidates(places, req).value == Filter(places, Qualifies(req))
  {
    if Candidates(places, req).Ok? {
      CandidatesQualify(places, req);
    }
  }

  /** Every qualifying place is in the city, of the category when one is given, and has a
      numeric rating of at least the minimum. */
  lemma QualifyingSpec(req: PlacesRequest, f: Fields)
    requires Qualifies(req)(f)
    ensures TextField(f, "city").Some? && Lower(TextField(f, "city").value) == Lower(req.city)
    ensures req.category != "" ==>
      TextField(f, "type").Some? && Lower(TextField(f, "type").value) == Lower(req.category)
    ensures AsNumber(FieldOr(f, "rating", Int(0))).Some?
    ensures req.minRating <= AsNumber(FieldOr(f, "rating", Int(0))).value
  {
    assert Accepts(CityMatch(req.city))(f) && Accepts(RatingTest(req.minRating))(f);
    assert CityMatch(req.city)(f) == Some(true);
    if req.category != "" {
      assert Accepts(TypeMatch(req.category))(f);
      assert TypeMatch(req.category)(f) == Some(true);
    }
    assert LessEq(Finite(req.minRating), KeyOf(FieldOr(f, "rating", Int(0)))) == Some(true);
  }

  /** The sort never raises: every place that passed the rating test has a numeric rating. */
  lemma SortNeverRaises(places: seq<Fields>, req: PlacesRequest)
    requires Candidates(places, req).Ok?
    ensures SelectPlaces(places, req).Listing?
  {
    var candidates := Candidates(places, req).value;
    CandidatesSpec(places, req);
    FilterMembers(places, Qualifies(req));
    forall i | 0 <= i < |candidates| ensures NegatedRating(candidates[i]).Some? {
      QualifyingSpec(req, candidates[i]);
    }
  }

  /** Every qualifying place has a numeric rating. */
  lemma QualifyingRated(places: seq<Fields>, req: PlacesRequest)
    ensures var qualifying := Filter(places, Qualifies(req));
      forall i :: 0 <= i < |qualifying| ==> AsNumber(FieldOr(qualifying[i], "rating", Int(0))).Some?
  {
    var qualifying := Filter(places, Qualifies(req));
    FilterMembers(places, Qualifies(req));
    forall i | 0 <= i < |qualifying| ensures AsNumber(FieldOr(qualifying[i], "rating", Int(0))).Some? {
      QualifyingSpec(req, qualifying[i]);
    }
  }

  /** Sorted by the negated rating, numeric ratings never increase. */
  lemma RatingsDescend(ranked: seq<Fields>)
    requires forall i :: 0 <= i < |ranked| ==> AsNumber(FieldOr(ranked[i], "rating", Int(0))).Some?
    requires SortedBy(ranked, RatingKey, Below)
    ensures forall i, j :: 0 <= i < j < |ranked| ==>
      AsNumber(FieldOr(ranked[j], "rating", Int(0))).value <= AsNumber(FieldOr(ranked[i], "rating", Int(0))).value
  {
    forall i, j | 0 <= i < j < |ranked|
      ensures AsNumber(FieldOr(ranked[j], "rating", Int(0))).value <= AsNumber(FieldOr(ranked[i], "rating", Int(0))).value
    {
      assert !Below(RatingKey(ranked[j]), RatingKey(ranked[i]));
    }
  }

  /** The report over places that all have numeric ratings counts them all and shows the
      first five of their ranking: a permutation of them with the ratings never increasing
      and equal ratings in their original order. */
  lemma RankAndShowSpec(candidates: seq<Fields>)
    requires forall i :: 0 <= i < |candidates| ==> AsNumber(FieldOr(candidates[i], "rating", Int(0))).Some?
    ensures var reply := RankAndShow(candidates);
      var ranked := SortBy(candidates, RatingKey, Below);
      && reply.Listing?
      && reply.found == |candidates|
      && multiset(ranked) == multiset(candidates)
      && (forall i :: 0 <= i < |ranked| ==> AsNumber(FieldOr(ranked[i], "rating", Int(0))).Some?)
      && (forall i, j :: 0 <= i < j < |ranked| ==>
            AsNumber(FieldOr(ranked[j], "rating", Int(0))).value
              <= AsNumber(FieldOr(ranked[i], "rating", Int(0))).value)
      && StableFor(ranked, candidates, RatingKey)
      && |reply.shown| == (if |candidates| < TopCount then |candidates| else TopCount)
      && forall i :: 0 <= i < |reply.shown| ==> reply.shown[i] == ShowPlace(ranked[i])
  {
    var ranked := SortBy(candidates, RatingKey, Below);
    assert !exists i :: 0 <= i < |candidates| && NegatedRating(candidates[i]).None?;
    SortBySorted(candidates, RatingKey, Below);
    SortByStable(candidates, RatingKey, Below);
    forall i | 0 <= i < |ranked| ensures AsNumber(FieldOr(ranked[i], "rating", Int(0))).Some? {
      assert ranked[i] in multiset(candidates);
    }
    RatingsDescend(ranked);
  }

  /** A report counts every qualifying place and shows the first five of their ranking: a
      permutation of them, all with numeric ratings, the ratings never increasing and equal
      ratings in their original order. */
  lemma SelectPlacesSpec(places: seq<Fields>, req: PlacesRequest)
    ensures var reply := SelectPlaces(places, req);
      var qualifying := Filter(places, Qualifies(req));
      reply.Listing? ==>
        && reply.found == |qualifying|
        && var ranked := SortBy(qualifying, RatingKey, Below);
           && multiset(ranked) == multiset(qualifying)
           && (forall i :: 0 <= i < |ranked| ==> AsNumber(FieldOr(ranked[i], "rating", Int(0))).Some?)
           && (forall i, j :: 0 <= i < j < |ranked| ==>
                 AsNumber(FieldOr(ranked[j], "rating", Int(0))).value
                   <= AsNumber(FieldOr(ranked[i], "rating", Int(0))).value)
           && StableFor(ranked, qualifying, RatingKey)
           && |reply.shown| == (if |qualifying| < TopCount then |qualifying| else TopCount)
           && forall i :: 0 <= i < |reply.shown| ==> reply.shown[i] == ShowPlace(ranked[i])
  {
    if SelectPlaces(places, req).Listing? {
      CandidatesSpec(places, req);
      var qualifying := Filter(places, Qualifies(req));
      assert SelectPlaces(places, req) == RankAndShow(qualifying);
      QualifyingRated(places, req);
      RankAndShowSpec(qualifying);
    }
  }

  /** A query that is not JSON, not an object, or whose parameters cannot be read is answered
      with an error before any data is looked at. */
  lemma MalformedQueryIsError(query: Query, loaded: Result<seq<Fields>, LoadError>)
    requires query.Unparsable? || query.NotAnObject? || ReadRequest(query.params).None?
    ensures ReportsError(PlacesReply(query, loaded))
    ensures query.Unparsable? ==> PlacesReply(query, loaded) == Message("Error: Invalid JSON format.")
  {
  }

  /** "No places found" comes only when no place qualifies; it names the city and, in the
      second form, the category exactly when one was given. */
  lemma NoMatchMessage(places: seq<Fields>, req: PlacesRequest)
    requires Candidates(places, req).Err? && Candidates(places, req).error.Message?
    ensures Filter(places, Qualifies(req)) == []
    ensures Candidates(places, req).error.text ==
      if Filter(places, Accepts(CityMatch(req.city))) == [] then "No places found in " + req.city + "."
      else NoMatch(req.city, req.category)
  {
    var inCity := Sieve(places, CityMatch(req.city)).value;
    var typed := if req.category != "" then Sieve(inCity, TypeMatch(req.category)).value else inCity;
    assert inCity == Filter(places, Accepts(CityMatch(req.city)));
    if inCity == [] {
      assert Sieve(inCity, TypeMatch(req.category)) == Some([]);
      assert Sieve(inCity, RatingTest(req.minRating)) == Some([]);
      CandidatesQualify(places, req);
    } else {
      CandidatesQualify(places, req);
      assert Sieve(typed, RatingTest(req.minRating)).value == [];
    }
  }

  /** A city that is blank once stripped is refused before the data is looked at: the reply is
      the same whatever loading would give. */
  lemma BlankCityRefused(params: Fields, loaded: Result<seq<Fields>, LoadError>)
    requires ReadRequest(params).Some?
    requires forall k :: 0 <= k < |TextOr(params, "city", "").value| ==> IsSpace(TextOr(params, "city", "").value[k])
    ensures PlacesReply(Object(params), loaded) == Message("Error: City is required.")
  {
    var city := TextOr(params, "city", "").value;
    StripEmpty(city);
    RequestCity(params);
    BlankRequestRefused(params, loaded);
  }

  /** A request whose city is blank is refused whatever loading would give. */
  lemma BlankRequestRefused(params: Fields, loaded: Result<seq<Fields>, LoadError>)
    requires ReadRequest(params).Some? && ReadRequest(params).value.city == ""
    ensures PlacesReply(Object(params), loaded) == Message(RequiredMessage)
  {
    assert PlacesReply(Object(params), loaded) == RequestReply(ReadRequest(params), loaded);
  }

  /** The request's city is the stripped `city` parameter. */
  lemma RequestCity(params: Fields)
    requires ReadRequest(params).Some?
    ensures TextOr(params, "city", "").Some?
    ensures ReadRequest(params).value.city == Strip(TextOr(params, "city", "").value)
  {
  }

  /** Formats the places of the report one at a time. */
  method ShowPlaces(top: seq<Fields>) returns (lines: seq<PlaceLine>)
    ensures lines == ShowAll(top)
  {
    lines := [];
    for i := 0 to |top|
      invariant |lines| == i
      invariant forall k :: 0 <= k < i ==> lines[k] == ShowPlace(top[k])
    {
      lines := lines + [ShowPlace(top[i])];
    }
  }

  /** `_run` over the shared loader; the report is built one place at a time. */
  method PlacesSearch(loader: DataLoader, placesPath: string, disk: map<string, Document>, query: Query)
    returns (reply: Reply<PlaceLine>)
    requires loader.Valid()
    modifies loader
    ensures loader.Valid()
    ensures reply == PlacesReply(query, old(loader.View(placesPath, disk)))
    ensures !LoadsData(query) || placesPath in old(loader.cache) || old(loader.View(placesPath, disk)).Err? ==>
      unchanged(loader)
    ensures LoadsData(query) && placesPath !in old(loader.cache) && old(loader.View(placesPath, disk)).Ok? ==>
      && placesPath in loader.cache
      && loader.cache == old(loader.cache)[placesPath := loader.cache[placesPath]]
      && loader.keys == old(loader.keys) + [placesPath]
      && Snapshot(loader.cache[placesPath]) == old(loader.View(placesPath, disk)).value
      && forall i :: 0 <= i < |loader.cache[placesPath]| ==> fresh(loader.cache[placesPath][i])
  {
    if query.Unparsable? {
      return Message(InvalidJsonMessage);
    }
    if query.NotAnObject? {
      return Raised(CrashPrefix);
    }
    var request := ReadRequest(query.params);
    if request.None? {
      return Raised(CrashPrefix);
    }
    var req := request.value;
    if req.city == "" {
      return Message(RequiredMessage);
    }
    var loaded := loader.LoadJson(placesPath, disk);
    if loaded.Err? {
      match loaded.error
      case FileNotFound(path) =>
        return Message(CrashPrefix + "Data file not found: " + path);
      case InvalidJson(_) =>
        return Message(InvalidJsonMessage);
    }
    reply := SearchPlaces(Snapshot(loaded.value), req);
  }

  /** The tool after loading: the comprehensions, the sort and the report of the best five. */
  method SearchPlaces(places: seq<Fields>, req: PlacesRequest) returns (reply: Reply<PlaceLine>)
    ensures reply == SelectPlaces(places, req)
  {
    var candidates := Candidates(places, req);
    if candidates.Err? {
      return candidates.error;
    }
    if exists i :: 0 <= i < |candidates.value| && NegatedRating(candidates.value[i]).None? {
      return Raised(CrashPrefix);
    }
    var ranked := SortBy(candidates.value, RatingKey, Below);
    var top := Take(ranked, TopCount);
    var lines := ShowPlaces(top);
    return Listing(|ranked|, lines);
  }
}
