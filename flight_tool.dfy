/** `FlightSearchTool._run` (src/tools/flight_tool.py): selects the flights between two cities,
    fills in a missing `duration_hours` on the selected records themselves (which are the
    records held in the loader's cache), sorts by price or duration and reports the best three. */
module FlightTool {
  import opened Wrappers
  import opened Text
  import opened Json
  import opened Seqs
  import opened Sorting
  import opened Ranks
  import opened Loading
  import opened Tools

  const TopCount := 3
  const DefaultPrice := 999999.0
  const DefaultDuration := 999.0

  const InvalidJsonMessage := "Error: Invalid JSON format."
  const RequiredMessage := "Error: Both source and destination are required."
  const CrashPrefix := "Error searching flights: "

  /** The decoded parameters: source and destination stripped, preference lower-cased. */
  datatype FlightRequest = FlightRequest(source: string, destination: string, preference: string)

  /** Reads the three parameters in order; None where `.strip()` or `.lower()` meets a value
      that is not a string. */
  function ReadRequest(params: Fields): Option<FlightRequest> {
    match (TextOr(params, "source", ""), TextOr(params, "destination", ""), TextOr(params, "preference", "cheapest"))
    case (Some(s), Some(d), Some(p)) => Some(FlightRequest(Strip(s), Strip(d), Lower(p)))
    case _ => None
  }

  /** The route test of the comprehension: `from` is compared first and `to` only when `from`
      matched (Python's `and` short-circuits); None where a compared field is not a string. */
  function RouteMatch(source: string, destination: string): Fields -> Option<bool> {
    f => match TextField(f, "from")
         case None => None
         case Some(a) =>
           if Lower(a) != Lower(source) then Some(false)
           else match TextField(f, "to")
             case None => None
             case Some(b) => Some(Lower(b) == Lower(destination))
  }

  /** A record is selected exactly when both its `from` and `to` are strings equal to the
      requested cities up to case (a missing field counting as ""); the test raises exactly when
      `from` is not a string, or `from` matches and `to` is not a string. */
  lemma RouteMatchSpec(source: string, destination: string, f: Fields)
    ensures RouteMatch(source, destination)(f) == Some(true) <==>
      && TextField(f, "from").Some? && Lower(TextField(f, "from").value) == Lower(source)
      && TextField(f, "to").Some? && Lower(TextField(f, "to").value) == Lower(destination)
    ensures RouteMatch(source, destination)(f).None? <==>
      || TextField(f, "from").None?
      || (Lower(TextField(f, "from").value) == Lower(source) && TextField(f, "to").None?)
  {
  }

  /** A parsed `datetime`: hours on a common scale, and whether it carries a UTC offset. Two
      offset-aware times are compared in UTC; two naive ones by their wall-clock reading. */
  datatype Instant = Instant(hours: real, aware: bool)

  /** `datetime.fromisoformat(f.get(key, ""))`; None where Python raises (a value that is not a
      string, or text the given parser rejects). */
  function Timestamp(f: Fields, key: string, parse: string -> Option<Instant>): Option<Instant> {
    match TextField(f, key)
    case None => None
    case Some(s) => parse(s)
  }

  /** The derived duration: arrival minus departure in hours, or the int 0 when the bare
      `except` of the derivation catches an error: a timestamp that cannot be parsed, or an
      offset-aware time subtracted from a naive one or the reverse (a TypeError). */
  function DurationOf(f: Fields, parse: string -> Option<Instant>): Value {
    match (Timestamp(f, "departure_time", parse), Timestamp(f, "arrival_time", parse))
    case (Some(dep), Some(arr)) => if dep.aware == arr.aware then Float(arr.hours - dep.hours) else Int(0)
    case _ => Int(0)
  }

  /** A record after the derivation step: unchanged when it has `duration_hours`, otherwise
      with that one field added. */
  function Derive(f: Fields, parse: string -> Option<Instant>): Fields {
    if "duration_hours" in f then f else f["duration_hours" := DurationOf(f, parse)]
  }

  /** Afterwards every record has a duration; one it already had is kept, one it lacked is the
      parsed difference, or 0 when a time is unparsable or only one of them carries an offset; no other field changes; deriving twice is deriving once. */
  lemma DeriveSpec(f: Fields, parse: string -> Option<Instant>)
    ensures var r := Derive(f, parse);
      && "duration_hours" in r
      && ("duration_hours" in f ==> r == f)
      && ("duration_hours" !in f ==>
            var dep := Timestamp(f, "departure_time", parse);
            var arr := Timestamp(f, "arrival_time", parse);
            && (dep.None? || arr.None? ==> r["duration_hours"] == Int(0))
            && (dep.Some? && arr.Some? && dep.value.aware != arr.value.aware ==> r["duration_hours"] == Int(0))
            && (dep.Some? && arr.Some? && dep.value.aware == arr.value.aware ==>
                  r["duration_hours"] == Float(arr.value.hours - dep.value.hours)))
      && (forall k :: k != "duration_hours" ==> (k in r <==> k in f) && (k in f ==> r[k] == f[k]))
      && Derive(r, parse) == r
  {
  }

  /** The whole loaded list after the derivation loop: selected records derived in place, the
      others untouched. */
  function DeriveSelected(flights: seq<Fields>, test: Fields -> bool, parse: string -> Option<Instant>): (r: seq<Fields>)
    ensures |r| == |flights|
  {
    seq(|flights|, i requires 0 <= i < |flights| => if test(flights[i]) then Derive(flights[i], parse) else flights[i])
  }

  /** `[derive(f) for f in fs]`. */
  function DeriveAll(fs: seq<Fields>, parse: string -> Option<Instant>): (r: seq<Fields>)
    ensures |r| == |fs|
  {
    seq(|fs|, i requires 0 <= i < |fs| => Derive(fs[i], parse))
  }

  /** Deriving a record leaves its route, and so whether it is selected, as it was. */
  lemma RouteAfterDerive(source: string, destination: string, f: Fields, parse: string -> Option<Instant>)
    ensures RouteMatch(source, destination)(Derive(f, parse)) == RouteMatch(source, destination)(f)
  {
    var r := Derive(f, parse);
    assert TextField(r, "from") == TextField(f, "from");
    assert TextField(r, "to") == TextField(f, "to");
  }

  /** The selected list after derivation is the selection of the derived list: deriving a
      record does not change whether it is selected. */
  lemma DeriveAllSelected(flights: seq<Fields>, source: string, destination: string, parse: string -> Option<Instant>)
    ensures var test := Accepts(RouteMatch(source, destination));
      DeriveAll(Filter(flights, test), parse) == Filter(DeriveSelected(flights, test, parse), test)
  {
    var test := Accepts(RouteMatch(source, destination));
    forall f ensures test(Derive(f, parse)) == test(f) {
      RouteAfterDerive(source, destination, f, parse);
    }
    DeriveAllFiltered(flights, test, parse);
  }

  /** For a test that deriving does not change, deriving the selection equals selecting from
      the list in which the selected records were derived. */
  lemma {:induction false} DeriveAllFiltered(flights: seq<Fields>, test: Fields -> bool, parse: string -> Option<Instant>)
    requires forall f :: test(Derive(f, parse)) == test(f)
    ensures DeriveAll(Filter(flights, test), parse) == Filter(DeriveSelected(flights, test, parse), test)
  {
    if flights != [] {
      var f := flights[0];
      DeriveAllFiltered(flights[1..], test, parse);
      var all := DeriveSelected(flights, test, parse);
      assert all[1..] == DeriveSelected(flights[1..], test, parse);
      var rest := Filter(flights[1..], test);
      assert Filter(all, test) == (if test(all[0]) then [all[0]] else []) + Filter(all[1..], test);
      if test(f) {
        assert DeriveAll([f] + rest, parse) == [Derive(f, parse)] + DeriveAll(rest, parse);
      }
    }
  }


  /** The sort key: `duration_hours` (default 999) for "fastest", `price` (default 999999)
      for any other preference. */
  function FlightKey(preference: string): Fields -> Rank {
    if preference == "fastest" then
      f => if "duration_hours" in f then KeyOf(f["duration_hours"]) else Finite(DefaultDuration)
    else
      f => if "price" in f then KeyOf(f["price"]) else Finite(DefaultPrice)
  }

  /** `sorted(selected, key=...)`: None when two keys cannot be compared (TypeError). */
  function RankFlights(selected: seq<Fields>, preference: string): Option<seq<Fields>> {
    if AllComparable(selected, FlightKey(preference)) then Some(SortBy(selected, FlightKey(preference), RankLess))
    else None
  }

  /** A ranking is a permutation of the selection, ascending by the preference's key and stable
      among equal keys; it fails exactly when two keys are incomparable. */
  lemma RankFlightsSpec(selected: seq<Fields>, preference: string)
    ensures RankFlights(selected, preference).None? <==> !AllComparable(selected, FlightKey(preference))
    ensures RankFlights(selected, preference).Some? ==>
      var r := RankFlights(selected, preference).value;
      && multiset(r) == multiset(selected)
      && SortedBy(r, FlightKey(preference), RankLess)
      && StableFor(r, selected, FlightKey(preference))
  {
    RankLessIsStrictTotalOrder();
    SortBySorted(selected, FlightKey(preference), RankLess);
    SortByStable(selected, FlightKey(preference), RankLess);
  }

  /** The departure shown for a timestamp: when `str(v)` contains 'T', the at most five
      characters after the first 'T' and before any later 'T' (None when `v` is not a string,
      which has no `split`); otherwise `str(v)` itself. */
  function Departure(v: Value): Option<string> {
    var shown := Show(v);
    if 'T' !in shown then Some(shown)
    else if !v.Str? then None
    else
      var p := IndexOf(v.s, 'T').value;
      var after := v.s[p + 1..];
      Some(Take(UpToT(after), 5))
  }

  /** A clock time is read off an ISO timestamp: the shown text directly follows the first 'T'
      of the timestamp, holds no 'T', and is cut at five characters; a timestamp without 'T' is
      shown whole. */
  lemma DepartureSpec(s: string)
    ensures 'T' !in s ==> Departure(Str(s)) == Some(s)
    ensures 'T' in s ==>
      var p := IndexOf(s, 'T').value;
      var after := s[p + 1..];
      && 'T' !in s[..p]
      && Departure(Str(s)).Some?
      && var d := Departure(Str(s)).value;
         && |d| <= 5 && |d| <= |after| && d == after[..|d|]
         && 'T' !in d
         && (|d| < 5 ==> |d| == |after| || after[|d|] == 'T')
  {
    assert Show(Str(s)) == s;
    if 'T' in s {
      var p := IndexOf(s, 'T').value;
      var after := s[p + 1..];
      assert Departure(Str(s)) == Some(Take(UpToT(after), 5));
      ClockPiece(after);
    }
  }

  /** The text up to the next 'T', or all of it. */
  function UpToT(after: string): string {
    match IndexOf(after, 'T') case None => after case Some(q) => after[..q]
  }

  /** Cutting the text after the first 'T' at the next 'T' and at five characters. */
  lemma ClockPiece(after: string)
    ensures var d := Take(UpToT(after), 5);
      && |d| <= 5 && |d| <= |after| && d == after[..|d|]
      && 'T' !in d
      && (|d| < 5 ==> |d| == |after| || after[|d|] == 'T')
  {
    var d := Take(UpToT(after), 5);
    match IndexOf(after, 'T')
    case None =>
    case Some(q) =>
      assert d == after[..q][..|d|];
      assert d == after[..|d|];
  }


  /** One option of the report. */
  datatype FlightLine = FlightLine(airline: string, price: real, duration: string, departure: string, flightId: string)

  /** Formats one option; None where the price is not a number (the `:,` format raises) or the
      departure cannot be split. */
  function ShowFlight(f: Fields): Option<FlightLine> {
    var price := AsNumber(FieldOr(f, "price", Int(0)));
    var departure := Departure(FieldOr(f, "departure_time", Str("N/A")));
    if price.None? || departure.None? then None
    else Some(FlightLine(Show(FieldOr(f, "airline", Str("N/A"))), price.value,
                        Show(FieldOr(f, "duration_hours", Int(0))), departure.value,
                        Show(FieldOr(f, "flight_id", Str("N/A")))))
  }

  /** The tool once the records are loaded: select, derive, rank, report the best three. */
  function SelectFlights(flights: seq<Fields>, req: FlightRequest, parse: string -> Option<Instant>): Reply<FlightLine> {
    match Sieve(flights, RouteMatch(req.source, req.destination))
    case None => Raised(CrashPrefix)
    case Some(selected) =>
      if selected == [] then
        Message("No flights found from " + req.source + " to " + req.destination + ".")
      else RankAndShow(DeriveAll(selected, parse), req.preference)
  }

  /** Sorts the derived selection by the preference and formats the best three. */
  function RankAndShow(derived: seq<Fields>, preference: string): Reply<FlightLine> {
    match RankFlights(derived, preference)
    case None => Raised(CrashPrefix)
    case Some(ranked) =>
      match Traverse(Take(ranked, TopCount), ShowFlight)
      case None => Raised(CrashPrefix)
      case Some(lines) => Listing(|ranked|, lines)
  }

  /** The request the query carries, when the tool gets as far as loading the data. */
  function LoadingRequest(query: Query): Option<FlightRequest> {
    if query.Object? && ReadRequest(query.params).Some?
       && ReadRequest(query.params).value.source != "" && ReadRequest(query.params).value.destination != ""
    then ReadRequest(query.params) else None
  }

  /** The reply to a query refused before loading: not JSON, not an object, parameters of the
      wrong type, or a blank city. */
  function Refusal(query: Query): Reply<FlightLine> {
    match query
    case Unparsable => Message(InvalidJsonMessage)
    case NotAnObject => Raised(CrashPrefix)
    case Object(params) => if ReadRequest(params).None? then Raised(CrashPrefix) else Message(RequiredMessage)
  }

  /** The reply when the flights file cannot be loaded. */
  function LoadFailure(error: LoadError): Reply<FlightLine> {
    match error
    case FileNotFound(path) => Message(CrashPrefix + "Data file not found: " + path)
    case InvalidJson(_) => Message(InvalidJsonMessage)
  }

  /** The reply to an accepted request, given what loading the flights file yields. */
  function LoadedReply(req: FlightRequest, loaded: Result<seq<Fields>, LoadError>, parse: string -> Option<Instant>): Reply<FlightLine> {
    match loaded
    case Err(error) => LoadFailure(error)
    case Ok(flights) => SelectFlights(flights, req, parse)
  }

  /** `FlightSearchTool._run(query)` given what loading the flights file yields. */
  function FlightReply(query: Query, loaded: Result<seq<Fields>, LoadError>, parse: string -> Option<Instant>): Reply<FlightLine> {
    match LoadingRequest(query)
    case None => Refusal(query)
    case Some(req) => LoadedReply(req, loaded, parse)
  }

  /** The loaded list after the call: derived in place when the selection succeeded. */
  function FlightsAfter(flights: seq<Fields>, req: FlightRequest, parse: string -> Option<Instant>): seq<Fields> {
    var test := RouteMatch(req.source, req.destination);
    if Sieve(flights, test).Some? then DeriveSelected(flights, Accepts(test), parse) else flights
  }

  /** A query that is not a JSON object, or whose parameters have the wrong types, gets an
      error string and never an exception. */
  lemma MalformedQueryIsError(query: Query, loaded: Result<seq<Fields>, LoadError>, parse: string -> Option<Instant>)
    requires query.Unparsable? || query.NotAnObject? || ReadRequest(query.params).None?
    ensures ReportsError(FlightReply(query, loaded, parse))
    ensures query.Unparsable? ==> FlightReply(query, loaded, parse) == Message("Error: Invalid JSON format.")
  {
  }

  /** A source or destination that is blank once stripped is refused before the data is looked
      at: the reply is the same whatever loading would give. */
  lemma BlankCityRefused(params: Fields, loaded: Result<seq<Fields>, LoadError>, parse: string -> Option<Instant>)
    requires ReadRequest(params).Some?
    requires var s, d := TextOr(params, "source", "").value, TextOr(params, "destination", "").value;
      (forall k :: 0 <= k < |s| ==> IsSpace(s[k])) || (forall k :: 0 <= k < |d| ==> IsSpace(d[k]))
    ensures FlightReply(Object(params), loaded, parse) == Message("Error: Both source and destination are required.")
    ensures LoadingRequest(Object(params)).None?
  {
    var source, destination := TextOr(params, "source", "").value, TextOr(params, "destination", "").value;
    StripEmpty(source);
    StripEmpty(destination);
    var req := ReadRequest(params).value;
    assert req.source == Strip(source) && req.destination == Strip(destination);
    assert req.source == "" || req.destination == "";
  }

  /** A report lists the count of every selected flight and shows the first three of the
      ranking of the derived selection; "No flights found" comes exactly when nothing is
      selected. */
  lemma SelectFlightsSpec(flights: seq<Fields>, req: FlightRequest, parse: string -> Option<Instant>)
    requires Sieve(flights, RouteMatch(req.source, req.destination)).Some?
    ensures var selected := Filter(flights, Accepts(RouteMatch(req.source, req.destination)));
      var reply := SelectFlights(flights, req, parse);
      && (reply.Message? <==> selected == [])
      && (reply.Listing? ==>
            && reply.found == |selected|
            && RankFlights(DeriveAll(selected, parse), req.preference).Some?
            && var ranked := RankFlights(DeriveAll(selected, parse), req.preference).value;
               && |reply.shown| == (if |selected| < TopCount then |selected| else TopCount)
               && forall i :: 0 <= i < |reply.shown| ==> ShowFlight(ranked[i]) == Some(reply.shown[i]))
  {
  }

  /** The records at the accepted positions are the comprehension's result: their contents
      are the filtered contents, and a record of the list is among them exactly when its
      contents pass. */
  lemma RecordsAtPositions(flights: seq<Record>, chosen: seq<Record>, p: Fields -> bool)
    requires |chosen| == |Positions(Snapshot(flights), p)|
    requires forall j :: 0 <= j < |chosen| ==>
      Positions(Snapshot(flights), p)[j] < |flights| && chosen[j] == flights[Positions(Snapshot(flights), p)[j]]
    ensures Snapshot(chosen) == Filter(Snapshot(flights), p)
    ensures forall j :: 0 <= j < |chosen| ==> chosen[j] in flights
    ensures forall k :: 0 <= k < |flights| ==> (flights[k] in chosen <==> p(flights[k].fields))
  {
    var before := Snapshot(flights);
    var ix := Positions(before, p);
    PositionsIncrease(before, p);
    PositionsComplete(before, p);
    PositionsPickFilter(before, p);
    forall k | 0 <= k < |flights| ensures flights[k] in chosen <==> p(flights[k].fields) {
      if p(before[k]) {
        var j :| 0 <= j < |ix| && ix[j] == k;
        assert chosen[j] == flights[k];
      }
      if flights[k] in chosen {
        var j :| 0 <= j < |chosen| && chosen[j] == flights[k];
        assert before[k] == before[ix[j]];
      }
    }
  }

  /** The comprehension over the loaded records: the matching records themselves (not
      copies), in order, or None when the test raises on some record. */
  method SelectRecords(flights: seq<Record>, test: Fields -> Option<bool>) returns (selected: Option<seq<Record>>)
    ensures selected.None? <==> Sieve(Snapshot(flights), test).None?
    ensures selected.Some? ==>
      && Snapshot(selected.value) == Filter(Snapshot(flights), Accepts(test))
      && (forall j :: 0 <= j < |selected.value| ==> selected.value[j] in flights)
      && (forall k :: 0 <= k < |flights| ==> (flights[k] in selected.value <==> Accepts(test)(flights[k].fields)))
  {
    ghost var before := Snapshot(flights);
    var chosen: seq<Record> := [];
    for i := 0 to |flights|
      invariant |chosen| == |Positions(before[..i], Accepts(test))|
      invariant forall j :: 0 <= j < |chosen| ==>
        Positions(before[..i], Accepts(test))[j] < |flights| && chosen[j] == flights[Positions(before[..i], Accepts(test))[j]]
      invariant forall k :: 0 <= k < i ==> test(before[k]).Some?
    {
      assert before[..i + 1][..i] == before[..i];
      var ok := test(flights[i].fields);
      if ok.None? {
        return None;
      }
      if ok.value {
        chosen := chosen + [flights[i]];
      }
    }
    assert before[..|flights|] == before;
    RecordsAtPositions(flights, chosen, Accepts(test));
    return Some(chosen);
  }

  /** The derivation loop: each selected record lacking `duration_hours` gets it, written into
      the record itself. A record listed twice is derived once; records not selected keep their
      fields. */
  method DeriveInPlace(flights: seq<Record>, selected: seq<Record>, test: Fields -> bool, parse: string -> Option<Instant>)
    requires forall j :: 0 <= j < |selected| ==> selected[j] in flights
    requires forall k :: 0 <= k < |flights| ==> (flights[k] in selected <==> test(flights[k].fields))
    modifies set j | 0 <= j < |selected| :: selected[j]
    ensures Snapshot(flights) == DeriveSelected(old(Snapshot(flights)), test, parse)
    ensures Snapshot(selected) == DeriveAll(old(Snapshot(selected)), parse)
  {
    ghost var before := Snapshot(flights);
    ghost var chosen := Snapshot(selected);
    for j := 0 to |selected|
      invariant forall k :: 0 <= k < |flights| ==>
        flights[k].fields == if flights[k] in selected[..j] then Derive(before[k], parse) else before[k]
      invariant forall l :: 0 <= l < |selected| ==>
        selected[l].fields == if selected[l] in selected[..j] then Derive(chosen[l], parse) else chosen[l]
    {
      var flight := selected[j];
      assert selected[..j + 1] == selected[..j] + [flight];
      if "duration_hours" !in flight.fields {
        flight.fields := flight.fields["duration_hours" := DurationOf(flight.fields, parse)];
      }
    }
    assert selected[..|selected|] == selected;
  }

  /** The tool after loading: select, derive in place, rank and report, on the loaded
      records themselves. */
  method SearchRecords(flights: seq<Record>, req: FlightRequest, parse: string -> Option<Instant>)
    returns (reply: Reply<FlightLine>)
    modifies set k | 0 <= k < |flights| :: flights[k]
    ensures reply == SelectFlights(old(Snapshot(flights)), req, parse)
    ensures Snapshot(flights) == FlightsAfter(old(Snapshot(flights)), req, parse)
  {
    ghost var before := Snapshot(flights);
    var test := RouteMatch(req.source, req.destination);
    var found := SelectRecords(flights, test);
    if found.None? {
      return Raised(CrashPrefix);
    }
    var selected := found.value;
    if selected == [] {
      FilterMembers(before, Accepts(test));
      assert DeriveSelected(before, Accepts(test), parse) == before;
      return Message("No flights found from " + req.source + " to " + req.destination + ".");
    }
    DeriveInPlace(flights, selected, Accepts(test), parse);
    var derived := Snapshot(selected);
    assert derived == DeriveAll(Filter(before, Accepts(test)), parse);
    reply := ShowRanked(derived, req.preference);
  }

  /** Ranks the derived selection and formats the best three, one line at a time. */
  method ShowRanked(derived: seq<Fields>, preference: string) returns (reply: Reply<FlightLine>)
    ensures reply == RankAndShow(derived, preference)
  {
    var key := FlightKey(preference);
    if !AllComparable(derived, key) {
      return Raised(CrashPrefix);
    }
    var ranked := SortBy(derived, key, RankLess);
    var lines := TraverseInOrder(Take(ranked, TopCount), ShowFlight);
    if lines.None? {
      return Raised(CrashPrefix);
    }
    return Listing(|ranked|, lines.value);
  }

  /** The body of `_run` from loading on: load the flights through the shared loader, then
      search the loaded records themselves. */
  method LoadAndSearch(loader: DataLoader, flightsPath: string, disk: map<string, Document>, req: FlightRequest,
                       parse: string -> Option<Instant>) returns (reply: Reply<FlightLine>)
    requires loader.Valid()
    modifies loader, loader.EntryRecords(flightsPath)
    ensures loader.Valid()
    ensures reply == LoadedReply(req, old(loader.View(flightsPath, disk)), parse)
    ensures old(loader.View(flightsPath, disk)).Err? ==> unchanged(loader)
    ensures old(loader.View(flightsPath, disk)).Ok? ==>
      && flightsPath in loader.cache
      && loader.cache == old(loader.cache)[flightsPath := loader.cache[flightsPath]]
      && (flightsPath in old(loader.cache) ==> loader.cache[flightsPath] == old(loader.cache[flightsPath]))
      && loader.keys == (if flightsPath in old(loader.cache) then old(loader.keys) else old(loader.keys) + [flightsPath])
      && Snapshot(loader.cache[flightsPath]) == FlightsAfter(old(loader.View(flightsPath, disk)).value, req, parse)
    ensures forall p :: p in old(loader.cache) && p != flightsPath ==>
      p in loader.cache && Snapshot(loader.cache[p]) == old(Snapshot(loader.cache[p]))
  {
    ghost var viewed := loader.View(flightsPath, disk);
    var loaded := loader.LoadJson(flightsPath, disk);
    if loaded.Err? {
      return LoadFailure(loaded.error);
    }
    var flights := loaded.value;
    assert viewed == Ok(Snapshot(flights)) && loader.cache[flightsPath] == flights;
    reply := SearchEntry(loader, flightsPath, req, parse);
  }

  /** The search over the records cached under `flightsPath`, which it writes to; the records
      of every other entry are left as they were. */
  method SearchEntry(loader: DataLoader, flightsPath: string, req: FlightRequest, parse: string -> Option<Instant>)
    returns (reply: Reply<FlightLine>)
    requires loader.Valid() && flightsPath in loader.cache
    modifies loader.EntryRecords(flightsPath)
    ensures reply == SelectFlights(old(Snapshot(loader.cache[flightsPath])), req, parse)
    ensures Snapshot(loader.cache[flightsPath]) == FlightsAfter(old(Snapshot(loader.cache[flightsPath])), req, parse)
    ensures forall p :: p in loader.cache && p != flightsPath ==>
      Snapshot(loader.cache[p]) == old(Snapshot(loader.cache[p]))
  {
    var flights := loader.cache[flightsPath];
    assert loader.EntryRecords(flightsPath) == set k | 0 <= k < |flights| :: flights[k];
    reply := SearchRecords(flights, req, parse);
    // The other entries hold none of the records the search wrote to.
    forall p | p in loader.cache && p != flightsPath
      ensures Snapshot(loader.cache[p]) == old(Snapshot(loader.cache[p]))
    {
      forall k | 0 <= k < |loader.cache[p]|
        ensures loader.cache[p][k].fields == old(loader.cache[p][k].fields)
      {
        assert loader.cache[p][k] in loader.EntryRecords(p);
      }
    }
  }

  /** `_run` over the shared loader. The derivation loop writes into the very records the cache
      holds, so afterwards the cached list is the derived one. */
  method FlightSearch(loader: DataLoader, flightsPath: string, disk: map<string, Document>, query: Query,
                      parse: string -> Option<Instant>) returns (reply: Reply<FlightLine>)
    requires loader.Valid()
    modifies loader, loader.EntryRecords(flightsPath)
    ensures loader.Valid()
    ensures reply == FlightReply(query, old(loader.View(flightsPath, disk)), parse)
    ensures LoadingRequest(query).None? ==> unchanged(loader) && unchanged(old(loader.EntryRecords(flightsPath)))
    ensures LoadingRequest(query).Some? && old(loader.View(flightsPath, disk)).Err? ==> unchanged(loader)
    ensures LoadingRequest(query).Some? && old(loader.View(flightsPath, disk)).Ok? ==>
      && flightsPath in loader.cache
      && loader.cache == old(loader.cache)[flightsPath := loader.cache[flightsPath]]
      && (flightsPath in old(loader.cache) ==> loader.cache[flightsPath] == old(loader.cache[flightsPath]))
      && loader.keys == (if flightsPath in old(loader.cache) then old(loader.keys) else old(loader.keys) + [flightsPath])
      && Snapshot(loader.cache[flightsPath])
         == FlightsAfter(old(loader.View(flightsPath, disk)).value, LoadingRequest(query).value, parse)
    ensures forall p :: p in old(loader.cache) && p != flightsPath ==>
      p in loader.cache && Snapshot(loader.cache[p]) == old(Snapshot(loader.cache[p]))
  {
    var request := LoadingRequest(query);
    if request.None? {
      return Refusal(query);
    }
    reply := LoadAndSearch(loader, flightsPath, disk, request.value, parse);
  }
}
