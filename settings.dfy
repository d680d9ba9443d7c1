/** The constants of `Settings` (config/settings.py) the tools use: the budget and trip-length
    defaults and the table of city coordinates behind the weather lookup. */
module Settings {
  import opened Wrappers
  import opened Text

  const DefaultDailyExpense := 2000
  const MinTripDays := 3
  const MaxTripDays := 7

  /** One entry of the coordinates table. */
  datatype Coordinates = Coordinates(latitude: real, longitude: real)

  /** The cities the table knows, in the order they are listed. */
  const CityNames: seq<string> := [
    "mumbai", "delhi", "bangalore", "kolkata", "chennai", "hyderabad", "pune", "ahmedabad",
    "jaipur", "goa", "kochi", "udaipur", "varanasi", "shimla", "manali", "darjeeling", "agra",
    "amritsar", "mysore", "rishikesh"]

  const CityCoordinates: map<string, Coordinates> := map[
    "mumbai" := Coordinates(19.0760, 72.8777),
    "delhi" := Coordinates(28.7041, 77.1025),
    "bangalore" := Coordinates(12.9716, 77.5946),
    "kolkata" := Coordinates(22.5726, 88.3639),
    "chennai" := Coordinates(13.0827, 80.2707),
    "hyderabad" := Coordinates(17.3850, 78.4867),
    "pune" := Coordinates(18.5204, 73.8567),
    "ahmedabad" := Coordinates(23.0225, 72.5714),
    "jaipur" := Coordinates(26.9124, 75.7873),
    "goa" := Coordinates(15.2993, 74.1240),
    "kochi" := Coordinates(9.9312, 76.2673),
    "udaipur" := Coordinates(24.5854, 73.7125),
    "varanasi" := Coordinates(25.3176, 82.9739),
    "shimla" := Coordinates(31.1048, 77.1734),
    "manali" := Coordinates(32.2432, 77.1892),
    "darjeeling" := Coordinates(27.0410, 88.2663),
    "agra" := Coordinates(27.1767, 78.0081),
    "amritsar" := Coordinates(31.6340, 74.8723),
    "mysore" := Coordinates(12.2958, 76.6394),
    "rishikesh" := Coordinates(30.0869, 78.2676)]

  /** `Settings.get_city_coordinates(city)`: the entry under the lower-cased name, if any. */
  function GetCityCoordinates(city: string): Option<Coordinates> {
    if Lower(city) in CityCoordinates then Some(CityCoordinates[Lower(city)]) else None
  }

  /** The table holds exactly the listed cities. */
  lemma TableNames()
    ensures forall i :: 0 <= i < |CityNames| ==> CityNames[i] in CityCoordinates
    ensures forall name :: name in CityCoordinates ==> name in CityNames
  {
  }

  /** Twenty cities, no name listed twice. */
  lemma NamesDistinct()
    ensures |CityNames| == 20
    ensures forall i, j :: 0 <= i < j < |CityNames| ==> CityNames[i] != CityNames[j]
  {
  }

  /** Every name in the table is lower case, so the lower-cased lookup can find each one. */
  lemma TableLower()
    ensures forall name :: name in CityCoordinates ==> IsLower(name)
  {
  }

  /** Every entry is a point on the globe. */
  lemma TableOnGlobe()
    ensures forall name :: name in CityCoordinates ==>
      -90.0 <= CityCoordinates[name].latitude <= 90.0 && -180.0 <= CityCoordinates[name].longitude <= 180.0
  {
  }

  /** The lookup ignores case: names equal up to case find the same entry; every listed city is
      found under any capitalisation, and a name the table lacks finds nothing. */
  lemma LookupSpec(city: string)
    ensures forall other :: Lower(other) == Lower(city) ==> GetCityCoordinates(other) == GetCityCoordinates(city)
    ensures GetCityCoordinates(city).Some? <==> exists i :: 0 <= i < |CityNames| && Lower(city) == CityNames[i]
    ensures GetCityCoordinates(city).Some? ==> GetCityCoordinates(city).value == CityCoordinates[Lower(city)]
  {
    TableNames();
  }

  /** Mixed case finds the lower-case entry; a city outside the table finds nothing. */
  lemma LookupExamples()
    ensures GetCityCoordinates("Goa") == Some(Coordinates(15.2993, 74.1240))
    ensures GetCityCoordinates("MUMBAI") == Some(Coordinates(19.0760, 72.8777))
    ensures GetCityCoordinates("London") == None
  {
    assert Lower("Goa") == "goa";
    assert Lower("MUMBAI") == "mumbai";
    assert Lower("London") == "london";
  }
}
