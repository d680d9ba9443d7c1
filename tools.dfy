/** What the agent's tools have in common: the decoded query they receive, the kinds of reply
    they give, and the case-insensitive city match the hotel and places tools share. */
module Tools {
  import opened Wrappers
  import opened Text
  import opened Json

  /** The outcome of `json.loads(query)`: not JSON at all, JSON that is not an object (its
      `.get` raises AttributeError), or an object of parameters. */
  datatype Query = Unparsable | NotAnObject | Object(params: Fields)

  /** What a tool's `_run` returns: a fixed message, the text of an exception caught by the
      final `except Exception` after the given prefix, or a report listing `found` matches of
      which `shown` are printed. */
  datatype Reply<L> = Message(text: string) | Raised(prefix: string) | Listing(found: nat, shown: seq<L>)

  predicate StartsWith(s: string, p: string) {
    |p| <= |s| && s[..|p|] == p
  }

  /** The reply is one of the error strings, which all begin with "Error". */
  predicate ReportsError<L>(r: Reply<L>) {
    match r
    case Message(t) => StartsWith(t, "Error")
    case Raised(p) => StartsWith(p, "Error")
    case Listing(_, _) => false
  }

  /** `record.get(key, "").lower() == text.lower()`; None where the stored value is not a
      string (a string method on it raises AttributeError). */
  function TextMatch(key: string, text: string): Fields -> Option<bool> {
    f => match TextField(f, key)
         case None => None
         case Some(c) => Some(Lower(c) == Lower(text))
  }

  /** The case-insensitive city test of the hotel and places tools. */
  function CityMatch(city: string): Fields -> Option<bool> {
    TextMatch("city", city)
  }

  /** The test accepts exactly the records whose value under `key` is a string equal to `text`
      up to case, a missing value counting as the empty string; it raises exactly on a value
      that is not a string. */
  lemma TextMatchSpec(key: string, text: string, f: Fields)
    ensures TextMatch(key, text)(f) == Some(true) <==>
      (key in f ==> f[key].Str?) && Lower(FieldOr(f, key, Str("")).s) == Lower(text)
    ensures TextMatch(key, text)(f).None? <==> key in f && !f[key].Str?
  {
  }
}
