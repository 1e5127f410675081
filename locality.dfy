/** Enrichment of one row: format_result shapes the output record from a
    decoded Mindat response, and handle_line picks the location cell, queries
    the Mindat localities endpoint and falls back to a degraded record when
    anything inside the query fails. */
module Locality {
  import opened PyValues

  /** An output record: the dict that format_result builds. */
  type Record = map<string, Json>

  const UNAVAILABLE: string := "Unable to retrieve verbatim location"
  const QUERY_PREFIX: string := "https://api.mindat.org/localities/?txt="

  const BASE_KEYS: set<string> := {"id", "original_locality"}
  const MATCH_KEYS: set<string> := {"mindat_id", "mindat_text", "mindat_latitude", "mindat_longitude"}

  /** The HTTP GET that handle_line issues: a URL and its Authorization header. */
  datatype Request = Request(url: string, authorization: string)

  /** Why the query produced no decoded document. */
  datatype FetchFailure = ConnectionFailed | BodyNotJson

  /** What requests.get followed by json.loads gives back: a failure, or the
      decoded body. */
  datatype Reply = Failed(reason: FetchFailure) | Parsed(document: Json)

  /** The record with only the two identifying keys. */
  function Unmatched(id: string, locality: string): (r: Record)
    ensures r.Keys == BASE_KEYS
    ensures r["id"] == JStr(id) && r["original_locality"] == JStr(locality)
  {
    map["id" := JStr(id), "original_locality" := JStr(locality)]
  }

  /** The response reports no match: it is falsy, or its "results" entry is
      present and of length zero. */
  predicate ReportsNoMatch(response: Json) {
    || !Truthy(response)
    || (response.JObj? && "results" in response.fields
        && Len(response.fields["results"]) == Returned(0))
  }

  /** The first result of a response whose "results" entry is a non-empty
      list starting with an object; None for every other response. */
  function FirstResult(response: Json): Option<map<string, Json>> {
    if response.JObj? && "results" in response.fields then
      var results := response.fields["results"];
      if results.JArr? && |results.items| > 0 && results.items[0].JObj? then
        Some(results.items[0].fields)
      else
        None
    else
      None
  }

  /** format_result: the identifying keys, plus the four mindat_* keys taken
      from the first result when the response is truthy and its results are
      non-empty. Raises when the response does not have the shape that the
      code's attribute accesses expect. */
  function FormatResult(id: string, locality: string, response: Json): (r: Outcome<Record>)
    ensures r.Returned? ==>
      && BASE_KEYS <= r.value.Keys
      && r.value["id"] == JStr(id)
      && r.value["original_locality"] == JStr(locality)
    ensures r.Returned? ==> r.value.Keys == BASE_KEYS || r.value.Keys == BASE_KEYS + MATCH_KEYS
    ensures ReportsNoMatch(response) ==> r == Returned(Unmatched(id, locality))
    ensures FirstResult(response).Some? ==>
      var first := FirstResult(response).value;
      && r.Returned? && r.value.Keys == BASE_KEYS + MATCH_KEYS
      && r.value["mindat_id"] == Get(first, "id")
      && r.value["mindat_text"] == Get(first, "txt")
      && r.value["mindat_latitude"] == Get(first, "latitude")
      && r.value["mindat_longitude"] == Get(first, "longitude")
    ensures r.Raised? <==> !ReportsNoMatch(response) && FirstResult(response).None?
  {
    var result := Unmatched(id, locality);
    if !Truthy(response) then
      Returned(result)
    else
      match CallGet(response, "results")
      case Raised(e) => Raised(e)
      case Returned(results) =>
        match Len(results)
        case Raised(e) => Raised(e)
        case Returned(n) =>
          if n == 0 then
            Returned(result)
          else
            match Subscript0(results)
            case Raised(e) => Raised(e)
            case Returned(first) =>
              if !first.JObj? then
                Raised(AttributeError)
              else
                Returned(result["mindat_id" := Get(first.fields, "id")]
                               ["mindat_text" := Get(first.fields, "txt")]
                               ["mindat_latitude" := Get(first.fields, "latitude")]
                               ["mindat_longitude" := Get(first.fields, "longitude")])
  }

  /** The URL handle_line queries: the fixed endpoint prefix followed by the
      location text exactly as it stands in the cell. */
  function QueryUrl(location: string): (url: string)
    ensures |url| == |QUERY_PREFIX| + |location|
    ensures url[..|QUERY_PREFIX|] == QUERY_PREFIX && url[|QUERY_PREFIX|..] == location
  {
    QUERY_PREFIX + location
  }

  /** The request for a location, carrying the token as "Token <token>". */
  function QueryFor(location: string, token: string): (r: Request)
    ensures r.url == QueryUrl(location) && r.url[|QUERY_PREFIX|..] == location
    ensures r.authorization == "Token " + token
  {
    Request(QueryUrl(location), "Token " + token)
  }

  /** The result of format_result, lifted to the Optional return of
      handle_line. */
  function Lift(r: Outcome<Record>): Outcome<Option<Record>> {
    match r
    case Returned(rec) => Returned(Some(rec))
    case Raised(e) => Raised(e)
  }

  /** handle_line. Indexing the row happens outside the try, so a location
      column out of range raises IndexError out of this function. Everything
      inside the try (the lookup, decoding, format_result) degrades to the
      record without Mindat fields. The Python function falls off its end
      (returns None) only in the nested empty-location branch, which the outer
      test makes unreachable. */
  function HandleLine(row: seq<string>, locationColumn: int, token: string, lookup: Request -> Reply)
    : (r: Outcome<Option<Record>>)
    ensures r.Raised? <==> !(-|row| <= locationColumn < |row|)
    ensures r.Raised? ==> r.error == IndexError
    ensures r.Returned? ==>
      && r.value.Some? && |row| > 0
      && "id" in r.value.value && r.value.value["id"] == JStr(row[0])
    ensures r.Returned? ==> r.value.value.Keys == BASE_KEYS || r.value.value.Keys == BASE_KEYS + MATCH_KEYS
  {
    match PyIndex(row, locationColumn)
    case Raised(e) => Raised(e)
    case Returned(location) =>
      if location == "" then
        Lift(FormatResult(row[0], UNAVAILABLE, JNull))
      else if location == "" then
        Returned(None)
      else
        var degraded := Lift(FormatResult(row[0], location, JNull));
        match lookup(QueryFor(location, token))
        case Failed(_) => degraded
        case Parsed(document) =>
          match FormatResult(row[0], location, document)
          case Returned(rec) => Returned(Some(rec))
          case Raised(_) => degraded
  }

  /** Only the first result is read: whatever follows it in the results list,
      and whatever other keys the response carries, the outcome (record or
      exception) is the one a response holding just that first result gives. */
  lemma FirstResultWins(id: string, locality: string, fields: map<string, Json>,
                        first: Json, rest: seq<Json>)
    requires "results" in fields && fields["results"] == JArr([first] + rest)
    ensures FormatResult(id, locality, JObj(fields))
         == FormatResult(id, locality, JObj(map["results" := JArr([first])]))
  {
  }

  /** A key absent from the first result still appears in the record, with
      the value None. */
  lemma MissingKeyBecomesNone(id: string, locality: string, response: Json)
    requires FirstResult(response).Some? && "txt" !in FirstResult(response).value
    ensures FormatResult(id, locality, response).Returned?
    ensures "mindat_text" in FormatResult(id, locality, response).value
    ensures FormatResult(id, locality, response).value["mindat_text"] == JNull
  {
  }

  /** A truthy response without a "results" entry (or with results null)
      makes len(None) raise TypeError inside format_result. */
  lemma MissingResultsRaises(id: string, locality: string, fields: map<string, Json>)
    requires fields != map[]
    requires "results" !in fields || fields["results"] == JNull
    ensures FormatResult(id, locality, JObj(fields)) == Raised(TypeError)
  {
  }

  /** The URL determines the location it was built from. */
  lemma QueryUrlInjective(a: string, b: string)
    requires QueryUrl(a) == QueryUrl(b)
    ensures a == b
  {
  }

  /** An empty location cell yields the placeholder record, and the lookup
      is never consulted: any two lookups give the same result. */
  lemma EmptyLocationSkipsLookup(row: seq<string>, locationColumn: int, token: string,
                                 lookup: Request -> Reply, other: Request -> Reply)
    requires PyIndex(row, locationColumn) == Returned("")
    ensures HandleLine(row, locationColumn, token, lookup) == Returned(Some(Unmatched(row[0], UNAVAILABLE)))
    ensures HandleLine(row, locationColumn, token, lookup) == HandleLine(row, locationColumn, token, other)
  {
  }

  /** For a non-empty location the lookup is consulted once, with the query
      for that location: lookups that agree on that request give the same
      result. */
  lemma LookupOnlyForQuery(row: seq<string>, locationColumn: int, token: string,
                           lookup: Request -> Reply, other: Request -> Reply)
    requires PyIndex(row, locationColumn).Returned?
    requires lookup(QueryFor(PyIndex(row, locationColumn).value, token))
          == other(QueryFor(PyIndex(row, locationColumn).value, token))
    ensures HandleLine(row, locationColumn, token, lookup) == HandleLine(row, locationColumn, token, other)
  {
  }

  /** A lookup whose decoded response format_result accepts gives exactly
      the record format_result builds for the row's first cell and the
      location text. */
  lemma SuccessfulLookup(row: seq<string>, locationColumn: int, token: string,
                         lookup: Request -> Reply, location: string, document: Json)
    requires PyIndex(row, locationColumn) == Returned(location) && location != ""
    requires lookup(QueryFor(location, token)) == Parsed(document)
    requires FormatResult(row[0], location, document).Returned?
    ensures HandleLine(row, locationColumn, token, lookup)
         == Returned(Some(FormatResult(row[0], location, document).value))
  {
  }

  /** A lookup that fails, or whose response format_result rejects, gives the
      degraded record: the id and the location text, no Mindat field. */
  lemma FailedLookupDegrades(row: seq<string>, locationColumn: int, token: string,
                             lookup: Request -> Reply, location: string)
    requires PyIndex(row, locationColumn) == Returned(location) && location != ""
    requires || lookup(QueryFor(location, token)).Failed?
             || FormatResult(row[0], location, lookup(QueryFor(location, token)).document).Raised?
    ensures HandleLine(row, locationColumn, token, lookup) == Returned(Some(Unmatched(row[0], location)))
  {
  }

  /** The degraded record is also what a lookup answering with a truthy
      object that lacks "results" produces, through the TypeError of
      len(None). */
  lemma MissingResultsDegrades(row: seq<string>, locationColumn: int, token: string,
                               lookup: Request -> Reply, location: string, fields: map<string, Json>)
    requires PyIndex(row, locationColumn) == Returned(location) && location != ""
    requires lookup(QueryFor(location, token)) == Parsed(JObj(fields))
    requires fields != map[] && "results" !in fields
    ensures HandleLine(row, locationColumn, token, lookup) == Returned(Some(Unmatched(row[0], location)))
  {
  }
}
