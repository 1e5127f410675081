/** process_csv: every row the CSV reader yields goes through handle_line,
    and the resulting dict is written by a DictWriter over six fixed field
    names, after a header line. Rows arrive already split into cells; the
    lines are the values the writer is given, before CSV quoting. */
module Pipeline {
  import opened PyValues
  import opened Locality

  /** The DictWriter's field names, in column order. */
  const FIELDS: seq<string> :=
    ["id", "original_locality", "mindat_id", "mindat_text", "mindat_latitude", "mindat_longitude"]

  /** A line of the output file: the header, or one record's cells, where
      None is a key the record lacks (written as the empty restval). */
  datatype OutputLine = HeaderLine(names: seq<string>) | RecordLine(cells: seq<Option<Json>>)

  /** The DictWriter's projection of a record (extrasaction='ignore'): one
      cell per field name, keys outside FIELDS dropped, missing keys empty. */
  function Project(record: Record): (cells: seq<Option<Json>>)
    ensures |cells| == |FIELDS|
    ensures forall i :: 0 <= i < |FIELDS| ==>
      && (cells[i].Some? <==> FIELDS[i] in record)
      && (cells[i].Some? ==> cells[i].value == record[FIELDS[i]])
  {
    seq(|FIELDS|, i requires 0 <= i < |FIELDS| =>
      if FIELDS[i] in record then Some(record[FIELDS[i]]) else None)
  }

  /** writer.writerow(handle_line(row)): the line written for a row, or the
      exception that stops the loop. Writing None would raise AttributeError
      in DictWriter; handle_line never returns None. */
  function WrittenLine(row: seq<string>, locationColumn: int, token: string, lookup: Request -> Reply)
    : (r: Outcome<OutputLine>)
    ensures r.Raised? <==> !(-|row| <= locationColumn < |row|)
    ensures r.Raised? ==> r.error == IndexError
    ensures r.Returned? ==>
      && r.value.RecordLine? && |r.value.cells| == |FIELDS|
      && |row| > 0 && r.value.cells[0] == Some(JStr(row[0]))
  {
    match HandleLine(row, locationColumn, token, lookup)
    case Raised(e) => Raised(e)
    case Returned(None) => Raised(AttributeError)
    case Returned(Some(record)) => Returned(RecordLine(Project(record)))
  }

  /** Keys outside the six field names never reach the output. */
  lemma ExtraKeysIgnored(record: Record, extra: Record)
    requires forall k :: k in extra ==> k !in FIELDS
    ensures Project(record + extra) == Project(record)
  {
  }

  /** A record without a match is written with its four Mindat cells empty. */
  lemma UnmatchedCells(id: string, locality: string)
    ensures Project(Unmatched(id, locality))
         == [Some(JStr(id)), Some(JStr(locality)), None, None, None, None]
  {
  }

  /** A response with a first result is written with that result's id,
      text, latitude and longitude in the four Mindat cells. */
  lemma MatchedCells(id: string, locality: string, response: Json)
    requires FirstResult(response).Some?
    ensures FormatResult(id, locality, response).Returned?
    ensures
      var first := FirstResult(response).value;
      Project(FormatResult(id, locality, response).value)
        == [Some(JStr(id)), Some(JStr(locality)), Some(Get(first, "id")), Some(Get(first, "txt")),
            Some(Get(first, "latitude")), Some(Get(first, "longitude"))]
  {
  }

  /** The loop of process_csv: the header, then one line per row in input
      order, the first row included. Each row makes its own HTTP call, so the
      service is given per row: lookups[i] is how it answers while row i is
      handled, and two equal rows may be answered differently. The only
      exception that escapes handle_line is the IndexError of a row too short
      for the location column; it stops the run with the lines written so
      far. */
  method ProcessCsv(rows: seq<seq<string>>, locationColumn: int, token: string,
                    lookups: seq<Request -> Reply>)
    returns (lines: seq<OutputLine>, error: Option<PyError>)
    requires |lookups| == |rows|
    ensures 1 <= |lines| <= |rows| + 1 && lines[0] == HeaderLine(FIELDS)
    ensures forall i :: 0 <= i < |lines| - 1 ==>
      WrittenLine(rows[i], locationColumn, token, lookups[i]) == Returned(lines[i + 1])
    ensures error.None? <==> |lines| == |rows| + 1
    ensures error.None? <==> forall i :: 0 <= i < |rows| ==> -|rows[i]| <= locationColumn < |rows[i]|
    ensures error.Some? ==>
      WrittenLine(rows[|lines| - 1], locationColumn, token, lookups[|lines| - 1]) == Raised(error.value)
    ensures error.Some? ==> error.value == IndexError
  {
    lines := [HeaderLine(FIELDS)];
    error := None;
    var n := 0;
    while n < |rows|
      invariant 0 <= n <= |rows|
      invariant |lines| == n + 1 && lines[0] == HeaderLine(FIELDS)
      invariant forall i :: 0 <= i < n ==>
        WrittenLine(rows[i], locationColumn, token, lookups[i]) == Returned(lines[i + 1])
    {
      var written := WrittenLine(rows[n], locationColumn, token, lookups[n]);
      if written.Raised? {
        error := Some(written.error);
        return;
      }
      lines := lines + [written.value];
      n := n + 1;
    }
  }

  /** A row whose location cell is empty is written as its id, the
      placeholder text and four empty cells, whatever the lookup. */
  lemma EmptyLocationLine(row: seq<string>, locationColumn: int, token: string, lookup: Request -> Reply)
    requires PyIndex(row, locationColumn) == Returned("")
    ensures WrittenLine(row, locationColumn, token, lookup)
         == Returned(RecordLine([Some(JStr(row[0])), Some(JStr(UNAVAILABLE)), None, None, None, None]))
  {
    EmptyLocationSkipsLookup(row, locationColumn, token, lookup, lookup);
    UnmatchedCells(row[0], UNAVAILABLE);
  }

  const GRUBE_CLARA: string := "Grube Clara, Wolfach, Schwarzwald, Baden-W\U{00FC}rttemberg, Germany"
  const GRUBE_CLARA_RESULT: map<string, Json> :=
    map["id" := JNum(42, 0), "txt" := JStr("Grube Clara"), "latitude" := JNum(483, -1), "longitude" := JNum(82, -1)]

  /** A lookup stub that answers the query for GRUBE_CLARA with a single
      result and fails every other request. */
  function GrubeClaraLookup(token: string): Request -> Reply {
    (q: Request) =>
      if q == QueryFor(GRUBE_CLARA, token) then Parsed(JObj(map["results" := JArr([JObj(GRUBE_CLARA_RESULT)])]))
      else Failed(ConnectionFailed)
  }

  /** A worked row: with the stub above, the row ["1", GRUBE_CLARA] is written
      with the result's id, text and coordinates. */
  lemma GrubeClaraLine(token: string)
    ensures WrittenLine(["1", GRUBE_CLARA], 1, token, GrubeClaraLookup(token))
         == Returned(RecordLine([Some(JStr("1")), Some(JStr(GRUBE_CLARA)), Some(JNum(42, 0)),
                                 Some(JStr("Grube Clara")), Some(JNum(483, -1)), Some(JNum(82, -1))]))
  {
    var document := JObj(map["results" := JArr([JObj(GRUBE_CLARA_RESULT)])]);
    assert FirstResult(document) == Some(GRUBE_CLARA_RESULT);
    MatchedCells("1", GRUBE_CLARA, document);
    SuccessfulLookup(["1", GRUBE_CLARA], 1, token, GrubeClaraLookup(token), GRUBE_CLARA, document);
  }
}
