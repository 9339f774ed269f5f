/** The export service of backend/internal/services/export.go: the request row it
    inserts, the status the background export leaves on it, and the table of fields
    convertToCSV hands to the CSV writer. Times are nanoseconds; the data the
    exporters fetch is a parameter. */
module Export {
  import opened Wrappers
  import opened Strings

  const Day: int := 24 * 60 * 60 * 1_000_000_000
  const SupportedTypes: set<string> := {"attendance", "content", "analytics", "feedback"}

  /** The request CreateExportRequest returns. */
  datatype ExportRequest = ExportRequest(id: string, brandID: string, eventID: string, dataType: string, format: string,
                                         status: string, fileURL: string, createdAt: int, expiresAt: int)

  /** A row of `export_requests`; `file_url` is NULL until the export finishes. */
  datatype ExportRow = ExportRow(id: string, brandID: string, eventID: string, dataType: string, format: string,
                                 status: string, fileURL: Option<string>, createdAt: int)

  /** A value of an exported record as `%v` prints it. */
  datatype Cell = Text(s: string) | Number(n: int)

  type Record = map<string, Cell>

  /** The status and file URL processExport leaves: "completed" only for a supported data
      type whose fetch succeeded and a format of "csv" or "json". */
  function ExportOutcome(requestID: string, dataType: string, format: string, fetchOk: bool): (r: (string, string))
    ensures r.0 == "completed" <==> dataType in SupportedTypes && fetchOk && format in {"csv", "json"}
    ensures r.0 == "completed" ==> r.1 == "https://exports.lynkr.com/" + requestID + "." + format
    ensures r.0 != "completed" ==> r == ("failed", "")
  {
    if dataType !in SupportedTypes || !fetchOk then ("failed", "")
    else if format != "csv" && format != "json" then ("failed", "")
    else ("completed", "https://exports.lynkr.com/" + requestID + "." + format)
  }

  /** `UPDATE export_requests SET status = ?, file_url = ? WHERE id = ?`. */
  function WithStatus(rows: seq<ExportRow>, requestID: string, status: string, fileURL: string): (r: seq<ExportRow>)
    ensures |r| == |rows|
  {
    seq(|rows|, k requires 0 <= k < |rows| =>
      if rows[k].id == requestID then rows[k].(status := status, fileURL := Some(fileURL)) else rows[k])
  }

  /** The text of a cell, or `<nil>` for a key the record lacks. */
  function CellText(record: Record, key: string): string {
    if key !in record then "<nil>"
    else match record[key]
      case Text(s) => s
      case Number(n) => IntToString(n)
  }

  /** The list holds each key of the set exactly once. */
  predicate Enumerates(keys: seq<string>, s: set<string>) {
    (forall j :: 0 <= j < |keys| ==> keys[j] in s)
    && (forall k :: k in s ==> k in keys)
    && (forall i, j :: 0 <= i < j < |keys| ==> keys[i] != keys[j])
  }

  /** The keys of a record in some order, as Go's map iteration yields them. */
  method Keys(record: Record) returns (keys: seq<string>)
    ensures Enumerates(keys, record.Keys) && |keys| == |record.Keys|
  {
    keys := [];
    var pending := record.Keys;
    while pending != {}
      invariant pending <= record.Keys
      invariant Enumerates(keys, record.Keys - pending)
      invariant |keys| + |pending| == |record.Keys|
      decreases |pending|
    {
      var k :| k in pending;
      keys := keys + [k];
      pending := pending - {k};
    }
    assert record.Keys - pending == record.Keys;
  }

  /** convertToCSV as the records it writes: nothing for no data; otherwise a header of the
      first record's keys and one row per record, each with one field per header. */
  method ConvertToCSV(data: seq<Record>) returns (table: seq<seq<string>>)
    ensures data == [] ==> table == []
    ensures data != [] ==> (|table| == |data| + 1 && Enumerates(table[0], data[0].Keys)
      && |table[0]| == |data[0].Keys|
      && forall k :: 1 <= k < |table| ==>
           |table[k]| == |table[0]| && forall j :: 0 <= j < |table[0]| ==> table[k][j] == CellText(data[k - 1], table[0][j]))
  {
    if |data| == 0 {
      return [];
    }
    var headers := Keys(data[0]);
    table := [headers];
    var i := 0;
    while i < |data|
      invariant 0 <= i <= |data| && |table| == i + 1 && table[0] == headers
      invariant forall k :: 1 <= k < |table| ==>
        |table[k]| == |headers| && forall j :: 0 <= j < |headers| ==> table[k][j] == CellText(data[k - 1], headers[j])
    {
      var row := RowOf(data[i], headers);
      table := table + [row];
      i := i + 1;
    }
  }

  /** The inner loop of convertToCSV: one record's cells, column by column. */
  method RowOf(record: Record, headers: seq<string>) returns (row: seq<string>)
    ensures |row| == |headers| && forall j :: 0 <= j < |headers| ==> row[j] == CellText(record, headers[j])
  {
    row := [];
    var j := 0;
    while j < |headers|
      invariant 0 <= j <= |headers| && |row| == j
      invariant forall m :: 0 <= m < j ==> row[m] == CellText(record, headers[m])
    {
      row := row + [CellText(record, headers[j])];
      j := j + 1;
    }
  }

  /** Under headers made from a record's own keys, that record's row has a value in
      every column: `<nil>` appears only where the record holds that very text. */
  lemma FirstRowComplete(record: Record, headers: seq<string>, j: nat)
    requires Enumerates(headers, record.Keys) && j < |headers|
    ensures headers[j] in record
    ensures CellText(record, headers[j]) == "<nil>" ==> record[headers[j]] == Text("<nil>")
  {
    var key := headers[j];
    if record[key].Number? {
      var n := record[key].n;
      var t := CellText(record, key);
      if n < 0 {
        assert t[0] == '-';
      } else {
        assert IsDigit(t[0]);
      }
    }
  }

  class ExportService {
    var requests: seq<ExportRow>

    constructor ()
      ensures requests == []
    {
      requests := [];
    }

    /** CreateExportRequest at `now`: a "processing" request that expires in seven days, or
        the insert's error. The export itself is ProcessExport. */
    method CreateExportRequest(brandID: string, eventID: string, dataType: string, format: string,
                               now: nat, insertError: Option<string>) returns (r: Result<ExportRequest>)
      modifies this
      ensures insertError.Some? ==> r == Err("failed to create export request: " + insertError.value) && requests == old(requests)
      ensures insertError.None? ==> (var id := "export_" + NatToString(now);
        r == Ok(ExportRequest(id, brandID, eventID, dataType, format, "processing", "", now, now + 7 * Day))
        && requests == old(requests) + [ExportRow(id, brandID, eventID, dataType, format, "processing", None, now)])
    {
      var requestID := "export_" + NatToString(now);
      var expiresAt := now + 7 * Day;
      if insertError.Some? {
        return Err("failed to create export request: " + insertError.value);
      }
      requests := requests + [ExportRow(requestID, brandID, eventID, dataType, format, "processing", None, now)];
      return Ok(ExportRequest(requestID, brandID, eventID, dataType, format, "processing", "", now, expiresAt));
    }

    /** processExport for a request, given what the exporter for its data type fetched.
        The file content is only printed, so it is not kept. */
    method ProcessExport(requestID: string, dataType: string, format: string, fetched: Result<seq<Record>>)
      modifies this
      ensures var outcome := ExportOutcome(requestID, dataType, format, fetched.Ok?);
        requests == WithStatus(old(requests), requestID, outcome.0, outcome.1)
    {
      if dataType !in SupportedTypes || fetched.Err? {
        requests := WithStatus(requests, requestID, "failed", "");
        return;
      }
      if format == "csv" {
        var table := ConvertToCSV(fetched.value);
      } else if format != "json" {
        requests := WithStatus(requests, requestID, "failed", "");
        return;
      }
      var fileURL := "https://exports.lynkr.com/" + requestID + "." + format;
      requests := WithStatus(requests, requestID, "completed", fileURL);
    }
  }

  /** Only the named request changes, and it gets its status and URL. */
  lemma WithStatusExactly(rows: seq<ExportRow>, requestID: string, status: string, fileURL: string, k: nat)
    requires k < |rows|
    ensures rows[k].id == requestID ==>
      WithStatus(rows, requestID, status, fileURL)[k] == rows[k].(status := status, fileURL := Some(fileURL))
    ensures rows[k].id != requestID ==> WithStatus(rows, requestID, status, fileURL)[k] == rows[k]
  {
  }

  /** A request created and then exported ends "completed" with its URL exactly when the
      type, fetch and format allow, and "failed" with an empty URL otherwise. */
  lemma CreatedThenProcessed(rows: seq<ExportRow>, row: ExportRow, dataType: string, format: string, fetchOk: bool)
    requires forall k :: 0 <= k < |rows| ==> rows[k].id != row.id
    ensures var outcome := ExportOutcome(row.id, dataType, format, fetchOk);
      var after := WithStatus(rows + [row], row.id, outcome.0, outcome.1);
      after[..|rows|] == rows && after[|rows|].fileURL == Some(outcome.1)
      && (after[|rows|].status == "completed" <==> dataType in SupportedTypes && fetchOk && format in {"csv", "json"})
  {
    var outcome := ExportOutcome(row.id, dataType, format, fetchOk);
    var after := WithStatus(rows + [row], row.id, outcome.0, outcome.1);
    assert forall k :: 0 <= k < |rows| ==> after[k] == rows[k];
  }
}
