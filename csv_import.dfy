/**
 * The reading phase shared by `ImportClientsFromCSV` and `ImportProductsFromCSV`:
 * read the first record, drop it when one of its cells is a header word, then
 * read the remaining records up to the end of the input, failing on the first
 * read error.
 *
 * The CSV tokenizer itself (`encoding/csv`: quoting, field-count checks) is not
 * modelled: the input is the sequence of outcomes of its successive `Read`
 * calls, and the end of the sequence is `io.EOF`.
 */
module CsvImport {
  import opened Wrappers
  import opened Text

  type Row = seq<string>

  /** What one call to `Read` returns: a record, or an error with its text. */
  datatype ReadOutcome = Record(cells: Row) | ReadFailed(message: string)

  /** What an import leaves behind: the table, the count it returns and its error, if any. */
  datatype Imported<T> = Imported(table: map<string, T>, count: nat, err: Option<string>)

  const FirstReadPrefix: string := "error leyendo CSV: "
  const RowReadPrefix: string := "error leyendo fila: "
  /** The text of `io.EOF`. */
  const EofMessage: string := "EOF"

  /** A cell, lower-cased but not trimmed, is one of the header words. */
  predicate IsHeader(row: Row, words: set<string>)
  {
    exists i :: 0 <= i < |row| && ToLower(row[i]) in words
  }

  /** Cell `i` trimmed, or empty when the row is shorter. */
  function Cell(row: Row, i: nat): string
  {
    if |row| > i then TrimSpace(row[i]) else ""
  }

  /** The records after the first one, up to the end or to the first read error. */
  function RestRecords(outcomes: seq<ReadOutcome>): (r: Result<seq<Row>>)
    ensures r.Ok? <==> forall i :: 0 <= i < |outcomes| ==> outcomes[i].Record?
    ensures r.Ok? ==> |r.value| == |outcomes| && forall i :: 0 <= i < |outcomes| ==> r.value[i] == outcomes[i].cells
    ensures r.Err? ==>
      exists i :: && 0 <= i < |outcomes| && outcomes[i].ReadFailed?
                  && r.error == RowReadPrefix + outcomes[i].message
                  && (forall j :: 0 <= j < i ==> outcomes[j].Record?)
  {
    if outcomes == [] then Ok([])
    else
      match outcomes[0]
      case ReadFailed(m) => Err(RowReadPrefix + m)
      case Record(cells) =>
        match RestRecords(outcomes[1..])
        case Err(e) => Err(e)
        case Ok(rest) => Ok([cells] + rest)
  }

  /** The rows the import processes, or the error that ends it before any row is processed. */
  function RowsToProcess(outcomes: seq<ReadOutcome>, words: set<string>): (r: Result<seq<Row>>)
  {
    if outcomes == [] then Err(FirstReadPrefix + EofMessage)
    else
      match outcomes[0]
      case ReadFailed(m) => Err(FirstReadPrefix + m)
      case Record(first) =>
        match RestRecords(outcomes[1..])
        case Err(e) => Err(e)
        case Ok(rest) => Ok((if IsHeader(first, words) then [] else [first]) + rest)
  }

  /**
   * The import outcomes everything before it writes anything: it fails exactly when
   * the input is empty or some read fails, and otherwise processes every record
   * in order, the first one only when it is not a header.
   */
  lemma RowsToProcessOutcome(outcomes: seq<ReadOutcome>, words: set<string>)
    ensures RowsToProcess(outcomes, words).Err? <==> outcomes == [] || exists i :: 0 <= i < |outcomes| && outcomes[i].ReadFailed?
    ensures outcomes != [] && outcomes[0].Record? && RowsToProcess(outcomes, words).Ok? ==>
      var rows := RowsToProcess(outcomes, words).value;
      var skip := if IsHeader(outcomes[0].cells, words) then 1 else 0;
      && |rows| == |outcomes| - skip
      && forall i :: 0 <= i < |rows| ==> rows[i] == outcomes[i + skip].cells
  {
    if outcomes != [] && outcomes[0].Record? {
      var rest := RestRecords(outcomes[1..]);
      if rest.Err? {
        var i :| 0 <= i < |outcomes[1..]| && outcomes[1..][i].ReadFailed?;
        assert outcomes[i + 1].ReadFailed?;
      } else {
        assert forall i :: 1 <= i < |outcomes| ==> outcomes[1..][i - 1] == outcomes[i];
      }
    }
  }

  /** The reading loop of the source, against `RowsToProcess`. */
  method ReadRows(outcomes: seq<ReadOutcome>, words: set<string>) returns (r: Result<seq<Row>>)
    ensures r == RowsToProcess(outcomes, words)
  {
    if outcomes == [] {
      return Err(FirstReadPrefix + EofMessage);
    }
    if outcomes[0].ReadFailed? {
      return Err(FirstReadPrefix + outcomes[0].message);
    }
    var first := outcomes[0].cells;
    var isHeader := false;
    var j := 0;
    while j < |first|
      invariant 0 <= j <= |first|
      invariant isHeader <==> exists i :: 0 <= i < j && ToLower(first[i]) in words
    {
      if ToLower(first[j]) in words {
        isHeader := true;
        break;
      }
      j := j + 1;
    }
    var head: seq<Row> := if isHeader then [] else [first];
    var rows := head;
    var k := 1;
    while k < |outcomes|
      invariant 1 <= k <= |outcomes|
      invariant forall i :: 1 <= i < k ==> outcomes[i].Record?
      invariant |rows| == |head| + k - 1 && rows[..|head|] == head
      invariant forall i :: 1 <= i < k ==> rows[|head| + i - 1] == outcomes[i].cells
    {
      if outcomes[k].ReadFailed? {
        assert outcomes[1..][k - 1] == outcomes[k];
        assert forall j :: 0 <= j < k - 1 ==> outcomes[1..][j] == outcomes[j + 1];
        return Err(RowReadPrefix + outcomes[k].message);
      }
      rows := rows + [outcomes[k].cells];
      k := k + 1;
    }
    var rest := RestRecords(outcomes[1..]);
    assert forall i :: 1 <= i < |outcomes| ==> outcomes[1..][i - 1] == outcomes[i];
    assert rows == head + rest.value;
    return Ok(rows);
  }
}
