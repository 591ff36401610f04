/**
 * `ClientService.ImportClientsFromCSV` (`internal/service/client_service.go`):
 * rows of ID, TipoID, Nombre, Dirección, Email, Teléfono upserted into the
 * clients table by ID.
 */
module ClientService {
  import opened Wrappers
  import opened Text
  import opened Records
  import opened Upsert
  import opened CsvImport

  /** A first row holding one of these cells (lower-cased, not trimmed) is a header. */
  const ClientHeaderWords: set<string> := {"id", "ruc", "cedula", "nombre"}

  const TipoRuc: string := "04"
  const TipoCedula: string := "05"
  const TipoExterior: string := "08"

  /** The identification type of a row that leaves it empty: by the byte length of the ID. */
  function InferredTipo(id: string): string
  {
    if ByteLen(id) == 13 then TipoRuc else if ByteLen(id) == 10 then TipoCedula else TipoExterior
  }

  /** The client a row describes, or `None` for a row the import skips. */
  function ClientOf(row: Row): Option<Client>
  {
    if |row| < 3 then None
    else
      var id := Cell(row, 0);
      var tipoID := Cell(row, 1);
      var nombre := Cell(row, 2);
      if id == "" || nombre == "" then None
      else Some(Client(id, if tipoID == "" then InferredTipo(id) else tipoID, nombre, Cell(row, 3), Cell(row, 4), Cell(row, 5)))
  }

  /**
   * A row is imported exactly when it has at least three cells and a non-blank
   * ID and name; the client gets the trimmed cells, and an empty type is
   * inferred from the ID (13 bytes a RUC, 10 a cédula, anything else foreign).
   */
  lemma ClientOfRow(row: Row)
    ensures ClientOf(row).Some? <==> |row| >= 3 && TrimSpace(row[0]) != "" && TrimSpace(row[2]) != ""
    ensures ClientOf(row).Some? ==>
      var c := ClientOf(row).value;
      && c.id == TrimSpace(row[0]) && c.nombre == TrimSpace(row[2])
      && c.tipoID != ""
      && (TrimSpace(row[1]) != "" ==> c.tipoID == TrimSpace(row[1]))
      && (TrimSpace(row[1]) == "" ==>
            (ByteLen(c.id) == 13 ==> c.tipoID == TipoRuc)
            && (ByteLen(c.id) == 10 ==> c.tipoID == TipoCedula)
            && (ByteLen(c.id) != 13 && ByteLen(c.id) != 10 ==> c.tipoID == TipoExterior))
      && c.direccion == Cell(row, 3) && c.email == Cell(row, 4) && c.telefono == Cell(row, 5)
  {
  }

  // ---------------------------------------------------------------- the upsert

  const BlankClient: Client := Client("", "", "", "", "", "")

  /** `Updates(client)` on a stored client: every non-empty field of the row replaces the stored one. */
  function MergeClient(stored: Client, c: Client): Client
  {
    Client(
      if c.id != "" then c.id else stored.id,
      if c.tipoID != "" then c.tipoID else stored.tipoID,
      if c.nombre != "" then c.nombre else stored.nombre,
      if c.direccion != "" then c.direccion else stored.direccion,
      if c.email != "" then c.email else stored.email,
      if c.telefono != "" then c.telefono else stored.telefono)
  }

  /** The client merge is an override, and creating a client is merging it into the blank one. */
  lemma MergeClientIsOverride()
    ensures IsOverride(MergeClient, BlankClient)
  {
  }

  /** The clients of the valid rows, keyed by their ID, in row order. */
  function ClientItems(rows: seq<Row>): (r: seq<(string, Client)>)
    ensures |r| <= |rows|
    ensures forall i :: 0 <= i < |r| ==> r[i].0 == r[i].1.id
  {
    if rows == [] then []
    else
      var prev := ClientItems(rows[..|rows| - 1]);
      match ClientOf(rows[|rows| - 1])
      case None => prev
      case Some(c) => prev + [(c.id, c)]
  }

  lemma ClientItemsStep(rows: seq<Row>, i: nat)
    requires i < |rows|
    ensures ClientItems(rows[..i + 1]) == ClientItems(rows[..i]) + match ClientOf(rows[i])
      case None => []
      case Some(c) => [(c.id, c)]
  {
    assert rows[..i + 1][..i] == rows[..i];
  }

  /** The whole import as a specification: the new clients table, the count returned and the error. */
  function ImportClients(clients: map<string, Client>, outcomes: seq<ReadOutcome>): Imported<Client>
  {
    match RowsToProcess(outcomes, ClientHeaderWords)
    case Err(e) => Imported(clients, 0, Some(e))
    case Ok(rows) =>
      var items := ClientItems(rows);
      Imported(Apply(clients, items, MergeClient, BlankClient), |items|, None)
  }

  /** The body of the import loop up to the upsert: trim the cells, skip the row or infer the type. */
  method ParseClientRow(record: Row) returns (parsed: Option<Client>)
    ensures parsed == ClientOf(record)
  {
    if |record| < 3 {
      return None;
    }
    var id := TrimSpace(record[0]);
    var tipoID := TrimSpace(record[1]);
    var nombre := TrimSpace(record[2]);
    var direccion := "";
    if |record| > 3 {
      direccion := TrimSpace(record[3]);
    }
    var email := "";
    if |record| > 4 {
      email := TrimSpace(record[4]);
    }
    var telefono := "";
    if |record| > 5 {
      telefono := TrimSpace(record[5]);
    }
    if id == "" || nombre == "" {
      return None;
    }
    assert id == Cell(record, 0) && nombre == Cell(record, 2);
    assert direccion == Cell(record, 3) && email == Cell(record, 4) && telefono == Cell(record, 5);
    ghost var given := tipoID;
    if tipoID == "" {
      if ByteLen(id) == 13 {
        tipoID := TipoRuc;
      } else if ByteLen(id) == 10 {
        tipoID := TipoCedula;
      } else {
        tipoID := TipoExterior;
      }
    }
    assert tipoID == if given == "" then InferredTipo(id) else given;
    return Some(Client(id, tipoID, nombre, direccion, email, telefono));
  }

  /** The import against its specification. */
  method ImportClientsFromCSV(store: Store, outcomes: seq<ReadOutcome>) returns (count: nat, err: Option<string>)
    modifies store`clients
    ensures Imported(store.clients, count, err) == ImportClients(old(store.clients), outcomes)
  {
    var read := ReadRows(outcomes, ClientHeaderWords);
    if read.Err? {
      return 0, Some(read.error);
    }
    var rows := read.value;
    count := 0;
    for i := 0 to |rows|
      invariant store.clients == Apply(old(store.clients), ClientItems(rows[..i]), MergeClient, BlankClient)
      invariant count == |ClientItems(rows[..i])|
    {
      var parsed := ParseClientRow(rows[i]);
      ClientItemsStep(rows, i);
      if parsed.None? {
        assert ClientItems(rows[..i]) + [] == ClientItems(rows[..i]);
      } else {
        var client := parsed.value;
        assert ClientItems(rows[..i + 1]) == ClientItems(rows[..i]) + [(client.id, client)];
        ApplyStep(old(store.clients), ClientItems(rows[..i]), MergeClient, BlankClient, client.id, client);
        var saved: Client;
        if client.id in store.clients {
          saved := MergeClient(store.clients[client.id], client);
        } else {
          saved := client;
          assert MergeClient(BlankClient, client) == client;
        }
        assert saved == MergeClient(Get(store.clients, client.id, BlankClient), client);
        store.clients := store.clients[client.id := saved];
        count := count + 1;
      }
    }
    assert rows[..|rows|] == rows;
    err := None;
  }

  /**
   * A read error changes nothing and returns 0; otherwise every client whose ID
   * no valid row names is kept as it was, the table gains exactly the IDs of the
   * valid rows, each of those holds the stored client merged with the rows' own
   * combined record, and the count is the number of valid rows.
   */
  lemma ImportClientsOutcome(clients: map<string, Client>, outcomes: seq<ReadOutcome>)
    ensures var r := ImportClients(clients, outcomes);
      && (r.err.Some? ==> r.table == clients && r.count == 0)
      && (r.err.None? ==>
            var items := ClientItems(RowsToProcess(outcomes, ClientHeaderWords).value);
            var combined := Apply(map[], items, MergeClient, BlankClient);
            && r.count == |items| <= |outcomes|
            && r.table.Keys == clients.Keys + combined.Keys
            && (forall k :: k in clients && k !in combined ==> r.table[k] == clients[k])
            && (forall k :: k in combined ==> r.table[k] == MergeClient(Get(clients, k, BlankClient), combined[k])))
  {
    var r := ImportClients(clients, outcomes);
    if r.err.None? {
      var rows := RowsToProcess(outcomes, ClientHeaderWords).value;
      RowsToProcessOutcome(outcomes, ClientHeaderWords);
      MergeClientIsOverride();
      ApplyIsPatch(clients, ClientItems(rows), MergeClient, BlankClient);
    }
  }

  /** Importing the same file a second time leaves the clients as the first import left them, and reports the same count. */
  lemma ReimportClients(clients: map<string, Client>, outcomes: seq<ReadOutcome>)
    ensures var once := ImportClients(clients, outcomes);
      ImportClients(once.table, outcomes) == once
  {
    var once := ImportClients(clients, outcomes);
    if once.err.None? {
      MergeClientIsOverride();
      Reapply(clients, ClientItems(RowsToProcess(outcomes, ClientHeaderWords).value), MergeClient, BlankClient);
    }
  }
}
