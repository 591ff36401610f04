/**
 * The paged invoice history of `App.GetFacturasPaginated` and the paging
 * defaults `App.GetQuotations` applies before asking the quotation service
 * (`app.go`). Each history line names the client by its stored name when the
 * client is known and the name is not empty, by its identification otherwise.
 */
module History {
  import opened Wrappers
  import opened Dates
  import opened Records
  import QuotationService

  /** The page size used when the caller asks for less than one row. */
  const DefaultPageSize: int := 10

  datatype Paging = Paging(page: int, pageSize: int)

  /** A page below 1 is the first page, a size below 1 is ten rows. */
  function NormalPaging(page: int, pageSize: int): (p: Paging)
    ensures p.page >= 1 && p.pageSize >= 1
  {
    Paging(if page < 1 then 1 else page, if pageSize < 1 then DefaultPageSize else pageSize)
  }

  /** A valid request is kept as it is, and normalising twice changes nothing more. */
  lemma NormalPagingKeepsValid(page: int, pageSize: int)
    ensures page >= 1 && pageSize >= 1 ==> NormalPaging(page, pageSize) == Paging(page, pageSize)
    ensures var p := NormalPaging(page, pageSize); NormalPaging(p.page, p.pageSize) == p
    ensures QuotationService.Offset(NormalPaging(page, pageSize).page, NormalPaging(page, pageSize).pageSize) >= 0
  {
  }

  /** `GetQuotations`: the quotation history for the normalised page. */
  function GetQuotations(qs: seq<Quotation>, page: int, pageSize: int): (r: (seq<QuotationService.QuotationRow>, int))
    ensures |r.0| <= NormalPaging(page, pageSize).pageSize && r.1 == |qs|
  {
    var p := NormalPaging(page, pageSize);
    QuotationService.QuotationPage(qs, p.page, p.pageSize);
    QuotationService.GetQuotations(qs, p.page, p.pageSize)
  }

  // ---------------------------------------------------------------- the invoice history

  /**
   * `db.FacturaResumenDTO`. The line keeps the emission time; `Fecha` is the
   * text the DTO carries for it.
   */
  datatype FacturaResumen = FacturaResumen(
    claveAcceso: string,
    secuencial: string,
    fechaEmision: DateTime,
    cliente: string,
    total: real,
    estado: string,
    tienePDF: bool)
  {
    /** The "fecha" field: the time in the layout "02/01/2006 15:04". */
    function Fecha(): string
    {
      FormatSlashDateTime(fechaEmision)
    }
  }

  datatype FacturasResponse = FacturasResponse(total: int, data: seq<FacturaResumen>)

  /** The name shown for a client: the stored name when there is a non-empty one, the identification otherwise. */
  function ClientName(clients: map<string, Client>, id: string): string
  {
    if id in clients && clients[id].nombre != "" then clients[id].nombre else id
  }

  function Resumen(f: Factura, clients: map<string, Client>): FacturaResumen
  {
    FacturaResumen(f.claveAcceso, f.secuencial, f.fechaEmision,
      ClientName(clients, f.clienteID), f.total, f.estadoSRI, |f.pdfRide| > 0)
  }

  /** The invoices of a page: newest first, after skipping the earlier pages. */
  function PageOf(fs: seq<Factura>, p: Paging): seq<Factura>
  {
    Window(NewestFirst(fs), QuotationService.Offset(p.page, p.pageSize), p.pageSize)
  }

  /** The response as a specification: the size of the table and one line per invoice of the page. */
  function FacturasPage(fs: seq<Factura>, clients: map<string, Client>, page: int, pageSize: int): (r: FacturasResponse)
    ensures var rows := PageOf(fs, NormalPaging(page, pageSize));
      r.total == |fs| && r.data == Lines(rows, clients)
  {
    FacturasResponse(|fs|, Lines(PageOf(fs, NormalPaging(page, pageSize)), clients))
  }

  /** Each invoice turned into its line, in order. */
  function Lines(fs: seq<Factura>, clients: map<string, Client>): (r: seq<FacturaResumen>)
    ensures |r| == |fs|
  {
    if fs == [] then [] else Lines(fs[..|fs| - 1], clients) + [Resumen(fs[|fs| - 1], clients)]
  }

  lemma {:induction false} LinesAt(fs: seq<Factura>, clients: map<string, Client>, i: nat)
    requires i < |fs|
    ensures Lines(fs, clients)[i] == Resumen(fs[i], clients)
  {
    if i < |fs| - 1 {
      LinesAt(fs[..|fs| - 1], clients, i);
    }
  }

  /** The identifications the invoices name, each once, in the order of first appearance. */
  function UniqueIDs(fs: seq<Factura>): (ids: seq<string>)
    ensures forall k, l :: 0 <= k < l < |ids| ==> ids[k] != ids[l]
    ensures forall id :: id in ids <==> exists j :: 0 <= j < |fs| && fs[j].clienteID == id
  {
    if fs == [] then []
    else
      var prev := UniqueIDs(fs[..|fs| - 1]);
      var id := fs[|fs| - 1].clienteID;
      assert forall j :: 0 <= j < |fs| - 1 ==> fs[..|fs| - 1][j] == fs[j];
      if id in prev then prev else prev + [id]
  }

  /** The loop over the invoices that collects `clientIDs`, using `uniqueIDs` to skip the repeated ones. */
  method UniqueClientIDs(facturas: seq<Factura>) returns (ids: seq<string>)
    ensures ids == UniqueIDs(facturas)
  {
    ids := [];
    var unique: map<string, bool> := map[];
    for i := 0 to |facturas|
      invariant ids == UniqueIDs(facturas[..i])
      invariant forall id :: id in unique <==> id in ids
      invariant forall id :: id in unique ==> unique[id]
    {
      var id := facturas[i].clienteID;
      assert facturas[..i + 1][..i] == facturas[..i];
      if !(id in unique && unique[id]) {
        unique := unique[id := true];
        ids := ids + [id];
      }
    }
    assert facturas[..|facturas|] == facturas;
  }

  /** The names of the stored clients among `ids`, as `clientMap` collects them. */
  method ClientNames(clients: map<string, Client>, ids: seq<string>) returns (names: map<string, string>)
    ensures forall id :: id in names <==> id in ids && id in clients
    ensures forall id :: id in names ==> names[id] == clients[id].nombre
  {
    names := map[];
    for k := 0 to |ids|
      invariant forall id :: id in names <==> id in ids[..k] && id in clients
      invariant forall id :: id in names ==> names[id] == clients[id].nombre
    {
      assert ids[..k + 1] == ids[..k] + [ids[k]];
      if ids[k] in clients {
        names := names[ids[k] := clients[ids[k]].nombre];
      }
    }
    assert ids[..|ids|] == ids;
  }

  /** One line of the history, naming the client through `clientMap`. */
  method SummaryLine(f: Factura, clients: map<string, Client>, clientIDs: seq<string>, clientMap: map<string, string>)
    returns (line: FacturaResumen)
    requires f.clienteID in clientIDs
    requires forall id :: id in clientMap <==> id in clientIDs && id in clients
    requires forall id :: id in clientMap ==> clientMap[id] == clients[id].nombre
    ensures line == Resumen(f, clients)
  {
    var nombreCliente := f.clienteID;
    var name := LookupName(clientMap, f.clienteID);
    if name.Some? && name.value != "" {
      nombreCliente := name.value;
    }
    line := FacturaResumen(f.claveAcceso, f.secuencial, f.fechaEmision,
      nombreCliente, f.total, f.estadoSRI, |f.pdfRide| > 0);
  }

  /** `clientMap[id]` with its `ok`. */
  function LookupName(names: map<string, string>, id: string): (r: Option<string>)
    ensures r.Some? <==> id in names
    ensures r.Some? ==> r.value == names[id]
  {
    if id in names then Some(names[id]) else None
  }

  /** The loop that turns the invoices of the page into lines. */
  method SummaryLines(facturas: seq<Factura>, clients: map<string, Client>, clientIDs: seq<string>, clientMap: map<string, string>)
    returns (resumenes: seq<FacturaResumen>)
    requires forall j :: 0 <= j < |facturas| ==> facturas[j].clienteID in clientIDs
    requires forall id :: id in clientMap <==> id in clientIDs && id in clients
    requires forall id :: id in clientMap ==> clientMap[id] == clients[id].nombre
    ensures resumenes == Lines(facturas, clients)
  {
    resumenes := [];
    for i := 0 to |facturas|
      invariant resumenes == Lines(facturas[..i], clients)
    {
      var line := SummaryLine(facturas[i], clients, clientIDs, clientMap);
      assert facturas[..i + 1][..i] == facturas[..i] && facturas[..i + 1][i] == facturas[i];
      resumenes := resumenes + [line];
    }
    assert facturas[..|facturas|] == facturas;
  }

  /** `GetFacturasPaginated` against its specification. */
  method GetFacturasPaginated(store: Store, page: int, pageSize: int) returns (resp: FacturasResponse)
    ensures resp == FacturasPage(store.facturas, store.clients, page, pageSize)
  {
    var p := NormalPaging(page, pageSize);
    var total := |store.facturas|;
    var facturas := PageOf(store.facturas, p);
    var clientIDs := UniqueClientIDs(facturas);
    var clientMap := ClientNames(store.clients, clientIDs);
    var resumenes := SummaryLines(facturas, store.clients, clientIDs, clientMap);
    resp := FacturasResponse(total, resumenes);
  }

  /**
   * A page holds at most the page size, counts back from the newest invoice
   * past the earlier pages, and reports the size of the whole table; each line
   * shows the client's stored name, or its identification when the client is
   * unknown or has no name, and says whether the invoice has a RIDE.
   */
  lemma FacturasPageShape(fs: seq<Factura>, clients: map<string, Client>, page: int, pageSize: int)
    ensures var r := FacturasPage(fs, clients, page, pageSize);
      var p := NormalPaging(page, pageSize);
      var o := QuotationService.Offset(p.page, p.pageSize);
      && r.total == |fs|
      && |r.data| <= p.pageSize
      && (o < |fs| ==> |r.data| == if |fs| - o < p.pageSize then |fs| - o else p.pageSize)
      && forall i :: 0 <= i < |r.data| ==> o + i < |fs| && LineOf(r.data[i], fs[|fs| - 1 - (o + i)], clients)
  {
    var r := FacturasPage(fs, clients, page, pageSize);
    var p := NormalPaging(page, pageSize);
    var o := QuotationService.Offset(p.page, p.pageSize);
    var rows := PageOf(fs, p);
    NewestWindow(fs, o, p.pageSize);
    forall i | 0 <= i < |r.data|
      ensures o + i < |fs| && LineOf(r.data[i], fs[|fs| - 1 - (o + i)], clients)
    {
      LinesAt(rows, clients, i);
      ResumenFields(rows[i], clients);
    }
  }

  /** What a history line says about its invoice. */
  predicate LineOf(line: FacturaResumen, f: Factura, clients: map<string, Client>)
  {
    && line.claveAcceso == f.claveAcceso && line.secuencial == f.secuencial
    && line.fechaEmision == f.fechaEmision
    && line.total == f.total && line.estado == f.estadoSRI
    && (f.clienteID in clients && clients[f.clienteID].nombre != "" ==> line.cliente == clients[f.clienteID].nombre)
    && (f.clienteID !in clients || clients[f.clienteID].nombre == "" ==> line.cliente == f.clienteID)
    && (line.tienePDF <==> f.pdfRide != [])
  }

  lemma ResumenFields(f: Factura, clients: map<string, Client>)
    ensures LineOf(Resumen(f, clients), f, clients)
  {
  }
}
