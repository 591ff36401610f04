/**
 * Quotations (`internal/service/quotation_service.go`): their own nine-digit
 * sequence, the totals of a new quotation and the upsert of its client, the
 * paginated history, the stored PDF, and the conversion of a quotation into
 * an invoice draft.
 */
module QuotationService {
  import opened Wrappers
  import opened Text
  import opened Numeric
  import opened Dates
  import opened Records
  import InvoiceService

  // ---------------------------------------------------------------- the next sequential

  /**
   * `QuotationService.GetNextSecuencial`: "000000001" for an empty table,
   * otherwise the number of the most recent quotation plus one, in nine digits.
   */
  function GetNextSecuencial(quotations: seq<Quotation>): (r: string)
    ensures quotations == [] ==> r == InvoiceService.FirstSecuencial
    ensures quotations != [] ==>
      var v := ScanIntOrZero(quotations[|quotations| - 1].secuencial);
      0 <= v < 999999999 ==> |r| == 9 && AllDigits(r) && DigitsValue(r) == v + 1
  {
    if quotations == [] then InvoiceService.FirstSecuencial
    else
      InvoiceService.SecuencialAfterDigits(quotations[|quotations| - 1].secuencial);
      InvoiceService.SecuencialAfter(quotations[|quotations| - 1].secuencial)
  }

  /** After a quotation numbered "000000005" comes "000000006". */
  lemma NextAfterFive(quotations: seq<Quotation>)
    requires quotations != [] && quotations[|quotations| - 1].secuencial == "000000005"
    ensures GetNextSecuencial(quotations) == "000000006"
  {
    var s := quotations[|quotations| - 1].secuencial;
    assert AllDigits(s);
    assert DigitsValue(s) == 5 by {
      assert s[..8] == "00000000";
      LeadingZerosValue(8, "5");
      assert s == Zeros(8) + "5";
    }
    InvoiceService.SecuencialIncrements(s);
    var r := GetNextSecuencial(quotations);
    assert |r| == 9 && AllDigits(r) && DigitsValue(r) == 6;
    NineDigitsOfSix(r);
  }

  /** The only nine-digit string worth 6 is "000000006". */
  lemma NineDigitsOfSix(r: string)
    requires |r| == 9 && AllDigits(r) && DigitsValue(r) == 6
    ensures r == "000000006"
  {
    var p := r[..8];
    assert r == p + [r[8]];
    assert p == r[..|r| - 1];
    DigitsValueBound(p);
    assert DigitsValue(r) == DigitsValue(p) * 10 + DigitValue(r[8]);
    assert DigitsValue(p) == 0 && DigitValue(r[8]) == 6;
    AllZeroDigits(p);
    assert r[8] == '6';
  }

  lemma {:induction false} AllZeroDigits(p: string)
    requires AllDigits(p) && DigitsValue(p) == 0
    ensures p == Zeros(|p|)
    decreases |p|
  {
    if p != [] {
      var q := p[..|p| - 1];
      assert AllDigits(q);
      AllZeroDigits(q);
      assert DigitValue(p[|p| - 1]) == 0;
      assert p == q + ['0'];
      ZerosSnoc(|q|);
    }
  }

  lemma ZerosSnoc(k: nat)
    ensures Zeros(k) + ['0'] == Zeros(k + 1)
    decreases k
  {
    if k > 0 {
      ZerosSnoc(k - 1);
    }
  }

  // ---------------------------------------------------------------- totals

  /** The three sums of the pricing loop. */
  datatype QuoteSums = QuoteSums(subtotal15: real, subtotal0: real, iva: real)

  /**
   * The sums after the lines: a line with a positive VAT rate adds its base to
   * the taxed subtotal and its VAT to the tax; any other line adds its base to
   * the zero-rated subtotal and no tax.
   */
  function Sums(items: seq<InvoiceItem>): QuoteSums
  {
    if items == [] then QuoteSums(0.0, 0.0, 0.0)
    else
      var s := Sums(items[..|items| - 1]);
      var it := items[|items| - 1];
      if it.porcentajeIVA > 0.0 then
        s.(subtotal15 := s.subtotal15 + InvoiceService.LineBase(it), iva := s.iva + InvoiceService.LineTax(it))
      else
        s.(subtotal0 := s.subtotal0 + InvoiceService.LineBase(it))
  }

  /** The sum of every line's rounded base, taxed or not. */
  function AllBases(items: seq<InvoiceItem>): real
  {
    if items == [] then 0.0 else AllBases(items[..|items| - 1]) + InvoiceService.LineBase(items[|items| - 1])
  }

  /** The sum of the rounded VAT of the lines with a positive rate. */
  function TaxOfTaxedLines(items: seq<InvoiceItem>): real
  {
    if items == [] then 0.0
    else
      var it := items[|items| - 1];
      TaxOfTaxedLines(items[..|items| - 1]) + (if it.porcentajeIVA > 0.0 then InvoiceService.LineTax(it) else 0.0)
  }

  /**
   * The two subtotals split the bases of all lines between them, the tax is the
   * VAT of the taxed lines alone, and every sum is a whole number of cents.
   */
  lemma {:induction false} SumsSplitLines(items: seq<InvoiceItem>)
    ensures Sums(items).subtotal15 + Sums(items).subtotal0 == AllBases(items)
    ensures Sums(items).iva == TaxOfTaxedLines(items)
    ensures IsMultipleOfUnit(Sums(items).subtotal15, 2) && IsMultipleOfUnit(Sums(items).subtotal0, 2)
    ensures IsMultipleOfUnit(Sums(items).iva, 2)
  {
    if items == [] {
      ZeroIsMultipleOfUnit(2);
    } else {
      var p := items[..|items| - 1];
      var it := items[|items| - 1];
      SumsSplitLines(p);
      var s := Sums(p);
      MultipleOfUnitAdd(s.subtotal15, InvoiceService.LineBase(it), 2);
      MultipleOfUnitAdd(s.subtotal0, InvoiceService.LineBase(it), 2);
      MultipleOfUnitAdd(s.iva, InvoiceService.LineTax(it), 2);
    }
  }

  /** The stored row of one line: its rounded base as the subtotal. */
  function QuoteLine(id: nat, it: InvoiceItem): QuotationItem
  {
    QuotationItem(id, it.codigo, it.nombre, it.cantidad, it.precio, InvoiceService.LineBase(it), it.porcentajeIVA)
  }

  function QuoteLines(id: nat, items: seq<InvoiceItem>): (r: seq<QuotationItem>)
    ensures |r| == |items|
  {
    seq(|items|, i requires 0 <= i < |items| => QuoteLine(id, items[i]))
  }

  /** The pricing loop of `CreateQuotation`: the three sums and one row per line, not yet keyed. */
  method PriceQuotation(items: seq<InvoiceItem>) returns (subtotal15: real, subtotal0: real, totalIVA: real, lines: seq<QuotationItem>)
    ensures QuoteSums(subtotal15, subtotal0, totalIVA) == Sums(items)
    ensures lines == QuoteLines(0, items)
  {
    subtotal15, subtotal0, totalIVA := 0.0, 0.0, 0.0;
    lines := [];
    for i := 0 to |items|
      invariant QuoteSums(subtotal15, subtotal0, totalIVA) == Sums(items[..i])
      invariant lines == QuoteLines(0, items[..i])
    {
      var item := items[i];
      var base := InvoiceService.LineBase(item);
      var impuesto := InvoiceService.LineTax(item);
      if item.porcentajeIVA > 0.0 {
        subtotal15 := subtotal15 + base;
        totalIVA := totalIVA + impuesto;
      } else {
        subtotal0 := subtotal0 + base;
      }
      assert items[..i + 1][..i] == items[..i];
      assert QuoteLines(0, items[..i + 1]) == QuoteLines(0, items[..i]) + [QuoteLine(0, item)];
      lines := lines + [QuotationItem(0, item.codigo, item.nombre, item.cantidad, item.precio, base, item.porcentajeIVA)];
    }
    assert items[..|items|] == items;
  }

  const Generada: string := "GENERADA"
  const NoItemsError: string := "la cotización debe tener al menos un ítem"

  /** The quotation row as built from the request, before the PDF is attached. */
  function Draft(id: nat, dto: QuotationDTO, now: DateTime, pdf: Bytes): Quotation
  {
    var s := Sums(dto.items);
    Quotation(id, dto.secuencial, now, dto.clienteID, dto.clienteNombre, dto.clienteDireccion, dto.clienteEmail,
      dto.clienteTelefono, dto.observacion, Round(s.subtotal15 + s.subtotal0 + s.iva, 2), Round(s.subtotal15, 2),
      Round(s.subtotal0, 2), Round(s.iva, 2), Generada, pdf)
  }

  /**
   * A new quotation's stored amounts are whole cents, its total is the sum of
   * the two subtotals and the tax, and it starts in state "GENERADA"; each of its
   * rows carries the rounded base of its line.
   */
  lemma DraftAmounts(id: nat, dto: QuotationDTO, now: DateTime, pdf: Bytes)
    ensures var q := Draft(id, dto, now, pdf);
      && q.estado == Generada
      && q.subtotal15 == Sums(dto.items).subtotal15 && q.subtotal0 == Sums(dto.items).subtotal0
      && q.iva == Sums(dto.items).iva
      && q.total == q.subtotal15 + q.subtotal0 + q.iva
      && q.subtotal15 + q.subtotal0 == Round(AllBases(dto.items), 2)
    ensures forall i :: 0 <= i < |dto.items| ==> QuoteLines(id, dto.items)[i].subtotal == Round(dto.items[i].cantidad * dto.items[i].precio, 2)
  {
    var s := Sums(dto.items);
    SumsSplitLines(dto.items);
    RoundIdempotent(s.subtotal15, 2);
    RoundIdempotent(s.subtotal0, 2);
    RoundIdempotent(s.iva, 2);
    MultipleOfUnitAdd(s.subtotal15, s.subtotal0, 2);
    MultipleOfUnitAdd(s.subtotal15 + s.subtotal0, s.iva, 2);
    RoundIdempotent(s.subtotal15 + s.subtotal0 + s.iva, 2);
    RoundIdempotent(s.subtotal15 + s.subtotal0, 2);
  }

  /** One unit at 100 with 15% VAT and two units at 50 with none give 100 + 100 + 15 = 215. */
  lemma TwoLineExample(a: InvoiceItem, b: InvoiceItem)
    requires a.cantidad == 1.0 && a.precio == 100.0 && a.porcentajeIVA == 15.0
    requires b.cantidad == 2.0 && b.precio == 50.0 && b.porcentajeIVA == 0.0
    ensures Sums([a, b]) == QuoteSums(100.0, 100.0, 15.0)
    ensures Round(100.0 + 100.0 + 15.0, 2) == 215.0
  {
    assert Scale(2) == 100.0 by {
      assert Pow10(2) == 100;
    }
    assert IsMultipleOfUnit(100.0, 2);
    RoundIdempotent(100.0, 2);
    assert InvoiceService.LineBase(a) == 100.0 && InvoiceService.LineBase(b) == 100.0;
    assert 100.0 * (15.0 / 100.0) == 15.0;
    assert IsMultipleOfUnit(15.0, 2);
    RoundIdempotent(15.0, 2);
    assert InvoiceService.LineTax(a) == 15.0;
    assert [a, b][..1] == [a];
    assert [a][..0] == [];
    assert Sums([a]) == QuoteSums(100.0, 0.0, 15.0);
    assert IsMultipleOfUnit(215.0, 2);
    RoundIdempotent(215.0, 2);
  }

  // ---------------------------------------------------------------- the client of a quotation

  const DefaultTipoID: string := "05"

  /** The client after a quotation: a new one of type "05", or the old one with the quotation's contact data. */
  function QuotedClient(clients: map<string, Client>, dto: QuotationDTO): Client
  {
    if dto.clienteID !in clients then
      Client(dto.clienteID, DefaultTipoID, dto.clienteNombre, dto.clienteDireccion, dto.clienteEmail, dto.clienteTelefono)
    else
      clients[dto.clienteID].(nombre := dto.clienteNombre, direccion := dto.clienteDireccion,
        email := dto.clienteEmail, telefono := dto.clienteTelefono)
  }

  /**
   * Name, address, e-mail and phone always come from the quotation, empty or
   * not; an existing client keeps its id and type, a new one is of type "05".
   */
  lemma QuotedClientFields(clients: map<string, Client>, dto: QuotationDTO)
    ensures var c := QuotedClient(clients, dto);
      && c.nombre == dto.clienteNombre && c.direccion == dto.clienteDireccion
      && c.email == dto.clienteEmail && c.telefono == dto.clienteTelefono
      && (dto.clienteID in clients ==> c.tipoID == clients[dto.clienteID].tipoID)
      && (dto.clienteID !in clients ==> c.id == dto.clienteID && c.tipoID == DefaultTipoID)
  {
  }

  // ---------------------------------------------------------------- creating

  /** The key the database gives the next quotation: one past the newest. */
  function NextQuotationID(qs: seq<Quotation>): (id: nat)
    ensures id >= 1
  {
    if qs == [] then 1 else qs[|qs| - 1].id + 1
  }

  /** Keys grow with creation order and every row points below the next key. */
  predicate WellKeyed(qs: seq<Quotation>, items: seq<QuotationItem>)
  {
    && (forall i, j :: 0 <= i < j < |qs| ==> qs[i].id < qs[j].id)
    && (forall k :: 0 <= k < |items| ==> items[k].quotationID < NextQuotationID(qs))
  }

  /** The renderer of the quotation PDF (`pdf.GenerarCotizacionPDF`). */
  type Renderer = (Quotation, seq<QuotationItem>, EmisorConfig) -> Result<Bytes>

  /** The PDF stored with a new quotation: none without an emitter configuration or when rendering fails. */
  function QuotationPdf(config: Option<EmisorConfig>, dto: QuotationDTO, now: DateTime, render: Renderer): Bytes
  {
    if config.None? then []
    else
      var out := render(Draft(0, dto, now, []), QuoteLines(0, dto.items), config.value);
      if out.Ok? then out.value else []
  }

  /** Rows given the key of their quotation. */
  function Keyed(id: nat, lines: seq<QuotationItem>): (r: seq<QuotationItem>)
    ensures |r| == |lines|
  {
    seq(|lines|, i requires 0 <= i < |lines| => lines[i].(quotationID := id))
  }

  /** Keying the priced rows gives the rows of the quotation. */
  lemma KeyedLines(id: nat, items: seq<InvoiceItem>)
    ensures Keyed(id, QuoteLines(0, items)) == QuoteLines(id, items)
  {
  }

  /** Step 5: the rows of the quotation, keyed by it, appended in order. */
  method SaveQuotationItems(store: Store, id: nat, lines: seq<QuotationItem>)
    modifies store`quotationItems
    ensures store.quotationItems == old(store.quotationItems) + Keyed(id, lines)
  {
    ghost var start := store.quotationItems;
    for i := 0 to |lines|
      invariant store.quotationItems == start + Keyed(id, lines[..i])
    {
      assert Keyed(id, lines[..i + 1]) == Keyed(id, lines[..i]) + [lines[i].(quotationID := id)];
      store.quotationItems := store.quotationItems + [lines[i].(quotationID := id)];
    }
    assert lines[..|lines|] == lines;
  }

  /**
   * `CreateQuotation`: an empty quotation is refused before anything is stored;
   * otherwise the quotation, its rows and its client are saved.
   */
  method CreateQuotation(store: Store, dto: QuotationDTO, now: DateTime, render: Renderer) returns (err: Option<string>)
    modifies store`quotations, store`quotationItems, store`clients
    ensures dto.items == [] ==> err == Some(NoItemsError) && unchanged(store)
    ensures dto.items != [] ==>
      var id := NextQuotationID(old(store.quotations));
      && err.None?
      && store.quotations == old(store.quotations) + [Draft(id, dto, now, QuotationPdf(store.config, dto, now, render))]
      && store.quotationItems == old(store.quotationItems) + QuoteLines(id, dto.items)
      && store.clients == old(store.clients)[dto.clienteID := QuotedClient(old(store.clients), dto)]
  {
    if |dto.items| == 0 {
      return Some(NoItemsError);
    }
    var subtotal15, subtotal0, totalIVA, itemsDB := PriceQuotation(dto.items);
    var total := subtotal15 + subtotal0 + totalIVA;
    var quotationDB := Quotation(0, dto.secuencial, now, dto.clienteID, dto.clienteNombre, dto.clienteDireccion,
      dto.clienteEmail, dto.clienteTelefono, dto.observacion, Round(total, 2), Round(subtotal15, 2),
      Round(subtotal0, 2), Round(totalIVA, 2), Generada, []);
    assert quotationDB == Draft(0, dto, now, []);
    if store.config.Some? {
      var pdfBytes := render(quotationDB, itemsDB, store.config.value);
      if pdfBytes.Ok? {
        quotationDB := quotationDB.(pdfBytes := pdfBytes.value);
      }
    }
    var id := NextQuotationID(store.quotations);
    quotationDB := quotationDB.(id := id);
    store.quotations := store.quotations + [quotationDB];
    SaveQuotationItems(store, id, itemsDB);
    KeyedLines(id, dto.items);
    if dto.clienteID !in store.clients {
      var newClient := Client(dto.clienteID, DefaultTipoID, dto.clienteNombre, dto.clienteDireccion, dto.clienteEmail, dto.clienteTelefono);
      store.clients := store.clients[dto.clienteID := newClient];
    } else {
      var cliente := store.clients[dto.clienteID];
      cliente := cliente.(nombre := dto.clienteNombre, direccion := dto.clienteDireccion, email := dto.clienteEmail,
        telefono := dto.clienteTelefono);
      store.clients := store.clients[dto.clienteID := cliente];
    }
    return None;
  }

  /** Creating a quotation keeps the keys well formed. */
  lemma CreateKeepsKeys(qs: seq<Quotation>, items: seq<QuotationItem>, dto: QuotationDTO, now: DateTime, pdf: Bytes)
    requires WellKeyed(qs, items)
    ensures var id := NextQuotationID(qs);
      WellKeyed(qs + [Draft(id, dto, now, pdf)], items + QuoteLines(id, dto.items))
  {
    var id := NextQuotationID(qs);
    var qs' := qs + [Draft(id, dto, now, pdf)];
    assert NextQuotationID(qs') == id + 1;
    forall i, j | 0 <= i < j < |qs'|
      ensures qs'[i].id < qs'[j].id
    {
      if j == |qs| {
        assert qs[|qs| - 1].id < id;
      }
    }
  }

  // ---------------------------------------------------------------- reading back

  /** `First(&q, id)`: the quotation with that key. */
  function FindQuotation(qs: seq<Quotation>, id: nat): (r: Option<Quotation>)
    ensures r.Some? ==> r.value in qs && r.value.id == id
    ensures r.None? ==> forall i :: 0 <= i < |qs| ==> qs[i].id != id
  {
    if qs == [] then None
    else if qs[|qs| - 1].id == id then Some(qs[|qs| - 1])
    else FindQuotation(qs[..|qs| - 1], id)
  }

  const RecordNotFound: string := "record not found"
  const NoPdfError: string := "no existe PDF para esta cotización"

  /** `GetPDF`: the stored document, an error for an unknown key or an empty document. */
  function GetPDF(qs: seq<Quotation>, id: nat): (r: Result<Bytes>)
    ensures r.Ok? <==> exists i :: 0 <= i < |qs| && qs[i].id == id && FindQuotation(qs, id).value.pdfBytes != []
    ensures r.Ok? ==> r.value == FindQuotation(qs, id).value.pdfBytes && r.value != []
    ensures FindQuotation(qs, id).None? ==> r == Err(RecordNotFound)
  {
    match FindQuotation(qs, id)
    case None => Err(RecordNotFound)
    case Some(q) => if |q.pdfBytes| == 0 then Err(NoPdfError) else Ok(q.pdfBytes)
  }

  /** `Where("quotation_id = ?", id)`: the rows of one quotation, in table order. */
  function ItemsOf(items: seq<QuotationItem>, id: nat): (r: seq<QuotationItem>)
    ensures forall k :: 0 <= k < |r| ==> r[k].quotationID == id
  {
    if items == [] then []
    else ItemsOf(items[..|items| - 1], id) + (if items[|items| - 1].quotationID == id then [items[|items| - 1]] else [])
  }

  lemma {:induction false} ItemsOfAppend(a: seq<QuotationItem>, b: seq<QuotationItem>, id: nat)
    ensures ItemsOf(a + b, id) == ItemsOf(a, id) + ItemsOf(b, id)
    decreases |b|
  {
    if b == [] {
      assert a + b == a;
    } else {
      assert (a + b)[..|a + b| - 1] == a + b[..|b| - 1];
      ItemsOfAppend(a, b[..|b| - 1], id);
    }
  }

  lemma {:induction false} ItemsOfNone(items: seq<QuotationItem>, id: nat)
    requires forall k :: 0 <= k < |items| ==> items[k].quotationID != id
    ensures ItemsOf(items, id) == []
    decreases |items|
  {
    if items != [] {
      ItemsOfNone(items[..|items| - 1], id);
    }
  }

  lemma {:induction false} ItemsOfAll(items: seq<QuotationItem>, id: nat)
    requires forall k :: 0 <= k < |items| ==> items[k].quotationID == id
    ensures ItemsOf(items, id) == items
    decreases |items|
  {
    if items != [] {
      ItemsOfAll(items[..|items| - 1], id);
    }
  }

  const InvoiceTaxCode: string := "2"
  const ObservacionPrefix: string := "Basado en Cotización "

  /** A quotation row as an invoice line: same product, amounts and rate, VAT code "2". */
  function InvoiceLine(q: QuotationItem): InvoiceItem
  {
    InvoiceItem(q.productoSKU, q.nombre, q.cantidad, q.precioUnitario, InvoiceTaxCode, q.porcentajeIVA)
  }

  function InvoiceLines(rows: seq<QuotationItem>): (r: seq<InvoiceItem>)
    ensures |r| == |rows|
  {
    seq(|rows|, i requires 0 <= i < |rows| => InvoiceLine(rows[i]))
  }

  /** The invoice draft of a quotation: its client, "Basado en Cotización " and its number, its lines. */
  function DraftInvoice(q: Quotation, rows: seq<QuotationItem>): FacturaDTO
  {
    FacturaDTO("", q.clienteID, q.clienteNombre, q.clienteDireccion, q.clienteEmail, q.clienteTelefono,
      ObservacionPrefix + q.secuencial, "", "", "", InvoiceLines(rows), "")
  }

  /** `ConvertToInvoice` as a specification. */
  function Conversion(qs: seq<Quotation>, items: seq<QuotationItem>, id: nat): Result<FacturaDTO>
  {
    match FindQuotation(qs, id)
    case None => Err(RecordNotFound)
    case Some(q) => Ok(DraftInvoice(q, ItemsOf(items, q.id)))
  }

  /** `ConvertToInvoice`: look the quotation up, then turn each of its rows into an invoice line. */
  method ConvertToInvoice(store: Store, id: nat) returns (r: Result<FacturaDTO>)
    ensures r == Conversion(store.quotations, store.quotationItems, id)
  {
    var found := FindQuotation(store.quotations, id);
    if found.None? {
      return Err(RecordNotFound);
    }
    var q := found.value;
    var items := ItemsOf(store.quotationItems, q.id);
    var invoiceItems: seq<InvoiceItem> := [];
    for i := 0 to |items|
      invariant invoiceItems == InvoiceLines(items[..i])
    {
      invoiceItems := invoiceItems + [InvoiceItem(items[i].productoSKU, items[i].nombre, items[i].cantidad,
        items[i].precioUnitario, InvoiceTaxCode, items[i].porcentajeIVA)];
    }
    assert items[..|items|] == items;
    r := Ok(FacturaDTO("", q.clienteID, q.clienteNombre, q.clienteDireccion, q.clienteEmail, q.clienteTelefono,
      ObservacionPrefix + q.secuencial, "", "", "", invoiceItems, ""));
  }

  /**
   * The draft keeps the client data, the number of lines, their order and
   * their codes, and gives every line VAT code "2".
   */
  lemma ConversionShape(qs: seq<Quotation>, items: seq<QuotationItem>, id: nat)
    requires Conversion(qs, items, id).Ok?
    ensures var q := FindQuotation(qs, id).value;
      var d := Conversion(qs, items, id).value;
      var rows := ItemsOf(items, id);
      && d.clienteID == q.clienteID && d.clienteNombre == q.clienteNombre && d.clienteEmail == q.clienteEmail
      && d.observacion == ObservacionPrefix + q.secuencial
      && |d.items| == |rows|
      && forall i :: 0 <= i < |rows| ==> d.items[i].codigo == rows[i].productoSKU && d.items[i].codigoIVA == InvoiceTaxCode
  {
  }

  /** The request's lines with VAT code "2". */
  function Recoded(items: seq<InvoiceItem>): (r: seq<InvoiceItem>)
    ensures |r| == |items|
  {
    seq(|items|, i requires 0 <= i < |items| => items[i].(codigoIVA := InvoiceTaxCode))
  }

  /**
   * Converting a quotation right after creating it gives back the request's
   * client, its lines in order with VAT code "2", and an observation naming
   * the quotation's number.
   */
  lemma ConvertCreated(qs: seq<Quotation>, items: seq<QuotationItem>, dto: QuotationDTO, now: DateTime, pdf: Bytes)
    requires WellKeyed(qs, items)
    ensures var id := NextQuotationID(qs);
      Conversion(qs + [Draft(id, dto, now, pdf)], items + QuoteLines(id, dto.items), id)
        == Ok(FacturaDTO("", dto.clienteID, dto.clienteNombre, dto.clienteDireccion, dto.clienteEmail,
             dto.clienteTelefono, ObservacionPrefix + dto.secuencial, "", "", "", Recoded(dto.items), ""))
  {
    var id := NextQuotationID(qs);
    var q := Draft(id, dto, now, pdf);
    assert (qs + [q])[..|qs|] == qs;
    assert FindQuotation(qs + [q], id) == Some(q);
    ItemsOfAppend(items, QuoteLines(id, dto.items), id);
    ItemsOfNone(items, id);
    ItemsOfAll(QuoteLines(id, dto.items), id);
    assert ItemsOf(items + QuoteLines(id, dto.items), id) == QuoteLines(id, dto.items);
    assert InvoiceLines(QuoteLines(id, dto.items)) == Recoded(dto.items);
  }

  /** A quotation created with a rendered PDF gives that PDF back. */
  lemma PdfOfCreated(qs: seq<Quotation>, dto: QuotationDTO, now: DateTime, pdf: Bytes)
    requires WellKeyed(qs, [])
    ensures var id := NextQuotationID(qs);
      GetPDF(qs + [Draft(id, dto, now, pdf)], id) == if pdf == [] then Err(NoPdfError) else Ok(pdf)
  {
    var id := NextQuotationID(qs);
    var q := Draft(id, dto, now, pdf);
    assert (qs + [q])[..|qs|] == qs;
    assert FindQuotation(qs + [q], id) == Some(q);
  }

  // ---------------------------------------------------------------- history

  /**
   * The rows a page skips, `(page-1)*pageSize`, counted one page at a time so
   * that proofs about a page stay in linear arithmetic (`OffsetIsProduct`).
   */
  function Offset(page: int, pageSize: int): (o: int)
    ensures page >= 1 && pageSize >= 0 ==> o >= 0
    decreases if page >= 1 then page - 1 else 1 - page
  {
    if page == 1 then 0
    else if page > 1 then Offset(page - 1, pageSize) + pageSize
    else Offset(page + 1, pageSize) - pageSize
  }

  /** The offset is the product the source computes, for every page, valid or not. */
  lemma {:induction false} OffsetIsProduct(page: int, pageSize: int)
    ensures Offset(page, pageSize) == (page - 1) * pageSize
    decreases if page >= 1 then page - 1 else 1 - page
  {
    if page > 1 {
      OffsetIsProduct(page - 1, pageSize);
    } else if page < 1 {
      OffsetIsProduct(page + 1, pageSize);
    }
  }

  /** One line of the history: number, "02/01/2006" date, client, total, state. */
  datatype QuotationRow = QuotationRow(id: nat, secuencial: string, fechaEmision: string, clienteNombre: string, total: real, estado: string)

  function HistoryRow(q: Quotation): QuotationRow
  {
    QuotationRow(q.id, q.secuencial, FormatSlashDate(q.fechaEmision.date), q.clienteNombre, q.total, q.estado)
  }

  /**
   * `GetQuotations`: the newest first, `pageSize` of them after skipping
   * `(page-1)*pageSize`, with the size of the whole table.
   */
  function GetQuotations(qs: seq<Quotation>, page: int, pageSize: int): (r: (seq<QuotationRow>, int))
    ensures r.1 == |qs|
  {
    (HistoryRows(Window(NewestFirst(qs), Offset(page, pageSize), pageSize)), |qs|)
  }

  function HistoryRows(qs: seq<Quotation>): (r: seq<QuotationRow>)
    ensures |r| == |qs| && forall i :: 0 <= i < |qs| ==> r[i] == HistoryRow(qs[i])
  {
    seq(|qs|, i requires 0 <= i < |qs| => HistoryRow(qs[i]))
  }

  /**
   * Formatting commutes with the query: paging the quotations newest first and
   * then formatting them gives the page of the formatted table, for every
   * offset and limit.
   */
  lemma HistoryRowsCommute(qs: seq<Quotation>, offset: int, limit: int)
    ensures HistoryRows(Window(NewestFirst(qs), offset, limit)) == Window(NewestFirst(HistoryRows(qs)), offset, limit)
  {
    RowsOfWindow(NewestFirst(qs), offset, limit);
    RowsOfNewestFirst(qs);
  }

  /** Formatting commutes with putting the newest first. */
  lemma RowsOfNewestFirst(qs: seq<Quotation>)
    ensures HistoryRows(NewestFirst(qs)) == NewestFirst(HistoryRows(qs))
  {
    var lhs, rhs := HistoryRows(NewestFirst(qs)), NewestFirst(HistoryRows(qs));
    forall i | 0 <= i < |lhs|
      ensures lhs[i] == rhs[i]
    {
      assert lhs[i] == HistoryRow(qs[|qs| - 1 - i]);
    }
  }

  /** Formatting commutes with `Limit`/`Offset`. */
  lemma RowsOfWindow(qs: seq<Quotation>, offset: int, limit: int)
    ensures HistoryRows(Window(qs, offset, limit)) == Window(HistoryRows(qs), offset, limit)
  {
    var lhs, rhs := HistoryRows(Window(qs, offset, limit)), Window(HistoryRows(qs), offset, limit);
    var start := if offset <= 0 then 0 else if offset < |qs| then offset else |qs|;
    forall i | 0 <= i < |lhs|
      ensures lhs[i] == rhs[i]
    {
      assert lhs[i] == HistoryRow(qs[start + i]);
    }
  }

  /** A page holds at most `pageSize` rows, and is full unless it reaches the oldest quotation. */
  lemma QuotationPage(qs: seq<Quotation>, page: int, pageSize: int)
    requires page >= 1 && pageSize >= 1
    ensures var rows := GetQuotations(qs, page, pageSize).0;
      var o := Offset(page, pageSize);
      && |rows| <= pageSize
      && (o < |qs| ==> |rows| == if |qs| - o < pageSize then |qs| - o else pageSize)
  {
    var o := Offset(page, pageSize);
    PageAt(qs, o, pageSize);
    assert GetQuotations(qs, page, pageSize).0 == HistoryRows(Window(NewestFirst(qs), o, pageSize));
  }

  /** A page lists, newest first, the quotations after the `(page-1)*pageSize` it skips. */
  lemma QuotationPageOrder(qs: seq<Quotation>, page: int, pageSize: int, skipped: nat)
    requires page >= 1 && pageSize >= 1 && skipped == (page - 1) * pageSize
    ensures var rows := GetQuotations(qs, page, pageSize).0;
      forall i :: 0 <= i < |rows| ==> skipped + i < |qs| && rows[i] == HistoryRow(qs[|qs| - 1 - (skipped + i)])
  {
    OffsetIsProduct(page, pageSize);
    assert GetQuotations(qs, page, pageSize).0 == HistoryRows(Window(NewestFirst(qs), skipped, pageSize));
    PageAt(qs, skipped, pageSize);
  }

  /** The page that skips `o` rows, with the offset as a plain number. */
  lemma PageAt(qs: seq<Quotation>, o: nat, pageSize: nat)
    ensures var rows := HistoryRows(Window(NewestFirst(qs), o, pageSize));
      && |rows| <= pageSize
      && (o < |qs| ==> |rows| == if |qs| - o < pageSize then |qs| - o else pageSize)
      && forall i :: 0 <= i < |rows| ==> o + i < |qs| && rows[i] == HistoryRow(qs[|qs| - 1 - (o + i)])
  {
    var w := Window(NewestFirst(qs), o, pageSize);
    NewestWindow(qs, o, pageSize);
    forall i | 0 <= i < |w|
      ensures o + i < |qs| && HistoryRows(w)[i] == HistoryRow(qs[|qs| - 1 - (o + i)])
    {
      var q := w[i];
      assert q == qs[|qs| - 1 - (o + i)];
      assert HistoryRows(w)[i] == HistoryRow(q);
    }
  }
}
