/**
 * The records the services keep in the local database (`internal/db`), the
 * transfer objects the front end sends, and the database itself as a `Store`
 * whose tables the services update in place.
 *
 * Amounts of money are exact reals; times are wall-clock `DateTime` readings.
 * A table whose rows the code lists "most recent first" is a sequence in
 * creation order; a table the code addresses by primary key is a map.
 */
module Records {
  import opened Wrappers
  import opened Text
  import opened Dates

  /** The emitter's tax and mail settings (one row). */
  datatype EmisorConfig = EmisorConfig(
    ruc: string,
    razonSocial: string,
    nombreComercial: string,
    direccion: string,
    licenseKey: string,
    licenseToken: string,
    p12Path: string,
    p12Password: string,
    ambiente: int,
    estab: string,
    ptoEmi: string,
    obligado: bool,
    contribuyenteRimpe: string,
    agenteRetencion: string,
    smtpHost: string,
    smtpPort: int,
    smtpUser: string,
    smtpPassword: string,
    storagePath: string,
    logoPath: string,
    pdfTheme: string)

  datatype Client = Client(id: string, tipoID: string, nombre: string, direccion: string, email: string, telefono: string)

  /** An emitted invoice, keyed by its 49-digit access key. */
  datatype Factura = Factura(
    claveAcceso: string,
    secuencial: string,
    fechaEmision: DateTime,
    clienteID: string,
    total: real,
    estadoSRI: string,
    xmlFirmado: Bytes,
    pdfRide: Bytes,
    mensajeError: string,
    subtotal15: real,
    subtotal0: real,
    iva: real)

  datatype FacturaItem = FacturaItem(
    facturaClave: string,
    productoSKU: string,
    nombre: string,
    cantidad: real,
    precioUnitario: real,
    subtotal: real,
    porcentajeIVA: real)

  datatype Product = Product(
    sku: string,
    name: string,
    price: real,
    stock: int,
    taxCode: int,
    taxPercentage: int,
    barcode: string,
    auxiliaryCode: string,
    minStock: int,
    expiryDate: Option<Date>,
    location: string)

  datatype EmailQueue = EmailQueue(
    to: string,
    subject: string,
    body: string,
    attachment: Bytes,
    attachName: string,
    status: string,
    retryCount: int,
    lastError: string)

  /** A quotation; `id` is the auto-increment key the database assigns. */
  datatype Quotation = Quotation(
    id: nat,
    secuencial: string,
    fechaEmision: DateTime,
    clienteID: string,
    clienteNombre: string,
    clienteDireccion: string,
    clienteEmail: string,
    clienteTelefono: string,
    observacion: string,
    total: real,
    subtotal15: real,
    subtotal0: real,
    iva: real,
    estado: string,
    pdfBytes: Bytes)

  datatype QuotationItem = QuotationItem(
    quotationID: nat,
    productoSKU: string,
    nombre: string,
    cantidad: real,
    precioUnitario: real,
    subtotal: real,
    porcentajeIVA: real)

  /** A withholding received from a customer. */
  datatype RetencionRecibida = RetencionRecibida(fechaEmision: DateTime, tipo: string, valorRetenido: real)

  // ---------------------------------------------------------------- transfer objects

  datatype InvoiceItem = InvoiceItem(
    codigo: string,
    nombre: string,
    cantidad: real,
    precio: real,
    codigoIVA: string,
    porcentajeIVA: real)

  datatype FacturaDTO = FacturaDTO(
    secuencial: string,
    clienteID: string,
    clienteNombre: string,
    clienteDireccion: string,
    clienteEmail: string,
    clienteTelefono: string,
    observacion: string,
    formaPago: string,
    plazo: string,
    unidadTiempo: string,
    items: seq<InvoiceItem>,
    claveAcceso: string)

  datatype QuotationDTO = QuotationDTO(
    secuencial: string,
    clienteID: string,
    clienteNombre: string,
    clienteDireccion: string,
    clienteEmail: string,
    clienteTelefono: string,
    observacion: string,
    items: seq<InvoiceItem>)

  /** The identification number of the anonymous buyer ("consumidor final"). */
  const ConsumidorFinal: string := "9999999999999"

  // ---------------------------------------------------------------- queries

  /** `Order("created_at desc")` over a table kept in creation order: the newest row first. */
  function NewestFirst<T>(rows: seq<T>): (r: seq<T>)
    ensures |r| == |rows|
    ensures forall i :: 0 <= i < |rows| ==> r[i] == rows[|rows| - 1 - i]
  {
    if rows == [] then [] else [rows[|rows| - 1]] + NewestFirst(rows[..|rows| - 1])
  }

  /**
   * GORM's `Limit(limit).Offset(offset)`: rows from position `offset` on (none
   * skipped when `offset` is not positive), at most `limit` of them (all when
   * `limit` is negative).
   */
  function Window<T>(rows: seq<T>, offset: int, limit: int): (r: seq<T>)
    ensures var start := if offset <= 0 then 0 else if offset < |rows| then offset else |rows|;
      && (limit >= 0 ==> |r| == if |rows| - start < limit then |rows| - start else limit)
      && (limit < 0 ==> |r| == |rows| - start)
      && forall i :: 0 <= i < |r| ==> r[i] == rows[start + i]
  {
    var rest := if offset <= 0 then rows else if offset < |rows| then rows[offset..] else [];
    if 0 <= limit < |rest| then rest[..limit] else rest
  }

  /** Row `i` of a window that starts at a non-negative offset. */
  lemma WindowAt<T>(rows: seq<T>, offset: int, limit: int, i: int)
    requires offset >= 0 && 0 <= i < |Window(rows, offset, limit)|
    ensures offset + i < |rows| && Window(rows, offset, limit)[i] == rows[offset + i]
  {
  }

  /** A window over the newest-first order counts back from the newest row. */
  lemma NewestWindow<T>(rows: seq<T>, offset: int, limit: int)
    requires offset >= 0
    ensures var w := Window(NewestFirst(rows), offset, limit);
      forall i :: 0 <= i < |w| ==> offset + i < |rows| && w[i] == rows[|rows| - 1 - (offset + i)]
  {
    var w := Window(NewestFirst(rows), offset, limit);
    forall i | 0 <= i < |w|
      ensures offset + i < |rows| && w[i] == rows[|rows| - 1 - (offset + i)]
    {
      WindowAt(NewestFirst(rows), offset, limit, i);
    }
  }

  // ---------------------------------------------------------------- the database

  /**
   * The local database. Invoices, mails and quotations are kept in creation
   * order (the order of `created_at` and of the auto-increment keys); clients and
   * products are addressed by their primary key.
   */
  class Store {
    var config: Option<EmisorConfig>
    var clients: map<string, Client>
    var facturas: seq<Factura>
    var facturaItems: seq<FacturaItem>
    var products: map<string, Product>
    var emails: seq<EmailQueue>
    var quotations: seq<Quotation>
    var quotationItems: seq<QuotationItem>
    var retenciones: seq<RetencionRecibida>

    /** An empty database. */
    constructor ()
      ensures config == None && clients == map[] && facturas == [] && facturaItems == []
      ensures products == map[] && emails == [] && quotations == [] && quotationItems == []
      ensures retenciones == []
    {
      config := None;
      clients := map[];
      facturas := [];
      facturaItems := [];
      products := map[];
      emails := [];
      quotations := [];
      quotationItems := [];
      retenciones := [];
    }
  }
}
