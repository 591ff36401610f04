/**
 * The shape of the SRI invoice document (`pkg/xml`), as the emission service
 * fills it in. Serialisation to text is a parameter of the services; only the
 * fields the code sets are kept (`contribuyenteEspecial`, `guiaRemision`,
 * `propina`, `codigoAuxiliar`, `unidadMedida` and the per-line additional
 * details stay at their zero value in every document the code builds).
 */
module XmlDocument {

  datatype InfoTributaria = InfoTributaria(
    ambiente: string,
    tipoEmision: string,
    razonSocial: string,
    nombreComercial: string,
    ruc: string,
    claveAcceso: string,
    codDoc: string,
    estab: string,
    ptoEmi: string,
    secuencial: string,
    dirMatriz: string,
    agenteRetencion: string,
    contribuyenteRimpe: string)

  /** One entry of `totalConImpuestos`: the sums of one VAT code. */
  datatype TotalImpuesto = TotalImpuesto(codigo: string, codigoPorcentaje: string, baseImponible: real, valor: real)

  datatype Pago = Pago(formaPago: string, total: real, plazo: string, unidadTiempo: string)

  datatype InfoFactura = InfoFactura(
    fechaEmision: string,
    dirEstablecimiento: string,
    obligadoContabilidad: string,
    tipoIdentificacionComprador: string,
    razonSocialComprador: string,
    identificacionComprador: string,
    direccionComprador: string,
    totalSinImpuestos: real,
    totalDescuento: real,
    totalConImpuestos: seq<TotalImpuesto>,
    importeTotal: real,
    moneda: string,
    pagos: seq<Pago>)

  /** The tax of one line. */
  datatype Impuesto = Impuesto(codigo: string, codigoPorcentaje: string, tarifa: real, baseImponible: real, valor: real)

  datatype Detalle = Detalle(
    codigoPrincipal: string,
    descripcion: string,
    cantidad: real,
    precioUnitario: real,
    descuento: real,
    precioTotalSinImpuesto: real,
    impuestos: seq<Impuesto>)

  datatype CampoAdicional = CampoAdicional(nombre: string, value: string)

  datatype FacturaXml = FacturaXml(
    id: string,
    version: string,
    infoTributaria: InfoTributaria,
    infoFactura: InfoFactura,
    detalles: seq<Detalle>,
    infoAdicional: seq<CampoAdicional>)
}
