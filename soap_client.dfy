/**
 * The SRI SOAP client (`pkg/sri`): the response shapes, the two request
 * envelopes, and the classification of an HTTP exchange into a network
 * error (the SRI is unreachable or failing) or a plain error (the answer
 * could not be read). The HTTP transport, base64 and the XML decoder are
 * parameters of the model.
 */
module SoapClient {
  import opened Wrappers
  import opened Text

  // ---------------------------------------------------------------- response shapes

  datatype MensajeSri = MensajeSri(identificador: string, mensaje: string, informacionAdicional: string, tipo: string)

  datatype ComprobanteRecepcion = ComprobanteRecepcion(claveAcceso: string, mensajes: seq<MensajeSri>)

  datatype RespuestaRecepcion = RespuestaRecepcion(estado: string, comprobantes: seq<ComprobanteRecepcion>)

  datatype Autorizacion = Autorizacion(
    estado: string,
    numeroAutorizacion: string,
    fechaAutorizacion: string,
    ambiente: string,
    comprobante: string,
    mensajes: seq<MensajeSri>)

  datatype RespuestaAutorizacion = RespuestaAutorizacion(autorizaciones: seq<Autorizacion>)

  /**
   * The outcome of a call to the SRI: an answer, a `NetworkError` (the caller
   * may retry later), or any other error.
   */
  datatype SriResult<+T> = Success(value: T) | NetworkErr(msg: string) | OtherErr(msg: string)

  /** What the HTTP client reports: no response at all, or a status and the read body. */
  datatype HttpOutcome = TransportFailure(err: string) | Response(status: int, body: Result<string>)

  /** The collaborators of the client. */
  datatype SoapEnv = SoapEnv(
    base64: Bytes -> string,
    post: (string, string) -> HttpOutcome,
    get: string -> HttpOutcome,
    parseRecepcion: string -> Result<RespuestaRecepcion>,
    parseAutorizacion: string -> Result<RespuestaAutorizacion>)

  const RecepcionPruebas: string := "https://celcer.sri.gob.ec/comprobantes-electronicos-ws/RecepcionComprobantesOffline?wsdl"
  const AutorizacionPruebas: string := "https://celcer.sri.gob.ec/comprobantes-electronicos-ws/AutorizacionComprobantesOffline?wsdl"

  // ---------------------------------------------------------------- doRequest

  /** `doRequest`: a transport failure or a 5xx status is a network error; any other status hands the body on. */
  function DoRequest(o: HttpOutcome): (r: SriResult<string>)
    ensures r.NetworkErr? <==> o.TransportFailure? || o.status >= 500
    ensures r.Success? <==> o.Response? && o.status < 500 && o.body.Ok?
    ensures r.Success? ==> r.value == o.body.value
    ensures o.TransportFailure? ==> r == NetworkErr("SRI Offline: " + o.err)
    ensures o.Response? && o.status >= 500 ==> r == NetworkErr("SRI Server Error: " + IntToString(o.status))
  {
    match o
    case TransportFailure(e) => NetworkErr("SRI Offline: " + e)
    case Response(status, body) =>
      if status >= 500 then NetworkErr("SRI Server Error: " + IntToString(status))
      else if body.Err? then OtherErr(body.error)
      else Success(body.value)
  }

  // ---------------------------------------------------------------- envelopes

  const RecepcionHead: string :=
    "<?xml version=\"1.0\" encoding=\"utf-8\"?>\n"
    + "<soapenv:Envelope xmlns:soapenv=\"http://schemas.xmlsoap.org/soap/envelope/\" xmlns:ecua=\"http://ec.gob.sri.ws.recepcion\">\n"
    + "   <soapenv:Header/>\n"
    + "   <soapenv:Body>\n"
    + "      <ecua:validarComprobante>\n"
    + "         "
  const RecepcionTail: string :=
    "\n"
    + "      </ecua:validarComprobante>\n"
    + "   </soapenv:Body>\n"
    + "</soapenv:Envelope>"
  const XmlOpen: string := "<xml>"
  const XmlClose: string := "</xml>"

  const AutorizacionHead: string :=
    "<?xml version=\"1.0\" encoding=\"utf-8\"?>\n"
    + "<soapenv:Envelope xmlns:soapenv=\"http://schemas.xmlsoap.org/soap/envelope/\" xmlns:ecua=\"http://ec.gob.sri.ws.autorizacion\">\n"
    + "   <soapenv:Header/>\n"
    + "   <soapenv:Body>\n"
    + "      <ecua:autorizacionComprobante>\n"
    + "         "
  const AutorizacionTail: string :=
    "\n"
    + "      </ecua:autorizacionComprobante>\n"
    + "   </soapenv:Body>\n"
    + "</soapenv:Envelope>"
  const ClaveOpen: string := "<claveAccesoComprobante>"
  const ClaveClose: string := "</claveAccesoComprobante>"

  /** A payload wrapped in an element inside fixed text: the element occurs, and the payload sits at a fixed offset. */
  lemma Enclosed(head: string, open: string, x: string, close: string, tail: string)
    ensures Contains(head + (open + x + close) + tail, open + x + close)
    ensures |head + (open + x + close) + tail| == |head| + |open| + |x| + |close| + |tail|
    ensures (head + (open + x + close) + tail)[|head| + |open|..|head| + |open| + |x|] == x
  {
    ContainsMiddle(head, open + x + close, tail);
    var e := head + (open + x + close) + tail;
    forall k | 0 <= k < |x|
      ensures e[|head| + |open| + k] == x[k]
    {
      assert e[|head| + |open| + k] == (open + x + close)[|open| + k];
    }
  }

  /** The reception request: the base64 text of the signed document inside `<xml>`. */
  function RecepcionEnvelope(xmlBase64: string): (e: string)
    ensures Contains(e, XmlOpen + xmlBase64 + XmlClose)
    ensures |e| == |RecepcionHead| + |XmlOpen| + |xmlBase64| + |XmlClose| + |RecepcionTail|
    ensures e[|RecepcionHead| + |XmlOpen|..|RecepcionHead| + |XmlOpen| + |xmlBase64|] == xmlBase64
  {
    Enclosed(RecepcionHead, XmlOpen, xmlBase64, XmlClose, RecepcionTail);
    RecepcionHead + (XmlOpen + xmlBase64 + XmlClose) + RecepcionTail
  }

  /** The authorization request: the access key, verbatim, inside `<claveAccesoComprobante>`. */
  function AutorizacionEnvelope(claveAcceso: string): (e: string)
    ensures Contains(e, ClaveOpen + claveAcceso + ClaveClose)
    ensures |e| == |AutorizacionHead| + |ClaveOpen| + |claveAcceso| + |ClaveClose| + |AutorizacionTail|
    ensures e[|AutorizacionHead| + |ClaveOpen|..|AutorizacionHead| + |ClaveOpen| + |claveAcceso|] == claveAcceso
  {
    Enclosed(AutorizacionHead, ClaveOpen, claveAcceso, ClaveClose, AutorizacionTail);
    AutorizacionHead + (ClaveOpen + claveAcceso + ClaveClose) + AutorizacionTail
  }

  /** Fixed text around a payload loses nothing: two wrappings are equal only for equal payloads. */
  lemma EnclosedInjective(head: string, open: string, x: string, y: string, close: string, tail: string)
    ensures head + (open + x + close) + tail == head + (open + y + close) + tail ==> x == y
  {
    if head + (open + x + close) + tail == head + (open + y + close) + tail {
      Enclosed(head, open, x, close, tail);
      Enclosed(head, open, y, close, tail);
    }
  }

  /** Distinct payloads give distinct envelopes: the request carries its payload without loss. */
  lemma EnvelopesInjective(x: string, y: string)
    ensures RecepcionEnvelope(x) == RecepcionEnvelope(y) ==> x == y
    ensures AutorizacionEnvelope(x) == AutorizacionEnvelope(y) ==> x == y
  {
    EnclosedInjective(RecepcionHead, XmlOpen, x, y, XmlClose, RecepcionTail);
    EnclosedInjective(AutorizacionHead, ClaveOpen, x, y, ClaveClose, AutorizacionTail);
  }

  // ---------------------------------------------------------------- operations

  /** `EnviarComprobante`: post the reception envelope to the fixed test endpoint and parse the answer. */
  function EnviarComprobante(xmlFirmado: Bytes, env: SoapEnv): (r: SriResult<RespuestaRecepcion>)
    ensures
      var o := env.post(RecepcionPruebas, RecepcionEnvelope(env.base64(xmlFirmado)));
      && (r.NetworkErr? <==> o.TransportFailure? || o.status >= 500)
      && (r.Success? <==> DoRequest(o).Success? && env.parseRecepcion(DoRequest(o).value).Ok?)
      && (r.Success? ==> r.value == env.parseRecepcion(DoRequest(o).value).value)
  {
    var raw := DoRequest(env.post(RecepcionPruebas, RecepcionEnvelope(env.base64(xmlFirmado))));
    match raw
    case NetworkErr(m) => NetworkErr(m)
    case OtherErr(m) => OtherErr(m)
    case Success(body) =>
      match env.parseRecepcion(body)
      case Err(e) => OtherErr("error parsing recepcion response: " + e + " | raw: " + body)
      case Ok(resp) => Success(resp)
  }

  /** `AutorizarComprobante`: post the authorization envelope to the fixed test endpoint and parse the answer. */
  function AutorizarComprobante(claveAcceso: string, env: SoapEnv): (r: SriResult<RespuestaAutorizacion>)
    ensures
      var o := env.post(AutorizacionPruebas, AutorizacionEnvelope(claveAcceso));
      && (r.NetworkErr? <==> o.TransportFailure? || o.status >= 500)
      && (r.Success? <==> DoRequest(o).Success? && env.parseAutorizacion(DoRequest(o).value).Ok?)
      && (r.Success? ==> r.value == env.parseAutorizacion(DoRequest(o).value).value)
  {
    var raw := DoRequest(env.post(AutorizacionPruebas, AutorizacionEnvelope(claveAcceso)));
    match raw
    case NetworkErr(m) => NetworkErr(m)
    case OtherErr(m) => OtherErr(m)
    case Success(body) =>
      match env.parseAutorizacion(body)
      case Err(e) => OtherErr("error parsing autorizacion response: " + e + " | raw: " + body)
      case Ok(resp) => Success(resp)
  }

  /**
   * Both operations reach only the fixed test endpoints: two transports that
   * answer those endpoints alike give the same results, whatever they do elsewhere.
   */
  lemma FixedEndpoints(x: Bytes, clave: string, e1: SoapEnv, e2: SoapEnv)
    requires e1.base64 == e2.base64 && e1.parseRecepcion == e2.parseRecepcion && e1.parseAutorizacion == e2.parseAutorizacion
    requires e1.post(RecepcionPruebas, RecepcionEnvelope(e1.base64(x))) == e2.post(RecepcionPruebas, RecepcionEnvelope(e2.base64(x)))
    requires e1.post(AutorizacionPruebas, AutorizacionEnvelope(clave)) == e2.post(AutorizacionPruebas, AutorizacionEnvelope(clave))
    ensures EnviarComprobante(x, e1) == EnviarComprobante(x, e2)
    ensures AutorizarComprobante(clave, e1) == AutorizarComprobante(clave, e2)
  {
  }

  /** An unreadable answer below status 500 is a plain error, never a network error. */
  lemma UnparseableIsPlainError(x: Bytes, env: SoapEnv)
    requires env.post(RecepcionPruebas, RecepcionEnvelope(env.base64(x))).Response?
    requires env.post(RecepcionPruebas, RecepcionEnvelope(env.base64(x))).status < 500
    requires env.post(RecepcionPruebas, RecepcionEnvelope(env.base64(x))).body.Ok?
    requires env.parseRecepcion(env.post(RecepcionPruebas, RecepcionEnvelope(env.base64(x))).body.value).Err?
    ensures EnviarComprobante(x, env).OtherErr?
    ensures HasPrefix(EnviarComprobante(x, env).msg, "error parsing recepcion response: ")
  {
  }

  /** `CheckConnectivity`: the GET reached the server, whatever status it returned. */
  function CheckConnectivity(env: SoapEnv): (ok: bool)
    ensures ok <==> env.get(RecepcionPruebas).Response?
  {
    !env.get(RecepcionPruebas).TransportFailure?
  }
}
