/**
 * XAdES-BES signing of an invoice (`pkg/crypto/signer.go`): loading the key
 * and certificate out of a PKCS#12 file, and splicing an enveloped
 * `<ds:Signature>` (XML Signature with ETSI TS 101 903 v1.3.2 qualifying
 * properties) into the document just before its closing `</factura>`.
 *
 * SHA-1, RSA PKCS#1 v1.5 signing, base64, the PKCS#12/PEM decoder and the
 * X.509 parsers are parameters. The code declares canonical XML but hashes the
 * raw text; the model hashes exactly the strings the code builds.
 */
module Signing {
  import opened Wrappers
  import opened Text
  import opened Dates

  /** An RSA private key, reduced to the public parts the signature block shows. */
  datatype RsaKey = RsaKey(modulus: nat, exponent: int)

  /** A parsed X.509 certificate: its DER bytes, printed issuer and serial, and the CA flag. */
  datatype Certificate = Certificate(raw: Bytes, issuer: string, serial: string, isCA: bool)

  datatype Signer = Signer(privateKey: RsaKey, certificate: Certificate)

  /** The cryptographic primitives. */
  datatype Crypto = Crypto(
    sha1: Bytes -> Bytes,
    base64: Bytes -> string,
    signPkcs1v15: (RsaKey, Bytes) -> Result<Bytes>)

  // ---------------------------------------------------------------- loading a PKCS#12 file

  datatype PemBlock = PemBlock(typ: string, bytes: Bytes)

  /** What a PKCS#8 container may hold: an RSA key or some other kind of key. */
  datatype Pkcs8Key = RsaPrivate(key: RsaKey) | OtherPrivate

  datatype P12Env = P12Env(
    readFile: string -> Result<Bytes>,
    toPem: (Bytes, string) -> Result<seq<PemBlock>>,
    parsePkcs1: Bytes -> Option<RsaKey>,
    parsePkcs8: Bytes -> Option<Pkcs8Key>,
    parseCertificate: Bytes -> Option<Certificate>)

  /** The RSA key a block yields: PKCS#1 first, then an RSA key inside PKCS#8. */
  function BlockKey(b: PemBlock, env: P12Env): Option<RsaKey>
  {
    if b.typ != "PRIVATE KEY" && b.typ != "RSA PRIVATE KEY" then None
    else if env.parsePkcs1(b.bytes).Some? then env.parsePkcs1(b.bytes)
    else if env.parsePkcs8(b.bytes).Some? && env.parsePkcs8(b.bytes).value.RsaPrivate? then
      Some(env.parsePkcs8(b.bytes).value.key)
    else None
  }

  /** The certificate a block yields. */
  function BlockCert(b: PemBlock, env: P12Env): Option<Certificate>
  {
    if b.typ == "CERTIFICATE" then env.parseCertificate(b.bytes) else None
  }

  /** Every key the blocks yield, in order. */
  function Keys(blocks: seq<PemBlock>, env: P12Env): seq<RsaKey>
  {
    if blocks == [] then []
    else
      var last := blocks[|blocks| - 1];
      Keys(blocks[..|blocks| - 1], env) + (if BlockKey(last, env).Some? then [BlockKey(last, env).value] else [])
  }

  /** Every certificate the blocks yield, in order. */
  function Certs(blocks: seq<PemBlock>, env: P12Env): seq<Certificate>
  {
    if blocks == [] then []
    else
      var last := blocks[|blocks| - 1];
      Certs(blocks[..|blocks| - 1], env) + (if BlockCert(last, env).Some? then [BlockCert(last, env).value] else [])
  }

  /** The key the loader keeps: the last one found. */
  function ChosenKey(keys: seq<RsaKey>): Option<RsaKey>
  {
    if keys == [] then None else Some(keys[|keys| - 1])
  }

  /** The index of the last certificate that is not a CA. */
  function LastEndEntity(cs: seq<Certificate>): (i: int)
    ensures -1 <= i < |cs|
    ensures i >= 0 ==> !cs[i].isCA
    ensures forall j :: i < j < |cs| ==> cs[j].isCA
  {
    if cs == [] then -1
    else if !cs[|cs| - 1].isCA then |cs| - 1
    else LastEndEntity(cs[..|cs| - 1])
  }

  /**
   * The certificate the loader keeps: the last end-entity (non-CA) certificate,
   * or failing that the first certificate, or none.
   */
  function ChosenCert(cs: seq<Certificate>): Option<Certificate>
  {
    var i := LastEndEntity(cs);
    if i >= 0 then Some(cs[i]) else if cs == [] then None else Some(cs[0])
  }

  /** One more certificate: a non-CA one always wins, a CA one only when none was chosen. */
  lemma {:induction false} ChosenCertStep(cs: seq<Certificate>, c: Certificate)
    ensures ChosenCert(cs + [c]) == if !c.isCA || ChosenCert(cs).None? then Some(c) else ChosenCert(cs)
  {
    var t := cs + [c];
    assert t[..|t| - 1] == cs;
    if c.isCA && cs != [] {
      assert LastEndEntity(t) == LastEndEntity(cs);
      assert t[0] == cs[0];
    }
  }

  /** The selection loop of `NewSignerFromFile` over the decoded blocks. */
  method SelectKeyAndCert(blocks: seq<PemBlock>, env: P12Env) returns (key: Option<RsaKey>, cert: Option<Certificate>)
    ensures key == ChosenKey(Keys(blocks, env))
    ensures cert == ChosenCert(Certs(blocks, env))
  {
    key, cert := None, None;
    for i := 0 to |blocks|
      invariant key == ChosenKey(Keys(blocks[..i], env))
      invariant cert == ChosenCert(Certs(blocks[..i], env))
    {
      var b := blocks[i];
      ghost var next := blocks[..i + 1];
      assert next[..|next| - 1] == blocks[..i] && next[|next| - 1] == b;
      assert Keys(next, env) == Keys(blocks[..i], env) + (if BlockKey(b, env).Some? then [BlockKey(b, env).value] else []);
      assert Certs(next, env) == Certs(blocks[..i], env) + (if BlockCert(b, env).Some? then [BlockCert(b, env).value] else []);
      if b.typ == "PRIVATE KEY" || b.typ == "RSA PRIVATE KEY" {
        var k1 := env.parsePkcs1(b.bytes);
        if k1.Some? {
          key := k1;
        } else {
          var k8 := env.parsePkcs8(b.bytes);
          if k8.Some? && k8.value.RsaPrivate? {
            key := Some(k8.value.key);
          }
        }
      }
      if b.typ != "CERTIFICATE" {
        assert Certs(next, env) == Certs(blocks[..i], env);
      } else {
        var c := env.parseCertificate(b.bytes);
        if c.None? {
          assert Certs(next, env) == Certs(blocks[..i], env);
        } else {
          ChosenCertStep(Certs(blocks[..i], env), c.value);
          if !c.value.isCA || cert.None? {
            cert := c;
          }
        }
      }
    }
    assert blocks[..|blocks|] == blocks;
  }

  /** The outcome of loading a signer, error texts included. */
  function LoadSigner(p12Path: string, password: string, env: P12Env): Result<Signer>
  {
    var data := env.readFile(p12Path);
    if data.Err? then Err("error leyendo archivo p12: " + data.error)
    else
      var blocks := env.toPem(data.value, password);
      if blocks.Err? then Err("contraseña incorrecta o formato inválido: " + blocks.error)
      else if Keys(blocks.value, env) == [] then Err("no se encontró llave privada en el archivo P12")
      else if Certs(blocks.value, env) == [] then Err("no se encontró certificado en el archivo P12")
      else Ok(Signer(ChosenKey(Keys(blocks.value, env)).value, ChosenCert(Certs(blocks.value, env)).value))
  }

  /** `NewSignerFromFile`: read, decode with the password, select, and insist on both a key and a certificate. */
  method NewSignerFromFile(p12Path: string, password: string, env: P12Env) returns (r: Result<Signer>)
    ensures r == LoadSigner(p12Path, password, env)
    ensures env.readFile(p12Path).Err? ==> r == Err("error leyendo archivo p12: " + env.readFile(p12Path).error)
    ensures env.readFile(p12Path).Ok? && env.toPem(env.readFile(p12Path).value, password).Err? ==>
      r == Err("contraseña incorrecta o formato inválido: " + env.toPem(env.readFile(p12Path).value, password).error)
    ensures r.Ok? <==>
      && env.readFile(p12Path).Ok?
      && env.toPem(env.readFile(p12Path).value, password).Ok?
      && Keys(env.toPem(env.readFile(p12Path).value, password).value, env) != []
      && Certs(env.toPem(env.readFile(p12Path).value, password).value, env) != []
    ensures r.Ok? ==>
      var blocks := env.toPem(env.readFile(p12Path).value, password).value;
      r.value == Signer(ChosenKey(Keys(blocks, env)).value, ChosenCert(Certs(blocks, env)).value)
  {
    var data := env.readFile(p12Path);
    if data.Err? {
      return Err("error leyendo archivo p12: " + data.error);
    }
    var blocks := env.toPem(data.value, password);
    if blocks.Err? {
      return Err("contraseña incorrecta o formato inválido: " + blocks.error);
    }
    var key, cert := SelectKeyAndCert(blocks.value, env);
    if key.None? {
      return Err("no se encontró llave privada en el archivo P12");
    }
    if cert.None? {
      return Err("no se encontró certificado en el archivo P12");
    }
    r := Ok(Signer(key.value, cert.value));
  }

  /** `ValidateCert`: the loader's error, if any. */
  method ValidateCert(p12Path: string, password: string, env: P12Env) returns (err: Option<string>)
    ensures err.None? <==>
      && env.readFile(p12Path).Ok?
      && env.toPem(env.readFile(p12Path).value, password).Ok?
      && Keys(env.toPem(env.readFile(p12Path).value, password).value, env) != []
      && Certs(env.toPem(env.readFile(p12Path).value, password).value, env) != []
  {
    var r := NewSignerFromFile(p12Path, password, env);
    err := if r.Ok? then None else Some(r.error);
  }

  // ---------------------------------------------------------------- the three formats

  const DsNs: string := "http://www.w3.org/2000/09/xmldsig#"
  const EtsiNs: string := "http://uri.etsi.org/01903/v1.3.2#"
  const C14nAlgorithm: string := "http://www.w3.org/TR/2001/REC-xml-c14n-20010315"
  /** The namespace declaration the hashed SignedProperties repeats on each of its `ds:` elements. */
  const DsNsAttr: string := " xmlns:ds=\"" + DsNs + "\""
  /** The two namespace declarations of SignedInfo and of the Signature element. */
  const BothNsAttrs: string := DsNsAttr + " xmlns:etsi=\"" + EtsiNs + "\""
  const ComprobanteUri: string := "URI=\"#comprobante\""
  const EnvelopedTransform: string := "<ds:Transform Algorithm=\"" + DsNs + "enveloped-signature\"></ds:Transform>"
  const Sha1DigestMethod: string := "<ds:DigestMethod Algorithm=\"" + DsNs + "sha1\"></ds:DigestMethod>"
  /** What follows the document reference's URI up to its digest value. */
  const DocumentTransforms: string := "><ds:Transforms>" + EnvelopedTransform + "</ds:Transforms>" + Sha1DigestMethod + "<ds:DigestValue>"
  const SigningTimeOpen: string := "><etsi:SignedSignatureProperties><etsi:SigningTime>"
  const CertDigestOpen: string := "</etsi:SigningTime><etsi:SigningCertificate><etsi:Cert><etsi:CertDigest>"
  const IssuerOpen: string := "</ds:DigestValue></etsi:CertDigest><etsi:IssuerSerial>"
  const ObjectReferenceOpen: string :=
    "</ds:X509SerialNumber></etsi:IssuerSerial></etsi:Cert></etsi:SigningCertificate></etsi:SignedSignatureProperties>"
    + "<etsi:SignedDataObjectProperties><etsi:DataObjectFormat ObjectReference=\"#"
  const SignedPropertiesClose: string :=
    "\"><etsi:Description>contenido comprobante</etsi:Description><etsi:MimeType>text/xml</etsi:MimeType>"
    + "</etsi:DataObjectFormat></etsi:SignedDataObjectProperties></etsi:SignedProperties>"
  const FacturaOpen: string := "<factura"
  const FacturaClose: string := "</factura>"

  /**
   * The format of the SignedProperties element that is hashed (SigningTime,
   * ETSI TS 101 903 section 7.2.1; SigningCertificate, section 7.2.2). Its
   * verbs take the properties id, the signing time, the certificate digest,
   * the issuer, the serial and the reference id.
   */
  const SignedPropertiesFormat: seq<string> := [
    "<etsi:SignedProperties Id=\"",
    "\" xmlns:etsi=\"" + EtsiNs + "\"" + SigningTimeOpen,
    CertDigestOpen + "<ds:DigestMethod Algorithm=\"" + DsNs + "sha1\"" + DsNsAttr + "></ds:DigestMethod><ds:DigestValue" + DsNsAttr + ">",
    IssuerOpen + "<ds:X509IssuerName" + DsNsAttr + ">",
    "</ds:X509IssuerName><ds:X509SerialNumber" + DsNsAttr + ">",
    ObjectReferenceOpen,
    SignedPropertiesClose
  ]

  /**
   * The format of SignedInfo: its id, then a reference (with its id) to
   * `#comprobante` carrying the document digest, then a reference to the
   * signed properties id carrying their digest.
   */
  const SignedInfoFormat: seq<string> := [
    "<ds:SignedInfo Id=\"",
    "\"" + BothNsAttrs + "><ds:CanonicalizationMethod Algorithm=\"" + C14nAlgorithm + "\"></ds:CanonicalizationMethod>"
      + "<ds:SignatureMethod Algorithm=\"" + DsNs + "rsa-sha1\"></ds:SignatureMethod><ds:Reference Id=\"",
    "\" " + ComprobanteUri + DocumentTransforms,
    "</ds:DigestValue></ds:Reference><ds:Reference URI=\"#",
    "\"><ds:Transforms><ds:Transform Algorithm=\"" + C14nAlgorithm + "\"></ds:Transform></ds:Transforms>" + Sha1DigestMethod + "<ds:DigestValue>",
    "</ds:DigestValue></ds:Reference></ds:SignedInfo>"
  ]

  /**
   * The format of the whole `<ds:Signature>`. Its verbs take, in order: the
   * signature id, SignedInfo, the signature id, the signature value, the key
   * info id, the certificate, the modulus, the exponent, the object id, the
   * signature id, and then the same six values as the hashed SignedProperties.
   */
  const SignatureValueOpen: string := "<ds:" + "SignatureValue" + " Id=\"SignatureValue-"
  const KeyInfoOpen: string := "</ds:SignatureValue>" + "<ds:KeyInfo" + " Id=\""
  const EmbeddedPropertiesOpen: string := "\">" + "<etsi:SignedProperties" + " Id=\""

  const SignatureFormat: seq<string> := [
    "<ds:Signature Id=\"",
    "\"" + BothNsAttrs + ">",
    SignatureValueOpen,
    "\">",
    KeyInfoOpen,
    "\"><ds:X509Data><ds:X509Certificate>",
    "</ds:X509Certificate></ds:X509Data><ds:KeyValue><ds:RSAKeyValue><ds:Modulus>",
    "</ds:Modulus><ds:Exponent>",
    "</ds:Exponent></ds:RSAKeyValue></ds:KeyValue></ds:KeyInfo><ds:Object Id=\"",
    "\"><etsi:QualifyingProperties Target=\"#",
    EmbeddedPropertiesOpen,
    "\"" + SigningTimeOpen,
    CertDigestOpen + Sha1DigestMethod + "<ds:DigestValue>",
    IssuerOpen + "<ds:X509IssuerName>",
    "</ds:X509IssuerName><ds:X509SerialNumber>",
    ObjectReferenceOpen,
    SignedPropertiesClose + "</etsi:QualifyingProperties></ds:Object></ds:Signature>"
  ]

  /** `Signature-<n>` and the identifiers derived from it. */
  datatype SignatureIds = SignatureIds(signature: string, signedProps: string, objectId: string, reference: string, signedInfo: string, keyInfo: string)

  function IdsFor(nonce: nat): (ids: SignatureIds)
    ensures ids.signedProps == "SignedProperties-" + ids.signature
    ensures ids.reference == "Reference-" + ids.signature
    ensures HasPrefix(ids.signature, "Signature-")
  {
    var sig := "Signature-" + NatToString(nonce);
    assert sig[..10] == "Signature-";
    SignatureIds(sig, "SignedProperties-" + sig, "Object-" + sig, "Reference-" + sig, "SignedInfo-" + sig, "KeyInfo-" + sig)
  }

  /** `base64(sha1(text))`. */
  function Digest(c: Crypto, text: string): string
  {
    c.base64(c.sha1(Utf8(text)))
  }

  /** `big.Int.Bytes()`: the minimal big-endian bytes of `n`, none for zero. */
  function BigEndian(n: nat): (r: Bytes)
    ensures r == [] <==> n == 0
    ensures r != [] ==> r[0] != 0
  {
    if n == 0 then [] else if n < 256 then [n] else BigEndian(n / 256) + [n % 256]
  }

  /** The values both copies of SignedProperties are filled with. */
  datatype Properties = Properties(signingTime: string, certDigest: string, issuer: string, serial: string)

  function PropertiesArgs(ids: SignatureIds, p: Properties): seq<string>
  {
    [ids.signedProps, p.signingTime, p.certDigest, p.issuer, p.serial, ids.reference]
  }

  /** The SignedProperties text whose digest SignedInfo carries. */
  function SignedPropertiesXml(ids: SignatureIds, p: Properties): string
  {
    Format(SignedPropertiesFormat, PropertiesArgs(ids, p))
  }

  /** Every value of the hashed SignedProperties sits in its own element. */
  lemma SignedPropertiesSlots(ids: SignatureIds, p: Properties)
    ensures forall k :: 0 <= k < 6 ==>
      Contains(SignedPropertiesXml(ids, p), SignedPropertiesFormat[k] + PropertiesArgs(ids, p)[k] + SignedPropertiesFormat[k + 1])
  {
    forall k | 0 <= k < 6
      ensures Contains(SignedPropertiesXml(ids, p), SignedPropertiesFormat[k] + PropertiesArgs(ids, p)[k] + SignedPropertiesFormat[k + 1])
    {
      FormatSlot(SignedPropertiesFormat, PropertiesArgs(ids, p), k);
    }
  }

  function SignedInfoArgs(ids: SignatureIds, docDigest: string, propsDigest: string): seq<string>
  {
    [ids.signedInfo, ids.reference, docDigest, ids.signedProps, propsDigest]
  }

  /** The SignedInfo text. */
  function SignedInfoXml(ids: SignatureIds, docDigest: string, propsDigest: string): string
  {
    Format(SignedInfoFormat, SignedInfoArgs(ids, docDigest, propsDigest))
  }

  /** SignedInfo names the invoice: its first reference is `URI="#comprobante"`. */
  lemma SignedInfoNamesComprobante(ids: SignatureIds, docDigest: string, propsDigest: string)
    ensures Contains(SignedInfoXml(ids, docDigest, propsDigest), ComprobanteUri)
  {
    var args := SignedInfoArgs(ids, docDigest, propsDigest);
    FormatHas(SignedInfoFormat, args, 2);
    ContainsMiddle("\" ", ComprobanteUri, DocumentTransforms);
    ContainsTrans(Format(SignedInfoFormat, args), SignedInfoFormat[2], ComprobanteUri);
  }

  /**
   * The document digest is the DigestValue of the reference to `#comprobante`;
   * the second reference points at the signed properties id and carries their digest.
   */
  lemma SignedInfoReferences(ids: SignatureIds, docDigest: string, propsDigest: string)
    ensures var r := SignedInfoXml(ids, docDigest, propsDigest);
      && Contains(r, SignedInfoFormat[2] + docDigest + SignedInfoFormat[3])
      && Contains(r, SignedInfoFormat[3] + ids.signedProps + SignedInfoFormat[4])
      && Contains(r, SignedInfoFormat[4] + propsDigest + SignedInfoFormat[5])
  {
    var args := SignedInfoArgs(ids, docDigest, propsDigest);
    FormatSlot(SignedInfoFormat, args, 2);
    FormatSlot(SignedInfoFormat, args, 3);
    FormatSlot(SignedInfoFormat, args, 4);
  }

  /** The text that is hashed for the document reference: from the first `<factura` on, or everything. */
  function HashRegion(xml: string): (r: string)
    ensures |r| <= |xml| && r == xml[|xml| - |r|..]
    ensures Contains(xml, FacturaOpen) ==> HasPrefix(r, FacturaOpen)
    ensures forall j :: 0 <= j < |xml| - |r| ==> !OccursAt(xml, FacturaOpen, j)
    ensures !Contains(xml, FacturaOpen) ==> r == xml
  {
    var i := IndexOf(xml, FacturaOpen);
    if i != -1 then xml[i..] else xml
  }

  const NoClosingTag: string := "no se encontró la etiqueta de cierre </factura> para insertar la firma"

  /** `strings.Replace(xml, "</factura>", block + "</factura>", 1)` when the tag is present. */
  function Splice(xml: string, block: string): (r: Result<string>)
    ensures r.Ok? <==> Contains(xml, FacturaClose)
    ensures r.Ok? ==>
      var i := IndexOf(xml, FacturaClose);
      r.value == xml[..i] + block + xml[i..] && |r.value| == |xml| + |block|
    ensures r.Ok? ==> Contains(r.value, block)
  {
    if Contains(xml, FacturaClose) then
      InsertBefore(xml, FacturaClose, block);
      Ok(ReplaceFirst(xml, FacturaClose, block + FacturaClose))
    else
      Err(NoClosingTag)
  }

  /**
   * The `<ds:Signature>` block: SignedInfo verbatim right after the opening
   * tag, then the signature value, the certificate and the key, and the
   * embedded copy of the signed properties with the same values as the hashed one.
   */
  function SignatureArgs(
    ids: SignatureIds, signedInfo: string, signatureValue: string, certificateB64: string,
    modulus: string, exponent: string, p: Properties): seq<string>
  {
    [ids.signature, signedInfo, ids.signature, signatureValue, ids.keyInfo, certificateB64,
      modulus, exponent, ids.objectId, ids.signature] + PropertiesArgs(ids, p)
  }

  function SignatureBlock(
    ids: SignatureIds, signedInfo: string, signatureValue: string, certificateB64: string,
    modulus: string, exponent: string, p: Properties): string
  {
    Format(SignatureFormat, SignatureArgs(ids, signedInfo, signatureValue, certificateB64, modulus, exponent, p))
  }

  /** The block opens `<ds:Signature` and holds SignedInfo verbatim, right after the opening tag. */
  lemma SignatureBlockOpens(
    ids: SignatureIds, signedInfo: string, signatureValue: string, certificateB64: string,
    modulus: string, exponent: string, p: Properties)
    ensures var r := SignatureBlock(ids, signedInfo, signatureValue, certificateB64, modulus, exponent, p);
      && HasPrefix(r, "<ds:Signature")
      && Contains(r, signedInfo)
      && Contains(r, SignatureFormat[1] + signedInfo + SignatureFormat[2])
  {
    var args := SignatureArgs(ids, signedInfo, signatureValue, certificateB64, modulus, exponent, p);
    var r := Format(SignatureFormat, args);
    FormatStart(SignatureFormat, args);
    assert r[..13] == SignatureFormat[0][..13];
    FormatSlot(SignatureFormat, args, 1);
    FormatHas(SignatureFormat, args, 1);
  }

  /**
   * The block carries the signature value and the certificate, and embeds the
   * signed properties with the same values, in the same order, as the hashed copy.
   */
  lemma SignatureBlockSlots(
    ids: SignatureIds, signedInfo: string, signatureValue: string, certificateB64: string,
    modulus: string, exponent: string, p: Properties)
    ensures var r := SignatureBlock(ids, signedInfo, signatureValue, certificateB64, modulus, exponent, p);
      && Contains(r, SignatureFormat[3] + signatureValue + SignatureFormat[4])
      && Contains(r, SignatureFormat[5] + certificateB64 + SignatureFormat[6])
      && forall k :: 0 <= k < 6 ==>
           Contains(r, SignatureFormat[10 + k] + PropertiesArgs(ids, p)[k] + SignatureFormat[11 + k])
  {
    var args := SignatureArgs(ids, signedInfo, signatureValue, certificateB64, modulus, exponent, p);
    var r := Format(SignatureFormat, args);
    FormatSlot(SignatureFormat, args, 3);
    FormatSlot(SignatureFormat, args, 5);
    forall k | 0 <= k < 6
      ensures Contains(r, SignatureFormat[10 + k] + PropertiesArgs(ids, p)[k] + SignatureFormat[11 + k])
    {
      assert args[10 + k] == PropertiesArgs(ids, p)[k];
      FormatSlot(SignatureFormat, args, 10 + k);
    }
  }

  /** The block names the signature value, opens the key information and opens the signed properties. */
  lemma SignatureBlockLandmarks(
    ids: SignatureIds, signedInfo: string, signatureValue: string, certificateB64: string,
    modulus: string, exponent: string, p: Properties)
    ensures var r := SignatureBlock(ids, signedInfo, signatureValue, certificateB64, modulus, exponent, p);
      && Contains(r, "SignatureValue")
      && Contains(r, "<ds:KeyInfo")
      && Contains(r, "<etsi:SignedProperties")
  {
    var args := SignatureArgs(ids, signedInfo, signatureValue, certificateB64, modulus, exponent, p);
    var r := Format(SignatureFormat, args);
    PieceLandmarks();
    FormatHas(SignatureFormat, args, 2);
    ContainsTrans(r, SignatureFormat[2], "SignatureValue");
    FormatHas(SignatureFormat, args, 4);
    ContainsTrans(r, SignatureFormat[4], "<ds:KeyInfo");
    FormatHas(SignatureFormat, args, 10);
    ContainsTrans(r, SignatureFormat[10], "<etsi:SignedProperties");
  }

  /** Where the landmarks sit in the fixed text of the block. */
  lemma PieceLandmarks()
    ensures Contains(SignatureFormat[2], "SignatureValue")
    ensures Contains(SignatureFormat[4], "<ds:KeyInfo")
    ensures Contains(SignatureFormat[10], "<etsi:SignedProperties")
  {
    assert SignatureFormat[2] == SignatureValueOpen && SignatureFormat[4] == KeyInfoOpen;
    assert SignatureFormat[10] == EmbeddedPropertiesOpen;
    ContainsMiddle("<ds:", "SignatureValue", " Id=\"SignatureValue-");
    ContainsMiddle("</ds:SignatureValue>", "<ds:KeyInfo", " Id=\"");
    ContainsMiddle("\">", "<etsi:SignedProperties", " Id=\"");
  }

  /** The values of the signed properties for a signer at `now`. */
  function PropertiesFor(s: Signer, c: Crypto, now: DateTime): Properties
  {
    Properties(FormatSigningTime(now), c.base64(c.sha1(s.certificate.raw)), s.certificate.issuer, s.certificate.serial)
  }

  /** The SignedInfo text that is signed; it names `#comprobante`. */
  function SignedInfoFor(s: Signer, xml: string, c: Crypto, ids: SignatureIds, now: DateTime): (r: string)
    ensures Contains(r, ComprobanteUri)
  {
    var docDigest := Digest(c, HashRegion(xml));
    var propsDigest := Digest(c, SignedPropertiesXml(ids, PropertiesFor(s, c, now)));
    SignedInfoNamesComprobante(ids, docDigest, propsDigest);
    SignedInfoXml(ids, docDigest, propsDigest)
  }

  /** The signature block for a given RSA signature value. */
  function SignatureBlockFor(s: Signer, xml: string, c: Crypto, ids: SignatureIds, now: DateTime, signature: Bytes): (r: string)
    ensures HasPrefix(r, "<ds:Signature")
    ensures Contains(r, SignedInfoFor(s, xml, c, ids, now))
    ensures Contains(r, "SignatureValue") && Contains(r, "<ds:KeyInfo") && Contains(r, "<etsi:SignedProperties")
  {
    var e := s.privateKey.exponent;
    var si := SignedInfoFor(s, xml, c, ids, now);
    var sigValue := c.base64(signature);
    var cert := c.base64(s.certificate.raw);
    var modulus := c.base64(BigEndian(s.privateKey.modulus));
    var exponent := c.base64(BigEndian(if e < 0 then -e else e));
    var p := PropertiesFor(s, c, now);
    SignatureBlockOpens(ids, si, sigValue, cert, modulus, exponent, p);
    SignatureBlockLandmarks(ids, si, sigValue, cert, modulus, exponent, p);
    SignatureBlock(ids, si, sigValue, cert, modulus, exponent, p)
  }

  /**
   * `Signer.SignXML`: sign SHA-1 of SignedInfo with the private key and splice
   * the signature block in before the first `</factura>`. The random suffix of
   * the identifiers (`nonce`) and the clock reading (`now`) are inputs.
   */
  function SignXML(s: Signer, xml: string, c: Crypto, nonce: nat, now: DateTime): (r: Result<string>)
    ensures
      var ids := IdsFor(nonce);
      var si := SignedInfoFor(s, xml, c, ids, now);
      var sig := c.signPkcs1v15(s.privateKey, c.sha1(Utf8(si)));
      && (sig.Err? ==> r == Err("error generando firma RSA: " + sig.error))
      && (r.Ok? <==> sig.Ok? && Contains(xml, FacturaClose))
      && (r.Ok? ==>
            var block := SignatureBlockFor(s, xml, c, ids, now, sig.value);
            var i := IndexOf(xml, FacturaClose);
            && r.value == xml[..i] + block + xml[i..]
            && |r.value| == |xml| + |block|)
  {
    var ids := IdsFor(nonce);
    var si := SignedInfoFor(s, xml, c, ids, now);
    var sig := c.signPkcs1v15(s.privateKey, c.sha1(Utf8(si)));
    if sig.Err? then Err("error generando firma RSA: " + sig.error)
    else Splice(xml, SignatureBlockFor(s, xml, c, ids, now, sig.value))
  }

  /**
   * A signed invoice carries SignedInfo, hence the `#comprobante` reference, the
   * signature block, and still closes with `</factura>`.
   */
  lemma SignedDocumentShape(s: Signer, xml: string, c: Crypto, nonce: nat, now: DateTime)
    requires SignXML(s, xml, c, nonce, now).Ok?
    ensures Contains(SignXML(s, xml, c, nonce, now).value, SignedInfoFor(s, xml, c, IdsFor(nonce), now))
    ensures Contains(SignXML(s, xml, c, nonce, now).value, ComprobanteUri)
    ensures Contains(SignXML(s, xml, c, nonce, now).value, FacturaClose)
    ensures Contains(SignXML(s, xml, c, nonce, now).value, "<ds:Signature")
    ensures Contains(SignXML(s, xml, c, nonce, now).value, "SignatureValue")
    ensures Contains(SignXML(s, xml, c, nonce, now).value, "<ds:KeyInfo")
    ensures Contains(SignXML(s, xml, c, nonce, now).value, "<etsi:SignedProperties")
  {
    var ids := IdsFor(nonce);
    var si := SignedInfoFor(s, xml, c, ids, now);
    var sig := c.signPkcs1v15(s.privateKey, c.sha1(Utf8(si))).value;
    var block := SignatureBlockFor(s, xml, c, ids, now, sig);
    var out := SignXML(s, xml, c, nonce, now).value;
    BlockShape(out, xml, block, si);
    ContainsTrans(out, si, ComprobanteUri);
    ContainsTrans(out, block, "SignatureValue");
    ContainsTrans(out, block, "<ds:KeyInfo");
    ContainsTrans(out, block, "<etsi:SignedProperties");
  }


  /**
   * Signing changes nothing of the document but the inserted block: the text
   * before the first `</factura>`, and the text from it on, survive verbatim.
   */
  lemma SignedKeepsDocument(s: Signer, xml: string, c: Crypto, nonce: nat, now: DateTime)
    requires SignXML(s, xml, c, nonce, now).Ok?
    ensures var r := SignXML(s, xml, c, nonce, now).value;
      var i := IndexOf(xml, FacturaClose);
      && Contains(xml, FacturaClose) && |r| >= |xml|
      && r[..i] == xml[..i] && r[|r| - (|xml| - i)..] == xml[i..]
  {
    var ids := IdsFor(nonce);
    var si := SignedInfoFor(s, xml, c, ids, now);
    var sig := c.signPkcs1v15(s.privateKey, c.sha1(Utf8(si))).value;
    KeepsAround(xml, IndexOf(xml, FacturaClose), SignatureBlockFor(s, xml, c, ids, now, sig));
  }

  /** Inserting a block at `i` keeps the text on both sides. */
  lemma KeepsAround(xml: string, i: int, block: string)
    requires 0 <= i <= |xml|
    ensures var r := xml[..i] + block + xml[i..];
      && |r| == |xml| + |block|
      && r[..i] == xml[..i] && r[|r| - (|xml| - i)..] == xml[i..]
  {
  }

  /** What a splice of a signature block guarantees about the result. */
  lemma BlockShape(out: string, xml: string, block: string, si: string)
    requires Contains(xml, FacturaClose)
    requires out == xml[..IndexOf(xml, FacturaClose)] + block + xml[IndexOf(xml, FacturaClose)..]
    requires Contains(block, si) && HasPrefix(block, "<ds:Signature")
    ensures Contains(out, si) && Contains(out, FacturaClose) && Contains(out, "<ds:Signature")
  {
    var i := IndexOf(xml, FacturaClose);
    ContainsMiddle(xml[..i], block, xml[i..]);
    ContainsTrans(out, block, si);
    assert out[i + |block|..i + |block| + |FacturaClose|] == xml[i..i + |FacturaClose|];
    ContainsAt(out, FacturaClose, i + |block|);
    assert out[i..i + 13] == block[..13];
    ContainsAt(out, "<ds:Signature", i);
  }
  /** Whatever the block contains, the spliced document contains. */
  lemma SpliceCarries(xml: string, block: string, x: string)
    requires Contains(block, x)
    ensures Splice(xml, block).Ok? ==> Contains(Splice(xml, block).value, x)
  {
    if Splice(xml, block).Ok? {
      ContainsTrans(Splice(xml, block).value, block, x);
    }
  }
}
