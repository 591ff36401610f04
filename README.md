# kushkiv2 e-invoicing core, in Dafny

A model of the core of kushkiv2, a desktop point-of-sale and e-invoicing
application for Ecuador's tax authority (the SRI). The model covers the
pipeline that turns an invoice into a signed, numbered XML document, the
services around it, and the front-end invoice store. Each part is proved
against its own specification:

- the modulo-11 check digit of the 49-digit access key;
- the emission of an invoice. This covers the validation rules, the
  per-line rounding and per-VAT-code buckets, the sequential and the
  access key, the settle-once SRI state machine, the buyer upsert and the
  single save;
- the XAdES-BES signature splice. This covers the hashed region, the
  SignedProperties and SignedInfo templates, the insertion before
  `</factura>`, and the certificate choice when the PKCS#12 file is loaded;
- the SOAP client's classification of failures, and its two envelopes;
- the reconciliation service and its log buffer of at most 100 entries;
- the quotation, VAT-summary, CSV-import (clients and products) and
  mail-queue services;
- the rules inside the application object. These are the local IP choice,
  the stock and POS quantity rules, the license key format, the settings
  pre-checks, the document path, the paged histories and the dashboard;
- the rune reversal that hides the API address, and the structure of the
  license token check;
- the front-end invoice store and its totals.

Modules follow the source files: `Mod11`, `InvoiceService`, `Signing`,
`SoapClient`, `Sync`, `QuotationService`, `TaxService`, `ClientService`,
`ProductService`, `MailService`, `SecureConfig`, `Jwt` and `InvoiceStore`.
`app.go` is split by feature into `LocalNetwork`, `Inventory`, `Settings`,
`Documents`, `History` and `Dashboard`. Shared building blocks sit in
separate modules:

- `Wrappers`: Option and Result;
- `Text`: strings, UTF-8 bytes, searching, `fmt` verbs;
- `Numeric`: rounding, `Sscanf`, 64-bit wrap-around;
- `Strconv`: `Atoi` and decimal parsing;
- `Dates`: the calendar;
- `Records`: the database rows and the `Store` class;
- `Upsert`: the GORM field-skipping update;
- `CsvImport`: the header detection.

The following are passed in as parameters, never defined:

- Cryptographic primitives: SHA-1, RSA, base64, PKCS#12 and PEM parsing,
  AES decryption.
- The XML serialiser, the PDF generator and the HTTP transport.
- The clock, and every database or file-system failure.

The database is a `Store` object whose maps and sequences the service
methods update. Each such method's postcondition ties the new state to a
specification function. The properties are proved as lemmas about those
functions.

Amounts are exact `real`s. `util.Round` is not part of this model, so
`Numeric.Round` gives it a concrete definition: half away from zero to the
given number of decimals. Everything proved about rounding (idempotence,
whole cents adding up to whole cents) holds for that definition.

## Model

| member | source | states |
|---|---|---|
| Mod11.ByteDigit | pkg/util/mod11.go:8 | `clave[i] - '0'` is byte arithmetic: the value always lies in 0..255 and is the decimal value of an ASCII digit |
| Mod11.Weight | pkg/util/mod11.go:6-13 | the factor of the byte k places from the right lies in 2..7 |
| Mod11.WeightStep | pkg/util/mod11.go:10-13 | the next factor is the current one plus one, reset to 2 once it passes 7 |
| Mod11.WeightCycle | pkg/util/mod11.go:6-13 | the factors repeat with period six and restart at 2 every sixth byte |
| Mod11.WeightedSumPrepend | pkg/util/mod11.go:7-14 | a byte added in front contributes its digit times the weight of its distance from the right end |
| Mod11.LoopStep | pkg/util/mod11.go:7-14 | one turn of the reverse loop keeps `suma` equal to the weighted sum of the suffix already walked and `factor` equal to the next weight |
| Mod11.SumWeightedBytes | pkg/util/mod11.go:5-14 | the reverse loop computes the weighted sum of all the bytes of the key |
| Mod11.DigitForSum | pkg/util/mod11.go:16-23 | the digit is 11 − (sum mod 11), with 11 mapped to 0 and 10 mapped to 1, so it always lies in 0..9 |
| Mod11.CalcularDigitoModulo11 | pkg/util/mod11.go:4-26 | the method returns the check digit of the key's bytes, always in 0..9, with no validation of non-digits |
| Mod11.EmptyKeyDigit | pkg/util/mod11.go:4-26 | the empty key gives 0 |
| Mod11.DigitClosesSum | pkg/util/mod11.go:16-23 | unless the remainder is 1, the weighted sum plus the digit is a multiple of 11 |
| Mod11.DigitStringSum | pkg/util/mod11.go:7-9 | for a string of ASCII digits each byte contributes its decimal value at its cycling weight |
| InvoiceService.GetNextSecuencial | internal/service/invoice_service.go:26-40 | with no invoices the result is "000000001"; otherwise it is the `%d` value of the newest invoice's sequential plus one, in nine digits |
| InvoiceService.SecuencialIncrements | internal/service/invoice_service.go:37-39 | a nine-digit sequential below 999999999 is followed by its successor, again nine digits, which `%d` reads back as that number |
| InvoiceService.UnreadableSecuencialRestarts | internal/service/invoice_service.go:37-39 | a sequential `%d` cannot read counts as 0, so the next one is "000000001" |
| InvoiceService.RecomputedSecuencialStable | internal/service/invoice_service.go:161-169 | reading the next sequential with `%d` and printing it with `%09d` gives it back unchanged |
| InvoiceService.LineAmountRounded | internal/service/invoice_service.go:71-72 | a line's base and VAT are each whole cents |
| InvoiceService.ValidationTotal | internal/service/invoice_service.go:69-74 | the loop computes the sum over the lines of the rounded base plus the rounded VAT |
| InvoiceService.ValidationError | internal/service/invoice_service.go:44-85 | the invoice passes exactly when the configuration exists, the RUC has 13 bytes, there are items, each has a code, the financial-system rule and the consumer-final rule hold; the first broken rule is reported, in the code's order |
| InvoiceService.Validate | internal/service/invoice_service.go:44-85 | the checks, with their loops, report exactly the rule `ValidationError` names |
| InvoiceService.AllItemsCoded | internal/service/invoice_service.go:61-65 | the loop says yes exactly when every item has a non-empty code |
| InvoiceService.DefaultFormaPago | internal/service/invoice_service.go:88-90 | an empty payment method becomes "01", and any other one is kept |
| InvoiceService.EmptyFormaPagoBypassesFinancialRule | internal/service/invoice_service.go:76-90 | an invoice of $1000 or more in production with no payment method passes the rules, is then given "01", and so breaks the rule it passed |
| InvoiceService.Lines | internal/service/invoice_service.go:105-120 | one line per item, in order, carrying its VAT code and its rounded amounts |
| InvoiceService.BucketKeys | internal/service/invoice_service.go:131-135 | the buckets are keyed by exactly the VAT codes that occur |
| InvoiceService.BucketIsCodeTotal | internal/service/invoice_service.go:131-135 | every bucket holds the exact sums of its lines, because re-rounding sums of whole cents changes nothing |
| InvoiceService.BucketRate | internal/service/invoice_service.go:134 | a bucket's rate is the rate of the last line of that code |
| InvoiceService.MapOrder | internal/service/invoice_service.go:143 | the order `range` visits the buckets in lists each code once, and exactly the codes that occur |
| InvoiceService.MapOrderReachesEveryOrder | internal/service/invoice_service.go:143 | every listing of the codes is a possible visiting order, so the proofs over `MapOrder` cover whatever order Go picks |
| InvoiceService.SumBucketsOrderFree | internal/service/invoice_service.go:306-311 | the sums over the buckets are the same for every visiting order, and equal the sums over the lines |
| InvoiceService.SumCodeTotalsIsLinesTotal | internal/service/invoice_service.go:143-152 | regrouping the lines by code does not change their sums |
| InvoiceService.SummarizeBuckets | internal/service/invoice_service.go:141-156 | the loop produces one `totalImpuesto` per bucket in visiting order, and the rounded total and net total of the buckets |
| InvoiceService.TaxedSubtotals | internal/service/invoice_service.go:299-311 | the second loop adds the buckets other than "0" into the taxed subtotal and the VAT |
| InvoiceService.SubtotalCeroIsZeroRated | internal/service/invoice_service.go:301-303 | `subtotalCero` is the base of the lines of code "0", or 0 when there are none |
| InvoiceService.ImporteTotalIsValidationTotal | internal/service/invoice_service.go:69-156 | the invoice total equals the preliminary total the rules checked, and the net total is the sum of the line bases |
| InvoiceService.TotalsAddUp | internal/service/invoice_service.go:299-322 | the net total is Subtotal15 + Subtotal0; the total adds the VAT of both groups, and when the "0" lines carry rate 0 it is Subtotal15 + Subtotal0 + IVA |
| InvoiceService.SeriesFieldDigits | internal/service/invoice_service.go:162-168 | a series number from 0 to 999 prints as three digits with that value |
| InvoiceService.CompactDateDigits | internal/service/invoice_service.go:176-177 | the "02012006" date of a year below 10000 is eight digits |
| InvoiceService.AccessKeyLayout | internal/service/invoice_service.go:174-187 | the access key has 49 digits: date, "01", RUC, environment, establishment, point of emission, sequential, "12345678", "1" at fixed offsets, then the modulo-11 digit of the first 48 |
| InvoiceService.CollectReceptionMessages | internal/service/invoice_service.go:403-409 | the nested loop concatenates "id: msg (info); " over all documents and messages, in order |
| InvoiceService.AuthorizationLoop | internal/service/invoice_service.go:376-397 | the loop ends in the state and message `AuthOutcome` gives |
| InvoiceService.AuthorizedEntryWins | internal/service/invoice_service.go:377-383 | any AUTORIZADO entry authorizes the invoice and clears the message |
| InvoiceService.LastRejectionRemains | internal/service/invoice_service.go:384-397 | without an AUTORIZADO entry the last entry's state and "[estado] id: msg;" text remain; with no entries, or a last state of RECIBIDA, the state is RECIBIDA with the "no answer" message |
| InvoiceService.SettledStateOrigin | internal/service/invoice_service.go:345-411 | the settled state is one the code names or one the SRI returned, and AUTORIZADO needs an authorizing answer |
| InvoiceService.SettleSri | internal/service/invoice_service.go:345-411 | the reception result, and for a received document the authorization result, settle the state as specified: network error PENDIENTE_ENVIO with the offline message, other errors ERROR_TECNICO, a returned document its state and messages |
| InvoiceService.StandardOffline | internal/service/invoice_service.go:346-351 | with the SOAP client of this model, a transport failure settles the invoice as PENDIENTE_ENVIO with the offline message |
| InvoiceService.TotalsFor | internal/service/invoice_service.go:143-149 | one `totalImpuesto` per bucket in visiting order |
| InvoiceService.BuildDocument | internal/service/invoice_service.go:189-288 | the document built step by step is the specified one, with "SI" for obliged emitters and the additional fields appended in order |
| InvoiceService.AdditionalFieldsPresent | internal/service/invoice_service.go:275-288 | each of e-mail, phone, note and address appears as an additional field exactly when it is non-empty, with its value |
| InvoiceService.PriceLines | internal/service/invoice_service.go:105-138 | the loop makes one `detalle` per line, in order, and fills the buckets |
| InvoiceService.SignDocument | internal/service/invoice_service.go:326-341 | decrypting, loading and signing report the first failure with its own prefix, or give the signed text |
| InvoiceService.StandardSignature | internal/service/invoice_service.go:333-341 | with the signer of this model, a signed invoice contains the splice of the signature block, and a document without `</factura>` is refused |
| InvoiceService.BuyerTipoID | internal/service/invoice_service.go:428-437 | the buyer type is "07" for the anonymous buyer, "04" for other 13-byte ids, "05" for 10-byte ids and "06" otherwise |
| InvoiceService.UpsertedBuyerFields | internal/service/invoice_service.go:439-462 | a new buyer gets every field and the inferred type; an existing one gets name and address even when empty, while an empty e-mail or phone keeps the stored value |
| InvoiceService.UpsertBuyer | internal/service/invoice_service.go:423-462 | the client table gains or updates the buyer and nothing else changes |
| InvoiceService.ItemRecordsShape | internal/service/invoice_service.go:469-481 | one reporting row per line, in order, keyed by the access key, with the unrounded quantity × price |
| InvoiceService.SaveItems | internal/service/invoice_service.go:469-481 | the reporting rows are appended in order |
| InvoiceService.EmittedFacturaMatchesDocument | internal/service/invoice_service.go:413-421 | the saved record has the document's access key, sequential and total; its subtotals split the net total; the total is the one the rules checked; a technical error stores no RIDE |
| InvoiceService.Numbering | internal/service/invoice_service.go:158-187 | the series fields, the sequential and the access key are the specified ones |
| InvoiceService.PriceInvoice | internal/service/invoice_service.go:93-156 | the `detalle`s, the buckets, the tax totals and the two totals are the specified ones |
| InvoiceService.ComposeDocument | internal/service/invoice_service.go:93-288 | pricing, numbering and building give the specified document |
| InvoiceService.StoredSubtotals | internal/service/invoice_service.go:298-311 | the stored taxed subtotal, VAT and zero-rated subtotal are the sums over the taxed lines and the "0" lines |
| InvoiceService.Settlement | internal/service/invoice_service.go:345-421 | the SRI state is the settled one, and the RIDE is attached unless the state is ERROR_TECNICO or the generator fails |
| InvoiceService.BuildRecord | internal/service/invoice_service.go:93-421 | the record to save, or the first failure of generating or signing |
| InvoiceService.SaveInvoice | internal/service/invoice_service.go:423-481 | the buyer is upserted; a duplicate access key fails with the save prefix and stores nothing more; otherwise the invoice is appended once and then its lines |
| InvoiceService.EmitirFactura | internal/service/invoice_service.go:43-489 | a broken rule, or a failure before the save, returns its error and leaves the store unchanged; otherwise the buyer is upserted and the record is created exactly once, after the state has settled; the caller's invoice gets the default payment method, the recomputed sequential and, once saved, the access key |
| Signing.LastEndEntity | pkg/crypto/signer.go:60-67 | the index of the last certificate that is not a CA, with every later one a CA |
| Signing.ChosenCertStep | pkg/crypto/signer.go:60-67 | one more certificate: a non-CA one always replaces the choice, a CA one is taken only when none has been chosen yet |
| Signing.SelectKeyAndCert | pkg/crypto/signer.go:46-68 | the loop over the decoded blocks keeps the last RSA key found (PKCS#1 first, then PKCS#8) and the certificate the rule above chooses |
| Signing.NewSignerFromFile | pkg/crypto/signer.go:35-78 | a read failure and a decoding failure are reported with their prefixes; loading succeeds exactly when the blocks yield a key and a certificate, and then gives the chosen pair |
| Signing.ValidateCert | pkg/crypto/signer.go:81-84 | the certificate is valid exactly when loading would succeed |
| Signing.IdsFor | pkg/crypto/signer.go:89-94 | the identifiers all derive from "Signature-n": "SignedProperties-" and "Reference-" prefix it |
| Signing.BigEndian | pkg/crypto/signer.go:141-142 | `big.Int.Bytes()` is empty exactly for zero and otherwise has no leading zero byte |
| Signing.HashRegion | pkg/crypto/signer.go:103-107 | the hashed text is a suffix of the document that starts at the first `<factura`, or the whole document when that is absent, so a prolog is left out |
| Signing.SignedPropertiesSlots | pkg/crypto/signer.go:126-133 | each of the six values (id, signing time, certificate digest, issuer, serial, reference id) sits in its own element of the hashed SignedProperties |
| Signing.SignedInfoNamesComprobante | pkg/crypto/signer.go:144 | SignedInfo contains the reference `URI="#comprobante"` |
| Signing.SignedInfoReferences | pkg/crypto/signer.go:144-150 | the document digest is the DigestValue of the `#comprobante` reference; the second reference names the SignedProperties id and carries its digest |
| Signing.SignatureBlockOpens | pkg/crypto/signer.go:167-169 | the block opens with `<ds:Signature` and holds SignedInfo verbatim right after the opening tag |
| Signing.SignatureBlockSlots | pkg/crypto/signer.go:167-184 | the block carries the signature value and the certificate, and embeds the signed properties with the same six values, in the same order, as the hashed copy |
| Signing.SignedInfoFor | pkg/crypto/signer.go:96-150 | the SignedInfo that is signed names `#comprobante` |
| Signing.SignatureBlockFor | pkg/crypto/signer.go:160-184 | the signature block opens with `<ds:Signature` and contains the signed SignedInfo |
| Signing.Splice | pkg/crypto/signer.go:186-197 | the splice succeeds exactly when `</factura>` occurs; the result is the text before its first occurrence, the block, then the rest, and it grows by exactly the block's length |
| Signing.SignXML | pkg/crypto/signer.go:87-198 | an RSA failure is reported with its prefix; otherwise the document is signed exactly when it contains `</factura>`, and the result is the input with the block inserted before the first `</factura>` |
| Signing.PieceLandmarks | pkg/crypto/signer.go:167-184 | the fixed text of the block holds `SignatureValue`, `<ds:KeyInfo` and `<etsi:SignedProperties` in the pieces that surround the signature value, the key and the embedded properties |
| Signing.SignatureBlockLandmarks | pkg/crypto/signer.go:167-184 | every signature block, whatever its values, contains `SignatureValue`, `<ds:KeyInfo` and `<etsi:SignedProperties` |
| Signing.SignedDocumentShape | pkg/crypto/signer.go:155-195 | a signed document contains the signed SignedInfo, the `#comprobante` reference, `<ds:Signature`, `SignatureValue`, `<ds:KeyInfo`, `<etsi:SignedProperties` and still `</factura>`, the landmarks `pkg/crypto/signer_test.go` looks for |
| Signing.SignedKeepsDocument | pkg/crypto/signer.go:189-195 | the text before the first `</factura>` and the text from it on survive verbatim |
| SoapClient.DoRequest | pkg/sri/soap_client.go:125-144 | a transport failure or a status of 500 or more is a network error with its message; any lower status, 4xx included, hands the body on |
| SoapClient.RecepcionEnvelope | pkg/sri/soap_client.go:60-70 | the reception envelope carries the base64 text of the signed document inside `<xml>`, at a fixed offset |
| SoapClient.AutorizacionEnvelope | pkg/sri/soap_client.go:91-99 | the authorization envelope carries the access key verbatim inside `<claveAccesoComprobante>`, at a fixed offset |
| SoapClient.EnvelopesInjective | pkg/sri/soap_client.go:60-99 | distinct payloads give distinct envelopes, so a request loses nothing of its payload |
| SoapClient.EnviarComprobante | pkg/sri/soap_client.go:59-87 | reception posts its envelope to the fixed test endpoint; the request's failure is passed on, and an unreadable answer is a plain error |
| SoapClient.AutorizarComprobante | pkg/sri/soap_client.go:90-116 | authorization posts its envelope to the fixed test endpoint; the request's failure is passed on, and an unreadable answer is a plain error |
| SoapClient.FixedEndpoints | pkg/sri/soap_client.go:13-103 | both operations depend only on how the transport answers the two test endpoints, whatever the environment |
| SoapClient.UnparseableIsPlainError | pkg/sri/soap_client.go:81-84 | an unreadable answer below 500 is a plain error with the parse prefix, never a network error |
| SoapClient.CheckConnectivity | pkg/sri/soap_client.go:119-123 | the service is reachable exactly when the GET of the reception URL completes, whatever its status |
| Sync.PushedShape | internal/service/sync_service.go:49-55 | after `AddLog` the new entry is at index 0, the length is min(old + 1, 100), and the entries after it are a prefix of the old list |
| Sync.PushedAll | internal/service/sync_service.go:49-55 | adding at least one entry leaves a non-empty list |
| Sync.PushedAllLength | internal/service/sync_service.go:49-55 | from at most 100 entries, each added entry grows the list by one, up to 100 |
| Sync.PushedAllFront | internal/service/sync_service.go:49-50 | the entry added last comes first |
| Sync.PushedAllAppend | internal/service/sync_service.go:49-55 | adding two runs of entries is adding them one run after the other |
| Sync.SyncService.AddLog | internal/service/sync_service.go:37-56 | the log list becomes the new entry followed by the old list, cut to 100 entries |
| Sync.SyncService.GetLogs | internal/service/sync_service.go:58-65 | the result is a fresh array with the same entries as the list |
| Sync.SyncService.SnapshotThenLog | internal/service/sync_service.go:37-65 | a copy taken before `AddLog` keeps the old entries while the list gains the new one |
| Sync.ScanDeferredKeepsRecord | internal/service/sync_service.go:151-159 | the authorization loop changes only the state and message of the record |
| Sync.ScanDeferredCrash | internal/service/sync_service.go:151-159 | the loop panics exactly when it meets a rejection without messages before any AUTORIZADO entry |
| Sync.AuthorizedFirst | internal/service/sync_service.go:152-154 | an AUTORIZADO first entry authorizes the record and keeps the cleared message |
| Sync.LastRejectionWins | internal/service/sync_service.go:155-158 | without an AUTORIZADO entry the last entry's state and "Rechazo diferido: " plus its first message remain |
| Sync.ScanAuthorizations | internal/service/sync_service.go:151-159 | the loop gives the record the specification describes, or the panic |
| Sync.ProcessInvoiceOutcome | internal/service/sync_service.go:121-172 | a send error logs once and saves nothing, so the record stays PENDIENTE_ENVIO; every other path logs twice and, unless the authorization scan panics on a rejection without messages (nothing is then saved), saves once; a saved record differs only in state and message; a received record is RECIBIDA with no message unless the authorization changes it; a returned one takes its state and the "Devuelta" message |
| Sync.SyncService.ProcessSingleInvoice | internal/service/sync_service.go:121-172 | the entries logged, the record saved and the panic are the specified ones |
| Sync.Pending | internal/service/sync_service.go:90-92 | the retried positions are exactly those in state PENDIENTE_ENVIO, in table order |
| Sync.Batch | internal/service/sync_service.go:105-117 | retrying the records keeps the table's length |
| Sync.BatchWrites | internal/service/sync_service.go:105-117 | saving only writes the retried positions, with records that differ only in state and message, and never writes a record whose resend failed |
| Sync.BatchStep | internal/service/sync_service.go:105-117 | retrying a record then the rest logs its entries before theirs |
| Sync.SyncService.RetryBatch | internal/service/sync_service.go:105-117 | the loop over the pending records logs and saves what the batch specification says |
| Sync.PassTouchesOnlyPending | internal/service/sync_service.go:90-117 | a pass leaves every record not in PENDIENTE_ENVIO alone, changes only state and message of the others, and keeps a record whose resend fails as it was |
| Sync.OfflinePass | internal/service/sync_service.go:84-88 | without connectivity the pass logs exactly one "Conectividad"/"Error" entry and touches no record |
| Sync.PassFraming | internal/service/sync_service.go:94-118 | with nothing pending the pass logs nothing; otherwise it opens with the batch entry counting the records and, unless a record panicked, closes with "Sincronización finalizada" |
| Sync.SyncService.SyncPendingInvoices | internal/service/sync_service.go:83-119 | the logs and the table after the pass are the specified ones |
| QuotationService.GetNextSecuencial | internal/service/quotation_service.go:20-33 | with no quotations the result is "000000001"; otherwise, when the newest number scans to a value below 999999999, it is that value plus one in nine digits |
| QuotationService.NextAfterFive | internal/service/quotation_service.go:25-32 | after "000000005" comes "000000006" |
| QuotationService.SumsSplitLines | internal/service/quotation_service.go:46-65 | the two subtotals split the rounded bases of all the lines, the tax is the rounded VAT of the lines with a positive rate alone, and each sum is whole cents |
| QuotationService.PriceQuotation | internal/service/quotation_service.go:43-65 | the pricing loop computes exactly those sums and one stored row per line, in order |
| QuotationService.DraftAmounts | internal/service/quotation_service.go:67-84 | a new quotation is "GENERADA", carries the three sums, its total is Subtotal15 + Subtotal0 + IVA, its two subtotals add up to the rounded sum of the bases, and each row's subtotal is its line's quantity × price rounded to cents |
| QuotationService.TwoLineExample | internal/service/quotation_service.go:46-67 | one unit at 100 with 15% VAT and two units at 50 with none give subtotals 100 and 100, VAT 15 and total 215 |
| QuotationService.QuotedClientFields | internal/service/quotation_service.go:114-134 | name, address, e-mail and phone always come from the quotation, even when empty; an existing client keeps its identification type, and a new one gets the quotation's id and type "05" |
| QuotationService.NextQuotationID | internal/service/quotation_service.go:99-104 | the key the database gives a new quotation, one past the newest, is at least 1 |
| QuotationService.KeyedLines | internal/service/quotation_service.go:106-112 | keying the priced rows with the new quotation's key gives its stored rows |
| QuotationService.SaveQuotationItems | internal/service/quotation_service.go:106-112 | the rows, keyed by the quotation, are appended in order |
| QuotationService.CreateQuotation | internal/service/quotation_service.go:36-137 | a quotation without items is refused with its error and nothing is stored; otherwise the quotation with its sums and PDF, its keyed rows and its upserted client are saved and no error is returned |
| QuotationService.CreateKeepsKeys | internal/service/quotation_service.go:99-112 | creating a quotation keeps the keys increasing and every row pointing below the next key |
| QuotationService.FindQuotation | internal/service/quotation_service.go:162-166 | the quotation found has the key asked for, and none is found only when no quotation has it |
| QuotationService.GetPDF | internal/service/quotation_service.go:162-171 | the PDF is returned exactly when the quotation exists and its PDF is non-empty; an unknown key is "record not found" |
| QuotationService.ItemsOfAppend | internal/service/quotation_service.go:178-181 | selecting one quotation's rows distributes over appended tables |
| QuotationService.ItemsOfAll | internal/service/quotation_service.go:178-181 | a table whose rows all belong to the quotation is selected whole |
| QuotationService.ItemsOfNone | internal/service/quotation_service.go:178-181 | a table with no row of the quotation gives no rows |
| QuotationService.ConvertToInvoice | internal/service/quotation_service.go:173-207 | the method gives the draft invoice of the quotation and its rows, or "record not found" |
| QuotationService.ConversionShape | internal/service/quotation_service.go:183-204 | the draft keeps the client's id, name and e-mail, one line per quotation row with its product code and VAT code "2", and the note "Basado en Cotización " followed by the quotation number |
| QuotationService.ConvertCreated | internal/service/quotation_service.go:173-207 | converting a quotation just created gives the request's client, its lines in order with VAT code "2", the note naming its number, and every other field empty |
| QuotationService.PdfOfCreated | internal/service/quotation_service.go:162-171 | a quotation just created gives back the PDF it was rendered with, or the "no PDF" error when rendering gave none |
| QuotationService.Offset | internal/service/quotation_service.go:143 | the rows skipped are never negative for a page of at least 1 |
| QuotationService.OffsetIsProduct | internal/service/quotation_service.go:143 | the rows skipped are exactly (page − 1) × pageSize, for every page |
| QuotationService.HistoryRowsCommute | internal/service/quotation_service.go:146-158 | formatting commutes with the query: the formatted page of the quotations newest first is the page, for the same offset and limit, of the formatted table newest first |
| QuotationService.RowsOfNewestFirst | internal/service/quotation_service.go:146-158 | formatting the quotations newest first gives the formatted lines newest first |
| QuotationService.RowsOfWindow | internal/service/quotation_service.go:146-158 | formatting a `Limit`/`Offset` window gives the same window of the formatted lines |
| QuotationService.QuotationPage | internal/service/quotation_service.go:140-160 | a page holds at most pageSize lines, and exactly min(pageSize, rows left) when it starts inside the table |
| QuotationService.QuotationPageOrder | internal/service/quotation_service.go:140-160 | line i of page p is the quotation (p − 1) × pageSize + i places back from the newest |
| TaxService.InvoicesIn | internal/service/tax_service.go:30 | the period's invoices are invoices of the table whose issue date lies between the two bounds, both included |
| TaxService.Counted | internal/service/tax_service.go:32-35 | the counting invoices are exactly those of the period with a positive total and a state that, trimmed and in capitals, is not "ANULADO" |
| TaxService.SumAllAppend | internal/service/tax_service.go:36-38 | adding one more invoice adds its two subtotals and its VAT to the three sums |
| TaxService.SalesAreCountedSums | internal/service/tax_service.go:32-40 | the loop's sums are the plain sums over the counting invoices: voided, zero and negative invoices add nothing |
| TaxService.SumSales | internal/service/tax_service.go:32-40 | the loop computes exactly those sums |
| TaxService.FactorIsProportion | internal/service/tax_service.go:42-49 | with non-negative sales the factor lies between 0 and 1, and it is exactly 1 without sales or without zero-rated sales |
| TaxService.RoundWithinUnit | internal/service/tax_service.go:46 | rounding a proportion to four decimals keeps it between 0 and 1 |
| TaxService.QuotientAtMostOne | internal/service/tax_service.go:46 | taxed sales over total sales is at most 1 |
| TaxService.RetencionesWithoutIva | internal/service/tax_service.go:51-54 | withholdings of another type than "IVA", or outside the period, add nothing: with none left the total is the COALESCE default 0 |
| TaxService.SuggestedNonNegative | internal/service/tax_service.go:56-60 | the suggested payment is never negative, is 0 when the withholdings cover the VAT charged, and otherwise is the difference rounded to cents |
| TaxService.GetVATSummary | internal/service/tax_service.go:25-63 | the method returns the summary of the period: the sums, the factor, the VAT withheld and the suggested payment |
| TaxService.SummaryFacts | internal/service/tax_service.go:25-63 | only counting invoices of the period feed the summary, the factor is 1 without sales, and the suggested payment is never negative |
| ClientService.ClientOfRow | internal/service/client_service.go:53-98 | a row becomes a client exactly when it has at least three cells and a non-blank trimmed ID and name; the client carries the trimmed cells, and an empty type is inferred from the ID: 13 bytes "04", 10 bytes "05", otherwise "08" |
| ClientService.ParseClientRow | internal/service/client_service.go:53-98 | parsing one record gives exactly that client, or skips the row |
| ClientService.MergeClientIsOverride | internal/service/client_service.go:100-106 | GORM's `Updates` with a client, where empty fields keep the stored value, is associative and idempotent, and the all-empty client is its unit |
| ClientService.ClientItems | internal/service/client_service.go:53-106 | the clients of the valid rows are keyed by their own ID, at most one per row |
| ClientService.ClientItemsStep | internal/service/client_service.go:53-107 | each further row adds its client, or nothing when it is skipped |
| ClientService.ImportClientsFromCSV | internal/service/client_service.go:19-111 | the import gives the specified table, count and error |
| ClientService.ImportClientsOutcome | internal/service/client_service.go:19-111 | a read error changes nothing and reports 0; otherwise clients no valid row names are kept, the table gains exactly the valid rows' IDs, each holds the stored client updated with the rows' combined record, and the count is the number of valid rows |
| ClientService.ReimportClients | internal/service/client_service.go:19-111 | importing the same file a second time changes nothing and reports the same count |
| ProductService.ProductOfRow | internal/service/product_service.go:55-121 | a row becomes a product exactly when it has at least three cells and a non-blank trimmed SKU and name; the price is the cell read with "," as decimal point, a three-cell row gets stock 0, tax code 2 and 15%, integers are within 64 bits, and an expiry date is only ever a valid "2006-01-02" date from cell 9 |
| ProductService.ParseProductRow | internal/service/product_service.go:55-121 | parsing one record gives exactly that product, or skips the row |
| ProductService.MergeProductIsOverride | internal/service/product_service.go:123-129 | GORM's `Updates` with a product, where zero fields keep the stored value, is associative and idempotent, and the all-zero product is its unit |
| ProductService.UpdateKeepsZeroFields | internal/service/product_service.go:123-126 | an import row with stock 0, price 0 or no expiry date never clears what is stored, so a stock can never be reset to 0 by import |
| ProductService.ProductItems | internal/service/product_service.go:55-129 | the products of the valid rows are keyed by their own SKU, at most one per row |
| ProductService.ProductItemsStep | internal/service/product_service.go:55-130 | each further row adds its product, or nothing when it is skipped |
| ProductService.ImportProductsFromCSV | internal/service/product_service.go:21-134 | the import gives the specified table, count and error |
| ProductService.ImportProductsOutcome | internal/service/product_service.go:21-134 | a read error changes nothing and reports 0; otherwise products no valid row names are kept, the table gains exactly the valid rows' SKUs, each holds the stored product updated with the rows' combined record, and the count is the number of valid rows |
| ProductService.ReimportProducts | internal/service/product_service.go:21-134 | importing the same file a second time changes nothing and reports the same count |
| Strconv.AtoiIntToString | internal/service/product_service.go:66 | every 64-bit integer written in decimal, with a minus sign when negative, reads back as itself |
| Strconv.AtoiOverflowIgnoresTail | internal/service/product_service.go:66 | a cell whose leading digits exceed 2^64-1 reads as the largest 64-bit integer, or the smallest after a minus sign, whatever follows the digits (so "99999999999999999999x" gives the maximum, not 0) |
| Strconv.AtoiUntrimmed | internal/service/product_service.go:66 | a cell that starts with anything other than a digit or a sign, white space included, reads as 0 |
| CsvImport.RestRecords | internal/service/client_service.go:42-51 | the records after the first are read up to the end; the result is all of them in order exactly when no read fails, and otherwise the error of the first failing read |
| CsvImport.RowsToProcessOutcome | internal/service/client_service.go:20-51 | the import stops with an error exactly when the input is empty or some read fails; otherwise it processes every record in order, the first one only when none of its cells, lower-cased, is a header word |
| CsvImport.ReadRows | internal/service/client_service.go:20-51 | the reading loop computes exactly those rows or that error |
| Upsert.KeysOf | internal/service/client_service.go:100-106 | the keys of the upserted records are exactly the keys they carry |
| Upsert.Apply | internal/service/client_service.go:100-107 | after the upserts the table has the old keys plus the upserted ones, and a key no record names keeps its record |
| Upsert.ApplyStep | internal/service/client_service.go:100-107 | one more upsert merges the record into what the previous ones left under its key |
| Upsert.GetPatch | internal/service/client_service.go:100-106 | with an override merge, the record under any key after a patch is the stored one merged with the patch's |
| Upsert.PatchStep | internal/service/client_service.go:100-106 | one more upsert after a patch is the patch with that key's combined record extended |
| Upsert.ApplyIsPatch | internal/service/client_service.go:53-108 | with an override merge, the upserts one after the other equal one merge per key with the rows' combined record |
| Upsert.PatchTwice | internal/service/client_service.go:100-106 | merging the same patch twice is merging it once |
| Upsert.Reapply | internal/service/client_service.go:53-108 | replaying the same upserts over their own result changes nothing |
| MailService.QueuedIsTried | internal/service/mail_service.go:24-79 | a freshly queued message is picked up by the next pass of a configured worker: it comes out "ENVIADO" with no retries, or "ERROR" with one retry and the transport's error, with its recipient, subject, body and attachment as queued |
| MailService.QueueEmail | internal/service/mail_service.go:24-34 | queuing appends exactly that message to the table |
| MailService.EligibleIndices | internal/service/mail_service.go:49-51 | the worker's query finds, in table order, exactly the messages that are pending or failed with fewer than three retries |
| MailService.AttemptAllKeepsContents | internal/service/mail_service.go:67-79 | attempting never rewrites a message's recipient, subject, body or attachment, and a message is "ENVIADO" afterwards exactly when it already was, or was eligible and the transport accepted it |
| MailService.AttemptedAtPointwise | internal/service/mail_service.go:67-79 | saving the tried messages one by one, from the snapshot the query read, tries each listed position once whatever the order |
| MailService.AttemptedEligible | internal/service/mail_service.go:49-79 | trying the positions the query found, one after the other, is trying the whole snapshot at once |
| MailService.SendEach | internal/service/mail_service.go:67-79 | the loop leaves the table with exactly the listed positions tried once and saved |
| MailService.ProcessQueue | internal/service/mail_service.go:48-80 | one pass of the worker: nothing changes without eligible messages, without an emitter configuration, or without an SMTP host and user; otherwise every eligible message is tried once |
| MailService.QueuePassOutcome | internal/service/mail_service.go:48-80 | a pass keeps the table's size, never lowers a retry count, leaves ineligible messages as they were, and leaves each eligible one either sent with its error cleared or failed with one more retry |
| MailService.AttemptsWithinBudget | internal/service/mail_service.go:36-80 | over any run of passes and any transport answers, a message is handed to the transport at most as many times as its budget |
| MailService.AtMostThreeAttempts | internal/service/mail_service.go:24-80 | a newly queued message is handed to the transport at most three times in all, whatever the transport answers |
| MailService.SettledNeverRetried | internal/service/mail_service.go:51 | a sent message, or one that failed three times, is never tried again |
| MailService.AuthHost | internal/service/mail_service.go:86-87 | the host for authentication is the SMTP address up to its first ":" |
| MailService.AuthHostShape | internal/service/mail_service.go:86-87 | that host has no ":", and an address without a port is its own host |
| SecureConfig.Reversed | pkg/crypto/secure_config.go:19-25 | a string reversed has the same length and holds its runes back to front |
| SecureConfig.ReversedInvolution | pkg/crypto/secure_config.go:19-25 | reversing twice gives the runes back, so the constant can be recovered from the address |
| SecureConfig.ReverseRunes | pkg/crypto/secure_config.go:20-23 | swapping the outermost pair and moving inward leaves the rune array reversed |
| SecureConfig.Reverse | pkg/crypto/secure_config.go:19-25 | `reverse` returns the string reversed rune by rune |
| SecureConfig.ApiUrl | pkg/crypto/secure_config.go:28-31 | the API address, reversed, is the decoded constant |
| SecureConfig.GetAPIURL | pkg/crypto/secure_config.go:28-31 | the method returns exactly that address |
| SecureConfig.GetPublicKey | pkg/crypto/secure_config.go:34-56 | the key loads exactly when the constant decodes, holds a PEM block and parses to an RSA key, which is the key returned; a decoding failure is reported with the "error decoding key config: " prefix |
| Jwt.PaddedFallback | pkg/crypto/jwt.go:29-36 | the padded decoder is only a fallback: while the unpadded one reads the signature, replacing the padded one changes nothing, and once the unpadded one fails the token is judged exactly as if the padded reading were the only one |
| Jwt.SameReadingSameVerdict | pkg/crypto/jwt.go:29-54 | two decoder pairs that read the same signature bytes, with the same key, hash and RSA check, give the same verdict |
| Jwt.FormatChecked | pkg/crypto/jwt.go:15-18 | a token is rejected as malformed exactly when it does not hold two dots, whatever the primitives |
| Jwt.SignedContentShape | pkg/crypto/jwt.go:15-25 | a token of three segments is the signed content, a dot and the signature, and the signature holds no dot |
| Jwt.JoinThree | pkg/crypto/jwt.go:24-25 | three segments joined by the separator are the first, the separator, the second, the separator and the third |
| Jwt.AcceptedIff | pkg/crypto/jwt.go:14-54 | a token is accepted exactly when it has three segments, its signature decodes, the key loads and RSA PKCS#1 v1.5 verifies the SHA-256 of "header.payload"; a key failure is reported with the key's own error and an undecodable signature as "invalid signature encoding" |
| LocalNetwork.FirstCandidate | app.go:258-281 | the first non-loopback IPv4 address: none before it qualifies |
| LocalNetwork.FirstHome | app.go:258-266 | the first "192.168." candidate: none before it is one |
| LocalNetwork.GetLocalIP | app.go:250-289 | the loop returns exactly the address the choice specifies |
| LocalNetwork.LocalIPChoice | app.go:250-289 | the address is "127.0.0.1" when the listing fails or holds no candidate; otherwise it is the first "192.168." candidate, or, when there is none, the first candidate of any range |
| Inventory.Wrap | app.go:179 | a sum is wrapped into the 64-bit range and is left as it is when it already fits |
| Inventory.WrapAdd | app.go:179 | wrapping first and adding afterwards is wrapping the whole sum |
| Inventory.StockUpdatesCompose | app.go:176-180 | two adjustments are one adjustment by their sum, a "set" forgets what came before, and a removal larger than the stock leaves it negative |
| Inventory.UpdateStock | app.go:171-194 | an unknown SKU is "Product not found" and changes nothing; otherwise only that product's stock is rewritten, set or adjusted, and the new stock is returned |
| Inventory.ScanQuantity | app.go:208-210 | the forwarded quantity is never 0 and is the requested one unless that was 0 |
| Inventory.ScanQuantityStable | app.go:208-210 | the default applies once, and the quantity becomes 1 exactly when it was 0 or 1 |
| Records.NewestFirst | app.go:832 | `Order("created_at desc")`: the rows, the latest stored first, each one exactly once |
| Records.Window | app.go:832 | `Limit(n).Offset(k)`: at most `n` rows (all of them for a negative limit), starting at position `k` (from the start for a non-positive offset, none past the end) |
| Records.NewestWindow | app.go:826-832 | the `i`-th row of a page skipping `k` rows is row `k + i` counted back from the newest |
| Settings.GroupsMatch | app.go:366-367 | a key "KSH-" followed by three dash-separated groups of four capitals or digits matches the pattern `^KSH-[A-Z0-9]{4}-[A-Z0-9]{4}-[A-Z0-9]{4}$` |
| Settings.MatchedGroups | app.go:366-367 | a key that matches the pattern is exactly such a key, and its three groups are each four capitals or digits |
| Settings.LicenseKeyAccepted | app.go:361-370 | a key passes the checks before the backend call exactly when it matches the pattern; an empty key gets the "no puede estar vacía" error, any other mismatch the format error |
| Settings.ConfigPrecheckOutcome | app.go:1029-1044 | settings pass the checks before the certificate exactly when the storage path is empty or exists, the RUC is 13 bytes and the SMTP host does not contain "smpt"; a missing path is reported first, then a wrong RUC length |
| Settings.SmtpTypoCaught | app.go:1041-1044 | with a valid RUC, "smpt.gmail.com" is refused as a typo and "smtp.gmail.com" is not |
| Documents.SaveDocument | app.go:542-560 | no configuration or an empty storage path is an error that touches nothing; a failed `MkdirAll` is reported with its cause and touches nothing; otherwise the storage folder, its year folder and the month folder inside it exist, as `MkdirAll` creates the missing parents, and, unless the write fails, the file `FACTURA-<secuencial>.<type>` in it holds the content |
| Documents.DocumentDirs | app.go:547-552 | the folders `MkdirAll` leaves for a document include the storage folder and the month folder, and all lie under the storage folder |
| Documents.FolderNames | app.go:548-550 | the folder names read back as the invoice's year and month: the year in decimal, the month as exactly two digits |
| Documents.DocumentNameInjective | app.go:556-557 | for numeric sequentials, two documents of the same folder share a file name only when they have the same sequential and the same type |
| History.NormalPaging | app.go:820-825 | the page and the page size used are at least 1 |
| History.NormalPagingKeepsValid | app.go:820-826 | a page of at least 1 and a size of at least 1 are kept as asked, normalising twice changes nothing more, and the offset skipped is never negative |
| History.GetQuotations | app.go:1380-1390 | the quotation list holds at most the normalised page size and reports the number of stored quotations |
| History.FacturasPage | app.go:819-878 | the response reports the size of the whole invoice table and one line per invoice of the page, in order |
| History.Lines | app.go:853-868 | one history line per invoice |
| History.LinesAt | app.go:853-868 | line `i` is the line of invoice `i` |
| History.UniqueIDs | app.go:834-841 | the client identifications the invoices name, each exactly once: an identification is listed exactly when some invoice names it |
| History.UniqueClientIDs | app.go:834-841 | the loop with the `uniqueIDs` set collects exactly those identifications, in the order of first appearance |
| History.ClientNames | app.go:843-851 | `clientMap` holds exactly the stored clients among the identifications, each with its stored name |
| History.SummaryLine | app.go:854-867 | a line names the client by the stored name when that name is not empty, by the identification otherwise, and carries the invoice's key, sequential, time, total, state and whether it has a RIDE |
| History.SummaryLines | app.go:853-868 | the loop produces the lines of the page's invoices, in order |
| History.GetFacturasPaginated | app.go:819-878 | the method returns exactly the paged response its specification describes |
| History.FacturasPageShape | app.go:819-878 | a page holds at most the page size, is full unless it reaches the oldest invoice, counts back from the newest past the earlier pages, reports the size of the table, and each line shows its invoice with the client's stored name or, when the client is unknown or unnamed, its identification |
| History.ResumenFields | app.go:854-867 | the line of an invoice carries that invoice's fields and the client name chosen as above |
| Dashboard.DayOf | app.go:472-473 | a date parsed with the error dropped is always a valid calendar date, the zero date when parsing fails |
| Dashboard.SalesTotal | app.go:487-493 | the sum of the positive totals is never negative |
| Dashboard.PendingCount | app.go:498-502 | the pending count never exceeds the number of invoices |
| Dashboard.DayTotal | app.go:491-493 | a day's sales are never negative and never exceed the sales of all the invoices |
| Dashboard.CountersStep | app.go:487-503 | one more invoice adds its total to the sales only when it is positive, and adds one to the pending count exactly when its trimmed, upper-cased state is neither AUTORIZADO, ANULADO nor empty |
| Dashboard.DaySalesStep | app.go:491-493 | one more invoice adds its total to the sales of its own day only, and only when it is positive |
| Dashboard.AddInvoice | app.go:487-503 | one turn of the loop: a positive total is added to the sales and to its own day only, and a pending state adds one to the count |
| Dashboard.AccumulatedStep | app.go:487-503 | one turn keeps the sales, the pending count and the per-day sales equal to those of the invoices seen so far |
| Dashboard.DaySalesAfter | app.go:491-493 | a per-day map that took in one more invoice holds the per-day sales of one more invoice |
| Dashboard.Accumulate | app.go:484-503 | the loop yields the sales, the pending count and, for every day, that day's sales |
| Dashboard.TrendUpTo | app.go:511-514 | the first `n` points of the trend are `n` points |
| Dashboard.TrendAt | app.go:511-514 | point `i` of the trend is the `i`-th day after the first, with that day's sales |
| Dashboard.LayOutTrend | app.go:506-514 | the loop lays out one point per day from the first day, as many as its specification says |
| Dashboard.GetDashboardStats | app.go:470-516 | the method returns exactly the statistics its specification describes |
| Dashboard.TrendShape | app.go:506-514 | the trend holds at most 32 points, one per consecutive day from the first day, each with that day's sales |
| Dashboard.StatsShape | app.go:470-516 | the dashboard counts every invoice of the period, never more pending ones than invoices, never negative sales, reports the SRI as online, and its trend is a daily trend of the period's invoices |
| Dashboard.TrendSalesByDay | app.go:511-514 | the sales the trend shows are the sales of its days |
| Dashboard.DaysSalesBound | app.go:487-514 | the sales of distinct days never exceed the total sales, and equal them when every sale falls on one of those days |
| Dashboard.TrendWithinSales | app.go:487-514 | the trend never shows more than the sales of the invoices it is drawn from |
| Dashboard.SalesOnTrendDays | app.go:506-514 | over a period of at most 32 days, every sale falls on a day of the trend |
| Dashboard.TrendCoversPeriod | app.go:487-514 | over a period of at most 32 days, the trend shows all the sales |
| Dashboard.TrendAccountsForSales | app.go:470-516 | the trend never shows more than the period's total sales, and shows all of them when the period spans at most 32 days and ends no earlier than it starts |
| Dashboard.DayKeysAgree | app.go:491-492 | two days have the same "2006-01-02" key exactly when they are the same day, for years 0 to 9999 |
| InvoiceStore.Initial | frontend/src/lib/stores/invoice.ts:6-19 | the empty invoice: sequential "000000001", payment form "01", no client, no items, no access key |
| InvoiceStore.ResetState | frontend/src/lib/stores/invoice.ts:27-31 | a reset forgets the previous invoice: no client, no items, the default payment form, no totals; it carries the sequential asked for when that is not empty, and is the initial invoice otherwise |
| InvoiceStore.OrEmptyFalsy | frontend/src/lib/stores/invoice.ts:37-38 | `value \|\| ""` is empty exactly for a missing or an empty value, and a non-empty result is the value given |
| InvoiceStore.SetClientFields | frontend/src/lib/stores/invoice.ts:32-39 | setting a client writes its identification, name, address, e-mail and telephone (missing ones as "") and nothing else, and setting it again changes nothing |
| InvoiceStore.AddItemAppends | frontend/src/lib/stores/invoice.ts:40-43 | adding an item appends it and changes nothing else, and removing the last position undoes it |
| InvoiceStore.WithoutIndex | frontend/src/lib/stores/invoice.ts:46 | filtering out a position removes one item when the index names one and none otherwise |
| InvoiceStore.WithoutOutOfRange | frontend/src/lib/stores/invoice.ts:46 | an index that names no item leaves the items as they are |
| InvoiceStore.WithoutIndexCuts | frontend/src/lib/stores/invoice.ts:46 | filtering out position `index` is the items before it followed by the items after it |
| InvoiceStore.RemoveItemDrops | frontend/src/lib/stores/invoice.ts:44-47 | removing an item drops exactly that position, keeps the order of the rest and changes nothing else; an index out of range changes nothing |
| InvoiceStore.UpdateSecuencialOnly | frontend/src/lib/stores/invoice.ts:48 | updating the sequential replaces it and nothing else, leaves the totals alone, and repeating it changes nothing |
| InvoiceStore.TotalsNonNegative | frontend/src/lib/stores/invoice.ts:55-66 | with no negative quantity, price or rate, the subtotal and the VAT are not negative and the total, their sum, is at least the subtotal |
| InvoiceStore.SumsNonNegative | frontend/src/lib/stores/invoice.ts:57-58 | the two `reduce` sums over items with no negative quantity, price or rate are not negative |
| InvoiceStore.LineNonNegative | frontend/src/lib/stores/invoice.ts:57-58 | a line with no negative quantity, price or rate has a non-negative amount and VAT |
| InvoiceStore.SubtotalAppend | frontend/src/lib/stores/invoice.ts:57-58 | the subtotal and the VAT of two lists of items are the sums of theirs |
| InvoiceStore.SingleSums | frontend/src/lib/stores/invoice.ts:57-58 | a single item's list sums to that item's amount and VAT |
| InvoiceStore.SplitSums | frontend/src/lib/stores/invoice.ts:57-58 | leaving one item out of a list lowers the subtotal and the VAT by exactly that item's amount and VAT |
| InvoiceStore.SumsWithout | frontend/src/lib/stores/invoice.ts:44-58 | the list without position `index` sums to the full sums less that item's amount and VAT |
| InvoiceStore.TotalsFollowItems | frontend/src/lib/stores/invoice.ts:40-66 | adding an item adds its amount and its VAT to the totals; removing one takes them away |

## Left out

- Floating point: amounts are exact reals, so float64 rounding error and the representation of cents are not modelled; `util.Round` is not part of this model, and `Numeric.Round` is a concrete half-away-from-zero stand-in for it.
- Cryptography: SHA-1, SHA-256, RSA signing and verification, PKCS#12 and PEM parsing, base64 and AES-GCM decryption are parameters; their internals and their failure modes beyond "fails or not" are not modelled.
- XML canonicalisation: the signature is computed over the text as built, so whether the SRI's C14N of the hashed `SignedProperties` matches is not modelled.
- XML serialisation and PDF generation (`encoding/xml`, the RIDE generator) are parameters whose output only has to contain the invoice element.
- The HTTP transport, the echo satellite server, the license heartbeat, the cloud service and SMTP delivery (`sendActualEmail`) are parameters or left out; only the classification of their outcomes is modelled.
- `ActivateLicense` is modelled up to the backend call; the call itself and what it stores are left out.
- `SaveEmisorConfig` is modelled up to its pre-checks; `crypto.ValidateCert`, the encryption of the password and the save are left out.
- Concurrency: the reconciliation's three-slot worker pool and `WaitGroup`, the background goroutines, `time.Sleep` and the log mutex are left out; a reconciliation pass processes the pending records one after another, in table order.
- Console output: the `fmt.Printf` and `log.Printf` traces (the SOAP requests and responses in `pkg/sri/soap_client.go`, the mail worker's error line in `internal/service/mail_service.go`, and the like) are left out; only the sync service's in-memory log (`AddLog`) is modelled.
- Time: the clock is a parameter read once per operation. One reconciliation pass (`SyncPendingInvoices`, its batch and `ProcessSingleInvoice`) stamps every log entry it adds with the same `Stamp`, so those entries share one `ID` and one `Timestamp`, where Go reads `time.Now()` again for every `AddLog`. Time zones and monotonic readings are not modelled, and date-times compare field by field.
- Persistence: GORM and SQLite are the `Store` object; database errors, transactions, auto-increment allocation and `created_at` stamps are not modelled, and "newest first" is the reverse of insertion order.
- File system: `os.MkdirAll`, `os.WriteFile` and `os.Stat` are reduced to a set of folders, a map of files and injected error values; `filepath.Join` is joining with "/" without `filepath.Clean`.
- CSV tokenising (`encoding/csv`) is left out: the importers receive the outcome of each record read.
- `strconv.ParseFloat` accepts plain decimal text only; exponents, hexadecimal forms, "Inf", "NaN" and underscores are not modelled (`strconv.Atoi` reads base 10, where none of them is accepted, and is modelled in full).
- Text: `strings.ToLower`/`ToUpper` fold the ASCII letters and the four non-ASCII runes whose case mapping is ASCII (U+0130 and the Kelvin sign U+212A to lower case, U+0131 and U+017F to upper case); every other Unicode case mapping leaves the rune as it is, and invalid UTF-8 is not modelled (strings are sequences of code points).
- JSON and echo request binding for `handleUpdateStockEcho` and `handlePOSScan` are left out; the handlers start from the decoded request, and the POS product lookup by SKU is not modelled beyond the quantity rule.
- The front-end store's Svelte subscription mechanics are left out: each store operation is a function from the old state to the new one. JavaScript truthiness is modelled for strings only, and `removeItem` with a non-integer index is not modelled.
- Rendering and reporting (`pkg/pdf`, the Excel report, the charts) and the fuzzy product search are not part of this model.
- Documents.SaveDocument: `MkdirAll` is modelled as creating the storage, year and month folders; the ancestors of the storage folder itself are not recorded, and a `MkdirAll` that fails after creating some of the folders is modelled as creating none.
- QuotationService.NextQuotationID: the key SQLite gives a new row is modelled as one past the newest key, which is SQLite's choice only while no newer row has been deleted.
- QuotationService.Offset: unbounded, so the 64-bit overflow of `(page - 1) * pageSize` for huge pages is not modelled.
- History.NormalPaging: the same unbounded offset; `GetFacturasPaginated` with a page large enough to overflow is not modelled.
