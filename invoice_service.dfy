/**
 * Invoice emission (`internal/service/invoice_service.go`): the next
 * sequential number, the SRI validation rules, per-line rounding and the
 * per-VAT-code buckets that feed the totals, the 49-digit access key, the
 * state the SRI answers settle the invoice in, and `EmitirFactura`, which
 * strings these together and persists the invoice once.
 */
module InvoiceService {
  import opened Wrappers
  import opened Text
  import opened Numeric
  import opened Dates
  import opened Mod11
  import opened SoapClient
  import opened Signing
  import opened Records
  import opened XmlDocument

  // ---------------------------------------------------------------- the next sequential

  const FirstSecuencial: string := "000000001"

  /** The sequential after `last`: its `%d` value (0 when unreadable) plus one, printed with `%09d`. */
  function SecuencialAfter(last: string): string
  {
    ZeroPad(WrapInt64(ScanIntOrZero(last) + 1), 9)
  }

  lemma Pow10Nine()
    ensures Pow10(9) == 1000000000
  {
  }

  /**
   * `InvoiceService.GetNextSecuencial`: "000000001" for an empty table, otherwise
   * the number of the most recently created invoice plus one, in nine digits.
   */
  function GetNextSecuencial(facturas: seq<Factura>): (r: string)
    ensures facturas == [] ==> r == FirstSecuencial
    ensures facturas != [] ==>
      var v := ScanIntOrZero(facturas[|facturas| - 1].secuencial);
      0 <= v < 999999999 ==> |r| == 9 && AllDigits(r) && DigitsValue(r) == v + 1
  {
    if facturas == [] then FirstSecuencial
    else
      SecuencialAfterDigits(facturas[|facturas| - 1].secuencial);
      SecuencialAfter(facturas[|facturas| - 1].secuencial)
  }

  lemma SecuencialAfterDigits(s: string)
    ensures var v := ScanIntOrZero(s);
      0 <= v < 999999999 ==> |SecuencialAfter(s)| == 9 && AllDigits(SecuencialAfter(s)) && DigitsValue(SecuencialAfter(s)) == v + 1
  {
    var v := ScanIntOrZero(s);
    Pow10Nine();
    if 0 <= v < 999999999 {
      ZeroPadWidth(v + 1, 9);
    }
  }

  /** A nine-digit sequential is followed by the next number, in nine digits again. */
  lemma SecuencialIncrements(s: string)
    requires |s| == 9 && AllDigits(s) && DigitsValue(s) < 999999999
    ensures |SecuencialAfter(s)| == 9 && AllDigits(SecuencialAfter(s))
    ensures DigitsValue(SecuencialAfter(s)) == DigitsValue(s) + 1
    ensures ScanInt(SecuencialAfter(s)) == Some(DigitsValue(s) + 1)
  {
    var v := DigitsValue(s);
    DigitsValueBound(s);
    ScanDigits(s);
    assert ScanIntOrZero(s) == v;
    assert WrapInt64(v + 1) == v + 1;
    assert SecuencialAfter(s) == ZeroPad(v + 1, 9);
    Pow10Nine();
    ZeroPadWidth(v + 1, 9);
    ScanZeroPad(v + 1, 9);
  }

  /** Text that `%d` cannot read counts as 0, so the sequence restarts at 1. */
  lemma UnreadableSecuencialRestarts(s: string)
    requires ScanInt(s).None?
    ensures SecuencialAfter(s) == FirstSecuencial
  {
    assert ScanIntOrZero(s) == 0;
    assert NatToString(1) == "1";
    assert Zeros(8) == "00000000";
  }

  // ---------------------------------------------------------------- per-line amounts

  /** `util.Round(Cantidad*Precio, 2)`: the taxable base of a line. */
  function LineBase(it: InvoiceItem): real
  {
    Round(it.cantidad * it.precio, 2)
  }

  /** `util.Round(base*(PorcentajeIVA/100), 2)`: the VAT of a line. */
  function LineTax(it: InvoiceItem): real
  {
    Round(LineBase(it) * (it.porcentajeIVA / 100.0), 2)
  }

  /** A pair of sums: taxable bases and VAT values. */
  datatype Amount = Amount(base: real, valor: real) {
    predicate Rounded()
    {
      IsMultipleOfUnit(base, 2) && IsMultipleOfUnit(valor, 2)
    }
  }

  const NoAmount: Amount := Amount(0.0, 0.0)

  function Add(a: Amount, b: Amount): Amount
  {
    Amount(a.base + b.base, a.valor + b.valor)
  }

  function LineAmount(it: InvoiceItem): Amount
  {
    Amount(LineBase(it), LineTax(it))
  }

  lemma LineAmountRounded(it: InvoiceItem)
    ensures LineAmount(it).Rounded()
  {
  }

  /** The preliminary total the validation rules look at: the sum of every line's base and VAT. */
  function PreliminaryTotal(items: seq<InvoiceItem>): real
  {
    if items == [] then 0.0
    else PreliminaryTotal(items[..|items| - 1]) + LineBase(items[|items| - 1]) + LineTax(items[|items| - 1])
  }

  /** The loop that computes `totalValidacion`. */
  method ValidationTotal(items: seq<InvoiceItem>) returns (total: real)
    ensures total == PreliminaryTotal(items)
  {
    total := 0.0;
    var i := 0;
    while i < |items|
      invariant 0 <= i <= |items|
      invariant total == PreliminaryTotal(items[..i])
    {
      assert items[..i + 1][..i] == items[..i];
      total := total + LineBase(items[i]) + LineTax(items[i]);
      i := i + 1;
    }
    assert items[..|items|] == items;
  }

  // ---------------------------------------------------------------- validation

  /** The validation rules, in the order the code checks them. */
  datatype Rule = NoConfig | RucLength(bytes: nat) | NoItems | MissingCode | FinancialSystem | ConsumerFinal

  /** The error text of a broken rule. */
  function RuleMessage(r: Rule): string
  {
    match r
    case NoConfig => "emisor no configurado: record not found"
    case RucLength(n) => "configuración inválida: El RUC del emisor tiene " + NatToString(n) + " dígitos, debe tener 13"
    case NoItems => "error validación: la factura debe tener al menos un ítem"
    case MissingCode => "normativa 2025: todos los ítems deben tener código principal (SKU)"
    case FinancialSystem => "normativa SRI: facturas superiores a $1,000 requieren uso del sistema financiero (no '01')"
    case ConsumerFinal => "normativa SRI: consumidor final no permitido para montos mayores a $50 (se requieren datos reales)"
  }

  predicate AllCoded(items: seq<InvoiceItem>)
  {
    forall i :: 0 <= i < |items| ==> items[i].codigo != ""
  }

  /** The financial-system rule: in production, $1000 or more may not be paid with "01" (cash). */
  predicate NeedsFinancialSystem(cfg: EmisorConfig, dto: FacturaDTO)
  {
    cfg.ambiente == 2 && PreliminaryTotal(dto.items) >= 1000.0 && dto.formaPago == "01"
  }

  /** The anonymous-buyer rule: "consumidor final" only up to $50. */
  predicate ConsumerFinalTooLarge(dto: FacturaDTO)
  {
    dto.clienteID == ConsumidorFinal && PreliminaryTotal(dto.items) > 50.0
  }

  /** The first rule the invoice breaks, in the order the code checks them, or `None`. */
  function ValidationError(config: Option<EmisorConfig>, dto: FacturaDTO): (r: Option<Rule>)
    ensures r.None? <==>
      && config.Some? && ByteLen(config.value.ruc) == 13
      && dto.items != [] && AllCoded(dto.items)
      && !NeedsFinancialSystem(config.value, dto) && !ConsumerFinalTooLarge(dto)
    ensures r == Some(FinancialSystem) ==>
      config.Some? && config.value.ambiente == 2 && PreliminaryTotal(dto.items) >= 1000.0 && dto.formaPago == "01"
    ensures r == Some(ConsumerFinal) ==> dto.clienteID == ConsumidorFinal && PreliminaryTotal(dto.items) > 50.0
    ensures dto.items == [] ==> r.Some?
    ensures r.Some? && r.value.RucLength? ==> config.Some? && r.value.bytes == ByteLen(config.value.ruc) != 13
  {
    if config.None? then Some(NoConfig)
    else if ByteLen(config.value.ruc) != 13 then Some(RucLength(ByteLen(config.value.ruc)))
    else if dto.items == [] then Some(NoItems)
    else if !AllCoded(dto.items) then Some(MissingCode)
    else if NeedsFinancialSystem(config.value, dto) then Some(FinancialSystem)
    else if ConsumerFinalTooLarge(dto) then Some(ConsumerFinal)
    else None
  }

  /** The payment method after validation: an empty one becomes "01" (cash). */
  function DefaultFormaPago(formaPago: string): (r: string)
    ensures r != ""
    ensures formaPago != "" ==> r == formaPago
  {
    if formaPago == "" then "01" else formaPago
  }

  /**
   * The default "01" is filled in only after the rules have run, so an invoice of
   * $1000 or more in production with no payment method is accepted and then
   * recorded as paid with "01".
   */
  lemma EmptyFormaPagoBypassesFinancialRule(cfg: EmisorConfig, dto: FacturaDTO)
    requires dto.formaPago == "" && cfg.ambiente == 2 && PreliminaryTotal(dto.items) >= 1000.0
    requires ByteLen(cfg.ruc) == 13 && dto.items != [] && AllCoded(dto.items) && dto.clienteID != ConsumidorFinal
    ensures ValidationError(Some(cfg), dto).None?
    ensures DefaultFormaPago(dto.formaPago) == "01"
    ensures NeedsFinancialSystem(cfg, dto.(formaPago := DefaultFormaPago(dto.formaPago)))
  {
  }

  // ---------------------------------------------------------------- per-code buckets

  /** The running sums of one VAT code: base, VAT and the last rate seen. */
  datatype Bucket = Bucket(base: real, valor: real, tarifa: real)

  function BucketAmount(b: Bucket): Amount
  {
    Amount(b.base, b.valor)
  }

  /** One pass of the loop: the line goes into the bucket of its code, whose sums are rounded again. */
  function AddLine(m: map<string, Bucket>, it: InvoiceItem): map<string, Bucket>
  {
    var actual := if it.codigoIVA in m then m[it.codigoIVA] else Bucket(0.0, 0.0, 0.0);
    m[it.codigoIVA := Bucket(Round(actual.base + LineBase(it), 2), Round(actual.valor + LineTax(it), 2), it.porcentajeIVA)]
  }

  /** `basesImponibles` after the loop over the lines. */
  function Buckets(items: seq<InvoiceItem>): map<string, Bucket>
  {
    if items == [] then map[] else AddLine(Buckets(items[..|items| - 1]), items[|items| - 1])
  }

  /** A line reduced to what the sums need: its VAT code and its amounts. */
  datatype Line = Line(code: string, amount: Amount)

  function Lines(items: seq<InvoiceItem>): (ls: seq<Line>)
    ensures |ls| == |items|
    ensures forall i :: 0 <= i < |items| ==> ls[i] == Line(items[i].codigoIVA, LineAmount(items[i]))
  {
    if items == [] then [] else Lines(items[..|items| - 1]) + [Line(items[|items| - 1].codigoIVA, LineAmount(items[|items| - 1]))]
  }

  lemma LinesPrefix(items: seq<InvoiceItem>)
    requires items != []
    ensures Lines(items[..|items| - 1]) == Lines(items)[..|items| - 1]
  {
  }

  /** The VAT code of every line, in order. */
  function Codes(ls: seq<Line>): (r: seq<string>)
    ensures |r| == |ls|
  {
    if ls == [] then [] else Codes(ls[..|ls| - 1]) + [ls[|ls| - 1].code]
  }

  /** The exact sum of the amounts of the lines of code `c`. */
  function CodeTotal(ls: seq<Line>, c: string): Amount
  {
    if ls == [] then NoAmount
    else Add(CodeTotal(ls[..|ls| - 1], c), if ls[|ls| - 1].code == c then ls[|ls| - 1].amount else NoAmount)
  }

  /** The exact sum of the amounts of the lines, leaving out the lines of code `skip`. */
  function LinesTotal(ls: seq<Line>, skip: Option<string>): Amount
  {
    if ls == [] then NoAmount
    else Add(LinesTotal(ls[..|ls| - 1], skip), if skip == Some(ls[|ls| - 1].code) then NoAmount else ls[|ls| - 1].amount)
  }

  predicate AllRounded(ls: seq<Line>)
  {
    forall i :: 0 <= i < |ls| ==> ls[i].amount.Rounded()
  }

  lemma LinesRounded(items: seq<InvoiceItem>)
    ensures AllRounded(Lines(items))
  {
    forall i | 0 <= i < |items|
      ensures Lines(items)[i].amount.Rounded()
    {
      LineAmountRounded(items[i]);
    }
  }

  lemma AddRounded(a: Amount, b: Amount)
    requires a.Rounded() && b.Rounded()
    ensures Add(a, b).Rounded()
  {
    MultipleOfUnitAdd(a.base, b.base, 2);
    MultipleOfUnitAdd(a.valor, b.valor, 2);
  }

  /** Sums of whole cents are whole cents. */
  lemma {:induction false} CodeTotalRounded(ls: seq<Line>, c: string)
    requires AllRounded(ls)
    ensures CodeTotal(ls, c).Rounded()
  {
    ZeroIsMultipleOfUnit(2);
    if ls != [] {
      CodeTotalRounded(ls[..|ls| - 1], c);
      AddRounded(CodeTotal(ls[..|ls| - 1], c), if ls[|ls| - 1].code == c then ls[|ls| - 1].amount else NoAmount);
    }
  }

  lemma {:induction false} LinesTotalRounded(ls: seq<Line>, skip: Option<string>)
    requires AllRounded(ls)
    ensures LinesTotal(ls, skip).Rounded()
  {
    ZeroIsMultipleOfUnit(2);
    if ls != [] {
      LinesTotalRounded(ls[..|ls| - 1], skip);
      AddRounded(LinesTotal(ls[..|ls| - 1], skip), if skip == Some(ls[|ls| - 1].code) then NoAmount else ls[|ls| - 1].amount);
    }
  }

  /** The buckets are keyed by exactly the codes that occur. */
  lemma {:induction false} BucketKeys(items: seq<InvoiceItem>)
    ensures forall c :: c in Buckets(items) <==> c in Codes(Lines(items))
  {
    if items != [] {
      var p := items[..|items| - 1];
      BucketKeys(p);
      LinesPrefix(items);
      assert Codes(Lines(items)) == Codes(Lines(p)) + [items[|items| - 1].codigoIVA];
    }
  }

  /** A code that does not occur sums to nothing. */
  lemma {:induction false} CodeTotalAbsent(ls: seq<Line>, c: string)
    requires c !in Codes(ls)
    ensures CodeTotal(ls, c) == NoAmount
  {
    if ls != [] {
      assert Codes(ls) == Codes(ls[..|ls| - 1]) + [ls[|ls| - 1].code];
      CodeTotalAbsent(ls[..|ls| - 1], c);
    }
  }

  /**
   * Every bucket holds the exact sums of its lines: each line amount is already
   * whole cents, so rounding the running sums again changes nothing.
   */
  lemma {:induction false} BucketIsCodeTotal(items: seq<InvoiceItem>, c: string)
    requires c in Buckets(items)
    ensures BucketAmount(Buckets(items)[c]) == CodeTotal(Lines(items), c)
  {
    var p := items[..|items| - 1];
    var it := items[|items| - 1];
    LinesPrefix(items);
    var ct := CodeTotal(Lines(p), c);
    if it.codigoIVA == c {
      if c in Buckets(p) {
        BucketIsCodeTotal(p, c);
      } else {
        BucketKeys(p);
        CodeTotalAbsent(Lines(p), c);
      }
      var m := Buckets(p);
      var actual := if c in m then m[c] else Bucket(0.0, 0.0, 0.0);
      assert actual.base == ct.base && actual.valor == ct.valor;
      LinesRounded(p);
      CodeTotalRounded(Lines(p), c);
      LineAmountRounded(it);
      AddRounded(ct, LineAmount(it));
      RoundIdempotent(ct.base + LineBase(it), 2);
      RoundIdempotent(ct.valor + LineTax(it), 2);
    } else {
      BucketIsCodeTotal(p, c);
    }
  }

  /** The last rate seen for a code is the rate of its last line. */
  lemma {:induction false} BucketRate(items: seq<InvoiceItem>, k: nat)
    requires k < |items|
    requires forall j :: k < j < |items| ==> items[j].codigoIVA != items[k].codigoIVA
    ensures items[k].codigoIVA in Buckets(items)
    ensures Buckets(items)[items[k].codigoIVA].tarifa == items[k].porcentajeIVA
  {
    if k < |items| - 1 {
      var p := items[..|items| - 1];
      BucketRate(p, k);
    }
  }

  // ---------------------------------------------------------------- summing over the map

  predicate Distinct(s: seq<string>)
  {
    forall i, j :: 0 <= i < j < |s| ==> s[i] != s[j]
  }

  /** `s` without repetitions, each element at its first position. */
  function Dedup(s: seq<string>): (r: seq<string>)
    ensures Distinct(r)
    ensures forall x :: x in r <==> x in s
  {
    if s == [] then []
    else
      var r := Dedup(s[..|s| - 1]);
      assert forall x :: x in s <==> x in s[..|s| - 1] || x == s[|s| - 1];
      if s[|s| - 1] in r then r else r + [s[|s| - 1]]
  }

  /** The elements of `s` that belong to `keys`, in order. */
  function Keep(s: seq<string>, keys: set<string>): (r: seq<string>)
    ensures forall x :: x in r <==> x in s && x in keys
  {
    if s == [] then []
    else
      var r := Keep(s[..|s| - 1], keys);
      assert forall x :: x in s <==> x in s[..|s| - 1] || x == s[|s| - 1];
      if s[|s| - 1] in keys then r + [s[|s| - 1]] else r
  }

  /**
   * The order in which `range` visits the buckets. Go leaves it unspecified; the
   * model takes it from `hint`, completed by the codes in order of appearance,
   * so every order of the keys is the outcome of some `hint`.
   */
  function MapOrder(hint: seq<string>, codes: seq<string>): (r: seq<string>)
    ensures Distinct(r)
    ensures forall c :: c in r <==> c in codes
  {
    var keys := set c | c in codes;
    Dedup(Keep(hint, keys) + codes)
  }

  /** Any listing of the distinct codes is the iteration order for the hint that lists them. */
  lemma MapOrderReachesEveryOrder(order: seq<string>, codes: seq<string>)
    requires Distinct(order) && forall c :: c in order <==> c in codes
    ensures MapOrder(order, codes) == order
  {
    var keys := set c | c in codes;
    KeepAll(order, keys);
    DedupPrefix(order, codes);
  }

  lemma {:induction false} KeepAll(s: seq<string>, keys: set<string>)
    requires forall x :: x in s ==> x in keys
    ensures Keep(s, keys) == s
  {
    if s != [] {
      KeepAll(s[..|s| - 1], keys);
      assert s[..|s| - 1] + [s[|s| - 1]] == s;
    }
  }

  /** Appending elements already present leaves a repetition-free prefix as it is. */
  lemma {:induction false} DedupPrefix(s: seq<string>, t: seq<string>)
    requires Distinct(s) && forall x :: x in t ==> x in s
    ensures Dedup(s + t) == s
  {
    if t == [] {
      assert s + t == s;
      DedupDistinct(s);
    } else {
      var u := t[..|t| - 1];
      assert (s + t)[..|s + t| - 1] == s + u;
      DedupPrefix(s, u);
    }
  }

  lemma {:induction false} DedupDistinct(s: seq<string>)
    requires Distinct(s)
    ensures Dedup(s) == s
  {
    if s != [] {
      DedupDistinct(s[..|s| - 1]);
      assert s[|s| - 1] !in s[..|s| - 1];
      assert s[..|s| - 1] + [s[|s| - 1]] == s;
    }
  }

  /** The sums over the buckets listed in `order`, leaving out the bucket `skip`. */
  function SumBuckets(order: seq<string>, m: map<string, Bucket>, skip: Option<string>): Amount
    requires forall c :: c in order ==> c in m
  {
    if order == [] then NoAmount
    else
      var c := order[|order| - 1];
      Add(SumBuckets(order[..|order| - 1], m, skip), if skip == Some(c) then NoAmount else BucketAmount(m[c]))
  }

  /** The same sums, each code contributing the exact total of its lines. */
  function SumCodeTotals(order: seq<string>, ls: seq<Line>, skip: Option<string>): Amount
  {
    if order == [] then NoAmount
    else
      var c := order[|order| - 1];
      Add(SumCodeTotals(order[..|order| - 1], ls, skip), if skip == Some(c) then NoAmount else CodeTotal(ls, c))
  }

  lemma {:induction false} SumBucketsIsSumCodeTotals(order: seq<string>, items: seq<InvoiceItem>, skip: Option<string>)
    requires forall c :: c in order ==> c in Codes(Lines(items))
    ensures forall c :: c in order ==> c in Buckets(items)
    ensures SumBuckets(order, Buckets(items), skip) == SumCodeTotals(order, Lines(items), skip)
  {
    BucketKeys(items);
    if order != [] {
      var c := order[|order| - 1];
      SumBucketsIsSumCodeTotals(order[..|order| - 1], items, skip);
      BucketIsCodeTotal(items, c);
    }
  }

  /** The amount a line adds to the sums over `order`. */
  function Contribution(order: seq<string>, l: Line, skip: Option<string>): Amount
  {
    if l.code in order && skip != Some(l.code) then l.amount else NoAmount
  }

  /** Listing one more code `c` adds the line's amount when the line has that code and it is not skipped. */
  lemma ContributionStep(o: seq<string>, c: string, x: Line, skip: Option<string>)
    requires c !in o
    ensures Contribution(o + [c], x, skip)
      == Add(Contribution(o, x, skip), if skip == Some(c) || x.code != c then NoAmount else x.amount)
  {
    assert x.code in o + [c] <==> x.code in o || x.code == c;
  }

  /** The arithmetic behind one step: the new line's share moves from the old sums to the new code's total. */
  lemma Regroup(before: Amount, add: Amount, cp: Amount, cx: Amount, skipped: bool)
    ensures Add(Add(before, add), if skipped then NoAmount else Add(cp, cx))
      == Add(Add(before, if skipped then NoAmount else cp), Add(add, if skipped then NoAmount else cx))
  {
  }

  /** Adding one line adds its amount once, under its code, if that code is listed. */
  lemma {:induction false} SumCodeTotalsStep(order: seq<string>, p: seq<Line>, x: Line, skip: Option<string>)
    requires Distinct(order)
    ensures SumCodeTotals(order, p + [x], skip) == Add(SumCodeTotals(order, p, skip), Contribution(order, x, skip))
  {
    var ls := p + [x];
    assert ls[..|ls| - 1] == p;
    if order != [] {
      var o := order[..|order| - 1];
      var c := order[|order| - 1];
      assert order == o + [c];
      assert c !in o;
      SumCodeTotalsStep(o, p, x, skip);
      var cx := if x.code == c then x.amount else NoAmount;
      assert CodeTotal(ls, c) == Add(CodeTotal(p, c), cx);
      ContributionStep(o, c, x, skip);
      Regroup(SumCodeTotals(o, p, skip), Contribution(o, x, skip), CodeTotal(p, c), cx, skip == Some(c));
    }
  }

  lemma {:induction false} SumCodeTotalsEmpty(order: seq<string>, skip: Option<string>)
    ensures SumCodeTotals(order, [], skip) == NoAmount
  {
    if order != [] {
      SumCodeTotalsEmpty(order[..|order| - 1], skip);
    }
  }

  /** Regrouping the lines by code does not change the sums, whatever the order of the codes. */
  lemma {:induction false} SumCodeTotalsIsLinesTotal(order: seq<string>, ls: seq<Line>, skip: Option<string>)
    requires Distinct(order) && forall c :: c in Codes(ls) ==> c in order
    ensures SumCodeTotals(order, ls, skip) == LinesTotal(ls, skip)
  {
    if ls == [] {
      SumCodeTotalsEmpty(order, skip);
    } else {
      var p := ls[..|ls| - 1];
      var x := ls[|ls| - 1];
      assert Codes(ls) == Codes(p) + [x.code];
      SumCodeTotalsIsLinesTotal(order, p, skip);
      assert p + [x] == ls;
      SumCodeTotalsStep(order, p, x, skip);
      assert x.code in order;
    }
  }

  /**
   * The sums over the map do not depend on the order `range` visits it in: for
   * any listing of the codes they equal the sums over the lines.
   */
  lemma SumBucketsOrderFree(order: seq<string>, items: seq<InvoiceItem>, skip: Option<string>)
    requires Distinct(order) && forall c :: c in order <==> c in Codes(Lines(items))
    ensures forall c :: c in order ==> c in Buckets(items)
    ensures SumBuckets(order, Buckets(items), skip) == LinesTotal(Lines(items), skip)
  {
    SumBucketsIsSumCodeTotals(order, items, skip);
    SumCodeTotalsIsLinesTotal(order, Lines(items), skip);
  }

  // ---------------------------------------------------------------- invoice totals

  /** The exact sums over all lines, the sums over the lines not of code "0", and the "0" lines alone. */
  function AllLines(items: seq<InvoiceItem>): Amount
  {
    LinesTotal(Lines(items), None)
  }

  function TaxedLines(items: seq<InvoiceItem>): Amount
  {
    LinesTotal(Lines(items), Some("0"))
  }

  function ZeroRatedLines(items: seq<InvoiceItem>): Amount
  {
    CodeTotal(Lines(items), "0")
  }

  /** `importeTotal`: the bases and VAT of every bucket, rounded once more. */
  function ImporteTotal(items: seq<InvoiceItem>): real
  {
    Round(AllLines(items).base + AllLines(items).valor, 2)
  }

  /** `totalSinImpuestos`: the bases of every bucket, rounded once more. */
  function TotalSinImpuestos(items: seq<InvoiceItem>): real
  {
    Round(AllLines(items).base, 2)
  }

  /** The loop over `basesImponibles` that builds `totalConImpuestos` and the two totals. */
  method SummarizeBuckets(m: map<string, Bucket>, order: seq<string>)
    returns (totals: seq<TotalImpuesto>, importeTotal: real, totalSinImpuestos: real)
    requires forall c :: c in order ==> c in m
    ensures |totals| == |order|
    ensures forall i :: 0 <= i < |order| ==>
      totals[i] == TotalImpuesto("2", order[i], m[order[i]].base, m[order[i]].valor)
    ensures importeTotal == Round(SumBuckets(order, m, None).base + SumBuckets(order, m, None).valor, 2)
    ensures totalSinImpuestos == Round(SumBuckets(order, m, None).base, 2)
  {
    totals := [];
    var sumTotal, sumBase := 0.0, 0.0;
    for i := 0 to |order|
      invariant |totals| == i
      invariant forall j :: 0 <= j < i ==> totals[j] == TotalImpuesto("2", order[j], m[order[j]].base, m[order[j]].valor)
      invariant sumTotal == SumBuckets(order[..i], m, None).base + SumBuckets(order[..i], m, None).valor
      invariant sumBase == SumBuckets(order[..i], m, None).base
    {
      var datos := m[order[i]];
      assert order[..i + 1][..i] == order[..i];
      totals := totals + [TotalImpuesto("2", order[i], datos.base, datos.valor)];
      sumTotal := sumTotal + datos.base + datos.valor;
      sumBase := sumBase + datos.base;
    }
    assert order[..|order|] == order;
    importeTotal := Round(sumTotal, 2);
    totalSinImpuestos := Round(sumBase, 2);
  }

  /** The loop that adds the buckets other than "0" into the taxed subtotal and the VAT. */
  method TaxedSubtotals(m: map<string, Bucket>, order: seq<string>) returns (subtotalGravado: real, totalIVA: real)
    requires forall c :: c in order ==> c in m
    ensures subtotalGravado == SumBuckets(order, m, Some("0")).base
    ensures totalIVA == SumBuckets(order, m, Some("0")).valor
  {
    subtotalGravado, totalIVA := 0.0, 0.0;
    for i := 0 to |order|
      invariant subtotalGravado == SumBuckets(order[..i], m, Some("0")).base
      invariant totalIVA == SumBuckets(order[..i], m, Some("0")).valor
    {
      assert order[..i + 1][..i] == order[..i];
      if order[i] != "0" {
        subtotalGravado := subtotalGravado + m[order[i]].base;
        totalIVA := totalIVA + m[order[i]].valor;
      }
    }
    assert order[..|order|] == order;
  }

  /** The exact sums over the lines add up to the validation total. */
  lemma {:induction false} AllLinesIsPreliminary(items: seq<InvoiceItem>)
    ensures AllLines(items).base + AllLines(items).valor == PreliminaryTotal(items)
  {
    if items != [] {
      var p := items[..|items| - 1];
      LinesPrefix(items);
      AllLinesIsPreliminary(p);
    }
  }

  /**
   * The invoice total equals the preliminary total the validation rules saw:
   * every line amount is whole cents, so neither the bucket rounding nor the
   * final rounding moves it.
   */
  lemma ImporteTotalIsValidationTotal(items: seq<InvoiceItem>)
    ensures ImporteTotal(items) == PreliminaryTotal(items)
    ensures TotalSinImpuestos(items) == AllLines(items).base
  {
    LinesRounded(items);
    LinesTotalRounded(Lines(items), None);
    AddRounded(Amount(AllLines(items).base, 0.0), Amount(AllLines(items).valor, 0.0));
    RoundIdempotent(AllLines(items).base + AllLines(items).valor, 2);
    RoundIdempotent(AllLines(items).base, 2);
    AllLinesIsPreliminary(items);
  }

  /** Leaving out one code and adding its total back gives the sums over every line. */
  lemma {:induction false} SplitOffCode(ls: seq<Line>, c: string)
    ensures LinesTotal(ls, None).base == LinesTotal(ls, Some(c)).base + CodeTotal(ls, c).base
    ensures LinesTotal(ls, None).valor == LinesTotal(ls, Some(c)).valor + CodeTotal(ls, c).valor
  {
    if ls != [] {
      SplitOffCode(ls[..|ls| - 1], c);
    }
  }

  /** The lines of code "0" carry no VAT when their rate is 0. */
  lemma {:induction false} ZeroRatedCarryNoTax(ls: seq<Line>, items: seq<InvoiceItem>)
    requires ls == Lines(items)
    requires forall i :: 0 <= i < |items| && items[i].codigoIVA == "0" ==> items[i].porcentajeIVA == 0.0
    ensures CodeTotal(ls, "0").valor == 0.0
  {
    if items != [] {
      var p := items[..|items| - 1];
      var it := items[|items| - 1];
      LinesPrefix(items);
      ZeroRatedCarryNoTax(Lines(p), p);
      if it.codigoIVA == "0" {
        ZeroIsMultipleOfUnit(2);
        RoundIdempotent(0.0, 2);
        assert LineBase(it) * (it.porcentajeIVA / 100.0) == 0.0;
      }
    }
  }

  /**
   * The stored subtotals account for the invoice: the net total is the taxed
   * plus the zero-rated bases, and the total adds the VAT of both groups; when the
   * "0" lines carry rate 0 the total is exactly Subtotal15 + Subtotal0 + IVA.
   */
  lemma TotalsAddUp(items: seq<InvoiceItem>)
    ensures TotalSinImpuestos(items) == TaxedLines(items).base + ZeroRatedLines(items).base
    ensures ImporteTotal(items) == TaxedLines(items).base + ZeroRatedLines(items).base + TaxedLines(items).valor + ZeroRatedLines(items).valor
    ensures (forall i :: 0 <= i < |items| && items[i].codigoIVA == "0" ==> items[i].porcentajeIVA == 0.0) ==>
      ImporteTotal(items) == TaxedLines(items).base + ZeroRatedLines(items).base + TaxedLines(items).valor
  {
    ImporteTotalIsValidationTotal(items);
    AllLinesIsPreliminary(items);
    SplitOffCode(Lines(items), "0");
    if forall i :: 0 <= i < |items| && items[i].codigoIVA == "0" ==> items[i].porcentajeIVA == 0.0 {
      ZeroRatedCarryNoTax(Lines(items), items);
    }
  }

  /** `subtotalCero`: the base of bucket "0", or 0 when no line has that code. */
  function SubtotalCero(m: map<string, Bucket>): real
  {
    if "0" in m then m["0"].base else 0.0
  }

  lemma SubtotalCeroIsZeroRated(items: seq<InvoiceItem>)
    ensures SubtotalCero(Buckets(items)) == ZeroRatedLines(items).base
  {
    if "0" in Buckets(items) {
      BucketIsCodeTotal(items, "0");
    } else {
      BucketKeys(items);
      CodeTotalAbsent(Lines(items), "0");
    }
  }

  // ---------------------------------------------------------------- the access key

  const TipoDocFactura: string := "01"
  const CodigoNumerico: string := "12345678"
  const EmisionNormal: string := "1"

  /** The first 48 digits: date, document type, RUC, environment, series, sequential, code, emission type. */
  function AccessKeyPrefix(fecha: Date, ruc: string, ambiente: int, estab: string, ptoEmi: string, secuencial: string): string
  {
    FormatCompactDate(fecha) + TipoDocFactura + ruc + IntToString(ambiente) + estab + ptoEmi + secuencial + CodigoNumerico + EmisionNormal
  }

  /** `fmt.Sprintf("%s%d", clavePrevia, digito)`. */
  function AccessKey(fecha: Date, ruc: string, ambiente: int, estab: string, ptoEmi: string, secuencial: string): string
  {
    var previa := AccessKeyPrefix(fecha, ruc, ambiente, estab, ptoEmi, secuencial);
    previa + NatToString(CheckDigit(previa))
  }

  /** `%03d` of the `%d` value of a series field. */
  function SeriesField(s: string): string
  {
    ZeroPad(ScanIntOrZero(s), 3)
  }

  /** The key of an invoice with sequential `sec` of emitter `cfg`, issued on `fecha`. */
  function AccessKeyFor(cfg: EmisorConfig, fecha: Date, sec: string): string
  {
    AccessKey(fecha, cfg.ruc, cfg.ambiente, SeriesField(cfg.estab), SeriesField(cfg.ptoEmi), ZeroPad(ScanIntOrZero(sec), 9))
  }

  /** A series number from 0 to 999 prints as exactly three digits. */
  lemma SeriesFieldDigits(s: string)
    requires 0 <= ScanIntOrZero(s) < 1000
    ensures |SeriesField(s)| == 3 && AllDigits(SeriesField(s)) && DigitsValue(SeriesField(s)) == ScanIntOrZero(s)
  {
    assert Pow10(3) == 1000;
    ZeroPadWidth(ScanIntOrZero(s), 3);
  }

  /** A date with a year of at most four digits prints as eight digits. */
  lemma CompactDateDigits(d: Date)
    requires 1 <= d.month <= 12 && 1 <= d.day <= 31 && 0 <= d.year <= 9999
    ensures |FormatCompactDate(d)| == 8 && AllDigits(FormatCompactDate(d))
  {
    TwoDigits(d.day);
    TwoDigits(d.month);
    YearDigits(d.year);
    AllDigitsConcat(Two(d.day), Two(d.month));
    AllDigitsConcat(Two(d.day) + Two(d.month), FormatYear(d.year));
  }

  lemma TwoDigits(n: int)
    requires 0 <= n < 100
    ensures |Two(n)| == 2 && AllDigits(Two(n))
  {
    assert Pow10(2) == 100;
    ZeroPadWidth(n, 2);
  }

  lemma YearDigits(y: int)
    requires 0 <= y <= 9999
    ensures |FormatYear(y)| == 4 && AllDigits(FormatYear(y))
  {
    assert Pow10(4) == 10000;
    assert FormatYear(y) == ZeroPad(y, 4);
    ZeroPadWidth(y, 4);
  }

  lemma AllDigitsConcat(a: string, b: string)
    requires AllDigits(a) && AllDigits(b)
    ensures AllDigits(a + b)
  {
    assert forall i :: 0 <= i < |a + b| ==> (a + b)[i] == if i < |a| then a[i] else b[i - |a|];
  }

  /** Where each of ten consecutive digit fields lands in their concatenation. */
  lemma TenFields(f0: string, f1: string, f2: string, f3: string, f4: string, f5: string, f6: string, f7: string, f8: string, f9: string)
    requires |f0| == 8 && |f1| == 2 && |f2| == 13 && |f3| == 1 && |f4| == 3
    requires |f5| == 3 && |f6| == 9 && |f7| == 8 && |f8| == 1 && |f9| == 1
    requires AllDigits(f0) && AllDigits(f1) && AllDigits(f2) && AllDigits(f3) && AllDigits(f4)
    requires AllDigits(f5) && AllDigits(f6) && AllDigits(f7) && AllDigits(f8) && AllDigits(f9)
    ensures var key := f0 + f1 + f2 + f3 + f4 + f5 + f6 + f7 + f8 + f9;
      && |key| == 49 && AllDigits(key)
      && key[..8] == f0 && key[8..10] == f1 && key[10..23] == f2 && key[23..24] == f3
      && key[24..27] == f4 && key[27..30] == f5 && key[30..39] == f6 && key[39..47] == f7
      && key[47..48] == f8 && key[48..] == f9 && key[..48] == f0 + f1 + f2 + f3 + f4 + f5 + f6 + f7 + f8
  {
    AllDigitsConcat(f0, f1);
    AllDigitsConcat(f0 + f1, f2);
    AllDigitsConcat(f0 + f1 + f2, f3);
    AllDigitsConcat(f0 + f1 + f2 + f3, f4);
    AllDigitsConcat(f0 + f1 + f2 + f3 + f4, f5);
    AllDigitsConcat(f0 + f1 + f2 + f3 + f4 + f5, f6);
    AllDigitsConcat(f0 + f1 + f2 + f3 + f4 + f5 + f6, f7);
    AllDigitsConcat(f0 + f1 + f2 + f3 + f4 + f5 + f6 + f7, f8);
    AllDigitsConcat(f0 + f1 + f2 + f3 + f4 + f5 + f6 + f7 + f8, f9);
  }

  /**
   * The 49-digit layout of the access key: with well-formed fields every
   * position holds a decimal digit, each field sits at its fixed offset, and the
   * last digit is the modulo-11 check digit of the first 48.
   */
  lemma AccessKeyLayout(fecha: Date, ruc: string, ambiente: int, estab: string, ptoEmi: string, sec: string)
    requires 1 <= fecha.month <= 12 && 1 <= fecha.day <= 31 && 0 <= fecha.year <= 9999
    requires |ruc| == 13 && AllDigits(ruc) && 0 <= ambiente <= 9
    requires |estab| == 3 && AllDigits(estab) && |ptoEmi| == 3 && AllDigits(ptoEmi)
    requires |sec| == 9 && AllDigits(sec)
    ensures var key := AccessKey(fecha, ruc, ambiente, estab, ptoEmi, sec);
      && |key| == 49 && AllDigits(key)
      && key[..8] == FormatCompactDate(fecha)
      && key[8..10] == TipoDocFactura
      && key[10..23] == ruc
      && key[23..24] == IntToString(ambiente)
      && key[24..27] == estab
      && key[27..30] == ptoEmi
      && key[30..39] == sec
      && key[39..47] == CodigoNumerico
      && key[47..48] == EmisionNormal
      && key[48..] == NatToString(CheckDigit(key[..48]))
  {
    CompactDateDigits(fecha);
    FixedKeyFields();
    var previa := AccessKeyPrefix(fecha, ruc, ambiente, estab, ptoEmi, sec);
    var digit := NatToString(CheckDigit(previa));
    assert |IntToString(ambiente)| == 1 && |digit| == 1;
    TenFields(FormatCompactDate(fecha), TipoDocFactura, ruc, IntToString(ambiente), estab, ptoEmi, sec,
      CodigoNumerico, EmisionNormal, digit);
  }

  lemma FixedKeyFields()
    ensures |TipoDocFactura| == 2 && AllDigits(TipoDocFactura)
    ensures |CodigoNumerico| == 8 && AllDigits(CodigoNumerico)
    ensures |EmisionNormal| == 1 && AllDigits(EmisionNormal)
  {
  }

  /** The sequential the emission recomputes (`%d`, then `%09d`) is the one `GetNextSecuencial` gave. */
  lemma RecomputedSecuencialStable(facturas: seq<Factura>)
    requires facturas != [] ==> 0 <= ScanIntOrZero(facturas[|facturas| - 1].secuencial) < 999999999
    ensures ZeroPad(ScanIntOrZero(GetNextSecuencial(facturas)), 9) == GetNextSecuencial(facturas)
    ensures |GetNextSecuencial(facturas)| == 9 && AllDigits(GetNextSecuencial(facturas))
  {
    var r := GetNextSecuencial(facturas);
    var n := if facturas == [] then 1 else ScanIntOrZero(facturas[|facturas| - 1].secuencial) + 1;
    Pow10Nine();
    if facturas == [] {
      assert NatToString(1) == "1";
      assert Zeros(8) == "00000000";
    }
    assert r == ZeroPad(n, 9);
    ScanZeroPad(n, 9);
    ZeroPadWidth(n, 9);
  }

  // ---------------------------------------------------------------- the SRI outcome

  /** The state and message the invoice record is saved with. */
  datatype SriState = SriState(estado: string, mensaje: string)

  const Pendiente: string := "PENDIENTE"
  const PendienteEnvio: string := "PENDIENTE_ENVIO"
  const ErrorTecnico: string := "ERROR_TECNICO"
  const Recibida: string := "RECIBIDA"
  const ErrorAuth: string := "ERROR_AUTH"
  const Autorizado: string := "AUTORIZADO"

  const OfflineMessage: string := "SRI Offline: Documento guardado para envío posterior."
  const AuthPendingMessage: string := "Documento recibido. Verificación de autorización pendiente por red."
  const NoAuthMessage: string := "Documento recibido pero no se obtuvo respuesta de autorización."

  /** `fmt.Sprintf("%s: %s (%s); ", ...)` of one message of a returned document. */
  function ReceptionLine(m: MensajeSri): string
  {
    m.identificador + ": " + m.mensaje + " (" + m.informacionAdicional + "); "
  }

  function ReceptionLines(ms: seq<MensajeSri>): string
  {
    if ms == [] then "" else ReceptionLines(ms[..|ms| - 1]) + ReceptionLine(ms[|ms| - 1])
  }

  /** The message of a returned document: the lines of every document and message, in order. */
  function ReceptionMessages(comps: seq<ComprobanteRecepcion>): string
  {
    if comps == [] then "" else ReceptionMessages(comps[..|comps| - 1]) + ReceptionLines(comps[|comps| - 1].mensajes)
  }

  /** `fmt.Sprintf(" %s: %s;", ...)` of one message of an authorization entry. */
  function RejectionLine(m: MensajeSri): string
  {
    " " + m.identificador + ": " + m.mensaje + ";"
  }

  function RejectionLines(ms: seq<MensajeSri>): string
  {
    if ms == [] then "" else RejectionLines(ms[..|ms| - 1]) + RejectionLine(ms[|ms| - 1])
  }

  /** The message of a non-authorized entry: `[estado]` and its messages. */
  function RejectionText(a: Autorizacion): string
  {
    "[" + a.estado + "]" + RejectionLines(a.mensajes)
  }

  /** The authorization loop from state `st`: stop at the first AUTORIZADO, otherwise adopt each entry in turn. */
  function ScanAuths(auths: seq<Autorizacion>, st: SriState): SriState
  {
    if auths == [] then st
    else if auths[0].estado == Autorizado then SriState(Autorizado, "")
    else ScanAuths(auths[1..], SriState(auths[0].estado, RejectionText(auths[0])))
  }

  predicate AnyAuthorized(auths: seq<Autorizacion>)
  {
    exists i :: 0 <= i < |auths| && auths[i].estado == Autorizado
  }

  /** The state after a successful authorization query, including the "no answer" case. */
  function AuthOutcome(auths: seq<Autorizacion>): SriState
  {
    var st := ScanAuths(auths, SriState(Recibida, ""));
    if !AnyAuthorized(auths) && st.estado == Recibida then SriState(Recibida, NoAuthMessage) else st
  }

  /** How the reception result, and for a received document the authorization result, settle the invoice. */
  function Settle(recep: SriResult<RespuestaRecepcion>, auth: SriResult<RespuestaAutorizacion>): SriState
  {
    match recep
    case NetworkErr(_) => SriState(PendienteEnvio, OfflineMessage)
    case OtherErr(m) => SriState(ErrorTecnico, m)
    case Success(r) =>
      if r.estado == Recibida then
        match auth
        case NetworkErr(_) => SriState(Recibida, AuthPendingMessage)
        case OtherErr(m) => SriState(ErrorAuth, m)
        case Success(a) => AuthOutcome(a.autorizaciones)
      else SriState(r.estado, ReceptionMessages(r.comprobantes))
  }

  /** The nested loop that builds the message of a returned document. */
  method CollectReceptionMessages(comps: seq<ComprobanteRecepcion>) returns (msg: string)
    ensures msg == ReceptionMessages(comps)
  {
    msg := "";
    for i := 0 to |comps|
      invariant msg == ReceptionMessages(comps[..i])
    {
      assert comps[..i + 1][..i] == comps[..i];
      ghost var before := msg;
      var ms := comps[i].mensajes;
      for j := 0 to |ms|
        invariant msg == before + ReceptionLines(ms[..j])
      {
        assert ms[..j + 1][..j] == ms[..j];
        msg := msg + ReceptionLine(ms[j]);
      }
      assert ms[..|ms|] == ms;
    }
    assert comps[..|comps|] == comps;
  }

  /** The loop over the authorization entries, with the final "no answer" check. */
  method AuthorizationLoop(auths: seq<Autorizacion>) returns (estado: string, mensaje: string)
    ensures SriState(estado, mensaje) == AuthOutcome(auths)
  {
    estado, mensaje := Recibida, "";
    var autorizado := false;
    var i := 0;
    while i < |auths|
      invariant 0 <= i <= |auths|
      invariant !autorizado
      invariant ScanAuths(auths, SriState(Recibida, "")) == ScanAuths(auths[i..], SriState(estado, mensaje))
      invariant forall j :: 0 <= j < i ==> auths[j].estado != Autorizado
    {
      var auth := auths[i];
      if auth.estado == Autorizado {
        estado, mensaje := Autorizado, "";
        autorizado := true;
        break;
      }
      var msg := "[" + auth.estado + "]";
      var ms := auth.mensajes;
      for j := 0 to |ms|
        invariant msg == "[" + auth.estado + "]" + RejectionLines(ms[..j])
      {
        assert ms[..j + 1][..j] == ms[..j];
        msg := msg + RejectionLine(ms[j]);
      }
      assert ms[..|ms|] == ms;
      assert auths[i..][1..] == auths[i + 1..];
      mensaje := msg;
      estado := auth.estado;
      i := i + 1;
    }
    if autorizado {
      assert AnyAuthorized(auths);
    } else {
      assert ScanAuths(auths[i..], SriState(estado, mensaje)) == SriState(estado, mensaje);
    }
    if !autorizado && estado == Recibida {
      mensaje := NoAuthMessage;
    }
  }

  lemma {:induction false} ScanReachesAuthorized(auths: seq<Autorizacion>, st: SriState)
    requires AnyAuthorized(auths)
    ensures ScanAuths(auths, st) == SriState(Autorizado, "")
  {
    if auths[0].estado != Autorizado {
      var i :| 0 <= i < |auths| && auths[i].estado == Autorizado;
      assert auths[1..][i - 1] == auths[i];
      ScanReachesAuthorized(auths[1..], SriState(auths[0].estado, RejectionText(auths[0])));
    }
  }

  lemma {:induction false} ScanWithoutAuthorized(auths: seq<Autorizacion>, st: SriState)
    requires !AnyAuthorized(auths)
    ensures auths == [] ==> ScanAuths(auths, st) == st
    ensures auths != [] ==> ScanAuths(auths, st) == SriState(auths[|auths| - 1].estado, RejectionText(auths[|auths| - 1]))
  {
    if auths != [] {
      assert auths[0].estado != Autorizado;
      var rest := auths[1..];
      assert !AnyAuthorized(rest) by {
        forall j | 0 <= j < |rest|
          ensures rest[j].estado != Autorizado
        {
          assert rest[j] == auths[j + 1];
        }
      }
      ScanWithoutAuthorized(rest, SriState(auths[0].estado, RejectionText(auths[0])));
      if rest != [] {
        assert rest[|rest| - 1] == auths[|auths| - 1];
      }
    }
  }

  /** Any AUTORIZADO entry authorizes the invoice and clears the message: the loop stops at the first one. */
  lemma AuthorizedEntryWins(auths: seq<Autorizacion>)
    requires AnyAuthorized(auths)
    ensures AuthOutcome(auths) == SriState(Autorizado, "")
  {
    ScanReachesAuthorized(auths, SriState(Recibida, ""));
  }

  /**
   * Without an AUTORIZADO entry the last entry's state and `[estado] id: msg;`
   * text remain (the "no answer" message replaces a last state of RECIBIDA), and
   * with no entries at all the invoice stays RECIBIDA with the "no answer" message.
   */
  lemma LastRejectionRemains(auths: seq<Autorizacion>)
    requires !AnyAuthorized(auths)
    ensures auths == [] ==> AuthOutcome(auths) == SriState(Recibida, NoAuthMessage)
    ensures auths != [] && auths[|auths| - 1].estado != Recibida ==>
      AuthOutcome(auths) == SriState(auths[|auths| - 1].estado, RejectionText(auths[|auths| - 1]))
    ensures auths != [] && auths[|auths| - 1].estado == Recibida ==>
      AuthOutcome(auths) == SriState(Recibida, NoAuthMessage)
    ensures AuthOutcome(auths).estado != Autorizado
  {
    ScanWithoutAuthorized(auths, SriState(Recibida, ""));
  }

  /**
   * The settled state is one the code names or one the SRI sent back: the
   * initial PENDIENTE never survives unless the SRI itself answered it, and
   * AUTORIZADO needs an authorizing answer.
   */
  lemma SettledStateOrigin(recep: SriResult<RespuestaRecepcion>, auth: SriResult<RespuestaAutorizacion>)
    ensures var st := Settle(recep, auth);
      || st.estado in {PendienteEnvio, ErrorTecnico, ErrorAuth, Recibida, Autorizado}
      || (recep.Success? && st.estado == recep.value.estado)
      || (recep.Success? && auth.Success? && exists i :: 0 <= i < |auth.value.autorizaciones| && st.estado == auth.value.autorizaciones[i].estado)
    ensures Settle(recep, auth).estado == Autorizado ==>
      recep.Success? &&
      (recep.value.estado == Autorizado || (recep.value.estado == Recibida && auth.Success? && AnyAuthorized(auth.value.autorizaciones)))
  {
    if recep.Success? && recep.value.estado == Recibida && auth.Success? {
      var auths := auth.value.autorizaciones;
      if AnyAuthorized(auths) {
        AuthorizedEntryWins(auths);
      } else {
        LastRejectionRemains(auths);
        ScanWithoutAuthorized(auths, SriState(Recibida, ""));
      }
    }
  }

  /** The reception step and, for a received document, the authorization step. */
  method SettleSri(xmlFirmado: Bytes, claveAcceso: string, env: EmissionEnv) returns (estado: string, mensaje: string)
    ensures SriState(estado, mensaje) == Settle(env.enviar(xmlFirmado), env.autorizar(claveAcceso))
  {
    estado, mensaje := Pendiente, "";
    var respRecepcion := env.enviar(xmlFirmado);
    if respRecepcion.NetworkErr? {
      estado, mensaje := PendienteEnvio, OfflineMessage;
    } else if respRecepcion.OtherErr? {
      estado, mensaje := ErrorTecnico, respRecepcion.msg;
    } else if respRecepcion.value.estado == Recibida {
      estado := Recibida;
      var respAuth := env.autorizar(claveAcceso);
      if respAuth.NetworkErr? {
        estado, mensaje := Recibida, AuthPendingMessage;
      } else if respAuth.OtherErr? {
        estado, mensaje := ErrorAuth, respAuth.msg;
      } else {
        estado, mensaje := AuthorizationLoop(respAuth.value.autorizaciones);
      }
    } else {
      estado := respRecepcion.value.estado;
      mensaje := CollectReceptionMessages(respRecepcion.value.comprobantes);
    }
  }

  // ---------------------------------------------------------------- the document

  /** The `detalle` of one line: its code, name, quantity, unit price, base and its one VAT entry. */
  function DetalleFor(it: InvoiceItem): Detalle
  {
    Detalle(it.codigo, it.nombre, it.cantidad, it.precio, 0.0, LineBase(it),
      [Impuesto("2", it.codigoIVA, it.porcentajeIVA, LineBase(it), LineTax(it))])
  }

  /** `totalConImpuestos`, one entry per bucket in the order `range` visits them. */
  function TotalsFor(order: seq<string>, m: map<string, Bucket>): (r: seq<TotalImpuesto>)
    requires forall c :: c in order ==> c in m
    ensures |r| == |order|
  {
    seq(|order|, i requires 0 <= i < |order| => TotalImpuesto("2", order[i], m[order[i]].base, m[order[i]].valor))
  }

  const EmailField: string := "Email"
  const TelefonoField: string := "Telefono"
  const ObservacionField: string := "Observacion"
  const DireccionField: string := "Direccion"

  /** One additional field, present only when its value is non-empty. */
  function OptionalField(nombre: string, value: string): seq<CampoAdicional>
  {
    if value != "" then [CampoAdicional(nombre, value)] else []
  }

  /** The buyer's additional fields, in the order e-mail, phone, note, address, each only when non-empty. */
  function AdditionalFields(d: FacturaDTO): seq<CampoAdicional>
  {
    OptionalField(EmailField, d.clienteEmail) + OptionalField(TelefonoField, d.clienteTelefono)
    + OptionalField(ObservacionField, d.observacion) + OptionalField(DireccionField, d.clienteDireccion)
  }

  /** The head office address: the configured one, or the business name when it is empty. */
  function DirMatriz(cfg: EmisorConfig): string
  {
    if cfg.direccion == "" then cfg.razonSocial else cfg.direccion
  }

  /** The invoice document the code fills in; `ambiente` and `fechaEmision` are already printed. */
  function FacturaDocument(
    cfg: EmisorConfig, d: FacturaDTO, ambiente: string, clave: string, estab: string, ptoEmi: string, sec: string,
    fechaEmision: string, detalles: seq<Detalle>, totals: seq<TotalImpuesto>, totalSinImpuestos: real, importeTotal: real): FacturaXml
  {
    FacturaXml("comprobante", "1.1.0",
      InfoTributaria(ambiente, EmisionNormal, cfg.razonSocial, cfg.nombreComercial, cfg.ruc, clave,
        TipoDocFactura, estab, ptoEmi, sec, DirMatriz(cfg), cfg.agenteRetencion, cfg.contribuyenteRimpe),
      InfoFactura(fechaEmision, DirMatriz(cfg), if cfg.obligado then "SI" else "NO", "05",
        d.clienteNombre, d.clienteID, d.clienteDireccion, totalSinImpuestos, 0.0, totals, importeTotal, "DOLAR",
        [Pago(d.formaPago, importeTotal, d.plazo, d.unidadTiempo)]),
      detalles,
      AdditionalFields(d))
  }

  /** Building the document: the literal, then the obligation flag and the additional fields appended one by one. */
  method BuildDocument(
    cfg: EmisorConfig, d: FacturaDTO, ambiente: string, clave: string, estab: string, ptoEmi: string, sec: string,
    fechaEmision: string, detalles: seq<Detalle>, totals: seq<TotalImpuesto>, totalSinImpuestos: real, importeTotal: real)
    returns (doc: FacturaXml)
    ensures doc == FacturaDocument(cfg, d, ambiente, clave, estab, ptoEmi, sec, fechaEmision, detalles, totals, totalSinImpuestos, importeTotal)
  {
    var dirMatriz := cfg.direccion;
    if dirMatriz == "" {
      dirMatriz := cfg.razonSocial;
    }
    doc := FacturaXml("comprobante", "1.1.0",
      InfoTributaria(ambiente, EmisionNormal, cfg.razonSocial, cfg.nombreComercial, cfg.ruc, clave,
        TipoDocFactura, estab, ptoEmi, sec, dirMatriz, cfg.agenteRetencion, cfg.contribuyenteRimpe),
      InfoFactura(fechaEmision, dirMatriz, "NO", "05",
        d.clienteNombre, d.clienteID, d.clienteDireccion, totalSinImpuestos, 0.0, totals, importeTotal, "DOLAR",
        [Pago(d.formaPago, importeTotal, d.plazo, d.unidadTiempo)]),
      detalles, []);
    if cfg.obligado {
      doc := doc.(infoFactura := doc.infoFactura.(obligadoContabilidad := "SI"));
    }
    var fields := [];
    if d.clienteEmail != "" {
      fields := fields + [CampoAdicional(EmailField, d.clienteEmail)];
    }
    assert fields == OptionalField(EmailField, d.clienteEmail);
    if d.clienteTelefono != "" {
      fields := fields + [CampoAdicional(TelefonoField, d.clienteTelefono)];
    }
    assert fields == OptionalField(EmailField, d.clienteEmail) + OptionalField(TelefonoField, d.clienteTelefono);
    if d.observacion != "" {
      fields := fields + [CampoAdicional(ObservacionField, d.observacion)];
    }
    if d.clienteDireccion != "" {
      fields := fields + [CampoAdicional(DireccionField, d.clienteDireccion)];
    }
    doc := doc.(infoAdicional := fields);
  }

  /** An additional field appears exactly when its value is non-empty, and with that value. */
  lemma AdditionalFieldsPresent(d: FacturaDTO)
    ensures CampoAdicional(EmailField, d.clienteEmail) in AdditionalFields(d) <==> d.clienteEmail != ""
    ensures CampoAdicional(TelefonoField, d.clienteTelefono) in AdditionalFields(d) <==> d.clienteTelefono != ""
    ensures CampoAdicional(ObservacionField, d.observacion) in AdditionalFields(d) <==> d.observacion != ""
    ensures CampoAdicional(DireccionField, d.clienteDireccion) in AdditionalFields(d) <==> d.clienteDireccion != ""
    ensures forall f :: f in AdditionalFields(d) ==> f.value != ""
    ensures |AdditionalFields(d)| <= 4
  {
  }

  /** The loop over the lines: one `detalle` per line, in order, and the per-code buckets. */
  method PriceLines(items: seq<InvoiceItem>) returns (detalles: seq<Detalle>, bases: map<string, Bucket>)
    ensures |detalles| == |items| && forall i :: 0 <= i < |items| ==> detalles[i] == DetalleFor(items[i])
    ensures bases == Buckets(items)
  {
    detalles, bases := [], map[];
    for i := 0 to |items|
      invariant |detalles| == i && forall j :: 0 <= j < i ==> detalles[j] == DetalleFor(items[j])
      invariant bases == Buckets(items[..i])
    {
      var item := items[i];
      var precioTotalSinImpuesto := LineBase(item);
      var valorIVA := LineTax(item);
      var detalle := Detalle(item.codigo, item.nombre, item.cantidad, item.precio, 0.0, precioTotalSinImpuesto,
        [Impuesto("2", item.codigoIVA, item.porcentajeIVA, precioTotalSinImpuesto, valorIVA)]);
      var actual := if item.codigoIVA in bases then bases[item.codigoIVA] else Bucket(0.0, 0.0, 0.0);
      actual := Bucket(Round(actual.base + precioTotalSinImpuesto, 2), Round(actual.valor + valorIVA, 2), item.porcentajeIVA);
      assert items[..i + 1][..i] == items[..i];
      bases := bases[item.codigoIVA := actual];
      detalles := detalles + [detalle];
    }
    assert items[..|items|] == items;
  }

  /** The code check of the validation: the loop stops at the first line without a code. */
  method AllItemsCoded(items: seq<InvoiceItem>) returns (ok: bool)
    ensures ok <==> AllCoded(items)
  {
    for i := 0 to |items|
      invariant AllCoded(items[..i])
    {
      if |items[i].codigo| == 0 {
        return false;
      }
    }
    assert items[..|items|] == items;
    return true;
  }

  // ---------------------------------------------------------------- signing

  const DecryptErrorPrefix: string := "error descifrando contraseña de firma: "
  const LoadErrorPrefix: string := "error cargando firma: "
  const SignErrorPrefix: string := "error firmando xml: "
  const SaveErrorPrefix: string := "error guardando factura en DB: "

  /** What the emission reads from its surroundings besides the database. */
  datatype EmissionEnv = EmissionEnv(
    now: DateTime,                                   // `time.Now()` when the invoice is issued
    mapOrder: seq<string>,                           // the order the first `range` visits the buckets in
    taxOrder: seq<string>,                           // the order the second `range` visits them in
    generateXml: FacturaXml -> Result<string>,       // `xml.GenerateXML`
    decrypt: string -> Result<string>,               // `crypto.Decrypt` of the stored password
    loadSigner: (string, string) -> Result<Signer>,  // `crypto.NewSignerFromFile`
    signXml: (Signer, string) -> Result<string>,     // `(*Signer).SignXML`, with its own clock and random ids
    enviar: Bytes -> SriResult<RespuestaRecepcion>,  // `sriClient.EnviarComprobante`
    autorizar: string -> SriResult<RespuestaAutorizacion>,  // `sriClient.AutorizarComprobante`
    ride: (FacturaXml, string, string) -> Result<Bytes>,  // `pdf.GenerarRIDE`
    createError: string)                             // the database's text for a duplicate access key

  /** Decrypt the password, load the certificate, sign: the first failure, with its prefix, or the signed text. */
  function SignInvoice(cfg: EmisorConfig, xml: string, env: EmissionEnv): Result<string>
  {
    var pass := env.decrypt(cfg.p12Password);
    if pass.Err? then Err(DecryptErrorPrefix + pass.error)
    else
      var signer := env.loadSigner(cfg.p12Path, pass.value);
      if signer.Err? then Err(LoadErrorPrefix + signer.error)
      else
        var signed := env.signXml(signer.value, xml);
        if signed.Err? then Err(SignErrorPrefix + signed.error) else signed
  }

  method SignDocument(cfg: EmisorConfig, xml: string, env: EmissionEnv) returns (r: Result<string>)
    ensures r == SignInvoice(cfg, xml, env)
  {
    var p12Pass := env.decrypt(cfg.p12Password);
    if p12Pass.Err? {
      return Err(DecryptErrorPrefix + p12Pass.error);
    }
    var signer := env.loadSigner(cfg.p12Path, p12Pass.value);
    if signer.Err? {
      return Err(LoadErrorPrefix + signer.error);
    }
    var xmlFirmado := env.signXml(signer.value, xml);
    if xmlFirmado.Err? {
      return Err(SignErrorPrefix + xmlFirmado.error);
    }
    r := xmlFirmado;
  }

  // ---------------------------------------------------------------- the buyer

  /** The anonymous buyer's number is thirteen bytes long. */
  lemma ConsumidorFinalBytes()
    ensures ByteLen(ConsumidorFinal) == 13
  {
    AsciiUtf8(ConsumidorFinal);
  }

  /** The identification type inferred for the buyer. */
  function BuyerTipoID(id: string): (t: string)
    ensures t == "07" <==> id == ConsumidorFinal
    ensures t == "04" <==> id != ConsumidorFinal && ByteLen(id) == 13
    ensures t == "05" <==> ByteLen(id) == 10
    ensures t == "06" <==> id != ConsumidorFinal && ByteLen(id) != 13 && ByteLen(id) != 10
  {
    ConsumidorFinalBytes();
    if id == ConsumidorFinal then "07"
    else if ByteLen(id) == 13 then "04"
    else if ByteLen(id) == 10 then "05"
    else "06"
  }

  /** The buyer record after the upsert: a new one with every field, or the old one brought up to date. */
  function UpsertedBuyer(clients: map<string, Client>, d: FacturaDTO): Client
  {
    if d.clienteID !in clients then
      Client(d.clienteID, BuyerTipoID(d.clienteID), d.clienteNombre, d.clienteDireccion, d.clienteEmail, d.clienteTelefono)
    else
      var c := clients[d.clienteID];
      c.(nombre := d.clienteNombre, direccion := d.clienteDireccion,
         email := if d.clienteEmail != "" then d.clienteEmail else c.email,
         telefono := if d.clienteTelefono != "" then d.clienteTelefono else c.telefono)
  }

  /**
   * An existing buyer keeps its id and type and gets the name and address of the
   * invoice even when empty, but an empty e-mail or phone does not erase the
   * stored one; a new buyer is created with the inferred type.
   */
  lemma UpsertedBuyerFields(clients: map<string, Client>, d: FacturaDTO)
    ensures var c := UpsertedBuyer(clients, d);
      && c.nombre == d.clienteNombre && c.direccion == d.clienteDireccion
      && (d.clienteEmail != "" ==> c.email == d.clienteEmail)
      && (d.clienteTelefono != "" ==> c.telefono == d.clienteTelefono)
      && (d.clienteID in clients ==>
            && c.id == clients[d.clienteID].id && c.tipoID == clients[d.clienteID].tipoID
            && (d.clienteEmail == "" ==> c.email == clients[d.clienteID].email)
            && (d.clienteTelefono == "" ==> c.telefono == clients[d.clienteID].telefono))
      && (d.clienteID !in clients ==>
            c == Client(d.clienteID, BuyerTipoID(d.clienteID), d.clienteNombre, d.clienteDireccion, d.clienteEmail, d.clienteTelefono))
  {
  }

  /** Steps 10 of the emission: look the buyer up, then create or save it. */
  method UpsertBuyer(store: Store, d: FacturaDTO)
    modifies store`clients
    ensures store.clients == old(store.clients)[d.clienteID := UpsertedBuyer(old(store.clients), d)]
    ensures store.facturas == old(store.facturas) && store.facturaItems == old(store.facturaItems)
  {
    var tipoID: string;
    if d.clienteID == ConsumidorFinal {
      tipoID := "07";
    } else if ByteLen(d.clienteID) == 13 {
      tipoID := "04";
    } else if ByteLen(d.clienteID) == 10 {
      tipoID := "05";
    } else {
      tipoID := "06";
    }
    if d.clienteID !in store.clients {
      var cliente := Client(d.clienteID, tipoID, d.clienteNombre, d.clienteDireccion, d.clienteEmail, d.clienteTelefono);
      store.clients := store.clients[d.clienteID := cliente];
    } else {
      var cliente := store.clients[d.clienteID];
      cliente := cliente.(nombre := d.clienteNombre, direccion := d.clienteDireccion);
      if d.clienteEmail != "" {
        cliente := cliente.(email := d.clienteEmail);
      }
      if d.clienteTelefono != "" {
        cliente := cliente.(telefono := d.clienteTelefono);
      }
      store.clients := store.clients[d.clienteID := cliente];
    }
  }

  // ---------------------------------------------------------------- persisting

  /** The reporting row of one line: the unrounded `cantidad * precio` as its subtotal. */
  function ItemRecord(clave: string, it: InvoiceItem): FacturaItem
  {
    FacturaItem(clave, it.codigo, it.nombre, it.cantidad, it.precio, it.cantidad * it.precio, it.porcentajeIVA)
  }

  /** The reporting rows of the lines, in order. */
  function ItemRecords(clave: string, items: seq<InvoiceItem>): seq<FacturaItem>
  {
    if items == [] then []
    else ItemRecords(clave, items[..|items| - 1]) + [ItemRecord(clave, items[|items| - 1])]
  }

  /** One row per line, in the lines' order, each keyed by the invoice and carrying the unrounded product. */
  lemma {:induction false} ItemRecordsShape(clave: string, items: seq<InvoiceItem>)
    ensures |ItemRecords(clave, items)| == |items|
    ensures forall i :: 0 <= i < |items| ==>
      && ItemRecords(clave, items)[i].facturaClave == clave
      && ItemRecords(clave, items)[i].productoSKU == items[i].codigo
      && ItemRecords(clave, items)[i].subtotal == items[i].cantidad * items[i].precio
  {
    if items != [] {
      ItemRecordsShape(clave, items[..|items| - 1]);
    }
  }

  /** Step 12: one reporting row per line, appended in order. */
  method SaveItems(store: Store, clave: string, items: seq<InvoiceItem>)
    modifies store`facturaItems
    ensures store.facturaItems == old(store.facturaItems) + ItemRecords(clave, items)
    ensures store.facturas == old(store.facturas) && store.clients == old(store.clients)
  {
    ghost var start := store.facturaItems;
    for i := 0 to |items|
      invariant store.facturaItems == start + ItemRecords(clave, items[..i])
    {
      var facturaItem := FacturaItem(clave, items[i].codigo, items[i].nombre, items[i].cantidad, items[i].precio,
        items[i].cantidad * items[i].precio, items[i].porcentajeIVA);
      assert items[..i + 1][..i] == items[..i];
      assert facturaItem == ItemRecord(clave, items[..i + 1][i]);
      store.facturaItems := store.facturaItems + [facturaItem];
    }
    assert items[..|items|] == items;
  }

  predicate HasKey(facturas: seq<Factura>, clave: string)
  {
    exists i :: 0 <= i < |facturas| && facturas[i].claveAcceso == clave
  }

  // ---------------------------------------------------------------- the emission

  /** The invoice once the rules have passed: the default payment method filled in. */
  function Prepared(dto: FacturaDTO): (d: FacturaDTO)
    ensures d.formaPago != "" && d.items == dto.items && d.clienteID == dto.clienteID
  {
    dto.(formaPago := DefaultFormaPago(dto.formaPago))
  }

  /** The sequential the invoice is issued with: the next one in the database, reprinted with `%09d`. */
  function EmittedSecuencial(facturas: seq<Factura>): string
  {
    ZeroPad(ScanIntOrZero(GetNextSecuencial(facturas)), 9)
  }

  function EmittedKey(cfg: EmisorConfig, facturas: seq<Factura>, now: DateTime): string
  {
    AccessKeyFor(cfg, now.date, GetNextSecuencial(facturas))
  }

  /** The order the first loop over the buckets visits them in. */
  function BucketOrder(items: seq<InvoiceItem>, env: EmissionEnv): (order: seq<string>)
    ensures Distinct(order) && forall c :: c in order <==> c in Codes(Lines(items))
    ensures forall c :: c in order ==> c in Buckets(items)
  {
    BucketKeys(items);
    MapOrder(env.mapOrder, Codes(Lines(items)))
  }

  function EmittedDetalles(items: seq<InvoiceItem>): (r: seq<Detalle>)
    ensures |r| == |items|
  {
    seq(|items|, i requires 0 <= i < |items| => DetalleFor(items[i]))
  }

  /** The document the emission builds for the (prepared) invoice `d`. */
  function EmittedDocument(cfg: EmisorConfig, d: FacturaDTO, facturas: seq<Factura>, env: EmissionEnv): FacturaXml
  {
    FacturaDocument(cfg, d, IntToString(cfg.ambiente), EmittedKey(cfg, facturas, env.now),
      SeriesField(cfg.estab), SeriesField(cfg.ptoEmi), EmittedSecuencial(facturas), FormatSlashDate(env.now.date),
      EmittedDetalles(d.items), TotalsFor(BucketOrder(d.items, env), Buckets(d.items)),
      TotalSinImpuestos(d.items), ImporteTotal(d.items))
  }

  /** The generated document text, then the signature: the first failure or the signed text. */
  function Signed(cfg: EmisorConfig, d: FacturaDTO, facturas: seq<Factura>, env: EmissionEnv): Result<string>
  {
    var x := env.generateXml(EmittedDocument(cfg, d, facturas, env));
    if x.Err? then Err(x.error) else SignInvoice(cfg, x.value, env)
  }

  /** The RIDE stored with the invoice: none after a technical error or when the generator fails. */
  function RidePdf(estado: string, doc: FacturaXml, cfg: EmisorConfig, env: EmissionEnv): Bytes
  {
    if estado == ErrorTecnico then []
    else
      var r := env.ride(doc, cfg.logoPath, cfg.pdfTheme);
      if r.Ok? then r.value else []
  }

  function SriStateFor(signed: string, clave: string, env: EmissionEnv): SriState
  {
    Settle(env.enviar(Utf8(signed)), env.autorizar(clave))
  }

  /** The invoice record the emission saves for the signed text `signed`. */
  function EmittedFactura(cfg: EmisorConfig, d: FacturaDTO, facturas: seq<Factura>, env: EmissionEnv, signed: string): Factura
  {
    var clave := EmittedKey(cfg, facturas, env.now);
    var st := SriStateFor(signed, clave, env);
    Factura(clave, EmittedSecuencial(facturas), env.now, d.clienteID, ImporteTotal(d.items), st.estado, Utf8(signed),
      RidePdf(st.estado, EmittedDocument(cfg, d, facturas, env), cfg, env), st.mensaje,
      TaxedLines(d.items).base, ZeroRatedLines(d.items).base, TaxedLines(d.items).valor)
  }

  /**
   * The saved record agrees with the document that was signed: same access key,
   * sequential and total; its subtotals split the document's `totalSinImpuestos`;
   * the total is the one the rules were checked against; and a technical error
   * stores no RIDE.
   */
  lemma EmittedFacturaMatchesDocument(cfg: EmisorConfig, d: FacturaDTO, facturas: seq<Factura>, env: EmissionEnv, signed: string)
    ensures var rec := EmittedFactura(cfg, d, facturas, env, signed);
      var doc := EmittedDocument(cfg, d, facturas, env);
      && rec.claveAcceso == doc.infoTributaria.claveAcceso
      && rec.secuencial == doc.infoTributaria.secuencial
      && rec.total == doc.infoFactura.importeTotal
      && rec.total == PreliminaryTotal(d.items)
      && rec.subtotal15 + rec.subtotal0 == doc.infoFactura.totalSinImpuestos
      && rec.fechaEmision == env.now && rec.clienteID == d.clienteID
      && rec.xmlFirmado == Utf8(signed)
      && (rec.estadoSRI == ErrorTecnico ==> rec.pdfRide == [])
  {
    ImporteTotalIsValidationTotal(d.items);
    TotalsAddUp(d.items);
  }

  /**
   * The signer the service uses in the source: `crypto.NewSignerFromFile` and
   * `SignXML` of the signing package, with one clock reading and one random suffix.
   */
  ghost predicate StandardSigner(env: EmissionEnv, p12: P12Env, c: Crypto, nonce: nat, signedAt: DateTime)
  {
    && (forall path, pass :: env.loadSigner(path, pass) == LoadSigner(path, pass, p12))
    && (forall sg, x :: env.signXml(sg, x) == SignXML(sg, x, c, nonce, signedAt))
  }

  /** The SRI client the service uses in the source: the SOAP client over one transport. */
  ghost predicate StandardSriClient(env: EmissionEnv, soap: SoapEnv)
  {
    && (forall x :: env.enviar(x) == EnviarComprobante(x, soap))
    && (forall k :: env.autorizar(k) == AutorizarComprobante(k, soap))
  }

  /**
   * With the standard signer, the signed invoice is the generated text with the
   * signature block inserted before the first `</factura>`: the text before that
   * tag and from it on is unchanged. Without the tag, a loaded certificate
   * still ends in an error.
   */
  lemma StandardSignature(cfg: EmisorConfig, xml: string, env: EmissionEnv, p12: P12Env, c: Crypto, nonce: nat, signedAt: DateTime)
    requires StandardSigner(env, p12, c, nonce, signedAt)
    ensures SignInvoice(cfg, xml, env).Ok? ==>
      var r := SignInvoice(cfg, xml, env).value;
      var i := IndexOf(xml, FacturaClose);
      && Contains(xml, FacturaClose) && |r| >= |xml|
      && r[..i] == xml[..i] && r[|r| - (|xml| - i)..] == xml[i..]
      && Contains(r, FacturaClose)
    ensures env.decrypt(cfg.p12Password).Ok? && !Contains(xml, FacturaClose) ==> SignInvoice(cfg, xml, env).Err?
  {
    var pass := env.decrypt(cfg.p12Password);
    if pass.Ok? {
      var sg := env.loadSigner(cfg.p12Path, pass.value);
      if sg.Ok? {
        var r := env.signXml(sg.value, xml);
        assert r == SignXML(sg.value, xml, c, nonce, signedAt);
        if r.Ok? {
          SignedKeepsDocument(sg.value, xml, c, nonce, signedAt);
          SignedDocumentShape(sg.value, xml, c, nonce, signedAt);
        }
      }
    }
  }

  /**
   * With the standard SOAP client, a reception request that does not reach the
   * server, or meets a server error, leaves the invoice `PENDIENTE_ENVIO` with
   * the offline message; no authorization is asked for.
   */
  lemma StandardOffline(signed: string, clave: string, env: EmissionEnv, soap: SoapEnv)
    requires StandardSriClient(env, soap)
    requires var o := soap.post(RecepcionPruebas, RecepcionEnvelope(soap.base64(Utf8(signed))));
      o.TransportFailure? || o.status >= 500
    ensures SriStateFor(signed, clave, env) == SriState(PendienteEnvio, OfflineMessage)
  {
    assert env.enviar(Utf8(signed)) == EnviarComprobante(Utf8(signed), soap);
  }

  /** Step 1: the configuration and the rules, checked in order, each with its own loop. */
  method Validate(config: Option<EmisorConfig>, dto: FacturaDTO) returns (rule: Option<Rule>)
    ensures rule == ValidationError(config, dto)
  {
    if config.None? {
      return Some(NoConfig);
    }
    var cfg := config.value;
    if ByteLen(cfg.ruc) != 13 {
      return Some(RucLength(ByteLen(cfg.ruc)));
    }
    if |dto.items| == 0 {
      return Some(NoItems);
    }
    var coded := AllItemsCoded(dto.items);
    if !coded {
      return Some(MissingCode);
    }
    var totalValidacion := ValidationTotal(dto.items);
    if cfg.ambiente == 2 && totalValidacion >= 1000.0 && dto.formaPago == "01" {
      return Some(FinancialSystem);
    }
    if dto.clienteID == ConsumidorFinal && totalValidacion > 50.0 {
      return Some(ConsumerFinal);
    }
    return None;
  }

  /** Steps 3 and 4: the sequential, the series fields and the access key. */
  method Numbering(cfg: EmisorConfig, facturas: seq<Factura>, now: DateTime)
    returns (estabStr: string, ptoEmiStr: string, sec: string, clave: string)
    ensures estabStr == SeriesField(cfg.estab) && ptoEmiStr == SeriesField(cfg.ptoEmi)
    ensures sec == EmittedSecuencial(facturas) && clave == EmittedKey(cfg, facturas, now)
  {
    var realSec := GetNextSecuencial(facturas);
    var nEstab, nPtoEmi, nSec := ScanIntOrZero(cfg.estab), ScanIntOrZero(cfg.ptoEmi), ScanIntOrZero(realSec);
    estabStr, ptoEmiStr, sec := ZeroPad(nEstab, 3), ZeroPad(nPtoEmi, 3), ZeroPad(nSec, 9);
    var clavePrevia := FormatCompactDate(now.date) + TipoDocFactura + cfg.ruc + IntToString(cfg.ambiente)
      + estabStr + ptoEmiStr + sec + CodigoNumerico + EmisionNormal;
    var digito := CalcularDigitoModulo11(clavePrevia);
    clave := clavePrevia + NatToString(digito);
  }

  /** Step 2: the lines' `detalle`s, the buckets and, from the first loop over them, the totals. */
  method PriceInvoice(items: seq<InvoiceItem>, env: EmissionEnv)
    returns (detalles: seq<Detalle>, bases: map<string, Bucket>, totals: seq<TotalImpuesto>, importeTotal: real, totalSinImpuestos: real)
    ensures detalles == EmittedDetalles(items) && bases == Buckets(items)
    ensures totals == TotalsFor(BucketOrder(items, env), Buckets(items))
    ensures importeTotal == ImporteTotal(items) && totalSinImpuestos == TotalSinImpuestos(items)
  {
    detalles, bases := PriceLines(items);
    var order := BucketOrder(items, env);
    totals, importeTotal, totalSinImpuestos := SummarizeBuckets(bases, order);
    SumBucketsOrderFree(order, items, None);
    assert detalles == EmittedDetalles(items);
    assert totals == TotalsFor(order, bases);
  }

  /** Steps 2 to 5: price the lines, number the invoice and build its document. */
  method ComposeDocument(cfg: EmisorConfig, d: FacturaDTO, facturas: seq<Factura>, env: EmissionEnv)
    returns (doc: FacturaXml, bases: map<string, Bucket>, sec: string, clave: string, importeTotal: real)
    ensures doc == EmittedDocument(cfg, d, facturas, env)
    ensures bases == Buckets(d.items) && importeTotal == ImporteTotal(d.items)
    ensures sec == EmittedSecuencial(facturas) && clave == EmittedKey(cfg, facturas, env.now)
  {
    var detalles, totals, totalSinImpuestos;
    detalles, bases, totals, importeTotal, totalSinImpuestos := PriceInvoice(d.items, env);
    var estabStr, ptoEmiStr;
    estabStr, ptoEmiStr, sec, clave := Numbering(cfg, facturas, env.now);
    doc := BuildDocument(cfg, d, IntToString(cfg.ambiente), clave, estabStr, ptoEmiStr, sec,
      FormatSlashDate(env.now.date), detalles, totals, totalSinImpuestos, importeTotal);
  }

  /** Step 6: the subtotals stored with the invoice, from the bucket "0" and a second loop over the buckets. */
  method StoredSubtotals(bases: map<string, Bucket>, items: seq<InvoiceItem>, env: EmissionEnv)
    returns (subtotalGravado: real, subtotalCero: real, totalIVA: real)
    requires bases == Buckets(items)
    ensures subtotalGravado == TaxedLines(items).base && totalIVA == TaxedLines(items).valor
    ensures subtotalCero == ZeroRatedLines(items).base
  {
    subtotalCero := SubtotalCero(bases);
    SubtotalCeroIsZeroRated(items);
    var taxOrder := MapOrder(env.taxOrder, Codes(Lines(items)));
    BucketKeys(items);
    subtotalGravado, totalIVA := TaxedSubtotals(bases, taxOrder);
    SumBucketsOrderFree(taxOrder, items, Some("0"));
  }

  /** Steps 7 to 9: the SRI state and, unless it is a technical error, the RIDE. */
  method Settlement(cfg: EmisorConfig, doc: FacturaXml, signed: string, clave: string, env: EmissionEnv)
    returns (estado: string, mensaje: string, pdfRide: Bytes)
    ensures SriState(estado, mensaje) == SriStateFor(signed, clave, env)
    ensures pdfRide == RidePdf(estado, doc, cfg, env)
  {
    estado, mensaje := SettleSri(Utf8(signed), clave, env);
    pdfRide := [];
    if estado != ErrorTecnico {
      var pdfBytes := env.ride(doc, cfg.logoPath, cfg.pdfTheme);
      if pdfBytes.Ok? {
        pdfRide := pdfBytes.value;
      }
    }
  }

  /** The record the emission saves, or the first failure of generating or signing the document. */
  function EmittedRecord(cfg: EmisorConfig, d: FacturaDTO, facturas: seq<Factura>, env: EmissionEnv): Result<Factura>
  {
    var signed := Signed(cfg, d, facturas, env);
    if signed.Err? then Err(signed.error) else Ok(EmittedFactura(cfg, d, facturas, env, signed.value))
  }

  /** Steps 2 to 9 for the prepared invoice `d`: the record to save, and the sequential it was issued with. */
  method BuildRecord(cfg: EmisorConfig, d: FacturaDTO, facturas: seq<Factura>, env: EmissionEnv)
    returns (sec: string, r: Result<Factura>)
    ensures sec == EmittedSecuencial(facturas) && r == EmittedRecord(cfg, d, facturas, env)
  {
    var facturaXml, basesImponibles, claveAcceso, importeTotal;
    facturaXml, basesImponibles, sec, claveAcceso, importeTotal := ComposeDocument(cfg, d, facturas, env);
    var xmlData := env.generateXml(facturaXml);
    if xmlData.Err? {
      return sec, Err(xmlData.error);
    }
    var subtotalGravado, subtotalCero, totalIVA := StoredSubtotals(basesImponibles, d.items, env);
    var xmlFirmado := SignDocument(cfg, xmlData.value, env);
    if xmlFirmado.Err? {
      return sec, Err(xmlFirmado.error);
    }
    var estado, mensaje, pdfRide := Settlement(cfg, facturaXml, xmlFirmado.value, claveAcceso, env);
    r := Ok(Factura(claveAcceso, sec, env.now, d.clienteID, importeTotal, estado, Utf8(xmlFirmado.value),
      pdfRide, mensaje, subtotalGravado, subtotalCero, totalIVA));
  }

  /**
   * Steps 10 to 12: upsert the buyer, then create the invoice row, which fails
   * on a duplicate access key, and only then its lines.
   */
  method SaveInvoice(store: Store, dto: FacturaDTO, rec: Factura, createError: string) returns (err: Option<string>)
    modifies store`clients, store`facturas, store`facturaItems
    ensures store.clients == old(store.clients)[dto.clienteID := UpsertedBuyer(old(store.clients), dto)]
    ensures HasKey(old(store.facturas), rec.claveAcceso) ==>
      && err == Some(SaveErrorPrefix + createError)
      && store.facturas == old(store.facturas) && store.facturaItems == old(store.facturaItems)
    ensures !HasKey(old(store.facturas), rec.claveAcceso) ==>
      && err == None
      && store.facturas == old(store.facturas) + [rec]
      && store.facturaItems == old(store.facturaItems) + ItemRecords(rec.claveAcceso, dto.items)
  {
    UpsertBuyer(store, dto);
    if HasKey(store.facturas, rec.claveAcceso) {
      return Some(SaveErrorPrefix + createError);
    }
    store.facturas := store.facturas + [rec];
    SaveItems(store, rec.claveAcceso, dto.items);
    err := None;
  }

  /** The invoice as the caller sees it after an emission that got past the rules. */
  function Issued(dto: FacturaDTO, facturas: seq<Factura>): FacturaDTO
  {
    Prepared(dto).(secuencial := EmittedSecuencial(facturas))
  }

  /**
   * `EmitirFactura`: validate, build and sign the document, settle it with the SRI,
   * upsert the buyer and save the invoice with its lines. `out` is the caller's
   * invoice after the call (the code updates it through its pointer).
   */
  method EmitirFactura(store: Store, dto: FacturaDTO, env: EmissionEnv) returns (err: Option<string>, out: FacturaDTO)
    modifies store`clients, store`facturas, store`facturaItems
    ensures ValidationError(old(store.config), dto).Some? ==>
      && err == Some(RuleMessage(ValidationError(old(store.config), dto).value)) && out == dto
      && unchanged(store)
    ensures ValidationError(old(store.config), dto).None? && EmittedRecord(old(store.config).value, Prepared(dto), old(store.facturas), env).Err? ==>
      && err == Some(EmittedRecord(old(store.config).value, Prepared(dto), old(store.facturas), env).error)
      && out == Issued(dto, old(store.facturas))
      && unchanged(store)
    ensures ValidationError(old(store.config), dto).None? && EmittedRecord(old(store.config).value, Prepared(dto), old(store.facturas), env).Ok? ==>
      var rec := EmittedRecord(old(store.config).value, Prepared(dto), old(store.facturas), env).value;
      && store.clients == old(store.clients)[dto.clienteID := UpsertedBuyer(old(store.clients), dto)]
      && (HasKey(old(store.facturas), rec.claveAcceso) ==>
            && err == Some(SaveErrorPrefix + env.createError) && out == Issued(dto, old(store.facturas))
            && store.facturas == old(store.facturas) && store.facturaItems == old(store.facturaItems))
      && (!HasKey(old(store.facturas), rec.claveAcceso) ==>
            && err == None && out == Issued(dto, old(store.facturas)).(claveAcceso := rec.claveAcceso)
            && store.facturas == old(store.facturas) + [rec]
            && store.facturaItems == old(store.facturaItems) + ItemRecords(rec.claveAcceso, dto.items))
  {
    out := dto;
    var rule := Validate(store.config, dto);
    if rule.Some? {
      return Some(RuleMessage(rule.value)), out;
    }
    var config := store.config.value;
    if out.formaPago == "" {
      out := out.(formaPago := "01");
    }
    assert out == Prepared(dto);
    var secuencialStr, facturaDB := BuildRecord(config, out, store.facturas, env);
    out := out.(secuencial := secuencialStr);
    if facturaDB.Err? {
      return Some(facturaDB.error), out;
    }
    err := SaveInvoice(store, dto, facturaDB.value, env.createError);
    if err.None? {
      out := out.(claveAcceso := facturaDB.value.claveAcceso);
    }
  }
}
