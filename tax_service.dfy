/**
 * The VAT declaration helper (`internal/service/tax_service.go`): the sales of
 * a period split by rate, the proportionality factor, the VAT withheld by
 * customers and the tax left to pay.
 */
module TaxService {
  import opened Text
  import opened Numeric
  import opened Dates
  import opened Records

  datatype TaxSummary = TaxSummary(
    ventas15: real,
    ventas0: real,
    ivaGenerado: real,
    retencionesIva: real,
    factorProporcion: real,
    impuestoSugerido: real)

  const Anulado: string := "ANULADO"
  const RetencionIva: string := "IVA"

  /** The invoices of the period (`fecha_emision` between the two bounds, both included), in table order. */
  function InvoicesIn(fs: seq<Factura>, start: DateTime, end: DateTime): (r: seq<Factura>)
    ensures |r| <= |fs|
    ensures forall i :: 0 <= i < |r| ==> r[i] in fs && InPeriod(r[i].fechaEmision, start, end)
  {
    if fs == [] then []
    else
      var rest := InvoicesIn(fs[..|fs| - 1], start, end);
      var f := fs[|fs| - 1];
      if InPeriod(f.fechaEmision, start, end) then rest + [f] else rest
  }

  /** An invoice counts when it has a positive total and its state, trimmed and in capitals, is not "ANULADO". */
  predicate Counts(f: Factura)
  {
    f.total > 0.0 && ToUpper(TrimSpace(f.estadoSRI)) != Anulado
  }

  /** The three sales sums of the loop over the period's invoices. */
  datatype Sales = Sales(ventas15: real, ventas0: real, iva: real)

  function AddInvoice(s: Sales, f: Factura): Sales
  {
    Sales(s.ventas15 + f.subtotal15, s.ventas0 + f.subtotal0, s.iva + f.iva)
  }

  /** The sums over the counting invoices. */
  function SalesOf(fs: seq<Factura>): Sales
  {
    if fs == [] then Sales(0.0, 0.0, 0.0)
    else
      var s := SalesOf(fs[..|fs| - 1]);
      if Counts(fs[|fs| - 1]) then AddInvoice(s, fs[|fs| - 1]) else s
  }

  /** The invoices that count, in order. */
  function Counted(fs: seq<Factura>): (r: seq<Factura>)
    ensures forall i :: 0 <= i < |r| ==> Counts(r[i]) && r[i] in fs
    ensures forall f :: f in fs && Counts(f) ==> f in r
  {
    if fs == [] then []
    else
      var rest := Counted(fs[..|fs| - 1]);
      assert forall f :: f in fs[..|fs| - 1] ==> f in fs;
      assert forall f :: f in fs ==> f in fs[..|fs| - 1] || f == fs[|fs| - 1];
      if Counts(fs[|fs| - 1]) then rest + [fs[|fs| - 1]] else rest
  }

  /** Every invoice's amounts added up, with no filter. */
  function SumAll(fs: seq<Factura>): Sales
  {
    if fs == [] then Sales(0.0, 0.0, 0.0) else AddInvoice(SumAll(fs[..|fs| - 1]), fs[|fs| - 1])
  }

  lemma {:induction false} SumAllAppend(a: seq<Factura>, f: Factura)
    ensures SumAll(a + [f]) == AddInvoice(SumAll(a), f)
  {
    assert (a + [f])[..|a + [f]| - 1] == a;
  }

  /** The sales are exactly the unfiltered sums of the counting invoices: voided, zero and negative invoices add nothing. */
  lemma {:induction false} SalesAreCountedSums(fs: seq<Factura>)
    ensures SalesOf(fs) == SumAll(Counted(fs))
    decreases |fs|
  {
    if fs != [] {
      SalesAreCountedSums(fs[..|fs| - 1]);
      if Counts(fs[|fs| - 1]) {
        SumAllAppend(Counted(fs[..|fs| - 1]), fs[|fs| - 1]);
      }
    }
  }

  /** The loop over the period's invoices. */
  method SumSales(facturas: seq<Factura>) returns (s: Sales)
    ensures s == SalesOf(facturas)
  {
    s := Sales(0.0, 0.0, 0.0);
    for i := 0 to |facturas|
      invariant s == SalesOf(facturas[..i])
    {
      var f := facturas[i];
      var estado := ToUpper(TrimSpace(f.estadoSRI));
      if f.total > 0.0 && estado != Anulado {
        s := Sales(s.ventas15 + f.subtotal15, s.ventas0 + f.subtotal0, s.iva + f.iva);
      }
      assert facturas[..i + 1][..i] == facturas[..i];
    }
    assert facturas[..|facturas|] == facturas;
  }

  /** Step 2: taxed sales over all sales to four decimals, or exactly 1 without sales. */
  function Factor(ventas15: real, ventas0: real): real
  {
    var totalVentas := ventas15 + ventas0;
    if totalVentas > 0.0 then Round(ventas15 / totalVentas, 4) else 1.0
  }

  /** With non-negative sales the factor is a proportion, between 0 and 1. */
  lemma FactorIsProportion(ventas15: real, ventas0: real)
    requires ventas15 >= 0.0 && ventas0 >= 0.0
    ensures 0.0 <= Factor(ventas15, ventas0) <= 1.0
    ensures ventas15 + ventas0 == 0.0 ==> Factor(ventas15, ventas0) == 1.0
    ensures ventas0 == 0.0 ==> Factor(ventas15, ventas0) == 1.0
  {
    var t := ventas15 + ventas0;
    if t > 0.0 {
      var x := ventas15 / t;
      assert 0.0 <= x <= 1.0;
      RoundWithinUnit(x, 4);
      if ventas0 == 0.0 {
        assert x == 1.0;
        OneIsMultipleOfUnit(4);
        RoundIdempotent(1.0, 4);
      }
    }
  }

  lemma OneIsMultipleOfUnit(places: nat)
    ensures IsMultipleOfUnit(1.0, places)
  {
    assert 1.0 * Scale(places) == Pow10(places) as real;
  }

  /** Rounding a value between 0 and 1 stays between 0 and 1. */
  lemma RoundWithinUnit(x: real, places: nat)
    requires 0.0 <= x <= 1.0
    ensures 0.0 <= Round(x, places) <= 1.0
  {
    RoundIsQuotient(x, places);
    UnitRounding(x, Scale(places), Pow10(places));
  }

  /** A proportion scaled by a whole number `s`, rounded and divided back by `s`, is still a proportion. */
  lemma UnitRounding(x: real, s: real, n: nat)
    requires s == n as real && s >= 1.0 && 0.0 <= x <= 1.0
    ensures 0.0 <= RoundHalfAway(x * s) as real / s <= 1.0
  {
    ScaledAtMost(x, s);
    var y := x * s;
    assert 0.0 <= y <= s;
    RoundedQuotient(y, s, n);
  }

  lemma ScaledAtMost(x: real, s: real)
    requires 0.0 <= x <= 1.0 && s >= 0.0
    ensures 0.0 <= x * s <= s
  {
  }

  /** Rounding a value between 0 and the whole number `s`, then dividing by `s`, stays between 0 and 1. */
  lemma RoundedQuotient(y: real, s: real, n: nat)
    requires s == n as real && s > 0.0 && 0.0 <= y <= s
    ensures 0.0 <= RoundHalfAway(y) as real / s <= 1.0
  {
    var k := RoundHalfAway(y);
    assert k <= n;
    QuotientAtMostOne(k as real, s);
  }

  lemma QuotientAtMostOne(a: real, s: real)
    requires 0.0 <= a <= s && s > 0.0
    ensures 0.0 <= a / s <= 1.0
  {
  }

  /** Step 3: the withholdings of type "IVA" received in the period, 0 when there are none. */
  function RetencionesIva(rs: seq<RetencionRecibida>, start: DateTime, end: DateTime): real
  {
    if rs == [] then 0.0
    else
      var r := rs[|rs| - 1];
      RetencionesIva(rs[..|rs| - 1], start, end)
        + (if InPeriod(r.fechaEmision, start, end) && r.tipo == RetencionIva then r.valorRetenido else 0.0)
  }

  /** Withholdings of another type or outside the period do not count. */
  lemma {:induction false} RetencionesWithoutIva(rs: seq<RetencionRecibida>, start: DateTime, end: DateTime)
    requires forall i :: 0 <= i < |rs| ==> rs[i].tipo != RetencionIva || !InPeriod(rs[i].fechaEmision, start, end)
    ensures RetencionesIva(rs, start, end) == 0.0
    decreases |rs|
  {
    if rs != [] {
      RetencionesWithoutIva(rs[..|rs| - 1], start, end);
    }
  }

  /** Step 4: VAT charged minus VAT withheld, never below zero, to the cent. */
  function Suggested(ivaGenerado: real, retenciones: real): real
  {
    var res := ivaGenerado - retenciones;
    Round(if res < 0.0 then 0.0 else res, 2)
  }

  /** The suggested payment is never negative, and zero whenever the withholdings cover the VAT charged. */
  lemma SuggestedNonNegative(ivaGenerado: real, retenciones: real)
    ensures Suggested(ivaGenerado, retenciones) >= 0.0
    ensures ivaGenerado <= retenciones ==> Suggested(ivaGenerado, retenciones) == 0.0
    ensures ivaGenerado > retenciones ==> Suggested(ivaGenerado, retenciones) == Round(ivaGenerado - retenciones, 2)
  {
    var res := ivaGenerado - retenciones;
    var clamped := if res < 0.0 then 0.0 else res;
    assert RoundHalfAway(clamped * Scale(2)) >= 0;
    if ivaGenerado <= retenciones {
      ZeroIsMultipleOfUnit(2);
      RoundIdempotent(0.0, 2);
      assert RoundHalfAway(0.0 * Scale(2)) == 0;
    }
  }

  /** `GetVATSummary` as a specification. */
  function VatSummary(fs: seq<Factura>, rs: seq<RetencionRecibida>, start: DateTime, end: DateTime): TaxSummary
  {
    var s := SalesOf(InvoicesIn(fs, start, end));
    var ret := RetencionesIva(rs, start, end);
    TaxSummary(s.ventas15, s.ventas0, s.iva, ret, Factor(s.ventas15, s.ventas0), Suggested(s.iva, ret))
  }

  /** `GetVATSummary`: read the period from the database and add it up. */
  method GetVATSummary(store: Store, start: DateTime, end: DateTime) returns (summary: TaxSummary)
    ensures summary == VatSummary(store.facturas, store.retenciones, start, end)
  {
    var facturas := InvoicesIn(store.facturas, start, end);
    var sales := SumSales(facturas);
    var totalVentas := sales.ventas15 + sales.ventas0;
    var factor: real;
    if totalVentas > 0.0 {
      factor := Round(sales.ventas15 / totalVentas, 4);
    } else {
      factor := 1.0;
    }
    var retenciones := RetencionesIva(store.retenciones, start, end);
    var res := sales.iva - retenciones;
    if res < 0.0 {
      res := 0.0;
    }
    summary := TaxSummary(sales.ventas15, sales.ventas0, sales.iva, retenciones, factor, Round(res, 2));
  }

  /**
   * Only counting invoices of the period feed the summary; without any sales the
   * factor is exactly 1; the suggested payment is never negative.
   */
  lemma SummaryFacts(fs: seq<Factura>, rs: seq<RetencionRecibida>, start: DateTime, end: DateTime)
    ensures var t := VatSummary(fs, rs, start, end);
      var s := SumAll(Counted(InvoicesIn(fs, start, end)));
      && t.ventas15 == s.ventas15 && t.ventas0 == s.ventas0 && t.ivaGenerado == s.iva
      && (t.ventas15 + t.ventas0 <= 0.0 ==> t.factorProporcion == 1.0)
      && t.impuestoSugerido >= 0.0
  {
    var s := SalesOf(InvoicesIn(fs, start, end));
    SalesAreCountedSums(InvoicesIn(fs, start, end));
    SuggestedNonNegative(s.iva, RetencionesIva(rs, start, end));
  }
}
