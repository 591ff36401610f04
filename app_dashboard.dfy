/**
 * `App.GetDashboardStats` (`app.go`): over the invoices emitted between two
 * days, the number of invoices, the sum of the positive totals, the number of
 * invoices whose SRI state is neither authorised, cancelled nor empty, and a
 * daily sales trend of at most 32 points starting on the first day.
 *
 * The per-day totals are kept by calendar day; `DayKeysAgree` shows that this
 * is the same as keying them by the "2006-01-02" text, as the source does.
 */
module Dashboard {
  import opened Wrappers
  import opened Text
  import opened Dates
  import opened Records
  import TaxService

  const Autorizado: string := "AUTORIZADO"
  const Anulado: string := "ANULADO"
  /** The trend covers at most this many days after the first one. */
  const MaxTrendDays: int := 31
  /** The date of Go's zero `time.Time`, which a failed `time.Parse` returns. */
  const ZeroDate: Date := Date(1, 1, 1)

  /** One point of the trend; `DateText` is the "date" field. */
  datatype DailySale = DailySale(day: Date, total: real)
  {
    function DateText(): string
    {
      FormatIsoDate(day)
    }
  }

  datatype DashboardStats = DashboardStats(
    totalFacturas: int,
    totalVentas: real,
    pendientes: int,
    sriOnline: bool,
    salesTrend: seq<DailySale>)

  /** `time.Parse("2006-01-02", s)` with the error dropped. */
  function DayOf(s: string): (d: Date)
    ensures ValidDate(d)
  {
    ParseIsoDate(s).GetOr(ZeroDate)
  }

  /** An invoice with a positive total counts as a sale, whatever its state. */
  predicate Sale(f: Factura)
  {
    f.total > 0.0
  }

  /** The state, trimmed and in capitals, is something other than authorised, cancelled or empty. */
  predicate Pending(f: Factura)
  {
    var estado := ToUpper(TrimSpace(f.estadoSRI));
    estado != Autorizado && estado != Anulado && estado != ""
  }

  function SalesTotal(fs: seq<Factura>): (r: real)
    ensures r >= 0.0
  {
    if fs == [] then 0.0
    else SalesTotal(fs[..|fs| - 1]) + (if Sale(fs[|fs| - 1]) then fs[|fs| - 1].total else 0.0)
  }

  function PendingCount(fs: seq<Factura>): (r: nat)
    ensures r <= |fs|
  {
    if fs == [] then 0
    else PendingCount(fs[..|fs| - 1]) + (if Pending(fs[|fs| - 1]) then 1 else 0)
  }

  /** The sales of one calendar day. */
  function DayTotal(fs: seq<Factura>, day: Date): (r: real)
    ensures 0.0 <= r <= SalesTotal(fs)
  {
    if fs == [] then 0.0
    else
      var f := fs[|fs| - 1];
      DayTotal(fs[..|fs| - 1], day) + (if Sale(f) && f.fechaEmision.date == day then f.total else 0.0)
  }

  /**
   * `int(end.Sub(start).Hours() / 24)` with `end` at 23:59:59 of its day,
   * capped at 31: the whole days between the two dates, truncated towards zero
   * (so an end one day before the start still gives 0).
   */
  function TrendDays(start: Date, end: Date): int
    requires ValidDate(start) && ValidDate(end)
  {
    var d := DayNumber(end) - DayNumber(start);
    var days := if d >= 0 then d else d + 1;
    if days > MaxTrendDays then MaxTrendDays else days
  }

  /** The first `n` points of the trend. */
  function TrendUpTo(fs: seq<Factura>, start: Date, n: nat): (r: seq<DailySale>)
    requires ValidDate(start)
    ensures |r| == n
  {
    if n == 0 then [] else TrendUpTo(fs, start, n - 1) + [Point(fs, start, n - 1)]
  }

  /** The point `i` days after the first day: that day with its sales. */
  function Point(fs: seq<Factura>, start: Date, i: nat): DailySale
    requires ValidDate(start)
  {
    var day := AddDays(start, i);
    DailySale(day, DayTotal(fs, day))
  }

  /** One point per day from the first day to `days` days later, none when `days` is negative. */
  function Trend(fs: seq<Factura>, start: Date, days: int): seq<DailySale>
    requires ValidDate(start)
  {
    if days < 0 then [] else TrendUpTo(fs, start, days + 1)
  }

  /** The invoices of the period: from 00:00:00 of the first day to 23:59:59 of the last. */
  function PeriodInvoices(all: seq<Factura>, start: Date, end: Date): seq<Factura>
  {
    TaxService.InvoicesIn(all, DateTime(start, 0, 0, 0), DateTime(end, 23, 59, 59))
  }

  /** The statistics as a specification. */
  function Stats(all: seq<Factura>, startStr: string, endStr: string): DashboardStats
  {
    var start := DayOf(startStr);
    var end := DayOf(endStr);
    var fs := PeriodInvoices(all, start, end);
    DashboardStats(|fs|, SalesTotal(fs), PendingCount(fs), true, Trend(fs, start, TrendDays(start, end)))
  }

  /** Go's read of a missing map key: zero. */
  function TotalOf(trend: map<Date, real>, day: Date): real
  {
    if day in trend then trend[day] else 0.0
  }

  /** `ventas`, `pendientes` and `trendMap` hold the sales, the pending count and the per-day sales of `fs`. */
  ghost predicate Accumulated(fs: seq<Factura>, ventas: real, pendientes: int, trendMap: map<Date, real>)
  {
    && ventas == SalesTotal(fs) && pendientes == PendingCount(fs)
    && forall day :: TotalOf(trendMap, day) == DayTotal(fs, day)
  }

  /** The loop over the invoices: the sales, the per-day sales and the pending count. */
  method Accumulate(facturas: seq<Factura>) returns (ventas: real, pendientes: int, trendMap: map<Date, real>)
    ensures ventas == SalesTotal(facturas) && pendientes == PendingCount(facturas)
    ensures forall day :: TotalOf(trendMap, day) == DayTotal(facturas, day)
  {
    ventas, pendientes, trendMap := 0.0, 0, map[];
    assert facturas[..0] == [];
    for i := 0 to |facturas|
      invariant Accumulated(facturas[..i], ventas, pendientes, trendMap)
    {
      var v, p, m := AddInvoice(facturas[i], ventas, pendientes, trendMap);
      AccumulatedStep(facturas, i, ventas, pendientes, trendMap, v, p, m);
      ventas, pendientes, trendMap := v, p, m;
    }
    assert facturas[..|facturas|] == facturas;
  }

  /** Taking in invoice `i` as `AddInvoice` does extends the totals of the first `i` invoices to the first `i + 1`. */
  lemma AccumulatedStep(fs: seq<Factura>, i: nat, ventas: real, pendientes: int, trendMap: map<Date, real>,
                        ventas': real, pendientes': int, trendMap': map<Date, real>)
    requires i < |fs| && Accumulated(fs[..i], ventas, pendientes, trendMap)
    requires ventas' == ventas + (if Sale(fs[i]) then fs[i].total else 0.0)
    requires pendientes' == pendientes + (if Pending(fs[i]) then 1 else 0)
    requires forall day ::
      TotalOf(trendMap', day) == TotalOf(trendMap, day) + (if Sale(fs[i]) && fs[i].fechaEmision.date == day then fs[i].total else 0.0)
    ensures Accumulated(fs[..i + 1], ventas', pendientes', trendMap')
  {
    CountersStep(fs, i);
    DaySalesAfter(fs, i, trendMap, trendMap');
  }

  /** A per-day map that held the sales of the first `i` invoices and took in invoice `i` holds those of the first `i + 1`. */
  lemma DaySalesAfter(fs: seq<Factura>, i: nat, before: map<Date, real>, after: map<Date, real>)
    requires i < |fs|
    requires forall day :: TotalOf(before, day) == DayTotal(fs[..i], day)
    requires forall day ::
      TotalOf(after, day) == TotalOf(before, day) + (if Sale(fs[i]) && fs[i].fechaEmision.date == day then fs[i].total else 0.0)
    ensures forall day :: TotalOf(after, day) == DayTotal(fs[..i + 1], day)
  {
    forall day
      ensures TotalOf(after, day) == DayTotal(fs[..i + 1], day)
    {
      DaySalesStep(fs, i, day);
    }
  }

  /** One turn of that loop: a sale adds to the sales and to its day, a pending state to the count. */
  method AddInvoice(f: Factura, ventas: real, pendientes: int, trendMap: map<Date, real>)
    returns (ventas': real, pendientes': int, trendMap': map<Date, real>)
    ensures ventas' == ventas + (if Sale(f) then f.total else 0.0)
    ensures pendientes' == pendientes + (if Pending(f) then 1 else 0)
    ensures forall day ::
      TotalOf(trendMap', day) == TotalOf(trendMap, day) + (if Sale(f) && f.fechaEmision.date == day then f.total else 0.0)
  {
    ventas', pendientes', trendMap' := ventas, pendientes, trendMap;
    if f.total > 0.0 {
      ventas' := ventas' + f.total;
      var day := f.fechaEmision.date;
      trendMap' := trendMap'[day := TotalOf(trendMap', day) + f.total];
    }
    var estado := ToUpper(TrimSpace(f.estadoSRI));
    if estado != Autorizado && estado != Anulado && estado != "" {
      pendientes' := pendientes' + 1;
    }
  }

  /** The loop that lays out the trend, one point per day. */
  method LayOutTrend(facturas: seq<Factura>, trendMap: map<Date, real>, start: Date, days: int) returns (salesTrend: seq<DailySale>)
    requires ValidDate(start)
    requires forall day :: TotalOf(trendMap, day) == DayTotal(facturas, day)
    ensures salesTrend == Trend(facturas, start, days)
  {
    salesTrend := [];
    var i := 0;
    while i <= days
      invariant 0 <= i <= if days >= 0 then days + 1 else 0
      invariant salesTrend == TrendUpTo(facturas, start, i)
      decreases days + 1 - i
    {
      var day := AddDays(start, i);
      salesTrend := salesTrend + [DailySale(day, TotalOf(trendMap, day))];
      i := i + 1;
    }
  }

  /** One more invoice adds its total to the sales of its own day, and only when it is a sale. */
  lemma DaySalesStep(fs: seq<Factura>, i: nat, day: Date)
    requires i < |fs|
    ensures DayTotal(fs[..i + 1], day) ==
      DayTotal(fs[..i], day) + (if Sale(fs[i]) && fs[i].fechaEmision.date == day then fs[i].total else 0.0)
  {
    assert fs[..i + 1][..i] == fs[..i];
  }

  /** One more invoice adds its total to the sales when it is a sale, and one to the pending count when it is pending. */
  lemma CountersStep(fs: seq<Factura>, i: nat)
    requires i < |fs|
    ensures SalesTotal(fs[..i + 1]) == SalesTotal(fs[..i]) + (if Sale(fs[i]) then fs[i].total else 0.0)
    ensures PendingCount(fs[..i + 1]) == PendingCount(fs[..i]) + (if Pending(fs[i]) then 1 else 0)
  {
    assert fs[..i + 1][..i] == fs[..i];
  }

  /** `GetDashboardStats` against its specification. */
  method GetDashboardStats(store: Store, startStr: string, endStr: string) returns (stats: DashboardStats)
    ensures stats == Stats(store.facturas, startStr, endStr)
  {
    var start := DayOf(startStr);
    var end := DayOf(endStr);
    var facturas := PeriodInvoices(store.facturas, start, end);
    var ventas, pendientes, trendMap := Accumulate(facturas);
    var days := TrendDays(start, end);
    var salesTrend := LayOutTrend(facturas, trendMap, start, days);
    stats := DashboardStats(|facturas|, ventas, pendientes, true, salesTrend);
  }

  // ---------------------------------------------------------------- properties

  /** Point `i` of the trend is the `i`-th day after the first, with that day's sales. */
  lemma {:induction false} TrendAt(fs: seq<Factura>, start: Date, n: nat, i: nat)
    requires ValidDate(start) && i < n
    ensures TrendUpTo(fs, start, n)[i] == Point(fs, start, i)
  {
    var prev := TrendUpTo(fs, start, n - 1);
    assert TrendUpTo(fs, start, n) == prev + [Point(fs, start, n - 1)];
    if i < n - 1 {
      TrendAt(fs, start, n - 1, i);
      assert TrendUpTo(fs, start, n)[i] == prev[i];
    }
  }

  /**
   * A trend of at most 32 points, one per day from `start` on, each holding
   * that day's sales, which never exceed the sales of the whole period.
   */
  predicate DailyTrend(trend: seq<DailySale>, fs: seq<Factura>, start: Date)
    requires ValidDate(start)
  {
    && |trend| <= MaxTrendDays + 1
    && forall i :: 0 <= i < |trend| ==>
         && ValidDate(trend[i].day) && DayNumber(trend[i].day) == DayNumber(start) + i
         && trend[i].total == DayTotal(fs, trend[i].day)
         && 0.0 <= trend[i].total <= SalesTotal(fs)
  }

  lemma TrendShape(fs: seq<Factura>, start: Date, end: Date)
    requires ValidDate(start) && ValidDate(end)
    ensures DailyTrend(Trend(fs, start, TrendDays(start, end)), fs, start)
  {
    var days := TrendDays(start, end);
    if days >= 0 {
      var trend := TrendUpTo(fs, start, days + 1);
      forall i | 0 <= i < |trend|
        ensures ValidDate(trend[i].day) && DayNumber(trend[i].day) == DayNumber(start) + i
        ensures trend[i].total == DayTotal(fs, trend[i].day)
      {
        TrendAt(fs, start, days + 1, i);
      }
    }
  }

  /**
   * The dashboard counts every invoice of the period, never more pending ones
   * than invoices, and never negative sales; the trend is a `DailyTrend` of the
   * period's invoices from the first day.
   */
  lemma StatsShape(all: seq<Factura>, startStr: string, endStr: string)
    ensures var s := Stats(all, startStr, endStr);
      var start := DayOf(startStr);
      var fs := PeriodInvoices(all, start, DayOf(endStr));
      && s.totalFacturas == |fs| <= |all|
      && 0 <= s.pendientes <= s.totalFacturas
      && s.totalVentas == SalesTotal(fs) >= 0.0
      && s.sriOnline
      && DailyTrend(s.salesTrend, fs, start)
  {
    TrendShape(PeriodInvoices(all, DayOf(startStr), DayOf(endStr)), DayOf(startStr), DayOf(endStr));
  }

  /** The sales the trend shows, added up. */
  function TrendSales(trend: seq<DailySale>): real
  {
    if trend == [] then 0.0 else TrendSales(trend[..|trend| - 1]) + trend[|trend| - 1].total
  }

  /** The days of a trend, in order. */
  function TrendDates(trend: seq<DailySale>): (ds: seq<Date>)
    ensures |ds| == |trend| && forall k :: 0 <= k < |ds| ==> ds[k] == trend[k].day
  {
    if trend == [] then [] else TrendDates(trend[..|trend| - 1]) + [trend[|trend| - 1].day]
  }

  /** The sales of the days `ds`, added up. */
  function DaysSales(fs: seq<Factura>, ds: seq<Date>): real
  {
    if ds == [] then 0.0 else DaysSales(fs, ds[..|ds| - 1]) + DayTotal(fs, ds[|ds| - 1])
  }

  predicate Distinct(ds: seq<Date>)
  {
    forall k, l :: 0 <= k < l < |ds| ==> ds[k] != ds[l]
  }

  /** A trend whose points hold their days' sales shows the sales of its days. */
  lemma {:induction false} TrendSalesByDay(trend: seq<DailySale>, fs: seq<Factura>)
    requires forall k :: 0 <= k < |trend| ==> trend[k].total == DayTotal(fs, trend[k].day)
    ensures TrendSales(trend) == DaysSales(fs, TrendDates(trend))
  {
    if trend != [] {
      var init := trend[..|trend| - 1];
      TrendSalesByDay(init, fs);
      assert TrendDates(trend)[..|trend| - 1] == TrendDates(init);
    }
  }

  lemma {:induction false} DaysSalesNone(ds: seq<Date>)
    ensures DaysSales([], ds) == 0.0
  {
    if ds != [] {
      DaysSalesNone(ds[..|ds| - 1]);
    }
  }

  /** One more invoice adds its total to the sales of distinct days once if its day is among them, not at all otherwise. */
  lemma {:induction false} DaysSalesStep(fs: seq<Factura>, ds: seq<Date>)
    requires fs != [] && Distinct(ds)
    ensures var f := fs[|fs| - 1];
      DaysSales(fs, ds) == DaysSales(fs[..|fs| - 1], ds) + (if Sale(f) && f.fechaEmision.date in ds then f.total else 0.0)
  {
    if ds != [] {
      var init := ds[..|ds| - 1];
      DaysSalesStep(fs, init);
      var f := fs[|fs| - 1];
      assert f.fechaEmision.date in ds <==> f.fechaEmision.date in init || f.fechaEmision.date == ds[|ds| - 1] by {
        assert ds == init + [ds[|ds| - 1]];
      }
      assert ds[|ds| - 1] !in init;
    }
  }

  /**
   * The sales of distinct days never exceed the total, and are the total when
   * every sale falls on one of those days.
   */
  lemma {:induction false} DaysSalesBound(fs: seq<Factura>, ds: seq<Date>)
    requires Distinct(ds)
    ensures DaysSales(fs, ds) <= SalesTotal(fs)
    ensures (forall j :: 0 <= j < |fs| && Sale(fs[j]) ==> fs[j].fechaEmision.date in ds) ==> DaysSales(fs, ds) == SalesTotal(fs)
  {
    if fs == [] {
      DaysSalesNone(ds);
    } else {
      var init := fs[..|fs| - 1];
      DaysSalesStep(fs, ds);
      DaysSalesBound(init, ds);
      assert forall j :: 0 <= j < |init| ==> init[j] == fs[j];
    }
  }

  /** An invoice of the period falls on a day from the first to the last. */
  lemma PeriodDays(f: Factura, start: Date, end: Date)
    requires ValidDate(start) && ValidDate(end) && ValidDate(f.fechaEmision.date)
    requires InPeriod(f.fechaEmision, DateTime(start, 0, 0, 0), DateTime(end, 23, 59, 59))
    ensures DayNumber(start) <= DayNumber(f.fechaEmision.date) <= DayNumber(end)
  {
    var d := f.fechaEmision.date;
    if DateBefore(start, d) {
      DayNumberOrder(start, d);
    }
    if DateBefore(d, end) {
      DayNumberOrder(d, end);
    }
  }

  /** The days of a daily trend are distinct. */
  lemma DailyTrendDistinct(trend: seq<DailySale>, fs: seq<Factura>, start: Date)
    requires ValidDate(start) && DailyTrend(trend, fs, start)
    ensures Distinct(TrendDates(trend))
  {
    var ds := TrendDates(trend);
    forall k, l | 0 <= k < l < |ds|
      ensures ds[k] != ds[l]
    {
      assert DayNumber(ds[k]) != DayNumber(ds[l]);
    }
  }

  /** The trend never shows more than the sales of the invoices it is drawn from. */
  lemma TrendWithinSales(fs: seq<Factura>, start: Date, end: Date)
    requires ValidDate(start) && ValidDate(end)
    ensures TrendSales(Trend(fs, start, TrendDays(start, end))) <= SalesTotal(fs)
  {
    var trend := Trend(fs, start, TrendDays(start, end));
    TrendShape(fs, start, end);
    TrendSalesByDay(trend, fs);
    DailyTrendDistinct(trend, fs, start);
    DaysSalesBound(fs, TrendDates(trend));
  }

  /** Over the invoices of a period of at most 32 days, every sale falls on a day of the trend. */
  lemma SalesOnTrendDays(fs: seq<Factura>, start: Date, end: Date)
    requires ValidDate(start) && ValidDate(end)
    requires 0 <= DayNumber(end) - DayNumber(start) <= MaxTrendDays
    requires forall j :: 0 <= j < |fs| ==>
      ValidDate(fs[j].fechaEmision.date) && InPeriod(fs[j].fechaEmision, DateTime(start, 0, 0, 0), DateTime(end, 23, 59, 59))
    ensures var ds := TrendDates(Trend(fs, start, TrendDays(start, end)));
      forall j :: 0 <= j < |fs| ==> fs[j].fechaEmision.date in ds
  {
    var ds := TrendDates(Trend(fs, start, TrendDays(start, end)));
    TrendShape(fs, start, end);
    forall j | 0 <= j < |fs|
      ensures fs[j].fechaEmision.date in ds
    {
      var d := fs[j].fechaEmision.date;
      PeriodDays(fs[j], start, end);
      var k := DayNumber(d) - DayNumber(start);
      DayNumberInjective(d, ds[k]);
    }
  }

  /** Over the invoices of a period of at most 32 days, the trend shows all their sales. */
  lemma TrendCoversPeriod(fs: seq<Factura>, start: Date, end: Date)
    requires ValidDate(start) && ValidDate(end)
    requires 0 <= DayNumber(end) - DayNumber(start) <= MaxTrendDays
    requires forall j :: 0 <= j < |fs| ==>
      ValidDate(fs[j].fechaEmision.date) && InPeriod(fs[j].fechaEmision, DateTime(start, 0, 0, 0), DateTime(end, 23, 59, 59))
    ensures TrendSales(Trend(fs, start, TrendDays(start, end))) == SalesTotal(fs)
  {
    var trend := Trend(fs, start, TrendDays(start, end));
    TrendShape(fs, start, end);
    TrendSalesByDay(trend, fs);
    DailyTrendDistinct(trend, fs, start);
    SalesOnTrendDays(fs, start, end);
    DaysSalesBound(fs, TrendDates(trend));
  }

  /**
   * The trend never shows more than the period's sales, and shows all of them
   * when the period spans at most 32 days (the source's cap) and ends no
   * earlier than it starts.
   */
  lemma TrendAccountsForSales(all: seq<Factura>, startStr: string, endStr: string)
    requires forall j :: 0 <= j < |all| ==> ValidDate(all[j].fechaEmision.date)
    ensures var s := Stats(all, startStr, endStr);
      TrendSales(s.salesTrend) <= s.totalVentas
    ensures var s := Stats(all, startStr, endStr);
      var start := DayOf(startStr);
      var end := DayOf(endStr);
      0 <= DayNumber(end) - DayNumber(start) <= MaxTrendDays ==> TrendSales(s.salesTrend) == s.totalVentas
  {
    var start := DayOf(startStr);
    var end := DayOf(endStr);
    var fs := PeriodInvoices(all, start, end);
    TrendWithinSales(fs, start, end);
    if 0 <= DayNumber(end) - DayNumber(start) <= MaxTrendDays {
      TrendCoversPeriod(fs, start, end);
    }
  }

  /**
   * Keying the per-day sales by the day's "2006-01-02" text, as the source does,
   * is keying them by the day itself, for the years that layout can express.
   */
  lemma DayKeysAgree(a: Date, b: Date)
    requires ValidDate(a) && 0 <= a.year <= 9999
    requires ValidDate(b) && 0 <= b.year <= 9999
    ensures FormatIsoDate(a) == FormatIsoDate(b) <==> a == b
  {
    ParseFormatIsoDate(a);
    ParseFormatIsoDate(b);
  }
}
