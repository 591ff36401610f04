/**
 * `ProductService.ImportProductsFromCSV` (`internal/service/product_service.go`):
 * rows of SKU, Nombre, Precio, Stock, CodigoImpuesto, PorcentajeIVA, Barcode,
 * AuxiliaryCode, MinStock, ExpiryDate, Location upserted into the products
 * table by SKU.
 */
module ProductService {
  import opened Wrappers
  import opened Text
  import opened Dates
  import opened Records
  import opened Upsert
  import opened CsvImport
  import opened Strconv

  /** A first row holding one of these cells (lower-cased, not trimmed) is a header. */
  const ProductHeaderWords: set<string> := {"sku", "nombre", "name"}

  /** The values of the optional columns a shorter row leaves out. */
  const DefaultTaxCode: int := 2
  const DefaultTaxPercentage: int := 15

  /** The value of an integer column: `Atoi` of the raw cell, not trimmed, or the default when the row is shorter. */
  function IntCell(row: Row, i: nat, default: int): int
  {
    if |row| > i then AtoiValue(row[i]) else default
  }

  /** The expiry date: only a non-empty cell that reads as YYYY-MM-DD. */
  function ExpiryOf(row: Row): Option<Date>
  {
    var cell := Cell(row, 9);
    if cell == "" then None else ParseIsoDate(cell)
  }

  /** The product a row describes, or `None` for a row the import skips. */
  function ProductOf(row: Row): Option<Product>
  {
    if |row| < 3 then None
    else
      var sku := Cell(row, 0);
      var name := Cell(row, 1);
      if sku == "" || name == "" then None
      else
        Some(Product(sku, name, ParseFloatValue(ReplaceAllChar(row[2], ',', '.')),
          IntCell(row, 3, 0), IntCell(row, 4, DefaultTaxCode), IntCell(row, 5, DefaultTaxPercentage),
          Cell(row, 6), Cell(row, 7), IntCell(row, 8, 0), ExpiryOf(row), Cell(row, 10)))
  }

  /**
   * A row is imported exactly when it has at least three cells and a non-blank
   * SKU and name. The price is the third cell with a decimal comma read as a
   * point, 0 when it does not read as a number; a row of three cells gets stock
   * 0, tax code 2 and 15 %; an expiry date is set only from a real calendar day.
   */
  lemma ProductOfRow(row: Row)
    ensures ProductOf(row).Some? <==> |row| >= 3 && TrimSpace(row[0]) != "" && TrimSpace(row[1]) != ""
    ensures ProductOf(row).Some? ==>
      var p := ProductOf(row).value;
      && p.sku == TrimSpace(row[0]) && p.name == TrimSpace(row[1])
      && p.price == ParseFloatValue(ReplaceAllChar(row[2], ',', '.'))
      && (|row| == 3 ==> p.stock == 0 && p.taxCode == DefaultTaxCode && p.taxPercentage == DefaultTaxPercentage)
      && MinInt <= p.stock <= MaxInt && MinInt <= p.minStock <= MaxInt
      && (p.expiryDate.Some? ==> |row| > 9 && ValidDate(p.expiryDate.value) && ParseIsoDate(TrimSpace(row[9])) == p.expiryDate)
  {
  }

  /** The body of the import loop up to the upsert: read the cells, apply the defaults, skip the row. */
  method ParseProductRow(record: Row) returns (parsed: Option<Product>)
    ensures parsed == ProductOf(record)
  {
    if |record| < 3 {
      return None;
    }
    var sku := TrimSpace(record[0]);
    var name := TrimSpace(record[1]);
    var price := ParseFloatValue(ReplaceAllChar(record[2], ',', '.'));
    var stock := 0;
    if |record| > 3 {
      stock := AtoiValue(record[3]);
    }
    var taxCode := DefaultTaxCode;
    if |record| > 4 {
      taxCode := AtoiValue(record[4]);
    }
    var taxPercentage := DefaultTaxPercentage;
    if |record| > 5 {
      taxPercentage := AtoiValue(record[5]);
    }
    var barcode, auxCode, location := "", "", "";
    var minStock := 0;
    var expiryDate: Option<Date> := None;
    if |record| > 6 {
      barcode := TrimSpace(record[6]);
    }
    if |record| > 7 {
      auxCode := TrimSpace(record[7]);
    }
    if |record| > 8 {
      minStock := AtoiValue(record[8]);
    }
    if |record| > 9 {
      var expiryStr := TrimSpace(record[9]);
      if expiryStr != "" {
        expiryDate := ParseIsoDate(expiryStr);
      }
    }
    if |record| > 10 {
      location := TrimSpace(record[10]);
    }
    if sku == "" || name == "" {
      return None;
    }
    assert sku == Cell(record, 0) && name == Cell(record, 1);
    assert stock == IntCell(record, 3, 0) && taxCode == IntCell(record, 4, DefaultTaxCode);
    assert taxPercentage == IntCell(record, 5, DefaultTaxPercentage) && minStock == IntCell(record, 8, 0);
    assert barcode == Cell(record, 6) && auxCode == Cell(record, 7) && location == Cell(record, 10);
    assert expiryDate == ExpiryOf(record);
    return Some(Product(sku, name, price, stock, taxCode, taxPercentage, barcode, auxCode, minStock, expiryDate, location));
  }

  // ---------------------------------------------------------------- the upsert

  const BlankProduct: Product := Product("", "", 0.0, 0, 0, 0, "", "", 0, None, "")

  /**
   * `Updates(product)` on a stored product: a field of the row replaces the
   * stored one unless it is the zero value of its type (an empty string, 0, no date).
   */
  function MergeProduct(stored: Product, p: Product): Product
  {
    Product(
      if p.sku != "" then p.sku else stored.sku,
      if p.name != "" then p.name else stored.name,
      if p.price != 0.0 then p.price else stored.price,
      if p.stock != 0 then p.stock else stored.stock,
      if p.taxCode != 0 then p.taxCode else stored.taxCode,
      if p.taxPercentage != 0 then p.taxPercentage else stored.taxPercentage,
      if p.barcode != "" then p.barcode else stored.barcode,
      if p.auxiliaryCode != "" then p.auxiliaryCode else stored.auxiliaryCode,
      if p.minStock != 0 then p.minStock else stored.minStock,
      if p.expiryDate.Some? then p.expiryDate else stored.expiryDate,
      if p.location != "" then p.location else stored.location)
  }

  /** The product merge is an override, and creating a product is merging it into the blank one. */
  lemma MergeProductIsOverride()
    ensures IsOverride(MergeProduct, BlankProduct)
  {
  }

  /** The products of the valid rows, keyed by their SKU, in row order. */
  function ProductItems(rows: seq<Row>): (r: seq<(string, Product)>)
    ensures |r| <= |rows|
    ensures forall i :: 0 <= i < |r| ==> r[i].0 == r[i].1.sku
  {
    if rows == [] then []
    else
      var prev := ProductItems(rows[..|rows| - 1]);
      match ProductOf(rows[|rows| - 1])
      case None => prev
      case Some(p) => prev + [(p.sku, p)]
  }

  lemma ProductItemsStep(rows: seq<Row>, i: nat)
    requires i < |rows|
    ensures ProductItems(rows[..i + 1]) == ProductItems(rows[..i]) + match ProductOf(rows[i])
      case None => []
      case Some(p) => [(p.sku, p)]
  {
    assert rows[..i + 1][..i] == rows[..i];
  }

  /** The whole import as a specification: the new products table, the count returned and the error. */
  function ImportProducts(products: map<string, Product>, outcomes: seq<ReadOutcome>): Imported<Product>
  {
    match RowsToProcess(outcomes, ProductHeaderWords)
    case Err(e) => Imported(products, 0, Some(e))
    case Ok(rows) =>
      var items := ProductItems(rows);
      Imported(Apply(products, items, MergeProduct, BlankProduct), |items|, None)
  }

  /** The import against its specification. */
  method ImportProductsFromCSV(store: Store, outcomes: seq<ReadOutcome>) returns (count: nat, err: Option<string>)
    modifies store`products
    ensures Imported(store.products, count, err) == ImportProducts(old(store.products), outcomes)
  {
    var read := ReadRows(outcomes, ProductHeaderWords);
    if read.Err? {
      return 0, Some(read.error);
    }
    var rows := read.value;
    count := 0;
    for i := 0 to |rows|
      invariant store.products == Apply(old(store.products), ProductItems(rows[..i]), MergeProduct, BlankProduct)
      invariant count == |ProductItems(rows[..i])|
    {
      var parsed := ParseProductRow(rows[i]);
      ProductItemsStep(rows, i);
      if parsed.None? {
        assert ProductItems(rows[..i]) + [] == ProductItems(rows[..i]);
      } else {
        var product := parsed.value;
        assert ProductItems(rows[..i + 1]) == ProductItems(rows[..i]) + [(product.sku, product)];
        ApplyStep(old(store.products), ProductItems(rows[..i]), MergeProduct, BlankProduct, product.sku, product);
        var saved: Product;
        if product.sku in store.products {
          saved := MergeProduct(store.products[product.sku], product);
        } else {
          saved := product;
          assert MergeProduct(BlankProduct, product) == product;
        }
        assert saved == MergeProduct(Get(store.products, product.sku, BlankProduct), product);
        store.products := store.products[product.sku := saved];
        count := count + 1;
      }
    }
    assert rows[..|rows|] == rows;
    err := None;
  }

  /**
   * A read error changes nothing and returns 0; otherwise every product whose
   * SKU no valid row names is kept as it was, the table gains exactly the SKUs
   * of the valid rows, each of those holds the stored product merged with the
   * rows' own combined record, and the count is the number of valid rows.
   */
  lemma ImportProductsOutcome(products: map<string, Product>, outcomes: seq<ReadOutcome>)
    ensures var r := ImportProducts(products, outcomes);
      && (r.err.Some? ==> r.table == products && r.count == 0)
      && (r.err.None? ==>
            var items := ProductItems(RowsToProcess(outcomes, ProductHeaderWords).value);
            var combined := Apply(map[], items, MergeProduct, BlankProduct);
            && r.count == |items| <= |outcomes|
            && r.table.Keys == products.Keys + combined.Keys
            && (forall k :: k in products && k !in combined ==> r.table[k] == products[k])
            && (forall k :: k in combined ==> r.table[k] == MergeProduct(Get(products, k, BlankProduct), combined[k])))
  {
    var r := ImportProducts(products, outcomes);
    if r.err.None? {
      var rows := RowsToProcess(outcomes, ProductHeaderWords).value;
      RowsToProcessOutcome(outcomes, ProductHeaderWords);
      MergeProductIsOverride();
      ApplyIsPatch(products, ProductItems(rows), MergeProduct, BlankProduct);
    }
  }

  /** Importing the same file a second time leaves the products as the first import left them, and reports the same count. */
  lemma ReimportProducts(products: map<string, Product>, outcomes: seq<ReadOutcome>)
    ensures var once := ImportProducts(products, outcomes);
      ImportProducts(once.table, outcomes) == once
  {
    var once := ImportProducts(products, outcomes);
    if once.err.None? {
      MergeProductIsOverride();
      Reapply(products, ProductItems(RowsToProcess(outcomes, ProductHeaderWords).value), MergeProduct, BlankProduct);
    }
  }

  /**
   * A row that leaves a number at zero (or unreadable, or out of the row) does
   * not reset the stored one: `Updates` skips zero fields, so an update can
   * never clear a stock, a price or an expiry date.
   */
  lemma UpdateKeepsZeroFields(stored: Product, p: Product)
    ensures var r := MergeProduct(stored, p);
      && (p.stock == 0 ==> r.stock == stored.stock)
      && (p.price == 0.0 ==> r.price == stored.price)
      && (p.expiryDate.None? ==> r.expiryDate == stored.expiryDate)
      && (stored.stock != 0 ==> r.stock != 0)
  {
  }
}
