/**
 * The invoice being edited in the desktop front end (`invoiceStore` and
 * `invoiceTotals`): every update returns a new invoice, and the totals are
 * derived from its items without rounding.
 */
module InvoiceStore {
  import opened Wrappers
  import opened Records

  const FirstSecuencial: string := "000000001"
  const DefaultFormaPago: string := "01"

  /** The empty invoice a new session, and every reset, starts from. */
  function Initial(): (s: FacturaDTO)
    ensures s.secuencial == FirstSecuencial && s.formaPago == DefaultFormaPago && s.items == []
    ensures s.clienteID == "" && s.claveAcceso == ""
  {
    FacturaDTO(FirstSecuencial, "", "", "", "", "", "", DefaultFormaPago, "0", "dias", [], "")
  }

  /**
   * `reset(newSecuencial?)`: a fresh copy of the initial invoice, carrying the
   * given sequential when one is given and is not empty (an empty string is
   * falsy and keeps the default).
   */
  function Reset(newSecuencial: Option<string>): FacturaDTO
  {
    if newSecuencial.Some? && newSecuencial.value != "" then Initial().(secuencial := newSecuencial.value)
    else Initial()
  }

  /** The client object the form passes: e-mail and telephone may be missing. */
  datatype ClientForm = ClientForm(id: string, nombre: string, direccion: string, email: Option<string>, telefono: Option<string>)

  /** `client.Email || ""`: a missing or empty value becomes "". */
  function OrEmpty(v: Option<string>): (r: string)
    ensures v.Some? ==> r == v.value
    ensures v.None? ==> r == ""
  {
    v.GetOr("")
  }

  /**
   * `||` reads a missing value and an empty one alike: the result is empty
   * exactly for those two, and a present value is given back unchanged.
   */
  lemma OrEmptyFalsy(v: Option<string>)
    ensures OrEmpty(v) == "" <==> v == None || v == Some("")
    ensures OrEmpty(v) != "" ==> v == Some(OrEmpty(v))
  {
  }

  /** `setClient`: the client's fields replace the invoice's client fields. */
  function SetClient(s: FacturaDTO, c: ClientForm): FacturaDTO
  {
    s.(clienteID := c.id, clienteNombre := c.nombre, clienteDireccion := c.direccion,
       clienteEmail := OrEmpty(c.email), clienteTelefono := OrEmpty(c.telefono))
  }

  /** `addItem`: the item goes at the end. */
  function AddItem(s: FacturaDTO, item: InvoiceItem): FacturaDTO
  {
    s.(items := s.items + [item])
  }

  /** `filter((_, i) => i !== index)`: the items at every position but `index`, in order. */
  function WithoutIndex(items: seq<InvoiceItem>, index: int): (r: seq<InvoiceItem>)
    ensures |r| == if 0 <= index < |items| then |items| - 1 else |items|
  {
    if items == [] then []
    else WithoutIndex(items[..|items| - 1], index) + (if |items| - 1 != index then [items[|items| - 1]] else [])
  }

  /** `removeItem`. */
  function RemoveItem(s: FacturaDTO, index: int): FacturaDTO
  {
    s.(items := WithoutIndex(s.items, index))
  }

  /** `updateSecuencial`. */
  function UpdateSecuencial(s: FacturaDTO, secuencial: string): FacturaDTO
  {
    s.(secuencial := secuencial)
  }

  // ---------------------------------------------------------------- totals

  datatype Totals = Totals(subtotal: real, iva: real, total: real)

  /** A line's amount before tax. */
  function LineBase(item: InvoiceItem): real
  {
    item.cantidad * item.precio
  }

  /** A line's tax. */
  function LineIva(item: InvoiceItem): real
  {
    item.cantidad * item.precio * (item.porcentajeIVA / 100.0)
  }

  /** The first `reduce`: the amounts before tax, added from the left. */
  function Subtotal(items: seq<InvoiceItem>): real
  {
    if items == [] then 0.0 else Subtotal(items[..|items| - 1]) + LineBase(items[|items| - 1])
  }

  /** The second `reduce`: the taxes, added from the left. */
  function Iva(items: seq<InvoiceItem>): real
  {
    if items == [] then 0.0 else Iva(items[..|items| - 1]) + LineIva(items[|items| - 1])
  }

  /** `invoiceTotals`. */
  function InvoiceTotals(s: FacturaDTO): (t: Totals)
    ensures t.total == t.subtotal + t.iva
  {
    var subtotal := Subtotal(s.items);
    var iva := Iva(s.items);
    Totals(subtotal, iva, subtotal + iva)
  }

  // ---------------------------------------------------------------- properties

  /**
   * A reset forgets everything about the previous invoice: no client, no items,
   * the default payment form, and the sequential asked for or the first one.
   */
  lemma ResetState(newSecuencial: Option<string>)
    ensures var s := Reset(newSecuencial);
      && s.items == [] && s.clienteID == "" && s.formaPago == DefaultFormaPago && s.claveAcceso == ""
      && (newSecuencial.Some? && newSecuencial.value != "" ==> s.secuencial == newSecuencial.value)
      && (newSecuencial.None? || newSecuencial.value == "" ==> s == Initial())
      && s.(secuencial := FirstSecuencial) == Initial()
    ensures InvoiceTotals(Reset(newSecuencial)) == Totals(0.0, 0.0, 0.0)
  {
  }

  /** Setting a client touches only the client fields, and setting the same client again changes nothing. */
  lemma SetClientFields(s: FacturaDTO, c: ClientForm)
    ensures var r := SetClient(s, c);
      && r.clienteID == c.id && r.clienteNombre == c.nombre && r.clienteDireccion == c.direccion
      && (c.email.Some? ==> r.clienteEmail == c.email.value) && (c.email.None? ==> r.clienteEmail == "")
      && (c.telefono.Some? ==> r.clienteTelefono == c.telefono.value) && (c.telefono.None? ==> r.clienteTelefono == "")
      && r.items == s.items && r.secuencial == s.secuencial && r.formaPago == s.formaPago
      && r.observacion == s.observacion && r.claveAcceso == s.claveAcceso
      && SetClient(r, c) == r
  {
  }

  /** Adding an item appends it and changes nothing else; removing the last position undoes it. */
  lemma AddItemAppends(s: FacturaDTO, item: InvoiceItem)
    ensures var r := AddItem(s, item);
      && |r.items| == |s.items| + 1 && r.items[|s.items|] == item && r.items[..|s.items|] == s.items
      && r.(items := s.items) == s
    ensures RemoveItem(AddItem(s, item), |s.items|) == s
  {
    var items := s.items + [item];
    assert items[..|items| - 1] == s.items;
    WithoutOutOfRange(s.items, |s.items|);
  }

  /** Updating the sequential replaces it and nothing else, and repeating the update changes nothing. */
  lemma UpdateSecuencialOnly(s: FacturaDTO, secuencial: string)
    ensures var r := UpdateSecuencial(s, secuencial);
      && r.secuencial == secuencial && r.(secuencial := s.secuencial) == s
      && UpdateSecuencial(r, secuencial) == r
      && InvoiceTotals(r) == InvoiceTotals(s)
  {
  }

  /** An index that names no item leaves the items as they are. */
  lemma {:induction false} WithoutOutOfRange(items: seq<InvoiceItem>, index: int)
    requires index < 0 || index >= |items|
    ensures WithoutIndex(items, index) == items
  {
    if items != [] {
      WithoutOutOfRange(items[..|items| - 1], index);
    }
  }

  /** Filtering out one position is cutting it out: the items before it, then the items after it. */
  lemma {:induction false} WithoutIndexCuts(items: seq<InvoiceItem>, index: int)
    requires 0 <= index < |items|
    ensures WithoutIndex(items, index) == items[..index] + items[index + 1..]
  {
    var n := |items| - 1;
    var init := items[..n];
    if index == n {
      WithoutOutOfRange(init, index);
    } else {
      WithoutIndexCuts(init, index);
      assert init[..index] == items[..index];
      assert init[index + 1..] + [items[n]] == items[index + 1..];
    }
  }

  /**
   * Removing an item drops exactly that position and keeps the order of the
   * rest; an index out of range changes nothing; nothing but the items changes.
   */
  lemma RemoveItemDrops(s: FacturaDTO, index: int)
    ensures var r := RemoveItem(s, index);
      && r.(items := s.items) == s
      && (0 <= index < |s.items| ==> r.items == s.items[..index] + s.items[index + 1..])
      && (index < 0 || index >= |s.items| ==> r == s)
  {
    if 0 <= index < |s.items| {
      WithoutIndexCuts(s.items, index);
    } else {
      WithoutOutOfRange(s.items, index);
    }
  }

  lemma {:induction false} SubtotalAppend(a: seq<InvoiceItem>, b: seq<InvoiceItem>)
    ensures Subtotal(a + b) == Subtotal(a) + Subtotal(b)
    ensures Iva(a + b) == Iva(a) + Iva(b)
  {
    if b != [] {
      var n := |b| - 1;
      SubtotalAppend(a, b[..n]);
      assert (a + b)[..|a + b| - 1] == a + b[..n];
    } else {
      assert a + b == a;
    }
  }

  /** An item whose quantity, price and rate are not negative. */
  predicate NonNegativeItem(x: InvoiceItem)
  {
    x.cantidad >= 0.0 && x.precio >= 0.0 && x.porcentajeIVA >= 0.0
  }

  /**
   * With no negative quantity, price or rate, the subtotal and the VAT are not
   * negative, so the total is at least the subtotal.
   */
  lemma TotalsNonNegative(s: FacturaDTO)
    requires forall k :: 0 <= k < |s.items| ==> NonNegativeItem(s.items[k])
    ensures var t := InvoiceTotals(s);
      && 0.0 <= t.subtotal && 0.0 <= t.iva && t.subtotal <= t.total
  {
    SumsNonNegative(s.items);
  }

  lemma {:induction false} SumsNonNegative(items: seq<InvoiceItem>)
    requires forall k :: 0 <= k < |items| ==> NonNegativeItem(items[k])
    ensures 0.0 <= Subtotal(items) && 0.0 <= Iva(items)
  {
    if items != [] {
      var x := items[|items| - 1];
      SumsNonNegative(items[..|items| - 1]);
      LineNonNegative(x);
    }
  }

  lemma LineNonNegative(x: InvoiceItem)
    requires NonNegativeItem(x)
    ensures 0.0 <= LineBase(x) && 0.0 <= LineIva(x)
  {
    var base := x.cantidad * x.precio;
    assert 0.0 <= base;
    assert 0.0 <= base * (x.porcentajeIVA / 100.0);
  }

  /**
   * The totals follow the items: an added item adds its amount and its tax, a
   * removed one takes them away, and the total is always the amount plus the tax.
   */
  lemma TotalsFollowItems(s: FacturaDTO, item: InvoiceItem, index: int)
    ensures var t := InvoiceTotals(AddItem(s, item));
      && t.subtotal == InvoiceTotals(s).subtotal + LineBase(item)
      && t.iva == InvoiceTotals(s).iva + LineIva(item)
    ensures 0 <= index < |s.items| ==>
      var t := InvoiceTotals(RemoveItem(s, index));
      && t.subtotal == InvoiceTotals(s).subtotal - LineBase(s.items[index])
      && t.iva == InvoiceTotals(s).iva - LineIva(s.items[index])
  {
    SubtotalAppend(s.items, [item]);
    if 0 <= index < |s.items| {
      WithoutIndexCuts(s.items, index);
      SumsWithout(s.items, index);
    }
  }

  /** The sums over the items without position `index` are the sums over all of them less that item's. */
  lemma SumsWithout(items: seq<InvoiceItem>, index: nat)
    requires index < |items|
    ensures Subtotal(items[..index] + items[index + 1..]) == Subtotal(items) - LineBase(items[index])
    ensures Iva(items[..index] + items[index + 1..]) == Iva(items) - LineIva(items[index])
  {
    var before, x, after := items[..index], items[index], items[index + 1..];
    assert before + [x] + after == items;
    SplitSums(before, x, after);
  }

  /** The sums over `before + [x] + after`, taken apart around `x`. */
  lemma SplitSums(before: seq<InvoiceItem>, x: InvoiceItem, after: seq<InvoiceItem>)
    ensures Subtotal(before + after) == Subtotal(before + [x] + after) - LineBase(x)
    ensures Iva(before + after) == Iva(before + [x] + after) - LineIva(x)
  {
    SubtotalAppend(before, after);
    SubtotalAppend(before + [x], after);
    SubtotalAppend(before, [x]);
    SingleSums(x);
  }

  /** A one-item list sums to that item's amount and tax. */
  lemma SingleSums(x: InvoiceItem)
    ensures Subtotal([x]) == LineBase(x) && Iva([x]) == LineIva(x)
  {
    assert [x][..0] == [];
  }
}
