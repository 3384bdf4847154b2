/** The line items of the invoice editor and the totals drawn from them
    (`addItem`, `deleteItem`, `updateItem`, and `subtotal`, `taxAmount`,
    `total` in src/components/portal/InvoiceView.tsx).  Amounts are exact
    rationals; `Number(value)` of an input is a parameter. */
module InvoiceItems {
  import opened Numbers
  import Seqs

  datatype Item = Item(desc: string, qty: real, rate: real, details: string)

  /** The row `addItem` appends. */
  const NewItem: Item := Item("", 1.0, 0.0, "")

  /** `item.qty * item.rate`. */
  function Amount(item: Item): real
  {
    item.qty * item.rate
  }

  /** `items.reduce((sum, item) => sum + item.qty * item.rate, 0)`. */
  function Subtotal(items: seq<Item>): real
  {
    Seqs.Sum(items, Amount)
  }

  /** `subtotal * (taxRate / 100)`. */
  function TaxAmount(subtotal: real, taxRate: real): (tax: real)
    ensures taxRate == 0.0 ==> tax == 0.0
    ensures 0.0 <= subtotal && 0.0 <= taxRate ==> 0.0 <= tax
  {
    subtotal * (taxRate / 100.0)
  }

  /** `Math.round(subtotal + taxAmount)`: within half a rupee of the exact
      sum, and the tax of a zero rate adds nothing. */
  function Total(items: seq<Item>, taxRate: real): (t: int)
    ensures var exact := Subtotal(items) + TaxAmount(Subtotal(items), taxRate);
            exact - 0.5 < t as real <= exact + 0.5
    ensures taxRate == 0.0 ==> t == Round(Subtotal(items))
  {
    Round(Subtotal(items) + TaxAmount(Subtotal(items), taxRate))
  }

  /** The list after `addItem`. */
  function Added(items: seq<Item>): (r: seq<Item>)
    ensures |r| == |items| + 1 && r[..|items|] == items && r[|items|] == NewItem
  {
    items + [NewItem]
  }

  /** The new row is worth nothing: adding one leaves the subtotal as it
      was. */
  lemma AddedSubtotal(items: seq<Item>)
    ensures Subtotal(Added(items)) == Subtotal(items)
  {
    Seqs.SumSnoc(items, NewItem, Amount);
  }

  /** The list after `deleteItem(index)`. */
  function DeletedAt(items: seq<Item>, index: int): (r: seq<Item>)
    ensures 0 <= index < |items| ==> r == items[..index] + items[index + 1..]
    ensures !(0 <= index < |items|) ==> r == items
  {
    Seqs.WithoutIndex(items, index)
  }

  /** Deleting removes exactly position `index`: one row fewer, the rows
      before it in place, the rows after it moved up by one, and the
      subtotal less that row's amount. */
  lemma DeletedAtRemovesIndex(items: seq<Item>, index: int)
    requires 0 <= index < |items|
    ensures |DeletedAt(items, index)| == |items| - 1
    ensures forall j :: 0 <= j < index ==> DeletedAt(items, index)[j] == items[j]
    ensures forall j :: index <= j < |items| - 1 ==> DeletedAt(items, index)[j] == items[j + 1]
    ensures Subtotal(DeletedAt(items, index)) == Subtotal(items) - Amount(items[index])
  {
    DropOneSubtotal(items, index, DeletedAt(items, index));
  }

  lemma DropOneSubtotal(items: seq<Item>, index: int, r: seq<Item>)
    requires 0 <= index < |items| && r == items[..index] + items[index + 1..]
    ensures Subtotal(r) == Subtotal(items) - Amount(items[index])
  {
    var a, x, b := items[..index], items[index], items[index + 1..];
    assert items == a + [x] + b;
    SumAround(a, x, b);
  }

  /** The subtotal of a list around one row is the row's amount plus the
      subtotals of the rows before and after it. */
  lemma SumAround(a: seq<Item>, x: Item, b: seq<Item>)
    ensures Subtotal(a + [x] + b) == Subtotal(a) + Amount(x) + Subtotal(b)
    ensures Subtotal(a + b) == Subtotal(a) + Subtotal(b)
  {
    Seqs.SumConcat(a + [x], b, Amount);
    Seqs.SumSnoc(a, x, Amount);
    Seqs.SumConcat(a, b, Amount);
  }

  /** The item fields; `Number(value)` is what the quantity and rate
      inputs give. */
  datatype ItemField = Desc | Qty | Rate | Details

  /** `{ ...item, [field]: field === 'qty' || field === 'rate' ?
      Number(value) || 0 : value }`. */
  function Edited(item: Item, field: ItemField, text: string, number: JsNumber): (r: Item)
    ensures field == Desc ==> r == item.(desc := text)
    ensures field == Details ==> r == item.(details := text)
    ensures field == Qty ==> r == item.(qty := if Truthy(number) then number.value else 0.0)
    ensures field == Rate ==> r == item.(rate := if Truthy(number) then number.value else 0.0)
  {
    match field
    case Desc => item.(desc := text)
    case Qty => item.(qty := OrZero(number))
    case Rate => item.(rate := OrZero(number))
    case Details => item.(details := text)
  }

  /** What `Edited` does not name stays: only the edited field changes,
      and a quantity or rate that is not a number is stored as zero. */
  lemma EditedKeepsOthers(item: Item, field: ItemField, text: string, number: JsNumber)
    ensures field != Desc ==> Edited(item, field, text, number).desc == item.desc
    ensures field != Qty ==> Edited(item, field, text, number).qty == item.qty
    ensures field != Rate ==> Edited(item, field, text, number).rate == item.rate
    ensures field != Details ==> Edited(item, field, text, number).details == item.details
    ensures (field == Qty || field == Rate) && number.NaN? ==> Amount(Edited(item, field, text, number)) == 0.0
  {
  }

  /** `items.map((item, i) => i === index ? edited : item)`. */
  function UpdatedAt(items: seq<Item>, index: int, field: ItemField, text: string, number: JsNumber): (r: seq<Item>)
    ensures |r| == |items|
    ensures forall j :: 0 <= j < |items| && j != index ==> r[j] == items[j]
    ensures 0 <= index < |items| ==> r[index] == Edited(items[index], field, text, number)
  {
    seq(|items|, j requires 0 <= j < |items| => if j == index then Edited(items[j], field, text, number) else items[j])
  }

  /** Updating a row changes the subtotal by the change of that row's
      amount, and updating a position outside the list changes nothing. */
  lemma UpdatedAtSubtotal(items: seq<Item>, index: int, field: ItemField, text: string, number: JsNumber)
    ensures 0 <= index < |items| ==>
              Subtotal(UpdatedAt(items, index, field, text, number))
                == Subtotal(items) - Amount(items[index]) + Amount(Edited(items[index], field, text, number))
    ensures !(0 <= index < |items|) ==> UpdatedAt(items, index, field, text, number) == items
  {
    var r := UpdatedAt(items, index, field, text, number);
    if 0 <= index < |items| {
      var a, b := items[..index], items[index + 1..];
      assert items == a + [items[index]] + b;
      assert r == a + [r[index]] + b;
      SumAround(a, items[index], b);
      SumAround(a, r[index], b);
    }
  }
}
