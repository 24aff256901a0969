/**
 * The abstract database behind the pharmacy: the `inventory` and `sales`
 * tables as sequences of rows (so that two inventory rows may carry the same
 * item, as the schema allows), the effect of each statement the program
 * issues, and the rows a SELECT hands back. Rows come back in insertion
 * order; prices are whole numbers of minor currency units.
 */
module Store {

  datatype Option<T> = None | Some(value: T)

  /** The moment the clock reported when a sale began. */
  type Timestamp = int

  /** One row of `inventory(item, quantity, price)`. */
  datatype InventoryRow = InventoryRow(item: string, quantity: int, price: int)

  /** One row of `sales(item, quantity, price, customer, sale_date)`. */
  datatype SaleRow = SaleRow(item: string, quantity: int, price: int, customer: string, saleDate: Timestamp)

  datatype Tables = Tables(inventory: seq<InventoryRow>, sales: seq<SaleRow>)

  /** A column value handed back by the driver. */
  datatype Cell = Text(text: string) | Number(number: int)

  type Row = seq<Cell>

  /** What a statement means to the store, whatever its text says. */
  datatype Effect =
    | InsertInventory(row: InventoryRow)
    | SelectInventory
    | SelectPrice(item: string)
    | SelectQuantity(item: string)
    | InsertSale(sale: SaleRow)
    | DecrementStock(amount: int, item: string)

  /** A statement: the text that execute_query inspects, and its meaning. */
  datatype Statement = Statement(text: string, effect: Effect)

  predicate IsRead(e: Effect) {
    e.SelectInventory? || e.SelectPrice? || e.SelectQuantity?
  }

  /** The inventory rows about `item`, in store order. */
  function Matching(inventory: seq<InventoryRow>, item: string): seq<InventoryRow> {
    if inventory == [] then []
    else (if inventory[0].item == item then [inventory[0]] else []) + Matching(inventory[1..], item)
  }

  /** The row a lookup by `item` reads first, if there is one. */
  function FirstMatch(inventory: seq<InventoryRow>, item: string): Option<InventoryRow> {
    if inventory == [] then None
    else if inventory[0].item == item then Some(inventory[0])
    else FirstMatch(inventory[1..], item)
  }

  /** The row read first is the first of the rows a lookup by `item` hands back. */
  lemma {:induction false} FirstMatchHeadsMatching(inventory: seq<InventoryRow>, item: string)
    ensures FirstMatch(inventory, item)
         == if Matching(inventory, item) == [] then None else Some(Matching(inventory, item)[0])
  {
    if inventory != [] && inventory[0].item != item {
      FirstMatchHeadsMatching(inventory[1..], item);
      assert Matching(inventory, item) == Matching(inventory[1..], item);
    }
  }

  /**
   * A lookup by item finds nothing exactly when no row carries the item, and
   * otherwise finds the earliest row that does.
   */
  lemma {:induction false} FirstMatchIsEarliest(inventory: seq<InventoryRow>, item: string)
    ensures FirstMatch(inventory, item).None? <==> forall k :: 0 <= k < |inventory| ==> inventory[k].item != item
    ensures FirstMatch(inventory, item).Some? ==>
      exists k :: 0 <= k < |inventory| && inventory[k] == FirstMatch(inventory, item).value
        && inventory[k].item == item && forall j :: 0 <= j < k ==> inventory[j].item != item
  {
    if inventory != [] && inventory[0].item != item {
      var rest := inventory[1..];
      FirstMatchIsEarliest(rest, item);
      if FirstMatch(inventory, item).Some? {
        var k :| 0 <= k < |rest| && rest[k] == FirstMatch(inventory, item).value
          && rest[k].item == item && forall j :: 0 <= j < k ==> rest[j].item != item;
        assert inventory[k + 1] == rest[k];
        forall j | 0 <= j < k + 1
          ensures inventory[j].item != item
        {
          if j > 0 {
            assert inventory[j] == rest[j - 1];
          }
        }
      } else {
        forall k | 0 <= k < |inventory|
          ensures inventory[k].item != item
        {
          if k > 0 {
            assert inventory[k] == rest[k - 1];
          }
        }
      }
    }
  }

  /**
   * When at most one row carries `item`, a lookup by `item` finds the same row
   * whatever order the rows are stored and handed back in.
   */
  lemma FirstMatchIgnoresOrder(a: seq<InventoryRow>, b: seq<InventoryRow>, item: string)
    requires multiset(a) == multiset(b)
    requires forall i, j :: 0 <= i < j < |a| && a[i].item == item ==> a[j].item != item
    ensures FirstMatch(a, item) == FirstMatch(b, item)
  {
    FirstMatchIsEarliest(a, item);
    FirstMatchIsEarliest(b, item);
    if FirstMatch(a, item).Some? {
      var i0 :| 0 <= i0 < |a| && a[i0] == FirstMatch(a, item).value && a[i0].item == item;
      assert a[i0] in multiset(b);
      var j :| 0 <= j < |b| && b[j] == FirstMatch(b, item).value && b[j].item == item;
      assert b[j] in multiset(a);
      var i :| 0 <= i < |a| && a[i] == b[j];
      assert i == i0;
    }
  }

  /** The inventory after `quantity = quantity - amount` on every row of `item`. */
  function Decrement(inventory: seq<InventoryRow>, amount: int, item: string): seq<InventoryRow> {
    seq(|inventory|, k requires 0 <= k < |inventory| =>
      if inventory[k].item == item then inventory[k].(quantity := inventory[k].quantity - amount)
      else inventory[k])
  }

  /** The tables after a statement with effect `e` has run. */
  function Apply(t: Tables, e: Effect): Tables {
    match e
    case InsertInventory(row) => t.(inventory := t.inventory + [row])
    case InsertSale(sale) => t.(sales := t.sales + [sale])
    case DecrementStock(amount, item) => t.(inventory := Decrement(t.inventory, amount, item))
    case _ => t
  }

  /** Runs the effects one after another. */
  function ApplyAll(t: Tables, effects: seq<Effect>): Tables
    decreases |effects|
  {
    if effects == [] then t else ApplyAll(Apply(t, effects[0]), effects[1..])
  }

  /** An inventory row as `(item, quantity, price)`. */
  function ListingRow(r: InventoryRow): Row {
    [Text(r.item), Number(r.quantity), Number(r.price)]
  }

  function Listing(inventory: seq<InventoryRow>): seq<Row> {
    seq(|inventory|, k requires 0 <= k < |inventory| => ListingRow(inventory[k]))
  }

  /**
   * What `fetchall()` returns after a statement with effect `e` ran against
   * `t`: the selected rows, or None where there is no result set to fetch
   * (the driver then raises, and execute_query turns that into None).
   */
  function Answer(t: Tables, e: Effect): Option<seq<Row>> {
    match e
    case SelectInventory => Some(Listing(t.inventory))
    case SelectPrice(item) =>
      var m := Matching(t.inventory, item);
      Some(seq(|m|, k requires 0 <= k < |m| => [Number(m[k].price)]))
    case SelectQuantity(item) =>
      var m := Matching(t.inventory, item);
      Some(seq(|m|, k requires 0 <= k < |m| => [Number(m[k].quantity)]))
    case _ => None
  }

  /**
   * A lookup by item hands back one single-cell row per matching row, in store
   * order: the price, or the stock, of that row.
   */
  lemma LookupRows(t: Tables, item: string)
    ensures var m := Matching(t.inventory, item);
      && |Answer(t, SelectPrice(item)).value| == |m| == |Answer(t, SelectQuantity(item)).value|
      && (forall k :: 0 <= k < |m| ==> Answer(t, SelectPrice(item)).value[k] == [Number(m[k].price)])
      && (forall k :: 0 <= k < |m| ==> Answer(t, SelectQuantity(item)).value[k] == [Number(m[k].quantity)])
  {
  }
}
