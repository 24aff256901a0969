/**
 * SalesManager: the price and stock lookups, and make_sale, which first
 * validates every requested line and plans two statements per line (a sales
 * insert, then a stock decrement), and only when every line has passed runs
 * the planned statements one by one against the shared connection.
 */
module Sales {
  import opened SqlText
  import opened Store
  import opened Gateway

  // Each statement text is written as its leading keyword followed by the
  // rest, so that the verifier sees the keyword's characters.
  const PriceSql := "SELECT" + " price FROM inventory WHERE item = %s"
  const QuantitySql := "SELECT" + " quantity FROM inventory WHERE item = %s"
  const SaleInsertSql :=
    "INSERT" + " INTO sales (item, quantity, price, customer, sale_date) VALUES (%s,%s,%s,%s,%s)"
  const DecrementSql := "UPDATE" + " inventory SET quantity = quantity - %s WHERE item = %s"

  function PriceStatement(item: string): Statement {
    Statement(PriceSql, SelectPrice(item))
  }

  function QuantityStatement(item: string): Statement {
    Statement(QuantitySql, SelectQuantity(item))
  }

  function SaleStatement(item: string, quantity: int, salePrice: int, customer: string, saleDate: Timestamp): Statement {
    Statement(SaleInsertSql, InsertSale(SaleRow(item, quantity, salePrice, customer, saleDate)))
  }

  function DecrementStatement(quantity: int, item: string): Statement {
    Statement(DecrementSql, DecrementStock(quantity, item))
  }

  /** The price lookup is fetched and never committed. */
  lemma PriceSqlIsRead()
    ensures Fetches(PriceSql) && !Commits(PriceSql)
  {
    assert PriceSql[..6] == "SELECT";
    SelectPrefixIsFetched(PriceSql);
  }

  /** The stock lookup is fetched and never committed. */
  lemma QuantitySqlIsRead()
    ensures Fetches(QuantitySql) && !Commits(QuantitySql)
  {
    assert QuantitySql[..6] == "SELECT";
    SelectPrefixIsFetched(QuantitySql);
  }

  /** The sales insert is committed and never fetched. */
  lemma SaleInsertSqlIsWrite()
    ensures Commits(SaleInsertSql) && !Fetches(SaleInsertSql)
  {
    assert SaleInsertSql[0] == 'I';
    OtherLeadIsCommittedOnly(SaleInsertSql);
  }

  /** The stock decrement is committed and never fetched. */
  lemma DecrementSqlIsWrite()
    ensures Commits(DecrementSql) && !Fetches(DecrementSql)
  {
    assert DecrementSql[0] == 'U';
    OtherLeadIsCommittedOnly(DecrementSql);
  }

  /** One requested line of a sale. */
  datatype SaleLine = SaleLine(item: string, quantity: int)

  /** How a sale ended, standing for the message shown to the operator. */
  datatype Outcome =
    | NoPrice(item: string)
    | InsufficientStock(item: string, available: int)
    | Sold(total: int)

  /** get_item_price once its query has returned: the first row's value, or None when there is no row. */
  function PriceOrNone(result: Option<seq<Row>>): Option<Cell>
    requires result.Some? && result.value != [] ==> result.value[0] != []
  {
    if result.Some? && result.value != [] then Some(result.value[0][0]) else None
  }

  /** get_current_quantity once its query has returned: the first row's value, or 0 when there is no row. */
  function QuantityOrZero(result: Option<seq<Row>>): Cell
    requires result.Some? && result.value != [] ==> result.value[0] != []
  {
    if result.Some? && result.value != [] then result.value[0][0] else Number(0)
  }

  /** The unit price a sale sees for `item`; `fault` says whether the driver raised on the lookup. */
  function PriceSeen(inventory: seq<InventoryRow>, item: string, fault: bool): Option<int> {
    if fault then None
    else match FirstMatch(inventory, item)
      case None => None
      case Some(r) => Some(r.price)
  }

  /** The stock a sale sees for `item`; `fault` says whether the driver raised on the lookup. */
  function QuantitySeen(inventory: seq<InventoryRow>, item: string, fault: bool): int {
    if fault then 0
    else match FirstMatch(inventory, item)
      case None => 0
      case Some(r) => r.quantity
  }

  /** What the price statement does to the connection and what get_item_price makes of its rows. */
  lemma PriceAnswer(db: Db, item: string)
    ensures var (after, result) := Execute(db, PriceStatement(item));
      && after == db.(faults := Rest(db.faults))
      && (result.Some? && result.value != [] ==> result.value[0] != [])
      && PriceOrNone(result)
         == (match PriceSeen(db.work.inventory, item, Faulted(db.faults))
             case None => None
             case Some(p) => Some(Number(p)))
  {
    PriceSqlIsRead();
    ExecuteRead(db, PriceStatement(item));
    LookupRows(db.work, item);
    FirstMatchHeadsMatching(db.work.inventory, item);
  }

  /** What the stock statement does to the connection and what get_current_quantity makes of its rows. */
  lemma QuantityAnswer(db: Db, item: string)
    ensures var (after, result) := Execute(db, QuantityStatement(item));
      && after == db.(faults := Rest(db.faults))
      && (result.Some? && result.value != [] ==> result.value[0] != [])
      && QuantityOrZero(result) == Number(QuantitySeen(db.work.inventory, item, Faulted(db.faults)))
  {
    QuantitySqlIsRead();
    ExecuteRead(db, QuantityStatement(item));
    LookupRows(db.work, item);
    FirstMatchHeadsMatching(db.work.inventory, item);
  }

  /**
   * The price a sale sees is missing exactly when the driver raised or no row
   * carries the item, and otherwise is the price of the earliest row that does.
   */
  lemma PriceLookup(inventory: seq<InventoryRow>, item: string, fault: bool)
    ensures PriceSeen(inventory, item, fault).None?
        <==> fault || forall k :: 0 <= k < |inventory| ==> inventory[k].item != item
    ensures PriceSeen(inventory, item, fault).Some? ==>
      exists k :: 0 <= k < |inventory| && inventory[k].item == item
        && PriceSeen(inventory, item, fault).value == inventory[k].price
        && forall j :: 0 <= j < k ==> inventory[j].item != item
  {
    FirstMatchIsEarliest(inventory, item);
  }

  /**
   * The stock a sale sees is 0 when the driver raised or no row carries the
   * item, and otherwise is the quantity of the earliest row that does.
   */
  lemma QuantityLookup(inventory: seq<InventoryRow>, item: string, fault: bool)
    ensures (fault || forall k :: 0 <= k < |inventory| ==> inventory[k].item != item)
      ==> QuantitySeen(inventory, item, fault) == 0
    ensures !fault && (exists k :: 0 <= k < |inventory| && inventory[k].item == item) ==>
      exists k :: 0 <= k < |inventory| && inventory[k].item == item
        && QuantitySeen(inventory, item, fault) == inventory[k].quantity
        && forall j :: 0 <= j < k ==> inventory[j].item != item
  {
    FirstMatchIsEarliest(inventory, item);
  }

  /**
   * The validate-and-plan pass, what make_sale computes before it writes
   * anything: the outcome, the statements to run (none when the sale is
   * refused) and the driver verdicts the lookups left unused.
   */
  datatype Plan = Plan(outcome: Outcome, queries: seq<Statement>, faultsLeft: seq<bool>)

  /** What the two lookups make of one line: a refusal, or the line's total. */
  datatype Check =
    | Refused(outcome: Outcome, faultsLeft: seq<bool>)
    | Passed(salePrice: int, faultsLeft: seq<bool>)

  /**
   * The checks make_sale runs on one line: the price lookup and, once a price
   * is found, the stock lookup.
   */
  function CheckLine(line: SaleLine, inventory: seq<InventoryRow>, faults: seq<bool>): Check {
    match PriceSeen(inventory, line.item, Faulted(faults))
    case None => Refused(NoPrice(line.item), Rest(faults))
    case Some(price) =>
      var available := QuantitySeen(inventory, line.item, Faulted(Rest(faults)));
      if available < line.quantity then Refused(InsufficientStock(line.item, available), Rest(Rest(faults)))
      else Passed(price * line.quantity, Rest(Rest(faults)))
  }

  /** The two statements planned for a line that passed: its sales insert, then its stock decrement. */
  function LineStatements(line: SaleLine, salePrice: int, customer: string, saleDate: Timestamp): seq<Statement> {
    [SaleStatement(line.item, line.quantity, salePrice, customer, saleDate), DecrementStatement(line.quantity, line.item)]
  }

  /**
   * The pass from `lines` onwards, given the total so far and the statements
   * planned so far. Each line costs a price lookup and, once a price is
   * found, a stock lookup.
   */
  function PlanFrom(lines: seq<SaleLine>, inventory: seq<InventoryRow>, faults: seq<bool>,
                    customer: string, saleDate: Timestamp, total: int, planned: seq<Statement>): Plan
    decreases |lines|
  {
    if lines == [] then Plan(Sold(total), planned, faults)
    else match CheckLine(lines[0], inventory, faults)
      case Refused(outcome, left) => Plan(outcome, [], left)
      case Passed(salePrice, left) =>
        PlanFrom(lines[1..], inventory, left, customer, saleDate, total + salePrice,
                 planned + LineStatements(lines[0], salePrice, customer, saleDate))
  }

  /**
   * A line passes exactly when a price is found and the stock found covers the
   * quantity requested; it then used two lookups and is charged its line
   * total. A refusal is no sale, and names the line's item.
   */
  lemma CheckLineVerdict(line: SaleLine, inventory: seq<InventoryRow>, faults: seq<bool>)
    ensures var c := CheckLine(line, inventory, faults);
      && (c.Passed? <==> PriceSeen(inventory, line.item, Faulted(faults)).Some?
                         && line.quantity <= QuantitySeen(inventory, line.item, Faulted(Rest(faults))))
      && (c.Passed? ==> FirstMatch(inventory, line.item).Some?
                        && c.salePrice == LineTotal(line, inventory) && c.faultsLeft == Rest(Rest(faults)))
      && (c.Refused? ==> !c.outcome.Sold? && c.outcome.item == line.item)
  {
  }

  /**
   * With no driver error a line passes exactly when it is sellable, and is
   * otherwise refused with NoPrice when its item has no row and with
   * InsufficientStock, carrying the stock found, when it has one.
   */
  lemma CleanCheckLine(line: SaleLine, inventory: seq<InventoryRow>)
    ensures var c := CheckLine(line, inventory, []);
      && c.faultsLeft == []
      && (c.Passed? <==> Sellable(line, inventory))
      && (c.Refused? ==>
            c.outcome == if FirstMatch(inventory, line.item).None? then NoPrice(line.item)
                         else InsufficientStock(line.item, FirstMatch(inventory, line.item).value.quantity))
  {
  }

  /** One line passes: the pass continues with the line's total and statements added. */
  lemma PlanFromStep(lines: seq<SaleLine>, inventory: seq<InventoryRow>, faults: seq<bool>,
                     customer: string, saleDate: Timestamp, total: int, planned: seq<Statement>, price: int)
    requires lines != []
    requires PriceSeen(inventory, lines[0].item, Faulted(faults)) == Some(price)
    requires lines[0].quantity <= QuantitySeen(inventory, lines[0].item, Faulted(Rest(faults)))
    ensures PlanFrom(lines, inventory, faults, customer, saleDate, total, planned)
         == PlanFrom(lines[1..], inventory, Rest(Rest(faults)), customer, saleDate, total + price * lines[0].quantity,
                     planned + LineStatements(lines[0], price * lines[0].quantity, customer, saleDate))
  {
  }

  function PlanSale(lines: seq<SaleLine>, inventory: seq<InventoryRow>, faults: seq<bool>,
                    customer: string, saleDate: Timestamp): Plan
  {
    PlanFrom(lines, inventory, faults, customer, saleDate, 0, [])
  }

  /** A line can be sold: its item has a row, and the earliest such row holds enough stock. */
  predicate Sellable(line: SaleLine, inventory: seq<InventoryRow>) {
    FirstMatch(inventory, line.item).Some? && line.quantity <= FirstMatch(inventory, line.item).value.quantity
  }

  /** Unit price times requested quantity, at the price of the earliest row of the item. */
  function LineTotal(line: SaleLine, inventory: seq<InventoryRow>): int {
    match FirstMatch(inventory, line.item)
    case None => 0
    case Some(r) => r.price * line.quantity
  }

  function SumOfLineTotals(lines: seq<SaleLine>, inventory: seq<InventoryRow>): int
    decreases |lines|
  {
    if lines == [] then 0 else LineTotal(lines[0], inventory) + SumOfLineTotals(lines[1..], inventory)
  }

  /**
   * The statements a successful sale runs: two per line, in request order, a
   * sales insert carrying the line total, the customer and the one sale date,
   * then a decrement of that item's stock by the requested quantity.
   */
  function SalePlan(lines: seq<SaleLine>, inventory: seq<InventoryRow>, customer: string, saleDate: Timestamp): seq<Statement>
    decreases |lines|
  {
    if lines == [] then []
    else
      LineStatements(lines[0], LineTotal(lines[0], inventory), customer, saleDate)
      + SalePlan(lines[1..], inventory, customer, saleDate)
  }

  /**
   * A sale plan holds two statements per line, line by line in request
   * order: at 2k the sales insert of line k, carrying its total, the customer
   * and the sale date shared by all lines; at 2k+1 the decrement of its stock.
   */
  lemma {:induction false} SalePlanShape(lines: seq<SaleLine>, inventory: seq<InventoryRow>, customer: string, saleDate: Timestamp)
    ensures var plan := SalePlan(lines, inventory, customer, saleDate);
      && |plan| == 2 * |lines|
      && forall k :: 0 <= k < |lines| ==>
           && plan[2 * k] == SaleStatement(lines[k].item, lines[k].quantity, LineTotal(lines[k], inventory), customer, saleDate)
           && plan[2 * k + 1] == DecrementStatement(lines[k].quantity, lines[k].item)
    decreases |lines|
  {
    if lines != [] {
      SalePlanShape(lines[1..], inventory, customer, saleDate);
      var plan := SalePlan(lines, inventory, customer, saleDate);
      var rest := SalePlan(lines[1..], inventory, customer, saleDate);
      forall k | 1 <= k < |lines|
        ensures plan[2 * k] == SaleStatement(lines[k].item, lines[k].quantity, LineTotal(lines[k], inventory), customer, saleDate)
        ensures plan[2 * k + 1] == DecrementStatement(lines[k].quantity, lines[k].item)
      {
        assert lines[k] == lines[1..][k - 1];
        assert plan[2 * k] == rest[2 * (k - 1)];
        assert plan[2 * k + 1] == rest[2 * (k - 1) + 1];
      }
    }
  }

  lemma {:induction false} DropEmpty(n: nat)
    ensures Drop([], n) == []
  {
    if n > 0 {
      DropEmpty(n - 1);
    }
  }

  lemma DropTwoMore(faults: seq<bool>, n: nat)
    ensures Drop(Rest(Rest(faults)), n) == Drop(faults, n + 2)
  {
  }

  /**
   * A pass that sells adds every line's total to the total it was given, and
   * every line it passed has a price row.
   */
  lemma {:induction false} PlanFromSoldTotal(lines: seq<SaleLine>, inventory: seq<InventoryRow>, faults: seq<bool>,
                                             customer: string, saleDate: Timestamp, total: int, planned: seq<Statement>)
    requires PlanFrom(lines, inventory, faults, customer, saleDate, total, planned).outcome.Sold?
    ensures PlanFrom(lines, inventory, faults, customer, saleDate, total, planned).outcome.total
         == total + SumOfLineTotals(lines, inventory)
    ensures forall k :: 0 <= k < |lines| ==> FirstMatch(inventory, lines[k].item).Some?
    decreases |lines|
  {
    if lines != [] {
      var c := CheckLine(lines[0], inventory, faults);
      CheckLineVerdict(lines[0], inventory, faults);
      PlanFromSoldTotal(lines[1..], inventory, c.faultsLeft, customer, saleDate, total + c.salePrice,
                        planned + LineStatements(lines[0], c.salePrice, customer, saleDate));
      forall k | 1 <= k < |lines|
        ensures FirstMatch(inventory, lines[k].item).Some?
      {
        assert lines[k] == lines[1..][k - 1];
      }
    }
  }

  /**
   * A pass that sells adds the two planned statements of every line, in
   * order, to those it was given.
   */
  lemma {:induction false} PlanFromSoldQueries(lines: seq<SaleLine>, inventory: seq<InventoryRow>, faults: seq<bool>,
                                               customer: string, saleDate: Timestamp, total: int, planned: seq<Statement>)
    requires PlanFrom(lines, inventory, faults, customer, saleDate, total, planned).outcome.Sold?
    ensures PlanFrom(lines, inventory, faults, customer, saleDate, total, planned).queries
         == planned + SalePlan(lines, inventory, customer, saleDate)
    decreases |lines|
  {
    if lines == [] {
      assert planned + [] == planned;
    } else {
      var c := CheckLine(lines[0], inventory, faults);
      CheckLineVerdict(lines[0], inventory, faults);
      var pair := LineStatements(lines[0], c.salePrice, customer, saleDate);
      var rest := SalePlan(lines[1..], inventory, customer, saleDate);
      PlanFromSoldQueries(lines[1..], inventory, c.faultsLeft, customer, saleDate, total + c.salePrice, planned + pair);
      assert SalePlan(lines, inventory, customer, saleDate) == pair + rest;
      assert planned + pair + rest == planned + (pair + rest);
    }
  }

  /** A pass that sells uses exactly two lookups per line. */
  lemma {:induction false} PlanFromSoldFaults(lines: seq<SaleLine>, inventory: seq<InventoryRow>, faults: seq<bool>,
                                              customer: string, saleDate: Timestamp, total: int, planned: seq<Statement>)
    requires PlanFrom(lines, inventory, faults, customer, saleDate, total, planned).outcome.Sold?
    ensures PlanFrom(lines, inventory, faults, customer, saleDate, total, planned).faultsLeft
         == Drop(faults, 2 * |lines|)
    decreases |lines|
  {
    if lines != [] {
      var c := CheckLine(lines[0], inventory, faults);
      CheckLineVerdict(lines[0], inventory, faults);
      PlanFromSoldFaults(lines[1..], inventory, c.faultsLeft, customer, saleDate, total + c.salePrice,
                         planned + LineStatements(lines[0], c.salePrice, customer, saleDate));
      DropTwoMore(faults, 2 * (|lines| - 1));
    }
  }

  /** A refused pass plans nothing to run, and its message names an item of the request. */
  lemma {:induction false} PlanFromRefused(lines: seq<SaleLine>, inventory: seq<InventoryRow>, faults: seq<bool>,
                                           customer: string, saleDate: Timestamp, total: int, planned: seq<Statement>)
    requires !PlanFrom(lines, inventory, faults, customer, saleDate, total, planned).outcome.Sold?
    ensures var plan := PlanFrom(lines, inventory, faults, customer, saleDate, total, planned);
      && plan.queries == []
      && exists k :: 0 <= k < |lines| && lines[k].item == plan.outcome.item
    decreases |lines|
  {
    var c := CheckLine(lines[0], inventory, faults);
    CheckLineVerdict(lines[0], inventory, faults);
    if c.Passed? {
      PlanFromRefused(lines[1..], inventory, c.faultsLeft, customer, saleDate, total + c.salePrice,
                      planned + LineStatements(lines[0], c.salePrice, customer, saleDate));
      var item := PlanFrom(lines, inventory, faults, customer, saleDate, total, planned).outcome.item;
      var k :| 0 <= k < |lines[1..]| && lines[1..][k].item == item;
      assert lines[k + 1] == lines[1..][k];
    }
  }

  /** With no driver errors, a sale goes through exactly when every line is sellable. */
  lemma {:induction false} CleanPlanSoldIffSellable(lines: seq<SaleLine>, inventory: seq<InventoryRow>,
                                                    customer: string, saleDate: Timestamp, total: int, planned: seq<Statement>)
    ensures PlanFrom(lines, inventory, [], customer, saleDate, total, planned).outcome.Sold?
        <==> forall k :: 0 <= k < |lines| ==> Sellable(lines[k], inventory)
    decreases |lines|
  {
    if lines != [] {
      var c := CheckLine(lines[0], inventory, []);
      CleanCheckLine(lines[0], inventory);
      CheckLineVerdict(lines[0], inventory, []);
      if c.Passed? {
        CleanPlanSoldIffSellable(lines[1..], inventory, customer, saleDate, total + c.salePrice,
                                 planned + LineStatements(lines[0], c.salePrice, customer, saleDate));
        assert forall k :: 1 <= k < |lines| ==> lines[k] == lines[1..][k - 1];
      }
    }
  }

  /**
   * With no driver errors, a refused sale is refused at the first line that
   * is not sellable: NoPrice when that item has no row, and otherwise
   * InsufficientStock carrying the stock found.
   */
  lemma {:induction false} CleanPlanRefusal(lines: seq<SaleLine>, inventory: seq<InventoryRow>,
                                            customer: string, saleDate: Timestamp, total: int, planned: seq<Statement>)
    requires !PlanFrom(lines, inventory, [], customer, saleDate, total, planned).outcome.Sold?
    ensures var outcome := PlanFrom(lines, inventory, [], customer, saleDate, total, planned).outcome;
      exists k :: 0 <= k < |lines| && !Sellable(lines[k], inventory)
        && (forall j :: 0 <= j < k ==> Sellable(lines[j], inventory))
        && outcome == if FirstMatch(inventory, lines[k].item).None? then NoPrice(lines[k].item)
                      else InsufficientStock(lines[k].item, FirstMatch(inventory, lines[k].item).value.quantity)
    decreases |lines|
  {
    var outcome := PlanFrom(lines, inventory, [], customer, saleDate, total, planned).outcome;
    var c := CheckLine(lines[0], inventory, []);
    CleanCheckLine(lines[0], inventory);
    if c.Passed? {
      CheckLineVerdict(lines[0], inventory, []);
      CleanPlanRefusal(lines[1..], inventory, customer, saleDate, total + c.salePrice,
                       planned + LineStatements(lines[0], c.salePrice, customer, saleDate));
      var rest := lines[1..];
      var k :| 0 <= k < |rest| && !Sellable(rest[k], inventory)
        && (forall j :: 0 <= j < k ==> Sellable(rest[j], inventory))
        && outcome == if FirstMatch(inventory, rest[k].item).None? then NoPrice(rest[k].item)
                      else InsufficientStock(rest[k].item, FirstMatch(inventory, rest[k].item).value.quantity);
      assert lines[k + 1] == rest[k];
      forall j | 0 <= j < k + 1
        ensures Sellable(lines[j], inventory)
      {
        if j > 0 {
          assert lines[j] == rest[j - 1];
        }
      }
    } else {
      assert !Sellable(lines[0], inventory);
    }
  }

  /**
   * When every line asks for a positive quantity, a pass that sells had every
   * line sellable, whatever the driver did: a failed price lookup refuses the
   * line, and a failed stock lookup reports 0, which covers no positive
   * quantity.
   */
  lemma {:induction false} SoldMeansSellable(lines: seq<SaleLine>, inventory: seq<InventoryRow>, faults: seq<bool>,
                                             customer: string, saleDate: Timestamp, total: int, planned: seq<Statement>)
    requires forall k :: 0 <= k < |lines| ==> lines[k].quantity > 0
    requires PlanFrom(lines, inventory, faults, customer, saleDate, total, planned).outcome.Sold?
    ensures forall k :: 0 <= k < |lines| ==> Sellable(lines[k], inventory)
    decreases |lines|
  {
    if lines != [] {
      var c := CheckLine(lines[0], inventory, faults);
      CheckLineVerdict(lines[0], inventory, faults);
      assert !Faulted(Rest(faults));
      SoldMeansSellable(lines[1..], inventory, c.faultsLeft, customer, saleDate, total + c.salePrice,
                        planned + LineStatements(lines[0], c.salePrice, customer, saleDate));
      forall k | 1 <= k < |lines|
        ensures Sellable(lines[k], inventory)
      {
        assert lines[k] == lines[1..][k - 1];
      }
    }
  }

  /**
   * A line of zero units against a row holding -3: with no driver error it is
   * refused for want of stock, but when the stock lookup fails the 0 reported
   * covers it and the sale goes through.
   */
  lemma FaultedStockPassesZeroExample(saleDate: Timestamp)
    ensures var inventory := [InventoryRow("aspirin", -3, 200)];
      var lines := [SaleLine("aspirin", 0)];
      && !Sellable(lines[0], inventory)
      && PlanSale(lines, inventory, [], "Erin", saleDate).outcome == InsufficientStock("aspirin", -3)
      && PlanSale(lines, inventory, [false, true], "Erin", saleDate).outcome == Sold(0)
  {
    assert FirstMatch([InventoryRow("aspirin", -3, 200)], "aspirin") == Some(InventoryRow("aspirin", -3, 200));
  }

  /** How many units of `item` the lines request in all. */
  function Requested(lines: seq<SaleLine>, item: string): int
    decreases |lines|
  {
    if lines == [] then 0
    else (if lines[0].item == item then lines[0].quantity else 0) + Requested(lines[1..], item)
  }

  /** The sales rows a successful sale inserts, one per line, in request order. */
  function SaleRows(lines: seq<SaleLine>, inventory: seq<InventoryRow>, customer: string, saleDate: Timestamp): seq<SaleRow> {
    seq(|lines|, k requires 0 <= k < |lines| =>
      SaleRow(lines[k].item, lines[k].quantity, LineTotal(lines[k], inventory), customer, saleDate))
  }

  /**
   * Running every planned statement leaves each inventory row in place with
   * its stock lowered by the units of its item the sale requested (every row
   * of a duplicated item is lowered), and appends one sales row per line.
   */
  lemma {:induction false} SalePlanEffect(t: Tables, lines: seq<SaleLine>, inventory: seq<InventoryRow>,
                                          customer: string, saleDate: Timestamp)
    ensures var after := ApplyAll(t, Effects(SalePlan(lines, inventory, customer, saleDate)));
      && |after.inventory| == |t.inventory|
      && (forall r :: 0 <= r < |t.inventory| ==>
            after.inventory[r] == t.inventory[r].(quantity := t.inventory[r].quantity - Requested(lines, t.inventory[r].item)))
      && after.sales == t.sales + SaleRows(lines, inventory, customer, saleDate)
    decreases |lines|
  {
    var plan := SalePlan(lines, inventory, customer, saleDate);
    if lines == [] {
      assert Effects(plan) == [];
      assert t.sales + SaleRows(lines, inventory, customer, saleDate) == t.sales;
    } else {
      var line := lines[0];
      var row := SaleRow(line.item, line.quantity, LineTotal(line, inventory), customer, saleDate);
      var rest := SalePlan(lines[1..], inventory, customer, saleDate);
      assert Effects(plan) == [InsertSale(row), DecrementStock(line.quantity, line.item)] + Effects(rest);
      ApplyAllAppend(t, [InsertSale(row), DecrementStock(line.quantity, line.item)], Effects(rest));
      var insert := InsertSale(row);
      var decrement := DecrementStock(line.quantity, line.item);
      var middle := Tables(Decrement(t.inventory, line.quantity, line.item), t.sales + [row]);
      assert ApplyAll(t, [insert, decrement]) == middle by {
        assert [insert, decrement][1..] == [decrement];
        assert ApplyAll(t, [insert, decrement]) == ApplyAll(Apply(t, insert), [decrement]);
        assert ApplyAll(Apply(t, insert), [decrement]) == ApplyAll(Apply(Apply(t, insert), decrement), []);
        assert Apply(Apply(t, insert), decrement) == middle;
      }
      SalePlanEffect(middle, lines[1..], inventory, customer, saleDate);
      assert SaleRows(lines, inventory, customer, saleDate) == [row] + SaleRows(lines[1..], inventory, customer, saleDate);
    }
  }

  /** Every statement of a sale plan is a sales insert or a stock decrement. */
  lemma {:induction false} SalePlanWritesOnly(lines: seq<SaleLine>, inventory: seq<InventoryRow>, customer: string, saleDate: Timestamp)
    ensures forall k :: 0 <= k < |SalePlan(lines, inventory, customer, saleDate)| ==>
      SalePlan(lines, inventory, customer, saleDate)[k].text in {SaleInsertSql, DecrementSql}
    decreases |lines|
  {
    if lines != [] {
      SalePlanWritesOnly(lines[1..], inventory, customer, saleDate);
      var rest := SalePlan(lines[1..], inventory, customer, saleDate);
      var plan := SalePlan(lines, inventory, customer, saleDate);
      forall k | 2 <= k < |plan|
        ensures plan[k].text in {SaleInsertSql, DecrementSql}
      {
        assert plan[k] == rest[k - 2];
      }
    }
  }

  /** Every statement a successful sale runs commits on its own. */
  lemma SalePlanCommits(lines: seq<SaleLine>, inventory: seq<InventoryRow>, customer: string, saleDate: Timestamp)
    ensures forall k :: 0 <= k < |SalePlan(lines, inventory, customer, saleDate)| ==>
      Commits(SalePlan(lines, inventory, customer, saleDate)[k].text)
  {
    SaleInsertSqlIsWrite();
    DecrementSqlIsWrite();
    SalePlanWritesOnly(lines, inventory, customer, saleDate);
  }

  /**
   * A sale against committed tables, with no driver error on any call: it
   * goes through when every line is sellable, its total is the sum of the
   * line totals, every row of a sold item loses the units requested, one
   * sales row per line is added, and all of it is committed.
   */
  lemma CleanSaleResult(t: Tables, lines: seq<SaleLine>, customer: string, saleDate: Timestamp)
    requires forall k :: 0 <= k < |lines| ==> Sellable(lines[k], t.inventory)
    ensures var plan := PlanSale(lines, t.inventory, [], customer, saleDate);
      var after := RunAll(Db(t, t, plan.faultsLeft), plan.queries);
      && plan.outcome == Sold(SumOfLineTotals(lines, t.inventory))
      && after.durable == after.work
      && |after.work.inventory| == |t.inventory|
      && (forall r :: 0 <= r < |t.inventory| ==>
            after.work.inventory[r]
            == t.inventory[r].(quantity := t.inventory[r].quantity - Requested(lines, t.inventory[r].item)))
      && after.work.sales == t.sales + SaleRows(lines, t.inventory, customer, saleDate)
  {
    var plan := PlanSale(lines, t.inventory, [], customer, saleDate);
    CleanPlanSoldIffSellable(lines, t.inventory, customer, saleDate, 0, []);
    PlanFromSoldTotal(lines, t.inventory, [], customer, saleDate, 0, []);
    PlanFromSoldQueries(lines, t.inventory, [], customer, saleDate, 0, []);
    PlanFromSoldFaults(lines, t.inventory, [], customer, saleDate, 0, []);
    assert plan.queries == SalePlan(lines, t.inventory, customer, saleDate);
    DropEmpty(2 * |lines|);
    RunAllAttemptsEveryStatement(Db(t, t, []), plan.queries);
    NoFaultSkipsNothing(plan.queries);
    SalePlanEffect(t, lines, t.inventory, customer, saleDate);
    SalePlanCommits(lines, t.inventory, customer, saleDate);
    RunAllKeepsCommitted(Db(t, t, []), plan.queries);
  }

  /** Selling 5 of 10 aspirin at 200 each: total 1000, 5 left, one sales row. */
  lemma AspirinSaleExample(saleDate: Timestamp)
    ensures var t := Tables([InventoryRow("aspirin", 10, 200)], []);
      var plan := PlanSale([SaleLine("aspirin", 5)], t.inventory, [], "Alice", saleDate);
      && plan.outcome == Sold(1000)
      && RunAll(Db(t, t, plan.faultsLeft), plan.queries).work
         == Tables([InventoryRow("aspirin", 5, 200)], [SaleRow("aspirin", 5, 1000, "Alice", saleDate)])
  {
    var t := Tables([InventoryRow("aspirin", 10, 200)], []);
    var lines := [SaleLine("aspirin", 5)];
    assert FirstMatch(t.inventory, "aspirin") == Some(t.inventory[0]);
    CleanSaleResult(t, lines, "Alice", saleDate);
    var after := RunAll(Db(t, t, PlanSale(lines, t.inventory, [], "Alice", saleDate).faultsLeft),
                        PlanSale(lines, t.inventory, [], "Alice", saleDate).queries).work;
    assert after.inventory[0] == InventoryRow("aspirin", 5, 200);
    assert after.sales == [SaleRow("aspirin", 5, 1000, "Alice", saleDate)];
  }

  /** Asking for 50 aspirin when 5 are in stock is refused, reporting the 5. */
  lemma ShortStockExample(saleDate: Timestamp)
    ensures PlanSale([SaleLine("aspirin", 50)], [InventoryRow("aspirin", 5, 200)], [], "Bob", saleDate)
      == Plan(InsufficientStock("aspirin", 5), [], [])
  {
    assert FirstMatch([InventoryRow("aspirin", 5, 200)], "aspirin") == Some(InventoryRow("aspirin", 5, 200));
  }

  /** Asking for an item with no inventory row is refused for want of a price. */
  lemma UnknownItemExample(saleDate: Timestamp)
    ensures PlanSale([SaleLine("unknownitem", 1)], [InventoryRow("aspirin", 5, 200)], [], "Carl", saleDate)
      == Plan(NoPrice("unknownitem"), [], [])
  {
    assert FirstMatch([InventoryRow("aspirin", 5, 200)], "unknownitem") == None;
  }

  /**
   * A driver error during the apply phase is swallowed: with the stock
   * decrement failing, the sale still reports its total, the sales row is
   * recorded and committed, and the stock is left as it was.
   */
  lemma PartialSaleExample(saleDate: Timestamp)
    ensures var t := Tables([InventoryRow("aspirin", 10, 200)], []);
      var plan := PlanSale([SaleLine("aspirin", 5)], t.inventory, [false, false, false, true], "Dana", saleDate);
      var after := RunAll(Db(t, t, plan.faultsLeft), plan.queries);
      && plan.outcome == Sold(1000)
      && after.work == Tables([InventoryRow("aspirin", 10, 200)], [SaleRow("aspirin", 5, 1000, "Dana", saleDate)])
      && after.durable == after.work
  {
    var t := Tables([InventoryRow("aspirin", 10, 200)], []);
    var lines := [SaleLine("aspirin", 5)];
    var faults := [false, false, false, true];
    assert FirstMatch(t.inventory, "aspirin") == Some(t.inventory[0]);
    assert CheckLine(lines[0], t.inventory, faults) == Passed(1000, [false, true]);
    var insert := SaleStatement("aspirin", 5, 1000, "Dana", saleDate);
    var decrement := DecrementStatement(5, "aspirin");
    var plan := PlanSale(lines, t.inventory, faults, "Dana", saleDate);
    assert plan == Plan(Sold(1000), [insert, decrement], [false, true]);
    SaleInsertSqlIsWrite();
    DecrementSqlIsWrite();
    var sold := Tables(t.inventory, [SaleRow("aspirin", 5, 1000, "Dana", saleDate)]);
    ExecuteWrite(Db(t, t, [false, true]), insert);
    assert Execute(Db(t, t, [false, true]), insert).0 == Db(sold, sold, [true]);
    ExecuteWrite(Db(sold, sold, [true]), decrement);
    assert Execute(Db(sold, sold, [true]), decrement).0 == Db(sold, sold, []);
    assert [insert, decrement][1..] == [decrement];
    assert RunAll(Db(t, t, [false, true]), [insert, decrement]) == RunAll(Db(sold, sold, [true]), [decrement]);
    assert RunAll(Db(sold, sold, [true]), [decrement]) == RunAll(Db(sold, sold, []), []);
  }

  class SalesManager {
    const db: DatabaseManager

    constructor (db: DatabaseManager)
      ensures this.db == db
    {
      this.db := db;
    }

    method GetItemPrice(item: string) returns (price: Option<Cell>)
      modifies db
      ensures db.State() == old(db.State()).(faults := Rest(old(db.faults)))
      ensures price == match PriceSeen(old(db.work.inventory), item, Faulted(old(db.faults)))
                       case None => None
                       case Some(p) => Some(Number(p))
    {
      PriceAnswer(db.State(), item);
      var result := db.ExecuteQuery(PriceStatement(item));
      price := PriceOrNone(result);
    }

    method GetCurrentQuantity(item: string) returns (quantity: Cell)
      modifies db
      ensures db.State() == old(db.State()).(faults := Rest(old(db.faults)))
      ensures quantity == Number(QuantitySeen(old(db.work.inventory), item, Faulted(old(db.faults))))
    {
      QuantityAnswer(db.State(), item);
      var result := db.ExecuteQuery(QuantityStatement(item));
      quantity := QuantityOrZero(result);
    }

    /**
     * The first phase of make_sale: looks up the price and then the stock of
     * every line in request order, returning at the first line without a
     * price or without enough stock, and otherwise plans a sales insert and a
     * stock decrement per line and adds up the line totals. Writes nothing.
     */
    method PlanLines(lines: seq<SaleLine>, customer: string, saleDate: Timestamp)
      returns (outcome: Outcome, queries: seq<Statement>)
      modifies db
      ensures var plan := PlanSale(lines, old(db.work.inventory), old(db.faults), customer, saleDate);
        && outcome == plan.outcome && queries == plan.queries
        && db.State() == old(db.State()).(faults := plan.faultsLeft)
    {
      ghost var start := db.State();
      ghost var inventory := db.work.inventory;
      var totalPrice := 0;
      queries := [];
      var i := 0;
      while i < |lines|
        invariant 0 <= i <= |lines|
        invariant db.work == start.work && db.durable == start.durable
        invariant PlanSale(lines, inventory, start.faults, customer, saleDate)
               == PlanFrom(lines[i..], inventory, db.faults, customer, saleDate, totalPrice, queries)
      {
        var line := lines[i];
        assert lines[i..][0] == line && lines[i..][1..] == lines[i + 1..];
        ghost var beforePrice := db.State();
        var itemPrice := GetItemPrice(line.item);
        if itemPrice.None? {
          return NoPrice(line.item), [];
        }
        var price := itemPrice.value.number;
        var currentQuantity := GetCurrentQuantity(line.item);
        var available := currentQuantity.number;
        if available < line.quantity {
          return InsufficientStock(line.item, available), [];
        }
        var salePrice := price * line.quantity;
        PlanFromStep(lines[i..], inventory, beforePrice.faults, customer, saleDate, totalPrice, queries, price);
        ghost var plannedBefore := queries;
        queries := queries + [SaleStatement(line.item, line.quantity, salePrice, customer, saleDate)];
        queries := queries + [DecrementStatement(line.quantity, line.item)];
        assert queries == plannedBefore + LineStatements(line, salePrice, customer, saleDate);
        totalPrice := totalPrice + salePrice;
        i := i + 1;
      }
      outcome := Sold(totalPrice);
    }

    /**
     * The second phase of make_sale: every planned statement is handed to
     * execute_query in order, whatever became of the ones before it.
     */
    method RunQueries(queries: seq<Statement>)
      modifies db
      ensures db.State() == RunAll(old(db.State()), queries)
    {
      ghost var start := db.State();
      var j := 0;
      while j < |queries|
        invariant 0 <= j <= |queries|
        invariant RunAll(start, queries) == RunAll(db.State(), queries[j..])
      {
        assert queries[j..][0] == queries[j] && queries[j..][1..] == queries[j + 1..];
        ghost var before := db.State();
        assert RunAll(before, queries[j..]) == RunAll(Execute(before, queries[j]).0, queries[j + 1..]);
        var _ := db.ExecuteQuery(queries[j]);
        j := j + 1;
      }
    }

    /**
     * Records a sale: nothing is written unless every line has a price and
     * enough stock; then every planned statement is run, each committed on
     * its own, and the total is reported even if some of them failed.
     */
    method MakeSale(lines: seq<SaleLine>, customer: string, saleDate: Timestamp) returns (outcome: Outcome)
      modifies db
      ensures var plan := PlanSale(lines, old(db.work.inventory), old(db.faults), customer, saleDate);
        && outcome == plan.outcome
        && db.State() == RunAll(Db(old(db.work), old(db.durable), plan.faultsLeft), plan.queries)
      ensures !outcome.Sold? ==> db.work == old(db.work) && db.durable == old(db.durable)
      ensures old(db.durable) == old(db.work) ==> db.durable == db.work
    {
      ghost var start := db.State();
      var queries;
      outcome, queries := PlanLines(lines, customer, saleDate);
      if !outcome.Sold? {
        PlanFromRefused(lines, start.work.inventory, start.faults, customer, saleDate, 0, []);
        return;
      }
      ghost var validated := db.State();
      RunQueries(queries);
      if start.durable == start.work {
        PlanFromSoldQueries(lines, start.work.inventory, start.faults, customer, saleDate, 0, []);
        assert queries == SalePlan(lines, start.work.inventory, customer, saleDate);
        SalePlanCommits(lines, start.work.inventory, customer, saleDate);
        RunAllKeepsCommitted(validated, queries);
      }
    }
  }
}
