/**
 * InventoryManager: adds a row to the inventory table without looking for
 * an existing row of the same item, and lists every row. The class has two
 * definitions of get_items_in_inventory; the second replaces the first, so
 * only the second, which lists `(item, quantity, price)`, is modelled.
 */
module Inventory {
  import opened SqlText
  import opened Store
  import opened Gateway

  // Each statement text is written as its leading keyword followed by the
  // rest, so that the verifier sees the keyword's characters.
  const InsertItemSql := "INSERT" + " INTO inventory (item, quantity, price) VALUES (%s, %s, %s)"
  const ListItemsSql := "SELECT" + " item, quantity, price FROM inventory"

  function AddItemStatement(item: string, quantity: int, price: int): Statement {
    Statement(InsertItemSql, InsertInventory(InventoryRow(item, quantity, price)))
  }

  const ListItemsStatement := Statement(ListItemsSql, SelectInventory)

  /** `inventory_data if inventory_data else []`: None and no rows both give []. */
  function RowsOrEmpty(result: Option<seq<Row>>): seq<Row> {
    if result.Some? && result.value != [] then result.value else []
  }

  /** How many inventory rows carry `item`. */
  function CountOf(inventory: seq<InventoryRow>, item: string): nat
    decreases |inventory|
  {
    if inventory == [] then 0
    else CountOf(inventory[..|inventory| - 1], item) + (if inventory[|inventory| - 1].item == item then 1 else 0)
  }

  /** The insert text is committed and never fetched. */
  lemma InsertItemSqlIsWrite()
    ensures Commits(InsertItemSql) && !Fetches(InsertItemSql)
  {
    assert InsertItemSql[0] == 'I';
    OtherLeadIsCommittedOnly(InsertItemSql);
  }

  /** The listing text is fetched and never committed. */
  lemma ListItemsSqlIsRead()
    ensures Fetches(ListItemsSql) && !Commits(ListItemsSql)
  {
    assert ListItemsSql[..6] == "SELECT";
    SelectPrefixIsFetched(ListItemsSql);
  }

  /**
   * Adding an item appends exactly one row, after all the existing ones, even
   * when a row of that item is already present; the sales table is not
   * touched and the new row is committed at once. A driver error adds
   * nothing and leaves the committed tables as they were.
   */
  lemma AddItemAppendsRow(db: Db, item: string, quantity: int, price: int)
    ensures var after := Execute(db, AddItemStatement(item, quantity, price)).0;
      && after.faults == Rest(db.faults)
      && after.work.sales == db.work.sales
      && after.durable == (if Faulted(db.faults) then db.durable else after.work)
      && after.work.inventory
         == (if Faulted(db.faults) then db.work.inventory
             else db.work.inventory + [InventoryRow(item, quantity, price)])
      && CountOf(after.work.inventory, item)
         == CountOf(db.work.inventory, item) + (if Faulted(db.faults) then 0 else 1)
  {
    InsertItemSqlIsWrite();
    ExecuteWrite(db, AddItemStatement(item, quantity, price));
    var extended := db.work.inventory + [InventoryRow(item, quantity, price)];
    assert extended[..|extended| - 1] == db.work.inventory;
  }

  /**
   * The listing returns every inventory row as `(item, quantity, price)`, in
   * store order, and changes nothing; after a driver error it returns [].
   */
  lemma ListingShowsEveryRow(db: Db)
    ensures var (after, result) := Execute(db, ListItemsStatement);
      && after == db.(faults := Rest(db.faults))
      && var rows := RowsOrEmpty(result);
         && |rows| == (if Faulted(db.faults) then 0 else |db.work.inventory|)
         && forall k :: 0 <= k < |rows| ==>
              rows[k] == [Text(db.work.inventory[k].item), Number(db.work.inventory[k].quantity),
                          Number(db.work.inventory[k].price)]
  {
    ListItemsSqlIsRead();
    ExecuteRead(db, ListItemsStatement);
  }

  /**
   * A listing taken right after an item was added (the driver raising on
   * neither call) holds the rows listed before plus the new item's row, as a
   * multiset, whatever order the rows come back in. In the model's insertion
   * order the new row comes last.
   */
  lemma AddThenListShowsItem(db: Db, item: string, quantity: int, price: int)
    requires !Faulted(db.faults) && !Faulted(Rest(db.faults))
    ensures var added := Execute(db, AddItemStatement(item, quantity, price)).0;
      var rows := RowsOrEmpty(Execute(added, ListItemsStatement).1);
      && |rows| == |db.work.inventory| + 1
      && rows[..|db.work.inventory|] == Listing(db.work.inventory)
      && rows[|db.work.inventory|] == [Text(item), Number(quantity), Number(price)]
      && [Text(item), Number(quantity), Number(price)] in rows
      && multiset(rows) == multiset(Listing(db.work.inventory)) + multiset{[Text(item), Number(quantity), Number(price)]}
  {
    InsertItemSqlIsWrite();
    ListItemsSqlIsRead();
    ExecuteWrite(db, AddItemStatement(item, quantity, price));
    var added := Execute(db, AddItemStatement(item, quantity, price)).0;
    ExecuteRead(added, ListItemsStatement);
    assert added.work.inventory == db.work.inventory + [InventoryRow(item, quantity, price)];
    var rows := RowsOrEmpty(Execute(added, ListItemsStatement).1);
    assert rows == Listing(added.work.inventory);
    assert rows[..|db.work.inventory|] == Listing(db.work.inventory);
    assert rows == Listing(db.work.inventory) + [[Text(item), Number(quantity), Number(price)]];
  }

  /** Two listings with no write between them (and no driver error) agree. */
  lemma ListingTwiceAgrees(db: Db)
    requires !Faulted(db.faults) && !Faulted(Rest(db.faults))
    ensures var (once, first) := Execute(db, ListItemsStatement);
      RowsOrEmpty(Execute(once, ListItemsStatement).1) == RowsOrEmpty(first)
  {
    ListItemsSqlIsRead();
    ExecuteRead(db, ListItemsStatement);
    ExecuteRead(Execute(db, ListItemsStatement).0, ListItemsStatement);
  }

  class InventoryManager {
    const db: DatabaseManager

    constructor (db: DatabaseManager)
      ensures this.db == db
    {
      this.db := db;
    }

    method AddItemToInventory(item: string, quantity: int, price: int)
      modifies db
      ensures db.State() == Execute(old(db.State()), AddItemStatement(item, quantity, price)).0
    {
      var _ := db.ExecuteQuery(AddItemStatement(item, quantity, price));
    }

    method GetItemsInInventory() returns (rows: seq<Row>)
      modifies db
      ensures db.State() == Execute(old(db.State()), ListItemsStatement).0
      ensures rows == RowsOrEmpty(Execute(old(db.State()), ListItemsStatement).1)
    {
      var inventoryData := db.ExecuteQuery(ListItemsStatement);
      rows := RowsOrEmpty(inventoryData);
    }
  }
}
