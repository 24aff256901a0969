# Glosson pharmacy: a verified model of the data layer and the sale flow

Glosson Pharmacy is a small pharmacy-management application. A PostgreSQL
database holds two tables: `inventory(item, quantity, price)` and
`sales(item, quantity, price, customer, sale_date)`. Three Python classes
sit on top of the database:

- `DatabaseManager` owns the single connection. Its `execute_query` runs one
  statement. It commits when the statement text does not start with `SELECT`.
  It returns the fetched rows when the stripped, upper-cased text starts with
  `SELECT`. It reports a driver error and returns `None` instead of raising.
- `InventoryManager` adds an inventory row and lists all rows.
- `SalesManager.make_sale` works in two phases. First it looks up the price
  and stock of every requested line; at the first line with no price or too
  little stock it refuses the sale before writing anything. Otherwise it plans
  a sales insert and a stock decrement per line, runs the planned statements
  one by one, and reports the total.

The model has five modules:

| file | module | what it holds |
|---|---|---|
| `sql_text.dfy` | `SqlText` | `startswith`, `strip` and `upper` on code-point strings, and the two text tests of `execute_query` |
| `store.dfy` | `Store` | the two tables as row sequences (duplicate items allowed), statement effects, and the rows a lookup returns |
| `gateway.dfy` | `Gateway` | `DatabaseManager` as a class over the connection state, and the pure `Execute`/`RunAll` it is proved against |
| `inventory.dfy` | `Inventory` | `InventoryManager` and its lemmas |
| `sales.dfy` | `Sales` | `SalesManager`, the validate-and-plan specification `PlanFrom`/`PlanSale`, and its lemmas |

The connection state has three parts:

- `work`: the tables as the connection sees them.
- `durable`: the tables as last committed.
- `faults`: a script of driver verdicts. Each `execute_query` call consumes
  one verdict. `true` means the driver raises on that call; an exhausted
  script means no further errors.

Driver errors depend on a live database, so they come in as this script
rather than being invented by the model. Prices are whole numbers of minor
currency units. Lookups and listings return rows in insertion order; the
program fixes no order (its `SELECT`s have no `ORDER BY`), so "earliest" and
"last" below are relative to this order, and `Store.FirstMatchIgnoresOrder`
and `Inventory.AddThenListShowsItem` state what holds in any order.

Three behaviours of the code are kept as written:
- Driver errors are swallowed rather than surfaced.
- A sale whose apply phase fails part-way still reports success.
- Adding an item that is already present creates a second row.

## Model

| member | source | states |
|---|---|---|
| SqlText.LStripRemovesLeadingSpace | GlossonPharmacy.py:47 | `lstrip` drops exactly the leading whitespace run: the result is a suffix, every removed character is whitespace, and the result does not start with whitespace |
| SqlText.RStripRemovesTrailingSpace | GlossonPharmacy.py:47 | `rstrip` drops exactly the trailing whitespace run: the result is a prefix, every removed character is whitespace, and the result does not end with whitespace |
| SqlText.FetchesIffSelectAfterSpaces | GlossonPharmacy.py:47-48 | the fetch test holds if and only if, after leading whitespace only, the text starts with SELECT in any mix of letter case |
| SqlText.SelectPrefixIsFetched | GlossonPharmacy.py:42-48 | a text starting with `SELECT` exactly is fetched and not committed |
| SqlText.OtherLeadIsCommittedOnly | GlossonPharmacy.py:42-48 | a text whose first character is not whitespace and not `s`/`S` (an INSERT or UPDATE) is committed and never fetched |
| SqlText.CommitsOrFetches | GlossonPharmacy.py:42-48 | no text is left both uncommitted and unfetched |
| SqlText.LowerCaseSelectCommitsAndFetches | GlossonPharmacy.py:42-48 | a lower-case `select` is committed and also fetched |
| SqlText.IndentedSelectCommitsAndFetches | GlossonPharmacy.py:42-48 | a `SELECT` preceded by a space is committed and also fetched |
| Store.FirstMatchIsEarliest | GlossonPharmacy.py:107-115 | a lookup by item finds nothing if and only if no row has the item; otherwise it finds the earliest row that has it, in the model's row order |
| Store.FirstMatchIgnoresOrder | GlossonPharmacy.py:107-115 | when at most one row carries the item, the lookup finds the same row however the rows are ordered |
| Store.FirstMatchHeadsMatching | GlossonPharmacy.py:110 | the row a lookup reads (`[0]`) is the first of the matching rows the query hands back |
| Gateway.DatabaseManager.constructor | GlossonPharmacy.py:9-16 | a fresh connection sees the database contents, all of it committed |
| Gateway.DatabaseManager.ExecuteQuery | GlossonPharmacy.py:34-51 | new state and result equal `Execute`: on a driver error nothing changes and None is returned; otherwise the effect is applied, committed unless the text starts with `SELECT`, and the rows are returned only when the fetch test holds |
| Gateway.ExecuteRead | GlossonPharmacy.py:34-51 | a read-only statement whose text is fetched and not committed leaves the tables alone and returns its rows, or None after a driver error |
| Gateway.ExecuteWrite | GlossonPharmacy.py:34-51 | a statement whose text is committed and not fetched returns None; without a driver error it is applied and committed at once |
| Gateway.RunAllAttemptsEveryStatement | GlossonPharmacy.py:50-51 | running a list of statements consumes one verdict per statement; the tables end as if exactly the statements the driver accepted had run, in order, so a failure does not stop later statements |
| Gateway.NoFaultSkipsNothing | GlossonPharmacy.py:50-51 | with no driver errors every statement takes effect |
| Gateway.RunAllKeepsCommitted | GlossonPharmacy.py:42-44 | when every statement commits or only reads, the committed tables keep up with the connection's view |
| Inventory.InsertItemSqlIsWrite | GlossonPharmacy.py:58 | the inventory insert text is committed and never fetched |
| Inventory.ListItemsSqlIsRead | GlossonPharmacy.py:67 | the listing text is fetched and never committed |
| Inventory.AddItemAppendsRow | GlossonPharmacy.py:57-59 | adding appends one row after all existing ones, without checking for an existing row of the same item (its count rises by one), leaves sales alone and is committed; a driver error adds nothing and leaves the committed tables as they were |
| Inventory.ListingShowsEveryRow | GlossonPharmacy.py:66-69 | the listing returns every row as `(item, quantity, price)` in store order and changes nothing but the verdict script; after a driver error it returns [] |
| Inventory.AddThenListShowsItem | GlossonPharmacy.py:57-69 | with no driver error on either call, a listing right after an add contains the new item's row, and as a multiset is the earlier listing plus that row, in any order; in the model's insertion order the new row comes last |
| Inventory.ListingTwiceAgrees | GlossonPharmacy.py:66-69 | with no driver error on either call, two listings with nothing written between them agree |
| Inventory.InventoryManager.constructor | GlossonPharmacy.py:53-55 | the manager uses the shared connection it is given |
| Inventory.InventoryManager.AddItemToInventory | GlossonPharmacy.py:57-59 | the connection moves as `Execute` of the insert statement says |
| Inventory.InventoryManager.GetItemsInInventory | GlossonPharmacy.py:66-69 | returns the listing's rows, or [] when there are none or the driver raised |
| Sales.PriceSqlIsRead | GlossonPharmacy.py:108 | the price lookup text is fetched and never committed |
| Sales.QuantitySqlIsRead | GlossonPharmacy.py:113 | the stock lookup text is fetched and never committed |
| Sales.SaleInsertSqlIsWrite | GlossonPharmacy.py:98 | the sales insert text is committed and never fetched |
| Sales.DecrementSqlIsWrite | GlossonPharmacy.py:100 | the stock decrement text is committed and never fetched |
| Sales.PriceAnswer | GlossonPharmacy.py:107-110 | the price statement changes only the verdict script, and `price[0][0] if price else None` yields the price the sale sees |
| Sales.QuantityAnswer | GlossonPharmacy.py:112-115 | the stock statement changes only the verdict script, and `quantity[0][0] if quantity else 0` yields the stock the sale sees |
| Sales.PriceLookup | GlossonPharmacy.py:107-110 | the price is None if and only if the driver raised or no row has the item; otherwise it is the price of the earliest such row in the model's row order |
| Sales.QuantityLookup | GlossonPharmacy.py:112-115 | the stock is 0 when the driver raised or no row has the item; otherwise it is the quantity of the earliest such row in the model's row order |
| Sales.SalesManager.GetItemPrice | GlossonPharmacy.py:107-110 | consumes one verdict and returns the price the sale sees, or None |
| Sales.SalesManager.GetCurrentQuantity | GlossonPharmacy.py:112-115 | consumes one verdict and returns the stock the sale sees, or 0 |
| Sales.CleanCheckLine | GlossonPharmacy.py:88-96 | with no driver errors a line passes if and only if it is sellable; otherwise it is refused with NoPrice (no row) or InsufficientStock carrying the stock found |
| Sales.SalePlanShape | GlossonPharmacy.py:97-100 | the plan holds two statements per line in request order: at 2k the sales insert of line k (its total, the customer, the one shared sale date), at 2k+1 its stock decrement |
| Sales.PlanFromSoldTotal | GlossonPharmacy.py:84-101 | the total of a sale that goes through is the sum of the line totals, and every line has a price row |
| Sales.PlanFromSoldQueries | GlossonPharmacy.py:86-100 | a sale that goes through plans exactly the sale plan, after what was already planned |
| Sales.PlanFromSoldFaults | GlossonPharmacy.py:88-93 | a sale that goes through used exactly two lookups per line |
| Sales.PlanFromRefused | GlossonPharmacy.py:88-96 | a refused sale plans nothing to run, and its message names an item of the request |
| Sales.CleanPlanSoldIffSellable | GlossonPharmacy.py:87-96 | with no driver errors a sale goes through if and only if every line is sellable |
| Sales.SoldMeansSellable | GlossonPharmacy.py:87-96 | when every line asks for a positive quantity, a sale that goes through had every line sellable, whatever driver errors the lookups met |
| Sales.FaultedStockPassesZeroExample | GlossonPharmacy.py:93-96 | a zero-unit line against a row holding -3 is refused when the stock lookup succeeds, but goes through when it fails and reports 0 |
| Sales.CleanPlanRefusal | GlossonPharmacy.py:87-96 | with no driver errors a refused sale is refused at the first unsellable line, with NoPrice or InsufficientStock carrying the stock found |
| Sales.SalePlanEffect | GlossonPharmacy.py:97-104 | running the plan lowers every row of each sold item by the units requested and appends one sales row per line |
| Sales.SalePlanWritesOnly | GlossonPharmacy.py:98-100 | every planned statement is a sales insert or a stock decrement |
| Sales.SalePlanCommits | GlossonPharmacy.py:42-44 | every planned statement commits on its own |
| Sales.CleanSaleResult | GlossonPharmacy.py:83-105 | with committed tables, sellable lines and no driver errors: the sale reports the sum of the line totals, stock drops by the units requested, one sales row per line is added, and all of it is committed |
| Sales.AspirinSaleExample | GlossonPharmacy.py:83-105 | selling 5 of 10 aspirin at 200 reports 1000 and leaves 5 in stock and one sales row |
| Sales.ShortStockExample | GlossonPharmacy.py:94-96 | asking for 50 aspirin with 5 in stock is refused, reporting 5, with nothing planned |
| Sales.UnknownItemExample | GlossonPharmacy.py:89-92 | asking for an item with no row is refused for want of a price, with nothing planned |
| Sales.PartialSaleExample | GlossonPharmacy.py:103-105 | when the decrement hits a driver error, the sale still reports its total; the sales row is committed and the stock is unchanged |
| Sales.SalesManager.constructor | GlossonPharmacy.py:79-81 | the manager uses the shared connection it is given |
| Sales.SalesManager.PlanLines | GlossonPharmacy.py:84-101 | the validation loop returns the outcome and statements of `PlanSale` and changes nothing but the verdict script |
| Sales.SalesManager.RunQueries | GlossonPharmacy.py:103-104 | every planned statement is handed to execute_query in order: the new state is `RunAll` of the old one |
| Sales.SalesManager.MakeSale | GlossonPharmacy.py:83-105 | the outcome is `PlanSale`'s; the new state is the plan run from the pre-sale tables; a refusal writes nothing; committed tables stay committed |

## Left out

- `main` and the Streamlit screens are not modelled (lines 119-173). The messages `st.error` and `st.success` show become the `Outcome` value; the `,.2f` formatting of the total is not modelled.
- `connect_to_db` and its credentials are not modelled. When the connection fails, `self.conn` is `None` and `execute_query` raises an uncaught `AttributeError`; the model's connection always exists.
- `datetime.now()` becomes the `saleDate` parameter of `MakeSale`.
- Parameter substitution by the driver (`cursor.execute(query, params)`) and the `if params:` branch are not modelled: a statement's effect is given with it. The text tests run on the query template, which is what `execute_query` inspects.
- Prices are `numeric`/`float` values in the source. They are whole minor units here, so there is no rounding.
- `NULL` cells are not modelled: every price and quantity is a number, so a row whose price is `NULL` cannot be expressed. Python's dynamic typing of cells is not modelled either.
- The first definition of `get_items_in_inventory` (lines 61-64) is not modelled, because the second definition replaces it.
- `get_items_in_sales` is not modelled: its body is `pass`.
- Row order of a `SELECT` without `ORDER BY` is fixed to insertion order. PostgreSQL may return rows in any order, and an `UPDATE` such as the sale's decrement can move a row. When an item has two rows, which price and stock a sale sees therefore depends on an order the model does not capture; `Store.FirstMatchIgnoresOrder` shows the choice does not matter when an item has one row.
- Sales.PriceLookup, Sales.QuantityLookup, Sales.Sellable and Store.FirstMatchIsEarliest: "earliest" means earliest in the model's insertion order, not an order the program promises.
- Sales.CleanPlanSoldIffSellable and Sales.CleanPlanRefusal assume no driver errors. With errors, `Sales.SoldMeansSellable` covers positive quantities only. A failed stock lookup reports 0, so a line of zero or fewer units passes even against negative stock (`Sales.FaultedStockPassesZeroExample`), as the source does.
- After a driver error PostgreSQL refuses every later statement until a rollback, and the code never rolls back. The verdict script is arbitrary, so it covers that case, but the model does not force it. A failed `commit` is not modelled separately from a failed statement.
- Concurrency between two sessions is not modelled: there is one connection and one caller.
- `make_sale` receives a dict, so its items are distinct; the model accepts any sequence of lines, duplicates included.
- SqlText.Upper: only ASCII letters are upper-cased. Other characters whose `upper()` gives an ASCII letter (such as U+017F) are not mapped.
- Exceptions other than the driver's (a `TypeError` from comparing mismatched cell types, for example) are not modelled.
