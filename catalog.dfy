/** The catalogue and schema text builders of the `Database` class (Database.py): the fixed
    table-description listing, the `?` placeholder list of the schema query, and the grouping
    of the schema query's rows into one block per table. The connection and the query itself
    are not modelled: the rows the query returns are an input. */
module Catalog {
  import opened Wrappers
  import opened Strings
  import opened TableRefs

  // ---------------------------------------------------------------------------------------
  // Ordered dictionaries (Python `dict`, which keeps insertion order)
  // ---------------------------------------------------------------------------------------

  /** The items of an ordered dictionary, in insertion order. */
  type Items = seq<(string, string)>

  function Keys(d: Items): seq<string> {
    seq(|d|, i requires 0 <= i < |d| => d[i].0)
  }

  predicate Distinct(xs: seq<string>) {
    forall i, j :: 0 <= i < j < |xs| ==> xs[i] != xs[j]
  }

  /** `d[k] = v`: an existing key keeps its place and takes the new value; a new key goes last. */
  function Put(d: Items, k: string, v: string): Items {
    if d == [] then [(k, v)]
    else if d[0].0 == k then [(k, v)] + d[1..]
    else [d[0]] + Put(d[1..], k, v)
  }

  /** A `dict` display: the pairs are stored left to right, so a repeated key keeps the place
      of its first occurrence and the value of its last. */
  function DictOf(pairs: Items): Items {
    if pairs == [] then []
    else Put(DictOf(pairs[..|pairs| - 1]), pairs[|pairs| - 1].0, pairs[|pairs| - 1].1)
  }

  // ---------------------------------------------------------------------------------------
  // First-seen order, shared by the dictionary display and the grouping of schema rows
  // ---------------------------------------------------------------------------------------

  /** The distinct elements of `keys`, each at the position of its first occurrence. */
  function FirstSeen(keys: seq<string>): seq<string> {
    if keys == [] then []
    else
      var seen := FirstSeen(keys[..|keys| - 1]);
      if keys[|keys| - 1] in seen then seen else seen + [keys[|keys| - 1]]
  }

  lemma {:induction false} FirstSeenMembers(keys: seq<string>)
    ensures forall k :: k in FirstSeen(keys) <==> k in keys
  {
    if keys != [] {
      var init := keys[..|keys| - 1];
      FirstSeenMembers(init);
      assert keys == init + [keys[|keys| - 1]];
    }
  }

  lemma {:induction false} FirstSeenDistinct(keys: seq<string>)
    ensures Distinct(FirstSeen(keys))
  {
    if keys != [] {
      FirstSeenDistinct(keys[..|keys| - 1]);
    }
  }

  /** Later elements never reorder earlier ones: what a prefix of `keys` has seen first is a
      prefix of what all of `keys` has seen first. */
  lemma {:induction false} FirstSeenPrefix(keys: seq<string>, n: nat)
    requires n <= |keys|
    ensures FirstSeen(keys[..n]) <= FirstSeen(keys)
    decreases |keys|
  {
    if n < |keys| {
      var init := keys[..|keys| - 1];
      FirstSeenPrefix(init, n);
      assert init[..n] == keys[..n];
    } else {
      assert keys[..n] == keys;
    }
  }

  // ---------------------------------------------------------------------------------------
  // Properties of the ordered dictionary
  // ---------------------------------------------------------------------------------------

  /** `d.get(k)`: the value stored under `k`, if any. */
  function Lookup(d: Items, k: string): Option<string> {
    if d == [] then None else if d[0].0 == k then Some(d[0].1) else Lookup(d[1..], k)
  }

  /** The value the last pair with key `k` gives it. */
  function LastValue(pairs: Items, k: string): Option<string> {
    if pairs == [] then None
    else if pairs[|pairs| - 1].0 == k then Some(pairs[|pairs| - 1].1)
    else LastValue(pairs[..|pairs| - 1], k)
  }

  lemma {:induction false} PutKeys(d: Items, k: string, v: string)
    ensures Keys(Put(d, k, v)) == if k in Keys(d) then Keys(d) else Keys(d) + [k]
  {
    if d != [] {
      PutKeys(d[1..], k, v);
      assert Keys(d) == [d[0].0] + Keys(d[1..]);
      if d[0].0 == k {
        assert Keys(Put(d, k, v)) == [k] + Keys(d[1..]);
      } else {
        assert Keys(Put(d, k, v)) == [d[0].0] + Keys(Put(d[1..], k, v));
      }
    }
  }

  lemma {:induction false} PutLookup(d: Items, k: string, v: string, j: string)
    ensures Lookup(Put(d, k, v), j) == if j == k then Some(v) else Lookup(d, j)
  {
    if d != [] && d[0].0 != k {
      PutLookup(d[1..], k, v, j);
      assert Put(d, k, v)[1..] == Put(d[1..], k, v);
    }
  }

  lemma {:induction false} PutNew(d: Items, k: string, v: string)
    requires k !in Keys(d)
    ensures Put(d, k, v) == d + [(k, v)]
  {
    if d != [] {
      assert d[0].0 == Keys(d)[0];
      assert Keys(d[1..]) == Keys(d)[1..];
      PutNew(d[1..], k, v);
      assert d == [d[0]] + d[1..];
    }
  }

  /** The dictionary's keys are those of the pairs, in first-seen order (so none repeats). */
  lemma {:induction false} DictOfKeys(pairs: Items)
    ensures Keys(DictOf(pairs)) == FirstSeen(Keys(pairs))
  {
    if pairs != [] {
      var init := pairs[..|pairs| - 1];
      DictOfKeys(init);
      assert Keys(init) == Keys(pairs)[..|pairs| - 1];
      PutKeys(DictOf(init), pairs[|pairs| - 1].0, pairs[|pairs| - 1].1);
    }
  }

  /** Each key maps to the value of its last pair. */
  lemma {:induction false} DictOfLookup(pairs: Items, k: string)
    ensures Lookup(DictOf(pairs), k) == LastValue(pairs, k)
  {
    if pairs != [] {
      DictOfLookup(pairs[..|pairs| - 1], k);
      PutLookup(DictOf(pairs[..|pairs| - 1]), pairs[|pairs| - 1].0, pairs[|pairs| - 1].1, k);
    }
  }

  /** Pairs whose keys are already distinct are stored exactly as written. */
  lemma {:induction false} DictOfDistinct(pairs: Items)
    requires Distinct(Keys(pairs))
    ensures DictOf(pairs) == pairs
  {
    if pairs != [] {
      var init := pairs[..|pairs| - 1];
      assert Keys(init) == Keys(pairs)[..|pairs| - 1];
      DictOfDistinct(init);
      assert pairs[|pairs| - 1].0 == Keys(pairs)[|pairs| - 1];
      PutNew(init, pairs[|pairs| - 1].0, pairs[|pairs| - 1].1);
      assert init + [pairs[|pairs| - 1]] == pairs;
    }
  }

  // ---------------------------------------------------------------------------------------
  // fetch_table_descriptions
  // ---------------------------------------------------------------------------------------

  /** The dictionary literal of `fetch_table_descriptions`, pair by pair in source order. */
  const DescriptionPairs: Items := [
      ("dbo.AWBuildVersion", "Stores versioning information for the AdventureWorks sample database."),
      ("dbo.DatabaseLog", "Captures change tracking information for auditing database-level events."),
      ("dbo.ErrorLog", "Logs error messages raised by the database system or application."),
      ("HumanResources.Department", "Stores information about company departments including name and group."),
      ("HumanResources.Employee", "Contains personal and organizational information about employees."),
      ("HumanResources.EmployeeDepartmentHistory", "Tracks the historical assignments of employees to departments and shifts."),
      ("HumanResources.EmployeePayHistory", "Records changes to employee pay rates over time."),
      ("HumanResources.JobCandidate", "Stores resumes and job application data submitted by potential employees."),
      ("HumanResources.Shift", "Defines work shifts, including start and end times."),
      ("Person.Address", "Stores physical addresses used by employees, customers, or vendors."),
      ("Person.AddressType", "Defines types of addresses such as billing or shipping."),
      ("Person.BusinessEntity", "Central entity used to unify persons, vendors, and stores."),
      ("Person.BusinessEntityAddress", "Links business entities to their addresses."),
      ("Person.BusinessEntityContact", "Stores contact relationships between people and business entities."),
      ("Person.ContactType", "Defines roles for contacts such as 'Purchasing Manager'."),
      ("Person.CountryRegion", "Stores country or region names used for address and sales data."),
      ("Person.EmailAddress", "Stores email addresses and links them to people."),
      ("Person.Password", "Contains password hashes and security-related metadata for users."),
      ("Person.Person", "Stores contact information for all individuals including employees and customers."),
      ("Person.PersonPhone", "Links phone numbers to people along with the phone type."),
      ("Person.PhoneNumberType", "Defines types of phone numbers (e.g., Mobile, Home, Work)."),
      ("Person.StateProvince", "Contains state and province data tied to countries/regions."),
      ("Production.BillOfMaterials", "Defines how products are assembled from components."),
      ("Production.Culture", "Stores culture identifiers used for product model translations."),
      ("Production.Document", "Stores product-related documents such as manuals and specs."),
      ("Production.Illustration", "Contains drawings related to product models."),
      ("Production.Location", "Tracks production locations within a manufacturing plant."),
      ("Production.Product", "Stores product metadata including name, number, and manufacturing info."),
      ("Production.ProductCategory", "Defines top-level product categorization."),
      ("Production.ProductCostHistory", "Tracks historical standard costs of products."),
      ("Production.ProductDescription", "Contains textual product descriptions used in sales literature."),
      ("Production.ProductDescriptionEmbeddings", "Vector embeddings of product descriptions for semantic search and AI use cases."),
      ("Production.ProductDocument", "Links products to their related documents."),
      ("Production.ProductInventory", "Tracks inventory levels by product and location."),
      ("Production.ProductListPriceHistory", "Stores historical list prices for products."),
      ("Production.ProductModel", "Defines product modeling metadata and structure."),
      ("Production.ProductModelIllustration", "Links product models to illustrative content."),
      ("Production.ProductModelProductDescriptionCulture", "Supports multilingual product descriptions by linking models and descriptions with culture."),
      ("Production.ProductPhoto", "Stores product images including thumbnails."),
      ("Production.ProductProductPhoto", "Associates products with their photos."),
      ("Production.ProductReview", "Captures customer reviews and ratings for products."),
      ("Production.ProductSubcategory", "Defines second-level categorization of products."),
      ("Production.ScrapReason", "Stores reasons for scrapping a product during manufacturing."),
      ("Production.TransactionHistory", "Records detailed transactions for inventory movements."),
      ("Production.TransactionHistoryArchive", "Archived transaction history data for long-term retention."),
      ("Production.UnitMeasure", "Defines units of measure used in manufacturing and purchasing."),
      ("Production.WorkOrder", "Details work orders for product assembly operations."),
      ("Production.WorkOrderRouting", "Specifies the steps and resource routing for work orders."),
      ("Purchasing.ProductVendor", "Links vendors to the products they supply."),
      ("Purchasing.PurchaseOrderDetail", "Stores individual line items of purchase orders."),
      ("Purchasing.PurchaseOrderHeader", "Contains header information for purchase orders, including vendor and order dates."),
      ("Purchasing.ShipMethod", "Lists available shipping methods and rates."),
      ("Purchasing.Vendor", "Stores vendor account information and purchasing metadata."),
      ("Sales.CountryRegionCurrency", "Links countries/regions with their supported currencies."),
      ("Sales.CreditCard", "Stores credit card information used in customer orders."),
      ("Sales.Currency", "Stores ISO currency codes used in sales and purchasing."),
      ("Sales.CurrencyRate", "Tracks exchange rates between currencies."),
      ("Sales.Customer", "Stores customer account information, linking to person or store."),
      ("Sales.PersonCreditCard", "Links people to their credit cards for sales transactions."),
      ("Sales.SalesOrderDetail", "Line item details for sales orders."),
      ("Sales.SalesOrderHeader", "Header information for sales orders, including billing, shipping, and totals."),
      ("Sales.SalesOrderHeaderSalesReason", "Links sales orders with the reasons that influenced the sale."),
      ("Sales.SalesPerson", "Stores data about employees assigned as sales representatives."),
      ("Sales.SalesPersonQuotaHistory", "Tracks sales quotas assigned to salespeople over time."),
      ("Sales.SalesReason", "Lists predefined reasons that influence a sale."),
      ("Sales.SalesTaxRate", "Defines sales tax rates based on geography and tax type."),
      ("Sales.SalesTerritory", "Defines geographic sales regions and associated metadata."),
      ("Sales.SalesTerritoryHistory", "Tracks historical assignments of salespeople to territories."),
      ("Sales.ShoppingCartItem", "Stores items placed in a customer\U{2019}s online shopping cart."),
      ("Sales.SpecialOffer", "Stores promotional discounts available on products."),
      ("Sales.SpecialOfferProduct", "Links special offers to applicable products."),
      ("Sales.Store", "Stores retail customer information including demographics.")
  ]

  /** One line of the listing: `[key]: description`. */
  function DescriptionLine(item: (string, string)): string {
    "[" + item.0 + "]: " + item.1
  }

  function Lines(d: Items): seq<string> {
    seq(|d|, i requires 0 <= i < |d| => DescriptionLine(d[i]))
  }

  /** `"\n".join(f"[{k}]: {v}" for k, v in d.items())`. */
  function Listing(d: Items): string {
    Join("\n", Lines(d))
  }

  /** `fetch_table_descriptions()`: the listing of the dictionary the literal builds. */
  function FetchTableDescriptions(): string {
    Listing(DictOf(DescriptionPairs))
  }

  predicate OneLine(s: string) {
    '\n' !in s
  }

  /** When no key or description holds a line break, the listing has exactly one line per
      item, in item order, and no trailing newline; no items give the empty text. */
  lemma ListingLines(d: Items)
    requires forall i :: 0 <= i < |d| ==> OneLine(d[i].0) && OneLine(d[i].1)
    ensures d == [] ==> Listing(d) == ""
    ensures d != [] ==> Split(Listing(d), '\n') == Lines(d)
  {
    if d != [] {
      forall i | 0 <= i < |Lines(d)|
        ensures '\n' !in Lines(d)[i]
      {
        assert Lines(d)[i] == "[" + d[i].0 + "]: " + d[i].1;
      }
      SplitJoin(Lines(d), '\n');
    }
  }

  // ---------------------------------------------------------------------------------------
  // fetch_table_schema: the placeholder list
  // ---------------------------------------------------------------------------------------

  /** `n` copies of `"?"`. */
  function Marks(n: nat): (r: seq<string>)
    ensures |r| == n && forall i :: 0 <= i < n ==> r[i] == "?"
  {
    if n == 0 then [] else ["?"] + Marks(n - 1)
  }

  /** `",".join("?" for _ in tables)`. */
  function Placeholders(tables: seq<string>): string {
    Join(",", Marks(|tables|))
  }

  lemma {:induction false} MarksLength(n: nat)
    ensures |Join(",", Marks(n))| == if n == 0 then 0 else 2 * n - 1
  {
    if n >= 2 {
      MarksLength(n - 1);
      assert Marks(n)[1..] == Marks(n - 1);
    }
  }

  /** One `?` per table, separated by commas, and nothing else. */
  lemma PlaceholderCount(tables: seq<string>)
    ensures tables == [] ==> Placeholders(tables) == ""
    ensures tables != [] ==> Split(Placeholders(tables), ',') == Marks(|tables|)
    ensures |Placeholders(tables)| == if tables == [] then 0 else 2 * |tables| - 1
  {
    MarksLength(|tables|);
    if tables != [] {
      SplitJoin(Marks(|tables|), ',');
    }
  }

  // ---------------------------------------------------------------------------------------
  // fetch_table_schema: grouping the rows
  // ---------------------------------------------------------------------------------------

  /** One row of the schema query. `maxLength` is selected but not used in the text. */
  datatype SchemaRow = SchemaRow(
    schemaName: string, tableName: string, columnName: string, dataType: string,
    maxLength: int, isNullable: bool, description: Option<string>)

  /** `f"[{schema}].[{table}]"`. */
  function TableKey(r: SchemaRow): string {
    "[" + r.schemaName + "].[" + r.tableName + "]"
  }

  /** A missing description reads as the empty text (an empty one is falsy and reads the same). */
  function DescriptionText(r: SchemaRow): string {
    match r.description
    case None => ""
    case Some(d) => d
  }

  function NullFlag(nullable: bool): string {
    if nullable then "NULL" else "NOT NULL"
  }

  /** The text of the column definition before `strip()`, from the type onwards. */
  function ColumnTail(r: SchemaRow): string {
    "(" + r.dataType + ") -- " + DescriptionText(r) + " " + NullFlag(r.isNullable)
  }

  /** `f"{name} ({type}) -- {desc} {nullable}".strip()`. */
  function ColumnDef(r: SchemaRow): string {
    Strip(r.columnName + " " + ColumnTail(r))
  }

  /** The definition always ends with the type, the description and the nullability flag; the
      `strip()` only matters when the column name is empty or starts with whitespace. */
  lemma ColumnDefShape(r: SchemaRow)
    ensures EndsWith(ColumnDef(r), ColumnTail(r))
    ensures r.columnName != [] && !IsSpace(r.columnName[0]) ==> ColumnDef(r) == r.columnName + " " + ColumnTail(r)
  {
    var raw := r.columnName + " " + ColumnTail(r);
    assert raw == (r.columnName + " ") + ColumnTail(r);
    StripLeftKeepsTail(r.columnName + " ", ColumnTail(r));
    var l := StripLeft(raw);
    assert l[|l| - 1] == 'L';
    assert StripRight(l) == l;
  }

  /** What the first loop files for each row: its table key and its column definition. */
  function Filing(rows: seq<SchemaRow>): Items {
    seq(|rows|, i requires 0 <= i < |rows| => (TableKey(rows[i]), ColumnDef(rows[i])))
  }

  /** The definitions filed under `key`, in filing order. */
  function ColumnsOf(filing: Items, key: string): seq<string> {
    if filing == [] then []
    else
      var last := filing[|filing| - 1];
      ColumnsOf(filing[..|filing| - 1], key) + if last.0 == key then [last.1] else []
  }

  /** A table has columns exactly when something is filed under it. */
  lemma {:induction false} ColumnsOfNonEmpty(filing: Items, key: string)
    ensures ColumnsOf(filing, key) != [] <==> key in Keys(filing)
  {
    if filing != [] {
      var init := filing[..|filing| - 1];
      ColumnsOfNonEmpty(init, key);
      assert Keys(filing) == Keys(init) + [filing[|filing| - 1].0];
    }
  }

  /** One table's block: `key:`, its column definitions one per line, then a blank line. */
  function Block(key: string, cols: seq<string>): string {
    key + ":\n" + Join("\n", cols) + "\n\n"
  }

  function Blocks(keys: seq<string>, filing: Items): string {
    if keys == [] then ""
    else Blocks(keys[..|keys| - 1], filing) + Block(keys[|keys| - 1], ColumnsOf(filing, keys[|keys| - 1]))
  }

  /** The tables of the rows, in the order their first rows come. */
  function Tables(rows: seq<SchemaRow>): seq<string> {
    FirstSeen(Keys(Filing(rows)))
  }

  /** The text `fetch_table_schema` returns for the rows of its query. */
  function SchemaText(rows: seq<SchemaRow>): string {
    Blocks(Tables(rows), Filing(rows))
  }

  lemma FilingPrefix(rows: seq<SchemaRow>, n: nat)
    requires n <= |rows|
    ensures Filing(rows[..n]) == Filing(rows)[..n]
  {
  }

  lemma FilingStep(rows: seq<SchemaRow>, i: nat)
    requires i < |rows|
    ensures Filing(rows[..i + 1]) == Filing(rows[..i]) + [(TableKey(rows[i]), ColumnDef(rows[i]))]
  {
    FilingPrefix(rows, i);
    FilingPrefix(rows, i + 1);
  }

  /** Each table of the rows gets one block, and the blocks come in first-seen order: the
      tables of any prefix of the rows lead the tables of all of them. */
  lemma SchemaTables(rows: seq<SchemaRow>)
    ensures Distinct(Tables(rows))
    ensures forall k :: k in Tables(rows) <==> exists i :: 0 <= i < |rows| && TableKey(rows[i]) == k
    ensures forall n :: 0 <= n <= |rows| ==> Tables(rows[..n]) <= Tables(rows)
  {
    var keys := Keys(Filing(rows));
    FirstSeenDistinct(keys);
    FirstSeenMembers(keys);
    forall i | 0 <= i < |rows|
      ensures TableKey(rows[i]) in keys
    {
      assert keys[i] == TableKey(rows[i]);
    }
    forall k | k in keys
      ensures exists i :: 0 <= i < |rows| && TableKey(rows[i]) == k
    {
      var i :| 0 <= i < |rows| && keys[i] == k;
    }
    forall n | 0 <= n <= |rows|
      ensures Tables(rows[..n]) <= Tables(rows)
    {
      FilingPrefix(rows, n);
      assert keys[..n] == Keys(Filing(rows[..n]));
      FirstSeenPrefix(keys, n);
    }
  }

  /** Columns are filed in row order: what two runs file under a table is what the first run
      files followed by what the second files. */
  lemma {:induction false} ColumnsInOrder(a: Items, b: Items, key: string)
    ensures ColumnsOf(a + b, key) == ColumnsOf(a, key) + ColumnsOf(b, key)
    decreases |b|
  {
    if b == [] {
      assert a + b == a;
    } else {
      var init := b[..|b| - 1];
      ColumnsInOrder(a, init, key);
      assert (a + b)[..|a + b| - 1] == a + init;
    }
  }

  /** Every row's definition is filed under its own table. */
  lemma EveryRowFiled(rows: seq<SchemaRow>, i: nat)
    requires i < |rows|
    ensures ColumnDef(rows[i]) in ColumnsOf(Filing(rows), TableKey(rows[i]))
  {
    var f := Filing(rows);
    var key := TableKey(rows[i]);
    assert f == f[..i + 1] + f[i + 1..];
    ColumnsInOrder(f[..i + 1], f[i + 1..], key);
    assert f[..i + 1][..i] == f[..i];
    assert ColumnsOf(f[..i + 1], key) == ColumnsOf(f[..i], key) + [ColumnDef(rows[i])];
  }

  lemma {:induction false} BlocksEnds(keys: seq<string>, filing: Items)
    requires keys != []
    ensures StartsWith(Blocks(keys, filing), keys[0] + ":\n")
    ensures EndsWith(Blocks(keys, filing), "\n\n")
  {
    var init := keys[..|keys| - 1];
    var last := Block(keys[|keys| - 1], ColumnsOf(filing, keys[|keys| - 1]));
    if init != [] {
      BlocksEnds(init, filing);
      assert Blocks(keys, filing)[..|keys[0] + ":\n"|] == Blocks(init, filing)[..|keys[0] + ":\n"|];
    } else {
      assert Blocks(keys, filing) == last;
    }
    assert Blocks(keys, filing)[|Blocks(keys, filing)| - 2..] == last[|last| - 2..];
  }

  /** No rows give the empty text; otherwise the text opens with the block of the first row's
      table and ends with a blank line. */
  lemma SchemaTextShape(rows: seq<SchemaRow>)
    ensures rows == [] <==> SchemaText(rows) == ""
    ensures rows != [] ==> StartsWith(SchemaText(rows), TableKey(rows[0]) + ":\n")
    ensures rows != [] ==> EndsWith(SchemaText(rows), "\n\n")
  {
    if rows != [] {
      var keys := Keys(Filing(rows));
      FirstSeenPrefix(keys, 1);
      assert keys[..1] == [TableKey(rows[0])];
      assert FirstSeen(keys[..1]) == [TableKey(rows[0])];
      BlocksEnds(Tables(rows), Filing(rows));
    }
  }

  /** What the first loop of `fetch_table_schema` has built after `i` rows: the tables met so
      far in first-seen order, and for each of them its column definitions in row order. */
  ghost predicate Filed(f: Items, order: seq<string>, schemaMap: map<string, seq<string>>) {
    && order == FirstSeen(Keys(f))
    && (forall k :: k in schemaMap <==> k in order)
    && (forall k :: k in schemaMap ==> schemaMap[k] == ColumnsOf(f, k))
  }

  /** Filing one more definition under its table keeps `Filed`. */
  lemma FileRow(f: Items, key: string, def: string, order: seq<string>, schemaMap: map<string, seq<string>>,
                order': seq<string>, schemaMap': map<string, seq<string>>)
    requires Filed(f, order, schemaMap)
    requires order' == (if key in schemaMap then order else order + [key])
    requires schemaMap' == schemaMap[key := (if key in schemaMap then schemaMap[key] else []) + [def]]
    ensures Filed(f + [(key, def)], order', schemaMap')
  {
    var g := f + [(key, def)];
    assert g[..|g| - 1] == f;
    assert Keys(g) == Keys(f) + [key];
    assert Keys(g)[..|g| - 1] == Keys(f);
    forall k | k in schemaMap'
      ensures schemaMap'[k] == ColumnsOf(g, k)
    {
      if k != key {
        assert ColumnsOf(g, k) == ColumnsOf(f, k) + [];
      } else if key !in schemaMap {
        FirstSeenMembers(Keys(f));
        ColumnsOfNonEmpty(f, key);
      }
    }
  }

  lemma BlocksStep(keys: seq<string>, filing: Items, j: nat)
    requires j < |keys|
    ensures Blocks(keys[..j + 1], filing) == Blocks(keys[..j], filing) + Block(keys[j], ColumnsOf(filing, keys[j]))
  {
    assert keys[..j + 1][..j] == keys[..j];
  }

  /** Writing one block piece by piece, as the second loop does, appends that block. */
  lemma WriteBlock(before: string, table: string, cols: seq<string>)
    ensures before + table + ":\n" + Join("\n", cols) + "\n\n" == before + Block(table, cols)
  {
  }

  /** The two loops of `fetch_table_schema` after the query: file each row's definition under
      its table in `schema_map`, then write the tables out in insertion order. */
  method FetchTableSchema(rows: seq<SchemaRow>) returns (schema: string)
    ensures schema == SchemaText(rows)
  {
    var order: seq<string> := [];
    var schemaMap: map<string, seq<string>> := map[];
    for i := 0 to |rows|
      invariant Filed(Filing(rows[..i]), order, schemaMap)
    {
      var key := TableKey(rows[i]);
      var colDef := ColumnDef(rows[i]);
      ghost var order0, schemaMap0 := order, schemaMap;
      if key !in schemaMap {
        schemaMap := schemaMap[key := []];
        order := order + [key];
      }
      schemaMap := schemaMap[key := schemaMap[key] + [colDef]];
      FileRow(Filing(rows[..i]), key, colDef, order0, schemaMap0, order, schemaMap);
      FilingStep(rows, i);
    }
    assert rows[..|rows|] == rows;
    schema := "";
    for j := 0 to |order|
      invariant schema == Blocks(order[..j], Filing(rows))
    {
      var table := order[j];
      assert schemaMap[table] == ColumnsOf(Filing(rows), table);
      BlocksStep(order, Filing(rows), j);
      WriteBlock(schema, table, schemaMap[table]);
      schema := schema + table + ":\n";
      schema := schema + Join("\n", schemaMap[table]);
      schema := schema + "\n\n";
    }
    assert order[..|order|] == order;
  }
}
