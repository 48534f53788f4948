/**
 * The mock back end of src/lib/database.ts: the catalogue of database
 * engines, the canned result tables and documents, and the keyword-driven
 * translation of a request into SQL or MongoDB text. Every function here is
 * pure; each keyword test is `includes` on the lower-cased text, and the
 * tests are tried in the source's order.
 */
module MockDatabase {
  import opened Records
  import opened Strings
  import opened CapturePattern

  // ---------------------------------------------------------------------
  // Values in results
  // ---------------------------------------------------------------------

  /** A JSON value as the mock data holds it. Decimal numbers such as
      1299.99 are kept as their literal: nothing computes with them. */
  datatype Json =
    | JStr(str: string)
    | JInt(number: int)
    | JDecimal(literal: string)
    | JArray(items: seq<Json>)
    | JObject(fields: map<string, Json>)

  type Row = map<string, Json>

  /** `{ columns, rows }`, the shape of an SQL result. */
  datatype Table = Table(columns: seq<string>, rows: seq<Row>)

  function ColumnSet(columns: seq<string>): set<string> {
    set c | c in columns
  }

  /** Every row has exactly the listed columns as keys. */
  predicate RowsFitColumns(t: Table) {
    forall row :: row in t.rows ==> row.Keys == ColumnSet(t.columns)
  }

  // ---------------------------------------------------------------------
  // The engine catalogue (database.ts:16-76)
  // ---------------------------------------------------------------------

  datatype DatabaseOption = DatabaseOption(
    id: string,
    name: string,
    kind: DatabaseType,
    description: string,
    image: string,
    popular: Option<bool>)

  const DatabaseOptions: seq<DatabaseOption> := [
    DatabaseOption("mysql", "MySQL", Sql,
      "Open-source relational database management system",
      "https://www.mysql.com/common/logos/logo-mysql-170x115.png", Some(true)),
    DatabaseOption("postgresql", "PostgreSQL", Sql,
      "Powerful, open source object-relational database system",
      "https://www.postgresql.org/media/img/about/press/elephant.png", Some(true)),
    DatabaseOption("sqlite", "SQLite", Sql,
      "Lightweight, disk-based database that doesn't require a server",
      "https://www.sqlite.org/images/sqlite370_banner.gif", None),
    DatabaseOption("sqlserver", "SQL Server", Sql,
      "Microsoft's relational database management system",
      "https://cdn-icons-png.flaticon.com/512/5968/5968364.png", None),
    DatabaseOption("mongodb", "MongoDB", NoSql,
      "Document-oriented NoSQL database",
      "https://cdn.iconscout.com/icon/free/png-256/free-mongodb-5-1175140.png", Some(true)),
    DatabaseOption("couchdb", "CouchDB", NoSql,
      "Document-oriented NoSQL database that uses JSON",
      "https://couchdb.apache.org/image/couch-logo.png", None),
    DatabaseOption("dynamodb", "DynamoDB", NoSql,
      "AWS's fully managed NoSQL database service",
      "https://cdn.worldvectorlogo.com/logos/aws-dynamodb.svg", None),
    DatabaseOption("cassandra", "Cassandra", NoSql,
      "Free and open-source, distributed, wide column store",
      "https://cassandra.apache.org/_/img/cassandra_logo.png", None)
  ]

  /** The first four engines are relational, the last four are not, and
      `mongodb` is listed once, as the fifth. */
  lemma CatalogueKinds()
    ensures |DatabaseOptions| == 8
    ensures forall i :: 0 <= i < |DatabaseOptions| ==> (DatabaseOptions[i].kind == Sql <==> i < 4)
    ensures forall i :: 0 <= i < |DatabaseOptions| ==> (DatabaseOptions[i].id == "mongodb" <==> i == 4)
  {
    var ids := seq(|DatabaseOptions|, i requires 0 <= i < |DatabaseOptions| => DatabaseOptions[i].id);
    assert ids == ["mysql", "postgresql", "sqlite", "sqlserver", "mongodb", "couchdb", "dynamodb", "cassandra"];
    forall i | 0 <= i < |ids| && i != 4
      ensures ids[i] != "mongodb"
    {
      assert ids[i][0] != 'm' || ids[i][1] != 'o';
    }
  }

  // ---------------------------------------------------------------------
  // Canned SQL results (database.ts:94-129)
  // ---------------------------------------------------------------------

  const ExecutedSuccessfully: string := "Query executed successfully"

  const UsersColumns: seq<string> := ["id", "name", "email", "created_at"]
  const ProductsColumns: seq<string> := ["id", "name", "price", "category"]
  const OrdersColumns: seq<string> := ["id", "user_id", "total", "status"]

  const UsersTable: Table := Table(UsersColumns, [
    map["id" := JInt(1), "name" := JStr("John Doe"), "email" := JStr("john@example.com"), "created_at" := JStr("2023-01-15")],
    map["id" := JInt(2), "name" := JStr("Jane Smith"), "email" := JStr("jane@example.com"), "created_at" := JStr("2023-02-20")],
    map["id" := JInt(3), "name" := JStr("Mike Johnson"), "email" := JStr("mike@example.com"), "created_at" := JStr("2023-03-10")]
  ])

  const ProductsTable: Table := Table(ProductsColumns, [
    map["id" := JInt(1), "name" := JStr("Laptop"), "price" := JDecimal("1299.99"), "category" := JStr("Electronics")],
    map["id" := JInt(2), "name" := JStr("Headphones"), "price" := JDecimal("199.99"), "category" := JStr("Electronics")],
    map["id" := JInt(3), "name" := JStr("Coffee Maker"), "price" := JDecimal("89.99"), "category" := JStr("Kitchen")]
  ])

  const OrdersTable: Table := Table(OrdersColumns, [
    map["id" := JInt(1), "user_id" := JInt(1), "total" := JDecimal("1499.98"), "status" := JStr("Completed")],
    map["id" := JInt(2), "user_id" := JInt(2), "total" := JDecimal("89.99"), "status" := JStr("Processing")],
    map["id" := JInt(3), "user_id" := JInt(1), "total" := JDecimal("199.99"), "status" := JStr("Shipped")]
  ])

  const SuccessTable: Table := Table(["result"], [map["result" := JStr(ExecutedSuccessfully)]])

  predicate SelectsFrom(lowered: string, table: string) {
    Includes(lowered, "select") && Includes(lowered, "from " + table)
  }

  lemma UsersTableFits()
    ensures RowsFitColumns(UsersTable)
  {
    assert ColumnSet(UsersColumns) == {"id", "name", "email", "created_at"};
  }

  lemma ProductsTableFits()
    ensures RowsFitColumns(ProductsTable)
  {
    assert ColumnSet(ProductsColumns) == {"id", "name", "price", "category"};
  }

  lemma OrdersTableFits()
    ensures RowsFitColumns(OrdersTable)
  {
    assert ColumnSet(OrdersColumns) == {"id", "user_id", "total", "status"};
  }

  lemma SuccessTableFits()
    ensures RowsFitColumns(SuccessTable)
  {
    assert ColumnSet(["result"]) == {"result"};
  }

  /** `generateMockSqlResults(query)`. */
  function GenerateMockSqlResults(query: string): (r: Table)
    ensures RowsFitColumns(r)
    ensures |r.columns| >= 1 && |r.rows| >= 1
    ensures r == UsersTable <==> SelectsFrom(ToLower(query), "users")
    ensures r == ProductsTable <==>
      !SelectsFrom(ToLower(query), "users") && SelectsFrom(ToLower(query), "products")
    ensures r == OrdersTable <==>
      !SelectsFrom(ToLower(query), "users") && !SelectsFrom(ToLower(query), "products")
      && SelectsFrom(ToLower(query), "orders")
    ensures r == SuccessTable <==>
      !(SelectsFrom(ToLower(query), "users") || SelectsFrom(ToLower(query), "products")
        || SelectsFrom(ToLower(query), "orders"))
  {
    var q := ToLower(query);
    UsersTableFits();
    ProductsTableFits();
    OrdersTableFits();
    SuccessTableFits();
    if SelectsFrom(q, "users") then UsersTable
    else if SelectsFrom(q, "products") then ProductsTable
    else if SelectsFrom(q, "orders") then OrdersTable
    else SuccessTable
  }

  /** The users table wins over the products and orders tables. */
  lemma SqlUsersBranchFirst(query: string)
    requires SelectsFrom(ToLower(query), "users")
    ensures GenerateMockSqlResults(query) == UsersTable
  {
  }

  /** Without the word `select` every query gets the one-row success table. */
  lemma SqlNeedsSelect(query: string)
    requires !Includes(ToLower(query), "select")
    ensures GenerateMockSqlResults(query) == SuccessTable
  {
  }

  // ---------------------------------------------------------------------
  // Canned NoSQL documents (database.ts:132-173)
  // ---------------------------------------------------------------------

  type Document = map<string, Json>

  const UserDocuments: seq<Document> := [
    map["_id" := JStr("a1b2c3"), "name" := JStr("John Doe"), "email" := JStr("john@example.com"), "createdAt" := JStr("2023-01-15")],
    map["_id" := JStr("d4e5f6"), "name" := JStr("Jane Smith"), "email" := JStr("jane@example.com"), "createdAt" := JStr("2023-02-20")],
    map["_id" := JStr("g7h8i9"), "name" := JStr("Mike Johnson"), "email" := JStr("mike@example.com"), "createdAt" := JStr("2023-03-10")]
  ]

  const ProductDocuments: seq<Document> := [
    map["_id" := JStr("p1q2r3"), "name" := JStr("Laptop"), "price" := JDecimal("1299.99"), "category" := JStr("Electronics")],
    map["_id" := JStr("s4t5u6"), "name" := JStr("Headphones"), "price" := JDecimal("199.99"), "category" := JStr("Electronics")],
    map["_id" := JStr("v7w8x9"), "name" := JStr("Coffee Maker"), "price" := JDecimal("89.99"), "category" := JStr("Kitchen")]
  ]

  function OrderItem(productId: string, price: string): Json {
    JObject(map["productId" := JStr(productId), "quantity" := JInt(1), "price" := JDecimal(price)])
  }

  const OrderDocuments: seq<Document> := [
    map["_id" := JStr("o1p2q3"), "userId" := JStr("a1b2c3"),
        "items" := JArray([OrderItem("p1q2r3", "1299.99"), OrderItem("s4t5u6", "199.99")]),
        "total" := JDecimal("1499.98"), "status" := JStr("Completed"), "createdAt" := JStr("2023-04-12")],
    map["_id" := JStr("r4s5t6"), "userId" := JStr("d4e5f6"),
        "items" := JArray([OrderItem("v7w8x9", "89.99")]),
        "total" := JDecimal("89.99"), "status" := JStr("Processing"), "createdAt" := JStr("2023-05-05")]
  ]

  const SuccessDocuments: seq<Document> := [map["result" := JStr(ExecutedSuccessfully)]]

  predicate FindsIn(lowered: string, collection: string) {
    Includes(lowered, "find") && Includes(lowered, collection)
  }

  /** `generateMockNoSqlResults(query)`. */
  function GenerateMockNoSqlResults(query: string): (r: seq<Document>)
    ensures |r| >= 1
    ensures r == SuccessDocuments <==>
      !(FindsIn(ToLower(query), "users") || FindsIn(ToLower(query), "products") || FindsIn(ToLower(query), "orders"))
  {
    var q := ToLower(query);
    if FindsIn(q, "users") then UserDocuments
    else if FindsIn(q, "products") then ProductDocuments
    else if FindsIn(q, "orders") then OrderDocuments
    else SuccessDocuments
  }

  /** Without the word `find` every query gets the one success document. */
  lemma NoSqlNeedsFind(query: string)
    requires !Includes(ToLower(query), "find")
    ensures GenerateMockNoSqlResults(query) == SuccessDocuments
  {
  }

  // ---------------------------------------------------------------------
  // Values pulled out of a request (database.ts:183-184, 188-189)
  // ---------------------------------------------------------------------

  predicate IsQuote(c: char) {
    c == '\'' || c == '"'
  }

  /** `.replace(/['"]/g, '')`. */
  function StripQuotes(s: string): (r: string)
    ensures |r| <= |s|
    ensures forall i :: 0 <= i < |r| ==> !IsQuote(r[i])
  {
    if s == [] then []
    else (if IsQuote(s[0]) then [] else [s[0]]) + StripQuotes(s[1..])
  }

  /** Stripping works character by character: the text splits anywhere
      into two parts that are stripped on their own. */
  lemma {:induction false} StripQuotesAppend(a: string, b: string)
    ensures StripQuotes(a + b) == StripQuotes(a) + StripQuotes(b)
    decreases |a|
  {
    if a != [] {
      assert (a + b)[0] == a[0];
      assert (a + b)[1..] == a[1..] + b;
      StripQuotesAppend(a[1..], b);
    } else {
      assert a + b == b;
    }
  }

  /** One character: a quote is removed, anything else is kept. */
  lemma StripQuotesChar(c: char)
    ensures IsQuote(c) ==> StripQuotes([c]) == []
    ensures !IsQuote(c) ==> StripQuotes([c]) == [c]
  {
    assert [c][1..] == [];
  }

  /** Text without quotes is left as it is. */
  lemma {:induction false} StripQuotesUnquoted(s: string)
    requires forall i :: 0 <= i < |s| ==> !IsQuote(s[i])
    ensures StripQuotes(s) == s
  {
    if s != [] {
      StripQuotesUnquoted(s[1..]);
    }
  }

  /** Stripping quotes adds no upper-case letter. */
  lemma {:induction false} StripQuotesKeepsLowerCase(s: string)
    requires forall i :: 0 <= i < |s| ==> !IsUpperAscii(s[i])
    ensures forall i :: 0 <= i < |StripQuotes(s)| ==> !IsUpperAscii(StripQuotes(s)[i])
  {
    if s != [] {
      StripQuotesKeepsLowerCase(s[1..]);
    }
  }

  /** The value after `KEY`, quotes removed, or the fallback. */
  function ExtractedOr(lowered: string, key: string, fallback: string): (v: string)
    ensures Capture(lowered, key).None? ==> v == fallback
    ensures Capture(lowered, key).Some? ==> forall i :: 0 <= i < |v| ==> !IsQuote(v[i])
  {
    match Capture(lowered, key)
    case Some(c) => StripQuotes(c)
    case None => fallback
  }

  const EmailKey: string := "email is "
  const CategoryKey: string := "category is "
  const DefaultEmail: string := "example@email.com"
  const DefaultCategory: string := "Electronics"

  function EmailOf(lowered: string): string {
    ExtractedOr(lowered, EmailKey, DefaultEmail)
  }

  function CategoryOf(lowered: string): string {
    ExtractedOr(lowered, CategoryKey, DefaultCategory)
  }

  /** The email in the query never holds a quote, whether it was captured or
      defaulted. */
  lemma EmailUnquoted(lowered: string)
    ensures forall i :: 0 <= i < |EmailOf(lowered)| ==> !IsQuote(EmailOf(lowered)[i])
  {
  }

  /** A captured category comes from lower-cased text, so it is never the
      capitalised default `Electronics`: the default shows up exactly when
      nothing was captured. */
  lemma CapturedCategoryIsNotDefault(request: string)
    requires Capture(ToLower(request), CategoryKey).Some?
    ensures CategoryOf(ToLower(request)) != DefaultCategory
  {
    var l := ToLower(request);
    ToLowerShape(request);
    CaptureOfLowerCase(l, CategoryKey);
    StripQuotesKeepsLowerCase(Capture(l, CategoryKey).value);
    assert DefaultCategory[0] == 'E';
  }

  // ---------------------------------------------------------------------
  // Keyword tests shared by both translators (database.ts:180-197, 212-233)
  // ---------------------------------------------------------------------

  predicate ListsUsers(l: string) {
    Includes(l, "show all users") || Includes(l, "list all users")
  }

  predicate FindsUserByEmail(l: string) {
    Includes(l, "find user") && Includes(l, "email")
  }

  predicate CountsProducts(l: string) {
    Includes(l, "count") && Includes(l, "products")
  }

  predicate SumsOrders(l: string) {
    Includes(l, "sum") && Includes(l, "orders")
  }

  predicate AveragesPrice(l: string) {
    Includes(l, "average") && Includes(l, "price")
  }

  predicate JoinsUsersAndOrders(l: string) {
    Includes(l, "join") || (Includes(l, "users") && Includes(l, "orders"))
  }

  /** Some keyword branch of the translators fires. */
  predicate KeywordMatched(l: string) {
    ListsUsers(l) || FindsUserByEmail(l) || CountsProducts(l)
    || SumsOrders(l) || AveragesPrice(l) || JoinsUsersAndOrders(l)
  }

  // ---------------------------------------------------------------------
  // Natural language to SQL (database.ts:176-204)
  // ---------------------------------------------------------------------

  const ListUsersSql: string := "SELECT * FROM users;"
  /** The three-line join query; the pieces concatenate to the source's
      template literal, trailing spaces included. */
  const JoinSql: string :=
    "SELECT users.name, " + "orders.total, orders.status \n"
    + "FROM users \n"
    + "JOIN orders ON users.id = orders.user_id;"

  function SqlFallback(naturalLanguage: string): string {
    "-- Translated query from: \"" + naturalLanguage + "\"\nSELECT * FROM table_name WHERE condition;"
  }

  /** The result is the commented placeholder rather than a real query. */
  predicate IsSqlComment(r: string) {
    |r| >= 2 && r[0] == '-' && r[1] == '-'
  }

  /** `translateToSql(naturalLanguage, databaseType)`; the second argument is
      not used. */
  function TranslateToSql(naturalLanguage: string, databaseType: string): (r: string)
    ensures IsSqlComment(r) <==> !KeywordMatched(ToLower(naturalLanguage))
    ensures IsSqlComment(r) ==> r == SqlFallback(naturalLanguage)
  {
    var l := ToLower(naturalLanguage);
    if ListsUsers(l) then ListUsersSql
    else if FindsUserByEmail(l) then
      "SELECT * FROM users WHERE email = '" + EmailOf(l) + "';"
    else if CountsProducts(l) then
      if Includes(l, "category") then
        "SELECT COUNT(*) FROM products " + "WHERE category = '" + CategoryOf(l) + "';"
      else "SELECT COUNT(*) FROM products;"
    else if SumsOrders(l) then "SELECT SUM(total) FROM orders;"
    else if AveragesPrice(l) then "SELECT AVG(price) FROM products;"
    else if JoinsUsersAndOrders(l) then JoinSql
    else SqlFallback(naturalLanguage)
  }

  /** Either phrase for listing users gives exactly the list query. */
  lemma ListUsersGivesSelectAll(naturalLanguage: string, databaseType: string)
    requires ListsUsers(ToLower(naturalLanguage))
    ensures TranslateToSql(naturalLanguage, databaseType) == ListUsersSql
  {
  }

  /** The users test comes before the join test: a request that lists
      users wins over one that would also join users and orders. */
  lemma ListUsersBeatsJoin(naturalLanguage: string, databaseType: string)
    requires ListsUsers(ToLower(naturalLanguage)) && JoinsUsersAndOrders(ToLower(naturalLanguage))
    ensures TranslateToSql(naturalLanguage, databaseType) == ListUsersSql != JoinSql
  {
  }

  /** Lower-casing the sample requests and the list query. */
  lemma LowerCaseExamples()
    ensures ToLower("show all users with orders") == "show all users with orders"
    ensures ToLower("Show all users") == "show all users"
    ensures ToLower(ListUsersSql) == "select * from users;"
  {
  }

  /** "show all users with orders" passes both the users test and the join
      test, and gets the list query. */
  lemma ShowAllUsersWithOrders()
    ensures ListsUsers(ToLower("show all users with orders"))
    ensures JoinsUsersAndOrders(ToLower("show all users with orders"))
    ensures TranslateToSql("show all users with orders", "sql") == ListUsersSql
  {
    var s := "show all users with orders";
    LowerCaseExamples();
    IncludesPrefix(s, "show all users");
    IncludesAt(s, "users", 9);
    IncludesAt(s, "orders", 20);
  }

  /** The find-user branch: the email is the captured value without quotes,
      or `example@email.com` when the `email is` pattern does not match. */
  lemma FindUserByEmailQuery(naturalLanguage: string, databaseType: string)
    requires !ListsUsers(ToLower(naturalLanguage)) && FindsUserByEmail(ToLower(naturalLanguage))
    ensures var l := ToLower(naturalLanguage);
      TranslateToSql(naturalLanguage, databaseType) == "SELECT * FROM users WHERE email = '" + EmailOf(l) + "';"
      && (Capture(l, EmailKey).None? ==> EmailOf(l) == DefaultEmail)
      && (Capture(l, EmailKey).Some? ==> EmailOf(l) == StripQuotes(Capture(l, EmailKey).value))
  {
  }

  /** The count branch: with "category" the query filters on the captured
      or default category, without it the query counts every product. */
  lemma CountProductsQuery(naturalLanguage: string, databaseType: string)
    requires var l := ToLower(naturalLanguage);
      !ListsUsers(l) && !FindsUserByEmail(l) && CountsProducts(l)
    ensures var l := ToLower(naturalLanguage);
      TranslateToSql(naturalLanguage, databaseType) ==
        if Includes(l, "category")
        then "SELECT COUNT(*) FROM products " + "WHERE category = '" + CategoryOf(l) + "';"
        else "SELECT COUNT(*) FROM products;"
  {
  }

  /** A request with no keyword is echoed verbatim, not lower-cased. */
  lemma UnmatchedEchoesRequest(naturalLanguage: string, databaseType: string)
    requires !KeywordMatched(ToLower(naturalLanguage))
    ensures TranslateToSql(naturalLanguage, databaseType) == SqlFallback(naturalLanguage)
  {
  }

  // ---------------------------------------------------------------------
  // Natural language to MongoDB (database.ts:207-248)
  // ---------------------------------------------------------------------

  const ListUsersMongo: string := "db.users.find({})"
  // The multi-line templates, one source line per piece.
  const SumOrdersMongo: string :=
    "db.orders.aggregate([\n"
    + "  { $group: { _id: null, total: { $sum: \"$total\" } } }\n"
    + "])"
  const AveragePriceMongo: string :=
    "db.products.aggregate([\n"
    + "  { $group: { _id: null, avgPrice: { $avg: \"$price\" } } }\n"
    + "])"
  const JoinMongo: string :=
    "db.orders.aggregate([\n"
    + "  { $lookup: {\n"
    + "      from: \"users\",\n"
    + "      localField: \"userId\",\n"
    + "      foreignField: \"_id\",\n"
    + "      as: \"user\"\n"
    + "  }},\n"
    + "  { $unwind: \"$user\" },\n"
    + "  { $project: { \"user.name\": 1, total: 1, status: 1 } }\n"
    + "])"

  function NoSqlFallback(naturalLanguage: string): string {
    "// Translated query from: \"" + naturalLanguage + "\"\ndb.collection.find({ key: \"value\" })"
  }

  predicate IsNoSqlComment(r: string) {
    |r| >= 2 && r[0] == '/' && r[1] == '/'
  }

  /** `translateToNoSql(naturalLanguage, databaseType)`: only the engine id
      `mongodb` gets a real query. */
  function TranslateToNoSql(naturalLanguage: string, databaseType: string): (r: string)
    ensures IsNoSqlComment(r) <==> databaseType != "mongodb" || !KeywordMatched(ToLower(naturalLanguage))
    ensures IsNoSqlComment(r) ==> r == NoSqlFallback(naturalLanguage)
  {
    var l := ToLower(naturalLanguage);
    var fallback := NoSqlFallback(naturalLanguage);
    if databaseType == "mongodb" then
      if ListsUsers(l) then ListUsersMongo
      else if FindsUserByEmail(l) then
        "db.users.find({ email: \"" + EmailOf(l) + "\" })"
      else if CountsProducts(l) then
        if Includes(l, "category") then
          "db.products.countDocuments({ category: \"" + CategoryOf(l) + "\" })"
        else "db.products.countDocuments({})"
      else if SumsOrders(l) then SumOrdersMongo
      else if AveragesPrice(l) then AveragePriceMongo
      else if JoinsUsersAndOrders(l) then JoinMongo
      else fallback
    else fallback
  }

  /** Any engine id other than `mongodb` (`nosql` included) gets the
      placeholder, whatever the request says. */
  lemma NoSqlPlaceholderUnlessMongo(naturalLanguage: string, databaseType: string)
    requires databaseType != "mongodb"
    ensures TranslateToNoSql(naturalLanguage, databaseType) == NoSqlFallback(naturalLanguage)
  {
  }

  /** For `mongodb` the two translators recognise the same requests: one
      answers with its placeholder exactly when the other does. */
  lemma MongoMirrorsSql(naturalLanguage: string, databaseType: string)
    ensures IsNoSqlComment(TranslateToNoSql(naturalLanguage, "mongodb"))
        <==> IsSqlComment(TranslateToSql(naturalLanguage, databaseType))
  {
  }

  /** For `mongodb`, either phrase for listing users gives `db.users.find({})`. */
  lemma MongoListUsers(naturalLanguage: string)
    requires ListsUsers(ToLower(naturalLanguage))
    ensures TranslateToNoSql(naturalLanguage, "mongodb") == ListUsersMongo
  {
  }

  // ---------------------------------------------------------------------
  // One request carried through (the "Show all users" scenario)
  // ---------------------------------------------------------------------

  /** "Show all users" becomes the list query, and executing that query
      yields the users table. */
  lemma ShowAllUsersScenario()
    ensures TranslateToSql("Show all users", "sql") == ListUsersSql
    ensures GenerateMockSqlResults(ListUsersSql) == UsersTable
  {
    LowerCaseExamples();
    IncludesPrefix("show all users", "show all users");
    var q := "select * from users;";
    IncludesPrefix(q, "select");
    assert "from " + "users" == "from users";
    IncludesAt(q, "from users", 9);
    SqlUsersBranchFirst(ListUsersSql);
  }
}
