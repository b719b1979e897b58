/**
 * The two tool handlers the chat route registers with the language model:
 * `schema` returns a fixed description of the database, and `db` passes a
 * candidate query through the gate and, only if it is accepted, hands the
 * trimmed text to the SQLite client.
 */
module ChatTools {
  import opened JsString
  import opened QueryGate

  const ProductsHeader: string := "CREATE TABLE products (\n"

  const ProductsColumns: string :=
    "\tid integer PRIMARY KEY AUTOINCREMENT NOT NULL,\n"
    + "\tname text NOT NULL,\n"
    + "\tcategory text NOT NULL,\n"
    + "\tprice real NOT NULL,\n"
    + "\tstock integer DEFAULT 0 NOT NULL,\n"
    + "\tcreated_at text DEFAULT CURRENT_TIMESTAMP\n"
    + ");\n"

  const SalesHeader: string := "CREATE TABLE sales (\n"

  const SalesColumns: string :=
    "\tid integer PRIMARY KEY AUTOINCREMENT NOT NULL,\n"
    + "\tproduct_id integer NOT NULL,\n"
    + "\tquantity integer NOT NULL,\n"
    + "\ttotal_amount real NOT NULL,\n"
    + "\tsale_date text DEFAULT CURRENT_TIMESTAMP,\n"
    + "\tcustomer_name text NOT NULL,\n"
    + "\tregion text NOT NULL,\n"

  /** The key that ties every sale to the product sold. */
  const ForeignKey: string := "FOREIGN KEY (product_id) REFERENCES products(id)"

  const SalesTail: string := " ON UPDATE no action ON DELETE no action\n);\n"

  /** The text the `schema` tool returns: both table definitions, separated
      by an empty line. */
  const SchemaDocument: string :=
    ProductsHeader + ProductsColumns + "\n" + SalesHeader + SalesColumns + "\t" + ForeignKey + SalesTail

  lemma OccursInMiddle(a: string, t: string, b: string)
    ensures OccursAt(a + t + b, t, |a|)
  {
    assert (a + t + b)[|a|..|a| + |t|] == t;
  }

  lemma StartsWithFront(a: string, b: string)
    ensures StartsWith(a + b, a)
  {
    assert (a + b)[..|a|] == a;
  }

  /** Regrouping a concatenation of seven pieces around its first, fourth
      and sixth piece. */
  lemma Regroup7(a: string, b: string, c: string, d: string, e: string, f: string, g: string)
    ensures a + b + c + d + e + f + g == a + (b + c + d + e + f + g)
    ensures a + b + c + d + e + f + g == (a + b + c) + d + (e + f + g)
    ensures a + b + c + d + e + f + g == (a + b + c + d + e) + f + g
  {
  }

  /** The `schema` handler: takes no input and always returns the same
      document, which opens with the products table and also defines the
      sales table with its foreign key to products. */
  function SchemaTool(): (doc: string)
    ensures StartsWith(doc, ProductsHeader)
    ensures exists i, j :: OccursAt(doc, SalesHeader, i) && OccursAt(doc, ForeignKey, j) && i < j
  {
    SchemaLayout(ProductsHeader, ProductsColumns, SalesHeader, SalesColumns, ForeignKey, SalesTail);
    SchemaDocument
  }

  /** Where the pieces of a schema document laid out like `SchemaDocument`
      sit in it: the key comes after the second table's header. */
  lemma SchemaLayout(ph: string, pc: string, sh: string, sc: string, fk: string, st: string)
    ensures var doc := ph + pc + "\n" + sh + sc + "\t" + fk + st;
      && StartsWith(doc, ph)
      && OccursAt(doc, sh, |ph + pc + "\n"|)
      && OccursAt(doc, fk, |ph + pc + "\n" + sh + sc + "\t"|)
      && |ph + pc + "\n"| < |ph + pc + "\n" + sh + sc + "\t"|
  {
    Regroup7(ph, pc, "\n", sh, sc + "\t", fk, st);
    StartsWithFront(ph, pc + "\n" + sh + (sc + "\t") + fk + st);
    OccursInMiddle(ph + pc + "\n", sh, sc + "\t" + fk + st);
    OccursInMiddle(ph + pc + "\n" + sh + (sc + "\t"), fk, st);
  }

  /** What the SQLite client reports for one statement: its rows, or the
      store's own diagnostic. */
  datatype StoreResult<R> = Rows(rows: R) | StoreError(message: string)

  /** What a tool handler hands back to the model: a value, or the message of
      the Error it threw. */
  datatype ToolResult<R> = Output(value: R) | Thrown(message: string)

  /** One run of the `db` handler: what it returned to the model and the
      statements it passed to the store, in order. */
  datatype DbCall<R> = DbCall(result: ToolResult<R>, executed: seq<string>)

  /** The `db` handler. The store is the function `run`: the model sees it
      only through the statements passed to it. The store is reached at most
      once, exactly when the gate accepts, with the trimmed query, which the
      gate would accept again unchanged; a rejection throws the gate's
      message and leaves the store untouched. The store's rows come back as
      the tool's output, and a store failure surfaces as a thrown Error
      carrying the store's message unchanged. */
  function DbTool<R>(query: string, run: string -> StoreResult<R>): (call: DbCall<R>)
    ensures |call.executed| <= 1
    ensures call.executed == [] <==> Validate(query).Rejected?
    ensures call.executed != [] ==> call.executed == [Trim(query)]
    ensures Validate(query).Rejected? ==> call.result == Thrown(Validate(query).reason.Message())
    ensures Validate(query).Accepted? && run(Trim(query)).Rows? ==>
              call.result == Output(run(Trim(query)).rows)
    ensures Validate(query).Accepted? && run(Trim(query)).StoreError? ==>
              call.result == Thrown(run(Trim(query)).message)
  {
    var verdict := Validate(query);
    if verdict.Rejected? then DbCall(Thrown(verdict.reason.Message()), [])
    else match run(verdict.sanitized)
      case Rows(rows) => DbCall(Output(rows), [verdict.sanitized])
      case StoreError(message) => DbCall(Thrown(message), [verdict.sanitized])
  }

  /** Every statement the handler passes to the store is one the gate
      accepts again exactly as it is. */
  lemma ExecutedQueriesPassGate<R>(query: string, run: string -> StoreResult<R>)
    ensures forall q :: q in DbTool(query, run).executed ==> Validate(q) == Accepted(q)
  {
    var call := DbTool(query, run);
    if Validate(query).Accepted? {
      var q := Trim(query);
      assert call.executed == [q];
      AcceptedIsFixedPoint(query);
      assert Validate(q) == Accepted(q);
    } else {
      assert call.executed == [];
    }
  }

  /** A rejected query's outcome does not depend on the store at all: no
      statement reaches it, whatever it would have answered. */
  lemma RejectionIgnoresStore<R>(query: string, run: string -> StoreResult<R>, other: string -> StoreResult<R>)
    requires Validate(query).Rejected?
    ensures DbTool(query, run) == DbTool(query, other)
    ensures DbTool(query, run).executed == []
  {
  }

  /** An accepted query's outcome depends on the store only through its
      answer to the trimmed query. */
  lemma AcceptedDependsOnlyOnTrimmedQuery<R>(query: string, run: string -> StoreResult<R>, other: string -> StoreResult<R>)
    requires Validate(query).Accepted?
    requires run(Trim(query)) == other(Trim(query))
    ensures DbTool(query, run) == DbTool(query, other)
  {
  }

  /** A store error on an accepted query is thrown by the handler verbatim. */
  lemma StoreErrorThrownVerbatim<R>(query: string, run: string -> StoreResult<R>)
    requires Validate(query).Accepted? && run(Trim(query)).StoreError?
    ensures DbTool(query, run).result == Thrown(run(Trim(query)).message)
    ensures DbTool(query, run).executed == [Trim(query)]
  {
  }
}
