/** The database as the models see it: a parameterised query goes in, a
    settled promise of rows comes out. What the database does with the query
    is not modelled; `Db` stands for any such behaviour. */
module Store {
  import opened JsValues
  import opened Express

  /** A result row: column name to value. */
  type Row = map<string, Value>

  /** A piece of query text: literal SQL, or the placeholder `$k` of the k-th bound parameter. */
  datatype Fragment = Sql(text: string) | Slot(k: nat)

  /** A query as `db.query(text, params)` receives it, with the text kept as
      fragments so that placeholders are visible. */
  datatype Query = Query(template: seq<Fragment>, params: seq<Value>)

  /** A settled promise: resolved with a value or rejected with an error. */
  datatype Settled<+T> = Resolved(value: T) | Rejected(reason: ErrorValue)

  /** The database: the rows a query resolves with, or the error it rejects with. */
  type Db = Query -> Settled<seq<Row>>

  /** The decimal digits of a natural number. */
  function Digits(n: nat): (s: string)
    ensures |s| > 0
    decreases n
  {
    var d := ['0' + (n % 10) as char];
    if n < 10 then d else Digits(n / 10) + d
  }

  /** The SQL text the database receives. */
  function Render(template: seq<Fragment>): (text: string)
  {
    if |template| == 0 then ""
    else
      (match template[0]
       case Sql(t) => t
       case Slot(k) => "$" + Digits(k))
      + Render(template[1..])
  }

  /** Every placeholder names a parameter that is supplied, and every supplied
      parameter has a placeholder: values reach the database only by binding. */
  predicate WellBound(q: Query) {
    && (forall i :: 0 <= i < |q.template| && q.template[i].Slot? ==> 1 <= q.template[i].k <= |q.params|)
    && (forall k :: 1 <= k <= |q.params| ==> Slot(k) in q.template)
  }

  /** `rows[i]` in JavaScript: the row as an object, or `undefined` past the end. */
  function RowAt(rows: seq<Row>, i: nat): (v: Value)
    ensures i < |rows| <==> v.Obj?
    ensures i < |rows| ==> v.fields == rows[i]
    ensures i >= |rows| ==> v == Undefined
  {
    if i < |rows| then Obj(rows[i]) else Undefined
  }

  /** A `pg` error: no `status`, the database's message and its SQLSTATE code. */
  function PgError(code: string, message: string): (e: ErrorValue)
    ensures !Truthy(e.status)
  {
    ErrorValue(Undefined, Str(message), Str(code))
  }
}
