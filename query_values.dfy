/**
 * The value side of a DALC query (NI.Data): the 32-bit integers of the paging
 * window, the source/sort/field references, the condition tree and the
 * IQueryValue sum type whose raw-text case is QRawSql and whose nested-query
 * case is Query itself.
 */
module QueryValues {
  import opened Wrappers

  /** C#'s `int` (System.Int32). */
  newtype Int32 = x: int | -0x8000_0000 <= x < 0x8000_0000

  /** `Int32.MaxValue`, the default record count of a query ("no limit"). */
  const Int32MaxValue: Int32 := 0x7FFF_FFFF

  /**
   * QSource, QSort and QField are classes outside this model. Each is
   * represented here by the string it was built from (`new QSource(name)`,
   * `new QSort(s)`, and the implicit string conversions); their text forms are
   * parameters of the query-string builder (see QueryText.Notation).
   */
  datatype QSource = QSource(name: string)
  datatype QSort = QSort(expression: string)
  datatype QField = QField(expression: string)

  /**
   * IQueryValue: anything usable as a value inside a condition.
   *  - RawSql is QRawSql: raw query text, kept verbatim, null (None) or empty
   *    included. A datatype value cannot change, which is what the private
   *    setter of QRawSql.SqlText guarantees after construction.
   *  - SubQuery is a Query used as a value (a nested query).
   *  - OtherValue stands for the value classes that are not part of this
   *    model (constants, field references, ...), told apart by a tag.
   */
  datatype QueryValue =
    | RawSql(sqlText: Option<string>)
    | SubQuery(query: QueryState)
    | OtherValue(tag: nat)

  /**
   * A condition node (QueryNode). The node classes are not part of this
   * model: `kind` tells them (and their operator) apart, `values` are the
   * IQueryValues the node holds and `nodes` its child conditions.
   */
  datatype QueryNode = QueryNode(kind: nat, values: seq<QueryValue>, nodes: seq<QueryNode>)

  /**
   * What a Query holds apart from its extended properties, as a value: the
   * source, the condition (None for null), the sort and field lists (None
   * for a null array) and the paging window.
   */
  datatype QueryState = QueryState(
    sourceName: QSource,
    condition: Option<QueryNode>,
    sort: Option<seq<QSort>>,
    fields: Option<seq<QField>>,
    startRecord: Int32,
    recordCount: Int32)

  /** `new QRawSql(sqlText)`: the text is kept exactly as given, with no validation. */
  function NewRawSql(sqlText: Option<string>): (v: QueryValue)
    ensures v.RawSql? && v.sqlText == sqlText
  {
    RawSql(sqlText)
  }

  /** Sort strings converted one by one to QSort (`new QSort(s)` / `(QSort)s`), in order. */
  function SortsOf(names: seq<string>): seq<QSort>
  {
    seq(|names|, i requires 0 <= i < |names| => QSort(names[i]))
  }

  /** Field strings converted one by one to QField (`(QField)s`), in order. */
  function FieldsOf(names: seq<string>): seq<QField>
  {
    seq(|names|, i requires 0 <= i < |names| => QField(names[i]))
  }
}
