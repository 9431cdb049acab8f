/** What the generic controllers work on: a table of records keyed by `id`
    (a Sequelize model), and the HTTP responses and errors they produce. */
module Records {
  import opened Common
  import QueryClause

  type Id = string

  /** A row's attributes other than its primary key. */
  type Attrs = map<string, string>

  datatype Record = Record(id: Id, attrs: Attrs)

  /** The `data` of a response: one record, `null`, or a list. */
  datatype Payload = Row(record: Record) | Null | Rows(records: seq<Record>)

  /** `{ status, results?, data }`, or a record sent as the body itself. */
  datatype Body = Envelope(status: string, results: Option<nat>, data: Payload) | Raw(data: Payload)

  datatype Response = Response(statusCode: int, body: Body)

  /** A request handler either writes a response or its promise rejects;
      `express-async-handler` passes the rejection to `next(err)`. */
  datatype Handled = Sent(response: Response) | Raised(error: ErrorValue)

  const RecordNotFound: string := "Record Not Found"

  /** The Sequelize `UniqueConstraintError` raised when a row is created with
      a primary key that is already taken. */
  const UniqueViolation: ErrorValue := ErrorValue(None, None, ValidationMessage, ["id must be unique"])

  /** `model.findAll(options)`: the rows the database returns for an options
      object. The database's filtering, ordering and paging are not part of
      this model, so the query runs through this parameter. */
  type Database = (QueryClause.Clause, map<Id, Attrs>) -> seq<Record>

  /** `record.update(data)`: the given attributes overwrite, the rest stay. */
  function Updated(attrs: Attrs, data: Attrs): (r: Attrs)
    ensures r.Keys == attrs.Keys + data.Keys
    ensures forall k :: k in data ==> r[k] == data[k]
    ensures forall k :: k in attrs && k !in data ==> r[k] == attrs[k]
  {
    attrs + data
  }
}
