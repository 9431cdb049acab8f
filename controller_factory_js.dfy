/** src/controllers/controllerFactory.js: the older generic CRUD handlers.
    `create` answers with the saved record itself, `findAll` returns every
    row, and a missing row raises a plain `Error("Record Not Found")` that
    carries no status code. */
module JsControllers {
  import opened Common
  import opened Records
  import opened QueryClause

  const NotFoundError: ErrorValue := PlainError(RecordNotFound)

  class ControllerFactory {
    /** The model's table: every row, by primary key. */
    var table: map<Id, Attrs>

    constructor (table: map<Id, Attrs>)
      ensures this.table == table
    {
      this.table := table;
    }

    /** `create`: stores the body and answers 201 with the bare record. */
    method Create(body: Attrs, id: Id) returns (h: Handled)
      modifies this
      ensures id in old(table) ==> h == Raised(UniqueViolation) && table == old(table)
      ensures id !in old(table) ==>
                table == old(table)[id := body] &&
                h == Sent(Response(201, Raw(Row(Record(id, body)))))
    {
      if id in table {
        return Raised(UniqueViolation);
      }
      table := table[id := body];
      var saved := Record(id, body);
      h := Sent(Response(201, Raw(Row(saved))));
    }

    /** `findOne`: 200 with the row, or with `null` when there is none. */
    method FindOne(id: Id) returns (h: Handled)
      ensures h.Sent? && h.response.statusCode == 200
      ensures h.response.body.Envelope? && h.response.body.status == "success" && h.response.body.results == None
      ensures id in table ==> h.response.body.data == Row(Record(id, table[id]))
      ensures id !in table ==> h.response.body.data == Null
    {
      var record := if id in table then Row(Record(id, table[id])) else Null;
      h := Sent(Response(200, Envelope("success", None, record)));
    }

    /** `findAll`: queries with no options at all (no filter, no paging, no
        order) and sends no `results` count. */
    method FindAll(db: Database) returns (h: Handled)
      ensures h == Sent(Response(200, Envelope("success", None, Rows(db(EmptyClause, table)))))
    {
      var records := db(EmptyClause, table);
      h := Sent(Response(200, Envelope("success", None, Rows(records))));
    }

    /** `updateOneHelper`: applies `data` to the row and returns it; a missing
        key raises a plain Error. */
    method UpdateOneHelper(id: Id, data: Attrs) returns (r: Result<Record, ErrorValue>)
      modifies this
      ensures id !in old(table) ==> r == Failure(NotFoundError) && table == old(table)
      ensures id in old(table) ==>
                table == old(table)[id := Updated(old(table)[id], data)] &&
                r == Success(Record(id, table[id]))
    {
      if id !in table {
        return Failure(NotFoundError);
      }
      table := table[id := Updated(table[id], data)];
      r := Success(Record(id, table[id]));
    }

    /** `updateOne`: 200 with the updated row, or the helper's error. */
    method UpdateOne(id: Id, data: Attrs) returns (h: Handled)
      modifies this
      ensures id !in old(table) ==> h == Raised(NotFoundError) && table == old(table)
      ensures id in old(table) ==>
                table == old(table)[id := Updated(old(table)[id], data)] &&
                h == Sent(Response(200, Envelope("success", None, Row(Record(id, table[id])))))
    {
      var updated := UpdateOneHelper(id, data);
      match updated
      case Failure(e) => h := Raised(e);
      case Success(record) => h := Sent(Response(200, Envelope("success", None, Row(record))));
    }

    /** `deleteOne`: removes the row and answers 200 with it; a missing key
        raises a plain Error. */
    method DeleteOne(id: Id) returns (h: Handled)
      modifies this
      ensures id !in old(table) ==> h == Raised(NotFoundError) && table == old(table)
      ensures id in old(table) ==>
                table == old(table) - {id} &&
                h == Sent(Response(200, Envelope("success", None, Row(Record(id, old(table)[id])))))
    {
      if id !in table {
        return Raised(NotFoundError);
      }
      var record := Record(id, table[id]);
      table := table - {id};
      h := Sent(Response(200, Envelope("success", None, Row(record))));
    }
  }

  /** Creating a row and then looking it up gives back the stored body. */
  method CreateThenFindOne(table: map<Id, Attrs>, body: Attrs, id: Id) returns (created: Handled, found: Handled)
    requires id !in table
    ensures created == Sent(Response(201, Raw(Row(Record(id, body)))))
    ensures found == Sent(Response(200, Envelope("success", None, Row(Record(id, body)))))
  {
    var factory := new ControllerFactory(table);
    created := factory.Create(body, id);
    found := factory.FindOne(id);
  }
}
