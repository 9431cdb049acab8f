/** src/controllers/controllerFactory.ts: the generic CRUD handlers made
    for one model. Missing rows on update and delete raise
    `ApiError(400, "Record Not Found")`; `findAll` builds its options with
    the `src` query-feature builder. */
module TsControllers {
  import opened Common
  import opened Records
  import opened QueryClause
  import ApiErrors
  import SrcApiFeatures

  const NotFoundError: ErrorValue := ApiErrors.NewApiError(400, RecordNotFound)

  /** The options `findAll` passes to the database for a request query. */
  function FindAllClause(q: Query): Clause {
    Sorted(Paginated(SrcApiFeatures.Searched(EmptyClause, q), q), q)
  }

  class ControllerFactory {
    /** The model's table: every row, by primary key. */
    var table: map<Id, Attrs>

    constructor (table: map<Id, Attrs>)
      ensures this.table == table
    {
      this.table := table;
    }

    /** `create`: stores the body under the key the database gives it and
        answers 201 with the saved record. */
    method Create(body: Attrs, id: Id) returns (h: Handled)
      modifies this
      ensures id in old(table) ==> h == Raised(UniqueViolation) && table == old(table)
      ensures id !in old(table) ==>
                table == old(table)[id := body] &&
                h == Sent(Response(201, Envelope("success", None, Row(Record(id, body)))))
    {
      if id in table {
        return Raised(UniqueViolation);
      }
      table := table[id := body];
      var saved := Record(id, body);
      h := Sent(Response(201, Envelope("success", None, Row(saved))));
    }

    /** `findOne`: 200 with the row, or with `null` when there is none. */
    method FindOne(id: Id) returns (h: Handled)
      ensures h.Sent? && h.response.statusCode == 200
      ensures h.response.body.Envelope? && h.response.body.status == "success" && h.response.body.results == None
      ensures id in table ==> h.response.body.data == Row(Record(id, table[id]))
      ensures id !in table ==> h.response.body.data == Null
    {
      var record := if id in table then Row(Record(id, table[id])) else Null;
      h := Sent(Response(200, Envelope("success", None, record)));
    }

    /** `findAll`: runs the query built by `search().paginate().sort()` and
        reports as `results` the number of rows that came back. */
    method FindAll(q: Query, db: Database) returns (h: Handled)
      ensures var rows := db(FindAllClause(q), table);
              h == Sent(Response(200, Envelope("success", Some(|rows|), Rows(rows))))
    {
      var whereClause := SrcApiFeatures.BuildClause(q);
      var records := db(whereClause, table);
      var results := |records|;
      h := Sent(Response(200, Envelope("success", Some(results), Rows(records))));
    }

    /** `updateOneHelper`: applies `data` to the row with that key and
        returns the updated row; a missing key raises 400 "Record Not Found". */
    method UpdateOneHelper(id: Id, data: Attrs) returns (r: Result<Record, ErrorValue>)
      modifies this
      ensures id !in old(table) ==> r == Failure(NotFoundError) && table == old(table)
      ensures id in old(table) ==>
                table == old(table)[id := Updated(old(table)[id], data)] &&
                r == Success(Record(id, table[id]))
    {
      if id !in table {
        return Failure(NotFoundError);
      }
      table := table[id := Updated(table[id], data)];
      r := Success(Record(id, table[id]));
    }

    /** `updateOne`: 200 with the updated row, or the helper's error. */
    method UpdateOne(id: Id, data: Attrs) returns (h: Handled)
      modifies this
      ensures id !in old(table) ==> h == Raised(NotFoundError) && table == old(table)
      ensures id in old(table) ==>
                table == old(table)[id := Updated(old(table)[id], data)] &&
                h == Sent(Response(200, Envelope("success", None, Row(Record(id, table[id])))))
    {
      var updated := UpdateOneHelper(id, data);
      match updated
      case Failure(e) => h := Raised(e);
      case Success(record) => h := Sent(Response(200, Envelope("success", None, Row(record))));
    }

    /** `deleteOne`: removes the row and answers 200 with it; a missing key
        raises 400 "Record Not Found". */
    method DeleteOne(id: Id) returns (h: Handled)
      modifies this
      ensures id !in old(table) ==> h == Raised(NotFoundError) && table == old(table)
      ensures id in old(table) ==>
                table == old(table) - {id} &&
                h == Sent(Response(200, Envelope("success", None, Row(Record(id, old(table)[id])))))
    {
      if id !in table {
        return Raised(NotFoundError);
      }
      var record := Record(id, table[id]);
      table := table - {id};
      h := Sent(Response(200, Envelope("success", None, Row(record))));
    }
  }

  /** Update and delete select by key only: every other row keeps its key
      and its attributes. */
  lemma OtherRowsUntouched(table: map<Id, Attrs>, id: Id, data: Attrs, other: Id)
    requires id in table && other != id
    ensures var updated := table[id := Updated(table[id], data)];
            (other in updated <==> other in table) && (other in table ==> updated[other] == table[other])
    ensures (other in table - {id} <==> other in table) && (other in table ==> (table - {id})[other] == table[other])
  {
  }

  /** The error for a missing row reaches the client as a 400 "fail". */
  lemma NotFoundIsClientFailure()
    ensures NotFoundError.statusCode == Some(400) && NotFoundError.status == Some("fail")
    ensures NotFoundError.message == RecordNotFound
  {
    ApiErrors.ClientErrorsFail(400, RecordNotFound);
  }

  /** Creating a row and then looking up its key gives back the stored body. */
  method CreateThenFindOne(table: map<Id, Attrs>, body: Attrs, id: Id) returns (created: Handled, found: Handled)
    requires id !in table
    ensures created == Sent(Response(201, Envelope("success", None, Row(Record(id, body)))))
    ensures found == Sent(Response(200, Envelope("success", None, Row(Record(id, body)))))
  {
    var factory := new ControllerFactory(table);
    created := factory.Create(body, id);
    found := factory.FindOne(id);
  }

  /** Updating a row and then looking it up gives the updated row; deleting
      it and then looking it up gives `null`, and a second delete fails. */
  method UpdateDeleteThenFindOne(table: map<Id, Attrs>, id: Id, data: Attrs)
    returns (afterUpdate: Handled, afterDelete: Handled, secondDelete: Handled)
    requires id in table
    ensures afterUpdate == Sent(Response(200, Envelope("success", None, Row(Record(id, Updated(table[id], data))))))
    ensures afterDelete == Sent(Response(200, Envelope("success", None, Null)))
    ensures secondDelete == Raised(NotFoundError)
  {
    var factory := new ControllerFactory(table);
    var updated := factory.UpdateOne(id, data);
    afterUpdate := factory.FindOne(id);
    var deleted := factory.DeleteOne(id);
    afterDelete := factory.FindOne(id);
    secondDelete := factory.DeleteOne(id);
  }
}
