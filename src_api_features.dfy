/** src/utils/apiFeatures.js: the older query-feature builder, the one the
    `src` controller factory uses. Its `search` filters on whatever column
    the query names, with a case-insensitive ILIKE. */
module SrcApiFeatures {
  import opened Common
  import opened QueryClause
  import ServerApiFeatures

  /** `search()`: a `%term%` ILIKE on `searchCol` when both are non-empty. */
  function Searched(c: Clause, q: Query): Clause {
    if q.search != "" && q.searchCol != "" then c.(where := Some(ContainsFilter(q.searchCol, ILike, q.search)))
    else c
  }

  class ApiFeatures {
    const reqQuery: Query
    var whereClause: Clause

    constructor (reqQuery: Query)
      ensures this.reqQuery == reqQuery
      ensures whereClause == EmptyClause
    {
      this.reqQuery := reqQuery;
      whereClause := EmptyClause;
    }

    method Paginate() returns (self: ApiFeatures)
      modifies this
      ensures self == this
      ensures whereClause == Paginated(old(whereClause), reqQuery)
    {
      if reqQuery.page.Some? && reqQuery.limit.Some? {
        var page := reqQuery.page.value;
        var limit := reqQuery.limit.value;
        var offset := (page - 1) * limit;
        whereClause := whereClause.(offset := Some(offset));
        whereClause := whereClause.(limit := Some(limit));
      }
      self := this;
    }

    method Sort() returns (self: ApiFeatures)
      modifies this
      ensures self == this
      ensures whereClause == Sorted(old(whereClause), reqQuery)
    {
      if reqQuery.sort != "" {
        var sort := reqQuery.sort;
        if StartsWith(sort, "-") {
          whereClause := whereClause.(order := Some([Directed(sort[1..], "DESC")]));
        } else {
          whereClause := whereClause.(order := Some([Column(sort)]));
        }
      }
      self := this;
    }

    method Search() returns (self: ApiFeatures)
      modifies this
      ensures self == this
      ensures whereClause == Searched(old(whereClause), reqQuery)
    {
      if reqQuery.search != "" && reqQuery.searchCol != "" {
        var search := reqQuery.search;
        var searchCol := reqQuery.searchCol;
        whereClause := whereClause.(where := Some(Filter(searchCol, ILike, "%" + search + "%")));
      }
      self := this;
    }
  }

  /** Search changes the clause only when both parameters are non-empty, and
      then installs the `%term%` ILIKE on whatever column was named; paging
      and order are left alone. */
  lemma SearchEffect(c: Clause, q: Query)
    ensures q.search == "" || q.searchCol == "" ==> Searched(c, q) == c
    ensures q.search != "" && q.searchCol != "" ==>
              Searched(c, q) == c.(where := Some(Filter(q.searchCol, ILike, "%" + q.search + "%")))
    ensures Searched(c, q).offset == c.offset && Searched(c, q).limit == c.limit
    ensures Searched(c, q).order == c.order
  {
  }

  /** Unlike the server builder, this one lets any column through: a query
      naming a column off the allow-list gets a filter on it here and none
      there. */
  lemma NoAllowList(c: Clause, term: string)
    requires term != ""
    ensures var q := Query(None, None, "", term, "password");
            Searched(c, q).where == Some(Filter("password", ILike, "%" + term + "%"))
            && ServerApiFeatures.Searched(c, q) == c
  {
  }

  /** The two builders agree everywhere except on the search filter: on an
      allowed column with a non-empty term they filter the same column with
      the same pattern, one case-sensitively, one not. */
  lemma BuildersAgreeOnAllowedColumns(c: Clause, q: Query)
    requires q.searchCol in ServerApiFeatures.AllowedColumns && q.search != ""
    ensures var s, t := ServerApiFeatures.Searched(c, q).where.value, Searched(c, q).where.value;
            s.column == t.column && s.pattern == t.pattern && s.op == Like && t.op == ILike
  {
  }

  /** `new ApiFeatures(q).search().paginate().sort().whereClause` */
  method BuildClause(q: Query) returns (clause: Clause)
    ensures clause == Sorted(Paginated(Searched(EmptyClause, q), q), q)
  {
    var features := new ApiFeatures(q);
    var f1 := features.Search();
    var f2 := f1.Paginate();
    var f3 := f2.Sort();
    clause := f3.whereClause;
  }
}
