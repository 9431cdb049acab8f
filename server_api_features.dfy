/** server/src/utils/apiFeatures.ts: the query-feature builder of the
    server tree. Its `search` only filters on a fixed list of columns (the
    guard against naming arbitrary columns from the query string) and uses
    a case-sensitive LIKE. */
module ServerApiFeatures {
  import opened Common
  import opened QueryClause

  const AllowedColumns: seq<string> := ["name", "email", "title", "categoryId", "brandId"]

  /** `search()`: a `%term%` LIKE on `searchCol`, when that column is on the
      allow-list and both parameters are non-empty. */
  function Searched(c: Clause, q: Query): Clause {
    if q.searchCol !in AllowedColumns then c
    else if q.search != "" && q.searchCol != "" then c.(where := Some(ContainsFilter(q.searchCol, Like, q.search)))
    else c
  }

  /** A clause whose filter, if any, names an allowed column. */
  predicate SafeClause(c: Clause) {
    c.where.Some? ==> c.where.value.column in AllowedColumns
  }

  class ApiFeatures {
    const reqQuery: Query
    var whereClause: Clause

    constructor (reqQuery: Query)
      ensures this.reqQuery == reqQuery
      ensures whereClause == EmptyClause
    {
      this.reqQuery := reqQuery;
      whereClause := EmptyClause;
    }

    method Paginate() returns (self: ApiFeatures)
      modifies this
      ensures self == this
      ensures whereClause == Paginated(old(whereClause), reqQuery)
    {
      if reqQuery.page.Some? && reqQuery.limit.Some? {
        var page := reqQuery.page.value;
        var limit := reqQuery.limit.value;
        var offset := (page - 1) * limit;
        whereClause := whereClause.(offset := Some(offset));
        whereClause := whereClause.(limit := Some(limit));
      }
      self := this;
    }

    method Sort() returns (self: ApiFeatures)
      modifies this
      ensures self == this
      ensures whereClause == Sorted(old(whereClause), reqQuery)
    {
      if reqQuery.sort != "" {
        var sort := reqQuery.sort;
        if StartsWith(sort, "-") {
          whereClause := whereClause.(order := Some([Directed(sort[1..], "DESC")]));
        } else {
          whereClause := whereClause.(order := Some([Column(sort)]));
        }
      }
      self := this;
    }

    method Search() returns (self: ApiFeatures)
      modifies this
      ensures self == this
      ensures whereClause == Searched(old(whereClause), reqQuery)
    {
      if reqQuery.searchCol !in AllowedColumns {
        return this;
      }
      if reqQuery.search != "" && reqQuery.searchCol != "" {
        var search := reqQuery.search;
        var searchCol := reqQuery.searchCol;
        whereClause := whereClause.(where := Some(Filter(searchCol, Like, "%" + search + "%")));
      }
      self := this;
    }
  }

  /** Search is a no-op unless the column is allowed and the term non-empty;
      otherwise it installs exactly the `%term%` LIKE on that column and
      leaves paging and order alone. */
  lemma SearchEffect(c: Clause, q: Query)
    ensures q.searchCol !in AllowedColumns || q.search == "" ==> Searched(c, q) == c
    ensures q.searchCol in AllowedColumns && q.search != "" ==>
              Searched(c, q) == c.(where := Some(Filter(q.searchCol, Like, "%" + q.search + "%")))
    ensures Searched(c, q).offset == c.offset && Searched(c, q).limit == c.limit
    ensures Searched(c, q).order == c.order
  {
  }

  /** Whatever the query, no builder method ever makes a clause filter on a
      column outside the allow-list. */
  lemma BuilderKeepsClauseSafe(c: Clause, q: Query)
    requires SafeClause(c)
    ensures SafeClause(Searched(c, q)) && SafeClause(Paginated(c, q)) && SafeClause(Sorted(c, q))
  {
  }

  /** The search term is matched as a substring: the pattern is the term with
      a `%` wildcard on each side. */
  lemma SearchPatternWrapsTerm(c: Clause, q: Query)
    requires q.searchCol in AllowedColumns && q.search != ""
    ensures var f := Searched(c, q).where.value;
            f.column == q.searchCol && f.op == Like &&
            |f.pattern| == |q.search| + 2 && f.pattern[0] == '%' && f.pattern[|f.pattern| - 1] == '%' &&
            f.pattern[1..|f.pattern| - 1] == q.search
  {
    var f := Searched(c, q).where.value;
    assert f.pattern[1..|f.pattern| - 1] == q.search;
  }

  /** A fresh builder's clause is empty, and chaining `search`, `paginate`,
      `sort` on it yields the composition of their updates, which is a safe
      clause. */
  method BuildClause(q: Query) returns (clause: Clause)
    ensures clause == Sorted(Paginated(Searched(EmptyClause, q), q), q)
    ensures SafeClause(clause)
  {
    var features := new ApiFeatures(q);
    var f1 := features.Search();
    var f2 := f1.Paginate();
    var f3 := f2.Sort();
    clause := f3.whereClause;
    BuilderKeepsClauseSafe(EmptyClause, q);
    BuilderKeepsClauseSafe(Searched(EmptyClause, q), q);
    BuilderKeepsClauseSafe(Paginated(Searched(EmptyClause, q), q), q);
  }
}
