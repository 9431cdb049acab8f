/** The request query the `ApiFeatures` builders read and the Sequelize
    options object (`whereClause`) they build, with the update each builder
    method makes to it. Both builder variants share pagination and sorting;
    they differ only in how they search. */
module QueryClause {
  import opened Common

  /** The query-string parameters `page`, `limit`, `sort`, `search` and
      `searchCol`. `page` and `limit` are given as the numbers `Number()`
      makes of them (None when the parameter is absent or empty); for the
      three strings, "" stands for "absent or empty", both of which are
      falsy in the source. */
  datatype Query = Query(
    page: Option<int>,
    limit: Option<int>,
    sort: string,
    search: string,
    searchCol: string)

  /** One entry of Sequelize's `order` option: a bare column name, or a
      `[column, direction]` pair. */
  datatype OrderTerm = Column(name: string) | Directed(name: string, direction: string)

  /** Sequelize's `Op.like` (server builder) and `Op.iLike` (src builder). */
  datatype Operator = Like | ILike

  /** `{ [column]: { [op]: pattern } }` */
  datatype Filter = Filter(column: string, op: Operator, pattern: string)

  /** The options object: each key is absent until a builder method sets it. */
  datatype Clause = Clause(
    offset: Option<int>,
    limit: Option<int>,
    order: Option<seq<OrderTerm>>,
    where: Option<Filter>)

  const EmptyClause: Clause := Clause(None, None, None, None)

  const DescendingPrefix: string := "-"

  /** The first row of page `page` when pages hold `limit` rows. */
  function PageOffset(page: int, limit: int): int {
    (page - 1) * limit
  }

  /** `paginate()`: sets offset and limit when both page and limit are given. */
  function Paginated(c: Clause, q: Query): Clause {
    if q.page.Some? && q.limit.Some? then
      c.(offset := Some(PageOffset(q.page.value, q.limit.value)), limit := Some(q.limit.value))
    else c
  }

  /** The `order` option for a non-empty sort parameter: a leading "-" asks
      for that column in descending order, anything else for the column as
      given. */
  function OrderFor(sort: string): (r: seq<OrderTerm>)
    ensures |r| == 1
    ensures StartsWith(sort, DescendingPrefix) <==> r[0].Directed?
    ensures r[0].Directed? ==> r[0].direction == "DESC" && DescendingPrefix + r[0].name == sort
    ensures r[0].Column? ==> r[0].name == sort
  {
    if StartsWith(sort, DescendingPrefix) then [Directed(sort[1..], "DESC")] else [Column(sort)]
  }

  /** `sort()`: sets order when the sort parameter is non-empty. */
  function Sorted(c: Clause, q: Query): Clause {
    if q.sort != "" then c.(order := Some(OrderFor(q.sort))) else c
  }

  /** The `%term%` filter on `column`. */
  function ContainsFilter(column: string, op: Operator, term: string): Filter {
    Filter(column, op, "%" + term + "%")
  }

  /** The sort parameter an `order` option came from: a descending term is
      written back with its "-". */
  function SortText(t: OrderTerm): string {
    match t
    case Column(name) => name
    case Directed(name, _) => DescendingPrefix + name
  }

  /** Sort parsing loses nothing: the parameter can be read back from the
      order it produced, and "-c" always means column c descending. */
  lemma SortRoundTrip(sort: string, column: string)
    ensures SortText(OrderFor(sort)[0]) == sort
    ensures OrderFor(DescendingPrefix + column) == [Directed(column, "DESC")]
  {
    assert (DescendingPrefix + column)[1..] == column;
  }

  /** Consecutive pages tile the rows: for a positive limit and a page from 1
      on, the offset is never negative, the next page starts where this one
      ends, and every row index lies on exactly one page. */
  lemma {:induction false} PagesTile(page: int, limit: int, row: int)
    requires page >= 1 && limit > 0 && row >= 0
    ensures PageOffset(page, limit) >= 0
    ensures PageOffset(page + 1, limit) == PageOffset(page, limit) + limit
    ensures PageOffset(page, limit) <= row < PageOffset(page, limit) + limit <==> page == row / limit + 1
  {
    var p := row / limit + 1;
    assert (p - 1) * limit <= row < (p - 1) * limit + limit by {
      assert (p - 1) * limit == (row / limit) * limit;
    }
    if page < p {
      assert page * limit <= (p - 1) * limit by {
        assert p - 1 >= page;
        MulMonotone(page, p - 1, limit);
      }
    } else if page > p {
      assert p * limit <= (page - 1) * limit by {
        MulMonotone(p, page - 1, limit);
      }
    }
    assert (page + 1 - 1) * limit == (page - 1) * limit + limit;
    MulMonotone(0, page - 1, limit);
  }

  lemma MulMonotone(a: int, b: int, k: int)
    requires a <= b && k >= 0
    ensures a * k <= b * k
  {
  }

  /** Paging and sorting set disjoint keys: the two can be chained in either
      order with the same result, and repeating one changes nothing. (That
      search leaves both keys alone is stated with each builder's search.) */
  lemma PaginateSortCommute(c: Clause, q: Query)
    ensures Paginated(Sorted(c, q), q) == Sorted(Paginated(c, q), q)
    ensures Paginated(Paginated(c, q), q) == Paginated(c, q)
    ensures Sorted(Sorted(c, q), q) == Sorted(c, q)
    ensures Paginated(c, q).order == c.order && Paginated(c, q).where == c.where
    ensures Sorted(c, q).offset == c.offset && Sorted(c, q).limit == c.limit && Sorted(c, q).where == c.where
  {
  }
}
