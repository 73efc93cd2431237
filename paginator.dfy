/** `paginate(req)` (src/lib/paginator.ts): page, limit, offset, search and
    ordering read from the query string, and the page count. The query string is
    a map from parameter name to its text. */
module Paginator {
  import opened Common
  import Parser

  const DEFAULT_PAGE := 1
  const DEFAULT_LIMIT := 25
  const DEFAULT_ORDER_BY := "created_at,desc"

  /** `orderBy`: `order` is None when the text has no comma (`undefined`). */
  datatype OrderBy = OrderBy(column: string, order: Option<string>)

  datatype Paginator = Paginator(page: int, limit: int, offset: int, search: string, orderBy: OrderBy)

  /** The column is the text before the first comma, the order the text between
      the first and the second comma. */
  function OrderByOf(text: string): (r: OrderBy)
  {
    var pieces := Split(text, ',');
    OrderBy(pieces[0], if |pieces| > 1 then Some(pieces[1]) else None)
  }

  /** `column,order` with no further comma splits into its two parts; text without
      a comma is all column. */
  lemma OrderByPieces(column: string, order: string)
    requires ',' !in column && ',' !in order
    ensures OrderByOf(column + "," + order) == OrderBy(column, Some(order))
    ensures OrderByOf(column) == OrderBy(column, None)
  {
    var text := column + "," + order;
    assert text[|column|] == ',';
    assert text[..|column|] == column;
    assert IndexOf(text, ',') == Some(|column|) by {
      assert text[|column|] in text;
    }
    assert text[|column| + 1..] == order;
    SplitHead(text, ',');
    SplitHead(order, ',');
  }

  /** `paginate(req)`, or None when `page` or `limit` is text that is not a
      decimal number (`NaN` in the source). The offset skips the earlier pages. */
  function Paginate(query: map<string, string>): (r: Option<Paginator>)
    ensures r.Some? <==>
      Parser.ToNumber(Lookup(query, "page"), Some(DEFAULT_PAGE)).Int? && Parser.ToNumber(Lookup(query, "limit"), Some(DEFAULT_LIMIT)).Int?
    ensures r.Some? ==> Parser.Int(r.value.page) == Parser.ToNumber(Lookup(query, "page"), Some(DEFAULT_PAGE))
    ensures r.Some? ==> Parser.Int(r.value.limit) == Parser.ToNumber(Lookup(query, "limit"), Some(DEFAULT_LIMIT))
    ensures r.Some? ==> r.value.offset == Offset(r.value.page, r.value.limit)
    ensures r.Some? ==> r.value.search == Parser.ToString(Lookup(query, "search"), None)
    ensures r.Some? ==> r.value.orderBy == OrderByOf(Parser.ToString(Lookup(query, "orderBy"), Some(DEFAULT_ORDER_BY)))
  {
    var page := Parser.ToNumber(Lookup(query, "page"), Some(DEFAULT_PAGE));
    var limit := Parser.ToNumber(Lookup(query, "limit"), Some(DEFAULT_LIMIT));
    if page.NonDecimal? || limit.NonDecimal? then None
    else
      Some(Paginator(
        page.n, limit.n, Offset(page.n, limit.n),
        Parser.ToString(Lookup(query, "search"), None),
        OrderByOf(Parser.ToString(Lookup(query, "orderBy"), Some(DEFAULT_ORDER_BY)))))
  }

  /** The rows on the pages before `page`. */
  function Offset(page: int, limit: int): int {
    (page - 1) * limit
  }

  /** A query string without these parameters (or with them empty) gives page 1
      of 25 rows from offset 0, no search text, newest first. */
  lemma PaginateDefaults(query: map<string, string>)
    requires "page" !in query || query["page"] == ""
    requires "limit" !in query || query["limit"] == ""
    requires "search" !in query || query["search"] == ""
    requires "orderBy" !in query || query["orderBy"] == ""
    ensures Paginate(query) == Some(Paginator(1, 25, 0, "", OrderBy("created_at", Some("desc"))))
  {
    assert Parser.ToNumber(Lookup(query, "page"), Some(DEFAULT_PAGE)) == Parser.Int(1);
    assert Parser.ToNumber(Lookup(query, "limit"), Some(DEFAULT_LIMIT)) == Parser.Int(25);
    assert Parser.ToString(Lookup(query, "search"), None) == "";
    assert Parser.ToString(Lookup(query, "orderBy"), Some(DEFAULT_ORDER_BY)) == DEFAULT_ORDER_BY;
    assert "created_at,desc" == "created_at" + "," + "desc";
    OrderByPieces("created_at", "desc");
  }

  /** Each of `page` and `limit` falls back to its own default when it is absent
      or empty, whatever the rest of the query holds. */
  lemma PaginateParameterDefaults(query: map<string, string>)
    ensures ("page" !in query || query["page"] == "") && Paginate(query).Some? ==>
      Paginate(query).value.page == DEFAULT_PAGE
    ensures ("limit" !in query || query["limit"] == "") && Paginate(query).Some? ==>
      Paginate(query).value.limit == DEFAULT_LIMIT
    ensures ("page" !in query || query["page"] == "") && ("limit" !in query || query["limit"] == "") ==>
      Paginate(query).Some? && Paginate(query).value.offset == 0
  {
  }

  /** Decimal `page` and `limit` are used as given, and the offset is the number
      of rows on the pages before. */
  lemma PaginateNumbers(query: map<string, string>, page: nat, limit: nat)
    requires "page" in query && query["page"] == NatToString(page)
    requires "limit" in query && query["limit"] == NatToString(limit)
    ensures Paginate(query).Some?
    ensures Paginate(query).value.page == page && Paginate(query).value.limit == limit
    ensures Paginate(query).value.offset == (page - 1) * limit
  {
    DecimalValueOfNatToString(page);
    DecimalValueOfNatToString(limit);
    assert Parser.ToNumber(Lookup(query, "page"), Some(DEFAULT_PAGE)) == Parser.Int(page);
    assert Parser.ToNumber(Lookup(query, "limit"), Some(DEFAULT_LIMIT)) == Parser.Int(limit);
    var r := Paginate(query).value;
    assert r.offset == Offset(page, limit);
  }

  /** Division rounded towards minus infinity, as `Math.floor(a / b)`. */
  function FloorDiv(a: int, b: int): (q: int)
    requires b != 0
    ensures b > 0 ==> q * b <= a < (q + 1) * b
    ensures b < 0 ==> q * b >= a > (q + 1) * b
  {
    if b > 0 then a / b else (-a) / (-b)
  }

  /** `totalPage(count)` as written: the rounded-down quotient, at least 1. A zero
      limit gives `Infinity` or `NaN` in the source; here None. */
  function TotalPage(count: int, limit: int): (r: Option<int>)
    ensures r.Some? <==> limit != 0
    ensures r.Some? ==> r.value >= 1
    ensures r.Some? && limit > 0 && count >= limit ==> r.value * limit <= count < (r.value + 1) * limit
    ensures r.Some? && limit > 0 && count < 2 * limit ==> r.value == 1
  {
    if limit == 0 then None
    else
      var total := FloorDiv(count, limit);
      if limit > 0 then FloorDivOne(count, limit); Some(if total <= 0 then 1 else total)
      else Some(if total <= 0 then 1 else total)
  }

  /** The quotient is at least 1 from one full page on and at most 1 below two. */
  lemma FloorDivOne(a: int, b: int)
    requires b > 0
    ensures a >= b ==> FloorDiv(a, b) >= 1
    ensures a < 2 * b ==> FloorDiv(a, b) <= 1
  {
    var q := FloorDiv(a, b);
    MulSign(q, b);
    MulSign(q - 1, b);
    assert (q + 1) * b == q * b + b;
    assert q * b == (q - 1) * b + b;
  }

  /** Rounding down loses the last, partly filled page: 30 rows of 25 per page
      are counted as one page although the last 5 rows are on page 2. */
  lemma TotalPageRoundsDown()
    ensures TotalPage(30, 25) == Some(1)
    ensures TotalPage(30, 25).value * 25 < 30
    ensures TotalPageCeil(30, 25) == 2
  {
  }

  /** The page count the pager needs: the fewest pages of `limit` rows that hold
      `count` rows, and 1 when there are none. */
  function TotalPageCeil(count: nat, limit: nat): (r: nat)
    requires limit > 0
    ensures r >= 1
    ensures count > 0 ==> (r - 1) * limit < count <= r * limit
    ensures count == 0 ==> r == 1
  {
    if count == 0 then 1 else (count + limit - 1) / limit
  }

  /** The code as written agrees with the page count whenever the rows fill their
      pages exactly. */
  lemma TotalPageExactPages(pages: nat, limit: nat)
    requires limit > 0 && pages > 0
    ensures TotalPage(pages * limit, limit) == Some(TotalPageCeil(pages * limit, limit))
  {
    DivUnique(pages * limit, limit, pages, 0);
    DivUnique(pages * limit + limit - 1, limit, pages, limit - 1);
  }

  lemma DivUnique(a: int, b: int, q: int, r: int)
    requires b > 0 && a == q * b + r && 0 <= r < b
    ensures a / b == q
  {
    var d := a / b - q;
    assert d * b == r - a % b by {
      assert a == (a / b) * b + a % b;
      assert (a / b) * b - q * b == d * b;
    }
    MulSign(d, b);
  }

  lemma {:induction false} MulSign(d: int, b: int)
    requires b > 0
    ensures d > 0 ==> d * b >= b
    ensures d < 0 ==> d * b <= -b
    decreases if d < 0 then -d else d
  {
    if d > 1 {
      MulSign(d - 1, b);
      assert d * b == (d - 1) * b + b;
    } else if d < -1 {
      MulSign(d + 1, b);
      assert d * b == (d + 1) * b - b;
    }
  }

  /** `query(q, d)`: the parameter read with `toString(d)`. */
  function QueryParam(query: map<string, string>, q: string, defaults: Option<string>): (r: string)
    ensures q in query && query[q] != "" ==> r == query[q]
    ensures (q !in query || query[q] == "") ==> r == defaults.GetOr("")
  {
    Parser.ToString(Lookup(query, q), defaults)
  }
}
