/** `internal/app/utils/pagination.go` */
module PaginationUtil {
  import opened Wrappers
  import opened GoInt
  import opened Strconv
  import opened Response

  const DefaultLimit: Int64 := 10
  const DefaultPage: Int64 := 1
  const DefaultSort: string := "\"id\" desc"

  /** The limit a getter reports for a stored limit: zero means "unset". Negative limits are kept. */
  function ResolvedLimit(limit: Int64): (r: Int64)
    ensures r != 0
    ensures limit == 0 ==> r == DefaultLimit
    ensures limit != 0 ==> r == limit
  {
    if limit == 0 then DefaultLimit else limit
  }

  function ResolvedPage(page: Int64): (r: Int64)
    ensures r != 0
    ensures page == 0 ==> r == DefaultPage
    ensures page != 0 ==> r == page
  {
    if page == 0 then DefaultPage else page
  }

  function ResolvedSort(sort: string): (r: string)
    ensures r != ""
    ensures sort == "" ==> r == DefaultSort
    ensures sort != "" ==> r == sort
  {
    if sort == "" then DefaultSort else sort
  }

  /** Resolving a default twice is resolving it once: a second getter call writes nothing new. */
  lemma ResolvedIdempotent(limit: Int64, page: Int64, sort: string)
    ensures ResolvedLimit(ResolvedLimit(limit)) == ResolvedLimit(limit)
    ensures ResolvedPage(ResolvedPage(page)) == ResolvedPage(page)
    ensures ResolvedSort(ResolvedSort(sort)) == ResolvedSort(sort)
  {
  }

  /** `(page - 1) * limit` in Go's wrapping 64-bit `int` arithmetic. */
  function Offset(page: Int64, limit: Int64): (o: Int64)
    ensures page > MinInt64 && InInt64((page - 1) * limit) ==> o == (page - 1) * limit
  {
    var a: int := page;
    var b: int := limit;
    var d := Wrap64(a - 1);
    assert a > MinInt64 ==> InInt64(a - 1);
    var m := d * b;
    assert d == a - 1 ==> m == (a - 1) * b;
    Wrap64(m)
  }

  /** The exact ceiling of `a / b`: the least integer `r` with `r >= a / b`. */
  function CeilDiv(a: int, b: int): (r: int)
    requires b != 0
    ensures b > 0 ==> (r - 1) * b < a <= r * b
    ensures b < 0 ==> r * b <= a < (r - 1) * b
  {
    if b > 0 then
      var q := (-a) / b;
      assert q * b <= -a < (q + 1) * b;
      -q
    else
      var q := a / (-b);
      assert q * (-b) <= a < (q + 1) * (-b);
      -q
  }

  /**
   * `utils.Pagination`. The getters write their defaults into the fields
   * the first time they read an unset one. `rows` holds the mapped rows that
   * `GetWithPagination` stores.
   */
  class Pagination<T> {
    var limit: Int64
    var page: Int64
    var sort: string
    var totalRows: Int64
    var totalPages: int
    var rows: seq<T>

    /** A `utils.Pagination{Limit: limit, Page: page, Sort: sort}` literal; the rest is zero. */
    constructor (limit: Int64, page: Int64, sort: string)
      ensures this.limit == limit && this.page == page && this.sort == sort
      ensures totalRows == 0 && totalPages == 0 && rows == []
    {
      this.limit := limit;
      this.page := page;
      this.sort := sort;
      totalRows := 0;
      totalPages := 0;
      rows := [];
    }

    method GetLimit() returns (l: Int64)
      modifies this`limit
      ensures l == limit == ResolvedLimit(old(limit))
    {
      if limit == 0 {
        limit := 10;
      }
      l := limit;
    }

    method GetPage() returns (p: Int64)
      modifies this`page
      ensures p == page == ResolvedPage(old(page))
    {
      if page == 0 {
        page := 1;
      }
      p := page;
    }

    method GetSort() returns (s: string)
      modifies this`sort
      ensures s == sort == ResolvedSort(old(sort))
    {
      if sort == "" {
        sort := "\"id\" desc";
      }
      s := sort;
    }

    /** `GetOffset` reads the page and then the limit through their getters. */
    method GetOffset() returns (o: Int64)
      modifies this`limit, this`page
      ensures page == ResolvedPage(old(page)) && limit == ResolvedLimit(old(limit))
      ensures o == Offset(page, limit)
    {
      var p := GetPage();
      var l := GetLimit();
      var a: int := p;
      var b: int := l;
      o := Wrap64(Wrap64(a - 1) * b);
    }
  }

  /** The fields of the `Pagination` that `PaginateQueryExtractor` builds; the others are zero. */
  datatype PageParams = PageParams(limit: Int64, page: Int64, sort: string)

  /** A query value read with `strconv.Atoi`, replaced by `fallback` when it does not parse or is not positive. */
  function PositiveOr(raw: string, fallback: Int64): (r: Int64)
    requires fallback > 0
    ensures r > 0
    ensures IsDecimal(raw) && 0 < SignedValue(raw) <= MaxInt64 ==> r == SignedValue(raw)
    ensures !(IsDecimal(raw) && 0 < SignedValue(raw) <= MaxInt64) ==> r == fallback
  {
    ParseInt64Correct(raw);
    var p := ParseInt64(raw);
    if p.err.Some? || p.value <= 0 then fallback else p.value
  }

  /** `"<field>" DESC` when `sortDesc` is exactly `true`, `"<field>" ASC` otherwise. */
  function SortClause(field: string, sortDesc: string): string
  {
    if sortDesc == "true" then "\"" + field + "\" DESC" else "\"" + field + "\" ASC"
  }

  /** `PaginateQueryExtractor`, given the raw `page`, `per_page`, `sort` and `sortDesc` query values. */
  function PaginateQueryExtractor(page: string, perPage: string, sort: string, sortDesc: string,
                                  validSortFields: seq<string>): (r: Result<PageParams, ErrorMessage>)
    ensures r.Err? <==> sort != "" && sort !in validSortFields
    ensures r.Err? ==> r.error == ErrorMessage(StatusBadRequest, "Invalid sort field")
    ensures r.Ok? ==> r.value.limit > 0 && r.value.page > 0
    ensures r.Ok? ==> r.value.page == PositiveOr(page, 1) && r.value.limit == PositiveOr(perPage, 10)
    ensures r.Ok? && sort == "" ==> r.value.sort == ""
    ensures r.Ok? && sort != "" ==> r.value.sort == SortClause(sort, sortDesc)
  {
    var pageNo := PositiveOr(page, 1);
    var pageSize := PositiveOr(perPage, 10);
    if sort != "" && sort !in validSortFields then
      Err(ErrorMessage(StatusBadRequest, "Invalid sort field"))
    else
      Ok(PageParams(pageSize, pageNo, if sort != "" then SortClause(sort, sortDesc) else ""))
  }

  /** Positive page and page size written with `strconv.Itoa` are taken as they are. */
  lemma ExtractorKeepsPositiveValues(p: Int64, l: Int64, validSortFields: seq<string>)
    requires p > 0 && l > 0
    ensures PaginateQueryExtractor(FormatInt(p), FormatInt(l), "", "", validSortFields)
            == Ok(PageParams(l, p, ""))
  {
    ParseFormatRoundTrip(p);
    ParseFormatRoundTrip(l);
    ParseInt64Correct(FormatInt(p));
    ParseInt64Correct(FormatInt(l));
  }

  /** `page=-1&per_page=-1` falls back to page 1 of 10. */
  lemma ExtractorDefaultsNegativeValues(validSortFields: seq<string>)
    ensures PaginateQueryExtractor("-1", "-1", "", "", validSortFields) == Ok(PageParams(10, 1, ""))
  {
    ParseFormatRoundTrip(-1);
    assert FormatInt(-1) == "-1";
    ParseInt64Correct("-1");
  }

  /** A pagination built from the extracted values needs no defaults: its offset is `(page-1)*limit`. */
  lemma ExtractedOffset(page: string, perPage: string, sort: string, sortDesc: string, validSortFields: seq<string>)
    requires PaginateQueryExtractor(page, perPage, sort, sortDesc, validSortFields).Ok?
    ensures var v := PaginateQueryExtractor(page, perPage, sort, sortDesc, validSortFields).value;
            && ResolvedLimit(v.limit) == v.limit && ResolvedPage(v.page) == v.page
            && (InInt64((v.page - 1) * v.limit) ==> Offset(v.page, v.limit) == (v.page - 1) * v.limit >= 0)
  {
    var v := PaginateQueryExtractor(page, perPage, sort, sortDesc, validSortFields).value;
    PositiveOffset(v.page, v.limit);
  }

  /** With a positive page and limit no default applies, and a non-overflowing offset is `(page - 1) * limit >= 0`. */
  lemma PositiveOffset(page: Int64, limit: Int64)
    requires page > 0 && limit > 0
    ensures ResolvedLimit(limit) == limit && ResolvedPage(page) == page
    ensures InInt64((page - 1) * limit) ==> Offset(page, limit) == (page - 1) * limit >= 0
  {
    var a: int := page - 1;
    var b: int := limit;
    assert a * b >= 0;
  }
}
