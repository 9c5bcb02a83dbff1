/**
 * Integer query-string handling shared by the list endpoints:
 * `Math.max(lo, Math.min(hi, parseInt(x) || d))` clamps and the
 * page/limit/total arithmetic of paginated responses.
 */
module Paging {
  import opened Js

  /** `parseInt(x) || d`: `None` is NaN; NaN and 0 both fall back to `d`. */
  function IntOr(parsed: Option<int>, d: int): int
  {
    if parsed.None? || parsed.value == 0 then d else parsed.value
  }

  /** `Math.max(lo, Math.min(hi, parseInt(x) || d))`. */
  function ClampedInt(parsed: Option<int>, d: int, lo: int, hi: int): (r: int)
    requires lo <= hi
    ensures lo <= r <= hi
    ensures (parsed.None? || parsed.value == 0) && lo <= d <= hi ==> r == d
    ensures parsed.Some? && parsed.value != 0 && lo <= parsed.value <= hi ==> r == parsed.value
    ensures parsed.Some? && parsed.value != 0 && parsed.value > hi ==> r == hi
    ensures parsed.Some? && parsed.value != 0 && parsed.value < lo ==> r == lo
  {
    var x := IntOr(parsed, d);
    if x > hi then hi else if x < lo then lo else x
  }

  /** `Math.max(1, parseInt(page) || 1)`. */
  function PageNumber(pageArg: Option<int>): (r: int)
    ensures r >= 1
    ensures pageArg.Some? && pageArg.value >= 1 ==> r == pageArg.value
    ensures pageArg.None? || pageArg.value < 1 ==> r == 1
  {
    var p := IntOr(pageArg, 1);
    if p < 1 then 1 else p
  }

  /** `Math.ceil(total / limit)` for a non-negative total and a positive limit. */
  function CeilDiv(total: nat, limit: int): (c: nat)
    requires limit >= 1
    ensures c * limit >= total
    ensures (c - 1) * limit < total || c == 0
  {
    (total + limit - 1) / limit
  }

  /** The `pagination` object of a list response. */
  datatype Pagination = Pagination(page: int, limit: int, total: nat, totalPages: nat, hasNext: bool, hasPrev: bool)

  /**
   * Pagination flags: a next page exists exactly when the rows before the
   * end of this page do not exhaust the total; a previous one exactly when
   * this is not the first page.
   */
  function Paginate(page: int, limit: int, total: nat): (p: Pagination)
    requires page >= 1 && limit >= 1
    ensures p.page == page && p.limit == limit && p.total == total
    ensures p.totalPages * limit >= total && (p.totalPages == 0 || (p.totalPages - 1) * limit < total)
    ensures p.hasNext <==> page * limit < total
    ensures p.hasPrev <==> page > 1
  {
    var totalPages := CeilDiv(total, limit);
    CeilBound(page, limit, total);
    Pagination(page, limit, total, totalPages, page < totalPages, page > 1)
  }

  /** `page < ceil(total / limit)` holds exactly when `page * limit < total`. */
  lemma CeilBound(page: int, limit: int, total: nat)
    requires page >= 1 && limit >= 1
    ensures page < CeilDiv(total, limit) <==> page * limit < total
  {
    var c := CeilDiv(total, limit);
    if page < c {
      MulMono(page, c - 1, limit);
    } else {
      MulMono(c, page, limit);
    }
  }

  lemma MulMono(a: int, b: int, k: int)
    requires a <= b && k >= 0
    ensures a * k <= b * k
  {
    assert b * k - a * k == (b - a) * k;
  }

  /** `(page - 1) * limit`. */
  function Offset(page: int, limit: int): (o: int)
    requires page >= 1 && limit >= 1
    ensures o >= 0
  {
    MulMono(0, page - 1, limit);
    (page - 1) * limit
  }
}
