/** The pagination arithmetic shared by the book search and the log query:
    `skip = (page - 1) * limit`, `.skip(skip).limit(limit)` on the ordered matches,
    and `pages = Math.ceil(total / limit)`. */
module Pagination {

  function Min(a: int, b: int): int {
    if a <= b then a else b
  }

  /** `(page - 1) * limit`: the number of matches on the pages before `page`. */
  function Skip(page: int, limit: int): (skip: nat)
    requires page >= 1 && limit >= 0
    ensures page == 1 ==> skip == 0
  {
    MulNonNegative(page - 1, limit);
    (page - 1) * limit
  }

  lemma MulNonNegative(a: int, b: int)
    requires a >= 0 && b >= 0
    ensures a * b >= 0
  {
  }

  /** `Math.ceil(total / limit)` for the positive limits the validators admit:
      the least number of pages of `limit` items that holds `total` items. */
  function Pages(total: nat, limit: int): (pages: nat)
    requires limit >= 1
    ensures pages == 0 <==> total == 0
    ensures pages * limit >= total
    ensures pages > 0 ==> (pages - 1) * limit < total
  {
    var p := (total + limit - 1) / limit;
    CeilingBounds(total, limit, p);
    p
  }

  lemma CeilingBounds(total: nat, limit: int, p: int)
    requires limit >= 1 && p == (total + limit - 1) / limit
    ensures p >= 0
    ensures p == 0 <==> total == 0
    ensures p * limit >= total
    ensures p > 0 ==> (p - 1) * limit < total
  {
    var r := (total + limit - 1) % limit;
    assert total + limit - 1 == p * limit + r && 0 <= r < limit;
    assert p * limit == total + limit - 1 - r;
    assert (p - 1) * limit == p * limit - limit;
  }

  /** `.skip(skip).limit(limit)`: at most `limit` consecutive items starting at `skip`. */
  function Window<T>(s: seq<T>, skip: nat, limit: nat): (w: seq<T>)
    ensures |w| == if skip >= |s| then 0 else Min(limit, |s| - skip)
    ensures forall i :: 0 <= i < |w| ==> w[i] == s[skip + i]
  {
    if skip >= |s| then [] else s[skip .. Min(skip + limit, |s|)]
  }

  /** Pages 1 to `count` of `s`, concatenated. */
  function Paginate<T>(s: seq<T>, limit: int, count: nat): seq<T>
    requires limit >= 1
    decreases count
  {
    if count == 0 then [] else Paginate(s, limit, count - 1) + Window(s, Skip(count, limit), limit)
  }

  /** The first `count` pages are exactly the first `count * limit` items. */
  lemma {:induction false} PaginatePrefix<T>(s: seq<T>, limit: int, count: nat)
    requires limit >= 1
    ensures Paginate(s, limit, count) == s[..Min(count * limit, |s|)]
  {
    if count > 0 {
      PaginatePrefix(s, limit, count - 1);
      var skip := Skip(count, limit);
      NextPageStart(count, limit, skip);
      PrefixThenWindow(s, skip, limit);
    }
  }

  /** Page `count` starts where the first `count - 1` pages end and ends `limit` later. */
  lemma NextPageStart(count: nat, limit: int, skip: nat)
    requires count > 0 && limit >= 1 && skip == Skip(count, limit)
    ensures skip == (count - 1) * limit
    ensures count * limit == skip + limit
  {
  }

  /** The items before `skip`, followed by the page at `skip`, are the items before `skip + limit`. */
  lemma PrefixThenWindow<T>(s: seq<T>, skip: nat, limit: nat)
    ensures s[..Min(skip, |s|)] + Window(s, skip, limit) == s[..Min(skip + limit, |s|)]
  {
    if skip < |s| {
      assert s[..skip] + s[skip .. Min(skip + limit, |s|)] == s[..Min(skip + limit, |s|)];
    }
  }

  /** Every item is on exactly one of the pages 1 .. Pages(|s|, limit): the pages
      concatenated give back the whole ordered result. */
  lemma PagesCoverResult<T>(s: seq<T>, limit: int)
    requires limit >= 1
    ensures Paginate(s, limit, Pages(|s|, limit)) == s
  {
    var p := Pages(|s|, limit);
    PaginatePrefix(s, limit, p);
    assert Min(p * limit, |s|) == |s|;
  }

  /** A page past the last one is empty. */
  lemma PastLastPageIsEmpty<T>(s: seq<T>, page: int, limit: int)
    requires limit >= 1 && page > Pages(|s|, limit)
    ensures Window(s, Skip(page, limit), limit) == []
  {
    var p := Pages(|s|, limit);
    assert page - 1 >= p;
    MulMonotone(p, page - 1, limit);
  }

  lemma MulMonotone(a: int, b: int, c: int)
    requires 0 <= a <= b && c >= 0
    ensures a * c <= b * c
  {
  }
}
