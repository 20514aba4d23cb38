/** The pagination arithmetic shared by every listing of the backend:
    `skip = (page - 1) * limit`, then at most `limit` documents, and
    `pages = Math.ceil(total / limit)`. */
module Paging {

  /** The pages the model accepts. The source hands `page` and `limit` to
      the store unchecked; the model rejects a page below 1 (a negative
      skip, which the store refuses) and a limit below 1 (which the store
      reads as no limit, or as a single batch). */
  predicate ValidPaging(page: int, limit: int) {
    page >= 1 && limit >= 1
  }

  function Offset(page: int, limit: int): (skip: nat)
    requires ValidPaging(page, limit)
  {
    (page - 1) * limit
  }

  /** `Math.ceil(total / limit)`: the fewest pages of `limit` documents that
      hold `total` documents. */
  function PageCount(total: nat, limit: int): (pages: nat)
    requires limit >= 1
    ensures total <= pages * limit
    ensures pages == 0 || (pages - 1) * limit < total
    ensures pages == 0 <==> total == 0
  {
    var pages := (total + limit - 1) / limit;
    DivBounds(total + limit - 1, limit);
    pages
  }

  lemma DivBounds(a: nat, b: int)
    requires b >= 1
    ensures (a / b) * b <= a < (a / b) * b + b
  {
    assert a == (a / b) * b + a % b;
  }

  lemma MulMonotone(a: int, b: int, c: int)
    requires 0 <= a <= b && c >= 0
    ensures a * c <= b * c
  {
    assert b * c - a * c == (b - a) * c;
  }

  /** `.skip(skip).limit(limit)` applied to an ordered result. */
  function Window<T>(s: seq<T>, page: int, limit: int): (w: seq<T>)
    requires ValidPaging(page, limit)
    ensures |w| <= limit
    ensures forall k :: 0 <= k < |w| ==> Offset(page, limit) + k < |s| && w[k] == s[Offset(page, limit) + k]
    ensures Offset(page, limit) < |s| ==> |w| == (if |s| - Offset(page, limit) < limit then |s| - Offset(page, limit) else limit)
    ensures Offset(page, limit) >= |s| ==> w == []
  {
    var skip := Offset(page, limit);
    if skip >= |s| then []
    else if skip + limit <= |s| then s[skip..skip + limit]
    else s[skip..]
  }

  /** A page holds documents exactly when its number is at most the page
      count reported beside it. */
  lemma WindowNonEmptyIff<T>(s: seq<T>, page: int, limit: int)
    requires ValidPaging(page, limit)
    ensures |Window(s, page, limit)| > 0 <==> page <= PageCount(|s|, limit)
  {
    var pages := PageCount(|s|, limit);
    if page <= pages {
      MulMonotone(page - 1, pages - 1, limit);
    } else {
      MulMonotone(pages, page - 1, limit);
    }
  }

  /** Document `i` of a listing is shown on page `i / limit + 1`, at
      position `i % limit`. */
  lemma EveryDocumentOnItsPage<T>(s: seq<T>, limit: int, i: nat)
    requires limit >= 1 && i < |s|
    ensures i % limit < |Window(s, i / limit + 1, limit)|
    ensures Window(s, i / limit + 1, limit)[i % limit] == s[i]
  {
    var page := i / limit + 1;
    assert Offset(page, limit) == (i / limit) * limit;
    assert (i / limit) * limit + i % limit == i;
  }
}
