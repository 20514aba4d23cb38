/** The shape every paged listing of the backend shares:
    `find(filter).sort(...).skip(skip).limit(limit)` next to
    `countDocuments(filter)` and `pages = Math.ceil(total / limit)`. */
module Listing {
  import opened Seqs
  import opened Paging

  datatype Page<T> = Page(items: seq<T>, current: int, pages: nat, total: nat)

  /** A page cut from a sorted listing is sorted and holds only documents of
      the listing. */
  lemma WindowOfSorted<T>(ordered: seq<T>, key: T -> Key, page: int, limit: int)
    requires ValidPaging(page, limit) && SortedDesc(ordered, key)
    ensures var w := Window(ordered, page, limit);
            && (forall x :: x in w ==> x in ordered)
            && SortedDesc(w, key)
  {
    var w := Window(ordered, page, limit);
    var skip := Offset(page, limit);
    forall x | x in w
      ensures x in ordered
    {
      var k :| 0 <= k < |w| && w[k] == x;
      assert ordered[skip + k] == x;
    }
    forall i, j | 0 <= i < j < |w|
      ensures KeyLe(key(w[j]), key(w[i]))
    {
      assert w[i] == ordered[skip + i] && w[j] == ordered[skip + j];
    }
  }

  /** Page `page` of the documents of `s` that `keep` selects, largest key
      first, `limit` to a page. */
  function ListPage<T(==)>(s: seq<T>, keep: T -> bool, key: T -> Key, page: int, limit: int): (p: Page<T>)
    requires ValidPaging(page, limit)
    ensures |p.items| <= limit
    ensures forall x :: x in p.items ==> x in s && keep(x)
    ensures SortedDesc(p.items, key)
    ensures p.items == Window(SortDesc(Filter(s, keep), key), page, limit)
    ensures p.current == page
    ensures p.total == Count(s, keep) && p.pages == PageCount(p.total, limit)
  {
    var matching := Filter(s, keep);
    var ordered := SortDesc(matching, key);
    var shown := Window(ordered, page, limit);
    WindowOfSorted(ordered, key, page, limit);
    forall x | x in shown
      ensures x in matching
    {
      assert x in multiset(ordered);
    }
    Page(shown, page, PageCount(|matching|, limit), |matching|)
  }

  /** A page holds documents exactly when its number is at most the page
      count reported beside it. */
  lemma PagesCoverListing<T>(s: seq<T>, keep: T -> bool, key: T -> Key, page: int, limit: int)
    requires ValidPaging(page, limit)
    ensures |ListPage(s, keep, key, page, limit).items| > 0 <==> page <= ListPage(s, keep, key, page, limit).pages
  {
    WindowNonEmptyIff(SortDesc(Filter(s, keep), key), page, limit);
  }
}
