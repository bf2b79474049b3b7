/**
 * The pagination envelope of the address-driven lists (books, author
 * publications): the whole list is gathered and sorted first, then one page
 * is cut out of it with `slice(offset, offset + limit)`.
 */
module Pagination {
  import opened Json

  datatype Page<T> = Page(items: seq<T>, total: nat, limit: nat, offset: nat, hasMore: bool)

  function Min(a: int, b: int): int
  {
    if a <= b then a else b
  }

  /** `s.slice(from, to)` for non-negative bounds: both are clamped to the
      length, and a range that is empty after clamping gives `[]`. */
  function Slice<T>(s: seq<T>, from: nat, to: nat): (r: seq<T>)
    ensures |r| == if from >= |s| || to <= from then 0 else Min(to, |s|) - from
    ensures forall k :: 0 <= k < |r| ==> r[k] == s[from + k]
  {
    if from >= |s| || to <= from then [] else s[from..Min(to, |s|)]
  }

  /** The envelope `{items, pagination: {total, limit, offset, hasMore}}`. */
  function Paginate<T>(all: seq<T>, limit: nat, offset: nat): (p: Page<T>)
    ensures p.total == |all| && p.limit == limit && p.offset == offset
    ensures |p.items| <= limit
    ensures |p.items| == if offset >= |all| then 0 else Min(limit, |all| - offset)
    ensures forall k :: 0 <= k < |p.items| ==> p.items[k] == all[offset + k]
    ensures p.hasMore <==> p.total > offset + limit
  {
    Page(Slice(all, offset, offset + limit), |all|, limit, offset, |all| > offset + limit)
  }

  /** Two adjacent pages together are the page that spans both. */
  lemma AdjacentPages<T>(all: seq<T>, offset: nat, first: nat, second: nat)
    ensures Paginate(all, first, offset).items + Paginate(all, second, offset + first).items
         == Paginate(all, first + second, offset).items
  {
    var a := Paginate(all, first, offset).items;
    var b := Paginate(all, second, offset + first).items;
    var c := Paginate(all, first + second, offset).items;
    assert |a + b| == |c|;
    forall k | 0 <= k < |c| ensures (a + b)[k] == c[k] {
      if k >= |a| {
        assert |a| == first;
        assert b[k - first] == all[offset + first + (k - first)];
      }
    }
  }

  /** `hasMore` holds exactly when the next page, of any positive size, is not empty. */
  lemma HasMoreMeansNextPage<T>(all: seq<T>, limit: nat, offset: nat, next: nat)
    requires next > 0
    ensures Paginate(all, limit, offset).hasMore <==> Paginate(all, next, offset + limit).items != []
  {
  }

  /** The concatenation of the page at `offset` and every page after it, for as
      long as `hasMore` says there is one. */
  function PagesFrom<T>(all: seq<T>, limit: nat, offset: nat): seq<T>
    requires limit > 0
    decreases |all| - offset
  {
    var p := Paginate(all, limit, offset);
    if p.hasMore then p.items + PagesFrom(all, limit, offset + limit) else p.items
  }

  /** Following `hasMore` from any offset visits every item from there on,
      exactly once and in order. */
  lemma {:induction false} PagesCover<T>(all: seq<T>, limit: nat, offset: nat)
    requires limit > 0
    requires offset <= |all|
    ensures PagesFrom(all, limit, offset) == all[offset..]
    decreases |all| - offset
  {
    PageItems(all, limit, offset);
    if |all| > offset + limit {
      var next := offset + limit;
      calc {
        PagesFrom(all, limit, offset);
        all[offset..next] + PagesFrom(all, limit, next);
        { PagesCover(all, limit, next); }
        all[offset..next] + all[next..];
        { SplitAt(all, offset, next); }
        all[offset..];
      }
    }
  }

  lemma SplitAt<T>(s: seq<T>, i: nat, j: nat)
    requires i <= j <= |s|
    ensures s[i..] == s[i..j] + s[j..]
  {
  }

  /** One page cut at an offset inside the list, and how `PagesFrom` continues
      from it. */
  lemma PageItems<T>(all: seq<T>, limit: nat, offset: nat)
    requires limit > 0
    requires offset <= |all|
    ensures |all| > offset + limit ==>
              PagesFrom(all, limit, offset) == all[offset..offset + limit] + PagesFrom(all, limit, offset + limit)
    ensures |all| <= offset + limit ==> PagesFrom(all, limit, offset) == all[offset..]
  {
    if offset < |all| {
      assert Slice(all, offset, offset + limit) == all[offset..Min(offset + limit, |all|)];
    }
  }

  /** The `items` and `pagination` fields of a page as the handlers return it. */
  function PageFields(p: Page<Value>): Record
  {
    map[
      "items" := Arr(p.items),
      "pagination" := Obj(map["total" := Num(p.total), "limit" := Num(p.limit),
                              "offset" := Num(p.offset), "hasMore" := Bool(p.hasMore)])]
  }
}
