/** skip/take paging, as every list endpoint does it. */
module Paging {

  /** skip: (page - 1) * size, take: size. */
  function Page<T>(all: seq<T>, page: nat, size: nat): seq<T>
    requires page >= 1 && size >= 1
  {
    var skip := (page - 1) * size;
    if skip >= |all| then [] else if skip + size >= |all| then all[skip..] else all[skip..skip + size]
  }

  /** The number of pages: ceil(total / size). */
  function Pages(total: nat, size: nat): nat
    requires size >= 1
  {
    (total + size - 1) / size
  }

  function Concatenated<T>(all: seq<T>, size: nat, pages: nat): seq<T>
    requires size >= 1
  {
    if pages == 0 then [] else Concatenated(all, size, pages - 1) + Page(all, pages, size)
  }

  lemma {:induction false} PagesArePrefix<T>(all: seq<T>, size: nat, pages: nat)
    requires size >= 1
    ensures Concatenated(all, size, pages) == if pages * size >= |all| then all else all[..pages * size]
  {
    if pages > 0 {
      PagesArePrefix(all, size, pages - 1);
      assert pages * size == (pages - 1) * size + size;
    }
  }

  lemma PagesCover(total: nat, size: nat)
    requires size >= 1
    ensures Pages(total, size) * size >= total
  {
  }

  /** Pages 1..ceil(total/size) put one after another are the whole list, no row
      lost, none repeated. */
  lemma PagesConserveRows<T>(all: seq<T>, size: nat)
    requires size >= 1
    ensures Concatenated(all, size, Pages(|all|, size)) == all
  {
    PagesArePrefix(all, size, Pages(|all|, size));
    PagesCover(|all|, size);
  }

  /** The row at place k of a page, as an index into the whole list. */
  function PlaceIn(page: nat, k: nat, size: nat): nat
    requires page >= 1
  {
    (page - 1) * size + k
  }

  lemma PageRow<T>(all: seq<T>, page: nat, size: nat, k: nat)
    requires page >= 1 && size >= 1
    ensures k < |Page(all, page, size)| <==> k < size && PlaceIn(page, k, size) < |all|
    ensures k < |Page(all, page, size)| ==> Page(all, page, size)[k] == all[PlaceIn(page, k, size)]
  {
  }

  lemma SamePlace(p: nat, j: nat, q: nat, k: nat, size: nat)
    requires j < size && k < size && p * size + j == q * size + k
    ensures p == q && j == k
  {
    if p < q {
      MulMonotone(p + 1, q, size);
    }
    if q < p {
      MulMonotone(q + 1, p, size);
    }
  }

  lemma MulMonotone(p: nat, q: nat, size: nat)
    requires p <= q
    ensures p * size <= q * size
  {
  }

  predicate Shows<T>(all: seq<T>, page: nat, size: nat, k: nat, i: nat)
    requires size >= 1
  {
    page >= 1 && k < |Page(all, page, size)| && PlaceIn(page, k, size) == i
  }

  /** And every row is shown on exactly one page, at exactly one place of it: the
      ones its index decides. */
  lemma RowIsOnItsPage<T>(all: seq<T>, size: nat, i: nat, page: nat, k: nat)
    requires size >= 1 && i < |all|
    ensures Shows(all, page, size, k, i) <==> page == i / size + 1 && k == i % size
    ensures Shows(all, page, size, k, i) ==> page <= Pages(|all|, size) && Page(all, page, size)[k] == all[i]
  {
    var q := i / size;
    assert i == q * size + i % size;
    PageRow(all, q + 1, size, i % size);
    if page >= 1 {
      PageRow(all, page, size, k);
      if Shows(all, page, size, k, i) {
        SamePlace(page - 1, k, q, i % size, size);
      }
    }
    PagesCover(|all|, size);
    if Pages(|all|, size) <= q {
      MulMonotone(Pages(|all|, size), q, size);
    }
  }
}
