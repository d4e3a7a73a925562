/**
 * The pagination arithmetic that the listing endpoints share: products,
 * users and orders all compute `skip = (page - 1) * limit`, fetch at most
 * `limit` documents after skipping, and report
 * `totalPages = Math.ceil(total / limit)`.
 */
module Paging {

  function Skip(page: nat, limit: nat): nat
    requires page >= 1
  {
    (page - 1) * limit
  }

  /** `Math.ceil(total / limit)`: the least number of pages of `limit` items that hold `total`. */
  function TotalPages(total: nat, limit: nat): (n: nat)
    requires limit >= 1
    ensures n * limit >= total
    ensures n == 0 || (n - 1) * limit < total
    ensures n == 0 <==> total == 0
  {
    var q := (total + limit - 1) / limit;
    var r := (total + limit - 1) % limit;
    assert total + limit - 1 == q * limit + r && 0 <= r < limit;
    assert q * limit >= total;
    assert q >= 1 ==> (q - 1) * limit == q * limit - limit;
    q
  }

  /** The documents a `.skip(skip).limit(limit)` query returns, in order. */
  function Window<T>(xs: seq<T>, skip: nat, limit: nat): (r: seq<T>)
    ensures |r| <= limit
    ensures skip >= |xs| ==> r == []
    ensures skip < |xs| ==> |r| == if skip + limit <= |xs| then limit else |xs| - skip
    ensures forall k :: 0 <= k < |r| ==> skip + k < |xs| && r[k] == xs[skip + k]
  {
    if skip >= |xs| then []
    else if skip + limit <= |xs| then xs[skip..skip + limit]
    else xs[skip..]
  }

  /** Every element of a page is an element of the whole result, so a page never invents items. */
  lemma WindowSubset<T>(xs: seq<T>, skip: nat, limit: nat)
    ensures forall x :: x in Window(xs, skip, limit) ==> x in xs
  {
    var r := Window(xs, skip, limit);
    forall x | x in r ensures x in xs {
      var k :| 0 <= k < |r| && r[k] == x;
      assert xs[skip + k] == x;
    }
  }

  /** `page < totalPages` is the same as the page ending before the last item. */
  lemma {:induction false} BeforeLastPage(total: nat, page: nat, limit: nat)
    requires limit >= 1
    ensures page < TotalPages(total, limit) <==> page * limit < total
  {
    var n := TotalPages(total, limit);
    if page < n {
      assert page <= n - 1;
      MulMonotone(page, n - 1, limit);
    } else {
      MulMonotone(n, page, limit);
    }
  }

  lemma MulMonotone(a: nat, b: nat, c: nat)
    requires a <= b
    ensures a * c <= b * c
  {
    assert b * c == a * c + (b - a) * c;
  }

  /**
   * `hasNextPage = skip + returned < total` holds exactly when the current
   * page is not the last one, and the counts agree with `totalPages`.
   */
  lemma {:induction false} HasNextIffNotLastPage<T>(xs: seq<T>, page: nat, limit: nat)
    requires page >= 1 && limit >= 1
    ensures Skip(page, limit) + |Window(xs, Skip(page, limit), limit)| < |xs|
        <==> page < TotalPages(|xs|, limit)
  {
    var skip := Skip(page, limit);
    assert page * limit == skip + limit;
    BeforeLastPage(|xs|, page, limit);
  }
}
