/**
 * What the product listing promises its callers, proved about
 * `ProductListing.GetProductsSpec` (which the handler `GetProducts` computes).
 */
module ListingProperties {
  import opened Wrappers
  import opened Ids
  import opened Paging
  import opened Collections
  import opened ProductModel
  import opened ProductListing

  /**
   * Apart from the producer constraint, the composed filter is fixed by the
   * query: `isAvailable` stays true, a found category constrains the category,
   * and the price bounds, search text and flags come straight from the query.
   */
  lemma ComposedFilterShape(db: Db, q: Query, faults: Faults)
    ensures Compose(db, q, faults).Continue? ==>
      var f := Compose(db, q, faults).filter;
      && f.isAvailable
      && f.category == (match ResolveCategory(db, q.category, faults.category)
                        case Resolved(id) => Some(id)
                        case _ => None)
      && f.priceMin == q.priceMin && f.priceMax == q.priceMax
      && f.text == (if q.search != "" then Some(q.search) else None)
      && f.isOrganic == ParseFlag(q.isOrganic) && f.isFeatured == ParseFlag(q.isFeatured)
  {
    var c1 := CategoryBlock(db, q, faults, BaseFilter, []);
    if c1.Continue? {
      var c2 := ProducerBlock(db, q, faults, c1.filter, c1.trace);
      ProducerBlockOnlyProducer(db, q, faults, c1.filter, c1.trace);
      if c2.Continue? {
        LocationBlockOnlyProducer(db, q, faults, c2.filter, c2.trace);
      }
    }
  }

  /** The producer block touches only the producer constraint. */
  lemma ProducerBlockOnlyProducer(db: Db, q: Query, faults: Faults, f: Filter, t: seq<Read>)
    ensures ProducerBlock(db, q, faults, f, t).Continue? ==>
      ProducerBlock(db, q, faults, f, t).filter == f.(producer := ProducerBlock(db, q, faults, f, t).filter.producer)
  {
  }

  /** The location block touches only the producer constraint. */
  lemma LocationBlockOnlyProducer(db: Db, q: Query, faults: Faults, f: Filter, t: seq<Read>)
    ensures LocationBlock(db, q, faults, f, t).Continue? ==>
      LocationBlock(db, q, faults, f, t).filter == f.(producer := LocationBlock(db, q, faults, f, t).filter.producer)
  {
    var b := LocationBlock(db, q, faults, f, t);
    var t' := t + LocationReads(db, q.location, faults);
    match ResolveLocation(db, q.location, faults)
    case Unconstrained =>
      assert b == Continue(f, t');
    case NotFound =>
      assert b.ShortCircuit?;
    case Resolved(ids) =>
      if f.producer.ProducerIs? {
        assert b.Continue? ==> b.filter == f;
      } else {
        assert b == Continue(f.(producer := ProducerIn(ids)), t');
      }
  }

  /**
   * The request short-circuits to an empty page exactly when a supplied
   * category, producer or location does not resolve, or an explicit producer
   * is not among the location's producers.
   */
  lemma ShortCircuitIff(db: Db, q: Query, faults: Faults)
    ensures
      var c := ResolveCategory(db, q.category, faults.category);
      var p := ResolveProducer(db, q.producer, faults.producer);
      var l := ResolveLocation(db, q.location, faults);
      Compose(db, q, faults).ShortCircuit? <==>
        c.NotFound? || p.NotFound? || l.NotFound? ||
        (p.Resolved? && l.Resolved? && p.value !in l.value)
  {
    var c1 := CategoryBlock(db, q, faults, BaseFilter, []);
    assert c1.ShortCircuit? <==> ResolveCategory(db, q.category, faults.category).NotFound?;
    if c1.Continue? {
      assert c1.filter.producer == AnyProducer;
      var c2 := ProducerBlock(db, q, faults, c1.filter, c1.trace);
      var p := ResolveProducer(db, q.producer, faults.producer);
      assert c2.ShortCircuit? <==> p.NotFound?;
      if c2.Continue? {
        assert p.Resolved? ==> c2.filter.producer == ProducerIs(p.value);
        assert p.Unconstrained? ==> c2.filter.producer == AnyProducer;
        var c3 := LocationBlock(db, q, faults, c2.filter, c2.trace);
        assert Compose(db, q, faults).ShortCircuit? <==> c3.ShortCircuit?;
      }
    }
  }

  /**
   * The producer constraint: an explicit producer is kept as is (and then lies
   * in the location's producer set), the location alone constrains to its
   * producer set, and neither leaves producers unconstrained.
   */
  lemma ProducerReconciliation(db: Db, q: Query, faults: Faults)
    requires Compose(db, q, faults).Continue?
    ensures
      var p := ResolveProducer(db, q.producer, faults.producer);
      var l := ResolveLocation(db, q.location, faults);
      var f := Compose(db, q, faults).filter;
      && (p.Resolved? ==> f.producer == ProducerIs(p.value) && (l.Resolved? ==> p.value in l.value))
      && (p.Unconstrained? && l.Resolved? ==> f.producer == ProducerIn(l.value))
      && (p.Unconstrained? && l.Unconstrained? ==> f.producer == AnyProducer)
  {
    var c1 := CategoryBlock(db, q, faults, BaseFilter, []);
    assert c1.Continue? && c1.filter.producer == AnyProducer;
    var c2 := ProducerBlock(db, q, faults, c1.filter, c1.trace);
    assert c2.Continue?;
    var p := ResolveProducer(db, q.producer, faults.producer);
    assert p.Resolved? ==> c2.filter.producer == ProducerIs(p.value);
    assert p.Unconstrained? ==> c2.filter.producer == AnyProducer;
    var c3 := LocationBlock(db, q, faults, c2.filter, c2.trace);
    assert c3.Continue? && Compose(db, q, faults).filter.producer == c3.filter.producer;
  }

  /**
   * The reads a request issues: a short-circuit stops before the product
   * queries, and an unknown category stops after the one category read.
   */
  lemma UnknownCategoryReadsOnce(db: Db, q: Query, faults: Faults, textMatch: (string, Product) -> bool)
    requires q.page >= 1 && q.limit >= 1
    requires q.category != "" && !faults.category
    requires forall k :: 0 <= k < |db.categories| ==> db.categories[k].name != q.category
    ensures GetProductsSpec(db, q, faults, textMatch) == Response(EmptyPage(q.page), [FindCategory])
  {
  }

  /**
   * The same for the producer: once the category block lets the request
   * through, an unknown producer name ends the reads at the producer lookup,
   * with no location or product query.
   */
  lemma UnknownProducerStopsReads(db: Db, q: Query, faults: Faults, textMatch: (string, Product) -> bool)
    requires q.page >= 1 && q.limit >= 1
    requires q.category == "" || faults.category || exists k :: 0 <= k < |db.categories| && db.categories[k].name == q.category
    requires q.producer != "" && !faults.producer
    requires forall k :: 0 <= k < |db.producers| ==> db.producers[k].name != q.producer
    ensures GetProductsSpec(db, q, faults, textMatch)
            == Response(EmptyPage(q.page), (if q.category == "" then [] else [FindCategory]) + [FindProducer])
  {
    var c1 := CategoryBlock(db, q, faults, BaseFilter, []);
    assert c1.Continue? && c1.trace == (if q.category == "" then [] else [FindCategory]);
    assert ResolveProducer(db, q.producer, faults.producer) == NotFound;
    assert Compose(db, q, faults) == ProducerBlock(db, q, faults, c1.filter, c1.trace) == ShortCircuit(c1.trace + [FindProducer]);
  }

  /** An unknown producer with no category gives the empty page after the one producer read. */
  lemma UnknownProducerReadsOnce(db: Db, q: Query, faults: Faults, textMatch: (string, Product) -> bool)
    requires q.page >= 1 && q.limit >= 1
    requires q.category == "" && q.producer != "" && !faults.producer
    requires forall k :: 0 <= k < |db.producers| ==> db.producers[k].name != q.producer
    ensures GetProductsSpec(db, q, faults, textMatch) == Response(EmptyPage(q.page), [FindProducer])
  {
    UnknownProducerStopsReads(db, q, faults, textMatch);
  }

  /** Every listed product is a stored, available product satisfying the composed filter. */
  lemma ListedProductsMatch(db: Db, q: Query, faults: Faults, textMatch: (string, Product) -> bool)
    requires q.page >= 1 && q.limit >= 1
    ensures
      var r := GetProductsSpec(db, q, faults, textMatch).listing;
      forall k :: 0 <= k < |r.products| ==>
        && r.products[k] in db.products
        && r.products[k].isAvailable
        && Matches(Compose(db, q, faults).filter, r.products[k], textMatch)
  {
    var c := Compose(db, q, faults);
    ComposedFilterShape(db, q, faults);
    if c.Continue? {
      var m := Matching(db, c.filter, textMatch);
      var r := GetProductsSpec(db, q, faults, textMatch).listing;
      assert r.products == Window(m, Skip(q.page, q.limit), q.limit);
      forall k | 0 <= k < |r.products|
        ensures r.products[k] in db.products && Matches(c.filter, r.products[k], textMatch)
      {
        assert r.products[k] == m[Skip(q.page, q.limit) + k];
      }
    }
  }

  /**
   * The pagination block is consistent: at most `limit` products, `totalPages`
   * is the ceiling of the total over the limit, `hasNextPage` holds exactly
   * when the page is not the last, and `hasPrevPage` exactly when a real page
   * beyond the first was served.
   */
  lemma {:induction false} PaginationConsistent(db: Db, q: Query, faults: Faults, textMatch: (string, Product) -> bool)
    requires q.page >= 1 && q.limit >= 1
    ensures
      var r := GetProductsSpec(db, q, faults, textMatch).listing;
      && |r.products| <= q.limit
      && r.pagination.currentPage == q.page
      && r.pagination.totalPages == TotalPages(r.pagination.totalProducts, q.limit)
      && (r.pagination.hasNextPage <==> q.page < r.pagination.totalPages)
      && (r.pagination.hasPrevPage <==> Compose(db, q, faults).Continue? && q.page > 1)
  {
    var c := Compose(db, q, faults);
    if c.Continue? {
      HasNextIffNotLastPage(Matching(db, c.filter, textMatch), q.page, q.limit);
    }
  }

  /** Two composed outcomes that stop alike, or continue with one filter. */
  predicate SameOutcome(a: Partial, b: Partial) {
    (a.ShortCircuit? && b.ShortCircuit?) || (a.Continue? && b.Continue? && a.filter == b.filter)
  }

  /** The listing depends on the reads only through the outcome they composed. */
  lemma ListingOfSameOutcome(db: Db, q: Query, q': Query, faults: Faults, textMatch: (string, Product) -> bool)
    requires q.page >= 1 && q.limit >= 1 && q'.page == q.page && q'.limit == q.limit
    requires SameOutcome(Compose(db, q, faults), Compose(db, q', faults))
    ensures GetProductsSpec(db, q, faults, textMatch).listing == GetProductsSpec(db, q', faults, textMatch).listing
  {
  }

  /** The rest of the composition after the producer block reads only the location and later parameters. */
  lemma AfterProducerIgnoresTrace(db: Db, q: Query, q': Query, faults: Faults, f: Filter, t: seq<Read>, t': seq<Read>)
    requires q'.location == q.location && q'.priceMin == q.priceMin && q'.priceMax == q.priceMax
    requires q'.search == q.search && q'.isOrganic == q.isOrganic && q'.isFeatured == q.isFeatured
    ensures SameOutcome(AfterProducer(db, q, faults, f, t), AfterProducer(db, q', faults, f, t'))
  {
    var l := LocationBlock(db, q, faults, f, t);
    var l' := LocationBlock(db, q', faults, f, t');
    assert SameOutcome(l, l');
    if l.Continue? {
      assert Refine(l.filter, q) == Refine(l'.filter, q');
    }
  }

  /** The rest of the composition after the category block reads only the producer and later parameters. */
  lemma AfterCategoryIgnoresTrace(db: Db, q: Query, q': Query, faults: Faults, f: Filter, t: seq<Read>, t': seq<Read>)
    requires q'.producer == q.producer && q'.location == q.location && q'.priceMin == q.priceMin
    requires q'.priceMax == q.priceMax && q'.search == q.search
    requires q'.isOrganic == q.isOrganic && q'.isFeatured == q.isFeatured
    ensures SameOutcome(AfterCategory(db, q, faults, f, t), AfterCategory(db, q', faults, f, t'))
  {
    var p := ProducerBlock(db, q, faults, f, t);
    var p' := ProducerBlock(db, q', faults, f, t');
    assert SameOutcome(p, p');
    if p.Continue? {
      AfterProducerIgnoresTrace(db, q, q', faults, p.filter, p.trace, p'.trace);
    }
  }

  /** A lookup that throws drops its filter: the listing is the one for the query without it. */
  lemma CategoryFaultDropsFilter(db: Db, q: Query, faults: Faults, textMatch: (string, Product) -> bool)
    requires q.page >= 1 && q.limit >= 1
    requires faults.category
    ensures GetProductsSpec(db, q, faults, textMatch).listing
         == GetProductsSpec(db, q.(category := ""), faults, textMatch).listing
  {
    var q' := q.(category := "");
    var t1: seq<Read> := if q.category == "" then [] else [FindCategory];
    assert CategoryBlock(db, q, faults, BaseFilter, []) == Continue(BaseFilter, t1);
    assert CategoryBlock(db, q', faults, BaseFilter, []) == Continue(BaseFilter, []);
    AfterCategoryIgnoresTrace(db, q, q', faults, BaseFilter, t1, []);
    ListingOfSameOutcome(db, q, q', faults, textMatch);
  }

  lemma ProducerFaultDropsFilter(db: Db, q: Query, faults: Faults, textMatch: (string, Product) -> bool)
    requires q.page >= 1 && q.limit >= 1
    requires faults.producer
    ensures GetProductsSpec(db, q, faults, textMatch).listing
         == GetProductsSpec(db, q.(producer := ""), faults, textMatch).listing
  {
    var q' := q.(producer := "");
    var c := CategoryBlock(db, q, faults, BaseFilter, []);
    assert c == CategoryBlock(db, q', faults, BaseFilter, []);
    if c.Continue? {
      var t2: seq<Read> := if q.producer == "" then c.trace else c.trace + [FindProducer];
      assert ProducerBlock(db, q, faults, c.filter, c.trace) == Continue(c.filter, t2);
      assert ProducerBlock(db, q', faults, c.filter, c.trace) == Continue(c.filter, c.trace);
      AfterProducerIgnoresTrace(db, q, q', faults, c.filter, t2, c.trace);
    }
    ListingOfSameOutcome(db, q, q', faults, textMatch);
  }

  lemma LocationFaultDropsFilter(db: Db, q: Query, faults: Faults, textMatch: (string, Product) -> bool)
    requires q.page >= 1 && q.limit >= 1
    requires faults.location || (faults.producersAtLocation && FindLocationBy(db.locations, ParseLocation(q.location)).Some?)
    ensures GetProductsSpec(db, q, faults, textMatch).listing
         == GetProductsSpec(db, q.(location := ""), faults, textMatch).listing
  {
    var q' := q.(location := "");
    assert ResolveLocation(db, q.location, faults) == Unconstrained;
    var c1 := CategoryBlock(db, q, faults, BaseFilter, []);
    assert c1 == CategoryBlock(db, q', faults, BaseFilter, []);
    if c1.Continue? {
      var c2 := ProducerBlock(db, q, faults, c1.filter, c1.trace);
      assert c2 == ProducerBlock(db, q', faults, c1.filter, c1.trace);
      if c2.Continue? {
        var l := LocationBlock(db, q, faults, c2.filter, c2.trace);
        assert l.Continue? && l.filter == c2.filter;
        assert LocationBlock(db, q', faults, c2.filter, c2.trace).filter == c2.filter;
        assert Compose(db, q, faults).filter == Compose(db, q', faults).filter;
      }
    }
  }

  /** A minimum price above the maximum matches nothing. */
  lemma InvertedPriceRangeIsEmpty(db: Db, q: Query, faults: Faults, textMatch: (string, Product) -> bool)
    requires q.page >= 1 && q.limit >= 1
    requires q.priceMin.Some? && q.priceMax.Some? && q.priceMin.value > q.priceMax.value
    ensures GetProductsSpec(db, q, faults, textMatch).listing.products == []
    ensures GetProductsSpec(db, q, faults, textMatch).listing.pagination.totalProducts == 0
  {
    var c := Compose(db, q, faults);
    ComposedFilterShape(db, q, faults);
    if c.Continue? {
      assert Matching(db, c.filter, textMatch) == [];
    }
  }

  /**
   * `isOrganic=true` lists only organic products; any other present value
   * (`false`, but also a typo) lists only non-organic ones. Likewise `isFeatured`.
   */
  lemma FlagFiltersListing(db: Db, q: Query, faults: Faults, textMatch: (string, Product) -> bool)
    requires q.page >= 1 && q.limit >= 1
    ensures
      var r := GetProductsSpec(db, q, faults, textMatch).listing;
      && (q.isOrganic.Some? ==> forall k :: 0 <= k < |r.products| ==> r.products[k].isOrganic == (q.isOrganic.value == "true"))
      && (q.isFeatured.Some? ==> forall k :: 0 <= k < |r.products| ==> r.products[k].isFeatured == (q.isFeatured.value == "true"))
  {
    ListedProductsMatch(db, q, faults, textMatch);
    ComposedFilterShape(db, q, faults);
  }

  /** Listed products satisfy the price bounds and the text search of the query. */
  lemma PriceAndSearchFilterListing(db: Db, q: Query, faults: Faults, textMatch: (string, Product) -> bool)
    requires q.page >= 1 && q.limit >= 1
    ensures
      var r := GetProductsSpec(db, q, faults, textMatch).listing;
      forall k :: 0 <= k < |r.products| ==>
        && (q.priceMin.Some? ==> r.products[k].price >= q.priceMin.value)
        && (q.priceMax.Some? ==> r.products[k].price <= q.priceMax.value)
        && (q.search != "" ==> textMatch(q.search, r.products[k]))
  {
    ListedProductsMatch(db, q, faults, textMatch);
    ComposedFilterShape(db, q, faults);
  }

  predicate NoFilters(q: Query) {
    && q.category == "" && q.producer == "" && q.location == ""
    && q.priceMin.None? && q.priceMax.None? && q.search == ""
    && q.isOrganic.None? && q.isFeatured.None?
  }

  /** With no filter parameters the listing pages through exactly the available products. */
  lemma NoFiltersListsAvailable(db: Db, q: Query, faults: Faults, textMatch: (string, Product) -> bool)
    requires q.page >= 1 && q.limit >= 1
    requires NoFilters(q)
    ensures
      var available := Collections.Filter(db.products, (p: Product) => p.isAvailable);
      var r := GetProductsSpec(db, q, faults, textMatch).listing;
      && r.products == Window(available, Skip(q.page, q.limit), q.limit)
      && r.pagination.totalProducts == |available|
  {
    assert Compose(db, q, faults) == Continue(BaseFilter, []);
    FilterAgree(db.products, p => Matches(BaseFilter, p, textMatch), (p: Product) => p.isAvailable);
  }

  /** Twelve matching products at `limit=5`: page 2 holds items 6 to 10 of three pages. */
  lemma SecondPageOfTwelve(db: Db, q: Query, faults: Faults, textMatch: (string, Product) -> bool)
    requires q.page == 2 && q.limit == 5
    requires Compose(db, q, faults).Continue?
    requires |Matching(db, Compose(db, q, faults).filter, textMatch)| == 12
    ensures
      var r := GetProductsSpec(db, q, faults, textMatch).listing;
      && r.products == Matching(db, Compose(db, q, faults).filter, textMatch)[5..10]
      && r.pagination == Pagination(2, 3, 12, true, true)
  {
  }
}
