/**
 * The product listing endpoint (`getProducts` in
 * backend/controllers/productController.js): it resolves the category,
 * producer and location names of the query to ids, reconciles an explicit
 * producer with the producers at a location, short-circuits to an empty page
 * when a supplied name does not resolve, ANDs the remaining constraints onto
 * the baseline `isAvailable: true`, and paginates.
 *
 * The database is a value of finite sequences in natural order; full-text
 * search (`$text`) is the opaque predicate `textMatch`. A storage read that
 * throws is named in `Faults`: the source catches it and drops that filter.
 */
module ProductListing {
  import opened Wrappers
  import opened Ids
  import opened Text
  import opened Paging
  import opened Collections
  import opened ProductModel

  datatype Category = Category(id: Id, name: string)
  datatype Producer = Producer(id: Id, name: string, location: Id)
  datatype Location = Location(id: Id, city: string, department: string)

  /** The collections the listing reads. */
  datatype Db = Db(categories: seq<Category>, producers: seq<Producer>,
                   locations: seq<Location>, products: seq<Product>)

  /** Which lookups throw. `producersAtLocation` is the `Producer.find` of the location block. */
  datatype Faults = Faults(category: bool, producer: bool, location: bool, producersAtLocation: bool)

  const NoFaults := Faults(false, false, false, false)

  /**
   * The query string after parsing. Text parameters use `""` for absent (the
   * source treats both alike); `page` and `limit` are the parsed integers;
   * the price bounds are the parsed numbers of the non-empty strings.
   */
  datatype Query = Query(
    page: nat, limit: nat,
    category: string, producer: string, location: string,
    priceMin: Option<int>, priceMax: Option<int>,
    search: string,
    sortBy: Option<string>, sortOrder: Option<string>,
    isOrganic: Option<string>, isFeatured: Option<string>)

  /** The storage reads a request issues, in order. */
  datatype Read = FindCategory | FindProducer | FindLocation | FindProducersAtLocation
                | FindProducts | CountProducts

  datatype ProducerConstraint = AnyProducer | ProducerIs(id: Id) | ProducerIn(ids: seq<Id>)

  /** The composed MongoDB filter; `None` fields are absent. */
  datatype Filter = Filter(
    isAvailable: bool,
    category: Option<Id>,
    producer: ProducerConstraint,
    priceMin: Option<int>, priceMax: Option<int>,
    text: Option<string>,
    isOrganic: Option<bool>, isFeatured: Option<bool>)

  /** `const filters = { isAvailable: true }` */
  const BaseFilter := Filter(true, None, AnyProducer, None, None, None, None, None)

  datatype Pagination = Pagination(currentPage: nat, totalPages: nat, totalProducts: nat,
                                   hasNextPage: bool, hasPrevPage: bool)
  datatype Listing = Listing(products: seq<Product>, pagination: Pagination)
  datatype Response = Response(listing: Listing, trace: seq<Read>)

  /** The well-formed empty page of a short-circuit. */
  function EmptyPage(page: nat): Listing {
    Listing([], Pagination(page, 0, 0, false, false))
  }

  // ---------------------------------------------------------------------
  // Matching

  function ProducerOk(c: ProducerConstraint, id: Id): bool {
    match c
    case AnyProducer => true
    case ProducerIs(p) => id == p
    case ProducerIn(ps) => id in ps
  }

  function OptionOk<T(==)>(o: Option<T>, v: T): bool {
    o.None? || o.value == v
  }

  /** A product matches when every present constraint holds (they are ANDed). */
  function Matches(f: Filter, p: Product, textMatch: (string, Product) -> bool): bool {
    && p.isAvailable == f.isAvailable
    && OptionOk(f.category, p.category)
    && ProducerOk(f.producer, p.producer)
    && (f.priceMin.None? || p.price >= f.priceMin.value)
    && (f.priceMax.None? || p.price <= f.priceMax.value)
    && (f.text.None? || textMatch(f.text.value, p))
    && OptionOk(f.isOrganic, p.isOrganic)
    && OptionOk(f.isFeatured, p.isFeatured)
  }

  /** `Product.find(filters)` before sorting: the matching products in stored order. */
  function Matching(db: Db, f: Filter, textMatch: (string, Product) -> bool): (r: seq<Product>)
    ensures forall k :: 0 <= k < |r| ==> r[k] in db.products && Matches(f, r[k], textMatch)
    ensures forall k :: 0 <= k < |db.products| && Matches(f, db.products[k], textMatch)
              ==> db.products[k] in r
    ensures IsSubsequence(r, db.products)
  {
    Collections.Filter(db.products, p => Matches(f, p, textMatch))
  }

  // ---------------------------------------------------------------------
  // Storage read ports

  function FindCategoryByName(cs: seq<Category>, name: string): (r: Option<Category>)
    ensures r.Some? ==> r.value in cs && r.value.name == name
    ensures r.None? <==> forall k :: 0 <= k < |cs| ==> cs[k].name != name
  {
    FindFirst(cs, (c: Category) => c.name == name)
  }

  function FindProducerByName(ps: seq<Producer>, name: string): (r: Option<Producer>)
    ensures r.Some? ==> r.value in ps && r.value.name == name
    ensures r.None? <==> forall k :: 0 <= k < |ps| ==> ps[k].name != name
  {
    FindFirst(ps, (p: Producer) => p.name == name)
  }

  /** The ids of the producers located at `loc`, in stored order. */
  function ProducersAt(ps: seq<Producer>, loc: Id): (ids: seq<Id>)
    ensures forall id :: id in ids <==> exists k :: 0 <= k < |ps| && ps[k].location == loc && ps[k].id == id
  {
    if ps == [] then []
    else (if ps[0].location == loc then [ps[0].id] else []) + ProducersAt(ps[1..], loc)
  }

  // ---------------------------------------------------------------------
  // Location parsing

  datatype LocationQuery = CityAndDepartment(city: string, department: string) | CityOrDepartment(token: string)

  /** `location.split(',').map(part => part.trim())`, then two or more parts versus one. */
  function ParseLocation(s: string): LocationQuery {
    var parts := TrimAll(Split(s, ','));
    if |parts| >= 2 then CityAndDepartment(parts[0], parts[1]) else CityOrDepartment(parts[0])
  }

  /**
   * With a comma the city is the trimmed text before the first comma and the department
   * the trimmed text between the first and the second comma (further parts are ignored);
   * without one the whole trimmed string is a token matched against city or department.
   */
  lemma ParseLocationSpec(s: string)
    ensures ',' !in s ==> ParseLocation(s) == CityOrDepartment(Trim(s))
    ensures ',' in s ==>
      var i := IndexOf(s, ',');
      ParseLocation(s) == CityAndDepartment(Trim(s[..i]), Trim(FirstSegment(s[i + 1..], ',')))
  {
    if ',' in s {
      var i := IndexOf(s, ',');
      var parts := Split(s, ',');
      assert parts == [s[..i]] + Split(s[i + 1..], ',');
      assert parts[1] == Split(s[i + 1..], ',')[0];
    }
  }

  function LocationMatches(q: LocationQuery, l: Location): bool {
    match q
    case CityAndDepartment(c, d) => l.city == c && l.department == d
    case CityOrDepartment(t) => l.city == t || l.department == t
  }

  function FindLocationBy(ls: seq<Location>, q: LocationQuery): (r: Option<Location>)
    ensures r.Some? ==> r.value in ls && LocationMatches(q, r.value)
    ensures r.None? <==> forall k :: 0 <= k < |ls| ==> !LocationMatches(q, ls[k])
  {
    FindFirst(ls, (l: Location) => LocationMatches(q, l))
  }

  // ---------------------------------------------------------------------
  // The specification: what each lookup resolves to, and each block of the handler

  datatype Step<T> = Unconstrained | Resolved(value: T) | NotFound

  /** An absent name or a lookup that throws leaves the filter unconstrained. */
  function ResolveCategory(db: Db, name: string, throws: bool): Step<Id> {
    if name == "" || throws then Unconstrained
    else match FindCategoryByName(db.categories, name)
      case Some(c) => Resolved(c.id)
      case None => NotFound
  }

  function ResolveProducer(db: Db, name: string, throws: bool): Step<Id> {
    if name == "" || throws then Unconstrained
    else match FindProducerByName(db.producers, name)
      case Some(p) => Resolved(p.id)
      case None => NotFound
  }

  /** The producer ids at the named location; an unknown location or an empty set is `NotFound`. */
  function ResolveLocation(db: Db, location: string, faults: Faults): Step<seq<Id>> {
    if location == "" || faults.location then Unconstrained
    else match FindLocationBy(db.locations, ParseLocation(location))
      case None => NotFound
      case Some(l) =>
        if faults.producersAtLocation then Unconstrained
        else var ids := ProducersAt(db.producers, l.id);
          if ids == [] then NotFound else Resolved(ids)
  }

  /** The location block reads the locations, and the producers when a location was found. */
  function LocationReads(db: Db, location: string, faults: Faults): seq<Read> {
    if location == "" then []
    else if faults.location || FindLocationBy(db.locations, ParseLocation(location)).None? then [FindLocation]
    else [FindLocation, FindProducersAtLocation]
  }

  /** The filter built so far, or the short-circuit to an empty page; with the reads issued. */
  datatype Partial = Continue(filter: Filter, trace: seq<Read>) | ShortCircuit(trace: seq<Read>)

  function CategoryBlock(db: Db, q: Query, faults: Faults, f: Filter, t: seq<Read>): Partial {
    if q.category == "" then Continue(f, t)
    else match ResolveCategory(db, q.category, faults.category)
      case Unconstrained => Continue(f, t + [FindCategory])
      case Resolved(id) => Continue(f.(category := Some(id)), t + [FindCategory])
      case NotFound => ShortCircuit(t + [FindCategory])
  }

  function ProducerBlock(db: Db, q: Query, faults: Faults, f: Filter, t: seq<Read>): Partial {
    if q.producer == "" then Continue(f, t)
    else match ResolveProducer(db, q.producer, faults.producer)
      case Unconstrained => Continue(f, t + [FindProducer])
      case Resolved(id) => Continue(f.(producer := ProducerIs(id)), t + [FindProducer])
      case NotFound => ShortCircuit(t + [FindProducer])
  }

  /**
   * An explicit producer must lie in the location's producer set and is then kept as
   * the single-producer constraint; without one the constraint becomes membership.
   */
  function LocationBlock(db: Db, q: Query, faults: Faults, f: Filter, t: seq<Read>): Partial {
    var t' := t + LocationReads(db, q.location, faults);
    match ResolveLocation(db, q.location, faults)
    case Unconstrained => Continue(f, t')
    case NotFound => ShortCircuit(t')
    case Resolved(ids) =>
      if f.producer.ProducerIs? then
        (if f.producer.id in ids then Continue(f, t') else ShortCircuit(t'))
      else Continue(f.(producer := ProducerIn(ids)), t')
  }

  /** `isOrganic === 'true'` when the parameter is present at all. */
  function ParseFlag(v: Option<string>): Option<bool> {
    match v
    case None => None
    case Some(s) => Some(s == "true")
  }

  /** The constraints that need no lookup: price bounds, search text, the two flags. */
  function Refine(f: Filter, q: Query): Filter {
    f.(priceMin := q.priceMin, priceMax := q.priceMax,
       text := if q.search != "" then Some(q.search) else None,
       isOrganic := ParseFlag(q.isOrganic), isFeatured := ParseFlag(q.isFeatured))
  }

  /** The three lookup blocks in source order, then the lookup-free constraints. */
  function Compose(db: Db, q: Query, faults: Faults): Partial {
    match CategoryBlock(db, q, faults, BaseFilter, [])
    case ShortCircuit(t) => ShortCircuit(t)
    case Continue(f1, t1) => AfterCategory(db, q, faults, f1, t1)
  }

  /** The producer block and what follows it. */
  function AfterCategory(db: Db, q: Query, faults: Faults, f: Filter, t: seq<Read>): Partial {
    match ProducerBlock(db, q, faults, f, t)
    case ShortCircuit(t2) => ShortCircuit(t2)
    case Continue(f2, t2) => AfterProducer(db, q, faults, f2, t2)
  }

  /** The location block, then the lookup-free constraints. */
  function AfterProducer(db: Db, q: Query, faults: Faults, f: Filter, t: seq<Read>): Partial {
    match LocationBlock(db, q, faults, f, t)
    case ShortCircuit(t3) => ShortCircuit(t3)
    case Continue(f3, t3) => Continue(Refine(f3, q), t3)
  }

  /** The paginated query over a composed filter. */
  function Execute(db: Db, f: Filter, page: nat, limit: nat, textMatch: (string, Product) -> bool): Listing
    requires page >= 1 && limit >= 1
  {
    var matching := Matching(db, f, textMatch);
    var skip := Skip(page, limit);
    var items := Window(matching, skip, limit);
    Listing(items, Pagination(page, TotalPages(|matching|, limit), |matching|,
                              skip + |items| < |matching|, page > 1))
  }

  function GetProductsSpec(db: Db, q: Query, faults: Faults, textMatch: (string, Product) -> bool): Response
    requires q.page >= 1 && q.limit >= 1
  {
    match Compose(db, q, faults)
    case ShortCircuit(t) => Response(EmptyPage(q.page), t)
    case Continue(f, t) => Response(Execute(db, f, q.page, q.limit, textMatch), t + [FindProducts, CountProducts])
  }

  /**
   * `sortOrder === 'desc' ? -1 : 1`, with `'desc'` the default. The listing
   * does not use it: sorting on the `sortBy` field is not modelled, and the
   * matches are paged in stored order.
   */
  datatype Direction = Ascending | Descending

  function SortDirection(sortOrder: Option<string>): (d: Direction)
    ensures d == Descending <==> sortOrder.None? || sortOrder.value == "desc"
  {
    if sortOrder.GetOr("desc") == "desc" then Descending else Ascending
  }

  // ---------------------------------------------------------------------
  // The handler, block by block as the source builds its `filters` object

  method GetProducts(db: Db, q: Query, faults: Faults, textMatch: (string, Product) -> bool)
    returns (resp: Response)
    requires q.page >= 1 && q.limit >= 1
    ensures resp == GetProductsSpec(db, q, faults, textMatch)
  {
    var filters := BaseFilter;
    var trace: seq<Read> := [];
    var stop: bool;

    filters, trace, stop := ApplyCategory(db, q, faults, filters, trace);
    if stop {
      return Response(EmptyPage(q.page), trace);
    }
    ghost var f1, t1 := filters, trace;
    filters, trace, stop := ApplyProducer(db, q, faults, filters, trace);
    if stop {
      return Response(EmptyPage(q.page), trace);
    }
    ghost var f2, t2 := filters, trace;
    if q.location != "" {
      filters, trace, stop := ApplyLocation(db, q, faults, filters, trace);
      if stop {
        return Response(EmptyPage(q.page), trace);
      }
    } else {
      assert t2 + LocationReads(db, q.location, faults) == t2;
    }
    assert LocationBlock(db, q, faults, f2, t2) == Continue(filters, trace);
    assert Compose(db, q, faults) == Continue(Refine(filters, q), trace);
    resp := FinishListing(db, q, filters, trace, textMatch);
  }

  /** `Category.findOne({ name })`: constrain, short-circuit, or (on a throw) leave alone. */
  method ApplyCategory(db: Db, q: Query, faults: Faults, filters: Filter, trace: seq<Read>)
    returns (filters': Filter, trace': seq<Read>, stop: bool)
    ensures stop ==> CategoryBlock(db, q, faults, filters, trace) == ShortCircuit(trace')
    ensures !stop ==> CategoryBlock(db, q, faults, filters, trace) == Continue(filters', trace')
    ensures filters' == filters.(category := filters'.category)
  {
    filters', trace', stop := filters, trace, false;
    if q.category != "" {
      trace' := trace' + [FindCategory];
      if !faults.category {
        var categoryDoc := FindCategoryByName(db.categories, q.category);
        if categoryDoc.Some? {
          filters' := filters'.(category := Some(categoryDoc.value.id));
        } else {
          stop := true;
        }
      }
    }
  }

  /** `Producer.findOne({ name })`: constrain, short-circuit, or (on a throw) leave alone. */
  method ApplyProducer(db: Db, q: Query, faults: Faults, filters: Filter, trace: seq<Read>)
    returns (filters': Filter, trace': seq<Read>, stop: bool)
    ensures stop ==> ProducerBlock(db, q, faults, filters, trace) == ShortCircuit(trace')
    ensures !stop ==> ProducerBlock(db, q, faults, filters, trace) == Continue(filters', trace')
    ensures filters' == filters.(producer := filters'.producer)
  {
    filters', trace', stop := filters, trace, false;
    if q.producer != "" {
      trace' := trace' + [FindProducer];
      if !faults.producer {
        var producerDoc := FindProducerByName(db.producers, q.producer);
        if producerDoc.Some? {
          filters' := filters'.(producer := ProducerIs(producerDoc.value.id));
        } else {
          stop := true;
        }
      }
    }
  }

  /** Parse the location, find it, find its producers, and reconcile with an explicit producer. */
  method ApplyLocation(db: Db, q: Query, faults: Faults, filters: Filter, trace: seq<Read>)
    returns (filters': Filter, trace': seq<Read>, stop: bool)
    requires q.location != ""
    ensures stop ==> LocationBlock(db, q, faults, filters, trace) == ShortCircuit(trace')
    ensures !stop ==> LocationBlock(db, q, faults, filters, trace) == Continue(filters', trace')
    ensures filters' == filters.(producer := filters'.producer)
  {
    filters', trace', stop := filters, trace, false;
    ghost var step := ResolveLocation(db, q.location, faults);
    var locationQuery := ParseLocation(q.location);
    trace' := trace' + [FindLocation];
    if faults.location {
      assert step == Unconstrained && LocationReads(db, q.location, faults) == [FindLocation];
      return;
    }
    var locationDoc := FindLocationBy(db.locations, locationQuery);
    if locationDoc.None? {
      assert step == NotFound && LocationReads(db, q.location, faults) == [FindLocation];
      stop := true;
      return;
    }
    assert LocationReads(db, q.location, faults) == [FindLocation, FindProducersAtLocation];
    trace' := trace' + [FindProducersAtLocation];
    assert trace' == trace + [FindLocation, FindProducersAtLocation];
    if faults.producersAtLocation {
      assert step == Unconstrained;
      return;
    }
    var producerIds := ProducersAt(db.producers, locationDoc.value.id);
    assert step == if producerIds == [] then NotFound else Resolved(producerIds);
    if |producerIds| > 0 {
      if filters'.producer.ProducerIs? {
        if filters'.producer.id !in producerIds {
          stop := true;
        }
      } else {
        filters' := filters'.(producer := ProducerIn(producerIds));
      }
    } else {
      stop := true;
    }
  }

  /** The price range, the `$text` search and the two flags, each set only when present. */
  method ApplyRefinements(q: Query, resolved: Filter) returns (filters: Filter)
    requires resolved.priceMin.None? && resolved.priceMax.None? && resolved.text.None?
    requires resolved.isOrganic.None? && resolved.isFeatured.None?
    ensures filters == Refine(resolved, q)
  {
    filters := resolved;
    if q.priceMin.Some? || q.priceMax.Some? {
      if q.priceMin.Some? { filters := filters.(priceMin := q.priceMin); }
      if q.priceMax.Some? { filters := filters.(priceMax := q.priceMax); }
    }
    if q.search != "" {
      filters := filters.(text := Some(q.search));
    }
    if q.isOrganic.Some? {
      filters := filters.(isOrganic := Some(q.isOrganic.value == "true"));
    }
    if q.isFeatured.Some? {
      filters := filters.(isFeatured := Some(q.isFeatured.value == "true"));
    }
    assert filters.priceMin == q.priceMin && filters.priceMax == q.priceMax;
    assert filters.isOrganic == ParseFlag(q.isOrganic) && filters.isFeatured == ParseFlag(q.isFeatured);
  }

  /** The lookup-free constraints, then the paginated `find` and `countDocuments`. */
  method FinishListing(db: Db, q: Query, resolved: Filter, trace: seq<Read>, textMatch: (string, Product) -> bool)
    returns (resp: Response)
    requires q.page >= 1 && q.limit >= 1
    requires resolved.priceMin.None? && resolved.priceMax.None? && resolved.text.None?
    requires resolved.isOrganic.None? && resolved.isFeatured.None?
    ensures resp == Response(Execute(db, Refine(resolved, q), q.page, q.limit, textMatch),
                             trace + [FindProducts, CountProducts])
  {
    var filters := ApplyRefinements(q, resolved);
    var skip := Skip(q.page, q.limit);
    var found := Matching(db, filters, textMatch);
    var products := Window(found, skip, q.limit);
    var total := |found|;
    resp := Response(Listing(products, Pagination(
      q.page, TotalPages(total, q.limit), total, skip + |products| < total, q.page > 1)),
      trace + [FindProducts, CountProducts]);
  }
}
