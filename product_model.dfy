/**
 * The Product document (backend/models/Product.js): its fields, the schema's
 * constraints and defaults, the cast of uploaded-image records into the
 * `images` sub-schema, and the pre-save hook that derives `seo.slug` from the
 * name.
 */
module ProductModel {
  import opened Wrappers
  import opened Ids
  import opened Text

  // ---------------------------------------------------------------------
  // Units of measure

  datatype Unit = Kg | G | Lb | Unidad | Litro | Ml | Docena | Paquete

  /** The eight values the schema's `unit` enum (and the product validator) admit. */
  const UnitNames: seq<string> := ["kg", "g", "lb", "unidad", "litro", "ml", "docena", "paquete"]

  function UnitName(u: Unit): (s: string)
    ensures s in UnitNames
  {
    match u
    case Kg => "kg"
    case G => "g"
    case Lb => "lb"
    case Unidad => "unidad"
    case Litro => "litro"
    case Ml => "ml"
    case Docena => "docena"
    case Paquete => "paquete"
  }

  /** The enum check: a stored unit string is one of the eight names, matched exactly. */
  function ParseUnit(s: string): (r: Option<Unit>)
    ensures r.Some? ==> UnitName(r.value) == s
    ensures r.None? <==> s !in UnitNames
  {
    if s == "kg" then Some(Kg)
    else if s == "g" then Some(G)
    else if s == "lb" then Some(Lb)
    else if s == "unidad" then Some(Unidad)
    else if s == "litro" then Some(Litro)
    else if s == "ml" then Some(Ml)
    else if s == "docena" then Some(Docena)
    else if s == "paquete" then Some(Paquete)
    else None
  }

  lemma ParseUnitName(u: Unit)
    ensures ParseUnit(UnitName(u)) == Some(u)
  {
  }

  // ---------------------------------------------------------------------
  // Documents

  /** An element of `images` as the schema stores it: `url`, `alt`, `isPrimary`, and `filename`. */
  datatype Image = Image(url: string, alt: string, isPrimary: bool, filename: Option<string>)

  /** The record the product controller builds for each uploaded file. */
  datatype UploadedImage = UploadedImage(url: string, alt: string, isPrimary: bool,
                                         filename: string, size: nat, mimetype: string)

  /** `rating.average` is a number in [0, 5]; the model uses integers. */
  datatype Rating = Rating(average: int, count: int)

  datatype Product = Product(
    id: Id,
    name: string,
    description: string,
    price: int,
    category: Id,
    producer: Id,
    images: seq<Image>,
    stock: int,
    unit: Unit,
    isOrganic: bool,
    isAvailable: bool,
    isFeatured: bool,
    rating: Rating,
    tags: seq<string>,
    slug: string,
    createdAt: nat)

  /** The schema's constraints on a stored product. */
  ghost predicate Valid(p: Product) {
    && Trim(p.name) == p.name && p.name != [] && |p.name| <= 100
    && Trim(p.description) == p.description && p.description != [] && |p.description| <= 1000
    && p.price >= 0
    && p.stock >= 0
    && 0 <= p.rating.average <= 5
  }

  /** What `Product.create` receives; `None` marks a field left to its default. */
  datatype ProductInput = ProductInput(
    name: string,
    description: string,
    price: int,
    category: Id,
    producer: Id,
    images: seq<UploadedImage>,
    stock: int,
    unit: string,
    isOrganic: Option<bool>,
    isAvailable: Option<bool>,
    isFeatured: Option<bool>,
    tags: seq<string>)

  datatype SchemaError =
    NameRequired | NameTooLong | DescriptionRequired | DescriptionTooLong
    | NegativePrice | NegativeStock | UnitNotInEnum

  // ---------------------------------------------------------------------
  // Slug

  predicate IsSlugAlnum(c: char) { IsAsciiLower(c) || IsDigit(c) }

  ghost predicate SlugChars(s: string) {
    forall k :: 0 <= k < |s| ==> IsSlugAlnum(s[k]) || s[k] == '-'
  }

  ghost predicate NoDoubleHyphen(s: string) {
    forall k :: 0 <= k < |s| - 1 ==> !(s[k] == '-' && s[k + 1] == '-')
  }

  /** The alphanumeric characters of `s`, in order. */
  function Alnums(s: string): string {
    if s == [] then []
    else (if IsSlugAlnum(s[0]) then [s[0]] else []) + Alnums(s[1..])
  }

  /** Drop the run of characters outside `[a-z0-9]` at the front. */
  function DropRun(s: string): (r: string)
    ensures |r| <= |s| && r == s[|s| - |r|..]
    ensures r == [] || IsSlugAlnum(r[0])
    ensures Alnums(r) == Alnums(s)
  {
    if s != [] && !IsSlugAlnum(s[0]) then
      var r := DropRun(s[1..]);
      AlnumsSkip(s);
      SuffixOfTail(s, r);
      r
    else s
  }

  lemma AlnumsSkip(s: string)
    requires s != [] && !IsSlugAlnum(s[0])
    ensures Alnums(s) == Alnums(s[1..])
  {
    assert Alnums(s) == [] + Alnums(s[1..]);
  }

  /** A suffix of the tail is a suffix of the whole. */
  lemma SuffixOfTail(s: string, r: string)
    requires s != [] && |r| <= |s| - 1 && r == s[1..][|s| - 1 - |r|..]
    ensures r == s[|s| - |r|..]
  {
    assert s[1..][|s| - 1 - |r|..] == s[|s| - |r|..];
  }

  /** `.replace(/[^a-z0-9]+/g, '-')`: every maximal run outside `[a-z0-9]` becomes one hyphen. */
  function Collapse(s: string): (r: string)
    ensures SlugChars(r) && NoDoubleHyphen(r)
    ensures r == [] <==> s == []
    ensures r != [] ==> (IsSlugAlnum(r[0]) <==> IsSlugAlnum(s[0]))
    ensures Alnums(r) == Alnums(s)
    decreases |s|
  {
    if s == [] then []
    else if IsSlugAlnum(s[0]) then
      var r := [s[0]] + Collapse(s[1..]);
      assert r[1..] == Collapse(s[1..]);
      r
    else
      var t := Collapse(DropRun(s[1..]));
      var r := "-" + t;
      assert r[1..] == t;
      r
  }

  /** `.replace(/(^-|-$)/g, '')`: drop one hyphen at the start and one at the end. */
  function StripHyphens(s: string): string {
    var t := if |s| > 0 && s[0] == '-' then s[1..] else s;
    if |t| > 0 && t[|t| - 1] == '-' then t[..|t| - 1] else t
  }

  /** The pre-save slug of a product name. */
  function Slug(name: string): string {
    StripHyphens(Collapse(Lower(name)))
  }

  ghost predicate WellFormedSlug(s: string) {
    SlugChars(s) && NoDoubleHyphen(s) && (s != [] ==> s[0] != '-' && s[|s| - 1] != '-')
  }

  lemma {:induction false} AlnumsAppend(a: string, b: string)
    ensures Alnums(a + b) == Alnums(a) + Alnums(b)
  {
    if a == [] {
      assert a + b == b;
    } else {
      assert (a + b)[0] == a[0] && (a + b)[1..] == a[1..] + b;
      AlnumsAppend(a[1..], b);
      var h: string := if IsSlugAlnum(a[0]) then [a[0]] else [];
      assert Alnums(a + b) == h + Alnums(a[1..] + b);
      assert Alnums(a) == h + Alnums(a[1..]);
    }
  }

  lemma AlnumsOfHyphen(t: string)
    ensures Alnums("-" + t) == Alnums(t)
  {
    assert ("-" + t)[1..] == t;
  }

  /** Stripping removes only hyphens, so the alphanumeric characters survive. */
  lemma {:induction false} StripKeepsAlnums(s: string)
    ensures Alnums(StripHyphens(s)) == Alnums(s)
  {
    var t := if |s| > 0 && s[0] == '-' then s[1..] else s;
    if |s| > 0 && s[0] == '-' {
      assert s == "-" + t;
      AlnumsOfHyphen(t);
    }
    if |t| > 0 && t[|t| - 1] == '-' {
      assert t == t[..|t| - 1] + "-";
      AlnumsAppend(t[..|t| - 1], "-");
    }
  }

  /** Stripping a collapsed string yields a well-formed slug. */
  lemma {:induction false} StripCollapsed(s: string)
    requires SlugChars(s) && NoDoubleHyphen(s)
    ensures WellFormedSlug(StripHyphens(s))
  {
    var t := if |s| > 0 && s[0] == '-' then s[1..] else s;
    assert SlugChars(t) && NoDoubleHyphen(t);
    assert t != [] ==> t[0] != '-' by {
      if t != [] && |s| > 0 && s[0] == '-' { assert s[1] == t[0]; }
    }
    var u := StripHyphens(s);
    assert u == if |t| > 0 && t[|t| - 1] == '-' then t[..|t| - 1] else t;
    if |t| > 0 && t[|t| - 1] == '-' {
      if |t| >= 2 {
        assert t[|t| - 2] != '-';
      }
    }
  }

  /**
   * The slug contains only `[a-z0-9-]`, never two hyphens in a row, and no
   * hyphen at either end.
   */
  lemma SlugWellFormed(name: string)
    ensures WellFormedSlug(Slug(name))
  {
    StripCollapsed(Collapse(Lower(name)));
  }

  /** The slug keeps exactly the lower-cased alphanumeric characters of the name, in order. */
  lemma SlugAlnums(name: string)
    ensures Alnums(Slug(name)) == Alnums(Lower(name))
  {
    StripKeepsAlnums(Collapse(Lower(name)));
  }

  /** A well-formed slug is unchanged by collapsing runs. */
  lemma {:induction false} CollapseWellFormed(s: string)
    requires SlugChars(s) && NoDoubleHyphen(s)
    ensures Collapse(s) == s
    decreases |s|
  {
    if s != [] {
      assert SlugChars(s[1..]) && NoDoubleHyphen(s[1..]);
      if !IsSlugAlnum(s[0]) {
        assert DropRun(s[1..]) == s[1..] by {
          if |s| > 1 { assert s[1] != '-'; }
        }
      }
      CollapseWellFormed(s[1..]);
    }
  }

  lemma LowerSlugChars(s: string)
    requires SlugChars(s)
    ensures Lower(s) == s
  {
  }

  /** Slugging is idempotent. */
  lemma SlugIdempotent(name: string)
    ensures Slug(Slug(name)) == Slug(name)
  {
    var s := Slug(name);
    SlugWellFormed(name);
    LowerSlugChars(s);
    CollapseWellFormed(s);
  }

  /** A hyphen-only string with no two hyphens in a row has at most one character. */
  lemma {:induction false} NoAlnumsShort(s: string)
    requires SlugChars(s) && NoDoubleHyphen(s) && Alnums(s) == []
    ensures |s| <= 1
  {
  }

  /** The slug is empty exactly when the name has no ASCII letter or digit. */
  lemma SlugEmptyIffNoAlnum(name: string)
    ensures Slug(name) == [] <==> Alnums(Lower(name)) == []
  {
    SlugAlnums(name);
    var c := Collapse(Lower(name));
    if Alnums(Lower(name)) == [] {
      NoAlnumsShort(c);
    }
  }

  // ---------------------------------------------------------------------
  // Hooks and creation

  /**
   * The pre-save hook: the slug is recomputed from the name when the name was
   * modified or the document is new, and is otherwise left alone; no other
   * field changes.
   */
  function PreSave(p: Product, nameModified: bool, isNew: bool): (q: Product)
    ensures nameModified || isNew ==> q.slug == Slug(p.name)
    ensures !(nameModified || isNew) ==> q == p
    ensures q.(slug := p.slug) == p
  {
    if nameModified || isNew then p.(slug := Slug(p.name)) else p
  }

  /** The schema's verdicts on a (setter-trimmed) input, in field order. */
  function SchemaErrors(input: ProductInput): (errs: seq<SchemaError>)
    ensures errs == [] <==>
      && Trim(input.name) != [] && |Trim(input.name)| <= 100
      && Trim(input.description) != [] && |Trim(input.description)| <= 1000
      && input.price >= 0 && input.stock >= 0 && input.unit in UnitNames
  {
    var name := Trim(input.name);
    var description := Trim(input.description);
    (if name == [] then [NameRequired] else if |name| > 100 then [NameTooLong] else [])
    + (if description == [] then [DescriptionRequired]
       else if |description| > 1000 then [DescriptionTooLong] else [])
    + (if input.price < 0 then [NegativePrice] else [])
    + (if input.stock < 0 then [NegativeStock] else [])
    + (if input.unit !in UnitNames then [UnitNotInEnum] else [])
  }

  /**
   * Cast of one uploaded-image record into the `images` sub-schema AS WRITTEN:
   * the sub-schema declares only `url`, `alt` and `isPrimary`, and Mongoose's
   * default strict mode drops every other key, so `filename` is lost.
   */
  function CastImageAsWritten(u: UploadedImage): (i: Image)
    ensures i.filename == None
    ensures i.url == u.url && i.alt == u.alt && i.isPrimary == u.isPrimary
  {
    Image(u.url, u.alt, u.isPrimary, None)
  }

  /** The cast with `filename` declared in the sub-schema: the uploaded name is kept. */
  function CastImage(u: UploadedImage): (i: Image)
    ensures i.filename == Some(u.filename)
    ensures i.url == u.url && i.alt == u.alt && i.isPrimary == u.isPrimary
  {
    Image(u.url, u.alt, u.isPrimary, Some(u.filename))
  }

  function CastImages(us: seq<UploadedImage>): (imgs: seq<Image>)
    ensures |imgs| == |us| && forall k :: 0 <= k < |us| ==> imgs[k] == CastImage(us[k])
  {
    if us == [] then [] else [CastImage(us[0])] + CastImages(us[1..])
  }

  /** The list cast as written: no stored image keeps its filename. */
  function CastImagesAsWritten(us: seq<UploadedImage>): (imgs: seq<Image>)
    ensures |imgs| == |us| && forall k :: 0 <= k < |us| ==> imgs[k] == CastImageAsWritten(us[k])
  {
    if us == [] then [] else [CastImageAsWritten(us[0])] + CastImagesAsWritten(us[1..])
  }

  /**
   * Why `Product.create` fails: validation errors, or the insert refused by
   * the unique index on `seo.slug` (a duplicate-key error).
   */
  datatype CreateError = Invalid(errors: seq<SchemaError>) | DuplicateSlug(slug: string)

  /**
   * `Product.create`: trim setters, validation, defaults, the pre-save hook
   * of a new document, and the insert under the unique `seo.slug` index.
   * `now` is the creation timestamp and `taken` the slugs of the stored
   * products.
   */
  function Create(input: ProductInput, id: Id, now: nat, taken: set<string>): (r: Result<Product, CreateError>)
    ensures (r.Err? && r.error.Invalid?) <==> SchemaErrors(input) != []
    ensures r.Err? && r.error.Invalid? ==> r.error.errors == SchemaErrors(input)
    ensures (r.Err? && r.error.DuplicateSlug?) <==> SchemaErrors(input) == [] && Slug(Trim(input.name)) in taken
    ensures r.Err? && r.error.DuplicateSlug? ==> r.error.slug == Slug(Trim(input.name))
    ensures r.Ok? ==> Valid(r.value) && r.value.slug !in taken && r.value.id == id
    ensures r.Ok? ==> r.value.slug == Slug(r.value.name) && r.value.name == Trim(input.name)
    ensures r.Ok? ==> (r.value.isAvailable == input.isAvailable.GetOr(true)
                       && r.value.isOrganic == input.isOrganic.GetOr(false)
                       && r.value.isFeatured == input.isFeatured.GetOr(false)
                       && r.value.rating == Rating(0, 0))
    ensures r.Ok? ==> r.value.images == CastImages(input.images)
    ensures r.Ok? ==>
      && r.value.description == Trim(input.description) && r.value.price == input.price
      && r.value.category == input.category && r.value.producer == input.producer
      && r.value.stock == input.stock && UnitName(r.value.unit) == input.unit
      && r.value.tags == input.tags && r.value.createdAt == now
  {
    var errs := SchemaErrors(input);
    if errs != [] then Err(Invalid(errs))
    else if Slug(Trim(input.name)) in taken then Err(DuplicateSlug(Slug(Trim(input.name))))
    else
      TrimIdempotent(input.name);
      TrimIdempotent(input.description);
      var doc := Product(
        id, Trim(input.name), Trim(input.description), input.price, input.category,
        input.producer, CastImages(input.images), input.stock, ParseUnit(input.unit).value,
        input.isOrganic.GetOr(false), input.isAvailable.GetOr(true), input.isFeatured.GetOr(false),
        Rating(0, 0), input.tags, "", now);
      Ok(PreSave(doc, true, true))
  }

  /** The slugs of the stored products, which the unique index keeps pairwise distinct. */
  ghost predicate SlugsDistinct(products: seq<Product>) {
    forall i, j :: 0 <= i < j < |products| ==> products[i].slug != products[j].slug
  }

  /** Storing a created product keeps the stored slugs distinct. */
  lemma CreateKeepsSlugsDistinct(products: seq<Product>, input: ProductInput, id: Id, now: nat, taken: set<string>)
    requires SlugsDistinct(products)
    requires forall k :: 0 <= k < |products| ==> products[k].slug in taken
    requires Create(input, id, now, taken).Ok?
    ensures SlugsDistinct(products + [Create(input, id, now, taken).value])
  {
    AppendFreshSlug(products, Create(input, id, now, taken).value, taken);
  }

  lemma AppendFreshSlug(products: seq<Product>, p: Product, taken: set<string>)
    requires SlugsDistinct(products)
    requires forall k :: 0 <= k < |products| ==> products[k].slug in taken
    requires p.slug !in taken
    ensures SlugsDistinct(products + [p])
  {
    var all := products + [p];
    forall i, j | 0 <= i < j < |all| ensures all[i].slug != all[j].slug {
      assert all[i] == products[i];
      if j < |products| {
        assert all[j] == products[j];
      }
    }
  }

  /** Two names with the same slug cannot both be created: the second is refused. */
  lemma SameSlugRefused(first: ProductInput, second: ProductInput, id: Id, id': Id, now: nat, now': nat)
    requires Create(first, id, now, {}).Ok?
    requires SchemaErrors(second) == [] && Slug(Trim(second.name)) == Slug(Trim(first.name))
    ensures Create(second, id', now', {Create(first, id, now, {}).value.slug}).Err?
  {
  }
}
