/**
 * The request-body preparation of `createProduct` and `updateProduct` in
 * backend/controllers/productController.js: the image-metadata array built
 * from the uploaded files, the tag field that arrives as a string from a
 * multipart form, and the stored filenames the handlers unlink.
 */
module ProductUploads {
  import opened Wrappers
  import opened Ids
  import opened Text
  import opened Collections
  import opened ProductModel

  /** A file as the upload middleware reports it once stored. */
  datatype UploadedFile = UploadedFile(filename: string, size: nat, mimetype: string)

  const UploadsPrefix := "/uploads/products/"

  /** `${name} - Imagen ${index + 1}` */
  function AltText(name: string, index: nat): string {
    name + " - Imagen " + NatToString(index + 1)
  }

  /** The image records of `files`, the first at position `start` of the upload. */
  function ImagesFrom(name: string, files: seq<UploadedFile>, start: nat): (imgs: seq<UploadedImage>)
    ensures |imgs| == |files|
    ensures forall k :: 0 <= k < |files| ==>
      imgs[k] == UploadedImage(UploadsPrefix + files[k].filename, AltText(name, start + k),
                               start + k == 0, files[k].filename, files[k].size, files[k].mimetype)
  {
    if files == [] then []
    else
      var f := files[0];
      [UploadedImage(UploadsPrefix + f.filename, AltText(name, start), start == 0, f.filename, f.size, f.mimetype)]
      + ImagesFrom(name, files[1..], start + 1)
  }

  /** `req.files.map((file, index) => ({ url, alt, isPrimary: index === 0, filename, size, mimetype }))` */
  function BuildImages(name: string, files: seq<UploadedFile>): (imgs: seq<UploadedImage>)
    ensures |imgs| == |files|
    ensures forall k :: 0 <= k < |files| ==>
      && imgs[k].url == UploadsPrefix + files[k].filename
      && imgs[k].alt == AltText(name, k)
      && (imgs[k].isPrimary <==> k == 0)
      && imgs[k].filename == files[k].filename
      && imgs[k].size == files[k].size && imgs[k].mimetype == files[k].mimetype
  {
    ImagesFrom(name, files, 0)
  }

  function IsPrimary(i: UploadedImage): bool { i.isPrimary }

  /** A non-empty upload has exactly one primary image, and it is the first. */
  lemma {:induction false} ExactlyOnePrimary(name: string, files: seq<UploadedFile>)
    requires files != []
    ensures BuildImages(name, files)[0].isPrimary
    ensures Count(BuildImages(name, files), IsPrimary) == 1
  {
    var imgs := BuildImages(name, files);
    assert imgs[1..] == ImagesFrom(name, files[1..], 1);
    NoPrimaryFrom(name, files[1..], 1);
  }

  lemma {:induction false} NoPrimaryFrom(name: string, files: seq<UploadedFile>, start: nat)
    requires start >= 1
    ensures Count(ImagesFrom(name, files, start), IsPrimary) == 0
  {
    if files != [] {
      assert ImagesFrom(name, files, start)[1..] == ImagesFrom(name, files[1..], start + 1);
      NoPrimaryFrom(name, files[1..], start + 1);
    }
  }

  /** Distinct positions get distinct alt texts. */
  lemma AltTextsDistinct(name: string, i: nat, j: nat)
    requires i != j
    ensures AltText(name, i) != AltText(name, j)
  {
    var prefix := name + " - Imagen ";
    if AltText(name, i) == AltText(name, j) {
      assert NatToString(i + 1) == AltText(name, i)[|prefix|..];
      assert NatToString(j + 1) == AltText(name, j)[|prefix|..];
      NatToStringInjective(i + 1, j + 1);
    }
  }

  /**
   * The name in the alt text on update: `updateData.name || product.name`, so an
   * absent or empty new name falls back to the stored one.
   */
  function UpdateAltName(newName: Option<string>, current: string): (r: string)
    ensures newName.Some? && newName.value != "" ==> r == newName.value
    ensures newName.None? || newName.value == "" ==> r == current
  {
    if newName.Some? && newName.value != "" then newName.value else current
  }

  /** The alt-text name on create: a missing name renders as the text `undefined`. */
  function CreateAltName(name: Option<string>): string {
    name.GetOr("undefined")
  }

  // ---------------------------------------------------------------------
  // Tags

  /** The `tags` field of a request body: absent, already a list, or a form string. */
  datatype TagsField = TagsAbsent | TagsList(tags: seq<string>) | TagsText(text: string)

  function NonEmpty(t: string): bool { t != "" }

  /** `text.split(',').map(tag => tag.trim()).filter(tag => tag)` */
  function SplitTags(text: string): (tags: seq<string>)
    ensures forall k :: 0 <= k < |tags| ==> tags[k] != "" && Trim(tags[k]) == tags[k] && ',' !in tags[k]
  {
    var parts := Split(text, ',');
    var trimmed := TrimAll(parts);
    var tags := Collections.Filter(trimmed, NonEmpty);
    forall k | 0 <= k < |tags| ensures Trim(tags[k]) == tags[k] && ',' !in tags[k] {
      var j :| 0 <= j < |trimmed| && trimmed[j] == tags[k];
      assert trimmed[j] == Trim(parts[j]);
      TrimIdempotent(parts[j]);
      TrimKeepsAbsent(parts[j], ',');
    }
    tags
  }

  /**
   * The string fallback undoes a comma join: tags that are non-empty, trimmed
   * and comma-free come back as they were.
   */
  lemma SplitTagsJoin(tags: seq<string>)
    requires forall k :: 0 <= k < |tags| ==> tags[k] != "" && Trim(tags[k]) == tags[k] && ',' !in tags[k]
    ensures SplitTags(Join(tags, ',')) == tags
  {
    if tags == [] {
      assert Split("", ',') == [""];
      assert TrimAll([""]) == [""];
    } else {
      SplitJoin(tags, ',');
      TrimAllTrimmed(tags);
      FilterAll(tags, NonEmpty);
    }
  }

  /** A blank string, or one holding only commas and spaces, yields no tags. */
  lemma BlankTagsText(text: string)
    requires forall k :: 0 <= k < |text| ==> text[k] == ',' || IsSpace(text[k])
    ensures SplitTags(text) == []
  {
    var parts := Split(text, ',');
    var tags := SplitTags(text);
    if tags != [] {
      var trimmed := TrimAll(parts);
      var j :| 0 <= j < |trimmed| && trimmed[j] == tags[0];
      BlankPart(text, parts, j);
      TrimEmptyIffBlank(parts[j]);
      assert false;
    }
  }

  lemma BlankPart(text: string, parts: seq<string>, j: nat)
    requires forall k :: 0 <= k < |text| ==> text[k] == ',' || IsSpace(text[k])
    requires parts == Split(text, ',') && j < |parts|
    ensures forall k :: 0 <= k < |parts[j]| ==> IsSpace(parts[j][k])
  {
    JoinedPartChars(parts, ',', j);
  }

  /** Each part's characters occur in the joined string. */
  lemma {:induction false} JoinedPartChars(parts: seq<string>, sep: char, j: nat)
    requires j < |parts|
    ensures forall k :: 0 <= k < |parts[j]| ==> parts[j][k] in Join(parts, sep)
  {
    if |parts| > 1 {
      var rest := Join(parts[1..], sep);
      assert Join(parts, sep) == parts[0] + [sep] + rest;
      if j > 0 {
        JoinedPartChars(parts[1..], sep, j - 1);
        assert parts[1..][j - 1] == parts[j];
      }
    }
  }

  /**
   * Tag normalisation: a string is first tried as JSON (`jsonParse` is the
   * parser; `None` is a parse that throws) and otherwise split on commas.
   */
  function NormalizeTags(field: TagsField, jsonParse: string -> Option<seq<string>>): (r: TagsField)
    ensures !r.TagsText?
    ensures field.TagsText? && jsonParse(field.text).None? ==> r == TagsList(SplitTags(field.text))
    ensures field.TagsText? && jsonParse(field.text).Some? ==> r == TagsList(jsonParse(field.text).value)
    ensures !field.TagsText? ==> r == field
  {
    match field
    case TagsText(s) =>
      (match jsonParse(s) case Some(t) => TagsList(t) case None => TagsList(SplitTags(s)))
    case _ => field
  }

  // ---------------------------------------------------------------------
  // Create and update

  /** The multipart request body of `POST /api/products`. */
  datatype ProductBody = ProductBody(
    name: Option<string>, description: string, price: int, category: Id, producer: Id,
    images: seq<UploadedImage>, stock: int, unit: string,
    isOrganic: Option<bool>, isAvailable: Option<bool>, isFeatured: Option<bool>,
    tags: TagsField)

  function TagsOf(field: TagsField): seq<string> {
    match field
    case TagsList(t) => t
    case _ => []
  }

  /**
   * `createProduct`: normalise tags, replace `images` by the uploaded files
   * when there are any, and create the document.
   */
  function CreateProduct(body: ProductBody, files: seq<UploadedFile>, jsonParse: string -> Option<seq<string>>,
                         id: Id, now: nat, taken: set<string>): (r: Result<Product, CreateError>)
    ensures r.Ok? ==> r.value.tags == TagsOf(NormalizeTags(body.tags, jsonParse))
    ensures r.Ok? && files != [] ==>
      && |r.value.images| == |files|
      && r.value.images[0].isPrimary
      && forall k :: 0 <= k < |files| ==>
           && r.value.images[k].url == UploadsPrefix + files[k].filename
           && r.value.images[k].alt == AltText(CreateAltName(body.name), k)
           && r.value.images[k].isPrimary == (k == 0)
           && r.value.images[k].filename == Some(files[k].filename)
    ensures r.Ok? && files == [] ==> r.value.images == CastImages(body.images)
    ensures (r.Err? && r.error.Invalid?) <==> SchemaErrors(InputOf(body, files, jsonParse)) != []
    ensures (r.Err? && r.error.DuplicateSlug?) <==>
      SchemaErrors(InputOf(body, files, jsonParse)) == [] && Slug(Trim(body.name.GetOr(""))) in taken
    ensures r.Ok? ==> r.value.slug !in taken
  {
    Create(InputOf(body, files, jsonParse), id, now, taken)
  }

  function InputOf(body: ProductBody, files: seq<UploadedFile>, jsonParse: string -> Option<seq<string>>): ProductInput {
    ProductInput(
      body.name.GetOr(""), body.description, body.price, body.category, body.producer,
      if files != [] then BuildImages(CreateAltName(body.name), files) else body.images,
      body.stock, body.unit, body.isOrganic, body.isAvailable, body.isFeatured,
      TagsOf(NormalizeTags(body.tags, jsonParse)))
  }

  /**
   * The images part of `updateProduct`: with new files the images are rebuilt
   * (alt text from the new name, else the stored one); without, they are not
   * part of the update.
   */
  function UpdateImages(current: Product, newName: Option<string>, files: seq<UploadedFile>): (r: Option<seq<Image>>)
    ensures files == [] <==> r.None?
    ensures r.Some? ==> |r.value| == |files| && forall k :: 0 <= k < |files| ==>
      && r.value[k].alt == AltText(UpdateAltName(newName, current.name), k)
      && r.value[k].isPrimary == (k == 0)
      && r.value[k].url == UploadsPrefix + files[k].filename
      && r.value[k].filename == Some(files[k].filename)
  {
    if files == [] then None else Some(CastImages(BuildImages(UpdateAltName(newName, current.name), files)))
  }

  /** `images.forEach(image => { if (image.filename) unlink(image.filename) })`, in order. */
  function StoredFilenames(imgs: seq<Image>): (names: seq<string>)
    ensures |names| <= |imgs|
    ensures forall k :: 0 <= k < |imgs| && imgs[k].filename.Some? && imgs[k].filename.value != ""
              ==> imgs[k].filename.value in names
    ensures forall n :: n in names ==> n != "" && exists k :: 0 <= k < |imgs| && imgs[k].filename == Some(n)
  {
    if imgs == [] then []
    else
      var rest := StoredFilenames(imgs[1..]);
      var f := imgs[0].filename;
      if f.Some? && f.value != "" then [f.value] + rest else rest
  }

  /** The files `updateProduct` unlinks: the stored images' files, when new files arrive. */
  function UnlinkedOnUpdate(current: Product, files: seq<UploadedFile>): (names: seq<string>)
    ensures files == [] ==> names == []
    ensures files != [] ==> names == StoredFilenames(current.images)
  {
    if files == [] then [] else StoredFilenames(current.images)
  }

  /** The files `deleteProduct` unlinks before deleting the document. */
  function UnlinkedOnDelete(current: Product): (names: seq<string>)
    ensures forall n :: n in names <==>
      n != "" && exists k :: 0 <= k < |current.images| && current.images[k].filename == Some(n)
  {
    StoredFilenames(current.images)
  }
}
