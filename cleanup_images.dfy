/**
 * backend/scripts/cleanup-images.js: collect the filenames the products'
 * images name, then delete every file of the uploads directory that is
 * not among them, counting the deletions. The directory is the class
 * `UploadDir` with its set of entry names; `readdirSync` is the listing
 * passed in, each entry once. Products are only read.
 */
module CleanupImages {
  import opened Wrappers
  import opened ProductModel
  import opened ProductUploads

  /** The truthy `image.filename` values of a list of images. */
  function ImageNames(images: seq<Image>): (names: set<string>)
    ensures forall n :: n in names <==> exists k :: 0 <= k < |images| && images[k].filename == Some(n) && n != ""
  {
    if images == [] then {}
    else
      var last := images[|images| - 1];
      var rest := ImageNames(images[..|images| - 1]);
      assert forall k :: 0 <= k < |images| - 1 ==> images[..|images| - 1][k] == images[k];
      rest + (if last.filename.Some? && last.filename.value != "" then {last.filename.value} else {})
  }

  /** The used set: the union of the image names of all products. */
  function UsedNames(products: seq<Product>): (used: set<string>)
    ensures forall n :: n in used <==> exists i :: 0 <= i < |products| && n in ImageNames(products[i].images)
  {
    if products == [] then {}
    else
      var init := products[..|products| - 1];
      var rest := UsedNames(init);
      var lastNames := ImageNames(products[|products| - 1].images);
      UsedNamesAppend(products, init, rest, lastNames);
      rest + lastNames
  }

  /** The names of all products are those of all but the last, plus the last one's. */
  lemma UsedNamesAppend(products: seq<Product>, init: seq<Product>, rest: set<string>, lastNames: set<string>)
    requires products != [] && lastNames == ImageNames(products[|products| - 1].images)
    requires init == products[..|products| - 1]
    requires forall n :: n in rest <==> exists i :: 0 <= i < |init| && n in ImageNames(init[i].images)
    ensures forall n :: (n in rest || n in lastNames) <==>
                        exists i :: 0 <= i < |products| && n in ImageNames(products[i].images)
  {
    var last := |products| - 1;
    assert forall i :: 0 <= i < last ==> init[i] == products[i];
    forall n ensures (exists i :: 0 <= i < |products| && n in ImageNames(products[i].images)) ==> n in rest || n in lastNames {
      if exists i :: 0 <= i < |products| && n in ImageNames(products[i].images) {
        var i :| 0 <= i < |products| && n in ImageNames(products[i].images);
        if i == last {
          assert n in lastNames;
        } else {
          assert n in ImageNames(init[i].images);
        }
      }
    }
  }

  /** The two nested `forEach` loops that fill `usedImages`. */
  method CollectUsed(products: seq<Product>) returns (used: set<string>)
    ensures used == UsedNames(products)
  {
    used := {};
    var i := 0;
    while i < |products|
      invariant 0 <= i <= |products|
      invariant used == UsedNames(products[..i])
    {
      var images := products[i].images;
      var seen := used;
      var j := 0;
      while j < |images|
        invariant 0 <= j <= |images|
        invariant used == seen + ImageNames(images[..j])
      {
        var f := images[j].filename;
        assert images[..j + 1][..j] == images[..j];
        if f.Some? && f.value != "" {
          used := used + {f.value};
        }
        j := j + 1;
      }
      assert images[..j] == images;
      assert products[..i + 1][..i] == products[..i];
      i := i + 1;
    }
    assert products[..i] == products;
  }

  /** The entries of `listing` that `used` does not name. */
  function Orphans(listing: seq<string>, used: set<string>): (r: set<string>)
    ensures forall f :: f in r <==> f in listing && f !in used
  {
    set f | f in listing && f !in used
  }

  /** Each entry once, as `readdirSync` lists a directory. */
  predicate Distinct(listing: seq<string>) {
    forall a, b :: 0 <= a < b < |listing| ==> listing[a] != listing[b]
  }

  class UploadDir {
    var entries: set<string>

    constructor (entries: set<string>)
      ensures this.entries == entries
    {
      this.entries := entries;
    }

    /**
     * `cleanupOrphanedImages`: a file is deleted exactly when no product's
     * image names it; `deletedCount` is the number of such files.
     */
    method CleanupOrphanedImages(listing: seq<string>, products: seq<Product>) returns (deletedCount: nat)
      requires Distinct(listing) && forall f :: f in listing <==> f in entries
      modifies this
      ensures entries == old(entries) * UsedNames(products)
      ensures deletedCount == |old(entries) - UsedNames(products)|
    {
      var used := CollectUsed(products);
      deletedCount := DeleteOrphans(listing, used);
    }

    /** The second loop: unlink each listed file outside `used` and count it. */
    method DeleteOrphans(listing: seq<string>, used: set<string>) returns (deletedCount: nat)
      requires Distinct(listing) && forall f :: f in listing <==> f in entries
      modifies this
      ensures entries == old(entries) * used
      ensures deletedCount == |old(entries) - used|
    {
      deletedCount := 0;
      var i := 0;
      while i < |listing|
        invariant 0 <= i <= |listing|
        invariant entries == old(entries) - Orphans(listing[..i], used)
        invariant deletedCount == |Orphans(listing[..i], used)|
      {
        var file := listing[i];
        OrphansStep(listing, i, used);
        if file !in used {
          entries := entries - {file};
          deletedCount := deletedCount + 1;
        }
        i := i + 1;
      }
      assert listing[..i] == listing;
      OrphansOfListing(listing, old(entries), used);
    }
  }

  /** One more entry of the listing adds it to the orphans exactly when it is unused, and it is new. */
  lemma OrphansStep(listing: seq<string>, i: nat, used: set<string>)
    requires Distinct(listing) && i < |listing|
    ensures listing[i] !in Orphans(listing[..i], used)
    ensures Orphans(listing[..i + 1], used)
            == Orphans(listing[..i], used) + (if listing[i] in used then {} else {listing[i]})
  {
    assert listing[..i + 1] == listing[..i] + [listing[i]];
  }

  /** Over the whole listing of a directory, the orphans are its entries outside the used set. */
  lemma OrphansOfListing(listing: seq<string>, entries: set<string>, used: set<string>)
    requires forall f :: f in listing <==> f in entries
    ensures Orphans(listing, used) == entries - used
  {
  }

  // ---------------------------------------------------------------------
  // The filename that the image sub-schema drops

  /**
   * As written, the stored images hold no filename, so a product created
   * from uploads contributes nothing to the used set and cleanup deletes
   * its own files. (The deletes of `updateProduct` and `deleteProduct`
   * unlink nothing for the same reason.)
   */
  lemma AsWrittenUploadsAreOrphans(p: Product, name: string, files: seq<UploadedFile>)
    requires p.images == CastImagesAsWritten(BuildImages(name, files))
    ensures ImageNames(p.images) == {}
    ensures StoredFilenames(p.images) == []
    ensures forall k :: 0 <= k < |files| ==> files[k].filename !in UsedNames([p])
  {
    var imgs := p.images;
    assert forall k :: 0 <= k < |imgs| ==> imgs[k].filename == None;
    NoStoredFilenames(imgs);
    NoImageNames(imgs);
    forall n ensures n !in UsedNames([p]) {
      assert [p][0] == p;
    }
  }

  lemma NoImageNames(images: seq<Image>)
    requires forall k :: 0 <= k < |images| ==> images[k].filename == None
    ensures ImageNames(images) == {}
  {
    forall n ensures n !in ImageNames(images) {
    }
  }

  lemma {:induction false} NoStoredFilenames(images: seq<Image>)
    requires forall k :: 0 <= k < |images| ==> images[k].filename == None
    ensures StoredFilenames(images) == []
  {
    if images != [] {
      NoStoredFilenames(images[1..]);
    }
  }

  /** The same uploads in any directory listing are all deleted when they are the only product. */
  lemma AsWrittenCleanupDeletesUploads(p: Product, name: string, files: seq<UploadedFile>, entries: set<string>)
    requires p.images == CastImagesAsWritten(BuildImages(name, files))
    ensures entries * UsedNames([p]) == {}
    ensures entries - UsedNames([p]) == entries
  {
    AsWrittenUploadsAreOrphans(p, name, files);
    assert UsedNames([p]) == {};
  }

  /**
   * With `filename` kept, every stored upload of a created product is in
   * the used set of any product list holding it, so cleanup keeps it.
   */
  lemma CreatedUploadsAreKept(body: ProductBody, files: seq<UploadedFile>, jsonParse: string -> Option<seq<string>>,
                              id: string, now: nat, taken: set<string>, products: seq<Product>, i: nat)
    requires CreateProduct(body, files, jsonParse, id, now, taken).Ok?
    requires i < |products| && products[i] == CreateProduct(body, files, jsonParse, id, now, taken).value
    ensures forall k :: 0 <= k < |files| && files[k].filename != "" ==> files[k].filename in UsedNames(products)
  {
    var p := products[i];
    forall k | 0 <= k < |files| && files[k].filename != ""
      ensures files[k].filename in UsedNames(products)
    {
      assert p.images[k].filename == Some(files[k].filename);
      assert files[k].filename in ImageNames(p.images);
    }
  }
}
