/**
 * backend/config/multer.js: which uploaded files are accepted, the name a
 * stored upload gets, and the size and count limits. The clock and the
 * random number in the filename are parameters.
 */
module Uploads {
  import opened Wrappers
  import opened Text

  /** The words of `/jpeg|jpg|png|gif|webp/`, an unanchored pattern: any occurrence matches. */
  predicate AllowedType(s: string) {
    Contains(s, "jpeg") || Contains(s, "jpg") || Contains(s, "png") || Contains(s, "gif") || Contains(s, "webp")
  }

  /** The last path segment. */
  function BaseName(path: string): (b: string)
    ensures '/' !in b
    ensures '/' !in path ==> b == path
  {
    match LastIndexOf(path, '/')
    case None => path
    case Some(i) => path[i + 1..]
  }

  /**
   * `path.extname`: from the last `.` of the last segment to its end, except
   * that a segment with no `.`, one whose only `.` before the end is its
   * first character, and the segment `..` have none.
   */
  function ExtName(path: string): (ext: string)
    ensures ext == [] || (ext[0] == '.' && '.' !in ext[1..] && '/' !in ext)
    ensures '.' !in BaseName(path) ==> ext == []
  {
    var base := BaseName(path);
    var dot := LastIndexOf(base, '.');
    if dot.None? || dot.value == 0 || base == ".." then []
    else
      assert base[dot.value..][1..] == base[dot.value + 1..];
      base[dot.value..]
  }

  /** A name made of a stem without `.` or `/` and an extension has that extension. */
  lemma ExtNameOfJoin(stem: string, ext: string)
    requires stem != [] && '.' !in stem && '/' !in stem
    requires ext == [] || (ext[0] == '.' && '.' !in ext[1..] && '/' !in ext)
    ensures ExtName(stem + ext) == ext
  {
    var name := stem + ext;
    assert '/' !in name by {
      forall k | 0 <= k < |name| ensures name[k] != '/' {
        if k >= |stem| {
          assert name[k] == ext[k - |stem|];
          if k > |stem| {
            assert ext[k - |stem|] == ext[1..][k - |stem| - 1];
          }
        }
      }
    }
    assert BaseName(name) == name;
    if ext == [] {
      assert name == stem;
    } else {
      var d := |stem|;
      assert name[d] == '.';
      assert name[d + 1..] == ext[1..];
      LastIndexOfAt(name, '.', d);
      assert name[d..] == ext;
      assert name[0] == stem[0] && stem[0] in stem;
    }
  }

  datatype Decision = Accept | Reject(message: string)

  const RejectMessage := "Solo se permiten archivos de imagen (JPEG, JPG, PNG, GIF, WEBP)"

  /**
   * `fileFilter`: the file is kept when the lowercased extension of its
   * original name AND its mimetype, as sent, both contain an allowed word;
   * otherwise the callback gets the error and `false`.
   */
  function FileFilter(originalname: string, mimetype: string): (d: Decision)
    ensures d == Accept <==> AllowedType(Lower(ExtName(originalname))) && AllowedType(mimetype)
    ensures d != Accept ==> d == Reject(RejectMessage)
  {
    if AllowedType(mimetype) && AllowedType(Lower(ExtName(originalname))) then Accept else Reject(RejectMessage)
  }

  /** A string without the first character of `sub` does not contain `sub`. */
  lemma {:induction false} FirstCharMissing(s: string, sub: string)
    requires sub != [] && sub[0] !in s
    ensures !Contains(s, sub)
    decreases |s|
  {
    if s != [] {
      assert s[0] in s;
      assert forall x :: x in s[1..] ==> x in s;
      FirstCharMissing(s[1..], sub);
    }
  }

  /** The mimetype is not lowercased: one without lowercase letters, such as `IMAGE/JPEG`, is refused. */
  lemma UppercaseMimetypeRejected(originalname: string, mimetype: string)
    requires forall k :: 0 <= k < |mimetype| ==> !IsAsciiLower(mimetype[k])
    ensures FileFilter(originalname, mimetype) == Reject(RejectMessage)
  {
    assert 'j' !in mimetype && 'p' !in mimetype && 'g' !in mimetype && 'w' !in mimetype;
    FirstCharMissing(mimetype, "jpeg");
    FirstCharMissing(mimetype, "jpg");
    FirstCharMissing(mimetype, "png");
    FirstCharMissing(mimetype, "gif");
    FirstCharMissing(mimetype, "webp");
  }

  /** A name without an extension is refused whatever its mimetype. */
  lemma NoExtensionRejected(originalname: string, mimetype: string)
    requires '.' !in BaseName(originalname)
    ensures FileFilter(originalname, mimetype) == Reject(RejectMessage)
  {
  }

  /**
   * The extension is lowercased before the test, and the test is unanchored:
   * a name such as `FOTO.JPGX` passes alongside a JPEG mimetype.
   */
  lemma UnanchoredExtensionAccepted(stem: string, mimetype: string)
    requires stem != [] && '.' !in stem && '/' !in stem
    requires Contains(mimetype, "jpeg")
    ensures FileFilter(stem + ".JPGX", mimetype) == Accept
  {
    ExtNameOfJoin(stem, ".JPGX");
    JpgxAllowed();
    assert AllowedType(mimetype);
  }

  lemma JpgxAllowed()
    ensures AllowedType(Lower(".JPGX"))
  {
    var lower := Lower(".JPGX");
    assert lower == ".jpgx";
    ContainsAt(lower, "jpg", 1);
  }

  /** A dot file has no extension: `.png` is refused. */
  lemma DotFileRejected()
    ensures FileFilter(".png", "image/png") == Reject(RejectMessage)
  {
    var name := ".png";
    assert '/' !in name && BaseName(name) == name;
    LastIndexOfAt(name, '.', 0);
  }

  // ---------------------------------------------------------------------
  // Stored names and limits

  /** `product-${Date.now()}-${Math.round(Math.random() * 1E9)}${extension}` */
  function StoredName(now: nat, random: nat, originalname: string): (name: string)
    ensures |name| >= 11 && name[..8] == "product-"
  {
    "product-" + NatToString(now) + "-" + NatToString(random) + ExtName(originalname)
  }

  /** The stored file keeps the original extension verbatim, case included. */
  lemma StoredNameKeepsExtension(now: nat, random: nat, originalname: string)
    ensures ExtName(StoredName(now, random, originalname)) == ExtName(originalname)
  {
    var a := NatToString(now);
    var b := NatToString(random);
    var prefix := "product-" + a + "-" + b;
    assert StoredName(now, random, originalname) == prefix + ExtName(originalname);
    DigitsExclude(a, '.');
    DigitsExclude(a, '/');
    DigitsExclude(b, '.');
    DigitsExclude(b, '/');
    StoredPrefixPlain();
    ExtNameOfJoin(prefix, ExtName(originalname));
  }

  lemma StoredPrefixPlain()
    ensures '.' !in "product-" && '/' !in "product-"
  {
    var p := "product-";
    forall k | 0 <= k < |p| ensures p[k] != '.' && p[k] != '/' {
    }
  }

  /** The position of a `c` with no `c` after it is the last one. */
  lemma LastIndexOfAt(s: string, c: char, i: nat)
    requires i < |s| && s[i] == c && c !in s[i + 1..]
    ensures LastIndexOf(s, c) == Some(i)
  {
  }

  /** `limits`: 5 MiB per file and 5 files per request. */
  const MaxFileSize: nat := 5 * 1024 * 1024
  const MaxFiles: nat := 5

  /** One incoming upload: the client's name, the declared mimetype and the size in bytes. */
  datatype IncomingFile = IncomingFile(originalname: string, mimetype: string, size: nat)

  /**
   * A request's files go through when there are at most five and each one
   * passes the filter and fits the size limit. Which error multer reports
   * when several fail is the library's own and is not modelled.
   */
  predicate Admitted(files: seq<IncomingFile>) {
    && |files| <= MaxFiles
    && forall k :: 0 <= k < |files| ==>
         FileFilter(files[k].originalname, files[k].mimetype) == Accept && files[k].size <= MaxFileSize
  }

  /** The admitted files, stored under their generated names (one clock and random draw per file). */
  function StoreAll(files: seq<IncomingFile>, clock: seq<nat>, random: seq<nat>): seq<string>
    requires |clock| == |files| && |random| == |files|
  {
    seq(|files|, k requires 0 <= k < |files| => StoredName(clock[k], random[k], files[k].originalname))
  }

  /**
   * One stored name per admitted file, in order, each keeping its file's
   * extension, which the filter accepts.
   */
  lemma {:induction false} AdmittedNamesPassFilter(files: seq<IncomingFile>, clock: seq<nat>, random: seq<nat>)
    requires |clock| == |files| && |random| == |files| && Admitted(files)
    ensures |StoreAll(files, clock, random)| == |files|
    ensures forall k :: 0 <= k < |files| ==>
      && ExtName(StoreAll(files, clock, random)[k]) == ExtName(files[k].originalname)
      && AllowedType(Lower(ExtName(StoreAll(files, clock, random)[k])))
  {
    var names := StoreAll(files, clock, random);
    forall k | 0 <= k < |files|
      ensures ExtName(names[k]) == ExtName(files[k].originalname) && AllowedType(Lower(ExtName(names[k])))
    {
      StoredNameKeepsExtension(clock[k], random[k], files[k].originalname);
    }
  }
}
