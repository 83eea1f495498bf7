/** The build-time size report: the listed site files' total size and
    count with the files over 50 KB flagged, then the images over 100 KB
    flagged, in that order. The file system is a map from path to size in
    bytes (a path absent from it does not exist). */
module SizeReport {
  import opened TextUtil

  const LARGE_FILE := 50 * 1024
  const LARGE_IMAGE := 100 * 1024
  const IMAGE_DIR := "assets/Images"

  /** The site files the report looks at, in order. */
  const FILES: seq<string> := [
    "index.html", "about.html", "services.html", "contact.html", "inquiry.html",
    "css/main.css", "css/about.css", "css/services.css", "css/contact.css", "css/inquiry.css",
    "js/main.js", "js/services.js", "js/inquiry.js"]

  datatype Kind = LargeFile | LargeImage

  /** One `stats.optimizations` record; its recommendation text is fixed by
      its kind. */
  datatype Optimization = Optimization(kind: Kind, file: string, size: nat)

  // ---------------------------------------------------------------------
  // The site files

  /** The bytes of the listed files that exist. */
  function SumExisting(files: seq<string>, fs: map<string, nat>): nat
    decreases |files|
  {
    if files == [] then 0
    else
      var f := files[|files| - 1];
      SumExisting(files[..|files| - 1], fs) + (if f in fs then fs[f] else 0)
  }

  /** How many of the listed files exist. */
  function CountExisting(files: seq<string>, fs: map<string, nat>): (n: nat)
    ensures n <= |files|
    decreases |files|
  {
    if files == [] then 0
    else CountExisting(files[..|files| - 1], fs) + (if files[|files| - 1] in fs then 1 else 0)
  }

  /** A `large_file` record, in list order, for each existing file over
      50 KB. */
  function LargeFiles(files: seq<string>, fs: map<string, nat>): seq<Optimization>
    decreases |files|
  {
    if files == [] then []
    else
      var f := files[|files| - 1];
      LargeFiles(files[..|files| - 1], fs) +
        (if f in fs && fs[f] > LARGE_FILE then [Optimization(LargeFile, f, fs[f])] else [])
  }

  /** Each flag names an existing listed file over 50 KB with its size, and
      there are no more flags than existing files. */
  lemma {:induction false} LargeFilesShape(files: seq<string>, fs: map<string, nat>)
    ensures var r := LargeFiles(files, fs);
      |r| <= CountExisting(files, fs) &&
      forall i :: 0 <= i < |r| ==>
        r[i].kind == LargeFile && r[i].file in files && r[i].file in fs &&
        r[i].size == fs[r[i].file] && r[i].size > LARGE_FILE
    decreases |files|
  {
    if files != [] {
      var init := files[..|files| - 1];
      LargeFilesShape(init, fs);
      forall f | f in init ensures f in files {
        var k :| 0 <= k < |init| && init[k] == f;
        assert files[k] == f;
      }
    }
  }

  /** No existing listed file over 50 KB goes unflagged. */
  lemma {:induction false} LargeFilesComplete(files: seq<string>, fs: map<string, nat>, k: int)
    requires 0 <= k < |files| && files[k] in fs && fs[files[k]] > LARGE_FILE
    ensures Optimization(LargeFile, files[k], fs[files[k]]) in LargeFiles(files, fs)
    decreases |files|
  {
    if k < |files| - 1 {
      var init := files[..|files| - 1];
      assert init[k] == files[k];
      LargeFilesComplete(init, fs, k);
    }
  }

  /** The bytes and the count are additive over the list. */
  lemma {:induction false} SumAppend(a: seq<string>, b: seq<string>, fs: map<string, nat>)
    ensures SumExisting(a + b, fs) == SumExisting(a, fs) + SumExisting(b, fs)
    ensures CountExisting(a + b, fs) == CountExisting(a, fs) + CountExisting(b, fs)
    decreases |b|
  {
    if b == [] {
      assert a + b == a;
    } else {
      var b' := b[..|b| - 1];
      SumAppend(a, b', fs);
      assert (a + b)[..|a + b| - 1] == a + b';
    }
  }

  /** The flags of a concatenation are those of each part, in order. */
  lemma {:induction false} LargeFilesAppend(a: seq<string>, b: seq<string>, fs: map<string, nat>)
    ensures LargeFiles(a + b, fs) == LargeFiles(a, fs) + LargeFiles(b, fs)
    decreases |b|
  {
    if b == [] {
      assert a + b == a;
    } else {
      var b' := b[..|b| - 1];
      LargeFilesAppend(a, b', fs);
      assert (a + b)[..|a + b| - 1] == a + b';
    }
  }

  /** Inserting a file that does not exist changes none of the figures. */
  lemma MissingFileIgnored(a: seq<string>, f: string, b: seq<string>, fs: map<string, nat>)
    requires f !in fs
    ensures SumExisting(a + [f] + b, fs) == SumExisting(a + b, fs)
    ensures CountExisting(a + [f] + b, fs) == CountExisting(a + b, fs)
    ensures LargeFiles(a + [f] + b, fs) == LargeFiles(a + b, fs)
  {
    SumAppend(a + [f], b, fs);
    SumAppend(a, b, fs);
    LargeFilesAppend(a + [f], b, fs);
    LargeFilesAppend(a, b, fs);
    assert [f][..0] == [];
    assert LargeFiles(a + [f], fs) == LargeFiles(a, fs) by {
      assert (a + [f])[..|a|] == a;
    }
    assert SumExisting(a + [f], fs) == SumExisting(a, fs) by {
      assert (a + [f])[..|a|] == a;
    }
  }

  // ---------------------------------------------------------------------
  // The images

  /** Only `.webp`, `.png` and `.jpg` names are analysed. */
  predicate IsImage(name: string) {
    EndsWith(name, ".webp") || EndsWith(name, ".png") || EndsWith(name, ".jpg")
  }

  /** `path.join(imageDir, name)` for a plain file name. */
  function ImagePath(name: string): (p: string)
    ensures StartsWith(p, IMAGE_DIR + "/") && p[|IMAGE_DIR| + 1..] == name
  {
    IMAGE_DIR + "/" + name
  }

  /** The images of a directory listing of names and sizes, in order. */
  function Images(listing: seq<(string, nat)>): (r: seq<(string, nat)>)
    ensures |r| <= |listing|
    ensures forall i :: 0 <= i < |r| ==> IsImage(r[i].0) && r[i] in listing
    decreases |listing|
  {
    if listing == [] then []
    else
      var e := listing[|listing| - 1];
      Images(listing[..|listing| - 1]) + (if IsImage(e.0) then [e] else [])
  }

  /** No image of the listing is skipped. */
  lemma {:induction false} ImagesComplete(listing: seq<(string, nat)>, k: int)
    requires 0 <= k < |listing| && IsImage(listing[k].0)
    ensures listing[k] in Images(listing)
    decreases |listing|
  {
    if k < |listing| - 1 {
      var init := listing[..|listing| - 1];
      assert init[k] == listing[k];
      ImagesComplete(init, k);
    }
  }

  /** The total bytes of a run of images. */
  function ImageBytes(images: seq<(string, nat)>): nat
    decreases |images|
  {
    if images == [] then 0 else ImageBytes(images[..|images| - 1]) + images[|images| - 1].1
  }

  /** A `large_image` record, in order, for each image over 100 KB. */
  function LargeImages(images: seq<(string, nat)>): (r: seq<Optimization>)
    ensures |r| <= |images|
    ensures forall i :: 0 <= i < |r| ==> r[i].kind == LargeImage && r[i].size > LARGE_IMAGE
    decreases |images|
  {
    if images == [] then []
    else
      var e := images[|images| - 1];
      LargeImages(images[..|images| - 1]) +
        (if e.1 > LARGE_IMAGE then [Optimization(LargeImage, ImagePath(e.0), e.1)] else [])
  }

  /** No image over 100 KB goes unflagged. */
  lemma {:induction false} LargeImagesComplete(images: seq<(string, nat)>, k: int)
    requires 0 <= k < |images| && images[k].1 > LARGE_IMAGE
    ensures Optimization(LargeImage, ImagePath(images[k].0), images[k].1) in LargeImages(images)
    decreases |images|
  {
    if k < |images| - 1 {
      var init := images[..|images| - 1];
      assert init[k] == images[k];
      LargeImagesComplete(init, k);
    }
  }

  /** The records of a concatenation are those of each part, in order. */
  lemma {:induction false} LargeImagesAppend(a: seq<(string, nat)>, b: seq<(string, nat)>)
    ensures LargeImages(a + b) == LargeImages(a) + LargeImages(b)
    decreases |b|
  {
    if b == [] {
      assert a + b == a;
    } else {
      var b', e := b[..|b| - 1], b[|b| - 1];
      var tail := if e.1 > LARGE_IMAGE then [Optimization(LargeImage, ImagePath(e.0), e.1)] else [];
      assert (a + b)[..|a + b| - 1] == a + b' && (a + b)[|a + b| - 1] == e;
      assert LargeImages(a + b) == LargeImages(a + b') + tail;
      assert LargeImages(b) == LargeImages(b') + tail;
      LargeImagesAppend(a, b');
    }
  }

  /** Every image of the directory listing over 100 KB is flagged. */
  lemma LargeImagesCompleteFromListing(listing: seq<(string, nat)>, k: int)
    requires 0 <= k < |listing| && IsImage(listing[k].0) && listing[k].1 > LARGE_IMAGE
    ensures Optimization(LargeImage, ImagePath(listing[k].0), listing[k].1) in LargeImages(Images(listing))
  {
    ImagesComplete(listing, k);
    var images := Images(listing);
    var j :| 0 <= j < |images| && images[j] == listing[k];
    LargeImagesComplete(images, j);
  }

  /** Every large image record names an analysed image of the directory
      with its size. */
  lemma {:induction false} LargeImagesFromListing(listing: seq<(string, nat)>, i: int)
    requires 0 <= i < |LargeImages(Images(listing))|
    ensures var o := LargeImages(Images(listing))[i];
      exists e :: e in listing && IsImage(e.0) && o.file == ImagePath(e.0) && o.size == e.1
  {
    LargeImagesFrom(Images(listing), i);
  }

  lemma {:induction false} LargeImagesFrom(images: seq<(string, nat)>, i: int)
    requires 0 <= i < |LargeImages(images)|
    ensures var o := LargeImages(images)[i];
      exists e :: e in images && o.file == ImagePath(e.0) && o.size == e.1
    decreases |images|
  {
    var init := images[..|images| - 1];
    if i < |LargeImages(init)| {
      LargeImagesFrom(init, i);
      var o := LargeImages(images)[i];
      var e :| e in init && o.file == ImagePath(e.0) && o.size == e.1;
      assert e in images;
    } else {
      assert images[|images| - 1] in images;
    }
  }

  /** The report's state. */
  class Optimizer {
    var totalSize: nat
    var fileCount: nat
    var optimizations: seq<Optimization>

    constructor ()
      ensures totalSize == 0 && fileCount == 0 && optimizations == []
    {
      totalSize, fileCount, optimizations := 0, 0, [];
    }

    /** `analyzeFileSizes` over `files`. */
    method AnalyzeFileSizes(files: seq<string>, fs: map<string, nat>)
      modifies this
      ensures totalSize == old(totalSize) + SumExisting(files, fs)
      ensures fileCount == old(fileCount) + CountExisting(files, fs)
      ensures optimizations == old(optimizations) + LargeFiles(files, fs)
    {
      var i := 0;
      while i < |files|
        invariant 0 <= i <= |files|
        invariant totalSize == old(totalSize) + SumExisting(files[..i], fs)
        invariant fileCount == old(fileCount) + CountExisting(files[..i], fs)
        invariant optimizations == old(optimizations) + LargeFiles(files[..i], fs)
      {
        assert files[..i + 1][..i] == files[..i];
        var f := files[i];
        if f in fs {
          var size := fs[f];
          totalSize := totalSize + size;
          fileCount := fileCount + 1;
          if size > LARGE_FILE {
            optimizations := optimizations + [Optimization(LargeFile, f, size)];
          }
        }
        i := i + 1;
      }
      assert files[..i] == files;
    }

    /** `analyzeImages`: nothing without the directory; otherwise the
        images' total is computed and each large one flagged. The site
        totals are left alone. */
    method AnalyzeImages(dir: Option<seq<(string, nat)>>) returns (imageBytes: nat)
      modifies this
      ensures dir.None? ==> imageBytes == 0 && optimizations == old(optimizations)
      ensures dir.Some? ==>
        imageBytes == ImageBytes(Images(dir.value)) &&
        optimizations == old(optimizations) + LargeImages(Images(dir.value))
      ensures totalSize == old(totalSize) && fileCount == old(fileCount)
    {
      if dir.None? {
        return 0;
      }
      var images := ImageList(dir.value);
      var large;
      imageBytes, large := ScanImages(images);
      PushAll(large);
    }

    /** The `largeImages.forEach` that records each flag. */
    method PushAll(large: seq<Optimization>)
      modifies this
      ensures optimizations == old(optimizations) + large
      ensures totalSize == old(totalSize) && fileCount == old(fileCount)
    {
      var i := 0;
      while i < |large|
        invariant 0 <= i <= |large|
        invariant optimizations == old(optimizations) + large[..i]
        invariant totalSize == old(totalSize) && fileCount == old(fileCount)
      {
        optimizations := optimizations + [large[i]];
        i := i + 1;
        assert large[..i] == large[..i - 1] + [large[i - 1]];
      }
      assert large[..i] == large;
    }

    /** `generateReport`: the site files, then the images. */
    method GenerateReport(fs: map<string, nat>, dir: Option<seq<(string, nat)>>)
      modifies this
      ensures totalSize == old(totalSize) + SumExisting(FILES, fs)
      ensures fileCount == old(fileCount) + CountExisting(FILES, fs)
      ensures optimizations == old(optimizations) + LargeFiles(FILES, fs) +
        (if dir.Some? then LargeImages(Images(dir.value)) else [])
    {
      AnalyzeFileSizes(FILES, fs);
      var _ := AnalyzeImages(dir);
    }
  }

  /** The `filter` over the directory listing. */
  method ImageList(listing: seq<(string, nat)>) returns (images: seq<(string, nat)>)
    ensures images == Images(listing)
  {
    images := [];
    var i := 0;
    while i < |listing|
      invariant 0 <= i <= |listing|
      invariant images == Images(listing[..i])
    {
      assert listing[..i + 1][..i] == listing[..i];
      if IsImage(listing[i].0) {
        images := images + [listing[i]];
      }
      i := i + 1;
    }
    assert listing[..i] == listing;
  }

  /** The `images.forEach` that totals the bytes and collects the large
      images. */
  method ScanImages(images: seq<(string, nat)>) returns (bytes: nat, large: seq<Optimization>)
    ensures bytes == ImageBytes(images) && large == LargeImages(images)
  {
    bytes, large := 0, [];
    var i := 0;
    while i < |images|
      invariant 0 <= i <= |images|
      invariant bytes == ImageBytes(images[..i])
      invariant large == LargeImages(images[..i])
    {
      assert images[..i + 1][..i] == images[..i];
      var size := images[i].1;
      bytes := bytes + size;
      if size > LARGE_IMAGE {
        large := large + [Optimization(LargeImage, ImagePath(images[i].0), size)];
      }
      i := i + 1;
    }
    assert images[..i] == images;
  }

  /** In a report every file flag comes before every image flag. */
  lemma FilesFlaggedFirst(files: seq<string>, fs: map<string, nat>, images: seq<(string, nat)>, i: int, j: int)
    requires var r := LargeFiles(files, fs) + LargeImages(images);
      0 <= i < |r| && 0 <= j < |r| && r[i].kind == LargeImage && r[j].kind == LargeFile
    ensures j < i
  {
    LargeFilesShape(files, fs);
  }
}
