/** The image staging buffer of src/components/ImageUploader.tsx: staging
    dropped or picked files (`processFiles`) and removing a staged image
    (`removeImage`). The ids `uuidv4()` returns and the object URLs
    `URL.createObjectURL` returns are parameters; a removal reports the
    preview it revokes. */
module ImageUploader {
  import opened Types
  import Text
  import Seqs

  /** The default of the `maxImages` prop. */
  const DefaultMaxImages: int := 5

  const ImageTypePrefix: string := "image/"

  /** `f.type.startsWith('image/')` */
  predicate IsImage(f: FileHandle) {
    Text.StartsWith(f.mimeType, ImageTypePrefix)
  }

  /** `Array.from(files).filter((f) => f.type.startsWith('image/'))` */
  function ImageFiles(files: seq<FileHandle>): (r: seq<FileHandle>)
    ensures |r| <= |files|
    ensures forall f :: f in r <==> f in files && IsImage(f)
  {
    Seqs.Filter(files, IsImage)
  }

  /** `arr.slice(0, end)` on a JavaScript array: an end past the length stops
      at the length, and a negative end counts back from the length. */
  function SliceTo<T>(s: seq<T>, end: int): (r: seq<T>)
    ensures |r| <= |s| && r == s[..|r|]
    ensures 0 <= end ==> |r| == if end < |s| then end else |s|
    ensures end < 0 ==> |r| == if |s| + end > 0 then |s| + end else 0
  {
    if end >= |s| then s
    else if end >= 0 then s[..end]
    else if |s| + end > 0 then s[..|s| + end]
    else []
  }

  /** `toProcess.map((file) => ({ id: uuidv4(), file, preview: URL.createObjectURL(file), name: file.name }))`,
      where `ids(k)` and `previews(k)` are what the calls for the k-th file return. */
  function Stage(files: seq<FileHandle>, ids: nat -> string, previews: nat -> string): (r: seq<UploadedImage>)
    ensures |r| == |files|
    ensures Files(r) == files
    ensures forall k :: 0 <= k < |files| ==>
              r[k].id == ids(k) && r[k].preview == previews(k) && r[k].name == files[k].name
  {
    seq(|files|, k requires 0 <= k < |files| => UploadedImage(ids(k), files[k], previews(k), files[k].name))
  }

  /** `processFiles(files)`: the list handed to `onImagesChange`. The staged
      images come first, unchanged; then the image files of the input, in
      order, as many as `maxImages - images.length` lets through. */
  function ProcessFiles(images: seq<UploadedImage>, files: seq<FileHandle>, maxImages: int,
                        ids: nat -> string, previews: nat -> string): (r: seq<UploadedImage>)
    ensures |images| <= |r| && r[..|images|] == images
    ensures Files(r[|images|..]) == SliceTo(ImageFiles(files), maxImages - |images|)
    ensures forall k :: |images| <= k < |r| ==>
              && IsImage(r[k].file)
              && r[k].name == r[k].file.name
              && r[k].id == ids(k - |images|)
              && r[k].preview == previews(k - |images|)
  {
    var added := Stage(SliceTo(ImageFiles(files), maxImages - |images|), ids, previews);
    assert (images + added)[|images|..] == added;
    images + added
  }

  function Min(a: int, b: int): int {
    if a <= b then a else b
  }

  /** Within capacity, exactly `min(#image files, maxImages - images.length)`
      images are added, so the buffer never outgrows `maxImages`. */
  lemma ProcessFilesWithinCapacity(images: seq<UploadedImage>, files: seq<FileHandle>, maxImages: int,
                                   ids: nat -> string, previews: nat -> string)
    requires |images| <= maxImages
    ensures |ProcessFiles(images, files, maxImages, ids, previews)| ==
            |images| + Min(|ImageFiles(files)|, maxImages - |images|)
    ensures |ProcessFiles(images, files, maxImages, ids, previews)| <= maxImages
  {
    var r := ProcessFiles(images, files, maxImages, ids, previews);
    assert |Files(r[|images|..])| == |r| - |images|;
  }

  /** A full buffer takes nothing more. */
  lemma ProcessFilesAtCapacity(images: seq<UploadedImage>, files: seq<FileHandle>, maxImages: int,
                               ids: nat -> string, previews: nat -> string)
    requires |images| == maxImages
    ensures ProcessFiles(images, files, maxImages, ids, previews) == images
  {
    var r := ProcessFiles(images, files, maxImages, ids, previews);
    assert |Files(r[|images|..])| == |r| - |images|;
    assert r == r[..|images|];
  }

  /** When everything fits, every image file is staged, in order. */
  lemma ProcessFilesAllFit(images: seq<UploadedImage>, files: seq<FileHandle>, maxImages: int,
                           ids: nat -> string, previews: nat -> string)
    requires |images| + |ImageFiles(files)| <= maxImages
    ensures Files(ProcessFiles(images, files, maxImages, ids, previews)) == Files(images) + ImageFiles(files)
  {
    var r := ProcessFiles(images, files, maxImages, ids, previews);
    assert r == r[..|images|] + r[|images|..];
    FilesAppend(r[..|images|], r[|images|..]);
  }

  lemma FilesAppend(a: seq<UploadedImage>, b: seq<UploadedImage>)
    ensures Files(a + b) == Files(a) + Files(b)
  {
  }

  /** Above capacity (a list the prop's owner supplied), the negative
      `slice` end drops files from the back instead of adding none: the
      buffer still grows whenever there are more image files than the excess. */
  lemma ProcessFilesOverCapacity(images: seq<UploadedImage>, files: seq<FileHandle>, maxImages: int,
                                 ids: nat -> string, previews: nat -> string)
    requires |images| > maxImages
    ensures var excess := |images| - maxImages;
            |ProcessFiles(images, files, maxImages, ids, previews)| ==
            |images| + (if |ImageFiles(files)| > excess then |ImageFiles(files)| - excess else 0)
  {
    var r := ProcessFiles(images, files, maxImages, ids, previews);
    assert |Files(r[|images|..])| == |r| - |images|;
  }

  // ─── Removal ────────────────────────────────────────────────────────────────

  /** The result of `removeImage`: the new list and the preview revoked, if any. */
  datatype Removal = Removal(images: seq<UploadedImage>, revoked: Option<string>)

  /** The position `images.find((i) => i.id === id)` stops at; `|images|` when none matches. */
  function FindIndex(images: seq<UploadedImage>, id: string): (k: nat)
    ensures k <= |images|
    ensures forall j :: 0 <= j < k ==> images[j].id != id
    ensures k < |images| ==> images[k].id == id
  {
    if images == [] then 0
    else if images[0].id == id then 0
    else 1 + FindIndex(images[1..], id)
  }

  /** The filter predicate `(i) => i.id !== id`. */
  function OtherThan(id: string): UploadedImage -> bool {
    (i: UploadedImage) => i.id != id
  }

  /** `removeImage(id)`: revoke the preview of the first image with that id,
      then keep every image with another id. */
  function RemoveImage(images: seq<UploadedImage>, id: string): (r: Removal)
    ensures forall i :: i in r.images <==> i in images && i.id != id
    ensures r.revoked.Some? <==> exists k :: 0 <= k < |images| && images[k].id == id
    ensures r.revoked.Some? ==> r.revoked.value == images[FindIndex(images, id)].preview
  {
    var k := FindIndex(images, id);
    Removal(Seqs.Filter(images, OtherThan(id)), if k < |images| then Some(images[k].preview) else None)
  }

  /** Removing an id that is not staged changes nothing and revokes nothing. */
  lemma RemoveUnknownId(images: seq<UploadedImage>, id: string)
    requires forall k :: 0 <= k < |images| ==> images[k].id != id
    ensures RemoveImage(images, id) == Removal(images, None)
  {
    Seqs.FilterKeepsAll(images, OtherThan(id));
  }

  /** No two staged images share an id. */
  predicate UniqueImageIds(images: seq<UploadedImage>) {
    forall i, j :: 0 <= i < j < |images| ==> images[i].id != images[j].id
  }

  /** Fresh ids that differ from each other and from the staged images' ids
      keep every id distinct. */
  lemma ProcessFilesKeepsIdsUnique(images: seq<UploadedImage>, files: seq<FileHandle>, maxImages: int,
                                   ids: nat -> string, previews: nat -> string)
    requires UniqueImageIds(images)
    requires forall a: nat, b: nat :: a < b ==> ids(a) != ids(b)
    requires forall a: nat, k :: 0 <= k < |images| ==> ids(a) != images[k].id
    ensures UniqueImageIds(ProcessFiles(images, files, maxImages, ids, previews))
  {
    var r := ProcessFiles(images, files, maxImages, ids, previews);
    var n := |images|;
    forall i, j | 0 <= i < j < |r|
      ensures r[i].id != r[j].id
    {
      if j < n {
        assert r[i] == images[i] && r[j] == images[j];
      } else if i < n {
        assert r[i] == images[i] && r[j].id == ids(j - n);
      } else {
        assert r[i].id == ids(i - n) && r[j].id == ids(j - n);
      }
    }
  }

  /** With distinct ids, `find` stops at the one image carrying the id. */
  lemma FindUnique(images: seq<UploadedImage>, k: nat)
    requires UniqueImageIds(images) && k < |images|
    ensures FindIndex(images, images[k].id) == k
  {
    var found := FindIndex(images, images[k].id);
    if found < k {
      assert false;
    }
  }

  /** With distinct ids, filtering out the k-th image's id removes exactly it. */
  lemma {:induction false} FilterSplice(images: seq<UploadedImage>, k: nat)
    requires UniqueImageIds(images) && k < |images|
    ensures Seqs.Filter(images, OtherThan(images[k].id)) == images[..k] + images[k + 1..]
    decreases k
  {
    var p := OtherThan(images[k].id);
    var tail := images[1..];
    if k == 0 {
      forall j | 0 <= j < |tail|
        ensures p(tail[j])
      {
        assert tail[j] == images[j + 1];
      }
      Seqs.FilterKeepsAll(tail, p);
    } else {
      assert tail[k - 1] == images[k];
      FilterSplice(tail, k - 1);
      assert images[..k] == [images[0]] + tail[..k - 1];
      assert images[k + 1..] == tail[k..];
    }
  }

  /** With distinct ids, removing the k-th image's id takes out exactly that
      image, keeps the others in their order, and revokes its preview. */
  lemma RemoveIsSplice(images: seq<UploadedImage>, k: nat)
    requires UniqueImageIds(images) && k < |images|
    ensures RemoveImage(images, images[k].id) == Removal(images[..k] + images[k + 1..], Some(images[k].preview))
  {
    FindUnique(images, k);
    FilterSplice(images, k);
  }

  /** The previews of a list of images, in order. */
  function Previews(images: seq<UploadedImage>): (r: seq<string>)
    ensures |r| == |images|
    ensures forall k :: 0 <= k < |images| ==> r[k] == images[k].preview
  {
    seq(|images|, k requires 0 <= k < |images| => images[k].preview)
  }

  lemma PreviewsAppend(a: seq<UploadedImage>, b: seq<UploadedImage>)
    ensures Previews(a + b) == Previews(a) + Previews(b)
  {
  }

  /** Taking the k-th image out of a list takes exactly its preview out of
      the multiset of previews. */
  lemma PreviewsSplice(images: seq<UploadedImage>, k: nat)
    requires k < |images|
    ensures multiset(Previews(images)) ==
            multiset(Previews(images[..k] + images[k + 1..])) + multiset{images[k].preview}
  {
    var before, x, after := images[..k], images[k], images[k + 1..];
    assert images == before + [x] + after;
    PreviewsAppend(before + [x], after);
    PreviewsAppend(before, [x]);
    PreviewsAppend(before, after);
  }

  /** With distinct ids, no preview is lost by a removal: each one is either
      still staged or revoked, exactly once. */
  lemma RemoveAccountsForPreviews(images: seq<UploadedImage>, id: string)
    requires UniqueImageIds(images)
    ensures var r := RemoveImage(images, id);
            multiset(Previews(images)) ==
            multiset(Previews(r.images)) + (if r.revoked.Some? then multiset{r.revoked.value} else multiset{})
  {
    var k := FindIndex(images, id);
    if k < |images| {
      RemoveIsSplice(images, k);
      PreviewsSplice(images, k);
    } else {
      RemoveUnknownId(images, id);
    }
  }
}
