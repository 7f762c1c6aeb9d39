/** Page synchronisation (`rename_images` and `process_pages` in
    perdoo/__main__.py): the extracted images are renamed into a numbered
    sequence and each record's page list is rebuilt with one entry per image. */
module Pages {
  import opened Wrappers
  import opened Schemas
  import opened Text

  /** An image file in the scratch folder: `stem` and `suffix` as in pathlib. */
  datatype ImageFile = ImageFile(stem: string, suffix: string)

  function Name(image: ImageFile): string { image.stem + image.suffix }

  /** `len(str(len(image_list)))`: digits needed to write the image count. */
  function PadCount(n: nat): nat { |NatToString(n)| }

  /** `str(index).zfill(pad_count)`. */
  function PaddedIndex(i: nat, n: nat): string { ZFill(NatToString(i), PadCount(n)) }

  /** The name the skip test compares with: "<filename>_<index><suffix>". */
  function SkipName(filename: string, i: nat, n: nat, suffix: string): string {
    filename + "_" + PaddedIndex(i, n) + suffix
  }

  /** The stem an image is renamed to: "<filename>-<index>". */
  function TargetStem(filename: string, i: nat, n: nat): string {
    filename + "-" + PaddedIndex(i, n)
  }

  /** Image `i` of `n` after the loop body of `rename_images`: left alone when
      its name is the "_" form, otherwise renamed to the "-" form. */
  function RenamedImage(image: ImageFile, filename: string, i: nat, n: nat): (r: ImageFile)
    ensures r.suffix == image.suffix
    ensures Name(image) == SkipName(filename, i, n, image.suffix) ==> r == image
    ensures Name(image) != SkipName(filename, i, n, image.suffix) ==> r.stem == TargetStem(filename, i, n)
  {
    if Name(image) == SkipName(filename, i, n, image.suffix) then image
    else ImageFile(TargetStem(filename, i, n), image.suffix)
  }

  /** The folder's images after `rename_images`, position by position. */
  function RenamedAll(images: seq<ImageFile>, filename: string): (r: seq<ImageFile>)
    ensures |r| == |images|
    ensures forall i :: 0 <= i < |r| ==> r[i] == RenamedImage(images[i], filename, i, |images|)
  {
    seq(|images|, i requires 0 <= i < |images| => RenamedImage(images[i], filename, i, |images|))
  }

  /** The scratch folder the archive was extracted to, listed in order. */
  class Folder {
    var images: seq<ImageFile>

    constructor (images: seq<ImageFile>)
      ensures this.images == images
    {
      this.images := images;
    }

    /** `rename_images`: returns the indices it renamed (and logged), in order. */
    method RenameImages(filename: string) returns (renamed: seq<nat>)
      modifies this
      ensures images == RenamedAll(old(images), filename)
      ensures forall k :: k in renamed <==>
        0 <= k < |images| && Name(old(images)[k]) != SkipName(filename, k, |images|, old(images)[k].suffix)
      ensures forall a, b :: 0 <= a < b < |renamed| ==> renamed[a] < renamed[b]
    {
      var n := |images|;
      var i := 0;
      renamed := [];
      while i < n
        invariant 0 <= i <= n == |images|
        invariant forall k :: 0 <= k < i ==> images[k] == RenamedImage(old(images)[k], filename, k, n)
        invariant forall k :: i <= k < n ==> images[k] == old(images)[k]
        invariant forall k :: k in renamed <==>
          0 <= k < i && Name(old(images)[k]) != SkipName(filename, k, n, old(images)[k].suffix)
        invariant forall k :: 0 <= k < |renamed| ==> renamed[k] < i
        invariant forall a, b :: 0 <= a < b < |renamed| ==> renamed[a] < renamed[b]
      {
        var image := images[i];
        if Name(image) != SkipName(filename, i, n, image.suffix) {
          images := images[i := ImageFile(TargetStem(filename, i, n), image.suffix)];
          renamed := renamed + [i];
        }
        i := i + 1;
      }
    }
  }

  /** The padded index of every image has the same width, `PadCount(n)`. */
  lemma PaddedIndexWidth(i: nat, n: nat)
    requires i < n
    ensures |PaddedIndex(i, n)| == PadCount(n)
  {
    NatToStringLengthMonotone(i, n);
  }

  /** Two images are never given the same target name, whatever their
      suffixes. (A target may still be the name of a file already in the
      folder; such collisions are not part of this model.) */
  lemma TargetNamesDistinct(filename: string, i: nat, j: nat, n: nat, s: string, t: string)
    requires i < n && j < n && i != j
    ensures TargetStem(filename, i, n) + s != TargetStem(filename, j, n) + t
  {
    PaddedIndexWidth(i, n);
    PaddedIndexWidth(j, n);
    PaddedIndexValue(i, PadCount(n));
    PaddedIndexValue(j, PadCount(n));
    var a := TargetStem(filename, i, n) + s;
    var b := TargetStem(filename, j, n) + t;
    var lo, hi := |filename| + 1, |filename| + 1 + PadCount(n);
    assert a[lo..hi] == PaddedIndex(i, n);
    assert b[lo..hi] == PaddedIndex(j, n);
  }

  /** The skip test looks for the "_" form, so an image already carrying its
      "-" name is renamed (onto itself) and logged again. */
  lemma DashNameIsNeverSkipped(filename: string, i: nat, n: nat, suffix: string)
    ensures Name(ImageFile(TargetStem(filename, i, n), suffix)) != SkipName(filename, i, n, suffix)
  {
    var a := TargetStem(filename, i, n) + suffix;
    var b := SkipName(filename, i, n, suffix);
    assert a[|filename|] == '-' && b[|filename|] == '_';
  }

  /** An image already named in the "_" form keeps that name: it is not
      brought to the "-" form the others get. */
  lemma UnderscoreNameIsKept(filename: string, i: nat, n: nat, suffix: string)
    ensures var image := ImageFile(filename + "_" + PaddedIndex(i, n), suffix);
      RenamedImage(image, filename, i, n) == image
  {
  }

  /** A second pass over the first pass's output, in the same positional
      order, leaves the names as they are, although it renames (and logs)
      again every image the first pass brought to the "-" form. */
  lemma RenameNamesStable(images: seq<ImageFile>, filename: string)
    ensures RenamedAll(RenamedAll(images, filename), filename) == RenamedAll(images, filename)
  {
    var once := RenamedAll(images, filename);
    forall i | 0 <= i < |images|
      ensures RenamedImage(once[i], filename, i, |images|) == once[i]
    {
      if Name(images[i]) != SkipName(filename, i, |images|, images[i].suffix) {
        DashNameIsNeverSkipped(filename, i, |images|, images[i].suffix);
      }
    }
  }

  // ------------------------------------------------------------- page lists

  /** `next((x for x in pages if x.index == i), None)`. */
  function FindPage(pages: seq<Page>, i: int): (r: Option<Page>)
    ensures r.Some? ==> r.value in pages && r.value.index == i
    ensures r.None? <==> forall k :: 0 <= k < |pages| ==> pages[k].index != i
  {
    if pages == [] then None
    else if pages[0].index == i then Some(pages[0])
    else
      var r := FindPage(pages[1..], i);
      assert forall k :: 1 <= k < |pages| ==> pages[k] == pages[1..][k - 1];
      r
  }

  /** The first page with the index is the one found. */
  lemma {:induction false} FindPageFirst(pages: seq<Page>, k: nat)
    requires k < |pages|
    requires forall j :: 0 <= j < k ==> pages[j].index != pages[k].index
    ensures FindPage(pages, pages[k].index) == Some(pages[k])
  {
    if k > 0 {
      FindPageFirst(pages[1..], k - 1);
    }
  }

  /** `Page.from_path(file, index, is_final_page, page)`: a fresh entry that
      keeps the hand-set attributes of the old entry for that image. */
  function NewPage(index: nat, isFinal: bool, previous: Option<Page>): (p: Page)
    ensures p.index == index && p.isFinal == isFinal
    ensures p.attrs == if previous.Some? then previous.value.attrs else DefaultPageAttrs
  {
    Page(index, isFinal, if previous.Some? then previous.value.attrs else DefaultPageAttrs)
  }

  /** The page list rebuilt for `n` images from the old one. */
  function PagesFor(previous: seq<Page>, n: nat): (r: seq<Page>)
    ensures |r| == n
    ensures forall i :: 0 <= i < n ==> r[i].index == i
    ensures forall i :: 0 <= i < n ==> (r[i].isFinal <==> i == n - 1)
    ensures forall i :: 0 <= i < n ==>
      r[i].attrs == if FindPage(previous, i).Some? then FindPage(previous, i).value.attrs else DefaultPageAttrs
  {
    seq(n, i requires 0 <= i < n => NewPage(i, i == n - 1, FindPage(previous, i)))
  }

  /** The rebuilt list is sorted by index with no index twice, and only its
      last entry is marked final. */
  lemma PagesSortedAndFinal(previous: seq<Page>, n: nat)
    ensures forall i, j :: 0 <= i < j < n ==> PagesFor(previous, n)[i].index < PagesFor(previous, n)[j].index
    ensures n > 0 ==> forall i :: 0 <= i < n ==>
      (PagesFor(previous, n)[i].isFinal <==> PagesFor(previous, n)[i] == PagesFor(previous, n)[n - 1])
  {
  }

  /** Rebuilding an already rebuilt page list changes nothing. */
  lemma PagesIdempotent(previous: seq<Page>, n: nat)
    ensures PagesFor(PagesFor(previous, n), n) == PagesFor(previous, n)
  {
    var once := PagesFor(previous, n);
    forall i | 0 <= i < n
      ensures PagesFor(once, n)[i] == once[i]
    {
      FindPageFirst(once, i);
    }
  }

  /** The loop of `process_pages`: for each of `n` images, one page entry
      in each record, carrying over that record's old entry for the image. */
  method RebuildPages(info: MetaInfo, n: nat)
    modifies info
    ensures info.metadata == old(info.metadata).(pages := PagesFor(old(info.metadata.pages), n))
    ensures info.metronInfo == old(info.metronInfo).(pages := PagesFor(old(info.metronInfo.pages), n))
    ensures info.comicInfo == old(info.comicInfo).(pages := PagesFor(old(info.comicInfo.pages), n))
  {
    var metadata, metron, comic := info.metadata, info.metronInfo, info.comicInfo;
    var oldMetadata, oldMetron, oldComic := metadata.pages, metron.pages, comic.pages;
    ghost var wantMetadata := PagesFor(oldMetadata, n);
    ghost var wantMetron := PagesFor(oldMetron, n);
    ghost var wantComic := PagesFor(oldComic, n);
    var metadataPages, metronPages, comicPages := [], [], [];
    var i := 0;
    while i < n
      invariant 0 <= i <= n
      invariant metadataPages == wantMetadata[..i]
      invariant metronPages == wantMetron[..i]
      invariant comicPages == wantComic[..i]
    {
      var isFinal := i == n - 1;
      SliceSnoc(wantMetadata, i);
      SliceSnoc(wantMetron, i);
      SliceSnoc(wantComic, i);
      metadataPages := metadataPages + [NewPage(i, isFinal, FindPage(oldMetadata, i))];
      metronPages := metronPages + [NewPage(i, isFinal, FindPage(oldMetron, i))];
      comicPages := comicPages + [NewPage(i, isFinal, FindPage(oldComic, i))];
      i := i + 1;
    }
    assert wantMetadata[..i] == wantMetadata && wantMetron[..i] == wantMetron && wantComic[..i] == wantComic;
    info.metadata := metadata.(pages := metadataPages);
    info.metronInfo := metron.(pages := metronPages);
    info.comicInfo := comic.(pages := comicPages);
  }

  /** `process_pages`: rename the images, then give each of the three records a
      page list with one entry per image, carrying over its old entries. */
  method ProcessPages(info: MetaInfo, folder: Folder, filename: string)
    modifies info, folder
    ensures folder.images == RenamedAll(old(folder.images), filename)
    ensures info.metadata == old(info.metadata).(pages := PagesFor(old(info.metadata.pages), |folder.images|))
    ensures info.metronInfo == old(info.metronInfo).(pages := PagesFor(old(info.metronInfo.pages), |folder.images|))
    ensures info.comicInfo == old(info.comicInfo).(pages := PagesFor(old(info.comicInfo.pages), |folder.images|))
  {
    var renamed := folder.RenameImages(filename);
    RebuildPages(info, |folder.images|);
  }
}
