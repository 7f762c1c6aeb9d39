/** Opening an archive by sniffing its content (perdoo/archives/__init__.py)
    and the choice of formats when a collection is converted to the output
    format (`convert_collection` in perdoo/__main__.py). */
module Archives {
  import opened Wrappers

  type Bytes = seq<bv8>

  /** A file-system path as its list of segments. */
  type Path = seq<string>

  /** The four container formats: zip, rar, tar and 7z. */
  datatype ArchiveKind = CBZ | CBR | CBT | CB7

  /** A file on disk: where it is and what it holds. */
  datatype StoredFile = StoredFile(path: Path, content: Bytes)

  /** The content-sniffing predicates `is_zipfile`, `is_rarfile`, `is_tarfile`
      and `is_7zfile`, each a function of the file's bytes only. */
  datatype Sniffers = Sniffers(
    isZip: Bytes -> bool,
    isRar: Bytes -> bool,
    isTar: Bytes -> bool,
    is7z: Bytes -> bool)

  /** The archive handle: the path it was opened with and its format. */
  datatype Archive = Archive(path: Path, kind: ArchiveKind)

  /** The `NotImplementedError` raised for a file no predicate accepts. */
  datatype Unsupported = Unsupported(path: Path)

  /** `get_archive`: zip, then rar, then tar are tried on the content; the 7z
      branch tests the function object `is_7zfile`, not its result, so it is
      taken whenever the optional `py7zr` import succeeded. */
  function GetArchive(file: StoredFile, sniff: Sniffers, py7zrLoaded: bool): (r: Result<Archive, Unsupported>)
    ensures r.Ok? ==> r.value.path == file.path
    ensures r.Err? ==> r.error.path == file.path
    ensures r.Ok? && r.value.kind == CBZ <==> sniff.isZip(file.content)
    ensures r.Ok? && r.value.kind == CBR <==> !sniff.isZip(file.content) && sniff.isRar(file.content)
    ensures r.Ok? && r.value.kind == CBT <==>
      !sniff.isZip(file.content) && !sniff.isRar(file.content) && sniff.isTar(file.content)
    ensures r.Ok? && r.value.kind == CB7 <==>
      py7zrLoaded && !sniff.isZip(file.content) && !sniff.isRar(file.content) && !sniff.isTar(file.content)
    ensures r.Err? <==>
      !py7zrLoaded && !sniff.isZip(file.content) && !sniff.isRar(file.content) && !sniff.isTar(file.content)
  {
    if sniff.isZip(file.content) then Ok(Archive(file.path, CBZ))
    else if sniff.isRar(file.content) then Ok(Archive(file.path, CBR))
    else if sniff.isTar(file.content) then Ok(Archive(file.path, CBT))
    else if py7zrLoaded then Ok(Archive(file.path, CB7))
    else Err(Unsupported(file.path))
  }

  /** The 7z predicate is never consulted: two sniffers that differ only in
      `is7z` open every file the same way. */
  lemma SevenZipPredicateUnused(file: StoredFile, sniff: Sniffers, is7z: Bytes -> bool, py7zrLoaded: bool)
    ensures GetArchive(file, sniff, py7zrLoaded) == GetArchive(file, sniff.(is7z := is7z), py7zrLoaded)
  {
  }

  /** With `py7zr` importable, every file opens: content no predicate accepts
      becomes a 7z archive, and the unsupported-format error is unreachable. */
  lemma LoadedPy7zrOpensEverything(file: StoredFile, sniff: Sniffers)
    ensures GetArchive(file, sniff, true).Ok?
    ensures !sniff.isZip(file.content) && !sniff.isRar(file.content) && !sniff.isTar(file.content)
      ==> GetArchive(file, sniff, true).value.kind == CB7
  {
  }

  /** The format depends on the content only: the same bytes under another
      name (another extension) give the same format. */
  lemma FormatIgnoresName(a: StoredFile, b: StoredFile, sniff: Sniffers, py7zrLoaded: bool)
    requires a.content == b.content
    ensures GetArchive(a, sniff, py7zrLoaded).Ok? == GetArchive(b, sniff, py7zrLoaded).Ok?
    ensures GetArchive(a, sniff, py7zrLoaded).Ok? ==>
      GetArchive(a, sniff, py7zrLoaded).value.kind == GetArchive(b, sniff, py7zrLoaded).value.kind
  {
  }

  // ------------------------------------------------------ collection convert

  /** `settings.output.format`. */
  datatype OutputFormat = Cb7 | Cbt | Cbz

  function Extension(kind: ArchiveKind): string {
    match kind
    case CBZ => ".cbz"
    case CBR => ".cbr"
    case CBT => ".cbt"
    case CB7 => ".cb7"
  }

  /** The extension and archive class chosen for the output format: CB7 and
      CBT are listed, every other format falls back to CBZ. */
  function ConversionTarget(output: OutputFormat): (t: (string, ArchiveKind))
    ensures t.0 == Extension(t.1)
    ensures t.1 != CBR
    ensures t.1 == CB7 <==> output == Cb7
    ensures t.1 == CBT <==> output == Cbt
  {
    match output
    case Cb7 => (".cb7", CB7)
    case Cbt => (".cbt", CBT)
    case _ => (".cbz", CBZ)
  }

  /** Python's `list.remove(x)`: drops the first occurrence, `None` standing
      for the `ValueError` raised when `x` is absent. */
  function RemoveFirst(xs: seq<string>, x: string): (r: Option<seq<string>>)
    ensures r.None? <==> x !in xs
    ensures r.Some? ==> multiset(r.value) + multiset{x} == multiset(xs)
    ensures r.Some? ==> |r.value| == |xs| - 1
  {
    if xs == [] then None
    else if xs[0] == x then
      assert xs == [xs[0]] + xs[1..];
      Some(xs[1..])
    else
      match RemoveFirst(xs[1..], x)
      case None => None
      case Some(rest) =>
        assert xs == [xs[0]] + xs[1..];
        Some([xs[0]] + rest)
  }

  /** The extensions whose files are converted: all known archive extensions
      but the target's. */
  function SourceExtensions(archiveExtensions: seq<string>, output: OutputFormat): Option<seq<string>>
  {
    RemoveFirst(archiveExtensions, ConversionTarget(output).0)
  }

  /** When the known extensions are distinct, the target's own extension is
      never among the converted ones and every other one is. */
  lemma SourceExtensionsExcludeTarget(archiveExtensions: seq<string>, output: OutputFormat, e: string)
    requires forall i, j :: 0 <= i < j < |archiveExtensions| ==> archiveExtensions[i] != archiveExtensions[j]
    requires ConversionTarget(output).0 in archiveExtensions
    ensures SourceExtensions(archiveExtensions, output).Some?
    ensures e in SourceExtensions(archiveExtensions, output).value <==>
      e in archiveExtensions && e != ConversionTarget(output).0
  {
    var x := ConversionTarget(output).0;
    var r := RemoveFirst(archiveExtensions, x).value;
    assert multiset(r) + multiset{x} == multiset(archiveExtensions);
    if x in r {
      var i :| 0 <= i < |archiveExtensions| && archiveExtensions[i] == x;
      assert multiset(archiveExtensions)[x] >= 2;
      DistinctCountsOnce(archiveExtensions, x);
    }
    assert e in r ==> e in multiset(archiveExtensions);
    assert e in archiveExtensions && e != x ==> e in multiset(r);
  }

  lemma {:induction false} DistinctCountsOnce(xs: seq<string>, x: string)
    requires forall i, j :: 0 <= i < j < |xs| ==> xs[i] != xs[j]
    ensures multiset(xs)[x] <= 1
  {
    if xs != [] {
      assert xs == [xs[0]] + xs[1..];
      DistinctCountsOnce(xs[1..], x);
      if xs[0] == x {
        assert x !in xs[1..];
      }
    }
  }

  /** The conversion loop of `convert_collection`: each listed file is opened
      by `get_archive` and handed to the target format's `convert`, whose
      result is ignored. An unsupported file raises out of the loop, so no
      later file is handed over. */
  method ConvertCollection(files: seq<StoredFile>, sniff: Sniffers, py7zrLoaded: bool)
    returns (handed: seq<Archive>, failure: Option<Unsupported>)
    ensures |handed| <= |files|
    ensures forall i :: 0 <= i < |handed| ==> GetArchive(files[i], sniff, py7zrLoaded) == Ok(handed[i])
    ensures failure.None? ==> |handed| == |files|
    ensures failure.Some? ==>
      |handed| < |files| && GetArchive(files[|handed|], sniff, py7zrLoaded) == Err(failure.value)
  {
    handed := [];
    var i := 0;
    while i < |files|
      invariant i == |handed| <= |files|
      invariant forall k :: 0 <= k < i ==> GetArchive(files[k], sniff, py7zrLoaded) == Ok(handed[k])
    {
      match GetArchive(files[i], sniff, py7zrLoaded)
      case Err(e) =>
        return handed, Some(e);
      case Ok(archive) =>
        handed := handed + [archive];
      i := i + 1;
    }
    failure := None;
  }
}
