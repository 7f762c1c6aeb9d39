/** `read_archive` (perdoo/__main__.py): find and parse the three metadata
    entries of an archive, then derive whichever are missing. Parsing and the
    schema converters are not part of this model; they are parameters. */
module Reconcile {
  import opened Wrappers
  import opened Schemas
  import Archives

  /** The outcome of `X.from_bytes`: a record, or pydantic's `ValidationError`. */
  datatype Parsed<T> = Valid(value: T) | Invalid

  /** What `read_archive` sees of an archive: its path, `list_filenames()`
      and `read_file(name)`. */
  datatype ArchiveView = ArchiveView(
    path: Archives.Path,
    names: seq<string>,
    read: string -> Archives.Bytes)

  /** The parsers of the three XML schemas and the converters between them. */
  datatype Codecs = Codecs(
    parseMetadata: Archives.Bytes -> Parsed<Metadata>,
    parseMetronInfo: Archives.Bytes -> Parsed<MetronInfo>,
    parseComicInfo: Archives.Bytes -> Parsed<ComicInfo>,
    metronToMetadata: MetronInfo -> Metadata,
    comicToMetadata: ComicInfo -> Metadata,
    createMetadata: ArchiveView -> Metadata,
    metadataToMetron: Metadata -> MetronInfo,
    metadataToComic: Metadata -> ComicInfo)

  const MetadataEntry := "Metadata.xml"
  const MetronInfoEntry := "MetronInfo.xml"
  const ComicInfoEntry := "ComicInfo.xml"

  /** The entry read for a schema file: the rooted name "/X.xml" when the
      archive lists it, else the bare "X.xml", else none. */
  function EntryName(names: seq<string>, file: string): (r: Option<string>)
    ensures ("/" + file) in names ==> r == Some("/" + file)
    ensures ("/" + file) !in names && file in names ==> r == Some(file)
    ensures ("/" + file) !in names && file !in names ==> r == None
  {
    if ("/" + file) in names then Some("/" + file)
    else if file in names then Some(file)
    else None
  }

  /** One of the three `try` blocks: the parsed record, or `None` when the
      entry is absent or fails validation. */
  function Load<T>(a: ArchiveView, file: string, parse: Archives.Bytes -> Parsed<T>): (r: Option<T>)
    ensures r.Some? <==>
      EntryName(a.names, file).Some? && parse(a.read(EntryName(a.names, file).value)).Valid?
    ensures r.Some? ==> parse(a.read(EntryName(a.names, file).value)) == Valid(r.value)
  {
    match EntryName(a.names, file)
    case None => None
    case Some(name) =>
      match parse(a.read(name))
      case Valid(v) => Some(v)
      case Invalid => None
  }

  /** `read_archive`. A parsed Metadata is kept as it is; otherwise it is
      derived from MetronInfo, else from ComicInfo, else created from the
      archive. A missing MetronInfo or ComicInfo is then derived from that
      final Metadata, so all three records are always present. */
  function ReadArchive(a: ArchiveView, c: Codecs): (r: Records)
    ensures Load(a, MetadataEntry, c.parseMetadata).Some? ==>
      r.metadata == Load(a, MetadataEntry, c.parseMetadata).value
    ensures Load(a, MetronInfoEntry, c.parseMetronInfo).Some? ==>
      r.metronInfo == Load(a, MetronInfoEntry, c.parseMetronInfo).value
    ensures Load(a, MetronInfoEntry, c.parseMetronInfo).None? ==>
      r.metronInfo == c.metadataToMetron(r.metadata)
    ensures Load(a, ComicInfoEntry, c.parseComicInfo).Some? ==>
      r.comicInfo == Load(a, ComicInfoEntry, c.parseComicInfo).value
    ensures Load(a, ComicInfoEntry, c.parseComicInfo).None? ==>
      r.comicInfo == c.metadataToComic(r.metadata)
  {
    var metadata := Load(a, MetadataEntry, c.parseMetadata);
    var metronInfo := Load(a, MetronInfoEntry, c.parseMetronInfo);
    var comicInfo := Load(a, ComicInfoEntry, c.parseComicInfo);
    var md :=
      if metadata.Some? then metadata.value
      else if metronInfo.Some? then c.metronToMetadata(metronInfo.value)
      else if comicInfo.Some? then c.comicToMetadata(comicInfo.value)
      else c.createMetadata(a);
    var mi := if metronInfo.Some? then metronInfo.value else c.metadataToMetron(md);
    var ci := if comicInfo.Some? then comicInfo.value else c.metadataToComic(md);
    Records(md, mi, ci)
  }

  // ------------------------------------------- the precedence as a table

  function MapOption<A, B>(o: Option<A>, f: A -> B): Option<B> {
    if o.Some? then Some(f(o.value)) else None
  }

  /** The first candidate present, else the fallback. */
  function FirstPresent<T>(candidates: seq<Option<T>>, fallback: T): (r: T)
    ensures (exists i :: 0 <= i < |candidates| && candidates[i].Some?) ==>
      exists i :: 0 <= i < |candidates| && candidates[i] == Some(r)
    ensures (forall i :: 0 <= i < |candidates| ==> candidates[i].None?) ==> r == fallback
  {
    if candidates == [] then fallback
    else if candidates[0].Some? then candidates[0].value
    else FirstPresent(candidates[1..], fallback)
  }

  /** The ordered sources Metadata is taken from: itself, MetronInfo,
      ComicInfo, then the archive. */
  function MetadataCandidates(a: ArchiveView, c: Codecs): seq<Option<Metadata>> {
    [ Load(a, MetadataEntry, c.parseMetadata),
      MapOption(Load(a, MetronInfoEntry, c.parseMetronInfo), c.metronToMetadata),
      MapOption(Load(a, ComicInfoEntry, c.parseComicInfo), c.comicToMetadata) ]
  }

  /** The nested conditionals of `read_archive` agree with the precedence
      table evaluated in order. */
  lemma MetadataFollowsPrecedenceTable(a: ArchiveView, c: Codecs)
    ensures ReadArchive(a, c).metadata == FirstPresent(MetadataCandidates(a, c), c.createMetadata(a))
  {
    var cs := MetadataCandidates(a, c);
    var fallback := c.createMetadata(a);
    if cs[0].None? {
      if cs[1].None? {
        if cs[2].None? {
          assert cs[1..][1..][1..] == [];
          assert FirstPresent(cs[1..][1..][1..], fallback) == fallback;
        }
        assert FirstPresent(cs[1..][1..], fallback) == FirstPresent(cs[1..][1..][1..], fallback) || cs[2].Some?;
      }
      assert FirstPresent(cs[1..], fallback) == FirstPresent(cs[1..][1..], fallback) || cs[1].Some?;
    }
  }

  /** A rooted entry that fails validation is not rescued by a valid bare
      entry of the same name: the schema counts as absent. */
  lemma InvalidRootedEntryHidesBareEntry(a: ArchiveView, c: Codecs)
    requires "/" + MetadataEntry in a.names
    requires c.parseMetadata(a.read("/" + MetadataEntry)).Invalid?
    ensures Load(a, MetadataEntry, c.parseMetadata).None?
  {
  }

  /** An archive holding only a valid ComicInfo gets Metadata from it and
      MetronInfo from that Metadata, and keeps its ComicInfo. */
  lemma OnlyComicInfo(a: ArchiveView, c: Codecs)
    requires Load(a, MetadataEntry, c.parseMetadata).None?
    requires Load(a, MetronInfoEntry, c.parseMetronInfo).None?
    requires Load(a, ComicInfoEntry, c.parseComicInfo).Some?
    ensures var ci := Load(a, ComicInfoEntry, c.parseComicInfo).value;
      ReadArchive(a, c) == Records(c.comicToMetadata(ci), c.metadataToMetron(c.comicToMetadata(ci)), ci)
  {
  }

  /** An archive with none of the three entries valid gets a created
      Metadata and both interchange records derived from it. */
  lemma NothingValid(a: ArchiveView, c: Codecs)
    requires Load(a, MetadataEntry, c.parseMetadata).None?
    requires Load(a, MetronInfoEntry, c.parseMetronInfo).None?
    requires Load(a, ComicInfoEntry, c.parseComicInfo).None?
    ensures var md := c.createMetadata(a);
      ReadArchive(a, c) == Records(md, c.metadataToMetron(md), c.metadataToComic(md))
  {
  }

  /** When all three entries are valid nothing is derived. */
  lemma AllValidKeptAsParsed(a: ArchiveView, c: Codecs)
    requires Load(a, MetadataEntry, c.parseMetadata).Some?
    requires Load(a, MetronInfoEntry, c.parseMetronInfo).Some?
    requires Load(a, ComicInfoEntry, c.parseComicInfo).Some?
    ensures ReadArchive(a, c) == Records(
      Load(a, MetadataEntry, c.parseMetadata).value,
      Load(a, MetronInfoEntry, c.parseMetronInfo).value,
      Load(a, ComicInfoEntry, c.parseComicInfo).value)
  {
  }
}
