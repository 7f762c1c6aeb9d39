/** The three metadata records the pipeline carries for one archive: the
    canonical Metadata, MetronInfo and ComicInfo. Only the fields the core
    reads or writes are modelled; the rest of each XML schema is not part of
    this model. */
module Schemas {
  import opened Wrappers

  /** Calendar dates as day numbers. */
  type Date = int

  // ---------------------------------------------------------------- pages

  /** What a page entry carries over from an earlier entry for the same image
      (set by hand in the XML rather than read from the image file). */
  datatype PageAttrs = PageAttrs(pageType: string, doublePage: bool, bookmark: Option<string>)

  const DefaultPageAttrs := PageAttrs("", false, None)

  /** One page entry: its image index (`index` in Metadata, `image` in the
      interchange schemas), whether it is the last page, and the carried
      attributes. */
  datatype Page = Page(index: int, isFinal: bool, attrs: PageAttrs)

  // -------------------------------------------------------------- Metadata

  /** Catalogue a resource id comes from; only Comicvine is singled out. */
  datatype Source = Comicvine | OtherSource(name: string)

  /** An identifier in an external catalogue, keyed by (source, value). */
  datatype Resource = Resource(source: Source, value: int)

  datatype TitledResource = TitledResource(title: string, resources: seq<Resource>)

  datatype Credit = Credit(creator: TitledResource, roles: seq<TitledResource>)

  datatype StoryArc = StoryArc(title: string, resources: seq<Resource>)

  datatype Format =
    | Annual | Comic | DigitalChapter | GraphicNovel | Hardcover | TradePaperback
    | OtherFormat(name: string)

  datatype Publisher = Publisher(title: string, resources: seq<Resource>)

  datatype Series = Series(
    publisher: Publisher,
    title: string,
    volume: int,
    startYear: Option<int>,
    resources: seq<Resource>)

  datatype Issue = Issue(
    series: Series,
    number: Option<string>,
    format: Format,
    title: Option<string>,
    summary: Option<string>,
    coverDate: Option<Date>,
    storeDate: Option<Date>,
    characters: seq<TitledResource>,
    credits: seq<Credit>,
    locations: seq<TitledResource>,
    storyArcs: seq<StoryArc>,
    teams: seq<TitledResource>,
    resources: seq<Resource>)

  /** The tool that last wrote the record. */
  datatype Tool = Tool(value: string, version: string)

  /** The provenance stamp: when and by which tool the record was written. */
  datatype Meta = Meta(date: Date, tool: Tool)

  datatype Metadata = Metadata(issue: Issue, meta: Meta, pages: seq<Page>)

  // ------------------------------------------------------------ MetronInfo

  /** Catalogue named by the MetronInfo `ID` element; only Comic Vine matters here. */
  datatype InformationSource = ComicVine | OtherInformationSource(name: string)

  /** MetronInfo's own id: which catalogue the record follows, and the issue's id there. */
  datatype InfoId = InfoId(source: InformationSource, value: int)

  /** An id/name pair (`Resource` in the MetronInfo schema). */
  datatype MetronResource = MetronResource(id: Option<int>, value: string)

  datatype MetronSeries = MetronSeries(id: Option<int>, name: string)

  datatype Arc = Arc(id: int, name: string)

  /** A MetronInfo credit role: one of the schema's role names, or `Other`. */
  datatype Role = Named(name: string) | OtherRole

  datatype MetronCredit = MetronCredit(creator: MetronResource, roles: seq<Role>)

  datatype MetronInfo = MetronInfo(
    id: Option<InfoId>,
    publisher: MetronResource,
    series: MetronSeries,
    arcs: seq<Arc>,
    characters: seq<MetronResource>,
    credits: seq<MetronCredit>,
    locations: seq<MetronResource>,
    number: Option<string>,
    storeDate: Option<Date>,
    summary: Option<string>,
    teams: seq<MetronResource>,
    collectionTitle: Option<string>,
    url: Option<string>,
    pages: seq<Page>)

  // ------------------------------------------------------------- ComicInfo

  datatype ComicInfo = ComicInfo(
    publisher: Option<string>,
    series: Option<string>,
    characterList: seq<string>,
    credits: map<string, seq<string>>,
    coverDate: Option<Date>,
    locationList: seq<string>,
    number: Option<string>,
    storyArcList: seq<string>,
    summary: Option<string>,
    teamList: seq<string>,
    title: Option<string>,
    web: Option<string>,
    pages: seq<Page>)

  // ---------------------------------------------------------- the triple

  /** The three records of one archive, as `read_archive` returns them. */
  datatype Records = Records(metadata: Metadata, metronInfo: MetronInfo, comicInfo: ComicInfo)

  /** The three records while one archive is processed: enrichment and page
      synchronisation update them in place. */
  class MetaInfo {
    var metadata: Metadata
    var metronInfo: MetronInfo
    var comicInfo: ComicInfo

    function Snapshot(): Records
      reads this
    {
      Records(metadata, metronInfo, comicInfo)
    }

    constructor (records: Records)
      ensures Snapshot() == records
    {
      metadata := records.metadata;
      metronInfo := records.metronInfo;
      comicInfo := records.comicInfo;
    }

    /** Leave the three records as a service's in-place update left them. */
    method Replace(records: Records)
      modifies this
      ensures Snapshot() == records
    {
      metadata, metronInfo, comicInfo := records.metadata, records.metronInfo, records.comicInfo;
    }
  }
}
