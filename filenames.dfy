/** `generate_filename` (perdoo/__main__.py): where an archive belongs in the
    collection, derived from its Metadata. `sanitize` lives in a module that
    is not part of this model; it is a parameter. */
module Filenames {
  import opened Wrappers
  import opened Schemas
  import opened Text
  import Archives

  /** The series folder name: "<title> v<volume>" for volumes after the first. */
  function SeriesFilename(series: Series): (r: string)
    ensures series.volume > 1 ==> r == series.title + " v" + NatToString(series.volume)
    ensures series.volume <= 1 ==> r == series.title
  {
    if series.volume > 1 then series.title + " v" + NatToString(series.volume) else series.title
  }

  /** Width the issue number is zero-padded to: 3 for a plain comic, 2 otherwise. */
  function NumberWidth(format: Format): nat {
    if format == Comic then 3 else 2
  }

  /** "_#<number padded>", or nothing when the issue has no number (None or ""). */
  function NumberPart(number: Option<string>, format: Format): (r: string)
    ensures !NonEmpty(number) ==> r == ""
    ensures NonEmpty(number) ==> r == "_#" + ZFill(number.value, NumberWidth(format))
  {
    if NonEmpty(number) then "_#" + ZFill(number.value, NumberWidth(format)) else ""
  }

  /** The format suffix: "_Annual", "_Chapter", "_GN", "_HC", "_TP", else nothing. */
  function FormatSuffix(format: Format): string {
    match format
    case Annual => "_Annual"
    case DigitalChapter => "_Chapter"
    case GraphicNovel => "_GN"
    case Hardcover => "_HC"
    case TradePaperback => "_TP"
    case _ => ""
  }

  predicate SuffixFirst(format: Format) { format == Annual || format == DigitalChapter }

  predicate NumberFirst(format: Format) {
    format == GraphicNovel || format == Hardcover || format == TradePaperback
  }

  /** The archive's file name without extension: the sanitised series name,
      then the suffix before the number for annuals and digital chapters, the
      number before the suffix for collected editions, and no suffix for any
      other format. */
  function IssueFilename(issue: Issue, sanitize: string -> string): (r: string)
    ensures SuffixFirst(issue.format) ==>
      r == sanitize(SeriesFilename(issue.series)) + FormatSuffix(issue.format) + NumberPart(issue.number, issue.format)
    ensures NumberFirst(issue.format) ==>
      r == sanitize(SeriesFilename(issue.series)) + NumberPart(issue.number, issue.format) + FormatSuffix(issue.format)
    ensures !SuffixFirst(issue.format) && !NumberFirst(issue.format) ==>
      r == sanitize(SeriesFilename(issue.series)) + NumberPart(issue.number, issue.format)
  {
    var series := sanitize(SeriesFilename(issue.series));
    var number := NumberPart(issue.number, issue.format);
    var suffix := FormatSuffix(issue.format);
    if SuffixFirst(issue.format) then series + suffix + number
    else if NumberFirst(issue.format) then series + number + suffix
    else series + number
  }

  /** `root / sanitize(publisher) / sanitize(series) / "<issue>.<extension>"`. */
  function GenerateFilename(root: Archives.Path, extension: string, metadata: Metadata, sanitize: string -> string)
    : (r: Archives.Path)
    ensures |r| == |root| + 3 && r[..|root|] == root
    ensures r[|root|] == sanitize(metadata.issue.series.publisher.title)
    ensures r[|root| + 1] == sanitize(SeriesFilename(metadata.issue.series))
    ensures r[|root| + 2] == IssueFilename(metadata.issue, sanitize) + "." + extension
  {
    root + [ sanitize(metadata.issue.series.publisher.title),
             sanitize(SeriesFilename(metadata.issue.series)),
             IssueFilename(metadata.issue, sanitize) + "." + extension ]
  }

  // ------------------------------------------------------------ properties

  /** The series folder carries the volume exactly when it is after the first,
      and the volume can be read back from it. */
  lemma VolumeSuffix(series: Series)
    ensures series.volume > 1 <==> SeriesFilename(series) != series.title
    ensures series.volume > 1 ==>
      var tail := SeriesFilename(series)[|series.title| + 2..];
      SeriesFilename(series)[..|series.title| + 2] == series.title + " v"
      && IsDigits(tail) && ParseDigits(tail) == series.volume
  {
    if series.volume > 1 {
      var name := SeriesFilename(series);
      assert |name| > |series.title|;
      var tail := NatToString(series.volume);
      assert name == (series.title + " v") + tail;
      assert name[|series.title| + 2..] == tail;
      ParseNatToString(series.volume);
    }
  }

  /** For an unsigned number, the padded digits after "_#" have the number's
      value and are exactly as wide as the format asks (or the number itself,
      if longer). */
  lemma NumberPartKeepsNumber(number: string, format: Format)
    requires number != [] && IsDigits(number)
    ensures var part := NumberPart(Some(number), format);
      && part[..2] == "_#"
      && |part| - 2 == (if |number| >= NumberWidth(format) then |number| else NumberWidth(format))
      && IsDigits(part[2..]) && ParseDigits(part[2..]) == ParseDigits(number)
  {
    var part := NumberPart(Some(number), format);
    assert part[2..] == ZFill(number, NumberWidth(format));
    ZFillKeepsValue(number, NumberWidth(format));
  }

  /** A graphic novel numbered "5" of series "S" (volume 1) is named "S_#05_GN". */
  lemma GraphicNovelExample(issue: Issue, sanitize: string -> string)
    requires issue.format == GraphicNovel && issue.number == Some("5")
    requires issue.series.volume == 1
    ensures IssueFilename(issue, sanitize) == sanitize(issue.series.title) + "_#05_GN"
  {
    assert !IsSigned("5");
    assert Zeros(1) == "0";
    assert ZFill("5", 2) == "05";
  }

  /** The series segment of a volume-2 series is "<title> v2", of a volume-1
      series just the title. */
  lemma VolumeExamples(series: Series)
    ensures series.volume == 1 ==> SeriesFilename(series) == series.title
    ensures series.volume == 2 ==> SeriesFilename(series) == series.title + " v2"
  {
  }

  /** The issue file name always starts with the sanitised series folder name,
      and the number part appears in it exactly when the issue has a number. */
  lemma IssueFilenameShape(issue: Issue, sanitize: string -> string)
    ensures var series := sanitize(SeriesFilename(issue.series));
      var r := IssueFilename(issue, sanitize);
      |series| <= |r| && r[..|series|] == series
      && (NonEmpty(issue.number) <==> |r| > |series| + |FormatSuffix(issue.format)|)
  {
  }
}
