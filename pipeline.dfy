/** The collection run of perdoo/__main__.py: `fetch_from_services`, the
    freshness gate and the per-archive loop of `start`. Filesystem effects
    (temporary folders, moves, XML writing) are reduced to what they decide:
    which records end up in which archive at which path. */
module Pipeline {
  import opened Wrappers
  import Schemas
  import Archives
  import Reconcile
  import Filenames
  import Pages
  import ComicvineService

  // ------------------------------------------------------------- settings

  datatype MarvelSettings = MarvelSettings(publicKey: Option<string>, privateKey: Option<string>)
  datatype MetronSettings = MetronSettings(username: Option<string>, password: Option<string>)
  datatype ComicvineSettings = ComicvineSettings(apiKey: Option<string>)
  datatype LeagueSettings = LeagueSettings(clientId: Option<string>, clientSecret: Option<string>)

  /** `settings.output`: the target format and which schema files are written. */
  datatype Output = Output(
    format: Archives.OutputFormat,
    createMetadata: bool,
    createMetronInfo: bool,
    createComicInfo: bool)

  datatype Settings = Settings(
    collectionFolder: Archives.Path,
    output: Output,
    marvel: Option<MarvelSettings>,
    metron: Option<MetronSettings>,
    comicvine: Option<ComicvineSettings>,
    league: Option<LeagueSettings>)

  // ------------------------------------------------------- service chain

  datatype Service = Marvel | Metron | Comicvine | League

  /** The order the services are asked in. */
  const AllServices: seq<Service> := [Marvel, Metron, Comicvine, League]

  function Rank(service: Service): nat {
    match service
    case Marvel => 0
    case Metron => 1
    case Comicvine => 2
    case League => 3
  }

  /** A service client is built only when its settings are present and every
      credential field is truthy. */
  predicate Configured(settings: Settings, service: Service) {
    match service
    case Marvel =>
      settings.marvel.Some? && NonEmpty(settings.marvel.value.publicKey) && NonEmpty(settings.marvel.value.privateKey)
    case Metron =>
      settings.metron.Some? && NonEmpty(settings.metron.value.username) && NonEmpty(settings.metron.value.password)
    case Comicvine =>
      settings.comicvine.Some? && NonEmpty(settings.comicvine.value.apiKey)
    case League =>
      settings.league.Some? && NonEmpty(settings.league.value.clientId) && NonEmpty(settings.league.value.clientSecret)
  }

  /** The services `fetch_from_services` instantiates, in the order it asks them. */
  function ConfiguredServices(settings: Settings): (r: seq<Service>)
    ensures forall x :: x in r <==> Configured(settings, x)
    ensures forall i, j :: 0 <= i < j < |r| ==> Rank(r[i]) < Rank(r[j])
  {
    (if Configured(settings, Marvel) then [Marvel] else [])
    + (if Configured(settings, Metron) then [Metron] else [])
    + (if Configured(settings, Comicvine) then [Comicvine] else [])
    + (if Configured(settings, League) then [League] else [])
  }

  /** A service's `fetch(metadata, metron_info, comic_info)`: whether it found
      the issue, and the three records as it left them. */
  type Attempt = (Service, Schemas.Records) -> (bool, Schemas.Records)

  /** What a run of the chain did: its verdict, the records it left, and the
      services it asked, in order. */
  datatype ChainResult = ChainResult(success: bool, records: Schemas.Records, tried: seq<Service>)

  /** `any(service.fetch(...) for service in services)`: ask each in turn,
      each seeing the records the previous one left, and stop at the first
      that succeeds. */
  function Chain(services: seq<Service>, records: Schemas.Records, attempt: Attempt): ChainResult {
    if services == [] then ChainResult(false, records, [])
    else
      var (ok, next) := attempt(services[0], records);
      if ok then ChainResult(true, next, [services[0]])
      else
        var rest := Chain(services[1..], next, attempt);
        ChainResult(rest.success, rest.records, [services[0]] + rest.tried)
  }

  /** `fetch_from_services` on the three records. */
  function FetchFromServicesSpec(settings: Settings, records: Schemas.Records, attempt: Attempt): ChainResult {
    Chain(ConfiguredServices(settings), records, attempt)
  }

  /** The chain asks a prefix of the services; it stops early only on a
      success, and a failed chain has asked them all. */
  lemma {:induction false} ChainAsksPrefix(services: seq<Service>, records: Schemas.Records, attempt: Attempt)
    ensures var c := Chain(services, records, attempt);
      && c.tried <= services
      && (!c.success ==> c.tried == services)
      && (c.success ==> |c.tried| >= 1)
  {
    if services != [] {
      var (ok, next) := attempt(services[0], records);
      if !ok {
        ChainAsksPrefix(services[1..], next, attempt);
        assert services == [services[0]] + services[1..];
      }
    }
  }

  /** The records after the first `k` services were asked in turn, each
      seeing what the previous one left, with no stopping. */
  function RecordsBefore(services: seq<Service>, records: Schemas.Records, attempt: Attempt, k: nat): Schemas.Records
    requires k <= |services|
  {
    if k == 0 then records
    else RecordsBefore(services[1..], attempt(services[0], records).1, attempt, k - 1)
  }

  /** `any()` stops at the first success: every service asked before the
      last one failed on the records its predecessors left; the chain
      succeeds exactly when the last service asked did, and then holds the
      records that service left; a failed chain asked every service and
      holds the records the last one left. */
  lemma {:induction false} ChainStopsAtFirstSuccess(services: seq<Service>, records: Schemas.Records, attempt: Attempt)
    ensures var c := Chain(services, records, attempt);
      var n := |c.tried|;
      && n <= |services|
      && (forall k :: 0 <= k < n - 1 ==> !attempt(services[k], RecordsBefore(services, records, attempt, k)).0)
      && (c.success <==> n > 0 && attempt(services[n - 1], RecordsBefore(services, records, attempt, n - 1)).0)
      && (c.success ==> c.records == attempt(services[n - 1], RecordsBefore(services, records, attempt, n - 1)).1)
      && (!c.success ==> n == |services| && c.records == RecordsBefore(services, records, attempt, n))
  {
    ChainAsksPrefix(services, records, attempt);
    if services != [] {
      var (ok, next) := attempt(services[0], records);
      if !ok {
        var tail := services[1..];
        var rest := Chain(tail, next, attempt);
        ChainStopsAtFirstSuccess(tail, next, attempt);
        ChainAsksPrefix(tail, next, attempt);
        var c := Chain(services, records, attempt);
        assert c == ChainResult(rest.success, rest.records, [services[0]] + rest.tried);
        var n := |c.tried|;
        assert n == |rest.tried| + 1;
        forall k | 1 <= k <= |services|
          ensures RecordsBefore(services, records, attempt, k) == RecordsBefore(tail, next, attempt, k - 1)
          ensures k < |services| ==> services[k] == tail[k - 1]
        {
        }
      }
    }
  }

  /** With no service configured nothing is asked and the records stay as
      they were (the "No external services configured" warning). */
  lemma NothingConfigured(settings: Settings, records: Schemas.Records, attempt: Attempt)
    requires forall x :: !Configured(settings, x)
    ensures FetchFromServicesSpec(settings, records, attempt) == ChainResult(false, records, [])
  {
  }

  /** An unconfigured service is never asked, and the services asked come in
      the fixed order Marvel, Metron, Comic Vine, League of Comic Geeks. */
  lemma OnlyConfiguredAsked(settings: Settings, records: Schemas.Records, attempt: Attempt)
    ensures var tried := FetchFromServicesSpec(settings, records, attempt).tried;
      && (forall x :: x in tried ==> Configured(settings, x))
      && (forall i, j :: 0 <= i < j < |tried| ==> Rank(tried[i]) < Rank(tried[j]))
  {
    var services := ConfiguredServices(settings);
    ChainAsksPrefix(services, records, attempt);
    var tried := FetchFromServicesSpec(settings, records, attempt).tried;
    forall x | x in tried
      ensures Configured(settings, x)
    {
      var k :| 0 <= k < |tried| && tried[k] == x;
      assert services[k] == x;
    }
  }

  /** With Comic Vine the only service configured, the chain is Comic Vine's
      own `fetch`. */
  lemma OnlyComicvineConfigured(settings: Settings, records: Schemas.Records, attempt: Attempt,
                                session: ComicvineService.Session, answers: ComicvineService.Answers,
                                loadRole: string -> Option<Schemas.Role>)
    requires forall x :: Configured(settings, x) <==> x == Comicvine
    requires attempt(Comicvine, records) == ComicvineService.FetchSpec(session, records, answers, loadRole)
    ensures FetchFromServicesSpec(settings, records, attempt) == ChainResult(
      ComicvineService.FetchSpec(session, records, answers, loadRole).0,
      ComicvineService.FetchSpec(session, records, answers, loadRole).1,
      [Comicvine])
  {
    var r := ConfiguredServices(settings);
    assert r == [Comicvine];
    assert r[1..] == [];
    var next := attempt(Comicvine, records).1;
    assert Chain(r[1..], next, attempt) == ChainResult(false, next, []);
  }

  /** The chain's result behind the services already asked. */
  function After(tried: seq<Service>, c: ChainResult): ChainResult {
    ChainResult(c.success, c.records, tried + c.tried)
  }

  lemma AfterAfter(tried: seq<Service>, service: Service, c: ChainResult)
    ensures After(tried, After([service], c)) == After(tried + [service], c)
  {
    assert tried + ([service] + c.tried) == (tried + [service]) + c.tried;
  }

  /** One step of the chain from position `i` on. */
  lemma ChainStep(services: seq<Service>, i: nat, records: Schemas.Records, attempt: Attempt)
    requires i < |services|
    ensures Chain(services[i..], records, attempt) ==
      var answer := attempt(services[i], records);
      if answer.0 then ChainResult(true, answer.1, [services[i]])
      else After([services[i]], Chain(services[i + 1..], answer.1, attempt))
  {
    assert services[i..][0] == services[i];
    assert services[i..][1..] == services[i + 1..];
  }

  /** The `any(...)` over the instantiated services: each `fetch` updates
      the three records in place; stops at the first success. */
  method AskInTurn(services: seq<Service>, info: Schemas.MetaInfo, attempt: Attempt)
    returns (success: bool, tried: seq<Service>)
    modifies info
    ensures ChainResult(success, info.Snapshot(), tried) == Chain(services, old(info.Snapshot()), attempt)
  {
    ghost var spec := Chain(services, info.Snapshot(), attempt);
    ghost var current := info.Snapshot();
    assert services[0..] == services;
    success, tried := false, [];
    var i := 0;
    while i < |services| && !success
      invariant 0 <= i <= |services|
      invariant info.Snapshot() == current
      invariant success ==> spec == ChainResult(true, current, tried)
      invariant !success ==> spec == After(tried, Chain(services[i..], current, attempt))
    {
      var answer := attempt(services[i], info.Snapshot());
      ChainStep(services, i, current, attempt);
      AfterAfter(tried, services[i], Chain(services[i + 1..], answer.1, attempt));
      info.Replace(answer.1);
      current := answer.1;
      tried := tried + [services[i]];
      success := answer.0;
      i := i + 1;
    }
    assert !success ==> services[i..] == [];
  }

  /** `fetch_from_services`: build the configured clients, then ask them in
      turn; returns the verdict and the services asked. */
  method FetchFromServices(settings: Settings, info: Schemas.MetaInfo, attempt: Attempt)
    returns (success: bool, tried: seq<Service>)
    modifies info
    ensures ChainResult(success, info.Snapshot(), tried) == FetchFromServicesSpec(settings, old(info.Snapshot()), attempt)
  {
    var services := ConfiguredServices(settings);
    if services == [] {
      return false, [];
    }
    success, tried := AskInTurn(services, info, attempt);
  }

  // ------------------------------------------------------- freshness gate

  function Abs(x: int): nat { if x < 0 then -x else x }

  /** The gate at the head of each iteration of `start`: skip the archive
      unless forced, when its stamp names this tool (`Tool()`) and is less
      than 28 days away from today in either direction. */
  predicate SkipsArchive(force: bool, meta: Schemas.Meta, today: Schemas.Date, thisTool: Schemas.Tool) {
    !force && meta.tool == thisTool && Abs(today - meta.date) < 28
  }

  /** The stamp `start` writes, `Meta(date_=date.today())`: today, this tool. */
  function Stamp(today: Schemas.Date, thisTool: Schemas.Tool): (m: Schemas.Meta)
    ensures m.date == today && m.tool == thisTool
  {
    Schemas.Meta(today, thisTool)
  }

  /** An archive stamped on day `stamped` is skipped by an unforced run on day
      `today` exactly when the two days are less than four weeks apart; a
      forced run never skips it. */
  lemma StampedSkippedForFourWeeks(stamped: Schemas.Date, today: Schemas.Date, thisTool: Schemas.Tool)
    ensures SkipsArchive(false, Stamp(stamped, thisTool), today, thisTool) <==> -28 < today - stamped < 28
    ensures !SkipsArchive(true, Stamp(stamped, thisTool), today, thisTool)
  {
  }

  /** A stamp from another tool, or from another version of this one, never
      suppresses processing, however recent. */
  lemma OtherToolNeverSkipped(force: bool, meta: Schemas.Meta, today: Schemas.Date, thisTool: Schemas.Tool)
    requires meta.tool != thisTool
    ensures !SkipsArchive(force, meta, today, thisTool)
  {
  }

  // ------------------------------------------------------------ the run

  /** One archive of the listing: what `read_archive` sees of it, the images
      it extracts to, and whether extraction and re-archiving succeed. */
  datatype Listed = Listed(
    view: Reconcile.ArchiveView,
    images: seq<Pages.ImageFile>,
    extracts: bool,
    rearchives: bool)

  /** Everything else a run depends on. */
  datatype Env = Env(
    settings: Settings,
    force: bool,
    today: Schemas.Date,
    thisTool: Schemas.Tool,
    codecs: Reconcile.Codecs,
    attempt: Attempt,
    sanitize: string -> string)

  /** What happened to one archive. A rewritten archive was rebuilt from the
      renamed `images` and `records` as processed; of the three schema files
      only those in `written` are stored anew, and any other one goes back as
      it was extracted. It ends at `target`, having been moved there when
      that differs from where it was. */
  datatype Outcome =
    | Skipped
    | ExtractionFailed
    | RearchiveFailed
    | Rewritten(records: Schemas.Records, images: seq<Pages.ImageFile>, written: seq<string>,
                target: Archives.Path, moved: bool)

  /** `settings.output.format.value`. */
  function FormatValue(format: Archives.OutputFormat): string {
    match format
    case Cb7 => "cb7"
    case Cbt => "cbt"
    case Cbz => "cbz"
  }

  /** The schema files written into the new archive, as the output flags ask. */
  function Written(output: Output): (r: seq<string>)
    ensures Reconcile.MetadataEntry in r <==> output.createMetadata
    ensures Reconcile.MetronInfoEntry in r <==> output.createMetronInfo
    ensures Reconcile.ComicInfoEntry in r <==> output.createComicInfo
  {
    (if output.createMetadata then [Reconcile.MetadataEntry] else [])
    + (if output.createMetronInfo then [Reconcile.MetronInfoEntry] else [])
    + (if output.createComicInfo then [Reconcile.ComicInfoEntry] else [])
  }

  /** The records after `process_pages` for `n` images and the new stamp. */
  function PagedAndStamped(records: Schemas.Records, n: nat, today: Schemas.Date, thisTool: Schemas.Tool)
    : Schemas.Records
  {
    Schemas.Records(
      records.metadata.(pages := Pages.PagesFor(records.metadata.pages, n), meta := Stamp(today, thisTool)),
      records.metronInfo.(pages := Pages.PagesFor(records.metronInfo.pages, n)),
      records.comicInfo.(pages := Pages.PagesFor(records.comicInfo.pages, n)))
  }

  /** One iteration of the loop in `start`. */
  function ProcessArchive(entry: Listed, env: Env): Outcome {
    var records := Reconcile.ReadArchive(entry.view, env.codecs);
    if SkipsArchive(env.force, records.metadata.meta, env.today, env.thisTool) then Skipped
    else
      var fetched := FetchFromServicesSpec(env.settings, records, env.attempt).records;
      var target := Filenames.GenerateFilename(
        env.settings.collectionFolder, FormatValue(env.settings.output.format), fetched.metadata, env.sanitize);
      if !entry.extracts then ExtractionFailed
      else
        var stem := Filenames.IssueFilename(fetched.metadata.issue, env.sanitize);
        var images := Pages.RenamedAll(entry.images, stem);
        var after := PagedAndStamped(fetched, |entry.images|, env.today, env.thisTool);
        if !entry.rearchives then RearchiveFailed
        else Rewritten(after, images, Written(env.settings.output), target, entry.view.path != target)
  }

  /** Where the first extraction failure is among the outcomes (their
      length when there is none). */
  function FirstExtractionFailure(outcomes: seq<Outcome>): (k: nat)
    ensures k <= |outcomes|
    ensures forall j :: 0 <= j < k ==> !outcomes[j].ExtractionFailed?
    ensures k < |outcomes| ==> outcomes[k].ExtractionFailed?
  {
    if outcomes == [] then 0
    else if outcomes[0].ExtractionFailed? then 0
    else
      var k := FirstExtractionFailure(outcomes[1..]);
      assert forall j :: 1 <= j < |outcomes| ==> outcomes[j] == outcomes[1..][j - 1];
      k + 1
  }

  /** What every archive of the listing would come to on its own. */
  function Outcomes(entries: seq<Listed>, env: Env): (r: seq<Outcome>)
    ensures |r| == |entries|
  {
    seq(|entries|, k requires 0 <= k < |entries| => ProcessArchive(entries[k], env))
  }

  /** The loop of `start`: archives in listing order; an extraction failure
      returns from the whole run, anything else goes on with the next one. */
  function StartSpec(entries: seq<Listed>, env: Env): (r: seq<Outcome>)
    ensures |r| <= |entries|
    ensures forall k :: 0 <= k < |r| ==> r[k] == ProcessArchive(entries[k], env)
    ensures forall k :: 0 <= k < |r| - 1 ==> !r[k].ExtractionFailed?
    ensures |r| < |entries| ==> |r| > 0 && r[|r| - 1].ExtractionFailed?
  {
    var all := Outcomes(entries, env);
    var k := FirstExtractionFailure(all);
    if k < |all| then all[..k + 1] else all
  }

  /** A re-archive failure does not stop the run: the archives after it are
      still processed. */
  lemma RearchiveFailureContinues(entries: seq<Listed>, env: Env, k: nat)
    requires k + 1 < |entries|
    requires k < |StartSpec(entries, env)| && StartSpec(entries, env)[k].RearchiveFailed?
    ensures k + 1 < |StartSpec(entries, env)|
    ensures StartSpec(entries, env)[k + 1] == ProcessArchive(entries[k + 1], env)
  {
  }

  /** With the force flag no archive is skipped. */
  lemma ForceSkipsNothing(entries: seq<Listed>, env: Env)
    requires env.force
    ensures forall k :: 0 <= k < |StartSpec(entries, env)| ==> !StartSpec(entries, env)[k].Skipped?
  {
  }

  /** A rewritten archive was built from the records the services left:
      each of the three is that record with its page list rebuilt for the
      image count (one entry per image, only the last one final, old
      attributes carried by index), and Metadata also carries today's stamp
      of this tool; the images are renamed after the issue file name; only
      the schema files whose create flag is set are stored anew; it ends at
      the path `generate_filename` gives. */
  lemma RewrittenArchive(entry: Listed, env: Env)
    requires ProcessArchive(entry, env).Rewritten?
    ensures var o := ProcessArchive(entry, env);
      var fetched := FetchFromServicesSpec(env.settings, Reconcile.ReadArchive(entry.view, env.codecs), env.attempt).records;
      && o.records.metadata.issue == fetched.metadata.issue
      && o.records.metadata.meta == Schemas.Meta(env.today, env.thisTool)
      && |o.records.metadata.pages| == |o.records.metronInfo.pages| == |o.records.comicInfo.pages| == |entry.images|
      && (forall i :: 0 <= i < |entry.images| ==>
            o.records.metadata.pages[i].index == i && (o.records.metadata.pages[i].isFinal <==> i == |entry.images| - 1))
      && o.records.metadata == fetched.metadata.(
           pages := Pages.PagesFor(fetched.metadata.pages, |entry.images|), meta := Schemas.Meta(env.today, env.thisTool))
      && o.records.metronInfo == fetched.metronInfo.(pages := Pages.PagesFor(fetched.metronInfo.pages, |entry.images|))
      && o.records.comicInfo == fetched.comicInfo.(pages := Pages.PagesFor(fetched.comicInfo.pages, |entry.images|))
      && |o.images| == |entry.images|
      && o.images == Pages.RenamedAll(entry.images, Filenames.IssueFilename(fetched.metadata.issue, env.sanitize))
      && o.written == Written(env.settings.output)
      && o.target == Filenames.GenerateFilename(env.settings.collectionFolder,
           FormatValue(env.settings.output.format), fetched.metadata, env.sanitize)
      && (o.moved <==> entry.view.path != o.target)
  {
  }

  /** Running again within four weeks skips every archive this run rewrote
      (when its Metadata is written and read back unchanged), unless forced. */
  lemma RerunSkipsRewritten(entry: Listed, env: Env, later: Schemas.Date, reread: Schemas.Records)
    requires ProcessArchive(entry, env).Rewritten?
    requires reread.metadata == ProcessArchive(entry, env).records.metadata
    requires -28 < later - env.today < 28
    ensures SkipsArchive(false, reread.metadata.meta, later, env.thisTool)
    ensures !SkipsArchive(true, reread.metadata.meta, later, env.thisTool)
  {
    StampedSkippedForFourWeeks(env.today, later, env.thisTool);
  }

  /** One step of the loop of `start` on the outcomes alone: the outcome at
      `i` extends the prefix, and it ends the run exactly when it is the first
      extraction failure. */
  lemma RunStep(all: seq<Outcome>, outcomes: seq<Outcome>, i: nat)
    requires i < |all| && outcomes == all[..i] && i <= FirstExtractionFailure(all)
    ensures outcomes + [all[i]] == all[..i + 1]
    ensures all[i].ExtractionFailed? ==> FirstExtractionFailure(all) == i
    ensures !all[i].ExtractionFailed? ==> i + 1 <= FirstExtractionFailure(all)
  {
  }

  /** The loop of `start` over the listing: each archive is read, gated,
      enriched, renamed and repaged in a scratch folder, stamped and
      re-archived. Returns what happened to each archive it reached. */
  method Start(entries: seq<Listed>, env: Env) returns (outcomes: seq<Outcome>)
    ensures outcomes == StartSpec(entries, env)
  {
    ghost var all := Outcomes(entries, env);
    outcomes := [];
    var i := 0;
    while i < |entries|
      invariant 0 <= i <= |entries|
      invariant outcomes == all[..i]
      invariant i <= FirstExtractionFailure(all)
    {
      var outcome := ProcessOne(entries[i], env);
      assert outcome == all[i];
      RunStep(all, outcomes, i);
      outcomes := outcomes + [outcome];
      if outcome.ExtractionFailed? {
        return;
      }
      i := i + 1;
    }
    assert all[..i] == all;
  }

  /** The body of the loop in `start`, on the records held in a `MetaInfo` and
      the images in a scratch `Folder`. */
  method ProcessOne(entry: Listed, env: Env) returns (outcome: Outcome)
    ensures outcome == ProcessArchive(entry, env)
  {
    var records := Reconcile.ReadArchive(entry.view, env.codecs);
    if SkipsArchive(env.force, records.metadata.meta, env.today, env.thisTool) {
      return Skipped;
    }
    var info := new Schemas.MetaInfo(records);
    var _, _ := FetchFromServices(env.settings, info, env.attempt);
    var target := Filenames.GenerateFilename(
      env.settings.collectionFolder, FormatValue(env.settings.output.format), info.metadata, env.sanitize);
    if !entry.extracts {
      return ExtractionFailed;
    }
    var stem := Filenames.IssueFilename(info.metadata.issue, env.sanitize);
    var folder := new Pages.Folder(entry.images);
    Pages.ProcessPages(info, folder, stem);
    info.metadata := info.metadata.(meta := Stamp(env.today, env.thisTool));
    if !entry.rearchives {
      return RearchiveFailed;
    }
    outcome := Rewritten(info.Snapshot(), folder.images, Written(env.settings.output), target, entry.view.path != target);
  }
}
