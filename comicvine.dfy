/** The Comic Vine service (perdoo/services/comicvine.py): merging what Comic
    Vine returns into the three records, finding the publisher, series and
    issue ids (stored ids first, then an interactive search), and the
    three-stage `fetch`. The Comic Vine API and the console are oracles: the
    API is a `Session` of functions, the console answers are sequences of
    rounds given up front. */
module ComicvineService {
  import opened Wrappers
  import opened Schemas
  import opened Text
  import Sorting

  // --------------------------------------------------- Comic Vine records

  datatype CvPublisher = CvPublisher(id: int, name: string)

  /** A Comic Vine volume (a series), with the id of its publisher. */
  datatype CvVolume = CvVolume(id: int, name: string, startYear: Option<int>, publisherId: int)

  /** A character, location, story arc or team listed on an issue. */
  datatype CvEntry = CvEntry(id: int, name: string)

  /** A creator listed on an issue; `roles` is one string such as "writer, artist". */
  datatype CvCreator = CvCreator(id: int, name: string, roles: string)

  datatype CvIssue = CvIssue(
    id: int,
    number: Option<string>,
    name: Option<string>,
    summary: Option<string>,
    coverDate: Option<Date>,
    storeDate: Option<Date>,
    characters: seq<CvEntry>,
    creators: seq<CvCreator>,
    locations: seq<CvEntry>,
    storyArcs: seq<CvEntry>,
    teams: seq<CvEntry>,
    siteUrl: string)

  /** An issue as the issue listing returns it. */
  datatype CvIssueEntry = CvIssueEntry(id: int, number: Option<string>, name: Option<string>)

  /** A Comic Vine call: its result, or `ServiceError`. */
  datatype ApiResult<+T> = Fetched(value: T) | ServiceError

  /** The API session. Listings are keyed by the searched title; the issue
      listing by the series id and, when given, the issue number. */
  datatype Session = Session(
    listPublishers: string -> ApiResult<seq<CvPublisher>>,
    getPublisher: int -> ApiResult<CvPublisher>,
    listVolumes: string -> ApiResult<seq<CvVolume>>,
    getVolume: int -> ApiResult<CvVolume>,
    listIssues: (int, Option<string>) -> ApiResult<seq<CvIssueEntry>>,
    getIssue: int -> ApiResult<CvIssue>)

  /** One pass of a publisher or series search at the console: the title typed
      when asked for one, the menu index picked (0 is "None of the Above"),
      and the answer to "Try Again". */
  datatype Round = Round(typed: string, choice: nat, again: bool)

  /** Every console answer one `fetch` may consume, stage by stage; the issue
      search only shows menus. */
  datatype Answers = Answers(publisher: seq<Round>, series: seq<Round>, issue: seq<nat>)

  // ------------------------------------------------------------ resources

  predicate NoDuplicates<T(==)>(xs: seq<T>) {
    forall i, j :: 0 <= i < j < |xs| ==> xs[i] != xs[j]
  }

  /** `list(set(xs))`, keeping each resource where it first occurs. */
  function Dedup(rs: seq<Resource>): (r: seq<Resource>)
    ensures forall x :: x in r <==> x in rs
    ensures NoDuplicates(r)
  {
    if rs == [] then []
    else
      var rest := Dedup(rs[..|rs| - 1]);
      var last := rs[|rs| - 1];
      assert rs == rs[..|rs| - 1] + [last];
      if last in rest then rest else rest + [last]
  }

  /** The resource-list update of every `add_*_to_metadata`: the old set plus
      the Comic Vine resource. Python's set does not fix an order; this model
      keeps first occurrences in place. */
  function WithResource(rs: seq<Resource>, x: Resource): (r: seq<Resource>)
    ensures forall y :: y in r <==> y in rs || y == x
    ensures NoDuplicates(r)
  {
    Dedup(rs + [x])
  }

  /** A list that already had no duplicates is kept as it was, with the new
      resource appended when it was not there. */
  lemma {:induction false} DedupDistinct(rs: seq<Resource>)
    requires NoDuplicates(rs)
    ensures Dedup(rs) == rs
  {
    if rs != [] {
      DedupDistinct(rs[..|rs| - 1]);
    }
  }

  lemma WithResourceOnDistinct(rs: seq<Resource>, x: Resource)
    requires NoDuplicates(rs)
    ensures WithResource(rs, x) == if x in rs then rs else rs + [x]
  {
    DedupDistinct(rs);
    assert (rs + [x])[..|rs|] == rs;
  }

  /** Merging the same resource again changes nothing. */
  lemma WithResourceIdempotent(rs: seq<Resource>, x: Resource)
    ensures WithResource(WithResource(rs, x), x) == WithResource(rs, x)
  {
    WithResourceOnDistinct(WithResource(rs, x), x);
  }

  // -------------------------------------------------------- entry mapping

  /** `[TitledResource(title=x.name, resources=[Resource(COMICVINE, x.id)]) ...]`. */
  function Catalogued(xs: seq<CvEntry>): (r: seq<TitledResource>)
    ensures |r| == |xs|
    ensures forall k :: 0 <= k < |xs| ==>
      r[k].title == xs[k].name && r[k].resources == [Resource(Comicvine, xs[k].id)]
  {
    seq(|xs|, k requires 0 <= k < |xs| => TitledResource(xs[k].name, [Resource(Comicvine, xs[k].id)]))
  }

  function CataloguedArcs(xs: seq<CvEntry>): (r: seq<StoryArc>)
    ensures |r| == |xs|
    ensures forall k :: 0 <= k < |xs| ==>
      r[k].title == xs[k].name && r[k].resources == [Resource(Comicvine, xs[k].id)]
  {
    seq(|xs|, k requires 0 <= k < |xs| => StoryArc(xs[k].name, [Resource(Comicvine, xs[k].id)]))
  }

  /** `[Resource(id=x.id, value=x.name) ...]` in MetronInfo's terms. */
  function MetronResources(xs: seq<CvEntry>): (r: seq<MetronResource>)
    ensures |r| == |xs|
    ensures forall k :: 0 <= k < |xs| ==> r[k] == MetronResource(Some(xs[k].id), xs[k].name)
  {
    seq(|xs|, k requires 0 <= k < |xs| => MetronResource(Some(xs[k].id), xs[k].name))
  }

  function MetronArcs(xs: seq<CvEntry>): (r: seq<Arc>)
    ensures |r| == |xs|
    ensures forall k :: 0 <= k < |xs| ==> r[k] == Arc(xs[k].id, xs[k].name)
  {
    seq(|xs|, k requires 0 <= k < |xs| => Arc(xs[k].id, xs[k].name))
  }

  function Names(xs: seq<CvEntry>): (r: seq<string>)
    ensures |r| == |xs|
    ensures forall k :: 0 <= k < |xs| ==> r[k] == xs[k].name
  {
    seq(|xs|, k requires 0 <= k < |xs| => xs[k].name)
  }

  // ---------------------------------------------------------------- roles

  /** Metadata's roles of one creator: one untitled-resource entry per piece
      of the split role string, stripped. */
  function RoleTitles(roles: string): (r: seq<TitledResource>)
    ensures |r| == |SplitRoles(roles)|
    ensures forall k :: 0 <= k < |r| ==> r[k] == TitledResource(StrippedRoles(roles)[k], [])
  {
    var pieces := StrippedRoles(roles);
    seq(|pieces|, k requires 0 <= k < |pieces| => TitledResource(pieces[k], []))
  }

  /** `Role.load(value=piece)`, with `Role.OTHER` for a piece it rejects. */
  function RoleOf(piece: string, loadRole: string -> Option<Role>): (r: Role)
    ensures loadRole(piece).None? ==> r == OtherRole
    ensures loadRole(piece).Some? ==> r == loadRole(piece).value
  {
    match loadRole(piece)
    case Some(role) => role
    case None => OtherRole
  }

  /** Each piece stripped and classified. */
  function Classified(pieces: seq<string>, loadRole: string -> Option<Role>): (r: seq<Role>)
    ensures |r| == |pieces|
    ensures forall k :: 0 <= k < |r| ==> r[k] == RoleOf(Strip(pieces[k]), loadRole)
  {
    seq(|pieces|, k requires 0 <= k < |pieces| => RoleOf(Strip(pieces[k]), loadRole))
  }

  /** MetronInfo's roles of one creator: one per piece of the split string. */
  function MetronRoles(roles: string, loadRole: string -> Option<Role>): seq<Role>
  {
    Classified(SplitRoles(roles), loadRole)
  }

  function Credits(creators: seq<CvCreator>): (r: seq<Credit>)
    ensures |r| == |creators|
    ensures forall k :: 0 <= k < |r| ==>
      r[k] == Credit(TitledResource(creators[k].name, [Resource(Comicvine, creators[k].id)]), RoleTitles(creators[k].roles))
  {
    seq(|creators|, k requires 0 <= k < |creators| =>
      Credit(TitledResource(creators[k].name, [Resource(Comicvine, creators[k].id)]), RoleTitles(creators[k].roles)))
  }

  function MetronCredits(creators: seq<CvCreator>, loadRole: string -> Option<Role>): (r: seq<MetronCredit>)
    ensures |r| == |creators|
    ensures forall k :: 0 <= k < |r| ==>
      r[k] == MetronCredit(MetronResource(Some(creators[k].id), creators[k].name), MetronRoles(creators[k].roles, loadRole))
  {
    seq(|creators|, k requires 0 <= k < |creators| =>
      MetronCredit(MetronResource(Some(creators[k].id), creators[k].name), MetronRoles(creators[k].roles, loadRole)))
  }

  /** ComicInfo's `{x.name: pieces for x in creators}`, built left to right. */
  function CreditsMap(creators: seq<CvCreator>): map<string, seq<string>>
  {
    if creators == [] then map[]
    else
      var last := creators[|creators| - 1];
      CreditsMap(creators[..|creators| - 1])[last.name := StrippedRoles(last.roles)]
  }

  /** The creators' names, in order. */
  function CreatorNames(creators: seq<CvCreator>): (r: seq<string>)
    ensures |r| == |creators|
    ensures forall k :: 0 <= k < |r| ==> r[k] == creators[k].name
  {
    seq(|creators|, k requires 0 <= k < |creators| => creators[k].name)
  }

  lemma CreatorNamesSnoc(creators: seq<CvCreator>)
    requires creators != []
    ensures CreatorNames(creators) == CreatorNames(creators[..|creators| - 1]) + [creators[|creators| - 1].name]
  {
  }

  /** The keys are exactly the creators' names. */
  lemma {:induction false} CreditsMapKeys(creators: seq<CvCreator>, name: string)
    ensures name in CreditsMap(creators) <==> name in CreatorNames(creators)
  {
    if creators != [] {
      var front := creators[..|creators| - 1];
      var last := creators[|creators| - 1];
      CreditsMapKeys(front, name);
      CreatorNamesSnoc(creators);
      assert CreditsMap(creators) == CreditsMap(front)[last.name := StrippedRoles(last.roles)];
      assert name in CreditsMap(creators) <==> name in CreditsMap(front) || name == last.name;
    }
  }

  /** A name listed for several creators keeps the roles of the last one. */
  lemma {:induction false} CreditsMapLastWins(creators: seq<CvCreator>, k: nat)
    requires k < |creators|
    requires forall j :: k < j < |creators| ==> creators[j].name != creators[k].name
    ensures creators[k].name in CreditsMap(creators)
    ensures CreditsMap(creators)[creators[k].name] == StrippedRoles(creators[k].roles)
  {
    if k < |creators| - 1 {
      var front := creators[..|creators| - 1];
      assert front[k] == creators[k];
      CreditsMapLastWins(front, k);
    }
  }

  // ------------------------------------------------------------- merges

  /** Whether MetronInfo's ids may be overwritten: it has no `id` yet, or its
      `id` is a Comic Vine one. */
  predicate MayOverwriteIds(mi: MetronInfo) {
    mi.id.None? || mi.id.value.source == ComicVine
  }

  /** `add_publisher_to_metadata`. */
  function PublisherIntoMetadata(p: CvPublisher, md: Metadata): (r: Metadata)
    ensures r.issue.series.publisher.title == p.name
    ensures forall x :: x in r.issue.series.publisher.resources <==>
      x in md.issue.series.publisher.resources || x == Resource(Comicvine, p.id)
    ensures NoDuplicates(r.issue.series.publisher.resources)
    ensures r.issue.series.(publisher := md.issue.series.publisher) == md.issue.series
    ensures r.issue.(series := md.issue.series) == md.issue
    ensures r.(issue := md.issue) == md
  {
    var publisher := Publisher(p.name, WithResource(md.issue.series.publisher.resources, Resource(Comicvine, p.id)));
    md.(issue := md.issue.(series := md.issue.series.(publisher := publisher)))
  }

  /** `add_publisher_to_metron_info`. */
  function PublisherIntoMetron(p: CvPublisher, mi: MetronInfo): (r: MetronInfo)
    ensures r.publisher.value == p.name
    ensures r.publisher.id == if MayOverwriteIds(mi) then Some(p.id) else mi.publisher.id
    ensures r.(publisher := mi.publisher) == mi
  {
    var id := if MayOverwriteIds(mi) then Some(p.id) else mi.publisher.id;
    mi.(publisher := MetronResource(id, p.name))
  }

  /** `add_publisher_to_comic_info`. */
  function PublisherIntoComic(p: CvPublisher, ci: ComicInfo): (r: ComicInfo)
    ensures r.publisher == Some(p.name)
    ensures r.(publisher := ci.publisher) == ci
  {
    ci.(publisher := Some(p.name))
  }

  /** `add_series_to_metadata`. */
  function SeriesIntoMetadata(v: CvVolume, md: Metadata): (r: Metadata)
    ensures r.issue.series.title == v.name && r.issue.series.startYear == v.startYear
    ensures forall x :: x in r.issue.series.resources <==>
      x in md.issue.series.resources || x == Resource(Comicvine, v.id)
    ensures NoDuplicates(r.issue.series.resources)
    ensures r.issue.series.publisher == md.issue.series.publisher
    ensures r.issue.series.volume == md.issue.series.volume
    ensures r.issue.(series := md.issue.series) == md.issue
    ensures r.(issue := md.issue) == md
  {
    var series := md.issue.series.(
      resources := WithResource(md.issue.series.resources, Resource(Comicvine, v.id)),
      startYear := v.startYear,
      title := v.name);
    md.(issue := md.issue.(series := series))
  }

  /** `add_series_to_metron_info`. */
  function SeriesIntoMetron(v: CvVolume, mi: MetronInfo): (r: MetronInfo)
    ensures r.series.name == v.name
    ensures r.series.id == if MayOverwriteIds(mi) then Some(v.id) else mi.series.id
    ensures r.(series := mi.series) == mi
  {
    var id := if MayOverwriteIds(mi) then Some(v.id) else mi.series.id;
    mi.(series := MetronSeries(id, v.name))
  }

  /** `add_series_to_comic_info`. */
  function SeriesIntoComic(v: CvVolume, ci: ComicInfo): (r: ComicInfo)
    ensures r.series == Some(v.name)
    ensures r.(series := ci.series) == ci
  {
    ci.(series := Some(v.name))
  }

  /** `add_issue_to_metadata`: the issue's resources gain the Comic Vine id,
      and its lists, dates, number, summary and title are replaced by what
      Comic Vine lists; the series and format are left alone. */
  function IssueIntoMetadata(issue: CvIssue, md: Metadata): (r: Metadata)
    ensures forall x :: x in r.issue.resources <==> x in md.issue.resources || x == Resource(Comicvine, issue.id)
    ensures NoDuplicates(r.issue.resources)
    ensures r.issue.characters == Catalogued(issue.characters)
    ensures r.issue.locations == Catalogued(issue.locations)
    ensures r.issue.teams == Catalogued(issue.teams)
    ensures r.issue.storyArcs == CataloguedArcs(issue.storyArcs)
    ensures r.issue.credits == Credits(issue.creators)
    ensures r.issue.number == issue.number && r.issue.title == issue.name && r.issue.summary == issue.summary
    ensures r.issue.coverDate == issue.coverDate && r.issue.storeDate == issue.storeDate
    ensures r.issue.series == md.issue.series && r.issue.format == md.issue.format
    ensures r.(issue := md.issue) == md
  {
    md.(issue := md.issue.(
      resources := WithResource(md.issue.resources, Resource(Comicvine, issue.id)),
      characters := Catalogued(issue.characters),
      coverDate := issue.coverDate,
      credits := Credits(issue.creators),
      locations := Catalogued(issue.locations),
      number := issue.number,
      storeDate := issue.storeDate,
      storyArcs := CataloguedArcs(issue.storyArcs),
      summary := issue.summary,
      teams := Catalogued(issue.teams),
      title := issue.name))
  }

  /** `add_issue_to_metron_info`, cover date aside: lists and fields replaced
      from Comic Vine, the record's own `id` set only when it may be. */
  function IssueIntoMetron(issue: CvIssue, mi: MetronInfo, loadRole: string -> Option<Role>): (r: MetronInfo)
    ensures r.arcs == MetronArcs(issue.storyArcs)
    ensures r.characters == MetronResources(issue.characters)
    ensures r.credits == MetronCredits(issue.creators, loadRole)
    ensures r.id == if MayOverwriteIds(mi) then Some(InfoId(ComicVine, issue.id)) else mi.id
    ensures r.locations == MetronResources(issue.locations)
    ensures r.teams == MetronResources(issue.teams)
    ensures r.number == issue.number && r.storeDate == issue.storeDate && r.summary == issue.summary
    ensures r.collectionTitle == issue.name && r.url == Some(issue.siteUrl)
    ensures r.publisher == mi.publisher && r.series == mi.series && r.pages == mi.pages
  {
    mi.(
      arcs := MetronArcs(issue.storyArcs),
      characters := MetronResources(issue.characters),
      credits := MetronCredits(issue.creators, loadRole),
      id := if MayOverwriteIds(mi) then Some(InfoId(ComicVine, issue.id)) else mi.id,
      locations := MetronResources(issue.locations),
      number := issue.number,
      storeDate := issue.storeDate,
      summary := issue.summary,
      teams := MetronResources(issue.teams),
      collectionTitle := issue.name,
      url := Some(issue.siteUrl))
  }

  /** One iteration of the inner loop of `add_issue_to_metron_info`: the
      stripped piece loaded as a role, `Role.OTHER` where `Role.load` raises. */
  method ClassifyPiece(piece: string, loadRole: string -> Option<Role>) returns (role: Role)
    ensures role == RoleOf(Strip(piece), loadRole)
  {
    var loaded := loadRole(Strip(piece));
    if loaded.Some? {
      role := loaded.value;
    } else {
      role := OtherRole;
    }
  }

  /** The inner loop of `add_issue_to_metron_info`: one role per piece. */
  method ClassifyPieces(pieces: seq<string>, loadRole: string -> Option<Role>) returns (r: seq<Role>)
    ensures r == Classified(pieces, loadRole)
  {
    ghost var expected := Classified(pieces, loadRole);
    r := [];
    var j := 0;
    while j < |pieces|
      invariant 0 <= j <= |pieces|
      invariant r == expected[..j]
    {
      var role := ClassifyPiece(pieces[j], loadRole);
      assert expected[j] == role;
      SliceSnoc(expected, j);
      r := r + [role];
      j := j + 1;
    }
    assert expected[..j] == expected;
  }

  /** One creator's credit: the inner loop run on its split role string. */
  method CreditOf(creator: CvCreator, loadRole: string -> Option<Role>) returns (credit: MetronCredit)
    ensures credit == MetronCredit(MetronResource(Some(creator.id), creator.name), MetronRoles(creator.roles, loadRole))
  {
    var roles := ClassifyPieces(SplitRoles(creator.roles), loadRole);
    credit := MetronCredit(MetronResource(Some(creator.id), creator.name), roles);
  }

  /** The outer loop of `add_issue_to_metron_info`: one credit per creator. */
  method BuildMetronCredits(creators: seq<CvCreator>, loadRole: string -> Option<Role>)
    returns (credits: seq<MetronCredit>)
    ensures credits == MetronCredits(creators, loadRole)
  {
    ghost var expected := MetronCredits(creators, loadRole);
    credits := [];
    var i := 0;
    while i < |creators|
      invariant 0 <= i <= |creators|
      invariant credits == expected[..i]
    {
      var credit := CreditOf(creators[i], loadRole);
      assert expected[i] == credit;
      SliceSnoc(expected, i);
      credits := credits + [credit];
      i := i + 1;
    }
    assert expected[..i] == expected;
  }

  /** `add_issue_to_metron_info` as written, the credits built by its loops. */
  method AddIssueToMetronInfo(issue: CvIssue, mi: MetronInfo, loadRole: string -> Option<Role>)
    returns (r: MetronInfo)
    ensures r == IssueIntoMetron(issue, mi, loadRole)
  {
    var credits := BuildMetronCredits(issue.creators, loadRole);
    var id := if MayOverwriteIds(mi) then Some(InfoId(ComicVine, issue.id)) else mi.id;
    r := mi.(
      arcs := MetronArcs(issue.storyArcs),
      characters := MetronResources(issue.characters),
      credits := credits,
      id := id,
      locations := MetronResources(issue.locations),
      number := issue.number,
      storeDate := issue.storeDate,
      summary := issue.summary,
      teams := MetronResources(issue.teams),
      collectionTitle := issue.name,
      url := Some(issue.siteUrl));
  }

  /** `add_issue_to_comic_info`: names only, and the credits as a map. */
  function IssueIntoComic(issue: CvIssue, ci: ComicInfo): (r: ComicInfo)
    ensures r.characterList == Names(issue.characters)
    ensures r.credits == CreditsMap(issue.creators)
    ensures r.locationList == Names(issue.locations)
    ensures r.storyArcList == Names(issue.storyArcs)
    ensures r.teamList == Names(issue.teams)
    ensures r.coverDate == issue.coverDate && r.number == issue.number && r.summary == issue.summary
    ensures r.title == issue.name && r.web == Some(issue.siteUrl)
    ensures r.publisher == ci.publisher && r.series == ci.series && r.pages == ci.pages
  {
    ci.(
      characterList := Names(issue.characters),
      credits := CreditsMap(issue.creators),
      coverDate := issue.coverDate,
      locationList := Names(issue.locations),
      number := issue.number,
      storyArcList := Names(issue.storyArcs),
      summary := issue.summary,
      teamList := Names(issue.teams),
      title := issue.name,
      web := Some(issue.siteUrl))
  }

  /** Metadata and MetronInfo read a creator's roles from the same split:
      piece for piece, MetronInfo holds the classification of the stripped
      text Metadata holds. */
  lemma MetronRolesFollowMetadata(issue: CvIssue, md: Metadata, mi: MetronInfo,
                                  loadRole: string -> Option<Role>, k: nat)
    requires k < |issue.creators|
    ensures var mdRoles := IssueIntoMetadata(issue, md).issue.credits[k].roles;
      var miRoles := IssueIntoMetron(issue, mi, loadRole).credits[k].roles;
      && |mdRoles| == |miRoles| == |SplitRoles(issue.creators[k].roles)|
      && forall j :: 0 <= j < |mdRoles| ==> miRoles[j] == RoleOf(mdRoles[j].title, loadRole)
  {
    var roles := issue.creators[k].roles;
    assert IssueIntoMetadata(issue, md).issue.credits[k].roles == RoleTitles(roles);
    assert IssueIntoMetron(issue, mi, loadRole).credits[k].roles == MetronRoles(roles, loadRole);
  }

  /** ComicInfo gets the same stripped pieces as Metadata, under the name of
      the last creator so named. */
  lemma ComicRolesFollowMetadata(issue: CvIssue, md: Metadata, ci: ComicInfo, k: nat)
    requires k < |issue.creators|
    requires forall j :: k < j < |issue.creators| ==> issue.creators[j].name != issue.creators[k].name
    ensures var mdRoles := IssueIntoMetadata(issue, md).issue.credits[k].roles;
      var credits := IssueIntoComic(issue, ci).credits;
      && issue.creators[k].name in credits
      && |credits[issue.creators[k].name]| == |mdRoles|
      && forall j :: 0 <= j < |mdRoles| ==> credits[issue.creators[k].name][j] == mdRoles[j].title
  {
    CreditsMapLastWins(issue.creators, k);
    assert IssueIntoMetadata(issue, md).issue.credits[k].roles == RoleTitles(issue.creators[k].roles);
  }

  // ---------------------------------------------------------- id lookup

  /** `next((x.value for x in resources if x.source == COMICVINE), None)`. */
  function FirstComicvineValue(rs: seq<Resource>): (r: Option<int>)
    ensures r.None? <==> forall k :: 0 <= k < |rs| ==> rs[k].source != Comicvine
    ensures r.Some? ==> exists k :: (0 <= k < |rs| && rs[k] == Resource(Comicvine, r.value)
      && forall j :: 0 <= j < k ==> rs[j].source != Comicvine)
  {
    if rs == [] then None
    else if rs[0].source == Comicvine then Some(rs[0].value)
    else
      var r := FirstComicvineValue(rs[1..]);
      assert forall k :: 1 <= k < |rs| ==> rs[k] == rs[1..][k - 1];
      r
  }

  /** MetronInfo's ids are trusted only when its `id` names Comic Vine. */
  predicate FollowsComicVine(mi: MetronInfo) {
    mi.id.Some? && mi.id.value.source == ComicVine
  }

  /** Python's `a or b` on optional ids. */
  function OrElse(a: Option<int>, b: Option<int>): Option<int> {
    if Truthy(a) then a else b
  }

  // ------------------------------------------------------------ searches

  /** The title searched in round `k`: the one given for the first round,
      unless it is empty, and the one typed at the prompt otherwise. */
  function QueryTitle(title: Option<string>, rounds: seq<Round>, k: nat): string
    requires k < |rounds|
  {
    if k == 0 && NonEmpty(title) then title.value else rounds[k].typed
  }

  /** The publisher menu order: `sorted(..., key=lambda x: x.name)`. */
  predicate PublisherLe(a: CvPublisher, b: CvPublisher) {
    StrLe(a.name, b.name)
  }

  function PublisherOptions(found: seq<CvPublisher>): (r: seq<CvPublisher>)
    ensures multiset(r) == multiset(found)
  {
    Sorting.SortBy(found, PublisherLe)
  }

  predicate OffersPublisher(listed: ApiResult<seq<CvPublisher>>, id: int) {
    listed.Fetched? && exists p :: p in listed.value && p.id == id
  }

  /** `_search_publishers`, one round per recursive call. A search that runs
      out of console answers gives up. */
  function PublisherSearch(s: Session, title: Option<string>, rounds: seq<Round>): Option<int>
    decreases |rounds|
  {
    if rounds == [] then None
    else
      match s.listPublishers(QueryTitle(title, rounds, 0))
      case ServiceError => None
      case Fetched(found) =>
        var options := PublisherOptions(found);
        if 1 <= rounds[0].choice <= |options| then Some(options[rounds[0].choice - 1].id)
        else if !rounds[0].again then None
        else PublisherSearch(s, None, rounds[1..])
  }

  /** One round of the publisher search: a failed listing gives no id; else
      the menu lists the publishers found sorted by name, index k >= 1 picks
      the k-th, and "none" either stops or starts a new round that prompts
      for the title. */
  lemma PublisherMenu(s: Session, title: Option<string>, rounds: seq<Round>)
    requires rounds != []
    ensures var listed := s.listPublishers(QueryTitle(title, rounds, 0));
      && (listed.ServiceError? ==> PublisherSearch(s, title, rounds) == None)
      && (listed.Fetched? ==>
            var options := PublisherOptions(listed.value);
            var choice := rounds[0].choice;
            && Sorting.SortedBy(options, PublisherLe)
            && (1 <= choice <= |options| ==> PublisherSearch(s, title, rounds) == Some(options[choice - 1].id))
            && (!(1 <= choice <= |options|) && !rounds[0].again ==> PublisherSearch(s, title, rounds) == None)
            && (!(1 <= choice <= |options|) && rounds[0].again ==>
                  PublisherSearch(s, title, rounds) == PublisherSearch(s, None, rounds[1..])))
  {
    var listed := s.listPublishers(QueryTitle(title, rounds, 0));
    if listed.Fetched? {
      PublisherOrder();
      Sorting.SortBySorted(listed.value, PublisherLe);
    }
  }

  /** The id the publisher search returns is one a listing offered, in some
      round, for that round's title. */
  lemma {:induction false} PublisherSearchOffered(s: Session, title: Option<string>, rounds: seq<Round>)
    requires PublisherSearch(s, title, rounds).Some?
    ensures exists k :: (0 <= k < |rounds| &&
      OffersPublisher(s.listPublishers(QueryTitle(title, rounds, k)), PublisherSearch(s, title, rounds).value))
    decreases |rounds|
  {
    var listed := s.listPublishers(QueryTitle(title, rounds, 0));
    var options := PublisherOptions(listed.value);
    var choice := rounds[0].choice;
    if 1 <= choice <= |options| {
      assert options[choice - 1] in multiset(listed.value);
      assert OffersPublisher(listed, PublisherSearch(s, title, rounds).value);
    } else {
      PublisherSearchOffered(s, None, rounds[1..]);
      var k :| 0 <= k < |rounds| - 1 &&
        OffersPublisher(s.listPublishers(QueryTitle(None, rounds[1..], k)), PublisherSearch(s, title, rounds).value);
      assert QueryTitle(None, rounds[1..], k) == QueryTitle(title, rounds, k + 1);
    }
  }

  /** The series menu order: `sorted(..., key=lambda x: (x.name, x.start_year))`. */
  predicate YearLe(a: Option<int>, b: Option<int>) {
    a.None? || (b.Some? && a.value <= b.value)
  }

  predicate SeriesLe(a: CvVolume, b: CvVolume) {
    StrLt(a.name, b.name) || (a.name == b.name && YearLe(a.startYear, b.startYear))
  }

  /** The volumes of the listing whose publisher is the resolved one. */
  function OfPublisher(found: seq<CvVolume>, publisherId: int): (r: seq<CvVolume>)
    ensures forall v :: v in r <==> v in found && v.publisherId == publisherId
  {
    if found == [] then []
    else
      var rest := OfPublisher(found[1..], publisherId);
      assert found == [found[0]] + found[1..];
      if found[0].publisherId == publisherId then [found[0]] + rest else rest
  }

  function SeriesOptions(found: seq<CvVolume>, publisherId: int): (r: seq<CvVolume>)
    ensures multiset(r) == multiset(OfPublisher(found, publisherId))
  {
    Sorting.SortBy(OfPublisher(found, publisherId), SeriesLe)
  }

  predicate OffersSeries(listed: ApiResult<seq<CvVolume>>, publisherId: int, id: int) {
    listed.Fetched? && exists v :: v in listed.value && v.publisherId == publisherId && v.id == id
  }

  /** `_search_series`: as the publisher search, over the volumes of the
      given publisher only. */
  function SeriesSearch(s: Session, publisherId: int, title: Option<string>, rounds: seq<Round>): Option<int>
    decreases |rounds|
  {
    if rounds == [] then None
    else
      match s.listVolumes(QueryTitle(title, rounds, 0))
      case ServiceError => None
      case Fetched(found) =>
        var options := SeriesOptions(found, publisherId);
        if 1 <= rounds[0].choice <= |options| then Some(options[rounds[0].choice - 1].id)
        else if !rounds[0].again then None
        else SeriesSearch(s, publisherId, None, rounds[1..])
  }

  /** One round of the series search: the menu holds exactly the listed
      volumes of the publisher, sorted by (name, start year). */
  lemma SeriesMenu(s: Session, publisherId: int, title: Option<string>, rounds: seq<Round>)
    requires rounds != []
    ensures var listed := s.listVolumes(QueryTitle(title, rounds, 0));
      && (listed.ServiceError? ==> SeriesSearch(s, publisherId, title, rounds) == None)
      && (listed.Fetched? ==>
            var options := SeriesOptions(listed.value, publisherId);
            var choice := rounds[0].choice;
            && Sorting.SortedBy(options, SeriesLe)
            && (forall v :: v in options <==> v in listed.value && v.publisherId == publisherId)
            && (1 <= choice <= |options| ==>
                  SeriesSearch(s, publisherId, title, rounds) == Some(options[choice - 1].id))
            && (!(1 <= choice <= |options|) && !rounds[0].again ==> SeriesSearch(s, publisherId, title, rounds) == None)
            && (!(1 <= choice <= |options|) && rounds[0].again ==>
                  SeriesSearch(s, publisherId, title, rounds) == SeriesSearch(s, publisherId, None, rounds[1..])))
  {
    var listed := s.listVolumes(QueryTitle(title, rounds, 0));
    if listed.Fetched? {
      var options := SeriesOptions(listed.value, publisherId);
      SeriesOrder();
      Sorting.SortBySorted(OfPublisher(listed.value, publisherId), SeriesLe);
      forall v ensures v in options <==> v in listed.value && v.publisherId == publisherId {
        assert v in options <==> v in multiset(options);
      }
    }
  }

  /** The volume picked from a series menu is one of the publisher's listed volumes. */
  lemma SeriesChoiceOffered(found: seq<CvVolume>, publisherId: int, choice: nat)
    requires 1 <= choice <= |SeriesOptions(found, publisherId)|
    ensures OffersSeries(Fetched(found), publisherId, SeriesOptions(found, publisherId)[choice - 1].id)
  {
    var v := SeriesOptions(found, publisherId)[choice - 1];
    assert v in multiset(OfPublisher(found, publisherId));
    assert v in found && v.publisherId == publisherId;
  }

  /** The id the series search returns belongs to a volume of the publisher
      that a listing offered. */
  lemma {:induction false} SeriesSearchOffered(s: Session, publisherId: int, title: Option<string>, rounds: seq<Round>)
    requires SeriesSearch(s, publisherId, title, rounds).Some?
    ensures exists k :: (0 <= k < |rounds| &&
      OffersSeries(s.listVolumes(QueryTitle(title, rounds, k)), publisherId, SeriesSearch(s, publisherId, title, rounds).value))
    decreases |rounds|
  {
    var r := SeriesSearch(s, publisherId, title, rounds).value;
    var listed := s.listVolumes(QueryTitle(title, rounds, 0));
    assert listed.Fetched?;
    var options := SeriesOptions(listed.value, publisherId);
    var choice := rounds[0].choice;
    if 1 <= choice <= |options| {
      assert r == options[choice - 1].id;
      SeriesChoiceOffered(listed.value, publisherId, choice);
    } else {
      assert SeriesSearch(s, publisherId, title, rounds) == SeriesSearch(s, publisherId, None, rounds[1..]);
      SeriesSearchOffered(s, publisherId, None, rounds[1..]);
      var k :| 0 <= k < |rounds| - 1 &&
        OffersSeries(s.listVolumes(QueryTitle(None, rounds[1..], k)), publisherId, r);
      assert QueryTitle(None, rounds[1..], k) == QueryTitle(title, rounds, k + 1);
    }
  }

  /** The issue menu order: `sorted(..., key=lambda x: (x.number, x.name))`,
      a missing number or name sorting as the empty string. */
  function SortKey(s: Option<string>): string {
    if s.Some? then s.value else ""
  }

  predicate IssueLe(a: CvIssueEntry, b: CvIssueEntry) {
    StrLt(SortKey(a.number), SortKey(b.number))
    || (SortKey(a.number) == SortKey(b.number) && StrLe(SortKey(a.name), SortKey(b.name)))
  }

  function IssueOptions(found: seq<CvIssueEntry>): (r: seq<CvIssueEntry>)
    ensures multiset(r) == multiset(found)
  {
    Sorting.SortBy(found, IssueLe)
  }

  /** The issue-number filter of the listing: the number when it is non-empty. */
  function NumberFilter(number: Option<string>): Option<string> {
    if NonEmpty(number) then number else None
  }

  predicate OffersIssue(listed: ApiResult<seq<CvIssueEntry>>, id: int) {
    listed.Fetched? && exists x :: x in listed.value && x.id == id
  }

  /** `_search_issues`: list the series's issues (filtered by number when there
      is one), show the menu, and after "none" search once more without the
      number. */
  function IssueSearch(s: Session, seriesId: int, number: Option<string>, choices: seq<nat>): Option<int>
    decreases |choices|
  {
    if choices == [] then None
    else
      match s.listIssues(seriesId, NumberFilter(number))
      case ServiceError => None
      case Fetched(found) =>
        var options := IssueOptions(found);
        if 1 <= choices[0] <= |options| then Some(options[choices[0] - 1].id)
        else if NonEmpty(number) then IssueSearch(s, seriesId, None, choices[1..])
        else None
  }

  /** One menu of the issue search: sorted by (number, name); index k >= 1
      picks the k-th; "none" retries without the number when there was one,
      and otherwise gives no id. */
  lemma IssueMenu(s: Session, seriesId: int, number: Option<string>, choices: seq<nat>)
    requires choices != []
    ensures var listed := s.listIssues(seriesId, NumberFilter(number));
      && (listed.ServiceError? ==> IssueSearch(s, seriesId, number, choices) == None)
      && (listed.Fetched? ==>
            var options := IssueOptions(listed.value);
            && Sorting.SortedBy(options, IssueLe)
            && (1 <= choices[0] <= |options| ==>
                  IssueSearch(s, seriesId, number, choices) == Some(options[choices[0] - 1].id))
            && (!(1 <= choices[0] <= |options|) && NonEmpty(number) ==>
                  IssueSearch(s, seriesId, number, choices) == IssueSearch(s, seriesId, None, choices[1..]))
            && (!(1 <= choices[0] <= |options|) && !NonEmpty(number) ==>
                  IssueSearch(s, seriesId, number, choices) == None))
  {
    var listed := s.listIssues(seriesId, NumberFilter(number));
    if listed.Fetched? {
      IssueOrder();
      Sorting.SortBySorted(listed.value, IssueLe);
    }
  }

  /** Without a number the issue search shows one menu: only the first
      answer matters. */
  lemma IssueSearchWithoutNumber(s: Session, seriesId: int, number: Option<string>, choices: seq<nat>)
    requires !NonEmpty(number) && |choices| >= 1
    ensures IssueSearch(s, seriesId, number, choices) == IssueSearch(s, seriesId, number, choices[..1])
  {
  }

  /** One menu of the issue search, for any answers that start alike. */
  lemma IssueSearchFirstMenu(s: Session, seriesId: int, number: Option<string>, a: seq<nat>, b: seq<nat>)
    requires a != [] && b != [] && a[0] == b[0]
    requires IssueSearch(s, seriesId, None, a[1..]) == IssueSearch(s, seriesId, None, b[1..])
    ensures IssueSearch(s, seriesId, number, a) == IssueSearch(s, seriesId, number, b)
  {
    IssueSearchUnfold(s, seriesId, number, a);
    IssueSearchUnfold(s, seriesId, number, b);
  }

  /** The first menu of the issue search, given what the search without the
      number would settle on afterwards. */
  function IssueStep(s: Session, seriesId: int, number: Option<string>, choice: nat, later: Option<int>): Option<int> {
    match s.listIssues(seriesId, NumberFilter(number))
    case ServiceError => None
    case Fetched(found) =>
      var options := IssueOptions(found);
      if 1 <= choice <= |options| then Some(options[choice - 1].id)
      else if NonEmpty(number) then later
      else None
  }

  lemma IssueSearchUnfold(s: Session, seriesId: int, number: Option<string>, choices: seq<nat>)
    requires choices != []
    ensures IssueSearch(s, seriesId, number, choices) ==
      IssueStep(s, seriesId, number, choices[0], IssueSearch(s, seriesId, None, choices[1..]))
  {
  }

  /** With a number it shows at most two: only the first two answers matter,
      and the second menu is searched without the number. */
  lemma IssueSearchRetriesOnce(s: Session, seriesId: int, number: Option<string>, choices: seq<nat>)
    requires |choices| >= 2
    ensures IssueSearch(s, seriesId, number, choices) == IssueSearch(s, seriesId, number, choices[..2])
  {
    var first := choices[..2];
    assert first[0] == choices[0];
    assert first[1..] == choices[1..][..1];
    IssueSearchWithoutNumber(s, seriesId, None, choices[1..]);
    IssueSearchFirstMenu(s, seriesId, number, choices, first);
  }

  /** The issue picked from a menu is one of the listed issues. */
  lemma IssueChoiceOffered(found: seq<CvIssueEntry>, choice: nat)
    requires 1 <= choice <= |IssueOptions(found)|
    ensures OffersIssue(Fetched(found), IssueOptions(found)[choice - 1].id)
  {
    assert IssueOptions(found)[choice - 1] in multiset(found);
  }

  /** The id the issue search returns is one the series's listing offered,
      with or without the number filter. */
  lemma IssueSearchOffered(s: Session, seriesId: int, number: Option<string>, choices: seq<nat>)
    requires IssueSearch(s, seriesId, number, choices).Some?
    ensures OffersIssue(s.listIssues(seriesId, NumberFilter(number)), IssueSearch(s, seriesId, number, choices).value)
         || OffersIssue(s.listIssues(seriesId, None), IssueSearch(s, seriesId, number, choices).value)
  {
    IssueSearchUnfold(s, seriesId, number, choices);
    var later := IssueSearch(s, seriesId, None, choices[1..]);
    IssueStepOffered(s, seriesId, number, choices[0], later);
    if IssueStep(s, seriesId, number, choices[0], later) == later {
      IssueSearchUnfold(s, seriesId, None, choices[1..]);
      IssueStepOffered(s, seriesId, None, choices[1..][0], IssueSearch(s, seriesId, None, choices[1..][1..]));
    }
  }

  /** An id picked from one menu is one the listing offered; otherwise it is
      the one the search without the number settled on. */
  lemma IssueStepOffered(s: Session, seriesId: int, number: Option<string>, choice: nat, later: Option<int>)
    requires IssueStep(s, seriesId, number, choice, later).Some?
    ensures OffersIssue(s.listIssues(seriesId, NumberFilter(number)), IssueStep(s, seriesId, number, choice, later).value)
         || (NonEmpty(number) && IssueStep(s, seriesId, number, choice, later) == later)
  {
    var listed := s.listIssues(seriesId, NumberFilter(number));
    if 1 <= choice <= |IssueOptions(listed.value)| {
      IssueChoiceOffered(listed.value, choice);
    }
  }


  // ------------------------------------------------------- menu orderings

  lemma StrLtTransitive(a: string, b: string, c: string)
    requires StrLt(a, b) && StrLt(b, c)
    ensures StrLt(a, c)
  {
    StrLeTransitive(a, b, c);
    if a == c {
      StrLeAntisymmetric(a, b);
    }
  }

  /** Each menu order is a total preorder, as Python's comparison of the
      sort keys is on the keys the model allows. */
  lemma PublisherOrder()
    ensures Sorting.TotalPreorder(PublisherLe)
  {
    forall a: CvPublisher, b: CvPublisher ensures PublisherLe(a, b) || PublisherLe(b, a) {
      StrLeTotal(a.name, b.name);
    }
    forall a: CvPublisher, b: CvPublisher, c: CvPublisher | PublisherLe(a, b) && PublisherLe(b, c)
      ensures PublisherLe(a, c)
    {
      StrLeTransitive(a.name, b.name, c.name);
    }
  }

  lemma SeriesOrder()
    ensures Sorting.TotalPreorder(SeriesLe)
  {
    forall a: CvVolume, b: CvVolume ensures SeriesLe(a, b) || SeriesLe(b, a) {
      StrLeTotal(a.name, b.name);
    }
    forall a: CvVolume, b: CvVolume, c: CvVolume | SeriesLe(a, b) && SeriesLe(b, c)
      ensures SeriesLe(a, c)
    {
      if StrLt(a.name, b.name) && StrLt(b.name, c.name) {
        StrLtTransitive(a.name, b.name, c.name);
      }
    }
  }

  lemma IssueOrder()
    ensures Sorting.TotalPreorder(IssueLe)
  {
    forall a: CvIssueEntry, b: CvIssueEntry ensures IssueLe(a, b) || IssueLe(b, a) {
      StrLeTotal(SortKey(a.number), SortKey(b.number));
      StrLeTotal(SortKey(a.name), SortKey(b.name));
    }
    forall a: CvIssueEntry, b: CvIssueEntry, c: CvIssueEntry | IssueLe(a, b) && IssueLe(b, c)
      ensures IssueLe(a, c)
    {
      if StrLt(SortKey(a.number), SortKey(b.number)) && StrLt(SortKey(b.number), SortKey(c.number)) {
        StrLtTransitive(SortKey(a.number), SortKey(b.number), SortKey(c.number));
      } else if SortKey(a.number) == SortKey(b.number) == SortKey(c.number) {
        StrLeTransitive(SortKey(a.name), SortKey(b.name), SortKey(c.name));
      }
    }
  }

  // ---------------------------------------------------------- resolution

  /** `_get_publisher_id`: the first Comic Vine resource of the Metadata
      publisher, else MetronInfo's publisher id when MetronInfo follows Comic
      Vine, else (a falsy id falling through) the interactive search. */
  function ResolvePublisherId(s: Session, md: Metadata, mi: MetronInfo, rounds: seq<Round>): (r: Option<int>)
    ensures var stored := FirstComicvineValue(md.issue.series.publisher.resources);
      && (Truthy(stored) ==> r == stored)
      && (!Truthy(stored) && FollowsComicVine(mi) && Truthy(mi.publisher.id) ==> r == mi.publisher.id)
      && (!Truthy(stored) && !(FollowsComicVine(mi) && Truthy(mi.publisher.id)) ==>
            r == PublisherSearch(s, Some(md.issue.series.publisher.title), rounds))
  {
    var stored := OrElse(FirstComicvineValue(md.issue.series.publisher.resources),
                         if FollowsComicVine(mi) then mi.publisher.id else None);
    if Truthy(stored) then stored else PublisherSearch(s, Some(md.issue.series.publisher.title), rounds)
  }

  /** `_get_series_id`. */
  function ResolveSeriesId(s: Session, publisherId: int, md: Metadata, mi: MetronInfo, rounds: seq<Round>): (r: Option<int>)
    ensures var stored := FirstComicvineValue(md.issue.series.resources);
      && (Truthy(stored) ==> r == stored)
      && (!Truthy(stored) && FollowsComicVine(mi) && Truthy(mi.series.id) ==> r == mi.series.id)
      && (!Truthy(stored) && !(FollowsComicVine(mi) && Truthy(mi.series.id)) ==>
            r == SeriesSearch(s, publisherId, Some(md.issue.series.title), rounds))
  {
    var stored := OrElse(FirstComicvineValue(md.issue.series.resources),
                         if FollowsComicVine(mi) then mi.series.id else None);
    if Truthy(stored) then stored else SeriesSearch(s, publisherId, Some(md.issue.series.title), rounds)
  }

  /** `_get_issue_id`: MetronInfo's fallback is its own `id` value. */
  function ResolveIssueId(s: Session, seriesId: int, md: Metadata, mi: MetronInfo, choices: seq<nat>): (r: Option<int>)
    ensures var stored := FirstComicvineValue(md.issue.resources);
      && (Truthy(stored) ==> r == stored)
      && (!Truthy(stored) && FollowsComicVine(mi) && mi.id.value.value != 0 ==> r == Some(mi.id.value.value))
      && (!Truthy(stored) && !(FollowsComicVine(mi) && mi.id.value.value != 0) ==>
            r == IssueSearch(s, seriesId, md.issue.number, choices))
  {
    var stored := OrElse(FirstComicvineValue(md.issue.resources),
                         if FollowsComicVine(mi) then Some(mi.id.value.value) else None);
    if Truthy(stored) then stored else IssueSearch(s, seriesId, md.issue.number, choices)
  }

  // --------------------------------------------------------------- stages

  /** `fetch_publisher` on the records: on success the three merges are applied. */
  function PublisherStage(s: Session, records: Records, rounds: seq<Round>): (r: (Option<CvPublisher>, Records))
    ensures r.0.None? ==> r.1 == records
    ensures r.0.Some? ==>
      var id := ResolvePublisherId(s, records.metadata, records.metronInfo, rounds);
      && Truthy(id) && s.getPublisher(id.value) == Fetched(r.0.value)
      && r.1 == Records(PublisherIntoMetadata(r.0.value, records.metadata),
                        PublisherIntoMetron(r.0.value, records.metronInfo),
                        PublisherIntoComic(r.0.value, records.comicInfo))
  {
    var id := ResolvePublisherId(s, records.metadata, records.metronInfo, rounds);
    if !Truthy(id) then (None, records)
    else
      match s.getPublisher(id.value)
      case ServiceError => (None, records)
      case Fetched(p) =>
        (Some(p), Records(PublisherIntoMetadata(p, records.metadata),
                          PublisherIntoMetron(p, records.metronInfo),
                          PublisherIntoComic(p, records.comicInfo)))
  }

  /** `fetch_series` on the records. */
  function SeriesStage(s: Session, records: Records, publisherId: int, rounds: seq<Round>): (r: (Option<CvVolume>, Records))
    ensures r.0.None? ==> r.1 == records
    ensures r.0.Some? ==>
      var id := ResolveSeriesId(s, publisherId, records.metadata, records.metronInfo, rounds);
      && Truthy(id) && s.getVolume(id.value) == Fetched(r.0.value)
      && r.1 == Records(SeriesIntoMetadata(r.0.value, records.metadata),
                        SeriesIntoMetron(r.0.value, records.metronInfo),
                        SeriesIntoComic(r.0.value, records.comicInfo))
  {
    var id := ResolveSeriesId(s, publisherId, records.metadata, records.metronInfo, rounds);
    if !Truthy(id) then (None, records)
    else
      match s.getVolume(id.value)
      case ServiceError => (None, records)
      case Fetched(v) =>
        (Some(v), Records(SeriesIntoMetadata(v, records.metadata),
                          SeriesIntoMetron(v, records.metronInfo),
                          SeriesIntoComic(v, records.comicInfo)))
  }

  /** `fetch_issue` on the records. */
  function IssueStage(s: Session, records: Records, seriesId: int, choices: seq<nat>,
                      loadRole: string -> Option<Role>): (r: (Option<CvIssue>, Records))
    ensures r.0.None? ==> r.1 == records
    ensures r.0.Some? ==>
      var id := ResolveIssueId(s, seriesId, records.metadata, records.metronInfo, choices);
      && Truthy(id) && s.getIssue(id.value) == Fetched(r.0.value)
      && r.1 == Records(IssueIntoMetadata(r.0.value, records.metadata),
                        IssueIntoMetron(r.0.value, records.metronInfo, loadRole),
                        IssueIntoComic(r.0.value, records.comicInfo))
  {
    var id := ResolveIssueId(s, seriesId, records.metadata, records.metronInfo, choices);
    if !Truthy(id) then (None, records)
    else
      match s.getIssue(id.value)
      case ServiceError => (None, records)
      case Fetched(issue) =>
        (Some(issue), Records(IssueIntoMetadata(issue, records.metadata),
                              IssueIntoMetron(issue, records.metronInfo, loadRole),
                              IssueIntoComic(issue, records.comicInfo)))
  }

  /** `fetch`: publisher, then series (of the fetched publisher), then issue
      (of the fetched series); the first stage that fails ends it with
      `false`, keeping what the earlier stages merged. */
  function FetchSpec(s: Session, records: Records, answers: Answers, loadRole: string -> Option<Role>): (bool, Records)
  {
    var (publisher, afterPublisher) := PublisherStage(s, records, answers.publisher);
    if publisher.None? then (false, records)
    else
      var (series, afterSeries) := SeriesStage(s, afterPublisher, publisher.value.id, answers.series);
      if series.None? then (false, afterPublisher)
      else
        var (issue, afterIssue) := IssueStage(s, afterSeries, series.value.id, answers.issue, loadRole);
        (issue.Some?, afterIssue)
  }

  // ------------------------------------------------- properties of fetch

  /** A stored Comic Vine id in Metadata decides the publisher alone: neither
      the API nor any console answer is consulted. */
  lemma StoredPublisherIdSkipsSearch(s: Session, s': Session, md: Metadata, mi: MetronInfo,
                                     rounds: seq<Round>, rounds': seq<Round>)
    requires Truthy(FirstComicvineValue(md.issue.series.publisher.resources))
    ensures ResolvePublisherId(s, md, mi, rounds) == ResolvePublisherId(s', md, mi, rounds')
  {
  }

  /** MetronInfo's ids are consulted only when it follows Comic Vine: for any
      other catalogue the publisher, series and issue ids resolve as if
      MetronInfo held none. */
  lemma ForeignMetronIdsIgnored(s: Session, md: Metadata, mi: MetronInfo, publisherId: int, seriesId: int,
                                rounds: seq<Round>, choices: seq<nat>)
    requires mi.id.Some? && mi.id.value.source != ComicVine
    ensures ResolvePublisherId(s, md, mi, rounds) == ResolvePublisherId(s, md, mi.(id := None), rounds)
    ensures ResolveSeriesId(s, publisherId, md, mi, rounds) == ResolveSeriesId(s, publisherId, md, mi.(id := None), rounds)
    ensures ResolveIssueId(s, seriesId, md, mi, choices) == ResolveIssueId(s, seriesId, md, mi.(id := None), choices)
  {
  }

  /** A failed publisher stage ends `fetch` with `false`, leaves the records
      untouched and never reaches the series or issue stage: their answers
      make no difference. */
  lemma FetchStopsAtPublisher(s: Session, records: Records, answers: Answers, series: seq<Round>, issue: seq<nat>,
                              loadRole: string -> Option<Role>)
    requires PublisherStage(s, records, answers.publisher).0.None?
    ensures FetchSpec(s, records, answers, loadRole) == (false, records)
    ensures FetchSpec(s, records, answers, loadRole) == FetchSpec(s, records, Answers(answers.publisher, series, issue), loadRole)
  {
  }

  /** A failed series stage still leaves the publisher merged: the records
      are updated in place stage by stage. */
  lemma FetchKeepsPublisherWhenSeriesFails(s: Session, records: Records, answers: Answers,
                                           loadRole: string -> Option<Role>)
    requires PublisherStage(s, records, answers.publisher).0.Some?
    requires var (p, r1) := PublisherStage(s, records, answers.publisher);
      SeriesStage(s, r1, p.value.id, answers.series).0.None?
    ensures var p := PublisherStage(s, records, answers.publisher).0.value;
      && !FetchSpec(s, records, answers, loadRole).0
      && FetchSpec(s, records, answers, loadRole).1.metadata.issue.series.publisher.title == p.name
      && FetchSpec(s, records, answers, loadRole).1.comicInfo.publisher == Some(p.name)
  {
  }

  /** `fetch` is true exactly when all three stages found their record. */
  lemma FetchTrueIffAllStages(s: Session, records: Records, answers: Answers, loadRole: string -> Option<Role>)
    ensures FetchSpec(s, records, answers, loadRole).0 <==>
      var (p, r1) := PublisherStage(s, records, answers.publisher);
      && p.Some?
      && var (v, r2) := SeriesStage(s, r1, p.value.id, answers.series);
      && v.Some?
      && IssueStage(s, r2, v.value.id, answers.issue, loadRole).0.Some?
  {
  }

  /** Every resource of the first list is still in the second. */
  predicate Kept(before: seq<Resource>, after: seq<Resource>) {
    forall x :: x in before ==> x in after
  }

  /** No publisher, series or issue resource of the Metadata was dropped. */
  predicate ResourcesKept(before: Records, after: Records) {
    && Kept(before.metadata.issue.series.publisher.resources, after.metadata.issue.series.publisher.resources)
    && Kept(before.metadata.issue.series.resources, after.metadata.issue.series.resources)
    && Kept(before.metadata.issue.resources, after.metadata.issue.resources)
  }

  /** MetronInfo's own id and its publisher and series ids are unchanged. */
  predicate MetronIdsKept(before: MetronInfo, after: MetronInfo) {
    after.id == before.id && after.publisher.id == before.publisher.id && after.series.id == before.series.id
  }

  /** The publisher stage drops no resource, records the fetched publisher's
      Comic Vine id, and leaves a foreign MetronInfo's ids alone. */
  lemma PublisherStageKeeps(s: Session, records: Records, rounds: seq<Round>)
    ensures var (p, after) := PublisherStage(s, records, rounds);
      && ResourcesKept(records, after)
      && (p.Some? ==> Resource(Comicvine, p.value.id) in after.metadata.issue.series.publisher.resources)
      && (!MayOverwriteIds(records.metronInfo) ==> MetronIdsKept(records.metronInfo, after.metronInfo))
  {
  }

  /** The series stage, likewise for the series id. */
  lemma SeriesStageKeeps(s: Session, records: Records, publisherId: int, rounds: seq<Round>)
    ensures var (v, after) := SeriesStage(s, records, publisherId, rounds);
      && ResourcesKept(records, after)
      && (v.Some? ==> Resource(Comicvine, v.value.id) in after.metadata.issue.series.resources)
      && (!MayOverwriteIds(records.metronInfo) ==> MetronIdsKept(records.metronInfo, after.metronInfo))
  {
  }

  /** The issue stage, likewise for the issue id. */
  lemma IssueStageKeeps(s: Session, records: Records, seriesId: int, choices: seq<nat>,
                        loadRole: string -> Option<Role>)
    ensures var (i, after) := IssueStage(s, records, seriesId, choices, loadRole);
      && ResourcesKept(records, after)
      && (i.Some? ==> Resource(Comicvine, i.value.id) in after.metadata.issue.resources)
      && (!MayOverwriteIds(records.metronInfo) ==> MetronIdsKept(records.metronInfo, after.metronInfo))
  {
  }

  /** No stage drops a resource: every publisher, series and issue resource
      the Metadata had is still there afterwards, whatever the outcome; and a
      MetronInfo that follows another catalogue keeps its own id and its
      publisher and series ids (only names and lists change). */
  lemma FetchKeepsResources(s: Session, records: Records, answers: Answers, loadRole: string -> Option<Role>)
    ensures ResourcesKept(records, FetchSpec(s, records, answers, loadRole).1)
    ensures !MayOverwriteIds(records.metronInfo) ==>
      MetronIdsKept(records.metronInfo, FetchSpec(s, records, answers, loadRole).1.metronInfo)
  {
    var (p, r1) := PublisherStage(s, records, answers.publisher);
    PublisherStageKeeps(s, records, answers.publisher);
    if p.Some? {
      var (v, r2) := SeriesStage(s, r1, p.value.id, answers.series);
      SeriesStageKeeps(s, r1, p.value.id, answers.series);
      if v.Some? {
        IssueStageKeeps(s, r2, v.value.id, answers.issue, loadRole);
      }
    }
  }

  /** A list holding a Comic Vine resource has a first Comic Vine value. */
  lemma ComicvineValuePresent(rs: seq<Resource>, id: int)
    requires Resource(Comicvine, id) in rs
    ensures FirstComicvineValue(rs).Some?
  {
    var k :| 0 <= k < |rs| && rs[k] == Resource(Comicvine, id);
  }

  /** After a successful fetch each of the three Metadata levels carries a
      Comic Vine resource: `_get_*_id` has a stored value to look at (a
      falsy one still leads to a search). */
  lemma FetchRecordsComicvineIds(s: Session, records: Records, answers: Answers, loadRole: string -> Option<Role>)
    requires FetchSpec(s, records, answers, loadRole).0
    ensures var after := FetchSpec(s, records, answers, loadRole).1.metadata.issue;
      && FirstComicvineValue(after.series.publisher.resources).Some?
      && FirstComicvineValue(after.series.resources).Some?
      && FirstComicvineValue(after.resources).Some?
  {
    var (p, r1) := PublisherStage(s, records, answers.publisher);
    var (v, r2) := SeriesStage(s, r1, p.value.id, answers.series);
    var (i, r3) := IssueStage(s, r2, v.value.id, answers.issue, loadRole);
    PublisherStageKeeps(s, records, answers.publisher);
    SeriesStageKeeps(s, r1, p.value.id, answers.series);
    IssueStageKeeps(s, r2, v.value.id, answers.issue, loadRole);
    ComicvineValuePresent(r3.metadata.issue.series.publisher.resources, p.value.id);
    ComicvineValuePresent(r3.metadata.issue.series.resources, v.value.id);
    ComicvineValuePresent(r3.metadata.issue.resources, i.value.id);
  }

  // ------------------------------------------- agreement of the records

  /** A list as the three schemas hold it: Metadata's titled entries, each
      with one Comic Vine resource; MetronInfo's id/value pairs; ComicInfo's
      names. They agree when they name the same entries in the same order
      and Metadata's resource is the id MetronInfo holds. */
  predicate ListsAgree(titled: seq<TitledResource>, metron: seq<MetronResource>, names: seq<string>) {
    && |titled| == |metron| == |names|
    && forall k :: 0 <= k < |titled| ==>
      && titled[k].title == metron[k].value == names[k]
      && metron[k].id.Some?
      && titled[k].resources == [Resource(Comicvine, metron[k].id.value)]
  }

  /** The story arcs, likewise. */
  predicate ArcsAgree(arcs: seq<StoryArc>, metron: seq<Arc>, names: seq<string>) {
    && |arcs| == |metron| == |names|
    && forall k :: 0 <= k < |arcs| ==>
      && arcs[k].title == metron[k].name == names[k]
      && arcs[k].resources == [Resource(Comicvine, metron[k].id)]
  }

  /** The creators: the same people in the same order in Metadata and
      MetronInfo, with matching Comic Vine ids, and ComicInfo's credits
      keyed by exactly their names. */
  predicate CreatorsAgree(credits: seq<Credit>, metron: seq<MetronCredit>, comic: map<string, seq<string>>) {
    && |credits| == |metron|
    && (forall k :: 0 <= k < |credits| ==>
      && credits[k].creator.title == metron[k].creator.value
      && metron[k].creator.id.Some?
      && credits[k].creator.resources == [Resource(Comicvine, metron[k].creator.id.value)])
    && (forall k :: 0 <= k < |credits| ==> credits[k].creator.title in comic)
    && forall name :: name in comic ==> exists k :: 0 <= k < |credits| && credits[k].creator.title == name
  }

  /** The issue-level content of the three records tells one story: the
      same characters, locations, teams, arcs and creators, and the same
      number, summary, title and store date. */
  predicate IssueContentAgrees(r: Records) {
    var md := r.metadata.issue;
    var mi := r.metronInfo;
    var ci := r.comicInfo;
    && ListsAgree(md.characters, mi.characters, ci.characterList)
    && ListsAgree(md.locations, mi.locations, ci.locationList)
    && ListsAgree(md.teams, mi.teams, ci.teamList)
    && ArcsAgree(md.storyArcs, mi.arcs, ci.storyArcList)
    && CreatorsAgree(md.credits, mi.credits, ci.credits)
    && md.number == mi.number == ci.number
    && md.summary == mi.summary == ci.summary
    && md.title == mi.collectionTitle == ci.title
    && md.storeDate == mi.storeDate
  }

  /** The creator names of Comic Vine's list are the creator titles of
      Metadata's credits. */
  lemma CreditTitlesAreCreatorNames(creators: seq<CvCreator>, name: string)
    ensures name in CreatorNames(creators) <==>
      exists k :: 0 <= k < |Credits(creators)| && Credits(creators)[k].creator.title == name
  {
    var credits := Credits(creators);
    if name in CreatorNames(creators) {
      var k :| 0 <= k < |creators| && CreatorNames(creators)[k] == name;
      assert credits[k].creator.title == name;
    }
  }

  /** The three issue merges leave the records agreeing, whatever they held
      before: every list that all three schemas carry comes from
      the same Comic Vine list. */
  lemma IssueMergesAgree(issue: CvIssue, records: Records, loadRole: string -> Option<Role>)
    ensures IssueContentAgrees(Records(IssueIntoMetadata(issue, records.metadata),
                                       IssueIntoMetron(issue, records.metronInfo, loadRole),
                                       IssueIntoComic(issue, records.comicInfo)))
  {
    var md := IssueIntoMetadata(issue, records.metadata).issue;
    var mi := IssueIntoMetron(issue, records.metronInfo, loadRole);
    var ci := IssueIntoComic(issue, records.comicInfo);
    EntriesAgree(issue.characters);
    EntriesAgree(issue.locations);
    EntriesAgree(issue.teams);
    EntriesAgree(issue.storyArcs);
    CreatorListsAgree(issue.creators, loadRole);
    assert ListsAgree(md.characters, mi.characters, ci.characterList);
    assert ListsAgree(md.locations, mi.locations, ci.locationList);
    assert ListsAgree(md.teams, mi.teams, ci.teamList);
    assert ArcsAgree(md.storyArcs, mi.arcs, ci.storyArcList);
    assert CreatorsAgree(md.credits, mi.credits, ci.credits);
  }

  /** One Comic Vine list, as the three merges store it. */
  lemma EntriesAgree(xs: seq<CvEntry>)
    ensures ListsAgree(Catalogued(xs), MetronResources(xs), Names(xs))
    ensures ArcsAgree(CataloguedArcs(xs), MetronArcs(xs), Names(xs))
  {
  }

  /** Comic Vine's creators, as the three merges store them. */
  lemma CreatorListsAgree(creators: seq<CvCreator>, loadRole: string -> Option<Role>)
    ensures CreatorsAgree(Credits(creators), MetronCredits(creators, loadRole), CreditsMap(creators))
  {
    var credits := Credits(creators);
    forall name | name in CreditsMap(creators) || name in CreatorNames(creators)
      ensures name in CreditsMap(creators) <==>
        exists k :: 0 <= k < |credits| && credits[k].creator.title == name
    {
      CreditsMapKeys(creators, name);
      CreditTitlesAreCreatorNames(creators, name);
    }
  }

  /** After a fetch that reports success, the three records agree. */
  lemma FetchLeavesRecordsAgreeing(s: Session, records: Records, answers: Answers, loadRole: string -> Option<Role>)
    requires FetchSpec(s, records, answers, loadRole).0
    ensures IssueContentAgrees(FetchSpec(s, records, answers, loadRole).1)
  {
    var (p, r1) := PublisherStage(s, records, answers.publisher);
    var (v, r2) := SeriesStage(s, r1, p.value.id, answers.series);
    var (i, r3) := IssueStage(s, r2, v.value.id, answers.issue, loadRole);
    IssueMergesAgree(i.value, r2, loadRole);
  }

  /** What one round of a search decided: an answer, or another round. */
  datatype RoundStep = Settled(id: Option<int>) | AskAgain

  // ------------------------------------------------------------ the class

  /** The service object: the API session it was built with. */
  class Comicvine {
    const session: Session

    constructor (session: Session)
      ensures this.session == session
    {
      this.session := session;
    }

    /** One call of `_search_publishers`: one listing and one menu. It either
        settles the search or asks for another round without a title. */
    method PublisherRound(wanted: Option<string>, rest: seq<Round>) returns (step: RoundStep)
      requires rest != []
      ensures step.Settled? ==> step.id == PublisherSearch(session, wanted, rest)
      ensures step.AskAgain? ==> PublisherSearch(session, wanted, rest) == PublisherSearch(session, None, rest[1..])
    {
      var round := rest[0];
      var query := if NonEmpty(wanted) then wanted.value else round.typed;
      assert query == QueryTitle(wanted, rest, 0);
      var listed := session.listPublishers(query);
      if listed.ServiceError? {
        return Settled(None);
      }
      var options := PublisherOptions(listed.value);
      assert PublisherSearch(session, wanted, rest) ==
        if 1 <= round.choice <= |options| then Some(options[round.choice - 1].id)
        else if !round.again then None
        else PublisherSearch(session, None, rest[1..]);
      if 1 <= round.choice <= |options| {
        return Settled(Some(options[round.choice - 1].id));
      }
      if !round.again {
        return Settled(None);
      }
      return AskAgain;
    }

    /** `_search_publishers`, its recursion unrolled into a loop over the
        rounds still to come. */
    method SearchPublishers(title: Option<string>, rounds: seq<Round>) returns (id: Option<int>)
      ensures id == PublisherSearch(session, title, rounds)
    {
      var wanted := title;
      var rest := rounds;
      while rest != []
        invariant PublisherSearch(session, wanted, rest) == PublisherSearch(session, title, rounds)
        decreases |rest|
      {
        var step := PublisherRound(wanted, rest);
        if step.Settled? {
          return step.id;
        }
        wanted := None;
        rest := rest[1..];
      }
      return None;
    }

    /** One call of `_search_series`: one listing and one menu. It either
        settles the search or asks for another round without a title. */
    method SeriesRound(publisherId: int, wanted: Option<string>, rest: seq<Round>) returns (step: RoundStep)
      requires rest != []
      ensures step.Settled? ==> step.id == SeriesSearch(session, publisherId, wanted, rest)
      ensures step.AskAgain? ==>
        SeriesSearch(session, publisherId, wanted, rest) == SeriesSearch(session, publisherId, None, rest[1..])
    {
      var round := rest[0];
      var query := if NonEmpty(wanted) then wanted.value else round.typed;
      assert query == QueryTitle(wanted, rest, 0);
      var listed := session.listVolumes(query);
      if listed.ServiceError? {
        return Settled(None);
      }
      var options := SeriesOptions(listed.value, publisherId);
      assert SeriesSearch(session, publisherId, wanted, rest) ==
        if 1 <= round.choice <= |options| then Some(options[round.choice - 1].id)
        else if !round.again then None
        else SeriesSearch(session, publisherId, None, rest[1..]);
      if 1 <= round.choice <= |options| {
        return Settled(Some(options[round.choice - 1].id));
      }
      if !round.again {
        return Settled(None);
      }
      return AskAgain;
    }

    /** `_search_series`, its recursion unrolled into a loop over the rounds
        still to come. */
    method SearchSeries(publisherId: int, title: Option<string>, rounds: seq<Round>) returns (id: Option<int>)
      ensures id == SeriesSearch(session, publisherId, title, rounds)
    {
      var wanted := title;
      var rest := rounds;
      while rest != []
        invariant SeriesSearch(session, publisherId, wanted, rest) == SeriesSearch(session, publisherId, title, rounds)
        decreases |rest|
      {
        var step := SeriesRound(publisherId, wanted, rest);
        if step.Settled? {
          return step.id;
        }
        wanted := None;
        rest := rest[1..];
      }
      return None;
    }

    /** `_search_issues`, as a loop: a second pass happens only after "none"
        on a search by number. */
    method SearchIssues(seriesId: int, number: Option<string>, choices: seq<nat>) returns (id: Option<int>)
      ensures id == IssueSearch(session, seriesId, number, choices)
    {
      var wanted := number;
      var rest := choices;
      while rest != []
        invariant IssueSearch(session, seriesId, wanted, rest) == IssueSearch(session, seriesId, number, choices)
        decreases |rest|
      {
        var listed := session.listIssues(seriesId, NumberFilter(wanted));
        if listed.ServiceError? {
          return None;
        }
        var options := IssueOptions(listed.value);
        if 1 <= rest[0] <= |options| {
          return Some(options[rest[0] - 1].id);
        }
        if !NonEmpty(wanted) {
          return None;
        }
        wanted := None;
        rest := rest[1..];
      }
      return None;
    }

    method GetPublisherId(md: Metadata, mi: MetronInfo, rounds: seq<Round>) returns (id: Option<int>)
      ensures id == ResolvePublisherId(session, md, mi, rounds)
    {
      id := OrElse(FirstComicvineValue(md.issue.series.publisher.resources),
                   if FollowsComicVine(mi) then mi.publisher.id else None);
      if !Truthy(id) {
        id := SearchPublishers(Some(md.issue.series.publisher.title), rounds);
      }
    }

    method GetSeriesId(publisherId: int, md: Metadata, mi: MetronInfo, rounds: seq<Round>) returns (id: Option<int>)
      ensures id == ResolveSeriesId(session, publisherId, md, mi, rounds)
    {
      id := OrElse(FirstComicvineValue(md.issue.series.resources),
                   if FollowsComicVine(mi) then mi.series.id else None);
      if !Truthy(id) {
        id := SearchSeries(publisherId, Some(md.issue.series.title), rounds);
      }
    }

    method GetIssueId(seriesId: int, md: Metadata, mi: MetronInfo, choices: seq<nat>) returns (id: Option<int>)
      ensures id == ResolveIssueId(session, seriesId, md, mi, choices)
    {
      id := OrElse(FirstComicvineValue(md.issue.resources),
                   if FollowsComicVine(mi) then Some(mi.id.value.value) else None);
      if !Truthy(id) {
        id := SearchIssues(seriesId, md.issue.number, choices);
      }
    }

    /** `fetch_publisher`: updates the records in place on success. */
    method FetchPublisher(info: MetaInfo, rounds: seq<Round>) returns (publisher: Option<CvPublisher>)
      modifies info
      ensures (publisher, info.Snapshot()) == PublisherStage(session, old(info.Snapshot()), rounds)
    {
      var id := GetPublisherId(info.metadata, info.metronInfo, rounds);
      if !Truthy(id) {
        return None;
      }
      var fetched := session.getPublisher(id.value);
      if fetched.ServiceError? {
        return None;
      }
      var p := fetched.value;
      info.metadata := PublisherIntoMetadata(p, info.metadata);
      info.metronInfo := PublisherIntoMetron(p, info.metronInfo);
      info.comicInfo := PublisherIntoComic(p, info.comicInfo);
      publisher := Some(p);
    }

    /** `fetch_series`. */
    method FetchSeries(info: MetaInfo, publisherId: int, rounds: seq<Round>) returns (series: Option<CvVolume>)
      modifies info
      ensures (series, info.Snapshot()) == SeriesStage(session, old(info.Snapshot()), publisherId, rounds)
    {
      var id := GetSeriesId(publisherId, info.metadata, info.metronInfo, rounds);
      if !Truthy(id) {
        return None;
      }
      var fetched := session.getVolume(id.value);
      if fetched.ServiceError? {
        return None;
      }
      var v := fetched.value;
      info.metadata := SeriesIntoMetadata(v, info.metadata);
      info.metronInfo := SeriesIntoMetron(v, info.metronInfo);
      info.comicInfo := SeriesIntoComic(v, info.comicInfo);
      series := Some(v);
    }

    /** `fetch_issue`. */
    method FetchIssue(info: MetaInfo, seriesId: int, choices: seq<nat>, loadRole: string -> Option<Role>)
      returns (issue: Option<CvIssue>)
      modifies info
      ensures (issue, info.Snapshot()) == IssueStage(session, old(info.Snapshot()), seriesId, choices, loadRole)
    {
      var id := GetIssueId(seriesId, info.metadata, info.metronInfo, choices);
      if !Truthy(id) {
        return None;
      }
      var fetched := session.getIssue(id.value);
      if fetched.ServiceError? {
        return None;
      }
      var x := fetched.value;
      info.metadata := IssueIntoMetadata(x, info.metadata);
      info.metronInfo := AddIssueToMetronInfo(x, info.metronInfo, loadRole);
      info.comicInfo := IssueIntoComic(x, info.comicInfo);
      issue := Some(x);
    }

    /** `fetch`. */
    method Fetch(info: MetaInfo, answers: Answers, loadRole: string -> Option<Role>) returns (found: bool)
      modifies info
      ensures (found, info.Snapshot()) == FetchSpec(session, old(info.Snapshot()), answers, loadRole)
    {
      var publisher := FetchPublisher(info, answers.publisher);
      if publisher.None? {
        return false;
      }
      var series := FetchSeries(info, publisher.value.id, answers.series);
      if series.None? {
        return false;
      }
      var issue := FetchIssue(info, series.value.id, answers.issue, loadRole);
      found := issue.Some?;
    }
  }
}
