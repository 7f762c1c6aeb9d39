# Perdoo collection pipeline, modelled in Dafny

Perdoo keeps a collection of comic-book archives tidy. For every archive it
reconciles three metadata records (Perdoo's own `Metadata`, `MetronInfo`
and `ComicInfo`), enriches them from external catalogues, renames the page
images into a numbered sequence, rebuilds the page lists, stamps the record,
re-archives it and moves the file to a path derived from the metadata.

This project models that core:

- `wrappers.dfy` (`Wrappers`): `Option`, `Result` and Python truthiness of
  optional strings.
- `text.dfy` (`Text`): the Python string behaviour the pipeline relies on:
  `str(n)`, `str.zfill`, `str.strip`, the role splitter
  `re.split(r"[~\r\n,]+", ...)` and `<` on `str`.
- `sorting.dfy` (`Sorting`): `sorted(xs, key=...)` as a stable insertion sort.
- `archives.dfy` (`Archives`): the content-sniffing dispatch `get_archive`
  and the choice of formats in `convert_collection`.
- `schemas.dfy` (`Schemas`): the fields of the three records the core reads
  or writes. It also holds `MetaInfo`, the mutable triple that enrichment
  and page synchronisation update in place.
- `reconcile.dfy` (`Reconcile`): `read_archive`, with the precedence among
  the three entries.
- `filenames.dfy` (`Filenames`): `generate_filename`.
- `pages.dfy` (`Pages`): `rename_images` on a `Folder` object and
  `process_pages`.
- `comicvine.dfy` (`ComicvineService`): the Comic Vine service.
  - The `add_*` merges are pure functions from record to record.
  - The id precedence of `_get_*_id`.
  - The menu searches, as loops over the console answers.
  - The `fetch_*` stages and `fetch`, on a `Comicvine` class.
- `pipeline.dfy` (`Pipeline`): the rest of the run.
  - `fetch_from_services`, as a chain over the configured services.
  - The freshness gate.
  - The per-archive loop of `start`.

Everything outside the process is a parameter:

- The Comic Vine API session is a record of functions that return a value
  or a service error.
- Console answers are sequences of rounds.
- XML parsers and converters are function parameters, and so is `sanitize`.
- Each other service's `fetch` is one function from the records to a
  verdict and new records.
- Dates are day numbers.

Each method is proved against a specification function. The lemmas next to
it prove what that function promises.

## Model

| member | source | states |
|---|---|---|
| Text.NatToString | perdoo/__main__.py:167 | `str(n)` is a non-empty run of decimal digits with no leading zero |
| Text.ParseNatToString | perdoo/__main__.py:167 | reading back the digits of `str(n)` gives `n` |
| Text.ZFill | perdoo/__main__.py:139 | `zfill(w)` has length `max(len, w)`; the padding is zeros on the left, and a leading sign stays in front of them |
| Text.ZFillKeepsValue | perdoo/__main__.py:139 | zero-padding a digit string keeps its digits and its numeric value |
| Text.PaddedIndexValue | perdoo/__main__.py:169 | the padded page index `str(i).zfill(w)` reads back as `i` |
| Text.Strip | perdoo/services/comicvine.py:83 | `strip()` returns the slice after the leading whitespace, cutting only whitespace at the end; the result neither starts nor ends with whitespace |
| Text.StripIdempotent | perdoo/services/comicvine.py:83 | stripping twice is stripping once |
| Text.SplitRoles | perdoo/services/comicvine.py:83 | the split gives at least one piece; no piece holds a separator; only the first and last piece may be empty; a string without separators is one piece |
| Text.SplitRolesRebuilds | perdoo/services/comicvine.py:83 | for every string, the pieces interleaved with the maximal separator runs they were cut at (one fewer run than pieces, each run non-empty and made only of separators) give the string back, so the split loses nothing and is decided by its input |
| Text.SplitJoinRoundTrip | perdoo/services/comicvine.py:83 | pieces joined with "," split back into the same pieces |
| Text.StrippedRoles | perdoo/services/comicvine.py:137 | one stripped role per split piece, in order |
| Text.StrLeTotal | perdoo/services/comicvine.py:157-159 | any two strings are ordered by `<=` one way or the other |
| Text.StrLeTransitive | perdoo/services/comicvine.py:157-159 | string `<=` is transitive |
| Text.StrLeAntisymmetric | perdoo/services/comicvine.py:157-159 | two strings each `<=` the other are equal |
| Sorting.SortBy | perdoo/services/comicvine.py:157-159 | the sorted list is a permutation of the input |
| Sorting.SortBySorted | perdoo/services/comicvine.py:157-159 | under a total preorder the result is sorted |
| Sorting.SortByStable | perdoo/services/comicvine.py:157-159 | under a total preorder `sorted` is stable: for every y, the elements whose key ties with y's come out in the order they went in |
| Sorting.SortByMembers | perdoo/services/comicvine.py:157-159 | sorting keeps exactly the elements it was given |
| Archives.GetArchive | perdoo/archives/__init__.py:23-32 | the first accepting predicate decides the kind, each in both directions: CBZ exactly for zip content, CBR exactly for rar content that is not zip, CBT exactly for tar content that is neither, CB7 exactly when py7zr is loaded and nothing else matched; the error exactly when py7zr is missing and nothing matched; the handle keeps the input path |
| Archives.SevenZipPredicateUnused | perdoo/archives/__init__.py:30-31 | the 7z predicate is never consulted: changing it changes no dispatch |
| Archives.LoadedPy7zrOpensEverything | perdoo/archives/__init__.py:30-32 | with py7zr loaded every file opens, and content no predicate accepts becomes 7z |
| Archives.FormatIgnoresName | perdoo/archives/__init__.py:23-31 | dispatch depends on the content only, never on the name |
| Archives.ConversionTarget | perdoo/__main__.py:43-46 | CB7 and CBT map to themselves; every other format falls back to CBZ; the extension matches the format |
| Archives.RemoveFirst | perdoo/__main__.py:47-48 | `list.remove`: fails exactly when the item is absent; otherwise drops one occurrence and keeps the rest |
| Archives.SourceExtensionsExcludeTarget | perdoo/__main__.py:47-49 | with distinct known extensions, the converted ones are exactly all but the target's |
| Archives.ConvertCollection | perdoo/__main__.py:49-52 | each listed file is opened in turn and handed over; the first unsupported file stops the loop and is reported |
| Reconcile.EntryName | perdoo/__main__.py:59-62 | the rooted "/X.xml" entry is tried before the bare "X.xml" |
| Reconcile.Load | perdoo/__main__.py:58-64 | a schema is present exactly when its entry exists and validates, and then it holds the parsed record |
| Reconcile.ReadArchive | perdoo/__main__.py:55-97 | a parsed record is kept unchanged; a missing MetronInfo or ComicInfo is derived from the final Metadata |
| Reconcile.MetadataFollowsPrecedenceTable | perdoo/__main__.py:86-92 | Metadata is the first present of parsed Metadata, from MetronInfo, from ComicInfo; otherwise it is created from the archive |
| Reconcile.InvalidRootedEntryHidesBareEntry | perdoo/__main__.py:58-64 | an invalid rooted entry makes the schema absent, even when a valid bare entry exists |
| Reconcile.OnlyComicInfo | perdoo/__main__.py:86-97 | with only ComicInfo valid, Metadata comes from it and MetronInfo from that Metadata |
| Reconcile.NothingValid | perdoo/__main__.py:86-97 | with nothing valid, all three records come from the created Metadata |
| Reconcile.AllValidKeptAsParsed | perdoo/__main__.py:86-97 | with all three valid, nothing is derived |
| Filenames.VolumeSuffix | perdoo/__main__.py:132-136 | the series segment differs from the title exactly when volume > 1, and the volume reads back from its " v" suffix |
| Filenames.VolumeExamples | perdoo/__main__.py:132-136 | volume 1 gives the bare title, volume 2 gives "<title> v2" |
| Filenames.NumberPartKeepsNumber | perdoo/__main__.py:138-142 | the number part is "_#" followed by the number's value, padded to 3 digits for a comic and to 2 otherwise |
| Filenames.IssueFilename | perdoo/__main__.py:150-155 | annuals and chapters put the suffix before the number; GN, HC and TP put the number before the suffix; other formats have no suffix |
| Filenames.IssueFilenameShape | perdoo/__main__.py:150-155 | the file name starts with the series segment, and holds a number part exactly when the issue has a non-empty number |
| Filenames.GraphicNovelExample | perdoo/__main__.py:138-155 | graphic novel number "5" of a volume-1 series is "<series>_#05_GN" |
| Filenames.GenerateFilename | perdoo/__main__.py:157-162 | the path is the root followed by sanitised publisher, sanitised series and "<issue file name>.<extension>" |
| Pages.RenamedImage | perdoo/__main__.py:169-172 | an image named in the "_" form is left alone; any other is renamed to the "-" form with the same suffix |
| Pages.RenamedAll | perdoo/__main__.py:168-172 | the rename applies position by position and keeps the count |
| Pages.Folder.RenameImages | perdoo/__main__.py:165-172 | the folder ends with the renamed images; the renamed indices are exactly those failing the skip test, in increasing order |
| Pages.PaddedIndexWidth | perdoo/__main__.py:167-169 | every padded index of n images is `len(str(n))` wide |
| Pages.TargetNamesDistinct | perdoo/__main__.py:172 | two different images never get the same target name, whatever their suffixes |
| Pages.DashNameIsNeverSkipped | perdoo/__main__.py:169-172 | an image already in the "-" form fails the skip test and is renamed again |
| Pages.UnderscoreNameIsKept | perdoo/__main__.py:169-170 | an image already in the "_" form keeps that name |
| Pages.RenameNamesStable | perdoo/__main__.py:165-172 | a second pass over the first pass's output, listed in the same positional order, leaves the names as the first pass left them |
| Pages.FindPage | perdoo/__main__.py:189 | the lookup finds a page with the wanted index, and fails exactly when there is none |
| Pages.FindPageFirst | perdoo/__main__.py:189 | the lookup returns the first page with that index |
| Pages.NewPage | perdoo/__main__.py:190-193 | a fresh entry has the index and final flag and carries the old entry's attributes (defaults when there is none) |
| Pages.PagesFor | perdoo/__main__.py:187-205 | n entries with indices 0..n-1, final only at n-1, each carrying the old entry for its index |
| Pages.PagesSortedAndFinal | perdoo/__main__.py:203-205 | the rebuilt list is strictly sorted by index, and only its last entry is final |
| Pages.PagesIdempotent | perdoo/__main__.py:187-205 | rebuilding an already rebuilt list changes nothing |
| Pages.RebuildPages | perdoo/__main__.py:184-205 | each record's page list becomes the rebuilt list, and nothing else in the records changes |
| Pages.ProcessPages | perdoo/__main__.py:175-205 | the images are renamed, then all three page lists are rebuilt for the image count |
| ComicvineService.Dedup | perdoo/services/comicvine.py:31-33 | `list(set(...))` keeps exactly the same resources, each once |
| ComicvineService.WithResource | perdoo/services/comicvine.py:31-33 | the merged list is the old resources plus the Comic Vine one, without duplicates |
| ComicvineService.DedupDistinct | perdoo/services/comicvine.py:31-33 | a list without duplicates is kept as it is |
| ComicvineService.WithResourceOnDistinct | perdoo/services/comicvine.py:31-33 | on a duplicate-free list the merge appends the resource only if it is new |
| ComicvineService.WithResourceIdempotent | perdoo/services/comicvine.py:31-33 | merging the same resource twice is merging it once |
| ComicvineService.RoleTitles | perdoo/services/comicvine.py:83 | one titled role per split piece, stripped |
| ComicvineService.RoleOf | perdoo/services/comicvine.py:117-120 | a role that `Role.load` rejects becomes Other; otherwise the loaded role is kept |
| ComicvineService.Classified | perdoo/services/comicvine.py:116-120 | one role per piece, classified after stripping |
| ComicvineService.Credits | perdoo/services/comicvine.py:78-86 | one credit per creator, with its Comic Vine resource and its split roles |
| ComicvineService.MetronCredits | perdoo/services/comicvine.py:113-122 | one credit per creator, with one role per split piece |
| ComicvineService.CreditsMapKeys | perdoo/services/comicvine.py:136-138 | the ComicInfo credit keys are exactly the creators' names |
| ComicvineService.CreditsMapLastWins | perdoo/services/comicvine.py:136-138 | for a name, the last creator with it supplies the stripped roles |
| ComicvineService.PublisherIntoMetadata | perdoo/services/comicvine.py:28-34 | the title is set; the resources become the old ones plus Comic Vine's, without duplicates; nothing else changes |
| ComicvineService.PublisherIntoMetron | perdoo/services/comicvine.py:37-40 | the name is always set; the id is set only when MetronInfo has no id or follows Comic Vine |
| ComicvineService.PublisherIntoComic | perdoo/services/comicvine.py:43-44 | only the publisher name is set |
| ComicvineService.SeriesIntoMetadata | perdoo/services/comicvine.py:47-54 | title and start year are set, and the resource merged; publisher and volume are kept |
| ComicvineService.SeriesIntoMetron | perdoo/services/comicvine.py:57-60 | the name is always set; the id is set only when MetronInfo has no id or follows Comic Vine |
| ComicvineService.SeriesIntoComic | perdoo/services/comicvine.py:63-64 | only the series name is set |
| ComicvineService.IssueIntoMetadata | perdoo/services/comicvine.py:67-102 | resources merged; characters, credits, locations, arcs, teams, number, dates, summary and title replaced; series and format kept |
| ComicvineService.IssueIntoMetron | perdoo/services/comicvine.py:105-131 | the issue's fields are replaced; the id is replaced only when MetronInfo has no id or follows Comic Vine; publisher, series and pages are kept |
| ComicvineService.ClassifyPiece | perdoo/services/comicvine.py:117-120 | one piece is stripped and classified, Other on rejection |
| ComicvineService.ClassifyPieces | perdoo/services/comicvine.py:116-120 | the inner loop yields one classified role per piece |
| ComicvineService.CreditOf | perdoo/services/comicvine.py:114-121 | one creator's credit, with its roles |
| ComicvineService.BuildMetronCredits | perdoo/services/comicvine.py:113-122 | the credits loop yields one credit per creator, in order |
| ComicvineService.AddIssueToMetronInfo | perdoo/services/comicvine.py:105-131 | the MetronInfo merge, with the credits built by the loop |
| ComicvineService.IssueIntoComic | perdoo/services/comicvine.py:134-146 | the list fields become the names; credits map names to stripped roles; publisher, series and pages are kept |
| ComicvineService.MetronRolesFollowMetadata | perdoo/services/comicvine.py:113-122 | MetronInfo has as many roles as Metadata for each creator, each the classification of the Metadata role title |
| ComicvineService.ComicRolesFollowMetadata | perdoo/services/comicvine.py:136-138 | ComicInfo lists each uniquely named creator's roles as the Metadata role titles |
| ComicvineService.FirstComicvineValue | perdoo/services/comicvine.py:179-185 | the value of the first Comic Vine resource, absent exactly when there is none |
| ComicvineService.PublisherOptions | perdoo/services/comicvine.py:157-159 | the publisher menu is a permutation of the listing |
| ComicvineService.PublisherMenu | perdoo/services/comicvine.py:154-174 | menu sorted by name; index k >= 1 picks the k-th; "none" ends the search, or starts another round without the title; a service error gives no id |
| ComicvineService.PublisherSearchOffered | perdoo/services/comicvine.py:154-174 | a publisher found was offered by one of the listings shown |
| ComicvineService.OfPublisher | perdoo/services/comicvine.py:212-217 | the series options are the listed volumes of that publisher |
| ComicvineService.SeriesOptions | perdoo/services/comicvine.py:212-219 | the series menu is a permutation of the publisher's volumes |
| ComicvineService.SeriesMenu | perdoo/services/comicvine.py:209-238 | menu of the publisher's volumes only, sorted by (name, start year); choice, "none" and retry as for publishers |
| ComicvineService.SeriesChoiceOffered | perdoo/services/comicvine.py:226-232 | a picked series is a listed volume of the publisher |
| ComicvineService.SeriesSearchOffered | perdoo/services/comicvine.py:209-238 | a series found was offered, for that publisher, by one of the listings shown |
| ComicvineService.IssueOptions | perdoo/services/comicvine.py:278-285 | the issue menu is a permutation of the listing |
| ComicvineService.IssueMenu | perdoo/services/comicvine.py:276-305 | menu sorted by (number, name); "none" retries without the number only when there was one |
| ComicvineService.IssueSearchWithoutNumber | perdoo/services/comicvine.py:297-302 | without a number only the first answer matters |
| ComicvineService.IssueSearchRetriesOnce | perdoo/services/comicvine.py:297-301 | at most two menus are shown: only the first two answers matter |
| ComicvineService.IssueChoiceOffered | perdoo/services/comicvine.py:292-298 | a picked issue is one of the listed issues |
| ComicvineService.IssueSearchOffered | perdoo/services/comicvine.py:276-305 | an issue found was listed, by number or in the unfiltered retry |
| ComicvineService.IssueStepOffered | perdoo/services/comicvine.py:292-302 | one menu's id was listed, unless it came from the retry |
| ComicvineService.PublisherOrder | perdoo/services/comicvine.py:158 | the publisher sort key is a total preorder |
| ComicvineService.SeriesOrder | perdoo/services/comicvine.py:218 | the (name, start year) key is a total preorder |
| ComicvineService.IssueOrder | perdoo/services/comicvine.py:284 | the (number, name) key is a total preorder |
| ComicvineService.ResolvePublisherId | perdoo/services/comicvine.py:176-191 | the stored Comic Vine resource wins; then MetronInfo's publisher id, if it follows Comic Vine; then the search; a falsy id falls through |
| ComicvineService.ResolveSeriesId | perdoo/services/comicvine.py:240-252 | the same precedence for the series id |
| ComicvineService.ResolveIssueId | perdoo/services/comicvine.py:307-317 | the same precedence for the issue id, using MetronInfo's own id |
| ComicvineService.PublisherStage | perdoo/services/comicvine.py:193-207 | no id or a service error leaves the records untouched; otherwise the three publisher merges are applied |
| ComicvineService.SeriesStage | perdoo/services/comicvine.py:254-274 | the same for the series |
| ComicvineService.IssueStage | perdoo/services/comicvine.py:319-339 | the same for the issue |
| ComicvineService.StoredPublisherIdSkipsSearch | perdoo/services/comicvine.py:179-191 | with a stored id, neither the session nor the answers matter |
| ComicvineService.ForeignMetronIdsIgnored | perdoo/services/comicvine.py:186-190 | MetronInfo ids from another catalogue are never used |
| ComicvineService.FetchStopsAtPublisher | perdoo/services/comicvine.py:344-348 | a failed publisher stage returns False with the records untouched, and no later answers are used |
| ComicvineService.FetchKeepsPublisherWhenSeriesFails | perdoo/services/comicvine.py:344-356 | a failed series stage returns False but keeps the publisher merge |
| ComicvineService.FetchTrueIffAllStages | perdoo/services/comicvine.py:341-362 | `fetch` is True exactly when all three stages resolve |
| ComicvineService.PublisherStageKeeps | perdoo/services/comicvine.py:193-207 | no resource is dropped; the publisher's resource is present; foreign MetronInfo ids are kept |
| ComicvineService.SeriesStageKeeps | perdoo/services/comicvine.py:254-274 | the same for the series |
| ComicvineService.IssueStageKeeps | perdoo/services/comicvine.py:319-339 | the same for the issue |
| ComicvineService.FetchKeepsResources | perdoo/services/comicvine.py:341-362 | `fetch` drops no resource and keeps foreign MetronInfo ids |
| ComicvineService.IssueMergesAgree | perdoo/services/comicvine.py:64-148 | after the three issue merges the records agree: the same characters, locations, teams and story arcs in the same order in all three schemas, Metadata's Comic Vine resource equal to MetronInfo's id for each, the same creators in Metadata and MetronInfo with ComicInfo's credits keyed by exactly their names, and the same number, summary, title and store date |
| ComicvineService.FetchLeavesRecordsAgreeing | perdoo/services/comicvine.py:341-362 | a fetch that returns True leaves the three records agreeing as above |
| ComicvineService.FetchRecordsComicvineIds | perdoo/services/comicvine.py:341-362 | after a successful fetch, Metadata holds a Comic Vine resource for the publisher, the series and the issue |
| ComicvineService.Comicvine.PublisherRound | perdoo/services/comicvine.py:154-174 | one listing and one menu: settle the search, or ask again without the title |
| ComicvineService.Comicvine.SearchPublishers | perdoo/services/comicvine.py:154-174 | the retry loop computes the publisher search |
| ComicvineService.Comicvine.SeriesRound | perdoo/services/comicvine.py:209-238 | one listing and one menu of the series search |
| ComicvineService.Comicvine.SearchSeries | perdoo/services/comicvine.py:209-238 | the retry loop computes the series search |
| ComicvineService.Comicvine.SearchIssues | perdoo/services/comicvine.py:276-305 | the loop computes the issue search, with its single retry |
| ComicvineService.Comicvine.GetPublisherId | perdoo/services/comicvine.py:176-191 | returns the id by the precedence above |
| ComicvineService.Comicvine.GetSeriesId | perdoo/services/comicvine.py:240-252 | returns the id by the precedence above |
| ComicvineService.Comicvine.GetIssueId | perdoo/services/comicvine.py:307-317 | returns the id by the precedence above |
| ComicvineService.Comicvine.FetchPublisher | perdoo/services/comicvine.py:193-207 | the result and the new records are the publisher stage's |
| ComicvineService.Comicvine.FetchSeries | perdoo/services/comicvine.py:254-274 | the result and the new records are the series stage's |
| ComicvineService.Comicvine.FetchIssue | perdoo/services/comicvine.py:319-339 | the result and the new records are the issue stage's |
| ComicvineService.Comicvine.Fetch | perdoo/services/comicvine.py:341-362 | updates the records in place as the three stages in order do |
| Pipeline.ConfiguredServices | perdoo/__main__.py:103-118 | a service is built exactly when its settings and all credentials are truthy, in the order Marvel, Metron, Comic Vine, League |
| Pipeline.ChainAsksPrefix | perdoo/__main__.py:123-125 | services are asked in order; the chain stops early only on a success, and a failed chain asked them all |
| Pipeline.ChainStopsAtFirstSuccess | perdoo/__main__.py:123-125 | with `RecordsBefore` the records after the first k asks threaded without stopping: every service asked before the last failed on those records; the chain succeeds exactly when the last service asked did, and then holds the records it left; a failed chain asked every service and holds the records the last one left |
| Pipeline.NothingConfigured | perdoo/__main__.py:119-121 | with no service configured nothing is asked and the records are unchanged |
| Pipeline.OnlyConfiguredAsked | perdoo/__main__.py:103-125 | only configured services are asked, in the fixed order |
| Pipeline.OnlyComicvineConfigured | perdoo/__main__.py:109-125 | with only Comic Vine configured, the chain is Comic Vine's `fetch` |
| Pipeline.AskInTurn | perdoo/__main__.py:123-125 | the loop asks each service on the records in place and ends as `Chain` (the specification of `any(...)`, whose first-success property ChainStopsAtFirstSuccess states) |
| Pipeline.FetchFromServices | perdoo/__main__.py:100-127 | builds the configured services and asks them in turn |
| Pipeline.Stamp | perdoo/__main__.py:239 | the new stamp is today's date and this tool |
| Pipeline.StampedSkippedForFourWeeks | perdoo/__main__.py:215-218 | with `SkipsArchive` the gate's specification: a stamped archive is skipped exactly when less than 28 days separate the runs, unless forced |
| Pipeline.OtherToolNeverSkipped | perdoo/__main__.py:215-218 | another tool's stamp never suppresses processing |
| Pipeline.Written | perdoo/__main__.py:240-245 | each schema file is written exactly when its output flag is set |
| Pipeline.FirstExtractionFailure | perdoo/__main__.py:230-231 | the position of the first extraction failure |
| Pipeline.StartSpec | perdoo/__main__.py:211-260 | archives in order, each processed on its own; the run ends early only at an extraction failure |
| Pipeline.RearchiveFailureContinues | perdoo/__main__.py:246-249 | after a re-archive failure the next archive is still processed |
| Pipeline.ForceSkipsNothing | perdoo/__main__.py:215-218 | with force, no archive is skipped |
| Pipeline.RewrittenArchive | perdoo/__main__.py:222-260 | each of the three records is the fetched one with its page list rebuilt by `PagesFor` for the image count, Metadata with today's stamp too; the images are `RenamedAll` after the issue file name; only the schemas in `written` (those whose create flag is set) are stored anew; the target is `generate_filename`'s path and the archive is moved exactly when its path differs from it |
| Pipeline.RerunSkipsRewritten | perdoo/__main__.py:215-239 | a rewritten archive is skipped by an unforced run within four weeks |
| Pipeline.Start | perdoo/__main__.py:208-260 | the loop yields the outcomes of the run |
| Pipeline.ProcessOne | perdoo/__main__.py:211-260 | one iteration, on a `MetaInfo` and a scratch `Folder`, yields `ProcessArchive`'s outcome (the loop body's specification, whose properties RewrittenArchive, RearchiveFailureContinues and RerunSkipsRewritten state) |

## Left out

- Filesystem effects are not modelled: the temporary folder, writing XML, `unlink`, `mkdir` and the moves. A run records only what they decide.
- `list_files` is not modelled. A folder listing and its order are inputs.
- Image-derived page data (size, hash, dimensions) is not modelled. A page is its index, final flag and the attributes carried over from an earlier entry.
- XML parsing and serialisation, the schema converters, `create_metadata` and `sanitize` are not part of this model; they are function parameters.
- The Marvel, Metron and League of Comic Geeks services are not part of this model. Each is one `fetch` function.
- The Comic Vine API, its cache and its service errors are a session of functions. Console prompts, menus and confirmations are finite answer sequences.
- `Role.load` is a parameter.
- Logging, the CLI, settings loading and interrupt handling are not modelled.
- `cbr.py` and the other archive classes are not modelled. An archive is the entry names and contents `read_archive` sees, plus whether extraction and re-archiving succeed.
- Pipeline.Start begins after `convert_collection`. The model does not re-run `get_archive` on each listed file: every listed file is taken to open. An unsupported file raises out of the run, and the model does not capture this.
- ComicvineService.IssueIntoMetron does not model MetronInfo's `cover_date`. The source assigns it a one-element tuple and may prompt for it.
- ComicvineService.IssueOptions sorts a missing number or name as the empty string. Python would raise a TypeError when it compares None with a string.
- ComicvineService.PublisherMenu treats a menu index past the end as "none", which the console never returns.
- ComicvineService.WithResource keeps first-occurrence order. `list(set(...))` has no defined order, so only membership and distinctness are promised.
- Pages.Folder.RenameImages does not model collisions with files already present in the folder: a target name may be that of another listed image, which `Path.rename` would overwrite. Pages.TargetNamesDistinct covers only two images given the same target.
- Pipeline.ProcessArchive takes the new file's stem to be the issue file name. It compares the full paths where the source compares paths relative to the collection folder; both are rooted there.
- The publisher of a volume is assumed present.
- Dates are whole days.
- Four behaviours of the code that the model keeps as written:
  - An extraction failure returns from the whole run (`return` at perdoo/__main__.py:231), not only from that archive.
  - The rename skip test compares with the "_" name although files are renamed to the "-" name. A later run renames again every image it brought to the "-" form; images already in the "_" form are left alone.
  - Three-digit padding applies only to the plain comic format. Every other format, including unrecognised ones, pads to two digits.
  - In `convert_collection`, an unsupported file raises out of the run rather than being skipped; Archives.ConvertCollection stops there and reports the file (Pipeline.Start does not capture this, see above).
- Pages.RenameNamesStable assumes the second pass lists the images in the first pass's positional order. A real second run re-extracts the archive and lists the folder again, and that listing may order the "-" and "_" names differently (for example by name, where "-" sorts before "_"). In that case images may change position, and the model does not promise the same names.
- ComicvineService.SeriesOptions sorts a volume without a start year before a same-named volume with one. Python raises a TypeError when it compares None with an int in the `(name, start_year)` key, and only ServiceError is caught, so the source's run would stop there.
- ComicvineService.SeriesOrder is the total order on the `(name, start year)` key extended to a missing start year, which Python cannot compare with a present one; see the line above.
- Filenames.GenerateFilename keeps every segment in the path. pathlib drops an empty segment and collapses ".", so when `sanitize` returns "" or "." for the publisher title or the series name, the source's file sits one level higher than the model's target, and `Pipeline.ProcessArchive`'s move test may then differ.
