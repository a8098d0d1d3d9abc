# A verified model of the CMS

This project models the parts of the CMS where a mistake would be hard to see: the publishing protocol with its lock
and its background workers, the content pipeline from a block type schema to the files of a site, and the ordered
content store with the browser's copy of it. The database, the cache, the disk and the clock are state in memory; one
SQL statement, one cache operation or one file write is one step. `dafny verify dfyconfig.toml` checks the whole project.

**Publishing.** `PublishProtocol` is a state machine in which any number of StartPublish callers and workers interleave
with clock ticks, cache sweeps, edits, other users of the cache, lost database writes, failed pushes and panics. Over
all its runs:

- `PublishExclusion`: one lock holder per website, each deleting only its own entry, provided every holder ends within
  the lock's lifetime; the hypothesis is necessary, at the exact moment it stops holding.
- `PublishLifecycle`: a deployment's status never goes back, final states are final, `fail` runs at most once and
  `completed_at` is set exactly in final states. A worker's row ends non-final exactly when the write of `fail` was lost.
- `PublishSafety`, `PublishTheorems`: after a worker the site directory is what it was or the complete site of its
  snapshot; the destructive rebuild cannot fail after the temporary build succeeded; a rollback reproduces the files of
  its target. A failed push leaves the *new* site in place although the deployment is marked failed.
- `Publisher` holds the same protocol as a class whose methods follow the program text; each is proved to be a run of
  the machine, besides its own result.
- `Cache` refines a TTL map that never deletes; `RateLimit` bounds the admitted hits over whole traces.

**Content.** `Schema` gives the validator a declarative meaning, `Normalize` the normaliser, `Render` the renderer,
`MediaClosure` the collector, and the lemmas say how the four walks over one tree agree. `Site` is the generator as a
map of files, `Generator` its loops and directories, `Sitemap` and `Slug` the string languages it relies on. `Display`
and `SiteDisplay` say what a block, a page and a site show, section by section and path by path and without the loops;
`FileServer` puts the published directories behind the file server and follows the links.

**Store.** `Ordered` says what sorting by `sort_order, created_at` lists and how inserts, deletes and reorders act on
listings. `Handlers` has the request handlers, `Builder` the page builder calling them. `ContentProtocol` is the same
set of handlers as a machine of single statements with any number of requests in flight; every method of
`Handlers.Server` ensures that it is a run of that machine (`HandlerRuns`, and `SnapshotRuns` for snapshots).
`ContentInvariant` and `ContentTheorems` say what survives every interleaving, `Retirement` when an archived block type
is gone for good, `Tenancy` that tenants keep to themselves. `Starter` has the library every tenant begins with.
`Migrations` treats the migration loop, `Tokens` the refresh-token table with each handler as one step, `Rotation` the
same table statement by statement.

## Where the code does less than it says

- A dragged card that moves *down* lands one place above the drop indicator: the index already skips the dragged card,
  and the drop subtracts one more (`Builder.DropLandsAtIndicator` has the exact condition).
- The comment on archiving a block type says pages never reference a missing schema. The usage count and the update are
  two statements: a create that has read the schema can insert after the archive. The promise holds if and only if, when
  the update runs, no section uses the type and no such create is pending (`Retirement.ArchiveRetires`). Otherwise an
  update of that section is stored unnormalised, and a snapshot that had read the type before the archive has a page and
  fails to build (`ContentTheorems.ArchiveBreaksSnapshot`). While the block types of a snapshot are all still active, it
  builds exactly when it has a page (`ContentTheorems.ActiveTypesBuild`).
- An update cannot tell a failed schema query from an archived type, and stores the content as it came
  (`ContentTheorems.MisreadUpdate`, `Handlers.Server.UpdateSection`).
- A password change reports success even when revoking the user's refresh tokens failed
  (`Tokens.NoneAfterPasswordChange`).
- The revoking statement of a refresh does not ask whether the token was revoked meanwhile, so two refreshes of one token
  can leave two live tokens (`Rotation.TwoForOne`).
- A password change means to force a new login everywhere. A login that was admitted with the old password, or a refresh
  that had selected its token, inserts a live token after it (`Rotation.OldPasswordOutlivesChange`). The user is logged
  out for good if and only if neither is between its statements when the tokens are revoked
  (`Rotation.PasswordChangeLogsOut`).
- Two workers of one website run at once as soon as one outlives the lock (`PublishExclusion.OverstayBreaksExclusion`).
- The website's default SEO title is never used, because the choice before it is never empty
  (`Site.SeoTitleIsFirstChoice`).
- A raw "alignment" key is honoured even when the schema has no such field, so normalising can change the alignment
  (`Render.NormalizingKeepsRendering` has the exact condition).

## Model

| member | source | states |
|---|---|---|
| PublishExclusion.MutualExclusion | internal/publish/publisher.go:51-77 | in every timely run, at most one holder per website, each owns the live lock entry, and a lock is live exactly while the website has a holder |
| PublishExclusion.RunKeepsLocks | internal/publish/publisher.go:51-77 | the lock invariant is kept by every interleaving of callers, workers, ticks, sweeps and other cache users |
| PublishExclusion.ReleaseRemovesOwnEntry | internal/publish/publisher.go:70 | the deferred Delete removes the entry this holder put there and no other |
| PublishExclusion.OverstayBreaksExclusion | internal/publish/publisher.go:53-55 | a second publish of a website is kept out if and only if the holder is still within the lock's lifetime |
| PublishExclusion.OverstayedDeleteRemovesForeignLock | internal/publish/publisher.go:70 | once a holder overstayed, its Delete removes the lock of the worker that joined it |
| PublishLifecycle.DeploymentLifecycle | internal/publish/publisher.go:81-136 | along every run ranks never fall, final rows never change, fail runs at most once, completed_at marks exactly the final rows, and a finished worker's row is final unless fail's write was lost |
| PublishLifecycle.InitialLife | internal/publish/publisher.go:51-67 | the life invariant holds before any publish, so the lifecycle holds of every run from there |
| PublishLifecycle.ActionKeepsRow | internal/publish/publisher.go:210-226 | each action of a worker keeps the facts about its own row, the status bound of its program point included |
| PublishSafety.RunKeepsSafe | internal/publish/publisher.go:81-118 | locks, life cycle and site directories stay safe over every timely run, and stored snapshots never change |
| PublishSafety.AttemptOfBuildable | internal/generator/generator.go:83-86 | whether a generator call completes depends on the snapshot alone, not on directory, base path or year |
| PublishSafety.WritingKeepsSite | internal/generator/generator.go:156-198 | file by file, the site directory holds exactly the writes of the running build so far |
| PublishTheorems.PublishedSiteSafety | internal/publish/publisher.go:101-118 | a finished worker leaves the old site or the complete site of its snapshot, the latter whenever it succeeded; an idle website shows a whole site |
| PublishTheorems.IdleSitesAreServed | internal/publish/publisher.go:113-118 | at every moment of every timely run, the file server has of a website nobody is publishing nothing or the complete site of a stored snapshot, with its pages, links and stylesheet working there |
| PublishTheorems.SiteBuildNeverFails | internal/publish/publisher.go:101-118 | after the temporary build succeeded, no step of the rebuild can fail |
| PublishTheorems.FailedPushLeavesNewSite | internal/publish/publisher.go:120-123 | a failed push ends in a failed deployment with the new site in place |
| PublishTheorems.RollbackReproduces | internal/httpapi/handlers_publish.go:126-145 | an accepted rollback that succeeds produces, in the same year, exactly the files its target produced, whatever ran before, between and during |
| PublishTheorems.Reproduced | internal/publish/publisher.go:88-98 | two successful deployments of one snapshot on one website in one year have the same files |
| PublishTheorems.RunTracks | internal/httpapi/handlers_publish.go:126-145 | a deployment never changes its website or snapshot |
| Publisher.Service.StartPublish | internal/publish/publisher.go:51-79 | the caller's steps are a run of the machine; a live lock refuses, a failed insert releases the lock, and an accepted publish has a queued row of its website and snapshot |
| Publisher.Service.HandlePublish | internal/httpapi/handlers_publish.go:16-60 | a foreign website, a snapshot that cannot be read or saved and a website without visible pages change nothing; otherwise the snapshot of the draft is stored before the lock is tried, the answer matches the machine's step, and an accepted publish is a queued row of just that snapshot |
| Publisher.Service.HandleRollback | internal/httpapi/handlers_publish.go:126-157 | only succeeded deployments of the tenant can be rolled back to; an accepted rollback is a queued row of the target's website and snapshot |
| Publisher.Service.SetStatus | internal/publish/publisher.go:210-226 | a status write gives one row the status, and completed_at if it is succeeded or failed; a lost write changes nothing |
| Publisher.Service.BuildTemp | internal/publish/publisher.go:103-111 | the temporary build succeeds exactly when the directory can be made and the snapshot is buildable |
| Publisher.Service.BuildSite | internal/publish/publisher.go:116-118 | the rebuild of the site directory is a run of single file writes; it stores the complete site for the base path "/sites/" followed by the website id |
| Publisher.Service.Push | internal/publish/publisher.go:120-126 | only when GitHub is configured is the push tried, after the row was set to deploying |
| Publisher.Service.Begin | internal/publish/publisher.go:88 | the row is set to building unless the write is lost, and the worker goes on |
| Publisher.Service.RecordSuccess | internal/publish/publisher.go:128-135 | the row is set to succeeded and completed, or the write fails and the worker does |
| Publisher.Service.Fail | internal/publish/publisher.go:217-226 | the row is set to failed and completed unless the write is lost |
| Publisher.LockSays | internal/publish/publisher.go:30-55 | the lock of a website is the entry "deploylock:" with its id, lasts fifteen minutes, and a live one leaves everything as it is |
| Publisher.Service.Run | internal/publish/publisher.go:81-136 | run succeeds exactly when every call it depends on does, and the site is replaced exactly when the snapshot loads and builds |
| Publisher.Service.Worker | internal/publish/publisher.go:69-77 | undisturbed, a worker leaves the old site or the complete new one, which then works where it is served; it releases its lock, and ends in a final state unless fail's write is lost |
| Publisher.SiteWritesRun | internal/generator/generator.go:156-198 | writing the remaining files one step at a time reaches the complete directory |
| Cache.CacheRefinesTtlMap | internal/cache/cache.go:88-152 | for every operation sequence at non-decreasing times the cache answers like a TTL map that never deletes |
| Cache.SweepsAreInvisible | internal/cache/cache.go:88-99 | two runs that differ only in where the janitor sweeps give the same answers |
| Cache.StepRefines | internal/cache/cache.go:101-152 | each operation answers and changes the live entries as on the TTL map |
| Cache.MemCache.Fetch | internal/cache/cache.go:101-108 | only live entries are returned, and only an expired entry of this key is dropped |
| Cache.MemCache.Get | internal/cache/cache.go:110-115 | the call is the Get step: a live entry is read, an expired one dropped |
| Cache.MemCache.Set | internal/cache/cache.go:117-121 | the call is the Set step: the entry lives until its time is up |
| Cache.MemCache.Delete | internal/cache/cache.go:123-127 | the call is the Delete step: just this key goes |
| Cache.MemCache.SetNX | internal/cache/cache.go:129-137 | the call is the SetNX step: it stores exactly when no live entry is there |
| Cache.MemCache.Incr | internal/cache/cache.go:139-152 | the call is the Incr step: a live counter goes up by one and keeps its expiry, otherwise a new one starts at 1 |
| Cache.MemCache.SweepExpired | internal/cache/cache.go:88-99 | the loop removes exactly the expired entries |
| Counters.CounterRoundTrip | internal/cache/cache.go:139-152 | every int64 survives being stored as decimal text |
| RateLimit.RateLimitBound | internal/httpapi/middleware.go:110-114 | over any run, a closed interval as long as n windows admits at most (n+1) * max hits of a key |
| RateLimit.WindowStep | internal/cache/cache.go:139-152 | a hit counts in the open window or opens a new one strictly after its end; it is admitted exactly while the count is below max |
| RateLimit.WindowBound | internal/httpapi/middleware.go:110-114 | hits left in the open window plus max for each window that can still open bound what is admitted |
| RateLimit.RateLimit | internal/httpapi/middleware.go:110-114 | the call is one Incr of the prefixed key and admits exactly as the trace function counts |
| Schema.FaultlessIffValid | internal/models/sectiontypes.go:66-125 | the validator accepts exactly the schemas that are valid declaratively |
| Schema.FieldsFaultless | internal/models/sectiontypes.go:85-125 | no fault is found exactly when all fields are well formed, keys are distinct and none was seen before |
| Schema.ValidateField | internal/models/sectiontypes.go:85-125 | the method finds the first fault and records the key in the shared set |
| Schema.ValidateSchema | internal/models/sectiontypes.go:66-83 | the loop accepts exactly the valid schemas and otherwise names the first fault |
| Schema.FaultExplains | internal/models/sectiontypes.go:66-125 | the fault named is that of the first field that has one, the fields before it being good, and the first that this field has in the order of the checks |
| Schema.ValidSchemaHasUniqueKeys | internal/models/sectiontypes.go:66-125 | an accepted schema has distinct keys at the top and in every list |
| Normalize.NormalizeMap | internal/models/sectiontypes.go:138-166 | the loops and the recursion compute the specification |
| Normalize.NormalizeContent | internal/models/sectiontypes.go:128-136 | exactly the documents that are not an object, null or empty are refused |
| Normalize.NormalizedAt | internal/models/sectiontypes.go:138-166 | each key holds what the last content-storing field of that key makes of the raw value, and no other key is kept |
| Normalize.NormalizedIffStored | internal/models/sectiontypes.go:138-166 | an object is the normalised one if and only if each key some field decides is in it exactly when it was sent, a button with its two texts, a list with one object for each entry, anything else as it was sent |
| Normalize.ConformsIffFixed | internal/models/sectiontypes.go:138-166 | the fixed points are exactly the objects that conform to the schema at every level |
| Normalize.NormalizedConforms | internal/models/sectiontypes.go:138-166 | every result conforms, list items included |
| Normalize.Idempotent | internal/models/sectiontypes.go:138-166 | normalising twice is normalising once, for every schema |
| Normalize.AbsorbsIffCovers | internal/models/sectiontypes.go:138-166 | the exact condition under which an earlier normalisation by another schema leaves no trace |
| Normalize.NarrowingAbsorbs | internal/models/sectiontypes.go:128-166 | after fields are removed at any depth, having normalised by the old schema does not matter |
| Normalize.NarrowingNeedsUniqueKeys | internal/models/sectiontypes.go:138-166 | with duplicate keys that is false, by a concrete schema and content |
| Render.BuildItem | internal/generator/generator.go:277-320 | the loop computes the fold, which Display.ItemDisplays describes field by field |
| Render.BuildFields | internal/generator/generator.go:223-270 | the field loop of buildBlock computes the fold, which Display.BlockDisplays describes field by field |
| Render.BuildBlock | internal/generator/generator.go:203-272 | the loops compute the block, or the refusal, that Display.BlockDisplays describes |
| Display.ItemDisplays | internal/generator/generator.go:277-320 | a list item shows, in schema order, exactly the non-empty texts, known images and complete buttons of its entry: the first heading or text is the summary of an accordion entry and the title elsewhere, later ones are texts, all of them captions in a gallery |
| Display.ListDisplays | internal/generator/generator.go:253-267 | a list shows exactly the entries with something to show, in order, and none exactly when there is none |
| Display.BlockDisplays | internal/generator/generator.go:203-272 | a block exists exactly when the content is empty, null or an object; variant, alignment and background are those of layout and content, a banner's first image is its background, and the fields are, in schema order and component by component, those whose content has something to show |
| Render.AgreeingBlocks | internal/generator/generator.go:203-320 | contents that read alike at every schema field render alike |
| Render.NormalizingKeepsRendering | internal/generator/generator.go:203-320 | normalised content renders like the raw one; only the alignment may differ, and the two blocks are equal if and only if the alignment is kept |
| Render.NormalizingKeepsBlocks | internal/models/sectiontypes.go:128-166 | the same for stored documents, with both paths refusing the same ones |
| Render.RenderingNeedsUniqueKeys | internal/generator/generator.go:203-272 | with duplicate keys rendering can change, by a concrete schema and content |
| MediaClosure.CollectMediaIDs | internal/models/sectiontypes.go:170-198 | the nested loops collect exactly the specified set |
| MediaClosure.CollectItem | internal/models/sectiontypes.go:184-194 | the innermost loop collects exactly the image ids of one item |
| MediaClosure.BlockClosed | internal/generator/generator.go:203-320 | media tables that agree on the collected ids and the empty id build the same fields |
| MediaClosure.CollectedIsEnough | internal/models/sectiontypes.go:170-198 | restricting the media to the collected ids does not change the block |
| MediaClosure.CollectedIffObservable | internal/models/sectiontypes.go:170-198 | an id is collected exactly when adding its file to an empty table changes the block |
| Site.BuildsIffBuildable | internal/generator/generator.go:83-198 | a build succeeds exactly when there is a page and every section of a known type decodes |
| Generator.Disk.Generate | internal/generator/generator.go:83-198 | no page leaves the directory alone; success leaves the complete file map, in which each page file shows its page as PageDisplays says; failure leaves the pages before the first bad one, whose error names it |
| Generator.WritePages | internal/generator/generator.go:147-182 | the page loop writes the pages in order and stops at the first undecodable section |
| Site.SeoTitleIsFirstChoice | internal/generator/generator.go:151 | the page's title text is the source's first non-empty choice, and the third choice is never reached |
| Generator.RenderPage | internal/generator/generator.go:147-167 | the page shows one block for each section of a known type, in order, built from that section; or the error names the first such section that holds no object |
| SiteDisplay.PageDisplays | internal/generator/generator.go:147-167 | there is one block for each section of a known type, the k-th block being built from the k-th of them; titles, description and canonical URL are the page's or their defaults; or the first undecodable section is named |
| SiteDisplay.SiteDisplays | internal/generator/generator.go:132-198 | a build leaves, under "index.html" or the slug and "/index.html", a file for each page that shows it, the stylesheet, a sitemap of the pages in lexical order, the robots file, and nothing else |
| SiteDisplay.FailureDisplays | internal/generator/generator.go:147-182 | a build that stops leaves just the files of the pages before the first page with an undecodable section |
| SiteDisplay.BuildableIffDecodable | internal/generator/generator.go:83-86 | buildable are the snapshots with a page in which every section of a known type is empty, null or an object |
| FileServer.PublishedSiteIsBrowsable | internal/httpapi/server.go:121-122 | in a site built for "/sites/" and its id, the file server finds each page under its address, the page each navigation entry names behind its link, and the stylesheet of every page; the root exactly when a page is called home |
| FileServer.ServedBelow | internal/httpapi/server.go:121-122 | the first segment of the path selects the website's directory and the rest names a file in it |
| Generator.BuildSiteData | internal/generator/generator.go:132-145 | logo, default colour, base path without trailing slashes and one navigation entry per page, each said outright |
| Generator.BuildFiles | internal/generator/generator.go:132-198 | all writes after clearing: the complete map or the pages before the failure |
| Generator.WriteFixed | internal/generator/generator.go:184-198 | the three files every site has |
| SiteProperties.OutputMap | internal/generator/generator.go:143-198 | exactly one file per page plus three, each page's own view under its own path, no file below another |
| SiteProperties.NavResolves | internal/generator/generator.go:143-145 | every navigation link, its base path removed, leads to the page file with that title |
| SiteProperties.PagePathIsInjective | internal/generator/generator.go:350-355 | valid slugs with one path are one slug |
| SiteProperties.EmbeddedMediaIsEnough | internal/publish/snapshot.go:123-146 | a snapshot that embeds the images of its site builds the same site as with the whole media table |
| Sitemap.OrderLeavesNoTrace | internal/generator/generator.go:322-340 | any permutation of the pages gives the identical document, whatever the slugs |
| Sitemap.DocumentIffSamePages | internal/generator/generator.go:322-340 | for valid slugs, two sitemaps of one domain are the same text exactly when the pages are the same multiset |
| Sitemap.EntriesDetermine | internal/generator/generator.go:335-337 | the entry lines determine the slugs, in order and number |
| Sitemap.WriteEntries | internal/generator/generator.go:335-337 | the loop writes one entry per slug in the given order |
| Sitemap.WriteSitemap | internal/generator/generator.go:322-340 | the document is the head, one line for each page with the slugs in lexical order, and the foot |
| Sitemap.LeqIsLexical | internal/generator/generator.go:334 | the order puts one string before another exactly when it is a prefix of it or smaller at the first character that differs |
| Sitemap.SortedIsLexical | internal/generator/generator.go:334 | sorting gives the same strings in lexical order |
| Sitemap.LineSays | internal/generator/generator.go:335-337 | a line is the URL of one page: the domain, if there is one, and the root or the slug |
| Sitemap.SortedIsSorted | internal/generator/generator.go:330-334 | sorting yields an ordered permutation |
| Sitemap.SortedIsUnique | internal/generator/generator.go:330-334 | an ordered permutation is unique, so the order of the pages does not matter |
| Sitemap.PageHrefIsInjective | internal/generator/generator.go:343-348 | non-empty slugs with one URL path are one slug |
| Slug.MatchesIffShaped | internal/httpapi/helpers.go:50 | the slug expression matches exactly the strings of letters and digits with single inner hyphens |
| Slug.SluggedIsSlug | internal/publish/publisher.go:235-239 | the slug step yields nothing or a word of the slug language, for every name |
| Slug.SluggedFixes | internal/publish/publisher.go:235-239 | its fixed points are exactly the slug language and the empty string |
| Slug.SluggedTwice | internal/publish/publisher.go:235-239 | the slug step is idempotent |
| Slug.SluggedJoinsWords | internal/publish/publisher.go:235-239 | the slug of a name is its words, the longest runs of letters and digits, in order and with one hyphen between two of them |
| Slug.WordsExist | internal/publish/publisher.go:235-239 | every name has such words |
| Slug.RepoNameSays | internal/publish/publisher.go:238-251 | a repository is called by the prefix, at most forty characters of the words of the name or "site", and the first eight digits of the id |
| Slug.RepoNameIsSafe | internal/publish/publisher.go:238-251 | for lower-case UUIDs the name has at most 58 characters, all of them letters, digits or hyphens |
| Slug.RepoNamesDiffer | internal/publish/publisher.go:238-251 | ids that differ in their first eight digits give different names, whatever the websites are called |
| Ordered.ListingIsUnique | internal/httpapi/handlers_pages.go:199 | rows that differ in order or creation time leave only one listing |
| Ordered.CreateAppends | internal/httpapi/handlers_pages.go:243-248 | with sort_order MAX+1 the new row is last in every listing, and the listings are the old ones with it appended |
| Ordered.DeleteErases | internal/httpapi/handlers_pages.go:316-331 | a listing stays one when the row is erased from table and listing |
| Ordered.ReorderLists | internal/httpapi/handlers_pages.go:333-351 | a reorder naming each row once leaves exactly one listing: the request without the foreign ids |
| Ordered.ReorderElsewhere | internal/httpapi/handlers_pages.go:342-345 | listings of other pages and tenants are untouched |
| Ordered.VisibleListing | internal/publish/snapshot.go:96-99 | the snapshot's listing is the full one without the hidden rows |
| Queries.OrderBy | internal/httpapi/handlers_pages.go:199 | a listing in order, each row once, ties in any order |
| Queries.NextOrder | internal/httpapi/handlers_pages.go:246 | one more than the largest sort_order of the parent, or zero |
| Content.TypeStays | internal/httpapi/handlers_sectiontypes.go:150-184 | as types advance, a known type stays known and an archived one is never active again |
| Content.InsertTypeAdvances | internal/httpapi/handlers_sectiontypes.go:87-91 | an insert that meets no unique violation keeps types valid and unique and revives none |
| Content.ArchiveTypeAdvances | internal/httpapi/handlers_sectiontypes.go:176-178 | an archive keeps types valid and unique and revives none |
| Content.DeletePageErases | internal/httpapi/handlers_pages.go:139-154 | deleting a page erases it from its listing, empties its own sections and leaves those of every other page |
| Content.PatchKeepsPages | internal/httpapi/handlers_pages.go:114-124 | a patch that meets no unique violation keeps slugs valid and unique |
| Handlers.Renumber | internal/httpapi/handlers_pages.go:342-345 | named rows of the parent get the position of one of their mentions, all else stays |
| Handlers.Server.ListPages | internal/httpapi/handlers_pages.go:33-52 | the rows of a listing, in its order |
| Handlers.Server.CreatePage | internal/httpapi/handlers_pages.go:54-93 | the outcome by case; a created page has a valid free slug and is appended to the listing |
| Handlers.Server.UpdatePage | internal/httpapi/handlers_pages.go:95-137 | the outcome by case; each field is the one sent, or stays when none was, and every listing stays |
| Handlers.Server.DeletePage | internal/httpapi/handlers_pages.go:139-154 | the page and exactly its sections go, and listings lose just that page |
| Handlers.Server.ReorderPages | internal/httpapi/handlers_pages.go:156-175 | a complete request becomes the listing, other websites are untouched, an empty one is refused |
| Handlers.Server.ListSections | internal/httpapi/handlers_pages.go:197-216 | the rows of a listing, in its order |
| Handlers.Server.SectionTypeFields | internal/httpapi/handlers_sectiontypes.go:186-202 | the schema of the active type, or none when there is none or the query failed |
| Handlers.Server.CreateSection | internal/httpapi/handlers_pages.go:218-256 | the outcome by case; a created section holds the normalised object of an active type and is appended |
| Handlers.Server.UpdateSection | internal/httpapi/handlers_pages.go:258-314 | the outcome and the stored content by case; the store stays valid if and only if no failed schema query lets in something other than an object |
| Handlers.Server.DeleteSection | internal/httpapi/handlers_pages.go:316-331 | one row goes, and listings lose just that row |
| Handlers.Server.ReorderSections | internal/httpapi/handlers_pages.go:333-351 | a complete request becomes the listing, other pages are untouched, an empty one is refused |
| Handlers.Server.CreateSectionType | internal/httpapi/handlers_sectiontypes.go:63-104 | refused exactly for a bad key, label or schema or a taken key; otherwise the row is as sent, active, under its trimmed label |
| Handlers.TrimSpaceTrims | internal/httpapi/handlers_sectiontypes.go:91 | a label or title is stored without the spaces at its two ends and otherwise as sent |
| ContentProtocol.HyphenedAt | internal/httpapi/handlers_sectiontypes.go:69 | the key is checked as a slug with each underscore as a hyphen |
| Handlers.Server.UpdateSectionType | internal/httpapi/handlers_sectiontypes.go:106-146 | only active types of the tenant change, to the schema sent, which is valid, and nothing else of the row |
| Handlers.Server.ArchiveSectionType | internal/httpapi/handlers_sectiontypes.go:148-184 | refused exactly while a section uses the type; undisturbed, none is left behind |
| Handlers.Server.SeedSectionTypes | internal/db/seed.go:14-35 | existing types are untouched, every new row is a type of the library, active and under its own new id, and a key has a type exactly when it had one or is in the library |
| Handlers.Server.SeedTenant | internal/db/seed.go:14-35 | the same for the library every tenant begins with |
| Starter.LibraryIsGood | internal/models/sectiontypes.go:200-267 | the nine block types of the library pass every check of the create handler |
| Starter.LibraryKeys | internal/models/sectiontypes.go:202-267 | the nine keys, in their order |
| HandlerRuns.CreateSectionRuns | internal/httpapi/handlers_pages.go:218-256 | the three statements of a create lead the machine to the database with the new row |
| HandlerRuns.UpdateSectionRuns | internal/httpapi/handlers_pages.go:258-314 | the statements of an update, with or without content and whatever the schema query finds, lead to the stored row |
| HandlerRuns.ArchiveRuns | internal/httpapi/handlers_sectiontypes.go:150-184 | the three statements of an archive lead to the archived type |
| HandlerRuns.StatementRuns | internal/httpapi/handlers_pages.go:139-175 | a handler of one statement is one step of the machine |
| ContentInvariant.RunKeepsSound | internal/httpapi/handlers_pages.go:218-314 | over every interleaving without a failed schema query, sections keep a type row of their tenant, active types hold objects, schemas are valid, slugs valid and unique, and no type comes back from the archive |
| ContentInvariant.StoreStaysSound | internal/httpapi/handlers_sectiontypes.go:150-184 | the same from the empty database, pending requests and returned snapshots included |
| ContentInvariant.RequestStaysOk | internal/httpapi/handlers_pages.go:258-300 | what a request learned from its last statement still holds after any other statement |
| ContentInvariant.SchemaReadOk | internal/httpapi/handlers_pages.go:286-296 | content leaves the schema query normalised, or as it is for a type that is archived |
| ContentInvariant.SectionsReadOk | internal/publish/snapshot.go:95-121 | sections collected by a running snapshot hold objects unless their type was archived meanwhile |
| ContentTheorems.ReturnedSnapshots | internal/publish/snapshot.go:17-148 | whatever ran in between, a returned snapshot has valid distinct slugs, renders as with the whole media table, and fails to build only without pages or for a type archived since it began |
| ContentTheorems.ActiveTypesBuild | internal/publish/snapshot.go:17-148 | while no block type that its sections use has been archived, a returned snapshot builds if and only if it has a page |
| ContentTheorems.QuietSnapshots | internal/publish/snapshot.go:17-148 | a snapshot of one state builds if and only if some page is visible |
| ContentTheorems.ArchiveBreaksSnapshot | internal/httpapi/handlers_sectiontypes.go:148-184 | for every site, page and block type there is a run, all queries answered, that leaves a section of an archived type and returns a snapshot with a page and just this block type that does not build |
| Retirement.ArchiveRetires | internal/httpapi/handlers_sectiontypes.go:148-184 | after the archive's update no section ever uses the type in any clean continuation, if and only if none uses it now and no create of one is pending on an existing page |
| Retirement.RunKeepsRetired | internal/httpapi/handlers_sectiontypes.go:148-184 | a type that is archived, unused and not about to be used stays so over every clean run |
| Retirement.PendingInsertIsUsed | internal/httpapi/handlers_pages.go:243-249 | a create that has read the schema of an existing page's block can always still insert |
| Tenancy.RunKeepsPlaced | internal/httpapi/handlers_pages.go:189-256 | over every run each section lies on an existing page of its own tenant, and a pending create is about a page of its tenant |
| Tenancy.InitialIsPlaced | internal/db/migrations/001_init.sql:49-80 | the empty store meets that condition |
| Tenancy.TenantsAreIsolated | internal/httpapi/handlers_pages.go:95-351 | over every run in which a tenant does nothing, its pages, sections and block types stay as they are, whatever the others do |
| Tenancy.DeletePageIsolates | internal/db/migrations/001_init.sql:70-74 | deleting a page, which cascades without asking for the tenant, touches no other tenant's sections |
| ContentTheorems.MisreadUpdate | internal/httpapi/handlers_pages.go:286-296 | after a schema query that found nothing, the section keeps its promise if and only if the type is archived or the content is an object |
| SnapshotBuilder.SnapshotBuilds | internal/publish/snapshot.go:17-148 | in a sound store a snapshot builds exactly when a page is visible, has good slugs, and loses no media |
| SnapshotBuilder.BuildSnapshot | internal/publish/snapshot.go:17-148 | the loops return the visible pages and sections in order, the active schemas and just the media named; an id that is no UUID fails the whole snapshot |
| SnapshotRuns.SnapshotIsReturned | internal/publish/snapshot.go:17-148 | with nothing in between, the queries of a snapshot request can return every snapshot of the store as it is |
| SnapshotBuilder.ActiveBlocks | internal/publish/snapshot.go:27-49 | the active types of the tenant by key |
| SnapshotBuilder.ReadPage | internal/publish/snapshot.go:95-121 | one page with its visible sections in order and the media they reference |
| SnapshotBuilder.ReadPages | internal/publish/snapshot.go:64-121 | the visible pages in order, and the images of the whole site with the logo |
| SnapshotBuilder.ReadMedia | internal/publish/snapshot.go:123-146 | exactly the tenant's rows named, or an error when an id cannot be cast |
| Builder.Canvas.constructor | web/admin/app.js:552 | the builder opens in step with the server |
| Builder.Canvas.Drop | web/admin/app.js:688-711 | the card moves to the indicator, one place above it when it moves down, and the others keep their order; server and browser stay in step, a failed call changes neither, and no other table is touched |
| Builder.DropMovesOneCard | web/admin/app.js:700-702 | index by index, a drop moves one card and leaves the others in their order |
| Builder.Canvas.AddBlock | web/admin/app.js:715-735 | a created block is at its index, or last when only the reorder failed, and the others keep their order; in step either way |
| Builder.Canvas.Append | web/admin/app.js:715-721 | the block is created exactly when the call gets through and the server finds page and type, and then pushed |
| Builder.Canvas.Reorder | web/admin/app.js:703-709 | after the call the permutation is the listing, and the rows are told apart by their order |
| Builder.Canvas.SettledIsOnlyListing | internal/httpapi/handlers_pages.go:199-202 | when no two rows tie in both sort keys, the cards are the only listing the server can give |
| Builder.Canvas.DeleteBlock | web/admin/app.js:778-787 | exactly that row and that card go and the other cards keep their order, in step, or nothing when the call fails |
| Builder.Canvas.ToggleBlock | web/admin/app.js:768-777 | exactly the visibility of that row becomes the one asked for, and the order stays |
| Builder.Canvas.NextSnapshot | internal/publish/snapshot.go:96-99 | when no two rows tie in both sort keys, the next snapshot's page lists the visible cards in the order of the canvas |
| Builder.DropPermutes | web/admin/app.js:700-702 | every drop is a permutation of the cards |
| Builder.DropLandsAtIndicator | web/admin/app.js:666-702 | a drop lands at the indicator if and only if it is not below the card's old place; otherwise one place above it |
| Builder.SortByIndex | web/admin/app.js:707 | sorting the cards by their position in a permutation gives that permutation |
| Builder.MovePage | web/admin/app.js:395-403 | an arrow exchanges two neighbours and leaves the other pages in place, and that is the only listing |
| Migrations.MigrationsApplyOnce | internal/db/db.go:34-83 | over any number of interleaved runs stopping anywhere, each file commits at most once, the recorded names are a prefix of the files in lexical order, and a run that returned nil left none out |
| Migrations.RunKeepsSound | internal/db/db.go:54-81 | recorded names only grow and no run is ahead of them |
| Migrations.Database.Migrate | internal/db/db.go:34-83 | undisturbed, the loop applies all files in lexical order exactly when no statement fails, and otherwise stops at the first failing file with all before it applied |
| Tokens.CleanupIsInvisible | cmd/server/main.go:113-119 | over any run every login and refresh is answered the same with and without the cleanup, and the live tokens agree at the end |
| Tokens.RefreshSwaps | internal/httpapi/handlers_auth.go:79-121 | a successful refresh swaps exactly one live token of its user for the new one |
| Tokens.SessionsBounded | internal/httpapi/handlers_auth.go:61-180 | a user never has more live tokens than logins since the last password change that revoked |
| Tokens.NoneAfterPasswordChange | internal/httpapi/handlers_auth.go:173-177 | after a password change the user has no live token if and only if the revocation ran or there was none |
| Rotation.RevokeConserves | internal/httpapi/handlers_auth.go:109-114 | a refresh keeps the number of live and about-to-be-issued tokens exactly when its token is still live at the revoking statement, and adds one otherwise |
| Rotation.LoginUndisturbed | internal/httpapi/handlers_auth.go:19-77 | with nothing in between, the statements of a login do what its handler does |
| Rotation.RefreshUndisturbed | internal/httpapi/handlers_auth.go:79-121 | the same for a refresh |
| Rotation.PasswordChangeUndisturbed | internal/httpapi/handlers_auth.go:141-180 | the same for a password change |
| Rotation.TokensAccounted | internal/httpapi/handlers_auth.go:19-121 | over every interleaving of statements, live tokens come from admitted logins and from refreshes whose token was spent in between |
| Rotation.TwoForOne | internal/httpapi/handlers_auth.go:79-121 | two refreshes that both select before either revokes turn one live token into two |
| Rotation.RunStaysLoggedOut | internal/httpapi/handlers_auth.go:19-121 | a user without live token, pending login or pending refresh has none until somebody gets past the password |
| Rotation.PasswordChangeLogsOut | internal/httpapi/handlers_auth.go:141-180 | the revoking statement of a password change logs its user out for good if and only if no login and no refresh of the user is between its statements |
| Rotation.OldPasswordOutlivesChange | internal/httpapi/handlers_auth.go:34-57 | a login admitted with the old password inserts a live token after the change is complete |
| Rotation.PendingComesBack | internal/httpapi/handlers_auth.go:79-121 | a login or refresh between its statements can always still insert a live token |
| Tokens.Store.IssueTokens | internal/httpapi/handlers_auth.go:61-77 | one new row that expires after the refresh lifetime, or none when the insert fails |
| Tokens.Store.HandleLogin | internal/httpapi/handlers_auth.go:19-59 | the call is the Login step: a wrong password, a disabled account and a failed insert issue nothing, otherwise there is one new token for thirty days |
| Tokens.Store.HandleRefresh | internal/httpapi/handlers_auth.go:79-121 | the call is the Refresh step: an expired, revoked or unknown token and a disabled account change nothing; otherwise the token is revoked and, unless the insert fails, a new one stored |
| Tokens.Store.HandleLogout | internal/httpapi/handlers_auth.go:123-139 | the call is the Logout step: the token is revoked if it was not |
| Tokens.Store.HandleChangePassword | internal/httpapi/handlers_auth.go:141-180 | the call is the ChangePassword step: exactly the unrevoked tokens of the user are revoked, if the password is right and the statement runs |
| Tokens.Store.CleanUp | cmd/server/main.go:113-119 | the statement is the Cleanup step: exactly the tokens that ran out or were revoked more than seven days ago go |

## Left out

- PublishExclusion.MutualExclusion: assumes every holder ends within the lock's lifetime, because the lock is deleted
  without an owner check and the generator ignores the worker's deadline; the lemmas beside it show what happens else.
- PublishTheorems.PublishedSiteSafety: file writes of the site rebuild do not fail and nothing outside the publisher
  writes to a site directory.
- Tokens.RefreshSwaps: here a handler is one step; what statements in between change is said in `Rotation`. The queries
  of the token handlers and the revocation of a logout do not fail.
- Tenancy.TenantsAreIsolated: websites and media are changed by steps of no tenant, and what a tenant may read is only
  said of snapshots and listings.
- Handlers.Server.ReorderSections: the ids of a request are already UUIDs; a string that is none makes the statement fail.
- Builder.Canvas.AddBlock: a call either gets through and its answer arrives, or it does nothing; one client works alone
  and waits for each answer.
- SnapshotBuilder.BuildSnapshot: the database's cast from text to UUID is a parameter that takes row ids to themselves.
- FileServer.PublishedSiteIsBrowsable: website ids are one segment of a URL path, as UUIDs are; redirects of the file
  server, directory listings and its clean-up of paths are not part of the model.
- Text of rendered pages, escaping, CSS and templates: a page file is its view model, in which the canonical URL is kept
  as its domain and path.
- JSON byte syntax, number precision and strings a jsonb column refuses: the model works on decoded values.
- Redis, PostgreSQL, S3, GitHub and Cloudflare themselves; a deployment there is a call that succeeds or fails. Rows that
  two transactions insert at the same instant are ordered by the one step each takes.
- Panics while the site directory is rewritten, panics in audit logging, and crashes of the process.
- Clean-up of file paths: a slug reaches the file system as the handlers accepted it.
- The 32-bit width of sort_order, which would need two thousand million inserts.
- Passwords, JWT, random tokens, roles, rate-limit keys of callers, configuration, media upload and storage.
- strings.ToLower is a per-character parameter of the repository name, and the year of a page footer is a parameter of
  the generator.
- Audit rows, error messages and timestamps that nothing here depends on.
- Preview builds and their expiry, which reuse the generator without the lock.
- Deleting tenants or users; websites have no deletion in the code.
- Values instead of records updated in place: database rows, cache entries and page data are values in maps that the
  methods reassign, so aliasing between rows is not modelled.
- The rest of web/admin/app.js: dialogs, forms, previews and the other tabs.
