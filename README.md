# tct-scrooper, modelled in Dafny

tct-scrooper scrapes realtor.ca listings for a set of sites and regions and stores what it finds. It turns each scraped listing into property, listing, event, price-point, link, agent, brokerage and media rows; a media worker uploads the queued photos; a health-check worker probes active listings and delists the ones that are gone; an enrichment worker fills in details from the listing page; a legacy path keeps a local SQLite history that is synced to Supabase.

This project models the sequential core of that pipeline and proves properties of it:

- **Property identity** (`identity.dfy`): address normalisation with the street-type table and the fingerprint built from address, beds, baths, floor area and type. The hash is a parameter.
- **Duplicate scoring** (`match.dfy`, and the legacy copy in `sqlite.dfy`): address prefixes, base addresses, the floor-area tolerance, and the confidence rules in hundredths.
- **The Postgres store** (`store.dfy`): a class holding one map per table, with the upsert, conflict and COALESCE rules of each statement. A set of failing operations models the error of each store call: an operation in the set fails every time it is used, so a failure part-way through a loop is not modelled.
- **Ingestion** (`listing.dfy`): `ProcessListing` with its property, listing, event, price-point, photo and realtor steps, `MarkDelisted`, and `ProcessStats.Aggregate`.
- **The media queue** (`media.dfy`, `mediaworker.dfy`, `trigger.dfy`): idempotent enqueue, storage-key derivation, dedup by key, the retry ceiling, and the one-slot trigger channel.
- **Health checks** (`healthcheck.dfy`): status-code classification, the fallback order of the probe methods, and the batch loop with its delist, reprice and touch paths. Probe results are inputs.
- **Run accounting** (`orchestrator.dfy`): the pause flag, the run counters, failure propagation, the legacy snapshot path, the sync to Supabase, and the command handler.
- **Legacy history** (`sqlite.dfy`, `supabase.dfy`): the local store's conflict rules, command parameters, resume pages, and the derivation of listed, delisted, relisted and price-change events from a snapshot sequence.
- **Raw-field parsers** (`apihandler.dfy`, `browserhandler.dfy`, `canadesk.dfy`, `scrapemind.dfy`, `apifyhelpers.dfy`, `realtorinfo.dfy`): digits, bedrooms, cities, postal codes, phones, photos, provinces, Incapsula detection, response parsing, pagination, and the browser's page bookkeeping.
- **Enrichment** (`enrichment.dfy`): the list, integer and photo extraction helpers, the Enrich outcome rule, the UPDATE merge rule and the attempt rule of the batch.
- **Connection-string masking** (`connstring.dfy`): the `maskConnectionString` helper of `main.go`.

Code that changes state in place is modelled by classes whose methods name what they modify. Their loops are proved against functions of the old state. Pure code is modelled as functions, with lemmas stating what the code promises.

Conventions:

- Time is an integer. Fresh UUIDs come from an `IdSource` or are chosen as ids the store does not hold.
- SHA-256 is a function passed in as a parameter.
- Prices are integers and confidences are hundredths.
- Strings are ASCII. `strings.TrimSpace` and `\s` mean ASCII white space.
- Go map iteration order is a fixed sequence: the street-replacement table and the configured sites.
- The source files disagree in places. Where they do, the model follows the call sites:
  - media rows carry the category, province and city that `storage/postgres.go` writes;
  - `Enqueue` takes the parameters its callers pass;
  - `GetMediaByS3Key` is a lookup of the media table by storage key.

## Model

| member | source | states |
|---|---|---|
| Identity.BlankNonAlnum | identity/fingerprint.go:62 | every character outside lower-case letters, digits and white space becomes one space; the length and every kept character are unchanged |
| Identity.RegexSpaceRun | identity/fingerprint.go:66 | the length of the leading white-space run that one `\s+` match covers |
| Identity.ApplyReplacementsKeeps | identity/fingerprint.go:63-65 | applying the street abbreviations never introduces a character outside letters, digits and spaces |
| Identity.CollapseSpacesShape | identity/fingerprint.go:66 | after collapsing, no two spaces are adjacent and every character is a lower-case letter, digit or space |
| Identity.TrimTidy | identity/fingerprint.go:67 | trimming collapsed text leaves no space at either end |
| Identity.NormalizeAddressIsNormalized | identity/fingerprint.go:60-68 | a normalised address is lower-case alphanumeric words separated by single spaces, with no space at either end |
| Identity.StreetReplacementsValid | identity/fingerprint.go:14-42 | every abbreviation table entry has a non-empty key and a value made of lower-case letters |
| Identity.ReplacementOrderMatters | identity/fingerprint.go:63-65 | two keys of the table overlap, so the normalised address depends on the order in which the map is iterated |
| Identity.StreetThenEast | identity/fingerprint.go:63-65 | one iteration order turns "eastreet" into "e" |
| Identity.EastThenStreet | identity/fingerprint.go:63-65 | the other order turns "eastreet" into "ereet" |
| Identity.HexEncode | identity/fingerprint.go:57 | two lower-case hex digits per byte |
| Identity.HexRoundTrip | identity/fingerprint.go:57 | hex decoding gives back the encoded bytes |
| Identity.Fingerprint | identity/fingerprint.go:47-58 | the fingerprint is 32 lower-case hex digits, from 16 bytes of the hash |
| Identity.FingerprintDependsOnlyOnIdentity | identity/fingerprint.go:47-58 | listings that agree on the normalised address, beds, baths, square footage and lower-cased type get the same fingerprint, whatever their other fields |
| Identity.BarInjective | identity/fingerprint.go:49 | a '\|'-free field can be read back off the front of a '\|'-joined pair |
| Identity.PreHashInjective | identity/fingerprint.go:49-55 | the five '\|'-joined components of the pre-hash string determine each other one-to-one |
| Identity.FingerprintInputInjective | identity/fingerprint.go:48-55 | equal pre-hash strings come only from listings with equal identity components |
| Identity.NoBarInNormalized | identity/fingerprint.go:60-68 | a normalised address contains no '\|' |
| Match.AbsInt | services/match.go:271-276 | the result is the value or its negation |
| Match.AddressPrefixTokens | services/match.go:207-213 | fewer than n tokens gives ""; otherwise the prefix splits back into exactly the first n tokens |
| Match.CutAtUnit | services/match.go:216-242 | the tokens before the first unit designator: a prefix of the input that holds none, stopped at one |
| Match.BaseTokensShape | services/match.go:216-242 | the base tokens are a unit-free prefix of the input; they drop at most one trailing numeric token, and only from a cut of four or more tokens |
| Match.BaseAddressFields | services/match.go:216-242 | the base address, split again, gives exactly the base tokens |
| Match.BaseAddressExample | services/match.go:216-242 | "12 main st unit 5" has base "12 main st" |
| Match.CloseSqFtSymmetric | services/match.go:256-269 | closeness of square footage does not depend on argument order |
| Match.CloseSqFtReflexive | services/match.go:256-269 | equal positive sizes are close; a non-positive size is close to nothing |
| Match.AttrCountBound | services/match.go:151-175 | at most three attribute reasons (beds, baths, square footage) |
| Match.WeakConfidence | services/match.go:177-186 | without an address reason a candidate is accepted exactly when postal code and type agree and two attributes are close, scoring 0.65 or 0.70, so the 0.85 cap is never reached |
| Match.StrongConfidence | services/match.go:188-203 | an exact address match scores within 0.90-0.95 and a base-address match within 0.75-0.90 |
| Match.WeakMatchRule | services/match.go:119-204 | the acceptance rule of the weak case, stated for the scorer of two properties |
| Match.ConfidenceBounds | services/match.go:119-204 | every accepted candidate scores between 0.65 and 0.95 |
| Match.AddressReasonFirst | services/match.go:127-137 | "same_address" and "same_base_address" never both appear, and whichever appears comes first |
| Match.OtherReasonsAreNotAddress | services/match.go:139-175 | no attribute reason is an address reason |
| Match.Accepted | services/match.go:84-113 | the accepted candidate rows: each is a scored row, and every row the scorer accepts is among them |
| Match.InsertPotentialMatches | services/match.go:39-116 | an empty address, or no postal code and fewer than two address tokens, inserts nothing; a failing query is an error; otherwise every accepted candidate gets a pending match and the count is the number accepted |
| Match.InsertScored | services/match.go:84-116 | the candidate loop: an insert failure is an error exactly when an accepted row exists; on success the count is the number accepted and every accepted row's pair is stored |
| Match.AcceptedStep | services/match.go:94-97 | one more row extends the accepted rows by that row exactly when it scores |
| Match.AcceptedPrefix | services/match.go:84-113 | a row accepted within a prefix is accepted in the whole sequence |
| Match.NewMatchesInRange | services/match.go:99-112 | every match inserted is pending, names the incoming property, carries the insert time, and has confidence 0.65-0.95 |
| Postgres.MergePropertyIdempotent | storage/postgres.go:54-88 | upserting the same property twice is the same as upserting it once |
| Postgres.MergePropertyKeepsIdentity | storage/postgres.go:54-88 | a conflict never changes the row's id, fingerprint, country or creation time |
| Postgres.MergePropertyWithItself | storage/postgres.go:54-88 | writing back a stored row with another postal code changes only the postal code and updated_at |
| Postgres.MergePropertyKeepsOnlyOnNull | storage/postgres.go:54-88 | a field keeps its stored value only when the new value is NULL (or 0 for floor and stories); strings always overwrite |
| Postgres.MergeListingIdempotent | storage/postgres.go:152-189 | upserting the same listing twice is the same as upserting it once |
| Postgres.MergeListingFields | storage/postgres.go:152-189 | a listing conflict keeps id, property id, key, type, currency, listed_at and created_at, and overwrites status, price, raw data, last_seen and delisted_at even with NULL |
| Postgres.MergeLinkKeeps | storage/postgres.go:352-368 | a link conflict keeps property id, first_seen_at and is_primary and takes is_active and last_seen_at |
| Postgres.MergeMediaIdempotent | storage/postgres.go:374-394 | upserting the same media row twice is the same as upserting it once |
| Postgres.MergeBrokerageDropsLogo | storage/postgres.go:469-485 | the brokerage conflict never writes a logo |
| Postgres.MergeBrokerageWithLogoStoresLogo | storage/postgres.go:469-485 | with logo_id in the update list a logo the caller sets would be stored |
| Postgres.MergeAgentKeeps | storage/postgres.go:509-527 | an agent conflict keeps id, first_seen_at and created_at and takes last_seen_at |
| Postgres.Store.constructor | storage/postgres.go:18-40 | every table starts empty, with the given failing operations |
| Postgres.Store.UpsertProperty | storage/postgres.go:54-88 | an error changes nothing; a conflict on fingerprint merges and returns the stored id; otherwise the row is inserted under the caller's id |
| Postgres.Store.GetPropertyByFingerprint | storage/postgres.go:90-110 | the row with this fingerprint, or none exactly when there is none |
| Postgres.Store.UpsertPropertyIdentifier | storage/postgres.go:138-146 | inserted when the triple is new, otherwise nothing changes |
| Postgres.Store.UpsertListing | storage/postgres.go:152-189 | an error changes nothing; a conflict on (source, external id) merges and returns the stored id; otherwise the row is inserted |
| Postgres.Store.GetListingBySourceAndExternalId | storage/postgres.go:191-213 | the row under this key, or none exactly when there is none |
| Postgres.Store.GetListingById | storage/postgres.go:215-237 | a stored row with this id, or none exactly when no row has it |
| Postgres.Store.GetActiveListingForProperty | storage/postgres.go:239-262 | one active listing of the property, or none exactly when none exists |
| Postgres.Store.UpdateListingStatus | storage/postgres.go:264-268 | every row with this id gets the status, delisted_at and updated_at; no other row changes |
| Postgres.Store.UpdateListingPrice | workers/healthcheck.go:416-417 | every row with this id gets the new price, updated_at and last_seen; no other row changes |
| Postgres.Store.TouchListing | workers/healthcheck.go:407-408 | every row with this id gets last_seen and updated_at set to now; no other row changes |
| Postgres.Store.GetStaleActiveListings | storage/postgres.go:640-672 | active rows last seen before the bound, least recently seen first, at most `limit`, with no older stale row left out; a negative limit is an error |
| Postgres.Store.CreatePropertyEvent | storage/postgres.go:274-286 | the event is appended on success |
| Postgres.Store.CreatePricePoint | storage/postgres.go:315-325 | the price point is appended on success |
| Postgres.Store.UpsertPropertyLink | storage/postgres.go:352-368 | a conflict on url merges the link; otherwise it is inserted |
| Postgres.Store.DeactivateLinksForListing | workers/healthcheck.go:478-479 | every link of the listing becomes inactive with last_seen_at set; no other link changes |
| Postgres.Store.UpsertMedia | storage/postgres.go:374-394 | an error changes nothing; a conflict on original url merges and returns the stored id; otherwise the row is inserted |
| Postgres.Store.GetMediaByOriginalUrl | storage/postgres.go:396-414 | the media row of this url, or none exactly when there is none |
| Postgres.Store.GetMediaByS3Key | workers/media.go:130-135 | the id of a row stored under this S3 key, or the nil id when no row with a real id has that key |
| Postgres.Store.GetPendingMedia | storage/postgres.go:416-443 | pending rows with fewer than 3 attempts, oldest first, at most `limit`, with no older pending row left out |
| Postgres.Store.UpdateMediaStatus | storage/postgres.go:445-449 | status, hash and attempts are set on the row with this id; the S3 key is kept when the new one is nil |
| Postgres.Store.UpsertListingMedia | storage/postgres.go:455-463 | the (listing, media) pair gets this position on success |
| Postgres.Store.UpsertBrokerage | storage/postgres.go:469-485 | a conflict on id merges without touching the logo; otherwise the brokerage is inserted |
| Postgres.Store.GetBrokerageByName | storage/postgres.go:487-503 | a brokerage with this name, or none exactly when there is none |
| Postgres.Store.UpsertAgent | storage/postgres.go:509-527 | a conflict on id merges the agent; otherwise it is inserted |
| Postgres.Store.GetAgentByNameAndBrokerage | storage/postgres.go:529-556 | an agent with this name under this brokerage (or with none), or none exactly when there is none |
| Postgres.Store.UpsertListingAgent | storage/postgres.go:562-570 | the (listing, agent) pair gets this role on success |
| Postgres.Store.InsertPropertyMatch | storage/postgres.go:576-591 | a new pair is inserted; an existing pair is left as it is without an error |
| Postgres.Store.QueryMatchCandidates | services/match.go:51-77 | the stored properties other than the incoming one that pass each non-empty city, postal and `LIKE prefix%` filter, each exactly once; the prefix comes from the address only lower-cased and trimmed, so `%`, `_` and `\` in it act as pattern characters |
| Postgres.LikeAnyRest | services/match.go:68-71 | a bare `%` matches any text |
| Postgres.LikePrefixLiteral | services/match.go:68-71 | when the prefix holds no `%`, `_` or `\`, the LIKE filter is exactly a prefix test |
| Postgres.LikeUnderscoreExample | services/match.go:44-45 | an `_` in the lower-cased address is a wildcard: the prefix "1_ a" selects "12 a", which does not start with it |
| Listings.IntPtr | services/listing.go:455-467 | zero becomes NULL and any other value is kept |
| Listings.ProvinceFromPostalCode | services/listing.go:470-501 | the result is "" or a two-letter upper-case province code; an empty postal code gives "" |
| Listings.ProvinceIgnoresCase | services/listing.go:470-501 | the lower-cased postal code gives the same province |
| Listings.ProvinceFirstLetterOnly | services/listing.go:470-501 | only the first character of the postal code decides the province |
| Listings.ProvinceKnownIff | services/listing.go:470-501 | a province is found exactly when the code begins with one of the eighteen first letters of Canadian postal codes |
| Listings.ResightedWriteBack | services/listing.go:167-179 | writing a re-sighted listing back through the listing upsert stores exactly that listing |
| Listings.ResightedIsLive | services/listing.go:167-179 | a re-sighted listing is active and not delisted, so no staleness sweep before now selects it |
| Listings.ListingEventsShape | services/listing.go:187-226 | a listing records at most one listing event (relisted exactly for a relist, listed for another new listing) and a price_change event, carrying the old price, exactly when a price changed |
| Listings.DelistNothing | services/listing.go:124-133 | without a previous active listing nothing is delisted |
| Listings.DelistedIsNotActive | services/listing.go:128-133 | a delisted row is not active, so the staleness sweep and the active-listing lookup skip it |
| Listings.PartiesGrow | services/listing.go:305-417 | the brokerage and agent tables stay consistent with the id source when it only moves forward |
| Listings.ProcessStats.constructor | services/listing.go:504-511 | every counter starts at zero |
| Listings.ProcessStats.Aggregate | services/listing.go:514-528 | one more listing processed and one more of each flag the result sets; errors untouched |
| Listings.SeenAgain | services/listing.go:46-303 | a listing processed a second time finds the property and listing the first pass stored: nothing new, no relist, no price change, no event |
| Listings.ListingService.constructor | services/listing.go:24-30 | the service keeps the store, the id source, the hash and which optional services are set |
| Listings.ListingService.ResolveProperty | services/listing.go:50-100 | the property under this fingerprint, created (and matched) when new or written back with the scraped postal code when stored; lookup and upsert failures are errors |
| Listings.ListingService.CreateProperty | services/listing.go:58-92 | a new property under a fresh id, stored under its fingerprint, then the match scoring whose failure is only logged |
| Listings.ListingService.RefreshProperty | services/listing.go:93-100 | the stored row written back with only the postal code and updated_at changed |
| Listings.ListingService.DelistPrevious | services/listing.go:124-133 | an active listing of the property with another external id is delisted and the new listing is a relist; a failed lookup counts as none |
| Listings.ListingService.CreateListing | services/listing.go:123-164 | the relist check, then a new active listing under a fresh id |
| Listings.ListingService.ResolveListing | services/listing.go:115-185 | the listing under (source, MLS number), re-sighted when stored and created otherwise, with the price change and the previous price reported |
| Listings.ListingService.RecordEvents | services/listing.go:187-226 | the listed or relisted event, then the price_change event, appended unless event creation fails |
| Listings.ListingService.QueuePhotos | services/listing.go:267-293 | every photo that can be queued is linked to the listing at its position; failures only skip or log |
| Listings.PhotoStep | services/listing.go:269-292 | one photo keeps the loop state: rows already there are untouched, a new row is this photo's pending listing media, and a linked photo adds only a link of this listing |
| Listings.ListingService.ResolveBrokerage | services/listing.go:307-355 | the brokerage found by name (its missing logo queued) or created with a fresh id and its logo queued; only the lookup and the new insert can fail the call |
| Listings.ListingService.AddBrokerageLogo | services/listing.go:319-329 | a stored brokerage without a logo gets the logo enqueued; the brokerage table is unchanged and the only new media row is the logo's |
| Listings.ListingService.CreateBrokerage | services/listing.go:330-354 | a new brokerage under the next id, with its logo id when the enqueue succeeded; only the insert fails the call |
| Listings.ListingService.AgentRow | services/listing.go:361-386 | the stored agent of this name and brokerage seen again, or a new agent with a fresh id |
| Listings.ListingService.WithHeadshot | services/listing.go:388-398 | the agent's photo, when there is one and the media service is set, queued as its headshot; nothing else of the agent changes |
| Listings.ListingService.ProcessAgent | services/listing.go:357-414 | one agent found or created, upserted and linked to the listing; each failure skips the rest of this agent. The upsert happens exactly when neither the lookup nor the upsert fails, and it changes only that agent's row: a stored agent is last seen now, takes the scraped phone when there is one and keeps its headshot unless a new one was queued, and a new agent is the scraped one under a fresh id |
| Listings.ListingService.ProcessRealtor | services/listing.go:305-417 | the brokerage, then each named agent linked in order; only the brokerage lookup or insert is an error; every stored agent is kept or refreshed at now (last seen now, phone and headshot the only other changes), and every linked agent is last seen now |
| Listings.ListingService.LinkAgents | services/listing.go:357-414 | each named agent processed in turn; every stored agent is kept or refreshed at now, only this listing gains links, every linked agent is last seen now, and with no agent failure every named agent is linked |
| Listings.SeenMerged | storage/postgres.go:509-523 | upserting a stored agent seen again gives the seen-again row, with the headshot replaced only by a non-nil one |
| Listings.AgentTouchedAgain | services/listing.go:370-375 | refreshing an agent again at the same time keeps it a refreshed copy of the stored row |
| Listings.LinkAgentStep | services/listing.go:357-414 | one agent step keeps the three loop facts: stored agents kept or refreshed, links only added for this listing, linked agents last seen now |
| Listings.ListingService.MarkDelisted | services/listing.go:420-452 | the listing with this id becomes delisted now and a delisted event is recorded; a failed lookup, a missing listing or a failed update is an error |
| Listings.ListingService.PropertyStep | services/listing.go:50-113 | the property, then its MLS identifier stored unless that upsert fails |
| Listings.ListingService.Locate | services/listing.go:50-185 | the property, its MLS identifier and the listing; only property and listing lookups and upserts are errors; the relist rule: every other listing row is kept except the property's other active listing, which is delisted now, and a new listing is a relist only when such a listing existed, and always when the property had active listings, none under this MLS number, and the active-listing lookup did not fail |
| Listings.ListingService.RecordListing | services/listing.go:187-265 | the events, the asking-price point and the link to the listing page; every failure only logged |
| Listings.ListingService.AttachMedia | services/listing.go:267-300 | the photos when the media service is set, then the realtor; every failure only logged; the listing-media rows added are this listing's, one per photo when nothing fails; the brokerage, agent and listing-agent rows are those processRealtor writes |
| Listings.ListingService.FanOut | services/listing.go:187-302 | steps four to eight for the located listing and the result with its flags: the events, price point and link, the listing-media rows of the photos, and the brokerage, agent and listing-agent rows of the realtor |
| Listings.ListingService.ProcessFingerprinted | services/listing.go:46-303 | the whole fan-out of one scraped listing: property, identifier, listing with the relist rule, events, price point, link, listing-media rows of the photos, and the realtor's brokerage, agent and listing-agent rows, with only the property and listing steps able to fail |
| Listings.ListingService.ProcessListing | services/listing.go:46-303 | the fan-out above under the listing's fingerprint, with the same relist rule and the same rows written |
| Listings.ListingService.ProcessTwice | services/listing.go:46-303 | processing the same listing again reports nothing new, no relist, no price change, creates no event and names the same property and listing |
| MediaService.Enqueue | services/media.go:24-49 | the id of the row stored under the url, inserting a pending row with a fresh id when there is none; errors leave the table unchanged |
| MediaService.EnqueueTwice | services/media.go:24-49 | enqueueing a url twice gives the same id both times |
| MediaService.MarkUploaded | services/media.go:57-59 | the row becomes uploaded with its key and hash and zero attempts |
| MediaService.FailedStatus | services/media.go:62-68 | failed from the third attempt on, pending before |
| MediaService.MarkFailed | services/media.go:62-68 | the row gets the failed-or-pending status and the attempt count, its key kept and its hash cleared |
| MediaService.RetryCeiling | services/media.go:62-68 | after a failed attempt the row is selected again exactly when fewer than three attempts were made |
| MediaService.UploadedIsFinal | services/media.go:57-59 | an uploaded row is never selected again |
| MediaService.GetPending | services/media.go:52-54 | the pending query: rows pending with fewer than three attempts, none twice, oldest first, at most `limit`, with no older pending row left out and every pending row when fewer than `limit` come back |
| MediaWorker.PathExtShape | workers/media.go:162 | the extension is a suffix of the path that starts with its only dot and contains no '/' |
| MediaWorker.PathExtNone | workers/media.go:162 | a path with no extension has every dot inside a directory name |
| MediaWorker.PathExtStep | workers/media.go:162 | extending the last element by a character other than '/' and '.' extends its extension |
| MediaWorker.ContentTypeExt | workers/media.go:167-179 | the extension a Content-Type names is always an image extension, .jpg for anything unlisted |
| MediaWorker.GuessExtension | workers/media.go:160-180 | the url's lower-cased extension when it is an image extension, otherwise the Content-Type's |
| MediaWorker.PathExtOfSuffix | workers/media.go:162 | a last element ending in a dot and then neither dots nor slashes has that extension |
| MediaWorker.PathExtOfPlainName | workers/media.go:162 | a last element without dots has no extension |
| MediaWorker.GuessExtensionFromUrl | workers/media.go:160-165 | the url's extension wins over the header in any letter case |
| MediaWorker.GuessExtensionBehindQuery | workers/media.go:160-180 | a query string hides the url's extension, so the header decides |
| MediaWorker.GuessExtensionDefaults | workers/media.go:166-179 | a dot in a directory name is no extension, and an unlisted header gives .jpg |
| MediaWorker.SanitizePath | workers/media.go:245-252 | the result is lower-case with no space, apostrophe or dot |
| MediaWorker.SanitizePathOfSafe | workers/media.go:245-252 | a path-safe segment is left as it is |
| MediaWorker.SanitizePathIdempotent | workers/media.go:245-252 | sanitizing twice is sanitizing once |
| MediaWorker.SafeSegment | workers/media.go:230-242 | "unknown" for an empty value, the sanitized value otherwise |
| MediaWorker.SafeSegmentIdempotent | workers/media.go:230-242 | applying it twice changes nothing unless sanitizing emptied the value |
| MediaWorker.SafeSegmentCanBeEmpty | workers/media.go:230-242 | the empty check comes before sanitizing, so "'." gives an empty folder name |
| MediaWorker.GenerateS3Key | workers/media.go:199-228 | the key ends in the content hash and the extension |
| MediaWorker.KeyFolders | workers/media.go:199-228 | the folder of each category as the format strings spell it, with the hash prefix folder for unknown categories |
| MediaWorker.PartyKeysIgnoreLocation | workers/media.go:199-228 | agent and brokerage keys do not depend on province or city |
| MediaWorker.DedupIsPerKey | workers/media.go:199-228 | the same content under a listing and under an agent gets two keys, so it is stored twice |
| MediaWorker.ListingAndPropertyKeysDiffer | workers/media.go:199-228 | a listing photo and a property document of the same content get different keys |
| MediaWorker.Bucket.constructor | workers/media.go:37-39 | an empty bucket with the given failure mode |
| MediaWorker.Bucket.Upload | workers/media.go:37-39 | the object is stored under its key exactly when the upload succeeds |
| MediaWorker.StatusSetOfUnique | storage/postgres.go:445-449 | with unique ids the status update changes exactly the row with that id |
| MediaWorker.SettledStatuses | workers/media.go:292-319 | a processed row ends pending, failed, uploaded or duplicate; pending exactly after an error below three attempts, failed exactly after an error at the third |
| MediaWorker.SettledReselected | workers/media.go:292-319 | only a failure below the ceiling puts a row back in the pending queue, and attempts never pass three |
| MediaWorker.WorkerKeepsAttempts | workers/media.go:315 | the worker keeps the attempt count of a row it uploads, unlike MarkUploaded which resets it |
| MediaWorker.ProcessedCount | workers/media.go:305-321 | the number of results the summary counts as processed is at most the batch size |
| MediaWorker.BatchStateStep | workers/media.go:287-326 | recording one more result keeps the batch invariant |
| MediaWorker.MediaWorkerService.constructor | workers/media.go:42-65 | the worker keeps its store and uploader and starts with no pending trigger |
| MediaWorker.MediaWorkerService.Trigger | workers/media.go:68-73 | a trigger is pending afterwards, and the send goes through exactly when none was pending |
| MediaWorker.MediaWorkerService.Process | workers/media.go:86-157 | a failed download, a non-200 status or a failed key lookup is an error; a key some row already holds is a duplicate without an upload; otherwise the content is uploaded under its generated key |
| MediaWorker.MediaWorkerService.Record | workers/media.go:292-322 | the outcome is written on the item's row and the item counts as processed exactly as the summary counts it |
| MediaWorker.MediaWorkerService.Step | workers/media.go:288-322 | one item processed and its outcome recorded on its row |
| MediaWorker.MediaWorkerService.ProcessBatch | workers/media.go:273-336 | every pending item of the batch is processed once with its outcome on its row, no other row changes, and processed plus failed is the batch size |
| MediaWorker.MediaWorkerService.ProcessAll | workers/media.go:287-326 | the loop over the selected rows, each row settled by its own result |
| Healthcheck.MatchesAny | workers/healthcheck.go:240-254 | true exactly when some pattern occurs in the text, both lower-cased |
| Healthcheck.MatchesAnyIgnoresCase | workers/healthcheck.go:240-254 | the pattern search ignores letter case |
| Healthcheck.NothingMatchesEmpty | workers/healthcheck.go:302-317 | no non-empty pattern occurs in the empty string |
| Healthcheck.EmptyLocationIsNoDelist | workers/healthcheck.go:302-317 | a redirect without a Location header is not a delist redirect |
| Healthcheck.StatusLive | workers/healthcheck.go:125-141 | gone exactly for 404, 410, or a 301/302 to a delist page; every other status is live |
| Healthcheck.RedirectWithoutLocationIsLive | workers/healthcheck.go:131-137 | a redirect without a Location header counts as live |
| Healthcheck.HeadResult | workers/healthcheck.go:109-144 | no price; an error exactly when the request fails; otherwise the status classification |
| Healthcheck.ProxyResult | workers/healthcheck.go:196-237 | as the HEAD check, and a price only from the body of a 200 page |
| Healthcheck.HeadAgreesWithProxy | workers/healthcheck.go:109-237 | HEAD and the proxied GET classify a response the same way |
| Healthcheck.ScrapingBeeResult | workers/healthcheck.go:147-193 | an error status is a 404 when the body mentions "404" or "not found" and an error otherwise; a page with a delist indicator is gone; any other page is live with its price |
| Healthcheck.CheckFallbackOrder | workers/healthcheck.go:88-106 | ScrapingBee (with a key), then HEAD, then the proxied GET: each used only when those before it failed, and an error only when all failed |
| Healthcheck.CheckWithoutKeyIgnoresScrapingBee | workers/healthcheck.go:88-106 | without a key the ScrapingBee response is never consulted |
| Healthcheck.ActionForShape | workers/healthcheck.go:352-386 | no url is skipped; a failed check only touches; a gone listing is delisted; a live one is repriced exactly when both prices are known and differ |
| Healthcheck.TouchChangesOnlySeen | workers/healthcheck.go:405-409 | a touch changes only last_seen and updated_at of the listing's own rows |
| Healthcheck.MarkGoneDelists | workers/healthcheck.go:455-482 | a gone listing's rows are delisted and no other row changes status |
| Healthcheck.ActionWritesAtMostOneEvent | workers/healthcheck.go:411-482 | each action writes at most one event, and a price point only with a reprice |
| Healthcheck.CountsBounded | workers/healthcheck.go:351-386 | delisted plus price changes never exceed checked, nor checked the batch size; listings without a url are not checked |
| Healthcheck.CountNoUrl | workers/healthcheck.go:353-355 | the listings skipped for having no url are at most the batch |
| Healthcheck.FailedStatusUpdateDelistsNothing | workers/healthcheck.go:368-372 | when the status update fails nothing counts as delisted |
| Healthcheck.HealthcheckService.constructor | services/healthcheck.go:19-24 | the service keeps its store |
| Healthcheck.HealthcheckService.MarkDelisted | services/healthcheck.go:32-55 | a failed status update is returned and writes no event; otherwise the listing is delisted now and a delisted event with its price appended unless that insert fails |
| Healthcheck.HealthcheckService.TouchListing | services/healthcheck.go:58-63 | the caller's copy, with last_seen and updated_at now, is upserted whole |
| Healthcheck.TouchOverwritesStored | services/healthcheck.go:58-63 | a touch stores the caller's status, price and delisted_at over the stored ones |
| Healthcheck.HealthcheckWorker.constructor | workers/healthcheck.go:36-69 | the worker keeps its store and checker and starts with no pending trigger |
| Healthcheck.HealthcheckWorker.Trigger | workers/healthcheck.go:72-77 | a trigger is pending afterwards, and the send goes through exactly when none was pending |
| Healthcheck.HealthcheckWorker.TouchListing | workers/healthcheck.go:405-409 | last_seen and updated_at now on the listing's rows unless the update fails |
| Healthcheck.HealthcheckWorker.RecordPriceChange | workers/healthcheck.go:411-453 | only a failed price update is an error; the price_change event and the price point are written when their inserts succeed |
| Healthcheck.HealthcheckWorker.MarkDelisted | workers/healthcheck.go:455-482 | a failed status update is the error; otherwise the delisted event is appended when its insert succeeds and the listing's links are deactivated |
| Healthcheck.HealthcheckWorker.Handle | workers/healthcheck.go:352-390 | one listing checked and acted on, with the counters and every table as the action's function says |
| Healthcheck.HealthcheckWorker.ProcessBatch | workers/healthcheck.go:338-403 | the stale active listings, least recently seen first, at most the batch size, all of them when fewer come back and none left out older than one taken, handled in order; a failed query changes nothing |
| Healthcheck.HealthcheckWorker.HandleAll | workers/healthcheck.go:352-390 | the loop over the fetched listings, giving the batch counters and tables |
| Signal.TriggerSlot.constructor | workers/media.go:62 | a buffered channel of one starts empty |
| Signal.TriggerSlot.Trigger | workers/media.go:68-73 | a trigger is pending afterwards, and the send goes through exactly when the slot was empty |
| Signal.TriggerSlot.Take | workers/media.go:255-271 | the worker's receive takes the pending trigger, if any, and leaves the slot empty |
| Signal.TriggerSlot.TriggerTwice | workers/media.go:68-73 | two triggers before the worker receives wake it only once |
| SQLite.ConflictUpdateFields | storage/sqlite.go:158-172 | a conflict changes only last_seen_at, times_listed, postal_code, synced and is_active; an empty postal code overwrites the stored one, since a Go empty string is not NULL for the COALESCE; a repeated upsert changes nothing more |
| SQLite.InsertByTime | storage/sqlite.go:182-206 | inserting into a snapshot list ordered by scrape time keeps it ordered and adds exactly that snapshot |
| SQLite.SortByTime | storage/sqlite.go:182-206 | ORDER BY scraped_at: the result is ordered by time and a permutation of the input |
| SQLite.SnapshotsOf | storage/sqlite.go:182-206 | exactly the snapshots of this property |
| SQLite.LatestWhere | storage/sqlite.go:208-250 | none exactly when no row qualifies; otherwise a qualifying row scraped no earlier than any other |
| SQLite.LatestIsLastOfSorted | storage/sqlite.go:182-228 | the last snapshot of a property exists exactly when its ordered list is non-empty, and is scraped at the time of that list's last element |
| SQLite.LegacyNonPositiveIsMissing | storage/sqlite.go:581-664 | a non-positive bed or bath count scores like any other non-positive one, i.e. as missing |
| SQLite.LegacyScoreRule | storage/sqlite.go:581-664 | without an address match a candidate needs the same postal code, the same type and two close attributes; every accepted score is 0.65-0.95 |
| SQLite.LocalStore.constructor | storage/sqlite.go:18-30 | an empty database with the given resume pages and failing operations |
| SQLite.LocalStore.GetProperty | storage/sqlite.go:138-156 | the row with this id, or none for an unknown id |
| SQLite.LocalStore.UpsertProperty | storage/sqlite.go:158-172 | a new row is inserted, an existing one takes the conflict update; an error changes nothing |
| SQLite.LocalStore.TouchProperty | storage/sqlite.go:349-352 | the row gets last_seen_at t and becomes unsynced; no other row changes |
| SQLite.LocalStore.MarkPropertySynced | storage/sqlite.go:344-347 | the row becomes synced; no other row changes |
| SQLite.LocalStore.GetUnsyncedProperties | storage/sqlite.go:320-342 | every unsynced row exactly once |
| SQLite.LocalStore.CreateSnapshot | storage/sqlite.go:174-180 | the snapshot is appended with the next row id |
| SQLite.LocalStore.GetSnapshotsForProperty | storage/sqlite.go:182-206 | the property's snapshots ordered by scrape time |
| SQLite.LocalStore.GetLastSnapshotForProperty | storage/sqlite.go:208-228 | the property's latest snapshot, or none |
| SQLite.LocalStore.GetLastSnapshotByMLS | storage/sqlite.go:230-250 | the latest snapshot of this MLS number, or none |
| SQLite.LocalStore.CreateRun | storage/sqlite.go:252-262 | a run with zero counters is appended under the next id, which is returned |
| SQLite.LocalStore.UpdateRun | storage/sqlite.go:264-272 | the row with the run's id takes its finish time, status and counters; no other row changes |
| SQLite.LocalStore.GetResumePage | storage/sqlite.go:443-451 | 0 without a site_stats row or with a NULL page, the stored page otherwise |
| SQLite.LocalStore.QueryCandidates | storage/sqlite.go:521-545 | the stored properties other than the incoming one that pass each non-empty city, postal and prefix filter, each exactly once |
| SQLite.LocalStore.InsertMatchOrIgnore | storage/sqlite.go:565-575 | INSERT OR IGNORE: added exactly when the pair was not stored, and then stored |
| SQLite.InsertPotentialMatches | storage/sqlite.go:507-579 | no query for a blank address or for no postal code and fewer than two tokens; otherwise the count is the number of pairs actually added, with every accepted candidate's pair stored |
| SQLite.InsertAt | storage/sqlite.go:559-575 | one candidate of the loop: an insert error leaves the matches as they were and is returned; otherwise the loop facts hold one candidate further |
| SQLite.InsertAll | storage/sqlite.go:550-578 | the candidate loop: an error exactly when an insert fails while a candidate is accepted; otherwise every accepted pair is stored and the count is the number of new pairs |
| SQLite.InsertStateSkip | storage/sqlite.go:558-562 | a rejected candidate keeps the loop invariant |
| SQLite.InsertStateStep | storage/sqlite.go:565-575 | an accepted candidate, added or already there, keeps the loop invariant, and the count grows exactly when it was added |
| SQLite.InsertTwice | storage/sqlite.go:507-579 | a second run on the same property adds nothing and counts 0 |
| SQLite.ParseCommandParams | storage/sqlite.go:420-429 | no params or the text null give empty params; anything else is decoded |
| Supabase.TruncDiv | storage/supabase.go:170-173 | division truncating toward zero, as Go's float-to-int conversion |
| Supabase.DaysOnMarketAntisymmetric | storage/supabase.go:170-173 | swapping the two snapshots negates the days on market |
| Supabase.EventNamesDistinct | storage/supabase.go:113-168 | the four history event names differ |
| Supabase.BuildHistory | storage/supabase.go:113-168 | the loop builds exactly the history the reference function defines |
| Supabase.CountEventsAppend | storage/supabase.go:113-168 | counting events of a kind distributes over concatenation |
| Supabase.HistoryLength | storage/supabase.go:113-168 | at most two events per snapshot |
| Supabase.LaterStepNotListed | storage/supabase.go:120-130 | only the first snapshot opens with "listed" |
| Supabase.ListedOnce | storage/supabase.go:113-168 | a non-empty history opens with "listed" for the first snapshot, and that is its only "listed" event |
| Supabase.RelistedAfterDelisted | storage/supabase.go:120-153 | every "relisted" event comes right after a "delisted" one |
| Supabase.DelistedDaysFromFirst | storage/supabase.go:122-129 | every "delisted" event counts its days from the very first snapshot |
| Supabase.StepRule | storage/supabase.go:117-165 | within one listing a snapshot adds a price_change with the previous price exactly when the price differs; a new listing id adds "delisted" for the old listing then "relisted" for the new |
| Supabase.BuildSupabaseProperty | storage/supabase.go:61-111 | an error exactly when there are no snapshots; otherwise current price, listing id, url, description and photos from the last snapshot and the rest from the property |
| Supabase.SupabaseRemote.constructor | storage/supabase.go:21-27 | an empty remote table with the given failure mode |
| Supabase.SupabaseRemote.UpsertProperty | storage/supabase.go:29-59 | on success the document, stamped with the sync time, replaces the row with its id |
| Orchestrator.ScrapeRunTable.constructor | storage/postgres.go:597-619 | an empty scrape_runs table with the given failure modes |
| Orchestrator.ScrapeRunTable.CreateScrapeRun | storage/postgres.go:597-606 | the new run gets the next id and zero counters; a failure adds nothing |
| Orchestrator.ScrapeRunTable.UpdateScrapeRun | storage/postgres.go:608-619 | the row with the run's id takes its finish time, status and counters, source and start kept; no other row changes |
| Orchestrator.FirstErr | scraper/orchestrator.go:159-168 | the index of the first failed region scrape, every scrape before it having succeeded |
| Orchestrator.PushedDoc | scraper/orchestrator.go:338-357 | the document written for a property carries its id and the sync time, and its history is built from its snapshots in time order |
| Orchestrator.KeySetSnoc | scraper/orchestrator.go:337 | the keys handled grow by the one just handled |
| Orchestrator.ReachedInAdd | scraper/orchestrator.go:337-367 | handling one more property adds it to the reached set exactly when the sync gets as far as the upsert for it |
| Orchestrator.MarkedPropsAdd | scraper/orchestrator.go:363-365 | marking one more property synced is a single row update |
| Orchestrator.WrittenRowsAdd | scraper/orchestrator.go:357-361 | writing one more document is a single remote row update |
| Orchestrator.SyncStep | scraper/orchestrator.go:337-367 | one step of the sync loop keeps its invariant over the local and remote rows |
| Orchestrator.SyncStateStep | scraper/orchestrator.go:337-367 | handling key i moves the sync state from the first i keys to the first i + 1: the reached set, the marked local rows and the written remote rows |
| Orchestrator.Orchestrator.Scrapes | scraper/orchestrator.go:159-162 | one scrape result per configured region, in order |
| Orchestrator.Orchestrator.constructor | scraper/orchestrator.go:32-66 | the orchestrator keeps its configuration, stores and services and starts unpaused |
| Orchestrator.Orchestrator.LegacyInsert | scraper/orchestrator.go:234-259 | a new property row, then match candidates for it whose failure is only logged |
| Orchestrator.Orchestrator.LegacyMatches | scraper/orchestrator.go:254-258 | the local match scoring for the new row, whose outcome is only logged |
| Orchestrator.Orchestrator.LegacyProperty | scraper/orchestrator.go:229-277 | an unseen fingerprint inserts a property, a stored one is refreshed (relisted when its last snapshot is of another MLS number); at most one of new and relisted is counted |
| Orchestrator.Orchestrator.LegacyRefresh | scraper/orchestrator.go:260-277 | the stored row takes last_seen, the postal code and unsynced, with times_listed one higher exactly for a relist |
| Orchestrator.Orchestrator.ProcessLegacy | scraper/orchestrator.go:217-317 | the same MLS number at the same price only touches the property; otherwise the property is inserted or refreshed and a snapshot appended |
| Orchestrator.Orchestrator.LegacyListing | scraper/orchestrator.go:221-317 | the legacy path for a listing under its fingerprint, with the same outcome |
| Orchestrator.Orchestrator.LegacyTouch | scraper/orchestrator.go:222-227 | the property's last_seen is set and it becomes unsynced, unless the touch fails, which is ignored |
| Orchestrator.Orchestrator.LegacyRecord | scraper/orchestrator.go:229-316 | the property is inserted or refreshed and a snapshot appended; counters reached stay counted when a later step fails |
| Orchestrator.Orchestrator.ProcessListing | scraper/orchestrator.go:190-214 | with a listing service its result is aggregated into the stats and its flags counted on the run, an error changing neither; without one, the legacy path |
| Orchestrator.Orchestrator.ServiceListing | scraper/orchestrator.go:192-210 | the service call, then the stats and run counters from its flags |
| Orchestrator.Orchestrator.CallService | scraper/orchestrator.go:193-196 | the listing service's error cases and the shape of its result |
| Orchestrator.Orchestrator.HandleListing | scraper/orchestrator.go:173-179 | a listing that fails adds one to the run's and the stats' error counts |
| Orchestrator.Orchestrator.HandleAll | scraper/orchestrator.go:173-179 | the listings of one region, in order, with every listing accounted for |
| Orchestrator.Orchestrator.ScrapeRegions | scraper/orchestrator.go:159-180 | each region's listings are counted as found and handled; the first failed scrape adds an error, marks the run failed and ends the loop |
| Orchestrator.Orchestrator.StartPgRun | scraper/orchestrator.go:114-127 | a Postgres run is created when the table exists, and a failed insert leaves no id |
| Orchestrator.Orchestrator.FinishRun | scraper/orchestrator.go:134-157 | the run is finished now and written back, and the Postgres run takes "failed" or "completed" and the stats' counters |
| Orchestrator.Orchestrator.RunSite | scraper/orchestrator.go:90-188 | an unknown site, a site without a handler or a failed run insert records nothing; otherwise a finished run row with the regions' counts |
| Orchestrator.Orchestrator.CreateRuns | scraper/orchestrator.go:101-127 | the local run record, then the Postgres one only when that succeeds |
| Orchestrator.Orchestrator.ScrapeAndFinish | scraper/orchestrator.go:131-187 | fresh stats, the region loop, then the deferred finish with the final run |
| Orchestrator.Orchestrator.ScrapeSite | scraper/orchestrator.go:159-187 | the region loop, and the run completed exactly when every region's scrape succeeded |
| Orchestrator.Orchestrator.RunnableSites | scraper/orchestrator.go:68-88 | the configured sites RunSite gets to run, in order |
| Orchestrator.Orchestrator.RunnableSitesExactly | scraper/orchestrator.go:68-88 | every site with a configuration and a handler is run, each once |
| Orchestrator.Orchestrator.RunAll | scraper/orchestrator.go:68-88 | nothing while paused; otherwise one finished run row per runnable site, in order, never an error; with Supabase and no Postgres, the sync of the rows the sites left: exactly the unsynced properties it reaches are written to Supabase and marked synced, every other row as it was |
| Orchestrator.Orchestrator.RunSites | scraper/orchestrator.go:75-80 | one finished run row per runnable site, in order |
| Orchestrator.Orchestrator.RunOne | scraper/orchestrator.go:76-79 | one site run, its error only logged |
| Orchestrator.Orchestrator.SiteRowsStep | scraper/orchestrator.go:75-80 | one more site extends the run rows by its row |
| Orchestrator.Orchestrator.SyncToSupabase | scraper/orchestrator.go:319-371 | no Supabase does nothing; a failed unsynced query is the error and changes nothing; otherwise exactly the unsynced properties the sync reaches get their document written and, when marking works, their synced flag, and every other local and remote row is as it was |
| Orchestrator.Orchestrator.SyncLoop | scraper/orchestrator.go:337-367 | the loop over the unsynced rows, giving the reached set's rows |
| Orchestrator.Orchestrator.SyncAt | scraper/orchestrator.go:337-367 | property i is handled and the loop invariant moves on |
| Orchestrator.Orchestrator.SyncOne | scraper/orchestrator.go:338-366 | a property's snapshots, its document, the upsert and the synced mark; a property without snapshots is skipped |
| Orchestrator.Orchestrator.HandleCommand | scraper/orchestrator.go:373-400 | unparsable parameters are the error and change nothing; scrape_now, and scrape_site without a site, do what RunAll does (a run row for every runnable site and the legacy sync); scrape_site with a site fails as RunSite does; pause and resume set the flag; sync_now does what SyncToSupabase does; anything else is ignored |
| Orchestrator.Orchestrator.WorkCommand | scraper/orchestrator.go:381-396 | scrape_now and scrape_site without a site never fail and do what RunAll does; scrape_site with a site fails exactly as RunSite does; sync_now does what SyncToSupabase does |
| Orchestrator.Orchestrator.ScrapeSiteCommand | scraper/orchestrator.go:384-388 | a named site fails when it cannot run or when one of its regions fails; no site means RunAll: a run row for every runnable site, in order, and never an error |
| ApiHandler.OnlyDigits | scraper/api_handler.go:175-193 | the decimal digits of the text, in order |
| ApiHandler.ParseAllDigits | scraper/api_handler.go:175-193 | the parsers' loop computes the value of the text's digits, every other character skipped |
| ApiHandler.OnlyDigitsConcat | scraper/api_handler.go:175-193 | taking the digits distributes over concatenation |
| ApiHandler.OnlyDigitsOfDigits | scraper/api_handler.go:175-193 | a string of digits is its own digits |
| ApiHandler.DigitsOfNat | scraper/api_handler.go:175-183 | a plain decimal numeral reads back as its value |
| ApiHandler.DigitsOfSkips | scraper/api_handler.go:175-183 | a currency sign, thousands comma or decimal point anywhere changes nothing |
| ApiHandler.TrimLeftBlank | scraper/api_handler.go:222-232 | the result does not start with a space or tab |
| ApiHandler.TrimRightBlank | scraper/api_handler.go:222-232 | the result does not end with a space or tab |
| ApiHandler.TrimBlank | scraper/api_handler.go:222-232 | the result neither starts nor ends with a space or tab |
| ApiHandler.TrimLeftBlankSuffix | scraper/api_handler.go:222-232 | trimming the front leaves a suffix |
| ApiHandler.TrimRightBlankPrefix | scraper/api_handler.go:222-232 | trimming the back leaves a prefix |
| ApiHandler.TrimLeftBlankRemoves | scraper/api_handler.go:222-232 | only spaces and tabs are removed from the front |
| ApiHandler.TrimRightBlankRemoves | scraper/api_handler.go:222-232 | only spaces and tabs are removed from the back |
| ApiHandler.TrimBlankIdempotent | scraper/api_handler.go:222-232 | trimming twice is trimming once |
| ApiHandler.TrimSpaceTab | scraper/api_handler.go:222-232 | the two index loops compute exactly the trimmed text |
| ApiHandler.IndexOfSep | scraper/api_handler.go:207-208 | the first '\|' or ',', none before it, or the length when there is none |
| ApiHandler.Segments | scraper/api_handler.go:203-220 | the raw pieces between separators, at least one |
| ApiHandler.SegmentsNoSep | scraper/api_handler.go:203-220 | no raw piece contains a separator |
| ApiHandler.Kept | scraper/api_handler.go:203-220 | the trimmed pieces a scan keeps, blank ones kept only by splitAddress |
| ApiHandler.ScanSegments | scraper/api_handler.go:203-220 | the character scan keeps exactly the kept pieces of the reference reading |
| ApiHandler.SplitAddressSegments | scraper/api_handler.go:203-220 | splitAddress reads an address as its non-empty raw pieces, each trimmed |
| ApiHandler.SplitAddressParts | scraper/api_handler.go:203-220 | no part contains a separator or starts or ends with a space or tab |
| ApiHandler.ScanAddress | scraper/api_handler.go:203-220 | the address loop computes the kept pieces of the reference reading |
| ApiHandler.ExtractCity | scraper/api_handler.go:195-201 | the second-to-last part, or "" with fewer than two parts |
| ApiHandler.BestPath | scraper/api_handler.go:234-247 | the high-res path, or the low-res one when there is no high-res path; never empty |
| ApiHandler.WithPath | scraper/api_handler.go:234-247 | exactly the photos with some path |
| ApiHandler.WithPathMembers | scraper/api_handler.go:234-247 | a photo is kept exactly when it has a path |
| ApiHandler.BestPaths | scraper/api_handler.go:234-247 | one non-empty url per photo, in order |
| ApiHandler.PhotoStep | scraper/api_handler.go:234-247 | one more photo adds its best path exactly when it has one |
| ApiHandler.ExtractPhotos | scraper/api_handler.go:234-247 | the loop returns the best path of every photo with one, in order |
| ApiHandler.ToRawListing | scraper/api_handler.go:118-133 | the listing of one API result: url under the realtor.ca base, city from the address, price and size from their digits, photos from their best paths |
| ApiHandler.FetchPage | scraper/api_handler.go:106-137 | a status other than 200 or an undecodable body is an error; otherwise one listing per result, in order |
| ApiHandler.FirstStop | scraper/api_handler.go:46-66 | the first page that ends the scrape: failed, empty or shorter than a full page, every page before it full |
| ApiHandler.ScrapeRealtorCA | scraper/api_handler.go:42-69 | a failed page discards everything; otherwise every page before the first empty or short one, that page included, in order |
| RealtorInfo.Formatted | scraper/apify_canadesk.go:262-276 | area code, '-', number |
| RealtorInfo.FirstTelephone | scraper/apify_canadesk.go:267-271 | the first complete Telephone entry, none before it, or the length when there is none |
| RealtorInfo.PhoneOfCases | scraper/apify_canadesk.go:262-276 | the phone shown comes from a complete entry; it is "" exactly when there is no complete Telephone entry and the first entry is missing or incomplete; a complete Telephone entry wins over the first entry |
| RealtorInfo.FormatPhone | scraper/browser_handler.go:748-762 | the loop returns exactly the phone the reference function picks |
| RealtorInfo.AgentsOf | scraper/browser_handler.go:697-746 | one agent per individual, in order |
| RealtorInfo.RealtorOf | scraper/apify_canadesk.go:211-260 | no individuals give no realtor; otherwise the company is the first individual's organization and every individual is an agent, in order |
| RealtorInfo.ExtractRealtor | scraper/browser_handler.go:697-746 | the building loop gives exactly the reference realtor |
| Canadesk.Days | scraper/apify_canadesk.go:27-33 | DaysBack when set, otherwise 1 day on incremental runs and 30 on full ones |
| Canadesk.ExtractCityName | scraper/apify_canadesk.go:56-64 | the prefix of the region name before its first comma, or all of it |
| Canadesk.IntScan | scraper/apify_canadesk.go:278-288 | the loop state after a prefix; it has stopped only once the value is positive |
| Canadesk.ParseIntString | scraper/apify_canadesk.go:278-288 | the loop with its break computes the reference reading |
| Canadesk.IntScanStopped | scraper/apify_canadesk.go:278-288 | once stopped, the loop reads nothing more |
| Canadesk.IntScanOfDigits | scraper/apify_canadesk.go:278-288 | a string of digits reads as its decimal value |
| Canadesk.IntStringOfNat | scraper/apify_canadesk.go:278-288 | a plain numeral reads back as its value |
| Canadesk.IntStringStops | scraper/apify_canadesk.go:278-288 | after a positive run of digits the first non-digit ends the number ("12 sqft 34" is 12) |
| Canadesk.IntStringLeadingZero | scraper/apify_canadesk.go:278-288 | a leading zero does not stop the loop, so "0.5" reads as 5 |
| Canadesk.ParseBedrooms | scraper/apify_canadesk.go:291-300 | without a '+' the whole text is the count and there are no extra bedrooms |
| Canadesk.ParseBedroomsExample | scraper/apify_canadesk.go:291-300 | "3 + 1" is three bedrooms and one more |
| Canadesk.SplitBedroomsExample | scraper/apify_canadesk.go:293 | "3 + 1" splits on '+' into "3 " and " 1" |
| Canadesk.TrimBedroomsExample | scraper/apify_canadesk.go:295-296 | the two halves trim to "3" and "1" |
| Canadesk.ProvinceCode | scraper/apify_canadesk.go:179-209 | a full province name gives a two-letter code |
| Canadesk.NormalizeProvince | scraper/apify_canadesk.go:179-209 | a full province name in any case becomes its code; anything else comes back unchanged |
| Canadesk.NormalizeProvinceIdempotent | scraper/apify_canadesk.go:179-209 | normalizing twice is normalizing once |
| Canadesk.NormalizeProvinceExamples | scraper/apify_canadesk.go:179-209 | "Ontario" and "ON" both give "ON" |
| Canadesk.InCityOnly | scraper/apify_canadesk.go:102-111 | a sub-sequence of the listings |
| Canadesk.InCityOnlyMembers | scraper/apify_canadesk.go:102-111 | exactly the listings whose lower-cased address mentions the city are kept |
| Canadesk.InCityOnlyAppend | scraper/apify_canadesk.go:102-111 | filtering distributes over concatenation, so the input order is kept |
| Canadesk.FilterListings | scraper/apify_canadesk.go:102-111 | the loop keeps exactly the listings that mention the region's city name, compared in lower case |
| Canadesk.ToRawListing | scraper/apify_canadesk.go:72-97 | the listing of a decoded record, with the city from the address when the record has none |
| Canadesk.ParseListing | scraper/apify_canadesk.go:66-99 | an undecodable record is an error; otherwise its listing |
| Scrapemind.FilterListings | scraper/apify_scrapemind.go:20-22 | every result is kept as it is |
| Scrapemind.RealtorOf | scraper/apify_scrapemind.go:142-189 | as the shared realtor block, with no brokerage logo |
| Scrapemind.ToRawListing | scraper/apify_scrapemind.go:51-74 | the listing of a decoded record with the postal code it is given: no province, price and sizes from their digits, the city from the address when missing |
| Scrapemind.ParseListing | scraper/apify_scrapemind.go:45-77 | an undecodable record is an error, and so is a record whose address makes extractPostalFromAddress as written panic; otherwise its listing, whose postal code is then the corrected reading |
| Scrapemind.ParsedPostalShape | scraper/apify_scrapemind.go:45-77 | a parsed postal code is empty or a six-character A1A1A1 code |
| Scrapemind.ParseBarePostalFails | scraper/apify_scrapemind.go:58 | a record whose address is the bare code "N9A1B2" reaches the panicking slice, so it gives no listing |
| ApifyHelpers.StripSpaces | scraper/apify_helpers.go:56-64 | never longer than the input |
| ApifyHelpers.StripSpacesNoSpace | scraper/apify_helpers.go:56-64 | no space is left |
| ApifyHelpers.StripSpacesNone | scraper/apify_helpers.go:56-64 | text without spaces is left as it is |
| ApifyHelpers.StripSpacesIdempotent | scraper/apify_helpers.go:56-64 | deleting spaces twice is deleting them once |
| ApifyHelpers.NormalizePostal | scraper/apify_helpers.go:56-64 | the loop deletes exactly the spaces |
| ApifyHelpers.CheckCanadianPostal | scraper/apify_helpers.go:30-54 | true exactly when the text without spaces is letter, digit, letter, digit, letter, digit |
| ApifyHelpers.ExtractPostalAsWrittenPanics | scraper/apify_helpers.go:15-17 | the address "N9A1B2" makes the code as written slice at a negative index |
| ApifyHelpers.ExtractPostalAgrees | scraper/apify_helpers.go:5-28 | wherever the code as written does not panic, the corrected function gives the same answer |
| ApifyHelpers.ExtractPostalBare | scraper/apify_helpers.go:5-28 | the corrected function reads the bare code "N9A1B2" |
| ApifyHelpers.AcceptShape | scraper/apify_helpers.go:19-25 | a qualifying candidate without its spaces is a six-character code |
| ApifyHelpers.ExtractPostalShape | scraper/apify_helpers.go:5-28 | any postal code found has six characters, no space and the A1A1A1 shape |
| ApifyHelpers.LastPartPostalShape | scraper/apify_helpers.go:13-27 | the same for the last part of the address |
| BrowserHandler.CityFromAddress | scraper/browser_handler.go:828-848 | of the pieces between '\|' and ',' that are non-empty once trimmed, the second-to-last; "" with fewer than two |
| BrowserHandler.ExtractCityFromAddress | scraper/browser_handler.go:828-848 | the loop and the pick compute exactly that city |
| BrowserHandler.NonEmpty | scraper/browser_handler.go:838-840 | the non-empty entries, in order |
| BrowserHandler.NonEmptyAppend | scraper/browser_handler.go:838-840 | dropping empty entries distributes over concatenation |
| BrowserHandler.KeptDropsBlank | scraper/browser_handler.go:828-848 | the browser's reading of an address is splitAddress's with the blank parts removed |
| BrowserHandler.CityFromAddressSplit | scraper/browser_handler.go:828-848 | the browser's city is the second-to-last non-blank part of splitAddress, unlike the API handler's |
| BrowserHandler.SegmentsSep | scraper/browser_handler.go:828-848 | text before its first separator is the first raw piece |
| BrowserHandler.SegmentsNone | scraper/browser_handler.go:828-848 | text without a separator is a single raw piece |
| BrowserHandler.CityOfStreetCityRest | scraper/browser_handler.go:828-848 | for "Street\|City, Province Postal" the city is the middle piece, trimmed |
| BrowserHandler.PriceExample | scraper/browser_handler.go:861-869 | "$1,149,900" reads 1149900 |
| BrowserHandler.SqFtExample | scraper/browser_handler.go:871-879 | the decimal point is skipped too, so "2360.0000" reads 23600000 |
| BrowserHandler.RunScan | scraper/browser_handler.go:886-897 | the string loop state after a prefix; it has stopped only after a digit |
| BrowserHandler.ToIntString | scraper/browser_handler.go:886-897 | the loop with its break computes the value of the first run of digits |
| BrowserHandler.RunScanStopped | scraper/browser_handler.go:886-897 | once stopped, the loop reads nothing more |
| BrowserHandler.RunScanNoDigits | scraper/browser_handler.go:886-897 | text without digits leaves the loop where it started |
| BrowserHandler.RunScanDigits | scraper/browser_handler.go:886-897 | a run of digits accumulates its decimal value |
| BrowserHandler.FirstDigitRunReads | scraper/browser_handler.go:886-897 | the first run of digits and nothing after it is read ("3 baths, 2 half" is 3) |
| BrowserHandler.FirstDigitRunLeadingZero | scraper/browser_handler.go:886-897 | a zero run counts here, so "0.5" reads 0, where parseIntString reads 5 |
| BrowserHandler.ToInt | scraper/browser_handler.go:881-902 | numbers as they are, strings by their first digit run, anything else 0 |
| BrowserHandler.ParseBedsInterface | scraper/browser_handler.go:904-910 | a string goes through parseBedrooms, anything else through toInt with no extra bedrooms |
| BrowserHandler.ParseBedsExample | scraper/browser_handler.go:904-910 | "3 + 1" gives three bedrooms and one more |
| BrowserHandler.FirstTrigger | scraper/browser_handler.go:541-551 | "" or a trigger the content contains |
| BrowserHandler.Incapsula | scraper/browser_handler.go:535-552 | "" for a results page, otherwise the first trigger the page contains |
| BrowserHandler.IncapsulaCases | scraper/browser_handler.go:535-552 | a challenge is reported exactly when the page shows no results and contains a trigger, and it is the earliest one listed |
| BrowserHandler.FirstTriggerIsFirst | scraper/browser_handler.go:541-551 | a trigger is found exactly when one occurs, and no earlier one occurs |
| BrowserHandler.DetectIncapsula | scraper/browser_handler.go:535-552 | the loop computes exactly the reference result |
| BrowserHandler.ToRawListing | scraper/browser_handler.go:668-690 | a result as a listing: no province, the city from the address, the raw result as its data |
| BrowserHandler.Decoded | scraper/browser_handler.go:663-692 | the results that decode, each as a listing, in order |
| BrowserHandler.ParseResponse | scraper/browser_handler.go:652-695 | an undecodable envelope is an error; otherwise the decodable results |
| BrowserHandler.ParseRealtorCAResponse | scraper/browser_handler.go:652-695 | the result loop computes exactly that, skipping results that do not decode |
| BrowserHandler.DecodedAppend | scraper/browser_handler.go:663-692 | concatenated responses parse to the concatenated listings |
| BrowserHandler.DecodedAll | scraper/browser_handler.go:663-692 | when every result decodes, one listing per result, in order |
| BrowserHandler.DecodedSkip | scraper/browser_handler.go:663-692 | a result that does not decode contributes nothing |
| BrowserHandler.CurrentPage | scraper/browser_handler.go:363-382 | a page only from an intercepted response that decodes and holds listings, and never an empty one |
| BrowserHandler.Landing | scraper/browser_handler.go:394-417 | a jump lands two pages short of the target, never below page 1; otherwise the session stays |
| BrowserHandler.LandingClicks | scraper/browser_handler.go:394-429 | at most five clicks forward, and at most two after a jump |
| BrowserHandler.Reach | scraper/browser_handler.go:419-429 | the page reached by clicking next toward the target, stopped at the first failed click |
| BrowserHandler.PageCursor.constructor | scraper/browser_handler.go:179-181 | no page yet and no warmup pages |
| BrowserHandler.PageCursor.Warmup | scraper/browser_handler.go:322-345 | pages 1 to 3, clicking next before pages 2 and 3 and stopping at a failed click; every page read is kept |
| BrowserHandler.PageCursor.NavigateTo | scraper/browser_handler.go:384-442 | a warmup page is handed out once and forgotten; otherwise the session moves to the target and reads it; a failed click is an error naming the page it was for |
| BrowserHandler.PageCursor.MoveTo | scraper/browser_handler.go:394-429 | a far target is jumped toward, then next is clicked until the target or the first failed click |
| BrowserHandler.WarmupReach | scraper/browser_handler.go:323-341 | the warmup reaches page 3 unless a click fails first |
| BrowserHandler.ScrapeRealtorCA | scraper/browser_handler.go:198-237 | a failing ensureBrowser or startSession is the scrape's error, in that order; otherwise the scrape succeeds with the pages the loop reads |
| BrowserHandler.ReadPages | scraper/browser_handler.go:208-236 | a failed page only ends the loop: every page before the first failed, empty or short one, the short one included, in order |
| BrowserHandler.ErrorKeepsEarlierPages | scraper/browser_handler.go:210-215 | a failing page ends the scrape with everything read before it kept |
| Enrichment.Trimmed | workers/enrichment.go:598-603 | each part trimmed of white space, the blank ones dropped, the rest in order |
| Enrichment.ExtractHTMLList | workers/enrichment.go:591-605 | no items for an empty value, otherwise exactly the trimmed, non-blank comma-separated items |
| Enrichment.TrimParts | workers/enrichment.go:596-604 | the loop over the split parts computes exactly the trimmed, non-blank parts |
| Enrichment.TrimmedItems | workers/enrichment.go:596-604 | every item kept is non-blank, has no white space at either end and no comma |
| Enrichment.ListItemsShape | workers/enrichment.go:591-605 | every item of a list value is non-blank, trimmed and comma-free |
| Enrichment.ListItemsUnguarded | workers/enrichment.go:593-595 | the early return for an empty value gives what the loop would have given |
| Enrichment.SplitJoin | workers/enrichment.go:596 | splitting a comma-joined list of comma-free parts gives the parts back |
| Enrichment.ListItemsOfJoin | workers/enrichment.go:591-605 | a list written "a, b, c" of proper items reads back as those items, in order |
| Enrichment.HTMLInt | workers/enrichment.go:575-588 | 0 for an empty value, otherwise the first run of digits in it (0 when there is none), the same reading as the browser's toInt |
| Enrichment.HTMLIntReads | workers/enrichment.go:581-585 | "Built in 1987" reads 1987: the digits after a digit-free prefix, up to the next non-digit |
| Enrichment.ReplaceFirstLength | workers/enrichment.go:506-507 | replacing the first occurrence leaves the text alone or swaps exactly one occurrence |
| Enrichment.ReplaceFirstAt | workers/enrichment.go:506-507 | the occurrence replaced is the first one |
| Enrichment.HighResRewrites | workers/enrichment.go:506-507 | a low-resolution URL is really rewritten to the high-resolution path |
| Enrichment.HTMLPhotos | workers/enrichment.go:503-512 | the photo list from the page's URL matches: each rewritten, a repeat dropped |
| Enrichment.ExtractHTMLPhotos | workers/enrichment.go:503-512 | the loop with its seen-set computes exactly that list |
| Enrichment.HTMLPhotosSpec | workers/enrichment.go:503-512 | no URL twice; every rewritten match is in the list and every entry is a rewritten match |
| Enrichment.HTMLPhotosAllKept | workers/enrichment.go:503-512 | when no two matches rewrite alike, every rewritten match is kept, in page order |
| Enrichment.PagePhotosAsWritten | workers/enrichment.go:411-431 | the photo list of extractData as written, with the seen-check made before rewriting |
| Enrichment.ExtractPagePhotosAsWritten | workers/enrichment.go:411-431 | the loops over the selectors' images compute exactly that list |
| Enrichment.PagePhotosAsWrittenRepeats | workers/enrichment.go:423-428 | a URL the rewrite changes, shown twice, is kept twice |
| Enrichment.PagePhotosAsWrittenDuplicate | workers/enrichment.go:423-428 | the same low-resolution photo shown twice ends up twice in the list |
| Enrichment.PagePhotos | workers/enrichment.go:411-431 | the photo list with the seen-check on the rewritten URL, as in the HTML path |
| Enrichment.PagePhotosSpec | workers/enrichment.go:411-431 | the corrected list has no repeats and keeps the rewritten URL of every realtor.ca image |
| Enrichment.PagePhotosAgree | workers/enrichment.go:411-431 | where no candidate is rewritten, the code as written and the corrected list agree |
| Enrichment.Enrich | workers/enrichment.go:285-298 | with a ScrapingBee key its outcome is final, a failure wrapped with "scrapingbee: " and Playwright never tried; without a key, the Playwright outcome |
| Enrichment.BlockedThroughWrap | workers/enrichment.go:806 | a ScrapingBee error that says it was blocked still counts as blocked once wrapped |
| Enrichment.Merged | workers/enrichment.go:700-707 | an empty description or a zero story count keeps the stored value, the features are replaced, and the row is marked enriched and no longer pending |
| Enrichment.AttemptRule | workers/enrichment.go:763-823 | only a failed fetch counts an attempt, the count never passes three, and a row stays pending exactly when the fetch failed with attempts to spare or its update failed |
| Enrichment.VerdictOf | workers/enrichment.go:801-825 | enriched exactly when the fetch and the update succeed; blocked exactly when the fetch failed with an Incapsula or blocked error |
| Enrichment.YearStep | workers/enrichment.go:730-738 | a positive year is written only into a property whose year is still unknown; no property is added |
| Enrichment.Tally | workers/enrichment.go:798-825 | the number of handled listings with a given verdict, at most the number handled |
| Enrichment.GaveUpIds | workers/enrichment.go:812-815 | the listings given up on, at most the number handled |
| Enrichment.YearsAfter | workers/enrichment.go:799-830 | the property years after the listings, with the same properties |
| Enrichment.TallyTotal | workers/enrichment.go:798-825 | every handled listing is counted exactly once: enriched, blocked or failed |
| Enrichment.GaveUpFinal | workers/enrichment.go:812-815 | a listing given up on had its fetch fail and is never selected again |
| Enrichment.YearsAfterKeeps | workers/enrichment.go:730-738 | a stored year is never overwritten, and only positive years are written |
| Enrichment.EnrichmentWorker.constructor | workers/enrichment.go:46-70 | the worker holds the given key and tables, with no trigger pending |
| Enrichment.EnrichmentWorker.Trigger | workers/enrichment.go:73-78 | a trigger is left pending; a second one while one is pending is dropped |
| Enrichment.EnrichmentWorker.Select | workers/enrichment.go:763-794 | pending listings only, no repeats, oldest first, at most the batch size, with none older than a listing taken left out |
| Enrichment.EnrichmentWorker.UpdateListing | workers/enrichment.go:679-741 | on success the row is merged and the property's year set when still unknown; a failed update changes nothing |
| Enrichment.EnrichmentWorker.Handle | workers/enrichment.go:799-830 | one listing handled: its row and the property year updated, its verdict and give-up reported |
| Enrichment.EnrichmentWorker.ProcessBatch | workers/enrichment.go:762-843 | a failed query changes nothing; otherwise the selected rows are handled, the others are untouched, and the counters and give-ups are those of the selection |
| Enrichment.EnrichmentWorker.HandleAll | workers/enrichment.go:798-830 | the loop handles every selected listing in order, with counters matching the tallies |
| ConnString.SepAtSlice | main.go:132 | the position test is the comparison of three bytes with "://" |
| ConnString.SchemeFrom | main.go:131-136 | zero, or one past a "://" that starts before the last three bytes |
| ConnString.AtIndex | main.go:144-151 | the first '@' at or after the scheme, or the end of the text |
| ConnString.ColonIndex | main.go:145-147 | the first ':' between the scheme and the '@', or the '@' itself |
| ConnString.MaskConnectionString | main.go:128-157 | the two loops and the final test compute exactly the masked text |
| ConnString.FindScheme | main.go:130-136 | the first loop stops one past the first "://", or leaves 0 |
| ConnString.FindColonAndAt | main.go:142-152 | -1 for a missing '@'; otherwise the first '@', and the first ':' before it or -1 |
| ConnString.SchemeFromFirst | main.go:131-136 | no earlier "://" is skipped, and a text without one gives 0 |
| ConnString.MaskNoScheme | main.go:137-139 | a text without "://" is logged unchanged |
| ConnString.MaskOfIndices | main.go:154-155 | with a scheme, an '@' and a ':' before it, the mask keeps the text through the ':', puts "****" in place of the password and keeps the text from the '@' |
| ConnString.MaskAt | main.go:154-155 | the password between the user's ':' and the '@' becomes "****", everything else is kept |
| ConnString.MaskNoAt | main.go:154-157 | without an '@' after the scheme the text is unchanged |
| ConnString.MaskNoColon | main.go:154-157 | without a ':' before the '@' the text is unchanged |
| ConnString.MaskIdempotent | main.go:128-157 | masking a masked text changes nothing |
| Util.TakeOldest | storage/postgres.go:421-423 | the keys of the rows of least age, oldest first, at most the limit, none repeated and none older than one taken left out: a query with ORDER BY and LIMIT |

## Left out

- I/O is not modelled. There are no HTTP requests, no browser automation, no Apify or ScrapingBee calls, no S3 uploads and no SQL text. Their outcomes are inputs: fetch results, probe results, page outcomes, upload results, and a set of failing store operations.
- Concurrency is not modelled: the worker `Run` loops, tickers, contexts and channel receives. `Signal.TriggerSlot.Take` stands for the receive.
- Sleeps, jitter and logging are left out, and so is `SetLogger`.
- JSON encoding and decoding are inputs: a record arrives decoded or as an error. So are `ProcessStats.ToJSON`, `MarshalStatus` and the feature JSON of the enrichment update, which is an opaque string.
- SHA-256 is a parameter, and so are content hashes of downloaded media.
- UUID generation is not modelled; fresh ids come from `Models.IdSource` or are chosen outside the store.
- Go `int` overflow is not modelled: integers are unbounded, so a huge digit string in `parsePrice` or `toInt` does not wrap.
- Floating point is not modelled: prices are integers.
- BrowserHandler.ToInt does not model the truncation of the `float64` arm, which it takes as an already truncated integer.
- Map iteration order is not modelled: `streetReplacements` and the configured sites are fixed sequences, so results are stated relative to that order.
- Postgres store operations not used by the modelled flows are left out: `GetPropertyByID`, `GetLatestEventForProperty`, `GetLatestPricePoint`, `CreateScrapeLog`, `Close` and `Pool`.
- SQLite operations outside the modelled flows are left out: `GetPropertyCount`, `GetOldestActiveProperty`, `MarkPropertyInactive`, `MarkAllUnsynced`, `GetPendingCommands`, `MarkCommandProcessed`, `HasRecentSnapshot`, `SetResumePage`, `ClearResumePage`, `GetSitesWithResumePage`, `GetLastRunTime`, `ResetAllData`, `Log` and `migrate` (schema text only).
- Orchestrator.Orchestrator.RunSite does not update the site statistics (`UpdateSiteStats`) in its deferred call, which writes to a table nothing in the model reads.
- The orchestrator's `IsPaused`, `GetSiteIDs`, `log` and `SetServices` are plain accessors and setters and are left out.
- `MediaService.GetQueueDepth` is left out: it is a read-only count per status.
- `HealthcheckService.GetStaleListings` is left out: it only forwards to `Postgres.Store.GetStaleActiveListings`.
- `NoOpUploader` is left out; the uploader is an input.
- The Apify network flow in `scraper/apify_handler.go` is left out, and so are the adapters' `BuildInput` maps. Only the days rule, Canadesk.Days, is modelled.
- Browser automation is left out: the launch, sessions, stealth scripts, response interception, and the Incapsula waits. The outcomes of `ensureBrowser` and `startSession` are inputs of BrowserHandler.ScrapeRealtorCA; `Close` is left out.
- `navigateToPage` is modelled only by its page bookkeeping and treats the outcome of each click as an input.
- `extractPrice` and `extractJSONLD` of the health check are left out: the price read from a page is a parameter.
- Enrichment leaves out `extractText` and `extractInt`'s use of `fmt.Sscanf`, `extractHTMLValue`'s regular expression, `extractRooms` and the room regular expression, the description and legal-description extraction, `getListingLocation`, `parseProxyURL`, and the ScrapingBee and Playwright fetches. Page values arrive as strings and the page's photo matches as a sequence.
- Enrichment.EnrichmentWorker.UpdateListing does not model the photo enqueue at workers/enrichment.go:714-728, whose failures are only logged.
- Enrichment.EnrichmentWorker.Handle treats the attempts UPDATE and the year UPDATE as always succeeding, since the source ignores their errors.
- Enrichment.EnrichmentWorker.ProcessBatch does not model row `Scan` errors, which skip a row, or the batch summary log.
- Match.InsertPotentialMatches: a failure after some candidates were inserted is not modelled. The source then returns the partial count and keeps the rows already written; the model's failing insert fails on the first accepted candidate, so it reports 0 and no new row. A failing row `Scan` and `rows.Err` are not modelled.
- Match.InsertScored: the same; the partial count of a later insert failure is not modelled.
- SQLite.InsertPotentialMatches: the same; a failure after some inserts, and the `Scan` and `rows.Err` errors, are not modelled.
- SQLite.InsertAll: the same; the partial count of a later insert failure is not modelled.
- The LIKE filter of SQLite.LocalStore.QueryCandidates is modelled as a prefix test. Its prefix comes from the normalised address, which holds only lower-case letters, digits and spaces, so it never contains SQLite's wildcards `%` or `_`. The Postgres filter is modelled with its wildcards, since its prefix comes from the address only lower-cased and trimmed, which keeps its punctuation.
- ApiHandler.ScrapeRealtorCA and BrowserHandler.ScrapeRealtorCA require that some page stops the loop. Neither Go loop has a page cap, so a server that answers with full pages forever keeps the loop running; that case is not modelled.
- Scrapemind.ParseListing models the panic of extractPostalFromAddress on a six-byte last address part as an error result. The source has no recover on that path, so there the process crashes.
- Supabase.BuildSupabaseProperty does not carry the latest snapshot's realtor JSON into the document (storage/supabase.go:103): the snapshot model has no realtor field, since that JSON is opaque.
- Strings are ASCII only: there is no Unicode case folding or white space beyond ASCII.

## Findings

| source | as written | input that shows it | evidently intended | confidence | as-written member | corrected member |
|---|---|---|---|---|---|---|
| scraper/apify_helpers.go:15-17 | when the last address part is at least six bytes long, the seven-byte suffix is sliced from `len(last)-7`, which is negative for a part of exactly six bytes, so the slice panics | the address "N9A1B2", whose single part is a bare six-character postal code | try the seven-byte suffix only when the part is that long, then the six-byte one; "N9A1B2" gives "N9A1B2" | not executed | ApifyHelpers.ExtractPostalAsWrittenPanics | ApifyHelpers.ExtractPostalBare |
| workers/enrichment.go:423-428 | the seen-check looks up the URL before it is rewritten to the high-resolution path, while the set records the rewritten URL, so a low-resolution URL is never found in the set. The defect is latent: extractData has no caller, and both fetch paths use extractDataFromHTML (workers/enrichment.go:343, 397) | the same image `realtor.ca/lowres/1.jpg` shown twice on the page | look up the rewritten URL, as the HTML path does at workers/enrichment.go:506-508, so each photo appears once | not executed | Enrichment.PagePhotosAsWrittenDuplicate | Enrichment.PagePhotosSpec |
