# where-its-at, modelled in Dafny

where-its-at is a federated music and event search service written in Go. A
query for an artist, or for the events of an artist or of a city, is sent to
many remote catalogues at once:

- music sources: Spotify, Last.fm, Apple Music, MusicBrainz, Deezer, SoundCloud and YouTube Music;
- event sources: Bandsintown, Songkick, Ticketmaster, Eventbrite and setlist.fm;
- two HTML scrapers: Bandcamp and Resident Advisor.

Each source has an adapter that does three things:

- it checks and clamps the request;
- it takes a slot from a rate limiter;
- it converts the source's records into the shared `Artist` and `Event` records.

The federated aggregator gathers the sources' answers in whatever order they
arrive. It then counts the results per source, deduplicates them on normalised
keys, sorts them, truncates them to the limit and writes them through to a TTL
cache. The service layer sits on top of that:

- an artist service that merges a local store with a two-source aggregator;
- an event service that serves fresh cached events or fetches them from Bandsintown;
- HTTP handlers that turn query parameters into calls and errors into statuses.

The configuration is read from a file, filled with defaults, overridden from
the environment and validated.

This project models that core, and its proofs state what each piece
promises. Most core Go files have a Dafny module of their own, named after
the file. The exceptions:

- `mega_aggregator.go` is split into `Federated` (the aggregator), `Dedup`
  (the deduplicator), `Sorting` (the `sort.Slice` calls) and `ResultCache`
  (the TTL cache).
- The rate limiters live in modules of their own, shared by the adapters that
  use the same kind: `SlidingWindow` (the limiter of `songkick.go`) and
  `Throttle` (the spacing rule of `musicbrainz.go` and of the scrapers).
- `Domain` holds the records and the sentinel errors of `pkg/domain`.
- Some modules gather pieces that several files share:
  - `Remote`: the reply handling of the clients;
  - `Http`: the query parameters of the handlers;
  - `Keywords`: the genre keyword scan of `youtube_music.go` and `soundcloud.go`;
  - `ScraperLocation`: the `parseLocation` helper that `bandcamp.go` and `resident_advisor.go` each carry.

- Code that updates objects in place is modelled with classes: the rate
  limiters, the aggregator's cache, the clients that own a limiter, the
  scraper registry and the configuration.
- Conversion and decision code is modelled with functions and lemmas.
- Every loop the source runs over a payload becomes a method, proved against
  the function that specifies it.

Remote calls, stores and clocks are parameters:

- A remote call is the reply it would get: a transport failure, or a status
  with a body that decoded or failed to decode.
- A store call is the answer it would give.
- The current time is an explicit instant.

Times are integer nanoseconds. A date that an event carries also carries the
calendar day it shows in its own time zone. String case mapping is ASCII only.

Three modules model the parts of Go's standard library that the core relies
on. Their members are helpers and have no row below:

- `Text`: the `strings` package;
- `Numerals`: `%d` formatting, `strconv.Atoi` and `fmt.Sscanf`;
- `Sequences`: the append loop that every adapter runs.

## Model

| member | source | states |
|---|---|---|
| Domain.FirstParse | pkg/integrations/sources/scrapers/base_scraper.go:156-163 | the layouts are tried in order: no result exactly when no layout accepts the text, otherwise the result of the first layout that does |
| Domain.DayKey | pkg/integrations/mega_aggregator.go:552 | the `"20060102"` key of a time is eight digits |
| Domain.DayKeyInjective | pkg/integrations/mega_aggregator.go:552 | two times with the same day key show the same calendar date |
| Domain.SentinelMessagesDistinct | pkg/domain/errors.go:8-17 | distinct sentinel errors have distinct messages |
| Domain.SlugHasNoSpace | pkg/integrations/sources/scrapers/base_scraper.go:219 | the lower-cased, space-to-underscore slug used in IDs holds no space |
| Remote.StatusError | pkg/integrations/bandsintown.go:134-136 | a status failure is a wrapped error reading `<what> failed: status <code>` |
| Remote.StatusErrorInjective | pkg/integrations/bandsintown.go:134-136 | the status code can be recovered from a status failure's message |
| Remote.Expect | pkg/integrations/bandsintown.go:125-141 | a transport error is wrapped with the caller's prefix, a status other than 200 becomes a status failure, a body that does not decode becomes `failed to decode response`, and the decoded body is returned exactly when the status is 200 and it decodes |
| Remote.ExpectDecoded | pkg/integrations/spotify.go:185-197 | the same round trip for a client whose decode error names the payload |
| Dedup.NormalizeAsWithout | pkg/integrations/mega_aggregator.go:541-547 | the three `ReplaceAll` calls with an empty replacement remove every space, dot and hyphen from the lower-cased name |
| Dedup.NormalizeArtistNameChars | pkg/integrations/mega_aggregator.go:541-547 | a normalised name holds exactly the lower-cased name's characters that are not space, dot or hyphen |
| Dedup.NormalizedIsClean | pkg/integrations/mega_aggregator.go:541-547 | a normalised name has no upper-case letter and no separator |
| Dedup.NormalizeArtistNameIdempotent | pkg/integrations/mega_aggregator.go:541-547 | normalising a normalised name changes nothing |
| Dedup.EventKeyEndsWithDay | pkg/integrations/mega_aggregator.go:549-554 | an event key ends with the event's eight-digit day |
| Dedup.EventKeysSeparateDays | pkg/integrations/mega_aggregator.go:549-554 | events on different calendar days never share a key, so deduplication never merges them |
| Dedup.Deduplicate | pkg/integrations/mega_aggregator.go:511-539 | the `seen`-set loop returns exactly the first item of each key, in input order |
| Dedup.KeepFirstSubseq | pkg/integrations/mega_aggregator.go:511-539 | the survivors are a subsequence of the input, so order is kept and nothing is added |
| Dedup.KeepFirstKeys | pkg/integrations/mega_aggregator.go:511-539 | the survivors carry every key of the input and no other |
| Dedup.KeepFirstUnique | pkg/integrations/mega_aggregator.go:511-539 | no two survivors share a key |
| Dedup.KeepFirstKeepsFirsts | pkg/integrations/mega_aggregator.go:511-539 | the first item of every key survives |
| Dedup.KeepFirstOnlyFirsts | pkg/integrations/mega_aggregator.go:511-539 | every survivor is the first item of its key |
| Sorting.Insert | pkg/integrations/mega_aggregator.go:166-168 | inserting into a sorted list keeps it sorted and adds exactly the new element |
| Sorting.SortByRank | pkg/integrations/mega_aggregator.go:166-168 | `sort.Slice` returns a permutation of its input that is sorted by the "less" function |
| Sorting.TakeSorted | pkg/integrations/mega_aggregator.go:170-173 | cutting a sorted list at the limit keeps it sorted, and no element cut off ranks before one kept |
| Throttle.Remaining | pkg/integrations/sources/music/musicbrainz.go:378-386 | the sleep is never negative, is zero once an interval has passed since the previous request, and otherwise ends exactly one interval after it |
| SlidingWindow.PruneKeeps | pkg/integrations/sources/events/songkick.go:491-499 | pruning keeps exactly the timestamps after the cutoff, in order |
| SlidingWindow.PruneIdempotent | pkg/integrations/sources/events/songkick.go:491-499 | pruning twice at the same cutoff is pruning once |
| SlidingWindow.PruneNothing | pkg/integrations/sources/events/songkick.go:491-499 | pruning drops nothing when every timestamp is inside the window |
| SlidingWindow.RunWithinWindow | pkg/integrations/sources/events/songkick.go:488-510 | calls that all fall within one window admit at most `limit` requests, counting those already logged |
| SlidingWindow.SlidingWindowLimiter.constructor | pkg/integrations/sources/events/songkick.go:481-486 | a new limiter has an empty log, the given limit and the given window |
| SlidingWindow.SlidingWindowLimiter.Allow | pkg/integrations/sources/events/songkick.go:488-510 | the log is pruned to the window ending now; at the limit the call is refused with the rate-limit error, otherwise it is admitted and `now` is logged |
| ResultCache.LookupAfterStore | pkg/integrations/mega_aggregator.go:577-599 | a stored result is read back under its key until `now + ttl` and not after |
| ResultCache.StoreKeepsOtherKeys | pkg/integrations/mega_aggregator.go:590-599 | a write leaves every other key's lookup as it was |
| ResultCache.LastSeparator | pkg/integrations/mega_aggregator.go:581 | two `a_x` keys are equal only with equal parts when neither tail holds `_` |
| ResultCache.ArtistsKeyInjective | pkg/integrations/mega_aggregator.go:581 | artist-search keys never collide: equal keys mean equal query and limit |
| ResultCache.EventsKeyCollision | pkg/integrations/mega_aggregator.go:605 | event-search keys do collide: artist `a_b` in city `c` and artist `a` in city `b_c` share a key |
| ResultCache.ArtistAndCityKeysCollide | pkg/integrations/mega_aggregator.go:605 | an artist event search and a location search can share a key (artist `_b`, city `b_`) |
| ResultCache.AggregatorCache.constructor | pkg/integrations/mega_aggregator.go:569-575 | a new cache has the given TTL and two empty maps |
| ResultCache.AggregatorCache.GetArtists | pkg/integrations/mega_aggregator.go:577-588 | a result is returned exactly when its key is stored and has not expired at `now`, and it is the stored one |
| ResultCache.AggregatorCache.SetArtists | pkg/integrations/mega_aggregator.go:590-599 | the artist map gets the key `query_limit` overwritten with an entry expiring at `now + ttl`, nothing else changes |
| ResultCache.AggregatorCache.GetEvents | pkg/integrations/mega_aggregator.go:601-612 | a result is returned exactly when its key is stored and has not expired at `now`, and it is the stored one |
| ResultCache.AggregatorCache.SetEvents | pkg/integrations/mega_aggregator.go:614-623 | the event map gets the key `artist_city_limit` overwritten with an entry expiring at `now + ttl`, nothing else changes |
| Federated.ConfigDefaults | pkg/integrations/mega_aggregator.go:61-72 | after defaults no numeric setting is zero, and each non-zero setting is kept |
| Federated.ConfigDefaultsIdempotent | pkg/integrations/mega_aggregator.go:61-72 | filling in the defaults twice changes nothing more |
| Federated.EffectiveLimit | pkg/integrations/mega_aggregator.go:104-106 | the limit is positive: a positive limit is kept, any other becomes 50 |
| Federated.Collect | pkg/integrations/mega_aggregator.go:146-159 | the collection loop gathers the items of the successful replies in arrival order, the last count per source name, and one error line per failed reply |
| Federated.GatherAppend | pkg/integrations/mega_aggregator.go:146-159 | what two runs of replies gather is the concatenation of what each gathers |
| Federated.GatherPermutation | pkg/integrations/mega_aggregator.go:146-159 | replies arriving in another order gather the same multiset of items |
| Federated.CollectionOrderFree | pkg/integrations/mega_aggregator.go:146-159 | the goroutines' arrival order changes only the order of the items and of the error lines, never what they are |
| Federated.ErrorsCount | pkg/integrations/mega_aggregator.go:152-155 | there is exactly one error line per failed reply |
| Federated.ErrorsFromFailures | pkg/integrations/mega_aggregator.go:152-155 | every error line comes from a failed reply and reads `<name>: <error>` |
| Federated.StatsKeys | pkg/integrations/mega_aggregator.go:157 | the names in `sourceStats` are exactly the names of the successful replies |
| Federated.StatsLatest | pkg/integrations/mega_aggregator.go:157 | a success not overwritten by a later one of the same name leaves its count before deduplication |
| Federated.TakeMultiset | pkg/integrations/mega_aggregator.go:170-173 | cutting a permutation keeps a sub-multiset of the input, and what is dropped is exactly the tail |
| Federated.Finish | pkg/integrations/mega_aggregator.go:166-173 | sort then cut returns at most `limit` elements, sorted, drawn from the input, none of them ranking after any element left out, and all of them when there are no more than `limit` |
| Federated.Process | pkg/integrations/mega_aggregator.go:146-173 | collect, deduplicate when enabled, sort and cut: the results are the top `limit` of the (deduplicated) collected items, with the collected counts and error lines |
| Federated.ArtistLess | pkg/integrations/mega_aggregator.go:166-168 | the artist order is "higher popularity first" |
| Federated.EventLess | pkg/integrations/mega_aggregator.go:291-304 | the event order puts an upcoming event before a past one, and otherwise the earlier start first |
| Federated.ArtistsByPopularity | pkg/integrations/mega_aggregator.go:166-168 | a list is sorted exactly when its popularity never increases |
| Federated.EventsUpcomingFirst | pkg/integrations/mega_aggregator.go:289-304 | a list of events is sorted exactly when upcoming events come first and start times never decrease within each group |
| Federated.ConvertScraped | pkg/integrations/mega_aggregator.go:250-254 | each scraped event is converted with `ToEvent`, in order |
| Federated.Receive | pkg/integrations/mega_aggregator.go:241-259 | a scraper's error becomes a reply holding only the error, and its events become a reply with the converted events |
| Federated.MegaAggregator.constructor | pkg/integrations/mega_aggregator.go:60-87 | defaults are filled in, no source is registered, and a fresh empty cache exists only when caching is enabled |
| Federated.MegaAggregator.RegisterMusicSource | pkg/integrations/mega_aggregator.go:89-91 | the source is stored under its name, replacing any earlier one |
| Federated.MegaAggregator.RegisterEventSource | pkg/integrations/mega_aggregator.go:93-95 | the source is stored under its name, replacing any earlier one |
| Federated.MegaAggregator.RegisterScraper | pkg/integrations/mega_aggregator.go:97-99 | the scraper is stored in the registry under its name |
| Federated.MusicCalls | pkg/integrations/mega_aggregator.go:124-138 | every music source is asked for the query with the per-source cap, and there is no other call |
| Federated.ArtistCalls | pkg/integrations/mega_aggregator.go:215-262 | every event source, and every scraper taking part, is asked for the artist with the per-source cap, and there is no other call |
| Federated.LocationCalls | pkg/integrations/mega_aggregator.go:356-402 | every event source, and every scraper taking part, is asked for the city and the country with the per-source cap, and there is no other call |
| Federated.MegaAggregator.SearchArtists | pkg/integrations/mega_aggregator.go:101-191 | a cache hit is returned unchanged without asking any source; otherwise every music source is asked for the query with `maxResultsPerSource`, the replies are collected, deduplicated when enabled, sorted by popularity and cut to the limit, the total is the number kept, and the result is cached under `query_limit` |
| Federated.MegaAggregator.SearchEvents | pkg/integrations/mega_aggregator.go:193-326 | the same pipeline over the event sources and, when enabled, the scrapers, each asked for the artist with `maxResultsPerSource`, the scrapers' events converted, sorted upcoming first and cached under `(artist, "", limit)` |
| Federated.MegaAggregator.SearchEventsByLocation | pkg/integrations/mega_aggregator.go:328-461 | the same pipeline for a location, each source and scraper asked for the city and the country with `maxResultsPerSource`, cached under `("", city, limit)` so the country plays no part in the key |
| Federated.MegaAggregator.GetSourceStats | pkg/integrations/mega_aggregator.go:463-490 | every music source, event source and (when enabled) scraper is listed as active, with a later kind winning a shared name |
| Scrapers.SqueezeReplace | pkg/integrations/sources/scrapers/base_scraper.go:135-137 | one pass of replacing double spaces by single ones does not change the fully squeezed text, so the loop's passes converge on it |
| Scrapers.SqueezeFixed | pkg/integrations/sources/scrapers/base_scraper.go:135 | a text without a double space is left as it is, which is where the loop stops |
| Scrapers.ReplaceShrinks | pkg/integrations/sources/scrapers/base_scraper.go:135-137 | each pass of the loop shortens a text that still holds a double space, so the loop ends |
| Scrapers.SqueezeKeepsNonSpaces | pkg/integrations/sources/scrapers/base_scraper.go:135-137 | collapsing spaces removes spaces and nothing else |
| Scrapers.ExtractText | pkg/integrations/sources/scrapers/base_scraper.go:129-140 | the text is trimmed, newlines and tabs become spaces, and the result holds no double space, no newline and no tab |
| Scrapers.ExtractTexts | pkg/integrations/sources/scrapers/bandcamp.go:191-197 | every non-empty extracted text of the tag nodes, in order |
| Scrapers.TextsNonEmpty | pkg/integrations/sources/scrapers/bandcamp.go:194 | no collected text is empty |
| Scrapers.ParseDate | pkg/integrations/sources/scrapers/base_scraper.go:142-167 | the trimmed text is parsed by the first layout that accepts it; when none does, the result is the current time |
| Scrapers.ScraperRateLimiter.constructor | pkg/integrations/sources/scrapers/base_scraper.go:174-178 | a new throttle has the delay and no previous request |
| Scrapers.ScraperRateLimiter.Wait | pkg/integrations/sources/scrapers/base_scraper.go:180-195 | when a sleep is due and the context ends first, its error is returned and the last request is unchanged; otherwise the call returns after the remaining delay and records that instant, at least one delay after the previous request |
| Scrapers.WithDefaults | pkg/integrations/sources/scrapers/base_scraper.go:27-40 | after defaults no setting is empty or zero, and each setting given is kept |
| Scrapers.WithDefaultsIdempotent | pkg/integrations/sources/scrapers/base_scraper.go:27-40 | filling in the defaults twice changes nothing more |
| Scrapers.RetryFailure | pkg/integrations/sources/scrapers/base_scraper.go:75-112 | the retry loop fails in only two ways: the context ended before a pause (a backoff or the 5-second wait after a 429) was over, and its error is returned; or every attempt was made and the last one was a transport error, returned wrapped after all the pauses |
| Scrapers.RetryUncancelled | pkg/integrations/sources/scrapers/base_scraper.go:75-112 | when the context does not end before all the pauses are over, at least one attempt is made and the loop ends after exactly the pauses it took; a run ending on a status (a success, a 4xx, or a 429 or 5xx on every attempt) returns that response, closed exactly when it was retryable; it fails only after a transport error on the last allowed attempt |
| Scrapers.RetryLoop | pkg/integrations/sources/scrapers/base_scraper.go:72-112 | the loop computes the retry function, so both lemmas above hold of it; at most `MaxRetries + 1` attempts, every one but the last retryable (transport error, 429 or 5xx); a returned response is the last attempt's, closed exactly when it was retryable; a final transport error is wrapped as `request failed after N attempts`; without cancellation the loop sleeps the sum of the backoffs `k*k` seconds and the 5-second pauses after a 429 |
| Scrapers.BaseScraper.constructor | pkg/integrations/sources/scrapers/base_scraper.go:27-48 | the configuration with defaults filled in and a fresh throttle with its delay |
| Scrapers.BaseScraper.MakeRequest | pkg/integrations/sources/scrapers/base_scraper.go:50-112 | when the throttle's sleep is cut short by the context, its error is returned without any attempt and the last request is unchanged; otherwise the throttle records the instant the request leaves, and the outcome, the number of attempts and the end are the retry loop's from that instant, with its failures explained as above |
| Scrapers.ToEvent | pkg/integrations/sources/scrapers/base_scraper.go:210-232 | the event keeps the artist name and date, takes its venue from the scraped venue, city and country, and is cached for 24 hours |
| Scrapers.ScrapedIDsByDay | pkg/integrations/sources/scrapers/base_scraper.go:218-219 | for one artist slug, two scraped events get the same ID exactly when they fall on the same calendar day |
| Scrapers.ScraperRegistry.constructor | pkg/integrations/sources/scrapers/base_scraper.go:244-248 | a new registry is empty |
| Scrapers.ScraperRegistry.Register | pkg/integrations/sources/scrapers/base_scraper.go:250-252 | the scraper is stored under its name, replacing any earlier one |
| Scrapers.ScraperRegistry.GetScraper | pkg/integrations/sources/scrapers/base_scraper.go:254-257 | a scraper is found exactly when its name is registered, and it is the one registered |
| Scrapers.ScraperRegistry.GetAllScrapers | pkg/integrations/sources/scrapers/base_scraper.go:259-265 | every registered scraper exactly once, and nothing else |
| Scrapers.ScraperRegistry.Names | pkg/integrations/sources/scrapers/base_scraper.go:261 | the registered names, each once, in some order |
| Scrapers.ScraperRegistry.ScrapeAll | pkg/integrations/sources/scrapers/base_scraper.go:267-280 | never fails; the events are those of the scrapers that succeeded, in the order the map is visited, with each scraper visited once |
| ScraperLocation.ParseLocation | pkg/integrations/sources/scrapers/bandcamp.go:355-363 | only the city and the country of the event change |
| ScraperLocation.ParseLocationMeans | pkg/integrations/sources/scrapers/bandcamp.go:355-363 | without a comma the trimmed text becomes the city and the country is kept; with a comma the city is the trimmed text before the first comma and the country the trimmed text after the last |
| Bandcamp.MentionsAny | pkg/integrations/sources/scrapers/bandcamp.go:343-348 | true exactly when the address contains one of the excluded paths |
| Bandcamp.IsArtistURLMeans | pkg/integrations/sources/scrapers/bandcamp.go:341-353 | an excluded path always disqualifies an address; otherwise it qualifies exactly when it contains `.bandcamp.com` or is a relative path without `?` |
| Bandcamp.SearchIsNoArtist | pkg/integrations/sources/scrapers/bandcamp.go:343-348 | an address containing `/search` is never an artist page |
| Bandcamp.ArtistLinks | pkg/integrations/sources/scrapers/bandcamp.go:93-119 | the normalised artist addresses of the anchors in document order, stopping after `max` |
| Bandcamp.NameFromTitle | pkg/integrations/sources/scrapers/bandcamp.go:172-180 | the artist name is never empty, and is `Unknown Artist` when the page has no title |
| Bandcamp.NameFromTitleMeans | pkg/integrations/sources/scrapers/bandcamp.go:172-201 | a title without `" \| "` is the name; with one, the trimmed text before the first is the name, or `Unknown Artist` when it is empty |
| Bandcamp.ArtistOf | pkg/integrations/sources/scrapers/bandcamp.go:169-203 | the artist keeps its address, takes its name from the title, and has no city or country without a bio |
| Bandcamp.ShowItemMeans | pkg/integrations/sources/scrapers/bandcamp.go:228-262 | a show is titled `<artist> Live`, carries the artist's name and genres, has the zero date without a date node, and falls back to the artist's city and country |
| Bandcamp.ParseShowsPage | pkg/integrations/sources/scrapers/bandcamp.go:206-226 | one event per show item, in document order |
| Bandcamp.CreateEventsFromReleases | pkg/integrations/sources/scrapers/bandcamp.go:277-292 | the loop examines at most `limit` release nodes and keeps the titled ones, in order |
| Bandcamp.ReleaseEventsBounded | pkg/integrations/sources/scrapers/bandcamp.go:281-290 | each release node gives at most one event, placed at the release venue a month ago under the artist's name |
| Bandcamp.ScrapeArtistEvents | pkg/integrations/sources/scrapers/bandcamp.go:122-155 | the artist's shows cut to `limit`, or the release events when the shows page fails or is empty; the artist page's error is returned as is |
| Bandcamp.ArtistEventsBounded | pkg/integrations/sources/scrapers/bandcamp.go:122-155 | one artist never yields more than its share |
| Bandcamp.SearchLimit | pkg/integrations/sources/scrapers/bandcamp.go:36-41 | the limit is 10 when not positive and at most 50 |
| Bandcamp.Share | pkg/integrations/sources/scrapers/bandcamp.go:50-53 | each artist's share is at least one, and when more than one the shares fit in the limit |
| Bandcamp.CollectEvents | pkg/integrations/sources/scrapers/bandcamp.go:55-68 | failed artists are skipped and the result is the first `limit` events of the batches, in order |
| Bandcamp.ScrapeEventsAsWritten | pkg/integrations/sources/scrapers/bandcamp.go:30-71 | the search as written panics exactly when the query is not blank, the search page loads and it holds no artist link |
| Bandcamp.NoArtistLinks | pkg/integrations/sources/scrapers/bandcamp.go:96-108 | a search page whose anchors are all empty or excluded yields no artist address |
| Bandcamp.ScrapeEvents | pkg/integrations/sources/scrapers/bandcamp.go:30-71 | a blank query is refused with `query cannot be empty`; no artist link gives no events; otherwise never more events than the clamped limit |
| Bandcamp.ScrapeEventsByLocation | pkg/integrations/sources/scrapers/bandcamp.go:73-77 | a location search is the search for the city name; the country is ignored |
| ResidentAdvisor.LocationCode | pkg/integrations/sources/scrapers/resident_advisor.go:252-294 | the code of the lower-cased city in the fixed table, or empty for an unknown city |
| ResidentAdvisor.LocationCodeKnown | pkg/integrations/sources/scrapers/resident_advisor.go:252-294 | the code is non-empty exactly for a city in the table |
| ResidentAdvisor.LocationCodeIgnoresCase | pkg/integrations/sources/scrapers/resident_advisor.go:252-294 | the lookup ignores the city's case and the country |
| ResidentAdvisor.Headline | pkg/integrations/sources/scrapers/resident_advisor.go:159-176 | the artist name is the title, a missing date is the zero time, and nothing else is set |
| ResidentAdvisor.Located | pkg/integrations/sources/scrapers/resident_advisor.go:179-182 | only the city and country change, and nothing changes without a location node |
| ResidentAdvisor.Linked | pkg/integrations/sources/scrapers/resident_advisor.go:185-191 | only the address changes, and nothing changes without a link |
| ResidentAdvisor.Defaulted | pkg/integrations/sources/scrapers/resident_advisor.go:193-199 | a missing artist becomes `Unknown Artist`, a zero date becomes the current time, and nothing else changes |
| ResidentAdvisor.EventOfMeans | pkg/integrations/sources/scrapers/resident_advisor.go:158-202 | a parsed event always has an artist and a date set, and only the texts of its own node |
| ResidentAdvisor.ParseEventList | pkg/integrations/sources/scrapers/resident_advisor.go:114-132 | the loop examines at most `limit` nodes and keeps the titled events, in order |
| ResidentAdvisor.ListingBounded | pkg/integrations/sources/scrapers/resident_advisor.go:120-129 | at most one event per examined node, each titled and attributed |
| ResidentAdvisor.MergeEventDetails | pkg/integrations/sources/scrapers/resident_advisor.go:239-250 | a non-empty description, price or tag list from the details replaces the listed one, and nothing else changes |
| ResidentAdvisor.MergeIdempotent | pkg/integrations/sources/scrapers/resident_advisor.go:239-250 | merging the same details twice changes nothing more |
| ResidentAdvisor.CompleteEvents | pkg/integrations/sources/scrapers/resident_advisor.go:59-65 | each event with an address is replaced in place by its merge with its detail page; events whose page fails stay as listed |
| ResidentAdvisor.CompletedKeeps | pkg/integrations/sources/scrapers/resident_advisor.go:59-65 | completion changes only description, price and tags, leaves an event without an address untouched, and adds only non-empty tags |
| ResidentAdvisor.SearchLimit | pkg/integrations/sources/scrapers/resident_advisor.go:35-40 | the limit is 10 when not positive and at most 50 |
| ResidentAdvisor.ListingEvents | pkg/integrations/sources/scrapers/resident_advisor.go:45-67 | a failed fetch or parse is wrapped with its context; otherwise the listing is parsed and completed |
| ResidentAdvisor.ScrapeEvents | pkg/integrations/sources/scrapers/resident_advisor.go:29-68 | a blank query is refused; otherwise the search page's listing, completed |
| ResidentAdvisor.FromListingBounded | pkg/integrations/sources/scrapers/resident_advisor.go:56-67 | a listing never has more events than its limit, and each is titled |
| ResidentAdvisor.ScrapeEventsByLocation | pkg/integrations/sources/scrapers/resident_advisor.go:70-112 | a blank city is refused; a known city is served from its listing page, an unknown one by the search for its name |
| ResidentAdvisor.LocationEventsBounded | pkg/integrations/sources/scrapers/resident_advisor.go:70-112 | never more events than the positive limit asked for; an unknown city falls back to the search |
| Bandsintown.RunWithinWindow | pkg/integrations/bandsintown.go:41-57 | while no call falls more than 24 hours after the window start, at most `dailyLimit` calls are admitted in all |
| Bandsintown.ResetAdmits | pkg/integrations/bandsintown.go:45-49 | a call more than 24 hours after the window start opens a new window and is admitted, whatever the count was |
| Bandsintown.RateLimiter.constructor | pkg/integrations/bandsintown.go:34-39 | a new limiter has no requests and a window starting now |
| Bandsintown.RateLimiter.Allow | pkg/integrations/bandsintown.go:41-57 | the window resets after 24 hours; at the limit the call is refused with the rate-limit error and the count stays, otherwise the count grows by exactly one |
| Bandsintown.FirstTickets | pkg/integrations/bandsintown.go:243-249 | the position of the first offer of type `Tickets`, or none when there is none |
| Bandsintown.DomainEventFields | pkg/integrations/bandsintown.go:200-252 | conversion succeeds exactly when the date parses as RFC 3339; the event gets the ID `bandsintown_<id>`, the parsed time, the artist name given and the first ticket offer |
| Bandsintown.ConvertToDomainEvent | pkg/integrations/bandsintown.go:200-252 | the conversion with its loop over the offers computes the conversion above |
| Bandsintown.ConvertibleIDs | pkg/integrations/bandsintown.go:143-150 | the events kept are at most as many as those received, each under the artist name and the ID of one received |
| Bandsintown.ConvertAll | pkg/integrations/bandsintown.go:143-150 | the loop keeps, in order, the events that convert and skips the others |
| Bandsintown.BandsintownClient.Init | pkg/integrations/bandsintown.go:59-72 | a new client has its app ID and a fresh limiter with an empty window starting now |
| Bandsintown.BandsintownClient.SearchEvents | pkg/integrations/bandsintown.go:102-153 | the limiter is consulted first, so a refused call is the rate-limit error and a blank name still uses a request; a blank name is then an invalid request; 404 is an empty list; any other failure is wrapped; otherwise the converted events |
| Bandsintown.BandsintownClient.GetArtistEvents | pkg/integrations/bandsintown.go:155-198 | the same fetch by artist ID without the blank-name check |
| AppleMusic.ArtworkResolved | pkg/integrations/sources/music/apple_music.go:264-273 | no `{w}` or `{h}` placeholder survives the rewrite, and an address without them is left alone |
| AppleMusic.SearchLimit | pkg/integrations/sources/music/apple_music.go:69-74 | the limit is 10 when not positive and at most 25 |
| AppleMusic.AlbumsLimit | pkg/integrations/sources/music/apple_music.go:181-186 | the limit is 10 when not positive and at most 100 |
| AppleMusic.ConvertedArtists | pkg/integrations/sources/music/apple_music.go:110-121 | converted artists keep the order, names and genres, get an `apple_` ID, no popularity and an image without placeholders |
| AppleMusic.GetArtistOutcome | pkg/integrations/sources/music/apple_music.go:146-173 | 404 is "artist not found"; a found artist comes from a 200 reply with at least one artist, and is the first |
| AppleMusic.AppleMusicClient.Init | pkg/integrations/sources/music/apple_music.go:25-36 | a new client has its token and a fresh limiter with an empty log |
| AppleMusic.AppleMusicClient.SearchArtists | pkg/integrations/sources/music/apple_music.go:59-125 | a limiter slot is taken first; a refused call sends nothing; a blank query is an invalid request; otherwise the request is sent with the clamped limit and the converted artists are returned |
| AppleMusic.AppleMusicClient.GetArtist | pkg/integrations/sources/music/apple_music.go:127-174 | a limiter slot is taken first; a refused call is the rate-limit error, otherwise the lookup's outcome |
| AppleMusic.AppleMusicClient.GetArtistAlbums | pkg/integrations/sources/music/apple_music.go:176-233 | a limiter slot is taken first; the request is sent with the clamped album limit |
| AppleMusic.NewRateLimiter | pkg/integrations/sources/music/apple_music.go:282-288 | a fresh limiter with an empty log, the hourly limit and a one-hour window |
| Spotify.Refreshed | pkg/integrations/spotify.go:50-86 | each failure of the token request has its message; a token received at `now` expires five minutes before its stated lifetime ends |
| Spotify.TokenStepCases | pkg/integrations/spotify.go:50-86 | a usable token is reused without a request; otherwise a request is sent, and the cached token changes exactly when it succeeds |
| Spotify.CachedUntilExpiry | pkg/integrations/spotify.go:51-53 | a fresh token lasting longer than the margin serves every later call before its expiry without another request |
| Spotify.ConvertArtist | pkg/integrations/spotify.go:146-161 | one Spotify artist converted |
| Spotify.ToArtistFields | pkg/integrations/spotify.go:146-161 | the artist keeps the Spotify ID as its ID suffix and external ID, its genres, popularity and first image, so distinct Spotify artists stay distinct |
| Spotify.ConvertArtists | pkg/integrations/spotify.go:145-162 | the loop converts every artist, in order |
| Spotify.SearchLimit | pkg/integrations/spotify.go:110-115 | the limit is 10 when not positive and at most 50 |
| Spotify.SearchOutcome | pkg/integrations/spotify.go:131-164 | artists exactly for a 200 reply that decodes, one per item in order; another status is `spotify search failed` |
| Spotify.LookupOutcome | pkg/integrations/spotify.go:180-213 | 404 is "artist not found", another status but 200 is `spotify get artist failed`, and a decoded reply gives the converted artist |
| Spotify.SpotifyClient.Init | pkg/integrations/spotify.go:29-42 | a new client has its credentials and no token |
| Spotify.SpotifyClient.GetAccessToken | pkg/integrations/spotify.go:50-86 | the cached token and the request sent follow the token step: a request only when the cached token is not usable |
| Spotify.SpotifyClient.SearchArtists | pkg/integrations/spotify.go:105-165 | a token failure is returned as is; otherwise the search is sent with the clamped limit and its outcome returned |
| Spotify.SpotifyClient.GetArtist | pkg/integrations/spotify.go:167-214 | a token failure is returned as is; otherwise the lookup's outcome |
| LastFM.FirstExtraLarge | pkg/integrations/lastfm.go:124-129 | the position of the first non-empty `extralarge` image, or none |
| LastFM.ImageURL | pkg/integrations/lastfm.go:124-129 | the image is empty exactly when no `extralarge` image is non-empty, and is otherwise the first |
| LastFM.SelectImage | pkg/integrations/lastfm.go:124-129 | the loop, which stops at the first match, picks that image |
| LastFM.ArtistIDs | pkg/integrations/lastfm.go:116-131 | the MBID is the Last.fm ID and the ID suffix, so distinct MBIDs give distinct IDs, while all artists without an MBID share the ID `lastfm_` |
| LastFM.InfoArtistFields | pkg/integrations/lastfm.go:166-184 | artist info has one genre per tag, named as the tag, and otherwise the identity a search would give |
| LastFM.ConvertArtist | pkg/integrations/lastfm.go:116-131 | one search result converted |
| LastFM.CollectTags | pkg/integrations/lastfm.go:174-177 | the tag loop collects the tag names in order |
| LastFM.ConvertInfo | pkg/integrations/lastfm.go:166-184 | artist info converted |
| LastFM.ConvertArtists | pkg/integrations/lastfm.go:114-132 | the loop converts every result, in order |
| LastFM.SearchLimit | pkg/integrations/lastfm.go:80-85 | the limit is 10 when not positive and at most 30 |
| LastFM.SearchOutcome | pkg/integrations/lastfm.go:100-134 | artists exactly for a 200 reply that decodes, one per result in order; another status is `last.fm search failed` |
| LastFM.InfoOutcome | pkg/integrations/lastfm.go:150-186 | 404 is "artist not found", another status but 200 is `last.fm get artist failed`, and a decoded reply gives the converted info |
| LastFM.LastFMClient.Init | pkg/integrations/lastfm.go:24-36 | a new client has its API key |
| LastFM.LastFMClient.SearchArtists | pkg/integrations/lastfm.go:79-135 | the query is sent as given with the clamped limit, and the reply's outcome is returned |
| LastFM.LastFMClient.GetArtist | pkg/integrations/lastfm.go:137-187 | the artist is looked up by name, and the reply's outcome is returned |
| Songkick.MainPerformer | pkg/integrations/sources/events/songkick.go:401-415 | `Unknown Artist` without performers; otherwise the first headliner (billing `headline` or billing index 1), or the first performer when none headlines |
| Songkick.FirstHeadliner | pkg/integrations/sources/events/songkick.go:407-411 | the position of the first headliner, or none |
| Songkick.GetMainPerformer | pkg/integrations/sources/events/songkick.go:401-415 | the loop with its early return computes the main performer |
| Songkick.ParseEventDateTime | pkg/integrations/sources/events/songkick.go:443-471 | a zoned date-time that parses wins; with neither a date-time nor a date the result is the current time; any other result comes from one of the layouts |
| Songkick.ToEventIDs | pkg/integrations/sources/events/songkick.go:417-441 | distinct Songkick event IDs give distinct event IDs, and the artist ID holds no space |
| Songkick.PerPage | pkg/integrations/sources/events/songkick.go:144-149 | the limit is 10 when not positive and at most 50 |
| Songkick.LocationQueryShape | pkg/integrations/sources/events/songkick.go:355-358 | the location query is the city alone without a country, and `city, country` otherwise |
| Songkick.Lookup | pkg/integrations/sources/events/songkick.go:311-348 | a non-zero ID is the first match of a decoded reply |
| Songkick.NoCalendarWithoutID | pkg/integrations/sources/events/songkick.go:157-159 | an unknown artist or place is an empty result, and no calendar is requested for it |
| Songkick.ArtistSearchEvents | pkg/integrations/sources/events/songkick.go:191-195 | every event of an artist search carries the searched name, one per calendar entry |
| Songkick.ArtistEvents | pkg/integrations/sources/events/songkick.go:151-197 | the artist lookup, then the calendar fetch with its errors, computes the artist search |
| Songkick.MetroEvents | pkg/integrations/sources/events/songkick.go:218-263 | the location lookup, then the calendar fetch, computes the location search |
| Songkick.SongkickClient.Init | pkg/integrations/sources/events/songkick.go:25-36 | a new client has its key and a fresh, empty limiter |
| Songkick.SongkickClient.SearchEventsByArtist | pkg/integrations/sources/events/songkick.go:134-198 | one limiter slot for the search and one for the artist lookup, each refusal being the rate-limit error; a blank name is an invalid request; then the artist search |
| Songkick.SongkickClient.SearchEventsByLocation | pkg/integrations/sources/events/songkick.go:200-264 | the same for a location, with each event named after its main performer |
| Songkick.SongkickClient.GetEvent | pkg/integrations/sources/events/songkick.go:266-309 | one limiter slot; 404 is "event not found"; the event is named after its main performer |
| Songkick.NewEventRateLimiter | pkg/integrations/sources/events/songkick.go:480-486 | a fresh limiter with an empty log, the daily limit and a 24-hour window |
| MusicBrainz.TagNames | pkg/integrations/sources/music/musicbrainz.go:288-292 | the name of every tag, in order |
| MusicBrainz.GenresAreConfidentTags | pkg/integrations/sources/music/musicbrainz.go:287-293 | a genre is exactly the name of a tag counted at least 3 times, in the tags' order |
| MusicBrainz.TagPopularity | pkg/integrations/sources/music/musicbrainz.go:309-321 | the estimate from tag activity lies between 50 and 100 |
| MusicBrainz.TagPopularityMonotone | pkg/integrations/sources/music/musicbrainz.go:309-321 | more tag activity never gives a lower estimate |
| MusicBrainz.Popularity | pkg/integrations/sources/music/musicbrainz.go:296-322 | popularity lies in 1..100: a positive score capped at 100, otherwise the tag estimate of at least 50 |
| MusicBrainz.MusicSegment | pkg/integrations/sources/music/musicbrainz.go:341-350 | a segment is found exactly when some `music` segment has a successor, and it is the one after the first such |
| MusicBrainz.SpotifyIDOf | pkg/integrations/sources/music/musicbrainz.go:329-338 | an extracted Spotify ID is non-empty, comes from a `spotify.com` address and holds no `/` |
| MusicBrainz.LastFMIDOf | pkg/integrations/sources/music/musicbrainz.go:339-351 | an extracted Last.fm ID is non-empty, comes from a `last.fm` address and holds no `/` |
| MusicBrainz.LatestLastWins | pkg/integrations/sources/music/musicbrainz.go:326-353 | the result is empty exactly when no relation supplies a value, and otherwise is the value of the last that does |
| MusicBrainz.ExternalIDsLastWins | pkg/integrations/sources/music/musicbrainz.go:326-353 | both the Spotify and the Last.fm ID follow the last-wins rule |
| MusicBrainz.FindMusicSegment | pkg/integrations/sources/music/musicbrainz.go:342-350 | the loop with its early exit finds the segment after the first `music` |
| MusicBrainz.ConvertToArtist | pkg/integrations/sources/music/musicbrainz.go:285-364 | the conversion with its three loops computes the converted artist |
| MusicBrainz.CollectGenres | pkg/integrations/sources/music/musicbrainz.go:287-293 | the genre loop collects the confident tags |
| MusicBrainz.SumTagCounts | pkg/integrations/sources/music/musicbrainz.go:304-307 | the loop sums the tag counts |
| MusicBrainz.CollectExternalIDs | pkg/integrations/sources/music/musicbrainz.go:325-353 | the relation loop, a later link overwriting an earlier one |
| MusicBrainz.ConvertedArtist | pkg/integrations/sources/music/musicbrainz.go:355-363 | the artist gets a `musicbrainz_` ID, keeps its name, a popularity in 1..100, no image and at most one genre per tag |
| MusicBrainz.ConvertAll | pkg/integrations/sources/music/musicbrainz.go:155-159 | the loop converts every artist, in order |
| MusicBrainz.ClampLimit | pkg/integrations/sources/music/musicbrainz.go:114-119 | the limit is 10 when not positive and at most 100 |
| MusicBrainz.SearchOutcome | pkg/integrations/sources/music/musicbrainz.go:139-161 | 503 is the rate-limit error; artists exactly for a 200 reply that decodes, one per result in order |
| MusicBrainz.MusicBrainzRateLimiter.constructor | pkg/integrations/sources/music/musicbrainz.go:372-376 | one second between requests and no request yet |
| MusicBrainz.MusicBrainzRateLimiter.Allow | pkg/integrations/sources/music/musicbrainz.go:378-386 | never refuses; the request leaves after what is left of the interval, at least one interval after the previous one, and that time is recorded |
| MusicBrainz.ThrottleSpacing | pkg/integrations/sources/music/musicbrainz.go:378-386 | two requests let through one after the other leave at least an interval apart |
| MusicBrainz.MusicBrainzClient.Init | pkg/integrations/sources/music/musicbrainz.go:25-36 | a new client has its user agent and a fresh throttle with no request yet |
| MusicBrainz.MusicBrainzClient.SearchArtists | pkg/integrations/sources/music/musicbrainz.go:104-162 | the throttle runs first; a blank query is an invalid request and sends nothing; otherwise the search is sent with the clamped limit and its outcome returned |
| MusicBrainz.MusicBrainzClient.GetArtist | pkg/integrations/sources/music/musicbrainz.go:164-203 | the throttle runs first; 404 is "artist not found"; a decoded reply gives the converted artist |
| MusicBrainz.MusicBrainzClient.GetArtistReleases | pkg/integrations/sources/music/musicbrainz.go:205-265 | the throttle runs first; the request carries the clamped limit and the releases are passed through field by field |
| Keywords.KeywordsInMeans | pkg/integrations/sources/music/youtube_music.go:345-363 | a genre is reported exactly when it is listed and the lower-cased description contains it, in list order |
| Keywords.NoKeywordsInEmpty | pkg/integrations/sources/music/youtube_music.go:345-363 | an empty description mentions no genre |
| Keywords.ScanKeywords | pkg/integrations/sources/music/youtube_music.go:355-360 | the loop collects the genres the description mentions |
| SoundCloud.FollowerBucket | pkg/integrations/sources/music/soundcloud.go:342-366 | the follower bucket lies in 50..100 |
| SoundCloud.TrackBoost | pkg/integrations/sources/music/soundcloud.go:368-375 | the boost for an active artist lies in 0..5 |
| SoundCloud.PopularityRange | pkg/integrations/sources/music/soundcloud.go:342-375 | popularity lies in 50..100 and is at least the follower bucket; with at most 20 tracks it is the bucket |
| SoundCloud.PopularityMonotone | pkg/integrations/sources/music/soundcloud.go:342-375 | more followers and more tracks never lower the popularity |
| SoundCloud.ArtworkUnchanged | pkg/integrations/sources/music/soundcloud.go:426-437 | a URL naming neither `large.jpg` nor `large.png` is left alone |
| SoundCloud.JPGStepKeepsPNG | pkg/integrations/sources/music/soundcloud.go:433-434 | replacing the first `large.jpg` keeps a `large.png` for the second step |
| SoundCloud.ArtworkUpgradesPNG | pkg/integrations/sources/music/soundcloud.go:426-437 | a URL naming `large.png` comes out naming `t500x500.png` |
| SoundCloud.ArtworkUpgradesJPG | pkg/integrations/sources/music/soundcloud.go:426-437 | a URL naming `large.jpg` comes out naming `t500x500.jpg` |
| SoundCloud.QuotedTagTrimmed | pkg/integrations/sources/music/soundcloud.go:450-455 | a quoted part yields only trimmed, non-empty tags |
| SoundCloud.FieldTagsTrimmed | pkg/integrations/sources/music/soundcloud.go:456-463 | the words of an unquoted part are trimmed and non-empty |
| SoundCloud.TagsOfPartsTrimmed | pkg/integrations/sources/music/soundcloud.go:448-465 | every tag drawn from the parts is trimmed and non-empty |
| SoundCloud.TagsTrimmed | pkg/integrations/sources/music/soundcloud.go:439-468 | no tag is empty, and none starts or ends with white space |
| SoundCloud.QuotedTagOfSolid | pkg/integrations/sources/music/soundcloud.go:450-455 | a solid word is its own tag |
| SoundCloud.FieldTagsOfSolid | pkg/integrations/sources/music/soundcloud.go:456-463 | solid fields are their own tags |
| SoundCloud.UnquotedTags | pkg/integrations/sources/music/soundcloud.go:439-468 | a tag list without quotes gives its white-space separated words |
| SoundCloud.SplitQuoted | pkg/integrations/sources/music/soundcloud.go:448 | splitting `"t"` on the quote gives the empty text, `t` and the empty text |
| SoundCloud.QuotedTagList | pkg/integrations/sources/music/soundcloud.go:439-468 | a single quoted tag `"t"` gives `t` trimmed |
| SoundCloud.AppendFieldTags | pkg/integrations/sources/music/soundcloud.go:457-463 | the inner loop appends the tags of the fields |
| SoundCloud.ParseTags | pkg/integrations/sources/music/soundcloud.go:439-468 | the loop over the quote-separated parts computes the tag list |
| SoundCloud.GenresAreKeywords | pkg/integrations/sources/music/soundcloud.go:402-424 | the early return for an empty description agrees with the scan; the genres are the listed ones the description mentions |
| SoundCloud.ExtractGenres | pkg/integrations/sources/music/soundcloud.go:402-424 | the loop computes the genres of the description |
| SoundCloud.ConvertedArtist | pkg/integrations/sources/music/soundcloud.go:341-400 | a `soundcloud_` ID, the full name when there is one and the user name otherwise, a popularity in 50..100, listed genres the description mentions, and no external IDs |
| SoundCloud.ArtistIDsDistinct | pkg/integrations/sources/music/soundcloud.go:384 | distinct SoundCloud user IDs give distinct artist IDs |
| SoundCloud.ConvertToArtist | pkg/integrations/sources/music/soundcloud.go:341-393 | the conversion with its genre loop computes the converted artist |
| SoundCloud.ConvertUsers | pkg/integrations/sources/music/soundcloud.go:152-158 | the loop converts the users with at least one track, in order |
| SoundCloud.ConvertTrack | pkg/integrations/sources/music/soundcloud.go:239-255 | one track converted field by field, the poster's name only when asked for |
| SoundCloud.ConvertTracks | pkg/integrations/sources/music/soundcloud.go:238-257 | the loop converts every track, in order |
| SoundCloud.ClampLimit | pkg/integrations/sources/music/soundcloud.go:112-117 | the limit is 10 when not positive and at most 200 |
| SoundCloud.SearchOutcomeArtists | pkg/integrations/sources/music/soundcloud.go:137-160 | artists only for a 200 reply that decodes, no more than the users, each with a popularity in 50..100 |
| SoundCloud.SoundCloudClient.Init | pkg/integrations/sources/music/soundcloud.go:25-36 | a new client has its client ID and a fresh, empty limiter |
| SoundCloud.SoundCloudClient.SearchArtists | pkg/integrations/sources/music/soundcloud.go:102-161 | a limiter slot (15000 an hour), refused as the rate-limit error; a blank query is an invalid request and sends nothing; otherwise the search for at most 200 users |
| SoundCloud.SoundCloudClient.GetArtist | pkg/integrations/sources/music/soundcloud.go:163-198 | a limiter slot; the user lookup; 404 is "artist not found" |
| SoundCloud.SoundCloudClient.GetArtistTracks | pkg/integrations/sources/music/soundcloud.go:200-258 | a limiter slot; the tracks of one user with the clamped limit; they carry no poster name |
| SoundCloud.SoundCloudClient.SearchTracks | pkg/integrations/sources/music/soundcloud.go:260-323 | a limiter slot; the query is sent as given; the tracks carry their poster's name |
| YouTubeMusic.SubscriberBucket | pkg/integrations/sources/music/youtube_music.go:320-334 | the subscriber bucket lies in 50..100 |
| YouTubeMusic.SubscriberBucketMonotone | pkg/integrations/sources/music/youtube_music.go:320-334 | more subscribers never lower the bucket |
| YouTubeMusic.SubscriberPopularityRange | pkg/integrations/sources/music/youtube_music.go:312-335 | popularity is 0 exactly when the count is absent, 50..100 otherwise, and 50 for a count that does not scan |
| YouTubeMusic.SubscriberPopularityOfNumeral | pkg/integrations/sources/music/youtube_music.go:317-318 | a count written as a plain numeral is read as that number |
| YouTubeMusic.ChannelArtist | pkg/integrations/sources/music/youtube_music.go:306-343 | a channel's artist has a `youtube_` ID, its title, and a popularity from its subscriber count, 0 only when the count is absent |
| YouTubeMusic.SearchItemArtist | pkg/integrations/sources/music/youtube_music.go:292-304 | a search hit's artist, on the fallback path, has popularity 0 |
| YouTubeMusic.ConvertChannel | pkg/integrations/sources/music/youtube_music.go:306-343 | the conversion with its genre loop computes the channel's artist |
| YouTubeMusic.ConvertSearchItem | pkg/integrations/sources/music/youtube_music.go:292-304 | the conversion computes the hit's artist |
| YouTubeMusic.ChannelIDsAndFallback | pkg/integrations/sources/music/youtube_music.go:134-151 | the channel IDs are non-empty, no more than the hits, each the ID of the fallback artist at the same position, and each taken from a hit |
| YouTubeMusic.CollectChannelIDs | pkg/integrations/sources/music/youtube_music.go:134-139 | the loop collects the channel IDs |
| YouTubeMusic.ConvertSearchItems | pkg/integrations/sources/music/youtube_music.go:144-150 | the fallback loop converts the hits with a channel |
| YouTubeMusic.ConvertChannels | pkg/integrations/sources/music/youtube_music.go:154-158 | the loop converts every channel, in order |
| YouTubeMusic.VideosWellFormed | pkg/integrations/sources/music/youtube_music.go:262-279 | every video has an ID, the watch URL of that ID, and comes from a hit with that video ID |
| YouTubeMusic.CollectVideos | pkg/integrations/sources/music/youtube_music.go:262-279 | the loop collects the videos |
| YouTubeMusic.ClampLimit | pkg/integrations/sources/music/youtube_music.go:89-94 | the result count is 10 when not positive and at most 50 |
| YouTubeMusic.LookupOutcome | pkg/integrations/sources/music/youtube_music.go:205-217 | an artist exactly when the details hold a channel, the first one; no channel is "artist not found"; errors pass through |
| YouTubeMusic.YouTubeMusicClient.Init | pkg/integrations/sources/music/youtube_music.go:25-36 | a new client has its key and a fresh, empty limiter |
| YouTubeMusic.YouTubeMusicClient.GetChannelDetails | pkg/integrations/sources/music/youtube_music.go:163-203 | no IDs means no request and no limiter slot; otherwise a limiter slot and one lookup of all of them |
| YouTubeMusic.YouTubeMusicClient.SearchArtists | pkg/integrations/sources/music/youtube_music.go:79-161 | a limiter slot, the blank-query check, the channel search, then the channels' details; when the details cannot be had, the search hits themselves |
| YouTubeMusic.YouTubeMusicClient.GetArtist | pkg/integrations/sources/music/youtube_music.go:205-217 | a limiter slot and the details of one channel, the first channel's artist or "artist not found" |
| YouTubeMusic.YouTubeMusicClient.SearchVideos | pkg/integrations/sources/music/youtube_music.go:219-282 | a limiter slot; the hits that are videos, with their watch URLs |
| Deezer.FanBucket | pkg/integrations/sources/music/deezer.go:341-361 | the fan bucket lies in 60..100 |
| Deezer.FanBucketMonotone | pkg/integrations/sources/music/deezer.go:341-361 | more fans never lower the bucket |
| Deezer.LowerNamesMeans | pkg/integrations/sources/music/deezer.go:366-368 | a lowered name is exactly the lower-case form of one of the names |
| Deezer.GenreSetSound | pkg/integrations/sources/music/deezer.go:363-369 | every genre in the set names an album that carries it |
| Deezer.GenreSetComplete | pkg/integrations/sources/music/deezer.go:363-369 | every album genre, lower-cased, is in the set |
| Deezer.GenreSetMeans | pkg/integrations/sources/music/deezer.go:363-369 | a genre of the artist is exactly a lower-cased genre of one of the albums |
| Deezer.GenresLowercase | pkg/integrations/sources/music/deezer.go:367 | every genre is lower case |
| Deezer.CollectGenreSet | pkg/integrations/sources/music/deezer.go:364-369 | the two loops fill the set with exactly the lower-cased album genres |
| Deezer.ConvertToArtist | pkg/integrations/sources/music/deezer.go:340-395 | the artist has a `deezer_` ID, a popularity from its fans, and the genre set's members once each, in map order |
| Deezer.ConvertedWithoutAlbums | pkg/integrations/sources/music/deezer.go:340-395 | without albums the conversion is determined and has no genres |
| Deezer.ConversionsAgree | pkg/integrations/sources/music/deezer.go:371-374 | two conversions of the same input differ at most in the order of their genres, and no album genre is lost |
| Deezer.ConvertArtists | pkg/integrations/sources/music/deezer.go:131-135 | the loop converts every hit without albums, in order |
| Deezer.AlbumConverted | pkg/integrations/sources/music/deezer.go:221-238 | an album keeps its genre names in order, its track count and ID, and takes the XL cover |
| Deezer.CollectGenreNames | pkg/integrations/sources/music/deezer.go:222-225 | the inner loop collects the genre names |
| Deezer.ConvertAlbums | pkg/integrations/sources/music/deezer.go:220-241 | the outer loop converts every album, in order |
| Deezer.ListLimit | pkg/integrations/sources/music/deezer.go:95-100 | the search and album limit is 10 when not positive and at most 100 |
| Deezer.TopLimit | pkg/integrations/sources/music/deezer.go:249-254 | the top-track limit is 10 when not positive and at most 50 |
| Deezer.SearchOutcome | pkg/integrations/sources/music/deezer.go:119-137 | 429 is the rate-limit error; a 200 reply that decodes gives one artist per hit, each with a `deezer_` ID, no genres and a popularity in 60..100 |
| Deezer.DeezerClient.New | pkg/integrations/sources/music/deezer.go:24-30 | a new client needs no key and has a fresh, empty limiter |
| Deezer.DeezerClient.SearchArtists | pkg/integrations/sources/music/deezer.go:85-138 | a limiter slot (50000 an hour), refused as the rate-limit error; a blank query is an invalid request and sends nothing; otherwise the search with the clamped limit |
| Deezer.DeezerClient.GetArtist | pkg/integrations/sources/music/deezer.go:140-178 | a limiter slot; 404 is "artist not found"; then up to five albums for the genres, and the bare artist when they cannot be had |
| Deezer.DeezerClient.GetArtistAlbums | pkg/integrations/sources/music/deezer.go:180-242 | a limiter slot; the albums with their genre names and XL covers |
| Deezer.DeezerClient.GetArtistTopTracks | pkg/integrations/sources/music/deezer.go:244-300 | a limiter slot; the top tracks with the top-track limit |
| Ticketmaster.Attempts | pkg/integrations/sources/events/ticketmaster.go:493-521 | four parse attempts, in the source's order |
| Ticketmaster.ParseIsFirstSuccess | pkg/integrations/sources/events/ticketmaster.go:493-521 | the parsed time is the result of the first successful attempt, and the current time exactly when every attempt fails |
| Ticketmaster.FirstSuccessExists | pkg/integrations/sources/events/ticketmaster.go:493-521 | when some attempt succeeds, a first successful one exists |
| Ticketmaster.ConvertToEvent | pkg/integrations/sources/events/ticketmaster.go:450-491 | building the venue field by field computes the converted event |
| Ticketmaster.ConvertedEvent | pkg/integrations/sources/events/ticketmaster.go:450-491 | distinct Ticketmaster IDs give distinct event IDs; the artist ID holds no space; the artist is the first attraction or else the event name; no venue gives the unknown venue |
| Ticketmaster.ConvertEvents | pkg/integrations/sources/events/ticketmaster.go:347-351 | the loop converts every event, in order |
| Ticketmaster.Size | pkg/integrations/sources/events/ticketmaster.go:309-314 | the page size is 10 when not positive and at most 200 |
| Ticketmaster.CountryCode | pkg/integrations/sources/events/ticketmaster.go:382-384 | a country filter is sent exactly when a country is given, upper-cased and of the same length |
| Ticketmaster.EventsOutcome | pkg/integrations/sources/events/ticketmaster.go:335-353 | events exactly for a 200 reply that decodes; 429 is the rate-limit error only where the source maps it |
| Ticketmaster.EventOutcome | pkg/integrations/sources/events/ticketmaster.go:434-447 | 404 is "event not found"; an event exactly for a 200 reply that decodes |
| Ticketmaster.TicketmasterClient.Init | pkg/integrations/sources/events/ticketmaster.go:25-36 | a new client has its key and a fresh, empty limiter |
| Ticketmaster.TicketmasterClient.SearchEventsByKeyword | pkg/integrations/sources/events/ticketmaster.go:299-354 | a limiter slot (daily limit), taken even when the keyword turns out blank; a blank keyword is an invalid request; otherwise the search with the page size |
| Ticketmaster.TicketmasterClient.SearchEventsByLocation | pkg/integrations/sources/events/ticketmaster.go:356-411 | a limiter slot; the city is trimmed, the country is not; a 429 here is an ordinary status error |
| Ticketmaster.TicketmasterClient.GetEvent | pkg/integrations/sources/events/ticketmaster.go:413-448 | a limiter slot; the lookup outcome |
| Eventbrite.ParseEventDateTime | pkg/integrations/sources/events/eventbrite.go:417-434 | the UTC time when it parses, else the local time when it parses, else the current time |
| Eventbrite.VenueOutcome | pkg/integrations/sources/events/eventbrite.go:405-414 | a venue exactly for a 200 reply that decodes; any other reply is a wrapped failure |
| Eventbrite.ToEventFields | pkg/integrations/sources/events/eventbrite.go:341-384 | distinct Eventbrite IDs give distinct event IDs; the artist is the event name or `Unknown Artist`, never empty; the artist ID holds no space; the venue affects only the venue |
| Eventbrite.VenueStep | pkg/integrations/sources/events/eventbrite.go:358-366 | an event with a venue ID takes exactly one limiter slot and requests at most that venue; one without takes nothing and keeps the placeholder |
| Eventbrite.LookupAll | pkg/integrations/sources/events/eventbrite.go:226-232 | one venue outcome per event of the search |
| Eventbrite.NoVenueIDNoVenue | pkg/integrations/sources/events/eventbrite.go:358 | an event without a venue ID keeps the placeholder venue |
| Eventbrite.LookupAllSlots | pkg/integrations/sources/events/eventbrite.go:226-232 | each event with a venue ID costs exactly one limiter slot |
| Eventbrite.LookupAllRequests | pkg/integrations/sources/events/eventbrite.go:226-232 | at most one venue is requested per event with a venue ID |
| Eventbrite.NoVenueNoSlot | pkg/integrations/sources/events/eventbrite.go:226-232 | a search whose events carry no venue ID takes no further slot and requests no venue |
| Eventbrite.SearchEventsConvert | pkg/integrations/sources/events/eventbrite.go:225-235 | no event is skipped: one converted event per record, in order |
| Eventbrite.PageSize | pkg/integrations/sources/events/eventbrite.go:182-187 | the page size is 10 when not positive and at most 50 |
| Eventbrite.SearchReply | pkg/integrations/sources/events/eventbrite.go:211-223 | the query search maps 429 to the rate-limit error and 401 to an invalid-token error; the location search reports both as status errors; events exactly for a 200 reply that decodes |
| Eventbrite.EventReply | pkg/integrations/sources/events/eventbrite.go:321-331 | 404 is "event not found"; an event exactly for a 200 reply that decodes |
| Eventbrite.EventbriteClient.Init | pkg/integrations/sources/events/eventbrite.go:25-36 | a new client has its token and a fresh, empty limiter |
| Eventbrite.EventbriteClient.GetVenue | pkg/integrations/sources/events/eventbrite.go:386-415 | a limiter slot, refused as the rate-limit error, then the venue outcome |
| Eventbrite.EventbriteClient.ConvertToEvent | pkg/integrations/sources/events/eventbrite.go:341-384 | never fails; the venue step decides the limiter log and the venue |
| Eventbrite.EventbriteClient.ConvertEvents | pkg/integrations/sources/events/eventbrite.go:226-232 | every event is converted in order, with the venue lookups of all of them |
| Eventbrite.EventbriteClient.Finish | pkg/integrations/sources/events/eventbrite.go:207-235 | a failed search returns its error with no lookups and no slot; otherwise the converted events |
| Eventbrite.EventbriteClient.SearchEventsByQuery | pkg/integrations/sources/events/eventbrite.go:172-236 | a limiter slot; a blank query is an invalid request; the search with the page size, then the conversions |
| Eventbrite.EventbriteClient.SearchEventsByLocation | pkg/integrations/sources/events/eventbrite.go:238-296 | a limiter slot; a blank location is an invalid request; the search, then the conversions |
| Eventbrite.EventbriteClient.GetEvent | pkg/integrations/sources/events/eventbrite.go:298-339 | a limiter slot; 404 is "event not found"; then the conversion with its venue request |
| SetlistFM.ParseEventDate | pkg/integrations/sources/events/setlistfm.go:447-460 | day first, then year first, then the current time |
| SetlistFM.ConvertToEvent | pkg/integrations/sources/events/setlistfm.go:421-445 | building the venue first computes the converted event |
| SetlistFM.ToEventIDs | pkg/integrations/sources/events/setlistfm.go:421-445 | distinct setlists give distinct event IDs; the artist ID holds no space and is the same for every setlist of the same artist name |
| SetlistFM.Clamp | pkg/integrations/sources/events/setlistfm.go:142-147 | the limit is 10 when not positive and at most 20 |
| SetlistFM.Kept | pkg/integrations/sources/events/setlistfm.go:203-206 | a loop that stops at index `limit` keeps all setlists or exactly `limit` of them |
| SetlistFM.ConvertFirst | pkg/integrations/sources/events/setlistfm.go:202-211 | the loop converts the first setlists, up to the limit, in order |
| SetlistFM.SongsCount | pkg/integrations/sources/events/setlistfm.go:492-512 | the song list has one entry per song of every set |
| SetlistFM.SongsAt | pkg/integrations/sources/events/setlistfm.go:492-512 | song `j` of set `i` comes after every song of the earlier sets and the earlier songs of its set, carrying its set's name and encore flag |
| SetlistFM.ConvertSong | pkg/integrations/sources/events/setlistfm.go:494-509 | one song entry, its optional names set only when present |
| SetlistFM.FlattenSongs | pkg/integrations/sources/events/setlistfm.go:491-512 | the nested loop flattens the songs in order |
| SetlistFM.FirstMBID | pkg/integrations/sources/events/setlistfm.go:324-368 | the first match's MBID; empty on a 404 or with no match; other statuses and decoding failures are errors |
| SetlistFM.FirstVenueID | pkg/integrations/sources/events/setlistfm.go:370-419 | the first match's venue ID; empty on a 404 or with no match |
| SetlistFM.ArtistKey | pkg/integrations/sources/events/setlistfm.go:169-173 | the search is by MBID exactly when one was found, else by name |
| SetlistFM.Param | pkg/integrations/sources/events/setlistfm.go:382-387 | a filter is sent exactly when its value is not empty |
| SetlistFM.SetlistsOutcome | pkg/integrations/sources/events/setlistfm.go:187-211 | 429 is the rate-limit error where the source maps it; 404 is no events; otherwise the first setlists up to the limit |
| SetlistFM.ArtistSearchShape | pkg/integrations/sources/events/setlistfm.go:132-212 | the artist is looked up first; the search follows exactly when the lookup succeeded, by MBID when it found one; at most the clamped limit of events |
| SetlistFM.VenueSearchShape | pkg/integrations/sources/events/setlistfm.go:214-285 | the venue lookup carries the non-blank filters; no venue match returns no events without searching |
| SetlistFM.ArtistSetlists | pkg/integrations/sources/events/setlistfm.go:149-211 | the lookup and the search of the artist search |
| SetlistFM.VenueSetlists | pkg/integrations/sources/events/setlistfm.go:232-284 | the lookup and the search of the venue search |
| SetlistFM.SetlistOutcome | pkg/integrations/sources/events/setlistfm.go:308-321 | 404 is "event not found"; an event exactly for a 200 reply that decodes |
| SetlistFM.SongsOutcome | pkg/integrations/sources/events/setlistfm.go:480-514 | a 404 is an ordinary status error; a decoded setlist gives one entry per song |
| SetlistFM.SetlistFMClient.Init | pkg/integrations/sources/events/setlistfm.go:25-36 | a new client has its key and a fresh, empty limiter |
| SetlistFM.SetlistFMClient.SearchSetlistsByArtist | pkg/integrations/sources/events/setlistfm.go:132-212 | one limiter slot for the search and one more for the artist lookup, each refused as the rate-limit error; a blank name is an invalid request |
| SetlistFM.SetlistFMClient.SearchSetlistsByVenue | pkg/integrations/sources/events/setlistfm.go:214-285 | a venue name or a city is required; one more slot for the venue lookup |
| SetlistFM.SetlistFMClient.GetSetlist | pkg/integrations/sources/events/setlistfm.go:287-322 | a limiter slot; the setlist outcome |
| SetlistFM.SetlistFMClient.GetSetlistSongs | pkg/integrations/sources/events/setlistfm.go:462-515 | a limiter slot; the songs of every set, flattened in order |
| ArtistAggregation.RefinesTrans | pkg/integrations/aggregator.go:60-72 | gap-filling twice is still gap-filling: a record that refines a refinement refines the original |
| ArtistAggregation.Fill | pkg/integrations/aggregator.go:61-68 | a Last.fm record merged into a known one fills an empty Last.fm ID and empty genres and changes nothing else |
| ArtistAggregation.NamedStep | pkg/integrations/aggregator.go:56-58 | one more record adds its name to the names of the records before it |
| ArtistAggregation.StoreCount | pkg/integrations/aggregator.go:57 | storing one more key adds at most one key |
| ArtistAggregation.ByNameKeys | pkg/integrations/aggregator.go:54-58 | the Spotify map holds exactly the Spotify names, each under its own name, no more keys than records |
| ArtistAggregation.ByNameLast | pkg/integrations/aggregator.go:56-58 | each Spotify name is stored with its last record of that name |
| ArtistAggregation.AbsorbKeys | pkg/integrations/aggregator.go:60-72 | absorbing keeps every name already there, adds exactly the absorbed names, at most one per record |
| ArtistAggregation.AbsorbKeeps | pkg/integrations/aggregator.go:61-68 | a record already in the map stays, at most gap-filled |
| ArtistAggregation.AbsorbAppend | pkg/integrations/aggregator.go:60-72 | absorbing two lists one after the other is absorbing their concatenation |
| ArtistAggregation.MergedKeys | pkg/integrations/aggregator.go:54-72 | the merged map holds exactly the names of both sources, each under its own name, no more than both lists together |
| ArtistAggregation.SpotifyWins | pkg/integrations/aggregator.go:54-72 | a name Spotify returned keeps Spotify's last record of it, Last.fm only filling its gaps |
| ArtistAggregation.LastFMOnly | pkg/integrations/aggregator.go:69-71 | a name only Last.fm returned keeps Last.fm's first record of it, later ones only filling its gaps |
| ArtistAggregation.FirstEntry | pkg/integrations/aggregator.go:69-71 | the first record of a new name is stored as it is |
| ArtistAggregation.AbsentUntil | pkg/integrations/aggregator.go:60-72 | a name neither the map nor the absorbed records have stays absent |
| ArtistAggregation.SearchArtists | pkg/integrations/aggregator.go:23-80 | an error exactly when both clients fail; otherwise each record of the merged map listed once, in map order; a missing client answers nothing |
| ArtistAggregation.IndexByName | pkg/integrations/aggregator.go:54-58 | the loop stores each Spotify artist under its name |
| ArtistAggregation.AbsorbLastFM | pkg/integrations/aggregator.go:60-72 | the loop absorbs the Last.fm artists |
| ArtistAggregation.Values | pkg/integrations/aggregator.go:74-77 | the loop lists every record of the map exactly once |
| ArtistAggregation.ListsBounded | pkg/integrations/aggregator.go:74-79 | the merged list is never longer than the two answers together |
| ArtistServices.AddMissingMeans | pkg/interfaces/service.go:58-62 | adding keeps every record already there and adds exactly the new names, no more than one key per record |
| ArtistServices.AddMissingFirst | pkg/interfaces/service.go:58-62 | a name new to the map takes its first record among the added ones |
| ArtistServices.AddMissingAbsent | pkg/interfaces/service.go:58-62 | a name neither the map nor the added records have stays absent |
| ArtistServices.CombinedMeans | pkg/interfaces/service.go:53-62 | the combined map holds every local and external name under its own name, a local name keeping its local record, with no more entries than the two lists together |
| ArtistServices.ExternalFirst | pkg/interfaces/service.go:58-62 | a name only the aggregator found keeps the aggregator's first record of it |
| ArtistServices.NameSetCount | pkg/interfaces/service.go:64-67 | artists with distinct names have as many names as artists |
| ArtistServices.SelectsAll | pkg/interfaces/service.go:64-71 | when the combined map fits in the limit, the cut loses nothing: every name is listed |
| ArtistServices.Response | pkg/interfaces/service.go:73-76 | the response lists the artists with their count |
| ArtistServices.SearchArtists | pkg/interfaces/service.go:24-83 | an empty query is an invalid request; a store error is wrapped; enough local artists, or no aggregator, answer with the local ones; an aggregator error gives the local artists, or the external-failure error when there are none; otherwise at most `limit` distinct names of the combined map |
| ArtistServices.AddExternal | pkg/interfaces/service.go:58-62 | the loop adds the aggregator's new names |
| ArtistServices.GetArtist | pkg/interfaces/service.go:85-96 | an empty ID is an invalid request; otherwise the store's answer |
| ArtistServices.LocalIDsDistinct | pkg/interfaces/service.go:104 | local IDs made at different nanoseconds differ, and each starts with `local_` |
| ArtistServices.SaveArtist | pkg/interfaces/service.go:98-108 | a missing artist or one without a name is an invalid request and is not stored; an artist without an ID gets a `local_` one and keeps every other field; then the store's answer |
| EventServices.Response | pkg/interfaces/event_service.go:98-101 | the response lists the events with their count |
| EventServices.FilterValidCache | pkg/interfaces/event_service.go:182-190 | an event is kept exactly when its cache time is after now, in order |
| EventServices.FilterByLocation | pkg/interfaces/event_service.go:192-210 | no location keeps all events; otherwise an event is kept exactly when its lower-cased `city, region, country` contains the lower-cased location; the radius is not used |
| EventServices.CityMatches | pkg/interfaces/event_service.go:198-204 | the venue's own city, in any case, always matches, and the match ignores the location's case |
| EventServices.SearchArtistEvents | pkg/interfaces/event_service.go:31-86 | an empty name is an invalid request; fresh cached events near the location are served; otherwise Bandsintown's events, cached when there are some; its rate-limit error passes through and its other errors fall back to the cache or the external-failure error |
| EventServices.ServedFromCache | pkg/interfaces/event_service.go:41-50 | whatever the cache serves is a fresh cached event |
| EventServices.AssignArtist | pkg/interfaces/event_service.go:131-133 | the loop writes the artist's ID into every fetched event and changes nothing else |
| EventServices.GetArtistEvents | pkg/interfaces/event_service.go:88-149 | an empty ID is an invalid request; fresh cached events are served; the artist store's error passes through; no client is an empty answer; otherwise the fetched events under the artist's ID, cached when there are some, with the same error fallbacks |
| EventServices.RefreshedMeans | pkg/interfaces/event_service.go:165-174 | a refreshed copy keeps the stored IDs, matches the Bandsintown ID and was written to the store; there is none exactly when no matching event could be written |
| EventServices.GetEvent | pkg/interfaces/event_service.go:151-180 | an empty ID is an invalid request; the store's error passes through; an expired Bandsintown event is replaced by the first refreshed copy the store accepts, and otherwise the stored event is returned |
| Configuration.Config.constructor | pkg/config/config.go:11-18 | a configuration holds exactly the settings it is made from |
| Configuration.Config.ApplyDefaults | pkg/config/config.go:145-176 | the new settings are the defaulted old ones |
| Configuration.Config.ApplyEnvOverrides | pkg/config/config.go:178-238 | the new settings are the old ones overridden by the environment, variable by variable |
| Configuration.Config.Assign | pkg/config/config.go:180-182 | setting one field changes that field and nothing else |
| Configuration.Config.Validate | pkg/config/config.go:247-307 | the loop over the requirements returns the validation error of the settings |
| Configuration.DefaultsFillOnlyGaps | pkg/config/config.go:145-176 | after the defaults no defaulted setting is zero; a setting already set, and every setting without a default, is unchanged |
| Configuration.DefaultsIdempotent | pkg/config/config.go:145-176 | applying the defaults twice changes nothing more |
| Configuration.ZeroDefaults | pkg/config/config.go:146-175 | the defaults of an empty configuration: port 8080, 30-second timeouts, database port 5432 with `disable`, the two user agents, 2-second scraper spacing, a 30-second scraper timeout and a 24-hour event cache |
| Configuration.RankTable | pkg/config/config.go:178-238 | every overridable field has exactly one variable |
| Configuration.Set | pkg/config/config.go:178-238 | after setting a field it reads the new value and nothing else changes |
| Configuration.RankInjective | pkg/config/config.go:178-238 | two fields never share a variable |
| Configuration.OverridesRanked | pkg/config/config.go:178-238 | after the overrides a field holds its variable's value exactly when that variable is non-empty |
| Configuration.OverridesKeepRest | pkg/config/config.go:178-238 | the overrides never touch a setting no variable names |
| Configuration.OverridesLast | pkg/config/config.go:178-238 | the overrides are applied in order, the last one last |
| Configuration.OverrideOne | pkg/config/config.go:180-182 | one override changes at most its own field, and only to a non-empty value |
| Configuration.EnvironmentWins | pkg/config/config.go:178-238 | a field whose variable is non-empty takes its value, otherwise keeps its own; settings no variable names never change |
| Configuration.Load | pkg/config/config.go:120-143 | a read failure other than a missing file and a decoding failure are errors; otherwise the file's settings, defaulted, then overridden by the environment |
| Configuration.LoadedMeans | pkg/config/config.go:120-143 | a loaded configuration has no zero default, and a non-empty variable decides its field over the file and the defaults |
| Configuration.LoadWithoutFile | pkg/config/config.go:124-133 | without a path, or with a missing file, the configuration is the defaults overridden by the environment |
| Configuration.MissingInOrder | pkg/config/config.go:248-300 | the missing items are exactly the requirements the settings fail, each once, in the source's order |
| Configuration.MissingIsFilter | pkg/config/config.go:248-300 | the missing list is the requirements filtered by what the settings lack |
| Configuration.DatabaseFilter | pkg/config/config.go:250-259 | the database part of the missing list is the database requirements the settings fail |
| Configuration.ValidIff | pkg/config/config.go:247-307 | no error exactly when the database host, user and name, a music source and an event source are set; otherwise the message lists the missing items joined by `, ` |
| Configuration.SpotifyNeedsBoth | pkg/config/config.go:262-281 | a Spotify ID without its secret, and no other music source, is rejected |
| Configuration.DefaultsAloneInvalid | pkg/config/config.go:145-176 | the defaults alone never validate: every requirement is missing |
| Configuration.DSNFields | pkg/config/config.go:241-244 | when no value holds white space the connection string splits back into its six `key=value` words, in order |
| Configuration.KeyedSolid | pkg/config/config.go:242-243 | a key followed by a value without white space is one word |
| Configuration.IntToStringSolid | pkg/config/config.go:242-243 | a printed port holds no white space |
| Http.PositiveInt | pkg/interfaces/artist_handler.go:40-50 | a value exactly when the text is a decimal `int64` above zero |
| Http.PositiveIntReads | pkg/interfaces/artist_handler.go:40-50 | every positive `int64` printed in decimal is read back as itself |
| Http.PositiveIntRefuses | pkg/interfaces/artist_handler.go:40-50 | zero and negative numbers are refused |
| ArtistHandlers.LimitParam | pkg/interfaces/artist_handler.go:40-50 | 10 when absent; refused unless a positive integer; never capped |
| ArtistHandlers.LimitReads | pkg/interfaces/artist_handler.go:40-50 | any positive limit written in decimal is taken as it is, however large |
| ArtistHandlers.LimitRefuses | pkg/interfaces/artist_handler.go:40-50 | zero or a negative limit is refused |
| ArtistHandlers.SearchArtists | pkg/interfaces/artist_handler.go:30-65 | a missing `q` or a bad limit is 400 without calling the service; otherwise the service is called with the query and the limit |
| ArtistHandlers.SearchReply | pkg/interfaces/artist_handler.go:51-64 | the response with 200; an invalid request is 400, an external failure 503, anything else 500 |
| ArtistHandlers.GetArtist | pkg/interfaces/artist_handler.go:67-86 | the artist with 200; not found is 404; anything else 500 |
| ArtistHandlers.SaveArtist | pkg/interfaces/artist_handler.go:88-116 | an undecodable body or an empty name is 400 without calling the service; otherwise the service's outcome |
| ArtistHandlers.SaveReply | pkg/interfaces/artist_handler.go:100-115 | the saved artist with 201; a duplicate is 409, an invalid request 400, anything else 500 |
| ArtistHandlers.SaveOutcomes | pkg/interfaces/artist_handler.go:88-116 | a save is answered 201 exactly when the body decoded, named an artist and the store took it, with the artist as the service left it; every other answer is 400, 409 or 500 |
| EventHandlers.RadiusParam | pkg/interfaces/event_handler.go:68-79 | 50 when absent; refused unless a positive integer; at most 500 |
| EventHandlers.RadiusReads | pkg/interfaces/event_handler.go:68-79 | a radius written in decimal is kept up to 500 and capped above it |
| EventHandlers.RadiusRefuses | pkg/interfaces/event_handler.go:68-79 | zero or a negative radius is refused |
| EventHandlers.GetArtistEvents | pkg/interfaces/event_handler.go:30-53 | the events with 200; not found is 404, the rate limit 429, an external failure 503, anything else 500 |
| EventHandlers.SearchEvents | pkg/interfaces/event_handler.go:55-97 | a missing artist or a bad radius is 400 without calling the service; otherwise the service is called with the artist, the location and the radius |
| EventHandlers.SearchReply | pkg/interfaces/event_handler.go:81-96 | the events with 200; an invalid request is 400, the rate limit 429, an external failure 503, anything else 500 |
| EventHandlers.GetEvent | pkg/interfaces/event_handler.go:99-120 | the event with 200; not found is 404, the rate limit 429, anything else 500 |
| EventHandlers.RepliesHideFailures | pkg/interfaces/event_handler.go:30-124 | 200 exactly when the service answered, and every error body is one of the fixed texts |
| AggregatorHandlers.QueryLimit | pkg/interfaces/aggregator_handler.go:46-55 | 50 when absent, not a number or not positive; otherwise the number, at most 200 |
| AggregatorHandlers.QueryLimitReads | pkg/interfaces/aggregator_handler.go:46-55 | a limit written in decimal is kept up to 200 and capped above it |
| AggregatorHandlers.QueryLimitRefuses | pkg/interfaces/aggregator_handler.go:46-55 | zero or a negative limit falls back to 50 |
| AggregatorHandlers.WriteJSON | pkg/interfaces/aggregator_handler.go:136-148 | the payload with its status, or 500 in plain text when it cannot be encoded |
| AggregatorHandlers.SearchArtists | pkg/interfaces/aggregator_handler.go:39-65 | a missing `q` is 400 without calling the aggregator; otherwise the aggregator gets the query and the limit, and its error is 500 |
| AggregatorHandlers.SearchEvents | pkg/interfaces/aggregator_handler.go:67-93 | a missing `artist` is 400 without calling the aggregator; otherwise the aggregator gets the artist and the limit |
| AggregatorHandlers.SearchEventsByLocation | pkg/interfaces/aggregator_handler.go:95-123 | a missing `city` is 400 without calling the aggregator; the country is optional; otherwise the aggregator gets city, country and limit |
| AggregatorHandlers.SearchArtistsOutcomes | pkg/interfaces/aggregator_handler.go:39-65 | the aggregator is not called exactly when the reply is 400; a call carries a limit in 1..200; 200 exactly when the aggregator answered and the answer encodes; nothing but 200, 400 or 500 |
| AggregatorHandlers.LocationOutcomes | pkg/interfaces/aggregator_handler.go:95-123 | the same outcomes for the location search, whose call has a city and an empty country when none is given |
| AggregatorHandlers.GetSources | pkg/interfaces/aggregator_handler.go:125-134 | 200 exactly when the response encodes, and then the reply lists the aggregator's sources and their number; otherwise the encoding error |
| AggregatorHandlers.FormatLocation | pkg/interfaces/aggregator_handler.go:172-181 | the non-empty ones of city and country, joined by `, ` |

## Left out

- Goroutines, wait groups, semaphores, mutexes and context timeouts are not modelled:
  - the aggregator's fan-in is a sequence of replies in arbitrary arrival order;
  - a source cut short by the timeout is a reply carrying the error it returned.
- HTTP transport, headers, URL building and JSON encoding and decoding are not modelled. Each call is the request it would send plus the reply it gets.
- The `respondWithJSON` encoding failure of the artist and event handlers is not modelled. The aggregator handler's `writeJSONResponse` failure is modelled, through the `encodes` parameter.
- HTML parsing and tree walks of the scrapers are not modelled. A page is the list of nodes the walk would visit, with the texts the scraper reads.
- The regular-expression location extraction of the Bandcamp show parser is not modelled. It is the `locate` parameter.
- `NormalizeURL` of the scrapers is not modelled. It is the `normalize` parameter.
- Go's time layouts are not modelled. Each `time.Parse` layout is an abstract partial function (a `Layouts` or `Parser` parameter), tried in the source's order.
- Floating point is not modelled:
  - latitudes and longitudes are left out of venues;
  - the event service's `radius` is passed along but never used in filtering.
- Map iteration order is not fixed. A list built from a map lists each entry once, in any order. This covers the aggregator, the artist service, the Deezer genre set and the scraper registry's `GetAllScrapers`.
- The SQL repositories are not modelled. Their answers are parameters, and the event service's ignored cache-write errors are reduced to the batch it writes.
- Reading the configuration file and decoding its JSON are not modelled. They are the `file` and `decode` parameters.
- String case mapping is ASCII only, where Go's `strings.ToLower` and `strings.ToUpper` map every Unicode letter. For names with non-ASCII letters this changes the following members: Dedup.NormalizeArtistName and the deduplication keys, the ID slugs of Domain.Slug, Deezer's lower-cased genre set, the keyword scan of Keywords and SoundCloud.ExtractGenres, ResidentAdvisor.LocationCode, EventServices.FilterByLocation, and the country code of Ticketmaster.CountryCode.
- Logging is left out, and so are `main.go` and the server wiring.
- The constructors `NewArtistAggregator`, `NewArtistService` and `NewEventService` are left out. They only store their collaborators, which are parameters here.
- Sleeping is not modelled as such. A throttle returns the instant at which its request leaves. The retry loop returns the instant at which it ends, its back-off pauses included.
- ArtistAggregation.SearchArtists: the result is stated only up to the order of the map's iteration, because Go randomises that order.
- ArtistServices.SearchArtists: the combined list is stated only as `limit` distinct names of the combined map, in no particular order, because the cut is taken after a map iteration.
- Deezer.DeezerClient.GetArtist: the genres are stated only as a set listed once each, for the same reason.

## Findings

| source | as written | input that shows it | evidently intended | confidence | as-written member | corrected member |
|---|---|---|---|---|---|---|
| pkg/integrations/sources/scrapers/bandcamp.go:50 | `ScrapeEvents` divides the limit by the number of artist links found, with no check that there is one | a non-blank artist query whose search page holds no artist link: `limit / len(artists)` divides by zero and the scraper panics | no artist link means no events | not executed | Bandcamp.ScrapeEventsAsWritten, Bandcamp.NoArtistLinks | Bandcamp.ScrapeEvents |

Two more behaviours follow from the source as written and are proved, but they are not listed as defects:

- The aggregator's cache keys join their parts with an unescaped `_`, so two different artist and city pairs can share one event-cache key (`ResultCache.EventsKeyCollision`, `ResultCache.ArtistAndCityKeysCollide`).
- The location search's key leaves out the country.
