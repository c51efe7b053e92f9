# pixienews, modelled in Dafny

pixienews is a chat bot that delivers AI news. A user picks a **scope** (one of ten
countries, or GLOBAL) on WhatsApp or Telegram and asks for news, or searches.

**Scraper.** The news scraper fetches each of the scope's registered sources (RSS feeds,
or HTML pages for other source types). It keeps only AI-related items and merges the
sources in registry order. It removes repeated articles (same URL fingerprint, first seen
kept) and sorts the rest newest first. A per-scope cache holds the result for a
configured number of minutes. Search runs over every scope's news. It ranks title matches
above summary-only matches, then by recency.

**Command handler.** The handler routes an incoming message:
- a `/command` goes to the dispatch table;
- a bare scope code selects that scope;
- anything longer than two characters is a search;
- anything else gets the help text.

Per-user preferences live in a store keyed by a filename-safe form of the user id.

**Channels.** The WhatsApp Business channel extracts the message from a Meta webhook
payload, answers the webhook verification handshake and checks the payload signature.
The Telegram channel shows the scopes as an inline keyboard, three buttons to a row,
and turns a button press into the scope code.

The model is split into modules:

| module | contents |
|---|---|
| `Wrappers` | Option and Result |
| `Text` | the Python string operations the code uses |
| `Config` | the scope registry and defaults |
| `Helpers` | text utilities |
| `Articles` | articles, ids, the relevance filter, deduplication, the stable newest-first sort |
| `Cache` | the time-bounded cache |
| `Scraper` | fetching, aggregation, `get_news`, multi-scope news, search |
| `Commands` | the preference store and the message handler |
| `WhatsAppBusiness` | webhook parsing, verification, signatures, button capping |
| `Telegram` | the keyboard, callbacks, `/search` |

State that the program changes in place is modelled as classes whose methods are proved
against specification functions: the cache dictionary, the user store, the handler and
bot objects, and the loops of `_deduplicate`, `get_news`, `search_news` and
`_build_country_keyboard`. The lemmas are proved about those functions.

Time is a parameter `now`, in microseconds. The md5 fingerprint, the HMAC-SHA256 digest
and the network (request plus feed or page parser) are parameters of the operations that
use them. `asyncio.gather` returns its results in task order, so the concurrent fetch is
a sequential fold over the sources in registry order.

Three behaviours of the code as written are modelled as they are:
- `_safe_id` maps different user ids such as "a@b" and "a:b" to the same record
  (`Commands.SafeIdConflates`).
- `truncate_text` with a limit shorter than its suffix slices with a negative bound and
  returns text longer than the limit (`Helpers.TruncateShortLimit`).
- `/news` without a code raises when the stored country list is empty
  (`Commands.EmptyCountriesRaise`). The handler never stores such a record, so on the
  store it fills it never raises (`Commands.HandleKeepsStoreWellformed`).

`get_news` tests the cached list for truthiness, so an empty cached list counts as a miss
and is refetched while it is still within its lifetime (`Scraper.Hit`,
`Scraper.SecondCallRefetches`).

## Model

Source paths are relative to the repository root; all live under `pixienews/pixienews/`.

The remaining Python built-ins of the `Text` module (`StripLeft`, `StripRight`, `StripLeftChar`, `StripRightChar`, `StartsWith`, `EndsWith` and `Contains`) have no rows of their own. They are characterised through the lemmas that use them: `StripSlice` and `StripEnds` for `lstrip()`/`rstrip()`, `JoinUrlSeam` for `rstrip("/")`/`lstrip("/")`, and `ContainsAt` for `in`. `StartsWith` and `EndsWith` are defined directly as slice comparisons.

| member | source | states |
|---|---|---|
| `Text.Take` | pixienews/pixienews/scrapers/news_scraper.py:126 | Python's `s[:k]` is a prefix of `s`; its length is `min(k, len)` for `k >= 0`, and a negative `k` drops that many elements from the end |
| `Text.ReplaceAbsent` | pixienews/pixienews/utils/helpers.py:26 | `str.replace` leaves a string without the pattern unchanged |
| `Text.ReplaceLeading` | pixienews/pixienews/channels/telegram.py:272 | replacing in `pat + s` replaces the leading occurrence and then continues in `s` |
| `Text.ReplaceCharAt` | pixienews/pixienews/utils/helpers.py:26 | replacing one character by another keeps the length and changes exactly the positions holding that character |
| `Text.StripTrimmed` | pixienews/pixienews/handlers/commands.py:63 | `strip()` leaves a string that neither starts nor ends with whitespace unchanged |
| `Text.StripEnds` | pixienews/pixienews/handlers/commands.py:63 | the result of `strip()` neither starts nor ends with whitespace |
| `Text.StripSlice` | pixienews/pixienews/handlers/commands.py:63 | `strip()` returns a slice `s[i..j]` of the text, and every character before `i` or from `j` on is whitespace: only outer whitespace is removed |
| `Text.ContainsAt` | pixienews/pixienews/scrapers/news_scraper.py:326 | `p in s` holds iff `p` is the slice of `s` at some position |
| `Text.Strip` | pixienews/pixienews/handlers/commands.py:63 | `strip()`: with `StripSlice`, the result is a slice of the text and everything outside it is whitespace; with `StripEnds`, the slice has no whitespace at either end; with `StripTrimmed`, text without outer whitespace is kept |
| `Text.ReplaceAll` | pixienews/pixienews/utils/helpers.py:26 | defined as Python's `str.replace`: scanning left to right, each non-overlapping occurrence of the pattern is replaced. `ReplaceAbsent`, `ReplaceLeading` and `ReplaceCharAt` add that text without the pattern is unchanged, that a leading occurrence is replaced before the scan resumes, and the per-position effect of a one-character pattern |
| `Config.Lookup` | pixienews/pixienews/config.py:11-107 | a code has an entry iff it is a registry key, and that entry carries the code |
| `Config.IndexOf` | pixienews/pixienews/config.py:11-107 | a code has a position among the registry keys iff it is a key, and the key at that position is the code |
| `Config.ScopeIndex` | pixienews/pixienews/config.py:11-107 | a code is a scope iff some registry position holds it |
| `Config.RegistryCodes` | pixienews/pixienews/config.py:11-107 | the registry has eleven entries, GLOBAL is a key, and the i-th key (US, UK, IN, CN, DE, JP, FR, KR, CA, AU, GLOBAL) is the code of the i-th entry |
| `Config.CodesCapital` | pixienews/pixienews/config.py:11-107 | every key is a non-empty run of capital letters |
| `Config.CodesDistinct` | pixienews/pixienews/config.py:11-107 | no key is listed twice |
| `Config.CodesUpperAndDistinct` | pixienews/pixienews/config.py:11-107 | every code is its own upper-case form and no code is repeated |
| `Config.SourcesOf` | pixienews/pixienews/config.py:15-105 | every registry key lists at least two sources, each of type "rss", so the HTML branch is never taken with this registry; a code that is not a key has no sources |
| `Config.Defaults` | pixienews/pixienews/config.py:110-126 | preference defaults are countries ["GLOBAL"] (a registered scope), language "en", five items and notifications on; settings default to a 30-minute scrape interval, 10 items per source and a 15-minute cache lifetime |
| `Text.Lower` | pixienews/pixienews/handlers/commands.py:87 | `lower()` keeps the length and lower-cases each ASCII letter in place |
| `Text.Upper` | pixienews/pixienews/handlers/commands.py:74 | `upper()` keeps the length and upper-cases each ASCII letter in place |
| `Text.CapitalWordShape` | pixienews/pixienews/handlers/commands.py:63-75 | a non-empty run of capital letters is already stripped, is not a command, is its own upper-case form, and its lower-case form is stripped and upper-cases back to it |
| `Helpers.TruncateText` | pixienews/pixienews/utils/helpers.py:9-13 | text within the limit is returned unchanged; longer text, with a limit at least the suffix length, becomes exactly `max_length` long, ends with the suffix and keeps the text's first `max_length - len(suffix)` characters |
| `Helpers.TruncateShortLimit` | pixienews/pixienews/utils/helpers.py:13 | with a limit shorter than the suffix, the result is longer than the limit ("abcdef", 1, "..." gives "abcd...") |
| `Helpers.RemoveForbidden` | pixienews/pixienews/utils/helpers.py:24 | none of `< > : " / \ \| ? *` survives; any other character occurs in the result iff it occurs in the text; the text does not grow |
| `Helpers.RemoveForbiddenAppend` | pixienews/pixienews/utils/helpers.py:24 | filtering works piece by piece: the filtered concatenation is the concatenation of the filtered parts, so the kept characters stay in order |
| `Helpers.RemoveForbiddenChar` | pixienews/pixienews/utils/helpers.py:24 | a single character is dropped iff it is forbidden; with the piece-by-piece lemma this determines the result of every text |
| `Helpers.SanitizeFilename` | pixienews/pixienews/utils/helpers.py:21-28 | the result has no forbidden character and no space, and is at most 100 characters long; it is the filtered text cut to 100 characters, with each space turned into an underscore and every other character kept |
| `Helpers.RemoveForbiddenClean` | pixienews/pixienews/utils/helpers.py:24 | clean text passes the filter unchanged |
| `Helpers.SanitizeIdempotent` | pixienews/pixienews/utils/helpers.py:21-28 | sanitising twice equals sanitising once |
| `Helpers.IsValidCountryCode` | pixienews/pixienews/utils/helpers.py:38-42 | true iff the upper-cased code is a registry key |
| `Helpers.CaseInsensitiveCodes` | pixienews/pixienews/utils/helpers.py:38-42 | validity ignores case, and the lower-case form of every registry code is valid |
| `Helpers.UpperOfLower` | pixienews/pixienews/utils/helpers.py:42 | upper-casing the lower-cased text equals upper-casing the text |
| `Articles.Id` | pixienews/pixienews/scrapers/news_scraper.py:31-34 | the id is the first `min(12, len)` characters of the URL's hex digest |
| `Articles.SameUrlSameId` | pixienews/pixienews/scrapers/news_scraper.py:31-34 | two articles with the same URL have the same id, whatever their other fields |
| `Articles.AnyKeywordIn` | pixienews/pixienews/scrapers/news_scraper.py:326 | true iff some keyword of the list occurs in the text |
| `Articles.KeywordSplit` | pixienews/pixienews/scrapers/news_scraper.py:326 | a keyword occurs iff the first one does or one of the rest does |
| `Articles.IsAiRelated` | pixienews/pixienews/scrapers/news_scraper.py:315-326 | true iff one of the 24 listed keywords is a substring of the lower-cased `title + " " + summary` |
| `Articles.KeywordInsideWord` | pixienews/pixienews/scrapers/news_scraper.py:325-326 | matching is by substring, so "Chairman" counts as AI-related (it contains "ai") |
| `Articles.DedupIds` | pixienews/pixienews/scrapers/news_scraper.py:328-338 | deduplication keeps every id of the input and adds none |
| `Articles.Dedup` | pixienews/pixienews/scrapers/news_scraper.py:328-338 | first-occurrence deduplication, characterised by `DedupIds`, `DedupKeepsFirstOccurrences` and `DedupDistinct` |
| `Articles.DedupKeepsFirstOccurrences` | pixienews/pixienews/scrapers/news_scraper.py:328-338 | the output is the input's articles at increasing positions, each the first article with its id, and every first occurrence is kept: the output is the subsequence of first occurrences |
| `Articles.DedupStep` | pixienews/pixienews/scrapers/news_scraper.py:333-336 | one more input article keeps the first-occurrence characterisation of the output |
| `Articles.StepNew` | pixienews/pixienews/scrapers/news_scraper.py:334-336 | an article with an unseen id is appended together with its position |
| `Articles.StepSeen` | pixienews/pixienews/scrapers/news_scraper.py:334 | an article whose id was seen is skipped |
| `Articles.LastFirstOccurrence` | pixienews/pixienews/scrapers/news_scraper.py:334 | the last article is a first occurrence iff its id is not among the ids before it (the `seen` test) |
| `Articles.DedupDistinct` | pixienews/pixienews/scrapers/news_scraper.py:328-338 | the ids in the output are pairwise distinct |
| `Articles.DistinctCons` | pixienews/pixienews/scrapers/news_scraper.py:328-338 | a list with an article in front has distinct ids iff the article's id is new and the rest are distinct |
| `Articles.InsertPermutes` | pixienews/pixienews/scrapers/news_scraper.py:147 | insertion adds exactly the inserted article |
| `Articles.InsertSorted` | pixienews/pixienews/scrapers/news_scraper.py:147 | insertion keeps a descending list descending |
| `Articles.InsertGroups` | pixienews/pixienews/scrapers/news_scraper.py:147 | among articles of equal rank, the inserted one comes first, which is what a stable sort on the reversed scan gives |
| `Articles.SortDesc` | pixienews/pixienews/scrapers/news_scraper.py:147 | the newest-first sort, characterised by `SortDescIsStableSort`, `SortDescSorted`, `SortDescPermutes` and `SortDescGroups` |
| `Articles.SortDescIsStableSort` | pixienews/pixienews/scrapers/news_scraper.py:147 | `sort(key, reverse=True)` is modelled as ranks non-increasing, a permutation of the input, and equally ranked articles kept in input order: Python's stable sort |
| `Articles.SortDescSorted` | pixienews/pixienews/scrapers/news_scraper.py:147 | the sorted list is non-increasing in rank |
| `Articles.SortDescPermutes` | pixienews/pixienews/scrapers/news_scraper.py:147 | the sorted list is a permutation of the input |
| `Articles.SortDescGroups` | pixienews/pixienews/scrapers/news_scraper.py:147 | equally ranked articles keep their input order |
| `Articles.SortDescKeepsDistinct` | pixienews/pixienews/scrapers/news_scraper.py:146-147 | sorting keeps the set of ids and their distinctness |
| `Cache.Read` | pixienews/pixienews/scrapers/news_scraper.py:60-67 | a read returns the stored list iff an entry exists and is younger than the lifetime; an expired entry is deleted; other keys are untouched |
| `Cache.ReadAfterWrite` | pixienews/pixienews/scrapers/news_scraper.py:60-71 | within the lifetime, a read after a write returns what was written and keeps the entry |
| `Cache.ReadAfterExpiry` | pixienews/pixienews/scrapers/news_scraper.py:60-67 | after the lifetime, a read returns None and evicts the entry, so the next read misses too |
| `Cache.WriteIsolated` | pixienews/pixienews/scrapers/news_scraper.py:69-71 | a write to one scope does not change a read of another |
| `Cache.NewsCache.constructor` | pixienews/pixienews/scrapers/news_scraper.py:56-58 | a new cache is empty, with the lifetime converted from minutes |
| `Cache.NewsCache.Get` | pixienews/pixienews/scrapers/news_scraper.py:60-67 | the result and the new dictionary are those of `Read` |
| `Cache.NewsCache.Set` | pixienews/pixienews/scrapers/news_scraper.py:69-71 | the scope's entry becomes the list stamped with the current time; the rest is unchanged |
| `Cache.NewsCache.Clear` | pixienews/pixienews/scrapers/news_scraper.py:73-75 | the dictionary becomes empty |
| `Scraper.Collect` | pixienews/pixienews/scrapers/news_scraper.py:235-271 | every collected article comes from one of the inputs, and there are no more articles than inputs |
| `Scraper.FromFeedEntry` | pixienews/pixienews/scrapers/news_scraper.py:237-271 | one feed entry becomes an article only when AI-related; properties stated through `RssArticles` and `FeedSummary` |
| `Scraper.FromBlock` | pixienews/pixienews/scrapers/news_scraper.py:290-311 | one page block becomes an article only when it has a title and link and is AI-related; properties stated through `HtmlArticles` |
| `Scraper.FeedSummary` | pixienews/pixienews/scrapers/news_scraper.py:245-249 | the summary is a prefix of the entry's summary, or else of its description, of length `min(len, 500)`; it is empty when there is neither |
| `Scraper.RssArticles` | pixienews/pixienews/scrapers/news_scraper.py:235-271 | at most 10 articles, each AI-related, with a summary of at most 500 characters, and labelled with the source's name and the scope |
| `Scraper.RssIgnoresLaterEntries` | pixienews/pixienews/scrapers/news_scraper.py:235 | entries after the first 10 do not affect the result |
| `Scraper.JoinUrlSeam` | pixienews/pixienews/scrapers/news_scraper.py:297-298 | a link starting with "http" is unchanged. Any other link becomes a prefix `b` of the base, one slash, and a suffix `u` of the link. `b` does not end in a slash, and the rest of the base is all slashes. `u` does not start with a slash, and the dropped start of the link is all slashes. So `b` is the base rstripped of "/" and `u` is the link lstripped of "/" |
| `Scraper.JoinUrlAbsolute` | pixienews/pixienews/scrapers/news_scraper.py:297-298 | with an http base, the joined link starts with "http", and joining it again changes nothing |
| `Scraper.JoinUrl` | pixienews/pixienews/scrapers/news_scraper.py:297-298 | the link resolution of the HTML path, characterised by `JoinUrlSeam` and `JoinUrlAbsolute` |
| `Scraper.HtmlArticles` | pixienews/pixienews/scrapers/news_scraper.py:289-311 | at most 10 articles, each AI-related, stamped with the fetch time, without an image, labelled with source and scope, and with an absolute link when the base is one |
| `Scraper.SourceArticles` | pixienews/pixienews/scrapers/news_scraper.py:208-221 | a source contributes at most 10 AI-related articles of its scope, and nothing when its request fails |
| `Scraper.MergeMembers` | pixienews/pixienews/scrapers/news_scraper.py:132-143 | every merged article comes from one of the sources |
| `Scraper.MergeAppend` | pixienews/pixienews/scrapers/news_scraper.py:139-141 | merging concatenates per-source results in source order |
| `Scraper.MergeSingle` | pixienews/pixienews/scrapers/news_scraper.py:139-141 | no sources merge to [], and a single source merges to its own list |
| `Scraper.FailedSourceSkipped` | pixienews/pixienews/scrapers/news_scraper.py:139-143 | a failed source contributes nothing: the merge equals the merge without it |
| `Scraper.Merge` | pixienews/pixienews/scrapers/news_scraper.py:132-143 | defined as the per-source lists concatenated in source order, as the `extend` loop builds them. `MergeSingle` (no sources give [], one source gives its own list) and `MergeAppend` together fix the merge of every source list. `MergeMembers` and `FailedSourceSkipped` add that every article comes from a source and that a failed source adds nothing |
| `Scraper.AggregateProperties` | pixienews/pixienews/scrapers/news_scraper.py:129-147 | the fetched list is newest first, has distinct ids, and holds only AI-related articles of the scope; it is a permutation of the deduplicated merge and has all of its ids; equally recent articles keep merge order |
| `Scraper.Aggregate` | pixienews/pixienews/scrapers/news_scraper.py:128-147 | fetch, merge, deduplicate and sort one scope, characterised by `AggregateProperties` |
| `Scraper.DedupSubset` | pixienews/pixienews/scrapers/news_scraper.py:328-338 | every kept article is from the input |
| `Scraper.GetNewsUnknownScope` | pixienews/pixienews/scrapers/news_scraper.py:117-119 | an unregistered scope yields [] and leaves the cache untouched |
| `Scraper.GetNewsCacheHit` | pixienews/pixienews/scrapers/news_scraper.py:122-126 | a live, non-empty cached list is returned cut to `limit`, without fetching, and the cache is unchanged |
| `Scraper.GetNewsMiss` | pixienews/pixienews/scrapers/news_scraper.py:128-152 | otherwise the fetched list is cached in full under the scope, other scopes are untouched, and the result is its prefix of length `min(limit, n)` |
| `Scraper.SecondCallServedFromCache` | pixienews/pixienews/scrapers/news_scraper.py:122-152 | a second call within the lifetime returns the same list from the cache, whatever a fetch would now give, when the first fetch found something |
| `Scraper.SecondCallRefetches` | pixienews/pixienews/scrapers/news_scraper.py:123-124 | when the first fetch found nothing, or the lifetime has passed, the second call fetches again: an empty cached list counts as a miss |
| `Scraper.GetNewsKeepsCacheFresh` | pixienews/pixienews/scrapers/news_scraper.py:110-152 | when the fetched list has that shape (`FetchedFresh`), every cached list stays newest first, free of repeats and made of its scope's AI articles, and so is every result for a registered scope, at most `limit` long; an unknown scope gives [] |
| `Scraper.GetNewsSpec` | pixienews/pixienews/scrapers/news_scraper.py:110-152 | the `get_news` specification, characterised case by case by `GetNewsUnknownScope`, `GetNewsCacheHit`, `GetNewsMiss` and `GetNewsKeepsCacheFresh` |
| `Scraper.FetchedFresh` | pixienews/pixienews/scrapers/news_scraper.py:128-147 | what a fetch of any scope gives is newest first, free of repeats and made of the scope's AI articles |
| `Scraper.PrefixFresh` | pixienews/pixienews/scrapers/news_scraper.py:126-152 | cutting such a list to `limit` keeps it so |
| `Scraper.Distinct` | pixienews/pixienews/scrapers/news_scraper.py:160-163 | the scopes of the request dictionary: the same codes, each once |
| `Scraper.MultiShape` | pixienews/pixienews/scrapers/news_scraper.py:154-173 | one group per requested scope, in order, each at most `limit` long; an unknown scope gives an empty group, and a known one a fresh list; the cache stays fresh, given fresh fetched lists |
| `Scraper.MultiSpec` | pixienews/pixienews/scrapers/news_scraper.py:154-173 | defined as `get_news` for each distinct requested scope in turn, passing the cache from one call to the next and collecting one group per scope. `MultiShape` adds the number of groups, their order and bound, the empty group of an unknown scope, and the freshness of the cache |
| `Scraper.Filter` | pixienews/pixienews/scrapers/news_scraper.py:191-195 | an article is kept iff its lower-cased title or summary contains the lower-cased query |
| `Scraper.SearchRanking` | pixienews/pixienews/scrapers/news_scraper.py:187-206 | every result matches; title matches precede summary-only ones; within each group articles are newest first, with ties in collection order; the result is the first `limit` of the ranked matches, `min(limit, n)` of them for `limit >= 0`; with room for all, it is a permutation of the matches |
| `Scraper.SearchDefaultsToAllScopes` | pixienews/pixienews/scrapers/news_scraper.py:182-183 | no scope list means every registry key, each once, in registry order |
| `Scraper.SearchSpec` | pixienews/pixienews/scrapers/news_scraper.py:175-206 | defined as the multi-scope news of the requested scopes (all registry keys when none are given), flattened, filtered by the lower-cased query and ranked. `SearchRanking` adds what the ranking keeps, its order and its length. `SearchDefaultsToAllScopes` adds the default scope list |
| `Scraper.DistinctOfDistinct` | pixienews/pixienews/scrapers/news_scraper.py:160-163 | a list without repeats is its own set of keys, in order |
| `Scraper.NewsScraper.constructor` | pixienews/pixienews/scrapers/news_scraper.py:81 | a new scraper has an empty cache with the lifetime given in minutes, and reads its source lists from the registry |
| `Scraper.NewsScraper.Deduplicate` | pixienews/pixienews/scrapers/news_scraper.py:328-338 | the loop with a `seen` set computes the first-occurrence subsequence |
| `Scraper.NewsScraper.FetchRss` | pixienews/pixienews/scrapers/news_scraper.py:223-273 | the RSS fetch is the request followed by entry selection, None on failure |
| `Scraper.NewsScraper.FetchHtml` | pixienews/pixienews/scrapers/news_scraper.py:275-313 | the HTML fetch is the request followed by block selection, None on failure |
| `Scraper.NewsScraper.FetchSource` | pixienews/pixienews/scrapers/news_scraper.py:208-221 | the fetcher is chosen by source type, and a failure becomes an empty list |
| `Scraper.NewsScraper.FetchAll` | pixienews/pixienews/scrapers/news_scraper.py:132-143 | the gathering loop computes the merge of all sources in order |
| `Scraper.NewsScraper.GetNews` | pixienews/pixienews/scrapers/news_scraper.py:110-152 | the result and the new cache are those of the `get_news` specification, whose cases are the lemmas above |
| `Scraper.NewsScraper.FetchScope` | pixienews/pixienews/scrapers/news_scraper.py:128-147 | the miss path computes the aggregate of the scope's sources: merged in source order, deduplicated, sorted newest first |
| `Scraper.NewsScraper.GetNewsMulti` | pixienews/pixienews/scrapers/news_scraper.py:154-173 | the groups and the cache are those of fetching each distinct requested scope in turn |
| `Scraper.NewsScraper.SearchNews` | pixienews/pixienews/scrapers/news_scraper.py:175-206 | the result and the cache are those of the search specification, which `SearchRanking` characterises |
| `Scraper.NewsScraper.MatchingArticles` | pixienews/pixienews/scrapers/news_scraper.py:191-195 | the nested loop collects exactly the matching articles of all groups, in order |
| `Scraper.NewsScraper.AppendMatching` | pixienews/pixienews/scrapers/news_scraper.py:192-195 | the inner loop extends the matches so far with the matches of one group |
| `Scraper.FilterStep` | pixienews/pixienews/scrapers/news_scraper.py:193-195 | one more article is appended exactly when it matches |
| `Commands.SafeId` | pixienews/pixienews/handlers/commands.py:37-39 | every "@" and ":" becomes "_" and every other character is kept, so the result has neither |
| `Commands.SafeIdConflates` | pixienews/pixienews/handlers/commands.py:37-39 | different user ids can share a record: "a@b" and "a:b" both map to "a_b" |
| `Commands.Load` | pixienews/pixienews/handlers/commands.py:23-29 | a stored record is returned, and the default preferences when there is none |
| `Commands.LoadAfterSave` | pixienews/pixienews/handlers/commands.py:23-35 | a read after a save returns what was saved; other users' records are unaffected unless their safe ids collide |
| `Commands.UserStore.constructor` | pixienews/pixienews/handlers/commands.py:16-21 | a new store is empty |
| `Commands.UserStore.Get` | pixienews/pixienews/handlers/commands.py:23-29 | reads as `Load` |
| `Commands.UserStore.Save` | pixienews/pixienews/handlers/commands.py:31-35 | the user's record is replaced and no other record changes |
| `Commands.Token` | pixienews/pixienews/handlers/commands.py:86-87 | the command token is a whitespace-free prefix of the content ending at whitespace or at the end |
| `Commands.SplitCommandRoundTrip` | pixienews/pixienews/handlers/commands.py:86-88 | splitting `cmd + " " + args` gives back the command and its arguments, and a bare command gets "" |
| `Commands.SplitCommand` | pixienews/pixienews/handlers/commands.py:86-88 | the split into command and arguments; properties stated by `Token`, `SplitCommandRoundTrip` and `BareNewsCommand` |
| `Commands.RouteOf` | pixienews/pixienews/handlers/commands.py:61-82 | routing priority, each case as an iff: empty after stripping gives no reply; a leading "/" gives a command with its lower-cased token and arguments; else an upper-cased registry code selects the scope; else content of more than two characters is a search; else help |
| `Commands.HandleSpec` | pixienews/pixienews/handlers/commands.py:61-82 | the handler specification; properties stated by `RouteOf`, `HandleKeepsStoreWellformed` and `EmptyStoreNeverRaises` |
| `Commands.CountrySelectionIsValidCode` | pixienews/pixienews/handlers/commands.py:74-76 | a non-command is a scope selection iff it is a valid country code in the helper's sense; every lower-case code selects |
| `Commands.LowerCodeIsStripped` | pixienews/pixienews/handlers/commands.py:74-75 | a lower-case registry code is already stripped and upper-cases back to the code |
| `Commands.SetCountry` | pixienews/pixienews/handlers/commands.py:136-154 | `/set` saves iff a code is given and is registered, and then stores exactly that code as the only country; otherwise it saves nothing and says which error |
| `Commands.News` | pixienews/pixienews/handlers/commands.py:156-164 | `/news` uses the upper-cased argument, or else the first stored country; an unknown code is an error with no fetch; it raises iff there is no argument and no stored country |
| `Commands.SetNotify` | pixienews/pixienews/handlers/commands.py:177-195 | `/subscribe` and `/unsubscribe` save the record with only the notification flag set to on or off |
| `Commands.DispatchSaves` | pixienews/pixienews/handlers/commands.py:84-106 | only `/set`, `/subscribe` and `/unsubscribe` save, each changing one field; an unknown command is answered as unknown and saves nothing |
| `Commands.Dispatch` | pixienews/pixienews/handlers/commands.py:84-106 | the dispatch table; properties stated by `DispatchSaves`, `SetCountry`, `News` and `SetNotify` |
| `Commands.HandleKeepsStoreWellformed` | pixienews/pixienews/handlers/commands.py:61-195 | if every stored record has a country, that stays so and handling never raises |
| `Commands.CommandKeepsWellformed` | pixienews/pixienews/handlers/commands.py:84-106 | on a store whose records all have a country, a command never raises and any record it saves has a country |
| `Commands.EmptyStoreNeverRaises` | pixienews/pixienews/handlers/commands.py:156-164 | on an empty store, where everyone has the default preferences, handling never raises |
| `Commands.BareNewsCommand` | pixienews/pixienews/handlers/commands.py:86-88 | "/news" splits into the command "/news" with no arguments |
| `Commands.EmptyCountriesRaise` | pixienews/pixienews/handlers/commands.py:158-159 | a stored record with an empty country list makes "/news" raise |
| `Commands.NewsRepliesAlwaysFetch` | pixienews/pixienews/handlers/commands.py:224-227 | the news reply builds a new scraper whose cache is empty, so every reply fetches and returns the aggregate cut to the limit |
| `Commands.CommandHandler.constructor` | pixienews/pixienews/handlers/commands.py:57-59 | a new handler has a new, empty store |
| `Commands.CommandHandler.Handle` | pixienews/pixienews/handlers/commands.py:61-82 | the reply and the new store are those of the routing specification |
| `Commands.CommandHandler.HandleCommand` | pixienews/pixienews/handlers/commands.py:84-106 | the reply and store are those of splitting, lower-casing and dispatching with the caller's preferences |
| `Commands.CommandHandler.CmdSetCountry` | pixienews/pixienews/handlers/commands.py:136-154 | replies as `SetCountry` and saves its record only when that saves |
| `Commands.CommandHandler.CmdNews` | pixienews/pixienews/handlers/commands.py:156-164 | replies as `News` on the caller's stored preferences |
| `Commands.CommandHandler.CmdSubscribe` | pixienews/pixienews/handlers/commands.py:177-187 | stores the caller's record with notifications on |
| `Commands.CommandHandler.CmdUnsubscribe` | pixienews/pixienews/handlers/commands.py:189-195 | stores the caller's record with notifications off |
| `WhatsAppBusiness.ToInt` | pixienews/pixienews/channels/whatsapp_business.py:59 | `int()` keeps an integer and raises on null, lists and objects |
| `WhatsAppBusiness.ToIntDigits` | pixienews/pixienews/channels/whatsapp_business.py:59 | `int()` of a numeral string is its value |
| `WhatsAppBusiness.FromWebhook` | pixienews/pixienews/channels/whatsapp_business.py:25-64 | a parsed message has chat id equal to sender, and empty content unless its type is text or interactive |
| `WhatsAppBusiness.Parse` | pixienews/pixienews/channels/whatsapp_business.py:29-31 | the envelope walk; properties stated by `EnvelopeParse` |
| `WhatsAppBusiness.ParseValue` | pixienews/pixienews/channels/whatsapp_business.py:33-39 | the messages and contacts step; properties stated by `WebhookWithoutMessages` and `DeliveredMessage` |
| `WhatsAppBusiness.MessageOf` | pixienews/pixienews/channels/whatsapp_business.py:42-61 | the message built from one message and one contact; properties stated by `WebhookTextMessage`, `WebhookOtherType`, `InteractiveMessage` and `WebhookBadTimestamp` |
| `WhatsAppBusiness.ContentOf` | pixienews/pixienews/channels/whatsapp_business.py:42-52 | the content by message type; properties stated by `WebhookButtonReply`, `WebhookListReply` and `WebhookNoReply` |
| `WhatsAppBusiness.EnvelopeParse` | pixienews/pixienews/channels/whatsapp_business.py:29-31 | in any payload whose first entry's first change holds a value, that value alone decides the result; later entries and changes are ignored |
| `WhatsAppBusiness.WebhookWithoutMessages` | pixienews/pixienews/channels/whatsapp_business.py:33-35 | when that value's messages list is missing or empty, the result is None |
| `WhatsAppBusiness.DeliveredMessage` | pixienews/pixienews/channels/whatsapp_business.py:37-64 | of a non-empty messages list, the first message is delivered, built with the first of the contacts (or an empty contact when the list is missing or empty), or None when building it raises; later messages and contacts are ignored |
| `WhatsAppBusiness.WebhookOtherType` | pixienews/pixienews/channels/whatsapp_business.py:42-61 | a message of another type has empty content, both ids from "from", and sender name "User" |
| `WhatsAppBusiness.WebhookTextMessage` | pixienews/pixienews/channels/whatsapp_business.py:42-61 | a text message (the default type) carries its body, the sender name defaults to "User" and the timestamp is `int()` of the given one |
| `WhatsAppBusiness.InteractiveMessage` | pixienews/pixienews/channels/whatsapp_business.py:47-61 | an interactive message carries its reply content and the contact's profile name |
| `WhatsAppBusiness.WebhookButtonReply` | pixienews/pixienews/channels/whatsapp_business.py:49-50 | the button reply's id is the content, even when a list reply is present |
| `WhatsAppBusiness.WebhookListReply` | pixienews/pixienews/channels/whatsapp_business.py:51-52 | without a button reply, the list reply's id is the content |
| `WhatsAppBusiness.WebhookNoReply` | pixienews/pixienews/channels/whatsapp_business.py:47-52 | with neither reply the content is empty |
| `WhatsAppBusiness.WebhookMessagesNotAList` | pixienews/pixienews/channels/whatsapp_business.py:37-64 | a payload that makes parsing raise yields None |
| `WhatsAppBusiness.WebhookBadTimestamp` | pixienews/pixienews/channels/whatsapp_business.py:59-64 | a timestamp `int()` rejects yields None |
| `WhatsAppBusiness.VerifyWebhook` | pixienews/pixienews/channels/whatsapp_business.py:123-129 | the challenge is returned iff the mode is "subscribe" and the token is the configured one, otherwise None |
| `WhatsAppBusiness.ValidateSignature` | pixienews/pixienews/channels/whatsapp_business.py:131-144 | with no or an empty secret every payload is accepted; with one, the call raises iff the HMAC digest or the header with every "sha256=" removed has a non-ASCII character, and otherwise accepts iff the two are equal |
| `WhatsAppBusiness.CompareDigest` | pixienews/pixienews/channels/whatsapp_business.py:144 | `hmac.compare_digest` on two strings raises iff one of them has a non-ASCII character, and otherwise is true iff they are equal |
| `WhatsAppBusiness.HexShape` | pixienews/pixienews/channels/whatsapp_business.py:136-140 | a hex digest is ASCII and has no "s", so removing "sha256=" cannot cut into it |
| `WhatsAppBusiness.StripSignaturePrefix` | pixienews/pixienews/channels/whatsapp_business.py:143 | removing every "sha256=" from the prefixed digest gives back the digest when it has no "s" |
| `WhatsAppBusiness.SignatureAccepted` | pixienews/pixienews/channels/whatsapp_business.py:136-144 | the correct hex digest is accepted, without raising, with or without the "sha256=" prefix |
| `WhatsAppBusiness.SignatureRejected` | pixienews/pixienews/channels/whatsapp_business.py:136-144 | a different hex digest is rejected without raising, when the expected digest is hex |
| `WhatsAppBusiness.SignatureNonAsciiRaises` | pixienews/pixienews/channels/whatsapp_business.py:143-144 | a prefixed header with a non-ASCII character makes the check raise instead of answering |
| `WhatsAppBusiness.CapButtons` | pixienews/pixienews/channels/whatsapp_business.py:224-230 | at most the first three buttons are sent, with ids kept and titles cut to exactly their first `min(len, 20)` characters; a missing "id" or "title" among them fails |
| `Telegram.Buttons` | pixienews/pixienews/channels/telegram.py:68-74 | one button per entry |
| `Telegram.ButtonsAt` | pixienews/pixienews/channels/telegram.py:70-73 | the i-th button is the i-th entry's, labelled flag + " " + code with callback data "country_" + code |
| `Telegram.Keyboard` | pixienews/pixienews/channels/telegram.py:65-80 | the row-filling loop yields rows of at most three, all but the last exactly three and none empty; they flatten to the entries' buttons in order; there are `ceil(n / 3)` rows |
| `Telegram.CloseRows` | pixienews/pixienews/channels/telegram.py:79-80 | the trailing partial row is appended only when non-empty |
| `Telegram.BuildCountryKeyboard` | pixienews/pixienews/channels/telegram.py:61-82 | the keyboard holds one button per registry scope, in registry order, in rows of three |
| `Telegram.FullRowsLength` | pixienews/pixienews/channels/telegram.py:75-77 | full rows hold three buttons each |
| `Telegram.KeyboardShape` | pixienews/pixienews/channels/telegram.py:61-82 | with the eleven scopes there are four rows, the last holding the Australia and GLOBAL buttons |
| `Telegram.CallbackScope` | pixienews/pixienews/channels/telegram.py:271-272 | a press is acted on iff its data starts with "country_" |
| `Telegram.CallbackOfCode` | pixienews/pixienews/channels/telegram.py:271-272 | "country_" + code gives back a code without a lower-case "c" |
| `Telegram.CallbackRemovesEveryPrefix` | pixienews/pixienews/channels/telegram.py:272 | every "country_" is removed, not just the leading one; data without the prefix is ignored |
| `Telegram.CodeShape` | pixienews/pixienews/config.py:11-107 | a registered code is a non-empty run of capital letters, so stripping and upper-casing keep it and it is not a command |
| `Telegram.CodeSelectsScope` | pixienews/pixienews/handlers/commands.py:74-76 | a registered code sent as a message selects that scope |
| `Telegram.ButtonRoundTrip` | pixienews/pixienews/channels/telegram.py:70-73 | the button of a registry scope gives back its code, and that code is routed as a selection of the scope |
| `Telegram.JoinWords` | pixienews/pixienews/channels/telegram.py:180 | the joined query starts with the first word, and its length is the total of the word lengths plus one blank between neighbours |
| `Telegram.JoinWordsAppend` | pixienews/pixienews/channels/telegram.py:180 | joining two non-empty word lists one after the other is joining each and putting one blank between |
| `Telegram.TelegramBot.constructor` | pixienews/pixienews/channels/telegram.py:43-59 | a new bot has its own handler with an empty store |
| `Telegram.TelegramBot.HandleCallback` | pixienews/pixienews/channels/telegram.py:265-287 | a scope press is answered as the handler answers the code from that user; any other press gets nothing and changes nothing |
| `Telegram.TelegramBot.CmdSearch` | pixienews/pixienews/channels/telegram.py:172-195 | with no words the prompt is sent without asking the handler and nothing changes; otherwise the handler answers "/search " with the words joined by single spaces |

## Left out

- HTTP requests, feedparser and BeautifulSoup are not modelled. A `Fetcher` gives each URL's body (None for a failed request) and the entries or blocks it parses into. Markup stripping of summaries is part of that abstraction.
- `asyncio` concurrency is not modelled: the fan-out is a sequential fold in registry order. One `now` is used per call.
- md5 and HMAC-SHA256 are parameters; their own correctness is not modelled.
- Presentation is not modelled: emoji, `strftime`, reply texts and `format_whatsapp`. Replies are abstract values naming what would be said.
- `clean_html` and `format_date` in `helpers.py` are not modelled.
- `get_available_countries` is not modelled.
- `cli.py`, `bot.py`, `webhook_server.py`, `channels/whatsapp.py` and the `__init__.py` files are not part of this model.
- JSON file I/O of the user store and `Config.save`/`load` is not modelled: the store is a map from safe id to preferences.
- The `data_dir` setting is not modelled. A store or handler starts empty; records already on disk are not modelled.
- Case folding and whitespace are ASCII only. `lower()`, `upper()`, `strip()` and `split()` of non-ASCII text are not modelled.
- Articles.SortDesc: the in-place list sort is modelled as a pure stable insertion sort on a sequence.
- Scraper.RssArticles: exceptions raised inside the per-entry loop are not modelled.
- Scraper.GetNewsMulti: the exception path of `get_news_multi_country`, which records [] for a failing scope, is not modelled; the modelled `get_news` does not raise.
- WhatsAppBusiness.CapButtons: a missing key among the first three buttons gives None instead of an exception.
- WhatsAppBusiness.ToInt: JSON numbers are modelled as integers only, so `int()` of a float is not modelled; booleans give 1 and 0 as in Python. Numeral strings with underscores or with non-ASCII decimal digits (such as Arabic-Indic or full-width digits), which Python accepts, raise in the model. Python's limit of 4300 digits for a numeral string is not modelled.
- The `send_*` network calls of the WhatsApp Business channel and `send_country_selector` are not modelled.
- The other Telegram commands and handlers (`_cmd_start`, `_cmd_news`, `_cmd_set`, `_handle_text` and the rest) are not modelled. Neither are the reply fallbacks such as "No news found.".
- Telegram.TelegramBot.CmdSearch: receives the command's words already split; Telegram's own argument splitting is not modelled.
