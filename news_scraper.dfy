/**
 * `NewsScraper`: per-source fetching, aggregation of a scope's sources, the multi-scope
 * fan-out and the keyword search. The network and the feed and page parsers are
 * parameters (a `Fetcher`), and so are the clock (`now`) and the digest behind article ids.
 */
module Scraper {
  import opened Wrappers
  import opened Text
  import opened Articles
  import opened Cache
  import Config

  /** A feed entry as the feed parser presents it: each attribute may be absent. The
      summary and description are already reduced to their text, the published date
      is present only when it parsed into a valid instant, and `image` is the image URL
      the entry's media content or first enclosure carries. */
  datatype FeedEntry = FeedEntry(
    title: Option<string>,
    link: Option<string>,
    summary: Option<string>,
    description: Option<string>,
    published: Option<int>,
    image: Option<string>)

  /** An `<article>` element of a page: the text of its first heading, the `href` of its
      first link that has one, and the text of its first paragraph, each when present. */
  datatype PageBlock = PageBlock(heading: Option<string>, href: Option<string>, paragraph: Option<string>)

  /** The outside world of the scraper: an HTTP GET that yields the body of a successful
      response (None for a network error or an error status), the feed parser and the
      page parser. */
  datatype Fetcher = Fetcher(
    get: string -> Option<string>,
    parseFeed: string -> seq<FeedEntry>,
    parsePage: string -> seq<PageBlock>)

  /** Entries read per source: `feed.entries[:10]` and `soup.find_all("article")[:10]`. */
  const EntriesPerSource: int := 10

  /** The summary cap of the RSS path: `get_text()[:500]`. */
  const SummaryCap: int := 500

  /** Keep, in order, the articles f makes of the elements of xs (the loops of the two fetchers). */
  function Collect<T>(xs: seq<T>, f: T -> Option<Article>): (r: seq<Article>)
    ensures |r| <= |xs|
    ensures forall a :: a in r ==> exists i :: 0 <= i < |xs| && f(xs[i]) == Some(a)
    decreases |xs|
  {
    if xs == [] then []
    else
      var n := |xs| - 1;
      var prev := Collect(xs[..n], f);
      assert forall i :: 0 <= i < n ==> xs[..n][i] == xs[i];
      match f(xs[n])
      case Some(a) => prev + [a]
      case None => prev
  }

  /** The summary of a feed entry: its summary text, else its description text, cut to 500 characters. */
  function FeedSummary(e: FeedEntry): (r: string)
    ensures |r| <= SummaryCap
    ensures e.summary.Some? ==> StartsWith(e.summary.value, r) && |r| == Min(|e.summary.value|, SummaryCap)
    ensures e.summary.None? && e.description.Some? ==>
      StartsWith(e.description.value, r) && |r| == Min(|e.description.value|, SummaryCap)
    ensures e.summary.None? && e.description.None? ==> r == ""
  {
    match e.summary
    case Some(s) => Take(s, SummaryCap)
    case None =>
      match e.description
      case Some(d) => Take(d, SummaryCap)
      case None => ""
  }

  function Min(a: int, b: int): int {
    if a < b then a else b
  }

  /** One pass of the `_fetch_rss` loop: the article made of an entry, unless it is not AI-related. */
  function FromFeedEntry(e: FeedEntry, src: Config.Source, scope: string, now: int): Option<Article> {
    var summary := FeedSummary(e);
    var title := match e.title case Some(t) => t case None => "";
    if !IsAiRelated(title, summary) then None
    else
      Some(Article(
        title,
        match e.link case Some(l) => l case None => "",
        summary,
        src.name,
        scope,
        match e.published case Some(p) => p case None => now,
        e.image))
  }

  /** The articles `_fetch_rss` builds from a parsed feed. */
  function RssArticles(entries: seq<FeedEntry>, src: Config.Source, scope: string, now: int): (r: seq<Article>)
    ensures |r| <= EntriesPerSource
    ensures forall a :: a in r ==>
      IsAiRelated(a.title, a.summary) && |a.summary| <= SummaryCap && a.source == src.name && a.country == scope
  {
    Collect(Take(entries, EntriesPerSource), e => FromFeedEntry(e, src, scope, now))
  }

  /** Entries after the tenth are never read. */
  lemma RssIgnoresLaterEntries(entries: seq<FeedEntry>, later: seq<FeedEntry>, src: Config.Source, scope: string, now: int)
    requires |entries| >= EntriesPerSource
    ensures RssArticles(entries + later, src, scope, now) == RssArticles(entries, src, scope, now)
  {
    assert Take(entries + later, EntriesPerSource) == Take(entries, EntriesPerSource);
  }

  /**
   * The link of an HTML article: a link starting with "http" is kept, any other is joined
   * to the source URL with exactly one slash between them.
   */
  function JoinUrl(base: string, url: string): string {
    if StartsWith(url, "http") then url
    else StripRightChar(base, '/') + "/" + StripLeftChar(url, '/')
  }

  /** Any link not starting with "http" is joined to the source URL with exactly one slash
      at the seam: the base without its trailing slashes, the link without its leading ones. */
  lemma {:induction false} JoinUrlSeam(base: string, url: string)
    ensures StartsWith(url, "http") ==> JoinUrl(base, url) == url
    ensures !StartsWith(url, "http") ==>
      exists b, u :: JoinUrl(base, url) == b + "/" + u &&
        (b == [] || b[|b| - 1] != '/') && (u == [] || u[0] != '/') &&
        StartsWith(base, b) && EndsWith(url, u) &&
        (forall i :: |b| <= i < |base| ==> base[i] == '/') &&
        (forall i :: 0 <= i < |url| - |u| ==> url[i] == '/')
  {
    if !StartsWith(url, "http") {
      var b, u := StripRightChar(base, '/'), StripLeftChar(url, '/');
      StripRightCharEnds(base, '/');
      StripLeftCharEnds(url, '/');
      assert JoinUrl(base, url) == b + "/" + u &&
        (b == [] || b[|b| - 1] != '/') && (u == [] || u[0] != '/') &&
        StartsWith(base, b) && EndsWith(url, u) &&
        (forall i :: |b| <= i < |base| ==> base[i] == '/') &&
        (forall i :: 0 <= i < |url| - |u| ==> url[i] == '/');
    }
  }

  /** From an absolute base the join always yields an absolute link, so joining its result
      again changes nothing. */
  lemma {:induction false} JoinUrlAbsolute(base: string, url: string)
    requires StartsWith(base, "http")
    ensures StartsWith(JoinUrl(base, url), "http")
    ensures JoinUrl(base, JoinUrl(base, url)) == JoinUrl(base, url)
  {
    if !StartsWith(url, "http") {
      var b, u := StripRightChar(base, '/'), StripLeftChar(url, '/');
      StripRightCharKeeps(base, '/', "http");
      assert (b + "/" + u)[..4] == b[..4];
    }
  }

  lemma {:induction false} StripRightCharEnds(s: string, c: char)
    ensures StripRightChar(s, c) == [] || StripRightChar(s, c)[|StripRightChar(s, c)| - 1] != c
    ensures StartsWith(s, StripRightChar(s, c))
    ensures forall i :: |StripRightChar(s, c)| <= i < |s| ==> s[i] == c
    decreases |s|
  {
    if s != [] && s[|s| - 1] == c {
      StripRightCharEnds(s[..|s| - 1], c);
      assert forall i :: |StripRightChar(s, c)| <= i < |s| - 1 ==> s[i] == s[..|s| - 1][i];
    }
  }

  lemma {:induction false} StripLeftCharEnds(s: string, c: char)
    ensures StripLeftChar(s, c) == [] || StripLeftChar(s, c)[0] != c
    ensures EndsWith(s, StripLeftChar(s, c))
    ensures forall i :: 0 <= i < |s| - |StripLeftChar(s, c)| ==> s[i] == c
    decreases |s|
  {
    if s != [] && s[0] == c {
      StripLeftCharEnds(s[1..], c);
      assert forall i :: 1 <= i < |s| - |StripLeftChar(s, c)| ==> s[i] == s[1..][i - 1];
    }
  }

  /** Stripping c from the right never reaches into a prefix that does not end in c. */
  lemma {:induction false} StripRightCharKeeps(s: string, c: char, p: string)
    requires StartsWith(s, p) && p != [] && p[|p| - 1] != c
    ensures StartsWith(StripRightChar(s, c), p)
    decreases |s|
  {
    if s[|s| - 1] == c {
      assert |s| > |p|;
      assert s[..|s| - 1][..|p|] == p;
      StripRightCharKeeps(s[..|s| - 1], c, p);
    }
  }

  /** One pass of the `_fetch_html` loop: the article made of an `<article>` element that has
      a heading and a link, unless it is not AI-related; it is dated `now` and has no image. */
  function FromBlock(b: PageBlock, src: Config.Source, scope: string, now: int): Option<Article> {
    if b.heading.None? || b.href.None? then None
    else
      var summary := match b.paragraph case Some(p) => p case None => "";
      if IsAiRelated(b.heading.value, summary) then
        Some(Article(b.heading.value, JoinUrl(src.url, b.href.value), summary, src.name, scope, now, None))
      else None
  }

  /** The articles `_fetch_html` builds from a parsed page. */
  function HtmlArticles(blocks: seq<PageBlock>, src: Config.Source, scope: string, now: int): (r: seq<Article>)
    ensures |r| <= EntriesPerSource
    ensures forall a :: a in r ==>
      IsAiRelated(a.title, a.summary) && a.source == src.name && a.country == scope &&
      a.published == now && a.imageUrl == None &&
      (StartsWith(src.url, "http") ==> StartsWith(a.url, "http"))
  {
    forall b | b in Take(blocks, EntriesPerSource) && b.heading.Some? && b.href.Some?
      ensures StartsWith(src.url, "http") ==> StartsWith(JoinUrl(src.url, b.href.value), "http")
    {
      if StartsWith(src.url, "http") {
        JoinUrlAbsolute(src.url, b.href.value);
      }
    }
    Collect(Take(blocks, EntriesPerSource), b => FromBlock(b, src, scope, now))
  }

  /** Collecting one more input appends its article, if it gives one. */
  lemma CollectSnoc<T>(xs: seq<T>, i: int, f: T -> Option<Article>)
    requires 0 <= i < |xs|
    ensures Collect(xs[..i + 1], f) ==
      Collect(xs[..i], f) + match f(xs[i]) case Some(a) => [a] case None => []
  {
    assert xs[..i + 1][..i] == xs[..i];
  }

  /** `_fetch_rss`: None stands for the exception a failed request raises. */
  function RssFetch(src: Config.Source, scope: string, fetch: Fetcher, now: int): Option<seq<Article>> {
    match fetch.get(src.url)
    case None => None
    case Some(body) => Some(RssArticles(fetch.parseFeed(body), src, scope, now))
  }

  /** `_fetch_html`: None stands for the exception a failed request raises. */
  function HtmlFetch(src: Config.Source, scope: string, fetch: Fetcher, now: int): Option<seq<Article>> {
    match fetch.get(src.url)
    case None => None
    case Some(body) => Some(HtmlArticles(fetch.parsePage(body), src, scope, now))
  }

  /** `_fetch_source`: the RSS fetcher for type "rss", the HTML fetcher for any other type;
      a source that fails contributes no articles. */
  function SourceArticles(src: Config.Source, scope: string, fetch: Fetcher, now: int): (r: seq<Article>)
    ensures |r| <= EntriesPerSource
    ensures fetch.get(src.url).None? ==> r == []
    ensures forall a :: a in r ==> IsAiRelated(a.title, a.summary) && a.country == scope && a.source == src.name
  {
    var got := if src.kind == "rss" then RssFetch(src, scope, fetch, now) else HtmlFetch(src, scope, fetch, now);
    match got
    case Some(articles) => articles
    case None => []
  }

  /** The per-source results concatenated in source order (what `asyncio.gather` and the
      `extend` loop produce), for the per-source fetch f. */
  function Merge(sources: seq<Config.Source>, f: Config.Source -> seq<Article>): seq<Article>
    decreases |sources|
  {
    if sources == [] then []
    else
      var n := |sources| - 1;
      Merge(sources[..n], f) + f(sources[n])
  }

  /** The per-source fetch of a scope. */
  function Fetch(scope: string, fetch: Fetcher, now: int): Config.Source -> seq<Article> {
    src => SourceArticles(src, scope, fetch, now)
  }

  lemma AppendAssoc<T>(a: seq<T>, b: seq<T>, c: seq<T>)
    ensures a + (b + c) == (a + b) + c
  {
  }

  /** No sources merge to nothing, and one source merges to its own list; with `MergeAppend`
      this fixes the merge of every source list. */
  lemma MergeSingle(src: Config.Source, f: Config.Source -> seq<Article>)
    ensures Merge([], f) == []
    ensures Merge([src], f) == f(src)
  {
  }

  /** Every merged article comes from one of the sources. */
  lemma {:induction false} MergeMembers(sources: seq<Config.Source>, f: Config.Source -> seq<Article>)
    ensures forall a :: a in Merge(sources, f) ==> exists i :: 0 <= i < |sources| && a in f(sources[i])
    decreases |sources|
  {
    if sources != [] {
      var n := |sources| - 1;
      MergeMembers(sources[..n], f);
      forall a | a in Merge(sources, f) ensures exists i :: 0 <= i < |sources| && a in f(sources[i]) {
        if a in Merge(sources[..n], f) {
          var i :| 0 <= i < n && a in f(sources[..n][i]);
          assert sources[..n][i] == sources[i];
        } else {
          assert a in f(sources[n]);
        }
      }
    }
  }

  /** Merging is a concatenation over the source list. */
  lemma {:induction false} MergeAppend(a: seq<Config.Source>, b: seq<Config.Source>, f: Config.Source -> seq<Article>)
    ensures Merge(a + b, f) == Merge(a, f) + Merge(b, f)
    decreases |b|
  {
    if b != [] {
      var n := |b| - 1;
      assert (a + b)[..|a| + n] == a + b[..n];
      MergeAppend(a, b[..n], f);
    } else {
      assert a + b == a;
    }
  }

  /** A source whose request fails is skipped: the merge is the same as without it. */
  lemma FailedSourceSkipped(a: seq<Config.Source>, src: Config.Source, b: seq<Config.Source>, scope: string, fetch: Fetcher, now: int)
    requires fetch.get(src.url).None?
    ensures Merge(a + [src] + b, Fetch(scope, fetch, now)) == Merge(a + b, Fetch(scope, fetch, now))
  {
    var f := Fetch(scope, fetch, now);
    assert Merge([src], f) == [] by {
      assert [src][..0] == [];
      assert f(src) == [];
    }
    MergeAppend(a + [src], b, f);
    MergeAppend(a, [src], f);
    MergeAppend(a, b, f);
    calc {
      Merge(a + [src] + b, f);
      Merge(a + [src], f) + Merge(b, f);
      Merge(a, f) + Merge([src], f) + Merge(b, f);
      { assert Merge(a, f) + Merge([src], f) == Merge(a, f); }
      Merge(a, f) + Merge(b, f);
      Merge(a + b, f);
    }
  }

  /** The full list `get_news` computes on a miss: merged, deduplicated, sorted newest first. */
  function Aggregate(sources: seq<Config.Source>, scope: string, fetch: Fetcher, now: int, md5Hex: Digest): seq<Article> {
    SortDesc(Dedup(Merge(sources, Fetch(scope, fetch, now)), IdKey(md5Hex)), ByRecency)
  }

  /** A list as a fresh aggregate of a scope is: newest first, without repeated ids, each
      article AI-related and of that scope. */
  ghost predicate Fresh(s: seq<Article>, scope: string, md5Hex: Digest) {
    && (forall i, j :: 0 <= i < j < |s| ==> s[i].published >= s[j].published)
    && DistinctIds(s, IdKey(md5Hex))
    && (forall a :: a in s ==> IsAiRelated(a.title, a.summary) && a.country == scope)
  }

  /**
   * The aggregate is a fresh list holding exactly the first-seen article of every id of
   * the merged sources, with equally recent articles in merge order.
   */
  lemma AggregateProperties(sources: seq<Config.Source>, scope: string, fetch: Fetcher, now: int, md5Hex: Digest)
    ensures Fresh(Aggregate(sources, scope, fetch, now, md5Hex), scope, md5Hex)
    ensures multiset(Aggregate(sources, scope, fetch, now, md5Hex)) ==
      multiset(Dedup(Merge(sources, Fetch(scope, fetch, now)), IdKey(md5Hex)))
    ensures IdsOf(Aggregate(sources, scope, fetch, now, md5Hex), IdKey(md5Hex)) ==
      IdsOf(Merge(sources, Fetch(scope, fetch, now)), IdKey(md5Hex))
    ensures forall k :: (WithRank(Aggregate(sources, scope, fetch, now, md5Hex), ByRecency, k) ==
      WithRank(Dedup(Merge(sources, Fetch(scope, fetch, now)), IdKey(md5Hex)), ByRecency, k))
  {
    var merged := Merge(sources, Fetch(scope, fetch, now));
    var unique := Dedup(merged, IdKey(md5Hex));
    var r := SortDesc(unique, ByRecency);
    SortDescIsStableSort(unique, ByRecency);
    DedupDistinct(merged, IdKey(md5Hex));
    DedupIds(merged, IdKey(md5Hex));
    SortDescKeepsDistinct(unique, ByRecency, IdKey(md5Hex));
    DedupSubset(merged, IdKey(md5Hex));
    MergeMembers(sources, Fetch(scope, fetch, now));
    forall a | a in r ensures IsAiRelated(a.title, a.summary) && a.country == scope {
      assert a in multiset(r);
      assert a in merged;
      var i :| 0 <= i < |sources| && a in Fetch(scope, fetch, now)(sources[i]);
    }
  }

  /** Deduplication only drops articles. */
  lemma {:induction false} DedupSubset(s: seq<Article>, id: Article -> string)
    ensures forall a :: a in Dedup(s, id) ==> a in s
    decreases |s|
  {
    if s != [] {
      DedupSubset(s[..|s| - 1], id);
    }
  }

  /**
   * `get_news(scope, limit, use_cache)` at instant `now`, as the returned list paired with
   * the cache dictionary afterwards: the cache logic, with the aggregate of the scope's
   * sources as what a fetch gives.
   */
  function GetNewsSpec(entries: map<string, Entry>, ttl: int, scope: string, limit: int, useCache: bool,
                       sources: string -> seq<Config.Source>, fetch: Fetcher, now: int, md5Hex: Digest): (seq<Article>, map<string, Entry>)
  {
    GetNewsWith(entries, ttl, scope, limit, useCache, now, Fetched(sources, fetch, now, md5Hex))
  }

  /** The list fetching gives for each scope: the aggregate of the scope's sources. */
  function Fetched(sources: string -> seq<Config.Source>, fetch: Fetcher, now: int, md5Hex: Digest): string -> seq<Article> {
    scope => Aggregate(sources(scope), scope, fetch, now, md5Hex)
  }

  /**
   * The cache logic of `get_news`, where `fetched(scope)` is the list a fetch of the scope
   * gives. An unknown scope returns [] and leaves the cache alone; a live, non-empty cached
   * list is served; anything else (no entry, an expired one, an empty list, or `use_cache`
   * off) caches the fetched list and returns its first `limit` articles.
   */
  function GetNewsWith(entries: map<string, Entry>, ttl: int, scope: string, limit: int, useCache: bool,
                       now: int, fetched: string -> seq<Article>): (seq<Article>, map<string, Entry>)
  {
    if !Config.IsScope(scope) then ([], entries)
    else
      var (cached, after) := if useCache then Read(entries, ttl, scope, now) else (None, entries);
      if cached.Some? && cached.value != [] then (Take(cached.value, limit), after)
      else
        var full := fetched(scope);
        (Take(full, limit), after[scope := Entry(full, now)])
  }

  /** The cached list is served when the cache is used, the entry is live and it is not empty. */
  predicate Hit(entries: map<string, Entry>, ttl: int, scope: string, useCache: bool, now: int) {
    useCache && scope in entries && Live(entries[scope], now, ttl) && entries[scope].articles != []
  }

  /** An unknown scope yields nothing and the cache is untouched, whatever the fetch gives. */
  lemma GetNewsUnknownScope(entries: map<string, Entry>, ttl: int, scope: string, limit: int, useCache: bool,
                            now: int, fetched: string -> seq<Article>)
    requires !Config.IsScope(scope)
    ensures GetNewsWith(entries, ttl, scope, limit, useCache, now, fetched) == ([], entries)
  {
  }

  /** A hit returns the first `limit` cached articles, whatever the fetch would give. */
  lemma GetNewsCacheHit(entries: map<string, Entry>, ttl: int, scope: string, limit: int,
                        now: int, fetched: string -> seq<Article>)
    requires Config.IsScope(scope) && Hit(entries, ttl, scope, true, now)
    ensures GetNewsWith(entries, ttl, scope, limit, true, now, fetched) ==
      (Take(entries[scope].articles, limit), entries)
  {
  }

  /**
   * On a miss the result is the first min(limit, n) articles of the fetched list, that
   * whole list is cached under the scope with the current instant, and the other scopes'
   * entries are as they were.
   */
  lemma GetNewsMiss(entries: map<string, Entry>, ttl: int, scope: string, limit: int, useCache: bool,
                    now: int, fetched: string -> seq<Article>)
    requires Config.IsScope(scope) && !Hit(entries, ttl, scope, useCache, now)
    ensures var (r, after) := GetNewsWith(entries, ttl, scope, limit, useCache, now, fetched);
      var full := fetched(scope);
      && r == Take(full, limit) && r == full[..|r|]
      && (limit >= 0 ==> |r| == Min(limit, |full|))
      && scope in after && after[scope] == Entry(full, now)
      && (forall k :: k != scope ==> (k in after <==> k in entries))
      && (forall k :: k in after && k != scope ==> after[k] == entries[k])
  {
    var full := fetched(scope);
    var before := if useCache then Read(entries, ttl, scope, now).1 else entries;
    assert GetNewsWith(entries, ttl, scope, limit, useCache, now, fetched) ==
      (Take(full, limit), before[scope := Entry(full, now)]);
  }

  /**
   * The cache short-circuits the fetch: after a call that fetched a non-empty list, a
   * second call for the same scope less than `ttl` later returns the same articles with
   * any network at all, and leaves the cache as it found it.
   */
  lemma SecondCallServedFromCache(entries: map<string, Entry>, ttl: int, scope: string, limit: int, useCache: bool,
                                  now: int, later: int, fetched: string -> seq<Article>, fetched2: string -> seq<Article>)
    requires Config.IsScope(scope) && !Hit(entries, ttl, scope, useCache, now)
    requires fetched(scope) != [] && later - now < ttl
    ensures var (r1, e1) := GetNewsWith(entries, ttl, scope, limit, useCache, now, fetched);
      GetNewsWith(e1, ttl, scope, limit, true, later, fetched2) == (r1, e1)
  {
    GetNewsMiss(entries, ttl, scope, limit, useCache, now, fetched);
  }

  /**
   * The truthiness test makes an empty fetched list a permanent miss: the second call
   * fetches again, even within `ttl`, and so does any call once `ttl` has passed.
   */
  lemma SecondCallRefetches(entries: map<string, Entry>, ttl: int, scope: string, limit: int, useCache: bool,
                            now: int, later: int, fetched: string -> seq<Article>, fetched2: string -> seq<Article>)
    requires Config.IsScope(scope) && !Hit(entries, ttl, scope, useCache, now)
    requires fetched(scope) == [] || later - now >= ttl
    ensures var e1 := GetNewsWith(entries, ttl, scope, limit, useCache, now, fetched).1;
      GetNewsWith(e1, ttl, scope, limit, true, later, fetched2).0 == Take(fetched2(scope), limit)
  {
    GetNewsMiss(entries, ttl, scope, limit, useCache, now, fetched);
  }

  /** Every cached list is a fresh aggregate of its own scope. */
  ghost predicate CacheFresh(entries: map<string, Entry>, md5Hex: Digest) {
    forall k :: k in entries ==> Fresh(entries[k].articles, k, md5Hex)
  }

  /**
   * When the fetch gives fresh lists, `get_news` keeps every cached list fresh and returns
   * a fresh list of at most `limit` articles; an unknown scope gets [].
   */
  lemma GetNewsKeepsCacheFresh(entries: map<string, Entry>, ttl: int, scope: string, limit: int, useCache: bool,
                               now: int, fetched: string -> seq<Article>, md5Hex: Digest)
    requires CacheFresh(entries, md5Hex) && Fresh(fetched(scope), scope, md5Hex)
    ensures var (r, after) := GetNewsWith(entries, ttl, scope, limit, useCache, now, fetched);
      && CacheFresh(after, md5Hex)
      && (Config.IsScope(scope) ==> Fresh(r, scope, md5Hex))
      && (!Config.IsScope(scope) ==> r == [])
      && (limit >= 0 ==> |r| <= limit)
  {
    var (r, after) := GetNewsWith(entries, ttl, scope, limit, useCache, now, fetched);
    if !Config.IsScope(scope) {
      GetNewsUnknownScope(entries, ttl, scope, limit, useCache, now, fetched);
    } else if Hit(entries, ttl, scope, useCache, now) {
      GetNewsCacheHit(entries, ttl, scope, limit, now, fetched);
      PrefixFresh(entries[scope].articles, |r|, scope, md5Hex);
    } else {
      GetNewsMiss(entries, ttl, scope, limit, useCache, now, fetched);
      PrefixFresh(fetched(scope), |r|, scope, md5Hex);
    }
  }

  /** What fetching gives is fresh for every scope. */
  lemma FetchedFresh(sources: string -> seq<Config.Source>, fetch: Fetcher, now: int, md5Hex: Digest)
    ensures forall scope :: Fresh(Fetched(sources, fetch, now, md5Hex)(scope), scope, md5Hex)
  {
    forall scope ensures Fresh(Fetched(sources, fetch, now, md5Hex)(scope), scope, md5Hex) {
      AggregateProperties(sources(scope), scope, fetch, now, md5Hex);
    }
  }

  /** A prefix of a fresh list is fresh. */
  lemma PrefixFresh(s: seq<Article>, n: int, scope: string, md5Hex: Digest)
    requires Fresh(s, scope, md5Hex) && 0 <= n <= |s|
    ensures Fresh(s[..n], scope, md5Hex)
  {
    forall a | a in s[..n] ensures a in s { }
  }

  /** The distinct scopes of a list, in first-occurrence order (the keys of the dictionary
      `get_news_multi_country` builds). */
  function Distinct(xs: seq<string>): (r: seq<string>)
    ensures forall x :: x in r <==> x in xs
    ensures forall i, j :: 0 <= i < j < |r| ==> r[i] != r[j]
    decreases |xs|
  {
    if xs == [] then []
    else
      var n := |xs| - 1;
      var prev := Distinct(xs[..n]);
      assert forall x :: x in xs <==> x in xs[..n] || x == xs[n];
      if xs[n] in prev then prev else prev + [xs[n]]
  }

  /**
   * `get_news_multi_country` over distinct scopes: one `get_news` per scope, in order, each
   * with the cache the previous one left; the scope–list pairs in order and the final cache.
   */
  function MultiSpec(entries: map<string, Entry>, ttl: int, scopes: seq<string>, limit: int,
                     now: int, fetched: string -> seq<Article>): (seq<(string, seq<Article>)>, map<string, Entry>)
    decreases |scopes|
  {
    if scopes == [] then ([], entries)
    else
      var (r, after) := GetNewsWith(entries, ttl, scopes[0], limit, true, now, fetched);
      var (rest, last) := MultiSpec(after, ttl, scopes[1..], limit, now, fetched);
      ([(scopes[0], r)] + rest, last)
  }

  /**
   * The multi-scope result has one pair per scope, in order; each list has at most `limit`
   * articles; an unknown scope gets []; a known one gets a fresh list of its own scope.
   * Every cached list stays fresh.
   */
  lemma {:induction false} MultiShape(entries: map<string, Entry>, ttl: int, scopes: seq<string>, limit: int,
                                      now: int, fetched: string -> seq<Article>, md5Hex: Digest)
    requires CacheFresh(entries, md5Hex)
    requires forall scope :: Fresh(fetched(scope), scope, md5Hex)
    ensures var (r, after) := MultiSpec(entries, ttl, scopes, limit, now, fetched);
      && |r| == |scopes|
      && (forall i :: 0 <= i < |r| ==> r[i].0 == scopes[i])
      && (forall i :: 0 <= i < |r| && limit >= 0 ==> |r[i].1| <= limit)
      && (forall i :: 0 <= i < |r| && !Config.IsScope(scopes[i]) ==> r[i].1 == [])
      && (forall i :: 0 <= i < |r| && Config.IsScope(scopes[i]) ==> Fresh(r[i].1, scopes[i], md5Hex))
      && CacheFresh(after, md5Hex)
    decreases |scopes|
  {
    if scopes != [] {
      var (r0, after0) := GetNewsWith(entries, ttl, scopes[0], limit, true, now, fetched);
      GetNewsKeepsCacheFresh(entries, ttl, scopes[0], limit, true, now, fetched, md5Hex);
      var (rest, last) := MultiSpec(after0, ttl, scopes[1..], limit, now, fetched);
      MultiShape(after0, ttl, scopes[1..], limit, now, fetched, md5Hex);
      var r := [(scopes[0], r0)] + rest;
      assert MultiSpec(entries, ttl, scopes, limit, now, fetched) == (r, last);
      assert forall i :: 1 <= i < |r| ==> r[i] == rest[i - 1] && scopes[i] == scopes[1..][i - 1];
    }
  }

  /** One step of the `get_news_multi_country` loop: after the call for the i-th scope, the
      groups so far plus what the remaining scopes give are still the whole result. */
  lemma MultiStep(total: (seq<(string, seq<Article>)>, map<string, Entry>), r: seq<(string, seq<Article>)>,
                  entries: map<string, Entry>, ttl: int, scopes: seq<string>, i: int, limit: int, now: int,
                  fetched: string -> seq<Article>, articles: seq<Article>, after: map<string, Entry>)
    requires 0 <= i < |scopes|
    requires total.0 == r + MultiSpec(entries, ttl, scopes[i..], limit, now, fetched).0
    requires total.1 == MultiSpec(entries, ttl, scopes[i..], limit, now, fetched).1
    requires (articles, after) == GetNewsWith(entries, ttl, scopes[i], limit, true, now, fetched)
    ensures total.0 == (r + [(scopes[i], articles)]) + MultiSpec(after, ttl, scopes[i + 1..], limit, now, fetched).0
    ensures total.1 == MultiSpec(after, ttl, scopes[i + 1..], limit, now, fetched).1
  {
    assert scopes[i..][1..] == scopes[i + 1..];
    var rest := MultiSpec(after, ttl, scopes[i + 1..], limit, now, fetched);
    assert MultiSpec(entries, ttl, scopes[i..], limit, now, fetched) == ([(scopes[i], articles)] + rest.0, rest.1);
    AppendAssoc(r, [(scopes[i], articles)], rest.0);
  }

  /** The articles of all groups, in group order. */
  function Flatten(groups: seq<(string, seq<Article>)>): seq<Article>
    decreases |groups|
  {
    if groups == [] then [] else Flatten(groups[..|groups| - 1]) + groups[|groups| - 1].1
  }

  /** `query_lower in article.title.lower()` */
  predicate TitleMatch(a: Article, queryLower: string) {
    Contains(Lower(a.title), queryLower)
  }

  /** The search filter: the lower-cased query occurs in the lower-cased title or summary. */
  predicate Matches(a: Article, queryLower: string) {
    TitleMatch(a, queryLower) || Contains(Lower(a.summary), queryLower)
  }

  /** The articles of s that match, in order. */
  function Filter(s: seq<Article>, queryLower: string): (r: seq<Article>)
    ensures forall a :: a in r <==> a in s && Matches(a, queryLower)
    decreases |s|
  {
    if s == [] then []
    else
      var n := |s| - 1;
      assert forall a :: a in s <==> a in s[..n] || a == s[n];
      Filter(s[..n], queryLower) + (if Matches(s[n], queryLower) then [s[n]] else [])
  }

  /** The search sort key `(title match, published)`, a title match ranking higher. */
  function TitleRank(queryLower: string): Article -> Rank {
    a => Rank(if TitleMatch(a, queryLower) then 1 else 0, a.published)
  }

  /** The ranking of `search_news` applied to the collected articles. */
  function Ranked(s: seq<Article>, queryLower: string, limit: int): seq<Article> {
    Take(SortDesc(Filter(s, queryLower), TitleRank(queryLower)), limit)
  }

  /**
   * The search result: every article matches the query; title matches come before
   * summary-only matches; within each of the two groups the articles are newest first and
   * equally ranked ones keep their collection order. The result is the first `limit`
   * articles of the ranked matches (all of them when `limit` leaves room).
   */
  lemma SearchRanking(s: seq<Article>, queryLower: string, limit: int)
    ensures var r := Ranked(s, queryLower, limit);
      && (forall a :: a in r ==> Matches(a, queryLower))
      && (forall i, j :: 0 <= i < j < |r| && TitleMatch(r[j], queryLower) ==> TitleMatch(r[i], queryLower))
      && (forall i, j :: 0 <= i < j < |r| && TitleMatch(r[i], queryLower) == TitleMatch(r[j], queryLower) ==>
            r[i].published >= r[j].published)
      && (limit >= 0 ==> |r| <= limit)
      && (limit >= 0 ==> |r| == if limit < |Filter(s, queryLower)| then limit else |Filter(s, queryLower)|)
      && r == SortDesc(Filter(s, queryLower), TitleRank(queryLower))[..|r|]
      && (limit >= |Filter(s, queryLower)| ==> multiset(r) == multiset(Filter(s, queryLower)))
      && (forall k :: limit >= |Filter(s, queryLower)| ==>
            WithRank(r, TitleRank(queryLower), k) == WithRank(Filter(s, queryLower), TitleRank(queryLower), k))
  {
    var m := Filter(s, queryLower);
    var sorted := SortDesc(m, TitleRank(queryLower));
    SortDescIsStableSort(m, TitleRank(queryLower));
    var r := Ranked(s, queryLower, limit);
    assert |sorted| == |m| by {
      assert |multiset(sorted)| == |multiset(m)|;
    }
    assert r == sorted[..|r|];
    forall a | a in r ensures Matches(a, queryLower) {
      assert a in multiset(sorted);
    }
    forall i, j | 0 <= i < j < |r| ensures AtLeast(TitleRank(queryLower)(r[i]), TitleRank(queryLower)(r[j])) {
      assert r[i] == sorted[i] && r[j] == sorted[j];
    }
    if limit >= |m| {
      assert r == sorted;
    }
  }

  /**
   * `search_news(query, countries, limit)` at instant `now`: the scopes default to every
   * registry code; ten articles per scope are collected through the multi-scope fetch,
   * then filtered and ranked. Paired with the cache afterwards.
   */
  function SearchSpec(entries: map<string, Entry>, ttl: int, query: string, countries: Option<seq<string>>,
                      limit: int, now: int, fetched: string -> seq<Article>): (seq<Article>, map<string, Entry>)
  {
    var scopes := match countries case None => Config.Codes() case Some(cs) => cs;
    var (groups, after) := MultiSpec(entries, ttl, Distinct(scopes), 10, now, fetched);
    (Ranked(Flatten(groups), Lower(query), limit), after)
  }

  /** Without a scope list, the search covers every registry key once, in registry order. */
  lemma SearchDefaultsToAllScopes(entries: map<string, Entry>, ttl: int, query: string, limit: int,
                                  now: int, fetched: string -> seq<Article>)
    ensures var (groups, after) := MultiSpec(entries, ttl, Config.Codes(), 10, now, fetched);
      SearchSpec(entries, ttl, query, None, limit, now, fetched) == (Ranked(Flatten(groups), Lower(query), limit), after)
  {
    Config.CodesDistinct();
    DistinctOfDistinct(Config.Codes());
  }

  /** Listing the scopes of a list without repeats changes nothing. */
  lemma {:induction false} DistinctOfDistinct(xs: seq<string>)
    requires forall i, j :: 0 <= i < j < |xs| ==> xs[i] != xs[j]
    ensures Distinct(xs) == xs
    decreases |xs|
  {
    if xs != [] {
      var n := |xs| - 1;
      DistinctOfDistinct(xs[..n]);
      assert xs[n] !in xs[..n];
      assert xs == xs[..n] + [xs[n]];
    }
  }

  /** The scraper; its cache is the only state it changes. */
  class NewsScraper {
    const cache: NewsCache
    /** The digest the article ids are taken from. */
    const md5Hex: Digest
    /** The source list of each scope, as the registry gives it. */
    const sources: string -> seq<Config.Source>

    /** `NewsScraper(cache_ttl)`: a scraper with an empty cache of that time-to-live in minutes. */
    constructor(cacheTtl: int, md5Hex: Digest)
      ensures fresh(cache) && cache.entries == map[] && cache.ttl == cacheTtl * MicrosPerMinute
      ensures this.md5Hex == md5Hex && sources == Config.SourcesOf
    {
      cache := new NewsCache(cacheTtl);
      this.md5Hex := md5Hex;
      sources := Config.SourcesOf;
    }

    /** `_deduplicate`: one pass with a set of the ids seen so far. */
    method Deduplicate(articles: seq<Article>) returns (unique: seq<Article>)
      ensures unique == Dedup(articles, IdKey(md5Hex))
    {
      var seen: set<string> := {};
      unique := [];
      for i := 0 to |articles|
        invariant unique == Dedup(articles[..i], IdKey(md5Hex))
        invariant seen == IdsOf(unique, IdKey(md5Hex))
      {
        assert articles[..i + 1][..i] == articles[..i];
        var id := Id(articles[i], md5Hex);
        if id !in seen {
          IdsOfSnoc(unique, articles[i], IdKey(md5Hex));
          seen := seen + {id};
          unique := unique + [articles[i]];
        }
      }
      assert articles[..|articles|] == articles;
    }

    /** `_fetch_rss`: None when the request fails. */
    method FetchRss(src: Config.Source, scope: string, fetch: Fetcher, now: int) returns (r: Option<seq<Article>>)
      ensures r == RssFetch(src, scope, fetch, now)
    {
      var body := fetch.get(src.url);
      if body.None? {
        return None;
      }
      var entries := Take(fetch.parseFeed(body.value), EntriesPerSource);
      var select := e => FromFeedEntry(e, src, scope, now);
      var articles: seq<Article> := [];
      for i := 0 to |entries|
        invariant articles == Collect(entries[..i], select)
      {
        CollectSnoc(entries, i, select);
        var a := select(entries[i]);
        if a.Some? {
          articles := articles + [a.value];
        }
      }
      assert entries[..|entries|] == entries;
      r := Some(articles);
    }

    /** `_fetch_html`: None when the request fails. */
    method FetchHtml(src: Config.Source, scope: string, fetch: Fetcher, now: int) returns (r: Option<seq<Article>>)
      ensures r == HtmlFetch(src, scope, fetch, now)
    {
      var body := fetch.get(src.url);
      if body.None? {
        return None;
      }
      var blocks := Take(fetch.parsePage(body.value), EntriesPerSource);
      var select := b => FromBlock(b, src, scope, now);
      var articles: seq<Article> := [];
      for i := 0 to |blocks|
        invariant articles == Collect(blocks[..i], select)
      {
        CollectSnoc(blocks, i, select);
        var a := select(blocks[i]);
        if a.Some? {
          articles := articles + [a.value];
        }
      }
      assert blocks[..|blocks|] == blocks;
      r := Some(articles);
    }

    /** `_fetch_source`: a failed fetch yields []. */
    method FetchSource(src: Config.Source, scope: string, fetch: Fetcher, now: int) returns (r: seq<Article>)
      ensures r == SourceArticles(src, scope, fetch, now)
    {
      var got: Option<seq<Article>>;
      if src.kind == "rss" {
        got := FetchRss(src, scope, fetch, now);
      } else {
        got := FetchHtml(src, scope, fetch, now);
      }
      r := if got.Some? then got.value else [];
    }

    /** `get_news(scope, limit, use_cache)` at instant `now`. */
    method GetNews(scope: string, limit: int, useCache: bool, fetch: Fetcher, now: int) returns (r: seq<Article>)
      modifies cache
      ensures (r, cache.entries) == GetNewsSpec(old(cache.entries), cache.ttl, scope, limit, useCache, sources, fetch, now, md5Hex)
    {
      var info := Config.IndexOf(scope);
      if info.None? {
        return [];
      }
      ghost var before := cache.entries;
      ghost var read := if useCache then Read(before, cache.ttl, scope, now) else (None, before);
      if useCache {
        var cached := cache.Get(scope, now);
        if cached.Some? && cached.value != [] {
          return Take(cached.value, limit);
        }
      }
      assert cache.entries == read.1 && !(read.0.Some? && read.0.value != []);
      var all := FetchScope(scope, fetch, now);
      GetNewsMiss(before, cache.ttl, scope, limit, useCache, now, Fetched(sources, fetch, now, md5Hex));
      assert GetNewsSpec(before, cache.ttl, scope, limit, useCache, sources, fetch, now, md5Hex) ==
        (Take(all, limit), read.1[scope := Entry(all, now)]);
      cache.Set(scope, all, now);
      r := Take(all, limit);
    }

    /** The miss path of `get_news`: every source of the scope fetched, the results
        deduplicated and sorted newest first. */
    method FetchScope(scope: string, fetch: Fetcher, now: int) returns (all: seq<Article>)
      ensures all == Fetched(sources, fetch, now, md5Hex)(scope)
    {
      var list := sources(scope);
      all := FetchAll(list, scope, fetch, now);
      all := Deduplicate(all);
      all := SortDesc(all, ByRecency);
      assert all == Aggregate(list, scope, fetch, now, md5Hex);
    }

    /** The gathered results of every source of a scope, extended one after the other in
        source order; a failed source contributes nothing. */
    method FetchAll(sources: seq<Config.Source>, scope: string, fetch: Fetcher, now: int) returns (all: seq<Article>)
      ensures all == Merge(sources, Fetch(scope, fetch, now))
    {
      all := [];
      for i := 0 to |sources|
        invariant all == Merge(sources[..i], Fetch(scope, fetch, now))
      {
        assert sources[..i + 1][..i] == sources[..i];
        var got := FetchSource(sources[i], scope, fetch, now);
        all := all + got;
      }
      assert sources[..|sources|] == sources;
    }

    /** `get_news_multi_country(countries, limit_per_country)` at instant `now`. */
    method GetNewsMulti(countries: seq<string>, limitPerCountry: int, fetch: Fetcher, now: int)
      returns (r: seq<(string, seq<Article>)>)
      modifies cache
      ensures (r, cache.entries) == MultiSpec(old(cache.entries), cache.ttl, Distinct(countries), limitPerCountry, now, Fetched(sources, fetch, now, md5Hex))
    {
      var scopes := Distinct(countries);
      ghost var total := MultiSpec(cache.entries, cache.ttl, scopes, limitPerCountry, now, Fetched(sources, fetch, now, md5Hex));
      r := [];
      var i := 0;
      assert scopes[0..] == scopes;
      while i < |scopes|
        invariant 0 <= i <= |scopes|
        invariant total.0 == r + MultiSpec(cache.entries, cache.ttl, scopes[i..], limitPerCountry, now, Fetched(sources, fetch, now, md5Hex)).0
        invariant total.1 == MultiSpec(cache.entries, cache.ttl, scopes[i..], limitPerCountry, now, Fetched(sources, fetch, now, md5Hex)).1
      {
        ghost var before := cache.entries;
        var articles := GetNews(scopes[i], limitPerCountry, true, fetch, now);
        MultiStep(total, r, before, cache.ttl, scopes, i, limitPerCountry, now, Fetched(sources, fetch, now, md5Hex), articles, cache.entries);
        r := r + [(scopes[i], articles)];
        i := i + 1;
      }
      assert scopes[i..] == [];
      assert MultiSpec(cache.entries, cache.ttl, scopes[i..], limitPerCountry, now, Fetched(sources, fetch, now, md5Hex)) == ([], cache.entries);
      assert r + [] == r;
    }

    /** `search_news(query, countries, limit)` at instant `now`. */
    method SearchNews(query: string, countries: Option<seq<string>>, limit: int, fetch: Fetcher, now: int)
      returns (r: seq<Article>)
      modifies cache
      ensures (r, cache.entries) == SearchSpec(old(cache.entries), cache.ttl, query, countries, limit, now, Fetched(sources, fetch, now, md5Hex))
    {
      var scopes := if countries.None? then Config.Codes() else countries.value;
      var groups := GetNewsMulti(scopes, 10, fetch, now);
      var queryLower := Lower(query);
      var matching := MatchingArticles(groups, queryLower);
      matching := SortDesc(matching, TitleRank(queryLower));
      r := Take(matching, limit);
    }

    /** The matching loops of `search_news`: every article of every group whose title or
        summary contains the lower-cased query, in order. */
    method MatchingArticles(groups: seq<(string, seq<Article>)>, queryLower: string) returns (matching: seq<Article>)
      ensures matching == Filter(Flatten(groups), queryLower)
    {
      matching := [];
      for g := 0 to |groups|
        invariant matching == Filter(Flatten(groups[..g]), queryLower)
      {
        assert groups[..g + 1][..g] == groups[..g];
        var articles := groups[g].1;
        matching := AppendMatching(matching, Flatten(groups[..g]), articles, queryLower);
      }
      assert groups[..|groups|] == groups;
    }

    /** The inner loop of `search_news` over one group: the matches of `articles` are
        appended to the matches found so far. */
    method AppendMatching(matching: seq<Article>, ghost done: seq<Article>, articles: seq<Article>, queryLower: string)
      returns (r: seq<Article>)
      requires matching == Filter(done, queryLower)
      ensures r == Filter(done + articles, queryLower)
    {
      r := matching;
      assert done + articles[..0] == done;
      for j := 0 to |articles|
        invariant r == Filter(done + articles[..j], queryLower)
      {
        FilterStep(done, articles, j, queryLower);
        if Matches(articles[j], queryLower) {
          r := r + [articles[j]];
        }
      }
      assert articles[..|articles|] == articles;
    }
  }

  /** One more article of a group is either a match, appended, or skipped. */
  lemma FilterStep(done: seq<Article>, articles: seq<Article>, j: int, queryLower: string)
    requires 0 <= j < |articles|
    ensures Filter(done + articles[..j + 1], queryLower) ==
      Filter(done + articles[..j], queryLower) + (if Matches(articles[j], queryLower) then [articles[j]] else [])
  {
    assert articles[..j + 1] == articles[..j] + [articles[j]];
    SnocAssoc(done, articles[..j], articles[j]);
    FilterSnoc(done + articles[..j], articles[j], queryLower);
  }

  lemma SnocAssoc(a: seq<Article>, b: seq<Article>, x: Article)
    ensures a + (b + [x]) == (a + b) + [x]
  {
  }

  lemma FilterSnoc(s: seq<Article>, x: Article, queryLower: string)
    ensures Filter(s + [x], queryLower) == Filter(s, queryLower) + (if Matches(x, queryLower) then [x] else [])
  {
    assert (s + [x])[..|s|] == s;
  }

  /** Adding an article adds its id. */
  lemma IdsOfSnoc(s: seq<Article>, x: Article, id: Article -> string)
    ensures IdsOf(s + [x], id) == IdsOf(s, id) + {id(x)}
  {
    var t := s + [x];
    forall y | y in IdsOf(t, id) ensures y in IdsOf(s, id) + {id(x)} {
      var i :| 0 <= i < |t| && id(t[i]) == y;
      if i < |s| { assert id(s[i]) == y; }
    }
    forall y | y in IdsOf(s, id) ensures y in IdsOf(t, id) {
      var i :| 0 <= i < |s| && id(s[i]) == y;
      assert id(t[i]) == y;
    }
    assert id(t[|s|]) == id(x);
  }
}
