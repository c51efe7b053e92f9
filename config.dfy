/**
 * The static scope registry (country/region code -> display data and an
 * ordered list of feed sources) and the default-valued preference and
 * configuration records.
 */
module Config {
  import opened Wrappers
  import opened Text

  /** One feed source; `kind` is the source's "type" string ("rss", anything else is scraped as HTML). */
  datatype Source = Source(name: string, url: string, kind: string)

  /** One registry entry: the scope's key, display name and flag. The flag strings are
      reproduced character for character as they appear in the configuration file, whose
      encoding has garbled the emoji. The entry's source list is `SourcesOf(code)`. */
  datatype ScopeEntry = ScopeEntry(code: string, name: string, flag: string)

  /** The registry in declaration order (the order of the dictionary literal). */
  const Registry: seq<ScopeEntry> := [
    ScopeUs, ScopeUk, ScopeIn, ScopeCn, ScopeDe, ScopeJp, ScopeFr, ScopeKr, ScopeCa, ScopeAu, ScopeGlobal
  ]

  const ScopeUs: ScopeEntry := ScopeEntry("US", "United States", "\U{F0}\U{178}\U{2021}\U{BA}\U{F0}\U{178}\U{2021}\U{B8}")
  const ScopeUk: ScopeEntry := ScopeEntry("UK", "United Kingdom", "\U{F0}\U{178}\U{2021}\U{AC}\U{F0}\U{178}\U{2021}\U{A7}")
  const ScopeIn: ScopeEntry := ScopeEntry("IN", "India", "\U{F0}\U{178}\U{2021}\U{AE}\U{F0}\U{178}\U{2021}\U{B3}")
  const ScopeCn: ScopeEntry := ScopeEntry("CN", "China", "\U{F0}\U{178}\U{2021}\U{A8}\U{F0}\U{178}\U{2021}\U{B3}")
  const ScopeDe: ScopeEntry := ScopeEntry("DE", "Germany", "\U{F0}\U{178}\U{2021}\U{A9}\U{F0}\U{178}\U{2021}\U{AA}")
  const ScopeJp: ScopeEntry := ScopeEntry("JP", "Japan", "\U{F0}\U{178}\U{2021}\U{AF}\U{F0}\U{178}\U{2021}\U{B5}")
  const ScopeFr: ScopeEntry := ScopeEntry("FR", "France", "\U{F0}\U{178}\U{2021}\U{AB}\U{F0}\U{178}\U{2021}\U{B7}")
  const ScopeKr: ScopeEntry := ScopeEntry("KR", "South Korea", "\U{F0}\U{178}\U{2021}\U{B0}\U{F0}\U{178}\U{2021}\U{B7}")
  const ScopeCa: ScopeEntry := ScopeEntry("CA", "Canada", "\U{F0}\U{178}\U{2021}\U{A8}\U{F0}\U{178}\U{2021}\U{A6}")
  const ScopeAu: ScopeEntry := ScopeEntry("AU", "Australia", "\U{F0}\U{178}\U{2021}\U{A6}\U{F0}\U{178}\U{2021}\U{BA}")
  const ScopeGlobal: ScopeEntry := ScopeEntry("GLOBAL", "Global/International", "\U{F0}\U{178}\U{152}")

  /** The "sources" list of a registry entry, in declaration order; empty for a code that is
      not a registry key. Every registry key has a well-formed list, in particular every
      source is an RSS feed, so the HTML branch of the fetcher is never taken with this
      registry. */
  function SourcesOf(code: string): (r: seq<Source>)
    ensures IsScope(code) ==> WellFormedSources(r)
    ensures !IsScope(code) ==> r == []
  {
    match IndexOf(code)
    case Some(i) =>
      assert i < 11 by { CodesCount(); }
      SourcesAt(i)
    case None => []
  }

  lemma CodesCount()
    ensures |Codes()| == 11
  {
  }

  /** The source list of the registry entry at position `i` (`i` below 11); the positions
      are split into small groups so that each list is unfolded in one small proof. */
  function SourcesAt(i: int): (r: seq<Source>)
    requires 0 <= i < 11
    ensures WellFormedSources(r)
  {
    if i < 2 then FirstSources(i)
    else if i < 5 then SecondSources(i)
    else if i < 8 then ThirdSources(i)
    else LastSources(i)
  }

  function FirstSources(i: int): (r: seq<Source>)
    ensures WellFormedSources(r)
  {
    if i == 0 then  // US
      [
        Source("TechCrunch AI", "https://techcrunch.com/category/artificial-intelligence/feed/", "rss"),
        Source("VentureBeat AI", "https://venturebeat.com/category/ai/feed/", "rss"),
        Source("MIT Tech Review", "https://www.technologyreview.com/topic/artificial-intelligence/feed", "rss"),
        Source("The Verge AI", "https://www.theverge.com/rss/ai-artificial-intelligence/index.xml", "rss")
      ]
    else  // UK
      [
        Source("BBC Tech", "https://feeds.bbci.co.uk/news/technology/rss.xml", "rss"),
        Source("The Guardian Tech", "https://www.theguardian.com/technology/artificialintelligenceai/rss", "rss"),
        Source("Wired UK", "https://www.wired.co.uk/feed/category/ai/latest/rss", "rss")
      ]
  }

  function SecondSources(i: int): (r: seq<Source>)
    ensures WellFormedSources(r)
  {
    if i == 2 then  // IN
      [
        Source("Analytics India", "https://analyticsindiamag.com/feed/", "rss"),
        Source("Inc42", "https://inc42.com/tag/artificial-intelligence/feed/", "rss"),
        Source("YourStory Tech", "https://yourstory.com/category/technology/feed", "rss")
      ]
    else if i == 3 then  // CN
      [
        Source("Synced AI", "https://syncedreview.com/feed/", "rss"),
        Source("Pandaily Tech", "https://pandaily.com/category/tech/feed/", "rss")
      ]
    else  // DE
      [
        Source("Heise AI", "https://www.heise.de/thema/KI/rss.xml", "rss"),
        Source("Golem AI", "https://rss.golem.de/rss.php?tp=ki&feed=ATOM1.0", "rss")
      ]
  }

  function ThirdSources(i: int): (r: seq<Source>)
    ensures WellFormedSources(r)
  {
    if i == 5 then  // JP
      [
        Source("AI Japan", "https://ledge.ai/feed/", "rss"),
        Source("TechCrunch Japan", "https://jp.techcrunch.com/tag/ai/feed/", "rss")
      ]
    else if i == 6 then  // FR
      [
        Source("L'Usine Digitale", "https://www.usine-digitale.fr/intelligence-artificielle/rss", "rss"),
        Source("ActuIA", "https://www.actuia.com/feed/", "rss")
      ]
    else  // KR
      [
        Source("Korea AI Times", "https://www.aitimes.com/rss/allArticle.xml", "rss"),
        Source("ZDNet Korea AI", "https://zdnet.co.kr/rss/ai.xml", "rss")
      ]
  }

  function LastSources(i: int): (r: seq<Source>)
    ensures WellFormedSources(r)
  {
    if i == 8 then  // CA
      [
        Source("BetaKit AI", "https://betakit.com/tag/artificial-intelligence/feed/", "rss"),
        Source("IT World Canada", "https://www.itworldcanada.com/tag/artificial-intelligence/feed", "rss")
      ]
    else if i == 9 then  // AU
      [
        Source("iTnews AU", "https://www.itnews.com.au/RSS/rss.ashx", "rss"),
        Source("ZDNet AU", "https://www.zdnet.com/au/topic/artificial-intelligence/rss.xml", "rss")
      ]
    else  // GLOBAL
      [
        Source("Google AI Blog", "https://blog.google/technology/ai/rss/", "rss"),
        Source("OpenAI Blog", "https://openai.com/blog/rss/", "rss"),
        Source("Anthropic News", "https://www.anthropic.com/news/rss", "rss"),
        Source("Hugging Face Blog", "https://huggingface.co/blog/feed.xml", "rss"),
        Source("arXiv AI", "https://arxiv.org/rss/cs.AI", "rss")
      ]
  }

  /** The registry keys, in declaration order; `RegistryCodes` shows they are the codes of
      the registry entries, position by position. */
  function Codes(): seq<string> {
    ["US", "UK", "IN", "CN", "DE", "JP", "FR", "KR", "CA", "AU", "GLOBAL"]
  }

  /** `code in COUNTRY_SOURCES` */
  predicate IsScope(code: string) {
    code in Codes()
  }

  /** `COUNTRY_SOURCES.get(code)` */
  function Lookup(code: string): (r: Option<ScopeEntry>)
    ensures r.Some? <==> IsScope(code)
    ensures r.Some? ==> r.value in Registry && r.value.code == code
  {
    match IndexOf(code)
    case Some(i) =>
      RegistryCodes();
      Some(Registry[i])
    case None => None
  }

  /** The position of a code among the registry keys, if it is one. */
  function IndexOf(code: string): (r: Option<nat>)
    ensures r.Some? <==> IsScope(code)
    ensures r.Some? ==> r.value < |Codes()| && Codes()[r.value] == code
  {
    IndexIn(Codes(), code)
  }

  /** The first position of `code` in `codes`, if any. */
  function IndexIn(codes: seq<string>, code: string): (r: Option<nat>)
    ensures r.Some? <==> code in codes
    ensures r.Some? ==> r.value < |codes| && codes[r.value] == code && code !in codes[..r.value]
  {
    if codes == [] then None
    else if codes[0] == code then Some(0)
    else
      match IndexIn(codes[1..], code)
      case Some(i) =>
        assert codes[..i + 1] == [codes[0]] + codes[1..][..i];
        Some(i + 1)
      case None => None
  }

  /** A code is registered exactly when some registry entry carries it. */
  lemma ScopeIndex(code: string)
    ensures IsScope(code) <==> exists i :: 0 <= i < |Registry| && Registry[i].code == code
  {
    RegistryCodes();
    if IsScope(code) {
      var i :| 0 <= i < |Codes()| && Codes()[i] == code;
      assert Registry[i].code == code;
    }
  }

  /** `UserPreferences`: the per-user record kept by the preference store. */
  datatype Preferences = Preferences(countries: seq<string>, language: string, newsCount: int, notifyEnabled: bool)

  /** `UserPreferences()` with every field at its default. */
  const DefaultPreferences: Preferences := Preferences(["GLOBAL"], "en", 5, true)

  /** `Config`: the main configuration record (the data directory is left out). */
  datatype Settings = Settings(whatsappBridgeUrl: string, scrapeIntervalMinutes: int, maxNewsPerSource: int, cacheTtlMinutes: int)

  /** `Config()` with every field at its default. */
  const DefaultSettings: Settings := Settings("ws://localhost:3001", 30, 10, 15)

  /** The registry has eleven entries, and the i-th key is the code of the i-th entry. */
  lemma RegistryCodes()
    ensures |Registry| == |Codes()| == 11 && IsScope("GLOBAL")
    ensures forall i :: 0 <= i < |Registry| ==> Registry[i].code == Codes()[i]
  {
  }

  /** Every code is upper-case (upper-casing it changes nothing) and no code is listed twice. */
  lemma CodesUpperAndDistinct()
    ensures forall c :: c in Codes() ==> Upper(c) == c
    ensures forall i, j :: 0 <= i < j < |Codes()| ==> Codes()[i] != Codes()[j]
  {
    CodesCapital();
    forall c | c in Codes() ensures Upper(c) == c {
      CapitalWordShape(c);
    }
    CodesDistinct();
  }

  /** Every code is a run of capital letters. */
  lemma CodesCapital()
    ensures forall c :: c in Codes() ==> CapitalWord(c)
  {
    RegistryCodes();
  }

  /** No code is listed twice. */
  lemma CodesDistinct()
    ensures forall i, j :: 0 <= i < j < |Codes()| ==> Codes()[i] != Codes()[j]
  {
    RegistryCodes();
  }

  /** A source list of at least two sources, each of the type "rss". */
  predicate WellFormedSources(s: seq<Source>) {
    |s| >= 2 &&
    forall j :: 0 <= j < |s| ==> s[j].kind == "rss"
  }

  /** The default preferences and settings. */
  lemma Defaults()
    ensures DefaultPreferences.countries == ["GLOBAL"] && IsScope(DefaultPreferences.countries[0])
    ensures DefaultPreferences.language == "en" && DefaultPreferences.newsCount == 5 && DefaultPreferences.notifyEnabled
    ensures DefaultSettings.scrapeIntervalMinutes == 30 && DefaultSettings.maxNewsPerSource == 10
    ensures DefaultSettings.cacheTtlMinutes == 15
  {
    RegistryCodes();
  }
}
