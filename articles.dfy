/**
 * The article record and the pure article-list policies of the scraper: the URL
 * fingerprint, the AI-keyword relevance filter, first-seen deduplication by
 * fingerprint, and the stable newest-first ordering.
 */
module Articles {
  import opened Wrappers
  import opened Text

  /** `NewsArticle`; `published` is a point in time in microseconds. */
  datatype Article = Article(
    title: string,
    url: string,
    summary: string,
    source: string,
    country: string,
    published: int,
    imageUrl: Option<string>)

  /** A hash function from text to its hexadecimal digest (md5 in the source); it is a
      parameter of the model rather than an implementation. */
  type Digest = string -> string

  /** `NewsArticle.id`: the first 12 digits of the URL's digest. */
  function Id(a: Article, md5Hex: Digest): (r: string)
    ensures |r| == (if |md5Hex(a.url)| < 12 then |md5Hex(a.url)| else 12)
    ensures r == md5Hex(a.url)[..|r|]
  {
    Take(md5Hex(a.url), 12)
  }

  /** The id function of a digest, as a value for the list operations below. */
  function IdKey(md5Hex: Digest): Article -> string {
    a => Id(a, md5Hex)
  }

  /** The id depends on the URL alone: articles with the same URL have the same id,
      whatever their title, summary, source or date. */
  lemma SameUrlSameId(a: Article, b: Article, md5Hex: Digest)
    requires a.url == b.url
    ensures Id(a, md5Hex) == Id(b, md5Hex)
  {
  }

  /** The keyword list of `_is_ai_related`, verbatim and in order. */
  function AiKeywords(): seq<string> {
    [
      "ai", "artificial intelligence", "machine learning", "ml",
      "deep learning", "neural", "gpt", "llm", "chatgpt", "claude",
      "gemini", "openai", "anthropic", "transformer", "nlp",
      "computer vision", "generative", "diffusion", "stable diffusion",
      "midjourney", "dall-e", "copilot", "automation", "robot"
    ]
  }

  /** `any(keyword in text for keyword in keywords)` */
  function AnyKeywordIn(keywords: seq<string>, text: string): (r: bool)
    ensures r <==> exists k :: k in keywords && Contains(text, k)
  {
    if keywords == [] then false
    else
      KeywordSplit(keywords, text);
      Contains(text, keywords[0]) || AnyKeywordIn(keywords[1..], text)
  }

  lemma KeywordSplit(keywords: seq<string>, text: string)
    requires keywords != []
    ensures (exists k :: k in keywords && Contains(text, k)) <==>
      Contains(text, keywords[0]) || exists k :: k in keywords[1..] && Contains(text, k)
  {
    if k :| k in keywords && Contains(text, k) {
      if k != keywords[0] {
        assert k in keywords[1..];
      }
    }
    if k :| k in keywords[1..] && Contains(text, k) {
      assert k in keywords;
    }
  }

  /** `_is_ai_related(title, summary)`: some keyword occurs in the lower-cased
      `title + " " + summary`. */
  function IsAiRelated(title: string, summary: string): (r: bool)
    ensures r <==> exists k :: k in AiKeywords() && Contains(Lower(title + " " + summary), k)
  {
    AnyKeywordIn(AiKeywords(), Lower(title + " " + summary))
  }

  /** Matching is by substring, so the two-letter keyword "ai" also fires inside
      ordinary words: "Chairman" counts as AI-related. */
  lemma KeywordInsideWord()
    ensures IsAiRelated("Chairman", "")
  {
    var text := Lower("Chairman" + " " + "");
    assert text == "chairman ";
    assert Contains(text[2..], "ai");
    assert Contains(text[1..], "ai");
    assert "ai" in AiKeywords();
  }

  /** The ids of the articles of a list. */
  function IdsOf(s: seq<Article>, id: Article -> string): set<string> {
    set i | 0 <= i < |s| :: id(s[i])
  }

  /**
   * The list `_deduplicate` builds: walking the input in order, an article is kept
   * when no article kept before it has the same id.
   */
  function Dedup(s: seq<Article>, id: Article -> string): seq<Article>
    decreases |s|
  {
    if s == [] then []
    else
      var prev := Dedup(s[..|s| - 1], id);
      if id(s[|s| - 1]) in IdsOf(prev, id) then prev else prev + [s[|s| - 1]]
  }

  /** s[i] is the first article of s with its id. */
  ghost predicate FirstOccurrence(s: seq<Article>, i: int, id: Article -> string) {
    0 <= i < |s| && forall j :: 0 <= j < i ==> id(s[j]) != id(s[i])
  }

  /** Deduplication neither loses nor invents an id. */
  lemma {:induction false} DedupIds(s: seq<Article>, id: Article -> string)
    ensures IdsOf(Dedup(s, id), id) == IdsOf(s, id)
    decreases |s|
  {
    if s != [] {
      var p := s[..|s| - 1];
      var last := s[|s| - 1];
      DedupIds(p, id);
      var prev := Dedup(p, id);
      assert IdsOf(s, id) == IdsOf(p, id) + {id(last)} by {
        assert forall i :: 0 <= i < |p| ==> s[i] == p[i];
        forall x | x in IdsOf(s, id) ensures x in IdsOf(p, id) + {id(last)} {
          var i :| 0 <= i < |s| && id(s[i]) == x;
          if i < |p| { assert id(p[i]) == x; }
        }
      }
      if id(last) !in IdsOf(prev, id) {
        var r := prev + [last];
        assert IdsOf(r, id) == IdsOf(prev, id) + {id(last)} by {
          assert forall i :: 0 <= i < |prev| ==> r[i] == prev[i];
          forall x | x in IdsOf(r, id) ensures x in IdsOf(prev, id) + {id(last)} {
            var i :| 0 <= i < |r| && id(r[i]) == x;
            if i < |prev| { assert id(prev[i]) == x; }
          }
          assert id(r[|prev|]) == id(last);
        }
      }
    }
  }

  /** The positions of s that hold the first article with their id, in increasing order,
      listed by idx; r is the subsequence of s at these positions. */
  ghost predicate FirstOccurrencesAt(s: seq<Article>, r: seq<Article>, idx: seq<int>, id: Article -> string) {
    && |idx| == |r|
    && (forall k :: 0 <= k < |idx| ==> FirstOccurrence(s, idx[k], id) && r[k] == s[idx[k]])
    && (forall k, l :: 0 <= k < l < |idx| ==> idx[k] < idx[l])
    && (forall i :: FirstOccurrence(s, i, id) ==> i in idx)
  }

  /**
   * Deduplication keeps exactly the first occurrence of every id, in input order: the
   * result is the subsequence of the input at the (strictly increasing) positions idx,
   * and these are precisely the positions holding the first article with their id.
   */
  lemma {:induction false} DedupKeepsFirstOccurrences(s: seq<Article>, id: Article -> string) returns (idx: seq<int>)
    ensures |idx| == |Dedup(s, id)|
    ensures forall k :: 0 <= k < |idx| ==>
      FirstOccurrence(s, idx[k], id) && Dedup(s, id)[k] == s[idx[k]]
    ensures forall k, l :: 0 <= k < l < |idx| ==> idx[k] < idx[l]
    ensures forall i :: FirstOccurrence(s, i, id) ==> i in idx
    decreases |s|
  {
    if s == [] {
      return [];
    }
    var p := s[..|s| - 1];
    var pidx := DedupKeepsFirstOccurrences(p, id);
    idx := DedupStep(s, pidx, id);
  }

  /** One step of the induction above: from the positions for all but the last article
      to the positions for the whole list. */
  lemma DedupStep(s: seq<Article>, pidx: seq<int>, id: Article -> string) returns (idx: seq<int>)
    requires s != []
    requires FirstOccurrencesAt(s[..|s| - 1], Dedup(s[..|s| - 1], id), pidx, id)
    ensures FirstOccurrencesAt(s, Dedup(s, id), idx, id)
  {
    var p := s[..|s| - 1];
    var prev := Dedup(p, id);
    assert Dedup(s, id) == if id(s[|p|]) in IdsOf(prev, id) then prev else prev + [s[|p|]];
    LastFirstOccurrence(s, id);
    DedupIds(p, id);
    if id(s[|p|]) !in IdsOf(prev, id) {
      idx := pidx + [|p|];
      StepNew(s, prev, pidx, id);
    } else {
      idx := pidx;
      StepSeen(s, prev, pidx, id);
    }
  }

  /** A last article with a new id is kept, at the last position. */
  lemma StepNew(s: seq<Article>, prev: seq<Article>, pidx: seq<int>, id: Article -> string)
    requires s != [] && FirstOccurrence(s, |s| - 1, id)
    requires FirstOccurrencesAt(s[..|s| - 1], prev, pidx, id)
    ensures FirstOccurrencesAt(s, prev + [s[|s| - 1]], pidx + [|s| - 1], id)
  {
    var p := s[..|s| - 1];
    var n := |p|;
    var idx := pidx + [n];
    PrefixFirstOccurrences(s, id);
    forall k | 0 <= k < |pidx| ensures FirstOccurrence(s, idx[k], id) && idx[k] < n {
      assert FirstOccurrence(p, pidx[k], id);
    }
    forall i | FirstOccurrence(s, i, id) && i < n ensures i in pidx {
      assert FirstOccurrence(p, i, id);
    }
  }

  /** A last article whose id was seen before is dropped. */
  lemma StepSeen(s: seq<Article>, prev: seq<Article>, pidx: seq<int>, id: Article -> string)
    requires s != [] && !FirstOccurrence(s, |s| - 1, id)
    requires FirstOccurrencesAt(s[..|s| - 1], prev, pidx, id)
    ensures FirstOccurrencesAt(s, prev, pidx, id)
  {
    var p := s[..|s| - 1];
    PrefixFirstOccurrences(s, id);
    forall k | 0 <= k < |pidx| ensures FirstOccurrence(s, pidx[k], id) {
      assert FirstOccurrence(p, pidx[k], id);
    }
    forall i | FirstOccurrence(s, i, id) ensures i in pidx {
      assert FirstOccurrence(p, i, id);
    }
  }

  /** Dropping the last article does not change which earlier positions are first occurrences. */
  lemma PrefixFirstOccurrences(s: seq<Article>, id: Article -> string)
    requires s != []
    ensures forall i :: 0 <= i < |s| - 1 ==>
      (FirstOccurrence(s, i, id) <==> FirstOccurrence(s[..|s| - 1], i, id))
  {
  }

  /** The last article is a first occurrence exactly when its id is new. */
  lemma LastFirstOccurrence(s: seq<Article>, id: Article -> string)
    requires s != []
    ensures FirstOccurrence(s, |s| - 1, id) <==> id(s[|s| - 1]) !in IdsOf(s[..|s| - 1], id)
  {
    var p := s[..|s| - 1];
    if id(s[|s| - 1]) in IdsOf(p, id) {
      var j :| 0 <= j < |p| && id(p[j]) == id(s[|s| - 1]);
      assert s[j] == p[j];
    }
  }

  /** No two articles of a deduplicated list share an id. */
  lemma DedupDistinct(s: seq<Article>, id: Article -> string)
    ensures forall i, j :: 0 <= i < j < |Dedup(s, id)| ==>
      id(Dedup(s, id)[i]) != id(Dedup(s, id)[j])
  {
    var r := Dedup(s, id);
    var idx := DedupKeepsFirstOccurrences(s, id);
    forall i, j | 0 <= i < j < |r| ensures id(r[i]) != id(r[j]) {
      assert idx[i] < idx[j];
      assert FirstOccurrence(s, idx[j], id);
    }
  }

  /** No two articles of s share an id. */
  ghost predicate DistinctIds(s: seq<Article>, id: Article -> string) {
    forall i, j :: 0 <= i < j < |s| ==> id(s[i]) != id(s[j])
  }

  lemma IdsOfCons(x: Article, s: seq<Article>, id: Article -> string)
    ensures IdsOf([x] + s, id) == {id(x)} + IdsOf(s, id)
  {
    var t := [x] + s;
    forall y | y in IdsOf(t, id) ensures y in {id(x)} + IdsOf(s, id) {
      var i :| 0 <= i < |t| && id(t[i]) == y;
      if i > 0 { assert id(s[i - 1]) == y; }
    }
    forall y | y in IdsOf(s, id) ensures y in IdsOf(t, id) {
      var i :| 0 <= i < |s| && id(s[i]) == y;
      assert id(t[i + 1]) == y;
    }
    assert id(t[0]) == id(x);
  }

  lemma DistinctCons(x: Article, s: seq<Article>, id: Article -> string)
    ensures DistinctIds([x] + s, id) <==> id(x) !in IdsOf(s, id) && DistinctIds(s, id)
  {
    var t := [x] + s;
    if DistinctIds(t, id) {
      forall i, j | 0 <= i < j < |s| ensures id(s[i]) != id(s[j]) {
        assert s[i] == t[i + 1] && s[j] == t[j + 1];
      }
      forall i | 0 <= i < |s| ensures id(s[i]) != id(x) {
        assert t[i + 1] == s[i] && t[0] == x;
      }
    }
  }

  /** A sort key: a tier (higher first) and then a time (later first). */
  datatype Rank = Rank(tier: int, time: int)

  /** The order `reverse=True` sorts by: a comes no later than b. */
  predicate AtLeast(a: Rank, b: Rank) {
    a.tier > b.tier || (a.tier == b.tier && a.time >= b.time)
  }

  /** The key of `sort(key=lambda x: x.published, reverse=True)`. */
  function ByRecency(a: Article): Rank {
    Rank(0, a.published)
  }

  /** Insert x into a sorted list in front of every element it is not ranked below. */
  function Insert(x: Article, s: seq<Article>, key: Article -> Rank): seq<Article>
    decreases |s|
  {
    if s == [] then [x]
    else if AtLeast(key(x), key(s[0])) then [x] + s
    else [s[0]] + Insert(x, s[1..], key)
  }

  /** Python's stable `list.sort(key=key, reverse=True)`, as insertion sort. */
  function SortDesc(s: seq<Article>, key: Article -> Rank): seq<Article>
    decreases |s|
  {
    if s == [] then [] else Insert(s[0], SortDesc(s[1..], key), key)
  }

  ghost predicate SortedDesc(s: seq<Article>, key: Article -> Rank) {
    forall i, j :: 0 <= i < j < |s| ==> AtLeast(key(s[i]), key(s[j]))
  }

  /** The articles of s whose key is k, in their order in s. */
  function WithRank(s: seq<Article>, key: Article -> Rank, k: Rank): seq<Article>
    decreases |s|
  {
    if s == [] then []
    else (if key(s[0]) == k then [s[0]] else []) + WithRank(s[1..], key, k)
  }

  lemma {:induction false} InsertPermutes(x: Article, s: seq<Article>, key: Article -> Rank)
    ensures multiset(Insert(x, s, key)) == multiset(s) + multiset{x}
    decreases |s|
  {
    if s != [] && !AtLeast(key(x), key(s[0])) {
      InsertPermutes(x, s[1..], key);
      assert s == [s[0]] + s[1..];
    }
  }

  lemma {:induction false} InsertSorted(x: Article, s: seq<Article>, key: Article -> Rank)
    requires SortedDesc(s, key)
    ensures SortedDesc(Insert(x, s, key), key)
    decreases |s|
  {
    if s != [] && !AtLeast(key(x), key(s[0])) {
      var tail := Insert(x, s[1..], key);
      InsertSorted(x, s[1..], key);
      InsertPermutes(x, s[1..], key);
      var r := [s[0]] + tail;
      forall j | 0 < j < |r| ensures AtLeast(key(r[0]), key(r[j])) {
        assert r[j] in multiset(tail);
        assert r[j] == x || r[j] in multiset(s[1..]);
        if r[j] != x {
          var m :| 0 <= m < |s[1..]| && s[1..][m] == r[j];
          assert s[m + 1] == r[j];
        }
      }
    }
  }

  lemma {:induction false} InsertGroups(x: Article, s: seq<Article>, key: Article -> Rank, k: Rank)
    ensures WithRank(Insert(x, s, key), key, k) == WithRank([x], key, k) + WithRank(s, key, k)
    decreases |s|
  {
    assert [x][1..] == [];
    if s == [] {
    } else if AtLeast(key(x), key(s[0])) {
      assert ([x] + s)[1..] == s;
    } else {
      InsertGroups(x, s[1..], key, k);
      assert ([s[0]] + Insert(x, s[1..], key))[1..] == Insert(x, s[1..], key);
    }
  }

  /**
   * The sort is Python's stable descending sort: the result is ordered by the key, is a
   * permutation of the input, and articles with equal keys keep their input order (for
   * every key, the articles carrying it appear in the same order as in the input).
   * These three facts determine the result uniquely.
   */
  lemma {:induction false} SortDescIsStableSort(s: seq<Article>, key: Article -> Rank)
    ensures SortedDesc(SortDesc(s, key), key)
    ensures multiset(SortDesc(s, key)) == multiset(s)
    ensures forall k :: WithRank(SortDesc(s, key), key, k) == WithRank(s, key, k)
  {
    SortDescSorted(s, key);
    SortDescPermutes(s, key);
    forall k ensures WithRank(SortDesc(s, key), key, k) == WithRank(s, key, k) {
      SortDescGroups(s, key, k);
    }
  }

  lemma {:induction false} SortDescSorted(s: seq<Article>, key: Article -> Rank)
    ensures SortedDesc(SortDesc(s, key), key)
    decreases |s|
  {
    if s != [] {
      SortDescSorted(s[1..], key);
      InsertSorted(s[0], SortDesc(s[1..], key), key);
    }
  }

  lemma {:induction false} SortDescPermutes(s: seq<Article>, key: Article -> Rank)
    ensures multiset(SortDesc(s, key)) == multiset(s)
    decreases |s|
  {
    if s != [] {
      SortDescPermutes(s[1..], key);
      InsertPermutes(s[0], SortDesc(s[1..], key), key);
      assert s == [s[0]] + s[1..];
    }
  }

  lemma {:induction false} SortDescGroups(s: seq<Article>, key: Article -> Rank, k: Rank)
    ensures WithRank(SortDesc(s, key), key, k) == WithRank(s, key, k)
    decreases |s|
  {
    if s != [] {
      SortDescGroups(s[1..], key, k);
      InsertGroups(s[0], SortDesc(s[1..], key), key, k);
      assert [s[0]][1..] == [];
    }
  }

  /** Inserting an article whose id is new keeps the ids distinct and adds exactly that id. */
  lemma {:induction false} InsertKeepsDistinct(x: Article, s: seq<Article>, key: Article -> Rank, id: Article -> string)
    requires DistinctIds(s, id) && id(x) !in IdsOf(s, id)
    ensures DistinctIds(Insert(x, s, key), id)
    ensures IdsOf(Insert(x, s, key), id) == IdsOf(s, id) + {id(x)}
    decreases |s|
  {
    if s == [] {
      IdsOfCons(x, s, id);
      DistinctCons(x, s, id);
    } else if AtLeast(key(x), key(s[0])) {
      IdsOfCons(x, s, id);
      DistinctCons(x, s, id);
    } else {
      var rest := s[1..];
      assert s == [s[0]] + rest;
      IdsOfCons(s[0], rest, id);
      DistinctCons(s[0], rest, id);
      InsertKeepsDistinct(x, rest, key, id);
      var t := Insert(x, rest, key);
      IdsOfCons(s[0], t, id);
      DistinctCons(s[0], t, id);
    }
  }

  /** Sorting a list without repeated ids keeps it so, with the same ids. */
  lemma {:induction false} SortDescKeepsDistinct(s: seq<Article>, key: Article -> Rank, id: Article -> string)
    requires DistinctIds(s, id)
    ensures DistinctIds(SortDesc(s, key), id)
    ensures IdsOf(SortDesc(s, key), id) == IdsOf(s, id)
    decreases |s|
  {
    if s != [] {
      var rest := s[1..];
      assert s == [s[0]] + rest;
      DistinctCons(s[0], rest, id);
      IdsOfCons(s[0], rest, id);
      SortDescKeepsDistinct(rest, key, id);
      InsertKeepsDistinct(s[0], SortDesc(rest, key), key, id);
    }
  }
}
