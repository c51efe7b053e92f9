/** Text utilities: truncation with a suffix, file-name sanitising and the country-code check. */
module Helpers {
  import opened Text
  import Config

  /**
   * `truncate_text(text, max_length, suffix)`: the text itself when it fits, otherwise
   * the slice `text[:max_length - len(suffix)]` followed by the suffix. When the limit
   * is at least as long as the suffix, the result has exactly the limit's length.
   */
  function TruncateText(text: string, maxLength: int, suffix: string): (r: string)
    ensures |text| <= maxLength ==> r == text
    ensures |text| > maxLength >= |suffix| ==>
      |r| == maxLength && EndsWith(r, suffix) && r[..maxLength - |suffix|] == text[..maxLength - |suffix|]
  {
    if |text| <= maxLength then text else Take(text, maxLength - |suffix|) + suffix
  }

  /** With a limit shorter than the suffix the slice bound is negative, so Python keeps all
      but the last few characters and the result is longer than the limit. */
  lemma TruncateShortLimit()
    ensures TruncateText("abcdef", 1, "...") == "abcd..."
    ensures |TruncateText("abcdef", 1, "...")| > 1
  {
    assert Take("abcdef", -2) == "abcd";
  }

  /** The characters the regular expression `[<>:"/\\|?*]` removes. */
  const ForbiddenChars: string := "<>:\"/\\|?*"

  /** `re.sub(r'[<>:"/\\|?*]', "", s)`: the forbidden characters go, and exactly the other
      characters of the text stay. */
  function RemoveForbidden(s: string): (r: string)
    ensures forall c :: c in r ==> c !in ForbiddenChars
    ensures forall c :: c !in ForbiddenChars ==> (c in r <==> c in s)
    ensures |r| <= |s|
  {
    if s == [] then []
    else (if s[0] in ForbiddenChars then [] else [s[0]]) + RemoveForbidden(s[1..])
  }

  /** Filtering works piece by piece, so the kept characters stay in their order. */
  lemma {:induction false} RemoveForbiddenAppend(a: string, b: string)
    ensures RemoveForbidden(a + b) == RemoveForbidden(a) + RemoveForbidden(b)
  {
    if a == [] {
      assert a + b == b;
    } else {
      assert (a + b)[1..] == a[1..] + b;
      RemoveForbiddenAppend(a[1..], b);
    }
  }

  /** A single character is dropped iff it is forbidden; with `RemoveForbiddenAppend` this fixes the result. */
  lemma RemoveForbiddenChar(c: char)
    ensures RemoveForbidden([c]) == if c in ForbiddenChars then [] else [c]
  {
  }

  /**
   * `sanitize_filename(filename)`: drop the forbidden characters, turn blanks into
   * underscores and keep at most 100 characters. Only forbidden characters are dropped:
   * the length is that of the filtered text, capped at 100.
   */
  function SanitizeFilename(filename: string): (r: string)
    ensures |r| <= 100
    ensures forall c :: c in r ==> c !in ForbiddenChars && c != ' '
    ensures |r| == if |RemoveForbidden(filename)| < 100 then |RemoveForbidden(filename)| else 100
    ensures forall i :: 0 <= i < |r| ==>
      r[i] == if RemoveForbidden(filename)[i] == ' ' then '_' else RemoveForbidden(filename)[i]
  {
    var kept := RemoveForbidden(filename);
    ReplaceCharAt(kept, ' ', '_');
    var underscored := ReplaceAll(kept, " ", "_");
    assert forall c :: c in underscored ==> c !in ForbiddenChars && c != ' ' by {
      forall c | c in underscored ensures c !in ForbiddenChars && c != ' ' {
        var i :| 0 <= i < |underscored| && underscored[i] == c;
        assert kept[i] in kept;
      }
    }
    Take(underscored, 100)
  }

  /** Filtering text that has no forbidden character changes nothing. */
  lemma {:induction false} RemoveForbiddenClean(s: string)
    requires forall c :: c in s ==> c !in ForbiddenChars
    ensures RemoveForbidden(s) == s
  {
    if s != [] {
      assert s[0] in s;
      assert forall c :: c in s[1..] ==> c in s;
      RemoveForbiddenClean(s[1..]);
      assert s == [s[0]] + s[1..];
    }
  }

  /** Sanitising is idempotent. */
  lemma SanitizeIdempotent(filename: string)
    ensures SanitizeFilename(SanitizeFilename(filename)) == SanitizeFilename(filename)
  {
    var once := SanitizeFilename(filename);
    RemoveForbiddenClean(once);
    assert ' ' !in once;
    MissingCharMeansAbsent(once, " ");
    ReplaceAbsent(once, " ", "_");
  }

  /** `is_valid_country_code(code)`: the upper-cased code is a registry key. */
  function IsValidCountryCode(code: string): (r: bool)
    ensures r <==> Config.IsScope(Upper(code))
  {
    Upper(code) in Config.Codes()
  }

  /** The check ignores ASCII case: a code is accepted exactly when its lower-case form is. */
  lemma CaseInsensitiveCodes(code: string)
    ensures IsValidCountryCode(Lower(code)) == IsValidCountryCode(code)
    ensures forall c :: c in Config.Codes() ==> IsValidCountryCode(Lower(c))
  {
    UpperOfLower(code);
    Config.CodesUpperAndDistinct();
    forall c | c in Config.Codes() ensures IsValidCountryCode(Lower(c)) {
      UpperOfLower(c);
    }
  }

  lemma UpperOfLower(s: string)
    ensures Upper(Lower(s)) == Upper(s)
  {
    assert forall i :: 0 <= i < |s| ==> Upper(Lower(s))[i] == Upper(s)[i];
  }
}
