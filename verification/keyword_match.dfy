/** Which configured keywords an article's text matches: a keyword matches when
    its lower-case form is a substring of the lower-cased text. The result
    keeps the configured order and the configured spelling. */
module KeywordMatch {
  import opened Text

  /** `keyword.lower() in text.lower()`. */
  predicate Matches(text: string, keyword: string)
  {
    Contains(Lower(text), Lower(keyword))
  }

  /** The keywords that match, in configured order, as configured. */
  function MatchedKeywords(text: string, keywords: seq<string>): (r: seq<string>)
    ensures |r| <= |keywords|
  {
    if |keywords| == 0 then []
    else
      var last := keywords[|keywords| - 1];
      MatchedKeywords(text, keywords[..|keywords| - 1]) + (if Matches(text, last) then [last] else [])
  }

  /** `_extract_matched_keywords`: one pass over the configured keywords,
      appending each one that occurs in the lower-cased text. */
  method ExtractMatchedKeywords(articleText: string, keywords: seq<string>) returns (matched: seq<string>)
    ensures matched == MatchedKeywords(articleText, keywords)
  {
    matched := [];
    var textLower := Lower(articleText);
    var i := 0;
    while i < |keywords|
      invariant 0 <= i <= |keywords|
      invariant matched == MatchedKeywords(articleText, keywords[..i])
    {
      var keyword := keywords[i];
      assert keywords[..i + 1][..i] == keywords[..i];
      if Contains(textLower, Lower(keyword)) {
        matched := matched + [keyword];
      }
      i := i + 1;
    }
    assert keywords[..i] == keywords;
  }

  /** `a` is `b` with some elements left out, the rest kept in order: either
      `b`'s last element is left out, or it is `a`'s last element. */
  predicate IsSubsequence<T(==)>(a: seq<T>, b: seq<T>)
    decreases |b|
  {
    if |b| == 0 then |a| == 0
    else
      || IsSubsequence(a, b[..|b| - 1])
      || (|a| > 0 && a[|a| - 1] == b[|b| - 1] && IsSubsequence(a[..|a| - 1], b[..|b| - 1]))
  }

  /** Every element of a subsequence is an element of the whole. */
  lemma {:induction false} SubsequenceMembers<T>(a: seq<T>, b: seq<T>)
    requires IsSubsequence(a, b)
    ensures forall x :: x in a ==> x in b
    decreases |b|
  {
    if |b| > 0 {
      var init := b[..|b| - 1];
      if IsSubsequence(a, init) {
        SubsequenceMembers(a, init);
      } else {
        SubsequenceMembers(a[..|a| - 1], init);
        assert a == a[..|a| - 1] + [a[|a| - 1]];
      }
    }
  }

  predicate NoDuplicates<T(==)>(s: seq<T>)
  {
    forall i, j :: 0 <= i < j < |s| ==> s[i] != s[j]
  }

  /** No entry of `a` equals an entry of `b`. */
  predicate Apart<T(==)>(a: seq<T>, b: seq<T>)
  {
    forall i, j :: 0 <= i < |a| && 0 <= j < |b| ==> a[i] != b[j]
  }

  lemma NoDuplicatesConcat<T>(a: seq<T>, b: seq<T>)
    requires NoDuplicates(a) && NoDuplicates(b) && Apart(a, b)
    ensures NoDuplicates(a + b)
  {
  }

  /** A keyword is in the result exactly when it is configured and its
      lower-case form occurs somewhere in the lower-cased text. */
  lemma {:induction false} MatchedKeywordsMembers(text: string, keywords: seq<string>, k: string)
    ensures k in MatchedKeywords(text, keywords) <==>
            k in keywords && exists i :: OccursAt(Lower(text), Lower(k), i)
    decreases |keywords|
  {
    ContainsIffOccurs(Lower(text), Lower(k));
    if |keywords| > 0 {
      var init := keywords[..|keywords| - 1];
      MatchedKeywordsMembers(text, init, k);
      assert keywords == init + [keywords[|keywords| - 1]];
    }
  }

  /** The result is the configured list with the non-matching keywords left
      out: configured order and spelling are kept. */
  lemma {:induction false} MatchedKeywordsSubsequence(text: string, keywords: seq<string>)
    ensures IsSubsequence(MatchedKeywords(text, keywords), keywords)
    decreases |keywords|
  {
    if |keywords| > 0 {
      var init := keywords[..|keywords| - 1];
      var last := keywords[|keywords| - 1];
      var r := MatchedKeywords(text, keywords);
      MatchedKeywordsSubsequence(text, init);
      assert keywords[..|keywords| - 1] == init;
      if Matches(text, last) {
        assert r == MatchedKeywords(text, init) + [last];
        assert r[..|r| - 1] == MatchedKeywords(text, init);
        assert r[|r| - 1] == last;
      } else {
        assert r == MatchedKeywords(text, init);
      }
    }
  }

  /** A keyword matched in the text appears once in the result, however often
      it occurs in the text, provided the configured list has no repeats. */
  lemma {:induction false} MatchedKeywordsNoDuplicates(text: string, keywords: seq<string>)
    requires NoDuplicates(keywords)
    ensures NoDuplicates(MatchedKeywords(text, keywords))
    decreases |keywords|
  {
    if |keywords| > 0 {
      var init := keywords[..|keywords| - 1];
      var last := keywords[|keywords| - 1];
      var prev := MatchedKeywords(text, init);
      MatchedKeywordsNoDuplicates(text, init);
      if Matches(text, last) {
        MatchedKeywordsMembers(text, init, last);
        assert last !in init;
        assert last !in prev;
      }
    }
  }
}
