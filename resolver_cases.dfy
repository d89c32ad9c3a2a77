/** Worked examples of the fallback name extraction, one query per pattern,
    each proved step by step against the regex model. */
module ResolverCases {
  import opened Text
  import opened Values
  import opened NameResolver

  /** The keyword cannot start at `i`: its first letter, or its second,
      differs from the query's there. */
  predicate NoKeywordStart(q: string, kw: string, i: nat)
    requires i < |q| && |kw| >= 2
  {
    LowerChar(q[i]) != kw[0] || (i + 1 < |q| && LowerChar(q[i + 1]) != kw[1])
  }

  /** Positions where the keyword cannot start, because its first or its
      second letter differs, are passed over. */
  lemma {:induction false} KeywordSkip(q: string, kw: string, p: nat, m: nat)
    requires p <= m <= |q| && |kw| >= 2
    requires forall i :: p <= i < m ==> NoKeywordStart(q, kw, i)
    ensures KeywordSearch(q, kw, p) == KeywordSearch(q, kw, m)
    decreases m - p
  {
    if p < m {
      if p + |kw| <= |q| {
        var w := Lower(q[p..p + |kw|]);
        assert NoKeywordStart(q, kw, p);
        if LowerChar(q[p]) != kw[0] {
          assert w[0] != kw[0];
        } else {
          assert w[1] != kw[1];
        }
      }
      KeywordSkip(q, kw, p + 1, m);
    }
  }

  /** Lower-casing leaves a string without capitals unchanged. */
  lemma LowerKeepsLowercase(s: string)
    requires forall i :: 0 <= i < |s| ==> !IsAsciiUpper(s[i])
    ensures Lower(s) == s
  {
  }

  /** ASCII letters are not whitespace. */
  lemma LetterIsNotSpace(c: char)
    requires IsAsciiUpper(c) || IsAsciiLower(c)
    ensures !IsSpace(c)
  {
  }

  /** A name that starts and ends with a letter is left as it is by `strip`. */
  lemma StripKeepsName(name: string)
    requires name != []
    requires IsAsciiUpper(name[0]) || IsAsciiLower(name[0])
    requires IsAsciiUpper(name[|name| - 1]) || IsAsciiLower(name[|name| - 1])
    ensures Strip(name) == name
  {
    LetterIsNotSpace(name[0]);
    LetterIsNotSpace(name[|name| - 1]);
    StripCharsKeepsClean(name, Whitespace);
  }

  // "Tell me about Apple": the first pattern gives "Apple".

  lemma AppleReachesKeyword(q: string)
    requires q == "Tell me about Apple"
    ensures KeywordSearch(q, "about", 0) == KeywordSearch(q, "about", 8)
  {
    assert q == "Tell me " + "about Apple";
    forall i | 0 <= i < 8
      ensures LowerChar(q[i]) != 'a'
    {
      assert q[i] in "Tell me ";
    }
    KeywordSkip(q, "about", 0, 8);
  }

  lemma AppleCapture(q: string)
    requires q == "Tell me about Apple"
    ensures KeywordCapture(q, 13) == Some("Apple")
  {
    assert IsSpace(q[13]) && !IsSpace(q[14]);
    assert Span(q, 13, IsSpace) == 1;
    assert forall k :: 14 <= k < 19 ==> IsWordChar(q[k]);
    assert Span(q, 14, IsWordChar) == 5;
    assert Terminates(q, 19);
    assert q[14..19] == "Apple";
  }

  lemma AppleKeyword(q: string)
    requires q == "Tell me about Apple"
    ensures Lower(q[8..13]) == "about"
  {
    assert q[8..13] == "about";
    LowerKeepsLowercase("about");
  }

  lemma AboutApple(q: string)
    requires q == "Tell me about Apple"
    ensures FallbackName(q) == "Apple"
  {
    AppleReachesKeyword(q);
    AppleCapture(q);
    AppleKeyword(q);
    assert Search(About, q) == Some("Apple");
    FirstCaptureIsFirstMatch(CompanyPatterns, q, 0);
    StripKeepsName("Apple");
  }

  // "Who is IBM's CEO?": no "about", so the possessive pattern decides, and
  // its group is the whole run of name characters before the apostrophe.

  lemma IbmHasNoAbout(q: string)
    requires q == "Who is IBM's CEO?"
    ensures Search(About, q).None?
  {
    forall i | 0 <= i < |q|
      ensures LowerChar(q[i]) != 'a'
    {
      assert q[i] in "Who is IBM's CEO?";
    }
    KeywordSkip(q, "about", 0, |q|);
  }

  lemma IbmPossessive(q: string)
    requires q == "Who is IBM's CEO?"
    ensures Search(Possessive, q) == Some("Who is IBM")
  {
    assert forall k :: 0 <= k < 10 ==> IsNameChar(q[k]);
    assert !IsNameChar(q[10]);
    assert Span(q, 0, IsNameChar) == 10;
    assert q[10] == '\'' && q[11] == 's' && IsSpace(q[12]);
    assert q[..10] == "Who is IBM";
  }

  lemma PossessiveTakesWholeRun(q: string)
    requires q == "Who is IBM's CEO?"
    ensures FallbackName(q) == "Who is IBM"
  {
    IbmHasNoAbout(q);
    IbmPossessive(q);
    FirstCaptureIsFirstMatch(CompanyPatterns, q, 1);
    StripKeepsName("Who is IBM");
  }

  // "Analyze Netflix": neither "about" nor "'s", so the third pattern
  // gives "Netflix".

  lemma NetflixHasNoAbout(q: string)
    requires q == "Analyze Netflix"
    ensures Search(About, q).None?
  {
    forall i | 0 <= i < |q|
      ensures NoKeywordStart(q, "about", i)
    {
      assert q[i] in "Analyze Netflix";
      if i < |q| - 1 {
        assert q[i + 1] in "nalyze Netflix";
      }
    }
    KeywordSkip(q, "about", 0, |q|);
  }

  lemma NetflixHasNoPossessive(q: string)
    requires q == "Analyze Netflix"
    ensures Search(Possessive, q).None?
  {
    assert forall k :: 0 <= k < |q| ==> IsNameChar(q[k]);
    assert Span(q, 0, IsNameChar) == |q|;
    assert PossessiveSearch(q, |q|).None?;
  }

  lemma NetflixKeyword(q: string)
    requires q == "Analyze Netflix"
    ensures Lower(q[0..7]) == "analyze"
  {
    assert q[0..7] == "Analyze";
    assert Lower("Analyze") == "analyze" by {
      LowerKeepsLowercase("nalyze");
      assert "Analyze" == ['A'] + "nalyze";
    }
  }

  lemma NetflixCapture(q: string)
    requires q == "Analyze Netflix"
    ensures Search(Analyze, q) == Some("Netflix")
  {
    NetflixKeyword(q);
    assert IsSpace(q[7]) && !IsSpace(q[8]);
    assert Span(q, 7, IsSpace) == 1;
    assert forall k :: 8 <= k < 15 ==> IsWordChar(q[k]);
    assert Span(q, 8, IsWordChar) == 7;
    assert Terminates(q, 15);
    assert q[8..15] == "Netflix";
    assert KeywordCapture(q, 7) == Some("Netflix");
  }

  lemma AnalyzeNetflix(q: string)
    requires q == "Analyze Netflix"
    ensures FallbackName(q) == "Netflix"
  {
    NetflixHasNoAbout(q);
    NetflixHasNoPossessive(q);
    NetflixCapture(q);
    FirstCaptureIsFirstMatch(CompanyPatterns, q, 2);
    StripKeepsName("Netflix");
  }

  // "about Saban\U{131}": case-insensitive matching lets the dotless i into
  // the name class, so the whole name is captured.

  lemma DotlessIIsNotSpace()
    ensures !IsSpace('\U{131}')
  {
  }

  lemma SabanciCapture(q: string)
    requires q == "about Saban\U{131}"
    ensures KeywordCapture(q, 5) == Some("Saban\U{131}")
  {
    DotlessIIsNotSpace();
    assert IsSpace(q[5]) && !IsSpace(q[6]);
    assert Span(q, 5, IsSpace) == 1;
    assert forall k :: 6 <= k < 12 ==> IsWordChar(q[k]);
    assert Span(q, 6, IsWordChar) == 6;
    assert Terminates(q, 12);
    assert q[6..12] == "Saban\U{131}";
  }

  lemma AboutSabanci(q: string)
    requires q == "about Saban\U{131}"
    ensures FallbackName(q) == "Saban\U{131}"
  {
    SabanciCapture(q);
    assert q[0..5] == "about";
    LowerKeepsLowercase("about");
    assert Search(About, q) == Some("Saban\U{131}");
    FirstCaptureIsFirstMatch(CompanyPatterns, q, 0);
    var name := "Saban\U{131}";
    DotlessIIsNotSpace();
    LetterIsNotSpace(name[0]);
    StripCharsKeepsClean(name, Whitespace);
  }
}
