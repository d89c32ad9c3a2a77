/** Extraction of a company name from a free-text query. The chat model is
    asked first; when that call raises, three regular expressions are tried
    in a fixed order (searched case-insensitively), and the first one that
    matches gives the name, stripped of surrounding whitespace. When none
    matches the name is the sentinel "Unknown Company".

    The patterns are
      About:      `about\s+([A-Za-z0-9\s&.-]+?)(?:\s|$|\?)`
      Possessive: `([A-Za-z0-9\s&.-]+)'s\s+`
      Analyze:    `analyze\s+([A-Za-z0-9\s&.-]+?)(?:\s|$|\?)`
    and each is modelled by the match `re.search` finds, backtracking
    included, on the ASCII letters the class names. */
module NameResolver {
  import opened Text
  import opened Values

  const UnknownCompany := "Unknown Company"

  datatype Pattern = About | Possessive | Analyze

  /** The fallback patterns in the order they are tried. */
  const CompanyPatterns: seq<Pattern> := [About, Possessive, Analyze]

  /** `[A-Za-z0-9\s&.-]` under `re.IGNORECASE`: the characters a captured
      name may contain. Case-insensitive matching adds four letters outside
      ASCII to `[A-Za-z]`: dotted capital I, dotless small i, long s and the
      Kelvin sign, whose simple case mappings are ASCII letters. */
  predicate IsNameChar(c: char) {
    || 'A' <= c <= 'Z' || 'a' <= c <= 'z'
    || c == '\U{130}' || c == '\U{131}' || c == '\U{17F}' || c == '\U{212A}'
    || '0' <= c <= '9' || IsSpace(c) || c == '&' || c == '.' || c == '-'
  }

  /** The letter `s` of `'s` under `re.IGNORECASE`: either case, or long s. */
  predicate IsLetterS(c: char) {
    c == 's' || c == 'S' || c == '\U{17F}'
  }

  /** A name character that is not whitespace. */
  predicate IsWordChar(c: char) {
    IsNameChar(c) && !IsSpace(c)
  }

  /** The length of the longest run of characters satisfying `p` from `i` on. */
  function Span(s: string, i: nat, p: char -> bool): (n: nat)
    requires i <= |s|
    ensures i + n <= |s|
    ensures forall k :: i <= k < i + n ==> p(s[k])
    ensures i + n < |s| ==> !p(s[i + n])
    decreases |s| - i
  {
    if i == |s| || !p(s[i]) then 0 else 1 + Span(s, i + 1, p)
  }

  /** `(?:\s|$|\?)` at position `e`. */
  predicate Terminates(q: string, e: nat)
    requires e <= |q|
  {
    e == |q| || IsSpace(q[e]) || q[e] == '?'
  }

  /** Group 1 of `\s+([A-Za-z0-9\s&.-]+?)(?:\s|$|\?)` matched at position `j`
      (just after the keyword). With `w` whitespace characters at `j`,
      followed by a run `R` of word characters: the lazy group is `R` when
      `R` is non-empty and followed by a terminator. Otherwise `\s+` gives
      back whitespace and the group is a single whitespace character: one
      given back suffices when `R` is empty and the text ends or `?`
      follows, two are needed when what follows `R` is no terminator. */
  function KeywordCapture(q: string, j: nat): (g: Option<string>)
    requires j <= |q|
    ensures g.Some? ==> (forall c :: c in g.value ==> IsWordChar(c)) || (|g.value| == 1 && IsSpace(g.value[0]))
    ensures g.Some? ==> g.value != []
  {
    var w := Span(q, j, IsSpace);
    var k := j + w;
    var r := Span(q, k, IsWordChar);
    if w == 0 then None
    else if r > 0 && Terminates(q, k + r) then Some(q[k..k + r])
    else if r == 0 && Terminates(q, k) && w >= 2 then Some(q[k - 1..k])
    else if !Terminates(q, k + r) && w >= 3 then Some(q[k - 2..k - 1])
    else None
  }

  /** `re.search` for `KW\s+...` from position `p` on: the leftmost position
      where the keyword occurs (in any case) and the rest matches. The
      keyword is given in lower case and has no letter that case-insensitive
      matching relates to a character outside ASCII (no i, k or s), so
      lower-casing the ASCII letters of the query is enough to find it. */
  function KeywordSearch(q: string, kw: string, p: nat): (g: Option<string>)
    requires p <= |q| && kw != []
    ensures g.Some? ==> (forall c :: c in g.value ==> IsWordChar(c)) || (|g.value| == 1 && IsSpace(g.value[0]))
    ensures g.Some? ==> g.value != []
    decreases |q| - p
  {
    if p + |kw| > |q| then None
    else if Lower(q[p..p + |kw|]) == kw && KeywordCapture(q, p + |kw|).Some? then KeywordCapture(q, p + |kw|)
    else KeywordSearch(q, kw, p + 1)
  }

  /** `re.search` for `([A-Za-z0-9\s&.-]+)'s\s+` from position `p` on. The
      greedy group from any start inside a run of name characters reaches
      the end `e` of that run, and shortening it puts a name character
      before the `'`, so the search matches at the first run that is
      followed by `'s` (in either case, or with long s) and whitespace, and the group is that whole
      run. */
  function PossessiveSearch(q: string, p: nat): (g: Option<string>)
    requires p <= |q|
    ensures g.Some? ==> g.value != [] && forall c :: c in g.value ==> IsNameChar(c)
    decreases |q| - p
  {
    if p == |q| then None
    else if !IsNameChar(q[p]) then PossessiveSearch(q, p + 1)
    else
      var e := p + Span(q, p, IsNameChar);
      if e + 2 < |q| && q[e] == '\'' && IsLetterS(q[e + 1]) && IsSpace(q[e + 2])
      then Some(q[p..e])
      else PossessiveSearch(q, e)
  }

  /** `re.search(pattern, query, re.IGNORECASE)`, as group 1 of the match. */
  function Search(pattern: Pattern, query: string): Option<string> {
    match pattern
    case About => KeywordSearch(query, "about", 0)
    case Possessive => PossessiveSearch(query, 0)
    case Analyze => KeywordSearch(query, "analyze", 0)
  }

  /** The group of the first pattern in `patterns` that matches. */
  function FirstCapture(patterns: seq<Pattern>, query: string): Option<string> {
    if patterns == [] then None
    else if Search(patterns[0], query).Some? then Search(patterns[0], query)
    else FirstCapture(patterns[1..], query)
  }

  /** The name the fallback extracts from a query. */
  function FallbackName(query: string): string {
    match FirstCapture(CompanyPatterns, query)
    case Some(group) => Strip(group)
    case None => UnknownCompany
  }

  /** The name the extraction yields: the stripped reply of the chat model,
      or the fallback when the call raised. */
  function ExtractedName(query: string, reply: Outcome<string>): string {
    match reply
    case Ok(content) => Strip(content)
    case Raised(_) => FallbackName(query)
  }

  /** The first matching pattern's group, and nothing when none matches. */
  lemma {:induction false} FirstCaptureIsFirstMatch(patterns: seq<Pattern>, query: string, k: nat)
    requires k < |patterns| && Search(patterns[k], query).Some?
    requires forall j :: 0 <= j < k ==> Search(patterns[j], query).None?
    ensures FirstCapture(patterns, query) == Search(patterns[k], query)
  {
    if k > 0 {
      assert Search(patterns[0], query).None?;
      assert forall j :: 0 <= j < k - 1 ==> patterns[1..][j] == patterns[j + 1];
      FirstCaptureIsFirstMatch(patterns[1..], query, k - 1);
    }
  }

  lemma {:induction false} FirstCaptureNone(patterns: seq<Pattern>, query: string)
    requires forall j :: 0 <= j < |patterns| ==> Search(patterns[j], query).None?
    ensures FirstCapture(patterns, query).None?
  {
    if patterns != [] {
      assert forall j :: 0 <= j < |patterns| - 1 ==> patterns[1..][j] == patterns[j + 1];
      FirstCaptureNone(patterns[1..], query);
    }
  }

  /** The fallback's promise: the patterns are tried in the listed order and
      the first one that matches gives the name, stripped; when none matches
      the name is exactly "Unknown Company". */
  lemma FallbackFirstMatchWins(query: string)
    ensures forall k :: 0 <= k < |CompanyPatterns| && Search(CompanyPatterns[k], query).Some? &&
                        (forall j :: 0 <= j < k ==> Search(CompanyPatterns[j], query).None?) ==>
              FallbackName(query) == Strip(Search(CompanyPatterns[k], query).value)
    ensures (forall k :: 0 <= k < |CompanyPatterns| ==> Search(CompanyPatterns[k], query).None?) ==>
              FallbackName(query) == UnknownCompany
  {
    forall k | 0 <= k < |CompanyPatterns| && Search(CompanyPatterns[k], query).Some? &&
               (forall j :: 0 <= j < k ==> Search(CompanyPatterns[j], query).None?)
      ensures FallbackName(query) == Strip(Search(CompanyPatterns[k], query).value)
    {
      FirstCaptureIsFirstMatch(CompanyPatterns, query, k);
    }
    if forall k :: 0 <= k < |CompanyPatterns| ==> Search(CompanyPatterns[k], query).None? {
      FirstCaptureNone(CompanyPatterns, query);
    }
  }

  /** The loop of the fallback: each pattern in turn, returning the first
      group found. */
  method FallbackCompanyName(query: string) returns (name: string)
    ensures name == FallbackName(query)
  {
    var patterns := CompanyPatterns;
    var i := 0;
    while i < |patterns|
      invariant 0 <= i <= |patterns|
      invariant FirstCapture(patterns, query) == FirstCapture(patterns[i..], query)
    {
      var found := Search(patterns[i], query);
      if found.Some? {
        return Strip(found.value);
      }
      i := i + 1;
    }
    return UnknownCompany;
  }

  /** The extraction: the chat model's reply, stripped, or the fallback. */
  method ExtractCompanyName(query: string, reply: Outcome<string>) returns (name: string)
    ensures name == ExtractedName(query, reply)
  {
    match reply {
      case Ok(content) =>
        name := Strip(content);
      case Raised(_) =>
        name := FallbackCompanyName(query);
    }
  }

  /** Whatever the path, the name has no surrounding whitespace. */
  lemma {:induction false} ExtractedNameIsStripped(query: string, reply: Outcome<string>)
    ensures var name := ExtractedName(query, reply);
            name == [] || (!IsSpace(name[0]) && !IsSpace(name[|name| - 1]))
  {
    var name := ExtractedName(query, reply);
    match reply
    case Ok(content) =>
      assert name == StripChars(content, Whitespace);
      StripCharsSpec(content, Whitespace);
    case Raised(_) =>
      match FirstCapture(CompanyPatterns, query)
      case Some(group) =>
        assert name == StripChars(group, Whitespace);
        StripCharsSpec(group, Whitespace);
      case None =>
        assert name == UnknownCompany;
        assert name[0] == 'U' && name[|name| - 1] == 'y';
        assert !IsSpace('U') && !IsSpace('y');
  }

  /** A name found by the "about X" or "analyze X" pattern is a single word:
      it holds no whitespace at all, and it is empty only in the corner case
      where the regex captures a lone whitespace character. */
  lemma KeywordNameIsOneWord(query: string, kw: string)
    requires kw != [] && KeywordSearch(query, kw, 0).Some?
    ensures var name := Strip(KeywordSearch(query, kw, 0).value);
            forall c :: c in name ==> IsWordChar(c)
  {
    var g := KeywordSearch(query, kw, 0).value;
    var name := Strip(g);
    if |g| == 1 && IsSpace(g[0]) {
      assert name == [];
    } else {
      assert forall i :: 0 <= i < |name| ==> name[i] == g[LeadingIn(g, Whitespace) + i];
    }
  }
}
