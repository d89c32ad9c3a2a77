/** The web scraper: main-body text of a page, a Wikipedia summary of a
    company, and the fixed financial-news message. The page download and the
    text extraction are network and parsing work done elsewhere, so they are
    parameters: each returns a value, `None`, or raises. */
module WebScraper {
  import opened Text
  import opened Values

  /** The page download: the document, `None`, or an exception. */
  type Download = string -> Outcome<Option<string>>

  /** The main-body extraction of a downloaded document. */
  type Extract = string -> Outcome<Option<string>>

  const WikipediaPrefix := "https://en.wikipedia.org/wiki/"

  /** The Wikipedia article URL for a company: the prefix, then the name with
      every space written as an underscore. */
  function WikipediaUrl(name: string): (url: string)
    ensures |url| == |WikipediaPrefix| + |name|
    ensures url[..|WikipediaPrefix|] == WikipediaPrefix
  {
    WikipediaPrefix + Replace(name, ' ', '_')
  }

  /** The URL is the prefix followed by a slug as long as the name, which
      agrees with the name everywhere except that it holds no space. */
  lemma WikipediaSlug(name: string)
    ensures WikipediaUrl(name)[..|WikipediaPrefix|] == WikipediaPrefix
    ensures |WikipediaUrl(name)| == |WikipediaPrefix| + |name|
    ensures ' ' !in WikipediaUrl(name)
    ensures forall i :: 0 <= i < |name| && name[i] != ' ' ==>
              WikipediaUrl(name)[|WikipediaPrefix| + i] == name[i]
  {
    var slug := Replace(name, ' ', '_');
    assert WikipediaUrl(name) == WikipediaPrefix + slug;
    assert forall i :: 0 <= i < |slug| ==> slug[i] != ' ';
    assert forall i :: 0 <= i < |WikipediaPrefix| ==> WikipediaPrefix[i] != ' ';
  }

  /** The main-body text of the page at `url`, or `None`. It is `None`
      exactly when the download raises or yields nothing, or the extraction
      raises or yields nothing; otherwise it is the extraction of the
      downloaded document. No failure escapes. */
  function WebsiteText(url: string, download: Download, extract: Extract): (text: Option<string>)
    ensures text.Some? <==>
              && download(url).Ok?
              && download(url).value.Some?
              && download(url).value.value != []
              && extract(download(url).value.value).Ok?
              && extract(download(url).value.value).value.Some?
    ensures text.Some? ==> extract(download(url).value.value) == Ok(text)
  {
    match download(url)
    case Raised(_) => None
    case Ok(None) => None
    case Ok(Some(document)) =>
      if document == [] then None
      else
        match extract(document)
        case Raised(_) => None
        case Ok(t) => t
  }

  /** The summary block for Wikipedia text of more than 200 characters. */
  function WikipediaSummary(content: string): string {
    "**Wikipedia Summary:**\n" + Take(content, 1500) + "...\n"
  }

  /** The summary is the text's first 1500 characters between a fixed
      header and a fixed trailer, so it is never longer than 1527 characters. */
  lemma WikipediaSummaryBounded(content: string)
    ensures var summary := WikipediaSummary(content);
            && |summary| <= 1527
            && summary[..23] == "**Wikipedia Summary:**\n"
            && summary[23..|summary| - 4] == Take(content, 1500)
            && Take(content, 1500) <= content
  {
  }

  function LimitedInformation(name: string): string {
    "Limited web information available for " + name + "."
  }

  /** What is known about a company from the web: the summary of its
      Wikipedia text when that text is longer than 200 characters (the
      block's body is the text cut to 1500 characters), and otherwise the
      message that names the company. */
  method SearchCompanyInfo(name: string, download: Download, extract: Extract) returns (info: string)
    ensures var content := WebsiteText(WikipediaUrl(name), download, extract);
            if content.Some? && |content.value| > 200
            then info == WikipediaSummary(content.value)
            else info == LimitedInformation(name)
  {
    var sources: seq<string> := [];
    var wikiUrl := WikipediaUrl(name);
    var wikiContent := WebsiteText(wikiUrl, download, extract);
    if wikiContent.Some? && wikiContent.value != [] && |wikiContent.value| > 200 {
      sources := sources + [WikipediaSummary(wikiContent.value)];
    }
    if sources != [] {
      info := Join("\n", sources);
    } else {
      info := LimitedInformation(name);
    }
  }

  /** The fixed financial-news message; it fetches nothing. */
  function FinancialNews(name: string): (news: string)
    ensures |news| == |name| + 92
    ensures news[..36] == "For the latest financial news about "
    ensures news[36..36 + |name|] == name
  {
    "For the latest financial news about " + name + ", please check financial news websites or use news APIs."
  }

  /** The message names the company at a fixed place, so two companies never
      get the same message. */
  lemma FinancialNewsNamesCompany(name: string, other: string)
    ensures FinancialNews(name)[36..36 + |name|] == name
    ensures |FinancialNews(name)| == |name| + 92
    ensures FinancialNews(name) == FinancialNews(other) ==> name == other
  {
    var tail := ", please check financial news websites or use news APIs.";
    assert FinancialNews(name) == "For the latest financial news about " + name + tail;
    assert FinancialNews(other) == "For the latest financial news about " + other + tail;
    if FinancialNews(name) == FinancialNews(other) {
      assert |name| == |other|;
      assert name == FinancialNews(name)[36..36 + |name|];
    }
  }
}
