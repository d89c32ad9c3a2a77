/** The research engine's pipeline for one user query: extract the company
    name, fetch its financial record, scrape the web for text about it, ask
    for a competitor analysis, and have the chat model write the report from
    all of that. Every call to the chat model, to the market-data provider
    and to the network is a parameter (see `Services`), so what is modelled
    is the text and control flow around those calls. */
module ResearchEngine {
  import opened Text
  import opened Values
  import opened FinancialData
  import WebScraper
  import NameResolver

  // ---------------------------------------------------------------------
  // `scrape_company_info`

  const NoWebContent := "No additional web content found."

  /** The pages tried, in order: the company's Wikipedia article. */
  function SearchUrls(name: string): seq<string> {
    [WebScraper.WikipediaUrl(name)]
  }

  /** `content and len(content) > 100` */
  predicate Accepted(content: Option<string>) {
    content.Some? && content.value != [] && |content.value| > 100
  }

  /** The block written for an accepted page. */
  function SourceBlock(url: string, content: string): string {
    "\n\nSource: " + url + "\n" + Take(content, 2000) + "..."
  }

  /** The block of the first page in `urls` whose text is accepted, or the
      empty string when none is. */
  function FirstSource(urls: seq<string>, download: WebScraper.Download, extract: WebScraper.Extract): string {
    if urls == [] then ""
    else
      var content := WebScraper.WebsiteText(urls[0], download, extract);
      if Accepted(content) then SourceBlock(urls[0], content.value)
      else FirstSource(urls[1..], download, extract)
  }

  /** What the scraping stage hands on: the first accepted block, or the
      fixed sentinel when no page was accepted. */
  function WebContent(name: string, download: WebScraper.Download, extract: WebScraper.Extract): string {
    var scraped := FirstSource(SearchUrls(name), download, extract);
    if scraped != "" then scraped else NoWebContent
  }

  /** A block starts with a fixed prefix and the URL, carries at most the
      first 2000 characters of the text, and ends with "..."; it is never
      empty, so an accepted page is never mistaken for no page. */
  lemma SourceBlockShape(url: string, content: string)
    ensures var block := SourceBlock(url, content);
            && block[..10] == "\n\nSource: "
            && block[10..10 + |url|] == url
            && block[10 + |url|] == '\n'
            && block[11 + |url|..|block| - 3] == Take(content, 2000)
            && Take(content, 2000) <= content && |Take(content, 2000)| <= 2000
            && block[|block| - 3..] == "..."
  {
  }

  /** The loop's promise: the first accepted page gives the block, and the
      pages after it are never read; with no page accepted the result is
      empty. */
  lemma {:induction false} FirstSourceIsFirstAccepted(urls: seq<string>, download: WebScraper.Download, extract: WebScraper.Extract, k: nat)
    requires k <= |urls|
    requires forall j :: 0 <= j < k ==> !Accepted(WebScraper.WebsiteText(urls[j], download, extract))
    ensures k < |urls| && Accepted(WebScraper.WebsiteText(urls[k], download, extract)) ==>
              FirstSource(urls, download, extract) == SourceBlock(urls[k], WebScraper.WebsiteText(urls[k], download, extract).value)
    ensures k == |urls| ==> FirstSource(urls, download, extract) == ""
  {
    if k > 0 {
      assert !Accepted(WebScraper.WebsiteText(urls[0], download, extract));
      assert forall j :: 0 <= j < k - 1 ==> urls[1..][j] == urls[j + 1];
      FirstSourceIsFirstAccepted(urls[1..], download, extract, k - 1);
    }
  }

  /** With its one page, the stage yields the Wikipedia text when it is
      longer than 100 characters, cut to 2000 and framed, and otherwise
      exactly "No additional web content found.". */
  lemma WebContentOfWikipedia(name: string, download: WebScraper.Download, extract: WebScraper.Extract)
    ensures var url := WebScraper.WikipediaUrl(name);
            var content := WebScraper.WebsiteText(url, download, extract);
            WebContent(name, download, extract) ==
              if content.Some? && |content.value| > 100 then SourceBlock(url, content.value) else NoWebContent
  {
    var urls := SearchUrls(name);
    assert urls[1..] == [];
    var content := WebScraper.WebsiteText(urls[0], download, extract);
    if Accepted(content) {
      assert FirstSource(urls, download, extract) == SourceBlock(urls[0], content.value);
      assert |SourceBlock(urls[0], content.value)| >= 13;
    } else {
      assert FirstSource(urls, download, extract) == FirstSource(urls[1..], download, extract) == "";
    }
  }

  /** `scrape_company_info`: the loop over the candidate pages that keeps the
      first accepted one. A page whose download or extraction fails is
      skipped, as `get_website_text_content` reports that as no text. */
  method ScrapeCompanyInfo(name: string, download: WebScraper.Download, extract: WebScraper.Extract) returns (text: string)
    ensures text == WebContent(name, download, extract)
  {
    var searchUrls := SearchUrls(name);
    var scraped := "";
    var i := 0;
    while i < |searchUrls|
      invariant 0 <= i <= |searchUrls|
      invariant scraped == ""
      invariant FirstSource(searchUrls, download, extract) == FirstSource(searchUrls[i..], download, extract)
    {
      var content := WebScraper.WebsiteText(searchUrls[i], download, extract);
      if content.Some? && content.value != [] && |content.value| > 100 {
        scraped := scraped + ("\n\nSource: " + searchUrls[i] + "\n" + Take(content.value, 2000) + "...");
        assert scraped == FirstSource(searchUrls, download, extract);
        break;
      }
      assert searchUrls[i..][1..] == searchUrls[i + 1..];
      i := i + 1;
    }
    if scraped != "" {
      return scraped;
    }
    return NoWebContent;
  }

  // ---------------------------------------------------------------------
  // `get_chat_context`

  /** One message of the chat context: its role and at most the first 200
      characters of its content. */
  function ChatLine(m: Message): string {
    m.role + ": " + Take(m.content, 200) + "...\n"
  }

  /** The lines of `messages`, in their order. */
  function ChatLines(messages: seq<Message>): string {
    if messages == [] then ""
    else ChatLines(messages[..|messages| - 1]) + ChatLine(messages[|messages| - 1])
  }

  /** The context built from the chat history: nothing when there is no
      history, otherwise a fixed header and the last (at most) four
      messages. */
  function ChatContext(history: seq<Message>): string {
    if history == [] then ""
    else "Recent conversation context:\n" + ChatLines(Last(history, 4))
  }

  /** The lines of two runs of messages are the lines of the first followed
      by the lines of the second: the order of the history is kept. */
  lemma {:induction false} ChatLinesAppend(first: seq<Message>, second: seq<Message>)
    ensures ChatLines(first + second) == ChatLines(first) + ChatLines(second)
    decreases |second|
  {
    if second == [] {
      assert first + second == first;
    } else {
      var init, last := second[..|second| - 1], second[|second| - 1];
      var whole := first + second;
      assert whole[..|whole| - 1] == first + init && whole[|whole| - 1] == last;
      assert ChatLines(whole) == ChatLines(first + init) + ChatLine(last);
      assert ChatLines(second) == ChatLines(init) + ChatLine(last);
      ChatLinesAppend(first, init);
    }
  }

  /** A message's line is its role, ": ", at most the first 200 characters
      of its content, and "...\n". */
  lemma ChatLineShape(m: Message)
    ensures var line := ChatLine(m);
            var n := |m.role|;
            && line[..n] == m.role
            && line[n..n + 2] == ": "
            && line[n + 2..|line| - 4] == Take(m.content, 200)
            && Take(m.content, 200) <= m.content
            && |Take(m.content, 200)| == (if |m.content| <= 200 then |m.content| else 200)
            && line[|line| - 4..] == "...\n"
  {
  }

  /** The context is empty exactly when the history is, and otherwise starts
      with the fixed header; a history longer than four messages gives the
      same context as its last four. */
  lemma ChatContextWindow(history: seq<Message>)
    ensures ChatContext(history) == "" <==> history == []
    ensures history != [] ==> ChatContext(history)[..29] == "Recent conversation context:\n"
    ensures ChatContext(history) == ChatContext(Last(history, 4))
  {
    LastIdempotent(history, 4);
  }

  /** A message older than the last four never reaches the context: adding a
      message to a history of at least four drops the oldest of them. */
  lemma ChatContextSlides(history: seq<Message>, m: Message)
    requires |history| >= 4
    ensures ChatContext(history + [m]) == "Recent conversation context:\n" + ChatLines(history[|history| - 3..] + [m])
  {
    assert Last(history + [m], 4) == history[|history| - 3..] + [m];
  }

  /** `get_chat_context`: the header, then one `+=` per recent message. */
  method GetChatContext(chatHistory: seq<Message>) returns (context: string)
    ensures context == ChatContext(chatHistory)
  {
    if chatHistory == [] {
      return "";
    }
    var recentMessages := Last(chatHistory, 4);
    context := "Recent conversation context:\n";
    for i := 0 to |recentMessages|
      invariant context == "Recent conversation context:\n" + ChatLines(recentMessages[..i])
    {
      var msg := recentMessages[i];
      context := context + (msg.role + ": " + Take(msg.content, 200) + "...\n");
      assert recentMessages[..i + 1][..i] == recentMessages[..i];
    }
    assert recentMessages[..|recentMessages|] == recentMessages;
  }

  // ---------------------------------------------------------------------
  // `analyze_company`

  /** The outside world as the pipeline sees it. `extraction`,
      `competitors` and `synthesis` are the chat model's replies (or the
      exception the call raised); `search` and `quote` the market-data
      provider's name search (the symbols of its results) and its record for
      a ticker; `download` and `extract` the page download and main-text
      extraction; `dumpData` and `dumpHistory` the JSON rendering with an
      indent of 2 (the record may hold a value JSON cannot write, the chat
      history cannot); `figure` the number formatting. */
  datatype Services = Services(
    extraction: Outcome<string>,
    search: string -> Outcome<seq<string>>,
    quote: string -> Outcome<map<string, Value>>,
    download: WebScraper.Download,
    extract: WebScraper.Extract,
    competitors: Record -> Outcome<string>,
    dumpData: Record -> Outcome<string>,
    dumpHistory: seq<Message> -> string,
    synthesis: string -> Outcome<string>,
    figure: Figures)

  /** `generate_competitor_analysis`: the reply, or the message that names
      what went wrong. */
  function CompetitorAnalysis(reply: Outcome<string>): (analysis: string)
    ensures reply.Ok? ==> analysis == reply.value
    ensures reply.Raised? ==> |analysis| == 40 + |reply.reason| && analysis[..40] == "Could not generate competitor analysis: " && analysis[40..] == reply.reason
  {
    match reply
    case Ok(text) => text
    case Raised(reason) => "Could not generate competitor analysis: " + reason
  }

  /** The chat history as the synthesis sees it: the JSON of its last five
      messages, or "None" when there is no history. */
  function HistoryText(history: seq<Message>, dumpHistory: seq<Message> -> string): string {
    if history != [] then dumpHistory(Last(history, 5)) else "None"
  }

  /** The indentation the triple-quoted context carries on each line. */
  const Indent := "            "

  /** The user message of the synthesis call. */
  function SynthesisContext(name: string, dataText: string, web: string, competitors: string, query: string, history: string): (context: string)
    ensures |context| >= 34 + |name|
    ensures context[..22] == "\n" + Indent + "Company: "
    ensures context[22..22 + |name|] == name
    ensures context[|context| - 12..] == Indent
  {
    var opening := "\n" + Indent + "Company: ";
    var body := "\n" +
      Indent + "Financial Data: " + dataText + "\n" +
      Indent + "Web Content: " + Take(web, 1000) + "...\n" +
      Indent + "Competitor Analysis: " + competitors + "\n" +
      Indent + "\n" +
      Indent + "User Query: " + query + "\n" +
      Indent + "Chat History: " + history + "\n";
    Parts(opening, name, body + Indent);
    opening + name + (body + Indent)
  }

  /** The name in the report's title: the record's company name (which
      defaults to the extracted name) when the record carries no error, and
      the extracted name otherwise. */
  function TitleName(name: string, data: Record, figure: Figures): string {
    if Error !in data then Show(Lookup(data, CompanyName, Str(name)), figure) else name
  }

  function Heading(title: string): string {
    "# " + title + " - PE Research Analysis\n\n"
  }

  const ErrorOpening := "**Analysis Error**\n\nI encountered an issue while researching "
  const ErrorDetails := ":\n\n**Error Details:** "

  /** The advice that closes every error report, after a blank line. */
  const ErrorClosing :=
    "\n\n" +
    "**Possible Solutions:**\n" +
    "- Check if the company name is spelled correctly\n" +
    "- Try using the full company name or stock ticker\n" +
    "- Ensure the company is publicly traded or well-known\n" +
    "- Rephrase your question\n" +
    "\n" +
    "**Example Queries:**\n" +
    "- \"Tell me about Apple\"\n" +
    "- \"Analyze Tesla's market position\" \n" +
    "- \"Who are Microsoft's competitors?\"\n" +
    "\n" +
    "Please try again with a different approach."

  /** The company an error report is about: the extracted name, or "the
      requested company" when the failure came before a name was known. */
  function ErrorSubject(name: Option<string>): string {
    match name
    case Some(n) => n
    case None => "the requested company"
  }

  /** The report returned when a stage raised. */
  function ErrorReport(name: Option<string>, reason: string): string {
    ErrorOpening + ErrorSubject(name) + ErrorDetails + reason + ErrorClosing
  }

  /** The company name the pipeline works with. */
  function QueryName(query: string, env: Services): string {
    NameResolver.ExtractedName(query, env.extraction)
  }

  /** The financial record fetched for that name. */
  function QueryData(query: string, env: Services): Record {
    var name := QueryName(query, env);
    GetFinancialData(name, env.search(name), env.quote, env.figure)
  }

  /** The context handed to the synthesis, given the JSON of the record. */
  function QueryContext(query: string, history: seq<Message>, env: Services, dataText: string): string {
    var name := QueryName(query, env);
    SynthesisContext(name, dataText, WebContent(name, env.download, env.extract),
                     CompetitorAnalysis(env.competitors(QueryData(query, env))), query,
                     HistoryText(history, env.dumpHistory))
  }

  /** The report for `query` given the chat history: the heading and the
      chat model's analysis, or the error report naming the extracted company
      when rendering the record as JSON or the synthesis call raises. */
  function Report(query: string, history: seq<Message>, env: Services): string {
    var name := QueryName(query, env);
    var data := QueryData(query, env);
    match env.dumpData(data)
    case Raised(reason) => ErrorReport(Some(name), reason)
    case Ok(dataText) =>
      match env.synthesis(QueryContext(query, history, env, dataText))
      case Raised(reason) => ErrorReport(Some(name), reason)
      case Ok(analysis) => Heading(TitleName(name, data, env.figure)) + analysis
  }

  /** The title names the provider's long name when the fetch succeeded and
      the provider knows one, the extracted name when it succeeded without
      one, and the extracted name when the fetch failed. */
  lemma TitleFollowsFetch(name: string, search: Outcome<seq<string>>, quote: string -> Outcome<map<string, Value>>, figure: Figures)
    ensures var data := GetFinancialData(name, search, quote, figure);
            && (search.Raised? ==> TitleName(name, data, figure) == name)
            && (search.Ok? && quote(ResolveTicker(name, search.value)).Raised? ==> TitleName(name, data, figure) == name)
            && (search.Ok? && quote(ResolveTicker(name, search.value)).Ok? ==>
                  TitleName(name, data, figure) == Show(Get(quote(ResolveTicker(name, search.value)).value, "longName", Str(name)), figure))
  {
  }

  /** A successful run is the heading, whose title comes from the record as
      above, followed by the analysis exactly as the chat model wrote it. */
  lemma ReportOnSuccess(query: string, history: seq<Message>, env: Services, dataText: string, analysis: string)
    requires env.dumpData(QueryData(query, env)) == Ok(dataText)
    requires env.synthesis(QueryContext(query, history, env, dataText)) == Ok(analysis)
    ensures Report(query, history, env) ==
            "# " + TitleName(QueryName(query, env), QueryData(query, env), env.figure) + " - PE Research Analysis\n\n" + analysis
  {
  }

  /** Only the last five messages of the history reach the synthesis: the
      report for a history is the report for its last five messages. */
  lemma ReportReadsLastFiveMessages(query: string, history: seq<Message>, env: Services)
    ensures Report(query, history, env) == Report(query, Last(history, 5), env)
  {
    var recent := Last(history, 5);
    LastIdempotent(history, 5);
    assert HistoryText(history, env.dumpHistory) == HistoryText(recent, env.dumpHistory);
    match env.dumpData(QueryData(query, env))
    case Raised(_) =>
    case Ok(dataText) =>
      assert QueryContext(query, history, env, dataText) == QueryContext(query, recent, env, dataText);
  }

  /** When a stage raises, the report names the extracted company right
      after the fixed opening and carries the reason. */
  lemma ErrorReportNamesCompany(name: string, reason: string)
    ensures var report := ErrorReport(Some(name), reason);
            && report[..61] == ErrorOpening
            && report[61..61 + |name|] == name
            && report[61 + |name|..83 + |name|] == ErrorDetails
            && report[83 + |name|..83 + |name| + |reason|] == reason
  {
    assert |ErrorOpening| == 61 && |ErrorDetails| == 22;
    Parts(ErrorOpening, name, ErrorDetails + reason + ErrorClosing);
    Parts(ErrorOpening + name, ErrorDetails, reason + ErrorClosing);
    Parts(ErrorOpening + name + ErrorDetails, reason, ErrorClosing);
  }

  /** When rendering the record or the synthesis call raises, the result is
      the error report for the extracted name and the reason given. */
  lemma ReportOnFailedStage(query: string, history: seq<Message>, env: Services, reason: string)
    requires || env.dumpData(QueryData(query, env)) == Raised(reason)
             || (env.dumpData(QueryData(query, env)).Ok? &&
                 env.synthesis(QueryContext(query, history, env, env.dumpData(QueryData(query, env)).value)) == Raised(reason))
    ensures Report(query, history, env) == ErrorReport(Some(QueryName(query, env)), reason)
  {
  }

  /** `analyze_company`: the stages in order, then the heading and the
      analysis, or the error report. */
  method AnalyzeCompany(query: string, chatHistory: seq<Message>, env: Services) returns (response: string)
    ensures response == Report(query, chatHistory, env)
  {
    var companyName := NameResolver.ExtractCompanyName(query, env.extraction);
    assert companyName == QueryName(query, env);
    var financialData := GetFinancialData(companyName, env.search(companyName), env.quote, env.figure);
    assert financialData == QueryData(query, env);
    var webContent := ScrapeCompanyInfo(companyName, env.download, env.extract);
    var competitorAnalysis := CompetitorAnalysis(env.competitors(financialData));
    var dataText := env.dumpData(financialData);
    if dataText.Raised? {
      return ErrorReport(Some(companyName), dataText.reason);
    }
    var context := SynthesisContext(companyName, dataText.value, webContent, competitorAnalysis, query,
                                    HistoryText(chatHistory, env.dumpHistory));
    assert context == QueryContext(query, chatHistory, env, dataText.value);
    var reply := env.synthesis(context);
    if reply.Raised? {
      return ErrorReport(Some(companyName), reply.reason);
    }
    var aiAnalysis := reply.value;
    if Error !in financialData {
      response := "# " + Show(Lookup(financialData, CompanyName, Str(companyName)), env.figure) + " - PE Research Analysis\n\n" + aiAnalysis;
    } else {
      response := "# " + companyName + " - PE Research Analysis\n\n" + aiAnalysis;
    }
  }
}
