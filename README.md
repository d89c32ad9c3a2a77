# PE research engine — a Dafny model

This project models the deterministic core of a private-equity research
chatbot. For a user's question the engine:

- extracts the company name: the chat model is asked first, and ordered
  regular expressions are the fallback;
- resolves a ticker and builds a financial record from the market-data
  provider's answer;
- scrapes the company's Wikipedia article;
- asks for a competitor analysis;
- has the chat model write the report;
- frames the report with a title line, or replaces it with an error report.

It also renders a financial record as bullet lines, builds the chat-history
context, and has the web scraper's Wikipedia summary and news message.

Every call to the chat model, to the market-data provider and to the network
is a parameter. A result is either a value or the text of the exception it
raised (`Outcome`). What is modelled, and proved, is the text and the
control flow around those calls.

Modules:

- `Text` — Python string helpers: `strip` with an explicit character set and
  Python's whitespace set, ASCII `lower`/`upper`, `[:n]`, `[-n:]`,
  `replace`, `join`.
- `Values` — dictionary values (`None`, string, number), truthiness,
  `str()`, `Outcome`, chat messages.
- `WebScraper` — `get_website_text_content` with the download and
  extraction as parameters, `search_company_info` and `get_financial_news`.
- `NameResolver` — `extract_company_name`. The three fallback regexes are
  modelled as the match `re.search` finds on them with `re.IGNORECASE`,
  backtracking included. Under that flag `[A-Za-z]` also matches four letters
  outside ASCII (dotted capital I, dotless small i, long s and the Kelvin
  sign), and the `s` of `'s` also matches long s; the model's character
  class has them too.
- `FinancialData` — ticker resolution, the headquarters string,
  `get_financial_data` and `format_financial_data`.
- `ResearchEngine` — `scrape_company_info`, `get_chat_context` and
  `analyze_company`.
- `ResolverCases` — four queries worked through the regex model.

`format_financial_data`, `get_chat_context`, `scrape_company_info`,
`search_company_info` and both levels of the name extraction are methods. Each
is proved equal to a specification function, and the lemmas state what that
function promises.

The fallback's possessive pattern `([A-Za-z0-9\s&.-]+)'s\s+` captures the
whole run of name characters before the apostrophe, spaces included. So for
"Who is IBM's CEO?" the fallback yields "Who is IBM". `PossessiveTakesWholeRun`
proves this behaviour of the code as written.

Other behaviour of the code that the model keeps:

- The fallback has exactly three patterns: "about X", "X's" and "analyze X".
- The extracted name is only stripped of whitespace. Corporate suffixes
  such as "Inc" or "Corp" stay in it.
- The chat model's reply is taken whenever the call returns, even when the
  reply is empty.
- When the synthesis call raises, the result is the error report.
- A failed competitor-analysis call gives a one-line message that takes the
  place of the analysis.

## Model

| member | source | states |
|---|---|---|
| NameResolver.ExtractCompanyName | research_engine.py:20-48 | the extracted name is the chat model's reply stripped, or the fallback's name when the call raised |
| NameResolver.ExtractedNameIsStripped | research_engine.py:34-48 | on every path the name has no leading or trailing whitespace (the sentinel included) |
| NameResolver.FallbackCompanyName | research_engine.py:37-48 | the loop over the patterns returns the fallback's name: the first match's group stripped, else "Unknown Company" |
| NameResolver.FallbackFirstMatchWins | research_engine.py:37-48 | when pattern k matches and none before it does, the name is pattern k's group stripped; when none matches, exactly "Unknown Company" |
| NameResolver.FirstCaptureIsFirstMatch | research_engine.py:43-46 | trying patterns in order yields the group of the first one that matches |
| NameResolver.FirstCaptureNone | research_engine.py:43-47 | when no pattern matches, the loop finds nothing |
| NameResolver.KeywordSearch | research_engine.py:38-40 | a group found after "about" or "analyze" (in any case) is non-empty and is a run of non-space name characters, or a lone whitespace character; name characters are those `[A-Za-z0-9\s&.-]` matches under `re.IGNORECASE` |
| NameResolver.KeywordCapture | research_engine.py:38-40 | the lazy group after the keyword and its whitespace is a run of non-space name characters (under `re.IGNORECASE`), or one whitespace character |
| NameResolver.PossessiveSearch | research_engine.py:39 | a group found before "'s" (s in either case, or long s) followed by whitespace is non-empty and made only of name characters (under `re.IGNORECASE`) |
| NameResolver.KeywordNameIsOneWord | research_engine.py:38-46 | a name found by the "about" or "analyze" pattern holds no whitespace |
| ResolverCases.AboutApple | research_engine.py:38 | with the chat model unavailable, "Tell me about Apple" yields "Apple" |
| ResolverCases.PossessiveTakesWholeRun | research_engine.py:39 | "Who is IBM's CEO?" yields "Who is IBM": the possessive group takes every name character before the apostrophe |
| ResolverCases.AnalyzeNetflix | research_engine.py:40 | "Analyze Netflix" matches neither earlier pattern and yields "Netflix" |
| ResolverCases.AboutSabanci | research_engine.py:38-46 | "about Saban\u0131" yields the whole name, dotless i included, as case-insensitive `[A-Za-z]` matches it |
| FinancialData.ResolveTicker | research_engine.py:54-65 | the ticker is the first search result's symbol; without results, the map's entry for the lower-cased name, else a string of the name's length equal to the name up to case |
| FinancialData.SearchHitWins | research_engine.py:55-56 | a non-empty search result decides the ticker: its first symbol |
| FinancialData.ResolveTickerIgnoresCase | research_engine.py:59-65 | without search results, names equal up to case get the same ticker |
| FinancialData.UnmappedNameIsItsOwnTicker | research_engine.py:65 | an unmapped name's ticker has the name's length, no lower-case letter, and the same lower-case form as the name |
| FinancialData.MappedTickers | research_engine.py:59-65 | "Tesla" and "TESLA" give "TSLA", "facebook" and "meta" give "META", "General Motors" gives "GM" |
| FinancialData.UnmappedTickerExample | research_engine.py:65 | the unmapped "Rivian" comes back as "RIVIAN" |
| FinancialData.HeadquartersText | research_engine.py:84 | the headquarters string "city, state country" with commas and spaces stripped: it neither starts nor ends with a comma or a space |
| FinancialData.HeadquartersWhenUnknown | research_engine.py:84 | with city, state and country all missing or empty, the headquarters is the empty string |
| FinancialData.HeadquartersWhenKnown | research_engine.py:84 | with all three parts present and clean ends, the headquarters is "city, state country" unchanged |
| FinancialData.FetchError | research_engine.py:89-90 | a failed fetch gives a record whose only key is `error`, holding a string |
| FinancialData.Profile | research_engine.py:70-85 | the record holds every profile key and neither `error` nor any other key; ticker and company name (default: the looked-up name) are as given |
| FinancialData.GetFinancialData | research_engine.py:50-90 | `error` is present exactly when the search or the quote raised, and is then the only key; otherwise exactly the profile keys, with the resolved ticker and the long name or the looked-up name |
| FinancialData.EmptyAnswerProfile | research_engine.py:70-85 | a provider answer with no fields leaves the six numeric fields None and the headquarters as given |
| FinancialData.AddBullets | research_engine.py:149-168 | the numeric bullets keep what was written as a prefix, and a failure names a table key whose value is a non-empty string |
| FinancialData.AddBulletsReadOnlyTheirKeys | research_engine.py:149-168 | the bullets depend only on the values of their own keys |
| FinancialData.AddBulletsSkipFalsy | research_engine.py:149-168 | a falsy value renders exactly as an absent one |
| FinancialData.BulletLines | research_engine.py:149-168 | each numeric bullet's caption, number format and unit as written in the source |
| FinancialData.AddSixBullets | research_engine.py:149-168 | the table of bullets is the six `if`s in the source order |
| FinancialData.AppendBullet | research_engine.py:149-168 | one `if`: falsy adds nothing, a number adds its line, any other value raises |
| FinancialData.FormatFinancialData | research_engine.py:142-173 | the method's output is the summary of the record |
| FinancialData.ErrorSupersedesFields | research_engine.py:144-145 | with `error` present the output is "**Financial Data:** " and the error, whatever the other fields hold |
| FinancialData.FailedFetchSummary | research_engine.py:144-145 | a failed fetch renders as the error line carrying the exception text |
| FinancialData.SummaryStartsWithHeader | research_engine.py:147-173 | without `error`, a rendered summary starts with "**Financial Highlights:**\n" |
| FinancialData.SummaryOmitsFalsyFields | research_engine.py:147-173 | removing a falsy field from the record does not change the output |
| FinancialData.SummaryReadsOnlyDisplayedFields | research_engine.py:142-173 | two records that agree on `error` and the seven displayed fields render the same |
| FinancialData.SummaryOfMissingData | research_engine.py:147-173 | a record whose displayed fields are all falsy renders as the bare header |
| FinancialData.EmptyAnswerSummary | research_engine.py:147-173 | a provider answer with no fields renders as the bare header |
| ResearchEngine.SourceBlockShape | research_engine.py:105 | an accepted page's block is "\n\nSource: ", the URL, a newline, at most the text's first 2000 characters and "..." |
| ResearchEngine.FirstSourceIsFirstAccepted | research_engine.py:101-108 | the first accepted page gives the block and later pages are not read; with none accepted the result is empty |
| ResearchEngine.WebContentOfWikipedia | research_engine.py:96-110 | the Wikipedia text over 100 characters gives its block, anything else "No additional web content found." |
| ResearchEngine.ScrapeCompanyInfo | research_engine.py:92-113 | the loop with its break returns the web content of the company |
| ResearchEngine.ChatLineShape | research_engine.py:269 | a message's line is its role, ": ", at most the first 200 characters of its content, and "...\n" |
| ResearchEngine.ChatLinesAppend | research_engine.py:268-269 | the lines of two runs of messages are the first run's lines followed by the second's |
| ResearchEngine.ChatContextWindow | research_engine.py:260-271 | the context is empty exactly when the history is, starts with the header otherwise, and equals the context of the last four messages |
| ResearchEngine.ChatContextSlides | research_engine.py:266 | one more message pushes the oldest of the last four out of the context |
| ResearchEngine.GetChatContext | research_engine.py:260-271 | the loop's output is the chat context of the history |
| ResearchEngine.CompetitorAnalysis | research_engine.py:115-140 | the competitor analysis is the chat model's reply, or "Could not generate competitor analysis: " followed by exactly the exception text |
| ResearchEngine.SynthesisContext | research_engine.py:197-205 | the synthesis context opens with a newline, the 12-space indent and "Company: " followed by the name, and ends with the indent |
| ResearchEngine.TitleFollowsFetch | research_engine.py:233-236 | the title is the provider's long name (rendered with str) after a successful fetch, and the extracted name after a failed one |
| ResearchEngine.ReportOnSuccess | research_engine.py:232-238 | a run with no raised stage is "# ", the title, " - PE Research Analysis\n\n" and the analysis |
| ResearchEngine.ReportReadsLastFiveMessages | research_engine.py:204 | the report for a history equals the report for its last five messages |
| ResearchEngine.ErrorReportNamesCompany | research_engine.py:240-258 | the error report names the extracted company right after its fixed opening, then the exception text |
| ResearchEngine.ReportOnFailedStage | research_engine.py:240-258 | when rendering the record or the synthesis call raises, the result is the error report for the extracted name and the reason |
| ResearchEngine.AnalyzeCompany | research_engine.py:175-258 | the method's output is the report for the query and history |
| WebScraper.WebsiteText | web_scraper.py:15-24 | no text exactly when the download raises or yields nothing, or the extraction raises or yields nothing; otherwise the extraction's text |
| WebScraper.WikipediaUrl | web_scraper.py:33 | the Wikipedia URL starts with "https://en.wikipedia.org/wiki/" and is as much longer than the name as that prefix |
| WebScraper.WikipediaSlug | web_scraper.py:33 | the URL is the fixed prefix and a slug of the name's length that has no space and agrees with the name elsewhere |
| WebScraper.WikipediaSummaryBounded | web_scraper.py:36 | the summary is the header, at most the text's first 1500 characters and "...\n", so at most 1527 characters |
| WebScraper.SearchCompanyInfo | web_scraper.py:26-42 | the Wikipedia summary when the text is longer than 200 characters, else "Limited web information available for {name}." |
| WebScraper.FinancialNews | web_scraper.py:44-54 | the news message is 92 characters longer than the name, opens with "For the latest financial news about " and then names the company |
| WebScraper.FinancialNewsNamesCompany | web_scraper.py:44-54 | the fixed message names the company at offset 36, is 92 characters longer than the name, and differs for different names |
| Text.Replace | web_scraper.py:33 | replacing one character keeps the length and changes exactly the occurrences of that character |
| Text.StripCharsSpec | research_engine.py:84 | `strip(chars)` yields the infix after the stripped prefix; everything removed is in the set; the result's ends are not |
| Text.StripCharsEmpty | research_engine.py:84 | `strip(chars)` yields the empty string exactly when every character is in the set |
| Text.LastIdempotent | research_engine.py:266 | `xs[-n:]` taken twice is taken once; it is empty only for an empty list; for positive n it is a suffix of at most n items |

## Left out

- The chat model's calls are parameters: the name extraction, the
  competitor analysis and the synthesis. So are their prompts, system
  prompts, model name and token limits.
- A reply whose content is None is not modelled. In the extraction it makes
  `.strip()` raise, which is the same as the call raising. In the competitor
  analysis and the synthesis it would be written as "None".
- `generate_competitor_analysis` is modelled only as its reply, or its
  "Could not generate competitor analysis: ..." message. The prompt it
  builds from sector, industry and name goes to the chat model and is not
  modelled.
- The market-data provider's name search and per-ticker record are
  parameters (`search`, `quote`). The provider is not part of this model.
- The download and main-text extraction of web pages are parameters.
- The message printed when a download fails (web_scraper.py:23) is not
  modelled.
- JSON rendering of the record and of the chat history is a parameter. The
  record's rendering may raise; the history's cannot.
- Number formatting (`/1e9`, `:.1f`, `:.2f`, `*100`, `:,`, `str()` of a
  float) is a parameter `figure`. Binary floating point and its rounding are
  not modelled; numbers are reals.
- Case mapping is ASCII only. Python's Unicode `lower`/`upper` on other
  letters is not modelled. This affects only the ticker guess: the fallback's
  keywords have no letter that case-insensitive matching relates to a
  character outside ASCII.
- Dictionary values are None, strings or numbers. Booleans, lists and other
  provider values are not modelled.
- Reading `OPENAI_API_KEY` at construction is not modelled, because it is
  environment I/O.
- The `is_followup` computation is not modelled, because its value is never
  used.
- The `except` branches that cannot be reached are not modelled:
  - "Web scraping error: ..." in `scrape_company_info`;
  - the inner `except: continue`, since `get_website_text_content` never
    raises;
  - the "Could not retrieve financial news" branch.
- The "the requested company" subject of the error report is kept in
  `ErrorSubject`. No path of `analyze_company` produces it, because name
  extraction never raises.
- The Streamlit front end is not part of this model.
- ResearchEngine.AnalyzeCompany: the stages run one after the other on
  values. Their timing, and the number of network calls, are not modelled.
