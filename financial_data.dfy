/** The financial-data stage: resolving a company name to a ticker, building
    the financial record from the market-data provider's answer, and
    rendering that record as bullet lines. The provider's name search and
    its per-ticker record are parameters; either may raise. */
module FinancialData {
  import opened Text
  import opened Values

  /** Well-known issuers resolved without the provider's search, keyed by
      lower-case name. */
  const TickerMap: map<string, string> := map[
    "apple" := "AAPL", "microsoft" := "MSFT", "google" := "GOOGL",
    "amazon" := "AMZN", "tesla" := "TSLA", "meta" := "META",
    "netflix" := "NFLX", "nvidia" := "NVDA", "facebook" := "META",
    "alphabet" := "GOOGL", "ford" := "F", "general motors" := "GM"
  ]

  /** The ticker for a name, given the symbols of the provider's search
      results: the first result's symbol; else the map entry for the
      lower-cased name; else the name upper-cased, as a literal guess. */
  function ResolveTicker(name: string, hits: seq<string>): (ticker: string)
    ensures hits != [] ==> ticker == hits[0]
    ensures hits == [] && Lower(name) in TickerMap ==> ticker == TickerMap[Lower(name)]
    ensures hits == [] && Lower(name) !in TickerMap ==> |ticker| == |name| && Lower(ticker) == Lower(name)
  {
    if hits != [] then hits[0]
    else if Lower(name) in TickerMap then TickerMap[Lower(name)]
    else UpperIsUpper(name); Upper(name)
  }

  /** Without search results, resolution ignores the case of the name: two
      names that agree when lower-cased get the same ticker, from the map
      or as the same upper-cased guess. */
  lemma ResolveTickerIgnoresCase(name: string, other: string)
    requires Lower(name) == Lower(other)
    ensures ResolveTicker(name, []) == ResolveTicker(other, [])
  {
    if Lower(name) !in TickerMap {
      UpperOfLower(name);
      UpperOfLower(other);
    }
  }

  /** An unmapped name comes back as its own upper-case form: no lower-case
      letter left, and the same name once case is ignored. */
  lemma UnmappedNameIsItsOwnTicker(name: string)
    requires Lower(name) !in TickerMap
    ensures var ticker := ResolveTicker(name, []);
            && |ticker| == |name|
            && (forall i :: 0 <= i < |ticker| ==> !IsAsciiLower(ticker[i]))
            && Lower(ticker) == Lower(name)
  {
    UpperIsUpper(name);
  }

  /** A search result always wins over the map. */
  lemma SearchHitWins(name: string, hits: seq<string>)
    requires hits != []
    ensures ResolveTicker(name, hits) == hits[0]
  {
  }

  /** Examples of the map: case does not matter, and Facebook resolves to
      Meta's ticker. */
  lemma MappedTickers()
    ensures ResolveTicker("Tesla", []) == "TSLA" && ResolveTicker("TESLA", []) == "TSLA"
    ensures ResolveTicker("facebook", []) == "META" && ResolveTicker("meta", []) == "META"
    ensures ResolveTicker("General Motors", []) == "GM"
  {
    assert Lower("Tesla") == "tesla";
    assert Lower("TESLA") == "tesla";
    assert Lower("facebook") == "facebook";
    assert Lower("meta") == "meta";
    assert Lower("General Motors") == "general motors";
  }

  /** An unmapped name is its own ticker, upper-cased. */
  lemma UnmappedTickerExample()
    ensures ResolveTicker("Rivian", []) == "RIVIAN"
  {
    assert Lower("Rivian") == "rivian";
    assert "rivian" !in TickerMap;
    assert Upper("Rivian") == "RIVIAN";
  }

  /** The headquarters string: `f"{city}, {state} {country}".strip(', ')`,
      where an absent part is the empty string. */
  function HeadquartersText(info: map<string, Value>, figure: Figures): (headquarters: string)
    ensures headquarters == [] || (headquarters[0] !in {',', ' '} && headquarters[|headquarters| - 1] !in {',', ' '})
  {
    var raw := Show(Get(info, "city", Str("")), figure) + ", " +
               Show(Get(info, "state", Str("")), figure) + " " +
               Show(Get(info, "country", Str("")), figure);
    StripCharsSpec(raw, {',', ' '});
    StripChars(raw, {',', ' '})
  }

  /** With no city, state or country the headquarters is empty. */
  lemma HeadquartersWhenUnknown(info: map<string, Value>, figure: Figures)
    requires Get(info, "city", Str("")) == Str("")
    requires Get(info, "state", Str("")) == Str("")
    requires Get(info, "country", Str("")) == Str("")
    ensures HeadquartersText(info, figure) == ""
  {
    var s := Show(Get(info, "city", Str("")), figure) + ", " +
             Show(Get(info, "state", Str("")), figure) + " " +
             Show(Get(info, "country", Str("")), figure);
    assert s == ",  ";
    assert forall k :: 0 <= k < |s| ==> s[k] in {',', ' '};
  }

  /** With all three parts known, and neither the city's first character nor
      the country's last one a comma or space, nothing is stripped. */
  lemma HeadquartersWhenKnown(info: map<string, Value>, figure: Figures, city: string, state: string, country: string)
    requires Get(info, "city", Str("")) == Str(city) && city != [] && city[0] !in {',', ' '}
    requires Get(info, "state", Str("")) == Str(state)
    requires Get(info, "country", Str("")) == Str(country) && country != [] && country[|country| - 1] !in {',', ' '}
    ensures HeadquartersText(info, figure) == city + ", " + state + " " + country
  {
    var s := city + ", " + state + " " + country;
    assert s[0] == city[0];
    assert s[|s| - 1] == country[|country| - 1];
    StripCharsKeepsClean(s, {',', ' '});
  }

  /** The keys of a financial record: `error` and the fourteen profile keys
      (`ticker`, `company_name`, ...), and any other key a caller's
      dictionary may hold. */
  datatype Key =
    | Error | Ticker | CompanyName | MarketCap | Revenue | Sector | Industry | Employees
    | Website | BusinessSummary | CurrentPrice | PeRatio | ProfitMargin | RevenueGrowth
    | Headquarters | OtherKey(name: string)

  /** A financial record, the dictionary the stages pass along. */
  type Record = map<Key, Value>

  /** The keys of a record built from a provider answer: every key but
      `error` and the keys of no stage. */
  predicate IsProfileKey(k: Key) {
    !k.Error? && !k.OtherKey?
  }

  /** The record that stands for a failed fetch. */
  function FetchError(reason: string): (data: Record)
    ensures data.Keys == {Error} && data[Error].Str?
  {
    map[Error := Str("Could not retrieve financial data: " + reason)]
  }

  /** The record built from the provider's answer `info` for `ticker`; the
      company name defaults to the name that was looked up. */
  function Profile(name: string, ticker: string, info: map<string, Value>, headquarters: string): (data: Record)
    ensures forall k :: IsProfileKey(k) ==> k in data
    ensures Error !in data && forall n :: OtherKey(n) !in data
    ensures Ticker in data && data[Ticker] == Str(ticker)
    ensures CompanyName in data && data[CompanyName] == Get(info, "longName", Str(name))
  {
    map[
      Ticker := Str(ticker),
      CompanyName := Get(info, "longName", Str(name)),
      MarketCap := Get(info, "marketCap", Nil),
      Revenue := Get(info, "totalRevenue", Nil),
      Sector := Get(info, "sector", Nil),
      Industry := Get(info, "industry", Nil),
      Employees := Get(info, "fullTimeEmployees", Nil),
      Website := Get(info, "website", Nil),
      BusinessSummary := Get(info, "longBusinessSummary", Nil),
      CurrentPrice := Get(info, "currentPrice", Nil),
      PeRatio := Get(info, "trailingPE", Nil),
      ProfitMargin := Get(info, "profitMargins", Nil),
      RevenueGrowth := Get(info, "revenueGrowth", Nil),
      Headquarters := Str(headquarters)
    ]
  }

  /** `record.get(key, default)` */
  function Lookup(data: Record, key: Key, default: Value): Value {
    if key in data then data[key] else default
  }

  /** The financial record for a company name. `search` is the provider's
      name search (the symbols of its result rows) and `quote` the
      provider's record for a ticker. When either raises, the record holds
      only an `error` entry naming the reason; otherwise it holds exactly the
      fourteen profile entries, with the resolved ticker and, as company
      name, the provider's long name or else the name looked up. */
  function GetFinancialData(name: string, search: Outcome<seq<string>>, quote: string -> Outcome<map<string, Value>>, figure: Figures): (data: Record)
    ensures Error in data <==> search.Raised? || quote(ResolveTicker(name, search.value)).Raised?
    ensures Error in data ==> data.Keys == {Error} && data[Error].Str?
    ensures Error !in data ==> forall k :: k in data <==> IsProfileKey(k)
    ensures search.Ok? && quote(ResolveTicker(name, search.value)).Ok? ==>
              && Ticker in data && CompanyName in data
              && data[Ticker] == Str(ResolveTicker(name, search.value))
              && data[CompanyName] == Get(quote(ResolveTicker(name, search.value)).value, "longName", Str(name))
  {
    match search
    case Raised(e) => FetchError(e)
    case Ok(hits) =>
      var ticker := ResolveTicker(name, hits);
      match quote(ticker)
      case Raised(e) => FetchError(e)
      case Ok(info) => Profile(name, ticker, info, HeadquartersText(info, figure))
  }

  /** One numeric bullet of the highlights: the record key it shows, the
      text before the number, the number's format and the unit after it. */
  datatype Bullet = Bullet(key: Key, caption: string, format: NumberFormat, unit: string)

  /** The numeric bullets, in the order they are written. */
  const MarketCapBullet := Bullet(MarketCap, "- Market Cap: $", Billions1, "B")
  const RevenueBullet := Bullet(Revenue, "- Annual Revenue: $", Billions1, "B")
  const PriceBullet := Bullet(CurrentPrice, "- Stock Price: $", Fixed2, "")
  const PeRatioBullet := Bullet(PeRatio, "- P/E Ratio: ", Fixed1, "")
  const MarginBullet := Bullet(ProfitMargin, "- Profit Margin: ", Percent1, "%")
  const EmployeesBullet := Bullet(Employees, "- Employees: ", Grouped, "")

  /** The numeric bullets, in the order they are written. */
  const NumericBullets: seq<Bullet> := [
    MarketCapBullet, RevenueBullet, PriceBullet,
    PeRatioBullet, MarginBullet, EmployeesBullet
  ]

  const HighlightsHeader := "**Financial Highlights:**\n"

  /** The rendered text, or the key whose value could not be formatted: a
      non-empty string where a number belongs makes the division or the
      number format raise. */
  datatype Formatted = Formatted(text: string) | Unformattable(key: Key)

  function BulletLine(b: Bullet, x: real, figure: Figures): string {
    b.caption + figure(b.format, x) + b.unit + "\n"
  }

  /** One `if` of the formatting: a falsy value adds nothing, a number adds
      its line, and any other value makes the formatting raise; once it has
      raised, nothing more is added. */
  function AddBullet(acc: Formatted, b: Bullet, data: Record, figure: Figures): Formatted {
    if acc.Unformattable? then acc
    else
      var v := Lookup(data, b.key, Nil);
      if !Truthy(v) then acc
      else if !v.Num? then Unformattable(b.key)
      else Formatted(acc.text + BulletLine(b, v.x, figure))
  }

  /** The bullets added to `acc` in order. A failure names a key of the
      table whose value is a non-empty string. */
  function AddBullets(acc: Formatted, bullets: seq<Bullet>, data: Record, figure: Figures): (f: Formatted)
    ensures acc.Unformattable? ==> f == acc
    ensures acc.Formatted? && f.Unformattable? ==> exists i :: 0 <= i < |bullets| && bullets[i].key == f.key
    ensures acc.Formatted? && f.Unformattable? ==> f.key in data && data[f.key].Str? && data[f.key].s != []
    ensures acc.Formatted? && f.Formatted? ==> acc.text <= f.text
    decreases |bullets|
  {
    if bullets == [] then acc
    else AddBullets(AddBullet(acc, bullets[0], data, figure), bullets[1..], data, figure)
  }

  function HeadquartersLine(data: Record, figure: Figures): string {
    var hq := Lookup(data, Headquarters, Nil);
    if Truthy(hq) then "- Headquarters: " + Show(hq, figure) + "\n" else ""
  }

  /** The display text of a financial record: the error line when the
      record carries `error`, whatever else it holds; otherwise the header
      followed by one line per truthy field, in the fixed order market cap,
      revenue, price, P/E, margin, employees, headquarters. */
  function FinancialSummary(data: Record, figure: Figures): Formatted {
    if Error in data then Formatted("**Financial Data:** " + Show(data[Error], figure))
    else
      match AddBullets(Formatted(HighlightsHeader), NumericBullets, data, figure)
      case Unformattable(key) => Unformattable(key)
      case Formatted(text) => Formatted(text + HeadquartersLine(data, figure))
  }

  /** An `error` entry decides the text alone: every other field of the
      record is ignored. */
  lemma ErrorSupersedesFields(data: Record, reason: string, figure: Figures)
    requires Error in data && data[Error] == Str(reason)
    ensures FinancialSummary(data, figure) == Formatted("**Financial Data:** " + reason)
    ensures FinancialSummary(data, figure) == FinancialSummary(map[Error := Str(reason)], figure)
  {
  }

  /** Without an error, a rendered summary starts with the highlights header
      and the bullets follow it. */
  lemma SummaryStartsWithHeader(data: Record, figure: Figures)
    requires Error !in data && FinancialSummary(data, figure).Formatted?
    ensures HighlightsHeader <= FinancialSummary(data, figure).text
  {
    var lines := AddBullets(Formatted(HighlightsHeader), NumericBullets, data, figure);
    assert HighlightsHeader <= lines.text;
    assert FinancialSummary(data, figure).text == lines.text + HeadquartersLine(data, figure);
  }

  /** The lines depend only on the listed keys: two records that agree on
      them render the same. */
  lemma {:induction false} AddBulletsReadOnlyTheirKeys(acc: Formatted, bullets: seq<Bullet>, data: Record, other: Record, figure: Figures)
    requires forall i :: 0 <= i < |bullets| ==> Lookup(data, bullets[i].key, Nil) == Lookup(other, bullets[i].key, Nil)
    ensures AddBullets(acc, bullets, data, figure) == AddBullets(acc, bullets, other, figure)
    decreases |bullets|
  {
    if bullets != [] {
      assert forall i :: 0 <= i < |bullets| - 1 ==> bullets[1..][i] == bullets[i + 1];
      assert AddBullet(acc, bullets[0], data, figure) == AddBullet(acc, bullets[0], other, figure);
      AddBulletsReadOnlyTheirKeys(AddBullet(acc, bullets[0], data, figure), bullets[1..], data, other, figure);
    }
  }

  /** A falsy value (`None`, `""`, `0`) renders exactly as an absent one. */
  lemma {:induction false} AddBulletsSkipFalsy(acc: Formatted, bullets: seq<Bullet>, data: Record, key: Key, figure: Figures)
    requires key in data && !Truthy(data[key])
    ensures AddBullets(acc, bullets, data, figure) == AddBullets(acc, bullets, data - {key}, figure)
    decreases |bullets|
  {
    if bullets != [] {
      assert AddBullet(acc, bullets[0], data, figure) == AddBullet(acc, bullets[0], data - {key}, figure);
      AddBulletsSkipFalsy(AddBullet(acc, bullets[0], data, figure), bullets[1..], data, key, figure);
    }
  }

  /** A falsy field is omitted exactly as a missing one: removing it from the
      record changes nothing. */
  lemma SummaryOmitsFalsyFields(data: Record, key: Key, figure: Figures)
    requires key in data && key != Error && !Truthy(data[key])
    ensures FinancialSummary(data, figure) == FinancialSummary(data - {key}, figure)
  {
    AddBulletsSkipFalsy(Formatted(HighlightsHeader), NumericBullets, data, key, figure);
  }

  /** The summary reads nothing but `error` and the seven displayed fields:
      two records that agree on them render the same. */
  lemma SummaryReadsOnlyDisplayedFields(data: Record, other: Record, figure: Figures)
    requires (Error in data) == (Error in other)
    requires Error in data ==> data[Error] == other[Error]
    requires forall i :: 0 <= i < |NumericBullets| ==> Lookup(data, NumericBullets[i].key, Nil) == Lookup(other, NumericBullets[i].key, Nil)
    requires Lookup(data, Headquarters, Nil) == Lookup(other, Headquarters, Nil)
    ensures FinancialSummary(data, figure) == FinancialSummary(other, figure)
  {
    AddBulletsReadOnlyTheirKeys(Formatted(HighlightsHeader), NumericBullets, data, other, figure);
  }

  /** A failed fetch renders as the single error line naming the reason. */
  lemma FailedFetchSummary(name: string, reason: string, quote: string -> Outcome<map<string, Value>>, figure: Figures)
    ensures FinancialSummary(GetFinancialData(name, Raised(reason), quote, figure), figure)
            == Formatted("**Financial Data:** " + "Could not retrieve financial data: " + reason)
  {
    var data := GetFinancialData(name, Raised(reason), quote, figure);
    assert data == FetchError(reason);
    assert Show(data[Error], figure) == "Could not retrieve financial data: " + reason;
  }

  /** No error, and every displayed field absent or falsy. */
  predicate NothingToShow(data: Record) {
    && Error !in data
    && !Truthy(Lookup(data, MarketCap, Nil)) && !Truthy(Lookup(data, Revenue, Nil))
    && !Truthy(Lookup(data, CurrentPrice, Nil)) && !Truthy(Lookup(data, PeRatio, Nil))
    && !Truthy(Lookup(data, ProfitMargin, Nil)) && !Truthy(Lookup(data, Employees, Nil))
    && !Truthy(Lookup(data, Headquarters, Nil))
  }

  /** A record without error whose displayed fields are all falsy renders
      as the bare header: no placeholder stands in for missing data. */
  lemma SummaryOfMissingData(data: Record, figure: Figures)
    requires NothingToShow(data)
    ensures FinancialSummary(data, figure) == Formatted(HighlightsHeader)
  {
    AddSixBullets(Formatted(HighlightsHeader), data, figure);
  }

  /** The six bullet lines as the source spells them out. */
  lemma BulletLines(x: real, figure: Figures)
    ensures BulletLine(MarketCapBullet, x, figure) == "- Market Cap: $" + figure(Billions1, x) + "B\n"
    ensures BulletLine(RevenueBullet, x, figure) == "- Annual Revenue: $" + figure(Billions1, x) + "B\n"
    ensures BulletLine(PriceBullet, x, figure) == "- Stock Price: $" + figure(Fixed2, x) + "\n"
    ensures BulletLine(PeRatioBullet, x, figure) == "- P/E Ratio: " + figure(Fixed1, x) + "\n"
    ensures BulletLine(MarginBullet, x, figure) == "- Profit Margin: " + figure(Percent1, x) + "%\n"
    ensures BulletLine(EmployeesBullet, x, figure) == "- Employees: " + figure(Grouped, x) + "\n"
  {
  }

  /** A provider answer with no fields leaves every displayed field of the
      record absent. */
  lemma EmptyAnswerProfile(name: string, ticker: string, headquarters: string)
    ensures var data := Profile(name, ticker, map[], headquarters);
            && data[MarketCap] == Nil && data[Revenue] == Nil && data[CurrentPrice] == Nil
            && data[PeRatio] == Nil && data[ProfitMargin] == Nil && data[Employees] == Nil
            && data[Headquarters] == Str(headquarters)
            && (headquarters == "" ==> NothingToShow(data))
  {
  }

  /** A provider answer with no fields at all renders as the bare header. */
  lemma EmptyAnswerSummary(name: string, hits: seq<string>, quote: string -> Outcome<map<string, Value>>, figure: Figures)
    requires quote(ResolveTicker(name, hits)) == Ok(map[])
    ensures FinancialSummary(GetFinancialData(name, Ok(hits), quote, figure), figure) == Formatted(HighlightsHeader)
  {
    var ticker := ResolveTicker(name, hits);
    var headquarters := HeadquartersText(map[], figure);
    HeadquartersWhenUnknown(map[], figure);
    var data := Profile(name, ticker, map[], headquarters);
    assert GetFinancialData(name, Ok(hits), quote, figure) == data;
    EmptyAnswerProfile(name, ticker, headquarters);
    SummaryOfMissingData(data, figure);
  }

  /** The table written out: adding the six bullets is six `if`s in a row. */
  lemma AddSixBullets(acc: Formatted, data: Record, figure: Figures)
    ensures AddBullets(acc, NumericBullets, data, figure) ==
            AddBullet(AddBullet(AddBullet(AddBullet(AddBullet(AddBullet(acc,
              MarketCapBullet, data, figure), RevenueBullet, data, figure),
              PriceBullet, data, figure), PeRatioBullet, data, figure),
              MarginBullet, data, figure), EmployeesBullet, data, figure)
  {
    var a1 := AddBullet(acc, MarketCapBullet, data, figure);
    var a2 := AddBullet(a1, RevenueBullet, data, figure);
    var a3 := AddBullet(a2, PriceBullet, data, figure);
    var a4 := AddBullet(a3, PeRatioBullet, data, figure);
    var a5 := AddBullet(a4, MarginBullet, data, figure);
    var rest := [RevenueBullet, PriceBullet, PeRatioBullet, MarginBullet, EmployeesBullet];
    assert NumericBullets[1..] == rest;
    assert rest[1..][1..][1..][1..][1..] == [];
    calc {
      AddBullets(acc, NumericBullets, data, figure);
      AddBullets(a1, rest, data, figure);
      AddBullets(a2, rest[1..], data, figure);
      AddBullets(a3, rest[1..][1..], data, figure);
      AddBullets(a4, rest[1..][1..][1..], data, figure);
      AddBullets(a5, rest[1..][1..][1..][1..], data, figure);
      AddBullet(a5, EmployeesBullet, data, figure);
    }
  }

  /** One `if` of `format_financial_data`: the bullet's line is appended
      when its value is truthy; a truthy value that is not a number makes the
      arithmetic or the number format raise. */
  method AppendBullet(formatted: string, b: Bullet, data: Record, figure: Figures) returns (r: Formatted)
    ensures r == AddBullet(Formatted(formatted), b, data, figure)
  {
    var value := Lookup(data, b.key, Nil);
    if !Truthy(value) {
      return Formatted(formatted);
    }
    if !value.Num? {
      return Unformattable(b.key);
    }
    return Formatted(formatted + (b.caption + figure(b.format, value.x) + b.unit + "\n"));
  }

  /** `format_financial_data`: the error line, or the header, one line per
      truthy numeric field in table order and the headquarters line. */
  method FormatFinancialData(data: Record, figure: Figures) returns (f: Formatted)
    ensures f == FinancialSummary(data, figure)
  {
    if Error in data {
      return Formatted("**Financial Data:** " + Show(data[Error], figure));
    }
    AddSixBullets(Formatted(HighlightsHeader), data, figure);

    var formatted := HighlightsHeader;
    var step := AppendBullet(formatted, MarketCapBullet, data, figure);
    if step.Unformattable? { return step; }
    step := AppendBullet(step.text, RevenueBullet, data, figure);
    if step.Unformattable? { return step; }
    step := AppendBullet(step.text, PriceBullet, data, figure);
    if step.Unformattable? { return step; }
    step := AppendBullet(step.text, PeRatioBullet, data, figure);
    if step.Unformattable? { return step; }
    step := AppendBullet(step.text, MarginBullet, data, figure);
    if step.Unformattable? { return step; }
    step := AppendBullet(step.text, EmployeesBullet, data, figure);
    if step.Unformattable? { return step; }
    formatted := step.text;

    var headquarters := Lookup(data, Headquarters, Nil);
    if Truthy(headquarters) {
      formatted := formatted + ("- Headquarters: " + Show(headquarters, figure) + "\n");
    }
    return Formatted(formatted);
  }
}
