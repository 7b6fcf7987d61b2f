/**
 * The ticker's data model and its pure steps: the decoded API response, the
 * lookup of the "DOGE" market with Go's zero-value semantics, the report line
 * and log text built from it, the request URL and the log file path.
 */
module Api {
  import opened Wrappers
  import Decimal

  const API_URL: string := "http://pubapi.cryptsy.com/api.php?method=singlemarketdata&marketid="
  const DOGE_ID: int := 132
  /** Bad-gateway replies tolerated per process before the fetch gives up. */
  const RETRY_ATTEMPTS: nat := 5
  /** Seconds slept before each retry. */
  const RETRY_DELAY: nat := 5
  const LOG_FILE_NAME: string := ".wst_log"
  /** The market whose quote is reported. */
  const DOGE_KEY: string := "DOGE"

  newtype byte = x: int | 0 <= x < 256

  // Field names are those of the JSON schema's Go structs. The numeric fields arrive as text and are never converted.
  datatype Trade = Trade(Id: string, Time: string, Price: string, Quantity: string, Total: string)

  datatype Order = Order(Price: string, Quantity: string, Total: string)

  datatype Market = Market(
    MarketId: string,
    Label: string,
    LastTradePrice: string,
    Volume: string,
    LastTradeTime: string,
    PrimaryName: string,
    PrimaryCode: string,
    SecondaryName: string,
    SecondaryCode: string,
    RecentTrades: seq<Trade>,
    SellOrders: seq<Order>,
    BuyOrders: seq<Order>)

  datatype MarketCollection = MarketCollection(Markets: map<string, Market>)

  datatype ApiResponse = ApiResponse(Success: int, Return: MarketCollection)

  /** Go's zero value of a Market: every string empty, every slice nil. */
  const ZeroMarket: Market := Market("", "", "", "", "", "", "", "", "", [], [], [])

  /** Go's zero value of an ApiResponse; a nil map reads as an empty one. */
  const ZeroApiResponse: ApiResponse := ApiResponse(0, MarketCollection(map[]))

  /** The two fields the program reports. */
  datatype Quote = Quote(Label: string, Price: string)

  /** `m[key]` on a Go map: the stored market, or the zero value when the key is absent. */
  function MarketAt(m: map<string, Market>, key: string): (market: Market)
    ensures key in m ==> market == m[key]
    ensures key !in m ==> market.Label == "" && market.LastTradePrice == "" && market.RecentTrades == []
  {
    if key in m then m[key] else ZeroMarket
  }

  /** The label and last trade price read from the "DOGE" entry of a decoded response. */
  function DogeQuote(resp: ApiResponse): (q: Quote)
    ensures DOGE_KEY in resp.Return.Markets ==>
      q.Label == resp.Return.Markets[DOGE_KEY].Label &&
      q.Price == resp.Return.Markets[DOGE_KEY].LastTradePrice
    ensures DOGE_KEY !in resp.Return.Markets ==> q == Quote("", "")
  {
    var m := MarketAt(resp.Return.Markets, DOGE_KEY);
    Quote(m.Label, m.LastTradePrice)
  }

  /** The line printed on standard output: `<label> : <price>` and a newline. */
  function ReportLine(q: Quote): (line: string)
    ensures |line| == |q.Label| + |q.Price| + 4
    ensures line[..|q.Label|] == q.Label && line[|q.Label| + 3..|line| - 1] == q.Price
    ensures line[|q.Label|..|q.Label| + 3] == " : " && line[|line| - 1] == '\n'
  {
    q.Label + " : " + q.Price + "\n"
  }

  /** The text handed to the log after the lookup. */
  function SuccessLogText(q: Quote): (t: string)
    ensures t == "SUCCESS: " + ReportLine(q)
  {
    "SUCCESS: " + q.Label + " : " + q.Price + "\n"
  }

  /** The last index of ':' in `s`, if any. */
  function LastColon(s: string): (r: Option<nat>)
    ensures r.Some? ==>
      && r.value < |s| && s[r.value] == ':'
      && forall i :: r.value < i < |s| ==> s[i] != ':'
    ensures r.None? ==> forall i :: 0 <= i < |s| ==> s[i] != ':'
  {
    if s == [] then None
    else if s[|s| - 1] == ':' then Some(|s| - 1)
    else LastColon(s[..|s| - 1])
  }

  /**
   * Reads a report line back: the label is everything before the last " : ",
   * the price what follows it up to the final newline.
   */
  function ParseReportLine(line: string): Option<Quote> {
    match LastColon(line)
    case None => None
    case Some(j) =>
      if 1 <= j && j + 2 <= |line| - 1 && line[j - 1] == ' ' && line[j + 1] == ' ' && line[|line| - 1] == '\n'
      then Some(Quote(line[..j - 1], line[j + 2..|line| - 1]))
      else None
  }

  /**
   * The printed line determines the quote whenever the price holds no ':'
   * (a decimal price never does); the label may contain anything.
   */
  lemma ReportLineRoundTrip(q: Quote)
    requires forall i :: 0 <= i < |q.Price| ==> q.Price[i] != ':'
    ensures ParseReportLine(ReportLine(q)) == Some(q)
  {
    var line := ReportLine(q);
    var j := |q.Label| + 1;
    assert line[j] == ':';
    assert forall i :: j < i < |line| ==> line[i] != ':' by {
      forall i | j < i < |line| ensures line[i] != ':' {
        if i == j + 1 || i == |line| - 1 {
        } else {
          assert line[i] == q.Price[i - j - 2];
        }
      }
    }
    var r := LastColon(line);
    assert r == Some(j);
    assert line[..j - 1] == q.Label;
    assert line[j + 2..|line| - 1] == q.Price;
  }

  /**
   * The log path: `<HOME>/.wst_log`, or `.wst_log` in the working directory
   * when HOME is empty. The environment lookup is the parameter `home`.
   */
  function GetLogFilePath(home: string): (path: string)
    ensures |path| >= |LOG_FILE_NAME| && path[|path| - |LOG_FILE_NAME|..] == LOG_FILE_NAME
    ensures path == LOG_FILE_NAME <==> home == ""
    ensures home != "" ==>
      && |path| == |home| + 1 + |LOG_FILE_NAME|
      && path[..|home|] == home && path[|home|] == '/'
  {
    if home != "" then home + "/" + LOG_FILE_NAME else LOG_FILE_NAME
  }

  /** Recovers HOME from a path GetLogFilePath produced. */
  function HomeOfLogPath(path: string): string
    requires path == LOG_FILE_NAME || |path| > |LOG_FILE_NAME|
  {
    if path == LOG_FILE_NAME then "" else path[..|path| - |LOG_FILE_NAME| - 1]
  }

  lemma LogPathRoundTrip(home: string)
    ensures HomeOfLogPath(GetLogFilePath(home)) == home
  {
    if home != "" {
      assert GetLogFilePath(home)[..|home|] == home;
    }
  }

  /** Different HOME values never share a log file. */
  lemma LogPathInjective(h1: string, h2: string)
    requires GetLogFilePath(h1) == GetLogFilePath(h2)
    ensures h1 == h2
  {
    LogPathRoundTrip(h1);
    LogPathRoundTrip(h2);
  }

  /** The request target: the base URL followed by the market id printed with `%v`. */
  function RequestUrl(): (url: string)
    ensures url == "http://pubapi.cryptsy.com/api.php?method=singlemarketdata&marketid=132"
  {
    assert Decimal.NatToString(1) == "1";
    assert Decimal.NatToString(13) == "13";
    assert Decimal.NatToString(132) == "132";
    API_URL + Decimal.IntToString(DOGE_ID)
  }
}
