# wowsuchticker in Dafny

wowsuchticker is a small Go command-line program. Each run does the following:

- It opens an append-only log file, `$HOME/.wst_log`, or `.wst_log` when HOME is empty.
- It asks the Cryptsy public API for the single-market data of market 132 (DOGE).
- It retries a bad gateway (HTTP 502) up to RETRY_ATTEMPTS = 5 times, sleeping RETRY_DELAY = 5 seconds before each retry.
- It decodes the JSON reply and prints `<label> : <last trade price>` for the "DOGE" market.
- It writes timestamped diagnostic and success lines to the log.

This project models all of `main.go`:

- `api.dfy` (module `Api`):
  - the constants;
  - the response structures (`ApiResponse`, `MarketCollection`, `Market`, `Trade`, `Order`);
  - the DOGE lookup with Go's zero-value semantics for a missing map key;
  - the output line and the success log text;
  - `getLogFilePath`, with HOME as a parameter;
  - the request URL.
- `decimal.dfy` (module `Decimal`): how `%v` prints an `int`, with a parser and a round-trip proof.
- `fetch.dfy` (module `Fetcher`): `makeApiRequest`'s retry machine as a recursive function, `Fetch`.
  - The k-th HTTP request is answered by an abstract `server(k)`, a Go `(resp, err)` pair.
  - `Fetch` returns the result (body, nil, or the nil-dereference panic), the retry counter afterwards, the requests and sleeps it cost, and the diagnostics it logged.
  - The lemmas give each transition, the bounds, the 502 sequences, and the fact that the process-wide counter is never reset.
- `process.dfy`:
  - Module `Process`: class `Process` holds the package globals (`currentRetryCount`, the log file) and what the program does to the outside world (requests issued, seconds slept, standard output). Its methods are `writeLogLine`, `openLogFile`, `closeLogFile`, `makeApiRequest` (recursive, as in Go, and proved equal to `Fetch`) and `main` (`Tick`).
  - Module `Report`: lemmas about what `main` reports after decoding.
- `wrappers.dfy`: `Option`.

A transport error does not stop the fetch: `makeApiRequest` logs it, then reads `resp.StatusCode`. When the client returned no response, that read is a nil dereference and the program panics. When the client returned a response alongside the error (a failed redirect), the response's status is handled as usual. The model follows the code.

## Model

| member | source | states |
|---|---|---|
| Api.MarketAt | main.go:85-86 | indexing the decoded markets gives the stored market when the key is present, and a market with empty label, empty price and no trades when it is absent |
| Api.DogeQuote | main.go:85-86 | label and price are the "DOGE" market's `Label` and `LastTradePrice`; both are empty strings when the key is absent |
| Api.SuccessLogText | main.go:88-89 | the success log text is "SUCCESS: " followed by exactly the line printed on standard output |
| Api.ReportLine | main.go:89 | the printed line is the label, " : ", the price and a newline, each at its own position, and nothing else |
| Api.ReportLineRoundTrip | main.go:89 | the printed line `label : price\n` determines the quote whenever the price holds no ':' |
| Api.GetLogFilePath | main.go:125-136 | the path ends in ".wst_log"; it is exactly ".wst_log" iff HOME is empty; otherwise it is HOME, '/', ".wst_log" |
| Api.LogPathRoundTrip | main.go:125-136 | HOME can be recovered from the log path |
| Api.LogPathInjective | main.go:125-136 | different HOME values give different log paths |
| Api.RequestUrl | main.go:95 | the request URL is the API base URL followed by "132" |
| Decimal.IntToString | main.go:113 | `%v` of an int is non-empty and starts with '-' iff the number is negative |
| Decimal.IntToStringRoundTrip | main.go:113 | parsing the printed status gives back the status |
| Decimal.IntToStringInjective | main.go:113 | different statuses print differently |
| Fetcher.DiagnosticText | main.go:99-113 | every diagnostic line ends in a newline; a transport error's line is "ERROR OCCURRED DURING HTTP REQUEST: " followed by exactly the error text; a status line is "ERROR STATUS RETURNED: ", the status printed with `%v`, and a newline |
| Fetcher.ErrorStatusTextInjective | main.go:113 | the "ERROR STATUS RETURNED: <status>\n" line identifies the status |
| Fetcher.ClassifyTransitions | main.go:97-116 | one request retries iff it got a 502 and the bumped counter is still within 5; it gives a body iff the status is 200; it panics iff there is no response; the counter moves only on a 502; a transport error and a terminal non-502 status are each logged exactly once |
| Fetcher.FetchPanics | main.go:97-102 | with no response the call logs the transport error, then panics on the nil dereference, after one request |
| Fetcher.FetchSucceeds | main.go:102-122 | a 200 returns its body at once: one request, no sleep, counter unchanged |
| Fetcher.FetchRejects | main.go:112-115 | any status other than 200/502 logs "ERROR STATUS RETURNED" once and returns nil, with no retry |
| Fetcher.FetchGivesUp | main.go:104-107 | a 502 that pushes the counter past 5 returns nil with no sleep and no status log |
| Fetcher.FetchRetries | main.go:104-111 | a 502 within the budget costs one sleep, then repeats the call with the counter bumped |
| Fetcher.FetchBounds | main.go:104-111 | every call issues one request per sleep plus one; it sleeps at most the retries the counter has left; every request before the last was answered 502; the counter ends at its start plus the sleeps, plus one more exactly when the last reply is also a 502; that extra step happens only when the budget is exhausted, yielding nil |
| Fetcher.FetchResultFromLastReply | main.go:94-123 | the reply to the last request decides the result: a panic iff it has no response, the body iff it is a 200 (and then exactly its body), nil iff it has any other status; a nil after a 502 means the counter passed RETRY_ATTEMPTS |
| Fetcher.BadGatewayStep | main.go:104-111 | one plain 502 within the budget is one request and one sleep added to the next call |
| Fetcher.OkAfterBadGateways | main.go:102-122 | 502^n then a 200 returns the 200's body after n+1 requests and n sleeps, logging nothing |
| Fetcher.ErrorStatusAfterBadGateways | main.go:102-115 | 502^n then another non-200 status returns nil, logging exactly that status once |
| Fetcher.EndlessBadGateway | main.go:104-111 | endless 502s end in nil, silently, after RetriesLeft+1 requests and RetriesLeft sleeps |
| Fetcher.FreshEndlessBadGateway | main.go:104-111 | from a counter of 0, endless 502s cost exactly 6 requests and 5 sleeps and leave the counter at 6 |
| Fetcher.BodyComesFromOk | main.go:102-122 | conversely, a body is returned only for a 200 that follows an unbroken run of 502s, one per sleep |
| Fetcher.LaterCallsHaveFewerRetries | main.go:104-111 | the counter is never reset: a call leaves the next one no more retries than it had itself left, and two calls together sleep no more than the first could |
| Process.Process.constructor | main.go:20-23 | a fresh process has retry counter 0, no log file, and no requests, sleeps or output |
| Process.Process.WriteLogLine | main.go:157-168 | an open log gains exactly one entry `timestamp + " : " + text`, stamped with the next clock reading; a closed log is unchanged |
| Process.Written | main.go:157-168 | an open log gains exactly one entry, `clock(ticks) + " : " + text`, after all its old entries, and one clock reading; a closed log gains nothing; handle and path are unchanged |
| Process.WrittenAll | main.go:157-168 | writing a batch keeps the old entries as a prefix and adds one entry and one clock reading per text when open, none when closed; handle and path are unchanged |
| Process.WrittenAllSnoc | main.go:157-168 | writing a batch of texts is writeLogLine repeated: the empty batch changes nothing, and one more text is one more writeLogLine |
| Process.WrittenAllAppend | main.go:157-168 | writing a then b is writing a + b |
| Process.LogOnlyGrows | main.go:157-168 | the log only grows, and only while open: old entries stay a prefix; one entry per text is added when open and none when closed; handle and path never change |
| Process.AfterOpen | main.go:139-148 | a successful open gives an open handle at the given path holding the file's existing entries; a failed open leaves the log as it was; the clock readings are never touched |
| Process.OpenFailureText | main.go:143 | the failure message is "Couldn't open logfile for writing: " followed by exactly the error text and a newline |
| Process.Process.OpenLogFile | main.go:139-148 | the log is opened at GetLogFilePath(HOME); on failure it is left alone and "Couldn't open logfile for writing: <err>\n" is printed |
| Process.Process.CloseLogFile | main.go:151-155 | the handle is released, and nothing else about the log changes |
| Process.Process.LogDiagnostic | main.go:99-113 | logging a diagnostic is writing its text: the log becomes the old log with that one text written |
| Process.Process.LogTransportError | main.go:98-100 | the transport error, when there is one, is logged as "ERROR OCCURRED DURING HTTP REQUEST: <err>\n" |
| Process.AfterPanic | main.go:97-102 | with no response, the call's effect on the process is one request plus the transport error's log line |
| Process.AfterSuccess | main.go:102-122 | a 200's effect is one request, the transport error's log line if any, and the body as the result |
| Process.AfterGivingUp | main.go:104-107 | a 502 past the budget bumps the counter and costs one request, with no sleep |
| Process.AfterRejected | main.go:112-115 | another status costs one request and logs the transport error, if any, then the status line |
| Process.AfterRetry | main.go:104-111 | a 502 within the budget has the effect of one request, one 5-second sleep and the transport error's line, followed by the effects of the recursive call |
| Process.Process.MakeApiRequest | main.go:94-123 | the result, retry counter, requests issued, seconds slept and log are exactly those of `Fetch`, started from the current counter at the process's next request |
| Process.DecodeErrorText | main.go:82 | the decode error's log text is "Error occurred while parsing api response data: " followed by exactly the error text and a newline |
| Process.ReportTexts | main.go:81-88 | after decoding, main logs two texts when decoding failed and one otherwise: the decode error's text first, and always last the success text "SUCCESS: " + the printed line |
| Process.Process.Report | main.go:80-89 | after decoding, the log gains the decode error (if any) and then the success text; standard output gains the quote line |
| Process.Process.Tick | main.go:72-90 | `main`: open the log; fetch; on a panic, close the log (the deferred close) and report nothing more; otherwise decode, log the decode error if any, log and print the quote, close. Counter, requests, sleeps, log and output are stated in terms of `Fetch` |
| Report.QuoteReportedDespiteDecodeError | main.go:80-89 | a decode error changes nothing about the quote: it adds exactly one log text, ahead of what an error-free decode of the same value logs |
| Report.BlankQuoteWithoutDoge | main.go:85-89 | without a "DOGE" market the printed line is " : \n" and the log text is "SUCCESS:  : \n" |
| Report.NilPayloadReport | main.go:76-89 | when the decoder rejects the empty payload of a nil fetch and leaves the zero response, the log gets the decode error then "SUCCESS:  : \n" and standard output " : \n" |

## Left out

- HTTP transport is the oracle `server: nat -> HttpReply`, indexed by the process's request number. Reading the body is not modelled, nor is closing it. The body of a 200 is the bytes the reply carries. The ignored `ioutil.ReadAll` error is not modelled, and neither is the body left unclosed on non-200 replies.
- The case where `http.Get` returns an error and no response is modelled as written: the error is logged, then `resp.StatusCode` dereferences nil and the program panics (`Panic`). Go's panic message and exit status are not modelled. The deferred close still runs.
- `json.Unmarshal` is the parameter `unmarshal: seq<byte> -> Decoded`, giving the (possibly partial) response and an optional error. JSON decoding itself is not modelled. A nil payload is the empty byte sequence.
- `time.Now` is the class constant `clock: nat -> string`, indexed by the number of clock readings the log writer has taken. `time.Sleep` is counted in `sleptSeconds` and does not wait.
- `os.Getenv("HOME")` is the parameter `home`. `os.OpenFile` is the parameter `openFile`, which either fails with an error text or yields the entries the file already holds. File permissions and flags are not modelled.
- Process.Process.WriteLogLine: write errors from `logFile.Write` are not modelled. In Go they print "ERROR WRITING TO LOGFILE:" and the error, and the entry is lost. The model assumes every write to an open file succeeds.
- Process.Process.CloseLogFile: Go closes the file but leaves `logFile` non-nil. A later write would then fail with a write error. The model marks the handle closed, so such a write changes nothing. `main` writes nothing after the close.
- Process.Process.MakeApiRequest: `currentRetryCount` is a Go `int`. Its 64-bit overflow is not modelled; it would need more than 2^63 calls.
- Concurrency is not modelled: the program is single-threaded.
