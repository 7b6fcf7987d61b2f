/**
 * The program's package-level state and the operations that change it: the
 * retry counter shared by every makeApiRequest call, the log file with what
 * has been appended to it, and the program's observable effects (requests
 * issued, seconds slept, lines printed). `main` is the method Tick.
 */
module Process {
  import opened Wrappers
  import opened Api
  import opened Fetcher

  /** What the operating system answers when asked to open a path for appending. */
  datatype OpenReply = Opened(entries: seq<string>) | OpenFailed(err: string)

  /** What json.Unmarshal leaves behind: the (possibly partly filled) response and its error, if any. */
  datatype Decoded = Decoded(value: ApiResponse, err: Option<string>)

  /**
   * The log file as the process sees it: whether the handle is open, the path
   * it was opened at, the entries the file holds, and how many clock readings
   * the log writer has taken.
   */
  datatype LogFile = LogFile(open: bool, path: string, entries: seq<string>, ticks: nat)

  const NoLogFile := LogFile(false, "", [], 0)

  /** One log entry: the timestamp, " : ", then the text. */
  function LogEntry(timestamp: string, text: string): string {
    timestamp + " : " + text
  }

  /** writeLogLine's effect: when open, one entry stamped with the next clock reading; otherwise nothing. */
  function Written(log: LogFile, clock: nat -> string, text: string): (r: LogFile)
    ensures r.open == log.open && r.path == log.path && log.entries <= r.entries
    ensures |r.entries| == |log.entries| + (if log.open then 1 else 0) && r.ticks == log.ticks + |r.entries| - |log.entries|
    ensures log.open ==> r.entries[|log.entries|] == LogEntry(clock(log.ticks), text)
  {
    if log.open then log.(entries := log.entries + [LogEntry(clock(log.ticks), text)], ticks := log.ticks + 1)
    else log
  }

  /**
   * The log after writing `texts` one after another: an open log gains their
   * entries, stamped with consecutive clock readings; a closed one is left
   * alone. WrittenAllSnoc shows this is writeLogLine repeated.
   */
  function WrittenAll(log: LogFile, clock: nat -> string, texts: seq<string>): (r: LogFile)
    ensures r.open == log.open && r.path == log.path && log.entries <= r.entries
    ensures |r.entries| == |log.entries| + (if log.open then |texts| else 0) && r.ticks == log.ticks + |r.entries| - |log.entries|
  {
    if log.open then log.(entries := log.entries + Stamped(clock, log.ticks, texts), ticks := log.ticks + |texts|) else log
  }

  /** The entries `texts` become when written from clock reading `t` on. */
  function Stamped(clock: nat -> string, t: nat, texts: seq<string>): (entries: seq<string>)
    ensures |entries| == |texts|
    decreases |texts|
  {
    if texts == [] then [] else [LogEntry(clock(t), texts[0])] + Stamped(clock, t + 1, texts[1..])
  }

  /** `f` applied to each element of `s`, in order. */
  function Map<A, B>(f: A -> B, s: seq<A>): (r: seq<B>)
    ensures |r| == |s|
  {
    seq(|s|, i requires 0 <= i < |s| => f(s[i]))
  }

  /** The diagnostics' log texts, in order. */
  function Texts(ds: seq<Diagnostic>): (texts: seq<string>)
    ensures |texts| == |ds|
  {
    Map(DiagnosticText, ds)
  }

  /** The bytes handed to the decoder; a nil slice has none. */
  function PayloadBytes(data: FetchResult): seq<byte> {
    if data.Body? then data.bytes else []
  }

  /** The prefixes of main's decode-error log text and of openLogFile's failure message. */
  const DECODE_ERROR := "Error occurred while parsing api response data: "
  const OPEN_FAILURE := "Couldn't open logfile for writing: "

  /** The decode error's log text: the prefix, the error, a newline. */
  function DecodeErrorText(err: string): (t: string)
    ensures |t| == |DECODE_ERROR| + |err| + 1 && t[|t| - 1] == '\n'
    ensures t[..|DECODE_ERROR|] == DECODE_ERROR && t[|DECODE_ERROR|..|t| - 1] == err
  {
    DECODE_ERROR + err + "\n"
  }

  /** What openLogFile prints when the file cannot be opened: the prefix, the error, a newline. */
  function OpenFailureText(err: string): (t: string)
    ensures |t| == |OPEN_FAILURE| + |err| + 1 && t[|t| - 1] == '\n'
    ensures t[..|OPEN_FAILURE|] == OPEN_FAILURE && t[|OPEN_FAILURE|..|t| - 1] == err
  {
    OPEN_FAILURE + err + "\n"
  }

  /** openLogFile's effect on the log: a handle on the file at `path`, or no change. */
  function AfterOpen(log: LogFile, path: string, reply: OpenReply): (r: LogFile)
    ensures r.ticks == log.ticks
    ensures reply.OpenFailed? ==> r == log
    ensures reply.Opened? ==> r.open && r.path == path && r.entries == reply.entries
  {
    if reply.Opened? then log.(open := true, path := path, entries := reply.entries) else log
  }

  /** What openLogFile prints. */
  function OpenFailureOutput(reply: OpenReply): seq<string> {
    if reply.OpenFailed? then [OpenFailureText(reply.err)] else []
  }

  /** What main hands to the log once the response is decoded: a decode error, if any, then the quote. */
  function ReportTexts(decoded: Decoded): (texts: seq<string>)
    ensures |texts| == (if decoded.err.Some? then 2 else 1)
    ensures decoded.err.Some? ==> texts[0] == DecodeErrorText(decoded.err.value)
    ensures texts[|texts| - 1] == "SUCCESS: " + ReportLine(DogeQuote(decoded.value))
  {
    (if decoded.err.Some? then [DecodeErrorText(decoded.err.value)] else []) + [SuccessLogText(DogeQuote(decoded.value))]
  }

  /** What one makeApiRequest call leaves behind: its result and the state it touches. */
  datatype Effects = Effects(result: FetchResult, count: nat, requests: nat, sleptSeconds: nat, log: LogFile)

  /**
   * The effects of `run` on a process that had issued `requests` requests,
   * slept `sleptSeconds` seconds and held `log`: the counter it ends with,
   * its requests and RETRY_DELAY-second sleeps added, its diagnostics written.
   */
  function After(run: Run, requests: nat, sleptSeconds: nat, log: LogFile, clock: nat -> string): Effects {
    Effects(run.result, run.count, requests + run.requests, sleptSeconds + RETRY_DELAY * run.sleeps,
      WrittenAll(log, clock, Texts(run.messages)))
  }

  class Process {
    /** time.Now: the timestamp of the t-th reading of the clock. */
    const clock: nat -> string
    /** Bad-gateway replies seen so far by this process; never reset. */
    var currentRetryCount: nat
    var log: LogFile
    /** HTTP requests issued so far; the next one is answered by `server(requests)`. */
    var requests: nat
    /** Seconds spent in time.Sleep so far. */
    var sleptSeconds: nat
    /** What has been printed on standard output. */
    var stdout: seq<string>

    constructor (clock: nat -> string)
      ensures this.clock == clock && currentRetryCount == 0 && log == NoLogFile
      ensures requests == 0 && sleptSeconds == 0 && stdout == []
    {
      this.clock := clock;
      currentRetryCount := 0;
      log := NoLogFile;
      requests, sleptSeconds, stdout := 0, 0, [];
    }

    /** writeLogLine. */
    method WriteLogLine(text: string)
      modifies this`log
      ensures log == Written(old(log), clock, text)
    {
      if log.open {
        var now := clock(log.ticks);
        log := log.(entries := log.entries + [LogEntry(now, text)], ticks := log.ticks + 1);
      }
    }

    /** openLogFile: opens the path derived from HOME; on failure says so on standard output. */
    method OpenLogFile(home: string, openFile: string -> OpenReply)
      modifies this`log, this`stdout
      ensures var path := GetLogFilePath(home);
        && log == AfterOpen(old(log), path, openFile(path))
        && stdout == old(stdout) + OpenFailureOutput(openFile(path))
    {
      var path := GetLogFilePath(home);
      var reply := openFile(path);
      match reply
      case OpenFailed(err) =>
        stdout := stdout + [OpenFailureText(err)];
      case Opened(entries) =>
        log := log.(open := true, path := path, entries := entries);
    }

    /** closeLogFile: releases the handle if there is one. */
    method CloseLogFile()
      modifies this`log
      ensures log == old(log).(open := false)
    {
      if log.open {
        log := log.(open := false);
      }
    }

    /** writeLogLine called with a diagnostic's text. */
    method LogDiagnostic(d: Diagnostic)
      modifies this`log
      ensures log == WrittenAll(old(log), clock, Texts([d]))
    {
      WriteLogLine(DiagnosticText(d));
      WrittenAtMostOne(old(log), clock, [d]);
    }

    /** The transport error check of makeApiRequest: its diagnostic is logged, if there is one. */
    method LogTransportError(reply: HttpReply)
      modifies this`log
      ensures log == WrittenAll(old(log), clock, Texts(TransportLog(reply)))
    {
      if reply.err.Some? {
        LogDiagnostic(RequestFailed(reply.err.value));
      } else {
        assert Texts(TransportLog(reply)) == [];
      }
    }

    /**
     * makeApiRequest: the result, the counter, the requests, the sleeps and the
     * log are those of Fetch started from the current counter, its first
     * request being the process's next one.
     */
    method MakeApiRequest(server: nat -> HttpReply) returns (data: FetchResult)
      modifies this`currentRetryCount, this`requests, this`sleptSeconds, this`log
      ensures Effects(data, currentRetryCount, requests, sleptSeconds, log)
        == After(Fetch(old(currentRetryCount), server, old(requests)), old(requests), old(sleptSeconds), old(log), clock)
      decreases RetriesLeft(currentRetryCount)
    {
      ghost var count0, requests0, slept0, log0 := currentRetryCount, requests, sleptSeconds, log;
      var reply := server(requests);
      requests := requests + 1;
      LogTransportError(reply);
      if reply.resp.None? {
        AfterPanic(count0, server, requests0, slept0, log0, clock);
        return Panic;
      }
      var status := reply.resp.value.status;
      if status != 200 {
        if status == 502 {
          currentRetryCount := currentRetryCount + 1;
          if currentRetryCount > RETRY_ATTEMPTS {
            AfterGivingUp(count0, server, requests0, slept0, log0, clock);
            return Nil;
          }
          sleptSeconds := sleptSeconds + RETRY_DELAY;
          ghost var count1, requests1, slept1, log1 := currentRetryCount, requests, sleptSeconds, log;
          data := MakeApiRequest(server);
          RetryStep(count0, server, requests0, slept0, log0, clock, count1, requests1, slept1, log1,
            Effects(data, currentRetryCount, requests, sleptSeconds, log));
        } else {
          LogDiagnostic(ErrorStatus(status));
          AfterRejected(count0, server, requests0, slept0, log0, clock);
          return Nil;
        }
      } else {
        AfterSuccess(count0, server, requests0, slept0, log0, clock);
        return Body(reply.resp.value.body);
      }
    }

    /** The tail of main after decoding: the decode error, if any, and the quote go to the log; the quote to standard output. */
    method Report(decoded: Decoded)
      modifies this`log, this`stdout
      ensures log == WrittenAll(old(log), clock, ReportTexts(decoded))
      ensures stdout == old(stdout) + [ReportLine(DogeQuote(decoded.value))]
    {
      ghost var log0 := log;
      if decoded.err.Some? {
        WriteLogLine(DecodeErrorText(decoded.err.value));
      }
      ghost var mid := log;
      assert mid == WrittenAll(log0, clock, if decoded.err.Some? then [DecodeErrorText(decoded.err.value)] else []) by {
        if decoded.err.Some? {
          WrittenAllSnoc(log0, clock, [], DecodeErrorText(decoded.err.value));
        } else {
          WrittenAllSnoc(log0, clock, [], "");
        }
      }
      var quote := DogeQuote(decoded.value);
      WriteLogLine(SuccessLogText(quote));
      WrittenAllSnoc(log0, clock, if decoded.err.Some? then [DecodeErrorText(decoded.err.value)] else [], SuccessLogText(quote));
      stdout := stdout + [ReportLine(quote)];
    }

    /**
     * main: open the log, fetch, decode, look DOGE up, log and print the
     * quote, close the log. A fetch that got no response panics on the nil
     * dereference; the deferred close still runs, and nothing after the fetch
     * is logged or printed. A decode error is logged and the quote, empty or
     * partial, is still reported.
     */
    method Tick(home: string, openFile: string -> OpenReply, server: nat -> HttpReply, unmarshal: seq<byte> -> Decoded)
      returns (panicked: bool)
      modifies this`currentRetryCount, this`requests, this`sleptSeconds, this`log, this`stdout
      ensures var path := GetLogFilePath(home);
        var run := Fetch(old(currentRetryCount), server, old(requests));
        var fetched := WrittenAll(AfterOpen(old(log), path, openFile(path)), clock, Texts(run.messages));
        var decoded := unmarshal(PayloadBytes(run.result));
        && panicked == run.result.Panic?
        && currentRetryCount == run.count
        && requests == old(requests) + run.requests
        && sleptSeconds == old(sleptSeconds) + RETRY_DELAY * run.sleeps
        && (panicked ==> log == fetched.(open := false) && stdout == old(stdout) + OpenFailureOutput(openFile(path)))
        && (!panicked ==>
              && log == WrittenAll(fetched, clock, ReportTexts(decoded)).(open := false)
              && stdout == old(stdout) + OpenFailureOutput(openFile(path)) + [ReportLine(DogeQuote(decoded.value))])
    {
      OpenLogFile(home, openFile);
      var data := MakeApiRequest(server);
      if data.Panic? {
        CloseLogFile();
        return true;
      }
      var decoded := unmarshal(PayloadBytes(data));
      Report(decoded);
      CloseLogFile();
      return false;
    }
  }

  /**
   * A 502 within the budget: the call's effects are those of the call that
   * follows it, started after one request, one sleep and the transport
   * error's diagnostic, if any.
   */
  lemma AfterRetry(count: nat, server: nat -> HttpReply, k: nat, sleptSeconds: nat, log: LogFile, clock: nat -> string)
    requires IsBadGateway(server(k)) && count < RETRY_ATTEMPTS
    ensures After(Fetch(count, server, k), k, sleptSeconds, log, clock)
      == After(Fetch(count + 1, server, k + 1), k + 1, sleptSeconds + RETRY_DELAY,
               WrittenAll(log, clock, Texts(TransportLog(server(k)))), clock)
  {
    FetchRetries(count, server, k);
    LogAppend(log, clock, TransportLog(server(k)), Fetch(count + 1, server, k + 1).messages);
  }

  /** AfterRetry, with the state the recursive call starts from named. */
  lemma RetryStep(count: nat, server: nat -> HttpReply, k: nat, sleptSeconds: nat, log: LogFile, clock: nat -> string,
                  count1: nat, k1: nat, slept1: nat, log1: LogFile, e: Effects)
    requires IsBadGateway(server(k)) && count < RETRY_ATTEMPTS
    requires count1 == count + 1 && k1 == k + 1 && slept1 == sleptSeconds + RETRY_DELAY
    requires log1 == WrittenAll(log, clock, Texts(TransportLog(server(k))))
    requires e == After(Fetch(count1, server, k1), k1, slept1, log1, clock)
    ensures e == After(Fetch(count, server, k), k, sleptSeconds, log, clock)
  {
    AfterRetry(count, server, k, sleptSeconds, log, clock);
  }

  lemma AfterPanic(count: nat, server: nat -> HttpReply, k: nat, sleptSeconds: nat, log: LogFile, clock: nat -> string)
    requires server(k).resp.None?
    ensures After(Fetch(count, server, k), k, sleptSeconds, log, clock)
      == Effects(Panic, count, k + 1, sleptSeconds, WrittenAll(log, clock, Texts(TransportLog(server(k)))))
  {
    FetchPanics(count, server, k);
  }

  lemma AfterSuccess(count: nat, server: nat -> HttpReply, k: nat, sleptSeconds: nat, log: LogFile, clock: nat -> string)
    requires server(k).resp.Some? && server(k).resp.value.status == 200
    ensures After(Fetch(count, server, k), k, sleptSeconds, log, clock)
      == Effects(Body(server(k).resp.value.body), count, k + 1, sleptSeconds, WrittenAll(log, clock, Texts(TransportLog(server(k)))))
  {
    FetchSucceeds(count, server, k);
  }

  lemma AfterGivingUp(count: nat, server: nat -> HttpReply, k: nat, sleptSeconds: nat, log: LogFile, clock: nat -> string)
    requires IsBadGateway(server(k)) && count >= RETRY_ATTEMPTS
    ensures After(Fetch(count, server, k), k, sleptSeconds, log, clock)
      == Effects(Nil, count + 1, k + 1, sleptSeconds, WrittenAll(log, clock, Texts(TransportLog(server(k)))))
  {
    FetchGivesUp(count, server, k);
  }

  lemma AfterRejected(count: nat, server: nat -> HttpReply, k: nat, sleptSeconds: nat, log: LogFile, clock: nat -> string)
    requires server(k).resp.Some? && server(k).resp.value.status != 200 && !IsBadGateway(server(k))
    ensures After(Fetch(count, server, k), k, sleptSeconds, log, clock)
      == Effects(Nil, count, k + 1, sleptSeconds,
           WrittenAll(WrittenAll(log, clock, Texts(TransportLog(server(k)))), clock, Texts([ErrorStatus(server(k).resp.value.status)])))
  {
    FetchRejects(count, server, k);
    LogAppend(log, clock, TransportLog(server(k)), [ErrorStatus(server(k).resp.value.status)]);
  }

  /** Writing no diagnostic or a single one. */
  lemma WrittenAtMostOne(log: LogFile, clock: nat -> string, ds: seq<Diagnostic>)
    requires |ds| <= 1
    ensures WrittenAll(log, clock, Texts(ds)) == if ds == [] then log else Written(log, clock, DiagnosticText(ds[0]))
  {
    if ds != [] {
      assert Texts(ds) == [] + [DiagnosticText(ds[0])];
      WrittenAllSnoc(log, clock, [], DiagnosticText(ds[0]));
    } else {
      assert Texts(ds) == [];
      WrittenAllSnoc(log, clock, [], "");
    }
  }

  /** Two runs of diagnostics written one after the other log their concatenation. */
  lemma LogAppend(log: LogFile, clock: nat -> string, a: seq<Diagnostic>, b: seq<Diagnostic>)
    ensures WrittenAll(WrittenAll(log, clock, Texts(a)), clock, Texts(b)) == WrittenAll(log, clock, Texts(a + b))
  {
    MapAppend(DiagnosticText, a, b);
    WrittenAllAppend(log, clock, Texts(a), Texts(b));
  }

  lemma MapAppend<A, B>(f: A -> B, a: seq<A>, b: seq<A>)
    ensures Map(f, a + b) == Map(f, a) + Map(f, b)
  {
    assert forall i :: 0 <= i < |a + b| ==> Map(f, a + b)[i] == (Map(f, a) + Map(f, b))[i];
  }

  /** Stamping `a + b` stamps `a`, then `b` from the reading after `a`'s last. */
  lemma {:induction false} StampedAppend(clock: nat -> string, t: nat, a: seq<string>, b: seq<string>)
    ensures Stamped(clock, t, a + b) == Stamped(clock, t, a) + Stamped(clock, t + |a|, b)
    decreases |a|
  {
    if a == [] {
      assert a + b == b;
    } else {
      assert (a + b)[0] == a[0] && (a + b)[1..] == a[1..] + b;
      StampedAppend(clock, t + 1, a[1..], b);
      ConcatAssoc([LogEntry(clock(t), a[0])], Stamped(clock, t + 1, a[1..]), Stamped(clock, t + |a|, b));
    }
  }

  /** The i-th stamped entry carries the i-th text and the i-th clock reading from `t`. */
  lemma {:induction false} StampedAt(clock: nat -> string, t: nat, texts: seq<string>)
    ensures forall i :: 0 <= i < |texts| ==> Stamped(clock, t, texts)[i] == LogEntry(clock(t + i), texts[i])
    decreases |texts|
  {
    if texts != [] {
      StampedAt(clock, t + 1, texts[1..]);
      var rest := Stamped(clock, t + 1, texts[1..]);
      forall i | 0 <= i < |texts|
        ensures Stamped(clock, t, texts)[i] == LogEntry(clock(t + i), texts[i])
      {
        if i > 0 {
          assert Stamped(clock, t, texts)[i] == rest[i - 1];
        }
      }
    }
  }

  lemma ConcatAssoc<T>(a: seq<T>, b: seq<T>, c: seq<T>)
    ensures a + (b + c) == (a + b) + c
  {
  }

  /** Writing `a` then `b` is writing `a + b`. */
  lemma WrittenAllAppend(log: LogFile, clock: nat -> string, a: seq<string>, b: seq<string>)
    ensures WrittenAll(log, clock, a + b) == WrittenAll(WrittenAll(log, clock, a), clock, b)
  {
    if log.open {
      StampedAppend(clock, log.ticks, a, b);
      ConcatAssoc(log.entries, Stamped(clock, log.ticks, a), Stamped(clock, log.ticks + |a|, b));
    }
  }

  /**
   * WrittenAll is writeLogLine repeated: writing nothing leaves the log as it
   * was, and writing one more text is one more writeLogLine.
   */
  lemma WrittenAllSnoc(log: LogFile, clock: nat -> string, texts: seq<string>, text: string)
    ensures WrittenAll(log, clock, []) == log
    ensures WrittenAll(log, clock, texts + [text]) == Written(WrittenAll(log, clock, texts), clock, text)
  {
    WrittenAllAppend(log, clock, texts, [text]);
    if log.open {
      var l := WrittenAll(log, clock, texts);
      assert Stamped(clock, l.ticks, [text]) == [LogEntry(clock(l.ticks), text)];
      assert log.entries + Stamped(clock, log.ticks, []) == log.entries;
    }
  }

  /**
   * The log only grows, and only while open: what it held stays a prefix,
   * one entry is added per text when open, none when closed, and the
   * handle and path never change.
   */
  lemma LogOnlyGrows(log: LogFile, clock: nat -> string, texts: seq<string>)
    ensures var r := WrittenAll(log, clock, texts);
      && r.open == log.open && r.path == log.path
      && log.entries <= r.entries
      && |r.entries| == |log.entries| + (if log.open then |texts| else 0)
      && (forall i :: 0 <= i < |texts| && log.open ==> r.entries[|log.entries| + i] == LogEntry(clock(log.ticks + i), texts[i]))
  {
    StampedAt(clock, log.ticks, texts);
  }
}

/** The reporting half of main, as seen from the decoder's output. */
module Report {
  import opened Wrappers
  import opened Api
  import opened Fetcher
  import opened Process

  /**
   * A decode error changes nothing about the quote: the texts are the decode
   * error's line, if any, followed by exactly what an error-free decode of the
   * same value logs, the quote's success text.
   */
  lemma QuoteReportedDespiteDecodeError(value: ApiResponse, err: Option<string>)
    ensures var logged, clean := ReportTexts(Decoded(value, err)), ReportTexts(Decoded(value, None));
      && |logged| == |clean| + (if err.Some? then 1 else 0)
      && logged[|logged| - |clean|..] == clean
  {
  }

  /** Without a DOGE market the label and price are empty strings. */
  lemma BlankQuoteWithoutDoge(decoded: Decoded)
    requires DOGE_KEY !in decoded.value.Return.Markets
    ensures ReportLine(DogeQuote(decoded.value)) == " : \n"
    ensures var texts := ReportTexts(decoded); texts[|texts| - 1] == "SUCCESS:  : \n"
  {
  }

  /**
   * A nil payload that the decoder rejects leaves the response at its zero
   * value: the log gets the decode error and an empty quote, and standard
   * output an empty quote.
   */
  lemma NilPayloadReport(unmarshal: seq<byte> -> Decoded, err: string)
    requires unmarshal([]) == Decoded(ZeroApiResponse, Some(err))
    ensures ReportTexts(unmarshal(PayloadBytes(Nil))) == [DecodeErrorText(err), "SUCCESS:  : \n"]
    ensures ReportLine(DogeQuote(unmarshal(PayloadBytes(Nil)).value)) == " : \n"
  {
    var decoded := unmarshal(PayloadBytes(Nil));
    BlankQuoteWithoutDoge(decoded);
    assert ReportTexts(decoded) == [DecodeErrorText(err)] + [SuccessLogText(Quote("", ""))];
  }
}
