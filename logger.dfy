/** The Logger of logger.go and the constructors of handlers.go: a Logger
    holds one Handler, builds an Entry per call and hands it to the handler
    once; a handler error is printed to standard error. */
module Logging {
  import opened Wrappers
  import opened Levels
  import opened Data
  import opened Formats
  import opened Handlers

  /** Standard error, the fallback destination for handler errors: the text
      printed to it so far. */
  class Fallback {
    var written: string

    constructor ()
      ensures written == []
    {
      written := [];
    }

    /** fmt.Fprintln(os.Stderr, err): the error text and a newline. */
    method Println(err: Error)
      modifies this
      ensures written == old(written) + err.text + "\n"
    {
      written := written + err.text + "\n";
    }
  }

  /** What a Log call prints to standard error for a handler result. */
  function Complaint(err: Option<Error>): (s: string)
    ensures err == None <==> s == []
    ensures err != None ==> s == err.value.text + "\n"
  {
    if err == None then [] else err.value.text + "\n"
  }

  class Logger {
    const h: Handler

    /** New: a Logger around the given handler. */
    constructor New(h: Handler)
      ensures this.h == h
    {
      this.h := h;
    }

    /** Log: the entry carries the level, the already formatted message, the
        data map and the current time; the handler sees it exactly once, and
        standard error receives the handler's error, if any, and nothing
        else. */
    method Log(level: Level, data: M, message: string, now: Instant, stderr: Fallback)
      modifies Destination(h), stderr
      ensures Handled(h, Entry(level, message, data, now))
      ensures stderr.written == old(stderr.written) + Complaint(Report(h, Entry(level, message, data, now)))
    {
      var e := Entry(level, message, data, now);
      var err := Dispatch(h, e);
      if err != None {
        stderr.Println(err.value);
      }
    }
  }

  /** Only the structured handler can make Log print to standard error, and
      only for an entry it keeps and an encoder that fails. */
  lemma OnlyStructuredComplains(h: Handler, e: Entry)
    ensures Complaint(Report(h, e)) != [] <==>
              h.Default? && !Suppressed(e.level, h.default.debug) && h.default.enc.failure != None
  {
  }

  /** NewLogger: a Logger whose handler is the structured one, over an
      encoder of w, with the given debug switch. */
  method NewLogger(enc: Encoder, debug: bool) returns (l: Logger)
    ensures fresh(l) && l.h.Default? && fresh(l.h.default)
    ensures l.h.default.enc == enc && l.h.default.debug == debug
  {
    var d := new DefaultHandler(enc, debug);
    l := new Logger.New(Default(d));
  }

  /** NewTextLogger: a Logger whose handler writes text lines to w. */
  method NewTextLogger(w: Writer) returns (l: Logger)
    ensures fresh(l) && l.h.Text? && fresh(l.h.text) && l.h.text.w == w
  {
    var t := new TextHandler(w);
    l := new Logger.New(Text(t));
  }

  /** NewShellLogger: a Logger whose handler writes coloured lines to w. */
  method NewShellLogger(w: Writer) returns (l: Logger)
    ensures fresh(l) && l.h.Shell? && fresh(l.h.shell) && l.h.shell.w == w
  {
    var s := new ShellHandler(w);
    l := new Logger.New(Shell(s));
  }

  /** NewMinimalShellLogger: a Logger whose handler writes bullet lines to w. */
  method NewMinimalShellLogger(w: Writer) returns (l: Logger)
    ensures fresh(l) && l.h.MinimalShell? && fresh(l.h.minimal) && l.h.minimal.w == w
  {
    var m := new MinimalShellHandler(w);
    l := new Logger.New(MinimalShell(m));
  }

  /** NewDiscardLogger: a Logger whose handler drops every entry. */
  method NewDiscardLogger() returns (l: Logger)
    ensures fresh(l) && l.h.Discard? && fresh(l.h.discard)
  {
    var d := new DiscardHandler();
    l := new Logger.New(Discard(d));
  }

  /** A production logger with debug off keeps only WRN and ERR entries:
      a DBG or INF call leaves the encoder untouched and prints nothing. */
  method QuietProduction(enc: Encoder, level: Level, data: M, message: string, now: Instant, stderr: Fallback)
    requires level == DBG || level == INF
    modifies enc, stderr
    ensures enc.records == old(enc.records) && stderr.written == old(stderr.written)
  {
    var l := NewLogger(enc, false);
    l.Log(level, data, message, now, stderr);
  }

  /** A production logger keeps WRN and ERR entries, and DBG entries when
      debug is on: with a working encoder the call writes exactly one record,
      that record decodes back to the logged entry, and nothing is printed. */
  method KeptProduction(enc: Encoder, debug: bool, level: Level, data: M, message: string, now: Instant, stderr: Fallback)
    requires enc.failure == None
    requires level == WRN || level == ERR || (level == DBG && debug)
    modifies enc, stderr
    ensures |enc.records| == |old(enc.records)| + 1
    ensures FromRecord(enc.records[|enc.records| - 1]) == Some(Entry(level, message, data, now))
    ensures enc.records[..|enc.records| - 1] == old(enc.records) && stderr.written == old(stderr.written)
  {
    var l := NewLogger(enc, debug);
    l.Log(level, data, message, now, stderr);
    RecordRoundTrip(Entry(level, message, data, now));
  }
}
