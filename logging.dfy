/**
 * The logger: text of error codes, the composition of one log line and the
 * queue that Log feeds. Writing to the buffered writer and flushing it every
 * two seconds are not modelled; a line is a pure function of its message.
 */
module Logging {
  import opened Structures
  import opened Helpers

  /** One queued log event. */
  datatype LogMessage = LogMessage(severity: Severity, stream: Stream, result: Result)

  /** Human-readable text of an error code; thresholds and UNKERR have none. */
  function StreamErr2String(e: ErrType): (s: string)
    ensures s != ""
    ensures s == "success" <==> e == SUCCESS
  {
    match e
    case 0 => "success"
    case 3 => "HLS parser"
    case 4 => "invalid request"
    case 6 => "slow response"
    case 7 => "very slow response"
    case 15 => "bad status"
    case 16 => "bad URI"
    case 17 => "list empty"
    case 18 => "bad format"
    case 2 => "TTL expired"
    case 10 => "timeout on read"
    case 9 => "connection timeout"
    case 11 => "bad content length value"
    case 12 => "response body error"
    case 14 => "connection refused"
    case _ => "unknown"
  }

  /** The thresholds and UNKERR have no text of their own. */
  lemma UnnamedErrTypes()
    ensures StreamErr2String(DEBUG_LEVEL) == "unknown"
    ensures StreamErr2String(WARNING_LEVEL) == "unknown"
    ensures StreamErr2String(ERROR_LEVEL) == "unknown"
    ensures StreamErr2String(CRITICAL_LEVEL) == "unknown"
    ensures StreamErr2String(UNKERR) == "unknown"
    ensures StreamErr2String(SUCCESS) == "success"
    ensures StreamErr2String(TTLEXPIRED) == "TTL expired"
  {
  }

  /** A code has a text of its own exactly when it is a named code. */
  lemma NamedErrTypesHaveText(e: ErrType)
    ensures StreamErr2String(e) != "unknown" <==> IsNamedErr(e)
  {
  }

  /** Distinct named codes have distinct texts, so a log line identifies its code. */
  lemma StreamErr2StringInjective(a: ErrType, b: ErrType)
    requires IsNamedErr(a) && IsNamedErr(b) && a != b
    ensures StreamErr2String(a) != StreamErr2String(b)
  {
  }

  /** The word a severity contributes to a log line. */
  function SeverityWord(sev: Severity): (w: string)
    ensures w != "" <==> sev == WARNING || sev == ERROR
  {
    if sev == WARNING then "warning" else if sev == ERROR then "error" else ""
  }

  /**
   * One line written by LogKeeper for `msg`. `stamp` is the start time
   * formatted as "2006-01-02 15:04:05" and `elapsed` the duration text; both
   * formats belong to Go's time package and are inputs here.
   */
  function LogLine(msg: LogMessage, stamp: string, elapsed: string): (line: string)
    ensures stamp + " " + SeverityWord(msg.severity) + ": " <= line
    ensures var tail := msg.stream.group + ": " + msg.stream.name + "\n";
            |tail| <= |line| && line[|line| - |tail|..] == tail
  {
    var head := stamp + " " + SeverityWord(msg.severity) + ": ";
    var body := StreamErr2String(msg.result.errType) + " " + IntToString(msg.result.httpCode) + " "
                + IntToString(msg.result.contentLength) + " " + elapsed + " ";
    var tail := msg.stream.group + ": " + msg.stream.name + "\n";
    assert (head + body + tail)[|head + body|..] == tail;
    head + body + tail
  }

  /** What follows the time stamp and its space: the severity word, then ": ". */
  lemma SeverityField(rest: string, sev: Severity)
    requires SeverityWord(sev) + ": " <= rest
    ensures sev == WARNING <==> |rest| >= 7 && rest[..7] == "warning"
    ensures sev == ERROR <==> |rest| >= 5 && rest[..5] == "error"
    ensures sev != WARNING && sev != ERROR <==> |rest| >= 2 && rest[..2] == ": "
  {
    var w := SeverityWord(sev);
    assert rest[..|w| + 2] == w + ": ";
    if sev == WARNING {
      assert rest[..7] == w;
      assert rest[0] == 'w';
    } else if sev == ERROR {
      assert rest[..5] == w;
      assert rest[0] == 'e';
    } else {
      assert rest[..2] == ": ";
      assert rest[0] == ':';
    }
  }

  /** The severity of a message can be read back from its line: the word after the time stamp. */
  lemma LogLineShowsSeverity(msg: LogMessage, stamp: string, elapsed: string)
    ensures var rest := LogLine(msg, stamp, elapsed)[|stamp| + 1..];
            (msg.severity == WARNING <==> |rest| >= 7 && rest[..7] == "warning")
            && (msg.severity == ERROR <==> |rest| >= 5 && rest[..5] == "error")
            && (msg.severity != WARNING && msg.severity != ERROR <==> |rest| >= 2 && rest[..2] == ": ")
  {
    var line := LogLine(msg, stamp, elapsed);
    var w := SeverityWord(msg.severity);
    assert line[..|stamp| + 1 + |w| + 2] == stamp + " " + w + ": ";
    assert line[|stamp| + 1..][..|w| + 2] == w + ": ";
    SeverityField(line[|stamp| + 1..], msg.severity);
  }

  /**
   * Between the severity and the stream the line holds, in this order, the
   * error text, the HTTP code, the content length and the elapsed time, each
   * followed by one space, and nothing else.
   */
  lemma LogLineFields(msg: LogMessage, stamp: string, elapsed: string)
    ensures var line := LogLine(msg, stamp, elapsed);
            var h := |stamp + " " + SeverityWord(msg.severity) + ": "|;
            var e := StreamErr2String(msg.result.errType);
            var c := IntToString(msg.result.httpCode);
            var n := IntToString(msg.result.contentLength);
            var t := |msg.stream.group + ": " + msg.stream.name + "\n"|;
            |line| == h + |e| + |c| + |n| + |elapsed| + 4 + t
            && line[h..h + |e| + 1] == e + " "
            && line[h + |e| + 1..h + |e| + |c| + 2] == c + " "
            && line[h + |e| + |c| + 2..h + |e| + |c| + |n| + 3] == n + " "
            && line[h + |e| + |c| + |n| + 3..|line| - t] == elapsed + " "
  {
    FieldsLayout(stamp + " " + SeverityWord(msg.severity) + ": ", StreamErr2String(msg.result.errType),
                 IntToString(msg.result.httpCode), IntToString(msg.result.contentLength), elapsed,
                 msg.stream.group + ": " + msg.stream.name + "\n");
  }

  /** Where each field sits in a head, four space-terminated fields and a tail. */
  lemma FieldsLayout(head: string, e: string, c: string, n: string, el: string, tail: string)
    ensures var s := head + (e + " " + c + " " + n + " " + el + " ") + tail;
            var h := |head|;
            |s| == h + |e| + |c| + |n| + |el| + 4 + |tail|
            && s[h..h + |e| + 1] == e + " "
            && s[h + |e| + 1..h + |e| + |c| + 2] == c + " "
            && s[h + |e| + |c| + 2..h + |e| + |c| + |n| + 3] == n + " "
            && s[h + |e| + |c| + |n| + 3..|s| - |tail|] == el + " "
  {
    var s := head + (e + " " + c + " " + n + " " + el + " ") + tail;
    var h := |head|;
    assert s == head + ((e + " ") + ((c + " ") + ((n + " ") + ((el + " ") + tail))));
    assert s[h..] == (e + " ") + ((c + " ") + ((n + " ") + ((el + " ") + tail)));
    assert s[h + |e| + 1..] == (c + " ") + ((n + " ") + ((el + " ") + tail));
    assert s[h + |e| + |c| + 2..] == (n + " ") + ((el + " ") + tail);
    assert s[h + |e| + |c| + |n| + 3..] == (el + " ") + tail;
  }

  /** Lines that differ only in a named error type differ: the error type can be read back. */
  lemma LogLineShowsErrType(msg: LogMessage, other: ErrType, stamp: string, elapsed: string)
    requires IsNamedErr(msg.result.errType) && IsNamedErr(other) && other != msg.result.errType
    ensures LogLine(msg, stamp, elapsed) != LogLine(msg.(result := msg.result.(errType := other)), stamp, elapsed)
  {
    var msg2 := msg.(result := msg.result.(errType := other));
    LogLineFields(msg, stamp, elapsed);
    LogLineFields(msg2, stamp, elapsed);
    StreamErr2StringInjective(msg.result.errType, other);
    var e1, e2 := StreamErr2String(msg.result.errType), StreamErr2String(other);
    if |e1| == |e2| {
      assert (e1 + " ")[..|e1|] == e1 && (e2 + " ")[..|e2|] == e2;
      assert e1 + " " != e2 + " ";
    }
  }

  /** The logger's queue of pending messages (the buffered channel). */
  class LogQueue {
    var pending: seq<LogMessage>

    constructor ()
      ensures pending == []
    {
      pending := [];
    }

    /** Log enqueues exactly one message with the given severity, stream and result. */
    method Log(severity: Severity, stream: Stream, result: Result)
      modifies this
      ensures pending == old(pending) + [LogMessage(severity, stream, result)]
    {
      pending := pending + [LogMessage(severity, stream, result)];
    }
  }
}
