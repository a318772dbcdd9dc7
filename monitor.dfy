// Stream monitoring: the classification of one HTTP probe, the per-stream
// scheduler (one iteration of the stream box loop) and the internet
// heartbeat that switches monitoring on and off.

module Monitor {
  import opened Wrappers
  import opened Structures
  import opened Helpers
  import opened Logging
  import opened GroupConfig

  // ---------------------------------------------------------------------
  // Go integer division and the randomised sleeps
  // ---------------------------------------------------------------------

  /** Go's integer division, which truncates toward zero. */
  function GoDiv(a: int, b: int): (q: int)
    requires b > 0
    ensures a >= 0 ==> q == a / b
    ensures a < 0 ==> q == -((-a) / b)
  {
    if a >= 0 then a / b else -((-a) / b)
  }

  /** The lower bound of a jittered period: period/4*3 in integer arithmetic. */
  function JitterMin(period: int): int {
    GoDiv(period, 4) * 3
  }

  /**
   * rand.Intn(period - period/4*3) + period/4*3 for the rand.Intn value
   * `draw`: None when the range is empty, which makes rand.Intn panic, and
   * that happens exactly for a non-positive period; otherwise a value in
   * [period/4*3, period).
   */
  function Jitter(period: int, draw: int): (r: Option<int>)
    requires period - JitterMin(period) > 0 ==> IntnDraw(period - JitterMin(period), draw)
    ensures r.None? <==> period <= 0
    ensures r.Some? ==> JitterMin(period) <= r.value < period && r.value - draw == JitterMin(period)
  {
    var min := JitterMin(period);
    if period - min <= 0 then None else Some(draw + min)
  }

  /**
   * The extra sleep before the next check: for an error above
   * CRITICAL_LEVEL (or an expired task) a jittered CheckBrokenTime in
   * seconds, otherwise none. None when that jitter panics.
   */
  function BackOff(errType: ErrType, checkBrokenTime: int, draw: int): (r: Option<int>)
    requires checkBrokenTime > 0 ==> IntnDraw(checkBrokenTime - JitterMin(checkBrokenTime), draw)
    ensures !(errType > CRITICAL_LEVEL || errType == TTLEXPIRED) ==> r == Some(0)
    ensures (errType > CRITICAL_LEVEL || errType == TTLEXPIRED) ==>
      (r.None? <==> checkBrokenTime <= 0) &&
      (r.Some? ==> JitterMin(checkBrokenTime) * Second <= r.value < checkBrokenTime * Second &&
                   r.value == (draw + JitterMin(checkBrokenTime)) * Second)
  {
    if errType > CRITICAL_LEVEL || errType == TTLEXPIRED then
      match Jitter(checkBrokenTime, draw)
      case None => None
      case Some(s) => Some(s * Second)
    else Some(0)
  }

  // ---------------------------------------------------------------------
  // Probe results
  // ---------------------------------------------------------------------

  /** The result reported for a task whose TTL has passed. */
  function TaskExpired(now: int): (r: Result)
    ensures r.errType == TTLEXPIRED && r.contentLength == -1 && r.elapsed == 0 && r.started == now
    ensures r.httpCode == 0 && r.httpStatus == "" && r.subResults == [] && !r.hasParent
  {
    Result(TTLEXPIRED, 0, "", -1, 0, now, 0, 0, false, [])
  }

  /** What the network did with one request, standing for NewRequest, client.Do and the body read. */
  datatype Exchange = Exchange(
    requestFails: bool,   // the request could not be built
    clientFails: bool,    // the client returned an error
    elapsed: int,         // time from the start of the check to the response or error
    statusCode: int,
    status: string,
    declaredLength: int,  // the Content-Length of the response
    bodyFails: bool,      // reading the body returned an error
    bodyLength: int)      // bytes read from the body

  /** A probe URI must start with http:// or https://. */
  predicate HttpURI(uri: string) {
    HasPrefix(uri, "http://") || HasPrefix(uri, "https://")
  }

  /** The status is a success or a redirect. */
  predicate GoodStatus(code: int) {
    200 <= code < 400
  }

  /**
   * The error type of a probe, stated by priority: a bad URI, then a
   * transport failure, then a length mismatch, a body read error and a bad
   * status, in that order; SUCCESS when none applies.
   */
  function ProbeErrType(uri: string, readBody: bool, connectTimeout: int, ex: Exchange): (e: ErrType)
    ensures e == BADURI <==> !HttpURI(uri) || ex.requestFails
    ensures e == CTIMEOUT ==> ex.clientFails && ex.elapsed > connectTimeout * Second
    ensures e == BADLENGTH || e == BODYREAD ==> readBody
  {
    if !HttpURI(uri) || ex.requestFails then BADURI
    else if ex.clientFails then (if ex.elapsed > connectTimeout * Second then CTIMEOUT else REFUSED)
    else if readBody && ex.bodyLength > 0 && ex.bodyLength != ex.declaredLength then BADLENGTH
    else if readBody && ex.bodyFails then BODYREAD
    else if !GoodStatus(ex.statusCode) then BADSTATUS
    else SUCCESS
  }

  /** The only error types a probe can produce. */
  lemma ProbeErrTypes(uri: string, readBody: bool, connectTimeout: int, ex: Exchange)
    ensures ProbeErrType(uri, readBody, connectTimeout, ex) in {SUCCESS, BADURI, CTIMEOUT, REFUSED, BADLENGTH, BODYREAD, BADSTATUS}
  {
  }

  /** A probe succeeds exactly when nothing went wrong anywhere. */
  lemma ProbeSuccess(uri: string, readBody: bool, connectTimeout: int, ex: Exchange)
    ensures ProbeErrType(uri, readBody, connectTimeout, ex) == SUCCESS <==>
      HttpURI(uri) && !ex.requestFails && !ex.clientFails && GoodStatus(ex.statusCode) &&
      !(readBody && ex.bodyFails) && !(readBody && ex.bodyLength > 0 && ex.bodyLength != ex.declaredLength)
  {
  }

  /** Without a body read only the status can fail a transported probe. */
  lemma HeadOnlyProbe(uri: string, connectTimeout: int, ex: Exchange)
    requires HttpURI(uri) && !ex.requestFails && !ex.clientFails
    ensures ProbeErrType(uri, false, connectTimeout, ex) == (if GoodStatus(ex.statusCode) then SUCCESS else BADSTATUS)
  {
  }

  /**
   * ExecHTTP: check the URI, send a GET with the configured user agent and
   * classify the response. `request` is the user agent of the request sent,
   * None when no request was sent. `draw` is the random agent index.
   */
  method ExecHTTP(task: Task, cfg: Config, now: int, ex: Exchange, draw: int)
    returns (result: Result, request: Option<string>)
    requires |cfg.userAgents| > 0 ==> IntnDraw(|cfg.userAgents|, draw)
    ensures result.errType == ProbeErrType(task.stream.uri, task.readBody, cfg.Params(task.stream.group).connectTimeout, ex)
    ensures result.started == now && result.subResults == [] && !result.hasParent
    ensures request.Some? <==> HttpURI(task.stream.uri) && !ex.requestFails
    ensures request.Some? ==> request.value == UserAgentIntended(cfg.userAgents, draw)
    ensures result.errType in {BADURI, CTIMEOUT, REFUSED} ==>
      result.httpCode == 0 && result.httpStatus == "" && result.contentLength == -1
    ensures result.errType == BADURI ==> result.elapsed == 0
    ensures result.errType !in {BADURI, CTIMEOUT, REFUSED} ==>
      result.httpCode == ex.statusCode && result.httpStatus == ex.status &&
      result.contentLength == ex.declaredLength && result.elapsed == ex.elapsed &&
      result.realContentLength == (if task.readBody then ex.bodyLength else 0)
  {
    result := Result(SUCCESS, 0, "", 0, 0, now, 0, 0, false, []);
    request := None;
    var uri := task.stream.uri;
    if !HasPrefix(uri, "http://") && !HasPrefix(uri, "https://") {
      result := result.(errType := BADURI, httpCode := 0, httpStatus := "", contentLength := -1);
      return;
    }
    var connectTimeout := cfg.Params(task.stream.group).connectTimeout;
    if ex.requestFails {
      result := result.(errType := BADURI, httpCode := 0, httpStatus := "", contentLength := -1);
      return;
    }
    request := Some(UserAgentIntended(cfg.userAgents, draw));
    result := result.(elapsed := ex.elapsed);
    if ex.clientFails {
      if result.elapsed > connectTimeout * Second {
        result := result.(errType := CTIMEOUT);
      } else {
        result := result.(errType := REFUSED);
      }
      result := result.(httpCode := 0, httpStatus := "", contentLength := -1);
      return;
    }
    result := result.(httpCode := ex.statusCode);
    if ex.statusCode < 200 || ex.statusCode >= 400 {
      result := result.(errType := BADSTATUS);
    }
    result := result.(httpStatus := ex.status, contentLength := ex.declaredLength);
    if task.readBody {
      result := result.(realContentLength := ex.bodyLength);
      if ex.bodyFails {
        result := result.(errType := BODYREAD);
      }
    }
    if result.realContentLength > 0 && result.contentLength != result.realContentLength {
      result := result.(errType := BADLENGTH);
    }
  }

  // ---------------------------------------------------------------------
  // Logging decision
  // ---------------------------------------------------------------------

  /**
   * The message logged for a non-expired result: errors at WARNING_LEVEL
   * and above as ERROR, unchanged; otherwise a slow answer as a WARNING
   * with its error type replaced by VERYSLOW or SLOW; nothing for a quick
   * answer.
   */
  function LogDecision(stream: Stream, r: Result, slow: int, verySlow: int): (m: Option<LogMessage>)
    ensures m.None? <==> r.errType < WARNING_LEVEL && r.elapsed < verySlow * Second && r.elapsed < slow * Second
    ensures m.Some? ==> m.value.stream == stream && m.value.result.elapsed == r.elapsed
  {
    if r.errType >= WARNING_LEVEL then Some(LogMessage(ERROR, stream, r))
    else if r.elapsed >= verySlow * Second then Some(LogMessage(WARNING, stream, r.(errType := VERYSLOW)))
    else if r.elapsed >= slow * Second then Some(LogMessage(WARNING, stream, r.(errType := SLOW)))
    else None
  }

  /** A result is logged as an ERROR exactly when its error type is at least WARNING_LEVEL, and then unchanged. */
  lemma LogDecisionErrors(stream: Stream, r: Result, slow: int, verySlow: int)
    ensures var m := LogDecision(stream, r, slow, verySlow);
      (m.Some? && m.value.severity == ERROR <==> r.errType >= WARNING_LEVEL) &&
      (r.errType >= WARNING_LEVEL ==> m == Some(LogMessage(ERROR, stream, r)))
  {
  }

  /**
   * Below WARNING_LEVEL only the error type may change, to VERYSLOW when the
   * very-slow threshold is reached (which wins) or else to SLOW; every
   * other field of the logged result is the original.
   */
  lemma LogDecisionSlow(stream: Stream, r: Result, slow: int, verySlow: int)
    requires r.errType < WARNING_LEVEL
    ensures var m := LogDecision(stream, r, slow, verySlow);
      (m.Some? <==> r.elapsed >= verySlow * Second || r.elapsed >= slow * Second) &&
      (m.Some? ==> m.value.severity == WARNING && m.value.stream == stream &&
                   m.value.result == r.(errType := m.value.result.errType)) &&
      (m.Some? ==> (m.value.result.errType == VERYSLOW <==> r.elapsed >= verySlow * Second)) &&
      (m.Some? ==> m.value.result.errType in {SLOW, VERYSLOW})
  {
  }

  // ---------------------------------------------------------------------
  // One stream box
  // ---------------------------------------------------------------------

  /** What one iteration of the stream box did. */
  datatype Outcome = Outcome(
    sleep: int,              // how long the box slept before acting
    task: Option<Task>,      // the task sent to the probers
    saves: seq<Result>,      // the results handed to SaveResult, sub-results first
    log: Option<LogMessage>, // the message handed to Log
    crashed: bool)           // rand.Intn panicked and the box stopped

  /** HTTP and Widevine checks skip the body; HLS and HDS read it. */
  function ReadsBody(streamType: StreamType): (b: bool)
    ensures b <==> streamType == HLS || streamType == HDS
  {
    if streamType == HTTP then false
    else if streamType == HLS then true
    else if streamType == HDS then true
    else if streamType == WV then false
    else false
  }

  /**
   * The sub-results are saved with their parent set, then the result itself.
   * The result holds pointers to its sub-results and setting the parent
   * changes them in place, so the saved copy of the result carries the very
   * sub-results saved before it.
   */
  function SavedResults(r: Result): (s: seq<Result>)
    ensures |s| == |r.subResults| + 1
    ensures forall i :: 0 <= i < |r.subResults| ==> s[i] == r.subResults[i].(hasParent := true)
    ensures s[|s| - 1] == r.(subResults := s[..|r.subResults|])
  {
    var marked := seq(|r.subResults|, i requires 0 <= i < |r.subResults| => r.subResults[i].(hasParent := true));
    assert (marked + [r.(subResults := marked)])[..|marked|] == marked;
    marked + [r.(subResults := marked)]
  }

  class StreamBox {
    const stream: Stream
    const readBody: bool
    var online: bool
    var tid: int
    var checkCount: nat
    var addSleep: int
    var stats: Stats
    var alive: bool
    // The task ids issued so far, and the tid the box started from.
    ghost var issued: seq<int>
    ghost const tid0: int

    /** Task ids grow by one per issued task; checks count issued tasks and checkCount answered ones. */
    ghost predicate Valid()
      reads this
    {
      && tid == tid0 + |issued|
      && (forall i :: 0 <= i < |issued| ==> issued[i] == tid0 + i + 1)
      && stats.checks == |issued|
      && checkCount <= |issued|
      && addSleep >= 0
    }

    /** A box starts offline, counting task ids from the start time in Unix seconds. */
    constructor(stream: Stream, streamType: StreamType, startUnix: int)
      ensures Valid() && alive && !online && issued == []
      ensures this.stream == stream && readBody == ReadsBody(streamType)
      ensures tid == startUnix && checkCount == 0 && addSleep == 0 && stats == ZeroStats
    {
      this.stream := stream;
      readBody := ReadsBody(streamType);
      online := false;
      tid := startUnix;
      tid0 := startUnix;
      checkCount := 0;
      addSleep := 0;
      stats := ZeroStats;
      alive := true;
      issued := [];
    }

    /** A control command: START_MON switches monitoring on, STOP_MON off, others change nothing. */
    method Control(command: Command)
      requires Valid()
      modifies this
      ensures Valid()
      ensures command == START_MON ==> online
      ensures command == STOP_MON ==> !online
      ensures command != START_MON && command != STOP_MON ==> online == old(online)
      ensures tid == old(tid) && checkCount == old(checkCount) && addSleep == old(addSleep)
      ensures stats == old(stats) && alive == old(alive) && issued == old(issued)
    {
      if command == START_MON {
        online := true;
      } else if command == STOP_MON {
        online := false;
      }
    }

    /** The three-second timer: the statistics handed to SaveStats. */
    method Tick() returns (saved: Stats)
      requires Valid()
      ensures saved == stats && saved.checks == |issued|
    {
      saved := stats;
    }

    /**
     * One pass of the default case of the loop. Offline, the box only
     * sleeps a second. Online, it sleeps a jittered period, issues the next
     * task and takes the prober's `reply`. An expired reply ends the
     * iteration; any other is saved (sub-results first), sets the back-off
     * for the next sleep and is logged when it is an error or was slow.
     * `params` are the group's parameters as cfg.Params(stream.Group)
     * returns them, and `draw` and `backoffDraw` are the rand.Intn values;
     * a non-positive period makes rand.Intn panic, which stops the box.
     */
    method Iterate(params: ConfigGroup, now: int, draw: int, reply: Result, backoffDraw: int) returns (out: Outcome)
      requires Valid() && alive
      requires var p := params.timeBetweenTasks;
        p > 0 ==> IntnDraw(p - JitterMin(p), draw)
      requires var c := params.checkBrokenTime;
        c > 0 ==> IntnDraw(c - JitterMin(c), backoffDraw)
      modifies this
      ensures Valid()
      ensures online == old(online) && stats == old(stats).(checks := |issued|)
      // offline: nothing happens but a one-second sleep
      ensures !old(online) ==>
        (out == Outcome(Second, None, [], None, false) &&
         tid == old(tid) && issued == old(issued) && checkCount == old(checkCount) &&
         addSleep == old(addSleep) && stats == old(stats) && alive)
      // a non-positive period: the box dies before issuing anything
      ensures old(online) && params.timeBetweenTasks <= 0 ==>
        out.crashed && out.task.None? && !alive && tid == old(tid) && issued == old(issued)
      // otherwise exactly one task is issued, with the next tid
      ensures old(online) && params.timeBetweenTasks > 0 ==>
        var p := params.timeBetweenTasks;
        out.sleep == (draw + JitterMin(p)) * Second + old(addSleep) &&
        tid == old(tid) + 1 && issued == old(issued) + [tid] &&
        out.task == Some(Task(stream, readBody, now + params.taskTTL * Second, tid))
      // an expired reply is neither counted, saved, backed off nor logged
      ensures old(online) && params.timeBetweenTasks > 0 && reply.errType == TTLEXPIRED ==>
        checkCount == old(checkCount) && out.saves == [] && out.log.None? &&
        addSleep == old(addSleep) && alive && !out.crashed
      // any other reply is counted and saved as received
      ensures old(online) && params.timeBetweenTasks > 0 && reply.errType != TTLEXPIRED ==>
        checkCount == old(checkCount) + 1 && out.saves == SavedResults(reply)
      // the back-off decides the next extra sleep, or stops the box when its jitter panics
      ensures old(online) && params.timeBetweenTasks > 0 && reply.errType != TTLEXPIRED ==>
        var b := BackOff(reply.errType, params.checkBrokenTime, backoffDraw);
        (out.crashed <==> b.None?) && (alive <==> b.Some?) &&
        (b.Some? ==> addSleep == b.value) && (b.None? ==> out.log.None?)
      // so the TTLEXPIRED case of the back-off switch is never reached: only errors above CRITICAL_LEVEL sleep extra
      ensures old(online) && params.timeBetweenTasks > 0 && reply.errType <= CRITICAL_LEVEL ==>
        addSleep == (if reply.errType == TTLEXPIRED then old(addSleep) else 0) && alive
      ensures old(online) && params.timeBetweenTasks > 0 && reply.errType != TTLEXPIRED && !out.crashed ==>
        out.log == LogDecision(stream, reply, params.slowWarningTimeout,
                               params.verySlowWarningTimeout)
    {
      if !online {
        out := Outcome(Second, None, [], None, false);
        return;
      }
      var period := Jitter(params.timeBetweenTasks, draw);
      if period.None? {
        alive := false;
        out := Outcome(0, None, [], None, true);
        return;
      }
      var sleep := period.value * Second + addSleep;
      tid := tid + 1;
      issued := issued + [tid];
      var task := Task(stream, readBody, now + params.taskTTL * Second, tid);
      stats := stats.(checks := stats.checks + 1);
      out := Outcome(sleep, Some(task), [], None, false);
      if reply.errType == TTLEXPIRED {
        return;
      }
      checkCount := checkCount + 1;
      out := out.(saves := SavedResults(reply));

      var backOff := BackOff(reply.errType, params.checkBrokenTime, backoffDraw);
      if backOff.None? {
        alive := false;
        out := out.(crashed := true);
        return;
      }
      addSleep := backOff.value;
      out := out.(log := LogDecision(stream, reply, params.slowWarningTimeout, params.verySlowWarningTimeout));
    }

    /** Issued task ids strictly increase, by one each time. */
    lemma TidsIncrease()
      requires Valid()
      ensures forall i, j :: 0 <= i < j < |issued| ==> issued[i] < issued[j]
      ensures |issued| > 0 ==> issued[|issued| - 1] == tid
    {
    }
  }

  // ---------------------------------------------------------------------
  // Heartbeat
  // ---------------------------------------------------------------------

  /** What probing one sample URL gave. */
  datatype SampleOutcome = RequestFailed | ClientFailed | Reached

  /** After a round, the state is the outcome of the last sample; with no samples it is unchanged. */
  function StateAfter(state: bool, samples: seq<SampleOutcome>): (on: bool)
    ensures on != state ==> samples != []
    ensures (forall i :: 0 <= i < |samples| ==> samples[i] == Reached) && samples != [] ==> on
    ensures (forall i :: 0 <= i < |samples| ==> samples[i] != Reached) && samples != [] ==> !on
  {
    if samples == [] then state else samples[|samples| - 1] == Reached
  }

  /** The command broadcast when the state moves from `previous` to `state`, if any. */
  function Transition(previous: bool, state: bool): (c: Option<Command>)
    ensures c == Some(START_MON) <==> !previous && state
    ensures c == Some(STOP_MON) <==> previous && !state
    ensures c.None? <==> previous == state
  {
    if previous != state then Some(if state then START_MON else STOP_MON) else None
  }

  class Heartbeat {
    var previous: bool
    var monitoringState: bool

    constructor()
      ensures !previous && !monitoringState
    {
      previous := false;
      monitoringState := false;
    }

    /**
     * One heartbeat round over the sample URLs: each sample sets the global
     * monitoring state, START_MON or STOP_MON is broadcast when it differs
     * from the previous round, and the state is remembered.
     */
    method Round(samples: seq<SampleOutcome>) returns (sent: Option<Command>)
      modifies this
      ensures monitoringState == StateAfter(old(monitoringState), samples)
      ensures sent == Transition(old(previous), monitoringState)
      ensures previous == monitoringState
    {
      var i := 0;
      while i < |samples|
        invariant 0 <= i <= |samples|
        invariant monitoringState == StateAfter(old(monitoringState), samples[..i])
        invariant previous == old(previous)
      {
        match samples[i] {
          case RequestFailed =>
            monitoringState := false;
          case ClientFailed =>
            monitoringState := false;
          case Reached =>
            monitoringState := true;
        }
        i := i + 1;
      }
      assert samples[..|samples|] == samples;
      sent := None;
      if previous != monitoringState {
        if monitoringState {
          sent := Some(START_MON);
        } else {
          sent := Some(STOP_MON);
        }
      }
      previous := monitoringState;
    }
  }

  /** A failing last sample stops monitoring even when earlier samples were reached. */
  lemma LastSampleWins()
    ensures StateAfter(false, [Reached, ClientFailed]) == false
    ensures StateAfter(true, [RequestFailed, Reached]) == true
    ensures Transition(true, StateAfter(true, [Reached, ClientFailed])) == Some(STOP_MON)
  {
  }
}
