// The statistics keeper: a single owner of the per-stream statistics and of
// the persistent history of results and errors. Every channel case of its
// loop is a method; the request/reply wrappers are the load methods.

module StatsKeeping {
  import opened Wrappers
  import opened Structures

  /** Cleanup of expired entries runs at most once per this period. */
  const CleanUpPeriod: int := 30 * Second

  /** How far back the result history is read. */
  const ResultWindow: int := 6 * Hour

  /** The statistics reported for `key`: the saved value, or all zeros if none was saved. */
  function StatsFor(stats: map<Key, Stats>, key: Key): (s: Stats)
    ensures key in stats ==> s == stats[key]
    ensures key !in stats ==> s == ZeroStats
  {
    if key in stats then stats[key] else ZeroStats
  }

  /** A save is seen by the next load of the same key and by no other key. */
  lemma SaveThenLoadStats(stats: map<Key, Stats>, key: Key, last: Stats, other: Key)
    ensures StatsFor(stats[key := last], key) == last
    ensures other != key ==> StatsFor(stats[key := last], other) == StatsFor(stats, other)
  {
  }

  /** The entries of `hist` started within [from, to], in stored order. */
  function Window(hist: seq<KeepedResult>, from: int, to: int): (w: seq<KeepedResult>)
    ensures |w| <= |hist|
    ensures forall x :: x in w ==> x in hist && from <= x.started <= to
  {
    if hist == [] then []
    else Window(hist[..|hist| - 1], from, to)
         + (if from <= hist[|hist| - 1].started <= to then [hist[|hist| - 1]] else [])
  }

  /** Every stored entry inside the window is returned. */
  lemma {:induction false} WindowComplete(hist: seq<KeepedResult>, from: int, to: int, x: KeepedResult)
    requires x in hist && from <= x.started <= to
    ensures x in Window(hist, from, to)
  {
    var init := hist[..|hist| - 1];
    if x != hist[|hist| - 1] {
      assert hist == init + [hist[|hist| - 1]];
      WindowComplete(init, from, to, x);
    }
  }

  /** Keeping a result that lies in the window makes it the last entry of the window. */
  lemma WindowAfterKeep(hist: seq<KeepedResult>, x: KeepedResult, from: int, to: int)
    requires from <= x.started <= to
    ensures Window(hist + [x], from, to) == Window(hist, from, to) + [x]
  {
    assert (hist + [x])[..|hist|] == hist;
  }

  /** The error entries timed within [from, to]. */
  function ErrorWindow(errs: map<int, ErrType>, from: int, to: int): (w: map<int, ErrType>)
    ensures forall t :: t in w <==> t in errs && from <= t <= to
    ensures forall t :: t in w ==> w[t] == errs[t]
  {
    map t | t in errs && from <= t <= to :: errs[t]
  }

  /** The entries that survive expiry: those not older than `cutoff`, in stored order. */
  function Unexpired(hist: seq<KeepedResult>, cutoff: int): (u: seq<KeepedResult>)
    ensures |u| <= |hist|
  {
    if hist == [] then []
    else (if hist[0].started >= cutoff then [hist[0]] else []) + Unexpired(hist[1..], cutoff)
  }

  /** An entry survives expiry exactly when it was stored and is not older than the cutoff. */
  lemma {:induction false} UnexpiredMembers(hist: seq<KeepedResult>, cutoff: int, x: KeepedResult)
    ensures x in Unexpired(hist, cutoff) <==> x in hist && x.started >= cutoff
  {
    if hist != [] {
      UnexpiredMembers(hist[1..], cutoff, x);
      assert hist == [hist[0]] + hist[1..];
    }
  }

  /** The error entries not older than `cutoff`. */
  function UnexpiredErrors(errs: map<int, ErrType>, cutoff: int): (kept: map<int, ErrType>)
    ensures kept.Keys <= errs.Keys
    ensures forall t :: t in kept ==> t >= cutoff && kept[t] == errs[t]
  {
    map t | t in errs && t >= cutoff :: errs[t]
  }

  /** An error survives expiry, unchanged, exactly when it is timed at or after the cutoff. */
  lemma UnexpiredErrorsMembers(errs: map<int, ErrType>, cutoff: int, t: int)
    ensures t in UnexpiredErrors(errs, cutoff) <==> t in errs && t >= cutoff
    ensures t in UnexpiredErrors(errs, cutoff) ==> UnexpiredErrors(errs, cutoff)[t] == errs[t]
  {
  }

  /** The whole result store after expiry: every stream keeps its unexpired entries. */
  function ExpireResults(results: map<Key, seq<KeepedResult>>, cutoff: int): (e: map<Key, seq<KeepedResult>>)
    ensures e.Keys == results.Keys
    ensures forall k :: k in e ==> e[k] == Unexpired(results[k], cutoff)
  {
    map k | k in results :: Unexpired(results[k], cutoff)
  }

  /** The whole error store after expiry. */
  function ExpireErrors(errors: map<Key, map<int, ErrType>>, cutoff: int): (e: map<Key, map<int, ErrType>>)
    ensures e.Keys == errors.Keys
    ensures forall k :: k in e ==> e[k] == UnexpiredErrors(errors[k], cutoff)
  {
    map k | k in errors :: UnexpiredErrors(errors[k], cutoff)
  }

  /** Whether a result is also recorded as an error: only above WARNING_LEVEL. */
  predicate KeptAsError(r: Result) {
    r.errType > WARNING_LEVEL
  }

  class StatKeeper {
    var stats: map<Key, Stats>
    var lastCleanUp: int
    // The persistent store: per stream, the kept results in arrival order and
    // the error types by the time the failing check started.
    var results: map<Key, seq<KeepedResult>>
    var errors: map<Key, map<int, ErrType>>
    // How the store turns a probe result of a stream into its kept record.
    const keep: (Stream, Result) -> KeepedResult

    constructor(now: int, keep: (Stream, Result) -> KeepedResult)
      ensures stats == map[] && results == map[] && errors == map[]
      ensures lastCleanUp == now && this.keep == keep
    {
      stats := map[];
      results := map[];
      errors := map[];
      lastCleanUp := now;
      this.keep := keep;
    }

    function History(key: Key): seq<KeepedResult>
      reads this
    {
      if key in results then results[key] else []
    }

    function Errors(key: Key): map<int, ErrType>
      reads this
    {
      if key in errors then errors[key] else map[]
    }

    /** The `statIn` case, reached through SaveStats: overwrite the stream's statistics. */
    method SaveStats(stream: Stream, last: Stats)
      modifies this
      ensures stats == old(stats)[stream.streamKey := last]
      ensures results == old(results) && errors == old(errors) && lastCleanUp == old(lastCleanUp)
    {
      stats := stats[stream.streamKey := last];
    }

    /** The `statOut` case, reached through LoadStats: the saved statistics or zeros. */
    method LoadStats(key: Key) returns (s: Stats)
      ensures key in stats ==> s == stats[key]
      ensures key !in stats ==> s == ZeroStats
    {
      if key in stats {
        s := stats[key];
      } else {
        s := ZeroStats;
      }
    }

    /**
     * The `resultIn` case, reached through SaveResult: every result is kept,
     * and it is also recorded as an error, under its start time, when its
     * error type lies above WARNING_LEVEL.
     */
    method SaveResult(stream: Stream, last: Result)
      modifies this
      ensures results == old(results)[stream.streamKey := old(History(stream.streamKey)) + [keep(stream, last)]]
      ensures KeptAsError(last) ==>
        errors == old(errors)[stream.streamKey := old(Errors(stream.streamKey))[last.started := last.errType]]
      ensures !KeptAsError(last) ==> errors == old(errors)
      ensures stats == old(stats) && lastCleanUp == old(lastCleanUp)
    {
      var key := stream.streamKey;
      results := results[key := History(key) + [keep(stream, last)]];
      if last.errType > WARNING_LEVEL {
        errors := errors[key := Errors(key)[last.started := last.errType]];
      }
    }

    /**
     * The `resultOut` case with LoadHistoryResults: the results of the last
     * six hours. A store failure (`fault`) or an empty window is "result not
     * found", given as None.
     */
    method LoadHistoryResults(key: Key, now: int, fault: bool) returns (r: Option<seq<KeepedResult>>)
      ensures r.None? <==> fault || Window(History(key), now - ResultWindow, now) == []
      ensures r.Some? ==> r.value == Window(History(key), now - ResultWindow, now)
    {
      var data := Window(History(key), now - 6 * Hour, now);
      if fault || data == [] {
        r := None;
      } else {
        r := Some(data);
      }
    }

    /**
     * LoadLastResult: the newest entry of the six-hour history, or an empty
     * record and `found == false` when the history is not found.
     */
    method LoadLastResult(key: Key, now: int, fault: bool) returns (last: KeepedResult, found: bool)
      ensures found <==> !fault && Window(History(key), now - ResultWindow, now) != []
      ensures found ==> last == Window(History(key), now - ResultWindow, now)[|Window(History(key), now - ResultWindow, now)| - 1]
      ensures !found ==> last == ZeroKeepedResult
    {
      var data := LoadHistoryResults(key, now, fault);
      if data.Some? {
        last, found := data.value[|data.value| - 1], true;
      } else {
        last, found := ZeroKeepedResult, false;
      }
    }

    /**
     * The `errorsOut` case with LoadHistoryErrors: the errors recorded in
     * [now - from, now], or "result not found" on a store failure. The reply
     * travels as an interface value, so an empty map is still a reply.
     */
    method LoadHistoryErrors(key: Key, from: int, now: int, fault: bool) returns (r: Option<map<int, ErrType>>)
      ensures r.None? <==> fault
      ensures r.Some? ==> r.value == ErrorWindow(Errors(key), now - from, now)
    {
      if fault {
        r := None;
      } else {
        r := Some(ErrorWindow(Errors(key), now - from, now));
      }
    }

    /**
     * The idle case: when more than thirty seconds have passed since the
     * last cleanup, drop the entries older than `expire` and restart the
     * period; otherwise change nothing.
     */
    method CleanUp(now: int, expire: int) returns (ran: bool)
      modifies this
      ensures ran <==> now - old(lastCleanUp) > CleanUpPeriod
      ensures if ran then
          lastCleanUp == now &&
          results == ExpireResults(old(results), now - expire) &&
          errors == ExpireErrors(old(errors), now - expire)
        else
          lastCleanUp == old(lastCleanUp) && results == old(results) && errors == old(errors)
      ensures stats == old(stats)
    {
      if now - lastCleanUp > CleanUpPeriod {
        var cutoff := now - expire;
        errors := ExpireErrors(errors, cutoff);
        results := ExpireResults(results, cutoff);
        lastCleanUp := now;
        ran := true;
      } else {
        ran := false;
      }
    }
  }

  /** A result saved within the last six hours is what LoadLastResult returns next. */
  lemma LastResultIsNewest(hist: seq<KeepedResult>, x: KeepedResult, now: int)
    requires now - ResultWindow <= x.started <= now
    ensures var w := Window(hist + [x], now - ResultWindow, now);
      w != [] && w[|w| - 1] == x
  {
    WindowAfterKeep(hist, x, now - ResultWindow, now);
  }

  /** An error-level result saved within the queried period shows up in the error history. */
  lemma ErrorVisible(errs: map<int, ErrType>, r: Result, from: int, now: int)
    requires KeptAsError(r) && now - from <= r.started <= now
    ensures var w := ErrorWindow(errs[r.started := r.errType], now - from, now);
      r.started in w && w[r.started] == r.errType && w[r.started] > WARNING_LEVEL
  {
  }
}
