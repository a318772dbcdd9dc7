// The problem analyzer: it walks a stream's check history once and groups
// failing tasks into error ranges, then emits a report for every range that
// lasted longer than ten minutes.

module Analyzer {
  import opened Wrappers
  import opened Structures

  /** The cursor variables of the walk over the history, plus the ranges emitted so far. */
  datatype Cursor = Cursor(
    rangeOpen: bool,           // a range of failing tasks is under the cursor
    taskOK: bool,              // no check of the current task has failed yet
    start: int,                // when the open range began
    stop: int,                 // when the open range was last seen failing
    prevTid: int,
    fromTid: int,
    toTid: int,
    errlevel: ErrType,         // running maximum of the failing error types
    forSave: Option<ErrRange>, // the open range, ready to be emitted
    ranges: seq<ErrRange>)

  const Initial := Cursor(false, true, 0, 0, 0, 0, 0, SUCCESS, None, [])

  /** A check fails when its error type lies above ERROR_LEVEL. */
  predicate Failing(h: KeepedResult) {
    h.errType > ERROR_LEVEL
  }

  function Max(a: ErrType, b: ErrType): ErrType {
    if a > b then a else b
  }

  /**
   * The task bookkeeping of one iteration: on a change of task id the open
   * range is emitted and closed if the finished task had no failing check,
   * otherwise the task flag is reset; the first entry only sets prevTid.
   */
  function NextTask(c: Cursor, tid: int): (r: Cursor)
    ensures c.prevTid >= 0 ==> r.prevTid == tid
    ensures c.ranges <= r.ranges && |r.ranges| <= |c.ranges| + 1
    ensures r.ranges != c.ranges ==> c.taskOK && c.forSave.Some? && r.ranges[|c.ranges|] == c.forSave.value
  {
    if c.prevTid > 0 && c.prevTid != tid then
      if c.taskOK && c.forSave.Some? then
        c.(ranges := c.ranges + [c.forSave.value], forSave := None, rangeOpen := false, prevTid := tid)
      else
        c.(taskOK := true, prevTid := tid)
    else if c.prevTid == 0 then c.(prevTid := tid)
    else c
  }

  /** A failing check opens a range or extends the open one, and raises the error level. */
  function Record(c: Cursor, h: KeepedResult): (r: Cursor)
    ensures r.rangeOpen && !r.taskOK && r.ranges == c.ranges
    ensures r.errlevel >= h.errType && r.errlevel >= c.errlevel
    ensures r.toTid == h.tid && r.forSave == Some(ErrRange(r.fromTid, r.toTid, r.start, r.stop, r.errlevel))
  {
    var level := Max(h.errType, c.errlevel);
    var c3 :=
      if !c.rangeOpen then
        c.(rangeOpen := true, fromTid := h.tid, start := h.started, toTid := h.tid, stop := h.started)
      else
        c.(toTid := h.tid, stop := h.started + h.elapsed);
    c3.(taskOK := false, errlevel := level,
        forSave := Some(ErrRange(c3.fromTid, h.tid, c3.start, c3.stop, level)))
  }

  /** One iteration of the history loop for the entry `h`; `since` is the checkpoint time. */
  function Step(c: Cursor, h: KeepedResult, since: int): (r: Cursor)
    ensures c.ranges <= r.ranges && |r.ranges| <= |c.ranges| + 1
    ensures h.started >= since && Failing(h) ==> r.rangeOpen && r.errlevel > ERROR_LEVEL
  {
    if h.started < since then c
    else
      var c2 := NextTask(c, h.tid);
      if Failing(h) then Record(c2, h) else c2
  }

  /** The cursor after the loop has visited every entry of `hist`, in order. */
  function Walk(hist: seq<KeepedResult>, since: int): (c: Cursor)
    ensures |c.ranges| <= |hist|
  {
    if hist == [] then Initial
    else Step(Walk(hist[..|hist| - 1], since), hist[|hist| - 1], since)
  }

  /** The ranges after the loop: a range still open at the end is appended last. */
  function Finish(c: Cursor): (rs: seq<ErrRange>)
    ensures c.ranges <= rs
    ensures |rs| == |c.ranges| + 1 <==> c.rangeOpen && c.errlevel > 0
    ensures |rs| != |c.ranges| ==> |rs| == |c.ranges| + 1 && rs[|c.ranges|].err == c.errlevel
  {
    if c.rangeOpen && c.errlevel > 0 then
      c.ranges + [ErrRange(c.fromTid, c.toTid, c.start, c.stop, c.errlevel)]
    else c.ranges
  }

  /** The ranges of the walk: those emitted on the way, then possibly the one left open. */
  function ErrorRanges(hist: seq<KeepedResult>, since: int): (rs: seq<ErrRange>)
    ensures Walk(hist, since).ranges <= rs && |rs| <= |hist| + 1
  {
    Finish(Walk(hist, since))
  }

  /** A range is permanent when it lasted strictly longer than ten minutes. */
  predicate Permanent(r: ErrRange)
    ensures Permanent(r) ==> r.discontinued > r.occured
  {
    r.discontinued - r.occured > 10 * Minute
  }

  const SampleReport := Report(SUCCESS, INFO, "Sample report", "", 0)

  /** The report built for a permanent range; it ignores every argument. */
  function GeneratePermanentErrorsReport(key: Key, ranges: seq<ErrRange>, errorPersists: bool): (r: Report)
    ensures r.title == "Sample report" && r.body == ""
    ensures r.error == SUCCESS && r.severity == INFO && r.generated == 0
  {
    SampleReport
  }

  /** The reports for `rs`: one per permanent range, in order. */
  function PermanentReports(rs: seq<ErrRange>): (reports: seq<Report>)
    ensures |reports| <= |rs|
  {
    if rs == [] then []
    else PermanentReports(rs[..|rs| - 1]) + (if Permanent(rs[|rs| - 1]) then [SampleReport] else [])
  }

  /** The number of permanent ranges in `rs`. */
  function PermanentCount(rs: seq<ErrRange>): nat {
    if rs == [] then 0
    else (if Permanent(rs[0]) then 1 else 0) + PermanentCount(rs[1..])
  }

  /**
   * The HLS analysis: the loop over the history, the closing of a range left
   * open, and one report per permanent range. The checkpoint is passed by
   * value: the analysis only rebinds its local copy, so the caller's
   * checkpoint never changes.
   */
  method AnalyzeHLS(key: Key, hist: seq<KeepedResult>, lastCheck: CheckPoint) returns (reports: seq<Report>)
    ensures reports == PermanentReports(ErrorRanges(hist, lastCheck.occured))
  {
    var isRangeOpened := false;
    var isTaskOK := true;
    var start, stop := 0, 0;
    var prevTid, fromTid, toTid := 0, 0, 0;
    var errlevel: ErrType := SUCCESS;
    var errorRanges: seq<ErrRange> := [];
    var forSave: Option<ErrRange> := None;
    var since := lastCheck.occured;

    for i := 0 to |hist|
      invariant Cursor(isRangeOpened, isTaskOK, start, stop, prevTid, fromTid, toTid,
                       errlevel, forSave, errorRanges) == Walk(hist[..i], since)
    {
      var hitem := hist[i];
      WalkNext(hist, i, since);
      ghost var before := Walk(hist[..i], since);
      if hitem.started < since {
        continue;
      }
      if prevTid > 0 && prevTid != hitem.tid {
        if isTaskOK && forSave.Some? {
          errorRanges := errorRanges + [forSave.value];
          forSave := None;
          isRangeOpened := false;
        } else {
          isTaskOK := true;
        }
        prevTid := hitem.tid;
      }
      if prevTid == 0 {
        prevTid := hitem.tid;
      }
      ghost var afterTask := NextTask(before, hitem.tid);
      assert Cursor(isRangeOpened, isTaskOK, start, stop, prevTid, fromTid, toTid,
                    errlevel, forSave, errorRanges) == afterTask;
      if hitem.errType > ERROR_LEVEL {
        isTaskOK := false;
        if hitem.errType > errlevel {
          errlevel := hitem.errType;
        }
        if !isRangeOpened {
          isRangeOpened := true;
          fromTid := hitem.tid;
          start := hitem.started;
          toTid := fromTid;
          stop := start;
        } else {
          toTid := hitem.tid;
          stop := hitem.started + hitem.elapsed;
        }
        forSave := Some(ErrRange(fromTid, hitem.tid, start, stop, errlevel));
        assert Cursor(isRangeOpened, isTaskOK, start, stop, prevTid, fromTid, toTid,
                      errlevel, forSave, errorRanges) == Record(afterTask, hitem);
      }
    }
    assert hist[..|hist|] == hist;

    if isRangeOpened && errlevel > 0 {
      errorRanges := errorRanges + [ErrRange(fromTid, toTid, start, stop, errlevel)];
    }

    reports := RangeReports(key, errorRanges, isRangeOpened);
  }

  /** The report loop of the HLS analysis: one report per permanent range, in order. */
  method RangeReports(key: Key, errorRanges: seq<ErrRange>, isRangeOpened: bool) returns (reports: seq<Report>)
    ensures reports == PermanentReports(errorRanges)
  {
    reports := [];
    var j := 0;
    while j < |errorRanges|
      invariant 0 <= j <= |errorRanges|
      invariant reports == PermanentReports(errorRanges[..j])
    {
      var val := errorRanges[j];
      assert errorRanges[..j + 1][..j] == errorRanges[..j];
      if val.discontinued - val.occured > 10 * Minute {
        reports := reports + [GeneratePermanentErrorsReport(key, errorRanges, isRangeOpened)];
      }
      j := j + 1;
    }
    assert errorRanges[..|errorRanges|] == errorRanges;
  }

  /** The HDS analysis is a stub that reports nothing. */
  function AnalyzeHDS(hist: seq<KeepedResult>): (reports: seq<Report>)
    ensures reports == []
  {
    []
  }

  /** The HTTP analysis is a stub that reports nothing. */
  function AnalyzeHTTP(hist: seq<KeepedResult>): (reports: seq<Report>)
    ensures reports == []
  {
    []
  }

  /** Stored reports are not kept anywhere yet: loading gives none. */
  function LoadReports(): (reports: seq<Report>)
    ensures |reports| == 0
  {
    []
  }

  // ---------------------------------------------------------------------
  // Properties of the walk
  // ---------------------------------------------------------------------

  /** What the walk keeps true: the open range and its saved copy agree, and every emitted range failed. */
  ghost predicate Inv(c: Cursor) {
    && (c.rangeOpen <==> c.forSave.Some?)
    && (c.rangeOpen ==> c.forSave.value == ErrRange(c.fromTid, c.toTid, c.start, c.stop, c.errlevel))
    && (c.rangeOpen ==> c.errlevel > ERROR_LEVEL)
    && (forall k :: 0 <= k < |c.ranges| ==> ERROR_LEVEL < c.ranges[k].err <= c.errlevel)
    && (forall k, l :: 0 <= k < l < |c.ranges| ==> c.ranges[k].err <= c.ranges[l].err)
  }

  lemma NextTaskInv(c: Cursor, tid: int)
    requires Inv(c)
    ensures Inv(NextTask(c, tid))
  {
    if c.prevTid > 0 && c.prevTid != tid && c.taskOK && c.forSave.Some? {
      var n := NextTask(c, tid);
      assert n.ranges == c.ranges + [c.forSave.value];
      assert c.forSave.value.err == c.errlevel;
    }
  }

  lemma RecordInv(c: Cursor, h: KeepedResult)
    requires Inv(c) && Failing(h)
    ensures Inv(Record(c, h))
  {
    var n := Record(c, h);
    assert n.ranges == c.ranges && n.errlevel >= c.errlevel;
  }

  lemma StepInv(c: Cursor, h: KeepedResult, since: int)
    requires Inv(c)
    ensures Inv(Step(c, h, since))
  {
    if h.started >= since {
      NextTaskInv(c, h.tid);
      if Failing(h) {
        RecordInv(NextTask(c, h.tid), h);
      }
    }
  }

  lemma {:induction false} WalkInv(hist: seq<KeepedResult>, since: int)
    ensures Inv(Walk(hist, since))
  {
    if hist != [] {
      WalkInv(hist[..|hist| - 1], since);
      StepInv(Walk(hist[..|hist| - 1], since), hist[|hist| - 1], since);
    }
  }

  /** The open range saved for emission is exactly the one the cursor describes. */
  lemma OpenRangeIsSaved(hist: seq<KeepedResult>, since: int)
    ensures var c := Walk(hist, since);
      (c.rangeOpen <==> c.forSave.Some?) &&
      (c.rangeOpen ==> c.forSave.value == ErrRange(c.fromTid, c.toTid, c.start, c.stop, c.errlevel))
  {
    WalkInv(hist, since);
  }

  /** Every emitted range failed, and the error levels of the ranges never decrease in output order. */
  lemma RangesFailingAndMonotone(hist: seq<KeepedResult>, since: int)
    ensures var rs := ErrorRanges(hist, since);
      (forall k :: 0 <= k < |rs| ==> rs[k].err > ERROR_LEVEL) &&
      (forall k, l :: 0 <= k < l < |rs| ==> rs[k].err <= rs[l].err)
  {
    WalkInv(hist, since);
  }

  /** A range still open at the end of the walk is the last one emitted. */
  lemma OpenRangeEmittedLast(hist: seq<KeepedResult>, since: int)
    requires Walk(hist, since).rangeOpen
    ensures var c := Walk(hist, since);
      c.forSave.Some? && ErrorRanges(hist, since) == c.ranges + [c.forSave.value]
  {
    WalkInv(hist, since);
  }

  /** Opening a range records the failing check's task and time as both ends. */
  lemma OpeningRange(c: Cursor, h: KeepedResult, since: int)
    requires !c.rangeOpen && Failing(h) && h.started >= since
    ensures var n := Step(c, h, since);
      n.rangeOpen && !n.taskOK && n.fromTid == h.tid && n.toTid == h.tid &&
      n.start == h.started && n.stop == h.started && n.errlevel == Max(h.errType, c.errlevel)
  {
  }

  /** A later failing check extends the open range to its task and to its end time. */
  lemma ExtendingRange(c: Cursor, h: KeepedResult, since: int)
    requires Inv(c) && c.rangeOpen && Failing(h) && h.started >= since
    requires !(c.prevTid > 0 && c.prevTid != h.tid && c.taskOK)
    ensures var n := Step(c, h, since);
      n.rangeOpen && !n.taskOK && n.fromTid == c.fromTid && n.start == c.start &&
      n.toTid == h.tid && n.stop == h.started + h.elapsed && n.ranges == c.ranges
  {
  }

  /**
   * At a change of task id the open range is emitted and closed exactly when
   * the finished task had no failing check; otherwise the task flag is reset
   * and the range stays open.
   */
  lemma TaskBoundary(c: Cursor, h: KeepedResult, since: int)
    requires Inv(c) && h.started >= since && c.prevTid > 0 && c.prevTid != h.tid && !Failing(h)
    ensures var n := Step(c, h, since);
      n.prevTid == h.tid &&
      (c.rangeOpen && c.taskOK ==> n.ranges == c.ranges + [c.forSave.value] && !n.rangeOpen) &&
      (!(c.rangeOpen && c.taskOK) ==> n.ranges == c.ranges && n.rangeOpen == c.rangeOpen && n.taskOK)
  {
  }

  /** Entries older than the checkpoint leave the cursor untouched. */
  lemma OldEntryIgnored(c: Cursor, h: KeepedResult, since: int)
    requires h.started < since
    ensures Step(c, h, since) == c
  {
  }

  /** The entries the walk does not skip. */
  function Kept(hist: seq<KeepedResult>, since: int): (k: seq<KeepedResult>)
    ensures forall x :: x in k ==> x in hist && x.started >= since
  {
    if hist == [] then []
    else Kept(hist[..|hist| - 1], since) + (if hist[|hist| - 1].started < since then [] else [hist[|hist| - 1]])
  }

  /** Dropping the entries older than the checkpoint beforehand changes nothing. */
  lemma {:induction false} WalkOfKept(hist: seq<KeepedResult>, since: int)
    ensures Walk(Kept(hist, since), since) == Walk(hist, since)
  {
    if hist != [] {
      var init := hist[..|hist| - 1];
      var last := hist[|hist| - 1];
      WalkOfKept(init, since);
      if last.started >= since {
        assert Kept(hist, since) == Kept(init, since) + [last];
        WalkSnoc(Kept(init, since), last, since);
      } else {
        assert Kept(hist, since) == Kept(init, since) + [];
        assert Kept(hist, since) == Kept(init, since);
        assert Walk(hist, since) == Step(Walk(init, since), last, since);
        OldEntryIgnored(Walk(init, since), last, since);
      }
    }
  }

  /** Without a failing entry since the checkpoint no range is reported. */
  lemma {:induction false} NoFailureNoRanges(hist: seq<KeepedResult>, since: int)
    requires forall k :: 0 <= k < |hist| && hist[k].started >= since ==> !Failing(hist[k])
    ensures Walk(hist, since).ranges == [] && !Walk(hist, since).rangeOpen
    ensures ErrorRanges(hist, since) == []
  {
    if hist != [] {
      var init := hist[..|hist| - 1];
      assert forall k :: 0 <= k < |init| ==> init[k] == hist[k];
      NoFailureNoRanges(init, since);
      WalkInv(init, since);
    }
  }

  /** Once a failing entry has been seen, some range is open or emitted. */
  lemma {:induction false} FailureGivesRange(hist: seq<KeepedResult>, since: int, i: int)
    requires 0 <= i < |hist| && hist[i].started >= since && Failing(hist[i])
    ensures Walk(hist, since).rangeOpen || Walk(hist, since).ranges != []
    ensures ErrorRanges(hist, since) != []
  {
    var init := hist[..|hist| - 1];
    WalkInv(hist, since);
    WalkInv(init, since);
    if i < |hist| - 1 {
      assert init[i] == hist[i];
      FailureGivesRange(init, since, i);
    }
  }

  /** The report count is the number of ranges that lasted longer than ten minutes, and each report is the sample one. */
  lemma {:induction false} PermanentReportsCount(rs: seq<ErrRange>)
    ensures |PermanentReports(rs)| == PermanentCount(rs)
    ensures forall r :: r in PermanentReports(rs) ==> r == SampleReport
  {
    if rs != [] {
      var init := rs[..|rs| - 1];
      PermanentReportsCount(init);
      PermanentCountSnoc(init, rs[|rs| - 1]);
      assert init + [rs[|rs| - 1]] == rs;
    }
  }

  lemma {:induction false} PermanentCountSnoc(rs: seq<ErrRange>, r: ErrRange)
    ensures PermanentCount(rs + [r]) == PermanentCount(rs) + (if Permanent(r) then 1 else 0)
  {
    if rs != [] {
      assert (rs + [r])[1..] == rs[1..] + [r];
      PermanentCountSnoc(rs[1..], r);
    } else {
      assert (rs + [r])[1..] == [];
    }
  }

  /** A range of exactly ten minutes is not reported; one nanosecond more is. */
  lemma PermanentBoundary(r: ErrRange)
    ensures r.discontinued - r.occured == 10 * Minute ==> PermanentReports([r]) == []
    ensures r.discontinued - r.occured == 10 * Minute + 1 ==> PermanentReports([r]) == [SampleReport]
  {
    assert [r][..0] == [];
  }

  // ---------------------------------------------------------------------
  // Ordering of the ranges for a history in task order
  // ---------------------------------------------------------------------

  /** Task ids are positive and never decrease along the history. */
  ghost predicate TaskOrdered(hist: seq<KeepedResult>) {
    && (forall k :: 0 <= k < |hist| ==> hist[k].tid > 0)
    && (forall k, l :: 0 <= k < l < |hist| ==> hist[k].tid <= hist[l].tid)
  }

  /** Emitted ranges are well formed and strictly separated by task id. */
  ghost predicate Separated(rs: seq<ErrRange>) {
    && (forall k :: 0 <= k < |rs| ==> rs[k].fromTid <= rs[k].toTid)
    && (forall k :: 0 <= k < |rs| - 1 ==> rs[k].toTid < rs[k + 1].fromTid)
  }

  ghost predicate OrderInv(c: Cursor) {
    && Inv(c)
    && c.prevTid >= 0
    && Separated(c.ranges)
    && (c.ranges != [] ==> c.ranges[|c.ranges| - 1].toTid < c.prevTid)
    && (c.rangeOpen ==> 0 < c.fromTid <= c.toTid <= c.prevTid)
    && (c.rangeOpen && c.ranges != [] ==> c.ranges[|c.ranges| - 1].toTid < c.fromTid)
  }

  lemma SeparatedSnoc(rs: seq<ErrRange>, r: ErrRange)
    requires Separated(rs) && r.fromTid <= r.toTid
    requires rs != [] ==> rs[|rs| - 1].toTid < r.fromTid
    ensures Separated(rs + [r])
  {
  }

  lemma StepOrder(c: Cursor, h: KeepedResult, since: int)
    requires OrderInv(c) && h.tid > 0 && h.tid >= c.prevTid
    ensures OrderInv(Step(c, h, since))
    ensures h.started >= since ==> Step(c, h, since).prevTid == h.tid
  {
    StepInv(c, h, since);
    if h.started >= since && c.prevTid > 0 && c.prevTid != h.tid && c.taskOK && c.forSave.Some? {
      SeparatedSnoc(c.ranges, c.forSave.value);
    }
  }

  lemma {:induction false} WalkOrder(hist: seq<KeepedResult>, since: int)
    requires TaskOrdered(hist)
    ensures OrderInv(Walk(hist, since))
    ensures hist != [] ==> Walk(hist, since).prevTid <= hist[|hist| - 1].tid
    ensures hist == [] ==> Walk(hist, since).prevTid == 0
  {
    if hist != [] {
      var init := hist[..|hist| - 1];
      var last := hist[|hist| - 1];
      assert forall k :: 0 <= k < |init| ==> init[k] == hist[k];
      WalkOrder(init, since);
      StepOrder(Walk(init, since), last, since);
    }
  }

  /** For a history in task order the ranges are disjoint and follow one another. */
  lemma RangesSeparated(hist: seq<KeepedResult>, since: int)
    requires TaskOrdered(hist)
    ensures Separated(ErrorRanges(hist, since))
  {
    WalkOrder(hist, since);
    var c := Walk(hist, since);
    if c.rangeOpen && c.errlevel > 0 {
      SeparatedSnoc(c.ranges, ErrRange(c.fromTid, c.toTid, c.start, c.stop, c.errlevel));
    }
  }

  // ---------------------------------------------------------------------
  // Two concrete histories
  // ---------------------------------------------------------------------

  function Check(tid: int, started: int, elapsed: int, err: ErrType): KeepedResult {
    ZeroKeepedResult.(tid := tid, started := started, elapsed := elapsed, errType := err)
  }

  lemma WalkNext(hist: seq<KeepedResult>, i: int, since: int)
    requires 0 <= i < |hist|
    ensures Walk(hist[..i + 1], since) == Step(Walk(hist[..i], since), hist[i], since)
  {
    assert hist[..i + 1][..i] == hist[..i];
  }

  lemma WalkSnoc(init: seq<KeepedResult>, h: KeepedResult, since: int)
    ensures Walk(init + [h], since) == Step(Walk(init, since), h, since)
  {
    assert (init + [h])[..|init|] == init;
  }

  /**
   * Five failing tasks 100..104 three minutes apart, then a success in task
   * 105: the range is still open when the loop ends, so it is emitted by the
   * closing step, and it lasted over ten minutes, so it is reported.
   */
  lemma FiveFailingTasksThenSuccess()
    ensures var hist := [Check(100, 0, Second, BADSTATUS), Check(101, 3 * Minute, Second, BADSTATUS),
                         Check(102, 6 * Minute, Second, BADSTATUS), Check(103, 9 * Minute, Second, BADSTATUS),
                         Check(104, 12 * Minute, Second, BADSTATUS), Check(105, 15 * Minute, Second, SUCCESS)];
      ErrorRanges(hist, 0) == [ErrRange(100, 104, 0, 12 * Minute + Second, BADSTATUS)] &&
      PermanentReports(ErrorRanges(hist, 0)) == [SampleReport]
  {
    var a, b, c, d, e, f := Check(100, 0, Second, BADSTATUS), Check(101, 3 * Minute, Second, BADSTATUS),
                            Check(102, 6 * Minute, Second, BADSTATUS), Check(103, 9 * Minute, Second, BADSTATUS),
                            Check(104, 12 * Minute, Second, BADSTATUS), Check(105, 15 * Minute, Second, SUCCESS);
    var h1 := [a];
    var h2, h3, h4, h5, h6 := h1 + [b], h1 + [b] + [c], h1 + [b] + [c] + [d], h1 + [b] + [c] + [d] + [e],
                              h1 + [b] + [c] + [d] + [e] + [f];
    WalkSnoc([], a, 0);
    assert [] + [a] == h1;
    assert Walk(h1, 0) == OpenFrom100(100, 0);
    WalkSnoc(h1, b, 0);
    NextFailingTask(100, 0, 3 * Minute);
    WalkSnoc(h2, c, 0);
    NextFailingTask(101, 3 * Minute + Second, 6 * Minute);
    WalkSnoc(h3, d, 0);
    NextFailingTask(102, 6 * Minute + Second, 9 * Minute);
    WalkSnoc(h4, e, 0);
    NextFailingTask(103, 9 * Minute + Second, 12 * Minute);
    WalkSnoc(h5, f, 0);
    assert Walk(h6, 0) == OpenFrom100(104, 12 * Minute + Second).(taskOK := true, prevTid := 105);
    assert h6 == [a, b, c, d, e, f];
    var rs := ErrorRanges(h6, 0);
    assert rs == [ErrRange(100, 104, 0, 12 * Minute + Second, BADSTATUS)];
    assert rs[..0] == [];
  }

  /** The cursor of a BADSTATUS range opened by task 100 at time 0, last failing in task `tid` until `stop`. */
  function OpenFrom100(tid: int, stop: int): Cursor {
    Cursor(true, false, 0, stop, tid, 100, tid, BADSTATUS, Some(ErrRange(100, tid, 0, stop, BADSTATUS)), [])
  }

  /** A failing check of the next task extends such a range. */
  lemma NextFailingTask(tid: int, stop: int, started: int)
    requires tid >= 100 && started >= 0
    ensures Step(OpenFrom100(tid, stop), Check(tid + 1, started, Second, BADSTATUS), 0) ==
            OpenFrom100(tid + 1, started + Second)
  {
  }

  /**
   * A failing check followed by a success inside the same task 50: the task
   * never ends, so the range stays open and is emitted with zero duration,
   * which is too short for a report.
   */
  lemma FailureThenSuccessInOneTask()
    ensures var hist := [Check(50, 0, Second, REFUSED), Check(50, Second, Second, SUCCESS)];
      ErrorRanges(hist, 0) == [ErrRange(50, 50, 0, 0, REFUSED)] &&
      PermanentReports(ErrorRanges(hist, 0)) == []
  {
    var a, b := Check(50, 0, Second, REFUSED), Check(50, Second, Second, SUCCESS);
    WalkSnoc([], a, 0);
    assert [] + [a] == [a];
    WalkSnoc([a], b, 0);
    assert [a] + [b] == [a, b];
    var c2 := Walk([a, b], 0);
    assert c2.rangeOpen && c2.ranges == [] && c2.fromTid == 50 && c2.toTid == 50 && c2.start == 0 && c2.stop == 0;
    var rs := ErrorRanges([a, b], 0);
    assert rs == [ErrRange(50, 50, 0, 0, REFUSED)];
    assert rs[..0] == [];
  }

  // ---------------------------------------------------------------------
  // The analyzer loop state
  // ---------------------------------------------------------------------

  /** Where a stream seen for the first time starts being analysed. */
  function Seed(now: int): (cp: CheckPoint)
    ensures cp.tid == 0 && cp.occured == now - 2 * Hour && cp.openedRange.None?
  {
    CheckPoint(0, now - 2 * Hour, None)
  }

  /** The checkpoint in use for `key`: the stored one, or a fresh seed. */
  function CheckPointFor(lastAnalyzed: map<Key, CheckPoint>, key: Key, now: int): (cp: CheckPoint)
    ensures key in lastAnalyzed ==> cp == lastAnalyzed[key]
    ensures key !in lastAnalyzed ==> cp == Seed(now)
  {
    if key in lastAnalyzed then lastAnalyzed[key] else Seed(now)
  }

  /** The reports of one stream, chosen by the group's stream type; other types keep the previous reports. */
  function ReportsFor(groupType: StreamType, key: Key, hist: seq<KeepedResult>, cp: CheckPoint,
                      previous: seq<Report>): (reports: seq<Report>)
    ensures groupType == HLS ==> |reports| <= |ErrorRanges(hist, cp.occured)|
    ensures groupType == HDS || groupType == HTTP ==> reports == []
    ensures groupType != HLS && groupType != HDS && groupType != HTTP ==> reports == previous
  {
    if groupType == HLS then PermanentReports(ErrorRanges(hist, cp.occured))
    else if groupType == HDS then AnalyzeHDS(hist)
    else if groupType == HTTP then AnalyzeHTTP(hist)
    else previous
  }

  class ProblemAnalyzer {
    var lastAnalyzed: map<Key, CheckPoint>
    var reports: seq<Report>

    constructor()
      ensures lastAnalyzed == map[] && reports == []
    {
      lastAnalyzed := map[];
      reports := [];
    }

    /**
     * One stream of one analyzer cycle: seed the checkpoint if the stream is
     * new, load its history (None when the store reports "not found"), run
     * the detector of the group's type and store the checkpoint back.
     */
    method AnalyzeStream(streamKey: Key, groupType: StreamType, now: int, hist: Option<seq<KeepedResult>>)
      modifies this
      ensures lastAnalyzed == old(lastAnalyzed)[streamKey := CheckPointFor(old(lastAnalyzed), streamKey, now)]
      ensures hist.None? ==> reports == old(reports)
      ensures hist.Some? ==> reports == ReportsFor(groupType, streamKey, hist.value,
                                                   CheckPointFor(old(lastAnalyzed), streamKey, now), old(reports))
    {
      if streamKey !in lastAnalyzed {
        var startpoint := now - 2 * Hour;
        lastAnalyzed := lastAnalyzed[streamKey := CheckPoint(0, startpoint, None)];
      }
      var checkPoint := lastAnalyzed[streamKey];
      if hist.None? {
        return;
      }
      if groupType == HLS {
        reports := AnalyzeHLS(streamKey, hist.value, checkPoint);
      } else if groupType == HDS {
        reports := AnalyzeHDS(hist.value);
      } else if groupType == HTTP {
        reports := AnalyzeHTTP(hist.value);
      }
      lastAnalyzed := lastAnalyzed[streamKey := checkPoint];
    }

    /**
     * One pass over the configured streams, `load` standing for the history
     * store. Every listed stream ends up with a checkpoint, and a checkpoint
     * once stored is never moved: the analysis does not advance it.
     */
    method Cycle(streams: seq<(Key, StreamType)>, now: int, load: Key -> Option<seq<KeepedResult>>)
      modifies this
      ensures lastAnalyzed.Keys == old(lastAnalyzed).Keys + set s | s in streams :: s.0
      ensures forall k :: k in old(lastAnalyzed) ==> lastAnalyzed[k] == old(lastAnalyzed)[k]
      ensures forall k :: k in lastAnalyzed && k !in old(lastAnalyzed) ==> lastAnalyzed[k] == Seed(now)
    {
      var i := 0;
      while i < |streams|
        invariant 0 <= i <= |streams|
        invariant lastAnalyzed.Keys == old(lastAnalyzed).Keys + set s | s in streams[..i] :: s.0
        invariant forall k :: k in old(lastAnalyzed) ==> lastAnalyzed[k] == old(lastAnalyzed)[k]
        invariant forall k :: k in lastAnalyzed && k !in old(lastAnalyzed) ==> lastAnalyzed[k] == Seed(now)
      {
        var s := streams[i];
        AnalyzeStream(s.0, s.1, now, load(s.0));
        assert streams[..i + 1] == streams[..i] + [s];
        i := i + 1;
      }
      assert streams[..|streams|] == streams;
    }
  }
}
