// The counting and labelling rules of the activity report pages: the stream
// list with its problem counts, the stream info page with its error buckets,
// and the check history with its raw-result links. Page templates are not
// modelled; a page is the data handed to its template.

module WebReport {
  import opened Wrappers
  import opened Structures
  import opened Helpers
  import opened Logging
  import opened ApiHelpers
  import opened StatsKeeping

  // ---------------------------------------------------------------------
  // Problem counts
  // ---------------------------------------------------------------------

  /** The times of the recorded errors whose type lies above `level`. */
  function Above(hist: map<int, ErrType>, level: ErrType): (ts: set<int>)
    ensures ts <= hist.Keys
  {
    set t | t in hist && hist[t] > level
  }

  lemma NonEmpty(s: set<int>)
    requires s != {}
    ensures exists t :: t in s
  {
    if forall t :: t !in s {
      assert false;
    }
  }

  /** Some time of a non-empty set: the next key a map iteration visits. */
  method Pick(s: set<int>) returns (t: int)
    requires s != {}
    ensures t in s
  {
    NonEmpty(s);
    t :| t in s;
  }

  /**
   * One of the problem counts of the stream list: the number of errors of a
   * loaded window whose type lies above `level`; nothing is counted when the
   * window could not be loaded.
   */
  method CountAbove(hist: Option<map<int, ErrType>>, level: ErrType) returns (n: nat)
    ensures hist.None? ==> n == 0
    ensures hist.Some? ==> n == |Above(hist.value, level)|
  {
    n := 0;
    if hist.None? {
      return;
    }
    var h := hist.value;
    var rest := h.Keys;
    while rest != {}
      invariant rest <= h.Keys
      invariant n == |Above(h, level) - rest|
      decreases |rest|
    {
      var t := Pick(rest);
      VisitKey(h, level, rest, t);
      if h[t] > level {
        n := n + 1;
      }
      rest := rest - {t};
    }
    assert Above(h, level) - {} == Above(h, level);
  }

  /** Visiting key `t` adds it to the counted part exactly when its error lies above `level`. */
  lemma VisitKey(h: map<int, ErrType>, level: ErrType, rest: set<int>, t: int)
    requires t in rest && rest <= h.Keys
    ensures |Above(h, level) - (rest - {t})| == |Above(h, level) - rest| + (if h[t] > level then 1 else 0)
    ensures Above(h, level) - (rest - {t}) != {} <==> Above(h, level) - rest != {} || h[t] > level
  {
    if h[t] > level {
      assert Above(h, level) - (rest - {t}) == (Above(h, level) - rest) + {t};
      assert t in Above(h, level) - (rest - {t});
    } else {
      assert Above(h, level) - (rest - {t}) == Above(h, level) - rest;
    }
  }

  /** A narrower window of the same error record never counts more. */
  lemma AboveMonotone(small: map<int, ErrType>, big: map<int, ErrType>, level: ErrType)
    requires forall t :: t in small ==> t in big && big[t] == small[t]
    ensures |Above(small, level)| <= |Above(big, level)|
  {
    forall t | t in Above(small, level)
      ensures t in Above(big, level)
    {
    }
    SubsetCard(Above(small, level), Above(big, level));
  }

  lemma SubsetCard(a: set<int>, b: set<int>)
    requires a <= b
    ensures |a| <= |b|
  {
    assert b == a + (b - a);
  }

  /**
   * The 15-minute count never exceeds the 1-hour count and the 3-minute
   * count never exceeds the 15-minute one, for windows cut from the same
   * error record at the same moment.
   */
  lemma WindowCountsNest(errs: map<int, ErrType>, now: int, level: ErrType)
    ensures |Above(ErrorWindow(errs, now - 3 * Minute, now), level)| <=
            |Above(ErrorWindow(errs, now - 15 * Minute, now), level)|
    ensures |Above(ErrorWindow(errs, now - 15 * Minute, now), level)| <=
            |Above(ErrorWindow(errs, now - Hour, now), level)|
  {
    AboveMonotone(ErrorWindow(errs, now - 3 * Minute, now), ErrorWindow(errs, now - 15 * Minute, now), level);
    AboveMonotone(ErrorWindow(errs, now - 15 * Minute, now), ErrorWindow(errs, now - Hour, now), level);
  }

  /**
   * The severity of a row of the stream list, from its 3-minute window:
   * "error" when an error above ERROR_LEVEL was recorded, else "warning"
   * when one above WARNING_LEVEL was, else empty.
   */
  function RowSeverity(short: Option<map<int, ErrType>>): (s: string)
    ensures s == "error" || s == "warning" || s == ""
  {
    if short.None? then ""
    else if Above(short.value, ERROR_LEVEL) != {} then "error"
    else if Above(short.value, WARNING_LEVEL) != {} then "warning"
    else ""
  }

  /** The severity is empty exactly when the short count is zero, and "error" exactly when an error above ERROR_LEVEL was seen. */
  lemma RowSeverityMeaning(short: Option<map<int, ErrType>>)
    ensures RowSeverity(short) == "" <==> short.None? || |Above(short.value, WARNING_LEVEL)| == 0
    ensures RowSeverity(short) == "error" <==>
      short.Some? && exists t :: t in short.value && short.value[t] > ERROR_LEVEL
  {
    if short.Some? {
      var h := short.value;
      if Above(h, ERROR_LEVEL) != {} {
        NonEmpty(Above(h, ERROR_LEVEL));
        var t :| t in Above(h, ERROR_LEVEL);
        assert t in Above(h, WARNING_LEVEL);
      }
      if exists t :: t in h && h[t] > ERROR_LEVEL {
        var t :| t in h && h[t] > ERROR_LEVEL;
        assert t in Above(h, ERROR_LEVEL);
      }
    }
  }

  /**
   * The 3-minute window's loop: it counts the errors above WARNING_LEVEL
   * and marks the row "error" on any error above ERROR_LEVEL; after the
   * loop a row with problems but no such error is a "warning".
   */
  method ShortWindow(short: Option<map<int, ErrType>>) returns (severity: string, count: nat)
    ensures severity == RowSeverity(short)
    ensures short.None? ==> count == 0
    ensures short.Some? ==> count == |Above(short.value, WARNING_LEVEL)|
  {
    severity := "";
    count := 0;
    if short.Some? {
      var h := short.value;
      var rest := h.Keys;
      while rest != {}
        invariant rest <= h.Keys
        invariant count == |Above(h, WARNING_LEVEL) - rest|
        invariant severity == "error" || severity == ""
        invariant severity == "error" <==> Above(h, ERROR_LEVEL) - rest != {}
        decreases |rest|
      {
        var t := Pick(rest);
        VisitKey(h, ERROR_LEVEL, rest, t);
        VisitKey(h, WARNING_LEVEL, rest, t);
        if h[t] > ERROR_LEVEL {
          severity := "error";
        }
        if h[t] > WARNING_LEVEL {
          count := count + 1;
        }
        rest := rest - {t};
      }
      assert Above(h, ERROR_LEVEL) - {} == Above(h, ERROR_LEVEL);
      assert Above(h, WARNING_LEVEL) - {} == Above(h, WARNING_LEVEL);
    }
    if severity == "" && count > 0 {
      severity := "warning";
    }
  }

  /** The count shown for a window: its errors above `level`, or zero when it could not be loaded. */
  function Count(hist: Option<map<int, ErrType>>, level: ErrType): nat {
    if hist.None? then 0 else |Above(hist.value, level)|
  }

  // ---------------------------------------------------------------------
  // The stream list
  // ---------------------------------------------------------------------

  /** A group is listed when there is no filter or its hex key equals the lower-cased filter. */
  predicate GroupListed(filter: string, groupKey: Key) {
    filter == "" || KeyString(groupKey) == Lower(filter)
  }

  /** A filter lists at most one group. */
  lemma AtMostOneGroupListed(filter: string, k1: Key, k2: Key)
    requires filter != "" && GroupListed(filter, k1) && GroupListed(filter, k2)
    ensures k1 == k2
  {
    KeyStringInjective(k1, k2);
  }

  /** One row of the stream list; the group column is present only without a filter. */
  datatype IndexRow = IndexRow(
    severity: string,
    group: Option<string>,   // link to the group's list
    stream: string,          // link to the stream's info page
    checks: string,
    avgTime: string,
    short: string,           // problems in the last 3 minutes
    mid: string,             // problems in the last 15 minutes
    long: string)            // problems in the last hour

  /** The cells of a row, severity first. */
  function Cells(r: IndexRow): seq<string> {
    [r.severity] + (if r.group.Some? then [r.group.value] else [])
    + [r.stream, r.checks, r.avgTime, r.short, r.mid, r.long]
  }

  function IndexTitle(filter: string): string {
    if filter != "" then "List of streams for " + filter else "List of streams"
  }

  function IndexHead(filter: string): seq<string> {
    if filter != "" then
      ["Name", "Checks", "Avg. resp.time", "Problems (3 min)", "Problems (last 15 min)", "Problems (last 1 hour)"]
    else
      ["Group", "Name", "Checks", "Avg. resp.time", "Problems (last 3 min)", "Problems (last 15 min)",
       "Problems (last 1 hour)"]
  }

  /** The row of one stream, from its statistics and its 1-hour, 15-minute and 3-minute error windows. */
  function Row(filter: string, groupKey: Key, groupName: string, streamKey: Key, stream: Stream, stats: Stats,
               long: Option<map<int, ErrType>>, mid: Option<map<int, ErrType>>,
               short: Option<map<int, ErrType>>): (r: IndexRow)
    ensures r.group.Some? <==> filter == ""
    ensures r.severity == "" <==> short.None? || |Above(short.value, WARNING_LEVEL)| == 0
    ensures r.avgTime == "0"
  {
    RowSeverityMeaning(short);
    IndexRow(RowSeverity(short),
             if filter != "" then None else Some(Href("/act/" + KeyString(groupKey), groupName, [])),
             Href("/act/" + KeyString(groupKey) + "/" + KeyString(streamKey), stream.name, []),
             IntToString(stats.checks), "0",
             IntToString(Count(short, WARNING_LEVEL)), IntToString(Count(mid, WARNING_LEVEL)),
             IntToString(Count(long, WARNING_LEVEL)))
  }

  /** Every row has one cell more than the header, the severity, in both layouts. */
  lemma RowFitsHead(filter: string, groupKey: Key, groupName: string, streamKey: Key, stream: Stream, stats: Stats,
                    long: Option<map<int, ErrType>>, mid: Option<map<int, ErrType>>, short: Option<map<int, ErrType>>)
    ensures var r := Row(filter, groupKey, groupName, streamKey, stream, stats, long, mid, short);
      |Cells(r)| == |IndexHead(filter)| + 1 && Cells(r)[0] == r.severity &&
      (r.group.Some? <==> filter == "")
  {
  }

  /**
   * The body of the inner loop: the stream's statistics, its three problem
   * counts and its severity, laid out for the filtered or unfiltered list.
   */
  method StreamRow(filter: string, groupKey: Key, groupName: string, streamKey: Key, stream: Stream,
                   stats: Stats, long: Option<map<int, ErrType>>, mid: Option<map<int, ErrType>>,
                   short: Option<map<int, ErrType>>) returns (row: IndexRow)
    ensures row == Row(filter, groupKey, groupName, streamKey, stream, stats, long, mid, short)
    ensures row.severity == RowSeverity(short)
    ensures row.short == IntToString(Count(short, WARNING_LEVEL)) && row.mid == IntToString(Count(mid, WARNING_LEVEL))
    ensures row.long == IntToString(Count(long, WARNING_LEVEL))
  {
    var errcountLong := CountAbove(long, WARNING_LEVEL);
    var errcountMid := CountAbove(mid, WARNING_LEVEL);
    var severity, errcountShort := ShortWindow(short);
    var groupCell := if filter != "" then None else Some(Href("/act/" + KeyString(groupKey), groupName, []));
    row := IndexRow(severity, groupCell,
                    Href("/act/" + KeyString(groupKey) + "/" + KeyString(streamKey), stream.name, []),
                    IntToString(stats.checks), "0",
                    IntToString(errcountShort), IntToString(errcountMid), IntToString(errcountLong));
  }

  /** A configured group as the stream list walks it: its key, its name and its streams in iteration order. */
  datatype IndexGroup = IndexGroup(key: Key, name: string, streams: seq<(Key, Stream)>)

  /** The rows of the first `n` streams of a listed group. */
  function StreamRows(filter: string, g: IndexGroup, n: nat, stats: Key -> Stats,
                      load: (Key, int) -> Option<map<int, ErrType>>): (rows: seq<IndexRow>)
    requires n <= |g.streams|
    ensures |rows| == n
  {
    if n == 0 then []
    else
      var (k, s) := g.streams[n - 1];
      StreamRows(filter, g, n - 1, stats, load)
      + [Row(filter, g.key, g.name, k, s, stats(k), load(k, Hour), load(k, 15 * Minute), load(k, 3 * Minute))]
  }

  /** The rows of the groups, in order, skipping the groups the filter does not list. */
  function IndexRows(filter: string, groups: seq<IndexGroup>, stats: Key -> Stats,
                     load: (Key, int) -> Option<map<int, ErrType>>): (rows: seq<IndexRow>)
    ensures |rows| == ListedStreams(filter, groups)
  {
    if groups == [] then []
    else
      var g := groups[|groups| - 1];
      IndexRows(filter, groups[..|groups| - 1], stats, load)
      + (if GroupListed(filter, g.key) then StreamRows(filter, g, |g.streams|, stats, load) else [])
  }

  /** The number of streams in the listed groups. */
  function ListedStreams(filter: string, groups: seq<IndexGroup>): nat {
    if groups == [] then 0
    else
      ListedStreams(filter, groups[..|groups| - 1])
      + (if GroupListed(filter, groups[|groups| - 1].key) then |groups[|groups| - 1].streams| else 0)
  }

  /**
   * ActivityIndex: the page title and header for the filter and one row per
   * stream of every listed group. `stats` stands for LoadStats and
   * `load(key, period)` for LoadHistoryErrors over the last `period`.
   */
  method ActivityIndex(filter: string, groups: seq<IndexGroup>, stats: Key -> Stats,
                       load: (Key, int) -> Option<map<int, ErrType>>)
    returns (title: string, thead: seq<string>, tbody: seq<IndexRow>)
    ensures title == IndexTitle(filter) && thead == IndexHead(filter)
    ensures tbody == IndexRows(filter, groups, stats, load)
  {
    title := IndexTitle(filter);
    thead := IndexHead(filter);
    tbody := [];
    for i := 0 to |groups|
      invariant tbody == IndexRows(filter, groups[..i], stats, load)
    {
      var g := groups[i];
      IndexRowsSnoc(filter, groups, i, stats, load);
      if filter != "" && KeyString(g.key) != Lower(filter) {
        continue;
      }
      var rows := GroupRows(filter, g, stats, load);
      tbody := tbody + rows;
    }
    assert groups[..|groups|] == groups;
  }

  /** The inner loop of ActivityIndex: one row per stream of a listed group, in iteration order. */
  method GroupRows(filter: string, g: IndexGroup, stats: Key -> Stats, load: (Key, int) -> Option<map<int, ErrType>>)
    returns (rows: seq<IndexRow>)
    ensures rows == StreamRows(filter, g, |g.streams|, stats, load)
  {
    rows := [];
    for j := 0 to |g.streams|
      invariant rows == StreamRows(filter, g, j, stats, load)
    {
      var (streamKey, stream) := g.streams[j];
      var row := StreamRow(filter, g.key, g.name, streamKey, stream, stats(streamKey),
                           load(streamKey, Hour), load(streamKey, 15 * Minute), load(streamKey, 3 * Minute));
      rows := rows + [row];
    }
  }

  lemma IndexRowsSnoc(filter: string, groups: seq<IndexGroup>, i: int, stats: Key -> Stats,
                      load: (Key, int) -> Option<map<int, ErrType>>)
    requires 0 <= i < |groups|
    ensures IndexRows(filter, groups[..i + 1], stats, load) ==
      IndexRows(filter, groups[..i], stats, load)
      + (if GroupListed(filter, groups[i].key) then StreamRows(filter, groups[i], |groups[i].streams|, stats, load) else [])
  {
    assert groups[..i + 1][..i] == groups[..i];
  }

  // ---------------------------------------------------------------------
  // The stream info page
  // ---------------------------------------------------------------------

  /** The four kinds of problem the info page counts. */
  datatype Bucket = SlowBucket | TimeoutBucket | HttpBucket | FormatBucket

  /** The bucket of an error type; the other types are not counted. */
  function BucketOf(e: ErrType): (b: Option<Bucket>)
    ensures b.Some? ==> IsNamedErr(e)
  {
    if e == SLOW || e == VERYSLOW then Some(SlowBucket)
    else if e == CTIMEOUT || e == RTIMEOUT then Some(TimeoutBucket)
    else if e == BADLENGTH || e == BODYREAD || e == REFUSED || e == BADSTATUS || e == BADURI then Some(HttpBucket)
    else if e == LISTEMPTY || e == BADFORMAT then Some(FormatBucket)
    else None
  }

  /**
   * Only the types above WARNING_LEVEL are counted; the slow bucket holds
   * exactly those below ERROR_LEVEL, and every type between ERROR_LEVEL and
   * UNKERR except CRITICAL_LEVEL falls in one of the other three.
   */
  lemma BucketedTypes(e: ErrType)
    ensures BucketOf(e).Some? ==> WARNING_LEVEL < e < UNKERR && e != CRITICAL_LEVEL
    ensures BucketOf(e) == Some(SlowBucket) <==> WARNING_LEVEL < e < ERROR_LEVEL
    ensures ERROR_LEVEL < e < UNKERR && e != CRITICAL_LEVEL ==> BucketOf(e).Some? && BucketOf(e) != Some(SlowBucket)
  {
  }

  /** The times of the errors that fall in bucket `b`. */
  function InBucket(hist: map<int, ErrType>, b: Bucket): (ts: set<int>)
    ensures ts <= hist.Keys
  {
    set t | t in hist && BucketOf(hist[t]) == Some(b)
  }

  function BucketCount(hist: Option<map<int, ErrType>>, b: Bucket): nat {
    if hist.None? then 0 else |InBucket(hist.value, b)|
  }

  /** Visiting key `t` adds it to the count of its own bucket only. */
  lemma VisitBucket(h: map<int, ErrType>, b: Bucket, rest: set<int>, t: int)
    requires t in rest && rest <= h.Keys
    ensures |InBucket(h, b) - (rest - {t})| == |InBucket(h, b) - rest| + (if BucketOf(h[t]) == Some(b) then 1 else 0)
  {
    if BucketOf(h[t]) == Some(b) {
      assert InBucket(h, b) - (rest - {t}) == (InBucket(h, b) - rest) + {t};
    } else {
      assert InBucket(h, b) - (rest - {t}) == InBucket(h, b) - rest;
    }
  }

  /** The four counters of the info page. */
  datatype Tally = Tally(slow: nat, timeout: nat, http: nat, format: nat)

  /** The counters once the keys outside `rest` have been visited. */
  function TallyOf(h: map<int, ErrType>, rest: set<int>): Tally {
    Tally(|InBucket(h, SlowBucket) - rest|, |InBucket(h, TimeoutBucket) - rest|,
          |InBucket(h, HttpBucket) - rest|, |InBucket(h, FormatBucket) - rest|)
  }

  /** One more visited error adds one to the counter of its bucket, if it has one. */
  function Bump(c: Tally, b: Option<Bucket>): Tally {
    match b
    case Some(SlowBucket) => c.(slow := c.slow + 1)
    case Some(TimeoutBucket) => c.(timeout := c.timeout + 1)
    case Some(HttpBucket) => c.(http := c.http + 1)
    case Some(FormatBucket) => c.(format := c.format + 1)
    case None => c
  }

  lemma VisitTally(h: map<int, ErrType>, rest: set<int>, t: int)
    requires t in rest && rest <= h.Keys
    ensures TallyOf(h, rest - {t}) == Bump(TallyOf(h, rest), BucketOf(h[t]))
  {
    VisitBucket(h, SlowBucket, rest, t);
    VisitBucket(h, TimeoutBucket, rest, t);
    VisitBucket(h, HttpBucket, rest, t);
    VisitBucket(h, FormatBucket, rest, t);
  }

  lemma TallyDone(h: map<int, ErrType>)
    ensures TallyOf(h, {}) == Tally(BucketCount(Some(h), SlowBucket), BucketCount(Some(h), TimeoutBucket),
                                    BucketCount(Some(h), HttpBucket), BucketCount(Some(h), FormatBucket))
  {
    assert InBucket(h, SlowBucket) - {} == InBucket(h, SlowBucket);
    assert InBucket(h, TimeoutBucket) - {} == InBucket(h, TimeoutBucket);
    assert InBucket(h, HttpBucket) - {} == InBucket(h, HttpBucket);
    assert InBucket(h, FormatBucket) - {} == InBucket(h, FormatBucket);
  }

  /** The 24-hour loop of the info page: one counter per bucket, over the loaded errors. */
  method InfoBuckets(hist: Option<map<int, ErrType>>) returns (slow: nat, timeout: nat, http: nat, format: nat)
    ensures slow == BucketCount(hist, SlowBucket) && timeout == BucketCount(hist, TimeoutBucket)
    ensures http == BucketCount(hist, HttpBucket) && format == BucketCount(hist, FormatBucket)
  {
    if hist.None? {
      return 0, 0, 0, 0;
    }
    var h := hist.value;
    var rest := h.Keys;
    var c := Tally(0, 0, 0, 0);
    while rest != {}
      invariant rest <= h.Keys
      invariant c == TallyOf(h, rest)
      decreases |rest|
    {
      var t := Pick(rest);
      VisitTally(h, rest, t);
      match BucketOf(h[t]) {
        case Some(SlowBucket) => c := c.(slow := c.slow + 1);
        case Some(TimeoutBucket) => c := c.(timeout := c.timeout + 1);
        case Some(HttpBucket) => c := c.(http := c.http + 1);
        case Some(FormatBucket) => c := c.(format := c.format + 1);
        case None =>
      }
      rest := rest - {t};
    }
    TallyDone(h);
    slow, timeout, http, format := c.slow, c.timeout, c.http, c.format;
  }

  lemma DisjointCard(a: set<int>, b: set<int>)
    requires a * b == {}
    ensures |a + b| == |a| + |b|
  {
  }

  /** An error falls in at most one bucket, so the four counts add up to at most the number of errors. */
  lemma BucketsBounded(h: map<int, ErrType>)
    ensures |InBucket(h, SlowBucket)| + |InBucket(h, TimeoutBucket)| + |InBucket(h, HttpBucket)|
            + |InBucket(h, FormatBucket)| <= |h|
  {
    var s, t, p, f := InBucket(h, SlowBucket), InBucket(h, TimeoutBucket), InBucket(h, HttpBucket),
                      InBucket(h, FormatBucket);
    DisjointCard(s, t);
    DisjointCard(s + t, p);
    DisjointCard(s + t + p, f);
    SubsetCard(s + t + p + f, h.Keys);
  }

  /** The data of the info page. */
  datatype InfoPage = InfoPage(
    title: string,
    stream: string,          // the stream part of the request path, as given
    history: string,         // link to the full history
    errorsOnly: string,      // link to the errors-only history
    url: Option<string>,     // the URI of the last result, when one was found
    slow: nat, timeout: nat, http: nat, format: nat)

  /** What the info handler does: panic on a key it cannot decode, write nothing for an unknown stream, or render the page. */
  datatype InfoOutcome = InfoPanic | InfoBlank | Info(page: InfoPage)

  /** The path of a stream's history pages. */
  function StreamPath(groupKey: Key, streamKey: Key): string {
    "/act/" + KeyString(groupKey) + "/" + KeyString(streamKey)
  }

  /**
   * ActivityStreamInfo. `last` stands for LoadLastResult of the stream and
   * `day` for LoadHistoryErrors over the last 24 hours; `groupSpare` and
   * `streamSpare` are the zeroed bytes by which the runtime rounded up the
   * arrays made from the two path parts (see KeyFromHex).
   */
  method ActivityStreamInfo(groupHex: string, streamHex: string, groupStreams: map<Key, map<Key, Stream>>,
                            last: Option<KeepedResult>, day: Option<map<int, ErrType>>,
                            groupSpare: nat, streamSpare: nat) returns (o: InfoOutcome)
    ensures KeyFromHex(groupHex, groupSpare).status != Parsed || KeyFromHex(streamHex, streamSpare).status != Parsed
            <==> o == InfoPanic
    ensures o.InfoBlank? <==>
      KeyFromHex(groupHex, groupSpare).status == Parsed && KeyFromHex(streamHex, streamSpare).status == Parsed &&
      (KeyFromHex(groupHex, groupSpare).key !in groupStreams ||
       KeyFromHex(streamHex, streamSpare).key !in groupStreams[KeyFromHex(groupHex, groupSpare).key])
    ensures o.Info? ==>
      var gk, sk := KeyFromHex(groupHex, groupSpare).key, KeyFromHex(streamHex, streamSpare).key;
      gk in groupStreams && sk in groupStreams[gk] &&
      o.page.title == groupStreams[gk][sk].name + " info" && o.page.stream == streamHex &&
      o.page.history == StreamPath(gk, sk) + "/history" && o.page.errorsOnly == StreamPath(gk, sk) + "/errors" &&
      o.page.url == (if last.Some? then Some(last.value.stream.uri) else None) &&
      o.page.slow == BucketCount(day, SlowBucket) && o.page.timeout == BucketCount(day, TimeoutBucket) &&
      o.page.http == BucketCount(day, HttpBucket) && o.page.format == BucketCount(day, FormatBucket)
  {
    var groupKey := KeyFromHex(groupHex, groupSpare);
    if groupKey.status != Parsed {
      return InfoPanic;
    }
    var streamKey := KeyFromHex(streamHex, streamSpare);
    if streamKey.status != Parsed {
      return InfoPanic;
    }
    if groupKey.key !in groupStreams || streamKey.key !in groupStreams[groupKey.key] {
      return InfoBlank;
    }
    var stream := groupStreams[groupKey.key][streamKey.key];
    var path := "/act/" + KeyString(groupKey.key) + "/" + KeyString(streamKey.key);
    var url := if last.Some? then Some(last.value.stream.uri) else None;
    var slow, timeout, http, format := InfoBuckets(day);
    o := Info(InfoPage(stream.name + " info", streamHex, path + "/history", path + "/errors", url,
                       slow, timeout, http, format));
  }

  /** The links of the info page name keys that decode back to the stream's group and stream keys. */
  lemma InfoLinksDecode(groupKey: Key, streamKey: Key, groupSpare: nat, streamSpare: nat)
    ensures StreamPath(groupKey, streamKey) == "/act/" + KeyString(groupKey) + "/" + KeyString(streamKey)
    ensures KeyFromHex(KeyString(groupKey), groupSpare) == KeyParse(groupKey, Parsed)
    ensures KeyFromHex(KeyString(streamKey), streamSpare) == KeyParse(streamKey, Parsed)
  {
    KeyFromHexOfKeyString(groupKey, groupSpare);
    KeyFromHexOfKeyString(streamKey, streamSpare);
  }

  // ---------------------------------------------------------------------
  // The check history page
  // ---------------------------------------------------------------------

  /** The label of a history row: "info" for success, "warning" up to WARNING_LEVEL, "error" above. */
  function Label(e: ErrType): (l: string)
    ensures l == "info" <==> e == SUCCESS
    ensures l == "warning" <==> SUCCESS < e <= WARNING_LEVEL
    ensures l == "error" <==> e > WARNING_LEVEL
  {
    if e == SUCCESS then "info"
    else if e <= WARNING_LEVEL then "warning"
    else "error"
  }

  /** The check-type cell: "master" exactly for a master playlist check. */
  function CheckType(master: bool): string {
    Span(if master then "master" else "media", "label")
  }

  /** The cell reads "master" exactly when the master flag is set, and "media" otherwise. */
  lemma CheckTypeMeaning(master: bool)
    ensures CheckType(master) == Span("master", "label") <==> master
    ensures CheckType(master) == Span("media", "label") <==> !master
  {
    if CheckType(master) == Span("master", "label") {
      SpanInjective(if master then "master" else "media", "master", "label");
    }
    if CheckType(master) == Span("media", "label") {
      SpanInjective(if master then "master" else "media", "media", "label");
    }
  }

  /**
   * One row of the history table. The start time and the elapsed time are
   * kept as numbers; their rendering as text is not modelled.
   */
  datatype HistoryRow = HistoryRow(severity: string, checkType: string, started: int, result: string,
                                   httpStatus: string, elapsed: int, contentLength: string, raw: string)

  /** The link to a result's raw dump, relative to the history page. */
  function RawLink(started: int): string {
    IntToString(started) + "/raw"
  }

  /** The row of one result: its label, check type, start, error text, status, time, length and raw link. */
  function RowOf(v: KeepedResult): (row: HistoryRow)
    ensures row.severity == "error" <==> v.errType > WARNING_LEVEL
    ensures row.result != "" && row.started == v.started
  {
    HistoryRow(Label(v.errType), CheckType(v.master), v.started, StreamErr2String(v.errType),
               v.httpStatus, v.elapsed, IntToString(v.contentLength),
               Href(RawLink(v.started), "show raw result", []))
  }

  /** Whether a result is shown: in errors mode only those above WARNING_LEVEL. */
  predicate Shown(v: KeepedResult, errorsOnly: bool) {
    !errorsOnly || v.errType > WARNING_LEVEL
  }

  /** The rows of the shown results, the last stored one first. */
  function NewestFirst(hist: seq<KeepedResult>, errorsOnly: bool): (rows: seq<HistoryRow>)
    ensures |rows| <= |hist|
  {
    if hist == [] then []
    else NewestFirst(hist[1..], errorsOnly) + (if Shown(hist[0], errorsOnly) then [RowOf(hist[0])] else [])
  }

  /** The results shown in errors mode, in stored order. */
  function ErrorEntries(hist: seq<KeepedResult>): (es: seq<KeepedResult>)
    ensures |es| <= |hist|
    ensures forall v :: v in es ==> v in hist && v.errType > WARNING_LEVEL
  {
    if hist == [] then []
    else (if hist[0].errType > WARNING_LEVEL then [hist[0]] else []) + ErrorEntries(hist[1..])
  }

  /** One step of NewestFirst: the rows of the later results, then the row of the first. */
  lemma NewestFirstCons(hist: seq<KeepedResult>, errorsOnly: bool)
    requires hist != []
    ensures NewestFirst(hist, errorsOnly) ==
      NewestFirst(hist[1..], errorsOnly) + (if Shown(hist[0], errorsOnly) then [RowOf(hist[0])] else [])
  {
  }

  lemma {:induction false} NewestFirstLength(hist: seq<KeepedResult>)
    ensures |NewestFirst(hist, false)| == |hist|
  {
    if hist != [] {
      NewestFirstLength(hist[1..]);
      NewestFirstCons(hist, false);
    }
  }

  /** In full mode row k shows the k-th newest result. */
  lemma {:induction false} NewestFirstAt(hist: seq<KeepedResult>, k: int)
    requires 0 <= k < |hist|
    ensures |NewestFirst(hist, false)| == |hist| && NewestFirst(hist, false)[k] == RowOf(hist[|hist| - 1 - k])
  {
    var rest := hist[1..];
    var j := |hist| - 1 - k;
    if k < |rest| {
      assert rest[j - 1] == hist[j];
      NewestFirstAt(rest, k);
    }
    NewestFirstLength(rest);
    NewestFirstCons(hist, false);
  }

  /** In full mode there is one row per result, and row k shows the k-th newest result. */
  lemma NewestFirstAll(hist: seq<KeepedResult>)
    ensures |NewestFirst(hist, false)| == |hist|
    ensures forall k :: 0 <= k < |hist| ==> NewestFirst(hist, false)[k] == RowOf(hist[|hist| - 1 - k])
  {
    NewestFirstLength(hist);
    forall k | 0 <= k < |hist|
      ensures NewestFirst(hist, false)[k] == RowOf(hist[|hist| - 1 - k])
    {
      NewestFirstAt(hist, k);
    }
  }

  /** Errors mode is full mode over the error entries alone. */
  lemma {:induction false} NewestFirstErrors(hist: seq<KeepedResult>)
    ensures NewestFirst(hist, true) == NewestFirst(ErrorEntries(hist), false)
  {
    if hist != [] {
      var rest := hist[1..];
      NewestFirstErrors(rest);
      NewestFirstCons(hist, true);
      var es := ErrorEntries(rest);
      if hist[0].errType > WARNING_LEVEL {
        var all := [hist[0]] + es;
        assert ErrorEntries(hist) == all;
        assert all[1..] == es;
        NewestFirstCons(all, false);
      } else {
        assert ErrorEntries(hist) == es;
      }
    }
  }

  /** Every row of errors mode is labelled "error". */
  lemma {:induction false} ErrorRowsLabelled(hist: seq<KeepedResult>)
    ensures forall r :: r in NewestFirst(hist, true) ==> r.severity == "error"
  {
    if hist != [] {
      ErrorRowsLabelled(hist[1..]);
    }
  }

  /** The table loop: from the last stored result back to the first, skipping the hidden ones. */
  method HistoryRows(hist: seq<KeepedResult>, mode: string) returns (tbody: seq<HistoryRow>)
    ensures tbody == NewestFirst(hist, mode == "errors")
  {
    tbody := [];
    var i := |hist| - 1;
    while i >= 0
      invariant -1 <= i < |hist|
      invariant tbody == NewestFirst(hist[i + 1..], mode == "errors")
    {
      var val := hist[i];
      assert hist[i..][1..] == hist[i + 1..];
      if mode == "errors" && val.errType <= WARNING_LEVEL {
        i := i - 1;
        continue;
      }
      var row := RowOf(val);
      tbody := tbody + [row];
      i := i - 1;
    }
    assert hist[0..] == hist;
  }

  /** The position of the first result started at `stamp`, if any. */
  function FirstStarted(hist: seq<KeepedResult>, stamp: int): (r: Option<nat>)
    ensures r.Some? ==> r.value < |hist| && hist[r.value].started == stamp
  {
    if hist == [] then None
    else if hist[0].started == stamp then Some(0)
    else match FirstStarted(hist[1..], stamp)
      case Some(k) => Some(k + 1)
      case None => None
  }

  /** FirstStarted finds the earliest match, and finds nothing only when no result matches. */
  lemma {:induction false} FirstStartedFirst(hist: seq<KeepedResult>, stamp: int, j: int)
    requires 0 <= j < |hist| && hist[j].started == stamp
    ensures FirstStarted(hist, stamp).Some? && FirstStarted(hist, stamp).value <= j
  {
    if hist[0].started != stamp {
      FirstStartedFirst(hist[1..], stamp, j - 1);
    }
  }

  /** The result a stamp in the request path selects: none for an empty or unparsable stamp. */
  function StampTarget(hist: seq<KeepedResult>, stamp: string): Option<nat> {
    if stamp == "" then None
    else match ParseInt(stamp)
      case None => None
      case Some(n) => FirstStarted(hist, n)
  }

  /** Following the raw link of a row selects the first result started at the same instant. */
  lemma RawLinkTarget(hist: seq<KeepedResult>, j: int)
    requires 0 <= j < |hist| && MinInt64 <= hist[j].started <= MaxInt64
    ensures var t := StampTarget(hist, IntToString(hist[j].started));
      t.Some? && t.value <= j && hist[t.value].started == hist[j].started
  {
    ParseIntOfIntToString(hist[j].started);
    FirstStartedFirst(hist, hist[j].started, j);
  }

  /** The history page header. */
  function HistoryHead(): seq<string> {
    ["Check type", "Date/time", "Check result", "HTTP status", "Time elapsed", "Content length", "Raw result"]
  }

  /**
   * What the history handler does: nothing on an undecodable key, a panic on
   * a too-short one, a 404, a raw dump of one result (the request line and
   * the body; the response headers are not modelled), an empty reply, or
   * the table. `errorsLink` and `historyLink` are the template flags set by
   * the "history" and "errors" modes.
   */
  datatype HistoryOutcome =
    | HistorySilent
    | HistoryPanic
    | NotFound(message: string)
    | Raw(request: string, body: seq<Byte>)
    | HistoryBlank
    | Table(title: string, stream: string, thead: seq<string>, errorsLink: bool, historyLink: bool,
            tbody: seq<HistoryRow>)

  /**
   * ActivityStreamHistory. `load` stands for LoadHistoryResults; a stamp
   * that selects no result falls through to the full table; `spare` is the
   * zeroed bytes by which the runtime rounded up the array made from the
   * stream part of the path (see KeyFromHex).
   */
  method ActivityStreamHistory(group: string, streamHex: string, stamp: string, idx: string, mode: string,
                               load: Key -> Option<seq<KeepedResult>>, spare: nat) returns (o: HistoryOutcome)
    ensures KeyFromHex(streamHex, spare).status == BadHex <==> o == HistorySilent
    ensures KeyFromHex(streamHex, spare).status == TooShort <==> o == HistoryPanic
    ensures o.NotFound? <==> KeyFromHex(streamHex, spare).status == Parsed && load(KeyFromHex(streamHex, spare).key).None?
    ensures o.NotFound? ==> o.message == "Stream not found or not tested yet."
    ensures KeyFromHex(streamHex, spare).status == Parsed && load(KeyFromHex(streamHex, spare).key).Some? ==>
      var hist := load(KeyFromHex(streamHex, spare).key).value;
      match StampTarget(hist, stamp)
      case Some(k) =>
        if idx == "" then o == Raw("GET " + hist[k].stream.uri + "\n\n", hist[k].body) else o == HistoryBlank
      case None =>
        o == Table(group + "/" + streamHex + " checks history", streamHex, HistoryHead(),
                   mode == "history", mode == "errors", NewestFirst(hist, mode == "errors"))
  {
    var streamKey := KeyFromHex(streamHex, spare);
    if streamKey.status == BadHex {
      return HistorySilent;
    } else if streamKey.status == TooShort {
      return HistoryPanic;
    }
    var loaded := load(streamKey.key);
    if loaded.None? {
      return NotFound("Stream not found or not tested yet.");
    }
    var hist := loaded.value;
    var target := FindStamp(hist, stamp);
    if target.Some? {
      var val := hist[target.value];
      if idx == "" {
        return Raw("GET " + val.stream.uri + "\n\n", val.body);
      }
      return HistoryBlank;
    }
    var tbody := HistoryRows(hist, mode);
    o := Table(group + "/" + streamHex + " checks history", streamHex, HistoryHead(),
               mode == "history", mode == "errors", tbody);
  }

  /**
   * The stamp scan of the history handler: it re-parses the stamp at every
   * step, gives up when it does not parse, and stops at the first result
   * started at that instant.
   */
  method FindStamp(hist: seq<KeepedResult>, stamp: string) returns (target: Option<nat>)
    ensures target == StampTarget(hist, stamp)
    ensures target.Some? ==> target.value < |hist|
  {
    if stamp == "" {
      return None;
    }
    for i := 0 to |hist|
      invariant ParseInt(stamp).Some? ==> forall j :: 0 <= j < i ==> hist[j].started != ParseInt(stamp).value
    {
      var parsed := ParseInt(stamp);
      if parsed.None? {
        return None;
      }
      if hist[i].started == parsed.value {
        FirstStartedAt(hist, parsed.value, i);
        return Some(i);
      }
    }
    if ParseInt(stamp).Some? {
      FirstStartedNone(hist, ParseInt(stamp).value);
    }
    return None;
  }

  lemma {:induction false} FirstStartedAt(hist: seq<KeepedResult>, stamp: int, i: int)
    requires 0 <= i < |hist| && hist[i].started == stamp
    requires forall j :: 0 <= j < i ==> hist[j].started != stamp
    ensures FirstStarted(hist, stamp) == Some(i)
  {
    if i > 0 {
      FirstStartedAt(hist[1..], stamp, i - 1);
    }
  }

  lemma {:induction false} FirstStartedNone(hist: seq<KeepedResult>, stamp: int)
    requires forall j :: 0 <= j < |hist| ==> hist[j].started != stamp
    ensures FirstStarted(hist, stamp).None?
  {
    if hist != [] {
      FirstStartedNone(hist[1..], stamp);
    }
  }
}
