// Parsing of the configuration: stream lines split into URI, name and
// title, stream-type names, the local stream lists of each group and the
// mapping of the raw options and groups onto the parsed configuration.

module ConfigParsing {
  import opened Wrappers
  import opened Structures
  import opened Helpers
  import opened GroupConfig

  // ---------------------------------------------------------------------
  // Stream types
  // ---------------------------------------------------------------------

  /** The stream type named by `s`, ignoring case; an unknown name gives UNKSTREAM. */
  function String2StreamType(s: string): (t: StreamType)
    ensures t <= WV
  {
    match Lower(s)
    case "sample" => SAMPLE
    case "hls" => HLS
    case "hds" => HDS
    case "wv" => WV
    case "http" => HTTP
    case _ => UNKSTREAM
  }

  /** Case does not matter. */
  lemma String2StreamTypeIgnoresCase(s: string)
    ensures String2StreamType(Upper(s)) == String2StreamType(s)
    ensures String2StreamType(Lower(s)) == String2StreamType(s)
  {
    LowerOfUpper(s);
    LowerIdempotent(s);
  }

  /** Every declared stream type survives naming and parsing back, UNKSTREAM through "unknown". */
  lemma StreamTypeRoundTrip(t: StreamType)
    requires t in DeclaredStreamTypes
    ensures String2StreamType(StreamType2String(t)) == t
  {
    var n := StreamType2String(t);
    assert Lower(n) == n;
  }

  /** Conversely, a recognised name is the lower-cased name of the type it gives. */
  lemma StreamTypeNameRoundTrip(s: string)
    requires String2StreamType(s) != UNKSTREAM
    ensures StreamType2String(String2StreamType(s)) == Lower(s)
  {
  }

  // ---------------------------------------------------------------------
  // Splitting a stream line
  // ---------------------------------------------------------------------

  /** The pattern htt(p|ps):// matches at `i`. */
  predicate SchemeAt(s: string, i: nat)
    requires i <= |s|
  {
    HasPrefix(s[i..], "http://") || HasPrefix(s[i..], "https://")
  }

  /** The leftmost match of htt(p|ps)://, searching from `from`. */
  function FindScheme(s: string, from: nat): (r: Option<nat>)
    requires from <= |s|
    ensures r.Some? ==> from <= r.value < |s| && SchemeAt(s, r.value)
    ensures r.Some? ==> forall j :: from <= j < r.value ==> !SchemeAt(s, j)
    ensures r.None? ==> forall j :: from <= j <= |s| ==> !SchemeAt(s, j)
    decreases |s| - from
  {
    if SchemeAt(s, from) then Some(from)
    else if from == |s| then None
    else FindScheme(s, from + 1)
  }

  datatype Names = Names(uri: string, name: string, title: string)

  /**
   * The URI and the title before the title defaults to the URI: with the
   * scheme at the start, the first space-separated token and the rest of the
   * line; with the scheme later, the rest of the line from the scheme on and
   * the text before it; without a scheme, nothing.
   */
  function UriTitle(src: string): (ut: (string, string))
    ensures FindScheme(src, 0).None? ==> ut == ("", "")
    ensures ut.1 == [] || (!IsSpace(ut.1[0]) && !IsSpace(ut.1[|ut.1| - 1]))
  {
    match FindScheme(src, 0)
    case None => ("", "")
    case Some(loc) =>
      if loc == 0 then
        var splitted := SplitFirst(src, " ");
        (TrimSpace(splitted[0]), if |splitted| > 1 then TrimSpace(splitted[1]) else "")
      else
        (src[loc..], TrimSpace(src[..loc]))
  }

  /**
   * splitName: a line is either "uri title" or "title uri", and a missing
   * title is the URI. With a non-empty `re`, the name is the first capture
   * group of `re` in the URI; `capture(re, uri)` stands for the regular
   * expression engine and gives that group when the match has one.
   */
  function SplitName(re: string, source: string, capture: (string, string) -> Option<string>): (n: Names)
    ensures re == "" ==> n.name == n.title
    ensures n.title == "" ==> n.uri == ""
  {
    var src := TrimSpace(source);
    var (uri, title0) := UriTitle(src);
    var title := if FindScheme(src, 0).Some? && title0 == "" then uri else title0;
    var name :=
      if re != "" then
        match capture(re, uri)
        case Some(group) => group
        case None => title
      else title;
    Names(uri, name, title)
  }

  predicate HttpScheme(s: string) {
    HasPrefix(s, "http://") || HasPrefix(s, "https://")
  }

  /** Trimming keeps a prefix that starts and ends in a non-space. */
  lemma TrimSpaceKeepsPrefix(s: string, p: string)
    requires HasPrefix(s, p) && p != [] && !IsSpace(p[0]) && !IsSpace(p[|p| - 1])
    ensures HasPrefix(TrimSpace(s), p)
  {
    var l := TrimLeft(s);
    assert l == s;
    var r := TrimRight(l);
    TrimRightPrefix(l);
    assert |r| >= |p|;
    assert r[..|p|] == s[..|r|][..|p|];
  }

  /** The first space of a line that starts with a space-free prefix lies after that prefix. */
  lemma FirstSpaceAfterPrefix(s: string, p: string)
    requires HasPrefix(s, p) && forall i :: 0 <= i < |p| ==> p[i] != ' '
    ensures |SplitFirst(s, " ")| == 2 ==> HasPrefix(SplitFirst(s, " ")[0], p)
  {
    var parts := SplitFirst(s, " ");
    SplitFirstJoin(s, " ");
    if |parts| == 2 {
      var k := |parts[0]|;
      assert HasPrefix(s[k..], " ");
      assert k >= |p|;
      assert s[..k] == parts[0] by {
        assert s == parts[0] + " " + parts[1];
      }
      assert parts[0][..|p|] == s[..|p|];
    }
  }

  /** With the scheme at the start, the URI is the trimmed first token and carries the scheme. */
  lemma UriFirst(src: string)
    requires FindScheme(src, 0) == Some(0)
    ensures var splitted := SplitFirst(src, " ");
      UriTitle(src) == (TrimSpace(splitted[0]), if |splitted| > 1 then TrimSpace(splitted[1]) else "") &&
      HttpScheme(UriTitle(src).0)
  {
    var splitted := SplitFirst(src, " ");
    var scheme := if HasPrefix(src, "http://") then "http://" else "https://";
    assert HasPrefix(src[0..], scheme);
    assert src[0..] == src;
    FirstSpaceAfterPrefix(src, scheme);
    TrimSpaceKeepsPrefix(splitted[0], scheme);
  }

  /** With the scheme later in the line, the URI is the line from the scheme on and the title the text before it. */
  lemma TitleFirst(src: string)
    requires FindScheme(src, 0).Some? && FindScheme(src, 0).value > 0
    ensures var loc := FindScheme(src, 0).value;
      UriTitle(src) == (src[loc..], TrimSpace(src[..loc])) && HttpScheme(src[loc..])
  {
  }

  /**
   * A line with a scheme gives a URI that carries the scheme and a
   * non-empty title; a line without one gives neither URI nor title.
   */
  lemma SplitNameUriAndTitle(re: string, source: string, capture: (string, string) -> Option<string>)
    ensures var n := SplitName(re, source, capture);
      (FindScheme(TrimSpace(source), 0).Some? ==> HttpScheme(n.uri) && n.title != "") &&
      (FindScheme(TrimSpace(source), 0).None? ==> n.uri == "" && n.title == "")
  {
    var src := TrimSpace(source);
    match FindScheme(src, 0)
    case None =>
    case Some(loc) =>
      if loc == 0 {
        UriFirst(src);
      } else {
        TitleFirst(src);
      }
  }

  /** The name is the title unless a pattern is given and captures a group. */
  lemma SplitNameName(re: string, source: string, capture: (string, string) -> Option<string>)
    ensures var n := SplitName(re, source, capture);
      n.name == (if re != "" && capture(re, n.uri).Some? then capture(re, n.uri).value else n.title)
  {
  }


  // ---------------------------------------------------------------------
  // A group's stream list
  // ---------------------------------------------------------------------

  /** The stream a configuration line describes, keyed by the hash of its URI. */
  function StreamOf(hash: string -> Key, capture: (string, string) -> Option<string>,
                    params: ConfigGroup, group: string, source: string): (s: Stream)
    ensures s.streamKey == hash(s.uri) && s.streamType == params.streamType && s.group == group
  {
    var n := SplitName(params.parseMethod, source, capture);
    Stream(hash(n.uri), n.uri, params.streamType, n.name, n.title, group)
  }

  /**
   * `dest` with the stream of every line of `sources` stored, in order,
   * under the hash of its URI: a later line with the same URI overwrites.
   */
  function LocalStreams(hash: string -> Key, capture: (string, string) -> Option<string>,
                        dest: map<Key, Stream>, params: ConfigGroup, group: string, sources: seq<string>): (d: map<Key, Stream>)
    ensures dest.Keys <= d.Keys
    ensures forall k :: k in d && k !in dest ==>
      d[k].streamKey == k && d[k].group == group && d[k].streamType == params.streamType
  {
    if sources == [] then dest
    else
      var s := StreamOf(hash, capture, params, group, sources[|sources| - 1]);
      LocalStreams(hash, capture, dest, params, group, sources[..|sources| - 1])[s.streamKey := s]
  }

  /** The last line with a given key is the stream stored under it. */
  lemma {:induction false} LocalStreamsLastWins(hash: string -> Key, capture: (string, string) -> Option<string>,
                                                dest: map<Key, Stream>, params: ConfigGroup, group: string,
                                                sources: seq<string>, i: int)
    requires 0 <= i < |sources|
    requires forall j :: i < j < |sources| ==>
      StreamOf(hash, capture, params, group, sources[j]).streamKey != StreamOf(hash, capture, params, group, sources[i]).streamKey
    ensures var s := StreamOf(hash, capture, params, group, sources[i]);
      var d := LocalStreams(hash, capture, dest, params, group, sources);
      s.streamKey in d && d[s.streamKey] == s
  {
    if i < |sources| - 1 {
      var init := sources[..|sources| - 1];
      assert forall j :: i < j < |init| ==> init[j] == sources[j];
      LocalStreamsLastWins(hash, capture, dest, params, group, init, i);
    }
  }

  /** Entries whose key no line produces are left as they were. */
  lemma {:induction false} LocalStreamsKeepsOthers(hash: string -> Key, capture: (string, string) -> Option<string>,
                                                   dest: map<Key, Stream>, params: ConfigGroup, group: string,
                                                   sources: seq<string>, k: Key)
    requires k in dest
    requires forall j :: 0 <= j < |sources| ==> StreamOf(hash, capture, params, group, sources[j]).streamKey != k
    ensures LocalStreams(hash, capture, dest, params, group, sources)[k] == dest[k]
  {
    if sources != [] {
      var init := sources[..|sources| - 1];
      assert forall j :: 0 <= j < |init| ==> init[j] == sources[j];
      LocalStreamsKeepsOthers(hash, capture, dest, params, group, init, k);
    }
  }

  /** Every new entry is the stream of one of the lines. */
  lemma {:induction false} LocalStreamsOrigin(hash: string -> Key, capture: (string, string) -> Option<string>,
                                              dest: map<Key, Stream>, params: ConfigGroup, group: string,
                                              sources: seq<string>, k: Key)
    requires k in LocalStreams(hash, capture, dest, params, group, sources) && k !in dest
    ensures exists i :: (0 <= i < |sources| &&
      LocalStreams(hash, capture, dest, params, group, sources)[k] == StreamOf(hash, capture, params, group, sources[i]))
  {
    var last := |sources| - 1;
    var init := sources[..last];
    var s := StreamOf(hash, capture, params, group, sources[last]);
    if s.streamKey == k {
      assert LocalStreams(hash, capture, dest, params, group, sources)[k] == s;
    } else {
      LocalStreamsOrigin(hash, capture, dest, params, group, init, k);
      var i :| 0 <= i < |init| &&
        LocalStreams(hash, capture, dest, params, group, init)[k] == StreamOf(hash, capture, params, group, init[i]);
      assert init[i] == sources[i];
    }
  }

  /** addLocalConfig: store the stream of each line, in order, under the hash of its URI. */
  method AddLocalConfig(hash: string -> Key, capture: (string, string) -> Option<string>,
                        dest: map<Key, Stream>, params: ConfigGroup, group: string, sources: seq<string>)
    returns (d: map<Key, Stream>)
    ensures d == LocalStreams(hash, capture, dest, params, group, sources)
  {
    d := dest;
    for i := 0 to |sources|
      invariant d == LocalStreams(hash, capture, dest, params, group, sources[..i])
    {
      var n := SplitName(params.parseMethod, sources[i], capture);
      var key := hash(n.uri);
      var stream := Stream(key, n.uri, params.streamType, n.name, n.title, group);
      assert stream == StreamOf(hash, capture, params, group, sources[i]);
      LocalStreamsSnoc(hash, capture, dest, params, group, sources, i);
      d := d[key := stream];
    }
    assert sources[..|sources|] == sources;
  }

  lemma LocalStreamsSnoc(hash: string -> Key, capture: (string, string) -> Option<string>,
                         dest: map<Key, Stream>, params: ConfigGroup, group: string, sources: seq<string>, i: int)
    requires 0 <= i < |sources|
    ensures var s := StreamOf(hash, capture, params, group, sources[i]);
      LocalStreams(hash, capture, dest, params, group, sources[..i + 1]) ==
      LocalStreams(hash, capture, dest, params, group, sources[..i])[s.streamKey := s]
  {
    assert sources[..i + 1][..i] == sources[..i];
  }

  // ---------------------------------------------------------------------
  // A remote stream list
  // ---------------------------------------------------------------------

  /** No newline occurs before the first one Index finds, nor anywhere when it finds none. */
  lemma NoNewlineBefore(body: string, n: int)
    requires n == (if Index(body, "\n", 0).Some? then Index(body, "\n", 0).value else |body|)
    ensures forall j :: 0 <= j < n ==> body[j] != '\n'
  {
    forall j | 0 <= j < n ensures body[j] != '\n' {
      assert !OccursAt(body, "\n", j);
      assert body[j..][..1] == [body[j]];
    }
  }

  /**
   * The lines a reader gets from `body` by reading up to each newline until
   * the first read error: every newline-terminated line, newline included.
   * Text after the last newline ends in end-of-file, an error, and is not
   * a line.
   */
  function CompleteLines(body: string): (lines: seq<string>)
    ensures |lines| <= |body|
    decreases |body|
  {
    match Index(body, "\n", 0)
    case None => []
    case Some(i) => [body[..i + 1]] + CompleteLines(body[i + 1..])
  }

  /** Every line ends in its newline and holds no other. */
  lemma {:induction false} CompleteLinesTerminated(body: string)
    ensures forall l :: l in CompleteLines(body) ==> |l| > 0 && l[|l| - 1] == '\n' && '\n' !in l[..|l| - 1]
    decreases |body|
  {
    match Index(body, "\n", 0)
    case None =>
    case Some(i) =>
      CompleteLinesTerminated(body[i + 1..]);
      NoNewlineBefore(body, i);
      assert body[..i + 1][..i] == body[..i];
      assert body[i..][..1] == "\n";
  }

  function Flatten(lines: seq<string>): string {
    if lines == [] then [] else lines[0] + Flatten(lines[1..])
  }

  /** The lines are the body up to its last newline, and what follows holds no newline. */
  lemma {:induction false} CompleteLinesCover(body: string)
    ensures var f := Flatten(CompleteLines(body));
      |f| <= |body| && body[..|f|] == f && '\n' !in body[|f|..]
    decreases |body|
  {
    match Index(body, "\n", 0)
    case None =>
      NoNewlineBefore(body, |body|);
      assert body[0..] == body;
    case Some(i) =>
      var rest := body[i + 1..];
      CompleteLinesCover(rest);
      CoverStep(body, i, Flatten(CompleteLines(rest)));
  }

  lemma CoverStep(body: string, i: nat, fr: string)
    requires Index(body, "\n", 0) == Some(i)
    requires fr == Flatten(CompleteLines(body[i + 1..]))
    requires |fr| <= |body[i + 1..]| && body[i + 1..][..|fr|] == fr && '\n' !in body[i + 1..][|fr|..]
    ensures var f := Flatten(CompleteLines(body));
      |f| <= |body| && body[..|f|] == f && '\n' !in body[|f|..]
  {
    var lines := CompleteLines(body);
    assert lines == [body[..i + 1]] + CompleteLines(body[i + 1..]);
    FlattenCons(body[..i + 1], CompleteLines(body[i + 1..]));
    SplitAgain(body, i + 1, |fr|);
  }

  lemma FlattenCons(x: string, xs: seq<string>)
    ensures Flatten([x] + xs) == x + Flatten(xs)
  {
    assert ([x] + xs)[1..] == xs;
  }

  /** Cutting `s` at `k` and then the rest at `m` is cutting `s` at `k + m`. */
  lemma SplitAgain(s: string, k: nat, m: nat)
    requires k + m <= |s|
    ensures s[..k + m] == s[..k] + s[k..][..m]
    ensures s[k + m..] == s[k..][m..]
  {
  }

  /**
   * addRemoteConfig: the stream list read from `body`, the response to a
   * request for the group's URI, line by line; a failed request (`None`)
   * adds nothing and reports the failure.
   */
  method AddRemoteConfig(hash: string -> Key, capture: (string, string) -> Option<string>,
                         dest: map<Key, Stream>, params: ConfigGroup, group: string, body: Option<string>)
    returns (d: map<Key, Stream>, ok: bool)
    ensures ok <==> body.Some?
    ensures !ok ==> d == dest
    ensures ok ==> d == LocalStreams(hash, capture, dest, params, group, CompleteLines(body.value))
  {
    if body.None? {
      return dest, false;
    }
    d := AddLocalConfig(hash, capture, dest, params, group, CompleteLines(body.value));
    ok := true;
  }

  // ---------------------------------------------------------------------
  // Options and groups
  // ---------------------------------------------------------------------

  /** The raw options section of the configuration file; the retention period is in hours. */
  datatype RawOptions = RawOptions(listenHTTP: string, user: string, pass: string,
                                   samples: seq<string>, userAgents: seq<string>, expireDurationDB: int)

  /** A raw group section: a non-empty `uri` names a remote stream list, `streams` is the local one. */
  datatype RawGroup = RawGroup(
    typeName: string, uri: string, streams: seq<string>,
    probers: int, mediaProbers: int, checkBrokenTime: int,
    connectTimeout: int, rwTimeout: int, slowWarningTimeout: int, verySlowWarningTimeout: int,
    timeBetweenTasks: int, taskTTL: int, tryOneSegment: bool, methodHTTP: string,
    parseMethod: string, user: string, pass: string)

  /** The parsed group: the type by its name, the HTTP method upper-cased, every other field copied. */
  function GroupOf(name: string, g: RawGroup): (c: ConfigGroup)
    ensures c.name == name && c.streamType == String2StreamType(g.typeName)
    ensures c.methodHTTP == Upper(g.methodHTTP)
    ensures c.probers == g.probers && c.mediaProbers == g.mediaProbers
    ensures c.checkBrokenTime == g.checkBrokenTime && c.parseMethod == g.parseMethod
    ensures c.timeBetweenTasks == g.timeBetweenTasks && c.taskTTL == g.taskTTL
    ensures c.connectTimeout == g.connectTimeout && c.rwTimeout == g.rwTimeout
    ensures c.slowWarningTimeout == g.slowWarningTimeout && c.verySlowWarningTimeout == g.verySlowWarningTimeout
    ensures c.tryOneSegment == g.tryOneSegment && c.user == g.user && c.pass == g.pass
  {
    ConfigGroup(name, String2StreamType(g.typeName), g.probers, g.mediaProbers, g.checkBrokenTime,
                g.connectTimeout, g.rwTimeout, g.slowWarningTimeout, g.verySlowWarningTimeout,
                g.timeBetweenTasks, g.taskTTL, g.tryOneSegment, Upper(g.methodHTTP), g.parseMethod,
                g.user, g.pass)
  }

  /**
   * The streams of a parsed group: the local list, or the remote one as
   * `fetch(uri, user, pass)` answers it, starting from an empty map.
   */
  function GroupStreams(hash: string -> Key, capture: (string, string) -> Option<string>,
                        fetch: (string, string, string) -> Option<string>, name: string, g: RawGroup): map<Key, Stream> {
    if g.uri != "" then
      match fetch(g.uri, g.user, g.pass)
      case None => map[]
      case Some(body) => LocalStreams(hash, capture, map[], GroupOf(name, g), name, CompleteLines(body))
    else LocalStreams(hash, capture, map[], GroupOf(name, g), name, g.streams)
  }

  /** The group parameters after parsing `groups` in order, each under the hash of its name. */
  function ParsedParams(hash: string -> Key, groups: seq<(string, RawGroup)>): (gp: map<Key, ConfigGroup>)
    ensures forall k :: k in gp ==> hash(gp[k].name) == k
  {
    if groups == [] then map[]
    else
      var (name, g) := groups[|groups| - 1];
      ParsedParams(hash, groups[..|groups| - 1])[hash(name) := GroupOf(name, g)]
  }

  /** The group stream maps after parsing `groups` in order, each under the hash of the group's name. */
  function ParsedStreams(hash: string -> Key, capture: (string, string) -> Option<string>,
                         fetch: (string, string, string) -> Option<string>,
                         groups: seq<(string, RawGroup)>): map<Key, map<Key, Stream>> {
    if groups == [] then map[]
    else
      var (name, g) := groups[|groups| - 1];
      ParsedStreams(hash, capture, fetch, groups[..|groups| - 1])[hash(name) := GroupStreams(hash, capture, fetch, name, g)]
  }

  /** Every group with parameters has a stream map beside it, and no other key has one. */
  lemma {:induction false} ParsedKeysAgree(hash: string -> Key, capture: (string, string) -> Option<string>,
                                           fetch: (string, string, string) -> Option<string>,
                                           groups: seq<(string, RawGroup)>)
    ensures ParsedParams(hash, groups).Keys == ParsedStreams(hash, capture, fetch, groups).Keys
  {
    if groups != [] {
      ParsedKeysAgree(hash, capture, fetch, groups[..|groups| - 1]);
    }
  }

  /** A group whose name hash no later group shares is found under it, parameters and streams. */
  lemma {:induction false} ParsedGroupFound(hash: string -> Key, capture: (string, string) -> Option<string>,
                                            fetch: (string, string, string) -> Option<string>,
                                            groups: seq<(string, RawGroup)>, i: int)
    requires 0 <= i < |groups|
    requires forall j :: i < j < |groups| ==> hash(groups[j].0) != hash(groups[i].0)
    ensures var k := hash(groups[i].0);
      k in ParsedParams(hash, groups) && ParsedParams(hash, groups)[k] == GroupOf(groups[i].0, groups[i].1) &&
      k in ParsedStreams(hash, capture, fetch, groups) &&
      ParsedStreams(hash, capture, fetch, groups)[k] == GroupStreams(hash, capture, fetch, groups[i].0, groups[i].1)
  {
    if i < |groups| - 1 {
      var init := groups[..|groups| - 1];
      assert forall j :: i < j < |init| ==> init[j] == groups[j];
      ParsedGroupFound(hash, capture, fetch, init, i);
    }
  }

  /** parseOptionsConfig: the options copied, the retention period turned from hours into a duration. */
  method ParseOptions(cfg: Config, raw: RawOptions)
    modifies cfg
    ensures cfg.expireDurationDB == raw.expireDurationDB * Hour
    ensures cfg.listenHTTP == raw.listenHTTP && cfg.user == raw.user && cfg.pass == raw.pass
    ensures cfg.samples == raw.samples && cfg.userAgents == raw.userAgents
    ensures cfg.groupParams == old(cfg.groupParams) && cfg.groupStreams == old(cfg.groupStreams)
  {
    cfg.listenHTTP := raw.listenHTTP;
    cfg.user := raw.user;
    cfg.pass := raw.pass;
    cfg.samples := raw.samples;
    cfg.userAgents := raw.userAgents;
    cfg.expireDurationDB := raw.expireDurationDB * Hour;
  }

  /** The branch of parseGroupsConfig that fills one group's stream map. */
  method AddGroupStreams(hash: string -> Key, capture: (string, string) -> Option<string>,
                         fetch: (string, string, string) -> Option<string>,
                         params: ConfigGroup, groupName: string, groupData: RawGroup)
    returns (dest: map<Key, Stream>)
    requires params == GroupOf(groupName, groupData)
    ensures dest == GroupStreams(hash, capture, fetch, groupName, groupData)
  {
    if groupData.uri != "" {
      var ok;
      dest, ok := AddRemoteConfig(hash, capture, map[], params, groupName,
                                  fetch(groupData.uri, groupData.user, groupData.pass));
    } else {
      dest := AddLocalConfig(hash, capture, map[], params, groupName, groupData.streams);
    }
  }

  lemma ParsedSnoc(hash: string -> Key, capture: (string, string) -> Option<string>,
                   fetch: (string, string, string) -> Option<string>, groups: seq<(string, RawGroup)>, i: int)
    requires 0 <= i < |groups|
    ensures var (name, g) := groups[i];
      ParsedParams(hash, groups[..i + 1]) == ParsedParams(hash, groups[..i])[hash(name) := GroupOf(name, g)] &&
      ParsedStreams(hash, capture, fetch, groups[..i + 1]) ==
        ParsedStreams(hash, capture, fetch, groups[..i])[hash(name) := GroupStreams(hash, capture, fetch, name, g)]
  {
    assert groups[..i + 1][..i] == groups[..i];
  }

  /**
   * parseGroupsConfig: both group maps start empty; every group is stored
   * under the hash of its name with its streams beside it. `groups` lists
   * the sections in the order the configuration's map is walked, and
   * `fetch` answers the requests for remote stream lists.
   */
  method ParseGroups(cfg: Config, groups: seq<(string, RawGroup)>, capture: (string, string) -> Option<string>,
                     fetch: (string, string, string) -> Option<string>)
    modifies cfg
    ensures cfg.groupParams == ParsedParams(cfg.hash, groups)
    ensures cfg.groupStreams == ParsedStreams(cfg.hash, capture, fetch, groups)
    ensures cfg.samples == old(cfg.samples) && cfg.userAgents == old(cfg.userAgents)
    ensures cfg.listenHTTP == old(cfg.listenHTTP) && cfg.expireDurationDB == old(cfg.expireDurationDB)
    ensures cfg.user == old(cfg.user) && cfg.pass == old(cfg.pass)
  {
    cfg.groupParams := map[];
    cfg.groupStreams := map[];
    for i := 0 to |groups|
      invariant cfg.groupParams == ParsedParams(cfg.hash, groups[..i])
      invariant cfg.groupStreams == ParsedStreams(cfg.hash, capture, fetch, groups[..i])
      invariant cfg.samples == old(cfg.samples) && cfg.userAgents == old(cfg.userAgents)
      invariant cfg.listenHTTP == old(cfg.listenHTTP) && cfg.expireDurationDB == old(cfg.expireDurationDB)
      invariant cfg.user == old(cfg.user) && cfg.pass == old(cfg.pass)
    {
      var (groupName, groupData) := groups[i];
      var key := cfg.hash(groupName);
      var params := GroupOf(groupName, groupData);
      cfg.groupParams := cfg.groupParams[key := params];
      var dest := AddGroupStreams(cfg.hash, capture, fetch, params, groupName, groupData);
      cfg.groupStreams := cfg.groupStreams[key := dest];
      ParsedSnoc(cfg.hash, capture, fetch, groups, i);
    }
    assert groups[..|groups|] == groups;
  }

  /**
   * After parsing, Params finds a configured group by its name, because it
   * looks the name up under the same hash the parser stored it under.
   */
  lemma ParamsAfterParse(cfg: Config, capture: (string, string) -> Option<string>,
                         fetch: (string, string, string) -> Option<string>, groups: seq<(string, RawGroup)>, i: int)
    requires cfg.groupParams == ParsedParams(cfg.hash, groups)
    requires 0 <= i < |groups|
    requires forall j :: i < j < |groups| ==> cfg.hash(groups[j].0) != cfg.hash(groups[i].0)
    ensures cfg.Params(groups[i].0) == GroupOf(groups[i].0, groups[i].1)
  {
    ParsedGroupFound(cfg.hash, capture, fetch, groups, i);
  }
}
