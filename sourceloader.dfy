// The older stream-list loader: each line is "uri" or "uri name", and the
// streams of a group are appended to a list rather than stored by key.

module SourceLoader {
  import opened Wrappers
  import opened Structures
  import opened Helpers

  /** A stream of the older loader: no key and no title. */
  datatype LegacyStream = LegacyStream(uri: string, streamType: StreamType, name: string, group: string)

  /**
   * splitName of the older loader: the URI is the first space-separated
   * token of the trimmed line and the name is the trimmed rest. A line with
   * nothing after the URI is named by the URI's text after its first "://";
   * a URI without "://" has no such part and the lookup panics, given here
   * as None.
   */
  function LegacySplitName(source: string): (r: Option<(string, string)>)
    ensures r.Some? ==> ' ' !in r.value.0
  {
    SplitFirstHead(TrimSpace(source), ' ');
    var splitted := SplitFirst(TrimSpace(source), " ");
    var uri := splitted[0];
    if |splitted| > 1 && splitted[1] != "" then
      Some((uri, TrimSpace(splitted[1])))
    else
      var schemeParts := SplitFirst(TrimSpace(splitted[0]), "://");
      if |schemeParts| > 1 then Some((uri, schemeParts[1])) else None
  }

  /** The URI is the leading token of the trimmed line, and it holds no space. */
  lemma LegacyUriIsFirstToken(source: string)
    requires LegacySplitName(source).Some?
    ensures var uri := LegacySplitName(source).value.0;
      HasPrefix(TrimSpace(source), uri) && ' ' !in uri
  {
    var src := TrimSpace(source);
    SplitFirstHead(src, ' ');
    assert LegacySplitName(source).value.0 == SplitFirst(src, " ")[0];
  }

  /** With text after the URI, that text, trimmed, is the name. */
  lemma LegacyNamedLine(source: string)
    requires var splitted := SplitFirst(TrimSpace(source), " ");
      |splitted| > 1 && splitted[1] != ""
    ensures LegacySplitName(source).Some?
    ensures LegacySplitName(source).value.1 == TrimSpace(SplitFirst(TrimSpace(source), " ")[1])
  {
  }

  /**
   * Without text after the URI the name is whatever follows the URI's first
   * "://", and the line panics exactly when the URI has none.
   */
  lemma LegacyUnnamedLine(source: string)
    requires var splitted := SplitFirst(TrimSpace(source), " ");
      |splitted| == 1 || splitted[1] == ""
    ensures var uri := TrimSpace(SplitFirst(TrimSpace(source), " ")[0]);
      match Index(uri, "://", 0)
      case None => LegacySplitName(source).None?
      case Some(i) => LegacySplitName(source).Some? && LegacySplitName(source).value.1 == uri[i + 3..]
  {
  }

  /** A line without "://" and without a name panics. */
  lemma LegacyPanicExample()
    ensures LegacySplitName("a/b") == None
  {
    TrimSpaceUnchanged("a/b");
    IndexAbsent("a/b", " ", 0);
    IndexAbsent("a/b", "://", 0);
  }

  /** The streams of `sources`, one per line in order, or None when a line makes splitName panic. */
  function LegacyStreams(streamType: StreamType, group: string, sources: seq<string>): (r: Option<seq<LegacyStream>>)
    ensures r.Some? ==> |r.value| == |sources|
  {
    if sources == [] then Some([])
    else
      var init := LegacyStreams(streamType, group, sources[..|sources| - 1]);
      var split := LegacySplitName(sources[|sources| - 1]);
      if init.None? || split.None? then None
      else Some(init.value + [Entry(streamType, group, split.value)])
  }

  function Entry(streamType: StreamType, group: string, split: (string, string)): LegacyStream {
    LegacyStream(split.0, streamType, split.1, group)
  }

  /** A line that panics makes the whole list fail. */
  lemma {:induction false} LegacyStreamsPanic(streamType: StreamType, group: string, sources: seq<string>, i: int)
    requires 0 <= i < |sources| && LegacySplitName(sources[i]).None?
    ensures LegacyStreams(streamType, group, sources).None?
  {
    if i < |sources| - 1 {
      var init := sources[..|sources| - 1];
      assert init[i] == sources[i];
      LegacyStreamsPanic(streamType, group, init, i);
    }
  }

  /** When no line panics the list is produced. */
  lemma {:induction false} LegacyStreamsDefined(streamType: StreamType, group: string, sources: seq<string>)
    requires forall i :: 0 <= i < |sources| ==> LegacySplitName(sources[i]).Some?
    ensures LegacyStreams(streamType, group, sources).Some?
  {
    if sources != [] {
      var init := sources[..|sources| - 1];
      forall i | 0 <= i < |init| ensures LegacySplitName(init[i]).Some? {
        assert init[i] == sources[i];
      }
      LegacyStreamsDefined(streamType, group, init);
      assert LegacySplitName(sources[|sources| - 1]).Some?;
    }
  }

  /** Each appended stream carries its own line's URI and name, the group's type and the group name. */
  lemma {:induction false} LegacyStreamsFields(streamType: StreamType, group: string, sources: seq<string>, i: int)
    requires LegacyStreams(streamType, group, sources).Some? && 0 <= i < |sources|
    ensures var s := LegacyStreams(streamType, group, sources).value[i];
      LegacySplitName(sources[i]) == Some((s.uri, s.name)) && s.streamType == streamType && s.group == group
  {
    var init := sources[..|sources| - 1];
    if i < |sources| - 1 {
      assert init[i] == sources[i];
      LegacyStreamsFields(streamType, group, init, i);
    }
  }

  /**
   * addLocalConfig of the older loader: append one stream per line, in
   * order, after the existing ones; None when a line panics.
   */
  method AddLocalConfig(dest: seq<LegacyStream>, streamType: StreamType, group: string, sources: seq<string>)
    returns (d: Option<seq<LegacyStream>>)
    ensures LegacyStreams(streamType, group, sources).None? ==> d.None?
    ensures LegacyStreams(streamType, group, sources).Some? ==>
      d == Some(dest + LegacyStreams(streamType, group, sources).value)
  {
    var acc := dest;
    for i := 0 to |sources|
      invariant LegacyStreams(streamType, group, sources[..i]).Some?
      invariant acc == dest + LegacyStreams(streamType, group, sources[..i]).value
    {
      var split := LegacySplitName(sources[i]);
      if split.None? {
        LegacyStreamsPanic(streamType, group, sources, i);
        return None;
      }
      var (uri, name) := split.value;
      var stream := LegacyStream(uri, streamType, name, group);
      LegacySnoc(streamType, group, sources, i);
      assert stream == Entry(streamType, group, split.value);
      assert acc + [stream] == dest + (LegacyStreams(streamType, group, sources[..i]).value + [stream]);
      acc := acc + [stream];
    }
    assert sources[..|sources|] == sources;
    d := Some(acc);
  }

  lemma LegacySnoc(streamType: StreamType, group: string, sources: seq<string>, i: int)
    requires 0 <= i < |sources| && LegacyStreams(streamType, group, sources[..i]).Some?
    requires LegacySplitName(sources[i]).Some?
    ensures LegacyStreams(streamType, group, sources[..i + 1]) ==
      Some(LegacyStreams(streamType, group, sources[..i]).value + [Entry(streamType, group, LegacySplitName(sources[i]).value)])
  {
    var pre := sources[..i + 1];
    assert pre[..|pre| - 1] == sources[..i];
    assert pre[|pre| - 1] == sources[i];
  }
}
