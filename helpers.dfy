/**
 * String helpers of the Go standard library that the monitor relies on
 * (white-space trimming, case mapping, decimal formatting and parsing), and
 * the switch-based conversions of internal/pkg/helpers: error-code names,
 * stream-type names and the user-agent choice.
 */
module Helpers {
  import opened Wrappers
  import opened Structures

  // ---------------------------------------------------------------------------
  // unicode.IsSpace and strings.TrimSpace

  /** The runes for which Go's unicode.IsSpace holds. */
  predicate IsSpace(c: char) {
    || c == ' '
    || '\t' <= c <= '\r'
    || c == '\U{0085}' || c == '\U{00A0}' || c == '\U{1680}'
    || '\U{2000}' <= c <= '\U{200A}'
    || c == '\U{2028}' || c == '\U{2029}' || c == '\U{202F}' || c == '\U{205F}' || c == '\U{3000}'
  }

  /** Drops leading white space. */
  function TrimLeft(s: string): (r: string)
    ensures |r| <= |s|
    ensures r == [] || !IsSpace(r[0])
  {
    if s == [] || !IsSpace(s[0]) then s else TrimLeft(s[1..])
  }

  /** What TrimLeft drops is white space, and what it keeps is a suffix. */
  lemma {:induction false} TrimLeftSuffix(s: string)
    ensures var r := TrimLeft(s);
      r == s[|s| - |r|..] && forall i :: 0 <= i < |s| - |r| ==> IsSpace(s[i])
  {
    if s != [] && IsSpace(s[0]) {
      TrimLeftSuffix(s[1..]);
    }
  }

  /** Drops trailing white space. */
  function TrimRight(s: string): (r: string)
    ensures |r| <= |s|
    ensures r == [] || !IsSpace(r[|r| - 1])
  {
    if s == [] || !IsSpace(s[|s| - 1]) then s else TrimRight(s[..|s| - 1])
  }

  /** What TrimRight drops is white space, and what it keeps is a prefix. */
  lemma {:induction false} TrimRightPrefix(s: string)
    ensures var r := TrimRight(s);
      r == s[..|r|] && forall i :: |r| <= i < |s| ==> IsSpace(s[i])
  {
    if s != [] && IsSpace(s[|s| - 1]) {
      TrimRightPrefix(s[..|s| - 1]);
    }
  }

  /** strings.TrimSpace: a factor of `s` with no white space at either end. */
  function TrimSpace(s: string): (r: string)
    ensures r == [] || (!IsSpace(r[0]) && !IsSpace(r[|r| - 1]))
    ensures |r| <= |s|
  {
    TrimRightPrefix(TrimLeft(s));
    TrimRight(TrimLeft(s))
  }

  /** A string without white space at either end is its own trimming. */
  lemma TrimSpaceUnchanged(s: string)
    requires s == [] || (!IsSpace(s[0]) && !IsSpace(s[|s| - 1]))
    ensures TrimSpace(s) == s
  {
  }

  /** What TrimSpace keeps is a factor of its argument. */
  lemma TrimSpaceIsFactor(s: string)
    ensures exists i, j :: 0 <= i <= j <= |s| && TrimSpace(s) == s[i..j]
  {
    var l := TrimLeft(s);
    var r := TrimRight(l);
    TrimLeftSuffix(s);
    TrimRightPrefix(l);
    assert r == s[|s| - |l|..][..|r|] == s[|s| - |l|..|s| - |l| + |r|];
  }

  // ---------------------------------------------------------------------------
  // strings.HasPrefix, strings.Index and strings.SplitN(s, sep, 2)

  predicate HasPrefix(s: string, p: string) {
    |p| <= |s| && s[..|p|] == p
  }

  /** `p` occurs in `s` at index `j`. */
  predicate OccursAt(s: string, p: string, j: nat)
    requires j <= |s|
  {
    HasPrefix(s[j..], p)
  }

  /** The first index at which `p` occurs in `s`, searching from `from`. */
  function Index(s: string, p: string, from: nat): (r: Option<nat>)
    requires from <= |s|
    ensures r.Some? ==> from <= r.value <= |s| - |p| && OccursAt(s, p, r.value)
    ensures r.Some? ==> forall j :: from <= j < r.value ==> !OccursAt(s, p, j)
    ensures r.None? ==> forall j :: from <= j <= |s| ==> !OccursAt(s, p, j)
    decreases |s| - from
  {
    if OccursAt(s, p, from) then Some(from)
    else if from == |s| then None
    else Index(s, p, from + 1)
  }

  /** The first occurrence of `p` is the one after `pre` when `pre` holds no first letter of `p`. */
  lemma {:induction false} IndexFirst(s: string, p: string, pre: string, post: string, from: nat)
    requires s == pre + p + post && p != [] && p[0] !in pre && from <= |pre|
    ensures Index(s, p, from) == Some(|pre|)
    decreases |pre| - from
  {
    assert s[|pre|..][..|p|] == p;
    if from < |pre| {
      assert s[from..][0] == pre[from];
      IndexFirst(s, p, pre, post, from + 1);
    }
  }

  /** A string without the first letter of `p` holds no occurrence of it. */
  lemma {:induction false} IndexAbsent(s: string, p: string, from: nat)
    requires p != [] && p[0] !in s && from <= |s|
    ensures Index(s, p, from) == None
    decreases |s| - from
  {
    if from < |s| {
      assert s[from..][0] == s[from];
      IndexAbsent(s, p, from + 1);
    }
  }

  /** The text before the first `c` is a prefix of `s` without any `c`. */
  lemma SplitFirstHead(s: string, c: char)
    ensures var head := SplitFirst(s, [c])[0];
      HasPrefix(s, head) && c !in head
  {
    var parts := SplitFirst(s, [c]);
    SplitFirstJoin(s, [c]);
    var n := |parts[0]|;
    forall j | 0 <= j < n ensures s[j] != c {
      assert !OccursAt(s, [c], j);
      assert s[j..][..1] == [s[j]];
    }
    if |parts| == 2 {
      assert s == parts[0] + [c] + parts[1];
      assert s[..n] == parts[0];
    } else {
      assert s[..n] == s;
    }
  }

  /**
   * strings.SplitN(s, sep, 2): the text before the first `sep` and the text
   * after it, or `s` alone when `sep` does not occur.
   */
  function SplitFirst(s: string, sep: string): (parts: seq<string>)
    requires sep != ""
    ensures 1 <= |parts| <= 2
    ensures |parts| == 1 <==> Index(s, sep, 0).None?
  {
    match Index(s, sep, 0)
    case None => [s]
    case Some(i) => [s[..i], s[i + |sep|..]]
  }

  /** The two parts joined by the separator give back `s`, split at the first occurrence; one part is `s` itself. */
  lemma SplitFirstJoin(s: string, sep: string)
    requires sep != ""
    ensures var parts := SplitFirst(s, sep);
      (|parts| == 1 ==> parts[0] == s) &&
      (|parts| == 2 ==> parts[0] + sep + parts[1] == s && Index(s, sep, 0) == Some(|parts[0]|))
  {
    match Index(s, sep, 0)
    case None =>
    case Some(i) =>
      assert s[i..][..|sep|] == sep;
      assert s[i..i + |sep|] == sep;
      assert s == s[..i] + s[i..i + |sep|] + s[i + |sep|..];
  }

  // ---------------------------------------------------------------------------
  // strings.ToLower / strings.ToUpper

  /**
   * unicode.ToLower restricted to the runes whose lower case is ASCII: the
   * ASCII capitals, U+0130 (capital I with dot) and U+212A (Kelvin sign).
   * Every other rune is left as it is.
   */
  function LowerChar(c: char): char {
    if 'A' <= c <= 'Z' then (c as int + 32) as char
    else if c == '\U{0130}' then 'i'
    else if c == '\U{212A}' then 'k'
    else c
  }

  function Lower(s: string): (r: string)
    ensures |r| == |s| && forall i :: 0 <= i < |s| ==> r[i] == LowerChar(s[i])
  {
    seq(|s|, i requires 0 <= i < |s| => LowerChar(s[i]))
  }

  /** ASCII upper-casing. */
  function UpperChar(c: char): char {
    if 'a' <= c <= 'z' then (c as int - 32) as char else c
  }

  function Upper(s: string): (r: string)
    ensures |r| == |s| && forall i :: 0 <= i < |s| ==> r[i] == UpperChar(s[i])
  {
    seq(|s|, i requires 0 <= i < |s| => UpperChar(s[i]))
  }

  /** Lower-casing twice is lower-casing once. */
  lemma LowerIdempotent(s: string)
    ensures Lower(Lower(s)) == Lower(s)
  {
    assert forall i :: 0 <= i < |s| ==> Lower(Lower(s))[i] == Lower(s)[i];
  }

  /** Upper-casing first does not change the lower-cased text. */
  lemma LowerOfUpper(s: string)
    ensures Lower(Upper(s)) == Lower(s)
  {
    assert forall i :: 0 <= i < |s| ==> Lower(Upper(s))[i] == Lower(s)[i];
  }

  // ---------------------------------------------------------------------------
  // strconv.Itoa / FormatInt and ParseInt (base 10)

  function DigitChar(d: int): char
    requires 0 <= d < 10
  {
    "0123456789"[d]
  }

  predicate IsDigit(c: char) { '0' <= c <= '9' }

  function DigitValue(c: char): int
    requires IsDigit(c)
  {
    c as int - '0' as int
  }

  predicate AllDigits(s: string) {
    forall i :: 0 <= i < |s| ==> IsDigit(s[i])
  }

  function NatToString(n: nat): (s: string)
    ensures |s| > 0 && AllDigits(s)
  {
    if n < 10 then [DigitChar(n)] else NatToString(n / 10) + [DigitChar(n % 10)]
  }

  /** strconv.FormatInt(n, 10): an optional minus sign and the decimal digits. */
  function IntToString(n: int): (s: string)
  {
    if n < 0 then "-" + NatToString(-n) else NatToString(n)
  }

  /** Value of a string of decimal digits, most significant first. */
  function DigitsValue(s: string): nat
    requires AllDigits(s)
  {
    if s == [] then 0 else 10 * DigitsValue(s[..|s| - 1]) + DigitValue(s[|s| - 1])
  }

  const MinInt64: int := -0x8000_0000_0000_0000
  const MaxInt64: int := 0x7FFF_FFFF_FFFF_FFFF

  /**
   * strconv.ParseInt(s, 10, 64): an optional sign followed by one or more
   * decimal digits, whose value fits in 64 bits; None for every other input.
   */
  function ParseInt(s: string): (r: Option<int>)
    ensures r.Some? ==> MinInt64 <= r.value <= MaxInt64
  {
    var neg := |s| > 0 && s[0] == '-';
    var body := if |s| > 0 && (s[0] == '-' || s[0] == '+') then s[1..] else s;
    if body == [] || !AllDigits(body) then None
    else
      var v: int := if neg then 0 - (DigitsValue(body) as int) else DigitsValue(body);
      if MinInt64 <= v <= MaxInt64 then Some(v) else None
  }

  lemma {:induction false} DigitsOfNat(n: nat)
    ensures DigitsValue(NatToString(n)) == n
  {
    var s := NatToString(n);
    if n >= 10 {
      DigitsOfNat(n / 10);
      assert s[..|s| - 1] == NatToString(n / 10);
    }
  }

  /** Decimal formatting and parsing are inverse on 64-bit integers. */
  lemma ParseIntOfIntToString(n: int)
    requires MinInt64 <= n <= MaxInt64
    ensures ParseInt(IntToString(n)) == Some(n)
  {
    if n < 0 {
      DigitsOfNat(-n);
      ParseNegative(NatToString(-n));
    } else {
      var d := NatToString(n);
      assert IsDigit(d[0]);
      DigitsOfNat(n);
    }
  }

  lemma ParseNegative(d: string)
    requires |d| > 0 && AllDigits(d) && DigitsValue(d) <= -MinInt64
    ensures ParseInt("-" + d) == Some(0 - DigitsValue(d))
  {
    assert ("-" + d)[1..] == d;
  }

  // ---------------------------------------------------------------------------
  // String2StreamErr

  /** Name of an error code, lower-cased, as accepted by the configuration. */
  function String2StreamErr(s: string): (e: ErrType)
    ensures e <= UNKERR
  {
    match Lower(s)
    case "success" => SUCCESS
    case "debug" => DEBUG_LEVEL
    case "hlsparser" => HLSPARSER
    case "badrequest" => BADREQUEST
    case "warning" => WARNING_LEVEL
    case "slow" => SLOW
    case "veryslow" => VERYSLOW
    case "badstatus" => BADSTATUS
    case "baduri" => BADURI
    case "listempty" => LISTEMPTY
    case "badformat" => BADFORMAT
    case "ttlexpired" => TTLEXPIRED
    case "rtimeout" => RTIMEOUT
    case "error" => ERROR_LEVEL
    case "ctimeout" => CTIMEOUT
    case "badlength" => BADLENGTH
    case "bodyread" => BODYREAD
    case "critical" => CRITICAL_LEVEL
    case "refused" => REFUSED
    case _ => UNKERR
  }

  /** The one name under which each error code below UNKERR is configured. */
  function ErrName(e: ErrType): (s: string)
    requires e < UNKERR
  {
    ["success", "debug", "ttlexpired", "hlsparser", "badrequest", "warning", "slow", "veryslow",
     "error", "ctimeout", "rtimeout", "badlength", "bodyread", "critical", "refused", "badstatus",
     "baduri", "listempty", "badformat"][e]
  }

  /** Matching ignores case: any upper-casing of the input gives the same code. */
  lemma String2StreamErrIgnoresCase(s: string)
    ensures String2StreamErr(Upper(s)) == String2StreamErr(s)
    ensures String2StreamErr(Lower(s)) == String2StreamErr(s)
  {
    LowerOfUpper(s);
    LowerIdempotent(s);
  }

  /** The four threshold names select the four thresholds. */
  lemma ThresholdNames()
    ensures String2StreamErr("debug") == DEBUG_LEVEL
    ensures String2StreamErr("warning") == WARNING_LEVEL
    ensures String2StreamErr("error") == ERROR_LEVEL
    ensures String2StreamErr("critical") == CRITICAL_LEVEL
  {
    assert Lower("debug") == "debug";
    assert Lower("warning") == "warning";
    assert Lower("error") == "error";
    assert Lower("critical") == "critical";
  }

  /** Every error code below UNKERR is produced by its name. */
  lemma ErrNameRoundTrip(e: ErrType)
    requires e < UNKERR
    ensures String2StreamErr(ErrName(e)) == e
  {
    if e < 10 {
      ErrNameRoundTripLow(e);
    } else {
      ErrNameRoundTripHigh(e);
    }
  }

  lemma ErrNameRoundTripLow(e: ErrType)
    requires e < 10
    ensures String2StreamErr(ErrName(e)) == e
  {
    var n := ErrName(e);
    assert Lower(n) == n;
  }

  lemma ErrNameRoundTripHigh(e: ErrType)
    requires 10 <= e < UNKERR
    ensures String2StreamErr(ErrName(e)) == e
  {
    var n := ErrName(e);
    assert Lower(n) == n;
  }

  /** ... and by no other name: whatever yields a code below UNKERR is that name up to case. */
  lemma ErrNameUnique(s: string)
    requires String2StreamErr(s) != UNKERR
    ensures Lower(s) == ErrName(String2StreamErr(s))
  {
  }

  // ---------------------------------------------------------------------------
  // StreamType2String

  function StreamType2String(t: StreamType): (s: string)
    ensures s == "unknown" <==> !(SAMPLE <= t <= WV)
  {
    match t
    case 1 => "sample"
    case 3 => "hls"
    case 4 => "hds"
    case 5 => "wv"
    case 2 => "http"
    case _ => "unknown"
  }

  // ---------------------------------------------------------------------------
  // UserAgent

  const DefaultUserAgent: string := "hls-monitor/0.0.1a"

  /** The range of rand.Intn(n): [0, n), empty (a panic) when n <= 0. */
  predicate IntnDraw(n: int, draw: int) { 0 <= draw < n }

  /**
   * UserAgent as written: with agents configured it indexes by
   * rand.Intn(len - 1). None stands for the panic of rand.Intn(0) when
   * exactly one agent is configured.
   */
  function UserAgent(agents: seq<string>, draw: int): (r: Option<string>)
    requires |agents| > 1 ==> IntnDraw(|agents| - 1, draw)
    ensures |agents| == 0 ==> r == Some(DefaultUserAgent)
    ensures |agents| == 1 <==> r.None?
    ensures |agents| > 1 ==> r == Some(agents[draw]) && draw < |agents| - 1
  {
    if |agents| > 0 then
      if |agents| - 1 <= 0 then None else Some(agents[draw])
    else Some(DefaultUserAgent)
  }

  /** As written, the last configured agent is never chosen, and one agent alone cannot be chosen at all. */
  lemma UserAgentSkipsLast(agents: seq<string>, draw: int)
    requires |agents| >= 1
    requires |agents| > 1 ==> IntnDraw(|agents| - 1, draw)
    requires forall i :: 0 <= i < |agents| - 1 ==> agents[i] != agents[|agents| - 1]
    ensures UserAgent(agents, draw) != Some(agents[|agents| - 1])
  {
  }

  /** Counterexample: with agents ["a", "b"] every admissible draw gives "a". */
  lemma UserAgentTwoAgentsExample(draw: int)
    requires IntnDraw(1, draw)
    ensures UserAgent(["a", "b"], draw) == Some("a")
  {
  }

  /** The intended choice: rand.Intn(len) picks any configured agent. */
  function UserAgentIntended(agents: seq<string>, draw: int): (r: string)
    requires |agents| > 0 ==> IntnDraw(|agents|, draw)
    ensures |agents| == 0 ==> r == DefaultUserAgent
    ensures |agents| > 0 ==> r in agents
  {
    if |agents| > 0 then agents[draw] else DefaultUserAgent
  }

  /** Every configured agent, the last one included, can be chosen. */
  lemma UserAgentIntendedReachesAll(agents: seq<string>, i: int)
    requires 0 <= i < |agents|
    ensures exists draw :: IntnDraw(|agents|, draw) && UserAgentIntended(agents, draw) == agents[i]
  {
    assert IntnDraw(|agents|, i) && UserAgentIntended(agents, i) == agents[i];
  }
}
