/**
 * Helpers of the HTTP reporting API: anchor and span markup, and decoding of
 * a hex-encoded stream or group key taken from a request path.
 */
module ApiHelpers {
  import opened Wrappers
  import opened Structures
  import opened Helpers

  // ---------------------------------------------------------------------------
  // Markup

  /** The part every anchor ends with: the link target and the text. */
  function AnchorTail(url: string, text: string): string {
    "href=\"" + url + "\">" + text + "</a>"
  }

  /**
   * href(url, text, opts...): no option gives a plain anchor, one option a
   * title, two options a title and a class; any other count falls back to
   * the plain anchor.
   */
  function Href(url: string, text: string, opts: seq<string>): (a: string)
    ensures "<a " <= a
    ensures |AnchorTail(url, text)| <= |a| && a[|a| - |AnchorTail(url, text)|..] == AnchorTail(url, text)
    ensures |opts| != 1 && |opts| != 2 ==> a == "<a " + AnchorTail(url, text)
  {
    var tail := AnchorTail(url, text);
    var head :=
      if |opts| == 1 then "<a title=\"" + opts[0] + "\" "
      else if |opts| == 2 then "<a title=\"" + opts[0] + "\" class=\"" + opts[1] + "\" "
      else "<a ";
    assert (head + tail)[|head|..] == tail;
    assert (head + tail)[..3] == head[..3] == "<a ";
    head + tail
  }

  /** More than two options are ignored: the anchor is the plain one. */
  lemma HrefExtraOptionsIgnored(url: string, text: string, opts: seq<string>)
    requires |opts| > 2
    ensures Href(url, text, opts) == Href(url, text, [])
  {
  }

  /** span(text, class): the text wrapped in a span of that CSS class. */
  function Span(text: string, cssClass: string): (s: string)
    ensures "<span class=\"" + cssClass + "\">" <= s
    ensures |s| == |cssClass| + |text| + 22 && s[|s| - 7..] == "</span>"
  {
    "<span class=\"" + cssClass + "\">" + text + "</span>"
  }

  /** Within one CSS class, the span shows which text it wraps. */
  lemma SpanInjective(t1: string, t2: string, cssClass: string)
    requires Span(t1, cssClass) == Span(t2, cssClass)
    ensures t1 == t2
  {
    var head := "<span class=\"" + cssClass + "\">";
    var s := Span(t1, cssClass);
    assert s == head + t1 + "</span>";
    assert s[|head|..|s| - 7] == t1;
    assert Span(t2, cssClass)[|head|..|s| - 7] == t2;
  }

  /** bytewe(res, err): the bytes, whatever the error. */
  function Bytewe(res: seq<Byte>, err: Option<string>): (r: seq<Byte>)
    ensures r == res
  {
    res
  }

  // ---------------------------------------------------------------------------
  // encoding/hex.DecodeString

  /** Value of one hex digit; both cases are accepted. */
  function HexValue(c: char): (v: Option<int>)
    ensures v.Some? ==> 0 <= v.value < 16
  {
    if '0' <= c <= '9' then Some(c as int - '0' as int)
    else if 'a' <= c <= 'f' then Some(c as int - 'a' as int + 10)
    else if 'A' <= c <= 'F' then Some(c as int - 'A' as int + 10)
    else None
  }

  function DecodePairs(s: string): (r: Option<seq<Byte>>)
    requires |s| % 2 == 0
    ensures r.Some? ==> |r.value| == |s| / 2
  {
    if s == [] then Some([])
    else
      match (HexValue(s[0]), HexValue(s[1]), DecodePairs(s[2..]))
      case (Some(hi), Some(lo), Some(rest)) => Some([hi * 16 + lo] + rest)
      case _ => None
  }

  /** Decoded bytes, or None when the length is odd or a character is not a hex digit. */
  function DecodeHex(s: string): (r: Option<seq<Byte>>)
    ensures r.Some? ==> |r.value| == |s| / 2 && |s| % 2 == 0
  {
    if |s| % 2 == 1 then None else DecodePairs(s)
  }

  /** A character that is not a hex digit makes decoding fail. */
  lemma {:induction false} DecodePairsRejects(s: string, i: int)
    requires |s| % 2 == 0 && 0 <= i < |s| && HexValue(s[i]).None?
    ensures DecodePairs(s).None?
  {
    if i >= 2 {
      DecodePairsRejects(s[2..], i - 2);
    }
  }

  // ---------------------------------------------------------------------------
  // KeyFromHex

  /** A character that is not a hex digit makes the whole decoding fail. */
  lemma NonDigitRejects(s: string, i: int)
    requires 0 <= i < |s|
    ensures HexValue(s[i]).None? ==> DecodeHex(s).None?
  {
    if |s| % 2 == 0 && HexValue(s[i]).None? {
      DecodePairsRejects(s, i);
    }
  }

  /** A string that decodes holds only hex digits. */
  lemma DecodedAllDigits(s: string)
    requires DecodeHex(s).Some?
    ensures forall i :: 0 <= i < |s| ==> HexValue(s[i]).Some?
  {
    forall i | 0 <= i < |s|
      ensures HexValue(s[i]).Some?
    {
      NonDigitRejects(s, i);
    }
  }

  /** The byte `[]byte(s)` holds for a hex digit: its ASCII code. */
  function AsciiByte(c: char): (b: Byte)
    requires HexValue(c).Some?
    ensures b == c as int
  {
    c as int
  }

  /** How KeyFromHex ended: a key, a decoding error, or the slice-bounds panic of sum[0:32]. */
  datatype KeyStatus = Parsed | BadHex | TooShort

  datatype KeyParse = KeyParse(key: Key, status: KeyStatus)

  /**
   * The first 32 bytes of the array behind the decoded slice: hex.DecodeString
   * decodes in place, so the decoded bytes are followed by the string's own
   * characters from where decoding stopped, and those by the zeroed bytes the
   * allocation was rounded up with.
   */
  function SliceKey(hexstr: string, sum: seq<Byte>): Key
    requires DecodeHex(hexstr) == Some(sum)
  {
    DecodedAllDigits(hexstr);
    seq(32, i requires 0 <= i < 32 =>
      if i < |sum| then sum[i] else if i < |hexstr| then AsciiByte(hexstr[i]) else 0)
  }

  /**
   * KeyFromHex. The slice hex.DecodeString returns shares the array made
   * from the string, so its capacity is the string's length plus `spare`,
   * the zeroed bytes by which the runtime rounded that allocation up.
   * Invalid hex gives the zero key with an error. Otherwise sum[0:32] reads
   * the first 32 bytes of that array (see SliceKey), and fails at run time
   * (TooShort) only when the capacity is below 32.
   */
  function KeyFromHex(hexstr: string, spare: nat): (p: KeyParse)
    ensures p.status == BadHex <==> DecodeHex(hexstr).None?
    ensures p.status == TooShort <==> DecodeHex(hexstr).Some? && |hexstr| + spare < 32
    ensures p.status != Parsed ==> p.key == ZeroKey
    ensures p.status == Parsed ==>
      DecodeHex(hexstr).Some? &&
      (forall i :: 0 <= i < 32 ==>
        p.key[i] == (if i < |hexstr| / 2 then DecodeHex(hexstr).value[i]
                     else if i < |hexstr| then hexstr[i] as int else 0))
  {
    match DecodeHex(hexstr)
    case None => KeyParse(ZeroKey, BadHex)
    case Some(sum) =>
      if |hexstr| + spare < 32 then KeyParse(ZeroKey, TooShort)
      else KeyParse(SliceKey(hexstr, sum), Parsed)
  }

  /** At least 64 valid digits give exactly the first 32 decoded bytes, whatever the capacity. */
  lemma KeyFromHexLong(hexstr: string, spare: nat)
    requires DecodeHex(hexstr).Some? && |hexstr| >= 64
    ensures KeyFromHex(hexstr, spare) == KeyParse(DecodeHex(hexstr).value[..32], Parsed)
  {
    var p := KeyFromHex(hexstr, spare);
    assert p.status == Parsed;
    forall i | 0 <= i < 32
      ensures p.key[i] == DecodeHex(hexstr).value[i]
    {
    }
  }

  /** A run of zero digits decodes to zero bytes, one per pair. */
  lemma {:induction false} DecodeZeroDigits(s: string)
    requires |s| % 2 == 0 && forall i :: 0 <= i < |s| ==> s[i] == '0'
    ensures DecodePairs(s).Some? && forall i :: 0 <= i < |s| / 2 ==> DecodePairs(s).value[i] == 0
  {
    if s != [] {
      DecodeZeroDigits(s[2..]);
      assert HexValue(s[0]) == Some(0) && HexValue(s[1]) == Some(0);
    }
  }

  /**
   * 32 zero digits decode to only 16 bytes, yet the capacity of the string's
   * array is 32, so sum[0:32] succeeds: the key is 16 zero bytes followed by
   * 16 copies of the ASCII code of '0', not a zero-padded key.
   */
  lemma KeyFromShortHex()
    ensures var p := KeyFromHex(seq(32, _ => '0'), 0);
      p.status == Parsed &&
      (forall i :: 0 <= i < 16 ==> p.key[i] == 0) &&
      (forall i :: 16 <= i < 32 ==> p.key[i] == 48)
  {
    DecodeZeroDigits(seq(32, _ => '0'));
  }

  /** A string holding any character that is not a hex digit gives the zero key and an error. */
  lemma KeyFromHexRejects(hexstr: string, spare: nat, i: int)
    requires 0 <= i < |hexstr| && HexValue(hexstr[i]).None?
    ensures KeyFromHex(hexstr, spare) == KeyParse(ZeroKey, BadHex)
  {
    NonDigitRejects(hexstr, i);
  }

  lemma HexDigitValue(d: int)
    requires 0 <= d < 16
    ensures HexValue(HexAlphabet[d]) == Some(d)
    ensures HexValue(UpperChar(HexAlphabet[d])) == Some(d)
  {
  }

  /** Decoding one leading pair of digits. */
  lemma DecodeFirstPair(s: string, hi: int, lo: int, rest: seq<Byte>)
    requires |s| >= 2 && |s| % 2 == 0
    requires HexValue(s[0]) == Some(hi) && HexValue(s[1]) == Some(lo)
    requires DecodePairs(s[2..]) == Some(rest)
    ensures DecodePairs(s) == Some([hi * 16 + lo] + rest)
  {
  }

  lemma ByteNibbles(b: Byte)
    ensures (b / 16) * 16 + b % 16 == b && 0 <= b / 16 < 16 && 0 <= b % 16 < 16
  {
  }

  /** Byte `i` of `bs` is spelled by the digit pair at position 2i of `s`. */
  predicate PairSpells(s: string, bs: seq<Byte>, i: int)
    requires |s| == 2 * |bs| && 0 <= i < |bs|
  {
    HexValue(s[2 * i]) == Some(bs[i] / 16) && HexValue(s[2 * i + 1]) == Some(bs[i] % 16)
  }

  /** A string whose every digit pair spells the matching byte decodes to those bytes. */
  lemma {:induction false} DecodeSpelled(s: string, bs: seq<Byte>)
    requires |s| == 2 * |bs|
    requires forall i :: 0 <= i < |bs| ==> PairSpells(s, bs, i)
    ensures DecodePairs(s) == Some(bs)
  {
    if bs != [] {
      forall i | 0 <= i < |bs| - 1
        ensures PairSpells(s[2..], bs[1..], i)
      {
        assert PairSpells(s, bs, i + 1);
      }
      DecodeSpelled(s[2..], bs[1..]);
      assert PairSpells(s, bs, 0);
      ByteNibbles(bs[0]);
      DecodeFirstPair(s, bs[0] / 16, bs[0] % 16, bs[1..]);
      assert [bs[0]] + bs[1..] == bs;
    }
  }

  /** Each byte's rendering is the pair of its nibbles' digits. */
  lemma {:induction false} HexBytesSpell(bs: seq<Byte>)
    ensures forall i :: 0 <= i < |bs| ==> PairSpells(HexBytes(bs), bs, i)
  {
    if bs != [] {
      var h := HexBytes(bs);
      var t := HexBytes(bs[1..]);
      HexBytesSpell(bs[1..]);
      assert h[2..] == t;
      ByteNibbles(bs[0]);
      HexDigitValue(bs[0] / 16);
      HexDigitValue(bs[0] % 16);
      assert PairSpells(h, bs, 0);
      forall i | 1 <= i < |bs|
        ensures PairSpells(h, bs, i)
      {
        assert PairSpells(t, bs[1..], i - 1);
        assert h[2 * i] == t[2 * (i - 1)] && h[2 * i + 1] == t[2 * (i - 1) + 1];
      }
    }
  }

  /** Upper-casing a hex digit keeps its value. */
  lemma UpperHexValue(c: char)
    requires HexValue(c).Some?
    ensures HexValue(UpperChar(c)) == HexValue(c)
  {
  }

  /** The upper-cased rendering spells the same bytes. */
  lemma UpperHexBytesSpell(bs: seq<Byte>)
    ensures forall i :: 0 <= i < |bs| ==> PairSpells(Upper(HexBytes(bs)), bs, i)
  {
    var h := HexBytes(bs);
    HexBytesSpell(bs);
    forall i | 0 <= i < |bs|
      ensures PairSpells(Upper(h), bs, i)
    {
      assert PairSpells(h, bs, i);
      UpperHexValue(h[2 * i]);
      UpperHexValue(h[2 * i + 1]);
    }
  }

  /** Decoding undoes the lower-case `%x` rendering of any byte string. */
  lemma DecodeHexBytes(bs: seq<Byte>)
    ensures DecodePairs(HexBytes(bs)) == Some(bs)
  {
    HexBytesSpell(bs);
    DecodeSpelled(HexBytes(bs), bs);
  }

  /** Decoding also accepts the upper-case rendering. */
  lemma DecodeUpperHexBytes(bs: seq<Byte>)
    ensures DecodePairs(Upper(HexBytes(bs))) == Some(bs)
  {
    UpperHexBytesSpell(bs);
    DecodeSpelled(Upper(HexBytes(bs)), bs);
  }

  /** Round trip: a key's hex rendering decodes back to the key. */
  lemma KeyFromHexOfKeyString(k: Key, spare: nat)
    ensures KeyFromHex(KeyString(k), spare) == KeyParse(k, Parsed)
  {
    DecodeHexBytes(k);
    KeyFromHexLong(KeyString(k), spare);
  }

  /** The upper-cased rendering decodes to the same key. */
  lemma KeyFromHexOfUpperKeyString(k: Key, spare: nat)
    ensures KeyFromHex(Upper(KeyString(k)), spare) == KeyParse(k, Parsed)
  {
    DecodeUpperHexBytes(k);
    KeyFromHexLong(Upper(KeyString(k)), spare);
  }

  /** Distinct keys have distinct renderings. */
  lemma KeyStringInjective(k1: Key, k2: Key)
    requires KeyString(k1) == KeyString(k2)
    ensures k1 == k2
  {
    KeyFromHexOfKeyString(k1, 0);
    KeyFromHexOfKeyString(k2, 0);
  }
}
