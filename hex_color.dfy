/** The colour-string helpers of MP4: `cutHex` drops a leading `#`, and
    `hexToR`, `hexToG`, `hexToB` read two characters each with the
    JavaScript `parseInt(_, 16)`. The string built-ins they rely on
    (`charAt`, `substring`, `parseInt`) are modelled here with the
    ECMAScript rules for out-of-range positions, leading white space, a
    sign, a `0x` prefix and trailing junk; a failed parse (`NaN`) is `None`. */
module HexColor {
  import opened Options

  // ---------------------------------------------------------------------
  // String built-ins

  /** `substring` clamps each position into `[0, |s|]`. */
  function Clip(pos: int, n: nat): (r: nat)
    ensures r <= n && (0 <= pos <= n ==> r == pos)
  {
    if pos < 0 then 0 else if pos > n then n else pos
  }

  /** `s.substring(start, end)`: the clamped positions, in either order. */
  function Substring(s: string, start: int, end: int): (r: string)
    ensures |r| <= |s|
  {
    var a, b := Clip(start, |s|), Clip(end, |s|);
    if a <= b then s[a..b] else s[b..a]
  }

  /** With positions in range and in order, `substring` is the slice. */
  lemma SubstringSlice(s: string, start: int, end: int)
    requires 0 <= start <= end <= |s|
    ensures Substring(s, start, end) == s[start..end]
  {
  }

  /** `substring` does not care which position comes first. */
  lemma SubstringSwap(s: string, start: int, end: int)
    ensures Substring(s, start, end) == Substring(s, end, start)
  {
  }

  /** `s.charAt(pos)`: the one-character string there, or `""` out of range. */
  function CharAt(s: string, pos: int): (r: string)
    ensures |r| <= 1 && (|r| == 1 <==> 0 <= pos < |s|)
    ensures |r| == 1 ==> r[0] == s[pos]
  {
    if 0 <= pos < |s| then [s[pos]] else ""
  }

  /** The white space and line terminators `parseInt` skips at the start. */
  predicate IsJsSpace(c: char) {
    c == ' ' || c == '\t' || c == '\n' || c == '\r' || c == '\U{000B}' || c == '\U{000C}'
    || c == '\U{00A0}' || c == '\U{FEFF}' || c == '\U{1680}' || ('\U{2000}' <= c <= '\U{200A}')
    || c == '\U{2028}' || c == '\U{2029}' || c == '\U{202F}' || c == '\U{205F}' || c == '\U{3000}'
  }

  /** The first position at or after `i` that is not white space. */
  function SpaceEnd(s: string, i: nat): (r: nat)
    requires i <= |s|
    ensures i <= r <= |s|
    ensures forall k :: i <= k < r ==> IsJsSpace(s[k])
    ensures r < |s| ==> !IsJsSpace(s[r])
    decreases |s| - i
  {
    if i < |s| && IsJsSpace(s[i]) then SpaceEnd(s, i + 1) else i
  }

  predicate IsHexDigit(c: char) {
    ('0' <= c <= '9') || ('a' <= c <= 'f') || ('A' <= c <= 'F')
  }

  function DigitValue(c: char): (r: nat)
    requires IsHexDigit(c)
    ensures r < 16
  {
    if '0' <= c <= '9' then (c - '0') as nat
    else if 'a' <= c <= 'f' then (c - 'a') as nat + 10
    else (c - 'A') as nat + 10
  }

  /** The end of the run of hex digits that starts at `i`. */
  function HexEnd(s: string, i: nat): (r: nat)
    requires i <= |s|
    ensures i <= r <= |s|
    ensures forall k :: i <= k < r ==> IsHexDigit(s[k])
    ensures r < |s| ==> !IsHexDigit(s[r])
    decreases |s| - i
  {
    if i < |s| && IsHexDigit(s[i]) then HexEnd(s, i + 1) else i
  }

  function Pow16(n: nat): (r: nat)
    ensures r >= 1
  {
    if n == 0 then 1 else 16 * Pow16(n - 1)
  }

  /** The value of the hex digits `s[lo..hi]`, most significant first. */
  function HexValue(s: string, lo: nat, hi: nat): (r: nat)
    requires lo <= hi <= |s| && forall k :: lo <= k < hi ==> IsHexDigit(s[k])
    ensures r < Pow16(hi - lo)
    decreases hi - lo
  {
    if hi == lo then 0 else 16 * HexValue(s, lo, hi - 1) + DigitValue(s[hi - 1])
  }

  /** `parseInt(s, 16)`: skip leading white space, take an optional sign,
      skip a `0x`/`0X` prefix, then read the longest run of hex digits and
      ignore the rest; no digits at all is `NaN`. */
  function ParseInt16(s: string): (r: Option<int>)
  {
    var t := SpaceEnd(s, 0);
    var sign := if t < |s| && s[t] == '-' then -1 else 1;
    var u := if t < |s| && (s[t] == '-' || s[t] == '+') then t + 1 else t;
    var w := if u + 2 <= |s| && s[u] == '0' && (s[u + 1] == 'x' || s[u + 1] == 'X') then u + 2 else u;
    var e := HexEnd(s, w);
    if e == w then None else Some(sign * HexValue(s, w, e))
  }

  lemma HexIsNotSpace(c: char)
    requires IsHexDigit(c)
    ensures !IsJsSpace(c) && c != '-' && c != '+' && c != 'x' && c != 'X'
  {
  }

  /** A string made only of hex digits parses to its value. */
  lemma ParseAllHex(s: string)
    requires |s| > 0 && forall k :: 0 <= k < |s| ==> IsHexDigit(s[k])
    ensures ParseInt16(s) == Some(HexValue(s, 0, |s|))
  {
    HexIsNotSpace(s[0]);
    if |s| >= 2 {
      HexIsNotSpace(s[1]);
    }
    assert SpaceEnd(s, 0) == 0;
    assert HexEnd(s, 0) == |s|;
  }

  /** The byte two hex digits stand for. */
  function Byte(c0: char, c1: char): (r: nat)
    requires IsHexDigit(c0) && IsHexDigit(c1)
    ensures r < 256
  {
    16 * DigitValue(c0) + DigitValue(c1)
  }

  lemma HexValueTwo(p: string)
    requires |p| == 2 && IsHexDigit(p[0]) && IsHexDigit(p[1])
    ensures HexValue(p, 0, 2) == Byte(p[0], p[1])
  {
    assert HexValue(p, 0, 1) == DigitValue(p[0]);
  }

  /** Two hex digits parse to their value, a byte. */
  lemma ParseTwoDigits(p: string)
    requires |p| == 2 && IsHexDigit(p[0]) && IsHexDigit(p[1])
    ensures ParseInt16(p) == Some(Byte(p[0], p[1]))
  {
    ParseAllHex(p);
    HexValueTwo(p);
  }

  /** Digits are only read up to the first non-digit. */
  lemma ParseStopsAtJunk(s: string)
    requires |s| == 2 && IsHexDigit(s[0]) && !IsHexDigit(s[1])
    requires s[0] != '0' || (s[1] != 'x' && s[1] != 'X')
    ensures ParseInt16(s) == Some(DigitValue(s[0]))
  {
    HexIsNotSpace(s[0]);
    assert SpaceEnd(s, 0) == 0;
    assert HexEnd(s, 0) == 1;
    assert HexValue(s, 0, 1) == DigitValue(s[0]);
  }

  /** No digits is `NaN`, also after a bare `0x` prefix. */
  lemma ParseNoDigits()
    ensures ParseInt16("") == None && ParseInt16("0x") == None
  {
    assert SpaceEnd("0x", 0) == 0;
    assert HexEnd("0x", 2) == 2;
  }

  /** A minus sign in front negates the value: the helpers can return a
      negative channel for a string that is not a colour. */
  lemma ParseNegative(c: char)
    requires IsHexDigit(c)
    ensures ParseInt16(['-', c]) == Some(-(DigitValue(c) as int))
  {
    var s := ['-', c];
    assert SpaceEnd(s, 0) == 0;
    HexIsNotSpace(c);
    assert HexEnd(s, 1) == 2;
    assert HexValue(s, 1, 2) == DigitValue(c);
  }

  // ---------------------------------------------------------------------
  // The colour helpers (MP4/mp4.js:51-54)

  /** `cutHex`: the six characters after a leading `#`, else `h` itself. */
  function CutHex(h: string): (r: string)
    ensures |h| > 0 && h[0] == '#' ==> r == h[1..if |h| < 7 then |h| else 7]
    ensures (|h| == 0 || h[0] != '#') ==> r == h
  {
    if CharAt(h, 0) == "#" then Substring(h, 1, 7) else h
  }

  /** The two characters at `i` of `cutHex(h)`, read in base 16. */
  function Channel(h: string, i: nat): Option<int> {
    ParseInt16(Substring(CutHex(h), i, i + 2))
  }

  function HexToR(h: string): Option<int> { Channel(h, 0) }
  function HexToG(h: string): Option<int> { Channel(h, 2) }
  function HexToB(h: string): Option<int> { Channel(h, 4) }

  predicate AllHex(h: string) {
    forall k :: 0 <= k < |h| ==> IsHexDigit(h[k])
  }

  lemma SubstringPair(h: string, i: nat)
    requires i + 2 <= |h|
    ensures |Substring(h, i, i + 2)| == 2
    ensures Substring(h, i, i + 2)[0] == h[i] && Substring(h, i, i + 2)[1] == h[i + 1]
  {
  }

  /** Two hex digits at `i` and `j == i + 1` of a string without a `#` are
      what the channel at `i` reads. */
  lemma ChannelOfDigits(h: string, i: nat, j: nat)
    requires j == i + 1 && j < |h| && h[0] != '#' && IsHexDigit(h[i]) && IsHexDigit(h[j])
    ensures Channel(h, i) == Some(Byte(h[i], h[j]))
  {
    assert CutHex(h) == h;
    SubstringPair(h, i);
    ParseTwoDigits(Substring(h, i, i + 2));
  }

  /** A leading `#` does not change what a channel reads, as long as the
      rest does not itself start with `#`: `cutHex` keeps six characters
      and no channel looks further. */
  lemma ChannelIgnoresHash(h: string, i: nat)
    requires (|h| == 0 || h[0] != '#') && i <= 4
    ensures Channel("#" + h, i) == Channel(h, i)
  {
    var m := if |h| < 6 then |h| else 6;
    assert CutHex("#" + h) == h[..m] by {
      assert ("#" + h)[1..m + 1] == h[..m];
    }
    assert Substring(h[..m], i, i + 2) == Substring(h, i, i + 2);
  }

  lemma HashIsIgnored(h: string)
    requires |h| == 0 || h[0] != '#'
    ensures HexToR("#" + h) == HexToR(h) && HexToG("#" + h) == HexToG(h) && HexToB("#" + h) == HexToB(h)
  {
    ChannelIgnoresHash(h, 0);
    ChannelIgnoresHash(h, 2);
    ChannelIgnoresHash(h, 4);
  }

  /** For six hex digits, with or without a `#` in front, each helper reads
      its own pair of digits; each value is a byte. */
  lemma HexChannels(h: string)
    requires |h| == 6 && AllHex(h)
    ensures HexToR(h) == Some(Byte(h[0], h[1]))
    ensures HexToG(h) == Some(Byte(h[2], h[3]))
    ensures HexToB(h) == Some(Byte(h[4], h[5]))
    ensures HexToR("#" + h) == HexToR(h) && HexToG("#" + h) == HexToG(h) && HexToB("#" + h) == HexToB(h)
  {
    HexIsNotSpace(h[0]);
    ChannelOfDigits(h, 0, 1);
    ChannelOfDigits(h, 2, 3);
    ChannelOfDigits(h, 4, 5);
    HashIsIgnored(h);
  }

  // ---------------------------------------------------------------------
  // The inverse: writing a colour as "#rrggbb"

  function HexChar(d: nat): (c: char)
    requires d < 16
    ensures IsHexDigit(c) && DigitValue(c) == d
  {
    if d < 10 then ('0' as int + d) as char else ('a' as int + d - 10) as char
  }

  /** A byte as two lower-case hex digits. */
  function HexByte(n: nat): (r: string)
    requires n < 256
    ensures |r| == 2 && AllHex(r) && Byte(r[0], r[1]) == n
  {
    [HexChar(n / 16), HexChar(n % 16)]
  }

  function ColorString(r: nat, g: nat, b: nat): (s: string)
    requires r < 256 && g < 256 && b < 256
    ensures |s| == 7 && s[0] == '#' && AllHex(s[1..])
  {
    "#" + HexByte(r) + HexByte(g) + HexByte(b)
  }

  /** Reading back a colour written as `#rrggbb` gives its three channels. */
  lemma ColorRoundTrip(r: nat, g: nat, b: nat)
    requires r < 256 && g < 256 && b < 256
    ensures HexToR(ColorString(r, g, b)) == Some(r)
    ensures HexToG(ColorString(r, g, b)) == Some(g)
    ensures HexToB(ColorString(r, g, b)) == Some(b)
  {
    var s := ColorString(r, g, b);
    var h := HexByte(r) + HexByte(g) + HexByte(b);
    assert s == "#" + h;
    assert h[0] == HexByte(r)[0] && h[1] == HexByte(r)[1];
    assert h[2] == HexByte(g)[0] && h[3] == HexByte(g)[1];
    assert h[4] == HexByte(b)[0] && h[5] == HexByte(b)[1];
    HexChannels(h);
  }
}
