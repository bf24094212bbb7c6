/**
 * The colour handling of the scene canvas: `hexToRgba`, which turns a
 * `#rrggbb` string into a CSS `rgba(...)` colour through JavaScript's
 * `parseInt(_, 16)` and 32-bit shifts and masks, and the fallback palette
 * used when a scene's accent or background is empty.
 */
module SceneCanvas {

  import opened Wrappers
  import opened Text

  /** Characters `parseInt` skips before the digits: white space and line terminators. */
  predicate IsJsSpace(c: char) {
    var u := c as int;
    || 0x09 <= u <= 0x0D || u == 0x20 || u == 0xA0 || u == 0x1680
    || 0x2000 <= u <= 0x200A || u == 0x2028 || u == 0x2029 || u == 0x202F
    || u == 0x205F || u == 0x3000 || u == 0xFEFF
  }

  /** The string without its leading white space. */
  function TrimStart(s: string): (r: string)
    ensures |r| <= |s| && r == s[|s| - |r|..]
    ensures forall k :: 0 <= k < |s| - |r| ==> IsJsSpace(s[k])
    ensures r == [] || !IsJsSpace(r[0])
  {
    if |s| > 0 && IsJsSpace(s[0]) then
      var r := TrimStart(s[1..]);
      assert forall k :: 1 <= k < |s| - |r| ==> s[k] == s[1..][k - 1];
      r
    else s
  }

  predicate IsHexDigit(c: char) {
    ('0' <= c <= '9') || ('a' <= c <= 'f') || ('A' <= c <= 'F')
  }

  predicate AllHex(s: string) {
    forall k :: 0 <= k < |s| ==> IsHexDigit(s[k])
  }

  /** The value of one hexadecimal digit, either case. */
  function HexValue(c: char): (d: nat)
    requires IsHexDigit(c)
    ensures d < 16
  {
    if '0' <= c <= '9' then c as int - '0' as int
    else if 'a' <= c <= 'f' then c as int - 'a' as int + 10
    else c as int - 'A' as int + 10
  }

  /** The lower-case digit of value `d`. */
  function HexDigit(d: nat): (c: char)
    requires d < 16
    ensures IsHexDigit(c) && HexValue(c) == d
  {
    if d < 10 then ('0' as int + d) as char else ('a' as int + d - 10) as char
  }

  /** The value of a string of hexadecimal digits, read most significant first. */
  function HexDigitsValue(s: string): nat
    requires AllHex(s)
  {
    if |s| == 0 then 0 else HexDigitsValue(s[..|s| - 1]) * 16 + HexValue(s[|s| - 1])
  }

  /** Length of the longest prefix of `s` made of hexadecimal digits. */
  function HexRun(s: string): (n: nat)
    ensures n <= |s|
    ensures AllHex(s[..n])
    ensures n < |s| ==> !IsHexDigit(s[n])
  {
    if |s| > 0 && IsHexDigit(s[0]) then
      var n := 1 + HexRun(s[1..]);
      assert forall k :: 1 <= k < n ==> s[..n][k] == s[1..][..n - 1][k - 1];
      n
    else 0
  }

  /**
   * `parseInt(s, 16)`: skip leading white space, take an optional sign and
   * an optional `0x`/`0X`, then read the longest run of hexadecimal digits.
   * `None` stands for `NaN`, the result when that run is empty.
   */
  function ParseHex(s: string): (v: Option<int>)
    ensures TrimStart(s) == [] ==> v.None?
  {
    var t := TrimStart(s);
    ReadHexDigits(SkipHexPrefix(SkipSign(t)), |t| > 0 && t[0] == '-')
  }

  /**
   * The value of the longest leading run of hexadecimal digits, negated
   * when `negative`; `None` when the text does not start with a digit.
   */
  function ReadHexDigits(digits: string, negative: bool): (v: Option<int>)
    ensures v.None? <==> digits == [] || !IsHexDigit(digits[0])
    ensures v.Some? && negative ==> v.value <= 0
    ensures v.Some? && !negative ==> v.value >= 0
  {
    var n := HexRun(digits);
    var magnitude: int := HexDigitsValue(digits[..n]);
    if n == 0 then None
    else if negative then Some(-magnitude)
    else Some(magnitude)
  }

  /** The text after an optional leading sign. */
  function SkipSign(t: string): (u: string)
    ensures |t| > 0 && (t[0] == '-' || t[0] == '+') ==> u == t[1..]
    ensures !(|t| > 0 && (t[0] == '-' || t[0] == '+')) ==> u == t
  {
    if |t| > 0 && (t[0] == '-' || t[0] == '+') then t[1..] else t
  }

  /** The text after an optional `0x` or `0X`. */
  function SkipHexPrefix(u: string): (digits: string)
    ensures |u| >= 2 && u[0] == '0' && (u[1] == 'x' || u[1] == 'X') ==> digits == u[2..]
    ensures !(|u| >= 2 && u[0] == '0' && (u[1] == 'x' || u[1] == 'X')) ==> digits == u
  {
    if |u| >= 2 && u[0] == '0' && (u[1] == 'x' || u[1] == 'X') then u[2..] else u
  }

  const TwoTo32: int := 0x1_0000_0000
  const TwoTo31: int := 0x8000_0000

  /** ECMAScript ToInt32: the integer wrapped into the signed 32-bit range. */
  function ToInt32(v: int): (r: int)
    ensures -TwoTo31 <= r < TwoTo31
    ensures (v - r) % TwoTo32 == 0
  {
    var m := v % TwoTo32;
    if m >= TwoTo31 then m - TwoTo32 else m
  }

  /**
   * `(value >> shift) & 255`: the operand is converted with ToInt32 (`NaN`
   * becomes 0), shifted arithmetically, and its low eight bits kept.
   */
  function Channel(value: Option<int>, shift: nat): (c: nat)
    requires shift == 0 || shift == 8 || shift == 16
    ensures c < 256
  {
    var n := if value.None? then 0 else ToInt32(value.value);
    if shift == 16 then (n / 65536) % 256
    else if shift == 8 then (n / 256) % 256
    else n % 256
  }

  /**
   * The same eight bits read from the parsed value before any wrapping:
   * the channels `hexToRgba` computes, in the form the rest of the model
   * reasons about (`ChannelIgnoresWrap` shows the two agree).
   */
  function ChannelBits(value: Option<int>, shift: nat): (c: nat)
    requires shift == 0 || shift == 8 || shift == 16
    ensures c < 256
  {
    var n := if value.None? then 0 else value.value;
    if shift == 16 then (n / 65536) % 256
    else if shift == 8 then (n / 256) % 256
    else n % 256
  }

  /** Adding `k` multiples of `d` to an operand adds `k` to its quotient by `d` and keeps its remainder. */
  lemma QuotientShift(x: int, k: int, d: int)
    requires d == 256 || d == 65536
    ensures (x + k * d) / d == x / d + k
    ensures (x + k * d) % d == x % d
  {
    var q, m := x / d, x % d;
    assert x + k * d == (q + k) * d + m;
  }

  /** Moving an operand by a multiple of 2^32 leaves every channel's eight bits alone. */
  lemma ChannelPeriodic(r: int, j: int)
    ensures ((r + j * 0x1_0000_0000) / 65536) % 256 == (r / 65536) % 256
    ensures ((r + j * 0x1_0000_0000) / 256) % 256 == (r / 256) % 256
    ensures (r + j * 0x1_0000_0000) % 256 == r % 256
  {
    QuotientShift(r, j * 65536, 65536);
    QuotientShift(r / 65536, j * 256, 256);
    QuotientShift(r, j * 16777216, 256);
    QuotientShift(r / 256, j * 65536, 256);
  }

  /**
   * ToInt32 moves its operand by a multiple of 2^32, which is a multiple of
   * 2^shift * 256, so the eight bits a channel keeps are never affected.
   */
  lemma ChannelIgnoresWrap(value: Option<int>, shift: nat)
    requires shift == 0 || shift == 8 || shift == 16
    ensures Channel(value, shift) == ChannelBits(value, shift)
  {
    if value.Some? {
      var v := value.value;
      var j := if v % 0x1_0000_0000 < 0x8000_0000 then v / 0x1_0000_0000 else v / 0x1_0000_0000 + 1;
      assert v == ToInt32(v) + j * 0x1_0000_0000;
      ChannelPeriodic(ToInt32(v), j);
    }
  }

  /** A colour as three 8-bit channels. */
  datatype Rgb = Rgb(r: nat, g: nat, b: nat)

  predicate ValidRgb(c: Rgb) {
    c.r < 256 && c.g < 256 && c.b < 256
  }

  /** The channels `hexToRgba` reads from `hex`: the first `#` is removed and the rest parsed. */
  function Channels(hex: string): (c: Rgb)
    ensures ValidRgb(c)
  {
    var value := ParseHex(ReplaceFirst(hex, '#', ""));
    Rgb(ChannelBits(value, 16), ChannelBits(value, 8), ChannelBits(value, 0))
  }

  /** The CSS text `rgba(r, g, b, alpha)`. */
  function RgbaText(c: Rgb, alpha: real): (s: string)
    ensures |s| > 5 && s[..5] == "rgba(" && s[|s| - 1] == ')'
  {
    "rgba(" + (NatText(c.r) + ", " + (NatText(c.g) + ", " + (NatText(c.b) + ", " + (NumberText(alpha) + ")"))))
  }

  /** The part of `rgba(r, g, b, alpha)` before `alpha`. */
  function RgbaHead(c: Rgb): string {
    "rgba(" + NatText(c.r) + ", " + NatText(c.g) + ", " + NatText(c.b) + ", "
  }

  /**
   * `s` is `rgba(...)` text for `c` and `alpha`: the three channels in
   * decimal, each followed by a comma and a space, then `alpha` and `)`.
   */
  predicate RgbaShaped(s: string, c: Rgb, alpha: real) {
    var head, tail := RgbaHead(c), NumberText(alpha) + ")";
    && |s| == |head| + |tail|
    && s[..|head|] == head
    && s[|head|..] == tail
  }

  /** `hexToRgba(hex, alpha)`: the channels read from `hex`, then `alpha`, in CSS form. */
  function HexToRgba(hex: string, alpha: real): (s: string)
    ensures RgbaShaped(s, Channels(hex), alpha)
  {
    var c := Channels(hex);
    RgbaTextShaped(c, alpha);
    RgbaText(c, alpha)
  }

  /** `RgbaText` writes the three channels in decimal, then `alpha`, each in its place. */
  lemma RgbaTextShaped(c: Rgb, alpha: real)
    ensures RgbaShaped(RgbaText(c, alpha), c, alpha)
  {
    RgbaFrame(NatText(c.r), NatText(c.g), NatText(c.b), NumberText(alpha));
  }

  /** Regrouping the pieces of `rgba(...)` text into the head before the last field and the rest. */
  lemma RgbaFrame(a: string, b: string, c: string, d: string)
    ensures
      var s, head := "rgba(" + (a + ", " + (b + ", " + (c + ", " + (d + ")")))), "rgba(" + a + ", " + b + ", " + c + ", ";
      && |s| == |head| + |d + ")"|
      && s[..|head|] == head
      && s[|head|..] == d + ")"
  {
    var s, head := "rgba(" + (a + ", " + (b + ", " + (c + ", " + (d + ")")))), "rgba(" + a + ", " + b + ", " + c + ", ";
    assert s == head + (d + ")");
  }

  /** Text `parseInt` cannot read (`NaN`) becomes black: every shift and mask of `NaN` is 0. */
  lemma UnreadableIsBlack(hex: string, alpha: real)
    requires ParseHex(ReplaceFirst(hex, '#', "")).None?
    ensures Channels(hex) == Rgb(0, 0, 0)
    ensures HexToRgba(hex, alpha) == RgbaText(Rgb(0, 0, 0), alpha)
  {
  }

  /** In `a + ", " + x` with a digit string `a`, the first comma sits right after `a`. */
  lemma FirstComma(a: string, x: string)
    requires forall k :: 0 <= k < |a| ==> IsDigit(a[k])
    ensures ',' in a + ", " + x && IndexOf(a + ", " + x, ',') == |a|
  {
    var s := a + ", " + x;
    assert s[|a|] == ',';
    assert s[..|a|] == a;
  }

  /**
   * `a + ", " + x == b + ", " + y` with digit strings `a` and `b` forces
   * `a == b`: the first comma marks where the number ends.
   */
  lemma SplitAtComma(a: string, x: string, b: string, y: string)
    requires forall k :: 0 <= k < |a| ==> IsDigit(a[k])
    requires forall k :: 0 <= k < |b| ==> IsDigit(b[k])
    requires a + ", " + x == b + ", " + y
    ensures a == b && x == y
  {
    var s := a + ", " + x;
    FirstComma(a, x);
    FirstComma(b, y);
    assert a == s[..|a|] == b;
    assert x == s[|a| + 2..] == y;
  }

  /** The `rgba(...)` text determines the colour it was made from. */
  lemma RgbaTextInjective(c: Rgb, alpha: real, d: Rgb, beta: real)
    requires RgbaText(c, alpha) == RgbaText(d, beta)
    ensures c == d
  {
    var end1, end2 := NumberText(alpha) + ")", NumberText(beta) + ")";
    var blue1, blue2 := NatText(c.b) + ", " + end1, NatText(d.b) + ", " + end2;
    var green1, green2 := NatText(c.g) + ", " + blue1, NatText(d.g) + ", " + blue2;
    var red1, red2 := NatText(c.r) + ", " + green1, NatText(d.r) + ", " + green2;
    assert red1 == RgbaText(c, alpha)[5..];
    assert red2 == RgbaText(d, beta)[5..];
    SplitAtComma(NatText(c.r), green1, NatText(d.r), green2);
    SplitAtComma(NatText(c.g), blue1, NatText(d.g), blue2);
    SplitAtComma(NatText(c.b), end1, NatText(d.b), end2);
    NatTextInjective(c.r, d.r);
    NatTextInjective(c.g, d.g);
    NatTextInjective(c.b, d.b);
  }

  /** The value of two hexadecimal digits, high then low. */
  function PairValue(hi: char, lo: char): (v: nat)
    requires IsHexDigit(hi) && IsHexDigit(lo)
    ensures v < 256
  {
    HexValue(hi) * 16 + HexValue(lo)
  }

  /** The two lower-case digits of an 8-bit channel. */
  function Hex2(v: nat): (s: string)
    requires v < 256
    ensures |s| == 2 && AllHex(s) && PairValue(s[0], s[1]) == v
  {
    [HexDigit(v / 16), HexDigit(v % 16)]
  }

  /** The `#rrggbb` form of a colour, as the generator's palettes write it. */
  function FormatHex(c: Rgb): (s: string)
    requires ValidRgb(c)
    ensures |s| == 7 && s[0] == '#' && AllHex(s[1..])
  {
    "#" + Hex2(c.r) + Hex2(c.g) + Hex2(c.b)
  }

  /** Hexadecimal digits hold no `#`, so removing the first `#` only drops a leading one. */
  lemma HashFree(d: string)
    requires AllHex(d)
    ensures ReplaceFirst(d, '#', "") == d
    ensures ReplaceFirst("#" + d, '#', "") == d
  {
    assert '#' !in d by {
      forall k | 0 <= k < |d| ensures d[k] != '#' {
        assert IsHexDigit(d[k]);
      }
    }
    assert ("#" + d)[1..] == d;
  }

  /** A run of hexadecimal digits has no white space to skip. */
  lemma TrimHexDigits(d: string)
    requires |d| >= 1 && AllHex(d)
    ensures TrimStart(d) == d
  {
    assert IsHexDigit(d[0]);
  }

  /** A run of hexadecimal digits has no sign or `0x` prefix to skip. */
  lemma UnprefixedHexDigits(d: string)
    requires |d| >= 1 && AllHex(d)
    ensures SkipHexPrefix(SkipSign(d)) == d
  {
    assert IsHexDigit(d[0]);
    assert |d| >= 2 ==> IsHexDigit(d[1]);
  }

  /** `parseInt` reads a plain run of hexadecimal digits as their value. */
  lemma ParseHexDigits(d: string)
    requires |d| >= 1 && AllHex(d)
    ensures ParseHex(d) == Some(HexDigitsValue(d))
  {
    TrimHexDigits(d);
    UnprefixedHexDigits(d);
    assert HexRun(d) == |d|;
    assert d[..|d|] == d;
  }

  /** The digit run ends at the first character that is not a hexadecimal digit. */
  lemma {:induction false} HexRunStops(d: string, rest: string)
    requires AllHex(d)
    requires rest == [] || !IsHexDigit(rest[0])
    ensures HexRun(d + rest) == |d|
    decreases |d|
  {
    if |d| > 0 {
      assert (d + rest)[0] == d[0] && (d + rest)[1..] == d[1..] + rest;
      HexRunStops(d[1..], rest);
    } else {
      assert d + rest == rest;
    }
  }

  /** When the digit run of `s` is `d`, the value read is the value of `d`, negated when `negative`. */
  lemma ReadHexDigitsOfRun(s: string, d: string, negative: bool)
    requires |d| >= 1 && HexRun(s) == |d| && s[..|d|] == d
    ensures negative ==> ReadHexDigits(s, negative) == Some(-(HexDigitsValue(d) as int))
    ensures !negative ==> ReadHexDigits(s, negative) == Some(HexDigitsValue(d))
  {
    ReadHexDigitsRun(s, negative);
  }

  /** A non-empty digit run is read as its value, negated when `negative`. */
  lemma ReadHexDigitsRun(s: string, negative: bool)
    requires HexRun(s) > 0
    ensures
      var m: int := HexDigitsValue(s[..HexRun(s)]);
      ReadHexDigits(s, negative) == if negative then Some(-m) else Some(m)
  {
  }

  /** The digit run of `d + rest` is exactly `d`. */
  lemma RunOf(d: string, rest: string)
    requires AllHex(d)
    requires rest == [] || !IsHexDigit(rest[0])
    ensures HexRun(d + rest) == |d| && (d + rest)[..|d|] == d
  {
    HexRunStops(d, rest);
  }

  /** A string of digits is one whole run. */
  lemma WholeRun(d: string)
    requires AllHex(d)
    ensures HexRun(d) == |d| && d[..|d|] == d
  {
    HexRunStops(d, []);
    assert d + [] == d;
  }

  /** Text that does not start with white space is not trimmed. */
  lemma TrimStartStops(s: string)
    requires |s| > 0 && !IsJsSpace(s[0])
    ensures TrimStart(s) == s
  {
  }

  /** A run of hexadecimal digits has no `0x` prefix to skip. */
  lemma NoHexPrefix(d: string)
    requires |d| >= 1 && AllHex(d)
    ensures SkipHexPrefix(d) == d
  {
    assert |d| >= 2 ==> IsHexDigit(d[1]);
  }

  /** `parseInt` reads the longest run of hexadecimal digits and ignores what follows it. */
  lemma ParseHexStops(d: string, rest: string)
    requires |d| >= 1 && AllHex(d)
    requires rest == [] || !IsHexDigit(rest[0])
    requires !(d == "0" && |rest| > 0 && (rest[0] == 'x' || rest[0] == 'X'))
    ensures ParseHex(d + rest) == Some(HexDigitsValue(d))
  {
    var s := d + rest;
    assert s[0] == d[0] && IsHexDigit(d[0]);
    if |d| >= 2 {
      assert s[1] == d[1] && IsHexDigit(d[1]);
    } else if |rest| > 0 {
      assert s[1] == rest[0];
    }
    TrimStartStops(s);
    assert SkipSign(s) == s;
    assert SkipHexPrefix(s) == s;
    RunOf(d, rest);
    ReadHexDigitsOfRun(s, d, false);
  }

  /**
   * How `parseInt` takes apart `prefix + d` for a run of digits `d`: the
   * text is not trimmed, and dropping the sign and `0x` leaves `d`.
   */
  predicate StripsTo(s: string, d: string) {
    && |s| > 0
    && TrimStart(s) == s
    && SkipHexPrefix(SkipSign(s)) == d
  }

  /** A sign in front of the digits is dropped, and the digits carry no `0x`. */
  lemma SignedStrips(d: string)
    requires |d| >= 1 && AllHex(d)
    ensures StripsTo("-" + d, d) && ("-" + d)[0] == '-'
    ensures StripsTo("+" + d, d) && ("+" + d)[0] == '+'
  {
    var minus, plus := "-" + d, "+" + d;
    assert minus[0] == '-' && minus[1..] == d;
    assert plus[0] == '+' && plus[1..] == d;
    TrimStartStops(minus);
    TrimStartStops(plus);
    NoHexPrefix(d);
  }

  /** `0x` or `0X`, with or without a `-` in front, is dropped before the digits. */
  lemma PrefixedStrips(d: string)
    ensures StripsTo("0x" + d, d) && ("0x" + d)[0] == '0'
    ensures StripsTo("0X" + d, d) && ("0X" + d)[0] == '0'
    ensures StripsTo("-0x" + d, d) && ("-0x" + d)[0] == '-'
  {
    var lower, upper, negative := "0x" + d, "0X" + d, "-0x" + d;
    assert lower[0] == '0' && lower[1] == 'x' && lower[2..] == d;
    assert upper[0] == '0' && upper[1] == 'X' && upper[2..] == d;
    assert negative[0] == '-' && negative[1..] == lower;
    TrimStartStops(lower);
    TrimStartStops(upper);
    TrimStartStops(negative);
  }

  /** Once the text is stripped to a run of digits, `parseInt` reads that run, negated after a `-`. */
  lemma ParseHexReads(s: string, d: string)
    requires |d| >= 1 && AllHex(d)
    requires StripsTo(s, d)
    ensures
      var m: int := HexDigitsValue(d);
      ParseHex(s) == if s[0] == '-' then Some(-m) else Some(m)
  {
    WholeRun(d);
    ReadHexDigitsOfRun(d, d, s[0] == '-');
  }

  /** A leading sign is read before the digits: `-` negates the value, `+` keeps it. */
  lemma ParseHexSigned(d: string)
    requires |d| >= 1 && AllHex(d)
    ensures ParseHex("-" + d) == Some(-(HexDigitsValue(d) as int))
    ensures ParseHex("+" + d) == Some(HexDigitsValue(d))
  {
    SignedStrips(d);
    ParseHexReads("-" + d, d);
    ParseHexReads("+" + d, d);
  }

  /** A `0x` or `0X` prefix, after an optional `-`, is skipped before the digits. */
  lemma ParseHexPrefixed(d: string)
    requires |d| >= 1 && AllHex(d)
    ensures ParseHex("0x" + d) == Some(HexDigitsValue(d))
    ensures ParseHex("0X" + d) == Some(HexDigitsValue(d))
    ensures ParseHex("-0x" + d) == Some(-(HexDigitsValue(d) as int))
  {
    PrefixedStrips(d);
    ParseHexReads("0x" + d, d);
    ParseHexReads("0X" + d, d);
    ParseHexReads("-0x" + d, d);
  }

  /** White space before the text is skipped. */
  lemma ParseHexSkipsSpace(c: char, s: string)
    requires IsJsSpace(c)
    ensures ParseHex([c] + s) == ParseHex(s)
  {
    assert ([c] + s)[1..] == s;
    assert TrimStart([c] + s) == TrimStart(s);
  }

  /** Text starting with anything but white space, a sign or a hexadecimal digit reads as `NaN`. */
  lemma ParseHexUnreadable(c: char, rest: string)
    requires !IsJsSpace(c) && !IsHexDigit(c) && c != '-' && c != '+'
    ensures ParseHex([c] + rest) == None
  {
    var s := [c] + rest;
    assert s[0] == c;
    assert TrimStart(s) == s;
    assert SkipHexPrefix(SkipSign(s)) == s;
    assert HexRun(s) == 0;
  }

  /** Six digits read as three digit pairs, most significant first. */
  lemma SixDigitValue(d: string)
    requires |d| == 6 && AllHex(d)
    ensures HexDigitsValue(d) == PairValue(d[0], d[1]) * 65536 + PairValue(d[2], d[3]) * 256 + PairValue(d[4], d[5])
  {
    assert d[..6] == d;
    assert d[..6][..5] == d[..5] && d[..5][..4] == d[..4] && d[..4][..3] == d[..3];
    assert d[..3][..2] == d[..2] && d[..2][..1] == d[..1] && d[..1][..0] == [];
    assert HexDigitsValue(d[..1]) == HexValue(d[0]);
    assert HexDigitsValue(d[..2]) == HexDigitsValue(d[..1]) * 16 + HexValue(d[1]);
    assert HexDigitsValue(d[..3]) == HexDigitsValue(d[..2]) * 16 + HexValue(d[2]);
    assert HexDigitsValue(d[..4]) == HexDigitsValue(d[..3]) * 16 + HexValue(d[3]);
    assert HexDigitsValue(d[..5]) == HexDigitsValue(d[..4]) * 16 + HexValue(d[4]);
    assert HexDigitsValue(d) == HexDigitsValue(d[..5]) * 16 + HexValue(d[5]);
  }

  /** A 24-bit value splits into its three bytes, high to low. */
  lemma ChannelsOfValue(v: int, r: nat, g: nat, b: nat)
    requires r < 256 && g < 256 && b < 256
    requires v == r * 65536 + g * 256 + b
    ensures ChannelBits(Some(v), 16) == r && ChannelBits(Some(v), 8) == g && ChannelBits(Some(v), 0) == b
  {
    assert v / 65536 == r;
    assert v / 256 == r * 256 + g;
  }

  /**
   * Six hexadecimal digits, with or without a leading `#`, give the three
   * channels their digit pairs spell, which together make up the value
   * of all six digits.
   */
  lemma SixDigitChannels(d: string)
    requires |d| == 6 && AllHex(d)
    ensures Channels("#" + d) == Channels(d)
    ensures Channels(d) == Rgb(PairValue(d[0], d[1]), PairValue(d[2], d[3]), PairValue(d[4], d[5]))
    ensures Channels(d).r * 65536 + Channels(d).g * 256 + Channels(d).b == HexDigitsValue(d)
  {
    HashFree(d);
    ParseHexDigits(d);
    SixDigitValue(d);
    ChannelsOfValue(HexDigitsValue(d), PairValue(d[0], d[1]), PairValue(d[2], d[3]), PairValue(d[4], d[5]));
  }

  /** Decoding the `#rrggbb` form of a colour gives the colour back. */
  lemma DecodeFormatHex(c: Rgb)
    requires ValidRgb(c)
    ensures Channels(FormatHex(c)) == c
  {
    var d := Hex2(c.r) + Hex2(c.g) + Hex2(c.b);
    assert FormatHex(c) == "#" + d;
    assert d[0] == Hex2(c.r)[0] && d[1] == Hex2(c.r)[1];
    assert d[2] == Hex2(c.g)[0] && d[3] == Hex2(c.g)[1];
    assert d[4] == Hex2(c.b)[0] && d[5] == Hex2(c.b)[1];
    SixDigitChannels(d);
  }

  /** The palette the canvas draws with: an empty colour falls back to the default. */
  datatype CanvasPalette = CanvasPalette(accentColor: string, backgroundColor: string)

  const FallbackAccent := "#ff3f8e"
  const FallbackBackground := "#050508"

  function PaletteOf(accent: string, background: string): (p: CanvasPalette)
    ensures accent != "" ==> p.accentColor == accent
    ensures accent == "" ==> p.accentColor == FallbackAccent
    ensures background != "" ==> p.backgroundColor == background
    ensures background == "" ==> p.backgroundColor == FallbackBackground
  {
    CanvasPalette(
      if accent != "" then accent else FallbackAccent,
      if background != "" then background else FallbackBackground)
  }

  /** Falling back twice changes nothing: the palette's own colours are never empty. */
  lemma PaletteOfIdempotent(accent: string, background: string)
    ensures
      var p := PaletteOf(accent, background);
      PaletteOf(p.accentColor, p.backgroundColor) == p
  {
  }
}

/**
 * How the canvas colour handling meets the colours the generator writes
 * into scene palettes.
 */
module PaletteColours {

  import opened SceneCanvas
  import opened StoryGenerator

  /** The fallbacks are the generator's hot accent and even-scene background. */
  lemma FallbacksAreStoryColours()
    ensures PaletteOf("", "") == CanvasPalette(HighAccent, EvenBackground)
  {
  }

  /** The hot accent `#ff3f8e` decodes to (255, 63, 142). */
  lemma HighAccentChannels()
    ensures Channels(HighAccent) == Rgb(255, 63, 142)
  {
    assert FormatHex(Rgb(255, 63, 142)) == HighAccent;
    DecodeFormatHex(Rgb(255, 63, 142));
  }

  /** The cool accent `#6a63ff` decodes to (106, 99, 255). */
  lemma LowAccentChannels()
    ensures Channels(LowAccent) == Rgb(106, 99, 255)
  {
    assert FormatHex(Rgb(106, 99, 255)) == LowAccent;
    DecodeFormatHex(Rgb(106, 99, 255));
  }

  /** The even-scene background `#050508` decodes to (5, 5, 8). */
  lemma EvenBackgroundChannels()
    ensures Channels(EvenBackground) == Rgb(5, 5, 8)
  {
    assert FormatHex(Rgb(5, 5, 8)) == EvenBackground;
    DecodeFormatHex(Rgb(5, 5, 8));
  }

  /** The odd-scene background `#140714` decodes to (20, 7, 20). */
  lemma OddBackgroundChannels()
    ensures Channels(OddBackground) == Rgb(20, 7, 20)
  {
    assert FormatHex(Rgb(20, 7, 20)) == OddBackground;
    DecodeFormatHex(Rgb(20, 7, 20));
  }
}
