/**
 * The colour helpers and the point projection of src/rendering/camera.js:
 * `#rrggbb` → {r, g, b} → `rgb(r,g,b)`, colour mixing and scaling, and the
 * pin-hole projection of a world point onto the screen.
 */
module Camera {
  import opened Options
  import opened Vectors

  // ---------------------------------------------------------------
  // Numbers that may be NaN
  // ---------------------------------------------------------------

  /** A JavaScript number as the colour code sees it: a finite value or NaN. */
  datatype Num = Num(v: real) | NaN

  function Plus(a: Num, b: Num): (c: Num)
    ensures c.NaN? <==> a.NaN? || b.NaN?
  {
    if a.Num? && b.Num? then Num(a.v + b.v) else NaN
  }

  function Minus(a: Num, b: Num): (c: Num)
    ensures c.NaN? <==> a.NaN? || b.NaN?
  {
    if a.Num? && b.Num? then Num(a.v - b.v) else NaN
  }

  /** Multiplying by a finite factor keeps NaN (NaN · 0 is NaN). */
  function Times(a: Num, t: real): (c: Num)
    ensures c.NaN? <==> a.NaN?
  {
    if a.Num? then Num(a.v * t) else NaN
  }

  // ---------------------------------------------------------------
  // parseInt(s, 16)
  // ---------------------------------------------------------------

  /** The white space and line terminators `parseInt` skips before the number. */
  predicate IsWhiteSpace(c: char) {
    || '\t' <= c <= '\r'
    || c == ' '
    || c == '\U{00A0}'
    || c == '\U{1680}'
    || '\U{2000}' <= c <= '\U{200A}'
    || c == '\U{2028}' || c == '\U{2029}' || c == '\U{202F}' || c == '\U{205F}'
    || c == '\U{3000}'
    || c == '\U{FEFF}'
  }

  predicate IsHexDigit(c: char) {
    '0' <= c <= '9' || 'a' <= c <= 'f' || 'A' <= c <= 'F'
  }

  function HexDigitValue(c: char): (d: nat)
    requires IsHexDigit(c)
    ensures d < 16
  {
    if '0' <= c <= '9' then (c - '0') as nat
    else if 'a' <= c <= 'f' then (c - 'a') as nat + 10
    else (c - 'A') as nat + 10
  }

  /** The input with its leading white space removed. */
  function TrimStart(s: string): (t: string)
    ensures |t| <= |s| && t == s[|s| - |t|..]
    ensures forall i :: 0 <= i < |s| - |t| ==> IsWhiteSpace(s[i])
    ensures |t| > 0 ==> !IsWhiteSpace(t[0])
  {
    if |s| > 0 && IsWhiteSpace(s[0]) then TrimStart(s[1..]) else s
  }

  /** The length of the longest prefix made of hexadecimal digits. */
  function HexPrefixLength(s: string): (k: nat)
    ensures k <= |s|
    ensures forall i :: 0 <= i < k ==> IsHexDigit(s[i])
    ensures k < |s| ==> !IsHexDigit(s[k])
  {
    if |s| > 0 && IsHexDigit(s[0]) then 1 + HexPrefixLength(s[1..]) else 0
  }

  /** The value of a string of hexadecimal digits, most significant first. */
  function HexValue(s: string): nat
    requires forall i :: 0 <= i < |s| ==> IsHexDigit(s[i])
  {
    if |s| == 0 then 0 else HexValue(s[..|s| - 1]) * 16 + HexDigitValue(s[|s| - 1])
  }

  /** Two hexadecimal digits make a byte. */
  lemma TwoDigitsByte(s: string)
    requires |s| == 2 && IsHexDigit(s[0]) && IsHexDigit(s[1])
    ensures HexValue(s) == HexDigitValue(s[0]) * 16 + HexDigitValue(s[1])
    ensures 0 <= HexValue(s) <= 255
  {
    assert s[..1][..0] == [];
    assert s[..1][0] == s[0];
    assert HexValue(s[..1]) == HexDigitValue(s[0]);
    assert s[..|s| - 1] == s[..1];
  }

  /** `s` with a leading "0x" or "0X" removed. */
  function StripHexPrefix(s: string): (t: string)
    ensures HasHexPrefix(s) ==> t == s[2..]
    ensures !HasHexPrefix(s) ==> t == s
  {
    if HasHexPrefix(s) then s[2..] else s
  }

  predicate HasHexPrefix(s: string) {
    |s| >= 2 && s[0] == '0' && (s[1] == 'x' || s[1] == 'X')
  }

  /** The text after an optional leading sign. */
  function Unsigned(t: string): string {
    if |t| > 0 && (t[0] == '-' || t[0] == '+') then t[1..] else t
  }

  /**
   * `parseInt(s, 16)`: skip leading white space, take an optional sign and
   * an optional 0x prefix, then the longest run of hexadecimal digits; NaN
   * when that run is empty.
   */
  function ParseHex(s: string): Num {
    var t := TrimStart(s);
    var negative := |t| > 0 && t[0] == '-';
    var digits := StripHexPrefix(Unsigned(t));
    var k := HexPrefixLength(digits);
    if k == 0 then NaN
    else
      var value := HexValue(digits[..k]);
      Num(if negative then -(value as real) else value as real)
  }

  /** Two hexadecimal digits parse to their byte value. */
  lemma ParseTwoDigits(s: string)
    requires |s| == 2 && IsHexDigit(s[0]) && IsHexDigit(s[1])
    ensures ParseHex(s) == Num(HexValue(s) as real)
    ensures 0 <= HexValue(s) <= 255
  {
    TwoDigitsByte(s);
    HexDigitIsPlain(s[0]);
    HexDigitIsPlain(s[1]);
    assert TrimStart(s) == s;
    assert Unsigned(s) == s;
    assert StripHexPrefix(s) == s;
    assert HexPrefixLength(s) == 2 by {
      assert s[1..][1..] == [];
      assert HexPrefixLength(s[1..]) == 1;
    }
    assert s[..2] == s;
  }

  /** A hexadecimal digit is not white space, a sign, a `#`, an `x` or a comma. */
  lemma HexDigitIsPlain(c: char)
    requires IsHexDigit(c)
    ensures !IsWhiteSpace(c) && c != '-' && c != '+' && c != '#' && c != 'x' && c != 'X' && c != ','
  {
  }

  /** A piece that does not start with a hexadecimal digit, white space, a sign or "0x" parses to NaN. */
  lemma ParseNoDigits(s: string)
    requires |s| > 0 && !IsHexDigit(s[0]) && !IsWhiteSpace(s[0]) && s[0] != '-' && s[0] != '+'
    ensures ParseHex(s) == NaN
  {
  }

  // ---------------------------------------------------------------
  // rgbToObj
  // ---------------------------------------------------------------

  /** The index of the first occurrence of c, if any. */
  function IndexOf(s: string, c: char): (r: Option<nat>)
    ensures r.Some? ==> r.value < |s| && s[r.value] == c && c !in s[..r.value]
    ensures r.None? <==> c !in s
  {
    if |s| == 0 then None
    else if s[0] == c then Some(0)
    else
      match IndexOf(s[1..], c)
      case None => None
      case Some(i) => assert s[..i + 1] == [s[0]] + s[1..][..i]; Some(i + 1)
  }

  /** `s.replace(c, "")` with a string pattern: only the first occurrence is removed. */
  function RemoveFirst(s: string, c: char): (t: string)
    ensures c !in s ==> t == s
    ensures c in s ==> |t| == |s| - 1
  {
    match IndexOf(s, c)
    case None => s
    case Some(i) => s[..i] + s[i + 1..]
  }

  /** `s.slice(a, b)` for 0 ≤ a ≤ b: the bounds are cut down to the length. */
  function Slice(s: string, a: nat, b: nat): (t: string)
    requires a <= b
    ensures |t| <= b - a
    ensures b <= |s| ==> t == s[a..b]
  {
    var hi := if b <= |s| then b else |s|;
    var lo := if a <= hi then a else hi;
    s[lo..hi]
  }

  /** The colour object `{ r, g, b }`. */
  datatype Rgb = Rgb(r: Num, g: Num, b: Num)

  /** `rgbToObj(hex)` */
  function RgbToObj(hex: string): Rgb {
    var h := RemoveFirst(hex, '#');
    Rgb(ParseHex(Slice(h, 0, 2)), ParseHex(Slice(h, 2, 4)), ParseHex(Slice(h, 4, 6)))
  }

  /** Six hexadecimal digits. */
  predicate IsHexTriplet(s: string) {
    |s| == 6 && forall i :: 0 <= i < 6 ==> IsHexDigit(s[i])
  }

  /** Byte k (0 red, 1 green, 2 blue) of a six-digit colour: digits 2k and 2k+1. */
  function ByteAt(s: string, k: nat): (n: nat)
    requires IsHexTriplet(s) && k < 3
    ensures n <= 255
  {
    HexDigitValue(s[2 * k]) * 16 + HexDigitValue(s[2 * k + 1])
  }

  /** The three bytes a six-digit colour stands for. */
  function TripletBytes(s: string): (c: Rgb)
    requires IsHexTriplet(s)
    ensures c.r.Num? && 0.0 <= c.r.v <= 255.0
    ensures c.g.Num? && 0.0 <= c.g.v <= 255.0
    ensures c.b.Num? && 0.0 <= c.b.v <= 255.0
  {
    Rgb(Num(ByteAt(s, 0) as real), Num(ByteAt(s, 1) as real), Num(ByteAt(s, 2) as real))
  }

  /** The slice of digits 2k and 2k+1 parses to byte k. */
  lemma ParseByteAt(s: string, k: nat)
    requires IsHexTriplet(s) && k < 3
    ensures ParseHex(s[2 * k..2 * k + 2]) == Num(ByteAt(s, k) as real)
  {
    var piece := s[2 * k..2 * k + 2];
    assert piece[0] == s[2 * k] && piece[1] == s[2 * k + 1];
    ParseTwoDigits(piece);
    TwoDigitsByte(piece);
  }

  /** `rgbToObj` reads `rrggbb` and `#rrggbb` as the three bytes, each in 0..255. */
  lemma RgbToObjTriplet(s: string)
    requires IsHexTriplet(s)
    ensures RgbToObj(s) == TripletBytes(s)
    ensures RgbToObj("#" + s) == TripletBytes(s)
  {
    forall i | 0 <= i < 6 {
      HexDigitIsPlain(s[i]);
    }
    assert '#' !in s;
    assert IndexOf("#" + s, '#') == Some(0);
    assert RemoveFirst("#" + s, '#') == s;
    ParseByteAt(s, 0);
    ParseByteAt(s, 1);
    ParseByteAt(s, 2);
  }

  /** Only the first `#` is removed: `##rrggbb` leaves a `#` in the red slice, which is NaN. */
  lemma SecondHashKept(s: string)
    requires IsHexTriplet(s)
    ensures RgbToObj("##" + s).r == NaN
  {
    assert IndexOf("##" + s, '#') == Some(0);
    var h := RemoveFirst("##" + s, '#');
    assert h == "#" + s;
    assert Slice(h, 0, 2)[0] == '#';
    ParseNoDigits(Slice(h, 0, 2));
  }

  // ---------------------------------------------------------------
  // Hexadecimal encoding, the inverse of rgbToObj
  // ---------------------------------------------------------------

  function HexChar(d: nat): (c: char)
    requires d < 16
    ensures IsHexDigit(c) && HexDigitValue(c) == d
  {
    if d < 10 then '0' + d as char else 'a' + (d - 10) as char
  }

  /** A byte as two lower-case hexadecimal digits. */
  function HexByte(n: nat): (s: string)
    requires n <= 255
    ensures |s| == 2 && IsHexDigit(s[0]) && IsHexDigit(s[1])
    ensures HexValue(s) == n
  {
    var s := [HexChar(n / 16), HexChar(n % 16)];
    TwoDigitsByte(s);
    s
  }

  /** `#rrggbb` for three bytes. */
  function HexColour(r: nat, g: nat, b: nat): (s: string)
    requires r <= 255 && g <= 255 && b <= 255
    ensures |s| == 7 && s[0] == '#' && IsHexTriplet(s[1..])
  {
    "#" + HexByte(r) + HexByte(g) + HexByte(b)
  }

  /** Encoding three bytes and reading them back gives the same bytes. */
  lemma HexColourRoundTrip(r: nat, g: nat, b: nat)
    requires r <= 255 && g <= 255 && b <= 255
    ensures RgbToObj(HexColour(r, g, b)) == Rgb(Num(r as real), Num(g as real), Num(b as real))
  {
    var s := HexColour(r, g, b)[1..];
    assert HexColour(r, g, b) == "#" + s;
    assert s == HexByte(r) + HexByte(g) + HexByte(b);
    TwoDigitsByte(HexByte(r));
    TwoDigitsByte(HexByte(g));
    TwoDigitsByte(HexByte(b));
    assert ByteAt(s, 0) == r && ByteAt(s, 1) == g && ByteAt(s, 2) == b;
    RgbToObjTriplet(s);
  }

  // ---------------------------------------------------------------
  // objToRgb
  // ---------------------------------------------------------------

  /** `Math.round`: the nearest integer, halves rounded up. */
  function Round(x: real): (i: int)
    ensures i as real - 0.5 <= x < i as real + 0.5
  {
    (x + 0.5).Floor
  }

  /** An integer rounds to itself. */
  lemma RoundInteger(i: int)
    ensures Round(i as real) == i
  {
  }

  /** `clamp(Math.round(x), 0, 255)` for a finite x. */
  function ChannelByte(x: real): (b: int)
    ensures 0 <= b <= 255
    ensures 0.0 <= x <= 255.0 ==> b == Round(x)
    ensures x <= 0.0 ==> b == 0
    ensures x >= 255.0 ==> b == 255
  {
    var i := Round(x);
    if i > 255 then 255 else if i < 0 then 0 else i
  }

  /** A byte value is rendered as itself. */
  lemma ChannelByteOfByte(n: nat)
    requires n <= 255
    ensures ChannelByte(n as real) == n
  {
    RoundInteger(n);
  }

  function DigitChar(d: nat): (c: char)
    requires d < 10
    ensures '0' <= c <= '9'
  {
    '0' + d as char
  }

  /** A non-negative integer in decimal, as a template string prints it. */
  function DecimalString(n: nat): (s: string)
    ensures |s| > 0
    ensures forall i :: 0 <= i < |s| ==> '0' <= s[i] <= '9'
  {
    if n < 10 then [DigitChar(n)] else DecimalString(n / 10) + [DigitChar(n % 10)]
  }

  /** The value of a string of decimal digits. */
  function DecimalValue(s: string): nat
    requires forall i :: 0 <= i < |s| ==> '0' <= s[i] <= '9'
  {
    if |s| == 0 then 0 else DecimalValue(s[..|s| - 1]) * 10 + (s[|s| - 1] - '0') as nat
  }

  /** Decimal printing loses nothing. */
  lemma {:induction false} DecimalRoundTrip(n: nat)
    ensures DecimalValue(DecimalString(n)) == n
  {
    if n >= 10 {
      DecimalRoundTrip(n / 10);
      var s := DecimalString(n);
      assert s[..|s| - 1] == DecimalString(n / 10);
    }
  }

  /** One rendered component: the clamped rounded value, or `NaN`. */
  function ChannelText(n: Num): string {
    match n
    case NaN => "NaN"
    case Num(v) => DecimalString(ChannelByte(v))
  }

  /** `objToRgb(o)` */
  function ObjToRgb(c: Rgb): string {
    "rgb(" + Fields(ChannelText(c.r), ChannelText(c.g), ChannelText(c.b)) + ")"
  }

  /** Three fields separated by commas. */
  function Fields(a: string, b: string, c: string): string {
    a + ("," + (b + ("," + c)))
  }

  /** `rgb(r,g,b)` for three bytes. */
  function RgbText(r: nat, g: nat, b: nat): string {
    "rgb(" + Fields(DecimalString(r), DecimalString(g), DecimalString(b)) + ")"
  }

  /** Every channel is finite. */
  predicate IsFinite(c: Rgb) {
    c.r.Num? && c.g.Num? && c.b.Num?
  }

  /** A finite colour is rendered with each component rounded and clamped into 0..255. */
  lemma ObjToRgbClamped(c: Rgb)
    requires IsFinite(c)
    ensures var r, g, b := ChannelByte(c.r.v), ChannelByte(c.g.v), ChannelByte(c.b.v);
            && 0 <= r <= 255 && 0 <= g <= 255 && 0 <= b <= 255
            && ObjToRgb(c) == RgbText(r, g, b)
  {
  }

  /** Round trip: the parsed bytes of `#rrggbb` are rendered exactly. */
  lemma ParsedColourRendered(s: string)
    requires IsHexTriplet(s)
    ensures ObjToRgb(RgbToObj("#" + s))
         == RgbText(ByteAt(s, 0), ByteAt(s, 1), ByteAt(s, 2))
  {
    RgbToObjTriplet(s);
    var r, g, b := ByteAt(s, 0), ByteAt(s, 1), ByteAt(s, 2);
    var c := TripletBytes(s);
    assert c == Rgb(Num(r as real), Num(g as real), Num(b as real));
    ByteText(r);
    ByteText(g);
    ByteText(b);
  }

  /** A byte value is printed as its decimal digits. */
  lemma ByteText(n: nat)
    requires n <= 255
    ensures ChannelText(Num(n as real)) == DecimalString(n)
  {
    ChannelByteOfByte(n);
  }

  /** Encoding bytes as `#rrggbb` and rendering the parsed colour prints the same bytes. */
  lemma HexColourRendered(r: nat, g: nat, b: nat)
    requires r <= 255 && g <= 255 && b <= 255
    ensures ObjToRgb(RgbToObj(HexColour(r, g, b))) == RgbText(r, g, b)
  {
    HexColourRoundTrip(r, g, b);
    ByteText(r);
    ByteText(g);
    ByteText(b);
  }

  /** Reading `rgb(r,g,b)` back: the three decimal fields between the parentheses. */
  function ParseRgbText(s: string): Option<(nat, nat, nat)> {
    if |s| < 5 || s[..4] != "rgb(" || s[|s| - 1] != ')' then None
    else ParseFields(s[4..|s| - 1])
  }

  predicate IsDecimal(s: string) {
    |s| > 0 && forall i :: 0 <= i < |s| ==> '0' <= s[i] <= '9'
  }

  /** The first comma after a run of digits is the one that follows it. */
  lemma CommaAfterDigits(a: string, rest: string)
    requires IsDecimal(a)
    ensures var s := a + ("," + rest);
            && IndexOf(s, ',') == Some(|a|)
            && s[..|a|] == a && s[|a| + 1..] == rest
  {
    var s := a + ("," + rest);
    assert forall k :: 0 <= k < |a| ==> s[k] == a[k] && s[k] != ',';
    assert s[|a|] == ',';
    forall j | |a| < j <= |s|
      ensures ',' in s[..j]
    {
      assert s[..j][|a|] == ',';
    }
    assert ',' in s[..|a| + 1];
  }

  /** The three comma-separated decimal fields of the text between the parentheses. */
  function ParseFields(body: string): Option<(nat, nat, nat)> {
    match IndexOf(body, ',')
    case None => None
    case Some(i) => ParseLastTwo(body[..i], body[i + 1..])
  }

  function ParseLastTwo(first: string, rest: string): Option<(nat, nat, nat)> {
    match IndexOf(rest, ',')
    case None => None
    case Some(j) =>
      var r, g, b := first, rest[..j], rest[j + 1..];
      if IsDecimal(r) && IsDecimal(g) && IsDecimal(b)
      then Some((DecimalValue(r), DecimalValue(g), DecimalValue(b)))
      else None
  }

  lemma FieldsRoundTrip(r: string, g: string, b: string)
    requires IsDecimal(r) && IsDecimal(g) && IsDecimal(b)
    ensures ParseFields(Fields(r, g, b)) == Some((DecimalValue(r), DecimalValue(g), DecimalValue(b)))
  {
    CommaAfterDigits(r, g + ("," + b));
    CommaAfterDigits(g, b);
  }

  /** `rgb(` and `)` around a text can be taken off again. */
  lemma Parenthesised(f: string)
    ensures var s := "rgb(" + f + ")";
            && |s| >= 5 && s[..4] == "rgb(" && s[|s| - 1] == ')' && s[4..|s| - 1] == f
  {
  }

  /** What `objToRgb` prints for bytes reads back as the same bytes. */
  lemma RgbTextRoundTrip(r: nat, g: nat, b: nat)
    ensures ParseRgbText(RgbText(r, g, b)) == Some((r, g, b))
  {
    Parenthesised(Fields(DecimalString(r), DecimalString(g), DecimalString(b)));
    FieldsRoundTrip(DecimalString(r), DecimalString(g), DecimalString(b));
    DecimalRoundTrip(r);
    DecimalRoundTrip(g);
    DecimalRoundTrip(b);
  }

  // ---------------------------------------------------------------
  // mixRgb and mulRgb
  // ---------------------------------------------------------------

  /** `a + (b − a)·t` on possibly-NaN channels. */
  function MixChannel(a: Num, b: Num, t: real): (c: Num)
    ensures c.NaN? <==> a.NaN? || b.NaN?
    ensures a.Num? && b.Num? ==> c.v == Lerp(a.v, b.v, t)
  {
    Plus(a, Times(Minus(b, a), t))
  }

  /** `mixRgb(aHex, bHex, t)` */
  function MixRgb(aHex: string, bHex: string, t: real): string {
    var a := RgbToObj(aHex);
    var b := RgbToObj(bHex);
    ObjToRgb(Rgb(MixChannel(a.r, b.r, t), MixChannel(a.g, b.g, t), MixChannel(a.b, b.b, t)))
  }

  /** With two well-formed colours, t = 0 renders the first and t = 1 the second. */
  lemma MixRgbEnds(aHex: string, bHex: string)
    requires IsFinite(RgbToObj(aHex)) && IsFinite(RgbToObj(bHex))
    ensures MixRgb(aHex, bHex, 0.0) == ObjToRgb(RgbToObj(aHex))
    ensures MixRgb(aHex, bHex, 1.0) == ObjToRgb(RgbToObj(bHex))
  {
    var a, b := RgbToObj(aHex), RgbToObj(bHex);
    assert Rgb(MixChannel(a.r, b.r, 0.0), MixChannel(a.g, b.g, 0.0), MixChannel(a.b, b.b, 0.0)) == a;
    assert Rgb(MixChannel(a.r, b.r, 1.0), MixChannel(a.g, b.g, 1.0), MixChannel(a.b, b.b, 1.0)) == b;
  }

  /** A channel either colour fails to parse stays NaN in the mix, whatever t is. */
  lemma MixRgbMalformed(aHex: string, bHex: string, t: real)
    requires RgbToObj(aHex).r.NaN? || RgbToObj(bHex).r.NaN?
    ensures MixRgb(aHex, bHex, t)[..7] == "rgb(NaN"
  {
    var a, b := RgbToObj(aHex), RgbToObj(bHex);
    NaNRedRendered(Rgb(MixChannel(a.r, b.r, t), MixChannel(a.g, b.g, t), MixChannel(a.b, b.b, t)));
  }

  /** A colour whose red channel is NaN is rendered starting `rgb(NaN`. */
  lemma NaNRedRendered(c: Rgb)
    requires c.r.NaN?
    ensures ObjToRgb(c)[..7] == "rgb(NaN"
  {
    var f := Fields(ChannelText(c.r), ChannelText(c.g), ChannelText(c.b));
    PrefixOfLonger("NaN", "," + (ChannelText(c.g) + ("," + ChannelText(c.b))), 3);
    assert f[..3] == "NaN";
    var head := "rgb(" + f;
    assert head[..7] == "rgb(NaN" by {
      forall i | 0 <= i < 7
        ensures head[i] == "rgb(NaN"[i]
      {
      }
    }
    PrefixOfLonger(head, ")", 7);
  }

  lemma PrefixOfLonger<T>(x: seq<T>, y: seq<T>, k: nat)
    requires k <= |x|
    ensures (x + y)[..k] == x[..k]
  {
  }

  /** `mulRgb(hex, m)` */
  function MulRgb(hex: string, m: real): string {
    var a := RgbToObj(hex);
    ObjToRgb(Rgb(Times(a.r, m), Times(a.g, m), Times(a.b, m)))
  }

  /** Multiplying by 1 renders the colour unchanged, NaN channels included. */
  lemma MulRgbByOne(hex: string)
    ensures MulRgb(hex, 1.0) == ObjToRgb(RgbToObj(hex))
  {
    var a := RgbToObj(hex);
    assert Rgb(Times(a.r, 1.0), Times(a.g, 1.0), Times(a.b, 1.0)) == a;
  }

  /** Multiplying a well-formed colour by 0 gives black. */
  lemma MulRgbByZero(hex: string)
    requires IsFinite(RgbToObj(hex))
    ensures MulRgb(hex, 0.0) == "rgb(0,0,0)"
  {
    var a := RgbToObj(hex);
    assert Rgb(Times(a.r, 0.0), Times(a.g, 0.0), Times(a.b, 0.0)) == Rgb(Num(0.0), Num(0.0), Num(0.0));
    ByteText(0);
    BlackText();
  }

  lemma BlackText()
    ensures RgbText(0, 0, 0) == "rgb(0,0,0)"
  {
    var t := RgbText(0, 0, 0);
    assert DecimalString(0) == ['0'];
    assert |t| == 10;
    forall i | 0 <= i < 10
      ensures t[i] == "rgb(0,0,0)"[i]
    {
    }
  }

  // ---------------------------------------------------------------
  // projectPoint
  // ---------------------------------------------------------------

  /** The camera record: position, forward/right/up axes, screen centre and focal length. */
  datatype View = View(C: Vector, F: Vector, R: Vector, U: Vector, cx: real, cy: real, focal: real)

  /** The record `projectPoint` returns. */
  datatype Projection = Projection(sx: real, sy: real, zCam: real)

  /** The depth of P along the forward axis. */
  function Depth(P: Vector, cam: View): real {
    Dot(Difference(P, cam.C), cam.F)
  }

  /**
   * `projectPoint(P, cam, nearPlane)`: null at or in front of the near
   * plane, otherwise the perspective-divided screen point and the depth.
   */
  function ProjectPoint(P: Vector, cam: View, nearPlane: real): (r: Option<Projection>)
    requires nearPlane >= 0.0
    ensures r.None? <==> Depth(P, cam) <= nearPlane
    ensures r.Some? ==> r.value.zCam == Depth(P, cam) && r.value.zCam > 0.0
  {
    var v := Difference(P, cam.C);
    var xCam := Dot(v, cam.R);
    var yCam := Dot(v, cam.U);
    var zCam := Dot(v, cam.F);
    if zCam <= nearPlane then None
    else Some(Projection(xCam / zCam * cam.focal + cam.cx, yCam / zCam * cam.focal + cam.cy, zCam))
  }

  /** The camera's own position is never projected. */
  lemma CameraPositionHidden(cam: View, nearPlane: real)
    requires nearPlane >= 0.0
    ensures ProjectPoint(cam.C, cam, nearPlane) == None
  {
    assert Difference(cam.C, cam.C) == Zero;
  }

  /**
   * With orthonormal axes, a point straight ahead beyond the near plane
   * lands on the screen centre at its distance along the view.
   */
  lemma StraightAheadCentred(cam: View, s: real, nearPlane: real)
    requires nearPlane >= 0.0 && s > nearPlane
    requires LenSq(cam.F) == 1.0 && Dot(cam.F, cam.R) == 0.0 && Dot(cam.F, cam.U) == 0.0
    ensures ProjectPoint(Sum(cam.C, Scale(cam.F, s)), cam, nearPlane)
         == Some(Projection(cam.cx, cam.cy, s))
  {
    var P := Sum(cam.C, Scale(cam.F, s));
    var v := Difference(P, cam.C);
    assert v == Scale(cam.F, s);
    DotScale(cam.F, s, cam.R);
    DotScale(cam.F, s, cam.U);
    DotScale(cam.F, s, cam.F);
    assert Dot(v, cam.R) == 0.0 && Dot(v, cam.U) == 0.0 && Dot(v, cam.F) == s;
    assert 0.0 / s * cam.focal == 0.0;
  }
}
