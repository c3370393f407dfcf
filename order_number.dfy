/**
  The human-readable order number: "ORD-", the creation time as yyyyMMddHHmmss,
  "-", and the first eight characters of a random UUID in upper case.
*/
module OrderNumbers {
  import opened Clock

  predicate IsDigit(c: char) { '0' <= c <= '9' }

  predicate IsLower(c: char) { 'a' <= c <= 'z' }

  function DigitChar(d: int): (c: char)
    requires 0 <= d < 10
    ensures IsDigit(c) && c as int - '0' as int == d
  {
    ('0' as int + d) as char
  }

  function Pow10(width: nat): (p: nat)
    ensures p >= 1
  {
    if width == 0 then 1 else 10 * Pow10(width - 1)
  }

  /** `n` in decimal, left-padded with zeros to `width` digits. */
  function Pad(n: nat, width: nat): (s: string)
    requires n < Pow10(width)
    ensures |s| == width
    ensures forall i :: 0 <= i < |s| ==> IsDigit(s[i])
  {
    if width == 0 then "" else Pad(n / 10, width - 1) + [DigitChar(n % 10)]
  }

  /** The number a string of decimal digits denotes. */
  function DigitsValue(s: string): (n: int)
  {
    if s == [] then 0 else 10 * DigitsValue(s[..|s| - 1]) + (s[|s| - 1] as int - '0' as int)
  }

  /** Reading back a padded number gives the number. */
  lemma {:induction false} PadRoundTrip(n: nat, width: nat)
    requires n < Pow10(width)
    ensures DigitsValue(Pad(n, width)) == n
  {
    if width > 0 {
      PadRoundTrip(n / 10, width - 1);
      var s := Pad(n, width);
      assert s[..|s| - 1] == Pad(n / 10, width - 1);
    }
  }

  /** `DateTimeFormatter.ofPattern("yyyyMMddHHmmss")`. */
  function FormatTimestamp(t: DateTime): (s: string)
    requires t.Valid()
    ensures |s| == 14
    ensures forall i :: 0 <= i < |s| ==> IsDigit(s[i])
  {
    Pad(t.year, 4) + Pad(t.month, 2) + Pad(t.day, 2) + Pad(t.hour, 2) + Pad(t.minute, 2) + Pad(t.second, 2)
  }

  /** Reads a 14-digit yyyyMMddHHmmss stamp back into its fields. */
  function ParseTimestamp(s: string): (t: DateTime)
    requires |s| == 14
  {
    DateTime(DigitsValue(s[0..4]), DigitsValue(s[4..6]), DigitsValue(s[6..8]),
             DigitsValue(s[8..10]), DigitsValue(s[10..12]), DigitsValue(s[12..14]))
  }

  lemma Within(x: string, post: string, i: nat, j: nat)
    requires i <= j <= |x|
    ensures (x + post)[i..j] == x[i..j]
  {
  }

  lemma Last(x: string, piece: string)
    ensures (x + piece)[|x|..|x| + |piece|] == piece
  {
  }

  /** The formatted stamp loses nothing: every field can be read back. */
  lemma TimestampRoundTrip(t: DateTime)
    requires t.Valid()
    ensures ParseTimestamp(FormatTimestamp(t)) == t
  {
    var y, mo, d := Pad(t.year, 4), Pad(t.month, 2), Pad(t.day, 2);
    var h, mi, se := Pad(t.hour, 2), Pad(t.minute, 2), Pad(t.second, 2);
    var a2 := y + mo;
    var a3 := a2 + d;
    var a4 := a3 + h;
    var a5 := a4 + mi;
    var s := FormatTimestamp(t);
    assert s == a5 + se;
    // seconds
    Last(a5, se);
    // minutes
    Within(a5, se, 10, 12); Last(a4, mi);
    // hours
    Within(a5, se, 8, 10); Within(a4, mi, 8, 10); Last(a3, h);
    // day
    Within(a5, se, 6, 8); Within(a4, mi, 6, 8); Within(a3, h, 6, 8); Last(a2, d);
    // month
    Within(a5, se, 4, 6); Within(a4, mi, 4, 6); Within(a3, h, 4, 6); Within(a2, d, 4, 6); Last(y, mo);
    // year
    Within(a5, se, 0, 4); Within(a4, mi, 0, 4); Within(a3, h, 0, 4); Within(a2, d, 0, 4); Within(y, mo, 0, 4);
    assert y[0..4] == y;
    PadRoundTrip(t.year, 4);
    PadRoundTrip(t.month, 2);
    PadRoundTrip(t.day, 2);
    PadRoundTrip(t.hour, 2);
    PadRoundTrip(t.minute, 2);
    PadRoundTrip(t.second, 2);
  }

  /** `String.toUpperCase` on one character; only ASCII letters occur in a UUID. */
  function UpperChar(c: char): char
  {
    if IsLower(c) then (c as int - 'a' as int + 'A' as int) as char else c
  }

  function ToUpperCase(s: string): (r: string)
    ensures |r| == |s|
    ensures forall i :: 0 <= i < |r| ==> !IsLower(r[i])
    ensures forall i :: 0 <= i < |r| ==> r[i] == s[i] || (IsLower(s[i]) && r[i] as int == s[i] as int - 32)
  {
    seq(|s|, i requires 0 <= i < |s| => UpperChar(s[i]))
  }

  /** `generateOrderNumber`, with the clock reading and the random UUID as inputs. */
  function GenerateOrderNumber(now: DateTime, uuid: string): (r: string)
    requires now.Valid()
    requires |uuid| >= 8
    ensures |r| == 27
    ensures r[..4] == "ORD-" && r[18] == '-'
    ensures forall i :: 4 <= i < 18 ==> IsDigit(r[i])
    ensures ParseTimestamp(r[4..18]) == now
    ensures r[19..] == ToUpperCase(uuid[..8])
  {
    var stamp := FormatTimestamp(now);
    TimestampRoundTrip(now);
    var r := "ORD-" + stamp + "-" + ToUpperCase(uuid[..8]);
    assert r[4..18] == stamp;
    r
  }
}
