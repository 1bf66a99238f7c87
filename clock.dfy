/**
 * The elapsed-time label shown by every recorder component (`formatTimer`).
 * A non-negative number of seconds is split into hours, minutes and seconds
 * with integer division and remainder; each field is written in decimal and
 * left-padded with '0' to two characters. The switchable page joins the
 * fields as `hh:mm:ss`; the audio and video components write `hh: mm: ss `.
 */
module Clock {

  import opened Optional

  predicate IsDigit(c: char) {
    '0' <= c <= '9'
  }

  predicate AllDigits(s: string) {
    forall i :: 0 <= i < |s| ==> IsDigit(s[i])
  }

  function DigitValue(c: char): (d: nat)
    requires IsDigit(c)
    ensures d < 10
  {
    c as int - '0' as int
  }

  function DigitChar(d: nat): (c: char)
    requires d < 10
    ensures IsDigit(c) && DigitValue(c) == d
  {
    ('0' as int + d) as char
  }

  /** `String(n)` for a non-negative integer: its decimal digits, with no leading zero. */
  function DecimalString(n: nat): (r: string)
    ensures AllDigits(r)
    ensures n < 10 ==> |r| == 1
    ensures 10 <= n < 100 ==> |r| == 2
    ensures 1 <= |r| && (r[0] == '0' ==> n == 0)
  {
    if n < 10 then [DigitChar(n)] else DecimalString(n / 10) + [DigitChar(n % 10)]
  }

  /** The number a string of decimal digits denotes; leading zeros are allowed. */
  function ValueOf(s: string): nat
    requires AllDigits(s)
  {
    if s == [] then 0 else 10 * ValueOf(s[..|s| - 1]) + DigitValue(s[|s| - 1])
  }

  lemma {:induction false} ValueOfDecimalString(n: nat)
    ensures ValueOf(DecimalString(n)) == n
  {
    if n >= 10 {
      var r := DecimalString(n);
      assert r[..|r| - 1] == DecimalString(n / 10);
      ValueOfDecimalString(n / 10);
    }
  }

  lemma {:induction false} ValueOfZeros(z: string)
    requires forall i :: 0 <= i < |z| ==> z[i] == '0'
    ensures AllDigits(z) && ValueOf(z) == 0
  {
    if z != [] {
      ValueOfZeros(z[..|z| - 1]);
    }
  }

  /** Leading zeros do not change the value of a digit string. */
  lemma {:induction false} ValueOfLeadingZeros(z: string, s: string)
    requires forall i :: 0 <= i < |z| ==> z[i] == '0'
    requires AllDigits(s)
    ensures AllDigits(z + s) && ValueOf(z + s) == ValueOf(s)
  {
    if s == [] {
      assert z + s == z;
      ValueOfZeros(z);
    } else {
      assert (z + s)[..|z + s| - 1] == z + s[..|s| - 1];
      ValueOfLeadingZeros(z, s[..|s| - 1]);
    }
  }

  /** `s.padStart(width, fill)` with a one-character fill. */
  function PadStart(s: string, width: nat, fill: char): (r: string)
    ensures |r| == if |s| < width then width else |s|
    ensures r[|r| - |s|..] == s
    ensures forall i :: 0 <= i < |r| - |s| ==> r[i] == fill
  {
    if |s| < width then seq(width - |s|, _ => fill) + s else s
  }

  /**
   * One field of the label, `String(n).padStart(2, '0')`: at least two
   * digits, exactly two below 100, and denoting the number it was made from.
   */
  function Field(n: nat): (r: string)
    ensures 2 <= |r| && AllDigits(r) && ValueOf(r) == n
    ensures n < 100 ==> |r| == 2
  {
    var d := DecimalString(n);
    var r := PadStart(d, 2, '0');
    var z := r[..|r| - |d|];
    assert r == z + d;
    ValueOfDecimalString(n);
    ValueOfLeadingZeros(z, d);
    r
  }

  /** Hours, minutes and seconds of a label. */
  datatype Hms = Hms(hrs: nat, min: nat, sec: nat)

  function Seconds(t: Hms): nat {
    t.hrs * 3600 + t.min * 60 + t.sec
  }

  predicate InRange(t: Hms) {
    t.min < 60 && t.sec < 60
  }

  /** `Math.floor(s / 3600)`, `Math.floor((s % 3600) / 60)` and `s % 60`. */
  function Split(seconds: nat): (t: Hms)
    ensures InRange(t) && Seconds(t) == seconds
  {
    Hms(seconds / 3600, seconds % 3600 / 60, seconds % 60)
  }

  /** The split is the only in-range decomposition of its input. */
  lemma SplitUnique(t: Hms)
    requires InRange(t)
    ensures Split(Seconds(t)) == t
  {
    var s := Seconds(t);
    var rest := t.min * 60 + t.sec;
    assert rest < 3600;
    assert s == t.hrs * 3600 + rest;
    assert s / 3600 == t.hrs && s % 3600 == rest;
    assert rest / 60 == t.min && rest % 60 == t.sec;
  }

  /** The three fields joined by `sep` and followed by `tail`. */
  function Render(t: Hms, sep: string, tail: string): string {
    Field(t.hrs) + sep + Field(t.min) + sep + Field(t.sec) + tail
  }

  predicate EndsWith(r: string, suffix: string) {
    |suffix| <= |r| && r[|r| - |suffix|..] == suffix
  }

  /**
   * Reads a label written by `Render` back into its fields, from the right:
   * the tail, two digits of seconds, a separator, two digits of minutes and a
   * separator; what remains is the hours field, at least two digits.
   */
  function Parse(r: string, sep: string, tail: string): Option<Hms> {
    if !EndsWith(r, tail) then None else
    var a := r[..|r| - |tail|];
    if |a| < 2 || !AllDigits(a[|a| - 2..]) then None else
    var b := a[..|a| - 2];
    if !EndsWith(b, sep) then None else
    var c := b[..|b| - |sep|];
    if |c| < 2 || !AllDigits(c[|c| - 2..]) then None else
    var d := c[..|c| - 2];
    if !EndsWith(d, sep) then None else
    var hh := d[..|d| - |sep|];
    if |hh| < 2 || !AllDigits(hh) then None else
    Some(Hms(ValueOf(hh), ValueOf(c[|c| - 2..]), ValueOf(a[|a| - 2..])))
  }

  /** Parse reads back any three digit fields laid out as `Render` lays them out. */
  lemma ParseFields(h: string, m: string, s: string, sep: string, tail: string)
    requires 2 <= |h| && |m| == 2 && |s| == 2
    requires AllDigits(h) && AllDigits(m) && AllDigits(s)
    ensures Parse(h + sep + m + sep + s + tail, sep, tail) == Some(Hms(ValueOf(h), ValueOf(m), ValueOf(s)))
  {
  }

  lemma RenderParse(t: Hms, sep: string, tail: string)
    requires InRange(t)
    ensures Parse(Render(t, sep, tail), sep, tail) == Some(t)
  {
    ParseFields(Field(t.hrs), Field(t.min), Field(t.sec), sep, tail);
  }

  lemma HoursBelow100(seconds: nat)
    ensures seconds < 360000 ==> Split(seconds).hrs < 100
  {
  }

  /** Three two-digit fields joined by `:` form `dd:dd:dd`. */
  lemma CompactLayout(h: string, m: string, s: string)
    requires |h| == 2 && |m| == 2 && |s| == 2
    requires AllDigits(h) && AllDigits(m) && AllDigits(s)
    ensures var r := h + ":" + m + ":" + s;
      |r| == 8 && r[2] == ':' && r[5] == ':' && AllDigits(r[..2]) && AllDigits(r[3..5]) && AllDigits(r[6..])
  {
    var r := h + ":" + m + ":" + s;
    assert r[..2] == h && r[3..5] == m && r[6..] == s;
  }

  /** Three two-digit fields joined by `": "` and followed by a space form `dd: dd: dd `. */
  lemma SpacedLayout(h: string, m: string, s: string)
    requires |h| == 2 && |m| == 2 && |s| == 2
    requires AllDigits(h) && AllDigits(m) && AllDigits(s)
    ensures var r := h + ": " + m + ": " + s + " ";
      && |r| == 11 && r[2..4] == ": " && r[6..8] == ": " && r[10] == ' '
      && AllDigits(r[..2]) && AllDigits(r[4..6]) && AllDigits(r[8..10])
  {
    var r := h + ": " + m + ": " + s + " ";
    assert r[..2] == h && r[4..6] == m && r[8..10] == s;
  }

  /** Below 100 hours the compact layout is exactly `dd:dd:dd`. */
  lemma CompactShape(seconds: nat)
    ensures var r := Render(Split(seconds), ":", "");
      seconds < 360000 ==>
        |r| == 8 && r[2] == ':' && r[5] == ':' && AllDigits(r[..2]) && AllDigits(r[3..5]) && AllDigits(r[6..])
  {
    if seconds < 360000 {
      var t := Split(seconds);
      HoursBelow100(seconds);
      var h, m, s := Field(t.hrs), Field(t.min), Field(t.sec);
      var joined := h + ":" + m + ":" + s;
      assert joined + "" == joined;
      CompactLayout(h, m, s);
    }
  }

  /** Below 100 hours the spaced layout is exactly `dd: dd: dd `. */
  lemma SpacedShape(seconds: nat)
    ensures var r := Render(Split(seconds), ": ", " ");
      seconds < 360000 ==>
        && |r| == 11 && r[2..4] == ": " && r[6..8] == ": " && r[10] == ' '
        && AllDigits(r[..2]) && AllDigits(r[4..6]) && AllDigits(r[8..10])
  {
    if seconds < 360000 {
      var t := Split(seconds);
      HoursBelow100(seconds);
      SpacedLayout(Field(t.hrs), Field(t.min), Field(t.sec));
    }
  }

  /**
   * `formatTimer` of the switchable page (src/pages/MediaRocorder.js):
   * `hh:mm:ss`, at least eight characters, and below 100 hours exactly
   * `dd:dd:dd`.
   */
  function FormatTimer(seconds: nat): (r: string)
    ensures 8 <= |r|
    ensures seconds < 360000 ==>
      |r| == 8 && r[2] == ':' && r[5] == ':' && AllDigits(r[..2]) && AllDigits(r[3..5]) && AllDigits(r[6..])
  {
    CompactShape(seconds);
    Render(Split(seconds), ":", "")
  }

  /**
   * `formatTimer` of the audio and video components: `hh: mm: ss ` with a
   * trailing space, at least eleven characters, and below 100 hours exactly
   * `dd: dd: dd `.
   */
  function FormatTimerSpaced(seconds: nat): (r: string)
    ensures 11 <= |r|
    ensures seconds < 360000 ==>
      && |r| == 11 && r[2..4] == ": " && r[6..8] == ": " && r[10] == ' '
      && AllDigits(r[..2]) && AllDigits(r[4..6]) && AllDigits(r[8..10])
  {
    SpacedShape(seconds);
    Render(Split(seconds), ": ", " ")
  }

  /** The compact label reads back to the in-range split of its input, which sums back to it. */
  lemma {:induction false} FormatTimerRoundTrip(seconds: nat)
    ensures Parse(FormatTimer(seconds), ":", "") == Some(Split(seconds))
    ensures Seconds(Split(seconds)) == seconds && InRange(Split(seconds))
  {
    RenderParse(Split(seconds), ":", "");
  }

  /** The spaced label reads back to the in-range split of its input, which sums back to it. */
  lemma {:induction false} FormatTimerSpacedRoundTrip(seconds: nat)
    ensures Parse(FormatTimerSpaced(seconds), ": ", " ") == Some(Split(seconds))
    ensures Seconds(Split(seconds)) == seconds && InRange(Split(seconds))
  {
    RenderParse(Split(seconds), ": ", " ");
  }

  /** A one-digit number is shown with a single leading zero. */
  lemma FieldBelowTen(n: nat)
    requires n < 10
    ensures Field(n) == ['0', DigitChar(n)]
  {
    assert DecimalString(n) == [DigitChar(n)];
    assert seq(1, _ => '0') == ['0'];
  }

  /** The fields of three seconds, rendered in the spaced layout. */
  lemma RenderThreeSeconds()
    ensures Render(Hms(0, 0, 3), ": ", " ") == "00: 00: 03 "
  {
    FieldBelowTen(0);
    FieldBelowTen(3);
  }

  /** The label the audio component shows three seconds into a recording. */
  lemma ThreeSecondsLabel()
    ensures FormatTimerSpaced(3) == "00: 00: 03 "
  {
    var t := Split(3);
    assert t == Hms(0, 0, 3) by {
      SplitUnique(Hms(0, 0, 3));
    }
    RenderThreeSeconds();
    assert FormatTimerSpaced(3) == Render(t, ": ", " ");
  }
}
