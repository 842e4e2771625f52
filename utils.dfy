/** The two formatting helpers of lib/utils.ts, on natural numbers. */
module Utils {
  import opened Wrappers

  // ---------------------------------------------------------------------------
  // Decimal rendering of natural numbers (what `${n}` prints for an integer)
  // ---------------------------------------------------------------------------

  predicate IsDigit(c: char) {
    '0' <= c <= '9'
  }

  predicate AllDigits(s: string) {
    forall i :: 0 <= i < |s| ==> IsDigit(s[i])
  }

  function DigitValue(c: char): (d: nat)
    requires IsDigit(c)
    ensures d < 10
  {
    (c as int) - ('0' as int)
  }

  function DigitChar(d: nat): (c: char)
    requires d < 10
    ensures IsDigit(c) && DigitValue(c) == d
  {
    (('0' as int) + d) as char
  }

  /** The decimal digits of `n`, most significant first, without leading zeros. */
  function Show(n: nat): (r: string)
    ensures |r| >= 1 && AllDigits(r)
    ensures (r[0] == '0') == (n == 0)
  {
    if n < 10 then [DigitChar(n)] else Show(n / 10) + [DigitChar(n % 10)]
  }

  /** The number a string of decimal digits denotes. */
  function Value(ds: string): nat
    requires AllDigits(ds)
  {
    if ds == [] then 0 else Value(ds[..|ds| - 1]) * 10 + DigitValue(ds[|ds| - 1])
  }

  /** The length of the longest prefix of `s` made of digits. */
  function DigitSpan(s: string): (k: nat)
    ensures k <= |s|
    ensures forall i :: 0 <= i < k ==> IsDigit(s[i])
    ensures k < |s| ==> !IsDigit(s[k])
  {
    if |s| > 0 && IsDigit(s[0]) then 1 + DigitSpan(s[1..]) else 0
  }

  /** Reads a decimal number off the front of `s`: the number and what follows it. */
  function ReadNat(s: string): Option<(nat, string)> {
    var k := DigitSpan(s);
    if k == 0 then None else Some((Value(s[..k]), s[k..]))
  }

  /** Reading back the decimal rendering of `n` gives `n`. */
  lemma {:induction false} ValueOfShow(n: nat)
    ensures Value(Show(n)) == n
  {
    if n >= 10 {
      var r := Show(n);
      assert r[..|r| - 1] == Show(n / 10);
      ValueOfShow(n / 10);
    }
  }

  /** The digit span of a digit string followed by a non-digit is the digit string. */
  lemma DigitSpanOfDigits(ds: string, rest: string)
    requires AllDigits(ds)
    requires rest == [] || !IsDigit(rest[0])
    ensures DigitSpan(ds + rest) == |ds|
  {
    var s := ds + rest;
    assert forall i :: 0 <= i < |ds| ==> s[i] == ds[i];
    assert |ds| < |s| ==> s[|ds|] == rest[0];
  }

  /** Rendering then reading is the identity, whatever non-digit text follows. */
  lemma ReadShow(n: nat, rest: string)
    requires rest == [] || !IsDigit(rest[0])
    ensures ReadNat(Show(n) + rest) == Some((n, rest))
  {
    var ds := Show(n);
    DigitSpanOfDigits(ds, rest);
    assert (ds + rest)[..|ds|] == ds;
    assert (ds + rest)[|ds|..] == rest;
    ValueOfShow(n);
  }

  // ---------------------------------------------------------------------------
  // formatTime
  // ---------------------------------------------------------------------------

  /**
   * formatTime: a missing or zero count is blank; under a minute it is
   * "<s>s"; under an hour "<m>m <s>s"; otherwise "<h>h <m>m", dropping the
   * leftover seconds. On whole seconds `Math.ceil` is the identity.
   */
  function FormatTime(seconds: Option<nat>): (r: string)
    ensures r == "" <==> seconds.None? || seconds.value == 0
  {
    if seconds.None? || seconds.value == 0 then ""
    else
      var s := seconds.value;
      if s < 60 then Show(s) + "s"
      else if s < 3600 then Show(s / 60) + "m " + Show(s % 60) + "s"
      else Show(s / 3600) + "h " + Show((s % 3600) / 60) + "m"
  }

  /** The readings of a formatted duration. */
  datatype Clock = Blank | Secs(s: nat) | MinSecs(m: nat, s: nat) | HoursMins(h: nat, m: nat) {
    /** The number of seconds the reading stands for. */
    function Seconds(): nat {
      match this
      case Blank => 0
      case Secs(s) => s
      case MinSecs(m, s) => m * 60 + s
      case HoursMins(h, m) => h * 3600 + m * 60
    }
  }

  /** Reads a duration in one of the three shapes formatTime produces. */
  function ParseTime(t: string): Option<Clock> {
    if t == "" then Some(Blank)
    else match ReadNat(t)
      case None => None
      case Some((a, r)) =>
        if r == "s" then Some(Secs(a))
        else if |r| >= 2 && r[..2] == "m " then
          match ReadNat(r[2..])
          case Some((b, "s")) => Some(MinSecs(a, b))
          case _ => None
        else if |r| >= 2 && r[..2] == "h " then
          match ReadNat(r[2..])
          case Some((b, "m")) => Some(HoursMins(a, b))
          case _ => None
        else None
  }

  /** Under a minute, formatTime reads back as the exact count of seconds. */
  lemma ReadBackSeconds(s: nat)
    requires 0 < s < 60
    ensures ParseTime(FormatTime(Some(s))) == Some(Secs(s))
  {
    ReadShow(s, "s");
  }

  /**
   * Under an hour, formatTime reads back as minutes and seconds that add up
   * to the exact count, each field below 60.
   */
  lemma ReadBackMinutes(s: nat)
    requires 60 <= s < 3600
    ensures ParseTime(FormatTime(Some(s))) == Some(MinSecs(s / 60, s % 60))
    ensures 1 <= s / 60 < 60 && s % 60 < 60 && MinSecs(s / 60, s % 60).Seconds() == s
  {
    var tail := Show(s % 60) + "s";
    ReadShow(s % 60, "s");
    ReadShow(s / 60, "m " + tail);
    assert FormatTime(Some(s)) == Show(s / 60) + ("m " + tail);
    assert ("m " + tail)[..2] == "m ";
    assert ("m " + tail)[2..] == tail;
  }

  /**
   * From an hour on, formatTime reads back as hours and minutes: the count
   * truncated to the whole minute, the minutes field below 60.
   */
  lemma ReadBackHours(s: nat)
    requires 3600 <= s
    ensures ParseTime(FormatTime(Some(s))) == Some(HoursMins(s / 3600, (s % 3600) / 60))
    ensures s / 3600 >= 1 && (s % 3600) / 60 < 60
    ensures HoursMins(s / 3600, (s % 3600) / 60).Seconds() == s - s % 60
  {
    var m := (s % 3600) / 60;
    var tail := Show(m) + "m";
    ReadShow(m, "m");
    ReadShow(s / 3600, "h " + tail);
    assert FormatTime(Some(s)) == Show(s / 3600) + ("h " + tail);
    assert ("h " + tail)[..2] == "h ";
    assert ("h " + tail)[2..] == tail;
    assert ("h " + tail)[..2] != "m ";
    HoursMinutesArithmetic(s);
  }

  /** Hours and minutes account for every second except the leftover ones. */
  lemma HoursMinutesArithmetic(s: nat)
    ensures (s / 3600) * 3600 + ((s % 3600) / 60) * 60 == s - s % 60
    ensures (s % 3600) / 60 < 60
  {
    var h, r := s / 3600, s % 3600;
    var m, t := r / 60, r % 60;
    assert s == h * 3600 + r;
    assert r == m * 60 + t;
    assert s == (h * 60 + m) * 60 + t;
    assert s % 60 == t;
  }

  // ---------------------------------------------------------------------------
  // formatBytes
  // ---------------------------------------------------------------------------

  function Pow1024(i: nat): (p: nat)
    ensures p >= 1
  {
    if i == 0 then 1 else 1024 * Pow1024(i - 1)
  }

  /** Each power of 1024 is at most the next-higher one's predecessor. */
  lemma {:induction false} Pow1024Grows(i: nat, j: nat)
    requires i < j
    ensures Pow1024(i + 1) <= Pow1024(j)
    decreases j
  {
    if i + 1 < j {
      Pow1024Grows(i, j - 1);
    }
  }

  /** The unit index formatBytes computes: the largest `i` with 1024^i <= b. */
  function UnitIndex(b: nat): (i: nat)
    requires b >= 1
    ensures Pow1024(i) <= b < Pow1024(i + 1)
  {
    if b < 1024 then 0
    else
      var j := UnitIndex(b / 1024);
      assert Pow1024(j + 1) == 1024 * Pow1024(j);
      assert Pow1024(j + 2) == 1024 * Pow1024(j + 1);
      1 + j
  }

  /** The unit index is the only index whose power band holds `b`. */
  lemma UnitIndexUnique(b: nat, i: nat)
    requires Pow1024(i) <= b < Pow1024(i + 1)
    ensures UnitIndex(b) == i
  {
    var k := UnitIndex(b);
    if k < i {
      Pow1024Grows(k, i);
    } else if i < k {
      Pow1024Grows(i, k);
    }
  }

  /** The four unit names of the table. */
  const Sizes: seq<string> := ["B", "KB", "MB", "GB"]

  /** The unit text for index `i`; past the table `sizes[i]` is undefined and prints as "undefined". */
  function UnitName(i: nat): string {
    if i < |Sizes| then Sizes[i] else "undefined"
  }

  /**
   * What formatBytes shows: `ZeroSize` is the text "0 B" shown for a
   * missing or zero count; `Scaled` is a mantissa and a unit, of which only
   * the whole part of the mantissa is kept here.
   */
  datatype SizeText = ZeroSize | Scaled(index: nat, whole: nat, unit: string)

  function FormatBytes(bytes: Option<nat>): (r: SizeText)
    ensures r.ZeroSize? <==> bytes.None? || bytes.value == 0
    ensures r.Scaled? ==> Pow1024(r.index) <= bytes.value < Pow1024(r.index + 1)
    ensures r.Scaled? ==> r.whole == bytes.value / Pow1024(r.index) && 1 <= r.whole < 1024
    ensures r.Scaled? ==> r.unit == UnitName(r.index)
  {
    if bytes.None? || bytes.value == 0 then ZeroSize
    else
      var b := bytes.value;
      var i := UnitIndex(b);
      WholeInRange(b, Pow1024(i));
      Scaled(i, b / Pow1024(i), UnitName(i))
  }

  /** A count within [p, 1024 p) divided by p is within [1, 1024). */
  lemma WholeInRange(b: nat, p: nat)
    requires 1 <= p <= b < 1024 * p
    ensures 1 <= b / p < 1024
  {
    var q := b / p;
    assert q * p <= b;
  }

  /**
   * The unit bands: below 1 KiB bytes, then KB, MB and GB by powers of
   * 1024, and from 1024^4 on an index past the four-entry table.
   */
  lemma FormatBytesUnits(b: nat)
    requires b >= 1
    ensures b < 1024 ==> FormatBytes(Some(b)).unit == "B"
    ensures 1024 <= b < 1024 * 1024 ==> FormatBytes(Some(b)).unit == "KB"
    ensures 1024 * 1024 <= b < 1024 * 1024 * 1024 ==> FormatBytes(Some(b)).unit == "MB"
    ensures 1024 * 1024 * 1024 <= b < 1024 * 1024 * 1024 * 1024 ==> FormatBytes(Some(b)).unit == "GB"
    ensures 1024 * 1024 * 1024 * 1024 <= b ==>
      FormatBytes(Some(b)).index >= 4 && FormatBytes(Some(b)).unit == "undefined"
  {
    assert Pow1024(1) == 1024;
    assert Pow1024(2) == 1024 * 1024;
    assert Pow1024(3) == 1024 * 1024 * 1024;
    assert Pow1024(4) == 1024 * 1024 * 1024 * 1024;
    if b < 1024 {
      UnitIndexUnique(b, 0);
    } else if b < 1024 * 1024 {
      UnitIndexUnique(b, 1);
    } else if b < 1024 * 1024 * 1024 {
      UnitIndexUnique(b, 2);
    } else if b < 1024 * 1024 * 1024 * 1024 {
      UnitIndexUnique(b, 3);
    } else {
      var i := UnitIndex(b);
      if i < 4 {
        Pow1024Grows(i, 4);
      }
    }
  }
}
