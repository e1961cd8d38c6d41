/**
 * JSON-RPC protocol versions as the client handles them with QVersionNumber:
 * a sequence of non-negative segments, parsed from the leading
 * "digits(.digits)*" part of a string, compared segment by segment with a
 * longer version greater than its own prefix.
 */
module Versions {
  import opened Common

  type Version = seq<nat>

  predicate IsDigit(c: char)
  {
    '0' <= c <= '9'
  }

  predicate AllDigits(s: string)
  {
    forall i :: 0 <= i < |s| ==> IsDigit(s[i])
  }

  function DigitValue(c: char): nat
    requires IsDigit(c)
  {
    c as int - '0' as int
  }

  function DigitChar(d: nat): (c: char)
    requires d < 10
    ensures IsDigit(c) && DigitValue(c) == d
  {
    (('0' as int) + d) as char
  }

  /** Value of a non-empty run of decimal digits. */
  function DecimalValue(s: string): nat
    requires AllDigits(s)
  {
    if s == [] then 0 else DecimalValue(s[..|s| - 1]) * 10 + DigitValue(s[|s| - 1])
  }

  /** Decimal text of a number without leading zeros (`QString::number`). */
  function Decimal(n: nat): (s: string)
    ensures |s| >= 1 && AllDigits(s)
  {
    if n < 10 then [DigitChar(n)] else Decimal(n / 10) + [DigitChar(n % 10)]
  }

  lemma {:induction false} DecimalValueOfDecimal(n: nat)
    ensures DecimalValue(Decimal(n)) == n
  {
    if n >= 10 {
      var s := Decimal(n);
      assert s[..|s| - 1] == Decimal(n / 10);
      DecimalValueOfDecimal(n / 10);
    }
  }

  /** Length of the run of digits at the start of `s`. */
  function DigitRun(s: string): (n: nat)
    ensures n <= |s| && AllDigits(s[..n])
    ensures n < |s| ==> !IsDigit(s[n])
  {
    if s == [] || !IsDigit(s[0]) then 0
    else
      var n := 1 + DigitRun(s[1..]);
      assert s[..n] == [s[0]] + s[1..][..n - 1];
      n
  }

  /**
   * `QVersionNumber::fromString`: one segment per digit run, continuing only
   * across a '.' that is followed by another digit run.
   */
  function ParseVersion(s: string): Version
    decreases |s|
  {
    var n := DigitRun(s);
    if n == 0 then []
    else [DecimalValue(s[..n])] + (if n < |s| && s[n] == '.' then ParseVersion(s[n + 1..]) else [])
  }

  /** `QVersionNumber::toString`: the segments in decimal, joined by '.'. */
  function FormatVersion(v: Version): string
  {
    if |v| == 0 then ""
    else if |v| == 1 then Decimal(v[0])
    else Decimal(v[0]) + "." + FormatVersion(v[1..])
  }

  /** `QVersionNumber::majorVersion`: the first segment, 0 for the null version. */
  function Major(v: Version): nat
  {
    if |v| > 0 then v[0] else 0
  }

  /** `QVersionNumber::compare(a, b) < 0`. */
  predicate Less(a: Version, b: Version)
  {
    if |a| == 0 then |b| > 0
    else if |b| == 0 then false
    else if a[0] != b[0] then a[0] < b[0]
    else Less(a[1..], b[1..])
  }

  /** `a >= b`. */
  predicate AtLeast(a: Version, b: Version)
  {
    !Less(a, b)
  }

  /** `a >= b` in QVersionNumber's order: `a` equals `b` or lies above it. */
  lemma AtLeastMeans(a: Version, b: Version)
    ensures AtLeast(a, b) <==> a == b || Less(b, a)
  {
    if a == b {
      LessIrreflexive(a);
    } else if Less(b, a) {
      if Less(a, b) {
        LessTransitive(a, b, a);
        LessIrreflexive(a);
      }
    } else {
      LessTotal(a, b);
    }
  }

  lemma {:induction false} LessIrreflexive(a: Version)
    ensures !Less(a, a)
  {
    if |a| > 0 { LessIrreflexive(a[1..]); }
  }

  lemma {:induction false} LessTransitive(a: Version, b: Version, c: Version)
    requires Less(a, b) && Less(b, c)
    ensures Less(a, c)
  {
    if |a| > 0 && |b| > 0 && |c| > 0 && a[0] == b[0] && b[0] == c[0] {
      LessTransitive(a[1..], b[1..], c[1..]);
    }
  }

  /** Versions are totally ordered: of two different versions one is less. */
  lemma {:induction false} LessTotal(a: Version, b: Version)
    requires a != b
    ensures Less(a, b) || Less(b, a)
  {
    if |a| > 0 && |b| > 0 && a[0] == b[0] {
      assert a == [a[0]] + a[1..] && b == [b[0]] + b[1..];
      LessTotal(a[1..], b[1..]);
    }
  }

  /** A digit run ended by a non-digit (or the end) is read as exactly that run. */
  lemma {:induction false} DigitRunOf(d: string, rest: string)
    requires AllDigits(d)
    requires rest == [] || !IsDigit(rest[0])
    ensures DigitRun(d + rest) == |d|
    decreases |d|
  {
    if |d| > 0 {
      assert (d + rest)[1..] == d[1..] + rest;
      DigitRunOf(d[1..], rest);
    }
  }

  /** Parsing what FormatVersion prints gives back the version. */
  lemma {:induction false} ParseFormat(v: Version)
    requires |v| >= 1
    ensures ParseVersion(FormatVersion(v)) == v
  {
    var d := Decimal(v[0]);
    DecimalValueOfDecimal(v[0]);
    if |v| == 1 {
      DigitRunOf(d, []);
      assert d + [] == d;
      assert d[..|d|] == d;
    } else {
      var tail := FormatVersion(v[1..]);
      var s := d + "." + tail;
      DigitRunOf(d, "." + tail);
      assert s == d + ("." + tail);
      assert s[..|d|] == d;
      assert s[|d|] == '.';
      assert s[|d| + 1..] == tail;
      ParseFormat(v[1..]);
      assert v == [v[0]] + v[1..];
    }
  }

  /** The protocol version the server announces, with "0." put before a text that has no '.'. */
  function ProtocolVersion(announced: string): (r: string)
    ensures '.' in r
    ensures '.' in announced ==> r == announced
    ensures |announced| <= |r| && r[|r| - |announced|..] == announced
  {
    if '.' in announced then announced else "0." + announced
  }

  /** Oldest protocol the client accepts: 5.0. */
  const MinimumVersion: Version := [5, 0]
  /** Newest major protocol version the client accepts: 6. */
  const MaximumMajor: nat := 6

  /** The two bounds of the handshake, checked in the source's order. */
  datatype VersionCheck = Supported | BelowMinimum | AboveMaximumMajor

  function CheckVersion(v: Version): (r: VersionCheck)
    ensures r == Supported <==> AtLeast(v, MinimumVersion) && Major(v) <= MaximumMajor
    ensures r == BelowMinimum <==> Less(v, MinimumVersion)
  {
    if Less(v, MinimumVersion) then BelowMinimum
    else if Major(v) > MaximumMajor then AboveMaximumMajor
    else Supported
  }

  /** An announced version without a '.' is read with major version 0 and so is always refused. */
  lemma UndottedVersionRefused(announced: string)
    requires '.' !in announced
    ensures Major(ParseVersion(ProtocolVersion(announced))) == 0
    ensures CheckVersion(ParseVersion(ProtocolVersion(announced))) == BelowMinimum
  {
    var s := ProtocolVersion(announced);
    assert s == "0." + announced;
    DigitRunOf("0", "." + announced);
    assert s == "0" + ("." + announced);
    assert s[..1] == "0";
    var v := ParseVersion(s);
    assert v[0] == DecimalValue("0") == 0;
  }

  /**
   * Every protocol of at least two segments with major version 5 or 6 passes
   * the handshake's bounds; the one-segment version 5 is below 5.0.
   */
  lemma SupportedRange(v: Version)
    requires |v| >= 1 && 5 <= v[0] <= 6
    ensures CheckVersion(v) == Supported <==> |v| >= 2 || v[0] == 6
  {
    if v[0] == 5 && |v| == 1 {
      assert v == [5];
      assert Less(v, MinimumVersion);
    } else if v[0] == 5 {
      assert !Less(v[1..], MinimumVersion[1..]);
    }
  }

  /** `QVersionNumber::fromString("3.1")`, the first protocol with per-namespace notifications. */
  const NamespacesVersion: Version := [3, 1]

  lemma NamespacesVersionParses()
    ensures ParseVersion("3.1") == NamespacesVersion
  {
    ParseFormat(NamespacesVersion);
    assert FormatVersion(NamespacesVersion) == "3.1" by {
      assert NamespacesVersion[1..] == [1];
    }
  }
}
