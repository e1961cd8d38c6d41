/**
 * The certificate fingerprint shown to the user when a pinned certificate
 * changes: every byte of the SHA-256 digest as two upper-case hex digits,
 * the pairs separated by ':' ("AB:01:FF").  The digest itself comes from
 * the TLS library and is an input here.
 */
module Fingerprint {
  import opened Common

  type Byte = b: int | 0 <= b < 256

  const HexDigits: string := "0123456789ABCDEF"

  function HexDigit(n: nat): char
    requires n < 16
  {
    HexDigits[n]
  }

  /** `QByteArray::toHex().toUpper()` of one byte. */
  function HexByte(b: Byte): (s: string)
    ensures |s| == 2 && ':' !in s
  {
    [HexDigit(b / 16), HexDigit(b % 16)]
  }

  function HexPairs(digest: seq<Byte>): (ps: seq<string>)
    ensures |ps| == |digest|
    ensures forall i :: 0 <= i < |ps| ==> ps[i] == HexByte(digest[i])
  {
    if digest == [] then [] else [HexByte(digest[0])] + HexPairs(digest[1..])
  }

  /** The fingerprint text of a digest. */
  function Fingerprint(digest: seq<Byte>): string
  {
    Join(HexPairs(digest), ':')
  }

  /**
   * The loop of certificateIssuerInfo: append ':' unless nothing has been
   * written yet, then the two hex digits of the next byte.
   */
  method FormatFingerprint(digest: seq<Byte>) returns (fingerprint: string)
    ensures fingerprint == Fingerprint(digest)
  {
    fingerprint := "";
    var i := 0;
    while i < |digest|
      invariant 0 <= i <= |digest|
      invariant fingerprint == Fingerprint(digest[..i])
      invariant |fingerprint| > 0 <==> i > 0
    {
      if |fingerprint| > 0 {
        fingerprint := fingerprint + ":";
      }
      FingerprintAppend(digest[..i], digest[i]);
      assert digest[..i + 1] == digest[..i] + [digest[i]];
      fingerprint := fingerprint + HexByte(digest[i]);
      i := i + 1;
    }
    assert digest[..i] == digest;
  }

  lemma {:induction false} JoinAppend(ps: seq<string>, p: string, sep: char)
    requires |ps| >= 1
    ensures Join(ps + [p], sep) == Join(ps, sep) + [sep] + p
    decreases |ps|
  {
    if |ps| == 1 {
      assert (ps + [p])[1..] == [p];
    } else {
      assert (ps + [p])[1..] == ps[1..] + [p];
      JoinAppend(ps[1..], p, sep);
    }
  }

  /** Adding a byte to the digest adds ':' (unless it was empty) and its two digits. */
  lemma FingerprintAppend(digest: seq<Byte>, b: Byte)
    ensures Fingerprint(digest + [b]) == (if digest == [] then "" else Fingerprint(digest) + ":") + HexByte(b)
    ensures |Fingerprint(digest)| > 0 <==> digest != []
  {
    var ps := HexPairs(digest);
    assert HexPairs(digest + [b]) == ps + [HexByte(b)];
    if digest != [] {
      JoinAppend(ps, HexByte(b), ':');
      FingerprintLength(digest);
    } else {
      assert HexPairs([b]) == [HexByte(b)];
    }
  }

  /** Three characters per byte, less the separator the first byte does not get. */
  lemma {:induction false} FingerprintLength(digest: seq<Byte>)
    ensures |Fingerprint(digest)| == if digest == [] then 0 else 3 * |digest| - 1
    decreases |digest|
  {
    if |digest| > 1 {
      FingerprintLength(digest[1..]);
      assert HexPairs(digest)[1..] == HexPairs(digest[1..]);
    }
  }

  function HexValue(c: char): Option<nat>
  {
    if '0' <= c <= '9' then Some(c as int - '0' as int)
    else if 'A' <= c <= 'F' then Some(c as int - 'A' as int + 10)
    else None
  }

  function ParsePair(s: string): Option<Byte>
  {
    if |s| != 2 then None
    else match (HexValue(s[0]), HexValue(s[1]))
      case (Some(h), Some(l)) => if h < 16 && l < 16 then Some(h * 16 + l) else None
      case _ => None
  }

  function ParsePairs(ps: seq<string>): Option<seq<Byte>>
  {
    if ps == [] then Some([])
    else match (ParsePair(ps[0]), ParsePairs(ps[1..]))
      case (Some(b), Some(bs)) => Some([b] + bs)
      case _ => None
  }

  /** Reading a fingerprint back into the digest bytes. */
  function ParseFingerprint(s: string): Option<seq<Byte>>
  {
    if s == "" then Some([]) else ParsePairs(Split(s, ':'))
  }

  lemma HexByteParses(b: Byte)
    ensures ParsePair(HexByte(b)) == Some(b)
  {
    assert HexValue(HexDigit(b / 16)) == Some(b / 16);
    assert HexValue(HexDigit(b % 16)) == Some(b % 16);
  }

  lemma {:induction false} ParsePairsOfHex(digest: seq<Byte>)
    ensures ParsePairs(HexPairs(digest)) == Some(digest)
    decreases |digest|
  {
    if digest != [] {
      HexByteParses(digest[0]);
      ParsePairsOfHex(digest[1..]);
      assert HexPairs(digest)[1..] == HexPairs(digest[1..]);
      assert [digest[0]] + digest[1..] == digest;
    }
  }

  /** The fingerprint determines the digest: reading it back gives the bytes it was made from. */
  lemma FingerprintRoundTrip(digest: seq<Byte>)
    ensures ParseFingerprint(Fingerprint(digest)) == Some(digest)
  {
    FingerprintLength(digest);
    if digest != [] {
      SplitJoin(HexPairs(digest), ':');
      ParsePairsOfHex(digest);
    }
  }
}
