/** 128-bit identifiers and their textual forms. */
module Uuids {
  import opened Basics

  /** Sixteen octets, most significant first. */
  type Uuid = b: seq<int> | |b| == 16 && forall i :: 0 <= i < |b| ==> 0 <= b[i] < 256
    witness [0, 0, 0, 0, 0, 0, 0, 0, 0, 0, 0, 0, 0, 0, 0, 0]

  const NIL: Uuid := [0, 0, 0, 0, 0, 0, 0, 0, 0, 0, 0, 0, 0, 0, 0, 0]

  function HexDigit(n: int): char
    requires 0 <= n < 16
  {
    "0123456789abcdef"[n]
  }

  /** A hexadecimal digit of either case. */
  function HexValue(c: char): Option<int>
  {
    if '0' <= c <= '9' then Some(c as int - '0' as int)
    else if 'a' <= c <= 'f' then Some(c as int - 'a' as int + 10)
    else if 'A' <= c <= 'F' then Some(c as int - 'A' as int + 10)
    else None
  }

  /** Lower-case hexadecimal without separators: the form every response and every plan uses. */
  function Format(u: Uuid): string
  {
    seq(32, i requires 0 <= i < 32 => HexDigit(if i % 2 == 0 then u[i / 2] / 16 else u[i / 2] % 16))
  }

  const PLAIN_OFFSETS: seq<nat> := [0, 2, 4, 6, 8, 10, 12, 14, 16, 18, 20, 22, 24, 26, 28, 30]
  const DASHED_OFFSETS: seq<nat> := [0, 2, 4, 6, 9, 11, 14, 16, 19, 21, 24, 26, 28, 30, 32, 34]

  function HexByte(s: string, at: nat): Option<int>
    requires at + 1 < |s|
  {
    match (HexValue(s[at]), HexValue(s[at + 1]))
    case (Some(high), Some(low)) => Some(high * 16 + low)
    case _ => None
  }

  predicate HexAt(s: string, offsets: seq<nat>)
    requires |offsets| == 16 && forall i :: 0 <= i < 16 ==> offsets[i] + 1 < |s|
  {
    forall i :: 0 <= i < 16 ==> HexByte(s, offsets[i]).Some?
  }

  function ReadBytes(s: string, offsets: seq<nat>): Option<Uuid>
    requires |offsets| == 16 && forall i :: 0 <= i < 16 ==> offsets[i] + 1 < |s|
  {
    if HexAt(s, offsets) then
      Some(seq(16, i requires 0 <= i < 16 && HexAt(s, offsets) => HexByte(s, offsets[i]).value))
    else None
  }

  /** The 32-digit form and the dashed 36-character form; nothing else. */
  function Parse(s: string): Option<Uuid>
  {
    if |s| == 32 then ReadBytes(s, PLAIN_OFFSETS)
    else if |s| == 36 && s[8] == '-' && s[13] == '-' && s[18] == '-' && s[23] == '-' then ReadBytes(s, DASHED_OFFSETS)
    else None
  }

  lemma FormatByte(u: Uuid, i: nat)
    requires i < 16
    ensures HexByte(Format(u), 2 * i) == Some(u[i])
  {
    var s := Format(u);
    assert s[2 * i] == HexDigit(u[i] / 16) && s[2 * i + 1] == HexDigit(u[i] % 16);
    DigitRoundTrip(u[i] / 16);
    DigitRoundTrip(u[i] % 16);
  }

  /** Printing and reading back is the identity. */
  lemma ParseFormat(u: Uuid)
    ensures Parse(Format(u)) == Some(u)
  {
    var s := Format(u);
    forall i | 0 <= i < 16 ensures PLAIN_OFFSETS[i] == 2 * i && HexByte(s, PLAIN_OFFSETS[i]) == Some(u[i]) {
      PlainOffset(i);
      FormatByte(u, i);
    }
    assert HexAt(s, PLAIN_OFFSETS);
    var read: Uuid := ReadBytes(s, PLAIN_OFFSETS).value;
    assert forall i :: 0 <= i < 16 ==> read[i] == u[i];
    assert read == u;
  }

  lemma PlainOffset(i: nat)
    requires i < 16
    ensures PLAIN_OFFSETS[i] == 2 * i
  {
  }

  lemma DigitRoundTrip(n: int)
    requires 0 <= n < 16
    ensures HexValue(HexDigit(n)) == Some(n)
  {
  }

  lemma FormatInjective(u: Uuid, v: Uuid)
    requires Format(u) == Format(v)
    ensures u == v
  {
    ParseFormat(u);
    ParseFormat(v);
  }

  /** The form with dashes after octets 4, 6, 8 and 10 (section 3 of RFC 4122). */
  function Dashed(u: Uuid): string
  {
    var s := Format(u);
    s[..8] + "-" + s[8..12] + "-" + s[12..16] + "-" + s[16..20] + "-" + s[20..]
  }

  function LowerDigit(c: char): char
  {
    if 'A' <= c <= 'F' then (c as int + 32) as char else c
  }

  /** The same text in lower case, as far as hexadecimal digits go. */
  function Lower(s: string): (r: string)
    ensures |r| == |s| && forall i :: 0 <= i < |s| ==> r[i] == LowerDigit(s[i])
  {
    seq(|s|, i requires 0 <= i < |s| => LowerDigit(s[i]))
  }

  lemma DigitText(c: char, n: int)
    requires 0 <= n < 16
    ensures HexValue(c) == Some(n) <==> LowerDigit(c) == "0123456789abcdef"[n]
  {
  }

  lemma ByteText(s: string, at: nat, b: int)
    requires at + 1 < |s| && 0 <= b < 256
    ensures HexByte(s, at) == Some(b) <==> LowerDigit(s[at]) == "0123456789abcdef"[b / 16]
                                           && LowerDigit(s[at + 1]) == "0123456789abcdef"[b % 16]
  {
    DigitText(s[at], b / 16);
    DigitText(s[at + 1], b % 16);
    assert b == (b / 16) * 16 + b % 16;
    if HexByte(s, at) == Some(b) {
      var high, low := HexValue(s[at]).value, HexValue(s[at + 1]).value;
      assert 0 <= high < 16 && 0 <= low < 16 && b == high * 16 + low;
      assert high == b / 16 && low == b % 16;
    }
  }

  lemma BytesRead(s: string, offsets: seq<nat>, u: Uuid)
    requires |offsets| == 16 && forall i :: 0 <= i < 16 ==> offsets[i] + 1 < |s|
    ensures ReadBytes(s, offsets) == Some(u) <==> forall i :: 0 <= i < 16 ==> HexByte(s, offsets[i]) == Some(u[i])
  {
    hide HexByte;
    if HexAt(s, offsets) {
      var read: Uuid := ReadBytes(s, offsets).value;
      assert forall i :: 0 <= i < 16 ==> read[i] == HexByte(s, offsets[i]).value;
      assert read == u <==> forall i :: 0 <= i < 16 ==> read[i] == u[i];
    }
  }

  lemma BytesText(s: string, offsets: seq<nat>, u: Uuid)
    requires |offsets| == 16 && forall i :: 0 <= i < 16 ==> offsets[i] + 1 < |s|
    ensures ReadBytes(s, offsets) == Some(u) <==>
            forall i :: 0 <= i < 16 ==> LowerDigit(s[offsets[i]]) == "0123456789abcdef"[u[i] / 16]
                                        && LowerDigit(s[offsets[i] + 1]) == "0123456789abcdef"[u[i] % 16]
  {
    hide HexByte, LowerDigit, ReadBytes;
    BytesRead(s, offsets, u);
    forall i | 0 <= i < 16
      ensures HexByte(s, offsets[i]) == Some(u[i])
              <==> (LowerDigit(s[offsets[i]]) == "0123456789abcdef"[u[i] / 16]
                    && LowerDigit(s[offsets[i] + 1]) == "0123456789abcdef"[u[i] % 16])
    {
      ByteText(s, offsets[i], u[i]);
    }
  }

  /** Exactly the two forms are read, in any mixture of cases, and each as the identifier it spells. */
  lemma ParseMeans(s: string, u: Uuid)
    ensures Parse(s) == Some(u) <==> Lower(s) == Format(u) || Lower(s) == Dashed(u)
  {
    assert LowerDigit('-') == '-';
    hide ReadBytes, LowerDigit;
    if |s| == 32 {
      BytesText(s, PLAIN_OFFSETS, u);
      PlainText(Lower(s), u);
    } else if |s| == 36 && s[8] == '-' && s[13] == '-' && s[18] == '-' && s[23] == '-' {
      BytesText(s, DASHED_OFFSETS, u);
      DashedText(Lower(s), u);
    } else {
      DashesStand(s, u);
    }
  }

  lemma PlainText(s: string, u: Uuid)
    requires |s| == 32
    ensures s == Format(u) <==>
            forall i :: 0 <= i < 16 ==> s[PLAIN_OFFSETS[i]] == "0123456789abcdef"[u[i] / 16]
                                        && s[PLAIN_OFFSETS[i] + 1] == "0123456789abcdef"[u[i] % 16]
  {
  }

  lemma DashedText(s: string, u: Uuid)
    requires |s| == 36 && s[8] == s[13] == s[18] == s[23] == '-'
    ensures s == Dashed(u) <==>
            forall i :: 0 <= i < 16 ==> s[DASHED_OFFSETS[i]] == "0123456789abcdef"[u[i] / 16]
                                        && s[DASHED_OFFSETS[i] + 1] == "0123456789abcdef"[u[i] % 16]
  {
    DashesAt(u);
    hide Dashed;
    forall i | 0 <= i < 16
      ensures Dashed(u)[DASHED_OFFSETS[i]] == "0123456789abcdef"[u[i] / 16]
      ensures Dashed(u)[DASHED_OFFSETS[i] + 1] == "0123456789abcdef"[u[i] % 16]
    {
      DashedDigits(u, i);
    }
    if forall i :: 0 <= i < 16 ==> s[DASHED_OFFSETS[i]] == Dashed(u)[DASHED_OFFSETS[i]]
                                   && s[DASHED_OFFSETS[i] + 1] == Dashed(u)[DASHED_OFFSETS[i] + 1] {
      forall j | 0 <= j < 36
        ensures s[j] == Dashed(u)[j]
      {
        OctetAt(j);
      }
    }
  }

  lemma DashesAt(u: Uuid)
    ensures var s := Dashed(u); |s| == 36 && s[8] == s[13] == s[18] == s[23] == '-'
  {
    assert |Format(u)| == 32;
    hide Format;
  }

  /** Every place but the four dashes holds a digit of some octet. */
  lemma OctetAt(j: nat)
    requires j < 36
    ensures j in {8, 13, 18, 23} || exists i :: 0 <= i < 16 && (DASHED_OFFSETS[i] == j || DASHED_OFFSETS[i] + 1 == j)
  {
    var i := if j < 8 then j / 2 else if j < 13 then (j - 1) / 2 else if j < 18 then (j - 2) / 2
                  else if j < 23 then (j - 3) / 2 else (j - 4) / 2;
    if j !in {8, 13, 18, 23} {
      DashedOffset(i);
    }
  }

  lemma DashedOffset(i: nat)
    requires i < 16
    ensures DASHED_OFFSETS[i] == 2 * i + (if i < 4 then 0 else if i < 6 then 1 else if i < 8 then 2
                                          else if i < 10 then 3 else 4)
  {
  }

  /** Which characters the text consists of. */
  lemma FormatText(u: Uuid, i: nat)
    requires i < 16
    ensures |Format(u)| == 32
    ensures Format(u)[2 * i] == "0123456789abcdef"[u[i] / 16] && Format(u)[2 * i + 1] == "0123456789abcdef"[u[i] % 16]
  {
    assert Format(u)[2 * i] == HexDigit(u[i] / 16) && Format(u)[2 * i + 1] == HexDigit(u[i] % 16);
  }

  lemma DashedDigits(u: Uuid, i: nat)
    requires i < 16
    ensures |Dashed(u)| == 36
    ensures Dashed(u)[DASHED_OFFSETS[i]] == "0123456789abcdef"[u[i] / 16]
    ensures Dashed(u)[DASHED_OFFSETS[i] + 1] == "0123456789abcdef"[u[i] % 16]
  {
    DashedOffset(i);
    var s := Format(u);
    FormatText(u, i);
    hide Format;
    DashedPlaces(s, Dashed(u), 2 * i);
    DashedPlaces(s, Dashed(u), 2 * i + 1);
  }

  lemma DashedPlaces(s: string, d: string, k: nat)
    requires |s| == 32 && k < 32
    requires d == s[..8] + "-" + s[8..12] + "-" + s[12..16] + "-" + s[16..20] + "-" + s[20..]
    ensures |d| == 36
    ensures d[k + if k < 8 then 0 else if k < 12 then 1 else if k < 16 then 2 else if k < 20 then 3 else 4] == s[k]
  {
  }

  lemma DashesStand(s: string, u: Uuid)
    requires |s| != 32 && !(|s| == 36 && s[8] == '-' && s[13] == '-' && s[18] == '-' && s[23] == '-')
    ensures Lower(s) != Format(u) && Lower(s) != Dashed(u)
  {
  }

  /** The variant field of section 4.1.1 of RFC 4122: the two top bits of octet 8 are 1 and 0. */
  predicate Rfc4122Variant(u: Uuid)
  {
    u[8] / 64 == 2
  }

  /** The version field of section 4.1.3 of RFC 4122: the top half of octet 6. */
  function VersionOf(u: Uuid): int
  {
    u[6] / 16
  }

  /** Legacy text is accepted only for identifiers of the RFC 4122 variant. */
  function ParseLegacy(s: string): Option<Uuid>
  {
    match Parse(s)
    case Some(u) => if Rfc4122Variant(u) then Some(u) else None
    case None => None
  }

  /** What legacy text reads as which identifier. */
  lemma ParseLegacyMeans(s: string, u: Uuid)
    ensures ParseLegacy(s) == Some(u) <==> (Lower(s) == Format(u) || Lower(s) == Dashed(u)) && 128 <= u[8] < 192
  {
    hide Format, Dashed, Lower, Parse;
    ParseMeans(s, u);
  }

  /** The name-based identifier: a digest with the version and variant bits overwritten. */
  function FromDigest(digest: Uuid): (u: Uuid)
    ensures Rfc4122Variant(u) && VersionOf(u) == 3
    ensures forall i :: 0 <= i < 16 && i != 6 && i != 8 ==> u[i] == digest[i]
    ensures u[6] % 16 == digest[6] % 16 && u[8] % 64 == digest[8] % 64
  {
    digest[6 := 0x30 + digest[6] % 16][8 := 0x80 + digest[8] % 64]
  }

  /** The stricter reader of the resolution plan: 32 lower-case digits only. */
  function ParseCanonical(s: string): Option<Uuid>
  {
    match Parse(s)
    case Some(u) => if |s| == 32 && Format(u) == s then Some(u) else None
    case None => None
  }

  /** Canonical text and identifiers correspond one to one. */
  lemma CanonicalIsFormat(s: string, u: Uuid)
    ensures ParseCanonical(s) == Some(u) <==> s == Format(u)
  {
    ParseFormat(u);
  }
}
