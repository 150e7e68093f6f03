/**
  `java.util.UUID` as its five hexadecimal groups (RFC 4122, section 3):
  time_low (32 bits), time_mid (16), time_hi_and_version (16),
  clock_seq (16) and node (48), with `toString` and `fromString`.
*/
module Uuids {
  import opened Wrappers

  const TwoPow16: nat := 0x1_0000
  const TwoPow32: nat := 0x1_0000_0000
  const TwoPow48: nat := 0x1_0000_0000_0000
  const LongMin: int := -0x8000_0000_0000_0000
  const LongMax: int := 0x7FFF_FFFF_FFFF_FFFF

  datatype UuidFields = UuidFields(timeLow: nat, timeMid: nat, timeHigh: nat, clockSeq: nat, node: nat)

  /** A UUID: every group within its width. */
  type Uuid = u: UuidFields |
    && u.timeLow < TwoPow32 && u.timeMid < TwoPow16 && u.timeHigh < TwoPow16
    && u.clockSeq < TwoPow16 && u.node < TwoPow48
    witness UuidFields(0, 0, 0, 0, 0)

  // ---------------------------------------------------------------------------
  // Hexadecimal digits

  /** An ASCII hexadecimal digit: `Character.digit(c, 16) >= 0` restricted
      to ASCII. Java also accepts the other Unicode decimal digits and the
      fullwidth letters A to F; those are not modelled. */
  predicate IsHexDigit(c: char) {
    '0' <= c <= '9' || 'a' <= c <= 'f' || 'A' <= c <= 'F'
  }

  predicate AllHex(s: string) {
    forall i :: 0 <= i < |s| ==> IsHexDigit(s[i])
  }

  function HexDigitValue(c: char): (d: nat)
    requires IsHexDigit(c)
    ensures d < 16
  {
    if '0' <= c <= '9' then c as int - '0' as int
    else if 'a' <= c <= 'f' then c as int - 'a' as int + 10
    else c as int - 'A' as int + 10
  }

  /** The lower-case hexadecimal digit of `d`, as `UUID.toString` writes it. */
  function HexDigit(d: nat): (c: char)
    requires d < 16
    ensures IsHexDigit(c) && c != '-' && c != '+' && HexDigitValue(c) == d
  {
    if d < 10 then ('0' as int + d) as char else ('a' as int + d - 10) as char
  }

  /** The value of a string of hexadecimal digits, most significant first. */
  function HexValue(s: string): nat
    requires AllHex(s)
  {
    if s == [] then 0 else HexValue(s[..|s| - 1]) * 16 + HexDigitValue(s[|s| - 1])
  }

  function Pow16(w: nat): (r: nat)
    ensures r >= 1
  {
    if w == 0 then 1 else 16 * Pow16(w - 1)
  }

  /** The `width` lowest hexadecimal digits of `v`, zero-padded. */
  function Hex(v: nat, width: nat): (r: string)
    ensures |r| == width && AllHex(r)
    ensures forall i :: 0 <= i < |r| ==> r[i] != '-' && r[i] != '+'
  {
    if width == 0 then "" else Hex(v / 16, width - 1) + [HexDigit(v % 16)]
  }

  lemma {:induction false} HexValueOfHex(v: nat, width: nat)
    requires v < Pow16(width)
    ensures HexValue(Hex(v, width)) == v
  {
    if width > 0 {
      var prefix := Hex(v / 16, width - 1);
      assert Hex(v, width)[..width - 1] == prefix;
      assert v / 16 < Pow16(width - 1);
      HexValueOfHex(v / 16, width - 1);
    }
  }

  // ---------------------------------------------------------------------------
  // toString

  /** `UUID.toString`: the 8-4-4-4-12 lower-case hexadecimal form. */
  function ToString(u: Uuid): (r: string)
    ensures |r| == 36
  {
    Hex(u.timeLow, 8) + "-" + Hex(u.timeMid, 4) + "-" + Hex(u.timeHigh, 4) + "-"
      + Hex(u.clockSeq, 4) + "-" + Hex(u.node, 12)
  }

  // ---------------------------------------------------------------------------
  // fromString

  /** The pieces of `s` between dashes (one more piece than there are dashes). */
  function SplitDash(s: string): (parts: seq<string>)
    ensures |parts| >= 1
  {
    if s == [] then [""]
    else
      var rest := SplitDash(s[1..]);
      if s[0] == '-' then [""] + rest else [[s[0]] + rest[0]] + rest[1..]
  }

  lemma {:induction false} SplitDashNoDash(a: string)
    requires forall i :: 0 <= i < |a| ==> a[i] != '-'
    ensures SplitDash(a) == [a]
  {
    if a != [] {
      SplitDashNoDash(a[1..]);
      assert [a[0]] + a[1..] == a;
    }
  }

  lemma {:induction false} SplitDashConcat(a: string, b: string)
    requires forall i :: 0 <= i < |a| ==> a[i] != '-'
    ensures SplitDash(a + "-" + b) == [a] + SplitDash(b)
  {
    var s := a + "-" + b;
    if a == [] {
      assert s[1..] == b;
    } else {
      assert s[1..] == a[1..] + "-" + b;
      SplitDashConcat(a[1..], b);
      assert [a[0]] + a[1..] == a;
    }
  }

  /** `Long.parseLong(s, 16)` on ASCII input: an optional sign, at least one
      ASCII hexadecimal digit, a value within `long`; `None` otherwise. */
  function ParseHexLong(s: string): (r: Option<int>)
    ensures r.Some? ==> LongMin <= r.value <= LongMax
  {
    var negative := |s| > 0 && s[0] == '-';
    var digits := if |s| > 0 && (s[0] == '-' || s[0] == '+') then s[1..] else s;
    if digits == [] || !AllHex(digits) then None
    else
      var v: int := HexValue(digits);
      var n := if negative then -v else v;
      if LongMin <= n <= LongMax then Some(n) else None
  }

  /** `UUID.fromString` over ASCII hexadecimal digits; `None` where it
      throws `IllegalArgumentException`, and also for pieces holding
      non-ASCII digits, which Java's slow path would accept. The string must be at most 36 characters and hold exactly four dashes;
      each of the five pieces is read by `Long.parseLong(piece, 16)` and
      masked to its group's width. (The fast path that Java takes for the
      canonical 36-character layout yields the same value whenever it applies.) */
  function FromString(s: string): Option<Uuid> {
    if |s| > 36 then None
    else
      var parts := SplitDash(s);
      if |parts| != 5 then None
      else
        var p0, p1, p2, p3, p4 :=
          ParseHexLong(parts[0]), ParseHexLong(parts[1]), ParseHexLong(parts[2]),
          ParseHexLong(parts[3]), ParseHexLong(parts[4]);
        if p0.None? || p1.None? || p2.None? || p3.None? || p4.None? then None
        else Some(UuidFields(p0.value % TwoPow32, p1.value % TwoPow16, p2.value % TwoPow16,
                             p3.value % TwoPow16, p4.value % TwoPow48))
  }

  lemma ParseHexLongOfHex(v: nat, width: nat)
    requires 1 <= width <= 12 && v < Pow16(width)
    ensures ParseHexLong(Hex(v, width)) == Some(v)
  {
    HexValueOfHex(v, width);
    assert Pow16(width) <= Pow16(12) by { Pow16Monotonic(width, 12); }
  }

  lemma {:induction false} Pow16Monotonic(a: nat, b: nat)
    requires a <= b
    ensures Pow16(a) <= Pow16(b)
  {
    if a < b {
      Pow16Monotonic(a, b - 1);
    }
  }

  lemma SplitDashOfToString(u: Uuid)
    ensures SplitDash(ToString(u)) ==
      [Hex(u.timeLow, 8), Hex(u.timeMid, 4), Hex(u.timeHigh, 4), Hex(u.clockSeq, 4), Hex(u.node, 12)]
  {
    var a, b, c, d, e := Hex(u.timeLow, 8), Hex(u.timeMid, 4), Hex(u.timeHigh, 4),
                         Hex(u.clockSeq, 4), Hex(u.node, 12);
    assert ToString(u) == a + "-" + (b + "-" + (c + "-" + (d + "-" + e)));
    SplitDashNoDash(e);
    SplitDashConcat(d, e);
    SplitDashConcat(c, d + "-" + e);
    SplitDashConcat(b, c + "-" + (d + "-" + e));
    SplitDashConcat(a, b + "-" + (c + "-" + (d + "-" + e)));
  }

  lemma Pow16Widths()
    ensures Pow16(4) == TwoPow16 && Pow16(8) == TwoPow32 && Pow16(12) == TwoPow48
  {
  }

  /** `fromString` of a string whose five pieces all parse. */
  lemma FromStringOfPieces(s: string, x0: nat, x1: nat, x2: nat, x3: nat, x4: nat)
    requires |s| <= 36 && |SplitDash(s)| == 5
    requires ParseHexLong(SplitDash(s)[0]) == Some(x0 as int)
    requires ParseHexLong(SplitDash(s)[1]) == Some(x1 as int)
    requires ParseHexLong(SplitDash(s)[2]) == Some(x2 as int)
    requires ParseHexLong(SplitDash(s)[3]) == Some(x3 as int)
    requires ParseHexLong(SplitDash(s)[4]) == Some(x4 as int)
    ensures FromString(s) == Some(UuidFields(x0 % TwoPow32, x1 % TwoPow16, x2 % TwoPow16, x3 % TwoPow16, x4 % TwoPow48))
  {
  }

  /** Each field of `toString` parses back as a hexadecimal number. */
  lemma FieldsParse(u: Uuid)
    ensures ParseHexLong(Hex(u.timeLow, 8)) == Some(u.timeLow as int)
    ensures ParseHexLong(Hex(u.timeMid, 4)) == Some(u.timeMid as int)
    ensures ParseHexLong(Hex(u.timeHigh, 4)) == Some(u.timeHigh as int)
    ensures ParseHexLong(Hex(u.clockSeq, 4)) == Some(u.clockSeq as int)
    ensures ParseHexLong(Hex(u.node, 12)) == Some(u.node as int)
  {
    Pow16Widths();
    ParseHexLongOfHex(u.timeLow, 8);
    ParseHexLongOfHex(u.timeMid, 4);
    ParseHexLongOfHex(u.timeHigh, 4);
    ParseHexLongOfHex(u.clockSeq, 4);
    ParseHexLongOfHex(u.node, 12);
  }

  /** `UUID.fromString` reads back what `UUID.toString` writes. */
  lemma FromStringOfToString(u: Uuid)
    ensures FromString(ToString(u)) == Some(u)
  {
    var s := ToString(u);
    SplitDashOfToString(u);
    FieldsParse(u);
    var w := UuidFields(u.timeLow % TwoPow32, u.timeMid % TwoPow16, u.timeHigh % TwoPow16,
                        u.clockSeq % TwoPow16, u.node % TwoPow48);
    assert FromString(s) == Some(w) by {
      FromStringOfPieces(s, u.timeLow, u.timeMid, u.timeHigh, u.clockSeq, u.node);
    }
    assert w == u by {
      ModOfSmall(u.timeLow, TwoPow32);
      ModOfSmall(u.timeMid, TwoPow16);
      ModOfSmall(u.timeHigh, TwoPow16);
      ModOfSmall(u.clockSeq, TwoPow16);
      ModOfSmall(u.node, TwoPow48);
    }
  }

  lemma ModOfSmall(x: nat, m: nat)
    requires x < m
    ensures x % m == x
  {
  }

  /** Distinct UUIDs have distinct string forms. */
  lemma ToStringInjective(u: Uuid, v: Uuid)
    requires ToString(u) == ToString(v)
    ensures u == v
  {
    FromStringOfToString(u);
    FromStringOfToString(v);
  }
}
