/**
 * The two text formatters of the audit panel: the ten-cell progress bar and
 * the `0x` + eight uppercase hex digits checksum.
 */
module TerminalAudit {
  import opened Wrappers

  /** One row of the panel; `bar` is the optional percentage. */
  datatype AuditLine = AuditLine(skill: string, status: string, details: string, bar: Option<int>)

  /** The rows the panel shows. */
  const Data: seq<AuditLine> := [
    AuditLine("NETWORK_SECURITY", "HARDENED", "LEVEL: 95%", Some(95)),
    AuditLine("VULNERABILITY_OPS", "ACTIVE", "DETECTION_RATE: HIGH", None),
    AuditLine("SYSTEM_SECURITY", "SECURE", "KERNEL: LINUX/HARDENED", None),
    AuditLine("PENETRATION_TEST", "READY", "TOOLS: NMAP, METASPLOIT, BURP", None),
    AuditLine("FULL_STACK_ENG", "OPTIMIZED", "REACT, NODE, THREE.JS", Some(90))
  ]

  // ---------------------------------------------------------------- progress bar

  /** The number of cells of a bar. */
  const Total: nat := 10
  const FullCell: char := '\U{25A0}'
  const EmptyCell: char := '\U{25A1}'

  /** The first `n` cells of a bar with `filled` full cells: cell `i` is full iff `i < filled`. */
  function Row(n: nat, filled: int): (cells: string)
    ensures |cells| == n
    ensures forall i :: 0 <= i < n ==> (cells[i] == FullCell <==> i < filled)
    ensures forall i :: 0 <= i < n ==> cells[i] in {FullCell, EmptyCell}
  {
    if n == 0 then []
    else Row(n - 1, filled) + [if n - 1 < filled then FullCell else EmptyCell]
  }

  /** `ProgressBar`: `floor(value / 10)` of the ten cells are full, between brackets. */
  function ProgressBar(value: int): (bar: string)
    ensures |bar| == Total + 2 && bar[0] == '[' && bar[Total + 1] == ']'
    ensures forall i, j :: 1 <= i < j <= Total && bar[j] == FullCell ==> bar[i] == FullCell
  {
    "[" + Row(Total, value / 10) + "]"
  }

  /** The number of full cells in `s`. */
  function CountFull(s: string): nat {
    if s == [] then 0
    else CountFull(s[..|s| - 1]) + (if s[|s| - 1] == FullCell then 1 else 0)
  }

  function Clamp(x: int, lo: int, hi: int): int {
    if x < lo then lo else if x > hi then hi else x
  }

  lemma {:induction false} RowCount(n: nat, filled: int)
    ensures CountFull(Row(n, filled)) == Clamp(filled, 0, n)
  {
    if n > 0 {
      var r := Row(n, filled);
      assert r[..n - 1] == Row(n - 1, filled);
      RowCount(n - 1, filled);
    }
  }

  /** A bar shows `floor(value / 10)` full cells, clamped to the ten it has;
      a percentage from 0 to 100 shows between 0 and 10 of them. */
  lemma FullCells(value: int)
    ensures CountFull(ProgressBar(value)[1..Total + 1]) == Clamp(value / 10, 0, Total)
    ensures 0 <= value <= 100 ==> CountFull(ProgressBar(value)[1..Total + 1]) == value / 10 <= Total
  {
    assert ProgressBar(value)[1..Total + 1] == Row(Total, value / 10);
    RowCount(Total, value / 10);
  }

  /** The rows with a bar show 9 of 10 cells full: 95 and 90 both floor to 9. */
  lemma DataBars()
    ensures forall k :: 0 <= k < |Data| && Data[k].bar.Some? ==>
      CountFull(ProgressBar(Data[k].bar.value)[1..Total + 1]) == 9
  {
    FullCells(95);
    FullCells(90);
  }

  // ---------------------------------------------------------------- checksum

  /** The digits of `Number.prototype.toString(16)`. */
  function LowerDigit(d: nat): char
    requires d < 16
  {
    if d < 10 then ('0' as int + d) as char else ('a' as int + d - 10) as char
  }

  function UpperDigit(d: nat): char
    requires d < 16
  {
    if d < 10 then ('0' as int + d) as char else ('A' as int + d - 10) as char
  }

  /** `n.toString(16)`: lowercase hex, no leading zeros. */
  function ToHex(n: nat): (s: string)
    ensures |s| >= 1
    decreases n
  {
    if n < 16 then [LowerDigit(n)] else ToHex(n / 16) + [LowerDigit(n % 16)]
  }

  function UpperChar(c: char): char {
    if 'a' <= c <= 'z' then (c as int - 32) as char else c
  }

  /** `toUpperCase` on the ASCII letters, which are all a hex string holds. */
  function ToUpper(s: string): (u: string)
    ensures |u| == |s| && forall i :: 0 <= i < |s| ==> u[i] == UpperChar(s[i])
  {
    seq(|s|, i requires 0 <= i < |s| => UpperChar(s[i]))
  }

  /** `padStart(width, fill)` with a one-character fill. */
  function PadStart(s: string, width: nat, fill: char): (r: string)
    ensures |r| == if |s| < width then width else |s|
  {
    if |s| >= width then s else seq(width - |s|, _ => fill) + s
  }

  /** The checksum text for the integer `n`. */
  function Checksum(n: nat): (r: string)
    ensures |r| >= 10 && r[..2] == "0x"
  {
    "0x" + PadStart(ToUpper(ToHex(n)), 8, '0')
  }

  /** The checksum shown before any row is hovered. */
  const InitialChecksum: string := "0x00000000"

  predicate IsUpperHex(c: char) {
    ('0' <= c <= '9') || ('A' <= c <= 'F')
  }

  function HexValue(c: char): (d: nat)
    requires IsUpperHex(c)
    ensures d < 16 && UpperDigit(d) == c
  {
    if c <= '9' then c as int - '0' as int else c as int - 'A' as int + 10
  }

  /** `parseInt(s, 16)` on uppercase hex digits. */
  function ParseHex(s: string): nat
    requires forall i :: 0 <= i < |s| ==> IsUpperHex(s[i])
  {
    if s == [] then 0 else ParseHex(s[..|s| - 1]) * 16 + HexValue(s[|s| - 1])
  }

  function Pow16(k: nat): (p: nat)
    ensures p >= 1
  {
    if k == 0 then 1 else 16 * Pow16(k - 1)
  }

  /** The last `k` uppercase hex digits of `n`, leading zeros included. */
  function Digits(n: nat, k: nat): (s: string)
    ensures |s| == k && forall i :: 0 <= i < k ==> IsUpperHex(s[i])
  {
    if k == 0 then [] else Digits(n / 16, k - 1) + [UpperDigit(n % 16)]
  }

  lemma {:induction false} DigitsOfZero(k: nat)
    ensures Digits(0, k) == seq(k, _ => '0')
  {
    if k > 0 {
      DigitsOfZero(k - 1);
    }
  }

  lemma UpperOfLowerDigit(d: nat)
    requires d < 16
    ensures UpperChar(LowerDigit(d)) == UpperDigit(d)
  {
  }

  lemma {:induction false} ToHexFits(n: nat, k: nat)
    requires k >= 1 && n < Pow16(k)
    ensures |ToHex(n)| <= k
    decreases n
  {
    if n >= 16 {
      assert k >= 2;
      ToHexFits(n / 16, k - 1);
    }
  }

  lemma UpperDistributes(a: string, b: string)
    ensures ToUpper(a + b) == ToUpper(a) + ToUpper(b)
  {
  }

  lemma PadAppend(x: string, c: char, k: nat)
    requires 1 <= k && |x| <= k - 1
    ensures PadStart(x + [c], k, '0') == PadStart(x, k - 1, '0') + [c]
  {
    if |x| < k - 1 {
      assert seq(k - |x + [c]|, _ => '0') == seq(k - 1 - |x|, _ => '0');
    }
  }

  lemma DivBound(n: nat, k: nat)
    requires k >= 1 && n < Pow16(k)
    ensures n / 16 < Pow16(k - 1)
  {
  }

  /** Padding the uppercase hex of `n` to `k` places gives its `k` last digits. */
  lemma {:induction false} PaddedHexIsDigits(n: nat, k: nat)
    requires k >= 1 && n < Pow16(k)
    ensures PadStart(ToUpper(ToHex(n)), k, '0') == Digits(n, k)
    decreases n
  {
    UpperOfLowerDigit(n % 16);
    if n < 16 {
      DigitsOfZero(k - 1);
      assert ToUpper(ToHex(n)) == [UpperDigit(n)];
      assert Digits(n, k) == Digits(0, k - 1) + [UpperDigit(n)];
    } else {
      DivBound(n, k);
      assert k >= 2;
      var head := ToUpper(ToHex(n / 16));
      UpperDistributes(ToHex(n / 16), [LowerDigit(n % 16)]);
      assert ToUpper(ToHex(n)) == head + [UpperDigit(n % 16)];
      ToHexFits(n / 16, k - 1);
      PadAppend(head, UpperDigit(n % 16), k);
      PaddedHexIsDigits(n / 16, k - 1);
    }
  }

  /** Appending a digit multiplies the value read so far by 16 and adds the digit. */
  lemma ParseSnoc(init: string, c: char)
    requires forall i :: 0 <= i < |init| ==> IsUpperHex(init[i])
    requires IsUpperHex(c)
    ensures ParseHex(init + [c]) == ParseHex(init) * 16 + HexValue(c)
  {
    assert (init + [c])[..|init|] == init;
  }

  lemma {:induction false} ParseDigits(n: nat, k: nat)
    requires n < Pow16(k)
    ensures ParseHex(Digits(n, k)) == n
  {
    if k > 0 {
      var q, r := n / 16, n % 16;
      DivBound(n, k);
      ParseDigits(q, k - 1);
      ParseSnoc(Digits(q, k - 1), UpperDigit(r));
      assert HexValue(UpperDigit(r)) == r;
    }
  }

  lemma {:induction false} DigitsOfParse(s: string)
    requires forall i :: 0 <= i < |s| ==> IsUpperHex(s[i])
    ensures ParseHex(s) < Pow16(|s|)
    ensures Digits(ParseHex(s), |s|) == s
  {
    if s != [] {
      var init := s[..|s| - 1];
      DigitsOfParse(init);
      var d := HexValue(s[|s| - 1]);
      var m := ParseHex(init);
      assert ParseHex(s) == m * 16 + d;
      assert ParseHex(s) / 16 == m && ParseHex(s) % 16 == d;
      assert ParseHex(s) < Pow16(|s|) by {
        assert m * 16 <= (Pow16(|init|) - 1) * 16;
      }
      assert s == init + [s[|s| - 1]];
    }
  }

  /** Every 32-bit value's checksum is "0x" and its eight hex digits. */
  lemma ChecksumIsDigits(n: nat)
    requires n < 0x1_0000_0000
    ensures Checksum(n) == "0x" + Digits(n, 8)
  {
    assert Pow16(8) == 0x1_0000_0000;
    PaddedHexIsDigits(n, 8);
  }

  /**
   * For every value the random source can give, the checksum is ten characters:
   * "0x" and eight uppercase hex digits, which read back as the value.
   */
  lemma ChecksumRoundTrip(n: nat)
    requires n < 0x1_0000_0000
    ensures |Checksum(n)| == 10 && Checksum(n)[..2] == "0x"
    ensures forall i :: 2 <= i < 10 ==> IsUpperHex(Checksum(n)[i])
    ensures ParseHex(Checksum(n)[2..]) == n
  {
    ChecksumIsDigits(n);
    assert Checksum(n)[2..] == Digits(n, 8);
    assert Pow16(8) == 0x1_0000_0000;
    ParseDigits(n, 8);
  }

  /** Conversely, every eight-digit uppercase hex text is the checksum of the value it reads as. */
  lemma ChecksumOnto(s: string)
    requires |s| == 8 && forall i :: 0 <= i < 8 ==> IsUpperHex(s[i])
    ensures ParseHex(s) < 0x1_0000_0000
    ensures Checksum(ParseHex(s)) == "0x" + s
  {
    DigitsOfParse(s);
    assert Pow16(8) == 0x1_0000_0000;
    ChecksumIsDigits(ParseHex(s));
  }

  /** The initial "0x00000000" is the checksum of 0. */
  lemma InitialIsZero()
    ensures Checksum(0) == InitialChecksum
  {
    ChecksumIsDigits(0);
    DigitsOfZero(8);
  }
}
