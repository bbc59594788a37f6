/**
 * Byte-string helpers the core takes from Go's standard library, modelled on
 * `string` (one char per byte): the literal substring test of bytes.Contains,
 * the line splitting of bufio.ScanLines, and the %d verb of fmt.
 */
module Text {

  /** sub occurs in s at index i. */
  ghost predicate OccursAt(s: string, sub: string, i: int)
  {
    0 <= i && i + |sub| <= |s| && s[i..i + |sub|] == sub
  }

  predicate HasPrefix(s: string, prefix: string)
  {
    |prefix| <= |s| && s[..|prefix|] == prefix
  }

  /** bytes.Contains: is sub a literal substring of s (no pattern syntax)? */
  function Contains(s: string, sub: string): (r: bool)
    ensures |sub| == 0 ==> r
    ensures r ==> |sub| <= |s|
    decreases |s|
  {
    HasPrefix(s, sub) || (|s| > 0 && Contains(s[1..], sub))
  }

  /** Contains is exactly "occurs at some index". */
  lemma {:induction false} ContainsIffOccurs(s: string, sub: string)
    ensures Contains(s, sub) <==> exists i :: OccursAt(s, sub, i)
  {
    if HasPrefix(s, sub) {
      assert OccursAt(s, sub, 0);
    } else if |s| == 0 {
      assert |sub| > 0;
    } else {
      ContainsIffOccurs(s[1..], sub);
      if exists i :: OccursAt(s, sub, i) {
        var i :| OccursAt(s, sub, i);
        assert i != 0;
        assert s[1..][i - 1..i - 1 + |sub|] == s[i..i + |sub|];
        assert OccursAt(s[1..], sub, i - 1);
      }
      if Contains(s[1..], sub) {
        var j :| OccursAt(s[1..], sub, j);
        assert s[j + 1..j + 1 + |sub|] == s[1..][j..j + |sub|];
        assert OccursAt(s, sub, j + 1);
      }
    }
  }

  /** bytes.IndexByte: the first index of c in s, or -1. */
  function IndexOf(s: string, c: char): (r: int)
    ensures -1 <= r < |s|
    ensures r >= 0 ==> s[r] == c && forall j :: 0 <= j < r ==> s[j] != c
    ensures r < 0 ==> forall j :: 0 <= j < |s| ==> s[j] != c
    decreases |s|
  {
    if |s| == 0 then -1
    else if s[0] == c then 0
    else
      var r := IndexOf(s[1..], c);
      if r < 0 then -1 else r + 1
  }

  /** The first c in prefix + [c] + rest is the one after prefix, when prefix holds no c. */
  lemma IndexAfterPrefix(prefix: string, c: char, rest: string)
    requires forall j :: 0 <= j < |prefix| ==> prefix[j] != c
    ensures IndexOf(prefix + [c] + rest, c) == |prefix|
  {
    var s := prefix + [c] + rest;
    assert s[|prefix|] == c;
    forall j | 0 <= j < |prefix| ensures s[j] != c {
      assert s[j] == prefix[j];
    }
  }

  /** bufio's dropCR: one trailing carriage return is not part of a line. */
  function DropCR(s: string): (r: string)
    ensures s == r || s == r + "\r"
    ensures |s| > 0 && s[|s| - 1] == '\r' ==> s == r + "\r"
  {
    if |s| > 0 && s[|s| - 1] == '\r' then s[..|s| - 1] else s
  }

  /**
   * The tokens a bufio.Scanner with the ScanLines split function yields:
   * every '\n'-terminated line, then the final unterminated chunk if it is
   * not empty, each without its trailing '\r'.
   */
  function ScanLines(buf: string): (lines: seq<string>)
    ensures |lines| == 0 <==> |buf| == 0
    ensures forall k :: 0 <= k < |lines| ==> '\n' !in lines[k]
    decreases |buf|
  {
    if |buf| == 0 then []
    else
      var i := IndexOf(buf, '\n');
      if i < 0 then [DropCR(buf)]
      else
        assert forall j :: 0 <= j < |buf[..i]| ==> buf[..i][j] != '\n';
        [DropCR(buf[..i])] + ScanLines(buf[i + 1..])
  }

  /** What a line-oriented writer emits for these lines: each one followed by '\n'. */
  function JoinLines(lines: seq<string>): string
  {
    if lines == [] then [] else lines[0] + "\n" + JoinLines(lines[1..])
  }

  /** A line that the scanner gives back unchanged. */
  predicate IsLine(l: string)
  {
    '\n' !in l && (|l| == 0 || l[|l| - 1] != '\r')
  }

  /** Scanning what was written line by line gives back exactly those lines. */
  lemma {:induction false} ScanJoinedLines(lines: seq<string>)
    requires forall k :: 0 <= k < |lines| ==> IsLine(lines[k])
    ensures ScanLines(JoinLines(lines)) == lines
  {
    if lines != [] {
      var l, rest := lines[0], lines[1..];
      var buf := JoinLines(lines);
      assert buf == l + "\n" + JoinLines(rest);
      assert IsLine(l);
      assert buf[|l|] == '\n';
      forall j | 0 <= j < |l| ensures buf[j] != '\n' {
        assert buf[j] == l[j];
      }
      assert IndexOf(buf, '\n') == |l|;
      assert buf[..|l|] == l;
      assert buf[|l| + 1..] == JoinLines(rest);
      ScanJoinedLines(rest);
    }
  }

  function Digit(d: nat): (c: char)
    requires d < 10
    ensures '0' <= c <= '9'
  {
    (('0' as int) + d) as char
  }

  predicate IsDigits(s: string)
  {
    forall k :: 0 <= k < |s| ==> '0' <= s[k] <= '9'
  }

  /** The decimal digits of n, most significant first, without leading zeros. */
  function NatToDecimal(n: nat): (s: string)
    ensures |s| > 0 && IsDigits(s)
    ensures s[0] == '0' ==> n == 0
    decreases n
  {
    if n < 10 then [Digit(n)] else NatToDecimal(n / 10) + [Digit(n % 10)]
  }

  /** The value of a string of decimal digits. */
  function ParseDecimal(s: string): nat
    requires IsDigits(s)
    decreases |s|
  {
    if s == [] then 0
    else 10 * ParseDecimal(s[..|s| - 1]) + (s[|s| - 1] as int - '0' as int)
  }

  /** Formatting a natural number in decimal loses nothing. */
  lemma {:induction false} ParseNatToDecimal(n: nat)
    ensures ParseDecimal(NatToDecimal(n)) == n
  {
    var s := NatToDecimal(n);
    if n >= 10 {
      ParseNatToDecimal(n / 10);
      assert s[..|s| - 1] == NatToDecimal(n / 10);
    }
  }

  /**
   * fmt's %d verb on an integer: an optional minus sign, then the digits.
   * The contract is the definition; ParseNatToDecimal states what it keeps.
   */
  function FormatInt(n: int): (s: string)
    ensures n >= 0 ==> s == NatToDecimal(n)
    ensures n < 0 ==> s == "-" + NatToDecimal(-n)
  {
    if n < 0 then "-" + NatToDecimal(-n) else NatToDecimal(n)
  }
}
