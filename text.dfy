/**
 * String helpers that follow the JavaScript built-ins the sources call:
 * `trim`, `toLowerCase` (ASCII part), `/^\d+$/`, `Number.prototype.toString(16)`,
 * `padStart`, `split(',')` and `join(',')`.
 */
module Text {
  import opened Wrappers

  /** JavaScript's `s || fallback` for an optional string: absent and empty both fall back. */
  function OrElse(s: Option<string>, fallback: string): (r: string)
    ensures (s.Some? && s.value != "") ==> r == s.value
    ensures (s.None? || s.value == "") ==> r == fallback
  {
    if s.Some? && s.value != "" then s.value else fallback
  }


  /** JavaScript's WhiteSpace and LineTerminator code points, the set `String.prototype.trim` removes. */
  predicate IsJsWhitespace(c: char) {
    var n := c as int;
    n == 0x09 || n == 0x0A || n == 0x0B || n == 0x0C || n == 0x0D || n == 0x20 ||
    n == 0xA0 || n == 0x1680 || (0x2000 <= n <= 0x200A) || n == 0x2028 || n == 0x2029 ||
    n == 0x202F || n == 0x205F || n == 0x3000 || n == 0xFEFF
  }

  /** Index of the first non-whitespace character at or after `i` (or |s|). */
  function SkipLeading(s: string, i: nat): (k: nat)
    requires i <= |s|
    ensures i <= k <= |s|
    ensures forall j :: i <= j < k ==> IsJsWhitespace(s[j])
    ensures k < |s| ==> !IsJsWhitespace(s[k])
    decreases |s| - i
  {
    if i == |s| || !IsJsWhitespace(s[i]) then i else SkipLeading(s, i + 1)
  }

  /** One past the last non-whitespace character before `j` and at or after `lo` (or `lo`). */
  function SkipTrailing(s: string, lo: nat, j: nat): (k: nat)
    requires lo <= j <= |s|
    ensures lo <= k <= j
    ensures forall m :: k <= m < j ==> IsJsWhitespace(s[m])
    ensures k > lo ==> !IsJsWhitespace(s[k - 1])
    decreases j
  {
    if j == lo || !IsJsWhitespace(s[j - 1]) then j else SkipTrailing(s, lo, j - 1)
  }

  /**
   * `s.trim()`: the slice of `s` between its leading and its trailing whitespace.
   */
  function Trim(s: string): (t: string)
    ensures exists i, j ::
      (0 <= i <= j <= |s| && t == s[i..j] &&
       (forall m :: 0 <= m < i ==> IsJsWhitespace(s[m])) &&
       (forall m :: j <= m < |s| ==> IsJsWhitespace(s[m])))
    ensures t != [] ==> !IsJsWhitespace(t[0]) && !IsJsWhitespace(t[|t| - 1])
    ensures t == [] <==> forall m :: 0 <= m < |s| ==> IsJsWhitespace(s[m])
  {
    var i := SkipLeading(s, 0);
    var j := SkipTrailing(s, i, |s|);
    assert j < |s| ==> IsJsWhitespace(s[j]);
    s[i..j]
  }

  /** Trimming a trimmed string changes nothing. */
  lemma TrimIdempotent(s: string)
    ensures Trim(Trim(s)) == Trim(s)
  {
    var t := Trim(s);
    if t != [] {
      assert SkipLeading(t, 0) == 0;
      assert SkipTrailing(t, 0, |t|) == |t|;
      assert t[0..|t|] == t;
    }
  }

  /** ASCII part of `toLowerCase`: 'A'..'Z' map to 'a'..'z', every other character is kept. */
  function AsciiLower(c: char): (d: char)
    ensures 'A' <= c <= 'Z' ==> d as int == c as int + 32
    ensures !('A' <= c <= 'Z') ==> d == c
    ensures !('A' <= d <= 'Z')
  {
    if 'A' <= c <= 'Z' then (c as int + 32) as char else c
  }

  function Lower(s: string): (t: string)
    ensures |t| == |s|
    ensures forall i :: 0 <= i < |s| ==> t[i] == AsciiLower(s[i])
  {
    if s == [] then [] else [AsciiLower(s[0])] + Lower(s[1..])
  }

  /** Lowering a string without capitals changes nothing. */
  lemma LowerOfLower(s: string)
    requires forall i :: 0 <= i < |s| ==> !('A' <= s[i] <= 'Z')
    ensures Lower(s) == s
  {
    assert forall i :: 0 <= i < |s| ==> Lower(s)[i] == s[i];
  }

  predicate IsDigit(c: char) {
    '0' <= c <= '9'
  }

  /** The regular expression `/^\d+$/`: non-empty and made of ASCII digits only. */
  predicate AllDigits(s: string) {
    |s| > 0 && forall i :: 0 <= i < |s| ==> IsDigit(s[i])
  }

  // ---------------------------------------------------------------------------
  // Base 16

  function HexDigit(d: nat): (c: char)
    requires d < 16
  {
    "0123456789abcdef"[d]
  }

  /** Value of a lower-case hexadecimal digit (0 for anything else). */
  function HexValue(c: char): (v: nat)
    ensures v < 16
  {
    if '0' <= c <= '9' then c as int - '0' as int
    else if 'a' <= c <= 'f' then c as int - 'a' as int + 10
    else 0
  }

  predicate IsHexDigit(c: char) {
    ('0' <= c <= '9') || ('a' <= c <= 'f')
  }

  /** `n.toString(16)`: lower-case base-16 digits without leading zeros ("0" for 0). */
  function ToHex(n: nat): (s: string)
    ensures |s| >= 1
    ensures forall i :: 0 <= i < |s| ==> IsHexDigit(s[i])
    ensures n > 0 ==> s[0] != '0'
    decreases n
  {
    if n < 16 then [HexDigit(n)] else ToHex(n / 16) + [HexDigit(n % 16)]
  }

  /** Reads base-16 digits, most significant first. */
  function ParseHex(s: string): (n: nat)
    decreases |s|
  {
    if s == [] then 0 else ParseHex(s[..|s| - 1]) * 16 + HexValue(s[|s| - 1])
  }

  lemma {:induction false} ParseToHex(n: nat)
    ensures ParseHex(ToHex(n)) == n
    decreases n
  {
    if n < 16 {
      HexValueOfDigit(n);
      ParseHexAppend([], HexDigit(n));
    } else {
      var q, r := n / 16, n % 16;
      DivModSixteen(n);
      ParseToHex(q);
      HexValueOfDigit(r);
      ParseHexAppend(ToHex(q), HexDigit(r));
    }
  }

  lemma HexValueOfDigit(d: nat)
    requires d < 16
    ensures HexValue(HexDigit(d)) == d
  {
  }

  /** Appending one digit multiplies the value read so far by 16 and adds the digit. */
  lemma ParseHexAppend(s: string, c: char)
    ensures ParseHex(s + [c]) == ParseHex(s) * 16 + HexValue(c)
  {
    assert (s + [c])[..|s + [c]| - 1] == s;
  }

  lemma DivModSixteen(n: nat)
    ensures n / 16 * 16 + n % 16 == n
  {
  }

  /** `n.toString(16)` has at most `k` digits exactly when n < 16^k. */
  function Pow16(k: nat): (p: nat)
    ensures p >= 1
  {
    if k == 0 then 1 else 16 * Pow16(k - 1)
  }

  lemma {:induction false} ToHexLength(n: nat, k: nat)
    requires k >= 1
    ensures |ToHex(n)| <= k <==> n < Pow16(k)
    decreases n
  {
    if n >= 16 {
      if k == 1 {
        assert Pow16(1) == 16;
      } else {
        ToHexLength(n / 16, k - 1);
      }
    } else {
      PowAtLeast16(k);
    }
  }

  lemma {:induction false} PowAtLeast16(k: nat)
    requires k >= 1
    ensures Pow16(k) >= 16
  {
    if k > 1 { PowAtLeast16(k - 1); }
  }

  function Repeat(c: char, k: nat): (s: string)
    ensures |s| == k && forall i :: 0 <= i < k ==> s[i] == c
  {
    if k == 0 then [] else [c] + Repeat(c, k - 1)
  }

  /** `s.padStart(n, c)` for a one-character pad string. */
  function PadStart(s: string, n: nat, c: char): (t: string)
    ensures |s| >= n ==> t == s
    ensures |s| < n ==> |t| == n && t[n - |s|..] == s && forall i :: 0 <= i < n - |s| ==> t[i] == c
  {
    if |s| >= n then s else Repeat(c, n - |s|) + s
  }

  lemma {:induction false} ParseHexLeadingZero(s: string)
    ensures ParseHex("0" + s) == ParseHex(s)
    decreases |s|
  {
    if s != [] {
      assert ("0" + s)[..|"0" + s| - 1] == "0" + s[..|s| - 1];
      ParseHexLeadingZero(s[..|s| - 1]);
    }
  }

  lemma {:induction false} ParseHexLeadingZeros(k: nat, s: string)
    ensures ParseHex(Repeat('0', k) + s) == ParseHex(s)
    decreases k
  {
    if k > 0 {
      var rest := Repeat('0', k - 1) + s;
      assert Repeat('0', k) == "0" + Repeat('0', k - 1);
      assert Repeat('0', k) + s == "0" + rest;
      ParseHexLeadingZero(rest);
      ParseHexLeadingZeros(k - 1, s);
    } else {
      assert Repeat('0', k) + s == s;
    }
  }

  // ---------------------------------------------------------------------------
  // split / join on a single separator character

  /** `s.split(sep)`: the pieces between separators, including empty ones. */
  function Split(s: string, sep: char): (parts: seq<string>)
    ensures |parts| >= 1
    ensures forall i :: 0 <= i < |parts| ==> sep !in parts[i]
    decreases |s|
  {
    if s == [] then [""]
    else if s[0] == sep then [""] + Split(s[1..], sep)
    else
      var rest := Split(s[1..], sep);
      [[s[0]] + rest[0]] + rest[1..]
  }

  /** `parts.join(sep)`. */
  function Join(parts: seq<string>, sep: char): (s: string)
    decreases |parts|
  {
    if parts == [] then ""
    else if |parts| == 1 then parts[0]
    else parts[0] + [sep] + Join(parts[1..], sep)
  }

  lemma JoinHead(c: char, parts: seq<string>, sep: char)
    requires |parts| >= 1
    ensures Join([[c] + parts[0]] + parts[1..], sep) == [c] + Join(parts, sep)
  {
    var q := [[c] + parts[0]] + parts[1..];
    if |parts| > 1 {
      assert q[1..] == parts[1..];
    }
  }

  /** Splitting and joining again gives back the string. */
  lemma {:induction false} JoinSplit(s: string, sep: char)
    ensures Join(Split(s, sep), sep) == s
    decreases |s|
  {
    if s != [] {
      var rest := Split(s[1..], sep);
      JoinSplit(s[1..], sep);
      if s[0] == sep {
        assert ([""] + rest)[1..] == rest;
      } else {
        JoinHead(s[0], rest, sep);
      }
    }
  }

  /** Joining pieces that hold no separator and splitting again gives back the pieces. */
  lemma {:induction false} SplitJoin(parts: seq<string>, sep: char)
    requires |parts| >= 1
    requires forall i :: 0 <= i < |parts| ==> sep !in parts[i]
    ensures Split(Join(parts, sep), sep) == parts
    decreases |parts|, |parts[0]|
  {
    if |parts| == 1 {
      SplitNoSep(parts[0], sep);
    } else if parts[0] == [] {
      var tail := Join(parts[1..], sep);
      assert Join(parts, sep) == [sep] + tail;
      assert ([sep] + tail)[1..] == tail;
      SplitJoin(parts[1..], sep);
      assert parts == [""] + parts[1..];
    } else {
      var c := parts[0][0];
      var shorter := [parts[0][1..]] + parts[1..];
      assert parts[0] == [c] + parts[0][1..];
      assert forall i :: 0 <= i < |shorter| ==> sep !in shorter[i] by {
        forall i | 0 <= i < |shorter| ensures sep !in shorter[i] {
          if i == 0 { assert forall m :: 0 <= m < |parts[0][1..]| ==> parts[0][1..][m] == parts[0][m + 1]; }
          else { assert shorter[i] == parts[i]; }
        }
      }
      assert shorter[1..] == parts[1..];
      JoinHead(c, shorter, sep);
      assert [[c] + shorter[0]] + shorter[1..] == parts;
      var j := Join(shorter, sep);
      assert Join(parts, sep) == [c] + j;
      assert ([c] + j)[1..] == j;
      SplitJoin(shorter, sep);
      assert Split(j, sep) == shorter;
    }
  }

  lemma {:induction false} SplitNoSep(s: string, sep: char)
    requires sep !in s
    ensures Split(s, sep) == [s]
    decreases |s|
  {
    if s != [] {
      assert sep !in s[1..] by {
        assert forall m :: 0 <= m < |s[1..]| ==> s[1..][m] == s[m + 1];
      }
      SplitNoSep(s[1..], sep);
      assert [s[0]] + s[1..] == s;
    }
  }
}
