/** The JavaScript string operations the core relies on: `indexOf`/`includes`,
    `replace` with a string pattern, `split` on one character, `join`, `trim`,
    `toLowerCase`, `parseInt` and number-to-string. */
module Text {
  import opened JsValues

  // ---------------------------------------------------------------------------
  // Searching: indexOf, includes, replace

  /** `pat` occurs in `s` starting at index `i`. */
  predicate OccursAt(s: string, pat: string, i: int)
  {
    0 <= i && i + |pat| <= |s| && s[i..i + |pat|] == pat
  }

  /** `s.indexOf(pat, from)`: the first index at or after `from` where `pat` occurs, or -1. */
  function IndexOf(s: string, pat: string, from: nat): (r: int)
    ensures r == -1 || (from <= r && OccursAt(s, pat, r))
    ensures forall i :: from <= i && (r == -1 || i < r) ==> !OccursAt(s, pat, i)
    decreases |s| - from
  {
    if from + |pat| > |s| then -1
    else if s[from..from + |pat|] == pat then from
    else IndexOf(s, pat, from + 1)
  }

  /** `s.includes(pat)`. */
  predicate Includes(s: string, pat: string)
  {
    IndexOf(s, pat, 0) >= 0
  }

  /** `includes` holds exactly when the pattern occurs somewhere. */
  lemma IncludesIff(s: string, pat: string)
    ensures Includes(s, pat) <==> exists i :: OccursAt(s, pat, i)
  {
    if Includes(s, pat) {
      assert OccursAt(s, pat, IndexOf(s, pat, 0));
    }
  }

  /** `s.replace(pat, rep)` with a string pattern: only the first occurrence is replaced. */
  function ReplaceFirst(s: string, pat: string, rep: string): string
  {
    var k := IndexOf(s, pat, 0);
    if k < 0 then s else s[..k] + rep + s[k + |pat|..]
  }

  /** Replacing in a string that does not contain the pattern changes nothing. */
  lemma ReplaceFirstAbsent(s: string, pat: string, rep: string)
    requires forall i :: !OccursAt(s, pat, i)
    ensures ReplaceFirst(s, pat, rep) == s
  {
  }

  /** A string that starts with the pattern loses exactly that prefix when it is replaced by "". */
  lemma ReplaceFirstPrefix(pat: string, t: string)
    ensures ReplaceFirst(pat + t, pat, "") == t
  {
    assert OccursAt(pat + t, pat, 0);
    assert (pat + t)[|pat|..] == t;
  }

  /** `s.startsWith(p)`. */
  predicate StartsWith(s: string, p: string)
  {
    OccursAt(s, p, 0)
  }

  // ---------------------------------------------------------------------------
  // split and join

  /** `s.split(sep)` for a one-character separator: "" gives [""], and an empty piece
      appears between two adjacent separators and at either end. */
  function Split(s: string, sep: char): (r: seq<string>)
    ensures |r| >= 1
    ensures forall k :: 0 <= k < |r| ==> sep !in r[k]
  {
    if |s| == 0 then [""]
    else
      var rest := Split(s[1..], sep);
      if s[0] == sep then [""] + rest else [[s[0]] + rest[0]] + rest[1..]
  }

  /** `xs.join(sep)`. */
  function Join(xs: seq<string>, sep: string): string
  {
    if |xs| == 0 then ""
    else if |xs| == 1 then xs[0]
    else xs[0] + sep + Join(xs[1..], sep)
  }

  /** Splitting a string without the separator gives that string alone. */
  lemma {:induction false} SplitNoSep(a: string, sep: char)
    requires sep !in a
    ensures Split(a, sep) == [a]
  {
    if |a| > 0 {
      SplitNoSep(a[1..], sep);
      assert [a[0]] + a[1..] == a;
    }
  }

  /** A separator-free prefix becomes the first piece. */
  lemma {:induction false} SplitCons(a: string, b: string, sep: char)
    requires sep !in a
    ensures Split(a + [sep] + b, sep) == [a] + Split(b, sep)
  {
    if |a| == 0 {
      assert (a + [sep] + b)[1..] == b;
    } else {
      SplitCons(a[1..], b, sep);
      assert (a + [sep] + b)[1..] == a[1..] + [sep] + b;
      assert [a[0]] + a[1..] == a;
    }
  }

  /** A separator-free prefix is glued to the front of the first piece. */
  lemma {:induction false} SplitPrefix(p: string, s: string, sep: char)
    requires sep !in p
    ensures Split(p + s, sep) == [p + Split(s, sep)[0]] + Split(s, sep)[1..]
  {
    if |p| > 0 {
      SplitPrefix(p[1..], s, sep);
      assert (p + s)[1..] == p[1..] + s;
      assert [p[0]] + (p[1..] + Split(s, sep)[0]) == p + Split(s, sep)[0];
    } else {
      assert p + s == s;
      assert p + Split(s, sep)[0] == Split(s, sep)[0];
      assert [Split(s, sep)[0]] + Split(s, sep)[1..] == Split(s, sep);
    }
  }

  /** Splitting the join of separator-free pieces gives the pieces back. */
  lemma {:induction false} SplitJoin(xs: seq<string>, sep: char)
    requires |xs| >= 1
    requires forall k :: 0 <= k < |xs| ==> sep !in xs[k]
    ensures Split(Join(xs, [sep]), sep) == xs
  {
    if |xs| == 1 {
      SplitNoSep(xs[0], sep);
    } else {
      SplitJoin(xs[1..], sep);
      SplitCons(xs[0], Join(xs[1..], [sep]), sep);
      assert [xs[0]] + xs[1..] == xs;
    }
  }

  /** Joining the pieces of a split with the same separator gives the string back. */
  lemma {:induction false} JoinSplit(s: string, sep: char)
    ensures Join(Split(s, sep), [sep]) == s
  {
    if |s| > 0 {
      JoinSplit(s[1..], sep);
      var rest := Split(s[1..], sep);
      if s[0] == sep {
        assert ([""] + rest)[1..] == rest;
        assert s == [sep] + s[1..];
      } else {
        var r := [[s[0]] + rest[0]] + rest[1..];
        if |rest| == 1 {
          assert s == [s[0]] + s[1..];
        } else {
          assert r[1..] == rest[1..];
          assert s[1..] == rest[0] + [sep] + Join(rest[1..], [sep]);
          assert s == [s[0]] + s[1..];
        }
      }
    }
  }

  // ---------------------------------------------------------------------------
  // trim

  /** The characters `String.prototype.trim` removes: JavaScript's WhiteSpace and LineTerminator. */
  predicate IsJsSpace(c: char)
  {
    c == ' ' || c == '\t' || c == '\n' || c == '\r' || c == '\U{000B}' || c == '\U{000C}'
    || c == '\U{00A0}' || c == '\U{1680}' || ('\U{2000}' <= c <= '\U{200A}')
    || c == '\U{2028}' || c == '\U{2029}' || c == '\U{202F}' || c == '\U{205F}'
    || c == '\U{3000}' || c == '\U{FEFF}'
  }

  function TrimStart(s: string): string
  {
    if |s| > 0 && IsJsSpace(s[0]) then TrimStart(s[1..]) else s
  }

  /** White space alone trims to nothing, and a string that does not start with
      white space is left as it is. */
  lemma {:induction false} TrimStartEnds(s: string)
    ensures (forall k :: 0 <= k < |s| ==> IsJsSpace(s[k])) ==> TrimStart(s) == ""
    ensures |s| > 0 && !IsJsSpace(s[0]) ==> TrimStart(s) == s
  {
    if |s| > 0 && IsJsSpace(s[0]) {
      TrimStartEnds(s[1..]);
      assert (forall k :: 0 <= k < |s| ==> IsJsSpace(s[k])) ==> forall k :: 0 <= k < |s[1..]| ==> IsJsSpace(s[1..][k]);
    }
  }

  function TrimEnd(s: string): string
  {
    if |s| > 0 && IsJsSpace(s[|s| - 1]) then TrimEnd(s[..|s| - 1]) else s
  }

  /** `s.trim()`. */
  function Trim(s: string): string
  {
    TrimEnd(TrimStart(s))
  }

  /** `s` is its own trimmed form. */
  predicate Trimmed(s: string)
  {
    Trim(s) == s
  }

  /** The trimmed string is a slice of the original with no white space at either end. */
  lemma {:induction false} TrimStartSlice(s: string)
    ensures exists i :: 0 <= i <= |s| && TrimStart(s) == s[i..]
    ensures |TrimStart(s)| > 0 ==> !IsJsSpace(TrimStart(s)[0])
  {
    if |s| > 0 && IsJsSpace(s[0]) {
      TrimStartSlice(s[1..]);
      var i :| 0 <= i <= |s[1..]| && TrimStart(s[1..]) == s[1..][i..];
      assert TrimStart(s) == s[i + 1..];
    } else {
      assert TrimStart(s) == s[0..];
    }
  }

  lemma {:induction false} TrimEndSlice(s: string)
    ensures exists j :: 0 <= j <= |s| && TrimEnd(s) == s[..j]
    ensures |TrimEnd(s)| > 0 ==> !IsJsSpace(TrimEnd(s)[|TrimEnd(s)| - 1])
  {
    if |s| > 0 && IsJsSpace(s[|s| - 1]) {
      TrimEndSlice(s[..|s| - 1]);
      var j :| 0 <= j <= |s| - 1 && TrimEnd(s[..|s| - 1]) == s[..|s| - 1][..j];
      assert TrimEnd(s) == s[..j];
    } else {
      assert TrimEnd(s) == s[..|s|];
    }
  }

  /** TrimEnd keeps a first character that is not white space. */
  lemma {:induction false} TrimEndKeepsStart(s: string)
    requires |TrimEnd(s)| > 0
    ensures TrimEnd(s)[0] == s[0]
  {
    TrimEndSlice(s);
  }

  /** `trim` removes exactly the white space at both ends: the result is a slice of `s`
      that neither starts nor ends with white space. */
  lemma TrimSlice(s: string)
    ensures exists i, j :: 0 <= i <= j <= |s| && Trim(s) == s[i..j]
    ensures |Trim(s)| > 0 ==> !IsJsSpace(Trim(s)[0]) && !IsJsSpace(Trim(s)[|Trim(s)| - 1])
  {
    TrimStartSlice(s);
    var i :| 0 <= i <= |s| && TrimStart(s) == s[i..];
    TrimEndSlice(s[i..]);
    var j :| 0 <= j <= |s[i..]| && TrimEnd(s[i..]) == s[i..][..j];
    assert Trim(s) == s[i..i + j];
    if |Trim(s)| > 0 {
      TrimEndKeepsStart(TrimStart(s));
    }
  }

  /** A string that neither starts nor ends with white space is already trimmed. */
  lemma TrimmedWhenNoEdgeSpace(s: string)
    requires |s| == 0 || (!IsJsSpace(s[0]) && !IsJsSpace(s[|s| - 1]))
    ensures Trimmed(s)
  {
  }

  /** `trim` is idempotent. */
  lemma TrimIdempotent(s: string)
    ensures Trimmed(Trim(s))
  {
    TrimSlice(s);
    TrimmedWhenNoEdgeSpace(Trim(s));
  }

  /** A leading white space character does not change the trimmed form. */
  lemma TrimLeadingSpace(c: char, s: string)
    requires IsJsSpace(c)
    ensures Trim([c] + s) == Trim(s)
  {
    assert ([c] + s)[1..] == s;
  }

  /** Every character of the trimmed string comes from the original. */
  lemma TrimChars(s: string)
    ensures forall c :: c in Trim(s) ==> c in s
  {
    TrimSlice(s);
    var i, j :| 0 <= i <= j <= |s| && Trim(s) == s[i..j];
    forall c | c in Trim(s) ensures c in s {
      var k :| 0 <= k < |Trim(s)| && Trim(s)[k] == c;
      assert s[i + k] == c;
    }
  }

  // ---------------------------------------------------------------------------
  // toLowerCase (ASCII letters)

  predicate IsUpper(c: char)
  {
    'A' <= c <= 'Z'
  }

  function LowerChar(c: char): char
  {
    if IsUpper(c) then (c as int + 32) as char else c
  }

  /** `s.toLowerCase()` on ASCII letters. */
  function Lower(s: string): (r: string)
    ensures |r| == |s|
    ensures forall k :: 0 <= k < |s| ==> r[k] == LowerChar(s[k])
  {
    if |s| == 0 then "" else [LowerChar(s[0])] + Lower(s[1..])
  }

  predicate NoUpper(s: string)
  {
    forall c :: c in s ==> !IsUpper(c)
  }

  /** A lowercased string has no upper-case letter, and lowercasing it again changes nothing. */
  lemma LowerNoUpper(s: string)
    ensures NoUpper(Lower(s))
  {
    forall c | c in Lower(s) ensures !IsUpper(c) {
      var k :| 0 <= k < |s| && Lower(s)[k] == c;
    }
  }

  lemma LowerFixesNoUpper(s: string)
    requires NoUpper(s)
    ensures Lower(s) == s
  {
    forall k | 0 <= k < |s| ensures Lower(s)[k] == s[k] {
      assert s[k] in s;
    }
  }

  // ---------------------------------------------------------------------------
  // Numbers as text: `${n}` and parseInt

  predicate IsDigit(c: char)
  {
    '0' <= c <= '9'
  }

  function DigitChar(d: nat): char
    requires d < 10
  {
    ('0' as int + d) as char
  }

  /** `${n}` for a non-negative integer: its decimal digits, most significant first. */
  function NatToString(n: nat): (r: string)
    ensures |r| >= 1
    ensures forall k :: 0 <= k < |r| ==> IsDigit(r[k])
    ensures r[0] != '0' || n == 0
  {
    if n < 10 then [DigitChar(n)] else NatToString(n / 10) + [DigitChar(n % 10)]
  }

  /** `c` is a digit in base `radix`: a decimal digit, or for base 16 also a-f and A-F. */
  predicate IsRadixDigit(c: char, radix: nat)
  {
    IsDigit(c) || (radix == 16 && ('a' <= c <= 'f' || 'A' <= c <= 'F'))
  }

  function DigitValue(c: char, radix: nat): nat
    requires IsRadixDigit(c, radix)
  {
    if IsDigit(c) then c as int - '0' as int
    else if 'a' <= c <= 'f' then c as int - 'a' as int + 10
    else c as int - 'A' as int + 10
  }

  /** The value of a string of digits in base `radix`. */
  function DigitsValue(d: string, radix: nat): nat
    requires forall k :: 0 <= k < |d| ==> IsRadixDigit(d[k], radix)
  {
    if |d| == 0 then 0 else DigitsValue(d[..|d| - 1], radix) * radix + DigitValue(d[|d| - 1], radix)
  }

  /** The longest prefix of digits in base `radix`. */
  function DigitPrefix(s: string, radix: nat): (r: string)
    ensures |r| <= |s| && r == s[..|r|]
    ensures forall k :: 0 <= k < |r| ==> IsRadixDigit(r[k], radix)
    ensures |r| < |s| ==> !IsRadixDigit(s[|r|], radix)
  {
    if |s| > 0 && IsRadixDigit(s[0], radix) then [s[0]] + DigitPrefix(s[1..], radix) else ""
  }

  /** A "0x" or "0X" prefix, which makes `parseInt` read base 16. */
  predicate HexPrefixed(u: string)
  {
    |u| >= 2 && u[0] == '0' && (u[1] == 'x' || u[1] == 'X')
  }

  /** `parseInt(s)` with no radix argument: skip leading white space, take an optional
      sign, read base 16 after a "0x"/"0X" prefix and base 10 otherwise, and take the
      longest run of digits of that base; `None` stands for `NaN`. */
  function ParseInt(s: string): (r: Option<int>)
    ensures (forall k :: 0 <= k < |s| ==> IsJsSpace(s[k])) ==> r.None?
    ensures |s| > 0 && (forall k :: 0 <= k < |s| ==> IsDigit(s[k])) ==> r == Some(DigitsValue(s, 10))
  {
    TrimStartEnds(s);
    DigitPrefixAll(s);
    var t := TrimStart(s);
    var negative := |t| > 0 && t[0] == '-';
    var u := if |t| > 0 && (t[0] == '-' || t[0] == '+') then t[1..] else t;
    var radix := if HexPrefixed(u) then 16 else 10;
    var d := DigitPrefix(if HexPrefixed(u) then u[2..] else u, radix);
    var v: int := DigitsValue(d, radix);
    if |d| == 0 then None else Some(if negative then -v else v)
  }

  /** The base-16 prefix is honoured, and a bare prefix with no digit after it is `NaN`. */
  lemma HexLevels()
    ensures ParseInt("0x1f") == Some(31)
    ensures ParseInt("0X") == None
    ensures ParseInt(" -0x10") == Some(-16)
  {
    assert TrimStart("0x1f") == "0x1f";
    assert "0x1f"[2..] == "1f";
    assert DigitPrefix("1f", 16) == "1f" by {
      assert "1f"[1..] == "f";
      assert DigitPrefix("f", 16) == "f" by { assert "f"[1..] == ""; }
    }
    assert "1f"[..1] == "1";
    assert DigitsValue("1", 16) == 1 by { assert "1"[..0] == ""; }
    assert TrimStart("0X") == "0X";
    assert "0X"[2..] == "";
    assert TrimStart(" -0x10") == "-0x10" by { assert " -0x10"[1..] == "-0x10"; }
    assert "-0x10"[1..] == "0x10";
    assert "0x10"[2..] == "10";
    assert DigitPrefix("10", 16) == "10" by {
      assert "10"[1..] == "0";
      assert DigitPrefix("0", 16) == "0" by { assert "0"[1..] == ""; }
    }
    assert "10"[..1] == "1";
    assert DigitsValue("1", 16) == 1 by { assert "1"[..0] == ""; }
  }

  lemma {:induction false} DigitsOfNat(n: nat)
    ensures DigitsValue(NatToString(n), 10) == n
  {
    var r := NatToString(n);
    if n >= 10 {
      DigitsOfNat(n / 10);
      assert r[..|r| - 1] == NatToString(n / 10);
    }
  }

  lemma {:induction false} DigitPrefixAll(d: string)
    ensures (forall k :: 0 <= k < |d| ==> IsDigit(d[k])) ==> DigitPrefix(d, 10) == d
  {
    if |d| > 0 && forall k :: 0 <= k < |d| ==> IsDigit(d[k]) {
      DigitPrefixAll(d[1..]);
      assert [d[0]] + d[1..] == d;
    }
  }

  /** `parseInt` reads back what `${n}` writes. */
  lemma ParseIntOfNatToString(n: nat)
    ensures ParseInt(NatToString(n)) == Some(n)
  {
    var r := NatToString(n);
    assert !IsJsSpace(r[0]);
    assert TrimStart(r) == r;
    assert !HexPrefixed(r) by {
      assert |r| >= 2 ==> IsDigit(r[1]);
    }
    DigitPrefixAll(r);
    DigitsOfNat(n);
  }

  /** Leading white space is skipped. */
  lemma ParseIntLeadingSpace(c: char, s: string)
    requires IsJsSpace(c)
    ensures ParseInt([c] + s) == ParseInt(s)
  {
    assert ([c] + s)[1..] == s;
  }

  /** A '-' in front negates the number and a '+' changes nothing, when the rest
      starts with neither white space nor a sign; NaN stays NaN. */
  lemma ParseIntSign(s: string)
    requires |s| == 0 || (!IsJsSpace(s[0]) && s[0] != '-' && s[0] != '+')
    ensures ParseInt("-" + s) == if ParseInt(s).Some? then Some(-ParseInt(s).value) else None
    ensures ParseInt("+" + s) == ParseInt(s)
  {
    TrimStartEnds("-" + s);
    TrimStartEnds("+" + s);
    TrimStartEnds(s);
    assert ("-" + s)[1..] == s && ("+" + s)[1..] == s;
  }

  /** The digits of a longer run of digits start with the digits of its prefix. */
  lemma {:induction false} DigitPrefixStops(d: string, rest: string)
    requires forall k :: 0 <= k < |d| ==> IsDigit(d[k])
    requires |rest| == 0 || !IsDigit(rest[0])
    ensures DigitPrefix(d + rest, 10) == d
  {
    if |d| == 0 {
      assert d + rest == rest;
    } else {
      DigitPrefixStops(d[1..], rest);
      assert (d + rest)[1..] == d[1..] + rest;
      assert [d[0]] + d[1..] == d;
    }
  }

  /** Reading stops at the first character that is not a digit: "50px" and the
      text "50.5" both give 50. */
  lemma ParseIntStopsAtNonDigit(d: string, rest: string)
    requires |d| > 0 && forall k :: 0 <= k < |d| ==> IsDigit(d[k])
    requires |rest| == 0 || !IsDigit(rest[0])
    requires !HexPrefixed(d + rest)
    ensures ParseInt(d + rest) == Some(DigitsValue(d, 10))
  {
    var s := d + rest;
    assert s[0] == d[0];
    TrimStartEnds(s);
    assert TrimStart(s) == s;
    assert s[0] != '-' && s[0] != '+';
    DigitPrefixStops(d, rest);
    assert DigitPrefix(s, 10) == d;
  }
}
