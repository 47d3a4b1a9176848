/** The JavaScript string operations the screens rely on: `trim`, `toUpperCase`,
    `split` on one separator character, `substring(0, 1)` and `String(n)` for a
    non-negative integer. Strings are sequences of Unicode scalar values. */
module Text {

  /** JavaScript's WhiteSpace and LineTerminator code points: the characters
      that `String.prototype.trim` removes at both ends. */
  predicate IsJsSpace(c: char) {
    || c == ' ' || c == '\t' || c == '\n' || c == '\r'
    || c == '\U{000B}' || c == '\U{000C}' || c == '\U{00A0}' || c == '\U{1680}'
    || ('\U{2000}' <= c <= '\U{200A}')
    || c == '\U{2028}' || c == '\U{2029}' || c == '\U{202F}' || c == '\U{205F}'
    || c == '\U{3000}' || c == '\U{FEFF}'
  }

  /** Drops the leading white space. */
  function TrimStart(s: string): (r: string)
    ensures |r| <= |s| && r == s[|s| - |r|..]
    ensures r == [] || !IsJsSpace(r[0])
    ensures forall i :: 0 <= i < |s| - |r| ==> IsJsSpace(s[i])
  {
    if s != [] && IsJsSpace(s[0]) then TrimStart(s[1..]) else s
  }

  /** Drops the trailing white space. */
  function TrimEnd(s: string): (r: string)
    ensures |r| <= |s| && r == s[..|r|]
    ensures r == [] || !IsJsSpace(r[|r| - 1])
    ensures forall i :: |r| <= i < |s| ==> IsJsSpace(s[i])
  {
    if s != [] && IsJsSpace(s[|s| - 1]) then TrimEnd(s[..|s| - 1]) else s
  }

  /** `s.trim()`: the result is a slice of `s` that neither starts nor ends with
      white space, everything cut away is white space, it is empty exactly when
      `s` is all white space, and a string that is already trimmed is kept.
      (`TrimIsSlice` shows it is a slice of `s`; the cut ends are white space by the
      contracts of `TrimStart` and `TrimEnd`.) */
  function Trim(s: string): (r: string)
    ensures |r| <= |s|
    ensures r == [] || (!IsJsSpace(r[0]) && !IsJsSpace(r[|r| - 1]))
    ensures r == [] <==> forall i :: 0 <= i < |s| ==> IsJsSpace(s[i])
    ensures (s == [] || (!IsJsSpace(s[0]) && !IsJsSpace(s[|s| - 1]))) ==> r == s
  {
    TrimIsSlice(s);
    TrimEmpty(s);
    TrimEnd(TrimStart(s))
  }

  lemma TrimIsSlice(s: string)
    ensures var k := |s| - |TrimStart(s)|; TrimEnd(TrimStart(s)) == s[k..k + |TrimEnd(TrimStart(s))|]
  {
    var t := TrimStart(s);
    PrefixOfSuffix(s, |s| - |t|, t, TrimEnd(t));
  }

  /** A prefix of a suffix is a slice; the step `TrimIsSlice` rests on. */
  lemma PrefixOfSuffix(s: string, k: nat, t: string, r: string)
    requires k <= |s| && t == s[k..] && |r| <= |t| && r == t[..|r|]
    ensures r == s[k..k + |r|]
  {
  }

  lemma TrimEmpty(s: string)
    ensures TrimEnd(TrimStart(s)) == [] <==> forall i :: 0 <= i < |s| ==> IsJsSpace(s[i])
  {
    var t := TrimStart(s);
    var k := |s| - |t|;
    if TrimEnd(t) != [] {
      TrimIsSlice(s);
      assert s[k] == TrimEnd(t)[0];
    }
  }

  /** The upper-case form of one character as `toUpperCase` gives it, for the
      ASCII and Latin-1 letters; every other character is kept as it is. */
  function UpperChar(c: char): (r: string)
    ensures 1 <= |r| <= 2
    ensures |r| == 2 <==> c == '\U{00DF}'
  {
    if 'a' <= c <= 'z' then [(c as int - 32) as char]
    else if c == '\U{00DF}' then "SS"                      // sharp s
    else if c == '\U{00B5}' then ['\U{039C}']              // micro sign
    else if c == '\U{00FF}' then ['\U{0178}']              // y with diaeresis
    else if '\U{00E0}' <= c <= '\U{00FE}' && c != '\U{00F7}' then [(c as int - 32) as char]
    else [c]
  }

  /** `s.toUpperCase()`. */
  function Upper(s: string): (r: string)
    ensures |r| >= |s|
  {
    if s == [] then [] else UpperChar(s[0]) + Upper(s[1..])
  }

  lemma {:induction false} UpperAppend(s: string, t: string)
    ensures Upper(s + t) == Upper(s) + Upper(t)
  {
    if s != [] {
      assert (s + t)[1..] == s[1..] + t;
      UpperAppend(s[1..], t);
    } else {
      assert s + t == t;
    }
  }

  lemma UpperCharFixed(c: char)
    ensures Upper(UpperChar(c)) == UpperChar(c)
  {
    var u := UpperChar(c);
    if |u| == 2 {
      assert u == "SS";
      assert Upper(u) == UpperChar('S') + Upper(u[1..]);
    } else {
      assert Upper(u) == UpperChar(u[0]) + Upper(u[1..]);
    }
  }

  /** Upper-casing is idempotent: what `toUpperCase` returns is already upper case. */
  lemma {:induction false} UpperIdempotent(s: string)
    ensures Upper(Upper(s)) == Upper(s)
  {
    if s != [] {
      UpperAppend(UpperChar(s[0]), Upper(s[1..]));
      UpperCharFixed(s[0]);
      UpperIdempotent(s[1..]);
    }
  }

  /** Upper-casing keeps the length of any string without a sharp s. */
  lemma {:induction false} UpperKeepsLength(s: string)
    requires '\U{00DF}' !in s
    ensures |Upper(s)| == |s|
  {
    if s != [] {
      assert s[0] != '\U{00DF}';
      assert forall i :: 0 <= i < |s| - 1 ==> s[1..][i] == s[i + 1];
      UpperKeepsLength(s[1..]);
    }
  }

  /** `s.substring(0, 1)`: the first character, or "" for the empty string. */
  function Head1(s: string): (r: string)
    ensures |r| == if s == [] then 0 else 1
    ensures r <= s
  {
    if s == [] then "" else s[..1]
  }

  /** `s.split(sep)` for a one-character separator. */
  function Split(s: string, sep: char): (parts: seq<string>)
    ensures |parts| >= 1
    ensures forall i :: 0 <= i < |parts| ==> sep !in parts[i]
  {
    if s == [] then [""]
    else
      var rest := Split(s[1..], sep);
      if s[0] == sep then [""] + rest
      else [[s[0]] + rest[0]] + rest[1..]
  }

  /** `parts.join(sep)`, the inverse of `Split`. */
  function Join(parts: seq<string>, sep: char): string
    requires |parts| >= 1
  {
    if |parts| == 1 then parts[0] else parts[0] + [sep] + Join(parts[1..], sep)
  }

  /** Joining the parts of a split with the same separator gives the string back. */
  lemma {:induction false} SplitJoin(s: string, sep: char)
    ensures Join(Split(s, sep), sep) == s
  {
    if s != [] {
      var rest := Split(s[1..], sep);
      SplitJoin(s[1..], sep);
      if s[0] == sep {
        assert Split(s, sep)[1..] == rest;
      } else {
        var p := Split(s, sep);
        assert p[1..] == rest[1..];
        if |rest| > 1 {
          assert Join(rest, sep) == rest[0] + [sep] + Join(rest[1..], sep);
        }
      }
    }
  }

  /** The position of the first `c` in `s`, or `|s|` when there is none. */
  function FirstIndex(s: string, c: char): (k: nat)
    ensures k <= |s|
    ensures c !in s[..k]
    ensures k < |s| <==> c in s
    ensures k < |s| ==> s[k] == c
  {
    if s == [] then 0
    else if s[0] == c then 0
    else
      var k := FirstIndex(s[1..], c);
      assert s[..k + 1] == [s[0]] + s[1..][..k];
      k + 1
  }

  /** The first part of a split is everything before the first separator, and
      the second part, when there is one, continues from just after it. */
  lemma {:induction false} SplitFront(s: string, sep: char)
    ensures Split(s, sep)[0] == s[..FirstIndex(s, sep)]
    ensures |Split(s, sep)| == 1 <==> sep !in s
    ensures sep in s ==> Split(s, sep)[1..] == Split(s[FirstIndex(s, sep) + 1..], sep)
  {
    if s != [] {
      SplitFront(s[1..], sep);
      if s[0] != sep {
        assert s[..FirstIndex(s, sep)] == [s[0]] + s[1..][..FirstIndex(s[1..], sep)];
        assert sep in s <==> sep in s[1..];
        if sep in s {
          assert s[FirstIndex(s, sep) + 1..] == s[1..][FirstIndex(s[1..], sep) + 1..];
        }
      }
    }
  }

  /** `s.split('@')[0]`: the longest prefix of `s` without the separator. */
  function Before(s: string, sep: char): (r: string)
    ensures r <= s && sep !in r
    ensures |r| == |s| || s[|r|] == sep
  {
    SplitFront(s, sep);
    Split(s, sep)[0]
  }

  function DigitChar(d: nat): char
    requires d < 10
  {
    ['0', '1', '2', '3', '4', '5', '6', '7', '8', '9'][d]
  }

  function DigitValue(c: char): nat {
    if '0' <= c <= '9' then c as int - '0' as int else 0
  }

  /** `String(n)` for a non-negative integer: its decimal digits, most significant first. */
  function Decimal(n: nat): (s: string)
    ensures |s| >= 1
    ensures forall i :: 0 <= i < |s| ==> '0' <= s[i] <= '9'
  {
    if n < 10 then [DigitChar(n)] else Decimal(n / 10) + [DigitChar(n % 10)]
  }

  /** Reads a string of decimal digits back as a number: the partner of `Decimal`. */
  function DecimalValue(s: string): nat {
    if s == [] then 0 else DecimalValue(s[..|s| - 1]) * 10 + DigitValue(s[|s| - 1])
  }

  lemma {:induction false} DecimalRoundTrip(n: nat)
    ensures DecimalValue(Decimal(n)) == n
  {
    var s := Decimal(n);
    if n < 10 {
      assert s[..0] == [];
    } else {
      DecimalRoundTrip(n / 10);
      assert s[..|s| - 1] == Decimal(n / 10);
    }
  }

  /** Different numbers have different decimal strings. */
  lemma DecimalInjective(a: nat, b: nat)
    ensures Decimal(a) == Decimal(b) ==> a == b
  {
    DecimalRoundTrip(a);
    DecimalRoundTrip(b);
  }
}
