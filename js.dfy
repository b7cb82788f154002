/** The JavaScript value semantics the client relies on: `undefined`, truthiness
    of strings and numbers, and the string methods it calls (`toLowerCase`,
    `trim`, `includes`, `startsWith`, `replace`, the regular expressions `/\D/g`,
    `/\s/g` and `/\+/g`) and number-to-string conversion in templates. */
module Js {
  import opened Seqs

  /** An optional field: `None` is `undefined` (or `null`). */
  datatype Option<+T> = None | Some(value: T)

  /** A string is truthy iff it is defined and not empty. */
  predicate TruthyStr(o: Option<string>) { o.Some? && o.value != "" }

  /** A number is truthy iff it is defined and not 0 (NaN is not modelled). */
  predicate TruthyNum(o: Option<real>) { o.Some? && o.value != 0.0 }

  /** A boolean field is truthy iff it is defined and true. */
  predicate TruthyBool(o: Option<bool>) { o == Some(true) }

  /** `a || b` on two strings. */
  function OrElse(a: string, b: string): (r: string)
    ensures a != "" ==> r == a
    ensures a == "" ==> r == b
  {
    if a != "" then a else b
  }

  /** The characters that `trim` strips and `\s` matches: ECMAScript WhiteSpace
      (TAB, VT, FF, ZWNBSP and the Unicode space separators) and LineTerminator. */
  predicate IsWhitespace(c: char)
  {
    var n := c as int;
    n == 0x09 || n == 0x0A || n == 0x0B || n == 0x0C || n == 0x0D || n == 0x20
    || n == 0xA0 || n == 0x1680 || (0x2000 <= n <= 0x200A) || n == 0x2028
    || n == 0x2029 || n == 0x202F || n == 0x205F || n == 0x3000 || n == 0xFEFF
  }

  /** The ASCII digits, the complement of `\D`. */
  predicate IsDigit(c: char) { '0' <= c <= '9' }

  predicate AllDigits(s: string) { forall i :: 0 <= i < |s| ==> IsDigit(s[i]) }

  /** `toLowerCase` on the Latin-1 letters (A-Z and the accented capitals). */
  function LowerChar(c: char): (r: char)
    ensures IsDigit(c) ==> r == c
    ensures IsWhitespace(c) ==> r == c
  {
    var n := c as int;
    if ('A' <= c <= 'Z') || (0xC0 <= n <= 0xDE && n != 0xD7) then (n + 32) as char else c
  }

  function Lower(s: string): (r: string)
    ensures |r| == |s|
    ensures forall i :: 0 <= i < |s| ==> r[i] == LowerChar(s[i])
  {
    seq(|s|, i requires 0 <= i < |s| => LowerChar(s[i]))
  }

  /** Lower-casing twice is lower-casing once. */
  lemma LowerIdempotent(s: string)
    ensures Lower(Lower(s)) == Lower(s)
  {
  }

  function TrimStart(s: string): (r: string)
    ensures |r| <= |s|
  {
    if s != [] && IsWhitespace(s[0]) then TrimStart(s[1..]) else s
  }

  function TrimEnd(s: string): (r: string)
    ensures |r| <= |s|
  {
    if s != [] && IsWhitespace(s[|s| - 1]) then TrimEnd(s[..|s| - 1]) else s
  }

  /** `s.trim()`. */
  function Trim(s: string): (r: string)
    ensures |r| <= |s|
  {
    TrimEnd(TrimStart(s))
  }

  /** `TrimStart` drops exactly the leading whitespace: a suffix remains, it
      does not start with whitespace, and everything dropped is whitespace. */
  lemma {:induction false} TrimStartSpec(s: string)
    ensures var r := TrimStart(s);
      && r == s[|s| - |r|..]
      && (r != [] ==> !IsWhitespace(r[0]))
      && (forall i :: 0 <= i < |s| - |r| ==> IsWhitespace(s[i]))
  {
    if s != [] && IsWhitespace(s[0]) {
      TrimStartSpec(s[1..]);
      var r := TrimStart(s);
      forall i | 0 <= i < |s| - |r| ensures IsWhitespace(s[i]) {
        if i > 0 {
          assert s[i] == s[1..][i - 1];
        }
      }
    }
  }

  /** `TrimEnd` drops exactly the trailing whitespace. */
  lemma {:induction false} TrimEndSpec(s: string)
    ensures var r := TrimEnd(s);
      && r == s[..|r|]
      && (r != [] ==> !IsWhitespace(r[|r| - 1]))
      && (forall i :: |r| <= i < |s| ==> IsWhitespace(s[i]))
  {
    if s != [] && IsWhitespace(s[|s| - 1]) {
      TrimEndSpec(s[..|s| - 1]);
      var r := TrimEnd(s);
      forall i | |r| <= i < |s| ensures IsWhitespace(s[i]) {
        if i < |s| - 1 {
          assert s[i] == s[..|s| - 1][i];
        }
      }
    }
  }

  /** The trimmed string neither starts nor ends with whitespace. */
  lemma TrimSpec(s: string)
    ensures var r := Trim(s); r != [] ==> !IsWhitespace(r[0]) && !IsWhitespace(r[|r| - 1])
  {
    var t := TrimStart(s);
    TrimStartSpec(s);
    TrimEndSpec(t);
    var r := TrimEnd(t);
    if r != [] {
      assert r[0] == t[0];
    }
  }

  /** A string is blank (trims to '') iff it consists of whitespace only. */
  lemma TrimEmptyIffBlank(s: string)
    ensures Trim(s) == "" <==> forall i :: 0 <= i < |s| ==> IsWhitespace(s[i])
  {
    var t := TrimStart(s);
    TrimStartSpec(s);
    TrimEndSpec(t);
  }

  /** `Trim` keeps exactly the middle of the string: a slice `s[k..k + |r|]`
      with only whitespace before and after it. */
  lemma TrimSlice(s: string)
    ensures var r, k := Trim(s), |s| - |TrimStart(s)|;
      && k + |r| <= |s|
      && r == s[k..k + |r|]
      && (forall i :: 0 <= i < k ==> IsWhitespace(s[i]))
      && (forall i :: k + |r| <= i < |s| ==> IsWhitespace(s[i]))
  {
    var t := TrimStart(s);
    TrimStartSpec(s);
    TrimEndSpec(t);
    var r, k := Trim(s), |s| - |t|;
    assert r == t[..|r|];
    forall i | k + |r| <= i < |s| ensures IsWhitespace(s[i]) {
      assert s[i] == t[i - k];
    }
  }

  /** A string with no surrounding whitespace is its own trim. */
  lemma TrimNoop(s: string)
    requires s != [] ==> !IsWhitespace(s[0]) && !IsWhitespace(s[|s| - 1])
    ensures Trim(s) == s
  {
  }

  /** `s.startsWith(t)`. */
  predicate StartsWith(s: string, t: string) { |t| <= |s| && s[..|t|] == t }

  /** `s.includes(t)`. */
  predicate Contains(s: string, t: string)
  {
    StartsWith(s, t) || (s != [] && Contains(s[1..], t))
  }

  /** `t` occurs in `s` at position `k`. */
  predicate OccursAt(s: string, t: string, k: int)
  {
    0 <= k <= |s| - |t| && s[k..k + |t|] == t
  }

  /** An occurrence found by `includes` has a position. */
  lemma {:induction false} ContainsHasPosition(s: string, t: string)
    requires Contains(s, t)
    ensures exists k :: OccursAt(s, t, k)
  {
    if StartsWith(s, t) {
      assert OccursAt(s, t, 0);
    } else {
      ContainsHasPosition(s[1..], t);
      var k :| OccursAt(s[1..], t, k);
      assert s[1..][k..k + |t|] == s[k + 1..k + 1 + |t|];
      assert OccursAt(s, t, k + 1);
    }
  }

  /** An occurrence at position `k` is found by `includes`. */
  lemma {:induction false} PositionContains(s: string, t: string, k: int)
    requires OccursAt(s, t, k)
    ensures Contains(s, t)
    decreases k
  {
    if k == 0 {
      assert StartsWith(s, t);
    } else {
      assert s[1..][k - 1..k - 1 + |t|] == s[k..k + |t|];
      PositionContains(s[1..], t, k - 1);
    }
  }

  /** `includes` holds exactly when `t` occurs at some position of `s`. */
  lemma ContainsAt(s: string, t: string)
    ensures Contains(s, t) <==> exists k :: OccursAt(s, t, k)
  {
    if Contains(s, t) {
      ContainsHasPosition(s, t);
    }
    if exists k :: OccursAt(s, t, k) {
      var k :| OccursAt(s, t, k);
      PositionContains(s, t, k);
    }
  }

  /** `s.includes(t)` in a concatenation where `t` occurs inside `b`. */
  lemma {:induction false} ContainsAppendLeft(a: string, b: string, t: string)
    requires Contains(b, t)
    ensures Contains(a + b, t)
  {
    if a != [] {
      assert (a + b)[1..] == a[1..] + b;
      ContainsAppendLeft(a[1..], b, t);
    } else {
      assert a + b == b;
    }
  }

  /** `t` occurs in any string that has it between two others. */
  lemma {:induction false} ContainsInfix(a: string, t: string, b: string)
    ensures Contains(a + t + b, t)
  {
    assert (t + b)[..|t|] == t;
    assert a + t + b == a + (t + b);
    ContainsAppendLeft(a, t + b, t);
  }

  /** `s.replace(pat, rep)` with a string pattern: only the first occurrence is replaced. */
  function ReplaceFirst(s: string, pat: string, rep: string): (r: string)
    ensures !Contains(s, pat) ==> r == s
    ensures StartsWith(s, pat) ==> r == rep + s[|pat|..]
  {
    if StartsWith(s, pat) then rep + s[|pat|..]
    else if s == [] then []
    else [s[0]] + ReplaceFirst(s[1..], pat, rep)
  }

  /** An occurrence in the tail is an occurrence one position further on. */
  lemma OccursAtTail(s: string, pat: string, j: int)
    requires s != [] && 0 <= j
    ensures OccursAt(s[1..], pat, j) <==> OccursAt(s, pat, j + 1)
  {
    if 0 <= j <= |s| - 1 - |pat| {
      assert s[1..][j..j + |pat|] == s[j + 1..j + 1 + |pat|];
    }
  }

  /** The replacement happens at the first occurrence: with `k` the least
      position where `pat` occurs, the result is the text before it, `rep`,
      and the text after it. */
  lemma {:induction false} ReplaceFirstAt(s: string, pat: string, rep: string, k: int)
    requires OccursAt(s, pat, k)
    requires forall j :: 0 <= j < k ==> !OccursAt(s, pat, j)
    ensures ReplaceFirst(s, pat, rep) == s[..k] + rep + s[k + |pat|..]
    decreases k
  {
    if k == 0 {
      assert StartsWith(s, pat);
    } else {
      assert !OccursAt(s, pat, 0);
      var t := s[1..];
      OccursAtTail(s, pat, k - 1);
      forall j | 0 <= j < k - 1 ensures !OccursAt(t, pat, j) {
        OccursAtTail(s, pat, j);
      }
      ReplaceFirstAt(t, pat, rep, k - 1);
      calc {
        ReplaceFirst(s, pat, rep);
        [s[0]] + ReplaceFirst(t, pat, rep);
        [s[0]] + (t[..k - 1] + rep + t[k - 1 + |pat|..]);
        { assert [s[0]] + t[..k - 1] == s[..k]; assert t[k - 1 + |pat|..] == s[k + |pat|..]; }
        s[..k] + rep + s[k + |pat|..];
      }
    }
  }

  /** `s.replace(/\D/g, '')`. */
  function DigitsOnly(s: string): (r: string)
    ensures AllDigits(r)
    ensures |r| <= |s|
  {
    Filter(s, IsDigit)
  }

  /** Keeping the digits of a string of digits changes nothing. */
  lemma DigitsOnlyOfDigits(s: string)
    requires AllDigits(s)
    ensures DigitsOnly(s) == s
  {
    FilterAll(s, IsDigit);
  }

  predicate NotWhitespace(c: char) { !IsWhitespace(c) }

  /** `s.replace(/\s/g, '')`. */
  function RemoveWhitespace(s: string): (r: string)
    ensures |r| <= |s|
    ensures forall c :: c in r ==> !IsWhitespace(c)
  {
    Filter(s, NotWhitespace)
  }

  /** Removing whitespace from a string without any changes nothing. */
  lemma RemoveWhitespaceNoop(s: string)
    requires forall c :: c in s ==> !IsWhitespace(c)
    ensures RemoveWhitespace(s) == s
  {
    FilterAll(s, NotWhitespace);
  }

  /** `/\s/g` removal distributes over concatenation. */
  lemma RemoveWhitespaceConcat(a: string, b: string)
    ensures RemoveWhitespace(a + b) == RemoveWhitespace(a) + RemoveWhitespace(b)
  {
    FilterConcat(a, b, NotWhitespace);
  }

  /** A single space is removed entirely. */
  lemma RemoveWhitespaceSpace()
    ensures RemoveWhitespace(" ") == ""
  {
    assert IsWhitespace(' ');
    assert Filter(" ", NotWhitespace) == Filter(" "[1..], NotWhitespace);
  }

  /** Removing whitespace around a separating space joins the two sides. */
  lemma RemoveWhitespaceAround(a: string, b: string)
    ensures RemoveWhitespace(a + " " + b) == RemoveWhitespace(a) + RemoveWhitespace(b)
  {
    RemoveWhitespaceSpace();
    RemoveWhitespaceConcat(a, " ");
    RemoveWhitespaceConcat(a + " ", b);
  }

  /** A slice of a string without whitespace has none either. */
  lemma NoWhitespaceSlice(s: string, i: int, j: int)
    requires 0 <= i <= j <= |s|
    requires forall c :: c in s ==> !IsWhitespace(c)
    ensures RemoveWhitespace(s[i..j]) == s[i..j]
  {
    forall c | c in s[i..j] ensures !IsWhitespace(c) {
      var k :| i <= k < j && s[k] == c;
    }
    RemoveWhitespaceNoop(s[i..j]);
  }

  predicate NotPlus(c: char) { c != '+' }

  /** `s.replace(/\+/g, '')`. */
  function RemovePlus(s: string): (r: string)
    ensures '+' !in r
    ensures |r| <= |s|
  {
    Filter(s, NotPlus)
  }

  /** Every character of `pat` occurs in a string that contains `pat`. */
  lemma {:induction false} ContainsHasChar(s: string, pat: string, c: char)
    requires Contains(s, pat) && c in pat
    ensures c in s
  {
    ContainsAt(s, pat);
    var k :| OccursAt(s, pat, k);
    var j :| 0 <= j < |pat| && pat[j] == c;
    assert s[k + j] == s[k..k + |pat|][j];
  }

  /** A string that lacks one of the characters of `pat` does not contain `pat`. */
  lemma MissingCharNoMatch(s: string, pat: string, c: char)
    requires c in pat && c !in s
    ensures !Contains(s, pat)
  {
    if Contains(s, pat) {
      ContainsHasChar(s, pat, c);
    }
  }

  /** A string without '+' does not contain any string that starts with '+'. */
  lemma {:induction false} NoPlusNoMatch(s: string, pat: string)
    requires '+' !in s && pat != [] && pat[0] == '+'
    ensures !Contains(s, pat)
  {
    MissingCharNoMatch(s, pat, '+');
  }

  function DigitChar(d: nat): char
    requires d < 10
  {
    "0123456789"[d]
  }

  /** The decimal text of a number, as template interpolation `${n}` writes it. */
  function NatToString(n: nat): (r: string)
    ensures |r| >= 1
    ensures AllDigits(r)
    ensures n < 10 ==> r == [DigitChar(n)]
  {
    if n < 10 then [DigitChar(n)] else NatToString(n / 10) + [DigitChar(n % 10)]
  }
}
