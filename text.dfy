/** The Python string operations the host program relies on: `str.strip`,
    `str.split(',')`, `str.startswith`, the `in` substring test, `int()` and
    `float()` on a token, and `str()` of an integer. */
module Text {
  import opened Values

  /** The characters `str.strip()` removes: Python's whitespace, the
      separators of categories Zs, Zl and Zp and the control characters it
      counts as spaces. */
  predicate IsSpace(c: char)
  {
    || c == ' ' || c == '\t' || c == '\n' || c == '\r' || c == '\U{000B}' || c == '\U{000C}'
    || c == '\U{001C}' || c == '\U{001D}' || c == '\U{001E}' || c == '\U{001F}' || c == '\U{0085}' || c == '\U{00A0}'
    || c == '\U{1680}' || ('\U{2000}' <= c <= '\U{200A}') || c == '\U{2028}' || c == '\U{2029}'
    || c == '\U{202F}' || c == '\U{205F}' || c == '\U{3000}'
  }

  function TrimStart(s: string): (r: string)
    ensures |r| <= |s|
    ensures r == [] || !IsSpace(r[0])
    decreases |s|
  {
    if |s| > 0 && IsSpace(s[0]) then TrimStart(s[1..]) else s
  }

  function TrimEnd(s: string): (r: string)
    ensures |r| <= |s| && (|r| > 0 ==> r[0] == s[0])
    ensures r == [] || !IsSpace(r[|r| - 1])
    decreases |s|
  {
    if |s| > 0 && IsSpace(s[|s| - 1]) then TrimEnd(s[..|s| - 1]) else s
  }

  /** `s.strip()`: the longest infix of `s` without whitespace at either end. */
  function Strip(s: string): (r: string)
    ensures r == [] || (!IsSpace(r[0]) && !IsSpace(r[|r| - 1]))
    ensures |r| <= |s|
  {
    TrimEnd(TrimStart(s))
  }

  /** A string that has no whitespace at either end is its own strip. */
  lemma StripClean(s: string)
    requires s == [] || (!IsSpace(s[0]) && !IsSpace(s[|s| - 1]))
    ensures Strip(s) == s
  {
  }

  /** Stripping twice is stripping once. */
  lemma StripIdempotent(s: string)
    ensures Strip(Strip(s)) == Strip(s)
  {
    StripClean(Strip(s));
  }

  /** `TrimEnd` leaves a prefix that ends in a non-blank alone. */
  lemma {:induction false} TrimEndAppend(a: string, w: string)
    requires |a| > 0 && !IsSpace(a[|a| - 1])
    ensures TrimEnd(a + w) == a + TrimEnd(w)
    decreases |w|
  {
    if |w| == 0 {
      assert a + w == a;
    } else if IsSpace(w[|w| - 1]) {
      assert (a + w)[..|a + w| - 1] == a + w[..|w| - 1];
      TrimEndAppend(a, w[..|w| - 1]);
    }
  }

  lemma {:induction false} TrimStartSnoc(s: string, c: char)
    ensures TrimStart(s + [c]) == if TrimStart(s) == [] then TrimStart([c]) else TrimStart(s) + [c]
    decreases |s|
  {
    if |s| == 0 {
      assert s + [c] == [c];
    } else if IsSpace(s[0]) {
      assert (s + [c])[1..] == s[1..] + [c];
      TrimStartSnoc(s[1..], c);
    }
  }

  /** A blank at the end does not change the strip. */
  lemma StripSnocSpace(s: string, c: char)
    requires IsSpace(c)
    ensures Strip(s + [c]) == Strip(s)
  {
    TrimStartSnoc(s, c);
    var t := TrimStart(s);
    if t != [] {
      assert (t + [c])[..|t|] == t;
    } else {
      assert [c][1..] == [];
    }
  }

  /** Stripping after trimming the end is stripping. */
  lemma {:induction false} StripTrimEnd(w: string)
    ensures Strip(TrimEnd(w)) == Strip(w)
    decreases |w|
  {
    if |w| > 0 && IsSpace(w[|w| - 1]) {
      StripTrimEnd(w[..|w| - 1]);
      StripSnocSpace(w[..|w| - 1], w[|w| - 1]);
      assert w[..|w| - 1] + [w[|w| - 1]] == w;
    }
  }

  /** `s.startswith(p)` */
  predicate StartsWith(s: string, p: string)
  {
    |p| <= |s| && s[..|p|] == p
  }

  /** Two prefixes that differ at a position both cover cannot both start `s`. */
  lemma PrefixesDiffer(s: string, p: string, q: string, k: nat)
    requires StartsWith(s, p) && k < |p| && k < |q| && p[k] != q[k]
    ensures !StartsWith(s, q)
  {
    assert s[k] == p[k];
  }

  /** A string that starts with `p` starts with every prefix of `p`. */
  lemma PrefixOfPrefix(s: string, p: string, q: string)
    requires StartsWith(p, q)
    ensures StartsWith(s, p) ==> StartsWith(s, q)
  {
    if StartsWith(s, p) {
      assert s[..|q|] == p[..|q|];
    }
  }

  /** `t in s` */
  predicate Contains(s: string, t: string)
    decreases |s|
  {
    StartsWith(s, t) || (|s| > 0 && Contains(s[1..], t))
  }

  /** An occurrence of `t` at any offset makes `t in s` true. */
  lemma {:induction false} ContainsAt(s: string, t: string, k: nat)
    requires k <= |s| && StartsWith(s[k..], t)
    ensures Contains(s, t)
    decreases k
  {
    if k > 0 {
      assert s[1..][k - 1..] == s[k..];
      ContainsAt(s[1..], t, k - 1);
    }
  }

  /** `t in s` means `t` occurs at some offset of `s`. */
  lemma {:induction false} ContainsWitness(s: string, t: string) returns (k: nat)
    requires Contains(s, t)
    ensures k <= |s| && StartsWith(s[k..], t)
    decreases |s|
  {
    if StartsWith(s, t) {
      k := 0;
    } else {
      var j := ContainsWitness(s[1..], t);
      assert s[1..][j..] == s[j + 1..];
      k := j + 1;
    }
  }

  /** `parts` glued back together with `c` between consecutive parts. */
  function Join(parts: seq<string>, c: char): string
    requires |parts| >= 1
    decreases |parts|
  {
    if |parts| == 1 then parts[0] else parts[0] + [c] + Join(parts[1..], c)
  }

  /** `s.split(c)` for a one-character separator: never empty, no part holds
      the separator, and joining the parts gives `s` back. */
  function Split(s: string, c: char): (parts: seq<string>)
    ensures |parts| >= 1
    ensures forall i :: 0 <= i < |parts| ==> c !in parts[i]
    ensures Join(parts, c) == s
    decreases |s|
  {
    if |s| == 0 then [""]
    else if s[0] == c then
      var rest := Split(s[1..], c);
      assert [c] + Join(rest, c) == s;
      [""] + rest
    else
      var rest := Split(s[1..], c);
      var parts := [[s[0]] + rest[0]] + rest[1..];
      assert parts[1..] == rest[1..];
      assert |rest| > 1 ==> Join(rest, c) == rest[0] + [c] + Join(rest[1..], c);
      parts
  }

  /** The first part of a split extends every separator-free prefix. */
  lemma {:induction false} SplitHead(s: string, c: char, p: string)
    requires StartsWith(s, p) && c !in p
    ensures StartsWith(Split(s, c)[0], p)
    decreases |p|
  {
    if |p| > 0 {
      assert s[1..][..|p| - 1] == p[1..];
      SplitHead(s[1..], c, p[1..]);
    }
  }

  /** A string without the separator splits into itself. */
  lemma {:induction false} SplitNoSeparator(p: string, c: char)
    requires c !in p
    ensures Split(p, c) == [p]
    decreases |p|
  {
    if |p| > 0 {
      SplitNoSeparator(p[1..], c);
      assert [p[0]] + p[1..] == p;
    }
  }

  /** The first part is everything before the first separator. */
  lemma {:induction false} SplitFirst(p: string, c: char, x: string)
    requires c !in p
    ensures Split(p + [c] + x, c) == [p] + Split(x, c)
    decreases |p|
  {
    if |p| == 0 {
      assert p + [c] + x == [c] + x;
      assert ([c] + x)[1..] == x;
    } else {
      assert (p + [c] + x)[1..] == p[1..] + [c] + x;
      SplitFirst(p[1..], c, x);
      assert [p[0]] + p[1..] == p;
    }
  }

  /** Splitting undoes joining: the inverse direction of the `Split` contract. */
  lemma {:induction false} SplitJoin(parts: seq<string>, c: char)
    requires |parts| >= 1
    requires forall i :: 0 <= i < |parts| ==> c !in parts[i]
    ensures Split(Join(parts, c), c) == parts
    decreases |parts|
  {
    if |parts| == 1 {
      SplitNoSeparator(parts[0], c);
    } else {
      SplitJoin(parts[1..], c);
      SplitFirst(parts[0], c, Join(parts[1..], c));
      assert [parts[0]] + parts[1..] == parts;
    }
  }

  /** A character that is neither the separator nor in any part is not in the join. */
  lemma {:induction false} JoinAvoids(parts: seq<string>, c: char, x: char)
    requires |parts| >= 1 && x != c
    requires forall i :: 0 <= i < |parts| ==> x !in parts[i]
    ensures x !in Join(parts, c)
    decreases |parts|
  {
    if |parts| > 1 {
      JoinAvoids(parts[1..], c, x);
    }
  }

  /** An occurrence in `b` is an occurrence in `a + b`. */
  lemma {:induction false} ContainsSuffix(a: string, b: string, t: string)
    requires Contains(b, t)
    ensures Contains(a + b, t)
    decreases |a|
  {
    if a == [] {
      assert a + b == b;
    } else {
      assert (a + b)[1..] == a[1..] + b;
      ContainsSuffix(a[1..], b, t);
    }
  }

  /** Every part occurs in the join of the parts. */
  lemma {:induction false} JoinContainsPart(parts: seq<string>, c: char, i: nat)
    requires i < |parts|
    ensures Contains(Join(parts, c), parts[i])
    decreases i
  {
    if i == 0 {
      if |parts| > 1 {
        assert Join(parts, c)[..|parts[0]|] == parts[0];
      }
    } else {
      JoinContainsPart(parts[1..], c, i - 1);
      ContainsSuffix(parts[0] + [c], Join(parts[1..], c), parts[i]);
    }
  }

  /** A join starts with its first part's first character. */
  lemma JoinFirst(parts: seq<string>, c: char)
    requires |parts| >= 1 && |parts[0]| > 0
    ensures |Join(parts, c)| > 0 && Join(parts, c)[0] == parts[0][0]
  {
  }

  /** A join ends with its last part's last character. */
  lemma {:induction false} JoinLast(parts: seq<string>, c: char)
    requires |parts| >= 1 && |parts[|parts| - 1]| > 0
    ensures |Join(parts, c)| > 0
    ensures Join(parts, c)[|Join(parts, c)| - 1] == parts[|parts| - 1][|parts[|parts| - 1]| - 1]
    decreases |parts|
  {
    if |parts| > 1 {
      JoinLast(parts[1..], c);
    }
  }

  /** An occurrence of `t` inside a prefix of `s` is an occurrence in `s`. */
  lemma ContainsInPrefix(s: string, p: string, t: string, k: nat)
    requires StartsWith(s, p) && k + |t| <= |p| && p[k..k + |t|] == t
    ensures Contains(s, t)
  {
    assert s[k..][..|t|] == p[k..k + |t|];
    ContainsAt(s, t, k);
  }

  /** `t in s` is false when some character of `t` does not occur in `s`. */
  lemma NotContains(s: string, t: string, k: nat)
    requires k < |t| && t[k] !in s
    ensures !Contains(s, t)
  {
    if Contains(s, t) {
      var j := ContainsWitness(s, t);
    }
  }

  /** A join of separator-free parts whose ends are not blank splits back into
      its parts, is its own strip, and starts with its first part and the separator. */
  lemma JoinShape(parts: seq<string>, c: char)
    requires |parts| >= 2 && !IsSpace(c)
    requires forall i :: 0 <= i < |parts| ==> c !in parts[i]
    requires |parts[0]| > 0 && !IsSpace(parts[0][0])
    requires |parts[|parts| - 1]| > 0 && !IsSpace(parts[|parts| - 1][|parts[|parts| - 1]| - 1])
    ensures Split(Join(parts, c), c) == parts
    ensures Strip(Join(parts, c)) == Join(parts, c)
    ensures StartsWith(Join(parts, c), parts[0] + [c])
  {
    SplitJoin(parts, c);
    JoinFirst(parts, c);
    JoinLast(parts, c);
    StripClean(Join(parts, c));
  }

  predicate IsDigit(c: char)
  {
    '0' <= c <= '9'
  }

  predicate AllDigits(s: string)
  {
    forall k :: 0 <= k < |s| ==> IsDigit(s[k])
  }

  /** The value of a string of decimal digits (most significant first). */
  function DigitsValue(s: string): nat
    requires AllDigits(s)
    decreases |s|
  {
    if s == [] then 0 else 10 * DigitsValue(s[..|s| - 1]) + (s[|s| - 1] as int - '0' as int)
  }

  /** `int(t)`, restricted to the decimal form the board sends: surrounding
      whitespace, at most one sign, then one or more ASCII digits. */
  function ParseInt(t: string): Option<int>
  {
    var u := Strip(t);
    if |u| > 0 && (u[0] == '-' || u[0] == '+') then
      if |u| > 1 && AllDigits(u[1..]) then
        var v: int := DigitsValue(u[1..]);
        Some(if u[0] == '-' then -v else v)
      else None
    else if |u| > 0 && AllDigits(u) then Some(DigitsValue(u))
    else None
  }

  /** `int()` ignores trailing blanks. */
  lemma ParseIntTrimEnd(w: string)
    ensures ParseInt(TrimEnd(w)) == ParseInt(w)
  {
    StripTrimEnd(w);
  }

  /** `int()` ignores surrounding blanks. */
  lemma ParseIntStrip(w: string)
    ensures ParseInt(Strip(w)) == ParseInt(w)
  {
    StripIdempotent(w);
  }

  /** The unsigned decimal forms `float()` accepts: digits with at most one
      point and at least one digit. */
  predicate IsDecimalBody(b: string)
  {
    && (forall k :: 0 <= k < |b| ==> IsDigit(b[k]) || b[k] == '.')
    && multiset(b)['.'] <= 1
    && (exists k :: 0 <= k < |b| && IsDigit(b[k]))
  }

  /** `float(t)` succeeds, restricted to the decimal form the board sends:
      surrounding whitespace, at most one sign, then a decimal body. */
  predicate IsFloatToken(t: string)
  {
    var u := Strip(t);
    if |u| > 0 && (u[0] == '-' || u[0] == '+') then IsDecimalBody(u[1..]) else IsDecimalBody(u)
  }

  function DigitChar(d: nat): (c: char)
    requires d < 10
  {
    ('0' as int + d) as char
  }

  /** `str(n)` for a natural number: the shortest decimal digit string of `n`. */
  function NatToString(n: nat): (s: string)
    ensures |s| > 0 && AllDigits(s)
    ensures DigitsValue(s) == n
    ensures s[0] == '0' ==> n == 0
    decreases n
  {
    if n < 10 then [DigitChar(n)]
    else
      var s := NatToString(n / 10) + [DigitChar(n % 10)];
      assert s[..|s| - 1] == NatToString(n / 10);
      s
  }

  /** `str(i)` for an integer. */
  function IntToString(i: int): string
  {
    if i < 0 then "-" + NatToString(-i) else NatToString(i)
  }

  /** `int(str(i)) == i`: the decimal rendering is read back exactly. */
  lemma ParseIntToString(i: int)
    ensures ParseInt(IntToString(i)) == Some(i)
  {
    var s := IntToString(i);
    StripClean(s);
    if i < 0 {
      assert s[1..] == NatToString(-i);
    }
  }

  /** Distinct integers render differently (so `str(id)` keys identify ids). */
  lemma IntToStringInjective(a: int, b: int)
    requires IntToString(a) == IntToString(b)
    ensures a == b
  {
    ParseIntToString(a);
    ParseIntToString(b);
  }

  /** `str(i)` uses only digits and the minus sign, and is never blank at its ends. */
  lemma IntToStringChars(i: int)
    ensures var s := IntToString(i);
      && |s| > 0 && IsDigit(s[|s| - 1]) && (IsDigit(s[0]) || s[0] == '-')
      && forall k :: 0 <= k < |s| ==> IsDigit(s[k]) || s[k] == '-'
  {
  }

  /** Only 0 renders as "0". */
  lemma IntToStringZero(i: int)
    ensures IntToString(i) == "0" <==> i == 0
  {
    if IntToString(i) == "0" {
      IntToStringInjective(i, 0);
    }
  }
}
