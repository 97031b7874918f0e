/** The string primitives of JavaScript that the application uses, on
    `seq<char>`: `trim`, `toLowerCase`, `startsWith`, `endsWith`, `includes`,
    `split`/`join` on one separator character, `Number.prototype.toString`
    on integers and `parseInt(_, 10)`. Whitespace and letter case are those
    of ASCII. */
module Text {
  import opened Wrappers
  import Sequences

  /** The ASCII characters that `String.prototype.trim` and `parseInt`
      treat as white space: space, tab, line feed, vertical tab, form feed and
      carriage return. */
  predicate IsWhitespace(c: char)
  {
    c == ' ' || c == '\t' || c == '\n' || c == '\U{0B}' || c == '\U{0C}' || c == '\r'
  }

  /** The regular-expression class `\w`: `[A-Za-z0-9_]`. */
  predicate IsWordChar(c: char)
  {
    ('a' <= c <= 'z') || ('A' <= c <= 'Z') || ('0' <= c <= '9') || c == '_'
  }

  predicate IsDigit(c: char)
  {
    '0' <= c <= '9'
  }

  predicate AllWhitespace(s: string)
  {
    forall i :: 0 <= i < |s| ==> IsWhitespace(s[i])
  }

  predicate AllWordChars(s: string)
  {
    forall i :: 0 <= i < |s| ==> IsWordChar(s[i])
  }

  predicate AllDigits(s: string)
  {
    forall i :: 0 <= i < |s| ==> IsDigit(s[i])
  }

  /** Neither end of `s` is white space. */
  predicate IsTrimmed(s: string)
  {
    s == [] || (!IsWhitespace(s[0]) && !IsWhitespace(s[|s| - 1]))
  }

  /** The number of white-space characters `s` starts with. */
  function LeadingSpace(s: string): (n: nat)
    ensures n <= |s| && AllWhitespace(s[..n])
    ensures n < |s| ==> !IsWhitespace(s[n])
  {
    if s != [] && IsWhitespace(s[0]) then
      var n := 1 + LeadingSpace(s[1..]);
      WhitespaceThenRest(s, n);
      n
    else 0
  }

  function TrimStart(s: string): (r: string)
    ensures |r| <= |s| && r == s[|s| - |r|..]
    ensures AllWhitespace(s[..|s| - |r|])
    ensures r != [] ==> !IsWhitespace(r[0])
  {
    s[LeadingSpace(s)..]
  }

  /** A first white-space character followed by `n - 1` more: the first `n`
      characters are white space and the rest is the rest after them. */
  lemma WhitespaceThenRest(s: string, n: nat)
    requires 1 <= n <= |s| && IsWhitespace(s[0]) && AllWhitespace(s[1..][..n - 1])
    ensures AllWhitespace(s[..n])
  {
    forall i | 0 <= i < n
      ensures IsWhitespace(s[..n][i])
    {
      if i > 0 {
        assert s[..n][i] == s[1..][..n - 1][i - 1];
      }
    }
  }

  /** A string that does not start with white space is its own
      `trimStart`. */
  lemma TrimStartUnspaced(s: string)
    requires s == [] || !IsWhitespace(s[0])
    ensures TrimStart(s) == s
  {
    assert LeadingSpace(s) == 0;
  }

  function TrimEnd(s: string): (r: string)
    ensures |r| <= |s| && r == s[..|r|]
    ensures AllWhitespace(s[|r|..])
    ensures r != [] ==> !IsWhitespace(r[|r| - 1])
  {
    if s != [] && IsWhitespace(s[|s| - 1]) then TrimEnd(s[..|s| - 1]) else s
  }

  /** `s.trim()`: `s` with the white space at both ends removed. */
  function Trim(s: string): (r: string)
    ensures IsTrimmed(r) && |r| <= |s|
  {
    TrimEnd(TrimStart(s))
  }

  /** `trim` removes white space only: the input is the result with white
      space before and after it. */
  lemma TrimShape(s: string) returns (i: nat)
    ensures i + |Trim(s)| <= |s|
    ensures s == s[..i] + Trim(s) + s[i + |Trim(s)|..]
    ensures AllWhitespace(s[..i]) && AllWhitespace(s[i + |Trim(s)|..])
  {
    var t := TrimStart(s);
    var r := TrimEnd(t);
    assert Trim(s) == r;
    i := |s| - |t|;
    CutTwice(s, t, r);
  }

  /** A prefix `r` of a suffix `t` of `s` sits in `s` between the rest of
      both. */
  lemma CutTwice(s: string, t: string, r: string)
    requires |t| <= |s| && t == s[|s| - |t|..]
    requires |r| <= |t| && r == t[..|r|]
    requires AllWhitespace(s[..|s| - |t|]) && AllWhitespace(t[|r|..])
    ensures s == s[..|s| - |t|] + r + s[|s| - |t| + |r|..]
    ensures AllWhitespace(s[|s| - |t| + |r|..])
  {
    var i := |s| - |t|;
    SplitThree(s, i, i + |r|);
    assert s[i..i + |r|] == r;
    assert s[i + |r|..] == t[|r|..];
  }

  lemma SplitThree(s: string, i: nat, j: nat)
    requires i <= j <= |s|
    ensures s == s[..i] + s[i..j] + s[j..]
  {
  }

  lemma {:induction false} TrimStartSkips(x: string, t: string)
    requires AllWhitespace(x)
    requires t == [] || !IsWhitespace(t[0])
    ensures TrimStart(x + t) == t
  {
    if x != [] {
      assert (x + t)[1..] == x[1..] + t;
      TrimStartSkips(x[1..], t);
    }
  }

  lemma {:induction false} TrimEndSkips(t: string, y: string)
    requires AllWhitespace(y)
    requires t == [] || !IsWhitespace(t[|t| - 1])
    ensures TrimEnd(t + y) == t
  {
    if y != [] {
      assert (t + y)[..|t + y| - 1] == t + y[..|y| - 1];
      TrimEndSkips(t, y[..|y| - 1]);
    }
  }

  /** Trimming is determined by the trimmed core: whatever white space
      surrounds a trimmed string, `trim` gives back that string. */
  lemma TrimUnique(x: string, r: string, y: string)
    requires AllWhitespace(x) && AllWhitespace(y) && IsTrimmed(r)
    ensures Trim(x + r + y) == r
  {
    if r == [] {
      assert x + r + y == x + y;
      TrimStartSkips(x + y, []);
      assert x + y + [] == x + y;
    } else {
      assert x + r + y == x + (r + y);
      TrimStartSkips(x, r + y);
      TrimEndSkips(r, y);
    }
  }

  /** A string with no white space at either end is its own trimmed form. */
  lemma TrimTrimmed(s: string)
    requires IsTrimmed(s)
    ensures Trim(s) == s
  {
    TrimUnique([], s, []);
    assert [] + s + [] == s;
  }

  /** Every character of the trimmed form comes from the input. */
  lemma TrimInside(s: string)
    ensures forall k :: 0 <= k < |Trim(s)| ==> Trim(s)[k] in s
  {
    var i := TrimShape(s);
    InfixInside(s[..i], Trim(s), s[i + |Trim(s)|..]);
  }

  lemma InfixInside(x: string, r: string, y: string)
    ensures forall k :: 0 <= k < |r| ==> r[k] in x + r + y
  {
    forall k | 0 <= k < |r| ensures r[k] in x + r + y {
      assert (x + r + y)[|x| + k] == r[k];
    }
  }

  /** `trim` is idempotent. */
  lemma TrimIdempotent(s: string)
    ensures Trim(Trim(s)) == Trim(s)
  {
    TrimTrimmed(Trim(s));
  }

  lemma AllWhitespaceConcat(u: string, v: string)
    requires AllWhitespace(u) && AllWhitespace(v)
    ensures AllWhitespace(u + v)
  {
    forall k | 0 <= k < |u + v| ensures IsWhitespace((u + v)[k]) {
      if k >= |u| { assert (u + v)[k] == v[k - |u|]; }
    }
  }

  lemma Regroup(a: string, x: string, r: string, y: string, b: string)
    ensures a + (x + r + y) + b == (a + x) + r + (y + b)
  {
  }

  /** White space added around a string does not change its trimmed form. */
  lemma TrimPadded(a: string, s: string, b: string)
    requires AllWhitespace(a) && AllWhitespace(b)
    ensures Trim(a + s + b) == Trim(s)
  {
    var r := Trim(s);
    var i := TrimShape(s);
    var x, y := s[..i], s[i + |r|..];
    assert s == x + r + y;
    Regroup(a, x, r, y, b);
    AllWhitespaceConcat(a, x);
    AllWhitespaceConcat(y, b);
    TrimUnique(a + x, r, y + b);
  }

  function LowerChar(c: char): char
  {
    if 'A' <= c <= 'Z' then (c as int - 'A' as int + 'a' as int) as char else c
  }

  /** `s.toLowerCase()` on ASCII letters. */
  function ToLower(s: string): (r: string)
    ensures |r| == |s|
    ensures forall i :: 0 <= i < |s| ==> r[i] == LowerChar(s[i])
  {
    seq(|s|, i requires 0 <= i < |s| => LowerChar(s[i]))
  }

  lemma ToLowerIdempotent(s: string)
    ensures ToLower(ToLower(s)) == ToLower(s)
  {
  }

  /** `s.startsWith(p)`. */
  predicate StartsWith(s: string, p: string)
  {
    |p| <= |s| && s[..|p|] == p
  }

  /** `s.endsWith(p)`. */
  predicate EndsWith(s: string, p: string)
  {
    |p| <= |s| && s[|s| - |p|..] == p
  }

  /** `s.includes(sub)`: `sub` starts at some position of `s`. */
  predicate Contains(s: string, sub: string)
  {
    StartsWith(s, sub) || (s != [] && Contains(s[1..], sub))
  }

  /** A match at position `i` is a match of `includes`. */
  lemma {:induction false} ContainsAt(s: string, i: nat, sub: string)
    requires i <= |s| && StartsWith(s[i..], sub)
    ensures Contains(s, sub)
  {
    if i > 0 {
      assert s[1..][i - 1..] == s[i..];
      ContainsAt(s[1..], i - 1, sub);
    }
  }

  lemma ContainsInfix(a: string, b: string, c: string)
    ensures Contains(a + b + c, b)
  {
    var s := a + b + c;
    assert s[|a|..][..|b|] == b;
    ContainsAt(s, |a|, b);
  }

  /** `s.slice(from, to)` for non-negative bounds: bounds beyond the end are
      clamped and an empty range gives the empty string. */
  function Slice(s: string, from: nat, to: nat): (r: string)
    ensures from <= to <= |s| ==> r == s[from..to]
    ensures to <= from ==> r == ""
  {
    var b := if to <= |s| then to else |s|;
    if from < b then s[from..b] else ""
  }

  lemma StartsWithConcat(a: string, b: string)
    ensures StartsWith(a + b, a)
  {
    assert (a + b)[..|a|] == a;
  }

  /** A prefix of `s` is a prefix of every extension of `s`. */
  lemma StartsWithAppend(s: string, p: string, x: string)
    requires StartsWith(s, p)
    ensures StartsWith(s + x, p)
  {
    assert (s + x)[..|p|] == s[..|p|];
  }

  lemma EndsWithConcat(a: string, b: string)
    ensures EndsWith(a + b, b)
  {
    assert (a + b)[|a + b| - |b|..] == b;
  }

  /** The number of occurrences of `c` in `s`. */
  function Count(s: string, c: char): nat
  {
    if s == [] then 0 else (if s[0] == c then 1 else 0) + Count(s[1..], c)
  }

  /** `s.split(sep)` for a one-character separator: the maximal runs between
      separators, one more piece than there are separators. */
  function Split(s: string, sep: char): (r: seq<string>)
    ensures |r| == Count(s, sep) + 1
    ensures forall k :: 0 <= k < |r| ==> sep !in r[k]
  {
    if s == [] then [""]
    else if s[0] == sep then [""] + Split(s[1..], sep)
    else
      var rest := Split(s[1..], sep);
      [[s[0]] + rest[0]] + rest[1..]
  }

  /** `parts.join(sep)`. */
  function Join(parts: seq<string>, sep: string): string
  {
    if parts == [] then ""
    else if |parts| == 1 then parts[0]
    else parts[0] + sep + Join(parts[1..], sep)
  }

  /** Joining the pieces of a split with the same separator gives back the
      original string. */
  lemma {:induction false} JoinSplit(s: string, sep: char)
    ensures Join(Split(s, sep), [sep]) == s
  {
    if s == [] {
    } else if s[0] == sep {
      JoinSplit(s[1..], sep);
      assert s == [sep] + s[1..];
    } else {
      JoinSplit(s[1..], sep);
      var rest := Split(s[1..], sep);
      if |rest| == 1 {
        assert s == [s[0]] + rest[0];
      } else {
        assert rest == [rest[0]] + rest[1..];
        assert Join(rest, [sep]) == rest[0] + [sep] + Join(rest[1..], [sep]);
        assert s == [s[0]] + s[1..];
      }
    }
  }

  /** Splitting a join of separator-free pieces gives back the pieces. */
  lemma {:induction false} SplitJoin(parts: seq<string>, sep: char)
    requires parts != []
    requires forall k :: 0 <= k < |parts| ==> sep !in parts[k]
    ensures Split(Join(parts, [sep]), sep) == parts
  {
    if |parts| == 1 {
      SplitNoSep(parts[0], sep);
    } else {
      SplitJoin(parts[1..], sep);
      SplitPrefix(parts[0], Join(parts[1..], [sep]), sep);
      assert parts == [parts[0]] + parts[1..];
    }
  }

  lemma {:induction false} SplitNoSep(s: string, sep: char)
    requires sep !in s
    ensures Split(s, sep) == [s]
  {
    if s != [] {
      assert s[0] != sep && sep !in s[1..];
      SplitNoSep(s[1..], sep);
      assert s == [s[0]] + s[1..];
    }
  }

  /** Splitting `a + sep + b` with `sep` not in `a` puts `a` first. */
  lemma {:induction false} SplitPrefix(a: string, b: string, sep: char)
    requires sep !in a
    ensures Split(a + [sep] + b, sep) == [a] + Split(b, sep)
  {
    if a == [] {
      assert a + [sep] + b == [sep] + b;
      assert ([sep] + b)[1..] == b;
    } else {
      assert (a + [sep] + b)[1..] == a[1..] + [sep] + b;
      SplitPrefix(a[1..], b, sep);
      assert a == [a[0]] + a[1..];
    }
  }

  function DigitChar(d: nat): char
    requires d < 10
  {
    ('0' as int + d) as char
  }

  function DigitValue(c: char): nat
    requires IsDigit(c)
  {
    c as int - '0' as int
  }

  /** The decimal representation of a natural number, as `n.toString()`
      writes it: no sign, no leading zeros. */
  function NatToString(n: nat): (r: string)
    ensures r != [] && AllDigits(r)
    ensures |r| > 1 ==> r[0] != '0'
  {
    if n < 10 then [DigitChar(n)] else NatToString(n / 10) + [DigitChar(n % 10)]
  }

  /** `n.toString()` on an integer. */
  function IntToString(n: int): string
  {
    if n < 0 then "-" + NatToString(-n) else NatToString(n)
  }

  /** The value of a non-empty run of decimal digits. */
  function DigitsValue(ds: string): nat
    requires AllDigits(ds)
  {
    if ds == [] then 0 else DigitsValue(ds[..|ds| - 1]) * 10 + DigitValue(ds[|ds| - 1])
  }

  /** The longest prefix of `s` made of digits. */
  function LeadingDigits(s: string): (r: string)
    ensures AllDigits(r) && StartsWith(s, r)
    ensures |r| < |s| ==> !IsDigit(s[|r|])
  {
    if s != [] && IsDigit(s[0]) then [s[0]] + LeadingDigits(s[1..]) else ""
  }

  /** `parseInt(s, 10)`: leading white space is skipped, one optional sign is
      read, then the longest run of digits; with no digit at all the result is
      `NaN`, modelled as `None`. */
  function ParseInt(s: string): Option<int>
  {
    ParseSigned(TrimStart(s))
  }

  /** `parseInt` after the leading white space: an optional sign, then
      digits. */
  function ParseSigned(t: string): Option<int>
  {
    if t != [] && t[0] == '-' then
      match ParseDigits(t[1..])
      case None => None
      case Some(m) => Some(-m)
    else if t != [] && t[0] == '+' then ParseDigits(t[1..])
    else ParseDigits(t)
  }

  /** The value of the leading digits of `u`, `None` when there are none. */
  function ParseDigits(u: string): Option<int>
  {
    var ds := LeadingDigits(u);
    if ds == [] then None else Some(DigitsValue(ds))
  }

  lemma {:induction false} DigitsOfNatToString(n: nat)
    ensures DigitsValue(NatToString(n)) == n
  {
    if n >= 10 {
      DigitsOfNatToString(n / 10);
      var s := NatToString(n / 10) + [DigitChar(n % 10)];
      assert s[..|s| - 1] == NatToString(n / 10);
    }
  }

  lemma {:induction false} LeadingDigitsOfDigits(s: string, rest: string)
    requires AllDigits(s)
    requires rest == [] || !IsDigit(rest[0])
    ensures LeadingDigits(s + rest) == s
  {
    if s != [] {
      assert (s + rest)[1..] == s[1..] + rest;
      LeadingDigitsOfDigits(s[1..], rest);
    }
  }

  /** `parseInt` reads back what `toString` writes. */
  lemma ParseIntOfIntToString(n: int)
    ensures ParseInt(IntToString(n)) == Some(n)
  {
    if n < 0 {
      ParseNegative(n);
    } else {
      ParseUnsigned(n);
    }
  }

  /** The digits `toString` writes parse back to their value. */
  lemma ParseDigitsOfNat(n: nat)
    ensures ParseDigits(NatToString(n)) == Some(n)
  {
    var ds := NatToString(n);
    DigitsOfNatToString(n);
    LeadingDigitsOfDigits(ds, []);
    assert ds + [] == ds;
  }

  lemma ParseUnsigned(n: nat)
    ensures ParseInt(IntToString(n)) == Some(n)
  {
    var ds := NatToString(n);
    assert IntToString(n) == ds;
    TrimStartUnspaced(ds);
    assert ParseSigned(ds) == ParseDigits(ds) by {
      assert !(ds[0] == '-' || ds[0] == '+');
    }
    ParseDigitsOfNat(n);
  }

  lemma ParseNegative(n: int)
    requires n < 0
    ensures ParseInt(IntToString(n)) == Some(n)
  {
    assert IntToString(n) == "-" + NatToString(-n);
    ParseDigitsOfNat(-n);
    MinusParses(NatToString(-n), -n);
  }

  /** A minus sign in front of digits that parse to `m` parses to `-m`. */
  lemma MinusParses(ds: string, m: int)
    requires ParseDigits(ds) == Some(m)
    ensures ParseInt("-" + ds) == Some(-m)
  {
    var s := "-" + ds;
    assert s[0] == '-' && s[1..] == ds;
    TrimStartUnspaced(s);
  }

  predicate NotWhitespace(c: char)
  {
    !IsWhitespace(c)
  }

  /** `s.replace(/\s/g, '')` on ASCII white space: the characters of `s`
      that are not white space, in order. */
  function RemoveWhitespace(s: string): (r: string)
    ensures forall i :: 0 <= i < |r| ==> !IsWhitespace(r[i])
    ensures forall i :: 0 <= i < |s| && !IsWhitespace(s[i]) ==> s[i] in r
    ensures Sequences.IsSubsequence(r, s)
    ensures forall c :: multiset(r)[c] == if IsWhitespace(c) then 0 else multiset(s)[c]
  {
    Sequences.FilterMultiplicity(s, NotWhitespace);
    Sequences.Filter(s, NotWhitespace)
  }
}
