/**
 * The parts of java.lang.String and java.lang.Long that the services rely on:
 * contains, startsWith, indexOf, substring bounds, trim, toLowerCase,
 * toUpperCase, split on a single character, replace of one character by
 * nothing, decimal rendering of integers and Long.parseLong.
 */
module JavaText {
  import opened Wrappers

  const MinLong: int := -0x8000_0000_0000_0000
  const MaxLong: int := 0x7FFF_FFFF_FFFF_FFFF

  /** `t` occurs in `s` starting at index `i`. */
  ghost predicate OccursAt(s: string, t: string, i: int) {
    0 <= i && i + |t| <= |s| && s[i..i + |t|] == t
  }

  /** String.startsWith */
  predicate StartsWith(s: string, prefix: string) {
    |prefix| <= |s| && s[..|prefix|] == prefix
  }

  /** String.contains: some occurrence of `t` in `s`. */
  function Contains(s: string, t: string): (r: bool)
    ensures r <==> exists i :: OccursAt(s, t, i)
    decreases |s|
  {
    if StartsWith(s, t) then
      assert OccursAt(s, t, 0);
      true
    else if |s| == 0 then
      false
    else
      var r := Contains(s[1..], t);
      ContainsStep(s, t, r);
      r
  }

  /** An occurrence in `s[1..]` is an occurrence in `s` shifted by one. */
  lemma ContainsStep(s: string, t: string, tail: bool)
    requires |s| > 0 && !StartsWith(s, t)
    requires tail <==> exists i :: OccursAt(s[1..], t, i)
    ensures tail <==> exists i :: OccursAt(s, t, i)
  {
    if tail {
      var i :| OccursAt(s[1..], t, i);
      assert s[1..][i..i + |t|] == s[i + 1..i + 1 + |t|];
      assert OccursAt(s, t, i + 1);
    }
    if exists i :: OccursAt(s, t, i) {
      var i :| OccursAt(s, t, i);
      assert i != 0;
      assert s[1..][i - 1..i - 1 + |t|] == s[i..i + |t|];
      assert OccursAt(s[1..], t, i - 1);
    }
  }

  /** An occurrence inside a piece is an occurrence in any text around it. */
  lemma ContainsInfix(a: string, s: string, b: string, t: string)
    requires Contains(s, t)
    ensures Contains(a + s + b, t)
  {
    var i :| OccursAt(s, t, i);
    assert (a + s + b)[|a| + i..|a| + i + |t|] == s[i..i + |t|];
    assert OccursAt(a + s + b, t, |a| + i);
  }

  /** Appending to a string keeps its prefixes. */
  lemma PrefixAppend(s: string, c: string, p: string)
    requires StartsWith(s, p)
    ensures StartsWith(s + c, p)
  {
    assert (s + c)[..|p|] == s[..|p|];
  }

  /** A prefix of the middle part, after the same head, is a prefix of the whole. */
  lemma PrefixInside(a: string, b: string, c: string, p: string)
    requires StartsWith(b, p)
    ensures StartsWith(a + b + c, a + p)
  {
    assert (a + b + c)[..|a + p|] == a + b[..|p|];
  }

  /** What a prefix contains, the whole string contains. */
  lemma ContainsInPrefix(s: string, prefix: string, t: string)
    requires StartsWith(s, prefix) && Contains(prefix, t)
    ensures Contains(s, t)
  {
    var i :| OccursAt(prefix, t, i);
    assert s[i..i + |t|] == s[..|prefix|][i..i + |t|];
    assert OccursAt(s, t, i);
  }

  /** The first occurrence of `t` at an index at least `i`, or -1. */
  function FindFrom(s: string, t: string, i: nat): (r: int)
    ensures r == -1 || (i <= r && OccursAt(s, t, r))
    ensures forall j :: i <= j && (r == -1 || j < r) ==> !OccursAt(s, t, j)
    decreases |s| - i
  {
    if i + |t| > |s| then -1
    else if s[i..i + |t|] == t then i
    else FindFrom(s, t, i + 1)
  }

  /**
   * String.indexOf(t, from): the least index >= from where `t` occurs, or -1.
   * A negative `from` searches from 0; a `from` at or past the end finds only
   * the empty string, at the end.
   */
  function IndexOf(s: string, t: string, from: int): (r: int)
    ensures r == -1 || ((from <= r || (t == "" && r == |s|)) && OccursAt(s, t, r))
    ensures forall j :: from <= j && (r == -1 || j < r) ==> !OccursAt(s, t, j)
  {
    if from >= |s| then
      if |t| == 0 then |s| else -1
    else
      FindFrom(s, t, if from < 0 then 0 else from)
  }

  /** Java's String.trim removes every character up to U+0020 from both ends. */
  predicate IsTrimmed(c: char) {
    c <= ' '
  }

  /** Index of the first character kept by trim. */
  function TrimStart(s: string): (r: nat)
    ensures r <= |s|
    ensures forall k :: 0 <= k < r ==> IsTrimmed(s[k])
    ensures r < |s| ==> !IsTrimmed(s[r])
    decreases |s|
  {
    if |s| == 0 || !IsTrimmed(s[0]) then 0 else 1 + TrimStart(s[1..])
  }

  /** One past the last character kept by trim. */
  function TrimEnd(s: string): (r: nat)
    ensures r <= |s|
    ensures forall k :: r <= k < |s| ==> IsTrimmed(s[k])
    ensures 0 < r ==> !IsTrimmed(s[r - 1])
    decreases |s|
  {
    if |s| == 0 || !IsTrimmed(s[|s| - 1]) then |s| else TrimEnd(s[..|s| - 1])
  }

  /** String.trim */
  function Trim(s: string): (r: string)
    ensures |r| <= |s|
    ensures r == "" || (!IsTrimmed(r[0]) && !IsTrimmed(r[|r| - 1]))
    ensures r == "" <==> forall k :: 0 <= k < |s| ==> IsTrimmed(s[k])
    ensures exists b :: StripsTo(s, b, r)
  {
    var b, e := TrimStart(s), TrimEnd(s);
    if b < e then
      assert StripsTo(s, b, s[b..e]);
      s[b..e]
    else
      assert StripsTo(s, 0, "");
      ""
  }

  /** Trimming never brings in a character the text does not have. */
  lemma TrimKeepsOut(s: string, c: char)
    requires c !in s
    ensures c !in Trim(s)
  {
    var r := Trim(s);
    var b :| StripsTo(s, b, r);
    forall i | 0 <= i < |r|
      ensures r[i] != c
    {
      assert r[i] == s[b + i];
    }
  }

  /** `r` is the piece of `s` at `b` with nothing but trimmed characters before and after it. */
  ghost predicate StripsTo(s: string, b: int, r: string) {
    && 0 <= b <= |s| - |r| && r == s[b..b + |r|]
    && (forall k :: 0 <= k < b ==> IsTrimmed(s[k]))
    && (forall k :: b + |r| <= k < |s| ==> IsTrimmed(s[k]))
  }

  /** indexOf(t) is the first occurrence when nothing matches before it. */
  lemma IndexOfFirst(s: string, t: string, i: nat)
    requires OccursAt(s, t, i)
    requires forall j :: 0 <= j < i ==> !OccursAt(s, t, j)
    ensures IndexOf(s, t, 0) == i
  {
  }

  /** Searching for `c` from `from` skips a run `v` without `c` and stops right after it. */
  lemma IndexOfCharAfter(s: string, c: char, from: nat, v: string)
    requires from + |v| < |s| && s[from..from + |v|] == v && c !in v && s[from + |v|] == c
    ensures IndexOf(s, [c], from) == from + |v|
  {
    assert OccursAt(s, [c], from + |v|);
    forall j | from <= j < from + |v|
      ensures !OccursAt(s, [c], j)
    {
      assert s[j] == v[j - from];
      assert s[j..j + 1] == [s[j]];
    }
  }

  /** An occurrence at or after `start` is an occurrence in the suffix from `start`. */
  lemma OccursInSuffix(s: string, t: string, start: nat, k: int)
    requires start <= |s|
    ensures start <= k && OccursAt(s, t, k) ==> OccursAt(s[start..], t, k - start)
  {
    if start <= k && OccursAt(s, t, k) {
      assert s[start..][k - start..k - start + |t|] == s[k..k + |t|];
    }
  }

  /** A text with a kept character at both ends is its own trim. */
  lemma TrimOfTrimmed(s: string)
    requires s == "" || (!IsTrimmed(s[0]) && !IsTrimmed(s[|s| - 1]))
    ensures Trim(s) == s
  {
  }

  /**
   * Character.toLowerCase for the characters the model covers: ASCII A-Z and
   * the Latin-1 capitals U+00C0..U+00DE except the multiplication sign.
   */
  function LowerChar(c: char): char {
    if 'A' <= c <= 'Z' || ('À' <= c <= 'Þ' && c != '×') then
      (c as int + 32) as char
    else
      c
  }

  /** String.toLowerCase (root locale), character by character. */
  function ToLower(s: string): (r: string)
    ensures |r| == |s|
    ensures forall i :: 0 <= i < |s| ==> r[i] == LowerChar(s[i])
  {
    seq(|s|, i requires 0 <= i < |s| => LowerChar(s[i]))
  }

  /**
   * String.toUpperCase (root locale) of one character, for ASCII and Latin-1:
   * the sharp s becomes "SS", y with diaeresis and the micro sign leave Latin-1.
   */
  function UpperChars(c: char): string {
    if 'a' <= c <= 'z' || ('à' <= c <= 'þ' && c != '÷') then
      [(c as int - 32) as char]
    else if c == 'ß' then "SS"
    else if c == 'ÿ' then "Ÿ"
    else if c == 'µ' then "Μ"
    else [c]
  }

  /** String.toUpperCase (root locale). */
  function ToUpper(s: string): (r: string)
    ensures |s| <= |r|
    ensures s == "" <==> r == ""
  {
    if s == [] then [] else UpperChars(s[0]) + ToUpper(s[1..])
  }

  /** Upper-casing distributes over concatenation. */
  lemma {:induction false} ToUpperConcat(a: string, b: string)
    ensures ToUpper(a + b) == ToUpper(a) + ToUpper(b)
  {
    if a != [] {
      var c := a[0];
      assert (a + b)[0] == c && (a + b)[1..] == a[1..] + b;
      ToUpperConcat(a[1..], b);
      calc {
        ToUpper(a + b);
        UpperChars(c) + ToUpper(a[1..] + b);
        UpperChars(c) + (ToUpper(a[1..]) + ToUpper(b));
        (UpperChars(c) + ToUpper(a[1..])) + ToUpper(b);
      }
    } else {
      assert a + b == b;
    }
  }

  /** What one character upper-cases to is already upper case. */
  lemma UpperCharsFixed(c: char)
    ensures ToUpper(UpperChars(c)) == UpperChars(c)
  {
    var u := UpperChars(c);
    if |u| == 1 {
      assert ToUpper(u) == UpperChars(u[0]) + ToUpper(u[1..]);
    } else {
      assert u == "SS";
      assert ToUpper(u) == UpperChars('S') + ToUpper(u[1..]);
    }
  }

  /** Upper-casing twice is upper-casing once. */
  lemma {:induction false} ToUpperIdempotent(s: string)
    ensures ToUpper(ToUpper(s)) == ToUpper(s)
  {
    if s != [] {
      ToUpperIdempotent(s[1..]);
      ToUpperConcat(UpperChars(s[0]), ToUpper(s[1..]));
      UpperCharsFixed(s[0]);
    }
  }

  function DigitChar(d: nat): char
    requires d < 10
  {
    ('0' as int + d) as char
  }

  predicate IsDigit(c: char) {
    '0' <= c <= '9'
  }

  predicate AllDigits(s: string) {
    forall i :: 0 <= i < |s| ==> IsDigit(s[i])
  }

  /** Decimal digits of a natural number, most significant first, no leading zeros. */
  function NatToString(n: nat): (r: string)
    ensures |r| > 0 && AllDigits(r)
    ensures r[0] == '0' ==> n == 0
  {
    if n < 10 then [DigitChar(n)] else NatToString(n / 10) + [DigitChar(n % 10)]
  }

  /** Integer.toString / Long.toString / "%d" */
  function IntToString(n: int): (r: string)
    ensures |r| > 0
  {
    if n < 0 then "-" + NatToString(-n) else NatToString(n)
  }

  /** A rendered integer is an optional minus sign followed by digits. */
  lemma IntToStringChars(n: int)
    ensures forall i :: 0 <= i < |IntToString(n)| ==> IntToString(n)[i] == '-' || IsDigit(IntToString(n)[i])
    ensures IsDigit(IntToString(n)[|IntToString(n)| - 1])
  {
    if n < 0 {
      var d := NatToString(-n);
      assert IntToString(n) == "-" + d;
      assert forall i :: 1 <= i < |IntToString(n)| ==> IntToString(n)[i] == d[i - 1];
    }
  }

  /** The value of a run of decimal digits. */
  function DigitsValue(s: string): nat
    requires AllDigits(s)
  {
    if s == [] then 0
    else
      assert IsDigit(s[|s| - 1]);
      DigitsValue(s[..|s| - 1]) * 10 + (s[|s| - 1] as int - '0' as int)
  }

  /** Long.parseLong: an optional sign, at least one digit, within 64 bits. */
  function ParseLong(s: string): (r: Option<int>)
    ensures r.Some? ==> MinLong <= r.value <= MaxLong
    ensures r.Some? ==> |s| > 0 && (IsDigit(s[0]) || s[0] == '-' || s[0] == '+')
  {
    if |s| == 0 then None
    else
      var signed := s[0] == '-' || s[0] == '+';
      var digits := if signed then s[1..] else s;
      if |digits| == 0 || !AllDigits(digits) then None
      else
        var v: int := if s[0] == '-' then -(DigitsValue(digits) as int) else DigitsValue(digits);
        if MinLong <= v <= MaxLong then Some(v) else None
  }

  lemma {:induction false} DigitsOfNat(n: nat)
    ensures DigitsValue(NatToString(n)) == n
  {
    if n >= 10 {
      DigitsOfNat(n / 10);
      var s := NatToString(n);
      assert s[..|s| - 1] == NatToString(n / 10);
    }
  }

  /** Rendering a 64-bit integer and parsing it back gives the integer. */
  lemma ParseLongOfIntToString(n: int)
    requires MinLong <= n <= MaxLong
    ensures ParseLong(IntToString(n)) == Some(n)
  {
    var s := IntToString(n);
    if n < 0 {
      var d := NatToString(-n);
      DigitsOfNat(-n);
      assert s[0] == '-' && s[1..] == d;
    } else {
      DigitsOfNat(n);
      assert IsDigit(s[0]);
    }
  }

  /** String.replace(c, "") */
  function RemoveChar(s: string, c: char): (r: string)
    ensures c !in r
    ensures |r| <= |s|
    ensures forall x :: x in r ==> x in s
  {
    if s == [] then []
    else if s[0] == c then RemoveChar(s[1..], c)
    else [s[0]] + RemoveChar(s[1..], c)
  }

  /** A text without `c` is left as it is. */
  lemma {:induction false} RemoveAbsent(s: string, c: char)
    requires c !in s
    ensures RemoveChar(s, c) == s
  {
    if s != [] {
      RemoveAbsent(s[1..], c);
    }
  }

  /** Removal distributes over concatenation. */
  lemma {:induction false} RemoveConcat(a: string, b: string, c: char)
    ensures RemoveChar(a + b, c) == RemoveChar(a, c) + RemoveChar(b, c)
  {
    if a != [] {
      assert (a + b)[0] == a[0];
      assert (a + b)[1..] == a[1..] + b;
      RemoveConcat(a[1..], b, c);
    } else {
      assert a + b == b;
    }
  }

  /** Every piece between separators, including empty ones. */
  function SplitAll(s: string, sep: char): (parts: seq<string>)
    ensures |parts| > 0
    ensures forall i :: 0 <= i < |parts| ==> sep !in parts[i]
  {
    if s == [] then [""]
    else
      var rest := SplitAll(s[1..], sep);
      if s[0] == sep then [""] + rest else [[s[0]] + rest[0]] + rest[1..]
  }

  /** Drops the empty pieces at the end, as String.split with no limit does. */
  function DropTrailingEmpty(parts: seq<string>): (r: seq<string>)
    ensures |r| <= |parts| && r == parts[..|r|]
    ensures r == [] || r[|r| - 1] != ""
  {
    if |parts| > 0 && parts[|parts| - 1] == "" then DropTrailingEmpty(parts[..|parts| - 1]) else parts
  }

  /** The parts with the separator between each two of them. */
  function Join(parts: seq<string>, sep: char): string {
    if |parts| == 0 then ""
    else if |parts| == 1 then parts[0]
    else parts[0] + [sep] + Join(parts[1..], sep)
  }

  /** `n` copies of a character. */
  function Repeat(c: char, n: nat): (r: string)
    ensures |r| == n && forall i :: 0 <= i < n ==> r[i] == c
  {
    if n == 0 then [] else Repeat(c, n - 1) + [c]
  }

  /** Joining every piece between separators gives the text back. */
  lemma {:induction false} JoinSplitAll(s: string, sep: char)
    ensures Join(SplitAll(s, sep), sep) == s
  {
    if s != [] {
      var rest := SplitAll(s[1..], sep);
      JoinSplitAll(s[1..], sep);
      var parts := SplitAll(s, sep);
      if s[0] == sep {
        assert parts[1..] == rest;
        assert [sep] + s[1..] == s;
      } else if |rest| == 1 {
        assert [s[0]] + s[1..] == s;
      } else {
        assert parts[1..] == rest[1..];
        assert [s[0]] + rest[0] + [sep] + Join(rest[1..], sep) == [s[0]] + (rest[0] + [sep] + Join(rest[1..], sep));
        assert [s[0]] + s[1..] == s;
      }
    }
  }

  /** Joining one more part adds a separator and that part. */
  lemma {:induction false} JoinSnoc(parts: seq<string>, x: string, sep: char)
    requires parts != []
    ensures Join(parts + [x], sep) == Join(parts, sep) + [sep] + x
  {
    if |parts| == 1 {
      assert (parts + [x])[1..] == [x];
    } else {
      assert (parts + [x])[1..] == parts[1..] + [x];
      JoinSnoc(parts[1..], x, sep);
      var p, j := parts[0], Join(parts[1..], sep);
      assert p + [sep] + (j + [sep] + x) == p + [sep] + j + [sep] + x;
    }
  }

  /** Dropping the empty parts at the end only drops separators at the end of the joined text. */
  lemma {:induction false} JoinDropTrailing(parts: seq<string>, sep: char)
    ensures exists n: nat :: Join(parts, sep) == Join(DropTrailingEmpty(parts), sep) + Repeat(sep, n)
  {
    if |parts| > 0 && parts[|parts| - 1] == "" {
      var init := parts[..|parts| - 1];
      assert parts == init + [""];
      if init == [] {
        assert Join(parts, sep) == Join(DropTrailingEmpty(parts), sep) + Repeat(sep, 0);
      } else {
        JoinDropTrailing(init, sep);
        var n: nat :| Join(init, sep) == Join(DropTrailingEmpty(init), sep) + Repeat(sep, n);
        JoinSnoc(init, "", sep);
        assert Join(parts, sep) == Join(DropTrailingEmpty(parts), sep) + Repeat(sep, n + 1);
      }
    } else {
      assert Join(parts, sep) == Join(DropTrailingEmpty(parts), sep) + Repeat(sep, 0);
    }
  }

  /**
   * String.split on a single ordinary character: the text itself when the
   * character does not occur, otherwise the pieces without the empty ones at
   * the end. Joined by the separator, the parts give the text back but for
   * the separators that ended it.
   */
  function Split(s: string, sep: char): (parts: seq<string>)
    ensures forall i :: 0 <= i < |parts| ==> sep !in parts[i]
    ensures sep !in s ==> parts == [s]
    ensures sep in s ==> parts == [] || parts[|parts| - 1] != ""
    ensures exists n: nat :: s == Join(parts, sep) + Repeat(sep, n)
  {
    if sep !in s then
      assert s == Join([s], sep) + Repeat(sep, 0);
      [s]
    else
      JoinSplitAll(s, sep);
      JoinDropTrailing(SplitAll(s, sep), sep);
      DropTrailingEmpty(SplitAll(s, sep))
  }

  lemma {:induction false} SplitAllAbsent(s: string, sep: char)
    requires sep !in s
    ensures SplitAll(s, sep) == [s]
  {
    if s != [] {
      assert s[0] != sep;
      SplitAllAbsent(s[1..], sep);
      assert [s[0]] + s[1..] == s;
    }
  }

  /** A text that does not end with the separator has a non-empty last piece. */
  lemma {:induction false} SplitAllLast(s: string, sep: char)
    requires s != "" && s[|s| - 1] != sep
    ensures var parts := SplitAll(s, sep); parts[|parts| - 1] != ""
  {
    if |s| > 1 {
      SplitAllLast(s[1..], sep);
    }
  }

  /** A piece without the separator, then the separator, then the rest. */
  lemma {:induction false} SplitAllPrefix(a: string, b: string, sep: char)
    requires sep !in a
    ensures SplitAll(a + [sep] + b, sep) == [a] + SplitAll(b, sep)
  {
    if a == [] {
      assert (a + [sep] + b)[1..] == b;
    } else {
      assert (a + [sep] + b)[0] == a[0];
      assert (a + [sep] + b)[1..] == a[1..] + [sep] + b;
      SplitAllPrefix(a[1..], b, sep);
      assert [a[0]] + a[1..] == a;
    }
  }

  /** "a:b" with neither part holding ':' and a non-empty `b` splits into [a, b]. */
  lemma SplitPair(a: string, b: string, sep: char)
    requires sep !in a && sep !in b && b != ""
    ensures Split(a + [sep] + b, sep) == [a, b]
  {
    assert sep in a + [sep] + b by { assert (a + [sep] + b)[|a|] == sep; }
    SplitAllPrefix(a, b, sep);
    SplitAllAbsent(b, sep);
  }

  /**
   * "a:b:c" where `c` does not end with the separator (it may hold more of
   * them) splits into at least three parts, so it is never a key/value pair.
   */
  lemma SplitThree(a: string, b: string, c: string, sep: char)
    requires sep !in a && sep !in b && c != "" && c[|c| - 1] != sep
    ensures |Split(a + [sep] + b + [sep] + c, sep)| >= 3
  {
    var s := a + [sep] + b + [sep] + c;
    assert s[|a|] == sep;
    assert s == a + [sep] + (b + [sep] + c);
    SplitAllPrefix(a, b + [sep] + c, sep);
    SplitAllPrefix(b, c, sep);
    SplitAllLast(c, sep);
    var parts := SplitAll(s, sep);
    assert parts == [a, b] + SplitAll(c, sep);
    assert DropTrailingEmpty(parts) == parts;
  }

  /** Three pieces without the separator, joined by it, split back into those pieces. */
  lemma SplitTriple(a: string, b: string, c: string, sep: char)
    requires sep !in a && sep !in b && sep !in c && c != ""
    ensures Split(a + [sep] + b + [sep] + c, sep) == [a, b, c]
  {
    var s := a + [sep] + b + [sep] + c;
    assert s[|a|] == sep;
    assert s == a + [sep] + (b + [sep] + c);
    SplitAllPrefix(a, b + [sep] + c, sep);
    SplitAllPrefix(b, c, sep);
    SplitAllAbsent(c, sep);
  }
}
