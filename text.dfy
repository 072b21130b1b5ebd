/**
 * The few Python string operations the argument handling relies on:
 * `str.strip()`, `str.split(sep)`, `str.rsplit(sep, maxsplit)`, `sep.join(...)`
 * and the `str.lower() == "none"` test, each for a single-character separator.
 */
module Text {
  import opened Wrappers

  /** Python's `str.isspace()` for one character (the Unicode whitespace set). */
  predicate IsSpace(c: char) {
    var n := c as int;
    || n == 0x20 || 0x09 <= n <= 0x0D || 0x1C <= n <= 0x1F || n == 0x85 || n == 0xA0
    || n == 0x1680 || 0x2000 <= n <= 0x200A || n == 0x2028 || n == 0x2029
    || n == 0x202F || n == 0x205F || n == 0x3000
  }

  predicate AllSpace(s: string) {
    forall i :: 0 <= i < |s| ==> IsSpace(s[i])
  }

  /** True when `s` has no whitespace at either end: what `strip()` leaves. */
  predicate Stripped(s: string) {
    s != [] ==> !IsSpace(s[0]) && !IsSpace(s[|s| - 1])
  }

  /** `str.lstrip()`: `s` without its leading whitespace. */
  function TrimStart(s: string): (r: string)
    ensures |r| <= |s|
    ensures r != [] ==> !IsSpace(r[0])
  {
    if s != [] && IsSpace(s[0]) then TrimStart(s[1..]) else s
  }

  /** `lstrip()` removes a whitespace prefix and keeps the rest as it is. */
  lemma {:induction false} TrimStartSuffix(s: string)
    ensures var r := TrimStart(s);
      r == s[|s| - |r|..] && AllSpace(s[..|s| - |r|])
  {
    if s != [] && IsSpace(s[0]) {
      TrimStartSuffix(s[1..]);
      var r := TrimStart(s[1..]);
      assert s[..|s| - |r|] == [s[0]] + s[1..][..|s| - 1 - |r|];
    }
  }

  /** `str.rstrip()`: `s` without its trailing whitespace. */
  function TrimEnd(s: string): (r: string)
    ensures |r| <= |s|
    ensures r != [] ==> !IsSpace(r[|r| - 1]) && r[0] == s[0]
  {
    if s != [] && IsSpace(s[|s| - 1]) then TrimEnd(s[..|s| - 1]) else s
  }

  /** `rstrip()` removes a whitespace suffix and keeps the rest as it is. */
  lemma {:induction false} TrimEndPrefix(s: string)
    ensures var r := TrimEnd(s);
      r == s[..|r|] && AllSpace(s[|r|..])
  {
    if s != [] && IsSpace(s[|s| - 1]) {
      TrimEndPrefix(s[..|s| - 1]);
      var r := TrimEnd(s[..|s| - 1]);
      assert s[|r|..] == s[..|s| - 1][|r|..] + [s[|s| - 1]];
    }
  }

  /** `str.strip()`: `s` without its leading and trailing whitespace. */
  function Strip(s: string): (r: string)
    ensures Stripped(r)
  {
    TrimEnd(TrimStart(s))
  }

  /** What `strip()` removes is whitespace at the two ends and nothing else. */
  lemma StripMargins(s: string)
    ensures var i := |s| - |TrimStart(s)|; var r := Strip(s);
      && i + |r| <= |s| && s[i..i + |r|] == r
      && AllSpace(s[..i]) && AllSpace(s[i + |r|..])
  {
    var t := TrimStart(s);
    var r := TrimEnd(t);
    var i := |s| - |t|;
    TrimStartSuffix(s);
    TrimEndPrefix(t);
    assert t == s[i..];
    assert r == t[..|r|];
    assert s[i..i + |r|] == r;
    assert s[i + |r|..] == t[|r|..];
  }

  /** `strip()` only removes characters: a character of the result is one of `s`. */
  lemma StripSubset(s: string, c: char)
    requires c in Strip(s)
    ensures c in s
  {
    StripMargins(s);
    var i := |s| - |TrimStart(s)|;
    var r := Strip(s);
    var k :| 0 <= k < |r| && r[k] == c;
    assert s[i..i + |r|][k] == c;
  }

  lemma {:induction false} TrimStartOfSpaces(p: string, t: string)
    requires AllSpace(p)
    requires t == [] || !IsSpace(t[0])
    ensures TrimStart(p + t) == t
  {
    if p != [] {
      assert (p + t)[1..] == p[1..] + t;
      TrimStartOfSpaces(p[1..], t);
    }
  }

  lemma {:induction false} TrimEndOfSpaces(t: string, q: string)
    requires AllSpace(q)
    requires t == [] || !IsSpace(t[|t| - 1])
    ensures TrimEnd(t + q) == t
  {
    if q != [] {
      assert (t + q)[..|t + q| - 1] == t + q[..|q| - 1];
      TrimEndOfSpaces(t, q[..|q| - 1]);
    } else {
      assert t + q == t;
    }
  }

  /**
   * `strip()` is characterised by its result: whenever `s` is some whitespace,
   * then a piece with no whitespace at its ends, then more whitespace, that
   * piece is what `strip()` returns.
   */
  lemma StripUnique(p: string, m: string, q: string)
    requires AllSpace(p) && AllSpace(q) && Stripped(m)
    ensures Strip(p + m + q) == m
  {
    if m == [] {
      assert p + m + q == p + q;
      assert AllSpace(p + q);
      TrimStartOfSpaces(p + q, []);
      assert p + q + [] == p + q;
    } else {
      assert p + m + q == p + (m + q);
      TrimStartOfSpaces(p, m + q);
      TrimEndOfSpaces(m, q);
    }
  }

  /** Stripping twice is stripping once. */
  lemma StripIdempotent(s: string)
    ensures Strip(Strip(s)) == Strip(s)
  {
    var m := Strip(s);
    assert [] + m + [] == m;
    StripUnique([], m, []);
  }

  /** Applies `strip()` to every element, as the list comprehensions do. */
  function StripAll(xs: seq<string>): (r: seq<string>)
    ensures |r| == |xs|
    ensures forall i :: 0 <= i < |xs| ==> r[i] == Strip(xs[i])
  {
    seq(|xs|, i requires 0 <= i < |xs| => Strip(xs[i]))
  }

  /** The number of occurrences of `c` in `s` (`s.count(c)`). */
  function Count(s: string, c: char): (n: nat)
    ensures n <= |s|
    ensures n == 0 <==> c !in s
  {
    if s == [] then 0 else (if s[0] == c then 1 else 0) + Count(s[1..], c)
  }

  lemma {:induction false} CountAppend(a: string, b: string, c: char)
    ensures Count(a + b, c) == Count(a, c) + Count(b, c)
  {
    if a != [] {
      assert (a + b)[1..] == a[1..] + b;
      CountAppend(a[1..], b, c);
    } else {
      assert a + b == b;
    }
  }

  /** `sep.join(pieces)`. */
  function Join(pieces: seq<string>, sep: char): string {
    if |pieces| == 0 then []
    else if |pieces| == 1 then pieces[0]
    else pieces[0] + [sep] + Join(pieces[1..], sep)
  }

  lemma {:induction false} JoinAppend(pieces: seq<string>, p: string, sep: char)
    requires |pieces| >= 1
    ensures Join(pieces + [p], sep) == Join(pieces, sep) + [sep] + p
  {
    if |pieces| > 1 {
      assert (pieces + [p])[1..] == pieces[1..] + [p];
      JoinAppend(pieces[1..], p, sep);
    } else {
      assert (pieces + [p])[1..] == [p];
    }
  }

  /**
   * `s.split(sep)`: the pieces between the occurrences of `sep`. There is
   * always one more piece than separators, and no piece holds the separator.
   */
  function Split(s: string, sep: char): (r: seq<string>)
    ensures |r| == Count(s, sep) + 1
    ensures forall i :: 0 <= i < |r| ==> sep !in r[i]
  {
    if s == [] then [[]]
    else
      var rest := Split(s[1..], sep);
      if s[0] == sep then [[]] + rest else [[s[0]] + rest[0]] + rest[1..]
  }

  /** Joining the pieces of a split with the same separator gives back the string. */
  lemma {:induction false} JoinSplit(s: string, sep: char)
    ensures Join(Split(s, sep), sep) == s
  {
    if s != [] {
      var rest := Split(s[1..], sep);
      JoinSplit(s[1..], sep);
      if s[0] == sep {
        assert ([[]] + rest)[1..] == rest;
      } else if |rest| > 1 {
        assert ([[s[0]] + rest[0]] + rest[1..])[1..] == rest[1..];
      }
    }
  }

  /** Splitting a join of separator-free pieces gives back the pieces. */
  lemma {:induction false} SplitJoin(pieces: seq<string>, sep: char)
    requires |pieces| >= 1
    requires forall i :: 0 <= i < |pieces| ==> sep !in pieces[i]
    ensures Split(Join(pieces, sep), sep) == pieces
  {
    if |pieces| == 1 {
      SplitNoSep(pieces[0], sep);
    } else {
      SplitJoin(pieces[1..], sep);
      SplitPrefixed(pieces[0], Join(pieces[1..], sep), sep);
      assert [pieces[0]] + pieces[1..] == pieces;
    }
  }

  lemma {:induction false} SplitNoSep(s: string, sep: char)
    requires sep !in s
    ensures Split(s, sep) == [s]
  {
    if s != [] {
      SplitNoSep(s[1..], sep);
      assert [s[0]] + s[1..] == s;
    }
  }

  lemma {:induction false} SplitPrefixed(a: string, b: string, sep: char)
    requires sep !in a
    ensures Split(a + [sep] + b, sep) == [a] + Split(b, sep)
  {
    if a == [] {
      assert a + [sep] + b == [sep] + b;
      assert ([sep] + b)[1..] == b;
    } else {
      assert (a + [sep] + b)[1..] == a[1..] + [sep] + b;
      SplitPrefixed(a[1..], b, sep);
      assert [a[0]] + a[1..] == a;
    }
  }

  /** The position of the last `c` in `s`, if any. */
  function LastIndexOf(s: string, c: char): (r: Option<nat>)
    ensures r.None? <==> c !in s
    ensures r.Some? ==> r.value < |s| && s[r.value] == c && c !in s[r.value + 1..]
  {
    if s == [] then None
    else if s[|s| - 1] == c then Some(|s| - 1)
    else
      var r := LastIndexOf(s[..|s| - 1], c);
      assert r.Some? ==> s[r.value + 1..] == s[..|s| - 1][r.value + 1..] + [s[|s| - 1]];
      assert r.None? ==> s == s[..|s| - 1] + [s[|s| - 1]];
      r
  }

  /**
   * `s.rsplit(sep, maxsplit)`: splits at the last `maxsplit` occurrences of
   * `sep`, leaving any earlier ones in the first piece.
   */
  function RSplit(s: string, sep: char, maxsplit: nat): (r: seq<string>)
    ensures 1 <= |r| <= maxsplit + 1
    ensures forall i :: 1 <= i < |r| ==> sep !in r[i]
    ensures |r| <= maxsplit ==> sep !in r[0]
  {
    if maxsplit == 0 then [s]
    else
      match LastIndexOf(s, sep)
      case None => [s]
      case Some(i) => RSplit(s[..i], sep, maxsplit - 1) + [s[i + 1..]]
  }

  /** A string is what comes before position `i`, the character there, and what follows. */
  lemma CutAt(s: string, i: nat)
    requires i < |s|
    ensures s == s[..i] + [s[i]] + s[i + 1..]
  {
  }

  /** Joining the pieces of an rsplit gives back the string. */
  lemma {:induction false} JoinRSplit(s: string, sep: char, maxsplit: nat)
    ensures Join(RSplit(s, sep, maxsplit), sep) == s
  {
    if maxsplit > 0 {
      match LastIndexOf(s, sep)
      case None =>
      case Some(i) =>
        var front := RSplit(s[..i], sep, maxsplit - 1);
        assert RSplit(s, sep, maxsplit) == front + [s[i + 1..]];
        JoinRSplit(s[..i], sep, maxsplit - 1);
        JoinAppend(front, s[i + 1..], sep);
        CutAt(s, i);
    }
  }

  function Min(a: nat, b: nat): nat { if a <= b then a else b }

  /** An rsplit makes as many cuts as it is allowed to and the string has separators. */
  lemma {:induction false} RSplitLength(s: string, sep: char, maxsplit: nat)
    ensures |RSplit(s, sep, maxsplit)| == Min(Count(s, sep), maxsplit) + 1
  {
    LastIndexCount(s, sep);
    if maxsplit > 0 && LastIndexOf(s, sep).Some? {
      var i := LastIndexOf(s, sep).value;
      RSplitLength(s[..i], sep, maxsplit - 1);
    }
  }

  /** The last occurrence of `c` is preceded by all the others. */
  lemma LastIndexCount(s: string, c: char)
    ensures LastIndexOf(s, c).None? ==> Count(s, c) == 0
    ensures LastIndexOf(s, c).Some? ==> Count(s, c) == Count(s[..LastIndexOf(s, c).value], c) + 1
  {
    if LastIndexOf(s, c).Some? {
      var i := LastIndexOf(s, c).value;
      CountCut(s, i, c);
      assert Count(s[i + 1..], c) == 0;
    }
  }

  /** The occurrences of `c` before, at and after position `i`. */
  lemma CountCut(s: string, i: nat, c: char)
    requires i < |s|
    ensures Count(s, c) == Count(s[..i], c) + (if s[i] == c then 1 else 0) + Count(s[i + 1..], c)
  {
    CutAt(s, i);
    CountAppend(s[..i] + [s[i]], s[i + 1..], c);
    CountAppend(s[..i], [s[i]], c);
    assert [s[i]][1..] == [];
  }


  /** The ASCII part of `str.lower()` on one character. */
  function LowerChar(c: char): (r: char)
    ensures 'A' <= c <= 'Z' ==> 'a' <= r <= 'z'
  {
    if 'A' <= c <= 'Z' then (c as int + 32) as char else c
  }

  function Lower(s: string): (r: string)
    ensures |r| == |s|
    ensures forall i :: 0 <= i < |s| ==> r[i] == LowerChar(s[i])
  {
    seq(|s|, i requires 0 <= i < |s| => LowerChar(s[i]))
  }

  /** `s.lower() == "none"` holds exactly for the sixteen spellings of "none". */
  lemma LowerIsNone(s: string)
    ensures Lower(s) == "none" <==>
      |s| == 4 && s[0] in "nN" && s[1] in "oO" && s[2] in "nN" && s[3] in "eE"
  {
    if |s| == 4 && s[0] in "nN" && s[1] in "oO" && s[2] in "nN" && s[3] in "eE" {
      assert Lower(s) == "none";
    }
    if Lower(s) == "none" {
      assert Lower(s)[0] == 'n' && Lower(s)[1] == 'o' && Lower(s)[2] == 'n' && Lower(s)[3] == 'e';
    }
  }
}
