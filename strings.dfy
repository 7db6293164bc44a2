/**
 * The Python string built-ins the core relies on: `str.strip()`, `str.split()`
 * (no separator), `str.split(c)` for a one-character separator, and `sep.join(...)`.
 * Whitespace is the fixed ASCII set below, not Python's full Unicode set.
 */
module Strings {

  /** Space, tab, line feed, carriage return, vertical tab and form feed. */
  predicate IsSpace(c: char) {
    c == ' ' || c == '\t' || c == '\n' || c == '\r' || c == '\U{000B}' || c == '\U{000C}'
  }

  predicate AllSpace(s: string) {
    forall i :: 0 <= i < |s| ==> IsSpace(s[i])
  }

  predicate NoSpace(s: string) {
    forall i :: 0 <= i < |s| ==> !IsSpace(s[i])
  }

  /** A non-empty run of non-whitespace characters: what `str.split()` produces. */
  predicate IsWord(w: string) {
    w != [] && NoSpace(w)
  }

  /** Neither end of `s` is whitespace: what `str.strip()` produces. */
  predicate IsStripped(s: string) {
    s != [] ==> !IsSpace(s[0]) && !IsSpace(s[|s| - 1])
  }

  // ---------------------------------------------------------------- strip

  lemma AllSpaceAppend(a: string, b: string)
    ensures AllSpace(a + b) <==> AllSpace(a) && AllSpace(b)
  {
    if AllSpace(a + b) {
      forall i | 0 <= i < |a| ensures IsSpace(a[i]) {
        assert a[i] == (a + b)[i];
      }
      forall i | 0 <= i < |b| ensures IsSpace(b[i]) {
        assert b[i] == (a + b)[|a| + i];
      }
    }
  }

  lemma SplitAt(s: string, k: nat)
    requires k <= |s|
    ensures s == s[..k] + s[k..]
  {
  }

  /**
   * `s.strip()`: whitespace removed at both ends. It is empty exactly when `s`
   * is all whitespace.
   */
  function Strip(s: string): (r: string)
    ensures IsStripped(r)
    ensures r == [] <==> AllSpace(s)
    decreases |s|
  {
    if s == [] then s
    else if IsSpace(s[0]) then
      SplitAt(s, 1);
      AllSpaceAppend(s[..1], s[1..]);
      Strip(s[1..])
    else if IsSpace(s[|s| - 1]) then
      SplitAt(s, |s| - 1);
      AllSpaceAppend(s[..|s| - 1], s[|s| - 1..]);
      Strip(s[..|s| - 1])
    else s
  }

  /** Every index of `s` in `[lo, hi)` holds whitespace. */
  predicate SpaceBetween(s: string, lo: int, hi: int) {
    forall i :: lo <= i < hi && 0 <= i < |s| ==> IsSpace(s[i])
  }

  /** `r` sits in `s` at offset `a`, with only whitespace around it. */
  predicate SliceAt(r: string, s: string, a: nat) {
    && a + |r| <= |s|
    && (forall i :: 0 <= i < |r| ==> r[i] == s[a + i])
    && SpaceBetween(s, 0, a) && SpaceBetween(s, a + |r|, |s|)
  }

  /**
   * `s.strip()` is the slice of `s` that starts at `a`: everything before it and
   * everything after it is whitespace.
   */
  lemma {:induction false} StripSlice(s: string) returns (a: nat)
    ensures SliceAt(Strip(s), s, a)
    decreases |s|
  {
    if s == [] {
      a := 0;
    } else if IsSpace(s[0]) {
      var b := StripSlice(s[1..]);
      SliceAtFront(Strip(s), s, b);
      a := b + 1;
    } else if IsSpace(s[|s| - 1]) {
      a := StripSlice(s[..|s| - 1]);
      SliceAtBack(Strip(s), s, a);
    } else {
      a := 0;
    }
  }

  lemma SliceAtFront(r: string, s: string, b: nat)
    requires s != [] && IsSpace(s[0]) && SliceAt(r, s[1..], b)
    ensures SliceAt(r, s, b + 1)
  {
    var t := s[1..];
    forall i | 0 <= i < |r| ensures r[i] == s[b + 1 + i] {
      assert t[b + i] == s[b + 1 + i];
    }
    forall i | 0 <= i < b + 1 ensures IsSpace(s[i]) {
      if i > 0 { assert s[i] == t[i - 1]; }
    }
    forall i | b + 1 + |r| <= i < |s| ensures IsSpace(s[i]) {
      assert s[i] == t[i - 1];
    }
  }

  lemma SliceAtBack(r: string, s: string, a: nat)
    requires s != [] && IsSpace(s[|s| - 1]) && SliceAt(r, s[..|s| - 1], a)
    ensures SliceAt(r, s, a)
  {
    var t := s[..|s| - 1];
    forall i | 0 <= i < |r| ensures r[i] == s[a + i] {
      assert t[a + i] == s[a + i];
    }
    forall i | 0 <= i < a ensures IsSpace(s[i]) {
      assert s[i] == t[i];
    }
    forall i | a + |r| <= i < |s| ensures IsSpace(s[i]) {
      if i < |t| { assert s[i] == t[i]; }
    }
  }

  lemma {:induction false} StripOfStripped(s: string)
    requires IsStripped(s)
    ensures Strip(s) == s
  {
  }

  // ---------------------------------------------------------------- split()

  /** Length of the leading run of non-whitespace characters. */
  function WordLen(s: string): (n: nat)
    ensures n <= |s| && NoSpace(s[..n])
    ensures n < |s| ==> IsSpace(s[n])
    ensures s != [] && !IsSpace(s[0]) ==> n >= 1
  {
    if s == [] || IsSpace(s[0]) then 0
    else
      var n := 1 + WordLen(s[1..]);
      assert s[..n] == [s[0]] + s[1..][..n - 1];
      n
  }

  /** `s.split()`: the maximal runs of non-whitespace characters, in order. */
  function Words(s: string): (ws: seq<string>)
    ensures forall i :: 0 <= i < |ws| ==> IsWord(ws[i])
    decreases |s|
  {
    if s == [] then []
    else if IsSpace(s[0]) then Words(s[1..])
    else
      var n := WordLen(s);
      [s[..n]] + Words(s[n..])
  }

  /** `sep.join(ws)` */
  function Join(sep: string, ws: seq<string>): string {
    if ws == [] then []
    else if |ws| == 1 then ws[0]
    else ws[0] + sep + Join(sep, ws[1..])
  }

  /** The characters of `s` that are not whitespace, in order. */
  function NonSpace(s: string): string {
    if s == [] then []
    else (if IsSpace(s[0]) then [] else [s[0]]) + NonSpace(s[1..])
  }

  /** Concatenation of a list of strings (`''.join(ws)`). */
  function Concat(ws: seq<string>): string {
    if ws == [] then [] else ws[0] + Concat(ws[1..])
  }

  lemma {:induction false} WordLenAppend(t: string, q: string)
    requires q == [] || IsSpace(q[0])
    ensures WordLen(t + q) == WordLen(t)
    decreases |t|
  {
    if t == [] {
      assert t + q == q;
    } else if !IsSpace(t[0]) {
      assert (t + q)[1..] == t[1..] + q;
      WordLenAppend(t[1..], q);
    }
  }

  lemma {:induction false} WordLenOfWord(w: string, q: string)
    requires NoSpace(w)
    requires q == [] || IsSpace(q[0])
    ensures WordLen(w + q) == |w|
    decreases |w|
  {
    if w == [] {
      assert w + q == q;
    } else {
      assert (w + q)[1..] == w[1..] + q;
      WordLenOfWord(w[1..], q);
    }
  }

  /** `s.split()` is empty exactly when `s` is all whitespace. */
  lemma {:induction false} WordsEmptyIff(s: string)
    ensures Words(s) == [] <==> AllSpace(s)
    decreases |s|
  {
    if s != [] && IsSpace(s[0]) {
      WordsEmptyIff(s[1..]);
      assert AllSpace(s) <==> AllSpace(s[1..]);
    }
  }

  /** Trailing whitespace does not change `split()`. */
  lemma {:induction false} WordsAppendSpaces(t: string, q: string)
    requires AllSpace(q)
    ensures Words(t + q) == Words(t)
    decreases |t|
  {
    if t == [] {
      assert t + q == q;
      WordsEmptyIff(q);
    } else if IsSpace(t[0]) {
      assert (t + q)[1..] == t[1..] + q;
      WordsAppendSpaces(t[1..], q);
    } else {
      var n := WordLen(t);
      WordLenAppend(t, q);
      assert (t + q)[..n] == t[..n];
      assert (t + q)[n..] == t[n..] + q;
      WordsAppendSpaces(t[n..], q);
    }
  }

  /** `s.strip().split() == s.split()` */
  lemma {:induction false} WordsStrip(s: string)
    ensures Words(Strip(s)) == Words(s)
    decreases |s|
  {
    if s != [] {
      if IsSpace(s[0]) {
        WordsStrip(s[1..]);
      } else if IsSpace(s[|s| - 1]) {
        var t := s[..|s| - 1];
        WordsStrip(t);
        SplitAt(s, |s| - 1);
        WordsAppendSpaces(t, s[|s| - 1..]);
      }
    }
  }

  /** Joining words with single spaces and splitting again gives the words back. */
  lemma {:induction false} WordsOfJoin(ws: seq<string>)
    requires forall i :: 0 <= i < |ws| ==> IsWord(ws[i])
    ensures Words(Join(" ", ws)) == ws
  {
    if |ws| == 1 {
      WordLenOfWord(ws[0], []);
      assert ws[0] + [] == ws[0];
      assert ws[0][..|ws[0]|] == ws[0];
    } else if |ws| > 1 {
      var w, t := ws[0], Join(" ", ws[1..]);
      var r := w + " " + t;
      assert r == w + (" " + t);
      WordLenOfWord(w, " " + t);
      assert r[..|w|] == w;
      assert r[|w|..] == " " + t;
      assert (" " + t)[1..] == t;
      WordsOfJoin(ws[1..]);
      assert ws == [w] + ws[1..];
    }
  }

  lemma {:induction false} NonSpaceAppend(a: string, b: string)
    ensures NonSpace(a + b) == NonSpace(a) + NonSpace(b)
    decreases |a|
  {
    if a == [] {
      assert a + b == b;
    } else {
      assert (a + b)[1..] == a[1..] + b;
      NonSpaceAppend(a[1..], b);
    }
  }

  lemma {:induction false} NonSpaceOfNoSpace(w: string)
    requires NoSpace(w)
    ensures NonSpace(w) == w
    decreases |w|
  {
    if w != [] {
      NonSpaceOfNoSpace(w[1..]);
      assert w == [w[0]] + w[1..];
    }
  }

  /** The words of `s` hold exactly the non-whitespace characters of `s`, in order. */
  lemma {:induction false} NonSpaceWords(s: string)
    ensures Concat(Words(s)) == NonSpace(s)
    decreases |s|
  {
    if s != [] {
      if IsSpace(s[0]) {
        NonSpaceWords(s[1..]);
      } else {
        var n := WordLen(s);
        assert s == s[..n] + s[n..];
        NonSpaceAppend(s[..n], s[n..]);
        NonSpaceOfNoSpace(s[..n]);
        NonSpaceWords(s[n..]);
        assert Words(s)[1..] == Words(s[n..]);
      }
    }
  }

  /** Joining words with spaces adds only whitespace. */
  lemma {:induction false} NonSpaceOfJoin(ws: seq<string>)
    requires forall i :: 0 <= i < |ws| ==> IsWord(ws[i])
    ensures NonSpace(Join(" ", ws)) == Concat(ws)
  {
    if |ws| == 1 {
      NonSpaceOfNoSpace(ws[0]);
      assert Concat(ws[1..]) == [];
      assert ws[0] + [] == ws[0];
    } else if |ws| > 1 {
      var w, t := ws[0], Join(" ", ws[1..]);
      NonSpaceAppend(w + " ", t);
      NonSpaceAppend(w, " ");
      NonSpaceOfNoSpace(w);
      NonSpaceOfJoin(ws[1..]);
      assert NonSpace(" ") == [];
    }
  }

  // ---------------------------------------------------------------- split(c)

  /** Number of occurrences of `c` in `s`. */
  function Count(s: string, c: char): nat {
    if s == [] then 0 else (if s[0] == c then 1 else 0) + Count(s[1..], c)
  }

  /**
   * `s.split(sep)` for a one-character separator: one more piece than there are
   * separators, and no piece contains the separator.
   */
  function SplitOn(s: string, sep: char): (pieces: seq<string>)
    ensures |pieces| == Count(s, sep) + 1
    ensures forall i :: 0 <= i < |pieces| ==> sep !in pieces[i]
  {
    if s == [] then [[]]
    else
      var rest := SplitOn(s[1..], sep);
      if s[0] == sep then [[]] + rest
      else [[s[0]] + rest[0]] + rest[1..]
  }

  /** A string without the separator splits into itself alone. */
  lemma {:induction false} SplitOnWithoutSep(s: string, sep: char)
    requires sep !in s
    ensures SplitOn(s, sep) == [s]
    decreases |s|
  {
    if s != [] {
      assert sep !in s[1..] by {
        forall i | 0 <= i < |s[1..]| ensures s[1..][i] != sep { assert s[1..][i] == s[i + 1]; }
      }
      SplitOnWithoutSep(s[1..], sep);
      assert [s[0]] + s[1..] == s;
    }
  }

  /** `sep.join(s.split(sep)) == s` */
  lemma {:induction false} JoinSplitOn(s: string, sep: char)
    ensures Join([sep], SplitOn(s, sep)) == s
  {
    if s != [] {
      var rest := SplitOn(s[1..], sep);
      JoinSplitOn(s[1..], sep);
      if s[0] == sep {
        assert SplitOn(s, sep)[1..] == rest;
      } else {
        var p := SplitOn(s, sep);
        if |rest| == 1 {
          assert p == [[s[0]] + rest[0]];
        } else {
          assert p[1..] == rest[1..];
          assert Join([sep], rest) == rest[0] + [sep] + Join([sep], rest[1..]);
        }
      }
    }
  }

  // ---------------------------------------------------------------- str(int)

  predicate IsDigit(c: char) {
    '0' <= c <= '9'
  }

  function DigitChar(d: nat): (c: char)
    requires d < 10
    ensures IsDigit(c) && c as int - '0' as int == d
  {
    "0123456789"[d]
  }

  /** `str(n)` for a natural number: its decimal digits, most significant first. */
  function NatToString(n: nat): (r: string)
    ensures r != []
    ensures forall i :: 0 <= i < |r| ==> IsDigit(r[i])
    ensures n >= 10 <==> |r| > 1
    decreases n
  {
    if n < 10 then [DigitChar(n)] else NatToString(n / 10) + [DigitChar(n % 10)]
  }

  /** `str(i)` for any integer: a minus sign before the digits of a negative number. */
  function IntToString(i: int): (r: string)
    ensures r != []
    ensures r[0] == '-' <==> i < 0
  {
    if i < 0 then "-" + NatToString(-i) else NatToString(i)
  }

  /** The value a string of decimal digits denotes. */
  function DigitsValue(s: string): nat
    requires forall i :: 0 <= i < |s| ==> IsDigit(s[i])
  {
    if s == [] then 0
    else
      assert IsDigit(s[|s| - 1]);
      DigitsValue(s[..|s| - 1]) * 10 + (s[|s| - 1] as int - '0' as int)
  }

  /** Reading the decimal digits back gives the number: `int(str(n)) == n`. */
  lemma {:induction false} NatToStringValue(n: nat)
    ensures DigitsValue(NatToString(n)) == n
    decreases n
  {
    if n >= 10 {
      NatToStringValue(n / 10);
      var r := NatToString(n);
      assert r[..|r| - 1] == NatToString(n / 10);
    }
  }
}
