/**
 * The string built-ins of JavaScript that the sequencer relies on, for the
 * forms in which it uses them: `startsWith`, `split` on a one-character
 * separator, the regular expression `/\d+/`, `parseInt` on a run of decimal
 * digits and the conversion of an integer to its decimal text.
 */
module Text {
  import opened Wrappers

  /** `s.startsWith(p)`. */
  predicate StartsWith(s: string, p: string) {
    p <= s
  }

  // ---------------------------------------------------------------------
  // split

  /** The inverse of `Split`: the pieces with the separator between them (`parts.join(c)`). */
  function Join(parts: seq<string>, c: char): string
    requires |parts| >= 1
  {
    if |parts| == 1 then parts[0] else parts[0] + [c] + Join(parts[1..], c)
  }

  lemma JoinCons(first: string, rest: seq<string>, c: char)
    requires |rest| >= 1
    ensures Join([first] + rest, c) == first + [c] + Join(rest, c)
  {
    assert ([first] + rest)[1..] == rest;
  }

  /**
   * `s.split(c)` for a one-character separator: the maximal pieces between
   * separators, including empty ones at either end.
   */
  function Split(s: string, c: char): (parts: seq<string>)
    ensures |parts| >= 1
    ensures forall i :: 0 <= i < |parts| ==> c !in parts[i]
    ensures Join(parts, c) == s
  {
    if s == [] then [[]]
    else
      var rest := Split(s[1..], c);
      if s[0] == c then
        assert ([[]] + rest)[1..] == rest;
        [[]] + rest
      else
        var parts := [[s[0]] + rest[0]] + rest[1..];
        assert parts[1..] == rest[1..];
        assert |rest| > 1 ==> Join(rest, c) == rest[0] + [c] + Join(rest[1..], c);
        parts
  }

  lemma {:induction false} SplitWithoutSeparator(s: string, c: char)
    requires c !in s
    ensures Split(s, c) == [s]
  {
    if s != [] {
      SplitWithoutSeparator(s[1..], c);
    }
  }

  /** Splitting distributes over a separator: the pieces of `a` followed by the pieces of `b`. */
  lemma {:induction false} SplitAround(a: string, b: string, c: char)
    ensures Split(a + [c] + b, c) == Split(a, c) + Split(b, c)
  {
    var s := a + [c] + b;
    if a == [] {
      assert s[0] == c && s[1..] == b;
    } else {
      assert s[0] == a[0] && s[1..] == a[1..] + [c] + b;
      SplitAround(a[1..], b, c);
    }
  }

  /** `Split` is determined by `Join`: separator-free pieces come back unchanged. */
  lemma {:induction false} SplitJoin(parts: seq<string>, c: char)
    requires |parts| >= 1
    requires forall i :: 0 <= i < |parts| ==> c !in parts[i]
    ensures Split(Join(parts, c), c) == parts
  {
    if |parts| == 1 {
      SplitWithoutSeparator(parts[0], c);
    } else {
      SplitWithoutSeparator(parts[0], c);
      SplitJoin(parts[1..], c);
      SplitAround(parts[0], Join(parts[1..], c), c);
    }
  }

  // ---------------------------------------------------------------------
  // decimal digits

  /** `\d` in a JavaScript regular expression without the `u` flag. */
  predicate IsDigit(ch: char) {
    '0' <= ch <= '9'
  }

  predicate AllDigits(s: string) {
    forall i :: 0 <= i < |s| ==> IsDigit(s[i])
  }

  function DigitValue(ch: char): (d: nat)
    requires IsDigit(ch)
    ensures d < 10
  {
    ch as int - '0' as int
  }

  function DigitChar(d: nat): (ch: char)
    requires d < 10
    ensures IsDigit(ch) && DigitValue(ch) == d
  {
    ('0' as int + d) as char
  }

  /** `parseInt(ds)` for a string of decimal digits. */
  function Value(ds: string): nat
    requires AllDigits(ds)
  {
    if ds == [] then 0 else Value(ds[..|ds| - 1]) * 10 + DigitValue(ds[|ds| - 1])
  }

  /** The decimal text of a natural number, without leading zeros. */
  function DecimalText(n: nat): (s: string)
    ensures s != [] && AllDigits(s)
    ensures s[0] == '0' ==> s == "0"
    ensures Value(s) == n
  {
    if n < 10 then
      [DigitChar(n)]
    else
      var s := DecimalText(n / 10) + [DigitChar(n % 10)];
      assert s[..|s| - 1] == DecimalText(n / 10);
      s
  }

  /** The decimal text of an integer as a JavaScript template literal renders it (`${i}`). */
  function IntText(i: int): (s: string)
    ensures s != []
    ensures i >= 0 ==> AllDigits(s) && Value(s) == i
    ensures i < 0 ==> s[0] == '-' && AllDigits(s[1..]) && Value(s[1..]) == -i
    ensures i >= 0 ==> (s[0] == '0' ==> s == "0")
    ensures i < 0 ==> |s| >= 2 && s[1] != '0'
  {
    if i < 0 then
      var s := "-" + DecimalText(-i);
      assert s[1..] == DecimalText(-i);
      s
    else DecimalText(i)
  }

  /** The run of digits that starts at `i` ends at `e` and cannot be extended. */
  function RunEnd(s: string, i: nat): (e: nat)
    requires i <= |s|
    ensures i <= e <= |s|
    ensures forall j :: i <= j < e ==> IsDigit(s[j])
    ensures e == |s| || !IsDigit(s[e])
    decreases |s| - i
  {
    if i < |s| && IsDigit(s[i]) then RunEnd(s, i + 1) else i
  }

  /** The position of the first digit at or after `from`. */
  function FirstDigit(s: string, from: nat): (r: Option<nat>)
    requires from <= |s|
    ensures r.None? <==> forall j :: from <= j < |s| ==> !IsDigit(s[j])
    ensures r.Some? ==> from <= r.value < |s| && IsDigit(s[r.value])
    ensures r.Some? ==> forall j :: from <= j < r.value ==> !IsDigit(s[j])
    decreases |s| - from
  {
    if from == |s| then None
    else if IsDigit(s[from]) then Some(from)
    else FirstDigit(s, from + 1)
  }

  /** `s[i..e]` is the leftmost, longest run of digits in `s`. */
  ghost predicate IsFirstDigitRun(s: string, i: int, e: int) {
    0 <= i < e <= |s|
    && (forall j :: 0 <= j < i ==> !IsDigit(s[j]))
    && (forall j :: i <= j < e ==> IsDigit(s[j]))
    && (e == |s| || !IsDigit(s[e]))
  }

  /** `s.match(/\d+/)`: the leftmost, longest run of decimal digits, if there is one. */
  function MatchDigits(s: string): (m: Option<string>)
    ensures m.None? <==> forall j :: 0 <= j < |s| ==> !IsDigit(s[j])
    ensures m.Some? ==> m.value != [] && AllDigits(m.value)
    ensures m.Some? ==> exists i, e :: IsFirstDigitRun(s, i, e) && m.value == s[i..e]
  {
    match FirstDigit(s, 0)
    case None => None
    case Some(i) =>
      var e := RunEnd(s, i);
      assert IsFirstDigitRun(s, i, e);
      Some(s[i..e])
  }

  /** There is only one leftmost, longest run of digits. */
  lemma FirstDigitRunUnique(s: string, i: int, e: int, i': int, e': int)
    requires IsFirstDigitRun(s, i, e) && IsFirstDigitRun(s, i', e')
    ensures i == i' && e == e'
  {
    assert IsDigit(s[i]) && IsDigit(s[i']);
    if e < |s| { assert !IsDigit(s[e]); }
    if e' < |s| { assert !IsDigit(s[e']); }
  }

  /** A digit-free text followed by a number and a digit-free tail matches exactly that number. */
  lemma {:induction false} MatchDigitsOfNumber(pre: string, n: nat, post: string)
    requires forall j :: 0 <= j < |pre| ==> !IsDigit(pre[j])
    requires post == [] || !IsDigit(post[0])
    ensures MatchDigits(pre + DecimalText(n) + post) == Some(DecimalText(n))
  {
    var s := pre + DecimalText(n) + post;
    var d := DecimalText(n);
    assert s[|pre|..|pre| + |d|] == d;
    assert IsFirstDigitRun(s, |pre|, |pre| + |d|) by {
      forall j | 0 <= j < |pre| ensures !IsDigit(s[j]) { assert s[j] == pre[j]; }
      forall j | |pre| <= j < |pre| + |d| ensures IsDigit(s[j]) { assert s[j] == d[j - |pre|]; }
      if |pre| + |d| < |s| { assert s[|pre| + |d|] == post[0]; }
    }
    var m := MatchDigits(s);
    assert m.Some? by { assert IsDigit(s[|pre|]); }
    var i, e :| IsFirstDigitRun(s, i, e) && m.value == s[i..e];
    FirstDigitRunUnique(s, i, e, |pre|, |pre| + |d|);
  }
}
