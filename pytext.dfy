/**
 * The few pieces of Python's string and list semantics the modelled code relies on:
 * `str.isspace`, `strip`, `split()`, `split(sep)`, `splitlines`, `int(...)`, `str(int)`
 * and list indexing with negative indices.
 */
module PyText {
  import opened Wrappers

  /** `c.isspace()` in Python 3. */
  predicate IsSpace(c: char) {
    var n := c as int;
    (9 <= n <= 13) || (28 <= n <= 32) || n == 0x85 || n == 0xA0 || n == 0x1680
    || (0x2000 <= n <= 0x200A) || n == 0x2028 || n == 0x2029 || n == 0x202F
    || n == 0x205F || n == 0x3000
  }

  /** The line boundaries recognised by `str.splitlines`. */
  predicate IsLineBreak(c: char) {
    var n := c as int;
    (10 <= n <= 13) || (28 <= n <= 30) || n == 0x85 || n == 0x2028 || n == 0x2029
  }

  /** ASCII letters and digits: the `[A-Za-z]` and `\d` classes of the chain grammar. */
  predicate IsLetter(c: char) { 'A' <= c <= 'Z' || 'a' <= c <= 'z' }
  predicate IsDigit(c: char) { '0' <= c <= '9' }

  predicate AllDigits(s: string) { forall i :: 0 <= i < |s| ==> IsDigit(s[i]) }
  predicate AllLetters(s: string) { forall i :: 0 <= i < |s| ==> IsLetter(s[i]) }
  predicate NoSpace(s: string) { forall i :: 0 <= i < |s| ==> !IsSpace(s[i]) }
  predicate NoLineBreak(s: string) { forall i :: 0 <= i < |s| ==> !IsLineBreak(s[i]) }

  /** Length of the run of non-white-space characters starting at `i`. */
  function WordRun(s: string, i: nat): (n: nat)
    requires i <= |s|
    ensures i + n <= |s|
    ensures forall k :: i <= k < i + n ==> !IsSpace(s[k])
    ensures i + n == |s| || IsSpace(s[i + n])
    decreases |s| - i
  {
    if i < |s| && !IsSpace(s[i]) then 1 + WordRun(s, i + 1) else 0
  }

  /** Length of the run of characters other than line boundaries starting at `i`. */
  function LineRun(s: string, i: nat): (n: nat)
    requires i <= |s|
    ensures i + n <= |s|
    ensures forall k :: i <= k < i + n ==> !IsLineBreak(s[k])
    ensures i + n == |s| || IsLineBreak(s[i + n])
    decreases |s| - i
  {
    if i < |s| && !IsLineBreak(s[i]) then 1 + LineRun(s, i + 1) else 0
  }

  /** `s.lstrip()`: a suffix of `s` from which exactly the leading white space is gone. */
  function LStrip(s: string): (r: string)
    ensures |r| <= |s| && r == s[|s| - |r|..]
    ensures forall i :: 0 <= i < |s| - |r| ==> IsSpace(s[i])
    ensures r == [] || !IsSpace(r[0])
  {
    if s != [] && IsSpace(s[0]) then LStrip(s[1..]) else s
  }

  /** `s.rstrip()`: a prefix of `s` from which exactly the trailing white space is gone. */
  function RStrip(s: string): (r: string)
    ensures |r| <= |s| && r == s[..|r|]
    ensures forall i :: |r| <= i < |s| ==> IsSpace(s[i])
    ensures r == [] || !IsSpace(r[|r| - 1])
  {
    if s != [] && IsSpace(s[|s| - 1]) then RStrip(s[..|s| - 1]) else s
  }

  /** `s.strip()`. */
  function Strip(s: string): string { RStrip(LStrip(s)) }

  lemma StripNoSpace(s: string)
    requires NoSpace(s)
    ensures Strip(s) == s
  {
    if s != [] {
      assert !IsSpace(s[0]);
      assert !IsSpace(s[|s| - 1]);
    }
  }

  /** A word of `s.split()`: non-empty and free of white space. */
  predicate IsWord(w: string) { w != [] && NoSpace(w) }

  /** `s.split()`: the maximal runs of non-white-space characters, in order. */
  function SplitWs(s: string): (r: seq<string>)
    ensures forall k :: 0 <= k < |r| ==> IsWord(r[k])
  {
    SplitFrom(s, 0)
  }

  /** The words of `s[i..]`. */
  function SplitFrom(s: string, i: nat): (r: seq<string>)
    requires i <= |s|
    ensures forall k :: 0 <= k < |r| ==> IsWord(r[k])
    decreases |s| - i
  {
    if i == |s| then []
    else if IsSpace(s[i]) then SplitFrom(s, i + 1)
    else
      var n := WordRun(s, i);
      WordAt(s, i);
      ConsWords(s[i..i + n], SplitFrom(s, i + n));
      [s[i..i + n]] + SplitFrom(s, i + n)
  }

  lemma WordAt(s: string, i: nat)
    requires i < |s| && !IsSpace(s[i])
    ensures WordRun(s, i) >= 1 && IsWord(s[i..i + WordRun(s, i)])
  {
    var w := s[i..i + WordRun(s, i)];
    forall k | 0 <= k < |w| ensures !IsSpace(w[k]) {
      assert w[k] == s[i + k];
    }
  }

  lemma ConsWords(w: string, rest: seq<string>)
    requires IsWord(w) && forall k :: 0 <= k < |rest| ==> IsWord(rest[k])
    ensures forall k :: 0 <= k < |[w] + rest| ==> IsWord(([w] + rest)[k])
  {
  }

  /** `sep` occurs in `s` at position `k`. */
  predicate OccursAt(s: string, sep: string, k: nat) {
    k + |sep| <= |s| && s[k..k + |sep|] == sep
  }

  /** `s.find(sep, i)`: the first occurrence of `sep` at or after `i`. */
  function FindFrom(s: string, sep: string, i: nat): (r: Option<nat>)
    requires i <= |s|
    ensures r.Some? ==> i <= r.value && OccursAt(s, sep, r.value)
    ensures r.Some? ==> forall k :: i <= k < r.value ==> !OccursAt(s, sep, k)
    ensures r.None? ==> forall k :: i <= k <= |s| ==> !OccursAt(s, sep, k)
    decreases |s| - i
  {
    if OccursAt(s, sep, i) then Some(i)
    else if i == |s| then None
    else FindFrom(s, sep, i + 1)
  }

  function Find(s: string, sep: string): (r: Option<nat>)
    ensures r.Some? ==> OccursAt(s, sep, r.value)
    ensures r.Some? ==> forall k :: 0 <= k < r.value ==> !OccursAt(s, sep, k)
    ensures r.None? ==> forall k :: 0 <= k <= |s| ==> !OccursAt(s, sep, k)
  {
    FindFrom(s, sep, 0)
  }

  predicate Contains(s: string, sep: string) { Find(s, sep).Some? }

  predicate HasChar(s: string, c: char) { exists i :: 0 <= i < |s| && s[i] == c }

  /**
   * `s.split(sep)` for a non-empty separator: the pieces between the
   * non-overlapping occurrences of `sep`, found from left to right.
   */
  function SplitOn(s: string, sep: string): (r: seq<string>)
    requires |sep| > 0
    ensures |r| >= 1
    decreases |s|
  {
    match Find(s, sep)
    case None => [s]
    case Some(k) => [s[..k]] + SplitOn(s[k + |sep|..], sep)
  }

  /**
   * Piece 1 of `s.split(sep)` is the text after the first occurrence of `sep`,
   * up to the next occurrence of `sep` or the end; there is a piece 1 exactly when
   * `sep` occurs.
   */
  lemma SplitOnSecond(s: string, sep: string)
    requires |sep| > 0
    ensures |SplitOn(s, sep)| >= 2 <==> Contains(s, sep)
    ensures Contains(s, sep) ==>
      var k := Find(s, sep).value;
      var rest := s[k + |sep|..];
      SplitOn(s, sep)[1] == (match Find(rest, sep) case None => rest case Some(j) => rest[..j])
  {
  }

  /** `sep.join(xs)`. */
  function Join(xs: seq<string>, sep: string): string {
    if xs == [] then "" else if |xs| == 1 then xs[0] else xs[0] + sep + Join(xs[1..], sep)
  }

  /** Splitting on a one-character separator undoes joining pieces that do not contain it. */
  lemma {:induction false} SplitOnJoin(xs: seq<string>, c: char)
    requires |xs| >= 1
    requires forall k :: 0 <= k < |xs| ==> !HasChar(xs[k], c)
    ensures SplitOn(Join(xs, [c]), [c]) == xs
  {
    if |xs| == 1 {
      CharAbsent(xs[0], c);
    } else {
      var s := Join(xs, [c]);
      var rest := Join(xs[1..], [c]);
      assert s == xs[0] + ([c] + rest);
      CharFirst(s, xs[0], c);
      assert s[|xs[0]| + 1..] == rest;
      SplitOnJoin(xs[1..], c);
    }
  }

  lemma CharAbsent(s: string, c: char)
    requires !HasChar(s, c)
    ensures Find(s, [c]) == None
  {
    var sep := [c];
    forall k | 0 <= k <= |s| ensures !OccursAt(s, sep, k) {
      if k < |s| { assert s[k..k + 1] == [s[k]]; }
    }
    assert FindFrom(s, sep, 0).None? by { NotFoundFrom(s, sep, 0); }
  }

  lemma {:induction false} NotFoundFrom(s: string, sep: string, i: nat)
    requires i <= |s|
    requires forall k :: i <= k <= |s| ==> !OccursAt(s, sep, k)
    ensures FindFrom(s, sep, i) == None
    decreases |s| - i
  {
    if i < |s| {
      NotFoundFrom(s, sep, i + 1);
    }
  }

  lemma CharFirst(s: string, l: string, c: char)
    requires |l| < |s| && s[..|l|] == l && !HasChar(l, c) && s[|l|] == c
    ensures Find(s, [c]) == Some(|l|)
  {
    var sep := [c];
    assert s[|l|..|l| + 1] == sep;
    forall k | 0 <= k < |l| ensures !OccursAt(s, sep, k) {
      assert s[k..k + 1] == [s[k]];
      assert s[k] == l[k];
    }
    FoundFrom(s, sep, 0, |l|);
  }

  lemma {:induction false} FoundFrom(s: string, sep: string, i: nat, p: nat)
    requires i <= p <= |s| && OccursAt(s, sep, p)
    requires forall k :: i <= k < p ==> !OccursAt(s, sep, k)
    ensures FindFrom(s, sep, i) == Some(p)
    decreases p - i
  {
    if i < p {
      FoundFrom(s, sep, i + 1, p);
    }
  }

  /** `s.splitlines()`. */
  function SplitLines(s: string): (r: seq<string>)
    ensures forall k :: 0 <= k < |r| ==> NoLineBreak(r[k])
    decreases |s|
  {
    if s == [] then []
    else
      var n := LineRun(s, 0);
      if n == |s| then [s]
      else
        var skip := if s[n] == '\r' && n + 1 < |s| && s[n + 1] == '\n' then 2 else 1;
        [s[..n]] + SplitLines(s[n + skip..])
  }

  /** The text of a file whose lines each end with a line feed. */
  function Terminated(lines: seq<string>): string {
    if lines == [] then [] else lines[0] + "\n" + Terminated(lines[1..])
  }

  /** `splitlines` gives back the lines of a file in which every line ends with "\n". */
  lemma {:induction false} SplitLinesTerminated(lines: seq<string>)
    requires forall k :: 0 <= k < |lines| ==> NoLineBreak(lines[k])
    ensures SplitLines(Terminated(lines)) == lines
  {
    if lines != [] {
      var l := lines[0];
      var s := Terminated(lines);
      assert s == l + ("\n" + Terminated(lines[1..]));
      assert s[|l|] == '\n';
      RunStops(s, l);
      assert s[|l| + 1..] == Terminated(lines[1..]);
      SplitLinesTerminated(lines[1..]);
    }
  }

  lemma RunStops(s: string, l: string)
    requires |l| < |s| && s[..|l|] == l && NoLineBreak(l) && IsLineBreak(s[|l|])
    ensures LineRun(s, 0) == |l|
  {
    assert forall k :: 0 <= k < |l| ==> s[k] == l[k];
  }

  /** Numeric value of a string of ASCII digits. */
  function DigitsValue(s: string): nat
    requires AllDigits(s)
  {
    if s == [] then 0 else DigitsValue(s[..|s| - 1]) * 10 + (s[|s| - 1] as int - '0' as int)
  }

  /** `str(n)` for a natural number. */
  function NatToString(n: nat): string {
    var d := [(('0' as int) + n % 10) as char];
    if n < 10 then d else NatToString(n / 10) + d
  }

  /** `str(n)` is the decimal digits of `n`, without leading zeros. */
  lemma {:induction false} NatToStringDigits(n: nat)
    ensures |NatToString(n)| >= 1 && AllDigits(NatToString(n)) && DigitsValue(NatToString(n)) == n
    ensures NatToString(n)[0] == '0' ==> n == 0 && NatToString(n) == "0"
  {
    if n >= 10 {
      NatToStringDigits(n / 10);
      var r := NatToString(n);
      assert r[..|r| - 1] == NatToString(n / 10);
    }
  }

  /** `str(i)` for an integer. */
  function IntToString(i: int): string {
    if i < 0 then "-" + NatToString(-i) else NatToString(i)
  }

  /**
   * `int(s)` for a string: optional surrounding white space, an optional sign and
   * one or more ASCII digits.
   */
  function ParseInt(s: string): (r: Option<int>)
    ensures r.Some? ==> s != []
  {
    var t := Strip(s);
    if t != [] && (t[0] == '-' || t[0] == '+') then
      var d := t[1..];
      if d != [] && AllDigits(d) then
        var v: int := DigitsValue(d);
        Some(if t[0] == '-' then -v else v)
      else None
    else if t != [] && AllDigits(t) then Some(DigitsValue(t))
    else None
  }

  /** `int(str(i)) == i`. */
  lemma ParseIntToString(i: int)
    ensures ParseInt(IntToString(i)) == Some(i)
  {
    var t := IntToString(i);
    var d := NatToString(if i < 0 then -i else i);
    NatToStringDigits(if i < 0 then -i else i);
    assert NoSpace(d) by {
      forall k | 0 <= k < |d| ensures !IsSpace(d[k]) { assert IsDigit(d[k]); }
    }
    if i < 0 {
      assert t == "-" + d;
      assert NoSpace(t) by {
        forall k | 0 <= k < |t| ensures !IsSpace(t[k]) {
          if k > 0 { assert t[k] == d[k - 1]; }
        }
      }
      StripNoSpace(t);
      assert t[1..] == d;
    } else {
      StripNoSpace(d);
    }
  }

  /** `s[i]` on a Python list, where `-|s| <= i < 0` counts from the end. */
  function PyIndex<T>(s: seq<T>, i: int): (r: Option<T>)
    ensures r.Some? <==> -|s| <= i < |s|
  {
    if 0 <= i < |s| then Some(s[i])
    else if -|s| <= i < 0 then Some(s[|s| + i])
    else None
  }

  /** `s.index(x)`: the first position holding `x`. */
  function IndexOf<T(==)>(s: seq<T>, x: T): (r: Option<nat>)
    ensures r.Some? ==> r.value < |s| && s[r.value] == x
    ensures r.Some? ==> forall k :: 0 <= k < r.value ==> s[k] != x
    ensures r.None? ==> x !in s
  {
    if s == [] then None
    else if s[0] == x then Some(0)
    else match IndexOf(s[1..], x)
      case None => None
      case Some(k) => Some(k + 1)
  }

  /** `s[a:b]` for non-negative bounds. */
  function Slice<T>(s: seq<T>, a: nat, b: nat): (r: seq<T>)
    ensures a <= b <= |s| ==> r == s[a..b]
    ensures |r| <= |s|
    ensures forall k :: 0 <= k < |r| ==> a + k < b && a + k < |s| && r[k] == s[a + k]
  {
    var lo := if a < |s| then a else |s|;
    var hi := if b < |s| then b else |s|;
    if lo <= hi then s[lo..hi] else []
  }

  /** ASCII `str.lower()`. */
  function LowerChar(c: char): char {
    if 'A' <= c <= 'Z' then (c as int + 32) as char else c
  }

  function Lower(s: string): (r: string)
    ensures |r| == |s| && forall i :: 0 <= i < |s| ==> r[i] == LowerChar(s[i])
  {
    seq(|s|, i requires 0 <= i < |s| => LowerChar(s[i]))
  }
}
