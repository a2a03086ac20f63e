/** The property values of an SDfile record: `MolParser.__var_analyzer`. */
module SdfValues {
  import opened Wrappers
  import opened PyText
  import opened PyDict

  /** A data item's value: a single line, or the list of its lines (possibly empty). */
  datatype PropValue = Text(line: string) | Lines(lines: seq<string>)

  /** `[item.strip() for item in xs]`. */
  function StripEach(xs: seq<string>): (r: seq<string>)
    ensures |r| == |xs| && forall k :: 0 <= k < |xs| ==> r[k] == Strip(xs[k])
  {
    seq(|xs|, k requires 0 <= k < |xs| => Strip(xs[k]))
  }

  /** `list(filter(None, xs))`: the non-empty strings, in order. */
  function DropEmpty(xs: seq<string>): (r: seq<string>)
    ensures |r| <= |xs|
    ensures forall k :: 0 <= k < |r| ==> r[k] != [] && r[k] in xs
    ensures forall k :: 0 <= k < |xs| && xs[k] != [] ==> xs[k] in r
  {
    if xs == [] then [] else (if xs[0] == [] then [] else [xs[0]]) + DropEmpty(xs[1..])
  }

  /**
   * Dropping blanks keeps order and multiplicity: it works piece by piece, a single
   * string being kept exactly when it is not empty.
   */
  lemma {:induction false} DropEmptyAppend(a: seq<string>, b: seq<string>)
    ensures DropEmpty(a + b) == DropEmpty(a) + DropEmpty(b)
    ensures forall x :: DropEmpty([x]) == if x == [] then [] else [x]
    decreases |a|
  {
    if a == [] {
      assert a + b == b;
    } else {
      assert (a + b)[0] == a[0] && (a + b)[1..] == a[1..] + b;
      DropEmptyAppend(a[1..], b);
      var h := if a[0] == [] then [] else [a[0]];
      assert DropEmpty(a + b) == h + (DropEmpty(a[1..]) + DropEmpty(b));
    }
    forall x ensures DropEmpty([x]) == if x == [] then [] else [x] {
      assert [x][1..] == [];
    }
  }

  /** The value lines of a data item: split at line feeds, stripped, blank ones dropped. */
  function CleanLines(body: string): seq<string> {
    DropEmpty(StripEach(SplitOn(body, "\n")))
  }

  /** The value of a data item: its one line when exactly one is left, else the list. */
  function NormalizeValue(body: string): (r: PropValue)
    ensures r.Text? ==> Trimmed(r.line)
    ensures r.Lines? ==> |r.lines| != 1
    ensures r.Lines? ==> forall k :: 0 <= k < |r.lines| ==> Trimmed(r.lines[k])
  {
    var c := CleanLines(body);
    StrippedLines(SplitOn(body, "\n"));
    if |c| == 1 then Text(c[0]) else Lines(c)
  }

  /** A non-empty line with no white space at either end. */
  predicate Trimmed(l: string) {
    l != [] && !IsSpace(l[0]) && !IsSpace(l[|l| - 1])
  }

  lemma StrippedLines(xs: seq<string>)
    ensures forall k :: 0 <= k < |DropEmpty(StripEach(xs))| ==> Trimmed(DropEmpty(StripEach(xs))[k])
  {
    var s := StripEach(xs);
    forall k | 0 <= k < |s| ensures s[k] == [] || Trimmed(s[k]) {
      LStripFirst(xs[k]);
    }
    DropEmptyTrimmed(s);
  }

  lemma {:induction false} DropEmptyTrimmed(xs: seq<string>)
    requires forall k :: 0 <= k < |xs| ==> xs[k] == [] || Trimmed(xs[k])
    ensures forall k :: 0 <= k < |DropEmpty(xs)| ==> Trimmed(DropEmpty(xs)[k])
  {
    if xs != [] {
      DropEmptyTrimmed(xs[1..]);
    }
  }

  /** A stripped string neither starts nor ends with white space. */
  lemma LStripFirst(s: string)
    ensures var t := Strip(s); t == [] || (!IsSpace(t[0]) && !IsSpace(t[|t| - 1]))
  {
    var l := LStrip(s);
    var t := RStrip(l);
    if t != [] {
      assert t[0] == l[0];
    }
  }

  /** A body written as lines joined by line feeds comes back as those lines, cleaned. */
  lemma {:induction false} NormalizeJoined(ls: seq<string>)
    requires |ls| >= 1
    requires forall k :: 0 <= k < |ls| ==> !HasChar(ls[k], '\n')
    ensures CleanLines(Join(ls, "\n")) == DropEmpty(StripEach(ls))
    ensures NormalizeValue(Join(ls, "\n")) ==
      (var c := DropEmpty(StripEach(ls)); if |c| == 1 then Text(c[0]) else Lines(c))
  {
    SplitOnJoin(ls, '\n');
  }

  /** The one-line value " CH4 " reads as the text "CH4". */
  lemma NormalizeOneLine()
    ensures NormalizeValue(" CH4 ") == Text("CH4")
  {
    OneLineSplit();
    OneLineStrip();
    assert StripEach([" CH4 "]) == ["CH4"];
    assert CleanLines(" CH4 ") == ["CH4"];
  }

  lemma OneLineSplit()
    ensures SplitOn(" CH4 ", "\n") == [" CH4 "]
  {
    CharAbsent(" CH4 ", '\n');
  }

  lemma OneLineStrip()
    ensures Strip(" CH4 ") == "CH4"
  {
    assert " CH4 " == " " + "CH4" + " ";
    StripPadded("CH4");
  }

  /** One blank on each side of a word is stripped away. */
  lemma StripPadded(t: string)
    requires t != [] && !IsSpace(t[0]) && !IsSpace(t[|t| - 1])
    ensures Strip(" " + t + " ") == t
  {
    var s := " " + t + " ";
    assert s[1..] == t + " ";
    assert LStrip(s) == t + " ";
    assert (t + " ")[..|t|] == t;
    assert RStrip(t + " ") == RStrip(t);
  }

  /** A value made only of blank lines is the empty list. */
  lemma NormalizeBlank()
    ensures NormalizeValue(" \n \n") == Lines([])
  {
    BlankJoin();
    NormalizeJoined([" ", " ", ""]);
    BlankStrip();
  }

  lemma BlankJoin()
    ensures Join([" ", " ", ""], "\n") == " \n \n"
  {
    assert Join([""], "\n") == "";
    assert [" ", " ", ""][1..] == [" ", ""];
    assert [" ", ""][1..] == [""];
  }

  lemma BlankStrip()
    ensures DropEmpty(StripEach([" ", " ", ""])) == []
  {
    assert Strip(" ") == "";
    assert StripEach([" ", " ", ""]) == ["", "", ""];
    assert ["", "", ""][1..] == ["", ""] && ["", ""][1..] == [""] && [""][1..] == [];
  }

  /** The (name, value) pairs of the data items, in file order. */
  function Normalized(data: seq<(string, string)>): (r: seq<(string, PropValue)>)
    ensures |r| == |data|
  {
    if data == [] then []
    else Normalized(data[..|data| - 1]) + [(data[|data| - 1].0, NormalizeValue(data[|data| - 1].1))]
  }

  /** Entry `i` is item `i`'s name with its normalised value. */
  lemma {:induction false} NormalizedAt(data: seq<(string, string)>, i: nat)
    requires i < |data|
    ensures Normalized(data)[i] == (data[i].0, NormalizeValue(data[i].1))
  {
    if i < |data| - 1 {
      NormalizedAt(data[..|data| - 1], i);
    }
  }

  /**
   * `__var_analyzer`: the dict of data items. A name that occurs again keeps the value of
   * its last occurrence and its place of first occurrence.
   */
  method VarAnalyzer(data: seq<(string, string)>) returns (res: Dict<string, PropValue>)
    ensures res == FromPairs(Normalized(data))
    ensures res.Valid()
    ensures forall name :: res.Get(name) == LastValue(Normalized(data), name)
  {
    res := EmptyDict();
    var i := 0;
    while i < |data|
      invariant 0 <= i <= |data|
      invariant res == FromPairs(Normalized(data[..i]))
    {
      var varName := data[i].0;
      var varVal := NormalizeValue(data[i].1);
      VarStep(data, i);
      res := Put(res, varName, varVal);
      i := i + 1;
    }
    assert data[..|data|] == data;
    VarDone(data);
  }

  lemma VarStep(data: seq<(string, string)>, i: nat)
    requires i < |data|
    ensures FromPairs(Normalized(data[..i + 1]))
      == Put(FromPairs(Normalized(data[..i])), data[i].0, NormalizeValue(data[i].1))
  {
    assert data[..i + 1][..i] == data[..i];
    FromPairsSnoc(Normalized(data[..i]), data[i].0, NormalizeValue(data[i].1));
  }

  lemma VarDone(data: seq<(string, string)>)
    ensures forall name :: FromPairs(Normalized(data)).Get(name) == LastValue(Normalized(data), name)
  {
    forall name ensures FromPairs(Normalized(data)).Get(name) == LastValue(Normalized(data), name) {
      FromPairsLastWins(Normalized(data), name);
    }
  }
}
