/**
 * The xy text format as PySpec's Dataset reads and writes it, stated as functions.
 *
 * Reading goes line by line with a 1-based line number. A line whose first character is '#' is a
 * comment; a line with no words is blank; both are skipped. A line of exactly two words that both
 * parse as numbers adds one row. Any other line is refused: the user is asked, for that line
 * number, whether to Abort (every row read so far is dropped and reading stops) or to Ignore (the
 * line is skipped). Python's float() on one word is the parameter `num`, and the user's answer for
 * a line number is the parameter `decide`.
 *
 * Writing emits a fixed comment header and then one "x<TAB>y<NEWLINE>" line per index; Python's
 * str() on a float is the parameter `show`.
 */
module XyFormat {
  import opened Wrappers
  import opened Text

  const DefaultXLabel: string := "Wavelength (nm)"
  const DefaultYLabel: string := "Absorption"
  const DefaultFiletype: string := "xy"
  /** The shape the error prompt says a data line should have. */
  const Expected: string := "2 numbers"
  /** The first line write emits. */
  const Header: string := "# File written by PySpec in xy format\n"

  /** The user's answer to the Abort/Ignore prompt shown for a refused line. */
  datatype Decision = Abort | Ignore

  /**
   * When the x value of a two-word line is appended. The program appends x as soon as the first
   * word parses, before the second word is tried (XFirst); PairAtOnce appends nothing until both
   * words have parsed.
   */
  datatype RowCommit = XFirst | PairAtOnce

  /** A file iterator never yields an empty line, and TestComment reads the first character. */
  predicate NonEmptyLines(lines: seq<string>) {
    forall i :: 0 <= i < |lines| ==> lines[i] != []
  }

  predicate TestComment(line: string)
    requires line != []
  {
    line[0] == '#'
  }

  // ---------------------------------------------------------------------------------------------
  // One line
  // ---------------------------------------------------------------------------------------------

  /** The reader's verdict on one line. */
  datatype LineKind =
    | Comment
    | Blank
    | Pair(x: real, y: real)
    | WrongCount
      /** Two words, not both numbers; `parsedX` is the first word's value when only it parsed. */
    | NotNumeric(parsedX: Option<real>)
  {
    /** The line is one for which the Abort/Ignore prompt is shown. */
    predicate Refused() {
      WrongCount? || NotNumeric?
    }

    /** A refused line whose x value the program has already appended. */
    predicate HalfRow() {
      NotNumeric? && parsedX.Some?
    }
  }

  function Classify(line: string, num: string -> Option<real>): LineKind
    requires line != []
  {
    if TestComment(line) then Comment
    else
      var words := Split(line);
      if |words| == 0 then Blank
      else if |words| != 2 then WrongCount
      else match num(words[0])
        case None => NotNumeric(None)
        case Some(x) =>
          match num(words[1])
          case None => NotNumeric(Some(x))
          case Some(y) => Pair(x, y)
  }

  /** The verdicts on the lines of a source, in order. */
  function Kinds(lines: seq<string>, num: string -> Option<real>): seq<LineKind>
    requires NonEmptyLines(lines)
  {
    seq(|lines|, i requires 0 <= i < |lines| => Classify(lines[i], num))
  }

  /** A comment line and a whitespace-only line are skipped, whatever the state and the answers. */
  lemma SkippedLine(mode: RowCommit, st: State, line: string, n: nat, num: string -> Option<real>, decide: nat -> Decision)
    requires line != []
    requires line[0] == '#' || AllSpace(line)
    ensures !Classify(line, num).Refused()
    ensures Step(mode, st, Classify(line, num), n, decide) == st
  {
    SplitEmpty(line);
  }

  /** A line is blank exactly when it is not a comment and holds only whitespace. */
  lemma BlankIffWhitespace(line: string, num: string -> Option<real>)
    requires line != []
    ensures Classify(line, num) == Blank <==> line[0] != '#' && AllSpace(line)
  {
    SplitEmpty(line);
  }

  /**
   * A line is refused exactly when it is not a comment, not whitespace only, and not two words
   * that both parse: one word, three or more, or a word that is not a number.
   */
  lemma RefusedIff(line: string, num: string -> Option<real>)
    requires line != []
    ensures Classify(line, num).Refused() <==>
      line[0] != '#' && !AllSpace(line) &&
      (|Split(line)| != 2 || num(Split(line)[0]).None? || num(Split(line)[1]).None?)
  {
    SplitEmpty(line);
  }

  /** A half row is a refused two-word line whose first word parsed and whose second did not. */
  lemma HalfRowIff(line: string, num: string -> Option<real>)
    requires line != []
    ensures Classify(line, num).HalfRow() <==>
      line[0] != '#' && |Split(line)| == 2 && num(Split(line)[0]).Some? && num(Split(line)[1]).None?
    ensures Classify(line, num).HalfRow() ==> Classify(line, num).parsedX == num(Split(line)[0])
  {
  }

  // ---------------------------------------------------------------------------------------------
  // A whole read
  // ---------------------------------------------------------------------------------------------

  /** The reader's data and history: the two columns, the prompted line numbers, and whether the user aborted. */
  datatype State = State(xs: seq<real>, ys: seq<real>, prompts: seq<nat>, aborted: bool)

  const Start: State := State([], [], [], false)

  /** The prompt for line n: Abort empties both columns and stops; Ignore keeps everything. */
  function Prompted(st: State, n: nat, decide: nat -> Decision): State {
    if decide(n) == Abort then State([], [], st.prompts + [n], true)
    else st.(prompts := st.prompts + [n])
  }

  /** Reading line number n, whose verdict is `kind`. */
  function Step(mode: RowCommit, st: State, kind: LineKind, n: nat, decide: nat -> Decision): State {
    match kind
    case Comment => st
    case Blank => st
    case Pair(x, y) => st.(xs := st.xs + [x], ys := st.ys + [y])
    case WrongCount => Prompted(st, n, decide)
    case NotNumeric(parsedX) =>
      var kept := if mode == XFirst then ToSeq(parsedX) else [];
      Prompted(st.(xs := st.xs + kept), n, decide)
  }

  /** Reading lines with verdicts `kinds`, the first numbered n, until they run out or the user aborts. */
  function Run(mode: RowCommit, kinds: seq<LineKind>, n: nat, st: State, decide: nat -> Decision): State
    decreases |kinds|
  {
    if kinds == [] || st.aborted then st
    else Run(mode, kinds[1..], n + 1, Step(mode, st, kinds[0], n, decide), decide)
  }

  /** What Dataset's constructor reads from a whole source, numbering lines from 1. */
  function Parse(lines: seq<string>, num: string -> Option<real>, decide: nat -> Decision): State
    requires NonEmptyLines(lines)
  {
    Run(XFirst, Kinds(lines, num), 1, Start, decide)
  }

  /** The x values the lines contribute when every prompt is answered Ignore. */
  function XsRead(mode: RowCommit, kinds: seq<LineKind>): seq<real>
    decreases |kinds|
  {
    if kinds == [] then []
    else
      var here :=
        match kinds[0]
        case Pair(x, _) => [x]
        case NotNumeric(parsedX) => if mode == XFirst then ToSeq(parsedX) else []
        case _ => [];
      here + XsRead(mode, kinds[1..])
  }

  /** The y values the lines contribute when every prompt is answered Ignore. */
  function YsRead(kinds: seq<LineKind>): seq<real>
    decreases |kinds|
  {
    if kinds == [] then []
    else (match kinds[0] case Pair(_, y) => [y] case _ => []) + YsRead(kinds[1..])
  }

  /** The numbers of the refused lines, the first line being number n. */
  function RefusedLines(kinds: seq<LineKind>, n: nat): seq<nat>
    decreases |kinds|
  {
    if kinds == [] then []
    else (if kinds[0].Refused() then [n] else []) + RefusedLines(kinds[1..], n + 1)
  }

  /** The number of half rows among the lines. */
  function HalfRows(kinds: seq<LineKind>): nat
    decreases |kinds|
  {
    if kinds == [] then 0
    else (if kinds[0].HalfRow() then 1 else 0) + HalfRows(kinds[1..])
  }

  predicate IgnoresAll(decide: nat -> Decision, ns: seq<nat>) {
    forall k :: k in ns ==> decide(k) == Ignore
  }

  /** Answering Ignore to all the prompts of some lines answers Ignore to the first line's and to the rest's. */
  lemma IgnoredFirst(kinds: seq<LineKind>, n: nat, decide: nat -> Decision)
    requires kinds != []
    requires IgnoresAll(decide, RefusedLines(kinds, n))
    ensures kinds[0].Refused() ==> decide(n) == Ignore
    ensures IgnoresAll(decide, RefusedLines(kinds[1..], n + 1))
  {
      if kinds[0].Refused() {
        assert n in RefusedLines(kinds, n);
      }
  }
  /** Reading a first line that does not abort, then the rest. */
  lemma RunUnfold(mode: RowCommit, kinds: seq<LineKind>, n: nat, st: State, decide: nat -> Decision)
    requires !st.aborted && kinds != []
    ensures Run(mode, kinds, n, st, decide) == Run(mode, kinds[1..], n + 1, Step(mode, st, kinds[0], n, decide), decide)
  {
  }
  /** The x values of the lines are those of the first, then those of the rest. */
  lemma XsReadUnfold(mode: RowCommit, kinds: seq<LineKind>)
    requires kinds != []
    ensures XsRead(mode, kinds) == XsRead(mode, [kinds[0]]) + XsRead(mode, kinds[1..])
  {
    assert [kinds[0]][1..] == [];
  }

  /** The y values of the lines are those of the first, then those of the rest. */
  lemma YsReadUnfold(kinds: seq<LineKind>)
    requires kinds != []
    ensures YsRead(kinds) == YsRead([kinds[0]]) + YsRead(kinds[1..])
  {
    assert [kinds[0]][1..] == [];
  }

  /** The refused lines are the first, if refused, then the refused lines of the rest. */
  lemma RefusedLinesUnfold(kinds: seq<LineKind>, n: nat)
    requires kinds != []
    ensures RefusedLines(kinds, n) == RefusedLines([kinds[0]], n) + RefusedLines(kinds[1..], n + 1)
  {
    assert [kinds[0]][1..] == [];
  }

  /** Reading a + b is reading a, then reading b from where a left off. */
  lemma {:induction false} RunAppend(mode: RowCommit, a: seq<LineKind>, b: seq<LineKind>, n: nat, st: State, decide: nat -> Decision)
    ensures Run(mode, a + b, n, st, decide) == Run(mode, b, n + |a|, Run(mode, a, n, st, decide), decide)
    decreases |a|
  {
    if a == [] {
      assert a + b == b;
    } else if st.aborted {
      assert Run(mode, a, n, st, decide) == st;
    } else {
      assert (a + b)[0] == a[0];
      assert (a + b)[1..] == a[1..] + b;
      RunAppend(mode, a[1..], b, n + 1, Step(mode, st, a[0], n, decide), decide);
    }
  }

  /** Once aborted, nothing more is read. */
  lemma RunAborted(mode: RowCommit, kinds: seq<LineKind>, n: nat, st: State, decide: nat -> Decision)
    requires st.aborted
    ensures Run(mode, kinds, n, st, decide) == st
  {
  }

  /** One line whose prompt, if any, is answered Ignore adds what it contributes and, if refused, its number. */
  lemma StepIgnored(mode: RowCommit, st: State, kind: LineKind, n: nat, decide: nat -> Decision)
    requires kind.Refused() ==> decide(n) == Ignore
    ensures Step(mode, st, kind, n, decide) ==
      State(st.xs + XsRead(mode, [kind]), st.ys + YsRead([kind]),
            st.prompts + RefusedLines([kind], n), st.aborted)
  {
    assert [kind][1..] == [];
  }

  /**
   * When the user answers Ignore to every prompt: the columns gain exactly the values the lines
   * contribute, in file order, the prompts are exactly the refused lines' numbers, and the read
   * never aborts.
   */
  lemma {:induction false} RunIgnoring(mode: RowCommit, kinds: seq<LineKind>, n: nat, st: State, decide: nat -> Decision)
    requires !st.aborted
    requires IgnoresAll(decide, RefusedLines(kinds, n))
    ensures Run(mode, kinds, n, st, decide) ==
      State(st.xs + XsRead(mode, kinds), st.ys + YsRead(kinds), st.prompts + RefusedLines(kinds, n), false)
    decreases |kinds|
  {
    if kinds != [] {
      var k, rest := kinds[0], kinds[1..];
      IgnoredFirst(kinds, n, decide);
      RunUnfold(mode, kinds, n, st, decide);
      XsReadUnfold(mode, kinds);
      YsReadUnfold(kinds);
      RefusedLinesUnfold(kinds, n);
      StepIgnored(mode, st, k, n, decide);
      var next := State(st.xs + XsRead(mode, [k]), st.ys + YsRead([k]), st.prompts + RefusedLines([k], n), false);
      RunIgnoring(mode, rest, n + 1, next, decide);
      assert st.xs + XsRead(mode, [k]) + XsRead(mode, rest) == st.xs + XsRead(mode, kinds);
      assert st.ys + YsRead([k]) + YsRead(rest) == st.ys + YsRead(kinds);
      assert st.prompts + RefusedLines([k], n) + RefusedLines(rest, n + 1) == st.prompts + RefusedLines(kinds, n);
    }
  }

  /**
   * A refused line answered with Abort drops every row read so far and stops: the lines after it
   * are never looked at.
   */
  lemma AbortStops(mode: RowCommit, before: seq<LineKind>, kind: LineKind, after: seq<LineKind>, n: nat, st: State, decide: nat -> Decision)
    requires !st.aborted
    requires IgnoresAll(decide, RefusedLines(before, n))
    requires kind.Refused() && decide(n + |before|) == Abort
    ensures Run(mode, before + [kind] + after, n, st, decide) ==
      State([], [], st.prompts + RefusedLines(before, n) + [n + |before|], true)
  {
    RunAppend(mode, before, [kind], n, st, decide);
    RunAppend(mode, before + [kind], after, n, st, decide);
    RunIgnoring(mode, before, n, st, decide);
    var mid := Run(mode, before, n, st, decide);
    assert [kind][1..] == [];
    assert Run(mode, [kind], n + |before|, mid, decide) == Step(mode, mid, kind, n + |before|, decide);
  }

  /** Whatever the answers, an aborted read leaves both columns empty. */
  lemma {:induction false} AbortedIsEmpty(mode: RowCommit, kinds: seq<LineKind>, n: nat, st: State, decide: nat -> Decision)
    requires st.aborted ==> st.xs == [] && st.ys == []
    ensures Run(mode, kinds, n, st, decide).aborted ==>
      Run(mode, kinds, n, st, decide).xs == [] && Run(mode, kinds, n, st, decide).ys == []
    decreases |kinds|
  {
    if kinds != [] && !st.aborted {
      AbortedIsEmpty(mode, kinds[1..], n + 1, Step(mode, st, kinds[0], n, decide), decide);
    }
  }

  lemma {:induction false} XsReadLength(kinds: seq<LineKind>)
    ensures |XsRead(XFirst, kinds)| == |YsRead(kinds)| + HalfRows(kinds)
    decreases |kinds|
  {
    if kinds != [] {
      XsReadLength(kinds[1..]);
    }
  }

  /**
   * When every prompt is answered Ignore, x_values ends up longer than y_values by the number of
   * half rows: the columns have equal length exactly when the source has no half row.
   */
  lemma ColumnGap(lines: seq<string>, num: string -> Option<real>, decide: nat -> Decision)
    requires NonEmptyLines(lines)
    requires IgnoresAll(decide, RefusedLines(Kinds(lines, num), 1))
    ensures |Parse(lines, num, decide).xs| == |Parse(lines, num, decide).ys| + HalfRows(Kinds(lines, num))
  {
    RunIgnoring(XFirst, Kinds(lines, num), 1, Start, decide);
    XsReadLength(Kinds(lines, num));
  }

  /** With no half row among the lines, the program's order and PairAtOnce read the same. */
  lemma {:induction false} CommitOrderAgrees(kinds: seq<LineKind>, n: nat, st: State, decide: nat -> Decision)
    requires HalfRows(kinds) == 0
    ensures Run(XFirst, kinds, n, st, decide) == Run(PairAtOnce, kinds, n, st, decide)
    decreases |kinds|
  {
    if kinds != [] && !st.aborted {
      assert Step(XFirst, st, kinds[0], n, decide) == Step(PairAtOnce, st, kinds[0], n, decide);
      CommitOrderAgrees(kinds[1..], n + 1, Step(XFirst, st, kinds[0], n, decide), decide);
    }
  }

  /** With PairAtOnce, x_values and y_values always have the same length, whatever the lines and answers. */
  lemma {:induction false} PairAtOnceKeepsBalance(kinds: seq<LineKind>, n: nat, st: State, decide: nat -> Decision)
    requires |st.xs| == |st.ys|
    ensures |Run(PairAtOnce, kinds, n, st, decide).xs| == |Run(PairAtOnce, kinds, n, st, decide).ys|
    decreases |kinds|
  {
    if kinds != [] && !st.aborted {
      PairAtOnceKeepsBalance(kinds[1..], n + 1, Step(PairAtOnce, st, kinds[0], n, decide), decide);
    }
  }

  /** The verdict on a line of two words, each followed by one whitespace character. */
  lemma ClassifyTwoWords(a: string, sep: char, b: string, end: char, num: string -> Option<real>)
    requires IsWord(a) && IsWord(b) && IsSpace(sep) && IsSpace(end) && a[0] != '#'
    ensures a + [sep] + b + [end] != []
    ensures Classify(a + [sep] + b + [end], num) ==
      if num(a).None? then NotNumeric(None)
      else if num(b).None? then NotNumeric(num(a))
      else Pair(num(a).value, num(b).value)
  {
    SplitTwoWords(a, sep, b, end);
    assert (a + [sep] + b + [end])[0] == a[0];
  }

  /** The verdict on each line of the half-row example. */
  lemma HalfRowExampleLines(num: string -> Option<real>)
    requires num("1") == Some(1.0) && num("a") == None
    requires num("2") == Some(2.0) && num("3") == Some(3.0)
    ensures Classify("1 a\n", num) == NotNumeric(Some(1.0))
    ensures Classify("2 3\n", num) == Pair(2.0, 3.0)
  {
    ClassifyTwoWords("1", ' ', "a", '\n', num);
    assert "1 a\n" == "1" + [' '] + "a" + ['\n'];
    ClassifyTwoWords("2", ' ', "3", '\n', num);
    assert "2 3\n" == "2" + [' '] + "3" + ['\n'];
  }

  /** The verdicts on "1 a" and "2 3" when "a" is not a number. */
  lemma HalfRowExampleKinds(num: string -> Option<real>)
    requires num("1") == Some(1.0) && num("a") == None
    requires num("2") == Some(2.0) && num("3") == Some(3.0)
    ensures NonEmptyLines(["1 a\n", "2 3\n"])
    ensures Kinds(["1 a\n", "2 3\n"], num) == [NotNumeric(Some(1.0)), Pair(2.0, 3.0)]
  {
    HalfRowExampleLines(num);
  }

  /**
   * The program as written: the lines "1 a" and "2 3", with the prompt for line 1 answered
   * Ignore, leave x_values = [1, 2] and y_values = [3], so the x of line 1 is paired with the y
   * of line 2.
   */
  lemma HalfRowMisaligns(num: string -> Option<real>, decide: nat -> Decision)
    requires num("1") == Some(1.0) && num("a") == None
    requires num("2") == Some(2.0) && num("3") == Some(3.0)
    requires decide(1) == Ignore
    ensures NonEmptyLines(["1 a\n", "2 3\n"])
    ensures Parse(["1 a\n", "2 3\n"], num, decide) == State([1.0, 2.0], [3.0], [1], false)
  {
    HalfRowExampleKinds(num);
    var kinds := [NotNumeric(Some(1.0)), Pair(2.0, 3.0)];
    var st1 := State([1.0], [], [1], false);
    RunUnfold(XFirst, kinds, 1, Start, decide);
    assert Step(XFirst, Start, kinds[0], 1, decide) == st1;
    RunUnfold(XFirst, kinds[1..], 2, st1, decide);
    assert kinds[1..][1..] == [];
  }

  /** The verdict on each line of the bad-row example. */
  lemma BadRowExampleLines(num: string -> Option<real>)
    requires num("1") == Some(1.0) && num("2") == Some(2.0)
    requires num("3") == Some(3.0) && num("4") == Some(4.0) && num("bad") == None
    ensures Classify("1 2\n", num) == Pair(1.0, 2.0)
    ensures Classify("bad row\n", num) == NotNumeric(None)
    ensures Classify("3 4\n", num) == Pair(3.0, 4.0)
  {
    ClassifyTwoWords("1", ' ', "2", '\n', num);
    assert "1 2\n" == "1" + [' '] + "2" + ['\n'];
    ClassifyTwoWords("bad", ' ', "row", '\n', num);
    assert "bad row\n" == "bad" + [' '] + "row" + ['\n'];
    ClassifyTwoWords("3", ' ', "4", '\n', num);
    assert "3 4\n" == "3" + [' '] + "4" + ['\n'];
  }

  /** The verdicts on "1 2", "bad row" and "3 4" when "bad" is not a number. */
  lemma BadRowExampleKinds(num: string -> Option<real>)
    requires num("1") == Some(1.0) && num("2") == Some(2.0)
    requires num("3") == Some(3.0) && num("4") == Some(4.0) && num("bad") == None
    ensures NonEmptyLines(["1 2\n", "bad row\n", "3 4\n"])
    ensures Kinds(["1 2\n", "bad row\n", "3 4\n"], num) == [Pair(1.0, 2.0), NotNumeric(None), Pair(3.0, 4.0)]
  {
    BadRowExampleLines(num);
  }

  /** Reading a row, a refused line and another row, with either answer to the prompt for line 2. */
  lemma BadRowRun(decide: nat -> Decision)
    ensures decide(2) == Ignore ==>
      Run(XFirst, [Pair(1.0, 2.0), NotNumeric(None), Pair(3.0, 4.0)], 1, Start, decide) == State([1.0, 3.0], [2.0, 4.0], [2], false)
    ensures decide(2) == Abort ==>
      Run(XFirst, [Pair(1.0, 2.0), NotNumeric(None), Pair(3.0, 4.0)], 1, Start, decide) == State([], [], [2], true)
  {
    var kinds := [Pair(1.0, 2.0), NotNumeric(None), Pair(3.0, 4.0)];
    var st1 := State([1.0], [2.0], [], false);
    RunUnfold(XFirst, kinds, 1, Start, decide);
    RunUnfold(XFirst, kinds[1..], 2, st1, decide);
    assert kinds[1..][1..] == [Pair(3.0, 4.0)];
    var st2 := Step(XFirst, st1, NotNumeric(None), 2, decide);
    if decide(2) == Ignore {
      assert st2 == State([1.0], [2.0], [2], false);
      RunUnfold(XFirst, [Pair(3.0, 4.0)], 3, st2, decide);
      assert [Pair(3.0, 4.0)][1..] == [];
    } else {
      assert st2.aborted;
    }
  }

  /**
   * A refused second line between two rows: answered Ignore, both rows are kept; answered Abort,
   * nothing is kept and the third line is never read.
   */
  lemma BadRowExample(num: string -> Option<real>, decide: nat -> Decision)
    requires num("1") == Some(1.0) && num("2") == Some(2.0)
    requires num("3") == Some(3.0) && num("4") == Some(4.0) && num("bad") == None
    ensures NonEmptyLines(["1 2\n", "bad row\n", "3 4\n"])
    ensures decide(2) == Ignore ==>
      Parse(["1 2\n", "bad row\n", "3 4\n"], num, decide) == State([1.0, 3.0], [2.0, 4.0], [2], false)
    ensures decide(2) == Abort ==>
      Parse(["1 2\n", "bad row\n", "3 4\n"], num, decide) == State([], [], [2], true)
  {
    BadRowExampleKinds(num);
    BadRowRun(decide);
  }

  // ---------------------------------------------------------------------------------------------
  // Writing
  // ---------------------------------------------------------------------------------------------

  function Min(a: nat, b: nat): nat {
    if a <= b then a else b
  }

  function DataLine(x: real, y: real, show: real -> string): string {
    show(x) + "\t" + show(y) + "\n"
  }

  /**
   * The strings write hands to dest.write, one per call: the header, then one line per index of
   * x_values that y_values also has (y_values[i] on a shorter y_values raises and ends the writing).
   */
  function Written(xs: seq<real>, ys: seq<real>, show: real -> string): seq<string> {
    [Header] + seq(Min(|xs|, |ys|), i requires 0 <= i < Min(|xs|, |ys|) => DataLine(xs[i], ys[i], show))
  }

  /**
   * What str() must do on the values `vs` for a written file to read back: each is shown as one
   * word, not starting with '#', that float() reads back as the same value.
   */
  ghost predicate ShowsReadably(show: real -> string, num: string -> Option<real>, vs: seq<real>) {
    forall v :: v in vs ==> IsWord(show(v)) && show(v)[0] != '#' && num(show(v)) == Some(v)
  }

  /** The requirement can be met: a show/num pair that round-trips 1 and 2.5. */
  lemma ShowsReadablyExample()
    ensures ShowsReadably(v => if v == 1.0 then "1" else "2.5",
                          s => if s == "1" then Some(1.0) else if s == "2.5" then Some(2.5) else None,
                          [1.0, 2.5])
  {
    var show := v => if v == 1.0 then "1" else "2.5";
    assert IsWord(show(1.0)) && IsWord(show(2.5));
  }

  /** A written data line reads back as the row it was written from. */
  lemma ClassifyDataLine(x: real, y: real, show: real -> string, num: string -> Option<real>)
    requires ShowsReadably(show, num, [x, y])
    ensures DataLine(x, y, show) != []
    ensures Classify(DataLine(x, y, show), num) == Pair(x, y)
  {
    var line := DataLine(x, y, show);
    assert x in [x, y] && y in [x, y];
    assert line == show(x) + ['\t'] + show(y) + ['\n'];
    SplitTwoWords(show(x), '\t', show(y), '\n');
    assert line[0] == show(x)[0];
  }

  /** Reading lines that each add a row adds exactly those rows, and prompts for none. */
  lemma {:induction false} RunPairs(mode: RowCommit, kinds: seq<LineKind>, xs: seq<real>, ys: seq<real>, n: nat, st: State, decide: nat -> Decision)
    requires |kinds| == |xs| == |ys| && !st.aborted
    requires forall i :: 0 <= i < |kinds| ==> kinds[i] == Pair(xs[i], ys[i])
    ensures Run(mode, kinds, n, st, decide) == State(st.xs + xs, st.ys + ys, st.prompts, false)
    decreases |kinds|
  {
    if kinds == [] {
      assert st.xs + xs == st.xs && st.ys + ys == st.ys;
    } else {
      var next := Step(mode, st, kinds[0], n, decide);
      assert next == State(st.xs + [xs[0]], st.ys + [ys[0]], st.prompts, false);
      RunPairs(mode, kinds[1..], xs[1..], ys[1..], n + 1, next, decide);
      assert st.xs + [xs[0]] + xs[1..] == st.xs + xs;
      assert st.ys + [ys[0]] + ys[1..] == st.ys + ys;
    }
  }

  /** Every string write emits is one whole line of the file. */
  lemma WrittenAreLines(xs: seq<real>, ys: seq<real>, show: real -> string, num: string -> Option<real>)
    requires ShowsReadably(show, num, xs + ys)
    ensures forall i :: 0 <= i < |Written(xs, ys, show)| ==> IsLine(Written(xs, ys, show)[i])
  {
    var w := Written(xs, ys, show);
    forall i | 0 <= i < |w| ensures IsLine(w[i]) {
      if i > 0 {
        var a, b := show(xs[i - 1]), show(ys[i - 1]);
        assert xs[i - 1] in xs + ys && ys[i - 1] in xs + ys;
        assert w[i] == a + "\t" + b + "\n";
        forall j | 0 <= j < |w[i]| - 1 ensures w[i][j] != '\n' {
          assert IsSpace('\n');
          if j < |a| { assert w[i][j] == a[j]; }
          else if j > |a| { assert w[i][j] == b[j - |a| - 1]; }
        }
      }
    }
  }

  /**
   * Writing equal-length columns and reading the file back gives the same columns, with no
   * prompt, whatever the answers would have been.
   */
  lemma WriteThenRead(xs: seq<real>, ys: seq<real>, show: real -> string, num: string -> Option<real>, decide: nat -> Decision)
    requires |xs| == |ys|
    requires ShowsReadably(show, num, xs + ys)
    ensures NonEmptyLines(Lines(Concat(Written(xs, ys, show))))
    ensures Parse(Lines(Concat(Written(xs, ys, show))), num, decide) == State(xs, ys, [], false)
  {
    var w := Written(xs, ys, show);
    WrittenAreLines(xs, ys, show, num);
    LinesOfConcat(w);
    KindsOfWritten(xs, ys, show, num);
    var kinds := Kinds(w, num);
    RunUnfold(XFirst, kinds, 1, Start, decide);
    RunPairs(XFirst, kinds[1..], xs, ys, 2, Start, decide);
  }

  /** The file write produces reads as one comment line, then one row per written pair. */
  lemma KindsOfWritten(xs: seq<real>, ys: seq<real>, show: real -> string, num: string -> Option<real>)
    requires |xs| == |ys|
    requires ShowsReadably(show, num, xs + ys)
    ensures NonEmptyLines(Written(xs, ys, show))
    ensures |Kinds(Written(xs, ys, show), num)| == |xs| + 1
    ensures Kinds(Written(xs, ys, show), num)[0] == Comment
    ensures forall i :: 0 <= i < |xs| ==> Kinds(Written(xs, ys, show), num)[1..][i] == Pair(xs[i], ys[i])
  {
    var w := Written(xs, ys, show);
    assert NonEmptyLines(w) by {
      forall i | 0 <= i < |w| ensures w[i] != [] {
        if i > 0 { assert w[i] == DataLine(xs[i - 1], ys[i - 1], show); }
      }
    }
    var kinds := Kinds(w, num);
    assert kinds[0] == Classify(Header, num);
    forall i | 0 <= i < |xs| ensures kinds[1..][i] == Pair(xs[i], ys[i]) {
      assert xs[i] in xs + ys && ys[i] in xs + ys;
      ClassifyDataLine(xs[i], ys[i], show, num);
      assert w[i + 1] == DataLine(xs[i], ys[i], show);
    }
  }

  lemma {:induction false} NoRefusedNoHalfRows(kinds: seq<LineKind>, n: nat)
    requires RefusedLines(kinds, n) == []
    ensures HalfRows(kinds) == 0
    decreases |kinds|
  {
    if kinds != [] {
      NoRefusedNoHalfRows(kinds[1..], n + 1);
    }
  }

  /**
   * Reading a source without refused lines, writing the columns out and reading the result again
   * reproduces the columns read the first time.
   */
  lemma ParseWriteParse(lines: seq<string>, show: real -> string, num: string -> Option<real>, decide: nat -> Decision)
    requires NonEmptyLines(lines)
    requires RefusedLines(Kinds(lines, num), 1) == []
    requires ShowsReadably(show, num, Parse(lines, num, decide).xs + Parse(lines, num, decide).ys)
    ensures var first := Parse(lines, num, decide);
      NonEmptyLines(Lines(Concat(Written(first.xs, first.ys, show)))) &&
      Parse(Lines(Concat(Written(first.xs, first.ys, show))), num, decide) == State(first.xs, first.ys, [], false)
  {
    RunIgnoring(XFirst, Kinds(lines, num), 1, Start, decide);
    NoRefusedNoHalfRows(Kinds(lines, num), 1);
    XsReadLength(Kinds(lines, num));
    var first := Parse(lines, num, decide);
    WriteThenRead(first.xs, first.ys, show, num, decide);
  }
}
