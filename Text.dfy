/**
 * The two pieces of Python's string handling the xy reader depends on: str.split() with no
 * argument, which breaks a line into whitespace-separated words, and the iteration over an open
 * text file, which yields the file's text one line at a time.
 */
module Text {

  /** The characters str.isspace() accepts; str.split() separates words on exactly these. */
  predicate IsSpace(c: char) {
    c == ' ' || ('\t' <= c <= '\r') || ('\U{1C}' <= c <= '\U{1F}') || c == '\U{85}' || c == '\U{A0}'
    || c == '\U{1680}' || ('\U{2000}' <= c <= '\U{200A}') || c == '\U{2028}' || c == '\U{2029}'
    || c == '\U{202F}' || c == '\U{205F}' || c == '\U{3000}'
  }

  predicate NoSpace(s: string) {
    forall i :: 0 <= i < |s| ==> !IsSpace(s[i])
  }

  predicate AllSpace(s: string) {
    forall i :: 0 <= i < |s| ==> IsSpace(s[i])
  }

  /** What str.split() can return as one element: a non-empty run of non-whitespace. */
  predicate IsWord(w: string) {
    w != [] && NoSpace(w)
  }

  function Concat(ws: seq<string>): string {
    if ws == [] then [] else ws[0] + Concat(ws[1..])
  }

  // ---------------------------------------------------------------------------------------------
  // str.split()
  // ---------------------------------------------------------------------------------------------

  /** The whitespace-separated words of s, in order (Python's s.split()). */
  function Split(s: string): seq<string> {
    SplitFrom(s, [])
  }

  /** The words of s, where `word` is the part of a word already read before s. */
  function SplitFrom(s: string, word: string): seq<string>
    decreases |s|
  {
    if s == [] then
      (if word == [] then [] else [word])
    else if IsSpace(s[0]) then
      (if word == [] then [] else [word]) + SplitFrom(s[1..], [])
    else
      SplitFrom(s[1..], word + [s[0]])
  }

  /** s with every whitespace character removed. */
  function Squeeze(s: string): string {
    if s == [] then [] else (if IsSpace(s[0]) then [] else [s[0]]) + Squeeze(s[1..])
  }

  /** Every element split returns is a word. */
  lemma {:induction false} SplitFromWords(s: string, word: string)
    requires NoSpace(word)
    ensures forall w :: w in SplitFrom(s, word) ==> IsWord(w)
    decreases |s|
  {
    if s == [] {
    } else if IsSpace(s[0]) {
      SplitFromWords(s[1..], []);
    } else {
      SplitFromWords(s[1..], word + [s[0]]);
    }
  }

  lemma SplitWords(s: string)
    ensures forall w :: w in Split(s) ==> IsWord(w)
  {
    SplitFromWords(s, []);
  }

  /** Splitting loses nothing but whitespace: the words put back together are s without its blanks. */
  lemma {:induction false} SplitFromKeepsText(s: string, word: string)
    ensures Concat(SplitFrom(s, word)) == word + Squeeze(s)
    decreases |s|
  {
    if s == [] {
    } else if IsSpace(s[0]) {
      SplitFromKeepsText(s[1..], []);
      ConcatAppend(if word == [] then [] else [word], SplitFrom(s[1..], []));
    } else {
      SplitFromKeepsText(s[1..], word + [s[0]]);
    }
  }

  lemma SplitKeepsText(s: string)
    ensures Concat(Split(s)) == Squeeze(s)
  {
    SplitFromKeepsText(s, []);
  }

  lemma {:induction false} ConcatAppend(a: seq<string>, b: seq<string>)
    ensures Concat(a + b) == Concat(a) + Concat(b)
    decreases |a|
  {
    if a == [] {
      assert a + b == b;
    } else {
      assert (a + b)[1..] == a[1..] + b;
      ConcatAppend(a[1..], b);
    }
  }

  /** A line splits into no words exactly when it is whitespace only. */
  lemma {:induction false} SplitFromEmpty(s: string, word: string)
    ensures SplitFrom(s, word) == [] <==> word == [] && AllSpace(s)
    decreases |s|
  {
    if s == [] {
    } else if IsSpace(s[0]) {
      SplitFromEmpty(s[1..], []);
      assert AllSpace(s) <==> AllSpace(s[1..]) by {
        if AllSpace(s[1..]) {
          forall i | 0 <= i < |s| ensures IsSpace(s[i]) {
            if i > 0 { assert s[i] == s[1..][i - 1]; }
          }
        }
      }
    } else {
      SplitFromEmpty(s[1..], word + [s[0]]);
      assert !IsSpace(s[0]);
    }
  }

  lemma SplitEmpty(s: string)
    ensures Split(s) == [] <==> AllSpace(s)
  {
    SplitFromEmpty(s, []);
  }

  /** A whitespace character after a run of non-blanks ends the word being read. */
  lemma {:induction false} SplitFromWordThenSpace(a: string, c: char, rest: string, word: string)
    requires NoSpace(a) && IsSpace(c) && word + a != []
    ensures SplitFrom(a + [c] + rest, word) == [word + a] + SplitFrom(rest, [])
    decreases |a|
  {
    if a == [] {
      assert a + [c] + rest == [c] + rest;
      assert ([c] + rest)[0] == c && ([c] + rest)[1..] == rest;
      assert word + a == word;
    } else {
      var s := a + [c] + rest;
      assert s[0] == a[0] && s[1..] == a[1..] + [c] + rest;
      assert word + [a[0]] + a[1..] == word + a;
      SplitFromWordThenSpace(a[1..], c, rest, word + [a[0]]);
    }
  }

  /** The words of a line holding two words, each followed by one whitespace character. */
  lemma SplitTwoWords(a: string, sep: char, b: string, end: char)
    requires IsWord(a) && IsWord(b) && IsSpace(sep) && IsSpace(end)
    ensures Split(a + [sep] + b + [end]) == [a, b]
  {
    var tail := b + [end];
    assert a + [sep] + b + [end] == a + [sep] + tail;
    SplitFromWordThenSpace(a, sep, tail, []);
    assert [] + a == a;
    assert tail == b + [end] + [];
    SplitFromWordThenSpace(b, end, [], []);
    assert [] + b == b;
  }

  /** Words joined by single spaces, each followed by one. */
  function Unwords(ws: seq<string>): string {
    if ws == [] then [] else ws[0] + " " + Unwords(ws[1..])
  }

  /** Splitting undoes joining: split's inverse on words. */
  lemma {:induction false} SplitUnwords(ws: seq<string>)
    requires forall w :: w in ws ==> IsWord(w)
    ensures Split(Unwords(ws)) == ws
  {
    if ws != [] {
      assert ws[0] in ws;
      assert forall w :: w in ws[1..] ==> w in ws;
      SplitUnwords(ws[1..]);
      assert ws[0] + " " + Unwords(ws[1..]) == ws[0] + [' '] + Unwords(ws[1..]);
      SplitFromWordThenSpace(ws[0], ' ', Unwords(ws[1..]), []);
      assert [] + ws[0] == ws[0];
      assert ws == [ws[0]] + ws[1..];
    }
  }

  // ---------------------------------------------------------------------------------------------
  // Iterating over a text file
  // ---------------------------------------------------------------------------------------------

  /**
   * The lines `for line in f` yields for a file holding `text`: each line keeps its '\n', and a
   * last line without one is yielded only if it is not empty.
   */
  function Lines(text: string): seq<string> {
    LinesFrom(text, [])
  }

  /** The lines of text, where `line` is the part of a line already read before text. */
  function LinesFrom(text: string, line: string): seq<string>
    decreases |text|
  {
    if text == [] then
      (if line == [] then [] else [line])
    else if text[0] == '\n' then
      [line + ['\n']] + LinesFrom(text[1..], [])
    else
      LinesFrom(text[1..], line + [text[0]])
  }

  /** One line as the file iterator yields it: text without a newline, then its '\n'. */
  predicate IsLine(l: string) {
    |l| > 0 && l[|l| - 1] == '\n' && forall i :: 0 <= i < |l| - 1 ==> l[i] != '\n'
  }

  /** The file iterator never yields an empty line, and the lines put together are the whole text. */
  lemma {:induction false} LinesFromFacts(text: string, line: string)
    ensures forall l :: l in LinesFrom(text, line) ==> l != []
    ensures Concat(LinesFrom(text, line)) == line + text
    decreases |text|
  {
    if text == [] {
    } else if text[0] == '\n' {
      LinesFromFacts(text[1..], []);
      ConcatAppend([line + ['\n']], LinesFrom(text[1..], []));
      assert text == [text[0]] + text[1..];
    } else {
      LinesFromFacts(text[1..], line + [text[0]]);
      assert text == [text[0]] + text[1..];
    }
  }

  lemma LinesFacts(text: string)
    ensures forall l :: l in Lines(text) ==> l != []
    ensures Concat(Lines(text)) == text
  {
    LinesFromFacts(text, []);
  }

  /** Reading a line back after the part of it before its newline. */
  lemma {:induction false} LinesFromLine(a: string, rest: string, line: string)
    requires forall i :: 0 <= i < |a| ==> a[i] != '\n'
    ensures LinesFrom(a + ['\n'] + rest, line) == [line + a + ['\n']] + LinesFrom(rest, [])
    decreases |a|
  {
    if a == [] {
      assert a + ['\n'] + rest == ['\n'] + rest;
      assert (['\n'] + rest)[0] == '\n' && (['\n'] + rest)[1..] == rest;
      assert line + a == line;
    } else {
      var t := a + ['\n'] + rest;
      assert t[0] == a[0] && t[1..] == a[1..] + ['\n'] + rest;
      assert line + [a[0]] + a[1..] == line + a;
      LinesFromLine(a[1..], rest, line + [a[0]]);
    }
  }

  /** Writing whole lines to a file and iterating over it gives back exactly those lines. */
  lemma {:induction false} LinesOfConcat(ls: seq<string>)
    requires forall i :: 0 <= i < |ls| ==> IsLine(ls[i])
    ensures Lines(Concat(ls)) == ls
  {
    if ls != [] {
      var l := ls[0];
      var a := l[..|l| - 1];
      assert l == a + ['\n'];
      assert Concat(ls) == a + ['\n'] + Concat(ls[1..]);
      LinesFromLine(a, Concat(ls[1..]), []);
      assert [] + a + ['\n'] == l;
      LinesOfConcat(ls[1..]);
      assert ls == [l] + ls[1..];
    }
  }
}
