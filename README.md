# PySpec Dataset in Dafny

PySpec is a small Qt program that shows absorption spectra. Its `Dataset` class holds a spectrum as
two lists, `x_values` (wavelengths) and `y_values` (absorptions), plus four pieces of metadata:
`x_label`, `y_label`, `filename` and `filetype`. This project models and proves four things:

- how a `Dataset` fills itself from an xy text source;
- how it resets itself (`valInit`);
- how it writes itself back out (`write`);
- how the main window's "Edit info" dialog changes its metadata (`Window.edit`).

The class appears twice in the repository. `PySpec.py` is the current program. `main.py` is an
older copy whose `Dataset` is the same apart from two things: the class docstring is wrapped
differently (`PySpec.py:33-34` against `main.py:26`), and `TestComment` is a module-level function
there (`main.py:22-23`) rather than a method (`PySpec.py:78-79`). Each
`PySpec.py` line range below has a `main.py` counterpart 8 to 11 lines earlier:

| part | `PySpec.py` | `main.py` |
|---|---|---|
| constructor | 43-76 | 35-68 |
| `fileReadError` | 81-87 | 70-76 |
| `valInit` | 89-98 | 78-87 |
| `write` | 100-106 | 89-95 |

The modules:

- `Text`: Python's `str.split()` with no argument (`Split`), and iteration over an open text file
  (`Lines`).
- `XyFormat`: the xy format as functions.
  - `Classify` gives the reader's verdict on one line: comment, blank, row, wrong word count, or
    not numeric.
  - `Step` and `Run` read a sequence of verdicts, numbering lines from 1. Every refused line
    shows the Abort/Ignore prompt, and an Abort empties both columns and stops reading.
  - `Parse` is what the constructor reads from a whole source.
  - `Written` is what `write` emits.
- `PySpec`: the program's objects.
  - `x_values` and `y_values` are class-level lists, so every `Dataset` shares them. They are
    the two fields of one `Columns` object that every `Dataset` refers to.
  - `Dataset` is a class with the labels, name and type as fields. Its constructor runs the read
    loop, and `ValInit`, `FileReadError` and `Write` mirror the methods of the same names.
  - `ReadLine`, the constructor and `Write` are proved against the `XyFormat` functions `Step`,
    `Parse` and `Written`. `FileReadError`, `ValInit` and `Edit` state each field's new value
    directly.

Some behaviour comes from outside the program, so the model takes it as parameters:

- Python's `float()` on one word is `num: string -> Option<real>`.
- `str()` on a float is `show: real -> string`.
- The user's answer to the modal prompt for line `n` is `decide(n)`.
- The destination file is a `Sink` that records each string handed to its `write`.

## Model

| member | source | states |
|---|---|---|
| `PySpec.Columns.constructor` | PySpec.py:36-37 | the class-level lists start out empty |
| `PySpec.Dataset.constructor` | PySpec.py:43-76 | after construction the shared lists hold exactly what `Parse` reads from the source; nothing is read without a source. The labels are the defaults. The name and type are the arguments, unless the user aborted, in which case they are `None` and `"xy"`. The ghost field `prompted` lists the line numbers the prompt was shown for |
| `PySpec.Dataset.ReadLine` | PySpec.py:55-76 | one pass of the read loop changes the lists and prompts exactly as `Step` says for the line's verdict. It answers true exactly when reading must stop, and only then are the metadata reset |
| `PySpec.Dataset.FileReadError` | PySpec.py:81-87 | the prompt is recorded for the line number. It answers true exactly on Abort, and then both lists are emptied and the metadata reset. On Ignore nothing else changes |
| `PySpec.Dataset.ValInit` | PySpec.py:89-98 | both shared lists are emptied. The labels are "Wavelength (nm)" and "Absorption", the name is `None` and the type is "xy" |
| `PySpec.Dataset.Write` | PySpec.py:100-106 | without a destination nothing is written. With one, the strings written are exactly `Written(xs, ys)`: the header, then one `x<TAB>y<NEWLINE>` line for each index both lists have. It completes exactly when `y_values` is at least as long as `x_values`; otherwise indexing `y_values` fails |
| `PySpec.ConstructAnother` | PySpec.py:36-47 | constructing a second `Dataset` replaces the data an earlier `Dataset` sees with what the new one read. The earlier one's labels, name and type are untouched |
| `PySpec.Edit` | PySpec.py:276-284 | on OK the name, type and both labels become the dialog's four texts. On Cancel they stay. The data lists and prompt history never change |
| `XyFormat.TestComment` | PySpec.py:78-79 | a line is a comment when its first character is '#'. The module-level copy is `main.py:22-23` |
| `XyFormat.Classify` | PySpec.py:56-76 | the reader's verdict on one line: comment, then blank (no words), then refused for a word count other than two, then refused for a first or second word that does not parse, keeping the first word's value when only it parsed, and otherwise a row |
| `XyFormat.Kinds` | PySpec.py:54-60 | the verdicts on the source's lines, in file order |
| `XyFormat.Step` | PySpec.py:56-87 | the effect of one line: comments and blank lines change nothing, a row appends x and y, a refused line prompts with its number, where Abort empties both lists and stops, and Ignore keeps the x already appended for a half row |
| `XyFormat.Run` | PySpec.py:53-76 | the loop: lines are read in order with 1-based numbers until they run out or the user aborts |
| `XyFormat.Parse` | PySpec.py:43-76 | what the constructor reads from a whole source, starting from empty lists |
| `PySpec.Loaded` | PySpec.py:49 | with no source nothing is read |
| `XyFormat.DataLine` | PySpec.py:106 | one data line: `str(x)`, a tab, `str(y)`, a newline |
| `XyFormat.Written` | PySpec.py:103-106 | the strings `write` hands to the destination: the header, then one data line for each index up to the first one `y_values` lacks |
| `Text.Split` | PySpec.py:60 | Python's `str.split()` with no argument: the maximal runs of characters that are not whitespace, in order, where whitespace is exactly what `str.isspace()` accepts (`Text.IsSpace`) |
| `Text.Lines` | PySpec.py:54 | the lines that iterating over a file opened in text mode yields, each keeping its '\n'; a last line without one is yielded only if it is not empty |
| `Text.SplitWords` | PySpec.py:60 | every element of `split()` is a non-empty run of non-whitespace |
| `Text.SplitKeepsText` | PySpec.py:60 | the words of a line put back together are the line with its whitespace removed |
| `Text.SplitEmpty` | PySpec.py:60-62 | a line splits into no words exactly when it is whitespace only |
| `Text.SplitTwoWords` | PySpec.py:60 | a line made of two words, each followed by one whitespace character, splits into exactly those two words |
| `Text.SplitUnwords` | PySpec.py:60 | splitting words joined by spaces gives the words back |
| `Text.LinesFacts` | PySpec.py:54 | iterating over a file never yields an empty line, and the yielded lines put together are the whole text |
| `Text.LinesOfConcat` | PySpec.py:54 | writing whole lines to a file and iterating over it yields exactly those lines |
| `XyFormat.SkippedLine` | main.py:48-54 | a comment line or a whitespace-only line is never refused and leaves the state as it was, whatever the answers |
| `XyFormat.BlankIffWhitespace` | PySpec.py:56-62 | a line is treated as blank exactly when it is not a comment and holds only whitespace |
| `XyFormat.RefusedIff` | PySpec.py:56-76 | a line is refused exactly when it is not a comment, not whitespace only, and has a word count other than two or a word that does not parse |
| `XyFormat.HalfRowIff` | PySpec.py:68-73 | a half row is exactly a two-word line, not a comment, whose first word parses and whose second does not. The value kept is the first word's |
| `XyFormat.ClassifyTwoWords` | PySpec.py:60-71 | the verdict on a two-word line is decided by which of its two words parse |
| `XyFormat.RunAppend` | PySpec.py:53-55 | reading `a + b` is reading `a`, then reading `b` from where `a` left off, with line numbers continuing |
| `XyFormat.RunAborted` | PySpec.py:64-65 | after an Abort no further line is read |
| `XyFormat.RunIgnoring` | PySpec.py:54-76 | when every prompt is answered Ignore, the lists gain exactly the values the lines contribute, in file order. The prompts are exactly the numbers of the refused lines, and the read never aborts |
| `XyFormat.AbortStops` | PySpec.py:63-87 | an Abort on a refused line drops every value read so far. The prompts are those of the earlier refused lines plus this line's number, and the later lines are never looked at |
| `XyFormat.AbortedIsEmpty` | PySpec.py:81-98 | whatever the answers, a read that was aborted leaves both lists empty |
| `XyFormat.XsReadLength` | PySpec.py:69-71 | `x_values` gains one value more than `y_values` for each half row |
| `XyFormat.ColumnGap` | main.py:60-63 | when every prompt is answered Ignore, the lists end up the same length exactly when the source has no half row |
| `XyFormat.BadRowExample` | PySpec.py:63-76 | for "1 2", "bad row", "3 4": Ignore on line 2 gives x = [1, 3] and y = [2, 4] with one prompt. Abort gives two empty lists and the read stops |
| `XyFormat.HalfRowMisaligns` | main.py:61-63 | for "1 a", "2 3" with Ignore on line 1, x = [1, 2] and y = [3]: the x of line 1 is paired with the y of line 2 |
| `XyFormat.PairAtOnceKeepsBalance` | PySpec.py:69-71 | with a row appended only once both words have parsed, the lists keep equal lengths whatever the lines and answers |
| `XyFormat.CommitOrderAgrees` | PySpec.py:69-71 | on a source without half rows the program's order and the corrected order read the same |
| `XyFormat.RunPairs` | PySpec.py:68-71 | lines that are all rows add exactly their values to the lists and prompt for none |
| `XyFormat.ClassifyDataLine` | PySpec.py:106 | when `str()` shows x and y readably, the line `write` emits for (x, y) reads back as the row (x, y) |
| `XyFormat.WrittenAreLines` | PySpec.py:104-106 | when `str()` shows the written values readably, every string `write` emits is one whole newline-terminated line |
| `XyFormat.KindsOfWritten` | PySpec.py:103-106 | when `str()` shows the written values readably, the text `write` emits reads as one comment line followed by one row per pair, in order |
| `XyFormat.WriteThenRead` | PySpec.py:100-106 | writing lists of equal length whose values `str()` shows readably, then reading the file back, gives the same lists with no prompt, whatever the answers would have been |
| `XyFormat.ParseWriteParse` | PySpec.py:43-106 | reading a source without refused lines, writing the values read (shown readably by `str()`) and reading the file again reproduces the first read |

## Left out

- The Qt parts are not modelled: the window, the plot through matplotlib, the message box, the
  file dialogs of `Window.open`, `save` and `saveAs`, and the layout of the "Edit info" dialog.
  What the user does in them becomes a parameter: `decide` for the prompt, `EditReply` for the
  dialog's OK/Cancel and its four texts.
- `Dataset.plot` and the `batchMode`/`withGUI` flags are not modelled, since they only draw and
  choose the interface.
- `main.py`'s `Window.edit` only prints, so it changes no state and is not modelled.
- Python's `float()` and `str()` on floats are the parameters `num` and `show`. Floating-point
  values are `real`. The round-trip lemmas need `ShowsReadably(show, num, vs)`, which holds only
  for the values `vs` actually written: `str()` shows each as one word, not starting with '#',
  that `float()` reads back as the same value. Python's `str()` and `float()` do this for every
  finite, non-NaN double. `XyFormat.ShowsReadablyExample` exhibits a pair that meets it.
- Every `Dataset` must be given the program's single `Columns` object. In the program that object
  is unique because it is a class attribute (`PySpec.py:36-37`). In the model, passing the same
  `Columns` to every constructor is the caller's job, and `PySpec.ConstructAnother` shows what
  follows when it does.
- The text of the prompt is not modelled; only the line number it names is recorded. The message
  also lacks the spaces around "does not contain", so for line 3 it reads "Line #3does not
  contain2 numbers".
- `Text.Lines` splits on '\n' only. Python's universal-newline translation of "\r\n" and "\r" is
  not modelled.
- PySpec.Dataset.constructor: requires every source line to be non-empty. `TestComment` reads a
  line's first character and would raise on an empty one, but iterating over a file never yields
  an empty line (`Text.LinesFacts`).
- PySpec.Dataset.ReadLine: the bare `except:` also catches exceptions other than `float()`'s
  ValueError, such as a keyboard interrupt. Only a word that fails to parse is modelled.
- PySpec.Dataset.Write: the `type` argument is accepted and ignored, as in the program. When
  `y_values` is shorter than `x_values`, the IndexError is modelled as `completed == false` after
  the lines already written. Its propagation to the caller, which leaves the file open, is not
  modelled.
- An empty source list is treated as no source by `if source:`. Both read nothing, so the model
  does not tell them apart.

## Findings

| source | as written | input that shows it | evidently intended | confidence | as-written member | corrected member |
|---|---|---|---|---|---|---|
| PySpec.py:69-71 (also main.py:61-63) | `x_values.append(float(words[0]))` runs before `float(words[1])` is tried. When the second word fails and the user answers Ignore, the x value stays with no y. From then on `x_values[i]` and `y_values[i]` come from different lines, and `write` raises IndexError at the end | lines "1 a" and "2 3", Ignore at line 1: x = [1, 2], y = [3] | a line adds a row only when both words parse, so the lists keep equal lengths | not executed | `XyFormat.HalfRowMisaligns` | `XyFormat.PairAtOnceKeepsBalance` |

The corrected reading is `Run` with the commit mode `PairAtOnce`. `XyFormat.CommitOrderAgrees`
shows it reads the same as the program on every source without a half row. `PySpec.Dataset` itself
keeps the program's behaviour, because its contracts describe what the program does.
