/**
 * PySpec's Dataset class: it fills itself from a source of lines, resets itself, and writes
 * itself to a destination; and the main window's metadata edit.
 *
 * x_values and y_values are class-level lists in the program, shared by every Dataset and emptied
 * in place; they are the fields of one Columns object that every Dataset refers to.
 */
module PySpec {
  import opened Wrappers
  import opened Text
  import opened XyFormat

  /** Dataset.x_values and Dataset.y_values: one pair of lists for the whole program. */
  class Columns {
    var xs: seq<real>
    var ys: seq<real>

    constructor ()
      ensures xs == [] && ys == []
    {
      xs, ys := [], [];
    }
  }

  /** The destination handed to write: the strings its write method has been given, in order. */
  class Sink {
    var written: seq<string>

    constructor ()
      ensures written == []
    {
      written := [];
    }

    method Write(s: string)
      modifies this
      ensures written == old(written) + [s]
    {
      written := written + [s];
    }
  }

  /** What constructing a Dataset from `source` reads: nothing when there is no source. */
  function Loaded(source: Option<seq<string>>, num: string -> Option<real>, decide: nat -> Decision): State
    requires source.Some? ==> NonEmptyLines(source.value)
  {
    if source.None? then Start else Parse(source.value, num, decide)
  }

  class Dataset {
    /** The class-level lists this Dataset reads and appends to. */
    const columns: Columns
    var xLabel: string
    var yLabel: string
    var filename: Option<string>
    var filetype: string
    /** The line numbers the Abort/Ignore prompt has been shown for, in order. */
    ghost var prompted: seq<nat>

    /**
     * Dataset(source, name, type): reset, take the name and type, then read the source line by
     * line. On Abort the reset inside the prompt also drops the name and type.
     */
    constructor (shared: Columns, source: Option<seq<string>>, name: Option<string>, ftype: string,
                 num: string -> Option<real>, decide: nat -> Decision)
      requires source.Some? ==> NonEmptyLines(source.value)
      modifies shared
      ensures columns == shared
      ensures shared.xs == Loaded(source, num, decide).xs
      ensures shared.ys == Loaded(source, num, decide).ys
      ensures prompted == Loaded(source, num, decide).prompts
      ensures xLabel == DefaultXLabel && yLabel == DefaultYLabel
      ensures filename == (if Loaded(source, num, decide).aborted then None else name)
      ensures filetype == (if Loaded(source, num, decide).aborted then DefaultFiletype else ftype)
    {
      columns := shared;
      xLabel, yLabel := DefaultXLabel, DefaultYLabel;
      filename, filetype := None, DefaultFiletype;
      prompted := [];
      new;
      ValInit();
      filename := name;
      filetype := ftype;
      if source.Some? {
        var lines := source.value;
        ghost var kinds := Kinds(lines, num);
        var lineNumber := 0;
        var i := 0;
        while i < |lines|
          invariant 0 <= i <= |lines| && lineNumber == i
          invariant xLabel == DefaultXLabel && yLabel == DefaultYLabel
          invariant filename == name && filetype == ftype
          invariant Parse(lines, num, decide) == Run(XFirst, kinds[i..], i + 1, State(columns.xs, columns.ys, prompted, false), decide)
        {
          var line := lines[i];
          ghost var before := State(columns.xs, columns.ys, prompted, false);
          RunUnfold(XFirst, kinds[i..], i + 1, before, decide);
          assert kinds[i..][0] == Classify(line, num);
          assert kinds[i..][1..] == kinds[i + 1..];
          lineNumber := lineNumber + 1;
          var abort := ReadLine(line, lineNumber, num, decide);
          i := i + 1;
          if abort {
            RunAborted(XFirst, kinds[i..], i + 1, State(columns.xs, columns.ys, prompted, true), decide);
            break;
          }
        }
      }
    }

    /**
     * One pass of the constructor's loop: skip a comment or blank line, prompt for a line without
     * exactly two words, and otherwise append x, then y, prompting when either fails to parse.
     * `abort` is true when the prompt was answered Abort and reading must stop.
     */
    method ReadLine(line: string, lineNumber: nat, num: string -> Option<real>, decide: nat -> Decision) returns (abort: bool)
      requires line != []
      modifies this, columns
      ensures State(columns.xs, columns.ys, prompted, abort) ==
        Step(XFirst, State(old(columns.xs), old(columns.ys), old(prompted), false), Classify(line, num), lineNumber, decide)
      ensures abort ==> xLabel == DefaultXLabel && yLabel == DefaultYLabel
      ensures abort ==> filename == None && filetype == DefaultFiletype
      ensures !abort ==> xLabel == old(xLabel) && yLabel == old(yLabel)
      ensures !abort ==> filename == old(filename) && filetype == old(filetype)
    {
      if TestComment(line) {
        return false;
      }
      var words := Split(line);
      if |words| == 0 {
        return false;
      } else if |words| != 2 {
        abort := FileReadError(lineNumber, Expected, decide);
        return;
      }
      var x := num(words[0]);
      var failed := x.None?;
      if !failed {
        columns.xs := columns.xs + [x.value];
        var y := num(words[1]);
        failed := y.None?;
        if !failed {
          columns.ys := columns.ys + [y.value];
        }
      }
      abort := false;
      if failed {
        abort := FileReadError(lineNumber, Expected, decide);
      }
    }

    /** The prompt for a refused line: Abort resets the Dataset and answers true, Ignore changes nothing. */
    method FileReadError(lineNumber: nat, expected: string, decide: nat -> Decision) returns (abort: bool)
      modifies this, columns
      ensures abort <==> decide(lineNumber) == Abort
      ensures prompted == old(prompted) + [lineNumber]
      ensures abort ==> columns.xs == [] && columns.ys == []
      ensures abort ==> xLabel == DefaultXLabel && yLabel == DefaultYLabel
      ensures abort ==> filename == None && filetype == DefaultFiletype
      ensures !abort ==> columns.xs == old(columns.xs) && columns.ys == old(columns.ys)
      ensures !abort ==> xLabel == old(xLabel) && yLabel == old(yLabel)
      ensures !abort ==> filename == old(filename) && filetype == old(filetype)
    {
      prompted := prompted + [lineNumber];
      if decide(lineNumber) == Abort {
        ValInit();
        return true;
      }
      return false;
    }

    /**
     * valInit: empty the shared lists one pop at a time, restore the default labels, drop the
     * name and set the type to "xy".
     */
    method ValInit()
      modifies this, columns
      ensures columns.xs == [] && columns.ys == []
      ensures xLabel == DefaultXLabel && yLabel == DefaultYLabel
      ensures filename == None && filetype == DefaultFiletype
      ensures prompted == old(prompted)
    {
      while |columns.xs| > 0
        invariant prompted == old(prompted)
        decreases |columns.xs|
      {
        columns.xs := columns.xs[..|columns.xs| - 1];
      }
      while |columns.ys| > 0
        invariant prompted == old(prompted)
        invariant columns.xs == []
        decreases |columns.ys|
      {
        columns.ys := columns.ys[..|columns.ys| - 1];
      }
      xLabel := DefaultXLabel;
      yLabel := DefaultYLabel;
      filename := None;
      filetype := DefaultFiletype;
    }

    /**
     * write(dest, type): with a destination, the header and then one line per index of x_values,
     * whatever the type. A y_values shorter than x_values raises at its first missing index, after
     * the lines before it were written; `completed` is false then.
     */
    method Write(dest: Sink?, ftype: Option<string>, show: real -> string) returns (completed: bool)
      modifies dest
      ensures dest == null ==> completed
      ensures dest != null ==> dest.written == old(dest.written) + Written(columns.xs, columns.ys, show)
      ensures dest != null ==> (completed <==> |columns.xs| <= |columns.ys|)
    {
      if dest == null {
        return true;
      }
      dest.Write(Header);
      var xs, ys := columns.xs, columns.ys;
      var i := 0;
      while i < |xs|
        invariant 0 <= i <= |xs| && i <= |ys|
        invariant dest.written == old(dest.written) + [Header] + seq(i, k requires 0 <= k < i => DataLine(xs[k], ys[k], show))
      {
        if i >= |ys| {
          assert Written(xs, ys, show) == [Header] + seq(i, k requires 0 <= k < i => DataLine(xs[k], ys[k], show));
          return false;
        }
        ghost var done := seq(i, k requires 0 <= k < i => DataLine(xs[k], ys[k], show));
        dest.Write(DataLine(xs[i], ys[i], show));
        i := i + 1;
        assert seq(i, k requires 0 <= k < i => DataLine(xs[k], ys[k], show)) == done + [DataLine(xs[i - 1], ys[i - 1], show)];
      }
      assert Written(xs, ys, show) == [Header] + seq(i, k requires 0 <= k < i => DataLine(xs[k], ys[k], show));
      return true;
    }
  }

  /**
   * Constructing a Dataset empties and refills the lists every earlier Dataset reads: afterwards
   * an earlier Dataset sees exactly the data the new one read, while its own labels, name and
   * type stay as they were.
   */
  method ConstructAnother(earlier: Dataset, source: Option<seq<string>>, name: Option<string>, ftype: string,
                          num: string -> Option<real>, decide: nat -> Decision) returns (later: Dataset)
    requires source.Some? ==> NonEmptyLines(source.value)
    modifies earlier.columns
    ensures later.columns == earlier.columns
    ensures earlier.columns.xs == Loaded(source, num, decide).xs
    ensures earlier.columns.ys == Loaded(source, num, decide).ys
    ensures earlier.xLabel == old(earlier.xLabel) && earlier.yLabel == old(earlier.yLabel)
    ensures earlier.filename == old(earlier.filename) && earlier.filetype == old(earlier.filetype)
  {
    later := new Dataset(earlier.columns, source, name, ftype, num, decide);
  }

  /** The answer of the "Edit info" dialog: Cancel, or OK with the texts of its four fields. */
  datatype EditReply =
    | Cancelled
    | Accepted(filename: string, filetype: string, xLabel: string, yLabel: string)

  /**
   * Window.edit: on OK the four metadata fields take the dialog's texts; the data lists and
   * everything else are left alone.
   */
  method Edit(data: Dataset, reply: EditReply)
    modifies data`filename, data`filetype, data`xLabel, data`yLabel
    ensures reply.Accepted? ==> data.filename == Some(reply.filename) && data.filetype == reply.filetype
    ensures reply.Accepted? ==> data.xLabel == reply.xLabel && data.yLabel == reply.yLabel
    ensures reply.Cancelled? ==> data.filename == old(data.filename) && data.filetype == old(data.filetype)
    ensures reply.Cancelled? ==> data.xLabel == old(data.xLabel) && data.yLabel == old(data.yLabel)
    ensures data.columns.xs == old(data.columns.xs) && data.columns.ys == old(data.columns.ys)
    ensures data.prompted == old(data.prompted)
  {
    if reply.Accepted? {
      data.filename := Some(reply.filename);
      data.filetype := reply.filetype;
      data.xLabel := reply.xLabel;
      data.yLabel := reply.yLabel;
    }
  }
}
