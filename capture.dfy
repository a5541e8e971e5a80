/**
 The output recorder the report runs under: every helper that prints appends
 lines to a buffer, and `flush` hands the buffer over and empties it. The
 printing helpers belong to an external library; each is modelled as
 appending one kind of line, without its exact text format.
 */
module Capture {
  import opened Data

  datatype Line =
    | Rule(title: string)   // print_line(text=title): a titled separator
    | Dump(task: Task)      // prints(task): a pretty-printed task
    | Text(text: string)    // log(text)
    | Item(text: string)    // one element printed by print_iter

  /** One `Item` line per element, in order. */
  function ItemLines(items: seq<string>): (ls: seq<Line>)
    ensures |ls| == |items|
    ensures forall i :: 0 <= i < |items| ==> ls[i] == Item(items[i])
  {
    seq(|items|, i requires 0 <= i < |items| => Item(items[i]))
  }

  class Recorder {
    var lines: seq<Line>

    constructor ()
      ensures lines == []
    {
      lines := [];
    }

    method Log(text: string)
      modifies this
      ensures lines == old(lines) + [Text(text)]
    {
      lines := lines + [Text(text)];
    }

    method PrintLine(title: string)
      modifies this
      ensures lines == old(lines) + [Rule(title)]
    {
      lines := lines + [Rule(title)];
    }

    method Prints(task: Task)
      modifies this
      ensures lines == old(lines) + [Dump(task)]
    {
      lines := lines + [Dump(task)];
    }

    method PrintIter(items: seq<string>)
      modifies this
      ensures lines == old(lines) + ItemLines(items)
    {
      lines := lines + ItemLines(items);
    }

    /** Returns everything captured since the last flush and starts afresh. */
    method Flush() returns (captured: seq<Line>)
      modifies this
      ensures captured == old(lines) && lines == []
    {
      captured := lines;
      lines := [];
    }
  }
}
