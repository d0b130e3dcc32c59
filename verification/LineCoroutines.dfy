/** The reader, the writer and the loop that feeds one from the other. */
module LineCoroutines {
  import opened Options
  import opened LinesModel
  import LinesTheorems

  class WriteCoroutine {
    var file: string

    /** Opened for appending. */
    constructor (existing: string)
      ensures file == existing
    {
      file := existing;
    }

    method Resume(arg: int)
      modifies this
      ensures file == old(file) + Format(arg) + "\n"
    {
      file := file + Format(arg) + "\n";
    }
  }

  class ReadCoroutine {
    const lines: seq<Line>
    var next: nat

    constructor (lines: seq<Line>)
      ensures this.lines == lines && next == 0
    {
      this.lines, next := lines, 0;
    }

    ghost function Rest(): seq<Line>
      reads this
    {
      if next <= |lines| then lines[next..] else []
    }

    /** Yields the next number; completes at the end, on an error, or on a line that is
        not a number. */
    method Resume() returns (r: Option<int>)
      modifies this
      ensures r == if old(Rest()) == [] then None else ParseLine(old(Rest())[0])
      ensures Rest() == if old(Rest()) == [] then [] else old(Rest())[1..]
    {
      if next >= |lines| {
        return None;
      }
      var line := lines[next];
      next := next + 1;
      match line
      case Text(text) => r := Parse(text);
      case Unreadable => r := None;
    }
  }

  class CoroutineManager {
    const reader: ReadCoroutine
    const writer: WriteCoroutine

    constructor (lines: seq<Line>, existing: string)
      ensures fresh(reader) && fresh(writer)
      ensures reader.Rest() == lines && writer.file == existing
    {
      reader := new ReadCoroutine(lines);
      writer := new WriteCoroutine(existing);
    }

    /** Appends one canonical line for each number before the first line that is not one. */
    method Run()
      modifies reader, writer
      ensures writer.file == old(writer.file) + Render(Numbers(old(reader.Rest())))
    {
      ghost var whole := writer.file + Render(Numbers(reader.Rest()));
      while true
        invariant writer.file + Render(Numbers(reader.Rest())) == whole
        decreases |reader.Rest()|
      {
        LinesTheorems.WriteOne(writer.file, reader.Rest());
        var r := reader.Resume();
        if r.None? {
          break;
        }
        writer.Resume(r.value);
      }
    }
  }

  /** One run over some lines, and a second over the file the first one wrote. */
  method RunTwice(lines: seq<Line>) returns (first: string, second: string)
    ensures first == Render(Numbers(lines)) && second == first
  {
    var manager := new CoroutineManager(lines, "");
    manager.Run();
    first := manager.writer.file;
    var again := new CoroutineManager(Lines(first), "");
    again.Run();
    second := again.writer.file;
    assert "" + Render(Numbers(lines)) == Render(Numbers(lines));
    LinesTheorems.SecondRunIsIdentical(lines);
  }
}
