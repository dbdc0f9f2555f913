/**
 * The emitter of `src/emit.rs`: two text buffers that only grow, a header
 * (declarations and boilerplate) and the code, written out header first.
 */
module Emit {

  /** The text `write_file` hands to the file: the header first, then the code. */
  function WrittenContent(header: string, code: string): (r: string)
    ensures |r| == |header| + |code|
    ensures r[..|header|] == header
    ensures r[|header|..] == code
  {
    header + code
  }

  class Emitter {
    var filePath: string
    var header: string
    var code: string

    /** The text the emitter would write now. */
    function Content(): (r: string)
      reads this
      ensures header <= r && r[|header|..] == code
    {
      WrittenContent(header, code)
    }

    /** `Emitter::new`: both buffers empty. */
    constructor (filePath: string)
      ensures this.filePath == filePath
      ensures header == [] && code == []
      ensures Content() == []
    {
      this.filePath := filePath;
      header := "";
      code := "";
    }

    /** `emit`: the text is appended to the code. */
    method Emit(s: string)
      modifies this
      ensures code == old(code) + s
      ensures header == old(header) && filePath == old(filePath)
      ensures old(code) <= code
      ensures Content() == old(Content()) + s
    {
      code := code + s;
    }

    /** `emit_line`: the text and a line break are appended to the code. */
    method EmitLine(s: string)
      modifies this
      ensures code == old(code) + s + "\n"
      ensures header == old(header) && filePath == old(filePath)
      ensures old(code) <= code
      ensures Content() == old(Content()) + s + "\n"
    {
      code := code + s;
      code := code + "\n";
    }

    /**
     * `header_line`: the text is appended to the header, but its line break
     * goes to the code, so the written text gains the text in the middle and
     * the line break at its very end.
     */
    method HeaderLine(s: string)
      modifies this
      ensures header == old(header) + s
      ensures code == old(code) + "\n"
      ensures filePath == old(filePath)
      ensures old(header) <= header && old(code) <= code
      ensures Content() == old(header) + s + old(code) + "\n"
    {
      header := header + s;
      code := code + "\n";
    }
  }
}
