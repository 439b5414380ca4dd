/** The console output stream (`cout`), reduced to the lines written to it.
    Every write in the modelled program ends with `endl`, so the stream is
    the sequence of completed lines. */
module Ostream {

  class Stream {
    /** Every line written so far, oldest first. */
    var lines: seq<string>

    /** A stream on which nothing has been written yet. */
    constructor ()
      ensures lines == []
    {
      lines := [];
    }

    /** `cout << s << endl`: appends one line and changes nothing else.
        A bare `cout << endl` is `WriteLine("")`. */
    method WriteLine(s: string)
      modifies this
      ensures lines == old(lines) + [s]
    {
      lines := lines + [s];
    }
  }
}
