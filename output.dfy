/** The output stream `debug_me` writes to (its `:file` option, `$stdout` by
    default), seen as a buffer of the lines put to it so far. The buffer only
    grows: `PutLine` appends one line and `Flush` leaves the lines alone. */
module Output {

  class Sink {
    /** What the stream's `to_s` gives (on Ruby 1.8, `#<IO:0x...>` with an
        address); it is printed only when the tag itself is a stream. */
    const shown: string
    /** Every line written so far, oldest first. */
    var lines: seq<string>
    /** How many times the stream has been flushed. */
    var flushes: nat

    constructor (shown: string)
      ensures this.shown == shown && lines == [] && flushes == 0
    {
      this.shown := shown;
      lines := [];
      flushes := 0;
    }

    /** `puts`: one more line at the end, nothing else touched. */
    method PutLine(line: string)
      modifies this
      ensures lines == old(lines) + [line]
      ensures flushes == old(flushes)
    {
      lines := lines + [line];
    }

    /** `flush`: the written lines are unchanged. */
    method Flush()
      modifies this
      ensures lines == old(lines)
      ensures flushes == old(flushes) + 1
    {
      flushes := flushes + 1;
    }
  }
}
