/** `DebugMe#debug_me`: merge the options, build the prefix, write the
    `Source:` header, pick the names, and write one line per name to the
    output stream, then flush it. The time stamp and the call site are
    inputs, the caller's scope is a `Scope` value, and the block is the value
    it returned. */
module DebugMe {
  import opened Output
  import opened Options
  import opened Names
  import opened Report

  /** The output stream the merged options name (`options[:file]`). */
  function FileOf(opts: OptionMap): (f: Sink)
    requires Get(opts, File).Stream?
  {
    Get(opts, File).sink
  }

  /** Associativity of sequence concatenation, stated once so that `DebugMe`
      need not search for it among the rest of its proof. */
  lemma AppendAssoc<T>(a: seq<T>, b: seq<T>, c: seq<T>)
    ensures (a + b) + c == a + (b + c)
  {
  }

  /** The prefix `s`, built as the source builds it: empty, then the time
      stamp and a space when `:time` is truthy, then a space and the tag. */
  method BuildPrefix(opts: OptionMap, timestamp: string) returns (s: string)
    ensures s == Prefix(opts, timestamp)
  {
    s := "";
    if Truthy(Get(opts, Time)) {
      s := s + timestamp + " ";
    }
    s := s + " " + Shown(Get(opts, Tag));
  }

  /** The `each` loop: one line per name, in order, into `f`, stopping at
      the first name `values` does not bind; the lines already written stay.
      Returns how far it got: all names, or the position of the unbound one. */
  method WriteBindings(f: Sink, prefix: string, names: seq<string>, values: map<string, string>)
    returns (k: nat)
    modifies f
    ensures k == FirstUnbound(names, values)
    ensures f.lines == old(f.lines) + BindingLines(prefix, names, values, k)
    ensures f.flushes == old(f.flushes)
  {
    k := 0;
    while k < |names|
      invariant 0 <= k <= |names|
      invariant forall j :: 0 <= j < k ==> names[j] in values
      invariant f.lines == old(f.lines) + BindingLines(prefix, names, values, k)
      invariant f.flushes == old(f.flushes)
    {
      if names[k] !in values {
        return;
      }
      f.PutLine(prefix + " " + names[k] + " -=> " + values[names[k]]);
      BindingLinesExtend(prefix, names, values, k);
      k := k + 1;
    }
  }

  /** One call of `debug_me`. The stream that `:file` names after the merge
      receives exactly the lines `Run` gives, after what it held before; it is
      flushed once when every reported name is bound, and the call raises at
      the first unbound name otherwise. */
  method DebugMe(options: Arg, block: Block, stdout: Sink, scope: Scope,
                 timestamp: string, callSite: string) returns (outcome: Outcome)
    requires Get(Merge(options, stdout), File).Stream?
    modifies FileOf(Merge(options, stdout))
    ensures var f, t := FileOf(Merge(options, stdout)),
                        Run(Merge(options, stdout), block, scope, timestamp, callSite);
      f.lines == old(f.lines) + t.lines &&
      outcome == t.outcome &&
      f.flushes == old(f.flushes) + (if outcome == Flushed then 1 else 0)
  {
    var opts := Merge(options, stdout);
    var f := FileOf(opts);
    var s := BuildPrefix(opts, timestamp);

    if Truthy(Get(opts, Header)) {
      f.PutLine(s + " Source: " + callSite);
    }
    ghost var written := f.lines;
    assert written == old(f.lines) + HeaderLines(opts, s, callSite);

    var names := ReportedNames(opts, block, scope);
    var k := WriteBindings(f, s, names, scope.values);
    AppendAssoc(old(f.lines), HeaderLines(opts, s, callSite), BindingLines(s, names, scope.values, k));
    if k < |names| {
      return NameError(names[k]);
    }
    f.Flush();
    outcome := Flushed;
  }
}
