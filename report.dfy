/** What one `debug_me` call writes: an optional `Source:` header line, then
    one line per selected name, stopping at the first name the caller's scope
    does not bind (where the call raises). */
module Report {
  import opened Options
  import opened Names

  /** The caller's scope, as the reflection calls would see it: the names of
      its local, instance and class variables, and, for each name it binds,
      the text `#{pp ev}` interpolates after `-=>` for that name's value `ev`
      (empty where `pp` returns nil, as before Ruby 2.4; `ev.to_s` where it
      returns its argument). A name outside `values` has no binding. */
  datatype Scope = Scope(locals: seq<string>, ivars: seq<string>, cvars: seq<string>,
                         values: map<string, string>)

  /** How the call ends: it reaches `flush`, or it raises at an unbound name. */
  datatype Outcome = Flushed | NameError(name: string)

  /** Every line the call writes, in order, and how it ends. */
  datatype Trace = Trace(lines: seq<string>, outcome: Outcome)

  function HeaderLine(prefix: string, callSite: string): (line: string)
  {
    prefix + " Source: " + callSite
  }

  function BindingLine(prefix: string, name: string, value: string): (line: string)
  {
    prefix + " " + name + " -=> " + value
  }

  /** The header line when `:header` is truthy, nothing otherwise. */
  function HeaderLines(opts: OptionMap, prefix: string, callSite: string): (lines: seq<string>)
  {
    if Truthy(Get(opts, Header)) then [HeaderLine(prefix, callSite)] else []
  }

  /** The names the call reports: none without a block; with one, the
      block's non-nil atoms when it returned any, and otherwise the locals,
      then the instance variables (with `:ivar`), then the class variables
      (with `:cvar`). */
  function ReportedNames(opts: OptionMap, block: Block, scope: Scope): (names: seq<string>)
    ensures block.NoBlock? ==> names == []
    ensures block.Given? && HasAtom(block.value) ==> names == Flatten(block.value) && names != []
    ensures block.Given? && !HasAtom(block.value) ==>
      names == scope.locals + (if Truthy(Get(opts, Ivar)) then scope.ivars else [])
                            + (if Truthy(Get(opts, Cvar)) then scope.cvars else [])
  {
    match block
    case NoBlock => []
    case Given(v) =>
      SelectNames(v, scope.locals, scope.ivars, scope.cvars,
                  Truthy(Get(opts, Ivar)), Truthy(Get(opts, Cvar)))
  }

  /** The position of the first name `values` does not bind, or `|names|`
      when it binds them all. */
  function FirstUnbound(names: seq<string>, values: map<string, string>): (k: nat)
    ensures k <= |names|
    ensures forall i :: 0 <= i < k ==> names[i] in values
    ensures k < |names| ==> names[k] !in values
    decreases |names|
  {
    if names == [] then 0
    else if names[0] !in values then 0
    else 1 + FirstUnbound(names[1..], values)
  }

  /** The lines for the first `k` names, each bound in `values`. */
  function BindingLines(prefix: string, names: seq<string>, values: map<string, string>, k: nat): (lines: seq<string>)
    requires k <= |names|
    requires forall i :: 0 <= i < k ==> names[i] in values
  {
    seq(k, i requires 0 <= i < k => BindingLine(prefix, names[i], values[names[i]]))
  }

  /** One more bound name adds its line at the end. */
  lemma BindingLinesExtend(prefix: string, names: seq<string>, values: map<string, string>, k: nat)
    requires k < |names|
    requires forall i :: 0 <= i <= k ==> names[i] in values
    ensures BindingLines(prefix, names, values, k + 1) ==
      BindingLines(prefix, names, values, k) + [BindingLine(prefix, names[k], values[names[k]])]
  {
  }

  /** The whole effect of `debug_me` on its output stream: at most the
      header and one line per reported name. The call completes exactly when
      it writes all of them; otherwise it raises at a reported name that the
      scope does not bind. */
  function Run(opts: OptionMap, block: Block, scope: Scope, timestamp: string, callSite: string): (t: Trace)
    ensures var names, h := ReportedNames(opts, block, scope), if Truthy(Get(opts, Header)) then 1 else 0;
      |t.lines| <= h + |names| &&
      (t.outcome == Flushed <==> |t.lines| == h + |names|) &&
      (t.outcome.NameError? ==> t.outcome.name in names && t.outcome.name !in scope.values)
  {
    var prefix := Prefix(opts, timestamp);
    var names := ReportedNames(opts, block, scope);
    var k := FirstUnbound(names, scope.values);
    Trace(HeaderLines(opts, prefix, callSite) + BindingLines(prefix, names, scope.values, k),
          if k == |names| then Flushed else NameError(names[k]))
  }

  /** The header line, when written, is the first line; without it, every
      line written is a binding line, one per reported name in order. */
  lemma HeaderComesFirst(opts: OptionMap, block: Block, scope: Scope, timestamp: string, callSite: string)
    ensures var t, prefix := Run(opts, block, scope, timestamp, callSite), Prefix(opts, timestamp);
      var names := ReportedNames(opts, block, scope);
      (Truthy(Get(opts, Header)) ==> |t.lines| >= 1 && t.lines[0] == HeaderLine(prefix, callSite)) &&
      (!Truthy(Get(opts, Header)) ==>
         |t.lines| <= |names| &&
         forall i :: 0 <= i < |t.lines| ==>
           names[i] in scope.values && t.lines[i] == BindingLine(prefix, names[i], scope.values[names[i]]))
  {
  }

  /** Without a block, the header line (if any) is all that is written. */
  lemma NoBlockWritesOnlyHeader(opts: OptionMap, scope: Scope, timestamp: string, callSite: string)
    ensures Run(opts, NoBlock, scope, timestamp, callSite) ==
      Trace(if Truthy(Get(opts, Header)) then [HeaderLine(Prefix(opts, timestamp), callSite)] else [], Flushed)
  {
  }

  /** The call reaches `flush` exactly when every reported name is bound, and
      then it has written the header (if any) plus one line per name, in
      selection order. */
  lemma CompletedRunLines(opts: OptionMap, block: Block, scope: Scope, timestamp: string, callSite: string)
    ensures var t, prefix := Run(opts, block, scope, timestamp, callSite), Prefix(opts, timestamp);
      var names, h := ReportedNames(opts, block, scope), if Truthy(Get(opts, Header)) then 1 else 0;
      (t.outcome == Flushed <==> forall i :: 0 <= i < |names| ==> names[i] in scope.values) &&
      (t.outcome == Flushed ==>
         |t.lines| == h + |names| &&
         forall i :: 0 <= i < |names| ==>
           t.lines[h + i] == BindingLine(prefix, names[i], scope.values[names[i]]))
  {
  }

  /** When the `k`-th reported name is the first unbound one, the call raises
      at that name after writing the header (if any) and the lines of the `k`
      names before it; those lines stay written. */
  lemma RaisesAtFirstUnbound(opts: OptionMap, block: Block, scope: Scope, timestamp: string,
                             callSite: string, k: nat)
    requires var names := ReportedNames(opts, block, scope);
      k < |names| && names[k] !in scope.values &&
      forall i :: 0 <= i < k ==> names[i] in scope.values
    ensures var t, prefix := Run(opts, block, scope, timestamp, callSite), Prefix(opts, timestamp);
      var names, h := ReportedNames(opts, block, scope), if Truthy(Get(opts, Header)) then 1 else 0;
      t.outcome == NameError(names[k]) &&
      |t.lines| == h + k &&
      forall i :: 0 <= i < k ==> t.lines[h + i] == BindingLine(prefix, names[i], scope.values[names[i]])
  {
  }

  /** A block returning a non-empty Array of bound names reports exactly
      those names, in order and with duplicates, and no automatic sweep. */
  lemma ExplicitReport(opts: OptionMap, requested: seq<string>, scope: Scope, timestamp: string, callSite: string)
    requires requested != []
    requires forall i :: 0 <= i < |requested| ==> requested[i] in scope.values
    ensures var prefix := Prefix(opts, timestamp);
      Run(opts, Given(Nested(AtomsOf(requested))), scope, timestamp, callSite) ==
      Trace(HeaderLines(opts, prefix, callSite) +
            seq(|requested|, i requires 0 <= i < |requested| =>
                BindingLine(prefix, requested[i], scope.values[requested[i]])),
            Flushed)
  {
    ExplicitNamesVerbatim(requested, scope.locals, scope.ivars, scope.cvars,
                          Truthy(Get(opts, Ivar)), Truthy(Get(opts, Cvar)));
  }

  /** One name bound to 42, with `:time` and `:header` off: the single line
      reads " DEBUG: a -=> 42". */
  lemma SingleNameExample(stdout: Output.Sink, scope: Scope, timestamp: string, callSite: string)
    requires scope.values == map["a" := "42"]
    ensures var opts := Merge(HashArg(map[Time := Bool(false), Header := Bool(false)]), stdout);
      Run(opts, Given(Atom("a")), scope, timestamp, callSite) == Trace([" DEBUG: a -=> 42"], Flushed)
  {
    var opts := Merge(HashArg(map[Time := Bool(false), Header := Bool(false)]), stdout);
    assert Get(opts, Time) == Bool(false) && Get(opts, Header) == Bool(false);
    assert Get(opts, Tag) == Text("DEBUG:");
    assert Prefix(opts, timestamp) == " DEBUG:";
    assert HasAtom(Atom("a"));
    assert ReportedNames(opts, Given(Atom("a")), scope) == ["a"];
    assert FirstUnbound(["a"], scope.values) == 1;
    assert BindingLine(" DEBUG:", "a", "42") == " DEBUG: a -=> 42";
    assert BindingLines(" DEBUG:", ["a"], scope.values, 1) == [" DEBUG: a -=> 42"];
  }
}
