/** The options of one `debug_me` call: the defaults, the merge of the
    caller's argument over them, Ruby's truthiness of an option value, and the
    output prefix built from `:time` and `:tag`. */
module Options {
  import opened Output

  /** A Ruby value held by an option. `Stream` is an output object (what
      `:file` names); `Text` is any other non-nil, non-boolean object, carried
      as the text its `to_s` gives (a String, a Symbol, a number, ...). */
  datatype OptVal =
    | Nil
    | Bool(b: bool)
    | Stream(sink: Sink)
    | Text(shown: string)

  /** A symbol key of the options Hash: the six `debug_me` reads, or any
      other symbol, which it ignores. */
  datatype Key = Tag | Time | Header | Ivar | Cvar | File | Other(name: string)

  /** The first argument of `debug_me`: a Hash of options, or any other
      value, which is taken as the tag. */
  datatype Arg = HashArg(entries: map<Key, OptVal>) | Bare(value: OptVal)

  type OptionMap = map<Key, OptVal>

  const DefaultTag: string := "DEBUG:"

  /** The six default options; `stdout` is the process's standard output.
      Exactly the six keys `debug_me` reads are set: the tag shows as
      `DEBUG:`, the four switches are on, and the output is `stdout`. */
  function Defaults(stdout: Sink): (opts: OptionMap)
    ensures opts.Keys == {Tag, Time, Header, Ivar, Cvar, File}
    ensures Shown(Get(opts, Tag)) == "DEBUG:"
    ensures Truthy(Get(opts, Time)) && Truthy(Get(opts, Header))
    ensures Truthy(Get(opts, Ivar)) && Truthy(Get(opts, Cvar))
    ensures Get(opts, File).Stream? && Get(opts, File).sink == stdout
  {
    map[
      Tag    := Text(DefaultTag),
      Time   := Bool(true),
      Header := Bool(true),
      Ivar   := Bool(true),
      Cvar   := Bool(true),
      File   := Stream(stdout)
    ]
  }

  /** `Hash#[]`: the value stored under `key`, or nil when there is none. */
  function Get(opts: OptionMap, key: Key): (v: OptVal)
  {
    if key in opts then opts[key] else Nil
  }

  /** Ruby truthiness: only nil and false are false. */
  predicate Truthy(v: OptVal)
  {
    match v
    case Nil => false
    case Bool(b) => b
    case _ => true
  }

  /** String interpolation of an option value (`to_s`). */
  function Shown(v: OptVal): (text: string)
  {
    match v
    case Nil => ""
    case Bool(b) => if b then "true" else "false"
    case Stream(sink) => sink.shown
    case Text(t) => t
  }

  /** `default_options.merge(options)` for a Hash, and
      `default_options.merge({:tag => options})` for anything else: every key
      reads as the caller's value where the caller gave one, and as the
      default otherwise. */
  function Merge(arg: Arg, stdout: Sink): (opts: OptionMap)
    ensures arg.HashArg? ==>
      (forall key :: Get(opts, key) ==
         if key in arg.entries then arg.entries[key] else Get(Defaults(stdout), key))
    ensures arg.Bare? ==>
      (forall key :: Get(opts, key) ==
         if key == Tag then arg.value else Get(Defaults(stdout), key))
  {
    match arg
    case HashArg(m) => Defaults(stdout) + m
    case Bare(v) => Defaults(stdout) + map[Tag := v]
  }

  /** Called with no options (the default argument `{}`), the merged options
      are exactly the defaults. */
  lemma MergeNoOptions(stdout: Sink)
    ensures Merge(HashArg(map[]), stdout) == Defaults(stdout)
    ensures Get(Merge(HashArg(map[]), stdout), Tag) == Text("DEBUG:")
    ensures Get(Merge(HashArg(map[]), stdout), Time) == Bool(true)
    ensures Get(Merge(HashArg(map[]), stdout), Header) == Bool(true)
    ensures Get(Merge(HashArg(map[]), stdout), Ivar) == Bool(true)
    ensures Get(Merge(HashArg(map[]), stdout), Cvar) == Bool(true)
    ensures Get(Merge(HashArg(map[]), stdout), File) == Stream(stdout)
  {
  }

  /** A bare argument sets the tag and nothing else: the `Bare` half of
      `Merge`'s contract, restated key by key as a named corollary. */
  lemma MergeBareSetsOnlyTag(v: OptVal, stdout: Sink, key: Key)
    ensures Get(Merge(Bare(v), stdout), Tag) == v
    ensures key != Tag ==> Get(Merge(Bare(v), stdout), key) == Get(Defaults(stdout), key)
  {
  }

  /** The prefix `s` of every output line: the time stamp and one space when
      `:time` is set, then a space and the tag. It always ends in a space and
      the tag, and starts with the time stamp exactly when `:time` is set. */
  function Prefix(opts: OptionMap, timestamp: string): (p: string)
    ensures var tag := Shown(Get(opts, Tag));
      |p| == (if Truthy(Get(opts, Time)) then |timestamp| + 1 else 0) + 1 + |tag| &&
      p[|p| - |tag| - 1..] == " " + tag &&
      (Truthy(Get(opts, Time)) ==> p[..|timestamp|] == timestamp)
  {
    (if Truthy(Get(opts, Time)) then timestamp + " " else "") + " " + Shown(Get(opts, Tag))
  }

  /** The layout of the prefix: with `:time`, the time stamp, two spaces and
      the tag; without it, exactly one space and the tag. */
  lemma PrefixLayout(opts: OptionMap, timestamp: string)
    ensures var p, tag := Prefix(opts, timestamp), Shown(Get(opts, Tag));
      if Truthy(Get(opts, Time)) then
        |p| == |timestamp| + 2 + |tag| && p[..|timestamp|] == timestamp &&
        p[|timestamp|..|timestamp| + 2] == "  " && p[|timestamp| + 2..] == tag
      else
        p == " " + tag
  {
  }
}
