# debug_me, modelled in Dafny

`DebugMe#debug_me` (lib/debug_me.rb) is a call-site debug printer. A call
does the following, in order:

- It merges its first argument over six default options. A Hash is merged as
  given. Any other value becomes the tag.
- It builds a prefix: the time stamp and a space when `:time` is set, then a
  space and the tag.
- It writes `"<prefix> Source: <call site>"` when `:header` is set.
- When it has a block, it picks the names to report:
  - The block's value, wrapped, flattened and stripped of nils (explicit mode).
  - When that leaves nothing, the caller's local variables, then its instance
    variables (with `:ivar`), then its class variables (with `:cvar`).
- It writes `"<prefix> <name> -=> <value>"` for each name in turn, then
  flushes the stream.
- Evaluating a name the caller does not bind raises. The lines already
  written stay, and the flush is not reached.

The project has five modules:

- `Output` (output.dfy): the output stream, a `Sink` class whose line buffer
  only grows.
- `Options` (options.dfy): option values with Ruby truthiness, the defaults,
  `Merge`, and the prefix.
- `Names` (names.dfy): the block's value as a nested tree, `flatten.compact`,
  the automatic sweep, and the choice between the two modes.
- `Report` (report.dfy): `Run`, the function giving every line one call
  writes and how the call ends. The lemmas about it state the properties of
  the output.
- `DebugMe` (debug_me.dfy): the imperative call. It builds the prefix with
  `+=`, writes the header, and loops over the names writing one line each. It
  is proved to append exactly `Run`'s lines to the stream that `:file` names.

The caller's scope is a `Scope` value. It holds three lists of names (locals,
instance variables, class variables) and a partial map from each bound name to
the text that `#{pp ev}` puts after `-=>` for that name's value `ev`. That text
is empty on Rubies whose `pp` returns nil (before 2.4), and `ev.to_s` on
Rubies whose `pp` returns its argument. The time stamp and the call site are
opaque string inputs.

The model follows `lib/debug_me.rb` as it stands. Later versions of
debug_me, which tests/debug_me_test.rb, tests/world_view.rb and
tests/env_test.rb exercise, do more than this file does, and none of it is
modelled:

- options `lvar`, `cconst`, `levels` and `logger`;
- returning the report as a string when called with `file: nil`;
- a `$DEBUG_ME` switch read from the `DEBUG_ME` environment variable.

In this file, `file: nil` makes the first `puts` (or `flush`) raise, the call's value is
what `flush` returns, and an unbound name raises.

## Model

| member | source | states |
|---|---|---|
| `Options.Defaults` | lib/debug_me.rb:8-15 | Exactly the six keys `debug_me` reads are set. The tag shows as `DEBUG:`. Time, header, ivar and cvar are all truthy. The file is the given standard output stream. |
| `Options.Merge` | lib/debug_me.rb:17-21 | A Hash argument: each key reads as the caller's value where the Hash has that key, and as the default otherwise. Any other argument: `:tag` reads as that argument, and every other key keeps its default. |
| `Options.MergeNoOptions` | lib/debug_me.rb:6-15 | Called with the default `{}`, the options are exactly the defaults: tag `DEBUG:`; time, header, ivar and cvar all true; file is standard output. |
| `Options.MergeBareSetsOnlyTag` | lib/debug_me.rb:19-20 | A non-Hash argument becomes the tag and changes no other option. |
| `Options.PrefixLayout` | lib/debug_me.rb:24-26 | With `:time` truthy, the prefix is the time stamp, two spaces, then the tag. Otherwise it is exactly one space followed by the tag. |
| `Options.Prefix` | lib/debug_me.rb:24-26 | The prefix ends with a space and the tag. When `:time` is truthy it starts with the time stamp and is one character longer than stamp, space and tag together. Otherwise it is one character longer than the tag. |
| `DebugMe.BuildPrefix` | lib/debug_me.rb:24-26 | Starting from `""` and adding with `+=` yields exactly the prefix `Prefix` describes. |
| `Names.FlattenAllAppend` | lib/debug_me.rb:37-40 | Flattening a concatenation is the concatenation of the flattenings, so `+=` before `flatten` keeps each part in place. |
| `Names.FlattenAtoms` | lib/debug_me.rb:40 | Flattening an Array of names gives back those names, in order, with duplicates. |
| `Names.FlattenWrapped` | lib/debug_me.rb:34 | Wrapping the block's value in an Array before flattening changes nothing. |
| `Names.Flatten` | lib/debug_me.rb:34-36 | The flattened, compacted value is empty exactly when the value holds no non-nil object anywhere. This decides between explicit and automatic mode. |
| `Names.FlattenAll` | lib/debug_me.rb:34-40 | Flattening an Array leaves nothing exactly when none of its elements holds a non-nil object. |
| `Names.AutomaticNames` | lib/debug_me.rb:37-40 | The sweep as the source builds it (`+=` of nested Arrays, then `flatten.compact`) equals the local names, then the instance variable names if `:ivar`, then the class variable names if `:cvar`. Order and duplicates are kept. |
| `Names.SelectNames` | lib/debug_me.rb:34-43 | If the block's value holds a non-nil object, the names are exactly its atoms, depth first and non-empty, and there is no sweep. Otherwise the names are the automatic sweep. |
| `Names.ExplicitNamesVerbatim` | lib/debug_me.rb:34-42 | A block returning a non-empty Array of names reports exactly those names, in order, with duplicates. |
| `Report.ReportedNames` | lib/debug_me.rb:32-43 | Without a block, no names. With a block whose value holds a non-nil object, its flattened atoms, which are not empty. Otherwise the locals, then the instance variables (with `:ivar`), then the class variables (with `:cvar`). |
| `Report.FirstUnbound` | lib/debug_me.rb:45-46 | The position where evaluation first fails. Every earlier name is bound, and the name there is unbound; with no such name, the result is the number of names. |
| `Report.Run` | lib/debug_me.rb:6-54 | One call writes at most the header (if enabled) and one line per reported name. It reaches `flush` exactly when it writes all of them. Otherwise it raises at a reported name that the scope does not bind. |
| `Report.HeaderComesFirst` | lib/debug_me.rb:30-47 | With `:header` truthy, the first line is `"<prefix> Source: <call site>"`. Without it, every line is a binding line for the reported name at the same position. |
| `Report.NoBlockWritesOnlyHeader` | lib/debug_me.rb:30-52 | Without a block, the header line (if enabled) is the only line written, and the call reaches `flush`. |
| `Report.CompletedRunLines` | lib/debug_me.rb:45-52 | The call reaches `flush` exactly when every reported name is bound. It then writes (header ? 1 : 0) plus one line per name, each `"<prefix> <name> -=> <value>"`, in selection order. |
| `Report.RaisesAtFirstUnbound` | lib/debug_me.rb:45-48 | If the k-th name is the first unbound one, the call raises at that name. The header (if any) and the lines for the k names before it stay written, and nothing more is written. |
| `Report.ExplicitReport` | lib/debug_me.rb:34-48 | A block returning a non-empty Array of bound names writes the header (if any), then one line per requested name in order, and reaches `flush`. |
| `Report.SingleNameExample` | lib/debug_me.rb:17-47 | With `:time` and `:header` off and one name `a` bound to `42`, the only line `puts` writes is `" DEBUG: a -=> 42"` (with `42` as the scope's text for `a`; see `Report.SingleNameExample` under Left out). |
| `DebugMe.WriteBindings` | lib/debug_me.rb:45-48 | The `each` loop appends to the stream the lines for the names before the first unbound name. It stops at that position and returns it. |
| `DebugMe.DebugMe` | lib/debug_me.rb:6-54 | The stream named by the merged `:file` receives exactly `Run`'s `puts` lines after its earlier contents. The outcome is `Run`'s outcome, and the stream is flushed once only when the call completes. |
| `Output.Sink.PutLine` | lib/debug_me.rb:47 | `puts` appends one line and changes nothing else. |
| `Output.Sink.Flush` | lib/debug_me.rb:52 | `flush` leaves the written lines unchanged. |

## Left out

- The call site (`caller`, lines 27-28) is an opaque string input.
- The time stamp (`sprintf('%010.6f', Time.now.to_f)`, line 25) is an opaque string input. The clock read and the float formatting are not modelled.
- `eval` against the block's binding (lines 37-38 and 46) is replaced by the supplied `Scope`. So is `self.class.send('class_variables')` (line 39).
  - A name is evaluated only as a lookup in the scope's map. A requested string that is a Ruby expression, not a variable name, is outside the model unless the caller puts its rendered value in the map.
  - Reading an instance variable that was never set gives nil in Ruby, rendered as an empty text. The caller's map must bind such a name to `""`.
- Names are text, as the reflection calls returned them on the Ruby 1.8 versions the source targets. On later Rubies they return Symbols, and `eval` of a Symbol raises a TypeError. That failure is not modelled.
- `DebugMe.DebugMe` leaves out what `pp ev` (line 47) prints. `pp` writes `ev.pretty_inspect` to `$stdout` before each binding line is put. With the default `:file`, that is the same stream, so the real stream also holds those lines in between. The contract covers only the lines `puts` writes.
- `Report.SingleNameExample` takes the text after `-=>` as given in the scope's map. In Ruby it is `pp ev` converted to text: empty where `pp` returns nil (Ruby 1.8 up to 2.3), and `ev.to_s` where `pp` returns its argument (Ruby 2.4 on). The example's `42` is the later case.
- The block's own side effects are not modelled; the block is represented only by the value it returned.
- `puts` adds a newline only when the text does not end with one. Each sink entry is one `puts` call, and newlines inside a value are not split out.
- `DebugMe.DebugMe` requires that the merged `:file` be a stream. A nil or non-stream `:file` makes Ruby raise at the first `puts` or at `flush`, and that error path is not modelled.
- The value `flush` returns (the call's result) is not modelled. The call's outcome is `Flushed` or `NameError(name)` instead.
- The Hash test compares the class name with `'Hash'`. A Hash subclass therefore takes the tag branch. The model represents such an argument as a `Bare` value whose shown text is given.
- Option keys are symbols. A key other than the six that `debug_me` reads is `Other(name)` and is ignored.
- `Array#flatten` raises on an Array that contains itself. Block values are finite trees here, so that case cannot arise.
- The commented-out `log_me` (lines 56-58) is not code and is not modelled.
