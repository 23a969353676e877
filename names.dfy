/** Which binding names one `debug_me` call reports: the names the block
    returns, after wrapping, flattening and dropping nils, or, when that
    leaves nothing, an automatic sweep of the caller's local variables, then
    its instance variables, then its class variables. */
module Names {

  /** The value a block returns: nil, a nested Array, or any other object,
      carried as the text its `to_s` gives. */
  datatype BlockValue = NilValue | Atom(text: string) | Nested(items: seq<BlockValue>)

  /** Whether `debug_me` was given a block, and if so what it returned. */
  datatype Block = NoBlock | Given(value: BlockValue)

  /** `flatten.compact`, then `to_s` on each element: the atoms of `v`, depth
      first and left to right, with every nil dropped. It leaves nothing
      exactly when `v` holds no non-nil object, which is what sends
      `debug_me` into its automatic sweep. */
  function Flatten(v: BlockValue): (names: seq<string>)
    ensures names == [] <==> !HasAtom(v)
    decreases v
  {
    match v
    case NilValue => []
    case Atom(t) => [t]
    case Nested(items) => FlattenAll(items)
  }

  /** `Flatten` of each item in turn, concatenated; empty exactly when no
      item holds a non-nil object. */
  function FlattenAll(items: seq<BlockValue>): (names: seq<string>)
    ensures names == [] <==> forall i :: 0 <= i < |items| ==> !HasAtom(items[i])
    decreases items
  {
    if items == [] then []
    else
      assert forall i :: 1 <= i < |items| ==> items[i] == items[1..][i - 1];
      Flatten(items[0]) + FlattenAll(items[1..])
  }

  /** Whether `v` holds a non-nil object anywhere inside it. */
  predicate HasAtom(v: BlockValue)
    decreases v
  {
    match v
    case NilValue => false
    case Atom(_) => true
    case Nested(items) => exists i :: 0 <= i < |items| && HasAtom(items[i])
  }

  /** An Array of names, as the reflection calls return them. */
  function AtomsOf(names: seq<string>): (items: seq<BlockValue>)
    ensures |items| == |names|
    ensures forall i :: 0 <= i < |names| ==> items[i] == Atom(names[i])
  {
    if names == [] then [] else [Atom(names[0])] + AtomsOf(names[1..])
  }

  lemma {:induction false} FlattenAllAppend(xs: seq<BlockValue>, ys: seq<BlockValue>)
    ensures FlattenAll(xs + ys) == FlattenAll(xs) + FlattenAll(ys)
    decreases |xs|
  {
    if xs == [] {
      assert xs + ys == ys;
    } else {
      assert (xs + ys)[0] == xs[0];
      assert (xs + ys)[1..] == xs[1..] + ys;
      FlattenAllAppend(xs[1..], ys);
      calc {
        FlattenAll(xs + ys);
        Flatten(xs[0]) + FlattenAll(xs[1..] + ys);
        Flatten(xs[0]) + (FlattenAll(xs[1..]) + FlattenAll(ys));
        (Flatten(xs[0]) + FlattenAll(xs[1..])) + FlattenAll(ys);
      }
    }
  }

  /** Flattening an Array of names gives back those names, in order and
      with every duplicate. */
  lemma {:induction false} FlattenAtoms(names: seq<string>)
    ensures FlattenAll(AtomsOf(names)) == names
    decreases |names|
  {
    if names != [] {
      assert AtomsOf(names)[1..] == AtomsOf(names[1..]);
      FlattenAtoms(names[1..]);
    }
  }

  /** Wrapping the block's value in an Array (`[ block.call ]`) before
      flattening changes nothing. */
  lemma FlattenWrapped(v: BlockValue)
    ensures Flatten(Nested([v])) == Flatten(v)
  {
    assert [v][1..] == [];
    assert FlattenAll([v]) == Flatten(v) + FlattenAll([]);
  }

  /** The automatic sweep as the source builds it: the local variable names,
      then (with `:ivar`) the Array of instance variable names, then (with
      `:cvar`) the Array of class variable names, flattened and compacted. */
  function AutomaticNames(locals: seq<string>, ivars: seq<string>, cvars: seq<string>,
                          withIvars: bool, withCvars: bool): (names: seq<string>)
    ensures names == locals + (if withIvars then ivars else []) + (if withCvars then cvars else [])
  {
    var swept := AtomsOf(locals)
      + (if withIvars then [Nested(AtomsOf(ivars))] else [])
      + (if withCvars then [Nested(AtomsOf(cvars))] else []);
    SweepOrder(locals, ivars, cvars, withIvars, withCvars);
    Flatten(Nested(swept))
  }

  /** The sweep keeps each category's order and reports the categories in
      the fixed order locals, instance variables, class variables, without
      removing duplicates. */
  lemma SweepOrder(locals: seq<string>, ivars: seq<string>, cvars: seq<string>,
                   withIvars: bool, withCvars: bool)
    ensures FlattenAll(AtomsOf(locals)
      + (if withIvars then [Nested(AtomsOf(ivars))] else [])
      + (if withCvars then [Nested(AtomsOf(cvars))] else []))
      == locals + (if withIvars then ivars else []) + (if withCvars then cvars else [])
  {
    var iv: seq<BlockValue> := if withIvars then [Nested(AtomsOf(ivars))] else [];
    var cv: seq<BlockValue> := if withCvars then [Nested(AtomsOf(cvars))] else [];
    FlattenAllAppend(AtomsOf(locals) + iv, cv);
    FlattenAllAppend(AtomsOf(locals), iv);
    FlattenAtoms(locals);
    if withIvars {
      FlattenWrapped(Nested(AtomsOf(ivars)));
      FlattenAtoms(ivars);
    }
    if withCvars {
      FlattenWrapped(Nested(AtomsOf(cvars)));
      FlattenAtoms(cvars);
    }
  }

  /** The names reported for a block that returned `v`: explicit mode when
      the value holds any non-nil object (its atoms, in order, duplicates
      kept, and no sweep), the automatic sweep otherwise. */
  function SelectNames(v: BlockValue, locals: seq<string>, ivars: seq<string>, cvars: seq<string>,
                       withIvars: bool, withCvars: bool): (names: seq<string>)
    ensures HasAtom(v) ==> names == Flatten(v) && names != []
    ensures !HasAtom(v) ==>
      names == locals + (if withIvars then ivars else []) + (if withCvars then cvars else [])
  {
    var explicit := Flatten(Nested([v]));
    FlattenWrapped(v);
    if explicit != [] then explicit
    else AutomaticNames(locals, ivars, cvars, withIvars, withCvars)
  }

  /** A block returning a non-empty Array of names reports exactly those
      names, in that order and with every duplicate. */
  lemma ExplicitNamesVerbatim(requested: seq<string>, locals: seq<string>, ivars: seq<string>,
                              cvars: seq<string>, withIvars: bool, withCvars: bool)
    requires requested != []
    ensures SelectNames(Nested(AtomsOf(requested)), locals, ivars, cvars, withIvars, withCvars) == requested
  {
    FlattenAtoms(requested);
  }
}
