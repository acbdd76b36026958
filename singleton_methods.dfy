// The methods `class << self` installs on `Renderer`, and how a call to one
// of them by name and argument count is dispatched.  On renderer.rb:8 the
// `attr_accessor` list ends with a comma, so the `def new_layer ... end` that
// follows is parsed as its last argument: the `def` runs first and evaluates
// to the symbol `:new_layer`, and `attr_accessor` then installs a reader and a
// writer under that name, replacing the method just defined.
module SingletonMethods {

  /** What a method table holds under one name. */
  datatype MethodDef =
    | Defined(minArgs: nat, maxArgs: nat)   // a `def` with required and optional parameters
    | Reader                                // `attr_accessor`'s getter: no arguments
    | Writer                                // `attr_accessor`'s setter `name=`: one argument

  datatype Outcome = Dispatched | ArgumentError | NoMethodError

  type Table = map<string, MethodDef>

  /** `def new_layer(name, z, projection, type = :sprite, parallax_table = nil, depth_table = nil)`. */
  const NewLayerDef: MethodDef := Defined(3, 6)

  /** The symbols `attr_accessor` is meant to receive. */
  const AccessorNames: seq<string> := ["camera", "light", "layers", "draw_wireframe"]

  /** Installing accessors for `names`, left to right: a reader `n` and a writer `n=` each. */
  function Accessors(t: Table, names: seq<string>): Table
    decreases |names|
  {
    if names == [] then t
    else Accessors(t[names[0] := Reader][names[0] + "=" := Writer], names[1..])
  }

  /** Dispatch of a call to `name` with `argc` arguments. */
  function Call(t: Table, name: string, argc: nat): Outcome {
    if name !in t then NoMethodError
    else match t[name]
      case Defined(lo, hi) => if lo <= argc <= hi then Dispatched else ArgumentError
      case Reader => if argc == 0 then Dispatched else ArgumentError
      case Writer => if argc == 1 then Dispatched else ArgumentError
  }

  /** The table as written: `new_layer` is defined, then passed to `attr_accessor` with the rest. */
  function AsWritten(): Table {
    Accessors(map["new_layer" := NewLayerDef], AccessorNames + ["new_layer"])
  }

  /** The table the authors evidently meant: the four accessors, then `new_layer` on its own line. */
  function Intended(): Table {
    Accessors(map[], AccessorNames)["new_layer" := NewLayerDef]
  }

  /** An attribute name: `attr_accessor` refuses one that already ends in `=`. */
  predicate AttributeName(s: string) {
    |s| > 0 && s[|s| - 1] != '='
  }

  /** Accessors for names other than `n`, and whose writers are not `n`, leave `n` as it was. */
  lemma {:induction false} AccessorsKeep(t: Table, names: seq<string>, n: string)
    requires n in t
    requires forall m :: m in names ==> m != n && m + "=" != n
    ensures n in Accessors(t, names) && Accessors(t, names)[n] == t[n]
    decreases |names|
  {
    if names != [] {
      assert names[0] in names;
      forall m | m in names[1..]
        ensures m != n && m + "=" != n
      {
        assert m in names;
      }
      AccessorsKeep(t[names[0] := Reader][names[0] + "=" := Writer], names[1..], n);
    }
  }

  /** A name among the accessor symbols ends up bound to a reader, whatever the table held before. */
  lemma {:induction false} AccessorWins(t: Table, names: seq<string>, n: string)
    requires n in names && forall m :: m in names ==> AttributeName(m)
    ensures n in Accessors(t, names) && Accessors(t, names)[n] == Reader
    decreases |names|
  {
    var t' := t[names[0] := Reader][names[0] + "=" := Writer];
    if n in names[1..] {
      AccessorWins(t', names[1..], n);
    } else {
      assert (names[0] + "=")[|names[0]|] == '=';
      forall m | m in names[1..]
        ensures m != n && m + "=" != n
      {
        assert (m + "=")[|m|] == '=';
      }
      AccessorsKeep(t', names[1..], n);
    }
  }

  /**
   * As written, every call of `new_layer` with the three to six arguments its
   * `def` takes raises `ArgumentError` (the reader takes none).
   */
  lemma NewLayerAsWrittenRejectsArguments(argc: nat)
    requires 3 <= argc <= 6
    ensures Call(AsWritten(), "new_layer", argc) == ArgumentError
  {
    AccessorWins(map["new_layer" := NewLayerDef], AccessorNames + ["new_layer"], "new_layer");
  }

  /**
   * With the comma removed, `new_layer` accepts exactly three to six arguments,
   * and the four accessors still read with none.
   */
  lemma NewLayerIntendedAccepts(argc: nat)
    ensures Call(Intended(), "new_layer", argc) == Dispatched <==> 3 <= argc <= 6
    ensures forall n :: n in AccessorNames ==> Call(Intended(), n, 0) == Dispatched
  {
    forall n | n in AccessorNames
      ensures Call(Intended(), n, 0) == Dispatched
    {
      AccessorWins(map[], AccessorNames, n);
    }
  }
}
