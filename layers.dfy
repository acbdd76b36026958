/**
 * Layer metadata and the z-sorted view that `new_layer` recomputes
 * (renderer.rb:10-14).
 */
module Layers {
  import opened Wrappers

  type Name = string

  /** The `type` argument of `new_layer`; `:sprite` when omitted. */
  datatype LayerType = Sprite | Mesh

  /** The `projection` argument of `new_layer`. */
  datatype Projection = Orthographic | Perspective | Screen

  /** A parallax or depth table: stored and never read by the renderer. */
  type Table = seq<real>

  /** One value of `@layer_contexts`. */
  datatype LayerContext = LayerContext(z: real, name: Name, layerType: LayerType, projection: Projection,
                                       depthTable: Option<Table>, parallaxTable: Option<Table>)

  /** One `[name, context]` pair of `@layer_contexts.sort_by { ... }`. */
  datatype Entry = Entry(name: Name, context: LayerContext)

  /** The pairs of a Ruby hash in its insertion order `order`. */
  function Entries(order: seq<Name>, contexts: map<Name, LayerContext>): (es: seq<Entry>)
    requires forall n <- order :: n in contexts
    ensures |es| == |order|
    ensures forall i :: 0 <= i < |order| ==> es[i] == Entry(order[i], contexts[order[i]])
  {
    if order == [] then []
    else Entries(order[..|order| - 1], contexts) + [Entry(order[|order| - 1], contexts[order[|order| - 1]])]
  }

  predicate SortedByZ(s: seq<Entry>) {
    forall i, j :: 0 <= i < j < |s| ==> s[i].context.z <= s[j].context.z
  }

  /** Inserts `e` before the first entry of `s` whose z is not smaller. */
  function InsertByZ(e: Entry, s: seq<Entry>): seq<Entry>
    decreases |s|
  {
    if s == [] then [e]
    else if e.context.z <= s[0].context.z then [e] + s
    else [s[0]] + InsertByZ(e, s[1..])
  }

  /**
   * One z-ascending arrangement of `s`. Ruby's `sort_by` does not promise an
   * order among equal z, so only sortedness and permutation are stated about it.
   */
  function SortByZ(s: seq<Entry>): seq<Entry>
    decreases |s|
  {
    if s == [] then [] else InsertByZ(s[0], SortByZ(s[1..]))
  }

  lemma {:induction false} InsertByZPermutes(e: Entry, s: seq<Entry>)
    ensures multiset(InsertByZ(e, s)) == multiset(s) + multiset{e}
    decreases |s|
  {
    if s != [] && e.context.z > s[0].context.z {
      InsertByZPermutes(e, s[1..]);
      assert s == [s[0]] + s[1..];
    }
  }

  lemma {:induction false} InsertByZSorted(e: Entry, s: seq<Entry>)
    requires SortedByZ(s)
    ensures SortedByZ(InsertByZ(e, s))
    decreases |s|
  {
    if s != [] && e.context.z > s[0].context.z {
      InsertByZSorted(e, s[1..]);
      InsertByZPermutes(e, s[1..]);
      var t := InsertByZ(e, s[1..]);
      forall k | 0 <= k < |t|
        ensures s[0].context.z <= t[k].context.z
      {
        assert t[k] in multiset(s[1..]) + multiset{e};
        if t[k] in multiset(s[1..]) {
          var m :| 0 <= m < |s[1..]| && s[1..][m] == t[k];
          assert s[1 + m] == t[k];
        }
      }
    }
  }

  /** The sorted view holds exactly the given entries, each as often as given. */
  lemma {:induction false} SortByZPermutes(s: seq<Entry>)
    ensures multiset(SortByZ(s)) == multiset(s)
    decreases |s|
  {
    if s != [] {
      SortByZPermutes(s[1..]);
      InsertByZPermutes(s[0], SortByZ(s[1..]));
      assert s == [s[0]] + s[1..];
    }
  }

  /** The sorted view is non-decreasing in z. */
  lemma {:induction false} SortByZSorted(s: seq<Entry>)
    ensures SortedByZ(SortByZ(s))
    decreases |s|
  {
    if s != [] {
      SortByZSorted(s[1..]);
      InsertByZSorted(s[0], SortByZ(s[1..]));
    }
  }

  /**
   * `view` is what `sort_by { |_, ctx| ctx.z }` may return for the hash:
   * z-ascending and holding exactly the hash's pairs.  Nothing is said about
   * the order of pairs with equal z.
   */
  ghost predicate IsSortedView(view: seq<Entry>, order: seq<Name>, contexts: map<Name, LayerContext>)
    requires forall n <- order :: n in contexts
  {
    SortedByZ(view) && multiset(view) == multiset(Entries(order, contexts))
  }

  /** `SortByZ` is one such arrangement, so a sorted view always exists. */
  lemma SortByZIsSortedView(order: seq<Name>, contexts: map<Name, LayerContext>)
    requires forall n <- order :: n in contexts
    ensures IsSortedView(SortByZ(Entries(order, contexts)), order, contexts)
  {
    SortByZSorted(Entries(order, contexts));
    SortByZPermutes(Entries(order, contexts));
  }

  /**
   * An entry is in a sorted view of a hash exactly when its name is a key
   * and its context is the one stored under that key.
   */
  lemma SortedEntriesMembership(view: seq<Entry>, order: seq<Name>, contexts: map<Name, LayerContext>, e: Entry)
    requires forall n <- order :: n in contexts
    requires forall n <- contexts :: n in order
    requires multiset(view) == multiset(Entries(order, contexts))
    ensures e in view <==> e.name in contexts && e.context == contexts[e.name]
  {
    var es := Entries(order, contexts);
    assert e in view <==> e in multiset(es);
    if e.name in contexts && e.context == contexts[e.name] {
      var i :| 0 <= i < |order| && order[i] == e.name;
      assert es[i] == e;
    }
  }

  predicate NoDuplicates(names: seq<Name>) {
    forall i, j :: 0 <= i < j < |names| ==> names[i] != names[j]
  }

  /**
   * `@layer_contexts` is consistent: `order` lists each key once (a Ruby
   * hash's insertion order) and every context is stored under its own name.
   */
  ghost predicate WellFormed(order: seq<Name>, contexts: map<Name, LayerContext>) {
    (forall n <- order :: n in contexts) &&
    (forall n <- contexts :: n in order) &&
    NoDuplicates(order) &&
    (forall n <- contexts :: contexts[n].name == n)
  }

  /** The insertion order after `contexts[name] = ...`: a new key goes last, an existing key keeps its place. */
  function Registered(order: seq<Name>, contexts: map<Name, LayerContext>, name: Name): (o: seq<Name>)
    ensures name in contexts ==> o == order
    ensures name !in contexts ==> o == order + [name]
  {
    if name in contexts then order else order + [name]
  }

  /** Storing a context under its own name keeps the hash consistent. */
  lemma RegisterKeepsWellFormed(order: seq<Name>, contexts: map<Name, LayerContext>, ctx: LayerContext)
    requires WellFormed(order, contexts)
    ensures WellFormed(Registered(order, contexts, ctx.name), contexts[ctx.name := ctx])
  {
  }

  /**
   * Every sorted view of a consistent hash is z-ascending and holds exactly
   * the stored pairs, each once.
   */
  lemma SortedView(view: seq<Entry>, order: seq<Name>, contexts: map<Name, LayerContext>)
    requires WellFormed(order, contexts) && IsSortedView(view, order, contexts)
    ensures |view| == |contexts|
    ensures forall i, j :: 0 <= i < j < |view| ==> view[i].context.z <= view[j].context.z
    ensures forall e {:trigger e in view} :: e in view <==> e.name in contexts && e.context == contexts[e.name]
  {
    forall e
      ensures e in view <==> e.name in contexts && e.context == contexts[e.name]
    {
      SortedEntriesMembership(view, order, contexts, e);
    }
    assert |view| == |multiset(view)| == |Entries(order, contexts)| == |order|;
    assert contexts.Keys == set n | n in order;
    NoDuplicatesCard(order);
  }

  /** A list without duplicates has as many elements as its set. */
  lemma {:induction false} NoDuplicatesCard(names: seq<Name>)
    requires NoDuplicates(names)
    ensures |set n | n in names| == |names|
    decreases |names|
  {
    if names != [] {
      var rest := names[..|names| - 1];
      var last := names[|names| - 1];
      NoDuplicatesCard(rest);
      assert (set n | n in names) == (set n | n in rest) + {last};
      assert last !in rest;
    }
  }

  /**
   * Registering z = 5, 1, 3 has exactly one draw order, 1, 3, 5: with
   * distinct z the tie-break of `sort_by` cannot matter.
   */
  lemma DistinctZDrawOrder(view: seq<Entry>, a: LayerContext, b: LayerContext, c: LayerContext)
    requires a.z == 5.0 && b.z == 1.0 && c.z == 3.0
    requires SortedByZ(view)
    requires multiset(view) == multiset([Entry("a", a), Entry("b", b), Entry("c", c)])
    ensures view == [Entry("b", b), Entry("c", c), Entry("a", a)]
  {
    var ea, eb, ec := Entry("a", a), Entry("b", b), Entry("c", c);
    assert |view| == 3 by {
      assert |multiset(view)| == |view|;
    }
    assert eb in multiset(view) && ec in multiset(view) && ea in multiset(view);
    forall i | 0 <= i < 3
      ensures view[i] == ea || view[i] == eb || view[i] == ec
    {
      assert view[i] in multiset(view);
    }
    assert view[0] == eb;
    assert view[2] == ea;
  }
}
