/**
 * The texture manager of the fluid simulator: five texture handles stored
 * under five names, one of which (`buffer`) is always the next render target,
 * and the `swap` that exchanges the buffer with a named field after a render.
 */
module Textures {
  import opened Wrappers

  /** A WebGL texture object, identified by the allocation it stands for. */
  type Handle = nat

  /** The five accessors of the texture manager; `swap(fn)` receives one of them as `fn`. */
  datatype FieldName = VectorField | Buffer | DivergenceField | Pressure | Ink

  /** The handles stored under the five names, taken together as one value. */
  datatype Handles = Handles(vectorField: Handle, buffer: Handle, divergenceField: Handle, pressure: Handle, ink: Handle)
  {
    /** What the accessor `f()` returns when called without an argument. */
    function Get(f: FieldName): Handle {
      match f
      case VectorField => vectorField
      case Buffer => buffer
      case DivergenceField => divergenceField
      case Pressure => pressure
      case Ink => ink
    }

    /** The state after the accessor `f(h)` stores `h`. */
    function Set(f: FieldName, h: Handle): Handles {
      match f
      case VectorField => this.(vectorField := h)
      case Buffer => this.(buffer := h)
      case DivergenceField => this.(divergenceField := h)
      case Pressure => this.(pressure := h)
      case Ink => this.(ink := h)
    }

    /** No two names share an allocation. */
    predicate Distinct() {
      && vectorField != buffer && vectorField != divergenceField && vectorField != pressure && vectorField != ink
      && buffer != divergenceField && buffer != pressure && buffer != ink
      && divergenceField != pressure && divergenceField != ink
      && pressure != ink
    }

    /** The allocations named, with multiplicity. */
    function Allocations(): multiset<Handle> {
      multiset{vectorField, buffer, divergenceField, pressure, ink}
    }
  }

  /**
   * `swap(fn)`: remember the buffer's handle, store the handle under `f` as the
   * buffer, then store the remembered handle under `f`.
   */
  function Swapped(h: Handles, f: FieldName): (r: Handles)
    ensures f != Buffer ==> r.Get(Buffer) == h.Get(f) && r.Get(f) == h.Get(Buffer)
    ensures f == Buffer ==> r == h
    ensures forall g :: g != f && g != Buffer ==> r.Get(g) == h.Get(g)
  {
    h.Set(Buffer, h.Get(f)).Set(f, h.buffer)
  }

  /** The handles after a sequence of swaps, the first swap applied first. */
  function SwapAll(h: Handles, fs: seq<FieldName>): Handles
    decreases |fs|
  {
    if fs == [] then h else SwapAll(Swapped(h, fs[0]), fs[1..])
  }

  /** A swap exchanges two of the stored handles: the stored handles stay a permutation of themselves. */
  lemma SwapPermutes(h: Handles, f: FieldName)
    ensures Swapped(h, f).Allocations() == h.Allocations()
  {
    match f
    case VectorField => ExchangeVectorField(h);
    case Buffer =>
    case DivergenceField => ExchangeDivergenceField(h);
    case Pressure => ExchangePressure(h);
    case Ink => ExchangeInk(h);
  }

  // One exchange of the buffer's handle with another handle each; the
  // multiset of allocations is the same.
  lemma ExchangeVectorField(h: Handles)
    ensures Handles(h.buffer, h.vectorField, h.divergenceField, h.pressure, h.ink).Allocations() == h.Allocations()
  {
  }

  lemma ExchangeDivergenceField(h: Handles)
    ensures Handles(h.vectorField, h.divergenceField, h.buffer, h.pressure, h.ink).Allocations() == h.Allocations()
  {
  }

  lemma ExchangePressure(h: Handles)
    ensures Handles(h.vectorField, h.pressure, h.divergenceField, h.buffer, h.ink).Allocations() == h.Allocations()
  {
  }

  lemma ExchangeInk(h: Handles)
    ensures Handles(h.vectorField, h.ink, h.divergenceField, h.pressure, h.buffer).Allocations() == h.Allocations()
  {
  }

  /** A swap keeps the five names on five distinct allocations. */
  lemma SwapKeepsDistinct(h: Handles, f: FieldName)
    requires h.Distinct()
    ensures Swapped(h, f).Distinct()
  {
  }

  /** Swapping the same field twice restores the handles. */
  lemma SwapTwiceRestores(h: Handles, f: FieldName)
    ensures Swapped(Swapped(h, f), f) == h
  {
  }

  /**
   * Whatever sequence of swaps is performed, the stored handles are a
   * permutation of the ones stored before.
   */
  lemma {:induction false} SwapAllPermutes(h: Handles, fs: seq<FieldName>)
    ensures SwapAll(h, fs).Allocations() == h.Allocations()
    decreases |fs|
  {
    if fs != [] {
      var h' := Swapped(h, fs[0]);
      SwapPermutes(h, fs[0]);
      SwapAllPermutes(h', fs[1..]);
      assert SwapAll(h, fs) == SwapAll(h', fs[1..]);
    }
  }

  /** Whatever sequence of swaps is performed, five distinct handles stay distinct. */
  lemma {:induction false} SwapAllKeepsDistinct(h: Handles, fs: seq<FieldName>)
    requires h.Distinct()
    ensures SwapAll(h, fs).Distinct()
    decreases |fs|
  {
    if fs != [] {
      SwapKeepsDistinct(h, fs[0]);
      SwapAllKeepsDistinct(Swapped(h, fs[0]), fs[1..]);
    }
  }

  /** `n` copies of one field name. */
  function Repeat(f: FieldName, n: nat): (r: seq<FieldName>)
    ensures |r| == n && forall i :: 0 <= i < n ==> r[i] == f
  {
    if n == 0 then [] else Repeat(f, n - 1) + [f]
  }

  /** An even number of swaps of one field leaves every handle where it was. */
  lemma {:induction false} SwapEvenTimesRestores(h: Handles, f: FieldName, m: nat)
    ensures SwapAll(h, Repeat(f, 2 * m)) == h
  {
    if m > 0 {
      var rest := Repeat(f, 2 * (m - 1));
      assert Repeat(f, 2 * m) == [f, f] + rest;
      SwapAllAppend(h, [f, f], rest);
      SwapTwiceRestores(h, f);
      assert SwapAll(h, [f, f]) == SwapAll(Swapped(Swapped(h, f), f), []);
      SwapEvenTimesRestores(h, f, m - 1);
    }
  }

  lemma {:induction false} SwapAllAppend(h: Handles, fs: seq<FieldName>, gs: seq<FieldName>)
    ensures SwapAll(h, fs + gs) == SwapAll(SwapAll(h, fs), gs)
    decreases |fs|
  {
    if fs == [] {
      assert fs + gs == gs;
    } else {
      assert (fs + gs)[0] == fs[0];
      assert (fs + gs)[1..] == fs[1..] + gs;
      SwapAllAppend(Swapped(h, fs[0]), fs[1..], gs);
    }
  }

  /**
   * The texture manager object. Each field holds the handle stored under its
   * name; `swaps` records, for reasoning only, the argument of every `swap`.
   */
  class TextureManager {
    var vectorField: Handle
    var buffer: Handle
    var divergenceField: Handle
    var pressure: Handle
    var ink: Handle
    ghost var swaps: seq<FieldName>

    function State(): Handles
      reads this
    {
      Handles(vectorField, buffer, divergenceField, pressure, ink)
    }

    constructor (vectorField: Handle, buffer: Handle, divergenceField: Handle, pressure: Handle, ink: Handle)
      ensures State() == Handles(vectorField, buffer, divergenceField, pressure, ink)
      ensures swaps == []
    {
      this.vectorField := vectorField;
      this.buffer := buffer;
      this.divergenceField := divergenceField;
      this.pressure := pressure;
      this.ink := ink;
      swaps := [];
    }

    /**
     * The accessor `f(value)`: with no argument (`value` undefined) it returns
     * the stored handle; with one it stores the argument and returns it.
     */
    method Access(f: FieldName, value: Option<Handle>) returns (h: Handle)
      modifies this
      ensures value.None? ==> h == old(State()).Get(f) && State() == old(State())
      ensures value.Some? ==> h == value.value && State() == old(State()).Set(f, value.value)
      ensures swaps == old(swaps)
    {
      match f
      case VectorField =>
        vectorField := if value.None? then vectorField else value.value;
        h := vectorField;
      case Buffer =>
        buffer := if value.None? then buffer else value.value;
        h := buffer;
      case DivergenceField =>
        divergenceField := if value.None? then divergenceField else value.value;
        h := divergenceField;
      case Pressure =>
        pressure := if value.None? then pressure else value.value;
        h := pressure;
      case Ink =>
        ink := if value.None? then ink else value.value;
        h := ink;
    }

    /** `swap(fn)`: the buffer takes the handle under `f` and `f` takes the old buffer handle. */
    method Swap(f: FieldName)
      modifies this
      ensures State() == Swapped(old(State()), f)
      ensures swaps == old(swaps) + [f]
    {
      var tmp := Access(Buffer, None);
      var current := Access(f, None);
      var _ := Access(Buffer, Some(current));
      var _ := Access(f, Some(tmp));
      swaps := swaps + [f];
    }
  }
}
