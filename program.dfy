/**
 * A compiled shader program of the simulator (`jFluidic.Program`): its
 * source text and the parameters the loader found in it, and `go`, which
 * binds the caller's values to those parameters (`_setupParameters`) and
 * draws one full-screen quad into whatever the framebuffer is attached to.
 *
 * The GPU is free: a draw's output is the symbolic grid
 * `Rendered(source, inputs)`, the program's text applied to what was bound,
 * with every bound texture replaced by its contents at the time of the draw.
 */
module Programs {
  import opened Wrappers
  import opened Textures

  /** The values callers bind: numbers, vectors, and textures. */
  datatype Value = Number(x: real) | Vector(xs: seq<real>) | Texture(handle: Handle)

  /** One entry of a `bindings` object, in the object's iteration order. */
  datatype Binding<V> = Binding(key: string, value: V)

  /** What `_setupParameters` does with one binding. */
  datatype Command<V> =
    | Uniform4(name: string, value: V)
    | Uniform2(name: string, value: V)
    | Uniform1(name: string, value: V)
    | Sampler(name: string, unit: nat, value: V)
    | Unhandled(name: string)
    | Skipped(name: string)

  /** A loaded program: its source text and its parameters, `name -> declared type`. */
  datatype Program = Program(source: string, params: map<string, string>)

  /** The cases of the `switch` on a parameter's declared type. */
  datatype Case = Vec4 | Vec2 | Float | Sampler2D | Default

  function CaseOf(declared: string): Case {
    if declared == "vec4" then Vec4
    else if declared == "vec2" then Vec2
    else if declared == "float" then Float
    else if declared == "sampler2D" then Sampler2D
    else Default
  }

  /** The binding `key` names a `sampler2D` parameter: it takes a texture unit. */
  predicate IsSampler(params: map<string, string>, key: string) {
    key in params && CaseOf(params[key]) == Sampler2D
  }

  /**
   * The `switch` on the declared type: `uniform4fv`, `uniform2fv`, `uniform1f`,
   * or, for a sampler, activating texture unit `unit`, binding the texture to
   * it and pointing the parameter at it; any other type reaches `debugger` and
   * binds nothing. A key the program does not declare is skipped.
   */
  function CommandFor<V>(params: map<string, string>, b: Binding<V>, unit: nat): Command<V> {
    if b.key !in params then Skipped(b.key)
    else match CaseOf(params[b.key])
      case Vec4 => Uniform4(b.key, b.value)
      case Vec2 => Uniform2(b.key, b.value)
      case Float => Uniform1(b.key, b.value)
      case Sampler2D => Sampler(b.key, unit, b.value)
      case Default => Unhandled(b.key)
  }

  /** The number of sampler bindings among the first `i`. */
  function SamplersBefore<V>(params: map<string, string>, bs: seq<Binding<V>>, i: nat): nat
    requires i <= |bs|
  {
    if i == 0 then 0
    else SamplersBefore(params, bs, i - 1) + (if IsSampler(params, bs[i - 1].key) then 1 else 0)
  }

  /**
   * The commands issued for the bindings from `i` on, when `unit` is the next
   * free texture unit: each sampler takes the next unit, nothing else takes one.
   */
  function DispatchFrom<V>(params: map<string, string>, bs: seq<Binding<V>>, i: nat, unit: nat): seq<Command<V>>
    requires i <= |bs|
    decreases |bs| - i
  {
    if i == |bs| then []
    else [CommandFor(params, bs[i], unit)]
         + DispatchFrom(params, bs, i + 1, if IsSampler(params, bs[i].key) then unit + 1 else unit)
  }

  /** The commands `_setupParameters` issues for a whole `bindings` object. */
  function Dispatch<V>(params: map<string, string>, bs: seq<Binding<V>>): seq<Command<V>> {
    DispatchFrom(params, bs, 0, 0)
  }

  lemma {:induction false} DispatchFromLength<V>(params: map<string, string>, bs: seq<Binding<V>>, i: nat, unit: nat)
    requires i <= |bs|
    ensures |DispatchFrom(params, bs, i, unit)| == |bs| - i
    decreases |bs| - i
  {
    if i < |bs| {
      DispatchFromLength(params, bs, i + 1, if IsSampler(params, bs[i].key) then unit + 1 else unit);
    }
  }

  /**
   * The command issued for the `k`-th binding is what the `switch` does with
   * it, a sampler getting as its unit the number of samplers bound before it.
   */
  lemma {:induction false} DispatchFromAt<V>(params: map<string, string>, bs: seq<Binding<V>>, i: nat, k: nat)
    requires i <= k < |bs|
    ensures |DispatchFrom(params, bs, i, SamplersBefore(params, bs, i))| == |bs| - i
    ensures DispatchFrom(params, bs, i, SamplersBefore(params, bs, i))[k - i] == CommandFor(params, bs[k], SamplersBefore(params, bs, k))
    decreases k - i
  {
    DispatchFromLength(params, bs, i, SamplersBefore(params, bs, i));
    if i < k {
      DispatchFromAt(params, bs, i + 1, k);
      var rest := DispatchFrom(params, bs, i + 1, SamplersBefore(params, bs, i + 1));
      assert DispatchFrom(params, bs, i, SamplersBefore(params, bs, i)) == [CommandFor(params, bs[i], SamplersBefore(params, bs, i))] + rest;
    }
  }

  /**
   * One command per binding, in order; the `k`-th is what the `switch` does
   * with the `k`-th binding, a sampler getting as its unit the number of
   * samplers bound before it.
   */
  lemma DispatchAt<V>(params: map<string, string>, bs: seq<Binding<V>>)
    ensures |Dispatch(params, bs)| == |bs|
    ensures forall k :: 0 <= k < |bs| ==> Dispatch(params, bs)[k] == CommandFor(params, bs[k], SamplersBefore(params, bs, k))
  {
    DispatchFromLength(params, bs, 0, 0);
    forall k | 0 <= k < |bs|
      ensures Dispatch(params, bs)[k] == CommandFor(params, bs[k], SamplersBefore(params, bs, k))
    {
      DispatchFromAt(params, bs, 0, k);
    }
  }

  /** Sampler units are handed out 0, 1, 2, … in binding order: the `n`-th sampler bound gets unit `n`. */
  lemma {:induction false} SamplerUnits<V>(params: map<string, string>, bs: seq<Binding<V>>, k: nat)
    requires k < |bs| && IsSampler(params, bs[k].key)
    ensures |Dispatch(params, bs)| == |bs|
    ensures Dispatch(params, bs)[k] == Sampler(bs[k].key, SamplersBefore(params, bs, k), bs[k].value)
    ensures forall j :: k < j < |bs| && IsSampler(params, bs[j].key) ==>
      Dispatch(params, bs)[j] == Sampler(bs[j].key, SamplersBefore(params, bs, j), bs[j].value)
      && SamplersBefore(params, bs, j) > SamplersBefore(params, bs, k)
  {
    DispatchAt(params, bs);
    forall j | k < j <= |bs| ensures SamplersBefore(params, bs, j) > SamplersBefore(params, bs, k) {
      SamplersBeforeGrows(params, bs, k, j);
    }
  }

  /** Past a sampler, the count of samplers is larger. */
  lemma {:induction false} SamplersBeforeGrows<V>(params: map<string, string>, bs: seq<Binding<V>>, k: nat, j: nat)
    requires k < j <= |bs| && IsSampler(params, bs[k].key)
    ensures SamplersBefore(params, bs, j) > SamplersBefore(params, bs, k)
    decreases j
  {
    if j > k + 1 {
      SamplersBeforeGrows(params, bs, k, j - 1);
    }
  }

  /** Bindings that are not samplers never take a texture unit, nor change the units of later samplers. */
  lemma {:induction false} NonSamplerTakesNoUnit<V>(params: map<string, string>, bs: seq<Binding<V>>, k: nat)
    requires k < |bs| && !IsSampler(params, bs[k].key)
    ensures SamplersBefore(params, bs, k + 1) == SamplersBefore(params, bs, k)
    ensures |Dispatch(params, bs)| == |bs| && !Dispatch(params, bs)[k].Sampler?
  {
    DispatchAt(params, bs);
  }

  /**
   * `_setupParameters`: walks the bindings, counting the texture units
   * handed out in `textureNumber`.
   */
  method SetupParameters(params: map<string, string>, bindings: seq<Binding<Value>>) returns (trace: seq<Command<Value>>)
    ensures trace == Dispatch(params, bindings)
  {
    trace := [];
    var textureNumber := 0;
    for i := 0 to |bindings|
      invariant trace + DispatchFrom(params, bindings, i, textureNumber) == Dispatch(params, bindings)
    {
      var b := bindings[i];
      ghost var unit := textureNumber;
      ghost var rest := DispatchFrom(params, bindings, i + 1, if IsSampler(params, b.key) then unit + 1 else unit);
      var command;
      if b.key !in params {
        command := Skipped(b.key);
      } else {
        match CaseOf(params[b.key])
        case Vec4 =>
          command := Uniform4(b.key, b.value);
        case Vec2 =>
          command := Uniform2(b.key, b.value);
        case Float =>
          command := Uniform1(b.key, b.value);
        case Sampler2D =>
          command := Sampler(b.key, textureNumber, b.value);
          textureNumber := textureNumber + 1;
        case Default =>
          command := Unhandled(b.key);
      }
      assert DispatchFrom(params, bindings, i, unit) == [command] + rest;
      assert trace + ([command] + rest) == (trace + [command]) + rest;
      trace := trace + [command];
    }
  }

  /** How `_setupParameters` as written ends: normally, or by throwing. */
  datatype Outcome = Completed(trace: seq<Command<Value>>) | ReferenceError

  /**
   * `_setupParameters` as written: on a key the program does not declare it
   * evaluates the undeclared identifier `binding` for its warning, which
   * throws, abandoning the draw.
   */
  function SetupAsWrittenFrom(params: map<string, string>, bs: seq<Binding<Value>>, i: nat, unit: nat): Outcome
    requires i <= |bs|
    decreases |bs| - i
  {
    if i == |bs| then Completed([])
    else if bs[i].key !in params then ReferenceError
    else match SetupAsWrittenFrom(params, bs, i + 1, if IsSampler(params, bs[i].key) then unit + 1 else unit)
      case ReferenceError => ReferenceError
      case Completed(rest) => Completed([CommandFor(params, bs[i], unit)] + rest)
  }

  function SetupAsWritten(params: map<string, string>, bs: seq<Binding<Value>>): Outcome {
    SetupAsWrittenFrom(params, bs, 0, 0)
  }

  /**
   * As written, the setup throws exactly when some key is undeclared; when it
   * does not throw it issues the same commands as the corrected setup.
   */
  lemma {:induction false} SetupAsWrittenFromThrows(params: map<string, string>, bs: seq<Binding<Value>>, i: nat, unit: nat)
    requires i <= |bs|
    ensures SetupAsWrittenFrom(params, bs, i, unit).ReferenceError? <==> exists k :: i <= k < |bs| && bs[k].key !in params
    ensures SetupAsWrittenFrom(params, bs, i, unit).Completed? ==>
      SetupAsWrittenFrom(params, bs, i, unit).trace == DispatchFrom(params, bs, i, unit)
    decreases |bs| - i
  {
    if i < |bs| {
      SetupAsWrittenFromThrows(params, bs, i + 1, if IsSampler(params, bs[i].key) then unit + 1 else unit);
    }
  }

  lemma SetupAsWrittenThrows(params: map<string, string>, bs: seq<Binding<Value>>)
    ensures SetupAsWritten(params, bs).ReferenceError? <==> exists k :: 0 <= k < |bs| && bs[k].key !in params
    ensures SetupAsWritten(params, bs).Completed? ==> SetupAsWritten(params, bs).trace == Dispatch(params, bs)
  {
    SetupAsWrittenFromThrows(params, bs, 0, 0);
  }

  /**
   * A program that declares nothing, bound a number under `dt`: as written
   * the draw throws; the evident intent, skipping the key with a warning,
   * binds nothing and draws.
   */
  lemma UndeclaredKeyThrows()
    ensures SetupAsWritten(map[], [Binding("dt", Number(0.5))]) == ReferenceError
    ensures Dispatch(map[], [Binding("dt", Number(0.5))]) == [Skipped("dt")]
  {
  }

  /** Contents of a texture: as it was created, or the output of a draw into it. */
  datatype Grid = Initial(handle: Handle) | Rendered(source: string, inputs: seq<Command<Input>>)

  /** A bound value as a kernel sees it: a texture is seen through its contents. */
  datatype Input = InNumber(x: real) | InVector(xs: seq<real>) | InTexture(contents: Grid)

  /** The contents of texture `h`: the last draw into it, or its initial contents. */
  function Lookup(store: map<Handle, Grid>, h: Handle): Grid {
    if h in store then store[h] else Initial(h)
  }

  function Resolve(store: map<Handle, Grid>, v: Value): Input {
    match v
    case Number(x) => InNumber(x)
    case Vector(xs) => InVector(xs)
    case Texture(h) => InTexture(Lookup(store, h))
  }

  function ResolveCommand(store: map<Handle, Grid>, c: Command<Value>): Command<Input> {
    match c
    case Uniform4(n, v) => Uniform4(n, Resolve(store, v))
    case Uniform2(n, v) => Uniform2(n, Resolve(store, v))
    case Uniform1(n, v) => Uniform1(n, Resolve(store, v))
    case Sampler(n, u, v) => Sampler(n, u, Resolve(store, v))
    case Unhandled(n) => Unhandled(n)
    case Skipped(n) => Skipped(n)
  }

  function ResolveTrace(store: map<Handle, Grid>, trace: seq<Command<Value>>): seq<Command<Input>> {
    seq(|trace|, k requires 0 <= k < |trace| => ResolveCommand(store, trace[k]))
  }

  /** What drawing `p` with `bindings` produces, given the textures' contents. */
  function Output(p: Program, store: map<Handle, Grid>, bindings: seq<Binding<Value>>): Grid {
    Rendered(p.source, ResolveTrace(store, Dispatch(p.params, bindings)))
  }

  /** The bindings as the kernel sees them: each texture replaced by its contents. */
  function ResolveBindings(store: map<Handle, Grid>, bs: seq<Binding<Value>>): (rs: seq<Binding<Input>>)
  {
    seq(|bs|, k requires 0 <= k < |bs| => Binding(bs[k].key, Resolve(store, bs[k].value)))
  }

  /** Two binding lists with the same keys hand out the same texture units. */
  lemma {:induction false} SamplersBeforeKeys<V, W>(params: map<string, string>, bs: seq<Binding<V>>, cs: seq<Binding<W>>, i: nat)
    requires |bs| == |cs| && i <= |bs|
    requires forall k :: 0 <= k < |bs| ==> bs[k].key == cs[k].key
    ensures SamplersBefore(params, bs, i) == SamplersBefore(params, cs, i)
  {
    if i > 0 {
      SamplersBeforeKeys(params, bs, cs, i - 1);
    }
  }

  /**
   * A draw is its program applied to what it sees: dispatching the bindings
   * and then reading the bound textures is dispatching the values read.
   */
  lemma OutputSees(p: Program, store: map<Handle, Grid>, bindings: seq<Binding<Value>>)
    ensures Output(p, store, bindings) == Rendered(p.source, Dispatch(p.params, ResolveBindings(store, bindings)))
  {
    var rs := ResolveBindings(store, bindings);
    DispatchAt(p.params, bindings);
    DispatchAt(p.params, rs);
    forall k | 0 <= k < |bindings|
      ensures ResolveTrace(store, Dispatch(p.params, bindings))[k] == Dispatch(p.params, rs)[k]
    {
      SamplersBeforeKeys(p.params, bindings, rs, k);
      ResolveCommandFor(store, p.params, bindings[k], SamplersBefore(p.params, bindings, k));
    }
  }

  /** Reading the textures of a command is issuing the command for the values read. */
  lemma ResolveCommandFor(store: map<Handle, Grid>, params: map<string, string>, b: Binding<Value>, unit: nat)
    ensures ResolveCommand(store, CommandFor(params, b, unit)) == CommandFor(params, Binding(b.key, Resolve(store, b.value)), unit)
  {
  }

  /** No binding is the texture `h`. */
  predicate Avoids(bindings: seq<Binding<Value>>, h: Handle) {
    forall k :: 0 <= k < |bindings| ==> bindings[k].value != Texture(h)
  }

  /**
   * A draw reads only the textures bound to it: if none of the bindings is
   * `h`, the contents of `h` do not affect the output.
   */
  lemma OutputIgnores(p: Program, store: map<Handle, Grid>, bindings: seq<Binding<Value>>, h: Handle, g: Grid)
    requires Avoids(bindings, h)
    ensures Output(p, store[h := g], bindings) == Output(p, store, bindings)
  {
    OutputSees(p, store[h := g], bindings);
    OutputSees(p, store, bindings);
    forall k | 0 <= k < |bindings|
      ensures Resolve(store[h := g], bindings[k].value) == Resolve(store, bindings[k].value)
    {
      assert bindings[k].value != Texture(h);
    }
    assert ResolveBindings(store[h := g], bindings) == ResolveBindings(store, bindings);
  }

  /**
   * The GPU as the simulator uses it: the contents of the textures it has
   * drawn into, what the framebuffer is attached to (`None`: the canvas), and
   * what was last drawn on the canvas.
   */
  class Gpu {
    var store: map<Handle, Grid>
    var target: Option<Handle>
    var screen: Option<Grid>

    constructor ()
      ensures store == map[] && target == None && screen == None
    {
      store := map[];
      target := None;
      screen := None;
    }

    /** `Program.go`: bind the parameters, then draw into the attached texture or onto the canvas. */
    method Draw(p: Program, bindings: seq<Binding<Value>>)
      modifies this
      ensures target == old(target)
      ensures old(target).Some? ==>
        store == old(store)[old(target).value := Output(p, old(store), bindings)] && screen == old(screen)
      ensures old(target).None? ==> store == old(store) && screen == Some(Output(p, old(store), bindings))
    {
      var trace := SetupParameters(p.params, bindings);
      var out := Rendered(p.source, ResolveTrace(store, trace));
      if target.Some? {
        store := store[target.value := out];
      } else {
        screen := Some(out);
      }
    }

    /** `bindFramebuffer` with a texture attached (`Some`) or with `null` (`None`). */
    method Attach(h: Option<Handle>)
      modifies this
      ensures target == h && store == old(store) && screen == old(screen)
    {
      target := h;
    }
  }
}
