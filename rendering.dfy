/**
 * Rendering through the texture manager: `Renderer.begin` attaches the
 * current `buffer` texture as render target, the program draws into it, and
 * `Renderer.end(destination)` detaches it and swaps the buffer with the
 * destination field, so that the destination names the fresh output and the
 * old destination texture becomes the next buffer. `Solver.go` and
 * `SolveProgram.go` are that sequence.
 */
module Rendering {
  import opened Wrappers
  import opened Textures
  import opened Programs

  /** What the simulator's textures hold: the five names, the GPU's texture contents, the canvas. */
  datatype Sim = Sim(handles: Handles, store: map<Handle, Grid>, screen: Option<Grid>)

  /** The contents of the texture stored under `f`. */
  function Contents(sim: Sim, f: FieldName): Grid {
    Lookup(sim.store, sim.handles.Get(f))
  }

  /** `Solver.go(p, bindings, dest)` on the state: draw into the buffer, then swap it with `dest`. */
  function Drawn(sim: Sim, p: Program, bindings: seq<Binding<Value>>, dest: FieldName): Sim {
    Sim(Swapped(sim.handles, dest), sim.store[sim.handles.buffer := Output(p, sim.store, bindings)], sim.screen)
  }

  /**
   * After a draw into `dest`, `dest` holds the output, the buffer holds what
   * `dest` held before, every other field is unchanged, and the five names
   * stay on five distinct textures.
   */
  lemma DrawnContents(sim: Sim, p: Program, bindings: seq<Binding<Value>>, dest: FieldName)
    requires sim.handles.Distinct()
    ensures Drawn(sim, p, bindings, dest).handles.Distinct()
    ensures Contents(Drawn(sim, p, bindings, dest), dest) == Output(p, sim.store, bindings)
    ensures dest != Buffer ==> Contents(Drawn(sim, p, bindings, dest), Buffer) == Contents(sim, dest)
    ensures forall g :: g != dest && g != Buffer ==> Contents(Drawn(sim, p, bindings, dest), g) == Contents(sim, g)
    ensures Drawn(sim, p, bindings, dest).screen == sim.screen
  {
    SwapKeepsDistinct(sim.handles, dest);
  }

  /** A binding's value as written at the call site: a field's accessor, or a number or vector. */
  datatype Arg = Field(f: FieldName) | Scalar(x: real) | Vec(xs: seq<real>)

  /** The value of an argument when the bindings object is built: a field's accessor returns its handle. */
  function Eval(h: Handles, a: Arg): Value {
    match a
    case Field(f) => Texture(h.Get(f))
    case Scalar(x) => Number(x)
    case Vec(xs) => Vector(xs)
  }

  function Bind(h: Handles, args: seq<Binding<Arg>>): (bs: seq<Binding<Value>>)
  {
    seq(|args|, k requires 0 <= k < |args| => Binding(args[k].key, Eval(h, args[k].value)))
  }

  /** No argument is the buffer's accessor. */
  predicate AvoidsBuffer(args: seq<Binding<Arg>>) {
    forall k :: 0 <= k < |args| ==> args[k].value != Field(Buffer)
  }

  /**
   * Bindings read through named fields other than the buffer never bind the
   * render target: what the buffer held does not affect the output.
   */
  lemma {:induction false} NoFeedback(sim: Sim, p: Program, args: seq<Binding<Arg>>, g: Grid)
    requires sim.handles.Distinct() && AvoidsBuffer(args)
    ensures Avoids(Bind(sim.handles, args), sim.handles.buffer)
    ensures Output(p, sim.store[sim.handles.buffer := g], Bind(sim.handles, args)) == Output(p, sim.store, Bind(sim.handles, args))
  {
    var bs := Bind(sim.handles, args);
    forall k | 0 <= k < |bs| ensures bs[k].value != Texture(sim.handles.buffer) {
      assert args[k].value != Field(Buffer);
    }
    OutputIgnores(p, sim.store, bs, sim.handles.buffer, g);
  }

  /** One call `solver.go(program, {args}, dest)`. */
  datatype Call = Call(program: Program, args: seq<Binding<Arg>>, dest: FieldName)

  function Perform(sim: Sim, c: Call): Sim {
    Drawn(sim, c.program, Bind(sim.handles, c.args), c.dest)
  }

  /** A sequence of calls, the first performed first. */
  function Run(sim: Sim, cs: seq<Call>): Sim
    decreases |cs|
  {
    if cs == [] then sim else Run(Perform(sim, cs[0]), cs[1..])
  }

  function Dests(cs: seq<Call>): (ds: seq<FieldName>)
  {
    seq(|cs|, k requires 0 <= k < |cs| => cs[k].dest)
  }

  lemma {:induction false} RunAppend(sim: Sim, xs: seq<Call>, ys: seq<Call>)
    ensures Run(sim, xs + ys) == Run(Run(sim, xs), ys)
    decreases |xs|
  {
    if xs == [] {
      assert xs + ys == ys;
    } else {
      assert (xs + ys)[1..] == xs[1..] + ys;
      RunAppend(Perform(sim, xs[0]), xs[1..], ys);
    }
  }

  /** Performing one more call after a sequence. */
  lemma RunSnoc(sim: Sim, cs: seq<Call>, c: Call)
    ensures Run(sim, cs + [c]) == Perform(Run(sim, cs), c)
  {
    RunAppend(sim, cs, [c]);
  }

  /**
   * After a sequence of calls the handles are those of the swaps of their
   * destinations, the canvas is unchanged, and a field no call writes (other
   * than the buffer) has the contents it had.
   */
  lemma {:induction false} RunEffects(sim: Sim, cs: seq<Call>)
    requires sim.handles.Distinct()
    ensures Run(sim, cs).handles == SwapAll(sim.handles, Dests(cs))
    ensures Run(sim, cs).handles.Distinct()
    ensures Run(sim, cs).screen == sim.screen
    ensures forall f :: f != Buffer && f !in Dests(cs) ==> Contents(Run(sim, cs), f) == Contents(sim, f)
    decreases |cs|
  {
    if cs != [] {
      var next := Perform(sim, cs[0]);
      DrawnContents(sim, cs[0].program, Bind(sim.handles, cs[0].args), cs[0].dest);
      RunEffects(next, cs[1..]);
      assert Dests(cs) == [cs[0].dest] + Dests(cs[1..]);
      forall f | f != Buffer && f !in Dests(cs) ensures Contents(Run(sim, cs), f) == Contents(sim, f) {
        assert f != cs[0].dest && f !in Dests(cs[1..]);
      }
    }
  }

  /** The state that `begin`, the draw and `end` act on, read off the objects. */
  function Snapshot(gpu: Gpu, textures: TextureManager): Sim
    reads gpu, textures
  {
    Sim(textures.State(), gpu.store, gpu.screen)
  }

  /** `jFluidic.Renderer`: the framebuffer (here, the GPU) and the texture manager. */
  class Renderer {
    const gpu: Gpu
    const textures: TextureManager

    constructor (gpu: Gpu, textures: TextureManager)
      ensures this.gpu == gpu && this.textures == textures
    {
      this.gpu := gpu;
      this.textures := textures;
    }

    /** `begin`: render into the texture that is currently the buffer. */
    method Begin()
      modifies gpu, textures
      ensures gpu.target == Some(textures.buffer)
      ensures gpu.store == old(gpu.store) && gpu.screen == old(gpu.screen)
      ensures textures.State() == old(textures.State()) && textures.swaps == old(textures.swaps)
    {
      var buffer := textures.Access(Buffer, None);
      gpu.Attach(Some(buffer));
    }

    /** `end(destination)`: render to the canvas again and swap the buffer with `destination`. */
    method End(destination: FieldName)
      modifies gpu, textures
      ensures gpu.target == None
      ensures gpu.store == old(gpu.store) && gpu.screen == old(gpu.screen)
      ensures textures.State() == Swapped(old(textures.State()), destination)
      ensures textures.swaps == old(textures.swaps) + [destination]
    {
      gpu.Attach(None);
      textures.Swap(destination);
    }
  }

  /** `jFluidic.Solver`: runs any program through its renderer. */
  class Solver {
    const renderer: Renderer

    constructor (renderer: Renderer)
      ensures this.renderer == renderer
    {
      this.renderer := renderer;
    }

    /** `go(program, bindings, destination)`: one draw into the buffer and exactly one swap. */
    method Go(program: Program, bindings: seq<Binding<Value>>, destination: FieldName)
      modifies renderer.gpu, renderer.textures
      ensures Snapshot(renderer.gpu, renderer.textures)
        == Drawn(old(Snapshot(renderer.gpu, renderer.textures)), program, bindings, destination)
      ensures renderer.textures.swaps == old(renderer.textures.swaps) + [destination]
      ensures renderer.gpu.target == None
    {
      renderer.Begin();
      renderer.gpu.Draw(program, bindings);
      renderer.End(destination);
    }
  }

  /** `jFluidic.SolveProgram`: a solver bound to one program. */
  class SolveProgram {
    const renderer: Renderer
    const program: Program

    constructor (renderer: Renderer, program: Program)
      ensures this.renderer == renderer && this.program == program
    {
      this.renderer := renderer;
      this.program := program;
    }

    /** `go(bindings, destination)`: the bound program drawn into the buffer, then one swap. */
    method Go(bindings: seq<Binding<Value>>, destination: FieldName)
      modifies renderer.gpu, renderer.textures
      ensures Snapshot(renderer.gpu, renderer.textures)
        == Drawn(old(Snapshot(renderer.gpu, renderer.textures)), program, bindings, destination)
      ensures renderer.textures.swaps == old(renderer.textures.swaps) + [destination]
      ensures renderer.gpu.target == None
    {
      renderer.Begin();
      renderer.gpu.Draw(program, bindings);
      renderer.End(destination);
    }
  }
}
