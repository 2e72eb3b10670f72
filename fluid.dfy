/**
 * The simulator (`jFluidic.Fluid`): its kernels, the pressure solve, the
 * sub-step pipeline run by the frame tick, and the injection parameters the
 * mouse sets. Every simulation kernel runs through the solver, which draws
 * into the buffer and swaps it with the kernel's destination field; the final
 * draw of the ink onto the canvas calls the program directly.
 */
module Fluids {
  import opened Wrappers
  import opened Textures
  import opened Programs
  import opened Rendering
  import opened ProgramLoader

  /** The programs the simulator loads once, at construction. */
  datatype Kernels = Kernels(
    perturb: Program, advect: Program, inject: Program, jacobi: Program,
    divergence: Program, subtract: Program, draw: Program, debugDraw: Program)

  /** What the mouse asks to add: where, and which colour channels. */
  datatype Injection = Injection(position: seq<real>, velocity: seq<real>)

  /** `solveLinearSystem` relaxes this many times. */
  const Iterations: nat := 20

  /** `maxSecondsBetweenFrames`, in seconds. */
  const MaxSecondsBetweenFrames: real := 0.01

  /**
   * `maxSolvesPerSecond * maxSecondsBetweenFrames`, that is 2000 * 0.01; the
   * double nearest to that product is exactly 20.
   */
  const MaxSolves: nat := 20

  /** The injection kernel into the ink, bound to the injection's position and velocity. */
  function InjectCall(k: Kernels, inj: Injection): Call {
    Call(k.inject, [Binding("position", Vec(inj.position)), Binding("velocity", Vec(inj.velocity))], Ink)
  }

  /** The bindings shared by perturbation and advection: the time step, the velocity and the advected field. */
  function MotionArgs(dt: real, affected: FieldName): seq<Binding<Arg>> {
    [Binding("dt", Scalar(dt)), Binding("vectorField", Field(VectorField)), Binding("affectedField", Field(affected))]
  }

  function JacobiArgs(x: FieldName, b: FieldName, alpha: real, beta: real): seq<Binding<Arg>> {
    [Binding("x", Field(x)), Binding("b", Field(b)), Binding("alpha", Scalar(alpha)), Binding("beta", Scalar(beta))]
  }

  /** The first `n` relaxation calls of `solveLinearSystem(x, b, destination, alpha, beta)`. */
  function SolveCalls(k: Kernels, x: FieldName, b: FieldName, destination: FieldName, alpha: real, beta: real, n: nat): (cs: seq<Call>)
    ensures |cs| == n && forall i :: 0 <= i < n ==> cs[i] == Call(k.jacobi, JacobiArgs(x, b, alpha, beta), destination)
  {
    if n == 0 then [] else SolveCalls(k, x, b, destination, alpha, beta, n - 1) + [Call(k.jacobi, JacobiArgs(x, b, alpha, beta), destination)]
  }

  /** Perturbing the velocity, then advecting the ink and the velocity by it. */
  function MotionCalls(k: Kernels, dt: real): seq<Call> {
    [ Call(k.perturb, MotionArgs(dt, Ink), VectorField),
      Call(k.advect, MotionArgs(dt, Ink), Ink),
      Call(k.advect, MotionArgs(dt, VectorField), VectorField) ]
  }

  /** The divergence of the velocity, the pressure solve, and the subtraction of the pressure gradient. */
  function ProjectionCalls(k: Kernels): seq<Call> {
    [Call(k.divergence, [Binding("vectorField", Field(VectorField))], DivergenceField)]
    + SolveCalls(k, DivergenceField, Pressure, Pressure, 1.0, 4.0, Iterations)
    + [Call(k.subtract, [Binding("vectorField", Field(VectorField)), Binding("pressure", Field(Pressure))], VectorField)]
  }

  /** The sub-step after the optional injection. */
  function AdvanceCalls(k: Kernels, dt: real): seq<Call> {
    MotionCalls(k, dt) + ProjectionCalls(k)
  }

  /** One sub-step of the frame loop. */
  function SubStepCalls(k: Kernels, inj: Option<Injection>, dt: real): seq<Call> {
    (if inj.Some? then [InjectCall(k, inj.value)] else []) + AdvanceCalls(k, dt)
  }

  /** The destinations of the relaxation passes: the one destination, `n` times. */
  lemma {:induction false} SolveCallsDests(k: Kernels, x: FieldName, b: FieldName, destination: FieldName, alpha: real, beta: real, n: nat)
    ensures Dests(SolveCalls(k, x, b, destination, alpha, beta, n)) == Repeat(destination, n)
  {
    var ds := Dests(SolveCalls(k, x, b, destination, alpha, beta, n));
    assert forall i :: 0 <= i < n ==> ds[i] == destination;
  }

  lemma {:induction false} DestsAppend(xs: seq<Call>, ys: seq<Call>)
    ensures Dests(xs + ys) == Dests(xs) + Dests(ys)
  {
    assert forall i :: 0 <= i < |xs + ys| ==> Dests(xs + ys)[i] == (Dests(xs) + Dests(ys))[i];
  }

  /** The projection writes the divergence, the pressure twenty times, then the velocity. */
  lemma ProjectionWrites(k: Kernels)
    ensures Dests(ProjectionCalls(k)) == [DivergenceField] + Repeat(Pressure, Iterations) + [VectorField]
  {
    var first := [Call(k.divergence, [Binding("vectorField", Field(VectorField))], DivergenceField)];
    var solve := SolveCalls(k, DivergenceField, Pressure, Pressure, 1.0, 4.0, Iterations);
    var last := [Call(k.subtract, [Binding("vectorField", Field(VectorField)), Binding("pressure", Field(Pressure))], VectorField)];
    DestsAppend(first + solve, last);
    DestsAppend(first, solve);
    SolveCallsDests(k, DivergenceField, Pressure, Pressure, 1.0, 4.0, Iterations);
  }

  /**
   * A sub-step writes the ink (only when injecting), then the velocity, the
   * ink, the velocity, the divergence, the pressure twenty times and the
   * velocity: never the buffer by name.
   */
  lemma SubStepWrites(k: Kernels, inj: Option<Injection>, dt: real)
    ensures Dests(SubStepCalls(k, inj, dt))
      == (if inj.Some? then [Ink] else []) + [VectorField, Ink, VectorField]
         + ([DivergenceField] + Repeat(Pressure, Iterations) + [VectorField])
    ensures Buffer !in Dests(SubStepCalls(k, inj, dt))
  {
    var head: seq<Call> := if inj.Some? then [InjectCall(k, inj.value)] else [];
    var heads: seq<FieldName> := if inj.Some? then [Ink] else [];
    DestsAppend(head, AdvanceCalls(k, dt));
    DestsAppend(MotionCalls(k, dt), ProjectionCalls(k));
    ProjectionWrites(k);
    assert Dests(MotionCalls(k, dt)) == [VectorField, Ink, VectorField];
    assert Dests(head) == heads;
    var ds := Dests(SubStepCalls(k, inj, dt));
    forall i | 0 <= i < |ds| ensures ds[i] != Buffer {
      assert ds[i] == SubStepCalls(k, inj, dt)[i].dest;
    }
  }

  /** No call of `cs` is bound to the buffer's accessor. */
  predicate BindsNoBuffer(cs: seq<Call>) {
    forall i :: 0 <= i < |cs| ==> AvoidsBuffer(cs[i].args)
  }

  lemma BindsNoBufferAppend(xs: seq<Call>, ys: seq<Call>)
    requires BindsNoBuffer(xs) && BindsNoBuffer(ys)
    ensures BindsNoBuffer(xs + ys)
  {
    forall i | 0 <= i < |xs + ys| ensures AvoidsBuffer((xs + ys)[i].args) {
      if i >= |xs| {
        assert (xs + ys)[i] == ys[i - |xs|];
      }
    }
  }

  /** No kernel of a sub-step is bound to the buffer: no kernel binds the texture it renders into. */
  lemma SubStepAvoidsBuffer(k: Kernels, inj: Option<Injection>, dt: real)
    ensures BindsNoBuffer(SubStepCalls(k, inj, dt))
  {
    var head: seq<Call> := if inj.Some? then [InjectCall(k, inj.value)] else [];
    var first := [Call(k.divergence, [Binding("vectorField", Field(VectorField))], DivergenceField)];
    var solve := SolveCalls(k, DivergenceField, Pressure, Pressure, 1.0, 4.0, Iterations);
    var last := [Call(k.subtract, [Binding("vectorField", Field(VectorField)), Binding("pressure", Field(Pressure))], VectorField)];
    assert BindsNoBuffer(solve);
    BindsNoBufferAppend(first, solve);
    BindsNoBufferAppend(first + solve, last);
    assert BindsNoBuffer(MotionCalls(k, dt));
    BindsNoBufferAppend(MotionCalls(k, dt), ProjectionCalls(k));
    BindsNoBufferAppend(head, AdvanceCalls(k, dt));
  }

  // The bindings objects as the call sites build them, each field read through its accessor.

  lemma BindMotion(h: Handles, dt: real, affected: FieldName)
    ensures Bind(h, MotionArgs(dt, affected))
      == [Binding("dt", Number(dt)), Binding("vectorField", Texture(h.vectorField)), Binding("affectedField", Texture(h.Get(affected)))]
  {
  }

  lemma BindOne(h: Handles, key: string, f: FieldName)
    ensures Bind(h, [Binding(key, Field(f))]) == [Binding(key, Texture(h.Get(f)))]
  {
  }

  lemma BindSubtract(h: Handles)
    ensures Bind(h, [Binding("vectorField", Field(VectorField)), Binding("pressure", Field(Pressure))])
      == [Binding("vectorField", Texture(h.vectorField)), Binding("pressure", Texture(h.pressure))]
  {
  }

  lemma BindInject(h: Handles, inj: Injection)
    ensures Bind(h, [Binding("position", Vec(inj.position)), Binding("velocity", Vec(inj.velocity))])
      == [Binding("position", Vector(inj.position)), Binding("velocity", Vector(inj.velocity))]
  {
  }

  lemma BindJacobi(h: Handles, x: FieldName, b: FieldName, alpha: real, beta: real)
    ensures Bind(h, JacobiArgs(x, b, alpha, beta))
      == [Binding("x", Texture(h.Get(x))), Binding("b", Texture(h.Get(b))), Binding("alpha", Number(alpha)), Binding("beta", Number(beta))]
  {
  }

  /** One relaxation step of the pressure solve, in terms of the grids it reads. */
  function Jacobi(p: Program, x: Grid, b: Grid, alpha: real, beta: real): Grid {
    Rendered(p.source, Dispatch(p.params,
      [Binding("x", InTexture(x)), Binding("b", InTexture(b)), Binding("alpha", InNumber(alpha)), Binding("beta", InNumber(beta))]))
  }

  /** `n` relaxation steps, each reading the result of the one before. */
  function Relax(p: Program, x: Grid, b: Grid, alpha: real, beta: real, n: nat): Grid {
    if n == 0 then b else Jacobi(p, x, Relax(p, x, b, alpha, beta, n - 1), alpha, beta)
  }

  /**
   * One relaxation pass into `b`, reading `x` and `b`: `b` then holds the
   * Jacobi step of what `x` and `b` held, and `x` is unchanged.
   */
  lemma JacobiPass(sim: Sim, k: Kernels, x: FieldName, b: FieldName, alpha: real, beta: real)
    requires sim.handles.Distinct() && x != b && x != Buffer && b != Buffer
    ensures Perform(sim, Call(k.jacobi, JacobiArgs(x, b, alpha, beta), b)).handles.Distinct()
    ensures Contents(Perform(sim, Call(k.jacobi, JacobiArgs(x, b, alpha, beta), b)), b)
      == Jacobi(k.jacobi, Contents(sim, x), Contents(sim, b), alpha, beta)
    ensures Contents(Perform(sim, Call(k.jacobi, JacobiArgs(x, b, alpha, beta), b)), x) == Contents(sim, x)
  {
    var bs := Bind(sim.handles, JacobiArgs(x, b, alpha, beta));
    DrawnContents(sim, k.jacobi, bs, b);
    OutputSees(k.jacobi, sim.store, bs);
    assert ResolveBindings(sim.store, bs)
      == [Binding("x", InTexture(Contents(sim, x))), Binding("b", InTexture(Contents(sim, b))),
          Binding("alpha", InNumber(alpha)), Binding("beta", InNumber(beta))];
  }

  /** One more pass of the solve is one more Jacobi call on the state the earlier passes left. */
  lemma SolveNext(sim: Sim, k: Kernels, x: FieldName, b: FieldName, destination: FieldName, alpha: real, beta: real, n: nat)
    ensures Run(sim, SolveCalls(k, x, b, destination, alpha, beta, n + 1))
      == Perform(Run(sim, SolveCalls(k, x, b, destination, alpha, beta, n)), Call(k.jacobi, JacobiArgs(x, b, alpha, beta), destination))
  {
    var c := Call(k.jacobi, JacobiArgs(x, b, alpha, beta), destination);
    RunSnoc(sim, SolveCalls(k, x, b, destination, alpha, beta, n), c);
  }

  /**
   * With the right-hand side also the destination (`b == destination`), each
   * pass reads the grid the previous pass wrote: the destination ends up
   * relaxed `n` times and `x` is never written.
   */
  lemma {:induction false} SolveRelaxes(sim: Sim, k: Kernels, x: FieldName, b: FieldName, alpha: real, beta: real, n: nat)
    requires sim.handles.Distinct() && x != b && x != Buffer && b != Buffer
    ensures Run(sim, SolveCalls(k, x, b, b, alpha, beta, n)).handles.Distinct()
    ensures Contents(Run(sim, SolveCalls(k, x, b, b, alpha, beta, n)), b) == Relax(k.jacobi, Contents(sim, x), Contents(sim, b), alpha, beta, n)
    ensures Contents(Run(sim, SolveCalls(k, x, b, b, alpha, beta, n)), x) == Contents(sim, x)
    decreases n
  {
    if n > 0 {
      var c := Call(k.jacobi, JacobiArgs(x, b, alpha, beta), b);
      var before := Run(sim, SolveCalls(k, x, b, b, alpha, beta, n - 1));
      SolveRelaxes(sim, k, x, b, alpha, beta, n - 1);
      SolveNext(sim, k, x, b, b, alpha, beta, n - 1);
      JacobiPass(before, k, x, b, alpha, beta);
    }
  }

  /** After the twenty passes of the pressure solve every name is back on the texture it started on. */
  lemma SolveRestoresHandles(sim: Sim, k: Kernels, x: FieldName, b: FieldName, destination: FieldName, alpha: real, beta: real)
    requires sim.handles.Distinct()
    ensures Run(sim, SolveCalls(k, x, b, destination, alpha, beta, Iterations)).handles == sim.handles
  {
    var cs := SolveCalls(k, x, b, destination, alpha, beta, Iterations);
    RunEffects(sim, cs);
    SolveCallsDests(k, x, b, destination, alpha, beta, Iterations);
    SwapEvenTimesRestores(sim.handles, destination, Iterations / 2);
  }

  /**
   * The reading of the clock before the `k`-th sub-step: `start`, the last
   * reading before the tick (kept from the previous tick), then the earlier readings.
   */
  function Previous(start: int, clock: seq<int>, k: nat): int
    requires k <= |clock|
  {
    if k == 0 then start else clock[k - 1]
  }

  /** The measured time step of the `k`-th sub-step, in seconds. */
  function Dt(start: int, clock: seq<int>, k: nat): real
    requires k < |clock|
  {
    (clock[k] - Previous(start, clock, k)) as real / 1000.0
  }

  /** `timeThisFrame` after `n` sub-steps: the sum of their time steps. */
  function FrameTime(start: int, clock: seq<int>, n: nat): real
    requires n <= |clock|
  {
    if n == 0 then 0.0 else FrameTime(start, clock, n - 1) + Dt(start, clock, n - 1)
  }

  /** The time steps add up to the time from the last reading before the tick to the last reading. */
  lemma {:induction false} FrameTimeTelescopes(start: int, clock: seq<int>, n: nat)
    requires n <= |clock|
    ensures FrameTime(start, clock, n) == (Previous(start, clock, n) - start) as real / 1000.0
  {
    if n > 0 {
      FrameTimeTelescopes(start, clock, n - 1);
    }
  }

  /** The condition of the frame loop after `n` sub-steps. */
  predicate Continues(start: int, clock: seq<int>, singleStep: bool, n: nat)
    requires n <= |clock|
  {
    FrameTime(start, clock, n) < MaxSecondsBetweenFrames && n < MaxSolves && (!singleStep || n == 0)
  }

  /** The number of sub-steps a tick runs, counting from `n` done. */
  function StepCount(start: int, clock: seq<int>, singleStep: bool, n: nat): (r: nat)
    requires MaxSolves <= |clock| && n <= MaxSolves
    ensures n <= r <= MaxSolves && 1 <= r
    decreases MaxSolves - n
  {
    if Continues(start, clock, singleStep, n) then StepCount(start, clock, singleStep, n + 1) else n
  }

  lemma {:induction false} StepCountFrom(start: int, clock: seq<int>, singleStep: bool, n: nat)
    requires MaxSolves <= |clock| && n <= MaxSolves
    ensures !Continues(start, clock, singleStep, StepCount(start, clock, singleStep, n))
    ensures forall j :: n <= j < StepCount(start, clock, singleStep, n) ==> Continues(start, clock, singleStep, j)
    decreases MaxSolves - n
  {
    if Continues(start, clock, singleStep, n) {
      StepCountFrom(start, clock, singleStep, n + 1);
    }
  }

  /**
   * A tick runs at least one and at most twenty sub-steps, exactly one when
   * single-stepping; it goes on while less than 10 ms have passed since the
   * last clock reading before the tick, and stops at the first sub-step after which 10 ms have passed,
   * unless the cap of twenty or single-stepping stops it first.
   */
  lemma StepCountBounds(start: int, clock: seq<int>, singleStep: bool)
    requires MaxSolves <= |clock|
    ensures 1 <= StepCount(start, clock, singleStep, 0) <= MaxSolves
    ensures singleStep ==> StepCount(start, clock, singleStep, 0) == 1
    ensures forall j :: 0 <= j < StepCount(start, clock, singleStep, 0) - 1 ==> clock[j] - start < 10
    ensures var n := StepCount(start, clock, singleStep, 0);
      n == MaxSolves || singleStep || clock[n - 1] - start >= 10
  {
    var n := StepCount(start, clock, singleStep, 0);
    StepCountFrom(start, clock, singleStep, 0);
    assert Continues(start, clock, singleStep, 0);
    forall j | 0 <= j < n - 1 ensures clock[j] - start < 10 {
      assert Continues(start, clock, singleStep, j + 1);
      FrameTimeTelescopes(start, clock, j + 1);
    }
    FrameTimeTelescopes(start, clock, n);
  }

  /**
   * The frame loop's counters after `n` passes: at most `MaxSolves` passes,
   * `elapsed` the sum of their measured steps, and the loop still bound to
   * run `StepCount` passes in all.
   */
  predicate InFrame(start: int, clock: seq<int>, singleStep: bool, n: nat, elapsed: real)
    requires MaxSolves <= |clock|
  {
    n <= MaxSolves && elapsed == FrameTime(start, clock, n)
    && StepCount(start, clock, singleStep, n) == StepCount(start, clock, singleStep, 0)
  }

  /** One more pass of the frame loop, while its condition holds. */
  lemma LoopStep(start: int, clock: seq<int>, singleStep: bool, n: nat, elapsed: real)
    requires MaxSolves <= |clock| && InFrame(start, clock, singleStep, n, elapsed)
    requires elapsed < MaxSecondsBetweenFrames && n < MaxSolves && (!singleStep || n == 0)
    ensures InFrame(start, clock, singleStep, n + 1, elapsed + Dt(start, clock, n))
  {
    assert Continues(start, clock, singleStep, n);
  }

  /** The frame loop ends after exactly `StepCount` passes. */
  lemma LoopExit(start: int, clock: seq<int>, singleStep: bool, n: nat, elapsed: real)
    requires MaxSolves <= |clock| && InFrame(start, clock, singleStep, n, elapsed)
    requires !(elapsed < MaxSecondsBetweenFrames && n < MaxSolves && (!singleStep || n == 0))
    ensures StepCount(start, clock, singleStep, 0) == n
  {
    assert !Continues(start, clock, singleStep, n);
  }

  /** The step the kernels see: the measured step times the speed-up factor. */
  function Scaled(dt: real, speedup: real): real {
    dt * speedup
  }

  /** The state after the first `n` sub-steps of a tick, the `k`-th scaled by `speedup`. */
  function SubSteps(sim: Sim, k: Kernels, inj: Option<Injection>, start: int, clock: seq<int>, speedup: real, n: nat): Sim
    requires n <= |clock|
  {
    if n == 0 then sim
    else Run(SubSteps(sim, k, inj, start, clock, speedup, n - 1), SubStepCalls(k, inj, Scaled(Dt(start, clock, n - 1), speedup)))
  }

  /** Sub-step `n + 1`: the injection if one is asked for, then the advance with the `n`-th measured step. */
  lemma SubStepsNext(sim: Sim, k: Kernels, inj: Option<Injection>, start: int, clock: seq<int>, speedup: real, n: nat)
    requires n < |clock|
    ensures SubSteps(sim, k, inj, start, clock, speedup, n + 1)
      == Run(Run(SubSteps(sim, k, inj, start, clock, speedup, n), if inj.Some? then [InjectCall(k, inj.value)] else []),
             AdvanceCalls(k, Scaled(Dt(start, clock, n), speedup)))
  {
    var head: seq<Call> := if inj.Some? then [InjectCall(k, inj.value)] else [];
    RunAppend(SubSteps(sim, k, inj, start, clock, speedup, n), head, AdvanceCalls(k, Scaled(Dt(start, clock, n), speedup)));
  }

  /** The ink drawn onto the canvas at the end of a tick. */
  function Shown(k: Kernels, sim: Sim): Grid {
    Output(k.draw, sim.store, [Binding("vectorField", Texture(sim.handles.ink))])
  }

  /** A tick that runs: its sub-steps, then the ink drawn onto the canvas. */
  function Ticked(sim: Sim, k: Kernels, inj: Option<Injection>, start: int, clock: seq<int>, singleStep: bool, speedup: real): Sim
    requires MaxSolves <= |clock|
  {
    var after := SubSteps(sim, k, inj, start, clock, speedup, StepCount(start, clock, singleStep, 0));
    after.(screen := Some(Shown(k, after)))
  }

  /**
   * Through any number of sub-steps the five names stay on five distinct
   * textures, and the buffer is never written by name: only the velocity,
   * ink, divergence and pressure fields are destinations.
   */
  lemma {:induction false} SubStepsKeepDistinct(sim: Sim, k: Kernels, inj: Option<Injection>, start: int, clock: seq<int>, speedup: real, n: nat)
    requires n <= |clock| && sim.handles.Distinct()
    ensures SubSteps(sim, k, inj, start, clock, speedup, n).handles.Distinct()
    ensures SubSteps(sim, k, inj, start, clock, speedup, n).screen == sim.screen
    ensures SubSteps(sim, k, inj, start, clock, speedup, n).handles.Allocations() == sim.handles.Allocations()
  {
    if n > 0 {
      var before := SubSteps(sim, k, inj, start, clock, speedup, n - 1);
      var cs := SubStepCalls(k, inj, Scaled(Dt(start, clock, n - 1), speedup));
      SubStepsKeepDistinct(sim, k, inj, start, clock, speedup, n - 1);
      RunEffects(before, cs);
      SwapAllPermutes(before.handles, Dests(cs));
    }
  }

  /** `jFluidic.Fluid`: the texture manager, the GPU, the solver, the kernels, the injection and the clock. */
  class Fluid {
    const textures: TextureManager
    const gpu: Gpu
    const renderer: Renderer
    const solver: Solver
    const kernels: Kernels
    var injectParams: Option<Injection>
    /** The last clock reading of the frame loop (`time`). */
    var time: int

    /** The objects are wired as the constructor wires them; the names are on distinct textures; the canvas is the target. */
    predicate Valid()
      reads gpu, textures
    {
      && renderer.gpu == gpu && renderer.textures == textures && solver.renderer == renderer
      && textures.State().Distinct() && gpu.target == None
    }

    /**
     * The constructor, from the five freshly created textures (distinct), the
     * loaded kernels, and the clock reading taken when the frame loop starts.
     */
    constructor (handles: Handles, kernels: Kernels, now: int)
      requires handles.Distinct()
      ensures Valid() && fresh(textures) && fresh(gpu)
      ensures Snapshot(gpu, textures) == Sim(handles, map[], None)
      ensures textures.swaps == []
      ensures this.kernels == kernels && injectParams == None && time == now
    {
      var tm := new TextureManager(handles.vectorField, handles.buffer, handles.divergenceField, handles.pressure, handles.ink);
      var g := new Gpu();
      var r := new Renderer(g, tm);
      textures := tm;
      gpu := g;
      renderer := r;
      solver := new Solver(r);
      this.kernels := kernels;
      injectParams := None;
      time := now;
    }

    /** `inject(position, velocity)`. */
    method Inject(position: seq<real>, velocity: seq<real>)
      modifies this`injectParams
      ensures injectParams == Some(Injection(position, velocity))
    {
      injectParams := Some(Injection(position, velocity));
    }

    /** `stopInject()`. */
    method StopInject()
      modifies this`injectParams
      ensures injectParams == None
    {
      injectParams := None;
    }

    /** `solver.go(program, bindings, destination)`, keeping the objects valid. */
    method Go(program: Program, bindings: seq<Binding<Value>>, destination: FieldName)
      requires Valid()
      modifies gpu, textures
      ensures Valid()
      ensures Snapshot(gpu, textures) == Drawn(old(Snapshot(gpu, textures)), program, bindings, destination)
      ensures textures.swaps == old(textures.swaps) + [destination]
    {
      SwapKeepsDistinct(textures.State(), destination);
      solver.Go(program, bindings, destination);
    }

    /** One pass of the pressure solve: the Jacobi kernel on `x` and `b`, read afresh, drawn into `destination`. */
    method Relaxation(x: FieldName, b: FieldName, destination: FieldName, alpha: real, beta: real)
      requires Valid()
      modifies gpu, textures
      ensures Valid()
      ensures Snapshot(gpu, textures)
        == Perform(old(Snapshot(gpu, textures)), Call(kernels.jacobi, JacobiArgs(x, b, alpha, beta), destination))
    {
      var h := textures.State();
      var bindings := [Binding("x", Texture(h.Get(x))), Binding("b", Texture(h.Get(b))), Binding("alpha", Number(alpha)), Binding("beta", Number(beta))];
      BindJacobi(h, x, b, alpha, beta);
      Go(kernels.jacobi, bindings, destination);
    }

    /**
     * `solveLinearSystem(x, b, destination, alpha, beta)`: twenty relaxation
     * passes, each reading `x` and `b` afresh through the texture manager.
     */
    method SolveLinearSystem(x: FieldName, b: FieldName, destination: FieldName, alpha: real, beta: real)
      requires Valid()
      modifies gpu, textures
      ensures Valid()
      ensures Snapshot(gpu, textures)
        == Run(old(Snapshot(gpu, textures)), SolveCalls(kernels, x, b, destination, alpha, beta, Iterations))
    {
      ghost var start := Snapshot(gpu, textures);
      for i := 0 to Iterations
        invariant Valid()
        invariant Snapshot(gpu, textures) == Run(start, SolveCalls(kernels, x, b, destination, alpha, beta, i))
      {
        SolveNext(start, kernels, x, b, destination, alpha, beta, i);
        Relaxation(x, b, destination, alpha, beta);
      }
    }

    /** Perturbation and advection, reading the fields afresh for each kernel. */
    method Move(dt: real)
      requires Valid()
      modifies gpu, textures
      ensures Valid()
      ensures Snapshot(gpu, textures) == Run(old(Snapshot(gpu, textures)), MotionCalls(kernels, dt))
    {
      ghost var start := Snapshot(gpu, textures);
      ghost var c := Call(kernels.perturb, MotionArgs(dt, Ink), VectorField);
      var h := textures.State();
      BindMotion(h, dt, Ink);
      Go(kernels.perturb, [Binding("dt", Number(dt)), Binding("vectorField", Texture(h.vectorField)), Binding("affectedField", Texture(h.ink))], VectorField);
      assert Snapshot(gpu, textures) == Run(start, [c]);
      ghost var done := [c];

      ghost var before := Snapshot(gpu, textures);
      c := Call(kernels.advect, MotionArgs(dt, Ink), Ink);
      h := textures.State();
      BindMotion(h, dt, Ink);
      Go(kernels.advect, [Binding("dt", Number(dt)), Binding("vectorField", Texture(h.vectorField)), Binding("affectedField", Texture(h.ink))], Ink);
      assert Snapshot(gpu, textures) == Perform(before, c);
      RunSnoc(start, done, c);
      done := done + [c];

      before := Snapshot(gpu, textures);
      c := Call(kernels.advect, MotionArgs(dt, VectorField), VectorField);
      h := textures.State();
      BindMotion(h, dt, VectorField);
      Go(kernels.advect, [Binding("dt", Number(dt)), Binding("vectorField", Texture(h.vectorField)), Binding("affectedField", Texture(h.vectorField))], VectorField);
      assert Snapshot(gpu, textures) == Perform(before, c);
      RunSnoc(start, done, c);
      done := done + [c];
      assert done == MotionCalls(kernels, dt);
    }

    /** Divergence, the pressure solve, and the subtraction of the pressure gradient. */
    method Project()
      requires Valid()
      modifies gpu, textures
      ensures Valid()
      ensures Snapshot(gpu, textures) == Run(old(Snapshot(gpu, textures)), ProjectionCalls(kernels))
    {
      ghost var start := Snapshot(gpu, textures);
      ghost var c := Call(kernels.divergence, [Binding("vectorField", Field(VectorField))], DivergenceField);
      var h := textures.State();
      BindOne(h, "vectorField", VectorField);
      Go(kernels.divergence, [Binding("vectorField", Texture(h.vectorField))], DivergenceField);
      assert Snapshot(gpu, textures) == Run(start, [c]);
      ghost var done := [c];

      ghost var solve := SolveCalls(kernels, DivergenceField, Pressure, Pressure, 1.0, 4.0, Iterations);
      SolveLinearSystem(DivergenceField, Pressure, Pressure, 1.0, 4.0);
      RunAppend(start, done, solve);
      done := done + solve;

      ghost var before := Snapshot(gpu, textures);
      c := Call(kernels.subtract, [Binding("vectorField", Field(VectorField)), Binding("pressure", Field(Pressure))], VectorField);
      h := textures.State();
      BindSubtract(h);
      Go(kernels.subtract, [Binding("vectorField", Texture(h.vectorField)), Binding("pressure", Texture(h.pressure))], VectorField);
      assert Snapshot(gpu, textures) == Perform(before, c);
      RunSnoc(start, done, c);
      done := done + [c];
    }

    /** One sub-step after the injection: the motion kernels, then the projection. */
    method Advance(dt: real)
      requires Valid()
      modifies gpu, textures
      ensures Valid()
      ensures Snapshot(gpu, textures) == Run(old(Snapshot(gpu, textures)), AdvanceCalls(kernels, dt))
    {
      ghost var start := Snapshot(gpu, textures);
      Move(dt);
      Project();
      RunAppend(start, MotionCalls(kernels, dt), ProjectionCalls(kernels));
    }

    /** The injection at the head of a sub-step, made only while the mouse asks for one. */
    method InjectIfAsked()
      requires Valid()
      modifies gpu, textures
      ensures Valid()
      ensures Snapshot(gpu, textures)
        == Run(old(Snapshot(gpu, textures)), if injectParams.Some? then [InjectCall(kernels, injectParams.value)] else [])
    {
      if injectParams.Some? {
        var inj := injectParams.value;
        ghost var before := Snapshot(gpu, textures);
        BindInject(before.handles, inj);
        Go(kernels.inject, [Binding("position", Vector(inj.position)), Binding("velocity", Vector(inj.velocity))], Ink);
        assert Snapshot(gpu, textures) == Run(before, [InjectCall(kernels, inj)]);
      }
    }

    /**
     * Pass `n` of the frame loop: the injection if one is asked for, the
     * clock reading `clock[n]` and the measured step since the previous
     * reading (returned, in seconds, before the speed-up), then the advance
     * with the step scaled by `speedup`. `sim` and `start` are the state and
     * the clock reading at the start of the frame.
     */
    method SubStep(ghost sim: Sim, ghost start: int, clock: seq<int>, n: nat, speedup: real) returns (dt: real)
      requires Valid() && n < |clock| && time == Previous(start, clock, n)
      requires Snapshot(gpu, textures) == SubSteps(sim, kernels, injectParams, start, clock, speedup, n)
      modifies this`time, gpu, textures
      ensures Valid()
      ensures dt == Dt(start, clock, n) && time == Previous(start, clock, n + 1)
      ensures Snapshot(gpu, textures) == SubSteps(sim, kernels, injectParams, start, clock, speedup, n + 1)
    {
      SubStepsNext(sim, kernels, injectParams, start, clock, speedup, n);
      InjectIfAsked();
      var newTime := clock[n];
      dt := (newTime - time) as real / 1000.0;
      time := newTime;
      var scaled := Scaled(dt, speedup);
      Advance(scaled);
    }

    /**
     * The frame loop of one run of the frame timer: sub-steps while the frame
     * has used less than `MaxSecondsBetweenFrames` of measured time, fewer
     * than `MaxSolves` sub-steps, and (in single-step mode) none yet. `clock`
     * holds the successive readings of the clock, one per sub-step.
     */
    method Frame(singleStep: bool, speedup: real, clock: seq<int>)
      requires Valid() && MaxSolves <= |clock|
      modifies this`time, gpu, textures
      ensures Valid()
      ensures Snapshot(gpu, textures) == SubSteps(old(Snapshot(gpu, textures)), kernels, injectParams, old(time), clock, speedup,
        StepCount(old(time), clock, singleStep, 0))
      ensures time == clock[StepCount(old(time), clock, singleStep, 0) - 1]
    {
      ghost var sim := Snapshot(gpu, textures);
      ghost var start := time;
      var timeThisFrame: real := 0.0;
      var solvesThisFrame: nat := 0;
      while timeThisFrame < MaxSecondsBetweenFrames && solvesThisFrame < MaxSolves && (!singleStep || solvesThisFrame == 0)
        invariant Valid() && InFrame(start, clock, singleStep, solvesThisFrame, timeThisFrame)
        invariant time == Previous(start, clock, solvesThisFrame)
        invariant Snapshot(gpu, textures) == SubSteps(sim, kernels, injectParams, start, clock, speedup, solvesThisFrame)
        decreases MaxSolves - solvesThisFrame
      {
        solvesThisFrame, timeThisFrame := FramePass(sim, start, clock, singleStep, speedup, solvesThisFrame, timeThisFrame);
      }
      LoopExit(start, clock, singleStep, solvesThisFrame, timeThisFrame);
    }

    /**
     * One pass of the frame loop, taken while its condition holds: the
     * sub-step, then `timeThisFrame` grown by the measured step and
     * `solvesThisFrame` by one.
     */
    method FramePass(ghost sim: Sim, ghost start: int, clock: seq<int>, singleStep: bool, speedup: real, n: nat, elapsed: real)
      returns (n': nat, elapsed': real)
      requires Valid() && MaxSolves <= |clock| && InFrame(start, clock, singleStep, n, elapsed)
      requires elapsed < MaxSecondsBetweenFrames && n < MaxSolves && (!singleStep || n == 0)
      requires time == Previous(start, clock, n)
      requires Snapshot(gpu, textures) == SubSteps(sim, kernels, injectParams, start, clock, speedup, n)
      modifies this`time, gpu, textures
      ensures Valid() && n' == n + 1 && InFrame(start, clock, singleStep, n', elapsed')
      ensures time == Previous(start, clock, n')
      ensures Snapshot(gpu, textures) == SubSteps(sim, kernels, injectParams, start, clock, speedup, n')
    {
      LoopStep(start, clock, singleStep, n, elapsed);
      var dt := SubStep(sim, start, clock, n, speedup);
      elapsed' := elapsed + dt;
      n' := n + 1;
    }

    /**
     * One run of the frame timer. `go` and `singleStep` are the two check
     * boxes, `speedup` the speed-up input: when `go` is off nothing happens;
     * otherwise the frame loop runs and the ink is drawn onto the canvas.
     */
    method Tick(go: bool, singleStep: bool, speedup: real, clock: seq<int>)
      requires Valid() && MaxSolves <= |clock|
      modifies this`time, gpu, textures
      ensures Valid()
      ensures !go ==> Snapshot(gpu, textures) == old(Snapshot(gpu, textures)) && time == old(time)
      ensures go ==> (Snapshot(gpu, textures)
        == Ticked(old(Snapshot(gpu, textures)), kernels, injectParams, old(time), clock, singleStep, speedup))
      ensures go ==> time == clock[StepCount(old(time), clock, singleStep, 0) - 1]
    {
      if !go {
        return;
      }
      Frame(singleStep, speedup, clock);
      var ink := textures.State().ink;
      gpu.Draw(kernels.draw, [Binding("vectorField", Texture(ink))]);
    }

    /**
     * The callback of `loadImageAsInk`, once the image is in the texture
     * `image`: the draw program copies it into the ink through the solver.
     */
    method LoadImageAsInk(image: Handle)
      requires Valid()
      modifies gpu, textures
      ensures Valid()
      ensures Snapshot(gpu, textures)
        == Drawn(old(Snapshot(gpu, textures)), kernels.draw, [Binding("vectorField", Texture(image))], Ink)
    {
      Go(kernels.draw, [Binding("vectorField", Texture(image))], Ink);
    }
  }

  /** The `i`-th program the constructor loads, in its order: the fragment shader's name and its utility scripts. */
  function Script(i: nat): (string, Option<seq<string>>)
    requires i < 8
  {
    if i == 0 then ("perturb", Some([]))
    else if i == 1 then ("advect", Some(["bilerp"]))
    else if i == 2 then ("inject", None)
    else if i == 3 then ("jacobi", Some(["neighbours"]))
    else if i == 4 then ("divergence", Some(["neighbours"]))
    else if i == 5 then ("subtract-pressure-gradient", Some(["neighbours"]))
    else if i == 6 then ("draw", None)
    else ("debug-draw", None)
  }

  /** The result of the constructor's `i`-th load. */
  function Loaded(page: Page, i: nat): Result<Program, LoadError>
    requires i < 8
  {
    LoadResult(page, Script(i).0, Script(i).1)
  }

  /** The results of the eight loads, in the constructor's order. */
  function Loads(page: Page): (loads: seq<Result<Program, LoadError>>)
  {
    seq(8, i requires 0 <= i < 8 => Loaded(page, i))
  }

  /**
   * The constructor's loads, given their results in its order: the first
   * that fails ends them (it throws); when none fails, the eight programs
   * are the kernels.
   */
  function Assembled(loads: seq<Result<Program, LoadError>>): Result<Kernels, LoadError>
    requires |loads| == 8
  {
    if loads[0].Err? then Err(loads[0].error)
    else if loads[1].Err? then Err(loads[1].error)
    else if loads[2].Err? then Err(loads[2].error)
    else if loads[3].Err? then Err(loads[3].error)
    else if loads[4].Err? then Err(loads[4].error)
    else if loads[5].Err? then Err(loads[5].error)
    else if loads[6].Err? then Err(loads[6].error)
    else if loads[7].Err? then Err(loads[7].error)
    else Ok(Kernels(loads[0].value, loads[1].value, loads[2].value, loads[3].value,
      loads[4].value, loads[5].value, loads[6].value, loads[7].value))
  }

  /** The `j`-th kernel, in load order. */
  function KernelAt(k: Kernels, j: nat): Program
    requires j < 8
  {
    if j == 0 then k.perturb
    else if j == 1 then k.advect
    else if j == 2 then k.inject
    else if j == 3 then k.jacobi
    else if j == 4 then k.divergence
    else if j == 5 then k.subtract
    else if j == 6 then k.draw
    else k.debugDraw
  }

  /** The kernels are assembled exactly when every load succeeds. */
  lemma AssembledFound(loads: seq<Result<Program, LoadError>>)
    requires |loads| == 8
    ensures Assembled(loads).Ok? <==> forall j :: 0 <= j < 8 ==> loads[j].Ok?
  {
    if Assembled(loads).Err? {
      var j := FirstFailing(loads);
    }
  }

  /** Each assembled kernel is the program of its load. */
  lemma AssembledPrograms(loads: seq<Result<Program, LoadError>>, j: nat)
    requires |loads| == 8 && Assembled(loads).Ok? && j < 8
    ensures loads[j].Ok? && KernelAt(Assembled(loads).value, j) == loads[j].value
  {
  }

  /** When the loads fail, the error is that of the first load that fails. */
  lemma AssembledFails(loads: seq<Result<Program, LoadError>>)
    requires |loads| == 8 && Assembled(loads).Err?
    ensures exists j :: (0 <= j < 8 && loads[j].Err? && Assembled(loads).error == loads[j].error
      && forall l :: 0 <= l < j ==> loads[l].Ok?)
  {
    var j := FirstFailing(loads);
    assert forall l :: 0 <= l < j ==> loads[l].Ok?;
  }

  /** The position of the first load that fails. */
  function FirstFailing(loads: seq<Result<Program, LoadError>>): (j: nat)
    requires |loads| == 8 && Assembled(loads).Err?
    ensures j < 8 && loads[j].Err? && Assembled(loads).error == loads[j].error
  {
    if loads[0].Err? then 0 else if loads[1].Err? then 1 else if loads[2].Err? then 2
    else if loads[3].Err? then 3 else if loads[4].Err? then 4 else if loads[5].Err? then 5
    else if loads[6].Err? then 6 else 7
  }

  /** The constructor's eight loads, in its order; the first that fails ends them. */
  method LoadKernels(page: Page) returns (r: Result<Kernels, LoadError>)
    ensures r == Assembled(Loads(page))
  {
    var perturb := Load(page, Script(0).0, Script(0).1);
    if perturb.Err? { return Err(perturb.error); }
    var advect := Load(page, Script(1).0, Script(1).1);
    if advect.Err? { return Err(advect.error); }
    var inject := Load(page, Script(2).0, Script(2).1);
    if inject.Err? { return Err(inject.error); }
    var jacobi := Load(page, Script(3).0, Script(3).1);
    if jacobi.Err? { return Err(jacobi.error); }
    var divergence := Load(page, Script(4).0, Script(4).1);
    if divergence.Err? { return Err(divergence.error); }
    var subtract := Load(page, Script(5).0, Script(5).1);
    if subtract.Err? { return Err(subtract.error); }
    var draw := Load(page, Script(6).0, Script(6).1);
    if draw.Err? { return Err(draw.error); }
    var debugDraw := Load(page, Script(7).0, Script(7).1);
    if debugDraw.Err? { return Err(debugDraw.error); }
    r := Ok(Kernels(perturb.value, advect.value, inject.value, jacobi.value, divergence.value, subtract.value, draw.value, debugDraw.value));
  }
}
