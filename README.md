# jFluidic simulation core, modelled in Dafny

jFluidic is a WebGL fluid simulator. Its state is five textures: the velocity
field, a scratch `buffer`, the divergence, the pressure and the ink. Every
simulation kernel runs through the solver. The solver attaches the current
`buffer` as the render target, draws the kernel over the whole grid and then
swaps the buffer with the kernel's destination field. The destination then
names the fresh output, and the old destination texture becomes the next
buffer. The final draw of the ink onto the canvas, and the debug draw of a
chosen field, call the program directly, with no render target and no swap.

A timer ticks the frame loop. On each pass the loop injects ink where the
mouse asks for it, reads the clock, and perturbs the velocity by the ink. It
then advects the ink and the velocity, computes the divergence, runs twenty
Jacobi relaxations of the pressure and subtracts the pressure gradient. The
loop runs while less than 10 ms have passed since the last clock reading
before the tick, at most 20 passes, and only one pass when single-stepping.
The ink is then drawn onto the canvas.

The model keeps the source's objects:

- `TextureManager`, `Renderer`, `Solver`, `SolveProgram`, `Fluid` and
  `Interactor` are Dafny classes whose methods update their fields.
- The GPU is a class `Gpu`. It holds the contents of every texture drawn
  into, the render target and the last picture on the canvas.
- Kernels are uninterpreted. A draw's output is the term
  `Rendered(source, inputs)`: the program's text applied to the commands
  the corrected `_setupParameters` issues (skipping undeclared keys), with every bound texture replaced by its
  contents at the time of the draw.
- Shader parameter discovery is pure. The loader's scan for
  `uniform <type> <name>` declarations is a function over the program text.

Each state-changing method is proved against a function of the old state:

- `Perform` and `Run` give the effect of a sequence of `solver.go` calls.
- `SubStepCalls` is the kernel sequence of one pass of the frame loop.
- `SubSteps` is the state after `n` passes.
- `StepCount` is the number of passes a tick runs.

Lemmas then state what the source relies on:

- the five names stay on five distinct textures;
- no kernel binds the texture it renders into;
- the pressure solve relaxes the pressure twenty times;
- after the solve every name is back on its texture;
- a tick runs between one and twenty passes, chosen by the measured clock;
- the scan finds exactly the declarations, leftmost first, and the last
  declaration of a name wins.

## Model

| member | source | states |
|---|---|---|
| Textures.Swapped | jfluidic.js:232-236 | swapping field `f` puts `f`'s texture in the buffer and the buffer's in `f`; swapping the buffer with itself changes nothing; the other fields keep their textures |
| Textures.SwapPermutes | jfluidic.js:232-236 | a swap only exchanges stored textures: the multiset of the five handles is unchanged |
| Textures.SwapKeepsDistinct | jfluidic.js:232-236 | a swap keeps the five names on five distinct textures |
| Textures.SwapTwiceRestores | jfluidic.js:232-236 | swapping the same field twice restores every handle |
| Textures.SwapAllPermutes | jfluidic.js:232-236 | any sequence of swaps keeps the multiset of handles |
| Textures.SwapAllKeepsDistinct | jfluidic.js:232-236 | any sequence of swaps keeps the five textures distinct |
| Textures.Repeat | jfluidic.js:410 | `n` copies of one field name, each equal to it |
| Textures.SwapEvenTimesRestores | jfluidic.js:410-417 | an even number of swaps of one field, such as the solve's twenty, leaves every handle where it was |
| Textures.SwapAllAppend | jfluidic.js:232-236 | swapping along `fs + gs` is swapping along `fs` and then along `gs` |
| Textures.TextureManager.constructor | jfluidic.js:203-210 | the five names hold the five textures given, in order, and no swap has been made |
| Textures.TextureManager.Access | jfluidic.js:212-230 | called without a value, an accessor returns its field and changes nothing; called with one, it stores it in that field only and returns it |
| Textures.TextureManager.Swap | jfluidic.js:232-236 | the new handles are the old ones swapped at `f`, and `f` is recorded as one more swap |
| Uniforms.SpacesEnd | jfluidic.js:245 | the greedy ` +` run starting at `i` ends within the text, at or after `i` |
| Uniforms.AlnumEnd | jfluidic.js:245 | the greedy `[a-zA-Z0-9]+` run starting at `i` ends within the text, at or after `i` |
| Uniforms.SpacesEndRun | jfluidic.js:245 | the run of spaces found is all spaces and stops at the end or at a non-space |
| Uniforms.AlnumEndRun | jfluidic.js:245 | the run found is all letters and digits and stops at the end or at another character |
| Uniforms.SpacesEndIs | jfluidic.js:245 | any maximal run of spaces from `i` is the one found |
| Uniforms.AlnumEndIs | jfluidic.js:245 | any maximal run of letters and digits from `i` is the one found |
| Uniforms.MatchAt | jfluidic.js:245 | a match found at `i` starts at `i`, is not empty and lies inside the text with its groups in order |
| Uniforms.MatchAtDeclares | jfluidic.js:245 | whatever the pattern matches at a position is a declaration: `uniform` in any letter case, spaces, a type, spaces, a name, each run maximal |
| Uniforms.DeclarationMatches | jfluidic.js:245 | every such declaration is what the pattern matches where it starts |
| Uniforms.MatchAtIsDeclaration | jfluidic.js:245 | the pattern matches `m` at its start if and only if `m` is a declaration |
| Uniforms.TableOf | jfluidic.js:245 | one entry per position of the text, each match starting at its own position and lying inside the text |
| Uniforms.Matches | jfluidic.js:254-257 | every match the loop visits lies inside the text |
| Uniforms.ScanFound | jfluidic.js:255 | after a match, the global `exec` resumes at the match's end |
| Uniforms.ScanSkipped | jfluidic.js:255 | with no match at a position, the search moves on to the next character |
| Uniforms.ScanOrdered | jfluidic.js:254-257 | the matches visited are matches of the text, in increasing order, and do not overlap |
| Uniforms.ScanSpans | jfluidic.js:254-257 | every match visited lies inside the text |
| Uniforms.ScanLeftmost | jfluidic.js:254-257 | no match is missed: every position where the pattern matches starts a visited match or lies inside one |
| Uniforms.MatchesSound | jfluidic.js:254-257 | every match the loop visits is a declaration, and they come in order without overlap |
| Uniforms.MatchesLeftmost | jfluidic.js:254-257 | every declaration in the text starts a visited match or lies inside one |
| Uniforms.CollectLastWins | jfluidic.js:256 | a name is a parameter exactly when some match declares it; its type comes from the last match that declares it; names no match declares keep their earlier value |
| Uniforms.CollectAppend | jfluidic.js:254-257 | recording `xs + ys` is recording `xs` and then `ys` |
| Uniforms.CollectShift | jfluidic.js:254-257 | matches of `B` moved into `A + B` record the same parameters |
| Uniforms.CollectPrefix | jfluidic.js:254-257 | matches inside `A` record the same parameters when read from `A + B` |
| Uniforms.ScanShift | jfluidic.js:254-257 | scanning a table that is another table moved right finds that table's matches, moved |
| Uniforms.ScanAppendStep | jfluidic.js:254-257 | one step of the scan of a joined table keeps the split into the first part's matches and the second part's |
| Uniforms.ScanAppend | jfluidic.js:254-257 | scanning a table joined from `u` and `v` finds `u`'s matches and then `v`'s, moved |
| Uniforms.KeywordShift | jfluidic.js:245 | the keyword occurs in a text ending with `B` at a position inside `B` exactly when it occurs there in `B` |
| Uniforms.SpacesEndShift | jfluidic.js:245 | a run of spaces inside a suffix `B` ends where it ends in `B`, moved |
| Uniforms.AlnumEndShift | jfluidic.js:245 | a run of letters and digits inside a suffix `B` ends where it ends in `B`, moved |
| Uniforms.MatchAtSuffix | jfluidic.js:245 | a match inside a suffix `B` is `B`'s match, moved |
| Uniforms.SpacesEndPrefix | jfluidic.js:245 | before a delimiter ending `A`, a run of spaces in `A + …` is the run in `A` |
| Uniforms.AlnumEndPrefix | jfluidic.js:245 | before a delimiter ending `A`, a run of letters and digits in `A + …` is the run in `A` |
| Uniforms.MatchAtPrefix | jfluidic.js:245 | before a delimiter ending `A`, matching in `A + …` is matching in `A` |
| Uniforms.TableAppend | jfluidic.js:248-252 | the match table of `A + B` is `A`'s table followed by `B`'s, moved, when `A` ends in a delimiter |
| Uniforms.MatchesAppend | jfluidic.js:248-257 | scanning the concatenation of a delimited `A` and `B` finds `A`'s matches and then `B`'s, moved |
| Uniforms.ParamsAppend | jfluidic.js:248-257 | the parameters of a delimited `A` followed by `B` are `A`'s, overridden by `B`'s declarations |
| Programs.DispatchFromLength | jfluidic.js:39-69 | the loop issues one command per remaining binding |
| Programs.DispatchFromAt | jfluidic.js:39-69 | the command for the `k`-th binding is what the `switch` does with it, a sampler getting the number of samplers bound before it |
| Programs.DispatchAt | jfluidic.js:38-69 | over a whole bindings object: one command per binding, in order, the `k`-th given by the `switch` with the count of earlier samplers as its unit |
| Programs.SamplerUnits | jfluidic.js:59-65 | a sampler binding activates, binds and points at the next free unit, and every later sampler gets a larger unit |
| Programs.SamplersBeforeGrows | jfluidic.js:64 | past a sampler, the count of texture units handed out is larger |
| Programs.NonSamplerTakesNoUnit | jfluidic.js:50-58 | a binding that is not a sampler issues no sampler command and takes no texture unit |
| Programs.SetupParameters | jfluidic.js:34-71 | the loop over the bindings issues exactly the dispatch: one command per binding, skipping undeclared keys, samplers numbered from 0 |
| Programs.SetupAsWrittenFromThrows | jfluidic.js:39-46 | as written, the loop from binding `i` throws if and only if some later key is undeclared; when it completes, its commands are the dispatch |
| Programs.SetupAsWrittenThrows | jfluidic.js:39-46 | as written, `_setupParameters` throws exactly when some key is undeclared, and otherwise issues the corrected commands |
| Programs.UndeclaredKeyThrows | jfluidic.js:44 | binding `dt` to a program that declares nothing throws as written, while the intended code skips the key |
| Programs.SamplersBeforeKeys | jfluidic.js:59-65 | binding lists with the same keys hand out the same texture units |
| Programs.OutputSees | jfluidic.js:25-32 | a draw is its program applied to the dispatch of the values it reads: dispatching and then reading the textures is reading them and then dispatching |
| Programs.ResolveCommandFor | jfluidic.js:49-68 | reading the textures of one command is issuing the command for the values read |
| Programs.OutputIgnores | jfluidic.js:25-32 | a draw depends only on the textures bound to it: changing a texture no binding names leaves the output unchanged |
| Programs.Gpu.constructor | jfluidic.js:359-369 | no texture drawn yet, the canvas is the target, and nothing is on the canvas |
| Programs.Gpu.Draw | jfluidic.js:25-32 | the output of the program goes into the attached texture, or onto the canvas when none is attached; nothing else changes |
| Programs.Gpu.Attach | jfluidic.js:116-117 | the render target becomes the given texture, or the canvas; contents are unchanged |
| ProgramLoader.Load | jfluidic.js:246-263 | `load` returns the program specified by `LoadResult`, or fails on the first missing script element |
| ProgramLoader.UtilTextsStops | jfluidic.js:249-251 | once a utility script is missing, the load fails on that one, whatever follows |
| ProgramLoader.UtilTextsFound | jfluidic.js:247-251 | the utility texts are found exactly when every named script is on the page; otherwise the error names the first missing one |
| ProgramLoader.LoadFound | jfluidic.js:246-263 | `load` succeeds exactly when every utility and the fragment are on the page; its source is the header, the utility texts and the fragment, and its parameters are those declared in that source; otherwise it fails on the first missing element |
| ProgramLoader.ScanNothing | jfluidic.js:254-257 | a text without the keyword yields no match from any position |
| ProgramLoader.NothingDeclared | jfluidic.js:254-257 | a text without the keyword declares no parameters |
| ProgramLoader.PrecisionHasNoKeyword | jfluidic.js:248 | the precision header contains no `uniform` in any letter case |
| ProgramLoader.PrecisionDeclaresNothing | jfluidic.js:248-257 | prefixing the header does not change the parameters a source declares |
| ProgramLoader.CollectKeepsAgreement | jfluidic.js:256 | recording the same matches keeps two dictionaries that agree on a name in agreement on it |
| ProgramLoader.CollectOverrides | jfluidic.js:256 | a name the matches declare gets their type, whatever the dictionary held before |
| ProgramLoader.FragmentOverrides | jfluidic.js:248-257 | when the text before the fragment ends in a delimiter, every parameter the fragment declares has the fragment's type, overriding any utility's declaration |
| Rendering.DrawnContents | jfluidic.js:100-104 | after a draw into `dest`, `dest` holds the output, the buffer holds what `dest` held, every other field is unchanged, the textures stay distinct and the canvas is untouched |
| Rendering.NoFeedback | jfluidic.js:100-104 | bindings that never name the buffer never bind the render target, so what the buffer held cannot affect the output |
| Rendering.RunAppend | jfluidic.js:436-491 | performing `xs + ys` is performing `xs` and then `ys` |
| Rendering.RunSnoc | jfluidic.js:436-491 | performing one more call after a sequence is performing it on the state the sequence left |
| Rendering.RunEffects | jfluidic.js:100-104 | after any sequence of calls the handles are the old ones swapped along the destinations and stay distinct; the canvas is unchanged; a field no call writes keeps its contents |
| Rendering.Renderer.constructor | jfluidic.js:108-113 | the renderer holds the framebuffer and the texture manager given |
| Rendering.Renderer.Begin | jfluidic.js:115-118 | the current buffer texture becomes the render target; contents and handles are unchanged |
| Rendering.Renderer.End | jfluidic.js:120-123 | the canvas becomes the target again and the buffer is swapped with the destination |
| Rendering.Solver.constructor | jfluidic.js:95-98 | the solver holds the renderer given |
| Rendering.Solver.Go | jfluidic.js:100-104 | the state after `go` is the draw into the buffer followed by exactly one swap with the destination, and the canvas is the target again |
| Rendering.SolveProgram.constructor | jfluidic.js:81-85 | the solve program holds the renderer and program given |
| Rendering.SolveProgram.Go | jfluidic.js:87-91 | like `Solver.go` with the bound program: one draw into the buffer, one swap |
| Fluids.SolveCalls | jfluidic.js:409-418 | the solve makes `n` Jacobi calls, each on `x`, `b`, `alpha` and `beta` into `destination` |
| Fluids.SolveCallsDests | jfluidic.js:409-418 | the relaxation passes all write the one destination |
| Fluids.DestsAppend | jfluidic.js:436-491 | the destinations of `xs + ys` are those of `xs` followed by those of `ys` |
| Fluids.ProjectionWrites | jfluidic.js:479-490 | the projection writes the divergence, then the pressure twenty times, then the velocity |
| Fluids.SubStepWrites | jfluidic.js:437-490 | a pass writes the ink (only when injecting), the velocity, the ink, the velocity, the divergence, the pressure twenty times and the velocity, and never the buffer by name |
| Fluids.BindsNoBufferAppend | jfluidic.js:436-491 | two call sequences that never bind the buffer make one that never does |
| Fluids.SubStepAvoidsBuffer | jfluidic.js:437-490 | no kernel of a pass binds the buffer, so none binds the texture it renders into |
| Fluids.BindMotion | jfluidic.js:456-472 | the perturb and advect bindings carry `dt`, the current velocity texture and the current texture of the advected field |
| Fluids.BindOne | jfluidic.js:479-481 | a one-field bindings object binds that field's current texture |
| Fluids.BindSubtract | jfluidic.js:487-490 | the subtraction binds the current velocity and pressure textures |
| Fluids.BindInject | jfluidic.js:438 | the injection binds the mouse's position and colour vectors |
| Fluids.BindJacobi | jfluidic.js:411-416 | each relaxation binds the current textures of `x` and `b` and the numbers `alpha` and `beta` |
| Fluids.JacobiPass | jfluidic.js:411-416 | one relaxation into `b` leaves in `b` the Jacobi step of what `x` and `b` held, and leaves `x` unchanged |
| Fluids.SolveNext | jfluidic.js:410-417 | one more pass of the solve is one more Jacobi call on the state the earlier passes left |
| Fluids.SolveRelaxes | jfluidic.js:409-418 | when `b` is also the destination, each pass reads the previous pass's output: after `n` passes `b` holds `n` Jacobi steps from its start, and `x` is untouched |
| Fluids.SolveRestoresHandles | jfluidic.js:409-418 | after the twenty passes every name is back on the texture it started on |
| Fluids.FrameTimeTelescopes | jfluidic.js:441-444 | `timeThisFrame` after `n` passes is the time from the last clock reading before the tick (the previous tick's last reading, or the first reading) to the `n`-th reading, in seconds |
| Fluids.StepCount | jfluidic.js:436 | a tick runs between 1 and `MaxSolves` passes |
| Fluids.StepCountFrom | jfluidic.js:436 | the loop condition holds before every pass counted and fails after the last |
| Fluids.StepCountBounds | jfluidic.js:436-491 | a tick runs 1 to 20 passes, exactly one when single-stepping; it continues while under 10 ms have passed since the last clock reading before the tick and stops once 10 ms have passed, unless the cap or single-stepping stops it first |
| Fluids.LoopStep | jfluidic.js:436-445 | a pass taken while the loop condition holds keeps the counters in step with the clock and the pass count fixed |
| Fluids.LoopExit | jfluidic.js:436 | when the loop condition fails, exactly `StepCount` passes have run |
| Fluids.SubStepsNext | jfluidic.js:437-490 | pass `n + 1` is the injection if asked, then the advance with the `n`-th measured step scaled by the speed-up |
| Fluids.SubStepsKeepDistinct | jfluidic.js:436-491 | through any number of passes the names stay on five distinct textures, the same five allocations, and the canvas is untouched |
| Fluids.Fluid.constructor | jfluidic.js:371-383 | the texture manager holds the five distinct textures, nothing is drawn, no injection is asked and the clock is at its first reading |
| Fluids.Fluid.Inject | jfluidic.js:504-509 | the injection asked for is the given position and colour |
| Fluids.Fluid.StopInject | jfluidic.js:511-513 | no injection is asked for |
| Fluids.Fluid.Go | jfluidic.js:100-104 | `solver.go` keeps the objects wired and the textures distinct, and its effect is the draw followed by the swap |
| Fluids.Fluid.Relaxation | jfluidic.js:411-416 | one relaxation is the Jacobi call on `x` and `b`, read afresh through the accessors |
| Fluids.Fluid.SolveLinearSystem | jfluidic.js:409-418 | the state after the solve is that of the twenty Jacobi calls performed in order |
| Fluids.Fluid.Move | jfluidic.js:456-472 | the perturbation and the two advections, in order, each reading the fields afresh |
| Fluids.Fluid.Project | jfluidic.js:479-490 | the divergence, the pressure solve and the gradient subtraction, in order |
| Fluids.Fluid.Advance | jfluidic.js:456-490 | the motion kernels followed by the projection |
| Fluids.Fluid.InjectIfAsked | jfluidic.js:437-439 | the injection kernel into the ink runs exactly when an injection is asked for |
| Fluids.Fluid.SubStep | jfluidic.js:437-490 | one pass moves the state from `n` passes to `n + 1`, returns the measured step and advances the clock to the `n`-th reading |
| Fluids.Fluid.FramePass | jfluidic.js:436-490 | a pass taken while the loop condition holds moves the state from `n` passes to `n + 1`, grows `timeThisFrame` by the measured step and keeps the total pass count `StepCount` fixed |
| Fluids.Fluid.Frame | jfluidic.js:433-491 | the frame loop runs exactly `StepCount` passes; the state is that of the passes and the clock is at the last reading |
| Fluids.Fluid.Tick | jfluidic.js:427-499 | with `go` off nothing changes; otherwise the frame loop runs and the ink is drawn onto the canvas |
| Fluids.Fluid.LoadImageAsInk | jfluidic.js:515-522 | the image is drawn into the ink through the solver |
| Fluids.AssembledFound | jfluidic.js:385-393 | the kernels are loaded exactly when every one of the eight loads succeeds |
| Fluids.AssembledPrograms | jfluidic.js:385-393 | each kernel is the program of its own load |
| Fluids.AssembledFails | jfluidic.js:385-393 | when loading fails, the error is that of the first load that fails, every earlier load having succeeded |
| Fluids.FirstFailing | jfluidic.js:385-393 | the position of a load that fails and whose error is the constructor's |
| Fluids.LoadKernels | jfluidic.js:385-393 | the constructor's loads run in order, the first failure ending them |
| Interaction.InjectsWhileHeld | jfluidic.js:325-329 | an injection is asked for exactly while button 1 or button 3 is held |
| Interaction.PositionFromCanvas | jfluidic.js:331-332 | the position maps back to the mouse's pixel, with y flipped, and lies in the unit square for a mouse on the canvas |
| Interaction.ChannelsFromButtons | jfluidic.js:334-337 | the colour is opaque and has no green; it is red exactly when button 1 is held and blue exactly when button 3 is held |
| Interaction.OtherButtonsIgnored | jfluidic.js:325-337 | buttons other than 1 and 3 never change the injection |
| Interaction.ReleaseForgets | jfluidic.js:305-321 | pressing and then releasing a button is the same as only releasing it |
| Interaction.Interactor.constructor | jfluidic.js:289-292 | no button is held |
| Interaction.Interactor.InjectVelocity | jfluidic.js:325-338 | the injection asked for is the one the held buttons and the mouse position give, or none |
| Interaction.Interactor.MouseDown | jfluidic.js:304-308 | the button becomes held and the injection follows |
| Interaction.Interactor.MouseMove | jfluidic.js:310-313 | the injection follows the mouse |
| Interaction.Interactor.MouseOut | jfluidic.js:315-318 | every button is forgotten and the injection stops |
| Interaction.Interactor.MouseUp | jfluidic.js:320-323 | the button is released and the injection follows |

## Left out

- WebGL itself is not modelled: shader compilation, program linking, uniform locations, vertex buffers, `UsedEverywhere` and the `mat4` matrices. A failed compile or link, which the source throws on, is not modelled either.
- The GLSL kernels are uninterpreted. Their arithmetic is not modelled: advection, bilinear interpolation, the Jacobi formula, divergence and gradient. Floating-point rounding of grid values is not modelled either.
- `TextureLoader` is not modelled. The five textures are given to the constructor as distinct handles, and `loadImageAsInk` is modelled from the point where the image texture exists (`Fluid.LoadImageAsInk`).
- The DOM is a parameter. The `go` and `single-step` check boxes are booleans, the speed-up input is a real (its string-to-number coercion is not modelled), and the page's script elements are a map from element id to inner text.
- The clock is a parameter. `Date.now()` readings are a sequence of integers with at least twenty entries. `setTimeout`, `setInterval` and the 100 ms start delay are left out. `time` is a field of `Fluid` rather than a variable of the timer's closure.
- Fluids.InjectCall: the inject draw binds only `position` and `velocity`, yet adds to the current ink. Any sampler of the inject kernel then reads whatever texture unit 0 last held: the ink after the canvas draw on a tick's first pass, and on later passes the old velocity texture, which is by then the buffer the inject draw renders into. The model's injected ink does not depend on the old ink; that implicit read is not modelled, because the kernel's text is not part of this model.
- Fluids.StepCount, Fluids.StepCountBounds: frame time is summed in exact reals, not doubles, so the pass count can differ from the source's by one at the 10 ms boundary. With readings 9 ms and 10 ms after `time`, doubles give 0.009 + 0.001 < 0.01 and a third pass, while the model runs two.
- Frame time is summed in exact reals. The double arithmetic of `(newTime - time)/1000.0` and its running sum is not modelled. The cap `2000 * 0.01` is exactly 20 in doubles, so it is the constant 20.
- The frames-per-second text (lines 449-454) is display only and is not modelled.
- The debug views (`debugTexture`, the `debug-draw` program) depend on page check boxes and `toDataURL`. They are not modelled. The debug program is still loaded.
- The diffusion coefficients at lines 474-476 are computed and never used, because the diffusion solve is commented out.
- The third argument of `load('perturb', [], {...})` is ignored by `load` and is not modelled.
- Uniform values persisting on a program between draws are not modelled. Each draw's output depends only on the values bound by that draw.
- Inherited (prototype) keys of a bindings object are not modelled.
- Fluids.Fluid.SolveLinearSystem: its contract gives the state after the twenty passes, but not the history of swaps the texture manager records. `Fluid.Go` and `Solver.Go` do state that history.
- jfluidic.js has no fixed-timestep integrator, runaway detection, boundary passes or configuration object: it steps by measured time (line 436), and the model does the same.
- `solveLinearSystem` is called with the divergence as `x` and the pressure as both `b` and the destination (line 485). `Fluids.SolveRelaxes` states the relaxation for that call.
- An undeclared binding key throws (line 44); see Findings.
- Programs.Gpu.Draw: every draw, and so `Solver.Go`, `SolveProgram.Go` and `Fluid.Tick`, uses the corrected `SetupParameters`. As written, a draw with an undeclared key throws at line 44: no swap happens, the framebuffer stays attached and the tick is abandoned. The model shows such a draw completing.
- Programs.SetupAsWritten: `_params` is a plain object. An undeclared key naming an inherited `Object.prototype` member (`constructor`, `toString`) finds a function, passes `!param`, reaches `default: debugger` and does not throw. The model treats every undeclared key as throwing.

## Findings

| source | as written | input that shows it | evidently intended | confidence | as-written member | corrected member |
|---|---|---|---|---|---|---|
| jfluidic.js:44 | the warning for a binding whose key the program does not declare logs the undeclared identifier `binding`, which throws a `ReferenceError` and abandons the draw | a program that declares no parameters, drawn with bindings `{dt: 0.5}` | log a warning and skip the key (`continue`), as the next line does | high; not executed | Programs.UndeclaredKeyThrows | Programs.SetupParameters |
