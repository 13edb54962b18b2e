# Engine resource registry, modelled in Dafny

This project models the resource-registry bookkeeping of the WebGPU demo
engine in `src/engine/Engine.ts`. The engine owns a canvas and a GPU device,
and keeps its GPU objects in name-keyed stores:

- `shaderModules` maps a name to a shader module.
- `pipelines` maps a name to a pair: a kind tag (RENDER or COMPUTE) and a pipeline.
- `buffers` maps a name to a buffer.
- `bindGroups` is declared and started empty, and nothing in this revision writes it.

Construction checks for a WebGPU context. It then caches the canvas size,
compiles the shader module "simple shaders", and builds the render pipeline
"simple triangle" and the compute pipeline "compute" from it. `render` looks
up the render pipeline and draws with it. `resize` sets the canvas size and
renders again.

The model is about maps and one invariant. It contains no algorithm. GPU
objects are opaque handles. A stub `Device` hands out a fresh number for
every creation call, and each handle also records what it was created from.

Files:

- `gpu.dfy` (module `Gpu`) holds stand-ins for the platform. It has the
  handle datatypes, the handle-issuing `Device`, the `Canvas` with what
  `getContext("webgpu")` returns for it, and the two pipeline descriptor
  classes. The engine writes a descriptor's label in place.
- `registry.dfy` (module `Registry`) holds the stores as a value (`State`).
  It has the two lookups and one function per creation call giving the
  state after it. It also has the setup sequence and the invariant `Valid`:
  every stored handle was issued by the device, and no handle is shared by
  two names. Its histories part takes any sequence of creation calls and
  proves last-writer-wins for both lookups.
- `engine.dfy` (module `Engine`) holds the class `Engine`. Its map fields
  are updated in place. Each method that writes a store is proved to move
  `Snapshot()` to the matching `Registry` function of `old(Snapshot())`. Its
  `modifies` clause names the fields it may write, so nothing else changes.

Two facts about this revision of the code that a reader might not expect:

- `resize` sets only `canvas.width` and `canvas.height`; `canvasSize` keeps
  the value it got at construction (src/engine/Engine.ts:178-181,
  `Engine.Engine.Resize`).
- This revision creates no texture, uniform buffer or bind group:
  `createBuffer` is never called, and `bindGroups` stays empty.

The label check `desc.label == undefined` uses loose equality, so a `null`
label is replaced by the name too. `None` stands for both `undefined` and
`null`. An empty-string label is kept.

## Model

| member | source | states |
|---|---|---|
| `Registry.Get` | src/engine/Engine.ts:124-126 | getShader: a name that was never stored gives None and no failure; a stored name gives exactly the stored handle |
| `Registry.GetPipeline` | src/engine/Engine.ts:158-170 | getPipeline gives None for a name never stored; it gives a pipeline exactly when the stored tag equals the requested kind, and that pipeline is the stored one; a tag mismatch gives None |
| `Registry.GetPipelineOneKind` | src/engine/Engine.ts:158-170 | a stored name is found under exactly one of the two kinds, and an unknown name under neither |
| `Registry.AfterCompileModule` | src/engine/Engine.ts:128-137 | after compileModule(n, src), getShader(n) gives the newly issued module, labelled n, with code src; the lookups of all other names and the other stores are unchanged |
| `Registry.AfterCreatePipeline` | src/engine/Engine.ts:139-156 | after creating a pipeline of kind k under n, getPipeline(n, k) gives the newly issued pipeline, and getPipeline(n, other kind) gives None, whatever was stored under n before; the label is the descriptor's own, or n when it had none; other names and other stores are unchanged |
| `Registry.AfterCreateBuffer` | src/engine/Engine.ts:172-176 | after createBuffer(n, d), the buffer store maps n to the newly issued buffer made from d, replacing any previous entry; other names and the shader and pipeline stores are unchanged |
| `Registry.OverwriteOrphansPipeline` | src/engine/Engine.ts:146 | re-creating a pipeline under a name in use leaves the previous pipeline under no name at all: it is dropped without being released |
| `Registry.AfterSetup` | src/engine/Engine.ts:90-118 | after the setup sequence, "simple shaders" is found, labelled with its name; "simple triangle" is found as RENDER, with both stages on that module; "compute" is found as COMPUTE; both lookups with the other kind give None; the buffer and bind-group stores are empty. The unwrap at line 95 is a proof obligation here |
| `Registry.SetupValid` | src/engine/Engine.ts:47-53 | the state after construction keeps the invariant: every stored handle was issued by the device, and no two names of a store share one |
| `Registry.CompileModuleValid` | src/engine/Engine.ts:128-137 | compileModule keeps the invariant: the module it stores is a fresh handle |
| `Registry.CreatePipelineValid` | src/engine/Engine.ts:139-156 | both pipeline creations keep the invariant: the pipeline they store is a fresh handle |
| `Registry.CreateBufferValid` | src/engine/Engine.ts:172-176 | createBuffer keeps the invariant: the buffer it stores is a fresh handle |
| `Registry.Replay` | src/engine/Engine.ts:128-176 | every creation call issues exactly one handle, whatever the order of the calls |
| `Registry.ReplayValid` | src/engine/Engine.ts:128-176 | after any sequence of creation calls, every stored handle was issued by the device and no two names of a store share a handle |
| `Registry.PipelineLastWriterWins` | src/engine/Engine.ts:139-170 | after any sequence of creation calls, getPipeline(n, k) is decided by the last pipeline creation under n: it gives that call's pipeline when its kind is k, and None otherwise; with no such call, the lookup is unchanged; shader and buffer creations never affect it |
| `Registry.ShaderLastWriterWins` | src/engine/Engine.ts:124-137 | after any sequence of creation calls, getShader(n) gives the module of the last compileModule under n; with no such call, the lookup is unchanged |
| `Engine.Engine.Create` | src/engine/Engine.ts:27-54 | construction fails with "No WebGPU support!" exactly when the canvas has no WebGPU context, and then issues nothing; otherwise the new engine caches the canvas size, its stores are the setup state, and render's lookup is guaranteed to succeed |
| `Engine.Engine.constructor` | src/engine/Engine.ts:28-53 | the construction after the null check: the canvas size is cached from the canvas, the stores start empty, and the setup sequence runs. The resulting stores are the setup state |
| `Engine.Engine.Render` | src/engine/Engine.ts:57-59 | the render pipeline lookup at line 59 succeeds, so the unwrap is a proof obligation; it yields the pipeline stored under "simple triangle" with tag RENDER |
| `Engine.Engine.SetupShaders` | src/engine/Engine.ts:90-92 | compiles the shader source under "simple shaders" |
| `Engine.Engine.SetupPipelines` | src/engine/Engine.ts:94-118 | needs "simple shaders" to be stored (the unwrap at line 95); builds the RENDER pipeline "simple triangle" and then the COMPUTE pipeline "compute" from that module, from descriptors without a label |
| `Engine.Engine.CompileModule` | src/engine/Engine.ts:128-137 | returns the newly issued module, labelled with the name, and getShader(name) gives it afterwards; only the shader store and the device counter change; the invariant and render's readiness are kept |
| `Engine.Engine.CreateRenderPipeline` | src/engine/Engine.ts:139-147 | sets the descriptor's label to the name only when it had none, and keeps an existing label; stores the new pipeline tagged RENDER under the name, replacing any previous entry; only the pipeline store, the device counter and that label change; the invariant and render's readiness are kept |
| `Engine.Engine.CreateComputePipeline` | src/engine/Engine.ts:149-156 | as CreateRenderPipeline, with the tag COMPUTE and the compute module as the one stage; readiness is kept unless the name is "simple triangle", whose RENDER entry it would replace |
| `Engine.Engine.CreateBuffer` | src/engine/Engine.ts:172-176 | stores the new buffer under the name, replacing any previous entry; only the buffer store and the device counter change; the invariant and render's readiness are kept |
| `Engine.Engine.Resize` | src/engine/Engine.ts:178-182 | sets the canvas width and height to the arguments, then renders; the cached canvasSize and every store are unchanged |

## Left out

- WebGPU itself is not modelled. This covers `createShaderModule`, `createRenderPipeline`, `createComputePipeline`, `createBuffer`, `context.configure`, command encoding and queue submission. The device is only a source of fresh handles. A handle records the descriptor fields the engine sets: the label, the shader stages, and the buffer descriptor.
- Engine.Engine.Render: states only which pipeline the pass binds. Recording the pass (descriptor, clear colour, `draw(3)`) and submitting it are GPU-side and asynchronous, so they are not modelled.
- `update()` is empty in the source.
- `lastUpdate` (`Date.now()`) is a clock value, and `preferredFormat` (`navigator.gpu.getPreferredCanvasFormat()`) is a platform value. Neither is modelled. The pipeline descriptor's `layout: "auto"` and its fragment target format are not modelled either.
- The shader source text is an imported asset. It is a parameter (`shaderSource`) of construction.
- `Vector2` from @math.gl/core is replaced by the datatype `Size` of two integers.
- Canvas width and height are unbounded integers. The DOM's conversion of the assigned number to an unsigned 32-bit integer is not modelled.
- Dafny has no private members. The creation and setup methods can be called from outside the class, and the invariant `Ready` is required only by `Render` and `Resize`. Each creation method instead promises to keep `Valid` and `Ready` when they held before the call, except `CreateComputePipeline`, which keeps `Ready` only for a name other than "simple triangle", whose RENDER entry it would replace.
- The `bindGroups` store is never written in this revision. The model only keeps it empty through setup and unchanged by every operation.
- The constructor's throw is modelled by the static method `Create`, which returns a `Result`. The Dafny constructor is the part after the null check.
