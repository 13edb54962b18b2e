/**
 * The engine's resource registries as values: four name-keyed stores and
 * the number of handles the device has issued so far. Each creation
 * operation is a function from the state before to the state after; the
 * Engine class in engine.dfy is proved to follow them step by step.
 *
 * This is bookkeeping over maps, not an algorithm: what is proved is which
 * lookups succeed after which creations, that creations overwrite, and that
 * every stored handle is a distinct object the device really issued.
 */
module Registry {
  import opened Gpu

  /** The tag stored beside each pipeline (the source's enum PipelineKind). */
  datatype PipelineKind = Render | Compute

  /** One entry of the pipeline store: the pair [kind, pipeline]. */
  datatype StoredPipeline = StoredPipeline(kind: PipelineKind, pipeline: Pipeline)

  /** The engine's stores and the device's handle counter. */
  datatype State = State(
    shaders: map<string, ShaderModule>,
    pipelines: map<string, StoredPipeline>,
    buffers: map<string, Buffer>,
    bindGroups: map<string, BindGroup>,
    issued: nat)

  /** The fixed names the setup sequence creates. */
  const SimpleShaders: string := "simple shaders"
  const SimpleTriangle: string := "simple triangle"
  const ComputePipelineName: string := "compute"

  /** Empty stores, before any setup step, with the device at `issued`. */
  function Initial(issued: nat): State {
    State(map[], map[], map[], map[], issued)
  }

  /**
   * Every stored handle was issued by the device before now, and no two
   * names of one store share a handle.
   */
  ghost predicate Valid(s: State) {
    && (forall n :: n in s.shaders ==> s.shaders[n].id < s.issued)
    && (forall n :: n in s.pipelines ==> s.pipelines[n].pipeline.id < s.issued)
    && (forall n :: n in s.buffers ==> s.buffers[n].id < s.issued)
    && (forall n :: n in s.bindGroups ==> s.bindGroups[n].id < s.issued)
    && (forall a, b :: a in s.shaders && b in s.shaders && a != b ==> s.shaders[a].id != s.shaders[b].id)
    && (forall a, b :: a in s.pipelines && b in s.pipelines && a != b ==>
          s.pipelines[a].pipeline.id != s.pipelines[b].pipeline.id)
    && (forall a, b :: a in s.buffers && b in s.buffers && a != b ==> s.buffers[a].id != s.buffers[b].id)
    && (forall a, b :: a in s.bindGroups && b in s.bindGroups && a != b ==> s.bindGroups[a].id != s.bindGroups[b].id)
  }

  /** A map read (Map.get): the stored handle, or None for a name never stored. */
  function Get<H>(store: map<string, H>, name: string): (r: Option<H>)
    ensures r.Some? <==> name in store
    ensures r.Some? ==> r.value == store[name]
  {
    if name in store then Some(store[name]) else None
  }

  /**
   * getPipeline: the pipeline stored under `name` when its tag is `kind`;
   * None when the name is unknown or holds the other kind.
   */
  function GetPipeline(pipelines: map<string, StoredPipeline>, name: string, kind: PipelineKind): (r: Option<Pipeline>)
    ensures name !in pipelines ==> r.None?
    ensures r.Some? <==> name in pipelines && pipelines[name].kind == kind
    ensures r.Some? ==> r.value == pipelines[name].pipeline
  {
    if name !in pipelines then None
    else
      var stored := pipelines[name];
      if stored.kind == kind then Some(stored.pipeline) else None
  }

  /** A stored name answers exactly one of the two kinds; an unknown name answers neither. */
  lemma GetPipelineOneKind(pipelines: map<string, StoredPipeline>, name: string)
    ensures name in pipelines <==>
      GetPipeline(pipelines, name, Render).Some? || GetPipeline(pipelines, name, Compute).Some?
    ensures GetPipeline(pipelines, name, Render).None? || GetPipeline(pipelines, name, Compute).None?
  {
  }

  /** The label a pipeline descriptor ends up with: its own, or else the registry name. */
  function DefaultLabel(debugLabel: Option<string>, name: string): string {
    if debugLabel.None? then name else debugLabel.value
  }

  /** compileModule: a new module labelled `name` is stored under `name`. */
  function AfterCompileModule(s: State, name: string, code: string): (t: State)
    ensures Get(t.shaders, name) == Some(ShaderModule(s.issued, Some(name), code))
    ensures forall n :: n != name ==> Get(t.shaders, n) == Get(s.shaders, n)
    ensures t.shaders.Keys == s.shaders.Keys + {name}
    ensures t.pipelines == s.pipelines && t.buffers == s.buffers && t.bindGroups == s.bindGroups
    ensures t.issued == s.issued + 1
  {
    s.(shaders := s.shaders[name := ShaderModule(s.issued, Some(name), code)], issued := s.issued + 1)
  }

  /**
   * createRenderPipeline (kind Render) and createComputePipeline (kind
   * Compute): a new pipeline, labelled by its descriptor or else by `name`,
   * is stored under `name` with tag `kind`, replacing whatever was there.
   */
  function AfterCreatePipeline(s: State, name: string, kind: PipelineKind, debugLabel: Option<string>,
                               stages: seq<ShaderModule>): (t: State)
    ensures GetPipeline(t.pipelines, name, kind) == Some(Pipeline(s.issued, Some(DefaultLabel(debugLabel, name)), stages))
    ensures forall k :: k != kind ==> GetPipeline(t.pipelines, name, k).None?
    ensures forall n, k :: n != name ==> GetPipeline(t.pipelines, n, k) == GetPipeline(s.pipelines, n, k)
    ensures t.pipelines.Keys == s.pipelines.Keys + {name}
    ensures t.shaders == s.shaders && t.buffers == s.buffers && t.bindGroups == s.bindGroups
    ensures t.issued == s.issued + 1
  {
    var pipeline := Pipeline(s.issued, Some(DefaultLabel(debugLabel, name)), stages);
    s.(pipelines := s.pipelines[name := StoredPipeline(kind, pipeline)], issued := s.issued + 1)
  }

  /** createBuffer: a new buffer made from `desc` is stored under `name`. */
  function AfterCreateBuffer(s: State, name: string, desc: BufferDescriptor): (t: State)
    ensures Get(t.buffers, name) == Some(Buffer(s.issued, desc))
    ensures forall n :: n != name ==> Get(t.buffers, n) == Get(s.buffers, n)
    ensures t.buffers.Keys == s.buffers.Keys + {name}
    ensures t.shaders == s.shaders && t.pipelines == s.pipelines && t.bindGroups == s.bindGroups
    ensures t.issued == s.issued + 1
  {
    s.(buffers := s.buffers[name := Buffer(s.issued, desc)], issued := s.issued + 1)
  }

  /**
   * Re-creating a pipeline under a name already in use drops the previous
   * pipeline from the store altogether: nothing releases it, and no name
   * reaches it any more.
   */
  lemma OverwriteOrphansPipeline(s: State, name: string, kind: PipelineKind, debugLabel: Option<string>,
                                 stages: seq<ShaderModule>)
    requires Valid(s) && name in s.pipelines
    ensures var t := AfterCreatePipeline(s, name, kind, debugLabel, stages);
      forall n :: n in t.pipelines ==> t.pipelines[n].pipeline != s.pipelines[name].pipeline
  {
  }

  /**
   * The state after construction: setupShaders compiles "simple shaders",
   * then setupPipelines reads it back and builds the render pipeline
   * "simple triangle" (vertex and fragment stage on that module) and the
   * compute pipeline "compute", neither descriptor carrying a label.
   * Reading the module back cannot fail: the unwrap at src/engine/Engine.ts:95.
   */
  function AfterSetup(issued: nat, code: string): (s: State)
    ensures s.issued == issued + 3
    ensures Get(s.shaders, SimpleShaders) == Some(ShaderModule(issued, Some(SimpleShaders), code))
    ensures GetPipeline(s.pipelines, SimpleTriangle, Render) ==
      Some(Pipeline(issued + 1, Some(SimpleTriangle), [s.shaders[SimpleShaders], s.shaders[SimpleShaders]]))
    ensures GetPipeline(s.pipelines, SimpleTriangle, Compute).None?
    ensures GetPipeline(s.pipelines, ComputePipelineName, Compute) ==
      Some(Pipeline(issued + 2, Some(ComputePipelineName), [s.shaders[SimpleShaders]]))
    ensures GetPipeline(s.pipelines, ComputePipelineName, Render).None?
    ensures s.shaders.Keys == {SimpleShaders} && s.pipelines.Keys == {SimpleTriangle, ComputePipelineName}
    ensures s.buffers == map[] && s.bindGroups == map[]
  {
    var s1 := AfterCompileModule(Initial(issued), SimpleShaders, code);
    var m := Get(s1.shaders, SimpleShaders).value;
    var s2 := AfterCreatePipeline(s1, SimpleTriangle, Render, None, [m, m]);
    AfterCreatePipeline(s2, ComputePipelineName, Compute, None, [m])
  }

  /** The engine is constructed in a state that keeps the invariant. */
  lemma SetupValid(issued: nat, code: string)
    ensures Valid(AfterSetup(issued, code))
  {
  }

  /* ------------------------------------------------------------------------
   * Histories. The engine's creation methods can be called in any order; a
   * history is the list of calls made, and Replay is the state it leads to.
   * ------------------------------------------------------------------------ */

  datatype Op =
    | Compile(name: string, code: string)
    | MakePipeline(name: string, kind: PipelineKind, debugLabel: Option<string>, stages: seq<ShaderModule>)
    | MakeBuffer(name: string, desc: BufferDescriptor)

  function Apply(s: State, op: Op): State {
    match op
    case Compile(name, code) => AfterCompileModule(s, name, code)
    case MakePipeline(name, kind, debugLabel, stages) => AfterCreatePipeline(s, name, kind, debugLabel, stages)
    case MakeBuffer(name, desc) => AfterCreateBuffer(s, name, desc)
  }

  /** Every creation call keeps the invariant: the handle it stores is fresh. */
  lemma ApplyValid(s: State, op: Op)
    requires Valid(s)
    ensures Valid(Apply(s, op))
  {
    match op
    case Compile(name, code) => CompileModuleValid(s, name, code);
    case MakePipeline(name, kind, debugLabel, stages) => CreatePipelineValid(s, name, kind, debugLabel, stages);
    case MakeBuffer(name, desc) => CreateBufferValid(s, name, desc);
  }

  lemma CompileModuleValid(s: State, name: string, code: string)
    requires Valid(s)
    ensures Valid(AfterCompileModule(s, name, code))
  {
  }

  lemma CreatePipelineValid(s: State, name: string, kind: PipelineKind, debugLabel: Option<string>,
                            stages: seq<ShaderModule>)
    requires Valid(s)
    ensures Valid(AfterCreatePipeline(s, name, kind, debugLabel, stages))
  {
  }

  lemma CreateBufferValid(s: State, name: string, desc: BufferDescriptor)
    requires Valid(s)
    ensures Valid(AfterCreateBuffer(s, name, desc))
  {
  }

  /** The state reached from `s` by the calls `ops`, oldest first. Every call issues one handle. */
  ghost function Replay(s: State, ops: seq<Op>): (t: State)
    decreases |ops|
    ensures t.issued == s.issued + |ops|
  {
    if ops == [] then s else Apply(Replay(s, ops[..|ops| - 1]), ops[|ops| - 1])
  }

  /** Whatever the calls, every stored handle stays one the device issued, and no handle is shared by two names. */
  lemma {:induction false} ReplayValid(s: State, ops: seq<Op>)
    requires Valid(s)
    ensures Valid(Replay(s, ops))
  {
    if ops != [] {
      ReplayValid(s, ops[..|ops| - 1]);
      ApplyValid(Replay(s, ops[..|ops| - 1]), ops[|ops| - 1]);
    }
  }

  /** The three stores a history can write. */
  datatype Store = Shaders | Pipelines | Buffers

  ghost predicate Writes(op: Op, store: Store, name: string) {
    op.name == name &&
    match store
    case Shaders => op.Compile?
    case Pipelines => op.MakePipeline?
    case Buffers => op.MakeBuffer?
  }

  /** The position of the last call in `ops` that writes `name` in `store`, if any. */
  ghost function LastWrite(ops: seq<Op>, store: Store, name: string): (r: Option<nat>)
    decreases |ops|
    ensures r.Some? ==> r.value < |ops| && Writes(ops[r.value], store, name)
    ensures r.Some? ==> forall j :: r.value < j < |ops| ==> !Writes(ops[j], store, name)
    ensures r.None? ==> forall j :: 0 <= j < |ops| ==> !Writes(ops[j], store, name)
  {
    if ops == [] then None
    else if Writes(ops[|ops| - 1], store, name) then Some(|ops| - 1)
    else LastWrite(ops[..|ops| - 1], store, name)
  }

  /** One call's effect on a single pipeline lookup. */
  lemma ApplyPipeline(s: State, op: Op, name: string, kind: PipelineKind)
    ensures GetPipeline(Apply(s, op).pipelines, name, kind) ==
      if !Writes(op, Pipelines, name) then GetPipeline(s.pipelines, name, kind)
      else if op.kind == kind then Some(Pipeline(s.issued, Some(DefaultLabel(op.debugLabel, name)), op.stages))
      else None
  {
  }

  /** One call's effect on a single shader lookup. */
  lemma ApplyShader(s: State, op: Op, name: string)
    ensures Get(Apply(s, op).shaders, name) ==
      if Writes(op, Shaders, name) then Some(ShaderModule(s.issued, Some(name), op.code))
      else Get(s.shaders, name)
  {
  }

  /** Replay's last step, spelled out. */
  lemma ReplayStep(s: State, ops: seq<Op>)
    requires ops != []
    ensures Replay(s, ops) == Apply(Replay(s, ops[..|ops| - 1]), ops[|ops| - 1])
    ensures Replay(s, ops[..|ops| - 1]).issued == s.issued + |ops| - 1
  {
  }

  /** LastWrite's last step, spelled out. */
  lemma LastWriteStep(ops: seq<Op>, store: Store, name: string)
    requires ops != []
    ensures LastWrite(ops, store, name) ==
      if Writes(ops[|ops| - 1], store, name) then Some(|ops| - 1) else LastWrite(ops[..|ops| - 1], store, name)
    ensures forall j :: 0 <= j < |ops| - 1 ==> ops[..|ops| - 1][j] == ops[j]
  {
  }

  /**
   * Overwrite semantics over any history, for getPipeline: the last call
   * that created a pipeline under `name` decides the answer alone. It is
   * found when that call's kind is the one asked for, and then it is the
   * handle that call was issued, labelled as that call's descriptor said;
   * otherwise the answer is None. With no such call, the answer is the one
   * the starting state gave. Shader and buffer creations never matter.
   */
  lemma {:induction false} PipelineLastWriterWins(s: State, ops: seq<Op>, name: string, kind: PipelineKind)
    ensures GetPipeline(Replay(s, ops).pipelines, name, kind) ==
      match LastWrite(ops, Pipelines, name)
      case None => GetPipeline(s.pipelines, name, kind)
      case Some(i) =>
        if ops[i].kind == kind
        then Some(Pipeline(s.issued + i, Some(DefaultLabel(ops[i].debugLabel, name)), ops[i].stages))
        else None
  {
    if ops != [] {
      var init, last := ops[..|ops| - 1], ops[|ops| - 1];
      ReplayStep(s, ops);
      LastWriteStep(ops, Pipelines, name);
      ApplyPipeline(Replay(s, init), last, name, kind);
      if !Writes(last, Pipelines, name) {
        PipelineLastWriterWins(s, init, name, kind);
      }
    }
  }

  /**
   * The same for getShader: the last compileModule under `name` decides
   * which module is found, and pipeline and buffer creations never change it.
   */
  lemma {:induction false} ShaderLastWriterWins(s: State, ops: seq<Op>, name: string)
    ensures Get(Replay(s, ops).shaders, name) ==
      match LastWrite(ops, Shaders, name)
      case None => Get(s.shaders, name)
      case Some(i) => Some(ShaderModule(s.issued + i, Some(name), ops[i].code))
  {
    if ops != [] {
      var init, last := ops[..|ops| - 1], ops[|ops| - 1];
      ReplayStep(s, ops);
      LastWriteStep(ops, Shaders, name);
      ApplyShader(Replay(s, init), last, name);
      if !Writes(last, Shaders, name) {
        ShaderLastWriterWins(s, init, name);
      }
    }
  }
}
