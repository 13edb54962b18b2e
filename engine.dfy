/**
 * The Engine class: it owns the canvas, the device and the four registries,
 * and builds one shader module and two pipelines when it is constructed.
 * Each method that writes a registry is proved to take the engine from
 * `old(Snapshot())` to the state the matching Registry function gives, and
 * to touch nothing outside its `modifies` clause.
 */
module Engine {
  import opened Gpu
  import opened Registry

  /** The cached canvas size (a Vector2 of width and height). */
  datatype Size = Size(width: int, height: int)

  /** Construction either yields an engine or fails with the error it throws. */
  datatype Result<T> = Success(value: T) | Failure(error: string)

  const NoWebGpuSupport: string := "No WebGPU support!"

  class Engine {
    const device: Device
    const canvas: Canvas
    const canvasContext: CanvasContext
    var canvasSize: Size
    var shaderModules: map<string, ShaderModule>
    var pipelines: map<string, StoredPipeline>
    var buffers: map<string, Buffer>
    var bindGroups: map<string, BindGroup>

    /** The registries, with the device's handle counter. */
    function Snapshot(): State
      reads this, device
    {
      State(shaderModules, pipelines, buffers, bindGroups, device.issued)
    }

    ghost predicate Valid()
      reads this, device
    {
      Registry.Valid(Snapshot())
    }

    /**
     * What render relies on: a render pipeline is stored as "simple triangle".
     * It also carries `Valid()`, which render does not need, so that the
     * invariant the constructor establishes (SetupValid) is visibly kept by
     * every method that requires and ensures `Ready()`.
     */
    ghost predicate Ready()
      reads this, device
    {
      Valid() && GetPipeline(pipelines, SimpleTriangle, PipelineKind.Render).Some?
    }

    /**
     * The constructor: fails with "No WebGPU support!" when the canvas has
     * no WebGPU context, and then issues nothing; otherwise caches the
     * canvas size, starts from empty registries and runs the setup sequence.
     */
    static method Create(element: Canvas, device: Device, shaderSource: string) returns (r: Result<Engine>)
      modifies device`issued
      ensures r.Failure? <==> element.webgpuContext.None?
      ensures r.Failure? ==> r.error == NoWebGpuSupport && device.issued == old(device.issued)
      ensures r.Success? ==>
        && fresh(r.value)
        && r.value.device == device && r.value.canvas == element
        && Some(r.value.canvasContext) == element.webgpuContext
        && r.value.canvasSize == Size(element.width, element.height)
        && r.value.Snapshot() == AfterSetup(old(device.issued), shaderSource)
        && r.value.Ready()
    {
      var context := element.webgpuContext;
      if context.None? {
        return Failure(NoWebGpuSupport);
      }
      var engine := new Engine(element, device, context.value, shaderSource);
      r := Success(engine);
    }

    /** The constructor past its null check, with the context getContext returned. */
    constructor (element: Canvas, device: Device, context: CanvasContext, shaderSource: string)
      requires element.webgpuContext == Some(context)
      modifies device`issued
      ensures this.device == device && canvas == element && canvasContext == context
      ensures canvasSize == Size(element.width, element.height)
      ensures Snapshot() == AfterSetup(old(device.issued), shaderSource)
      ensures Ready()
    {
      canvas := element;
      this.device := device;
      canvasContext := context;
      canvasSize := Size(element.width, element.height);
      shaderModules := map[];
      pipelines := map[];
      bindGroups := map[];
      buffers := map[];
      new;
      ghost var start := device.issued;
      SetupShaders(shaderSource);
      SetupPipelines();
      SetupValid(start, shaderSource);
    }

    /**
     * render binds the "simple triangle" render pipeline; the lookup is
     * proved to succeed rather than trusted. The pass it records and
     * submits is not modelled.
     */
    method Render() returns (pipeline: Pipeline)
      requires Ready()
      ensures Some(pipeline) == GetPipeline(pipelines, SimpleTriangle, PipelineKind.Render)
      ensures pipelines[SimpleTriangle] == StoredPipeline(PipelineKind.Render, pipeline)
    {
      pipeline := GetPipeline(pipelines, SimpleTriangle, PipelineKind.Render).value;
    }

    method SetupShaders(shaderSource: string)
      modifies this`shaderModules, device`issued
      ensures Snapshot() == AfterCompileModule(old(Snapshot()), SimpleShaders, shaderSource)
    {
      var _ := CompileModule(SimpleShaders, shaderSource);
    }

    /**
     * setupPipelines: reads "simple shaders" back (the caller must have
     * compiled it) and builds the two pipelines from descriptors without a
     * label, so each is labelled by its name.
     */
    method SetupPipelines()
      requires Get(shaderModules, SimpleShaders).Some?
      modifies this`pipelines, device`issued
      ensures var m := old(shaderModules[SimpleShaders]);
        Snapshot() == AfterCreatePipeline(AfterCreatePipeline(old(Snapshot()), SimpleTriangle, PipelineKind.Render, None, [m, m]),
                                          ComputePipelineName, PipelineKind.Compute, None, [m])
    {
      var simpleShaders := Get(shaderModules, SimpleShaders).value;
      var renderDesc := new RenderPipelineDescriptor(None, simpleShaders, simpleShaders);
      CreateRenderPipeline(SimpleTriangle, renderDesc);
      var computeDesc := new ComputePipelineDescriptor(None, simpleShaders);
      CreateComputePipeline(ComputePipelineName, computeDesc);
    }

    /** compileModule: stores a new module labelled `name` under `name` and returns it. */
    method CompileModule(name: string, source: string) returns (shaderModule: ShaderModule)
      modifies this`shaderModules, device`issued
      ensures shaderModule == ShaderModule(old(device.issued), Some(name), source)
      ensures Get(shaderModules, name) == Some(shaderModule)
      ensures Snapshot() == AfterCompileModule(old(Snapshot()), name, source)
      ensures old(Valid()) ==> Valid()
      ensures old(Ready()) ==> Ready()
    {
      ghost var before := Snapshot();
      shaderModule := device.CreateShaderModule(source, Some(name));
      shaderModules := shaderModules[name := shaderModule];
      if Registry.Valid(before) {
        CompileModuleValid(before, name, source);
      }
    }

    /**
     * createRenderPipeline: gives the descriptor the label `name` when it
     * has none, then stores the new pipeline under `name` tagged Render.
     */
    method CreateRenderPipeline(name: string, desc: RenderPipelineDescriptor)
      modifies this`pipelines, device`issued, desc`debugLabel
      ensures desc.debugLabel == if old(desc.debugLabel).None? then Some(name) else old(desc.debugLabel)
      ensures Snapshot() == AfterCreatePipeline(old(Snapshot()), name, PipelineKind.Render, old(desc.debugLabel),
                                                [desc.vertexModule, desc.fragmentModule])
      ensures old(Valid()) ==> Valid()
      ensures old(Ready()) ==> Ready()
    {
      ghost var before := Snapshot();
      ghost var givenLabel := desc.debugLabel;
      if Registry.Valid(before) {
        CreatePipelineValid(before, name, PipelineKind.Render, givenLabel, [desc.vertexModule, desc.fragmentModule]);
      }
      if desc.debugLabel.None? {
        desc.debugLabel := Some(name);
      }
      var pipeline := device.CreateRenderPipeline(desc);
      pipelines := pipelines[name := StoredPipeline(PipelineKind.Render, pipeline)];
    }

    /**
     * createComputePipeline: gives the descriptor the label `name` when it
     * has none, then stores the new pipeline under `name` tagged Compute.
     */
    method CreateComputePipeline(name: string, desc: ComputePipelineDescriptor)
      modifies this`pipelines, device`issued, desc`debugLabel
      ensures desc.debugLabel == if old(desc.debugLabel).None? then Some(name) else old(desc.debugLabel)
      ensures Snapshot() == AfterCreatePipeline(old(Snapshot()), name, PipelineKind.Compute, old(desc.debugLabel),
                                                [desc.computeModule])
      ensures old(Valid()) ==> Valid()
      ensures old(Ready()) && name != SimpleTriangle ==> Ready()
    {
      ghost var before := Snapshot();
      ghost var givenLabel := desc.debugLabel;
      if Registry.Valid(before) {
        CreatePipelineValid(before, name, PipelineKind.Compute, givenLabel, [desc.computeModule]);
      }
      if desc.debugLabel.None? {
        desc.debugLabel := Some(name);
      }
      var pipeline := device.CreateComputePipeline(desc);
      pipelines := pipelines[name := StoredPipeline(Compute, pipeline)];
    }

    /** createBuffer: stores a new buffer made from `desc` under `name`. */
    method CreateBuffer(name: string, desc: BufferDescriptor)
      modifies this`buffers, device`issued
      ensures Snapshot() == AfterCreateBuffer(old(Snapshot()), name, desc)
      ensures old(Valid()) ==> Valid()
      ensures old(Ready()) ==> Ready()
    {
      ghost var before := Snapshot();
      if Registry.Valid(before) {
        CreateBufferValid(before, name, desc);
      }
      var buf := device.CreateBuffer(desc);
      buffers := buffers[name := buf];
    }

    /**
     * resize: sets the canvas's width and height, then renders. The cached
     * canvasSize and the registries are left as they were.
     */
    method Resize(width: int, height: int)
      requires Ready()
      modifies canvas`width, canvas`height
      ensures canvas.width == width && canvas.height == height
      ensures canvasSize == old(canvasSize) && Snapshot() == old(Snapshot())
      ensures Ready()
    {
      canvas.width := width;
      canvas.height := height;
      var _ := Render();
    }
  }
}
