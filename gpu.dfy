/**
 * Stand-ins for the platform objects the engine talks to: WebGPU handles,
 * the GPU device that issues them, the canvas element and the pipeline
 * descriptors. None of WebGPU's behaviour is modelled. A handle is opaque:
 * it carries the number the device issued it under and what it was created
 * from, and nothing else.
 */
module Gpu {

  datatype Option<+T> = None | Some(value: T)

  /** A compiled shader module (GPUShaderModule). */
  datatype ShaderModule = ShaderModule(id: nat, debugLabel: Option<string>, code: string)

  /** A render or compute pipeline (GPUPipelineBase); `stages` are the shader modules its stages use. */
  datatype Pipeline = Pipeline(id: nat, debugLabel: Option<string>, stages: seq<ShaderModule>)

  /** What a GPUBufferDescriptor says: an optional label, a byte size and usage flags. */
  datatype BufferDescriptor = BufferDescriptor(debugLabel: Option<string>, size: nat, usage: nat)

  /** A GPU buffer (GPUBuffer). */
  datatype Buffer = Buffer(id: nat, descriptor: BufferDescriptor)

  /** A bind group (GPUBindGroup). */
  datatype BindGroup = BindGroup(id: nat)

  /** The "webgpu" drawing context of a canvas (GPUCanvasContext). */
  datatype CanvasContext = CanvasContext(id: nat)

  /**
   * The GPU device, reduced to a generator of fresh handles: every creation
   * call returns a handle numbered `issued` and then increments it.
   */
  class Device {
    var issued: nat

    constructor (issued: nat)
      ensures this.issued == issued
    {
      this.issued := issued;
    }

    method CreateShaderModule(code: string, debugLabel: Option<string>) returns (m: ShaderModule)
      modifies this`issued
      ensures issued == old(issued) + 1
      ensures m == ShaderModule(old(issued), debugLabel, code)
    {
      m := ShaderModule(issued, debugLabel, code);
      issued := issued + 1;
    }

    method CreateRenderPipeline(desc: RenderPipelineDescriptor) returns (p: Pipeline)
      modifies this`issued
      ensures issued == old(issued) + 1
      ensures p == Pipeline(old(issued), desc.debugLabel, [desc.vertexModule, desc.fragmentModule])
    {
      p := Pipeline(issued, desc.debugLabel, [desc.vertexModule, desc.fragmentModule]);
      issued := issued + 1;
    }

    method CreateComputePipeline(desc: ComputePipelineDescriptor) returns (p: Pipeline)
      modifies this`issued
      ensures issued == old(issued) + 1
      ensures p == Pipeline(old(issued), desc.debugLabel, [desc.computeModule])
    {
      p := Pipeline(issued, desc.debugLabel, [desc.computeModule]);
      issued := issued + 1;
    }

    method CreateBuffer(desc: BufferDescriptor) returns (b: Buffer)
      modifies this`issued
      ensures issued == old(issued) + 1
      ensures b == Buffer(old(issued), desc)
    {
      b := Buffer(issued, desc);
      issued := issued + 1;
    }
  }

  /**
   * The canvas element. `webgpuContext` is what getContext("webgpu") yields
   * for it: None when the platform has no WebGPU.
   */
  class Canvas {
    var width: int
    var height: int
    const webgpuContext: Option<CanvasContext>

    constructor (width: int, height: int, webgpuContext: Option<CanvasContext>)
      ensures this.width == width && this.height == height
      ensures this.webgpuContext == webgpuContext
    {
      this.width := width;
      this.height := height;
      this.webgpuContext := webgpuContext;
    }
  }

  /**
   * A GPURenderPipelineDescriptor, reduced to its label and the module each
   * stage uses. It is an object: the engine writes its label in place.
   */
  class RenderPipelineDescriptor {
    var debugLabel: Option<string>
    var vertexModule: ShaderModule
    var fragmentModule: ShaderModule

    constructor (debugLabel: Option<string>, vertexModule: ShaderModule, fragmentModule: ShaderModule)
      ensures this.debugLabel == debugLabel
      ensures this.vertexModule == vertexModule && this.fragmentModule == fragmentModule
    {
      this.debugLabel := debugLabel;
      this.vertexModule := vertexModule;
      this.fragmentModule := fragmentModule;
    }
  }

  /** A GPUComputePipelineDescriptor, reduced to its label and its compute module. */
  class ComputePipelineDescriptor {
    var debugLabel: Option<string>
    var computeModule: ShaderModule

    constructor (debugLabel: Option<string>, computeModule: ShaderModule)
      ensures this.debugLabel == debugLabel && this.computeModule == computeModule
    {
      this.debugLabel := debugLabel;
      this.computeModule := computeModule;
    }
  }
}
