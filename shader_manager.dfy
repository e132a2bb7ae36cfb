/** shader_manager.rs: a registry of render pipelines by name. Adding a
    shader reads `<name>.wgsl`, creates the shader module, an empty pipeline
    layout and the pipeline, and inserts them under the name, replacing any
    earlier entry; looking up a name that was never added is fatal. */
module Shaders {
  import opened Base
  import opened Backend
  import opened Components

  datatype ShaderModule = ShaderModule(id: nat, debugLabel: string, source: string)

  datatype PipelineLayout = PipelineLayout(id: nat, debugLabel: string, bindGroupLayouts: seq<nat>)

  datatype BlendState = Replace
  datatype Topology = TriangleList
  datatype FrontFace = Ccw
  datatype Face = Back
  datatype PolygonMode = Fill

  /** The parts of `RenderPipelineDescriptor` the code sets. */
  datatype RenderPipeline = RenderPipeline(
    id: nat,
    debugLabel: string,
    layout: nat,
    shaderModule: nat,
    vertexEntry: string,
    buffers: seq<VertexBufferLayout>,
    fragmentEntry: string,
    targetFormat: TextureFormat,
    blend: BlendState,
    topology: Topology,
    frontFace: FrontFace,
    cullMode: Option<Face>,
    polygonMode: PolygonMode,
    sampleCount: nat)

  datatype ShaderInfo = ShaderInfo(shader: ShaderModule, layout: PipelineLayout, pipeline: RenderPipeline)

  /** `format!("{name}.wgsl")`. */
  function ShaderFile(name: string): (f: string)
    ensures |f| == |name| + 5 && f[..|name|] == name && f[|name|..] == ".wgsl"
  {
    name + ".wgsl"
  }

  /** Distinct shader names read distinct files. */
  lemma ShaderFileInjective(a: string, b: string)
    ensures ShaderFile(a) == ShaderFile(b) ==> a == b
  {
    if ShaderFile(a) == ShaderFile(b) {
      assert a == ShaderFile(a)[..|a|];
    }
  }

  /** The three objects lines 33-84 create from the next three handles. */
  function ShaderInfoFor(name: string, source: string, config: SurfaceConfiguration, next: nat): ShaderInfo {
    var shader := ShaderModule(next, name, source);
    var layout := PipelineLayout(next + 1, name + " Layout", []);
    var pipeline := RenderPipeline(
      next + 2, name + " Pipeline", layout.id, shader.id,
      "vs_main", [Descriptor()], "fs_main", config.format,
      Replace, TriangleList, Ccw, Some(Back), Fill, 1);
    ShaderInfo(shader, layout, pipeline)
  }

  /** The pipeline is wired to the module and layout created with it, draws
      with the vertex layout of `Vertex` into the surface's format, and the
      three objects have distinct handles. */
  lemma ShaderInfoWired(name: string, source: string, config: SurfaceConfiguration, next: nat)
    ensures var s := ShaderInfoFor(name, source, config, next);
      s.pipeline.shaderModule == s.shader.id && s.pipeline.layout == s.layout.id &&
      s.shader.id != s.layout.id && s.layout.id != s.pipeline.id && s.shader.id != s.pipeline.id &&
      s.shader.source == source && s.layout.bindGroupLayouts == [] &&
      s.pipeline.buffers == [Descriptor()] && s.pipeline.targetFormat == config.format &&
      s.pipeline.buffers[0].arrayStride == VERTEX_SIZE
  {
  }

  /** `get_shader` on the registry's contents. */
  function Find(shaders: map<string, ShaderInfo>, name: string): (r: Result<ShaderInfo>)
    ensures r.Ok? <==> name in shaders
    ensures r.Ok? ==> r.value == shaders[name]
    ensures r.Err? ==> r.panic == ShaderNotFound(name)
  {
    if name in shaders then Ok(shaders[name]) else Err(ShaderNotFound(name))
  }

  /** The registry after `insert(name, info)`. */
  function Register(shaders: map<string, ShaderInfo>, name: string, info: ShaderInfo): map<string, ShaderInfo> {
    shaders[name := info]
  }

  /** After adding `name` the lookup of `name` yields the entry just added,
      whatever was there before. */
  lemma FindRegistered(shaders: map<string, ShaderInfo>, name: string, info: ShaderInfo)
    ensures Find(Register(shaders, name, info), name) == Ok(info)
  {
  }

  /** Adding `name` does not change the lookup of any other name. */
  lemma FindOther(shaders: map<string, ShaderInfo>, name: string, other: string, info: ShaderInfo)
    requires other != name
    ensures Find(Register(shaders, name, info), other) == Find(shaders, other)
  {
  }

  /** Re-adding a name replaces the earlier entry: the first registration
      leaves no trace. */
  lemma RegisterReplaces(shaders: map<string, ShaderInfo>, name: string, first: ShaderInfo, second: ShaderInfo)
    ensures Register(Register(shaders, name, first), name, second) == Register(shaders, name, second)
  {
  }

  class ShaderManager {
    var shaders: map<string, ShaderInfo>

    /** `ShaderManager::new`: no shaders. */
    constructor ()
      ensures shaders == map[]
      ensures forall name :: Find(shaders, name) == Err(ShaderNotFound(name))
    {
      shaders := map[];
    }

    /** `add_shader`. `files` holds the readable files by path; a missing
        shader file is fatal and nothing is created or registered. */
    method AddShader(name: string, files: map<string, string>, config: SurfaceConfiguration, gpu: Gpu)
      returns (failure: Option<Panic>)
      modifies this, gpu`next
      ensures failure.Some? <==> ShaderFile(name) !in files
      ensures failure.Some? ==>
        failure.value == ShaderFileUnreadable(ShaderFile(name)) &&
        shaders == old(shaders) && gpu.next == old(gpu.next)
      ensures failure.None? ==>
        shaders == Register(old(shaders), name, ShaderInfoFor(name, files[ShaderFile(name)], config, old(gpu.next))) &&
        gpu.next == old(gpu.next) + 3
    {
      var file := ShaderFile(name);
      if file !in files {
        return Some(ShaderFileUnreadable(file));
      }
      var source := files[file];
      var shader := gpu.NewHandle();
      var layout := gpu.NewHandle();
      var pipeline := gpu.NewHandle();
      var info := ShaderInfoFor(name, source, config, shader);
      shaders := shaders[name := info];
      failure := None;
    }

    /** `get_shader`. */
    function GetShader(name: string): (r: Result<ShaderInfo>)
      reads this
      ensures r == Find(shaders, name)
    {
      Find(shaders, name)
    }
  }
}
