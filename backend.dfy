/** The graphics backend the core talks to, reduced to what the core can
    observe: every object the device creates is a value carrying a fresh
    handle id and the descriptor it was created from, and the surface and
    queue calls are recorded in order. */
module Backend {
  import opened Base

  datatype BufferUsage = VertexUsage | IndexUsage

  /** A buffer's contents as 4-byte words: `bytemuck::cast_slice` of a
      `Vertex` slice gives its floats, of an index slice its `u32`s. */
  datatype BufferData = Words(words: seq<F32>) | Indices(indices: seq<u32>)

  datatype Buffer = Buffer(id: nat, debugLabel: string, data: BufferData, usage: BufferUsage)

  datatype BindingResource = TextureView(view: nat) | Sampler(sampler: nat)

  datatype BindGroupEntry = BindGroupEntry(binding: nat, resource: BindingResource)

  datatype BindGroup = BindGroup(id: nat, debugLabel: Option<string>, layout: nat, entries: seq<BindGroupEntry>)

  /** A loaded texture: the texture object, its view and its sampler. */
  datatype Texture = Texture(texture: nat, view: nat, sampler: nat)

  /** The two bindings every texture bind group of the core has: the view at
      binding 0 and the sampler at binding 1. */
  function TextureEntries(t: Texture): (r: seq<BindGroupEntry>)
    ensures |r| == 2
    ensures r[0].binding == 0 && r[0].resource == TextureView(t.view)
    ensures r[1].binding == 1 && r[1].resource == Sampler(t.sampler)
  {
    [BindGroupEntry(0, TextureView(t.view)), BindGroupEntry(1, Sampler(t.sampler))]
  }

  datatype IndexFormat = Uint16 | Uint32

  /** `wgpu::Color`, four `f64` channels. */
  datatype Color = Color(r: F64, g: F64, b: F64, a: F64)

  /** What a render pass records. Buffers are bound with their full slice. */
  datatype RenderCommand =
    | BeginRenderPass(target: nat, clear: Color)
    | SetPipeline(pipeline: nat)
    | SetBindGroup(index: nat, group: BindGroup)
    | SetVertexBuffer(slot: nat, buffer: Buffer)
    | SetIndexBuffer(buffer: Buffer, format: IndexFormat)
    | DrawIndexed(firstIndex: u32, endIndex: u32, baseVertex: int, firstInstance: u32, endInstance: u32)
    | EndRenderPass

  datatype PhysicalSize = PhysicalSize(width: u32, height: u32)

  datatype TextureFormat = TextureFormat(code: nat, srgb: bool)
  datatype PresentMode = PresentMode(code: nat)
  datatype AlphaMode = AlphaMode(code: nat)
  datatype TextureUsage = RenderAttachment

  datatype SurfaceConfiguration = SurfaceConfiguration(
    usage: TextureUsage,
    format: TextureFormat,
    width: u32,
    height: u32,
    presentMode: PresentMode,
    alphaMode: AlphaMode,
    viewFormats: seq<TextureFormat>)

  /** Calls on the surface and the queue, in the order they are made. */
  datatype Call =
    | Configure(config: SurfaceConfiguration)
    | Submit(commands: seq<RenderCommand>)
    | Present(texture: nat)

  /** Device, queue and surface. `next` counts the objects created so far,
      so the next object gets handle `next`; `calls` is the call log. */
  class Gpu {
    var next: nat
    var calls: seq<Call>

    constructor ()
      ensures next == 0 && calls == []
    {
      next := 0;
      calls := [];
    }

    /** Creates one object and returns its handle. */
    method NewHandle() returns (id: nat)
      modifies this`next
      ensures id == old(next) && next == old(next) + 1
    {
      id := next;
      next := next + 1;
    }

    /** Creates `count` objects whose handles are `first`, `first + 1`, ...,
        as a `map`/`collect` over a sequence of descriptors does. */
    method Reserve(count: nat) returns (first: nat)
      modifies this`next
      ensures first == old(next) && next == old(next) + count
    {
      first := next;
      next := next + count;
    }

    method Record(c: Call)
      modifies this`calls
      ensures calls == old(calls) + [c]
    {
      calls := calls + [c];
    }
  }
}
