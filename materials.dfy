/** The process-wide material manager as the builders use it: the shared
    texture bind-group layout and the cache of loaded textures by path. */
module Materials {
  import opened Base
  import opened Backend

  datatype MaterialManager = MaterialManager(textureLayout: nat, cameraLayout: nat, textures: map<string, Texture>)

  /** A decoded image as the image loader returns it. */
  datatype Image = Image(width: u32, height: u32, rgba: seq<bv8>)

  /** Looking up a texture that was never loaded is fatal. */
  function GetTexture(m: MaterialManager, path: string): (r: Result<Texture>)
    ensures r.Ok? <==> path in m.textures
    ensures r.Ok? ==> r.value == m.textures[path]
    ensures r.Err? ==> r.panic == TextureNotLoaded(path)
  {
    if path in m.textures then Ok(m.textures[path]) else Err(TextureNotLoaded(path))
  }

  /** `add_texture_from_path` creates a texture, its view and its sampler, in
      that order, from the next three handles. */
  function LoadedTexture(next: nat): (t: Texture)
    ensures t.texture == next && t.view == next + 1 && t.sampler == next + 2
  {
    Texture(next, next + 1, next + 2)
  }

  /** `add_texture_from_path`: opening an image that is not there is fatal;
      otherwise the texture, its view and its sampler are created. The image
      upload itself is not observable here. */
  method AddTextureFromPath(path: string, images: map<string, Image>, gpu: Gpu) returns (r: Result<Texture>)
    modifies gpu`next
    ensures r.Ok? <==> path in images
    ensures r.Ok? ==> r.value == LoadedTexture(old(gpu.next)) && gpu.next == old(gpu.next) + 3
    ensures r.Err? ==> r.panic == TextureUnreadable(path) && gpu.next == old(gpu.next)
  {
    if path !in images {
      return Err(TextureUnreadable(path));
    }
    var texture := gpu.NewHandle();
    var view := gpu.NewHandle();
    var sampler := gpu.NewHandle();
    r := Ok(Texture(texture, view, sampler));
  }
}
