/** Shared vocabulary: optional values, the panics the core can raise, and the
    fixed-width scalar types of the Rust source. */
module Base {

  datatype Option<T> = None | Some(value: T) {
    /** Rust's `Option::unwrap_or`. */
    function GetOr(default: T): T {
      match this
      case Some(v) => v
      case None => default
    }
  }

  /** Which built resource a renderable was found to lack. */
  datatype Binding = Diffuse | TransformBind | VertexBuffer | IndexBuffer

  /** Why `Surface::get_current_texture` can fail. */
  datatype SurfaceError = Timeout | Outdated | Lost | OutOfMemory

  /** Every `unwrap`, `expect` and out-of-range index in the core ends the
      process; each way of doing so is one constructor. */
  datatype Panic =
    | ShaderFileUnreadable(path: string)
    | ShaderNotFound(name: string)
    | ModelFileUnreadable(path: string)
    | ModelMalformed(path: string)
    | MaterialLibraryFailed(path: string)
    | MaterialLibraryUnreadable(path: string)
    | TextureUnreadable(path: string)
    | TextureNotLoaded(path: string)
    | VertexIndexOutOfBounds(path: string)
    | BindingMissing(entity: nat, binding: Binding)
    | FrameUnavailable(error: SurfaceError)
    | NoSrgbFormat
    | NoPresentMode
    | NoAlphaMode

  datatype Result<T> = Ok(value: T) | Err(panic: Panic)

  newtype u32 = x: int | 0 <= x < 0x1_0000_0000

  /** Rust's `n as u32` on a length: keeps the low 32 bits. */
  function AsU32(n: nat): (r: u32)
    ensures n < 0x1_0000_0000 ==> r as int == n
    ensures r as int == n % 0x1_0000_0000
  {
    (n % 0x1_0000_0000) as u32
  }

  /** An `f32` by its IEEE-754 bit pattern; no float arithmetic is modelled. */
  type F32 = bv32

  /** An `f64` by its IEEE-754 bit pattern. */
  type F64 = bv64

  const F32_ZERO: F32 := 0x0000_0000
  const F32_ONE: F32 := 0x3F80_0000
}
