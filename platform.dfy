/** The values the renderer exchanges with its two libraries: winit (window,
    keyboard and event loop) and wgpu (surface, textures, samplers). Only the
    parts that the core inspects or produces are modelled; GPU objects
    themselves are represented by the descriptors they are created from. */
module Platform {

  newtype u8 = x: int | 0 <= x < 0x100
  newtype u16 = x: int | 0 <= x < 0x1_0000
  newtype u32 = x: int | 0 <= x < 0x1_0000_0000

  const U32_MAX: int := 0xFFFF_FFFF

  datatype Option<+T> = None | Some(value: T)

  // ---------------------------------------------------------------- winit

  /** A window size in physical pixels. */
  datatype PhysicalSize = PhysicalSize(width: u32, height: u32)

  /** The physical key codes the program distinguishes; every other code is `OtherKey`. */
  datatype KeyCode =
    | KeyW | KeyA | KeyS | KeyD | KeyE | KeyF
    | ArrowUp | ArrowDown | ArrowLeft | ArrowRight
    | Space | ShiftLeft | ShiftRight | Escape
    | OtherKey(id: nat)

  datatype PhysicalKey = Code(code: KeyCode) | Unidentified

  datatype ElementState = Pressed | Released {
    predicate IsPressed() { Pressed? }
  }

  /** The window events the application receives; `OtherEvent` stands for the rest (focus, cursor, ...). */
  datatype WindowEvent =
    | CloseRequested
    | Resized(size: PhysicalSize)
    | RedrawRequested
    | KeyboardInput(physicalKey: PhysicalKey, state: ElementState)
    | OtherEvent(id: nat)

  /** Borderless fullscreen on the current monitor (`Fullscreen::Borderless(None)`). */
  datatype Fullscreen = Borderless

  // ----------------------------------------------------------------- wgpu

  datatype TextureFormat =
    | Rgba8Unorm | Rgba8UnormSrgb | Bgra8Unorm | Bgra8UnormSrgb
    | Rgba16Float | Rgb10a2Unorm | Depth32Float
  {
    /** wgpu's `is_srgb`: the format has an sRGB transfer function. */
    predicate IsSrgb() { Rgba8UnormSrgb? || Bgra8UnormSrgb? }
  }

  datatype TextureUsage = CopySrc | CopyDst | TextureBinding | StorageBinding | RenderAttachment
  datatype TextureDimension = D1 | D2 | D3
  datatype PresentMode = AutoVsync | AutoNoVsync | Fifo | FifoRelaxed | Immediate | Mailbox
  datatype CompositeAlphaMode = Auto | Opaque | PreMultiplied | PostMultiplied | Inherit

  /** What a surface supports on the chosen adapter, each list in the adapter's order of preference. */
  datatype SurfaceCapabilities = SurfaceCapabilities(
    formats: seq<TextureFormat>,
    presentModes: seq<PresentMode>,
    alphaModes: seq<CompositeAlphaMode>)

  datatype SurfaceConfiguration = SurfaceConfiguration(
    usage: set<TextureUsage>,
    format: TextureFormat,
    width: u32,
    height: u32,
    presentMode: PresentMode,
    alphaMode: CompositeAlphaMode,
    viewFormats: seq<TextureFormat>,
    desiredMaximumFrameLatency: u32)

  /** Why the next surface texture could not be acquired. */
  datatype SurfaceError = Timeout | Outdated | Lost | OutOfMemory | Other

  /** `Result<(), SurfaceError>`. */
  datatype SurfaceResult = Ok | Err(error: SurfaceError)

  datatype Extent3d = Extent3d(width: u32, height: u32, depthOrArrayLayers: u32)

  datatype TextureDescriptor = TextureDescriptor(
    size: Extent3d,
    mipLevelCount: u32,
    sampleCount: u32,
    dimension: TextureDimension,
    format: TextureFormat,
    usage: set<TextureUsage>,
    viewFormats: seq<TextureFormat>)

  datatype AddressMode = ClampToEdge | Repeat | MirrorRepeat | ClampToBorder
  datatype FilterMode = Nearest | Linear
  datatype CompareFunction = Never | Less | Equal | LessEqual | Greater | NotEqual | GreaterEqual | Always

  datatype SamplerDescriptor = SamplerDescriptor(
    addressModeU: AddressMode,
    addressModeV: AddressMode,
    addressModeW: AddressMode,
    magFilter: FilterMode,
    minFilter: FilterMode,
    mipmapFilter: FilterMode,
    lodMinClamp: real,
    lodMaxClamp: real,
    compare: Option<CompareFunction>)

  /** `SamplerDescriptor::default()`: clamp to edge, nearest filtering, LOD range 0..32, no comparison. */
  function DefaultSampler(): SamplerDescriptor {
    SamplerDescriptor(ClampToEdge, ClampToEdge, ClampToEdge, Nearest, Nearest, Nearest, 0.0, 32.0, None)
  }

  /** How texel data is laid out in the buffer handed to `write_texture`. */
  datatype TexelCopyBufferLayout = TexelCopyBufferLayout(offset: nat, bytesPerRow: Option<u32>, rowsPerImage: Option<u32>)

  datatype Color = Color(r: real, g: real, b: real, a: real)

  const BLACK: Color := Color(0.0, 0.0, 0.0, 1.0)

  datatype IndexFormat = Uint16 | Uint32
}
