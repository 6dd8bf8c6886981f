/** Texture resources (src/texture.rs): the diffuse texture made from a decoded
    image and the depth target made from the surface configuration. A GPU
    texture is represented by the descriptors of the texture and the sampler
    it was created with; the default view carries no information of its own. */
module Texture {
  import opened Platform

  const DEPTH_FORMAT: TextureFormat := Depth32Float

  /** A texture, its default view and its sampler. */
  datatype Texture = Texture(descriptor: TextureDescriptor, sampler: SamplerDescriptor)

  /** A decoded image: its dimensions and its pixels as RGBA8 bytes, row by row. */
  datatype Image = Image(width: u32, height: u32, rgba: seq<u8>) {
    predicate Valid() { |rgba| == 4 * width as int * height as int }
  }

  /** `x.max(1)`. */
  function AtLeastOne(x: u32): (r: u32)
    ensures r >= 1 && r >= x
    ensures x >= 1 ==> r == x
  {
    if x < 1 then 1 else x
  }

  /** The extent of the depth target: the configured size with each side raised to at least one. */
  function DepthExtent(config: SurfaceConfiguration): (e: Extent3d)
    ensures e.width >= 1 && e.height >= 1 && e.depthOrArrayLayers == 1
    ensures config.width >= 1 ==> e.width == config.width
    ensures config.height >= 1 ==> e.height == config.height
    ensures config.width == 0 ==> e.width == 1
    ensures config.height == 0 ==> e.height == 1
  {
    Extent3d(AtLeastOne(config.width), AtLeastOne(config.height), 1)
  }

  /** `create_depth_texture`: a single-sample, single-mip 2D texture in the depth format, usable as
      render attachment and for sampling, with a less-or-equal comparison sampler. */
  function CreateDepthTexture(config: SurfaceConfiguration): (t: Texture)
    ensures t.descriptor.size == DepthExtent(config)
    ensures t.descriptor.format == DEPTH_FORMAT && t.descriptor.dimension == D2
    ensures t.descriptor.mipLevelCount == 1 && t.descriptor.sampleCount == 1
    ensures t.descriptor.usage == {RenderAttachment, TextureBinding}
    ensures t.sampler.compare == Some(LessEqual)
  {
    Texture(
      TextureDescriptor(DepthExtent(config), 1, 1, D2, DEPTH_FORMAT, {RenderAttachment, TextureBinding}, []),
      SamplerDescriptor(ClampToEdge, ClampToEdge, ClampToEdge, Linear, Linear, Nearest, 0.0, 100.0, Some(LessEqual)))
  }

  /** The data `from_image` hands to the GPU: the texture it creates and the one `write_texture` call. */
  datatype Upload = Upload(texture: Texture, data: seq<u8>, layout: TexelCopyBufferLayout, copySize: Extent3d)

  /** `from_image`: an sRGB RGBA8 texture exactly the image's size, filled by one copy
      of the whole image whose rows are four bytes per texel. The row pitch `4 * width`
      is u32 arithmetic in the source, hence the bound on the width. */
  function FromImage(img: Image): (u: Upload)
    requires 4 * img.width as int <= U32_MAX
    ensures u.texture.descriptor.size == Extent3d(img.width, img.height, 1)
    ensures u.texture.descriptor.format == Rgba8UnormSrgb && u.texture.descriptor.dimension == D2
    ensures u.texture.descriptor.mipLevelCount == 1 && u.texture.descriptor.sampleCount == 1
    ensures u.texture.descriptor.usage == {TextureBinding, CopyDst}
    ensures u.data == img.rgba
    ensures u.layout.offset == 0
    ensures u.layout.bytesPerRow == Some((4 * img.width as int) as u32)
    ensures u.layout.rowsPerImage == Some(img.height)
    ensures u.copySize == u.texture.descriptor.size
    ensures u.texture.sampler.compare == None
  {
    var size := Extent3d(img.width, img.height, 1);
    var descriptor := TextureDescriptor(size, 1, 1, D2, Rgba8UnormSrgb, {TextureBinding, CopyDst}, []);
    var sampler := DefaultSampler().(magFilter := Linear, minFilter := Nearest, mipmapFilter := Nearest);
    Upload(Texture(descriptor, sampler), img.rgba, TexelCopyBufferLayout(0, Some((4 * img.width) as u32), Some(img.height)), size)
  }

  /** The copy layout describes exactly the decoded pixel buffer: its rows times its row pitch
      is the buffer's length, and the copy covers the whole texture. */
  lemma UploadCoversImage(img: Image)
    requires 4 * img.width as int <= U32_MAX
    requires img.Valid()
    ensures var u := FromImage(img);
      u.layout.bytesPerRow.value as int * u.layout.rowsPerImage.value as int == |u.data|
      && u.copySize.width as int * u.copySize.height as int * 4 == |u.data|
  {
  }
}
