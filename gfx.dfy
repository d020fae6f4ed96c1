/**
 * The wgpu surface behind SISR's overlay window: how its first
 * configuration is chosen from the window size and the surface's
 * capabilities, and how a resize clamps the new size to the device's
 * texture limit.
 */
module Gfx {
  import opened Wrappers
  import Search

  /** Rust's `u32`. */
  type U32 = n: nat | n < 0x1_0000_0000

  function Min(a: nat, b: nat): nat {
    if a <= b then a else b
  }

  /** wgpu's `CompositeAlphaMode`. */
  datatype AlphaMode = Auto | Opaque | PreMultiplied | PostMultiplied | Inherit

  /** A texture format, identified by an opaque code, and whether it is an sRGB format. */
  datatype TextureFormat = TextureFormat(code: nat, srgb: bool)

  /** `PresentMode`: only the mode SISR asks for is distinguished. */
  datatype PresentMode = Fifo | OtherPresentMode

  /** What `get_capabilities` reports about the surface on the chosen adapter. */
  datatype Capabilities = Capabilities(alphaModes: seq<AlphaMode>, formats: seq<TextureFormat>)

  /** `SurfaceConfiguration`; the usage is always `RENDER_ATTACHMENT` and there are no view formats. */
  datatype SurfaceConfig = SurfaceConfig(
    format: TextureFormat,
    width: U32,
    height: U32,
    presentMode: PresentMode,
    alphaMode: AlphaMode,
    frameLatency: nat)

  const DesiredFrameLatency: nat := 2

  /** The alpha mode: PreMultiplied if offered, else PostMultiplied if offered, else Auto. */
  function ChooseAlpha(modes: seq<AlphaMode>): (r: AlphaMode)
    ensures r == PreMultiplied <==> PreMultiplied in modes
    ensures r == PostMultiplied <==> PreMultiplied !in modes && PostMultiplied in modes
    ensures r == Auto <==> PreMultiplied !in modes && PostMultiplied !in modes
  {
    if PreMultiplied in modes then PreMultiplied
    else if PostMultiplied in modes then PostMultiplied
    else Auto
  }

  /** The chosen alpha mode is one the surface offers, or the Auto fallback. */
  lemma ChosenAlphaOffered(modes: seq<AlphaMode>)
    ensures ChooseAlpha(modes) in modes || ChooseAlpha(modes) == Auto
    ensures ChooseAlpha(modes) != Auto ==> ChooseAlpha(modes) in modes
  {
  }

  predicate NotSrgb(f: TextureFormat) {
    !f.srgb
  }

  /**
   * The format: the first non-sRGB one listed, else the first listed. With
   * no formats at all the source's `formats[0]` panics: `None`.
   */
  function ChooseFormat(formats: seq<TextureFormat>): (r: Option<TextureFormat>)
    ensures r.None? <==> formats == []
    ensures r.Some? ==> r.value in formats
    ensures r.Some? && r.value.srgb ==> r.value == formats[0] && forall j :: 0 <= j < |formats| ==> formats[j].srgb
    ensures r.Some? && !r.value.srgb ==> exists i :: 0 <= i < |formats| && formats[i] == r.value && forall j :: 0 <= j < i ==> formats[j].srgb
  {
    if formats == [] then None
    else
      match Search.FirstWhere(formats, NotSrgb)
      case Some(i) => Some(formats[i])
      case None => Some(formats[0])
  }

  /** Any non-sRGB format beats every sRGB one, wherever it is listed. */
  lemma {:induction false} NonSrgbPreferred(formats: seq<TextureFormat>, k: nat)
    requires k < |formats| && !formats[k].srgb
    ensures ChooseFormat(formats).Some? && !ChooseFormat(formats).value.srgb
  {
    assert NotSrgb(formats[k]);
    assert Search.FirstWhere(formats, NotSrgb).Some?;
  }

  /** A window dimension as configured: never below 1. */
  function AtLeastOne(n: U32): (r: U32)
    ensures 1 <= r && n <= r
    ensures n != 0 ==> r == n
  {
    if n < 1 then 1 else n
  }

  /**
   * The configuration `Gfx::new` hands to `surface.configure`: the window's
   * inner size (at least 1 by 1), the chosen format and alpha mode, Fifo
   * presentation and a desired frame latency of 2.
   */
  function InitialConfig(innerWidth: U32, innerHeight: U32, caps: Capabilities): (r: Option<SurfaceConfig>)
    ensures r.None? <==> caps.formats == []
    ensures r.Some? ==> 1 <= r.value.width && 1 <= r.value.height
    ensures r.Some? ==> r.value.width == AtLeastOne(innerWidth) && r.value.height == AtLeastOne(innerHeight)
    ensures r.Some? ==> r.value.presentMode == Fifo && r.value.frameLatency == DesiredFrameLatency
    ensures r.Some? ==> r.value.alphaMode == ChooseAlpha(caps.alphaModes)
    ensures r.Some? ==> Some(r.value.format) == ChooseFormat(caps.formats)
  {
    match ChooseFormat(caps.formats)
    case None => None
    case Some(f) =>
      Some(SurfaceConfig(f, AtLeastOne(innerWidth), AtLeastOne(innerHeight), Fifo, ChooseAlpha(caps.alphaModes), DesiredFrameLatency))
  }

  /** The configuration after `resize(width, height)` on a device whose textures are at most `maxDim` wide. */
  function Resized(c: SurfaceConfig, width: U32, height: U32, maxDim: U32): (r: SurfaceConfig)
    ensures width == 0 || height == 0 ==> r == c
  {
    if width > 0 && height > 0 then c.(width := Min(width, maxDim), height := Min(height, maxDim)) else c
  }

  /**
   * A resize to a non-empty size yields exactly the requested size where it
   * fits the texture limit and the limit where it does not; nothing else in
   * the configuration changes.
   */
  lemma ResizeClamps(c: SurfaceConfig, width: U32, height: U32, maxDim: U32)
    requires width > 0 && height > 0
    ensures Resized(c, width, height, maxDim).width <= maxDim && Resized(c, width, height, maxDim).height <= maxDim
    ensures width <= maxDim <==> Resized(c, width, height, maxDim).width == width
    ensures height <= maxDim <==> Resized(c, width, height, maxDim).height == height
    ensures width > maxDim ==> Resized(c, width, height, maxDim).width == maxDim
    ensures height > maxDim ==> Resized(c, width, height, maxDim).height == maxDim
    ensures Resized(c, width, height, maxDim).(width := c.width, height := c.height) == c
  {
  }

  /** Resizing twice to the same size is resizing once. */
  lemma ResizeIdempotent(c: SurfaceConfig, width: U32, height: U32, maxDim: U32)
    ensures Resized(Resized(c, width, height, maxDim), width, height, maxDim) == Resized(c, width, height, maxDim)
  {
  }

  /** Only the last non-empty resize matters. */
  lemma ResizeLastWins(c: SurfaceConfig, w1: U32, h1: U32, w2: U32, h2: U32, maxDim: U32)
    requires w2 > 0 && h2 > 0
    ensures Resized(Resized(c, w1, h1, maxDim), w2, h2, maxDim) == Resized(c, w2, h2, maxDim)
  {
  }

  /** `Gfx`: the surface configuration, the device's texture limit and every configuration applied to the surface. */
  class Surface {
    var config: SurfaceConfig
    const maxTextureDimension: U32
    /** Each configuration passed to `surface.configure`, oldest first. */
    var configured: seq<SurfaceConfig>

    /** The surface always has a non-empty size, and its current configuration is the one last applied. */
    predicate Valid()
      reads this
    {
      1 <= config.width && 1 <= config.height && configured != [] && configured[|configured| - 1] == config
    }

    /**
     * `Gfx::new` once the surface, adapter and device exist: configures the
     * surface once. The source indexes the format list unchecked, so it must
     * not be empty.
     */
    constructor (innerWidth: U32, innerHeight: U32, caps: Capabilities, maxDim: U32)
      requires caps.formats != []
      ensures InitialConfig(innerWidth, innerHeight, caps) == Some(config)
      ensures maxTextureDimension == maxDim && configured == [config]
      ensures Valid()
    {
      config := InitialConfig(innerWidth, innerHeight, caps).value;
      maxTextureDimension := maxDim;
      configured := [config];
    }

    /** `resize`: an empty size is ignored; otherwise each side is clamped to the limit and the surface reconfigured. */
    method Resize(width: U32, height: U32)
      requires Valid()
      modifies this
      ensures config == Resized(old(config), width, height, maxTextureDimension)
      ensures configured == old(configured) + if width > 0 && height > 0 then [config] else []
      ensures 1 <= maxTextureDimension ==> Valid()
    {
      if width > 0 && height > 0 {
        config := config.(width := Min(width, maxTextureDimension), height := Min(height, maxTextureDimension));
        configured := configured + [config];
      }
    }
  }
}
