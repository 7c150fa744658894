/** The swapchain: negotiation of the presentation queue, colour format and
    swapchain parameters with the surface, replacement of an old chain, the
    per-image views, the shared depth image and the framebuffers. */
module VulkanSwapChain {
  import opened Wrappers
  import opened Vk
  import opened VulkanDevice

  /** One entry of vkGetPhysicalDeviceSurfaceFormatsKHR. */
  datatype SurfaceFormat = SurfaceFormat(format: int, colorSpace: int)

  /** The fields of VkSurfaceCapabilitiesKHR the library reads. */
  datatype SurfaceCaps = SurfaceCaps(
    minImageCount: nat,
    maxImageCount: nat,
    currentTransform: bv32,
    supportedTransforms: bv32,
    supportedCompositeAlpha: bv32,
    supportedUsageFlags: bv32)

  /** A swapchain image and its colour view. */
  datatype SwapChainBuffer = SwapChainBuffer(image: Handle, view: Handle)

  /** The depth attachment shared by every framebuffer. */
  datatype DepthImage = DepthImage(image: Handle, view: Handle, mem: Handle)

  const NullDepth := DepthImage(NullHandle, NullHandle, NullHandle)

  // ---------------------------------------------------------------------------
  // Negotiation
  // ---------------------------------------------------------------------------

  predicate Graphics(fams: seq<QueueFamily>, i: int)
  {
    0 <= i < |fams| && Any(fams[i].queueFlags, QueueGraphics)
  }

  predicate Presents(supportsPresent: seq<bool>, i: int)
  {
    0 <= i < |supportsPresent| && supportsPresent[i]
  }

  /** The queue-family choice of `set_surface`: the first graphics family
      found to present wins; otherwise the first graphics family and the first
      presenting family are noted, and the call fails, because either is
      missing or because they differ. */
  method ChoosePresentQueue(fams: seq<QueueFamily>, supportsPresent: seq<bool>) returns (r: Result<nat>)
    requires |supportsPresent| == |fams|
    ensures r.Ok? ==> Graphics(fams, r.value) && Presents(supportsPresent, r.value)
    ensures r.Ok? ==> forall j :: 0 <= j < r.value ==> !(Graphics(fams, j) && Presents(supportsPresent, j))
    ensures r.Ok? <==> exists j :: Graphics(fams, j) && Presents(supportsPresent, j)
    ensures r == Err(NoGraphicsOrPresentQueue) <==>
              (forall j :: !Graphics(fams, j)) || (forall j :: !Presents(supportsPresent, j))
    ensures r.Err? ==> r.error == NoGraphicsOrPresentQueue || r.error == SeparatePresentQueue
  {
    var graphicIndex: Option<nat> := None;
    var presentIndex: Option<nat> := None;
    var i := 0;
    while i < |supportsPresent|
      invariant 0 <= i <= |supportsPresent|
      invariant forall j :: 0 <= j < i ==> !(Graphics(fams, j) && Presents(supportsPresent, j))
      invariant graphicIndex.None? ==> forall j :: 0 <= j < i ==> !Graphics(fams, j)
      invariant graphicIndex.Some? ==> Graphics(fams, graphicIndex.value) && graphicIndex.value < i
      invariant presentIndex.None?
    {
      if Any(fams[i].queueFlags, QueueGraphics) {
        if graphicIndex.None? {
          graphicIndex := Some(i);
        }
        if supportsPresent[i] {
          graphicIndex := Some(i);
          presentIndex := Some(i);
          break;
        }
      }
      i := i + 1;
    }
    if presentIndex.None? {
      var k := 0;
      while k < |supportsPresent|
        invariant 0 <= k <= |supportsPresent|
        invariant forall j :: 0 <= j < k ==> !Presents(supportsPresent, j)
      {
        if supportsPresent[k] {
          presentIndex := Some(k);
          break;
        }
        k := k + 1;
      }
      if presentIndex.Some? {
        assert Presents(supportsPresent, presentIndex.value);
      }
    }
    if graphicIndex.None? || presentIndex.None? {
      return Err(NoGraphicsOrPresentQueue);
    }
    if graphicIndex.value != presentIndex.value {
      assert Graphics(fams, graphicIndex.value) && Presents(supportsPresent, presentIndex.value);
      return Err(SeparatePresentQueue);
    }
    assert Graphics(fams, graphicIndex.value) && Presents(supportsPresent, presentIndex.value);
    return Ok(graphicIndex.value);
  }

  /** The colour-format choice of `set_surface`. A surface reporting one
      undefined format takes B8G8R8A8_UNORM and keeps the colour space it had;
      otherwise the first B8G8R8A8_UNORM entry is taken, and failing that the
      first entry. */
  method ChooseColorFormat(formats: seq<SurfaceFormat>, oldSpace: int) returns (format: int, space: int)
    requires |formats| > 0
    ensures |formats| == 1 && formats[0].format == FormatUndefined ==>
              format == FormatB8G8R8A8Unorm && space == oldSpace
    ensures !(|formats| == 1 && formats[0].format == FormatUndefined) &&
            (exists j :: 0 <= j < |formats| && formats[j].format == FormatB8G8R8A8Unorm) ==>
              exists k :: 0 <= k < |formats| && formats[k] == SurfaceFormat(format, space) &&
                format == FormatB8G8R8A8Unorm &&
                forall j :: 0 <= j < k ==> formats[j].format != FormatB8G8R8A8Unorm
    ensures (forall j :: 0 <= j < |formats| ==> formats[j].format != FormatB8G8R8A8Unorm) &&
            !(|formats| == 1 && formats[0].format == FormatUndefined) ==>
              SurfaceFormat(format, space) == formats[0]
  {
    if |formats| == 1 && formats[0].format == FormatUndefined {
      return FormatB8G8R8A8Unorm, oldSpace;
    }
    format, space := FormatUndefined, oldSpace;
    var i := 0;
    while i < |formats|
      invariant 0 <= i <= |formats|
      invariant forall j :: 0 <= j < i ==> formats[j].format != FormatB8G8R8A8Unorm
      invariant format == FormatUndefined
    {
      if formats[i].format == FormatB8G8R8A8Unorm {
        format, space := formats[i].format, formats[i].colorSpace;
        return;
      }
      i := i + 1;
    }
    format, space := formats[0].format, formats[0].colorSpace;
  }

  /** The present mode `realize` asks for: FIFO under vsync; otherwise
      MAILBOX when the surface lists it, else IMMEDIATE when listed, else
      FIFO (the one mode every surface supports). */
  function PresentModeFor(vsync: bool, modes: seq<int>): (m: int)
    ensures vsync ==> m == PresentFifo
    ensures !vsync ==> (m == PresentMailbox <==> PresentMailbox in modes)
    ensures !vsync ==> (m == PresentImmediate <==> PresentMailbox !in modes && PresentImmediate in modes)
    ensures m == PresentFifo || m in modes
  {
    if vsync then PresentFifo
    else if PresentMailbox in modes then PresentMailbox
    else if PresentImmediate in modes then PresentImmediate
    else PresentFifo
  }

  /** The present-mode loop of `realize`: MAILBOX stops the scan, IMMEDIATE
      is noted and the scan goes on. */
  method ChoosePresentMode(vsync: bool, modes: seq<int>) returns (m: int)
    ensures m == PresentModeFor(vsync, modes)
  {
    m := PresentFifo;
    if !vsync {
      var i := 0;
      while i < |modes|
        invariant 0 <= i <= |modes|
        invariant PresentMailbox !in modes[..i]
        invariant m == if PresentImmediate in modes[..i] then PresentImmediate else PresentFifo
      {
        if modes[i] == PresentMailbox {
          m := PresentMailbox;
          return;
        }
        if modes[i] == PresentImmediate {
          m := PresentImmediate;
        }
        assert modes[..i + 1] == modes[..i] + [modes[i]];
        i := i + 1;
      }
      assert modes[..i] == modes;
    }
  }

  /** `minImageCount + 1` in 32-bit arithmetic, lowered to the maximum when
      the surface has one. */
  function DesiredImageCount(caps: SurfaceCaps): (n: nat)
    requires caps.minImageCount < U32Modulus && caps.maxImageCount < U32Modulus
    ensures n < U32Modulus
    ensures caps.maxImageCount > 0 ==> n <= caps.maxImageCount
    ensures caps.minImageCount + 1 < U32Modulus && (caps.maxImageCount == 0 || caps.minImageCount < caps.maxImageCount) ==>
              n == caps.minImageCount + 1
    ensures caps.minImageCount + 1 == U32Modulus ==> n == 0
    ensures caps.maxImageCount > 0 && (caps.minImageCount + 1) % U32Modulus > caps.maxImageCount ==>
              n == caps.maxImageCount
    ensures !(caps.maxImageCount > 0 && (caps.minImageCount + 1) % U32Modulus > caps.maxImageCount) ==>
              n == (caps.minImageCount + 1) % U32Modulus
  {
    var desired := (caps.minImageCount + 1) % U32Modulus;
    if caps.maxImageCount > 0 && desired > caps.maxImageCount then caps.maxImageCount else desired
  }

  /** IDENTITY when the surface supports it, else the current transform. */
  function PreTransform(caps: SurfaceCaps): (t: bv32)
    ensures Any(caps.supportedTransforms, TransformIdentity) ==> t == TransformIdentity
    ensures !Any(caps.supportedTransforms, TransformIdentity) ==> t == caps.currentTransform
  {
    if Any(caps.supportedTransforms, TransformIdentity) then TransformIdentity else caps.currentTransform
  }

  /** The composite-alpha modes in the order `realize` tries them. */
  const AlphaCandidates: seq<bv32> := [AlphaOpaque, AlphaPreMultiplied, AlphaPostMultiplied, AlphaInherit]

  /** The composite-alpha mode `realize` asks for: the first supported
      candidate, OPAQUE when none is supported. */
  function CompositeAlphaFor(supported: bv32): (a: bv32)
    ensures a in AlphaCandidates
    ensures Any(supported, a) || (a == AlphaOpaque && forall c :: c in AlphaCandidates ==> !Any(supported, c))
    ensures forall k :: 0 <= k < |AlphaCandidates| && AlphaCandidates[k] == a ==>
              forall j :: 0 <= j < k ==> !Any(supported, AlphaCandidates[j])
  {
    if Any(supported, AlphaOpaque) then AlphaOpaque
    else if Any(supported, AlphaPreMultiplied) then AlphaPreMultiplied
    else if Any(supported, AlphaPostMultiplied) then AlphaPostMultiplied
    else if Any(supported, AlphaInherit) then AlphaInherit
    else AlphaOpaque
  }

  /** The composite-alpha loop of `realize`. */
  method ChooseCompositeAlpha(supported: bv32) returns (a: bv32)
    ensures a == CompositeAlphaFor(supported)
  {
    a := AlphaOpaque;
    var i := 0;
    while i < |AlphaCandidates|
      invariant 0 <= i <= |AlphaCandidates|
      invariant forall j :: 0 <= j < i ==> !Any(supported, AlphaCandidates[j])
    {
      if Any(supported, AlphaCandidates[i]) {
        a := AlphaCandidates[i];
        return;
      }
      i := i + 1;
    }
  }

  /** Colour attachment always, plus transfer source and destination exactly
      when the surface supports them. */
  function ImageUsage(supportedUsage: bv32): (u: bv32)
    ensures Any(u, ImageColorAttachment)
    ensures Any(u, ImageTransferSrc) <==> Any(supportedUsage, ImageTransferSrc)
    ensures Any(u, ImageTransferDst) <==> Any(supportedUsage, ImageTransferDst)
    ensures u & !(ImageColorAttachment | ImageTransferSrc | ImageTransferDst) == 0
  {
    ImageColorAttachment
    | (if Any(supportedUsage, ImageTransferSrc) then ImageTransferSrc else 0)
    | (if Any(supportedUsage, ImageTransferDst) then ImageTransferDst else 0)
  }

  /** The depth formats with a stencil component. */
  predicate HasStencil(format: int)
  {
    format == FormatD16UnormS8Uint || format == FormatD24UnormS8Uint || format == FormatD32SfloatS8Uint
  }

  /** The view aspect of the depth image: depth, plus stencil for the formats
      numbered from D16_UNORM_S8_UINT on. For every format the device can pick
      as depth format, and for the default one, that is stencil exactly when
      the format has a stencil component. */
  function DepthAspect(format: int): (a: bv32)
    ensures Any(a, AspectDepth)
    ensures format in DepthCandidates || format == FormatD24UnormS8Uint ==>
              (Any(a, AspectStencil) <==> HasStencil(format))
  {
    if format >= FormatD16UnormS8Uint then AspectDepth | AspectStencil else AspectDepth
  }

  /** The driver calls that destroy the views of `bufs`, in order. */
  function DestroyViewCalls(bufs: seq<SwapChainBuffer>): (r: seq<Call>)
    ensures |r| == |bufs| && forall i :: 0 <= i < |bufs| ==> r[i] == DestroyImageView(bufs[i].view)
  {
    seq(|bufs|, i requires 0 <= i < |bufs| => DestroyImageView(bufs[i].view))
  }

  /** The driver calls that create a colour view for each of `bufs`. */
  function ColorViewCalls(bufs: seq<SwapChainBuffer>, format: int): (r: seq<Call>)
    ensures |r| == |bufs| && forall i :: 0 <= i < |bufs| ==> r[i] == CreateImageView(bufs[i].view, bufs[i].image, format, AspectColor)
  {
    seq(|bufs|, i requires 0 <= i < |bufs| => CreateImageView(bufs[i].view, bufs[i].image, format, AspectColor))
  }

  /** One more colour view extends the log by its creation call. */
  lemma ColorViewStep(log: seq<Call>, bufs: seq<SwapChainBuffer>, b: SwapChainBuffer, format: int)
    ensures log + ColorViewCalls(bufs + [b], format)
         == log + ColorViewCalls(bufs, format) + [CreateImageView(b.view, b.image, format, AspectColor)]
  {
    assert ColorViewCalls(bufs + [b], format) == ColorViewCalls(bufs, format) + [CreateImageView(b.view, b.image, format, AspectColor)];
  }

  /** The driver calls that create one framebuffer per colour view, each with
      the colour view as attachment 0 and the shared depth view as attachment 1. */
  function FramebufferCalls(fbs: seq<Handle>, bufs: seq<SwapChainBuffer>, renderPass: Handle, depthView: Handle,
                            width: nat, height: nat): (r: seq<Call>)
    requires |fbs| <= |bufs|
    ensures |r| == |fbs|
    ensures forall i :: 0 <= i < |fbs| ==>
              r[i] == CreateFramebuffer(fbs[i], renderPass, [bufs[i].view, depthView], width, height)
  {
    seq(|fbs|, i requires 0 <= i < |fbs| => CreateFramebuffer(fbs[i], renderPass, [bufs[i].view, depthView], width, height))
  }

  /** The create-info `realize` passes to vkCreateSwapchainKHR: FIFO under
      vsync and otherwise a mode the surface offers, no more images than the
      surface allows, colour-attachment usage, an identity transform when the
      surface supports one, and a composite-alpha mode from the candidates. */
  function ChainInfo(surface: Handle, format: int, space: int, width: nat, height: nat, vsync: bool,
                     caps: SurfaceCaps, modes: seq<int>, oldChain: Handle): (info: SwapchainCreateInfo)
    requires caps.minImageCount < U32Modulus && caps.maxImageCount < U32Modulus
    ensures info.surface == surface && info.oldSwapchain == oldChain
    ensures info.imageFormat == format && info.imageColorSpace == space
    ensures info.width == width && info.height == height
    ensures vsync ==> info.presentMode == PresentFifo
    ensures info.presentMode == PresentFifo || info.presentMode in modes
    ensures info.minImageCount < U32Modulus
    ensures caps.maxImageCount > 0 ==> info.minImageCount <= caps.maxImageCount
    ensures Any(info.imageUsage, ImageColorAttachment)
    ensures Any(caps.supportedTransforms, TransformIdentity) ==> info.preTransform == TransformIdentity
    ensures info.compositeAlpha in AlphaCandidates
  {
    SwapchainCreateInfo(surface, DesiredImageCount(caps), format, space, width, height,
                        ImageUsage(caps.supportedUsageFlags), PreTransform(caps), PresentModeFor(vsync, modes),
                        oldChain, CompositeAlphaFor(caps.supportedCompositeAlpha))
  }

  /** The calls of `create_depth_image` once memory type `t` is found: the
      image, its memory, the binding, and a view whose aspect follows the
      format. */
  function DepthCalls(d: DepthImage, format: int, width: nat, height: nat, t: nat): seq<Call>
  {
    [CreateImage(d.image, format, width, height), AllocateMemory(d.mem, t, false),
     BindImageMemory(d.image, d.mem), CreateImageView(d.view, d.image, format, DepthAspect(format))]
  }

  /** The calls that retire the previous chain, none when there was none:
      each old view, then the old chain itself. */
  function RetireCalls(oldChain: Handle, bufs: seq<SwapChainBuffer>): (r: seq<Call>)
    ensures oldChain == NullHandle ==> r == []
    ensures oldChain != NullHandle ==>
              |r| == |bufs| + 1 && r[|bufs|] == DestroySwapchain(oldChain) && r[..|bufs|] == DestroyViewCalls(bufs)
  {
    if oldChain != NullHandle then DestroyViewCalls(bufs) + [DestroySwapchain(oldChain)] else []
  }

  // ---------------------------------------------------------------------------
  // The swapchain object
  // ---------------------------------------------------------------------------

  /** A VulkanSwapChain bound to one device. */
  class SwapChain {
    const device: Device
    var surface: Handle
    var queueIndex: nat
    var colorFormat: int
    var colorSpace: int
    var depthFormat: int
    var swapChain: Handle
    var width: nat
    var height: nat
    var images: seq<Handle>
    var buffers: seq<SwapChainBuffer>

    /** The buffers pair up with the images. */
    ghost predicate Valid()
      reads this, device
    {
      device.Valid() && |buffers| == |images| &&
      forall i :: 0 <= i < |buffers| ==> buffers[i].image == images[i]
    }

    function ImageCount(): nat
      reads this
    {
      |images|
    }

    /** The calls of a `realize` that replaced chain `oldChain` and its
        colour images `oldBuffers`, in terms of the chain it left. */
    ghost function RealizeCalls(vsync: bool, caps: SurfaceCaps, modes: seq<int>, oldChain: Handle,
                                oldBuffers: seq<SwapChainBuffer>): seq<Call>
      reads this
      requires caps.minImageCount < U32Modulus && caps.maxImageCount < U32Modulus
    {
      [DeviceWaitIdle, CreateSwapchain(swapChain, ChainInfo(surface, colorFormat, colorSpace, width, height, vsync, caps, modes, oldChain))]
      + RetireCalls(oldChain, oldBuffers)
      + [GetSwapchainImages(swapChain, images)]
      + ColorViewCalls(buffers, colorFormat)
    }

    constructor(device: Device)
      requires device.Valid()
      ensures Valid() && this.device == device
      ensures surface == NullHandle && queueIndex == U32Modulus - 1 && depthFormat == FormatD24UnormS8Uint
      ensures swapChain == NullHandle && width == 0 && height == 0 && images == [] && buffers == []
    {
      this.device := device;
      surface := NullHandle;
      queueIndex := U32Modulus - 1;
      colorFormat, colorSpace := FormatUndefined, 0;
      depthFormat := FormatD24UnormS8Uint;
      swapChain := NullHandle;
      width, height := 0, 0;
      images, buffers := [], [];
    }

    /** `set_surface`: the first queue family with graphics and present
        support, and the first B8G8R8A8_UNORM surface format, else the
        first format; a lone UNDEFINED format means any format will do and
        gives B8G8R8A8_UNORM. `supportsPresent` and `formats` are the
        driver's answers for this surface. The surface is recorded even when
        no suitable queue family exists. */
    method SetSurface(surface: Handle, supportsPresent: seq<bool>, formats: seq<SurfaceFormat>) returns (r: Result<()>)
      requires Valid() && |supportsPresent| == |device.queueFamilies| && |formats| > 0
      modifies this`surface, this`queueIndex, this`colorFormat, this`colorSpace
      ensures Valid() && this.surface == surface
      ensures r.Ok? <==> exists j :: Graphics(device.queueFamilies, j) && Presents(supportsPresent, j)
      ensures r.Err? ==> queueIndex == old(queueIndex) && colorFormat == old(colorFormat) && colorSpace == old(colorSpace)
      ensures r.Ok? ==>
        && Graphics(device.queueFamilies, queueIndex) && Presents(supportsPresent, queueIndex)
        && (forall j :: 0 <= j < queueIndex ==> !(Graphics(device.queueFamilies, j) && Presents(supportsPresent, j)))
      ensures r.Ok? && |formats| == 1 && formats[0].format == FormatUndefined ==>
        colorFormat == FormatB8G8R8A8Unorm && colorSpace == old(colorSpace)
      ensures r.Ok? && !(|formats| == 1 && formats[0].format == FormatUndefined) ==>
        SurfaceFormat(colorFormat, colorSpace) in formats
      ensures r.Ok? && !(|formats| == 1 && formats[0].format == FormatUndefined) &&
              (exists j :: 0 <= j < |formats| && formats[j].format == FormatB8G8R8A8Unorm) ==>
        && colorFormat == FormatB8G8R8A8Unorm
        && exists k :: 0 <= k < |formats| && formats[k] == SurfaceFormat(colorFormat, colorSpace) &&
             forall j :: 0 <= j < k ==> formats[j].format != FormatB8G8R8A8Unorm
      ensures r.Ok? && !(|formats| == 1 && formats[0].format == FormatUndefined) &&
              (forall j :: 0 <= j < |formats| ==> formats[j].format != FormatB8G8R8A8Unorm) ==>
        SurfaceFormat(colorFormat, colorSpace) == formats[0]
    {
      this.surface := surface;
      var q := ChoosePresentQueue(device.queueFamilies, supportsPresent);
      if q.Err? {
        return Err(q.error);
      }
      queueIndex := q.value;
      colorFormat, colorSpace := ChooseColorFormat(formats, colorSpace);
      return Ok(());
    }

    /** `realize`: waits for the device to go idle, creates the new chain with
        the old one as `oldSwapchain`, only then destroys the old views and the
        old chain, and makes one colour view per image. `caps`, `modes` and
        `imageCount` are the driver's answers. */
    method Realize(width: nat, height: nat, vsync: bool, caps: SurfaceCaps, modes: seq<int>, imageCount: nat)
      requires Valid()
      requires caps.minImageCount < U32Modulus && caps.maxImageCount < U32Modulus
      modifies this`width, this`height, this`swapChain, this`images, this`buffers,
               device`nextHandle, device`calls, device`fences
      ensures Valid() && device.nextHandle >= old(device.nextHandle)
      ensures this.width == width && this.height == height
      ensures swapChain != NullHandle
      ensures |images| == imageCount && |buffers| == imageCount
      ensures device.fences == Settled(old(device.fences))
      ensures device.calls ==
        old(device.calls)
        + [DeviceWaitIdle,
           CreateSwapchain(swapChain, ChainInfo(surface, colorFormat, colorSpace, width, height, vsync, caps, modes, old(swapChain)))]
        + RetireCalls(old(swapChain), old(buffers))
        + [GetSwapchainImages(swapChain, images)]
        + ColorViewCalls(buffers, colorFormat)
      ensures device.calls == old(device.calls) + RealizeCalls(vsync, caps, modes, old(swapChain), old(buffers))
    {
      this.width, this.height := width, height;
      var oldChain := swapChain;
      CreateChain(vsync, caps, modes);
      ReplaceBuffers(oldChain, imageCount);
      LogSteps(old(device.calls),
               [DeviceWaitIdle, CreateSwapchain(swapChain, ChainInfo(surface, colorFormat, colorSpace, width, height, vsync, caps, modes, oldChain))],
               RetireCalls(oldChain, old(buffers)), [GetSwapchainImages(swapChain, images)], ColorViewCalls(buffers, colorFormat), [], []);
    }

    /** The second half of the replacement in `realize`: the old chain and
        its views destroyed, then the new chain's images and views. */
    method ReplaceBuffers(oldChain: Handle, imageCount: nat)
      requires Valid()
      modifies this`images, this`buffers, device`nextHandle, device`calls
      ensures Valid() && device.nextHandle >= old(device.nextHandle)
      ensures |images| == imageCount && |buffers| == imageCount
      ensures device.calls == old(device.calls)
        + RetireCalls(oldChain, old(buffers))
        + [GetSwapchainImages(swapChain, images)]
        + ColorViewCalls(buffers, colorFormat)
    {
      RetireOldChain(oldChain);
      CreateColorViews(imageCount);
    }

    /** The first half of the replacement in `realize`: once the device is
        idle, the new chain is created from the chosen parameters, with the
        current chain passed as `oldSwapchain`. */
    method CreateChain(vsync: bool, caps: SurfaceCaps, modes: seq<int>)
      requires Valid()
      requires caps.minImageCount < U32Modulus && caps.maxImageCount < U32Modulus
      modifies this`swapChain, device`nextHandle, device`calls, device`fences
      ensures Valid() && device.nextHandle >= old(device.nextHandle)
      ensures swapChain != NullHandle
      ensures device.fences == Settled(old(device.fences))
      ensures device.calls == old(device.calls)
        + [DeviceWaitIdle,
           CreateSwapchain(swapChain, ChainInfo(surface, colorFormat, colorSpace, width, height, vsync, caps, modes, old(swapChain)))]
    {
      device.WaitIdle();
      var oldChain := swapChain;
      var mode := ChoosePresentMode(vsync, modes);
      var alpha := ChooseCompositeAlpha(caps.supportedCompositeAlpha);
      var info := SwapchainCreateInfo(surface, DesiredImageCount(caps), colorFormat, colorSpace, width, height,
                                      ImageUsage(caps.supportedUsageFlags), PreTransform(caps), mode, oldChain, alpha);
      assert info == ChainInfo(surface, colorFormat, colorSpace, width, height, vsync, caps, modes, oldChain);
      swapChain := device.Mint();
      device.calls := device.calls + [CreateSwapchain(swapChain, info)];
    }

    /** The second half of the replacement in `realize`: once the new chain
        exists, the old chain's views and then the old chain are destroyed. */
    method RetireOldChain(oldChain: Handle)
      requires Valid()
      modifies device`calls
      ensures Valid()
      ensures device.calls == old(device.calls) + RetireCalls(oldChain, buffers)
    {
      if oldChain != NullHandle {
        var i := 0;
        while i < |buffers|
          invariant 0 <= i <= |buffers| && Valid()
          invariant device.calls == old(device.calls) + DestroyViewCalls(buffers[..i])
        {
          device.calls := device.calls + [DestroyImageView(buffers[i].view)];
          assert DestroyViewCalls(buffers[..i + 1]) == DestroyViewCalls(buffers[..i]) + [DestroyImageView(buffers[i].view)];
          i := i + 1;
        }
        assert buffers[..i] == buffers;
        device.calls := device.calls + [DestroySwapchain(oldChain)];
      }
    }

    /** The end of `realize`: the chain's `imageCount` images (the driver's
        answer) and one colour view per image, replacing the old buffers. */
    method CreateColorViews(imageCount: nat)
      requires Valid()
      modifies this`images, this`buffers, device`nextHandle, device`calls
      ensures Valid() && device.nextHandle >= old(device.nextHandle)
      ensures |images| == imageCount && |buffers| == imageCount
      ensures device.calls == old(device.calls) + [GetSwapchainImages(swapChain, images)] + ColorViewCalls(buffers, colorFormat)
    {
      images := Consecutive(device.nextHandle, imageCount);
      device.nextHandle := device.nextHandle + imageCount;
      device.calls := device.calls + [GetSwapchainImages(swapChain, images)];
      ghost var listed := device.calls;
      ghost var created := images;
      buffers := [];
      var i := 0;
      while i < imageCount
        invariant 0 <= i <= imageCount && |images| == imageCount
        invariant |buffers| == i && forall j :: 0 <= j < i ==> buffers[j].image == images[j]
        invariant images == created && device.nextHandle >= old(device.nextHandle)
        invariant device.Valid() && device.calls == listed + ColorViewCalls(buffers, colorFormat)
      {
        var view := device.Mint();
        ColorViewStep(listed, buffers, SwapChainBuffer(images[i], view), colorFormat);
        buffers := buffers + [SwapChainBuffer(images[i], view)];
        device.calls := device.calls + [CreateImageView(view, images[i], colorFormat, AspectColor)];
        i := i + 1;
      }
    }

    /** `create_depth_image`: an image in the depth format, device-local
        memory bound to it, and a view whose aspect follows the format. Throws
        (here `Err`) when no device-local memory type fits. `memoryTypeBits` is
        the driver's memory requirement for the image. */
    method CreateDepthImage(width: nat, height: nat, memoryTypeBits: nat) returns (r: Result<DepthImage>, ghost memType: nat)
      requires Valid() && memoryTypeBits < U32Modulus
      modifies device`nextHandle, device`calls
      ensures Valid() && device.nextHandle >= old(device.nextHandle)
      ensures r.Err? <==> forall j :: 0 <= j < |device.memoryTypes| ==>
                !SuitableMemoryType(device.memoryTypes, memoryTypeBits, MemoryDeviceLocal, j)
      ensures r.Err? ==>
                && r.error == NoMemoryType && device.nextHandle == old(device.nextHandle) + 1
                && device.calls == old(device.calls) + [CreateImage(old(device.nextHandle), depthFormat, width, height)]
      ensures r.Ok? ==>
        var d := r.value;
        && d.image != NullHandle && d.view != NullHandle && d.mem != NullHandle
        && FirstSuitable(device.memoryTypes, memoryTypeBits, MemoryDeviceLocal, memType)
        && device.calls == old(device.calls) + DepthCalls(d, depthFormat, width, height, memType)
    {
      var image := device.Mint();
      device.calls := device.calls + [CreateImage(image, depthFormat, width, height)];
      var index := MemoryTypeIndex(device.memoryTypes, memoryTypeBits, MemoryDeviceLocal);
      if index.None? {
        return Err(NoMemoryType), 0;
      }
      memType := index.value;
      var mem := device.Mint();
      device.calls := device.calls + [AllocateMemory(mem, index.value, false), BindImageMemory(image, mem)];
      var view := device.Mint();
      device.calls := device.calls + [CreateImageView(view, image, depthFormat, DepthAspect(depthFormat))];
      r := Ok(DepthImage(image, view, mem));
    }

    /** `create_frame_buffer`: one framebuffer per swapchain image, of the
        swapchain's size. */
    method CreateFrameBuffer(renderPass: Handle, depth: DepthImage) returns (fbs: seq<Handle>)
      requires Valid()
      modifies device`nextHandle, device`calls
      ensures Valid() && device.nextHandle >= old(device.nextHandle)
      ensures |fbs| == |buffers| && forall i :: 0 <= i < |fbs| ==> fbs[i] != NullHandle
      ensures device.calls == old(device.calls) + FramebufferCalls(fbs, buffers, renderPass, depth.view, width, height)
    {
      fbs := [];
      var i := 0;
      while i < |buffers|
        invariant 0 <= i <= |buffers| && |fbs| == i && Valid() && device.nextHandle >= old(device.nextHandle)
        invariant forall j :: 0 <= j < i ==> fbs[j] != NullHandle
        invariant device.calls == old(device.calls) + FramebufferCalls(fbs, buffers, renderPass, depth.view, width, height)
      {
        var fb := device.Mint();
        assert FramebufferCalls(fbs + [fb], buffers, renderPass, depth.view, width, height)
            == FramebufferCalls(fbs, buffers, renderPass, depth.view, width, height)
               + [CreateFramebuffer(fb, renderPass, [buffers[i].view, depth.view], width, height)];
        fbs := fbs + [fb];
        device.calls := device.calls + [CreateFramebuffer(fb, renderPass, [buffers[i].view, depth.view], width, height)];
        i := i + 1;
      }
    }

    /** `acquire_image`: the driver's result and image index are parameters. */
    method AcquireImage(presentSemaphore: Handle, result: int, index: nat) returns (res: int, idx: nat)
      requires Valid()
      modifies device`calls
      ensures Valid()
      ensures res == result && idx == index
      ensures device.calls == old(device.calls) + [AcquireNextImage(swapChain, presentSemaphore)]
    {
      device.calls := device.calls + [AcquireNextImage(swapChain, presentSemaphore)];
      return result, index;
    }

    /** `queue_present`: presents image `index` on `queue`, waiting on
        `waitSemaphore` only when it is not null; the driver's result is a
        parameter. */
    method QueuePresent(queue: Queue, index: nat, waitSemaphore: Handle, result: int) returns (res: int)
      requires Valid()
      modifies device`calls
      ensures Valid()
      ensures res == result
      ensures device.calls == old(device.calls) +
        [Call.QueuePresent(queue, swapChain, index, if waitSemaphore == NullHandle then None else Some(waitSemaphore))]
    {
      var wait := if waitSemaphore == NullHandle then None else Some(waitSemaphore);
      device.calls := device.calls + [Call.QueuePresent(queue, swapChain, index, wait)];
      return result;
    }
  }
}
