/** The device: capability searches over the physical device's snapshot
    (memory types, queue families, depth formats, extensions), the queue set-up
    of logical-device creation, and the buffer / command-buffer / fence factory
    with its synchronous upload protocol. */
module VulkanDevice {
  import opened Wrappers
  import opened Vk

  /** One entry of VkPhysicalDeviceMemoryProperties::memoryTypes. */
  datatype MemoryType = MemoryType(propertyFlags: bv32)

  /** One entry of the queue family properties; only the flags matter here. */
  datatype QueueFamily = QueueFamily(queueFlags: bv32)

  // ---------------------------------------------------------------------------
  // Memory-type search
  // ---------------------------------------------------------------------------

  /** `bits` shifted right `i` times: the value of the source's `typeBits`
      after the loop has looked at `i` memory types. */
  function ShiftRight(bits: nat, i: nat): (r: nat)
    ensures r <= bits
  {
    if i == 0 then bits else ShiftRight(bits, i - 1) / 2
  }

  /** Bit `i` of the resource's `memoryTypeBits` is set. */
  predicate TypeAllowed(typeBits: nat, i: nat)
  {
    ShiftRight(typeBits, i) % 2 == 1
  }

  /** Memory type `i` is allowed by the resource and has every requested
      property. */
  predicate SuitableMemoryType(types: seq<MemoryType>, typeBits: nat, properties: bv32, i: int)
  {
    0 <= i < |types| && TypeAllowed(typeBits, i) && Has(types[i].propertyFlags, properties)
  }

  /** `i` is the smallest suitable memory type, the one `memory_type_index`
      finds. */
  predicate FirstSuitable(types: seq<MemoryType>, typeBits: nat, properties: bv32, i: int)
  {
    && SuitableMemoryType(types, typeBits, properties, i)
    && forall j :: 0 <= j < i ==> !SuitableMemoryType(types, typeBits, properties, j)
  }

  /** `memory_type_index`: the smallest suitable memory type, or none. The loop
      halves `typeBits` once per memory type, as the source shifts it. */
  method MemoryTypeIndex(types: seq<MemoryType>, typeBits: nat, properties: bv32) returns (r: Option<nat>)
    requires |types| <= MaxMemoryTypes && typeBits < U32Modulus
    ensures r.Some? ==> SuitableMemoryType(types, typeBits, properties, r.value)
    ensures r.Some? ==> forall j :: 0 <= j < r.value ==> !SuitableMemoryType(types, typeBits, properties, j)
    ensures r.None? <==> forall j :: 0 <= j < |types| ==> !SuitableMemoryType(types, typeBits, properties, j)
  {
    var bits := typeBits;
    var i := 0;
    while i < |types|
      invariant 0 <= i <= |types|
      invariant bits == ShiftRight(typeBits, i)
      invariant forall j :: 0 <= j < i ==> !SuitableMemoryType(types, typeBits, properties, j)
    {
      if bits % 2 == 1 {
        if Has(types[i].propertyFlags, properties) {
          assert SuitableMemoryType(types, typeBits, properties, i);
          return Some(i);
        }
      }
      bits := bits / 2;
      i := i + 1;
    }
    return None;
  }

  // ---------------------------------------------------------------------------
  // Queue-family search
  // ---------------------------------------------------------------------------

  /** What a scan over the queue families looks for. */
  datatype FamilyWanted =
    | DedicatedCompute          // COMPUTE without GRAPHICS
    | DedicatedTransfer         // TRANSFER without GRAPHICS and without COMPUTE
    | Supporting(flags: bv32)   // every requested flag

  predicate Offers(f: QueueFamily, w: FamilyWanted)
  {
    match w
    case DedicatedCompute =>
      Any(f.queueFlags, QueueCompute) && !Any(f.queueFlags, QueueGraphics)
    case DedicatedTransfer =>
      Any(f.queueFlags, QueueTransfer) && !Any(f.queueFlags, QueueGraphics) && !Any(f.queueFlags, QueueCompute)
    case Supporting(flags) =>
      Has(f.queueFlags, flags)
  }

  /** The first family at or after `from` that offers `w`. */
  function FirstFamily(fams: seq<QueueFamily>, w: FamilyWanted, from: nat): (r: Option<nat>)
    requires from <= |fams|
    ensures r.Some? ==> from <= r.value < |fams| && Offers(fams[r.value], w)
    ensures r.Some? ==> forall j :: from <= j < r.value ==> !Offers(fams[j], w)
    ensures r.None? ==> forall j :: from <= j < |fams| ==> !Offers(fams[j], w)
    decreases |fams| - from
  {
    if from == |fams| then None
    else if Offers(fams[from], w) then Some(from)
    else FirstFamily(fams, w, from + 1)
  }

  /** A family without GRAPHICS that has COMPUTE supports any request made only
      of the COMPUTE bit; likewise for TRANSFER. */
  lemma DedicatedSupports(f: QueueFamily, flags: bv32)
    ensures Has(QueueCompute, flags) && Offers(f, DedicatedCompute) ==> Offers(f, Supporting(flags))
    ensures Has(QueueTransfer, flags) && Offers(f, DedicatedTransfer) ==> Offers(f, Supporting(flags))
  {
  }

  /** The answer of `queue_family_index`: a dedicated compute family for a
      compute-only request, a dedicated transfer family for a transfer-only
      request, and otherwise the first family supporting every requested flag. */
  function QueueFamilyChoice(fams: seq<QueueFamily>, flags: bv32): Result<nat>
  {
    var dc := FirstFamily(fams, DedicatedCompute, 0);
    var dt := FirstFamily(fams, DedicatedTransfer, 0);
    var any := FirstFamily(fams, Supporting(flags), 0);
    if Has(QueueCompute, flags) && dc.Some? then Ok(dc.value)
    else if Has(QueueTransfer, flags) && dt.Some? then Ok(dt.value)
    else if any.Some? then Ok(any.value)
    else Err(NoQueueFamily)
  }

  /** `queue_family_index` returns a family supporting every requested flag,
      throws exactly when there is none, and prefers the first dedicated
      compute (resp. transfer) family for compute-only (resp. transfer-only)
      requests; other requests get the first supporting family. */
  lemma QueueFamilyChoiceSound(fams: seq<QueueFamily>, flags: bv32)
    ensures var r := QueueFamilyChoice(fams, flags);
      r.Ok? ==> r.value < |fams| && Has(fams[r.value].queueFlags, flags)
    ensures var r := QueueFamilyChoice(fams, flags);
      (r.Err? <==> forall j :: 0 <= j < |fams| ==> !Has(fams[j].queueFlags, flags)) &&
      (r.Err? ==> r.error == NoQueueFamily)
    ensures var r := QueueFamilyChoice(fams, flags);
      Has(QueueCompute, flags) && (exists j :: 0 <= j < |fams| && Offers(fams[j], DedicatedCompute)) ==>
        r.Ok? && Offers(fams[r.value], DedicatedCompute) &&
        forall j :: 0 <= j < r.value ==> !Offers(fams[j], DedicatedCompute)
    ensures var r := QueueFamilyChoice(fams, flags);
      Has(QueueTransfer, flags) && !Has(QueueCompute, flags) &&
      (exists j :: 0 <= j < |fams| && Offers(fams[j], DedicatedTransfer)) ==>
        r.Ok? && Offers(fams[r.value], DedicatedTransfer) &&
        forall j :: 0 <= j < r.value ==> !Offers(fams[j], DedicatedTransfer)
    ensures var r := QueueFamilyChoice(fams, flags);
      !Has(QueueCompute, flags) && !Has(QueueTransfer, flags) && r.Ok? ==>
        forall j :: 0 <= j < r.value ==> !Has(fams[j].queueFlags, flags)
  {
    var dc := FirstFamily(fams, DedicatedCompute, 0);
    var dt := FirstFamily(fams, DedicatedTransfer, 0);
    if dc.Some? {
      DedicatedSupports(fams[dc.value], flags);
    }
    if dt.Some? {
      DedicatedSupports(fams[dt.value], flags);
    }
  }

  /** One scan of the queue families, the shape of each of the three loops of
      `queue_family_index`. */
  method ScanFamilies(fams: seq<QueueFamily>, w: FamilyWanted) returns (r: Option<nat>)
    ensures r == FirstFamily(fams, w, 0)
  {
    var i := 0;
    while i < |fams|
      invariant 0 <= i <= |fams|
      invariant FirstFamily(fams, w, 0) == FirstFamily(fams, w, i)
    {
      if Offers(fams[i], w) {
        return Some(i);
      }
      i := i + 1;
    }
    return None;
  }

  /** `queue_family_index`: throws (here `Err`) when no family fits. */
  method QueueFamilyIndex(fams: seq<QueueFamily>, flags: bv32) returns (r: Result<nat>)
    ensures r == QueueFamilyChoice(fams, flags)
  {
    if Has(QueueCompute, flags) {
      var dc := ScanFamilies(fams, DedicatedCompute);
      if dc.Some? {
        return Ok(dc.value);
      }
    }
    if Has(QueueTransfer, flags) {
      var dt := ScanFamilies(fams, DedicatedTransfer);
      if dt.Some? {
        return Ok(dt.value);
      }
    }
    var any := ScanFamilies(fams, Supporting(flags));
    if any.Some? {
      return Ok(any.value);
    }
    return Err(NoQueueFamily);
  }

  // ---------------------------------------------------------------------------
  // Queue set-up of logical-device creation
  // ---------------------------------------------------------------------------

  /** The graphics, compute and transfer family indices, and the family of each
      queue create-info, in the order they are pushed. */
  datatype QueueIndices = QueueIndices(graphics: nat, compute: nat, transfer: nat, createInfos: seq<nat>)

  /** The queue part of `realize` as written: the compute create-info is added
      when compute differs from graphics, the transfer create-info when transfer
      differs from both. When graphics is not requested its index is a
      placeholder 0 that no create-info backs. */
  function QueueSetupAsWritten(fams: seq<QueueFamily>, requested: bv32): (r: Result<QueueIndices>)
    ensures r.Err? <==> QueueSetup(fams, requested).Err?
    ensures r.Ok? ==> forall i, j :: 0 <= i < j < |r.value.createInfos| ==> r.value.createInfos[i] != r.value.createInfos[j]
  {
    var g := if Any(requested, QueueGraphics) then QueueFamilyChoice(fams, QueueGraphics) else Ok(0);
    if g.Err? then Err(g.error) else
    var infos0 := if Any(requested, QueueGraphics) then [g.value] else [];
    var c := if Any(requested, QueueCompute) then QueueFamilyChoice(fams, QueueCompute) else Ok(g.value);
    if c.Err? then Err(c.error) else
    var infos1 := if Any(requested, QueueCompute) && c.value != g.value then infos0 + [c.value] else infos0;
    var t := if Any(requested, QueueTransfer) then QueueFamilyChoice(fams, QueueTransfer) else Ok(g.value);
    if t.Err? then Err(t.error) else
    var infos2 := if Any(requested, QueueTransfer) && t.value != g.value && t.value != c.value
                  then infos1 + [t.value] else infos1;
    Ok(QueueIndices(g.value, c.value, t.value, infos2))
  }

  /** Counterexample: a device whose only family is compute-only, asked for a
      compute queue without a graphics queue. The compute family is 0, equal to
      the graphics placeholder, so no create-info is made for it and the device
      would be created without the queue the caller asked for. */
  lemma QueueSetupAsWrittenDropsCompute()
    ensures QueueSetupAsWritten([QueueFamily(QueueCompute)], QueueCompute)
         == Ok(QueueIndices(0, 0, 0, []))
  {
    var fams := [QueueFamily(QueueCompute)];
    assert Offers(fams[0], DedicatedCompute);
  }

  /** The queue part of `realize` with the de-duplication done against the
      create-infos actually pushed. */
  function QueueSetup(fams: seq<QueueFamily>, requested: bv32): Result<QueueIndices>
  {
    match (if Any(requested, QueueGraphics) then QueueFamilyChoice(fams, QueueGraphics) else Ok(0))
    case Err(e) => Err(e)
    case Ok(g) =>
      var infos0 := if Any(requested, QueueGraphics) then [g] else [];
      match (if Any(requested, QueueCompute) then QueueFamilyChoice(fams, QueueCompute) else Ok(g))
      case Err(e) => Err(e)
      case Ok(c) =>
        var infos1 := if Any(requested, QueueCompute) then AddFamily(infos0, c) else infos0;
        match (if Any(requested, QueueTransfer) then QueueFamilyChoice(fams, QueueTransfer) else Ok(g))
        case Err(e) => Err(e)
        case Ok(t) =>
          var infos2 := if Any(requested, QueueTransfer) then AddFamily(infos1, t) else infos1;
          Ok(QueueIndices(g, c, t, infos2))
  }

  /** `infos` with a create-info for family `f` unless one is already there. */
  function AddFamily(infos: seq<nat>, f: nat): (r: seq<nat>)
    ensures FamiliesDistinct(infos) ==> FamiliesDistinct(r)
    ensures f in r && forall x :: x in r <==> x in infos || x == f
  {
    if f in infos then infos else infos + [f]
  }

  /** The queue set-up `s` meets `requested`: each requested type has a family
      that supports it and has a create-info; no family has two create-infos;
      every create-info belongs to a requested type; an unrequested graphics
      index is 0 and unrequested compute and transfer fall back to graphics. */
  predicate MeetsRequest(fams: seq<QueueFamily>, requested: bv32, s: QueueIndices)
  {
    && FamiliesDistinct(s.createInfos)
    && (Any(requested, QueueGraphics) ==>
          s.graphics < |fams| && Has(fams[s.graphics].queueFlags, QueueGraphics) && s.graphics in s.createInfos)
    && (Any(requested, QueueCompute) ==>
          s.compute < |fams| && Has(fams[s.compute].queueFlags, QueueCompute) && s.compute in s.createInfos)
    && (Any(requested, QueueTransfer) ==>
          s.transfer < |fams| && Has(fams[s.transfer].queueFlags, QueueTransfer) && s.transfer in s.createInfos)
    && (forall f :: f in s.createInfos ==>
          (Any(requested, QueueGraphics) && f == s.graphics) ||
          (Any(requested, QueueCompute) && f == s.compute) ||
          (Any(requested, QueueTransfer) && f == s.transfer))
    && (!Any(requested, QueueGraphics) ==> s.graphics == 0)
    && (!Any(requested, QueueCompute) ==> s.compute == s.graphics)
    && (!Any(requested, QueueTransfer) ==> s.transfer == s.graphics)
  }

  /** No family of `fams` has all of `flags`. */
  predicate NoFamilyFor(fams: seq<QueueFamily>, flags: bv32)
  {
    forall j :: 0 <= j < |fams| ==> !Has(fams[j].queueFlags, flags)
  }

  /** The queue set-up fails exactly when a requested queue type has no family,
      and otherwise meets the request. */
  lemma QueueSetupSound(fams: seq<QueueFamily>, requested: bv32)
    ensures QueueSetup(fams, requested).Err? <==>
      (Any(requested, QueueGraphics) && NoFamilyFor(fams, QueueGraphics)) ||
      (Any(requested, QueueCompute) && NoFamilyFor(fams, QueueCompute)) ||
      (Any(requested, QueueTransfer) && NoFamilyFor(fams, QueueTransfer))
    ensures QueueSetup(fams, requested).Err? ==> QueueSetup(fams, requested).error == NoQueueFamily
    ensures QueueSetup(fams, requested).Ok? ==> MeetsRequest(fams, requested, QueueSetup(fams, requested).value)
  {
    QueueFamilyChoiceSound(fams, QueueGraphics);
    QueueFamilyChoiceSound(fams, QueueCompute);
    QueueFamilyChoiceSound(fams, QueueTransfer);
  }

  /** No family index appears twice among the queue create-infos. */
  predicate FamiliesDistinct(infos: seq<nat>)
  {
    forall i, j :: 0 <= i < j < |infos| ==> infos[i] != infos[j]
  }

  /** Whenever a graphics queue is requested (the library's default request is
      graphics and compute) the corrected set-up is exactly the written one. */
  lemma QueueSetupAgreesWithGraphics(fams: seq<QueueFamily>, requested: bv32)
    requires Any(requested, QueueGraphics)
    ensures QueueSetup(fams, requested) == QueueSetupAsWritten(fams, requested)
  {
  }

  // ---------------------------------------------------------------------------
  // Extensions
  // ---------------------------------------------------------------------------

  const SwapchainExtension: string := "VK_KHR_swapchain"

  /** `std::find`: the position of the first `name` at or after `from`, or the
      end of the list. */
  function FindName(names: seq<string>, name: string, from: nat): (r: nat)
    requires from <= |names|
    ensures from <= r <= |names|
    ensures r < |names| ==> names[r] == name
    ensures forall j :: from <= j < r ==> names[j] != name
    decreases |names| - from
  {
    if from == |names| then from
    else if names[from] == name then from
    else FindName(names, name, from + 1)
  }

  /** `extensionSupported`: `std::find` did not reach the end. */
  function ExtensionSupported(supported: seq<string>, name: string): (b: bool)
    ensures b <==> name in supported
  {
    FindName(supported, name, 0) != |supported|
  }

  /** The extensions passed to vkCreateDevice: the requested ones, then the
      swapchain extension when the device will present. */
  function DeviceExtensions(enabled: seq<string>, useSwapChain: bool): (r: seq<string>)
    ensures |r| == |enabled| + (if useSwapChain then 1 else 0)
    ensures r[..|enabled|] == enabled
    ensures useSwapChain ==> r[|enabled|] == SwapchainExtension
  {
    if useSwapChain then enabled + [SwapchainExtension] else enabled
  }

  /** The device extensions `realize` warns about, in order. */
  function Unsupported(supported: seq<string>, names: seq<string>): (r: seq<string>)
    ensures forall n :: n in r <==> n in names && n !in supported
    ensures |r| <= |names|
  {
    if names == [] then []
    else
      var rest := Unsupported(supported, names[1..]);
      assert forall n :: n in names <==> n == names[0] || n in names[1..];
      if ExtensionSupported(supported, names[0]) then rest else [names[0]] + rest
  }

  // ---------------------------------------------------------------------------
  // Depth format
  // ---------------------------------------------------------------------------

  /** The depth formats `getSupportedDepthFormat` tries, best first. */
  const DepthCandidates: seq<int> :=
    [FormatD32SfloatS8Uint, FormatD32Sfloat, FormatD24UnormS8Uint, FormatD16UnormS8Uint, FormatD16Unorm]

  /** A format whose optimal-tiling features are `features` is acceptable as
      depth attachment (and for sampling when that is asked for). */
  predicate DepthUsable(features: bv32, checkSampling: bool)
  {
    Any(features, FeatureDepthStencilAttachment) && (checkSampling ==> Any(features, FeatureSampledImage))
  }

  /** `getSupportedDepthFormat`; `optimalFeatures` is the driver's answer to
      vkGetPhysicalDeviceFormatProperties for each format. */
  method SupportedDepthFormat(optimalFeatures: int -> bv32, checkSampling: bool) returns (r: Result<int>)
    ensures r.Ok? ==> exists k :: 0 <= k < |DepthCandidates| && DepthCandidates[k] == r.value &&
                       DepthUsable(optimalFeatures(r.value), checkSampling) &&
                       forall j :: 0 <= j < k ==> !DepthUsable(optimalFeatures(DepthCandidates[j]), checkSampling)
    ensures r.Err? <==> forall k :: 0 <= k < |DepthCandidates| ==> !DepthUsable(optimalFeatures(DepthCandidates[k]), checkSampling)
    ensures r.Err? ==> r.error == NoDepthFormat
  {
    var i := 0;
    while i < |DepthCandidates|
      invariant 0 <= i <= |DepthCandidates|
      invariant forall j :: 0 <= j < i ==> !DepthUsable(optimalFeatures(DepthCandidates[j]), checkSampling)
    {
      var format := DepthCandidates[i];
      var features := optimalFeatures(format);
      if Any(features, FeatureDepthStencilAttachment) {
        if checkSampling && !Any(features, FeatureSampledImage) {
          i := i + 1;
          continue;
        }
        return Ok(format);
      }
      i := i + 1;
    }
    return Err(NoDepthFormat);
  }

  // ---------------------------------------------------------------------------
  // Buffers and their bytes
  // ---------------------------------------------------------------------------

  /** Defined bytes. */
  function Bytes(data: seq<bv8>): (r: seq<Option<bv8>>)
    ensures |r| == |data| && forall i :: 0 <= i < |data| ==> r[i] == Some(data[i])
  {
    seq(|data|, i requires 0 <= i < |data| => Some(data[i]))
  }

  /** Bytes of freshly allocated memory: their values are unspecified. */
  function Undefined(n: nat): (r: seq<Option<bv8>>)
    ensures |r| == n && forall i :: 0 <= i < n ==> r[i].None?
  {
    seq(n, _ => None)
  }

  /** A VulkanBuffer: the buffer handle, its bound memory and its size. How it
      was created and the bytes its memory holds are ghost. */
  class Buffer {
    var handle: Handle
    var memory: Handle
    var size: nat
    ghost var usage: bv32
    ghost var memoryType: nat
    ghost var contents: seq<Option<bv8>>

    ghost predicate Valid()
      reads this
    {
      |contents| == size
    }

    constructor(handle: Handle, memory: Handle, size: nat, ghost usage: bv32, ghost memoryType: nat,
                ghost contents: seq<Option<bv8>>)
      requires |contents| == size
      ensures Valid()
      ensures this.handle == handle && this.memory == memory && this.size == size
      ensures this.usage == usage && this.memoryType == memoryType && this.contents == contents
    {
      this.handle := handle;
      this.memory := memory;
      this.size := size;
      this.usage := usage;
      this.memoryType := memoryType;
      this.contents := contents;
    }
  }

  /** The driver calls of the upload step of `create_buffer`: map and copy,
      flush when the memory is not host-coherent, unmap. */
  function UploadCalls(memory: Handle, size: nat, hasData: bool, memFlags: bv32): (r: seq<Call>)
    ensures hasData ==> (FlushMappedRange(memory, size) in r <==> !Any(memFlags, MemoryHostCoherent))
    ensures hasData ==> |r| >= 2 && r[0] == MapAndCopy(memory, size) && r[|r| - 1] == UnmapMemory(memory)
    ensures !hasData ==> r == []
  {
    if !hasData then []
    else [MapAndCopy(memory, size)]
         + (if Any(memFlags, MemoryHostCoherent) then [] else [FlushMappedRange(memory, size)])
         + [UnmapMemory(memory)]
  }

  /** The region `copy_buffer` records: the one given, or else the whole
      source from offset 0. */
  function CopyRegionOf(srcSize: nat, region: Option<BufferCopy>): BufferCopy
  {
    if region.None? then BufferCopy(0, 0, srcSize) else region.value
  }

  /** The driver calls of `copy_buffer` on `queue` with one-time command
      buffer `cmd`, whose fence is the next handle. */
  function CopyCalls(queue: Queue, cmd: Handle): seq<Call>
  {
    [AllocateCommandBuffers([cmd]), BeginCommandBuffer(cmd), EndCommandBuffer(cmd),
     Call.CreateFence(cmd + 1, false), QueueSubmit(queue, cmd, None, None, cmd + 1),
     Call.WaitForFence(cmd + 1), Call.DestroyFence(cmd + 1), FreeCommandBuffers([cmd])]
  }

  /** The guard `copy_buffer` asserts: the destination is no larger than the
      source. */
  predicate CopyGuardAsWritten(srcSize: nat, dstSize: nat): (ok: bool)
    ensures ok <==> CopyRegionOf(srcSize, None).size >= dstSize
  {
    dstSize <= srcSize
  }

  /** Counterexample: the written guard lets an 8-byte source be copied whole
      into a 4-byte destination, four bytes past its end. */
  lemma CopyGuardAsWrittenOverflows()
    ensures CopyGuardAsWritten(8, 4)
    ensures CopyRegionOf(8, None).dstOffset + CopyRegionOf(8, None).size > 4
  {
  }

  /** The guard `copy_buffer` needs: the recorded region lies inside both
      buffers, the valid-usage rule of vkCmdCopyBuffer. */
  predicate CopyFits(srcSize: nat, dstSize: nat, region: Option<BufferCopy>)
  {
    var c := CopyRegionOf(srcSize, region);
    c.srcOffset + c.size <= srcSize && c.dstOffset + c.size <= dstSize
  }

  /** Under the corrected guard a whole-buffer copy needs a destination at
      least as large as the source; together with the written guard, the two
      sizes must be equal. */
  lemma CopyFitsWhole(srcSize: nat, dstSize: nat)
    ensures CopyFits(srcSize, dstSize, None) <==> srcSize <= dstSize
    ensures CopyFits(srcSize, dstSize, None) && CopyGuardAsWritten(srcSize, dstSize) ==> srcSize == dstSize
  {
  }

  /** The destination bytes after vkCmdCopyBuffer of region `c` has executed. */
  function CopyRegion(dst: seq<Option<bv8>>, src: seq<Option<bv8>>, c: BufferCopy): (r: seq<Option<bv8>>)
    requires c.srcOffset + c.size <= |src| && c.dstOffset + c.size <= |dst|
    ensures |r| == |dst|
    ensures forall k :: 0 <= k < |dst| && !(c.dstOffset <= k < c.dstOffset + c.size) ==> r[k] == dst[k]
    ensures forall k :: c.dstOffset <= k < c.dstOffset + c.size ==> r[k] == src[c.srcOffset + (k - c.dstOffset)]
  {
    dst[..c.dstOffset] + src[c.srcOffset..c.srcOffset + c.size] + dst[c.dstOffset + c.size..]
  }

  /** Copying a whole source into an equally large destination makes the
      destination's bytes those of the source. */
  lemma WholeCopyReplaces(dst: seq<Option<bv8>>, src: seq<Option<bv8>>)
    requires |dst| == |src|
    ensures CopyRegion(dst, src, CopyRegionOf(|src|, None)) == src
  {
    var r := CopyRegion(dst, src, CopyRegionOf(|src|, None));
    assert forall k :: 0 <= k < |src| ==> r[k] == src[k];
  }

  /** The fences of `fs`, all signaled. */
  function SignaledFences(fs: seq<Handle>): (m: map<Handle, FenceState>)
    ensures forall h :: h in m <==> h in fs
    ensures forall h :: h in m ==> m[h] == Signaled
  {
    map h | h in fs :: Signaled
  }

  /** The calls that create each fence of `fs` signaled, in order. */
  function SignaledFenceCalls(fs: seq<Handle>): (r: seq<Call>)
    ensures |r| == |fs| && forall i :: 0 <= i < |fs| ==> r[i] == Call.CreateFence(fs[i], true)
  {
    seq(|fs|, i requires 0 <= i < |fs| => Call.CreateFence(fs[i], true))
  }

  /** Creating one more signaled fence extends both the fence map and the
      call log by that fence. */
  lemma SignaledStep(log: seq<Call>, m: map<Handle, FenceState>, fs: seq<Handle>, f: Handle)
    ensures log + SignaledFenceCalls(fs + [f]) == log + SignaledFenceCalls(fs) + [Call.CreateFence(f, true)]
    ensures m + SignaledFences(fs + [f]) == (m + SignaledFences(fs))[f := Signaled]
  {
    assert SignaledFenceCalls(fs + [f]) == SignaledFenceCalls(fs) + [Call.CreateFence(f, true)];
  }

  /** The fences once every submission has completed: pending ones are
      signaled, the others keep their state. */
  function Settled(fences: map<Handle, FenceState>): (r: map<Handle, FenceState>)
    ensures r.Keys == fences.Keys
    ensures forall h :: h in r ==> r[h] != Pending
    ensures forall h :: h in r ==> (r[h] == Unsignaled <==> fences[h] == Unsignaled)
  {
    map h | h in fences :: if fences[h] == Pending then Signaled else fences[h]
  }

  /** The handles `base`, `base + 1`, ... `base + n - 1`. */
  function Consecutive(base: nat, n: nat): (r: seq<Handle>)
    ensures |r| == n && forall i :: 0 <= i < n ==> r[i] == base + i
  {
    seq(n, i => base + i)
  }

  /** One more consecutive handle. */
  lemma ConsecutiveStep(base: nat, n: nat)
    ensures Consecutive(base, n) + [base + n] == Consecutive(base, n + 1)
  {
    var a, b := Consecutive(base, n) + [base + n], Consecutive(base, n + 1);
    assert forall i :: 0 <= i <= n ==> a[i] == b[i];
  }

  // ---------------------------------------------------------------------------
  // The device object
  // ---------------------------------------------------------------------------

  /** A VulkanDevice. The physical device's answers are fixed at construction;
      the handles the driver hands out come from `nextHandle`; what the library
      asks of the driver is logged in `calls`, and the state the driver keeps
      for fences and command buffers is ghost. */
  class Device {
    const queueFamilies: seq<QueueFamily>
    const memoryTypes: seq<MemoryType>
    const supportedExtensions: seq<string>

    var logicalDevice: Handle
    var graphics: nat
    var compute: nat
    var transfer: nat
    var queueCreateInfos: seq<nat>
    var deviceExtensions: seq<string>
    var extensionWarnings: seq<string>
    var commandPool: Handle
    var pipeCache: Handle
    var descriptorPool: Handle
    var nextHandle: nat

    ghost var calls: seq<Call>
    ghost var fences: map<Handle, FenceState>
    ghost var recorded: map<Handle, seq<Cmd>>

    ghost predicate Valid()
      reads this
    {
      |memoryTypes| <= MaxMemoryTypes && 0 < nextHandle &&
      (forall h :: h in fences ==> h < nextHandle) &&
      (forall h :: h in recorded ==> h < nextHandle)
    }

    constructor(queueFamilies: seq<QueueFamily>, memoryTypes: seq<MemoryType>, supportedExtensions: seq<string>)
      requires |memoryTypes| <= MaxMemoryTypes
      ensures Valid()
      ensures this.queueFamilies == queueFamilies && this.memoryTypes == memoryTypes
      ensures this.supportedExtensions == supportedExtensions
      ensures logicalDevice == NullHandle && commandPool == NullHandle
      ensures pipeCache == NullHandle && descriptorPool == NullHandle
      ensures calls == [] && fences == map[] && recorded == map[]
    {
      this.queueFamilies := queueFamilies;
      this.memoryTypes := memoryTypes;
      this.supportedExtensions := supportedExtensions;
      logicalDevice := NullHandle;
      graphics, compute, transfer := 0, 0, 0;
      queueCreateInfos := [];
      deviceExtensions, extensionWarnings := [], [];
      commandPool, pipeCache, descriptorPool := NullHandle, NullHandle, NullHandle;
      nextHandle := 1;
      calls := [];
      fences := map[];
      recorded := map[];
    }

    /** A new handle from the driver. */
    method Mint() returns (h: Handle)
      requires Valid()
      modifies this`nextHandle
      ensures Valid()
      ensures h == old(nextHandle) && h != NullHandle && nextHandle == h + 1
    {
      h := nextHandle;
      nextHandle := nextHandle + 1;
    }

    /** The device-extension warning loop of `realize`. */
    method WarnUnsupported(names: seq<string>) returns (warnings: seq<string>)
      ensures warnings == Unsupported(supportedExtensions, names)
    {
      warnings := [];
      var i := |names|;
      while i > 0
        invariant 0 <= i <= |names|
        invariant warnings == Unsupported(supportedExtensions, names[i..])
      {
        i := i - 1;
        assert names[i..][1..] == names[i + 1..];
        if !ExtensionSupported(supportedExtensions, names[i]) {
          warnings := [names[i]] + warnings;
        }
      }
      assert names[0..] == names;
    }

    /** The queue part of `realize`: one family search per requested queue
        type, a create-info per family not yet listed, and the graphics index
        standing in for compute and transfer when they are not requested. */
    method SetUpQueues(requested: bv32) returns (r: Result<QueueIndices>)
      ensures r == QueueSetup(queueFamilies, requested)
    {
      var infos: seq<nat> := [];
      var g := 0;
      if Any(requested, QueueGraphics) {
        var found := QueueFamilyIndex(queueFamilies, QueueGraphics);
        if found.Err? {
          return Err(found.error);
        }
        g := found.value;
        infos := [g];
      }
      var c := g;
      if Any(requested, QueueCompute) {
        var found := QueueFamilyIndex(queueFamilies, QueueCompute);
        if found.Err? {
          return Err(found.error);
        }
        c := found.value;
        infos := AddFamily(infos, c);
      }
      var t := g;
      if Any(requested, QueueTransfer) {
        var found := QueueFamilyIndex(queueFamilies, QueueTransfer);
        if found.Err? {
          return Err(found.error);
        }
        t := found.value;
        infos := AddFamily(infos, t);
      }
      return Ok(QueueIndices(g, c, t, infos));
    }

    /** The extension part of `realize`: the requested extensions plus the
        swapchain extension when presenting, with a warning for each one the
        physical device lacks. */
    method SetExtensions(enabled: seq<string>, useSwapChain: bool)
      modifies this`deviceExtensions, this`extensionWarnings
      ensures deviceExtensions == DeviceExtensions(enabled, useSwapChain)
      ensures extensionWarnings == Unsupported(supportedExtensions, deviceExtensions)
    {
      deviceExtensions := enabled;
      if useSwapChain {
        deviceExtensions := deviceExtensions + [SwapchainExtension];
      }
      extensionWarnings := WarnUnsupported(deviceExtensions);
    }

    /** `realize`: queue families and their create-infos, the extension list
        and its warnings, vkCreateDevice (whose result is the parameter
        `createResult`), and on success the default command pool on the
        graphics family. Throwing for a missing queue family is `Err`. */
    method Realize(enabled: seq<string>, useSwapChain: bool, requested: bv32, createResult: int)
      returns (r: Result<int>)
      requires Valid()
      modifies this`graphics, this`compute, this`transfer, this`queueCreateInfos, this`deviceExtensions,
               this`extensionWarnings, this`logicalDevice, this`commandPool, this`nextHandle, this`calls
      ensures Valid()
      ensures QueueSetup(queueFamilies, requested).Err? ==> r == Err(NoQueueFamily) && calls == old(calls)
      ensures r.Err? ==>
        && queueCreateInfos == old(queueCreateInfos) && deviceExtensions == old(deviceExtensions)
        && extensionWarnings == old(extensionWarnings) && logicalDevice == old(logicalDevice)
        && commandPool == old(commandPool) && nextHandle == old(nextHandle)
      ensures QueueSetup(queueFamilies, requested).Ok? ==> r == Ok(createResult)
      ensures r.Ok? ==> QueueSetup(queueFamilies, requested) == Ok(QueueIndices(graphics, compute, transfer, queueCreateInfos))
      ensures r.Ok? ==> deviceExtensions == DeviceExtensions(enabled, useSwapChain)
      ensures r.Ok? ==> extensionWarnings == Unsupported(supportedExtensions, deviceExtensions)
      ensures r.Ok? ==> DeviceCreated(old(calls), old(commandPool), createResult)
    {
      var setup := SetUpQueues(requested);
      if setup.Err? {
        return Err(setup.error);
      }
      graphics, compute, transfer := setup.value.graphics, setup.value.compute, setup.value.transfer;
      queueCreateInfos := setup.value.createInfos;

      CreateWithExtensions(enabled, useSwapChain, createResult);
      return Ok(createResult);
    }

    /** The second half of `realize`: the extension list and its warnings,
        then vkCreateDevice and, on success, the default command pool. */
    method CreateWithExtensions(enabled: seq<string>, useSwapChain: bool, createResult: int)
      requires Valid()
      modifies this`deviceExtensions, this`extensionWarnings, this`logicalDevice, this`commandPool,
               this`nextHandle, this`calls
      ensures Valid()
      ensures deviceExtensions == DeviceExtensions(enabled, useSwapChain)
      ensures extensionWarnings == Unsupported(supportedExtensions, deviceExtensions)
      ensures DeviceCreated(old(calls), old(commandPool), createResult)
    {
      SetExtensions(enabled, useSwapChain);
      CreateLogicalDevice(createResult);
    }

    /** After vkCreateDevice returned `createResult`: on success the device
        exists and the default command pool was created on the graphics family;
        on failure nothing follows the device-creation call. */
    ghost predicate DeviceCreated(before: seq<Call>, poolBefore: Handle, createResult: int)
      reads this
    {
      if createResult == Success then
        && logicalDevice != NullHandle && commandPool != NullHandle
        && calls == before + [CreateDevice(queueCreateInfos, deviceExtensions), CreateCommandPool(commandPool, graphics)]
      else
        && commandPool == poolBefore
        && calls == before + [CreateDevice(queueCreateInfos, deviceExtensions)]
    }

    /** vkCreateDevice and, when it succeeds, the default command pool. */
    method CreateLogicalDevice(createResult: int)
      requires Valid()
      modifies this`logicalDevice, this`commandPool, this`nextHandle, this`calls
      ensures Valid()
      ensures DeviceCreated(old(calls), old(commandPool), createResult)
    {
      calls := calls + [CreateDevice(queueCreateInfos, deviceExtensions)];
      if createResult != Success {
        return;
      }
      logicalDevice := Mint();
      commandPool := Mint();
      calls := calls + [CreateCommandPool(commandPool, graphics)];
    }

    /** `get_create_pipecache`: created on first use only. */
    method GetCreatePipeCache() returns (cache: Handle)
      requires Valid()
      modifies this`pipeCache, this`nextHandle, this`calls
      ensures Valid()
      ensures cache == pipeCache && cache != NullHandle
      ensures old(pipeCache) != NullHandle ==> cache == old(pipeCache) && calls == old(calls)
      ensures old(pipeCache) == NullHandle ==> calls == old(calls) + [CreatePipelineCache(cache)]
    {
      if pipeCache == NullHandle {
        pipeCache := Mint();
        calls := calls + [CreatePipelineCache(pipeCache)];
      }
      cache := pipeCache;
    }

    /** `get_create_descriptor_pool`: created on first use only. */
    method GetCreateDescriptorPool() returns (pool: Handle)
      requires Valid()
      modifies this`descriptorPool, this`nextHandle, this`calls
      ensures Valid()
      ensures pool == descriptorPool && pool != NullHandle
      ensures old(descriptorPool) != NullHandle ==> pool == old(descriptorPool) && calls == old(calls)
      ensures old(descriptorPool) == NullHandle ==> calls == old(calls) + [CreateDescriptorPool(pool)]
    {
      if descriptorPool == NullHandle {
        descriptorPool := Mint();
        calls := calls + [CreateDescriptorPool(descriptorPool)];
      }
      pool := descriptorPool;
    }

    /** `create_buffer`: null when no memory type has the requested
        properties; otherwise a bound buffer of `size` bytes, holding the first
        `size` bytes of `data` when data is given. `memoryTypeBits` is the
        driver's memory requirement for the new buffer. */
    method CreateBuffer(usage: bv32, memFlags: bv32, size: nat, data: Option<seq<bv8>>, memoryTypeBits: nat)
      returns (b: Buffer?)
      requires Valid() && memoryTypeBits < U32Modulus
      requires data.Some? ==> size <= |data.value|
      modifies this`nextHandle, this`calls
      ensures Valid()
      ensures b == null <==>
        forall j :: 0 <= j < |memoryTypes| ==> !SuitableMemoryType(memoryTypes, memoryTypeBits, memFlags, j)
      ensures b == null ==> calls == old(calls) + [Call.CreateBuffer(old(nextHandle), usage, size)]
      ensures b != null ==>
        && fresh(b) && b.Valid()
        && b.handle != NullHandle && b.memory != NullHandle && b.size == size && b.usage == usage
        && FirstSuitable(memoryTypes, memoryTypeBits, memFlags, b.memoryType)
        && b.contents == (if data.Some? then Bytes(data.value[..size]) else Undefined(size))
        && calls == old(calls)
                    + [Call.CreateBuffer(b.handle, usage, size)]
                    + [AllocateMemory(b.memory, b.memoryType, Any(usage, BufferShaderDeviceAddress))]
                    + UploadCalls(b.memory, size, data.Some?, memFlags)
                    + [BindBufferMemory(b.handle, b.memory)]
    {
      var handle := Mint();
      calls := calls + [Call.CreateBuffer(handle, usage, size)];
      var index := MemoryTypeIndex(memoryTypes, memoryTypeBits, memFlags);
      if index.None? {
        return null;
      }
      var memory := Mint();
      calls := calls + [AllocateMemory(memory, index.value, Any(usage, BufferShaderDeviceAddress))];
      var contents := Upload(memory, size, data, memFlags);
      calls := calls + [BindBufferMemory(handle, memory)];
      b := new Buffer(handle, memory, size, usage, index.value, contents);
    }

    /** The upload step of `create_buffer`: when there is data, the memory
        is mapped, the first `size` bytes copied in, the range flushed unless
        the memory is host-coherent, and the memory unmapped. */
    method Upload(memory: Handle, size: nat, data: Option<seq<bv8>>, memFlags: bv32)
      returns (contents: seq<Option<bv8>>)
      requires data.Some? ==> size <= |data.value|
      modifies this`calls
      ensures contents == if data.Some? then Bytes(data.value[..size]) else Undefined(size)
      ensures calls == old(calls) + UploadCalls(memory, size, data.Some?, memFlags)
    {
      contents := Undefined(size);
      if data.Some? {
        calls := calls + [MapAndCopy(memory, size)];
        contents := Bytes(data.value[..size]);
        if !Any(memFlags, MemoryHostCoherent) {
          calls := calls + [FlushMappedRange(memory, size)];
        }
        calls := calls + [UnmapMemory(memory)];
      }
    }

    /** vkCreateFence. */
    method CreateFence(signaled: bool) returns (f: Handle)
      requires Valid()
      modifies this`nextHandle, this`calls, this`fences
      ensures Valid()
      ensures f == old(nextHandle) && f != NullHandle && f !in old(fences) && nextHandle == f + 1
      ensures fences == old(fences)[f := if signaled then Signaled else Unsignaled]
      ensures calls == old(calls) + [Call.CreateFence(f, signaled)]
    {
      f := Mint();
      fences := fences[f := if signaled then Signaled else Unsignaled];
      calls := calls + [Call.CreateFence(f, signaled)];
    }

    /** vkWaitForFences with an infinite timeout. It only returns for a fence
        that is signaled or attached to a submission; waiting is where the
        submission is seen to complete. */
    method WaitForFence(f: Handle)
      requires Valid() && f in fences && fences[f] != Unsignaled
      modifies this`calls, this`fences
      ensures Valid()
      ensures fences == old(fences)[f := Signaled]
      ensures calls == old(calls) + [Call.WaitForFence(f)]
    {
      fences := fences[f := Signaled];
      calls := calls + [Call.WaitForFence(f)];
    }

    /** vkResetFences. */
    method ResetFence(f: Handle)
      requires Valid() && f in fences
      modifies this`calls, this`fences
      ensures Valid()
      ensures fences == old(fences)[f := Unsignaled]
      ensures calls == old(calls) + [Call.ResetFence(f)]
    {
      fences := fences[f := Unsignaled];
      calls := calls + [Call.ResetFence(f)];
    }

    /** vkDestroyFence. */
    method DestroyFence(f: Handle)
      requires Valid()
      modifies this`calls, this`fences
      ensures Valid()
      ensures fences == old(fences) - {f}
      ensures calls == old(calls) + [Call.DestroyFence(f)]
    {
      fences := fences - {f};
      calls := calls + [Call.DestroyFence(f)];
    }

    /** `graphic_queue`: queue `idx` of the graphics family. */
    function GraphicQueue(idx: nat): Queue
      reads this`graphics
    {
      Queue(graphics, idx)
    }

    /** vkQueueSubmit of one command buffer to `queue`; the fence must be
        unsignaled and is pending until the work completes. */
    method Submit(queue: Queue, cmd: Handle, waitSemaphore: Option<Handle>, signalSemaphore: Option<Handle>, f: Handle)
      requires Valid() && f in fences && fences[f] == Unsignaled
      modifies this`calls, this`fences
      ensures Valid()
      ensures fences == old(fences)[f := Pending]
      ensures calls == old(calls) + [QueueSubmit(queue, cmd, waitSemaphore, signalSemaphore, f)]
    {
      fences := fences[f := Pending];
      calls := calls + [QueueSubmit(queue, cmd, waitSemaphore, signalSemaphore, f)];
    }

    /** vkDeviceWaitIdle: every submission completes. */
    method WaitIdle()
      requires Valid()
      modifies this`calls, this`fences
      ensures Valid()
      ensures fences == Settled(old(fences))
      ensures calls == old(calls) + [DeviceWaitIdle]
    {
      fences := Settled(fences);
      calls := calls + [DeviceWaitIdle];
    }

    /** `flushCommandBuffer`: nothing for a null command buffer; otherwise
        end it, submit it to `queue` with a new unsignaled fence, wait for that fence,
        destroy the fence and, when `free` is set, free the command buffer. */
    method FlushCommandBuffer(cmd: Handle, queue: Queue, free: bool)
      requires Valid()
      modifies this`nextHandle, this`calls, this`fences, this`recorded
      ensures Valid()
      ensures fences == old(fences)
      ensures cmd == NullHandle ==> calls == old(calls) && recorded == old(recorded) && nextHandle == old(nextHandle)
      ensures cmd != NullHandle ==>
        var f := old(nextHandle);
        && nextHandle == f + 1
        && calls == old(calls) + [EndCommandBuffer(cmd), Call.CreateFence(f, false), QueueSubmit(queue, cmd, None, None, f),
                                  Call.WaitForFence(f), Call.DestroyFence(f)]
                              + (if free then [FreeCommandBuffers([cmd])] else [])
        && recorded == if free then old(recorded) - {cmd} else old(recorded)
    {
      if cmd == NullHandle {
        return;
      }
      calls := calls + [EndCommandBuffer(cmd)];
      var f := CreateFence(false);
      Submit(queue, cmd, None, None, f);
      WaitForFence(f);
      DestroyFence(f);
      if free {
        calls := calls + [FreeCommandBuffers([cmd])];
        recorded := recorded - {cmd};
      }
    }

    /** `copy_buffer`, under its own assertion that the destination is no
        larger than the source and the guard that the recorded region lies
        inside both buffers: a one-time command buffer records the copy and
        is flushed on `queue`, after which the destination holds the copied
        bytes. */
    method CopyBuffer(src: Buffer, dst: Buffer, queue: Queue, region: Option<BufferCopy>)
      requires Valid() && src.Valid() && dst.Valid()
      requires src.handle != NullHandle && dst.handle != NullHandle
      requires CopyGuardAsWritten(src.size, dst.size)
      requires CopyFits(src.size, dst.size, region)
      modifies this`nextHandle, this`calls, this`fences, this`recorded, dst`contents
      ensures Valid() && dst.Valid()
      ensures dst.contents == CopyRegion(old(dst.contents), old(src.contents), CopyRegionOf(src.size, region))
      ensures fences == old(fences) && recorded == old(recorded)
      ensures
        var cmd, f := old(nextHandle), old(nextHandle) + 1;
        && nextHandle == old(nextHandle) + 2
        && calls == old(calls) + CopyCalls(queue, cmd)
    {
      var copy := CopyRegionOf(src.size, region);
      var cmd := Mint();
      calls := calls + [AllocateCommandBuffers([cmd]), BeginCommandBuffer(cmd)];
      ghost var before := recorded;
      recorded := recorded[cmd := [CmdCopyBuffer(src.handle, dst.handle, copy)]];
      FlushCommandBuffer(cmd, queue, true);
      // The wait inside the flush saw the copy complete.
      dst.contents := CopyRegion(dst.contents, src.contents, copy);
      assert recorded == before by {
        assert cmd !in before;
      }
    }

    /** `createCommandBuffers`: `n` primary command buffers from the default
        pool, allocated in one call. */
    method CreateCommandBuffers(n: nat) returns (cmds: seq<Handle>)
      requires Valid()
      modifies this`nextHandle, this`calls
      ensures Valid()
      ensures |cmds| == n && cmds == Consecutive(old(nextHandle), n)
      ensures forall i :: 0 <= i < n ==> cmds[i] != NullHandle
      ensures nextHandle == old(nextHandle) + n
      ensures calls == old(calls) + [AllocateCommandBuffers(cmds)]
    {
      cmds := Consecutive(nextHandle, n);
      nextHandle := nextHandle + n;
      calls := calls + [AllocateCommandBuffers(cmds)];
    }

    /** `destroyCommandBuffers`: frees them all; the caller's list is left
        empty. */
    method DestroyCommandBuffers(cmds: seq<Handle>) returns (emptied: seq<Handle>)
      requires Valid()
      modifies this`calls, this`recorded
      ensures Valid()
      ensures emptied == []
      ensures recorded.Keys == old(recorded).Keys - set h | h in cmds
      ensures forall h :: h in recorded ==> recorded[h] == old(recorded)[h]
      ensures calls == old(calls) + [FreeCommandBuffers(cmds)]
    {
      calls := calls + [FreeCommandBuffers(cmds)];
      recorded := map h | h in recorded && h !in cmds :: recorded[h];
      emptied := [];
    }

    /** `createFences`: `n` new fences, each created signaled. */
    method CreateFences(n: nat) returns (fs: seq<Handle>)
      requires Valid()
      modifies this`nextHandle, this`calls, this`fences
      ensures Valid()
      ensures |fs| == n && fs == Consecutive(old(nextHandle), n)
      ensures nextHandle == old(nextHandle) + n
      ensures forall i :: 0 <= i < n ==> fs[i] != NullHandle && fs[i] !in old(fences)
      ensures fences == old(fences) + SignaledFences(fs)
      ensures calls == old(calls) + SignaledFenceCalls(fs)
    {
      fs := [];
      var i := 0;
      while i < n
        invariant 0 <= i <= n && Valid()
        invariant fs == Consecutive(old(nextHandle), i) && nextHandle == old(nextHandle) + i
        invariant fences == old(fences) + SignaledFences(fs)
        invariant calls == old(calls) + SignaledFenceCalls(fs)
      {
        var f := CreateFence(true);
        SignaledStep(old(calls), old(fences), fs, f);
        ConsecutiveStep(old(nextHandle), i);
        fs := fs + [f];
        i := i + 1;
      }
    }
  }
}
