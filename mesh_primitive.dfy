/** A drawable primitive of a mesh: its device-local vertex attribute
    buffers, its index buffer and the vertex input layout that describes them.
    Bytes reach device-local memory through a host-visible staging buffer. */
module MeshPrimitive {
  import opened Wrappers
  import opened Vk
  import opened VulkanDevice

  /** No memory type is allowed by `typeBits` and has all of `properties`:
      `create_buffer` then returns null. */
  predicate NoSuitableMemory(types: seq<MemoryType>, typeBits: nat, properties: bv32)
  {
    forall j :: 0 <= j < |types| ==> !SuitableMemoryType(types, typeBits, properties, j)
  }

  class MeshPrimitive {
    const device: Device
    var mode: int
    var pipeline: Handle
    var indexType: int
    var indexCount: nat
    var indexBuf: Buffer?
    var attrBufs: seq<Buffer>
    var inputBind: seq<VertexBinding>
    var inputAttr: seq<VertexAttribute>

    constructor(device: Device)
      ensures this.device == device
      ensures pipeline == NullHandle && indexBuf == null && indexCount == 0
      ensures attrBufs == [] && inputBind == [] && inputAttr == []
    {
      this.device := device;
      mode, pipeline, indexType, indexCount := 0, NullHandle, 0, 0;
      indexBuf := null;
      attrBufs, inputBind, inputAttr := [], [], [];
    }

    /** The two `create_buffer` calls of an upload: the staging buffer filled
        with `data[..n]`, then the empty destination. */
    method CreateStagingPair(data: seq<bv8>, n: nat, usage: bv32, stagingBits: nat, dstBits: nat)
      returns (staging: Buffer?, dst: Buffer?)
      requires device.Valid() && n <= |data|
      requires stagingBits < U32Modulus && dstBits < U32Modulus
      modifies device`nextHandle, device`calls
      ensures device.Valid()
      ensures staging == null <==> NoSuitableMemory(device.memoryTypes, stagingBits, MemoryHostVisible)
      ensures dst == null <==> NoSuitableMemory(device.memoryTypes, dstBits, MemoryDeviceLocal)
      ensures staging != null ==>
        && fresh(staging) && staging.Valid() && staging.handle != NullHandle
        && staging.size == n && staging.contents == Bytes(data[..n])
      ensures dst != null ==>
        && fresh(dst) && dst.Valid() && dst.handle != NullHandle && dst != staging
        && dst.size == n && dst.usage == usage
        && SuitableMemoryType(device.memoryTypes, dstBits, MemoryDeviceLocal, dst.memoryType)
        && dst.contents == Undefined(n)
    {
      staging := device.CreateBuffer(BufferTransferSrc, MemoryHostVisible, n, Some(data), stagingBits);
      dst := device.CreateBuffer(usage, MemoryDeviceLocal, n, None, dstBits);
    }

    /** The staging upload shared by `add_vertex_buf` and `set_index_buf`: a
        host-visible TRANSFER_SRC buffer filled with `data[..n]`, a
        device-local buffer of the same size with `usage`, and a whole-buffer
        copy from the first into the second. Null when either buffer could
        not be created; the source would then dereference null inside
        `copy_buffer`. `stagingBits` and `dstBits` are the driver's memory
        requirements of the two buffers; `transferQueue` is the queue the
        device's `transfer_queue()` hands out, which is not part of this
        model. */
    method Upload(data: seq<bv8>, n: nat, usage: bv32, stagingBits: nat, dstBits: nat, transferQueue: Queue)
      returns (dst: Buffer?)
      requires device.Valid() && n <= |data|
      requires stagingBits < U32Modulus && dstBits < U32Modulus
      modifies device`nextHandle, device`calls, device`fences, device`recorded
      ensures device.Valid()
      ensures device.fences == old(device.fences) && device.recorded == old(device.recorded)
      ensures dst == null <==>
        NoSuitableMemory(device.memoryTypes, stagingBits, MemoryHostVisible)
        || NoSuitableMemory(device.memoryTypes, dstBits, MemoryDeviceLocal)
      ensures dst != null ==>
        && fresh(dst) && dst.Valid() && dst.handle != NullHandle
        && dst.size == n && dst.usage == usage
        && SuitableMemoryType(device.memoryTypes, dstBits, MemoryDeviceLocal, dst.memoryType)
        && dst.contents == Bytes(data[..n])
      ensures dst != null ==>
        var n := |device.calls|;
        n >= 8 && device.nextHandle >= 2 && device.calls[n - 8..] == CopyCalls(transferQueue, device.nextHandle - 2)
    {
      var staging;
      staging, dst := CreateStagingPair(data, n, usage, stagingBits, dstBits);
      if staging == null || dst == null {
        return null;
      }
      // Both sizes are n, so the written guard and the whole-copy region agree.
      CopyFitsWhole(n, n);
      device.CopyBuffer(staging, dst, transferQueue, None);
      assert device.calls[|device.calls| - 8..] == CopyCalls(transferQueue, device.nextHandle - 2);
      WholeCopyReplaces(Undefined(n), Bytes(data[..n]));
    }

    /** `add_vertex_buf`: appends one device-local VERTEX | TRANSFER_DST
        buffer holding `data[..n]`; the buffers already there stay as they
        were. */
    method AddVertexBuf(data: seq<bv8>, n: nat, stagingBits: nat, dstBits: nat, transferQueue: Queue) returns (r: Result<()>)
      requires device.Valid() && n <= |data|
      requires stagingBits < U32Modulus && dstBits < U32Modulus
      modifies this`attrBufs, device`nextHandle, device`calls, device`fences, device`recorded
      ensures device.Valid()
      ensures device.fences == old(device.fences) && device.recorded == old(device.recorded)
      ensures r.Err? <==>
        NoSuitableMemory(device.memoryTypes, stagingBits, MemoryHostVisible)
        || NoSuitableMemory(device.memoryTypes, dstBits, MemoryDeviceLocal)
      ensures r.Err? ==> r.error == NullBuffer && attrBufs == old(attrBufs)
      ensures r.Ok? ==>
        && |attrBufs| == |old(attrBufs)| + 1
        && attrBufs[..|old(attrBufs)|] == old(attrBufs)
        && var b := attrBufs[|old(attrBufs)|];
           && fresh(b) && b.Valid() && b.handle != NullHandle
           && b.size == n && b.usage == BufferVertex | BufferTransferDst
           && SuitableMemoryType(device.memoryTypes, dstBits, MemoryDeviceLocal, b.memoryType)
           && b.contents == Bytes(data[..n])
    {
      var dst := Upload(data, n, BufferVertex | BufferTransferDst, stagingBits, dstBits, transferQueue);
      if dst == null {
        return Err(NullBuffer);
      }
      attrBufs := attrBufs + [dst];
      assert attrBufs[..|old(attrBufs)|] == old(attrBufs);
      return Ok(());
    }

    /** `set_index_buf`: replaces the index buffer by a device-local
        INDEX | TRANSFER_DST buffer holding `data[..n]`. */
    method SetIndexBuf(data: seq<bv8>, n: nat, stagingBits: nat, dstBits: nat, transferQueue: Queue) returns (r: Result<()>)
      requires device.Valid() && n <= |data|
      requires stagingBits < U32Modulus && dstBits < U32Modulus
      modifies this`indexBuf, device`nextHandle, device`calls, device`fences, device`recorded
      ensures device.Valid()
      ensures device.fences == old(device.fences) && device.recorded == old(device.recorded)
      ensures r.Err? <==>
        NoSuitableMemory(device.memoryTypes, stagingBits, MemoryHostVisible)
        || NoSuitableMemory(device.memoryTypes, dstBits, MemoryDeviceLocal)
      ensures r.Err? ==> r.error == NullBuffer && indexBuf == old(indexBuf)
      ensures r.Ok? ==>
        && indexBuf != null && fresh(indexBuf) && indexBuf.Valid() && indexBuf.handle != NullHandle
        && indexBuf.size == n && indexBuf.usage == BufferIndex | BufferTransferDst
        && SuitableMemoryType(device.memoryTypes, dstBits, MemoryDeviceLocal, indexBuf.memoryType)
        && indexBuf.contents == Bytes(data[..n])
    {
      var dst := Upload(data, n, BufferIndex | BufferTransferDst, stagingBits, dstBits, transferQueue);
      if dst == null {
        return Err(NullBuffer);
      }
      indexBuf := dst;
      return Ok(());
    }
  }
}
