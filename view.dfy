/** The view: the per-image frame resources (command buffers, framebuffers,
    fences, the depth image), their recording, and the per-frame fence
    protocol of acquire, wait, reset, submit and present. */
module VulkanView {
  import opened Wrappers
  import opened Vk
  import opened VulkanDevice
  import opened VulkanSwapChain

  /** The results `render` carries on with: success, or a suboptimal but
      usable swapchain. */
  predicate Acceptable(result: int)
  {
    result == Success || result == SuboptimalKhr
  }

  /** What `build_command_buffers` records for one image: a render pass over
      the whole view on that image's framebuffer, bracketing the viewport
      (flipped vertically), the scissor, the scene and, when there is one,
      the overlay. */
  function FrameCommands(renderPass: Handle, framebuffer: Handle, w: nat, h: nat, overlay: bool): (r: seq<Cmd>)
    ensures |r| == if overlay then 6 else 5
    ensures r[0] == CmdBeginRenderPass(renderPass, framebuffer, w, h) && r[|r| - 1] == CmdEndRenderPass
    ensures forall k :: 0 < k < |r| - 1 ==> !r[k].CmdBeginRenderPass? && !r[k].CmdEndRenderPass?
    ensures r[1].CmdSetViewport? && r[1].y == h && r[1].y + r[1].height == 0 && r[1].width == w
    ensures r[2] == CmdSetScissor(w, h) && r[3] == CmdDrawScene
    ensures CmdDrawOverlay in r <==> overlay
  {
    [CmdBeginRenderPass(renderPass, framebuffer, w, h), CmdSetViewport(h, w, -(h as int)), CmdSetScissor(w, h), CmdDrawScene]
    + (if overlay then [CmdDrawOverlay] else [])
    + [CmdEndRenderPass]
  }

  /** The begin/end driver calls of recording `cmds` one after the other. */
  function RecordCalls(cmds: seq<Handle>): (r: seq<Call>)
    ensures |r| == 2 * |cmds|
    decreases |cmds|
  {
    if cmds == [] then []
    else RecordCalls(cmds[..|cmds| - 1]) + [BeginCommandBuffer(cmds[|cmds| - 1]), EndCommandBuffer(cmds[|cmds| - 1])]
  }

  /** Buffer k is begun at call 2k and ended at call 2k + 1: no recording
      overlaps another. */
  lemma {:induction false} RecordCallsPairs(cmds: seq<Handle>)
    ensures forall k :: 0 <= k < |cmds| ==>
              RecordCalls(cmds)[2 * k] == BeginCommandBuffer(cmds[k]) &&
              RecordCalls(cmds)[2 * k + 1] == EndCommandBuffer(cmds[k])
    decreases |cmds|
  {
    if cmds != [] {
      var p := cmds[..|cmds| - 1];
      RecordCallsPairs(p);
      assert RecordCalls(cmds) == RecordCalls(p) + [BeginCommandBuffer(cmds[|cmds| - 1]), EndCommandBuffer(cmds[|cmds| - 1])];
      assert forall k :: 0 <= k < |p| ==> p[k] == cmds[k];
    }
  }

  /** The command-buffer recordings after recording `cmds[i]` against
      `fbs[i]`, one after the other, starting from `m`. */
  function RecordAll(m: map<Handle, seq<Cmd>>, cmds: seq<Handle>, fbs: seq<Handle>,
                     renderPass: Handle, w: nat, h: nat, overlay: bool): map<Handle, seq<Cmd>>
    requires |cmds| == |fbs|
    decreases |cmds|
  {
    if cmds == [] then m
    else RecordAll(m, cmds[..|cmds| - 1], fbs[..|fbs| - 1], renderPass, w, h, overlay)
           [cmds[|cmds| - 1] := FrameCommands(renderPass, fbs[|fbs| - 1], w, h, overlay)]
  }

  /** Recording one more buffer appends its begin/end pair and records its
      commands on top of the earlier recordings. */
  lemma RecordStep(log: seq<Call>, m: map<Handle, seq<Cmd>>, cmds: seq<Handle>, fbs: seq<Handle>, i: nat,
                   renderPass: Handle, w: nat, h: nat, overlay: bool)
    requires |cmds| == |fbs| && i < |cmds|
    ensures log + RecordCalls(cmds[..i + 1])
         == log + RecordCalls(cmds[..i]) + [BeginCommandBuffer(cmds[i]), EndCommandBuffer(cmds[i])]
    ensures RecordAll(m, cmds[..i + 1], fbs[..i + 1], renderPass, w, h, overlay)
         == RecordAll(m, cmds[..i], fbs[..i], renderPass, w, h, overlay)[cmds[i] := FrameCommands(renderPass, fbs[i], w, h, overlay)]
  {
    assert cmds[..i + 1][..i] == cmds[..i];
    assert fbs[..i + 1][..i] == fbs[..i];
  }

  /** Recording adds exactly the recorded buffers. */
  lemma {:induction false} RecordAllKeys(m: map<Handle, seq<Cmd>>, cmds: seq<Handle>, fbs: seq<Handle>,
                                         renderPass: Handle, w: nat, h: nat, overlay: bool)
    requires |cmds| == |fbs|
    ensures forall c :: c in RecordAll(m, cmds, fbs, renderPass, w, h, overlay) <==> c in m || c in cmds
    decreases |cmds|
  {
    if cmds != [] {
      var n := |cmds| - 1;
      RecordAllKeys(m, cmds[..n], fbs[..n], renderPass, w, h, overlay);
      assert cmds == cmds[..n] + [cmds[n]];
    }
  }

  /** For distinct command buffers, buffer i ends up holding the commands
      for framebuffer i. */
  lemma {:induction false} RecordAllValues(m: map<Handle, seq<Cmd>>, cmds: seq<Handle>, fbs: seq<Handle>,
                                           renderPass: Handle, w: nat, h: nat, overlay: bool)
    requires |cmds| == |fbs|
    requires forall i, j :: 0 <= i < j < |cmds| ==> cmds[i] != cmds[j]
    ensures forall i :: 0 <= i < |cmds| ==>
              var r := RecordAll(m, cmds, fbs, renderPass, w, h, overlay);
              cmds[i] in r && r[cmds[i]] == FrameCommands(renderPass, fbs[i], w, h, overlay)
    decreases |cmds|
  {
    if cmds != [] {
      var n := |cmds| - 1;
      RecordAllValues(m, cmds[..n], fbs[..n], renderPass, w, h, overlay);
    }
  }

  /** Recording leaves every other buffer's recording as it was. */
  lemma {:induction false} RecordAllOthers(m: map<Handle, seq<Cmd>>, cmds: seq<Handle>, fbs: seq<Handle>,
                                           renderPass: Handle, w: nat, h: nat, overlay: bool)
    requires |cmds| == |fbs|
    ensures forall c :: c in m && c !in cmds ==>
              var r := RecordAll(m, cmds, fbs, renderPass, w, h, overlay);
              c in r && r[c] == m[c]
    decreases |cmds|
  {
    if cmds != [] {
      var n := |cmds| - 1;
      RecordAllOthers(m, cmds[..n], fbs[..n], renderPass, w, h, overlay);
      assert forall c :: c in cmds[..n] ==> c in cmds;
    }
  }

  /** The calls that destroy the framebuffers `fbs`, in order. */
  function DestroyFramebufferCalls(fbs: seq<Handle>): (r: seq<Call>)
    ensures |r| == |fbs| && forall i :: 0 <= i < |fbs| ==> r[i] == DestroyFramebuffer(fbs[i])
  {
    seq(|fbs|, i requires 0 <= i < |fbs| => DestroyFramebuffer(fbs[i]))
  }

  /** The calls that destroy the fences `fs`, in order. */
  function DestroyFenceCalls(fs: seq<Handle>): (r: seq<Call>)
    ensures |r| == |fs| && forall i :: 0 <= i < |fs| ==> r[i] == DestroyFence(fs[i])
  {
    seq(|fs|, i requires 0 <= i < |fs| => DestroyFence(fs[i]))
  }

  /** The allocation step of `check_frame`: one allocation of `cmds` when the
      number of command buffers had to change, nothing otherwise. */
  function AllocCalls(resized: bool, cmds: seq<Handle>): seq<Call>
  {
    if resized then [AllocateCommandBuffers(cmds)] else []
  }

  /** The fence step of `check_frame`: when the number of fences had to
      change, every old fence destroyed and then the new ones created
      signaled; nothing otherwise. */
  function FenceCalls(resized: bool, oldFences: seq<Handle>, newFences: seq<Handle>): seq<Call>
  {
    if resized then DestroyFenceCalls(oldFences) + SignaledFenceCalls(newFences) else []
  }

  /** The fence step spelt out: both of its cases extend a log as the two
      branches of `check_frame` do. */
  lemma FenceCallsCases(log: seq<Call>, oldFences: seq<Handle>, newFences: seq<Handle>)
    ensures log + FenceCalls(false, oldFences, newFences) == log
    ensures log + FenceCalls(true, oldFences, newFences) == log + DestroyFenceCalls(oldFences) + SignaledFenceCalls(newFences)
  {
  }

  /** The calls of `update`: a re-recording of `cmds` after the device is
      idle when the overlay changed, nothing otherwise. */
  function UpdateCalls(changed: bool, cmds: seq<Handle>): seq<Call>
  {
    if changed then [DeviceWaitIdle] + RecordCalls(cmds) else []
  }

  /** The calls of `clear_frame`: the framebuffers `fbs` in order, then the
      depth view, image and memory of `d`. */
  function ClearCalls(fbs: seq<Handle>, d: DepthImage): seq<Call>
  {
    DestroyFramebufferCalls(fbs) + [DestroyImageView(d.view), DestroyImage(d.image), FreeMemory(d.mem)]
  }

  /** A VulkanView on one device, with its own swapchain. */
  class View {
    const device: Device
    const swapchain: SwapChain
    /** Whether the user-interface overlay exists; the view creates it when
        it is initialised, so it is there for every frame. */
    const hasOverlay: bool
    var w: nat
    var h: nat
    var frame: nat
    var renderPass: Handle
    var presentSemaphore: Handle
    var renderSemaphore: Handle
    var cmdBufs: seq<Handle>
    var frameBufs: seq<Handle>
    var fences: seq<Handle>
    var depth: DepthImage

    /** The invariant every operation keeps: the command buffers are distinct
        live handles, and no fence of the view is unsignaled without a
        submission, so waiting on any of them returns. */
    ghost predicate Valid()
      reads this, device, swapchain
    {
      && swapchain.device == device && swapchain.Valid()
      && presentSemaphore != NullHandle && renderSemaphore != NullHandle
      && (forall i :: 0 <= i < |cmdBufs| ==> cmdBufs[i] != NullHandle && cmdBufs[i] < device.nextHandle)
      && (forall i, j :: 0 <= i < j < |cmdBufs| ==> cmdBufs[i] != cmdBufs[j])
      && (forall i :: 0 <= i < |fences| ==> fences[i] in device.fences && device.fences[fences[i]] != Unsignaled)
    }

    /** One command buffer, framebuffer and fence per swapchain image. */
    ghost predicate FrameSized()
      reads this, swapchain
    {
      |cmdBufs| == swapchain.ImageCount() && |frameBufs| == |cmdBufs| && |fences| == |cmdBufs|
    }

    /** Command buffer i holds the commands of a frame on framebuffer i, at
        the view's size and with its render pass. */
    ghost predicate FrameRecorded()
      reads this, device`recorded
    {
      && |frameBufs| == |cmdBufs|
      && forall i :: 0 <= i < |cmdBufs| ==>
           cmdBufs[i] in device.recorded && device.recorded[cmdBufs[i]] == FrameCommands(renderPass, frameBufs[i], w, h, hasOverlay)
    }

    /** The calls of a successful `check_frame` that found `oldCmdCount`
        command buffers and the fences `oldFences` and took the depth memory
        from type `memType`, in terms of the frame it left: the command
        buffers when their number changed, the depth image, one framebuffer
        per image, the recording after an idle wait, and the fences when
        their number changed. */
    ghost function CheckFrameCalls(oldCmdCount: nat, oldFences: seq<Handle>, memType: nat): seq<Call>
      reads this, swapchain
      requires |frameBufs| <= |swapchain.buffers|
    {
      AllocCalls(oldCmdCount != swapchain.ImageCount(), cmdBufs)
      + DepthCalls(depth, swapchain.depthFormat, w, h, memType)
      + FramebufferCalls(frameBufs, swapchain.buffers, renderPass, depth.view, swapchain.width, swapchain.height)
      + [DeviceWaitIdle] + RecordCalls(cmdBufs)
      + FenceCalls(|oldFences| != |cmdBufs|, oldFences, fences)
    }

    /** The constructor and `initialize`: a swapchain on the device and the
        two semaphores of the frame protocol. */
    constructor(device: Device, hasOverlay: bool)
      requires device.Valid()
      modifies device`nextHandle, device`calls
      ensures Valid() && FrameSized()
      ensures this.device == device && this.hasOverlay == hasOverlay
      ensures fresh(swapchain) && swapchain.swapChain == NullHandle && swapchain.images == []
      ensures cmdBufs == [] && frameBufs == [] && fences == [] && depth == NullDepth
      ensures frame == 0 && renderPass == NullHandle
      ensures device.calls == old(device.calls) + [CreateSemaphore(presentSemaphore), CreateSemaphore(renderSemaphore)]
    {
      this.device := device;
      this.hasOverlay := hasOverlay;
      var sc := new SwapChain(device);
      swapchain := sc;
      var ps := device.Mint();
      var rs := device.Mint();
      device.calls := device.calls + [CreateSemaphore(ps), CreateSemaphore(rs)];
      presentSemaphore, renderSemaphore := ps, rs;
      w, h, frame := 0, 0, 0;
      renderPass := NullHandle;
      cmdBufs, frameBufs, fences := [], [], [];
      depth := NullDepth;
    }

    /** The first step of `check_frame`: new command buffers only when their
        number differs from the image count. The old ones are not freed. */
    method SizeCommandBuffers()
      requires Valid()
      modifies this`cmdBufs, device`nextHandle, device`calls
      ensures Valid() && |cmdBufs| == swapchain.ImageCount() && device.nextHandle >= old(device.nextHandle)
      ensures |old(cmdBufs)| == swapchain.ImageCount() ==> cmdBufs == old(cmdBufs) && device.calls == old(device.calls)
      ensures |old(cmdBufs)| != swapchain.ImageCount() ==>
                device.calls == old(device.calls) + [AllocateCommandBuffers(cmdBufs)]
      ensures device.calls == old(device.calls) + AllocCalls(|old(cmdBufs)| != swapchain.ImageCount(), cmdBufs)
    {
      var count := swapchain.ImageCount();
      if count != |cmdBufs| {
        cmdBufs := device.CreateCommandBuffers(count);
      }
    }

    /** The last step of `check_frame`: when the number of fences differs from
        the number of command buffers, every old fence is destroyed and as
        many new signaled fences as command buffers are created. */
    method SizeFences()
      requires Valid()
      modifies this`fences, device`nextHandle, device`calls, device`fences
      ensures Valid() && |fences| == |cmdBufs| && device.nextHandle >= old(device.nextHandle)
      ensures |old(fences)| == |cmdBufs| ==>
                fences == old(fences) && device.calls == old(device.calls) && device.fences == old(device.fences)
      ensures |old(fences)| != |cmdBufs| ==>
        && device.calls == old(device.calls) + DestroyFenceCalls(old(fences))
                           + SignaledFenceCalls(fences)
        && (forall i :: 0 <= i < |old(fences)| ==> old(fences)[i] !in device.fences)
        && (forall i :: 0 <= i < |fences| ==> device.fences[fences[i]] == Signaled)
      ensures device.calls == old(device.calls) + FenceCalls(|old(fences)| != |cmdBufs|, old(fences), fences)
    {
      if |fences| != |cmdBufs| {
        assert forall j :: 0 <= j < |fences| ==> fences[j] < device.nextHandle;
        DestroyFences(fences);
        ghost var base := device.nextHandle;
        ghost var olds := fences;
        fences := device.CreateFences(|cmdBufs|);
        forall j | 0 <= j < |olds|
          ensures olds[j] !in device.fences
        {
          assert olds[j] < base;
          assert olds[j] !in fences;
        }
        FenceCallsCases(old(device.calls), olds, fences);
      } else {
        FenceCallsCases(old(device.calls), fences, fences);
      }
    }

    /** The destroy loop of `check_frame`'s fence step: each fence of `fs`
        destroyed in order, and no other fence touched. */
    method DestroyFences(fs: seq<Handle>)
      requires device.Valid()
      modifies device`calls, device`fences
      ensures device.Valid()
      ensures device.fences == old(device.fences) - (set f | f in fs)
      ensures device.calls == old(device.calls) + DestroyFenceCalls(fs)
    {
      var i := 0;
      while i < |fs|
        invariant 0 <= i <= |fs| && device.Valid()
        invariant device.calls == old(device.calls) + DestroyFenceCalls(fs[..i])
        invariant device.fences == old(device.fences) - (set f | f in fs[..i])
      {
        device.DestroyFence(fs[i]);
        assert DestroyFenceCalls(fs[..i + 1]) == DestroyFenceCalls(fs[..i]) + [DestroyFence(fs[i])];
        assert fs[..i + 1] == fs[..i] + [fs[i]];
        i := i + 1;
      }
      assert fs[..i] == fs;
    }

    /** `build_command_buffers`: after the device is idle, buffer i is
        recorded against framebuffer i, in the order of the command
        buffers. */
    method BuildCommandBuffers(framebuffers: seq<Handle>, renderPass: Handle)
      requires Valid() && |framebuffers| == |cmdBufs|
      modifies device`calls, device`fences, device`recorded
      ensures Valid()
      ensures device.fences == Settled(old(device.fences))
      ensures device.calls == old(device.calls) + [DeviceWaitIdle] + RecordCalls(cmdBufs)
      ensures device.recorded == RecordAll(old(device.recorded), cmdBufs, framebuffers, renderPass, w, h, hasOverlay)
    {
      device.WaitIdle();
      RecordBuffers(framebuffers, renderPass);
    }

    /** The loop of `build_command_buffers`: buffer i recorded against
        framebuffer i, in the order of the command buffers. */
    method RecordBuffers(framebuffers: seq<Handle>, renderPass: Handle)
      requires device.Valid() && |framebuffers| == |cmdBufs|
      requires forall i :: 0 <= i < |cmdBufs| ==> cmdBufs[i] < device.nextHandle
      modifies device`calls, device`recorded
      ensures device.Valid()
      ensures device.calls == old(device.calls) + RecordCalls(cmdBufs)
      ensures device.recorded == RecordAll(old(device.recorded), cmdBufs, framebuffers, renderPass, w, h, hasOverlay)
    {
      var i := 0;
      while i < |cmdBufs|
        invariant 0 <= i <= |cmdBufs| && device.Valid()
        invariant device.calls == old(device.calls) + RecordCalls(cmdBufs[..i])
        invariant device.recorded == RecordAll(old(device.recorded), cmdBufs[..i], framebuffers[..i], renderPass, w, h, hasOverlay)
      {
        RecordBuffer(cmdBufs[i], framebuffers[i], renderPass);
        RecordStep(old(device.calls), old(device.recorded), cmdBufs, framebuffers, i, renderPass, w, h, hasOverlay);
        i := i + 1;
      }
      assert cmdBufs[..i] == cmdBufs;
      assert framebuffers[..i] == framebuffers;
    }

    /** One pass of `build_command_buffers`: begin the buffer, record the
        frame's commands into it, end it. */
    method RecordBuffer(cmd: Handle, framebuffer: Handle, renderPass: Handle)
      requires device.Valid() && cmd < device.nextHandle
      modifies device`calls, device`recorded
      ensures device.Valid()
      ensures device.calls == old(device.calls) + [BeginCommandBuffer(cmd), EndCommandBuffer(cmd)]
      ensures device.recorded == old(device.recorded)[cmd := FrameCommands(renderPass, framebuffer, w, h, hasOverlay)]
    {
      device.calls := device.calls + [BeginCommandBuffer(cmd)];
      device.recorded := device.recorded[cmd := FrameCommands(renderPass, framebuffer, w, h, hasOverlay)];
      device.calls := device.calls + [EndCommandBuffer(cmd)];
    }

    /** `clear_frame`: every framebuffer destroyed and the list emptied, then
        the depth view, image and memory, and the depth unit reset to null
        handles. */
    method ClearFrame()
      requires Valid()
      modifies this`frameBufs, this`depth, device`calls
      ensures Valid()
      ensures frameBufs == [] && depth == NullDepth
      ensures device.calls == old(device.calls) + ClearCalls(old(frameBufs), old(depth))
    {
      var i := 0;
      while i < |frameBufs|
        invariant 0 <= i <= |frameBufs| && device.Valid()
        invariant device.calls == old(device.calls) + DestroyFramebufferCalls(frameBufs[..i])
        invariant frameBufs == old(frameBufs) && depth == old(depth)
      {
        device.calls := device.calls + [DestroyFramebuffer(frameBufs[i])];
        assert DestroyFramebufferCalls(frameBufs[..i + 1])
            == DestroyFramebufferCalls(frameBufs[..i]) + [DestroyFramebuffer(frameBufs[i])];
        i := i + 1;
      }
      assert frameBufs[..i] == frameBufs;
      frameBufs := [];
      device.calls := device.calls + [DestroyImageView(depth.view), DestroyImage(depth.image), FreeMemory(depth.mem)];
      depth := NullDepth;
    }

    /** `check_frame`: command buffers sized to the image count, a new depth
        image, one framebuffer per image, every command buffer recorded, and
        fences sized to the command buffers. Throwing for a missing
        device-local memory type is `Err`; `memoryTypeBits` is the driver's
        memory requirement for the depth image. */
    method CheckFrame(memoryTypeBits: nat) returns (r: Result<()>, ghost memType: nat)
      requires Valid() && memoryTypeBits < U32Modulus
      modifies this`cmdBufs, this`depth, this`frameBufs, this`fences,
               device`nextHandle, device`calls, device`fences, device`recorded
      ensures Valid() && device.nextHandle >= old(device.nextHandle)
      ensures |cmdBufs| == swapchain.ImageCount()
      ensures |old(cmdBufs)| == swapchain.ImageCount() ==> cmdBufs == old(cmdBufs)
      ensures r.Err? <==> forall j :: 0 <= j < |device.memoryTypes| ==>
                !SuitableMemoryType(device.memoryTypes, memoryTypeBits, MemoryDeviceLocal, j)
      ensures r.Err? ==>
        && r.error == NoMemoryType && depth == old(depth) && frameBufs == old(frameBufs) && fences == old(fences)
        && device.nextHandle > 0
        && device.calls == old(device.calls) + AllocCalls(|old(cmdBufs)| != swapchain.ImageCount(), cmdBufs)
             + [CreateImage(device.nextHandle - 1, swapchain.depthFormat, w, h)]
      ensures r.Ok? ==>
        && FrameSized() && FrameRecorded()
        && FirstSuitable(device.memoryTypes, memoryTypeBits, MemoryDeviceLocal, memType)
        && depth.image != NullHandle && depth.view != NullHandle && depth.mem != NullHandle
        && (|old(fences)| == |cmdBufs| ==> fences == old(fences))
        && (|old(fences)| != |cmdBufs| ==> forall i :: 0 <= i < |old(fences)| ==> old(fences)[i] !in device.fences)
        && device.recorded == RecordAll(old(device.recorded), cmdBufs, frameBufs, renderPass, w, h, hasOverlay)
        && device.calls == old(device.calls) + CheckFrameCalls(|old(cmdBufs)|, old(fences), memType)
    {
      r, memType := PrepareFrame(memoryTypeBits);
      if r.Err? {
        return;
      }
      RecordFrame();
      LogSteps(old(device.calls), AllocCalls(|old(cmdBufs)| != swapchain.ImageCount(), cmdBufs),
               DepthCalls(depth, swapchain.depthFormat, w, h, memType),
               FramebufferCalls(frameBufs, swapchain.buffers, renderPass, depth.view, swapchain.width, swapchain.height),
               [DeviceWaitIdle], RecordCalls(cmdBufs), FenceCalls(|old(fences)| != |cmdBufs|, old(fences), fences));
    }

    /** The end of `check_frame`: every command buffer recorded against its
        framebuffer, then the fences sized to the command buffers. */
    method RecordFrame()
      requires Valid() && |frameBufs| == |cmdBufs|
      modifies this`fences, device`nextHandle, device`calls, device`fences, device`recorded
      ensures Valid() && |fences| == |cmdBufs| && device.nextHandle >= old(device.nextHandle)
      ensures |old(fences)| == |cmdBufs| ==> fences == old(fences)
      ensures |old(fences)| != |cmdBufs| ==> forall i :: 0 <= i < |old(fences)| ==> old(fences)[i] !in device.fences
      ensures device.recorded == RecordAll(old(device.recorded), cmdBufs, frameBufs, renderPass, w, h, hasOverlay)
      ensures FrameRecorded()
      ensures device.calls == old(device.calls) + [DeviceWaitIdle] + RecordCalls(cmdBufs)
                + FenceCalls(|old(fences)| != |cmdBufs|, old(fences), fences)
    {
      BuildCommandBuffers(frameBufs, renderPass);
      RecordAllValues(old(device.recorded), cmdBufs, frameBufs, renderPass, w, h, hasOverlay);
      SizeFences();
    }

    /** The start of `check_frame`: command buffers sized to the image
        count, then the depth image and the framebuffers. */
    method PrepareFrame(memoryTypeBits: nat) returns (r: Result<()>, ghost memType: nat)
      requires Valid() && memoryTypeBits < U32Modulus
      modifies this`cmdBufs, this`depth, this`frameBufs, device`nextHandle, device`calls
      ensures Valid() && device.nextHandle >= old(device.nextHandle)
      ensures |cmdBufs| == swapchain.ImageCount()
      ensures |old(cmdBufs)| == swapchain.ImageCount() ==> cmdBufs == old(cmdBufs)
      ensures r.Err? <==> forall j :: 0 <= j < |device.memoryTypes| ==>
                !SuitableMemoryType(device.memoryTypes, memoryTypeBits, MemoryDeviceLocal, j)
      ensures r.Err? ==>
        && r.error == NoMemoryType && depth == old(depth) && frameBufs == old(frameBufs)
        && device.nextHandle > 0
        && device.calls == old(device.calls) + AllocCalls(|old(cmdBufs)| != swapchain.ImageCount(), cmdBufs)
             + [CreateImage(device.nextHandle - 1, swapchain.depthFormat, w, h)]
      ensures r.Ok? ==>
        && |frameBufs| == |cmdBufs|
        && FirstSuitable(device.memoryTypes, memoryTypeBits, MemoryDeviceLocal, memType)
        && depth.image != NullHandle && depth.view != NullHandle && depth.mem != NullHandle
        && device.calls == old(device.calls) + AllocCalls(|old(cmdBufs)| != swapchain.ImageCount(), cmdBufs)
             + DepthCalls(depth, swapchain.depthFormat, w, h, memType)
             + FramebufferCalls(frameBufs, swapchain.buffers, renderPass, depth.view, swapchain.width, swapchain.height)
    {
      SizeCommandBuffers();
      r, memType := CreateAttachments(memoryTypeBits);
    }

    /** The middle of `check_frame`: a new depth image of the view's size and
        one framebuffer per swapchain image, or `Err` when no device-local
        memory type fits. */
    method CreateAttachments(memoryTypeBits: nat) returns (r: Result<()>, ghost memType: nat)
      requires Valid() && memoryTypeBits < U32Modulus
      modifies this`depth, this`frameBufs, device`nextHandle, device`calls
      ensures Valid() && device.nextHandle >= old(device.nextHandle)
      ensures r.Err? <==> forall j :: 0 <= j < |device.memoryTypes| ==>
                !SuitableMemoryType(device.memoryTypes, memoryTypeBits, MemoryDeviceLocal, j)
      ensures r.Err? ==>
        && r.error == NoMemoryType && depth == old(depth) && frameBufs == old(frameBufs)
        && device.nextHandle == old(device.nextHandle) + 1
        && device.calls == old(device.calls) + [CreateImage(old(device.nextHandle), swapchain.depthFormat, w, h)]
      ensures r.Ok? ==>
        && |frameBufs| == swapchain.ImageCount()
        && FirstSuitable(device.memoryTypes, memoryTypeBits, MemoryDeviceLocal, memType)
        && depth.image != NullHandle && depth.view != NullHandle && depth.mem != NullHandle
        && device.calls == old(device.calls) + DepthCalls(depth, swapchain.depthFormat, w, h, memType)
             + FramebufferCalls(frameBufs, swapchain.buffers, renderPass, depth.view, swapchain.width, swapchain.height)
    {
      var d;
      d, memType := swapchain.CreateDepthImage(w, h, memoryTypeBits);
      if d.Err? {
        return Err(d.error), memType;
      }
      depth := d.value;
      frameBufs := swapchain.CreateFrameBuffer(renderPass, depth);
      r := Ok(());
    }

    /** `update`: the command buffers are re-recorded only when the overlay
        reports a change. */
    method Update(overlayChanged: bool)
      requires Valid() && (overlayChanged ==> |frameBufs| == |cmdBufs|)
      modifies device`calls, device`fences, device`recorded
      ensures Valid()
      ensures !overlayChanged ==>
                device.calls == old(device.calls) && device.recorded == old(device.recorded) && device.fences == old(device.fences)
      ensures overlayChanged ==>
        && device.calls == old(device.calls) + [DeviceWaitIdle] + RecordCalls(cmdBufs)
        && device.recorded == RecordAll(old(device.recorded), cmdBufs, frameBufs, renderPass, w, h, hasOverlay)
        && FrameRecorded()
      ensures device.calls == old(device.calls) + UpdateCalls(overlayChanged, cmdBufs)
    {
      if overlayChanged {
        BuildCommandBuffers(frameBufs, renderPass);
        RecordAllValues(old(device.recorded), cmdBufs, frameBufs, renderPass, w, h, hasOverlay);
      }
    }

    /** `resize_impl`: the new size, then `check_frame`. */
    method ResizeImpl(w: nat, h: nat, memoryTypeBits: nat) returns (r: Result<()>, ghost memType: nat)
      requires Valid() && memoryTypeBits < U32Modulus
      modifies this`w, this`h, this`cmdBufs, this`depth, this`frameBufs, this`fences,
               device`nextHandle, device`calls, device`fences, device`recorded
      ensures Valid() && this.w == w && this.h == h && device.nextHandle >= old(device.nextHandle)
      ensures r.Err? <==> forall j :: 0 <= j < |device.memoryTypes| ==>
                !SuitableMemoryType(device.memoryTypes, memoryTypeBits, MemoryDeviceLocal, j)
      ensures r.Ok? ==>
        && FrameSized() && FrameRecorded()
        && FirstSuitable(device.memoryTypes, memoryTypeBits, MemoryDeviceLocal, memType)
        && device.calls == old(device.calls) + CheckFrameCalls(|old(cmdBufs)|, old(fences), memType)
    {
      this.w, this.h := w, h;
      r, memType := CheckFrame(memoryTypeBits);
    }

    /** `set_surface`: the surface, a vsync (hence FIFO) swapchain of the
        given size, the render pass, then `resize_impl`. The driver's answers
        for the surface and the depth image are parameters. */
    method SetSurface(surface: Handle, w: nat, h: nat, supportsPresent: seq<bool>, formats: seq<SurfaceFormat>,
                      caps: SurfaceCaps, modes: seq<int>, imageCount: nat, memoryTypeBits: nat)
      returns (r: Result<()>, ghost memType: nat)
      requires Valid() && |supportsPresent| == |device.queueFamilies| && |formats| > 0
      requires caps.minImageCount < U32Modulus && caps.maxImageCount < U32Modulus
      requires memoryTypeBits < U32Modulus
      modifies this`w, this`h, this`renderPass, this`cmdBufs, this`depth, this`frameBufs, this`fences, swapchain,
               device`nextHandle, device`calls, device`fences, device`recorded
      ensures Valid() && this.w == w && this.h == h && swapchain.surface == surface
      ensures r.Err? <==>
        || (forall j :: !(Graphics(device.queueFamilies, j) && Presents(supportsPresent, j)))
        || (forall j :: 0 <= j < |device.memoryTypes| ==>
              !SuitableMemoryType(device.memoryTypes, memoryTypeBits, MemoryDeviceLocal, j))
      ensures r.Ok? ==>
        && FrameSized() && FrameRecorded() && |cmdBufs| == imageCount
        && swapchain.width == w && swapchain.height == h
        && renderPass != NullHandle
        && FirstSuitable(device.memoryTypes, memoryTypeBits, MemoryDeviceLocal, memType)
        && device.calls == old(device.calls)
             + swapchain.RealizeCalls(true, caps, modes, old(swapchain.swapChain), old(swapchain.buffers))
             + [CreateRenderPass(renderPass)]
             + CheckFrameCalls(|old(cmdBufs)|, old(fences), memType)
    {
      this.w, this.h := w, h;
      r := AttachSurface(surface, w, h, supportsPresent, formats, caps, modes, imageCount);
      if r.Err? {
        return r, 0;
      }
      r, memType := ResizeImpl(w, h, memoryTypeBits);
    }

    /** The first half of `set_surface`: the swapchain takes the surface, is
        realised with vsync at the given size, and the render pass for its
        colour and depth formats is created. */
    method AttachSurface(surface: Handle, w: nat, h: nat, supportsPresent: seq<bool>, formats: seq<SurfaceFormat>,
                         caps: SurfaceCaps, modes: seq<int>, imageCount: nat)
      returns (r: Result<()>)
      requires Valid() && |supportsPresent| == |device.queueFamilies| && |formats| > 0
      requires caps.minImageCount < U32Modulus && caps.maxImageCount < U32Modulus
      modifies this`renderPass, swapchain, device`nextHandle, device`calls, device`fences
      ensures Valid() && swapchain.surface == surface
      ensures r.Ok? <==> exists j :: Graphics(device.queueFamilies, j) && Presents(supportsPresent, j)
      ensures r.Err? ==> device.calls == old(device.calls)
      ensures r.Ok? ==>
        && swapchain.ImageCount() == imageCount && swapchain.width == w && swapchain.height == h
        && renderPass != NullHandle
        && device.calls == old(device.calls)
             + swapchain.RealizeCalls(true, caps, modes, old(swapchain.swapChain), old(swapchain.buffers))
             + [CreateRenderPass(renderPass)]
    {
      var s := swapchain.SetSurface(surface, supportsPresent, formats);
      if s.Err? {
        return Err(s.error);
      }
      swapchain.Realize(w, h, true, caps, modes, imageCount);
      NewRenderPass();
      return Ok(());
    }

    /** The render pass `set_surface` creates for the swapchain's colour
        format and the depth format. */
    method NewRenderPass()
      requires Valid()
      modifies this`renderPass, device`nextHandle, device`calls
      ensures Valid() && renderPass != NullHandle
      ensures renderPass == old(device.nextHandle) && device.nextHandle == renderPass + 1
      ensures device.calls == old(device.calls) + [CreateRenderPass(renderPass)]
    {
      renderPass := device.Mint();
      device.calls := device.calls + [CreateRenderPass(renderPass)];
    }

    /** The resize branch of `frame`: wait for the device, a new swapchain of
        the new size, `clear_frame`, `check_frame`, then `update`. */
    method Resized(w: nat, h: nat, caps: SurfaceCaps, modes: seq<int>, imageCount: nat, memoryTypeBits: nat,
                   overlayChanged: bool)
      returns (r: Result<()>, ghost memType: nat)
      requires Valid()
      requires caps.minImageCount < U32Modulus && caps.maxImageCount < U32Modulus
      requires memoryTypeBits < U32Modulus
      modifies this`w, this`h, this`cmdBufs, this`depth, this`frameBufs, this`fences, swapchain,
               device`nextHandle, device`calls, device`fences, device`recorded
      ensures Valid() && this.w == w && this.h == h
      ensures r.Err? <==> forall j :: 0 <= j < |device.memoryTypes| ==>
                !SuitableMemoryType(device.memoryTypes, memoryTypeBits, MemoryDeviceLocal, j)
      ensures r.Ok? ==>
        && FrameSized() && FrameRecorded() && |cmdBufs| == imageCount
        && swapchain.width == w && swapchain.height == h
        && FirstSuitable(device.memoryTypes, memoryTypeBits, MemoryDeviceLocal, memType)
        && device.calls == old(device.calls) + [DeviceWaitIdle]
             + swapchain.RealizeCalls(true, caps, modes, old(swapchain.swapChain), old(swapchain.buffers))
             + ClearCalls(old(frameBufs), old(depth))
             + CheckFrameCalls(|old(cmdBufs)|, old(fences), memType)
             + UpdateCalls(overlayChanged, cmdBufs)
      ensures r.Err? ==>
        && device.nextHandle > 0
        && device.calls == old(device.calls) + [DeviceWaitIdle]
             + swapchain.RealizeCalls(true, caps, modes, old(swapchain.swapChain), old(swapchain.buffers))
             + ClearCalls(old(frameBufs), old(depth))
             + AllocCalls(|old(cmdBufs)| != swapchain.ImageCount(), cmdBufs)
             + [CreateImage(device.nextHandle - 1, swapchain.depthFormat, w, h)]
    {
      device.WaitIdle();
      this.w, this.h := w, h;
      swapchain.Realize(w, h, true, caps, modes, imageCount);
      r, memType := Rebuild(memoryTypeBits, overlayChanged);
    }

    /** The end of the resize branch of `frame`: `clear_frame`,
        `check_frame`, then `update`. */
    method Rebuild(memoryTypeBits: nat, overlayChanged: bool) returns (r: Result<()>, ghost memType: nat)
      requires Valid() && memoryTypeBits < U32Modulus
      modifies this`cmdBufs, this`depth, this`frameBufs, this`fences,
               device`nextHandle, device`calls, device`fences, device`recorded
      ensures Valid()
      ensures r.Err? <==> forall j :: 0 <= j < |device.memoryTypes| ==>
                !SuitableMemoryType(device.memoryTypes, memoryTypeBits, MemoryDeviceLocal, j)
      ensures r.Ok? ==>
        && FrameSized() && FrameRecorded()
        && FirstSuitable(device.memoryTypes, memoryTypeBits, MemoryDeviceLocal, memType)
        && device.calls == old(device.calls) + ClearCalls(old(frameBufs), old(depth))
             + CheckFrameCalls(|old(cmdBufs)|, old(fences), memType)
             + UpdateCalls(overlayChanged, cmdBufs)
      ensures r.Err? ==>
        && device.nextHandle > 0
        && device.calls == old(device.calls) + ClearCalls(old(frameBufs), old(depth))
             + AllocCalls(|old(cmdBufs)| != swapchain.ImageCount(), cmdBufs)
             + [CreateImage(device.nextHandle - 1, swapchain.depthFormat, w, h)]
    {
      ClearFrame();
      r, memType := CheckFrame(memoryTypeBits);
      if r.Err? {
        return;
      }
      Update(overlayChanged);
    }

    /** `render`: acquire an image; any result but success or suboptimal is
        fatal. Then wait on and reset that image's fence, submit that image's
        command buffer to graphics queue 0 gated by the same fence (waiting
        on the present semaphore, signalling the render semaphore), and
        present the same image on that queue once rendering has signalled. The acquire and present results
        and the acquired index are the driver's answers; the driver only
        hands out indices of existing images. */
    method Render(acquireResult: int, index: nat, presentResult: int) returns (r: Result<()>)
      requires Valid() && FrameSized()
      requires Acceptable(acquireResult) ==> index < swapchain.ImageCount()
      modifies this`frame, device`calls, device`fences
      ensures Valid() && FrameSized()
      ensures !Acceptable(acquireResult) ==>
        && r == Err(DriverFailure(acquireResult)) && frame == old(frame) && device.fences == old(device.fences)
        && device.calls == old(device.calls) + [AcquireNextImage(swapchain.swapChain, presentSemaphore)]
      ensures Acceptable(acquireResult) ==>
        var f := fences[index];
        && frame == index
        && device.fences == old(device.fences)[f := Pending]
        && device.calls == old(device.calls) +
             [AcquireNextImage(swapchain.swapChain, presentSemaphore),
              WaitForFence(f), ResetFence(f),
              QueueSubmit(device.GraphicQueue(0), cmdBufs[index], Some(presentSemaphore), Some(renderSemaphore), f),
              Call.QueuePresent(device.GraphicQueue(0), swapchain.swapChain, index, Some(renderSemaphore))]
        && (r.Ok? <==> Acceptable(presentResult))
        && (r.Err? ==> r.error == DriverFailure(presentResult))
    {
      var result, acquired := swapchain.AcquireImage(presentSemaphore, acquireResult, index);
      if !Acceptable(result) {
        return Err(DriverFailure(result));
      }
      var f := fences[acquired];
      device.WaitForFence(f);
      device.ResetFence(f);
      var queue := device.GraphicQueue(0);
      device.Submit(queue, cmdBufs[acquired], Some(presentSemaphore), Some(renderSemaphore), f);
      frame := acquired;
      var present := swapchain.QueuePresent(queue, frame, renderSemaphore, presentResult);
      if !Acceptable(present) {
        return Err(DriverFailure(present));
      }
      return Ok(());
    }
  }
}
