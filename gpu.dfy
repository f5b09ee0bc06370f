/**
 * The parts of the Vulkan layer the scene code talks to, reduced to what its
 * logic depends on: opaque handles for GPU objects, a device that hands out
 * handles and tracks uploads, and a command builder that records commands.
 */
module Gpu {
  import opened Wrappers

  /** An element of an index buffer (`u16`). */
  type U16 = x: int | 0 <= x < 0x1_0000

  datatype BufferHandle = BufferHandle(id: nat)
  datatype ImageHandle = ImageHandle(id: nat)
  datatype FramebufferHandle = FramebufferHandle(id: nat)
  datatype PipelineHandle = PipelineHandle(id: nat)

  /** A resource written into one binding slot of a descriptor set. */
  datatype Resource = BoundBuffer(buffer: BufferHandle) | BoundSampledImage(image: ImageHandle)

  /** A descriptor set built from the set layout at index `layout` of a pipeline layout. */
  datatype DescriptorSet = DescriptorSet(layout: nat, slots: seq<Resource>)

  /** An upload to device memory that may still be in flight. */
  datatype Upload = Upload(id: nat)

  /** Errors the recording of commands can report. */
  datatype CommandError =
    | ForbiddenInsideRenderPass   // a buffer update or a second begin inside a render pass
    | ForbiddenOutsideRenderPass  // a draw or an end outside a render pass

  /** A recorded command; `D` is the type of the data a buffer update carries. */
  datatype Command<D> =
    | UpdateBuffer(buffer: BufferHandle, data: D)
    | BeginRenderPass(framebuffer: FramebufferHandle)
    | DrawIndexed(pipeline: PipelineHandle, vertexBuffer: BufferHandle,
                  indexBuffer: BufferHandle, descriptorSets: seq<DescriptorSet>)
    | EndRenderPass

  /**
   * vulkano's `AutoCommandBufferBuilder` as a log of the commands recorded so far.
   * Buffer updates are only allowed outside a render pass, draws only inside.
   */
  class CommandBuilder<D> {
    var log: seq<Command<D>>
    var inRenderPass: bool

    constructor ()
      ensures log == [] && !inRenderPass
    {
      log := [];
      inRenderPass := false;
    }

    method Update(buffer: BufferHandle, data: D) returns (r: Outcome<CommandError>)
      modifies this
      ensures r.Pass? <==> !old(inRenderPass)
      ensures r.Fail? ==> r.error == ForbiddenInsideRenderPass
      ensures log == if r.Pass? then old(log) + [UpdateBuffer(buffer, data)] else old(log)
      ensures inRenderPass == old(inRenderPass)
    {
      if inRenderPass {
        return Fail(ForbiddenInsideRenderPass);
      }
      log := log + [UpdateBuffer(buffer, data)];
      return Pass;
    }

    method BeginRenderPass(framebuffer: FramebufferHandle) returns (r: Outcome<CommandError>)
      modifies this
      ensures r.Pass? <==> !old(inRenderPass)
      ensures r.Fail? ==> r.error == ForbiddenInsideRenderPass
      ensures log == if r.Pass? then old(log) + [Command.BeginRenderPass(framebuffer)] else old(log)
      ensures inRenderPass
    {
      if inRenderPass {
        return Fail(ForbiddenInsideRenderPass);
      }
      log := log + [Command.BeginRenderPass(framebuffer)];
      inRenderPass := true;
      return Pass;
    }

    method DrawIndexed(pipeline: PipelineHandle, vertexBuffer: BufferHandle,
                       indexBuffer: BufferHandle, sets: seq<DescriptorSet>) returns (r: Outcome<CommandError>)
      modifies this
      ensures r.Pass? <==> old(inRenderPass)
      ensures r.Fail? ==> r.error == ForbiddenOutsideRenderPass
      ensures log == if r.Pass? then old(log) + [Command.DrawIndexed(pipeline, vertexBuffer, indexBuffer, sets)]
                     else old(log)
      ensures inRenderPass == old(inRenderPass)
    {
      if !inRenderPass {
        return Fail(ForbiddenOutsideRenderPass);
      }
      log := log + [Command.DrawIndexed(pipeline, vertexBuffer, indexBuffer, sets)];
      return Pass;
    }

    method EndRenderPass() returns (r: Outcome<CommandError>)
      modifies this
      ensures r.Pass? <==> old(inRenderPass)
      ensures r.Fail? ==> r.error == ForbiddenOutsideRenderPass
      ensures log == if r.Pass? then old(log) + [Command.EndRenderPass] else old(log)
      ensures !inRenderPass
    {
      if !inRenderPass {
        return Fail(ForbiddenOutsideRenderPass);
      }
      log := log + [Command.EndRenderPass];
      inRenderPass := false;
      return Pass;
    }
  }

  /**
   * The device and its transfer queue: it hands out fresh handles and keeps
   * track of which uploads were started and which were waited for.
   */
  class Device {
    var nextId: nat
    var started: set<Upload>
    var finished: set<Upload>

    ghost predicate Valid()
      reads this
    {
      finished <= started && forall u :: u in started ==> u.id < nextId
    }

    constructor ()
      ensures Valid() && nextId == 0 && started == {} && finished == {}
    {
      nextId := 0;
      started := {};
      finished := {};
    }

    method NewBuffer() returns (b: BufferHandle)
      requires Valid()
      modifies this
      ensures Valid()
      ensures b.id == old(nextId) && nextId == old(nextId) + 1
      ensures started == old(started) && finished == old(finished)
    {
      b := BufferHandle(nextId);
      nextId := nextId + 1;
    }

    /** Creates an immutable buffer whose contents are uploaded asynchronously. */
    method UploadBuffer() returns (b: BufferHandle, u: Upload)
      requires Valid()
      modifies this
      ensures Valid()
      ensures b.id == old(nextId) && u.id == old(nextId) && nextId == old(nextId) + 1
      ensures u !in old(started) && started == old(started) + {u} && finished == old(finished)
    {
      b := BufferHandle(nextId);
      u := Upload(nextId);
      started := started + {u};
      nextId := nextId + 1;
    }

    /** Creates an immutable image whose pixels are uploaded asynchronously. */
    method UploadImage() returns (i: ImageHandle, u: Upload)
      requires Valid()
      modifies this
      ensures Valid()
      ensures i.id == old(nextId) && u.id == old(nextId) && nextId == old(nextId) + 1
      ensures u !in old(started) && started == old(started) + {u} && finished == old(finished)
    {
      i := ImageHandle(nextId);
      u := Upload(nextId);
      started := started + {u};
      nextId := nextId + 1;
    }

    /** Flushes the joined uploads and blocks until all of them completed. */
    method Wait(uploads: set<Upload>)
      requires Valid() && uploads <= started
      modifies this
      ensures Valid()
      ensures finished == old(finished) + uploads
      ensures nextId == old(nextId) && started == old(started)
    {
      finished := finished + uploads;
    }
  }
}
