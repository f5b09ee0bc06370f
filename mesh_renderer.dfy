/**
 * Mesh construction and drawing: validated index data, the unit cube, the
 * renderer that turns a material's bindings into descriptor sets, and the
 * commands one draw records.
 */
module MeshRenderer {
  import opened Wrappers
  import opened Geometry
  import opened Gpu
  import opened Materials
  import opened Cameras
  import opened CubeGeometry

  datatype MeshError =
    | IndexExceedsVertexCount(index: U16, count: nat)
    | MissingDescriptorLayout(setIndex: nat)

  /** Vertex and index data that passed validation. */
  datatype MeshData<V> = MeshData(vertices: seq<V>, indices: seq<U16>)

  /**
   * `MeshData::create`: scans the indices and reports the first one that is
   * not below the vertex count; otherwise keeps both sequences as given.
   */
  method Create<V>(vertices: seq<V>, indices: seq<U16>) returns (r: Result<MeshData<V>, MeshError>)
    ensures r.Ok? <==> AllBelow(indices, |vertices|)
    ensures r.Ok? ==> r.value == MeshData(vertices, indices)
    ensures r.Err? ==> exists k | 0 <= k < |indices| ::
                         AllBelow(indices[..k], |vertices|) && indices[k] >= |vertices| &&
                         r.error == IndexExceedsVertexCount(indices[k], |vertices|)
  {
    var i := 0;
    while i < |indices|
      invariant 0 <= i <= |indices|
      invariant AllBelow(indices[..i], |vertices|)
    {
      if indices[i] >= |vertices| {
        assert AllBelow(indices[..i], |vertices|) && indices[i] >= |vertices|;
        return Err(IndexExceedsVertexCount(indices[i], |vertices|));
      }
      i := i + 1;
    }
    assert indices[..i] == indices;
    return Ok(MeshData(vertices, indices));
  }

  /** The cube's vertices, each built from its integer corner by `create_from_position`. */
  function CubeVertices<V>(vertex: (real, real, real) -> V): (r: seq<V>)
    ensures |r| == |CUBE_POSITIONS|
    ensures forall i | 0 <= i < |r| ::
              r[i] == vertex(CUBE_POSITIONS[i].x as real, CUBE_POSITIONS[i].y as real, CUBE_POSITIONS[i].z as real)
  {
    seq(|CUBE_POSITIONS|, i requires 0 <= i < |CUBE_POSITIONS| =>
      vertex(CUBE_POSITIONS[i].x as real, CUBE_POSITIONS[i].y as real, CUBE_POSITIONS[i].z as real))
  }

  /** `MeshData::cube`: the validation inside it always succeeds. */
  method Cube<V>(vertex: (real, real, real) -> V) returns (data: MeshData<V>)
    ensures data == MeshData(CubeVertices(vertex), CUBE_INDICES)
    ensures AllBelow(data.indices, |data.vertices|)
  {
    CubeSizes();
    var r := Create(CubeVertices(vertex), CUBE_INDICES);
    data := r.value;
  }

  /**
   * The number of descriptor bindings a material's uniforms declare: the
   * vertex and fragment buffers plus the texture for an object, the single
   * buffer for a light.
   */
  function BindingCount(material: Material): nat {
    match material
    case ObjectMaterial(texture, _) => if texture.Some? then 3 else 2
    case EmissiveMaterial(_, _) => 1
  }

  /**
   * The descriptor sets built from `bindings`, one per binding and in the
   * same order: the set uses the set layout at the binding's index and its
   * single slot holds the binding's buffer, or a sampled image.
   */
  ghost predicate SetsMatch(bindings: seq<DescriptorSetBinding>, sets: seq<DescriptorSet>) {
    |sets| == |bindings| &&
    forall k | 0 <= k < |sets| ::
      sets[k].layout == bindings[k].index && |sets[k].slots| == 1 &&
      (match bindings[k].desc
       case Buffer(b) => sets[k].slots[0] == BoundBuffer(b)
       case Image(_) => sets[k].slots[0].BoundSampledImage?)
  }

  /** The commands one draw appends after the uniform updates. */
  function DrawSequence(framebuffer: FramebufferHandle, pipeline: PipelineHandle, vertexBuffer: BufferHandle,
                        indexBuffer: BufferHandle, sets: seq<DescriptorSet>): seq<Command<UniformData>>
  {
    [Command.BeginRenderPass(framebuffer), Command.DrawIndexed(pipeline, vertexBuffer, indexBuffer, sets),
     Command.EndRenderPass]
  }

  /**
   * A mesh on the device: its buffers, its descriptor sets and the uniforms
   * it owns. `data` is what its vertex and index buffers were filled with.
   */
  class Mesh<V> {
    const pipeline: PipelineHandle
    const vertexBuffer: BufferHandle
    const indexBuffer: BufferHandle
    const descriptorSets: seq<DescriptorSet>
    const uniforms: Uniforms
    ghost const data: MeshData<V>

    ghost predicate Valid()
      reads this, uniforms
    {
      uniforms.Valid() && SetsMatch(uniforms.DescriptorBindings(), descriptorSets)
    }

    constructor (pipeline: PipelineHandle, vertexBuffer: BufferHandle, indexBuffer: BufferHandle,
                 descriptorSets: seq<DescriptorSet>, uniforms: Uniforms, ghost data: MeshData<V>)
      requires uniforms.Valid() && SetsMatch(uniforms.DescriptorBindings(), descriptorSets)
      ensures Valid()
      ensures this.pipeline == pipeline && this.vertexBuffer == vertexBuffer && this.indexBuffer == indexBuffer
      ensures this.descriptorSets == descriptorSets && this.uniforms == uniforms && this.data == data
    {
      this.data := data;
      this.pipeline := pipeline;
      this.vertexBuffer := vertexBuffer;
      this.indexBuffer := indexBuffer;
      this.descriptorSets := descriptorSets;
      this.uniforms := uniforms;
    }

    /**
     * `Mesh::draw_commands`: the model matrix, then the camera's view and
     * projection are written into the uniforms (whether or not recording
     * succeeds afterwards); then the uniform updates, a render pass begin,
     * one indexed draw with this mesh's buffers and sets, and the render pass
     * end are appended. Recording fails, with nothing appended, exactly when
     * the builder is already inside a render pass.
     */
    method DrawCommands(builder: CommandBuilder<UniformData>, framebuffer: FramebufferHandle,
                        model: Mat4, camera: Camera) returns (r: Outcome<CommandError>)
      requires Valid()
      modifies uniforms, builder
      ensures Valid()
      ensures uniforms.vs == VsUniform(model, camera.View(), camera.projection)
      ensures uniforms.fragment == old(uniforms.fragment)
      ensures r.Pass? <==> !old(builder.inRenderPass)
      ensures r.Fail? ==> r.error == ForbiddenInsideRenderPass && builder.log == old(builder.log)
      ensures r.Pass? ==> !builder.inRenderPass
      ensures r.Pass? ==> builder.log == old(builder.log) + uniforms.UpdateCommands() +
                                         DrawSequence(framebuffer, pipeline, vertexBuffer, indexBuffer, descriptorSets)
    {
      uniforms.SetModelMatrix(model);
      uniforms.SetViewProjMatrixFromCamera(camera);
      r := uniforms.UpdateBuffers(builder);
      if r.Fail? {
        return;
      }
      r := builder.BeginRenderPass(framebuffer);
      if r.Fail? {
        return;
      }
      r := builder.DrawIndexed(pipeline, vertexBuffer, indexBuffer, descriptorSets);
      if r.Fail? {
        return;
      }
      r := builder.EndRenderPass();
    }
  }

  /**
   * The mesh renderer: the device it allocates on, its graphics pipeline and
   * the indices of the set layouts the pipeline layout declares.
   */
  class Renderer {
    const device: Device
    const pipeline: PipelineHandle
    const layouts: set<nat>

    constructor (device: Device, pipeline: PipelineHandle, layouts: set<nat>)
      ensures this.device == device && this.pipeline == pipeline && this.layouts == layouts
    {
      this.device := device;
      this.pipeline := pipeline;
      this.layouts := layouts;
    }

    /**
     * `Renderer::create_mesh`: uploads the vertex and index data, creates the
     * material's uniforms and turns each declared binding, in order, into a
     * descriptor set on the set layout at its index, uploading the picture of
     * an image binding. The first binding whose index has no set layout fails
     * the call; otherwise every upload is waited for before the mesh, whose
     * buffers hold `data`, is returned.
     */
    method CreateMesh<V>(data: MeshData<V>, material: Material) returns (r: Result<Mesh<V>, MeshError>)
      requires device.Valid()
      modifies device
      ensures device.Valid() && old(device.started) <= device.started
      ensures r.Ok? <==> forall j | 0 <= j < BindingCount(material) :: j in layouts
      ensures r.Err? ==> r.error.MissingDescriptorLayout? && r.error.setIndex < BindingCount(material)
      ensures r.Err? ==> r.error.setIndex !in layouts && forall j | 0 <= j < r.error.setIndex :: j in layouts
      ensures r.Err? ==> device.finished == old(device.finished)
      ensures r.Ok? ==> fresh(r.value) && fresh(r.value.uniforms) && r.value.Valid() && r.value.pipeline == pipeline
      ensures r.Ok? ==> r.value.data == data
      ensures r.Ok? ==> r.value.uniforms.vs == DEFAULT_VS && r.value.uniforms.fragment == Seed(material)
      ensures r.Ok? ==> |r.value.descriptorSets| == BindingCount(material)
      ensures r.Ok? ==> device.finished == old(device.finished) + (device.started - old(device.started))
      ensures r.Ok? ==> Upload(r.value.vertexBuffer.id) in device.started - old(device.started) &&
                        Upload(r.value.indexBuffer.id) in device.started - old(device.started)
      ensures r.Ok? ==> forall k | 0 <= k < |r.value.descriptorSets| && r.value.descriptorSets[k].slots[0].BoundSampledImage? ::
                          Upload(r.value.descriptorSets[k].slots[0].image.id) in device.started - old(device.started)
    {
      var vertexBuffer, vertexUpload := device.UploadBuffer();
      var indexBuffer, indexUpload := device.UploadBuffer();
      var pending := {vertexUpload, indexUpload};
      var uniforms := CreateUniforms(material, device);
      var bindings := uniforms.DescriptorBindings();
      assert |bindings| == BindingCount(material);
      var sets: seq<DescriptorSet> := [];
      var i := 0;
      while i < |bindings|
        invariant 0 <= i <= |bindings|
        invariant device.Valid()
        invariant forall j | 0 <= j < i :: j in layouts
        invariant SetsMatch(bindings[..i], sets)
        invariant pending !! old(device.started) && device.started == old(device.started) + pending
        invariant device.finished == old(device.finished)
        invariant vertexUpload in pending && indexUpload in pending
        invariant forall k | 0 <= k < |sets| && sets[k].slots[0].BoundSampledImage? ::
                    Upload(sets[k].slots[0].image.id) in pending
        modifies device
      {
        var binding := bindings[i];
        if binding.index !in layouts {
          return Err(MissingDescriptorLayout(binding.index));
        }
        if binding.desc.Buffer? {
          sets := sets + [DescriptorSet(binding.index, [BoundBuffer(binding.desc.buffer)])];
        } else {
          var image, upload := device.UploadImage();
          pending := pending + {upload};
          sets := sets + [DescriptorSet(binding.index, [BoundSampledImage(image)])];
        }
        i := i + 1;
      }
      assert bindings[..i] == bindings;
      device.Wait(pending);
      var mesh := new Mesh(pipeline, vertexBuffer, indexBuffer, sets, uniforms, data);
      return Ok(mesh);
    }
  }
}
