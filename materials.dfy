/**
 * Materials and their uniforms: the CPU-side records that are copied into
 * uniform buffers before each draw, the setters that overwrite them, and the
 * descriptor bindings that tell a pipeline where those buffers live.
 */
module Materials {
  import opened Wrappers
  import opened Geometry
  import opened Gpu
  import opened Cameras

  /** A picture on the host (an `image::DynamicImage`), not yet on the device. */
  datatype Picture = Picture(id: nat)

  /** What a descriptor binding carries: a uniform buffer or a picture to sample from. */
  datatype BindingDesc = Buffer(buffer: BufferHandle) | Image(picture: Picture)

  /** One slot index together with exactly one payload. */
  datatype DescriptorSetBinding = DescriptorSetBinding(index: nat, desc: BindingDesc)

  /** A texture of an object material: the picture and the device image uploaded from it. */
  datatype Texture = Texture(picture: Picture, image: ImageHandle)

  /** The vertex shader uniform of the Phong objects (matrices stored row-major). */
  datatype VsUniform = VsUniform(model: Mat4, view: Mat4, proj: Mat4)

  /** The fragment shader uniform of the Phong objects. */
  datatype FsUniform = FsUniform(kd: Vec4, ks: Vec4, lightPos: Vec4, cameraPos: Vec4, lightIntensity: real)

  /** The single uniform of the emissive (point light) shaders. */
  datatype EmissiveUniform = EmissiveUniform(model: Mat4, view: Mat4, proj: Mat4,
                                             lightIntensity: real, lightColor: Vec4)

  /** The data a buffer update command copies to the device. */
  datatype UniformData = VsData(vs: VsUniform) | FsData(fs: FsUniform) | EmissiveData(emissive: EmissiveUniform)

  const ZERO_MAT: Mat4 := Mat4(0.0, 0.0, 0.0, 0.0, 0.0, 0.0, 0.0, 0.0,
                               0.0, 0.0, 0.0, 0.0, 0.0, 0.0, 0.0, 0.0)
  const ZERO4: Vec4 := Vec4(0.0, 0.0, 0.0, 0.0)

  /** `Default::default()` of the vertex shader uniform: three all-zero matrices. */
  const DEFAULT_VS: VsUniform := VsUniform(ZERO_MAT, ZERO_MAT, ZERO_MAT)

  function Xyz(v: Vec4): Vec3 { Vec3(v.x, v.y, v.z) }

  /** The two materials of the scene: Phong objects and emissive point lights. */
  datatype Material =
    | ObjectMaterial(texture: Option<Texture>, ks: Vec3)
    | EmissiveMaterial(lightIntensity: real, lightColor: Vec3)

  /** Which uniforms an object is, with the device resources it owns. */
  datatype UniformsKind =
    | ObjectKind(vsBuffer: BufferHandle, fsBuffer: BufferHandle, texture: Option<Texture>)
    | EmissiveKind(buffer: BufferHandle)

  /** The non-matrix part of the uniform record. */
  datatype Fragment =
    | ObjectFragment(fs: FsUniform)
    | EmissiveFragment(lightIntensity: real, lightColor: Vec4)

  /** The errors of building descriptor sets. */
  datatype MaterialError = MissingLayout(index: nat)

  /**
   * The fragment part `create_uniforms` seeds from a material: `ks` padded
   * with 0.0 and every other Phong field defaulted, or the light's intensity
   * and its colour padded with alpha 1.0.
   */
  function Seed(m: Material): (r: Fragment)
    ensures r.ObjectFragment? <==> m.ObjectMaterial?
    ensures m.ObjectMaterial? ==> Xyz(r.fs.ks) == m.ks && r.fs.ks.w == 0.0
    ensures m.ObjectMaterial? ==> r.fs.kd == r.fs.lightPos == r.fs.cameraPos == ZERO4 && r.fs.lightIntensity == 0.0
    ensures m.EmissiveMaterial? ==> r.lightIntensity == m.lightIntensity
    ensures m.EmissiveMaterial? ==> Xyz(r.lightColor) == m.lightColor && r.lightColor.w == 1.0
  {
    match m
    case ObjectMaterial(_, ks) => ObjectFragment(FsUniform(ZERO4, Extend(ks, 0.0), ZERO4, ZERO4, 0.0))
    case EmissiveMaterial(intensity, color) => EmissiveFragment(intensity, Extend(color, 1.0))
  }

  /**
   * The uniforms of one mesh (the `UniformsT` implementations). `vs` holds
   * the model, view and projection matrices; `fragment` the rest.
   */
  class Uniforms {
    const kind: UniformsKind
    var vs: VsUniform
    var fragment: Fragment

    ghost predicate Valid()
      reads this
    {
      kind.ObjectKind? <==> fragment.ObjectFragment?
    }

    constructor Init(kind: UniformsKind, vs: VsUniform, fragment: Fragment)
      requires kind.ObjectKind? <==> fragment.ObjectFragment?
      ensures Valid() && this.kind == kind && this.vs == vs && this.fragment == fragment
    {
      this.kind := kind;
      this.vs := vs;
      this.fragment := fragment;
    }

    /** The uniform buffers, in the order their updates are recorded. */
    function Buffers(): seq<BufferHandle> {
      match kind
      case ObjectKind(vsBuffer, fsBuffer, _) => [vsBuffer, fsBuffer]
      case EmissiveKind(buffer) => [buffer]
    }

    function TextureOf(): Option<Texture> {
      if kind.ObjectKind? then kind.texture else None
    }

    method SetModelMatrix(m: Mat4)
      modifies this
      ensures vs == old(vs).(model := m) && fragment == old(fragment)
    {
      vs := vs.(model := m);
    }

    method SetViewMatrix(m: Mat4)
      modifies this
      ensures vs == old(vs).(view := m) && fragment == old(fragment)
    {
      vs := vs.(view := m);
    }

    method SetProjMatrix(m: Mat4)
      modifies this
      ensures vs == old(vs).(proj := m) && fragment == old(fragment)
    {
      vs := vs.(proj := m);
    }

    /**
     * The trait's default method: the view and projection matrices become the
     * camera's; the model matrix and the fragment fields are left alone.
     */
    method SetViewProjMatrixFromCamera(camera: Camera)
      modifies this
      ensures vs == VsUniform(old(vs).model, camera.View(), camera.projection)
      ensures fragment == old(fragment)
      ensures camera.Valid() ==>
        vs.proj == Projection(camera.math, camera.fov, camera.aspect, camera.near, camera.far)
    {
      SetViewMatrix(camera.View());
      SetProjMatrix(camera.projection);
    }

    /** `ObjectUniforms::set_light_pos`: the light position as a point (w = 1). */
    method SetLightPos(p: Vec3)
      requires Valid() && kind.ObjectKind?
      modifies this
      ensures Valid() && vs == old(vs)
      ensures fragment == ObjectFragment(old(fragment).fs.(lightPos := Extend(p, 1.0)))
    {
      fragment := ObjectFragment(fragment.fs.(lightPos := Extend(p, 1.0)));
    }

    /** `ObjectUniforms::set_camera_pos`: the camera position as a point (w = 1). */
    method SetCameraPos(camera: Camera)
      requires Valid() && kind.ObjectKind?
      modifies this
      ensures Valid() && vs == old(vs)
      ensures fragment == ObjectFragment(old(fragment).fs.(cameraPos := Extend(camera.position, 1.0)))
    {
      fragment := ObjectFragment(fragment.fs.(cameraPos := Extend(camera.position, 1.0)));
    }

    /** `ObjectUniforms::set_light_intensity`. */
    method SetLightIntensity(intensity: real)
      requires Valid() && kind.ObjectKind?
      modifies this
      ensures Valid() && vs == old(vs)
      ensures fragment == ObjectFragment(old(fragment).fs.(lightIntensity := intensity))
    {
      fragment := ObjectFragment(fragment.fs.(lightIntensity := intensity));
    }

    /** The emissive uniform as it is copied to the device. */
    function Emissive(): (r: EmissiveUniform)
      requires Valid() && kind.EmissiveKind?
      reads this
      ensures r.model == vs.model && r.view == vs.view && r.proj == vs.proj
      ensures r.lightIntensity == fragment.lightIntensity && r.lightColor == fragment.lightColor
    {
      EmissiveUniform(vs.model, vs.view, vs.proj, fragment.lightIntensity, fragment.lightColor)
    }

    /**
     * The buffer updates `update_buffers` records: one per uniform buffer, in
     * the order of `Buffers()`, each carrying the current CPU-side record.
     */
    function UpdateCommands(): (r: seq<Command<UniformData>>)
      requires Valid()
      reads this
      ensures |r| == |Buffers()|
      ensures forall i | 0 <= i < |r| :: r[i].UpdateBuffer? && r[i].buffer == Buffers()[i]
      ensures kind.ObjectKind? ==> r[0].data == VsData(vs) && r[1].data == FsData(fragment.fs)
    {
      match kind
      case ObjectKind(vsBuffer, fsBuffer, _) =>
        [UpdateBuffer(vsBuffer, VsData(vs)), UpdateBuffer(fsBuffer, FsData(fragment.fs))]
      case EmissiveKind(buffer) => [UpdateBuffer(buffer, EmissiveData(Emissive()))]
    }

    /**
     * `update_buffers`: records the buffer updates, or fails without recording
     * anything when the builder is inside a render pass.
     */
    method UpdateBuffers(builder: CommandBuilder<UniformData>) returns (r: Outcome<CommandError>)
      requires Valid()
      modifies builder
      ensures r.Pass? <==> !old(builder.inRenderPass)
      ensures r.Fail? ==> r.error == ForbiddenInsideRenderPass
      ensures builder.log == if r.Pass? then old(builder.log) + UpdateCommands() else old(builder.log)
      ensures builder.inRenderPass == old(builder.inRenderPass)
    {
      match kind
      case ObjectKind(vsBuffer, fsBuffer, _) =>
        r := builder.Update(vsBuffer, VsData(vs));
        if r.Fail? {
          return;
        }
        r := builder.Update(fsBuffer, FsData(fragment.fs));
      case EmissiveKind(buffer) =>
        r := builder.Update(buffer, EmissiveData(Emissive()));
    }

    /**
     * `create_descriptor_bindings`: the slots are numbered 0, 1, ... in order,
     * the uniform buffers come first and the texture, when there is one, last.
     */
    function DescriptorBindings(): (r: seq<DescriptorSetBinding>)
      ensures |r| == |Buffers()| + (if TextureOf().Some? then 1 else 0)
      ensures forall i | 0 <= i < |r| :: r[i].index == i
      ensures forall i | 0 <= i < |Buffers()| :: r[i].desc == Buffer(Buffers()[i])
      ensures TextureOf().Some? ==> r[|r| - 1].desc == Image(TextureOf().value.picture)
    {
      match kind
      case ObjectKind(vsBuffer, fsBuffer, texture) =>
        [DescriptorSetBinding(0, Buffer(vsBuffer)), DescriptorSetBinding(1, Buffer(fsBuffer))] +
        (if texture.Some? then [DescriptorSetBinding(2, Image(texture.value.picture))] else [])
      case EmissiveKind(buffer) => [DescriptorSetBinding(0, Buffer(buffer))]
    }

    /**
     * `ObjectUniforms::create_descriptor_sets`: one descriptor set on the set
     * layout at index 0 whose slots hold the same resources, in the same
     * order, as the bindings above; fails when the pipeline layout (the set
     * of its set-layout indices) has no set layout 0.
     */
    function CreateDescriptorSets(layouts: set<nat>): (r: Result<seq<DescriptorSet>, MaterialError>)
      requires kind.ObjectKind?
      ensures r.Ok? <==> 0 in layouts
      ensures r.Err? ==> r.error == MissingLayout(0)
      ensures r.Ok? ==> |r.value| == 1 && r.value[0].layout == 0
      ensures r.Ok? ==> |r.value[0].slots| == |DescriptorBindings()|
      ensures r.Ok? ==> forall i | 0 <= i < |r.value[0].slots| ::
                          Holds(DescriptorBindings()[i].desc, r.value[0].slots[i])
    {
      if 0 !in layouts then Err(MissingLayout(0))
      else
        var buffers := [BoundBuffer(kind.vsBuffer), BoundBuffer(kind.fsBuffer)];
        var image := if kind.texture.Some? then [BoundSampledImage(kind.texture.value.image)] else [];
        Ok([DescriptorSet(0, buffers + image)])
    }

    /** A descriptor slot holds what a binding describes: the same buffer, or the device copy of its picture. */
    predicate Holds(d: BindingDesc, s: Resource) {
      match d
      case Buffer(b) => s == BoundBuffer(b)
      case Image(p) => s.BoundSampledImage? && TextureOf().Some? &&
                       TextureOf().value == Texture(p, s.image)
    }
  }

  /**
   * `Material::create_uniforms`: allocates the uniform buffers on the device
   * and seeds the record from the material; the matrices start at zero.
   */
  method CreateUniforms(material: Material, device: Device) returns (u: Uniforms)
    requires device.Valid()
    modifies device
    ensures device.Valid() && fresh(u) && u.Valid()
    ensures u.vs == DEFAULT_VS && u.fragment == Seed(material)
    ensures material.ObjectMaterial? ==> u.kind.ObjectKind? && u.kind.texture == material.texture
    ensures forall b | b in u.Buffers() :: old(device.nextId) <= b.id < device.nextId
    ensures device.started == old(device.started) && device.finished == old(device.finished)
  {
    if material.ObjectMaterial? {
      var vsBuffer := device.NewBuffer();
      var fsBuffer := device.NewBuffer();
      u := new Uniforms.Init(ObjectKind(vsBuffer, fsBuffer, material.texture), DEFAULT_VS, Seed(material));
    } else {
      var buffer := device.NewBuffer();
      u := new Uniforms.Init(EmissiveKind(buffer), DEFAULT_VS, Seed(material));
    }
  }
}
