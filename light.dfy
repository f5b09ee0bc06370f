/**
 * Point lights: an emissive material, the unit cube as the light's mesh,
 * and the per-frame update of the light's uniforms.
 */
module Lights {
  import opened Wrappers
  import opened Geometry
  import opened Gpu
  import opened Materials
  import opened Cameras
  import opened CubeGeometry
  import opened MeshRenderer

  /** `PointLightVertex`: only a homogeneous position. */
  datatype PointLightVertex = PointLightVertex(position: Vec4)

  /** `create_from_position`: a corner of the cube as a point (w = 1). */
  function CreateFromPosition(x: real, y: real, z: real): (v: PointLightVertex)
    ensures Xyz(v.position) == Vec3(x, y, z) && v.position.w == 1.0
  {
    PointLightVertex(Vec4(x, y, z, 1.0))
  }

  /**
   * The light's mesh data: every vertex is a point (w = 1) whose
   * coordinates are ±1, the corner of the cube it was built from.
   */
  lemma LightCubeVertices()
    ensures |CubeVertices(CreateFromPosition)| == 24
    ensures forall i | 0 <= i < 24 ::
              var v := CubeVertices(CreateFromPosition)[i].position;
              v.w == 1.0 && (v.x == 1.0 || v.x == -1.0) && (v.y == 1.0 || v.y == -1.0) && (v.z == 1.0 || v.z == -1.0)
  {
    CubeSizes();
    forall i | 0 <= i < 24
      ensures var v := CubeVertices(CreateFromPosition)[i].position;
              v.w == 1.0 && (v.x == 1.0 || v.x == -1.0) && (v.y == 1.0 || v.y == -1.0) && (v.z == 1.0 || v.z == -1.0)
    {
      var f := i / 4;
      CubeFacePlanes(f);
      assert i == 4 * f || i == 4 * f + 1 || i == 4 * f + 2 || i == 4 * f + 3;
      assert OnFace(i, f);
      var p := CUBE_POSITIONS[i];
      assert IsUnitCoordinate(p.x) && IsUnitCoordinate(p.y) && IsUnitCoordinate(p.z);
    }
  }

  /** Why a light's position cannot be read. */
  datatype LightError = InvalidModelTransform

  /**
   * `get_position`: the model-space origin mapped by the model matrix. As a
   * row vector the origin picks the matrix's last row, so the result exists
   * exactly when m44 > 0 and is (m41, m42, m43) / m44.
   */
  function PositionOf(model: Mat4): (r: Result<Vec3, LightError>)
    ensures r.Ok? <==> model.m44 > 0.0
    ensures r.Ok? ==> r.value == Vec3(model.m41 / model.m44, model.m42 / model.m44, model.m43 / model.m44)
    ensures r.Err? ==> r.error == InvalidModelTransform
  {
    var p := TransformPoint(model, ZERO);
    if p.Some? then Ok(p.value) else Err(InvalidModelTransform)
  }

  /** For an affine model matrix the light sits at the matrix's translation. */
  lemma AffinePosition(model: Mat4)
    requires IsAffine(model)
    ensures PositionOf(model) == Ok(Vec3(model.m41, model.m42, model.m43))
  {
  }

  /** A point light: its material, and the cube mesh that owns its uniforms. */
  class PointLight {
    const material: Material
    const mesh: Mesh<PointLightVertex>

    /**
     * The light's uniforms are emissive, and their fragment record is the
     * one seeded from the material: nothing writes intensity or colour after
     * creation.
     */
    ghost predicate Valid()
      reads this, mesh, mesh.uniforms
    {
      material.EmissiveMaterial? && mesh.Valid() && mesh.uniforms.kind.EmissiveKind? &&
      mesh.uniforms.fragment == Seed(material)
    }

    constructor (material: Material, mesh: Mesh<PointLightVertex>)
      requires material.EmissiveMaterial? && mesh.Valid() && mesh.uniforms.kind.EmissiveKind?
      requires mesh.uniforms.fragment == Seed(material)
      ensures Valid() && this.material == material && this.mesh == mesh
    {
      this.material := material;
      this.mesh := mesh;
    }

    /**
     * `PointLight::new`: the cube mesh with an emissive material; it fails
     * exactly when the pipeline layout has no set layout 0. The light's
     * intensity is the one given, its colour the one given with alpha 1.
     */
    static method New(renderer: Renderer, intensity: real, color: Vec3) returns (r: Result<PointLight, MeshError>)
      requires renderer.device.Valid()
      modifies renderer.device
      ensures renderer.device.Valid()
      ensures r.Ok? <==> 0 in renderer.layouts
      ensures r.Err? ==> r.error == MissingDescriptorLayout(0)
      ensures r.Ok? ==> fresh(r.value) && fresh(r.value.mesh) && fresh(r.value.mesh.uniforms) && r.value.Valid()
      ensures r.Ok? ==> r.value.Intensity() == intensity
      ensures r.Ok? ==> r.value.mesh.data == MeshData(CubeVertices(CreateFromPosition), CUBE_INDICES)
      ensures r.Ok? ==> r.value.mesh.uniforms.fragment.lightColor == Extend(color, 1.0)
    {
      var material := EmissiveMaterial(intensity, color);
      var data := Cube(CreateFromPosition);
      var mesh := renderer.CreateMesh(data, material);
      if mesh.Err? {
        return Err(mesh.error);
      }
      var light := new PointLight(material, mesh.value);
      return Ok(light);
    }

    /**
     * `get_intensity`: the intensity held in the light's uniform, which is
     * always the intensity the light was created with.
     */
    function Intensity(): (r: real)
      requires Valid()
      reads this, mesh, mesh.uniforms
      ensures r == material.lightIntensity
    {
      mesh.uniforms.fragment.lightIntensity
    }

    /**
     * `get_position`: where the current model matrix puts the light. It
     * exists exactly when m44 > 0, and is then the translation row divided
     * by m44; for an affine model matrix, the translation itself.
     */
    function Position(): (r: Result<Vec3, LightError>)
      reads this, mesh, mesh.uniforms
      ensures var m := mesh.uniforms.vs.model;
              && (r.Ok? <==> m.m44 > 0.0)
              && (r.Ok? ==> r.value == Vec3(m.m41 / m.m44, m.m42 / m.m44, m.m43 / m.m44))
              && (r.Err? ==> r.error == InvalidModelTransform)
              && (IsAffine(m) ==> r == Ok(Vec3(m.m41, m.m42, m.m43)))
    {
      PositionOf(mesh.uniforms.vs.model)
    }

    /**
     * `prepare_draw_commands`: writes the model matrix, then the camera's
     * view and projection, into the uniform, then records its buffer update.
     * The matrices are written even when recording fails; the intensity and
     * colour never change.
     */
    method PrepareDrawCommands(builder: CommandBuilder<UniformData>, model: Mat4, camera: Camera)
      returns (r: Outcome<CommandError>)
      requires Valid()
      modifies mesh.uniforms, builder
      ensures Valid()
      ensures mesh.uniforms.vs == VsUniform(model, camera.View(), camera.projection)
      ensures mesh.uniforms.fragment == old(mesh.uniforms.fragment) && Intensity() == old(Intensity())
      ensures Position() == PositionOf(model)
      ensures r.Pass? <==> !old(builder.inRenderPass)
      ensures builder.log == if r.Pass? then old(builder.log) + mesh.uniforms.UpdateCommands() else old(builder.log)
      ensures r.Pass? ==> builder.log == old(builder.log) + [UpdateBuffer(mesh.uniforms.kind.buffer, EmissiveData(
                            EmissiveUniform(model, camera.View(), camera.projection,
                                            mesh.uniforms.fragment.lightIntensity, mesh.uniforms.fragment.lightColor)))]
    {
      mesh.uniforms.SetModelMatrix(model);
      mesh.uniforms.SetViewProjMatrixFromCamera(camera);
      r := mesh.uniforms.UpdateBuffers(builder);
    }
  }
}
