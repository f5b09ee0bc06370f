/**
 * Loading a Wavefront OBJ group into a mesh: resolving each index tuple
 * against the attribute lists, assembling shader vertices, and collapsing
 * equal vertices into a vertex list plus a `u16` index list.
 */
module Objects {
  import opened Wrappers
  import opened Geometry
  import opened Gpu
  import opened Materials
  import opened MeshRenderer
  import opened CubeGeometry

  // ---------------------------------------------------------------------
  // Deduplication (`vertex_attributes_to_indexed_vertex_attributes`)
  // ---------------------------------------------------------------------

  predicate AllOk<V, E>(s: seq<Result<V, E>>) {
    forall j | 0 <= j < |s| :: s[j].Ok?
  }

  /** The values of a stream in which nothing failed. */
  function Values<V, E>(s: seq<Result<V, E>>): (r: seq<V>)
    requires AllOk(s)
    ensures |r| == |s| && forall j | 0 <= j < |s| :: r[j] == s[j].value
  {
    seq(|s|, j requires 0 <= j < |s| => s[j].value)
  }

  /**
   * The position of the first element of `u` whose key is `k`, or `|u|`
   * when there is none.
   */
  function Find<V, K(==)>(u: seq<V>, key: V -> K, k: K): (r: nat)
    ensures r <= |u|
    ensures r < |u| ==> key(u[r]) == k
    ensures forall p | 0 <= p < r :: key(u[p]) != k
    decreases |u|
  {
    if |u| == 0 then 0
    else
      var f := Find(u[..|u| - 1], key, k);
      if f < |u| - 1 then f else if key(u[|u| - 1]) == k then |u| - 1 else |u|
  }

  /**
   * The first occurrence of every key of `vs`, in the order the keys first
   * appear: the vertex list the deduplication builds.
   */
  function Unique<V, K(==)>(vs: seq<V>, key: V -> K): seq<V>
    decreases |vs|
  {
    if |vs| == 0 then []
    else
      var u := Unique(vs[..|vs| - 1], key);
      var v := vs[|vs| - 1];
      if Find(u, key, key(v)) < |u| then u else u + [v]
  }

  /** Appending an element does not move the first occurrence of a key already present. */
  lemma FindAppend<V, K>(u: seq<V>, v: V, key: V -> K, k: K)
    ensures Find(u + [v], key, k) ==
              if Find(u, key, k) < |u| then Find(u, key, k) else if key(v) == k then |u| else |u| + 1
  {
    assert (u + [v])[..|u|] == u;
  }

  /** One step of `Unique`: the stream grows by one vertex. */
  lemma UniqueStep<V, K>(vs: seq<V>, v: V, key: V -> K)
    ensures Unique(vs + [v], key) ==
              if Find(Unique(vs, key), key, key(v)) < |Unique(vs, key)| then Unique(vs, key)
              else Unique(vs, key) + [v]
  {
    assert (vs + [v])[..|vs|] == vs;
  }

  /** No two vertices the deduplication keeps have the same key. */
  lemma {:induction false} UniqueKeysDistinct<V, K>(vs: seq<V>, key: V -> K)
    ensures forall p, q | 0 <= p < q < |Unique(vs, key)| :: key(Unique(vs, key)[p]) != key(Unique(vs, key)[q])
    decreases |vs|
  {
    if |vs| > 0 {
      UniqueKeysDistinct(vs[..|vs| - 1], key);
    }
  }

  /** Every key of the input is the key of some kept vertex. */
  lemma {:induction false} UniqueCoversKeys<V, K>(vs: seq<V>, key: V -> K)
    ensures forall j | 0 <= j < |vs| :: Find(Unique(vs, key), key, key(vs[j])) < |Unique(vs, key)|
    decreases |vs|
  {
    if |vs| > 0 {
      var front, v := vs[..|vs| - 1], vs[|vs| - 1];
      UniqueCoversKeys(front, key);
      var u := Unique(front, key);
      assert vs == front + [v];
      forall j | 0 <= j < |vs|
        ensures Find(Unique(vs, key), key, key(vs[j])) < |Unique(vs, key)|
      {
        FindAppend(u, v, key, key(vs[j]));
        if j < |front| {
          assert vs[j] == front[j];
        }
      }
    }
  }

  /**
   * Every kept vertex is the first vertex of the input with its key: the
   * first occurrence wins.
   */
  lemma {:induction false} UniqueFirstOccurrences<V, K>(vs: seq<V>, key: V -> K)
    ensures forall p | 0 <= p < |Unique(vs, key)| ::
              Find(vs, key, key(Unique(vs, key)[p])) < |vs| &&
              Unique(vs, key)[p] == vs[Find(vs, key, key(Unique(vs, key)[p]))]
    decreases |vs|
  {
    if |vs| > 0 {
      var front, v := vs[..|vs| - 1], vs[|vs| - 1];
      UniqueFirstOccurrences(front, key);
      UniqueCoversKeys(front, key);
      var u := Unique(front, key);
      assert vs == front + [v];
      forall p | 0 <= p < |Unique(vs, key)|
        ensures Find(vs, key, key(Unique(vs, key)[p])) < |vs| &&
                Unique(vs, key)[p] == vs[Find(vs, key, key(Unique(vs, key)[p]))]
      {
        var x := Unique(vs, key)[p];
        FindAppend(front, v, key, key(x));
        if p == |u| {
          assert x == v;
        } else {
          assert x == u[p];
        }
      }
    }
  }

  /** The kept vertices are in the order in which their keys first appear. */
  lemma {:induction false} UniqueKeepsOrder<V, K>(vs: seq<V>, key: V -> K)
    ensures forall p, q | 0 <= p < q < |Unique(vs, key)| ::
              Find(vs, key, key(Unique(vs, key)[p])) < Find(vs, key, key(Unique(vs, key)[q]))
    decreases |vs|
  {
    if |vs| > 0 {
      var front, v := vs[..|vs| - 1], vs[|vs| - 1];
      UniqueKeepsOrder(front, key);
      UniqueFirstOccurrences(front, key);
      UniqueCoversKeys(front, key);
      var u := Unique(front, key);
      assert vs == front + [v];
      forall p, q | 0 <= p < q < |Unique(vs, key)|
        ensures Find(vs, key, key(Unique(vs, key)[p])) < Find(vs, key, key(Unique(vs, key)[q]))
      {
        var x, y := Unique(vs, key)[p], Unique(vs, key)[q];
        FindAppend(front, v, key, key(x));
        FindAppend(front, v, key, key(y));
        assert x == u[p];
        if q == |u| {
          assert y == v;
        } else {
          assert y == u[q];
        }
      }
    }
  }

  /**
   * The index recorded for input vertex `j`: the position of its key among
   * the kept vertices, cut to 16 bits as `as u16` does.
   */
  function IndexOf<V, K(==)>(vs: seq<V>, key: V -> K, j: nat): U16
    requires j < |vs|
  {
    Find(Unique(vs, key), key, key(vs[j])) % 0x1_0000
  }

  /**
   * Every recorded index names a kept vertex; with at most 65536 distinct
   * keys, that vertex has the same key as the input vertex.
   */
  lemma DedupRoundTrip<V, K>(vs: seq<V>, key: V -> K)
    ensures forall j | 0 <= j < |vs| :: IndexOf(vs, key, j) < |Unique(vs, key)|
    ensures |Unique(vs, key)| <= 0x1_0000 ==>
              forall j | 0 <= j < |vs| :: key(Unique(vs, key)[IndexOf(vs, key, j)]) == key(vs[j])
  {
    var u := Unique(vs, key);
    UniqueCoversKeys(vs, key);
    forall j | 0 <= j < |vs|
      ensures IndexOf(vs, key, j) < |u|
      ensures |u| <= 0x1_0000 ==> key(u[IndexOf(vs, key, j)]) == key(vs[j])
    {
      var f := Find(u, key, key(vs[j]));
      assert f < |u| && key(u[f]) == key(vs[j]);
      assert IndexOf(vs, key, j) == f % 0x1_0000 <= f;
    }
  }

  /**
   * Past 65536 distinct keys the cast wraps: the first input vertex with
   * the 65537th key gets index 0, a vertex with another key.
   */
  lemma DedupWrapsPast65536<V, K>(vs: seq<V>, key: V -> K)
    requires |Unique(vs, key)| > 0x1_0000
    ensures var j := Find(vs, key, key(Unique(vs, key)[0x1_0000]));
            j < |vs| && IndexOf(vs, key, j) == 0 && key(Unique(vs, key)[0]) != key(vs[j])
  {
    var u := Unique(vs, key);
    UniqueKeysDistinct(vs, key);
    UniqueFirstOccurrences(vs, key);
    var j := Find(vs, key, key(u[0x1_0000]));
    assert vs[j] == u[0x1_0000];
    assert Find(u, key, key(vs[j])) == 0x1_0000;
  }

  /**
   * What the deduplication loop keeps after reading `values`: the kept
   * vertices, one index per vertex read, and the map from every kept key
   * to its (truncated) index.
   */
  ghost predicate DedupState<V, K(!new)>(values: seq<V>, key: V -> K, vertices: seq<V>, indices: seq<U16>,
                                   index: map<K, U16>)
  {
    vertices == Unique(values, key) &&
    |indices| == |values| &&
    (forall j | 0 <= j < |values| :: indices[j] == IndexOf(values, key, j)) &&
    (forall k :: k in index <==> Find(vertices, key, k) < |vertices|) &&
    (forall k | k in index :: index[k] == Find(vertices, key, k) % 0x1_0000)
  }

  /** A vertex whose key is already known reuses that key's index. */
  lemma DedupStepKnown<V, K(!new)>(values: seq<V>, v: V, key: V -> K, vertices: seq<V>, indices: seq<U16>,
                             index: map<K, U16>)
    requires DedupState(values, key, vertices, indices, index) && key(v) in index
    ensures DedupState(values + [v], key, vertices, indices + [index[key(v)]], index)
  {
    UniqueStep(values, v, key);
    var w := values + [v];
    forall j | 0 <= j < |w|
      ensures (indices + [index[key(v)]])[j] == IndexOf(w, key, j)
    {
      if j < |values| {
        assert w[j] == values[j];
      }
    }
  }

  /** The indices recorded so far do not change when a vertex with a new key is kept. */
  lemma IndicesAfterNewKey<V, K>(values: seq<V>, v: V, key: V -> K, indices: seq<U16>)
    requires Find(Unique(values, key), key, key(v)) == |Unique(values, key)|
    requires |indices| == |values| && forall j | 0 <= j < |values| :: indices[j] == IndexOf(values, key, j)
    ensures forall j | 0 <= j < |values| + 1 ::
              (indices + [|Unique(values, key)| % 0x1_0000])[j] == IndexOf(values + [v], key, j)
  {
    var u, w := Unique(values, key), values + [v];
    UniqueStep(values, v, key);
    UniqueCoversKeys(values, key);
    forall j | 0 <= j < |w|
      ensures (indices + [|u| % 0x1_0000])[j] == IndexOf(w, key, j)
    {
      FindAppend(u, v, key, key(w[j]));
      if j < |values| {
        assert w[j] == values[j];
      }
    }
  }

  /** A vertex with a new key is kept, and its index is the old vertex count cut to 16 bits. */
  lemma DedupStepNew<V, K(!new)>(values: seq<V>, v: V, key: V -> K, vertices: seq<V>, indices: seq<U16>,
                           index: map<K, U16>)
    requires DedupState(values, key, vertices, indices, index) && key(v) !in index
    ensures DedupState(values + [v], key, vertices + [v], indices + [|vertices| % 0x1_0000],
                       index[key(v) := |vertices| % 0x1_0000])
  {
    var n := |vertices| % 0x1_0000;
    var index' := index[key(v) := n];
    assert Find(vertices, key, key(v)) == |vertices|;
    UniqueStep(values, v, key);
    IndicesAfterNewKey(values, v, key, indices);
    forall k
      ensures k in index' <==> Find(vertices + [v], key, k) < |vertices| + 1
      ensures k in index' ==> index'[k] == Find(vertices + [v], key, k) % 0x1_0000
    {
      FindAppend(vertices, v, key, k);
    }
  }

  /**
   * `vertex_attributes_to_indexed_vertex_attributes`: the first failed
   * vertex of the stream aborts with its error; otherwise the result is the
   * kept vertices and one index per input vertex.
   */
  method Dedup<V, K(==,!new), E>(vertices: seq<Result<V, E>>, key: V -> K) returns (r: Result<(seq<V>, seq<U16>), E>)
    ensures r.Ok? <==> AllOk(vertices)
    ensures r.Err? ==> exists j | 0 <= j < |vertices| ::
                         vertices[j].Err? && AllOk(vertices[..j]) && r.error == vertices[j].error
    ensures r.Ok? ==> r.value.0 == Unique(Values(vertices), key)
    ensures r.Ok? ==> |r.value.1| == |vertices| &&
                      forall j | 0 <= j < |vertices| :: r.value.1[j] == IndexOf(Values(vertices), key, j)
  {
    var vertex2index: map<K, U16> := map[];
    var resVertices: seq<V> := [];
    var resIndices: seq<U16> := [];
    ghost var values: seq<V> := [];
    for n := 0 to |vertices|
      invariant AllOk(vertices[..n]) && values == Values(vertices[..n])
      invariant DedupState(values, key, resVertices, resIndices, vertex2index)
    {
      if vertices[n].Err? {
        return Err(vertices[n].error);
      }
      var v := vertices[n].value;
      var k := key(v);
      var i: U16;
      if k in vertex2index {
        i := vertex2index[k];
        DedupStepKnown(values, v, key, resVertices, resIndices, vertex2index);
      } else {
        i := |resVertices| % 0x1_0000;
        DedupStepNew(values, v, key, resVertices, resIndices, vertex2index);
        resVertices := resVertices + [v];
        vertex2index := vertex2index[k := i];
      }
      resIndices := resIndices + [i];
      values := values + [v];
      assert vertices[..n + 1] == vertices[..n] + [vertices[n]];
    }
    assert vertices[..|vertices|] == vertices;
    return Ok((resVertices, resIndices));
  }

  // ---------------------------------------------------------------------
  // OBJ index tuples and vertex assembly
  // ---------------------------------------------------------------------

  /** An OBJ `IndexTuple`: a position index and optional texture and normal indices. */
  datatype IndexTuple = IndexTuple(position: nat, texture: Option<nat>, normal: Option<nat>)

  /** The attributes one index tuple resolves to. */
  datatype Attributes = Attributes(position: Vec3, texture: Option<Vec2>, normal: Option<Vec3>)

  /** Why a vertex of the group cannot be built. */
  datatype VertexError =
    | PositionNotFound(index: nat)
    | TextureCoordNotFound(index: nat)
    | NormalNotFound(index: nat)
    | NormalsRequired
    | TextureCoordsRequired

  /** `ObjectWithTextureVertex`. */
  datatype TexturedVertex = TexturedVertex(position: Vec4, normal: Vec4, texCoord: Vec2)

  /** `ObjectWithNoTextureVertex`. */
  datatype PlainVertex = PlainVertex(position: Vec4, normal: Vec4)

  /**
   * The closure `create_index_to_vertex_map` returns: the position index is
   * looked up first, then the texture index (only when both the index and
   * the texture list are present), then the normal index; the first index
   * out of range is the error.
   */
  function Resolve(positions: seq<Vec3>, textures: Option<seq<Vec2>>, normals: seq<Vec3>, t: IndexTuple)
    : (r: Result<Attributes, VertexError>)
    ensures r.Ok? <==> t.position < |positions| &&
                       (t.texture.Some? && textures.Some? ==> t.texture.value < |textures.value|) &&
                       (t.normal.Some? ==> t.normal.value < |normals|)
    ensures t.position >= |positions| ==> r == Err(PositionNotFound(t.position))
    ensures t.position < |positions| && t.texture.Some? && textures.Some? && t.texture.value >= |textures.value| ==>
              r == Err(TextureCoordNotFound(t.texture.value))
    ensures r.Err? && r.error.NormalNotFound? ==> t.normal.Some? && r.error.index == t.normal.value
    ensures r.Ok? ==> r.value.position == positions[t.position]
    ensures r.Ok? ==> (r.value.texture.Some? <==> t.texture.Some? && textures.Some?)
    ensures r.Ok? && r.value.texture.Some? ==> r.value.texture.value == textures.value[t.texture.value]
    ensures r.Ok? ==> (r.value.normal.Some? <==> t.normal.Some?)
    ensures r.Ok? && r.value.normal.Some? ==> r.value.normal.value == normals[t.normal.value]
  {
    if t.position >= |positions| then Err(PositionNotFound(t.position))
    else
      var texture :=
        if t.texture.Some? && textures.Some? then
          if t.texture.value < |textures.value| then Ok(Some(textures.value[t.texture.value]))
          else Err(TextureCoordNotFound(t.texture.value))
        else Ok(None);
      if texture.Err? then Err(texture.error)
      else
        var normal :=
          if t.normal.Some? then
            if t.normal.value < |normals| then Ok(Some(normals[t.normal.value]))
            else Err(NormalNotFound(t.normal.value))
          else Ok(None);
        if normal.Err? then Err(normal.error)
        else Ok(Attributes(positions[t.position], texture.value, normal.value))
  }

  /**
   * The vertex closure of `Object::with_texture`: a failed lookup is passed
   * on; a missing normal, then a missing texture coordinate, is an error;
   * the position becomes a point (w = 1) and the normal a direction (w = 0).
   */
  function AssembleTextured(a: Result<Attributes, VertexError>): (r: Result<TexturedVertex, VertexError>)
    ensures a.Err? ==> r == Err(a.error)
    ensures a.Ok? && a.value.normal.None? ==> r == Err(NormalsRequired)
    ensures a.Ok? && a.value.normal.Some? && a.value.texture.None? ==> r == Err(TextureCoordsRequired)
    ensures r.Ok? <==> a.Ok? && a.value.normal.Some? && a.value.texture.Some?
    ensures r.Ok? ==> Xyz(r.value.position) == a.value.position && r.value.position.w == 1.0
    ensures r.Ok? ==> Xyz(r.value.normal) == a.value.normal.value && r.value.normal.w == 0.0
    ensures r.Ok? ==> r.value.texCoord == a.value.texture.value
  {
    if a.Err? then Err(a.error)
    else if a.value.normal.None? then Err(NormalsRequired)
    else if a.value.texture.None? then Err(TextureCoordsRequired)
    else Ok(TexturedVertex(Extend(a.value.position, 1.0), Extend(a.value.normal.value, 0.0),
                           a.value.texture.value))
  }

  /**
   * The vertex closure of `Object::without_texture`: as above, without a
   * texture coordinate, so only a missing normal is an error.
   */
  function AssemblePlain(a: Result<Attributes, VertexError>): (r: Result<PlainVertex, VertexError>)
    ensures a.Err? ==> r == Err(a.error)
    ensures r.Ok? <==> a.Ok? && a.value.normal.Some?
    ensures a.Ok? && a.value.normal.None? ==> r == Err(NormalsRequired)
    ensures r.Ok? ==> Xyz(r.value.position) == a.value.position && r.value.position.w == 1.0
    ensures r.Ok? ==> Xyz(r.value.normal) == a.value.normal.value && r.value.normal.w == 0.0
  {
    if a.Err? then Err(a.error)
    else if a.value.normal.None? then Err(NormalsRequired)
    else Ok(PlainVertex(Extend(a.value.position, 1.0), Extend(a.value.normal.value, 0.0)))
  }

  /** The index tuples of all polygons of a group, one polygon after the other. */
  function Flatten(polys: seq<seq<IndexTuple>>): (r: seq<IndexTuple>)
    ensures |polys| > 0 ==> r == polys[0] + Flatten(polys[1..])
  {
    if |polys| == 0 then [] else polys[0] + Flatten(polys[1..])
  }

  /** The vertex stream `with_texture` feeds to the deduplication. */
  function TexturedStream(positions: seq<Vec3>, texCoords: seq<Vec2>, normals: seq<Vec3>,
                          polys: seq<seq<IndexTuple>>): (r: seq<Result<TexturedVertex, VertexError>>)
    ensures |r| == |Flatten(polys)|
    ensures forall j | 0 <= j < |r| :: r[j] == AssembleTextured(Resolve(positions, Some(texCoords), normals, Flatten(polys)[j]))
  {
    var tuples := Flatten(polys);
    seq(|tuples|, j requires 0 <= j < |tuples| => AssembleTextured(Resolve(positions, Some(texCoords), normals, tuples[j])))
  }

  /** The vertex stream `without_texture` feeds to the deduplication (no texture list). */
  function PlainStream(positions: seq<Vec3>, normals: seq<Vec3>, polys: seq<seq<IndexTuple>>)
    : (r: seq<Result<PlainVertex, VertexError>>)
    ensures |r| == |Flatten(polys)|
    ensures forall j | 0 <= j < |r| :: r[j] == AssemblePlain(Resolve(positions, None, normals, Flatten(polys)[j]))
  {
    var tuples := Flatten(polys);
    seq(|tuples|, j requires 0 <= j < |tuples| => AssemblePlain(Resolve(positions, None, normals, tuples[j])))
  }

  /** The deduplication keys: the vertex attributes themselves, compared exactly. */
  function TexturedKey(v: TexturedVertex): TexturedVertex { v }

  function PlainKey(v: PlainVertex): PlainVertex { v }

  // ---------------------------------------------------------------------
  // Objects
  // ---------------------------------------------------------------------

  /** Why loading an object fails. */
  datatype ObjectError = Vertex(vertexError: VertexError) | Loading(meshError: MeshError)

  /**
   * Mesh data that draws `values`: every index names a kept vertex, one index
   * per input vertex, and the kept vertex it names is that input vertex.
   */
  ghost predicate DrawsStream<V>(data: MeshData<V>, values: seq<V>) {
    AllBelow(data.indices, |data.vertices|) && |data.indices| == |values| &&
    forall j | 0 <= j < |values| :: data.vertices[data.indices[j]] == values[j]
  }

  /**
   * The mesh data `create_mesh` receives from a vertex stream with no failed
   * vertex: the deduplicated vertices and, per input vertex, the index of its
   * kept copy. With at most 65536 distinct vertices it draws the stream.
   */
  lemma DedupDraws<V>(values: seq<V>, key: V -> V, data: MeshData<V>)
    requires forall v :: key(v) == v
    requires data.vertices == Unique(values, key) && |data.indices| == |values|
    requires forall j | 0 <= j < |values| :: data.indices[j] == IndexOf(values, key, j)
    ensures |data.vertices| <= 0x1_0000 ==> DrawsStream(data, values)
  {
    DedupRoundTrip(values, key);
  }

  /** An object of the scene: its mesh, which owns the object's uniforms. */
  class Object<V> {
    const mesh: Mesh<V>

    constructor (mesh: Mesh<V>)
      ensures this.mesh == mesh
    {
      this.mesh := mesh;
    }

    /**
     * `Object::with_texture`: assembles the textured vertex stream of the
     * group, deduplicates it and creates the mesh. The first vertex that
     * cannot be built is the error; when every vertex can be built, the call
     * fails only if the pipeline layout lacks a set layout for one of the
     * material's bindings (the index validation in between always passes).
     */
    static method WithTexture(renderer: Renderer, positions: seq<Vec3>, texCoords: seq<Vec2>, normals: seq<Vec3>,
                              polys: seq<seq<IndexTuple>>, material: Material) returns (r: Result<Object<TexturedVertex>, ObjectError>)
      requires renderer.device.Valid() && material.ObjectMaterial?
      modifies renderer.device
      ensures renderer.device.Valid()
      ensures var stream := TexturedStream(positions, texCoords, normals, polys);
              (r.Err? && r.error.Vertex? <==> !AllOk(stream)) &&
              (r.Err? && r.error.Vertex? ==> exists j | 0 <= j < |stream| ::
                 stream[j].Err? && AllOk(stream[..j]) && r.error.vertexError == stream[j].error) &&
              (AllOk(stream) ==> (r.Ok? <==> forall j | 0 <= j < BindingCount(material) :: j in renderer.layouts))
      ensures r.Ok? ==> fresh(r.value) && fresh(r.value.mesh) && r.value.mesh.Valid()
      ensures r.Ok? ==> r.value.mesh.uniforms.vs == DEFAULT_VS && r.value.mesh.uniforms.fragment == Seed(material)
      ensures var stream := TexturedStream(positions, texCoords, normals, polys);
              r.Ok? ==> && AllOk(stream)
                        && r.value.mesh.data.vertices == Unique(Values(stream), TexturedKey)
                        && |r.value.mesh.data.indices| == |stream|
                        && forall j | 0 <= j < |stream| ::
                             r.value.mesh.data.indices[j] == IndexOf(Values(stream), TexturedKey, j)
      ensures var stream := TexturedStream(positions, texCoords, normals, polys);
              r.Ok? && AllOk(stream) && |r.value.mesh.data.vertices| <= 0x1_0000 ==>
                DrawsStream(r.value.mesh.data, Values(stream))
    {
      var stream := TexturedStream(positions, texCoords, normals, polys);
      var indexed := Dedup(stream, TexturedKey);
      if indexed.Err? {
        return Err(Vertex(indexed.error));
      }
      DedupRoundTrip(Values(stream), TexturedKey);
      var data := Create(indexed.value.0, indexed.value.1);
      // The index check of `MeshData::create` cannot fail on deduplicated data.
      assert data.Ok?;
      DedupDraws(Values(stream), TexturedKey, data.value);
      var mesh := renderer.CreateMesh(data.value, material);
      if mesh.Err? {
        return Err(Loading(mesh.error));
      }
      var loaded := new Object(mesh.value);
      return Ok(loaded);
    }

    /** `Object::without_texture`: the same steps on the untextured vertex stream. */
    static method WithoutTexture(renderer: Renderer, positions: seq<Vec3>, normals: seq<Vec3>,
                                 polys: seq<seq<IndexTuple>>, material: Material) returns (r: Result<Object<PlainVertex>, ObjectError>)
      requires renderer.device.Valid() && material.ObjectMaterial?
      modifies renderer.device
      ensures renderer.device.Valid()
      ensures var stream := PlainStream(positions, normals, polys);
              (r.Err? && r.error.Vertex? <==> !AllOk(stream)) &&
              (r.Err? && r.error.Vertex? ==> exists j | 0 <= j < |stream| ::
                 stream[j].Err? && AllOk(stream[..j]) && r.error.vertexError == stream[j].error) &&
              (AllOk(stream) ==> (r.Ok? <==> forall j | 0 <= j < BindingCount(material) :: j in renderer.layouts))
      ensures r.Ok? ==> fresh(r.value) && fresh(r.value.mesh) && r.value.mesh.Valid()
      ensures r.Ok? ==> r.value.mesh.uniforms.vs == DEFAULT_VS && r.value.mesh.uniforms.fragment == Seed(material)
      ensures var stream := PlainStream(positions, normals, polys);
              r.Ok? ==> && AllOk(stream)
                        && r.value.mesh.data.vertices == Unique(Values(stream), PlainKey)
                        && |r.value.mesh.data.indices| == |stream|
                        && forall j | 0 <= j < |stream| ::
                             r.value.mesh.data.indices[j] == IndexOf(Values(stream), PlainKey, j)
      ensures var stream := PlainStream(positions, normals, polys);
              r.Ok? && AllOk(stream) && |r.value.mesh.data.vertices| <= 0x1_0000 ==>
                DrawsStream(r.value.mesh.data, Values(stream))
    {
      var stream := PlainStream(positions, normals, polys);
      var indexed := Dedup(stream, PlainKey);
      if indexed.Err? {
        return Err(Vertex(indexed.error));
      }
      DedupRoundTrip(Values(stream), PlainKey);
      var data := Create(indexed.value.0, indexed.value.1);
      // The index check of `MeshData::create` cannot fail on deduplicated data.
      assert data.Ok?;
      DedupDraws(Values(stream), PlainKey, data.value);
      var mesh := renderer.CreateMesh(data.value, material);
      if mesh.Err? {
        return Err(Loading(mesh.error));
      }
      var loaded := new Object(mesh.value);
      return Ok(loaded);
    }
  }
}
