/** Flattening of a glTF 2.0 scene into PBR primitive builders (Gltf::ModelBuilder).

    The node tree of the default scene is walked depth first. Every visited glTF node
    becomes one PBR model node; every primitive of its mesh is appended to the builder
    of the primitive's material, with the node's index stamped on each vertex and the
    triangle winding reversed. `Build` then turns each builder into one PBR primitive
    with one material per material index.

    The decoded glTF data (what tinygltf and the GltfHelper readers produce) is input
    here; floating-point attributes are carried as opaque `seq<real>` values. */
module GltfLoader {
  import opened Wrappers

  const U32: int := 0x1_0000_0000
  type u32 = x: int | 0 <= x < U32

  /** The value of a cast to uint32_t. */
  function Wrap32(x: int): u32 {
    x % U32
  }

  /** Pbr::NodeIndex_t: the position of a node in the PBR model. */
  type NodeIndex = nat

  // ---------------------------------------------------------------------------
  // glTF input
  // ---------------------------------------------------------------------------

  /** GltfHelper::Vertex. */
  datatype Vertex = Vertex(position: seq<real>, normal: seq<real>, tangent: seq<real>,
                           color0: seq<real>, texCoord0: seq<real>)

  /** GltfHelper::Primitive: the decoded vertices and triangle-list indices. */
  datatype Primitive = Primitive(vertices: seq<Vertex>, indices: seq<u32>)

  /** A glTF primitive: its material index (-1 for none) and its decoded data. */
  datatype GltfPrimitive = GltfPrimitive(material: int, data: Primitive)

  datatype Mesh = Mesh(primitives: seq<GltfPrimitive>)

  /** A glTF node; `mesh` is -1 when the node has none. */
  datatype Node = Node(name: string, localTransform: seq<real>, mesh: int, children: seq<int>)

  /** GltfHelper::Material::Texture: image and sampler, each possibly absent. */
  datatype TextureRef = TextureRef(image: Option<nat>, sampler: Option<nat>)

  /** GltfHelper::AlphaModeType. */
  datatype AlphaMode = Opaque | Mask | Blend

  /** The scalar and colour factors of a material (floats as reals). */
  datatype Factors = Factors(baseColor: seq<real>, metallic: real, roughness: real,
                             emissive: seq<real>, occlusionStrength: real, normalScale: real)

  /** What GltfHelper::ReadMaterial yields, with the glTF material's name. */
  datatype Material = Material(name: string, baseColor: TextureRef, metallicRoughness: TextureRef,
                               emissive: TextureRef, normal: TextureRef, occlusion: TextureRef,
                               doubleSided: bool, factors: Factors, alphaMode: AlphaMode,
                               alphaCutoff: real)

  datatype Scene = Scene(nodes: seq<int>)

  /** tinygltf::Model; `defaultScene` is -1 when the file names none. */
  datatype Model = Model(nodes: seq<Node>, meshes: seq<Mesh>, materials: seq<Material>,
                         scenes: seq<Scene>, defaultScene: int)

  /** The exceptions the loader throws: the parse failure, `std::out_of_range` from the
      `at` lookups, and `std::logic_error` from a second `Build`. */
  datatype LoaderError =
    | ParseFailed(message: string)
    | NodeOutOfRange(nodeId: int)
    | MeshOutOfRange(meshId: int)
    | SceneOutOfRange(sceneId: int)
    | MaterialOutOfRange(materialId: int)
    | NoModel

  /** What the loader relies on: an acyclic node graph, witnessed by a rank that
      strictly decreases from a node to each of its (valid) children, and meshes made of
      whole triangles. */
  ghost predicate Loadable(g: Model, rank: seq<nat>) {
    && |rank| == |g.nodes|
    && (forall n, k ::
          (0 <= n < |g.nodes| && 0 <= k < |g.nodes[n].children| && 0 <= g.nodes[n].children[k] < |g.nodes|)
          ==> rank[g.nodes[n].children[k]] < rank[n])
    && Triangulated(g)
  }

  predicate Triangulated(g: Model) {
    forall m, k :: 0 <= m < |g.meshes| && 0 <= k < |g.meshes[m].primitives|
      ==> |g.meshes[m].primitives[k].data.indices| % 3 == 0
  }

  /** Termination measure of the node walk: 0 for an invalid node id. */
  function NodeRank(rank: seq<nat>, nodeId: int): nat {
    if 0 <= nodeId < |rank| then rank[nodeId] + 1 else 0
  }

  /** A bound above every node's measure. */
  function RankBound(rank: seq<nat>): (b: nat)
    ensures forall i :: 0 <= i < |rank| ==> rank[i] + 1 < b
  {
    if rank == [] then 1
    else
      var rest := RankBound(rank[1..]);
      assert forall i :: 1 <= i < |rank| ==> rank[i] == rank[1..][i - 1];
      if rank[0] + 2 > rest then rank[0] + 2 else rest
  }

  // ---------------------------------------------------------------------------
  // PBR output
  // ---------------------------------------------------------------------------

  /** Pbr::Vertex: the glTF attributes plus the index of the node whose transform applies. */
  datatype PbrVertex = PbrVertex(position: seq<real>, normal: seq<real>, tangent: seq<real>,
                                 color0: seq<real>, texCoord0: seq<real>, modelTransformIndex: NodeIndex)

  /** The value-initialised vertex `resize` fills with. */
  const DefaultVertex: PbrVertex := PbrVertex([], [], [], [], [], 0)

  /** Pbr::PrimitiveBuilder. */
  datatype PrimitiveBuilder = PrimitiveBuilder(vertices: seq<PbrVertex>, indices: seq<u32>, nodeIndices: set<NodeIndex>)

  datatype PbrNode = PbrNode(localTransform: seq<real>, parent: NodeIndex, name: string)

  /** The node a fresh Pbr::Model holds. */
  const RootNodeIndex: NodeIndex := 0
  const RootNode: PbrNode := PbrNode([1.0, 0.0, 0.0, 0.0, 0.0, 1.0, 0.0, 0.0, 0.0, 0.0, 1.0, 0.0, 0.0, 0.0, 0.0, 1.0], RootNodeIndex, "root")

  /** Material texture slots (Pbr::ShaderSlots::PSMaterial). */
  datatype Slot = BaseColor | MetallicRoughness | Normal | Occlusion | Emissive

  /** Fallback colours of a texture slot without an image. */
  datatype Fallback = White | FlatNormal

  /** One IGltfBuilder::LoadTexture request. */
  datatype TextureLoad = TextureLoad(slot: Slot, texture: TextureRef, sRGB: bool, fallback: Fallback)

  /** std::numeric_limits<float>::lowest(), the most negative finite float (-FLT_MAX). */
  const FloatLowest: real := -340282346638528859811704183484516925440.0

  /** Pbr::Material::ConstantBufferData, the parameters Build writes. */
  datatype Parameters = Parameters(factors: Factors, alphaCutoff: real)

  /** A material as created through the IGltfBuilder. */
  datatype PbrMaterial =
    | FlatMaterial(baseColor: seq<real>, roughness: real)
    | LoadedMaterial(index: nat, name: string, textures: seq<TextureLoad>, doubleSided: bool,
                     alphaBlended: bool, parameters: Parameters)

  datatype PbrPrimitive = PbrPrimitive(builder: PrimitiveBuilder, material: PbrMaterial)

  datatype PbrModel = PbrModel(nodes: seq<PbrNode>, primitives: seq<PbrPrimitive>)

  // ---------------------------------------------------------------------------
  // Appending one primitive to a builder
  // ---------------------------------------------------------------------------

  /** std::vector::resize. */
  function Resize<T>(s: seq<T>, n: nat, fill: T): (r: seq<T>)
    ensures |r| == n
    ensures n <= |s| ==> r == s[..n]
    ensures n > |s| ==> r[..|s|] == s && forall k :: |s| <= k < n ==> r[k] == fill
  {
    if n <= |s| then s[..n] else s + seq(n - |s|, _ => fill)
  }

  function ToPbrVertex(v: Vertex, node: NodeIndex): PbrVertex {
    PbrVertex(v.position, v.normal, v.tangent, v.color0, v.texCoord0, node)
  }

  /** The position in the source triangle list that output position `j` is read from:
      the second and third corner of every triangle trade places. */
  function Corner(j: nat): nat {
    if j % 3 == 1 then j + 1 else if j % 3 == 2 then j - 1 else j
  }

  /** The source indices offset by `start` (in uint32 arithmetic) with reversed winding. */
  function ReversedWinding(indices: seq<u32>, start: u32): (r: seq<u32>)
    requires |indices| % 3 == 0
    ensures |r| == |indices|
  {
    seq(|indices|, j requires 0 <= j < |indices| => Wrap32(start + indices[Corner(j)]))
  }

  /** The builder after one glTF primitive of node `node` has been appended. The offsets
      are the builder's sizes truncated to uint32, as in the source. */
  function Appended(b: PrimitiveBuilder, p: Primitive, node: NodeIndex): PrimitiveBuilder
    requires |p.indices| % 3 == 0
  {
    var startVertex := Wrap32(|b.vertices|);
    var startIndex := Wrap32(|b.indices|);
    PrimitiveBuilder(
      b.vertices[..startVertex] + seq(|p.vertices|, i requires 0 <= i < |p.vertices| => ToPbrVertex(p.vertices[i], node)),
      b.indices[..startIndex] + ReversedWinding(p.indices, startVertex),
      b.nodeIndices + {node})
  }

  /** Each source triangle (a, b, c) becomes (start+a, start+c, start+b). */
  lemma ReversedWindingTriangles(indices: seq<u32>, start: u32)
    requires |indices| % 3 == 0
    ensures forall t :: 0 <= t < |indices| / 3 ==>
              ReversedWinding(indices, start)[3 * t..3 * t + 3]
                == [Wrap32(start + indices[3 * t]), Wrap32(start + indices[3 * t + 2]), Wrap32(start + indices[3 * t + 1])]
  {
    forall t | 0 <= t < |indices| / 3 {
      ReversedTriangle(indices, start, t);
    }
  }

  /** Triangle `t` of the rewritten list. */
  lemma ReversedTriangle(indices: seq<u32>, start: u32, t: nat)
    requires |indices| % 3 == 0 && t < |indices| / 3
    ensures 3 * t + 3 <= |indices|
    ensures ReversedWinding(indices, start)[3 * t..3 * t + 3]
              == [Wrap32(start + indices[3 * t]), Wrap32(start + indices[3 * t + 2]), Wrap32(start + indices[3 * t + 1])]
  {
    TriangleCorners(|indices|, t);
    var r := ReversedWinding(indices, start);
    var i := 3 * t;
    assert r[i] == Wrap32(start + indices[i]);
    assert r[i + 1] == Wrap32(start + indices[i + 2]);
    assert r[i + 2] == Wrap32(start + indices[i + 1]);
    assert r[i..i + 3] == [r[i], r[i + 1], r[i + 2]];
  }

  /** Triangle `t` of a list of `n` indices lies inside it, and its second and third
      corners trade places. */
  lemma TriangleCorners(n: nat, t: nat)
    requires n % 3 == 0 && t < n / 3
    ensures 3 * t + 3 <= n
    ensures Corner(3 * t) == 3 * t && Corner(3 * t + 1) == 3 * t + 2 && Corner(3 * t + 2) == 3 * t + 1
  {
    var q := n / 3;
    assert n == 3 * q;
    ThirdOf(t, 0);
    ThirdOf(t, 1);
    ThirdOf(t, 2);
  }

  /** Position `r` of triangle `t` has remainder `r`. */
  lemma ThirdOf(t: nat, r: nat)
    requires r < 3
    ensures (3 * t + r) % 3 == r
  {
  }

  /** Reversing the winding twice (without offset) restores the index list. */
  lemma {:induction false} ReversedWindingInvolution(indices: seq<u32>)
    requires |indices| % 3 == 0
    ensures ReversedWinding(ReversedWinding(indices, 0), 0) == indices
  {
    var r := ReversedWinding(indices, 0);
    forall j | 0 <= j < |indices|
      ensures ReversedWinding(r, 0)[j] == indices[j]
    {
      assert Corner(Corner(j)) == j;
    }
  }

  /** Appending keeps every earlier vertex and index (while the sizes fit in uint32),
      copies each new vertex's attributes, stamps it with the node index, and records
      the node in `nodeIndices`. */
  lemma AppendedContents(b: PrimitiveBuilder, p: Primitive, node: NodeIndex)
    requires |p.indices| % 3 == 0
    requires |b.vertices| < U32 && |b.indices| < U32
    ensures Appended(b, p, node).vertices[..|b.vertices|] == b.vertices
    ensures |Appended(b, p, node).vertices| == |b.vertices| + |p.vertices|
    ensures forall i :: 0 <= i < |p.vertices| ==>
              Appended(b, p, node).vertices[|b.vertices| + i] == ToPbrVertex(p.vertices[i], node)
    ensures Appended(b, p, node).indices == b.indices + ReversedWinding(p.indices, |b.vertices|)
    ensures Appended(b, p, node).nodeIndices == b.nodeIndices + {node}
  {
    WrapSmall(|b.vertices|);
    WrapSmall(|b.indices|);
    assert b.vertices[..|b.vertices|] == b.vertices;
    assert b.indices[..|b.indices|] == b.indices;
    var added := seq(|p.vertices|, i requires 0 <= i < |p.vertices| => ToPbrVertex(p.vertices[i], node));
    assert Appended(b, p, node).vertices == b.vertices + added;
    assert forall i :: 0 <= i < |p.vertices| ==> (b.vertices + added)[|b.vertices| + i] == added[i];
  }

  /** A cast to uint32_t keeps a value that fits. */
  lemma WrapSmall(x: int)
    requires 0 <= x < U32
    ensures Wrap32(x) == x
  {
  }

  /** The purpose of the vertex offset: when the primitive's indices address its own
      vertices and the builder stays below 2^32 vertices, every appended index addresses
      a vertex of the grown builder, and one that came from this primitive. */
  lemma AppendedIndicesInBounds(b: PrimitiveBuilder, p: Primitive, node: NodeIndex)
    requires |p.indices| % 3 == 0
    requires forall k :: 0 <= k < |p.indices| ==> p.indices[k] < |p.vertices|
    requires |b.vertices| < U32 && |b.vertices| + |p.vertices| <= U32 && |b.indices| < U32
    ensures forall k :: |b.indices| <= k < |Appended(b, p, node).indices| ==>
              |b.vertices| <= Appended(b, p, node).indices[k] < |Appended(b, p, node).vertices|
  {
    AppendedContents(b, p, node);
    var r := ReversedWinding(p.indices, |b.vertices|);
    forall k | 0 <= k < |r|
      ensures |b.vertices| <= r[k] < |b.vertices| + |p.vertices|
    {
      assert Corner(k) < |p.indices|;
      assert |b.vertices| + p.indices[Corner(k)] < U32;
    }
  }

  /** A builder is well formed when it holds whole triangles whose indices address its vertices. */
  predicate WellFormed(b: PrimitiveBuilder) {
    && |b.indices| % 3 == 0
    && forall k :: 0 <= k < |b.indices| ==> b.indices[k] < |b.vertices|
  }

  /** Appending a well-formed primitive keeps a builder well formed while it fits in uint32. */
  lemma AppendedWellFormed(b: PrimitiveBuilder, p: Primitive, node: NodeIndex)
    requires WellFormed(b) && |p.indices| % 3 == 0
    requires forall k :: 0 <= k < |p.indices| ==> p.indices[k] < |p.vertices|
    requires |b.vertices| < U32 && |b.vertices| + |p.vertices| <= U32 && |b.indices| < U32
    ensures WellFormed(Appended(b, p, node))
  {
    AppendedContents(b, p, node);
    AppendedIndicesInBounds(b, p, node);
  }

  /** A builder's vertices are all stamped with nodes it lists, and those are below `count`. */
  predicate TaggedBuilder(b: PrimitiveBuilder, count: nat) {
    && (forall v :: v in b.vertices ==> v.modelTransformIndex in b.nodeIndices)
    && (forall n :: n in b.nodeIndices ==> n < count)
  }

  lemma AppendedTagged(b: PrimitiveBuilder, p: Primitive, node: NodeIndex, count: nat)
    requires |p.indices| % 3 == 0
    requires TaggedBuilder(b, count) && node < count
    ensures TaggedBuilder(Appended(b, p, node), count)
  {
    var a := Appended(b, p, node);
    var old_ := b.vertices[..Wrap32(|b.vertices|)];
    forall v | v in a.vertices
      ensures v.modelTransformIndex in a.nodeIndices
    {
      var k :| 0 <= k < |a.vertices| && a.vertices[k] == v;
      if k < |old_| {
        assert v in b.vertices;
      }
    }
  }

  // ---------------------------------------------------------------------------
  // Builders grouped by material
  // ---------------------------------------------------------------------------

  /** A default-constructed builder. */
  const EmptyBuilder: PrimitiveBuilder := PrimitiveBuilder([], [], {})

  /** One entry of Gltf::PrimitiveBuilderMap, a std::map from material index to builder. */
  datatype Entry = Entry(material: int, builder: PrimitiveBuilder)

  /** A std::map holds its entries in strictly increasing key order. */
  predicate Ordered(m: seq<Entry>) {
    forall i, j :: 0 <= i < j < |m| ==> m[i].material < m[j].material
  }

  function Keys(m: seq<Entry>): set<int> {
    set e | e in m :: e.material
  }

  lemma KeysCons(m: seq<Entry>)
    requires m != []
    ensures Keys(m) == {m[0].material} + Keys(m[1..])
  {
    assert m == [m[0]] + m[1..];
  }

  /** operator[] as a read: the key's builder, or a default-constructed one. */
  function BuilderFor(m: seq<Entry>, key: int): (b: PrimitiveBuilder)
    ensures key !in Keys(m) ==> b == EmptyBuilder
    ensures key in Keys(m) ==> Entry(key, b) in m
    decreases |m|
  {
    if m == [] then EmptyBuilder
    else if m[0].material == key then m[0].builder
    else
      KeysCons(m);
      BuilderFor(m[1..], key)
  }

  /** operator[] as a write: the key's entry, inserted at its place or replaced. */
  function Put(m: seq<Entry>, key: int, b: PrimitiveBuilder): (r: seq<Entry>)
    ensures Keys(r) == Keys(m) + {key}
    ensures forall e :: e in r ==> e == Entry(key, b) || e in m
    decreases |m|
  {
    if m == [] then [Entry(key, b)]
    else if key < m[0].material then [Entry(key, b)] + m
    else if key == m[0].material then
      KeysCons(m);
      KeysCons([Entry(key, b)] + m[1..]);
      [Entry(key, b)] + m[1..]
    else
      var rest := Put(m[1..], key, b);
      KeysCons(m);
      KeysCons([m[0]] + rest);
      [m[0]] + rest
  }

  /** A write is seen by the next read of the same key and by no other key. */
  lemma {:induction false} PutLookup(m: seq<Entry>, key: int, b: PrimitiveBuilder)
    ensures BuilderFor(Put(m, key, b), key) == b
    ensures forall k :: k != key ==> BuilderFor(Put(m, key, b), k) == BuilderFor(m, k)
    decreases |m|
  {
    if m != [] && key > m[0].material {
      PutLookup(m[1..], key, b);
      assert Put(m, key, b)[1..] == Put(m[1..], key, b);
    } else if m != [] && key == m[0].material {
      assert Put(m, key, b)[1..] == m[1..];
    } else if m != [] {
      assert Put(m, key, b)[1..] == m;
    }
  }

  /** A write keeps the entries in key order. */
  lemma {:induction false} PutOrdered(m: seq<Entry>, key: int, b: PrimitiveBuilder)
    requires Ordered(m)
    ensures Ordered(Put(m, key, b))
    decreases |m|
  {
    if m == [] {
    } else if key < m[0].material {
      AboveFirst(m, m[0].material);
      OrderedCons(Entry(key, b), m);
    } else if key == m[0].material {
      AboveFirst(m, m[0].material);
      OrderedCons(Entry(key, b), m[1..]);
    } else {
      PutOrdered(m[1..], key, b);
      var rest := Put(m[1..], key, b);
      AboveFirst(m, m[0].material);
      OrderedCons(m[0], rest);
    }
  }

  /** Every entry after the first of an ordered map has a key above `low` when the first does. */
  lemma AboveFirst(m: seq<Entry>, low: int)
    requires Ordered(m) && m != [] && low <= m[0].material
    ensures Ordered(m[1..])
    ensures forall e :: e in m[1..] ==> low < e.material
  {
    forall e | e in m[1..]
      ensures low < e.material
    {
      var j :| 0 <= j < |m[1..]| && m[1..][j] == e;
      assert m[j + 1] == e;
    }
  }

  /** An entry below every key of an ordered map can go in front of it. */
  lemma OrderedCons(x: Entry, rest: seq<Entry>)
    requires Ordered(rest)
    requires forall e :: e in rest ==> x.material < e.material
    ensures Ordered([x] + rest)
  {
    forall i, j | 0 <= i < j < |[x] + rest|
      ensures ([x] + rest)[i].material < ([x] + rest)[j].material
    {
      if i == 0 {
        assert ([x] + rest)[j] in rest;
      } else {
        assert ([x] + rest)[i] == rest[i - 1] && ([x] + rest)[j] == rest[j - 1];
      }
    }
  }

  /** The builders after the given primitives of node `node` have been appended in order. */
  function AppendMesh(builders: seq<Entry>, prims: seq<GltfPrimitive>, node: NodeIndex): seq<Entry>
    requires forall k :: 0 <= k < |prims| ==> |prims[k].data.indices| % 3 == 0
    decreases |prims|
  {
    if prims == [] then builders
    else
      var init := AppendMesh(builders, prims[..|prims| - 1], node);
      var last := prims[|prims| - 1];
      Put(init, last.material, Appended(BuilderFor(init, last.material), last.data, node))
  }

  /** The material indices of a list of glTF primitives. */
  function Materials(prims: seq<GltfPrimitive>): set<int> {
    set k | 0 <= k < |prims| :: prims[k].material
  }

  lemma MaterialsSnoc(prims: seq<GltfPrimitive>)
    requires prims != []
    ensures Materials(prims) == Materials(prims[..|prims| - 1]) + {prims[|prims| - 1].material}
  {
    var init := prims[..|prims| - 1];
    forall m | m in Materials(prims) ensures m in Materials(init) + {prims[|prims| - 1].material} {
      var k :| 0 <= k < |prims| && prims[k].material == m;
      if k < |init| {
        assert init[k].material == m;
      }
    }
    forall m | m in Materials(init) ensures m in Materials(prims) {
      var k :| 0 <= k < |init| && init[k].material == m;
      assert prims[k].material == m;
    }
  }

  /** Appending a mesh adds exactly its primitives' materials to the keys. */
  lemma {:induction false} AppendMeshKeys(builders: seq<Entry>, prims: seq<GltfPrimitive>, node: NodeIndex)
    requires forall k :: 0 <= k < |prims| ==> |prims[k].data.indices| % 3 == 0
    ensures Keys(AppendMesh(builders, prims, node)) == Keys(builders) + Materials(prims)
    decreases |prims|
  {
    if prims != [] {
      AppendMeshKeys(builders, prims[..|prims| - 1], node);
      MaterialsSnoc(prims);
    }
  }

  /** The builder of a material no primitive of the mesh uses is left as it was. */
  lemma {:induction false} AppendMeshOthers(builders: seq<Entry>, prims: seq<GltfPrimitive>, node: NodeIndex, m: int)
    requires forall k :: 0 <= k < |prims| ==> |prims[k].data.indices| % 3 == 0
    requires m !in Materials(prims)
    ensures BuilderFor(AppendMesh(builders, prims, node), m) == BuilderFor(builders, m)
    decreases |prims|
  {
    if prims != [] {
      var last := prims[|prims| - 1];
      MaterialsSnoc(prims);
      AppendMeshOthers(builders, prims[..|prims| - 1], node, m);
      var before := AppendMesh(builders, prims[..|prims| - 1], node);
      PutLookup(before, last.material, Appended(BuilderFor(before, last.material), last.data, node));
    }
  }

  /** Primitives sharing a material accumulate into that material's builder, which then
      lists the node. */
  lemma {:induction false} AppendMeshNodes(builders: seq<Entry>, prims: seq<GltfPrimitive>, node: NodeIndex, m: int)
    requires forall k :: 0 <= k < |prims| ==> |prims[k].data.indices| % 3 == 0
    requires m in Materials(prims)
    ensures node in BuilderFor(AppendMesh(builders, prims, node), m).nodeIndices
    decreases |prims|
  {
    var init := prims[..|prims| - 1];
    var last := prims[|prims| - 1];
    MaterialsSnoc(prims);
    var before := AppendMesh(builders, init, node);
    PutLookup(before, last.material, Appended(BuilderFor(before, last.material), last.data, node));
    if m != last.material {
      AppendMeshNodes(builders, init, node, m);
    }
  }

  /** The builders with the nodes they were loaded for. */
  datatype Loaded = Loaded(nodes: seq<PbrNode>, builders: seq<Entry>)

  /** Every builder of `s` is tagged with nodes of `s`. */
  ghost predicate Tagged(s: Loaded) {
    forall e :: e in s.builders ==> TaggedBuilder(e.builder, |s.nodes|)
  }

  lemma {:induction false} AppendMeshTagged(builders: seq<Entry>, prims: seq<GltfPrimitive>, node: NodeIndex, count: nat)
    requires forall k :: 0 <= k < |prims| ==> |prims[k].data.indices| % 3 == 0
    requires forall e :: e in builders ==> TaggedBuilder(e.builder, count)
    requires node < count
    ensures forall e :: e in AppendMesh(builders, prims, node) ==> TaggedBuilder(e.builder, count)
    decreases |prims|
  {
    if prims != [] {
      var init := AppendMesh(builders, prims[..|prims| - 1], node);
      AppendMeshTagged(builders, prims[..|prims| - 1], node, count);
      var last := prims[|prims| - 1];
      var b := BuilderFor(init, last.material);
      assert TaggedBuilder(b, count) by {
        if last.material in Keys(init) {
          assert Entry(last.material, b) in init;
        }
      }
      AppendedTagged(b, last.data, node, count);
    }
  }

  // ---------------------------------------------------------------------------
  // Walking the node tree
  // ---------------------------------------------------------------------------

  /** LoadNode: add the node, append its mesh's primitives, then load its children
      with the new node as their parent. */
  function LoadNodeSpec(g: Model, rank: seq<nat>, parent: NodeIndex, nodeId: int, s: Loaded): Result<Loaded, LoaderError>
    requires Loadable(g, rank)
    decreases NodeRank(rank, nodeId), 1
  {
    if !(0 <= nodeId < |g.nodes|) then Err(NodeOutOfRange(nodeId))
    else if !HasValidMesh(g, nodeId) then Err(MeshOutOfRange(g.nodes[nodeId].mesh))
    else LoadNodesSpec(g, rank, |s.nodes|, g.nodes[nodeId].children, WithNode(g, parent, nodeId, s), NodeRank(rank, nodeId))
  }

  /** The node names no mesh or a mesh that exists. */
  predicate HasValidMesh(g: Model, nodeId: nat)
    requires nodeId < |g.nodes|
  {
    g.nodes[nodeId].mesh == -1 || 0 <= g.nodes[nodeId].mesh < |g.meshes|
  }

  /** The state after a node and its mesh have been loaded, before its children: the new
      PBR node at the end, the mesh's primitives appended for it. */
  function WithNode(g: Model, parent: NodeIndex, nodeId: nat, s: Loaded): Loaded
    requires Triangulated(g) && nodeId < |g.nodes| && HasValidMesh(g, nodeId)
  {
    var node := g.nodes[nodeId];
    var index := |s.nodes|;
    Loaded(s.nodes + [PbrNode(node.localTransform, parent, node.name)],
           if node.mesh == -1 then s.builders else AppendMesh(s.builders, g.meshes[node.mesh].primitives, index))
  }

  /** Loading a list of sibling nodes in order; the first failure ends the walk. */
  function LoadNodesSpec(g: Model, rank: seq<nat>, parent: NodeIndex, ids: seq<int>, s: Loaded, bound: nat): Result<Loaded, LoaderError>
    requires Loadable(g, rank)
    requires forall k :: 0 <= k < |ids| ==> NodeRank(rank, ids[k]) < bound
    decreases bound, 0, |ids|
  {
    if ids == [] then Ok(s)
    else
      match LoadNodeSpec(g, rank, parent, ids[0], s)
      case Err(e) => Err(e)
      case Ok(t) => LoadNodesSpec(g, rank, parent, ids[1..], t, bound)
  }

  /** The glTF nodes a walk from `nodeId` visits, in visiting order (a reference
      definition of the depth-first pre-order). */
  ghost function Preorder(g: Model, rank: seq<nat>, nodeId: int): (r: seq<int>)
    requires Loadable(g, rank)
    ensures forall k :: 0 <= k < |r| ==> 0 <= r[k] < |g.nodes|
    decreases NodeRank(rank, nodeId), 1
  {
    if !(0 <= nodeId < |g.nodes|) then []
    else [nodeId] + PreorderList(g, rank, g.nodes[nodeId].children, NodeRank(rank, nodeId))
  }

  ghost function PreorderList(g: Model, rank: seq<nat>, ids: seq<int>, bound: nat): (r: seq<int>)
    requires Loadable(g, rank)
    requires forall k :: 0 <= k < |ids| ==> NodeRank(rank, ids[k]) < bound
    ensures forall k :: 0 <= k < |r| ==> 0 <= r[k] < |g.nodes|
    decreases bound, 0, |ids|
  {
    if ids == [] then []
    else Preorder(g, rank, ids[0]) + PreorderList(g, rank, ids[1..], bound)
  }

  /** The PBR node was made from the glTF node. */
  predicate MadeFrom(p: PbrNode, n: Node) {
    p.name == n.name && p.localTransform == n.localTransform
  }

  /** `t` extends `s` by one PBR node per glTF node of `visited`, in that order, made from
      it, each parented to `parent` or to a node before it that is new as well. */
  ghost predicate WalkAppends(g: Model, s: Loaded, t: Loaded, parent: NodeIndex, visited: seq<int>) {
    && |t.nodes| == |s.nodes| + |visited|
    && t.nodes[..|s.nodes|] == s.nodes
    && (forall j :: |s.nodes| <= j < |t.nodes| ==> t.nodes[j].parent == parent || |s.nodes| <= t.nodes[j].parent < j)
    && (forall k :: 0 <= k < |visited| ==> 0 <= visited[k] < |g.nodes| && MadeFrom(t.nodes[|s.nodes| + k], g.nodes[visited[k]]))
  }

  /** Two walks in a row under the same parent are one walk over both visiting orders. */
  lemma WalkAppendsConcat(g: Model, s: Loaded, t1: Loaded, t: Loaded, parent: NodeIndex, first: seq<int>, rest: seq<int>)
    requires WalkAppends(g, s, t1, parent, first) && WalkAppends(g, t1, t, parent, rest)
    ensures WalkAppends(g, s, t, parent, first + rest)
  {
    assert t.nodes[..|s.nodes|] == t.nodes[..|t1.nodes|][..|s.nodes|];
    forall j | |s.nodes| <= j < |t1.nodes|
      ensures t.nodes[j] == t1.nodes[j]
    {
      assert t.nodes[j] == t.nodes[..|t1.nodes|][j];
    }
    var all := first + rest;
    forall k | 0 <= k < |all|
      ensures 0 <= all[k] < |g.nodes| && MadeFrom(t.nodes[|s.nodes| + k], g.nodes[all[k]])
    {
      if k >= |first| {
        assert all[k] == rest[k - |first|];
        assert |s.nodes| + k == |t1.nodes| + (k - |first|);
      }
    }
  }

  /** A node added under `parent`, followed by a walk of its children under that node, is
      a walk whose later nodes all have parents among the new ones. */
  lemma WalkAppendsNode(g: Model, s: Loaded, s1: Loaded, t: Loaded, parent: NodeIndex, nodeId: int, rest: seq<int>)
    requires 0 <= nodeId < |g.nodes|
    requires s1.nodes == s.nodes + [PbrNode(g.nodes[nodeId].localTransform, parent, g.nodes[nodeId].name)]
    requires WalkAppends(g, s1, t, |s.nodes|, rest)
    ensures WalkAppends(g, s, t, parent, [nodeId] + rest)
    ensures t.nodes[|s.nodes|] == PbrNode(g.nodes[nodeId].localTransform, parent, g.nodes[nodeId].name)
    ensures forall j :: |s.nodes| < j < |t.nodes| ==> |s.nodes| <= t.nodes[j].parent < j
  {
    assert t.nodes[..|s.nodes|] == s1.nodes[..|s.nodes|];
    assert t.nodes[|s.nodes|] == s1.nodes[|s.nodes|];
    var all := [nodeId] + rest;
    forall k | 0 <= k < |all|
      ensures 0 <= all[k] < |g.nodes| && MadeFrom(t.nodes[|s.nodes| + k], g.nodes[all[k]])
    {
      if k > 0 {
        assert all[k] == rest[k - 1];
        assert |s.nodes| + k == |s1.nodes| + (k - 1);
      }
    }
  }

  /** A successful LoadNode appends exactly one PBR node per visited glTF node, in
      visiting order, keeps the existing nodes, parents the first new node to `parent`
      and every other new node to an earlier new node. */
  lemma {:induction false} LoadNodeAppendsNodes(g: Model, rank: seq<nat>, parent: NodeIndex, nodeId: int, s: Loaded)
    requires Loadable(g, rank) && LoadNodeSpec(g, rank, parent, nodeId, s).Ok?
    ensures 0 <= nodeId < |g.nodes|
    ensures WalkAppends(g, s, LoadNodeSpec(g, rank, parent, nodeId, s).value, parent, Preorder(g, rank, nodeId))
    ensures LoadNodeSpec(g, rank, parent, nodeId, s).value.nodes[|s.nodes|]
              == PbrNode(g.nodes[nodeId].localTransform, parent, g.nodes[nodeId].name)
    ensures forall j :: |s.nodes| < j < |LoadNodeSpec(g, rank, parent, nodeId, s).value.nodes| ==>
              |s.nodes| <= LoadNodeSpec(g, rank, parent, nodeId, s).value.nodes[j].parent < j
    decreases NodeRank(rank, nodeId), 1
  {
    var node := g.nodes[nodeId];
    var s1 := WithNode(g, parent, nodeId, s);
    var t := LoadNodeSpec(g, rank, parent, nodeId, s).value;
    assert LoadNodesSpec(g, rank, |s.nodes|, node.children, s1, NodeRank(rank, nodeId)) == Ok(t);
    LoadNodesAppendsNodes(g, rank, |s.nodes|, node.children, s1, NodeRank(rank, nodeId));
    WalkAppendsNode(g, s, s1, t, parent, nodeId, PreorderList(g, rank, node.children, NodeRank(rank, nodeId)));
  }

  /** A successful walk of a list of siblings appends their subtrees one after another. */
  lemma {:induction false} LoadNodesAppendsNodes(g: Model, rank: seq<nat>, parent: NodeIndex, ids: seq<int>, s: Loaded, bound: nat)
    requires Loadable(g, rank)
    requires forall k :: 0 <= k < |ids| ==> NodeRank(rank, ids[k]) < bound
    requires LoadNodesSpec(g, rank, parent, ids, s, bound).Ok?
    ensures WalkAppends(g, s, LoadNodesSpec(g, rank, parent, ids, s, bound).value, parent, PreorderList(g, rank, ids, bound))
    decreases bound, 0, |ids|
  {
    if ids == [] {
      assert s.nodes[..|s.nodes|] == s.nodes;
    } else {
      var t1 := LoadNodeSpec(g, rank, parent, ids[0], s).value;
      LoadNodeAppendsNodes(g, rank, parent, ids[0], s);
      var t := LoadNodesSpec(g, rank, parent, ids[1..], t1, bound).value;
      LoadNodesAppendsNodes(g, rank, parent, ids[1..], t1, bound);
      WalkAppendsConcat(g, s, t1, t, parent, Preorder(g, rank, ids[0]), PreorderList(g, rank, ids[1..], bound));
    }
  }

  /** A node without mesh and children only adds its PBR node. */
  lemma LoadLeafNode(g: Model, rank: seq<nat>, parent: NodeIndex, nodeId: int, s: Loaded)
    requires Loadable(g, rank) && 0 <= nodeId < |g.nodes|
    requires g.nodes[nodeId].mesh == -1 && g.nodes[nodeId].children == []
    ensures LoadNodeSpec(g, rank, parent, nodeId, s)
              == Ok(Loaded(s.nodes + [PbrNode(g.nodes[nodeId].localTransform, parent, g.nodes[nodeId].name)], s.builders))
  {
  }

  /** Every vertex stays stamped with a node that its builder lists, and every listed
      node is a node of the PBR model. */
  lemma {:induction false} LoadNodeTagged(g: Model, rank: seq<nat>, parent: NodeIndex, nodeId: int, s: Loaded)
    requires Loadable(g, rank) && Tagged(s) && LoadNodeSpec(g, rank, parent, nodeId, s).Ok?
    ensures Tagged(LoadNodeSpec(g, rank, parent, nodeId, s).value)
    decreases NodeRank(rank, nodeId), 1
  {
    var node := g.nodes[nodeId];
    var index := |s.nodes|;
    var s1 := WithNode(g, parent, nodeId, s);
    assert forall e :: e in s.builders ==> TaggedBuilder(e.builder, |s1.nodes|);
    if node.mesh != -1 {
      AppendMeshTagged(s.builders, g.meshes[node.mesh].primitives, index, |s1.nodes|);
    }
    LoadNodesTagged(g, rank, index, node.children, s1, NodeRank(rank, nodeId));
  }

  lemma {:induction false} LoadNodesTagged(g: Model, rank: seq<nat>, parent: NodeIndex, ids: seq<int>, s: Loaded, bound: nat)
    requires Loadable(g, rank) && Tagged(s)
    requires forall k :: 0 <= k < |ids| ==> NodeRank(rank, ids[k]) < bound
    requires LoadNodesSpec(g, rank, parent, ids, s, bound).Ok?
    ensures Tagged(LoadNodesSpec(g, rank, parent, ids, s, bound).value)
    decreases bound, 0, |ids|
  {
    if ids != [] {
      LoadNodeTagged(g, rank, parent, ids[0], s);
      LoadNodesTagged(g, rank, parent, ids[1..], LoadNodeSpec(g, rank, parent, ids[0], s).value, bound);
    }
  }

  /** The scene ModelBuilder loads: `defaultScene`, or scene 0 when it is -1. */
  function DefaultSceneId(g: Model): int {
    if g.defaultScene == -1 then 0 else g.defaultScene
  }

  /** SharedInit: a fresh PBR model holding the root node, then every root node of the
      default scene loaded under it. */
  function SharedInitSpec(g: Model, rank: seq<nat>, builders: seq<Entry>): Result<Loaded, LoaderError>
    requires Loadable(g, rank)
  {
    var sceneId := DefaultSceneId(g);
    if !(0 <= sceneId < |g.scenes|) then Err(SceneOutOfRange(sceneId))
    else LoadNodesSpec(g, rank, RootNodeIndex, g.scenes[sceneId].nodes, Loaded([RootNode], builders), RankBound(rank))
  }

  /** A model without a default scene loads exactly like the same model naming scene 0. */
  lemma DefaultSceneIsFirst(g: Model, rank: seq<nat>, builders: seq<Entry>)
    requires Loadable(g, rank) && g.defaultScene == -1
    ensures Loadable(g.(defaultScene := 0), rank)
    ensures SharedInitSpec(g, rank, builders) == SharedInitSpec(g.(defaultScene := 0), rank, builders)
  {
    var g0 := g.(defaultScene := 0);
    if 0 < |g.scenes| {
      LoadNodesSameTree(g, g0, rank, RootNodeIndex, g.scenes[0].nodes, Loaded([RootNode], builders), RankBound(rank));
    }
  }

  /** The walk only looks at the nodes and meshes of the model. */
  lemma {:induction false} LoadNodeSameTree(g1: Model, g2: Model, rank: seq<nat>, parent: NodeIndex, nodeId: int, s: Loaded)
    requires Loadable(g1, rank) && g1.nodes == g2.nodes && g1.meshes == g2.meshes
    ensures Loadable(g2, rank)
    ensures LoadNodeSpec(g1, rank, parent, nodeId, s) == LoadNodeSpec(g2, rank, parent, nodeId, s)
    decreases NodeRank(rank, nodeId), 1
  {
    if 0 <= nodeId < |g1.nodes| && HasValidMesh(g1, nodeId) {
      assert WithNode(g1, parent, nodeId, s) == WithNode(g2, parent, nodeId, s);
      LoadNodesSameTree(g1, g2, rank, |s.nodes|, g1.nodes[nodeId].children, WithNode(g1, parent, nodeId, s), NodeRank(rank, nodeId));
    }
  }

  lemma {:induction false} LoadNodesSameTree(g1: Model, g2: Model, rank: seq<nat>, parent: NodeIndex, ids: seq<int>, s: Loaded, bound: nat)
    requires Loadable(g1, rank) && g1.nodes == g2.nodes && g1.meshes == g2.meshes
    requires forall k :: 0 <= k < |ids| ==> NodeRank(rank, ids[k]) < bound
    ensures Loadable(g2, rank)
    ensures LoadNodesSpec(g1, rank, parent, ids, s, bound) == LoadNodesSpec(g2, rank, parent, ids, s, bound)
    decreases bound, 0, |ids|
  {
    if ids != [] {
      LoadNodeSameTree(g1, g2, rank, parent, ids[0], s);
      var first := LoadNodeSpec(g1, rank, parent, ids[0], s);
      if first.Ok? {
        LoadNodesSameTree(g1, g2, rank, parent, ids[1..], first.value, bound);
      }
    }
  }

  /** The loaded PBR model is a tree rooted at node 0 whose parents precede their
      children, with one node per glTF node reachable from the scene, and its builders
      only refer to its nodes. */
  lemma SharedInitTree(g: Model, rank: seq<nat>)
    requires Loadable(g, rank) && SharedInitSpec(g, rank, []).Ok?
    ensures |SharedInitSpec(g, rank, []).value.nodes| > 0 && SharedInitSpec(g, rank, []).value.nodes[0] == RootNode
    ensures |SharedInitSpec(g, rank, []).value.nodes|
              == 1 + |PreorderList(g, rank, g.scenes[DefaultSceneId(g)].nodes, RankBound(rank))|
    ensures forall j :: 1 <= j < |SharedInitSpec(g, rank, []).value.nodes| ==>
              SharedInitSpec(g, rank, []).value.nodes[j].parent < j
    ensures Tagged(SharedInitSpec(g, rank, []).value)
  {
    var roots := g.scenes[DefaultSceneId(g)].nodes;
    var s0 := Loaded([RootNode], []);
    LoadNodesAppendsNodes(g, rank, RootNodeIndex, roots, s0, RankBound(rank));
    LoadNodesTagged(g, rank, RootNodeIndex, roots, s0, RankBound(rank));
    var t := SharedInitSpec(g, rank, []).value;
    assert t.nodes[..1] == [RootNode];
    assert t.nodes[0] == t.nodes[..1][0];
  }

  // ---------------------------------------------------------------------------
  // Materials made by Build
  // ---------------------------------------------------------------------------

  /** A material index Build cannot look up. */
  predicate MissingMaterial(g: Model, key: int) {
    key != -1 && !(0 <= key < |g.materials|)
  }

  /** The material Build creates for a material index: flat grey with roughness 0.5 for
      -1, otherwise the glTF material's five textures with their colour spaces and
      fallbacks, its sidedness, blending for the Blend mode, and its parameters. */
  function MaterialFor(g: Model, key: int): PbrMaterial
    requires !MissingMaterial(g, key)
  {
    if key == -1 then FlatMaterial([0.5, 0.5, 0.5, 0.5], 0.5)
    else
      var m := g.materials[key];
      LoadedMaterial(key, m.name,
                     [TextureLoad(BaseColor, m.baseColor, true, White),
                      TextureLoad(MetallicRoughness, m.metallicRoughness, false, White),
                      TextureLoad(Emissive, m.emissive, true, White),
                      TextureLoad(Normal, m.normal, false, FlatNormal),
                      TextureLoad(Occlusion, m.occlusion, false, White)],
                     m.doubleSided, m.alphaMode == Blend,
                     Parameters(m.factors, if m.alphaMode == Mask then m.alphaCutoff else FloatLowest))
  }

  /** The material index a created material stands for. */
  function MaterialKey(m: PbrMaterial): int {
    match m
    case FlatMaterial(_, _) => -1
    case LoadedMaterial(index, _, _, _, _, _) => index
  }

  /** Each created material stands for its own index; a glTF material requests every
      slot exactly once, in sRGB exactly for base colour and emissive, with the flat
      normal as the normal map's fallback and white for the others. */
  lemma MaterialForSlots(g: Model, key: int)
    requires !MissingMaterial(g, key)
    ensures MaterialKey(MaterialFor(g, key)) == key
    ensures MaterialFor(g, key).LoadedMaterial? <==> key != -1
    ensures MaterialFor(g, key).LoadedMaterial? ==>
              var loads := MaterialFor(g, key).textures;
              && |loads| == 5
              && (set i | 0 <= i < 5 :: loads[i].slot) == {BaseColor, MetallicRoughness, Normal, Occlusion, Emissive}
              && (forall i, j :: 0 <= i < j < 5 ==> loads[i].slot != loads[j].slot)
              && (forall i :: 0 <= i < 5 ==> (loads[i].sRGB <==> loads[i].slot in {BaseColor, Emissive}))
              && (forall i :: 0 <= i < 5 ==> (loads[i].fallback == FlatNormal <==> loads[i].slot == Normal))
  {
    if key != -1 {
      var loads := MaterialFor(g, key).textures;
      var slots := set i | 0 <= i < 5 :: loads[i].slot;
      assert loads[0].slot == BaseColor && loads[1].slot == MetallicRoughness && loads[2].slot == Emissive;
      assert loads[3].slot == Normal && loads[4].slot == Occlusion;
      assert slots == {BaseColor, MetallicRoughness, Normal, Occlusion, Emissive} by {
        forall x | x in slots ensures x in {BaseColor, MetallicRoughness, Normal, Occlusion, Emissive} {
          var i :| 0 <= i < 5 && loads[i].slot == x;
        }
        assert loads[0].slot in slots && loads[1].slot in slots && loads[2].slot in slots;
        assert loads[3].slot in slots && loads[4].slot in slots;
      }
    }
  }

  /** A glTF material keeps its name and sidedness, is alpha blended exactly in the Blend
      mode, and has its six factors copied; the alpha cutoff is the material's own exactly
      in the Mask mode, and otherwise the lowest float, so no fragment is cut off. */
  lemma MaterialForParameters(g: Model, key: int)
    requires 0 <= key < |g.materials|
    ensures var p := MaterialFor(g, key); var m := g.materials[key];
            && p.LoadedMaterial? && p.name == m.name && p.doubleSided == m.doubleSided
            && (p.alphaBlended <==> m.alphaMode == Blend)
            && p.parameters.factors == m.factors
            && (m.alphaMode == Mask ==> p.parameters.alphaCutoff == m.alphaCutoff)
            && (m.alphaMode != Mask ==> p.parameters.alphaCutoff == FloatLowest)
  {
  }

  /** Opaque and Mask materials are both drawn unblended and differ only in the cutoff:
      a Mask material whose cutoff is above the lowest float is told apart from the same
      material marked Opaque. */
  lemma MaskDiffersFromOpaque(g: Model, key: int, cutoff: real)
    requires 0 <= key < |g.materials| && g.materials[key].alphaMode == Mask && cutoff > FloatLowest
    requires g.materials[key].alphaCutoff == cutoff
    ensures var asOpaque := g.(materials := g.materials[key := g.materials[key].(alphaMode := Opaque)]);
            && !MaterialFor(g, key).alphaBlended && !MaterialFor(asOpaque, key).alphaBlended
            && MaterialFor(g, key).parameters.alphaCutoff == cutoff
            && MaterialFor(g, key) != MaterialFor(asOpaque, key)
  {
  }

  /** The set of material indices of a list of primitives. */
  function PrimitiveKeys(ps: seq<PbrPrimitive>): set<int> {
    set i | 0 <= i < |ps| :: MaterialKey(ps[i].material)
  }

  /** Primitives in strictly increasing material order (std::map order). */
  predicate KeyOrdered(ps: seq<PbrPrimitive>) {
    forall i, j :: 0 <= i < j < |ps| ==> MaterialKey(ps[i].material) < MaterialKey(ps[j].material)
  }

  // ---------------------------------------------------------------------------
  // Gltf::ModelBuilder
  // ---------------------------------------------------------------------------

  /** The vertex loop of LoadNode: the vertices are resized to `start` plus the new
      ones, which are written in order with the node's transform index. */
  method AppendVertices(existing: seq<PbrVertex>, start: u32, source: seq<Vertex>, node: NodeIndex)
    returns (vertices: seq<PbrVertex>)
    requires start <= |existing|
    ensures vertices == existing[..start] + seq(|source|, i requires 0 <= i < |source| => ToPbrVertex(source[i], node))
  {
    vertices := Resize(existing, start + |source|, DefaultVertex);
    var i := 0;
    while i < |source|
      invariant 0 <= i <= |source|
      invariant |vertices| == start + |source|
      invariant vertices[..start] == existing[..start]
      invariant forall k :: 0 <= k < i ==> vertices[start + k] == ToPbrVertex(source[k], node)
    {
      vertices := vertices[i + start := ToPbrVertex(source[i], node)];
      i := i + 1;
    }
    assert vertices == vertices[..start] + vertices[start..];
  }

  /** The index loop of LoadNode: the indices are resized to `startIndex` plus the new
      ones, which are written a triangle at a time with the winding reversed and the
      vertex offset added. */
  method AppendIndices(existing: seq<u32>, startIndex: u32, source: seq<u32>, startVertex: u32) returns (indices: seq<u32>)
    requires |source| % 3 == 0 && startIndex <= |existing|
    ensures indices == existing[..startIndex] + ReversedWinding(source, startVertex)
  {
    indices := Resize(existing, startIndex + |source|, 0);
    var i := 0;
    while i < |source|
      invariant 0 <= i <= |source| && i % 3 == 0
      invariant |indices| == startIndex + |source|
      invariant indices[..startIndex] == existing[..startIndex]
      invariant forall k :: 0 <= k < i ==> indices[startIndex + k] == Wrap32(startVertex + source[Corner(k)])
    {
      indices := indices[startIndex + i + 0 := Wrap32(startVertex + source[i + 0])];
      indices := indices[startIndex + i + 1 := Wrap32(startVertex + source[i + 2])];
      indices := indices[startIndex + i + 2 := Wrap32(startVertex + source[i + 1])];
      i := i + 3;
    }
    assert indices == indices[..startIndex] + indices[startIndex..];
  }

  class ModelBuilder {
    var gltfModel: Option<Model>
    var pbrModel: Option<PbrModel>
    var primitiveBuilderMap: seq<Entry>

    /** The state the node walk works on. */
    function Current(): Loaded
      reads this
      requires pbrModel.Some?
    {
      Loaded(pbrModel.value.nodes, primitiveBuilderMap)
    }

    /** The object as the constructor leaves it, before SharedInit. */
    constructor (g: Model)
      ensures gltfModel == Some(g) && pbrModel == None && primitiveBuilderMap == []
    {
      gltfModel := Some(g);
      pbrModel := None;
      primitiveBuilderMap := [];
    }

    /** Pbr::Model::AddNode: the new node goes at the end and its position is returned. */
    method AddNode(localTransform: seq<real>, parent: NodeIndex, name: string) returns (index: NodeIndex)
      requires pbrModel.Some?
      modifies this
      ensures index == |old(pbrModel.value.nodes)|
      ensures pbrModel == Some(PbrModel(old(pbrModel.value.nodes) + [PbrNode(localTransform, parent, name)], old(pbrModel.value.primitives)))
      ensures gltfModel == old(gltfModel) && primitiveBuilderMap == old(primitiveBuilderMap)
    {
      index := |pbrModel.value.nodes|;
      pbrModel := Some(PbrModel(pbrModel.value.nodes + [PbrNode(localTransform, parent, name)], pbrModel.value.primitives));
    }

    /** The body of the primitive loop of LoadNode: grow the material's builder by the
        primitive's vertices and by its indices with reversed winding. */
    method AppendPrimitive(material: int, p: Primitive, node: NodeIndex)
      requires |p.indices| % 3 == 0 && Ordered(primitiveBuilderMap)
      modifies this
      ensures primitiveBuilderMap
                == Put(old(primitiveBuilderMap), material, Appended(BuilderFor(old(primitiveBuilderMap), material), p, node))
      ensures Ordered(primitiveBuilderMap)
      ensures gltfModel == old(gltfModel) && pbrModel == old(pbrModel)
    {
      var builder := BuilderFor(primitiveBuilderMap, material);
      var startVertex: u32 := Wrap32(|builder.vertices|);
      var startIndex: u32 := Wrap32(|builder.indices|);

      var vertices := AppendVertices(builder.vertices, startVertex, p.vertices, node);
      var indices := AppendIndices(builder.indices, startIndex, p.indices, startVertex);
      var appended := PrimitiveBuilder(vertices, indices, builder.nodeIndices + {node});
      assert appended == Appended(builder, p, node);
      PutOrdered(primitiveBuilderMap, material, appended);
      primitiveBuilderMap := Put(primitiveBuilderMap, material, appended);
    }

    /** LoadNode of the source; `e` is the exception it throws, if any. */
    method LoadNode(parent: NodeIndex, g: Model, ghost rank: seq<nat>, nodeId: int) returns (e: Option<LoaderError>)
      requires Loadable(g, rank) && pbrModel.Some? && Ordered(primitiveBuilderMap)
      modifies this
      ensures pbrModel.Some? && pbrModel.value.primitives == old(pbrModel.value.primitives) && gltfModel == old(gltfModel)
      ensures Ordered(primitiveBuilderMap)
      ensures Outcome(LoadNodeSpec(g, rank, parent, nodeId, old(Current())), e, Current())
      decreases NodeRank(rank, nodeId), 1
    {
      if !(0 <= nodeId < |g.nodes|) {
        return Some(NodeOutOfRange(nodeId));
      }
      var node := g.nodes[nodeId];
      var transformIndex := AddNode(node.localTransform, parent, node.name);
      if node.mesh != -1 {
        if !(0 <= node.mesh < |g.meshes|) {
          return Some(MeshOutOfRange(node.mesh));
        }
        AppendMeshPrimitives(g.meshes[node.mesh].primitives, transformIndex);
      }
      assert Current() == WithNode(g, parent, nodeId, old(Current()));
      e := LoadNodes(transformIndex, g, rank, node.children, NodeRank(rank, nodeId));
    }

    /** The primitive loop of LoadNode: every primitive of the mesh goes to the builder
        of its material. */
    method AppendMeshPrimitives(prims: seq<GltfPrimitive>, node: NodeIndex)
      requires forall k :: 0 <= k < |prims| ==> |prims[k].data.indices| % 3 == 0
      requires Ordered(primitiveBuilderMap)
      modifies this
      ensures primitiveBuilderMap == AppendMesh(old(primitiveBuilderMap), prims, node)
      ensures Ordered(primitiveBuilderMap)
      ensures gltfModel == old(gltfModel) && pbrModel == old(pbrModel)
    {
      var i := 0;
      while i < |prims|
        invariant 0 <= i <= |prims|
        invariant gltfModel == old(gltfModel) && pbrModel == old(pbrModel)
        invariant Ordered(primitiveBuilderMap)
        invariant primitiveBuilderMap == AppendMesh(old(primitiveBuilderMap), prims[..i], node)
      {
        assert prims[..i + 1][..i] == prims[..i];
        AppendPrimitive(prims[i].material, prims[i].data, node);
        i := i + 1;
      }
      assert prims[..|prims|] == prims;
    }

    /** The child loop of LoadNode and the root loop of SharedInit. */
    method LoadNodes(parent: NodeIndex, g: Model, ghost rank: seq<nat>, ids: seq<int>, ghost bound: nat) returns (e: Option<LoaderError>)
      requires Loadable(g, rank) && pbrModel.Some? && Ordered(primitiveBuilderMap)
      requires forall k :: 0 <= k < |ids| ==> NodeRank(rank, ids[k]) < bound
      modifies this
      ensures pbrModel.Some? && pbrModel.value.primitives == old(pbrModel.value.primitives) && gltfModel == old(gltfModel)
      ensures Ordered(primitiveBuilderMap)
      ensures Outcome(LoadNodesSpec(g, rank, parent, ids, old(Current()), bound), e, Current())
      decreases bound, 0
    {
      var k := 0;
      while k < |ids|
        invariant 0 <= k <= |ids|
        invariant pbrModel.Some? && pbrModel.value.primitives == old(pbrModel.value.primitives) && gltfModel == old(gltfModel)
        invariant Ordered(primitiveBuilderMap)
        invariant LoadNodesSpec(g, rank, parent, ids, old(Current()), bound)
                    == LoadNodesSpec(g, rank, parent, ids[k..], Current(), bound)
      {
        assert ids[k..][0] == ids[k] && ids[k..][1..] == ids[k + 1..];
        e := LoadNode(parent, g, rank, ids[k]);
        if e.Some? {
          return;
        }
        k := k + 1;
      }
      e := None;
    }

    /** SharedInit of the source. */
    method SharedInit(ghost rank: seq<nat>) returns (e: Option<LoaderError>)
      requires gltfModel.Some? && Loadable(gltfModel.value, rank) && Ordered(primitiveBuilderMap)
      modifies this
      ensures pbrModel.Some? && pbrModel.value.primitives == [] && gltfModel == old(gltfModel)
      ensures Ordered(primitiveBuilderMap)
      ensures Outcome(SharedInitSpec(gltfModel.value, rank, old(primitiveBuilderMap)), e, Current())
    {
      pbrModel := Some(PbrModel([RootNode], []));
      var g := gltfModel.value;
      var sceneId := if g.defaultScene == -1 then 0 else g.defaultScene;
      if !(0 <= sceneId < |g.scenes|) {
        return Some(SceneOutOfRange(sceneId));
      }
      e := LoadNodes(RootNodeIndex, g, rank, g.scenes[sceneId].nodes, RankBound(rank));
    }

    /** ModelBuilder::Build: one PBR primitive per builder, in material order, each with
        the material made for its index; the builder can be used once. */
    method Build() returns (r: Result<PbrModel, LoaderError>)
      requires (gltfModel.Some? <==> pbrModel.Some?) && Ordered(primitiveBuilderMap)
      modifies this
      ensures old(pbrModel).None? ==> r == Err(NoModel)
      ensures r.Err? ==> unchanged(this)
      ensures old(pbrModel).Some? ==>
                (r.Err? <==> exists e :: e in old(primitiveBuilderMap) && MissingMaterial(old(gltfModel).value, e.material))
      ensures r.Err? && old(pbrModel).Some? ==>
                r.error.MaterialOutOfRange? && r.error.materialId in Keys(old(primitiveBuilderMap))
                && MissingMaterial(old(gltfModel).value, r.error.materialId)
                && FirstMissing(old(gltfModel).value, old(primitiveBuilderMap), r.error.materialId)
      ensures r.Ok? ==> r.value.nodes == old(pbrModel).value.nodes
      ensures r.Ok? ==> |r.value.primitives| == |old(pbrModel).value.primitives| + |old(primitiveBuilderMap)|
                        && r.value.primitives[..|old(pbrModel).value.primitives|] == old(pbrModel).value.primitives
      ensures r.Ok? && |r.value.primitives| >= |old(pbrModel).value.primitives| ==>
                var added := r.value.primitives[|old(pbrModel).value.primitives|..];
                && KeyOrdered(added)
                && PrimitiveKeys(added) == Keys(old(primitiveBuilderMap))
                && forall i :: 0 <= i < |added| && i < |old(primitiveBuilderMap)| ==>
                     var e := old(primitiveBuilderMap)[i];
                     && !MissingMaterial(old(gltfModel).value, e.material)
                     && added[i] == PbrPrimitive(e.builder, MaterialFor(old(gltfModel).value, e.material))
      ensures r.Ok? ==> gltfModel == None && pbrModel == None && primitiveBuilderMap == []
    {
      if pbrModel.None? {
        return Err(NoModel);
      }
      var g := gltfModel.value;
      var model := pbrModel.value;

      var created := CreateMaterials(g, primitiveBuilderMap);
      if created.Err? {
        return Err(created.error);
      }
      var added := MakePrimitives(primitiveBuilderMap, created.value);
      BuiltInKeyOrder(g, primitiveBuilderMap, added);
      var primitives := model.primitives + added;
      assert primitives[|model.primitives|..] == added;
      assert primitives[..|model.primitives|] == model.primitives;

      // gltfBuilder.DropLoaderCaches() belongs to the builder and is not modelled here.
      gltfModel := None;
      primitiveBuilderMap := [];
      pbrModel := None;
      r := Ok(PbrModel(model.nodes, primitives));
    }
  }

  /** No key of the map below `key` lacks a material. */
  predicate FirstMissing(g: Model, builders: seq<Entry>, key: int) {
    forall e :: e in builders && e.material < key ==> !MissingMaterial(g, e.material)
  }

  /** The material loop of Build: one material per builder, created in key order; the
      first index without a glTF material throws. */
  method CreateMaterials(g: Model, builders: seq<Entry>) returns (r: Result<map<int, PbrMaterial>, LoaderError>)
    requires Ordered(builders)
    ensures r.Ok? <==> forall e :: e in builders ==> !MissingMaterial(g, e.material)
    ensures r.Ok? ==> r.value.Keys == Keys(builders)
    ensures r.Ok? ==> forall m :: m in Keys(builders) ==> !MissingMaterial(g, m) && r.value[m] == MaterialFor(g, m)
    ensures r.Err? ==> r.error.MaterialOutOfRange? && r.error.materialId in Keys(builders) && MissingMaterial(g, r.error.materialId)
    ensures r.Err? ==> FirstMissing(g, builders, r.error.materialId)
  {
    var materialMap: map<int, PbrMaterial> := map[];
    for i := 0 to |builders|
      invariant materialMap.Keys == Keys(builders[..i])
      invariant forall m :: m in materialMap ==> !MissingMaterial(g, m) && materialMap[m] == MaterialFor(g, m)
    {
      var key := builders[i].material;
      assert builders[..i + 1] == builders[..i] + [builders[i]];
      if MissingMaterial(g, key) {
        forall e | e in builders && e.material < key
          ensures !MissingMaterial(g, e.material)
        {
          var j :| 0 <= j < |builders| && builders[j] == e;
          assert j < i && builders[..i][j] == e;
        }
        return Err(MaterialOutOfRange(key));
      }
      materialMap := materialMap[key := MaterialFor(g, key)];
    }
    assert builders[..|builders|] == builders;
    return Ok(materialMap);
  }

  /** The primitive loop of Build: one primitive per builder, in map order, with the
      material created for its key. */
  method MakePrimitives(builders: seq<Entry>, materials: map<int, PbrMaterial>) returns (prims: seq<PbrPrimitive>)
    requires Keys(builders) <= materials.Keys
    ensures |prims| == |builders|
    ensures forall i :: 0 <= i < |prims| ==> prims[i] == PbrPrimitive(builders[i].builder, materials[builders[i].material])
  {
    prims := [];
    for i := 0 to |builders|
      invariant |prims| == i
      invariant forall k :: 0 <= k < i ==> prims[k] == PbrPrimitive(builders[k].builder, materials[builders[k].material])
    {
      prims := prims + [PbrPrimitive(builders[i].builder, materials[builders[i].material])];
    }
  }

  /** Primitives made from an ordered map, each with the material created for its key,
      come in increasing material order and cover exactly the map's keys. */
  lemma BuiltInKeyOrder(g: Model, builders: seq<Entry>, prims: seq<PbrPrimitive>)
    requires Ordered(builders) && |prims| == |builders|
    requires forall i :: 0 <= i < |prims| ==>
               !MissingMaterial(g, builders[i].material) && prims[i] == PbrPrimitive(builders[i].builder, MaterialFor(g, builders[i].material))
    ensures KeyOrdered(prims)
    ensures PrimitiveKeys(prims) == Keys(builders)
  {
    forall i | 0 <= i < |prims|
      ensures MaterialKey(prims[i].material) == builders[i].material
    {
      MaterialForSlots(g, builders[i].material);
    }
    assert PrimitiveKeys(prims) == Keys(builders) by {
      forall m | m in Keys(builders) ensures m in PrimitiveKeys(prims) {
        var e :| e in builders && e.material == m;
        var i :| 0 <= i < |builders| && builders[i] == e;
        assert MaterialKey(prims[i].material) == m;
      }
    }
  }

  /** The outcome of a walk: success with the specified state, or the specified exception. */
  predicate Outcome(spec: Result<Loaded, LoaderError>, e: Option<LoaderError>, now: Loaded) {
    match spec
    case Ok(t) => e == None && now == t
    case Err(x) => e == Some(x)
  }

  /** The constructor taking a parsed glTF model (it runs SharedInit). */
  method FromModel(g: Model, ghost rank: seq<nat>) returns (r: Result<ModelBuilder, LoaderError>)
    requires Loadable(g, rank)
    ensures SharedInitSpec(g, rank, []).Err? ==> r == Err(SharedInitSpec(g, rank, []).error)
    ensures SharedInitSpec(g, rank, []).Ok? ==>
              r.Ok? && fresh(r.value) && r.value.gltfModel == Some(g)
              && r.value.pbrModel == Some(PbrModel(SharedInitSpec(g, rank, []).value.nodes, []))
              && r.value.primitiveBuilderMap == SharedInitSpec(g, rank, []).value.builders
              && Ordered(r.value.primitiveBuilderMap)
  {
    var builder := new ModelBuilder(g);
    var e := builder.SharedInit(rank);
    if e.Some? {
      return Err(e.value);
    }
    return Ok(builder);
  }

  /** The constructor taking a GLB buffer; `parsed` is what tinygltf made of it, and a
      parse failure is thrown as a runtime error. */
  method FromGlb(parsed: Result<Model, string>, ghost rank: seq<nat>) returns (r: Result<ModelBuilder, LoaderError>)
    requires parsed.Ok? ==> Loadable(parsed.value, rank)
    ensures parsed.Err? ==> r == Err(ParseFailed(parsed.error))
    ensures parsed.Ok? && SharedInitSpec(parsed.value, rank, []).Err? ==> r == Err(SharedInitSpec(parsed.value, rank, []).error)
    ensures parsed.Ok? && SharedInitSpec(parsed.value, rank, []).Ok? ==>
              r.Ok? && fresh(r.value) && r.value.gltfModel == Some(parsed.value)
              && r.value.pbrModel == Some(PbrModel(SharedInitSpec(parsed.value, rank, []).value.nodes, []))
              && r.value.primitiveBuilderMap == SharedInitSpec(parsed.value, rank, []).value.builders
              && Ordered(r.value.primitiveBuilderMap)
  {
    if parsed.Err? {
      return Err(ParseFailed(parsed.error));
    }
    r := FromModel(parsed.value, rank);
  }
}
