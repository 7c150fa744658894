/** The glTF loader: the parsed glTF 2.0 model as values, the material list
    taken from the metallic-roughness factors, the per-buffer upload, and the
    vertex input layout built for each mesh primitive from its attribute names
    and accessors. */
module GltfLoader {
  import opened Wrappers
  import opened Vk

  // ---------------------------------------------------------------------------
  // The parsed model (tinygltf's Model, reduced to what the loader reads)
  // ---------------------------------------------------------------------------

  // Accessor component types, section 3.6.2 of the glTF 2.0 specification.
  const ComponentByte: int := 5120
  const ComponentUnsignedByte: int := 5121
  const ComponentShort: int := 5122
  const ComponentUnsignedShort: int := 5123
  const ComponentInt: int := 5124
  const ComponentUnsignedInt: int := 5125
  const ComponentFloat: int := 5126
  const ComponentDouble: int := 5130

  // Accessor element types as tinygltf encodes them.
  const TypeVec2: int := 2
  const TypeVec3: int := 3
  const TypeVec4: int := 4
  const TypeMat2: int := 34
  const TypeMat3: int := 35
  const TypeMat4: int := 36
  const TypeScalar: int := 65
  const TypeVector: int := 68
  const TypeMatrix: int := 80

  datatype Accessor = Accessor(bufferView: int, byteOffset: nat, componentType: int, accType: int)
  datatype BufferView = BufferView(buffer: int, byteStride: nat)
  /** A mesh primitive; `attributes` lists the name-to-accessor map in its
      iteration order, and `indices` is -1 when the primitive is not indexed. */
  datatype Primitive = Primitive(attributes: seq<(string, int)>, indices: int, mode: int)
  datatype Mesh = Mesh(primitives: seq<Primitive>)
  datatype TextureInfo = TextureInfo(index: int, texCoord: nat)
  datatype PbrMetallicRoughness = PbrMetallicRoughness(
    baseColorFactor: seq<real>,
    metallicFactor: real,
    roughnessFactor: real,
    baseColorTexture: TextureInfo)
  datatype GltfMaterial = GltfMaterial(pbrMetallicRoughness: PbrMetallicRoughness)
  datatype Texture = Texture(source: int)
  datatype Image = Image(uri: string, image: seq<bv8>)
  datatype GltfBuffer = GltfBuffer(data: seq<bv8>)
  datatype Model = Model(
    accessors: seq<Accessor>,
    bufferViews: seq<BufferView>,
    buffers: seq<GltfBuffer>,
    meshes: seq<Mesh>,
    materials: seq<GltfMaterial>,
    textures: seq<Texture>,
    images: seq<Image>)

  const EmptyModel := Model([], [], [], [], [], [], [])

  /** Accessor `a` and its buffer view exist. */
  predicate AccessorOk(m: Model, a: int)
  {
    0 <= a < |m.accessors| && 0 <= m.accessors[a].bufferView < |m.bufferViews|
  }

  /** Every accessor a primitive names exists, as `create_primitive` indexes
      them unchecked. */
  predicate PrimitiveOk(m: Model, p: Primitive)
  {
    (forall k :: 0 <= k < |p.attributes| ==> AccessorOk(m, p.attributes[k].1))
    && (p.indices >= 0 ==> p.indices < |m.accessors|)
  }

  /** A material has four base-colour factors, and a texture index other than
      -1 names a texture whose image exists. */
  predicate MaterialOk(m: Model, mat: GltfMaterial)
  {
    var pbr := mat.pbrMetallicRoughness;
    |pbr.baseColorFactor| >= 4
    && (pbr.baseColorTexture.index != -1 ==>
          0 <= pbr.baseColorTexture.index < |m.textures|
          && 0 <= m.textures[pbr.baseColorTexture.index].source < |m.images|)
  }

  /** Every primitive of every mesh is well formed. */
  predicate MeshesOk(m: Model, meshes: seq<Mesh>)
  {
    forall i, j :: 0 <= i < |meshes| && 0 <= j < |meshes[i].primitives| ==> PrimitiveOk(m, meshes[i].primitives[j])
  }

  /** What `load_file` indexes without a check holds for the whole model. */
  predicate ModelOk(m: Model)
  {
    MeshesOk(m, m.meshes) && forall i :: 0 <= i < |m.materials| ==> MaterialOk(m, m.materials[i])
  }

  // ---------------------------------------------------------------------------
  // Formats and strides
  // ---------------------------------------------------------------------------

  /** Bytes per component (tinygltf's GetComponentSizeInBytes); -1 for an
      unknown component type. */
  function ComponentSize(componentType: int): int
  {
    if componentType == ComponentByte || componentType == ComponentUnsignedByte then 1
    else if componentType == ComponentShort || componentType == ComponentUnsignedShort then 2
    else if componentType == ComponentInt || componentType == ComponentUnsignedInt || componentType == ComponentFloat then 4
    else if componentType == ComponentDouble then 8
    else -1
  }

  /** Components per element (tinygltf's GetNumComponentsInType); -1 for an
      unknown type. */
  function ComponentCount(accType: int): int
  {
    if accType == TypeScalar then 1
    else if accType == TypeVec2 then 2
    else if accType == TypeVec3 then 3
    else if accType == TypeVec4 || accType == TypeMat2 || accType == TypeVector then 4
    else if accType == TypeMat3 then 9
    else if accType == TypeMat4 || accType == TypeMatrix then 16
    else -1
  }

  /** tinygltf's Accessor::ByteStride: the view's stride when it is set and a
      multiple of the component size, the packed element size when it is not
      set, and -1 when neither can be given. */
  function ByteStride(acc: Accessor, view: BufferView): (r: int)
    ensures r == -1 || r > 0
    ensures r != -1 ==> r % ComponentSize(acc.componentType) == 0
    ensures r != -1 && view.byteStride != 0 ==> r == view.byteStride
    ensures r != -1 && view.byteStride == 0 ==> r == ComponentSize(acc.componentType) * ComponentCount(acc.accType)
    ensures r == -1 <==>
      || ComponentSize(acc.componentType) <= 0
      || (view.byteStride == 0 && ComponentCount(acc.accType) <= 0)
      || (view.byteStride != 0 && view.byteStride % ComponentSize(acc.componentType) != 0)
  {
    var size := ComponentSize(acc.componentType);
    if size <= 0 then -1
    else if view.byteStride == 0 then
      (var count := ComponentCount(acc.accType); if count <= 0 then -1 else size * count)
    else if view.byteStride % size != 0 then -1
    else view.byteStride
  }

  /** Channels of the vertex formats the loader produces; 0 for any other. */
  function FormatChannels(format: int): nat
  {
    if format in {FormatR32G32Sint, FormatR32G32Sfloat, FormatR16G16Sint} then 2
    else if format in {FormatR32G32B32Sint, FormatR32G32B32Sfloat, FormatR16G16B16Sint} then 3
    else if format in {FormatR32G32B32A32Sint, FormatR32G32B32A32Sfloat, FormatR16G16B16A16Sint} then 4
    else 0
  }

  /** Bits per channel of the vertex formats the loader produces. */
  function FormatChannelBits(format: int): nat
  {
    if format in {FormatR16G16Sint, FormatR16G16B16Sint, FormatR16G16B16A16Sint} then 16
    else if FormatChannels(format) > 0 then 32
    else 0
  }

  /** The vertex formats with floating-point channels. */
  predicate FormatIsFloat(format: int)
  {
    format in {FormatR32G32Sfloat, FormatR32G32B32Sfloat, FormatR32G32B32A32Sfloat}
  }

  /** `attr_format`: the vertex format of an accessor, for FLOAT, INT and
      SHORT components in VEC2, VEC3 or VEC4 elements. Every other
      combination leaves the function without a return value; that is `None`
      here. A format found has one channel per component, channels as wide
      as the component, and float channels exactly for FLOAT components. */
  function AttrFormat(componentType: int, accType: int): (r: Option<int>)
    ensures r.Some? <==>
      componentType in {ComponentFloat, ComponentInt, ComponentShort} && accType in {TypeVec2, TypeVec3, TypeVec4}
    ensures r.Some? ==>
      && FormatChannels(r.value) == ComponentCount(accType)
      && FormatChannelBits(r.value) == 8 * ComponentSize(componentType)
      && (FormatIsFloat(r.value) <==> componentType == ComponentFloat)
  {
    if componentType == ComponentFloat then
      if accType == TypeVec2 then Some(FormatR32G32Sfloat)
      else if accType == TypeVec3 then Some(FormatR32G32B32Sfloat)
      else if accType == TypeVec4 then Some(FormatR32G32B32A32Sfloat)
      else None
    else if componentType == ComponentInt then
      if accType == TypeVec2 then Some(FormatR32G32Sint)
      else if accType == TypeVec3 then Some(FormatR32G32B32Sint)
      else if accType == TypeVec4 then Some(FormatR32G32B32A32Sint)
      else None
    else if componentType == ComponentShort then
      if accType == TypeVec2 then Some(FormatR16G16Sint)
      else if accType == TypeVec3 then Some(FormatR16G16B16Sint)
      else if accType == TypeVec4 then Some(FormatR16G16B16A16Sint)
      else None
    else None
  }

  // ---------------------------------------------------------------------------
  // Attribute names
  // ---------------------------------------------------------------------------

  /** std::string::compare as libstdc++ evaluates it with glibc's memcmp: the
      difference of the first differing characters, or else of the lengths. */
  function StdCompare(a: string, b: string): int
    decreases |a|
  {
    if |a| == 0 || |b| == 0 then |a| - |b|
    else if a[0] != b[0] then a[0] as int - b[0] as int
    else StdCompare(a[1..], b[1..])
  }

  /** `compare` is zero exactly on equal strings. */
  lemma {:induction false} StdCompareZero(a: string, b: string)
    ensures StdCompare(a, b) == 0 <==> a == b
    decreases |a|
  {
    if |a| == 0 || |b| == 0 {
    } else if a[0] != b[0] {
    } else {
      StdCompareZero(a[1..], b[1..]);
      assert a == [a[0]] + a[1..] && b == [b[0]] + b[1..];
    }
  }

  /** Swapping the operands negates `compare`. */
  lemma {:induction false} StdCompareAntisymmetric(a: string, b: string)
    ensures StdCompare(b, a) == -StdCompare(a, b)
    decreases |a|
  {
    if |a| == 0 || |b| == 0 {
    } else if a[0] != b[0] {
    } else {
      StdCompareAntisymmetric(a[1..], b[1..]);
    }
  }

  /** The location `create_primitive` gives an attribute name, as written:
      the fourth test asks for `compare(...) == 1` rather than `== 0`. */
  function AttributeSlotAsWritten(name: string): (r: Option<nat>)
    ensures r.Some? ==> r.value < 4
    ensures r == Some(3) ==> name != "TEXCOORD_1"
  {
    StdCompareZero(name, "TEXCOORD_1");
    if StdCompare(name, "POSITION") == 0 then Some(0)
    else if StdCompare(name, "NORMAL") == 0 then Some(1)
    else if StdCompare(name, "TEXCOORD_0") == 0 then Some(2)
    else if StdCompare(name, "TEXCOORD_1") == 1 then Some(3)
    else None
  }

  /** Counterexample: as written, TEXCOORD_1 itself gets no location, while
      TEXCOORD_2 and TEXCOORD_10, which compare one above it, get location 3. */
  lemma AttributeSlotAsWrittenMissesTexcoord1()
    ensures AttributeSlotAsWritten("TEXCOORD_1") == None
    ensures AttributeSlotAsWritten("TEXCOORD_2") == Some(3)
    ensures AttributeSlotAsWritten("TEXCOORD_10") == Some(3)
  {
    StdCompareZero("TEXCOORD_1", "POSITION");
    StdCompareZero("TEXCOORD_1", "NORMAL");
    StdCompareZero("TEXCOORD_1", "TEXCOORD_0");
    StdCompareZero("TEXCOORD_1", "TEXCOORD_1");
    StdCompareZero("TEXCOORD_2", "POSITION");
    StdCompareZero("TEXCOORD_2", "NORMAL");
    StdCompareZero("TEXCOORD_2", "TEXCOORD_0");
    StdCompareZero("TEXCOORD_10", "POSITION");
    StdCompareZero("TEXCOORD_10", "NORMAL");
    StdCompareZero("TEXCOORD_10", "TEXCOORD_0");
  }

  /** The location and binding of an attribute name: POSITION 0, NORMAL 1,
      TEXCOORD_0 2, TEXCOORD_1 3; every other name is skipped. */
  function AttributeSlot(name: string): (r: Option<nat>)
    ensures r.Some? <==> name in {"POSITION", "NORMAL", "TEXCOORD_0", "TEXCOORD_1"}
    ensures r.Some? ==> r.value < 4
  {
    if name == "POSITION" then Some(0)
    else if name == "NORMAL" then Some(1)
    else if name == "TEXCOORD_0" then Some(2)
    else if name == "TEXCOORD_1" then Some(3)
    else None
  }

  /** Different names never share a location. */
  lemma AttributeSlotInjective(a: string, b: string)
    requires a != b && AttributeSlot(a).Some?
    ensures AttributeSlot(a) != AttributeSlot(b)
  {
  }

  /** The corrected slots agree with the written ones on the first three
      names, and differ only on TEXCOORD_1. */
  lemma AttributeSlotAgreesAsWritten(name: string)
    ensures AttributeSlot(name).Some? && AttributeSlot(name).value < 3 ==>
      AttributeSlotAsWritten(name) == AttributeSlot(name)
  {
    StdCompareZero(name, "POSITION");
    StdCompareZero(name, "NORMAL");
    StdCompareZero(name, "TEXCOORD_0");
  }

  // ---------------------------------------------------------------------------
  // Vertex input layout of a primitive
  // ---------------------------------------------------------------------------

  /** A 32-bit field assigned an int or size_t value. */
  function ToU32(x: int): (r: nat)
    ensures r < U32Modulus && (0 <= x < U32Modulus ==> r == x)
  {
    x % U32Modulus
  }

  /** What one accepted attribute contributes: its binding description, its
      attribute description and the index of the glTF buffer it reads. */
  datatype VertexInput = VertexInput(bind: VertexBinding, attr: VertexAttribute, buffer: nat)

  /** The input of attribute `name` read through accessor `a`, or none for a
      name that is skipped. Location and binding are equal. */
  function InputOf(m: Model, name: string, a: int): (r: Option<VertexInput>)
    requires AccessorOk(m, a)
    ensures r.Some? <==> AttributeSlot(name).Some?
    ensures r.Some? ==>
      r.value.attr.location == r.value.attr.binding == r.value.bind.binding == AttributeSlot(name).value
    ensures r.Some? ==>
      var acc := m.accessors[a];
      var view := m.bufferViews[acc.bufferView];
      && r.value.attr.format == AttrFormat(acc.componentType, acc.accType)
      && r.value.attr.offset == ToU32(acc.byteOffset)
      && r.value.bind.stride == ToU32(ByteStride(acc, view))
      && r.value.buffer == ToU32(view.buffer)
  {
    var acc := m.accessors[a];
    var view := m.bufferViews[acc.bufferView];
    match AttributeSlot(name)
    case None => None
    case Some(slot) =>
      Some(VertexInput(VertexBinding(slot, ToU32(ByteStride(acc, view))),
                       VertexAttribute(slot, slot, AttrFormat(acc.componentType, acc.accType), ToU32(acc.byteOffset)),
                       ToU32(view.buffer)))
  }

  /** The number of attributes with a known name. */
  function KnownCount(attrs: seq<(string, int)>): (n: nat)
    ensures n <= |attrs|
  {
    if attrs == [] then 0
    else KnownCount(attrs[..|attrs| - 1]) + (if AttributeSlot(attrs[|attrs| - 1].0).Some? then 1 else 0)
  }

  /** The inputs of a list of attributes, in order, skipping unknown names. */
  function Inputs(m: Model, attrs: seq<(string, int)>): (r: seq<VertexInput>)
    requires forall k :: 0 <= k < |attrs| ==> AccessorOk(m, attrs[k].1)
    ensures |r| == KnownCount(attrs) <= |attrs|
  {
    if attrs == [] then []
    else
      var last := attrs[|attrs| - 1];
      Inputs(m, attrs[..|attrs| - 1]) + (match InputOf(m, last.0, last.1) case None => [] case Some(x) => [x])
  }

  /** Every input comes from an attribute of the list and carries that name's
      location, as its location and as both bindings. */
  lemma {:induction false} InputsFromAttributes(m: Model, attrs: seq<(string, int)>)
    requires forall k :: 0 <= k < |attrs| ==> AccessorOk(m, attrs[k].1)
    ensures forall i :: 0 <= i < |Inputs(m, attrs)| ==>
      var x := Inputs(m, attrs)[i];
      && x.attr.location == x.attr.binding == x.bind.binding
      && exists j :: 0 <= j < |attrs| && AttributeSlot(attrs[j].0) == Some(x.attr.location)
  {
    if attrs != [] {
      var front := attrs[..|attrs| - 1];
      InputsFromAttributes(m, front);
      forall i | 0 <= i < |Inputs(m, attrs)|
        ensures var x := Inputs(m, attrs)[i];
          && x.attr.location == x.attr.binding == x.bind.binding
          && exists j :: 0 <= j < |attrs| && AttributeSlot(attrs[j].0) == Some(x.attr.location)
      {
        if i < |Inputs(m, front)| {
          var x := Inputs(m, front)[i];
          var j :| 0 <= j < |front| && AttributeSlot(front[j].0) == Some(x.attr.location);
          assert attrs[j] == front[j];
        } else {
          assert AttributeSlot(attrs[|attrs| - 1].0) == Some(Inputs(m, attrs)[i].attr.location);
        }
      }
    }
  }

  /** Every attribute with a known name yields exactly one input: the input
      of attribute j sits after those of the known attributes before it. */
  lemma {:induction false} InputsOfKnown(m: Model, attrs: seq<(string, int)>)
    requires forall k :: 0 <= k < |attrs| ==> AccessorOk(m, attrs[k].1)
    ensures forall j :: 0 <= j < |attrs| && AttributeSlot(attrs[j].0).Some? ==>
      && KnownCount(attrs[..j]) < |Inputs(m, attrs)|
      && Inputs(m, attrs)[KnownCount(attrs[..j])] == InputOf(m, attrs[j].0, attrs[j].1).value
  {
    if attrs != [] {
      var front := attrs[..|attrs| - 1];
      InputsOfKnown(m, front);
      forall j | 0 <= j < |attrs| && AttributeSlot(attrs[j].0).Some?
        ensures && KnownCount(attrs[..j]) < |Inputs(m, attrs)|
                && Inputs(m, attrs)[KnownCount(attrs[..j])] == InputOf(m, attrs[j].0, attrs[j].1).value
      {
        if j < |front| {
          assert attrs[..j] == front[..j];
          assert attrs[j] == front[j];
        } else {
          assert attrs[..j] == front;
        }
      }
    }
  }

  /** With distinct attribute names, no two inputs share a location. */
  lemma {:induction false} InputsDistinctLocations(m: Model, attrs: seq<(string, int)>)
    requires forall k :: 0 <= k < |attrs| ==> AccessorOk(m, attrs[k].1)
    requires forall j, k :: 0 <= j < k < |attrs| ==> attrs[j].0 != attrs[k].0
    ensures forall i, i' :: 0 <= i < i' < |Inputs(m, attrs)| ==>
      Inputs(m, attrs)[i].attr.location != Inputs(m, attrs)[i'].attr.location
  {
    if attrs != [] {
      var front := attrs[..|attrs| - 1];
      var last := attrs[|attrs| - 1];
      InputsDistinctLocations(m, front);
      InputsFromAttributes(m, front);
      var ins := Inputs(m, attrs);
      forall i, i' | 0 <= i < i' < |ins|
        ensures ins[i].attr.location != ins[i'].attr.location
      {
        if i' >= |Inputs(m, front)| {
          var x := Inputs(m, front)[i];
          var j :| 0 <= j < |front| && AttributeSlot(front[j].0) == Some(x.attr.location);
          assert front[j].0 != last.0 by {
            assert front[j] == attrs[j];
          }
          AttributeSlotInjective(front[j].0, last.0);
        }
      }
    }
  }

  /** How `create_primitive` ends: no index accessor, an index component type
      outside SHORT..UNSIGNED_INT that makes it return early, or one inside. */
  datatype IndexCheck = NoIndices | Rejected(componentType: int) | Accepted(componentType: int)

  /** The vertex input description `create_primitive` builds: three lists of
      equal length, one entry per accepted attribute. */
  datatype PrimitiveLayout = PrimitiveLayout(
    bindings: seq<VertexBinding>,
    attributes: seq<VertexAttribute>,
    bufIdxs: seq<nat>,
    index: IndexCheck)

  /** The index check of a primitive. */
  function IndexCheckOf(m: Model, p: Primitive): (r: IndexCheck)
    requires PrimitiveOk(m, p)
    ensures r.NoIndices? <==> p.indices < 0
    ensures r.Accepted? ==> ComponentShort <= r.componentType <= ComponentUnsignedInt
    ensures r.Rejected? ==> !(ComponentShort <= r.componentType <= ComponentUnsignedInt)
    ensures !r.NoIndices? ==> r.componentType == m.accessors[p.indices].componentType
  {
    if p.indices < 0 then NoIndices
    else
      var ty := m.accessors[p.indices].componentType;
      if ty < ComponentShort || ty > ComponentUnsignedInt then Rejected(ty) else Accepted(ty)
  }

  /** The layout of a primitive: the inputs of its attributes, split into the
      three lists, and its index check. Entry i of each list belongs to the
      same attribute, so their bindings agree. */
  function LayoutOf(m: Model, p: Primitive): (r: PrimitiveLayout)
    requires PrimitiveOk(m, p)
    ensures |r.bindings| == |r.attributes| == |r.bufIdxs| == KnownCount(p.attributes) <= |p.attributes|
    ensures forall i :: 0 <= i < |r.bindings| ==> r.bindings[i].binding == r.attributes[i].binding
    ensures forall j :: 0 <= j < |p.attributes| && AttributeSlot(p.attributes[j].0).Some? ==>
      var i := KnownCount(p.attributes[..j]);
      var x := InputOf(m, p.attributes[j].0, p.attributes[j].1).value;
      i < |r.bindings| && r.bindings[i] == x.bind && r.attributes[i] == x.attr && r.bufIdxs[i] == x.buffer
  {
    var ins := Inputs(m, p.attributes);
    InputsFromAttributes(m, p.attributes);
    InputsOfKnown(m, p.attributes);
    PrimitiveLayout(
      seq(|ins|, i requires 0 <= i < |ins| => ins[i].bind),
      seq(|ins|, i requires 0 <= i < |ins| => ins[i].attr),
      seq(|ins|, i requires 0 <= i < |ins| => ins[i].buffer),
      IndexCheckOf(m, p))
  }

  // ---------------------------------------------------------------------------
  // Walking the meshes
  // ---------------------------------------------------------------------------

  /** The primitives of all meshes, mesh by mesh, in order. */
  function PrimitivesOf(meshes: seq<Mesh>): seq<Primitive>
  {
    if meshes == [] then []
    else PrimitivesOf(meshes[..|meshes| - 1]) + meshes[|meshes| - 1].primitives
  }

  /** The primitives of well-formed meshes are well formed. */
  lemma {:induction false} PrimitivesOfOk(m: Model, meshes: seq<Mesh>)
    requires MeshesOk(m, meshes)
    ensures forall k :: 0 <= k < |PrimitivesOf(meshes)| ==> PrimitiveOk(m, PrimitivesOf(meshes)[k])
  {
    if meshes != [] {
      var front := meshes[..|meshes| - 1];
      assert MeshesOk(m, front) by {
        forall i, j | 0 <= i < |front| && 0 <= j < |front[i].primitives|
          ensures PrimitiveOk(m, front[i].primitives[j])
        {
          assert front[i] == meshes[i];
        }
      }
      PrimitivesOfOk(m, front);
    }
  }

  /** Primitive j of mesh i comes right after the primitives of the meshes
      before it. */
  lemma {:induction false} PrimitivesOfOrder(meshes: seq<Mesh>, i: nat, j: nat)
    requires i < |meshes| && j < |meshes[i].primitives|
    ensures |PrimitivesOf(meshes[..i])| + j < |PrimitivesOf(meshes)|
    ensures PrimitivesOf(meshes)[|PrimitivesOf(meshes[..i])| + j] == meshes[i].primitives[j]
  {
    var front := meshes[..|meshes| - 1];
    if i < |meshes| - 1 {
      PrimitivesOfOrder(front, i, j);
      assert front[..i] == meshes[..i];
    } else {
      assert front == meshes[..i];
    }
  }

  /** The material unit of a loaded material. */
  datatype MaterialUnit = MaterialUnit(ao: real, metallic: real, roughness: real, albedo: seq<real>)
  /** A loaded material; `bind` and `cullBack` keep their zero values. */
  datatype Material = Material(bind: int, cullBack: bool, mu: MaterialUnit)

  /** A value-initialised material, as `resize` makes it. */
  const ZeroMaterial := Material(0, false, MaterialUnit(0.0, 0.0, 0.0, [0.0, 0.0, 0.0, 0.0]))

  /** The material list of a model: one entry per model material, with ao 1,
      the first four base-colour factors as albedo and the metallic and
      roughness factors; the texture lookups: none where the base-colour
      texture index is -1, otherwise the image of that texture. */
  ghost predicate MaterialsBuilt(m: Model, materials: seq<Material>, lookups: seq<Option<nat>>)
    requires ModelOk(m)
  {
    && |materials| == |m.materials| == |lookups|
    && (forall i :: 0 <= i < |materials| ==>
          var pbr := m.materials[i].pbrMetallicRoughness;
          && materials[i].mu.ao == 1.0
          && materials[i].mu.albedo == pbr.baseColorFactor[..4]
          && materials[i].mu.metallic == pbr.metallicFactor
          && materials[i].mu.roughness == pbr.roughnessFactor
          && materials[i].bind == 0 && !materials[i].cullBack)
    && (forall i :: 0 <= i < |lookups| ==>
          var tex := m.materials[i].pbrMetallicRoughness.baseColorTexture;
          && (lookups[i].None? <==> tex.index == -1)
          && (lookups[i].Some? ==> lookups[i].value == m.textures[tex.index].source))
  }

  /** One `add_buf` per glTF buffer, in order, with that buffer's bytes. */
  ghost predicate BuffersAdded(m: Model, uploads: seq<seq<bv8>>)
  {
    |uploads| == |m.buffers| && forall i :: 0 <= i < |uploads| ==> uploads[i] == m.buffers[i].data
  }

  /** One `create_primitive` per primitive of each mesh, in order. */
  ghost predicate PrimitivesCreated(m: Model, layouts: seq<PrimitiveLayout>)
    requires ModelOk(m)
  {
    PrimitivesOfOk(m, m.meshes);
    var ps := PrimitivesOf(m.meshes);
    |layouts| == |ps| && forall k :: 0 <= k < |ps| ==> layouts[k] == LayoutOf(m, ps[k])
  }

  /** Everything `load_file` produces from a parsed model. */
  datatype Loaded = Loaded(
    materials: seq<Material>,
    lookups: seq<Option<nat>>,
    uploads: seq<seq<bv8>>,
    layouts: seq<PrimitiveLayout>)

  class Loader {
    var model: Model

    constructor()
      ensures model == EmptyModel
    {
      model := EmptyModel;
    }

    /** `load_file`: false, and nothing built, when the file does not parse;
        otherwise the materials, the buffer uploads and the primitive layouts
        of the parsed model. `parsed` is the parser's answer. */
    method LoadFile(parsed: Option<Model>) returns (ok: bool, loaded: Loaded)
      requires parsed.Some? ==> ModelOk(parsed.value)
      modifies this
      ensures ok <==> parsed.Some?
      ensures !ok ==> model == old(model) && loaded == Loaded([], [], [], [])
      ensures ok ==>
        && model == parsed.value
        && MaterialsBuilt(model, loaded.materials, loaded.lookups)
        && BuffersAdded(model, loaded.uploads)
        && PrimitivesCreated(model, loaded.layouts)
    {
      if parsed.None? {
        return false, Loaded([], [], [], []);
      }
      model := parsed.value;
      var materials, lookups := BuildMaterials();
      var uploads := AddBuffers();
      var layouts := CreatePrimitives();
      return true, Loaded(materials, lookups, uploads, layouts);
    }

    /** The material loop of `load_file`. */
    method BuildMaterials() returns (materials: seq<Material>, lookups: seq<Option<nat>>)
      requires ModelOk(model)
      ensures MaterialsBuilt(model, materials, lookups)
    {
      var n := |model.materials|;
      materials := seq(n, _ => ZeroMaterial);
      lookups := [];
      var i := 0;
      while i < n
        invariant 0 <= i <= n && |materials| == n && |lookups| == i
        invariant forall k :: i <= k < n ==> materials[k] == ZeroMaterial
        invariant forall k :: 0 <= k < i ==>
          var pbr := model.materials[k].pbrMetallicRoughness;
          && materials[k].mu.ao == 1.0
          && materials[k].mu.albedo == pbr.baseColorFactor[..4]
          && materials[k].mu.metallic == pbr.metallicFactor
          && materials[k].mu.roughness == pbr.roughnessFactor
          && materials[k].bind == 0 && !materials[k].cullBack
        invariant forall k :: 0 <= k < i ==>
          var tex := model.materials[k].pbrMetallicRoughness.baseColorTexture;
          && (lookups[k].None? <==> tex.index == -1)
          && (lookups[k].Some? ==> lookups[k].value == model.textures[tex.index].source)
      {
        var pbr := model.materials[i].pbrMetallicRoughness;
        var color := pbr.baseColorFactor;
        var mu := materials[i].mu.(ao := 1.0);
        mu := mu.(albedo := [color[0], color[1], color[2], color[3]]);
        mu := mu.(metallic := pbr.metallicFactor, roughness := pbr.roughnessFactor);
        materials := materials[i := materials[i].(mu := mu)];
        assert materials[i].mu.albedo == color[..4];
        var idx := pbr.baseColorTexture.index;
        if idx == -1 {
          lookups := lookups + [None];
        } else {
          // The texture's image is looked up; nothing is done with it.
          lookups := lookups + [Some(model.textures[idx].source)];
        }
        i := i + 1;
      }
    }

    /** The buffer loop of `load_file`: the bytes handed to `add_buf`. */
    method AddBuffers() returns (uploads: seq<seq<bv8>>)
      ensures BuffersAdded(model, uploads)
    {
      uploads := [];
      var i := 0;
      while i < |model.buffers|
        invariant 0 <= i <= |model.buffers| && |uploads| == i
        invariant forall k :: 0 <= k < i ==> uploads[k] == model.buffers[k].data
      {
        uploads := uploads + [model.buffers[i].data];
        i := i + 1;
      }
    }

    /** The mesh loop of `load_file`: `create_primitive` for each primitive
        of each mesh. */
    method CreatePrimitives() returns (layouts: seq<PrimitiveLayout>)
      requires ModelOk(model)
      ensures PrimitivesCreated(model, layouts)
    {
      layouts := [];
      var i := 0;
      while i < |model.meshes|
        invariant 0 <= i <= |model.meshes|
        invariant |layouts| == |PrimitivesOf(model.meshes[..i])|
        invariant forall k :: 0 <= k < |layouts| ==>
          PrimitiveOk(model, PrimitivesOf(model.meshes[..i])[k])
          && layouts[k] == LayoutOf(model, PrimitivesOf(model.meshes[..i])[k])
      {
        var prims := model.meshes[i].primitives;
        ghost var done := PrimitivesOf(model.meshes[..i]);
        var j := 0;
        while j < |prims|
          invariant 0 <= j <= |prims|
          invariant |layouts| == |done| + j
          invariant forall k :: 0 <= k < |layouts| ==>
            PrimitiveOk(model, (done + prims[..j])[k]) && layouts[k] == LayoutOf(model, (done + prims[..j])[k])
        {
          var layout := CreatePrimitive(prims[j]);
          assert done + prims[..j + 1] == (done + prims[..j]) + [prims[j]];
          layouts := layouts + [layout];
          j := j + 1;
        }
        assert model.meshes[..i + 1][..i] == model.meshes[..i];
        assert PrimitivesOf(model.meshes[..i + 1]) == done + prims[..j];
        i := i + 1;
      }
      assert model.meshes[..i] == model.meshes;
    }

    /** `create_primitive`: one binding description, one attribute description
        and one buffer index per attribute with a known name, in attribute
        order, then the index component-type check. */
    method CreatePrimitive(p: Primitive) returns (layout: PrimitiveLayout)
      requires PrimitiveOk(model, p)
      ensures layout == LayoutOf(model, p)
    {
      var bindings, attributes, bufIdxs := CollectInputs(p.attributes);
      var index := NoIndices;
      if p.indices >= 0 {
        var ty := model.accessors[p.indices].componentType;
        if ty < ComponentShort || ty > ComponentUnsignedInt {
          return PrimitiveLayout(bindings, attributes, bufIdxs, Rejected(ty));
        }
        index := Accepted(ty);
      }
      return PrimitiveLayout(bindings, attributes, bufIdxs, index);
    }

    /** The attribute loop of `create_primitive`: for each attribute with a
        known name, in order, its binding description, its attribute
        description and its buffer index. */
    method CollectInputs(attrs: seq<(string, int)>)
      returns (bindings: seq<VertexBinding>, attributes: seq<VertexAttribute>, bufIdxs: seq<nat>)
      requires forall k :: 0 <= k < |attrs| ==> AccessorOk(model, attrs[k].1)
      ensures |bindings| == |attributes| == |bufIdxs| == |Inputs(model, attrs)|
      ensures forall i :: 0 <= i < |bindings| ==>
        var x := Inputs(model, attrs)[i];
        bindings[i] == x.bind && attributes[i] == x.attr && bufIdxs[i] == x.buffer
    {
      bindings, attributes, bufIdxs := [], [], [];
      var k := 0;
      while k < |attrs|
        invariant 0 <= k <= |attrs|
        invariant |bindings| == |attributes| == |bufIdxs| == |Inputs(model, attrs[..k])|
        invariant forall i :: 0 <= i < |bindings| ==>
          var x := Inputs(model, attrs[..k])[i];
          bindings[i] == x.bind && attributes[i] == x.attr && bufIdxs[i] == x.buffer
      {
        assert attrs[..k + 1][..k] == attrs[..k];
        var (name, a) := attrs[k];
        var acc := model.accessors[a];
        var view := model.bufferViews[acc.bufferView];
        var format := AttrFormat(acc.componentType, acc.accType);
        var offset := ToU32(acc.byteOffset);
        var slot := AttributeSlot(name);
        if slot.Some? {
          bindings := bindings + [VertexBinding(slot.value, ToU32(ByteStride(acc, view)))];
          attributes := attributes + [VertexAttribute(slot.value, slot.value, format, offset)];
          bufIdxs := bufIdxs + [ToU32(view.buffer)];
        }
        k := k + 1;
      }
      assert attrs[..k] == attrs;
    }
  }
}
