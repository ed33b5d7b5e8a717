// Vertex input layouts: one attribute per vertex field, at consecutive
// locations and packed offsets, within one binding whose stride is the size
// of the whole vertex.
module VertexLayout {

  import opened VkTypes

  /** The C++ field types the engine declares an attribute for. */
  datatype AttributeType =
    | IVec4 | IVec3 | IVec2 | Int32
    | UVec4 | UVec3 | UVec2 | UInt32
    | Vec4 | Vec3 | Vec2 | Float
    | DVec4 | DVec3 | DVec2 | Double

  /** sizeof of the field type: 4-byte components, 8-byte for the double types. */
  function SizeOf(t: AttributeType): nat
  {
    match t
    case IVec4 => 16 case IVec3 => 12 case IVec2 => 8 case Int32 => 4
    case UVec4 => 16 case UVec3 => 12 case UVec2 => 8 case UInt32 => 4
    case Vec4 => 16 case Vec3 => 12 case Vec2 => 8 case Float => 4
    case DVec4 => 32 case DVec3 => 24 case DVec2 => 16 case Double => 8
  }

  /** Bytes per element of a vertex format, as the Vulkan format names spell out. */
  function FormatSize(f: Format): nat
  {
    match f
    case R32G32B32A32Sint => 16 case R32G32B32Sint => 12 case R32G32Sint => 8 case R32Sint => 4
    case R32G32B32A32Uint => 16 case R32G32B32Uint => 12 case R32G32Uint => 8 case R32Uint => 4
    case R32G32B32A32Sfloat => 16 case R32G32B32Sfloat => 12 case R32G32Sfloat => 8 case R32Sfloat => 4
    case R64G64B64A64Sfloat => 32 case R64G64B64Sfloat => 24 case R64G64Sfloat => 16 case R64Sfloat => 8
    case _ => 0
  }

  /** The format declared for each field type; it is exactly as wide as the field. */
  function FormatOf(t: AttributeType): (f: Format)
    ensures FormatSize(f) == SizeOf(t)
    ensures f.R64G64B64A64Sfloat? || f.R64G64B64Sfloat? || f.R64G64Sfloat? || f.R64Sfloat?
        <==> t.DVec4? || t.DVec3? || t.DVec2? || t.Double?
  {
    match t
    case IVec4 => R32G32B32A32Sint case IVec3 => R32G32B32Sint case IVec2 => R32G32Sint case Int32 => R32Sint
    case UVec4 => R32G32B32A32Uint case UVec3 => R32G32B32Uint case UVec2 => R32G32Uint case UInt32 => R32Uint
    case Vec4 => R32G32B32A32Sfloat case Vec3 => R32G32B32Sfloat case Vec2 => R32G32Sfloat case Float => R32Sfloat
    case DVec4 => R64G64B64A64Sfloat case DVec3 => R64G64B64Sfloat case DVec2 => R64G64Sfloat case Double => R64Sfloat
  }

  /** The declared formats tell the field types apart. */
  lemma FormatOfInjective(s: AttributeType, t: AttributeType)
    requires FormatOf(s) == FormatOf(t)
    ensures s == t
  {
  }

  /** The size of a run of fields packed back to back. */
  function TotalSize(attributes: seq<AttributeType>): nat
  {
    if attributes == [] then 0
    else TotalSize(attributes[..|attributes| - 1]) + SizeOf(attributes[|attributes| - 1])
  }

  /** A longer prefix never packs into fewer bytes; each field adds its own size. */
  lemma {:induction false} TotalSizePrefix(attributes: seq<AttributeType>, i: nat, j: nat)
    requires i < j <= |attributes|
    ensures TotalSize(attributes[..i]) + SizeOf(attributes[i]) <= TotalSize(attributes[..j])
    decreases j - i
  {
    var prefix := attributes[..j];
    assert prefix[..j - 1] == attributes[..j - 1];
    if i < j - 1 {
      TotalSizePrefix(attributes, i, j - 1);
    } else {
      assert prefix[j - 1] == attributes[i];
    }
  }

  datatype InputRate = InputRateVertex | InputRateInstance

  datatype BindingDescription = BindingDescription(binding: nat, stride: nat, inputRate: InputRate)

  datatype AttributeDescription = AttributeDescription(location: nat, binding: nat, format: Format, offset: nat)

  /** What CreateVertexLayout promises about the layout of a vertex made of `attributes`. */
  ghost predicate DescribesVertex(attributes: seq<AttributeType>, binding: nat,
                                  description: BindingDescription, descriptions: seq<AttributeDescription>)
  {
    && |descriptions| == |attributes|
    && description == BindingDescription(binding, TotalSize(attributes), InputRateVertex)
    && forall k :: 0 <= k < |descriptions| ==>
      descriptions[k] == AttributeDescription(k, binding, FormatOf(attributes[k]), TotalSize(attributes[..k]))
  }

  /** The fields of a described vertex lie one after another inside the stride, without overlapping. */
  lemma AttributesDoNotOverlap(attributes: seq<AttributeType>, binding: nat,
                               description: BindingDescription, descriptions: seq<AttributeDescription>,
                               i: nat, j: nat)
    requires DescribesVertex(attributes, binding, description, descriptions)
    requires i < j < |descriptions|
    ensures descriptions[i].offset + SizeOf(attributes[i]) <= descriptions[j].offset
    ensures descriptions[j].offset + SizeOf(attributes[j]) <= description.stride
  {
    TotalSizePrefix(attributes, i, j);
    TotalSizePrefix(attributes, j, |attributes|);
    assert attributes[..|attributes|] == attributes;
  }

  class VertexLayout {
    var bindingDescription: BindingDescription
    var attributeDescriptions: seq<AttributeDescription>

    constructor ()
      ensures attributeDescriptions == []
    {
      bindingDescription := BindingDescription(0, 0, InputRateVertex);
      attributeDescriptions := [];
    }

    /**
     * Appends the description of one field at the next location and the
     * given offset; returns the offset just past the field.
     */
    method AddAttribute(t: AttributeType, binding: nat, offset: nat) returns (next: nat)
      modifies this`attributeDescriptions
      ensures attributeDescriptions == old(attributeDescriptions)
        + [AttributeDescription(|old(attributeDescriptions)|, binding, FormatOf(t), offset)]
      ensures next == offset + SizeOf(t)
    {
      attributeDescriptions := attributeDescriptions
        + [AttributeDescription(|attributeDescriptions|, binding, FormatOf(t), offset)];
      next := offset + SizeOf(t);
    }
  }

  /**
   * The fold over the attribute pack: each field is added at the running
   * offset, and the stride is where the last one ends.
   */
  method CreateVertexLayout(attributes: seq<AttributeType>, binding: nat) returns (layout: VertexLayout)
    ensures fresh(layout)
    ensures DescribesVertex(attributes, binding, layout.bindingDescription, layout.attributeDescriptions)
  {
    layout := new VertexLayout();
    var offset := 0;
    var k := 0;
    while k < |attributes|
      invariant k <= |attributes|
      invariant offset == TotalSize(attributes[..k])
      invariant |layout.attributeDescriptions| == k
      invariant forall i :: 0 <= i < k ==>
        layout.attributeDescriptions[i] == AttributeDescription(i, binding, FormatOf(attributes[i]), TotalSize(attributes[..i]))
    {
      offset := layout.AddAttribute(attributes[k], binding, offset);
      assert attributes[..k + 1][..k] == attributes[..k];
      k := k + 1;
    }
    assert attributes[..k] == attributes;
    layout.bindingDescription := BindingDescription(binding, offset, InputRateVertex);
  }
}
