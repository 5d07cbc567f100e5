/**
 * The NodeAttributes setters, shown on VariableAttributes: each setter writes its field,
 * ORs the field's bit into specifiedAttributes and returns the object for chaining.
 * The bits are those of the NodeAttributesMask (OPC UA Part 4 (Services),
 * section 7.18 "NodeAttributes", 1.04 edition).
 */
module NodeAttributes {
  import opened Primitives
  import opened Builtin

  const MASK_NONE: bv32 := 0
  const MASK_ARRAYDIMENSIONS: bv32 := 0x2
  const MASK_DISPLAYNAME: bv32 := 0x40
  const MASK_VALUERANK: bv32 := 0x8_0000
  const MASK_WRITEMASK: bv32 := 0x10_0000

  /** The attributes whose setters are modelled. */
  datatype Attribute = WriteMask | ValueRank | DisplayName | ArrayDimensions

  /** The mask bit of an attribute. */
  function Bit(a: Attribute): bv32 {
    match a
    case WriteMask => MASK_WRITEMASK
    case ValueRank => MASK_VALUERANK
    case DisplayName => MASK_DISPLAYNAME
    case ArrayDimensions => MASK_ARRAYDIMENSIONS
  }

  /** The mask that marks exactly the attributes in s. */
  function MaskOf(s: set<Attribute>): bv32 {
    (if WriteMask in s then MASK_WRITEMASK else 0)
    | (if ValueRank in s then MASK_VALUERANK else 0)
    | (if DisplayName in s then MASK_DISPLAYNAME else 0)
    | (if ArrayDimensions in s then MASK_ARRAYDIMENSIONS else 0)
  }

  /** Each bit is a single bit, and different attributes have different bits. */
  lemma BitsAreDistinctSingleBits(a: Attribute, b: Attribute)
    ensures Bit(a) != 0 && Bit(a) & (Bit(a) - 1) == 0
    ensures Bit(a) & Bit(b) != 0 <==> a == b
  {
  }

  /** The mask can be read back: its bit for a is set exactly when a is in s. */
  lemma MaskOfMembership(s: set<Attribute>, a: Attribute)
    ensures MaskOf(s) & Bit(a) != 0 <==> a in s
  {
  }

  /** Different sets of specified attributes give different masks. */
  lemma MaskOfInjective(s: set<Attribute>, t: set<Attribute>)
    requires MaskOf(s) == MaskOf(t)
    ensures s == t
  {
    MaskOfMembershipAll(s);
    MaskOfMembershipAll(t);
    assert forall a :: a in s <==> a in t;
  }

  /** Setting one more attribute ORs its bit in. */
  lemma MaskOfInsert(s: set<Attribute>, a: Attribute)
    ensures MaskOf(s + {a}) == MaskOf(s) | Bit(a)
  {
  }

  /** A single attribute's mask is its own bit. */
  lemma MaskOfSingleton(a: Attribute)
    ensures MaskOf({a}) == Bit(a)
    ensures MaskOf({}) == MASK_NONE
  {
  }

  /** VariableAttributes, narrowed to the fields whose setters are modelled. */
  class VariableAttributes {
    var specifiedAttributes: bv32
    var writeMask: uint32
    var valueRank: int32
    var displayName: LocalizedText
    var arrayDimensions: seq<uint32>

    /** The attributes set so far through setters. */
    ghost var specified: set<Attribute>

    /** The mask marks exactly the attributes that have been set. */
    ghost predicate Valid()
      reads this
    {
      specifiedAttributes == MaskOf(specified)
    }

    /**
     * A default object: nothing specified, the NONE mask and no array dimensions.
     * The initial writeMask, valueRank and displayName come from the native
     * default value and are left unconstrained.
     */
    constructor ()
      ensures Valid() && specified == {}
      ensures specifiedAttributes == MASK_NONE
      ensures arrayDimensions == []
    {
      specifiedAttributes := MASK_NONE;
      arrayDimensions := [];
      specified := {};
    }

    /** getSpecifiedAttributes: the mask, which decodes to the set attributes. */
    function GetSpecifiedAttributes(): (m: bv32)
      reads this
      requires Valid()
      ensures m == MaskOf(specified)
      ensures forall a :: m & Bit(a) != 0 <==> a in specified
    {
      MaskOfMembershipAll(specified);
      specifiedAttributes
    }

    method SetWriteMask(v: uint32) returns (self: VariableAttributes)
      requires Valid()
      modifies this
      ensures Valid() && self == this
      ensures writeMask == v
      ensures specified == old(specified) + {WriteMask}
      ensures specifiedAttributes == old(specifiedAttributes) | MASK_WRITEMASK
      ensures valueRank == old(valueRank) && displayName == old(displayName)
      ensures arrayDimensions == old(arrayDimensions)
    {
      writeMask, specifiedAttributes := v, specifiedAttributes | MASK_WRITEMASK;
      specified := specified + {WriteMask};
      MaskOfInsert(old(specified), WriteMask);
      self := this;
    }

    method SetValueRank(v: int32) returns (self: VariableAttributes)
      requires Valid()
      modifies this
      ensures Valid() && self == this
      ensures valueRank == v
      ensures specified == old(specified) + {ValueRank}
      ensures specifiedAttributes == old(specifiedAttributes) | MASK_VALUERANK
      ensures writeMask == old(writeMask) && displayName == old(displayName)
      ensures arrayDimensions == old(arrayDimensions)
    {
      valueRank, specifiedAttributes := v, specifiedAttributes | MASK_VALUERANK;
      specified := specified + {ValueRank};
      MaskOfInsert(old(specified), ValueRank);
      self := this;
    }

    method SetDisplayName(v: LocalizedText) returns (self: VariableAttributes)
      requires Valid()
      modifies this
      ensures Valid() && self == this
      ensures displayName == v
      ensures specified == old(specified) + {DisplayName}
      ensures specifiedAttributes == old(specifiedAttributes) | MASK_DISPLAYNAME
      ensures writeMask == old(writeMask) && valueRank == old(valueRank)
      ensures arrayDimensions == old(arrayDimensions)
    {
      displayName, specifiedAttributes := v, specifiedAttributes | MASK_DISPLAYNAME;
      specified := specified + {DisplayName};
      MaskOfInsert(old(specified), DisplayName);
      self := this;
    }

    /** The previous array is replaced, not extended: the field holds exactly v afterwards. */
    method SetArrayDimensions(v: seq<uint32>) returns (self: VariableAttributes)
      requires Valid()
      modifies this
      ensures Valid() && self == this
      ensures arrayDimensions == v
      ensures specified == old(specified) + {ArrayDimensions}
      ensures specifiedAttributes == old(specifiedAttributes) | MASK_ARRAYDIMENSIONS
      ensures writeMask == old(writeMask) && valueRank == old(valueRank)
      ensures displayName == old(displayName)
    {
      arrayDimensions, specifiedAttributes := v, specifiedAttributes | MASK_ARRAYDIMENSIONS;
      specified := specified + {ArrayDimensions};
      MaskOfInsert(old(specified), ArrayDimensions);
      self := this;
    }
  }

  /** MaskOfMembership for every attribute at once. */
  lemma MaskOfMembershipAll(s: set<Attribute>)
    ensures forall a :: MaskOf(s) & Bit(a) != 0 <==> a in s
  {
    forall a: Attribute
      ensures MaskOf(s) & Bit(a) != 0 <==> a in s
    {
      MaskOfMembership(s, a);
    }
  }

  /** A fresh object, then one setter: the value is stored and the mask is exactly that field's bit. */
  method SetOneOnFresh(a: Attribute, writeMask: uint32, valueRank: int32,
                       displayName: LocalizedText, dims: seq<uint32>)
    returns (attr: VariableAttributes)
    ensures attr.Valid() && attr.specified == {a}
    ensures attr.GetSpecifiedAttributes() == Bit(a)
    ensures a == WriteMask ==> attr.writeMask == writeMask
    ensures a == ValueRank ==> attr.valueRank == valueRank
    ensures a == DisplayName ==> attr.displayName == displayName
    ensures a == ArrayDimensions ==> attr.arrayDimensions == dims
  {
    attr := new VariableAttributes();
    MaskOfSingleton(a);
    match a
    case WriteMask => attr := attr.SetWriteMask(writeMask);
    case ValueRank => attr := attr.SetValueRank(valueRank);
    case DisplayName => attr := attr.SetDisplayName(displayName);
    case ArrayDimensions => attr := attr.SetArrayDimensions(dims);
  }

  /** Setting arrayDimensions twice keeps only the second value and only the ARRAYDIMENSIONS bit. */
  method SetArrayDimensionsTwice(first: seq<uint32>, second: seq<uint32>)
    returns (attr: VariableAttributes)
    ensures attr.Valid()
    ensures attr.arrayDimensions == second
    ensures attr.GetSpecifiedAttributes() == MASK_ARRAYDIMENSIONS
  {
    attr := new VariableAttributes();
    assert attr.arrayDimensions == [];
    attr := attr.SetArrayDimensions(first);
    attr := attr.SetArrayDimensions(second);
    MaskOfSingleton(ArrayDimensions);
  }

  /** Chained setters on one object: every chained value is retained, and both bits are set. */
  method ChainDisplayNameAndWriteMask(displayName: LocalizedText, writeMask: uint32)
    returns (attr: VariableAttributes)
    ensures attr.Valid()
    ensures attr.displayName == displayName && attr.writeMask == writeMask
    ensures attr.GetSpecifiedAttributes() == MASK_DISPLAYNAME | MASK_WRITEMASK
  {
    var empty := new VariableAttributes();
    var chained := empty.SetDisplayName(displayName);
    attr := chained.SetWriteMask(writeMask);
    assert attr.specified == {DisplayName, WriteMask};
  }
}
