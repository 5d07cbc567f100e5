/**
 * ContentFilter and its combinators !, && and ||. A filter is an array of elements;
 * an ElementOperand refers to another element by its index in that array
 * (OPC UA Part 4 (Services), section 7.4.4 "FilterOperand parameters", 1.04 edition).
 * Combining filters concatenates their element arrays behind a new first element,
 * so every ElementOperand index of a combined filter is shifted by the position
 * its filter now starts at.
 */
module ContentFilters {
  import opened Primitives
  import opened Builtin
  import opened NodeIds

  /** FilterOperator, in the order of its numeric encoding (Equals = 0 ... BitwiseOr = 17). */
  datatype FilterOperator =
    | Equals | IsNull | GreaterThan | LessThan | GreaterThanOrEqual | LessThanOrEqual
    | Like | Not | Between | InList | And | Or | Cast | InView | OfType | RelatedTo
    | BitwiseAnd | BitwiseOr

  /** The value of a LiteralOperand, narrowed to the kinds the filters here use. */
  datatype LiteralValue = IntegerValue(i: int) | NodeIdValue(id: NodeId)

  /** A filter operand, as its decoded extension object. */
  datatype FilterOperand =
    | ElementOperand(index: uint32)
    | LiteralOperand(value: LiteralValue)
    | SimpleAttributeOperand(typeDefinitionId: NodeId, browsePath: seq<QualifiedName>,
                             attributeId: uint32, indexRange: Bytes)

  datatype ContentFilterElement = ContentFilterElement(filterOperator: FilterOperator,
                                                       filterOperands: seq<FilterOperand>)

  datatype ContentFilter = ContentFilter(elements: seq<ContentFilterElement>)

  /** An index moved by k positions, with the wrap-around of unsigned 32-bit addition. */
  function AddIndex(i: uint32, k: nat): (j: uint32)
    ensures i as int + k < UINT32_MODULUS ==> j as int == i as int + k
  {
    ((i as int + k) % UINT32_MODULUS) as uint32
  }

  /** An ElementOperand moved by k; every other operand unchanged. */
  function ShiftOperand(o: FilterOperand, k: nat): (r: FilterOperand)
    ensures r.ElementOperand? <==> o.ElementOperand?
    ensures r.ElementOperand? ==> r.index == AddIndex(o.index, k)
    ensures !o.ElementOperand? ==> r == o
  {
    match o
    case ElementOperand(i) => ElementOperand(AddIndex(i, k))
    case _ => o
  }

  function ShiftOperands(os: seq<FilterOperand>, k: nat): (r: seq<FilterOperand>)
    ensures |r| == |os|
    ensures forall i :: 0 <= i < |os| ==> r[i] == ShiftOperand(os[i], k)
  {
    if os == [] then [] else [ShiftOperand(os[0], k)] + ShiftOperands(os[1..], k)
  }

  /** An element with every ElementOperand index moved by k; the operator and operand count kept. */
  function ShiftElement(e: ContentFilterElement, k: nat): (r: ContentFilterElement)
    ensures r.filterOperator == e.filterOperator
    ensures |r.filterOperands| == |e.filterOperands|
    ensures forall i :: 0 <= i < |e.filterOperands| ==>
              r.filterOperands[i] == ShiftOperand(e.filterOperands[i], k)
  {
    ContentFilterElement(e.filterOperator, ShiftOperands(e.filterOperands, k))
  }

  function ShiftElements(es: seq<ContentFilterElement>, k: nat): (r: seq<ContentFilterElement>)
    ensures |r| == |es|
    ensures forall i :: 0 <= i < |es| ==> r[i] == ShiftElement(es[i], k)
  {
    if es == [] then [] else [ShiftElement(es[0], k)] + ShiftElements(es[1..], k)
  }

  /** ContentFilter{e1, ..., en}: the elements in the given order. */
  function FromElements(es: seq<ContentFilterElement>): (f: ContentFilter)
    ensures |f.elements| == |es|
    ensures forall i :: 0 <= i < |es| ==> f.elements[i] == es[i]
  {
    ContentFilter(es)
  }

  /** A lone ContentFilterElement used where a filter is expected: a one-element filter. */
  function FromElement(e: ContentFilterElement): (f: ContentFilter)
    ensures f.elements == [e]
  {
    ContentFilter([e])
  }

  /** !f: a Not of element 1, followed by f's elements moved one position back. */
  function OperatorNot(f: ContentFilter): (r: ContentFilter)
    ensures |r.elements| == |f.elements| + 1
    ensures r.elements[0] == ContentFilterElement(Not, [ElementOperand(1)])
    ensures forall i :: 0 <= i < |f.elements| ==>
              r.elements[i + 1] == ShiftElement(f.elements[i], 1)
  {
    ContentFilter([ContentFilterElement(Not, [ElementOperand(1)])] + ShiftElements(f.elements, 1))
  }

  /**
   * The binary combinators: a first element op(Elem 1, Elem 1 + |a|), then a's elements
   * moved by 1, then b's elements moved by 1 + |a|.
   */
  function Combine(op: FilterOperator, a: ContentFilter, b: ContentFilter): (r: ContentFilter)
    ensures |r.elements| == 1 + |a.elements| + |b.elements|
    ensures r.elements[0] ==
              ContentFilterElement(op, [ElementOperand(1), ElementOperand(AddIndex(1, |a.elements|))])
    ensures forall i :: 0 <= i < |a.elements| ==>
              r.elements[1 + i] == ShiftElement(a.elements[i], 1)
    ensures forall i :: 0 <= i < |b.elements| ==>
              r.elements[1 + |a.elements| + i] == ShiftElement(b.elements[i], 1 + |a.elements|)
  {
    var head := ContentFilterElement(op, [ElementOperand(1), ElementOperand(AddIndex(1, |a.elements|))]);
    ContentFilter([head] + ShiftElements(a.elements, 1) + ShiftElements(b.elements, 1 + |a.elements|))
  }

  /** a && b: And(Elem 1, Elem 1 + |a|), then a moved by 1, then b moved by 1 + |a|. */
  function OperatorAnd(a: ContentFilter, b: ContentFilter): (r: ContentFilter)
    ensures |r.elements| == 1 + |a.elements| + |b.elements|
    ensures r.elements[0] ==
              ContentFilterElement(And, [ElementOperand(1), ElementOperand(AddIndex(1, |a.elements|))])
    ensures r.elements[1..1 + |a.elements|] == ShiftElements(a.elements, 1)
    ensures r.elements[1 + |a.elements|..] == ShiftElements(b.elements, 1 + |a.elements|)
  {
    Combine(And, a, b)
  }

  /** a || b: the same layout as a && b, with Or as the first operator. */
  function OperatorOr(a: ContentFilter, b: ContentFilter): (r: ContentFilter)
    ensures |r.elements| == 1 + |a.elements| + |b.elements|
    ensures r.elements[0] ==
              ContentFilterElement(Or, [ElementOperand(1), ElementOperand(AddIndex(1, |a.elements|))])
    ensures r.elements[1..1 + |a.elements|] == ShiftElements(a.elements, 1)
    ensures r.elements[1 + |a.elements|..] == ShiftElements(b.elements, 1 + |a.elements|)
  {
    Combine(Or, a, b)
  }

  // ---------------------------------------------------------------- the inverse shift

  /** An index moved back by k, modulo 2^32: the inverse of AddIndex. */
  function SubIndex(i: uint32, k: nat): (j: uint32)
    ensures AddIndex(j, k) == i
  {
    ((i as int - k) % UINT32_MODULUS) as uint32
  }

  function UnshiftOperand(o: FilterOperand, k: nat): (r: FilterOperand)
    ensures ShiftOperand(r, k) == o
  {
    match o
    case ElementOperand(i) => ElementOperand(SubIndex(i, k))
    case _ => o
  }

  lemma AddSubIndex(i: uint32, k: nat)
    ensures SubIndex(AddIndex(i, k), k) == i
  {
    var m := UINT32_MODULUS;
    var a := (i as int + k) % m;
    assert (i as int + k) - a == m * ((i as int + k) / m);
    assert (a - k) - i as int == -m * ((i as int + k) / m);
    ModMultiple(i as int, -((i as int + k) / m));
  }

  /** Adding a multiple of the modulus does not change a value already in range. */
  lemma ModMultiple(x: int, q: int)
    requires 0 <= x < UINT32_MODULUS
    ensures (x + q * UINT32_MODULUS) % UINT32_MODULUS == x
  {
  }

  lemma UnshiftShiftOperand(o: FilterOperand, k: nat)
    ensures UnshiftOperand(ShiftOperand(o, k), k) == o
  {
    if o.ElementOperand? {
      AddSubIndex(o.index, k);
    }
  }

  function UnshiftElement(e: ContentFilterElement, k: nat): (r: ContentFilterElement)
    ensures r.filterOperator == e.filterOperator
    ensures |r.filterOperands| == |e.filterOperands|
    ensures forall i :: 0 <= i < |e.filterOperands| ==>
              r.filterOperands[i] == UnshiftOperand(e.filterOperands[i], k)
  {
    ContentFilterElement(e.filterOperator, seq(|e.filterOperands|, i requires 0 <= i < |e.filterOperands| =>
      UnshiftOperand(e.filterOperands[i], k)))
  }

  function UnshiftElements(es: seq<ContentFilterElement>, k: nat): (r: seq<ContentFilterElement>)
    ensures |r| == |es|
    ensures forall i :: 0 <= i < |es| ==> r[i] == UnshiftElement(es[i], k)
  {
    seq(|es|, i requires 0 <= i < |es| => UnshiftElement(es[i], k))
  }

  /** Moving back undoes moving forward, so a shifted element array determines the original. */
  lemma {:induction false} UnshiftShiftElements(es: seq<ContentFilterElement>, k: nat)
    ensures UnshiftElements(ShiftElements(es, k), k) == es
  {
    var r := UnshiftElements(ShiftElements(es, k), k);
    forall i | 0 <= i < |es|
      ensures r[i] == es[i]
    {
      var e := es[i];
      var u := r[i];
      forall j | 0 <= j < |e.filterOperands|
        ensures u.filterOperands[j] == e.filterOperands[j]
      {
        UnshiftShiftOperand(e.filterOperands[j], k);
      }
    }
  }

  /** !f keeps f: its elements after the first, moved back by one, are exactly f's. */
  lemma NotRecoversOperand(f: ContentFilter)
    ensures UnshiftElements(OperatorNot(f).elements[1..], 1) == f.elements
  {
    assert OperatorNot(f).elements[1..] == ShiftElements(f.elements, 1);
    UnshiftShiftElements(f.elements, 1);
  }

  /** op(a, b) keeps both operands: each part, moved back by its offset, is the operand. */
  lemma CombineRecoversOperands(op: FilterOperator, a: ContentFilter, b: ContentFilter)
    ensures UnshiftElements(Combine(op, a, b).elements[1..1 + |a.elements|], 1) == a.elements
    ensures UnshiftElements(Combine(op, a, b).elements[1 + |a.elements|..], 1 + |a.elements|) == b.elements
  {
    var r := Combine(op, a, b).elements;
    assert r[1..1 + |a.elements|] == ShiftElements(a.elements, 1);
    assert r[1 + |a.elements|..] == ShiftElements(b.elements, 1 + |a.elements|);
    UnshiftShiftElements(a.elements, 1);
    UnshiftShiftElements(b.elements, 1 + |a.elements|);
  }

  // ---------------------------------------------------------------- well-formed filters

  /**
   * Every ElementOperand of element i refers to a later element j, i < j < |es|:
   * the indices stay inside the array and the references form an acyclic graph
   * (an element may be referenced several times, or not at all).
   */
  predicate ReferencesForward(es: seq<ContentFilterElement>) {
    forall i, j :: 0 <= i < |es| && 0 <= j < |es[i].filterOperands| ==>
      (es[i].filterOperands[j].ElementOperand? ==>
        i < es[i].filterOperands[j].index as int < |es|)
  }

  /** Shifting by k without wrap-around moves every forward reference by k. */
  lemma {:induction false} ShiftKeepsForward(es: seq<ContentFilterElement>, k: nat, n: nat)
    requires ReferencesForward(es)
    requires k + |es| <= n < UINT32_MODULUS
    ensures forall i, j :: 0 <= i < |es| && 0 <= j < |es[i].filterOperands| ==>
              var o := ShiftElements(es, k)[i].filterOperands[j];
              o.ElementOperand? ==> k + i < o.index as int < k + |es|
  {
    forall i, j | 0 <= i < |es| && 0 <= j < |es[i].filterOperands|
      ensures var o := ShiftElements(es, k)[i].filterOperands[j];
              o.ElementOperand? ==> k + i < o.index as int < k + |es|
    {
      var o := es[i].filterOperands[j];
      if o.ElementOperand? {
        assert ShiftElements(es, k)[i].filterOperands[j].index == AddIndex(o.index, k);
      }
    }
  }

  /**
   * A filter is well formed when it has an element and its references point forward.
   * The empty filter is not: combining it would leave an ElementOperand with no element.
   */
  predicate WellFormed(f: ContentFilter) {
    |f.elements| > 0 && ReferencesForward(f.elements)
  }

  /** !f of a well-formed filter is well formed, provided the element count fits in 32 bits. */
  lemma NotKeepsWellFormed(f: ContentFilter)
    requires WellFormed(f)
    requires |f.elements| + 1 < UINT32_MODULUS
    ensures WellFormed(OperatorNot(f))
  {
    var r := OperatorNot(f).elements;
    ShiftKeepsForward(f.elements, 1, |f.elements| + 1);
    forall i, j | 0 <= i < |r| && 0 <= j < |r[i].filterOperands| && r[i].filterOperands[j].ElementOperand?
      ensures i < r[i].filterOperands[j].index as int < |r|
    {
      if i > 0 {
        assert r[i] == ShiftElements(f.elements, 1)[i - 1];
      }
    }
  }

  /** op(a, b) of well-formed filters is well formed, provided the element count fits in 32 bits. */
  lemma CombineKeepsWellFormed(op: FilterOperator, a: ContentFilter, b: ContentFilter)
    requires ReferencesForward(a.elements) && WellFormed(b)
    requires 1 + |a.elements| + |b.elements| < UINT32_MODULUS
    ensures WellFormed(Combine(op, a, b))
  {
    var r := Combine(op, a, b).elements;
    var na, nb := |a.elements|, |b.elements|;
    ShiftKeepsForward(a.elements, 1, 1 + na + nb);
    ShiftKeepsForward(b.elements, 1 + na, 1 + na + nb);
    forall i, j | 0 <= i < |r| && 0 <= j < |r[i].filterOperands| && r[i].filterOperands[j].ElementOperand?
      ensures i < r[i].filterOperands[j].index as int < |r|
    {
      if 0 < i <= na {
        assert r[i] == ShiftElements(a.elements, 1)[i - 1];
      } else if na < i {
        assert r[i] == ShiftElements(b.elements, 1 + na)[i - 1 - na];
      }
    }
  }

  /** `!` of the empty filter points its Not at element 1, which does not exist. */
  lemma NotOfEmptyDangles()
    ensures var r := OperatorNot(ContentFilter([])).elements;
            |r| == 1 && r[0].filterOperands[0] == ElementOperand(1) && !WellFormed(ContentFilter(r))
  {
  }

  /** With an empty right operand, the head's second operand points one past the last element. */
  lemma CombineWithEmptyRightDangles(op: FilterOperator, a: ContentFilter)
    requires 1 + |a.elements| < UINT32_MODULUS
    ensures var r := Combine(op, a, ContentFilter([])).elements;
            |r| == 1 + |a.elements| && r[0].filterOperands[1] == ElementOperand((1 + |a.elements|) as uint32)
            && !WellFormed(ContentFilter(r))
  {
    var r := Combine(op, a, ContentFilter([])).elements;
    assert r[0].filterOperands[1].index as int == |r|;
  }

  // ---------------------------------------------------------------- the filters of the operator tests

  /** GreaterThan(Severity of BaseEventType, 200). */
  const SeverityAbove200: ContentFilterElement :=
    ContentFilterElement(GreaterThan, [
      SimpleAttributeOperand(NodeId(0, NS0ID_BASEEVENTTYPE),
        [NewQualifiedName(0, [83, 101, 118, 101, 114, 105, 116, 121])],  // "Severity"
        13, []),                                                         // AttributeId::Value
      LiteralOperand(IntegerValue(200))])

  /** And(Elem 1, Elem 2), OfType(BaseEventType), Equals(99, 99). */
  const ThreeElementFilter: ContentFilter :=
    FromElements([
      ContentFilterElement(And, [ElementOperand(1), ElementOperand(2)]),
      ContentFilterElement(OfType, [LiteralOperand(NodeIdValue(NodeId(0, NS0ID_BASEEVENTTYPE)))]),
      ContentFilterElement(Equals, [LiteralOperand(IntegerValue(99)), LiteralOperand(IntegerValue(99))])])

  /** The sizes, first operators and renumbered indices the operator tests check. */
  lemma OperatorExamples()
    ensures var n := OperatorNot(FromElement(SeverityAbove200)).elements;
            |n| == 2 && n[0].filterOperator == Not && n[0].filterOperands[0] == ElementOperand(1)
            && n[1].filterOperator == GreaterThan
    ensures var n := OperatorNot(ThreeElementFilter).elements;
            |n| == 4 && n[0].filterOperator == Not && n[0].filterOperands[0] == ElementOperand(1)
            && n[1].filterOperands == [ElementOperand(2), ElementOperand(3)]
    ensures |OperatorAnd(FromElement(SeverityAbove200), FromElement(SeverityAbove200)).elements| == 3
    ensures |OperatorAnd(FromElement(SeverityAbove200), ThreeElementFilter).elements| == 5
    ensures |OperatorAnd(ThreeElementFilter, FromElement(SeverityAbove200)).elements| == 5
    ensures |OperatorOr(FromElement(SeverityAbove200), ThreeElementFilter).elements| == 5
    ensures var c := OperatorAnd(ThreeElementFilter, ThreeElementFilter).elements;
            |c| == 7 && c[0].filterOperator == And
            && c[0].filterOperands == [ElementOperand(1), ElementOperand(4)]
            && c[1].filterOperands == [ElementOperand(2), ElementOperand(3)]
            && c[4].filterOperands == [ElementOperand(5), ElementOperand(6)]
    ensures var c := OperatorOr(ThreeElementFilter, ThreeElementFilter).elements;
            |c| == 7 && c[0].filterOperator == Or
  {
    var f := ThreeElementFilter.elements;
    var n := OperatorNot(ThreeElementFilter).elements;
    assert n[1] == ShiftElement(f[0], 1);
    var c := OperatorAnd(ThreeElementFilter, ThreeElementFilter).elements;
    assert c[1] == ShiftElements(f, 1)[0];
    assert c[4] == ShiftElements(f, 4)[0];
  }

  /** Building a filter from a list keeps the order, the operators and the operand counts. */
  lemma ConstructionExample()
    ensures var e := ThreeElementFilter.elements;
            |e| == 3
            && e[0].filterOperator == And && e[0].filterOperands == [ElementOperand(1), ElementOperand(2)]
            && e[1].filterOperator == OfType && |e[1].filterOperands| == 1
            && e[1].filterOperands[0].LiteralOperand?
            && e[2].filterOperator == Equals && |e[2].filterOperands| == 2
            && e[2].filterOperands[0].LiteralOperand? && e[2].filterOperands[1].LiteralOperand?
  {
  }
}
