/**
 * The builtin string-like wrappers. Each wrapper owns one native value (its `handle`)
 * and is identified by the index of its native type in the external type table.
 * Wrappers are values here: copies are deep and equality is structural.
 */
module Builtin {
  import opened Primitives

  // Indices of the native types in the external type table (UA_TYPES_*).
  const UA_TYPES_STRING: nat := 11
  const UA_TYPES_GUID: nat := 13
  const UA_TYPES_BYTESTRING: nat := 14
  const UA_TYPES_XMLELEMENT: nat := 15
  const UA_TYPES_QUALIFIEDNAME: nat := 19
  const UA_TYPES_LOCALIZEDTEXT: nat := 20

  /** Native UA_String (also the layout of UA_ByteString and UA_XmlElement): its bytes. */
  datatype UaString = UaString(data: Bytes)

  /** allocUaString: a native string holding a copy of the given bytes. */
  function AllocUaString(s: Bytes): (u: UaString)
    ensures ToStdString(u) == s
  {
    UaString(s)
  }

  /** toString: an owning copy of the native string's bytes, from which the string can be rebuilt. */
  function ToStdString(u: UaString): (s: Bytes)
    ensures UaString(s) == u
  {
    u.data
  }

  /**
   * toStringView: a view of the native string's bytes. The view's lifetime
   * (bounded by the wrapper) is not modelled; its content is.
   */
  function ToStringView(u: UaString): (v: Bytes)
    ensures v == ToStdString(u)
  {
    u.data
  }

  /** The last Guid component: exactly eight bytes (std::array<UA_Byte, 8>, UA_Byte[8]). */
  type GuidBytes = s: Bytes | |s| == 8 witness [0, 0, 0, 0, 0, 0, 0, 0]

  /** Native UA_Guid. */
  datatype UaGuid = UaGuid(data1: uint32, data2: uint16, data3: uint16, data4: GuidBytes)

  /** Native UA_QualifiedName. */
  datatype UaQualifiedName = UaQualifiedName(namespaceIndex: uint16, name: UaString)

  /** Native UA_LocalizedText: the locale comes first in the struct. */
  datatype UaLocalizedText = UaLocalizedText(locale: UaString, text: UaString)

  // ------------------------------------------------------------------ String

  /** String: wraps UA_String. The datatype constructor adopts an already-built native value. */
  datatype String = String(handle: UaString) {
    static const TypeId: nat := UA_TYPES_STRING

    /** get(): an owning copy that loses nothing; re-allocating it rebuilds this value. */
    function Get(): (g: Bytes)
      ensures String(AllocUaString(g)) == this
    {
      ToStdString(handle)
    }

    /** getView(): the same bytes as get(). */
    function GetView(): (v: Bytes)
      ensures v == Get()
    {
      ToStringView(handle)
    }
  }

  /** String(str): get() and getView() give back str. */
  function NewString(str: Bytes): (s: String)
    ensures s.Get() == str && s.GetView() == str
  {
    String(AllocUaString(str))
  }

  // ------------------------------------------------------------------ Guid

  /** Guid: wraps UA_Guid. */
  datatype Guid = Guid(handle: UaGuid) {
    static const TypeId: nat := UA_TYPES_GUID
  }

  /** Guid(data1, data2, data3, data4): the first three components unchanged, data4[0..7] in order. */
  function NewGuid(data1: uint32, data2: uint16, data3: uint16, data4: GuidBytes): (g: Guid)
    ensures g.handle.data1 == data1 && g.handle.data2 == data2 && g.handle.data3 == data3
    ensures |g.handle.data4| == 8
    ensures forall i :: 0 <= i < 8 ==> g.handle.data4[i] == data4[i]
  {
    Guid(UaGuid(data1, data2, data3,
      [data4[0], data4[1], data4[2], data4[3], data4[4], data4[5], data4[6], data4[7]]))
  }

  /** Two Guids built from components are equal exactly when their components are. */
  lemma GuidEqualityIsComponentwise(a1: uint32, a2: uint16, a3: uint16, a4: GuidBytes,
                                    b1: uint32, b2: uint16, b3: uint16, b4: GuidBytes)
    ensures NewGuid(a1, a2, a3, a4) == NewGuid(b1, b2, b3, b4)
        <==> a1 == b1 && a2 == b2 && a3 == b3 && a4 == b4
  {
    var g, h := NewGuid(a1, a2, a3, a4), NewGuid(b1, b2, b3, b4);
    if g == h {
      assert forall i :: 0 <= i < 8 ==> a4[i] == g.handle.data4[i] == h.handle.data4[i] == b4[i];
    }
  }

  // ------------------------------------------------------------------ ByteString

  /** ByteString: wraps UA_ByteString (same layout as UA_String, a different type). */
  datatype ByteString = ByteString(handle: UaString) {
    static const TypeId: nat := UA_TYPES_BYTESTRING

    /** get(): an owning copy that loses nothing; re-allocating it rebuilds this value. */
    function Get(): (g: Bytes)
      ensures ByteString(AllocUaString(g)) == this
    {
      ToStdString(handle)
    }

    /** getView(): the same bytes as get(). */
    function GetView(): (v: Bytes)
      ensures v == Get()
    {
      ToStringView(handle)
    }
  }

  /** ByteString(str): get() and getView() give back str. */
  function NewByteString(str: Bytes): (s: ByteString)
    ensures s.Get() == str && s.GetView() == str
  {
    ByteString(AllocUaString(str))
  }

  // ------------------------------------------------------------------ XmlElement

  /** XmlElement: wraps UA_XmlElement (same layout as UA_String, a different type). */
  datatype XmlElement = XmlElement(handle: UaString) {
    static const TypeId: nat := UA_TYPES_XMLELEMENT

    /** get(): an owning copy that loses nothing; re-allocating it rebuilds this value. */
    function Get(): (g: Bytes)
      ensures XmlElement(AllocUaString(g)) == this
    {
      ToStdString(handle)
    }

    /** getView(): the same bytes as get(). */
    function GetView(): (v: Bytes)
      ensures v == Get()
    {
      ToStringView(handle)
    }
  }

  /** XmlElement(str): get() and getView() give back str. */
  function NewXmlElement(str: Bytes): (s: XmlElement)
    ensures s.Get() == str && s.GetView() == str
  {
    XmlElement(AllocUaString(str))
  }

  /** The three byte-string shaped wrappers have distinct type ids, as do all six wrappers. */
  lemma TypeIdsAreDistinct()
    ensures String.TypeId != ByteString.TypeId
    ensures String.TypeId != XmlElement.TypeId
    ensures ByteString.TypeId != XmlElement.TypeId
    ensures |{String.TypeId, Guid.TypeId, ByteString.TypeId, XmlElement.TypeId,
              QualifiedName.TypeId, LocalizedText.TypeId}| == 6
  {
  }

  /** The string-valued wrappers built from the same text share the native bytes and nothing else. */
  lemma StringShapesAgreeOnContent(str: Bytes)
    ensures NewString(str).handle == NewByteString(str).handle == NewXmlElement(str).handle
  {
  }

  // ------------------------------------------------------------------ QualifiedName

  /** QualifiedName: wraps UA_QualifiedName. */
  datatype QualifiedName = QualifiedName(handle: UaQualifiedName) {
    static const TypeId: nat := UA_TYPES_QUALIFIEDNAME

    /** getNamespaceIndex: a total read (it cannot fail); with the name it makes up the value. */
    function GetNamespaceIndex(): (n: uint16)
      ensures QualifiedName(UaQualifiedName(n, handle.name)) == this
    {
      handle.namespaceIndex
    }

    /** getName(): an owning copy of the name; re-allocating it rebuilds this value. */
    function GetName(): (nm: Bytes)
      ensures QualifiedName(UaQualifiedName(handle.namespaceIndex, AllocUaString(nm))) == this
    {
      ToStdString(handle.name)
    }

    /** getNameView(): the same bytes as getName(). */
    function GetNameView(): (v: Bytes)
      ensures v == GetName()
    {
      ToStringView(handle.name)
    }
  }

  /** QualifiedName(namespaceIndex, name): both read back unchanged. */
  function NewQualifiedName(namespaceIndex: uint16, name: Bytes): (q: QualifiedName)
    ensures q.GetNamespaceIndex() == namespaceIndex
    ensures q.GetName() == name && q.GetNameView() == name
  {
    QualifiedName(UaQualifiedName(namespaceIndex, AllocUaString(name)))
  }

  /** QualifiedName(): the zero-initialised native value, namespace 0 and an empty name. */
  function DefaultQualifiedName(): (q: QualifiedName)
    ensures q.GetNamespaceIndex() == 0 && q.GetName() == []
  {
    QualifiedName(UaQualifiedName(0, UaString([])))
  }

  /** A QualifiedName is determined by its namespace index and name. */
  lemma QualifiedNameIsItsFields(q: QualifiedName)
    ensures NewQualifiedName(q.GetNamespaceIndex(), q.GetName()) == q
  {
  }

  // ------------------------------------------------------------------ LocalizedText

  /** LocalizedText: wraps UA_LocalizedText. */
  datatype LocalizedText = LocalizedText(handle: UaLocalizedText) {
    static const TypeId: nat := UA_TYPES_LOCALIZEDTEXT

    /** getText(): reads the text field, not the locale that precedes it natively. */
    function GetText(): (t: Bytes)
      ensures LocalizedText(UaLocalizedText(handle.locale, AllocUaString(t))) == this
    {
      ToStdString(handle.text)
    }

    /** getTextView(): the same bytes as getText(). */
    function GetTextView(): (v: Bytes)
      ensures v == GetText()
    {
      ToStringView(handle.text)
    }

    /** getLocale(): reads the locale field, not the text. */
    function GetLocale(): (l: Bytes)
      ensures LocalizedText(UaLocalizedText(AllocUaString(l), handle.text)) == this
    {
      ToStdString(handle.locale)
    }

    /** getLocaleView(): the same bytes as getLocale(). */
    function GetLocaleView(): (v: Bytes)
      ensures v == GetLocale()
    {
      ToStringView(handle.locale)
    }
  }

  /**
   * LocalizedText(text, locale): text first, locale second, although the native
   * struct stores the locale first; each accessor reads back its own argument.
   */
  function NewLocalizedText(text: Bytes, locale: Bytes): (t: LocalizedText)
    ensures t.GetText() == text && t.GetTextView() == text
    ensures t.GetLocale() == locale && t.GetLocaleView() == locale
    ensures t.handle.locale.data == locale && t.handle.text.data == text
  {
    LocalizedText(UaLocalizedText(AllocUaString(locale), AllocUaString(text)))
  }

  /** LocalizedText(): the zero-initialised native value, empty text and locale. */
  function DefaultLocalizedText(): (t: LocalizedText)
    ensures t.GetText() == [] && t.GetLocale() == []
  {
    LocalizedText(UaLocalizedText(UaString([]), UaString([])))
  }

  /** Two LocalizedTexts built from parts are equal exactly when text and locale are. */
  lemma LocalizedTextEqualityIsFieldwise(t1: Bytes, l1: Bytes, t2: Bytes, l2: Bytes)
    ensures NewLocalizedText(t1, l1) == NewLocalizedText(t2, l2) <==> t1 == t2 && l1 == l2
  {
    if NewLocalizedText(t1, l1) == NewLocalizedText(t2, l2) {
      assert NewLocalizedText(t1, l1).GetText() == NewLocalizedText(t2, l2).GetText();
      assert NewLocalizedText(t1, l1).GetLocale() == NewLocalizedText(t2, l2).GetLocale();
    }
  }

  /** A LocalizedText is determined by its text and locale. */
  lemma LocalizedTextIsItsFields(t: LocalizedText)
    ensures NewLocalizedText(t.GetText(), t.GetLocale()) == t
  {
  }
}
