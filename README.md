# open62541pp core, modelled in Dafny

This project models three parts of open62541pp, the C++ wrapper around the open62541 OPC UA stack:

- **`Result<T>`, `BadResult` and `Result<void>`.** A status code is paired with an optional value. Access to the value depends on the code's severity, so `value()` throws exactly when the code is Bad, whether or not a value is stored.
- **The builtin string-like wrappers.** These are `String`, `ByteString`, `XmlElement`, `QualifiedName`, `LocalizedText` and `Guid`. Each builds a native struct from primitive inputs and reads the fields back.
- **Behaviour pinned down by the type tests:**
  - the "specified attributes" bitmask of the NodeAttributes setters;
  - the ContentFilter combinators `!`, `&&` and `||`, which renumber ElementOperand indices;
  - the default-filled fields of BrowseDescription, ReadValueId and MonitoredItemCreateRequest.

The files and modules:

| file | module | contents |
|---|---|---|
| `primitives.dfy` | `Primitives` | `uint8`, `uint16`, `uint32`, `int32` and byte sequences |
| `status_code.dfy` | `StatusCodes` | `StatusCode` as a `uint32`; its severity comes from the top two bits: 00 Good, 01 Uncertain, 10 and 11 Bad (OPC UA Part 4, section 7.34, 1.04 edition); `throwIfBad` as a `Check` outcome |
| `result.dfy` | `Results` | `BadResult`, `Result<T>` with the validity invariant "Bad implies no value", `VoidResult` for `Result<void>`; a throw is `Access.Thrown(code)` |
| `builtin.dfy` | `Builtin` | the native structs as datatypes over bytes and fixed-width integers; one wrapper datatype per class, each holding its native value in `handle` and carrying its type-table id |
| `node_id.dfy` | `NodeIds` | numeric `NodeId` |
| `node_attributes.dfy` | `NodeAttributes` | class `VariableAttributes`; its setters write a field and OR the field's NodeAttributesMask bit into `specifiedAttributes` (OPC UA Part 4, section 7.18, 1.04 edition), the behaviour the assertions at tests/ua_types.cpp:41-79 fix |
| `content_filter.dfy` | `ContentFilters` | filters as element sequences, the index shift, `!`/`&&`/`||`, the inverse shift, and the well-formedness invariant; the ElementOperand semantics follow OPC UA Part 4, section 7.4.4, 1.04 edition |
| `request_defaults.dfy` | `RequestDefaults` | constructors with default arguments |

Wrappers are Dafny values. A copy is therefore deep, equality is structural, and no accessor can modify the value it reads.

Some choices where the code leaves a question open:

- **Mask bits are set, not toggled.** The setter macros are not part of this model. Their behaviour comes from the test's assertions at tests/ua_types.cpp:65-72: after `setArrayDimensions` runs twice, the mask is exactly ARRAYDIMENSIONS. So the model ORs the bit in.
- **`Result()` may or may not hold a value.** The doc comment on `Result()` (include/open62541pp/Result.h:41-45) says it holds a default-initialised value. Whether `maybeValue_({})` engages the optional depends on C++ overload resolution. So `Results.Default` takes the optional's content as a parameter and promises only the Good code.
- **Two combinations leave a dangling index.** `!f` of an empty filter points its `Not` at element 1, which does not exist. `a && b` and `a || b` with an empty `b` point the head's second operand one past the last element. An empty left operand is harmless: both head operands then point at `b`'s first element. So `NotKeepsWellFormed` needs a well-formed `f`, and `CombineKeepsWellFormed` needs a well-formed `b`. The left operand `a` only needs forward references, which is weaker than `WellFormed`, since `WellFormed` also demands at least one element.

## Model

| member | source | states |
|---|---|---|
| `StatusCodes.ThrowIfBad` | include/open62541pp/Result.h:202-204 | throws exactly for Bad codes, and the exception carries the code |
| `StatusCodes.SeverityRanges` | include/open62541pp/Result.h:198-200 | Good, Uncertain and Bad are the code ranges below 0x40000000, from 0x40000000 to below 0x80000000, and from 0x80000000 up; the three are exclusive and exhaustive |
| `StatusCodes.SampleCodes` | include/open62541pp/Result.h:206 | the default code 0 is Good; the sample Bad and Uncertain codes are classified as such |
| `Results.Result.Code` | include/open62541pp/Result.h:136-138 | under the invariant, a Bad code means no value is stored |
| `Results.Result.HasValue` | include/open62541pp/Result.h:143-145 | under the invariant, a stored value means the code is Good or Uncertain |
| `Results.Result.Deref` | include/open62541pp/Result.h:105-131 | `operator*` requires a stored value and yields exactly that value, with no check of the code |
| `Results.BadResult.Code` | include/open62541pp/Result.h:21-23 | the code of every BadResult is Bad |
| `Results.NewBadResult` | include/open62541pp/Result.h:16-19 | requires a Bad code; `code()` returns it |
| `Results.Result.Value` | include/open62541pp/Result.h:150-177 | throws, carrying the stored code, exactly when the code is Bad; otherwise returns the stored value |
| `Results.Result.ValueOr` | include/open62541pp/Result.h:183-195 | the stored value when the code is not Bad, the default otherwise |
| `Results.Default` | include/open62541pp/Result.h:41-45 | `Result()` has the Good code and satisfies the invariant |
| `Results.Of` | include/open62541pp/Result.h:47-53 | `Result(v)` has the Good code and a value; `value()` returns exactly `v` |
| `Results.FromBad` | include/open62541pp/Result.h:55-59 | `Result(BadResult e)` has no value and `e`'s code; `value()` throws that code |
| `Results.WithCode` | include/open62541pp/Result.h:61-73 | requires a non-Bad code; the code and the value are kept and `value()` returns the value |
| `Results.DerefAgreesWithValue` | include/open62541pp/Result.h:105-177 | with a value stored, `operator*` gives what `value()` returns when the code is not Bad; when it is Bad, `value()` throws while `operator*` still reads the value, so access is gated by the code |
| `Results.ValueOrAgreesWithValue` | include/open62541pp/Result.h:183-195 | `valueOr(d)` is what `value()` returns, or `d` where `value()` throws |
| `Results.ValidResultIsAccessible` | include/open62541pp/Result.h:44-73 | under the invariant, a stored value implies a non-Bad code, and `value()` returns it |
| `Results.UncertainValueIsUsable` | include/open62541pp/Result.h:29-35 | with an Uncertain code, `value()` and `valueOr` still return the value |
| `Results.BadScenario` | include/open62541pp/Result.h:58-59 | a Result built from a Bad code has no value, a Bad code, and `valueOr(0) == 0` |
| `Results.VoidResult.Code` | include/open62541pp/Result.h:246-248 | the code is the whole state of a `Result<void>` |
| `Results.VoidResult.ToStatusCode` | include/open62541pp/Result.h:237-239 | the conversion to StatusCode yields `code()` |
| `Results.DefaultVoid` | include/open62541pp/Result.h:217-220 | `Result<void>()` is Good |
| `Results.VoidOf` | include/open62541pp/Result.h:222-226 | `Result<void>(c)` keeps `c`, as `code()` and as its StatusCode |
| `Results.VoidFromBad` | include/open62541pp/Result.h:228-232 | `Result<void>(BadResult e)` has `e`'s Bad code |
| `Builtin.AllocUaString` | src/types/Builtin.cpp:9-10 | the native string built from bytes reads back as those bytes |
| `Builtin.ToStringView` | src/types/Builtin.cpp:16-18 | a view has the same bytes as the owning copy |
| `Builtin.ToStdString` | src/types/Builtin.cpp:12-14 | the owning copy holds every byte of the native string: the string is rebuilt from it |
| `Builtin.String.Get` | src/types/Builtin.cpp:12-14 | `get()` loses nothing: allocating its result rebuilds an equal String |
| `Builtin.String.GetView` | src/types/Builtin.cpp:16-18 | `getView()` has the same bytes as `get()` |
| `Builtin.NewString` | src/types/Builtin.cpp:9-18 | `String(s).get() == s` and `getView()` has the same bytes |
| `Builtin.NewGuid` | src/types/Builtin.cpp:22-28 | data1 to data3 are stored unchanged and data4's eight bytes are copied in order |
| `Builtin.GuidEqualityIsComponentwise` | src/types/Builtin.cpp:22-28 | two Guids built from components are equal if and only if all four components are equal |
| `Builtin.ByteString.Get` | src/types/Builtin.cpp:35-37 | `get()` loses nothing: allocating its result rebuilds an equal ByteString |
| `Builtin.ByteString.GetView` | src/types/Builtin.cpp:39-41 | `getView()` has the same bytes as `get()` |
| `Builtin.NewByteString` | src/types/Builtin.cpp:32-41 | `ByteString(s).get() == s` and `getView()` has the same bytes |
| `Builtin.XmlElement.Get` | src/types/Builtin.cpp:48-50 | `get()` loses nothing: allocating its result rebuilds an equal XmlElement |
| `Builtin.XmlElement.GetView` | src/types/Builtin.cpp:52-54 | `getView()` has the same bytes as `get()` |
| `Builtin.NewXmlElement` | src/types/Builtin.cpp:45-54 | `XmlElement(s).get() == s` and `getView()` has the same bytes |
| `Builtin.TypeIdsAreDistinct` | include/open62541pp/types/Builtin.h:17-88 | the six wrappers, including the three with the byte-string shape, have pairwise distinct type ids |
| `Builtin.StringShapesAgreeOnContent` | include/open62541pp/types/Builtin.h:17-66 | String, ByteString and XmlElement built from the same bytes hold the same native content |
| `Builtin.QualifiedName.GetNamespaceIndex` | src/types/Builtin.cpp:61-63 | the index returned, with the stored name, makes up the whole value; the read cannot fail |
| `Builtin.QualifiedName.GetName` | src/types/Builtin.cpp:65-67 | the name returned, allocated again with the stored index, rebuilds the value |
| `Builtin.QualifiedName.GetNameView` | src/types/Builtin.cpp:69-71 | `getNameView()` has the same bytes as `getName()` |
| `Builtin.NewQualifiedName` | src/types/Builtin.cpp:58-71 | the namespace index and the name read back unchanged, from the copy and from the view |
| `Builtin.DefaultQualifiedName` | tests/ua_types.cpp:255 | the default QualifiedName has namespace 0 and an empty name |
| `Builtin.QualifiedNameIsItsFields` | src/types/Builtin.cpp:58-71 | rebuilding a QualifiedName from its two accessors yields the same value |
| `Builtin.LocalizedText.GetText` | src/types/Builtin.cpp:78-80 | reads the native text field, not the locale that precedes it: with the stored locale it rebuilds the value |
| `Builtin.LocalizedText.GetTextView` | src/types/Builtin.cpp:82-84 | `getTextView()` has the same bytes as `getText()` |
| `Builtin.LocalizedText.GetLocale` | src/types/Builtin.cpp:86-88 | reads the native locale field, not the text: with the stored text it rebuilds the value |
| `Builtin.LocalizedText.GetLocaleView` | src/types/Builtin.cpp:90-92 | `getLocaleView()` has the same bytes as `getLocale()` |
| `Builtin.NewLocalizedText` | src/types/Builtin.cpp:75-92 | text first, locale second: `getText()` gives the text and `getLocale()` gives the locale, from the copy and from the view, although the native struct stores the locale first |
| `Builtin.DefaultLocalizedText` | tests/ua_types.cpp:693 | the default LocalizedText has an empty text and an empty locale |
| `Builtin.LocalizedTextEqualityIsFieldwise` | src/types/Builtin.cpp:75-76 | two LocalizedTexts are equal if and only if their texts and their locales are |
| `Builtin.LocalizedTextIsItsFields` | src/types/Builtin.cpp:75-92 | rebuilding a LocalizedText from its accessors yields the same value |
| `NodeAttributes.BitsAreDistinctSingleBits` | tests/ua_types.cpp:41-72 | every mask bit is a single bit, and two attributes share a bit only if they are the same attribute |
| `NodeAttributes.MaskOfMembership` | tests/ua_types.cpp:41-72 | an attribute's bit is set in the mask of a set if and only if the attribute is in the set |
| `NodeAttributes.MaskOfMembershipAll` | tests/ua_types.cpp:41-72 | the same reading-back property, for all attributes at once |
| `NodeAttributes.MaskOfInjective` | tests/ua_types.cpp:41-72 | equal masks mean equal sets of specified attributes |
| `NodeAttributes.MaskOfInsert` | tests/ua_types.cpp:65-72 | marking one more attribute ORs its bit into the mask |
| `NodeAttributes.MaskOfSingleton` | tests/ua_types.cpp:44-63 | the empty set's mask is NONE, and a one-attribute set's mask is exactly that attribute's bit |
| `NodeAttributes.VariableAttributes.constructor` | tests/ua_types.cpp:44-66 | a fresh object has nothing specified, the NONE mask and empty array dimensions |
| `NodeAttributes.VariableAttributes.GetSpecifiedAttributes` | tests/ua_types.cpp:45 | the mask marks exactly the attributes set so far |
| `NodeAttributes.VariableAttributes.SetWriteMask` | tests/ua_types.cpp:47-51 | stores the write mask, marks WRITEMASK, ORs its bit into the mask, leaves the other fields unchanged and returns the object |
| `NodeAttributes.VariableAttributes.SetValueRank` | tests/ua_types.cpp:53-57 | stores the value rank, marks VALUERANK, ORs its bit into the mask, leaves the other fields unchanged and returns the object |
| `NodeAttributes.VariableAttributes.SetDisplayName` | tests/ua_types.cpp:59-63 | stores the display name, marks DISPLAYNAME, ORs its bit into the mask, leaves the other fields unchanged and returns the object |
| `NodeAttributes.VariableAttributes.SetArrayDimensions` | tests/ua_types.cpp:65-72 | replaces the array dimensions, marks ARRAYDIMENSIONS, ORs its bit into the mask, leaves the other fields unchanged and returns the object |
| `NodeAttributes.SetOneOnFresh` | tests/ua_types.cpp:44-63 | one setter on a fresh object stores its value, and the mask is exactly that field's bit |
| `NodeAttributes.SetArrayDimensionsTwice` | tests/ua_types.cpp:65-72 | after two setArrayDimensions calls, only the second array is kept and the mask is exactly ARRAYDIMENSIONS |
| `NodeAttributes.ChainDisplayNameAndWriteMask` | tests/ua_types.cpp:75-79 | chained setters keep both values and set both bits |
| `ContentFilters.AddIndex` | tests/ua_types.cpp:459-471 | moving an index by k adds k whenever the sum fits in 32 bits |
| `ContentFilters.ShiftOperand` | tests/ua_types.cpp:459-471 | only ElementOperands change, and each has its index moved by k |
| `ContentFilters.ShiftOperands` | tests/ua_types.cpp:459-471 | the operand count is kept and each operand is shifted in place |
| `ContentFilters.ShiftElement` | tests/ua_types.cpp:459-471 | the operator and the operand count are kept and each operand is shifted |
| `ContentFilters.ShiftElements` | tests/ua_types.cpp:459-471 | the element count and the element order are kept, and each element is shifted |
| `ContentFilters.FromElements` | tests/ua_types.cpp:386-406 | a filter built from a list has its elements in the same order |
| `ContentFilters.FromElement` | tests/ua_types.cpp:433-438 | a lone element acts as a one-element filter |
| `ContentFilters.OperatorNot` | tests/ua_types.cpp:433-446 | `!f` has `|f|+1` elements: first `Not(Elem 1)`, then `f`'s elements shifted by 1 |
| `ContentFilters.Combine` | tests/ua_types.cpp:448-484 | `op(a, b)` has `1+|a|+|b|` elements: first `op(Elem 1, Elem 1+|a|)`, then `a` shifted by 1, then `b` shifted by `1+|a|` |
| `ContentFilters.OperatorAnd` | tests/ua_types.cpp:448-472 | `a && b` has that layout with `And` as the first operator |
| `ContentFilters.OperatorOr` | tests/ua_types.cpp:474-484 | `a \|\| b` has that layout with `Or` as the first operator |
| `ContentFilters.SubIndex` | tests/ua_types.cpp:459-471 | moving an index back by k undoes moving it forward by k, modulo 2^32 |
| `ContentFilters.AddSubIndex` | tests/ua_types.cpp:459-471 | moving an index forward by k and then back by k returns the index |
| `ContentFilters.UnshiftShiftOperand` | tests/ua_types.cpp:459-471 | shifting an operand back undoes shifting it forward |
| `ContentFilters.UnshiftShiftElements` | tests/ua_types.cpp:459-471 | shifting an element array back undoes shifting it forward, so a shifted array determines the original |
| `ContentFilters.NotRecoversOperand` | tests/ua_types.cpp:433-446 | the elements of `!f` after the first, shifted back by 1, are exactly `f`'s elements |
| `ContentFilters.CombineRecoversOperands` | tests/ua_types.cpp:448-484 | the two parts of `op(a, b)`, each shifted back by its offset, are exactly `a` and `b` |
| `ContentFilters.ShiftKeepsForward` | tests/ua_types.cpp:459-471 | shifting by k without wrap-around moves every forward reference of element i into the range from k+i+1 to below k+|es| |
| `ContentFilters.NotKeepsWellFormed` | tests/ua_types.cpp:433-446 | `!f` of a well-formed filter is well formed: it is non-empty, and every ElementOperand points to a later element of the array |
| `ContentFilters.CombineKeepsWellFormed` | tests/ua_types.cpp:448-484 | `op(a, b)` is well formed when `b` is well formed and `a`'s references point forward; `a` may be empty |
| `ContentFilters.NotOfEmptyDangles` | tests/ua_types.cpp:433-446 | `!` of the empty filter is not well formed: its Not points at element 1 of a one-element array |
| `ContentFilters.CombineWithEmptyRightDangles` | tests/ua_types.cpp:448-484 | with an empty right operand, the head's second operand points one past the last element, so the result is not well formed |
| `ContentFilters.OperatorExamples` | tests/ua_types.cpp:433-484 | the sizes, first operators and renumbered indices of the operator tests |
| `ContentFilters.ConstructionExample` | tests/ua_types.cpp:386-406 | the three-element filter keeps the order, operators, operand counts and operand kinds |
| `RequestDefaults.NewBrowseDescription` | tests/ua_types.cpp:176-184 | every argument is stored in its own field |
| `RequestDefaults.BrowseDescriptionDefaults` | tests/ua_types.cpp:176-184 | the defaults are: reference type References (ns 0, id 31), includeSubtypes true, node class mask Unspecified (0), result mask All (63) |
| `RequestDefaults.NewReadValueId` | tests/ua_types.cpp:250-256 | every argument is stored in its own field |
| `RequestDefaults.ReadValueIdDefaults` | tests/ua_types.cpp:250-256 | the defaults are an empty index range and the default QualifiedName |
| `RequestDefaults.NewMonitoredItemCreateRequest` | tests/ua_types.cpp:536-540 | the item to monitor and the mode are stored |
| `RequestDefaults.MonitoredItemCreateRequestDefaults` | tests/ua_types.cpp:536-540 | the default monitoring mode is Reporting, and the item to monitor is kept |

## Left out

- **Ownership and memory.** TypeWrapper's ownership semantics are not modelled: copy, move-zeroing, destruction and `handle()` pointers. TypeWrapper.h is not part of this model, and Dafny values give deep copies and structural equality directly. Allocation failure is not modelled either.
- **Helper.h.** The code of Helper.h is not modelled. Its three helpers `detail::allocUaString`, `toString` and `toStringView` are taken to copy the bytes unchanged.
- **View lifetime.** A string view returned by `getView()` is bounded by the wrapper's lifetime. The model captures only its content.
- **C++ overloads and conversions.** The value-category overloads of `operator*` and `value()`, `operator->`, and the implicit conversions to `T&` are left out. One checked accessor (`Value`) and one unchecked accessor (`Deref`) stand for them.
- **`valueOr` with a different type.** `valueOr` takes a `U` and converts it with `static_cast<T>`. The model takes a `T`.
- **`Result<void>::operator*`.** It is a no-op returning nothing, so there is nothing to model.
- Results.Result.Value: requires that the code is Bad or a value is stored. With a non-Bad code and no value, the source dereferences an empty optional, which is undefined behaviour.
- Results.Result.ValueOr: has the same precondition as `Value`, for the same reason.
- Results.Default: does not state whether a value is stored. That depends on how `maybeValue_({})` resolves in C++.
- **StatusCode members beyond the severity test.** Names, the symbolic table and the exception hierarchy of `throwIfBad` are left out; only the failure and the code it carries are modelled.
- **Type ids.** The type ids 11, 13, 14, 15, 19 and 20 are the UA_TYPES indices of open62541's generated type table. That table is not part of this model.
- NodeAttributes.VariableAttributes.constructor: does not state the initial writeMask, valueRank or displayName. The default constructor is not part of this model, and the native default value it copies need not be zero; open62541's default valueRank, for one, is ANY (-2).
- **Other NodeAttributes fields.** Only the four attributes whose setters the tests exercise are modelled: writeMask, valueRank, displayName and arrayDimensions. The other fields and the other NodeAttributes classes use the same generated setters and are not modelled. `setDataType` (tests/ua_types.cpp:81-84) is not modelled, because it needs the DataTypeId-to-NodeId table.
- **The ContentFilter combinator code.** The file that implements the operators is not part of this model. The shift rule follows the test assertions, and it wraps ElementOperand indices modulo 2^32 as unsigned 32-bit addition does.
- **Operand and literal kinds.** AttributeOperand is left out. Literal operands hold only integers and NodeIds, not full Variants.
- **`!` and `&&` on elements.** These overloads convert the element to a one-element filter, `FromElement`, and are not separate members.
- **NodeId forms.** NodeIds are numeric only; string, GUID and opaque identifiers are left out.
- **Floating-point fields.** The requested MonitoringParameters of MonitoredItemCreateRequest are left out, as are all other floating-point fields of the tests (maxAge, deadband, Range, complex numbers, sampling intervals).
- **Other test entities.** DateTime, Variant scalars, ExtensionObject type pointers, and the other request and response entities in tests/ua_types.cpp are left out.
- **Client, server and monitored-item code.** Client and server configuration, connection lifecycle, logger callbacks and data-type registration (tests/client_server_common.cpp) are I/O and foreign calls and are left out. So are the monitored-item lookup in connection registries (src/monitoreditem.cpp) and the example server (examples/server_minimal.cpp).
