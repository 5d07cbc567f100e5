/**
 * Request entities whose constructors fill trailing fields with defaults:
 * BrowseDescription, ReadValueId and MonitoredItemCreateRequest.
 */
module RequestDefaults {
  import opened Primitives
  import opened Builtin
  import opened NodeIds

  datatype BrowseDirection = Forward | Inverse | Both | Invalid

  /** NodeClass mask value meaning "all node classes" (UA_NODECLASS_UNSPECIFIED). */
  const NODECLASS_UNSPECIFIED: uint32 := 0
  /** BrowseResultMask with every result field requested (UA_BROWSERESULTMASK_ALL). */
  const BROWSERESULTMASK_ALL: uint32 := 63
  /** AttributeId::Value. */
  const ATTRIBUTEID_VALUE: uint32 := 13

  datatype MonitoringMode = Disabled | Sampling | Reporting

  datatype BrowseDescription = BrowseDescription(
    nodeId: NodeId,
    browseDirection: BrowseDirection,
    referenceTypeId: NodeId,
    includeSubtypes: bool,
    nodeClassMask: uint32,
    resultMask: uint32)

  /**
   * BrowseDescription(nodeId, browseDirection, referenceType = References,
   * includeSubtypes = true, nodeClassMask = Unspecified, resultMask = All).
   */
  function NewBrowseDescription(
    nodeId: NodeId,
    browseDirection: BrowseDirection,
    referenceType: NodeId := NodeId(0, NS0ID_REFERENCES),
    includeSubtypes: bool := true,
    nodeClassMask: uint32 := NODECLASS_UNSPECIFIED,
    resultMask: uint32 := BROWSERESULTMASK_ALL): (bd: BrowseDescription)
    ensures bd.nodeId == nodeId && bd.browseDirection == browseDirection
    ensures bd.referenceTypeId == referenceType && bd.includeSubtypes == includeSubtypes
    ensures bd.nodeClassMask == nodeClassMask && bd.resultMask == resultMask
  {
    BrowseDescription(nodeId, browseDirection, referenceType, includeSubtypes, nodeClassMask, resultMask)
  }

  /** With only a node and a direction, the remaining fields take their defaults. */
  lemma BrowseDescriptionDefaults(nodeId: NodeId, browseDirection: BrowseDirection)
    ensures var bd := NewBrowseDescription(nodeId, browseDirection);
            bd.nodeId == nodeId && bd.browseDirection == browseDirection
            && bd.referenceTypeId == NodeId(0, NS0ID_REFERENCES)
            && bd.includeSubtypes
            && bd.nodeClassMask == NODECLASS_UNSPECIFIED
            && bd.resultMask == BROWSERESULTMASK_ALL
  {
  }

  datatype ReadValueId = ReadValueId(
    nodeId: NodeId,
    attributeId: uint32,
    indexRange: String,
    dataEncoding: QualifiedName)

  /** ReadValueId(nodeId, attributeId, indexRange = {}, dataEncoding = {}). */
  function NewReadValueId(
    nodeId: NodeId,
    attributeId: uint32,
    indexRange: Bytes := [],
    dataEncoding: QualifiedName := DefaultQualifiedName()): (r: ReadValueId)
    ensures r.nodeId == nodeId && r.attributeId == attributeId
    ensures r.indexRange.Get() == indexRange && r.dataEncoding == dataEncoding
  {
    ReadValueId(nodeId, attributeId, NewString(indexRange), dataEncoding)
  }

  /** With only a node and an attribute, the index range is empty and the encoding default. */
  lemma ReadValueIdDefaults(nodeId: NodeId, attributeId: uint32)
    ensures var r := NewReadValueId(nodeId, attributeId);
            r.nodeId == nodeId && r.attributeId == attributeId
            && r.indexRange.Get() == []
            && r.dataEncoding == DefaultQualifiedName()
            && r.dataEncoding.GetNamespaceIndex() == 0 && r.dataEncoding.GetName() == []
  {
  }

  /** MonitoredItemCreateRequest; its MonitoringParameters are not modelled. */
  datatype MonitoredItemCreateRequest = MonitoredItemCreateRequest(
    itemToMonitor: ReadValueId,
    monitoringMode: MonitoringMode)

  /** MonitoredItemCreateRequest(itemToMonitor, monitoringMode = Reporting). */
  function NewMonitoredItemCreateRequest(
    itemToMonitor: ReadValueId,
    monitoringMode: MonitoringMode := Reporting): (r: MonitoredItemCreateRequest)
    ensures r.itemToMonitor == itemToMonitor && r.monitoringMode == monitoringMode
  {
    MonitoredItemCreateRequest(itemToMonitor, monitoringMode)
  }

  /** Without a mode the item is created Reporting, and the item to monitor is kept. */
  lemma MonitoredItemCreateRequestDefaults(nodeId: NodeId)
    ensures var r := NewMonitoredItemCreateRequest(NewReadValueId(nodeId, ATTRIBUTEID_VALUE));
            r.itemToMonitor.nodeId == nodeId
            && r.itemToMonitor.attributeId == ATTRIBUTEID_VALUE
            && r.monitoringMode == Reporting
  {
  }
}
