/** NodeId with a numeric identifier, the only form the modelled entities use. */
module NodeIds {
  import opened Primitives

  datatype NodeId = NodeId(namespaceIndex: uint16, identifier: uint32)

  /** Namespace-0 ids used as defaults and in the scenarios. */
  const NS0ID_REFERENCES: uint32 := 31
  const NS0ID_HASCOMPONENT: uint32 := 47
  const NS0ID_BASEEVENTTYPE: uint32 := 2041
}
