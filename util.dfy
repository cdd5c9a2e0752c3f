/** The metadata utility functions of util.cs. */
module Util {
  import opened Wrappers
  import opened Edm

  /** Fails with OperationOnReadOnlyItem exactly when the item is read-only. */
  function ThrowIfReadOnly(item: MetadataItem): (r: Outcome<ItemError>)
    ensures r == Fail(OperationOnReadOnlyItem) <==> item.isReadOnly
    ensures r == Pass <==> !item.isReadOnly
  {
    if item.isReadOnly then Fail(OperationOnReadOnlyItem) else Pass
  }

  /**
   * The OSpace end of the mapping synthesized for `t` when the workspace has
   * no CSpace item collection: the table's OSpace type for a CSpace primitive
   * type, the OSpace item of the same full name for any other CSpace type,
   * and `t` itself for a type of any other space. Only the name lookup can
   * fail. In a well-formed workspace a CSpace type's counterpart is an OSpace
   * type of the same primitive kind, or of the same full name.
   */
  function OSpaceCounterpart(t: EdmType, ws: MetadataWorkspace): (r: Result<EdmType, MappingError>)
    ensures r.Err? <==> t.dataSpace == CSpace && !IsPrimitiveType(t) && t.fullName !in ws.oSpaceItems
    ensures r.Err? ==> r.error == ItemNotFound
    ensures t.dataSpace != CSpace ==> r == Ok(t)
    ensures WellFormed(ws) && t.dataSpace == CSpace && r.Ok? ==>
      && r.value.dataSpace == OSpace
      && (IsPrimitiveType(t) ==> r.value.kind == t.kind)
      && (!IsPrimitiveType(t) ==> r.value.fullName == t.fullName)
  {
    if t.dataSpace == CSpace then
      if IsPrimitiveType(t) then Ok(ws.mappedPrimitiveType(t.kind.primitiveKind))
      else if t.fullName in ws.oSpaceItems then Ok(ws.oSpaceItems[t.fullName])
      else Err(ItemNotFound)
    else
      Ok(t)
  }

  /**
   * The object-type mapping used to materialize instances of `t`.
   * With a CSpace item collection the workspace's OCSpace mapping is returned;
   * otherwise one is synthesized: a CSpace type is paired with its OSpace
   * counterpart (through the primitive table or by full name), any other type
   * with itself, and the OSpace end decides between a direct mapping and the
   * loader.
   */
  function GetObjectMapping(t: EdmType, ws: MetadataWorkspace): (r: Result<ObjectTypeMapping, MappingError>)
    ensures !ws.hasCSpaceItemCollection && r.Ok? ==> r.value.edmType == t
    ensures !ws.hasCSpaceItemCollection && r.Ok? ==> IsMaterializable(r.value.clrType)
    ensures !ws.hasCSpaceItemCollection && r.Ok? ==> (r.value.Direct? <==> IsPrimitiveType(r.value.clrType))
    ensures !ws.hasCSpaceItemCollection && r.Ok? && r.value.Loaded? ==> r.value.loaderContext == None
  {
    if ws.hasCSpaceItemCollection then
      if t in ws.ocMappings then Ok(ws.ocMappings[t]) else Err(MapNotFound)
    else
      var ospaceType := OSpaceCounterpart(t, ws);
      var cspaceType := t;
      match ospaceType
      case Err(e) => Err(e)
      case Ok(o) =>
        if !IsPrimitiveType(o) && !IsEntityType(o) && !IsComplexType(o) then Err(NotSupported)
        else if IsPrimitiveType(o) then Ok(Direct(o, cspaceType))
        else Ok(Loaded(cspaceType, o, None))
  }
}
