/**
 * What GetObjectMapping promises, one lemma per branch and error condition,
 * and what it leaves unchecked.
 */
module UtilProperties {
  import opened Wrappers
  import opened Edm
  import opened Util

  // ---------------------------------------------------------------------
  // The read-only guard
  // ---------------------------------------------------------------------

  /** The guard's verdict depends on the read-only flag and on nothing else about the item. */
  lemma ThrowIfReadOnlyDependsOnlyOnFlag(a: MetadataItem, b: MetadataItem)
    requires a.isReadOnly == b.isReadOnly
    ensures ThrowIfReadOnly(a) == ThrowIfReadOnly(b)
  {
  }

  // ---------------------------------------------------------------------
  // Registered conceptual space: the workspace's own mapping
  // ---------------------------------------------------------------------

  /**
   * With a CSpace item collection the result is the workspace's OCSpace
   * mapping for `t`, and a missing mapping fails the whole call.
   */
  lemma RegisteredCSpaceReturnsExistingMapping(t: EdmType, ws: MetadataWorkspace)
    requires ws.hasCSpaceItemCollection
    ensures t in ws.ocMappings ==> GetObjectMapping(t, ws) == Ok(ws.ocMappings[t])
    ensures t !in ws.ocMappings ==> GetObjectMapping(t, ws) == Err(MapNotFound)
  {
  }

  /**
   * With a CSpace item collection neither the primitive table nor the OSpace
   * items are consulted: replacing them leaves the result unchanged.
   */
  lemma RegisteredCSpaceIgnoresOtherLookups(t: EdmType, ws: MetadataWorkspace,
                                            table: PrimitiveTypeKind -> EdmType, items: map<string, EdmType>)
    requires ws.hasCSpaceItemCollection
    ensures GetObjectMapping(t, ws.(mappedPrimitiveType := table, oSpaceItems := items)) == GetObjectMapping(t, ws)
  {
  }

  /** Without a CSpace item collection the registered OCSpace mappings are never consulted. */
  lemma DegradedPathIgnoresRegisteredMappings(t: EdmType, ws: MetadataWorkspace, m: map<EdmType, ObjectTypeMapping>)
    requires !ws.hasCSpaceItemCollection
    ensures GetObjectMapping(t, ws.(ocMappings := m)) == GetObjectMapping(t, ws)
  {
  }

  // ---------------------------------------------------------------------
  // No conceptual space, CSpace input
  // ---------------------------------------------------------------------

  /**
   * A CSpace primitive type is paired with the table's OSpace type for its
   * primitive kind. When the table gives a primitive type (as a well-formed
   * table does) the mapping is built directly, never by the loader; the
   * OSpace item collection plays no part.
   */
  lemma CSpacePrimitiveUsesTable(t: EdmType, ws: MetadataWorkspace, items: map<string, EdmType>)
    requires !ws.hasCSpaceItemCollection
    requires t.dataSpace == CSpace && IsPrimitiveType(t)
    ensures var o := ws.mappedPrimitiveType(t.kind.primitiveKind);
      IsPrimitiveType(o) ==> GetObjectMapping(t, ws) == Ok(Direct(o, t))
    ensures GetObjectMapping(t, ws.(oSpaceItems := items)) == GetObjectMapping(t, ws)
    ensures WellFormed(ws) ==>
      GetObjectMapping(t, ws) == Ok(Direct(ws.mappedPrimitiveType(t.kind.primitiveKind), t))
  {
  }

  /**
   * A CSpace type that is not primitive is paired with the OSpace item of the
   * same full name; when there is none the call fails with ItemNotFound and
   * the loader is not reached. The primitive table plays no part.
   */
  lemma CSpaceNonPrimitiveLooksUpByName(t: EdmType, ws: MetadataWorkspace, table: PrimitiveTypeKind -> EdmType)
    requires !ws.hasCSpaceItemCollection
    requires t.dataSpace == CSpace && !IsPrimitiveType(t)
    ensures t.fullName !in ws.oSpaceItems ==> GetObjectMapping(t, ws) == Err(ItemNotFound)
    ensures t.fullName in ws.oSpaceItems ==>
      var o := ws.oSpaceItems[t.fullName];
      GetObjectMapping(t, ws) ==
        if IsEntityType(o) || IsComplexType(o) then Ok(Loaded(t, o, None))
        else if IsPrimitiveType(o) then Ok(Direct(o, t))
        else Err(NotSupported)
    ensures GetObjectMapping(t, ws.(mappedPrimitiveType := table)) == GetObjectMapping(t, ws)
  {
  }

  /**
   * Error order on the CSpace branch: the name lookup fails before the kind
   * check is reached, so an unsupported CSpace type without a same-named
   * OSpace item reports ItemNotFound rather than NotSupported.
   */
  lemma ItemNotFoundPrecedesNotSupported(t: EdmType, ws: MetadataWorkspace)
    requires !ws.hasCSpaceItemCollection
    requires t.dataSpace == CSpace && !IsMaterializable(t) && t.fullName !in ws.oSpaceItems
    ensures GetObjectMapping(t, ws) == Err(ItemNotFound)
  {
  }

  // ---------------------------------------------------------------------
  // No conceptual space, input from any other space
  // ---------------------------------------------------------------------

  /**
   * A type from any space but CSpace (OSpace, and equally SSpace or a mapping
   * space) is paired with itself on both ends, without consulting any lookup;
   * the call succeeds exactly when its kind is materializable.
   */
  lemma NonCSpaceInputMapsToItself(t: EdmType, ws: MetadataWorkspace)
    requires !ws.hasCSpaceItemCollection && t.dataSpace != CSpace
    ensures GetObjectMapping(t, ws).Ok? <==> IsMaterializable(t)
    ensures !IsMaterializable(t) ==> GetObjectMapping(t, ws) == Err(NotSupported)
    ensures GetObjectMapping(t, ws).Ok? ==>
      GetObjectMapping(t, ws).value.edmType == t && GetObjectMapping(t, ws).value.clrType == t
  {
  }

  // ---------------------------------------------------------------------
  // No conceptual space: the endpoints of a synthesized mapping
  // ---------------------------------------------------------------------

  /**
   * Over a well-formed workspace, a mapping synthesized for a CSpace type has
   * an OSpace type on its object end; for a primitive input both ends are
   * primitive of the same primitive kind, and a loaded mapping joins two
   * types of the same full name.
   */
  lemma SynthesizedMappingEnds(t: EdmType, ws: MetadataWorkspace)
    requires WellFormed(ws) && !ws.hasCSpaceItemCollection && t.dataSpace == CSpace
    requires GetObjectMapping(t, ws).Ok?
    ensures var m := GetObjectMapping(t, ws).value;
      && m.clrType.dataSpace == OSpace
      && (!IsPrimitiveType(t) ==> m.clrType.fullName == t.fullName)
      && (IsPrimitiveType(t) ==> m.Direct? && m.clrType.kind == t.kind)
  {
  }

  /**
   * The code does not compare the kinds of the two ends on the name-lookup
   * path: a CSpace complex type and an OSpace entity type that share a full
   * name are handed to the loader together, even in a well-formed workspace.
   */
  lemma NameLookupDoesNotCompareKinds()
    ensures exists t: EdmType, ws: MetadataWorkspace ::
      && WellFormed(ws) && !ws.hasCSpaceItemCollection
      && t.dataSpace == CSpace && IsComplexType(t)
      && GetObjectMapping(t, ws).Ok?
      && IsEntityType(GetObjectMapping(t, ws).value.clrType)
  {
    var t := EdmType("Model.Address", CSpace, Complex);
    var o := EdmType("Model.Address", OSpace, Entity);
    var ws := MetadataWorkspace(false, map[], (k: PrimitiveTypeKind) => EdmType("Edm.Primitive", OSpace, Primitive(k)),
                                map["Model.Address" := o]);
    assert GetObjectMapping(t, ws) == Ok(Loaded(t, o, None));
  }
}
