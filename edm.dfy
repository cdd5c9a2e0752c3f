/**
 * The metadata entities the object-mapping resolver of util.cs reads:
 * data spaces, EDM types, metadata items, object-type mappings and the
 * parts of a metadata workspace it consults.
 */
module Edm {
  import opened Wrappers

  /** The metadata spaces a workspace can hold item collections for. */
  datatype DataSpace =
    | OSpace   // object (CLR) space
    | CSpace   // conceptual space
    | SSpace   // store space
    | OCSpace  // object-to-conceptual mapping space
    | CSSpace  // conceptual-to-store mapping space

  /**
   * The primitive kind of a primitive type. The enumeration itself is not
   * part of this model: the resolver only hands it to the workspace's
   * correspondence table, so an ordinal stands for it.
   */
  type PrimitiveTypeKind = nat

  /** The built-in kind of a type, as far as the resolver tells kinds apart. */
  datatype TypeKind =
    | Primitive(primitiveKind: PrimitiveTypeKind)
    | Entity
    | Complex
    | Other  // collection, enum, row, reference, ... types

  /** An EDM type: its full name, the space that defines it, and its kind. */
  datatype EdmType = EdmType(fullName: string, dataSpace: DataSpace, kind: TypeKind)

  predicate IsPrimitiveType(t: EdmType) { t.kind.Primitive? }
  predicate IsEntityType(t: EdmType) { t.kind.Entity? }
  predicate IsComplexType(t: EdmType) { t.kind.Complex? }

  /** The kinds the object materializer can build without conceptual metadata. */
  predicate IsMaterializable(t: EdmType) {
    IsPrimitiveType(t) || IsEntityType(t) || IsComplexType(t)
  }

  /** A metadata item, reduced to what the read-only guard looks at. */
  datatype MetadataItem = MetadataItem(identity: string, isReadOnly: bool)

  /** Opaque reference to a mapping item collection a loader call may be given. */
  datatype MappingCollectionRef = MappingCollectionRef(id: nat)

  /**
   * A pairing of a conceptual-space type with an object-space type.
   * Direct is `new ObjectTypeMapping(clrType, edmType)`, built without member
   * mappings; Loaded is the result of the object-mapping loader called with
   * the conceptual type, the object type and its third argument, in that
   * order. The loader's member-level work is not modelled: the tag records
   * only what it was called with.
   */
  datatype ObjectTypeMapping =
    | Direct(clrType: EdmType, edmType: EdmType)
    | Loaded(edmType: EdmType, clrType: EdmType, loaderContext: Option<MappingCollectionRef>)

  /** The exceptions GetObjectMapping can end with. */
  datatype MappingError =
    | MapNotFound   // the workspace holds no OCSpace mapping for the type
    | ItemNotFound  // no OSpace item has the requested full name
    | NotSupported  // the type's kind cannot be materialized without conceptual metadata

  /** The exception ThrowIfReadOnly raises. */
  datatype ItemError = OperationOnReadOnlyItem

  /**
   * The parts of a metadata workspace the resolver consults:
   * whether a CSpace item collection is registered, the registered
   * OCSpace mappings by type, the primitive-kind correspondence table
   * restricted to its OSpace column (total over primitive kinds), and the
   * OSpace item collection by full name.
   */
  datatype MetadataWorkspace = MetadataWorkspace(
    hasCSpaceItemCollection: bool,
    ocMappings: map<EdmType, ObjectTypeMapping>,
    mappedPrimitiveType: PrimitiveTypeKind -> EdmType,
    oSpaceItems: map<string, EdmType>)

  /**
   * A workspace whose collaborators keep their own promises: the table gives
   * an OSpace primitive type of the requested kind, and every OSpace item is
   * filed under its own full name.
   */
  ghost predicate WellFormed(ws: MetadataWorkspace) {
    && (forall k: PrimitiveTypeKind ::
          ws.mappedPrimitiveType(k).kind == Primitive(k) && ws.mappedPrimitiveType(k).dataSpace == OSpace)
    && (forall n :: n in ws.oSpaceItems ==>
          ws.oSpaceItems[n].fullName == n && ws.oSpaceItems[n].dataSpace == OSpace)
  }
}
