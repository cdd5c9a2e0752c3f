# Object-type mapping resolution (Entity Framework 6 metadata utilities)

This project models the metadata utility class `Util` of Entity Framework 6
(`src/EntityFramework/Core/Metadata/Edm/util.cs`) and proves what it promises.

- `ThrowIfReadOnly` is the guard run before a metadata item is changed. It
  throws `InvalidOperationException` (OperationOnReadOnlyItem) when the item
  is read-only and otherwise returns.
- `GetObjectMapping` picks the object-type mapping that the materializer uses
  to build CLR (object-space, OSpace) instances of an EDM type. If the
  workspace has a conceptual-space (CSpace) item collection, it returns the
  workspace's registered object-to-conceptual (OCSpace) mapping. Otherwise it
  builds a mapping itself:
  - a CSpace primitive type gets its OSpace end from the primitive-kind table;
  - any other CSpace type gets the OSpace item of the same full name;
  - a type from any other space is paired with itself. This is the case of a
    plain-object data reader with no context.

  The OSpace end must then be primitive, entity or complex, or the call throws
  `NotSupportedException`. A primitive end gives a direct
  `ObjectTypeMapping(ospaceType, cspaceType)`. An entity or complex end goes to
  the object-mapping loader with `(cspaceType, ospaceType, null)`.

Both functions are pure, and so is the model. Exceptions become `Result` and
`Outcome` values (`wrappers.dfy`). The workspace is a value (`edm.dfy`) that
holds four things:
- a flag saying whether a CSpace item collection is registered;
- the registered OCSpace mappings, by type;
- the OSpace column of the primitive-kind table, a total function;
- the OSpace items, by full name.

util.cs trusts these lookups without checking what they return. Some
properties therefore hold only in a *well-formed* workspace (`Edm.WellFormed`),
which has two conditions:
- the primitive table gives, for each primitive kind, an OSpace primitive type
  of exactly that kind;
- every OSpace item is in OSpace and is filed under its own full name.

The loader is a constructor tag, `Loaded(edmType, clrType, loaderContext)`,
that records what the loader was called with. The model is in `util.dfy` and
the properties are in `util_properties.dfy`.

Two behaviours of util.cs are worth knowing:
- On the name-lookup path util.cs never compares the kinds of the two ends:
  a CSpace complex type and a same-named OSpace entity type go to the loader
  together (`NameLookupDoesNotCompareKinds`), even in a well-formed workspace.
  The code does not check kinds on the primitive path either: util.cs:66 uses
  whatever the table returns. The ends have equal kinds on the identity path
  (`NonCSpaceInputMapsToItself`). On the primitive path they are equal only
  in a well-formed workspace (`SynthesizedMappingEnds`).
- Every type whose space is not CSpace gets the identity pairing
  (util.cs:76-82), store-space and mapping-space types included.

Besides NotSupported and ItemNotFound, a failing `GetMap` escapes on the CSpace
path (util.cs:51); it is modelled as `MapNotFound`.

## Model

| member | source | states |
|---|---|---|
| `Util.ThrowIfReadOnly` | src/EntityFramework/Core/Metadata/Edm/util.cs:20-27 | fails with OperationOnReadOnlyItem exactly when the item is read-only, and passes exactly when it is not |
| `UtilProperties.ThrowIfReadOnlyDependsOnlyOnFlag` | src/EntityFramework/Core/Metadata/Edm/util.cs:23 | the guard's verdict depends only on the item's read-only flag |
| `Util.OSpaceCounterpart` | src/EntityFramework/Core/Metadata/Edm/util.cs:55-82 | the OSpace end fails exactly for a CSpace non-primitive type with no same-named OSpace item, and then with ItemNotFound; a non-CSpace type is its own end; in a well-formed workspace a CSpace type's end is an OSpace type of the same primitive kind (primitive input) or the same full name (any other input) |
| `Util.GetObjectMapping` | src/EntityFramework/Core/Metadata/Edm/util.cs:44-106 | without a CSpace collection, every mapping it returns has the input as its conceptual end and a primitive, entity or complex object end; it is direct exactly when the object end is primitive; a loaded mapping was given null (None) as its third argument |
| `UtilProperties.RegisteredCSpaceReturnsExistingMapping` | src/EntityFramework/Core/Metadata/Edm/util.cs:48-52 | with a CSpace collection, the result is the workspace's OCSpace mapping for the type, and a missing mapping fails the call with MapNotFound |
| `UtilProperties.RegisteredCSpaceIgnoresOtherLookups` | src/EntityFramework/Core/Metadata/Edm/util.cs:49-52 | with a CSpace collection, changing the primitive table or the OSpace items does not change the result, so neither is consulted |
| `UtilProperties.DegradedPathIgnoresRegisteredMappings` | src/EntityFramework/Core/Metadata/Edm/util.cs:53-105 | without a CSpace collection, the registered OCSpace mappings do not affect the result |
| `UtilProperties.CSpacePrimitiveUsesTable` | src/EntityFramework/Core/Metadata/Edm/util.cs:60-98 | a CSpace primitive input is paired with the table's OSpace type for its primitive kind, as a direct mapping (never through the loader) whenever that type is primitive, always in a well-formed workspace; the OSpace items are not consulted |
| `UtilProperties.CSpaceNonPrimitiveLooksUpByName` | src/EntityFramework/Core/Metadata/Edm/util.cs:68-102 | a CSpace non-primitive input gets the OSpace item with its exact full name; without one the call fails with ItemNotFound before any loader call; with one the outcome is the loader, a direct mapping or NotSupported, depending on that item's kind; the table is not consulted |
| `UtilProperties.ItemNotFoundPrecedesNotSupported` | src/EntityFramework/Core/Metadata/Edm/util.cs:72-91 | an unsupported CSpace type with no same-named OSpace item reports ItemNotFound, not NotSupported |
| `UtilProperties.NonCSpaceInputMapsToItself` | src/EntityFramework/Core/Metadata/Edm/util.cs:76-91 | an input from any space other than CSpace is paired with itself on both ends; the call succeeds exactly when its kind is primitive, entity or complex, and fails with NotSupported otherwise |
| `UtilProperties.SynthesizedMappingEnds` | src/EntityFramework/Core/Metadata/Edm/util.cs:60-102 | in a well-formed workspace, a mapping synthesized for a CSpace input has an OSpace object end; for a primitive input both ends have the same primitive kind and the mapping is direct; otherwise both ends share the full name |
| `UtilProperties.NameLookupDoesNotCompareKinds` | src/EntityFramework/Core/Metadata/Edm/util.cs:68-102 | some well-formed workspace makes the call pair a CSpace complex type with an OSpace entity type, because the kinds of the two ends are never compared |

## Left out

- `AssertItemHasIdentity` (util.cs:34-39) is compiled only in debug builds and has no release behaviour. Its non-null arguments are implicit, because Dafny values are never null.
- The workspace's own lookups (`TryGetItemCollection`, `GetMap`, `GetMappedPrimitiveType`, `GetItem<T>`) are not part of this model. They are abstracted as the flag, maps and total function of `MetadataWorkspace`. Only the OSpace column of the primitive table is kept, because util.cs:66 asks only for the OSpace column.
- `GetItem<EdmType>` would also fail for an item of the right name that is not an EDM type. The model's OSpace items are all EDM types, so that case cannot arise.
- The `(ObjectTypeMapping)` downcast of the registered mapping is not modelled: the registered mappings are held as object-type mappings already.
- The loader (`DefaultObjectMappingItemCollection.LoadObjectMapping`) is not part of this model. Its member-level mappings and its own failures are left out; only its arguments are recorded.
- The primitive-kind enumeration is not part of this model: a primitive kind is an ordinal that is passed to the table.
- `Helper.IsPrimitiveType`, `IsEntityType` and `IsComplexType` are replaced by a closed kind tag (`Primitive`, `Entity`, `Complex`, `Other`).
- Exception message resources, thread safety of the workspace and object identity of the returned mapping are left out. The model compares mappings by value.

