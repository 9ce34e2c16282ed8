# Real-estate listing API: a verified model

This project models the request path of a small real-estate listing service
in Dafny. The service has a REST API over a document store of properties,
owners and property images, a web client that calls it, and a script that
seeds the store from an extended-JSON file. The model covers these parts:

- **The property store** (`PropertyRepository`). Up to four optional filters
  are built into one conjunction. A name or address pattern that is null,
  empty or blank adds no condition. A present pattern is a
  case-insensitive partial match. Both price bounds are inclusive. The
  matches come back sorted by name. The store is a class over a
  `seq<Property>` with lookup by id, create, update and delete. Ids are
  compared as object ids: hex letter case does not matter, and the store
  reads them back in lower case.
- **Image and owner lookups** (`PropertyImageRepository`,
  `OwnerRepository`). The images of a property are its enabled images in
  stored order. "First" means the head of that sequence.
- **The entity-to-view mappings** (`MappingProfile`). There is one function
  per mapping. Each is proved to forget exactly the fields the views leave
  out.
- **The listing handler** (`GetPropertiesQueryHandler`). A loop maps each
  listed property to a row carrying its first enabled image's file.
- **The detail handler** (`GetPropertyByIdQueryHandler`). It returns `null`
  when the id is unknown, and then reads no owner and no images. When the
  owner is missing, `owner` is null. The enabled image files are split into
  the primary image and the rest.
- **The controller** (`PropertiesController`). The listing always answers
  200. The detail answers 404 with `Property with ID {id} not found` exactly
  when the handler finds nothing.
- **The web client's request building** (`PropertyService`).
- **The seed importer's document conversion** (`SeedImport`). A
  24-hex-digit `$oid` is kept. Any other truthy primitive `$oid` is replaced
  through an id table that only grows, and an object `$oid` gets a fresh id
  that the table does not keep. A falsy `$oid` counts as absent. Then a
  `$date` becomes a date, and everything else is copied. Empty collections
  are skipped.

Shared pieces:

- `Wrappers`: `Option` stands in for null/undefined.
- `Seqs`: order-preserving filtering and "first or default".
- `Text`: .NET white space, ASCII lower-casing, substring search and ordinal
  string order.
- `Entities` and `Dtos`: the records.

Prices are `real`, standing for the exact decimal the store keeps.

## Model

| member | source | states |
|---|---|---|
| Seqs.Where | backend/src/RealEstate.Infrastructure/Repositories/PropertyImageRepository.cs:32-34 | A store `Find` with a predicate keeps exactly the elements satisfying it. The result is an order-preserving subsequence, and each kept element keeps its multiplicity. |
| Seqs.FirstWhere | backend/src/RealEstate.Infrastructure/Repositories/PropertyRepository.cs:84-86 | "First or default" is none iff nothing matches. Otherwise it is the earliest matching element. |
| Seqs.FirstWhereIsHeadOfWhere | backend/src/RealEstate.Infrastructure/Repositories/PropertyImageRepository.cs:32-43 | The first match is the head of the full filtered list. |
| Entities.StoredId | backend/src/RealEstate.Domain/Entities/Property.cs:11-13 | An id field is stored as an object id. The stored form of 24 hex digits is the lower-case form of the id: it is still 24 hex digits, already lower-case, and equal to the id once both are lower-cased. Any other text is kept as it is, and the length never changes. |
| Entities.StoredIdIsStored | backend/src/RealEstate.Domain/Entities/Property.cs:11-13 | Storing an id twice gives the same form as storing it once. |
| Entities.SameIdIgnoresHexCase | backend/src/RealEstate.Domain/Entities/Owner.cs:11-13 | Two object-id spellings name the same stored id iff they agree after lower-casing. |
| Entities.StoredIdsMatchByEquality | backend/src/RealEstate.Domain/Entities/Owner.cs:11-13 | Two ids already in stored form match iff they are equal strings. |
| PropertyRepository.BuildFilter | backend/src/RealEstate.Infrastructure/Repositories/PropertyRepository.cs:47-74 | The filter is `Empty` iff no filter is in force. Otherwise it has one conjunct per filter in force. It matches a property iff every filter in force holds: a non-blank pattern is a case-insensitive substring, and the bounds are inclusive. |
| PropertyRepository.SortByName | backend/src/RealEstate.Infrastructure/Repositories/PropertyRepository.cs:78 | The result is non-decreasing in ordinal name order and a permutation of the input. |
| PropertyRepository.Listing | backend/src/RealEstate.Infrastructure/Repositories/PropertyRepository.cs:76-79 | The listing is sorted by name and is a permutation of the matching subset of the store. It is never longer than the store. |
| PropertyRepository.ListingMembers | backend/src/RealEstate.Infrastructure/Repositories/PropertyRepository.cs:51-74 | A property is listed iff it is stored and satisfies every filter in force. Every listed price lies within the bounds given. |
| PropertyRepository.NoFiltersListsEverything | backend/src/RealEstate.Infrastructure/Repositories/PropertyRepository.cs:72-74 | With no filter in force (blank patterns included), the listing holds every stored property with its multiplicity. |
| PropertyRepository.BlankTextFiltersAreIgnored | backend/src/RealEstate.Infrastructure/Repositories/PropertyRepository.cs:51-59 | A null, empty or white-space pattern gives the same listing as no pattern. |
| PropertyRepository.ListingIsIntersection | backend/src/RealEstate.Infrastructure/Repositories/PropertyRepository.cs:72-73 | The listing is the intersection of the four single-filter listings. |
| PropertyRepository.NarrowingNeverEnlarges | backend/src/RealEstate.Infrastructure/Repositories/PropertyRepository.cs:72-73 | Adding filters yields a sub-multiset of the listing and never a longer one. |
| PropertyRepository.IndexOfId | backend/src/RealEstate.Infrastructure/Repositories/PropertyRepository.cs:98 | This is the position of the first property whose id the store matches to the given one, ignoring hex letter case. It is none iff no property matches. |
| PropertyRepository.Stored | backend/src/RealEstate.Infrastructure/Repositories/PropertyRepository.cs:91 | A written property keeps every field except its two object ids, `idProperty` and `idOwner`. Each of those is put in stored form and matches the id given. |
| PropertyRepository.OthersDiffer | backend/src/RealEstate.Infrastructure/Repositories/PropertyRepository.cs:97-111 | With unique ids, no position other than the first match matches the id. |
| PropertyRepository.RemoveAt | backend/src/RealEstate.Infrastructure/Repositories/PropertyRepository.cs:107-111 | Removing one property keeps the rest unique and in stored form. |
| PropertyRepository.Repository.GetAll | backend/src/RealEstate.Infrastructure/Repositories/PropertyRepository.cs:40-80 | It runs the built filter over the store and sorts by name. The result equals `Listing` of the store. |
| PropertyRepository.Repository.GetById | backend/src/RealEstate.Infrastructure/Repositories/PropertyRepository.cs:82-87 | The result is none iff no stored property's id matches the given one, with hex letter case ignored. Otherwise it is a stored property whose id matches. It reads the store without changing it. |
| PropertyRepository.Repository.Create | backend/src/RealEstate.Infrastructure/Repositories/PropertyRepository.cs:89-93 | A property with a new id is appended with its id and owner id in stored form, and it is returned as given. An id matching a stored one, in any hex letter case, is refused with a duplicate-key error, and the store is unchanged. Stored ids stay unique and in stored form. |
| PropertyRepository.Repository.Update | backend/src/RealEstate.Infrastructure/Repositories/PropertyRepository.cs:95-103 | If no stored id matches, the result is false and nothing changes. Otherwise the matching property is replaced in place by the replacement, with its id and owner id in stored form. A replacement differing only in the hex case of either id leaves the stored document as it was, so the result is false. The result is true iff the stored document differed from it. |
| PropertyRepository.Repository.Delete | backend/src/RealEstate.Infrastructure/Repositories/PropertyRepository.cs:105-112 | The result is true iff a stored id matches, with hex letter case ignored. Exactly that property is removed, the others keep their order, and none that matches remains. If the result is false, nothing changes. |
| PropertyImageRepository.GetByPropertyId | backend/src/RealEstate.Infrastructure/Repositories/PropertyImageRepository.cs:28-35 | Every returned image is enabled and has the id. The result is an order-preserving subsequence of the collection that omits no match. |
| PropertyImageRepository.GetFirstImageByPropertyId | backend/src/RealEstate.Infrastructure/Repositories/PropertyImageRepository.cs:37-44 | The result is none iff `GetByPropertyId` is empty. Otherwise it is that list's head, an enabled image of the property. |
| PropertyImageRepository.DisabledImagesNeverReturned | backend/src/RealEstate.Infrastructure/Repositories/PropertyImageRepository.cs:33-42 | A disabled image appears in neither result. |
| OwnerRepository.GetById | backend/src/RealEstate.Infrastructure/Repositories/OwnerRepository.cs:23-28 | The result is none iff no owner's id matches the given one, with hex letter case ignored. Otherwise it is a stored owner whose id matches. |
| OwnerRepository.GetAll | backend/src/RealEstate.Infrastructure/Repositories/OwnerRepository.cs:30-35 | The always-true filter returns the whole collection in stored order. |
| MappingProfile.ToPropertyDto | backend/src/RealEstate.Application/Mappings/MappingProfile.cs:15-16 | The id, owner id, name, address and price are copied. The image is left unset. |
| MappingProfile.ToPropertyDetailDto | backend/src/RealEstate.Application/Mappings/MappingProfile.cs:18-20 | The id, name, address, price, internal code and year are copied. The image and additional images are ignored, so they stay null and empty. The owner would be copied by name from the never-stored navigation member `Owner`, so it is null too. |
| MappingProfile.ToOwnerDto | backend/src/RealEstate.Application/Mappings/MappingProfile.cs:23 | The id, name, address and photo are copied. |
| MappingProfile.PropertyDtoForgetsOnlyCodeAndYear | backend/src/RealEstate.Application/Mappings/MappingProfile.cs:15-16 | Two properties give the same row iff they differ at most in internal code and year. |
| MappingProfile.PropertyDetailDtoForgetsOnlyOwnerId | backend/src/RealEstate.Application/Mappings/MappingProfile.cs:18-20 | Two properties give the same mapped detail iff they differ at most in owner id. |
| MappingProfile.OwnerDtoForgetsOnlyBirthday | backend/src/RealEstate.Application/Mappings/MappingProfile.cs:23 | Two owners give the same view iff they differ at most in birthday. |
| GetPropertiesQueryHandler.FileOf | backend/src/RealEstate.Application/Features/Properties/Queries/GetPropertiesQueryHandler.cs:50 | `firstImage?.File` is null iff there is no image. Otherwise it is the image's file. |
| GetPropertiesQueryHandler.RowFacts | backend/src/RealEstate.Application/Features/Properties/Queries/GetPropertiesQueryHandler.cs:43-52 | The row copies the property's fields. Its image is absent iff the property has no enabled image. Otherwise it is the file of the first enabled image. |
| GetPropertiesQueryHandler.Rows | backend/src/RealEstate.Application/Features/Properties/Queries/GetPropertiesQueryHandler.cs:39-55 | There is one row per listed property, in listing order. |
| GetPropertiesQueryHandler.RowsFollowListing | backend/src/RealEstate.Application/Features/Properties/Queries/GetPropertiesQueryHandler.cs:32-55 | The rows are in name order. Each comes from a stored property that satisfies the filters. |
| GetPropertiesQueryHandler.EmptyListingGivesNoRows | backend/src/RealEstate.Application/Features/Properties/Queries/GetPropertiesQueryHandler.cs:39-55 | An empty listing gives an empty response. |
| GetPropertiesQueryHandler.EnrichRow | backend/src/RealEstate.Application/Features/Properties/Queries/GetPropertiesQueryHandler.cs:43-50 | One loop iteration maps the property and sets its image to the first enabled image's file. The result is the row `RowFacts` describes. |
| GetPropertiesQueryHandler.EnrichAll | backend/src/RealEstate.Application/Features/Properties/Queries/GetPropertiesQueryHandler.cs:39-53 | The `foreach` loop appends one row per repository result. The output's length and order are those of the results, and position i holds the row of result i. |
| GetPropertiesQueryHandler.Handle | backend/src/RealEstate.Application/Features/Properties/Queries/GetPropertiesQueryHandler.cs:27-56 | The filters pass to the store unchanged. The loop's output equals `Rows`. |
| GetPropertyByIdQueryHandler.EnabledFiles | backend/src/RealEstate.Application/Features/Properties/Queries/GetPropertyByIdQueryHandler.cs:49-53 | These are the files of the property's enabled images, in repository order. |
| GetPropertyByIdQueryHandler.DetailFacts | backend/src/RealEstate.Application/Features/Properties/Queries/GetPropertyByIdQueryHandler.cs:39-61 | The property fields are copied. The owner is null iff no owner's id matches the owner id; otherwise it is that owner's view. With no enabled image, the image is null and the rest empty. Otherwise the image is the first file and the rest are the remaining N−1 files, in order. Image followed by the rest equals the enabled files. |
| GetPropertyByIdQueryHandler.Response | backend/src/RealEstate.Application/Features/Properties/Queries/GetPropertyByIdQueryHandler.cs:34-62 | The result is null iff no stored property's id matches the given one, with hex letter case ignored. Otherwise it is the detail view of a stored property whose id matches. |
| GetPropertyByIdQueryHandler.HexCaseFindsSameProperty | backend/src/RealEstate.Application/Features/Properties/Queries/GetPropertyByIdQueryHandler.cs:34-62 | Two spellings of one object id that differ only in hex letter case give the same response. |
| GetPropertyByIdQueryHandler.RefilteringEnabledIsNoOp | backend/src/RealEstate.Application/Features/Properties/Queries/GetPropertyByIdQueryHandler.cs:53 | Filtering the repository's images for enabled ones again changes nothing. |
| GetPropertyByIdQueryHandler.BuildDetail | backend/src/RealEstate.Application/Features/Properties/Queries/GetPropertyByIdQueryHandler.cs:39-61 | Once the property is found, the built view equals `Detail`. It does one owner lookup, then one image lookup. |
| GetPropertyByIdQueryHandler.Handle | backend/src/RealEstate.Application/Features/Properties/Queries/GetPropertyByIdQueryHandler.cs:30-62 | The result equals `Response`. No owner or image lookup happens when the property is missing. Otherwise it does one owner lookup with the owner id, then one image lookup with the property id. |
| PropertiesController.NotFoundMessageNamesId | backend/src/RealEstate.API/Controllers/PropertiesController.cs:83 | The 404 message contains the id verbatim after `Property with ID `. Its last nine characters are `not found`. |
| PropertiesController.PropertyByIdResult | backend/src/RealEstate.API/Controllers/PropertiesController.cs:80-86 | A null detail becomes a 404 with `Property with ID {id} not found`. Anything else becomes 200 with the same view. |
| PropertiesController.GetProperties | backend/src/RealEstate.API/Controllers/PropertiesController.cs:37-59 | The answer is always 200 with the listing handler's rows. |
| PropertiesController.GetPropertyById | backend/src/RealEstate.API/Controllers/PropertiesController.cs:71-87 | The answer is 404 with the fixed message iff no stored property's id matches the given one, with hex letter case ignored. Otherwise it is 200 with the handler's detail view. |
| PropertyService.ValueOfAppend | frontend/src/services/propertyService.ts:14-17 | Appending a parameter keeps every earlier key's value, and a new key gets the appended value. |
| PropertyService.InFixedOrderHasDistinctKeys | frontend/src/services/propertyService.ts:14-17 | Keys in the fixed order occur at most once. |
| PropertyService.GetProperties | frontend/src/services/propertyService.ts:11-21 | The path is `/properties?` followed by the parameters in the order name, address, minPrice, maxPrice. Text filters are sent only when truthy; prices are sent whenever defined, zero included. The list is empty iff there are no filters or none counts. |
| PropertyService.GetPropertyByIdPath | frontend/src/services/propertyService.ts:26-29 | The path is `/properties/` followed by the id verbatim. |
| PropertyService.GetPropertyByIdPathInjective | frontend/src/services/propertyService.ts:27 | Different ids are requested at different paths. |
| SeedImport.Classify | database-backup/import-data.js:57-86 | An `$oid` is kept iff it is a string of 24 hex digits. Any other truthy primitive `$oid` is remapped, and an object `$oid` gets a new id. `$date` is consulted only when there is no truthy `$oid`. Everything else, null and non-objects included, is copied. |
| SeedImport.ValueConversion | database-backup/import-data.js:57-86 | One conversion step grows the id table without overwriting entries. It uses at most one new id and keeps the table injective and older than the counter. The value converted is what its treatment says. An object `$oid` gets an id generated in this step, newer than every earlier one, and it leaves the table unchanged. |
| SeedImport.DocumentConversionFacts | database-backup/import-data.js:54-89 | A converted document has the input's field names in order. Every value agrees with the final table, and the table only grows with fresh ids. |
| SeedImport.DocumentFreshIds | database-backup/import-data.js:56-77 | In one document, each object `$oid` gets an id generated during the document's conversion. Later members get later ids, so no two are equal, and none equals an id in the table. |
| SeedImport.CollectionFreshIds | database-backup/import-data.js:54-89 | Across a collection, each object `$oid` gets an id generated during the collection's conversion. Later occurrences, by document and then by member, get later ids, so no two are equal. |
| SeedImport.CollectionConversionFacts | database-backup/import-data.js:54-89 | The number and order of documents are kept. Every field is converted against the collection's final table, which only grows. |
| SeedImport.SameInvalidOidSameReplacement | database-backup/import-data.js:64-70 | Within one collection, the same invalid `$oid` always gets the same replacement. |
| SeedImport.ImportFacts | database-backup/import-data.js:35-89 | Collections with a missing or empty array are skipped. The rest are inserted in the fixed order, each its seed array converted against some table. That the tables are separate is shown by `PerCollectionTablesSplitReferences`. |
| SeedImport.PerCollectionTablesSplitReferences | database-backup/import-data.js:50-69 | As written, an owner `_id` of `{$oid: "owner1"}` and a property's `idOwner` with the same value get different ids. |
| SeedImport.SharedIdsAgreeAcrossCollections | database-backup/import-data.js:50-69 | With one table for the run, every collection is converted against the same final table. References across collections are then kept. |
| SeedImport.SharedTableKeepsReferences | database-backup/import-data.js:50-69 | With one shared table, the owner and the referring property get the same id. |
| SeedImport.ObjectIdSupply.NewObjectId | database-backup/import-data.js:67 | Each call yields an id never given out before. |
| SeedImport.ConvertValue | database-backup/import-data.js:57-86 | One value is converted in place, and its effect on the table and counter equals `ValueConversion`. |
| SeedImport.ConvertDocument | database-backup/import-data.js:55-88 | The `for … of Object.entries(doc)` loop equals `DocumentConversion`. |
| SeedImport.ConvertCollection | database-backup/import-data.js:54-89 | The `dataArray.map` over documents equals `CollectionConversion`. |
| SeedImport.ImportData | database-backup/import-data.js:35-89 | The loop over the four collections, with a new table per collection, equals `Import`. |
| SeedImport.ImportDataSharingIds | database-backup/import-data.js:50-51 | The corrected loop, with one table created before the first collection, equals `ImportSharingIds`. |

## Left out

- The store driver is not modelled: client construction, connections, index creation, server collation, cancellation and `async`. Collections are sequences in stored order, and "first" is the head of that order.
- The pattern filters are not full regular expressions: metacharacters are not interpreted. A pattern is modelled as a literal substring, case-insensitive over ASCII letters only.
- Decimal128 is modelled as an exact `real`: its 34-digit precision and distinct encodings of the same value (`3.0` and `3.00`) are not.
- PropertyRepository.Repository.Update: the modified flag compares modelled values. The store compares encoded documents, where field order and numeric type count, for example a `double` price left by the seed data against a mapped Decimal128. So two different encodings of the same modelled document count as equal here, and the flag is false.
- PropertyRepository.Listing: the order among equal names is not promised. The sort is stable, but the contract fixes only sortedness and the permutation, as the store does.
- PropertyRepository.Repository.Create: the driver's id generation for an empty id is not modelled, and neither is a malformed-id error.
- PropertyRepository.Repository.Create, PropertyRepository.Repository.Update: `idOwner` is also stored as an object id. An `idOwner` that is not 24 hex digits (for example `owner1`) makes the driver throw while it serializes the document, so nothing is written and the route answers 500. The model stores such a value unchanged, with Create succeeding and Update reporting a modification.
- PropertyRepository.Repository.GetById, PropertyRepository.Repository.Update, PropertyRepository.Repository.Delete, PropertiesController.GetPropertyById: the id is stored as an object id. An id that is not 24 hex digits (for example `nonexistent`) makes the driver throw while it serializes the filter, and the route then answers 500. The model treats such an id as an unknown id, so it answers none, false and 404.
- Image lookups compare a property id as an exact string. `PropertyImage.cs` is not part of this model. Its lookups are only called with the id of a property read from the store, which is in stored form.
- The navigation members `Owner`, `Images` and `Traces` of a property are not modelled. They are never stored, so they are always null or empty on a property read from the store. The detail mapping copies `Owner` by name, so its owner is null exactly as modelled.
- The request mediator becomes direct calls of the handlers. The object mapper becomes explicit functions.
- The controller's logging, the global exception middleware (500 answers) and application start-up are not part of this model.
- GetPropertyByIdQueryHandler.Handle: the lookups it issues are recorded in a ghost sequence, not observed on real repositories.
- The web client's HTTP call is not modelled; nor are query-string percent-encoding (`application/x-www-form-urlencoded` serializing in the WHATWG URL Standard) and the printing of numbers by `toString`. Parameters are kept as a key/value list.
- The client's unit tests expect a different call shape than the code has. The model follows the code.
- All user-interface components are not part of this model: filters form, list, card, pages and layout.
- For the seed importer, file reading, JSON parsing, `drop`, `insertMany`, `countDocuments`, the console and the exit code are not modelled.
- Object id generation is not modelled: ids are numbered by a counter. Date parsing is not modelled either: a converted date keeps its source value.
- The importer's `catch` branch is not modelled separately. A string of 24 hex digits always makes a valid object id, so only an object `$oid` can reach it. An example is one with `length` 24 and a `toString` that is not a function, which makes the pattern test throw. The branch then gives a fresh id, keyed by the object's identity, as FreshOid does.
- The importer's seed arrays are lists of documents. A non-array or non-object seed value is not modelled. A missing and a `null` array are both an absent key.
- `convert-prices.js` and `fix-prices.js` are not part of this model.

## Findings

| source | as written | input that shows it | evidently intended | confidence | as-written member | corrected member |
|---|---|---|---|---|---|---|
| database-backup/import-data.js:50-51 | the id table that replaces invalid `$oid` values is created anew for every collection | owners `[{_id: {$oid: "owner1"}}]` and properties `[{idOwner: {$oid: "owner1"}}]`: the owner gets generated id 0, the property refers to generated id 1 | one table for the whole import, so references between collections survive, as the comment on line 50 says | medium, not executed | SeedImport.PerCollectionTablesSplitReferences | SeedImport.SharedIdsAgreeAcrossCollections |
