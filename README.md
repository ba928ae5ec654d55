# Real-estate listing backend: a verified model of its repositories, services and mapping rules

The backend keeps four MongoDB collections (owners, properties, property
images, property traces) behind two repositories, and two services that
compose repository calls and convert entities to DTOs through a mapping
profile. This project models that core in Dafny, with each collection as a
sequence of documents in natural order. It proves what the code decides:

- the filtered, paginated listing;
- the first-match lookups;
- insert, replace and delete by storage id;
- the enabled-image and newest-first trace queries;
- the services' create, update, get, delete and list compositions;
- the entity/DTO conversions, including the cover-image rule.

Modules:

- `Core` (`core.dfy`): the entities (`Owner`, `Property`, `PropertyImage`,
  `PropertyTrace`), the DTOs, the listing filter and the paged result, and
  `Option`/`Result`. A C# `decimal` is an exact `int` and a `DateTime` is its
  tick count. `PropertyDetailDto` extends `PropertyDto` in the source; here
  its inherited part is the field `Base`.
- `Table` (`table.dfy`): a collection's single-document operations, each
  acting on the first document whose key matches. They are
  `Find(...).FirstOrDefault()` (`FindFirst`), `ReplaceOne` (an update at
  `IndexOf`) and `DeleteOne`.
- `Mapping` (`mapping.dfy`): the mapping profile as pure conversion functions.
- `PropertyStore` (`property_repository.dfy`): class `PropertyRepository`.
  It holds the three collections a property needs. Queries are functions of
  them and writes are methods.
- `OwnerStore` (`owner_repository.dfy`): class `OwnerRepository`.
- `PropertyServices` (`property_service.dfy`), `OwnerServices`
  (`owner_service.dfy`): the services, as classes over the repositories.

Inputs that the code draws from the runtime are parameters:

- The clock. The repositories read `DateTime.UtcNow` twice on create, so
  they take two readings (`createdAt`, `updatedAt`). An update reads it once
  (`now`). What an entity's constructor puts in its timestamps is one
  reading, `constructedAt`.
- Fresh ids. `newId` is the ObjectId the driver generates when a document
  has no storage id. `newIdProperty`/`newIdOwner` stand for
  `Guid.NewGuid().ToString()`.
- The regular-expression test. `regexMatch(pattern, text)` stands for a
  case-insensitive match of an unescaped pattern. Any such test may be given.

Facts of the model worth knowing:

- Storage ids are unique and non-empty. Every repository's `Valid()`
  states this, and every write keeps it. A property's navigation fields
  (`Owner`, `Images`, `Traces`) are `[BsonIgnore]`, so a stored property
  never holds them (`IsDocument`, `AsDocument`).
- Inserting a document whose id is already taken fails with `DuplicateKey`.
  A replacement whose storage id differs from the matched document's fails
  with `ImmutableId`. These are the database's own write errors. The
  services are proved never to reach either.
- `PropertyDto` has no `IdProperty`, so updating a property through the
  service writes an empty business id back. This is modelled as the code does
  it (`PropertyServices.PropertyService.UpdateProperty`,
  `Mapping.PropertyRoundTrip`).
- The service update reads the property, then replaces it. In this
  sequential model the replace always matches, so its "null after the write"
  branch cannot happen.

- The name and address filters are unescaped, case-insensitive regular
  expressions, not substring tests.
- A property update through the service does not keep every field it was
  not given: it also clears `IdProperty`.
- The DTO that property creation returns has no business id. Its `Id` is the
  generated storage id.

## Model

| member | source | states |
|---|---|---|
| `Table.IndexOf` | Backend/RealState.Infrastructure/Repositories/PropertyRepository.cs:71 | the position of the first document with the key, or none exactly when no document has it |
| `Table.FindFirst` | Backend/RealState.Infrastructure/Repositories/OwnerRepository.cs:22 | `Find(key == id).FirstOrDefault()`: none exactly when no document has the key; otherwise the first document of the collection, in natural order, with that key |
| `Table.RemoveAt` | Backend/RealState.Infrastructure/Repositories/PropertyRepository.cs:91 | removing one document keeps every other document, in order |
| `Table.DeleteOne` | Backend/RealState.Infrastructure/Repositories/PropertyRepository.cs:91-92 | reports a deletion exactly when some document had the key; the collection is unchanged when none did; otherwise exactly the first document with the key is removed and the others stay, in order |
| `Table.IndexOfUnique` | Backend/RealState.Infrastructure/Repositories/PropertyRepository.cs:71 | with unique keys, the first match for a document's key is that document |
| `Table.IndexOfAppended` | Backend/RealState.Infrastructure/Repositories/PropertyRepository.cs:78 | a document appended under a new key is the one a lookup by that key finds |
| `Table.DeleteOneRemovesKey` | Backend/RealState.Infrastructure/Repositories/OwnerRepository.cs:47-48 | after a delete by a unique key, no document has the key and keys stay unique |
| `Table.ReplaceKeepsUnique` | Backend/RealState.Infrastructure/Repositories/OwnerRepository.cs:41 | replacing a document by one with the same key keeps keys unique |
| `Table.AppendKeepsUnique` | Backend/RealState.Infrastructure/Repositories/OwnerRepository.cs:34 | inserting under an unused key keeps keys unique |
| `Core.AsDocument` | Backend/RealState.Core/Entities/Property.cs:39-47 | the stored form of a property has no owner, images or traces, and keeps every other field of the property |
| `Mapping.FirstEnabled` | RealState.Application/Mappings/MappingProfile.cs:14 | `FirstOrDefault(i => i.Enabled)`: none exactly when no image is enabled; otherwise the image at the first enabled position |
| `Mapping.CoverImage` | RealState.Application/Mappings/MappingProfile.cs:12-14 | the cover image is the file of the first enabled image, or "" when no image is enabled |
| `Mapping.ToImageDtos` | RealState.Application/Mappings/MappingProfile.cs:36 | the image list keeps its length and order, each element mapped |
| `Mapping.ToTraceDtos` | RealState.Application/Mappings/MappingProfile.cs:39 | the trace list keeps its length and order, each element mapped |
| `Mapping.ToPropertyDto` | RealState.Application/Mappings/MappingProfile.cs:12-14 | the `Property -> PropertyDto` rule; its contract is stated by `PropertyDtoCopiesFields`, `CoverImage` and the round-trip lemmas |
| `Mapping.FromPropertyDto` | RealState.Application/Mappings/MappingProfile.cs:20-26 | the `PropertyDto -> Property` rule; its contract is stated by `FromPropertyDtoIgnores`, `PropertyDtoRoundTrip` and `PropertyRoundTrip` |
| `Mapping.ToOwnerDto` | RealState.Application/Mappings/MappingProfile.cs:29 | the `Owner -> OwnerDto` rule; its contract is stated by `OwnerRoundTrip` and `OwnerDtoRoundTrip` |
| `Mapping.FromOwnerDto` | RealState.Application/Mappings/MappingProfile.cs:30-33 | the `OwnerDto -> Owner` rule; its contract is stated by `FromOwnerDtoIgnores`, `OwnerRoundTrip` and `OwnerDtoRoundTrip` |
| `Mapping.ToOwnerDtoOption` | RealState.Application/Mappings/MappingProfile.cs:29 | a missing owner maps to a missing DTO; its contract is stated by `PropertyDtoCopiesFields` |
| `Mapping.ToImageDto` | RealState.Application/Mappings/MappingProfile.cs:36 | the `PropertyImage -> PropertyImageDto` rule, applied element-wise by `ToImageDtos` |
| `Mapping.ToTraceDto` | RealState.Application/Mappings/MappingProfile.cs:39 | the `PropertyTrace -> PropertyTraceDto` rule, applied element-wise by `ToTraceDtos` |
| `Mapping.ToPropertyDetailDto` | RealState.Application/Mappings/MappingProfile.cs:16-18 | the `Property -> PropertyDetailDto` rule; its contract is stated by `DetailExtendsListDto` |
| `Mapping.PropertyDtoCopiesFields` | RealState.Application/Mappings/MappingProfile.cs:12 | Property to DTO copies Id, IdOwner, Name, Address, Price, CodeInternal and Year, and maps the owner when there is one |
| `Mapping.DetailExtendsListDto` | RealState.Application/Mappings/MappingProfile.cs:16-18 | the detail DTO carries the same cover image and fields as the list DTO, and lists as long as the entity's |
| `Mapping.FromPropertyDtoIgnores` | RealState.Application/Mappings/MappingProfile.cs:20-26 | a DTO's Id, Image and Owner never reach the entity |
| `Mapping.FromOwnerDtoIgnores` | RealState.Application/Mappings/MappingProfile.cs:30-33 | an owner DTO's Id never reaches the entity |
| `Mapping.OwnerRoundTrip` | RealState.Application/Mappings/MappingProfile.cs:29-33 | Owner to DTO to Owner keeps IdOwner, Name, Address, Photo and Birthday, and resets only Id and the timestamps |
| `Mapping.OwnerDtoRoundTrip` | RealState.Application/Mappings/MappingProfile.cs:29-33 | DTO to Owner to DTO keeps everything except Id |
| `Mapping.PropertyDtoRoundTrip` | RealState.Application/Mappings/MappingProfile.cs:12-26 | DTO to Property to DTO loses only Id, Owner and the cover image (which becomes "") |
| `Mapping.PropertyRoundTrip` | RealState.Application/Mappings/MappingProfile.cs:12-26 | Property to DTO to Property loses Id, the timestamps, the navigation fields, and also IdProperty |
| `Mapping.CoverOfEnabledImages` | RealState.Application/Mappings/MappingProfile.cs:13-14 | over a list of enabled images, such as the image query returns, the cover is the first image's file |
| `PropertyStore.Filtered` | Backend/RealState.Infrastructure/Repositories/PropertyRepository.cs:28-55 | every listed document is in the collection and meets every supplied condition (name and address regex when non-empty, Price >= MinPrice, Price <= MaxPrice); every such document is listed, exactly as many times as the collection holds it |
| `PropertyStore.CountIsFilteredLength` | Backend/RealState.Infrastructure/Repositories/PropertyRepository.cs:52-55 | the separate count query counts exactly the documents the listing query finds |
| `PropertyStore.FilteredIgnoresPaging` | Backend/RealState.Infrastructure/Repositories/PropertyRepository.cs:28-50 | which documents match does not depend on Page or PageSize |
| `PropertyStore.CountMatching` | Backend/RealState.Infrastructure/Repositories/PropertyRepository.cs:52 | `CountDocuments(filter)`: at most the collection's size; zero exactly when no document matches, the whole size exactly when every document does |
| `PropertyStore.ConsecutivePages` | Backend/RealState.Infrastructure/Repositories/PropertyRepository.cs:56-57 | the first page starts at offset 0, and page n+1 starts where page n ends, so no matching document is shown twice or skipped between pages |
| `PropertyStore.Slice` | Backend/RealState.Infrastructure/Repositories/PropertyRepository.cs:56-57 | Skip/Limit yields at most `limit` documents, the ones from offset `skip` on, none when the offset is past the end |
| `PropertyStore.EnabledImagesOf` | Backend/RealState.Infrastructure/Repositories/PropertyRepository.cs:97-98 | exactly the enabled images of the given property, each as many times as the collection holds it |
| `PropertyStore.TracesOf` | Backend/RealState.Infrastructure/Repositories/PropertyRepository.cs:105 | exactly the traces of the given property, each as many times as the collection holds it |
| `PropertyStore.InsertAddsOne` | Backend/RealState.Infrastructure/Repositories/PropertyRepository.cs:106 | inserting into the sorted list adds exactly the one trace |
| `PropertyStore.InsertTakesFrom` | Backend/RealState.Infrastructure/Repositories/PropertyRepository.cs:106 | inserting into the sorted list introduces no other trace |
| `PropertyStore.InsertKeepsSorted` | Backend/RealState.Infrastructure/Repositories/PropertyRepository.cs:106 | inserting into a newest-first list keeps it newest-first |
| `PropertyStore.SortByDateSaleDesc` | Backend/RealState.Infrastructure/Repositories/PropertyRepository.cs:106 | the result is in non-increasing DateSale order and is a permutation of the input |
| `PropertyStore.PropertyRepository.GetProperties` | Backend/RealState.Infrastructure/Repositories/PropertyRepository.cs:26-67 | Page and PageSize are echoed; TotalCount is the number of matching documents; the items are exactly the slice of the matching documents from offset (Page-1)*PageSize, PageSize of them, fewer on the last page, none past the end; each meets every condition |
| `PropertyStore.PropertyRepository.TotalCountIgnoresPaging` | Backend/RealState.Infrastructure/Repositories/PropertyRepository.cs:52-63 | TotalCount is the same whatever Page and PageSize are |
| `PropertyStore.PropertyRepository.GetPropertyById` | Backend/RealState.Infrastructure/Repositories/PropertyRepository.cs:69-72 | none exactly when no property has the storage id; otherwise a stored property with that id |
| `PropertyStore.PropertyRepository.CreateProperty` | Backend/RealState.Infrastructure/Repositories/PropertyRepository.cs:74-80 | sets CreatedAt and UpdatedAt to the clock readings, assigns the generated id when the id is empty, inserts exactly one document at the end, leaves the rest unchanged and returns the stamped property; a taken id is refused with nothing written |
| `PropertyStore.PropertyRepository.UpdateProperty` | Backend/RealState.Infrastructure/Repositories/PropertyRepository.cs:82-87 | refreshes UpdatedAt and replaces the document with the matching id, returning the new value; returns none and writes nothing when no id matches |
| `PropertyStore.PropertyRepository.DeleteProperty` | Backend/RealState.Infrastructure/Repositories/PropertyRepository.cs:89-93 | returns true exactly when a document with the id existed; afterwards a lookup by that id finds nothing |
| `PropertyStore.PropertyRepository.GetPropertyImages` | Backend/RealState.Infrastructure/Repositories/PropertyRepository.cs:95-100 | only, and all of, the images with that IdProperty and Enabled = true, each as many times as the collection holds it |
| `PropertyStore.PropertyRepository.GetPropertyTraces` | Backend/RealState.Infrastructure/Repositories/PropertyRepository.cs:102-108 | all and only that property's traces, each as many times as the collection holds it, in non-increasing DateSale order |
| `OwnerStore.OwnerRepository.GetOwnerById` | Backend/RealState.Infrastructure/Repositories/OwnerRepository.cs:20-23 | none exactly when no owner has the storage id; otherwise a stored owner with that id |
| `OwnerStore.OwnerRepository.GetOwnerByIdOwner` | Backend/RealState.Infrastructure/Repositories/OwnerRepository.cs:25-28 | none exactly when no owner has the business id; otherwise the first owner, in collection order, that has it |
| `OwnerStore.OwnerRepository.CreateOwner` | Backend/RealState.Infrastructure/Repositories/OwnerRepository.cs:30-36 | sets both timestamps to the clock readings, assigns the generated id when empty, and inserts exactly one owner; a taken id is refused with nothing written |
| `OwnerStore.OwnerRepository.UpdateOwner` | Backend/RealState.Infrastructure/Repositories/OwnerRepository.cs:38-43 | replaces the owner with the matching id and returns it, leaving every other owner untouched; returns none with nothing written when no id matches |
| `OwnerStore.OwnerRepository.DeleteOwner` | Backend/RealState.Infrastructure/Repositories/OwnerRepository.cs:45-49 | returns true exactly when an owner was removed; the others stay, in order; afterwards lookup by that id finds nothing |
| `PropertyServices.PropertyService.ListItem` | Backend/RealState.Application/Services/PropertyService.cs:34-41 | a listed item keeps the property's Id, IdOwner, Name, Address and Price; its cover is the file of the property's first enabled image, or "" when it has none; its owner is present exactly when some owner has the item's IdOwner, and is then the DTO of the first such owner in collection order |
| `PropertyServices.PropertyService.Loaded` | Backend/RealState.Application/Services/PropertyService.cs:61-67 | the loaded property keeps every stored field; its images are exactly the property's enabled images and its traces exactly the property's traces, each as many times as its collection holds it, the traces newest first; its owner is present exactly when some owner has its IdOwner, and is then the first such stored owner |
| `PropertyServices.DtosSatisfyFilter` | Backend/RealState.Application/Services/PropertyService.cs:31-43 | DTOs that copy their items' Name, Address and Price meet the filter the items met |
| `PropertyServices.PropertyService.MapPageItems` | Backend/RealState.Application/Services/PropertyService.cs:31-43 | the loop yields one DTO per page item, in order, each mapped with its enabled images and its owner looked up by IdOwner |
| `PropertyServices.PropertyService.GetProperties` | Backend/RealState.Application/Services/PropertyService.cs:25-52 | the list has the store page's length and order, each item carrying its owner (none if none) and its cover image; TotalCount, Page and PageSize are copied; every item meets the filter |
| `PropertyServices.PropertyService.GetPropertyById` | Backend/RealState.Application/Services/PropertyService.cs:54-70 | none exactly when the store has no property with the id; otherwise the detail DTO of that property as `Loaded` gives it: all of its enabled images, all of its traces newest first, and the first owner with its IdOwner |
| `PropertyServices.PropertyService.CreateProperty` | Backend/RealState.Application/Services/PropertyService.cs:72-79 | stores the mapped DTO under the generated storage id with the fresh IdProperty; the result keeps the DTO's Name, Price, Address and IdOwner |
| `PropertyServices.PropertyService.UpdateProperty` | Backend/RealState.Application/Services/PropertyService.cs:81-93 | a missing id returns none with no write; otherwise the stored document keeps the id and the existing CreatedAt, gets UpdatedAt = now, and has an empty IdProperty |
| `PropertyServices.PropertyService.DeleteProperty` | Backend/RealState.Application/Services/PropertyService.cs:95-98 | returns exactly the store's result |
| `OwnerServices.OwnerService.GetOwnerById` | RealState.Application/Services/OwnerService.cs:20-24 | none exactly when the store has no owner with the id; otherwise the DTO of a stored owner with that id |
| `OwnerServices.OwnerService.GetOwnerByIdOwner` | RealState.Application/Services/OwnerService.cs:26-30 | none exactly when no owner has the business id; otherwise the DTO of the first owner, in collection order, with that IdOwner |
| `OwnerServices.OwnerService.CreateOwner` | RealState.Application/Services/OwnerService.cs:32-39 | discards the client's IdOwner for the fresh one, keeps Name, Address, Photo and Birthday; when the fresh id was unused, lookup by it returns the new owner |
| `OwnerServices.OwnerService.UpdateOwner` | RealState.Application/Services/OwnerService.cs:41-53 | a missing id returns none with no write; otherwise keeps Id and the existing CreatedAt and takes IdOwner from the DTO |
| `OwnerServices.OwnerService.DeleteOwner` | RealState.Application/Services/OwnerService.cs:55-58 | returns exactly the store's result |

## Left out

- The MongoDB driver itself is not modelled: connections, the regex engine,
  ObjectId generation and format, serialization errors, and how
  `ReplaceOne`/`DeleteOne` work inside. Each collection is a sequence in
  natural order, and an unsorted `Find` returns documents in that order.
- ObjectId uniqueness: the repositories' create methods require the
  generated `newId` to be non-empty and unused, as the generator promises.
- `PropertyStore.PropertyRepository.GetPropertyTraces`: the database leaves
  the order of traces with the same `DateSale` unspecified. The contract says
  only "newest first and a permutation". The model's own function chooses
  one order among traces with equal `DateSale`. No lemma depends on that
  order, but `PropertyServices.PropertyService.GetPropertyById`'s contract
  inherits it through `Loaded`.
- Page and PageSize of at least 1 are preconditions. The database's
  behaviour for other values is not modelled (a negative skip is an error;
  `Limit(0)` means no limit).
- 32-bit overflow of `(int)totalCount` and of `(Page-1)*PageSize` is not
  modelled.
- Asynchrony, concurrency and last-write-wins races are not modelled; the
  model is sequential.
- Aliasing is not modelled: entities are values. The source assigns
  `Images`/`Owner` on the page's entity objects and stamps timestamps on the
  argument object. Here each repository write returns the stamped value,
  and the database keeps its own copy in both versions.
- An entity constructor reads the clock once per timestamp. The model uses
  one reading, `constructedAt`, because every service path overwrites those
  defaults before a write.
- Controllers, `Program.cs`, the seeder and the whole frontend are not part
  of this model. They handle HTTP status mapping, dependency injection,
  fixture loading and UI.
- `PagedResultDto`'s derived fields (`TotalPages`, `HasNextPage`,
  `HasPreviousPage`) are not modelled.
- `PropertyFilterDto`, `PagedResultDto`, `PropertyImage` and `PropertyTrace`
  are rebuilt from how the repositories, services, DTOs and seeder use them.
