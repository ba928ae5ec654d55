/**
 * The entities and transport objects of the real-estate listing backend.
 *
 * Entities are the documents of the four MongoDB collections (owners,
 * properties, property images, property traces); DTOs are the shapes the
 * services hand to the HTTP layer. Every entity is a value: the database
 * keeps a serialized copy of what it is given, so nothing the caller does to
 * an object afterwards reaches the stored document.
 */
module Core {

  datatype Option<+T> = None | Some(value: T)

  /** Errors the database reports as exceptions on a write. */
  datatype StoreError =
    | DuplicateKey(id: string)   // inserting a document whose _id is taken
    | ImmutableId(id: string)    // replacing a document by one with another _id

  datatype Result<+T> = Ok(value: T) | Err(error: StoreError)

  /** A `DateTime`, as its tick count. */
  type DateTime = int

  /** A C# `decimal`: an exact number, never rounded by these operations. */
  type Decimal = int

  datatype Owner = Owner(
    Id: string,             // storage id (_id, an ObjectId)
    IdOwner: string,        // business id
    Name: string,
    Address: string,
    Photo: Option<string>,
    Birthday: DateTime,
    CreatedAt: DateTime,
    UpdatedAt: DateTime)

  datatype PropertyImage = PropertyImage(
    Id: string,
    IdPropertyImage: string,
    IdProperty: string,     // business id of the owning property
    File: string,
    Enabled: bool)

  datatype PropertyTrace = PropertyTrace(
    Id: string,
    IdPropertyTrace: string,
    DateSale: DateTime,
    Name: string,
    Value: Decimal,
    Tax: Decimal,
    IdProperty: string)     // business id of the owning property

  /**
   * A property. `Owner`, `Images` and `Traces` are navigation fields that
   * are never stored; the services fill them in after a read.
   */
  datatype Property = Property(
    Id: string,             // storage id (_id, an ObjectId)
    IdProperty: string,     // business id
    Name: string,
    Address: string,
    Price: Decimal,
    CodeInternal: string,
    Year: int,
    IdOwner: string,        // business id of the owner (not enforced)
    CreatedAt: DateTime,
    UpdatedAt: DateTime,
    Owner: Option<Owner>,
    Images: seq<PropertyImage>,
    Traces: seq<PropertyTrace>)

  /** The shape in which a property is kept in its collection. */
  predicate IsDocument(p: Property) {
    p.Owner == None && p.Images == [] && p.Traces == []
  }

  /** What the database keeps of a property: everything but its navigation fields. */
  function AsDocument(p: Property): (d: Property)
    ensures IsDocument(d)
    ensures d.(Owner := p.Owner, Images := p.Images, Traces := p.Traces) == p
  {
    p.(Owner := None, Images := [], Traces := [])
  }

  datatype OwnerDto = OwnerDto(
    Id: string,
    IdOwner: string,
    Name: string,
    Address: string,
    Photo: Option<string>,
    Birthday: DateTime)

  /** Note that there is no `IdProperty` here. */
  datatype PropertyDto = PropertyDto(
    Id: string,
    IdOwner: string,
    Name: string,
    Address: string,
    Price: Decimal,
    Image: Option<string>,  // the cover image
    CodeInternal: string,
    Year: int,
    Owner: Option<OwnerDto>)

  datatype PropertyImageDto = PropertyImageDto(Id: string, File: string, Enabled: bool)

  datatype PropertyTraceDto = PropertyTraceDto(
    Id: string,
    DateSale: DateTime,
    Name: string,
    Value: Decimal,
    Tax: Decimal)

  /** `PropertyDetailDto` extends `PropertyDto`; `Base` holds the inherited fields. */
  datatype PropertyDetailDto = PropertyDetailDto(
    Base: PropertyDto,
    Images: seq<PropertyImageDto>,
    Traces: seq<PropertyTraceDto>)

  /** The query of a property listing; every condition is optional. */
  datatype PropertyFilter = PropertyFilter(
    Name: Option<string>,
    Address: Option<string>,
    MinPrice: Option<Decimal>,
    MaxPrice: Option<Decimal>,
    Page: int,
    PageSize: int)

  datatype PagedResult<T> = PagedResult(
    Items: seq<T>,
    TotalCount: int,
    Page: int,
    PageSize: int)

  // Projections used as keys of the tables.
  function PropertyId(p: Property): string { p.Id }
  function OwnerId(o: Owner): string { o.Id }
  function OwnerBusinessId(o: Owner): string { o.IdOwner }
}
