/**
 * The object-mapper profile, written out as conversions between entities and
 * DTOs. A member the profile ignores takes the default the destination
 * type's constructor gives it: the empty string for strings, `None` for the
 * owner, empty lists for images and traces, and the construction-time clock
 * reading `constructedAt` for the timestamps.
 */
module Mapping {
  import opened Core

  /** `k` is the position of the first enabled image. */
  predicate FirstEnabledAt(images: seq<PropertyImage>, k: int) {
    0 <= k < |images| && images[k].Enabled && forall j | 0 <= j < k :: !images[j].Enabled
  }

  /** `Images.FirstOrDefault(i => i.Enabled)`. */
  function FirstEnabled(images: seq<PropertyImage>): (r: Option<PropertyImage>)
    ensures r.None? <==> forall j | 0 <= j < |images| :: !images[j].Enabled
    ensures r.Some? ==> exists k :: FirstEnabledAt(images, k) && images[k] == r.value
  {
    if images == [] then None
    else if images[0].Enabled then
      assert FirstEnabledAt(images, 0);
      Some(images[0])
    else
      var r := FirstEnabled(images[1..]);
      if r.Some? then
        var k :| FirstEnabledAt(images[1..], k) && images[1..][k] == r.value;
        assert FirstEnabledAt(images, k + 1);
        r
      else
        r
  }

  /** The cover image: the first enabled image's file, or "" when none is enabled. */
  function CoverImage(images: seq<PropertyImage>): (r: string)
    ensures (forall j | 0 <= j < |images| :: !images[j].Enabled) ==> r == ""
    ensures forall k :: FirstEnabledAt(images, k) ==> r == images[k].File
  {
    match FirstEnabled(images)
    case None => ""
    case Some(i) => i.File
  }

  function ToOwnerDto(o: Owner): OwnerDto {
    OwnerDto(o.Id, o.IdOwner, o.Name, o.Address, o.Photo, o.Birthday)
  }

  /** `OwnerDto -> Owner`: `Id`, `CreatedAt` and `UpdatedAt` are ignored. */
  function FromOwnerDto(d: OwnerDto, constructedAt: DateTime): Owner {
    Owner("", d.IdOwner, d.Name, d.Address, d.Photo, d.Birthday, constructedAt, constructedAt)
  }

  /** `Owner? -> OwnerDto?`. */
  function ToOwnerDtoOption(o: Option<Owner>): Option<OwnerDto> {
    match o
    case None => None
    case Some(v) => Some(ToOwnerDto(v))
  }

  /** `Property -> PropertyDto`; `Image` is the cover image, never null. */
  function ToPropertyDto(p: Property): PropertyDto {
    PropertyDto(p.Id, p.IdOwner, p.Name, p.Address, p.Price, Some(CoverImage(p.Images)),
                p.CodeInternal, p.Year, ToOwnerDtoOption(p.Owner))
  }

  /**
   * `PropertyDto -> Property`: `Id`, the timestamps, `Owner`, `Images` and
   * `Traces` are ignored, and `IdProperty`, which the DTO does not have,
   * stays empty.
   */
  function FromPropertyDto(d: PropertyDto, constructedAt: DateTime): Property {
    Property("", "", d.Name, d.Address, d.Price, d.CodeInternal, d.Year, d.IdOwner,
             constructedAt, constructedAt, None, [], [])
  }

  function ToImageDto(i: PropertyImage): PropertyImageDto {
    PropertyImageDto(i.Id, i.File, i.Enabled)
  }

  function ToTraceDto(t: PropertyTrace): PropertyTraceDto {
    PropertyTraceDto(t.Id, t.DateSale, t.Name, t.Value, t.Tax)
  }

  /** A list of images mapped element by element. */
  function ToImageDtos(s: seq<PropertyImage>): (r: seq<PropertyImageDto>)
    ensures |r| == |s|
    ensures forall i | 0 <= i < |s| :: r[i] == ToImageDto(s[i])
  {
    if s == [] then [] else [ToImageDto(s[0])] + ToImageDtos(s[1..])
  }

  /** A list of traces mapped element by element. */
  function ToTraceDtos(s: seq<PropertyTrace>): (r: seq<PropertyTraceDto>)
    ensures |r| == |s|
    ensures forall i | 0 <= i < |s| :: r[i] == ToTraceDto(s[i])
  {
    if s == [] then [] else [ToTraceDto(s[0])] + ToTraceDtos(s[1..])
  }

  /** `Property -> PropertyDetailDto`: the list fields plus the same cover-image rule. */
  function ToPropertyDetailDto(p: Property): PropertyDetailDto {
    PropertyDetailDto(ToPropertyDto(p), ToImageDtos(p.Images), ToTraceDtos(p.Traces))
  }

  // ---------------------------------------------------------------------
  // Properties of the profile

  /** Property -> DTO copies the scalar fields and maps the owner. */
  lemma PropertyDtoCopiesFields(p: Property)
    ensures var d := ToPropertyDto(p);
      && d.Id == p.Id && d.IdOwner == p.IdOwner && d.Name == p.Name
      && d.Address == p.Address && d.Price == p.Price
      && d.CodeInternal == p.CodeInternal && d.Year == p.Year
      && d.Owner.Some? == p.Owner.Some?
      && (p.Owner.Some? ==> d.Owner.value.IdOwner == p.Owner.value.IdOwner)
  {
  }

  /** The detail DTO carries exactly what the list DTO carries, plus the lists. */
  lemma DetailExtendsListDto(p: Property)
    ensures ToPropertyDetailDto(p).Base == ToPropertyDto(p)
    ensures |ToPropertyDetailDto(p).Images| == |p.Images|
    ensures |ToPropertyDetailDto(p).Traces| == |p.Traces|
  {
  }

  /** Whatever a DTO says about `Id`, `Image` or `Owner` never reaches the entity. */
  lemma FromPropertyDtoIgnores(d: PropertyDto, id: string, image: Option<string>,
                               owner: Option<OwnerDto>, constructedAt: DateTime)
    ensures FromPropertyDto(d.(Id := id, Image := image, Owner := owner), constructedAt)
         == FromPropertyDto(d, constructedAt)
  {
  }

  /** Whatever a DTO says about `Id` never reaches the owner entity. */
  lemma FromOwnerDtoIgnores(d: OwnerDto, id: string, constructedAt: DateTime)
    ensures FromOwnerDto(d.(Id := id), constructedAt) == FromOwnerDto(d, constructedAt)
  {
  }

  /** Owner -> DTO -> Owner keeps everything but the storage id and the timestamps. */
  lemma OwnerRoundTrip(o: Owner, constructedAt: DateTime)
    ensures FromOwnerDto(ToOwnerDto(o), constructedAt)
         == o.(Id := "", CreatedAt := constructedAt, UpdatedAt := constructedAt)
  {
  }

  /** DTO -> Owner -> DTO keeps everything but the id. */
  lemma OwnerDtoRoundTrip(d: OwnerDto, constructedAt: DateTime)
    ensures ToOwnerDto(FromOwnerDto(d, constructedAt)) == d.(Id := "")
  {
  }

  /** DTO -> Property -> DTO loses the id, the owner and the cover image. */
  lemma PropertyDtoRoundTrip(d: PropertyDto, constructedAt: DateTime)
    ensures ToPropertyDto(FromPropertyDto(d, constructedAt))
         == d.(Id := "", Image := Some(""), Owner := None)
  {
  }

  /**
   * Property -> DTO -> Property loses the storage id, the navigation fields,
   * the timestamps and also the business id `IdProperty`.
   */
  lemma PropertyRoundTrip(p: Property, constructedAt: DateTime)
    ensures FromPropertyDto(ToPropertyDto(p), constructedAt)
         == p.(Id := "", IdProperty := "", CreatedAt := constructedAt, UpdatedAt := constructedAt,
               Owner := None, Images := [], Traces := [])
  {
  }

  /** Over a list of enabled images only, the cover is simply the first one. */
  lemma CoverOfEnabledImages(images: seq<PropertyImage>)
    requires forall j | 0 <= j < |images| :: images[j].Enabled
    ensures CoverImage(images) == if images == [] then "" else images[0].File
  {
    if images != [] {
      assert FirstEnabledAt(images, 0);
    }
  }
}
