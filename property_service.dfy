/**
 * The property service: composes the property and owner repositories and
 * maps their entities to DTOs.
 */
module PropertyServices {
  import opened Core
  import opened Table
  import opened Mapping
  import opened PropertyStore
  import opened OwnerStore

  /** The fields a listing filter looks at are the same in the DTO and the entity. */
  predicate SameListedFields(d: PropertyDto, p: Property) {
    d.Name == p.Name && d.Address == p.Address && d.Price == p.Price
  }

  lemma DtosSatisfyFilter(items: seq<Property>, dtos: seq<PropertyDto>,
                          f: PropertyFilter, regexMatch: RegexMatch)
    requires |items| == |dtos|
    requires forall p <- items :: Matches(f, regexMatch, p)
    requires forall i | 0 <= i < |dtos| :: SameListedFields(dtos[i], items[i])
    ensures forall d <- dtos :: SatisfiesFilter(f, regexMatch, d.Name, d.Address, d.Price)
  {
    forall d <- dtos ensures SatisfiesFilter(f, regexMatch, d.Name, d.Address, d.Price) {
      var i :| 0 <= i < |dtos| && dtos[i] == d;
      assert SameListedFields(dtos[i], items[i]) && items[i] in items;
    }
  }

  class PropertyService {
    const properties: PropertyRepository
    const owners: OwnerRepository

    constructor(properties: PropertyRepository, owners: OwnerRepository)
      ensures this.properties == properties && this.owners == owners
    {
      this.properties := properties;
      this.owners := owners;
    }

    /**
     * A page item with its enabled images and its owner loaded, as a DTO: the
     * listed fields are the item's, the cover is the file of the property's
     * first enabled image (or ""), and the owner is the one whose business id
     * the item names, when there is one.
     */
    function ListItem(p: Property): (r: PropertyDto)
      reads properties, owners
      ensures SameListedFields(r, p) && r.Id == p.Id && r.IdOwner == p.IdOwner
      ensures var images := properties.GetPropertyImages(p.IdProperty);
        r.Image == Some(if images == [] then "" else images[0].File)
      ensures r.Owner.None? <==> !HasKey(owners.owners, OwnerBusinessId, p.IdOwner)
      ensures r.Owner.Some? ==> r.Owner.value.IdOwner == p.IdOwner
      ensures r.Owner.Some? ==> exists i | 0 <= i < |owners.owners| ::
        && owners.owners[i].IdOwner == p.IdOwner && r.Owner.value == ToOwnerDto(owners.owners[i])
        && forall j | 0 <= j < i :: owners.owners[j].IdOwner != p.IdOwner
    {
      var images := properties.GetPropertyImages(p.IdProperty);
      CoverOfEnabledImages(images);
      ToPropertyDto(p.(Images := images, Owner := owners.GetOwnerByIdOwner(p.IdOwner)))
    }

    /**
     * A property with its enabled images, its traces newest first and its
     * owner loaded; every stored field is kept.
     */
    function Loaded(p: Property): (r: Property)
      reads properties, owners
      ensures r.(Owner := p.Owner, Images := p.Images, Traces := p.Traces) == p
      ensures forall i <- r.Images :: i in properties.images && i.Enabled && i.IdProperty == p.IdProperty
      ensures forall i <- properties.images :: i.IdProperty == p.IdProperty && i.Enabled ==> i in r.Images
      ensures forall i :: (multiset(r.Images)[i] ==
        if i.IdProperty == p.IdProperty && i.Enabled then multiset(properties.images)[i] else 0)
      ensures SortedByDateSaleDesc(r.Traces)
      ensures multiset(r.Traces) == multiset(TracesOf(properties.traces, p.IdProperty))
      ensures forall t :: (multiset(r.Traces)[t] ==
        if t.IdProperty == p.IdProperty then multiset(properties.traces)[t] else 0)
      ensures forall t <- r.Traces :: t in properties.traces && t.IdProperty == p.IdProperty
      ensures forall t <- properties.traces :: t.IdProperty == p.IdProperty ==> t in r.Traces
      ensures r.Owner.None? <==> !HasKey(owners.owners, OwnerBusinessId, p.IdOwner)
      ensures r.Owner.Some? ==> exists i | 0 <= i < |owners.owners| ::
        && owners.owners[i] == r.Owner.value && r.Owner.value.IdOwner == p.IdOwner
        && forall j | 0 <= j < i :: owners.owners[j].IdOwner != p.IdOwner
    {
      p.(Images := properties.GetPropertyImages(p.IdProperty),
         Traces := properties.GetPropertyTraces(p.IdProperty),
         Owner := owners.GetOwnerByIdOwner(p.IdOwner))
    }

    /**
     * The repository's page, each item mapped with its images and owner, in
     * the page's order; the total and the paging fields are copied.
     */
    method GetProperties(filter: PropertyFilter, regexMatch: RegexMatch) returns (r: PagedResult<PropertyDto>)
      requires filter.Page >= 1 && filter.PageSize >= 1
      ensures var page := properties.GetProperties(filter, regexMatch);
        && |r.Items| == |page.Items|
        && (forall i | 0 <= i < |r.Items| :: r.Items[i] == ListItem(page.Items[i]))
        && r.TotalCount == page.TotalCount && r.Page == page.Page && r.PageSize == page.PageSize
      ensures forall d <- r.Items :: SatisfiesFilter(filter, regexMatch, d.Name, d.Address, d.Price)
      ensures |r.Items| <= filter.PageSize && |r.Items| <= r.TotalCount
    {
      var page := properties.GetProperties(filter, regexMatch);
      var dtos := MapPageItems(page.Items);
      r := PagedResult(dtos, page.TotalCount, page.Page, page.PageSize);
      DtosSatisfyFilter(page.Items, dtos, filter, regexMatch);
    }

    /** The loop of the listing: load each item's images and owner, map it, append it. */
    method MapPageItems(items: seq<Property>) returns (dtos: seq<PropertyDto>)
      ensures |dtos| == |items|
      ensures forall i | 0 <= i < |items| :: dtos[i] == ListItem(items[i])
      ensures forall i | 0 <= i < |items| :: SameListedFields(dtos[i], items[i])
    {
      dtos := [];
      var k := 0;
      while k < |items|
        invariant 0 <= k <= |items|
        invariant |dtos| == k
        invariant forall i | 0 <= i < k :: dtos[i] == ListItem(items[i])
      {
        var property := items[k];
        var images := properties.GetPropertyImages(property.IdProperty);
        property := property.(Images := images);
        var owner := owners.GetOwnerByIdOwner(property.IdOwner);
        property := property.(Owner := owner);
        var dto := ToPropertyDto(property);
        assert dto == ListItem(items[k]);
        dtos := dtos + [dto];
        k := k + 1;
      }
      forall i | 0 <= i < |items| ensures SameListedFields(dtos[i], items[i]) {
        assert dtos[i] == ListItem(items[i]);
      }
    }

    /**
     * `None` exactly when no property has storage id `id`; otherwise the
     * detail DTO of that property, with its enabled images, its traces newest
     * first and its owner.
     */
    method GetPropertyById(id: string) returns (r: Option<PropertyDetailDto>)
      ensures r.None? <==> properties.GetPropertyById(id).None?
      ensures r.Some? ==> r.value == ToPropertyDetailDto(Loaded(properties.GetPropertyById(id).value))
      ensures r.Some? ==> r.value.Base.Id == id
      ensures r.Some? ==> forall image <- r.value.Images :: image.Enabled
      ensures r.Some? ==> forall i, j | 0 <= i < j < |r.value.Traces| ::
        r.value.Traces[i].DateSale >= r.value.Traces[j].DateSale
    {
      var property := properties.GetPropertyById(id);
      if property.None? {
        return None;
      }
      var p := property.value;
      var images := properties.GetPropertyImages(p.IdProperty);
      var traces := properties.GetPropertyTraces(p.IdProperty);
      var owner := owners.GetOwnerByIdOwner(p.IdOwner);
      p := p.(Images := images, Traces := traces, Owner := owner);
      r := Some(ToPropertyDetailDto(p));
    }

    /**
     * Maps the DTO, gives it the fresh business id `newIdProperty` and stores
     * it. The DTO's own storage id is ignored, so the document is stored
     * under the generated `newId`.
     */
    method CreateProperty(dto: PropertyDto, constructedAt: DateTime, newIdProperty: string,
                          createdAt: DateTime, updatedAt: DateTime, newId: string)
      returns (r: PropertyDto)
      requires properties.Valid()
      requires newId != "" && !HasKey(properties.properties, PropertyId, newId)
      modifies properties
      ensures properties.Valid()
      ensures properties.images == old(properties.images) && properties.traces == old(properties.traces)
      ensures var stored := FromPropertyDto(dto, constructedAt).(
                Id := newId, IdProperty := newIdProperty, CreatedAt := createdAt, UpdatedAt := updatedAt);
              && properties.properties == old(properties.properties) + [stored]
              && r == ToPropertyDto(stored)
      ensures r.Id == newId && r.Name == dto.Name && r.Price == dto.Price && r.Address == dto.Address
      ensures r.IdOwner == dto.IdOwner && r.Image == Some("") && r.Owner == None
    {
      var property := FromPropertyDto(dto, constructedAt);
      property := property.(IdProperty := newIdProperty);
      var created := properties.CreateProperty(property, createdAt, updatedAt, newId);
      assert created.Ok?;
      r := ToPropertyDto(created.value);
    }

    /**
     * `None`, with nothing written, when no property has storage id `id`.
     * Otherwise the DTO replaces that document, keeping its storage id and
     * its creation time; `UpdatedAt` becomes `now`, and `IdProperty` becomes
     * empty, since the DTO has no such field.
     */
    method UpdateProperty(id: string, dto: PropertyDto, constructedAt: DateTime, now: DateTime)
      returns (r: Option<PropertyDto>)
      requires properties.Valid()
      modifies properties
      ensures properties.Valid()
      ensures properties.images == old(properties.images) && properties.traces == old(properties.traces)
      ensures old(properties.GetPropertyById(id)).None? ==>
        r == None && properties.properties == old(properties.properties)
      ensures old(properties.GetPropertyById(id)).Some? ==>
        var existing := old(properties.GetPropertyById(id)).value;
        var i := IndexOf(old(properties.properties), PropertyId, id).value;
        var stored := FromPropertyDto(dto, constructedAt).(Id := id, CreatedAt := existing.CreatedAt, UpdatedAt := now);
        && properties.properties == old(properties.properties)[i := stored]
        && r == Some(ToPropertyDto(stored))
        && stored.IdProperty == ""
    {
      var existing := properties.GetPropertyById(id);
      if existing.None? {
        return None;
      }
      var property := FromPropertyDto(dto, constructedAt);
      property := property.(Id := id, CreatedAt := existing.value.CreatedAt);
      var updated := properties.UpdateProperty(id, property, now);
      assert updated.Ok? && updated.value.Some?;
      r := Some(ToPropertyDto(updated.value.value));
    }

    /** Exactly the repository's answer: whether a property with storage id `id` was removed. */
    method DeleteProperty(id: string) returns (deleted: bool)
      requires properties.Valid()
      modifies properties
      ensures properties.Valid()
      ensures properties.images == old(properties.images) && properties.traces == old(properties.traces)
      ensures deleted <==> HasKey(old(properties.properties), PropertyId, id)
      ensures properties.properties == DeleteOne(old(properties.properties), PropertyId, id).0
      ensures properties.GetPropertyById(id) == None
    {
      deleted := properties.DeleteProperty(id);
    }
  }
}
