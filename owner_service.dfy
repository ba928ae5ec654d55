/**
 * The owner service: maps the owner repository's entities to DTOs and back.
 */
module OwnerServices {
  import opened Core
  import opened Table
  import opened Mapping
  import opened OwnerStore

  class OwnerService {
    const owners: OwnerRepository

    constructor(owners: OwnerRepository)
      ensures this.owners == owners
    {
      this.owners := owners;
    }

    /** `None` exactly when no owner has storage id `id`; otherwise that owner as a DTO. */
    function GetOwnerById(id: string): (r: Option<OwnerDto>)
      reads owners
      ensures r.None? <==> !HasKey(owners.owners, OwnerId, id)
      ensures r.Some? ==> r.value.Id == id
      ensures r.Some? ==> exists o <- owners.owners :: o.Id == id && r.value == ToOwnerDto(o)
    {
      var owner := owners.GetOwnerById(id);
      if owner.Some? then Some(ToOwnerDto(owner.value)) else None
    }

    /** `None` exactly when no owner has business id `idOwner`; otherwise the first such owner as a DTO. */
    function GetOwnerByIdOwner(idOwner: string): (r: Option<OwnerDto>)
      reads owners
      ensures r.None? <==> !HasKey(owners.owners, OwnerBusinessId, idOwner)
      ensures r.Some? ==> r.value.IdOwner == idOwner
      ensures r.Some? ==> exists i | 0 <= i < |owners.owners| ::
        && owners.owners[i].IdOwner == idOwner && r.value == ToOwnerDto(owners.owners[i])
        && forall j | 0 <= j < i :: owners.owners[j].IdOwner != idOwner
    {
      var owner := owners.GetOwnerByIdOwner(idOwner);
      if owner.Some? then Some(ToOwnerDto(owner.value)) else None
    }

    /**
     * Maps the DTO, replaces whatever business id it carried by the fresh
     * `newIdOwner`, and stores it under the generated storage id `newId`.
     * When `newIdOwner` was not in use, a lookup by it finds the new owner.
     */
    method CreateOwner(dto: OwnerDto, constructedAt: DateTime, newIdOwner: string,
                       createdAt: DateTime, updatedAt: DateTime, newId: string)
      returns (r: OwnerDto)
      requires owners.Valid()
      requires newId != "" && !HasKey(owners.owners, OwnerId, newId)
      modifies owners
      ensures owners.Valid()
      ensures var stored := FromOwnerDto(dto, constructedAt).(
                Id := newId, IdOwner := newIdOwner, CreatedAt := createdAt, UpdatedAt := updatedAt);
              && owners.owners == old(owners.owners) + [stored]
              && r == ToOwnerDto(stored)
      ensures r == dto.(Id := newId, IdOwner := newIdOwner)
      ensures !HasKey(old(owners.owners), OwnerBusinessId, newIdOwner) ==> GetOwnerByIdOwner(newIdOwner) == Some(r)
    {
      var owner := FromOwnerDto(dto, constructedAt);
      owner := owner.(IdOwner := newIdOwner);
      var created := owners.CreateOwner(owner, createdAt, updatedAt, newId);
      assert created.Ok?;
      r := ToOwnerDto(created.value);
      if !HasKey(old(owners.owners), OwnerBusinessId, newIdOwner) {
        IndexOfAppended(old(owners.owners), OwnerBusinessId, created.value);
      }
    }

    /**
     * `None`, with nothing written, when no owner has storage id `id`.
     * Otherwise the DTO replaces that owner, keeping its storage id and its
     * creation time but taking the business id from the DTO; `UpdatedAt`
     * becomes `now`.
     */
    method UpdateOwner(id: string, dto: OwnerDto, constructedAt: DateTime, now: DateTime)
      returns (r: Option<OwnerDto>)
      requires owners.Valid()
      modifies owners
      ensures owners.Valid()
      ensures old(owners.GetOwnerById(id)).None? ==> r == None && owners.owners == old(owners.owners)
      ensures old(owners.GetOwnerById(id)).Some? ==>
        var existing := old(owners.GetOwnerById(id)).value;
        var i := IndexOf(old(owners.owners), OwnerId, id).value;
        var stored := FromOwnerDto(dto, constructedAt).(Id := id, CreatedAt := existing.CreatedAt, UpdatedAt := now);
        && owners.owners == old(owners.owners)[i := stored]
        && r == Some(dto.(Id := id))
    {
      var existing := owners.GetOwnerById(id);
      if existing.None? {
        return None;
      }
      var owner := FromOwnerDto(dto, constructedAt);
      owner := owner.(Id := id, CreatedAt := existing.value.CreatedAt);
      var updated := owners.UpdateOwner(id, owner, now);
      assert updated.Ok? && updated.value.Some?;
      r := Some(ToOwnerDto(updated.value.value));
    }

    /** Exactly the repository's answer: whether an owner with storage id `id` was removed. */
    method DeleteOwner(id: string) returns (deleted: bool)
      requires owners.Valid()
      modifies owners
      ensures owners.Valid()
      ensures deleted <==> HasKey(old(owners.owners), OwnerId, id)
      ensures !deleted ==> owners.owners == old(owners.owners)
      ensures deleted ==> owners.owners == RemoveAt(old(owners.owners), IndexOf(old(owners.owners), OwnerId, id).value)
      ensures owners.GetOwnerById(id) == None
    {
      deleted := owners.DeleteOwner(id);
    }
  }
}
