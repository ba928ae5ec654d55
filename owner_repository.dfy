/**
 * The owner repository: the owners collection, looked up by storage id or by
 * business id, and written one document at a time.
 */
module OwnerStore {
  import opened Core
  import opened Table

  class OwnerRepository {
    var owners: seq<Owner>

    /** Every stored owner has a storage id and no two share one. */
    ghost predicate Valid()
      reads this
    {
      && UniqueKeys(owners, OwnerId)
      && (forall i | 0 <= i < |owners| :: owners[i].Id != "")
    }

    /** A repository over a collection that already holds these documents. */
    constructor(owners: seq<Owner>)
      requires UniqueKeys(owners, OwnerId)
      requires forall i | 0 <= i < |owners| :: owners[i].Id != ""
      ensures Valid() && this.owners == owners
    {
      this.owners := owners;
    }

    /** The owner with storage id `id`, if any. */
    function GetOwnerById(id: string): (r: Option<Owner>)
      reads this
      ensures r.None? <==> !HasKey(owners, OwnerId, id)
      ensures r.Some? ==> r.value.Id == id && r.value in owners
    {
      FindFirst(owners, OwnerId, id)
    }

    /** The first owner, in collection order, with business id `idOwner`, if any. */
    function GetOwnerByIdOwner(idOwner: string): (r: Option<Owner>)
      reads this
      ensures r.None? <==> !HasKey(owners, OwnerBusinessId, idOwner)
      ensures r.Some? ==> exists i | 0 <= i < |owners| ::
        && owners[i] == r.value && r.value.IdOwner == idOwner
        && (forall j | 0 <= j < i :: owners[j].IdOwner != idOwner)
    {
      FindFirst(owners, OwnerBusinessId, idOwner)
    }

    /**
     * Stamps both timestamps (two readings of the clock) and inserts. An owner
     * without a storage id gets `newId`, a fresh ObjectId; one whose id is
     * already taken is refused.
     */
    method CreateOwner(owner: Owner, createdAt: DateTime, updatedAt: DateTime, newId: string)
      returns (r: Result<Owner>)
      requires Valid()
      requires newId != "" && !HasKey(owners, OwnerId, newId)
      modifies this
      ensures Valid()
      ensures var id := if owner.Id == "" then newId else owner.Id;
              var created := owner.(Id := id, CreatedAt := createdAt, UpdatedAt := updatedAt);
              if HasKey(old(owners), OwnerId, id) then
                r == Err(DuplicateKey(id)) && owners == old(owners)
              else
                && r == Ok(created)
                && owners == old(owners) + [created]
                && GetOwnerById(id) == Some(created)
    {
      var id := if owner.Id == "" then newId else owner.Id;
      if HasKey(owners, OwnerId, id) {
        return Err(DuplicateKey(id));
      }
      var created := owner.(Id := id, CreatedAt := createdAt, UpdatedAt := updatedAt);
      AppendKeepsUnique(owners, OwnerId, created);
      IndexOfAppended(owners, OwnerId, created);
      owners := owners + [created];
      r := Ok(created);
    }

    /**
     * Refreshes `UpdatedAt` and replaces the first owner with storage id `id`;
     * `None` when there is none. A replacement with another storage id is
     * refused. No other owner changes.
     */
    method UpdateOwner(id: string, owner: Owner, now: DateTime) returns (r: Result<Option<Owner>>)
      requires Valid()
      modifies this
      ensures Valid()
      ensures var updated := owner.(UpdatedAt := now);
              match IndexOf(old(owners), OwnerId, id)
              case None => r == Ok(None) && owners == old(owners)
              case Some(i) =>
                if owner.Id != id then
                  r == Err(ImmutableId(id)) && owners == old(owners)
                else
                  && r == Ok(Some(updated))
                  && |owners| == |old(owners)| && owners[i] == updated
                  && (forall j | 0 <= j < |owners| && j != i :: owners[j] == old(owners)[j])
    {
      var updated := owner.(UpdatedAt := now);
      match IndexOf(owners, OwnerId, id)
      case None =>
        r := Ok(None);
      case Some(i) =>
        if owner.Id != id {
          r := Err(ImmutableId(id));
        } else {
          ReplaceKeepsUnique(owners, OwnerId, i, updated);
          owners := owners[i := updated];
          r := Ok(Some(updated));
        }
    }

    /**
     * Removes the first owner with storage id `id`; afterwards none is left,
     * and the others stay, in their order.
     */
    method DeleteOwner(id: string) returns (deleted: bool)
      requires Valid()
      modifies this
      ensures Valid()
      ensures deleted <==> HasKey(old(owners), OwnerId, id)
      ensures !deleted ==> owners == old(owners)
      ensures deleted ==>
        var i := IndexOf(old(owners), OwnerId, id).value;
        owners == RemoveAt(old(owners), i)
      ensures GetOwnerById(id) == None
    {
      DeleteOneRemovesKey(owners, OwnerId, id);
      var result := DeleteOne(owners, OwnerId, id);
      owners := result.0;
      deleted := result.1;
    }
  }
}
