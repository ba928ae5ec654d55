/**
 * The property repository: the properties collection with the images and
 * traces collections beside it. Queries are functions of the collections;
 * the writes are methods that change them.
 */
module PropertyStore {
  import opened Core
  import opened Table

  /**
   * A case-insensitive regular-expression test, `regexMatch(pattern, text)`.
   * The database's regex engine is not modelled; any such test can be given.
   */
  type RegexMatch = (string, string) -> bool

  /** A text condition is applied only when it is present and non-empty. */
  predicate Active(cond: Option<string>) {
    cond.Some? && cond.value != ""
  }

  /** The conjunction of every condition the filter supplies. */
  predicate SatisfiesFilter(f: PropertyFilter, regexMatch: RegexMatch,
                            name: string, address: string, price: Decimal)
  {
    && (Active(f.Name) ==> regexMatch(f.Name.value, name))
    && (Active(f.Address) ==> regexMatch(f.Address.value, address))
    && (f.MinPrice.Some? ==> price >= f.MinPrice.value)
    && (f.MaxPrice.Some? ==> price <= f.MaxPrice.value)
  }

  predicate Matches(f: PropertyFilter, regexMatch: RegexMatch, p: Property) {
    SatisfiesFilter(f, regexMatch, p.Name, p.Address, p.Price)
  }

  /** `Find(filter)`: the matching documents, in collection order. */
  function Filtered(docs: seq<Property>, f: PropertyFilter, regexMatch: RegexMatch): (r: seq<Property>)
    ensures |r| <= |docs|
    ensures forall p <- r :: p in docs && Matches(f, regexMatch, p)
    ensures forall p <- docs :: Matches(f, regexMatch, p) ==> p in r
    ensures forall p :: multiset(r)[p] == if Matches(f, regexMatch, p) then multiset(docs)[p] else 0
  {
    if docs == [] then []
    else
      var rest := Filtered(docs[1..], f, regexMatch);
      assert docs == [docs[0]] + docs[1..];
      assert forall p <- docs[1..] :: p in docs;
      if Matches(f, regexMatch, docs[0]) then [docs[0]] + rest else rest
  }

  /** `CountDocuments(filter)`: a query of its own over the same filter. */
  function CountMatching(docs: seq<Property>, f: PropertyFilter, regexMatch: RegexMatch): (r: nat)
    ensures r <= |docs|
    ensures r == 0 <==> forall p <- docs :: !Matches(f, regexMatch, p)
    ensures r == |docs| <==> forall p <- docs :: Matches(f, regexMatch, p)
  {
    if docs == [] then 0
    else
      assert docs == [docs[0]] + docs[1..];
      (if Matches(f, regexMatch, docs[0]) then 1 else 0) + CountMatching(docs[1..], f, regexMatch)
  }

  /** The count query agrees with the listing query. */
  lemma {:induction false} CountIsFilteredLength(docs: seq<Property>, f: PropertyFilter, regexMatch: RegexMatch)
    ensures CountMatching(docs, f, regexMatch) == |Filtered(docs, f, regexMatch)|
  {
    if docs != [] {
      CountIsFilteredLength(docs[1..], f, regexMatch);
    }
  }

  /** Which documents match does not depend on the page asked for. */
  lemma {:induction false} FilteredIgnoresPaging(docs: seq<Property>, f: PropertyFilter,
                                                 page: int, pageSize: int, regexMatch: RegexMatch)
    ensures Filtered(docs, f.(Page := page, PageSize := pageSize), regexMatch) == Filtered(docs, f, regexMatch)
  {
    if docs != [] {
      FilteredIgnoresPaging(docs[1..], f, page, pageSize, regexMatch);
    }
  }

  /** `Skip((Page - 1) * PageSize)`. */
  function SkipOf(page: int, pageSize: int): nat
    requires page >= 1 && pageSize >= 1
  {
    (page - 1) * pageSize
  }

  /** `.Skip(skip).Limit(limit)`: at most `limit` documents, starting at `skip`. */
  function Slice<T>(s: seq<T>, skip: nat, limit: nat): (r: seq<T>)
    ensures |r| <= limit && |r| <= |s|
    ensures skip >= |s| ==> r == []
    ensures skip < |s| ==> |r| == if skip + limit <= |s| then limit else |s| - skip
    ensures forall i | 0 <= i < |r| :: skip + i < |s| && r[i] == s[skip + i]
  {
    if skip >= |s| then []
    else s[skip..if skip + limit <= |s| then skip + limit else |s|]
  }

  /**
   * Paging shows every matching document once: the first page starts at the
   * first document, and page `page + 1` continues exactly where page `page`
   * ends, so two consecutive pages together are the window of twice the size.
   */
  lemma ConsecutivePages<T>(s: seq<T>, page: int, pageSize: int)
    requires page >= 1 && pageSize >= 1
    ensures SkipOf(1, pageSize) == 0
    ensures Slice(s, SkipOf(page, pageSize), pageSize) + Slice(s, SkipOf(page + 1, pageSize), pageSize)
         == Slice(s, SkipOf(page, pageSize), 2 * pageSize)
  {
    var skip := SkipOf(page, pageSize);
    assert SkipOf(page + 1, pageSize) == skip + pageSize;
    var a, b, c := Slice(s, skip, pageSize), Slice(s, skip + pageSize, pageSize), Slice(s, skip, 2 * pageSize);
    assert |a + b| == |c|;
    forall i | 0 <= i < |c| ensures (a + b)[i] == c[i] {
      if i < |a| {
        assert (a + b)[i] == a[i];
      } else {
        assert (a + b)[i] == b[i - |a|];
      }
    }
  }

  /** The images of `propertyId` that are enabled, in collection order. */
  function EnabledImagesOf(images: seq<PropertyImage>, propertyId: string): (r: seq<PropertyImage>)
    ensures forall i <- r :: i in images && i.IdProperty == propertyId && i.Enabled
    ensures forall i <- images :: i.IdProperty == propertyId && i.Enabled ==> i in r
    ensures forall i :: multiset(r)[i] == if i.IdProperty == propertyId && i.Enabled then multiset(images)[i] else 0
  {
    if images == [] then []
    else
      var rest := EnabledImagesOf(images[1..], propertyId);
      assert images == [images[0]] + images[1..];
      assert forall i <- images[1..] :: i in images;
      if images[0].IdProperty == propertyId && images[0].Enabled then [images[0]] + rest else rest
  }

  /** The traces of `propertyId`, in collection order. */
  function TracesOf(traces: seq<PropertyTrace>, propertyId: string): (r: seq<PropertyTrace>)
    ensures forall t <- r :: t in traces && t.IdProperty == propertyId
    ensures forall t <- traces :: t.IdProperty == propertyId ==> t in r
    ensures forall t :: multiset(r)[t] == if t.IdProperty == propertyId then multiset(traces)[t] else 0
  {
    if traces == [] then []
    else
      var rest := TracesOf(traces[1..], propertyId);
      assert traces == [traces[0]] + traces[1..];
      assert forall t <- traces[1..] :: t in traces;
      if traces[0].IdProperty == propertyId then [traces[0]] + rest else rest
  }

  /** Newest sale first. */
  predicate SortedByDateSaleDesc(s: seq<PropertyTrace>) {
    forall i, j | 0 <= i < j < |s| :: s[i].DateSale >= s[j].DateSale
  }

  /** Inserts `t` before the first trace that is not newer than it. */
  function InsertByDateSaleDesc(t: PropertyTrace, s: seq<PropertyTrace>): seq<PropertyTrace> {
    if s == [] || t.DateSale >= s[0].DateSale then [t] + s
    else [s[0]] + InsertByDateSaleDesc(t, s[1..])
  }

  lemma {:induction false} InsertAddsOne(t: PropertyTrace, s: seq<PropertyTrace>)
    ensures multiset(InsertByDateSaleDesc(t, s)) == multiset(s) + multiset{t}
  {
    if !(s == [] || t.DateSale >= s[0].DateSale) {
      InsertAddsOne(t, s[1..]);
      assert s == [s[0]] + s[1..];
    }
  }

  lemma {:induction false} InsertTakesFrom(t: PropertyTrace, s: seq<PropertyTrace>)
    ensures forall u <- InsertByDateSaleDesc(t, s) :: u == t || u in s
  {
    if !(s == [] || t.DateSale >= s[0].DateSale) {
      InsertTakesFrom(t, s[1..]);
    }
  }

  lemma {:induction false} InsertKeepsSorted(t: PropertyTrace, s: seq<PropertyTrace>)
    requires SortedByDateSaleDesc(s)
    ensures SortedByDateSaleDesc(InsertByDateSaleDesc(t, s))
  {
    if !(s == [] || t.DateSale >= s[0].DateSale) {
      var rest := InsertByDateSaleDesc(t, s[1..]);
      InsertKeepsSorted(t, s[1..]);
      InsertTakesFrom(t, s[1..]);
      assert forall u <- rest :: u.DateSale <= s[0].DateSale;
      assert forall j | 0 <= j < |rest| :: rest[j] in rest;
    }
  }

  /** `SortByDescending(x => x.DateSale)`. */
  function SortByDateSaleDesc(s: seq<PropertyTrace>): (r: seq<PropertyTrace>)
    ensures SortedByDateSaleDesc(r)
    ensures multiset(r) == multiset(s)
  {
    if s == [] then []
    else
      var rest := SortByDateSaleDesc(s[1..]);
      InsertKeepsSorted(s[0], rest);
      InsertAddsOne(s[0], rest);
      assert s == [s[0]] + s[1..];
      InsertByDateSaleDesc(s[0], rest)
  }

  class PropertyRepository {
    var properties: seq<Property>
    var images: seq<PropertyImage>
    var traces: seq<PropertyTrace>

    /**
     * Every stored property has a storage id, no two share one, and none
     * keeps its navigation fields.
     */
    ghost predicate Valid()
      reads this
    {
      && UniqueKeys(properties, PropertyId)
      && (forall i | 0 <= i < |properties| :: properties[i].Id != "" && IsDocument(properties[i]))
    }

    /** A repository over collections that already hold these documents. */
    constructor(properties: seq<Property>, images: seq<PropertyImage>, traces: seq<PropertyTrace>)
      requires UniqueKeys(properties, PropertyId)
      requires forall i | 0 <= i < |properties| :: properties[i].Id != "" && IsDocument(properties[i])
      ensures Valid()
      ensures this.properties == properties && this.images == images && this.traces == traces
    {
      this.properties := properties;
      this.images := images;
      this.traces := traces;
    }

    /** The filtered, paginated listing with its separately counted total. */
    function GetProperties(filter: PropertyFilter, regexMatch: RegexMatch): (r: PagedResult<Property>)
      reads this
      requires filter.Page >= 1 && filter.PageSize >= 1
      ensures r.Page == filter.Page && r.PageSize == filter.PageSize
      ensures r.TotalCount == |Filtered(properties, filter, regexMatch)|
      ensures r.Items == Slice(Filtered(properties, filter, regexMatch), SkipOf(filter.Page, filter.PageSize), filter.PageSize)
      ensures var skip := SkipOf(filter.Page, filter.PageSize);
        |r.Items| == if skip >= r.TotalCount then 0
                     else if skip + filter.PageSize <= r.TotalCount then filter.PageSize
                     else r.TotalCount - skip
      ensures |r.Items| <= filter.PageSize && |r.Items| <= r.TotalCount
      ensures forall p <- r.Items :: p in properties && Matches(filter, regexMatch, p)
      ensures forall i | 0 <= i < |r.Items| ::
        var skip := SkipOf(filter.Page, filter.PageSize);
        skip + i < r.TotalCount && r.Items[i] == Filtered(properties, filter, regexMatch)[skip + i]
    {
      var matching := Filtered(properties, filter, regexMatch);
      var totalCount := CountMatching(properties, filter, regexMatch);
      CountIsFilteredLength(properties, filter, regexMatch);
      var items := Slice(matching, SkipOf(filter.Page, filter.PageSize), filter.PageSize);
      PagedResult(items, totalCount, filter.Page, filter.PageSize)
    }

    /** `TotalCount` is the same whatever page is asked for. */
    lemma TotalCountIgnoresPaging(filter: PropertyFilter, page: int, pageSize: int, regexMatch: RegexMatch)
      requires filter.Page >= 1 && filter.PageSize >= 1 && page >= 1 && pageSize >= 1
      ensures GetProperties(filter.(Page := page, PageSize := pageSize), regexMatch).TotalCount
           == GetProperties(filter, regexMatch).TotalCount
    {
      FilteredIgnoresPaging(properties, filter, page, pageSize, regexMatch);
    }

    /** The property with storage id `id`, if any. */
    function GetPropertyById(id: string): (r: Option<Property>)
      reads this
      ensures r.None? <==> !HasKey(properties, PropertyId, id)
      ensures r.Some? ==> r.value.Id == id && r.value in properties
    {
      FindFirst(properties, PropertyId, id)
    }

    /**
     * Stamps both timestamps (two readings of the clock) and inserts. A
     * property without a storage id gets `newId`, a fresh ObjectId; one whose
     * id is already taken is refused.
     */
    method CreateProperty(property: Property, createdAt: DateTime, updatedAt: DateTime, newId: string)
      returns (r: Result<Property>)
      requires Valid()
      requires newId != "" && !HasKey(properties, PropertyId, newId)
      modifies this
      ensures Valid()
      ensures images == old(images) && traces == old(traces)
      ensures var id := if property.Id == "" then newId else property.Id;
              var created := property.(Id := id, CreatedAt := createdAt, UpdatedAt := updatedAt);
              if HasKey(old(properties), PropertyId, id) then
                r == Err(DuplicateKey(id)) && properties == old(properties)
              else
                && r == Ok(created)
                && properties == old(properties) + [AsDocument(created)]
                && GetPropertyById(id) == Some(AsDocument(created))
    {
      var id := if property.Id == "" then newId else property.Id;
      if HasKey(properties, PropertyId, id) {
        return Err(DuplicateKey(id));
      }
      var created := property.(Id := id, CreatedAt := createdAt, UpdatedAt := updatedAt);
      AppendKeepsUnique(properties, PropertyId, AsDocument(created));
      IndexOfAppended(properties, PropertyId, AsDocument(created));
      properties := properties + [AsDocument(created)];
      r := Ok(created);
    }

    /**
     * Refreshes `UpdatedAt` and replaces the first document with storage id
     * `id`; `None` when there is none. A replacement with another storage id
     * is refused, since a document's id cannot change.
     */
    method UpdateProperty(id: string, property: Property, now: DateTime) returns (r: Result<Option<Property>>)
      requires Valid()
      modifies this
      ensures Valid()
      ensures images == old(images) && traces == old(traces)
      ensures var updated := property.(UpdatedAt := now);
              match IndexOf(old(properties), PropertyId, id)
              case None => r == Ok(None) && properties == old(properties)
              case Some(i) =>
                if property.Id != id then
                  r == Err(ImmutableId(id)) && properties == old(properties)
                else
                  r == Ok(Some(updated)) && properties == old(properties)[i := AsDocument(updated)]
    {
      var updated := property.(UpdatedAt := now);
      match IndexOf(properties, PropertyId, id)
      case None =>
        r := Ok(None);
      case Some(i) =>
        if property.Id != id {
          r := Err(ImmutableId(id));
        } else {
          ReplaceKeepsUnique(properties, PropertyId, i, AsDocument(updated));
          properties := properties[i := AsDocument(updated)];
          r := Ok(Some(updated));
        }
    }

    /** Removes the first document with storage id `id`; afterwards none is left. */
    method DeleteProperty(id: string) returns (deleted: bool)
      requires Valid()
      modifies this
      ensures Valid()
      ensures images == old(images) && traces == old(traces)
      ensures deleted <==> HasKey(old(properties), PropertyId, id)
      ensures properties == DeleteOne(old(properties), PropertyId, id).0
      ensures GetPropertyById(id) == None
    {
      DeleteOneRemovesKey(properties, PropertyId, id);
      var result := DeleteOne(properties, PropertyId, id);
      properties := result.0;
      deleted := result.1;
    }

    /** Only the enabled images of the property with business id `propertyId`. */
    function GetPropertyImages(propertyId: string): (r: seq<PropertyImage>)
      reads this
      ensures forall i <- r :: i in images && i.IdProperty == propertyId && i.Enabled
      ensures forall i <- images :: i.IdProperty == propertyId && i.Enabled ==> i in r
      ensures forall i :: multiset(r)[i] == if i.IdProperty == propertyId && i.Enabled then multiset(images)[i] else 0
    {
      EnabledImagesOf(images, propertyId)
    }

    /** The traces of the property with business id `propertyId`, newest sale first. */
    function GetPropertyTraces(propertyId: string): (r: seq<PropertyTrace>)
      reads this
      ensures SortedByDateSaleDesc(r)
      ensures multiset(r) == multiset(TracesOf(traces, propertyId))
      ensures forall t <- r :: t in traces && t.IdProperty == propertyId
      ensures forall t <- traces :: t.IdProperty == propertyId ==> t in r
      ensures forall t :: multiset(r)[t] == if t.IdProperty == propertyId then multiset(traces)[t] else 0
    {
      var r := SortByDateSaleDesc(TracesOf(traces, propertyId));
      assert forall t :: t in r <==> t in multiset(r);
      r
    }
  }
}
