/** Reads of the image collection: the enabled images of one property, in
    stored order, and the first of them. Both are pure reads. */
module PropertyImageRepository {
  import opened Wrappers
  import opened Seqs
  import opened Entities

  function EnabledFor(propertyId: string): PropertyImage -> bool {
    (i: PropertyImage) => i.idProperty == propertyId && i.enabled
  }

  /** All enabled images of the property, in stored order. */
  function GetByPropertyId(images: seq<PropertyImage>, propertyId: string): (r: seq<PropertyImage>)
    ensures forall i :: i in r ==> i.idProperty == propertyId && i.enabled
    ensures IsSubsequence(r, images)
    ensures forall i :: i in images && i.idProperty == propertyId && i.enabled ==> i in r
    ensures forall i :: i in images && i.idProperty == propertyId && i.enabled ==>
      multiset(r)[i] == multiset(images)[i]
  {
    Where(images, EnabledFor(propertyId))
  }

  /** The first enabled image of the property in stored order, if any. */
  function GetFirstImageByPropertyId(images: seq<PropertyImage>, propertyId: string): (r: Option<PropertyImage>)
    ensures r.None? <==> GetByPropertyId(images, propertyId) == []
    ensures r.Some? ==> r.value == GetByPropertyId(images, propertyId)[0]
    ensures r.Some? ==> r.value in images && r.value.idProperty == propertyId && r.value.enabled
  {
    FirstWhereIsHeadOfWhere(images, EnabledFor(propertyId));
    FirstWhere(images, EnabledFor(propertyId))
  }

  /** A disabled image is never returned by either read. */
  lemma DisabledImagesNeverReturned(images: seq<PropertyImage>, propertyId: string, i: PropertyImage)
    requires !i.enabled
    ensures i !in GetByPropertyId(images, propertyId)
    ensures GetFirstImageByPropertyId(images, propertyId) != Some(i)
  {
  }
}
