/** The listing request: fetch the filtered, sorted properties, then give
    each listing row the file of its property's first enabled image. */
module GetPropertiesQueryHandler {
  import opened Wrappers
  import opened Entities
  import opened Dtos
  import opened MappingProfile
  import opened PropertyImageRepository
  import PropertyRepository
  import Text

  /** The four optional listing filters, as received. */
  datatype GetPropertiesQuery = GetPropertiesQuery(
    name: Option<string>,
    address: Option<string>,
    minPrice: Option<real>,
    maxPrice: Option<real>)

  /** The file of an image that was found, `null` otherwise. */
  function FileOf(image: Option<PropertyImage>): (f: Option<string>)
    ensures f.None? <==> image.None?
    ensures image.Some? ==> f == Some(image.value.file)
  {
    match image
    case None => None
    case Some(i) => Some(i.file)
  }

  /** The listing row of one property, with the file of its first enabled image. */
  function Row(p: Property, images: seq<PropertyImage>): PropertyDto {
    ToPropertyDto(p).(image := FileOf(GetFirstImageByPropertyId(images, p.idProperty)))
  }

  /** A row copies its property's fields; its image is absent exactly when
      the property has no enabled image, and is the file of the first one
      otherwise. */
  lemma RowFacts(p: Property, images: seq<PropertyImage>)
    ensures var d := Row(p, images);
      && d.idProperty == p.idProperty && d.idOwner == p.idOwner
      && d.name == p.name && d.address == p.address && d.price == p.price
      && (d.image.None? <==> forall i :: i in images ==> !(i.idProperty == p.idProperty && i.enabled))
      && (d.image.Some? ==> d.image.value == GetByPropertyId(images, p.idProperty)[0].file)
      && (d.image.Some? ==>
            exists i :: i in images && i.idProperty == p.idProperty && i.enabled && i.file == d.image.value)
  {
    var found := GetByPropertyId(images, p.idProperty);
    if found != [] {
      assert found[0] in found;
    }
  }

  /** The response to a listing request: one row per listed property, in
      listing order. */
  function Rows(store: seq<Property>, images: seq<PropertyImage>, request: GetPropertiesQuery): (r: seq<PropertyDto>)
    ensures var listed := PropertyRepository.Listing(store, request.name, request.address, request.minPrice, request.maxPrice);
      && |r| == |listed|
      && (forall k :: 0 <= k < |r| ==> r[k] == Row(listed[k], images))
  {
    var listed := PropertyRepository.Listing(store, request.name, request.address, request.minPrice, request.maxPrice);
    seq(|listed|, k requires 0 <= k < |listed| => Row(listed[k], images))
  }

  /** The rows are in name order and describe exactly the listed properties. */
  lemma RowsFollowListing(store: seq<Property>, images: seq<PropertyImage>, request: GetPropertiesQuery)
    ensures var r := Rows(store, images, request);
      && (forall k, l :: 0 <= k < l < |r| ==> Text.OrdinalLe(r[k].name, r[l].name))
      && (forall k :: 0 <= k < |r| ==>
            exists p :: p in store && p.idProperty == r[k].idProperty &&
              PropertyRepository.Satisfies(p, request.name, request.address, request.minPrice, request.maxPrice))
  {
    var listed := PropertyRepository.Listing(store, request.name, request.address, request.minPrice, request.maxPrice);
    var r := Rows(store, images, request);
    forall k | 0 <= k < |r|
      ensures exists p :: (p in store && p.idProperty == r[k].idProperty &&
        PropertyRepository.Satisfies(p, request.name, request.address, request.minPrice, request.maxPrice))
    {
      assert listed[k] in listed;
      RowFacts(listed[k], images);
      PropertyRepository.ListingMembers(store, request.name, request.address, request.minPrice, request.maxPrice, listed[k]);
    }
  }

  /** An empty listing gives an empty response. */
  lemma EmptyListingGivesNoRows(store: seq<Property>, images: seq<PropertyImage>, request: GetPropertiesQuery)
    requires PropertyRepository.Listing(store, request.name, request.address, request.minPrice, request.maxPrice) == []
    ensures Rows(store, images, request) == []
  {
  }

  /** A sequence that has the row of each listed property, position by
      position, is the response. */
  lemma RowwiseIsRows(store: seq<Property>, images: seq<PropertyImage>, request: GetPropertiesQuery,
                      dtos: seq<PropertyDto>)
    requires var listed := PropertyRepository.Listing(store, request.name, request.address, request.minPrice, request.maxPrice);
      |dtos| == |listed| && forall l :: 0 <= l < |dtos| ==> dtos[l] == Row(listed[l], images)
    ensures dtos == Rows(store, images, request)
  {
  }

  /** One iteration of the handler's loop: map the property, then set the
      file of its first enabled image. */
  method EnrichRow(property: Property, images: seq<PropertyImage>) returns (dto: PropertyDto)
    ensures dto == Row(property, images)
  {
    dto := ToPropertyDto(property);
    var firstImage := GetFirstImageByPropertyId(images, property.idProperty);
    dto := dto.(image := FileOf(firstImage));
  }

  /** The handler's loop: one row per property, in order. */
  method EnrichAll(properties: seq<Property>, images: seq<PropertyImage>) returns (propertyDtos: seq<PropertyDto>)
    ensures |propertyDtos| == |properties|
    ensures forall l :: 0 <= l < |properties| ==> propertyDtos[l] == Row(properties[l], images)
  {
    propertyDtos := [];
    for k := 0 to |properties|
      invariant |propertyDtos| == k
      invariant forall l :: 0 <= l < k ==> propertyDtos[l] == Row(properties[l], images)
    {
      var dto := EnrichRow(properties[k], images);
      propertyDtos := propertyDtos + [dto];
    }
  }

  /** Handles a listing request against the property store and the image
      collection: the filters are passed through to the store unchanged, then
      each property is mapped and enriched in turn. */
  method Handle(repository: PropertyRepository.Repository, images: seq<PropertyImage>, request: GetPropertiesQuery)
    returns (dtos: seq<PropertyDto>)
    ensures dtos == Rows(repository.properties, images, request)
  {
    var properties := repository.GetAll(request.name, request.address, request.minPrice, request.maxPrice);
    dtos := EnrichAll(properties, images);
    RowwiseIsRows(repository.properties, images, request, dtos);
  }
}
