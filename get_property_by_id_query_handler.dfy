/** The detail request: fetch one property, attach its owner when the owner
    exists, and split its enabled images into a primary image and the rest. */
module GetPropertyByIdQueryHandler {
  import opened Wrappers
  import opened Seqs
  import opened Entities
  import opened Dtos
  import opened MappingProfile
  import opened PropertyImageRepository
  import PropertyRepository
  import OwnerRepository
  import Text

  datatype GetPropertyByIdQuery = GetPropertyByIdQuery(id: string)

  /** A read the handler issues after the property itself was found. */
  datatype Lookup = OwnerLookup(idOwner: string) | ImagesLookup(idProperty: string)

  function IsEnabled(i: PropertyImage): bool { i.enabled }

  function File(i: PropertyImage): string { i.file }

  /** The files of the property's enabled images, in stored order. */
  function EnabledFiles(images: seq<PropertyImage>, propertyId: string): (files: seq<string>)
    ensures var found := GetByPropertyId(images, propertyId);
      |files| == |found| && forall k :: 0 <= k < |files| ==> files[k] == found[k].file
  {
    Select(GetByPropertyId(images, propertyId), File)
  }

  /** Every image file a detail view shows: the primary one, then the others. */
  function ShownImages(d: PropertyDetailDto): seq<string> {
    (if d.image.Some? then [d.image.value] else []) + d.additionalImages
  }

  /** The detail view of a property that was found. */
  function Detail(p: Property, owners: seq<Owner>, images: seq<PropertyImage>): PropertyDetailDto {
    var files := EnabledFiles(images, p.idProperty);
    var owner := OwnerRepository.GetById(owners, p.idOwner);
    ToPropertyDetailDto(p).(owner := if owner.Some? then Some(ToOwnerDto(owner.value)) else None,
                            image := if files == [] then None else Some(files[0]),
                            additionalImages := if files == [] then [] else files[1..])
  }

  /** A detail view copies the property's fields, shows its owner exactly
      when an owner has the owner id, and shows every enabled image file in
      stored order, the first one as the primary image. */
  lemma DetailFacts(p: Property, owners: seq<Owner>, images: seq<PropertyImage>)
    ensures var d := Detail(p, owners, images);
      && d.idProperty == p.idProperty && d.name == p.name && d.address == p.address
      && d.price == p.price && d.codeInternal == p.codeInternal && d.year == p.year
      && (d.owner.None? <==> forall o :: o in owners ==> !SameId(o.idOwner, p.idOwner))
      && (d.owner.Some? ==>
            exists o :: o in owners && SameId(o.idOwner, p.idOwner) && d.owner.value == ToOwnerDto(o))
    ensures var d := Detail(p, owners, images);
      var files := EnabledFiles(images, p.idProperty);
      && (files == [] ==> d.image.None? && d.additionalImages == [])
      && (files != [] ==> d.image == Some(files[0]) && d.additionalImages == files[1..])
      && |d.additionalImages| == (if files == [] then 0 else |files| - 1)
      && ShownImages(d) == files
  {
    var files := EnabledFiles(images, p.idProperty);
    var owner := OwnerRepository.GetById(owners, p.idOwner);
    if owner.Some? {
      assert owner.value in owners;
    }
    if files != [] {
      assert [files[0]] + files[1..] == files;
    }
  }

  /** The response to a detail request: `null` when no stored property has
      the identifier, the detail view of the first one that has otherwise. */
  function Response(store: seq<Property>, owners: seq<Owner>, images: seq<PropertyImage>, id: string)
    : (r: Option<PropertyDetailDto>)
    ensures r.None? <==> forall p :: p in store ==> !SameId(p.idProperty, id)
    ensures r.Some? ==> exists p :: p in store && SameId(p.idProperty, id) && r.value == Detail(p, owners, images)
  {
    match FirstWhere(store, PropertyRepository.HasId(id))
    case None => None
    case Some(p) => Some(Detail(p, owners, images))
  }

  /** The store parses an identifier before comparing it, so two spellings
      of one object id that differ only in hex letter case find the same
      property and give the same response. */
  lemma HexCaseFindsSameProperty(store: seq<Property>, owners: seq<Owner>, images: seq<PropertyImage>,
                                 a: string, b: string)
    requires Text.IsObjectIdHex(a) && Text.IsObjectIdHex(b) && Text.Lower(a) == Text.Lower(b)
    ensures Response(store, owners, images, a) == Response(store, owners, images, b)
  {
    assert StoredId(a) == StoredId(b);
    FirstWhereIsHeadOfWhere(store, PropertyRepository.HasId(a));
    FirstWhereIsHeadOfWhere(store, PropertyRepository.HasId(b));
    WhereCongruent(store, PropertyRepository.HasId(a), PropertyRepository.HasId(b));
  }

  /** The images the repository returns are already enabled, so filtering
      them for enabled images once more changes nothing. */
  lemma RefilteringEnabledIsNoOp(images: seq<PropertyImage>, propertyId: string)
    ensures Where(GetByPropertyId(images, propertyId), IsEnabled) == GetByPropertyId(images, propertyId)
  {
    WhereAll(GetByPropertyId(images, propertyId), IsEnabled);
  }

  /** The handler's work once the property was found: attach the owner when
      it exists and split the enabled image files. */
  method BuildDetail(property: Property, owners: seq<Owner>, images: seq<PropertyImage>)
    returns (dto: PropertyDetailDto, ghost lookups: seq<Lookup>)
    ensures dto == Detail(property, owners, images)
    ensures lookups == [OwnerLookup(property.idOwner), ImagesLookup(property.idProperty)]
  {
    dto := ToPropertyDetailDto(property);

    var owner := OwnerRepository.GetById(owners, property.idOwner);
    lookups := [OwnerLookup(property.idOwner)];
    if owner.Some? {
      dto := dto.(owner := Some(ToOwnerDto(owner.value)));
    }

    var found := GetByPropertyId(images, property.idProperty);
    lookups := lookups + [ImagesLookup(property.idProperty)];

    RefilteringEnabledIsNoOp(images, property.idProperty);
    var imagesList := Select(Where(found, IsEnabled), File);

    if |imagesList| > 0 {
      dto := dto.(image := Some(imagesList[0]));
      dto := dto.(additionalImages := imagesList[1..]);
    }

    assert imagesList == EnabledFiles(images, property.idProperty);
  }

  /** Handles a detail request. The owner and the images are looked up only
      once the property was found; `lookups` records those reads. */
  method Handle(repository: PropertyRepository.Repository, owners: seq<Owner>, images: seq<PropertyImage>,
                request: GetPropertyByIdQuery)
    returns (r: Option<PropertyDetailDto>, ghost lookups: seq<Lookup>)
    ensures r == Response(repository.properties, owners, images, request.id)
    ensures r.None? ==> lookups == []
    ensures r.Some? ==>
      lookups == [OwnerLookup(repository.GetById(request.id).value.idOwner),
                  ImagesLookup(repository.GetById(request.id).value.idProperty)]
  {
    var property := repository.GetById(request.id);
    if property.None? {
      return None, [];
    }
    var dto;
    dto, lookups := BuildDetail(property.value, owners, images);
    r := Some(dto);
  }
}
