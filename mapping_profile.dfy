/** The entity-to-DTO mappings, written out field by field. A field the
    mapping ignores keeps the DTO's default: `null` for optional values and
    the empty list for `additionalImages`. */
module MappingProfile {
  import opened Wrappers
  import opened Entities
  import opened Dtos

  /** Property to listing row; the image is left unset for the handler to fill. */
  function ToPropertyDto(p: Property): (d: PropertyDto)
    ensures d.idProperty == p.idProperty && d.idOwner == p.idOwner
    ensures d.name == p.name && d.address == p.address && d.price == p.price
    ensures d.image == None
  {
    PropertyDto(p.idProperty, p.idOwner, p.name, p.address, p.price, None)
  }

  /** Property to detail view. The image and additional images are ignored and
      keep their defaults. The owner is copied by name from the property's
      navigation member `Owner`, which is never stored and so is always
      `null` on a property read from the store; the model has no navigation
      members and leaves the owner `null`. */
  function ToPropertyDetailDto(p: Property): (d: PropertyDetailDto)
    ensures d.idProperty == p.idProperty && d.name == p.name && d.address == p.address
    ensures d.price == p.price && d.codeInternal == p.codeInternal && d.year == p.year
    ensures d.image == None && d.owner == None && d.additionalImages == []
  {
    PropertyDetailDto(p.idProperty, p.name, p.address, p.price, p.codeInternal, p.year, None, None, [])
  }

  /** Owner to owner view; the birthday is dropped. */
  function ToOwnerDto(o: Owner): (d: OwnerDto)
    ensures d.idOwner == o.idOwner && d.name == o.name && d.address == o.address
    ensures d.photo == o.photo
  {
    OwnerDto(o.idOwner, o.name, o.address, o.photo)
  }

  /** The listing row forgets exactly the internal code and the year. */
  lemma PropertyDtoForgetsOnlyCodeAndYear(a: Property, b: Property)
    ensures ToPropertyDto(a) == ToPropertyDto(b) <==> a.(codeInternal := b.codeInternal, year := b.year) == b
  {
  }

  /** The detail view forgets exactly the owner id. */
  lemma PropertyDetailDtoForgetsOnlyOwnerId(a: Property, b: Property)
    ensures ToPropertyDetailDto(a) == ToPropertyDetailDto(b) <==> a.(idOwner := b.idOwner) == b
  {
  }

  /** The owner view forgets exactly the birthday. */
  lemma OwnerDtoForgetsOnlyBirthday(a: Owner, b: Owner)
    ensures ToOwnerDto(a) == ToOwnerDto(b) <==> a.(birthday := b.birthday) == b
  {
  }
}
