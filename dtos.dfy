/** The transfer objects the API serialises. */
module Dtos {
  import opened Wrappers

  /** One row of the property listing. */
  datatype PropertyDto = PropertyDto(
    idProperty: string,
    idOwner: string,
    name: string,
    address: string,
    price: real,
    image: Option<string>)

  datatype OwnerDto = OwnerDto(
    idOwner: string,
    name: string,
    address: string,
    photo: Option<string>)

  /** The detail view of one property. */
  datatype PropertyDetailDto = PropertyDetailDto(
    idProperty: string,
    name: string,
    address: string,
    price: real,
    codeInternal: string,
    year: int,
    image: Option<string>,
    owner: Option<OwnerDto>,
    additionalImages: seq<string>)
}
