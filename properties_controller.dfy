/** The two read endpoints: `GET /api/properties` and
    `GET /api/properties/{id}`. The request dispatcher is collapsed into
    direct calls of the query handlers. */
module PropertiesController {
  import opened Wrappers
  import opened Entities
  import opened Dtos
  import Text
  import PropertyRepository
  import GetPropertiesQueryHandler
  import GetPropertyByIdQueryHandler

  /** An HTTP result: 200 with a body, or 404 with a message. */
  datatype ActionResult<+T> = Ok(value: T) | NotFound(message: string)

  function StatusCode<T>(r: ActionResult<T>): (code: int)
    ensures r.Ok? <==> code == 200
    ensures r.NotFound? <==> code == 404
  {
    match r
    case Ok(_) => 200
    case NotFound(_) => 404
  }

  function NotFoundMessage(id: string): string {
    "Property with ID " + id + " not found"
  }

  /** The 404 message names the identifier and says it was not found. */
  lemma NotFoundMessageNamesId(id: string)
    ensures Text.OccursAt(NotFoundMessage(id), id, 17)
    ensures Text.Contains(NotFoundMessage(id), "not found")
    ensures var m := NotFoundMessage(id); |m| >= 9 && m[|m| - 9..] == "not found"
  {
    var m := NotFoundMessage(id);
    assert m[17..17 + |id|] == id;
    assert Text.OccursAt(m, "not found", |m| - 9) by {
      assert m[|m| - 9..] == "not found";
    }
    Text.ContainsIffOccurs(m, "not found");
  }

  /** The listing query carries the four filters exactly as received. */
  function PropertiesQuery(name: Option<string>, address: Option<string>,
                           minPrice: Option<real>, maxPrice: Option<real>)
    : (q: GetPropertiesQueryHandler.GetPropertiesQuery)
    ensures q.name == name && q.address == address && q.minPrice == minPrice && q.maxPrice == maxPrice
  {
    GetPropertiesQueryHandler.GetPropertiesQuery(name, address, minPrice, maxPrice)
  }

  /** The detail query carries the path identifier unchanged. */
  function PropertyByIdQuery(id: string): (q: GetPropertyByIdQueryHandler.GetPropertyByIdQuery)
    ensures q.id == id
  {
    GetPropertyByIdQueryHandler.GetPropertyByIdQuery(id)
  }

  /** A missing detail becomes 404 with the fixed message; anything else 200
      with the same view. */
  function PropertyByIdResult(id: string, found: Option<PropertyDetailDto>): (r: ActionResult<PropertyDetailDto>)
    ensures found.None? <==> r.NotFound?
    ensures found.None? ==> r == NotFound("Property with ID " + id + " not found")
    ensures found.Some? ==> r == Ok(found.value)
  {
    if found.None? then NotFound(NotFoundMessage(id)) else Ok(found.value)
  }

  /** `GET /api/properties`: always 200 with the handler's rows, even when
      there are none. */
  method GetProperties(repository: PropertyRepository.Repository, images: seq<PropertyImage>,
                       name: Option<string>, address: Option<string>,
                       minPrice: Option<real>, maxPrice: Option<real>)
    returns (r: ActionResult<seq<PropertyDto>>)
    ensures r == Ok(GetPropertiesQueryHandler.Rows(repository.properties, images,
                      GetPropertiesQueryHandler.GetPropertiesQuery(name, address, minPrice, maxPrice)))
    ensures StatusCode(r) == 200
  {
    var query := PropertiesQuery(name, address, minPrice, maxPrice);
    var properties := GetPropertiesQueryHandler.Handle(repository, images, query);
    r := Ok(properties);
  }

  /** `GET /api/properties/{id}`: 404 exactly when no stored property has the
      identifier, 200 with its detail view otherwise. */
  method GetPropertyById(repository: PropertyRepository.Repository, owners: seq<Owner>,
                         images: seq<PropertyImage>, id: string)
    returns (r: ActionResult<PropertyDetailDto>)
    ensures r.NotFound? <==> forall p :: p in repository.properties ==> !SameId(p.idProperty, id)
    ensures r.NotFound? ==> r.message == "Property with ID " + id + " not found" && StatusCode(r) == 404
    ensures r.Ok? ==>
      Some(r.value) == GetPropertyByIdQueryHandler.Response(repository.properties, owners, images, id)
      && StatusCode(r) == 200
  {
    var query := PropertyByIdQuery(id);
    var property, _ := GetPropertyByIdQueryHandler.Handle(repository, owners, images, query);
    r := PropertyByIdResult(id, property);
  }
}
