/** The web client's calls to the two endpoints. The listing call builds an
    ordered list of query parameters; its URL is `/properties?` followed by
    that list in `application/x-www-form-urlencoded` form. The encoding, the
    decimal printing of numbers and the HTTP call itself are not modelled. */
module PropertyService {
  import opened Wrappers

  /** The client-side filters; every field may be undefined. */
  datatype PropertyFilterDto = PropertyFilterDto(
    name: Option<string>,
    address: Option<string>,
    minPrice: Option<real>,
    maxPrice: Option<real>)

  /** A parameter value: text as given, or a number (sent as its printed form). */
  datatype ParamValue = Text(s: string) | Number(n: real)

  /** The four parameter keys `name`, `address`, `minPrice` and `maxPrice`,
      declared in the order the client appends them. */
  datatype Key = Name | Address | MinPrice | MaxPrice

  datatype Param = Param(key: Key, value: ParamValue)

  /** The listing request: a fixed path prefix and the parameters after it. */
  datatype ListingRequest = ListingRequest(prefix: string, params: seq<Param>)

  /** JavaScript truthiness of an optional string: defined and non-empty. */
  predicate Truthy(s: Option<string>) {
    s.Some? && s.value != ""
  }

  /** The position of each key in the fixed parameter order. */
  function Rank(key: Key): int {
    match key
    case Name => 0
    case Address => 1
    case MinPrice => 2
    case MaxPrice => 3
  }

  /** Keys appear in the fixed order, so each key at most once. */
  predicate InFixedOrder(params: seq<Param>) {
    forall i, j :: 0 <= i < j < |params| ==> Rank(params[i].key) < Rank(params[j].key)
  }

  predicate RankedBelow(params: seq<Param>, bound: int) {
    forall i :: 0 <= i < |params| ==> Rank(params[i].key) < bound
  }

  /** In fixed order, no key occurs twice. */
  lemma InFixedOrderHasDistinctKeys(params: seq<Param>)
    requires InFixedOrder(params)
    ensures forall i, j :: 0 <= i < j < |params| ==> params[i].key != params[j].key
  {
  }

  /** The value of the parameter with key `key`, if that key is present. */
  function ValueOf(params: seq<Param>, key: Key): Option<ParamValue>
  {
    if params == [] then None
    else if params[0].key == key then Some(params[0].value)
    else ValueOf(params[1..], key)
  }

  /** Appending a parameter leaves earlier keys' values as they were and
      makes a new key's value the appended one. */
  lemma {:induction false} ValueOfAppend(params: seq<Param>, p: Param, key: Key)
    ensures ValueOf(params + [p], key) ==
      if ValueOf(params, key).Some? then ValueOf(params, key)
      else if p.key == key then Some(p.value) else None
  {
    if params != [] {
      assert (params + [p])[1..] == params[1..] + [p];
      ValueOfAppend(params[1..], p, key);
    }
  }

  /** Appending a parameter under one of the four keys, with every earlier
      key ranked before it. */
  lemma AppendInOrder(params: seq<Param>, p: Param)
    requires InFixedOrder(params) && RankedBelow(params, Rank(p.key))
    ensures InFixedOrder(params + [p]) && RankedBelow(params + [p], Rank(p.key) + 1)
    ensures ValueOf(params + [p], p.key) == Some(p.value)
    ensures forall k :: k != p.key ==> ValueOf(params + [p], k) == ValueOf(params, k)
  {
    KeyAbsent(params, p.key);
    ValueOfAppend(params, p, p.key);
    forall k | k != p.key ensures ValueOf(params + [p], k) == ValueOf(params, k) {
      ValueOfAppend(params, p, k);
    }
  }

  lemma {:induction false} KeyAbsent(params: seq<Param>, key: Key)
    requires RankedBelow(params, Rank(key))
    ensures ValueOf(params, key) == None
  {
    if params != [] {
      KeyAbsent(params[1..], key);
    }
  }

  /** Builds the listing request. Text filters are sent only when truthy, so
      an undefined or empty string is left out; prices are sent whenever they
      are defined, zero included. */
  method GetProperties(filters: Option<PropertyFilterDto>) returns (request: ListingRequest)
    ensures request.prefix == "/properties?"
    ensures InFixedOrder(request.params)
    ensures ValueOf(request.params, Name) ==
      if filters.Some? && Truthy(filters.value.name) then Some(Text(filters.value.name.value)) else None
    ensures ValueOf(request.params, Address) ==
      if filters.Some? && Truthy(filters.value.address) then Some(Text(filters.value.address.value)) else None
    ensures ValueOf(request.params, MinPrice) ==
      if filters.Some? && filters.value.minPrice.Some? then Some(Number(filters.value.minPrice.value)) else None
    ensures ValueOf(request.params, MaxPrice) ==
      if filters.Some? && filters.value.maxPrice.Some? then Some(Number(filters.value.maxPrice.value)) else None
    ensures request.params == [] <==>
      filters.None? || (!Truthy(filters.value.name) && !Truthy(filters.value.address)
                        && filters.value.minPrice.None? && filters.value.maxPrice.None?)
  {
    var params: seq<Param> := [];
    if filters.Some? && Truthy(filters.value.name) {
      AppendInOrder(params, Param(Name, Text(filters.value.name.value)));
      params := params + [Param(Name, Text(filters.value.name.value))];
    }
    if filters.Some? && Truthy(filters.value.address) {
      AppendInOrder(params, Param(Address, Text(filters.value.address.value)));
      params := params + [Param(Address, Text(filters.value.address.value))];
    }
    if filters.Some? && filters.value.minPrice.Some? {
      AppendInOrder(params, Param(MinPrice, Number(filters.value.minPrice.value)));
      params := params + [Param(MinPrice, Number(filters.value.minPrice.value))];
    }
    if filters.Some? && filters.value.maxPrice.Some? {
      AppendInOrder(params, Param(MaxPrice, Number(filters.value.maxPrice.value)));
      params := params + [Param(MaxPrice, Number(filters.value.maxPrice.value))];
    }
    request := ListingRequest("/properties?", params);
  }

  /** The detail request path: `/properties/` followed by the identifier as given. */
  function GetPropertyByIdPath(id: string): (path: string)
    ensures |path| == |"/properties/"| + |id|
    ensures path[..|"/properties/"|] == "/properties/" && path[|"/properties/"|..] == id
  {
    "/properties/" + id
  }

  /** Different identifiers are requested at different paths. */
  lemma GetPropertyByIdPathInjective(a: string, b: string)
    requires GetPropertyByIdPath(a) == GetPropertyByIdPath(b)
    ensures a == b
  {
    assert a == GetPropertyByIdPath(a)[12..];
  }
}
