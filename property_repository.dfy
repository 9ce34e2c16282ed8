/** The property store and its listing query. Every filter that is present
    contributes one conjunct; the matches are then sorted by name. The store
    is a sequence in insertion order; the document database behind it is
    not modelled. */
module PropertyRepository {
  import opened Wrappers
  import opened Text
  import opened Seqs
  import opened Entities

  // ---------------------------------------------------------------------
  // The listing condition, stated declaratively
  // ---------------------------------------------------------------------

  /** A text filter is in force only when it is not null, empty or blank. */
  predicate TextFilterActive(filter: Option<string>) {
    !IsNullOrWhiteSpace(filter)
  }

  /** What a property must satisfy to be listed under the four optional filters. */
  predicate Satisfies(p: Property, name: Option<string>, address: Option<string>,
                      minPrice: Option<real>, maxPrice: Option<real>)
  {
    && NameCondition(p, name)
    && AddressCondition(p, address)
    && (minPrice.Some? ==> p.price >= minPrice.value)
    && (maxPrice.Some? ==> p.price <= maxPrice.value)
  }

  predicate NameCondition(p: Property, name: Option<string>) {
    TextFilterActive(name) ==> ContainsIgnoreCase(p.name, name.value)
  }

  predicate AddressCondition(p: Property, address: Option<string>) {
    TextFilterActive(address) ==> ContainsIgnoreCase(p.address, address.value)
  }

  function Condition(name: Option<string>, address: Option<string>,
                     minPrice: Option<real>, maxPrice: Option<real>): Property -> bool
  {
    (p: Property) => Satisfies(p, name, address, minPrice, maxPrice)
  }

  /** How many of the four filters are in force. */
  function ActiveFilterCount(name: Option<string>, address: Option<string>,
                             minPrice: Option<real>, maxPrice: Option<real>): nat
  {
    (if TextFilterActive(name) then 1 else 0) + (if TextFilterActive(address) then 1 else 0)
    + (if minPrice.Some? then 1 else 0) + (if maxPrice.Some? then 1 else 0)
  }

  // ---------------------------------------------------------------------
  // The filter as the repository builds it
  // ---------------------------------------------------------------------

  /** One conjunct of the store query. A text pattern is matched as a
      case-insensitive partial match. */
  datatype FieldFilter =
    | NameRegex(pattern: string)
    | AddressRegex(pattern: string)
    | PriceGte(bound: real)
    | PriceLte(bound: real)

  /** The query handed to the store: no condition at all, or a conjunction. */
  datatype FilterDefinition = Empty | And(conjuncts: seq<FieldFilter>)

  predicate Holds(f: FieldFilter, p: Property) {
    match f
    case NameRegex(pattern) => ContainsIgnoreCase(p.name, pattern)
    case AddressRegex(pattern) => ContainsIgnoreCase(p.address, pattern)
    case PriceGte(bound) => p.price >= bound
    case PriceLte(bound) => p.price <= bound
  }

  predicate Matches(d: FilterDefinition, p: Property) {
    match d
    case Empty => true
    case And(fs) => AllHold(fs, p)
  }

  predicate AllHold(fs: seq<FieldFilter>, p: Property) {
    forall i :: 0 <= i < |fs| ==> Holds(fs[i], p)
  }

  lemma AllHoldAppend(fs: seq<FieldFilter>, f: FieldFilter)
    ensures forall p :: AllHold(fs + [f], p) <==> AllHold(fs, p) && Holds(f, p)
  {
    forall p ensures AllHold(fs + [f], p) <==> AllHold(fs, p) && Holds(f, p) {
      if AllHold(fs, p) && Holds(f, p) {
        forall i | 0 <= i < |fs + [f]| ensures Holds((fs + [f])[i], p) {
          if i < |fs| { assert (fs + [f])[i] == fs[i]; }
        }
      }
      if AllHold(fs + [f], p) {
        forall i | 0 <= i < |fs| ensures Holds(fs[i], p) { assert (fs + [f])[i] == fs[i]; }
        assert (fs + [f])[|fs|] == f;
      }
    }
  }

  function MatchedBy(d: FilterDefinition): Property -> bool {
    (p: Property) => Matches(d, p)
  }

  /** Builds the store query from the four optional filters, one conjunct per
      filter in force, and no conjunction at all when none is. */
  method BuildFilter(name: Option<string>, address: Option<string>,
                     minPrice: Option<real>, maxPrice: Option<real>)
    returns (finalFilter: FilterDefinition)
    ensures finalFilter.Empty? <==> ActiveFilterCount(name, address, minPrice, maxPrice) == 0
    ensures finalFilter.And? ==>
      |finalFilter.conjuncts| == ActiveFilterCount(name, address, minPrice, maxPrice)
    ensures forall p :: Matches(finalFilter, p) <==> Satisfies(p, name, address, minPrice, maxPrice)
  {
    var filters: seq<FieldFilter> := [];
    if !IsNullOrWhiteSpace(name) {
      AllHoldAppend(filters, NameRegex(name.value));
      filters := filters + [NameRegex(name.value)];
    }
    assert forall p :: AllHold(filters, p) <==> NameCondition(p, name);
    if !IsNullOrWhiteSpace(address) {
      AllHoldAppend(filters, AddressRegex(address.value));
      filters := filters + [AddressRegex(address.value)];
    }
    assert forall p :: AllHold(filters, p) <==> NameCondition(p, name) && AddressCondition(p, address);
    if minPrice.Some? {
      AllHoldAppend(filters, PriceGte(minPrice.value));
      filters := filters + [PriceGte(minPrice.value)];
    }
    if maxPrice.Some? {
      AllHoldAppend(filters, PriceLte(maxPrice.value));
      filters := filters + [PriceLte(maxPrice.value)];
    }
    finalFilter := if |filters| > 0 then And(filters) else Empty;
  }

  // ---------------------------------------------------------------------
  // Sorting by name
  // ---------------------------------------------------------------------

  /** Non-decreasing by name in ordinal string order. */
  predicate SortedByName(s: seq<Property>) {
    forall i, j :: 0 <= i < j < |s| ==> OrdinalLe(s[i].name, s[j].name)
  }

  /** `x` goes before a sorted sequence whose head it does not exceed. */
  lemma BelowHeadIsBelowAll(x: Property, s: seq<Property>)
    requires SortedByName(s) && s != [] && OrdinalLe(x.name, s[0].name)
    ensures forall j :: 0 <= j < |s| ==> OrdinalLe(x.name, s[j].name)
  {
    forall j | 0 < j < |s| ensures OrdinalLe(x.name, s[j].name) {
      OrdinalTransitive(x.name, s[0].name, s[j].name);
    }
  }

  /** The head of a sorted sequence stays below the rest with `x` inserted,
      when `x` does not precede it. */
  lemma HeadBelowInserted(x: Property, s: seq<Property>, t: seq<Property>)
    requires SortedByName(s) && s != [] && OrdinalLe(s[0].name, x.name)
    requires multiset(t) == multiset(s[1..]) + multiset{x}
    ensures forall j :: 0 <= j < |t| ==> OrdinalLe(s[0].name, t[j].name)
  {
    forall j | 0 <= j < |t| ensures OrdinalLe(s[0].name, t[j].name) {
      assert t[j] in multiset(t);
      if t[j] != x {
        assert t[j] in multiset(s[1..]);
        var k :| 0 <= k < |s[1..]| && s[1..][k] == t[j];
        assert s[k + 1] == t[j];
      }
    }
  }

  function InsertByName(x: Property, s: seq<Property>): (r: seq<Property>)
    requires SortedByName(s)
    ensures SortedByName(r)
    ensures multiset(r) == multiset(s) + multiset{x}
  {
    if s == [] then [x]
    else if OrdinalLe(x.name, s[0].name) then
      BelowHeadIsBelowAll(x, s);
      [x] + s
    else
      var t := InsertByName(x, s[1..]);
      OrdinalTotal(x.name, s[0].name);
      HeadBelowInserted(x, s, t);
      assert s == [s[0]] + s[1..];
      [s[0]] + t
  }

  /** Sorts by name (insertion sort, so equal names keep their stored order). */
  function SortByName(s: seq<Property>): (r: seq<Property>)
    ensures SortedByName(r)
    ensures multiset(r) == multiset(s)
  {
    if s == [] then []
    else
      assert s == [s[0]] + s[1..];
      InsertByName(s[0], SortByName(s[1..]))
  }

  // ---------------------------------------------------------------------
  // The listing
  // ---------------------------------------------------------------------

  /** The listing the store returns: the stored properties satisfying every
      filter in force, sorted by name. */
  function Listing(store: seq<Property>, name: Option<string>, address: Option<string>,
                   minPrice: Option<real>, maxPrice: Option<real>): (r: seq<Property>)
    ensures SortedByName(r)
    ensures multiset(r) == multiset(Where(store, Condition(name, address, minPrice, maxPrice)))
    ensures |r| <= |store|
  {
    var found := Where(store, Condition(name, address, minPrice, maxPrice));
    var r := SortByName(found);
    assert |r| == |multiset(r)| == |multiset(found)| == |found|;
    r
  }

  /** A property is listed exactly when it is stored and satisfies every
      filter in force; in particular every listed price lies within the
      inclusive bounds given. */
  lemma ListingMembers(store: seq<Property>, name: Option<string>, address: Option<string>,
                       minPrice: Option<real>, maxPrice: Option<real>, p: Property)
    ensures p in Listing(store, name, address, minPrice, maxPrice) <==>
      p in store && Satisfies(p, name, address, minPrice, maxPrice)
    ensures p in Listing(store, name, address, minPrice, maxPrice) ==>
      && (TextFilterActive(name) ==> ContainsIgnoreCase(p.name, name.value))
      && (TextFilterActive(address) ==> ContainsIgnoreCase(p.address, address.value))
      && (minPrice.Some? ==> p.price >= minPrice.value)
      && (maxPrice.Some? ==> p.price <= maxPrice.value)
  {
    var found := Where(store, Condition(name, address, minPrice, maxPrice));
    var r := Listing(store, name, address, minPrice, maxPrice);
    assert p in r <==> p in multiset(r);
    assert p in found <==> p in multiset(found);
  }

  /** With no filter in force the listing holds every stored property, with
      its multiplicity. */
  lemma NoFiltersListsEverything(store: seq<Property>, name: Option<string>, address: Option<string>)
    requires !TextFilterActive(name) && !TextFilterActive(address)
    ensures multiset(Listing(store, name, address, None, None)) == multiset(store)
    ensures |Listing(store, name, address, None, None)| == |store|
  {
    WhereAll(store, Condition(name, address, None, None));
    assert |Listing(store, name, address, None, None)| == |multiset(store)|;
  }

  /** A blank text filter adds no condition: the listing is the one obtained
      without it. */
  lemma BlankTextFiltersAreIgnored(store: seq<Property>, name: Option<string>, address: Option<string>,
                                   minPrice: Option<real>, maxPrice: Option<real>)
    ensures Listing(store, name, address, minPrice, maxPrice)
         == Listing(store, if TextFilterActive(name) then name else None,
                           if TextFilterActive(address) then address else None, minPrice, maxPrice)
  {
    var name', address' := if TextFilterActive(name) then name else None,
                           if TextFilterActive(address) then address else None;
    assert !IsNullOrWhiteSpace(None) == false;
    WhereCongruent(store, Condition(name, address, minPrice, maxPrice),
                          Condition(name', address', minPrice, maxPrice));
  }

  /** The four conditions combine by AND: the listing holds exactly what each
      filter alone would keep. */
  lemma ListingIsIntersection(store: seq<Property>, name: Option<string>, address: Option<string>,
                              minPrice: Option<real>, maxPrice: Option<real>, p: Property)
    ensures p in Listing(store, name, address, minPrice, maxPrice) <==>
      && p in Listing(store, name, None, None, None)
      && p in Listing(store, None, address, None, None)
      && p in Listing(store, None, None, minPrice, None)
      && p in Listing(store, None, None, None, maxPrice)
  {
    ListingMembers(store, name, address, minPrice, maxPrice, p);
    ListingMembers(store, name, None, None, None, p);
    ListingMembers(store, None, address, None, None, p);
    ListingMembers(store, None, None, minPrice, None, p);
    ListingMembers(store, None, None, None, maxPrice, p);
  }

  /** Query `(name2, ...)` narrows `(name1, ...)` when it keeps every filter
      that `(name1, ...)` has in force and may add more. */
  predicate Narrows(name2: Option<string>, address2: Option<string>, minPrice2: Option<real>, maxPrice2: Option<real>,
                    name1: Option<string>, address1: Option<string>, minPrice1: Option<real>, maxPrice1: Option<real>)
  {
    && (TextFilterActive(name1) ==> name2 == name1)
    && (TextFilterActive(address1) ==> address2 == address1)
    && (minPrice1.Some? ==> minPrice2 == minPrice1)
    && (maxPrice1.Some? ==> maxPrice2 == maxPrice1)
  }

  /** Adding filters never enlarges the listing. */
  lemma NarrowingNeverEnlarges(store: seq<Property>,
                               name2: Option<string>, address2: Option<string>, minPrice2: Option<real>, maxPrice2: Option<real>,
                               name1: Option<string>, address1: Option<string>, minPrice1: Option<real>, maxPrice1: Option<real>)
    requires Narrows(name2, address2, minPrice2, maxPrice2, name1, address1, minPrice1, maxPrice1)
    ensures multiset(Listing(store, name2, address2, minPrice2, maxPrice2))
         <= multiset(Listing(store, name1, address1, minPrice1, maxPrice1))
    ensures |Listing(store, name2, address2, minPrice2, maxPrice2)|
         <= |Listing(store, name1, address1, minPrice1, maxPrice1)|
  {
    WhereMonotone(store, Condition(name2, address2, minPrice2, maxPrice2),
                         Condition(name1, address1, minPrice1, maxPrice1));
    MultisetSubsetCardinality(multiset(Listing(store, name2, address2, minPrice2, maxPrice2)),
                              multiset(Listing(store, name1, address1, minPrice1, maxPrice1)));
  }

  // ---------------------------------------------------------------------
  // The store
  // ---------------------------------------------------------------------

  /** Identifiers are unique in the store (the `_id` index), compared as
      the store compares them. */
  predicate UniqueIds(s: seq<Property>) {
    forall i, j :: 0 <= i < j < |s| ==> !SameId(s[i].idProperty, s[j].idProperty)
  }

  /** Every identifier, the property's and its owner's, is in the form the
      store reads back. */
  predicate StoredIds(s: seq<Property>) {
    forall p :: p in s ==> IsStoredId(p.idProperty) && IsStoredId(p.idOwner)
  }

  /** The store's `p.IdProperty == id` filter. */
  function HasId(id: string): Property -> bool {
    (p: Property) => SameId(p.idProperty, id)
  }

  /** The position of the first stored property with identifier `id`. */
  function IndexOfId(s: seq<Property>, id: string): (k: Option<nat>)
    ensures k.None? <==> forall p :: p in s ==> !SameId(p.idProperty, id)
    ensures k.Some? ==> k.value < |s| && SameId(s[k.value].idProperty, id)
    ensures k.Some? ==> forall j :: 0 <= j < k.value ==> !SameId(s[j].idProperty, id)
  {
    if s == [] then None
    else if SameId(s[0].idProperty, id) then Some(0)
    else
      var k := IndexOfId(s[1..], id);
      assert s == [s[0]] + s[1..];
      if k.None? then None else Some(k.value + 1)
  }

  /** The document the store keeps when `p` is written: the same fields, with
      both object-id fields, the property's and its owner's, in stored form. */
  function Stored(p: Property): (q: Property)
    ensures q.(idProperty := p.idProperty, idOwner := p.idOwner) == p
    ensures IsStoredId(q.idProperty) && SameId(q.idProperty, p.idProperty)
    ensures IsStoredId(q.idOwner) && SameId(q.idOwner, p.idOwner)
  {
    StoredIdIsStored(p.idProperty);
    StoredIdIsStored(p.idOwner);
    p.(idProperty := StoredId(p.idProperty), idOwner := StoredId(p.idOwner))
  }

  /** In a store of unique identifiers, no position other than the one
      `IndexOfId` finds matches `id`. */
  lemma OthersDiffer(s: seq<Property>, id: string, j: int)
    requires UniqueIds(s) && IndexOfId(s, id).Some? && 0 <= j < |s| && j != IndexOfId(s, id).value
    ensures !SameId(s[j].idProperty, id)
  {
    var k := IndexOfId(s, id).value;
    if k < j {
      assert !SameId(s[k].idProperty, s[j].idProperty);
    }
  }

  /** Removing one property keeps the others in order. */
  lemma RemoveAtShifts(s: seq<Property>, k: nat)
    requires k < |s|
    ensures |s[..k] + s[k + 1..]| == |s| - 1
    ensures forall i :: 0 <= i < |s| - 1 ==> (s[..k] + s[k + 1..])[i] == if i < k then s[i] else s[i + 1]
  {
  }

  /** Removing one property keeps the others unique and in stored form. */
  lemma RemoveAt(s: seq<Property>, k: nat)
    requires k < |s|
    ensures UniqueIds(s) ==> UniqueIds(s[..k] + s[k + 1..])
    ensures StoredIds(s) ==> StoredIds(s[..k] + s[k + 1..])
  {
    var t := s[..k] + s[k + 1..];
    RemoveAtShifts(s, k);
    if UniqueIds(s) {
      forall i, j | 0 <= i < j < |t| ensures !SameId(t[i].idProperty, t[j].idProperty) {
        var i' := if i < k then i else i + 1;
        var j' := if j < k then j else j + 1;
        assert t[i] == s[i'] && t[j] == s[j'];
      }
    }
    if StoredIds(s) {
      forall p | p in t ensures IsStoredId(p.idProperty) && IsStoredId(p.idOwner) {
        var i :| 0 <= i < |t| && t[i] == p;
        assert p == s[if i < k then i else i + 1];
      }
    }
  }

  /** Why a write was refused. */
  datatype WriteError = DuplicateKey(id: string)

  class Repository {
    var properties: seq<Property>

    ghost predicate Valid()
      reads this
    {
      UniqueIds(properties) && StoredIds(properties)
    }

    constructor (initial: seq<Property>)
      requires UniqueIds(initial) && StoredIds(initial)
      ensures Valid() && properties == initial
    {
      properties := initial;
    }

    /** The listing under the four optional filters: the store query is built
        first, then the matches are sorted by name. */
    method GetAll(name: Option<string>, address: Option<string>,
                  minPrice: Option<real>, maxPrice: Option<real>) returns (r: seq<Property>)
      ensures r == Listing(properties, name, address, minPrice, maxPrice)
    {
      var finalFilter := BuildFilter(name, address, minPrice, maxPrice);
      var found := Where(properties, MatchedBy(finalFilter));
      WhereCongruent(properties, MatchedBy(finalFilter), Condition(name, address, minPrice, maxPrice));
      r := SortByName(found);
    }

    /** The first stored property with identifier `id`, if any. */
    function GetById(id: string): (r: Option<Property>)
      reads this
      ensures r.None? <==> forall p :: p in properties ==> !SameId(p.idProperty, id)
      ensures r.Some? ==> r.value in properties && SameId(r.value.idProperty, id)
    {
      FirstWhere(properties, HasId(id))
    }

    /** Inserts `property` and returns it as given; the store keeps it with
        its object-id fields in stored form. An identifier already stored is
        refused and the store is left as it was. */
    method Create(property: Property) returns (r: Result<Property, WriteError>)
      requires Valid()
      modifies this
      ensures Valid()
      ensures (exists p :: p in old(properties) && SameId(p.idProperty, property.idProperty)) ==>
        r == Failure(DuplicateKey(property.idProperty)) && properties == old(properties)
      ensures (forall p :: p in old(properties) ==> !SameId(p.idProperty, property.idProperty)) ==>
        r == Success(property) && properties == old(properties) + [Stored(property)]
    {
      var k := IndexOfId(properties, property.idProperty);
      if k.Some? {
        r := Failure(DuplicateKey(property.idProperty));
      } else {
        properties := properties + [Stored(property)];
        r := Success(property);
      }
    }

    /** Replaces the stored property that has the same identifier. The result
        is whether a document was modified: `false` when there is none, in
        which case nothing changes, and `false` as well when the stored
        document already equals the replacement. */
    method Update(property: Property) returns (ok: bool)
      requires Valid()
      modifies this
      ensures Valid()
      ensures IndexOfId(old(properties), property.idProperty).None? ==> !ok && properties == old(properties)
      ensures IndexOfId(old(properties), property.idProperty).Some? ==>
        var k := IndexOfId(old(properties), property.idProperty).value;
        && properties == old(properties)[k := Stored(property)]
        && (ok <==> old(properties)[k] != Stored(property))
      ensures ok <==> Stored(property) !in old(properties)
                      && exists p :: p in old(properties) && SameId(p.idProperty, property.idProperty)
    {
      var k := IndexOfId(properties, property.idProperty);
      if k.None? {
        ok := false;
      } else {
        ghost var before := properties;
        var replacement := Stored(property);
        ok := properties[k.value] != replacement;
        properties := properties[k.value := replacement];
        forall j | 0 <= j < |before| && j != k.value ensures before[j] != replacement {
          OthersDiffer(before, property.idProperty, j);
        }
        forall i, j | 0 <= i < j < |properties|
          ensures !SameId(properties[i].idProperty, properties[j].idProperty)
        {
          if i == k.value || j == k.value {
            assert SameId(replacement.idProperty, before[k.value].idProperty);
          }
        }
      }
    }

    /** Removes the property with identifier `id`; `true` exactly when one
        existed. The other properties stay in place, in order. */
    method Delete(id: string) returns (ok: bool)
      requires Valid()
      modifies this
      ensures Valid()
      ensures ok <==> exists p :: p in old(properties) && SameId(p.idProperty, id)
      ensures forall p :: p in properties ==> !SameId(p.idProperty, id)
      ensures !ok ==> properties == old(properties)
      ensures ok ==> |properties| == |old(properties)| - 1
      ensures ok ==> var k := IndexOfId(old(properties), id).value;
        properties == old(properties)[..k] + old(properties)[k + 1..]
    {
      var k := IndexOfId(properties, id);
      if k.None? {
        ok := false;
      } else {
        ghost var before := properties;
        RemoveAtShifts(before, k.value);
        RemoveAt(before, k.value);
        properties := properties[..k.value] + properties[k.value + 1..];
        ok := true;
        forall i | 0 <= i < |properties| ensures !SameId(properties[i].idProperty, id) {
          OthersDiffer(before, id, if i < k.value then i else i + 1);
        }
      }
    }
  }
}
