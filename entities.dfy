/** The persisted documents: a listed property, its owner and its images.
    Identifiers are the string form of the store's object ids. */
module Entities {
  import opened Wrappers
  import Text

  /** The identifier as the store keeps it. An identifier field is stored as
      an object id, so 24 hex digits are parsed in either case and read back
      in lower case. Any other text is kept as it is. */
  function StoredId(id: string): (s: string)
    ensures |s| == |id|
    ensures Text.IsObjectIdHex(id) <==> Text.IsObjectIdHex(s)
    ensures Text.IsObjectIdHex(id) ==> Text.Lower(s) == s && Text.Lower(s) == Text.Lower(id)
    ensures !Text.IsObjectIdHex(id) ==> s == id
  {
    if Text.IsObjectIdHex(id) then
      var t := Text.Lower(id);
      assert forall i :: 0 <= i < |t| ==> Text.IsHexDigit(t[i]) by {
        forall i | 0 <= i < |t| ensures Text.IsHexDigit(t[i]) {
          assert Text.IsHexDigit(id[i]);
        }
      }
      assert Text.Lower(t) == t;
      t
    else id
  }

  /** Two identifiers name the same stored object: the store compares them
      after parsing, so hex letter case does not matter. */
  predicate SameId(a: string, b: string) {
    StoredId(a) == StoredId(b)
  }

  /** An identifier that went through the store is in its stored form. */
  predicate IsStoredId(id: string) {
    StoredId(id) == id
  }

  /** Storing an identifier twice is storing it once. */
  lemma StoredIdIsStored(id: string)
    ensures IsStoredId(StoredId(id))
  {
  }

  /** Hex letter case is all an object id's spellings differ in. */
  lemma SameIdIgnoresHexCase(a: string, b: string)
    requires Text.IsObjectIdHex(a) && Text.IsObjectIdHex(b)
    ensures SameId(a, b) <==> Text.Lower(a) == Text.Lower(b)
  {
  }

  /** A stored identifier matches exactly itself among stored identifiers. */
  lemma StoredIdsMatchByEquality(a: string, b: string)
    requires IsStoredId(a) && IsStoredId(b)
    ensures SameId(a, b) <==> a == b
  {
  }

  /** A calendar instant; its parsing and arithmetic are not modelled. */
  datatype DateTime = DateTime(ticks: int)

  /** A listed property; `price` is an exact decimal amount. */
  datatype Property = Property(
    idProperty: string,
    name: string,
    address: string,
    price: real,
    codeInternal: string,
    year: int,
    idOwner: string)

  datatype Owner = Owner(
    idOwner: string,
    name: string,
    address: string,
    photo: Option<string>,
    birthday: DateTime)

  /** An image of a property; only enabled images are ever shown. */
  datatype PropertyImage = PropertyImage(
    idPropertyImage: string,
    idProperty: string,
    file: string,
    enabled: bool)
}
