/** Reads of the owner collection. */
module OwnerRepository {
  import opened Wrappers
  import opened Seqs
  import opened Entities

  /** The store's `o.IdOwner == id` filter. */
  function HasId(id: string): Owner -> bool {
    (o: Owner) => SameId(o.idOwner, id)
  }

  /** The first stored owner with identifier `id`, if any. */
  function GetById(owners: seq<Owner>, id: string): (r: Option<Owner>)
    ensures r.None? <==> forall o :: o in owners ==> !SameId(o.idOwner, id)
    ensures r.Some? ==> r.value in owners && SameId(r.value.idOwner, id)
  {
    FirstWhere(owners, HasId(id))
  }

  /** Every stored owner, in stored order (a find with an always-true predicate). */
  function GetAll(owners: seq<Owner>): (r: seq<Owner>)
    ensures r == owners
  {
    var all := Where(owners, (_: Owner) => true);
    WhereAll(owners, (_: Owner) => true);
    all
  }
}
