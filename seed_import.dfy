/** The seed importer's conversion of extended-JSON documents before they are
    inserted: an `$oid` that is 24 hexadecimal digits becomes that object id,
    any other truthy primitive `$oid` is replaced through a table of freshly
    generated ids, an object `$oid` gets a fresh id that the table does not
    keep, a `$date` (consulted only when there is no truthy `$oid`) becomes a
    date and every other value is copied. A collection whose
    seed array is missing or empty is skipped. Reading the file, the database
    calls, id generation and date parsing are not modelled: generated ids are
    numbered by a counter and a date keeps its source value. */
module SeedImport {
  import opened Wrappers
  import Text

  // ---------------------------------------------------------------------
  // Values
  // ---------------------------------------------------------------------

  /** A parsed JSON value; an object lists its members in property order. */
  datatype Json =
    | JNull
    | JBool(b: bool)
    | JNumber(n: real)
    | JString(s: string)
    | JArray(items: seq<Json>)
    | JObject(members: seq<Member>)

  datatype Member = Member(name: string, value: Json)

  /** JavaScript truthiness. */
  predicate Truthy(v: Json) {
    match v
    case JNull => false
    case JBool(b) => b
    case JNumber(n) => n != 0.0
    case JString(s) => s != ""
    case JArray(_) => true
    case JObject(_) => true
  }

  /** `typeof v === 'object'` for a non-null value. */
  predicate IsObject(v: Json) {
    v.JArray? || v.JObject?
  }

  /** Values a JavaScript `Map` compares by value; objects and arrays are
      compared by identity instead. */
  predicate IsPrimitive(v: Json) {
    v.JBool? || v.JNumber? || v.JString?
  }

  /** Property access `v[key]`; `None` stands for `undefined`. */
  function Get(v: Json, key: string): Option<Json> {
    if v.JObject? then Lookup(v.members, key) else None
  }

  function Lookup(members: seq<Member>, key: string): Option<Json> {
    if members == [] then None
    else if members[0].name == key then Some(members[0].value)
    else Lookup(members[1..], key)
  }

  /** An object id: one given by its hex digits (case does not matter, so
      they are kept lower-cased), or the `serial`-th freshly generated one. */
  datatype ObjectId = FromHex(hex: string) | Generated(serial: nat)

  /** A converted value. */
  datatype Value = Copied(json: Json) | Oid(id: ObjectId) | Date(source: Json)

  datatype Field = Field(name: string, value: Value)

  /** How one member value is converted. */
  datatype Treatment =
    | KeepOid(hex: string)
    | RemapOid(key: Json)
    | FreshOid
    | ToDate(source: Json)
    | CopyValue

  /** The decision the importer takes for a value: `$oid` is checked before
      `$date`, and only truthy objects are looked into. */
  function Classify(v: Json): (t: Treatment)
    ensures t.KeepOid? <==>
      Truthy(v) && IsObject(v) && Get(v, "$oid").Some? && Get(v, "$oid").value.JString?
      && Text.IsObjectIdHex(Get(v, "$oid").value.s)
    ensures t.KeepOid? ==> Get(v, "$oid") == Some(JString(t.hex))
    ensures t.RemapOid? ==>
      Get(v, "$oid") == Some(t.key) && Truthy(t.key) && IsPrimitive(t.key)
      && !(t.key.JString? && Text.IsObjectIdHex(t.key.s))
    ensures t.FreshOid? <==> Get(v, "$oid").Some? && IsObject(Get(v, "$oid").value)
    ensures t.ToDate? ==>
      !(Get(v, "$oid").Some? && Truthy(Get(v, "$oid").value)) && Get(v, "$date") == Some(t.source)
      && Truthy(t.source)
    ensures t.CopyValue? <==>
      !(Truthy(v) && IsObject(v))
      || (!(Get(v, "$oid").Some? && Truthy(Get(v, "$oid").value))
          && !(Get(v, "$date").Some? && Truthy(Get(v, "$date").value)))
  {
    if Truthy(v) && IsObject(v) then
      var oid := Get(v, "$oid");
      var date := Get(v, "$date");
      if oid.Some? && Truthy(oid.value) then
        if oid.value.JString? && |oid.value.s| == 24 && Text.IsObjectIdHex(oid.value.s) then KeepOid(oid.value.s)
        else if IsPrimitive(oid.value) then RemapOid(oid.value)
        else FreshOid
      else if date.Some? && Truthy(date.value) then ToDate(date.value)
      else CopyValue
    else CopyValue
  }

  // ---------------------------------------------------------------------
  // The conversion, as functions of the id table and the id counter
  // ---------------------------------------------------------------------

  /** The id table of one collection and the next generated id's serial. */
  datatype ImportState = ImportState(idMap: map<Json, ObjectId>, next: nat)

  /** Every table entry is a generated id older than the counter, and no two
      entries share an id. */
  predicate Valid(st: ImportState) {
    && (forall k :: k in st.idMap ==> st.idMap[k].Generated? && st.idMap[k].serial < st.next)
    && (forall k, k' :: k in st.idMap && k' in st.idMap && k != k' ==> st.idMap[k] != st.idMap[k'])
  }

  predicate SubMap(m: map<Json, ObjectId>, m': map<Json, ObjectId>) {
    forall k :: k in m ==> k in m' && m'[k] == m[k]
  }

  /** From `a` to `b` the table only grows, no entry is overwritten, and each
      new entry is an id generated in between. */
  predicate Grows(a: ImportState, b: ImportState) {
    && a.next <= b.next
    && SubMap(a.idMap, b.idMap)
    && (forall k :: k in b.idMap && k !in a.idMap ==>
          b.idMap[k].Generated? && a.next <= b.idMap[k].serial < b.next)
  }

  lemma GrowsTransitive(a: ImportState, b: ImportState, c: ImportState)
    requires Grows(a, b) && Grows(b, c)
    ensures Grows(a, c)
  {
  }

  /** The converted value `c` is what the treatment of `v` calls for, reading
      remapped ids from the table `m`. */
  predicate Agrees(v: Json, c: Value, m: map<Json, ObjectId>) {
    match Classify(v)
    case KeepOid(hex) => c == Oid(FromHex(Text.Lower(hex)))
    case RemapOid(k) => k in m && c == Oid(m[k])
    case FreshOid => c.Oid? && c.id.Generated?
    case ToDate(s) => c == Date(s)
    case CopyValue => c == Copied(v)
  }

  lemma AgreesStable(v: Json, c: Value, m: map<Json, ObjectId>, m': map<Json, ObjectId>)
    requires Agrees(v, c, m) && SubMap(m, m')
    ensures Agrees(v, c, m')
  {
  }

  /** When `v` is an object `$oid`, `c` is an id generated while the counter
      went from `lo` to `hi`. */
  predicate FreshBetween(v: Json, c: Value, lo: nat, hi: nat) {
    Classify(v).FreshOid? ==> c.Oid? && c.id.Generated? && lo <= c.id.serial < hi
  }

  /** One value converted. An object `$oid` gets an id newer than every id
      generated so far and records nothing in the table. */
  function ValueConversion(st: ImportState, v: Json): (r: (Value, ImportState))
    ensures Grows(st, r.1) && r.1.next <= st.next + 1
    ensures Valid(st) ==> Valid(r.1)
    ensures Agrees(v, r.0, r.1.idMap)
    ensures FreshBetween(v, r.0, st.next, r.1.next)
    ensures Classify(v).FreshOid? ==> r.1.idMap == st.idMap
  {
    match Classify(v)
    case KeepOid(hex) => (Oid(FromHex(Text.Lower(hex))), st)
    case RemapOid(k) =>
      if k in st.idMap then (Oid(st.idMap[k]), st)
      else (Oid(Generated(st.next)), ImportState(st.idMap[k := Generated(st.next)], st.next + 1))
    case FreshOid => (Oid(Generated(st.next)), st.(next := st.next + 1))
    case ToDate(s) => (Date(s), st)
    case CopyValue => (Copied(v), st)
  }

  /** A document's members converted in order, threading the table. */
  function DocumentConversion(st: ImportState, doc: seq<Member>): (r: (seq<Field>, ImportState))
    ensures |r.0| == |doc|
    decreases |doc|
  {
    if doc == [] then ([], st)
    else
      var (fields, st1) := DocumentConversion(st, doc[..|doc| - 1]);
      var (v, st2) := ValueConversion(st1, doc[|doc| - 1].value);
      (fields + [Field(doc[|doc| - 1].name, v)], st2)
  }

  /** A collection's documents converted in order, threading the table. */
  function CollectionConversion(st: ImportState, docs: seq<seq<Member>>): (r: (seq<seq<Field>>, ImportState))
    ensures |r.0| == |docs|
    decreases |docs|
  {
    if docs == [] then ([], st)
    else
      var (converted, st1) := CollectionConversion(st, docs[..|docs| - 1]);
      var (fields, st2) := DocumentConversion(st1, docs[|docs| - 1]);
      (converted + [fields], st2)
  }

  /** A converted document has the input's field names, in the input's order;
      each value is converted as its treatment says, against the final table;
      the table only grows. */
  lemma {:induction false} DocumentConversionFacts(st: ImportState, doc: seq<Member>)
    ensures var (fields, st') := DocumentConversion(st, doc);
      && (forall i :: 0 <= i < |doc| ==> fields[i].name == doc[i].name)
      && (forall i :: 0 <= i < |doc| ==> Agrees(doc[i].value, fields[i].value, st'.idMap))
      && Grows(st, st')
      && (Valid(st) ==> Valid(st'))
    decreases |doc|
  {
    if doc != [] {
      var init := doc[..|doc| - 1];
      DocumentConversionFacts(st, init);
      var (fields, st1) := DocumentConversion(st, init);
      var (v, st2) := ValueConversion(st1, doc[|doc| - 1].value);
      forall i | 0 <= i < |init| ensures Agrees(doc[i].value, fields[i].value, st2.idMap) {
        assert doc[i] == init[i];
        AgreesStable(doc[i].value, fields[i].value, st1.idMap, st2.idMap);
      }
      GrowsTransitive(st, st1, st2);
    }
  }

  /** The ids the object `$oid`s of one document get are new: each is newer
      than the ids generated before, later members get later ids, so no two
      are equal, and none of them is an id the table hands out. */
  lemma {:induction false} DocumentFreshIds(st: ImportState, doc: seq<Member>)
    ensures var (fields, st') := DocumentConversion(st, doc);
      && (forall i :: 0 <= i < |doc| ==> FreshBetween(doc[i].value, fields[i].value, st.next, st'.next))
      && (forall i, j ::
            0 <= i < j < |doc| && Classify(doc[i].value).FreshOid? && Classify(doc[j].value).FreshOid?
            ==> fields[i].value.id.serial < fields[j].value.id.serial)
      && (Valid(st) ==>
            forall i, k ::
              0 <= i < |doc| && Classify(doc[i].value).FreshOid? && k in st'.idMap
              ==> st'.idMap[k] != fields[i].value.id)
    decreases |doc|
  {
    if doc != [] {
      var init := doc[..|doc| - 1];
      var n := |doc| - 1;
      DocumentFreshIds(st, init);
      DocumentConversionFacts(st, init);
      var (fields, st1) := DocumentConversion(st, init);
      var (v, st2) := ValueConversion(st1, doc[n].value);
      var all := fields + [Field(doc[n].name, v)];
      assert DocumentConversion(st, doc) == (all, st2);
      forall i | 0 <= i < n ensures doc[i] == init[i] && all[i] == fields[i] { }
      if Valid(st) {
        forall i, k | 0 <= i < |doc| && Classify(doc[i].value).FreshOid? && k in st2.idMap
          ensures st2.idMap[k] != all[i].value.id
        {
          if i == n {
            assert k in st1.idMap;
          } else if k !in st1.idMap {
            assert st1.next <= st2.idMap[k].serial;
          }
        }
      }
    }
  }

  /** `documents` is `source` converted against the table `m`: the same
      number of documents, each with the source's field names in order and
      each value converted as its treatment says. */
  predicate Converts(source: seq<seq<Member>>, documents: seq<seq<Field>>, m: map<Json, ObjectId>) {
    && |documents| == |source|
    && (forall d :: 0 <= d < |source| ==> |documents[d]| == |source[d]|)
    && (forall d, i :: 0 <= d < |source| && 0 <= i < |source[d]| ==>
          documents[d][i].name == source[d][i].name
          && Agrees(source[d][i].value, documents[d][i].value, m))
  }

  /** `documents` is `source` converted against some table. */
  ghost predicate ConvertedFrom(source: seq<seq<Member>>, documents: seq<seq<Field>>) {
    exists m: map<Json, ObjectId> :: Converts(source, documents, m)
  }

  lemma ConvertsStable(source: seq<seq<Member>>, documents: seq<seq<Field>>,
                       m: map<Json, ObjectId>, m': map<Json, ObjectId>)
    requires Converts(source, documents, m) && SubMap(m, m')
    ensures Converts(source, documents, m')
  {
    forall d, i | 0 <= d < |source| && 0 <= i < |source[d]|
      ensures Agrees(source[d][i].value, documents[d][i].value, m')
    {
      AgreesStable(source[d][i].value, documents[d][i].value, m, m');
    }
  }

  /** Within one collection every field is converted against the same final
      table. */
  lemma {:induction false} CollectionConversionFacts(st: ImportState, docs: seq<seq<Member>>)
    ensures var (converted, st') := CollectionConversion(st, docs);
      Converts(docs, converted, st'.idMap) && Grows(st, st') && (Valid(st) ==> Valid(st'))
    decreases |docs|
  {
    if docs != [] {
      var init := docs[..|docs| - 1];
      CollectionConversionFacts(st, init);
      var (converted, st1) := CollectionConversion(st, init);
      var last := docs[|docs| - 1];
      DocumentConversionFacts(st1, last);
      var (fields, st2) := DocumentConversion(st1, last);
      ConvertsStable(init, converted, st1.idMap, st2.idMap);
      var all: seq<seq<Field>> := converted + [fields];
      forall d: int, i: int | 0 <= d < |docs| && 0 <= i < |docs[d]|
        ensures all[d][i].name == docs[d][i].name && Agrees(docs[d][i].value, all[d][i].value, st2.idMap)
      {
        if d < |init| {
          assert docs[d] == init[d] && all[d] == converted[d];
        }
      }
      GrowsTransitive(st, st1, st2);
    }
  }

  /** `converted` has one document per source document, each with one field
      per source member. */
  predicate SameShape(docs: seq<seq<Member>>, converted: seq<seq<Field>>) {
    |converted| == |docs| && forall d :: 0 <= d < |docs| ==> |converted[d]| == |docs[d]|
  }

  /** Every object `$oid` of `docs` got an id generated between `lo` and `hi`. */
  predicate FreshWithin(docs: seq<seq<Member>>, converted: seq<seq<Field>>, lo: nat, hi: nat) {
    && SameShape(docs, converted)
    && forall d, i :: 0 <= d < |docs| && 0 <= i < |docs[d]| ==>
         FreshBetween(docs[d][i].value, converted[d][i].value, lo, hi)
  }

  /** The serial of a generated id, and -1 for any other value. */
  function Serial(c: Value): int {
    if c.Oid? && c.id.Generated? then c.id.serial else -1
  }

  /** Object `$oid`s later in `docs` (by document, then by member) got later ids. */
  predicate FreshIncreasing(docs: seq<seq<Member>>, converted: seq<seq<Field>>) {
    && SameShape(docs, converted)
    && forall d, i, e, j ::
         0 <= d < |docs| && 0 <= i < |docs[d]| && 0 <= e < |docs| && 0 <= j < |docs[e]|
         && (d < e || (d == e && i < j))
         && Classify(docs[d][i].value).FreshOid? && Classify(docs[e][j].value).FreshOid?
         ==> Serial(converted[d][i].value) < Serial(converted[e][j].value)
  }

  /** The ordering step of `CollectionFreshIds`: the ids of the last
      document come after all earlier ones. */
  lemma AppendFreshIds(init: seq<seq<Member>>, converted: seq<seq<Field>>, last: seq<Member>,
                       fields: seq<Field>, lo: nat, mid: nat, hi: nat)
    requires lo <= mid <= hi
    requires FreshWithin(init, converted, lo, mid) && FreshIncreasing(init, converted)
    requires FreshWithin([last], [fields], mid, hi) && FreshIncreasing([last], [fields])
    ensures FreshWithin(init + [last], converted + [fields], lo, hi)
    ensures FreshIncreasing(init + [last], converted + [fields])
  {
    var docs := init + [last];
    var all := converted + [fields];
    var n := |init|;
    assert forall d :: 0 <= d < n ==> docs[d] == init[d] && all[d] == converted[d];
    assert docs[n] == [last][0] && all[n] == [fields][0];
  }

  /** `DocumentFreshIds` restated for a collection of one document. */
  lemma SingleDocumentFreshIds(st: ImportState, doc: seq<Member>)
    ensures var (fields, st') := DocumentConversion(st, doc);
      && st.next <= st'.next
      && FreshWithin([doc], [fields], st.next, st'.next) && FreshIncreasing([doc], [fields])
  {
    DocumentFreshIds(st, doc);
    DocumentConversionFacts(st, doc);
    var (fields, st') := DocumentConversion(st, doc);
    forall d: int, i: int | 0 <= d < 1 && 0 <= i < |doc|
      ensures FreshBetween([doc][d][i].value, [fields][d][i].value, st.next, st'.next)
    {
      assert [doc][d] == doc && [fields][d] == fields;
    }
    forall d: int, i: int, e: int, j: int |
      0 <= d < 1 && 0 <= i < |doc| && 0 <= e < 1 && 0 <= j < |doc|
      && (d < e || (d == e && i < j))
      && Classify([doc][d][i].value).FreshOid? && Classify([doc][e][j].value).FreshOid?
      ensures Serial([fields][d][i].value) < Serial([fields][e][j].value)
    {
      assert [doc][d] == doc && [fields][d] == fields;
      assert [doc][e] == doc && [fields][e] == fields;
    }
  }

  /** Across a whole collection the object `$oid`s get new ids, later
      members (in document order, then member order) getting later ones, so
      no two are equal. */
  lemma {:induction false} CollectionFreshIds(st: ImportState, docs: seq<seq<Member>>)
    ensures var (converted, st') := CollectionConversion(st, docs);
      FreshWithin(docs, converted, st.next, st'.next) && FreshIncreasing(docs, converted)
    decreases |docs|
  {
    if docs != [] {
      var n := |docs| - 1;
      var init := docs[..n];
      CollectionFreshIds(st, init);
      var (converted, st1) := CollectionConversion(st, init);
      var (fields, st2) := DocumentConversion(st1, docs[n]);
      assert CollectionConversion(st, docs) == (converted + [fields], st2);
      assert Grows(st, st1) by { CollectionConversionFacts(st, init); }
      SingleDocumentFreshIds(st1, docs[n]);
      AppendFreshIds(init, converted, docs[n], fields, st.next, st1.next, st2.next);
      assert init + [docs[n]] == docs;
    }
  }

  /** Two occurrences of the same invalid `$oid` value in one collection get
      the same replacement. */
  lemma SameInvalidOidSameReplacement(st: ImportState, docs: seq<seq<Member>>,
                                      d1: nat, i1: nat, d2: nat, i2: nat)
    requires d1 < |docs| && i1 < |docs[d1]| && d2 < |docs| && i2 < |docs[d2]|
    requires Classify(docs[d1][i1].value).RemapOid?
    requires Classify(docs[d1][i1].value) == Classify(docs[d2][i2].value)
    ensures var converted := CollectionConversion(st, docs).0;
      && d1 < |converted| && i1 < |converted[d1]| && d2 < |converted| && i2 < |converted[d2]|
      && converted[d1][i1].value == converted[d2][i2].value
  {
    CollectionConversionFacts(st, docs);
  }

  // ---------------------------------------------------------------------
  // The import
  // ---------------------------------------------------------------------

  /** The seed file's keys and the collections they are imported into. */
  const Collections: seq<(string, string)> :=
    [("owners", "Owners"), ("properties", "Properties"),
     ("propertyImages", "PropertyImages"), ("propertyTraces", "PropertyTraces")]

  /** The documents inserted into one collection. */
  datatype Insertion = Insertion(collection: string, documents: seq<seq<Field>>)

  /** A seed key is imported when its array is present and non-empty; a
      missing or `null` array is an absent key. */
  predicate HasData(seed: map<string, seq<seq<Member>>>, key: string) {
    key in seed && seed[key] != []
  }

  /** The collections that receive documents, in import order. */
  function ImportedNames(seed: map<string, seq<seq<Member>>>, cols: seq<(string, string)>): seq<string>
    decreases |cols|
  {
    if cols == [] then []
    else
      var c := cols[|cols| - 1];
      ImportedNames(seed, cols[..|cols| - 1]) + if HasData(seed, c.0) then [c.1] else []
  }

  /** The seed arrays that are imported, in import order. */
  function ImportedSeeds(seed: map<string, seq<seq<Member>>>, cols: seq<(string, string)>): (r: seq<seq<seq<Member>>>)
    ensures |r| == |ImportedNames(seed, cols)|
    ensures forall k :: 0 <= k < |r| ==> r[k] != []
    decreases |cols|
  {
    if cols == [] then []
    else
      var c := cols[|cols| - 1];
      ImportedSeeds(seed, cols[..|cols| - 1]) + if HasData(seed, c.0) then [seed[c.0]] else []
  }

  /** The import as the script does it: a fresh id table for every
      collection, one id counter for the whole run. */
  function Import(next: nat, seed: map<string, seq<seq<Member>>>, cols: seq<(string, string)>)
    : (r: (seq<Insertion>, nat))
    decreases |cols|
  {
    if cols == [] then ([], next)
    else
      var (inserted, n1) := Import(next, seed, cols[..|cols| - 1]);
      var c := cols[|cols| - 1];
      if !HasData(seed, c.0) then (inserted, n1)
      else
        var (documents, st) := CollectionConversion(ImportState(map[], n1), seed[c.0]);
        (inserted + [Insertion(c.1, documents)], st.next)
  }

  /** The import with one id table shared by all collections, which is what
      keeping relationships between collections needs. */
  function ImportSharingIds(st: ImportState, seed: map<string, seq<seq<Member>>>, cols: seq<(string, string)>)
    : (r: (seq<Insertion>, ImportState))
    decreases |cols|
  {
    if cols == [] then ([], st)
    else
      var (inserted, st1) := ImportSharingIds(st, seed, cols[..|cols| - 1]);
      var c := cols[|cols| - 1];
      if !HasData(seed, c.0) then (inserted, st1)
      else
        var (documents, st2) := CollectionConversion(st1, seed[c.0]);
        (inserted + [Insertion(c.1, documents)], st2)
  }

  /** Only collections with data are inserted into, in the fixed order; each
      collection's documents are its seed array converted against some id
      table. */
  lemma {:induction false} ImportFacts(next: nat, seed: map<string, seq<seq<Member>>>, cols: seq<(string, string)>)
    ensures var (inserted, next') := Import(next, seed, cols);
      var sources := ImportedSeeds(seed, cols);
      && next <= next'
      && |inserted| == |sources|
      && (forall k :: 0 <= k < |inserted| ==> inserted[k].collection == ImportedNames(seed, cols)[k])
      && (forall k :: 0 <= k < |inserted| ==> ConvertedFrom(sources[k], inserted[k].documents))
    decreases |cols|
  {
    if cols != [] {
      var init := cols[..|cols| - 1];
      ImportFacts(next, seed, init);
      var (inserted, n1) := Import(next, seed, init);
      var c := cols[|cols| - 1];
      if HasData(seed, c.0) {
        var st0 := ImportState(map[], n1);
        CollectionConversionFacts(st0, seed[c.0]);
        var (documents, st) := CollectionConversion(st0, seed[c.0]);
        var sources: seq<seq<seq<Member>>> := ImportedSeeds(seed, cols);
        var all: seq<Insertion> := inserted + [Insertion(c.1, documents)];
        assert sources == ImportedSeeds(seed, init) + [seed[c.0]];
        assert ImportedNames(seed, cols) == ImportedNames(seed, init) + [c.1];
        forall k: int | 0 <= k < |all| ensures ConvertedFrom(sources[k], all[k].documents) {
          if k == |inserted| {
            assert Converts(sources[k], all[k].documents, st.idMap);
          } else {
            assert all[k] == inserted[k] && sources[k] == ImportedSeeds(seed, init)[k];
          }
        }
        assert Import(next, seed, cols) == (all, st.next);
      } else {
        assert ImportedSeeds(seed, cols) == ImportedSeeds(seed, init);
        assert ImportedNames(seed, cols) == ImportedNames(seed, init);
        assert Import(next, seed, cols) == (inserted, n1);
      }
    }
  }

  /** With one shared table, every collection is converted against the same
      final table, so a reference from one collection to an invalid id of
      another keeps pointing at the same replacement id. */
  lemma {:induction false} SharedIdsAgreeAcrossCollections(st: ImportState, seed: map<string, seq<seq<Member>>>,
                                                         cols: seq<(string, string)>)
    ensures var (inserted, st') := ImportSharingIds(st, seed, cols);
      var sources := ImportedSeeds(seed, cols);
      && Grows(st, st')
      && (Valid(st) ==> Valid(st'))
      && |inserted| == |sources|
      && (forall k :: 0 <= k < |inserted| ==> inserted[k].collection == ImportedNames(seed, cols)[k])
      && (forall k :: 0 <= k < |inserted| ==> Converts(sources[k], inserted[k].documents, st'.idMap))
    decreases |cols|
  {
    if cols != [] {
      var init := cols[..|cols| - 1];
      SharedIdsAgreeAcrossCollections(st, seed, init);
      var (inserted, st1) := ImportSharingIds(st, seed, init);
      var c := cols[|cols| - 1];
      if HasData(seed, c.0) {
        CollectionConversionFacts(st1, seed[c.0]);
        var (documents, st2) := CollectionConversion(st1, seed[c.0]);
        var sources: seq<seq<seq<Member>>> := ImportedSeeds(seed, cols);
        var all: seq<Insertion> := inserted + [Insertion(c.1, documents)];
        assert sources == ImportedSeeds(seed, init) + [seed[c.0]];
        assert ImportedNames(seed, cols) == ImportedNames(seed, init) + [c.1];
        forall k: int | 0 <= k < |all| ensures Converts(sources[k], all[k].documents, st2.idMap) {
          if k < |inserted| {
            assert all[k] == inserted[k] && sources[k] == ImportedSeeds(seed, init)[k];
            ConvertsStable(sources[k], inserted[k].documents, st1.idMap, st2.idMap);
          }
        }
        GrowsTransitive(st, st1, st2);
      }
    }
  }

  lemma SingleMemberDocument(st: ImportState, m: Member)
    ensures DocumentConversion(st, [m])
         == ([Field(m.name, ValueConversion(st, m.value).0)], ValueConversion(st, m.value).1)
  {
    var doc := [m];
    assert doc[..|doc| - 1] == [];
    assert DocumentConversion(st, doc[..|doc| - 1]) == ([], st);
    var r := DocumentConversion(st, doc);
    assert r.1 == ValueConversion(st, m.value).1;
    assert r.0 == [Field(m.name, ValueConversion(st, m.value).0)];
  }

  lemma SingleDocumentCollection(st: ImportState, doc: seq<Member>)
    ensures CollectionConversion(st, [doc]) == ([DocumentConversion(st, doc).0], DocumentConversion(st, doc).1)
  {
    var docs := [doc];
    assert docs[..|docs| - 1] == [];
    assert CollectionConversion(st, docs[..|docs| - 1]) == ([], st);
    var r := CollectionConversion(st, docs);
    assert r.1 == DocumentConversion(st, doc).1;
    assert r.0 == [DocumentConversion(st, doc).0];
  }

  /** The prefixes of the collection list the import recursion walks. */
  lemma CollectionPrefixes()
    ensures Collections[..|Collections| - 1] == Collections[..3]
    ensures Collections[..3][..|Collections[..3]| - 1] == Collections[..2]
    ensures Collections[..2][..|Collections[..2]| - 1] == Collections[..1]
    ensures Collections[..1][..|Collections[..1]| - 1] == []
  {
  }

  /** The seed of the counterexample: an owner whose `_id` is not a valid
      object id, and a property that refers to that owner. */
  function OwnerReference(): Json {
    JObject([Member("$oid", JString("owner1"))])
  }

  function LinkedSeed(): map<string, seq<seq<Member>>> {
    map["owners" := [[Member("_id", OwnerReference())]],
        "properties" := [[Member("idOwner", OwnerReference())]]]
  }

  lemma OwnerReferenceIsRemapped()
    ensures Classify(OwnerReference()) == RemapOid(JString("owner1"))
  {
    assert Get(OwnerReference(), "$oid") == Some(JString("owner1"));
    assert Get(OwnerReference(), "$date") == None;
  }

  /** The owners collection of the counterexample, imported as written. */
  lemma OwnersImportedAsWritten()
    ensures Import(0, LinkedSeed(), Collections[..1])
         == ([Insertion("Owners", [[Field("_id", Oid(Generated(0)))]])], 1)
  {
    OwnerReferenceIsRemapped();
    CollectionPrefixes();
    var owner := Member("_id", OwnerReference());
    assert ValueConversion(ImportState(map[], 0), OwnerReference())
        == (Oid(Generated(0)), ImportState(map[JString("owner1") := Generated(0)], 1));
    SingleMemberDocument(ImportState(map[], 0), owner);
    SingleDocumentCollection(ImportState(map[], 0), [owner]);
    assert LinkedSeed()["owners"] == [[owner]];
    assert Import(0, LinkedSeed(), Collections[..1][..|Collections[..1]| - 1]) == ([], 0);
    var r1 := Import(0, LinkedSeed(), Collections[..1]);
    assert r1.1 == 1 && r1.0 == [Insertion("Owners", [[Field("_id", Oid(Generated(0)))]])];
  }

  /** As written, the owner's replacement id and the property's reference to
      it come out different, so the imported property no longer points at its
      owner. */
  lemma PerCollectionTablesSplitReferences()
    ensures var inserted := Import(0, LinkedSeed(), Collections).0;
      && |inserted| == 2
      && inserted[0].collection == "Owners" && inserted[1].collection == "Properties"
      && inserted[0].documents == [[Field("_id", Oid(Generated(0)))]]
      && inserted[1].documents == [[Field("idOwner", Oid(Generated(1)))]]
  {
    OwnerReferenceIsRemapped();
    CollectionPrefixes();
    OwnersImportedAsWritten();
    var seed := LinkedSeed();
    var property := Member("idOwner", OwnerReference());
    assert ValueConversion(ImportState(map[], 1), OwnerReference())
        == (Oid(Generated(1)), ImportState(map[JString("owner1") := Generated(1)], 2));
    SingleMemberDocument(ImportState(map[], 1), property);
    SingleDocumentCollection(ImportState(map[], 1), [property]);
    assert !HasData(seed, "propertyImages") && !HasData(seed, "propertyTraces");
    assert seed["properties"] == [[property]];
    var first := [Insertion("Owners", [[Field("_id", Oid(Generated(0)))]])];
    var both := first + [Insertion("Properties", [[Field("idOwner", Oid(Generated(1)))]])];
    var r2 := Import(0, seed, Collections[..2]);
    assert r2.1 == 2 && r2.0 == both;
    var r3 := Import(0, seed, Collections[..3]);
    assert r3 == r2;
    var r4 := Import(0, seed, Collections);
    assert r4 == r3;
  }

  /** With the shared table the same seed keeps the reference: both documents
      carry the same replacement id. */
  lemma SharedTableKeepsReferences()
    ensures var inserted := ImportSharingIds(ImportState(map[], 0), LinkedSeed(), Collections).0;
      && |inserted| == 2
      && inserted[0].documents == [[Field("_id", Oid(Generated(0)))]]
      && inserted[1].documents == [[Field("idOwner", Oid(Generated(0)))]]
  {
    OwnerReferenceIsRemapped();
    CollectionPrefixes();
    var seed := LinkedSeed();
    var owner := Member("_id", OwnerReference());
    var property := Member("idOwner", OwnerReference());
    var table := ImportState(map[JString("owner1") := Generated(0)], 1);
    assert ValueConversion(ImportState(map[], 0), OwnerReference()) == (Oid(Generated(0)), table);
    assert ValueConversion(table, OwnerReference()) == (Oid(Generated(0)), table);
    SingleMemberDocument(ImportState(map[], 0), owner);
    SingleMemberDocument(table, property);
    SingleDocumentCollection(ImportState(map[], 0), [owner]);
    SingleDocumentCollection(table, [property]);
    assert !HasData(seed, "propertyImages") && !HasData(seed, "propertyTraces");
    assert seed["owners"] == [[owner]] && seed["properties"] == [[property]];
    var st := ImportState(map[], 0);
    var first := [Insertion("Owners", [[Field("_id", Oid(Generated(0)))]])];
    var both := first + [Insertion("Properties", [[Field("idOwner", Oid(Generated(0)))]])];
    assert ImportSharingIds(st, seed, Collections[..1][..|Collections[..1]| - 1]) == ([], st);
    var r1 := ImportSharingIds(st, seed, Collections[..1]);
    assert r1.1 == table && r1.0 == first;
    var r2 := ImportSharingIds(st, seed, Collections[..2]);
    assert r2.1 == table && r2.0 == both;
    var r3 := ImportSharingIds(st, seed, Collections[..3]);
    assert r3 == r2;
    var r4 := ImportSharingIds(st, seed, Collections);
    assert r4 == r3;
  }

  // ---------------------------------------------------------------------
  // The importer's steps, in place
  // ---------------------------------------------------------------------

  /** The source of new object ids; each call yields an id never given out
      before. */
  class ObjectIdSupply {
    var next: nat

    constructor ()
      ensures next == 0
    {
      next := 0;
    }

    method NewObjectId() returns (id: ObjectId)
      modifies this
      ensures id == Generated(old(next)) && next == old(next) + 1
    {
      id := Generated(next);
      next := next + 1;
    }
  }

  /** The table from an invalid `$oid` to its replacement. */
  class IdMap {
    var entries: map<Json, ObjectId>

    constructor ()
      ensures entries == map[]
    {
      entries := map[];
    }
  }

  /** Converts one member value, recording a new replacement id in `idMap`
      when an invalid `$oid` is seen for the first time. */
  method ConvertValue(v: Json, idMap: IdMap, ids: ObjectIdSupply) returns (c: Value)
    modifies idMap, ids
    ensures (c, ImportState(idMap.entries, ids.next)) == ValueConversion(old(ImportState(idMap.entries, ids.next)), v)
  {
    if Truthy(v) && IsObject(v) {
      var oid := Get(v, "$oid");
      if oid.Some? && Truthy(oid.value) {
        if oid.value.JString? && |oid.value.s| == 24 && Text.IsObjectIdHex(oid.value.s) {
          c := Oid(FromHex(Text.Lower(oid.value.s)));
        } else if IsPrimitive(oid.value) {
          if oid.value !in idMap.entries {
            var id := ids.NewObjectId();
            idMap.entries := idMap.entries[oid.value := id];
          }
          c := Oid(idMap.entries[oid.value]);
        } else {
          // An object key is a new key every time, so it always gets a new id.
          var id := ids.NewObjectId();
          c := Oid(id);
        }
      } else {
        var date := Get(v, "$date");
        if date.Some? && Truthy(date.value) {
          c := Date(date.value);
        } else {
          c := Copied(v);
        }
      }
    } else {
      c := Copied(v);
    }
  }

  /** Converts a document's members in order. */
  method ConvertDocument(doc: seq<Member>, idMap: IdMap, ids: ObjectIdSupply) returns (converted: seq<Field>)
    modifies idMap, ids
    ensures (converted, ImportState(idMap.entries, ids.next))
         == DocumentConversion(old(ImportState(idMap.entries, ids.next)), doc)
  {
    converted := [];
    for i := 0 to |doc|
      invariant (converted, ImportState(idMap.entries, ids.next))
             == DocumentConversion(old(ImportState(idMap.entries, ids.next)), doc[..i])
    {
      assert doc[..i + 1][..i] == doc[..i];
      var value := ConvertValue(doc[i].value, idMap, ids);
      converted := converted + [Field(doc[i].name, value)];
    }
    assert doc[..|doc|] == doc;
  }

  /** Converts a collection's documents in order, sharing `idMap`. */
  method ConvertCollection(docs: seq<seq<Member>>, idMap: IdMap, ids: ObjectIdSupply) returns (documents: seq<seq<Field>>)
    modifies idMap, ids
    ensures (documents, ImportState(idMap.entries, ids.next))
         == CollectionConversion(old(ImportState(idMap.entries, ids.next)), docs)
  {
    documents := [];
    for d := 0 to |docs|
      invariant (documents, ImportState(idMap.entries, ids.next))
             == CollectionConversion(old(ImportState(idMap.entries, ids.next)), docs[..d])
    {
      assert docs[..d + 1][..d] == docs[..d];
      var converted := ConvertDocument(docs[d], idMap, ids);
      documents := documents + [converted];
    }
    assert docs[..|docs|] == docs;
  }

  /** Imports every collection with data, in the fixed order, each with a
      new id table; returns what is inserted into each collection. */
  method ImportData(seed: map<string, seq<seq<Member>>>, ids: ObjectIdSupply) returns (inserted: seq<Insertion>)
    modifies ids
    ensures (inserted, ids.next) == Import(old(ids.next), seed, Collections)
  {
    inserted := [];
    for c := 0 to |Collections|
      invariant (inserted, ids.next) == Import(old(ids.next), seed, Collections[..c])
    {
      assert Collections[..c + 1][..c] == Collections[..c];
      var (key, collectionName) := Collections[c];
      if key in seed && seed[key] != [] {
        var idMap := new IdMap();
        var documents := ConvertCollection(seed[key], idMap, ids);
        inserted := inserted + [Insertion(collectionName, documents)];
      }
    }
    assert Collections[..|Collections|] == Collections;
  }

  /** The import as relationships between collections need it: one id table
      for the whole run, created before the first collection. */
  method ImportDataSharingIds(seed: map<string, seq<seq<Member>>>, ids: ObjectIdSupply)
    returns (inserted: seq<Insertion>, idMap: IdMap)
    modifies ids
    ensures fresh(idMap)
    ensures (inserted, ImportState(idMap.entries, ids.next))
         == ImportSharingIds(ImportState(map[], old(ids.next)), seed, Collections)
  {
    inserted := [];
    idMap := new IdMap();
    for c := 0 to |Collections|
      invariant (inserted, ImportState(idMap.entries, ids.next))
             == ImportSharingIds(ImportState(map[], old(ids.next)), seed, Collections[..c])
    {
      assert Collections[..c + 1][..c] == Collections[..c];
      var (key, collectionName) := Collections[c];
      if key in seed && seed[key] != [] {
        var documents := ConvertCollection(seed[key], idMap, ids);
        inserted := inserted + [Insertion(collectionName, documents)];
      }
    }
    assert Collections[..|Collections|] == Collections;
  }
}
