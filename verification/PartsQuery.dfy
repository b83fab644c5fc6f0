/**
 The inventory: parts stored as documents keyed by `_id`, the filter translated into a Mongo
 query, and what that query must mean. Document contents that no filter reads and nothing
 computes with (dimensions, metadata) are not modelled.
 */
module PartsQuery {
  import opened Prelude
  import opened Country

  datatype Manufacturer = Manufacturer(name: string, country: string, website: string)

  /** Times are numbers; 0 is Go's zero time. */
  datatype Part = Part(
    id: string,
    name: string,
    description: string,
    price: Int64,
    stock: Int64,
    category: int,
    manufacturer: Option<Manufacturer>,
    tags: seq<string>,
    createdAt: Option<int>,
    updatedAt: Option<int>)

  datatype ManufacturerEntity = ManufacturerEntity(name: string, country: string, countryNorm: string, website: string)

  datatype PartEntity = PartEntity(
    id: string,
    name: string,
    description: string,
    price: Int64,
    stock: Int64,
    category: int,
    manufacturer: Option<ManufacturerEntity>,
    tags: seq<string>,
    createdAt: Option<int>,
    updatedAt: Option<int>)

  function EntityToModel(e: PartEntity): Part {
    Part(e.id, e.name, e.description, e.price, e.stock, e.category,
         match e.manufacturer
         case None => None
         case Some(m) => Some(Manufacturer(m.name, m.country, m.website)),
         e.tags, e.createdAt, e.updatedAt)
  }

  function EntityFromModel(p: Part): PartEntity {
    PartEntity(p.id, p.name, p.description, p.price, p.stock, p.category,
               match p.manufacturer
               case None => None
               case Some(m) => Some(ManufacturerEntity(m.name, m.country, NormalizeCountry(m.country), m.website)),
               p.tags, p.createdAt, p.updatedAt)
  }

  // ----- Filters -----

  datatype PartsFilter = PartsFilter(
    ids: seq<string>,
    names: seq<string>,
    categories: seq<int>,
    countries: seq<string>,
    tags: seq<string>)

  /** The five filter fields, as the document paths they are compared with. */
  datatype Field = IdField | NameField | CategoryField | CountryField | TagsField

  const ALL_FIELDS := {IdField, NameField, CategoryField, CountryField, TagsField}

  /**
   What the API promises of one filter field: an empty list does not filter, any other list
   keeps a part that matches at least one of its values.
   */
  ghost predicate WantedBy(f: PartsFilter, field: Field, p: Part) {
    match field
    case IdField => f.ids == [] || p.id in f.ids
    case NameField => f.names == [] || p.name in f.names
    case CategoryField => f.categories == [] || p.category in f.categories
    case CountryField =>
      f.countries == []
      || (p.manufacturer.Some? && exists c :: c in f.countries && SameCountry(c, p.manufacturer.value.country))
    case TagsField => f.tags == [] || exists t :: t in p.tags && t in f.tags
  }

  ghost predicate WantedByAll(f: PartsFilter, fields: set<Field>, p: Part) {
    forall field :: field in fields ==> WantedBy(f, field, p)
  }

  /** Different fields must all agree. */
  ghost predicate Wanted(f: PartsFilter, p: Part) {
    WantedByAll(f, ALL_FIELDS, p)
  }

  // ----- Mongo queries -----

  datatype Value = Str(s: string) | Num(n: int)

  /** `{field: {$in: values}}` for each field of the map. */
  type Query = map<Field, seq<Value>>

  /** The values a document has at a path: none if the path is missing, several if it is an array. */
  function ValuesAt(e: PartEntity, field: Field): seq<Value> {
    match field
    case IdField => [Str(e.id)]
    case NameField => [Str(e.name)]
    case CategoryField => [Num(e.category)]
    case CountryField => if e.manufacturer.Some? then [Str(e.manufacturer.value.countryNorm)] else []
    case TagsField => Strs(e.tags)
  }

  function Strs(ss: seq<string>): (vs: seq<Value>)
    ensures |vs| == |ss| && forall i :: 0 <= i < |ss| ==> vs[i] == Str(ss[i])
  {
    seq(|ss|, i requires 0 <= i < |ss| => Str(ss[i]))
  }

  function Nums(ns: seq<int>): (vs: seq<Value>)
    ensures |vs| == |ns| && forall i :: 0 <= i < |ns| ==> vs[i] == Num(ns[i])
  {
    seq(|ns|, i requires 0 <= i < |ns| => Num(ns[i]))
  }

  predicate AnyIn(vs: seq<Value>, list: seq<Value>) {
    exists v :: v in vs && v in list
  }

  predicate Matches(q: Query, e: PartEntity) {
    forall field :: field in q ==> AnyIn(ValuesAt(e, field), q[field])
  }

  function Normalized(countries: seq<string>): (ns: seq<string>)
    ensures |ns| == |countries| && forall i :: 0 <= i < |ns| ==> ns[i] == NormalizeCountry(countries[i])
  {
    seq(|countries|, i requires 0 <= i < |countries| => NormalizeCountry(countries[i]))
  }

  /** The list a filter gives for one field. */
  function Listed(f: PartsFilter, field: Field): seq<Value> {
    match field
    case IdField => Strs(f.ids)
    case NameField => Strs(f.names)
    case CategoryField => Nums(f.categories)
    case CountryField => Strs(Normalized(f.countries))
    case TagsField => Strs(f.tags)
  }

  /** The query holds exactly the non-empty lists. */
  predicate QueryFor(f: PartsFilter, q: Query) {
    forall field: Field :: if Listed(f, field) == [] then field !in q else field in q && q[field] == Listed(f, field)
  }

  /** The loop over the filter's countries. */
  method NormalizeAll(countries: seq<string>) returns (norm: seq<string>)
    ensures norm == Normalized(countries)
  {
    norm := [];
    for i := 0 to |countries|
      invariant norm == Normalized(countries[..i])
    {
      norm := norm + [NormalizeCountry(countries[i])];
    }
    assert countries[..|countries|] == countries;
  }

  /** Builds the query in place, one field after another. */
  method BuildMongoFilter(f: PartsFilter) returns (q: Query)
    ensures QueryFor(f, q)
  {
    q := map[];
    if |f.ids| > 0 {
      q := q[IdField := Strs(f.ids)];
    }
    if |f.names| > 0 {
      q := q[NameField := Strs(f.names)];
    }
    if |f.categories| > 0 {
      q := q[CategoryField := Nums(f.categories)];
    }
    if |f.tags| > 0 {
      q := q[TagsField := Strs(f.tags)];
    }
    if |f.countries| > 0 {
      var norm := NormalizeAll(f.countries);
      q := q[CountryField := Strs(norm)];
    }
  }

  lemma StrIn(s: string, ss: seq<string>)
    ensures Str(s) in Strs(ss) <==> s in ss
  {
    if s in ss {
      var i :| 0 <= i < |ss| && ss[i] == s;
      assert Strs(ss)[i] == Str(s);
    }
  }

  lemma NumIn(n: int, ns: seq<int>)
    ensures Num(n) in Nums(ns) <==> n in ns
  {
    if n in ns {
      var i :| 0 <= i < |ns| && ns[i] == n;
      assert Nums(ns)[i] == Num(n);
    }
  }

  lemma CountryMatches(f: PartsFilter, country: string)
    ensures Str(NormalizeCountry(country)) in Listed(f, CountryField)
       <==> exists c :: c in f.countries && SameCountry(c, country)
  {
    var norm := Normalized(f.countries);
    StrIn(NormalizeCountry(country), norm);
    forall c ensures NormalizeCountry(c) == NormalizeCountry(country) <==> SameCountry(c, country) {
      NormalFormsDecide(c, country);
    }
    if c :| c in f.countries && SameCountry(c, country) {
      var i :| 0 <= i < |f.countries| && f.countries[i] == c;
      assert norm[i] == NormalizeCountry(country);
    }
  }

  lemma TagsMatch(f: PartsFilter, tags: seq<string>)
    ensures AnyIn(Strs(tags), Strs(f.tags)) <==> exists t :: t in tags && t in f.tags
  {
    if v :| v in Strs(tags) && v in Strs(f.tags) {
      StrIn(v.s, tags);
      StrIn(v.s, f.tags);
    }
    if t :| t in tags && t in f.tags {
      StrIn(t, tags);
      StrIn(t, f.tags);
      assert Str(t) in Strs(tags) && Str(t) in Strs(f.tags);
    }
  }

  /** One entry of the query decides one field of the filter. */
  lemma FieldMeaning(f: PartsFilter, field: Field, p: Part)
    ensures WantedBy(f, field, p)
       <==> Listed(f, field) == [] || AnyIn(ValuesAt(EntityFromModel(p), field), Listed(f, field))
  {
    match field
    case IdField =>
      StrIn(p.id, f.ids);
      assert Str(p.id) in ValuesAt(EntityFromModel(p), field);
    case NameField =>
      StrIn(p.name, f.names);
      assert Str(p.name) in ValuesAt(EntityFromModel(p), field);
    case CategoryField =>
      NumIn(p.category, f.categories);
      assert Num(p.category) in ValuesAt(EntityFromModel(p), field);
    case CountryField =>
      if p.manufacturer.Some? {
        CountryMatches(f, p.manufacturer.value.country);
        assert Str(NormalizeCountry(p.manufacturer.value.country)) in ValuesAt(EntityFromModel(p), field);
      }
    case TagsField => TagsMatch(f, p.tags);
  }

  /** The built query keeps a stored part exactly when the filter wants it. */
  lemma QueryMeaning(f: PartsFilter, q: Query, p: Part)
    requires QueryFor(f, q)
    ensures Matches(q, EntityFromModel(p)) <==> Wanted(f, p)
  {
    forall field: Field
      ensures WantedBy(f, field, p) <==> (field in q ==> AnyIn(ValuesAt(EntityFromModel(p), field), q[field]))
    {
      FieldMeaning(f, field, p);
    }
    assert forall field: Field :: field in ALL_FIELDS by {
      forall field: Field ensures field in ALL_FIELDS {
        match field
        case IdField =>
        case NameField =>
        case CategoryField =>
        case CountryField =>
        case TagsField =>
      }
    }
  }

  // ----- The collection -----

  /** What `CreateBatch` writes: the country's normal form, and an id. */
  predicate WellStored(e: PartEntity) {
    && e.id != ""
    && (e.manufacturer.Some? ==> e.manufacturer.value.countryNorm == NormalizeCountry(e.manufacturer.value.country))
  }

  predicate HasId(docs: seq<PartEntity>, id: string) {
    exists i :: 0 <= i < |docs| && docs[i].id == id
  }

  ghost predicate Collection(docs: seq<PartEntity>) {
    && (forall i :: 0 <= i < |docs| ==> WellStored(docs[i]))
    && (forall i, j :: 0 <= i < j < |docs| ==> docs[i].id != docs[j].id)
  }

  /** A well stored document is the image of the part it is read back as. */
  lemma StoredIsImage(e: PartEntity)
    requires WellStored(e)
    ensures EntityFromModel(EntityToModel(e)) == e
  {
  }

  lemma ModelRoundTrip(p: Part)
    ensures EntityToModel(EntityFromModel(p)) == p
  {
  }

  function Models(docs: seq<PartEntity>): (ps: seq<Part>)
    ensures |ps| == |docs| && forall i :: 0 <= i < |ps| ==> ps[i] == EntityToModel(docs[i])
  {
    seq(|docs|, i requires 0 <= i < |docs| => EntityToModel(docs[i]))
  }

  /** The parts wanted by some of the filter's fields, in collection order. */
  ghost function Select(f: PartsFilter, fields: set<Field>, ps: seq<Part>): seq<Part> {
    if ps == [] then []
    else
      var n := |ps| - 1;
      Select(f, fields, ps[..n]) + if WantedByAll(f, fields, ps[n]) then [ps[n]] else []
  }

  /** One sequential pass, for one field. */
  ghost function Pass(f: PartsFilter, field: Field, ps: seq<Part>): seq<Part> {
    Select(f, {field}, ps)
  }

  function FieldsOf(order: seq<Field>): set<Field> {
    set field | field in order
  }

  /** Sequential passes in the given order. */
  ghost function Passes(f: PartsFilter, order: seq<Field>, ps: seq<Part>): seq<Part> {
    if order == [] then ps
    else Pass(f, order[|order| - 1], Passes(f, order[..|order| - 1], ps))
  }

  lemma {:induction false} PassRefinesSelect(f: PartsFilter, fields: set<Field>, field: Field, ps: seq<Part>)
    ensures Pass(f, field, Select(f, fields, ps)) == Select(f, fields + {field}, ps)
  {
    if ps != [] {
      var n := |ps| - 1;
      PassRefinesSelect(f, fields, field, ps[..n]);
      var kept := Select(f, fields, ps[..n]);
      assert WantedByAll(f, fields + {field}, ps[n]) <==> WantedByAll(f, fields, ps[n]) && WantedBy(f, field, ps[n]);
      if WantedByAll(f, fields, ps[n]) {
        assert (kept + [ps[n]])[..|kept|] == kept;
        assert WantedByAll(f, {field}, ps[n]) <==> WantedBy(f, field, ps[n]);
      } else {
        assert kept + [] == kept;
      }
    }
  }

  lemma {:induction false} SelectNothing(f: PartsFilter, ps: seq<Part>)
    ensures Select(f, {}, ps) == ps
  {
    if ps != [] {
      SelectNothing(f, ps[..|ps| - 1]);
    }
  }

  lemma {:induction false} PassesSelect(f: PartsFilter, order: seq<Field>, ps: seq<Part>)
    ensures Passes(f, order, ps) == Select(f, FieldsOf(order), ps)
  {
    var n := |order| - 1;
    if order == [] {
      SelectNothing(f, ps);
      assert FieldsOf(order) == {};
    } else {
      PassesSelect(f, order[..n], ps);
      PassRefinesSelect(f, FieldsOf(order[..n]), order[n], ps);
      assert order == order[..n] + [order[n]];
      assert FieldsOf(order) == FieldsOf(order[..n]) + {order[n]};
    }
  }

  /** Passes for the five fields, in any order and with any repetition, give the same list. */
  lemma PassesInAnyOrder(f: PartsFilter, order: seq<Field>, ps: seq<Part>)
    requires forall field :: field in ALL_FIELDS ==> field in order
    ensures Passes(f, order, ps) == Select(f, ALL_FIELDS, ps)
  {
    PassesSelect(f, order, ps);
    forall field: Field ensures field in ALL_FIELDS {
      match field
      case IdField =>
      case NameField =>
      case CategoryField =>
      case CountryField =>
      case TagsField =>
    }
    assert FieldsOf(order) == ALL_FIELDS;
  }

  // ----- The repository -----

  function Stamped(p: Part, now: int): Part {
    if p.createdAt.None? || p.createdAt == Some(0) then p.(createdAt := Some(now)) else p
  }

  /** An unordered insert keeps going past documents whose `_id` is taken. */
  function InsertMany(docs: seq<PartEntity>, batch: seq<PartEntity>): seq<PartEntity> {
    if batch == [] then docs
    else
      var n := |batch| - 1;
      var done := InsertMany(docs, batch[..n]);
      if HasId(done, batch[n].id) then done else done + [batch[n]]
  }

  /** Some document of the batch meets its `_id` already taken, by the collection or by an earlier one of the batch. */
  predicate SomeDuplicate(docs: seq<PartEntity>, batch: seq<PartEntity>) {
    exists k :: 0 <= k < |batch| && HasId(InsertMany(docs, batch[..k]), batch[k].id)
  }

  lemma {:induction false} InsertManyKeepsCollection(docs: seq<PartEntity>, batch: seq<PartEntity>)
    requires Collection(docs) && forall i :: 0 <= i < |batch| ==> WellStored(batch[i])
    ensures Collection(InsertMany(docs, batch)) && docs <= InsertMany(docs, batch)
  {
    if batch != [] {
      InsertManyKeepsCollection(docs, batch[..|batch| - 1]);
    }
  }

  /** The document at k is the first of the batch with its id, and the collection has none with it. */
  predicate IsFree(docs: seq<PartEntity>, batch: seq<PartEntity>, k: nat)
    requires k < |batch|
  {
    !HasId(docs, batch[k].id) && !HasId(batch[..k], batch[k].id)
  }

  lemma {:induction false} InsertedIds(docs: seq<PartEntity>, batch: seq<PartEntity>, id: string)
    ensures HasId(InsertMany(docs, batch), id) <==> HasId(docs, id) || HasId(batch, id)
  {
    if batch != [] {
      var n := |batch| - 1;
      var done, all := InsertMany(docs, batch[..n]), InsertMany(docs, batch);
      InsertedIds(docs, batch[..n], id);
      InsertedIds(docs, batch[..n], batch[n].id);
      OneMoreHasId(batch[..n], batch[n], id);
      OneMoreHasId(done, batch[n], id);
      assert batch == batch[..n] + [batch[n]];
    }
  }

  lemma OneMoreHasId(docs: seq<PartEntity>, e: PartEntity, id: string)
    ensures HasId(docs + [e], id) <==> HasId(docs, id) || e.id == id
  {
    var all := docs + [e];
    if HasId(docs, id) {
      var i :| 0 <= i < |docs| && docs[i].id == id;
      assert all[i].id == id;
    }
    assert all[|docs|] == e;
  }

  /** The free documents among the first k. */
  function Free(docs: seq<PartEntity>, batch: seq<PartEntity>, k: nat): seq<PartEntity>
    requires k <= |batch|
  {
    if k == 0 then [] else Free(docs, batch, k - 1) + if IsFree(docs, batch, k - 1) then [batch[k - 1]] else []
  }

  lemma {:induction false} InsertedUpTo(docs: seq<PartEntity>, batch: seq<PartEntity>, k: nat)
    requires k <= |batch|
    ensures InsertMany(docs, batch[..k]) == docs + Free(docs, batch, k)
  {
    if k > 0 {
      assert batch[..k][..k - 1] == batch[..k - 1];
      InsertedIds(docs, batch[..k - 1], batch[k - 1].id);
      InsertedUpTo(docs, batch, k - 1);
    }
  }

  /**
   A batch adds exactly its documents whose id is free, in their order, and the write reports
   a duplicate exactly when some document's is not.
   */
  lemma InsertedExactly(docs: seq<PartEntity>, batch: seq<PartEntity>)
    ensures InsertMany(docs, batch) == docs + Free(docs, batch, |batch|)
    ensures SomeDuplicate(docs, batch) <==> exists k :: 0 <= k < |batch| && !IsFree(docs, batch, k)
  {
    forall k | 0 <= k < |batch| ensures HasId(InsertMany(docs, batch[..k]), batch[k].id) <==> !IsFree(docs, batch, k) {
      InsertedIds(docs, batch[..k], batch[k].id);
    }
    InsertedUpTo(docs, batch, |batch|);
    assert batch[..|batch|] == batch;
  }

  /** The documents a batch writes: nil entries are skipped, missing creation times are set. */
  function Documents(parts: seq<Option<Part>>, now: int): seq<PartEntity> {
    if parts == [] then []
    else
      var n := |parts| - 1;
      Documents(parts[..n], now)
      + if parts[n].Some? then [EntityFromModel(Stamped(parts[n].value, now))] else []
  }

  lemma {:induction false} DocumentsAreWellStored(parts: seq<Option<Part>>, now: int)
    requires forall i :: 0 <= i < |parts| ==> parts[i].Some? ==> parts[i].value.id != ""
    ensures forall i :: 0 <= i < |Documents(parts, now)| ==> WellStored(Documents(parts, now)[i])
  {
    if parts != [] {
      DocumentsAreWellStored(parts[..|parts| - 1], now);
    }
  }

  /** How an insert goes: the server answers it, or it breaks off after some documents were tried. */
  datatype InsertOutcome = Completes | Breaks(reached: set<nat>)

  /** The documents the server tried to write. */
  function Attempted(batch: seq<PartEntity>, outcome: InsertOutcome): seq<PartEntity> {
    if batch == [] || outcome.Completes? then batch
    else
      var n := |batch| - 1;
      Attempted(batch[..n], outcome) + if n in outcome.reached then [batch[n]] else []
  }

  lemma {:induction false} AttemptedAreWellStored(batch: seq<PartEntity>, outcome: InsertOutcome)
    requires forall i :: 0 <= i < |batch| ==> WellStored(batch[i])
    ensures forall i :: 0 <= i < |Attempted(batch, outcome)| ==> WellStored(Attempted(batch, outcome)[i])
  {
    if batch != [] && outcome.Breaks? {
      AttemptedAreWellStored(batch[..|batch| - 1], outcome);
    }
  }

  predicate HasEmptyId(parts: seq<Option<Part>>) {
    exists i :: 0 <= i < |parts| && parts[i].Some? && parts[i].value.id == ""
  }

  /** Query, decoding or cursor: how a read goes. */
  datatype ReadFault = ReadWorks | QueryFails | CursorBreaks(at: nat)

  datatype StoreError = EmptyPartId | DuplicateKey | InsertFailed | ReadFailed

  /** The collection, which `CreateBatch` mutates. */
  class PartRepository {
    var docs: seq<PartEntity>

    constructor ()
      ensures docs == []
    {
      docs := [];
    }

    /** Writes a batch; on an empty id nothing is written, on a duplicate `_id` the rest still is. */
    method CreateBatch(parts: seq<Option<Part>>, now: int, outcome: InsertOutcome) returns (err: Option<StoreError>)
      requires Collection(docs)
      modifies this
      ensures Collection(docs) && old(docs) <= docs
      ensures err == Some(EmptyPartId) <==> HasEmptyId(parts)
      ensures docs == if HasEmptyId(parts) then old(docs)
                      else InsertMany(old(docs), Attempted(Documents(parts, now), outcome))
      ensures !HasEmptyId(parts) ==>
                var batch := Documents(parts, now);
                err == if batch == [] then None
                       else if outcome.Breaks? then Some(InsertFailed)
                       else if SomeDuplicate(old(docs), batch) then Some(DuplicateKey)
                       else None
    {
      var batch: seq<PartEntity> := [];
      for i := 0 to |parts|
        invariant batch == Documents(parts[..i], now)
        invariant forall k :: 0 <= k < i && parts[k].Some? ==> parts[k].value.id != ""
      {
        assert parts[..i + 1][..i] == parts[..i];
        if parts[i].None? {
          continue;
        }
        if parts[i].value.id == "" {
          return Some(EmptyPartId);
        }
        batch := batch + [EntityFromModel(Stamped(parts[i].value, now))];
      }
      assert parts[..|parts|] == parts;
      if |batch| == 0 {
        return None;
      }
      DocumentsAreWellStored(parts, now);
      AttemptedAreWellStored(batch, outcome);
      InsertManyKeepsCollection(docs, Attempted(batch, outcome));
      if outcome.Breaks? {
        err := Some(InsertFailed);
      } else {
        err := if SomeDuplicate(docs, batch) then Some(DuplicateKey) else None;
      }
      docs := InsertMany(docs, Attempted(batch, outcome));
    }

    /** Reads the matching documents through a cursor. */
    method List(f: PartsFilter, fault: ReadFault) returns (res: Result<seq<Part>, StoreError>)
      requires Collection(docs)
      ensures res == if fault.ReadWorks? then Success(Select(f, ALL_FIELDS, Models(docs))) else Failure(ReadFailed)
    {
      var q := BuildMongoFilter(f);
      if fault.QueryFails? {
        return Failure(ReadFailed);
      }
      var out: seq<Part> := [];
      for i := 0 to |docs|
        invariant out == Select(f, ALL_FIELDS, Models(docs)[..i])
      {
        assert Models(docs)[..i + 1][..i] == Models(docs)[..i];
        StoredIsImage(docs[i]);
        QueryMeaning(f, q, Models(docs)[i]);
        if Matches(q, docs[i]) {
          if fault == CursorBreaks(|out|) {
            return Failure(ReadFailed);
          }
          out := out + [EntityToModel(docs[i])];
        }
      }
      if fault.CursorBreaks? {
        return Failure(ReadFailed);
      }
      assert Models(docs)[..|docs|] == Models(docs);
      res := Success(out);
    }
  }

  /** A call of `CreateBatch`: the parts, the time, and how the insert goes. */
  datatype Batch = Batch(parts: seq<Option<Part>>, now: int, outcome: InsertOutcome)

  /** The collection after some calls. */
  function AfterBatches(batches: seq<Batch>): seq<PartEntity> {
    if batches == [] then []
    else
      var n := |batches| - 1;
      var docs, last := AfterBatches(batches[..n]), batches[n];
      if HasEmptyId(last.parts) then docs
      else InsertMany(docs, Attempted(Documents(last.parts, last.now), last.outcome))
  }

  /**
   Whatever batches are written, in whatever order and however they break off, ids are unique
   and every document's normal form is that of its own country.
   */
  lemma {:induction false} BatchesKeepCollection(batches: seq<Batch>)
    ensures Collection(AfterBatches(batches))
  {
    if batches != [] {
      var n := |batches| - 1;
      var last := batches[n];
      BatchesKeepCollection(batches[..n]);
      if !HasEmptyId(last.parts) {
        DocumentsAreWellStored(last.parts, last.now);
        AttemptedAreWellStored(Documents(last.parts, last.now), last.outcome);
        InsertManyKeepsCollection(AfterBatches(batches[..n]), Attempted(Documents(last.parts, last.now), last.outcome));
      }
    }
  }

  /** No document of the collection, and no earlier part of the batch, has the id of the i-th part. */
  predicate IsNew(docs: seq<PartEntity>, parts: seq<Option<Part>>, i: nat)
    requires i < |parts| && parts[i].Some?
  {
    && !HasId(docs, parts[i].value.id)
    && forall j :: 0 <= j < i && parts[j].Some? ==> parts[j].value.id != parts[i].value.id
  }

  lemma {:induction false} DocumentsHaveId(parts: seq<Option<Part>>, now: int, id: string)
    requires forall j :: 0 <= j < |parts| && parts[j].Some? ==> parts[j].value.id != id
    ensures !HasId(Documents(parts, now), id)
  {
    if parts != [] {
      var n := |parts| - 1;
      DocumentsHaveId(parts[..n], now, id);
    }
  }

  lemma InsertOneMore(docs: seq<PartEntity>, batch: seq<PartEntity>, e: PartEntity)
    ensures var done := InsertMany(docs, batch);
            InsertMany(docs, batch + [e]) == if HasId(done, e.id) then done else done + [e]
  {
    assert (batch + [e])[..|batch|] == batch;
  }

  /** The collection after one more part of a batch. */
  lemma BatchGrows(docs: seq<PartEntity>, parts: seq<Option<Part>>, now: int)
    requires parts != []
    ensures var n := |parts| - 1;
            var done := InsertMany(docs, Documents(parts[..n], now));
            InsertMany(docs, Documents(parts, now)) ==
              if parts[n].Some? && !HasId(done, parts[n].value.id)
              then done + [EntityFromModel(Stamped(parts[n].value, now))]
              else done
  {
    var n := |parts| - 1;
    var before := Documents(parts[..n], now);
    if parts[n].Some? {
      InsertOneMore(docs, before, EntityFromModel(Stamped(parts[n].value, now)));
    } else {
      assert before + [] == before;
    }
  }

  /** A part with a new id, written by a batch, is read back as it was given, with its creation time set. */
  lemma {:induction false} CreatedPartIsRead(docs: seq<PartEntity>, parts: seq<Option<Part>>, now: int, i: nat)
    returns (k: nat)
    requires i < |parts| && parts[i].Some? && IsNew(docs, parts, i)
    ensures var stored := InsertMany(docs, Documents(parts, now));
            k < |stored| && EntityToModel(stored[k]) == Stamped(parts[i].value, now)
  {
    var n := |parts| - 1;
    BatchGrows(docs, parts, now);
    if i < n {
      assert IsNew(docs, parts[..n], i);
      k := CreatedPartIsRead(docs, parts[..n], now, i);
    } else {
      DocumentsHaveId(parts[..n], now, parts[n].value.id);
      InsertedIds(docs, Documents(parts[..n], now), parts[n].value.id);
      ModelRoundTrip(Stamped(parts[n].value, now));
      k := |InsertMany(docs, Documents(parts[..n], now))|;
    }
  }

  /**
   Over any collection built by batches, a document answers the query of a filter exactly when
   the part read back from it is wanted, and the five passes in any order keep the same parts.
   */
  lemma QueryIsFilter(batches: seq<Batch>, f: PartsFilter, q: Query, order: seq<Field>)
    requires QueryFor(f, q)
    requires forall field :: field in ALL_FIELDS ==> field in order
    ensures var docs := AfterBatches(batches);
            && (forall i :: 0 <= i < |docs| ==> (Matches(q, docs[i]) <==> Wanted(f, Models(docs)[i])))
            && Passes(f, order, Models(docs)) == Select(f, ALL_FIELDS, Models(docs))
  {
    var docs := AfterBatches(batches);
    BatchesKeepCollection(batches);
    forall i | 0 <= i < |docs| ensures Matches(q, docs[i]) <==> Wanted(f, Models(docs)[i]) {
      StoredIsImage(docs[i]);
      QueryMeaning(f, q, Models(docs)[i]);
    }
    PassesInAnyOrder(f, order, Models(docs));
  }
}
