/**
 What the inventory's calls do, said entry by entry: which entries of a list are kept, in which
 order, and what each of them becomes.
 */
module PartsAnswers {
  import opened Prelude
  import opened Country
  import opened PartsQuery
  import opened InventoryApi

  /** The positions, in ascending order, of exactly those of the first n entries that are kept. */
  ghost predicate Picks(at: seq<nat>, n: nat, keep: nat -> bool) {
    && (forall i, j :: 0 <= i < j < |at| ==> at[i] < at[j])
    && (forall i: nat :: i in at <==> i < n && keep(i))
  }

  function More(at: seq<nat>, n: nat, keep: nat -> bool): seq<nat> {
    if keep(n) then at + [n] else at
  }

  lemma PickMore(at: seq<nat>, n: nat, keep: nat -> bool)
    requires Picks(at, n, keep)
    ensures Picks(More(at, n, keep), n + 1, keep)
  {
    var more := More(at, n, keep);
    assert forall i :: 0 <= i < |at| ==> at[i] in at;
    assert forall i :: 0 <= i < |at| ==> more[i] == at[i];
    if keep(n) {
      assert more[|at|] == n;
    }
    forall i: nat ensures i in more <==> i < n + 1 && keep(i) {
      assert i in at <==> i < n && keep(i);
    }
  }

  /** A field-by-field selection keeps exactly the wanted parts, each where it was, in their order. */
  lemma {:induction false} SelectPicks(f: PartsFilter, fields: set<Field>, ps: seq<Part>) returns (at: seq<nat>)
    ensures Picks(at, |ps|, (i: nat) => i < |ps| && WantedByAll(f, fields, ps[i]))
    ensures var picked := Select(f, fields, ps);
            |picked| == |at| && forall k :: 0 <= k < |at| ==> at[k] < |ps| && picked[k] == ps[at[k]]
  {
    if ps == [] {
      at := [];
    } else {
      var n := |ps| - 1;
      var before := SelectPicks(f, fields, ps[..n]);
      var keep := (i: nat) => i < |ps| && WantedByAll(f, fields, ps[i]);
      assert Picks(before, n, keep);
      PickMore(before, n, keep);
      at := More(before, n, keep);
    }
  }

  /** A document as the caller of the query gets it: its own fields, but an unknown category as UNKNOWN. */
  predicate Arrives(e: PartEntity, p: Part) {
    && p.id == e.id && p.name == e.name && p.description == e.description
    && p.price == e.price && p.stock == e.stock
    && p.category == (if 0 <= e.category <= 4 then e.category else 0)
    && p.tags == e.tags && p.createdAt == e.createdAt && p.updatedAt == e.updatedAt
    && (p.manufacturer.Some? <==> e.manufacturer.Some?)
    && (p.manufacturer.Some? ==>
          && p.manufacturer.value.name == e.manufacturer.value.name
          && p.manufacturer.value.country == e.manufacturer.value.country
          && p.manufacturer.value.website == e.manufacturer.value.website)
  }

  /**
   The answer to a query: the call fails, or one of the documents that the filter selects lacks a
   time and the handler panics, or each of them arrives with its fields, in the stored order.
   */
  lemma ListExactly(docs: seq<PartEntity>, f: PartsFilter, fails: bool) returns (at: seq<nat>)
    ensures Picks(at, |docs|, (i: nat) => i < |docs| && Wanted(Arrived(f), EntityToModel(docs[i])))
    ensures var answer := ListResult(docs, f, fails);
            && (answer == Failure(CallFailed) <==> fails)
            && (answer == Failure(HandlerPanicked) <==>
                  !fails && exists i :: i in at && i < |docs| && (docs[i].createdAt.None? || docs[i].updatedAt.None?))
            && (answer.Success? ==>
                  |answer.value| == |at|
                  && forall k :: 0 <= k < |at| ==> at[k] < |docs| && Arrives(docs[at[k]], answer.value[k]))
  {
    at := SelectPicks(Arrived(f), ALL_FIELDS, Models(docs));
    SamePicks(at, |docs|, (i: nat) => i < |Models(docs)| && WantedByAll(Arrived(f), ALL_FIELDS, Models(docs)[i]),
              (i: nat) => i < |docs| && Wanted(Arrived(f), EntityToModel(docs[i])));
    AnswerOfPicks(docs, f, fails, at);
  }

  lemma SamePicks(at: seq<nat>, n: nat, keep: nat -> bool, same: nat -> bool)
    requires Picks(at, n, keep) && forall i: nat :: i < n ==> (keep(i) <==> same(i))
    ensures Picks(at, n, same)
  {
  }

  lemma DocumentArrives(e: PartEntity)
    ensures Arrives(e, OnWire(EntityToModel(e)))
  {
  }

  lemma SendableExactly(docs: seq<PartEntity>, picked: seq<Part>, at: seq<nat>)
    requires |picked| == |at|
    requires forall k :: 0 <= k < |at| ==> at[k] < |docs| && picked[k] == EntityToModel(docs[at[k]])
    ensures Sendable(picked)
       <==> forall i :: i in at && i < |docs| ==> docs[i].createdAt.Some? && docs[i].updatedAt.Some?
  {
    if Sendable(picked) {
      forall i | i in at && i < |docs| ensures docs[i].createdAt.Some? && docs[i].updatedAt.Some? {
        var k :| 0 <= k < |at| && at[k] == i;
      }
    }
  }

  lemma AnswerOfPicks(docs: seq<PartEntity>, f: PartsFilter, fails: bool, at: seq<nat>)
    requires var picked := Selected(docs, f);
             |picked| == |at|
             && forall k :: 0 <= k < |at| ==> at[k] < |docs| && picked[k] == EntityToModel(docs[at[k]])
    ensures var answer := ListResult(docs, f, fails);
            && (answer == Failure(CallFailed) <==> fails)
            && (answer == Failure(HandlerPanicked) <==>
                  !fails && exists i :: i in at && i < |docs| && (docs[i].createdAt.None? || docs[i].updatedAt.None?))
            && (answer.Success? ==>
                  |answer.value| == |at|
                  && forall k :: 0 <= k < |at| ==> at[k] < |docs| && Arrives(docs[at[k]], answer.value[k]))
  {
    SendableExactly(docs, Selected(docs, f), at);
    forall k | 0 <= k < |at| ensures Arrives(docs[at[k]], OnWire(Selected(docs, f)[k])) {
      DocumentArrives(docs[at[k]]);
    }
  }

  /** A missing filter selects every part. */
  lemma NoFilterSelectsAll(p: Part)
    ensures Wanted(PartsFilterToModel(None), p)
  {
  }

  // ----- What a batch writes -----

  /** A part as it is stored: its own fields, the normal form of its country, and a creation time. */
  predicate Stores(p: Part, now: int, e: PartEntity) {
    && e.id == p.id && e.name == p.name && e.description == p.description
    && e.price == p.price && e.stock == p.stock && e.category == p.category
    && e.tags == p.tags && e.updatedAt == p.updatedAt
    && e.createdAt == (if p.createdAt == None || p.createdAt == Some(0) then Some(now) else p.createdAt)
    && (e.manufacturer.Some? <==> p.manufacturer.Some?)
    && (e.manufacturer.Some? ==>
          && e.manufacturer.value.name == p.manufacturer.value.name
          && e.manufacturer.value.country == p.manufacturer.value.country
          && e.manufacturer.value.website == p.manufacturer.value.website
          && e.manufacturer.value.countryNorm == NormalizeCountry(p.manufacturer.value.country))
  }

  /** The documents of a batch are its parts, without the missing ones, in their order. */
  lemma {:induction false} DocumentsPick(parts: seq<Option<Part>>, now: int) returns (at: seq<nat>)
    ensures Picks(at, |parts|, (i: nat) => i < |parts| && parts[i].Some?)
    ensures var docs := Documents(parts, now);
            |docs| == |at|
            && forall k :: 0 <= k < |at| ==>
                 at[k] < |parts| && parts[at[k]].Some? && Stores(parts[at[k]].value, now, docs[k])
  {
    if parts == [] {
      at := [];
    } else {
      var n := |parts| - 1;
      var before := DocumentsPick(parts[..n], now);
      var keep := (i: nat) => i < |parts| && parts[i].Some?;
      assert Picks(before, n, keep);
      PickMore(before, n, keep);
      at := More(before, n, keep);
    }
  }

  /** The documents the server tried: all of them, or exactly those reached before the insert broke off. */
  lemma {:induction false} AttemptedPicks(batch: seq<PartEntity>, outcome: InsertOutcome) returns (at: seq<nat>)
    ensures Picks(at, |batch|, (i: nat) => i < |batch| && (outcome.Completes? || i in outcome.reached))
    ensures var tried := Attempted(batch, outcome);
            |tried| == |at| && forall k :: 0 <= k < |at| ==> at[k] < |batch| && tried[k] == batch[at[k]]
  {
    if batch == [] {
      at := [];
    } else {
      var n := |batch| - 1;
      var before := AttemptedPicks(batch[..n], outcome);
      var keep := (i: nat) => i < |batch| && (outcome.Completes? || i in outcome.reached);
      assert Picks(before, n, keep);
      PickMore(before, n, keep);
      at := More(before, n, keep);
    }
  }

  lemma {:induction false} DocumentIds(parts: seq<Option<Part>>, now: int, id: string)
    ensures HasId(Documents(parts, now), id)
       <==> exists j :: 0 <= j < |parts| && parts[j].Some? && parts[j].value.id == id
  {
    if parts != [] {
      var n := |parts| - 1;
      DocumentIds(parts[..n], now, id);
      if parts[n].Some? {
        OneMoreHasId(Documents(parts[..n], now), EntityFromModel(Stamped(parts[n].value, now)), id);
      } else {
        assert Documents(parts[..n], now) + [] == Documents(parts[..n], now);
      }
      if j :| 0 <= j < |parts| && parts[j].Some? && parts[j].value.id == id {
        assert j < n ==> parts[..n][j].Some?;
      }
      if j :| 0 <= j < n && parts[..n][j].Some? && parts[..n][j].value.id == id {
        assert parts[j].Some? && parts[j].value.id == id;
      }
    }
  }

  /** A batch that the server answers adds exactly its parts with a new id, each as stored, in their order. */
  lemma {:induction false} CreatedExactly(docs: seq<PartEntity>, parts: seq<Option<Part>>, now: int)
    returns (at: seq<nat>)
    ensures Picks(at, |parts|, (i: nat) => i < |parts| && parts[i].Some? && IsNew(docs, parts, i))
    ensures var stored := InsertMany(docs, Documents(parts, now));
            docs <= stored && |stored| == |docs| + |at|
            && forall k :: 0 <= k < |at| ==>
                 at[k] < |parts| && parts[at[k]].Some? && Stores(parts[at[k]].value, now, stored[|docs| + k])
  {
    if parts == [] {
      at := [];
    } else {
      var n := |parts| - 1;
      var before := CreatedExactly(docs, parts[..n], now);
      SamePicks(before, n, (i: nat) => i < |parts[..n]| && parts[..n][i].Some? && IsNew(docs, parts[..n], i),
                (i: nat) => i < |parts| && parts[i].Some? && IsNew(docs, parts, i));
      PickMore(before, n, (i: nat) => i < |parts| && parts[i].Some? && IsNew(docs, parts, i));
      at := More(before, n, (i: nat) => i < |parts| && parts[i].Some? && IsNew(docs, parts, i));
      BatchGrows(docs, parts, now);
      if parts[n].Some? {
        TakenIsNotNew(docs, parts, now);
        PartIsStored(parts[n].value, now);
      }
    }
  }

  lemma PartIsStored(p: Part, now: int)
    ensures Stores(p, now, EntityFromModel(Stamped(p, now)))
  {
  }

  lemma TakenIsNotNew(docs: seq<PartEntity>, parts: seq<Option<Part>>, now: int)
    requires parts != [] && parts[|parts| - 1].Some?
    ensures var n := |parts| - 1;
            HasId(InsertMany(docs, Documents(parts[..n], now)), parts[n].value.id) <==> !IsNew(docs, parts, n)
  {
    var n := |parts| - 1;
    InsertedIds(docs, Documents(parts[..n], now), parts[n].value.id);
    DocumentIds(parts[..n], now, parts[n].value.id);
  }
}
