/** What `Create` decides from the answer to its parts query: the pigeonhole check and the price. */
module OrderCreate {
  import opened Prelude
  import opened Ids
  import opened PartsQuery
  import opened InventoryApi
  import opened OrderTable

  function Texts(ids: seq<Uuid>): (ts: seq<string>)
    ensures |ts| == |ids| && forall i :: 0 <= i < |ts| ==> ts[i] == Text(ids[i])
  {
    seq(|ids|, i requires 0 <= i < |ids| => Text(ids[i]))
  }

  function ByIds(ids: seq<string>): PartsFilter {
    PartsFilter(ids, [], [], [], [])
  }

  /** The ids of the parts that are out of stock, in the order they were received. */
  function Ended(parts: seq<Part>): seq<string> {
    if parts == [] then []
    else
      var n := |parts| - 1;
      Ended(parts[..n]) + if parts[n].stock <= 0 then [parts[n].id] else []
  }

  /** The running `int64` total over the parts in stock. */
  function RunningTotal(parts: seq<Part>): Int64 {
    if parts == [] then 0
    else
      var n := |parts| - 1;
      var before := RunningTotal(parts[..n]);
      if parts[n].stock <= 0 then before else Wrap64(before + parts[n].price)
  }

  /** The loop of `Create` over the parts it received. */
  method PriceParts(parts: seq<Part>) returns (total: Int64, ended: seq<string>)
    ensures total == RunningTotal(parts) && ended == Ended(parts)
  {
    total, ended := 0, [];
    for i := 0 to |parts|
      invariant total == RunningTotal(parts[..i]) && ended == Ended(parts[..i])
    {
      assert parts[..i + 1][..i] == parts[..i];
      if parts[i].stock <= 0 {
        ended := ended + [parts[i].id];
        continue;
      }
      total := Wrap64(total + parts[i].price);
    }
    assert parts[..|parts|] == parts;
  }

  /** What `Create` decides before it writes: a price, or why there is no order. */
  ghost function Quote(docs: seq<PartEntity>, user: Uuid, ids: seq<Uuid>, fails: bool): Result<Int64, OrderError> {
    if user == NIL || ids == [] then Failure(Validation)
    else
      match ListResult(docs, ByIds(Texts(ids)), fails)
      case Failure(_) => Failure(BadGateway)
      case Success(parts) =>
        if |parts| != |ids| then Failure(PartNotFound)
        else if Ended(parts) != [] then Failure(PartsOutOfStock(Ended(parts)))
        else Success(RunningTotal(parts))
  }

  // ----- What it should mean -----

  function Lookup(docs: seq<PartEntity>, id: string): Option<PartEntity> {
    if docs == [] then None
    else if docs[|docs| - 1].id == id then Some(docs[|docs| - 1])
    else Lookup(docs[..|docs| - 1], id)
  }

  function PriceOf(docs: seq<PartEntity>, id: string): int {
    match Lookup(docs, id)
    case None => 0
    case Some(e) => e.price
  }

  function SumPrices(docs: seq<PartEntity>, ids: seq<string>): int {
    if ids == [] then 0 else SumPrices(docs, ids[..|ids| - 1]) + PriceOf(docs, ids[|ids| - 1])
  }

  predicate InStock(docs: seq<PartEntity>, id: string) {
    Lookup(docs, id).Some? && Lookup(docs, id).value.stock > 0
  }

  /** All requested parts are different and known. */
  predicate AllKnown(docs: seq<PartEntity>, ids: seq<Uuid>) {
    Distinct(ids) && forall i :: 0 <= i < |ids| ==> Lookup(docs, Text(ids[i])).Some?
  }

  // ----- Sets and sequences -----

  function Elements<T(==)>(xs: seq<T>): set<T> {
    set x | x in xs
  }

  /** The pigeonhole: a list has as many members as entries exactly when nothing repeats. */
  lemma {:induction false} CountDistinct<T>(xs: seq<T>)
    ensures |Elements(xs)| <= |xs|
    ensures |Elements(xs)| == |xs| <==> Distinct(xs)
  {
    if xs != [] {
      var n := |xs| - 1;
      CountDistinct(xs[..n]);
      assert xs == xs[..n] + [xs[n]];
      assert Elements(xs) == Elements(xs[..n]) + {xs[n]};
      if xs[n] in xs[..n] {
        var i :| 0 <= i < n && xs[..n][i] == xs[n];
        assert xs[i] == xs[n];
        assert Elements(xs) == Elements(xs[..n]);
      } else {
        assert forall i :: 0 <= i < n ==> xs[..n][i] == xs[i] && xs[i] in xs[..n];
      }
    } else {
      assert Elements(xs) == {};
    }
  }

  lemma SubsetOfSameSize<T>(a: set<T>, b: set<T>)
    requires a <= b && |a| == |b|
    ensures a == b
  {
    assert |b| == |a| + |b - a|;
    assert b - a == {};
  }

  function Without<T>(xs: seq<T>, i: nat): seq<T>
    requires i < |xs|
  {
    xs[..i] + xs[i + 1..]
  }

  lemma {:induction false} SumConcat(docs: seq<PartEntity>, a: seq<string>, b: seq<string>)
    ensures SumPrices(docs, a + b) == SumPrices(docs, a) + SumPrices(docs, b)
  {
    var n := |b| - 1;
    if b == [] {
      assert a + b == a;
    } else {
      assert (a + b)[..|a + b| - 1] == a + b[..n];
      SumConcat(docs, a, b[..n]);
    }
  }

  lemma SumWithout(docs: seq<PartEntity>, xs: seq<string>, i: nat)
    requires i < |xs|
    ensures SumPrices(docs, xs) == SumPrices(docs, Without(xs, i)) + PriceOf(docs, xs[i])
  {
    assert xs == xs[..i] + ([xs[i]] + xs[i + 1..]);
    SumConcat(docs, xs[..i], [xs[i]] + xs[i + 1..]);
    SumConcat(docs, [xs[i]], xs[i + 1..]);
    SumConcat(docs, xs[..i], xs[i + 1..]);
    assert [xs[i]][..0] == [];
    assert SumPrices(docs, [xs[i]]) == PriceOf(docs, xs[i]);
  }

  lemma ElementsWithout(xs: seq<string>, i: nat)
    requires i < |xs| && Distinct(xs)
    ensures Distinct(Without(xs, i))
    ensures Elements(Without(xs, i)) == Elements(xs) - {xs[i]}
  {
    var ys := Without(xs, i);
    assert forall k :: 0 <= k < |ys| ==> ys[k] == if k < i then xs[k] else xs[k + 1];
    forall x ensures x in ys <==> x in xs && x != xs[i] {
      if x in xs && x != xs[i] {
        var k :| 0 <= k < |xs| && xs[k] == x;
        assert if k < i then ys[k] == x else ys[k - 1] == x;
      }
    }
  }

  /** A sum over distinct ids depends only on which ids they are. */
  lemma {:induction false} SumOfSameIds(docs: seq<PartEntity>, a: seq<string>, b: seq<string>)
    requires Distinct(a) && Distinct(b) && Elements(a) == Elements(b)
    ensures SumPrices(docs, a) == SumPrices(docs, b)
    decreases |a|
  {
    if a == [] {
      assert b == [] by {
        CountDistinct(b);
        assert Elements(a) == {};
      }
    } else {
      var n := |a| - 1;
      assert a[n] in Elements(a) && a[n] in b;
      var i :| 0 <= i < |b| && b[i] == a[n];
      assert Without(a, n) == a[..n];
      ElementsWithout(a, n);
      ElementsWithout(b, i);
      SumOfSameIds(docs, a[..n], Without(b, i));
      SumWithout(docs, b, i);
    }
  }

  // ----- The query answer -----

  lemma {:induction false} LookupIsStored(docs: seq<PartEntity>, id: string) returns (i: nat)
    requires Lookup(docs, id).Some?
    ensures i < |docs| && docs[i].id == id && Lookup(docs, id) == Some(docs[i])
  {
    var n := |docs| - 1;
    if docs[n].id == id {
      i := n;
    } else {
      i := LookupIsStored(docs[..n], id);
    }
  }

  function IdsOf(parts: seq<Part>): (ids: seq<string>)
    ensures |ids| == |parts| && forall i :: 0 <= i < |ids| ==> ids[i] == parts[i].id
  {
    seq(|parts|, i requires 0 <= i < |parts| => parts[i].id)
  }

  lemma OnlyIdsMatter(ids: seq<string>, p: Part)
    requires ids != []
    ensures WantedByAll(ByIds(ids), ALL_FIELDS, p) <==> p.id in ids
  {
    assert IdField in ALL_FIELDS;
    assert WantedBy(ByIds(ids), IdField, p) <==> p.id in ids;
  }

  /** The last document is in the answer when its id was requested. */
  lemma AnswerGrows(docs: seq<PartEntity>, ids: seq<string>)
    requires docs != [] && ids != []
    ensures var n := |docs| - 1;
            var before := Select(ByIds(ids), ALL_FIELDS, Models(docs[..n]));
            Select(ByIds(ids), ALL_FIELDS, Models(docs))
              == before + if docs[n].id in ids then [EntityToModel(docs[n])] else []
  {
    var n := |docs| - 1;
    assert Models(docs)[..n] == Models(docs[..n]);
    OnlyIdsMatter(ids, EntityToModel(docs[n]));
  }

  lemma {:induction false} AnswerIsAsked(docs: seq<PartEntity>, ids: seq<string>, parts: seq<Part>)
    requires Collection(docs) && ids != []
    requires parts == Select(ByIds(ids), ALL_FIELDS, Models(docs))
    ensures forall i :: 0 <= i < |parts| ==> parts[i].id in ids && Lookup(docs, parts[i].id).Some?
                                             && parts[i] == EntityToModel(Lookup(docs, parts[i].id).value)
    ensures Distinct(IdsOf(parts))
    decreases |docs|
  {
    if docs != [] {
      var n := |docs| - 1;
      var before := Select(ByIds(ids), ALL_FIELDS, Models(docs[..n]));
      AnswerGrows(docs, ids);
      AnswerIsAsked(docs[..n], ids, before);
      forall i | 0 <= i < |before| ensures before[i].id != docs[n].id {
        var k := LookupIsStored(docs[..n], before[i].id);
      }
      assert forall i :: 0 <= i < |before| ==> parts[i] == before[i] && IdsOf(parts)[i] == IdsOf(before)[i];
    }
  }

  lemma {:induction false} AnswerIsComplete(docs: seq<PartEntity>, ids: seq<string>, id: string)
    requires Collection(docs) && id in ids && Lookup(docs, id).Some?
    ensures id in IdsOf(Select(ByIds(ids), ALL_FIELDS, Models(docs)))
    decreases |docs|
  {
    var n := |docs| - 1;
    var parts := Select(ByIds(ids), ALL_FIELDS, Models(docs));
    var before := Select(ByIds(ids), ALL_FIELDS, Models(docs[..n]));
    AnswerGrows(docs, ids);
    if docs[n].id == id {
      assert IdsOf(parts)[|before|] == id;
    } else {
      AnswerIsComplete(docs[..n], ids, id);
      var i :| 0 <= i < |before| && IdsOf(before)[i] == id;
      assert IdsOf(parts)[i] == id;
    }
  }

  /** The query returns each stored part with a requested id once, and nothing else. */
  lemma AnswerHasEachOnce(docs: seq<PartEntity>, ids: seq<string>, parts: seq<Part>)
    requires Collection(docs) && ids != []
    requires parts == Select(ByIds(ids), ALL_FIELDS, Models(docs))
    ensures Distinct(IdsOf(parts))
    ensures forall i :: 0 <= i < |parts| ==> parts[i].id in ids && Lookup(docs, parts[i].id).Some?
                                             && parts[i] == EntityToModel(Lookup(docs, parts[i].id).value)
    ensures forall id :: id in ids && Lookup(docs, id).Some? ==> id in IdsOf(parts)
  {
    AnswerIsAsked(docs, ids, parts);
    forall id | id in ids && Lookup(docs, id).Some? ensures id in IdsOf(parts) {
      AnswerIsComplete(docs, ids, id);
    }
  }

  /** As many parts come back as ids were sent exactly when the ids are distinct and all known. */
  lemma LengthCheckIsExact(docs: seq<PartEntity>, ids: seq<string>, parts: seq<Part>)
    requires Collection(docs) && ids != []
    requires parts == Select(ByIds(ids), ALL_FIELDS, Models(docs))
    ensures |parts| == |ids| <==> Distinct(ids) && forall i :: 0 <= i < |ids| ==> Lookup(docs, ids[i]).Some?
    ensures |parts| == |ids| ==> Elements(IdsOf(parts)) == Elements(ids)
  {
    AnswerHasEachOnce(docs, ids, parts);
    var got := IdsOf(parts);
    CountDistinct(got);
    CountDistinct(ids);
    assert Elements(got) <= Elements(ids) by {
      forall x | x in got ensures x in ids {
        var i :| 0 <= i < |got| && got[i] == x;
      }
    }
    if |parts| == |ids| {
      SetCardinality(Elements(got), Elements(ids));
      SubsetOfSameSize(Elements(got), Elements(ids));
      forall i | 0 <= i < |ids| ensures Lookup(docs, ids[i]).Some? {
        assert ids[i] in Elements(ids);
        var k :| 0 <= k < |got| && got[k] == ids[i];
      }
    }
    if Distinct(ids) && forall i :: 0 <= i < |ids| ==> Lookup(docs, ids[i]).Some? {
      assert Elements(ids) <= Elements(got) by {
        forall x | x in ids ensures x in got {
          var i :| 0 <= i < |ids| && ids[i] == x;
        }
      }
      assert Elements(ids) == Elements(got);
    }
  }

  lemma SetCardinality<T>(a: set<T>, b: set<T>)
    requires a <= b
    ensures |a| <= |b|
  {
    assert |b| == |a| + |b - a|;
  }

  lemma {:induction false} EndedMeaning(parts: seq<Part>)
    ensures Ended(parts) == [] <==> forall i :: 0 <= i < |parts| ==> parts[i].stock > 0
    ensures forall id ::
              id in Ended(parts) <==> exists i :: 0 <= i < |parts| && parts[i].id == id && parts[i].stock <= 0
  {
    if parts != [] {
      var n := |parts| - 1;
      var rest := parts[..n];
      EndedMeaning(rest);
      assert forall i :: 0 <= i < n ==> rest[i] == parts[i];
      forall id
        ensures id in Ended(parts) <==> exists i :: 0 <= i < |parts| && parts[i].id == id && parts[i].stock <= 0
      {
        if i :| 0 <= i < |parts| && parts[i].id == id && parts[i].stock <= 0 {
          assert i < n ==> rest[i].id == id && rest[i].stock <= 0;
        }
        if id in Ended(rest) {
          var i :| 0 <= i < |rest| && rest[i].id == id && rest[i].stock <= 0;
          assert parts[i].id == id && parts[i].stock <= 0;
        }
      }
    }
  }

  /** Adding up with `int64` wrap-around at every step wraps the exact sum once. */
  lemma {:induction false} TotalIsWrappedSum(docs: seq<PartEntity>, parts: seq<Part>)
    requires forall i :: 0 <= i < |parts| ==> parts[i].stock > 0 && parts[i].price == PriceOf(docs, parts[i].id)
    ensures RunningTotal(parts) == Wrap64(SumPrices(docs, IdsOf(parts)))
  {
    if parts != [] {
      var n := |parts| - 1;
      TotalIsWrappedSum(docs, parts[..n]);
      assert IdsOf(parts)[..n] == IdsOf(parts[..n]);
      WrapAbsorbs(SumPrices(docs, IdsOf(parts[..n])), parts[n].price);
    }
  }

  lemma TextsDistinct(ids: seq<Uuid>)
    ensures Distinct(Texts(ids)) <==> Distinct(ids)
  {
    forall i, j | 0 <= i < j < |ids| ensures Texts(ids)[i] == Texts(ids)[j] <==> ids[i] == ids[j] {
      if Text(ids[i]) == Text(ids[j]) {
        TextInjective(ids[i], ids[j]);
      }
    }
  }

  /** A stored part that carries both timestamps, as its conversion to the wire needs. */
  predicate Timed(docs: seq<PartEntity>, id: string) {
    Lookup(docs, id).Some? ==> Lookup(docs, id).value.createdAt.Some? && Lookup(docs, id).value.updatedAt.Some?
  }

  predicate AllTimed(docs: seq<PartEntity>, ids: seq<Uuid>) {
    forall i :: 0 <= i < |ids| ==> Timed(docs, Text(ids[i]))
  }

  /** The query is answered exactly when the call works and no requested part lacks a timestamp. */
  lemma AnsweredExactly(docs: seq<PartEntity>, ids: seq<Uuid>, fails: bool)
    requires Collection(docs) && ids != []
    ensures var answer := ListResult(docs, ByIds(Texts(ids)), fails);
            && (answer.Success? <==> !fails && AllTimed(docs, ids))
            && (answer.Success? ==> answer.value == Wired(Select(ByIds(Texts(ids)), ALL_FIELDS, Models(docs))))
  {
    var texts := Texts(ids);
    var parts := Select(ByIds(texts), ALL_FIELDS, Models(docs));
    assert PartsFilterToModel(Some(PartsFilterToPB(ByIds(texts)))) == ByIds(texts);
    AnswerHasEachOnce(docs, texts, parts);
    if AllTimed(docs, ids) {
      forall i | 0 <= i < |parts| ensures parts[i].createdAt.Some? && parts[i].updatedAt.Some? {
        var k :| 0 <= k < |texts| && texts[k] == parts[i].id;
        assert Timed(docs, Text(ids[k]));
      }
    }
    if Sendable(parts) {
      forall i | 0 <= i < |ids| ensures Timed(docs, Text(ids[i])) {
        if Lookup(docs, texts[i]).Some? {
          assert texts[i] in IdsOf(parts);
          var k :| 0 <= k < |parts| && IdsOf(parts)[k] == texts[i];
        }
      }
    }
  }

  /**
   What `Create` decides, said without the query: a request is refused because the query
   fails, because an id repeats or is unknown, or because a part is out of stock; any other is
   priced at the wrapped sum of its parts.
   */
  lemma QuoteMeaning(docs: seq<PartEntity>, user: Uuid, ids: seq<Uuid>, fails: bool)
    requires Collection(docs) && user != NIL && ids != []
    ensures var quote := Quote(docs, user, ids, fails);
            && (quote == Failure(BadGateway) <==> fails || !AllTimed(docs, ids))
            && (quote == Failure(PartNotFound) <==> quote != Failure(BadGateway) && !AllKnown(docs, ids))
            && (quote.Success? <==> quote != Failure(BadGateway) && AllKnown(docs, ids)
                                    && forall i :: 0 <= i < |ids| ==> InStock(docs, Text(ids[i])))
            && (quote.Success? ==> quote.value == Wrap64(SumPrices(docs, Texts(ids))))
            && (quote.Failure? && quote.error.PartsOutOfStock? ==>
                  forall id :: id in quote.error.ids <==> id in Texts(ids) && !InStock(docs, id))
  {
    AnsweredExactly(docs, ids, fails);
    if !fails && AllTimed(docs, ids) {
      QuoteOfAnswer(docs, user, ids);
    }
  }

  lemma TotalOfAnswer(docs: seq<PartEntity>, ids: seq<string>, parts: seq<Part>)
    requires Collection(docs) && ids != [] && |parts| == |ids|
    requires parts == Select(ByIds(ids), ALL_FIELDS, Models(docs))
    requires forall i :: 0 <= i < |parts| ==> Wired(parts)[i].stock > 0
    ensures RunningTotal(Wired(parts)) == Wrap64(SumPrices(docs, ids))
  {
    AnswerHasEachOnce(docs, ids, parts);
    LengthCheckIsExact(docs, ids, parts);
    TotalIsWrappedSum(docs, Wired(parts));
    assert IdsOf(Wired(parts)) == IdsOf(parts);
    SumOfSameIds(docs, IdsOf(parts), ids);
  }

  lemma QuoteOfAnswer(docs: seq<PartEntity>, user: Uuid, ids: seq<Uuid>)
    requires Collection(docs) && AllTimed(docs, ids) && user != NIL && ids != []
    ensures var quote := Quote(docs, user, ids, false);
            && (quote == Failure(PartNotFound) <==> !AllKnown(docs, ids))
            && (quote.Success? <==> AllKnown(docs, ids) && forall i :: 0 <= i < |ids| ==> InStock(docs, Text(ids[i])))
            && (quote.Success? ==> quote.value == Wrap64(SumPrices(docs, Texts(ids))))
            && (quote.Failure? && quote.error.PartsOutOfStock? ==>
                  forall id :: id in quote.error.ids <==> id in Texts(ids) && !InStock(docs, id))
  {
    var texts := Texts(ids);
    var parts := Select(ByIds(texts), ALL_FIELDS, Models(docs));
    var wired := Wired(parts);
    AnsweredExactly(docs, ids, false);
    AnswerHasEachOnce(docs, texts, parts);
    LengthCheckIsExact(docs, texts, parts);
    TextsDistinct(ids);
    assert AllKnown(docs, ids) <==> |parts| == |ids|;
    EndedMeaning(wired);
    if |parts| == |ids| {
      StockOfAnswer(docs, texts, parts);
      EndedOfAnswer(docs, texts, parts);
      if Ended(wired) == [] {
        TotalOfAnswer(docs, texts, parts);
      }
    }
  }

  /** All answered parts are in stock exactly when all requested ids are. */
  lemma StockOfAnswer(docs: seq<PartEntity>, ids: seq<string>, parts: seq<Part>)
    requires Collection(docs) && ids != [] && |parts| == |ids|
    requires parts == Select(ByIds(ids), ALL_FIELDS, Models(docs))
    ensures (forall i :: 0 <= i < |parts| ==> parts[i].stock > 0)
       <==> (forall i :: 0 <= i < |ids| ==> InStock(docs, ids[i]))
  {
    AnswerHasEachOnce(docs, ids, parts);
    LengthCheckIsExact(docs, ids, parts);
    if forall i :: 0 <= i < |parts| ==> parts[i].stock > 0 {
      forall i | 0 <= i < |ids| ensures InStock(docs, ids[i]) {
        assert ids[i] in Elements(ids) && ids[i] in IdsOf(parts);
        var k :| 0 <= k < |parts| && IdsOf(parts)[k] == ids[i];
      }
    }
    if forall i :: 0 <= i < |ids| ==> InStock(docs, ids[i]) {
      forall k | 0 <= k < |parts| ensures parts[k].stock > 0 {
        assert parts[k].id in ids;
      }
    }
  }

  /** The parts reported as out of stock are exactly the requested ones that are. */
  lemma EndedOfAnswer(docs: seq<PartEntity>, ids: seq<string>, parts: seq<Part>)
    requires Collection(docs) && ids != [] && |parts| == |ids|
    requires parts == Select(ByIds(ids), ALL_FIELDS, Models(docs))
    ensures forall id :: id in Ended(Wired(parts)) <==> id in ids && !InStock(docs, id)
  {
    var wired := Wired(parts);
    AnswerHasEachOnce(docs, ids, parts);
    LengthCheckIsExact(docs, ids, parts);
    EndedMeaning(wired);
    forall id ensures id in Ended(wired) <==> id in ids && !InStock(docs, id) {
      if i :| 0 <= i < |wired| && wired[i].id == id && wired[i].stock <= 0 {
        assert parts[i].id == id;
      }
      if id in ids && !InStock(docs, id) {
        assert id in Elements(ids) && id in IdsOf(parts);
        var i :| 0 <= i < |parts| && IdsOf(parts)[i] == id;
        assert wired[i].id == id && wired[i].stock <= 0;
      }
    }
  }

  /** Ids that differ are reported as out of stock at most once each. */
  lemma {:induction false} EndedOnce(parts: seq<Part>)
    requires Distinct(IdsOf(parts))
    ensures Distinct(Ended(parts))
  {
    if parts != [] {
      var n := |parts| - 1;
      var rest := parts[..n];
      assert forall i :: 0 <= i < n ==> rest[i].id == IdsOf(rest)[i] == IdsOf(parts)[i];
      EndedOnce(rest);
      EndedMeaning(rest);
      forall i | 0 <= i < n ensures rest[i].id != parts[n].id {
        assert IdsOf(parts)[i] != IdsOf(parts)[n];
      }
      assert parts[n].id !in Ended(rest);
    }
  }

  lemma QuoteReportsOnce(docs: seq<PartEntity>, user: Uuid, ids: seq<Uuid>, fails: bool)
    requires Collection(docs)
    ensures var quote := Quote(docs, user, ids, fails);
            quote.Failure? && quote.error.PartsOutOfStock? ==> Distinct(quote.error.ids)
  {
    if user != NIL && ids != [] {
      var parts := Select(ByIds(Texts(ids)), ALL_FIELDS, Models(docs));
      AnsweredExactly(docs, ids, fails);
      AnswerHasEachOnce(docs, Texts(ids), parts);
      assert IdsOf(Wired(parts)) == IdsOf(parts);
      EndedOnce(Wired(parts));
    }
  }

  /** What `Create` decides, in the order of its checks; each part that is out of stock is reported once. */
  lemma QuoteExactly(docs: seq<PartEntity>, user: Uuid, ids: seq<Uuid>, fails: bool)
    requires Collection(docs)
    ensures var quote := Quote(docs, user, ids, fails);
            if user == NIL || |ids| == 0 then quote == Failure(Validation)
            else if fails || !AllTimed(docs, ids) then quote == Failure(BadGateway)
            else if !AllKnown(docs, ids) then quote == Failure(PartNotFound)
            else if forall i :: 0 <= i < |ids| ==> InStock(docs, Text(ids[i])) then
              quote == Success(Wrap64(SumPrices(docs, Texts(ids))))
            else
              && quote.Failure? && quote.error.PartsOutOfStock?
              && Distinct(quote.error.ids)
              && forall id :: id in quote.error.ids <==> id in Texts(ids) && !InStock(docs, id)
  {
    if user != NIL && ids != [] {
      QuoteMeaning(docs, user, ids, fails);
      QuoteReportsOnce(docs, user, ids, fails);
    }
  }

  /** The insert of a priced order. */
  function Insert(t: Table, newId: Uuid, user: Uuid, ids: seq<Uuid>, total: Int64, fault: DbFault)
    : (Table, Option<OrderError>)
  {
    AfterInsert(t, newId, Order(NIL, user, ids, total, None, None, PendingPayment), fault)
  }

  /**
   An order is created exactly when it has a user and parts, the query is answered, the ids are
   distinct, known and in stock, the wrapped sum of their prices is not negative (the table checks it), and the
   database works. The stored total is that wrapped sum, and it is the true sum exactly when
   the true sum is an `int64`.
   */
  lemma CreateExactly(docs: seq<PartEntity>, user: Uuid, ids: seq<Uuid>, fails: bool,
        t: Table, newId: Uuid, fault: DbFault)
    requires Collection(docs)
    ensures var quote := Quote(docs, user, ids, fails);
            var sum := SumPrices(docs, Texts(ids));
            var created := quote.Success? && Insert(t, newId, user, ids, quote.value, fault).1.None?;
            && (created <==> user != NIL && ids != [] && !fails && AllTimed(docs, ids) && AllKnown(docs, ids)
                             && (forall i :: 0 <= i < |ids| ==> InStock(docs, Text(ids[i])))
                             && Wrap64(sum) >= 0 && fault == Healthy)
            && (created ==>
                  var rows := Insert(t, newId, user, ids, quote.value, fault).0.rows;
                  && rows == t.rows[newId := Order(newId, user, ids, Wrap64(sum), None, None, PendingPayment)]
                  && (rows[newId].total == sum <==> INT64_MIN <= sum <= INT64_MAX))
  {
    if user != NIL && ids != [] {
      QuoteMeaning(docs, user, ids, fails);
    }
  }

  /** Non-negative prices never add up to a negative sum, so only an overflow can make the table refuse an order. */
  lemma {:induction false} SumIsNonNegative(docs: seq<PartEntity>, ids: seq<string>)
    requires forall i :: 0 <= i < |docs| ==> docs[i].price >= 0
    ensures SumPrices(docs, ids) >= 0
  {
    if ids != [] {
      SumIsNonNegative(docs, ids[..|ids| - 1]);
      if Lookup(docs, ids[|ids| - 1]).Some? {
        var k := LookupIsStored(docs, ids[|ids| - 1]);
      }
    }
  }
}
