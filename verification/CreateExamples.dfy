/** What `Create` does at concrete inputs: a repeated part, a part without timestamps, sums that overflow. */
module CreateExamples {
  import opened Prelude
  import opened Ids
  import opened PartsQuery
  import opened OrderTable
  import opened OrderCreate

  const BUYER: Uuid := 9
  const ALL: seq<Uuid> := [1, 2, 3]

  /** A part in stock with both timestamps. */
  function Stocked(id: Uuid, price: Int64): PartEntity {
    PartEntity(Text(id), "", "", price, 5, 0, None, [], Some(1), Some(1))
  }

  /** Three different parts. */
  function Shelf(a: Int64, b: Int64, c: Int64): seq<PartEntity> {
    [Stocked(1, a), Stocked(2, b), Stocked(3, c)]
  }

  lemma ShelfLookups(a: Int64, b: Int64, c: Int64)
    ensures Lookup(Shelf(a, b, c), Text(1)) == Some(Stocked(1, a))
    ensures Lookup(Shelf(a, b, c), Text(2)) == Some(Stocked(2, b))
    ensures Lookup(Shelf(a, b, c), Text(3)) == Some(Stocked(3, c))
    ensures Text(1) != Text(2) && Text(1) != Text(3) && Text(2) != Text(3)
  {
    if Text(1) == Text(2) {
      TextInjective(1, 2);
    }
    if Text(1) == Text(3) {
      TextInjective(1, 3);
    }
    if Text(2) == Text(3) {
      TextInjective(2, 3);
    }
    var docs := Shelf(a, b, c);
    assert docs[..2] == [docs[0], docs[1]] && docs[..2][..1] == [docs[0]];
    assert Lookup(docs[..2], Text(1)) == Lookup(docs[..2][..1], Text(1));
  }

  lemma ShelfIsCollection(a: Int64, b: Int64, c: Int64)
    ensures Collection(Shelf(a, b, c))
  {
    ShelfLookups(a, b, c);
    assert Text(1) != "" && Text(2) != "" && Text(3) != "" by {
      assert |Text(1)| == 36 && |Text(2)| == 36 && |Text(3)| == 36;
    }
  }

  /** Asking twice for a part in stock is answered with part-not-found. */
  lemma RepeatedPartIsRefused()
    ensures Quote(Shelf(100, 200, 300), BUYER, [1, 1], false) == Failure(PartNotFound)
  {
    ShelfLookups(100, 200, 300);
    ShelfIsCollection(100, 200, 300);
    var ids: seq<Uuid> := [1, 1];
    assert ids[0] == ids[1] && !Distinct(ids);
    QuoteMeaning(Shelf(100, 200, 300), BUYER, ids, false);
  }

  /** The price of one part of each kind. */
  lemma ShelfSum(a: Int64, b: Int64, c: Int64)
    ensures SumPrices(Shelf(a, b, c), Texts(ALL)) == a + b + c
  {
    ShelfLookups(a, b, c);
    var docs, t := Shelf(a, b, c), Texts(ALL);
    assert t[..2][..1] == t[..1] && t[..1][..0] == [];
    assert SumPrices(docs, t[..1]) == a;
    assert SumPrices(docs, t[..2]) == a + b;
  }

  lemma ShelfIsKnown(a: Int64, b: Int64, c: Int64)
    ensures AllKnown(Shelf(a, b, c), ALL) && AllTimed(Shelf(a, b, c), ALL)
    ensures forall i :: 0 <= i < |ALL| ==> InStock(Shelf(a, b, c), Text(ALL[i]))
  {
    ShelfLookups(a, b, c);
    forall i | 0 <= i < |ALL| ensures Lookup(Shelf(a, b, c), Text(ALL[i])).Some? {
      assert ALL[i] == 1 || ALL[i] == 2 || ALL[i] == 3;
    }
  }

  lemma ShelfQuote(a: Int64, b: Int64, c: Int64)
    ensures Quote(Shelf(a, b, c), BUYER, ALL, false) == Success(Wrap64(a + b + c))
  {
    ShelfIsKnown(a, b, c);
    ShelfIsCollection(a, b, c);
    ShelfSum(a, b, c);
    QuoteMeaning(Shelf(a, b, c), BUYER, ALL, false);
  }

  lemma WrapValues()
    ensures Wrap64(INT64_MAX + INT64_MAX + 2) == 0 && Wrap64(INT64_MAX + 1 + 0) == INT64_MIN
  {
  }

  /** Two parts at the greatest price and one at two cents: their sum is 2 to the 64th, and the order is free. */
  lemma OverflowMakesOrderFree()
    ensures Quote(Shelf(INT64_MAX, INT64_MAX, 2), BUYER, ALL, false) == Success(0)
  {
    ShelfQuote(INT64_MAX, INT64_MAX, 2);
    WrapValues();
  }

  lemma NegativeIsRefused(t: Table, newId: Uuid, ids: seq<Uuid>, total: Int64)
    requires total < 0
    ensures Insert(t, newId, BUYER, ids, total, Healthy).1 == Some(CheckViolation)
  {
  }

  lemma OverflowIsNegative()
    ensures Quote(Shelf(INT64_MAX, 1, 0), BUYER, ALL, false) == Success(INT64_MIN)
  {
    ShelfQuote(INT64_MAX, 1, 0);
    WrapValues();
  }

  /** With a sum of 2 to the 63rd the total is negative, and the table refuses the order. */
  lemma OverflowIsRefusedByTable(t: Table, newId: Uuid)
    ensures Quote(Shelf(INT64_MAX, 1, 0), BUYER, ALL, false) == Success(INT64_MIN)
    ensures Insert(t, newId, BUYER, ALL, INT64_MIN, Healthy).1
         == Some(CheckViolation)
  {
    OverflowIsNegative();
    NegativeIsRefused(t, newId, ALL, INT64_MIN);
  }

  /**
   A part as `CreateBatch` stores it when its caller sets no times: the update time is missing,
   so asking for it fails.
   */
  lemma UntimedPartIsRefused(now: int)
    ensures var part := Part(Text(1), "", "", 100, 5, 0, None, [], None, None);
            var docs := Documents([Some(part)], now);
            Collection(docs) && Quote(docs, BUYER, [1], false) == Failure(BadGateway)
  {
    var part := Part(Text(1), "", "", 100, 5, 0, None, [], None, None);
    var parts: seq<Option<Part>> := [Some(part)];
    var docs := Documents(parts, now);
    var n := |parts| - 1;
    assert Documents(parts[..n], now) == [];
    assert docs == [EntityFromModel(Stamped(part, now))];
    assert part.id != "" by {
      assert |Text(1)| == 36;
    }
    assert docs[0].id == Text(1) && docs[0].updatedAt.None?;
    var ids: seq<Uuid> := [1];
    assert !Timed(docs, Text(ids[0]));
    QuoteMeaning(docs, BUYER, ids, false);
  }
}
