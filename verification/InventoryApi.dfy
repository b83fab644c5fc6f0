/** The parts query between the order service and the inventory: filter and parts cross the wire. */
module InventoryApi {
  import opened Prelude
  import opened Country
  import opened PartsQuery

  /** The inventory knows categories 0 to 4; any other number on the wire means UNKNOWN. */
  function KnownCategory(c: int): int {
    if 0 <= c <= 4 then c else 0
  }

  function KnownCategories(cs: seq<int>): (ks: seq<int>)
    ensures |ks| == |cs| && forall i :: 0 <= i < |ks| ==> ks[i] == KnownCategory(cs[i])
  {
    seq(|cs|, i requires 0 <= i < |cs| => KnownCategory(cs[i]))
  }

  method CategoriesToModel(cs: seq<int>) returns (res: array<int>)
    ensures fresh(res) && res[..] == KnownCategories(cs)
  {
    res := new int[|cs|];
    var val := 0;
    for i := 0 to |cs|
      invariant forall k :: 0 <= k < i ==> res[k] == KnownCategory(cs[k])
    {
      if 0 <= cs[i] <= 4 {
        val := cs[i];
      } else {
        val := 0;
      }
      res[i] := val;
    }
  }

  /** The order side sends its lists as they are. */
  function PartsFilterToPB(f: PartsFilter): PartsFilter {
    PartsFilter(f.ids, f.names, f.categories, f.countries, f.tags)
  }

  /** The inventory side copies them; a missing filter filters nothing. */
  function PartsFilterToModel(f: Option<PartsFilter>): PartsFilter {
    match f
    case None => PartsFilter([], [], [], [], [])
    case Some(pb) => PartsFilter(pb.ids, pb.names, KnownCategories(pb.categories), pb.countries, pb.tags)
  }

  /** A filter arrives as it was sent exactly when it names known categories only. */
  lemma FilterCrosses(f: PartsFilter)
    ensures PartsFilterToModel(Some(PartsFilterToPB(f))) == f <==> forall c :: c in f.categories ==> 0 <= c <= 4
  {
    var g := PartsFilterToModel(Some(PartsFilterToPB(f)));
    if g == f {
      forall c | c in f.categories ensures 0 <= c <= 4 {
        var i :| 0 <= i < |f.categories| && f.categories[i] == c;
        assert g.categories[i] == KnownCategory(c);
      }
    }
    if forall c :: c in f.categories ==> 0 <= c <= 4 {
      assert forall i :: 0 <= i < |f.categories| ==> f.categories[i] in f.categories;
      assert g.categories == f.categories;
    }
  }

  /** A filter as the inventory sees it. */
  function Arrived(f: PartsFilter): PartsFilter {
    PartsFilterToModel(Some(PartsFilterToPB(f)))
  }

  /** A part that meets every field of the filter but its categories, and whose category is UNKNOWN. */
  function UnknownPart(f: PartsFilter): Part {
    Part(if f.ids == [] then "" else f.ids[0], if f.names == [] then "" else f.names[0], "", 0, 0, 0,
         Some(Manufacturer("", if f.countries == [] then "" else f.countries[0], "")),
         if f.tags == [] then [] else [f.tags[0]], None, None)
  }

  lemma UnknownPartMeetsOthers(f: PartsFilter, field: Field)
    requires field != CategoryField
    ensures WantedBy(f, field, UnknownPart(f))
  {
    if field == CountryField && f.countries != [] {
      NormalFormsDecide(f.countries[0], f.countries[0]);
      assert f.countries[0] in f.countries;
    }
    if field == TagsField && f.tags != [] {
      assert f.tags[0] in UnknownPart(f).tags && f.tags[0] in f.tags;
    }
  }

  /** Which categories the arrived filter names. */
  lemma ArrivedCategories(f: PartsFilter, c: int)
    requires 0 <= c <= 4
    ensures c in Arrived(f).categories
       <==> c in f.categories || (c == 0 && exists u :: u in f.categories && !(0 <= u <= 4))
  {
    var cs, ks := f.categories, Arrived(f).categories;
    if c in ks {
      var i :| 0 <= i < |ks| && ks[i] == c;
      assert KnownCategory(cs[i]) == c && cs[i] in cs;
    }
    if c in cs {
      var i :| 0 <= i < |cs| && cs[i] == c;
      assert ks[i] == c;
    }
    if c == 0 {
      if u :| u in cs && !(0 <= u <= 4) {
        var i :| 0 <= i < |cs| && cs[i] == u;
        assert ks[i] == 0;
      }
    }
  }

  lemma OtherFieldsArrive(f: PartsFilter, field: Field, p: Part)
    requires field != CategoryField
    ensures WantedBy(Arrived(f), field, p) <==> WantedBy(f, field, p)
  {
  }

  lemma CategoryArrives(f: PartsFilter, p: Part)
    requires 0 <= p.category <= 4 && (0 in f.categories || forall c :: c in f.categories ==> 0 <= c <= 4)
    ensures Wanted(Arrived(f), p) <==> Wanted(f, p)
  {
    ArrivedCategories(f, p.category);
    assert |Arrived(f).categories| == |f.categories|;
    forall field ensures WantedBy(Arrived(f), field, p) <==> WantedBy(f, field, p) {
      if field != CategoryField {
        OtherFieldsArrive(f, field, p);
      }
    }
  }

  /**
   A filter that names an unknown category, and not UNKNOWN, selects a part of UNKNOWN category
   that it does not want.
   */
  lemma UnknownCategorySelects(f: PartsFilter, u: int)
    requires u in f.categories && !(0 <= u <= 4) && 0 !in f.categories
    ensures Wanted(Arrived(f), UnknownPart(f)) && !Wanted(f, UnknownPart(f))
  {
    var p := UnknownPart(f);
    ArrivedCategories(f, 0);
    forall field ensures WantedBy(Arrived(f), field, p) {
      if field != CategoryField {
        OtherFieldsArrive(f, field, p);
        UnknownPartMeetsOthers(f, field);
      }
    }
    assert !WantedBy(f, CategoryField, p);
  }

  /** Category 7 is not known: asking for it returns parts of UNKNOWN category. */
  lemma CategorySevenSelectsUnknown()
    ensures var f := PartsFilter([], [], [7], [], []);
            Wanted(Arrived(f), UnknownPart(f)) && !Wanted(f, UnknownPart(f))
  {
    var f := PartsFilter([], [], [7], [], []);
    assert f.categories[0] == 7;
    UnknownCategorySelects(f, 7);
  }

  /**
   The inventory selects among parts of known categories what the filter means, exactly when
   the filter names known categories only or names UNKNOWN itself.
   */
  lemma MeaningArrivesExactly(f: PartsFilter)
    ensures (forall p: Part :: 0 <= p.category <= 4 ==> (Wanted(Arrived(f), p) <==> Wanted(f, p)))
       <==> (0 in f.categories || forall c :: c in f.categories ==> 0 <= c <= 4)
  {
    if 0 in f.categories || forall c :: c in f.categories ==> 0 <= c <= 4 {
      forall p: Part | 0 <= p.category <= 4 ensures Wanted(Arrived(f), p) <==> Wanted(f, p) {
        CategoryArrives(f, p);
      }
    } else {
      var u :| u in f.categories && !(0 <= u <= 4);
      UnknownCategorySelects(f, u);
      assert UnknownPart(f).category == 0;
    }
  }

  datatype ListError = CallFailed | HandlerPanicked

  /** Both timestamps are dereferenced when a part is put on the wire. */
  predicate Sendable(ps: seq<Part>) {
    forall i :: 0 <= i < |ps| ==> ps[i].createdAt.Some? && ps[i].updatedAt.Some?
  }

  function OnWire(p: Part): Part {
    p.(category := KnownCategory(p.category))
  }

  function Wired(ps: seq<Part>): (ws: seq<Part>)
    ensures |ws| == |ps| && forall i :: 0 <= i < |ws| ==> ws[i] == OnWire(ps[i])
  {
    seq(|ps|, i requires 0 <= i < |ps| => OnWire(ps[i]))
  }

  /** The parts the filter, as it arrives, selects. */
  ghost function Selected(docs: seq<PartEntity>, f: PartsFilter): seq<Part> {
    Select(Arrived(f), ALL_FIELDS, Models(docs))
  }

  /** The answer the order service gets for its filter. */
  ghost function ListResult(docs: seq<PartEntity>, f: PartsFilter, fails: bool): Result<seq<Part>, ListError> {
    if fails then Failure(CallFailed)
    else if !Sendable(Selected(docs, f)) then Failure(HandlerPanicked)
    else Success(Wired(Selected(docs, f)))
  }

  /** The call, its handler and the copying loop on either side; a missing timestamp makes the handler panic. */
  method ListParts(repo: PartRepository, f: PartsFilter, undelivered: bool, read: ReadFault)
    returns (res: Result<seq<Part>, ListError>)
    requires Collection(repo.docs)
    ensures res == ListResult(repo.docs, f, undelivered || !read.ReadWorks?)
  {
    if undelivered {
      return Failure(CallFailed);
    }
    var categories := CategoriesToModel(PartsFilterToPB(f).categories);
    var g := PartsFilterToPB(f).(categories := categories[..]);
    var listed := repo.List(g, read);
    if listed.Failure? {
      return Failure(CallFailed);
    }
    var parts := listed.value;
    var out: seq<Part> := [];
    for i := 0 to |parts|
      invariant Sendable(parts[..i])
      invariant out == Wired(parts[..i])
    {
      assert parts[..i + 1] == parts[..i] + [parts[i]];
      if parts[i].createdAt.None? || parts[i].updatedAt.None? {
        return Failure(HandlerPanicked);
      }
      out := out + [OnWire(parts[i])];
    }
    assert parts[..|parts|] == parts;
    res := Success(out);
  }
}
