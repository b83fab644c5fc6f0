/**
 The generated JSON codec of an order: the fields it writes, and the decoder's loop over keys
 with its bit set of required fields. Values arrive as tokens; their text is not modelled.
 */
module OrderJson {
  import opened Prelude
  import opened Ids
  import opened Money

  datatype Token = UuidToken(id: Uuid) | UuidsToken(ids: seq<Uuid>) | StrToken(s: string) | NullToken | OtherToken

  /** An optional nullable field; `value` is the zero value when it is null. */
  datatype OptNil<T> = OptNil(value: T, isSet: bool, isNull: bool)

  datatype OrderDto = OrderDto(
    order: Uuid,
    user: Uuid,
    parts: seq<Uuid>,
    total: string,
    tx: OptNil<Uuid>,
    pm: OptNil<string>,
    status: string)

  const EMPTY := OrderDto(NIL, NIL, [], "", OptNil(NIL, false, false), OptNil("", false, false), "")

  /** The names of the fields, by index; a bit without a field is named by its number. */
  function FieldName(i: nat): string {
    if i == 0 then "order_uuid" else if i == 1 then "user_uuid" else if i == 2 then "part_uuids"
    else if i == 3 then "total_price" else if i == 4 then "transaction_uuid" else if i == 5 then "payment_method"
    else if i == 6 then "status" else Digits(i)
  }

  type Field = (string, Token)

  // ----- Encoding -----

  function EncodeTx(tx: OptNil<Uuid>): seq<Field> {
    if !tx.isSet then []
    else [("transaction_uuid", if tx.isNull then NullToken else UuidToken(tx.value))]
  }

  function EncodePm(pm: OptNil<string>): seq<Field> {
    if !pm.isSet then []
    else [("payment_method", if pm.isNull then NullToken else StrToken(pm.value))]
  }

  function EncodeFields(o: OrderDto): seq<Field> {
    [("order_uuid", UuidToken(o.order)), ("user_uuid", UuidToken(o.user)), ("part_uuids", UuidsToken(o.parts)),
     ("total_price", StrToken(o.total))]
    + EncodeTx(o.tx) + EncodePm(o.pm) + [("status", StrToken(o.status))]
  }

  // ----- Decoding one field -----

  /** The order after one field, or nothing if its value does not decode. */
  function DecodeField(o: OrderDto, f: Field): Option<OrderDto> {
    var (key, value) := f;
    if key == "order_uuid" then
      if value.UuidToken? then Some(o.(order := value.id)) else None
    else if key == "user_uuid" then
      if value.UuidToken? then Some(o.(user := value.id)) else None
    else if key == "part_uuids" then
      if value.UuidsToken? then Some(o.(parts := value.ids)) else None
    else if key == "total_price" then
      if value.StrToken? then Some(o.(total := value.s)) else None
    else if key == "transaction_uuid" then
      if value.NullToken? then Some(o.(tx := OptNil(NIL, true, true)))
      else if value.UuidToken? then Some(o.(tx := OptNil(value.id, true, false)))
      else None
    else if key == "payment_method" then
      if value.NullToken? then Some(o.(pm := OptNil("", true, true)))
      else if value.StrToken? then Some(o.(pm := OptNil(value.s, true, false)))
      else None
    else if key == "status" then
      if value.StrToken? then Some(o.(status := value.s)) else None
    else Some(o)
  }

  /** The order after all fields, or nothing if some value does not decode. */
  function DecodeAll(o: OrderDto, fields: seq<Field>): Option<OrderDto>
    decreases |fields|
  {
    if fields == [] then Some(o)
    else
      match DecodeField(o, fields[0])
      case None => None
      case Some(o') => DecodeAll(o', fields[1..])
  }

  // ----- The bit set -----

  const REQUIRED_MASK: bv8 := 0x4f

  /** The bit a key sets; optional and unknown keys set none. */
  function BitOf(key: string): bv8 {
    if key == "order_uuid" then 0x01
    else if key == "user_uuid" then 0x02
    else if key == "part_uuids" then 0x04
    else if key == "total_price" then 0x08
    else if key == "status" then 0x40
    else 0x00
  }

  function BitsOf(fields: seq<Field>): bv8 {
    if fields == [] then 0 else BitsOf(fields[..|fields| - 1]) | BitOf(fields[|fields| - 1].0)
  }

  predicate HasKey(fields: seq<Field>, key: string) {
    exists i :: 0 <= i < |fields| && fields[i].0 == key
  }

  /** `1 << i` in eight bits. */
  function Bit(i: nat): bv8 {
    if i == 0 then 0x01 else if i == 1 then 0x02 else if i == 2 then 0x04 else if i == 3 then 0x08
    else if i == 4 then 0x10 else if i == 5 then 0x20 else if i == 6 then 0x40 else if i == 7 then 0x80
    else 0x00
  }

  /** The eight bits, lowest first. */
  function Flags(b: bv8): (flags: seq<bool>)
    ensures |flags| == 8 && forall i :: 0 <= i < 8 ==> flags[i] == (b & Bit(i) != 0)
  {
    seq(8, i requires 0 <= i < 8 => b & Bit(i) != 0)
  }

  /** The positions of the set bits among the last `rest`, in ascending order. */
  function SetAmong(flags: seq<bool>, rest: nat): seq<nat>
    requires rest <= |flags|
  {
    if rest == 0 then []
    else if flags[|flags| - rest] then [|flags| - rest] + SetAmong(flags, rest - 1)
    else SetAmong(flags, rest - 1)
  }

  /** How many of the last `rest` bits are set. */
  function OnesAmong(flags: seq<bool>, rest: nat): nat
    requires rest <= |flags|
  {
    if rest == 0 then 0 else (if flags[|flags| - rest] then 1 else 0) + OnesAmong(flags, rest - 1)
  }

  /** The first set bit among the last `rest`, or the number of bits if none is. */
  function FirstAmong(flags: seq<bool>, rest: nat): nat
    requires rest <= |flags|
  {
    if rest == 0 then |flags| else if flags[|flags| - rest] then |flags| - rest else FirstAmong(flags, rest - 1)
  }

  /** `bits.OnesCount8`. */
  function OnesCount(b: bv8): nat {
    OnesAmong(Flags(b), |Flags(b)|)
  }

  /** `bits.TrailingZeros8`. */
  function TrailingZeros(b: bv8): nat {
    FirstAmong(Flags(b), |Flags(b)|)
  }

  function NamesOf(at: seq<nat>): seq<string> {
    if at == [] then [] else [FieldName(at[0])] + NamesOf(at[1..])
  }

  /** The names of all set bits, in ascending order. */
  function Names(b: bv8): seq<string> {
    NamesOf(SetAmong(Flags(b), |Flags(b)|))
  }

  lemma MaskOther(b: bv8, m: bv8, n: bv8)
    requires m & n == 0
    ensures (b & !m) & n == b & n
  {
  }

  lemma MaskSame(b: bv8, m: bv8)
    ensures (b & !m) & m == 0
  {
  }

  lemma BitsDiffer(i: nat, j: nat)
    requires i < 8 && j < 8 && i != j
    ensures Bit(i) & Bit(j) == 0
  {
  }

  lemma ClearedBit(b: bv8, i: nat, j: nat)
    requires i < 8 && j < 8
    ensures (b & !Bit(i)) & Bit(j) != 0 <==> i != j && b & Bit(j) != 0
  {
    if i == j {
      MaskSame(b, Bit(i));
    } else {
      BitsDiffer(i, j);
      MaskOther(b, Bit(i), Bit(j));
    }
  }

  /** Clearing one bit changes that bit only. */
  lemma Cleared(b: bv8, i: nat)
    requires i < 8
    ensures Flags(b & !Bit(i)) == Flags(b)[i := false]
  {
    var cleared := Flags(b & !Bit(i));
    forall j: nat | j < 8 ensures cleared[j] == Flags(b)[i := false][j] {
      ClearedBit(b, i, j);
    }
  }

  lemma {:induction false} HigherUnchanged(flags: seq<bool>, i: nat, rest: nat)
    requires rest <= |flags| && i < |flags| - rest
    ensures SetAmong(flags[i := false], rest) == SetAmong(flags, rest)
    ensures OnesAmong(flags[i := false], rest) == OnesAmong(flags, rest)
  {
    if rest > 0 {
      HigherUnchanged(flags, i, rest - 1);
    }
  }

  /** Clearing the lowest set bit takes away the first position and one of the count. */
  lemma {:induction false} ClearLowest(flags: seq<bool>, rest: nat)
    requires rest <= |flags| && FirstAmong(flags, rest) < |flags|
    ensures var i := FirstAmong(flags, rest);
            && |flags| - rest <= i && flags[i]
            && SetAmong(flags, rest) == [i] + SetAmong(flags[i := false], rest)
            && OnesAmong(flags, rest) == 1 + OnesAmong(flags[i := false], rest)
  {
    var k := |flags| - rest;
    if flags[k] {
      HigherUnchanged(flags, k, rest - 1);
    } else {
      ClearLowest(flags, rest - 1);
    }
  }

  lemma {:induction false} SomeBitIsFirst(flags: seq<bool>, rest: nat)
    requires rest <= |flags|
    ensures OnesAmong(flags, rest) == |SetAmong(flags, rest)|
    ensures OnesAmong(flags, rest) > 0 <==> FirstAmong(flags, rest) < |flags|
  {
    if rest > 0 {
      SomeBitIsFirst(flags, rest - 1);
    }
  }

  lemma NamesOfFirst(i: nat, rest: seq<nat>)
    ensures NamesOf([i] + rest) == [FieldName(i)] + NamesOf(rest)
  {
    assert ([i] + rest)[1..] == rest;
  }

  /** The step of the loop: the lowest bit's name comes off the front. */
  lemma ClearFirst(b: bv8)
    requires OnesCount(b) > 0
    ensures TrailingZeros(b) < 8
    ensures OnesCount(b) == 1 + OnesCount(b & !Bit(TrailingZeros(b)))
    ensures Names(b) == [FieldName(TrailingZeros(b))] + Names(b & !Bit(TrailingZeros(b)))
  {
    var flags := Flags(b);
    SomeBitIsFirst(flags, |flags|);
    ClearLowest(flags, |flags|);
    var bitIdx := FirstAmong(flags, |flags|);
    Cleared(b, bitIdx);
    NamesOfFirst(bitIdx, SetAmong(flags[bitIdx := false], |flags|));
  }

  lemma NoOnesNoNames(b: bv8)
    requires OnesCount(b) == 0
    ensures Names(b) == []
  {
    SomeBitIsFirst(Flags(b), |Flags(b)|);
  }

  /** The names found so far, followed by those of the bits that are left, are all the names. */
  predicate Progress(missing: bv8, names: seq<string>, result: bv8, left: int) {
    left == OnesCount(result) && Names(missing) == names + Names(result)
  }

  lemma ProgressStarts(missing: bv8)
    ensures Progress(missing, [], missing, OnesCount(missing))
  {
    assert [] + Names(missing) == Names(missing);
  }

  lemma ProgressSteps(missing: bv8, names: seq<string>, result: bv8, left: int)
    requires Progress(missing, names, result, left) && left > 0
    ensures var i := TrailingZeros(result);
            Progress(missing, names + [FieldName(i)], result & !Bit(i), left - 1)
  {
    ClearFirst(result);
  }

  lemma ProgressEnds(missing: bv8, names: seq<string>, result: bv8)
    requires Progress(missing, names, result, 0)
    ensures names == Names(missing)
  {
    NoOnesNoNames(result);
  }

  /** The loop that turns missing bits into field names. */
  method MissingNames(missing: bv8) returns (names: seq<string>)
    ensures names == Names(missing)
  {
    names := [];
    var result := missing;
    var missed := OnesCount(result);
    ProgressStarts(missing);
    for bitN := 0 to missed
      invariant Progress(missing, names, result, missed - bitN)
    {
      ProgressSteps(missing, names, result, missed - bitN);
      var bitIdx := TrailingZeros(result);
      names := names + [FieldName(bitIdx)];
      result := result & !Bit(bitIdx);
    }
    ProgressEnds(missing, names, result);
  }

  // ----- Decoding an object -----

  datatype DecodeError = BadValue(key: string) | MissingFields(names: seq<string>)

  predicate Required(i: nat) {
    i < 7 && i != 4 && i != 5
  }

  /** The required names, from the k-th field on, that no key of the object has. */
  function Absent(fields: seq<Field>, k: nat): seq<string>
    decreases 7 - k
  {
    if k >= 7 then []
    else (if Required(k) && !HasKey(fields, FieldName(k)) then [FieldName(k)] else []) + Absent(fields, k + 1)
  }

  /** A required field's bit is set exactly when its key occurs. */
  lemma {:induction false} BitMeaning(fields: seq<Field>, key: string)
    requires BitOf(key) != 0
    ensures BitsOf(fields) & BitOf(key) != 0 <==> HasKey(fields, key)
  {
    if fields != [] {
      var n := |fields| - 1;
      BitMeaning(fields[..n], key);
      BitsAreSeparate(BitsOf(fields[..n]), fields[n].0, key);
      if HasKey(fields, key) {
        var i :| 0 <= i < |fields| && fields[i].0 == key;
        assert i < n ==> fields[..n][i].0 == key;
      }
      if HasKey(fields[..n], key) {
        var i :| 0 <= i < n && fields[..n][i].0 == key;
        assert fields[i].0 == key;
      }
    }
  }

  lemma BitsAreSeparate(b: bv8, added: string, key: string)
    requires BitOf(key) != 0
    ensures (b | BitOf(added)) & BitOf(key) != 0 <==> b & BitOf(key) != 0 || added == key
  {
  }

  function MissingBits(b: bv8): bv8 {
    (b & REQUIRED_MASK) ^ REQUIRED_MASK
  }

  /** Masking and flipping leaves exactly the required bits that are not set. */
  lemma MaskMeaning(b: bv8, i: nat)
    requires i < 8
    ensures MissingBits(b) & Bit(i) != 0 <==> Required(i) && b & Bit(i) == 0
  {
  }

  lemma NothingMissing(b: bv8)
    ensures MissingBits(b) == 0 ==> forall i :: 0 <= i < 8 ==> !Flags(MissingBits(b))[i]
  {
  }

  lemma RequiredBit(i: nat)
    requires Required(i)
    ensures BitOf(FieldName(i)) == Bit(i) != 0
  {
  }

  /** A flag of the missing bits says that a required key is absent. */
  lemma FlagMeaning(fields: seq<Field>, i: nat)
    requires i < 8
    ensures Flags(MissingBits(BitsOf(fields)))[i] <==> Required(i) && !HasKey(fields, FieldName(i))
  {
    MaskMeaning(BitsOf(fields), i);
    if Required(i) {
      RequiredBit(i);
      BitMeaning(fields, FieldName(i));
    }
  }

  lemma {:induction false} NamesAreAbsent(fields: seq<Field>, flags: seq<bool>, rest: nat)
    requires rest <= |flags| == 8
    requires forall i :: 0 <= i < 8 ==> (flags[i] <==> Required(i) && !HasKey(fields, FieldName(i)))
    ensures NamesOf(SetAmong(flags, rest)) == Absent(fields, 8 - rest)
  {
    if rest > 0 {
      NamesAreAbsent(fields, flags, rest - 1);
      NamesOfFirst(8 - rest, SetAmong(flags, rest - 1));
    }
  }

  lemma MissingIsAbsent(fields: seq<Field>)
    ensures Names(MissingBits(BitsOf(fields))) == Absent(fields, 0)
  {
    var flags := Flags(MissingBits(BitsOf(fields)));
    forall i | 0 <= i < 8 ensures flags[i] <==> Required(i) && !HasKey(fields, FieldName(i)) {
      FlagMeaning(fields, i);
    }
    NamesAreAbsent(fields, flags, |flags|);
  }

  lemma {:induction false} NoFlagNoName(flags: seq<bool>, rest: nat)
    requires rest <= |flags| && forall i :: 0 <= i < |flags| ==> !flags[i]
    ensures SetAmong(flags, rest) == []
  {
    if rest > 0 {
      NoFlagNoName(flags, rest - 1);
    }
  }

  /** The value has the form that the API gives to its key; a key that is not of an order may have any value. */
  predicate Fits(f: Field) {
    && (f.0 == "order_uuid" || f.0 == "user_uuid" ==> f.1.UuidToken?)
    && (f.0 == "part_uuids" ==> f.1.UuidsToken?)
    && (f.0 == "total_price" || f.0 == "status" ==> f.1.StrToken?)
    && (f.0 == "transaction_uuid" ==> f.1.NullToken? || f.1.UuidToken?)
    && (f.0 == "payment_method" ==> f.1.NullToken? || f.1.StrToken?)
  }

  predicate FirstMisfit(fields: seq<Field>, i: nat) {
    i < |fields| && !Fits(fields[i]) && forall j :: 0 <= j < i ==> Fits(fields[j])
  }

  lemma FieldFits(o: OrderDto, f: Field)
    ensures DecodeField(o, f).Some? <==> Fits(f)
  {
  }

  /** The decoder's callback loop over the keys, and its check of the required fields. */
  method Decode(fields: seq<Field>) returns (res: Result<OrderDto, DecodeError>)
    ensures match DecodeAll(EMPTY, fields)
            case None => res.Failure? && res.error.BadValue?
            case Some(o) =>
              res == if Absent(fields, 0) == [] then Success(o) else Failure(MissingFields(Absent(fields, 0)))
    ensures forall i: nat :: FirstMisfit(fields, i) ==> res == Failure(BadValue(fields[i].0))
    ensures res.Failure? && res.error.BadValue? ==> exists i: nat :: FirstMisfit(fields, i)
  {
    var o := EMPTY;
    var required: bv8 := 0;
    for i := 0 to |fields|
      invariant required == BitsOf(fields[..i])
      invariant DecodeAll(EMPTY, fields) == DecodeAll(o, fields[i..])
      invariant forall j :: 0 <= j < i ==> Fits(fields[j])
    {
      assert fields[..i + 1][..i] == fields[..i];
      assert fields[i..][1..] == fields[i + 1..];
      required := required | BitOf(fields[i].0);
      var next := DecodeField(o, fields[i]);
      FieldFits(o, fields[i]);
      if next.None? {
        assert FirstMisfit(fields, i);
        assert forall j: nat :: FirstMisfit(fields, j) ==> j == i;
        return Failure(BadValue(fields[i].0));
      }
      o := next.value;
    }
    assert fields[..|fields|] == fields;
    var result := MissingBits(required);
    MissingIsAbsent(fields);
    var names := [];
    if result == 0 {
      NothingMissing(required);
      NoFlagNoName(Flags(result), |Flags(result)|);
    } else {
      names := MissingNames(result);
    }
    res := if |names| > 0 then Failure(MissingFields(names)) else Success(o);
  }

  // ----- What decoding means, key by key -----

  /** The value of the last field with this key. */
  function LastValue(fields: seq<Field>, key: string): Option<Token> {
    if fields == [] then None
    else if fields[|fields| - 1].0 == key then Some(fields[|fields| - 1].1)
    else LastValue(fields[..|fields| - 1], key)
  }

  predicate SaysId(last: Option<Token>, id: Uuid) {
    if last.None? then id == NIL else last.value == UuidToken(id)
  }

  predicate SaysText(last: Option<Token>, s: string) {
    if last.None? then s == "" else last.value == StrToken(s)
  }

  predicate SaysIds(fields: seq<Field>, o: OrderDto) {
    && SaysId(LastValue(fields, "order_uuid"), o.order)
    && SaysId(LastValue(fields, "user_uuid"), o.user)
    && (match LastValue(fields, "part_uuids")
        case None => o.parts == []
        case Some(last) => last == UuidsToken(o.parts))
  }

  predicate SaysTexts(fields: seq<Field>, o: OrderDto) {
    && SaysText(LastValue(fields, "total_price"), o.total)
    && SaysText(LastValue(fields, "status"), o.status)
  }

  predicate SaysOptions(fields: seq<Field>, o: OrderDto) {
    && (match LastValue(fields, "transaction_uuid")
        case None => o.tx == OptNil(NIL, false, false)
        case Some(last) =>
          o.tx.isSet && (if o.tx.isNull then last == NullToken && o.tx.value == NIL else last == UuidToken(o.tx.value)))
    && (match LastValue(fields, "payment_method")
        case None => o.pm == OptNil("", false, false)
        case Some(last) =>
          o.pm.isSet && (if o.pm.isNull then last == NullToken && o.pm.value == "" else last == StrToken(o.pm.value)))
  }

  /** Each part of the order is what the last value of its key says, or empty if the key is absent. */
  predicate Says(fields: seq<Field>, o: OrderDto) {
    SaysIds(fields, o) && SaysTexts(fields, o) && SaysOptions(fields, o)
  }

  lemma {:induction false} DecodeConcat(o: OrderDto, a: seq<Field>, b: seq<Field>)
    ensures DecodeAll(o, a + b) == match DecodeAll(o, a) case None => None case Some(o') => DecodeAll(o', b)
    decreases |a|
  {
    if a == [] {
      assert a + b == b;
    } else {
      assert (a + b)[0] == a[0] && (a + b)[1..] == a[1..] + b;
      match DecodeField(o, a[0])
      case None =>
      case Some(o') => DecodeConcat(o', a[1..], b);
    }
  }

  lemma DecodeOne(o: OrderDto, f: Field)
    ensures DecodeAll(o, [f]) == DecodeField(o, f)
  {
    assert [f][1..] == [];
  }

  lemma OneMoreField(o: OrderDto, fields: seq<Field>)
    requires fields != []
    ensures var n := |fields| - 1;
            DecodeAll(o, fields) == match DecodeAll(o, fields[..n])
                                    case None => None
                                    case Some(o') => DecodeField(o', fields[n])
  {
    var n := |fields| - 1;
    assert fields == fields[..n] + [fields[n]];
    DecodeConcat(o, fields[..n], [fields[n]]);
    if DecodeAll(o, fields[..n]).Some? {
      DecodeOne(DecodeAll(o, fields[..n]).value, fields[n]);
    }
  }

  lemma IdIsSaid(fields: seq<Field>, o: OrderDto)
    requires fields != [] && SaysIds(fields[..|fields| - 1], o)
    ensures var next := DecodeField(o, fields[|fields| - 1]);
            next.Some? ==> SaysIds(fields, next.value)
  {
  }

  lemma TextIsSaid(fields: seq<Field>, o: OrderDto)
    requires fields != [] && SaysTexts(fields[..|fields| - 1], o)
    ensures var next := DecodeField(o, fields[|fields| - 1]);
            next.Some? ==> SaysTexts(fields, next.value)
  {
  }

  lemma OptionIsSaid(fields: seq<Field>, o: OrderDto)
    requires fields != [] && SaysOptions(fields[..|fields| - 1], o)
    ensures var next := DecodeField(o, fields[|fields| - 1]);
            next.Some? ==> SaysOptions(fields, next.value)
  {
  }

  /**
   Decoding without the loop: it succeeds exactly when every value fits its key, and then the
   last value of each key is the one that counts. A key that is not of an order is skipped.
   */
  lemma {:induction false} DecodedExactly(fields: seq<Field>)
    ensures DecodeAll(EMPTY, fields).Some? <==> forall i :: 0 <= i < |fields| ==> Fits(fields[i])
    ensures DecodeAll(EMPTY, fields).Some? ==> Says(fields, DecodeAll(EMPTY, fields).value)
  {
    if fields != [] {
      var n := |fields| - 1;
      DecodedExactly(fields[..n]);
      OneMoreField(EMPTY, fields);
      if DecodeAll(EMPTY, fields[..n]).Some? {
        var o := DecodeAll(EMPTY, fields[..n]).value;
        FieldFits(o, fields[n]);
        IdIsSaid(fields, o);
        TextIsSaid(fields, o);
        OptionIsSaid(fields, o);
      } else {
        var i :| 0 <= i < n && !Fits(fields[..n][i]);
        assert !Fits(fields[i]);
      }
    }
  }

  function Report(fields: seq<Field>, name: string): seq<string> {
    if HasKey(fields, name) then [] else [name]
  }

  lemma RequiredIsReported(fields: seq<Field>, k: nat, name: string)
    requires Required(k) && FieldName(k) == name
    ensures Absent(fields, k) == Report(fields, name) + Absent(fields, k + 1)
  {
  }

  lemma OptionalIsNot(fields: seq<Field>)
    ensures Absent(fields, 4) == Absent(fields, 6) && Absent(fields, 7) == []
  {
    assert Absent(fields, 4) == Absent(fields, 5) == Absent(fields, 6);
  }

  lemma Regrouped<T>(a: seq<T>, b: seq<T>, c: seq<T>, d: seq<T>, e: seq<T>)
    ensures a + (b + (c + (d + (e + [])))) == a + b + c + d + e
  {
  }

  /** The required names that are reported: those that no key of the object has, in this order. */
  lemma AbsentExactly(fields: seq<Field>)
    ensures Absent(fields, 0)
         == Report(fields, "order_uuid") + Report(fields, "user_uuid") + Report(fields, "part_uuids")
            + Report(fields, "total_price") + Report(fields, "status")
  {
    RequiredIsReported(fields, 0, "order_uuid");
    RequiredIsReported(fields, 1, "user_uuid");
    RequiredIsReported(fields, 2, "part_uuids");
    RequiredIsReported(fields, 3, "total_price");
    OptionalIsNot(fields);
    RequiredIsReported(fields, 6, "status");
    Regrouped(Report(fields, "order_uuid"), Report(fields, "user_uuid"), Report(fields, "part_uuids"),
              Report(fields, "total_price"), Report(fields, "status"));
  }

  // ----- Round trip -----

  /** A null option holds its zero value. */
  predicate Normal(o: OrderDto) {
    && (!o.tx.isSet ==> o.tx == OptNil(NIL, false, false))
    && (!o.pm.isSet ==> o.pm == OptNil("", false, false))
    && (o.tx.isNull ==> o.tx.value == NIL)
    && (o.pm.isNull ==> o.pm.value == "")
  }

  lemma DecodeTx(o: OrderDto, tx: OptNil<Uuid>)
    requires o.tx == EMPTY.tx && (!tx.isSet ==> tx == EMPTY.tx) && (tx.isNull ==> tx.value == NIL)
    ensures DecodeAll(o, EncodeTx(tx)) == Some(o.(tx := tx))
  {
    if tx.isSet {
      DecodeOne(o, EncodeTx(tx)[0]);
    }
  }

  lemma DecodePm(o: OrderDto, pm: OptNil<string>)
    requires o.pm == EMPTY.pm && (!pm.isSet ==> pm == EMPTY.pm) && (pm.isNull ==> pm.value == "")
    ensures DecodeAll(o, EncodePm(pm)) == Some(o.(pm := pm))
  {
    if pm.isSet {
      DecodeOne(o, EncodePm(pm)[0]);
    }
  }

  function Head(o: OrderDto): seq<Field> {
    [("order_uuid", UuidToken(o.order)), ("user_uuid", UuidToken(o.user)), ("part_uuids", UuidsToken(o.parts)),
     ("total_price", StrToken(o.total))]
  }

  lemma DecodeHead(o: OrderDto)
    ensures DecodeAll(EMPTY, Head(o))
         == Some(EMPTY.(order := o.order, user := o.user, parts := o.parts, total := o.total))
  {
    var h := Head(o);
    var o1 := EMPTY.(order := o.order);
    var o2 := o1.(user := o.user);
    var o3 := o2.(parts := o.parts);
    assert h[1..][1..] == h[2..] && h[2..][1..] == h[3..] && h[3..][1..] == [];
    assert DecodeAll(o3, h[3..]) == Some(o3.(total := o.total));
    assert DecodeAll(o2, h[2..]) == DecodeAll(o3, h[3..]);
    assert DecodeAll(o1, h[1..]) == DecodeAll(o2, h[2..]);
  }

  /** Decoding what was encoded gives back exactly the orders whose null and absent options hold zero values. */
  lemma EncodedOrderReadsBack(o: OrderDto)
    ensures DecodeAll(EMPTY, EncodeFields(o)) == Some(o) <==> Normal(o)
    ensures Absent(EncodeFields(o), 0) == []
  {
    var head, tail := Head(o), EncodePm(o.pm) + [("status", StrToken(o.status))];
    assert EncodeFields(o) == head + (EncodeTx(o.tx) + tail);
    DecodeHead(o);
    var o4 := EMPTY.(order := o.order, user := o.user, parts := o.parts, total := o.total);
    DecodeConcat(EMPTY, head, EncodeTx(o.tx) + tail);
    DecodeConcat(o4, EncodeTx(o.tx), tail);
    if Normal(o) {
      DecodeTx(o4, o.tx);
      var o5 := o4.(tx := o.tx);
      DecodeConcat(o5, EncodePm(o.pm), [("status", StrToken(o.status))]);
      DecodePm(o5, o.pm);
      DecodeOne(o5.(pm := o.pm), ("status", StrToken(o.status)));
    }
    if DecodeAll(EMPTY, EncodeFields(o)) == Some(o) {
      DecodedIsNormal(EMPTY, EncodeFields(o));
    }
    EncodedHasRequired(o);
  }

  lemma {:induction false} DecodedIsNormal(o: OrderDto, fields: seq<Field>)
    requires Normal(o) && DecodeAll(o, fields).Some?
    ensures Normal(DecodeAll(o, fields).value)
    decreases |fields|
  {
    if fields != [] {
      DecodedIsNormal(DecodeField(o, fields[0]).value, fields[1..]);
    }
  }

  /** The keys that are written, in this order; an option is left out exactly when it is not set. */
  lemma EncodedKeys(o: OrderDto)
    ensures KeysOf(EncodeFields(o))
         == ["order_uuid", "user_uuid", "part_uuids", "total_price"]
            + (if o.tx.isSet then ["transaction_uuid"] else [])
            + (if o.pm.isSet then ["payment_method"] else []) + ["status"]
    ensures o.tx.isSet && o.tx.isNull ==> ("transaction_uuid", NullToken) in EncodeFields(o)
    ensures o.pm.isSet && o.pm.isNull ==> ("payment_method", NullToken) in EncodeFields(o)
  {
  }

  function KeysOf(fields: seq<Field>): (keys: seq<string>)
    ensures |keys| == |fields| && forall i :: 0 <= i < |keys| ==> keys[i] == fields[i].0
  {
    seq(|fields|, i requires 0 <= i < |fields| => fields[i].0)
  }

  lemma EncodedHasRequired(o: OrderDto)
    ensures Absent(EncodeFields(o), 0) == []
  {
    var f := EncodeFields(o);
    assert f[0].0 == "order_uuid" && f[1].0 == "user_uuid" && f[2].0 == "part_uuids" && f[3].0 == "total_price";
    assert f[|f| - 1].0 == "status";
    assert Absent(f, 4) == Absent(f, 5) == Absent(f, 6) == Absent(f, 7);
    assert Absent(f, 0) == Absent(f, 1) == Absent(f, 2) == Absent(f, 3) == Absent(f, 4);
  }

  /** What the error lists: a name is in it exactly when its field is required and absent. */
  lemma {:induction false} AbsentMeaning(fields: seq<Field>, k: nat, name: string)
    ensures name in Absent(fields, k)
       <==> exists i: nat :: i >= k && Required(i) && name == FieldName(i) && !HasKey(fields, name)
    decreases 7 - k
  {
    if k < 7 {
      AbsentMeaning(fields, k + 1, name);
    }
  }
}
