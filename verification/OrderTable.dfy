/**
 The `orders` table and the repository in front of it. The functions say what each statement
 does to the table; the class at the end builds the statements step by step.
 */
module OrderTable {
  import opened Prelude
  import opened Ids
  import opened Payments

  /** `Unset` is Go's empty status string, which no stored row carries. */
  datatype Status = Unset | PendingPayment | Paid | Completed | Cancelled

  datatype Order = Order(
    id: Uuid,
    user: Uuid,
    parts: seq<Uuid>,
    total: Int64,
    tx: Option<Uuid>,
    pm: Option<PaymentMethod>,
    status: Status)

  datatype OrderError =
    | Validation
    | OrderNotFound
    | Conflict
    | UnknownStatus
    | BadGateway
    | PartNotFound
    | PartsOutOfStock(ids: seq<string>)
    | EmptyId
    | PaidNeedsPayment
    | CheckViolation
    | DatabaseDown
    | TransactionUnreadable
    | SendFailed

  /** How a database call goes: it works, it fails without effect, or its effect lands but the caller sees an error. */
  datatype DbFault = Healthy | FailsBefore | FailsAfter

  /** One row written by an UPDATE, before and after. */
  datatype Landing = Landing(id: Uuid, before: Order, after: Order)

  /** The rows by primary key, and the history of UPDATEs that reached a row. */
  datatype Table = Table(rows: map<Uuid, Order>, landed: seq<Landing>)

  /** The table's CHECK constraints. */
  predicate Checks(row: Order) {
    && row.total >= 0
    && (row.status == Paid ==> row.tx.Some? && row.pm.Some?)
  }

  /** `Update`'s own guards, which run before any SQL. */
  function Guard(upd: Order): Option<OrderError> {
    if upd.id == NIL then Some(EmptyId)
    else if upd.status == Paid && (upd.tx.None? || upd.pm.None?) then Some(PaidNeedsPayment)
    else None
  }

  /** A patch: a field left at its zero value keeps the stored one. */
  function Patch(row: Order, upd: Order): Order {
    row.(
      parts := if upd.parts != [] then upd.parts else row.parts,
      total := if upd.total != 0 then upd.total else row.total,
      tx := if upd.tx.Some? then upd.tx else row.tx,
      pm := if upd.pm.Some? then upd.pm else row.pm,
      status := if upd.status != Unset then upd.status else row.status)
  }

  predicate PatchesNothing(upd: Order) {
    upd.parts == [] && upd.total == 0 && upd.tx.None? && upd.pm.None? && upd.status == Unset
  }

  /** The table after `Update`, and the error the caller sees. */
  function AfterUpdate(t: Table, upd: Order, fault: DbFault): (Table, Option<OrderError>) {
    if Guard(upd).Some? then (t, Guard(upd))
    else if PatchesNothing(upd) then (t, None)
    else if fault == FailsBefore then (t, Some(DatabaseDown))
    else if upd.id !in t.rows then
      (t, Some(if fault == FailsAfter then DatabaseDown else OrderNotFound))
    else
      var row := Patch(t.rows[upd.id], upd);
      if !Checks(row) then (t, Some(CheckViolation))
      else
        (Table(t.rows[upd.id := row], t.landed + [Landing(upd.id, t.rows[upd.id], row)]),
         if fault == FailsAfter then Some(DatabaseDown) else None)
  }

  /** The table after `Create`, which lets the database choose the id, and the error the caller sees. */
  function AfterInsert(t: Table, newId: Uuid, ord: Order, fault: DbFault): (Table, Option<OrderError>) {
    var row := ord.(id := newId);
    if fault == FailsBefore then (t, Some(DatabaseDown))
    else if !Checks(row) then (t, Some(CheckViolation))
    else (t.(rows := t.rows[newId := row]), if fault == FailsAfter then Some(DatabaseDown) else None)
  }

  function ById(t: Table, id: Uuid, fails: bool): Result<Order, OrderError> {
    if fails then Failure(DatabaseDown)
    else if id !in t.rows then Failure(OrderNotFound)
    else Success(t.rows[id])
  }

  /**
   Every outcome of `Update`. What the guards, the database and the constraints let through is
   written: each field is the given one, or the stored one where none is given, and id and user
   are the stored ones always. A write can land although its caller is told that the database failed.
   */
  lemma UpdateExactly(t: Table, upd: Order, fault: DbFault)
    ensures var (t', err) := AfterUpdate(t, upd, fault);
            var nothing := upd.parts == [] && upd.total == 0 && upd.tx == None && upd.pm == None
                           && upd.status == Unset;
            if upd.id == NIL then t' == t && err == Some(EmptyId)
            else if upd.status == Paid && (upd.tx == None || upd.pm == None) then
              t' == t && err == Some(PaidNeedsPayment)
            else if nothing then t' == t && err == None
            else if fault == FailsBefore then t' == t && err == Some(DatabaseDown)
            else if upd.id !in t.rows then
              t' == t && err == Some(if fault == Healthy then OrderNotFound else DatabaseDown)
            else
              var was := t.rows[upd.id];
              var row := Order(was.id, was.user,
                               if upd.parts == [] then was.parts else upd.parts,
                               if upd.total == 0 then was.total else upd.total,
                               if upd.tx == None then was.tx else upd.tx,
                               if upd.pm == None then was.pm else upd.pm,
                               if upd.status == Unset then was.status else upd.status);
              if row.total < 0 || (row.status == Paid && (row.tx == None || row.pm == None)) then
                t' == t && err == Some(CheckViolation)
              else
                && t'.rows == t.rows[upd.id := row]
                && t'.landed == t.landed + [Landing(upd.id, was, row)]
                && err == if fault == Healthy then None else Some(DatabaseDown)
  {
  }

  /** Every outcome of `Create`: the row is the given one under its new id. */
  lemma InsertExactly(t: Table, newId: Uuid, ord: Order, fault: DbFault)
    ensures var (t', err) := AfterInsert(t, newId, ord, fault);
            if fault == FailsBefore then t' == t && err == Some(DatabaseDown)
            else if ord.total < 0 || (ord.status == Paid && (ord.tx == None || ord.pm == None)) then
              t' == t && err == Some(CheckViolation)
            else
              && t'.rows == t.rows[newId := Order(newId, ord.user, ord.parts, ord.total, ord.tx, ord.pm, ord.status)]
              && t'.landed == t.landed
              && err == if fault == Healthy then None else Some(DatabaseDown)
  {
  }

  /**
   Reading after a successful `Update`: its order reads back with the fields it gave and the
   stored ones where it gave none, every other order as before; and an order that is reported
   as not found could not be read either.
   */
  lemma UpdatedOrderIsRead(t: Table, upd: Order, fault: DbFault, id: Uuid)
    ensures var (t', err) := AfterUpdate(t, upd, fault);
            && (id != upd.id ==> ById(t', id, false) == ById(t, id, false))
            && (err == None && !PatchesNothing(upd) ==>
                  && ById(t, upd.id, false).Success?
                  && ById(t', upd.id, false) == Success(Patch(ById(t, upd.id, false).value, upd)))
            && (err == Some(OrderNotFound) ==> ById(t, upd.id, false) == Failure(OrderNotFound))
  {
  }

  /** Reading after a successful `Create`: the new order reads back with its new id, every other as before. */
  lemma CreatedOrderIsRead(t: Table, newId: Uuid, ord: Order, fault: DbFault, id: Uuid)
    ensures var (t', err) := AfterInsert(t, newId, ord, fault);
            && (err == None ==> ById(t', newId, false) == Success(ord.(id := newId)))
            && (id != newId ==> ById(t', id, false) == ById(t, id, false))
  {
  }

  /** The columns `Update` may SET. */
  datatype Column = PartIds | TotalPrice | TransactionId | PaymentMethodColumn | StatusColumn

  /** The values bound to them. */
  datatype Cell =
    | Ids(ids: seq<Uuid>)
    | Cents(cents: Int64)
    | Id(id: Uuid)
    | Pm(pm: PaymentMethod)
    | StatusCell(status: Status)

  /** What `UPDATE orders SET ...` does to one row. */
  function Assign(row: Order, cells: map<Column, Cell>): Order {
    row.(
      parts := if PartIds in cells && cells[PartIds].Ids? then cells[PartIds].ids else row.parts,
      total := if TotalPrice in cells && cells[TotalPrice].Cents? then cells[TotalPrice].cents else row.total,
      tx := if TransactionId in cells && cells[TransactionId].Id? then Some(cells[TransactionId].id) else row.tx,
      pm := if PaymentMethodColumn in cells && cells[PaymentMethodColumn].Pm?
            then Some(cells[PaymentMethodColumn].pm) else row.pm,
      status := if StatusColumn in cells && cells[StatusColumn].StatusCell?
                then cells[StatusColumn].status else row.status)
  }

  /** The SET clause binds exactly the fields of the update that are not at their zero value. */
  predicate Binds(cells: map<Column, Cell>, upd: Order) {
    && (if upd.parts != [] then PartIds in cells && cells[PartIds] == Ids(upd.parts) else PartIds !in cells)
    && (if upd.total != 0 then TotalPrice in cells && cells[TotalPrice] == Cents(upd.total) else TotalPrice !in cells)
    && (if upd.tx.Some? then TransactionId in cells && cells[TransactionId] == Id(upd.tx.value)
        else TransactionId !in cells)
    && (if upd.pm.Some? then PaymentMethodColumn in cells && cells[PaymentMethodColumn] == Pm(upd.pm.value)
        else PaymentMethodColumn !in cells)
    && (if upd.status != Unset then StatusColumn in cells && cells[StatusColumn] == StatusCell(upd.status)
        else StatusColumn !in cells)
  }

  lemma BindingIsPatching(cells: map<Column, Cell>, upd: Order, row: Order)
    requires Binds(cells, upd)
    ensures Assign(row, cells) == Patch(row, upd)
    ensures PatchesNothing(upd) <==> |cells| == 0
  {
    if PatchesNothing(upd) {
      forall c: Column ensures c !in cells {
        match c
        case PartIds =>
        case TotalPrice =>
        case TransactionId =>
        case PaymentMethodColumn =>
        case StatusColumn =>
      }
      assert cells == map[];
    }
  }

  /** Collects the SET clause one field at a time. */
  method SetClause(upd: Order) returns (cells: map<Column, Cell>)
    ensures Binds(cells, upd)
  {
    cells := map[];
    if |upd.parts| > 0 {
      cells := cells[PartIds := Ids(upd.parts)];
    }
    if upd.total != 0 {
      cells := cells[TotalPrice := Cents(upd.total)];
    }
    if upd.tx.Some? {
      cells := cells[TransactionId := Id(upd.tx.value)];
    }
    if upd.pm.Some? {
      cells := cells[PaymentMethodColumn := Pm(upd.pm.value)];
    }
    if upd.status != Unset {
      cells := cells[StatusColumn := StatusCell(upd.status)];
    }
  }

  /** The repository, holding the rows it mutates. */
  class OrderRepository {
    var rows: map<Uuid, Order>
    ghost var landed: seq<Landing>

    constructor ()
      ensures Contents() == Table(map[], [])
    {
      rows, landed := map[], [];
    }

    ghost function Contents(): Table
      reads this
    {
      Table(rows, landed)
    }

    method Create(newId: Uuid, ord: Order, fault: DbFault) returns (res: Result<Uuid, OrderError>)
      requires newId !in rows
      modifies this
      ensures Contents() == AfterInsert(old(Contents()), newId, ord, fault).0
      ensures match AfterInsert(old(Contents()), newId, ord, fault).1
              case None => res == Success(newId)
              case Some(e) => res == Failure(e)
    {
      if fault == FailsBefore {
        return Failure(DatabaseDown);
      }
      var row := ord.(id := newId);
      if !Checks(row) {
        return Failure(CheckViolation);
      }
      rows := rows[newId := row];
      res := if fault == FailsAfter then Failure(DatabaseDown) else Success(newId);
    }

    method OrderById(id: Uuid, fails: bool) returns (res: Result<Order, OrderError>)
      ensures res == ById(Contents(), id, fails)
    {
      if fails {
        return Failure(DatabaseDown);
      }
      if id !in rows {
        return Failure(OrderNotFound);
      }
      res := Success(rows[id]);
    }

    method Update(upd: Order, fault: DbFault) returns (err: Option<OrderError>)
      modifies this
      ensures (Contents(), err) == AfterUpdate(old(Contents()), upd, fault)
    {
      if upd.id == NIL {
        return Some(EmptyId);
      }
      if upd.status == Paid {
        if upd.tx.None? || upd.pm.None? {
          return Some(PaidNeedsPayment);
        }
      }

      var cells := SetClause(upd);
      BindingIsPatching(cells, upd, if upd.id in rows then rows[upd.id] else upd);
      if |cells| == 0 {
        return None;
      }

      if fault == FailsBefore {
        return Some(DatabaseDown);
      }
      if upd.id !in rows {
        return Some(if fault == FailsAfter then DatabaseDown else OrderNotFound);
      }
      var row := Assign(rows[upd.id], cells);
      if !Checks(row) {
        return Some(CheckViolation);
      }
      landed := landed + [Landing(upd.id, rows[upd.id], row)];
      rows := rows[upd.id := row];
      err := if fault == FailsAfter then Some(DatabaseDown) else None;
    }
  }
}
