/**
 * The Postgres `payments` table of database.py: one row per payment id
 * (the primary key), written with INSERT ... ON CONFLICT (payment_id) DO
 * NOTHING, read back by id. The rows are the field `rows` of a PaymentsDb,
 * and `poolReady` says whether setup_db has created the connection pool.
 */
module PaymentRecords {
  import opened Wrappers

  datatype Payment = Payment(userId: int, paymentId: string, amount: int, currency: string)

  /** The columns get_payment_details selects. */
  datatype Details = Details(userId: int, amount: int, currency: string)

  /** user_id is BIGINT, amount INTEGER: asyncpg refuses arguments outside those ranges. */
  const BIGINT_MIN: int := -0x8000_0000_0000_0000
  const BIGINT_MAX: int := 0x7FFF_FFFF_FFFF_FFFF
  const INTEGER_MIN: int := -0x8000_0000
  const INTEGER_MAX: int := 0x7FFF_FFFF

  predicate InColumnRanges(p: Payment) {
    BIGINT_MIN <= p.userId <= BIGINT_MAX && INTEGER_MIN <= p.amount <= INTEGER_MAX
  }

  /** The primary key: no two rows share a payment id. */
  ghost predicate UniqueIds(rows: seq<Payment>) {
    forall i, j :: 0 <= i < j < |rows| ==> rows[i].paymentId != rows[j].paymentId
  }

  /** The row with payment id `id` (the first one, should there be several). */
  function Find(rows: seq<Payment>, id: string): (r: Option<Payment>)
    ensures r.Some? ==> r.value in rows && r.value.paymentId == id
    ensures r.None? <==> forall i :: 0 <= i < |rows| ==> rows[i].paymentId != id
  {
    if rows == [] then None
    else if rows[0].paymentId == id then Some(rows[0])
    else Find(rows[1..], id)
  }

  /** The table after the insert-or-ignore of `p`. */
  function InsertOrIgnore(rows: seq<Payment>, p: Payment): seq<Payment> {
    if Find(rows, p.paymentId).Some? then rows else rows + [p]
  }

  lemma {:induction false} FindInPrefix(rows: seq<Payment>, extra: seq<Payment>, id: string)
    requires Find(rows, id).Some?
    ensures Find(rows + extra, id) == Find(rows, id)
  {
    if rows[0].paymentId != id {
      assert (rows + extra)[1..] == rows[1..] + extra;
      FindInPrefix(rows[1..], extra, id);
    }
  }

  lemma {:induction false} FindPastPrefix(rows: seq<Payment>, extra: seq<Payment>, id: string)
    requires Find(rows, id).None?
    ensures Find(rows + extra, id) == Find(extra, id)
  {
    if rows == [] {
      assert rows + extra == extra;
    } else {
      assert rows[0].paymentId != id;
      assert (rows + extra)[1..] == rows[1..] + extra;
      FindPastPrefix(rows[1..], extra, id);
    }
  }

  /**
   * A new payment id adds exactly that one row at the end; a known one
   * leaves the table as it was. Either way ids stay unique.
   */
  lemma InsertOrIgnoreEffect(rows: seq<Payment>, p: Payment)
    requires UniqueIds(rows)
    ensures Find(rows, p.paymentId).None? ==> InsertOrIgnore(rows, p) == rows + [p]
    ensures Find(rows, p.paymentId).Some? ==> InsertOrIgnore(rows, p) == rows
    ensures UniqueIds(InsertOrIgnore(rows, p))
  {
  }

  /** Saving again with the same id, whatever the other values, changes nothing. */
  lemma InsertOrIgnoreIdempotent(rows: seq<Payment>, p: Payment, q: Payment)
    requires q.paymentId == p.paymentId
    ensures InsertOrIgnore(InsertOrIgnore(rows, p), q) == InsertOrIgnore(rows, p)
  {
    if Find(rows, p.paymentId).None? {
      FindPastPrefix(rows, [p], p.paymentId);
    }
  }

  /** First save wins: after saving p, a lookup of p's id gives p's values, or those of the row that was there. */
  lemma FirstSaveWins(rows: seq<Payment>, p: Payment, later: seq<Payment>)
    ensures var first := if Find(rows, p.paymentId).Some? then Find(rows, p.paymentId).value else p;
      Find(SaveAll(InsertOrIgnore(rows, p), later), p.paymentId) == Some(first)
  {
    var t := InsertOrIgnore(rows, p);
    if Find(rows, p.paymentId).None? {
      FindPastPrefix(rows, [p], p.paymentId);
    }
    SaveAllKeepsFound(t, later, p.paymentId);
  }

  /** The table after a run of saves, in order. */
  function SaveAll(rows: seq<Payment>, saves: seq<Payment>): seq<Payment>
    decreases saves
  {
    if saves == [] then rows else SaveAll(InsertOrIgnore(rows, saves[0]), saves[1..])
  }

  lemma {:induction false} SaveAllKeepsFound(rows: seq<Payment>, saves: seq<Payment>, id: string)
    requires Find(rows, id).Some?
    ensures Find(SaveAll(rows, saves), id) == Find(rows, id)
    decreases saves
  {
    if saves != [] {
      var t := InsertOrIgnore(rows, saves[0]);
      if Find(rows, saves[0].paymentId).None? {
        FindInPrefix(rows, [saves[0]], id);
      }
      SaveAllKeepsFound(t, saves[1..], id);
    }
  }

  /** At most one row per payment id, whatever the sequence of saves. */
  lemma {:induction false} SaveAllKeepsUnique(rows: seq<Payment>, saves: seq<Payment>)
    requires UniqueIds(rows)
    ensures UniqueIds(SaveAll(rows, saves))
    decreases saves
  {
    if saves != [] {
      InsertOrIgnoreEffect(rows, saves[0]);
      SaveAllKeepsUnique(InsertOrIgnore(rows, saves[0]), saves[1..]);
    }
  }

  datatype SaveOutcome = PoolNotReady | ArgumentOutOfRange | Inserted | Ignored

  function DetailsOf(p: Payment): Details {
    Details(p.userId, p.amount, p.currency)
  }

  class PaymentsDb {
    var poolReady: bool
    var rows: seq<Payment>

    ghost predicate Valid()
      reads this
    {
      UniqueIds(rows)
    }

    /** Module load: `pool = None`, and an empty table. */
    constructor ()
      ensures Valid() && !poolReady && rows == []
    {
      poolReady := false;
      rows := [];
    }

    /** setup_db: without DATABASE_URL it returns early; otherwise the pool is created. */
    method SetupDb(databaseUrlSet: bool)
      modifies this
      ensures rows == old(rows)
      ensures poolReady == (old(poolReady) || databaseUrlSet)
    {
      if !databaseUrlSet {
        return;
      }
      poolReady := true;
    }

    /** save_payment */
    method SavePayment(userId: int, paymentId: string, amount: int, currency: string) returns (outcome: SaveOutcome)
      requires Valid()
      modifies this
      ensures Valid() && poolReady == old(poolReady)
      ensures var p := Payment(userId, paymentId, amount, currency);
        && (outcome == Inserted <==> old(poolReady) && InColumnRanges(p) && Find(old(rows), paymentId).None?)
        && (outcome == Inserted ==> rows == old(rows) + [p])
        && (outcome != Inserted ==> rows == old(rows))
        && (outcome == PoolNotReady <==> !old(poolReady))
        && (outcome == ArgumentOutOfRange <==> old(poolReady) && !InColumnRanges(p))
        && (outcome == Ignored <==> old(poolReady) && InColumnRanges(p) && Find(old(rows), paymentId).Some?)
        && rows == (if old(poolReady) && InColumnRanges(p) then InsertOrIgnore(old(rows), p) else old(rows))
    {
      if !poolReady {
        return PoolNotReady;
      }
      var p := Payment(userId, paymentId, amount, currency);
      if !InColumnRanges(p) {
        return ArgumentOutOfRange;
      }
      InsertOrIgnoreEffect(rows, p);
      if Find(rows, paymentId).Some? {
        outcome := Ignored;
      } else {
        rows := rows + [p];
        outcome := Inserted;
      }
    }

    /** get_payment_details: the stored user id, amount and currency, or None. */
    method GetPaymentDetails(paymentId: string) returns (details: Option<Details>)
      ensures !poolReady ==> details == None
      ensures poolReady ==> (details.None? <==> Find(rows, paymentId).None?)
      ensures poolReady && details.Some? ==> details.value == DetailsOf(Find(rows, paymentId).value)
    {
      if !poolReady {
        return None;
      }
      var row := Find(rows, paymentId);
      if row.None? {
        details := None;
      } else {
        details := Some(DetailsOf(row.value));
      }
    }
  }
}
