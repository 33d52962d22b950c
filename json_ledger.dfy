/**
 * The file-backed ledger of server.js: one JSON object mapping each user id
 * to that user's aggregate {totalSpent, orderCount, rank}. The update route
 * and the payment handler read the whole object, change it and write it
 * back (GET only reads); here the file is the
 * field `db` of a JsonStore.
 */
module JsonLedger {
  import opened Wrappers
  import opened Ranks
  import opened Invoices

  datatype Aggregate = Aggregate(totalSpent: int, orderCount: int, rank: string)

  type Db = map<UserId, Aggregate>

  /** The stored rank is the one getRank derives from the stored total. */
  predicate Consistent(a: Aggregate) {
    a.rank == GetRank(a.totalSpent)
  }

  ghost predicate AllConsistent(db: Db) {
    forall u :: u in db ==> Consistent(db[u])
  }

  /** What GET returns for a user the file does not hold. */
  const DEFAULT_USER := Aggregate(0, 0, NEW_VISITOR)

  /** GET /api/user/:userId: the stored aggregate, or the zero aggregate when absent. */
  function Lookup(db: Db, userId: UserId): (a: Aggregate)
    ensures userId in db ==> a == db[userId]
    ensures userId !in db ==> a.totalSpent == 0 && a.orderCount == 0 && Consistent(a)
  {
    FirstPromotion();
    if userId in db then db[userId] else DEFAULT_USER
  }

  /** The aggregate successful_payment stores: the old numbers (0 and 0 when absent) plus one order. */
  function Credited(db: Db, userId: UserId, amount: int): Aggregate {
    var total := (if userId in db then db[userId].totalSpent else 0) + amount;
    var count := (if userId in db then db[userId].orderCount else 0) + 1;
    Aggregate(total, count, GetRank(total))
  }

  /** The file after successful_payment has handled a payload for `userId`. */
  function ApplyPayment(db: Db, userId: UserId, amount: int): Db {
    db[userId := Credited(db, userId, amount)]
  }

  /** The file after POST /api/user/:userId/update. */
  function ApplyUpdate(db: Db, userId: UserId, totalSpent: int, orderCount: int): Db {
    db[userId := Aggregate(totalSpent, orderCount, GetRank(totalSpent))]
  }

  /**
   * A payment adds the amount and one order to the user's aggregate (counting
   * from zero for a new user), stores the derived rank, and touches no other user.
   */
  lemma PaymentEffect(db: Db, userId: UserId, amount: int)
    ensures var db' := ApplyPayment(db, userId, amount);
      && db'.Keys == db.Keys + {userId}
      && db'[userId].totalSpent == Lookup(db, userId).totalSpent + amount
      && db'[userId].orderCount == Lookup(db, userId).orderCount + 1
      && Consistent(db'[userId])
      && (forall u :: u in db && u != userId ==> db'[u] == db[u])
  {
  }

  /** The update route stores exactly the supplied numbers and the rank of the total, and nothing else. */
  lemma UpdateEffect(db: Db, userId: UserId, totalSpent: int, orderCount: int)
    ensures var db' := ApplyUpdate(db, userId, totalSpent, orderCount);
      && db'.Keys == db.Keys + {userId}
      && db'[userId].totalSpent == totalSpent
      && db'[userId].orderCount == orderCount
      && Consistent(db'[userId])
      && (forall u :: u in db && u != userId ==> db'[u] == db[u])
  {
  }

  /** Both writes keep every stored rank equal to getRank of the stored total. */
  lemma WritesKeepConsistency(db: Db, userId: UserId, amount: int, totalSpent: int, orderCount: int)
    requires AllConsistent(db)
    ensures AllConsistent(ApplyPayment(db, userId, amount))
    ensures AllConsistent(ApplyUpdate(db, userId, totalSpent, orderCount))
  {
  }

  /**
   * There is no duplicate suppression: handling the same confirmation twice
   * counts two orders and adds the amount twice.
   */
  lemma RedeliveryAppliedTwice(db: Db, userId: UserId, amount: int)
    ensures var twice := ApplyPayment(ApplyPayment(db, userId, amount), userId, amount);
      && twice[userId].totalSpent == Lookup(db, userId).totalSpent + 2 * amount
      && twice[userId].orderCount == Lookup(db, userId).orderCount + 2
      && twice != ApplyPayment(db, userId, amount)
  {
    var once := ApplyPayment(db, userId, amount);
    assert once[userId].orderCount == Lookup(db, userId).orderCount + 1;
  }

  /** Payments commute: the order of arrival does not change the resulting file. */
  lemma PaymentsCommute(db: Db, u: UserId, a: int, v: UserId, b: int)
    ensures ApplyPayment(ApplyPayment(db, u, a), v, b) == ApplyPayment(ApplyPayment(db, v, b), u, a)
  {
    if u == v {
      assert Lookup(db, u).totalSpent + a + b == Lookup(db, u).totalSpent + b + a;
    }
  }

  function Sum(amounts: seq<int>): int {
    if amounts == [] then 0 else Sum(amounts[..|amounts| - 1]) + amounts[|amounts| - 1]
  }

  /** The file after a run of confirmations for one user, in arrival order. */
  function ApplyPayments(db: Db, userId: UserId, amounts: seq<int>): Db {
    if amounts == [] then db
    else ApplyPayment(ApplyPayments(db, userId, amounts[..|amounts| - 1]), userId, amounts[|amounts| - 1])
  }

  /**
   * Additivity: after N confirmations the user's total has grown by their sum
   * and the order count by N, the rank matches the total, and other users are untouched.
   */
  lemma {:induction false} PaymentsAdd(db: Db, userId: UserId, amounts: seq<int>)
    requires |amounts| > 0
    ensures var db' := ApplyPayments(db, userId, amounts);
      && userId in db'
      && db'[userId].totalSpent == Lookup(db, userId).totalSpent + Sum(amounts)
      && db'[userId].orderCount == Lookup(db, userId).orderCount + |amounts|
      && Consistent(db'[userId])
      && (forall u :: u in db && u != userId ==> u in db' && db'[u] == db[u])
  {
    var init, last := amounts[..|amounts| - 1], amounts[|amounts| - 1];
    var prev := ApplyPayments(db, userId, init);
    assert ApplyPayments(db, userId, amounts) == ApplyPayment(prev, userId, last);
    PaymentEffect(prev, userId, last);
    if init == [] {
      assert prev == db;
      assert Sum(amounts) == last;
    } else {
      PaymentsAdd(db, userId, init);
      assert Sum(amounts) == Sum(init) + last;
      assert Lookup(prev, userId) == prev[userId];
    }
  }

  /**
   * A concrete scenario: a new user paying 9999 stays a new visitor, and
   * one more star reaches the first promotion at 10000.
   */
  lemma NewUserScenario(db: Db, userId: UserId)
    requires userId !in db
    ensures var db1 := ApplyPayment(db, userId, 9999);
      && db1[userId] == Aggregate(9999, 1, NEW_VISITOR)
      && ApplyPayment(db1, userId, 1)[userId] == Aggregate(10000, 2, BEGINNER)
  {
    FirstPromotion();
  }

  /** The JSON file as one server process sees it. */
  class JsonStore {
    var db: Db

    /** initializeDatabase: a missing file starts as the empty object. */
    constructor ()
      ensures db == map[]
    {
      db := map[];
    }

    /** GET /api/user/:userId: a read that never writes. */
    method GetUser(userId: UserId) returns (user: Aggregate)
      ensures user == Lookup(db, userId)
    {
      var snapshot := db;
      if userId in snapshot {
        user := snapshot[userId];
      } else {
        user := DEFAULT_USER;
      }
    }

    /** POST /api/user/:userId/update: absolute totals, rank recomputed. */
    method UpdateUser(userId: UserId, totalSpent: int, orderCount: int) returns (user: Aggregate)
      modifies this
      ensures db == ApplyUpdate(old(db), userId, totalSpent, orderCount)
      ensures user == db[userId] && Consistent(user)
      ensures old(AllConsistent(db)) ==> AllConsistent(db)
    {
      var snapshot := db;
      var rank := GetRank(totalSpent);
      snapshot := snapshot[userId := Aggregate(totalSpent, orderCount, rank)];
      db := snapshot;
      user := db[userId];
    }

    /**
     * The successful_payment handler: parse the payload, read-modify-write the
     * user's aggregate, then thank the user. Every delivery is applied.
     */
    method OnSuccessfulPayment(msg: PaymentMessage, thanksFails: bool) returns (sent: seq<Notice>)
      modifies this
      ensures msg.payload.None? ==> db == old(db)
      ensures msg.payload.Some? ==>
        db == ApplyPayment(old(db), msg.payload.value.userId, msg.payload.value.amount)
      ensures sent == PaymentNotices(msg, thanksFails)
      ensures old(AllConsistent(db)) ==> AllConsistent(db)
    {
      match msg.payload {
        case None =>
          sent := [Notice(msg.fromId, PaymentFailed)];
        case Some(p) =>
          var snapshot := db;
          var totalSpent, orderCount := 0, 0;
          if p.userId in snapshot {
            totalSpent, orderCount := snapshot[p.userId].totalSpent, snapshot[p.userId].orderCount;
          }
          totalSpent := totalSpent + p.amount;
          orderCount := orderCount + 1;
          var rank := GetRank(totalSpent);
          snapshot := snapshot[p.userId := Aggregate(totalSpent, orderCount, rank)];
          db := snapshot;
          sent := [Notice(p.userId, Thanks)];
          if thanksFails {
            sent := sent + [Notice(msg.fromId, PaymentFailed)];
          }
      }
    }
  }
}
