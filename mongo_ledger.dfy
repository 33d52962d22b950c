/**
 * The document-store ledger of Node.js: a Mongoose collection of user
 * documents keyed by `_id`, here the field `docs` of a UserCollection. A query
 * hands back a copy of the stored document; `save()` writes a copy back.
 */
module MongoLedger {
  import opened Wrappers
  import opened Ranks
  import opened Invoices
  import JsonLedger

  datatype UserDoc = UserDoc(id: UserId, totalSpent: int, orderCount: int, rank: string)

  type Collection = map<UserId, UserDoc>

  /** Every document is stored under its own `_id`. */
  ghost predicate WellKeyed(docs: Collection) {
    forall u :: u in docs ==> docs[u].id == u
  }

  predicate Consistent(d: UserDoc) {
    d.rank == GetRank(d.totalSpent)
  }

  ghost predicate AllConsistent(docs: Collection) {
    forall u :: u in docs ==> Consistent(docs[u])
  }

  /** The document findOrCreateUser creates for an unseen id. */
  function NewUser(userId: UserId): (d: UserDoc)
    ensures d.id == userId && d.totalSpent == 0 && d.orderCount == 0 && Consistent(d)
  {
    FirstPromotion();
    UserDoc(userId, 0, 0, NEW_VISITOR)
  }

  datatype Found = Found(docs: Collection, user: UserDoc)

  /** findOrCreateUser: the stored document, or a new zero document that is also stored. */
  function FindOrCreate(docs: Collection, userId: UserId): Found {
    if userId in docs then Found(docs, docs[userId])
    else Found(docs[userId := NewUser(userId)], NewUser(userId))
  }

  /** The collection after successful_payment for `userId`. */
  function ApplyPayment(docs: Collection, userId: UserId, amount: int): Collection {
    var f := FindOrCreate(docs, userId);
    var total := f.user.totalSpent + amount;
    f.docs[userId := f.user.(totalSpent := total, orderCount := f.user.orderCount + 1, rank := GetRank(total))]
  }

  /** The collection after findByIdAndUpdate(..., {upsert: true}) on the update route. */
  function Upsert(docs: Collection, userId: UserId, totalSpent: int, orderCount: int): Collection {
    docs[userId := UserDoc(userId, totalSpent, orderCount, GetRank(totalSpent))]
  }

  /**
   * findOrCreateUser returns an existing document and changes nothing;
   * otherwise it stores and returns the zero document, leaving the rest alone.
   */
  lemma FindOrCreateEffect(docs: Collection, userId: UserId)
    requires WellKeyed(docs)
    ensures var f := FindOrCreate(docs, userId);
      && f.docs.Keys == docs.Keys + {userId}
      && f.docs[userId] == f.user && f.user.id == userId
      && (userId in docs ==> f.docs == docs && f.user == docs[userId])
      && (userId !in docs ==> f.user == NewUser(userId))
      && (forall u :: u in docs ==> f.docs[u] == docs[u])
      && WellKeyed(f.docs)
  {
  }

  /** A second findOrCreateUser for the same id creates nothing and returns the same document. */
  lemma FindOrCreateIdempotent(docs: Collection, userId: UserId)
    ensures var f := FindOrCreate(docs, userId);
      FindOrCreate(f.docs, userId) == f
  {
  }

  /** The update is an upsert: the supplied numbers, the derived rank, no other document touched. */
  lemma UpsertEffect(docs: Collection, userId: UserId, totalSpent: int, orderCount: int)
    requires WellKeyed(docs)
    ensures var d := Upsert(docs, userId, totalSpent, orderCount);
      && d.Keys == docs.Keys + {userId}
      && d[userId].totalSpent == totalSpent && d[userId].orderCount == orderCount
      && Consistent(d[userId])
      && (forall u :: u in docs && u != userId ==> d[u] == docs[u])
      && WellKeyed(d)
  {
  }

  /** A payment adds the amount and one order, recomputes the rank, and touches no one else. */
  lemma PaymentEffect(docs: Collection, userId: UserId, amount: int)
    requires WellKeyed(docs)
    ensures var d := ApplyPayment(docs, userId, amount);
      && d.Keys == docs.Keys + {userId}
      && d[userId].totalSpent == FindOrCreate(docs, userId).user.totalSpent + amount
      && d[userId].orderCount == FindOrCreate(docs, userId).user.orderCount + 1
      && Consistent(d[userId])
      && (forall u :: u in docs && u != userId ==> d[u] == docs[u])
      && WellKeyed(d)
  {
  }

  /** Every write keeps every stored rank equal to getRank of the stored total. */
  lemma WritesKeepConsistency(docs: Collection, userId: UserId, amount: int, totalSpent: int, orderCount: int)
    requires AllConsistent(docs)
    ensures AllConsistent(FindOrCreate(docs, userId).docs)
    ensures AllConsistent(ApplyPayment(docs, userId, amount))
    ensures AllConsistent(Upsert(docs, userId, totalSpent, orderCount))
  {
  }

  /** As in server.js, a redelivered confirmation is counted again. */
  lemma RedeliveryAppliedTwice(docs: Collection, userId: UserId, amount: int)
    ensures var twice := ApplyPayment(ApplyPayment(docs, userId, amount), userId, amount);
      && twice[userId].totalSpent == FindOrCreate(docs, userId).user.totalSpent + 2 * amount
      && twice[userId].orderCount == FindOrCreate(docs, userId).user.orderCount + 2
  {
  }

  /** What GET returns: the three numbers a client sees. */
  function View(d: UserDoc): JsonLedger.Aggregate {
    JsonLedger.Aggregate(d.totalSpent, d.orderCount, d.rank)
  }

  /** The two backends show the same aggregate for `userId` (server.js by its default, Node.js by creating). */
  ghost predicate Agree(db: JsonLedger.Db, docs: Collection, userId: UserId) {
    JsonLedger.Lookup(db, userId) == View(FindOrCreate(docs, userId).user)
  }

  /**
   * Starting from empty stores, the two backends agree on every user, and a
   * payment or an update applied to both keeps them agreeing on every user.
   */
  lemma BackendsAgree(db: JsonLedger.Db, docs: Collection, u: UserId, v: UserId, amount: int, totalSpent: int, orderCount: int)
    requires Agree(db, docs, v)
    ensures Agree(map[], map[], v)
    ensures Agree(JsonLedger.ApplyPayment(db, u, amount), ApplyPayment(docs, u, amount), v)
    ensures Agree(JsonLedger.ApplyUpdate(db, u, totalSpent, orderCount), Upsert(docs, u, totalSpent, orderCount), v)
    ensures Agree(db, FindOrCreate(docs, u).docs, v)
  {
    if u == v {
      assert JsonLedger.Lookup(db, u).totalSpent == FindOrCreate(docs, u).user.totalSpent;
      assert JsonLedger.Lookup(db, u).orderCount == FindOrCreate(docs, u).user.orderCount;
    }
  }

  /** The Mongoose collection behind one Node.js process. */
  class UserCollection {
    var docs: Collection

    ghost predicate Valid()
      reads this
    {
      WellKeyed(docs)
    }

    constructor ()
      ensures Valid() && docs == map[]
    {
      docs := map[];
    }

    /** findOrCreateUser: User.findById, then User.create when nothing was found. */
    method FindOrCreateUser(userId: UserId) returns (user: UserDoc)
      requires Valid()
      modifies this
      ensures Valid()
      ensures Found(docs, user) == FindOrCreate(old(docs), userId)
      ensures user.id == userId
    {
      if userId in docs {
        user := docs[userId];
      } else {
        user := UserDoc(userId, 0, 0, NEW_VISITOR);
        docs := docs[userId := user];
      }
    }

    /** GET /api/user/:userId: unlike server.js, a first read creates the document. */
    method GetUser(userId: UserId) returns (user: UserDoc)
      requires Valid()
      modifies this
      ensures Valid()
      ensures Found(docs, user) == FindOrCreate(old(docs), userId)
      ensures userId !in old(docs) ==> docs.Keys == old(docs).Keys + {userId}
    {
      user := FindOrCreateUser(userId);
    }

    /** POST /api/user/:userId/update: an upsert with the recomputed rank. */
    method UpdateUser(userId: UserId, totalSpent: int, orderCount: int) returns (user: UserDoc)
      requires Valid()
      modifies this
      ensures Valid()
      ensures docs == Upsert(old(docs), userId, totalSpent, orderCount)
      ensures user == docs[userId] && Consistent(user)
    {
      var rank := GetRank(totalSpent);
      user := UserDoc(userId, totalSpent, orderCount, rank);
      docs := docs[userId := user];
    }

    /**
     * The successful_payment handler: parse the payload, fetch or create the
     * user, change the fetched copy field by field, save it, thank the user.
     */
    method OnSuccessfulPayment(msg: PaymentMessage, thanksFails: bool) returns (sent: seq<Notice>)
      requires Valid()
      modifies this
      ensures Valid()
      ensures msg.payload.None? ==> docs == old(docs)
      ensures msg.payload.Some? ==>
        docs == ApplyPayment(old(docs), msg.payload.value.userId, msg.payload.value.amount)
      ensures sent == PaymentNotices(msg, thanksFails)
    {
      match msg.payload {
        case None =>
          sent := [Notice(msg.fromId, PaymentFailed)];
        case Some(p) =>
          var user := FindOrCreateUser(p.userId);
          user := user.(totalSpent := user.totalSpent + p.amount);
          user := user.(orderCount := user.orderCount + 1);
          user := user.(rank := GetRank(user.totalSpent));
          docs := docs[user.id := user];
          sent := [Notice(p.userId, Thanks)];
          if thanksFails {
            sent := sent + [Notice(msg.fromId, PaymentFailed)];
          }
      }
    }
  }
}
