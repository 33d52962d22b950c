/**
 * The stars shop of bot.py: a `users` table (username, stars, last_purchase)
 * and a `pending_orders` table. /buy pays PRICE_STARS for LIKES_AMOUNT likes,
 * at most once per cooldown; the next plain message delivers the pending
 * order and starts the cooldown; /addstars is the owner's credit command.
 * The clock (`int(time.time())`) is the parameter `now`.
 */
module StarsShop {
  import opened Wrappers
  import Decimal

  type TelegramId = int

  const OWNER_ID: TelegramId := 123456789
  const PRICE_STARS: int := 100
  const LIKES_AMOUNT: int := 100
  const COOLDOWN_SECONDS: int := 24 * 3600

  datatype UserRow = UserRow(username: Option<string>, stars: int, lastPurchase: int)
  datatype PendingOrder = PendingOrder(userId: TelegramId, amount: int, createdAt: int)

  /** Both tables; pending orders in insertion order. */
  datatype ShopState = ShopState(users: map<TelegramId, UserRow>, pending: seq<PendingOrder>)

  /** A command's effect: the new tables and what the bot replies. */
  datatype Step<R> = Step(state: ShopState, reply: R)

  // ---------- the table statements ----------

  /** ensure_user: INSERT OR IGNORE a zero row, then UPDATE the username. */
  function Ensured(s: ShopState, userId: TelegramId, username: Option<string>): ShopState {
    var row := if userId in s.users then s.users[userId].(username := username) else UserRow(username, 0, 0);
    s.(users := s.users[userId := row])
  }

  /** update_stars: UPDATE stars; no row, no change. */
  function WithStars(s: ShopState, userId: TelegramId, stars: int): ShopState {
    if userId in s.users then s.(users := s.users[userId := s.users[userId].(stars := stars)]) else s
  }

  /** set_last_purchase: UPDATE last_purchase; no row, no change. */
  function WithLastPurchase(s: ShopState, userId: TelegramId, ts: int): ShopState {
    if userId in s.users then s.(users := s.users[userId := s.users[userId].(lastPurchase := ts)]) else s
  }

  /**
   * ensure_user keeps the stars and last purchase of a known user, creates
   * an unknown one at zero, always stores the username, and is idempotent.
   */
  lemma EnsuredEffect(s: ShopState, userId: TelegramId, username: Option<string>)
    ensures var s' := Ensured(s, userId, username);
      && userId in s'.users && s'.users[userId].username == username
      && (userId in s.users ==>
            s'.users[userId].stars == s.users[userId].stars
            && s'.users[userId].lastPurchase == s.users[userId].lastPurchase)
      && (userId !in s.users ==> s'.users[userId] == UserRow(username, 0, 0))
      && s'.pending == s.pending
      && s'.users.Keys == s.users.Keys + {userId}
      && (forall u :: u in s.users && u != userId ==> s'.users[u] == s.users[u])
      && Ensured(s', userId, username) == s'
  {
  }

  // ---------- secs_to_human ----------

  /** The hours and minutes secs_to_human prints: those of `secs` within its day (timedelta.seconds). */
  function HoursMinutes(secs: int): (hm: (int, int))
    ensures 0 <= hm.0 < 24 && 0 <= hm.1 < 60
    ensures hm.0 * 3600 + hm.1 * 60 <= secs % 86400 < hm.0 * 3600 + hm.1 * 60 + 60
  {
    var daySeconds := secs % 86400;
    (daySeconds / 3600, (daySeconds % 3600) / 60)
  }

  /** secs_to_human: "<h>h <m>m", each number at most two digits. */
  function SecsToHuman(secs: int): (r: string)
    ensures 5 <= |r| <= 7
    ensures r[|r| - 1] == 'm' && '0' <= r[0] <= '9'
  {
    var hm := HoursMinutes(secs);
    Decimal.Show(hm.0) + "h " + Decimal.Show(hm.1) + "m"
  }

  /** Division by 3600 is determined by any decomposition with a remainder in range. */
  lemma DivMod3600(x: int, k: int, r: int)
    requires x == 3600 * k + r && 0 <= r < 3600
    ensures x / 3600 == k && x % 3600 == r
  {
  }

  /** The minute field equals (secs mod 3600) div 60, also for negative secs. */
  lemma MinutesOfHour(secs: int)
    ensures HoursMinutes(secs).1 == (secs % 3600) / 60
    ensures HoursMinutes(secs).0 == (secs % 86400) / 3600
  {
    var q, d := secs / 86400, secs % 86400;
    var h, r := d / 3600, d % 3600;
    DivMod3600(d, h, r);
    assert secs == 3600 * (24 * q + h) + r;
    DivMod3600(secs, 24 * q + h, r);
  }

  /** Whole days are dropped: the full cooldown of 86400 seconds reads "0h 0m". */
  lemma FullDayReadsZero()
    ensures SecsToHuman(COOLDOWN_SECONDS) == "0h 0m"
    ensures SecsToHuman(3 * 3600 + 25 * 60 + 9) == "3h 25m"
  {
  }

  // ---------- owner_only ----------

  /** owner_only's test: the update has a user and that user is the owner. */
  predicate IsOwner(caller: Option<TelegramId>) {
    caller.Some? && caller.value == OWNER_ID
  }

  // ---------- /balance ----------

  datatype BalanceReply = BalanceReply(stars: int, waitSeconds: Option<int>)

  function BalanceStep(s: ShopState, userId: TelegramId, username: Option<string>, now: int): Step<BalanceReply> {
    var s1 := Ensured(s, userId, username);
    var u := s1.users[userId];
    var nextAllowed := if u.lastPurchase != 0 then u.lastPurchase + COOLDOWN_SECONDS else 0;
    Step(s1, BalanceReply(u.stars, if nextAllowed > now then Some(nextAllowed - now) else None))
  }

  // ---------- /buy ----------

  /** The cooldown test of /buy: a purchase has been delivered and less than a day has passed since. */
  predicate CoolingDown(u: UserRow, now: int) {
    u.lastPurchase != 0 && now - u.lastPurchase < COOLDOWN_SECONDS
  }

  datatype BuyReply = CooldownActive(remaining: int) | NotEnoughStars(stars: int) | Purchased

  function BuyStep(s: ShopState, userId: TelegramId, username: Option<string>, now: int): Step<BuyReply> {
    var s1 := Ensured(s, userId, username);
    var u := s1.users[userId];
    if CoolingDown(u, now) then
      Step(s1, CooldownActive(COOLDOWN_SECONDS - (now - u.lastPurchase)))
    else if u.stars < PRICE_STARS then
      Step(s1, NotEnoughStars(u.stars))
    else
      var s2 := WithStars(s1, userId, u.stars - PRICE_STARS);
      Step(s2.(pending := s2.pending + [PendingOrder(userId, LIKES_AMOUNT, now)]), Purchased)
  }

  /**
   * /buy succeeds exactly when the cooldown has passed and the balance
   * covers the price. A cooldown refusal reports the seconds until a day
   * after the last delivery, a balance refusal reports the balance. A
   * refusal changes only what ensure_user changes; a
   * success takes exactly PRICE_STARS (leaving a non-negative balance),
   * appends exactly one pending order, and keeps last_purchase.
   */
  lemma BuyEffect(s: ShopState, userId: TelegramId, username: Option<string>, now: int)
    ensures var s1 := Ensured(s, userId, username);
      var u := s1.users[userId];
      var r := BuyStep(s, userId, username, now);
      && (r.reply.Purchased? <==> !CoolingDown(u, now) && u.stars >= PRICE_STARS)
      && (r.reply.CooldownActive? <==> CoolingDown(u, now))
      && (r.reply.CooldownActive? ==> r.reply.remaining > 0)
      && (r.reply.CooldownActive? ==> r.reply.remaining == u.lastPurchase + COOLDOWN_SECONDS - now)
      && (r.reply.NotEnoughStars? ==> r.reply.stars == u.stars && u.stars < PRICE_STARS)
      && (!r.reply.Purchased? ==> r.state == s1)
      && (r.reply.Purchased? ==>
            && r.state.users.Keys == s1.users.Keys
            && r.state.users[userId] == u.(stars := u.stars - PRICE_STARS)
            && r.state.users[userId].stars >= 0
            && r.state.users[userId].lastPurchase == u.lastPurchase
            && r.state.pending == s.pending + [PendingOrder(userId, LIKES_AMOUNT, now)]
            && (forall v :: v in s1.users && v != userId ==> r.state.users[v] == s1.users[v]))
  {
  }

  /**
   * /balance says "wait" exactly when /buy would refuse for the cooldown,
   * with the same remaining time. (For a clock before 1970 they differ: a
   * never-served user would be told to wait while /buy goes ahead.)
   */
  lemma BalanceMatchesBuy(s: ShopState, userId: TelegramId, username: Option<string>, now: int)
    requires now >= 0
    ensures BalanceStep(s, userId, username, now).reply.waitSeconds.Some? <==>
            BuyStep(s, userId, username, now).reply.CooldownActive?
    ensures BuyStep(s, userId, username, now).reply.CooldownActive? ==>
            BalanceStep(s, userId, username, now).reply.waitSeconds.value ==
            BuyStep(s, userId, username, now).reply.remaining
    ensures BalanceStep(s, userId, username, now).state == Ensured(s, userId, username)
    ensures BalanceStep(s, userId, username, now).reply.stars == (if userId in s.users then s.users[userId].stars else 0)
  {
  }

  /**
   * The cooldown starts at delivery, not at purchase: with 200 stars and no
   * delivery yet, two /buy commands in a row both succeed.
   */
  lemma BuysBeforeDeliveryNotThrottled(s: ShopState, userId: TelegramId, username: Option<string>, now: int)
    requires userId in s.users && s.users[userId].lastPurchase == 0
    requires s.users[userId].stars >= 2 * PRICE_STARS
    ensures var first := BuyStep(s, userId, username, now);
      && first.reply.Purchased?
      && BuyStep(first.state, userId, username, now).reply.Purchased?
  {
  }

  // ---------- plain messages ----------

  /** The first pending order of `userId` (SELECT ... fetchone()). */
  function FirstOrderOf(orders: seq<PendingOrder>, userId: TelegramId): (r: Option<PendingOrder>)
    ensures r.Some? ==> r.value in orders && r.value.userId == userId
    ensures r.None? <==> forall i :: 0 <= i < |orders| ==> orders[i].userId != userId
  {
    if orders == [] then None
    else if orders[0].userId == userId then Some(orders[0])
    else FirstOrderOf(orders[1..], userId)
  }

  /** The pending orders left after DELETE ... WHERE user_id = userId. */
  function WithoutUser(orders: seq<PendingOrder>, userId: TelegramId): (r: seq<PendingOrder>)
    ensures forall o :: o in r <==> o in orders && o.userId != userId
    ensures forall o :: multiset(r)[o] == if o.userId == userId then 0 else multiset(orders)[o]
    ensures |r| <= |orders|
  {
    if orders == [] then []
    else
      assert orders == [orders[0]] + orders[1..];
      var rest := WithoutUser(orders[1..], userId);
      if orders[0].userId == userId then rest else [orders[0]] + rest
  }

  /** No order of `userId` pending: deleting them changes nothing. */
  lemma {:induction false} WithoutAbsentUser(orders: seq<PendingOrder>, userId: TelegramId)
    requires forall i :: 0 <= i < |orders| ==> orders[i].userId != userId
    ensures WithoutUser(orders, userId) == orders
  {
    if orders != [] {
      WithoutAbsentUser(orders[1..], userId);
    }
  }

  datatype MessageReply = OrderReceived(amount: int) | NoPendingOrder

  function HandleMessageStep(s: ShopState, userId: TelegramId, now: int): Step<MessageReply> {
    match FirstOrderOf(s.pending, userId)
    case None => Step(s, NoPendingOrder)
    case Some(order) =>
      var s1 := s.(pending := WithoutUser(s.pending, userId));
      Step(WithLastPurchase(s1, userId, now), OrderReceived(order.amount))
  }

  /**
   * A message with an order pending removes all of the user's pending orders
   * (and no one else's), stamps last_purchase with `now`, and leaves every
   * balance alone. Without one, nothing changes.
   */
  lemma HandleMessageEffect(s: ShopState, userId: TelegramId, now: int)
    ensures var r := HandleMessageStep(s, userId, now);
      && (r.reply.NoPendingOrder? ==> r.state == s)
      && (r.reply.NoPendingOrder? <==> forall i :: 0 <= i < |s.pending| ==> s.pending[i].userId != userId)
      && r.state.users.Keys == s.users.Keys
      && (forall o :: o in r.state.pending ==> o.userId != userId || r.reply.NoPendingOrder?)
      && (forall o: PendingOrder :: o.userId != userId ==> multiset(r.state.pending)[o] == multiset(s.pending)[o])
      && (forall v :: v in s.users ==> r.state.users[v].stars == s.users[v].stars)
      && (forall v :: v in s.users && v != userId ==> r.state.users[v] == s.users[v])
      && (r.reply.OrderReceived? && userId in s.users ==> r.state.users[userId] == s.users[userId].(lastPurchase := now))
      && (r.reply.OrderReceived? ==> r.reply.amount == FirstOrderOf(s.pending, userId).value.amount)
  {
  }

  /** Once an order is delivered at a non-zero time, /buy is refused for the next 24 hours. */
  lemma DeliveryStartsCooldown(s: ShopState, userId: TelegramId, username: Option<string>, now: int, later: int)
    requires userId in s.users && now != 0
    requires exists i :: 0 <= i < |s.pending| && s.pending[i].userId == userId
    requires later - now < COOLDOWN_SECONDS
    ensures BuyStep(HandleMessageStep(s, userId, now).state, userId, username, later).reply.CooldownActive?
  {
    var delivered := HandleMessageStep(s, userId, now);
    assert delivered.reply.OrderReceived?;
    assert delivered.state.users[userId].lastPurchase == now;
  }

  // ---------- /addstars ----------

  datatype AdminReply = NotOwner | Usage | NotNumbers | StarsAdded(target: TelegramId, amount: int, balance: int)

  /** /addstars under owner_only: two integer arguments, a target and an (unchecked) amount. */
  function AddStarsStep(s: ShopState, caller: Option<TelegramId>, args: seq<string>): Step<AdminReply> {
    if !IsOwner(caller) then Step(s, NotOwner)
    else if |args| != 2 then Step(s, Usage)
    else
      match (Decimal.Parse(args[0]), Decimal.Parse(args[1]))
      case (Some(target), Some(amount)) =>
        var s1 := Ensured(s, target, None);
        var balance := s1.users[target].stars + amount;
        Step(WithStars(s1, target, balance), StarsAdded(target, amount, balance))
      case _ => Step(s, NotNumbers)
  }

  /**
   * Only the owner with exactly two integer arguments changes anything; then
   * the target's stars grow by the amount (from 0 for a new user, and a
   * negative amount is not refused), its username is cleared by
   * ensure_user(target, None), and nothing else changes.
   */
  lemma AddStarsEffect(s: ShopState, caller: Option<TelegramId>, args: seq<string>)
    ensures var r := AddStarsStep(s, caller, args);
      && (r.reply.StarsAdded? <==>
            IsOwner(caller) && |args| == 2 && Decimal.Parse(args[0]).Some? && Decimal.Parse(args[1]).Some?)
      && (!r.reply.StarsAdded? ==> r.state == s)
      && (r.reply.StarsAdded? ==>
            var t := r.reply.target;
            && t == Decimal.Parse(args[0]).value
            && r.reply.amount == Decimal.Parse(args[1]).value
            && r.state.users[t].stars == (if t in s.users then s.users[t].stars else 0) + r.reply.amount
            && r.state.users[t].stars == r.reply.balance
            && r.state.users[t].username == None
            && r.state.users[t].lastPurchase == (if t in s.users then s.users[t].lastPurchase else 0)
            && r.state.pending == s.pending
            && r.state.users.Keys == s.users.Keys + {t}
            && (forall v :: v in s.users && v != t ==> r.state.users[v] == s.users[v]))
  {
  }

  /** owner_only: anyone but the owner gets only the refusal, and the tables stay as they were. */
  lemma OwnerOnlyGuards(s: ShopState, caller: Option<TelegramId>, args: seq<string>)
    ensures IsOwner(caller) <==> caller == Some(OWNER_ID)
    ensures !IsOwner(caller) ==> AddStarsStep(s, caller, args) == Step(s, NotOwner)
    ensures IsOwner(caller) ==> !AddStarsStep(s, caller, args).reply.NotOwner?
  {
  }

  /** The owner typing the decimal text of any two integers gets exactly those values. */
  lemma AddStarsReadsDecimals(s: ShopState, target: int, amount: int)
    ensures AddStarsStep(s, Some(OWNER_ID), [Decimal.Show(target), Decimal.Show(amount)]).reply
            == StarsAdded(target, amount, (if target in s.users then s.users[target].stars else 0) + amount)
  {
    Decimal.ParseShow(target);
    Decimal.ParseShow(amount);
  }

  // ---------- invariant ----------

  ghost predicate NoDebt(s: ShopState) {
    forall u :: u in s.users ==> s.users[u].stars >= 0
  }

  /** Every command but a negative /addstars keeps all balances non-negative. */
  lemma CommandsKeepNoDebt(s: ShopState, userId: TelegramId, username: Option<string>, now: int, caller: Option<TelegramId>, args: seq<string>)
    requires NoDebt(s)
    ensures NoDebt(BuyStep(s, userId, username, now).state)
    ensures NoDebt(BalanceStep(s, userId, username, now).state)
    ensures NoDebt(HandleMessageStep(s, userId, now).state)
    ensures AddStarsStep(s, caller, args).reply.StarsAdded? && AddStarsStep(s, caller, args).reply.amount >= 0 ==>
            NoDebt(AddStarsStep(s, caller, args).state)
  {
  }

  // ---------- the bot with its sqlite file ----------

  class Shop {
    var users: map<TelegramId, UserRow>
    var pending: seq<PendingOrder>

    function State(): ShopState
      reads this
    {
      ShopState(users, pending)
    }

    /** init_db on a fresh file: both tables empty. */
    constructor ()
      ensures State() == ShopState(map[], [])
    {
      users := map[];
      pending := [];
    }

    method EnsureUser(userId: TelegramId, username: Option<string>)
      modifies this
      ensures State() == Ensured(old(State()), userId, username)
    {
      if userId !in users {
        users := users[userId := UserRow(username, 0, 0)];
      }
      users := users[userId := users[userId].(username := username)];
    }

    /** get_user: the row, or None. */
    method GetUser(userId: TelegramId) returns (row: Option<UserRow>)
      ensures row.Some? <==> userId in users
      ensures row.Some? ==> row.value == users[userId]
    {
      if userId in users {
        row := Some(users[userId]);
      } else {
        row := None;
      }
    }

    method UpdateStars(userId: TelegramId, stars: int)
      modifies this
      ensures State() == WithStars(old(State()), userId, stars)
    {
      if userId in users {
        users := users[userId := users[userId].(stars := stars)];
      }
    }

    method SetLastPurchase(userId: TelegramId, ts: int)
      modifies this
      ensures State() == WithLastPurchase(old(State()), userId, ts)
    {
      if userId in users {
        users := users[userId := users[userId].(lastPurchase := ts)];
      }
    }

    /** /balance */
    method Balance(userId: TelegramId, username: Option<string>, now: int) returns (reply: BalanceReply)
      modifies this
      ensures Step(State(), reply) == BalanceStep(old(State()), userId, username, now)
    {
      EnsureUser(userId, username);
      var u := GetUser(userId);
      var nextAllowed := 0;
      if u.Some? && u.value.lastPurchase != 0 {
        nextAllowed := u.value.lastPurchase + COOLDOWN_SECONDS;
      }
      if nextAllowed > now {
        reply := BalanceReply(u.value.stars, Some(nextAllowed - now));
      } else {
        reply := BalanceReply(u.value.stars, None);
      }
    }

    /** /buy */
    method Buy(userId: TelegramId, username: Option<string>, now: int) returns (reply: BuyReply)
      modifies this
      ensures Step(State(), reply) == BuyStep(old(State()), userId, username, now)
    {
      EnsureUser(userId, username);
      var u := GetUser(userId);
      var row := u.value;
      if row.lastPurchase != 0 && now - row.lastPurchase < COOLDOWN_SECONDS {
        reply := CooldownActive(COOLDOWN_SECONDS - (now - row.lastPurchase));
        return;
      }
      if row.stars < PRICE_STARS {
        reply := NotEnoughStars(row.stars);
        return;
      }
      UpdateStars(userId, row.stars - PRICE_STARS);
      pending := pending + [PendingOrder(userId, LIKES_AMOUNT, now)];
      reply := Purchased;
    }

    /** handle_message: deliver the pending order, if any. */
    method HandleMessage(userId: TelegramId, now: int) returns (reply: MessageReply)
      modifies this
      ensures Step(State(), reply) == HandleMessageStep(old(State()), userId, now)
    {
      var row := FirstOrderOf(pending, userId);
      if row.Some? {
        pending := WithoutUser(pending, userId);
        SetLastPurchase(userId, now);
        reply := OrderReceived(row.value.amount);
      } else {
        reply := NoPendingOrder;
      }
    }

    /** /addstars, wrapped by owner_only. */
    method AddStars(caller: Option<TelegramId>, args: seq<string>) returns (reply: AdminReply)
      modifies this
      ensures Step(State(), reply) == AddStarsStep(old(State()), caller, args)
    {
      if !IsOwner(caller) {
        reply := NotOwner;
        return;
      }
      if |args| != 2 {
        reply := Usage;
        return;
      }
      var target := Decimal.Parse(args[0]);
      var amount := Decimal.Parse(args[1]);
      if target.None? || amount.None? {
        reply := NotNumbers;
        return;
      }
      EnsureUser(target.value, None);
      var u := GetUser(target.value);
      var balance := u.value.stars + amount.value;
      UpdateStars(target.value, balance);
      reply := StarsAdded(target.value, amount.value, balance);
    }
  }
}
