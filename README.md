# Nothing-store bots: spend ledger, stars shop and payment table, in Dafny

This project models the logic of a Telegram storefront that sells "nothing".
There are three parts.

- **Spend ledger with loyalty ranks.** Two parallel JavaScript backends have it:
  `server.js`, which stores users in a JSON file, and `Node.js`, which stores them
  in a Mongoose collection. Each user has an aggregate `{totalSpent, orderCount, rank}`.
  `successful_payment` adds one order and the payload's `amount`. The update route sets
  both numbers to absolute values. Both writes recompute the rank from a fixed
  descending threshold table (`Ranks`). `/api/buy` validates a request and builds
  the invoice (`Invoices`).
- **Stars shop (`bot.py`).** It keeps a `users` table (stars, last purchase,
  username) and a `pending_orders` table. `/buy` spends `PRICE_STARS` stars for
  `LIKES_AMOUNT` likes, at most once per 24-hour cooldown. The next plain message
  delivers every pending order of the user and starts the cooldown. `/addstars`
  is the owner's credit command. `/balance` shows the stars and the remaining
  cooldown.
- **Payment table (`database.py`).** It is an insert-or-ignore table keyed by
  `payment_id`.

Form of the model:

- Each store is a class field that the methods reassign: `JsonLedger.JsonStore.db`,
  `MongoLedger.UserCollection.docs`, `StarsShop.Shop.users`/`pending` and
  `PaymentRecords.PaymentsDb.rows`.
- Each method is proved equal to a pure function of the old state (`ApplyPayment`,
  `Upsert`, `BuyStep`, `InsertOrIgnore`, ...).
- The lemmas state the promised properties about those functions.
- The clock is a parameter (`now`).
- A Telegram call that can fail is a boolean parameter (`sendInvoiceFails`,
  `thanksFails`).
- Messages the bots send are returned as values.
- `Decimal` holds the decimal text of integers. `Show` is how the programs print
  numbers. `Parse` is Python's `int()` as `/addstars` uses it.

Where the code does something other than what a reader of these programs would expect, the model follows the code:

- **Delivery is not exactly-once.** Neither JavaScript handler suppresses
  duplicates. Every delivered `successful_payment` is applied, so a redelivery
  counts a second order (`RedeliveryAppliedTwice` in both ledgers). No dedup key
  exists. Only `database.py` deduplicates, by `payment_id`.
- **Spending is counted in hundredths.** The invoice charges `amount * 100` XTR
  (`server.js:105`, `Node.js:114`). The payment handler adds the payload's
  `amount` to `totalSpent` (`server.js:136`, `Node.js:145`). So totalSpent and
  the rank thresholds count a hundredth of the Stars actually paid.
- **`amount` is not checked for positivity.** `/api/buy` checks truthiness only.
  A zero amount is refused, but a negative one gets an invoice with a negative
  price (`Invoices.AmountCheckIsTruthiness`).
- **GET does not always create the user.** In `server.js` a GET for an unknown
  user returns the zero aggregate and writes nothing. In `Node.js` the same GET
  creates the document. The client sees the same totalSpent, orderCount and rank (`MongoLedger.BackendsAgree`); `Node.js` also sends Mongoose's `_id` and `__v` fields.
- **Refused `/buy` calls still change state.** `/buy` runs `ensure_user` before
  its checks. A refusal therefore still inserts a new user and overwrites the
  username.
- **`/addstars` clears the username.** It calls `ensure_user(target, None)`,
  which clears the target's username.
- **The cooldown starts at delivery.** It begins when `handle_message` delivers
  the order, not at `/buy`. Until the user sends a message, `/buy` can be
  repeated (`StarsShop.BuysBeforeDeliveryNotThrottled`).
- **`secs_to_human` drops whole days.** It prints `timedelta.seconds`, so the
  full 86400-second cooldown (a `/buy` in the same second as the delivery) reads
  "0h 0m" (`StarsShop.FullDayReadsZero`).
- **`Node.js` repeats the rank table.** `Node.js:30-48` holds the same table and
  the same scan as `server.js:39-57`. Both ledgers use the one `Ranks` module.

## Model

| member | source | states |
|---|---|---|
| `Ranks.GetRankIn` | server.js:50-57 | the scan of a non-empty table; what it picks is stated by `Ranks.PicksHighestThreshold`, `Ranks.Boundaries` and `Ranks.TitleFromTable` |
| `Ranks.GetRank` | server.js:50-57 | getRank is the scan over RANKS (`Node.js:41-48` is the same function); its properties are the lemmas below |
| `Ranks.RanksWellFormed` | server.js:39-48 | the table is non-empty, its thresholds strictly descend, and the last is 0 |
| `Ranks.FirstMatch` | server.js:51-55 | the scan returns the first index whose threshold is at most the total, every earlier threshold being above it; none only if every threshold is above it |
| `Ranks.MatchIffNonNegative` | server.js:50-57 | on a well-formed table the scan finds an entry exactly for non-negative totals, so every non-negative input gets a title from the scan |
| `Ranks.PicksHighestThreshold` | server.js:50-57 | the chosen threshold is at most the total and no matching threshold is higher: the first match is the highest threshold not above the total |
| `Ranks.ThresholdMonotone` | server.js:50-57 | for 0 <= a <= b the threshold chosen for a is at most the one chosen for b |
| `Ranks.Boundaries` | server.js:39-57 | at each threshold t the title is t's own, and at t - 1 it is the next lower entry's |
| `Ranks.NegativeFallsBack` | server.js:56 | a negative total falls through the loop to the last title, the same as for 0 |
| `Ranks.FirstPromotion` | server.js:46-47 | getRank(9999) is the new-visitor title, getRank(10000) the beginner title, and getRank(0) and getRank(500000) are the bottom and top titles |
| `Ranks.TitleFromTable` | server.js:50-57 | every result is the title of some table entry |
| `Decimal.Show` | bot.py:210 | the printed text of an integer is non-empty and starts with '-' exactly when the integer is negative |
| `Decimal.Parse` | bot.py:199-201 | int() accepts only non-empty text; which texts it accepts and their values are stated by `Decimal.ParseShow`, `Decimal.ParseRejects` and `Decimal.ParseAccepts` |
| `Decimal.ParseShow` | bot.py:199-201 | the printed decimal text of every integer parses back to that integer |
| `Decimal.ParseRejects` | bot.py:199-204 | empty text, a bare sign, misplaced underscores and non-digits make int() fail |
| `Decimal.ParseAccepts` | bot.py:199-201 | int() takes a sign, leading zeros and single underscores between digits |
| `Invoices.Buy` | server.js:91-114 | 400 exactly when userId, category or amount is falsy; otherwise 500 if sending fails, else an invoice to userId whose payload is exactly {userId, category, amount} and whose price is amount * 100 in XTR |
| `Invoices.AmountCheckIsTruthiness` | server.js:94-96 | with userId and category present, only amount 0 is refused; a negative amount gets a negative price |
| `Invoices.PaymentNotices` | server.js:142-146 | an unparsable payload sends only the failure notice to the sender; otherwise the user is thanked first, and the sender gets the failure notice exactly when parsing fails or the thanks throws; a parsed payload sends exactly one thanks, plus the one failure notice when the thanks throws |
| `JsonLedger.Lookup` | server.js:64 | a stored user's aggregate as stored; an absent user reads as 0 spent, 0 orders, with the rank that getRank gives 0 |
| `JsonLedger.ApplyPayment` | server.js:133-139 | the file after a payment; its effect is stated by `JsonLedger.PaymentEffect` |
| `JsonLedger.ApplyUpdate` | server.js:78-81 | the file after an update; its effect is stated by `JsonLedger.UpdateEffect` |
| `JsonLedger.PaymentEffect` | server.js:133-139 | a payment adds the amount and one order to the user (from 0/0 when absent), stores getRank of the new total, and leaves every other user unchanged |
| `JsonLedger.UpdateEffect` | server.js:78-81 | the update stores exactly the supplied totals and getRank of the total, and leaves every other key unchanged |
| `JsonLedger.WritesKeepConsistency` | server.js:79-80 | if every stored rank equals getRank of its total, this still holds after a payment or an update |
| `JsonLedger.RedeliveryAppliedTwice` | server.js:131-140 | the same confirmation handled twice adds twice the amount and two orders, so it differs from one application |
| `JsonLedger.PaymentsCommute` | server.js:135-139 | two payments give the same file in either arrival order |
| `JsonLedger.PaymentsAdd` | server.js:135-139 | after N payments the user's total grew by their sum and the order count by N, the rank matches, and other users are untouched |
| `JsonLedger.NewUserScenario` | server.js:135-138 | a new user paying 9999 is {9999, 1, new visitor}; one more star makes {10000, 2, beginner} |
| `JsonLedger.JsonStore.constructor` | server.js:19-25 | a missing database file starts as the empty object |
| `JsonLedger.JsonStore.GetUser` | server.js:60-65 | GET answers Lookup of the file and writes nothing |
| `JsonLedger.JsonStore.UpdateUser` | server.js:73-83 | the file becomes ApplyUpdate of the old file, the answer is the stored record, and rank consistency is kept |
| `JsonLedger.JsonStore.OnSuccessfulPayment` | server.js:131-147 | an unparsable payload leaves the file; a parsed one makes it ApplyPayment of the old file; the notices are PaymentNotices |
| `MongoLedger.NewUser` | Node.js:55-60 | the created document has the requested id, 0 spent, 0 orders and the rank getRank gives 0 |
| `MongoLedger.FindOrCreate` | Node.js:51-63 | findOrCreateUser's document and collection; stated by `MongoLedger.FindOrCreateEffect` |
| `MongoLedger.Upsert` | Node.js:82-90 | the collection after an update; stated by `MongoLedger.UpsertEffect` |
| `MongoLedger.ApplyPayment` | Node.js:141-148 | the collection after a payment; stated by `MongoLedger.PaymentEffect` |
| `MongoLedger.FindOrCreateEffect` | Node.js:51-63 | an existing document is returned and nothing is written; otherwise the zero document is stored and returned; other documents are unchanged and ids still match keys |
| `MongoLedger.FindOrCreateIdempotent` | Node.js:51-63 | a second findOrCreateUser for the same id creates nothing and returns the same document |
| `MongoLedger.UpsertEffect` | Node.js:82-90 | the update upserts the supplied numbers with getRank of the total and touches no other document |
| `MongoLedger.PaymentEffect` | Node.js:141-148 | a payment adds the amount and one order to the fetched or created document, recomputes the rank, and touches no other document |
| `MongoLedger.WritesKeepConsistency` | Node.js:55-147 | creation, payment and update all keep every stored rank equal to getRank of its total |
| `MongoLedger.RedeliveryAppliedTwice` | Node.js:139-148 | a redelivered confirmation adds the amount and an order again |
| `MongoLedger.BackendsAgree` | Node.js:67-148 | from empty stores, and after the same payment, update or read, the two backends show the same aggregate for every user |
| `MongoLedger.UserCollection.constructor` | Node.js:19-25 | the collection starts empty, with every id matching its key |
| `MongoLedger.UserCollection.FindOrCreateUser` | Node.js:51-63 | the collection and the returned document are those of FindOrCreate on the old collection |
| `MongoLedger.UserCollection.GetUser` | Node.js:67-76 | GET is findOrCreateUser, so a first read adds the user's document |
| `MongoLedger.UserCollection.UpdateUser` | Node.js:79-97 | the collection becomes Upsert of the old one, and the answer is the stored, rank-consistent document |
| `MongoLedger.UserCollection.OnSuccessfulPayment` | Node.js:139-155 | an unparsable payload leaves the collection; a parsed one makes it ApplyPayment of the old one; the notices are PaymentNotices |
| `StarsShop.Ensured` | bot.py:52-59 | the tables after ensure_user; stated by `StarsShop.EnsuredEffect` |
| `StarsShop.EnsuredEffect` | bot.py:52-59 | ensure_user inserts {0 stars, last purchase 0} only for an absent user, keeps an existing user's stars and last purchase, always sets the username, touches no other row, and is idempotent |
| `StarsShop.SecsToHuman` | bot.py:76-80 | the text is "<h>h <m>m": 5 to 7 characters, starting with a digit and ending in 'm'; its numbers are stated by `StarsShop.HoursMinutes` and `StarsShop.MinutesOfHour` |
| `StarsShop.HoursMinutes` | bot.py:76-80 | the hours are in 0..23, the minutes in 0..59, and together they are the whole minutes of secs within its day |
| `StarsShop.MinutesOfHour` | bot.py:77-79 | h = (secs mod 86400) div 3600 and m = (secs mod 3600) div 60, for negative secs too |
| `StarsShop.FullDayReadsZero` | bot.py:76-80 | 86400 seconds print as "0h 0m", and 3h25m9s prints as "3h 25m" |
| `StarsShop.BalanceStep` | bot.py:111-123 | the tables and reply of /balance; stated by `StarsShop.BalanceMatchesBuy` |
| `StarsShop.BuyStep` | bot.py:125-156 | the tables and reply of /buy; stated by `StarsShop.BuyEffect` |
| `StarsShop.BuyEffect` | bot.py:125-151 | /buy succeeds exactly when not cooling down and stars >= PRICE_STARS; a cooldown refusal reports last_purchase + COOLDOWN_SECONDS - now seconds and a balance refusal the user's stars; a refusal leaves only ensure_user's change; a success deducts exactly PRICE_STARS (leaving >= 0), appends the one order (user, LIKES_AMOUNT, now), keeps last_purchase and other users |
| `StarsShop.BalanceMatchesBuy` | bot.py:111-123 | /balance reports the user's stars (0 for a new user) and a wait exactly when /buy would refuse for the cooldown, with the same remaining seconds, and changes only what ensure_user changes |
| `StarsShop.BuysBeforeDeliveryNotThrottled` | bot.py:132-151 | with no delivery yet and 200 stars, two /buy in a row both succeed |
| `StarsShop.FirstOrderOf` | bot.py:164-165 | the row fetched is one of the user's pending orders, and there is none exactly when the user has no pending order |
| `StarsShop.WithoutUser` | bot.py:169 | after the DELETE, the user has no order left and every other user's order keeps its multiplicity |
| `StarsShop.WithoutAbsentUser` | bot.py:169 | deleting a user with no pending orders changes nothing |
| `StarsShop.HandleMessageStep` | bot.py:158-190 | the tables and reply of a plain message; stated by `StarsShop.HandleMessageEffect` |
| `StarsShop.HandleMessageEffect` | bot.py:158-190 | with an order pending, all of the user's orders go, every other order keeps its multiplicity, the user's row changes only in last_purchase, which becomes now, the reply carries the amount of the order fetched first, and no other row changes; with none, nothing changes |
| `StarsShop.DeliveryStartsCooldown` | bot.py:132-173 | after a delivery at a non-zero time, /buy within 24 hours is refused for the cooldown |
| `StarsShop.AddStarsStep` | bot.py:193-210 | the tables and reply of /addstars; stated by `StarsShop.AddStarsEffect` and `StarsShop.OwnerOnlyGuards` |
| `StarsShop.AddStarsEffect` | bot.py:193-210 | only the owner with two integer arguments changes anything; then the target's stars grow by the unchecked amount (from 0 for a new user), its username is cleared, the only user key that can appear is the target's, and nothing else changes |
| `StarsShop.OwnerOnlyGuards` | bot.py:82-89 | a caller other than OWNER_ID gets only the refusal, and the tables are unchanged |
| `StarsShop.AddStarsReadsDecimals` | bot.py:199-209 | the owner typing the decimal text of a target and an amount credits exactly that amount |
| `StarsShop.CommandsKeepNoDebt` | bot.py:138-144 | /buy, /balance and messages keep every balance non-negative, and so does /addstars with a non-negative amount |
| `StarsShop.Shop.constructor` | bot.py:20-40 | init_db on a new file gives two empty tables |
| `StarsShop.Shop.EnsureUser` | bot.py:52-59 | the tables become Ensured of the old ones |
| `StarsShop.Shop.GetUser` | bot.py:42-50 | the user's row, or None exactly when absent |
| `StarsShop.Shop.UpdateStars` | bot.py:61-66 | the row's stars are set, and an absent user changes nothing |
| `StarsShop.Shop.SetLastPurchase` | bot.py:68-73 | the row's last purchase is set, and an absent user changes nothing |
| `StarsShop.Shop.Balance` | bot.py:111-123 | tables and reply are BalanceStep of the old tables |
| `StarsShop.Shop.Buy` | bot.py:125-156 | tables and reply are BuyStep of the old tables |
| `StarsShop.Shop.HandleMessage` | bot.py:158-190 | tables and reply are HandleMessageStep of the old tables |
| `StarsShop.Shop.AddStars` | bot.py:193-210 | tables and reply are AddStarsStep of the old tables, with the owner check of owner_only |
| `PaymentRecords.Find` | database.py:55-58 | a row found has the requested payment id and is in the table, and there is none exactly when no row has that id |
| `PaymentRecords.InsertOrIgnore` | database.py:41-46 | the table after the insert-or-ignore; stated by `PaymentRecords.InsertOrIgnoreEffect` |
| `PaymentRecords.InsertOrIgnoreEffect` | database.py:41-46 | a new payment id appends exactly that row, a known one leaves the table, and ids stay unique |
| `PaymentRecords.InsertOrIgnoreIdempotent` | database.py:45 | a second save with the same payment id, whatever its values, changes nothing |
| `PaymentRecords.FirstSaveWins` | database.py:43-58 | after a save, a lookup of its id returns the first-saved row, even after any later saves |
| `PaymentRecords.SaveAllKeepsUnique` | database.py:24 | any sequence of saves keeps at most one row per payment id |
| `PaymentRecords.PaymentsDb.constructor` | database.py:6 | at module load there is no pool, and the table is empty |
| `PaymentRecords.PaymentsDb.SetupDb` | database.py:8-17 | without DATABASE_URL the pool state is left as it was; with it the pool exists; rows are untouched |
| `PaymentRecords.PaymentsDb.SavePayment` | database.py:35-46 | with no pool nothing changes; arguments outside BIGINT/INTEGER are refused; a new id inserts the one row; a known id is ignored; each outcome is reported exactly in its own case |
| `PaymentRecords.PaymentsDb.GetPaymentDetails` | database.py:48-60 | no pool gives None; otherwise the stored (user_id, amount, currency) for the id, or None when absent |

## Left out

- JavaScript values: request and payload fields are modelled as strings and integers (a missing field in a request is `None`). Floats, `NaN`, strings where numbers are expected (`+` would concatenate), double precision and exponent formatting of very large numbers are not modelled.
- Undefined totals on the update route: an update without `totalSpent` or `orderCount` is not modelled. Mongoose then drops the undefined `totalSpent` but stores `getRank(undefined)`, the new-visitor title. `server.js` stores the record with only the rank, because `JSON.stringify` drops undefined fields. `MongoLedger.WritesKeepConsistency` holds only because modelled totals are integers.
- `JsonLedger.Lookup`: the database object of `server.js` is a plain JavaScript object, so a user id naming an inherited property (`constructor`, `toString`, `valueOf`, `hasOwnProperty`, `__proto__`) is found as if stored. The model treats every id as an ordinary key.
- `JsonLedger.JsonStore.GetUser`: for such an inherited-property id the GET answers the inherited value (an empty JSON body) instead of the zero aggregate. This is not modelled.
- `JsonLedger.JsonStore.UpdateUser`: an update for `__proto__` replaces the object's prototype instead of writing a key, so nothing is saved to the file. This is not modelled.
- `MongoLedger.BackendsAgree`: holds for ordinary ids only. For the inherited-property ids above the two backends differ.
- Storage failures: the JSON file, the Mongoose collection and the sqlite file never fail in the model. The 500 answers of the GET and update routes come only from I/O errors, so they are not modelled.
- Concurrency: every handler runs to completion before the next one. The lost-update race of read-modify-write in `server.js:134-140` and `Node.js:144-148` is not modelled.
- Telegram: `sendInvoice` and `sendMessage` appear only as returned values plus a "fails" flag. `pre_checkout_query`, webhook setup, `processUpdate` and polling are not modelled. The text of messages is not modelled, except the invoice strings and `secs_to_human`.
- JSON encoding: the invoice payload is a record. `JSON.stringify` and `JSON.parse` are not modelled; a payload that does not parse is `None`.
- `bot.py` texts: `strip()` of the message text, the notice sent to the owner, `/start` (`ensure_user` plus a greeting) and `/help` are not modelled.
- `bot.py` storage: `init_db` DDL is not modelled. Integer overflow of sqlite's 64-bit INTEGER is not modelled. Foreign keys are not enforced by sqlite and are not modelled.
- `Decimal.Parse`: surrounding whitespace and non-ASCII decimal digits, which Python's `int()` also accepts, are not modelled. They cannot occur in the whitespace-split command arguments, except for non-ASCII digits. CPython's limit of 4300 digits for `int()` of a string (a `ValueError` above it) is not modelled.
- `StarsShop.HoursMinutes`: `timedelta`'s overflow for magnitudes beyond 999999999 days is not modelled.
- `StarsShop.FirstOrderOf`: `fetchone()` without `ORDER BY` is taken to return the oldest pending row, which is sqlite's usual rowid order.
- `StarsShop.BalanceMatchesBuy`: requires `now >= 0`. For a clock before 1970, a never-served user would be told to wait while `/buy` goes ahead.
- `database.py`: the `setup_db` DDL is not modelled; its `#` line is not SQL, so the `CREATE TABLE` would fail after the pool is created. The `payment_timestamp` column, pool acquisition errors and asyncpg's argument type checks other than the integer ranges are not modelled.
- `app.jsx` (a React page) and `bot2.py` (fixed-message callbacks) are not part of this model.
