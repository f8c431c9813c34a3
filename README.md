# Gift-shop ledger, modelled in Dafny

The server in `index.js` runs a Telegram gift shop entirely in memory. Users hold a star
balance. They buy gifts from a product catalog, pass gifts to one another, invite friends
through referrals, and pay 25 stars to upgrade a gift once with a randomly chosen look. An
admin edits the catalog, registers upgrade options, gives stars and hands out gifts. Every
route checks its inputs and then updates five pieces of state:

- `users`: user id to account;
- `referrals`: referred user to referrer;
- `userInventories`: user id to the list of owned gift instances;
- `globalProducts`: the catalog;
- `globalUpgrades`: product id to its list of upgrade options.

The model follows the same split.

- `Accounts` (`accounts.dfy`): the account record and `initUser` (`Registered`), plus the
  clamped balance adjustment. It also holds the ledger invariant every handler keeps:
  - balances are never negative;
  - user numbers are distinct and lie in `1..|users|`;
  - nobody refers themselves;
  - every referral counter equals the number of users recorded as referred by that user.
- `Catalog` (`catalog.dfy`): products, the defaults of an admin-created product, the partial
  update with its truthy and `!== undefined` tests, and the id assignment
  `Math.max(...ids, 0) + 1`.
- `Inventory` (`inventory.dfy`):
  - gift instances and the purchase identifiers `${productId}_${time}` and
    `transfer_${id}_${time}`;
  - the copies the buy, grant, transfer and upgrade handlers push;
  - the random pick `Math.floor(Math.random() * n)`;
  - the upgrade-option map with its key order, and the flattening loop of the admin listing.
- `ArrayOps` (`arrayops.dfy`): `findIndex` and `splice(i, 1)` on sequences. `Decimal`
  (`decimal.dfy`): the decimal rendering `${n}` used inside purchase identifiers.
- `Shop` (`store.dfy`):
  - The five handlers that change several user-facing maps at once (referral, buy, transfer,
    admin grant, upgrade) are transitions `XOutcome` of the value `Ledger` (users, referrals,
    inventories). Each returns the answer and the ledger it leaves behind. Lemmas beside each
    transition state its refusals, its effect and what it leaves alone.
  - The class `Store` holds all five pieces of state as fields, with one method per route.
    The catalog, balance and upgrade-option routes update the fields step by step. The five
    ledger routes apply their transition to the fields. Every method keeps `Valid()`: the
    ledger invariant, distinct product ids, and a key order that lists each upgrade-map key
    exactly once.

Outside inputs are parameters:

- `Date.now()` is `now`;
- `Math.random()` is a draw `r` with `0 <= r < 1`;
- the caller's IP address and username, which the middleware attaches to every request, are
  `ip` and `name`;
- a request field that is missing or falsy is `""` for ids, and `None` (an `Option`) where
  the code tells "absent" from "empty";
- balances are `real` (`parseFloat`) and prices are `int` (`parseInt`).

Three behaviours of the code a reader may not expect:

- Product ids are reused. The next id is one more than the current maximum. Deleting the
  product with the highest id makes the next id one more than the largest remaining id, which
  is at most the deleted id. `Catalog.NextProductIdAfterRemoval` states exactly when this
  happens.
- Purchase identifiers are not unique. Two purchases of the same product in the same
  millisecond get the same id, and transfer and upgrade then act on the first match.
  `Inventory.PurchaseKeyCollision` states when two ids coincide.
- A purchase declined for lack of stars, and an upgrade declined from the balance check on,
  still create the user's account, because the code runs `initUser` first. Transfers,
  grants and referrals also create the accounts they name (the recipient; both parties), but
  only when they succeed: every refusal there comes before `initUser`.

## Model

| member | source | states |
|---|---|---|
| Accounts.Registered | index.js:116-148 | `initUser` leaves the id present in the user map |
| Accounts.RegisteredFacts | index.js:116-147 | A new id gets balance 0, referral count 0 and number `|users|+1`, and the map grows by one. An existing user keeps every field except an empty IP address or username, which is filled in and never overwritten; the size is unchanged. No other record changes |
| Accounts.RegisteredConsistent | index.js:116-148 | `initUser` keeps the ledger invariant; in particular a new user's number is not already taken |
| Accounts.RegisteredNumbered | index.js:119 | Numbering users by creation order keeps numbers distinct and within `1..|users|` |
| Accounts.RegisteredCounted | index.js:116-148 | A new user's referral count of 0 matches the referrals recorded for that user: there are none |
| Accounts.Clamped | index.js:211 | `Math.max(0, balance + amount)` is never negative, is at least the sum, and is either the sum or 0 |
| Accounts.RebalancedConsistent | index.js:211-212 | Setting one user's balance to a non-negative value keeps the ledger invariant |
| Accounts.ReferredByExtend | index.js:190 | Recording a first referral of `u` by `r` adds exactly `u` to the users `r` refers, and no one to anyone else's |
| Accounts.Bumped | index.js:192-193 | The referrer, who must be known, stays known and its referral count goes up by exactly one |
| Accounts.ReferralConsistent | index.js:189-194 | A first referral of `u` by another known user `r`, together with `r`'s counter going up by one, keeps the ledger invariant |
| ArrayOps.FindIndex | index.js:301 | `findIndex` gives the first matching position, or -1 exactly when nothing matches |
| ArrayOps.RemoveAt | index.js:363 | `splice(i, 1)` shortens the list by one: the elements before `i` stay in place and the ones after it move down by one |
| ArrayOps.RemoveAtLosesOne | index.js:363 | `splice(i, 1)` loses exactly the removed element and keeps every other element |
| Decimal.Text | index.js:470 | `${i}` is non-empty, starts with a minus sign exactly when `i` is negative, and every other character is a digit |
| Decimal.NatText | index.js:470 | The digits of a natural: at least one, all decimal digits, and a single digit exactly for numbers below 10 |
| Decimal.NatTextRoundTrip | index.js:470 | Reading the digits of `${n}` back gives `n` |
| Decimal.TextRoundTrip | index.js:470 | Reading `${i}` back, sign included, gives `i` |
| Decimal.NatTextInjective | index.js:470 | Different naturals render differently |
| Decimal.TextInjective | index.js:470 | Different integers render differently |
| Catalog.InitialProducts | index.js:63-86 | The server starts with two products, ids 1 and 2, positive prices and no background |
| Catalog.ProductIndex | index.js:301-304 | The position of the first product with that id, or -1 exactly when there is none |
| Catalog.NextProductId | index.js:241 | The new id is at least 1 and above every existing id; it is 1 or one more than some existing id |
| Catalog.NextProductIdUnique | index.js:241 | Those three facts determine the new id |
| Catalog.NextProductIdAfterRemoval | index.js:241 | After a deletion the next id is unchanged, unless the deleted product held the highest id; then the next id is at most the deleted one, so ids are reused |
| Catalog.NewProduct | index.js:241-281 | The new product has the given id, name and price. Each other field takes the body's value when that is truthy and its default otherwise: `''` for availability, description and background, 'Неуникальный' for status, 'Подарок' for type, '#0098EA' for both colours and 'new' for the ribbon text. The animation is the saved upload if there is one, else the body's animation, else the default file |
| Catalog.Patched | index.js:306-340 | The update keeps the id. Name, price, status, type, animation and both colours are overwritten exactly when the body's value is truthy. Availability, description, background and ribbon text are overwritten exactly when the body supplies them, even as `''`. A saved upload then replaces the animation |
| Catalog.PatchedIdempotent | index.js:306-316 | An update with an empty body changes nothing, and applying the same update twice equals applying it once |
| Inventory.PurchaseKey | index.js:470 | `${productId}_${time}` starts with a digit or a minus sign |
| Inventory.TransferKey | index.js:543 | `transfer_${productId}_${time}` starts with `t`, so it never looks like a purchase id |
| Inventory.PurchaseKeyCollision | index.js:470 | Two purchase ids are equal exactly when product and time are equal |
| Inventory.TransferKeyCollision | index.js:543 | Two transfer ids are equal exactly when product and time are equal, and no transfer id equals a purchase id |
| Inventory.Bought | index.js:467-471 | The bought gift is an un-upgraded copy of the product with purchase id `PurchaseKey(productId, now)`, time `now` and no provenance or comment |
| Inventory.Moved | index.js:541-548 | The transferred gift keeps the product copy and any upgrade. Its purchase id is `TransferKey(productId, now)`, `transferredBy` is the sender, `transferredFrom` the old purchase id, and its comment is the given one or `''` |
| Inventory.Granted | index.js:609-615 | The granted gift is an un-upgraded copy of the product with purchase id `TransferKey(giftId, now)`, `transferredBy` 'admin' and the given comment or `''` |
| Inventory.WithUpgrade | index.js:750-758 | The upgraded gift is marked upgraded at `now` and takes the option's model, symbol, percentages and upgrade background. The option's background overwrites the product copy's background, and nothing else of the gift changes |
| Inventory.NewOption | index.js:808-869 | Each text field of a new option is the body's value when truthy and its default otherwise (`''`, or '0%' for the percentages). A saved upgrade-background upload wins over the text field. The three image fields exist exactly when their upload was saved |
| Inventory.OptionsOf | index.js:737-738 | The options registered for a product, or none when the map has no entry for it |
| Inventory.GiftIndex | index.js:519 | The first gift with that purchase id, or -1 exactly when the inventory has none |
| Inventory.PickIndex | index.js:743 | `Math.floor(r * n)` is a valid index into `n` options |
| Inventory.PickIndexReachesEvery | index.js:743 | Every option can be drawn: the draw `k/n` picks option `k` |
| Inventory.Unlisted | index.js:896 | After `delete`, the key order holds exactly the remaining keys |
| Inventory.UnlistedKeepsOrder | index.js:896 | The deletion works piece by piece along the key order, dropping the deleted key and keeping every other key in its place, so the remaining keys keep their order |
| Inventory.UnlistedDistinct | index.js:896 | Deleting a key keeps every other key listed once |
| Inventory.UnlistedIndexed | index.js:896 | Deleting a key from both the map and the key order keeps the two in step |
| Inventory.Tagged | index.js:783-786 | One entry per option, in order, each carrying the product id and the option |
| Inventory.Flatten | index.js:780-788 | Every listed entry carries a key of the map and one of the options registered under it |
| Inventory.FlattenContents | index.js:780-788 | An entry is in the listing exactly when its product id is a key and its option is registered under that key |
| Inventory.Collect | index.js:780-788 | The nested `forEach` loop pushes exactly the flattened listing, product by product in insertion order |
| Inventory.TotalRemove | index.js:525-550 | The shop's total gift count splits as any one inventory plus all the others |
| Inventory.TotalUpdate | index.js:525-550 | Replacing one inventory changes the total by the difference of the two lengths |
| Shop.Holding | index.js:497 | The recorded inventory, or the empty list for a user without one (`get(id)` falling back to `[]`) |
| Shop.BalanceOf | index.js:442-446 | The balance `initUser` leaves: the recorded one, or 0 for a user not yet known |
| Shop.RegisteredBalance | index.js:442-446 | After `initUser`, the balance the handler reads is the recorded one, or 0 for a new user |
| Shop.RegisteredKeepsBalances | index.js:116-148 | `initUser` moves no stars: every known user is still known, with the same balance |
| Shop.RegisteredSound | index.js:116-148 | A ledger whose only account change is an `initUser` is sound |
| Shop.Charged | index.js:442-458 | After `initUser` and the new balance, the user is known and holds exactly that balance |
| Shop.ChargedSound | index.js:456-458 | A ledger whose only account changes are an `initUser` and a new non-negative balance for that user is sound |
| Shop.Referred | index.js:186-193 | After both `initUser` calls and the counter increment, both parties are known users |
| Shop.ReferralOutcome | index.js:173-203 | A referral never touches inventories |
| Shop.ReferralRefusals | index.js:176-183 | A referral succeeds exactly when both ids are present and distinct and the user has no referrer yet. A missing id or a self-referral is InvalidInput; an existing referrer is AlreadyReferred. Every refusal changes nothing |
| Shop.ReferralRecorded | index.js:190 | On success the referral map gains exactly the new pair, and every existing referrer is kept |
| Shop.ReferralCounts | index.js:186-193 | On success the referrer's count rises by exactly one (from 0 for a new referrer), the answer is the referrer's record, and other accounts are untouched |
| Shop.ReferralKeepsBalances | index.js:186-193 | A referral moves no stars. On success the referred user's record is exactly the one `initUser` left, and the referrer's is the one `initUser` left with its count raised by one, so its balance is the recorded one or 0 |
| Shop.ReferredSound | index.js:186-193 | Both registrations plus the new pair plus the counter increment keep the ledger sound |
| Shop.ReferralKeepsSound | index.js:173-203 | Every referral outcome leaves a sound ledger |
| Shop.BuyOutcome | index.js:424-491 | A purchase never touches the referral map |
| Shop.BuyRefusals | index.js:431-454 | A missing user id is InvalidInput and an unknown product is NotFound, both changing nothing. A purchase succeeds exactly when the balance covers the price; otherwise the answer carries the price and the balance. A refusal moves no gift and no star |
| Shop.BuyCharges | index.js:442-483 | On success the buyer's balance drops by exactly the price, the answer is the product and that balance, and other accounts are untouched |
| Shop.BuyAppends | index.js:460-474 | On success exactly one gift is appended to the buyer's inventory: a copy of the product with purchase id `productId_now`. No other inventory changes |
| Shop.BuyKeepsSound | index.js:424-491 | Every purchase outcome leaves a sound ledger, so no balance goes negative |
| Shop.BuyAddsOneGift | index.js:460-474 | A purchase adds exactly one gift to the shop's total, and a refusal adds none |
| Shop.TransferOutcome | index.js:506-578 | A transfer never touches the referral map |
| Shop.TransferRefusals | index.js:509-523 | A missing id is InvalidInput and a self-transfer is SelfTransfer. A transfer succeeds exactly when the sender holds a gift with that purchase id. Every refusal changes nothing |
| Shop.TransferMoves | index.js:525-577 | On success the gift leaves the sender's list, which keeps the order of the rest. It is appended to the recipient's list with `transferredBy` the sender and `transferredFrom` the old purchase id, keeping the product copy and any upgrade. The two lengths sum as before, other inventories and all balances are unchanged, and the answer describes the move |
| Shop.TransferKeepsSound | index.js:506-578 | Every transfer outcome leaves a sound ledger |
| Shop.TransferKeepsGiftCount | index.js:525-550 | A transfer neither creates nor destroys gifts |
| Shop.GrantOutcome | index.js:581-654 | An admin grant never touches the referral map |
| Shop.GrantRefusals | index.js:584-596 | A non-admin is Unauthorized, a missing user or gift id is InvalidInput, and an unknown product is NotFound. A grant succeeds exactly when none of these applies. Every refusal changes nothing |
| Shop.GrantDelivers | index.js:598-637 | On success one copy of the product, marked `transferredBy = 'admin'`, is appended to the user's inventory. The answer names that product and the user's number. No balance changes anywhere, and no other inventory changes |
| Shop.GrantKeepsSound | index.js:581-654 | Every grant outcome leaves a sound ledger |
| Shop.GrantAddsOneGift | index.js:601-617 | A grant adds exactly one gift to the shop's total, and a refusal adds none |
| Shop.UpgradeOutcome | index.js:699-770 | An upgrade never touches the referral map |
| Shop.UpgradeChecks | index.js:702-740 | The checks run in the code's order: missing ids; a balance below 25, answered with `needTopUp`; no such gift; already upgraded; no options. The upgrade succeeds exactly when all pass. A refusal charges nothing and changes no inventory |
| Shop.UpgradeCharges | index.js:745-747 | On success exactly 25 stars are taken, the answer carries the new balance, and other accounts are untouched |
| Shop.UpgradeApplies | index.js:743-760 | On success the chosen gift is replaced in place by its upgraded copy, with the look of one of the product's options. The user's other gifts and other users' inventories are unchanged |
| Shop.UpgradeKeepsSound | index.js:699-770 | Every upgrade outcome leaves a sound ledger |
| Shop.UpgradeKeepsGiftCount | index.js:743-760 | An upgrade keeps the shop's gift count |
| Shop.UpgradeIsOneShot | index.js:731-734 | Being upgraded is terminal: asking again for the same gift is refused, whatever the draw, and changes no inventory |
| Shop.Store.constructor | index.js:58-89 | The server starts with no users, referrals, inventories or upgrade options, with the two initial products, and in a valid state |
| Shop.Store.InitUser | index.js:116-169 | The user map becomes `Registered` of the old one, the answer is the user's record, and validity is kept |
| Shop.Store.ProcessReferral | index.js:173-203 | Applies `ReferralOutcome` to the fields and keeps validity |
| Shop.Store.AdjustBalance | index.js:206-218 | The user's balance becomes `Clamped(old balance, amount)`, which is never negative. Nothing else of that user changes, and validity is kept |
| Shop.Store.GiveBalance | index.js:397-421 | A non-admin is Unauthorized and an amount `<= 0` is InvalidInput, neither changing anything. Otherwise the user's balance grows by exactly the amount, unclamped |
| Shop.Store.AddProduct | index.js:229-289 | A non-admin is Unauthorized and a missing name or price is InvalidInput, neither changing the catalog. Otherwise `NewProduct` with the next id is appended; its id is above every existing id, and product ids stay distinct |
| Shop.Store.UpdateProduct | index.js:292-346 | A non-admin is Unauthorized and an unknown id is NotFound, neither changing the catalog. Otherwise only that entry is replaced, by its patched version |
| Shop.Store.DeleteProduct | index.js:349-369 | A non-admin is Unauthorized and an unknown id is NotFound, neither changing the catalog. Otherwise exactly that entry is removed: the catalog shrinks by one, the order of the rest is kept, and no product has that id any more |
| Shop.Store.ListInventory | index.js:494-503 | Answers the user's gift list, or the empty list for an unknown user, without changing anything |
| Shop.Store.Buy | index.js:424-491 | Applies `BuyOutcome` to the fields and keeps validity |
| Shop.Store.TransferGift | index.js:506-578 | Applies `TransferOutcome` to the fields and keeps validity |
| Shop.Store.AdminTransferGift | index.js:581-654 | Applies `GrantOutcome` to the fields and keeps validity |
| Shop.Store.UpgradeGift | index.js:699-770 | Applies `UpgradeOutcome` to the fields and keeps validity |
| Shop.Store.ListUpgrades | index.js:773-794 | A non-admin is Unauthorized; otherwise the answer is the flattened listing |
| Shop.Store.AddUpgrade | index.js:797-885 | A non-admin is Unauthorized and a missing gift id is InvalidInput, neither changing anything. Otherwise the new option, built with its defaults, is appended after the earlier ones for that product; a product new to the map goes last in the key order |
| Shop.Store.DeleteUpgrades | index.js:888-902 | A non-admin is Unauthorized and nothing changes. Otherwise the product's whole option list is removed, present or not, and its key leaves the key order |

## Left out

- Express routing, JSON parsing, static file and TGS serving, and the HTTP status codes.
  A refusal is a `Refusal` value.
- Uploads: base64 decoding and `fs.writeFileSync` of product and upgrade assets. The model
  receives the saved path, if any, as an optional string. A failed write is the same as no
  upload.
- Telegram notifications to the admin: fire-and-forget network calls.
- The admin-password route, which compares against an environment variable, and `console`
  logging.
- The `try`/`catch` that turns an exception in the buy handler into a 500. No modelled step
  throws.
- Date formatting with `toLocaleDateString` and the +3h offset. The transfer and grant
  records carry the raw timestamp.
- The read-only routes GET /api/products and GET /api/admin/users. They return a field as
  it is.
- JavaScript coercions:
  - amounts and prices arrive already parsed (`real` and `int`);
  - `parseInt` of a non-numeric product or gift id (NaN) is not represented;
  - the raw `giftId` string of the admin grant is the same integer as its parsed value;
  - `null` and `undefined` are `""` or `None`.
- Ids are strings throughout. A JSON body can also carry a number, and a JavaScript `Map`
  keys `5` and `"5"` apart, as `===` tells them apart. Shop.ReferralOutcome, Shop.BuyOutcome,
  Shop.TransferOutcome, Shop.GrantOutcome and Shop.UpgradeOutcome take their user ids from
  the body. The model treats a numeric id as the same user as its decimal string, so an
  account created under a numeric key, distinct from the string key of the same digits, is
  not represented.
- Number width: `${n}` switches to exponent notation from 10^21, and JavaScript numbers lose
  integer precision above 2^53. Decimal.Text and the unbounded `int` ids and `nat`
  timestamps model neither. Timestamps from `Date.now()` stay far below both bounds.
- Accounts.Registered: its own contract states only that the id becomes present. The full
  description is the lemma `Accounts.RegisteredFacts`, kept separate so that proofs that
  mention the function do not carry it.
- Inventory.PickIndex: the draw is a parameter. Its uniformity, and the fact that
  `Math.random()` rarely returns an exact fraction, are not modelled. The model proves only
  that every index is valid and every option reachable.
- One `now` per request: a handler that reads `Date.now()` more than once is modelled with a
  single timestamp. Examples are `created_at` inside `initUser` and the upgrade time.
- Shop.Store.ProcessReferral, Shop.Store.Buy, Shop.Store.TransferGift,
  Shop.Store.AdminTransferGift, Shop.Store.UpgradeGift: each applies a whole transition of
  the ledger value at once. The intermediate states are not modelled, and neither is object
  identity: the JavaScript mutates records and gift objects after storing them in the maps,
  and the upgrade mutates the gift object in place inside the inventory list. The end state
  is the same because each handler runs to completion without interleaving.
