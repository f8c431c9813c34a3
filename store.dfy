/**
 * The server's in-memory state and its HTTP handlers (index.js). Each handler is one method
 * of `Store`, which checks its inputs in the order the route does and then updates the maps
 * and lists. `Date.now()` is the parameter `now`, `Math.random()` the parameter `r`, and the
 * IP address and username the middleware attaches to each request are `ip` and `name`.
 *
 * The five handlers that change several of the user-facing maps at once (referral, buy,
 * transfer, admin grant, upgrade) are given first as transitions of the value `Ledger`;
 * their `Store` methods apply the transition to the fields.
 */
module Shop {
  import opened Wrappers
  import opened ArrayOps
  import opened Catalog
  import opened Inventory
  import opened Accounts

  /** The one user id the admin routes accept. */
  const AdminId := "8387706094"

  /** The fixed price of an upgrade, in stars. */
  const UpgradeCost: real := 25.0

  /** What the transfer records show when the request carries no comment. */
  const NoComment := "Без комментария"

  /** Why a handler answered `success: false`. */
  datatype Refusal =
    | Unauthorized       // 403 "Access denied"
    | InvalidInput       // 400: a required field is missing, or the amount is not positive
    | SelfTransfer       // 400: sender and recipient are the same user
    | NotFound           // 404: unknown product, or no such gift in the inventory
    | AlreadyReferred    // the user already has a referrer
    | Insufficient(required: real, current: real, needTopUp: bool)
    | AlreadyUpgraded
    | UpgradesUnavailable

  datatype Result<T> = Ok(value: T) | Err(why: Refusal)

  /** What a successful purchase answers: the product and the buyer's new balance. */
  datatype Sale = Sale(product: Product, newBalance: real)

  /** The `transfer` object of a peer transfer; `transferTime` is the timestamp the date is formatted from. */
  datatype TransferRecord = TransferRecord(
    giftName: string, giftId: int, fromUserId: string, toUserId: string,
    comment: string, transferTime: nat)

  /** The `transferDetails` of an admin grant. */
  datatype GrantRecord = GrantRecord(
    giftName: string, giftId: int, recipientId: string, recipientUserNumber: nat,
    adminId: string, comment: string, timestamp: nat)

  datatype UpgradeReceipt = UpgradeReceipt(newBalance: real, upgradedGift: Gift)

  // ---------------------------------------------------------------------------------------
  // The user-facing maps as a value

  /** `users`, `referrals` and `userInventories`. */
  datatype Ledger = Ledger(
    users: map<string, Account>,
    referrals: map<string, string>,
    inventories: map<string, seq<Gift>>)

  /** A handler's answer together with the ledger it leaves behind. */
  datatype Answer<T> = Answer(res: Result<T>, after: Ledger)

  /** `userInventories.get(userId) || []` */
  function Holding(inventories: map<string, seq<Gift>>, userId: string): (h: seq<Gift>)
    ensures userId in inventories ==> h == inventories[userId]
    ensures userId !in inventories ==> h == []
  {
    if userId in inventories then inventories[userId] else []
  }

  /** The balance `initUser` leaves a user with: the recorded one, or 0 for a new user. */
  function BalanceOf(users: map<string, Account>, userId: string): (b: real)
    ensures userId in users ==> b == users[userId].balance
    ensures userId !in users ==> b == 0.0
  {
    if userId in users then users[userId].balance else 0.0
  }

  /** The account invariants, and every inventory belongs to a known user. */
  ghost predicate Sound(l: Ledger) {
    Consistent(l.users, l.referrals) && (forall u :: u in l.inventories ==> u in l.users)
  }

  /** Every known user is still known, with the same balance. */
  ghost predicate SameBalances(before: map<string, Account>, after: map<string, Account>) {
    forall u :: u in before ==> u in after && after[u].balance == before[u].balance
  }

  /** After `initUser` the user's balance is the one `BalanceOf` reads. */
  lemma RegisteredBalance(users: map<string, Account>, id: string, ip: string, name: string, now: nat)
    ensures Registered(users, id, ip, name, now)[id].balance == BalanceOf(users, id)
  {
    var r := Registered(users, id, ip, name, now);
    if id in users {
      assert r[id].(ipAddress := users[id].ipAddress, username := users[id].username) == users[id];
    }
  }

  /** `initUser` moves no stars. */
  lemma RegisteredKeepsBalances(users: map<string, Account>, id: string, ip: string, name: string, now: nat)
    ensures SameBalances(users, Registered(users, id, ip, name, now))
  {
    var r := Registered(users, id, ip, name, now);
    forall u | u in users
      ensures u in r && r[u].balance == users[u].balance
    {
      if u == id {
        assert r[u].(ipAddress := users[u].ipAddress, username := users[u].username) == users[u];
      }
    }
  }

  /** A ledger whose only account change is the registration of `id` is sound. */
  lemma RegisteredSound(l: Ledger, after: Ledger, id: string, ip: string, name: string, now: nat)
    requires Sound(l)
    requires after.referrals == l.referrals
    requires forall u :: u in after.inventories ==> u in l.inventories || u == id
    requires after.users == Registered(l.users, id, ip, name, now)
    ensures Sound(after)
  {
    RegisteredConsistent(l.users, l.referrals, id, ip, name, now);
  }

  /** The user map after `initUser(id)` followed by setting that user's balance to `b`. */
  function Charged(users: map<string, Account>, id: string, ip: string, name: string, now: nat, b: real)
    : (c: map<string, Account>)
    ensures id in c && c[id].balance == b
  {
    var registered := Registered(users, id, ip, name, now);
    registered[id := registered[id].(balance := b)]
  }

  /** A ledger whose only account changes are the registration of `id` and a new, non-negative balance for it is sound. */
  lemma ChargedSound(l: Ledger, after: Ledger, id: string, ip: string, name: string, now: nat, b: real)
    requires Sound(l)
    requires after.referrals == l.referrals
    requires forall u :: u in after.inventories ==> u in l.inventories || u == id
    requires b >= 0.0
    requires after.users == Charged(l.users, id, ip, name, now, b)
    ensures Sound(after)
  {
    var users := Registered(l.users, id, ip, name, now);
    RegisteredConsistent(l.users, l.referrals, id, ip, name, now);
    RebalancedConsistent(users, l.referrals, id, b);
  }

  // ---------------------------------------------------------------------------------------
  // POST /api/referral

  /** The user map after a first referral: both users registered, the referrer's counter bumped. */
  function Referred(users: map<string, Account>, userId: string, referrerId: string, ip: string, name: string, now: nat)
    : (r: map<string, Account>)
    ensures userId in r && referrerId in r
  {
    Bumped(Registered(Registered(users, userId, ip, name, now), referrerId, ip, name, now), referrerId)
  }

  /** The outcome of POST /api/referral: `referrerId` becomes the referrer of `userId`, once. */
  function ReferralOutcome(l: Ledger, userId: string, referrerId: string, ip: string, name: string, now: nat)
    : (a: Answer<Account>)
    ensures a.after.inventories == l.inventories
  {
    if userId == "" || referrerId == "" || userId == referrerId then Answer(Err(InvalidInput), l)
    else if userId in l.referrals then Answer(Err(AlreadyReferred), l)
    else
      var users := Referred(l.users, userId, referrerId, ip, name, now);
      Answer(Ok(users[referrerId]), l.(users := users, referrals := l.referrals[userId := referrerId]))
  }

  /** A referral is refused when an id is missing, names the caller, or the caller already has a referrer; a refusal changes nothing. */
  lemma ReferralRefusals(l: Ledger, userId: string, referrerId: string, ip: string, name: string, now: nat)
    ensures var a := ReferralOutcome(l, userId, referrerId, ip, name, now);
            && (a.res.Ok? <==> userId != "" && referrerId != "" && userId != referrerId && userId !in l.referrals)
            && (userId == "" || referrerId == "" || userId == referrerId ==> a.res == Err(InvalidInput))
            && (userId != "" && referrerId != "" && userId != referrerId && userId in l.referrals ==>
                  a.res == Err(AlreadyReferred))
            && (a.res.Err? ==> a.after == l)
  {
  }

  /** An accepted referral records exactly the new pair and never replaces an existing referrer. */
  lemma ReferralRecorded(l: Ledger, userId: string, referrerId: string, ip: string, name: string, now: nat)
    requires userId != "" && referrerId != "" && userId != referrerId && userId !in l.referrals
    ensures var a := ReferralOutcome(l, userId, referrerId, ip, name, now);
            && a.res.Ok?
            && a.after.referrals.Keys == l.referrals.Keys + {userId}
            && a.after.referrals[userId] == referrerId
            && (forall u :: u in l.referrals ==> a.after.referrals[u] == l.referrals[u])
  {
    var a := ReferralOutcome(l, userId, referrerId, ip, name, now);
    assert a.after.referrals == l.referrals[userId := referrerId];
  }

  /**
   * An accepted referral raises the referrer's counter by one, answers the referrer's record,
   * and leaves every other account as it was.
   */
  lemma ReferralCounts(l: Ledger, userId: string, referrerId: string, ip: string, name: string, now: nat)
    requires userId != "" && referrerId != "" && userId != referrerId && userId !in l.referrals
    ensures var a := ReferralOutcome(l, userId, referrerId, ip, name, now);
            && a.res.Ok?
            && referrerId in a.after.users && a.after.users[referrerId] == a.res.value
            && a.res.value.referralsCount ==
                 (if referrerId in l.users then l.users[referrerId].referralsCount else 0) + 1
            && (forall u :: u in l.users && u != userId && u != referrerId ==> a.after.users[u] == l.users[u])
  {
    var a := ReferralOutcome(l, userId, referrerId, ip, name, now);
    var once := Registered(l.users, userId, ip, name, now);
    var twice := Registered(once, referrerId, ip, name, now);
    assert a == Answer(Ok(Bumped(twice, referrerId)[referrerId]),
                       l.(users := Bumped(twice, referrerId), referrals := l.referrals[userId := referrerId]));
    assert twice[referrerId].referralsCount ==
             (if referrerId in l.users then l.users[referrerId].referralsCount else 0) by {
      if referrerId in l.users {
        assert once[referrerId] == l.users[referrerId];
        assert twice[referrerId].(ipAddress := once[referrerId].ipAddress, username := once[referrerId].username)
               == once[referrerId];
      }
    }
    forall u | u in l.users && u != userId && u != referrerId
      ensures a.after.users[u] == l.users[u]
    {
      assert twice[u] == once[u] == l.users[u];
    }
  }

  /**
   * A referral moves no stars. On success the referred user's record is the one `initUser`
   * left, and the referrer's is the one `initUser` left with its count raised by one.
   */
  lemma ReferralKeepsBalances(l: Ledger, userId: string, referrerId: string, ip: string, name: string, now: nat)
    ensures var a := ReferralOutcome(l, userId, referrerId, ip, name, now);
            && SameBalances(l.users, a.after.users)
            && (a.res.Ok? ==>
                  var once := Registered(l.users, userId, ip, name, now);
                  var twice := Registered(once, referrerId, ip, name, now);
                  && userId in a.after.users && a.after.users[userId] == once[userId]
                  && referrerId in a.after.users
                  && a.after.users[referrerId] == twice[referrerId].(referralsCount := twice[referrerId].referralsCount + 1)
                  && a.after.users[referrerId].balance == BalanceOf(l.users, referrerId))
  {
    var a := ReferralOutcome(l, userId, referrerId, ip, name, now);
    if userId != "" && referrerId != "" && userId != referrerId && userId !in l.referrals {
      var once := Registered(l.users, userId, ip, name, now);
      var twice := Registered(once, referrerId, ip, name, now);
      var after := Bumped(twice, referrerId);
      assert a.after.users == after;
      RegisteredKeepsBalances(l.users, userId, ip, name, now);
      RegisteredKeepsBalances(once, referrerId, ip, name, now);
      RegisteredBalance(once, referrerId, ip, name, now);
      RegisteredKeepsBalances(l.users, referrerId, ip, name, now);
      assert BalanceOf(once, referrerId) == BalanceOf(l.users, referrerId);
      assert after[userId] == twice[userId] == once[userId];
      forall u | u in l.users
        ensures u in after && after[u].balance == l.users[u].balance
      {
        assert twice[u].balance == once[u].balance == l.users[u].balance;
      }
    }
  }

  /** A ledger whose only account changes are those of a first referral of `userId` by `referrerId` is sound. */
  lemma ReferredSound(l: Ledger, after: Ledger, userId: string, referrerId: string, ip: string, name: string, now: nat)
    requires Sound(l)
    requires userId != referrerId && userId !in l.referrals
    requires after == Ledger(Referred(l.users, userId, referrerId, ip, name, now),
                             l.referrals[userId := referrerId], l.inventories)
    ensures Sound(after)
  {
    var once := Registered(l.users, userId, ip, name, now);
    RegisteredConsistent(l.users, l.referrals, userId, ip, name, now);
    RegisteredConsistent(once, l.referrals, referrerId, ip, name, now);
    ReferralConsistent(Registered(once, referrerId, ip, name, now), l.referrals, userId, referrerId);
  }

  lemma ReferralKeepsSound(l: Ledger, userId: string, referrerId: string, ip: string, name: string, now: nat)
    requires Sound(l)
    ensures Sound(ReferralOutcome(l, userId, referrerId, ip, name, now).after)
  {
    var a := ReferralOutcome(l, userId, referrerId, ip, name, now);
    if a.res.Ok? {
      ReferredSound(l, a.after, userId, referrerId, ip, name, now);
    }
  }

  // ---------------------------------------------------------------------------------------
  // POST /api/products/:productId/buy

  /** The outcome of POST /api/products/:productId/buy. */
  function BuyOutcome(l: Ledger, products: seq<Product>, productId: int,
                      userId: string, ip: string, name: string, now: nat): (a: Answer<Sale>)
    ensures a.after.referrals == l.referrals
  {
    if userId == "" then Answer(Err(InvalidInput), l)
    else
      var i := ProductIndex(products, productId);
      if i == -1 then Answer(Err(NotFound), l)
      else
        var p := products[i];
        var users := Registered(l.users, userId, ip, name, now);
        var balance := users[userId].balance;
        if balance < p.price as real then
          Answer(Err(Insufficient(p.price as real, balance, false)), l.(users := users))
        else
          var left := balance - p.price as real;
          Answer(Ok(Sale(p, left)),
                 l.(users := Charged(l.users, userId, ip, name, now, left),
                    inventories := l.inventories[userId := Holding(l.inventories, userId) + [Bought(p, now)]]))
  }

  /**
   * A purchase is refused without a user id, for an unknown product, or when the balance is
   * below the price (answering the price and the balance); a refusal moves no gift and no star.
   */
  lemma BuyRefusals(l: Ledger, products: seq<Product>, productId: int,
                    userId: string, ip: string, name: string, now: nat)
    ensures var a := BuyOutcome(l, products, productId, userId, ip, name, now);
            var i := ProductIndex(products, productId);
            && (userId == "" ==> a == Answer(Err(InvalidInput), l))
            && (userId != "" && i == -1 ==> a == Answer(Err(NotFound), l))
            && (a.res.Ok? <==> userId != "" && i >= 0 && BalanceOf(l.users, userId) >= products[i].price as real)
            && (userId != "" && i >= 0 && BalanceOf(l.users, userId) < products[i].price as real ==>
                  a.res == Err(Insufficient(products[i].price as real, BalanceOf(l.users, userId), false)))
            && (a.res.Err? ==> a.after.inventories == l.inventories && SameBalances(l.users, a.after.users))
  {
    RegisteredKeepsBalances(l.users, userId, ip, name, now);
  }

  /**
   * A successful purchase takes exactly the price from the buyer, answers the product and the
   * new balance, and leaves every other account as it was.
   */
  lemma BuyCharges(l: Ledger, products: seq<Product>, productId: int,
                   userId: string, ip: string, name: string, now: nat)
    ensures var a := BuyOutcome(l, products, productId, userId, ip, name, now);
            a.res.Ok? ==>
              var p := products[ProductIndex(products, productId)];
              && a.res.value == Sale(p, BalanceOf(l.users, userId) - p.price as real)
              && userId in a.after.users
              && a.after.users[userId].balance == BalanceOf(l.users, userId) - p.price as real
              && (forall u :: u in l.users && u != userId ==> u in a.after.users && a.after.users[u] == l.users[u])
  {
    var a := BuyOutcome(l, products, productId, userId, ip, name, now);
    if a.res.Ok? {
      var p := products[ProductIndex(products, productId)];
      var registered := Registered(l.users, userId, ip, name, now);
      var left := registered[userId].balance - p.price as real;
      RegisteredBalance(l.users, userId, ip, name, now);
      assert a.res == Ok(Sale(p, left));
      assert a.after.users == Charged(l.users, userId, ip, name, now, left);
      forall u | u in l.users && u != userId
        ensures u in a.after.users && a.after.users[u] == l.users[u]
      {
        assert registered[u] == l.users[u];
      }
    }
  }

  /**
   * A successful purchase appends exactly one gift, a copy of the product with purchase id
   * `productId_now`, to the buyer's inventory; no other inventory changes.
   */
  lemma BuyAppends(l: Ledger, products: seq<Product>, productId: int,
                   userId: string, ip: string, name: string, now: nat)
    ensures var a := BuyOutcome(l, products, productId, userId, ip, name, now);
            a.res.Ok? ==>
              var p := products[ProductIndex(products, productId)];
              && Holding(a.after.inventories, userId) == Holding(l.inventories, userId) + [Bought(p, now)]
              && Bought(p, now).item == p
              && Bought(p, now).purchaseId == PurchaseKey(productId, now)
              && (forall u :: u != userId ==> Holding(a.after.inventories, u) == Holding(l.inventories, u))
  {
    var a := BuyOutcome(l, products, productId, userId, ip, name, now);
    if a.res.Ok? {
      var p := products[ProductIndex(products, productId)];
      assert a.after.inventories == l.inventories[userId := Holding(l.inventories, userId) + [Bought(p, now)]];
    }
  }

  lemma BuyKeepsSound(l: Ledger, products: seq<Product>, productId: int,
                      userId: string, ip: string, name: string, now: nat)
    requires Sound(l)
    ensures Sound(BuyOutcome(l, products, productId, userId, ip, name, now).after)
  {
    var a := BuyOutcome(l, products, productId, userId, ip, name, now);
    if userId != "" && ProductIndex(products, productId) >= 0 {
      var users := Registered(l.users, userId, ip, name, now);
      var p := products[ProductIndex(products, productId)];
      if users[userId].balance < p.price as real {
        assert a.after == l.(users := users);
        RegisteredSound(l, a.after, userId, ip, name, now);
      } else {
        ChargedSound(l, a.after, userId, ip, name, now, users[userId].balance - p.price as real);
      }
    }
  }

  /** A purchase adds exactly one gift to the shop's gift count; a refusal adds none. */
  lemma BuyAddsOneGift(l: Ledger, products: seq<Product>, productId: int,
                       userId: string, ip: string, name: string, now: nat)
    ensures var a := BuyOutcome(l, products, productId, userId, ip, name, now);
            Total(a.after.inventories) == Total(l.inventories) + (if a.res.Ok? then 1 else 0)
  {
    var a := BuyOutcome(l, products, productId, userId, ip, name, now);
    if userId != "" && ProductIndex(products, productId) >= 0 {
      var p := products[ProductIndex(products, productId)];
      if Registered(l.users, userId, ip, name, now)[userId].balance < p.price as real {
        assert a.res.Err? && a.after.inventories == l.inventories;
      } else {
        var v := Holding(l.inventories, userId) + [Bought(p, now)];
        assert a.res.Ok? && a.after.inventories == l.inventories[userId := v];
        TotalUpdate(l.inventories, userId, v);
      }
    } else {
      assert a.after == l;
    }
  }

  // ---------------------------------------------------------------------------------------
  // POST /api/transfer-gift

  /** The outcome of POST /api/transfer-gift: one gift moves from the sender's inventory to the recipient's. */
  function TransferOutcome(l: Ledger, fromUserId: string, toUserId: string, giftPurchaseId: string,
                           comment: Option<string>, ip: string, name: string, now: nat): (a: Answer<TransferRecord>)
    ensures a.after.referrals == l.referrals
  {
    if fromUserId == "" || toUserId == "" || giftPurchaseId == "" then Answer(Err(InvalidInput), l)
    else if fromUserId == toUserId then Answer(Err(SelfTransfer), l)
    else
      var sent := Holding(l.inventories, fromUserId);
      var i := GiftIndex(sent, giftPurchaseId);
      if i == -1 then Answer(Err(NotFound), l)
      else
        var gift := sent[i];
        var inventories := l.inventories[fromUserId := RemoveAt(sent, i)];
        var users := Registered(l.users, toUserId, ip, name, now);
        var inventories := inventories[toUserId := Holding(inventories, toUserId) + [Moved(gift, fromUserId, comment, now)]];
        Answer(Ok(TransferRecord(gift.item.name, gift.item.id, fromUserId, toUserId, Or(comment, NoComment), now)),
               l.(users := users, inventories := inventories))
  }

  /**
   * A transfer is refused when an id is missing, when sender and recipient coincide, or when
   * the sender holds no gift with that purchase id; a refusal changes nothing.
   */
  lemma TransferRefusals(l: Ledger, fromUserId: string, toUserId: string, giftPurchaseId: string,
                         comment: Option<string>, ip: string, name: string, now: nat)
    ensures var a := TransferOutcome(l, fromUserId, toUserId, giftPurchaseId, comment, ip, name, now);
            && (fromUserId == "" || toUserId == "" || giftPurchaseId == "" ==> a.res == Err(InvalidInput))
            && (fromUserId != "" && toUserId != "" && giftPurchaseId != "" && fromUserId == toUserId ==>
                  a.res == Err(SelfTransfer))
            && (a.res.Ok? <==>
                  fromUserId != "" && toUserId != "" && giftPurchaseId != "" && fromUserId != toUserId &&
                  GiftIndex(Holding(l.inventories, fromUserId), giftPurchaseId) >= 0)
            && (a.res.Err? ==> a.after == l)
  {
  }

  /**
   * A transfer moves the gift: it leaves the sender's inventory (the rest keep their order) and
   * is appended to the recipient's, stamped with who sent it and its old purchase id and still
   * carrying any upgrade; the two inventories hold as many gifts as before, nobody else's
   * inventory changes, and no balance changes.
   */
  lemma TransferMoves(l: Ledger, fromUserId: string, toUserId: string, giftPurchaseId: string,
                      comment: Option<string>, ip: string, name: string, now: nat)
    ensures var a := TransferOutcome(l, fromUserId, toUserId, giftPurchaseId, comment, ip, name, now);
            && SameBalances(l.users, a.after.users)
            && (forall u :: u != fromUserId && u != toUserId ==> Holding(a.after.inventories, u) == Holding(l.inventories, u))
            && (a.res.Ok? ==>
                  var sent := Holding(l.inventories, fromUserId);
                  var i := GiftIndex(sent, giftPurchaseId);
                  var moved := Moved(sent[i], fromUserId, comment, now);
                  && Holding(a.after.inventories, fromUserId) == sent[..i] + sent[i + 1..]
                  && Holding(a.after.inventories, toUserId) == Holding(l.inventories, toUserId) + [moved]
                  && |Holding(a.after.inventories, fromUserId)| + |Holding(a.after.inventories, toUserId)| ==
                       |sent| + |Holding(l.inventories, toUserId)|
                  && moved.transferredBy == Some(fromUserId) && moved.transferredFrom == Some(giftPurchaseId)
                  && moved.item == sent[i].item && moved.look == sent[i].look
                  && a.res.value == TransferRecord(sent[i].item.name, sent[i].item.id, fromUserId, toUserId,
                                                   Or(comment, NoComment), now))
  {
    var a := TransferOutcome(l, fromUserId, toUserId, giftPurchaseId, comment, ip, name, now);
    RegisteredKeepsBalances(l.users, toUserId, ip, name, now);
    if a.res.Ok? {
      var sent := Holding(l.inventories, fromUserId);
      var i := GiftIndex(sent, giftPurchaseId);
      var gift := sent[i];
      var taken := l.inventories[fromUserId := RemoveAt(sent, i)];
      assert RemoveAt(sent, i) == sent[..i] + sent[i + 1..];
      assert Holding(taken, toUserId) == Holding(l.inventories, toUserId);
      assert a == Answer(Ok(TransferRecord(gift.item.name, gift.item.id, fromUserId, toUserId, Or(comment, NoComment), now)),
                         l.(users := Registered(l.users, toUserId, ip, name, now),
                            inventories := taken[toUserId := Holding(taken, toUserId) + [Moved(gift, fromUserId, comment, now)]]));
    } else {
      assert a.after == l;
    }
  }

  lemma TransferKeepsSound(l: Ledger, fromUserId: string, toUserId: string, giftPurchaseId: string,
                           comment: Option<string>, ip: string, name: string, now: nat)
    requires Sound(l)
    ensures Sound(TransferOutcome(l, fromUserId, toUserId, giftPurchaseId, comment, ip, name, now).after)
  {
    var a := TransferOutcome(l, fromUserId, toUserId, giftPurchaseId, comment, ip, name, now);
    if a.res.Ok? {
      RegisteredSound(l, a.after, toUserId, ip, name, now);
    }
  }

  /** A transfer neither creates nor destroys gifts. */
  lemma TransferKeepsGiftCount(l: Ledger, fromUserId: string, toUserId: string, giftPurchaseId: string,
                               comment: Option<string>, ip: string, name: string, now: nat)
    ensures Total(TransferOutcome(l, fromUserId, toUserId, giftPurchaseId, comment, ip, name, now).after.inventories)
            == Total(l.inventories)
  {
    var a := TransferOutcome(l, fromUserId, toUserId, giftPurchaseId, comment, ip, name, now);
    var sent := Holding(l.inventories, fromUserId);
    var i := GiftIndex(sent, giftPurchaseId);
    if fromUserId != "" && toUserId != "" && giftPurchaseId != "" && fromUserId != toUserId && i >= 0 {
      var taken := l.inventories[fromUserId := RemoveAt(sent, i)];
      var v := Holding(taken, toUserId) + [Moved(sent[i], fromUserId, comment, now)];
      assert a.after.inventories == taken[toUserId := v];
      TotalUpdate(l.inventories, fromUserId, RemoveAt(sent, i));
      TotalUpdate(taken, toUserId, v);
    } else {
      assert a.after == l;
    }
  }

  // ---------------------------------------------------------------------------------------
  // POST /api/admin/transfer-gift

  /** The outcome of POST /api/admin/transfer-gift: the user receives a fresh copy of a product. */
  function GrantOutcome(l: Ledger, products: seq<Product>, adminId: string, userId: string, giftId: int,
                        comment: Option<string>, ip: string, name: string, now: nat): (a: Answer<GrantRecord>)
    ensures a.after.referrals == l.referrals
  {
    if adminId != AdminId then Answer(Err(Unauthorized), l)
    else if userId == "" || giftId == 0 then Answer(Err(InvalidInput), l)
    else
      var i := ProductIndex(products, giftId);
      if i == -1 then Answer(Err(NotFound), l)
      else
        var p := products[i];
        var users := Registered(l.users, userId, ip, name, now);
        Answer(Ok(GrantRecord(p.name, p.id, userId, users[userId].userNumber, adminId, Or(comment, NoComment), now)),
               l.(users := users,
                  inventories := l.inventories[userId := Holding(l.inventories, userId) + [Granted(p, giftId, comment, now)]]))
  }

  /** A grant is refused to anyone but the admin, without a user or product id, and for an unknown product; a refusal changes nothing. */
  lemma GrantRefusals(l: Ledger, products: seq<Product>, adminId: string, userId: string, giftId: int,
                      comment: Option<string>, ip: string, name: string, now: nat)
    ensures var a := GrantOutcome(l, products, adminId, userId, giftId, comment, ip, name, now);
            && (adminId != AdminId ==> a.res == Err(Unauthorized))
            && (adminId == AdminId && (userId == "" || giftId == 0) ==> a.res == Err(InvalidInput))
            && (adminId == AdminId && userId != "" && giftId != 0 && ProductIndex(products, giftId) == -1 ==>
                  a.res == Err(NotFound))
            && (a.res.Ok? <==> adminId == AdminId && userId != "" && giftId != 0 && ProductIndex(products, giftId) >= 0)
            && (a.res.Err? ==> a.after == l)
  {
  }

  /**
   * A grant appends one gift, marked as transferred by the admin, to the user's inventory;
   * nobody else's inventory changes and no balance changes.
   */
  lemma GrantDelivers(l: Ledger, products: seq<Product>, adminId: string, userId: string, giftId: int,
                      comment: Option<string>, ip: string, name: string, now: nat)
    ensures var a := GrantOutcome(l, products, adminId, userId, giftId, comment, ip, name, now);
            && SameBalances(l.users, a.after.users)
            && (forall u :: u != userId ==> Holding(a.after.inventories, u) == Holding(l.inventories, u))
            && (a.res.Ok? ==>
                  var p := products[ProductIndex(products, giftId)];
                  && Holding(a.after.inventories, userId) == Holding(l.inventories, userId) + [Granted(p, giftId, comment, now)]
                  && Granted(p, giftId, comment, now).transferredBy == Some("admin")
                  && a.res.value.giftId == p.id == giftId
                  && userId in a.after.users
                  && a.res.value.recipientUserNumber == a.after.users[userId].userNumber)
  {
    var a := GrantOutcome(l, products, adminId, userId, giftId, comment, ip, name, now);
    var users := Registered(l.users, userId, ip, name, now);
    RegisteredKeepsBalances(l.users, userId, ip, name, now);
    if a.res.Ok? {
      var p := products[ProductIndex(products, giftId)];
      assert a == Answer(Ok(GrantRecord(p.name, p.id, userId, users[userId].userNumber, adminId, Or(comment, NoComment), now)),
                         l.(users := users,
                            inventories := l.inventories[userId := Holding(l.inventories, userId) + [Granted(p, giftId, comment, now)]]));
    } else {
      assert a.after == l;
    }
  }

  lemma GrantKeepsSound(l: Ledger, products: seq<Product>, adminId: string, userId: string, giftId: int,
                        comment: Option<string>, ip: string, name: string, now: nat)
    requires Sound(l)
    ensures Sound(GrantOutcome(l, products, adminId, userId, giftId, comment, ip, name, now).after)
  {
    var a := GrantOutcome(l, products, adminId, userId, giftId, comment, ip, name, now);
    if a.res.Ok? {
      RegisteredSound(l, a.after, userId, ip, name, now);
    }
  }

  /** A grant adds exactly one gift to the shop's gift count; a refusal adds none. */
  lemma GrantAddsOneGift(l: Ledger, products: seq<Product>, adminId: string, userId: string, giftId: int,
                         comment: Option<string>, ip: string, name: string, now: nat)
    ensures var a := GrantOutcome(l, products, adminId, userId, giftId, comment, ip, name, now);
            Total(a.after.inventories) == Total(l.inventories) + (if a.res.Ok? then 1 else 0)
  {
    var a := GrantOutcome(l, products, adminId, userId, giftId, comment, ip, name, now);
    if adminId == AdminId && userId != "" && giftId != 0 && ProductIndex(products, giftId) >= 0 {
      var p := products[ProductIndex(products, giftId)];
      var v := Holding(l.inventories, userId) + [Granted(p, giftId, comment, now)];
      assert a.res.Ok? && a.after.inventories == l.inventories[userId := v];
      TotalUpdate(l.inventories, userId, v);
    } else {
      assert a.after == l;
    }
  }

  // ---------------------------------------------------------------------------------------
  // POST /api/upgrade-gift

  /**
   * The outcome of POST /api/upgrade-gift: for 25 stars, one of the product's upgrade options,
   * chosen by the draw `r`, is applied to a gift that is not yet upgraded.
   */
  function UpgradeOutcome(l: Ledger, upgrades: map<int, seq<UpgradeOption>>, userId: string, giftPurchaseId: string,
                          r: real, ip: string, name: string, now: nat): (a: Answer<UpgradeReceipt>)
    requires 0.0 <= r < 1.0
    ensures a.after.referrals == l.referrals
  {
    if userId == "" || giftPurchaseId == "" then Answer(Err(InvalidInput), l)
    else
      var users := Registered(l.users, userId, ip, name, now);
      var balance := users[userId].balance;
      if balance < UpgradeCost then Answer(Err(Insufficient(UpgradeCost, balance, true)), l.(users := users))
      else
        var inv := Holding(l.inventories, userId);
        var i := GiftIndex(inv, giftPurchaseId);
        if i == -1 then Answer(Err(NotFound), l.(users := users))
        else if inv[i].Upgraded() then Answer(Err(AlreadyUpgraded), l.(users := users))
        else
          var options := OptionsOf(upgrades, inv[i].item.id);
          if options == [] then Answer(Err(UpgradesUnavailable), l.(users := users))
          else
            var gift := WithUpgrade(inv[i], options[PickIndex(r, |options|)], now);
            Answer(Ok(UpgradeReceipt(balance - UpgradeCost, gift)),
                   l.(users := Charged(l.users, userId, ip, name, now, balance - UpgradeCost),
                      inventories := l.inventories[userId := inv[i := gift]]))
  }

  /**
   * The checks of an upgrade, in their order: missing ids, a balance below 25 (answered with
   * `needTopUp`), no such gift, a gift already upgraded, no options for its product. A refusal
   * charges nothing and changes no inventory.
   */
  lemma UpgradeChecks(l: Ledger, upgrades: map<int, seq<UpgradeOption>>, userId: string, giftPurchaseId: string,
                      r: real, ip: string, name: string, now: nat)
    requires 0.0 <= r < 1.0
    ensures var a := UpgradeOutcome(l, upgrades, userId, giftPurchaseId, r, ip, name, now);
            && (userId == "" || giftPurchaseId == "" ==> a == Answer(Err(InvalidInput), l))
            && (a.res == Err(Insufficient(UpgradeCost, BalanceOf(l.users, userId), true)) <==>
                  userId != "" && giftPurchaseId != "" && BalanceOf(l.users, userId) < UpgradeCost)
            && (userId != "" && giftPurchaseId != "" && BalanceOf(l.users, userId) >= UpgradeCost ==>
                  var inv := Holding(l.inventories, userId);
                  var i := GiftIndex(inv, giftPurchaseId);
                  && (i == -1 ==> a.res == Err(NotFound))
                  && (i >= 0 && inv[i].Upgraded() ==> a.res == Err(AlreadyUpgraded))
                  && (i >= 0 && !inv[i].Upgraded() && OptionsOf(upgrades, inv[i].item.id) == [] ==>
                        a.res == Err(UpgradesUnavailable))
                  && (i >= 0 && !inv[i].Upgraded() && OptionsOf(upgrades, inv[i].item.id) != [] ==> a.res.Ok?))
            && (a.res.Err? ==> a.after.inventories == l.inventories && SameBalances(l.users, a.after.users))
  {
    RegisteredKeepsBalances(l.users, userId, ip, name, now);
  }

  /**
   * A successful upgrade takes exactly 25 stars from the user, answers the new balance, and
   * leaves every other account as it was.
   */
  lemma UpgradeCharges(l: Ledger, upgrades: map<int, seq<UpgradeOption>>, userId: string, giftPurchaseId: string,
                       r: real, ip: string, name: string, now: nat)
    requires 0.0 <= r < 1.0
    ensures var a := UpgradeOutcome(l, upgrades, userId, giftPurchaseId, r, ip, name, now);
            a.res.Ok? ==>
              && userId in a.after.users
              && a.after.users[userId].balance == BalanceOf(l.users, userId) - UpgradeCost == a.res.value.newBalance
              && (forall u :: u in l.users && u != userId ==> u in a.after.users && a.after.users[u] == l.users[u])
  {
    var a := UpgradeOutcome(l, upgrades, userId, giftPurchaseId, r, ip, name, now);
    if a.res.Ok? {
      var registered := Registered(l.users, userId, ip, name, now);
      var left := registered[userId].balance - UpgradeCost;
      RegisteredBalance(l.users, userId, ip, name, now);
      assert a.res.value.newBalance == left;
      assert a.after.users == Charged(l.users, userId, ip, name, now, left);
      forall u | u in l.users && u != userId
        ensures u in a.after.users && a.after.users[u] == l.users[u]
      {
        assert registered[u] == l.users[u];
      }
    }
  }

  /**
   * A successful upgrade replaces the chosen gift, in place, by its upgraded copy with the look
   * of one of the product's options; the user's other gifts and other users' inventories are
   * unchanged.
   */
  lemma UpgradeApplies(l: Ledger, upgrades: map<int, seq<UpgradeOption>>, userId: string, giftPurchaseId: string,
                       r: real, ip: string, name: string, now: nat)
    requires 0.0 <= r < 1.0
    ensures var a := UpgradeOutcome(l, upgrades, userId, giftPurchaseId, r, ip, name, now);
            a.res.Ok? ==>
              var inv := Holding(l.inventories, userId);
              var i := GiftIndex(inv, giftPurchaseId);
              && 0 <= i < |inv| && !inv[i].Upgraded()
              && Holding(a.after.inventories, userId) == inv[i := a.res.value.upgradedGift]
              && a.res.value.upgradedGift.Upgraded()
              && (var options := OptionsOf(upgrades, inv[i].item.id);
                  exists k :: 0 <= k < |options| && a.res.value.upgradedGift == WithUpgrade(inv[i], options[k], now))
              && (forall u :: u != userId ==> Holding(a.after.inventories, u) == Holding(l.inventories, u))
  {
    var a := UpgradeOutcome(l, upgrades, userId, giftPurchaseId, r, ip, name, now);
    if a.res.Ok? {
      var inv := Holding(l.inventories, userId);
      var i := GiftIndex(inv, giftPurchaseId);
      var options := OptionsOf(upgrades, inv[i].item.id);
      var k := PickIndex(r, |options|);
      var gift := WithUpgrade(inv[i], options[k], now);
      assert a.res.value.upgradedGift == gift;
      assert a.after.inventories == l.inventories[userId := inv[i := gift]];
    }
  }

  lemma UpgradeKeepsSound(l: Ledger, upgrades: map<int, seq<UpgradeOption>>, userId: string, giftPurchaseId: string,
                          r: real, ip: string, name: string, now: nat)
    requires Sound(l)
    requires 0.0 <= r < 1.0
    ensures Sound(UpgradeOutcome(l, upgrades, userId, giftPurchaseId, r, ip, name, now).after)
  {
    var a := UpgradeOutcome(l, upgrades, userId, giftPurchaseId, r, ip, name, now);
    if userId != "" && giftPurchaseId != "" {
      var users := Registered(l.users, userId, ip, name, now);
      var balance := users[userId].balance;
      var inv := Holding(l.inventories, userId);
      var i := GiftIndex(inv, giftPurchaseId);
      if balance < UpgradeCost || i == -1 || inv[i].Upgraded() || OptionsOf(upgrades, inv[i].item.id) == [] {
        assert a.after == l.(users := users);
        RegisteredSound(l, a.after, userId, ip, name, now);
      } else {
        var options := OptionsOf(upgrades, inv[i].item.id);
        var gift := WithUpgrade(inv[i], options[PickIndex(r, |options|)], now);
        assert a.after == l.(users := Charged(l.users, userId, ip, name, now, balance - UpgradeCost),
                             inventories := l.inventories[userId := inv[i := gift]]);
        ChargedSound(l, a.after, userId, ip, name, now, balance - UpgradeCost);
      }
    } else {
      assert a.after == l;
    }
  }

  /** An upgrade replaces one gift in place: the gift count stays the same. */
  lemma UpgradeKeepsGiftCount(l: Ledger, upgrades: map<int, seq<UpgradeOption>>, userId: string, giftPurchaseId: string,
                              r: real, ip: string, name: string, now: nat)
    requires 0.0 <= r < 1.0
    ensures Total(UpgradeOutcome(l, upgrades, userId, giftPurchaseId, r, ip, name, now).after.inventories)
            == Total(l.inventories)
  {
    var a := UpgradeOutcome(l, upgrades, userId, giftPurchaseId, r, ip, name, now);
    if userId != "" && giftPurchaseId != "" {
      var balance := Registered(l.users, userId, ip, name, now)[userId].balance;
      var inv := Holding(l.inventories, userId);
      var i := GiftIndex(inv, giftPurchaseId);
      if balance < UpgradeCost || i == -1 || inv[i].Upgraded() || OptionsOf(upgrades, inv[i].item.id) == [] {
        assert a.after.inventories == l.inventories;
      } else {
        var options := OptionsOf(upgrades, inv[i].item.id);
        var gift := WithUpgrade(inv[i], options[PickIndex(r, |options|)], now);
        assert a.after.inventories == l.inventories[userId := inv[i := gift]];
        TotalUpdate(l.inventories, userId, inv[i := gift]);
      }
    } else {
      assert a.after == l;
    }
  }

  /**
   * Being upgraded is terminal: after a successful upgrade, asking again for the same gift is
   * declined, whatever the draw, and leaves every inventory as it is.
   */
  lemma UpgradeIsOneShot(l: Ledger, upgrades: map<int, seq<UpgradeOption>>, userId: string, giftPurchaseId: string,
                         r: real, r': real, ip: string, name: string, now: nat, now': nat)
    requires 0.0 <= r < 1.0 && 0.0 <= r' < 1.0
    requires UpgradeOutcome(l, upgrades, userId, giftPurchaseId, r, ip, name, now).res.Ok?
    ensures var l' := UpgradeOutcome(l, upgrades, userId, giftPurchaseId, r, ip, name, now).after;
            var again := UpgradeOutcome(l', upgrades, userId, giftPurchaseId, r', ip, name, now');
            again.res.Err? && again.after.inventories == l'.inventories
  {
    var a := UpgradeOutcome(l, upgrades, userId, giftPurchaseId, r, ip, name, now);
    var inv := Holding(l.inventories, userId);
    var i := GiftIndex(inv, giftPurchaseId);
    var inv' := Holding(a.after.inventories, userId);
    assert inv'[i].purchaseId == giftPurchaseId && inv'[i].Upgraded();
    assert forall j :: 0 <= j < i ==> inv'[j] == inv[j];
    assert GiftIndex(inv', giftPurchaseId) == i;
    UpgradeChecks(a.after, upgrades, userId, giftPurchaseId, r', ip, name, now');
  }

  // ---------------------------------------------------------------------------------------
  // The server

  class Store {
    var users: map<string, Account>
    var referrals: map<string, string>          // referred user -> referrer
    var inventories: map<string, seq<Gift>>
    var products: seq<Product>
    var upgradeOrder: seq<int>                  // the order globalUpgrades iterates its keys in
    var upgrades: map<int, seq<UpgradeOption>>  // product id -> its upgrade options

    /** The user-facing maps as one value. */
    function Books(): Ledger
      reads this`users, this`referrals, this`inventories
    {
      Ledger(users, referrals, inventories)
    }

    ghost predicate Valid()
      reads this`users, this`referrals, this`inventories, this`products, this`upgradeOrder, this`upgrades
    {
      && Sound(Books())
      && DistinctIds(products)
      && Indexed(upgradeOrder, upgrades)
    }

    constructor ()
      ensures Valid()
      ensures users == map[] && referrals == map[] && inventories == map[]
      ensures products == InitialProducts() && upgradeOrder == [] && upgrades == map[]
    {
      users, referrals, inventories := map[], map[], map[];
      products := InitialProducts();
      upgradeOrder, upgrades := [], map[];
    }

    // -------------------------------------------------------------------------------------
    // Users, referrals, balances

    /** `initUser` (and POST /api/user/:userId): returns the user's record, creating it or filling in its empty fields. */
    method InitUser(userId: string, ip: string, name: string, now: nat) returns (user: Account)
      requires Valid()
      modifies this`users
      ensures Valid()
      ensures users == Registered(old(users), userId, ip, name, now)
      ensures user == users[userId]
    {
      ghost var before := users;
      if userId !in users {
        user := Account(userId, 0.0, 0, |users| + 1, now, ip, name);
      } else {
        user := users[userId];
        if user.ipAddress == "" && ip != "" {
          user := user.(ipAddress := ip);
        }
        if user.username == "" && name != "" {
          user := user.(username := name);
        }
      }
      users := users[userId := user];
      assert users == Registered(before, userId, ip, name, now);
      RegisteredConsistent(before, referrals, userId, ip, name, now);
    }

    /** POST /api/referral */
    method ProcessReferral(userId: string, referrerId: string, ip: string, name: string, now: nat)
      returns (res: Result<Account>)
      requires Valid()
      modifies this`users, this`referrals
      ensures Valid()
      ensures Answer(res, Books()) == ReferralOutcome(old(Books()), userId, referrerId, ip, name, now)
    {
      var a := ReferralOutcome(Books(), userId, referrerId, ip, name, now);
      ReferralKeepsSound(Books(), userId, referrerId, ip, name, now);
      res, users, referrals := a.res, a.after.users, a.after.referrals;
      assert Books() == a.after;
    }

    /** POST /api/user/:userId/balance: adds `amount` (0 when absent) and clamps the result at 0. */
    method AdjustBalance(userId: string, amount: real, ip: string, name: string, now: nat)
      returns (balance: real)
      requires Valid()
      modifies this`users
      ensures Valid()
      ensures balance >= 0.0
      ensures var registered := Registered(old(users), userId, ip, name, now);
              && balance == Clamped(registered[userId].balance, amount)
              && users == registered[userId := registered[userId].(balance := balance)]
    {
      var user := InitUser(userId, ip, name, now);
      balance := Clamped(user.balance, amount);
      RebalancedConsistent(users, referrals, userId, balance);
      users := users[userId := user.(balance := balance)];
    }

    /** POST /api/admin/users/:userId/give-balance: adds exactly a positive `amount`, unclamped. */
    method GiveBalance(adminId: string, userId: string, amount: real, ip: string, name: string, now: nat)
      returns (res: Result<Account>)
      requires Valid()
      modifies this`users
      ensures Valid()
      ensures adminId != AdminId ==> res == Err(Unauthorized) && users == old(users)
      ensures adminId == AdminId && amount <= 0.0 ==> res == Err(InvalidInput) && users == old(users)
      ensures adminId == AdminId && amount > 0.0 ==>
                var registered := Registered(old(users), userId, ip, name, now);
                && res == Ok(registered[userId].(balance := registered[userId].balance + amount))
                && users == registered[userId := res.value]
    {
      if adminId != AdminId {
        return Err(Unauthorized);
      }
      if amount <= 0.0 {
        return Err(InvalidInput);
      }
      var user := InitUser(userId, ip, name, now);
      user := user.(balance := user.balance + amount);
      RebalancedConsistent(users, referrals, userId, user.balance);
      users := users[userId := user];
      res := Ok(user);
    }

    // -------------------------------------------------------------------------------------
    // Catalog

    /** POST /api/products: appends a product with the next id and the defaults. */
    method AddProduct(adminId: string, f: ProductFields, saved: Option<string>) returns (res: Result<Product>)
      requires Valid()
      requires saved.Some? ==> saved.value != ""
      modifies this`products
      ensures Valid()
      ensures adminId != AdminId ==> res == Err(Unauthorized) && products == old(products)
      ensures adminId == AdminId && !(Truthy(f.name) && TruthyNumber(f.price)) ==>
                res == Err(InvalidInput) && products == old(products)
      ensures adminId == AdminId && Truthy(f.name) && TruthyNumber(f.price) ==>
                && res == Ok(NewProduct(NextProductId(old(products)), f, saved))
                && products == old(products) + [res.value]
      ensures res.Ok? ==> forall i :: 0 <= i < |old(products)| ==> old(products)[i].id < res.value.id
    {
      if adminId != AdminId {
        return Err(Unauthorized);
      }
      if !Truthy(f.name) || !TruthyNumber(f.price) {
        return Err(InvalidInput);
      }
      var newId := NextProductId(products);
      var product := NewProduct(newId, f, saved);
      products := products + [product];
      res := Ok(product);
    }

    /** PUT /api/products/:id: overwrites the fields the body supplies, in place. */
    method UpdateProduct(adminId: string, id: int, f: ProductFields, saved: Option<string>)
      returns (res: Result<Product>)
      requires Valid()
      requires saved.Some? ==> saved.value != ""
      modifies this`products
      ensures Valid()
      ensures adminId != AdminId ==> res == Err(Unauthorized) && products == old(products)
      ensures adminId == AdminId && ProductIndex(old(products), id) == -1 ==>
                res == Err(NotFound) && products == old(products)
      ensures adminId == AdminId && ProductIndex(old(products), id) >= 0 ==>
                var i := ProductIndex(old(products), id);
                && res == Ok(Patched(old(products)[i], f, saved))
                && products == old(products)[i := res.value]
    {
      if adminId != AdminId {
        return Err(Unauthorized);
      }
      var i := ProductIndex(products, id);
      if i == -1 {
        return Err(NotFound);
      }
      var p := Patched(products[i], f, saved);
      products := products[i := p];
      res := Ok(p);
    }

    /** DELETE /api/products/:id: removes that product and keeps the order of the rest. */
    method DeleteProduct(adminId: string, id: int) returns (res: Result<()>)
      requires Valid()
      modifies this`products
      ensures Valid()
      ensures adminId != AdminId ==> res == Err(Unauthorized) && products == old(products)
      ensures adminId == AdminId && ProductIndex(old(products), id) == -1 ==>
                res == Err(NotFound) && products == old(products)
      ensures adminId == AdminId && ProductIndex(old(products), id) >= 0 ==>
                res == Ok(()) && products == RemoveAt(old(products), ProductIndex(old(products), id))
      ensures res.Ok? ==> |products| == |old(products)| - 1 && forall j :: 0 <= j < |products| ==> products[j].id != id
    {
      if adminId != AdminId {
        return Err(Unauthorized);
      }
      var i := ProductIndex(products, id);
      if i == -1 {
        return Err(NotFound);
      }
      ghost var before := products;
      products := RemoveAt(products, i);
      forall j | 0 <= j < |products|
        ensures products[j].id != id
      {
        var j' := if j < i then j else j + 1;
        assert products[j] == before[j'] && j' != i;
      }
      res := Ok(());
    }

    // -------------------------------------------------------------------------------------
    // Gifts

    /** GET /api/user/:userId/inventory: the user's gifts, oldest first, without creating the user. */
    method ListInventory(userId: string) returns (inventory: seq<Gift>)
      ensures inventory == Holding(inventories, userId)
      ensures userId !in inventories ==> inventory == []
    {
      inventory := if userId in inventories then inventories[userId] else [];
    }

    /** Installs the user map and the inventories of a sound ledger with the current referrals. */
    method SetBooks(u: map<string, Account>, inv: map<string, seq<Gift>>)
      requires Valid() && Sound(Ledger(u, referrals, inv))
      modifies this`users, this`inventories
      ensures Valid() && users == u && inventories == inv
    {
      users, inventories := u, inv;
    }

    /** POST /api/products/:productId/buy */
    method Buy(productId: int, userId: string, ip: string, name: string, now: nat)
      returns (res: Result<Sale>)
      requires Valid()
      modifies this`users, this`inventories
      ensures Valid()
      ensures Answer(res, Books()) == BuyOutcome(old(Books()), products, productId, userId, ip, name, now)
    {
      var a := BuyOutcome(Books(), products, productId, userId, ip, name, now);
      BuyKeepsSound(Books(), products, productId, userId, ip, name, now);
      SetBooks(a.after.users, a.after.inventories);
      res := a.res;
    }

    /** POST /api/transfer-gift */
    method TransferGift(fromUserId: string, toUserId: string, giftPurchaseId: string,
                        comment: Option<string>, ip: string, name: string, now: nat)
      returns (res: Result<TransferRecord>)
      requires Valid()
      modifies this`users, this`inventories
      ensures Valid()
      ensures Answer(res, Books()) ==
                TransferOutcome(old(Books()), fromUserId, toUserId, giftPurchaseId, comment, ip, name, now)
    {
      var a := TransferOutcome(Books(), fromUserId, toUserId, giftPurchaseId, comment, ip, name, now);
      TransferKeepsSound(Books(), fromUserId, toUserId, giftPurchaseId, comment, ip, name, now);
      SetBooks(a.after.users, a.after.inventories);
      res := a.res;
    }

    /** POST /api/admin/transfer-gift */
    method AdminTransferGift(adminId: string, userId: string, giftId: int, comment: Option<string>,
                             ip: string, name: string, now: nat)
      returns (res: Result<GrantRecord>)
      requires Valid()
      modifies this`users, this`inventories
      ensures Valid()
      ensures Answer(res, Books()) ==
                GrantOutcome(old(Books()), products, adminId, userId, giftId, comment, ip, name, now)
    {
      var a := GrantOutcome(Books(), products, adminId, userId, giftId, comment, ip, name, now);
      GrantKeepsSound(Books(), products, adminId, userId, giftId, comment, ip, name, now);
      SetBooks(a.after.users, a.after.inventories);
      res := a.res;
    }

    /** POST /api/upgrade-gift */
    method UpgradeGift(userId: string, giftPurchaseId: string, r: real, ip: string, name: string, now: nat)
      returns (res: Result<UpgradeReceipt>)
      requires Valid()
      requires 0.0 <= r < 1.0
      modifies this`users, this`inventories
      ensures Valid()
      ensures Answer(res, Books()) ==
                UpgradeOutcome(old(Books()), upgrades, userId, giftPurchaseId, r, ip, name, now)
    {
      var a := UpgradeOutcome(Books(), upgrades, userId, giftPurchaseId, r, ip, name, now);
      UpgradeKeepsSound(Books(), upgrades, userId, giftPurchaseId, r, ip, name, now);
      SetBooks(a.after.users, a.after.inventories);
      res := a.res;
    }

    // -------------------------------------------------------------------------------------
    // Upgrade options

    /** GET /api/admin/upgrades: every option of every product, tagged with its product id. */
    method ListUpgrades(adminId: string) returns (res: Result<seq<TaggedOption>>)
      requires Valid()
      ensures adminId != AdminId ==> res == Err(Unauthorized)
      ensures adminId == AdminId ==> res == Ok(Flatten(upgradeOrder, upgrades))
    {
      if adminId != AdminId {
        return Err(Unauthorized);
      }
      var all := Collect(upgradeOrder, upgrades);
      res := Ok(all);
    }

    /** POST /api/admin/upgrades: appends an option to the product's list, keeping earlier ones. */
    method AddUpgrade(adminId: string, giftId: int, f: UpgradeFields, files: Uploads)
      returns (res: Result<UpgradeOption>)
      requires Valid()
      modifies this`upgradeOrder, this`upgrades
      ensures Valid()
      ensures adminId != AdminId ==> res == Err(Unauthorized)
      ensures adminId == AdminId && giftId == 0 ==> res == Err(InvalidInput)
      ensures res.Err? ==> upgrades == old(upgrades) && upgradeOrder == old(upgradeOrder)
      ensures adminId == AdminId && giftId != 0 ==>
                && res == Ok(NewOption(f, files))
                && upgrades == old(upgrades)[giftId := OptionsOf(old(upgrades), giftId) + [res.value]]
                && upgradeOrder == if giftId in old(upgrades) then old(upgradeOrder) else old(upgradeOrder) + [giftId]
    {
      if adminId != AdminId {
        return Err(Unauthorized);
      }
      if giftId == 0 {
        return Err(InvalidInput);
      }
      var option := NewOption(f, files);
      var existing := if giftId in upgrades then upgrades[giftId] else [];
      if giftId !in upgrades {
        upgradeOrder := upgradeOrder + [giftId];
      }
      upgrades := upgrades[giftId := existing + [option]];
      res := Ok(option);
    }

    /** DELETE /api/admin/upgrades/:giftId: drops the product's whole option list, present or not. */
    method DeleteUpgrades(adminId: string, giftId: int) returns (res: Result<()>)
      requires Valid()
      modifies this`upgradeOrder, this`upgrades
      ensures Valid()
      ensures adminId != AdminId ==>
                res == Err(Unauthorized) && upgrades == old(upgrades) && upgradeOrder == old(upgradeOrder)
      ensures adminId == AdminId ==>
                && res == Ok(())
                && upgrades == old(upgrades) - {giftId}
                && upgradeOrder == Unlisted(old(upgradeOrder), giftId)
    {
      if adminId != AdminId {
        return Err(Unauthorized);
      }
      UnlistedIndexed(upgradeOrder, upgrades, giftId);
      upgradeOrder := Unlisted(upgradeOrder, giftId);
      upgrades := upgrades - {giftId};
      res := Ok(());
    }
  }
}
