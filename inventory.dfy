/**
 * Gift instances (the entries of `userInventories` in index.js), the upgrade options an admin
 * registers per product (`globalUpgrades`), and the pure pieces of the purchase, transfer,
 * grant and upgrade handlers: purchase identifiers, the copies those handlers push, the
 * random choice of an option, and the flattened option listing.
 */
module Inventory {
  import opened Wrappers
  import opened ArrayOps
  import opened Decimal
  import opened Catalog

  /** The fields an upgrade writes onto a gift, besides `background` and `upgraded`. */
  datatype Look = Look(
    upgradeTime: nat,
    model: string,
    modelPercent: string,
    backgroundPercent: string,
    symbol: string,
    symbolPercent: string,
    upgradeBackground: string)

  /**
   * One owned gift: a copy of the product's fields taken when it was acquired, plus purchase,
   * provenance and upgrade metadata. `look` is present exactly when `upgraded` is true.
   */
  datatype Gift = Gift(
    item: Product,
    purchaseId: string,
    purchaseTime: nat,
    transferredBy: Option<string>,
    transferredFrom: Option<string>,
    comment: Option<string>,
    look: Option<Look>)
  {
    predicate Upgraded() {
      look.Some?
    }
  }

  /** One upgrade option registered for a product; the image fields exist only after an upload. */
  datatype UpgradeOption = UpgradeOption(
    model: string,
    modelPercent: string,
    background: string,
    backgroundPercent: string,
    symbol: string,
    symbolPercent: string,
    upgradeBackground: string,   // "" stands for null
    modelImage: Option<string>,
    backgroundImage: Option<string>,
    symbolImage: Option<string>)

  /** The text fields of a request that adds an upgrade option. */
  datatype UpgradeFields = UpgradeFields(
    model: Option<string>,
    modelPercent: Option<string>,
    background: Option<string>,
    backgroundPercent: Option<string>,
    symbol: Option<string>,
    symbolPercent: Option<string>,
    upgradeBackground: Option<string>)

  /** Paths under which the asset store saved the request's uploaded files, if it did. */
  datatype Uploads = Uploads(
    model: Option<string>,
    background: Option<string>,
    symbol: Option<string>,
    upgradeBackground: Option<string>)

  /** An entry of the admin listing: `{giftId, ...option}`. */
  datatype TaggedOption = TaggedOption(giftId: int, option: UpgradeOption)

  // ---------------------------------------------------------------------------------------
  // Purchase identifiers

  /** `${productId}_${time}`, the id of a bought gift. */
  function PurchaseKey(productId: int, time: nat): (k: string)
    ensures |k| >= 3 && (k[0] == '-' || IsDigit(k[0]))
  {
    Text(productId) + "_" + Text(time)
  }

  /** `transfer_${productId}_${time}`, the id of a granted or transferred gift. */
  function TransferKey(productId: int, time: nat): (k: string)
    ensures |k| > 9 && k[0] == 't'
  {
    "transfer_" + PurchaseKey(productId, time)
  }

  /** A string made of two renderings joined by `_` determines both renderings. */
  lemma SplitAtUnderscore(a: string, b: string, c: string, d: string)
    requires forall k :: 0 <= k < |a| ==> a[k] != '_'
    requires forall k :: 0 <= k < |c| ==> c[k] != '_'
    requires a + "_" + b == c + "_" + d
    ensures a == c && b == d
  {
    var s := a + "_" + b;
    assert s[|a|] == '_' && s[|c|] == '_';
    assert forall k :: 0 <= k < |a| ==> s[k] == a[k];
    assert forall k :: 0 <= k < |c| ==> s[k] == c[k];
    assert a == s[..|a|] && c == s[..|c|];
    assert b == s[|a| + 1..] && d == s[|c| + 1..];
  }

  /**
   * Two bought gifts get the same id exactly when they are the same product bought at the
   * same millisecond: the handler does not prevent such duplicates.
   */
  lemma PurchaseKeyCollision(p: int, t: nat, p': int, t': nat)
    ensures (PurchaseKey(p, t) == PurchaseKey(p', t')) == (p == p' && t == t')
  {
    if PurchaseKey(p, t) == PurchaseKey(p', t') {
      SplitAtUnderscore(Text(p), Text(t), Text(p'), Text(t'));
      TextInjective(p, p');
      TextInjective(t, t');
    }
  }

  /** Likewise for grant and transfer ids, and a bought id never looks like either. */
  lemma TransferKeyCollision(p: int, t: nat, p': int, t': nat)
    ensures (TransferKey(p, t) == TransferKey(p', t')) == (p == p' && t == t')
    ensures PurchaseKey(p, t) != TransferKey(p', t')
  {
    if TransferKey(p, t) == TransferKey(p', t') {
      assert PurchaseKey(p, t) == TransferKey(p, t)[9..] == TransferKey(p', t')[9..] == PurchaseKey(p', t');
      PurchaseKeyCollision(p, t, p', t');
    }
    assert PurchaseKey(p, t)[0] == Text(p)[0] != 't';
  }

  // ---------------------------------------------------------------------------------------
  // The entries the handlers push

  /** `{...product, purchaseId, purchaseTime}` pushed by the buy handler. */
  function Bought(p: Product, now: nat): (g: Gift)
    ensures g.item == p && !g.Upgraded()
    ensures g.purchaseId == PurchaseKey(p.id, now) && g.purchaseTime == now
    ensures g.transferredBy.None? && g.transferredFrom.None? && g.comment.None?
  {
    Gift(p, PurchaseKey(p.id, now), now, None, None, None, None)
  }

  /** The entry the admin grant pushes; `giftId` is the id the request named. */
  function Granted(p: Product, giftId: int, comment: Option<string>, now: nat): (g: Gift)
    ensures g.item == p && !g.Upgraded()
    ensures g.purchaseId == TransferKey(giftId, now) && g.purchaseTime == now
    ensures g.transferredBy == Some("admin") && g.transferredFrom.None?
    ensures g.comment.Some? && (Truthy(comment) ==> g.comment.value == comment.value)
    ensures !Truthy(comment) ==> g.comment == Some("")
  {
    Gift(p, TransferKey(giftId, now), now, Some("admin"), None, Some(Or(comment, "")), None)
  }

  /** `{...gift, purchaseId, purchaseTime, transferredBy, transferredFrom, comment}` of a transfer. */
  function Moved(g: Gift, from: string, comment: Option<string>, now: nat): (g': Gift)
    ensures g'.item == g.item && g'.look == g.look
    ensures g'.purchaseId == TransferKey(g.item.id, now) && g'.purchaseTime == now
    ensures g'.transferredBy == Some(from) && g'.transferredFrom == Some(g.purchaseId)
    ensures g'.comment.Some? && (Truthy(comment) ==> g'.comment.value == comment.value)
    ensures !Truthy(comment) ==> g'.comment == Some("")
  {
    g.(purchaseId := TransferKey(g.item.id, now),
       purchaseTime := now,
       transferredBy := Some(from),
       transferredFrom := Some(g.purchaseId),
       comment := Some(Or(comment, "")))
  }

  /** The gift after an upgrade with option `o`: note that `background` of the product copy is overwritten. */
  function WithUpgrade(g: Gift, o: UpgradeOption, now: nat): (g': Gift)
    ensures g'.Upgraded() && g'.look.value.upgradeTime == now
    ensures g'.item.background == o.background && g'.item == g.item.(background := g'.item.background)
    ensures g'.look.value.model == o.model && g'.look.value.symbol == o.symbol
    ensures g'.look.value.modelPercent == o.modelPercent && g'.look.value.symbolPercent == o.symbolPercent
    ensures g'.look.value.backgroundPercent == o.backgroundPercent
    ensures g'.look.value.upgradeBackground == o.upgradeBackground
    ensures g'.purchaseId == g.purchaseId && g'.purchaseTime == g.purchaseTime
    ensures g'.transferredBy == g.transferredBy && g'.transferredFrom == g.transferredFrom
    ensures g'.comment == g.comment
  {
    g.(item := g.item.(background := o.background),
       look := Some(Look(now, o.model, o.modelPercent, o.backgroundPercent,
                         o.symbol, o.symbolPercent, o.upgradeBackground)))
  }

  /** The option the add-upgrade handler stores, with its defaults; an upload replaces `upgradeBackground`. */
  function NewOption(f: UpgradeFields, files: Uploads): (o: UpgradeOption)
    // a supplied truthy field is used as it is, anything else takes its default
    ensures Truthy(f.model) ==> o.model == f.model.value
    ensures !Truthy(f.model) ==> o.model == ""
    ensures Truthy(f.modelPercent) ==> o.modelPercent == f.modelPercent.value
    ensures !Truthy(f.modelPercent) ==> o.modelPercent == "0%"
    ensures Truthy(f.background) ==> o.background == f.background.value
    ensures !Truthy(f.background) ==> o.background == ""
    ensures Truthy(f.backgroundPercent) ==> o.backgroundPercent == f.backgroundPercent.value
    ensures !Truthy(f.backgroundPercent) ==> o.backgroundPercent == "0%"
    ensures Truthy(f.symbol) ==> o.symbol == f.symbol.value
    ensures !Truthy(f.symbol) ==> o.symbol == ""
    ensures Truthy(f.symbolPercent) ==> o.symbolPercent == f.symbolPercent.value
    ensures !Truthy(f.symbolPercent) ==> o.symbolPercent == "0%"
    // a saved upload wins over the text field
    ensures files.upgradeBackground.Some? ==> o.upgradeBackground == files.upgradeBackground.value
    ensures files.upgradeBackground.None? && Truthy(f.upgradeBackground) ==> o.upgradeBackground == f.upgradeBackground.value
    ensures files.upgradeBackground.None? && !Truthy(f.upgradeBackground) ==> o.upgradeBackground == ""
    // the image fields exist exactly when their upload was saved
    ensures o.modelImage == files.model && o.backgroundImage == files.background && o.symbolImage == files.symbol
  {
    UpgradeOption(Or(f.model, ""), Or(f.modelPercent, "0%"),
                  Or(f.background, ""), Or(f.backgroundPercent, "0%"),
                  Or(f.symbol, ""), Or(f.symbolPercent, "0%"),
                  if files.upgradeBackground.Some? then files.upgradeBackground.value
                  else Or(f.upgradeBackground, ""),
                  files.model, files.background, files.symbol)
  }

  /** `inventory.findIndex(gift => gift.purchaseId === id)`. */
  function GiftIndex(inv: seq<Gift>, id: string): (i: int)
    ensures -1 <= i < |inv|
    ensures 0 <= i ==> inv[i].purchaseId == id && forall j :: 0 <= j < i ==> inv[j].purchaseId != id
    ensures i == -1 <==> forall j :: 0 <= j < |inv| ==> inv[j].purchaseId != id
  {
    FindIndex(inv, (g: Gift) => g.purchaseId == id)
  }

  // ---------------------------------------------------------------------------------------
  // Choosing an upgrade option

  lemma FractionBelow(r: real, m: real)
    requires 0.0 <= r < 1.0 && m > 0.0
    ensures 0.0 <= r * m < m
  {
    assert (1.0 - r) * m > 0.0;
  }

  /** `Math.floor(r * n)` for a draw `r` of `Math.random()`: always a valid index into n options. */
  function PickIndex(r: real, n: nat): (i: nat)
    requires 0.0 <= r < 1.0 && n > 0
    ensures i < n
  {
    var x := r * n as real;
    FractionBelow(r, n as real);
    var f := x.Floor;
    assert f as real <= x < n as real;
    f
  }

  /** Every option can be chosen: the draw k/n selects option k. */
  lemma PickIndexReachesEvery(k: nat, n: nat)
    requires k < n
    ensures PickIndex(k as real / n as real, n) == k
  {
  }

  // ---------------------------------------------------------------------------------------
  // The admin listing of upgrade options

  /** `{giftId, ...upgradeData}` for each option, in order. */
  function Tagged(giftId: int, options: seq<UpgradeOption>): (t: seq<TaggedOption>)
    ensures |t| == |options|
    ensures forall k :: 0 <= k < |t| ==> t[k].giftId == giftId && t[k].option == options[k]
  {
    seq(|options|, k requires 0 <= k < |options| => TaggedOption(giftId, options[k]))
  }

  /** All options, gift by gift in the map's insertion order, each tagged with its gift id. */
  function Flatten(order: seq<int>, m: map<int, seq<UpgradeOption>>): (r: seq<TaggedOption>)
    requires forall i :: 0 <= i < |order| ==> order[i] in m
    ensures forall i :: 0 <= i < |r| ==> r[i].giftId in order && r[i].option in m[r[i].giftId]
  {
    if order == [] then []
    else
      var last := order[|order| - 1];
      Flatten(order[..|order| - 1], m) + Tagged(last, m[last])
  }

  /** `globalUpgrades.get(giftId) || []` */
  function OptionsOf(m: map<int, seq<UpgradeOption>>, giftId: int): (o: seq<UpgradeOption>)
    ensures giftId in m ==> o == m[giftId]
    ensures giftId !in m ==> o == []
  {
    if giftId in m then m[giftId] else []
  }

  /** No key is listed twice. */
  ghost predicate Distinct(order: seq<int>) {
    forall i, j :: 0 <= i < j < |order| ==> order[i] != order[j]
  }

  /**
   * The upgrade map together with the order in which its keys were first set (the order a
   * JavaScript Map iterates in): keys listed once each, the same keys as the map, and no key
   * with an empty list.
   */
  ghost predicate Indexed(order: seq<int>, m: map<int, seq<UpgradeOption>>) {
    && Distinct(order)
    && (forall k :: k in m <==> k in order)
    && (forall i :: 0 <= i < |order| ==> order[i] in m)
    && (forall k :: k in m ==> |m[k]| > 0)
  }

  /** The key order after `globalUpgrades.delete(giftId)`: the key is gone, the others keep their order. */
  function Unlisted(order: seq<int>, giftId: int): (r: seq<int>)
    ensures forall k :: k in r <==> k in order && k != giftId
    decreases |order|
  {
    if order == [] then []
    else
      var rest := Unlisted(order[1..], giftId);
      assert forall k :: k in order <==> k == order[0] || k in order[1..];
      if order[0] == giftId then rest else [order[0]] + rest
  }

  /**
   * The deletion keeps the order of the remaining keys: it works piece by piece on any split of
   * the order, drops the deleted key and keeps every other key where it was.
   */
  lemma {:induction false} UnlistedKeepsOrder(a: seq<int>, b: seq<int>, giftId: int)
    ensures Unlisted(a + b, giftId) == Unlisted(a, giftId) + Unlisted(b, giftId)
    ensures forall k :: Unlisted([k], giftId) == if k == giftId then [] else [k]
    decreases |a|
  {
    if a != [] {
      assert (a + b)[1..] == a[1..] + b;
      UnlistedKeepsOrder(a[1..], b, giftId);
    } else {
      assert a + b == b;
    }
    forall k
      ensures Unlisted([k], giftId) == if k == giftId then [] else [k]
    {
      assert [k][1..] == [];
    }
  }

  /** Keys listed once each stay listed once each after a deletion. */
  lemma {:induction false} UnlistedDistinct(order: seq<int>, giftId: int)
    requires Distinct(order)
    ensures Distinct(Unlisted(order, giftId))
    decreases |order|
  {
    if order != [] {
      var tail := order[1..];
      forall i, j | 0 <= i < j < |tail| ensures tail[i] != tail[j] {
        assert tail[i] == order[i + 1] && tail[j] == order[j + 1];
      }
      UnlistedDistinct(tail, giftId);
      var rest := Unlisted(tail, giftId);
      if order[0] != giftId {
        assert order[0] !in tail by {
          forall i | 0 <= i < |tail| ensures tail[i] != order[0] {
            assert tail[i] == order[i + 1];
          }
        }
        var r := [order[0]] + rest;
        forall i, j | 0 <= i < j < |r| ensures r[i] != r[j] {
          assert r[j] == rest[j - 1] && rest[j - 1] in rest;
          if i > 0 {
            assert r[i] == rest[i - 1];
          }
        }
        assert Unlisted(order, giftId) == r;
      } else {
        assert Unlisted(order, giftId) == rest;
      }
    }
  }

  /** Deleting a key from the map and from the order keeps the two in step. */
  lemma UnlistedIndexed(order: seq<int>, m: map<int, seq<UpgradeOption>>, giftId: int)
    requires Indexed(order, m)
    ensures Indexed(Unlisted(order, giftId), m - {giftId})
  {
    var r := Unlisted(order, giftId);
    UnlistedDistinct(order, giftId);
    forall i | 0 <= i < |r|
      ensures r[i] in m - {giftId}
    {
      assert r[i] in r;
    }
  }

  /** An entry is listed exactly when its gift id is a key and its option is registered under it. */
  lemma {:induction false} FlattenContents(order: seq<int>, m: map<int, seq<UpgradeOption>>, x: TaggedOption)
    requires forall i :: 0 <= i < |order| ==> order[i] in m
    ensures x in Flatten(order, m) <==> x.giftId in order && x.option in m[x.giftId]
  {
    if order != [] {
      var front, last := order[..|order| - 1], order[|order| - 1];
      assert order == front + [last];
      FlattenContents(front, m, x);
      if x.giftId == last && x.option in m[last] {
        var k :| 0 <= k < |m[last]| && m[last][k] == x.option;
        assert Tagged(last, m[last])[k] == x;
      }
    }
  }

  /** The loop of the listing handler: for each gift id, for each of its options, push the tagged option. */
  method Collect(order: seq<int>, m: map<int, seq<UpgradeOption>>) returns (out: seq<TaggedOption>)
    requires forall i :: 0 <= i < |order| ==> order[i] in m
    ensures out == Flatten(order, m)
  {
    out := [];
    for i := 0 to |order|
      invariant out == Flatten(order[..i], m)
    {
      var giftId := order[i];
      var options := m[giftId];
      for j := 0 to |options|
        invariant out == Flatten(order[..i], m) + Tagged(giftId, options[..j])
      {
        out := out + [TaggedOption(giftId, options[j])];
      }
      assert order[..i + 1][..i] == order[..i];
      assert options[..|options|] == options;
    }
    assert order[..|order|] == order;
  }

  // ---------------------------------------------------------------------------------------
  // Counting gifts across all inventories

  /** The number of gift instances held in all inventories together. */
  ghost function Total(m: map<string, seq<Gift>>): nat
    decreases |m|
  {
    if m == map[] then 0
    else
      assert exists k :: k in m by {
        var k :| k in m.Keys;
      }
      var k :| k in m;
      |m[k]| + Total(m - {k})
  }

  /** The total can be split at any inventory, not just the one Total happens to pick. */
  lemma {:induction false} TotalRemove(m: map<string, seq<Gift>>, k: string)
    requires k in m
    ensures Total(m) == |m[k]| + Total(m - {k})
    decreases |m|
  {
    var j :| j in m && Total(m) == |m[j]| + Total(m - {j});
    if j != k {
      TotalRemove(m - {j}, k);
      TotalRemove(m - {k}, j);
      assert m - {j} - {k} == m - {k} - {j};
    }
  }

  /** Replacing one inventory changes the total by the difference of the two lengths. */
  lemma TotalUpdate(m: map<string, seq<Gift>>, k: string, v: seq<Gift>)
    ensures Total(m[k := v]) == Total(m) - (if k in m then |m[k]| else 0) + |v|
  {
    TotalRemove(m[k := v], k);
    if k in m {
      TotalRemove(m, k);
      assert m[k := v] - {k} == m - {k};
    } else {
      assert m[k := v] - {k} == m;
    }
  }

}
