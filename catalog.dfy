/**
 * The product catalog (`globalProducts` in index.js): the product record, the defaults an
 * admin-created product receives, the partial update, and the id assignment
 * `Math.max(...ids, 0) + 1`.
 */
module Catalog {
  import opened Wrappers
  import opened ArrayOps

  datatype Product = Product(
    id: int,
    name: string,
    price: int,
    availability: string,
    status: string,
    kind: string,          // the JSON field `type`
    description: string,
    animation: string,     // path of the TGS animation
    background: string,    // image reference; "" stands for null
    ribbonColor: string,
    borderColor: string,
    ribbonText: string)

  /**
   * The body of an add or update request. `None` is a field the body leaves out; a present
   * empty string is `Some("")`. `price` is the already parsed integer.
   */
  datatype ProductFields = ProductFields(
    name: Option<string>,
    price: Option<int>,
    availability: Option<string>,
    status: Option<string>,
    kind: Option<string>,
    description: Option<string>,
    animation: Option<string>,
    background: Option<string>,
    ribbonColor: Option<string>,
    borderColor: Option<string>,
    ribbonText: Option<string>)

  /** A body that supplies nothing. */
  const NoFields := ProductFields(None, None, None, None, None, None, None, None, None, None, None)

  /** JavaScript truthiness of an optional string: present and non-empty. */
  predicate Truthy(o: Option<string>) {
    o.Some? && o.value != ""
  }

  /** JavaScript truthiness of an optional number: present and non-zero. */
  predicate TruthyNumber(o: Option<int>) {
    o.Some? && o.value != 0
  }

  /** `o || fallback` */
  function Or(o: Option<string>, fallback: string): string {
    if Truthy(o) then o.value else fallback
  }

  /** `o !== undefined ? o : current` */
  function Given(o: Option<string>, current: string): string {
    if o.Some? then o.value else current
  }

  const DefaultAnimation := "/chpic.su_-_plushpepe_by_ADStickersBot_007.tgs"
  const BrandColor := "#0098EA"
  const DefaultStatus := "Неуникальный"
  const DefaultKind := "Подарок"
  const DefaultRibbonText := "new"

  /** The two products the server starts with; their ribbon and border fields are unset. */
  function InitialProducts(): (ps: seq<Product>)
    ensures |ps| == 2 && DistinctIds(ps)
    ensures forall i :: 0 <= i < |ps| ==> ps[i].id == i + 1 && ps[i].price > 0 && ps[i].background == ""
  {
    [ Product(1, "Подарок 1", 100, "1500 из 5000", "Неуникальный", "Подарок",
              "This gift will soon be available for upgrade, sale and mint as NFT",
              DefaultAnimation, "", "", "", ""),
      Product(2, "Подарок 2", 250, "800 из 2000", "Редкий", "Коллекционный",
              "Редкий коллекционный подарок с особой анимацией",
              "/market1.tgs", "", "", "", "") ]
  }

  ghost predicate DistinctIds(ps: seq<Product>) {
    forall i, j :: 0 <= i < j < |ps| ==> ps[i].id != ps[j].id
  }

  /** `globalProducts.findIndex(p => p.id === id)`. */
  function ProductIndex(ps: seq<Product>, id: int): (i: int)
    ensures -1 <= i < |ps|
    ensures 0 <= i ==> ps[i].id == id && forall j :: 0 <= j < i ==> ps[j].id != id
    ensures i == -1 <==> forall j :: 0 <= j < |ps| ==> ps[j].id != id
  {
    FindIndex(ps, (p: Product) => p.id == id)
  }

  /** The id a new product receives: one more than the largest id, or than 0. */
  function NextProductId(ps: seq<Product>): (id: int)
    ensures id >= 1
    ensures forall i :: 0 <= i < |ps| ==> ps[i].id < id
    ensures id == 1 || exists i :: 0 <= i < |ps| && ps[i].id == id - 1
    decreases |ps|
  {
    if ps == [] then 1
    else
      var rest := NextProductId(ps[1..]);
      assert rest != 1 ==> exists i :: 0 <= i < |ps[1..]| && ps[1..][i].id == rest - 1;
      if ps[0].id + 1 > rest then ps[0].id + 1 else rest
  }

  /** The three facts NextProductId guarantees pin it down: no other value has them. */
  lemma NextProductIdUnique(ps: seq<Product>, x: int)
    requires x >= 1
    requires forall i :: 0 <= i < |ps| ==> ps[i].id < x
    requires x == 1 || exists i :: 0 <= i < |ps| && ps[i].id == x - 1
    ensures x == NextProductId(ps)
  {
    var n := NextProductId(ps);
    if x != 1 {
      var i :| 0 <= i < |ps| && ps[i].id == x - 1;
      assert x <= n;
    }
    if n != 1 {
      var i :| 0 <= i < |ps| && ps[i].id == n - 1;
      assert n <= x;
    }
  }

  /**
   * Deleting a product that does not hold the largest id leaves the next id unchanged; deleting
   * the one that does (a positive id) makes the next id one more than the largest remaining id,
   * which is at most the deleted id: ids are reused.
   */
  lemma NextProductIdAfterRemoval(ps: seq<Product>, i: nat)
    requires i < |ps| && DistinctIds(ps)
    ensures ps[i].id + 1 < NextProductId(ps) ==> NextProductId(RemoveAt(ps, i)) == NextProductId(ps)
    ensures ps[i].id + 1 == NextProductId(ps) && ps[i].id >= 1 ==>
              NextProductId(RemoveAt(ps, i)) <= ps[i].id
  {
    var n, rest := NextProductId(ps), RemoveAt(ps, i);
    var m := NextProductId(rest);
    if ps[i].id + 1 < n {
      assert forall j :: 0 <= j < |rest| ==> rest[j].id < n;
      if n != 1 {
        var k :| 0 <= k < |ps| && ps[k].id == n - 1;
        assert k != i;
        var k' := if k < i then k else k - 1;
        assert rest[k'].id == n - 1;
      }
      NextProductIdUnique(rest, n);
    } else if ps[i].id + 1 == n && ps[i].id >= 1 {
      forall j | 0 <= j < |rest|
        ensures rest[j].id < n - 1
      {
        var j' := if j < i then j else j + 1;
        assert rest[j] == ps[j'] && j' != i;
      }
      if m != 1 {
        var k :| 0 <= k < |rest| && rest[k].id == m - 1;
      }
    }
  }

  /** The product the add handler builds, with its defaults. */
  function NewProduct(id: int, f: ProductFields, saved: Option<string>): (p: Product)
    requires Truthy(f.name) && TruthyNumber(f.price)
    requires saved.Some? ==> saved.value != ""
    ensures p.id == id && p.name == f.name.value && p.price == f.price.value
    ensures p.status != "" && p.kind != "" && p.animation != ""
    ensures p.ribbonColor != "" && p.borderColor != "" && p.ribbonText != ""
    // a supplied truthy field is used as it is
    ensures Truthy(f.availability) ==> p.availability == f.availability.value
    ensures Truthy(f.status) ==> p.status == f.status.value
    ensures Truthy(f.kind) ==> p.kind == f.kind.value
    ensures Truthy(f.description) ==> p.description == f.description.value
    ensures Truthy(f.background) ==> p.background == f.background.value
    ensures Truthy(f.ribbonColor) ==> p.ribbonColor == f.ribbonColor.value
    ensures Truthy(f.borderColor) ==> p.borderColor == f.borderColor.value
    ensures Truthy(f.ribbonText) ==> p.ribbonText == f.ribbonText.value
    // an absent or empty field takes its default
    ensures !Truthy(f.availability) ==> p.availability == ""
    ensures !Truthy(f.status) ==> p.status == DefaultStatus
    ensures !Truthy(f.kind) ==> p.kind == DefaultKind
    ensures !Truthy(f.description) ==> p.description == ""
    ensures !Truthy(f.background) ==> p.background == ""
    ensures !Truthy(f.ribbonColor) ==> p.ribbonColor == BrandColor
    ensures !Truthy(f.borderColor) ==> p.borderColor == BrandColor
    ensures !Truthy(f.ribbonText) ==> p.ribbonText == DefaultRibbonText
    // a saved upload wins over the animation field, which wins over the default
    ensures saved.Some? ==> p.animation == saved.value
    ensures saved.None? && Truthy(f.animation) ==> p.animation == f.animation.value
    ensures saved.None? && !Truthy(f.animation) ==> p.animation == DefaultAnimation
  {
    Product(id, f.name.value, f.price.value,
            Or(f.availability, ""),
            Or(f.status, DefaultStatus),
            Or(f.kind, DefaultKind),
            Or(f.description, ""),
            if saved.Some? then saved.value else Or(f.animation, DefaultAnimation),
            Or(f.background, ""),
            Or(f.ribbonColor, BrandColor),
            Or(f.borderColor, BrandColor),
            Or(f.ribbonText, DefaultRibbonText))
  }

  /**
   * The update handler applied to one product: name, price, status, type, animation and the
   * two colours change only when the body supplies a truthy value; availability, description,
   * background and ribbon text change whenever the body supplies them at all; an uploaded
   * animation replaces the animation last.
   */
  function Patched(p: Product, f: ProductFields, saved: Option<string>): (q: Product)
    ensures q.id == p.id
    // `if (x)`: a truthy value is written, anything else keeps the current value
    ensures Truthy(f.name) ==> q.name == f.name.value
    ensures !Truthy(f.name) ==> q.name == p.name
    ensures TruthyNumber(f.price) ==> q.price == f.price.value
    ensures !TruthyNumber(f.price) ==> q.price == p.price
    ensures Truthy(f.status) ==> q.status == f.status.value
    ensures !Truthy(f.status) ==> q.status == p.status
    ensures Truthy(f.kind) ==> q.kind == f.kind.value
    ensures !Truthy(f.kind) ==> q.kind == p.kind
    ensures Truthy(f.ribbonColor) ==> q.ribbonColor == f.ribbonColor.value
    ensures !Truthy(f.ribbonColor) ==> q.ribbonColor == p.ribbonColor
    ensures Truthy(f.borderColor) ==> q.borderColor == f.borderColor.value
    ensures !Truthy(f.borderColor) ==> q.borderColor == p.borderColor
    // `if (x !== undefined)`: a present value is written even when empty
    ensures f.availability.Some? ==> q.availability == f.availability.value
    ensures f.availability.None? ==> q.availability == p.availability
    ensures f.description.Some? ==> q.description == f.description.value
    ensures f.description.None? ==> q.description == p.description
    ensures f.background.Some? ==> q.background == f.background.value
    ensures f.background.None? ==> q.background == p.background
    ensures f.ribbonText.Some? ==> q.ribbonText == f.ribbonText.value
    ensures f.ribbonText.None? ==> q.ribbonText == p.ribbonText
    // a saved upload replaces the animation after the field has been applied
    ensures saved.Some? ==> q.animation == saved.value
    ensures saved.None? && Truthy(f.animation) ==> q.animation == f.animation.value
    ensures saved.None? && !Truthy(f.animation) ==> q.animation == p.animation
  {
    p.(name := Or(f.name, p.name),
       price := if TruthyNumber(f.price) then f.price.value else p.price,
       availability := Given(f.availability, p.availability),
       status := Or(f.status, p.status),
       kind := Or(f.kind, p.kind),
       description := Given(f.description, p.description),
       animation := if saved.Some? then saved.value else Or(f.animation, p.animation),
       background := Given(f.background, p.background),
       ribbonColor := Or(f.ribbonColor, p.ribbonColor),
       borderColor := Or(f.borderColor, p.borderColor),
       ribbonText := Given(f.ribbonText, p.ribbonText))
  }

  /** An update with an empty body changes nothing, and applying the same update twice is the same as applying it once. */
  lemma PatchedIdempotent(p: Product, f: ProductFields, saved: Option<string>)
    ensures Patched(p, NoFields, None) == p
    ensures Patched(Patched(p, f, saved), f, saved) == Patched(p, f, saved)
  {
  }

}
