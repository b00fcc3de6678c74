/**
 Bootstrapping the commercial catalogue on a remote store: paging through lists by cursor, finding or
 creating the meter, the products and the prices, and why running it twice changes nothing.

 The remote store keeps its lists newest first, gives every new object a fresh id and echoes what it was
 created with; a monthly price it creates has an interval count of one.
 */
module StripeBootstrap {
  import opened Wrappers

  type Id = nat

  datatype Plan = Pilot | Starter | Pro

  datatype Kind = Base | Overage

  datatype Usage = Licensed | Metered

  datatype Product = Product(id: Id, active: bool, plan: Option<Plan>)

  datatype Meter = Meter(id: Id, eventName: string)

  datatype Price = Price(
    id: Id, product: Id, active: bool, kind: Option<Kind>, currency: string, recurring: bool, interval: string,
    intervalCount: int, usage: Usage, meter: Option<Id>, amount: Option<real>)

  datatype Remote = Remote(products: seq<Product>, meters: seq<Meter>, prices: seq<Price>, next: Id)

  const METER_EVENT := "attestor_admission_overage"
  const PLANS := [Pilot, Starter, Pro]
  const PAGE_LIMIT: nat := 100

  // ---------------------------------------------------------------- cursor paging

  datatype Page<+T> = Page(data: seq<T>, hasMore: bool)

  /** The place just after the object with this id. */
  function After<T>(items: seq<T>, idOf: T -> Id, id: Id): (n: nat)
    ensures n <= |items|
  {
    if items == [] then 0
    else if idOf(items[0]) == id then 1
    else 1 + After(items[1..], idOf, id)
  }

  /** One answer of the server: at most `limit` objects, and at most `cap` of its own choosing. */
  function GetPage<T>(items: seq<T>, idOf: T -> Id, limit: nat, cap: nat, startingAfter: Option<Id>): Page<T> {
    var from := if startingAfter.None? then 0 else After(items, idOf, startingAfter.value);
    var size := if limit <= cap then limit else cap;
    var to := if from + size <= |items| then from + size else |items|;
    Page(items[from..to], to < |items|)
  }

  predicate DistinctIds<T>(items: seq<T>, idOf: T -> Id) {
    forall i, j :: 0 <= i < j < |items| ==> idOf(items[i]) != idOf(items[j])
  }

  lemma {:induction false} AfterIndex<T>(items: seq<T>, idOf: T -> Id, i: nat)
    requires DistinctIds(items, idOf) && i < |items|
    ensures After(items, idOf, idOf(items[i])) == i + 1
  {
    if i > 0 {
      assert idOf(items[0]) != idOf(items[i]);
      AfterIndex(items[1..], idOf, i - 1);
    }
  }

  /** `listAll` ends, and returns every object once, in order, whatever page size the server settles on. */
  method ListAll<T>(items: seq<T>, idOf: T -> Id, cap: nat) returns (output: seq<T>)
    requires DistinctIds(items, idOf) && cap > 0
    ensures output == items
  {
    output := [];
    var startingAfter: Option<Id> := None;
    while true
      invariant |output| <= |items| && output == items[..|output|]
      invariant startingAfter.None? ==> output == []
      invariant startingAfter.Some? ==> 0 < |output| && startingAfter.value == idOf(items[|output| - 1])
      invariant |output| == 0 || |output| < |items|
      decreases |items| - |output|
    {
      if startingAfter.Some? {
        AfterIndex(items, idOf, |output| - 1);
      }
      var page := GetPage(items, idOf, PAGE_LIMIT, cap, startingAfter);
      assert page.data == items[|output|..|output| + |page.data|];
      output := output + page.data;
      if !page.hasMore || |page.data| == 0 {
        return;
      }
      startingAfter := Some(idOf(page.data[|page.data| - 1]));
    }
  }

  // ---------------------------------------------------------------- what the lists show and the finders find

  function ActiveProducts(s: seq<Product>): seq<Product> {
    if s == [] then [] else (if s[0].active then [s[0]] else []) + ActiveProducts(s[1..])
  }

  function ActivePricesOf(s: seq<Price>, product: Id): seq<Price> {
    if s == [] then []
    else (if s[0].active && s[0].product == product then [s[0]] else []) + ActivePricesOf(s[1..], product)
  }

  function FindProduct(s: seq<Product>, plan: Plan): Option<Product> {
    if s == [] then None else if s[0].plan == Some(plan) then Some(s[0]) else FindProduct(s[1..], plan)
  }

  function FindMeter(s: seq<Meter>): Option<Meter> {
    if s == [] then None else if s[0].eventName == METER_EVENT then Some(s[0]) else FindMeter(s[1..])
  }

  /** What `ensurePrice` looks for and, failing that, creates. */
  datatype Wanted = Wanted(product: Id, kind: Kind, amount: real, meter: Option<Id>)

  function UsageOf(k: Kind): Usage {
    if k == Base then Licensed else Metered
  }

  predicate Fits(p: Price, q: Wanted) {
    && p.kind == Some(q.kind) && p.currency == "usd" && p.recurring && p.interval == "month" && p.intervalCount == 1
    && p.usage == UsageOf(q.kind) && p.meter == q.meter && p.amount == Some(q.amount)
  }

  function FindPrice(s: seq<Price>, q: Wanted): Option<Price> {
    if s == [] then None else if Fits(s[0], q) then Some(s[0]) else FindPrice(s[1..], q)
  }

  function ProductFor(r: Remote, plan: Plan): Option<Product> {
    FindProduct(ActiveProducts(r.products), plan)
  }

  function PriceFor(r: Remote, q: Wanted): Option<Price> {
    FindPrice(ActivePricesOf(r.prices, q.product), q)
  }

  // ---------------------------------------------------------------- what is looked for, field by field

  /** An active monthly dollar price of the product, of the wanted kind, amount and meter. */
  predicate Sells(p: Price, q: Wanted) {
    && p.active && p.product == q.product && p.kind == Some(q.kind) && p.amount == Some(q.amount) && p.meter == q.meter
    && p.currency == "usd" && p.recurring && p.interval == "month" && p.intervalCount == 1
    && (q.kind == Base ==> p.usage == Licensed) && (q.kind == Overage ==> p.usage == Metered)
  }

  predicate Carries(p: Product, plan: Plan) {
    p.active && p.plan == Some(plan)
  }

  predicate Counts(m: Meter) {
    m.eventName == "attestor_admission_overage"
  }

  /** The price found is the first in the store that sells what is wanted; none is found only where there is none. */
  lemma {:induction false} PriceFound(s: seq<Price>, q: Wanted)
    ensures
      var found := FindPrice(ActivePricesOf(s, q.product), q);
      && (found.None? ==> forall i :: 0 <= i < |s| ==> !Sells(s[i], q))
      && (found.Some? ==> exists i :: 0 <= i < |s| && s[i] == found.value && Sells(s[i], q) && forall j :: 0 <= j < i ==> !Sells(s[j], q))
  {
    if s != [] {
      PriceFound(s[1..], q);
      var tail := ActivePricesOf(s[1..], q.product);
      assert ActivePricesOf(s, q.product) == if s[0].active && s[0].product == q.product then [s[0]] + tail else tail;
      assert forall i :: 1 <= i < |s| ==> s[i] == s[1..][i - 1];
      var found := FindPrice(ActivePricesOf(s, q.product), q);
      if Sells(s[0], q) {
        assert found == Some(s[0]);
      } else if found.Some? {
        var i :| 0 <= i < |s[1..]| && s[1..][i] == found.value && Sells(s[1..][i], q) && forall j :: 0 <= j < i ==> !Sells(s[1..][j], q);
        assert s[i + 1] == found.value && forall j :: 0 <= j < i + 1 ==> !Sells(s[j], q);
      }
    }
  }

  lemma {:induction false} ProductFound(s: seq<Product>, plan: Plan)
    ensures
      var found := FindProduct(ActiveProducts(s), plan);
      && (found.None? ==> forall i :: 0 <= i < |s| ==> !Carries(s[i], plan))
      && (found.Some? ==> exists i :: 0 <= i < |s| && s[i] == found.value && Carries(s[i], plan) && forall j :: 0 <= j < i ==> !Carries(s[j], plan))
  {
    if s != [] {
      ProductFound(s[1..], plan);
      var tail := ActiveProducts(s[1..]);
      assert ActiveProducts(s) == if s[0].active then [s[0]] + tail else tail;
      assert forall i :: 1 <= i < |s| ==> s[i] == s[1..][i - 1];
      var found := FindProduct(ActiveProducts(s), plan);
      if Carries(s[0], plan) {
        assert found == Some(s[0]);
      } else if found.Some? {
        var i :| 0 <= i < |s[1..]| && s[1..][i] == found.value && Carries(s[1..][i], plan) && forall j :: 0 <= j < i ==> !Carries(s[1..][j], plan);
        assert s[i + 1] == found.value && forall j :: 0 <= j < i + 1 ==> !Carries(s[j], plan);
      }
    }
  }

  lemma {:induction false} MeterFound(s: seq<Meter>)
    ensures
      var found := FindMeter(s);
      && (found.None? ==> forall i :: 0 <= i < |s| ==> !Counts(s[i]))
      && (found.Some? ==> exists i :: 0 <= i < |s| && s[i] == found.value && Counts(s[i]) && forall j :: 0 <= j < i ==> !Counts(s[j]))
  {
    if s != [] {
      MeterFound(s[1..]);
      assert forall i :: 1 <= i < |s| ==> s[i] == s[1..][i - 1];
      var found := FindMeter(s);
      if !Counts(s[0]) && found.Some? {
        var i :| 0 <= i < |s[1..]| && s[1..][i] == found.value && Counts(s[1..][i]) && forall j :: 0 <= j < i ==> !Counts(s[1..][j]);
        assert s[i + 1] == found.value && forall j :: 0 <= j < i + 1 ==> !Counts(s[j]);
      }
    }
  }

  /** The meter returned counts overage, is in the store, and is new, in front, if and only if there was none. */
  ghost predicate MeterEnsured(before: Remote, after: Remote, m: Meter) {
    && m.eventName == "attestor_admission_overage" && m in after.meters
    && after == if exists i :: 0 <= i < |before.meters| && Counts(before.meters[i]) then before
                else before.(meters := [m] + before.meters, next := before.next + 1)
  }

  /** The same for the product of a plan. */
  ghost predicate ProductEnsured(before: Remote, after: Remote, plan: Plan, p: Product) {
    && p.active && p.plan == Some(plan) && p in after.products
    && after == if exists i :: 0 <= i < |before.products| && Carries(before.products[i], plan) then before
                else before.(products := [p] + before.products, next := before.next + 1)
  }

  /** The same for a price, with all that is wanted of it. */
  ghost predicate PriceEnsured(before: Remote, after: Remote, q: Wanted, p: Price) {
    && p.active && p.product == q.product && p.kind == Some(q.kind) && p.amount == Some(q.amount) && p.meter == q.meter
    && p.currency == "usd" && p.recurring && p.interval == "month" && p.intervalCount == 1
    && p.usage == (if q.kind == Base then Licensed else Metered) && p in after.prices
    && after == if exists i :: 0 <= i < |before.prices| && Sells(before.prices[i], q) then before
                else before.(prices := [p] + before.prices, next := before.next + 1)
  }

  // ---------------------------------------------------------------- find or create, as functions of the store

  function WithProduct(r: Remote, plan: Plan): Remote {
    if ProductFor(r, plan).Some? then r
    else r.(products := [Product(r.next, true, Some(plan))] + r.products, next := r.next + 1)
  }

  function WithMeter(r: Remote): Remote {
    if FindMeter(r.meters).Some? then r
    else r.(meters := [Meter(r.next, METER_EVENT)] + r.meters, next := r.next + 1)
  }

  function NewPrice(id: Id, q: Wanted): Price {
    Price(id, q.product, true, Some(q.kind), "usd", true, "month", 1, UsageOf(q.kind), q.meter, Some(q.amount))
  }

  function WithPrice(r: Remote, q: Wanted): Remote {
    if PriceFor(r, q).Some? then r
    else r.(prices := [NewPrice(r.next, q)] + r.prices, next := r.next + 1)
  }

  lemma ProductSettled(r: Remote, plan: Plan)
    ensures ProductFor(WithProduct(r, plan), plan).Some?
    ensures ProductFor(r, plan).Some? ==> ProductFor(WithProduct(r, plan), plan) == ProductFor(r, plan)
  {
    if ProductFor(r, plan).None? {
      ActiveHead(WithProduct(r, plan).products);
    }
  }

  lemma ActiveHead(s: seq<Product>)
    requires s != [] && s[0].active
    ensures ActiveProducts(s) == [s[0]] + ActiveProducts(s[1..])
  {
  }

  lemma MeterSettled(r: Remote)
    ensures FindMeter(WithMeter(r).meters).Some?
    ensures FindMeter(r.meters).Some? ==> WithMeter(r) == r
  {
  }

  lemma PriceSettled(r: Remote, q: Wanted)
    ensures PriceFor(WithPrice(r, q), q).Some?
    ensures PriceFor(r, q).Some? ==> WithPrice(r, q) == r
  {
    if PriceFor(r, q).None? {
      PricesHead(WithPrice(r, q).prices, q.product);
    }
  }

  lemma PricesHead(s: seq<Price>, product: Id)
    requires s != [] && s[0].active
    ensures ActivePricesOf(s, product) == (if s[0].product == product then [s[0]] else []) + ActivePricesOf(s[1..], product)
  {
  }

  // ---------------------------------------------------------------- steps do not disturb each other

  lemma ProductKeepsProduct(r: Remote, plan: Plan, other: Plan)
    requires plan != other
    ensures ProductFor(WithProduct(r, other), plan) == ProductFor(r, plan)
  {
    if ProductFor(r, other).None? {
      var s := WithProduct(r, other).products;
      ActiveHead(s);
      assert s[1..] == r.products;
      assert ActiveProducts(s)[1..] == ActiveProducts(r.products);
    }
  }

  lemma PriceKeepsPrice(r: Remote, q: Wanted, other: Wanted)
    requires q != other
    ensures PriceFor(WithPrice(r, other), q) == PriceFor(r, q)
  {
    if PriceFor(r, other).None? {
      var s := WithPrice(r, other).prices;
      PricesHead(s, q.product);
      assert s[1..] == r.prices;
      assert s[0].product == q.product ==> !Fits(s[0], q);
      assert s[0].product == q.product ==> ActivePricesOf(s, q.product)[1..] == ActivePricesOf(r.prices, q.product);
      assert s[0].product != q.product ==> ActivePricesOf(s, q.product) == ActivePricesOf(r.prices, q.product);
    }
  }

  // ---------------------------------------------------------------- one plan, all plans

  /** The catalogue's expectations: a base amount for every plan, an overage amount for some. */
  datatype Catalogue = Catalogue(base: Plan -> real, overage: Plan -> Option<real>)

  datatype PlanIds = PlanIds(product: Id, base: Id, overage: Option<Id>)

  function BaseWanted(c: Catalogue, plan: Plan, product: Id): Wanted {
    Wanted(product, Base, c.base(plan), None)
  }

  function OverageWanted(c: Catalogue, plan: Plan, product: Id, meter: Id): Wanted
    requires c.overage(plan).Some?
  {
    Wanted(product, Overage, c.overage(plan).value, Some(meter))
  }

  function ProductIdFor(r: Remote, plan: Plan): Id
    requires ProductFor(r, plan).Some?
  {
    ProductFor(r, plan).value.id
  }

  function PlanPrices(r: Remote, c: Catalogue, plan: Plan, product: Id, meter: Id): Remote {
    var withBase := WithPrice(r, BaseWanted(c, plan, product));
    if c.overage(plan).None? then withBase else WithPrice(withBase, OverageWanted(c, plan, product, meter))
  }

  /** The store after one turn of the plan loop. */
  function WithPlan(r: Remote, c: Catalogue, plan: Plan, meter: Id): Remote {
    var withProduct := WithProduct(r, plan);
    ProductSettled(r, plan);
    PlanPrices(withProduct, c, plan, ProductIdFor(withProduct, plan), meter)
  }

  /** The plan's product and prices are found, under these ids. */
  ghost predicate PlanSettled(r: Remote, c: Catalogue, plan: Plan, meter: Id, ids: PlanIds) {
    && ProductFor(r, plan).Some? && ProductFor(r, plan).value.id == ids.product
    && PriceFor(r, BaseWanted(c, plan, ids.product)).Some?
    && PriceFor(r, BaseWanted(c, plan, ids.product)).value.id == ids.base
    && (c.overage(plan).None? <==> ids.overage.None?)
    && (c.overage(plan).Some? ==>
        && PriceFor(r, OverageWanted(c, plan, ids.product, meter)).Some?
        && Some(PriceFor(r, OverageWanted(c, plan, ids.product, meter)).value.id) == ids.overage)
  }

  /** A settled plan is left alone. */
  lemma SettledStays(r: Remote, c: Catalogue, plan: Plan, meter: Id, ids: PlanIds)
    requires PlanSettled(r, c, plan, meter, ids)
    ensures WithPlan(r, c, plan, meter) == r
  {
    hide ProductFor, PriceFor;
  }

  // ---------------------------------------------------------------- the store's own invariant

  predicate Old(id: Id, next: Id) {
    id < next
  }

  /** Ids are unique in each list, and the next one is new. */
  ghost predicate Valid(r: Remote) {
    && DistinctIds(r.products, (p: Product) => p.id)
    && DistinctIds(r.meters, (m: Meter) => m.id)
    && DistinctIds(r.prices, (p: Price) => p.id)
    && (forall i :: 0 <= i < |r.products| ==> Old(r.products[i].id, r.next))
    && (forall i :: 0 <= i < |r.meters| ==> Old(r.meters[i].id, r.next))
    && (forall i :: 0 <= i < |r.prices| ==> Old(r.prices[i].id, r.next))
  }

  /** Nothing that was there is gone or changed; what is new comes before it. */
  ghost predicate Extends(before: Remote, after: Remote) {
    && |before.products| <= |after.products| && after.products[|after.products| - |before.products|..] == before.products
    && |before.meters| <= |after.meters| && after.meters[|after.meters| - |before.meters|..] == before.meters
    && |before.prices| <= |after.prices| && after.prices[|after.prices| - |before.prices|..] == before.prices
  }

  lemma ExtendsTransitive(a: Remote, b: Remote, c: Remote)
    requires Extends(a, b) && Extends(b, c)
    ensures Extends(a, c)
  {
    SuffixTransitive(a.products, b.products, c.products);
    SuffixTransitive(a.meters, b.meters, c.meters);
    SuffixTransitive(a.prices, b.prices, c.prices);
  }

  lemma SuffixTransitive<T>(a: seq<T>, b: seq<T>, c: seq<T>)
    requires |a| <= |b| <= |c| && b[|b| - |a|..] == a && c[|c| - |b|..] == b
    ensures c[|c| - |a|..] == a
  {
    assert c[|c| - |a|..] == c[|c| - |b|..][|b| - |a|..];
  }

  lemma ProductStep(r: Remote, plan: Plan)
    requires Valid(r)
    ensures Valid(WithProduct(r, plan)) && Extends(r, WithProduct(r, plan))
    ensures WithProduct(r, plan).prices == r.prices && WithProduct(r, plan).meters == r.meters
  {
    hide ProductFor;
  }

  lemma MeterStep(r: Remote)
    requires Valid(r)
    ensures Valid(WithMeter(r)) && Extends(r, WithMeter(r))
  {
    hide FindMeter;
  }

  lemma PriceStep(r: Remote, q: Wanted)
    requires Valid(r)
    ensures Valid(WithPrice(r, q)) && Extends(r, WithPrice(r, q))
    ensures WithPrice(r, q).products == r.products && WithPrice(r, q).meters == r.meters
  {
    hide PriceFor, NewPrice;
    if PriceFor(r, q).None? {
      assert NewPrice(r.next, q).id == r.next by { NewPriceId(r.next, q); }
      PriceFront(r, NewPrice(r.next, q));
    }
  }

  lemma NewPriceId(id: Id, q: Wanted)
    ensures NewPrice(id, q).id == id
  {
  }

  lemma PriceFront(r: Remote, p: Price)
    requires Valid(r) && p.id == r.next
    ensures
      var after := r.(prices := [p] + r.prices, next := r.next + 1);
      Valid(after) && Extends(r, after)
  {
    var prices := [p] + r.prices;
    assert forall i :: 1 <= i < |prices| ==> prices[i] == r.prices[i - 1];
    assert DistinctIds(prices, (x: Price) => x.id);
  }

  lemma {:induction false} FoundProduct(s: seq<Product>, plan: Plan)
    requires FindProduct(s, plan).Some?
    ensures FindProduct(s, plan).value in s && FindProduct(s, plan).value.plan == Some(plan)
  {
    if s[0].plan != Some(plan) {
      FoundProduct(s[1..], plan);
    }
  }

  lemma {:induction false} ActiveAreListed(s: seq<Product>)
    ensures forall p :: p in ActiveProducts(s) ==> p in s
  {
    if s != [] {
      ActiveAreListed(s[1..]);
    }
  }

  /** Two plans never share a product. */
  lemma ProductsDiffer(r: Remote, plan: Plan, other: Plan)
    requires Valid(r) && plan != other
    requires ProductFor(r, plan).Some? && ProductFor(r, other).Some?
    ensures ProductFor(r, plan).value.id != ProductFor(r, other).value.id
  {
    FoundProduct(ActiveProducts(r.products), plan);
    FoundProduct(ActiveProducts(r.products), other);
    ActiveAreListed(r.products);
    var p, q := ProductFor(r, plan).value, ProductFor(r, other).value;
    var i :| 0 <= i < |r.products| && r.products[i] == p;
    var j :| 0 <= j < |r.products| && r.products[j] == q;
    assert i != j;
  }

  /** The plan step as three steps: what it needs is settled when it ends. */
  lemma PlanStep(r: Remote, c: Catalogue, plan: Plan, meter: Id) returns (ids: PlanIds)
    requires Valid(r)
    ensures Valid(WithPlan(r, c, plan, meter)) && Extends(r, WithPlan(r, c, plan, meter))
    ensures PlanSettled(WithPlan(r, c, plan, meter), c, plan, meter, ids)
    ensures WithPlan(r, c, plan, meter).meters == r.meters
    ensures WithPlan(r, c, plan, meter).products == WithProduct(r, plan).products
  {
    hide ProductFor, PriceFor, Valid, Extends, WithProduct, WithPrice, PlanPrices, PlanSettled;
    ProductStep(r, plan);
    ProductSettled(r, plan);
    var r1 := WithProduct(r, plan);
    ids := PricesStep(r1, c, plan, ProductIdFor(r1, plan), meter);
    ExtendsTransitive(r, r1, WithPlan(r, c, plan, meter));
  }

  lemma PricesStep(r: Remote, c: Catalogue, plan: Plan, product: Id, meter: Id) returns (ids: PlanIds)
    requires Valid(r) && ProductFor(r, plan).Some? && ProductFor(r, plan).value.id == product
    ensures
      var after := PlanPrices(r, c, plan, product, meter);
      && Valid(after) && Extends(r, after) && after.meters == r.meters && after.products == r.products
      && PlanSettled(after, c, plan, meter, ids)
  {
    hide ProductFor, PriceFor, Valid, Extends, WithPrice;
    var base := BaseWanted(c, plan, product);
    PriceStep(r, base);
    PriceSettled(r, base);
    var r1 := WithPrice(r, base);
    SameProducts(r, r1, plan);
    if c.overage(plan).None? {
      ids := PlanIds(product, PriceFor(r1, base).value.id, None);
    } else {
      var overage := OverageWanted(c, plan, product, meter);
      PriceStep(r1, overage);
      PriceSettled(r1, overage);
      PriceKeepsPrice(r1, base, overage);
      var r2 := WithPrice(r1, overage);
      ExtendsTransitive(r, r1, r2);
      SameProducts(r, r2, plan);
      ids := PlanIds(product, PriceFor(r2, base).value.id, Some(PriceFor(r2, overage).value.id));
    }
  }

  lemma SameProducts(a: Remote, b: Remote, plan: Plan)
    requires a.products == b.products
    ensures ProductFor(a, plan) == ProductFor(b, plan)
  {
  }

  /** Settling one plan leaves every other settled plan as it was. */
  lemma PlanKeepsPlan(r: Remote, c: Catalogue, plan: Plan, meter: Id, other: Plan, ids: PlanIds)
    requires Valid(r) && plan != other && PlanSettled(r, c, other, meter, ids)
    ensures PlanSettled(WithPlan(r, c, plan, meter), c, other, meter, ids)
  {
    hide ProductFor, PriceFor, Valid, WithProduct, WithPrice, BaseWanted, OverageWanted, PlanSettled;
    ProductStep(r, plan);
    ProductSettled(r, plan);
    ProductKeepsProduct(r, other, plan);
    var r1 := WithProduct(r, plan);
    SettledProduct(r, c, other, meter, ids);
    ProductsDiffer(r1, plan, other);
    var product := ProductIdFor(r1, plan);
    PriceKeepsPlan(r, r1, c, other, meter, ids);
    WantedProducts(c, plan, product, meter);
    PriceStepKeepsPlan(r1, c, BaseWanted(c, plan, product), other, meter, ids);
    if c.overage(plan).Some? {
      var r2 := WithPrice(r1, BaseWanted(c, plan, product));
      PriceStepKeepsPlan(r2, c, OverageWanted(c, plan, product, meter), other, meter, ids);
    }
  }

  lemma SettledProduct(r: Remote, c: Catalogue, plan: Plan, meter: Id, ids: PlanIds)
    requires PlanSettled(r, c, plan, meter, ids)
    ensures ProductFor(r, plan).Some? && ProductFor(r, plan).value.id == ids.product
  {
  }

  lemma WantedProducts(c: Catalogue, plan: Plan, product: Id, meter: Id)
    ensures BaseWanted(c, plan, product).product == product
    ensures c.overage(plan).Some? ==> OverageWanted(c, plan, product, meter).product == product
  {
  }

  lemma PriceKeepsPlan(r: Remote, r1: Remote, c: Catalogue, other: Plan, meter: Id, ids: PlanIds)
    requires PlanSettled(r, c, other, meter, ids)
    requires r1.prices == r.prices && ProductFor(r1, other) == ProductFor(r, other)
    ensures PlanSettled(r1, c, other, meter, ids)
  {
    hide ProductFor;
  }

  lemma PriceStepKeepsPlan(r: Remote, c: Catalogue, q: Wanted, other: Plan, meter: Id, ids: PlanIds)
    requires PlanSettled(r, c, other, meter, ids) && q.product != ids.product
    ensures PlanSettled(WithPrice(r, q), c, other, meter, ids)
  {
    hide ProductFor, PriceFor;
    SameProducts(r, WithPrice(r, q), other);
    PriceKeepsPrice(r, BaseWanted(c, other, ids.product), q);
    if c.overage(other).Some? {
      PriceKeepsPrice(r, OverageWanted(c, other, ids.product, meter), q);
    }
  }

  lemma PlanInSteps(r: Remote, c: Catalogue, plan: Plan, meter: Id, product: Product)
    requires ProductFor(WithProduct(r, plan), plan) == Some(product)
    ensures
      var withBase := WithPrice(WithProduct(r, plan), BaseWanted(c, plan, product.id));
      WithPlan(r, c, plan, meter) ==
        if c.overage(plan).None? then withBase else WithPrice(withBase, OverageWanted(c, plan, product.id, meter))
  {
    hide ProductFor, WithProduct, WithPrice, BaseWanted, OverageWanted;
  }

  lemma KindsApart(c: Catalogue, plan: Plan, product: Id, meter: Id)
    requires c.overage(plan).Some?
    ensures BaseWanted(c, plan, product) != OverageWanted(c, plan, product, meter)
  {
  }

  lemma PlanFound(r: Remote, c: Catalogue, plan: Plan, meter: Id, ids: PlanIds)
    requires ProductFor(r, plan).Some? && ProductFor(r, plan).value.id == ids.product
    requires PriceFor(r, BaseWanted(c, plan, ids.product)).Some? && PriceFor(r, BaseWanted(c, plan, ids.product)).value.id == ids.base
    requires c.overage(plan).None? <==> ids.overage.None?
    requires c.overage(plan).Some? ==>
      && PriceFor(r, OverageWanted(c, plan, ids.product, meter)).Some?
      && PriceFor(r, OverageWanted(c, plan, ids.product, meter)).value.id == ids.overage.value
    ensures PlanSettled(r, c, plan, meter, ids)
  {
  }

  // ---------------------------------------------------------------- the bootstrap

  /** The meter is found, and so is everything of the first `n` plans, under these ids. */
  ghost predicate Catalogued(r: Remote, c: Catalogue, meter: Id, ids: seq<PlanIds>, n: nat) {
    && FindMeter(r.meters).Some? && FindMeter(r.meters).value.id == meter
    && n <= |PLANS| && |ids| == n
    && forall i :: 0 <= i < n ==> PlanSettled(r, c, PLANS[i], meter, ids[i])
  }

  class Store {
    var remote: Remote
    const cap: nat

    constructor (r: Remote, cap: nat)
      ensures remote == r && this.cap == cap
    {
      remote, this.cap := r, cap;
    }

    method EnsureMeter() returns (m: Meter)
      requires Valid(remote) && cap > 0
      modifies this
      ensures remote == WithMeter(old(remote))
      ensures FindMeter(remote.meters) == Some(m)
      ensures MeterEnsured(old(remote), remote, m)
    {
      MeterSettled(remote);
      MeterFound(remote.meters);
      var meters := ListAll(remote.meters, (x: Meter) => x.id, cap);
      var existing := FindMeter(meters);
      if existing.Some? {
        return existing.value;
      }
      m := Meter(remote.next, METER_EVENT);
      remote := remote.(meters := [m] + remote.meters, next := remote.next + 1);
    }

    method EnsureProduct(plan: Plan) returns (p: Product)
      requires Valid(remote) && cap > 0
      modifies this
      ensures remote == WithProduct(old(remote), plan)
      ensures ProductFor(remote, plan) == Some(p)
      ensures ProductEnsured(old(remote), remote, plan, p)
    {
      hide FindProduct;
      ProductFound(remote.products, plan);
      ActiveDistinct(remote.products);
      var products := ListAll(ActiveProducts(remote.products), (x: Product) => x.id, cap);
      var existing := FindProduct(products, plan);
      if existing.Some? {
        return existing.value;
      }
      p := Product(remote.next, true, Some(plan));
      remote := remote.(products := [p] + remote.products, next := remote.next + 1);
      ActiveHead(remote.products);
      FirstFound(p, ActiveProducts(remote.products[1..]), plan);
    }

    method EnsurePrice(q: Wanted) returns (p: Price)
      requires Valid(remote) && cap > 0
      modifies this
      ensures remote == WithPrice(old(remote), q)
      ensures PriceFor(remote, q) == Some(p)
      ensures PriceEnsured(old(remote), remote, q, p)
    {
      PriceFound(remote.prices, q);
      PricesDistinct(remote.prices, q.product);
      var prices := ListAll(ActivePricesOf(remote.prices, q.product), (x: Price) => x.id, cap);
      var existing := FindPrice(prices, q);
      if existing.Some? {
        return existing.value;
      }
      p := NewPrice(remote.next, q);
      remote := remote.(prices := [p] + remote.prices, next := remote.next + 1);
      PricesHead(remote.prices, q.product);
    }

    /** One turn of the plan loop. */
    method EnsurePlan(c: Catalogue, plan: Plan, meter: Id) returns (ids: PlanIds)
      requires Valid(remote) && cap > 0
      modifies this
      ensures remote == WithPlan(old(remote), c, plan, meter)
      ensures PlanSettled(remote, c, plan, meter, ids)
    {
      hide *;
      ProductStep(remote, plan);
      ghost var before := remote;
      var product := EnsureProduct(plan);
      ghost var withProduct := remote;
      PlanInSteps(before, c, plan, meter, product);
      var wanted := BaseWanted(c, plan, product.id);
      PriceStep(remote, wanted);
      var base := EnsurePrice(wanted);
      SameProducts(withProduct, remote, plan);
      ids := PlanIds(product.id, base.id, None);
      if c.overage(plan).Some? {
        var more := OverageWanted(c, plan, product.id, meter);
        KindsApart(c, plan, product.id, meter);
        PriceKeepsPrice(remote, wanted, more);
        PriceStep(remote, more);
        ghost var withBase := remote;
        var overage := EnsurePrice(more);
        SameProducts(withBase, remote, plan);
        ids := ids.(overage := Some(overage.id));
      }
      PlanFound(remote, c, plan, meter, ids);
    }

    /**
     The whole run. It leaves everything it needs findable under the ids it returns and touches nothing that
     was there; and where an earlier run has been, it creates nothing and returns that run's ids.
     */
    method Bootstrap(c: Catalogue) returns (meter: Id, ids: seq<PlanIds>)
      requires Valid(remote) && cap > 0
      modifies this
      ensures Valid(remote) && Extends(old(remote), remote)
      ensures Catalogued(remote, c, meter, ids, |PLANS|)
      ensures forall m, earlier :: Catalogued(old(remote), c, m, earlier, |PLANS|) ==>
        remote == old(remote) && meter == m && ids == earlier
    {
      hide Valid, Extends, PlanSettled, WithPlan, WithMeter, FindMeter, MeterEnsured;
      ghost var start := remote;
      MeterStep(start);
      MeterSettled(start);
      var found := EnsureMeter();
      meter, ids := found.id, [];
      for i := 0 to |PLANS|
        invariant Valid(remote) && Extends(start, remote)
        invariant Catalogued(remote, c, meter, ids, i)
        invariant forall m, earlier :: Catalogued(start, c, m, earlier, |PLANS|) ==> remote == start
      {
        ghost var before := remote;
        ghost var settled := PlanStep(before, c, PLANS[i], meter);
        forall j | 0 <= j < i
          ensures PlanSettled(WithPlan(before, c, PLANS[i], meter), c, PLANS[j], meter, ids[j])
        {
          PlanKeepsPlan(before, c, PLANS[i], meter, PLANS[j], ids[j]);
        }
        forall m, earlier | Catalogued(start, c, m, earlier, |PLANS|)
          ensures WithPlan(before, c, PLANS[i], meter) == start
        {
          SettledStays(start, c, PLANS[i], m, earlier[i]);
        }
        var planIds := EnsurePlan(c, PLANS[i], meter);
        ExtendsTransitive(start, before, remote);
        ids := ids + [planIds];
      }
      forall m, earlier | Catalogued(start, c, m, earlier, |PLANS|)
        ensures meter == m && ids == earlier
      {
        CataloguedIds(start, c, m, earlier, meter, ids);
      }
    }
  }

  /** There is a price with this id that sells what is wanted. */
  ghost predicate SoldUnder(r: Remote, q: Wanted, id: Id) {
    exists i :: 0 <= i < |r.prices| && r.prices[i].id == id && Sells(r.prices[i], q)
  }

  /** Everything a catalogued store holds under the ids: the meter, and for each of the three plans its product and prices. */
  lemma CataloguedMeans(r: Remote, c: Catalogue, meter: Id, ids: seq<PlanIds>, n: nat)
    requires Catalogued(r, c, meter, ids, 3) && n < 3
    ensures exists i :: 0 <= i < |r.meters| && r.meters[i].id == meter && Counts(r.meters[i])
    ensures
      var plan := if n == 0 then Pilot else if n == 1 then Starter else Pro;
      && (exists i :: 0 <= i < |r.products| && r.products[i].id == ids[n].product && Carries(r.products[i], plan))
      && SoldUnder(r, Wanted(ids[n].product, Base, c.base(plan), None), ids[n].base)
      && (c.overage(plan).None? <==> ids[n].overage.None?)
      && (c.overage(plan).Some? ==>
          SoldUnder(r, Wanted(ids[n].product, Overage, c.overage(plan).value, Some(meter)), ids[n].overage.value))
  {
    hide FindMeter, FindProduct, FindPrice, ActivePricesOf, ActiveProducts, Sells;
    var plan := PLANS[n];
    assert PlanSettled(r, c, plan, meter, ids[n]);
    MeterFound(r.meters);
    ProductFound(r.products, plan);
    PriceFound(r.prices, BaseWanted(c, plan, ids[n].product));
    if c.overage(plan).Some? {
      PriceFound(r.prices, OverageWanted(c, plan, ids[n].product, meter));
    }
  }

  lemma FirstFound(p: Product, rest: seq<Product>, plan: Plan)
    requires p.plan == Some(plan)
    ensures FindProduct([p] + rest, plan) == Some(p)
  {
  }

  lemma {:induction false} ActiveDistinct(s: seq<Product>)
    requires DistinctIds(s, (p: Product) => p.id)
    ensures DistinctIds(ActiveProducts(s), (p: Product) => p.id)
  {
    if s != [] {
      assert forall i, j :: 0 <= i < j < |s[1..]| ==> s[1..][i] == s[i + 1] && s[1..][j] == s[j + 1];
      ActiveDistinct(s[1..]);
      ActiveAreListed(s[1..]);
      assert forall p :: p in s[1..] ==> p.id != s[0].id;
    }
  }

  lemma {:induction false} PricesDistinct(s: seq<Price>, product: Id)
    requires DistinctIds(s, (p: Price) => p.id)
    ensures DistinctIds(ActivePricesOf(s, product), (p: Price) => p.id)
    ensures forall p :: p in ActivePricesOf(s, product) ==> p in s
  {
    if s != [] {
      assert forall i, j :: 0 <= i < j < |s[1..]| ==> s[1..][i] == s[i + 1] && s[1..][j] == s[j + 1];
      PricesDistinct(s[1..], product);
      assert forall p :: p in s[1..] ==> p.id != s[0].id;
    }
  }

  /** The ids are the store's, not the run's. */
  lemma CataloguedIds(r: Remote, c: Catalogue, m0: Id, ids0: seq<PlanIds>, m1: Id, ids1: seq<PlanIds>)
    requires Catalogued(r, c, m0, ids0, |PLANS|) && Catalogued(r, c, m1, ids1, |PLANS|)
    ensures m0 == m1 && ids0 == ids1
  {
    hide ProductFor, PriceFor, FindMeter;
    forall i | 0 <= i < |PLANS|
      ensures ids0[i] == ids1[i]
    {
      assert PlanSettled(r, c, PLANS[i], m0, ids0[i]) && PlanSettled(r, c, PLANS[i], m0, ids1[i]);
    }
  }
}
