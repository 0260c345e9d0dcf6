/**
 * The local store (dbService.ts): two collections kept in browser storage,
 * each replaced as a whole on every change, plus one notification per change.
 *
 * Browser storage becomes two fields that are `None` while their key is
 * absent; JSON serialisation is the identity; `window.dispatchEvent` becomes
 * a ghost log of the events sent. The random project id, the clock reading
 * and the formatted date are parameters.
 */
module Store {
  import opened Optional
  import opened Seqs
  import opened Strings
  import opened Types

  /** The notifications `notifyUpdate` broadcasts. */
  datatype Event = ProjectsUpdated | OrdersUpdated

  /** The event name a listener subscribes to. */
  function EventName(e: Event): string {
    match e
    case ProjectsUpdated => "projectsUpdated"
    case OrdersUpdated => "ordersUpdated"
  }

  /** The two events have different names, so a listener for one never hears the other. */
  lemma EventNameInjective(a: Event, b: Event)
    ensures EventName(a) == EventName(b) <==> a == b
  {
    if a != b {
      assert EventName(a)[0] != EventName(b)[0];
    }
  }

  /**
   * The ten built-in projects shown while nothing is stored, ids "1" to "10",
   * with their titles, categories, images, palettes and tags. Their
   * descriptions are display text that no operation reads and are left empty.
   */
  function InitialProjects(): (r: seq<Project>)
    ensures |r| == 10
  {
    [ SeedPerfumeStore(), SeedRealEstate(), SeedMeditation(), SeedPlants(), SeedMedical(), SeedFashion(), SeedCloud(), SeedTravel(), SeedArchitecture(), SeedWatches() ]
  }

  function SeedPerfumeStore(): (p: Project)
    ensures p.id == Decimal(1)
  {
    Project("1", "متجر عطور ذكي", Stores, Unsplash("1541643600914-78b084683601"), "", Some(Gold), Some(["E-commerce", "Luxury", "AI"]))
  }

  function SeedRealEstate(): (p: Project)
    ensures p.id == Decimal(2)
  {
    Project("2", "منصة عقارات عصرية", Companies, Unsplash("1460472178825-e5240623abe5"), "", Some(Blue), Some(["Real Estate", "Dashboard", "Modern"]))
  }

  function SeedMeditation(): (p: Project)
    ensures p.id == Decimal(3)
  {
    Project("3", "تطبيق تأمل وراحة", Personal, Unsplash("1518241353330-0f7941c2d9b5"), "", Some(Purple), Some(["Mobile-First", "Minimalist", "Health"]))
  }

  function SeedPlants(): (p: Project)
    ensures p.id == Decimal(4)
  {
    Project("4", "موقع نباتات ومنزل", Stores, Unsplash("1485955900006-10f4d324d411"), "", Some(Green), Some(["Nature", "Clean", "Retail"]))
  }

  function SeedMedical(): (p: Project)
    ensures p.id == Decimal(5)
  {
    Project("5", "مركز طبي متطور", Companies, Unsplash("1519494026892-80bbd2d6fd0d"), "", Some(Blue), Some(["Medical", "Booking", "Trust"]))
  }

  function SeedFashion(): (p: Project)
    ensures p.id == Decimal(6)
  {
    Project("6", "معرض أزياء فاخر", Personal, Unsplash("1490481651871-ab68de25d43d"), "", Some(Gold), Some(["Fashion", "Creative", "Gold"]))
  }

  function SeedCloud(): (p: Project)
    ensures p.id == Decimal(7)
  {
    Project("7", "منصة تكنولوجيا سحابية", Companies, Unsplash("1451187580459-43490279c0fa"), "", Some(Purple), Some(["Cloud", "SaaS", "High-Tech"]))
  }

  function SeedTravel(): (p: Project)
    ensures p.id == Decimal(8)
  {
    Project("8", "وكالة سفر وسياحة", Stores, Unsplash("1469854523086-cc02fe5d8800"), "", Some(Green), Some(["Travel", "Nature", "Booking"]))
  }

  function SeedArchitecture(): (p: Project)
    ensures p.id == Decimal(9)
  {
    Project("9", "مكتب هندسة معمارية", Companies, Unsplash("1487958449913-f95f00aabe67"), "", Some(Blue), Some(["Architecture", "Corporate", "Geometry"]))
  }

  function SeedWatches(): (p: Project)
    ensures p.id == Decimal(10)
  {
    Project("10", "متجر ساعات فاخرة", Stores, Unsplash("1523275335684-37898b6baf30"), "", Some(Gold), Some(["E-commerce", "Watches", "Premium"]))
  }

  /** The image address the built-in projects use for an Unsplash photo id. */
  function Unsplash(photoId: string): string {
    "https://images.unsplash.com/photo-" + photoId + "?auto=format&fit=crop&q=80&w=1200"
  }

  function ProjectKey(p: Project): string { p.id }
  function OrderKey(o: SiteOrder): string { o.id }

  function KeyIs<T>(key: T -> string, id: string): T -> bool {
    x => key(x) == id
  }

  function KeyIsNot<T>(key: T -> string, id: string): T -> bool {
    x => key(x) != id
  }

  /** `xs.filter(x => x.id !== id)`. */
  function RemoveId<T(==)>(xs: seq<T>, key: T -> string, id: string): (r: seq<T>)
    ensures |r| <= |xs|
    ensures forall i :: 0 <= i < |r| ==> r[i] in xs && key(r[i]) != id
    ensures forall i :: 0 <= i < |xs| && key(xs[i]) != id ==> xs[i] in r
  {
    var r := Filter(xs, KeyIsNot(key, id));
    assert forall i :: 0 <= i < |r| ==> KeyIsNot(key, id)(r[i]);
    assert forall i :: 0 <= i < |xs| && key(xs[i]) != id ==> KeyIsNot(key, id)(xs[i]);
    r
  }

  /** The rewrite `updateOrderContent` applies to a matching order. */
  function SetContent(html: string): SiteOrder -> SiteOrder {
    (o: SiteOrder) => o.(htmlContent := Some(html), status := Generated)
  }

  /** The rewrite `updateOrderStatus` applies to a matching order. */
  function SetStatus(status: OrderStatus): SiteOrder -> SiteOrder {
    (o: SiteOrder) => o.(status := status)
  }

  /** `orders.map(o => o.id === id ? { ...o, htmlContent: html, status: 'تم التوليد' } : o)`. */
  function WithContent(orders: seq<SiteOrder>, id: string, html: string): (r: seq<SiteOrder>)
    ensures |r| == |orders|
    ensures forall i :: 0 <= i < |r| ==>
      r[i].id == orders[i].id && r[i].customerName == orders[i].customerName
      && r[i].requirements == orders[i].requirements && r[i].price == orders[i].price
  {
    MapWhere(orders, KeyIs(OrderKey, id), SetContent(html))
  }

  /** `orders.map(o => o.id === id ? { ...o, status } : o)`. */
  function WithStatus(orders: seq<SiteOrder>, id: string, status: OrderStatus): (r: seq<SiteOrder>)
    ensures |r| == |orders|
    ensures forall i :: 0 <= i < |r| ==>
      r[i].id == orders[i].id && r[i].customerName == orders[i].customerName
      && r[i].requirements == orders[i].requirements && r[i].price == orders[i].price
      && r[i].htmlContent == orders[i].htmlContent
  {
    MapWhere(orders, KeyIs(OrderKey, id), SetStatus(status))
  }

  /** `ORD-${Date.now()}`. */
  function OrderId(timestamp: nat): (r: string)
    ensures |r| >= 5 && r[..4] == "ORD-"
    ensures forall i :: 4 <= i < |r| ==> IsDigit(r[i])
  {
    var digits := Decimal(timestamp);
    var r := "ORD-" + digits;
    assert forall i :: 4 <= i < |r| ==> r[i] == digits[i - 4];
    r
  }

  /** The record `saveOrder` builds from its argument. */
  function NewOrder(d: OrderDraft, timestamp: nat, date: string): SiteOrder {
    SiteOrder(OrderId(timestamp), d.customerName, d.requirements, Pending, date, d.price, d.htmlContent)
  }

  class DatabaseService {
    /**
     * The list `getProjects` falls back to: `INITIAL_PROJECTS`, that is
     * `InitialProjects()`, in the application's one instance. Scenarios that
     * touch only orders build a store with an empty one.
     */
    const seed: seq<Project>
    /** The projects key of browser storage; `None` while it has never been written. */
    var storedProjects: Option<seq<Project>>
    /** The orders key of browser storage; `None` while it has never been written. */
    var storedOrders: Option<seq<SiteOrder>>
    /** Every event broadcast so far, oldest first. */
    ghost var events: seq<Event>

    /** A service over whatever browser storage already holds. */
    constructor (seed: seq<Project>, projects: Option<seq<Project>>, orders: Option<seq<SiteOrder>>)
      ensures this.seed == seed
      ensures storedProjects == projects && storedOrders == orders && events == []
    {
      this.seed := seed;
      storedProjects := projects;
      storedOrders := orders;
      events := [];
    }

    /** `getProjects`: what is stored, or the built-in list while nothing is. */
    function GetProjects(): (r: seq<Project>)
      reads this
      ensures storedProjects.None? ==> r == seed
      ensures storedProjects.Some? ==> r == storedProjects.value
    {
      match storedProjects
      case None => seed
      case Some(ps) => ps
    }

    /** `getOrders`: what is stored, or no orders while nothing is. */
    function GetOrders(): (r: seq<SiteOrder>)
      reads this
      ensures storedOrders.None? ==> r == []
      ensures storedOrders.Some? ==> r == storedOrders.value
    {
      match storedOrders
      case None => []
      case Some(os) => os
    }

    /** `notifyUpdate`: broadcasts one named event. */
    ghost method NotifyUpdate(e: Event)
      modifies this`events
      ensures events == old(events) + [e]
    {
      events := events + [e];
    }

    /** `addProject`: the draft plus an id, put in front of the current projects. */
    method AddProject(draft: ProjectDraft, randomId: string) returns (p: Project)
      modifies this
      ensures p == WithId(draft, randomId)
      ensures storedProjects == Some([p] + old(GetProjects()))
      ensures storedOrders == old(storedOrders)
      ensures events == old(events) + [ProjectsUpdated]
    {
      var projects := GetProjects();
      p := WithId(draft, randomId);
      storedProjects := Some([p] + projects);
      NotifyUpdate(ProjectsUpdated);
    }

    /** `deleteProject`: keeps every project whose id differs. */
    method DeleteProject(id: string)
      modifies this
      ensures storedProjects == Some(RemoveId(old(GetProjects()), ProjectKey, id))
      ensures storedOrders == old(storedOrders)
      ensures events == old(events) + [ProjectsUpdated]
    {
      var projects := GetProjects();
      storedProjects := Some(RemoveId(projects, ProjectKey, id));
      NotifyUpdate(ProjectsUpdated);
    }

    /** `saveOrder`: a pending order with a clock-derived id, put in front of the current orders. */
    method SaveOrder(draft: OrderDraft, timestamp: nat, date: string) returns (o: SiteOrder)
      modifies this
      ensures o == NewOrder(draft, timestamp, date)
      ensures o.id == OrderId(timestamp) && o.status == Pending && o.date == date
      ensures o.customerName == draft.customerName && o.requirements == draft.requirements
      ensures o.price == draft.price && o.htmlContent == draft.htmlContent
      ensures storedOrders == Some([o] + old(GetOrders()))
      ensures storedProjects == old(storedProjects)
      ensures events == old(events) + [OrdersUpdated]
    {
      var orders := GetOrders();
      o := NewOrder(draft, timestamp, date);
      storedOrders := Some([o] + orders);
      NotifyUpdate(OrdersUpdated);
    }

    /** `updateOrderContent`: attaches the markup and marks generated, whatever the status was. */
    method UpdateOrderContent(id: string, html: string)
      modifies this
      ensures storedOrders == Some(WithContent(old(GetOrders()), id, html))
      ensures storedProjects == old(storedProjects)
      ensures events == old(events) + [OrdersUpdated]
    {
      var orders := GetOrders();
      storedOrders := Some(WithContent(orders, id, html));
      NotifyUpdate(OrdersUpdated);
    }

    /** `updateOrderStatus`: sets any status on the matching orders. */
    method UpdateOrderStatus(id: string, status: OrderStatus)
      modifies this
      ensures storedOrders == Some(WithStatus(old(GetOrders()), id, status))
      ensures storedProjects == old(storedProjects)
      ensures events == old(events) + [OrdersUpdated]
    {
      var orders := GetOrders();
      storedOrders := Some(WithStatus(orders, id, status));
      NotifyUpdate(OrdersUpdated);
    }

    /** `deleteOrder`: keeps every order whose id differs. */
    method DeleteOrder(id: string)
      modifies this
      ensures storedOrders == Some(RemoveId(old(GetOrders()), OrderKey, id))
      ensures storedProjects == old(storedProjects)
      ensures events == old(events) + [OrdersUpdated]
    {
      var orders := GetOrders();
      storedOrders := Some(RemoveId(orders, OrderKey, id));
      NotifyUpdate(OrdersUpdated);
    }
  }

  // Lemmas

  /** The built-in projects have ten pairwise different ids. */
  lemma InitialProjectIdsDistinct()
    ensures forall i, j :: 0 <= i < j < |InitialProjects()| ==> InitialProjects()[i].id != InitialProjects()[j].id
  {
    var r := InitialProjects();
    assert forall i :: 0 <= i < |r| ==> r[i].id == Decimal(i + 1);
    forall i, j | 0 <= i < j < |r| ensures r[i].id != r[j].id {
      DecimalInjective(i + 1, j + 1);
    }
  }

  /** A store over empty browser storage lists the ten built-in projects and no orders. */
  method FreshStoreReadsSeed() returns (projects: seq<Project>, orders: seq<SiteOrder>)
    ensures projects == InitialProjects() && |projects| == 10
    ensures orders == []
  {
    var db := new DatabaseService(InitialProjects(), None, None);
    projects := db.GetProjects();
    orders := db.GetOrders();
  }

  /**
   * A delete removes every entry with the id, keeps every other entry, and
   * keeps the survivors in their original order.
   */
  lemma RemoveIdKeepsRestInOrder<T>(xs: seq<T>, key: T -> string, id: string)
    ensures var r := RemoveId(xs, key, id);
      IsSubseq(r, xs)
      && (forall i :: 0 <= i < |r| ==> key(r[i]) != id)
      && (forall i :: 0 <= i < |xs| && key(xs[i]) != id ==> xs[i] in r)
  {
    FilterIsSubseq(xs, KeyIsNot(key, id));
  }

  /** Deleting an id nobody has leaves the list as it was. */
  lemma RemoveAbsentIdIsNoop<T>(xs: seq<T>, key: T -> string, id: string)
    requires forall i :: 0 <= i < |xs| ==> key(xs[i]) != id
    ensures RemoveId(xs, key, id) == xs
  {
    FilterKeepsAll(xs, KeyIsNot(key, id));
  }

  /**
   * `updateOrderContent` rewrites exactly the matching orders: their markup
   * is set and their status becomes generated, even when it was complete.
   */
  lemma WithContentPointwise(orders: seq<SiteOrder>, id: string, html: string)
    ensures var r := WithContent(orders, id, html);
      |r| == |orders|
      && forall i :: 0 <= i < |orders| ==>
        if orders[i].id == id
        then r[i] == orders[i].(htmlContent := Some(html), status := Generated)
        else r[i] == orders[i]
  {
    var r := WithContent(orders, id, html);
    forall i | 0 <= i < |orders|
      ensures if orders[i].id == id
        then r[i] == orders[i].(htmlContent := Some(html), status := Generated)
        else r[i] == orders[i]
    {
      assert OrderKey(orders[i]) == orders[i].id;
      assert KeyIs(OrderKey, id)(orders[i]) == (orders[i].id == id);
    }
  }

  /** `updateOrderStatus` changes only the status, and only of the matching orders. */
  lemma WithStatusPointwise(orders: seq<SiteOrder>, id: string, status: OrderStatus)
    ensures var r := WithStatus(orders, id, status);
      |r| == |orders|
      && forall i :: 0 <= i < |orders| ==>
        if orders[i].id == id then r[i] == orders[i].(status := status) else r[i] == orders[i]
  {
    var r := WithStatus(orders, id, status);
    forall i | 0 <= i < |orders|
      ensures if orders[i].id == id then r[i] == orders[i].(status := status) else r[i] == orders[i]
    {
      assert OrderKey(orders[i]) == orders[i].id;
      assert KeyIs(OrderKey, id)(orders[i]) == (orders[i].id == id);
    }
  }

  /** Setting a status twice is setting it once. */
  lemma WithStatusIdempotent(orders: seq<SiteOrder>, id: string, status: OrderStatus)
    ensures WithStatus(WithStatus(orders, id, status), id, status) == WithStatus(orders, id, status)
  {
    MapWhereIdempotent(orders, KeyIs(OrderKey, id), SetStatus(status));
  }

  /** Attaching the same markup twice is attaching it once. */
  lemma WithContentIdempotent(orders: seq<SiteOrder>, id: string, html: string)
    ensures WithContent(WithContent(orders, id, html), id, html) == WithContent(orders, id, html)
  {
    MapWhereIdempotent(orders, KeyIs(OrderKey, id), SetContent(html));
  }

  /** An update for an id no order has leaves the orders as they were. */
  lemma UpdateAbsentIdIsNoop(orders: seq<SiteOrder>, id: string, html: string, status: OrderStatus)
    requires forall i :: 0 <= i < |orders| ==> orders[i].id != id
    ensures WithContent(orders, id, html) == orders
    ensures WithStatus(orders, id, status) == orders
  {
    MapWhereNowhere(orders, KeyIs(OrderKey, id), SetContent(html));
    MapWhereNowhere(orders, KeyIs(OrderKey, id), SetStatus(status));
  }

  /**
   * The store does not keep statuses monotone: attaching markup to a
   * completed order sends it back to generated, and any status can be set
   * over any other.
   */
  lemma StatusCanRegress(orders: seq<SiteOrder>, i: nat, html: string, status: OrderStatus)
    requires i < |orders|
    ensures WithContent(orders, orders[i].id, html)[i].status == Generated
    ensures WithStatus(orders, orders[i].id, status)[i].status == status
    ensures orders[i].status == Completed ==>
      StatusRank(WithContent(orders, orders[i].id, html)[i].status) < StatusRank(orders[i].status)
  {
    WithContentPointwise(orders, orders[i].id, html);
    WithStatusPointwise(orders, orders[i].id, status);
  }

  /** Order ids coincide exactly when the clock readings do. */
  lemma OrderIdInjective(t1: nat, t2: nat)
    ensures OrderId(t1) == OrderId(t2) <==> t1 == t2
  {
    PrefixedDecimalInjective("ORD-", t1, t2);
  }

  /**
   * Two orders saved one after the other, with a clock that never runs
   * backwards, get different ids exactly when the clock advanced between them.
   * Both orders are kept, the later one first.
   */
  method SaveTwice(d1: OrderDraft, d2: OrderDraft, t1: nat, t2: nat, date: string)
    returns (first: SiteOrder, second: SiteOrder, orders: seq<SiteOrder>, count: nat)
    requires t1 <= t2
    ensures first.id != second.id <==> t1 < t2
    ensures first == NewOrder(d1, t1, date) && second == NewOrder(d2, t2, date)
    ensures orders == [second, first]
    ensures count == 2
  {
    var db := new DatabaseService([], None, None);
    first := db.SaveOrder(d1, t1, date);
    second := db.SaveOrder(d2, t2, date);
    OrderIdInjective(t1, t2);
    orders := db.GetOrders();
    count := |orders|;
  }
}
