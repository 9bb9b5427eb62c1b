/** The seller dashboard: the seller's products and their statistics, whether instant
    delivery may be offered, the orders that concern the seller, the sales analytics,
    the custom-question editor, the payload of a new product and the status styles. */
module SellerDashboard {
  import opened Seqs
  import Text
  import opened Catalog
  import Auth

  /** `p.sellerId === user?.id`: false for every product when nobody is signed in. */
  predicate OwnedBy(p: Product, user: Option<Auth.User>) {
    user.Some? && p.sellerId == user.value.id
  }

  /** `sellerProducts`. */
  function SellerProducts(products: seq<Product>, user: Option<Auth.User>): (r: seq<Product>)
    ensures forall p :: p in r <==> p in products && OwnedBy(p, user)
    ensures forall p :: multiset(r)[p] == if OwnedBy(p, user) then multiset(products)[p] else 0
    ensures IsSubsequence(r, products)
    ensures user.None? ==> r == []
  {
    FilterIsSubsequence(products, (p: Product) => OwnedBy(p, user));
    Filter(products, (p: Product) => OwnedBy(p, user))
  }

  function HasStatus(status: string): Product -> bool {
    (p: Product) => p.status == status
  }

  datatype Stats = Stats(total: nat, approved: nat, pending: nat, rejected: nat, totalRevenue: int)

  /** `stats`, without the random view count. */
  function StatsOf(products: seq<Product>, user: Option<Auth.User>): (s: Stats)
    ensures s.total == |SellerProducts(products, user)|
    ensures s.approved == |Filter(SellerProducts(products, user), HasStatus("approved"))|
    ensures s.pending == |Filter(SellerProducts(products, user), HasStatus("pending"))|
    ensures s.rejected == |Filter(SellerProducts(products, user), HasStatus("rejected"))|
    ensures s.totalRevenue == SumOf(Filter(SellerProducts(products, user), HasStatus("approved")), (p: Product) => p.price)
  {
    var mine := SellerProducts(products, user);
    var approved := Filter(mine, HasStatus("approved"));
    Stats(|mine|, |approved|, |Filter(mine, HasStatus("pending"))|, |Filter(mine, HasStatus("rejected"))|,
          SumOf(approved, (p: Product) => p.price))
  }

  /** The three status counts never exceed the number of products. */
  lemma StatsBounded(products: seq<Product>, user: Option<Auth.User>)
    ensures var s := StatsOf(products, user); s.approved + s.pending + s.rejected <= s.total
  {
    DisjointFiltersBounded(SellerProducts(products, user), HasStatus("approved"), HasStatus("pending"), HasStatus("rejected"));
  }

  /** The revenue is the sum of the prices of the seller's approved products, and of no others. */
  lemma RevenueOfApprovedOnly(products: seq<Product>, user: Option<Auth.User>)
    ensures StatsOf(products, user).totalRevenue ==
      SumOf(Filter(products, (p: Product) => OwnedBy(p, user) && p.status == "approved"), (p: Product) => p.price)
  {
    FilterFilter(products, (p: Product) => OwnedBy(p, user), HasStatus("approved"), (p: Product) => OwnedBy(p, user) && p.status == "approved");
  }

  /** `canOfferInstantDelivery`: some active city carries the seller's city name. */
  function CanOfferInstantDelivery(cities: seq<DeliveryCity>, user: Option<Auth.User>): (r: bool)
    ensures r <==> (user.Some? && user.value.city.Some?
      && exists c :: c in cities && c.isActive && c.name == user.value.city.value)
  {
    Any(Filter(cities, (c: DeliveryCity) => c.isActive),
        (c: DeliveryCity) => user.Some? && user.value.city == Some(c.name))
  }

  /** `sellerProducts.map(p => p.id)`. */
  function ProductIds(products: seq<Product>): (r: seq<string>)
    ensures |r| == |products| && forall i :: 0 <= i < |r| ==> r[i] == products[i].id
  {
    seq(|products|, i requires 0 <= i < |products| => products[i].id)
  }

  predicate Sells(item: OrderItem, ids: seq<string>) {
    item.productId in ids
  }

  /** The order filter of `fetchSellerOrders`. */
  function SellerOrders(orders: seq<Order>, ids: seq<string>): (r: seq<Order>)
    ensures forall o :: o in r <==> o in orders && exists it :: it in o.items && it.productId in ids
    ensures forall o :: (multiset(r)[o] ==
      if exists it :: it in o.items && it.productId in ids then multiset(orders)[o] else 0)
    ensures IsSubsequence(r, orders)
  {
    FilterIsSubsequence(orders, (o: Order) => Any(o.items, (it: OrderItem) => Sells(it, ids)));
    Filter(orders, (o: Order) => Any(o.items, (it: OrderItem) => Sells(it, ids)))
  }

  /** A row of the sales history. */
  datatype HistoryRow = HistoryRow(orderId: string, productName: string, quantity: int, date: string, status: string)

  function RowOf(o: Order, it: OrderItem): HistoryRow {
    HistoryRow(o.id, it.productName, it.quantity, o.createdAt, o.status)
  }

  /** The history rows contributed by the first items of an order, item by item. */
  function ItemRows(o: Order, items: seq<OrderItem>, ids: seq<string>): seq<HistoryRow> {
    if items == [] then []
    else
      var last := items[|items| - 1];
      ItemRows(o, items[..|items| - 1], ids) + (if Sells(last, ids) then [RowOf(o, last)] else [])
  }

  /** The history: order by order, and within an order item by item. */
  function History(orders: seq<Order>, ids: seq<string>): seq<HistoryRow> {
    if orders == [] then []
    else
      var last := orders[|orders| - 1];
      History(orders[..|orders| - 1], ids) + ItemRows(last, last.items, ids)
  }

  function TotalQuantity(rows: seq<HistoryRow>): int {
    if rows == [] then 0 else TotalQuantity(rows[..|rows| - 1]) + rows[|rows| - 1].quantity
  }

  function Get(m: map<string, int>, k: string): int {
    if k in m then m[k] else 0
  }

  /** The `monthwise` record built from the history rows, in their order. */
  function MonthTotals(rows: seq<HistoryRow>, monthKey: string -> string): map<string, int> {
    if rows == [] then map[]
    else
      var m := MonthTotals(rows[..|rows| - 1], monthKey);
      var r := rows[|rows| - 1];
      m[monthKey(r.date) := Get(m, monthKey(r.date)) + r.quantity]
  }

  datatype Analytics = Analytics(totalSold: int, monthwise: map<string, int>, history: seq<HistoryRow>)

  /** `fetchSellerAnalytics` over the orders it fetched; `monthKey` stands for the
      locale-dependent month label of a creation date. */
  method FetchSellerAnalytics(orders: seq<Order>, ids: seq<string>, monthKey: string -> string) returns (a: Analytics)
    ensures a.history == History(orders, ids)
    ensures a.totalSold == TotalQuantity(a.history)
    ensures a.monthwise == MonthTotals(a.history, monthKey)
  {
    var totalSold := 0;
    var monthwise: map<string, int> := map[];
    var history: seq<HistoryRow> := [];
    var i := 0;
    while i < |orders|
      invariant 0 <= i <= |orders|
      invariant history == History(orders[..i], ids)
      invariant totalSold == TotalQuantity(history)
      invariant monthwise == MonthTotals(history, monthKey)
    {
      history, totalSold, monthwise := AddOrderItems(orders[i], ids, monthKey, history, totalSold, monthwise);
      assert orders[..i + 1][..i] == orders[..i];
      i := i + 1;
    }
    assert orders[..i] == orders;
    a := Analytics(totalSold, monthwise, history);
  }

  /** The inner `order.items.forEach` of `fetchSellerAnalytics`: each item of a seller
      product adds its quantity to the total and to its month, and appends its row. */
  method AddOrderItems(order: Order, ids: seq<string>, monthKey: string -> string,
                       history0: seq<HistoryRow>, totalSold0: int, monthwise0: map<string, int>)
    returns (history: seq<HistoryRow>, totalSold: int, monthwise: map<string, int>)
    requires totalSold0 == TotalQuantity(history0)
    requires monthwise0 == MonthTotals(history0, monthKey)
    ensures history == history0 + ItemRows(order, order.items, ids)
    ensures totalSold == TotalQuantity(history)
    ensures monthwise == MonthTotals(history, monthKey)
  {
    history, totalSold, monthwise := history0, totalSold0, monthwise0;
    var j := 0;
    while j < |order.items|
      invariant 0 <= j <= |order.items|
      invariant history == history0 + ItemRows(order, order.items[..j], ids)
      invariant totalSold == TotalQuantity(history)
      invariant monthwise == MonthTotals(history, monthKey)
    {
      var item := order.items[j];
      assert order.items[..j + 1][..j] == order.items[..j];
      if item.productId in ids {
        totalSold := totalSold + item.quantity;
        var month := monthKey(order.createdAt);
        monthwise := monthwise[month := Get(monthwise, month) + item.quantity];
        var row := RowOf(order, item);
        assert (history + [row])[..|history|] == history;
        history := history + [row];
      }
      j := j + 1;
    }
    assert order.items[..j] == order.items;
  }

  /** Quantities add up over a concatenation of rows. */
  lemma {:induction false} TotalQuantityAppend(a: seq<HistoryRow>, b: seq<HistoryRow>)
    ensures TotalQuantity(a + b) == TotalQuantity(a) + TotalQuantity(b)
  {
    if b != [] {
      TotalQuantityAppend(a, b[..|b| - 1]);
      assert (a + b)[..|a + b| - 1] == a + b[..|b| - 1];
      assert (a + b)[|a + b| - 1] == b[|b| - 1];
    } else {
      assert a + b == a;
    }
  }

  /** The quantity the seller sold in one order, item by item from the front. */
  function OrderSold(o: Order, ids: seq<string>): int {
    SumOf(o.items, (it: OrderItem) => if Sells(it, ids) then it.quantity else 0)
  }

  /** The quantity the seller sold over all orders. */
  function Sold(orders: seq<Order>, ids: seq<string>): int {
    SumOf(orders, (o: Order) => OrderSold(o, ids))
  }

  lemma {:induction false} ItemRowsQuantity(o: Order, items: seq<OrderItem>, ids: seq<string>)
    ensures TotalQuantity(ItemRows(o, items, ids)) ==
      SumOf(items, (it: OrderItem) => if Sells(it, ids) then it.quantity else 0)
  {
    if items != [] {
      var front := items[..|items| - 1];
      var last := items[|items| - 1];
      ItemRowsQuantity(o, front, ids);
      TotalQuantityAppend(ItemRows(o, front, ids), if Sells(last, ids) then [RowOf(o, last)] else []);
      SumOfSnoc(items, (it: OrderItem) => if Sells(it, ids) then it.quantity else 0);
      assert TotalQuantity([RowOf(o, last)]) == last.quantity by {
        assert [RowOf(o, last)][..0] == [];
      }
    }
  }

  /** `totalSold` is the total quantity of the seller's items over all orders. */
  lemma {:induction false} TotalSoldIsSold(orders: seq<Order>, ids: seq<string>)
    ensures TotalQuantity(History(orders, ids)) == Sold(orders, ids)
  {
    if orders != [] {
      var front := orders[..|orders| - 1];
      var last := orders[|orders| - 1];
      TotalSoldIsSold(front, ids);
      TotalQuantityAppend(History(front, ids), ItemRows(last, last.items, ids));
      ItemRowsQuantity(last, last.items, ids);
      SumOfSnoc(orders, (o: Order) => OrderSold(o, ids));
    }
  }

  /** A history row comes from one item of one order that is one of the seller's products. */
  predicate RowFromItem(orders: seq<Order>, ids: seq<string>, row: HistoryRow) {
    exists i, j :: 0 <= i < |orders| && 0 <= j < |orders[i].items|
      && Sells(orders[i].items[j], ids) && row == RowOf(orders[i], orders[i].items[j])
  }

  lemma {:induction false} ItemRowsMembership(o: Order, items: seq<OrderItem>, ids: seq<string>, row: HistoryRow)
    ensures row in ItemRows(o, items, ids) <==>
      exists j :: 0 <= j < |items| && Sells(items[j], ids) && row == RowOf(o, items[j])
  {
    if items != [] {
      var front := items[..|items| - 1];
      ItemRowsMembership(o, front, ids, row);
      assert forall j :: 0 <= j < |front| ==> front[j] == items[j];
    }
  }

  /** Every history row comes from a matching item, and every matching item gives a row. */
  lemma {:induction false} HistoryMembership(orders: seq<Order>, ids: seq<string>, row: HistoryRow)
    ensures row in History(orders, ids) <==> RowFromItem(orders, ids, row)
  {
    if orders != [] {
      var n := |orders| - 1;
      var front := orders[..n];
      HistoryMembership(front, ids, row);
      ItemRowsMembership(orders[n], orders[n].items, ids, row);
      assert forall i :: 0 <= i < n ==> front[i] == orders[i];
      if RowFromItem(orders, ids, row) {
        var i, j :| 0 <= i < |orders| && 0 <= j < |orders[i].items|
          && Sells(orders[i].items[j], ids) && row == RowOf(orders[i], orders[i].items[j]);
        if i < n {
          assert RowFromItem(front, ids, row);
        }
      }
    }
  }

  /** An element of a non-empty set, fixed once so that sums over maps are well defined. */
  ghost function Pick(s: set<string>): string
    requires s != {}
  {
    var x :| x in s; x
  }

  /** The sum of the values of a map. */
  ghost function MapSum(m: map<string, int>): int
    decreases |m|
  {
    if m == map[] then 0
    else
      var k := Pick(m.Keys);
      assert |m - {k}| < |m| by {
        assert (m - {k}).Keys == m.Keys - {k};
      }
      m[k] + MapSum(m - {k})
  }

  /** The sum may split off any key, not only the picked one. */
  lemma {:induction false} MapSumRemove(m: map<string, int>, k: string)
    requires k in m
    ensures MapSum(m) == m[k] + MapSum(m - {k})
    decreases |m|
  {
    var j := Pick(m.Keys);
    if j != k {
      assert (m - {j}).Keys == m.Keys - {j};
      assert (m - {k}).Keys == m.Keys - {k};
      MapSumRemove(m - {j}, k);
      MapSumRemove(m - {k}, j);
      assert m - {j} - {k} == m - {k} - {j};
    }
  }

  /** Adding `q` to one entry (0 when absent) adds `q` to the sum. */
  lemma MapSumAdd(m: map<string, int>, k: string, q: int)
    ensures MapSum(m[k := Get(m, k) + q]) == MapSum(m) + q
  {
    var m' := m[k := Get(m, k) + q];
    MapSumRemove(m', k);
    assert m' - {k} == m - {k};
    if k in m {
      MapSumRemove(m, k);
    } else {
      assert m - {k} == m;
    }
  }

  /** The monthwise values add up to `totalSold`. */
  lemma {:induction false} MonthTotalsSum(rows: seq<HistoryRow>, monthKey: string -> string)
    ensures MapSum(MonthTotals(rows, monthKey)) == TotalQuantity(rows)
  {
    if rows != [] {
      var r := rows[|rows| - 1];
      MonthTotalsSum(rows[..|rows| - 1], monthKey);
      MapSumAdd(MonthTotals(rows[..|rows| - 1], monthKey), monthKey(r.date), r.quantity);
    }
  }

  /** The months listed are exactly the months of the history rows. */
  lemma {:induction false} MonthTotalsKeys(rows: seq<HistoryRow>, monthKey: string -> string, k: string)
    ensures k in MonthTotals(rows, monthKey) <==> exists i :: 0 <= i < |rows| && monthKey(rows[i].date) == k
  {
    if rows != [] {
      var front := rows[..|rows| - 1];
      MonthTotalsKeys(front, monthKey, k);
      assert forall i :: 0 <= i < |front| ==> front[i] == rows[i];
    }
  }

  /** `handleCustomQuestionChange`. */
  function SetQuestion(qs: seq<string>, index: nat, value: string): (r: seq<string>)
    requires index < |qs|
    ensures |r| == |qs| && r[index] == value
    ensures forall j :: 0 <= j < |qs| && j != index ==> r[j] == qs[j]
  {
    qs[index := value]
  }

  /** `addCustomQuestion`. */
  function AddQuestion(qs: seq<string>): (r: seq<string>)
    ensures |r| == |qs| + 1 && r[..|qs|] == qs && r[|qs|] == ""
  {
    qs + [""]
  }

  /** `prev.filter((_, i) => i !== index)` on the suffix of the list that starts at position `offset`. */
  function KeepOthers(qs: seq<string>, index: int, offset: int): seq<string>
    decreases |qs|
  {
    if qs == [] then []
    else (if offset != index then [qs[0]] else []) + KeepOthers(qs[1..], index, offset + 1)
  }

  lemma {:induction false} KeepOthersDrops(qs: seq<string>, index: int, offset: int)
    ensures KeepOthers(qs, index, offset) ==
      if offset <= index < offset + |qs| then qs[..index - offset] + qs[index - offset + 1..] else qs
  {
    if qs != [] {
      KeepOthersDrops(qs[1..], index, offset + 1);
      if offset < index < offset + |qs| {
        assert [qs[0]] + qs[1..][..index - offset - 1] == qs[..index - offset];
        assert qs[1..][index - offset..] == qs[index - offset + 1..];
      } else if index != offset {
        assert [qs[0]] + qs[1..] == qs;
      }
    }
  }

  /** `removeCustomQuestion`: deletes exactly position `index`; any other index changes nothing. */
  function RemoveQuestion(qs: seq<string>, index: int): (r: seq<string>)
    ensures 0 <= index < |qs| ==> r == qs[..index] + qs[index + 1..]
    ensures !(0 <= index < |qs|) ==> r == qs
  {
    KeepOthersDrops(qs, index, 0);
    KeepOthers(qs, index, 0)
  }

  /** Removing the question just added restores the list. */
  lemma AddThenRemove(qs: seq<string>)
    ensures RemoveQuestion(AddQuestion(qs), |qs|) == qs
  {
    assert AddQuestion(qs)[..|qs|] == qs;
  }

  /** The `customQuestions` of the payload: the questions that are not blank, in order,
      and none at all when the product is not customisable. */
  function SubmittedQuestions(customisable: bool, qs: seq<string>): (r: seq<string>)
    ensures !customisable ==> r == []
    ensures IsSubsequence(r, qs)
    ensures forall q :: q in r <==> customisable && q in qs && Text.HasNonSpace(q)
    ensures forall q :: multiset(r)[q] == if customisable && Text.HasNonSpace(q) then multiset(qs)[q] else 0
  {
    Text.TrimNonEmptyAll();
    if customisable then
      FilterIsSubsequence(qs, (q: string) => Text.Trim(q) != "");
      Filter(qs, (q: string) => Text.Trim(q) != "")
    else
      IsSubsequenceEmpty(qs);
      []
  }

  lemma {:induction false} IsSubsequenceEmpty(qs: seq<string>)
    ensures IsSubsequence([], qs)
  {
    if qs != [] {
      IsSubsequenceEmpty(qs[1..]);
    }
  }

  /** The add-product form. */
  datatype ProductForm = ProductForm(
    name: string, price: string, description: string, category: string, section: string,
    weight: string, instantDeliveryEligible: bool, customisable: bool)

  /** The object handed to `addProduct`. */
  datatype ProductPayload = ProductPayload(
    sellerId: string, name: string, price: int, image: string, description: string,
    videoUrl: Option<string>, city: string, instantDeliveryEligible: bool, status: string,
    category: string, tags: seq<string>, section: string, weight: Option<real>,
    customisable: bool, customQuestions: seq<string>)

  /** The payload built by `handleSubmit`. `imageUrl`/`videoUrl` are the object URLs of the
      chosen files (absent when no file was chosen); `parsedPrice` and `parsedWeight` stand
      for `parseInt(form.price)` and `parseFloat(form.weight)`. No payload without a user
      or an image. */
  function BuildPayload(
    user: Option<Auth.User>, imageUrl: Option<string>, videoUrl: Option<string>,
    form: ProductForm, questions: seq<string>, cities: seq<DeliveryCity>,
    parsedPrice: int, parsedWeight: real): (r: Option<ProductPayload>)
    ensures r.None? <==> user.None? || imageUrl.None?
    ensures r.Some? ==>
      var p := r.value;
      p.sellerId == user.value.id && p.status == "pending" && p.image == imageUrl.value
      && p.videoUrl == videoUrl && p.price == parsedPrice
      && p.name == form.name && p.description == form.description && p.category == form.category
      && p.section == form.section && p.customisable == form.customisable
      && p.city == (if Auth.Truthy(user.value.city) then user.value.city.value else Auth.DefaultCity)
      && (p.instantDeliveryEligible <==> form.instantDeliveryEligible && CanOfferInstantDelivery(cities, user))
      && p.weight == (if form.weight != "" then Some(parsedWeight) else None)
      && p.customQuestions == SubmittedQuestions(form.customisable, questions)
      && |p.tags| >= 1 && Text.Join(p.tags, ' ') == Text.ToLower(form.category)
      && (forall i :: 0 <= i < |p.tags| ==> ' ' !in p.tags[i])
  {
    if user.None? || imageUrl.None? then None
    else
      var u := user.value;
      Text.JoinSplit(Text.ToLower(form.category), ' ');
      Some(ProductPayload(
        u.id, form.name, parsedPrice, imageUrl.value, form.description, videoUrl,
        if Auth.Truthy(u.city) then u.city.value else Auth.DefaultCity,
        form.instantDeliveryEligible && CanOfferInstantDelivery(cities, user),
        "pending", form.category, Text.Split(Text.ToLower(form.category), ' '), form.section,
        if form.weight != "" then Some(parsedWeight) else None,
        form.customisable, SubmittedQuestions(form.customisable, questions)))
  }

  /** The editor's state around a submission. */
  datatype Editor = Editor(
    form: ProductForm, questions: seq<string>, imageChosen: bool, videoChosen: bool, showAddProduct: bool)

  const EmptyForm: ProductForm := ProductForm("", "", "", "", "", "", false, false)

  /** After `addProduct` answers: a success clears the form, the questions and both files
      and closes the editor; a failure keeps everything. */
  function AfterSubmit(e: Editor, success: bool): (r: Editor)
    ensures success ==> r == Editor(ProductForm("", "", "", "", "", "", false, false), [], false, false, false)
    ensures !success ==> r == e
  {
    if success then Editor(EmptyForm, [], false, false, false) else e
  }

  datatype StatusIcon = CheckCircle | XCircle | Clock

  /** `getStatusIcon`. */
  function StatusIconOf(status: string): (r: StatusIcon)
    ensures r == CheckCircle <==> status == "approved"
    ensures r == XCircle <==> status == "rejected"
  {
    if status == "approved" then CheckCircle
    else if status == "rejected" then XCircle
    else Clock
  }

  /** `getStatusColor`. */
  function StatusColor(status: string): (r: string)
    ensures r == "bg-green-100 text-green-800 border-green-200" <==> status == "approved"
    ensures r == "bg-red-100 text-red-800 border-red-200" <==> status == "rejected"
    ensures r == "bg-yellow-100 text-yellow-800 border-yellow-200" <==> status != "approved" && status != "rejected"
  {
    if status == "approved" then "bg-green-100 text-green-800 border-green-200"
    else if status == "rejected" then "bg-red-100 text-red-800 border-red-200"
    else "bg-yellow-100 text-yellow-800 border-yellow-200"
  }

  /** Every status other than approved and rejected is styled as pending. */
  lemma StatusFallsThroughToPending(status: string)
    requires status != "approved" && status != "rejected"
    ensures StatusColor(status) == StatusColor("pending")
    ensures StatusIconOf(status) == StatusIconOf("pending")
  {
  }
}
