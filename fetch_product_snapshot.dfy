/**
 * The `fetch_product_snapshot` action: open the product list, search it
 * when a keyword is given, and read the name, SKU, price, stock and id of
 * the first rows.  As in module UpdateTitle, each step is a function of what
 * the page answers, and a method performing it through the controller is
 * proved to agree with it.
 */
module ProductSnapshot {
  import opened Python
  import opened Locators
  import opened BrowserControl
  import opened ActionBase
  import UpdateTitle

  const ActionName := "fetch_product_snapshot"

  /** The `limit` used when the payload has none. */
  const DefaultLimit := 10

  /** The rows read when the table has no `product_row` locator. */
  const FallbackRows := Locator(CssSelector, "tr[data-product-id], .product-item")

  // ------------------------------------------------------- _search_product

  /** `_search_product(keyword)`: the same steps as the title update's search
      on a table without a search button; its answer is not used, but an
      exception of the wait or of Enter escapes. */
  method SearchProduct(b: BrowserController, t: Table, keyword: Value) returns (r: Except<bool>)
    requires ActionTable(t)
    modifies b`calls
    ensures var s := UpdateTitle.SearchOutcome(b.View(), LocAt(t, "product_list", "search_input"), None, keyword);
            r == s.value && b.calls == old(b.calls) + s.calls
  {
    var input := LocIn(t, "product_list", "search_input");
    if input.None? {
      return Normal(false);
    }
    var typed := b.SafeSendKeys(input.value, keyword);
    if !typed {
      return Normal(false);
    }
    var element := b.WaitForElement(input.value);
    if element.Fails? {
      return Thrown(element.msg);
    }
    if element.Present? {
      var err := b.SendKeysToElement(input.value, VStr(UpdateTitle.Return));
      if err.Some? {
        return Thrown(err.value);
      }
    }
    r := Normal(true);
  }

  // --------------------------------------------- _extract_product_from_row

  /** A cell's text after `.strip()`, None where the cell was not found. */
  function StripCell(cell: Option<string>): (r: Option<string>)
    ensures r.Some? <==> cell.Some?
    ensures r.Some? ==> |r.value| <= |cell.value|
  {
    if cell.Some? then Some(Strip(cell.value)) else None
  }

  /** `_extract_product_from_row(row, index)`: the row's trimmed cells, kept
      only when the trimmed name is not empty; the id is absent when reading
      the attribute raised. */
  function ProductFromRow(row: Row, index: int): (r: Option<Product>)
    ensures r.Some? <==> row.name.Some? && Strip(row.name.value) != ""
    ensures r.Some? ==> r.value.index == index && r.value.name == Strip(row.name.value)
    ensures r.Some? ==> r.value.sku == StripCell(row.sku) && r.value.price == StripCell(row.price)
                        && r.value.stock == StripCell(row.stock)
    ensures r.Some? ==> (r.value.productId.Some? <==> row.productId.Normal?)
    ensures r.Some? && row.productId.Normal? ==> r.value.productId == Some(row.productId.value)
  {
    var name := StripCell(row.name);
    if name.None? || name.value == "" then None
    else
      Some(Product(index, name.value, StripCell(row.sku), StripCell(row.price), StripCell(row.stock),
                   if row.productId.Normal? then Some(row.productId.value) else None))
  }

  // ------------------------------------------------------- _extract_products

  /** The end of `rows[:limit]` for a list of n rows and an integer limit:
      a negative limit counts from the end. */
  function SliceStop(n: nat, limit: int): (k: nat)
    ensures k <= n
    ensures limit >= 0 ==> k == if limit < n then limit else n
    ensures limit < 0 ==> k + -limit == n || (k == 0 && n < -limit)
  {
    if limit >= 0 then (if limit < n then limit else n)
    else if n + limit >= 0 then n + limit else 0
  }

  /** How many rows `rows[:limit]` keeps of n: None when the limit is not
      something a list can be sliced with (a TypeError); None as a limit
      keeps every row and a boolean counts as 0 or 1. */
  function HeadLength(n: nat, limit: Value): (r: Option<nat>)
    ensures r.None? <==> !(limit.VNone? || limit.VBool? || limit.VInt?)
    ensures r.Some? ==> r.value <= n
    ensures limit.VNone? ==> r == Some(n)
    ensures limit.VInt? && limit.i >= 0 ==> r.Some? && r.value <= limit.i
    ensures limit.VInt? && 0 <= limit.i <= n ==> r == Some(limit.i)
    ensures limit.VBool? ==> r.Some? && r.value <= 1
  {
    match limit
    case VNone => Some(n)
    case VBool(b) => Some(SliceStop(n, if b then 1 else 0))
    case VInt(i) => Some(SliceStop(n, i))
    case _ => None
  }

  /** The products of the first n rows, in row order: one per row whose name
      is not empty, each carrying its row's position. */
  function Kept(rows: seq<Row>, n: nat): (ps: seq<Product>)
    requires n <= |rows|
    ensures |ps| <= n
    ensures forall k :: 0 <= k < |ps| ==> 0 <= ps[k].index < n
  {
    if n == 0 then []
    else
      var p := ProductFromRow(rows[n - 1], n - 1);
      if p.Some? then Kept(rows, n - 1) + [p.value] else Kept(rows, n - 1)
  }

  /** Each product kept is the one its row makes. */
  lemma {:induction false} KeptSound(rows: seq<Row>, n: nat, k: nat)
    requires n <= |rows| && k < |Kept(rows, n)|
    ensures ProductFromRow(rows[Kept(rows, n)[k].index], Kept(rows, n)[k].index) == Some(Kept(rows, n)[k])
  {
    if k < |Kept(rows, n - 1)| {
      assert Kept(rows, n)[k] == Kept(rows, n - 1)[k];
      KeptSound(rows, n - 1, k);
    }
  }

  /** Each of the first n rows that makes a product has it kept. */
  lemma {:induction false} KeptComplete(rows: seq<Row>, n: nat, j: nat)
    requires j < n <= |rows| && ProductFromRow(rows[j], j).Some?
    ensures ProductFromRow(rows[j], j).value in Kept(rows, n)
  {
    if j < n - 1 {
      KeptComplete(rows, n - 1, j);
    }
  }

  /** The products are in increasing row order, and every name is
      non-empty. */
  lemma {:induction false} KeptOrdered(rows: seq<Row>, n: nat)
    requires n <= |rows|
    ensures forall k, l :: 0 <= k < l < |Kept(rows, n)| ==> Kept(rows, n)[k].index < Kept(rows, n)[l].index
    ensures forall k :: 0 <= k < |Kept(rows, n)| ==> Kept(rows, n)[k].name != ""
  {
    if n > 0 {
      KeptOrdered(rows, n - 1);
    }
  }

  /** `_extract_products(limit)` on a page, given the table's row locator:
      no products when listing the rows raises or the limit cannot slice. */
  function Extracted(p: Page, rowLoc: Option<Locator>, limit: Value): (r: Traced<seq<Product>>)
    ensures r.calls == [Listed(if rowLoc.Some? then rowLoc.value else FallbackRows)]
    ensures limit.VInt? && limit.i >= 0 ==> |r.value| <= limit.i
  {
    var loc := if rowLoc.Some? then rowLoc.value else FallbackRows;
    var rows := p.rows(loc);
    if rows.Thrown? then Traced([], [Listed(loc)])
    else
      var n := HeadLength(|rows.value|, limit);
      if n.None? then Traced([], [Listed(loc)]) else Traced(Kept(rows.value, n.value), [Listed(loc)])
  }

  method ExtractProducts(b: BrowserController, t: Table, limit: Value) returns (ps: seq<Product>)
    requires ActionTable(t)
    modifies b`calls
    ensures var e := Extracted(b.View(), LocAt(t, "product_list", "product_row"), limit);
            ps == e.value && b.calls == old(b.calls) + e.calls
  {
    var rowLoc := LocIn(t, "product_list", "product_row");
    var loc := if rowLoc.Some? then rowLoc.value else FallbackRows;
    var rows := b.FindElements(loc);
    ps := [];
    if rows.Thrown? {
      return;
    }
    var head := HeadLength(|rows.value|, limit);
    if head.None? {
      return;
    }
    for i := 0 to head.value
      invariant ps == Kept(rows.value, i)
    {
      var p := ProductFromRow(rows.value[i], i);
      if p.Some? {
        ps := ps + [p.value];
      }
    }
  }

  // ------------------------------------------------------------- _do_action

  /** Everything the action does once the list is open or not: the search
      runs only for a truthy keyword, and only its exception matters. */
  function SnapshotStage(url: Option<string>, loaded: bool, search: Traced<Except<bool>>,
                         extracted: Traced<seq<Product>>, keyword: Value)
    : (r: Traced<Except<ActionResult>>)
    ensures |r.calls| > 0 && r.calls[0] == Navigated(url)
    ensures r.value.Normal? && r.value.value.ok
            <==> loaded && !(Truthy(keyword) && search.value.Thrown?) && extracted.value != []
    ensures r.value.Normal? && r.value.value.ok ==>
              r.value.value == Success(ActionName, Snapshot(keyword, |extracted.value|, extracted.value))
    ensures r.value.Normal? && !r.value.value.ok ==>
              r.value.value.errorMessage.Some? && r.value.value.errorCode.Some?
              && r.value.value.errorCode.value in {"NAVIGATION_ERROR", "NO_PRODUCTS"}
    ensures r.value.Normal? && r.value.value.errorCode == Some("NO_PRODUCTS") ==> extracted.value == []
  {
    var navigated := [Navigated(url)];
    if !loaded then
      Traced(Normal(Failure(ActionName, "NAVIGATION_ERROR", "无法打开商品列表页")), navigated)
    else
      var searched := if Truthy(keyword) then navigated + search.calls else navigated;
      if Truthy(keyword) && search.value.Thrown? then Traced(Thrown(search.value.msg), searched)
      else if extracted.value != [] then
        Traced(Normal(Success(ActionName, Snapshot(keyword, |extracted.value|, extracted.value))),
               searched + extracted.calls)
      else
        Traced(Normal(Failure(ActionName, "NO_PRODUCTS", "未找到任何商品")), searched + extracted.calls)
  }

  /** `FetchProductSnapshotAction._do_action` on a page.  It reads neither
      the context nor `product_ids`. */
  function SnapshotOutcome(t: Table, p: Page, payload: Payload): Traced<Except<ActionResult>>
    requires ActionTable(t)
  {
    var keyword := Get(payload, "keyword", VStr(""));
    var url := EntryUrl(t, "product_list");
    SnapshotStage(url, p.loads(url),
                  UpdateTitle.SearchOutcome(p, LocAt(t, "product_list", "search_input"), None, keyword),
                  Extracted(p, LocAt(t, "product_list", "product_row"), Get(payload, "limit", VInt(DefaultLimit))),
                  keyword)
  }

  /** SnapshotStage case by case. */
  lemma SnapshotStageCases(url: Option<string>, loaded: bool, search: Traced<Except<bool>>,
                           extracted: Traced<seq<Product>>, keyword: Value)
    ensures var r := SnapshotStage(url, loaded, search, extracted, keyword);
            && (!loaded ==> r.calls == [Navigated(url)])
            && (loaded && Truthy(keyword) && search.value.Thrown? ==>
                  r == Traced(Thrown(search.value.msg), [Navigated(url)] + search.calls))
            && (loaded && Truthy(keyword) && search.value.Normal? ==>
                  r.calls == ([Navigated(url)] + search.calls) + extracted.calls)
            && (loaded && !Truthy(keyword) ==> r.calls == [Navigated(url)] + extracted.calls)
  {
  }

  /** `FetchProductSnapshotAction._do_action` through the controller. */
  method DoAction(b: BrowserController, t: Table, payload: Payload) returns (r: Except<ActionResult>)
    requires ActionTable(t)
    modifies b`calls
    ensures r == SnapshotOutcome(t, b.View(), payload).value
    ensures b.calls == old(b.calls) + SnapshotOutcome(t, b.View(), payload).calls
  {
    ghost var before := b.calls;
    ghost var p := b.View();
    var keyword := Get(payload, "keyword", VStr(""));
    var limit := Get(payload, "limit", VInt(DefaultLimit));
    var url := EntryUrl(t, "product_list");
    ghost var search := UpdateTitle.SearchOutcome(p, LocAt(t, "product_list", "search_input"), None, keyword);
    ghost var extracted := Extracted(p, LocAt(t, "product_list", "product_row"), limit);
    SnapshotStageCases(url, p.loads(url), search, extracted, keyword);
    var loaded := b.Navigate(url);
    if !loaded {
      return Normal(Failure(ActionName, "NAVIGATION_ERROR", "无法打开商品列表页"));
    }
    ghost var searched := [Navigated(url)];
    if Truthy(keyword) {
      var found := SearchProduct(b, t, keyword);
      Regroup(before, [Navigated(url)], search.calls);
      if found.Thrown? {
        return Thrown(found.msg);
      }
      searched := [Navigated(url)] + search.calls;
    }
    var products := ExtractProducts(b, t, limit);
    Regroup(before, searched, extracted.calls);
    if products != [] {
      r := Normal(Success(ActionName, Snapshot(keyword, |products|, products)));
    } else {
      r := Normal(Failure(ActionName, "NO_PRODUCTS", "未找到任何商品"));
    }
  }

  // ---------------------------------------------------------------- properties

  /** A snapshot that succeeds reports as many products as it lists, no more
      than a non-negative integer limit (ten when none is given), each with a
      non-empty trimmed name, in increasing row order, each made from the row
      at its index. */
  lemma SnapshotWellFormed(t: Table, p: Page, payload: Payload)
    requires ActionTable(t)
    requires SnapshotOutcome(t, p, payload).value.Normal? && SnapshotOutcome(t, p, payload).value.value.ok
    ensures var r := SnapshotOutcome(t, p, payload).value.value;
            r.data.Some? && r.data.value.Snapshot?
            && r.data.value.count == |r.data.value.products| > 0
            && r.data.value.keyword == Get(payload, "keyword", VStr(""))
    ensures var ps := SnapshotOutcome(t, p, payload).value.value.data.value.products;
            && (forall k :: 0 <= k < |ps| ==> ps[k].name != "" && Strip(ps[k].name) == ps[k].name)
            && (forall k, l :: 0 <= k < l < |ps| ==> ps[k].index < ps[l].index)
    ensures var ps := SnapshotOutcome(t, p, payload).value.value.data.value.products;
            var limit := Get(payload, "limit", VInt(DefaultLimit));
            limit.VInt? && limit.i >= 0 ==> |ps| <= limit.i
    ensures "limit" !in payload ==> |SnapshotOutcome(t, p, payload).value.value.data.value.products| <= 10
  {
    var limit := Get(payload, "limit", VInt(DefaultLimit));
    var ps := Extracted(p, LocAt(t, "product_list", "product_row"), limit).value;
    var loc := if LocAt(t, "product_list", "product_row").Some? then LocAt(t, "product_list", "product_row").value
               else FallbackRows;
    var rows := p.rows(loc).value;
    var n := HeadLength(|rows|, limit).value;
    assert ps == Kept(rows, n);
    KeptOrdered(rows, n);
    forall k | 0 <= k < |ps|
      ensures Strip(ps[k].name) == ps[k].name
    {
      KeptSound(rows, n, k);
      StripIdempotent(rows[ps[k].index].name.value);
    }
  }

  /** Stripping twice is stripping once. */
  lemma StripIdempotent(s: string)
    ensures Strip(Strip(s)) == Strip(s)
  {
    StripTrimmed(Strip(s));
  }

  /** Rows the page lists but cannot be read into a product do not stop the
      snapshot: when listing succeeds, the snapshot holds exactly the
      readable rows among the first `limit`. */
  lemma SnapshotIsReadableRows(p: Page, rowLoc: Option<Locator>, rows: seq<Row>, n: nat)
    requires p.rows(if rowLoc.Some? then rowLoc.value else FallbackRows) == Normal(rows)
    requires n <= |rows|
    ensures forall j :: 0 <= j < n && ProductFromRow(rows[j], j).Some? ==>
              ProductFromRow(rows[j], j).value in Extracted(p, rowLoc, VInt(n)).value
    ensures forall q :: q in Extracted(p, rowLoc, VInt(n)).value ==>
              0 <= q.index < n && ProductFromRow(rows[q.index], q.index) == Some(q)
  {
    var ps := Extracted(p, rowLoc, VInt(n)).value;
    assert ps == Kept(rows, n);
    forall j | 0 <= j < n && ProductFromRow(rows[j], j).Some?
      ensures ProductFromRow(rows[j], j).value in ps
    {
      KeptComplete(rows, n, j);
    }
    forall q | q in ps
      ensures 0 <= q.index < n && ProductFromRow(rows[q.index], q.index) == Some(q)
    {
      var k :| 0 <= k < |ps| && ps[k] == q;
      KeptSound(rows, n, k);
    }
  }
}
