/**
 * Page locators of the Shopee Seller Center: prefix-tagged selector strings
 * ("css:…", "xpath:…", "id:…", "name:…") grouped into per-site tables of
 * sections, and the parser that turns one string into a Selenium locator.
 */
module Locators {

  /** Selenium's `By` strategies the tables use. */
  datatype By = CssSelector | XPath | Id | Name

  /** A parsed locator, Selenium's `(By.X, selector)` pair. */
  datatype Locator = Locator(strategy: By, selector: string)

  /** A table entry: a selector or URL string, or a nested section. */
  datatype Config = Text(s: string) | Section(entries: map<string, Config>)

  /** A site's locator table (the top-level dict). */
  type Table = map<string, Config>

  function Tag(b: By): string
  {
    match b
    case CssSelector => "css:"
    case XPath => "xpath:"
    case Id => "id:"
    case Name => "name:"
  }

  predicate HasPrefix(s: string, p: string)
  {
    |p| <= |s| && s[..|p|] == p
  }

  /** A string carrying none of the four strategy tags. */
  predicate Untagged(s: string)
  {
    !HasPrefix(s, "css:") && !HasPrefix(s, "xpath:") && !HasPrefix(s, "id:") && !HasPrefix(s, "name:")
  }

  /** `parse_locator`: the first matching prefix decides the strategy and is
      cut off; a string with none of the four prefixes is a CSS selector as a
      whole. */
  function ParseLocator(s: string): (l: Locator)
    ensures HasPrefix(s, "css:") ==> l == Locator(CssSelector, s[4..])
    ensures !HasPrefix(s, "css:") && HasPrefix(s, "xpath:") ==> l == Locator(XPath, s[6..])
    ensures (!HasPrefix(s, "css:") && !HasPrefix(s, "xpath:") && HasPrefix(s, "id:"))
            ==> l == Locator(Id, s[3..])
    ensures (!HasPrefix(s, "css:") && !HasPrefix(s, "xpath:") && !HasPrefix(s, "id:")
             && HasPrefix(s, "name:"))
            ==> l == Locator(Name, s[5..])
    ensures Untagged(s) ==> l == Locator(CssSelector, s)
  {
    if HasPrefix(s, "css:") then Locator(CssSelector, s[4..])
    else if HasPrefix(s, "xpath:") then Locator(XPath, s[6..])
    else if HasPrefix(s, "id:") then Locator(Id, s[3..])
    else if HasPrefix(s, "name:") then Locator(Name, s[5..])
    else Locator(CssSelector, s)
  }

  /** The tagged string that denotes a locator. */
  function Render(l: Locator): string
  {
    Tag(l.strategy) + l.selector
  }

  /** Every locator is read back from its tagged form: the tag is cut off and
      nothing of the selector is, whatever it starts with. */
  lemma ParseRender(l: Locator)
    ensures ParseLocator(Render(l)) == l
  {
    var s := Render(l);
    assert s[..|Tag(l.strategy)|] == Tag(l.strategy);
    assert s[|Tag(l.strategy)|..] == l.selector;
    match l.strategy {
      case CssSelector =>
      case XPath => assert !HasPrefix(s, "css:") by { assert s[0] == 'x'; }
      case Id => assert !HasPrefix(s, "css:") && !HasPrefix(s, "xpath:") by { assert s[0] == 'i'; }
      case Name =>
        assert !HasPrefix(s, "css:") && !HasPrefix(s, "xpath:") && !HasPrefix(s, "id:")
        by { assert s[0] == 'n'; }
    }
  }

  /** Parsing keeps the text: rendering a parsed string gives the string back
      when it was tagged, and the string behind "css:" when it was not. */
  lemma RenderParse(s: string)
    ensures !Untagged(s) ==> Render(ParseLocator(s)) == s
    ensures Untagged(s) ==> Render(ParseLocator(s)) == "css:" + s
  {
    var l := ParseLocator(s);
    if !Untagged(s) {
      assert HasPrefix(s, Tag(l.strategy));
      assert s == s[..|Tag(l.strategy)|] + s[|Tag(l.strategy)|..];
    }
  }

  // ------------------------------------------------------------ site tables

  /** The sections of the Indonesian table. */
  const IdLoginCheck: map<string, Config> := map[
    "logged_in" := Text("css:.navbar-username"),
    "login_form" := Text("css:input[name='loginKey']")
  ]

  const IdAdsCenter: map<string, Config> := map[
    "entry_url" := Text("https://seller.shopee.co.id/portal/marketing/pas/assembly"),
    "summary_section" := Text("css:.ads-summary, .marketing-summary"),
    "total_spend" := Text("css:[data-testid='total-spend'], .spend-value"),
    "total_impressions" := Text("css:[data-testid='impressions'], .impressions-value"),
    "total_clicks" := Text("css:[data-testid='clicks'], .clicks-value"),
    "total_orders" := Text("css:[data-testid='orders'], .orders-value"),
    "roas" := Text("css:[data-testid='roas'], .roas-value"),
    "date_picker" := Text("css:.date-range-picker, [data-testid='date-picker']"),
    "date_today" := Text("css:button:has-text('Hari ini'), button:has-text('Today')"),
    "date_7days" := Text("css:button:has-text('7 hari'), button:has-text('7 days')"),
    "date_30days" := Text("css:button:has-text('30 hari'), button:has-text('30 days')")
  ]

  const IdProductList: map<string, Config> := map[
    "entry_url" := Text("https://seller.shopee.co.id/portal/product/list/all"),
    "search_input" := Text("css:input[placeholder*='Cari'], input[placeholder*='Search']"),
    "search_button" := Text("css:button[type='submit'], .search-btn"),
    "product_table" := Text("css:.product-table, table"),
    "product_row" := Text("css:.product-row, tr.product-item"),
    "product_name" := Text("css:.product-name, .product-title"),
    "product_sku" := Text("css:.product-sku"),
    "product_price" := Text("css:.product-price"),
    "product_stock" := Text("css:.product-stock"),
    "edit_btn" := Text("css:button:has-text('Ubah'), button:has-text('Edit')"),
    "more_actions_btn" := Text("css:.more-actions, .dropdown-toggle")
  ]

  const IdProductEdit: map<string, Config> := map[
    "title_input" := Text("css:input[name='name'], input[placeholder*='Nama produk'], textarea[name='name']"),
    "description_textarea" := Text("css:textarea[name='description'], .product-description textarea"),
    "price_input" := Text("css:input[name='price'], input[type='number'][placeholder*='Harga']"),
    "stock_input" := Text("css:input[name='stock'], input[type='number'][placeholder*='Stok']"),
    "sku_input" := Text("css:input[name='sku']"),
    "save_btn" := Text("css:button:has-text('Simpan'), button:has-text('Save'), button[type='submit']"),
    "save_and_publish_btn" := Text("css:button:has-text('Simpan & Tampilkan')"),
    "cancel_btn" := Text("css:button:has-text('Batal'), button:has-text('Cancel')"),
    "success_toast" := Text("css:.toast-success, [role='alert']:has-text('Berhasil'), .ant-message-success"),
    "error_toast" := Text("css:.toast-error, [role='alert']:has-text('Gagal'), .ant-message-error")
  ]

  const IdOrderList: map<string, Config> := map[
    "entry_url" := Text("https://seller.shopee.co.id/portal/sale/order"),
    "tab_all" := Text("css:[data-tab='all']"),
    "tab_pending" := Text("css:[data-tab='toship']"),
    "tab_shipping" := Text("css:[data-tab='shipping']"),
    "tab_completed" := Text("css:[data-tab='completed']"),
    "order_table" := Text("css:.order-table, table"),
    "order_row" := Text("css:.order-row, tr.order-item"),
    "order_id" := Text("css:.order-id"),
    "order_status" := Text("css:.order-status"),
    "order_total" := Text("css:.order-total")
  ]

  /** The Indonesian site (seller.shopee.co.id), the only complete table. */
  const ShopeeId: Table := map[
    "base_url" := Text("https://seller.shopee.co.id"),
    "login_url" := Text("https://seller.shopee.co.id/account/signin"),
    "login_check" := Section(IdLoginCheck),
    "ads_center" := Section(IdAdsCenter),
    "product_list" := Section(IdProductList),
    "product_edit" := Section(IdProductEdit),
    "order_list" := Section(IdOrderList)
  ]

  /** The other sites carry only their base URL so far. */
  const ShopeeMy: Table := map["base_url" := Text("https://seller.shopee.com.my")]
  const ShopeeTh: Table := map["base_url" := Text("https://seller.shopee.co.th")]
  const ShopeeVn: Table := map["base_url" := Text("https://banhang.shopee.vn")]
  const ShopeePh: Table := map["base_url" := Text("https://seller.shopee.ph")]
  const ShopeeSg: Table := map["base_url" := Text("https://seller.shopee.sg")]

  /** `get_locators(site)`: the site's table, the Indonesian one for any
      code without a table of its own. */
  function GetLocators(site: string): (t: Table)
    ensures "base_url" in t && t["base_url"].Text?
    ensures site !in {"my", "th", "vn", "ph", "sg"} ==> t == ShopeeId
  {
    if site == "my" then ShopeeMy
    else if site == "th" then ShopeeTh
    else if site == "vn" then ShopeeVn
    else if site == "ph" then ShopeePh
    else if site == "sg" then ShopeeSg
    else ShopeeId
  }

  /** A table whose sections are all missing: only the base URL is there. */
  predicate BaseUrlOnly(t: Table)
  {
    t.Keys == {"base_url"} && t["base_url"].Text?
  }

  /** Every site but Indonesia has no sections, so any section lookup on its
      table comes back empty. */
  lemma OtherSitesHaveNoSections(site: string)
    ensures site in {"my", "th", "vn", "ph", "sg"} ==> BaseUrlOnly(GetLocators(site))
    ensures site !in {"my", "th", "vn", "ph", "sg"} ==> GetLocators(site) == ShopeeId
  {
  }
}
