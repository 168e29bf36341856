/**
 * What every action shares: the execution context, the payload check, and
 * the nested locator lookup over the site's table.  The template method
 * `execute` itself is in module ActionTemplate.
 */
module ActionBase {
  import opened Python
  import opened Locators
  import opened BrowserControl

  /** `ActionContext`; `site` defaults to "id" and `dry_run` to False.  The
      `extra` dict is never read and is not kept. */
  datatype ActionContext = ActionContext(
    taskId: string,
    runId: string,
    shopId: string,
    site: string,
    dryRun: bool)

  /** A value together with the driver calls that computing it issued. */
  datatype Traced<+T> = Traced(value: T, calls: seq<Call>)

  /** Regrouping a log (of calls, rows or writes). */
  lemma Regroup<T>(a: seq<T>, b: seq<T>, c: seq<T>)
    ensures (a + b) + c == a + (b + c)
  {
  }

  /** The same outcome, after the given calls. */
  function Prefixed<T>(before: seq<Call>, r: Traced<T>): (r': Traced<T>)
    ensures r'.value == r.value && r'.calls == before + r.calls
  {
    Traced(r.value, before + r.calls)
  }

  // -------------------------------------------------------- payload check

  /** The message naming a missing field. */
  function MissingField(field: string): string
  {
    "缺少必需字段: " + field
  }

  /** `_validate_payload`: None when every required field is a key of the
      payload (whatever its value), otherwise the message for the first
      missing one in list order. */
  function ValidatePayload(p: Payload, required: seq<string>): (r: Option<string>)
    ensures r.None? <==> forall i :: 0 <= i < |required| ==> required[i] in p
    ensures r.Some? ==> exists i :: 0 <= i < |required| && required[i] !in p
                          && r.value == MissingField(required[i])
                          && forall j :: 0 <= j < i ==> required[j] in p
  {
    if required == [] then None
    else if required[0] !in p then Some(MissingField(required[0]))
    else
      var r := ValidatePayload(p, required[1..]);
      assert forall i :: 1 <= i < |required| ==> required[i] == required[1..][i - 1];
      if r.Some? then
        var i :| 0 <= i < |required[1..]| && required[1..][i] !in p
                 && r.value == MissingField(required[1..][i])
                 && forall j :: 0 <= j < i ==> required[1..][j] in p;
        assert required[i + 1] !in p;
        r
      else r
  }

  // ------------------------------------------------------------ loc(*keys)

  /** The message of calling `.get` on a string. */
  const StrHasNoGet := "'str' object has no attribute 'get'"

  /** Following the keys from a table entry, a missing key giving an empty
      section (`config.get(key, {})`); a string met with keys still to go
      raises. */
  function Walk(c: Config, keys: seq<string>): (r: Except<Config>)
    ensures keys == [] ==> r == Normal(c)
    ensures keys != [] && c.Text? ==> r == Thrown(StrHasNoGet)
    decreases |keys|
  {
    if keys == [] then Normal(c)
    else if c.Text? then Thrown(StrHasNoGet)
    else Walk(if keys[0] in c.entries then c.entries[keys[0]] else Section(map[]), keys[1..])
  }

  /** What `loc` makes of where the walk ends: a string is parsed, anything
      else is None. */
  function LocOf(w: Except<Config>): (r: Except<Option<Locator>>)
    ensures w.Thrown? <==> r.Thrown?
    ensures w.Normal? && w.value.Text? ==> r == Normal(Some(ParseLocator(w.value.s)))
    ensures w.Normal? && w.value.Section? ==> r == Normal(None)
  {
    if w.Thrown? then Thrown(w.msg)
    else if w.value.Text? then Normal(Some(ParseLocator(w.value.s)))
    else Normal(None)
  }

  /** `loc(*keys)` over a site table. */
  method Loc(locators: Table, keys: seq<string>) returns (r: Except<Option<Locator>>)
    ensures r == LocOf(Walk(Section(locators), keys))
  {
    var config := Section(locators);
    var i := 0;
    while i < |keys|
      invariant 0 <= i <= |keys|
      invariant Walk(Section(locators), keys) == Walk(config, keys[i..])
    {
      if config.Text? {
        return Thrown(StrHasNoGet);
      }
      assert keys[i..][1..] == keys[i + 1..];
      config := if keys[i] in config.entries then config.entries[keys[i]] else Section(map[]);
      i := i + 1;
    }
    if config.Text? {
      r := Normal(Some(ParseLocator(config.s)));
    } else {
      r := Normal(None);
    }
  }

  // ----------------------------------------------- the tables the actions use

  /** The sections the actions read. */
  const ActionSections: set<string> := {"product_list", "product_edit", "ads_center"}

  /** A table in which each section an action reads, where present, is a
      section of strings, so that no lookup of a section and a key raises. */
  predicate ActionTable(t: Table)
  {
    forall sec :: sec in t && sec in ActionSections ==>
      t[sec].Section? && forall k :: k in t[sec].entries ==> t[sec].entries[k].Text?
  }

  /** A section whose entries are all strings. */
  predicate AllText(m: map<string, Config>)
  {
    forall k :: k in m ==> m[k].Text?
  }

  lemma IdSectionsAllText()
    ensures AllText(IdAdsCenter) && AllText(IdProductList) && AllText(IdProductEdit)
  {
    forall k | k in IdAdsCenter ensures IdAdsCenter[k].Text? {}
    forall k | k in IdProductList ensures IdProductList[k].Text? {}
    forall k | k in IdProductEdit ensures IdProductEdit[k].Text? {}
  }

  /** The Indonesian table is such a table. */
  lemma IdTableFitsActions()
    ensures ActionTable(ShopeeId)
  {
    IdSectionsAllText();
    forall sec | sec in ShopeeId && sec in ActionSections
      ensures ShopeeId[sec].Section? && AllText(ShopeeId[sec].entries)
    {
      if sec == "ads_center" {
        assert ShopeeId[sec] == Section(IdAdsCenter);
      } else if sec == "product_list" {
        assert ShopeeId[sec] == Section(IdProductList);
      } else {
        assert ShopeeId[sec] == Section(IdProductEdit);
      }
    }
  }

  /** Every site's table is such a table. */
  lemma SiteTablesFitActions(site: string)
    ensures ActionTable(GetLocators(site))
  {
    OtherSitesHaveNoSections(site);
    if site !in {"my", "th", "vn", "ph", "sg"} {
      IdTableFitsActions();
    }
  }

  /** `loc(section, key)` on such a table. */
  function LocAt(t: Table, sec: string, key: string): (r: Option<Locator>)
    ensures r.Some? <==> sec in t && t[sec].Section? && key in t[sec].entries && t[sec].entries[key].Text?
  {
    if sec in t && t[sec].Section? && key in t[sec].entries && t[sec].entries[key].Text? then
      Some(ParseLocator(t[sec].entries[key].s))
    else None
  }

  /** On such a table `loc` never raises and agrees with LocAt. */
  lemma LocAtAgrees(t: Table, sec: string, key: string)
    requires ActionTable(t) && sec in ActionSections
    ensures LocOf(Walk(Section(t), [sec, key])) == Normal(LocAt(t, sec, key))
  {
    var first := if sec in t then t[sec] else Section(map[]);
    assert Walk(Section(t), [sec, key]) == Walk(first, [key]);
    assert Walk(first, [key]) == Walk(if key in first.entries then first.entries[key] else Section(map[]), []);
  }

  /** `self.loc(section, key)` as the actions call it. */
  method LocIn(t: Table, sec: string, key: string) returns (l: Option<Locator>)
    requires ActionTable(t) && sec in ActionSections
    ensures l == LocAt(t, sec, key)
  {
    var r := Loc(t, [sec, key]);
    LocAtAgrees(t, sec, key);
    l := r.value;
  }

  /** `self.locators.get(section, {}).get("entry_url")`: the string of the
      entry that `loc(section, "entry_url")` would parse. */
  function EntryUrl(t: Table, sec: string): (u: Option<string>)
    ensures u.None? <==> LocAt(t, sec, "entry_url").None?
    ensures u.Some? ==> LocAt(t, sec, "entry_url") == Some(ParseLocator(u.value))
  {
    if sec in t && t[sec].Section? && "entry_url" in t[sec].entries && t[sec].entries["entry_url"].Text? then
      Some(t[sec].entries["entry_url"].s)
    else None
  }

  /** The sites other than Indonesia have none of the locators the actions
      look up. */
  lemma OtherSitesLackActionLocators(site: string, sec: string, key: string)
    requires site in {"my", "th", "vn", "ph", "sg"}
    ensures ActionTable(GetLocators(site))
    ensures LocAt(GetLocators(site), sec, key).None?
    ensures EntryUrl(GetLocators(site), sec).None?
  {
    SiteTablesFitActions(site);
    OtherSitesHaveNoSections(site);
  }

  /** The Indonesian product list URL. */
  lemma IdProductListUrl()
    ensures EntryUrl(ShopeeId, "product_list") == Some("https://seller.shopee.co.id/portal/product/list/all")
  {
    assert ShopeeId["product_list"].entries == IdProductList;
    assert IdProductList["entry_url"] == Config.Text("https://seller.shopee.co.id/portal/product/list/all");
  }

  /** The Indonesian ads centre URL. */
  lemma IdAdsCenterUrl()
    ensures EntryUrl(ShopeeId, "ads_center") == Some("https://seller.shopee.co.id/portal/marketing/pas/assembly")
  {
    assert ShopeeId["ads_center"].entries == IdAdsCenter;
    assert IdAdsCenter["entry_url"] == Config.Text("https://seller.shopee.co.id/portal/marketing/pas/assembly");
  }

  /** The Indonesian table has the title field, the save button and the
      success toast. */
  lemma IdEditLocators()
    ensures ActionTable(ShopeeId)
    ensures LocAt(ShopeeId, "product_edit", "title_input").Some?
    ensures LocAt(ShopeeId, "product_edit", "save_btn").Some?
    ensures LocAt(ShopeeId, "product_edit", "success_toast").Some?
  {
    IdTableFitsActions();
    assert ShopeeId["product_edit"].entries == IdProductEdit;
  }

  /** The Indonesian table has the search box and the edit button. */
  lemma IdListLocators()
    ensures ActionTable(ShopeeId)
    ensures LocAt(ShopeeId, "product_list", "search_input").Some?
    ensures LocAt(ShopeeId, "product_list", "edit_btn").Some?
  {
    IdTableFitsActions();
    assert ShopeeId["product_list"].entries == IdProductList;
  }
}
