/**
 * The `update_title` action: open the product list, search for the product,
 * open its edit page, replace the title and save.  Each step is a function
 * of the page and of the locators the step looks up, giving its outcome and
 * the driver calls it issues; a method that performs the step through the
 * controller is proved to issue exactly those calls and return that outcome.
 */
module UpdateTitle {
  import opened Python
  import opened Locators
  import opened BrowserControl
  import opened ActionBase

  const ActionName := "update_title"

  /** `Keys.RETURN` */
  const Return := "\U{E006}"

  const ClearScript := "arguments[0].value = '';"
  const InputEventScript := "arguments[0].dispatchEvent(new Event('input', { bubbles: true }));"
  const ScrollDownScript := "window.scrollTo(0, document.body.scrollHeight);"

  /** What calling `execute_script(script, element)` raises: the controller's
      `execute_script` takes the script only. */
  const ScriptArityError := "BrowserController.execute_script() takes 2 positional arguments but 3 were given"

  const NoOldTitle := "[未获取到原标题]"
  const SaveMissing := "保存按钮定位器未配置"
  const SaveUnclickable := "无法点击保存按钮"
  const Saved := "保存成功"
  const SavedUnconfirmed := "保存完成（未检测到明确提示）"
  const SaveRejected := "保存失败: "

  // ------------------------------------------------------------- _search_product

  /** `_search_product(keyword)`: type the keyword into the search box, then
      click the search button, or press Enter in the box when the table has
      no button.  False when the box is missing or cannot be typed into; an
      unexpected error of the wait or of Enter escapes. */
  function SearchOutcome(p: Page, input: Option<Locator>, button: Option<Locator>, keyword: Value)
    : (r: Traced<Except<bool>>)
    ensures r.value == Normal(true) ==>
              input.Some? && p.typable(input.value, keyword)
              && |r.calls| > 0 && r.calls[0] == Typed(input.value, keyword)
    ensures input.None? ==> r == Traced(Normal(false), [])
    ensures input.Some? && p.typable(input.value, keyword) && button.Some? ==> r.value == Normal(true)
    ensures r.value == Normal(false) <==> input.None? || !p.typable(input.value, keyword)
    ensures r.value.Thrown? ==> button.None?
  {
    if input.None? then Traced(Normal(false), [])
    else
      var typed := [Typed(input.value, keyword)];
      if !p.typable(input.value, keyword) then Traced(Normal(false), typed)
      else if button.Some? then Traced(Normal(true), typed + [Clicked(button.value)])
      else
        var waited := typed + [Awaited(input.value)];
        match p.presence(input.value)
        case Fails(m) => Traced(Thrown(m), waited)
        case Absent => Traced(Normal(true), waited)
        case Present =>
          var err := p.keys(input.value, VStr(Return));
          Traced(if err.Some? then Thrown(err.value) else Normal(true), waited + [Pressed(input.value, VStr(Return))])
  }

  method SearchProduct(b: BrowserController, t: Table, keyword: Value) returns (r: Except<bool>)
    requires ActionTable(t)
    modifies b`calls
    ensures var s := SearchOutcome(b.View(), LocAt(t, "product_list", "search_input"),
                                   LocAt(t, "product_list", "search_button"), keyword);
            r == s.value && b.calls == old(b.calls) + s.calls
  {
    var input := LocIn(t, "product_list", "search_input");
    var button := LocIn(t, "product_list", "search_button");
    if input.None? {
      return Normal(false);
    }
    var typed := b.SafeSendKeys(input.value, keyword);
    if !typed {
      return Normal(false);
    }
    if button.Some? {
      var _ := b.WaitAndClick(button.value);
    } else {
      var element := b.WaitForElement(input.value);
      if element.Fails? {
        return Thrown(element.msg);
      }
      if element.Present? {
        var err := b.SendKeysToElement(input.value, VStr(Return));
        if err.Some? {
          return Thrown(err.value);
        }
      }
    }
    r := Normal(true);
  }

  // ---------------------------------------------------------- _click_edit_button

  /** `_click_edit_button`: read the first product's name, then click its edit
      button.  None when there is no edit button or it cannot be clicked;
      otherwise the name read, or a placeholder when none was read. */
  function EditOutcome(p: Page, name: Option<Locator>, edit: Option<Locator>): (r: Traced<Option<string>>)
    ensures r.value.Some? ==> r.value.value != ""
    ensures r.value.Some? <==> edit.Some? && p.clickable(edit.value)
    ensures r.value.Some? && name.Some? && p.text(name.value).Some? && p.text(name.value).value != "" ==>
              r.value.value == p.text(name.value).value
    ensures r.value.Some? ==> |r.calls| > 0 && r.calls[|r.calls| - 1] == Clicked(edit.value)
  {
    var read := if name.Some? then [ReadText(name.value)] else [];
    var oldTitle := if name.Some? then p.text(name.value) else None;
    if edit.None? then Traced(None, read)
    else if !p.clickable(edit.value) then Traced(None, read + [Clicked(edit.value)])
    else
      Traced(Some(if oldTitle.Some? && oldTitle.value != "" then oldTitle.value else NoOldTitle),
             read + [Clicked(edit.value)])
  }

  method ClickEditButton(b: BrowserController, t: Table) returns (r: Option<string>)
    requires ActionTable(t)
    modifies b`calls
    ensures var e := EditOutcome(b.View(), LocAt(t, "product_list", "product_name"), LocAt(t, "product_list", "edit_btn"));
            r == e.value && b.calls == old(b.calls) + e.calls
  {
    var name := LocIn(t, "product_list", "product_name");
    var oldTitle: Option<string> := None;
    if name.Some? {
      oldTitle := b.GetText(name.value);
    }
    var edit := LocIn(t, "product_list", "edit_btn");
    if edit.None? {
      return None;
    }
    var clicked := b.WaitAndClick(edit.value);
    if !clicked {
      return None;
    }
    r := Some(if oldTitle.Some? && oldTitle.value != "" then oldTitle.value else NoOldTitle);
  }

  // -------------------------------------------------------- _update_title_field

  /** The steps of `_update_title_field` up to the first script call: False
      when the title field is missing or does not appear; the field is
      scrolled into view whether or not that works. */
  function FieldReached(p: Page, field: Option<Locator>): (r: Traced<Except<bool>>)
    ensures r.value == Normal(true) <==> field.Some? && p.presence(field.value).Present?
  {
    if field.None? then Traced(Normal(false), [])
    else
      match p.presence(field.value)
      case Fails(m) => Traced(Thrown(m), [Awaited(field.value)])
      case Absent => Traced(Normal(false), [Awaited(field.value)])
      case Present => Traced(Normal(true), [Awaited(field.value), Scrolled(field.value)])
  }

  /** `_update_title_field` as written: once the field is there, the first
      `execute_script(script, element)` raises TypeError, so the title is
      never typed and the step never reports True. */
  function FieldOutcomeAsWritten(p: Page, field: Option<Locator>): (r: Traced<Except<bool>>)
    ensures r.value != Normal(true)
    ensures FieldReached(p, field).value == Normal(true) ==> r.value == Thrown(ScriptArityError)
    ensures forall k :: 0 <= k < |r.calls| ==> !r.calls[k].Pressed?
  {
    var reached := FieldReached(p, field);
    if reached.value == Normal(true) then Traced(Thrown(ScriptArityError), reached.calls)
    else reached
  }

  /** `_update_title_field` with the script calls the controller accepts:
      clear the field by script, type the new title, then fire an input
      event.  True exactly when the field is there and none of the three
      raises. */
  function FieldOutcome(p: Page, field: Option<Locator>, newTitle: Value): (r: Traced<Except<bool>>)
    ensures r.value == Normal(true) <==>
              FieldReached(p, field).value == Normal(true)
              && p.script(ClearScript).None?
              && p.keys(field.value, newTitle).None?
              && p.script(InputEventScript).None?
    ensures r.value == Normal(true) ==> Pressed(field.value, newTitle) in r.calls
  {
    var reached := FieldReached(p, field);
    if reached.value != Normal(true) then reached
    else
      var cleared := reached.calls + [Ran(ClearScript)];
      if p.script(ClearScript).Some? then Traced(Thrown(p.script(ClearScript).value), cleared)
      else
        var typed := cleared + [Pressed(field.value, newTitle)];
        if p.keys(field.value, newTitle).Some? then Traced(Thrown(p.keys(field.value, newTitle).value), typed)
        else
          var fired := typed + [Ran(InputEventScript)];
          assert fired[|cleared|] == Pressed(field.value, newTitle);
          if p.script(InputEventScript).Some? then Traced(Thrown(p.script(InputEventScript).value), fired)
          else Traced(Normal(true), fired)
  }

  /** The steps of `_update_title_field` through the controller up to the
      first script call. */
  method ReachField(b: BrowserController, t: Table) returns (r: Except<bool>)
    requires ActionTable(t)
    modifies b`calls
    ensures var f := FieldReached(b.View(), LocAt(t, "product_edit", "title_input"));
            r == f.value && b.calls == old(b.calls) + f.calls
  {
    var field := LocIn(t, "product_edit", "title_input");
    if field.None? {
      return Normal(false);
    }
    var element := b.WaitForElement(field.value);
    if element.Fails? {
      return Thrown(element.msg);
    }
    if element.Absent? {
      return Normal(false);
    }
    var _ := b.ScrollToElement(field.value);
    r := Normal(true);
  }

  /** `_update_title_field` through the controller, as written (the first
      script call raises TypeError) or with the script calls corrected. */
  method UpdateTitleField(b: BrowserController, t: Table, newTitle: Value, asWritten: bool) returns (r: Except<bool>)
    requires ActionTable(t)
    modifies b`calls
    ensures var field := LocAt(t, "product_edit", "title_input");
            var f := if asWritten then FieldOutcomeAsWritten(b.View(), field) else FieldOutcome(b.View(), field, newTitle);
            r == f.value && b.calls == old(b.calls) + f.calls
  {
    var reached := ReachField(b, t);
    if reached != Normal(true) {
      return reached;
    }
    var field := LocIn(t, "product_edit", "title_input");
    if asWritten {
      return Thrown(ScriptArityError);
    }
    var err := b.ExecuteScript(ClearScript);
    if err.Some? {
      return Thrown(err.value);
    }
    err := b.SendKeysToElement(field.value, newTitle);
    if err.Some? {
      return Thrown(err.value);
    }
    err := b.ExecuteScript(InputEventScript);
    if err.Some? {
      return Thrown(err.value);
    }
    r := Normal(true);
  }

  // ------------------------------------------------------------------ _click_save

  /** The toast checks after a successful click on save: the success toast
      first, then the error toast, whose text is reported. */
  function ToastOutcome(p: Page, success: Option<Locator>, error: Option<Locator>)
    : (r: Traced<Except<(bool, string)>>)
    ensures r.value.Normal? && r.value.value.0 ==> r.value.value.1 in {Saved, SavedUnconfirmed}
    ensures r.value.Normal? && !r.value.value.0 ==> StartsWith(r.value.value.1, SaveRejected)
    ensures r.value == Normal((true, Saved)) <==> success.Some? && p.found(success.value).Present?
    ensures (success.None? || p.found(success.value).Absent?) && error.Some? && p.found(error.value).Present? ==>
              r.value == Normal((false, SaveRejected + StrOpt(p.text(error.value))))
    ensures (success.None? || p.found(success.value).Absent?) && (error.None? || p.found(error.value).Absent?) ==>
              r.value == Normal((true, SavedUnconfirmed))
    ensures r.value.Thrown? <==>
              || (success.Some? && p.found(success.value).Fails?)
              || ((success.None? || p.found(success.value).Absent?) && error.Some? && p.found(error.value).Fails?)
  {
    var checked := if success.Some? then [Checked(success.value)] else [];
    var seen := if success.Some? then p.found(success.value) else Absent;
    if seen.Fails? then Traced(Thrown(seen.msg), checked)
    else if seen.Present? then Traced(Normal((true, Saved)), checked)
    else if error.None? then Traced(Normal((true, SavedUnconfirmed)), checked)
    else
      var checked' := checked + [Checked(error.value)];
      match p.found(error.value)
      case Fails(m) => Traced(Thrown(m), checked')
      case Absent => Traced(Normal((true, SavedUnconfirmed)), checked')
      case Present =>
        var text := p.text(error.value);
        assert StartsWith(SaveRejected + StrOpt(text), SaveRejected);
        Traced(Normal((false, SaveRejected + StrOpt(text))), checked' + [ReadText(error.value)])
  }

  /** `_click_save`: scroll to the bottom, click save, then look at the
      toasts.  Failure, with a message saying why, when the button is missing
      or cannot be clicked. */
  function SaveOutcome(p: Page, save: Option<Locator>, success: Option<Locator>, error: Option<Locator>)
    : (r: Traced<Except<(bool, string)>>)
    ensures r.value.Normal? && r.value.value.0 ==> r.value.value.1 in {Saved, SavedUnconfirmed}
    ensures r.value.Normal? && !r.value.value.0 ==>
              r.value.value.1 in {SaveMissing, SaveUnclickable} || StartsWith(r.value.value.1, SaveRejected)
    ensures r.value.Normal? && r.value.value.0 ==> save.Some? && Clicked(save.value) in r.calls
    ensures save.None? ==> r == Traced(Normal((false, SaveMissing)), [])
    ensures save.Some? && p.script(ScrollDownScript).Some? ==> r.value == Thrown(p.script(ScrollDownScript).value)
    ensures save.Some? && p.script(ScrollDownScript).None? && !p.clickable(save.value) ==>
              r.value == Normal((false, SaveUnclickable))
    ensures save.Some? && p.script(ScrollDownScript).None? && p.clickable(save.value) ==>
              r.value == ToastOutcome(p, success, error).value
  {
    if save.None? then Traced(Normal((false, SaveMissing)), [])
    else
      var scrolled := [Ran(ScrollDownScript)];
      if p.script(ScrollDownScript).Some? then Traced(Thrown(p.script(ScrollDownScript).value), scrolled)
      else
        var clicked := scrolled + [Clicked(save.value)];
        if !p.clickable(save.value) then Traced(Normal((false, SaveUnclickable)), clicked)
        else
          var toasts := ToastOutcome(p, success, error);
          assert (clicked + toasts.calls)[1] == Clicked(save.value);
          Traced(toasts.value, clicked + toasts.calls)
  }

  method ClickSave(b: BrowserController, t: Table) returns (r: Except<(bool, string)>)
    requires ActionTable(t)
    modifies b`calls
    ensures var s := SaveOutcome(b.View(), LocAt(t, "product_edit", "save_btn"),
                                 LocAt(t, "product_edit", "success_toast"), LocAt(t, "product_edit", "error_toast"));
            r == s.value && b.calls == old(b.calls) + s.calls
  {
    var save := LocIn(t, "product_edit", "save_btn");
    if save.None? {
      return Normal((false, SaveMissing));
    }
    var err := b.ExecuteScript(ScrollDownScript);
    if err.Some? {
      return Thrown(err.value);
    }
    var clicked := b.WaitAndClick(save.value);
    if !clicked {
      return Normal((false, SaveUnclickable));
    }
    var success := LocIn(t, "product_edit", "success_toast");
    var error := LocIn(t, "product_edit", "error_toast");
    r := CheckToasts(b, success, error);
  }

  /** The toast checks of `_click_save` through the controller. */
  method CheckToasts(b: BrowserController, success: Option<Locator>, error: Option<Locator>)
    returns (r: Except<(bool, string)>)
    modifies b`calls
    ensures r == ToastOutcome(b.View(), success, error).value
    ensures b.calls == old(b.calls) + ToastOutcome(b.View(), success, error).calls
  {
    if success.Some? {
      var seen := b.CheckElementExists(success.value);
      if seen.Fails? {
        return Thrown(seen.msg);
      }
      if seen.Present? {
        return Normal((true, Saved));
      }
    }
    if error.Some? {
      var seen := b.CheckElementExists(error.value);
      if seen.Fails? {
        return Thrown(seen.msg);
      }
      if seen.Present? {
        var text := b.GetText(error.value);
        return Normal((false, SaveRejected + StrOpt(text)));
      }
    }
    r := Normal((true, SavedUnconfirmed));
  }

  // ------------------------------------------------------------------- _do_action

  // The steps on a site table: each looks its locators up in the table.

  function SearchOn(t: Table, p: Page, keyword: Value): Traced<Except<bool>>
  {
    SearchOutcome(p, LocAt(t, "product_list", "search_input"), LocAt(t, "product_list", "search_button"), keyword)
  }

  function EditOn(t: Table, p: Page): Traced<Option<string>>
  {
    EditOutcome(p, LocAt(t, "product_list", "product_name"), LocAt(t, "product_list", "edit_btn"))
  }

  function FieldOn(t: Table, p: Page, newTitle: Value, asWritten: bool): Traced<Except<bool>>
  {
    var field := LocAt(t, "product_edit", "title_input");
    if asWritten then FieldOutcomeAsWritten(p, field) else FieldOutcome(p, field, newTitle)
  }

  function SaveOn(t: Table, p: Page): Traced<Except<(bool, string)>>
  {
    SaveOutcome(p, LocAt(t, "product_edit", "save_btn"), LocAt(t, "product_edit", "success_toast"),
                LocAt(t, "product_edit", "error_toast"))
  }

  /** The fields `update_title` requires. */
  const Required := ["product_id", "new_title"]

  /** The payload check passes exactly when both required keys are there. */
  lemma RequiredPresent(payload: Payload)
    ensures ValidatePayload(payload, Required).None? <==> "product_id" in payload && "new_title" in payload
  {
    assert Required[0] == "product_id" && Required[1] == "new_title";
  }

  // The stages of a live run.  Each takes the outcomes of the steps it
  // may reach, as computed on the page, and keeps the calls of the steps
  // actually reached.

  /** The last stage: save, and report the title read before editing. */
  function SaveStage(save: Traced<Except<(bool, string)>>, productId: Value, newTitle: Value, oldTitle: string)
    : (r: Traced<Except<ActionResult>>)
    ensures r.calls == save.calls
    ensures r.value.Normal? && r.value.value.ok <==> save.value.Normal? && save.value.value.0
    ensures r.value.Normal? && r.value.value.ok ==>
              r.value.value == Success(ActionName, TitleUpdated(productId, oldTitle, newTitle))
    ensures r.value.Normal? && !r.value.value.ok ==> r.value.value.errorCode == Some("SAVE_ERROR")
  {
    if save.value.Thrown? then Traced(Thrown(save.value.msg), save.calls)
    else if !save.value.value.0 then
      Traced(Normal(Failure(ActionName, "SAVE_ERROR", save.value.value.1)), save.calls)
    else
      Traced(Normal(Success(ActionName, TitleUpdated(productId, oldTitle, newTitle))), save.calls)
  }

  /** Replace the title on the edit page, then save. */
  function FieldStage(field: Traced<Except<bool>>, save: Traced<Except<(bool, string)>>,
                      productId: Value, newTitle: Value, oldTitle: string)
    : (r: Traced<Except<ActionResult>>)
    ensures r.value.Normal? && r.value.value.ok ==>
              field.value == Normal(true) && r == Prefixed(field.calls, SaveStage(save, productId, newTitle, oldTitle))
    ensures r.value.Normal? && !r.value.value.ok ==>
              r.value.value.errorMessage.Some? && r.value.value.errorCode.Some?
              && r.value.value.errorCode.value in {"UPDATE_ERROR", "SAVE_ERROR"}
  {
    if field.value.Thrown? then Traced(Thrown(field.value.msg), field.calls)
    else if !field.value.value then
      Traced(Normal(Failure(ActionName, "UPDATE_ERROR", "无法修改标题字段")), field.calls)
    else
      Prefixed(field.calls, SaveStage(save, productId, newTitle, oldTitle))
  }

  /** Open the first product's edit page, then replace the title. */
  function EditStage(edit: Traced<Option<string>>, field: Traced<Except<bool>>,
                     save: Traced<Except<(bool, string)>>, productId: Value, newTitle: Value)
    : (r: Traced<Except<ActionResult>>)
    ensures r.value.Normal? && r.value.value.ok ==>
              edit.value.Some? && r == Prefixed(edit.calls, FieldStage(field, save, productId, newTitle, edit.value.value))
    ensures r.value.Normal? && !r.value.value.ok ==>
              r.value.value.errorMessage.Some? && r.value.value.errorCode.Some?
              && r.value.value.errorCode.value in {"PRODUCT_NOT_FOUND", "UPDATE_ERROR", "SAVE_ERROR"}
  {
    if edit.value.None? then
      Traced(Normal(Failure(ActionName, "PRODUCT_NOT_FOUND", "未找到商品或无法点击编辑: " + Str(productId))), edit.calls)
    else
      Prefixed(edit.calls, FieldStage(field, save, productId, newTitle, edit.value.value))
  }

  /** Everything a live (not dry) run does: open the product list at `url`,
      search, then edit. */
  function LiveStage(url: Option<string>, loaded: bool, search: Traced<Except<bool>>,
                     edit: Traced<Option<string>>, field: Traced<Except<bool>>,
                     save: Traced<Except<(bool, string)>>, productId: Value, newTitle: Value, productName: Value)
    : (r: Traced<Except<ActionResult>>)
    ensures |r.calls| > 0 && r.calls[0] == Navigated(url)
    ensures r.value.Normal? && r.value.value.ok ==>
              loaded && search.value == Normal(true)
              && r == Prefixed([Navigated(url)] + search.calls, EditStage(edit, field, save, productId, newTitle))
    ensures r.value.Normal? && !r.value.value.ok ==>
              r.value.value.errorMessage.Some? && r.value.value.errorCode.Some?
              && r.value.value.errorCode.value in
                   {"NAVIGATION_ERROR", "SEARCH_ERROR", "PRODUCT_NOT_FOUND", "UPDATE_ERROR", "SAVE_ERROR"}
  {
    var navigated := [Navigated(url)];
    if !loaded then
      Traced(Normal(Failure(ActionName, "NAVIGATION_ERROR", "无法打开商品列表页")), navigated)
    else
      var searched := navigated + search.calls;
      if search.value.Thrown? then Traced(Thrown(search.value.msg), searched)
      else if !search.value.value then
        Traced(Normal(Failure(ActionName, "SEARCH_ERROR", "搜索商品失败: " + Str(productName))), searched)
      else
        Prefixed(searched, EditStage(edit, field, save, productId, newTitle))
  }

  /** The live run on a page, with the title step as written or with the
      accepted script calls. */
  function LiveOutcome(t: Table, p: Page, productId: Value, newTitle: Value, productName: Value, asWritten: bool)
    : Traced<Except<ActionResult>>
    requires ActionTable(t)
  {
    var url := EntryUrl(t, "product_list");
    LiveStage(url, p.loads(url), SearchOn(t, p, productName), EditOn(t, p),
              FieldOn(t, p, newTitle, asWritten),
              SaveOn(t, p), productId, newTitle, productName)
  }

  /** `_do_action` of `update_title`.  An exception escapes as Thrown. */
  function TitleOutcome(t: Table, p: Page, ctx: ActionContext, payload: Payload, asWritten: bool)
    : (r: Traced<Except<ActionResult>>)
    requires ActionTable(t)
    ensures r.value.Normal? ==> r.value.value.action == ActionName
  {
    var missing := ValidatePayload(payload, Required);
    if missing.Some? then Traced(Normal(Failure(ActionName, "VALIDATION_ERROR", missing.value)), [])
    else
      RequiredPresent(payload);
      var productId := payload["product_id"];
      var newTitle := payload["new_title"];
      if ctx.dryRun then Traced(Normal(Success(ActionName, TitleDryRun(productId, newTitle))), [])
      else LiveOutcome(t, p, productId, newTitle, Get(payload, "product_name", productId), asWritten)
  }

  /** `UpdateTitleAction._do_action` through the controller. */
  method DoAction(b: BrowserController, t: Table, ctx: ActionContext, payload: Payload, asWritten: bool)
    returns (r: Except<ActionResult>)
    requires ActionTable(t)
    modifies b`calls
    ensures r == TitleOutcome(t, b.View(), ctx, payload, asWritten).value
    ensures b.calls == old(b.calls) + TitleOutcome(t, b.View(), ctx, payload, asWritten).calls
  {
    var missing := ValidatePayload(payload, Required);
    if missing.Some? {
      return Normal(Failure(ActionName, "VALIDATION_ERROR", missing.value));
    }
    RequiredPresent(payload);
    var productId := payload["product_id"];
    var newTitle := payload["new_title"];
    var productName := Get(payload, "product_name", productId);
    if ctx.dryRun {
      return Normal(Success(ActionName, TitleDryRun(productId, newTitle)));
    }
    r := RunLive(b, t, productId, newTitle, productName, asWritten);
  }

  /** The live part of `_do_action`: navigate and search, then edit. */
  method RunLive(b: BrowserController, t: Table, productId: Value, newTitle: Value, productName: Value,
                 asWritten: bool)
    returns (r: Except<ActionResult>)
    requires ActionTable(t)
    modifies b`calls
    ensures r == LiveOutcome(t, b.View(), productId, newTitle, productName, asWritten).value
    ensures b.calls == old(b.calls) + LiveOutcome(t, b.View(), productId, newTitle, productName, asWritten).calls
  {
    ghost var before := b.calls;
    ghost var p := b.View();
    var url := EntryUrl(t, "product_list");
    ghost var search := SearchOn(t, p, productName);
    ghost var rest := EditStage(EditOn(t, p), FieldOn(t, p, newTitle, asWritten), SaveOn(t, p), productId, newTitle);
    LiveStageCases(url, p.loads(url), search, rest, EditOn(t, p), FieldOn(t, p, newTitle, asWritten), SaveOn(t, p),
                   productId, newTitle, productName);
    var loaded := b.Navigate(url);
    if !loaded {
      return Normal(Failure(ActionName, "NAVIGATION_ERROR", "无法打开商品列表页"));
    }
    var found := SearchProduct(b, t, productName);
    Regroup(before, [Navigated(url)], search.calls);
    if found.Thrown? {
      return Thrown(found.msg);
    }
    if !found.value {
      return Normal(Failure(ActionName, "SEARCH_ERROR", "搜索商品失败: " + Str(productName)));
    }
    r := RunEdit(b, t, productId, newTitle, asWritten);
    Regroup(before, [Navigated(url)] + search.calls, rest.calls);
  }

  /** LiveStage case by case. */
  lemma LiveStageCases(url: Option<string>, loaded: bool, search: Traced<Except<bool>>, rest: Traced<Except<ActionResult>>,
                       edit: Traced<Option<string>>, field: Traced<Except<bool>>,
                       save: Traced<Except<(bool, string)>>, productId: Value, newTitle: Value, productName: Value)
    requires rest == EditStage(edit, field, save, productId, newTitle)
    ensures var r := LiveStage(url, loaded, search, edit, field, save, productId, newTitle, productName);
            && (!loaded ==> r == Traced(Normal(Failure(ActionName, "NAVIGATION_ERROR", "无法打开商品列表页")), [Navigated(url)]))
            && (loaded && search.value.Thrown? ==> r == Traced(Thrown(search.value.msg), [Navigated(url)] + search.calls))
            && (loaded && search.value == Normal(false) ==>
                  r == Traced(Normal(Failure(ActionName, "SEARCH_ERROR", "搜索商品失败: " + Str(productName))),
                              [Navigated(url)] + search.calls))
            && (loaded && search.value == Normal(true) ==> r == Prefixed([Navigated(url)] + search.calls, rest))
  {
    if loaded && search.value == Normal(true) {
      assert LiveStage(url, loaded, search, edit, field, save, productId, newTitle, productName)
             == Prefixed([Navigated(url)] + search.calls, rest);
    }
  }

  /** `_do_action` from the edit button on. */
  method RunEdit(b: BrowserController, t: Table, productId: Value, newTitle: Value, asWritten: bool)
    returns (r: Except<ActionResult>)
    requires ActionTable(t)
    modifies b`calls
    ensures var p := b.View();
            r == EditStage(EditOn(t, p), FieldOn(t, p, newTitle, asWritten), SaveOn(t, p), productId, newTitle).value
    ensures var p := b.View();
            b.calls == old(b.calls)
                       + EditStage(EditOn(t, p), FieldOn(t, p, newTitle, asWritten), SaveOn(t, p), productId, newTitle).calls
  {
    ghost var before := b.calls;
    var oldTitle := ClickEditButton(b, t);
    if oldTitle.None? {
      return Normal(Failure(ActionName, "PRODUCT_NOT_FOUND", "未找到商品或无法点击编辑: " + Str(productId)));
    }
    ghost var p := b.View();
    r := RunField(b, t, productId, newTitle, oldTitle.value, asWritten);
    Regroup(before, EditOn(t, p).calls,
                FieldStage(FieldOn(t, p, newTitle, asWritten), SaveOn(t, p), productId, newTitle, oldTitle.value).calls);
  }

  /** `_do_action` from the title field on. */
  method RunField(b: BrowserController, t: Table, productId: Value, newTitle: Value, oldTitle: string,
                  asWritten: bool)
    returns (r: Except<ActionResult>)
    requires ActionTable(t)
    modifies b`calls
    ensures var p := b.View();
            r == FieldStage(FieldOn(t, p, newTitle, asWritten), SaveOn(t, p), productId, newTitle, oldTitle).value
    ensures var p := b.View();
            b.calls == old(b.calls) + FieldStage(FieldOn(t, p, newTitle, asWritten), SaveOn(t, p), productId, newTitle, oldTitle).calls
  {
    ghost var before := b.calls;
    ghost var p := b.View();
    var updated := UpdateTitleField(b, t, newTitle, asWritten);
    if updated.Thrown? {
      return Thrown(updated.msg);
    }
    if !updated.value {
      return Normal(Failure(ActionName, "UPDATE_ERROR", "无法修改标题字段"));
    }
    r := RunSave(b, t, productId, newTitle, oldTitle);
    Regroup(before, FieldOn(t, p, newTitle, asWritten).calls, SaveOn(t, p).calls);
  }

  /** `_do_action` from the click on save on. */
  method RunSave(b: BrowserController, t: Table, productId: Value, newTitle: Value, oldTitle: string)
    returns (r: Except<ActionResult>)
    requires ActionTable(t)
    modifies b`calls
    ensures var s := SaveStage(SaveOn(t, b.View()), productId, newTitle, oldTitle);
            r == s.value && b.calls == old(b.calls) + s.calls
  {
    var saved := ClickSave(b, t);
    if saved.Thrown? {
      return Thrown(saved.msg);
    }
    if !saved.value.0 {
      return Normal(Failure(ActionName, "SAVE_ERROR", saved.value.1));
    }
    r := Normal(Success(ActionName, TitleUpdated(productId, oldTitle, newTitle)));
  }

  // ---------------------------------------------------------------- properties

  /** Every failure of the action carries one of its error codes and a
      message. */
  lemma FailuresCarryCode(t: Table, p: Page, ctx: ActionContext, payload: Payload, asWritten: bool)
    requires ActionTable(t)
    ensures var r := TitleOutcome(t, p, ctx, payload, asWritten).value;
            r.Normal? && !r.value.ok ==>
              r.value.errorCode.Some? && r.value.errorMessage.Some?
              && r.value.errorCode.value in
                   {"VALIDATION_ERROR", "NAVIGATION_ERROR", "SEARCH_ERROR", "PRODUCT_NOT_FOUND",
                    "UPDATE_ERROR", "SAVE_ERROR"}
  {
    RequiredPresent(payload);
  }

  /** The browser is touched exactly when the payload is complete and the run
      is not a dry run; a complete dry run echoes the id and the new title. */
  lemma BrowserUntouchedUnlessLive(t: Table, p: Page, ctx: ActionContext, payload: Payload, asWritten: bool)
    requires ActionTable(t)
    ensures TitleOutcome(t, p, ctx, payload, asWritten).calls == []
            <==> (ValidatePayload(payload, Required).Some? || ctx.dryRun)
    ensures "product_id" in payload && "new_title" in payload && ctx.dryRun ==>
              TitleOutcome(t, p, ctx, payload, asWritten).value
              == Normal(Success(ActionName, TitleDryRun(payload["product_id"], payload["new_title"])))
  {
    RequiredPresent(payload);
  }

  /** A live title update that reports success opened the product list
      first, typed the new title into the title field, clicked save, and
      reports the title it read before editing. */
  lemma SuccessTypedAndSaved(t: Table, p: Page, ctx: ActionContext, payload: Payload)
    requires ActionTable(t) && !ctx.dryRun
    requires TitleOutcome(t, p, ctx, payload, false).value.Normal?
    requires TitleOutcome(t, p, ctx, payload, false).value.value.ok
    ensures "product_id" in payload && "new_title" in payload
    ensures TitleOutcome(t, p, ctx, payload, false).calls[0] == Navigated(EntryUrl(t, "product_list"))
    ensures LocAt(t, "product_edit", "title_input").Some? && LocAt(t, "product_edit", "save_btn").Some?
    ensures Pressed(LocAt(t, "product_edit", "title_input").value, payload["new_title"])
              in TitleOutcome(t, p, ctx, payload, false).calls
    ensures Clicked(LocAt(t, "product_edit", "save_btn").value) in TitleOutcome(t, p, ctx, payload, false).calls
    ensures EditOn(t, p).value.Some?
    ensures TitleOutcome(t, p, ctx, payload, false).value.value.data
              == Some(TitleUpdated(payload["product_id"], EditOn(t, p).value.value, payload["new_title"]))
  {
    RequiredPresent(payload);
    var productId := payload["product_id"];
    var newTitle := payload["new_title"];
    var url := EntryUrl(t, "product_list");
    var field := FieldOn(t, p, newTitle, false);
    var save := SaveOn(t, p);
    LiveStageSucceeded(url, p.loads(url), SearchOn(t, p, Get(payload, "product_name", productId)), EditOn(t, p),
                       field, save, productId, newTitle, Get(payload, "product_name", productId));
    assert Pressed(LocAt(t, "product_edit", "title_input").value, newTitle) in field.calls;
    assert Clicked(LocAt(t, "product_edit", "save_btn").value) in save.calls;
  }

  /** A live run that succeeds went through every stage, in order. */
  lemma LiveStageSucceeded(url: Option<string>, loaded: bool, search: Traced<Except<bool>>,
                           edit: Traced<Option<string>>, field: Traced<Except<bool>>,
                           save: Traced<Except<(bool, string)>>, productId: Value, newTitle: Value,
                           productName: Value)
    requires LiveStage(url, loaded, search, edit, field, save, productId, newTitle, productName).value.Normal?
    requires LiveStage(url, loaded, search, edit, field, save, productId, newTitle, productName).value.value.ok
    ensures loaded && search.value == Normal(true) && edit.value.Some? && field.value == Normal(true)
    ensures save.value.Normal? && save.value.value.0
    ensures LiveStage(url, loaded, search, edit, field, save, productId, newTitle, productName).calls
            == ([Navigated(url)] + search.calls) + (edit.calls + (field.calls + save.calls))
    ensures LiveStage(url, loaded, search, edit, field, save, productId, newTitle, productName).value.value.data
            == Some(TitleUpdated(productId, edit.value.value, newTitle))
  {
  }


  /** As written, a live title update never succeeds, and once the title
      field is reached the run ends in the script call's TypeError. */
  lemma AsWrittenNeverSucceeds(t: Table, p: Page, ctx: ActionContext, payload: Payload)
    requires ActionTable(t) && !ctx.dryRun
    ensures var r := TitleOutcome(t, p, ctx, payload, true).value;
            !(r.Normal? && r.value.ok)
    ensures (ValidatePayload(payload, Required).None? && p.loads(EntryUrl(t, "product_list"))
             && SearchOn(t, p, Get(payload, "product_name", payload["product_id"])).value == Normal(true)
             && EditOn(t, p).value.Some? && FieldReached(p, LocAt(t, "product_edit", "title_input")).value == Normal(true))
            ==> TitleOutcome(t, p, ctx, payload, true).value == Thrown(ScriptArityError)
  {
    RequiredPresent(payload);
  }

  /** A page on which every driver call works and every element is there. */
  function Cooperative(oldTitle: string): (p: Page)
    ensures p.connects && forall l :: p.clickable(l) && p.presence(l).Present? && p.text(l) == Some(oldTitle)
  {
    Page(true, None, _ => true, _ => true, (_, _) => true, _ => Some(oldTitle), (_, _) => None,
         _ => Present, _ => Present, (_, _) => None, _ => None, _ => true, _ => Normal([]), _ => None)
  }

  /** With the accepted script calls, a live title update on a table that has
      the search box, the edit button, the title field, the save button and
      the success toast succeeds on a cooperating page, reporting the title
      it read. */
  lemma CorrectedCanSucceed(t: Table, id: Value, title: Value)
    requires ActionTable(t)
    requires LocAt(t, "product_list", "search_input").Some? && LocAt(t, "product_list", "edit_btn").Some?
    requires LocAt(t, "product_edit", "title_input").Some? && LocAt(t, "product_edit", "save_btn").Some?
    requires LocAt(t, "product_edit", "success_toast").Some?
    ensures EditOn(t, Cooperative("Kaos")).value.Some?
    ensures LiveOutcome(t, Cooperative("Kaos"), id, title, id, false).value
            == Normal(Success(ActionName, TitleUpdated(id, EditOn(t, Cooperative("Kaos")).value.value, title)))
  {
    var p := Cooperative("Kaos");
    assert SearchOn(t, p, id).value == Normal(true);
    assert FieldOn(t, p, title, false).value == Normal(true);
    assert SaveOn(t, p).value.Normal? && SaveOn(t, p).value.value.0;
  }

  /** The Indonesian table has every locator the corrected update needs. */
  lemma IdTableSupportsTitleUpdate()
    ensures ActionTable(ShopeeId)
    ensures LocAt(ShopeeId, "product_list", "search_input").Some? && LocAt(ShopeeId, "product_list", "edit_btn").Some?
    ensures LocAt(ShopeeId, "product_edit", "title_input").Some? && LocAt(ShopeeId, "product_edit", "save_btn").Some?
    ensures LocAt(ShopeeId, "product_edit", "success_toast").Some?
  {
    IdEditLocators();
    IdListLocators();
  }
}
