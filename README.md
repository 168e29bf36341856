# shopee-agent, modelled in Dafny

A model of the task-execution core of a Shopee Seller Center automation agent.

A **worker** pulls queued tasks from a task store (three Supabase tables: tasks, runs and artifacts) and handles each one in turn:

1. It marks the task RUNNING and opens a run row.
2. It gets a browser for the task's shop from the session provider (the "ziniao" desktop client). It attaches a Selenium-style **browser controller** to that browser and keeps the controller for the shop.
3. It looks the task's action up in the **action registry**.
4. It runs the action through the **action template**. The template loads the site's **locator table** and takes before/after/error screenshots as evidence. It records the evidence as artifact rows and times the action.
5. It writes the run's result and the task's final status, SUCCESS or FAILED.

The three **actions** are `update_title`, `fetch_product_snapshot` and `fetch_ads_summary`. Each one is a fixed sequence of browser steps with one error code per failing step.

## How the model is built

- **External systems.** The browser, the session provider and the storage bucket are values whose answers are inputs:
  - `BrowserControl.Page` says how the browser answers each kind of driver call;
  - `Ziniao.Service` says how the provider answers each API request;
  - `TaskStore.uploads` says what the bucket returns for an upload.
- **Traces.** Each stateful object keeps a ghost trace of what it did:
  - the calls issued through a controller (`BrowserController.calls`);
  - the request bodies sent by the client (`ZiniaoClient.requests`);
  - the store's writes (`TaskStore.log`).
- **Actions.** Each action step is specified twice:
  - a pure function of the page and the locators the step looks up, giving the step's outcome and the calls it issues;
  - a method that performs the step through the controller, proved to return that outcome and issue exactly those calls.

  Properties of the actions are lemmas about the functions.
- **Exceptions.** An exception is `Except.Thrown(str(e))`.
- **Ids and clocks.**
  - Fresh row ids (uuid4) are parameters. Each method that takes one requires that it is unused.
  - `utcnow()` is the store's own clock and `time.time()` is a `WallClock`. Neither ever goes back.
  - The screenshot timestamp is an arbitrary string.
- **Modules**, one per source file:

  | module | models |
  |---|---|
  | `Python` | values and builtins |
  | `PyTime` | the clock |
  | `Locators` | locators.py |
  | `BrowserControl` | browser_controller.py |
  | `Ziniao` | ziniao_client.py |
  | `SupabaseStore` | supabase_store.py |
  | `ActionBase` | base_action.py, less `execute` |
  | `ActionTemplate` | `execute` |
  | `UpdateTitle`, `ProductSnapshot`, `AdsCenter` | the three actions |
  | `Registry` | actions/__init__.py |
  | `TaskWorker` | worker.py |

## Model

| member | source | states |
|---|---|---|
| Python.Strip | actions/fetch_product_snapshot.py:124 | `.strip()` leaves no whitespace at either end and never lengthens the text |
| Python.StripKeepsMiddle | actions/fetch_product_snapshot.py:124 | strip removes whitespace from the two ends only: the result is a slice of the input with only whitespace outside it |
| Python.StripTrimmed | actions/fetch_product_snapshot.py:124 | a text with no whitespace at either end is its own strip |
| Python.BeforeFirst | worker.py:108 | `s.split(c)[0]` is a prefix of s that holds no c and is followed by c when shorter than s |
| Python.IntOf | core/ziniao_client.py:206 | `int(v)` is the integer itself for an int; None, lists and dicts raise |
| Python.ParseIntRejectsDot | actions/fetch_ads_summary.py:194-196 | int() raises on any text holding a dot |
| Python.NatToStringParses | core/ziniao_client.py:206 | `int(str(n)) == n` for every natural n |
| Python.NatToStringRoundTrip | actions/fetch_ads_summary.py:196 | the decimal digits written for n read back as n |
| PyTime.WallClock.Now | actions/base_action.py:68 | a clock reading is never earlier than the previous one |
| Locators.ParseLocator | actions/locators.py:156-178 | the first of the prefixes css:, xpath:, id:, name: that matches decides the strategy and is cut off; a string with none of them is a CSS selector as a whole |
| Locators.ParseRender | actions/locators.py:168-175 | every locator is parsed back from its tagged text, whatever its selector starts with |
| Locators.RenderParse | actions/locators.py:168-178 | parsing loses no text: a tagged string is re-rendered exactly, and an untagged one gains only "css:" |
| Locators.GetLocators | actions/locators.py:138-153 | every site's table has a base_url string; any code other than my/th/vn/ph/sg gets the Indonesian table |
| Locators.OtherSitesHaveNoSections | actions/locators.py:112-153 | the my/th/vn/ph/sg tables hold only base_url, so every section lookup on them falls through to empty |
| BrowserControl.Outcome | core/browser_controller.py:22-31 | an ActionResult built from ok and action alone has data, error code, message, evidence and timing all None |
| BrowserControl.Detached | core/browser_controller.py:54 | with no driver, the calls that catch exceptions return their sentinel (False/None), and the wait that catches only timeouts raises |
| BrowserControl.PathJoin | core/browser_controller.py:208 | `os.path.join`: an absolute name replaces the directory; otherwise the result starts with the directory and ends with the name |
| BrowserControl.ShotAnswer | core/browser_controller.py:210-211 | `screenshot` returns the path whenever `save_screenshot` does not raise, and otherwise raises the driver's error |
| BrowserControl.EvidenceInDirectory | core/browser_controller.py:213-224 | evidence for a run id that is not an absolute path lies inside the screenshot directory and ends in ".png" |
| BrowserControl.DefaultDriverPath | core/browser_controller.py:60-70 | the default driver path lies under ./drivers/chromedriver_ |
| BrowserControl.DriverPathPerSystem | core/browser_controller.py:67-70 | the Windows path is the other systems' path plus ".exe", and only Windows differs; the version follows the fixed prefix |
| BrowserControl.BrowserController.constructor | core/browser_controller.py:37-58 | no driver yet and no calls; an empty or missing driver path means the default path for the platform |
| BrowserControl.BrowserController.Connect | core/browser_controller.py:72-94 | reports whether attaching worked; a failure keeps any earlier driver; one attach call is issued |
| BrowserControl.BrowserController.Disconnect | core/browser_controller.py:96-100 | quits only when a driver is set, then clears it; a failing quit raises and keeps the driver; with no driver nothing happens |
| BrowserControl.BrowserController.Navigate | core/browser_controller.py:102-110 | False instead of any exception; exactly one navigation call |
| BrowserControl.BrowserController.WaitForElement | core/browser_controller.py:112-133 | the element, None on a timeout only; any other exception escapes |
| BrowserControl.BrowserController.WaitAndClick | core/browser_controller.py:135-149 | False instead of any exception |
| BrowserControl.BrowserController.SafeSendKeys | core/browser_controller.py:151-169 | False instead of any exception |
| BrowserControl.BrowserController.GetText | core/browser_controller.py:171-179 | None instead of any exception |
| BrowserControl.BrowserController.GetAttribute | core/browser_controller.py:181-194 | None instead of any exception |
| BrowserControl.BrowserController.SendKeysToElement | actions/update_title.py:135 | keys sent to an element found earlier; exceptions escape |
| BrowserControl.BrowserController.Screenshot | core/browser_controller.py:196-211 | saves `<screenshot_dir>/<name>_<stamp>.png` and returns that path; a driver error escapes; the clock does not go back |
| BrowserControl.BrowserController.ScreenshotEvidence | core/browser_controller.py:213-224 | the screenshot is named `<run_id>_<stage>`, so its path is an evidence path for that run and stage |
| BrowserControl.BrowserController.ExecuteScript | core/browser_controller.py:226-228 | runs the script; exceptions escape |
| BrowserControl.BrowserController.CheckElementExists | core/browser_controller.py:234-240 | False only for a missing element; other exceptions escape |
| BrowserControl.BrowserController.ScrollToElement | core/browser_controller.py:242-253 | False instead of any exception |
| BrowserControl.BrowserController.FindElements | actions/fetch_product_snapshot.py:97 | the rows the page lists for the locator, or the exception raised |
| Ziniao.StartFailure | core/ziniao_client.py:211-221 | a failed start has no debugging port and carries the error given |
| Ziniao.Field | core/ziniao_client.py:203 | `.get` on a reply that is a dict never raises; on any other JSON value it raises AttributeError |
| Ziniao.Or | core/ziniao_client.py:207-208 | `a or b` is a when a is truthy and b otherwise |
| Ziniao.DecodeStart | core/ziniao_client.py:190-221 | success exactly when the reply is a dict with status code 0 (or False) and an int-convertible debuggingPort, and then the port is that int; a request that raises is a failure carrying the exception's text; a failure has no port and no core version |
| Ziniao.StartFailureMessage | core/ziniao_client.py:211-215 | a non-zero status fails with err when truthy, else LastError when truthy, else "状态码: <code>" |
| Ziniao.StartSuccessFields | core/ziniao_client.py:203-210 | a started browser's core_type/core_version come from the snake_case keys when truthy, else the camelCase ones; no error is set |
| Ziniao.DecodeBrowser | core/ziniao_client.py:158-165 | a browserList entry decodes exactly when it is a dict |
| Ziniao.DecodeEntries | core/ziniao_client.py:157-165 | the list decodes exactly when every entry is a dict, giving one BrowserInfo per entry, in order |
| Ziniao.DecodeBrowserList | core/ziniao_client.py:144-171 | an unreachable provider, a reply that is not a dict, or a non-zero status gives [] |
| Ziniao.BrowserIds | core/ziniao_client.py:156-167 | an accepted list gives one browser per entry, in order; each id is str(browserId), else str(browserOauth), else "" |
| Ziniao.WithCredentials | core/ziniao_client.py:112-116 | the credentials overwrite company/username/password; every other key of the request is kept and none is added |
| Ziniao.WithCredentialsIdempotent | core/ziniao_client.py:112-116 | merging the credentials twice is merging them once |
| Ziniao.StartCommand | core/ziniao_client.py:49-76 | there is a command line exactly for Windows, Darwin and Linux |
| Ziniao.StartCommandsAgree | core/ziniao_client.py:51-73 | Linux inserts --no-sandbox after the executable; macOS wraps the same arguments in `open -a <client> --args`; the port argument is the configured socket port |
| Ziniao.ZiniaoClient.constructor | core/ziniao_client.py:41-44 | no process launched and no request sent |
| Ziniao.ZiniaoClient.StartClient | core/ziniao_client.py:46-94 | an unsupported OS or a launch that raises gives False and no process; otherwise the process runs that OS's command, and the result is the health check |
| Ziniao.ZiniaoClient.CallApi | core/ziniao_client.py:109-124 | exactly one request is sent, with the credentials merged in, and its reply is returned |
| Ziniao.ZiniaoClient.GetBrowserList | core/ziniao_client.py:144-171 | a loop over browserList proved equal to DecodeBrowserList; exactly one getBrowserList request |
| Ziniao.ZiniaoClient.StartBrowser | core/ziniao_client.py:173-221 | the result is DecodeStart of the reply to exactly one startBrowser request for the browser and headless flag |
| Ziniao.ZiniaoClient.ExitClient | core/ziniao_client.py:249-258 | True exactly when the provider answers a dict with status code 0; one exit request |
| SupabaseStore.EnumValuesDistinct | core/supabase_store.py:17-28 | distinct statuses and distinct artifact types have distinct stored strings |
| SupabaseStore.DecodePayload | core/supabase_store.py:86 | a stored JSON payload reads back as itself; an absent or empty payload reads back as {} |
| SupabaseStore.Decode | core/supabase_store.py:84-87 | a task as handed out is its row, with its id and the payload decoded |
| SupabaseStore.NextIsUnique | core/supabase_store.py:76-82 | when queued tasks have distinct creation times, at most one task is next |
| SupabaseStore.NextExists | core/supabase_store.py:76-88 | there is a next task exactly when some task is queued |
| SupabaseStore.BestOf | core/supabase_store.py:79-80 | in any non-empty set of queued tasks, one comes no later than all the others by priority and then age |
| SupabaseStore.SelectionOrderExample | core/supabase_store.py:76-82 | example: queued tasks with priorities 5, 1, 5 created at t1 < t2 < t3 are taken in the order t1, t3, t2 |
| SupabaseStore.Basename | core/supabase_store.py:187 | `os.path.basename` holds no '/', ends the path, and follows a '/' when it is not the whole path |
| SupabaseStore.StoragePath | core/supabase_store.py:186-188 | the storage name is `evidence/<run_id>/<type>_` followed by the file's base name |
| SupabaseStore.StoragePathKeepsOnlyBasename | core/supabase_store.py:187-188 | files with the same base name in different directories land on the same storage object |
| SupabaseStore.TaskStore.constructor | core/supabase_store.py:34-39 | a store over existing tables, with no artifacts and no writes |
| SupabaseStore.TaskStore.UtcNow | core/supabase_store.py:99 | `utcnow()` never goes back, so the store's timestamps stay ordered |
| SupabaseStore.TaskStore.CreateTask | core/supabase_store.py:43-72 | inserts a queued row under the fresh id with the given shop, action, payload, priority (5 when not given) and dry_run flag (false when not given); created_at ≤ updated_at; no other row changes; returns the id |
| SupabaseStore.TaskStore.GetNextTask | core/supabase_store.py:74-88 | a loop proved to return None exactly when no task is queued, and otherwise a task that IsNext chooses (highest priority, then earliest created_at), decoded; nothing is written |
| SupabaseStore.TaskStore.UpdateTaskStatus | core/supabase_store.py:90-107 | always sets status and updated_at; sets error only when it is truthy, keeping the earlier one otherwise; no transition check; other rows unchanged |
| SupabaseStore.TaskStore.GetTask | core/supabase_store.py:109-121 | the decoded row exactly when the id is known |
| SupabaseStore.TaskStore.CreateRun | core/supabase_store.py:125-146 | inserts `{task_id, worker_id, start_at = now}` under the fresh id and returns it |
| SupabaseStore.TaskStore.CompleteRun | core/supabase_store.py:148-165 | sets end_at and result; sets error only when it is truthy; other runs unchanged |
| SupabaseStore.TaskStore.SaveArtifactRecord | core/supabase_store.py:215-228 | appends one row `{run_id, type, "local://" + path}` |
| SupabaseStore.TaskStore.UploadArtifact | core/supabase_store.py:169-213 | uploads under the storage path and records the URL; a failure returns None and records nothing |
| ActionBase.ValidatePayload | actions/base_action.py:136-141 | None exactly when every required field is a key of the payload, whatever its value; otherwise the message names the first missing field in list order |
| ActionBase.Walk | actions/base_action.py:54-56 | a missing key gives an empty section; meeting a string with keys left to walk raises |
| ActionBase.LocOf | actions/base_action.py:58-60 | a walk that ends at a string gives its parsed locator; a walk that ends at a section gives None; a walk that raised raises |
| ActionBase.Loc | actions/base_action.py:46-60 | the loop over the keys returns what LocOf says of the walk |
| ActionBase.IdTableFitsActions | actions/locators.py:19-110 | in the Indonesian table, every section an action reads is a section of strings |
| ActionBase.SiteTablesFitActions | actions/locators.py:112-153 | the same holds for every site's table |
| ActionBase.LocAt | actions/base_action.py:46-60 | `loc(section, key)` gives a locator exactly when the section is there and holds a string under the key |
| ActionBase.LocAtAgrees | actions/base_action.py:54-60 | on such a table, `loc(section, key)` never raises and agrees with LocAt |
| ActionBase.LocIn | actions/base_action.py:46-60 | the action-side lookup returns LocAt |
| ActionBase.EntryUrl | actions/update_title.py:57 | `locators.get(section, {}).get("entry_url")` is present exactly when `loc(section, "entry_url")` is, and parses to it |
| ActionBase.OtherSitesLackActionLocators | actions/locators.py:112-135 | sites other than Indonesia have no locator and no entry URL for any section |
| ActionBase.IdProductListUrl | actions/locators.py:50-51 | example: the Indonesian product list URL |
| ActionBase.IdAdsCenterUrl | actions/locators.py:31-32 | example: the Indonesian ads centre URL |
| ActionBase.IdEditLocators | actions/locators.py:71-89 | the Indonesian table has the title field, the save button and the success toast |
| ActionBase.IdListLocators | actions/locators.py:50-68 | the Indonesian table has the search box and the edit button |
| ActionTemplate.ExceptionResult | actions/base_action.py:113-120 | the synthesised result: not ok, code EXCEPTION, message str(e), timing set; error_png evidence exactly when a non-empty screenshot path exists |
| ActionTemplate.Caught | actions/base_action.py:102-120 | with a store, one error screenshot; its record exists exactly when it was saved, and its failure escapes; without a store, no call and no record |
| ActionTemplate.Inner | actions/base_action.py:83 | the reference definition of `self._do_action(context, payload)`: the `_do_action` of the action's class on the page, update_title with its title step corrected |
| ActionTemplate.Finish | actions/base_action.py:85-120 | the reference definition of everything after `_do_action`: after screenshot, record and evidence for a successful result with a store, the timing on every returned result, and the except block for a raise; its promises are FinishShape's |
| ActionTemplate.Executed | actions/base_action.py:62-120 | the reference definition of `execute`: before screenshot and record with a store, then `_do_action` and Finish; its promises are ExecutedShape's |
| ActionTemplate.FinishShape | actions/base_action.py:83-120 | every returned result has the timing; a failed result passes through as it was, evidence included; with a store, a successful one gets the after record and before/after evidence; an exception is caught; only an ok inner result yields an ok result |
| ActionTemplate.ExecutedShape | actions/base_action.py:68-120 | without a store, no record and only the action's calls; with one, the before screenshot comes first, and its failure escapes before the action runs; otherwise the before record is the first and the action's calls follow it; an ok result is the inner result with the evidence and timing set, error code untouched |
| ActionTemplate.AfterRecordedExactly | actions/base_action.py:86-97 | an after artifact is recorded exactly when there is a store, both screenshots were saved and the action returned ok |
| ActionTemplate.ExceptionOutcome | actions/base_action.py:102-120 | an action that raises gives the EXCEPTION result, unless the error screenshot fails; an error artifact is recorded exactly when that screenshot was saved; there is never an after artifact |
| ActionTemplate.AfterShotFailure | actions/base_action.py:81-120 | a failing after screenshot turns a successful action into an EXCEPTION result carrying the screenshot's error |
| ActionTemplate.Action.constructor | actions/base_action.py:32-40 | the browser and store given; no locators; start time 0 |
| ActionTemplate.Action.SetSite | actions/base_action.py:42-44 | the locators become the site's table |
| ActionTemplate.Action.DoAction | actions/base_action.py:83 | `_do_action` of the action's class on the current page: its outcome and its calls (update_title with its title step corrected) |
| ActionTemplate.Action.Execute | actions/base_action.py:62-120 | loads the site's locators first, then does what Executed says on the page; the store gains exactly the run's records; a returned result's timing is the clock's last reading minus the start time |
| ActionTemplate.Action.Run | actions/base_action.py:72-120 | the template after set_site, equal to Executed; a returned result's timing is the elapsed time since the start |
| ActionTemplate.Action.Open | actions/base_action.py:72-79 | with a store, one before screenshot and its record, which exists only if the screenshot was saved; without one, nothing |
| ActionTemplate.Action.Act | actions/base_action.py:81-120 | the try block: the action's calls, then Finish; a returned result's timing is the elapsed time since the start |
| ActionTemplate.Action.Conclude | actions/base_action.py:85-120 | what follows `_do_action`, equal to Finish; a returned result's timing is the last clock reading minus the start |
| ActionTemplate.Action.ConcludeStored | actions/base_action.py:86-100 | a successful result with a store: equal to Finish, with the after screenshot and its record; a returned result's timing is the last clock reading minus the start |
| ActionTemplate.Action.RecordAfter | actions/base_action.py:88-100 | the after record is the only store change; the result carries the before/after evidence pair and the clock's timing |
| ActionTemplate.Action.Recover | actions/base_action.py:102-120 | the except block, equal to Caught; a returned result's timing is the last clock reading minus the start |
| ActionTemplate.Action.RecoverStored | actions/base_action.py:104-120 | the except block with a store: error screenshot and record; a returned result's timing is the last clock reading minus the start |
| ActionTemplate.Action.RecordError | actions/base_action.py:107-120 | the error record is the only store change; the result is the EXCEPTION result with the error screenshot and the clock's timing |
| ActionTemplate.Action.TakeShot | actions/base_action.py:74 | one evidence screenshot, with its path in its stage's place |
| Registry.Lookup | actions/__init__.py:23-25 | a class exactly for a registered name, and then the class registered under it |
| Registry.ListAvailableActions | actions/__init__.py:28-30 | exactly the registry keys, in registration order, without repeats |
| Registry.GetActionClass | actions/__init__.py:21-25 | a class exactly for the three registered names, and then the class's own action_name is that name; any other name raises with the message listing the available names |
| Registry.RegistryOneToOne | actions/__init__.py:14-18 | no two names dispatch to the same class |
| UpdateTitle.SearchOutcome | actions/update_title.py:114-139 | False exactly when the search box is missing or cannot be typed into (with no call when it is missing); success only after typing the keyword; with a search button the click's answer is ignored and nothing raises |
| UpdateTitle.SearchProduct | actions/update_title.py:114-139 | the steps through the controller equal SearchOutcome |
| UpdateTitle.EditOutcome | actions/update_title.py:141-165 | a title exactly when the edit button exists and was clicked, the click being the last call; the title read when non-empty, otherwise the placeholder; never empty |
| UpdateTitle.ClickEditButton | actions/update_title.py:141-165 | the steps through the controller equal EditOutcome |
| UpdateTitle.FieldReached | actions/update_title.py:167-180 | the title field is reached exactly when its locator exists and the element appears |
| UpdateTitle.FieldOutcomeAsWritten | actions/update_title.py:167-187 | as written, the step never reports True; once the field is reached it raises the script call's TypeError, and the title is never typed |
| UpdateTitle.FieldOutcome | actions/update_title.py:167-200 | with the script calls the controller accepts: True exactly when the field is reached and clearing, typing and the input event all succeed; the title is then typed into the field |
| UpdateTitle.UpdateTitleField | actions/update_title.py:167-200 | the steps through the controller equal FieldOutcomeAsWritten for the code as written and FieldOutcome for the corrected script calls |
| UpdateTitle.ReachField | actions/update_title.py:167-180 | the steps up to the first script call equal FieldReached: no locator or no element gives false, a raising wait escapes |
| UpdateTitle.ToastOutcome | actions/update_title.py:219-231 | "保存成功" exactly when the success toast is found, which is checked first; otherwise a found error toast gives failure with "保存失败: " and its text; with neither toast found, success unconfirmed; an exception escapes exactly when a toast check raises |
| UpdateTitle.SaveOutcome | actions/update_title.py:202-231 | a missing save button gives "保存按钮定位器未配置" with no call; a failing scroll script raises; an unclickable button gives "无法点击保存按钮"; after a click the toasts decide; success only after the click |
| UpdateTitle.ClickSave | actions/update_title.py:202-231 | the steps through the controller equal SaveOutcome |
| UpdateTitle.CheckToasts | actions/update_title.py:219-231 | the toast checks through the controller equal ToastOutcome |
| UpdateTitle.RequiredPresent | actions/update_title.py:30 | the payload check passes exactly when product_id and new_title are keys |
| UpdateTitle.SaveStage | actions/update_title.py:94-112 | ok exactly when saving succeeded, with data {product_id, before_title, after_title}; otherwise SAVE_ERROR |
| UpdateTitle.FieldStage | actions/update_title.py:85-112 | ok only if the field was updated and then saved; failures are UPDATE_ERROR or SAVE_ERROR |
| UpdateTitle.EditStage | actions/update_title.py:75-112 | ok only once the edit page opened; failures are PRODUCT_NOT_FOUND or later codes |
| UpdateTitle.LiveStage | actions/update_title.py:56-112 | navigation is the first call; ok only after loading and searching, then the later stages in order; each failure carries its step's code |
| UpdateTitle.LiveStageCases | actions/update_title.py:56-73 | a failed load gives NAVIGATION_ERROR after the navigation alone; a search that raises escapes; a failed search gives SEARCH_ERROR naming the product; a successful one goes on to edit |
| UpdateTitle.TitleOutcome | actions/update_title.py:20-112 | every result the action returns carries its own name |
| UpdateTitle.LiveOutcome | actions/update_title.py:56-112 | the reference definition of the live part of `_do_action`: navigate, search, edit, title field and save, as written or corrected; its promises are LiveStage's and LiveStageCases' |
| UpdateTitle.DoAction | actions/update_title.py:20-112 | `_do_action` through the controller equals TitleOutcome, for the code as written and for the corrected title step alike |
| UpdateTitle.RunLive | actions/update_title.py:56-112 | the live part through the controller equals LiveOutcome, as written or corrected |
| UpdateTitle.RunEdit | actions/update_title.py:75-112 | from the edit button on, equal to EditStage, as written or corrected |
| UpdateTitle.RunField | actions/update_title.py:85-112 | from the title field on, equal to FieldStage, as written or corrected |
| UpdateTitle.RunSave | actions/update_title.py:94-112 | from the click on save on, equal to SaveStage: SAVE_ERROR with the save message, or success with the id and both titles |
| UpdateTitle.FailuresCarryCode | actions/update_title.py:30-102 | every failure carries a message and one of VALIDATION_ERROR, NAVIGATION_ERROR, SEARCH_ERROR, PRODUCT_NOT_FOUND, UPDATE_ERROR, SAVE_ERROR |
| UpdateTitle.BrowserUntouchedUnlessLive | actions/update_title.py:30-54 | no browser call exactly when validation fails or the run is dry (validation comes first); a complete dry run is ok and echoes product_id and new_title |
| UpdateTitle.SuccessTypedAndSaved | actions/update_title.py:39-112 | a successful live update navigated to the product list first, typed the new title into the title field and clicked save; it reports the title read before editing |
| UpdateTitle.LiveStageSucceeded | actions/update_title.py:56-112 | a successful live run passed every stage in order; its calls are those stages' calls in order |
| UpdateTitle.AsWrittenNeverSucceeds | actions/update_title.py:184-198 | as written, a live update never succeeds, and once the title field is reached it ends in the TypeError |
| UpdateTitle.CorrectedCanSucceed | actions/update_title.py:167-200 | with the accepted script calls, a table having the five locators and a cooperating page yields success, reporting the title read |
| UpdateTitle.IdTableSupportsTitleUpdate | actions/locators.py:50-89 | the Indonesian table has every locator the corrected update needs |
| ProductSnapshot.SearchProduct | actions/fetch_product_snapshot.py:68-84 | the same steps as the title search with Enter and no button, equal to SearchOutcome |
| ProductSnapshot.StripCell | actions/fetch_product_snapshot.py:129-147 | a cell read is stripped; a cell not found stays None |
| ProductSnapshot.ProductFromRow | actions/fetch_product_snapshot.py:109-162 | a product exactly when the stripped name is non-empty, carrying the row's index and stripped cells; the id is absent exactly when reading it raised |
| ProductSnapshot.SliceStop | actions/fetch_product_snapshot.py:99 | `rows[:limit]` keeps min(limit, n) rows for a non-negative limit, and counts a negative limit from the end |
| ProductSnapshot.HeadLength | actions/fetch_product_snapshot.py:99 | slicing fails exactly for a limit that is not None, a bool or an int; None keeps every row; a non-negative int keeps at most that many |
| ProductSnapshot.Kept | actions/fetch_product_snapshot.py:99-102 | at most n products, each from one of the first n rows |
| ProductSnapshot.KeptSound | actions/fetch_product_snapshot.py:99-102 | each product kept is the one its row makes |
| ProductSnapshot.KeptComplete | actions/fetch_product_snapshot.py:99-102 | each examined row that makes a product has it kept |
| ProductSnapshot.KeptOrdered | actions/fetch_product_snapshot.py:99-102 | the products are in increasing row order (indices may skip), and every name is non-empty |
| ProductSnapshot.Extracted | actions/fetch_product_snapshot.py:86-107 | the row locator, or the fallback when the table has none, is listed once; a non-negative limit bounds the count |
| ProductSnapshot.ExtractProducts | actions/fetch_product_snapshot.py:86-107 | the loop over `rows[:limit]` equals Extracted |
| ProductSnapshot.SnapshotStage | actions/fetch_product_snapshot.py:33-66 | ok exactly when the list loaded, a search for a truthy keyword did not raise, and some product was kept; the data then holds the keyword, the count and the products; otherwise NAVIGATION_ERROR or NO_PRODUCTS, the latter only with no products |
| ProductSnapshot.SnapshotOutcome | actions/fetch_product_snapshot.py:20-66 | the reference definition of `_do_action`: `keyword` and `limit` read with their defaults, `product_ids` never read; its promises are SnapshotStage's, SnapshotWellFormed's and SnapshotIsReadableRows' |
| ProductSnapshot.SnapshotStageCases | actions/fetch_product_snapshot.py:33-48 | the search runs only for a truthy keyword, and only its exception matters |
| ProductSnapshot.DoAction | actions/fetch_product_snapshot.py:20-66 | `_do_action` through the controller equals SnapshotOutcome; dry_run and product_ids are never read |
| ProductSnapshot.SnapshotWellFormed | actions/fetch_product_snapshot.py:29-66 | a success has count = number of products > 0 and echoes the keyword; at most limit products, 10 when no limit is given; names are non-empty and stripped; indices increase |
| ProductSnapshot.StripIdempotent | actions/fetch_product_snapshot.py:124 | stripping twice is stripping once |
| ProductSnapshot.SnapshotIsReadableRows | actions/fetch_product_snapshot.py:96-107 | the snapshot holds exactly the readable rows among the first limit |
| AdsCenter.DropToken | actions/fetch_ads_summary.py:160-161 | removing a currency mark with the whitespace after it never lengthens the text |
| AdsCenter.DropTokenAbsent | actions/fetch_ads_summary.py:160-161 | a text without the mark's first letter is unchanged |
| AdsCenter.DropTokenCutsFirst | actions/fetch_ads_summary.py:160-161 | a mark met after text free of its first letter is cut together with all the whitespace after it (the characters `str.isspace()` holds for, as `\s` matches them); the text before it is kept, and the rest is cleaned the same way |
| AdsCenter.DropTokenAtStart | actions/fetch_ads_summary.py:160-161 | a mark at the very start is cut with the whole whitespace run after it, and cleaning goes on from the first non-space character |
| AdsCenter.SkipsSpaceRun | actions/fetch_ads_summary.py:160-161 | `\s*` after a mark takes the whole whitespace run and stops at the first non-space character |
| AdsCenter.Lower | actions/fetch_ads_summary.py:186-198 | the case-blind match `float()` makes on inf, infinity and nan: no capital is left, and each character is kept or is a capital moved to its small letter |
| AdsCenter.ReplaceChar | actions/fetch_ads_summary.py:167 | `replace(a, b)` for one character changes exactly the a's |
| AdsCenter.ParsePlain | actions/fetch_ads_summary.py:186-198 | after the suffix checks: a float result is a float literal at scale 1, and something is always returned |
| AdsCenter.Plain | actions/fetch_ads_summary.py:186-191 | the text left for int()/float() holds no comma |
| AdsCenter.Cleaned | actions/fetch_ads_summary.py:157-161 | the reference definition of the text after `strip()` and the two `re.sub` calls cutting `Rp` and `$` with their trailing whitespace, whitespace being Python's (ASCII and the Unicode spaces, so "Rp\u00a012" cleans to "12"); CleanedRupiah states what it keeps |
| AdsCenter.FloatLiteral | actions/fetch_ads_summary.py:165-198 | the reference definition of what `float()` accepts of text whose digits are ASCII: optional sign, digit runs with single underscores around at most one dot, an optional exponent, or inf, infinity and nan in any case; ParsesDecimal shows underscore-grouped decimals accepted |
| AdsCenter.ReachesParsePlain | actions/fetch_ads_summary.py:163-198 | cleaned text with no K, M or % suffix goes straight to the grouping and int/float steps |
| AdsCenter.CleanedRupiah | actions/fetch_ads_summary.py:157-161 | text with no whitespace at its ends and no R or $ survives trimming and currency removal unchanged, with or without "Rp " in front |
| AdsCenter.DigitsParse | actions/fetch_ads_summary.py:193-198 | a digit string is read by int() as the number it writes |
| AdsCenter.ParsesDotGrouped | actions/fetch_ads_summary.py:144-198 | digits with two or more dots among them, with or without "Rp " in front, parse as the int the digits write ("Rp 1.234.567" is 1234567) |
| AdsCenter.ParsesCommaGrouped | actions/fetch_ads_summary.py:144-198 | digits with commas among them, with or without "Rp " in front, parse as the int the digits write ("1,234" is 1234) |
| AdsCenter.DecimalLiteralOf | actions/fetch_ads_summary.py:194-195 | two digit runs, underscores allowed, around one dot form a decimal literal with no exponent |
| AdsCenter.FloatLiteralOf | actions/fetch_ads_summary.py:194-195 | such a decimal is accepted by float() |
| AdsCenter.DecimalPlain | actions/fetch_ads_summary.py:186-198 | the last steps read such a decimal as a float at scale 1 |
| AdsCenter.ParsesDecimal | actions/fetch_ads_summary.py:144-198 | a decimal like "12.5" or "1_0.5", with or without "Rp ", reads as that float |
| AdsCenter.UnreadableKeptAsText | actions/fetch_ads_summary.py:186-198 | for unsuffixed text, the result is text exactly when int() rejects the cleaned text and, when it has a dot, float() does too (FloatLiteral: ASCII digits, underscores allowed between them); that text is the cleaned one, trimmed, without currency marks, grouping dots or commas |
| AdsCenter.ParseNumber | actions/fetch_ads_summary.py:144-198 | None exactly for empty text; a float result is a literal that float() accepts, scaled by 1, 1000 or 1000000 |
| AdsCenter.DigitsPassThrough | actions/fetch_ads_summary.py:157-185 | a string of digits passes the strip, the currency and the suffix steps unchanged |
| AdsCenter.ParsesNaturals | actions/fetch_ads_summary.py:186-198 | the decimal text of n parses as the int n |
| AdsCenter.ParsesRupiah | actions/fetch_ads_summary.py:154-198 | "Rp " followed by the decimal text of n parses as the int n |
| AdsCenter.RangeKey | actions/fetch_ads_summary.py:84-90 | 7days and 30days map to their keys; any other hashable value maps to date_today; a list or dict raises |
| AdsCenter.RangeLoc | actions/fetch_ads_summary.py:90 | the range button's locator in the table; it raises exactly when the key lookup does |
| AdsCenter.SelectOutcome | actions/fetch_ads_summary.py:73-93 | no call without a picker locator; otherwise the picker is clicked first; the range is clicked only after the picker click worked and when it has a locator; only the key lookup's exception escapes |
| AdsCenter.SelectDateRange | actions/fetch_ads_summary.py:73-93 | the steps through the controller equal SelectOutcome |
| AdsCenter.Metric | actions/fetch_ads_summary.py:109-113 | a metric's text is read only when its locator exists, and kept only when non-empty |
| AdsCenter.Texts | actions/fetch_ads_summary.py:108-113 | no more texts than fields read |
| AdsCenter.Parsed | actions/fetch_ads_summary.py:113 | one parsed metric per text, under the same name |
| AdsCenter.ParsedAt | actions/fetch_ads_summary.py:113 | the k-th metric is the k-th text parsed |
| AdsCenter.ParsedAppend | actions/fetch_ads_summary.py:113 | reading one more text adds its parse at the end |
| AdsCenter.TextSource | actions/fetch_ads_summary.py:108-113 | each text comes from a field that was read, under that field's name |
| AdsCenter.TextPresent | actions/fetch_ads_summary.py:108-113 | each field read has its text |
| AdsCenter.FieldNamesDistinct | actions/fetch_ads_summary.py:100-106 | the five metric names are distinct |
| AdsCenter.TextNamesDistinct | actions/fetch_ads_summary.py:108-113 | no name is read twice |
| AdsCenter.ReadField | actions/fetch_ads_summary.py:109-111 | reading one field through the controller equals Reading |
| AdsCenter.ExtractSummary | actions/fetch_ads_summary.py:95-120 | the loop over the five fields equals Metrics |
| AdsCenter.AdsStage | actions/fetch_ads_summary.py:29-71 | no call without a non-empty entry URL; otherwise navigation comes first; ok exactly when the page loaded, range selection raised nothing and some metric was read, with data {date_range, metrics}; failures are CONFIG_ERROR, NAVIGATION_ERROR or DATA_EXTRACTION_ERROR |
| AdsCenter.AdsOutcome | actions/fetch_ads_summary.py:20-71 | the reference definition of `_do_action`: `date_range` defaults to "today", the context is not read; its promises are AdsStage's, AdsStageCases' and SummaryFaithful's |
| AdsCenter.AdsStageCases | actions/fetch_ads_summary.py:47-71 | once the page is open, an exception from range selection escapes; otherwise the metrics are read after the selection's calls |
| AdsCenter.DoAction | actions/fetch_ads_summary.py:20-71 | `_do_action` through the controller equals AdsOutcome; dry_run is never read |
| AdsCenter.MetricsComplete | actions/fetch_ads_summary.py:108-113 | every field whose text was read has its metric |
| AdsCenter.MetricsSound | actions/fetch_ads_summary.py:108-113 | every metric is a read field's text, parsed, under its name |
| AdsCenter.MetricNamesDistinct | actions/fetch_ads_summary.py:100-113 | no metric name appears twice |
| AdsCenter.SummaryFaithful | actions/fetch_ads_summary.py:27-64 | a success carries the date range asked for (default "today") and the non-empty metrics read |
| AdsCenter.OtherSitesNeedConfig | actions/fetch_ads_summary.py:30-37 | on my/th/vn/ph/sg the action fails with CONFIG_ERROR before any browser call |
| TaskWorker.HashablePrefix | worker.py:64-66 | filling the map stops at the first browser whose name cannot be a dict key |
| TaskWorker.Filled | worker.py:62-67 | the reference definition of the map after `shop_browser_map[b.browser_name] = b.browser_id` for each browser in order; FilledLookup and HashablePrefix state its lookups |
| TaskWorker.FilledLookup | worker.py:62-67 | after filling, the keys are the old keys plus the listed names (True/False being 1/0); a name listed twice maps to the last browser's id; unlisted keys keep their entry |
| TaskWorker.MajorVersion | worker.py:108 | "131" when no core version is reported; otherwise the text before the first '.'; a version that is not a string raises |
| TaskWorker.MajorVersionIdempotent | worker.py:108 | a non-empty major version is its own major version |
| TaskWorker.SiteOf | worker.py:157 | "id" without a locale; otherwise the text before the first '-'; a locale that is not a string raises |
| TaskWorker.SiteOfLocale | worker.py:157 | a locale "xx-YY" names the site "xx" |
| TaskWorker.OutcomeAgrees | worker.py:165-190 | SUCCESS exactly when no error goes with the status, and then the run has no error either; otherwise FAILED, with a message unless the exception's text was empty; after an exception the run's result is {} and its error is the exception's text |
| TaskWorker.TaskOk | worker.py:172-183 | the reference definition of `execute_task`'s answer: an action result that is ok; a raise is never ok |
| TaskWorker.FinalStatus | worker.py:172-190 | the reference definition of the final task status: SUCCESS exactly for an ok result, FAILED for a failed result or a raise |
| TaskWorker.RunRecord | worker.py:165-189 | the `result` given to `complete_run` is empty exactly after an exception, and the action result otherwise |
| TaskWorker.RunError | worker.py:165-189 | the reference definition of the `error` given to `complete_run`: the exception text, none for an ok result, the result's error message otherwise |
| TaskWorker.StatusError | worker.py:172-190 | the error stored with the final status is absent exactly when the task succeeded: "code: message" for a failed result, the exception text for a raise |
| TaskWorker.Worker.constructor | worker.py:21-41 | no client, no store, no controllers, not running; the map given |
| TaskWorker.Worker.Setup | worker.py:43-70 | a client that does not launch, or a store that cannot connect, gives False with no map change and no request; a given map is kept; otherwise one list request, and the map is filled from the listed browsers in order (raising at an unhashable name) |
| TaskWorker.Worker.MapBrowsers | worker.py:62-67 | the loop leaves the map Filled with the browsers before the first unhashable name, where it raises |
| TaskWorker.Worker.GetBrowserForShop | worker.py:72-116 | an active controller is returned as it is, with no request; an unmapped or empty browser id gives None and no request; with no client it raises; otherwise the shop is Provisioned with exactly one start request; a controller returned is kept for the shop, old or fresh, and no two shops share one |
| TaskWorker.Worker.StartForShop | worker.py:88-116 | after the mapping is found: one start request; a failed start gives None and keeps nothing |
| TaskWorker.Worker.Adopt | worker.py:103-116 | a version without split raises and a failed connection gives None, both keeping nothing; a connected fresh controller for the port and major version is kept under the shop |
| TaskWorker.Worker.Attach | worker.py:106-111 | a fresh controller for the port and major version, with the default driver path; connected exactly when the session attaches |
| TaskWorker.Worker.TryRun | worker.py:142-162 | the try block: a shop with no controller fails before any action; with one, the outcome is Dispatch's on that controller's page (LookedUp: the class's `execute` with the task's payload and context); the store gains exactly the action's artifact rows and nothing else |
| TaskWorker.Worker.Dispatch | worker.py:148-162 | an unknown action or a bad locale raises before the action runs, with no record; otherwise the result and the records are those of `execute` of the named class on the controller's page, with the task's payload and the context of task id, run id, shop id, site and dry_run (ActedOn); a returned result carries its timing and follows the before record |
| TaskWorker.Worker.Perform | worker.py:148-162 | the action is built with the worker's store and executed: the table it loads is `get_locators(site)`, and the result and the records are the template's run around `_do_action` of the class with that table, on the controller's page, the task's payload and the context the worker builds (ActedOn); the store gains exactly those records |
| TaskWorker.Worker.Conclude | worker.py:164-192 | complete_run with asdict(result) or {}, then the final status with its error; returns result.ok, False after an exception |
| TaskWorker.Worker.ExecuteTask | worker.py:118-192 | without a store, the first write raises; otherwise writes RUNNING, then one run, then the action's evidence, then the run's completion and exactly one final status, in that order; returns whether the result was ok, for the outcome LookedUp describes |
| TaskWorker.Worker.RunTask | worker.py:136-192 | execute_task with a store: the writes TaskRecorded describes, with the outcome LookedUp describes (the shop's controller, then the class's `execute` on its page with the task's payload and context) |
| TaskWorker.Worker.Begin | worker.py:136-140 | the status RUNNING, then the run row, started now, before any other work |
| TaskWorker.Worker.RunOnce | worker.py:194-206 | without a store it raises; True exactly when a task is queued; with none nothing is touched; otherwise the next task by priority and age is executed, with the outcome LookedUp describes |
| TaskWorker.Worker.Stop | worker.py:238-240 | the running flag is cleared |
| TaskWorker.Worker.Cleanup | worker.py:242-260 | every active controller is disconnected, its failures swallowed, then one exit request is sent when there is a client |

## Left out

- worker.py:208-236 (`run_loop`) and worker.py:263-286 (`main`): the endless polling loop, its sleeps and KeyboardInterrupt. `RunOnce` is one cycle of it, and `Stop` clears its flag.
- `time.sleep`, `print`, `traceback.format_exc` and the truncated `json.dumps` of the payload only wait or log.
- Fresh uuid4 values are parameters instead: the task, run and worker-side run ids, each required to be unused. The artifact id is not kept.
- The worker's run id is chosen by the caller, not returned by `create_run`.
- Timestamps are integers from a clock that never goes back. `isoformat()` and `strftime` formatting are not modelled, and the screenshot stamp is an arbitrary string.
- `get_ziniao_client()` and `get_store()` are parameters of `Setup`: the client itself, and the store or the exception raised while connecting.
- The store's own network calls never raise in the model. A Supabase error inside `execute_task`'s try block would be caught by the worker, and that path is not modelled.
- `SupabaseStore.TaskStore.GetTask`: an unknown id gives None, as the code's `if result.data` intends. The client library's `.single()` error on zero rows is not modelled.
- `asdict(result)` and `json.dumps` of the run result: the run row holds the ActionResult itself.
- ZiNiaoClient `apply_auth`, `stop_browser`, `get_running_info` and the HTTP health check: the worker never calls the first three. The health check is `Service.healthy`.
- SupabaseStore `get_pending_tasks_count` and `get_recent_runs`: the core never calls them.
- BrowserController `get_current_url`: no action calls it.
- `os.makedirs` of the screenshot directory.
- `connect`'s choice between the given driver path and the one on PATH: both attach the same way, so only whether attaching succeeds is kept.
- `get_browser_for_shop`'s `site` parameter is never read, and `start_browser`'s `download_path` is never passed by the worker.
- `_extract_by_fallback` reads `page_source` and returns `{}` regardless. The model keeps only the empty result.
- `AdsCenter.ParseNumber`: a float result is kept as its literal and scale, not as a floating-point value. The K/M/% branches follow the code's tests but compute no float.
- AdsCenter.ParsePlain: digits are ASCII only. int(), float() and the `\d` of the grouping test also accept other Unicode decimal digits ("١٢" reads as 12); the model returns such text as text.
- AdsCenter.UnreadableKeptAsText: its "float() rejects" is FloatLiteral, which knows ASCII digits only, so text made of other Unicode decimal digits counts as unreadable here although Python reads it.
- AdsCenter.ParseNumber, AdsCenter.FloatLiteral, Python.IsDigit and Python.ParseInt: a digit is '0' to '9'; Python's other Unicode decimal digits are not modelled.
- `Python.Repr`: quotes and control characters inside strings are not escaped.
- JavaScript passed to `execute_script` is an opaque string. Typing is one `send_keys` call, not keystrokes.
- `TaskWorker.Worker.Cleanup` does not fix the order in which controllers are disconnected. Python iterates the dict in insertion order; the model iterates its map in any order.
- Two workers could claim the same task, because `get_next_task` is a read and `update_task_status` a separate write. The model is single-threaded and does not model this.
- ActionTemplate.Action.DoAction: update_title is dispatched with its title step corrected, not as written. As written, every live update that reaches the title field raises TypeError (see Findings).
- ActionTemplate.Action.Execute, ActionTemplate.Action.Run and ActionTemplate.Action.Act: the template runs the corrected update_title, so they do not show the EXCEPTION result the code as written produces once the title field is reached.
- TaskWorker.Worker.Dispatch: the locator table the action ran with is the one in its trace; that this table is `get_locators(site)` is stated by TaskWorker.Worker.Perform only, because naming the site tables in a contract brings all their literals into every caller's proof.
- TaskWorker.Worker.TryRun: as TaskWorker.Worker.Dispatch, the table in the trace is not restated as the site's table.
- TaskWorker.Worker.RunTask: as TaskWorker.Worker.Dispatch, the table in the trace is not restated as the site's table.
- TaskWorker.Worker.ExecuteTask: as TaskWorker.Worker.Dispatch, the table in the trace is not restated as the site's table.
- TaskWorker.Worker.RunOnce: as TaskWorker.Worker.Dispatch, the table in the trace is not restated as the site's table.
- TaskWorker.Worker.Perform, TaskWorker.Worker.ExecuteTask and TaskWorker.Worker.RunOnce: they run the corrected update_title. As written, such a task would end FAILED with the TypeError's text.
- `BrowserControl.Page`: the browser's answers never depend on earlier calls. Typing, clicking, navigating and running scripts do not change what a later lookup, text read or toast check sees; only the order and content of the calls are kept.
- `requestId` of the ziniao request bodies (built from `time.time()`, e.g. `list_<seconds>`) is left out of every request the model sends.
- `Python.Value` has no float: a float payload value, such as a `limit` of 10.0, cannot be represented, and the model's `_parse_number` keeps float results symbolically.
- `SupabaseStore.DecodePayload`: a stored payload is absent, empty text or a JSON object; a JSON payload that is not an object (a list, a number, a string) cannot be stored in the model.
- config/settings.py values are parameters: `headless`, `screenshot_dir` and the provider configuration. `action_delay` and `max_retries` only pace or are unused.

## Findings

| source | as written | input that shows it | evidently intended | confidence | as-written member | corrected member |
|---|---|---|---|---|---|---|
| actions/update_title.py:184-198 | `_update_title_field` calls `self.browser.execute_script(script, element)`, but `BrowserController.execute_script` (core/browser_controller.py:226) takes only the script, so the call raises TypeError | any live task (not dry run) whose product list, search and edit button work and whose title field appears: the action ends in an EXCEPTION result and the title is never typed | `execute_script(self, script, *args)` passing `element` on to the driver, so that `arguments[0]` is the title field: clear it by script, type the title, fire the input event, and go on to save (the corrected step records the script text only, not the element) | high, not executed | UpdateTitle.AsWrittenNeverSucceeds | UpdateTitle.CorrectedCanSucceed |
