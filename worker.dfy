/**
 * The worker: it starts the ziniao client, connects to the task store,
 * maps shops to ziniao browsers, keeps one connected controller per shop,
 * and executes tasks: the status RUNNING, one run row, the action, the
 * run's completion and the final status, in that order.
 */
module TaskWorker {
  import opened Python
  import opened PyTime
  import opened Locators
  import opened BrowserControl
  import opened SupabaseStore
  import opened Ziniao
  import opened ActionBase
  import opened Registry
  import opened ActionTemplate

  // ------------------------------------------------------------ browser map

  /** The key a value is stored under in a Python dict: True and False are
      the same keys as 1 and 0. */
  function Key(v: Value): Value
  {
    if v.VBool? then VInt(if v.b then 1 else 0) else v
  }

  /** Lists and dicts cannot be dict keys. */
  predicate Hashable(v: Value)
  {
    !v.VList? && !v.VDict?
  }

  /** The TypeError raised by using an unhashable value as a key. */
  function Unhashable(v: Value): string
  {
    "unhashable type: '" + TypeName(v) + "'"
  }

  /** The AttributeError raised by looking an attribute up on a value whose
      type does not have it. */
  function NoAttribute(v: Value, attr: string): string
  {
    "'" + TypeName(v) + "' object has no attribute '" + attr + "'"
  }

  /** How many browsers, from the front of the list, have names that can be
      keys: filling the map stops at the first that cannot. */
  function HashablePrefix(bs: seq<BrowserInfo>): (n: nat)
    ensures n <= |bs|
    ensures forall i :: 0 <= i < n ==> Hashable(bs[i].browserName)
    ensures n < |bs| ==> !Hashable(bs[n].browserName)
  {
    if bs == [] || !Hashable(bs[0].browserName) then 0 else 1 + HashablePrefix(bs[1..])
  }

  /** The map after `m[b.browser_name] = b.browser_id` for each browser in
      turn. */
  function Filled(m: map<Value, string>, bs: seq<BrowserInfo>): map<Value, string>
  {
    if bs == [] then m
    else
      var b := bs[|bs| - 1];
      Filled(m, bs[..|bs| - 1])[Key(b.browserName) := b.browserId]
  }

  /** A name listed for several browsers maps to the id of the last of
      them; a key no browser is listed under keeps its entry; and the keys
      are the old ones and the listed names. */
  lemma {:induction false} FilledLookup(m: map<Value, string>, bs: seq<BrowserInfo>, k: Value)
    ensures k in Filled(m, bs) <==> k in m || exists i :: 0 <= i < |bs| && Key(bs[i].browserName) == k
    ensures forall i :: 0 <= i < |bs| && Key(bs[i].browserName) == k
                        && (forall j :: i < j < |bs| ==> Key(bs[j].browserName) != k)
                        ==> Filled(m, bs)[k] == bs[i].browserId
    ensures (forall i :: 0 <= i < |bs| ==> Key(bs[i].browserName) != k) && k in m
            ==> Filled(m, bs)[k] == m[k]
  {
    if bs != [] {
      var n := |bs| - 1;
      var front := bs[..n];
      FilledLookup(m, front, k);
      assert forall i :: 0 <= i < n ==> front[i] == bs[i];
      if Key(bs[n].browserName) != k {
        forall i | 0 <= i < |bs| && Key(bs[i].browserName) == k
          ensures i < n
        {
        }
      }
    }
  }

  /** A shop id with a non-empty browser id in the map (`if not browser_id`
      rejects the rest). */
  predicate Mapped(m: map<Value, string>, shopId: string)
  {
    VStr(shopId) in m && m[VStr(shopId)] != ""
  }

  // --------------------------------------------------------- small parsers

  lemma {:induction false} BeforeFirstAbsent(s: string, c: char)
    requires forall i :: 0 <= i < |s| ==> s[i] != c
    ensures BeforeFirst(s, c) == s
  {
    if s != [] {
      BeforeFirstAbsent(s[1..], c);
    }
  }

  lemma {:induction false} BeforeFirstConcat(s: string, c: char, rest: string)
    requires forall i :: 0 <= i < |s| ==> s[i] != c
    ensures BeforeFirst(s + [c] + rest, c) == s
  {
    if s != [] {
      assert (s + [c] + rest)[1..] == s[1..] + [c] + rest;
      BeforeFirstConcat(s[1..], c, rest);
    }
  }

  /** `core_version.split('.')[0] if core_version else "131"`: the text
      before the first dot of the reported version, "131" when none was
      reported; a reported version that is not a string has no `split`. */
  function MajorVersion(v: Value): (r: Except<string>)
    ensures !Truthy(v) ==> r == Normal("131")
    ensures Truthy(v) && v.VStr? ==>
              && r.Normal? && StartsWith(v.s, r.value)
              && (forall i :: 0 <= i < |r.value| ==> r.value[i] != '.')
              && (|r.value| < |v.s| ==> v.s[|r.value|] == '.')
    ensures Truthy(v) && !v.VStr? ==> r == Thrown(NoAttribute(v, "split"))
  {
    if !Truthy(v) then Normal("131")
    else if v.VStr? then Normal(BeforeFirst(v.s, '.'))
    else Thrown(NoAttribute(v, "split"))
  }

  /** A non-empty major version is its own major version. */
  lemma MajorVersionIdempotent(v: Value)
    requires MajorVersion(v).Normal? && MajorVersion(v).value != ""
    ensures MajorVersion(VStr(MajorVersion(v).value)) == MajorVersion(v)
  {
    var m := MajorVersion(v).value;
    BeforeFirstAbsent(m, '.');
  }

  /** `payload.get("locale", "id").split("-")[0]`: the site code, the text
      before the first dash of the locale, "id" when the payload has no
      locale; a locale that is not a string has no `split`. */
  function SiteOf(payload: Payload): (r: Except<string>)
    ensures "locale" !in payload ==> r == Normal("id")
    ensures "locale" in payload && payload["locale"].VStr? ==>
              && r.Normal? && StartsWith(payload["locale"].s, r.value)
              && (forall i :: 0 <= i < |r.value| ==> r.value[i] != '-')
              && (|r.value| < |payload["locale"].s| ==> payload["locale"].s[|r.value|] == '-')
    ensures "locale" in payload && !payload["locale"].VStr? ==> r == Thrown(NoAttribute(payload["locale"], "split"))
  {
    var locale := Get(payload, "locale", VStr("id"));
    if locale.VStr? then
      var site := BeforeFirst(locale.s, '-');
      assert locale.s == "id" ==> site == "id" by {
        if locale.s == "id" { BeforeFirstAbsent("id", '-'); }
      }
      Normal(site)
    else Thrown(NoAttribute(locale, "split"))
  }

  /** A locale "xx-YY" names the site "xx" ("id-ID" is the site "id"). */
  lemma SiteOfLocale(payload: Payload, language: string, region: string)
    requires forall i :: 0 <= i < |language| ==> language[i] != '-'
    requires "locale" in payload && payload["locale"] == VStr(language + "-" + region)
    ensures SiteOf(payload) == Normal(language)
  {
    BeforeFirstConcat(language, '-', region);
  }

  // --------------------------------------------------- execute_task outcome

  /** The exception raised when the shop gets no controller. */
  function NoBrowser(shopId: string): string
  {
    "无法获取店铺 " + shopId + " 的浏览器"
  }

  /** What `execute_task` returns for what its `try` block ended with: the
      action's result, or the exception raised on the way. */
  predicate TaskOk(o: Except<ActionResult>)
  {
    o.Normal? && o.value.ok
  }

  /** The task's final status. */
  function FinalStatus(o: Except<ActionResult>): TaskStatus
  {
    if TaskOk(o) then Succeeded else Failed
  }

  /** The `result` handed to `complete_run`: `asdict(result)`, or `{}` after
      an exception. */
  function RunRecord(o: Except<ActionResult>): (r: RunResult)
    ensures r == EmptyResult <==> o.Thrown?
  {
    if o.Normal? then Recorded(o.value) else EmptyResult
  }

  /** The `error` handed to `complete_run`. */
  function RunError(o: Except<ActionResult>): Option<string>
  {
    if o.Thrown? then Some(o.msg)
    else if o.value.ok then None
    else o.value.errorMessage
  }

  /** The `error` handed with the final status. */
  function StatusError(o: Except<ActionResult>): (r: Option<string>)
    ensures r.None? <==> TaskOk(o)
  {
    if o.Thrown? then Some(o.msg)
    else if o.value.ok then None
    else Some(StrOpt(o.value.errorCode) + ": " + StrOpt(o.value.errorMessage))
  }

  /** The final status and the errors agree: a task succeeds exactly when
      no error goes with its status, and then its run carries no error
      either; a failed task's status always carries a message, unless the
      exception that failed it had an empty one. */
  lemma OutcomeAgrees(o: Except<ActionResult>)
    ensures FinalStatus(o) == Succeeded <==> StatusError(o).None?
    ensures FinalStatus(o) == Succeeded ==> RunError(o).None? && RunRecord(o) == Recorded(o.value)
    ensures FinalStatus(o) != Succeeded ==> FinalStatus(o) == Failed
    ensures FinalStatus(o) == Failed && (o.Normal? || o.msg != "") ==> Truthful(StatusError(o))
    ensures o.Thrown? ==> RunRecord(o) == EmptyResult && RunError(o) == StatusError(o)
  {
    if o.Normal? && !o.value.ok {
      var e := StrOpt(o.value.errorCode) + ": " + StrOpt(o.value.errorMessage);
      assert e[|StrOpt(o.value.errorCode)|] == ':';
    }
  }

  /** How the action ran: the page it was given, the locator table it
      loaded, and the screenshot names and timing of the template's run. */
  datatype ActionTrace = ActionTrace(page: Page, locators: Table, paths: ShotPaths, timing: int)

  /** Once the shop has a controller: an unknown action, or a locale with
      no `split`, raises before the action runs and nothing is recorded;
      otherwise the action ran as `ActedOn` says.  Any result the action
      returns carries its timing, and comes after the before-screenshot's
      record, which is the first row of the run; an ok result carries the
      before and after screenshots. */
  ghost predicate Attempted(task: Task, runId: string, trace: ActionTrace, o: Except<ActionResult>, rows: seq<ArtifactRow>)
  {
    && (GetActionClass(task.action).Thrown? ==> o == Thrown(GetActionClass(task.action).msg) && rows == [])
    && (GetActionClass(task.action).Normal? && SiteOf(task.payload).Thrown? ==>
          o == Thrown(SiteOf(task.payload).msg) && rows == [])
    && (GetActionClass(task.action).Normal? && SiteOf(task.payload).Normal? ==>
          ActedOn(task, runId, GetActionClass(task.action).value, SiteOf(task.payload).value, trace, o, rows))
    && (o.Normal? ==> o.value.timingMs.Some? && rows != [] && rows[0].runId == runId && rows[0].kind == Before)
    && (TaskOk(o) ==> o.value.evidence.Some? && o.value.evidence.value.BeforeAfter?)
  }

  /** The context `execute_task` builds for the task on the site. */
  function TaskContext(task: Task, runId: string, site: string): ActionContext
  {
    ActionContext(task.id, runId, task.shopId, site, task.dryRun)
  }

  /** The outcome and the evidence rows are those of `execute` of the
      class: `_do_action` of the class runs with the trace's locator table
      on its page, the task's payload and its context, and the template
      takes its screenshots and records around it.  (The action's outcome
      is quantified as in `execute`, so that only a reader who needs it
      unfolds it.) */
  ghost predicate ActedOn(task: Task, runId: string, cls: ActionClass, site: string, trace: ActionTrace,
                          o: Except<ActionResult>, rows: seq<ArtifactRow>)
  {
    && ActionTable(trace.locators)
    && trace.timing >= 0
    && forall t :: t == trace.locators ==>
         var run := Executed(ActionName(cls), true, trace.page, runId,
                             Inner(cls, t, trace.page, TaskContext(task, runId, site), task.payload),
                             trace.paths, trace.timing);
         o == run.result && rows == run.records
  }

  /** How the shop's controller was found decides the outcome: an active
      controller is used as it is, a shop without a browser id in
      `browserMap` gets none; a lookup that raises or gives none fails the
      task before any action runs. */
  ghost predicate LookedUp(task: Task, runId: string, active: map<string, BrowserController>,
                           browserMap: map<Value, string>, lookup: Except<Option<BrowserController>>,
                           trace: ActionTrace, o: Except<ActionResult>, rows: seq<ArtifactRow>)
  {
    && (task.shopId in active ==> lookup == Normal(Some(active[task.shopId])))
    && (task.shopId !in active && !Mapped(browserMap, task.shopId) ==> lookup == Normal(None))
    && (lookup.Thrown? ==> o == Thrown(lookup.msg) && rows == [])
    && (lookup == Normal(None) ==> o == Thrown(NoBrowser(task.shopId)) && rows == [])
    && (lookup.Normal? && lookup.value.Some? ==> Attempted(task, runId, trace, o, rows))
  }

  // ---------------------------------------------------------------- worker

  /** The ziniao client comes up: it has a start command for the system,
      launches, and answers its health check. */
  predicate Launches(c: ZiniaoClient)
  {
    StartCommand(c.system, c.config).Some? && c.service.launchError.None? && c.service.healthy
  }

  /** The `getBrowserList` request and the browsers the client lists. */
  function ListRequest(c: ZiniaoClient): map<string, Value>
  {
    WithCredentials(map["action" := VStr("getBrowserList")], c.config)
  }

  function ListedBrowsers(c: ZiniaoClient): seq<BrowserInfo>
  {
    DecodeBrowserList(c.service.answer(ListRequest(c)))
  }

  /** The `startBrowser` request for a browser id, and the client's answer. */
  function StartFor(c: ZiniaoClient, browserId: string, headless: bool): map<string, Value>
  {
    WithCredentials(ZiniaoClient.StartRequest(browserId, headless, None), c.config)
  }

  function Started(c: ZiniaoClient, browserId: string, headless: bool): StartBrowserResult
  {
    DecodeStart(c.service.answer(StartFor(c, browserId, headless)))
  }

  /** A controller `disconnect` has been called on. */
  twostate predicate Closed(c: BrowserController)
    reads c
  {
    && (old(c.connected) ==> c.calls == old(c.calls) + [Quit] && c.connected == c.page.quits.Some?)
    && (!old(c.connected) ==> c.calls == old(c.calls) && !c.connected)
  }

  class Worker {
    const workerId: string
    /** `agent_config.headless` */
    const headless: bool
    /** The platform, which names the chromedriver. */
    const system: string
    /** `agent_config.screenshot_dir` */
    const screenshotDir: string
    /** What the browser behind each debugging port answers. */
    const sessions: int -> Page

    var shopBrowserMap: map<Value, string>
    var ziniao: ZiniaoClient?
    var store: TaskStore?
    var activeBrowsers: map<string, BrowserController>
    var running: bool

    /** The store keeps its own invariant, and every shop has a controller
        of its own. */
    predicate Valid()
      reads this, store
    {
      && (store != null ==> store.Valid())
      && (forall a, b :: a in activeBrowsers && b in activeBrowsers && a != b
                         ==> activeBrowsers[a] != activeBrowsers[b])
    }

    /** A worker with no client, no store and no controller yet. */
    constructor (workerId: string, shopBrowserMap: map<Value, string>, headless: bool, system: string,
                 screenshotDir: string, sessions: int -> Page)
      ensures Valid()
      ensures this.workerId == workerId && this.shopBrowserMap == shopBrowserMap
      ensures this.headless == headless && this.system == system
      ensures this.screenshotDir == screenshotDir && this.sessions == sessions
      ensures ziniao == null && store == null && activeBrowsers == map[] && !running
    {
      this.workerId := workerId;
      this.shopBrowserMap := shopBrowserMap;
      this.headless := headless;
      this.system := system;
      this.screenshotDir := screenshotDir;
      this.sessions := sessions;
      ziniao := null;
      store := null;
      activeBrowsers := map[];
      running := false;
    }

    /** `setup`: start the ziniao client, connect to the store (`connect` is
        what `get_store()` returns or raises), and, when no shop map was
        given, map each listed browser's name to its id. */
    method Setup(client: ZiniaoClient, connect: Except<TaskStore>) returns (r: Except<bool>)
      requires Valid()
      requires connect.Normal? ==> connect.value.Valid()
      modifies this`ziniao, this`store, this`shopBrowserMap, client
      ensures Valid()
      ensures ziniao == client
      ensures !Launches(client) || connect.Thrown? ==>
                && r == Normal(false) && store == old(store) && shopBrowserMap == old(shopBrowserMap)
                && client.requests == old(client.requests)
      ensures Launches(client) && connect.Normal? ==> store == connect.value
      ensures Launches(client) && connect.Normal? && old(shopBrowserMap) != map[] ==>
                r == Normal(true) && shopBrowserMap == old(shopBrowserMap) && client.requests == old(client.requests)
      ensures Launches(client) && connect.Normal? && old(shopBrowserMap) == map[] ==>
                var bs := ListedBrowsers(client);
                var n := HashablePrefix(bs);
                && client.requests == old(client.requests) + [ListRequest(client)]
                && shopBrowserMap == Filled(old(shopBrowserMap), bs[..n])
                && (n == |bs| ==> r == Normal(true))
                && (n < |bs| ==> r == Thrown(Unhashable(bs[n].browserName)))
    {
      ziniao := client;
      var started := client.StartClient();
      if !started {
        return Normal(false);
      }
      if connect.Thrown? {
        return Normal(false);
      }
      store := connect.value;
      if shopBrowserMap == map[] {
        var bs := client.GetBrowserList();
        r := MapBrowsers(bs);
      } else {
        r := Normal(true);
      }
    }

    /** `self.shop_browser_map[b.browser_name] = b.browser_id` for each
        listed browser in turn, until a name cannot be a key. */
    method MapBrowsers(bs: seq<BrowserInfo>) returns (r: Except<bool>)
      modifies this`shopBrowserMap
      ensures var n := HashablePrefix(bs);
              && shopBrowserMap == Filled(old(shopBrowserMap), bs[..n])
              && (n == |bs| ==> r == Normal(true))
              && (n < |bs| ==> r == Thrown(Unhashable(bs[n].browserName)))
    {
      var i := 0;
      while i < |bs|
        invariant 0 <= i <= |bs| && i <= HashablePrefix(bs)
        invariant shopBrowserMap == Filled(old(shopBrowserMap), bs[..i])
      {
        var name := bs[i].browserName;
        if !Hashable(name) {
          return Thrown(Unhashable(name));
        }
        assert bs[..i + 1][..i] == bs[..i];
        shopBrowserMap := shopBrowserMap[Key(name) := bs[i].browserId];
        i := i + 1;
      }
      assert bs[..i] == bs;
      r := Normal(true);
    }

    /** `get_browser_for_shop(shop_id)`: the shop's active controller as it
        is; otherwise the shop's ziniao browser is started, and a new
        controller attached to it is kept for the shop once it connects. */
    method GetBrowserForShop(shopId: string) returns (r: Except<Option<BrowserController>>)
      requires Valid()
      modifies this`activeBrowsers, ziniao
      ensures Valid()
      ensures r.Normal? && r.value.Some? ==>
                shopId in activeBrowsers && activeBrowsers[shopId] == r.value.value
                && (r.value.value in old(activeBrowsers).Values || fresh(r.value.value))
      ensures shopId in old(activeBrowsers) ==>
                && r == Normal(Some(old(activeBrowsers)[shopId])) && activeBrowsers == old(activeBrowsers)
                && (ziniao != null ==> ziniao.requests == old(ziniao.requests))
      ensures shopId !in old(activeBrowsers) && !Mapped(shopBrowserMap, shopId) ==>
                && r == Normal(None) && activeBrowsers == old(activeBrowsers)
                && (ziniao != null ==> ziniao.requests == old(ziniao.requests))
      ensures shopId !in old(activeBrowsers) && Mapped(shopBrowserMap, shopId) && ziniao == null ==>
                r == Thrown(NoneAttribute("start_browser")) && activeBrowsers == old(activeBrowsers)
      ensures shopId !in old(activeBrowsers) && Mapped(shopBrowserMap, shopId) && ziniao != null ==>
                Provisioned(shopId, r)
    {
      if shopId in activeBrowsers {
        return Normal(Some(activeBrowsers[shopId]));
      }
      if !Mapped(shopBrowserMap, shopId) {
        return Normal(None);
      }
      if ziniao == null {
        return Thrown(NoneAttribute("start_browser"));
      }
      r := StartForShop(shopId);
    }

    /** The part of `get_browser_for_shop` after the mapping is found. */
    method StartForShop(shopId: string) returns (r: Except<Option<BrowserController>>)
      requires Valid() && shopId !in activeBrowsers && Mapped(shopBrowserMap, shopId) && ziniao != null
      modifies this`activeBrowsers, ziniao
      ensures Valid()
      ensures r.Normal? && r.value.Some? ==> shopId in activeBrowsers && activeBrowsers[shopId] == r.value.value
      ensures Provisioned(shopId, r)
    {
      var id := shopBrowserMap[VStr(shopId)];
      var start := ziniao.StartBrowser(id, headless, None);
      if !start.success {
        return Normal(None);
      }
      r := Adopt(shopId, start);
    }

    /** After a successful start: a controller for the reported port and
        major version, kept for the shop once it connects. */
    method Adopt(shopId: string, start: StartBrowserResult) returns (r: Except<Option<BrowserController>>)
      requires Valid() && shopId !in activeBrowsers && start.debuggingPort.Some?
      modifies this`activeBrowsers
      ensures Valid()
      ensures var major := MajorVersion(start.coreVersion);
              var port := start.debuggingPort.value;
              && (major.Thrown? || !sessions(port).connects ==> activeBrowsers == old(activeBrowsers))
              && (major.Thrown? ==> r == Thrown(major.msg))
              && (major.Normal? && !sessions(port).connects ==> r == Normal(None))
              && (major.Normal? && sessions(port).connects ==>
                    && r.Normal? && r.value.Some? && fresh(r.value.value)
                    && activeBrowsers == old(activeBrowsers)[shopId := r.value.value]
                    && Attached(r.value.value, port, major.value))
    {
      var major := MajorVersion(start.coreVersion);
      if major.Thrown? {
        return Thrown(major.msg);
      }
      var port := start.debuggingPort.value;
      var controller, connected := Attach(port, major.value);
      if !connected {
        return Normal(None);
      }
      activeBrowsers := activeBrowsers[shopId := controller];
      r := Normal(Some(controller));
    }

    /** A mapped shop without a controller: its browser is started (exactly
        one `startBrowser` request), and a controller attached to the port
        the client reports, for the major version of the core it reports, is
        kept for the shop only once it connects.  A failed start, a version
        without `split` or a failed connection leave the active controllers
        as they were. */
    twostate predicate Provisioned(shopId: string, new r: Except<Option<BrowserController>>)
      requires ziniao != null && Mapped(shopBrowserMap, shopId)
      reads this, ziniao, if r.Normal? && r.value.Some? then {r.value.value} else {}
    {
      var id := shopBrowserMap[VStr(shopId)];
      var start := Started(ziniao, id, headless);
      var major := MajorVersion(start.coreVersion);
      && old(ziniao) == ziniao
      && ziniao.requests == old(ziniao.requests) + [StartFor(ziniao, id, headless)]
      && (!start.success || major.Thrown? || !sessions(start.debuggingPort.value).connects ==>
            activeBrowsers == old(activeBrowsers))
      && (!start.success ==> r == Normal(None))
      && (start.success && major.Thrown? ==> r == Thrown(major.msg))
      && (start.success && major.Normal? && !sessions(start.debuggingPort.value).connects ==>
            r == Normal(None))
      && (start.success && major.Normal? && sessions(start.debuggingPort.value).connects ==>
            && r.Normal? && r.value.Some? && fresh(r.value.value)
            && activeBrowsers == old(activeBrowsers)[shopId := r.value.value]
            && Attached(r.value.value, start.debuggingPort.value, major.value))
    }

    /** `create_browser_controller(port, major)` and `connect()`. */
    method Attach(port: int, major: string) returns (c: BrowserController, ok: bool)
      ensures fresh(c) && ok == sessions(port).connects
      ensures ok ==> Attached(c, port, major)
    {
      c := new BrowserController(port, major, None, system, screenshotDir, sessions(port));
      ok := c.Connect();
      assert [] + [Call.Attached] == [Call.Attached];
    }

    /** A controller `create_browser_controller` made for the port and the
        major version, and connected. */
    ghost predicate Attached(c: BrowserController, port: int, major: string)
      reads c
    {
      && c.debuggingPort == port && c.coreVersion == major
      && c.driverPath == DefaultDriverPath(major, system) && c.screenshotDir == screenshotDir
      && c.page == sessions(port) && c.connected && c.calls == [Call.Attached]
    }

    /** The `try` block of `execute_task` up to the action's result: the
        shop's controller, the action class, the site, then the action
        itself.  `o` is the result or the exception raised on the way,
        `lookup` what `get_browser_for_shop` gave, and `rows` the evidence
        the action recorded. */
    method TryRun(task: Task, runId: string, clock: WallClock)
      returns (o: Except<ActionResult>, ghost lookup: Except<Option<BrowserController>>, ghost rows: seq<ArtifactRow>,
               ghost trace: ActionTrace)
      requires Valid() && store != null
      modifies this`activeBrowsers, ziniao, activeBrowsers.Values, clock, store
      ensures Valid()
      ensures store.artifacts == old(store.artifacts) + rows && store.log == old(store.log) + Inserts(rows)
      ensures store.tasks == old(store.tasks) && store.runs == old(store.runs) && store.now == old(store.now)
      ensures LookedUp(task, runId, old(activeBrowsers), shopBrowserMap, lookup, trace, o, rows)
      ensures lookup.Normal? && lookup.value.Some? ==> trace.page == lookup.value.value.View()
    {
      rows := [];
      trace :| true;
      var browser := GetBrowserForShop(task.shopId);
      lookup := browser;
      if browser.Thrown? {
        return Thrown(browser.msg), lookup, rows, trace;
      }
      if browser.value.None? {
        return Thrown(NoBrowser(task.shopId)), lookup, rows, trace;
      }
      o, rows, trace := Dispatch(task, runId, browser.value.value, clock);
    }

    /** The rest of the `try` block once the shop has a controller: the
        action class, the site, then the action. */
    method Dispatch(task: Task, runId: string, browser: BrowserController, clock: WallClock)
      returns (o: Except<ActionResult>, ghost rows: seq<ArtifactRow>, ghost trace: ActionTrace)
      requires store != null && store.Valid()
      modifies browser`calls, clock, store
      ensures store.Valid()
      ensures store.artifacts == old(store.artifacts) + rows && store.log == old(store.log) + Inserts(rows)
      ensures store.tasks == old(store.tasks) && store.runs == old(store.runs) && store.now == old(store.now)
      ensures trace.page == browser.View() && Attempted(task, runId, trace, o, rows)
    {
      rows, trace := [], ActionTrace(browser.View(), map[], ShotPaths("", "", ""), 0);
      var cls := GetActionClass(task.action);
      if cls.Thrown? {
        return Thrown(cls.msg), rows, trace;
      }
      var site := SiteOf(task.payload);
      if site.Thrown? {
        return Thrown(site.msg), rows, trace;
      }
      ghost var acted;
      o, rows, trace, acted := Perform(cls.value, browser, task, runId, site.value, clock);
      ExecutedShape(ActionName(cls.value), true, trace.page, runId, acted, trace.paths, trace.timing);
    }

    /** `action_class(browser, self.store)` run on the task's context: the
        result and the evidence rows are those of the template's run. */
    method Perform(cls: ActionClass, browser: BrowserController, task: Task, runId: string, site: string,
                   clock: WallClock)
      returns (o: Except<ActionResult>, ghost rows: seq<ArtifactRow>, ghost trace: ActionTrace,
               ghost acted: Traced<Except<ActionResult>>)
      requires store != null && store.Valid()
      modifies browser`calls, clock, store
      ensures store.Valid()
      ensures store.artifacts == old(store.artifacts) + rows && store.log == old(store.log) + Inserts(rows)
      ensures store.tasks == old(store.tasks) && store.runs == old(store.runs) && store.now == old(store.now)
      ensures trace.page == browser.View() && trace.locators == GetLocators(site)
      ensures ActedOn(task, runId, cls, site, trace, o, rows)
      ensures var run := Executed(ActionName(cls), true, trace.page, runId, acted, trace.paths, trace.timing);
              o == run.result && rows == run.records
    {
      var action := new Action(cls, browser, store);
      var context := TaskContext(task, runId, site);
      ghost var paths;
      var timing;
      o, paths, timing, acted := action.Execute(context, task.payload, clock);
      trace := ActionTrace(browser.View(), action.locators, paths, timing);
      rows := Executed(ActionName(cls), true, browser.View(), runId, acted, paths, timing).records;
    }

    /** The end of `execute_task`: the run is completed with the result (or
        `{}` and the exception's text), then the task gets its final status. */
    method Conclude(taskId: string, runId: string, o: Except<ActionResult>) returns (ok: bool)
      requires store != null && store.Valid() && runId in store.runs
      modifies store`runs, store`tasks, store`now, store`log
      ensures store.Valid()
      ensures ok == TaskOk(o)
      ensures store.log == old(store.log) + [RunCompleted(runId), StatusSet(taskId, FinalStatus(o))]
      ensures store.runs.Keys == old(store.runs.Keys)
      ensures forall k :: k in store.runs && k != runId ==> store.runs[k] == old(store.runs[k])
      ensures store.runs[runId].endAt.Some? && old(store.now) <= store.runs[runId].endAt.value <= store.now
      ensures store.runs[runId] == old(store.runs[runId]).(
                endAt := store.runs[runId].endAt, result := Some(RunRecord(o)),
                error := if Truthful(RunError(o)) then RunError(o) else old(store.runs[runId].error))
      ensures store.tasks.Keys == old(store.tasks.Keys)
      ensures forall t :: t in store.tasks && t != taskId ==> store.tasks[t] == old(store.tasks[t])
      ensures taskId in store.tasks ==> store.tasks[taskId] == old(store.tasks[taskId]).(
                status := FinalStatus(o), updatedAt := store.now,
                error := if Truthful(StatusError(o)) then StatusError(o) else old(store.tasks[taskId].error))
    {
      store.CompleteRun(runId, RunRecord(o), RunError(o));
      store.UpdateTaskStatus(taskId, FinalStatus(o), StatusError(o));
      ok := TaskOk(o);
    }

    /** `execute_task(task)`: without a store, the first write raises;
        otherwise the task runs as `RunTask` says. */
    method ExecuteTask(task: Task, runId: string, clock: WallClock)
      returns (r: Except<bool>, ghost o: Except<ActionResult>, ghost lookup: Except<Option<BrowserController>>,
               ghost rows: seq<ArtifactRow>, ghost trace: ActionTrace)
      requires Valid()
      requires store != null ==> runId !in store.runs
      modifies this`activeBrowsers, ziniao, activeBrowsers.Values, clock, store
      ensures Valid()
      ensures store == null ==>
                r == Thrown(NoneAttribute("update_task_status")) && activeBrowsers == old(activeBrowsers)
                && (ziniao != null ==> ziniao.requests == old(ziniao.requests))
      ensures store != null ==> r == Normal(TaskOk(o)) && TaskRecorded(store, task, runId, o, rows)
      ensures store != null ==> LookedUp(task, runId, old(activeBrowsers), shopBrowserMap, lookup, trace, o, rows)
      ensures store != null && lookup.Normal? && lookup.value.Some? ==> trace.page == lookup.value.value.View()
    {
      rows := [];
      trace :| true;
      o := Thrown(NoneAttribute("update_task_status"));
      lookup := Normal(None);
      if store == null {
        return Thrown(NoneAttribute("update_task_status")), o, lookup, rows, trace;
      }
      var ok;
      ok, o, lookup, rows, trace := RunTask(task, runId, clock);
      r := Normal(ok);
    }

    /** What `execute_task` writes: the status RUNNING and one run for the
        task come first, before any browser or action work; then the
        evidence the action recorded; then the run is completed with the
        result (`{}` and the exception's text after an exception) and the
        task gets its final status.  Nothing else in the tables changes. */
    twostate predicate TaskRecorded(store: TaskStore, task: Task, runId: string, new o: Except<ActionResult>,
                                    rows: seq<ArtifactRow>)
      reads store
    {
        && store.log == old(store.log) + [StatusSet(task.id, Running)] + [RunInserted(runId, task.id)]
                        + Inserts(rows) + [RunCompleted(runId), StatusSet(task.id, FinalStatus(o))]
        && store.artifacts == old(store.artifacts) + rows
        && store.runs.Keys == old(store.runs.Keys) + {runId}
        && (forall k :: k in old(store.runs) ==> store.runs[k] == old(store.runs[k]))
        && runId in store.runs
        && store.runs[runId].taskId == task.id && store.runs[runId].workerId == workerId
        && store.runs[runId].endAt.Some?
        && old(store.now) <= store.runs[runId].startAt <= store.runs[runId].endAt.value <= store.now
        && store.runs[runId].result == Some(RunRecord(o))
        && store.runs[runId].error == (if Truthful(RunError(o)) then RunError(o) else None)
        && store.tasks.Keys == old(store.tasks.Keys)
        && (forall t :: t in store.tasks && t != task.id ==> store.tasks[t] == old(store.tasks[t]))
        && (task.id in store.tasks ==>
              && store.tasks[task.id].status == FinalStatus(o)
              && store.tasks[task.id].error ==
                   (if Truthful(StatusError(o)) then StatusError(o) else old(store.tasks[task.id].error)))
    }

    /** `execute_task` with a store. */
    method RunTask(task: Task, runId: string, clock: WallClock)
      returns (ok: bool, ghost o: Except<ActionResult>, ghost lookup: Except<Option<BrowserController>>,
               ghost rows: seq<ArtifactRow>, ghost trace: ActionTrace)
      requires Valid() && store != null && runId !in store.runs
      modifies this`activeBrowsers, ziniao, activeBrowsers.Values, clock, store
      ensures Valid()
      ensures ok == TaskOk(o) && TaskRecorded(store, task, runId, o, rows)
      ensures LookedUp(task, runId, old(activeBrowsers), shopBrowserMap, lookup, trace, o, rows)
      ensures lookup.Normal? && lookup.value.Some? ==> trace.page == lookup.value.value.View()
    {
      Begin(task.id, runId);
      var outcome;
      outcome, lookup, rows, trace := TryRun(task, runId, clock);
      o := outcome;
      ok := Conclude(task.id, runId, outcome);
    }

    /** The two writes before the `try`: the status RUNNING, then the run. */
    method Begin(taskId: string, runId: string)
      requires store != null && store.Valid() && runId !in store.runs
      modifies store`runs, store`tasks, store`now, store`log
      ensures store.Valid()
      ensures store.log == old(store.log) + [StatusSet(taskId, Running)] + [RunInserted(runId, taskId)]
      ensures runId in store.runs
      ensures store.runs == old(store.runs)[runId := RunRow(taskId, workerId, store.runs[runId].startAt, None, None, None)]
      ensures old(store.now) <= store.runs[runId].startAt <= store.now
      ensures store.tasks.Keys == old(store.tasks.Keys)
      ensures forall t :: t in store.tasks && t != taskId ==> store.tasks[t] == old(store.tasks[t])
      ensures taskId in store.tasks ==>
                store.tasks[taskId].status == Running && store.tasks[taskId].error == old(store.tasks[taskId].error)
    {
      store.UpdateTaskStatus(taskId, Running, None);
      var id := store.CreateRun(runId, taskId, workerId);
    }

    /** `run_once`: execute the next queued task, if there is one, and say
        whether there was; with no queued task nothing is touched. */
    method RunOnce(runId: string, clock: WallClock)
      returns (r: Except<bool>, ghost picked: Option<Task>, ghost o: Except<ActionResult>,
               ghost lookup: Except<Option<BrowserController>>, ghost rows: seq<ArtifactRow>, ghost trace: ActionTrace)
      requires Valid()
      requires store != null ==> runId !in store.runs
      modifies this`activeBrowsers, ziniao, activeBrowsers.Values, clock, store
      ensures Valid()
      ensures store == null ==>
                r == Thrown(NoneAttribute("get_next_task")) && activeBrowsers == old(activeBrowsers)
                && (ziniao != null ==> ziniao.requests == old(ziniao.requests))
      ensures store != null ==> r == Normal(picked.Some?)
      ensures store != null ==>
                (picked.None? <==> forall t :: t in old(store.tasks) ==> old(store.tasks)[t].status != Queued)
      ensures store != null && picked.None? ==>
                && store.tasks == old(store.tasks) && store.runs == old(store.runs) && store.log == old(store.log)
                && store.artifacts == old(store.artifacts) && activeBrowsers == old(activeBrowsers)
                && (ziniao != null ==> ziniao.requests == old(ziniao.requests))
      ensures store != null && picked.Some? ==>
                && IsNext(old(store.tasks), picked.value.id)
                && picked.value == Decode(picked.value.id, old(store.tasks)[picked.value.id])
                && TaskRecorded(store, picked.value, runId, o, rows)
                && LookedUp(picked.value, runId, old(activeBrowsers), shopBrowserMap, lookup, trace, o, rows)
      ensures store != null && picked.Some? && lookup.Normal? && lookup.value.Some? ==>
                trace.page == lookup.value.value.View()
    {
      picked, o, lookup, rows := None, Thrown(NoneAttribute("get_next_task")), Normal(None), [];
      trace :| true;
      if store == null {
        return Thrown(NoneAttribute("get_next_task")), picked, o, lookup, rows, trace;
      }
      var task := store.GetNextTask();
      if task.None? {
        return Normal(false), picked, o, lookup, rows, trace;
      }
      picked := task;
      var done;
      done, o, lookup, rows, trace := ExecuteTask(task.value, runId, clock);
      r := Normal(true);
    }

    /** `stop`: the loop ends after the task at hand. */
    method Stop()
      modifies this`running
      ensures !running
    {
      running := false;
    }

    /** `cleanup`: every active controller is disconnected, whatever it
        raises, and then the ziniao client, if there is one, is asked to
        exit. */
    method Cleanup()
      requires Valid()
      modifies activeBrowsers.Values, ziniao
      ensures forall s :: s in activeBrowsers ==> Closed(activeBrowsers[s])
      ensures ziniao != null ==>
                ziniao.requests == old(ziniao.requests) + [WithCredentials(map["action" := VStr("exit")], ziniao.config)]
    {
      var todo := activeBrowsers.Keys;
      while todo != {}
        invariant todo <= activeBrowsers.Keys
        invariant forall s :: s in activeBrowsers && s !in todo ==> Closed(activeBrowsers[s])
        invariant forall s :: s in todo ==> unchanged(activeBrowsers[s])
        invariant ziniao != null ==> ziniao.requests == old(ziniao.requests)
        decreases todo
      {
        var s :| s in todo;
        var _ := activeBrowsers[s].Disconnect();
        todo := todo - {s};
      }
      if ziniao != null {
        var _ := ziniao.ExitClient();
      }
    }
  }
}
