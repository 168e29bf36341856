/**
 * The session provider's client: it launches the provider's desktop client,
 * and talks to it over a local HTTP API to list the shop browsers and start
 * one, whose Chrome debugging port the controller then attaches to.  The
 * provider is outside the model; its answers are a `Service` value.
 */
module Ziniao {
  import opened Python

  /** `ZiNiaoConfig` */
  datatype ZiniaoConfig = ZiniaoConfig(
    clientPath: string,
    company: string,
    username: string,
    password: string,
    socketPort: int,
    timeout: int)

  /** The configuration defaults. */
  const DefaultConfig := ZiniaoConfig("C:\\Program Files\\ziniao\\ziniao.exe",
                                      "你的公司名", "你的用户名", "你的密码", 19888, 120)

  /** What one API call gives: the decoded JSON body, or the text of the
      exception raised by the request, `raise_for_status()` or `.json()`. */
  datatype Reply = Answer(body: Value) | Unreachable(msg: string)

  /** What the provider does: whether launching the client raises (the
      executable is missing), whether the health check then answers 200,
      and how the API answers each request body. */
  datatype Service = Service(
    launchError: Option<string>,
    healthy: bool,
    answer: map<string, Value> -> Reply)

  /** `BrowserInfo`: every field as the reply gave it, except the id, which
      is always text. */
  datatype BrowserInfo = BrowserInfo(
    browserOauth: Value,
    browserId: string,
    browserName: Value,
    siteId: Value,
    platformName: Value,
    isExpired: Value)

  /** `StartBrowserResult`: the optional fields default to None. */
  datatype StartBrowserResult = StartBrowserResult(
    success: bool,
    debuggingPort: Option<int>,
    coreType: Value,
    coreVersion: Value,
    downloadPath: Value,
    error: Value)

  function StartFailure(error: Value): (r: StartBrowserResult)
    ensures !r.success && r.error == error && r.debuggingPort.None?
  {
    StartBrowserResult(false, None, VNone, VNone, VNone, error)
  }

  // -------------------------------------------------------------- decoding

  /** `body.get(key)` where body should be a dict; any other JSON value has
      no `get` and raises AttributeError. */
  function Field(body: Value, key: string): (r: Except<Value>)
    ensures body.VDict? ==> r.Normal?
    ensures !body.VDict? ==> r == Thrown("'" + TypeName(body) + "' object has no attribute 'get'")
  {
    if body.VDict? then
      Normal(match DictGet(body.entries, key) case Some(v) => v case None => VNone)
    else Thrown("'" + TypeName(body) + "' object has no attribute 'get'")
  }

  /** `body.get(key, default)` on a dict. */
  function FieldOr(entries: seq<(string, Value)>, key: string, default: Value): Value
  {
    match DictGet(entries, key) case Some(v) => v case None => default
  }

  /** `x == 0` for a JSON value: true for the integer 0 and, Python's bool
      being an int, for False. */
  predicate IsZero(v: Value)
  {
    v == VInt(0) || v == VBool(false)
  }

  /** `a or b` */
  function Or(a: Value, b: Value): (r: Value)
    ensures Truthy(a) ==> r == a
    ensures !Truthy(a) ==> r == b
  {
    if Truthy(a) then a else b
  }

  /** `start_browser`'s reading of the reply. */
  function DecodeStart(reply: Reply): (r: StartBrowserResult)
    ensures reply.Unreachable? ==> r == StartFailure(VStr(reply.msg))
    ensures r.success <==> reply.Answer? && reply.body.VDict?
                           && IsZero(FieldOr(reply.body.entries, "statusCode", VNone))
                           && IntOf(FieldOr(reply.body.entries, "debuggingPort", VNone)).Normal?
    ensures r.success ==> r.debuggingPort == Some(IntOf(FieldOr(reply.body.entries, "debuggingPort", VNone)).value)
    ensures !r.success ==> r.debuggingPort.None? && r.coreVersion == VNone
  {
    match reply
    case Unreachable(m) => StartFailure(VStr(m))
    case Answer(body) =>
      if !body.VDict? then StartFailure(VStr(Field(body, "statusCode").msg))
      else
        var es := body.entries;
        var status := FieldOr(es, "statusCode", VNone);
        if IsZero(status) then
          match IntOf(FieldOr(es, "debuggingPort", VNone))
          case Thrown(m) => StartFailure(VStr(m))
          case Normal(port) =>
            StartBrowserResult(
              true, Some(port),
              Or(FieldOr(es, "core_type", VNone), FieldOr(es, "coreType", VNone)),
              Or(FieldOr(es, "core_version", VNone), FieldOr(es, "coreVersion", VNone)),
              FieldOr(es, "downloadPath", VNone),
              VNone)
        else
          StartFailure(Or(FieldOr(es, "err", VNone),
                          Or(FieldOr(es, "LastError", VNone), VStr("状态码: " + Str(status)))))
  }

  /** A refusal's error is `err` when that is truthy, else `LastError` when
      that is, else the status code spelled out. */
  lemma StartFailureMessage(es: seq<(string, Value)>)
    requires !IsZero(FieldOr(es, "statusCode", VNone))
    ensures var r := DecodeStart(Answer(VDict(es)));
            && !r.success
            && (Truthy(FieldOr(es, "err", VNone)) ==> r.error == FieldOr(es, "err", VNone))
            && (!Truthy(FieldOr(es, "err", VNone)) && Truthy(FieldOr(es, "LastError", VNone))
                ==> r.error == FieldOr(es, "LastError", VNone))
            && (!Truthy(FieldOr(es, "err", VNone)) && !Truthy(FieldOr(es, "LastError", VNone))
                ==> r.error == VStr("状态码: " + Str(FieldOr(es, "statusCode", VNone))))
  {
  }

  /** A started browser reports the snake_case core fields when they are
      truthy and the camelCase ones otherwise. */
  lemma StartSuccessFields(es: seq<(string, Value)>)
    requires IsZero(FieldOr(es, "statusCode", VNone))
    requires IntOf(FieldOr(es, "debuggingPort", VNone)).Normal?
    ensures var r := DecodeStart(Answer(VDict(es)));
            && r.success && r.error == VNone
            && (Truthy(FieldOr(es, "core_version", VNone)) ==> r.coreVersion == FieldOr(es, "core_version", VNone))
            && (!Truthy(FieldOr(es, "core_version", VNone)) ==> r.coreVersion == FieldOr(es, "coreVersion", VNone))
            && (Truthy(FieldOr(es, "core_type", VNone)) ==> r.coreType == FieldOr(es, "core_type", VNone))
            && (!Truthy(FieldOr(es, "core_type", VNone)) ==> r.coreType == FieldOr(es, "coreType", VNone))
  {
  }

  /** One `browserList` entry; an entry that is not a dict raises. */
  function DecodeBrowser(item: Value): (r: Except<BrowserInfo>)
    ensures item.VDict? <==> r.Normal?
  {
    if !item.VDict? then Thrown("'" + TypeName(item) + "' object has no attribute 'get'")
    else
      var es := item.entries;
      Normal(BrowserInfo(
        FieldOr(es, "browserOauth", VStr("")),
        Str(FieldOr(es, "browserId", FieldOr(es, "browserOauth", VStr("")))),
        FieldOr(es, "browserName", VStr("")),
        FieldOr(es, "siteId", VStr("")),
        FieldOr(es, "platform_name", VStr("")),
        FieldOr(es, "isExpired", VBool(false))))
  }

  /** The entries of `browserList` decoded in order; the first entry that
      raises makes the whole list fail. */
  function DecodeEntries(items: seq<Value>): (r: Except<seq<BrowserInfo>>)
    ensures r.Normal? <==> forall i :: 0 <= i < |items| ==> items[i].VDict?
    ensures r.Normal? ==> |r.value| == |items|
                          && forall i :: 0 <= i < |items| ==> Normal(r.value[i]) == DecodeBrowser(items[i])
  {
    if items == [] then Normal([])
    else
      match DecodeBrowser(items[0])
      case Thrown(m) => Thrown(m)
      case Normal(b) =>
        match DecodeEntries(items[1..])
        case Thrown(m) => Thrown(m)
        case Normal(rest) => Normal([b] + rest)
  }

  /** `get_browser_list`'s reading of the reply: [] unless the status is 0;
      a `browserList` that is not a list of dicts also gives [] (iterating
      it, or reading an entry, raises, and the exception is swallowed). */
  function DecodeBrowserList(reply: Reply): (r: seq<BrowserInfo>)
    ensures reply.Unreachable? || !reply.body.VDict? ==> r == []
    ensures reply.Answer? && reply.body.VDict? && !IsZero(FieldOr(reply.body.entries, "statusCode", VNone)) ==> r == []
  {
    match reply
    case Unreachable(_) => []
    case Answer(body) =>
      if !body.VDict? || !IsZero(FieldOr(body.entries, "statusCode", VNone)) then []
      else
        var list := FieldOr(body.entries, "browserList", VList([]));
        if list.VList? && DecodeEntries(list.items).Normal? then DecodeEntries(list.items).value
        else []
  }

  /** An accepted list yields one entry per item, in order, and each id is
      the text of `browserId`, or of `browserOauth` when there is no
      `browserId` key, or "" when neither is there. */
  lemma BrowserIds(es: seq<(string, Value)>, items: seq<Value>)
    requires IsZero(FieldOr(es, "statusCode", VNone))
    requires FieldOr(es, "browserList", VList([])) == VList(items)
    requires forall i :: 0 <= i < |items| ==> items[i].VDict?
    ensures var r := DecodeBrowserList(Answer(VDict(es)));
            && |r| == |items|
            && forall i :: 0 <= i < |items| ==>
                 (DictGet(items[i].entries, "browserId").Some? ==>
                    r[i].browserId == Str(DictGet(items[i].entries, "browserId").value))
                 && ((DictGet(items[i].entries, "browserId").None? && DictGet(items[i].entries, "browserOauth").Some?) ==>
                    r[i].browserId == Str(DictGet(items[i].entries, "browserOauth").value))
                 && ((DictGet(items[i].entries, "browserId").None? && DictGet(items[i].entries, "browserOauth").None?) ==>
                    r[i].browserId == "")
  {
    var r := DecodeBrowserList(Answer(VDict(es)));
    forall i | 0 <= i < |items|
      ensures Normal(r[i]) == DecodeBrowser(items[i])
    {
    }
  }

  /** `_call_api`'s merge: the credentials overwrite whatever the request
      carried under those three keys; every other key is kept. */
  function WithCredentials(p: map<string, Value>, cfg: ZiniaoConfig): (q: map<string, Value>)
    ensures q.Keys == p.Keys + {"company", "username", "password"}
    ensures q["company"] == VStr(cfg.company) && q["username"] == VStr(cfg.username)
    ensures q["password"] == VStr(cfg.password)
    ensures forall k :: k in p && k !in {"company", "username", "password"} ==> q[k] == p[k]
  {
    p["company" := VStr(cfg.company)]["username" := VStr(cfg.username)]["password" := VStr(cfg.password)]
  }

  /** Merging twice is merging once. */
  lemma WithCredentialsIdempotent(p: map<string, Value>, cfg: ZiniaoConfig)
    ensures WithCredentials(WithCredentials(p, cfg), cfg) == WithCredentials(p, cfg)
  {
  }

  /** `start_client`'s command line for the operating system, None for an
      unsupported one. */
  function StartCommand(system: string, cfg: ZiniaoConfig): (cmd: Option<seq<string>>)
    ensures cmd.Some? <==> system in {"Windows", "Darwin", "Linux"}
  {
    var args := ["--run_type=web_driver", "--ipc_type=http", "--port=" + IntToString(cfg.socketPort)];
    if system == "Windows" then Some([cfg.clientPath] + args)
    else if system == "Darwin" then Some(["open", "-a", cfg.clientPath, "--args"] + args)
    else if system == "Linux" then Some([cfg.clientPath, "--no-sandbox"] + args)
    else None
  }

  /** Linux adds `--no-sandbox` after the executable; macOS hands the same
      arguments to `open -a <client> --args`. */
  lemma StartCommandsAgree(cfg: ZiniaoConfig)
    ensures var w := StartCommand("Windows", cfg).value;
            && StartCommand("Linux", cfg).value == w[..1] + ["--no-sandbox"] + w[1..]
            && StartCommand("Darwin", cfg).value == ["open", "-a"] + w[..1] + ["--args"] + w[1..]
            && w[0] == cfg.clientPath && w[3] == "--port=" + IntToString(cfg.socketPort)
  {
  }

  // ------------------------------------------------------------ the client

  class ZiniaoClient {
    const config: ZiniaoConfig
    /** `platform.system()` */
    const system: string
    const service: Service
    /** The launched client's command line (`self._process`). */
    var process: Option<seq<string>>
    /** Every API request body sent, in order (`requestId` is not kept). */
    ghost var requests: seq<map<string, Value>>

    constructor (config: ZiniaoConfig, system: string, service: Service)
      ensures this.config == config && this.system == system && this.service == service
      ensures process.None? && requests == []
    {
      this.config := config;
      this.system := system;
      this.service := service;
      process := None;
      requests := [];
    }

    /** `start_client`: launch the client with the command for this system
        and report whether it then answers the health check. */
    method StartClient() returns (ok: bool)
      modifies this`process
      ensures StartCommand(system, config).None? ==> !ok && process == old(process)
      ensures StartCommand(system, config).Some? && service.launchError.Some?
              ==> !ok && process == old(process)
      ensures StartCommand(system, config).Some? && service.launchError.None?
              ==> process == StartCommand(system, config) && ok == service.healthy
    {
      var cmd := StartCommand(system, config);
      if cmd.None? {
        return false;
      }
      if service.launchError.Some? {
        return false;
      }
      process := cmd;
      ok := service.healthy;
    }

    /** `_call_api`: the request with the credentials merged in. */
    method CallApi(payload: map<string, Value>) returns (r: Reply)
      modifies this`requests
      ensures r == service.answer(WithCredentials(payload, config))
      ensures requests == old(requests) + [WithCredentials(payload, config)]
    {
      var body := WithCredentials(payload, config);
      requests := requests + [body];
      r := service.answer(body);
    }

    /** `get_browser_list` */
    method GetBrowserList() returns (browsers: seq<BrowserInfo>)
      modifies this`requests
      ensures browsers == DecodeBrowserList(service.answer(WithCredentials(map["action" := VStr("getBrowserList")], config)))
      ensures requests == old(requests) + [WithCredentials(map["action" := VStr("getBrowserList")], config)]
    {
      var r := CallApi(map["action" := VStr("getBrowserList")]);
      browsers := [];
      if r.Unreachable? || !r.body.VDict? || !IsZero(FieldOr(r.body.entries, "statusCode", VNone)) {
        return;
      }
      var list := FieldOr(r.body.entries, "browserList", VList([]));
      if !list.VList? {
        return;
      }
      var items := list.items;
      var i := 0;
      while i < |items|
        invariant 0 <= i <= |items| && |browsers| == i
        invariant forall j :: 0 <= j < i ==> items[j].VDict? && Normal(browsers[j]) == DecodeBrowser(items[j])
      {
        var b := DecodeBrowser(items[i]);
        if b.Thrown? {
          browsers := [];
          return;
        }
        browsers := browsers + [b.value];
        i := i + 1;
      }
      var all := DecodeEntries(items);
      assert all.Normal?;
      assert forall j :: 0 <= j < |items| ==> all.value[j] == browsers[j];
    }

    /** The request `start_browser` sends. */
    static function StartRequest(browserId: string, headless: bool, downloadPath: Option<string>): map<string, Value>
    {
      var p := map["action" := VStr("startBrowser"), "browserId" := VStr(browserId),
                   "isHeadless" := VBool(headless)];
      if downloadPath.Some? && downloadPath.value != "" then p["forceDownloadPath" := VStr(downloadPath.value)]
      else p
    }

    /** `start_browser` */
    method StartBrowser(browserId: string, headless: bool, downloadPath: Option<string>)
      returns (r: StartBrowserResult)
      modifies this`requests
      ensures r == DecodeStart(service.answer(WithCredentials(StartRequest(browserId, headless, downloadPath), config)))
      ensures requests == old(requests) + [WithCredentials(StartRequest(browserId, headless, downloadPath), config)]
    {
      var reply := CallApi(StartRequest(browserId, headless, downloadPath));
      r := DecodeStart(reply);
    }

    /** `exit_client`: whether the provider acknowledged with status 0. */
    method ExitClient() returns (ok: bool)
      modifies this`requests
      ensures var reply := service.answer(WithCredentials(map["action" := VStr("exit")], config));
              ok <==> reply.Answer? && reply.body.VDict? && IsZero(FieldOr(reply.body.entries, "statusCode", VNone))
      ensures requests == old(requests) + [WithCredentials(map["action" := VStr("exit")], config)]
    {
      var reply := CallApi(map["action" := VStr("exit")]);
      ok := reply.Answer? && reply.body.VDict? && IsZero(FieldOr(reply.body.entries, "statusCode", VNone));
    }
  }
}
