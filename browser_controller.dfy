/**
 * The browser controller: a Selenium driver attached to a running browser
 * session through its debugging port, and the result record every action
 * returns.  The browser itself is outside the model; what it would answer is
 * a `Page`, a bundle of answer functions, and the controller turns those
 * answers into the sentinel values (False / None) or exceptions the
 * controller's methods promise.
 */
module BrowserControl {
  import opened Python
  import opened PyTime
  import opened Locators

  // ---------------------------------------------------------- action result

  /** One product row of a snapshot: its position in the listing, the
      trimmed cell texts (None where the cell could not be found; `name` is
      never empty), and the row's `data-product-id` attribute (None when
      reading it raised, so that the key is absent from the product dict).
      The product dict's "status" entry is always None and is not kept. */
  datatype Product = Product(
    index: int,
    name: string,
    sku: Option<string>,
    price: Option<string>,
    stock: Option<string>,
    productId: Option<Option<string>>)

  /** What `_parse_number` makes of a metric's text. `Float(literal, scale)`
      stands for `float(literal) * scale`; the floating-point value itself is
      not modelled. */
  datatype Number = NoNumber | Int(i: int) | Float(literal: string, scale: int) | Text(s: string)

  /** The `data` dict of a result, one constructor per shape an action
      returns. */
  datatype Data =
    | TitleDryRun(productId: Value, newTitle: Value)
    | TitleUpdated(productId: Value, beforeTitle: string, afterTitle: Value)
    | Snapshot(keyword: Value, count: int, products: seq<Product>)
    | AdsSummary(dateRange: Value, metrics: seq<(string, Number)>)

  /** The `evidence` dict the action template attaches. */
  datatype Evidence = BeforeAfter(beforePng: string, afterPng: string) | ErrorShot(errorPng: string)

  /** `ActionResult`: only `ok` and `action` are required; the other fields
      default to None. */
  datatype ActionResult = ActionResult(
    ok: bool,
    action: string,
    data: Option<Data>,
    errorCode: Option<string>,
    errorMessage: Option<string>,
    evidence: Option<Evidence>,
    timingMs: Option<int>)

  /** A result built from only its two required fields. */
  function Outcome(ok: bool, action: string): (r: ActionResult)
    ensures r.ok == ok && r.action == action
    ensures r.data.None? && r.errorCode.None? && r.errorMessage.None?
    ensures r.evidence.None? && r.timingMs.None?
  {
    ActionResult(ok, action, None, None, None, None, None)
  }

  /** A failed result with an error code and message; nothing else set. */
  function Failure(action: string, code: string, message: string): (r: ActionResult)
    ensures !r.ok && r.action == action
    ensures r.errorCode == Some(code) && r.errorMessage == Some(message)
    ensures r.data.None? && r.evidence.None? && r.timingMs.None?
  {
    Outcome(false, action).(errorCode := Some(code), errorMessage := Some(message))
  }

  /** A successful result carrying data; nothing else set. */
  function Success(action: string, data: Data): (r: ActionResult)
    ensures r.ok && r.action == action && r.data == Some(data)
    ensures r.errorCode.None? && r.errorMessage.None? && r.evidence.None? && r.timingMs.None?
  {
    Outcome(true, action).(data := Some(data))
  }

  // ------------------------------------------------------------ the browser

  /** How a wait for, or a lookup of, an element ends: found, not found
      (a timeout / NoSuchElementException), or some other exception. */
  datatype Probe = Present | Absent | Fails(msg: string)

  /** One listing row as the page shows it: the text of each cell (None when
      `find_element` for it raises) and what reading `data-product-id` gives
      (the attribute value, or the exception raised). */
  datatype Row = Row(
    name: Option<string>,
    sku: Option<string>,
    price: Option<string>,
    stock: Option<string>,
    productId: Except<Option<string>>)

  /** What the browser behind the debugging port answers.  Each field is the
      page's answer to one kind of driver call; an `Option<string>` that is
      Some is the text of the exception the call raises. */
  datatype Page = Page(
    connects: bool,                        // webdriver.Chrome(...) attaches
    quits: Option<string>,                 // driver.quit()
    loads: Option<string> -> bool,         // driver.get(url) returns
    clickable: Locator -> bool,            // wait until clickable, then click()
    typable: (Locator, Value) -> bool,     // wait for presence, clear(), send_keys(text)
    text: Locator -> Option<string>,       // wait for presence, then .text
    attribute: (Locator, string) -> Option<string>,
    presence: Locator -> Probe,            // WebDriverWait(...).until(presence_of_element_located)
    found: Locator -> Probe,               // driver.find_element
    keys: (Locator, Value) -> Option<string>, // element.send_keys(value) on the found element
    script: string -> Option<string>,      // driver.execute_script(script)
    scrolls: Locator -> bool,              // find_element + scrollIntoView
    rows: Locator -> Except<seq<Row>>,     // driver.find_elements
    shot: string -> Option<string>)        // driver.save_screenshot(path)

  /** The message of the AttributeError raised by using an attribute of None
      (a driver, a client or a store that was never set). */
  function NoneAttribute(attr: string): string
  {
    "'NoneType' object has no attribute '" + attr + "'"
  }

  /** The page as seen through a controller whose `driver` is None: every
      call that catches its exceptions returns its sentinel, every other
      call raises AttributeError. */
  function Detached(p: Page): (d: Page)
    ensures d.connects == p.connects
    ensures forall u :: !d.loads(u)
    ensures forall l :: !d.clickable(l) && d.text(l).None? && d.presence(l).Fails?
  {
    Page(
      p.connects,
      Some(NoneAttribute("quit")),
      _ => false,
      _ => false,
      (_, _) => false,
      _ => None,
      (_, _) => None,
      _ => Fails(NoneAttribute("find_element")),
      _ => Fails(NoneAttribute("find_element")),
      (_, _) => Some(NoneAttribute("send_keys")),
      _ => Some(NoneAttribute("execute_script")),
      _ => false,
      _ => Thrown(NoneAttribute("find_elements")),
      _ => Some(NoneAttribute("save_screenshot")))
  }

  /** A driver call as the browser sees it, in the order issued. */
  datatype Call =
    | Attached
    | Quit
    | Navigated(url: Option<string>)
    | Clicked(loc: Locator)
    | Typed(loc: Locator, text: Value)
    | ReadText(loc: Locator)
    | ReadAttr(loc: Locator, name: string)
    | Awaited(loc: Locator)
    | Checked(loc: Locator)
    | Pressed(loc: Locator, keys: Value)
    | Ran(script: string)
    | Scrolled(loc: Locator)
    | Listed(loc: Locator)
    | Shot(path: string)

  /** `os.path.join(dir, name)` on POSIX: an absolute name replaces the
      directory; otherwise a separator is added unless dir is empty or
      already ends in one. */
  function PathJoin(dir: string, name: string): (p: string)
    ensures StartsWith(name, "/") ==> p == name
    ensures !StartsWith(name, "/") ==> EndsWith(p, name) && StartsWith(p, dir)
  {
    if StartsWith(name, "/") then name
    else if dir == [] || dir[|dir| - 1] == '/' then dir + name
    else dir + "/" + name
  }

  /** The path `screenshot` saves to: `<dir>/<name>_<stamp>.png`. */
  function ShotPath(dir: string, name: string, stamp: string): string
  {
    PathJoin(dir, name + "_" + stamp + ".png")
  }

  /** What saving a screenshot to `path` gives: the path, or the driver's
      error raised. */
  function ShotAnswer(p: Page, path: string): (r: Except<string>)
    ensures r.Normal? <==> p.shot(path).None?
    ensures r.Normal? ==> r.value == path
    ensures r.Thrown? ==> r.msg == p.shot(path).value
  {
    if p.shot(path).None? then Normal(path) else Thrown(p.shot(path).value)
  }

  /** `screenshot_evidence` names the file after the run and the stage. */
  ghost predicate IsEvidencePath(dir: string, runId: string, stage: string, p: string)
  {
    exists stamp :: p == ShotPath(dir, runId + "_" + stage, stamp)
  }

  /** A run id that is not an absolute path (uuid4 text never is) puts its
      evidence inside the screenshot directory. */
  lemma EvidenceInDirectory(dir: string, runId: string, stage: string, stamp: string)
    requires !StartsWith(runId, "/")
    ensures StartsWith(ShotPath(dir, runId + "_" + stage, stamp), dir)
    ensures EndsWith(ShotPath(dir, runId + "_" + stage, stamp), ".png")
  {
    var name := runId + "_" + stage + "_" + stamp + ".png";
    assert name[0] != '/' by {
      if runId != [] {
        assert name[0] == runId[0] && runId[..1] == [runId[0]];
      }
    }
    assert name[..1] == [name[0]];
    var p := ShotPath(dir, runId + "_" + stage, stamp);
    assert EndsWith(p, name);
    assert p[|p| - 4..] == name[|name| - 4..];
  }

  /** `_get_default_driver_path`: the ChromeDriver for the session's core
      version under ./drivers, with ".exe" on Windows only. */
  function DefaultDriverPath(coreVersion: string, system: string): (p: string)
    ensures StartsWith(p, "./drivers/chromedriver_")
  {
    "./drivers/chromedriver_" + coreVersion + (if system == "Windows" then ".exe" else "")
  }

  /** The Windows path is the path elsewhere with ".exe" appended, and the
      version is what follows the fixed prefix. */
  lemma DriverPathPerSystem(coreVersion: string, system: string)
    ensures system != "Windows" ==> DefaultDriverPath(coreVersion, system)[23..] == coreVersion
    ensures DefaultDriverPath(coreVersion, "Windows") == DefaultDriverPath(coreVersion, system) + ".exe"
            <==> system != "Windows"
  {
    if system == "Windows" {
      assert |DefaultDriverPath(coreVersion, "Windows")| != |DefaultDriverPath(coreVersion, system) + ".exe"|;
    }
  }

  // ----------------------------------------------------------- the controller

  class BrowserController {
    const debuggingPort: int
    const coreVersion: string
    const driverPath: string
    /** `agent_config.screenshot_dir` */
    const screenshotDir: string
    /** What the browser session at `debuggingPort` answers. */
    const page: Page
    /** `self.driver is not None` */
    var connected: bool
    /** Every driver call issued through this controller, in order. */
    ghost var calls: seq<Call>

    /** The page as this controller currently reaches it. */
    function View(): Page
      reads this`connected
    {
      if connected then page else Detached(page)
    }

    /** `BrowserController(port, core_version, driver_path)`: no driver yet;
        an empty or missing driver path means the default one. */
    constructor (port: int, coreVersion: string, driverPath: Option<string>, system: string,
                 screenshotDir: string, page: Page)
      ensures this.debuggingPort == port && this.coreVersion == coreVersion
      ensures driverPath.Some? && driverPath.value != "" ==> this.driverPath == driverPath.value
      ensures driverPath.None? || driverPath.value == "" ==> this.driverPath == DefaultDriverPath(coreVersion, system)
      ensures this.screenshotDir == screenshotDir && this.page == page
      ensures !connected && calls == []
    {
      debuggingPort := port;
      this.coreVersion := coreVersion;
      this.driverPath := if driverPath.Some? && driverPath.value != "" then driverPath.value
                         else DefaultDriverPath(coreVersion, system);
      this.screenshotDir := screenshotDir;
      this.page := page;
      connected := false;
      calls := [];
    }

    /** `connect`: attach a driver to the debugging port; a failure is
        reported as False and leaves any earlier driver in place. */
    method Connect() returns (ok: bool)
      modifies this
      ensures ok == page.connects
      ensures connected == (old(connected) || ok)
      ensures calls == old(calls) + [Attached]
    {
      calls := calls + [Attached];
      ok := page.connects;
      if ok {
        connected := true;
      }
    }

    /** `disconnect`: quit and drop the driver, only when there is one.  An
        error from quit() escapes and the driver stays. */
    method Disconnect() returns (err: Option<string>)
      modifies this
      ensures !old(connected) ==> err.None? && !connected && calls == old(calls)
      ensures old(connected) ==> err == page.quits && calls == old(calls) + [Quit]
      ensures old(connected) ==> connected == err.Some?
    {
      err := None;
      if connected {
        calls := calls + [Quit];
        err := page.quits;
        if err.None? {
          connected := false;
        }
      }
    }

    /** `navigate`: False instead of any exception. */
    method Navigate(url: Option<string>) returns (ok: bool)
      modifies this`calls
      ensures ok == View().loads(url)
      ensures calls == old(calls) + [Navigated(url)]
    {
      calls := calls + [Navigated(url)];
      ok := View().loads(url);
    }

    /** `wait_for_element`: the element, or None on a timeout only; any
        other exception escapes. */
    method WaitForElement(loc: Locator) returns (r: Probe)
      modifies this`calls
      ensures r == View().presence(loc)
      ensures calls == old(calls) + [Awaited(loc)]
    {
      calls := calls + [Awaited(loc)];
      r := View().presence(loc);
    }

    /** `wait_and_click`: False instead of any exception. */
    method WaitAndClick(loc: Locator) returns (ok: bool)
      modifies this`calls
      ensures ok == View().clickable(loc)
      ensures calls == old(calls) + [Clicked(loc)]
    {
      calls := calls + [Clicked(loc)];
      ok := View().clickable(loc);
    }

    /** `safe_send_keys`: False instead of any exception. */
    method SafeSendKeys(loc: Locator, text: Value) returns (ok: bool)
      modifies this`calls
      ensures ok == View().typable(loc, text)
      ensures calls == old(calls) + [Typed(loc, text)]
    {
      calls := calls + [Typed(loc, text)];
      ok := View().typable(loc, text);
    }

    /** `get_text`: None instead of any exception. */
    method GetText(loc: Locator) returns (r: Option<string>)
      modifies this`calls
      ensures r == View().text(loc)
      ensures calls == old(calls) + [ReadText(loc)]
    {
      calls := calls + [ReadText(loc)];
      r := View().text(loc);
    }

    /** `get_attribute`: None instead of any exception. */
    method GetAttribute(loc: Locator, name: string) returns (r: Option<string>)
      modifies this`calls
      ensures r == View().attribute(loc, name)
      ensures calls == old(calls) + [ReadAttr(loc, name)]
    {
      calls := calls + [ReadAttr(loc, name)];
      r := View().attribute(loc, name);
    }

    /** `element.send_keys(keys)` on the element `wait_for_element` found;
        its exceptions escape. */
    method SendKeysToElement(loc: Locator, keys: Value) returns (err: Option<string>)
      modifies this`calls
      ensures err == View().keys(loc, keys)
      ensures calls == old(calls) + [Pressed(loc, keys)]
    {
      calls := calls + [Pressed(loc, keys)];
      err := View().keys(loc, keys);
    }

    /** `screenshot(name)`: saves `<screenshot_dir>/<name>_<timestamp>.png`
        and returns the path; a driver error escapes.  The path is also
        handed back as a ghost, whatever the outcome. */
    method Screenshot(name: string, clock: WallClock) returns (r: Except<string>, ghost path: string)
      modifies this`calls, clock
      ensures exists stamp :: path == ShotPath(screenshotDir, name, stamp)
      ensures calls == old(calls) + [Shot(path)] && r == ShotAnswer(View(), path)
      ensures old(clock.ms) <= clock.ms
    {
      var stamp := clock.Stamp();
      var filepath := ShotPath(screenshotDir, name, stamp);
      path := filepath;
      calls := calls + [Shot(filepath)];
      var err := View().shot(filepath);
      if err.Some? {
        r := Thrown(err.value);
      } else {
        r := Normal(filepath);
      }
    }

    /** `screenshot_evidence(run_id, stage)`: a screenshot named after the
        run and the stage. */
    method ScreenshotEvidence(runId: string, stage: string, clock: WallClock)
      returns (r: Except<string>, ghost path: string)
      modifies this`calls, clock
      ensures IsEvidencePath(screenshotDir, runId, stage, path)
      ensures calls == old(calls) + [Shot(path)] && r == ShotAnswer(View(), path)
      ensures old(clock.ms) <= clock.ms
    {
      r, path := Screenshot(runId + "_" + stage, clock);
    }

    /** `execute_script(script)`: the driver's exceptions escape. */
    method ExecuteScript(script: string) returns (err: Option<string>)
      modifies this`calls
      ensures err == View().script(script)
      ensures calls == old(calls) + [Ran(script)]
    {
      calls := calls + [Ran(script)];
      err := View().script(script);
    }

    /** `check_element_exists`: False only for NoSuchElementException; any
        other exception escapes. */
    method CheckElementExists(loc: Locator) returns (r: Probe)
      modifies this`calls
      ensures r == View().found(loc)
      ensures calls == old(calls) + [Checked(loc)]
    {
      calls := calls + [Checked(loc)];
      r := View().found(loc);
    }

    /** `scroll_to_element`: False instead of any exception. */
    method ScrollToElement(loc: Locator) returns (ok: bool)
      modifies this`calls
      ensures ok == View().scrolls(loc)
      ensures calls == old(calls) + [Scrolled(loc)]
    {
      calls := calls + [Scrolled(loc)];
      ok := View().scrolls(loc);
    }

    /** `driver.find_elements(*loc)`, which the listing extraction calls on
        the driver directly; its exceptions escape. */
    method FindElements(loc: Locator) returns (r: Except<seq<Row>>)
      modifies this`calls
      ensures r == View().rows(loc)
      ensures calls == old(calls) + [Listed(loc)]
    {
      calls := calls + [Listed(loc)];
      r := View().rows(loc);
    }
  }
}
