/**
 * The template every action runs through (`BaseAction.execute`): load the
 * site's locators, take a `before` screenshot when there is a store, run
 * the action, take an `after` screenshot and attach the evidence when the
 * action succeeded, and turn an exception into an EXCEPTION result with an
 * `error` screenshot.  `Executed` states what the template makes of the
 * action's outcome and the screenshots' outcomes; `Action.Execute` is
 * proved to do just that.
 */
module ActionTemplate {
  import opened Python
  import opened PyTime
  import opened Locators
  import opened BrowserControl
  import opened SupabaseStore
  import opened ActionBase
  import opened Registry
  import UpdateTitle
  import ProductSnapshot
  import AdsCenter

  /** `_do_action` of each class, on a page. */
  function Inner(c: ActionClass, t: Table, p: Page, ctx: ActionContext, payload: Payload)
    : Traced<Except<ActionResult>>
    requires ActionTable(t)
  {
    match c
    case FetchAdsSummaryAction => AdsCenter.AdsOutcome(t, p, payload)
    case UpdateTitleAction => UpdateTitle.TitleOutcome(t, p, ctx, payload, false)
    case FetchProductSnapshotAction => ProductSnapshot.SnapshotOutcome(t, p, payload)
  }

  /** Where the before, after and error screenshots go (or would go). */
  datatype ShotPaths = ShotPaths(before: string, after: string, error: string)

  /** Each path is named after the run and its stage. */
  ghost predicate EvidencePaths(dir: string, runId: string, paths: ShotPaths)
  {
    && IsEvidencePath(dir, runId, "before", paths.before)
    && IsEvidencePath(dir, runId, "after", paths.after)
    && IsEvidencePath(dir, runId, "error", paths.error)
  }

  /** What a run of the template leaves: the result returned (or the
      exception escaping), the driver calls issued, and the artifact rows
      recorded. */
  datatype Run = Run(result: Except<ActionResult>, calls: seq<Call>, records: seq<ArtifactRow>)

  /** The rows' insertions, as the store logs them. */
  function Inserts(rows: seq<ArtifactRow>): (ws: seq<Write>)
    ensures |ws| == |rows|
    ensures forall i :: 0 <= i < |rows| ==> ws[i] == ArtifactInserted(rows[i].runId, rows[i].kind)
  {
    if rows == [] then [] else [ArtifactInserted(rows[0].runId, rows[0].kind)] + Inserts(rows[1..])
  }

  lemma InsertsAppend(a: seq<ArtifactRow>, b: seq<ArtifactRow>)
    ensures Inserts(a + b) == Inserts(a) + Inserts(b)
  {
  }

  /** The result synthesised for an exception: not ok, code EXCEPTION, the
      exception's text, the error screenshot as evidence when there is a
      non-empty path, and the timing. */
  function ExceptionResult(name: string, msg: string, png: Option<string>, timing: int): (r: ActionResult)
    ensures !r.ok && r.action == name && r.data.None?
    ensures r.errorCode == Some("EXCEPTION") && r.errorMessage == Some(msg)
    ensures r.evidence.Some? <==> png.Some? && png.value != ""
    ensures r.evidence.Some? ==> r.evidence.value == ErrorShot(png.value)
    ensures r.timingMs == Some(timing)
  {
    ActionResult(false, name, None, Some("EXCEPTION"), Some(msg),
                 if png.Some? && png.value != "" then Some(ErrorShot(png.value)) else None, Some(timing))
  }

  /** The `except` branch: with a store, an error screenshot (whose own
      failure escapes) and its record, then the EXCEPTION result. */
  function Caught(name: string, msg: string, hasStore: bool, p: Page, runId: string, path: string,
                  timing: int): (o: Run)
    ensures o.result.Thrown? <==> hasStore && p.shot(path).Some?
    ensures o.result.Normal? ==>
              o.result.value == ExceptionResult(name, msg, if hasStore then Some(path) else None, timing)
    ensures o.calls == if hasStore then [Shot(path)] else []
    ensures o.records == if hasStore && p.shot(path).None? then [ArtifactRow(runId, Error, "local://" + path)] else []
  {
    if !hasStore then Run(Normal(ExceptionResult(name, msg, None, timing)), [], [])
    else
      var shot := ShotAnswer(p, path);
      if shot.Thrown? then Run(Thrown(shot.msg), [Shot(path)], [])
      else Run(Normal(ExceptionResult(name, msg, Some(path), timing)), [Shot(path)],
               [ArtifactRow(runId, Error, "local://" + path)])
  }

  /** Everything after `_do_action` has returned or raised: a successful
      result with a store gets the after screenshot, its record and the
      evidence (a failure of that screenshot is caught like an exception
      of the action); every result returned gets the timing. */
  function Finish(name: string, hasStore: bool, p: Page, runId: string, inner: Except<ActionResult>,
                  paths: ShotPaths, timing: int): Run
  {
    if inner.Thrown? then Caught(name, inner.msg, hasStore, p, runId, paths.error, timing)
    else if hasStore && inner.value.ok then
      var after := ShotAnswer(p, paths.after);
      if after.Thrown? then
        var c := Caught(name, after.msg, hasStore, p, runId, paths.error, timing);
        Run(c.result, [Shot(paths.after)] + c.calls, c.records)
      else
        Run(Normal(inner.value.(evidence := Some(BeforeAfter(paths.before, paths.after)), timingMs := Some(timing))),
            [Shot(paths.after)], [ArtifactRow(runId, After, "local://" + paths.after)])
    else Run(Normal(inner.value.(timingMs := Some(timing))), [], [])
  }

  /** The shape of what follows the action: a result returned always has
      the timing, a failed result is passed on as it is, a successful one
      gets the after screenshot and the evidence when there is a store, and
      an exception is caught. */
  lemma FinishShape(name: string, hasStore: bool, p: Page, runId: string, inner: Except<ActionResult>,
                    paths: ShotPaths, timing: int)
    ensures var o := Finish(name, hasStore, p, runId, inner, paths, timing);
      && (o.result.Normal? ==> o.result.value.timingMs == Some(timing))
      && (inner.Normal? && !inner.value.ok ==> o == Run(Normal(inner.value.(timingMs := Some(timing))), [], []))
      && (inner.Normal? && inner.value.ok && !hasStore ==>
            o == Run(Normal(inner.value.(timingMs := Some(timing))), [], []))
      && (inner.Normal? && inner.value.ok && hasStore && p.shot(paths.after).None? ==>
            o == Run(Normal(inner.value.(evidence := Some(BeforeAfter(paths.before, paths.after)),
                                          timingMs := Some(timing))),
                     [Shot(paths.after)], [ArtifactRow(runId, After, "local://" + paths.after)]))
      && (o.result.Normal? && o.result.value.ok ==> inner.Normal? && inner.value.ok)
      && (inner.Thrown? ==> o == Caught(name, inner.msg, hasStore, p, runId, paths.error, timing))
  {
  }

  /** `execute`, given what the action does on the page and where the
      screenshots go. */
  function Executed(name: string, hasStore: bool, p: Page, runId: string, inner: Traced<Except<ActionResult>>,
                    paths: ShotPaths, timing: int): Run
  {
    if !hasStore then
      var f := Finish(name, false, p, runId, inner.value, paths, timing);
      Run(f.result, inner.calls + f.calls, f.records)
    else
      var before := ShotAnswer(p, paths.before);
      if before.Thrown? then Run(Thrown(before.msg), [Shot(paths.before)], [])
      else
        var f := Finish(name, true, p, runId, inner.value, paths, timing);
        Run(f.result, [Shot(paths.before)] + inner.calls + f.calls,
            [ArtifactRow(runId, Before, "local://" + paths.before)] + f.records)
  }

  /** The shape of a run of the template. */
  lemma ExecutedShape(name: string, hasStore: bool, p: Page, runId: string, inner: Traced<Except<ActionResult>>,
                      paths: ShotPaths, timing: int)
    ensures var o := Executed(name, hasStore, p, runId, inner, paths, timing);
            // without a store nothing is recorded and no screenshot is taken
            && (!hasStore ==> o.records == [] && o.calls == inner.calls)
            // with a store the before screenshot comes first; its failure
            // escapes before the action runs
            && (hasStore ==> o.calls != [] && o.calls[0] == Shot(paths.before))
            && (hasStore && p.shot(paths.before).Some? ==>
                  o == Run(Thrown(p.shot(paths.before).value), [Shot(paths.before)], []))
            && (hasStore && p.shot(paths.before).None? ==>
                  && o.records != [] && o.records[0] == ArtifactRow(runId, Before, "local://" + paths.before)
                  && |o.calls| >= 1 + |inner.calls| && o.calls[1..1 + |inner.calls|] == inner.calls)
            // every result returned carries the timing
            && (o.result.Normal? ==> o.result.value.timingMs == Some(timing))
            // an ok result is the action's own, with the evidence attached
            // when there is a store: the template sets no error code on it
            && (o.result.Normal? && o.result.value.ok ==>
                  && inner.value.Normal? && inner.value.value.ok
                  && o.result.value == inner.value.value.(
                       evidence := if hasStore then Some(BeforeAfter(paths.before, paths.after))
                                   else inner.value.value.evidence,
                       timingMs := Some(timing)))
  {
    var o := Executed(name, hasStore, p, runId, inner, paths, timing);
    if hasStore && p.shot(paths.before).None? {
      var f := Finish(name, true, p, runId, inner.value, paths, timing);
      assert o.calls == [Shot(paths.before)] + inner.calls + f.calls;
      assert o.calls[1..1 + |inner.calls|] == inner.calls;
    }
  }

  /** Whether the rows hold one of the given kind. */
  predicate Recorded(rows: seq<ArtifactRow>, kind: ArtifactType)
  {
    exists i :: 0 <= i < |rows| && rows[i].kind == kind
  }

  /** An after artifact is recorded, and the before/after evidence set,
      exactly when there is a store, the before screenshot was saved, the
      action returned an ok result, and the after screenshot was saved. */
  lemma AfterRecordedExactly(name: string, hasStore: bool, p: Page, runId: string,
                             inner: Traced<Except<ActionResult>>, paths: ShotPaths, timing: int)
    ensures var o := Executed(name, hasStore, p, runId, inner, paths, timing);
            Recorded(o.records, After)
            <==> hasStore && p.shot(paths.before).None? && inner.value.Normal? && inner.value.value.ok
                 && p.shot(paths.after).None?
  {
    var o := Executed(name, hasStore, p, runId, inner, paths, timing);
    if hasStore && p.shot(paths.before).None? {
      var f := Finish(name, true, p, runId, inner.value, paths, timing);
      assert o.records == [ArtifactRow(runId, Before, "local://" + paths.before)] + f.records;
      if Recorded(o.records, After) {
        var i :| 0 <= i < |o.records| && o.records[i].kind == After;
        assert f.records[i - 1].kind == After;
      }
      if inner.value.Normal? && inner.value.value.ok && p.shot(paths.after).None? {
        assert o.records[1].kind == After;
      }
    }
  }

  /** When the action raises, the result is the EXCEPTION result (unless,
      with a store, the error screenshot itself fails, and that exception
      escapes); the error artifact is recorded exactly when that screenshot
      was saved. */
  lemma ExceptionOutcome(name: string, hasStore: bool, p: Page, runId: string,
                         inner: Traced<Except<ActionResult>>, paths: ShotPaths, timing: int)
    requires inner.value.Thrown?
    requires !hasStore || p.shot(paths.before).None?
    ensures var o := Executed(name, hasStore, p, runId, inner, paths, timing);
            && (o.result.Thrown? <==> hasStore && p.shot(paths.error).Some?)
            && (o.result.Normal? ==>
                  o.result.value == ExceptionResult(name, inner.value.msg, if hasStore then Some(paths.error) else None, timing))
            && (Recorded(o.records, Error) <==> hasStore && p.shot(paths.error).None?)
            && !Recorded(o.records, After)
  {
    var o := Executed(name, hasStore, p, runId, inner, paths, timing);
    var c := Caught(name, inner.value.msg, hasStore, p, runId, paths.error, timing);
    if hasStore {
      assert o.records == [ArtifactRow(runId, Before, "local://" + paths.before)] + c.records;
      if hasStore && p.shot(paths.error).None? {
        assert o.records[1].kind == Error;
      }
    }
    assert forall i :: 1 <= i < |o.records| ==> o.records[i].kind == Error;
  }

  /** A failing after screenshot turns a successful action into an
      EXCEPTION result carrying the screenshot's error. */
  lemma AfterShotFailure(name: string, p: Page, runId: string,
                         inner: Traced<Except<ActionResult>>, paths: ShotPaths, timing: int)
    requires inner.value.Normal? && inner.value.value.ok
    requires p.shot(paths.before).None? && p.shot(paths.after).Some?
    ensures var o := Executed(name, true, p, runId, inner, paths, timing);
            && (o.result.Thrown? <==> p.shot(paths.error).Some?)
            && (o.result.Normal? ==>
                  o.result.value == ExceptionResult(name, p.shot(paths.after).value, Some(paths.error), timing))
  {
  }

  /** An action object: its class, the browser and the optional store it
      was made with, and the locators and start time `execute` sets. */
  class Action {
    const actionClass: ActionClass
    const browser: BrowserController
    const store: TaskStore?
    var locators: Table
    /** `time.time()` at the start of the last `execute`, in ms. */
    var startTime: int

    constructor (actionClass: ActionClass, browser: BrowserController, store: TaskStore?)
      ensures this.actionClass == actionClass && this.browser == browser && this.store == store
      ensures locators == map[] && startTime == 0
    {
      this.actionClass := actionClass;
      this.browser := browser;
      this.store := store;
      locators := map[];
      startTime := 0;
    }

    /** `set_site`: the site's table is loaded.  (The equation is stated for
        every code equal to the site, so that a caller unfolds the tables
        only when it asks about them.) */
    method SetSite(site: string)
      modifies this`locators
      ensures forall s :: s == site ==> locators == GetLocators(s)
      ensures ActionTable(locators)
    {
      locators := GetLocators(site);
      SiteTablesFitActions(site);
    }

    /** `_do_action`, dispatched on the class. */
    method DoAction(context: ActionContext, payload: Payload)
      returns (r: Except<ActionResult>, ghost acted: Traced<Except<ActionResult>>)
      requires ActionTable(locators)
      modifies browser`calls
      ensures acted == Inner(actionClass, locators, browser.View(), context, payload)
      ensures r == acted.value && browser.calls == old(browser.calls) + acted.calls
    {
      acted := Inner(actionClass, locators, browser.View(), context, payload);
      match actionClass
      case FetchAdsSummaryAction =>
        r := AdsCenter.DoAction(browser, locators, payload);
      case UpdateTitleAction =>
        r := UpdateTitle.DoAction(browser, locators, context, payload, false);
      case FetchProductSnapshotAction =>
        r := ProductSnapshot.DoAction(browser, locators, payload);
    }

    /** The store, when there is one, gained these artifact rows and
        nothing else changed in it. */
    twostate predicate StoreGained(rows: seq<ArtifactRow>)
      reads this, store
    {
      store != null ==>
        && store.artifacts == old(store.artifacts) + rows
        && store.log == old(store.log) + Inserts(rows)
        && store.tasks == old(store.tasks) && store.runs == old(store.runs) && store.now == old(store.now)
    }

    /** `execute(context, payload)`: the locators of the context's site
        are loaded first, then the template runs as `Executed` says, with
        the timing measured on a clock that never goes back.  (The table and
        the action's outcome are quantified as in SetSite, for the same
        reason.) */
    method Execute(context: ActionContext, payload: Payload, clock: WallClock)
      returns (r: Except<ActionResult>, ghost paths: ShotPaths, timing: int, ghost acted: Traced<Except<ActionResult>>)
      modifies this`locators, this`startTime, browser`calls, clock, store
      ensures forall s :: s == context.site ==> locators == GetLocators(s)
      ensures ActionTable(locators)
      ensures old(clock.ms) <= startTime <= clock.ms && timing >= 0
      ensures r.Normal? ==> timing == clock.ms - startTime
      ensures EvidencePaths(browser.screenshotDir, context.runId, paths)
      ensures forall t :: t == locators ==> acted == Inner(actionClass, t, browser.View(), context, payload)
      ensures var o := Executed(ActionName(actionClass), store != null, browser.View(), context.runId,
                                acted, paths, timing);
              r == o.result && browser.calls == old(browser.calls) + o.calls && StoreGained(o.records)
    {
      var start := clock.Now();
      startTime := start;
      SetSite(context.site);
      r, paths, timing, acted := Run(context, payload, clock, start);
    }

    /** The template once the locators are loaded: the before screenshot,
        outside the try block, and then the action. */
    method Run(context: ActionContext, payload: Payload, clock: WallClock, start: int)
      returns (r: Except<ActionResult>, ghost paths: ShotPaths, timing: int, ghost acted: Traced<Except<ActionResult>>)
      requires ActionTable(locators) && start <= clock.ms
      modifies browser`calls, clock, store
      ensures old(clock.ms) <= clock.ms && timing >= 0
      ensures r.Normal? ==> timing == clock.ms - start
      ensures EvidencePaths(browser.screenshotDir, context.runId, paths)
      ensures forall t :: t == locators ==> acted == Inner(actionClass, t, browser.View(), context, payload)
      ensures var o := Executed(ActionName(actionClass), store != null, browser.View(), context.runId,
                                acted, paths, timing);
              r == o.result && browser.calls == old(browser.calls) + o.calls && StoreGained(o.records)
    {
      var runId := context.runId;
      var dir := browser.screenshotDir;
      paths := ShotPaths(ShotPath(dir, runId + "_" + "before", ""), ShotPath(dir, runId + "_" + "after", ""),
                         ShotPath(dir, runId + "_" + "error", ""));
      timing := 0;
      ghost var calls0 := browser.calls;
      var before;
      before, paths := Open(runId, clock, paths);
      if before.Thrown? {
        acted := Inner(actionClass, locators, browser.View(), context, payload);
        return Thrown(before.msg), paths, timing, acted;
      }
      r, paths, timing, acted := Act(context, payload, before.value, clock, start, paths);
      ghost var inner := acted;
      ghost var f := Finish(ActionName(actionClass), store != null, browser.View(), runId, inner.value, paths, timing);
      if store == null {
        Regroup(calls0, inner.calls, f.calls);
      } else {
        ghost var row := ArtifactRow(runId, Before, "local://" + paths.before);
        InsertsAppend([row], f.records);
        Regroup(calls0, [Shot(paths.before)], inner.calls);
        Regroup(calls0, [Shot(paths.before)] + inner.calls, f.calls);
        Regroup(old(store.artifacts), [row], f.records);
        Regroup(old(store.log), Inserts([row]), Inserts(f.records));
        assert store.artifacts == old(store.artifacts) + ([row] + f.records);
        assert store.log == old(store.log) + Inserts([row] + f.records);
      }
    }

    /** With a store, the before screenshot and its record; its failure
        escapes.  Without one, nothing. */
    method Open(runId: string, clock: WallClock, ghost paths: ShotPaths)
      returns (before: Except<string>, ghost paths': ShotPaths)
      requires EvidencePaths(browser.screenshotDir, runId, paths)
      modifies browser`calls, clock, store
      ensures old(clock.ms) <= clock.ms
      ensures paths' == paths.(before := paths'.before) && EvidencePaths(browser.screenshotDir, runId, paths')
      ensures store == null ==> before == Normal("") && browser.calls == old(browser.calls) && StoreGained([])
      ensures store != null ==>
                && before == ShotAnswer(browser.View(), paths'.before)
                && browser.calls == old(browser.calls) + [Shot(paths'.before)]
                && StoreGained(if before.Normal? then [ArtifactRow(runId, Before, "local://" + paths'.before)] else [])
    {
      paths' := paths;
      before := Normal("");
      if store != null {
        before, paths' := TakeShot(runId, "before", clock, paths');
        if before.Normal? {
          store.SaveArtifactRecord(runId, Before, before.value);
        }
      }
    }

    /** The try block from `_do_action` on, and the except block. */
    method Act(context: ActionContext, payload: Payload, beforePng: string, clock: WallClock, start: int,
               ghost paths: ShotPaths)
      returns (r: Except<ActionResult>, ghost paths': ShotPaths, timing: int,
               ghost acted: Traced<Except<ActionResult>>)
      requires ActionTable(locators) && start <= clock.ms
      requires EvidencePaths(browser.screenshotDir, context.runId, paths)
      requires store != null ==> beforePng == paths.before
      modifies browser`calls, clock, store
      ensures paths'.before == paths.before && EvidencePaths(browser.screenshotDir, context.runId, paths')
      ensures old(clock.ms) <= clock.ms && timing >= 0
      ensures r.Normal? ==> timing == clock.ms - start
      ensures acted == Inner(actionClass, locators, browser.View(), context, payload)
      ensures var f := Finish(ActionName(actionClass), store != null, browser.View(), context.runId, acted.value,
                              paths', timing);
              r == f.result && browser.calls == old(browser.calls) + acted.calls + f.calls && StoreGained(f.records)
    {
      ghost var calls1 := browser.calls;
      var result;
      result, acted := DoAction(context, payload);
      r, paths', timing := Conclude(context.runId, result, beforePng, clock, start, paths);
      ghost var f := Finish(ActionName(actionClass), store != null, browser.View(), context.runId, result, paths', timing);
      Regroup(calls1, acted.calls, f.calls);
    }

    /** The rest of the try block and the except block, once `_do_action`
        has returned or raised. */
    method Conclude(runId: string, inner: Except<ActionResult>, beforePng: string, clock: WallClock, start: int,
                    ghost paths: ShotPaths)
      returns (r: Except<ActionResult>, ghost paths': ShotPaths, timing: int)
      requires EvidencePaths(browser.screenshotDir, runId, paths)
      requires store != null ==> beforePng == paths.before
      requires start <= clock.ms
      modifies browser`calls, clock, store
      ensures paths'.before == paths.before && EvidencePaths(browser.screenshotDir, runId, paths')
      ensures old(clock.ms) <= clock.ms && timing >= 0
      ensures r.Normal? ==> timing == clock.ms - start
      ensures var o := Finish(ActionName(actionClass), store != null, browser.View(), runId, inner, paths', timing);
              r == o.result && browser.calls == old(browser.calls) + o.calls && StoreGained(o.records)
    {
      var name := ActionName(actionClass);
      paths' := paths;
      if inner.Thrown? {
        r, paths', timing := Recover(runId, inner.msg, clock, start, paths');
        return;
      }
      if store != null && inner.value.ok {
        r, paths', timing := ConcludeStored(runId, inner.value, beforePng, clock, start, paths');
        return;
      }
      var end := clock.Now();
      timing := end - start;
      r := Normal(inner.value.(timingMs := Some(timing)));
    }

    /** The rest of the try block for a successful result with a store: the
        after screenshot, its record and the evidence pair. */
    method ConcludeStored(runId: string, value: ActionResult, beforePng: string, clock: WallClock, start: int,
                          ghost paths: ShotPaths)
      returns (r: Except<ActionResult>, ghost paths': ShotPaths, timing: int)
      requires store != null && value.ok
      requires EvidencePaths(browser.screenshotDir, runId, paths)
      requires beforePng == paths.before
      requires start <= clock.ms
      modifies browser`calls, clock, store
      ensures paths'.before == paths.before && EvidencePaths(browser.screenshotDir, runId, paths')
      ensures old(clock.ms) <= clock.ms && timing >= 0
      ensures r.Normal? ==> timing == clock.ms - start
      ensures var o := Finish(ActionName(actionClass), true, browser.View(), runId, Normal(value), paths', timing);
              r == o.result && browser.calls == old(browser.calls) + o.calls && StoreGained(o.records)
    {
      var shot;
      shot, paths' := TakeShot(runId, "after", clock, paths);
      if shot.Thrown? {
        r, paths', timing := Recover(runId, shot.msg, clock, start, paths');
        return;
      }
      r, timing := RecordAfter(runId, value, beforePng, shot.value, clock, start);
    }

    /** Once the after screenshot is saved: its record, then the result
        with the evidence pair and the timing on the clock. */
    method RecordAfter(runId: string, value: ActionResult, beforePng: string, after: string, clock: WallClock,
                       start: int)
      returns (r: Except<ActionResult>, timing: int)
      requires store != null && start <= clock.ms
      modifies clock, store
      ensures old(clock.ms) <= clock.ms && timing == clock.ms - start && timing >= 0
      ensures r == Normal(value.(evidence := Some(BeforeAfter(beforePng, after)), timingMs := Some(timing)))
      ensures StoreGained([ArtifactRow(runId, After, "local://" + after)])
    {
      store.SaveArtifactRecord(runId, After, after);
      var end := clock.Now();
      timing := end - start;
      r := Normal(value.(evidence := Some(BeforeAfter(beforePng, after)), timingMs := Some(timing)));
    }

    /** The except block: with a store the error screenshot, whose own
        failure escapes, and its record; then the EXCEPTION result. */
    method Recover(runId: string, msg: string, clock: WallClock, start: int, ghost paths: ShotPaths)
      returns (r: Except<ActionResult>, ghost paths': ShotPaths, timing: int)
      requires EvidencePaths(browser.screenshotDir, runId, paths)
      requires start <= clock.ms
      modifies browser`calls, clock, store
      ensures paths' == paths.(error := paths'.error) && EvidencePaths(browser.screenshotDir, runId, paths')
      ensures old(clock.ms) <= clock.ms && timing >= 0
      ensures r.Normal? ==> timing == clock.ms - start
      ensures var o := Caught(ActionName(actionClass), msg, store != null, browser.View(), runId, paths'.error, timing);
              r == o.result && browser.calls == old(browser.calls) + o.calls && StoreGained(o.records)
    {
      if store == null {
        paths' := paths;
        var end := clock.Now();
        timing := end - start;
        r := Normal(ExceptionResult(ActionName(actionClass), msg, None, timing));
      } else {
        r, paths', timing := RecoverStored(runId, msg, clock, start, paths);
      }
    }

    /** The except block with a store: the error screenshot and its record. */
    method RecoverStored(runId: string, msg: string, clock: WallClock, start: int, ghost paths: ShotPaths)
      returns (r: Except<ActionResult>, ghost paths': ShotPaths, timing: int)
      requires store != null
      requires EvidencePaths(browser.screenshotDir, runId, paths)
      requires start <= clock.ms
      modifies browser`calls, clock, store
      ensures paths' == paths.(error := paths'.error) && EvidencePaths(browser.screenshotDir, runId, paths')
      ensures old(clock.ms) <= clock.ms && timing >= 0
      ensures r.Normal? ==> timing == clock.ms - start
      ensures var o := Caught(ActionName(actionClass), msg, true, browser.View(), runId, paths'.error, timing);
              r == o.result && browser.calls == old(browser.calls) + o.calls && StoreGained(o.records)
    {
      var shot;
      timing := 0;
      shot, paths' := TakeShot(runId, "error", clock, paths);
      if shot.Thrown? {
        return Thrown(shot.msg), paths', timing;
      }
      r, timing := RecordError(runId, msg, shot.value, clock, start);
    }

    /** The end of the except block once the error screenshot is saved: its
        record, then the EXCEPTION result timed on the clock. */
    method RecordError(runId: string, msg: string, shot: string, clock: WallClock, start: int)
      returns (r: Except<ActionResult>, timing: int)
      requires store != null && start <= clock.ms
      modifies clock, store
      ensures old(clock.ms) <= clock.ms && timing == clock.ms - start && timing >= 0
      ensures r == Normal(ExceptionResult(ActionName(actionClass), msg, Some(shot), timing))
      ensures StoreGained([ArtifactRow(runId, Error, "local://" + shot)])
    {
      store.SaveArtifactRecord(runId, Error, shot);
      var end := clock.Now();
      timing := end - start;
      r := Normal(ExceptionResult(ActionName(actionClass), msg, Some(shot), timing));
    }

    /** One screenshot of the template, its path put in its stage's place. */
    method TakeShot(runId: string, stage: string, clock: WallClock, ghost paths: ShotPaths)
      returns (shot: Except<string>, ghost paths': ShotPaths)
      requires stage in {"before", "after", "error"}
      requires EvidencePaths(browser.screenshotDir, runId, paths)
      modifies browser`calls, clock
      ensures old(clock.ms) <= clock.ms
      ensures EvidencePaths(browser.screenshotDir, runId, paths')
      ensures stage == "before" ==> paths' == paths.(before := paths'.before)
      ensures stage == "after" ==> paths' == paths.(after := paths'.after)
      ensures stage == "error" ==> paths' == paths.(error := paths'.error)
      ensures var path := if stage == "before" then paths'.before else if stage == "after" then paths'.after
                          else paths'.error;
              browser.calls == old(browser.calls) + [Shot(path)] && shot == ShotAnswer(browser.View(), path)
    {
      ghost var path;
      shot, path := browser.ScreenshotEvidence(runId, stage, clock);
      paths' := if stage == "before" then paths.(before := path) else if stage == "after" then paths.(after := path)
                else paths.(error := path);
    }
  }
}
