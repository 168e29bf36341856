/**
 * The task store: the `agent_tasks`, `agent_runs` and `agent_artifacts`
 * tables, held here as in-memory maps and a list.  Row ids (uuid4) are
 * supplied by the caller and must be fresh; timestamps (`utcnow()`) come
 * from the store's own clock, which never goes back.
 */
module SupabaseStore {
  import opened Python
  import opened BrowserControl

  datatype TaskStatus = Queued | Running | Succeeded | Failed

  /** The enum's string value, as stored in the `status` column. */
  function StatusValue(s: TaskStatus): string
  {
    match s
    case Queued => "queued"
    case Running => "running"
    case Succeeded => "success"
    case Failed => "failed"
  }

  datatype ArtifactType = Before | After | Error | Trace

  function ArtifactValue(k: ArtifactType): string
  {
    match k
    case Before => "before"
    case After => "after"
    case Error => "error"
    case Trace => "trace"
  }

  /** The enum values are distinct, so a stored string names one member. */
  lemma EnumValuesDistinct()
    ensures forall a, b :: StatusValue(a) == StatusValue(b) ==> a == b
    ensures forall a, b :: ArtifactValue(a) == ArtifactValue(b) ==> a == b
  {
  }

  /** The `payload` column: absent, empty text, or the JSON text of a dict
      (held decoded; `json.loads(json.dumps(p)) == p` for the JSON-shaped
      payloads a Value can hold). */
  datatype StoredPayload = NoPayload | EmptyText | Json(p: Payload)

  /** `json.loads(payload) if payload else {}` */
  function DecodePayload(s: StoredPayload): (p: Payload)
    ensures s.Json? ==> p == s.p
    ensures !s.Json? ==> p == map[]
  {
    if s.Json? then s.p else map[]
  }

  datatype TaskRow = TaskRow(
    shopId: string,
    action: string,
    payload: StoredPayload,
    status: TaskStatus,
    priority: int,
    dryRun: bool,
    createdAt: int,
    updatedAt: int,
    error: Option<string>)

  /** A task as `get_next_task` / `get_task` hand it out: the row with its
      payload decoded. */
  datatype Task = Task(
    id: string,
    shopId: string,
    action: string,
    payload: Payload,
    status: TaskStatus,
    priority: int,
    dryRun: bool,
    createdAt: int)

  function Decode(id: string, row: TaskRow): (t: Task)
    ensures t.id == id && t.payload == DecodePayload(row.payload)
    ensures t.status == row.status && t.priority == row.priority && t.createdAt == row.createdAt
  {
    Task(id, row.shopId, row.action, DecodePayload(row.payload), row.status, row.priority,
         row.dryRun, row.createdAt)
  }

  /** The `result` column of a run: `json.dumps({})` or the dumped result. */
  datatype RunResult = EmptyResult | Recorded(r: ActionResult)

  datatype RunRow = RunRow(
    taskId: string,
    workerId: string,
    startAt: int,
    endAt: Option<int>,
    result: Option<RunResult>,
    error: Option<string>)

  datatype ArtifactRow = ArtifactRow(runId: string, kind: ArtifactType, url: string)

  /** A write to the tables, in the order issued. */
  datatype Write =
    | TaskInserted(id: string)
    | StatusSet(id: string, status: TaskStatus)
    | RunInserted(id: string, taskId: string)
    | RunCompleted(id: string)
    | ArtifactInserted(runId: string, kind: ArtifactType)

  /** `if error:` for an optional message. */
  predicate Truthful(e: Option<string>)
  {
    e.Some? && e.value != ""
  }

  // -------------------------------------------------------------- selection

  /** `get_next_task`'s query: a queued task, and no queued task has a higher
      priority, or the same priority and an earlier `created_at`. */
  predicate IsNext(tasks: map<string, TaskRow>, id: string)
  {
    && id in tasks
    && tasks[id].status == Queued
    && forall o :: o in tasks && tasks[o].status == Queued ==> Precedes(tasks[id], tasks[o])
  }

  /** Row a is taken no later than row b: higher priority first, then the
      earlier creation time. */
  predicate Precedes(a: TaskRow, b: TaskRow)
  {
    a.priority > b.priority || (a.priority == b.priority && a.createdAt <= b.createdAt)
  }

  /** With distinct creation times among queued tasks the chosen task is
      unique. */
  lemma NextIsUnique(tasks: map<string, TaskRow>, a: string, b: string)
    requires forall x, y :: (x in tasks && y in tasks && x != y && tasks[x].status == Queued
                             && tasks[y].status == Queued) ==> tasks[x].createdAt != tasks[y].createdAt
    requires IsNext(tasks, a) && IsNext(tasks, b)
    ensures a == b
  {
    assert Precedes(tasks[a], tasks[b]) && Precedes(tasks[b], tasks[a]);
  }

  /** There is a next task exactly when some task is queued. */
  lemma {:induction false} NextExists(tasks: map<string, TaskRow>)
    ensures (exists id :: IsNext(tasks, id)) <==> (exists id :: id in tasks && tasks[id].status == Queued)
  {
    if exists id :: id in tasks && tasks[id].status == Queued {
      var w :| w in tasks && tasks[w].status == Queued;
      var q := set id | id in tasks && tasks[id].status == Queued;
      assert w in q;
      var best := BestOf(tasks, q);
      assert IsNext(tasks, best);
    }
  }

  /** Some member of a non-empty set of queued ids precedes all the others. */
  lemma {:induction false} BestOf(tasks: map<string, TaskRow>, q: set<string>) returns (best: string)
    requires q != {}
    requires forall id :: id in q ==> id in tasks && tasks[id].status == Queued
    ensures best in q
    ensures forall o :: o in q ==> Precedes(tasks[best], tasks[o])
    decreases |q|
  {
    var x :| x in q;
    if q == {x} {
      best := x;
    } else {
      var rest := BestOf(tasks, q - {x});
      best := if Precedes(tasks[x], tasks[rest]) then x else rest;
    }
  }

  /** The table after the task under id has been taken (marked running). */
  function Taken(tasks: map<string, TaskRow>, id: string): map<string, TaskRow>
    requires id in tasks
  {
    tasks[id := tasks[id].(status := Running)]
  }

  /** Three queued tasks with priorities 5, 1, 5 created at t1 < t2 < t3 are
      taken in the order t1, t3, t2 when each is marked running once taken. */
  lemma SelectionOrderExample(a: string, b: string, c: string, row: TaskRow,
                              t1: int, t2: int, t3: int, id: string)
    requires a != b && b != c && a != c
    requires row.status == Queued && t1 < t2 < t3
    ensures var t0 := map[a := row.(priority := 5, createdAt := t1),
                          b := row.(priority := 1, createdAt := t2),
                          c := row.(priority := 5, createdAt := t3)];
            && (IsNext(t0, id) <==> id == a)
            && (IsNext(Taken(t0, a), id) <==> id == c)
            && (IsNext(Taken(Taken(t0, a), c), id) <==> id == b)
  {
    var t0 := map[a := row.(priority := 5, createdAt := t1),
                  b := row.(priority := 1, createdAt := t2),
                  c := row.(priority := 5, createdAt := t3)];
    var s1 := Taken(t0, a);
    assert s1.Keys == {a, b, c} && s1[a].status == Running;
    if id == c {
      forall o | o in s1 && s1[o].status == Queued
        ensures Precedes(s1[c], s1[o])
      {
        assert o == b || o == c;
      }
    }
  }

  // ------------------------------------------------------------------ paths

  /** `os.path.basename`: the text after the last '/'. */
  function Basename(path: string): (b: string)
    ensures forall i :: 0 <= i < |b| ==> b[i] != '/'
    ensures EndsWith(path, b)
    ensures |b| < |path| ==> path[|path| - |b| - 1] == '/'
  {
    if path == [] then []
    else if path[|path| - 1] == '/' then []
    else Basename(path[..|path| - 1]) + [path[|path| - 1]]
  }

  /** The storage object name of an uploaded artifact:
      `evidence/<run_id>/<type>_<basename>`. */
  function StoragePath(runId: string, kind: ArtifactType, filePath: string): (s: string)
    ensures StartsWith(s, "evidence/" + runId + "/" + ArtifactValue(kind) + "_")
    ensures EndsWith(s, Basename(filePath))
  {
    "evidence/" + runId + "/" + ArtifactValue(kind) + "_" + Basename(filePath)
  }

  /** Files in different directories with the same name land on the same
      storage object: only the base name survives. */
  lemma StoragePathKeepsOnlyBasename(runId: string, kind: ArtifactType, p: string, q: string)
    requires Basename(p) == Basename(q)
    ensures StoragePath(runId, kind, p) == StoragePath(runId, kind, q)
  {
  }

  // ------------------------------------------------------------- the tables

  class TaskStore {
    var tasks: map<string, TaskRow>
    var runs: map<string, RunRow>
    /** `agent_artifacts` rows in insertion order. */
    var artifacts: seq<ArtifactRow>
    /** The latest `utcnow()` reading. */
    var now: int
    /** What the storage bucket answers to uploading a local file under a
        storage path: its public URL, or None when reading or uploading
        raises. */
    const uploads: (string, string) -> Option<string>
    /** Every write, in order. */
    ghost var log: seq<Write>

    /** Every stored timestamp is a past reading of the clock, and a row is
        never updated before it was created. */
    predicate Valid()
      reads this
    {
      && (forall id :: id in tasks ==> tasks[id].createdAt <= tasks[id].updatedAt <= now)
      && (forall id :: id in runs ==>
            runs[id].startAt <= now
            && (runs[id].endAt.Some? ==> runs[id].startAt <= runs[id].endAt.value <= now))
    }

    /** A store over tables that already hold rows (written by other
        clients). */
    constructor (tasks: map<string, TaskRow>, runs: map<string, RunRow>, now: int,
                 uploads: (string, string) -> Option<string>)
      requires forall id :: id in tasks ==> tasks[id].createdAt <= tasks[id].updatedAt <= now
      requires forall id :: id in runs ==>
                 runs[id].startAt <= now
                 && (runs[id].endAt.Some? ==> runs[id].startAt <= runs[id].endAt.value <= now)
      ensures Valid()
      ensures this.tasks == tasks && this.runs == runs && artifacts == [] && log == []
      ensures this.now == now && this.uploads == uploads
    {
      this.tasks := tasks;
      this.runs := runs;
      artifacts := [];
      this.now := now;
      this.uploads := uploads;
      log := [];
    }

    /** `datetime.utcnow()` */
    method UtcNow() returns (t: int)
      requires Valid()
      modifies this`now
      ensures Valid()
      ensures old(now) <= t && now == t
    {
      var elapsed :| elapsed >= 0;
      now := now + elapsed;
      t := now;
    }

    /** `create_task`: a queued row under the fresh id, returned; the
        priority is 5 and the task is not a dry run unless the caller says
        otherwise. */
    method CreateTask(id: string, shopId: string, action: string, payload: Payload,
                      priority: int := 5, dryRun: bool := false) returns (taskId: string)
      requires Valid()
      requires id !in tasks
      modifies this`tasks, this`now, this`log
      ensures Valid()
      ensures taskId == id
      ensures tasks.Keys == old(tasks.Keys) + {id}
      ensures forall o :: o in old(tasks) ==> tasks[o] == old(tasks[o])
      ensures tasks[id].status == Queued && tasks[id].priority == priority
      ensures tasks[id].shopId == shopId && tasks[id].action == action && tasks[id].dryRun == dryRun
      ensures tasks[id].payload == Json(payload) && tasks[id].error.None?
      ensures old(now) <= tasks[id].createdAt <= tasks[id].updatedAt == now
      ensures log == old(log) + [TaskInserted(id)]
    {
      var created := UtcNow();
      var updated := UtcNow();
      tasks := tasks[id := TaskRow(shopId, action, Json(payload), Queued, priority, dryRun,
                                   created, updated, None)];
      log := log + [TaskInserted(id)];
      taskId := id;
    }

    /** `get_next_task`: the queued task that comes first by priority and
        then by age, or None; nothing is written. */
    method GetNextTask() returns (r: Option<Task>)
      ensures r.None? <==> forall id :: id in tasks ==> tasks[id].status != Queued
      ensures r.Some? ==> IsNext(tasks, r.value.id) && r.value == Decode(r.value.id, tasks[r.value.id])
    {
      var pending := tasks.Keys;
      var best: Option<string> := None;
      while pending != {}
        invariant pending <= tasks.Keys
        invariant best.Some? ==> best.value in tasks && tasks[best.value].status == Queued
        invariant best.Some? ==> forall o :: o in tasks.Keys - pending && tasks[o].status == Queued
                                  ==> Precedes(tasks[best.value], tasks[o])
        invariant best.None? ==> forall o :: o in tasks.Keys - pending ==> tasks[o].status != Queued
        decreases |pending|
      {
        var id :| id in pending;
        if tasks[id].status == Queued && (best.None? || !Precedes(tasks[best.value], tasks[id])) {
          best := Some(id);
        }
        pending := pending - {id};
      }
      if best.Some? {
        r := Some(Decode(best.value, tasks[best.value]));
      } else {
        r := None;
      }
    }

    /** `update_task_status`: status and `updated_at` always, `error` only
        when a non-empty message is given; an unknown id changes nothing.
        No transition is checked. */
    method UpdateTaskStatus(id: string, status: TaskStatus, error: Option<string>)
      requires Valid()
      modifies this`tasks, this`now, this`log
      ensures Valid()
      ensures tasks.Keys == old(tasks.Keys)
      ensures forall o :: o in tasks && o != id ==> tasks[o] == old(tasks[o])
      ensures id in tasks ==> tasks[id] == old(tasks[id]).(status := status, updatedAt := now,
                                error := if Truthful(error) then error else old(tasks[id].error))
      ensures old(now) <= now
      ensures log == old(log) + [StatusSet(id, status)]
    {
      var t := UtcNow();
      if id in tasks {
        var row := tasks[id];
        tasks := tasks[id := row.(status := status, updatedAt := t,
                                  error := if Truthful(error) then error else row.error)];
      }
      log := log + [StatusSet(id, status)];
    }

    /** `get_task`: the decoded row, or None for an unknown id. */
    method GetTask(id: string) returns (r: Option<Task>)
      ensures id in tasks <==> r.Some?
      ensures r.Some? ==> r.value == Decode(id, tasks[id])
    {
      if id in tasks {
        r := Some(Decode(id, tasks[id]));
      } else {
        r := None;
      }
    }

    /** `create_run`: a run row under the fresh id, started now. */
    method CreateRun(id: string, taskId: string, workerId: string) returns (runId: string)
      requires Valid()
      requires id !in runs
      modifies this`runs, this`now, this`log
      ensures Valid()
      ensures runId == id
      ensures runs == old(runs)[id := RunRow(taskId, workerId, now, None, None, None)]
      ensures old(now) <= now
      ensures log == old(log) + [RunInserted(id, taskId)]
    {
      var t := UtcNow();
      runs := runs[id := RunRow(taskId, workerId, t, None, None, None)];
      log := log + [RunInserted(id, taskId)];
      runId := id;
    }

    /** `complete_run`: `end_at` and `result` always, `error` only when a
        non-empty message is given; an unknown id changes nothing. */
    method CompleteRun(id: string, result: RunResult, error: Option<string>)
      requires Valid()
      modifies this`runs, this`now, this`log
      ensures Valid()
      ensures runs.Keys == old(runs.Keys)
      ensures forall o :: o in runs && o != id ==> runs[o] == old(runs[o])
      ensures id in runs ==> runs[id] == old(runs[id]).(endAt := Some(now), result := Some(result),
                               error := if Truthful(error) then error else old(runs[id].error))
      ensures old(now) <= now
      ensures log == old(log) + [RunCompleted(id)]
    {
      var t := UtcNow();
      if id in runs {
        var row := runs[id];
        runs := runs[id := row.(endAt := Some(t), result := Some(result),
                                error := if Truthful(error) then error else row.error)];
      }
      log := log + [RunCompleted(id)];
    }

    /** `save_artifact_record`: records the local path as a `local://` URL. */
    method SaveArtifactRecord(runId: string, kind: ArtifactType, localPath: string)
      modifies this`artifacts, this`log
      ensures artifacts == old(artifacts) + [ArtifactRow(runId, kind, "local://" + localPath)]
      ensures log == old(log) + [ArtifactInserted(runId, kind)]
    {
      artifacts := artifacts + [ArtifactRow(runId, kind, "local://" + localPath)];
      log := log + [ArtifactInserted(runId, kind)];
    }

    /** `upload_artifact`: uploads the file under its storage path and
        records the public URL; None, with nothing recorded, when reading or
        uploading fails. */
    method UploadArtifact(runId: string, kind: ArtifactType, filePath: string) returns (url: Option<string>)
      modifies this`artifacts, this`log
      ensures url == uploads(filePath, StoragePath(runId, kind, filePath))
      ensures url.None? ==> artifacts == old(artifacts) && log == old(log)
      ensures url.Some? ==> artifacts == old(artifacts) + [ArtifactRow(runId, kind, url.value)]
                            && log == old(log) + [ArtifactInserted(runId, kind)]
    {
      url := uploads(filePath, StoragePath(runId, kind, filePath));
      if url.Some? {
        artifacts := artifacts + [ArtifactRow(runId, kind, url.value)];
        log := log + [ArtifactInserted(runId, kind)];
      }
    }
  }
}
