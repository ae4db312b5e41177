/** What both schedulers (app/services/celery_worker.py and app/services/tasks.py) share:
 *  the workspace columns they read, the interval periods they know, and the choice of
 *  at most one fetcher for a due workspace. */
module Polling {
  import opened Common
  import opened Records

  /** The columns of a `workspaces` row that `schedule_data_fetches` reads. */
  datatype PollRow = PollRow(
    id: WorkspaceId,
    isPollingActive: bool,
    pollingInterval: Option<string>,
    lastPolledAt: Option<int>,
    dataSource: Option<string>,
    apiUrl: Option<string>,
    dbHost: Option<string>,
    dbQuery: Option<string>)

  const MINUTE: int := 60
  const HOUR: int := 3600
  const DAY: int := 86400

  /** The interval names the schedulers compare against, with their periods in seconds. */
  function Period(interval: Option<string>): (p: Option<int>)
    ensures p.Some? <==> interval in {Some("every_minute"), Some("hourly"), Some("daily")}
    ensures p.Some? ==> p.value >= MINUTE
  {
    if interval == Some("every_minute") then Some(MINUTE)
    else if interval == Some("hourly") then Some(HOUR)
    else if interval == Some("daily") then Some(DAY)
    else None
  }

  /** Python truthiness of a nullable string column. */
  predicate IsSet(o: Option<string>)
  {
    o.Some? && o.value != []
  }

  datatype Job = FetchApi(workspaceId: WorkspaceId) | FetchDb(workspaceId: WorkspaceId)

  /** The fetcher a due workspace is handed to: the API fetcher when the source is `API` with
   *  a URL, else the database fetcher when the source is `DB` with a host and a query. */
  function Dispatch(w: PollRow): (job: Option<Job>)
    ensures job.Some? ==> job.value.workspaceId == w.id
    ensures job.Some? ==> w.dataSource in {Some("API"), Some("DB")}
    ensures job == Some(FetchApi(w.id)) <==> w.dataSource == Some("API") && IsSet(w.apiUrl)
    ensures job == Some(FetchDb(w.id)) <==> w.dataSource == Some("DB") && IsSet(w.dbHost) && IsSet(w.dbQuery)
  {
    if w.dataSource == Some("API") && IsSet(w.apiUrl) then Some(FetchApi(w.id))
    else if w.dataSource == Some("DB") && IsSet(w.dbHost) && IsSet(w.dbQuery) then Some(FetchDb(w.id))
    else None
  }

  /** The jobs one row contributes: none unless polling is active and the row is due. */
  function JobOf(w: PollRow, now: int, due: (PollRow, int) -> bool): seq<Job>
  {
    if w.isPollingActive && due(w, now) && Dispatch(w).Some? then [Dispatch(w).value] else []
  }

  /** The jobs a scheduler run dispatches, in row order, for a given due rule. */
  function Planned(rows: seq<PollRow>, now: int, due: (PollRow, int) -> bool): seq<Job>
  {
    if rows == [] then [] else Planned(rows[..|rows| - 1], now, due) + JobOf(rows[|rows| - 1], now, due)
  }

  predicate Selected(w: PollRow, now: int, due: (PollRow, int) -> bool)
  {
    w.isPollingActive && due(w, now) && Dispatch(w).Some?
  }

  /** Every dispatched job comes from an active, due, configured row, and every such row
   *  is dispatched; a run dispatches at most one job per row. */
  lemma {:induction false} PlannedJobs(rows: seq<PollRow>, now: int, due: (PollRow, int) -> bool)
    ensures |Planned(rows, now, due)| <= |rows|
    ensures forall k :: 0 <= k < |Planned(rows, now, due)| ==>
      exists i :: 0 <= i < |rows| && Selected(rows[i], now, due) && Dispatch(rows[i]) == Some(Planned(rows, now, due)[k])
    ensures forall i :: 0 <= i < |rows| && Selected(rows[i], now, due) ==>
      Dispatch(rows[i]).value in Planned(rows, now, due)
  {
    if rows != [] {
      var init := rows[..|rows| - 1];
      var last := rows[|rows| - 1];
      PlannedJobs(init, now, due);
      var p := Planned(init, now, due);
      var q := Planned(rows, now, due);
      assert q == p + JobOf(last, now, due);
      forall k | 0 <= k < |q|
        ensures exists i :: 0 <= i < |rows| && Selected(rows[i], now, due) && Dispatch(rows[i]) == Some(q[k])
      {
        if k < |p| {
          var i :| 0 <= i < |init| && Selected(init[i], now, due) && Dispatch(init[i]) == Some(p[k]);
          assert rows[i] == init[i];
        } else {
          assert Selected(rows[|rows| - 1], now, due);
        }
      }
      forall i | 0 <= i < |rows| && Selected(rows[i], now, due)
        ensures Dispatch(rows[i]).value in q
      {
        if i < |init| {
          assert rows[i] == init[i];
        }
      }
    }
  }

  /** With distinct workspace ids, no workspace is dispatched twice in one run. */
  lemma {:induction false} PlannedOncePerWorkspace(rows: seq<PollRow>, now: int, due: (PollRow, int) -> bool)
    requires forall i, j :: 0 <= i < j < |rows| ==> rows[i].id != rows[j].id
    ensures forall k, l :: 0 <= k < l < |Planned(rows, now, due)| ==>
      Planned(rows, now, due)[k].workspaceId != Planned(rows, now, due)[l].workspaceId
  {
    if rows != [] {
      var init := rows[..|rows| - 1];
      var last := rows[|rows| - 1];
      PlannedOncePerWorkspace(init, now, due);
      PlannedJobs(init, now, due);
      var p := Planned(init, now, due);
      var q := Planned(rows, now, due);
      assert q == p + JobOf(last, now, due);
      forall k, l | 0 <= k < l < |q|
        ensures q[k].workspaceId != q[l].workspaceId
      {
        if l >= |p| {
          var i :| 0 <= i < |init| && Selected(init[i], now, due) && Dispatch(init[i]) == Some(p[k]);
          assert init[i].id == rows[i].id != last.id;
        }
      }
    }
  }
}
