/** The data-source dialog of a workspace (frontend/src/pages/WorkSpaceDetail/DataSourceModal.tsx):
 *  the update it sends for an API or database source, the guards on a CSV upload, the
 *  "auto-sync disabled" banner, and the fields it reloads when it opens. */
module DataSourceModal {
  import opened Common
  import Records
  import Polling
  import Workspaces
  import CeleryWorker
  import Tasks

  const DEFAULT_SOURCE := "CSV"
  const DEFAULT_INTERVAL := "hourly"
  const DEFAULT_PORT: int := 5432
  const DEFAULT_QUERY := "SELECT * FROM your_table LIMIT 100;"
  const DB_TYPE := "postgresql"
  const MAX_FILE_SIZE: nat := 5 * 1024 * 1024

  const URL_REQUIRED := "API URL cannot be empty."
  const DB_FIELDS_REQUIRED := "Please fill all required database fields."
  const SAVE_FAILED := "Failed to save configuration."
  const NO_FILE := "Please select a CSV file to upload."
  const FILE_TOO_LARGE := "File is too large! Maximum limit is 5MB."
  const UPLOAD_FAILED := "File upload failed."

  /** The frequencies the drop-down offers. */
  const OFFERED_INTERVALS: seq<string> := ["30min", "hourly", "3hours", "12hours", "daily"]

  /** The body of `PUT /workspaces/{id}`; `None` is a key left out of the object. */
  datatype UpdatePayload = UpdatePayload(
    dataSource: string,
    isPollingActive: Option<bool>,
    pollingInterval: Option<string>,
    apiUrl: Option<string>,
    apiHeaderName: Option<string>,
    apiHeaderValue: Option<string>,
    dbType: Option<string>,
    dbHost: Option<string>,
    dbPort: Option<int>,
    dbUser: Option<string>,
    dbPassword: Option<string>,
    dbName: Option<string>,
    dbQuery: Option<string>)

  /** The dialog's input fields. */
  datatype Form = Form(
    dataSource: string,
    apiUrl: string,
    pollingInterval: string,
    isPollingActive: bool,
    apiHeaderName: string,
    apiHeaderValue: string,
    dbHost: string,
    dbPort: int,
    dbUser: string,
    dbPassword: string,
    dbName: string,
    dbQuery: string)

  /** JavaScript truthiness of a string after `trim()`. */
  predicate Blank(s: string)
  {
    JsTrim(s) == []
  }

  /** What saving the form does before any request: abort with a message, or send. */
  datatype Save = Abort(message: string) | Send(payload: UpdatePayload)

  /** The three keys every payload carries. */
  function BasePayload(f: Form): UpdatePayload
  {
    UpdatePayload(f.dataSource, Some(f.isPollingActive), Some(f.pollingInterval),
                  None, None, None, None, None, None, None, None, None, None)
  }

  /** `handleSaveConfiguration` up to the request. */
  function SaveOf(f: Form): (r: Save)
    ensures r.Send? ==>
      && r.payload.dataSource == f.dataSource
      && r.payload.isPollingActive == Some(f.isPollingActive) && r.payload.pollingInterval == Some(f.pollingInterval)
    ensures f.dataSource == "API" ==> (r.Abort? <==> Blank(f.apiUrl))
    ensures f.dataSource == "API" && r.Send? ==>
      && r.payload.apiUrl == Some(f.apiUrl)
      && (r.payload.apiHeaderName.Some? <==> !Blank(f.apiHeaderName))
      && (r.payload.apiHeaderValue.Some? <==> !Blank(f.apiHeaderValue))
      && (r.payload.apiHeaderName.Some? ==> r.payload.apiHeaderName.value == f.apiHeaderName)
      && (r.payload.apiHeaderValue.Some? ==> r.payload.apiHeaderValue.value == f.apiHeaderValue)
      && r.payload.dbHost.None? && r.payload.dbType.None?
    ensures f.dataSource == "DB" ==>
      (r.Abort? <==> Blank(f.dbHost) || Blank(f.dbUser) || Blank(f.dbName) || Blank(f.dbQuery))
    ensures f.dataSource == "DB" && r.Send? ==>
      && r.payload.dbType == Some(DB_TYPE)
      && r.payload.dbHost == Some(f.dbHost) && r.payload.dbPort == Some(f.dbPort)
      && r.payload.dbUser == Some(f.dbUser) && r.payload.dbName == Some(f.dbName) && r.payload.dbQuery == Some(f.dbQuery)
      && (r.payload.dbPassword.Some? <==> f.dbPassword != [])
      && (r.payload.dbPassword.Some? ==> r.payload.dbPassword.value == f.dbPassword)
      && r.payload.apiUrl.None?
    ensures f.dataSource != "API" && f.dataSource != "DB" ==> r == Send(BasePayload(f))
    ensures r.Abort? ==> r.message == (if f.dataSource == "API" then URL_REQUIRED else DB_FIELDS_REQUIRED)
  {
    var base := BasePayload(f);
    if f.dataSource == "API" then
      if Blank(f.apiUrl) then Abort(URL_REQUIRED)
      else Send(base.(apiUrl := Some(f.apiUrl),
                      apiHeaderName := if Blank(f.apiHeaderName) then None else Some(f.apiHeaderName),
                      apiHeaderValue := if Blank(f.apiHeaderValue) then None else Some(f.apiHeaderValue)))
    else if f.dataSource == "DB" then
      if Blank(f.dbHost) || Blank(f.dbUser) || Blank(f.dbName) || Blank(f.dbQuery) then Abort(DB_FIELDS_REQUIRED)
      else Send(base.(dbType := Some(DB_TYPE), dbHost := Some(f.dbHost), dbPort := Some(f.dbPort),
                      dbUser := Some(f.dbUser), dbPassword := if f.dbPassword != [] then Some(f.dbPassword) else None,
                      dbName := Some(f.dbName), dbQuery := Some(f.dbQuery)))
    else Send(base)
  }

  /** The payload sent after a successful CSV upload. */
  const CSV_SWITCH := UpdatePayload(DEFAULT_SOURCE, Some(false), None, None, None, None, None, None, None, None, None, None, None)

  // ---------------------------------------------------------------- the backend's view

  function FieldOf<T>(o: Option<T>): Workspaces.Field<T>
  {
    if o.Some? then Workspaces.Set(Some(o.value)) else Workspaces.Unset
  }

  /** The payload as the backend's update model parses it. That model declares no header
   *  fields, so `api_header_name` and `api_header_value` are ignored. */
  function Parsed(p: UpdatePayload): (u: Workspaces.WorkspaceUpdate)
    ensures Workspaces.Committable(u)
  {
    Workspaces.WorkspaceUpdate(
      Workspaces.Unset, Workspaces.Unset, Workspaces.Set(Some(p.dataSource)), FieldOf(p.apiUrl),
      FieldOf(p.pollingInterval), FieldOf(p.isPollingActive), Workspaces.Unset,
      FieldOf(p.dbType), FieldOf(p.dbHost), FieldOf(p.dbPort), FieldOf(p.dbUser),
      FieldOf(p.dbPassword), FieldOf(p.dbName), FieldOf(p.dbQuery))
  }

  /** A non-blank text is not empty. */
  lemma NotBlankNotEmpty(s: string)
    requires !Blank(s)
    ensures s != []
  {
  }

  /** A saved API configuration is stored as sent and handed to the API fetcher whenever the
   *  workspace is due. */
  lemma SavedApiIsFetched(f: Form, s: Workspaces.Settings, users: seq<Records.User>, caller: Records.UserId,
                          now: int, id: Records.WorkspaceId, lastPolledAt: Option<int>)
    requires f.dataSource == "API" && SaveOf(f).Send?
    ensures var r := Workspaces.Updated(s, Parsed(SaveOf(f).payload), users, caller, now);
      && r.dataSource == Some("API") && r.apiUrl == Some(f.apiUrl)
      && r.isPollingActive == f.isPollingActive && r.pollingInterval == Some(f.pollingInterval)
      && r.dbHost.None? && r.dbQuery.None?
      && Polling.Dispatch(Workspaces.PollRowOf(id, r, lastPolledAt)) == Some(Polling.FetchApi(id))
  {
    NotBlankNotEmpty(f.apiUrl);
  }

  /** A saved database configuration is stored as sent, a blank password keeps the stored
   *  one, and the workspace is handed to the database fetcher whenever it is due. */
  lemma SavedDbIsFetched(f: Form, s: Workspaces.Settings, users: seq<Records.User>, caller: Records.UserId,
                         now: int, id: Records.WorkspaceId, lastPolledAt: Option<int>)
    requires f.dataSource == "DB" && SaveOf(f).Send?
    ensures var r := Workspaces.Updated(s, Parsed(SaveOf(f).payload), users, caller, now);
      && r.dataSource == Some("DB") && r.dbType == Some(DB_TYPE) && r.dbHost == Some(f.dbHost)
      && r.dbQuery == Some(f.dbQuery) && r.apiUrl.None?
      && r.dbPassword == (if f.dbPassword == [] then s.dbPassword else Some(f.dbPassword))
      && Polling.Dispatch(Workspaces.PollRowOf(id, r, lastPolledAt)) == Some(Polling.FetchDb(id))
  {
    NotBlankNotEmpty(f.dbHost);
    NotBlankNotEmpty(f.dbQuery);
    DbPayloadIsFetched(SaveOf(f).payload, s, users, caller, now, id, lastPolledAt);
  }

  /** A database payload with host and query is stored as sent and dispatched to the database
   *  fetcher. */
  lemma DbPayloadIsFetched(p: UpdatePayload, s: Workspaces.Settings, users: seq<Records.User>, caller: Records.UserId,
                           now: int, id: Records.WorkspaceId, lastPolledAt: Option<int>)
    requires p.dataSource == "DB" && p.apiUrl.None? && p.dbType == Some(DB_TYPE)
    requires p.dbHost.Some? && p.dbHost.value != [] && p.dbQuery.Some? && p.dbQuery.value != []
    ensures var r := Workspaces.Updated(s, Parsed(p), users, caller, now);
      && r.dataSource == Some("DB") && r.dbType == p.dbType && r.dbHost == p.dbHost
      && r.dbQuery == p.dbQuery && r.apiUrl.None?
      && r.dbPassword == (if p.dbPassword.Some? then p.dbPassword else s.dbPassword)
      && Polling.Dispatch(Workspaces.PollRowOf(id, r, lastPolledAt)) == Some(Polling.FetchDb(id))
  {
  }

  /** After an upload the workspace is a CSV source with polling off and nothing to fetch. */
  lemma CsvSwitchIsStatic(s: Workspaces.Settings, users: seq<Records.User>, caller: Records.UserId,
                          now: int, id: Records.WorkspaceId, lastPolledAt: Option<int>)
    ensures var r := Workspaces.Updated(s, Parsed(CSV_SWITCH), users, caller, now);
      && r.dataSource == Some(DEFAULT_SOURCE) && !r.isPollingActive && r.apiUrl.None? && r.dbHost.None?
      && Polling.Dispatch(Workspaces.PollRowOf(id, r, lastPolledAt)).None?
  {
  }

  /** Three of the five offered frequencies are unknown to both schedulers: the task
   *  scheduler never fetches such a workspace, and the Celery scheduler fetches it only
   *  while it has never been polled. */
  lemma UnknownIntervals(w: Polling.PollRow, now: int)
    requires w.pollingInterval in {Some("30min"), Some("3hours"), Some("12hours")}
    ensures Polling.Period(w.pollingInterval).None?
    ensures !Tasks.IsDue(w, now)
    ensures CeleryWorker.IsDue(w, now) <==> w.lastPolledAt.None?
  {
  }

  /** Exactly `hourly` and `daily` among the offered frequencies have a period. */
  lemma OfferedWithPeriod(i: string)
    requires i in OFFERED_INTERVALS
    ensures Polling.Period(Some(i)).Some? <==> i == "hourly" || i == "daily"
  {
  }

  // ---------------------------------------------------------------- the header columns

  /** The header the API fetcher sends, from the stored name and value: both must be
   *  non-empty (app/services/celery_worker.py). */
  function FetchHeaders(name: Option<string>, value: Option<string>): (h: map<string, string>)
    ensures |h| <= 1
    ensures h != map[] <==> name.Some? && name.value != [] && value.Some? && value.value != []
    ensures h != map[] ==> h == map[name.value := value.value]
  {
    if name.Some? && name.value != [] && value.Some? && value.value != [] then map[name.value := value.value]
    else map[]
  }

  /** The settings after an update whose model also declares the header fields, assigning
   *  those sent as the other fields are assigned. */
  function UpdatedWithHeader(s: Workspaces.Settings, p: UpdatePayload, users: seq<Records.User>,
                             caller: Records.UserId, now: int): (r: Workspaces.Settings)
    ensures r.apiHeaderName == (if p.apiHeaderName.Some? then p.apiHeaderName else s.apiHeaderName)
    ensures r.apiHeaderValue == (if p.apiHeaderValue.Some? then p.apiHeaderValue else s.apiHeaderValue)
    ensures r.(apiHeaderName := s.apiHeaderName, apiHeaderValue := s.apiHeaderValue)
            == Workspaces.Updated(s, Parsed(p), users, caller, now)
  {
    var r := Workspaces.Updated(s, Parsed(p), users, caller, now);
    Workspaces.UpdateKeepsHeader(s, Parsed(p), users, caller, now);
    r.(apiHeaderName := if p.apiHeaderName.Some? then p.apiHeaderName else r.apiHeaderName,
       apiHeaderValue := if p.apiHeaderValue.Some? then p.apiHeaderValue else r.apiHeaderValue)
  }

  /** An API source saved with a key header on a workspace without one (every workspace, as
   *  none is created with a header and no update writes one): the header is sent, the stored
   *  columns stay empty, and the fetcher sends no header. */
  lemma HeaderIsLost(f: Form, s: Workspaces.Settings, users: seq<Records.User>, caller: Records.UserId, now: int)
    requires f.dataSource == "API" && !Blank(f.apiUrl) && !Blank(f.apiHeaderName) && !Blank(f.apiHeaderValue)
    requires s.apiHeaderName.None? && s.apiHeaderValue.None?
    ensures SaveOf(f).payload.apiHeaderName == Some(f.apiHeaderName)
    ensures SaveOf(f).payload.apiHeaderValue == Some(f.apiHeaderValue)
    ensures var r := Workspaces.Updated(s, Parsed(SaveOf(f).payload), users, caller, now);
      r.apiHeaderName.None? && r.apiHeaderValue.None? && FetchHeaders(r.apiHeaderName, r.apiHeaderValue) == map[]
  {
    Workspaces.UpdateKeepsHeader(s, Parsed(SaveOf(f).payload), users, caller, now);
  }

  /** With the header fields assigned, the fetcher sends the header the form was saved
   *  with, whatever the workspace held before. */
  lemma HeaderIsUsed(f: Form, s: Workspaces.Settings, users: seq<Records.User>, caller: Records.UserId, now: int)
    requires f.dataSource == "API" && !Blank(f.apiUrl) && !Blank(f.apiHeaderName) && !Blank(f.apiHeaderValue)
    ensures var r := UpdatedWithHeader(s, SaveOf(f).payload, users, caller, now);
      FetchHeaders(r.apiHeaderName, r.apiHeaderValue) == map[f.apiHeaderName := f.apiHeaderValue]
  {
    NotBlankNotEmpty(f.apiHeaderName);
    NotBlankNotEmpty(f.apiHeaderValue);
  }

  // ---------------------------------------------------------------- the dialog

  /** The workspace fields the dialog reads; absent or `null` is `None`. */
  datatype Workspace = Workspace(
    dataSource: Option<string>,
    apiUrl: Option<string>,
    pollingInterval: Option<string>,
    isPollingActive: Option<bool>,
    apiHeaderName: Option<string>,
    dbHost: Option<string>,
    dbPort: Option<int>,
    dbUser: Option<string>,
    dbName: Option<string>,
    dbQuery: Option<string>,
    lastFailureReason: Option<string>)

  /** `s || fallback` for a string that may be absent. */
  function OrText(s: Option<string>, fallback: string): (r: string)
    ensures r == fallback <==> s.None? || s.value == [] || s.value == fallback
    ensures r != fallback ==> s == Some(r)
  {
    if s.Some? && s.value != [] then s.value else fallback
  }

  /** `isAutoDisabled`: the scheduler switched polling off after a failure. */
  predicate IsAutoDisabled(w: Workspace)
  {
    w.isPollingActive != Some(true) && w.lastFailureReason.Some? && w.lastFailureReason.value != []
  }

  /** The banner shows exactly when polling is off and a failure reason is recorded. */
  lemma AutoDisabledIff(w: Workspace)
    ensures IsAutoDisabled(w) <==> !w.isPollingActive.GetOr(false) && OrText(w.lastFailureReason, []) != []
  {
  }

  /** A selected file: its size in bytes. */
  datatype File = File(size: nat)

  class SourceDialog {
    var form: Form
    var selectedFile: Option<File>
    var isSaving: bool

    constructor (w: Workspace)
      ensures form == Form(OrText(w.dataSource, DEFAULT_SOURCE), [], DEFAULT_INTERVAL, false, [], [],
                           [], DEFAULT_PORT, [], [], [], DEFAULT_QUERY)
      ensures selectedFile.None? && !isSaving
    {
      form := Form(OrText(w.dataSource, DEFAULT_SOURCE), [], DEFAULT_INTERVAL, false, [], [],
                   [], DEFAULT_PORT, [], [], [], DEFAULT_QUERY);
      selectedFile := None;
      isSaving := false;
    }

    /** The effect run when the dialog opens: every field is reloaded from the workspace,
     *  except the header value and the password, which start empty, and the file, which is
     *  cleared. */
    method Reset(isOpen: bool, w: Workspace)
      modifies this
      ensures !isOpen ==> form == old(form) && selectedFile == old(selectedFile)
      ensures isOpen ==>
        && form.dataSource == OrText(w.dataSource, DEFAULT_SOURCE)
        && form.apiUrl == OrText(w.apiUrl, [])
        && form.pollingInterval == OrText(w.pollingInterval, DEFAULT_INTERVAL)
        && form.isPollingActive == w.isPollingActive.GetOr(false)
        && form.apiHeaderName == OrText(w.apiHeaderName, [])
        && form.apiHeaderValue == []
        && form.dbHost == OrText(w.dbHost, [])
        && form.dbPort == (if w.dbPort.Some? && w.dbPort.value != 0 then w.dbPort.value else DEFAULT_PORT)
        && form.dbUser == OrText(w.dbUser, [])
        && form.dbPassword == []
        && form.dbName == OrText(w.dbName, [])
        && form.dbQuery == OrText(w.dbQuery, DEFAULT_QUERY)
        && selectedFile.None?
      ensures isSaving == old(isSaving)
    {
      if isOpen {
        form := form.(dataSource := OrText(w.dataSource, DEFAULT_SOURCE));
        form := form.(apiUrl := OrText(w.apiUrl, []));
        form := form.(pollingInterval := OrText(w.pollingInterval, DEFAULT_INTERVAL));
        form := form.(isPollingActive := w.isPollingActive.GetOr(false));
        form := form.(apiHeaderName := OrText(w.apiHeaderName, []));
        form := form.(apiHeaderValue := []);
        form := form.(dbHost := OrText(w.dbHost, []));
        form := form.(dbPort := if w.dbPort.Some? && w.dbPort.value != 0 then w.dbPort.value else DEFAULT_PORT);
        form := form.(dbUser := OrText(w.dbUser, []));
        form := form.(dbPassword := []);
        form := form.(dbName := OrText(w.dbName, []));
        form := form.(dbQuery := OrText(w.dbQuery, DEFAULT_QUERY));
        selectedFile := None;
      }
    }

    /** `handleSaveConfiguration`: the payload is built key by key; a blank required field
     *  aborts with a message and no request. `saved` is whether the request succeeded: the
     *  dialog then closes, and an upload is announced when polling is on. */
    method SaveConfiguration(saved: bool) returns (sent: Option<UpdatePayload>, error: Option<string>,
                                                  uploadStarted: bool, closed: bool)
      modifies this
      ensures SaveOf(form).Abort? ==> sent.None? && error == Some(SaveOf(form).message) && !uploadStarted && !closed
      ensures SaveOf(form).Send? ==> sent == Some(SaveOf(form).payload)
      ensures SaveOf(form).Send? ==> (closed <==> saved) && (uploadStarted <==> saved && form.isPollingActive)
      ensures SaveOf(form).Send? ==> (error.Some? <==> !saved) && (!saved ==> error == Some(SAVE_FAILED))
      ensures form == old(form) && selectedFile == old(selectedFile) && !isSaving
    {
      isSaving := true;
      var payload := BasePayload(form);
      sent, error, uploadStarted, closed := None, None, false, false;
      if form.dataSource == "API" {
        if Blank(form.apiUrl) {
          isSaving := false;
          error := Some(URL_REQUIRED);
          return;
        }
        payload := payload.(apiUrl := Some(form.apiUrl));
        if !Blank(form.apiHeaderName) {
          payload := payload.(apiHeaderName := Some(form.apiHeaderName));
        }
        if !Blank(form.apiHeaderValue) {
          payload := payload.(apiHeaderValue := Some(form.apiHeaderValue));
        }
      } else if form.dataSource == "DB" {
        if Blank(form.dbHost) || Blank(form.dbUser) || Blank(form.dbName) || Blank(form.dbQuery) {
          isSaving := false;
          error := Some(DB_FIELDS_REQUIRED);
          return;
        }
        payload := payload.(dbType := Some(DB_TYPE), dbHost := Some(form.dbHost), dbPort := Some(form.dbPort),
                            dbUser := Some(form.dbUser));
        if form.dbPassword != [] {
          payload := payload.(dbPassword := Some(form.dbPassword));
        }
        payload := payload.(dbName := Some(form.dbName), dbQuery := Some(form.dbQuery));
      }
      sent := Some(payload);
      if saved {
        uploadStarted := form.isPollingActive;
        closed := true;
      } else {
        error := Some(SAVE_FAILED);
      }
      isSaving := false;
    }

    /** `handleCsvUpload`: no file, or one over 5 MB, is refused before any request. The
     *  upload (`uploaded`) is followed by the switch to a static CSV source (`switched`);
     *  a failure of either shows the same message. */
    method UploadCsv(uploaded: bool, switched: bool) returns (posted: bool, sent: Option<UpdatePayload>,
                                                             error: Option<string>, uploadStarted: bool, closed: bool)
      modifies this
      ensures selectedFile.None? ==> !posted && sent.None? && error == Some(NO_FILE) && !closed
      ensures selectedFile.Some? && selectedFile.value.size > MAX_FILE_SIZE ==>
        !posted && sent.None? && error == Some(FILE_TOO_LARGE) && !closed
      ensures posted <==> selectedFile.Some? && selectedFile.value.size <= MAX_FILE_SIZE
      ensures posted ==> (sent.Some? <==> uploaded) && (uploadStarted <==> uploaded) && (closed <==> uploaded && switched)
      ensures sent.Some? ==> sent.value == CSV_SWITCH
      ensures posted ==> (error.None? <==> uploaded && switched) && (error.Some? ==> error.value == UPLOAD_FAILED)
      ensures !posted ==> !uploadStarted
      ensures form == old(form) && selectedFile == old(selectedFile) && !isSaving
    {
      posted, sent, error, uploadStarted, closed := false, None, None, false, false;
      isSaving := false;
      if selectedFile.None? {
        error := Some(NO_FILE);
        return;
      }
      if selectedFile.value.size > MAX_FILE_SIZE {
        error := Some(FILE_TOO_LARGE);
        return;
      }
      isSaving := true;
      posted := true;
      if uploaded {
        uploadStarted := true;
        sent := Some(CSV_SWITCH);
        if switched {
          closed := true;
        } else {
          error := Some(UPLOAD_FAILED);
        }
      } else {
        error := Some(UPLOAD_FAILED);
      }
      isSaving := false;
    }
  }
}
