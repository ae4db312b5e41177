/** The backend's persistent records (app/models) as the services see them, the
 *  JSON values stored in `analysis_results`, and the database session that the
 *  background tasks add rows to. */
module Records {
  import opened Common

  type UserId = nat
  type WorkspaceId = nat
  type UploadId = nat
  type RuleId = nat

  /** A Python float: a finite value, NaN or an infinity. */
  datatype Float = Finite(r: real) | NaN | PosInf | NegInf

  /** A Python value of the kind `json`/pandas `to_dict()` produce; a dict keeps its key order. */
  datatype Json =
    | JNull
    | JBool(b: bool)
    | JInt(i: int)
    | JFloat(f: Float)
    | JStr(s: string)
    | JList(items: seq<Json>)
    | JObject(fields: seq<(string, Json)>)

  /** Python `d.get(key)` on a dict given by its items. */
  function Get(fields: seq<(string, Json)>, key: string): (r: Option<Json>)
    ensures r.Some? <==> exists i :: 0 <= i < |fields| && fields[i].0 == key
    ensures r.Some? ==> exists i :: 0 <= i < |fields| && fields[i] == (key, r.value)
  {
    if fields == [] then None
    else if fields[0].0 == key then Some(fields[0].1)
    else
      var r := Get(fields[1..], key);
      assert forall i :: 0 <= i < |fields[1..]| ==> fields[1..][i] == fields[i + 1];
      r
  }

  function Keys(fields: seq<(string, Json)>): seq<string>
  {
    seq(|fields|, i requires 0 <= i < |fields| => fields[i].0)
  }

  /** Python truthiness. */
  predicate Truthy(j: Json)
  {
    match j
    case JNull => false
    case JBool(b) => b
    case JInt(i) => i != 0
    case JFloat(f) => f != Finite(0.0)
    case JStr(s) => s != []
    case JList(xs) => xs != []
    case JObject(fs) => fs != []
  }

  /** No NaN or infinity anywhere inside `j`. */
  predicate AllFinite(j: Json)
  {
    match j
    case JFloat(f) => f.Finite?
    case JList(xs) => forall i :: 0 <= i < |xs| ==> AllFinite(xs[i])
    case JObject(fs) => forall i :: 0 <= i < |fs| ==> AllFinite(fs[i].1)
    case _ => true
  }

  /** `b` is `a` with every NaN and infinity replaced by `None`: the same tree of lists and
   *  dicts (same lengths, same keys in the same order), every finite float and every other
   *  leaf kept as it is. */
  predicate Cleaned(a: Json, b: Json)
  {
    match a
    case JList(xs) =>
      b.JList? && |b.items| == |xs| && forall i :: 0 <= i < |xs| ==> Cleaned(xs[i], b.items[i])
    case JObject(fs) =>
      b.JObject? && |b.fields| == |fs|
      && forall i :: 0 <= i < |fs| ==> fs[i].0 == b.fields[i].0 && Cleaned(fs[i].1, b.fields[i].1)
    case JFloat(f) => b == if f.Finite? then a else JNull
    case _ => b == a
  }

  // ---------------------------------------------------------------- users and workspaces

  datatype User = User(id: UserId, name: Option<string>, email: string)

  /** What the background tasks read of a workspace row and its relationships. */
  datatype WorkspaceView = WorkspaceView(id: WorkspaceId, name: string, owner: User, team: seq<User>)

  /** `set(workspace.team_members + [workspace.owner])`; the iteration order of a Python set is
   *  unspecified, the model takes the order of first occurrence. */
  function UsersToNotify(w: WorkspaceView): (users: seq<User>)
    ensures NoDuplicates(users)
    ensures w.owner in users
    ensures forall u :: u in users <==> u in w.team || u == w.owner
  {
    var all := w.team + [w.owner];
    var users := Dedup(all);
    assert all[|all| - 1] == w.owner;
    assert forall u :: u in users <==> u in all;
    users
  }

  function Emails(users: seq<User>): (r: seq<string>)
    ensures |r| == |users|
    ensures forall i :: 0 <= i < |users| ==> r[i] == users[i].email
  {
    seq(|users|, i requires 0 <= i < |users| => users[i].email)
  }

  /** `[user.email for user in users_to_notify]`. */
  function Recipients(ws: WorkspaceView): seq<string>
  {
    Emails(UsersToNotify(ws))
  }

  // ---------------------------------------------------------------- uploads and rules

  /** The `analysis_results` JSON the analyser writes; `rowCount` is `None` when the key is absent. */
  datatype AnalysisResults = AnalysisResults(rowCount: Option<int>, columnCount: int, summaryStats: seq<(string, Json)>)

  /** A `data_uploads` row. `schemaInfo` maps column names to dtype strings, in column order.
   *  `analysisResults` is `None` for NULL and for the (falsy) empty dict. */
  datatype Upload = Upload(
    id: UploadId,
    workspaceId: WorkspaceId,
    uploadType: string,
    filePath: Option<string>,
    fileContent: Option<string>,
    uploadedAt: int,
    schemaInfo: Option<seq<(string, string)>>,
    analysisResults: Option<AnalysisResults>,
    schemaChanged: bool)

  datatype AlertRule = AlertRule(
    id: RuleId,
    workspaceId: WorkspaceId,
    columnName: string,
    metric: string,
    condition: string,
    value: real,
    isActive: bool)

  /** `AlertRule.workspace_id == workspace.id, AlertRule.is_active == True`, in table order. */
  function ActiveRules(rules: seq<AlertRule>, ws: WorkspaceId): (r: seq<AlertRule>)
    ensures forall i :: 0 <= i < |r| ==> r[i] in rules && r[i].isActive && r[i].workspaceId == ws
    ensures forall i :: 0 <= i < |rules| && rules[i].isActive && rules[i].workspaceId == ws ==> rules[i] in r
  {
    if rules == [] then []
    else
      var rest := ActiveRules(rules[..|rules| - 1], ws);
      var last := rules[|rules| - 1];
      assert forall i :: 0 <= i < |rules| - 1 ==> rules[..|rules| - 1][i] == rules[i];
      if last.isActive && last.workspaceId == ws then rest + [last] else rest
  }

  /** The query keeps table order: it works table piece by table piece, a matching rule is
   *  kept and any other rule dropped. */
  lemma {:induction false} ActiveRulesAppend(a: seq<AlertRule>, b: seq<AlertRule>, ws: WorkspaceId)
    ensures ActiveRules(a + b, ws) == ActiveRules(a, ws) + ActiveRules(b, ws)
    decreases |b|
  {
    if b == [] {
      assert a + b == a;
    } else {
      var b' := b[..|b| - 1];
      assert (a + b)[..|a + b| - 1] == a + b';
      ActiveRulesAppend(a, b', ws);
    }
  }

  lemma ActiveRulesSingle(rule: AlertRule, ws: WorkspaceId)
    ensures ActiveRules([rule], ws) == if rule.isActive && rule.workspaceId == ws then [rule] else []
  {
    assert [rule][..0] == [];
  }

  // ---------------------------------------------------------------- notifications and e-mail

  /** The text of a notification. Smart-alert texts embed `{actual:.2f}`; float formatting is
   *  not modelled, so the parts are kept. */
  datatype Message =
    | StructuralChange(workspaceName: string)
    | SmartAlert(column: string, metric: string, actual: Json, condition: string, threshold: real)

  function StructuralText(workspaceName: string): string
  {
    "Structural change detected in workspace '" + workspaceName + "'."
  }

  /** A Notification row added to the session (id, `is_read` and `created_at` come from the database). */
  datatype NotificationDraft = NotificationDraft(userId: UserId, workspaceId: WorkspaceId, message: Message, aiInsight: Option<string>)

  /** The `{+.1f}%` change of the row count: either the literal `"0.0%"` or a signed percentage. */
  datatype PercentChange = ZeroPercent | Signed(percent: real)

  datatype MetricChanges = MetricChanges(oldRows: int, newRows: int, percentChange: PercentChange)

  datatype SchemaChanges = SchemaChanges(added: set<string>, removed: set<string>)

  datatype Email =
    | DetailedAlert(
        recipients: seq<string>,
        workspaceName: string,
        uploadType: string,
        newFileName: Option<string>,
        oldFileName: Option<string>,
        aiInsight: Option<string>,
        schemaChanges: Option<SchemaChanges>,
        metricChanges: Option<MetricChanges>)
    | ThresholdAlert(recipients: seq<string>, workspaceName: string, rule: AlertRule, actual: Json, fileName: Option<string>)

  // ---------------------------------------------------------------- the session

  predicate UniqueIds(uploads: seq<Upload>)
  {
    forall i, j :: 0 <= i < j < |uploads| ==> uploads[i].id != uploads[j].id
  }

  /** The position of the upload with id `id`, if any. */
  function IndexOfUpload(uploads: seq<Upload>, id: UploadId): (r: Option<nat>)
    ensures r.Some? ==> r.value < |uploads| && uploads[r.value].id == id
    ensures r.Some? ==> forall j :: 0 <= j < r.value ==> uploads[j].id != id
    ensures r.None? ==> forall j :: 0 <= j < |uploads| ==> uploads[j].id != id
  {
    if uploads == [] then None
    else
      var r := IndexOfUpload(uploads[..|uploads| - 1], id);
      if r.Some? then r
      else if uploads[|uploads| - 1].id == id then Some(|uploads| - 1)
      else None
  }

  /** A database session of a background task: the uploads table as the task sees it, the
   *  Notification rows added so far, and the e-mails handed to the mail service. */
  class Session {
    var uploads: seq<Upload>
    var added: seq<NotificationDraft>
    var outbox: seq<Email>

    constructor (uploads: seq<Upload>)
      ensures this.uploads == uploads && added == [] && outbox == []
    {
      this.uploads := uploads;
      added := [];
      outbox := [];
    }
  }
}
