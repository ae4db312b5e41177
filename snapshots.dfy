/** What the two analysers (`process_csv_task` and `check_alert_rules` in
 *  app/services/celery_worker.py and app/services/tasks.py) share: the parsed frame they
 *  receive, the query for the previous upload, Python's comparison of a stored statistic
 *  with a rule threshold, and one notification per user. */
module Snapshots {
  import opened Common
  import opened Records
  import Sorting

  /** A parsed CSV: its columns with their dtype strings in order, its row count, and the
   *  `describe(include="all").to_dict()` / `describe().to_dict()` output (`None` when
   *  `describe` raises). */
  datatype Frame = Frame(
    columns: seq<(string, string)>,
    rowCount: nat,
    describeAll: Option<seq<(string, Json)>>,
    describeNumeric: Option<seq<(string, Json)>>)

  function ColumnNames(schema: seq<(string, string)>): (names: set<string>)
    ensures forall i :: 0 <= i < |schema| ==> schema[i].0 in names
    ensures forall c :: c in names ==> exists i :: 0 <= i < |schema| && schema[i].0 == c
  {
    set i | 0 <= i < |schema| :: schema[i].0
  }

  /** The rows the previous-upload query filters: same workspace, same type, another id. */
  predicate IsCandidate(u: Upload, current: Upload)
  {
    u.workspaceId == current.workspaceId && u.uploadType == current.uploadType && u.id != current.id
  }

  function Candidates(uploads: seq<Upload>, current: Upload): (r: seq<Upload>)
    ensures forall i :: 0 <= i < |r| ==> r[i] in uploads && IsCandidate(r[i], current)
    ensures forall u :: u in uploads && IsCandidate(u, current) ==> u in r
  {
    if uploads == [] then []
    else
      var rest := Candidates(uploads[1..], current);
      assert forall u :: u in uploads[1..] ==> u in uploads;
      if IsCandidate(uploads[0], current) then [uploads[0]] + rest else rest
  }

  function UploadTime(u: Upload): real
  {
    u.uploadedAt as real
  }

  /** `.order_by(DataUpload.uploaded_at.desc()).first()` over the candidates. */
  function PreviousUpload(uploads: seq<Upload>, current: Upload): Option<Upload>
  {
    var c := Candidates(uploads, current);
    if c == [] then None else Some(Sorting.SortDesc(c, UploadTime)[0])
  }

  /** The previous upload is the latest other upload of the same workspace and type. */
  lemma PreviousUploadIsLatest(uploads: seq<Upload>, current: Upload)
    ensures PreviousUpload(uploads, current).None? <==>
      forall u :: u in uploads ==> !IsCandidate(u, current)
    ensures PreviousUpload(uploads, current).Some? ==>
      var p := PreviousUpload(uploads, current).value;
      p in uploads && IsCandidate(p, current)
      && forall u :: u in uploads && IsCandidate(u, current) ==> u.uploadedAt <= p.uploadedAt
  {
    var c := Candidates(uploads, current);
    if c != [] {
      Sorting.SortDescHead(c, UploadTime);
    } else {
      assert forall u :: u in uploads ==> !IsCandidate(u, current);
    }
  }

  // ---------------------------------------------------------------- comparing a statistic

  /** A JSON value Python compares as a number (bool, int, float). */
  function NumberOf(j: Json): Option<Float>
  {
    match j
    case JBool(b) => Some(Finite(if b then 1.0 else 0.0))
    case JInt(i) => Some(Finite(i as real))
    case JFloat(f) => Some(f)
    case _ => None
  }

  predicate FloatGreater(f: Float, v: real)
  {
    match f
    case Finite(r) => r > v
    case PosInf => true
    case _ => false
  }

  predicate FloatLess(f: Float, v: real)
  {
    match f
    case Finite(r) => r < v
    case NegInf => true
    case _ => false
  }

  /** `actual > v`; `None` stands for the TypeError Python raises for a non-number. */
  function Gt(actual: Json, v: real): Option<bool>
  {
    if NumberOf(actual).Some? then Some(FloatGreater(NumberOf(actual).value, v)) else None
  }

  function Lt(actual: Json, v: real): Option<bool>
  {
    if NumberOf(actual).Some? then Some(FloatLess(NumberOf(actual).value, v)) else None
  }

  /** `actual == v`, which never raises: a non-number is simply unequal. */
  function Eq(actual: Json, v: real): bool
  {
    NumberOf(actual) == Some(Finite(v))
  }

  // ---------------------------------------------------------------- one notification per user

  function DraftsForUsers(users: seq<User>, ws: WorkspaceId, message: Message, insight: Option<string>): (r: seq<NotificationDraft>)
    ensures |r| == |users|
    ensures forall i :: 0 <= i < |users| ==> r[i] == NotificationDraft(users[i].id, ws, message, insight)
  {
    seq(|users|, i requires 0 <= i < |users| => NotificationDraft(users[i].id, ws, message, insight))
  }

  /** Every user gets a draft with the message. */
  lemma DraftsReachUsers(users: seq<User>, ws: WorkspaceId, message: Message, insight: Option<string>)
    ensures forall u :: u in users ==>
      exists d :: d in DraftsForUsers(users, ws, message, insight) && d.userId == u.id && d.message == message
  {
    var ds := DraftsForUsers(users, ws, message, insight);
    forall u | u in users
      ensures exists d :: d in ds && d.userId == u.id && d.message == message
    {
      var i :| 0 <= i < |users| && users[i] == u;
      assert ds[i] in ds;
    }
  }

  /** Every draft carries the message and is for one of the users. */
  lemma DraftsFromUsers(users: seq<User>, ws: WorkspaceId, message: Message, insight: Option<string>)
    ensures forall d :: d in DraftsForUsers(users, ws, message, insight) ==>
      d.message == message && exists u :: u in users && d.userId == u.id
  {
    var ds := DraftsForUsers(users, ws, message, insight);
    forall d | d in ds
      ensures d.message == message && exists u :: u in users && d.userId == u.id
    {
      var i :| 0 <= i < |ds| && ds[i] == d;
      assert users[i] in users;
    }
  }

  /** The `for user in users_to_notify: db.add(Notification(...))` loop shared by both
   *  analysers: one draft per user, in order, and nothing else touched. */
  method NotifyUsers(db: Session, users: seq<User>, ws: WorkspaceId, message: Message, insight: Option<string>)
    modifies db
    ensures db.uploads == old(db.uploads) && db.outbox == old(db.outbox)
    ensures db.added == old(db.added) + DraftsForUsers(users, ws, message, insight)
  {
    var i := 0;
    while i < |users|
      invariant 0 <= i <= |users|
      invariant db.uploads == old(db.uploads) && db.outbox == old(db.outbox)
      invariant db.added == old(db.added) + DraftsForUsers(users[..i], ws, message, insight)
    {
      db.added := db.added + [NotificationDraft(users[i].id, ws, message, insight)];
      i := i + 1;
      assert DraftsForUsers(users[..i], ws, message, insight)
          == DraftsForUsers(users[..i - 1], ws, message, insight) + [NotificationDraft(users[i - 1].id, ws, message, insight)];
    }
    assert users[..|users|] == users;
  }
}
