/** The in-process variant of the background pipeline (app/services/tasks.py): the same
 *  three routines as the Celery worker, with the differences that variant has in its due
 *  rule, its alert rules and its change report. */
module Tasks {
  import opened Common
  import opened Records
  import opened Polling
  import opened Snapshots
  import CeleryWorker

  // ================================================================ schedule_data_fetches

  /** Only the three known intervals are ever due: a never-polled workspace is due at once,
   *  otherwise when the elapsed time strictly exceeds the period. */
  predicate IsDue(w: PollRow, now: int)
  {
    if w.pollingInterval == Some("every_minute") then w.lastPolledAt.None? || now - w.lastPolledAt.value > MINUTE
    else if w.pollingInterval == Some("hourly") then w.lastPolledAt.None? || now - w.lastPolledAt.value > HOUR
    else if w.pollingInterval == Some("daily") then w.lastPolledAt.None? || now - w.lastPolledAt.value > DAY
    else false
  }

  /** The due rule, stated against the interval table. */
  lemma DueRule(w: PollRow, now: int)
    ensures IsDue(w, now) <==>
      Period(w.pollingInterval).Some?
      && (w.lastPolledAt.None? || now - w.lastPolledAt.value > Period(w.pollingInterval).value)
  {
  }

  /** The two schedulers agree on every workspace with a known interval; with an unknown
   *  interval this one never fires while the Celery one fires for a never-polled workspace. */
  lemma DueAgreement(w: PollRow, now: int)
    ensures IsDue(w, now) <==> Period(w.pollingInterval).Some? && CeleryWorker.IsDue(w, now)
    ensures Period(w.pollingInterval).None? && w.lastPolledAt.None? ==> CeleryWorker.IsDue(w, now) && !IsDue(w, now)
  {
  }

  /** One scheduler run: each due, configured, active row runs one fetcher, in row order. */
  method ScheduleDataFetches(rows: seq<PollRow>, now: int) returns (jobs: seq<Job>)
    ensures jobs == Planned(rows, now, IsDue)
  {
    jobs := [];
    var i := 0;
    while i < |rows|
      invariant 0 <= i <= |rows|
      invariant jobs == Planned(rows[..i], now, IsDue)
    {
      var ws := rows[i];
      if ws.isPollingActive {
        var isDue := false;
        if ws.pollingInterval == Some("every_minute") {
          if ws.lastPolledAt.None? || now - ws.lastPolledAt.value > MINUTE { isDue := true; }
        } else if ws.pollingInterval == Some("hourly") {
          if ws.lastPolledAt.None? || now - ws.lastPolledAt.value > HOUR { isDue := true; }
        } else if ws.pollingInterval == Some("daily") {
          if ws.lastPolledAt.None? || now - ws.lastPolledAt.value > DAY { isDue := true; }
        }
        if isDue {
          if ws.dataSource == Some("API") && IsSet(ws.apiUrl) {
            jobs := jobs + [FetchApi(ws.id)];
          } else if ws.dataSource == Some("DB") && IsSet(ws.dbHost) && IsSet(ws.dbQuery) {
            jobs := jobs + [FetchDb(ws.id)];
          }
        }
      }
      assert rows[..i + 1][..i] == rows[..i];
      i := i + 1;
    }
    assert rows[..|rows|] == rows;
  }

  // ================================================================ check_alert_rules

  /** `summary_stats[column][metric]`; `None` stands for the KeyError of a missing key and
   *  the TypeError of indexing something that is not a dict, both of which skip the rule. */
  function Lookup(stats: seq<(string, Json)>, rule: AlertRule): Option<Json>
  {
    var colStats := Get(stats, rule.columnName);
    if colStats.None? || !colStats.value.JObject? then None
    else Get(colStats.value.fields, rule.metric)
  }

  /** Only `greater_than` and `less_than` are tested; a comparison that raises TypeError
   *  (a `None` or a string statistic) skips the rule. */
  predicate Fires(stats: seq<(string, Json)>, rule: AlertRule)
  {
    var actual := Lookup(stats, rule);
    actual.Some?
    && ((rule.condition == "greater_than" && Gt(actual.value, rule.value) == Some(true))
        || (rule.condition == "less_than" && Lt(actual.value, rule.value) == Some(true)))
  }

  /** On the same statistics the two variants fire on exactly the same `greater_than` and
   *  `less_than` rules; `equals` never fires here. */
  lemma FiresAgreement(stats: seq<(string, Json)>, rule: AlertRule)
    ensures Fires(stats, rule) <==>
      rule.condition in {"greater_than", "less_than"} && CeleryWorker.Fires(stats, rule)
    ensures rule.condition == "equals" ==> !Fires(stats, rule)
  {
    var colStats := Get(stats, rule.columnName);
    if colStats.Some? && colStats.value.JObject? && colStats.value.fields == [] {
      assert Lookup(stats, rule).None?;
    }
    if Lookup(stats, rule) == Some(JNull) {
      assert Gt(JNull, rule.value).None? && Lt(JNull, rule.value).None?;
    }
  }

  /** Looking a key up in cleaned fields finds the cleaned value. */
  lemma {:induction false} GetCleaned(fs: seq<(string, Json)>, key: string)
    ensures var cleaned := CeleryWorker.CleanNan(JObject(fs)).fields;
      Get(cleaned, key) == if Get(fs, key).None? then None else Some(CeleryWorker.CleanNan(Get(fs, key).value))
  {
    var cleaned := CeleryWorker.CleanNan(JObject(fs)).fields;
    if fs != [] {
      var tail := CeleryWorker.CleanNan(JObject(fs[1..])).fields;
      assert cleaned[1..] == tail;
      GetCleaned(fs[1..], key);
    }
  }

  /** A comparison that holds on a cleaned statistic holds on the raw one: cleaning only
   *  turns non-finite floats into `None`, on which no comparison holds. */
  lemma HoldsOnCleaned(condition: string, raw: Json, v: real)
    requires condition in {"greater_than", "less_than"}
    requires CeleryWorker.Holds(condition, CeleryWorker.CleanNan(raw), v)
    ensures (condition == "greater_than" && Gt(raw, v) == Some(true))
         || (condition == "less_than" && Lt(raw, v) == Some(true))
  {
    assert CeleryWorker.CleanNan(raw).JFloat? || CeleryWorker.CleanNan(raw).JInt? || CeleryWorker.CleanNan(raw).JBool?;
  }

  /** The statistic the Celery worker reads from the cleaned dict is the cleaned raw one. */
  lemma ActualOnCleaned(stats: seq<(string, Json)>, rule: AlertRule)
    requires CeleryWorker.Actual(CeleryWorker.CleanStats(stats), rule).Some?
    ensures Lookup(stats, rule).Some?
    ensures CeleryWorker.Actual(CeleryWorker.CleanStats(stats), rule) == Some(CeleryWorker.CleanNan(Lookup(stats, rule).value))
  {
    GetCleaned(stats, rule.columnName);
    var col := Get(stats, rule.columnName).value;
    var cleanedCol := CeleryWorker.CleanNan(col);
    assert Get(CeleryWorker.CleanStats(stats), rule.columnName) == Some(cleanedCol);
    assert col.JObject? by {
      match col
      case JObject(_) =>
      case JList(_) =>
      case JFloat(f) =>
      case _ =>
    }
    GetCleaned(col.fields, rule.metric);
    assert cleanedCol == CeleryWorker.CleanNan(JObject(col.fields));
  }

  /** A rule the Celery worker fires on the cleaned statistics also fires here on the raw
   *  ones, when its condition is one this variant knows. */
  lemma CleanedFiringImpliesRaw(stats: seq<(string, Json)>, rule: AlertRule)
    requires rule.condition in {"greater_than", "less_than"}
    requires CeleryWorker.Fires(CeleryWorker.CleanStats(stats), rule)
    ensures Fires(stats, rule)
  {
    ActualOnCleaned(stats, rule);
    HoldsOnCleaned(rule.condition, Lookup(stats, rule).value, rule.value);
  }

  /** The converse fails: an infinite mean fires a `greater_than` rule on the raw statistics
   *  of this variant, while `clean_nan` turns it into `None` in the Celery worker. */
  lemma InfinityFiresOnlyRaw(rule: AlertRule)
    requires rule.condition == "greater_than"
    ensures var stats := [(rule.columnName, JObject([(rule.metric, JFloat(PosInf))]))];
      Fires(stats, rule) && !CeleryWorker.Fires(CeleryWorker.CleanStats(stats), rule)
  {
    var stats := [(rule.columnName, JObject([(rule.metric, JFloat(PosInf))]))];
    var cleaned := CeleryWorker.CleanStats(stats);
    var inner := [(rule.metric, JFloat(PosInf))];
    GetCleaned(stats, rule.columnName);
    GetCleaned(inner, rule.metric);
    assert Get(cleaned, rule.columnName) == Some(CeleryWorker.CleanNan(JObject(inner)));
    assert Get(CeleryWorker.CleanNan(JObject(inner)).fields, rule.metric) == Some(JNull);
  }

  /** The smart-alert text of a rule that fires. */
  function AlertMessage(stats: seq<(string, Json)>, rule: AlertRule): Message
    requires Fires(stats, rule)
  {
    SmartAlert(rule.columnName, rule.metric, Lookup(stats, rule).value, rule.condition, rule.value)
  }

  /** The notifications a fired rule adds: one per user to notify. */
  function RuleDrafts(ws: WorkspaceView, stats: seq<(string, Json)>, rule: AlertRule): seq<NotificationDraft>
    requires Fires(stats, rule)
  {
    DraftsForUsers(UsersToNotify(ws), ws.id, AlertMessage(stats, rule), None)
  }

  function RuleEmail(ws: WorkspaceView, upload: Upload, stats: seq<(string, Json)>, rule: AlertRule): Email
    requires Fires(stats, rule)
  {
    ThresholdAlert(Recipients(ws), ws.name, rule, Lookup(stats, rule).value, upload.filePath)
  }

  /** What one rule adds: its notifications when it fires, nothing otherwise. */
  function FiredDrafts(ws: WorkspaceView, stats: seq<(string, Json)>, rule: AlertRule): seq<NotificationDraft>
  {
    if Fires(stats, rule) then RuleDrafts(ws, stats, rule) else []
  }

  function FiredEmails(ws: WorkspaceView, upload: Upload, stats: seq<(string, Json)>, rule: AlertRule): seq<Email>
  {
    if Fires(stats, rule) then [RuleEmail(ws, upload, stats, rule)] else []
  }

  function AlertDrafts(ws: WorkspaceView, stats: seq<(string, Json)>, rules: seq<AlertRule>): seq<NotificationDraft>
  {
    if rules == [] then []
    else AlertDrafts(ws, stats, rules[..|rules| - 1]) + FiredDrafts(ws, stats, rules[|rules| - 1])
  }

  function AlertEmails(ws: WorkspaceView, upload: Upload, stats: seq<(string, Json)>, rules: seq<AlertRule>): seq<Email>
  {
    if rules == [] then []
    else AlertEmails(ws, upload, stats, rules[..|rules| - 1]) + FiredEmails(ws, upload, stats, rules[|rules| - 1])
  }

  lemma MulSucc(m: int, n: int)
    ensures m * (n + 1) == m * n + m
  {
  }

  /** Each e-mail of a fired rule comes with one notification for every user to notify. */
  lemma {:induction false} AlertCounts(ws: WorkspaceView, upload: Upload, stats: seq<(string, Json)>, rules: seq<AlertRule>)
    ensures |AlertDrafts(ws, stats, rules)| == |UsersToNotify(ws)| * |AlertEmails(ws, upload, stats, rules)|
  {
    if rules != [] {
      var init := rules[..|rules| - 1];
      var last := rules[|rules| - 1];
      AlertCounts(ws, upload, stats, init);
      var m := |UsersToNotify(ws)|;
      var n := |AlertEmails(ws, upload, stats, init)|;
      if Fires(stats, last) {
        assert |RuleDrafts(ws, stats, last)| == m;
        assert |AlertEmails(ws, upload, stats, rules)| == n + 1;
        MulSucc(m, n);
      }
    }
  }

  /** Every e-mail is for a rule of the list that fires, sent to the team plus the owner. */
  lemma {:induction false} AlertEmailsFire(ws: WorkspaceView, upload: Upload, stats: seq<(string, Json)>, rules: seq<AlertRule>)
    ensures forall e :: e in AlertEmails(ws, upload, stats, rules) ==>
      e.ThresholdAlert? && e.rule in rules && Fires(stats, e.rule) && e.recipients == Recipients(ws)
  {
    if rules != [] {
      var init := rules[..|rules| - 1];
      AlertEmailsFire(ws, upload, stats, init);
      assert forall r :: r in init ==> r in rules;
    }
  }

  /** Every notification goes to a user to notify, without an AI insight. */
  lemma {:induction false} AlertDraftsReachUsers(ws: WorkspaceView, stats: seq<(string, Json)>, rules: seq<AlertRule>)
    ensures forall d :: d in AlertDrafts(ws, stats, rules) ==>
      d.workspaceId == ws.id && d.aiInsight.None? && exists u :: u in UsersToNotify(ws) && u.id == d.userId
  {
    if rules != [] {
      var last := rules[|rules| - 1];
      AlertDraftsReachUsers(ws, stats, rules[..|rules| - 1]);
      if Fires(stats, last) {
        var ds := RuleDrafts(ws, stats, last);
        var users := UsersToNotify(ws);
        forall d | d in ds
          ensures d.workspaceId == ws.id && d.aiInsight.None? && exists u :: u in users && u.id == d.userId
        {
          var i :| 0 <= i < |ds| && ds[i] == d;
          assert users[i] in users;
        }
      }
    }
  }

  /** One rule evaluation: one notification per user and one e-mail when it fires. */
  method EvaluateRule(db: Session, ws: WorkspaceView, upload: Upload, stats: seq<(string, Json)>, rule: AlertRule,
                      users: seq<User>, recipients: seq<string>) returns (triggered: bool)
    requires users == UsersToNotify(ws) && recipients == Recipients(ws)
    modifies db
    ensures triggered == Fires(stats, rule)
    ensures db.uploads == old(db.uploads)
    ensures db.added == old(db.added) + FiredDrafts(ws, stats, rule)
    ensures db.outbox == old(db.outbox) + FiredEmails(ws, upload, stats, rule)
  {
    var actual := Lookup(stats, rule);
    if actual.None? {
      return false;
    }
    triggered := false;
    if rule.condition == "greater_than" {
      var gt := Gt(actual.value, rule.value);
      if gt.None? {
        return false;
      }
      triggered := gt.value;
    } else if rule.condition == "less_than" {
      var lt := Lt(actual.value, rule.value);
      if lt.None? {
        return false;
      }
      triggered := lt.value;
    }
    if triggered {
      var message := SmartAlert(rule.columnName, rule.metric, actual.value, rule.condition, rule.value);
      NotifyUsers(db, users, ws.id, message, None);
      db.outbox := db.outbox + [ThresholdAlert(recipients, ws.name, rule, actual.value, upload.filePath)];
    }
  }

  lemma AlertStep(ws: WorkspaceView, upload: Upload, stats: seq<(string, Json)>, rules: seq<AlertRule>, i: nat)
    requires i < |rules|
    ensures AlertDrafts(ws, stats, rules[..i + 1]) == AlertDrafts(ws, stats, rules[..i]) + FiredDrafts(ws, stats, rules[i])
    ensures AlertEmails(ws, upload, stats, rules[..i + 1]) == AlertEmails(ws, upload, stats, rules[..i]) + FiredEmails(ws, upload, stats, rules[i])
  {
    assert rules[..i + 1][..i] == rules[..i];
  }

  /** `check_alert_rules`: the active rules of the workspace, in order. */
  method CheckAlertRules(db: Session, ws: WorkspaceView, upload: Upload, stats: seq<(string, Json)>, table: seq<AlertRule>)
    modifies db
    ensures db.uploads == old(db.uploads)
    ensures db.added == old(db.added) + AlertDrafts(ws, stats, ActiveRules(table, ws.id))
    ensures db.outbox == old(db.outbox) + AlertEmails(ws, upload, stats, ActiveRules(table, ws.id))
  {
    var rules := ActiveRules(table, ws.id);
    if rules == [] {
      return;
    }
    EvaluateRules(db, ws, upload, stats, rules);
  }

  method EvaluateRules(db: Session, ws: WorkspaceView, upload: Upload, stats: seq<(string, Json)>, rules: seq<AlertRule>)
    modifies db
    ensures db.uploads == old(db.uploads)
    ensures db.added == old(db.added) + AlertDrafts(ws, stats, rules)
    ensures db.outbox == old(db.outbox) + AlertEmails(ws, upload, stats, rules)
  {
    var users := UsersToNotify(ws);
    var recipients := Recipients(ws);
    ghost var added0, outbox0 := db.added, db.outbox;
    var i := 0;
    while i < |rules|
      invariant 0 <= i <= |rules|
      invariant db.uploads == old(db.uploads)
      invariant db.added == added0 + AlertDrafts(ws, stats, rules[..i])
      invariant db.outbox == outbox0 + AlertEmails(ws, upload, stats, rules[..i])
    {
      var _ := EvaluateRule(db, ws, upload, stats, rules[i], users, recipients);
      AppendAssoc(added0, AlertDrafts(ws, stats, rules[..i]), FiredDrafts(ws, stats, rules[i]));
      AppendAssoc(outbox0, AlertEmails(ws, upload, stats, rules[..i]), FiredEmails(ws, upload, stats, rules[i]));
      AlertStep(ws, upload, stats, rules, i);
      i := i + 1;
    }
    assert rules[..|rules|] == rules;
  }

  // ================================================================ process_csv_task

  /** What the task returns: nothing for a missing upload or empty content, an error status
   *  when an exception escapes (the transaction is then not committed), or success. */
  datatype Outcome = NoResult | Failed | Succeeded

  /** The comparison with the previous upload: the row count counts as changed only when the
   *  previous analysis has a `row_count` (no default). */
  function Compare(prev: Option<Upload>, currentType: string, newCols: set<string>, newRows: int): CeleryWorker.Comparison
  {
    if prev.Some? && prev.value.analysisResults.Some? && prev.value.uploadType == currentType then
      var oldCols := ColumnNames(prev.value.schemaInfo.GetOr([]));
      var oldRows := prev.value.analysisResults.value.rowCount;
      CeleryWorker.Comparison(oldCols != newCols, oldRows.Some? && oldRows.value != newRows, oldCols, oldRows.GetOr(0))
    else CeleryWorker.Comparison(false, false, {}, 0)
  }

  /** Where the two variants compare differently: only when the previous analysis has no
   *  `row_count`, which the Celery worker reads as 0. */
  lemma CompareAgreement(prev: Option<Upload>, currentType: string, newCols: set<string>, newRows: int)
    ensures Compare(prev, currentType, newCols, newRows).schemaChanged
         == CeleryWorker.Compare(prev, currentType, newCols, newRows).schemaChanged
    ensures Compare(prev, currentType, newCols, newRows).rowChanged
         ==> CeleryWorker.Compare(prev, currentType, newCols, newRows).rowChanged
    ensures CeleryWorker.Compare(prev, currentType, newCols, newRows).rowChanged
            && !Compare(prev, currentType, newCols, newRows).rowChanged
         ==> prev.value.analysisResults.value.rowCount.None? && newRows != 0
  {
  }

  /** `f"{(new - old) / old * 100 if old != 0 else 0:+.1f}%"`: a zero old count gives `+0.0%`. */
  function Percent(c: CeleryWorker.Comparison, newRows: int): (p: PercentChange)
    ensures p.Signed?
    ensures c.oldRows == 0 ==> p.percent == 0.0
    ensures c.oldRows != 0 ==> p.percent * c.oldRows as real == (newRows - c.oldRows) as real * 100.0
  {
    if c.oldRows != 0 then Signed((newRows - c.oldRows) as real / c.oldRows as real * 100.0) else Signed(0.0)
  }

  function SchemaChangesOf(c: CeleryWorker.Comparison, newCols: set<string>): SchemaChanges
  {
    SchemaChanges(newCols - c.oldCols, c.oldCols - newCols)
  }

  /** The AI insight, asked for only when the column set changed. */
  function InsightFor(c: CeleryWorker.Comparison, newCols: set<string>, insightOf: SchemaChanges -> string): Option<string>
  {
    if c.schemaChanged then Some(insightOf(SchemaChangesOf(c, newCols))) else None
  }

  function ChangeDrafts(ws: WorkspaceView, c: CeleryWorker.Comparison, newCols: set<string>, insightOf: SchemaChanges -> string): seq<NotificationDraft>
  {
    if c.schemaChanged || c.rowChanged then
      DraftsForUsers(UsersToNotify(ws), ws.id, StructuralChange(ws.name), InsightFor(c, newCols, insightOf))
    else []
  }

  function ChangeEmails(ws: WorkspaceView, current: Upload, prev: Option<Upload>, c: CeleryWorker.Comparison,
                        newCols: set<string>, newRows: int, insightOf: SchemaChanges -> string): seq<Email>
  {
    if c.schemaChanged || c.rowChanged then
      [DetailedAlert(Recipients(ws), ws.name, current.uploadType, current.filePath,
        if prev.Some? then prev.value.filePath else Some("N/A"),
        InsightFor(c, newCols, insightOf),
        if c.schemaChanged then Some(SchemaChangesOf(c, newCols)) else None,
        if c.rowChanged then Some(MetricChanges(c.oldRows, newRows, Percent(c, newRows))) else None)]
    else []
  }

  /** The change report carries a schema diff and an AI insight exactly when the column set
   *  changed, and metric changes exactly when the row count changed. */
  lemma ChangeReport(ws: WorkspaceView, current: Upload, prev: Option<Upload>, c: CeleryWorker.Comparison,
                     newCols: set<string>, newRows: int, insightOf: SchemaChanges -> string)
    ensures |ChangeEmails(ws, current, prev, c, newCols, newRows, insightOf)| == if c.schemaChanged || c.rowChanged then 1 else 0
    ensures forall e :: e in ChangeEmails(ws, current, prev, c, newCols, newRows, insightOf) ==>
      (e.schemaChanges.Some? <==> c.schemaChanged) && (e.aiInsight.Some? <==> c.schemaChanged)
      && (e.metricChanges.Some? <==> c.rowChanged)
      && (e.schemaChanges.Some? ==> e.schemaChanges.value.added !! c.oldCols && e.schemaChanges.value.removed !! newCols)
    ensures |ChangeDrafts(ws, c, newCols, insightOf)| == if c.schemaChanged || c.rowChanged then |UsersToNotify(ws)| else 0
    ensures forall d :: d in ChangeDrafts(ws, c, newCols, insightOf) ==> (d.aiInsight.Some? <==> c.schemaChanged)
  {
  }

  function Analyzed(current: Upload, frame: Frame, describe: seq<(string, Json)>, c: CeleryWorker.Comparison): Upload
  {
    current.(schemaInfo := Some(frame.columns),
             analysisResults := Some(AnalysisResults(Some(frame.rowCount), |frame.columns|, describe)),
             schemaChanged := c.schemaChanged)
  }

  method NotifyChange(db: Session, ws: WorkspaceView, current: Upload, previous: Option<Upload>, c: CeleryWorker.Comparison,
                      newCols: set<string>, newRowCount: int, insightOf: SchemaChanges -> string)
    modifies db
    ensures db.uploads == old(db.uploads)
    ensures db.added == old(db.added) + ChangeDrafts(ws, c, newCols, insightOf)
    ensures db.outbox == old(db.outbox) + ChangeEmails(ws, current, previous, c, newCols, newRowCount, insightOf)
  {
    if c.schemaChanged || c.rowChanged {
      var insight: Option<string> := None;
      var schemaChanges: Option<SchemaChanges> := None;
      if c.schemaChanged {
        schemaChanges := Some(SchemaChanges(newCols - c.oldCols, c.oldCols - newCols));
        insight := Some(insightOf(schemaChanges.value));
      }
      var users := UsersToNotify(ws);
      NotifyUsers(db, users, ws.id, StructuralChange(ws.name), insight);
      var metrics: Option<MetricChanges> := None;
      if c.rowChanged {
        var percent := if c.oldRows != 0 then Signed((newRowCount - c.oldRows) as real / c.oldRows as real * 100.0) else Signed(0.0);
        metrics := Some(MetricChanges(c.oldRows, newRowCount, percent));
      }
      db.outbox := db.outbox + [DetailedAlert(Recipients(ws), ws.name, current.uploadType, current.filePath,
        if previous.Some? then previous.value.filePath else Some("N/A"), insight, schemaChanges, metrics)];
    }
  }

  /** `process_csv_task`: the statistics are `describe()` of the numeric columns, stored
   *  without cleaning. `json.dumps` writes a NaN or an infinity as a bare `NaN` or `Infinity`
   *  token, which the PostgreSQL `json` column refuses, so the commit raises exactly when the
   *  statistics are not all finite: the analysis and the notifications are rolled back, while
   *  the e-mails, sent before the commit, stay sent. */
  method ProcessCsvTask(db: Session, uploadId: UploadId, frame: Option<Frame>,
                        workspaces: map<WorkspaceId, WorkspaceView>, table: seq<AlertRule>,
                        insightOf: SchemaChanges -> string) returns (outcome: Outcome)
    modifies db
    ensures IndexOfUpload(old(db.uploads), uploadId).None? ==> outcome == NoResult && unchanged(db)
    ensures IndexOfUpload(old(db.uploads), uploadId).Some? ==>
      var k := IndexOfUpload(old(db.uploads), uploadId).value;
      var current := old(db.uploads)[k];
      if !IsSet(current.fileContent) then outcome == NoResult && unchanged(db)
      else if frame.None? || frame.value.describeNumeric.None? then outcome == Failed && unchanged(db)
      else
        var f := frame.value;
        var prev := PreviousUpload(old(db.uploads), current);
        var c := Compare(prev, current.uploadType, ColumnNames(f.columns), f.rowCount);
        var stats := f.describeNumeric.value;
        var committed := AllFinite(JObject(stats));
        outcome == (if committed then Succeeded else Failed)
        && db.uploads == (if committed then old(db.uploads)[k := Analyzed(current, f, stats, c)] else old(db.uploads))
        && (current.workspaceId !in workspaces ==> db.added == old(db.added) && db.outbox == old(db.outbox))
        && (current.workspaceId in workspaces ==>
             var ws := workspaces[current.workspaceId];
             (committed ==> db.added == old(db.added) + ChangeDrafts(ws, c, ColumnNames(f.columns), insightOf)
                                        + AlertDrafts(ws, stats, ActiveRules(table, ws.id)))
             && (!committed ==> db.added == old(db.added))
             && db.outbox == old(db.outbox)
                         + ChangeEmails(ws, current, prev, c, ColumnNames(f.columns), f.rowCount, insightOf)
                         + AlertEmails(ws, current, stats, ActiveRules(table, ws.id)))
  {
    var index := IndexOfUpload(db.uploads, uploadId);
    if index.None? {
      return NoResult;
    }
    var k := index.value;
    var current := db.uploads[k];
    if !IsSet(current.fileContent) {
      return NoResult;
    }
    if frame.None? {
      return Failed;
    }
    var df := frame.value;
    var newCols := ColumnNames(df.columns);
    var previous := PreviousUpload(db.uploads, current);
    var c := Compare(previous, current.uploadType, newCols, df.rowCount);
    if df.describeNumeric.None? {
      return Failed;
    }
    var stats := df.describeNumeric.value;
    var uploads0, added0 := db.uploads, db.added;
    db.uploads := db.uploads[k := Analyzed(current, df, stats, c)];
    if current.workspaceId in workspaces {
      var ws := workspaces[current.workspaceId];
      NotifyChange(db, ws, current, previous, c, newCols, df.rowCount, insightOf);
      CheckAlertRules(db, ws, current, stats, table);
    }
    if !AllFinite(JObject(stats)) {
      // the commit raises: the session is rolled back and the error status returned
      db.uploads, db.added := uploads0, added0;
      return Failed;
    }
    return Succeeded;
  }
}
